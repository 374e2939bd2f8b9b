# TRex traffic generator: verified models

These Dafny modules model the parts of the TRex traffic generator in which many operations share
state, and prove what those parts keep over whole runs. `dafny verify dfyconfig.toml` checks everything.

* **The traffic thread** (`Templates`, `Policer`, `Nodes`, `FlowBooks`, `Progress`, `ThreadState`, `Pacing`,
  `Wire`, `Scheduler`). A discrete-event loop pops the earliest of its nodes: packets of flows, waiting flows,
  batches of client ports to release, flow starts, syncs and the exit. Flows are started under one token
  bucket per template, replayed packet by packet, taught the translation a NAT device gives them, and
  cleaned up at the end. `FlowGenThread` is the thread with its fields updated in place; pool memory is a
  map from addresses to nodes, so that a node that is freed twice, leaked or used after its release breaks an
  invariant. Ghost fields keep what every flow played and sent, who holds every port, and the chances to start
  flows. `StartGenerateStateful` states what holds at the end of every run with clean close: which flows it
  has started, what each of them sent, that all went out in order of time, and that nothing is left over.
  `PlayTemplates` makes a thread and runs it.
* **Flow statistics** (`FlowStatRules`, `FlowStatRuns`, `FlowStats`, `RxCounters`). The rules on values, every
  well-formed run of them, the manager and its two maps as objects proved against the rules, and the
  counters of the card.
* **Packet rewriting** (`Splicing`, `MiniVm`, `Plugins`, `TcpSeq`). The payload programs write into a buffer
  of the size they declared; the changes of size enter the numbering of the TCP flow (section 3.4 of RFC 9293).
* **Option parsing** (`OptionLookup`, `Arrangements`, `OptionParser`). An in-place rotation of the argument
  array, proved against a reference parse.
* **Captures** (`CaptureRules`, `Capture`). Loading, numbering and timing of a capture, and that the result is
  a template the thread can replay.
* **Around them** (`NatReports`, `Translations`, `Latency`, `TxBatches`, `Platform`). Messages of NAT observations
  and that they are what the threads rely on, ICMP probes, transmit bursts, and the tables of threads, ports
  and queues.

`Sums`, `Selections` and `Wrappers` hold sums over maps, choices of elements by their places, and options.

What lies outside is a parameter: the clock, the ports the tuple generator hands out, the translations of the
device and the reports of it (`Scheduling.Env`), random numbers and version 6 address texts, what the card
counts and accepts. Where the program stops itself with an assertion that its own arithmetic can reach, the
model returns failure and says when: a short flow id of 24 bits may still be in the table after a full turn of
the id space (`Collision`). Reports are assumed to concern a tagged packet whose short id was not given to a
newer flow meanwhile (`Faithful`), which holds of all the receive core collects if it sees only such packets
(`RingIsObserved`); any report may be lost, late or repeated.

Some promises hold only under a condition, and it is proved that they hold just when the condition does: user id
65535 and 256 or more streams of a user (`SlotIsTaken`, `DelForgets`), the totals of a flow-statistics user over
its sessions, which reports in between spoil (`TotalIsExact`, `TotalsAreExact`, with `ReportSpoilsTotal` as
witness), counters that grow by 2^32 between reads (`Conservation`) or are read one at a time
(`SingleReadsAreRight`), a port response at the very end of a payload (`ResponseFits`), more than 32 flows in a
capture (`FlowNumberIsKey`, `FiveBitsClash`), ICMP replies after number 65535 (`RepliesAnswer`, with
`WrapRepliesTwice` as witness), acknowledgements that lag behind (`LateAck`), and a stop of the option parser in
the middle of clumped letters, where the code differs from its documentation (`AfterStop`, with
`StopIsNotTheEnd` as witness).

## Model

| member | source | states |
|---|---|---|
| Scheduling.FlowGenThread.StartGenerateStateful | src/bp_sim.cpp:4074-4134 | for every set of templates, every environment and every interleaving a run with clean close ends. Exactly those flows were started, with their ids, templates and times, that one chance every d seconds grants when the templates take turns and their meters decide, up to the end of the first pass or until every template is spent. Every pool node and client port has been given back exactly once, the fid table is empty, open flows equal closed flows; every flow played its schedule, sent every packet of the first pass and, when draining, all but those of repeating templates, repeated until the first pass ended, and ended early only while waiting for its translation; in learn mode exactly the flows of two-way templates were put in the table, and every responder packet of these went out translated. All flows together sent in order of time, and what was sent is each flow's packets and no more. The only other end is the program's own check on short flow ids, which no run reaches that is shorter than 2^24 - 1 chances |
| Scheduling.FlowGenThread.FlushFile | src/bp_sim.cpp:3501-3658 | a pass keeps all invariants and ends; after the draining pass no node is left in the pool and the queue is empty |
| Scheduling.FlowGenThread.RunPass | src/bp_sim.cpp:3530-3645 | total termination of the event loop, although the sync node re-queues itself and freeing a flow may push a new batch: flow starts left, then weighted packets and ports left, then sync ticks to the earliest other node; the queue is never empty when its top is taken |
| Scheduling.FlowGenThread.Top | src/bp_sim.cpp:3532-3532 | the event taken is one of the earliest queued |
| Scheduling.FlowGenThread.HandleNode | src/bp_sim.cpp:3573-3645 | every event other than a sync or the end keeps the invariants and uses up starts or work |
| Scheduling.FlowGenThread.HandleFlowPkt | src/bp_sim.cpp:3596-3616 | a due packet is played, appended to the wire unless its template repeats and the thread drains, and moves its flow to the next packet, to the next round, or to its end, where the node is gone; a round follows just when the template repeats and the thread does not drain |
| Scheduling.FlowGenThread.FlushOneNodeToFile | src/bp_sim.h:1992-1994 | the packet at the node goes out after all others |
| Wiring.WirePlays | src/bp_sim.cpp:3596-3616 | when the earliest node plays its packet, what was sent stays in order of time and stays a merge of what the flows have sent |
| Wiring.WireBorn | src/bp_sim.cpp:3618-3636 | a flow started at the time of its chance is due after all that was sent |
| Wiring.MergedMore | src/bp_sim.cpp:3596-3601 | a packet that is sent is the next one of its own flow and of no other |
| Wiring.MergedMeans | src/bp_sim.cpp:3596-3601 | when what was sent is merged from what the flows sent, every packet on the wire was played by its flow and every packet a flow played to be sent is on the wire |
| Wiring.OnWireIs | src/bp_sim.h:1992-1994 | the packets of a flow on the wire are all those with its number, each once and in order |
| Wiring.SentByIs | src/bp_sim.cpp:3596-3616 | what a flow has sent are all the packets it has played that were to go out, as they were played |
| Scheduling.FlowGenThread.HandleNatPkt | src/bp_sim.cpp:3674-3706 | a waiting flow sends its tagged packet, is then waiting, and goes on with initiator packets, each sent; at its first responder packet it is given up: node and table entry are gone and nothing is played. It never reaches its last packet still waiting, and the state assertion never fires |
| Scheduling.FlowGenThread.HandleTick | src/bp_sim.cpp:3618-3636 | when draining the flow-start node is dropped; otherwise the chance is taken as the meters and turns say, and the next one is d seconds later, unless every template was spent |
| Scheduling.FlowGenThread.HandleSync | src/bp_sim.cpp:3708-3727 | a sync takes in the delivered reports in order, sets the clock, ends the pass just when nothing else is queued, and is otherwise due a millisecond later |
| Scheduling.FlowGenThread.HandleExit | src/bp_sim.cpp:3730-3733 | the exit node ends the first pass; it alone is taken away and everything else stays queued, due at its time or later |
| Scheduling.FlowGenThread.ReleaseBatch | src/bp_sim.cpp:3669-3672 | a batch that is due frees exactly its own ports and gives its node back; no port is issued |
| Scheduling.FlowGenThread.HandlerDeferJob | src/bp_sim.cpp:3326-3333 | all ports of a batch, and only these, are freed |
| Scheduling.FlowGenThread.HandlerDeferJobFlush | src/bp_sim.cpp:3335-3347 | after the drain the two batches still being filled are released and nothing is left allocated |
| Scheduling.FlowGenThread.DeferClientPortFree | src/bp_sim.cpp:3350-3382 | a port is freed at once just when the aging time of its protocol and pool is 0, and otherwise becomes the last port of the batch of its own protocol, the one being filled or a new one; with its sixteenth port the batch is queued to be released the aging time from then on; the batch of the other protocol stays; no port is lost or held twice |
| Scheduling.FlowGenThread.AddClient | src/bp_sim.h:1711-1722 | a batch of the given protocol takes a port; with the sixteenth it is queued after the aging time and leaves its slot |
| Scheduling.FlowGenThread.GetDefer | src/bp_sim.h:3598-3612 | the batch being filled is allocated when first needed |
| Scheduling.FlowGenThread.OnNodeLast | src/bp_sim.cpp:4922-4952 | the two extra ports of an RTSP or SIP flow are given back with the flow, and the batch of the other protocol stays |
| Scheduling.FlowGenThread.FreeLastFlowNode | src/bp_sim.h:3684-3694 | a finished flow counts as closed for all flows of its template, gives back every port and then its node |
| Scheduling.FlowGenThread.CreateNode | src/bp_sim.h:3668-3677 | a node comes from unused pool memory |
| Scheduling.FlowGenThread.FreeNode | src/bp_sim.h:3679-3682 | exactly this node goes back to the pool |
| Scheduling.FlowGenThread.UpdateNextPktInFlow | src/bp_sim.h:3855-3869 | the node is due again after the gap the timing mode selects (`Capture.ReplayKeepsCaptureTimes`, `Capture.ReplayTakesTurns`), with its next packet, and the packet played is recorded |
| Scheduling.FlowGenThread.RescheduleFlow | src/bp_sim.cpp:3912-3923 | the node is back at packet 0 after the restart time, and the packet played is recorded |
| Scheduling.FlowGenThread.FinishFlow | src/bp_sim.cpp:3606-3609 | the last packet is recorded, the node is gone and no other flow's, and the flow counts as closed |
| Scheduling.FlowGenThread.TerminateNatFlows | src/bp_sim.cpp:3925-3930 | a flow without a translation leaves the table, its node is gone and no other flow's, and it counts as closed and as timed out |
| Scheduling.FlowGenThread.HandelNatMsg | src/bp_sim.cpp:3953-3985 | a report sets the translation of exactly the flow it was seen for and takes it out of the table; a report for no flow in the table changes no node |
| Scheduling.FlowGenThread.CheckMsgs | src/bp_sim.cpp:3987-4027 | the delivered reports are taken in one after the other: each makes its waiting flow learn, or changes nothing; no schedule is disturbed |
| Scheduling.FlowGenThread.Associate | src/bp_sim.h:3615-3619 | a flow to be learnt is entered under its short id |
| Scheduling.FlowGenThread.GenerateFlow | src/bp_sim.h:3737-3816 | a new flow takes its ports, is at the first packet of its template now, is queued, and is put in the table and marked for its tag just when it is bidirectional in learn mode; it fails just when it is so and its short id is still in the table |
| Scheduling.FlowGenThread.GenerateFlowsRoundrobin | src/bp_sim.cpp:3873-3909 | one chance: the first template in turn, counting up from the current one modulo their number (`Pacing.AroundIs`), whose meter grants starts one flow now and passes the turn on; without one no flow starts; done is reported just when every template is spent |
| Scheduling.FlowGenThread.PickTemplate | src/bp_sim.cpp:3880-3893 | the search asks the meters of the templates in turn, from the current one up and around (`Pacing.AroundIs`), passing over spent ones, and ends at the first that grants |
| Scheduling.FlowGenThread.TryTemplate | src/bp_sim.cpp:3883-3890 | the current template's meter is asked once for one token at the current time; its verdict is returned, and a grant is counted |
| Pacing.FirstGrantWins | src/bp_sim.cpp:3880-3893 | of the next templates in turn, counted up and around (`Pacing.AroundIs`), the first that is not spent and whose meter grants starts the flow; each one up to it that is not spent is asked once, the ones after it are not, and only its counter moves |
| Pacing.AroundIs | src/bp_sim.cpp:3865-3871 | the template k places after template cur of n is template (cur + k) % n |
| Pacing.TurnPasses | src/bp_sim.cpp:3880-3907 | after a start it is the turn of the template behind the one that started, modulo their number; a chance that no template uses leaves the turn where it was |
| Pacing.RoundRobin | src/bp_sim.cpp:3865-3907 | as long as the meter of the template whose turn it is grants, every chance starts a flow, and chance k starts one of template (first turn + k) modulo the number of templates |
| Scheduling.FlowsInTurn | src/bp_sim.cpp:3865-3907 | for a whole thread: under the same condition flow f is of template (thread number + f - 1) modulo the number of templates and starts f - 1 times d seconds after the first one |
| Scheduling.FirstRoundInTurn | src/bp_sim.cpp:3873-3909 | the condition holds for the first round whatever the rates are: if every template may start flows, each starts one, in turn, before any starts a second |
| Pacing.DoneMeansSpent | src/bp_sim.cpp:3880-3893 | a chance reports the end of all starts just when every template has reached its limit |
| Pacing.SpentMeansLimit | src/bp_sim.cpp:3881-3884 | every template is spent just when each is limited and has started exactly as many flows as its limit |
| Pacing.TrafficGrows | src/bp_sim.cpp:3873-3909 | a chance extends the flows started by exactly the one it grants |
| Pacing.TickTimes | src/bp_sim.cpp:3626-3632 | chance k comes k times d seconds after the start |
| Scheduling.StartsAtOnce | src/bp_sim.cpp:4080-4115 | a run that lasts any time at all starts its first flow at once, with the template the thread number selects, if that one may start any |
| Scheduling.PlayTemplates | src/bp_sim.cpp:4074-4134 | a thread made with fresh meters and run ends balanced, with everything sent in order of time, whenever it is not in learn mode or runs for less than 2^24 - 1 chances |
| Scheduling.NewMeters | src/bp_sim.cpp:2950-2952 | each template gets a meter of its own, with its rate, empty and never asked |
| Scheduling.FlowGenThread.IncCurrentTemplate | src/bp_sim.cpp:3865-3871 | the current template moves on by one, modulo the number of templates |
| Scheduling.FlowGenThread.FlowStartsObeyRate | src/bp_sim.cpp:3873-3909 | between any two flow starts of a template there are at most a bucketful plus what its rate earns in between |
| Scheduling.DrainedBalances | src/bp_sim.cpp:4122-4125 | with every invariant kept and no node left, all books are balanced |
| Scheduling.PlaysOnce | src/bp_sim.cpp:3596-3616 | a flow whose template does not repeat plays and sends every packet once, in order and on time, up to its last one or to where it was given up |
| Scheduling.RepeatsUntilStop | src/bp_sim.cpp:3596-3616 | a repeating flow repeats until the first pass ends: the last packet of its last round is due at the end or later, that of the round before not later; every packet due before the end is sent and none after it, but for flows still waiting |
| Scheduling.ShortIdTaken | src/bp_sim.h:3615-3619 | a short id can still be taken only after a full turn of the 24-bit id space |
| Scheduling.IdsTakeTime | src/bp_sim.h:3615-3619 | using up the short ids takes 2^24 - 1 chances, so at least that many times d seconds |
| Scheduling.ReportIsOwn | src/bp_sim.cpp:3953-3985 | a report found in the table belongs to the flow found there, which is waiting with its tag sent, and carries the translation the device gives that flow |
| Scheduling.EarliestExists | src/bp_sim.cpp:3532-3532 | a non-empty queue has an earliest node |
| FlowBooks.WaitingMeetsResponder | src/bp_sim.cpp:3683-3706 | a waiting flow that stands at its last packet stands at a responder packet |
| FlowBooks.LookupAdd | src/bp_sim.h:3615-3619 | entering a waiting flow keeps the table exact |
| FlowBooks.LookupLearn | src/bp_sim.cpp:3953-3985 | learning keeps the table exact |
| FlowBooks.LookupDrop | src/bp_sim.cpp:3925-3930 | dropping a flow keeps the table exact |
| FlowBooks.BornKeeps | src/bp_sim.h:3737-3816 | a start keeps all books: table, learning, replay and counters |
| FlowBooks.TagKeeps | src/bp_sim.cpp:3676-3681 | sending the tagged packet keeps all books |
| FlowBooks.LearnKeeps | src/bp_sim.cpp:3953-3985 | a faithful report keeps all books |
| FlowBooks.AdvanceKeeps | src/bp_sim.h:3855-3869 | playing a packet keeps all books; a responder packet goes out with the right translation, and what is sent depends on the pass as it should |
| FlowBooks.RepeatKeeps | src/bp_sim.cpp:3912-3923 | starting a new round, which only a repeating flow does and only before the drain, keeps all books |
| FlowBooks.EndKeeps | src/bp_sim.h:3684-3694 | ending a flow keeps all books; a repeating flow ends with its last packet only when the thread drains |
| FlowBooks.DrainKeeps | src/bp_sim.cpp:3730-3733 | the end of the first pass keeps all books, as nothing due lies before it |
| Progress.AdvanceProgress | src/bp_sim.cpp:3612-3616 | a flow's remaining work drops with each packet |
| Progress.RepeatProgress | src/bp_sim.cpp:3912-3923 | and with each new round, until the end of the run |
| ThreadState.TableEntry | src/bp_sim.cpp:3953-3985 | an entry of the table names a queued flow that is waiting under that short id |
| ThreadState.BornReady | src/bp_sim.h:3737-3816 | a start keeps the whole state of the thread |
| ThreadState.DepartLeaves | src/bp_sim.h:3684-3694 | the end of a flow leaves the rest of the thread in order |
| Pacing.PaceGranted | src/bp_sim.cpp:3886-3889 | a grant keeps starts, counters and limits in step |
| Pacing.PaceStarted | src/bp_sim.cpp:3895-3907 | a start keeps each template's flows in the order of its grants, each flow once |
| Templates.Template.ScheduleAt | src/bp_sim.h:3855-3873 | a flow's schedule emits every packet of every round once, in index order, at start plus the gaps before it; what the gaps are is `Capture.ReplayKeepsCaptureTimes` and `Capture.ReplayTakesTurns` |
| Templates.Template.RoundStartClosed | src/bp_sim.cpp:3912-3923 | rounds follow one another at a fixed period |
| Nodes.PortsTaken | src/bp_sim.cpp:3350-3382 | when a node gives up its ports they are exactly those in transit |
| Nodes.PortGiven | src/bp_sim.h:1711-1722 | a port given to a node has one holder |
| Policing.Policer.Update | src/bp_sim.cpp:4398-4425 | one request: the new level and the verdict |
| Policing.LevelStaysInBucket | src/bp_sim.cpp:4398-4425 | under a positive nondecreasing clock the level stays within the bucket |
| Policing.AdmissionsInWindow | src/bp_sim.cpp:4398-4425 | over any window the admissions are at most the bucket plus what the rate earns in it |
| Policing.AdmissionsFollowRate | src/bp_sim.cpp:4398-4425 | starting empty, asked often enough and with a bucket of two or more, the admissions after the first follow the rate to within one |
| Policing.BurstAfterIdle | src/bp_sim.cpp:4398-4425 | a meter that was idle long enough grants as many requests at once as its bucket holds, less one |
| Policing.StoppedClockAdmitsAll | src/bp_sim.cpp:4399-4403 | at time 0.0, which marks a meter never asked, every request is admitted |
| FlowStatRuns.StepKeeps | src/flow_stat.cpp:427-571 | every add, start, stop or delete of any stream keeps all invariants of the manager |
| FlowStatRuns.Bijection | src/flow_stat.cpp:182-376 | in every state of every well-formed run slot h holds user u just when u has hardware id h, u has one just when one of its streams transmits, the two reference counts are the numbers of its added and started streams, and the free count is the number of free slots |
| FlowStatRuns.Attribution | src/flow_stat.cpp:491-524 | the IP ID of a transmitting packet identifies its user: counted streams carry 0xff00 plus their own user's slot, two carry the same one just when they are of one user, and packets that are not counted stay below 0xff00 |
| FlowStatRuns.StartSucceeds | src/flow_stat.cpp:507-520 | a counted stream can be started just when its user transmits already or fewer than 128 users do |
| FlowStatRuns.UsersAndFreeSlots | src/flow_stat.cpp:325-376 | transmitting users and free slots make up 128 |
| FlowStatRuns.AddSucceeds | src/flow_stat.cpp:427-456 | a counted stream is accepted just when platform and packet allow it and it has the protocol of its user's other streams; the error is -2 just when the platform does not |
| FlowStatRuns.UncountedIsIgnored | src/flow_stat.cpp:427-571 | a stream that is not counted changes no table and is refused only when it starts on a platform without the rules; of its IP ID only bit 12 is cleared, and only in the reserved range |
| FlowStatRuns.StopAndDelSucceed | src/flow_stat.cpp:458-571 | stopping and deleting streams never fails |
| FlowStatRuns.SlotIsTaken | src/flow_stat.cpp:351-367 | a start takes its slot for good just when the user id is not 65535, which marks a free slot |
| FlowStatRuns.SharedTag | src/flow_stat.cpp:351-367 | with user id 65535 two users end up with one tag |
| FlowStatRuns.DelForgets | src/flow_stat.h:56-56 | with 8-bit counts a delete forgets a user with n streams just when n is 1 modulo 256 |
| FlowStatRuns.ClearedIsPlain | src/flow_stat.cpp:498-503 | clearing bit 12 takes an IP ID out of the reserved range |
| FlowStats.UserIdInfo.ResetHwId | src/flow_stat.cpp:110-122 | leaving the hardware folds the session into the base and changes no port's totals |
| FlowStats.FoldKeepsTotals | src/flow_stat.cpp:110-122 | the fold keeps every receive and transmit total |
| FlowStats.TotalIsExact | src/flow_stat.cpp:547-565 | after k stops the total is the sum of the k final counts just when what the stops have folded, each the last report of its session or else the final count of the one before, adds up to the final counts of the sessions before the last (modulo 64 bits) |
| FlowStats.TotalsAreExact | src/flow_stat.cpp:110-122 | the totals after all stops are right just when no session had a report, or its last one equals the final count of the session before; in the first session there is none |
| FlowStats.SilentSessionsExact | src/flow_stat.cpp:547-565 | without reports all totals are sums of final counts |
| FlowStats.TxMirrorsRx | src/flow_stat.cpp:588-595 | what is received counts as sent as well, in the session and in the base |
| FlowStats.ReportSpoilsTotal | src/flow_stat.cpp:588-595 | a report in the first session is counted on top of its final count; one in the second takes the place of the first session's final count |
| FlowStats.UserIdInfo.Report | src/flow_stat.cpp:588-595 | a count read for the periodic report is stored unless it is 0 |
| FlowStats.HwIdMap.FindFreeHwId | src/flow_stat.cpp:351-358 | the first free slot is found, or that there is none |
| FlowStats.HwIdMap.Map | src/flow_stat.cpp:360-367 | a slot is given to a user |
| FlowStats.HwIdMap.Unmap | src/flow_stat.cpp:369-376 | a slot is free again |
| FlowStats.UserIdMap.AddStream | src/flow_stat.cpp:182-199 | one more stream of a user, who may be new, unless the protocols differ; no other user and no counter changes |
| FlowStats.UserIdMap.DelStream | src/flow_stat.cpp:201-220 | one stream less; a user without streams is forgotten |
| FlowStats.UserIdMap.StartFirst | src/flow_stat.cpp:222-245 | a user's first transmitting stream gets the slot |
| FlowStats.UserIdMap.StartMore | src/flow_stat.cpp:247-264 | one more transmitting stream of a known user |
| FlowStats.UserIdMap.StopStream | src/flow_stat.cpp:268-283 | one transmitting stream less |
| FlowStats.UserIdMap.Unmap | src/flow_stat.cpp:307-322 | the user loses its slot and its counts are folded |
| FlowStats.RuleMgr.CompileStream | src/flow_stat.cpp:390-425 | which streams can be supported |
| FlowStats.RuleMgr.AddStream | src/flow_stat.cpp:427-456 | adding a stream does to the tables what the rules say |
| FlowStats.RuleMgr.DelStream | src/flow_stat.cpp:458-468 | so does deleting one |
| FlowStats.RuleMgr.StartStream | src/flow_stat.cpp:476-527 | so does starting one, including the tag its packet carries |
| FlowStats.RuleMgr.StopStream | src/flow_stat.cpp:537-571 | so does stopping one; the user found through the slot table is the stream's own, and its counters end as folded base plus final count, all others unchanged |
| RxCounters.PhyEthIF.DriverStats | src/main_dpdk.cpp:4891-4918 | the driver reports each counter's growth since its last look, over the 32-bit wrap |
| RxCounters.PhyEthIF.GetRxStats | src/main_dpdk.cpp:1578-1617 | a read of all counters: each returns the count that `RxCounters.ReadReturnsGrowth` says and is left for the next read; without driver support nothing changes |
| RxCounters.PhyEthIF.GetRxStat | src/main_dpdk.cpp:1578-1617 | a read of one counter treats it as a read of all does, with what stands at its place of the driver's buffer for the card's count; all other counters stay. What reads return is `RxCounters.ReadReturnsGrowth`, if the first read of all was one of this counter |
| RxCounters.PhyEthIF.DriverStat | src/main_dpdk.cpp:4891-4918 | the card's count comes in at place 0 and is looked for at the place of the counter |
| RxCounters.SingleReadIsRight | src/main_dpdk.cpp:4891-4918 | such a read is right just when the place looked at holds the card's count |
| RxCounters.SingleReadsAreRight | src/main_dpdk.cpp:4891-4918 | whatever stood in the buffer, it can be relied on just for counter 0 |
| RxCounters.GrowthIsModular | src/main_dpdk.cpp:4907-4913 | the growth taken from two readings is the true one modulo 2^32 |
| RxCounters.Account | src/main_dpdk.cpp:1578-1617 | what resetting reads returned, what is held, and what whole turns of the counter hid make up the packets counted since the first read |
| RxCounters.Conservation | src/main_dpdk.cpp:1578-1617 | no packet is lost or counted twice just when the hardware counter never grew by 2^32 or more between two reads |
| RxCounters.ReadReturnsGrowth | src/main_dpdk.cpp:1578-1617 | the first read returns 0; every later one, resetting or not, returns the card's count less its count at the last resetting read before, or at the first read if there is none, just when the counter has not grown by 2^32 or more between two reads since |
| TcpSequence.TcpSeq.Update | src/bp_sim.cpp:4820-4852 | a segment's numbers are shifted by all its side and its peer have grown before it |
| TcpSequence.RewritingKeepsConsistency | src/bp_sim.cpp:4820-4852 | for any size changes each segment of the rewritten flow is in place, modulo 2^32 where its side stands and, if its ACK bit is set, acknowledging all earlier peer bytes, just when it is in the template; so the whole flow is consistent just when the template is |
| TcpSequence.HandshakeIsConsistent | src/bp_sim.cpp:4820-4852 | a flow that opens with its handshake is consistent, whatever stands in the acknowledgement number of the first segment |
| TcpSequence.LateAck | src/bp_sim.cpp:4820-4852 | an acknowledgement that does not cover all earlier bytes stays right just when the segments in between did not change the peer's size |
| MiniVms.MiniVm.RunReplaceIp | src/bp_sim.cpp:5974-5995 | the payload becomes what `MiniVms.IpOutcome` says, and its length is known |
| MiniVms.MiniVm.RunReplacePortIp | src/bp_sim.cpp:5948-5972 | the payload becomes what `MiniVms.PortIpOutcome` says, and its length is known |
| MiniVms.MiniVm.RunReplacePorts | src/bp_sim.cpp:5930-5945 | the payload becomes what `MiniVms.PortsOutcome` says, and its length is known |
| MiniVms.MiniVm.RunReplaceIpIpPort | src/bp_sim.cpp:5885-5928 | the payload becomes what `MiniVms.IpIpPortOutcome` says, and its length is known |
| MiniVms.MiniVm.RunReplaceViaIpIpPort | src/bp_sim.cpp:5826-5882 | the payload becomes what `MiniVms.ViaOutcome` says, and its length is known |
| MiniVms.IpOutcome | src/bp_sim.cpp:5974-5995 | the stretch of the address gives way to the address as text, and every other byte stays |
| MiniVms.PortIpOutcome | src/bp_sim.cpp:5948-5972 | so it is for an address and, behind it, a range of two ports |
| MiniVms.PortsOutcome | src/bp_sim.cpp:5930-5945 | one stretch gives way to the client's range, the words for the server's and the server's range |
| MiniVms.IpIpPortOutcome | src/bp_sim.cpp:5885-5928 | two stretches give way to the address, a third to the port |
| MiniVms.ViaOutcome | src/bp_sim.cpp:5826-5882 | four stretches give way to via and its port, the address twice, and the port; for version 6 the digit two places before each of the two addresses becomes a 6 |
| MiniVms.DigitsReadBack | src/bp_sim.cpp:5930-5937 | a number is written as a decimal numeral without leading zeros that reads back as the number |
| MiniVms.AddressReadsBack | src/bp_sim.h:182-188 | split at its dots, a version 4 address reads as its four bytes, from the first to the last |
| MiniVms.RangeReadsBack | src/bp_sim.cpp:5948-5972 | split at its hyphen, a range of ports reads as the port and the one after it |
| MiniVms.ServerPortsReadBack | src/bp_sim.cpp:5930-5937 | the text of a response reads as the client's range and, behind server_port=, the server's |
| MiniVms.MiniVm.RunDynPayload | src/bp_sim.cpp:5795-5823 | words are set only if they end more than four bytes before the payload's end; the size stays |
| MiniVms.WordsAreSet | src/bp_sim.cpp:5795-5823 | when there is room, word i stands i words behind the offset, and every other byte stays |
| MiniVms.MiniVm.Run | src/bp_sim.cpp:5735-5776 | a program ends at its mark with the payload of its last command |
| MiniVms.AddressFits | src/bp_sim.h:182-205 | address texts fit their declared lengths |
| MiniVms.PortFits | src/bp_sim.h:84-87 | a 16-bit port and the one after it take at most five characters |
| Splicing.SpliceReplaces | src/bp_sim.cpp:5778-5792 | the single pass does what replacing the stretches one by one, from the right, does |
| Splicing.SpliceLength | src/bp_sim.cpp:5778-5792 | the output is as much longer as the texts are |
| Splicing.RoomIfGrowthFits | src/bp_sim.h:3051-3078 | a buffer longer by the declared growth holds every byte written, NULs included, if the texts grow by less, or by no more and bytes follow them |
| Plugins.HttpFits | src/bp_sim.cpp:4988-5021 | for every address the HTTP program stays within its declared growth, on payloads that reach the stretch it replaces, which the program does not check |
| Plugins.RtspFits | src/bp_sim.cpp:5302-5651 | so do all RTSP programs, whatever the address and ports, on payloads that reach the stretches they replace; the response programs as long as bytes follow the ports |
| Plugins.ResponseFits | src/bp_sim.cpp:5411-5436 | the four-port response, 31 bytes that may become 35 with 4 declared, fits just when bytes follow the ports or their text is shorter |
| Plugins.SipFits | src/bp_sim.cpp:5128-5238 | so do both SIP programs, on payloads that reach the stretches they replace |
| Plugins.DynFits | src/bp_sim.cpp:5072-5078 | dynamic payload changes keep the size |
| Plugins.HttpOutcome | src/bp_sim.cpp:4988-5021 | of an HTTP flow only packet 3 is changed: bytes 26 up to 34 of its payload become the server's address |
| Plugins.RtspOutcome | src/bp_sim.cpp:5302-5651 | which packets of an RTSP flow name the server and where; packets 5 and 7 also name the first and the second extra port, and packets 6 and 8 name them for both sides |
| Plugins.SipOutcome | src/bp_sim.cpp:5128-5238 | packet 0 of a SIP flow names the client and its port, the client's address twice and the port of the voice; packet 1 names the server's address in their place; no other packet is changed |
| Plugins.GenerateVm | src/bp_sim.h:3039-3085 | the packet is the template's headers and the rewritten payload, the trim is never negative, and the reported change is the true one; a packet without payload stays as it is, whatever its program |
| Plugins.TcpPacket | src/bp_sim.cpp:5023-5031 | the change of a packet's size enters the flow's numbering as it is |
| OptionLookup.CalcMatch | src/SimpleOpt.h:932-987 | -1 for the entry itself, the number of letters for an abbreviation, 0 otherwise; so all abbreviations of one argument score the same |
| OptionLookup.LookupOption | src/SimpleOpt.h:896-926 | the first exact match; else, if partial matches are allowed, the one abbreviated entry, or that there are several |
| OptionLookup.LookupMeans | src/SimpleOpt.h:896-926 | the answer is the one that meets this description |
| OptionLookup.WhenCaseCounts | src/SimpleOpt.h:932-987 | an argument is an entry just when they are the same string, and abbreviates it just when it is a proper beginning of it that goes beyond its hyphens |
| OptionLookup.WhichCase | src/SimpleOpt.h:942-949 | an entry of one hyphen and one letter is short, one without hyphens is a word, and any other is long; each kind has its flag for ignoring case |
| OptionLookup.WhenCaseIsIgnored | src/SimpleOpt.h:990-1007 | then the letters A to Z are what they are in the other case, and nothing else is |
| Arrangements.IsPermutation | src/SimpleOpt.h:860-890 | every arrangement of the arguments is a permutation of the input |
| Arrangements.ListsInOrder | src/SimpleOpt.h:860-890 | arguments taken and files both keep the original order |
| Arrangements.ListsHold | src/SimpleOpt.h:860-890 | every argument looked at is exactly one of the two |
| Arrangements.LeaveNext | src/SimpleOpt.h:765-768 | moving arguments behind the rest leaves them as the last files |
| Arrangements.Unscanned | src/SimpleOpt.h:640-644 | the part not looked at is a slice of the original |
| OptionParsing.SimpleOpt.ShuffleArg | src/SimpleOpt.h:870-890 | the stretch is rotated to the end of the array |
| OptionParsing.SimpleOpt.Next | src/SimpleOpt.h:607-783 | each call yields the next option or error of the reference parse, with the arguments arranged as stated; it ends. What that hands over is `OptionParsing.NamedIsHandedOver`, `ShortenedIsHandedOver`, `OtherSwitches` and `LetterIsHandedOver` |
| OptionParsing.SimpleOpt.Examine | src/SimpleOpt.h:644-706 | how an argument counts; the equals sign cut out of it is put back if it is data |
| OptionParsing.SimpleOpt.Find | src/SimpleOpt.h:639-708 | the first argument that is no data |
| OptionParsing.SimpleOpt.TakeKnown | src/SimpleOpt.h:719-783 | option id, error and argument by the option's argument type, as `OptionParsing.NamedIsHandedOver` spells out |
| OptionParsing.SimpleOpt.MultiArg | src/SimpleOpt.h:1009-1039 | all the arguments asked for, or the reason why not and nothing changed |
| OptionParsing.SimpleOpt.NextClumped | src/SimpleOpt.h:819-858 | the next letter of a clump |
| OptionParsing.SimpleOpt.Stop | src/SimpleOpt.h:787-792 | everything left becomes files in order |
| OptionParsing.SimpleOpt.Files | src/SimpleOpt.h:498-511 | the files read as they did at first and are in the original order |
| OptionParsing.StepProgress | src/SimpleOpt.h:607-783 | each call looks at more arguments or takes letters of a clump; what it passes over is data |
| OptionParsing.NamedIsHandedOver | src/SimpleOpt.h:719-783 | for an option found by its name the id and the text are those of its entry, and the argument is the text behind the equals sign; without one an option that wants a separate argument is given the next argument, and takes it, unless there is none or it looks like a switch and errors are reported; which error goes with which argument type |
| OptionParsing.ShortenedIsHandedOver | src/SimpleOpt.h:660-683 | a letter that may bring its argument with it is told as its entry, and the rest is its argument |
| OptionParsing.OtherSwitches | src/SimpleOpt.h:685-706 | other letters are taken apart if they may be clumped; any other switch is told with the error of the lookup, its name and the text behind its equals sign |
| OptionParsing.LetterIsHandedOver | src/SimpleOpt.h:819-858 | the next letter of a clump is told as its entry, with the rest as its argument if it needs one; a letter that is none is an error or passed over |
| OptionParsing.StepHandsOver | src/SimpleOpt.h:607-783 | what a call takes is an option, or it is handed over as the argument of the report |
| OptionParsing.DataMeans | src/SimpleOpt.h:644-706 | when errors are reported, data is what is neither a switch nor in the table; otherwise it is what neither the table nor the short forms explain |
| OptionParsing.NameAndValue | src/SimpleOpt.h:646-652 | the name of a switch has no equals sign, and name and value make up the argument |
| OptionParsing.NothingMore | src/SimpleOpt.h:710-717 | once there is nothing more there never is |
| OptionParsing.AfterStop | src/SimpleOpt.h:446-449 | after a stop the next call finds something just when letters of a clump are to come and errors are reported or one of these letters is an option of the table; the documentation says it finds nothing |
| OptionParsing.StopIsNotTheEnd | src/SimpleOpt.h:446-449 | a program that stops after the first letter of -ab is given the second one all the same |
| OptionParsing.ClumpFinds | src/SimpleOpt.h:819-858 | what is left of a clump yields something just when errors are reported or one of its letters is an option |
| OptionParsing.ParseAll | src/main_dpdk.cpp:775-776 | a whole parse reports what the reference parse does, in order; every argument it takes is an option or is handed over in a report; it ends with a stable permutation, the options first and the non-options behind |
| CaptureRules.ReplyHasSameKey | src/bp_sim.cpp:1057-1093 | both directions of a connection are one flow unless its ends are one host with two ports |
| CaptureRules.KeyMeansEnds | src/bp_sim.cpp:1057-1093 | two packets are of one flow just when they have the same ends or, between two hosts, when one has the ends of a reply to the other |
| CaptureRules.InitSideIsFirstSender | src/bp_sim.cpp:2172-2178 | in a two-host capture a packet is of the initiating side just when the first packet's sender sent it |
| CaptureRules.OneFlowIsTwoHosts | src/bp_sim.cpp:2159-2167 | so it is in a capture of one flow |
| CaptureRules.FlowNumberIsKey | src/bp_sim.cpp:2088-2108 | packets have the same flow number just when they have the same key, and five bits tell up to 32 flows apart |
| CaptureRules.FiveBitsClash | src/bp_sim.h:2237-2244 | with more than 32 flows two of them get the same number |
| CaptureRules.NumbersAreExact | src/bp_sim.cpp:1946-2007 | per flow and side the packet numbers are 0 up to the maximum, each once and in order |
| CaptureRules.FlowTotals | src/bp_sim.cpp:1984-2007 | each packet knows how many packets its side of the flow has and how many both have, and is marked as two-way just when both sides have some |
| CaptureRules.TimeoutOutlastsGaps | src/bp_sim.h:2339-2347 | the stored timeout outlasts a gap of the same flow just when the gap is below 65000 seconds |
| CaptureRules.TimeoutFollowsSilence | src/bp_sim.h:2339-2347 | the timeout is twice the flow's longest silence and five seconds more, in whole seconds, and 65000 if that is more; the longest silence is attained, unless it is 0 |
| Capture.CapFileFlowInfo.ReadPacket | src/bp_sim.cpp:2062-2200 | one packet: its flow, side and number, or the error it raises |
| Capture.CapFileFlowInfo.TimesToGaps | src/bp_sim.cpp:2204-2224 | timestamps become gaps in place; the last packet is marked and direction changes are |
| Capture.CapFileFlowInfo.Load | src/bp_sim.cpp:2033-2243 | which captures load, with which error others fail, and what the packets of a loaded one are |
| Capture.CapFileFlowInfo.CountFlows | src/bp_sim.cpp:1946-1982 | one pass counts every flow and numbers its packets |
| Capture.CapFileFlowInfo.UpdateInfo | src/bp_sim.cpp:1939-2007 | the list ends up numbered, with maxima, timeout and the two-way mark of each flow |
| Capture.CapFileFlowInfo.UpdateMinIpg | src/bp_sim.cpp:2277-2290 | gaps below either limit are replaced |
| Capture.LoadedIsValid | src/bp_sim.cpp:2033-2243 | the template of a loaded capture meets all the scheduler asks of templates |
| Capture.LoadsJustWhen | src/bp_sim.cpp:2062-2200 | a capture loads just when the parser had no error, it holds one flow or has a plugin, its times never go back, every packet is supported, and, when acknowledgement numbers are learnt from, every other protocol comes from the initiator and every TCP flow opens with a SYN from there whose header lies in the first 64 bytes |
| Capture.FlowPacketNumbers | src/bp_sim.cpp:2088-2195 | in a flow the packets are numbered 0, 1, 2, and so on in the order of the capture |
| Capture.PacketAt | src/bp_sim.cpp:2204-2224 | what the scheduler is told of a packet: its side, whether it is the last one, the time to the next one, whether that goes the other way, its protocol, and its flow |
| Capture.ReplayKeepsCaptureTimes | src/bp_sim.cpp:2209-2224 | with the capture's own gaps packet i of a flow is due at its start plus the time between packets 0 and i of the capture, in every round |
| Capture.ReplayTakesTurns | src/bp_sim.h:3855-3864 | without the gaps of the capture packet i + 1 is due a round-trip time after packet i just when the two are of different sides, and the fixed gap after it otherwise |
| Capture.AnswersTakeRtt | src/bp_sim.cpp:2204-2224 | for a loaded capture between two hosts: the round-trip time passes just where the sender changes |
| NatReports.AckRoundTrip | src/nat_check.h:223-225 | the tag in an acknowledgement number gives back thread and flow id |
| NatReports.AckOfInfo | src/nat_check.cpp:137-140 | and every number is the tag of what is read from it |
| NatReports.NatRxManager.HandlePacket | src/nat_check.cpp:151-206 | each accepted observation reaches the ring of its thread once and in order, in messages that go out with the seventh entry; other threads are not touched, and refused packets are counted |
| NatReports.ReportsAre | src/nat_check.cpp:151-206 | the reports for a thread are those of the TCP and UDP packets whose tag names it, all of them, each once and in the order they were seen |
| NatReports.NatRxManager.HandleAging | src/nat_check.cpp:102-113 | a message that has waited longer than two milliseconds goes to its ring, and all else stays; none is lost |
| NatReports.NatRxManager.FlushNode | src/nat_check.cpp:115-135 | the message moves to the ring as it is |
| Translations.RingIsObserved | src/nat_check.cpp:151-206 | if only tagged packets of flows whose short id was not given away meanwhile are seen, every entry on a thread's ring is about a flow of that thread and carries its translation, which is what the thread assumes of reports |
| Translations.ReportOfTagged | src/nat_check.cpp:137-149 | a tagged packet is reported to the thread that tagged it, under the flow's short id |
| Latency.RepliesAnswer | src/latency.h:147-156 | under loss, duplication, delay and reordering each tick replies to the most recent request, once, and only if one has come since the last tick, just when two ticks never directly follow a request numbered 65535 |
| Latency.AnswersAre | src/latency.h:147-156 | the expected replies are the numbers of the requests that a tick directly follows, each once and in order |
| Latency.NoMoreRepliesThanRequests | src/latency.h:147-156 | as long as they do not, the server never sends more replies than it has received requests |
| Latency.WaitsAfterReply | src/latency.cpp:1003-1011 | after a reply it waits for the next request unless the number was 65535 |
| Latency.WrapRepliesTwice | src/latency.cpp:975-983 | at the 16-bit wrap one request draws two replies |
| Latency.NoBreaks | src/latency.cpp:479-485 | no sequence error is counted just when the received numbers follow one another |
| Latency.BreaksCount | src/latency.cpp:479-485 | each probe that does not carry the number after that of the one before is counted once |
| Latency.PortLatency.UpdatePacket | src/latency.cpp:216-231 | a probe's numbers and ICMP type |
| Latency.PortLatency.CheckPacket | src/latency.cpp:465-492 | each probe of the right length is in order or counted as a break |
| TxBatches.CorePerPort.SendBurst | src/main_dpdk.cpp:1956-1985 | a burst goes out whole and in order, however the card splits it |
| TxBatches.CorePerPort.SendPkt | src/main_dpdk.cpp:1988-2011 | packets taken by the card and those still collected are the packets given, in order |
| TxBatches.CorePerPort.FlushTxQueue | src/main_dpdk.cpp:1885-1902 | after a flush the card has every packet |
| Platform.SocketInfo.Init | src/bp_sim.cpp:192-272 | the set-up succeeds just when sockets are known, thread counts equal, and all hardware threads in range and distinct from each other, master and latency thread; then the two tables are inverse on the threads entered and empty elsewhere |
| Platform.SocketInfo.InitSlot | src/bp_sim.cpp:232-253 | one thread is entered, or the configuration is not good |
| Platform.VirtFits | src/bp_sim.cpp:232-244 | with up to 135 dual interfaces the eight bits a virtual thread number is kept in never wrap before its range check |
| Platform.AssignQueues | src/main_dpdk.cpp:3027-3046 | core c drives port pair c modulo the pairs on queue c over the pairs |
| Platform.SlotDrives | src/main_dpdk.cpp:3018-3024 | the thread at slot j of dual interface i drives ports 2i and 2i+1 on queue j |
| Platform.QueuesAreOwn | src/main_dpdk.cpp:3027-3046 | no two cores use the same queue of a port |

## Left out

- Real time: waiting for a node's time, the offset added after delays, CPU and histogram accounting. The clock enters as the times of nodes and as readings that delay a released batch.
- Floating point: times, rates and levels are exact reals.
- Stateless streams, their commands and the control-plane messages; the node counter for inactive stateless nodes is 0.
- Runs without clean close, termination by the master, exits on failed allocation, and the closing of a run that stopped on the short-id assertion.
- The tuple generator: any port numbers and clients; ports are told apart by a serial number as well.
- Packet, byte and error statistics that nothing depends on; receive check headers; the comparison made in learn verify mode.
- Scheduling.FlowGenThread.Associate: the assertion that the short id is free is a condition here; GenerateFlow returns failure where it would fire.
- Scheduling.FlowGenThread.RescheduleFlow: updates only what scheduling depends on, not the byte and packet totals.
- The push and pop of the queue around an update of the same node are one step, since nothing runs in between.
- FlowStats.RuleMgr.StartStream: the rule sent to the card and the checksum of the packet are not modelled.
- FlowStats.RuleMgr.StopStream: the slot table and the user table are required to be inverse, as every well-formed run keeps them; the program asserts what follows from it.
- FlowStats.UserIdInfo.Report: the loop over cards and slots around it, and the text of the report, are not modelled.
- FlowStats.UserIdInfo.ResetHwId: the counter arrays of a user are sequence fields of the object, so aliasing between arrays is not modelled.
- RxCounters.PhyEthIF.GetRxStat: the array for the results has a place for each counter, also when one is read.
- Plugins.GenerateVm: packet lengths stay below 2^15, and the header fields and checksums rewritten afterwards are not modelled.
- Plugins.HttpFits: a payload that ends before the stretch to be replaced is not modelled; the same goes for RtspFits and SipFits.
- Templates of SCTP probes, and packet layouts in general: headers are fields of a record.
- OptionParsing.SimpleOpt.Next: the slash as a switch character (Windows only), the limit on the number of arguments and an empty argument list without the program's name are not modelled.
- Capture.CapFileFlowInfo.Load: needs at least one packet, as the program does; dumps, the rewriting of reserved TTLs and the plausibility check of the loaded template are left out.
- Capture.CapFileFlowInfo.UpdateInfo: the program stops at 65000 packets of one flow; the model counts on.
- TxBatches.CorePerPort.SendBurst: the card is assumed to take a packet within some number of attempts; without that the program waits forever.
- NatReports.NatRxManager.FlushNode: the ring has room; the program retries and gives up after ten attempts.
- Platform.SocketInfo.Init: the virtual thread number is not cut to eight bits, which makes no difference with up to 135 dual interfaces (`VirtFits`); an access outside a table, which the range checks let through for thread 120 and for missing entries, is an outcome of its own.
- File system patterns, keyboard modes, configuration files, dumps, debugging and the Python scripts.
