/** Which hardware thread plays which virtual thread, and which ports and queues a thread drives. */
module Platform {

  const MAX_SOCKETS := 4
  const MAX_THREADS := 120

  datatype DualIf = DualIf(socket: nat, threads: seq<nat>)

  datatype Config = Config(duals: seq<DualIf>, master: nat, latency: nat)

  /** PastTable stands for an access outside a table, which the checks let through. */
  datatype InitError =
    | Ok | BadSocket | UnequalThreads | BadThread | TwiceDefined | MasterTaken | LatencyTaken | PastTable

  // ----- virtual threads -----

  /** Slot `j` of dual interface `i`, of `n`. */
  function Virt(n: nat, i: nat, j: nat): (v: nat)
    ensures v > 0
  {
    1 + i + j * n
  }

  lemma VirtSplits(n: nat, i: nat, j: nat)
    requires i < n
    ensures (Virt(n, i, j) - 1) % n == i && (Virt(n, i, j) - 1) / n == j
  {
    var x := Virt(n, i, j) - 1;
    DivMod(x, n, j, i);
  }

  lemma DivMod(x: nat, n: nat, q: nat, r: nat)
    requires n > 0 && x == r + q * n && r < n
    ensures x / n == q && x % n == r
  {
    assert x == x / n * n + x % n;
    if x / n < q {
      MulLeq(x / n + 1, q, n);
    } else if q < x / n {
      MulLeq(q + 1, x / n, n);
    }
  }

  lemma MulLeq(a: nat, b: nat, n: nat)
    requires a <= b
    ensures a * n <= b * n
  {
  }

  lemma VirtsDiffer(n: nat, i: nat, j: nat, a: nat, b: nat)
    requires i < n && a < n && Virt(n, i, j) == Virt(n, a, b)
    ensures i == a && j == b
  {
    VirtSplits(n, i, j);
    VirtSplits(n, a, b);
  }

  /** As long as the slots before it are in range, the number of a slot fits in the eight bits it is kept
      in, with up to 135 dual interfaces. */
  lemma VirtFits(n: nat, i: nat, j: nat)
    requires i < n <= 135 && (j > 0 ==> Virt(n, i, j - 1) <= MAX_THREADS)
    ensures Virt(n, i, j) < 256
  {
    if j > 0 {
      assert Virt(n, i, j) == Virt(n, i, j - 1) + n by {
        MulStep(j - 1, n);
      }
    }
  }

  // ----- ports and queues -----

  datatype CoreIf = CoreIf(clientPort: nat, serverPort: nat, queue: nat)

  /** Core `c`, counted from 0, takes the next pair of ports; each time round the next queue. */
  method AssignQueues(cores: nat, maxPorts: nat) returns (ifs: seq<CoreIf>)
    requires maxPorts > 0 && maxPorts % 2 == 0
    ensures |ifs| == cores
    ensures forall c | 0 <= c < cores ::
      ifs[c] == CoreIf(c % (maxPorts / 2) * 2, c % (maxPorts / 2) * 2 + 1, c / (maxPorts / 2))
  {
    var n := maxPorts / 2;
    var offset := 0;
    ifs := [];
    for i := 0 to cores
      invariant |ifs| == i && offset == i % n * 2
      invariant forall c | 0 <= c < i :: ifs[c] == CoreIf(c % n * 2, c % n * 2 + 1, c / n)
    {
      ifs := ifs + [CoreIf(offset, offset + 1, i / n)];
      offset := offset + 2;
      NextMod(i, n);
      if offset == maxPorts {
        offset := 0;
      }
    }
  }

  lemma NextMod(i: nat, n: nat)
    requires n > 0
    ensures (i + 1) % n == if i % n + 1 == n then 0 else i % n + 1
  {
    if i % n + 1 == n {
      MulStep(i / n, n);
      DivMod(i + 1, n, i / n + 1, 0);
    } else {
      DivMod(i + 1, n, i / n, i % n + 1);
    }
  }

  lemma MulStep(q: nat, n: nat)
    ensures (q + 1) * n == q * n + n
  {
  }

  function PortsAndQueue(n: nat, core: nat): CoreIf
    requires n > 0
  {
    CoreIf(core % n * 2, core % n * 2 + 1, core / n)
  }

  /** The thread at slot `j` of dual interface `i` drives this interface's two ports, on queue `j`; and its
      dual interface is the one it allocates memory for. */
  lemma SlotDrives(n: nat, i: nat, j: nat)
    requires i < n
    ensures PortsAndQueue(n, Virt(n, i, j) - 1) == CoreIf(2 * i, 2 * i + 1, j)
    ensures (Virt(n, i, j) - 1) % n == i
  {
    VirtSplits(n, i, j);
  }

  /** No two cores use the same queue of the same port. */
  lemma QueuesAreOwn(n: nat, c: nat, d: nat)
    requires n > 0 && c != d
    ensures
      var a, b := PortsAndQueue(n, c), PortsAndQueue(n, d);
      a.queue != b.queue || {a.clientPort, a.serverPort} !! {b.clientPort, b.serverPort}
  {
  }

  // ----- the thread tables -----

  /** The hardware thread of a slot; a number out of range if there is none. */
  function ThreadAt(c: Config, i: nat, j: nat): nat {
    if i < |c.duals| && j < |c.duals[i].threads| then c.duals[i].threads[j] else MAX_THREADS
  }

  /** Slot (a, b) comes before slot (i, j). */
  predicate Before(a: nat, b: nat, i: nat, j: nat) { a < i || (a == i && b < j) }

  predicate DualOk(c: Config, i: nat) {
    i < |c.duals| && c.duals[i].socket < MAX_SOCKETS && |c.duals[i].threads| == |c.duals[0].threads|
  }

  /** One of the slots of `n` dual interfaces with `t` threads each. */
  predicate IsSlot(n: nat, t: nat, i: nat, j: nat) { i < n && j < t }

  predicate SlotOk(c: Config, n: nat, i: nat, j: nat) {
    ThreadAt(c, i, j) < MAX_THREADS && Virt(n, i, j) < MAX_THREADS
  }

  predicate SameThread(c: Config, i: nat, j: nat, a: nat, b: nat) { ThreadAt(c, i, j) == ThreadAt(c, a, b) }

  /** A configuration that can be set up: known sockets, as many threads everywhere, and every hardware
      thread in range and used once. */
  ghost predicate Good(c: Config, n: nat, t: nat) {
    && (forall i | 0 <= i < n :: DualOk(c, i)) && (n == 0 ==> t == 0)
    && (forall i: nat, j: nat | IsSlot(n, t, i, j) :: SlotOk(c, n, i, j))
    && (forall i: nat, j: nat | IsSlot(n, t, i, j) :: ThreadAt(c, i, j) != c.master && ThreadAt(c, i, j) != c.latency)
    && (forall i: nat, j: nat, a: nat, b: nat
          | IsSlot(n, t, i, j) && IsSlot(n, t, a, b) && SameThread(c, i, j, a, b) :: i == a && j == b)
    && c.master < MAX_THREADS && c.latency < MAX_THREADS
  }

  /** Some slot before (i, j) has hardware thread `p`. */
  ghost predicate HasSlot(c: Config, t: nat, i: nat, j: nat, p: nat) {
    exists a: nat, b: nat :: b < t && Before(a, b, i, j) && ThreadAt(c, a, b) == p
  }

  class SocketInfo {
    const physToVirt: array<nat>
    const virtToPhys: array<nat>

    constructor ()
      ensures Sized() && fresh(physToVirt) && fresh(virtToPhys)
      ensures forall k | 0 <= k < MAX_THREADS :: physToVirt[k] == virtToPhys[k] == 0
    {
      physToVirt := new nat[MAX_THREADS](_ => 0);
      virtToPhys := new nat[MAX_THREADS](_ => 0);
    }

    ghost predicate Sized() {
      physToVirt.Length == virtToPhys.Length == MAX_THREADS && physToVirt != virtToPhys
    }

    ghost predicate EnteredAt(c: Config, n: nat, a: nat, b: nat)
      requires Sized()
      reads physToVirt, virtToPhys
    {
      && SlotOk(c, n, a, b)
      && physToVirt[ThreadAt(c, a, b)] == Virt(n, a, b) && virtToPhys[Virt(n, a, b)] == ThreadAt(c, a, b)
    }

    /** The slots before (i, j) are entered in both tables, and the first holds nothing else. */
    ghost predicate Entered(c: Config, n: nat, t: nat, i: nat, j: nat)
      requires Sized()
      reads physToVirt, virtToPhys
    {
      && (forall a: nat, b: nat | b < t && Before(a, b, i, j) :: EnteredAt(c, n, a, b))
      && (forall p: nat | p < MAX_THREADS && physToVirt[p] != 0 :: HasSlot(c, t, i, j, p))
    }

    method InitSlot(c: Config, n: nat, t: nat, i: nat, j: nat) returns (err: InitError)
      requires Sized() && i < n && i < |c.duals| && j < t && Entered(c, n, t, i, j)
      modifies physToVirt, virtToPhys
      ensures err == Ok ==> Entered(c, n, t, i, j + 1)
      ensures err != Ok ==> !Good(c, n, t)
    {
      hide Virt;
      if j >= |c.duals[i].threads| {
        NotOk(c, n, t, i, j);
        return PastTable;
      }
      var virt, phys := Virt(n, i, j), c.duals[i].threads[j];
      if phys >= MAX_THREADS || virt >= MAX_THREADS {
        NotOk(c, n, t, i, j);
        return if phys > MAX_THREADS || virt > MAX_THREADS then BadThread else PastTable;
      }
      if physToVirt[phys] != 0 {
        Twice(c, n, t, i, j);
        return TwiceDefined;
      }
      NotBefore(c, n, t, i, j);
      ghost var was := physToVirt[..];
      assert forall a: nat, b: nat | b < t && Before(a, b, i, j) :: EnteredAt(c, n, a, b) && ThreadAt(c, a, b) != phys;
      label L:
      physToVirt[phys] := virt;
      virtToPhys[virt] := phys;
      forall a: nat, b: nat | b < t && Before(a, b, i, j + 1)
        ensures EnteredAt(c, n, a, b)
      {
        if Before(a, b, i, j) {
          assert old@L(EnteredAt(c, n, a, b));
        }
      }
      forall p: nat | p < MAX_THREADS && physToVirt[p] != 0
        ensures HasSlot(c, t, i, j + 1, p)
      {
        if p != phys {
          assert was[p] != 0;
          Earlier(c, t, i, j, p);
        } else {
          assert Before(i, j, i, j + 1);
        }
      }
      err := Ok;
    }

    method InitDual(c: Config, n: nat, t: nat, i: nat) returns (err: InitError)
      requires Sized() && i < n && i < |c.duals| && Entered(c, n, t, i, 0)
      modifies physToVirt, virtToPhys
      ensures err == Ok ==> Entered(c, n, t, i + 1, 0) && DualOk(c, i)
      ensures err != Ok ==> !Good(c, n, t)
    {
      hide SocketInfo.EnteredAt, HasSlot, SlotOk, SameThread;
      assert Good(c, n, t) ==> DualOk(c, i);
      if c.duals[i].socket >= MAX_SOCKETS { return BadSocket; }
      if |c.duals[i].threads| != |c.duals[0].threads| { return UnequalThreads; }
      for j := 0 to t
        invariant Entered(c, n, t, i, j)
      {
        err := InitSlot(c, n, t, i, j);
        if err != Ok { return; }
      }
      NextDual(c, t, i);
      err := Ok;
    }

    /** Enters `n` dual interfaces of `t` threads each. It succeeds just when the configuration is good, and
        then the two tables are inverse to each other on the threads entered and empty elsewhere. */
    method Init(c: Config, n: nat, t: nat) returns (err: InitError)
      requires Sized() && forall k | 0 <= k < MAX_THREADS :: physToVirt[k] == 0
      modifies physToVirt, virtToPhys
      ensures err == Ok <==> Good(c, n, t)
      ensures err == Ok ==>
        && (forall i: nat, j: nat | IsSlot(n, t, i, j) :: EnteredAt(c, n, i, j))
        && (forall p: nat | p < MAX_THREADS && physToVirt[p] != 0 :: HasSlot(c, t, n, 0, p))
        && physToVirt[c.master] == physToVirt[c.latency] == 0
    {
      hide HasSlot, SlotOk, SameThread, SocketInfo.EnteredAt, DualOk;
      for i := 0 to n
        invariant Entered(c, n, t, i, 0)
        invariant forall k | 0 <= k < i :: DualOk(c, k)
      {
        if i >= |c.duals| {
          NoSuchDual(c, n, t, i);
          return PastTable;
        }
        err := InitDual(c, n, t, i);
        if err != Ok { return; }
      }
      AllEntered(c, n, t);
      if c.master >= MAX_THREADS || c.latency >= MAX_THREADS { return PastTable; }
      if physToVirt[c.master] != 0 {
        Taken(c, n, t, c.master);
        return MasterTaken;
      }
      if physToVirt[c.latency] != 0 {
        Taken(c, n, t, c.latency);
        return LatencyTaken;
      }
      if n == 0 && t > 0 { return UnequalThreads; }
      OthersFree(c, n, t);
      err := Ok;
    }

    lemma AllEntered(c: Config, n: nat, t: nat)
      requires Sized() && Entered(c, n, t, n, 0)
      ensures forall i: nat, j: nat | IsSlot(n, t, i, j) :: EnteredAt(c, n, i, j) && SlotOk(c, n, i, j)
      ensures forall i: nat, j: nat, a: nat, b: nat
        | IsSlot(n, t, i, j) && IsSlot(n, t, a, b) && SameThread(c, i, j, a, b) :: i == a && j == b
    {
      hide Virt;
      forall i: nat, j: nat | IsSlot(n, t, i, j)
        ensures EnteredAt(c, n, i, j)
      {
        assert Before(i, j, n, 0);
      }
      forall i: nat, j: nat, a: nat, b: nat | IsSlot(n, t, i, j) && IsSlot(n, t, a, b) && SameThread(c, i, j, a, b)
        ensures i == a && j == b
      {
        assert EnteredAt(c, n, i, j) && EnteredAt(c, n, a, b);
        VirtsDiffer(n, i, j, a, b);
      }
    }

    /** A thread that is not in the table is no slot's. */
    lemma OthersFree(c: Config, n: nat, t: nat)
      requires Sized() && forall i: nat, j: nat | IsSlot(n, t, i, j) :: EnteredAt(c, n, i, j)
      requires c.master < MAX_THREADS && c.latency < MAX_THREADS && physToVirt[c.master] == physToVirt[c.latency] == 0
      ensures forall i: nat, j: nat | IsSlot(n, t, i, j) ::
        ThreadAt(c, i, j) != c.master && ThreadAt(c, i, j) != c.latency
    {
      hide Virt;
      forall i: nat, j: nat | IsSlot(n, t, i, j)
        ensures ThreadAt(c, i, j) != c.master && ThreadAt(c, i, j) != c.latency
      {
        assert EnteredAt(c, n, i, j);
      }
    }

    lemma NextDual(c: Config, t: nat, i: nat)
      ensures forall a: nat, b: nat | b < t :: Before(a, b, i, t) <==> Before(a, b, i + 1, 0)
      ensures forall p: nat :: HasSlot(c, t, i, t, p) ==> HasSlot(c, t, i + 1, 0, p)
    {
      forall p: nat | HasSlot(c, t, i, t, p)
        ensures HasSlot(c, t, i + 1, 0, p)
      {
        var a: nat, b: nat :| b < t && Before(a, b, i, t) && ThreadAt(c, a, b) == p;
        assert Before(a, b, i + 1, 0);
      }
    }
  }

  lemma NotOk(c: Config, n: nat, t: nat, i: nat, j: nat)
    requires IsSlot(n, t, i, j) && !SlotOk(c, n, i, j)
    ensures !Good(c, n, t)
  {
  }

  lemma Twice(c: Config, n: nat, t: nat, i: nat, j: nat)
    requires IsSlot(n, t, i, j) && HasSlot(c, t, i, j, ThreadAt(c, i, j))
    ensures !Good(c, n, t)
  {
    var a: nat, b: nat :| b < t && Before(a, b, i, j) && ThreadAt(c, a, b) == ThreadAt(c, i, j);
    assert IsSlot(n, t, a, b) && SameThread(c, i, j, a, b);
  }

  lemma Earlier(c: Config, t: nat, i: nat, j: nat, p: nat)
    requires HasSlot(c, t, i, j, p)
    ensures HasSlot(c, t, i, j + 1, p)
  {
  }

  lemma NoSuchDual(c: Config, n: nat, t: nat, i: nat)
    requires |c.duals| <= i < n
    ensures !Good(c, n, t)
  {
    assert !DualOk(c, i);
  }

  lemma Taken(c: Config, n: nat, t: nat, p: nat)
    requires HasSlot(c, t, n, 0, p) && (p == c.master || p == c.latency)
    ensures !Good(c, n, t)
  {
  }

  lemma NotBefore(c: Config, n: nat, t: nat, i: nat, j: nat)
    requires i < n
    ensures forall a: nat, b: nat | Before(a, b, i, j) :: Virt(n, a, b) != Virt(n, i, j)
  {
    forall a: nat, b: nat | Before(a, b, i, j)
      ensures Virt(n, a, b) != Virt(n, i, j)
    {
      if Virt(n, a, b) == Virt(n, i, j) {
        VirtsDiffer(n, i, j, a, b);
      }
    }
  }
}
