/** Parsing a command line: options are taken one call at a time, and what is no option is moved behind the
    rest. */
module OptionParsing {
  import opened OptionLookup
  import opened Arrangements
  import opened Wrappers

  // ----- one argument -----

  function Equals(s: string): (i: nat)
    ensures i <= |s| && (i < |s| ==> s[i] == '=') && forall j | 0 <= j < i :: s[j] != '='
  {
    if s == "" || s[0] == '=' then 0 else 1 + Equals(s[1..])
  }

  predicate Switch(arg: string) { At(arg, 0) == '-' }

  /** An option may bring its argument behind an equals sign. */
  function NameOf(arg: string): string { if Switch(arg) then arg[..Equals(arg)] else arg }

  function ValueOf(arg: string): Option<string> {
    if Switch(arg) && Equals(arg) < |arg| then Some(arg[Equals(arg) + 1..]) else None
  }

  datatype Kind =
    | Data
    | Unknown(code: int)
    | Known(idx: nat, value: Option<string>)
    | Clump

  ghost function Classify(flags: Flags, table: seq<SOption>, arg: string): (r: Kind)
    requires TableOk(table) && CString(arg)
    ensures r.Known? ==> r.idx < |table|
    ensures r.Clump? ==> |arg| > 1
  {
    var idx := Lookup(flags, table, NameOf(arg));
    LookupInTable(flags, table, NameOf(arg));
    if idx >= 0 then Known(idx, ValueOf(arg))
    else if ValueOf(arg).None? && Switch(arg) && |arg| > 2 && arg[1] != '-' then
      var short := Lookup(flags, table, ['-', arg[1]]);
      LookupInTable(flags, table, ['-', arg[1]]);
      if flags.shortArg && short >= 0 && table[short].argType in {ReqCmb, Opt} then Known(short, Some(arg[2..]))
      else if flags.clump then Clump
      else NotFound(flags, arg, idx)
    else NotFound(flags, arg, idx)
  }

  function NotFound(flags: Flags, arg: string, code: int): Kind {
    if !flags.noErr && Switch(arg) then Unknown(code) else Data
  }

  lemma LookupInTable(flags: Flags, table: seq<SOption>, arg: string)
    ensures Lookup(flags, table, arg) < |table|
  {
    LookupMeans(flags, table, arg, Lookup(flags, table, arg));
  }

  // ----- what a call reports, and the state between calls -----

  datatype Report = Report(id: int, error: int, text: Option<string>, arg: Option<string>)

  const NOTHING := Report(-1, SO_SUCCESS, None, None)

  datatype State = State(taken: set<nat>, scanned: nat, clump: string)

  /** The next letter of a clump: whether it is an option, what is reported, and the letters left. */
  ghost function ClumpOne(table: seq<SOption>, clump: string): (r: (bool, Report, string))
    requires clump != ""
    ensures |r.2| < |clump|
  {
    var rest := clump[1..];
    var idx := Lookup(EXACT_ONLY, table, ['-', clump[0]]);
    LookupInTable(EXACT_ONLY, table, ['-', clump[0]]);
    if idx < 0 then (false, Report(-1, idx, None, None), rest)
    else
      var o := table[idx];
      if o.argType == NoArg then (true, Report(o.id, SO_SUCCESS, Some(o.text), None), rest)
      else if o.argType == ReqCmb && rest != "" then (true, Report(o.id, SO_SUCCESS, Some(o.text), Some(rest)), "")
      else (true, Report(-1, SO_ARG_MISSING, Some(o.text), None), rest)
  }

  /** Without errors, letters that are no option are passed over. */
  ghost function ClumpNext(flags: Flags, table: seq<SOption>, clump: string): (r: (bool, Report, string))
    requires clump != ""
    ensures |r.2| < |clump|
    decreases |clump|
  {
    var (valid, r, rest) := ClumpOne(table, clump);
    if !valid && flags.noErr && rest != "" then ClumpNext(flags, table, rest)
    else (valid || !flags.noErr, r, rest)
  }

  function OptionError(flags: Flags, t: ArgType, value: Option<string>): int {
    if t == NoArg && value.Some? then SO_ARG_INVALID
    else if t == ReqSep && value.Some? && flags.pedantic then SO_ARG_INVALID_TYPE
    else if t == ReqCmb && value.None? then SO_ARG_MISSING
    else SO_SUCCESS
  }

  /** Why `count` arguments from place `k` on cannot be had, or SO_SUCCESS. */
  function MultiError(flags: Flags, args: seq<string>, k: nat, count: nat): int {
    if k + count > |args| then SO_ARG_MISSING
    else if !flags.noErr && exists i | k <= i < k + count :: Switch(args[i]) then SO_ARG_INVALID_DATA
    else SO_SUCCESS
  }

  function Span(lo: nat, hi: nat): set<nat>
    requires lo <= hi
  {
    set i | i in Range(lo, hi)
  }

  lemma EmptySpan(lo: nat)
    ensures Span(lo, lo) == {} && Span(lo, lo + 1) == {lo}
  {
    assert Range(lo, lo + 1) == [lo];
  }

  lemma SpanGrows(lo: nat, hi: nat)
    requires lo <= hi
    ensures Span(lo, hi + 1) == Span(lo, hi) + {hi}
  {
    assert Range(lo, hi + 1) == Range(lo, hi) + [hi];
  }

  /** The option at place `j` is taken, with the argument after it if it needs one of its own. */
  ghost function TakeOption(flags: Flags, table: seq<SOption>, args: seq<string>, s: State, j: nat,
                            o: SOption, value: Option<string>): (State, Report)
    requires j < |args|
  {
    var s' := State(s.taken + {j}, j + 1, "");
    var error := OptionError(flags, o.argType, value);
    if o.argType == ReqSep && value.None? then
      var multi := MultiError(flags, args, j + 1, 1);
      if multi == SO_SUCCESS then
        (State(s'.taken + {j + 1}, j + 2, ""), Report(o.id, SO_SUCCESS, Some(o.text), Some(args[j + 1])))
      else (s', Report(o.id, multi, Some(o.text), None))
    else (s', Report(o.id, error, Some(o.text), value))
  }

  /** The next argument that is no data. */
  ghost function NextIndex(flags: Flags, table: seq<SOption>, args: seq<string>, k: nat): (j: nat)
    requires TableOk(table) && ArgsOk(args) && k <= |args|
    ensures k <= j <= |args| && (j < |args| ==> !IsData(flags, table, args[j]))
    decreases |args| - k
  {
    if k < |args| && IsData(flags, table, args[k]) then NextIndex(flags, table, args, k + 1) else k
  }

  lemma {:induction false} NextIndexMeans(flags: Flags, table: seq<SOption>, args: seq<string>, k: nat)
    requires TableOk(table) && ArgsOk(args) && k <= |args|
    ensures
      forall i | k <= i < NextIndex(flags, table, args, k) :: IsData(flags, table, args[i])
    decreases |args| - k
  {
    hide IsData;
    if k < |args| && IsData(flags, table, args[k]) {
      NextIndexMeans(flags, table, args, k + 1);
    }
  }

  ghost predicate IsData(flags: Flags, table: seq<SOption>, arg: string) {
    TableOk(table) && CString(arg) && Classify(flags, table, arg).Data?
  }

  predicate ArgsOk(args: seq<string>) { forall i | 0 <= i < |args| :: CString(args[i]) }

  ghost function Scan(flags: Flags, table: seq<SOption>, args: seq<string>, s: State): (bool, State, Report)
    requires TableOk(table) && ArgsOk(args) && s.scanned <= |args|
    decreases |args| - s.scanned, 0
  {
    var j := NextIndex(flags, table, args, s.scanned);
    if j == |args| then (false, State(s.taken, j, ""), NOTHING)
    else
      match Classify(flags, table, args[j])
      case Unknown(code) =>
        (true, State(s.taken + {j}, j + 1, ""), Report(-1, code, Some(NameOf(args[j])), ValueOf(args[j])))
      case Known(idx, value) => (var (s', r) := TakeOption(flags, table, args, s, j, table[idx], value); (true, s', r))
      case Clump => Step(flags, table, args, State(s.taken + {j}, j + 1, args[j][1..]))
  }

  /** One call: whether there is an option or an error, the state after it, and what it reports. */
  ghost function Step(flags: Flags, table: seq<SOption>, args: seq<string>, s: State): (bool, State, Report)
    requires TableOk(table) && ArgsOk(args) && s.scanned <= |args|
    decreases |args| - s.scanned, 1
  {
    if s.clump == "" then Scan(flags, table, args, s)
    else
      var (found, r, rest) := ClumpNext(flags, table, s.clump);
      if found then (true, s.(clump := rest), r) else Scan(flags, table, args, s.(clump := ""))
  }

  // ----- what is handed over -----

  /** The name of an argument and what stands behind its equals sign make it up. */
  lemma NameAndValue(arg: string)
    ensures Switch(arg) ==>
      && '=' !in NameOf(arg) && NameOf(arg) <= arg
      && arg == NameOf(arg) + if ValueOf(arg).Some? then "=" + ValueOf(arg).value else ""
    ensures !Switch(arg) ==> NameOf(arg) == arg && ValueOf(arg).None?
  {
  }

  /** The argument is an entry of the table or abbreviates one. */
  ghost predicate Named(flags: Flags, table: seq<SOption>, arg: string) {
    Lookup(flags, table, NameOf(arg)) >= 0
  }

  /** One hyphen and more than one letter, without a value. */
  predicate Letters(arg: string) {
    |arg| > 2 && arg[0] == '-' != arg[1] && '=' !in arg
  }

  /** Its first letter is an option that may bring its argument with it. */
  ghost predicate Shortened(flags: Flags, table: seq<SOption>, arg: string) {
    && flags.shortArg && Letters(arg)
    && var n := Lookup(flags, table, ['-', arg[1]]);
      0 <= n < |table| && table[n].argType in {ReqCmb, Opt}
  }

  lemma LettersHaveNoValue(arg: string)
    requires |arg| > 2 && arg[0] == '-' != arg[1]
    ensures Letters(arg) <==> ValueOf(arg).None?
    ensures Letters(arg) ==> NameOf(arg) == arg
  {
    if Equals(arg) == |arg| {
      assert forall c | c in arg :: c != '=';
    }
  }

  /** What data is. When errors are reported no switch is, and without them it is what the table does not
      explain. */
  lemma DataMeans(flags: Flags, table: seq<SOption>, arg: string)
    requires TableOk(table) && CString(arg)
    ensures !flags.noErr ==> (IsData(flags, table, arg) <==> !Switch(arg) && !Named(flags, table, arg))
    ensures flags.noErr ==>
      (IsData(flags, table, arg)
       <==> !Named(flags, table, arg) && !Shortened(flags, table, arg) && !(flags.clump && Letters(arg)))
  {
    hide Lookup;
    LookupInTable(flags, table, NameOf(arg));
    if |arg| > 2 && arg[0] == '-' != arg[1] {
      LettersHaveNoValue(arg);
      LookupInTable(flags, table, ['-', arg[1]]);
    }
  }

  /** Argument `j` is the next that is no data. */
  ghost predicate IsNext(flags: Flags, table: seq<SOption>, args: seq<string>, k: nat, j: nat) {
    k <= j < |args| && !IsData(flags, table, args[j]) && forall i | k <= i < j :: IsData(flags, table, args[i])
  }

  lemma {:induction false} NextIs(flags: Flags, table: seq<SOption>, args: seq<string>, k: nat, j: nat)
    requires TableOk(table) && ArgsOk(args) && IsNext(flags, table, args, k, j)
    ensures NextIndex(flags, table, args, k) == j
    decreases j - k
  {
    hide IsData;
    if k < j {
      NextIs(flags, table, args, k + 1, j);
    }
  }

  /** An option found by its name. It is told as the table has it. Its argument is what stands behind the
      equals sign; an option that wants one of its own is given the next argument, if there is one that it
      may have. */
  lemma NamedIsHandedOver(flags: Flags, table: seq<SOption>, args: seq<string>, s: State, j: nat)
    requires TableOk(table) && ArgsOk(args) && s.scanned <= |args| && s.clump == ""
    requires IsNext(flags, table, args, s.scanned, j) && Named(flags, table, args[j])
    ensures
      var n, value := Lookup(flags, table, NameOf(args[j])), ValueOf(args[j]);
      n < |table|
      && var o, (more, s', r) := table[n], Step(flags, table, args, s);
      && more && s'.clump == "" && r.id == o.id && r.text == Some(o.text)
      && (value.Some? ==>
        && r.arg == value && s' == State(s.taken + {j}, j + 1, "")
        && r.error == (if o.argType == NoArg then SO_ARG_INVALID
                       else if o.argType == ReqSep && flags.pedantic then SO_ARG_INVALID_TYPE else SO_SUCCESS))
      && (value.None? && o.argType == ReqSep ==>
        if j + 1 < |args| && (flags.noErr || At(args[j + 1], 0) != '-') then
          r.error == SO_SUCCESS && r.arg == Some(args[j + 1]) && s' == State(s.taken + {j, j + 1}, j + 2, "")
        else
          && r.error == (if j + 1 == |args| then SO_ARG_MISSING else SO_ARG_INVALID_DATA)
          && r.arg == None && s' == State(s.taken + {j}, j + 1, ""))
      && (value.None? && o.argType != ReqSep ==>
        && r.error == (if o.argType == ReqCmb then SO_ARG_MISSING else SO_SUCCESS)
        && r.arg == None && s' == State(s.taken + {j}, j + 1, ""))
  {
    hide Lookup, NextIndex, IsData, NameOf, ValueOf, NotFound;
    NextIs(flags, table, args, s.scanned, j);
    LookupInTable(flags, table, NameOf(args[j]));
    assert s.taken + {j} + {j + 1} == s.taken + {j, j + 1};
    if j + 1 < |args| {
      assert Switch(args[j + 1]) <==> exists i | j + 1 <= i < j + 2 :: Switch(args[i]);
    }
  }

  /** An option whose argument follows its letter. */
  lemma ShortenedIsHandedOver(flags: Flags, table: seq<SOption>, args: seq<string>, s: State, j: nat)
    requires TableOk(table) && ArgsOk(args) && s.scanned <= |args| && s.clump == ""
    requires IsNext(flags, table, args, s.scanned, j)
    requires !Named(flags, table, args[j]) && Shortened(flags, table, args[j])
    ensures
      var n := Lookup(flags, table, ['-', args[j][1]]);
      && 0 <= n < |table|
      && Step(flags, table, args, s)
        == (true, State(s.taken + {j}, j + 1, ""),
            Report(table[n].id, SO_SUCCESS, Some(table[n].text), Some(args[j][2..])))
  {
    hide Lookup, NextIndex, IsData, NameOf, ValueOf;
    NextIs(flags, table, args, s.scanned, j);
    LettersHaveNoValue(args[j]);
  }

  /** Letters that are neither are taken one by one, and any other switch is told as an error. */
  lemma OtherSwitches(flags: Flags, table: seq<SOption>, args: seq<string>, s: State, j: nat)
    requires TableOk(table) && ArgsOk(args) && s.scanned <= |args| && s.clump == ""
    requires IsNext(flags, table, args, s.scanned, j)
    requires !Named(flags, table, args[j]) && !Shortened(flags, table, args[j])
    ensures args[j] != "" && Step(flags, table, args, s)
      == if flags.clump && Letters(args[j]) then
           Step(flags, table, args, State(s.taken + {j}, j + 1, args[j][1..]))
         else
           (true, State(s.taken + {j}, j + 1, ""),
            Report(-1, Lookup(flags, table, NameOf(args[j])), Some(NameOf(args[j])), ValueOf(args[j])))
  {
    hide Lookup, NextIndex, NameOf, ValueOf;
    NextIs(flags, table, args, s.scanned, j);
    if |args[j]| > 2 && args[j][0] == '-' != args[j][1] {
      LettersHaveNoValue(args[j]);
    }
  }

  /** The letters of a clump: each is told as its entry has it, and the rest of the clump is the argument of
      a letter that needs one. */
  lemma LetterIsHandedOver(flags: Flags, table: seq<SOption>, args: seq<string>, s: State)
    requires TableOk(table) && ArgsOk(args) && s.scanned <= |args| && s.clump != ""
    ensures
      var n, rest := Lookup(EXACT_ONLY, table, ['-', s.clump[0]]), s.clump[1..];
      var call := Step(flags, table, args, s);
      && n < |table|
      && (n < 0 && flags.noErr ==> call == Step(flags, table, args, s.(clump := rest)))
      && (n < 0 && !flags.noErr ==> call == (true, s.(clump := rest), Report(-1, n, None, None)))
      && (n >= 0 && table[n].argType == NoArg ==>
        call == (true, s.(clump := rest), Report(table[n].id, SO_SUCCESS, Some(table[n].text), None)))
      && (n >= 0 && table[n].argType == ReqCmb && rest != "" ==>
        call == (true, s.(clump := ""), Report(table[n].id, SO_SUCCESS, Some(table[n].text), Some(rest))))
      && (n >= 0 && table[n].argType != NoArg && !(table[n].argType == ReqCmb && rest != "") ==>
        call == (true, s.(clump := rest), Report(-1, SO_ARG_MISSING, Some(table[n].text), None)))
  {
    hide Lookup, Scan, Step, ClumpOne;
    var n := Lookup(EXACT_ONLY, table, ['-', s.clump[0]]);
    LookupInTable(EXACT_ONLY, table, ['-', s.clump[0]]);
    if n < 0 && flags.noErr {
      LetterPassedOver(flags, table, args, s);
    } else {
      LetterMeans(table, s.clump);
      LetterTold(flags, table, args, s);
    }
  }

  lemma LetterTold(flags: Flags, table: seq<SOption>, args: seq<string>, s: State)
    requires TableOk(table) && ArgsOk(args) && s.scanned <= |args| && s.clump != ""
    requires ClumpOne(table, s.clump).0 || !flags.noErr
    ensures
      var (_, r, rest) := ClumpOne(table, s.clump);
      Step(flags, table, args, s) == (true, s.(clump := rest), r)
  {
    hide Lookup, Scan, ClumpOne;
  }

  lemma LetterMeans(table: seq<SOption>, clump: string)
    requires clump != ""
    ensures
      var n, rest := Lookup(EXACT_ONLY, table, ['-', clump[0]]), clump[1..];
      var r := ClumpOne(table, clump);
      if n < 0 then r == (false, Report(-1, n, None, None), rest)
      else
        n < |table| && var o := table[n];
        r == if o.argType == NoArg then (true, Report(o.id, SO_SUCCESS, Some(o.text), None), rest)
             else if o.argType == ReqCmb && rest != "" then
               (true, Report(o.id, SO_SUCCESS, Some(o.text), Some(rest)), "")
             else (true, Report(-1, SO_ARG_MISSING, Some(o.text), None), rest)
  {
    LookupInTable(EXACT_ONLY, table, ['-', clump[0]]);
  }

  lemma LetterPassedOver(flags: Flags, table: seq<SOption>, args: seq<string>, s: State)
    requires TableOk(table) && ArgsOk(args) && s.scanned <= |args| && s.clump != ""
    requires flags.noErr && Lookup(EXACT_ONLY, table, ['-', s.clump[0]]) < 0
    ensures Step(flags, table, args, s) == Step(flags, table, args, s.(clump := s.clump[1..]))
  {
    hide Lookup, Scan;
    var rest := s.clump[1..];
    if rest != "" {
      hide ClumpOne;
      assert ClumpNext(flags, table, s.clump) == ClumpNext(flags, table, rest) by {
        assert !ClumpOne(table, s.clump).0 by { NotFoundLetter(table, s.clump); }
        assert ClumpOne(table, s.clump).2 == rest by { NotFoundLetter(table, s.clump); }
      }
    } else {
      NotFoundLetter(table, s.clump);
    }
  }

  lemma NotFoundLetter(table: seq<SOption>, clump: string)
    requires clump != "" && Lookup(EXACT_ONLY, table, ['-', clump[0]]) < 0
    ensures !ClumpOne(table, clump).0 && ClumpOne(table, clump).2 == clump[1..]
  {
  }

  ghost predicate HandedOver(reports: seq<Report>, arg: string) {
    exists k :: 0 <= k < |reports| && reports[k].arg == Some(arg)
  }

  /** Nothing is swallowed: what a call takes is an option, or it hands it over. */
  lemma {:induction false} StepHandsOver(flags: Flags, table: seq<SOption>, args: seq<string>, s: State)
    requires TableOk(table) && ArgsOk(args) && s.scanned <= |args|
    ensures
      var (more, s', r) := Step(flags, table, args, s);
      forall x | x in s'.taken && x !in s.taken ::
        x < |args| && (!IsData(flags, table, args[x]) || (more && r.arg == Some(args[x])))
    decreases |args| - s.scanned
  {
    hide Classify, ClumpNext, NextIndex, Step, TakeOption;
    var j := NextIndex(flags, table, args, s.scanned);
    var s0 := s.(clump := "");
    StepScans(flags, table, args, s);
    if j < |args| {
      match Classify(flags, table, args[j]) {
        case Clump => StepHandsOver(flags, table, args, State(s.taken + {j}, j + 1, args[j][1..]));
        case Known(idx, value) => OptionHandsOver(flags, table, args, s0, j, table[idx], value);
        case Unknown(_) =>
      }
    }
  }

  /** A call that finds no letter scans. */
  lemma StepScans(flags: Flags, table: seq<SOption>, args: seq<string>, s: State)
    requires TableOk(table) && ArgsOk(args) && s.scanned <= |args|
    ensures
      || Step(flags, table, args, s).1.taken == s.taken
      || Step(flags, table, args, s) == Scan(flags, table, args, s.(clump := ""))
  {
    hide Scan, ClumpNext;
    if s.clump == "" {
      assert s.(clump := "") == s;
    }
  }

  lemma OptionHandsOver(flags: Flags, table: seq<SOption>, args: seq<string>, s: State, j: nat, o: SOption,
                        value: Option<string>)
    requires j < |args|
    ensures
      var (s', r) := TakeOption(flags, table, args, s, j, o, value);
      forall x | x in s'.taken && x !in s.taken :: x == j || (x == j + 1 < |args| && r.arg == Some(args[x]))
  {
  }

  // ----- the parser -----

  class SimpleOpt {
    const table: seq<SOption>
    const flags: Flags
    const argv: array<nat>       // which argument stands where; an argument is named by its first place
    const text: array<string>    // what the arguments read
    ghost const args: seq<string>  // what they read at first

    var optionIdx: nat
    var nextOption: nat          // below it are the arguments taken
    var lastArg: nat             // from it on are the files
    var clump: string
    var optionId: int
    var lastError: int
    var optionText: Option<string>
    var optionArg: Option<string>
    ghost var taken: set<nat>
    ghost var scanned: nat

    ghost function S(): State
      reads `taken, `scanned, `clump
    {
      State(taken, scanned, clump)
    }

    function R(): Report
      reads `optionId, `lastError, `optionText, `optionArg
    {
      Report(optionId, lastError, optionText, optionArg)
    }

    /** The arguments taken stand first, then those not looked at, then the files, each in order. */
    ghost predicate Placed()
      reads argv, `nextOption, `lastArg, `taken, `scanned
    {
      && scanned <= argv.Length && (forall i | i in taken :: i < scanned)
      && argv[..] == Arrangement(taken, scanned, argv.Length)
      && nextOption == |Kept(taken, scanned)| && lastArg + |Left(taken, scanned)| == argv.Length
    }

    /** What is not taken reads as at first. */
    ghost predicate Unread()
      reads text, `taken
    {
      |args| == text.Length && forall i | 0 <= i < text.Length && i !in taken :: text[i] == args[i]
    }

    ghost predicate Valid()
      reads this, argv, text
    {
      && scanned <= argv.Length == text.Length == |args| && TableOk(table) && ArgsOk(args)
      && Placed() && Unread() && CString(clump)
    }

    constructor (args: seq<string>, table: seq<SOption>, flags: Flags, useAll: bool)
      requires TableOk(table) && ArgsOk(args) && (|args| > 0 || useAll)
      ensures Valid() && this.args == args && this.table == table && this.flags == flags
      ensures S() == (if useAll then State({}, 0, "") else State({0}, 1, "")) && fresh(argv) && fresh(text)
    {
      this.args, this.table, this.flags := args, table, flags;
      argv := new nat[|args|](i => i);
      text := new string[|args|](i requires 0 <= i < |args| => args[i]);
      optionIdx, optionId, lastError, optionText, optionArg, clump := 0, -1, SO_SUCCESS, None, None, "";
      nextOption, lastArg := if useAll then 0 else 1, |args|;
      taken, scanned := if useAll then {} else {0}, if useAll then 0 else 1;
      new;
      NothingScanned({}, |args|);
      assert argv[..] == Range(0, |args|);
      if !useAll {
        TakeNext({}, 0, |args|);
        assert {} + {0} == {0};
      }
    }

    // ----- moving arguments -----

    /** `count` arguments are copied, from the first to the last. */
    static method Copy(dst: array<nat>, d: nat, src: array<nat>, s: nat, count: nat)
      requires d + count <= dst.Length && s + count <= src.Length && (dst == src ==> d <= s)
      modifies dst
      ensures dst[..] == old(dst[..d]) + old(src[s..s + count]) + old(dst[d + count..])
    {
      for i := 0 to count
        invariant dst[..d + i] == old(dst[..d]) + old(src[s..s + i])
        invariant dst[d + i..] == old(dst[d + i..])
        invariant dst != src ==> src[..] == old(src[..])
      {
        assert src[s + i] == old(src[s + i]) by {
          if dst == src { assert dst[d + i..][s - d] == dst[s + i]; }
        }
        dst[d + i] := src[s + i];
        assert old(src[s..s + i + 1]) == old(src[s..s + i]) + [old(src[s + i])];
      }
      assert dst[..] == dst[..d + count] + dst[d + count..];
    }

    method ShuffleArg(start: nat, count: nat)
      requires start + count <= argv.Length && count <= lastArg
      modifies argv, `lastArg
      ensures argv[..] == Rotated(old(argv[..]), start, count) && lastArg == old(lastArg) - count
    {
      var buf := new nat[count];
      ghost var a := argv[..];
      var tail := argv.Length - start - count;
      Copy(buf, 0, argv, start, count);
      assert buf[..] == a[start..start + count];
      Copy(argv, start, argv, start + count, tail);
      assert argv[..start + tail] == a[..start] + a[start + count..];
      Copy(argv, start + tail, buf, 0, count);
      lastArg := lastArg - count;
    }

    /** `count` arguments not looked at yet are left as files. */
    method Leave(count: nat)
      requires Placed() && scanned + count <= argv.Length
      modifies argv, `lastArg, `scanned
      ensures Placed() && scanned == old(scanned) + count
    {
      hide Arrangement, Kept, Left, Rotated;
      LeaveNext(taken, scanned, scanned + count, argv.Length);
      LeftGrows(taken, scanned, scanned + count);
      Sizes(taken, scanned);
      ShuffleArg(nextOption, count);
      scanned := scanned + count;
    }

    /** The first argument not looked at yet is taken where it stands. */
    method Take()
      requires Placed() && scanned < argv.Length
      modifies `nextOption, `taken, `scanned
      ensures Placed() && scanned == old(scanned) + 1 && taken == old(taken) + {old(scanned)}
    {
      hide Arrangement, Kept, Left;
      TakeNext(taken, scanned, argv.Length);
      taken, scanned := taken + {scanned}, scanned + 1;
      nextOption := nextOption + 1;
    }

    /** What stands in the part not looked at yet. */
    lemma Upcoming(i: nat)
      requires scanned + i <= argv.Length == text.Length == |args| && Placed()
      ensures nextOption + i <= lastArg && (nextOption + i == lastArg <==> scanned + i == argv.Length)
      ensures lastArg <= argv.Length
      ensures scanned + i < argv.Length ==> argv[nextOption + i] == scanned + i
      ensures scanned + i < argv.Length && Unread() ==> text[scanned + i] == args[scanned + i]
    {
      Sizes(taken, scanned);
      if scanned + i < argv.Length {
        Unscanned(taken, scanned, argv.Length, i);
      }
    }

    /** All that is left of the command line becomes files. */
    method Stop()
      requires Valid()
      modifies argv, `lastArg, `scanned
      ensures Valid() && S() == old(S()).(scanned := |args|)
    {
      hide SimpleOpt.Placed;
      Upcoming(0);
      EndOfScan();
      if nextOption < lastArg {
        Leave(lastArg - nextOption);
      }
    }

    lemma EndOfScan()
      requires Valid()
      ensures lastArg - nextOption == argv.Length - scanned
    {
      Upcoming(argv.Length - scanned);
    }

    // ----- arguments of options -----

    /** The next `count` arguments, all or none. */
    method MultiArg(count: nat) returns (r: Option<seq<string>>)
      requires Valid()
      modifies `nextOption, `taken, `scanned, `lastError
      ensures Valid()
      ensures
        var error := MultiError(flags, args, old(scanned), count);
        if error == SO_SUCCESS then
          && r == Some(args[old(scanned)..old(scanned) + count]) && lastError == old(lastError)
          && scanned == old(scanned) + count
          && taken == old(taken) + Span(old(scanned), scanned)
        else r == None && lastError == error && S() == old(S())
    {
      hide SimpleOpt.Placed, Span;
      EndOfScan();
      EmptySpan(scanned);
      if nextOption + count > lastArg {
        lastError := SO_ARG_MISSING;
        return None;
      }
      if !flags.noErr {
        for n := 0 to count
          invariant Valid() && S() == old(S()) && lastError == old(lastError)
          invariant forall i | scanned <= i < scanned + n :: !Switch(args[i])
        {
          Upcoming(n);
          if At(text[argv[nextOption + n]], 0) == '-' {
            lastError := SO_ARG_INVALID_DATA;
            return None;
          }
        }
      }
      var got: seq<string> := [];
      for n := 0 to count
        invariant Valid() && scanned == old(scanned) + n && lastError == old(lastError)
        invariant taken == old(taken) + Span(old(scanned), scanned)
        invariant got == args[old(scanned)..scanned] && clump == old(clump)
      {
        Upcoming(0);
        SpanGrows(old(scanned), scanned);
        got := got + [text[argv[nextOption]]];
        Take();
      }
      r := Some(got);
    }

    // ----- clumped letters -----

    method NextClumped() returns (valid: bool)
      requires Valid() && clump != ""
      modifies `clump, `optionId, `lastError, `optionText, `optionArg
      ensures Valid() && (valid, R(), clump) == ClumpOne(table, old(clump))
    {
      var short := ['-', clump[0]];
      clump := clump[1..];
      optionId, optionText, optionArg, lastError := -1, None, None, SO_SUCCESS;
      var idx := LookupOption(EXACT_ONLY, table, short);
      if idx < 0 {
        lastError := idx;
        return false;
      }
      optionText := Some(table[idx].text);
      if table[idx].argType == NoArg {
        optionId := table[idx].id;
        return true;
      }
      if table[idx].argType == ReqCmb && clump != "" {
        optionId := table[idx].id;
        optionArg := Some(clump);
        clump := "";
        return true;
      }
      lastError := SO_ARG_MISSING;
      valid := true;
    }

    method Clumped() returns (found: bool)
      requires Valid() && clump != ""
      modifies `clump, `optionId, `lastError, `optionText, `optionArg
      ensures Valid() && (found, R(), clump) == ClumpNext(flags, table, old(clump)) && (!found ==> clump == "")
    {
      hide SimpleOpt.Placed, ClumpOne;
      var valid := NextClumped();
      while clump != "" && !valid && flags.noErr
        invariant Valid()
        invariant ClumpNext(flags, table, old(clump))
               == if !valid && flags.noErr && clump != "" then ClumpNext(flags, table, clump)
                 else (valid || !flags.noErr, R(), clump)
        decreases |clump|
      {
        valid := NextClumped();
      }
      found := valid || !flags.noErr;
    }

    // ----- the next option -----

    /** Argument `p` was found to be of this kind: only an option or an error is cut and told. */
    ghost predicate Told(p: nat, kind: Kind, textBefore: seq<string>, optionTextBefore: Option<string>)
      requires p < |args| == |textBefore|
      reads text, `optionText, `optionArg
    {
      && text[..] == textBefore[p := if kind.Unknown? || kind.Known? then NameOf(args[p]) else args[p]]
      && (kind.Known? ==> optionArg == kind.value)
      && (kind.Unknown? ==> optionArg == ValueOf(args[p]) && optionText == Some(NameOf(args[p])))
      && (!kind.Unknown? ==> optionText == optionTextBefore)
    }

    /** Whether argument `p` is an option, and how. An argument behind an equals sign is cut off, and put
        back if it is data after all. */
    method Examine(p: nat) returns (kind: Kind)
      requires Valid() && p < |args| && text[p] == args[p]
      modifies text, `optionText, `optionArg
      ensures kind == Classify(flags, table, args[p])
      ensures Told(p, kind, old(text[..]), old(optionText))
    {
      hide SimpleOpt.Placed, Lookup, Found;
      var arg := text[p];
      optionArg := None;
      if At(arg, 0) == '-' {
        var e := Equals(arg);
        if e < |arg| {
          optionArg := Some(arg[e + 1..]);
          text[p] := arg[..e];
        }
      }
      assert text[p] == NameOf(arg) && optionArg == ValueOf(arg);
      var idx := LookupOption(flags, table, text[p]);
      if idx >= 0 { return Known(idx, optionArg); }
      if optionArg.None? && At(arg, 0) == '-' && At(arg, 1) != '\0' && At(arg, 1) != '-' && At(arg, 2) != '\0' {
        if flags.shortArg {
          var short := LookupOption(flags, table, ['-', arg[1]]);
          if short >= 0 && (table[short].argType == ReqCmb || table[short].argType == Opt) {
            optionArg := Some(arg[2..]);
            return Known(short, optionArg);
          }
        }
        if flags.clump { return Clump; }
      }
      if !flags.noErr && At(arg, 0) == '-' {
        optionText := Some(text[p]);
        return Unknown(idx);
      }
      if optionArg.Some? {
        text[p] := text[p] + "=" + optionArg.value;
      }
      assert text[p] == arg;
      kind := Data;
    }

    /** The first argument from `optionIdx` on that is no data, how it is one, and where it stands. */
    method Find() returns (at: nat, kind: Kind)
      requires Valid() && optionIdx == nextOption
      modifies text, `optionText, `optionArg
      ensures
        var j := NextIndex(flags, table, args, scanned);
        && at == nextOption + (j - scanned) && (at < lastArg <==> j < |args|) && at <= lastArg <= |args|
        && if j == |args| then text[..] == old(text[..])
           else kind == Classify(flags, table, args[j]) && Told(j, kind, old(text[..]), old(optionText))
    {
      hide SimpleOpt.Placed, Classify, SimpleOpt.Told;
      EndOfScan();
      Upcoming(0);
      ghost var k, was := scanned, text[..];
      at, kind := optionIdx, Data;
      while kind.Data? && at < lastArg
        invariant nextOption <= at <= lastArg && k + (at - nextOption) <= |args|
        invariant kind.Data? ==> Valid() && text[..] == was && optionText == old(optionText)
        invariant NextIndex(flags, table, args, k) == NextIndex(flags, table, args, k + (at - nextOption))
        invariant !kind.Data? ==>
          at < lastArg && kind == Classify(flags, table, args[k + (at - nextOption)])
          && Told(k + (at - nextOption), kind, was, old(optionText))
        decreases lastArg - at, kind.Data?
      {
        Upcoming(at - nextOption);
        ghost var p := k + (at - nextOption);
        kind := Examine(argv[at]);
        if kind.Data? {
          DataIsUntouched(p, was, old(optionText));
          at := at + 1;
        }
      }
    }

    lemma DataIsUntouched(p: nat, was: seq<string>, said: Option<string>)
      requires p < |args| == |was| && was[p] == args[p] && Told(p, Data, was, said)
      ensures text[..] == was && optionText == said
    {
    }

    /** The data before place `at` is left, and the argument there is taken. */
    method TakeAt(at: nat)
      requires Placed() && nextOption <= at && scanned + (at - nextOption) < argv.Length
      modifies argv, `lastArg, `scanned, `nextOption, `taken
      ensures Placed() && scanned == old(scanned) + (at - old(nextOption)) + 1 && taken == old(taken) + {scanned - 1}
    {
      hide SimpleOpt.Placed;
      if at > nextOption {
        Leave(at - nextOption);
      }
      Take();
    }

    /** An option has been found in the table. */
    method TakeKnown(at: nat, o: SOption)
      requires nextOption <= at && var j := scanned + (at - nextOption); j < |args| && CanTake(j)
      requires lastError == SO_SUCCESS
      modifies argv, `lastArg, `scanned, `nextOption, `taken, `optionId, `optionText, `optionArg, `lastError
      ensures Valid()
      ensures (S(), R())
           == TakeOption(flags, table, args, old(S()), old(scanned + (at - nextOption)), o, old(optionArg))
    {
      hide SimpleOpt.Placed;
      ghost var j := scanned + (at - nextOption);
      optionId, optionText := o.id, Some(o.text);
      match o.argType {
        case NoArg => if optionArg.Some? { lastError := SO_ARG_INVALID; }
        case ReqSep => if optionArg.Some? && flags.pedantic { lastError := SO_ARG_INVALID_TYPE; }
        case ReqCmb => if optionArg.None? { lastError := SO_ARG_MISSING; }
        case Opt =>
        case Multi =>
      }
      TakeAt(at);
      if o.argType == ReqSep && optionArg.None? && lastError == SO_SUCCESS {
        EmptySpan(scanned);
        var got := MultiArg(1);
        if got.Some? {
          optionArg := Some(got.value[0]);
        }
      }
    }

    /** Everything is in order but for the text of argument `j`, which is about to be taken. */
    ghost predicate CanTake(j: nat)
      reads argv, text, `nextOption, `lastArg, `taken, `scanned, `clump
    {
      && scanned <= argv.Length == text.Length == |args| && TableOk(table) && ArgsOk(args)
      && Placed() && clump == ""
      && forall i | 0 <= i < text.Length && i !in taken && i != j :: text[i] == args[i]
    }

    /** The next option or error, if there is one. */
    method Next() returns (more: bool)
      requires Valid()
      modifies this, argv, text
      ensures Valid()
      ensures var (m, s, r) := Step(flags, table, args, old(S())); more == m && S() == s && (more ==> R() == r)
      decreases |args| - scanned, 1
    {
      hide SimpleOpt.Placed, ClumpNext, Scan;
      if clump != "" {
        var found := Clumped();
        if found { return true; }
      }
      more := NextArg();
    }

    /** The letters of a clump are taken apart by the next calls. */
    method StartClump(at: nat)
      requires nextOption <= at
      requires
        var j := scanned + (at - nextOption);
        j < |args| && CanTake(j) && text[j] == args[j] && args[j] != ""
      modifies argv, `lastArg, `scanned, `nextOption, `taken, `clump
      ensures Valid()
      ensures var j := old(scanned + (at - nextOption)); S() == State(old(taken) + {j}, j + 1, args[j][1..])
    {
      hide SimpleOpt.Placed;
      Upcoming(at - nextOption);
      clump := text[argv[at]][1..];
      TakeAt(at);
    }

    method TakeUnknown(at: nat, code: int)
      requires nextOption <= at && var j := scanned + (at - nextOption); j < |args| && CanTake(j)
      modifies argv, `lastArg, `scanned, `nextOption, `taken, `lastError
      ensures Valid() && lastError == code
      ensures var j := old(scanned + (at - nextOption)); S() == State(old(taken) + {j}, j + 1, "")
    {
      hide SimpleOpt.Placed;
      lastError := code;
      TakeAt(at);
    }

    /** All arguments up to the end were data. */
    method EndOfOptions(at: nat)
      requires Valid() && optionIdx == nextOption <= at == lastArg
      modifies argv, `lastArg, `scanned
      ensures Valid() && S() == old(S()).(scanned := |args|)
    {
      hide SimpleOpt.Placed;
      EndOfScan();
      if at > optionIdx {
        Leave(at - optionIdx);
      }
    }

    /** The part of `Next` behind the clumped letters. */
    method NextArg() returns (more: bool)
      requires Valid() && clump == ""
      modifies this, argv, text
      ensures Valid()
      ensures var (m, s, r) := Scan(flags, table, args, old(S())); more == m && S() == s && (more ==> R() == r)
      decreases |args| - scanned, 0
    {
      hide SimpleOpt.Placed, Classify, Step, TakeOption, NextIndex;
      optionIdx, optionId, optionText, optionArg, lastError := nextOption, -1, None, None, SO_SUCCESS;
      var at, kind := Find();
      if at >= lastArg {
        EndOfOptions(at);
        return false;
      }
      match kind {
        case Clump =>
          StartClump(at);
          more := Next();
        case Unknown(code) =>
          TakeUnknown(at, code);
          more := true;
        case Known(idx, value) =>
          TakeKnown(at, table[idx]);
          more := true;
      }
    }

    // ----- the files -----

    /** The files read as they did at first and are in the order they had. */
    method Files() returns (files: seq<string>)
      requires Valid()
      ensures |files| == |Left(taken, scanned)|
      ensures forall i | 0 <= i < |files| ::
        Left(taken, scanned)[i] < |args| && files[i] == args[Left(taken, scanned)[i]]
    {
      ghost var left := Left(taken, scanned);
      Sizes(taken, scanned);
      assert argv[lastArg..] == left;
      files := [];
      for i := lastArg to argv.Length
        invariant |files| == i - lastArg
        invariant forall k | 0 <= k < |files| :: left[k] < |args| && files[k] == args[left[k]]
      {
        assert argv[i] == left[i - lastArg] && argv[i] in left;
        ListsHold(taken, scanned, argv[i]);
        files := files + [text[argv[i]]];
      }
    }
  }

  // ----- runs -----

  /** From one state to a later one: what is newly taken lies in the part looked at in between, and the rest
      of that part is data. */
  ghost predicate Onwards(flags: Flags, table: seq<SOption>, args: seq<string>, s: State, s': State)
    requires TableOk(table) && ArgsOk(args)
  {
    && s.scanned <= s'.scanned <= |args| && s.taken <= s'.taken
    && (forall i | i in s'.taken && i !in s.taken :: s.scanned <= i < s'.scanned)
    && (forall i | s.scanned <= i < s'.scanned && i !in s'.taken :: Classify(flags, table, args[i]).Data?)
  }

  lemma OnwardsTaking(flags: Flags, table: seq<SOption>, args: seq<string>, s: State, s': State, j: nat)
    requires TableOk(table) && ArgsOk(args) && s.scanned <= j < s'.scanned <= |args|
    requires forall i | s.scanned <= i < j :: Classify(flags, table, args[i]).Data?
    requires s'.taken == s.taken + Span(j, s'.scanned)
    ensures Onwards(flags, table, args, s, s')
  {
    hide Classify;
    assert forall i | j <= i < s'.scanned :: i in Range(j, s'.scanned) by {
      forall i | j <= i < s'.scanned
        ensures i in Range(j, s'.scanned)
      {
        assert Range(j, s'.scanned)[i - j] == i;
      }
    }
  }

  lemma OnwardsTwice(flags: Flags, table: seq<SOption>, args: seq<string>, s: State, m: State, s': State)
    requires TableOk(table) && ArgsOk(args)
    requires Onwards(flags, table, args, s, m) && Onwards(flags, table, args, m, s')
    ensures Onwards(flags, table, args, s, s') && m.scanned <= s'.scanned
  {
    hide Classify;
  }

  /** A call goes on: it looks at more arguments, or takes letters of a clump. What it passes over is data. */
  lemma {:induction false} StepProgress(flags: Flags, table: seq<SOption>, args: seq<string>, s: State)
    requires TableOk(table) && ArgsOk(args) && s.scanned <= |args|
    ensures
      var (more, s', r) := Step(flags, table, args, s);
      && Onwards(flags, table, args, s, s')
      && (more && s'.scanned == s.scanned ==> |s'.clump| < |s.clump|)
      && (!more ==> s'.scanned == |args| && s'.clump == "")
    decreases |args| - s.scanned
  {
    hide Classify, ClumpOne, TakeOption, Onwards;
    var (found, r, rest) := if s.clump == "" then (false, NOTHING, "") else ClumpNext(flags, table, s.clump);
    var s' := Step(flags, table, args, s).1;
    if found {
      Still(flags, table, args, s, s');
    } else {
      var s0 := s.(clump := "");
      assert Step(flags, table, args, s) == Scan(flags, table, args, s0) by {
        if s.clump == "" { assert s0 == s; }
      }
      var j := NextIndex(flags, table, args, s.scanned);
      NextIndexMeans(flags, table, args, s.scanned);
      if j == |args| {
        AllData(flags, table, args, s, s');
      } else {
        EmptySpan(j);
        match Classify(flags, table, args[j]) {
          case Clump =>
            var m := State(s.taken + {j}, j + 1, args[j][1..]);
            OnwardsTaking(flags, table, args, s, m, j);
            StepProgress(flags, table, args, m);
            OnwardsTwice(flags, table, args, s, m, s');
          case Known(idx, value) =>
            Taken(flags, table, args, s0, j, table[idx], value);
            OnwardsTaking(flags, table, args, s, s', j);
          case Unknown(code) =>
            OnwardsTaking(flags, table, args, s, s', j);
        }
      }
    }
  }

  lemma Still(flags: Flags, table: seq<SOption>, args: seq<string>, s: State, s': State)
    requires TableOk(table) && ArgsOk(args) && s.scanned == s'.scanned <= |args| && s.taken == s'.taken
    ensures Onwards(flags, table, args, s, s')
  {
  }

  lemma AllData(flags: Flags, table: seq<SOption>, args: seq<string>, s: State, s': State)
    requires TableOk(table) && ArgsOk(args) && s.scanned <= s'.scanned == |args| && s.taken == s'.taken
    requires forall i | s.scanned <= i < |args| :: Classify(flags, table, args[i]).Data?
    ensures Onwards(flags, table, args, s, s')
  {
  }

  lemma Taken(flags: Flags, table: seq<SOption>, args: seq<string>, s: State, j: nat, o: SOption, value: Option<string>)
    requires j < |args|
    ensures
      var (s', r) := TakeOption(flags, table, args, s, j, o, value);
      && s'.clump == "" && j + 1 <= s'.scanned <= |args| && s'.taken == s.taken + Span(j, s'.scanned)
  {
    EmptySpan(j);
    SpanGrows(j, j + 1);
  }

  /** Once there is nothing more there never is. */
  lemma NothingMore(flags: Flags, table: seq<SOption>, args: seq<string>, s: State)
    requires TableOk(table) && ArgsOk(args) && s.scanned <= |args|
    ensures
      var (more, s', r) := Step(flags, table, args, s);
      !more ==> s'.scanned <= |args| && Step(flags, table, args, s') == (false, s', NOTHING)
  {
    StepProgress(flags, table, args, s);
  }

  /** Letter `i` of a clump is an option of the table. */
  ghost predicate LetterFound(table: seq<SOption>, clump: string, i: nat)
    requires i < |clump|
  {
    Lookup(EXACT_ONLY, table, ['-', clump[i]]) >= 0
  }

  /** What is left of a clump yields something just when one of its letters is an option, or errors are
      reported. */
  lemma {:induction false} ClumpFinds(flags: Flags, table: seq<SOption>, clump: string)
    requires clump != ""
    ensures ClumpNext(flags, table, clump).0 <==>
      !flags.noErr || exists i :: 0 <= i < |clump| && LetterFound(table, clump, i)
    decreases |clump|
  {
    hide Lookup;
    var rest := clump[1..];
    assert LetterFound(table, clump, 0) <==> ClumpOne(table, clump).0;
    if flags.noErr && !LetterFound(table, clump, 0) {
      assert forall i | 0 < i < |clump| :: LetterFound(table, clump, i) == LetterFound(table, rest, i - 1);
      if rest == "" {
        assert !ClumpNext(flags, table, clump).0;
      } else {
        ClumpFinds(flags, table, rest);
        if exists i :: 0 <= i < |rest| && LetterFound(table, rest, i) {
          var i :| 0 <= i < |rest| && LetterFound(table, rest, i);
          assert LetterFound(table, clump, i + 1);
        }
      }
    }
  }

  /** `Stop` leaves the letters of a clump alone. After it the next call finds something just when letters
      are still to come and errors are reported or one of them is an option. The documentation says it
      finds nothing. */
  lemma AfterStop(flags: Flags, table: seq<SOption>, args: seq<string>, s: State)
    requires TableOk(table) && ArgsOk(args) && s.scanned == |args|
    ensures Step(flags, table, args, s).0 <==>
      s.clump != "" && (!flags.noErr || exists i :: 0 <= i < |s.clump| && LetterFound(table, s.clump, i))
  {
    hide Lookup, LetterFound, ClumpNext;
    if s.clump != "" {
      ClumpFinds(flags, table, s.clump);
    }
  }

  /** A program that stops after the first letter of `-ab` is given the second one all the same, whether
      errors are suppressed or not. */
  method StopIsNotTheEnd(noErr: bool) returns (more: bool)
    ensures more
  {
    var table := [SOption(1, "-a", NoArg), SOption(2, "-b", NoArg)];
    var flags := Flags(false, false, true, noErr, false, false, false, false);
    var args := ["program", "-ab"];
    assert TableOk(table) && ArgsOk(args);
    var p := new SimpleOpt(args, table, flags, false);
    ClumpOfTwo(table, flags, args);
    more := p.Next();
    p.Stop();
    AfterStop(flags, table, args, p.S());
    assert LetterFound(table, p.clump, 0);
    more := p.Next();
  }

  lemma ClumpOfTwo(table: seq<SOption>, flags: Flags, args: seq<string>)
    requires table == [SOption(1, "-a", NoArg), SOption(2, "-b", NoArg)] && args == ["program", "-ab"]
    requires flags == Flags(false, false, true, flags.noErr, false, false, false, false)
    requires TableOk(table) && ArgsOk(args)
    ensures Step(flags, table, args, State({0}, 1, ""))
      == (true, State({0, 1}, 2, "b"), Report(1, SO_SUCCESS, Some("-a"), None))
    ensures LetterFound(table, "b", 0)
  {
    assert "-ab"[1..] == "ab" && "ab"[1..] == "b" && "-ab"[..3] == "-ab" && "-ab"[1..][1..][1..] == "";
    LetterAt(table, 'a', 0);
    LetterAt(table, 'b', 1);
    NotWhole(table, flags);
    var s := State({0}, 1, "");
    assert Equals("-ab") == 3;
    assert Classify(flags, table, "-ab") == Clump;
    assert NextIndex(flags, table, args, 1) == 1;
    assert {0} + {1} == {0, 1};
    assert ClumpNext(flags, table, "ab") == (true, Report(1, SO_SUCCESS, Some("-a"), None), "b");
    assert Step(flags, table, args, State({0, 1}, 2, "ab"))
      == (true, State({0, 1}, 2, "b"), Report(1, SO_SUCCESS, Some("-a"), None));
    assert Scan(flags, table, args, s) == Step(flags, table, args, State({0, 1}, 2, "ab"));
  }

  /** The letter of an entry is found. */
  lemma LetterAt(table: seq<SOption>, c: char, n: nat)
    requires table == [SOption(1, "-a", NoArg), SOption(2, "-b", NoArg)]
    requires (c == 'a' && n == 0) || (c == 'b' && n == 1)
    ensures Lookup(EXACT_ONLY, table, ['-', c]) == n
  {
    var arg := ['-', c];
    assert Hyphens("-a") == 1 && Hyphens("-b") == 1 && Hyphens(arg) == 1;
    assert Name("-a") == "a" && Name("-b") == "b" && Name(arg) == [c];
    assert Exact(EXACT_ONLY, table[n].text, arg);
    assert n == 1 ==> !Exact(EXACT_ONLY, table[0].text, arg);
    assert ExactFrom(EXACT_ONLY, table, arg, n) == n;
  }

  /** The argument as a whole is no entry and abbreviates none. */
  lemma NotWhole(table: seq<SOption>, flags: Flags)
    requires table == [SOption(1, "-a", NoArg), SOption(2, "-b", NoArg)]
    ensures Lookup(flags, table, "-ab") < 0
  {
    assert Hyphens("-a") == 1 && Hyphens("-b") == 1 && Hyphens("-ab") == 1;
    assert Name("-a") == "a" && Name("-b") == "b" && Name("-ab") == "ab";
    forall i | 0 <= i < |table|
      ensures !Exact(flags, table[i].text, "-ab") && !Partial(flags, table[i].text, "-ab")
    {
    }
    assert ExactFrom(flags, table, "-ab", 1) == -1;
    assert Abbreviated(flags, table, "-ab", |table|) == {};
  }

  /** What the calls report, one after the other. */
  ghost function AllReports(flags: Flags, table: seq<SOption>, args: seq<string>, s: State): seq<Report>
    requires TableOk(table) && ArgsOk(args) && s.scanned <= |args|
    decreases |args| - s.scanned, |s.clump|
  {
    StepProgress(flags, table, args, s);
    var (more, s', r) := Step(flags, table, args, s);
    if more then [r] + AllReports(flags, table, args, s') else []
  }

  /** Every argument taken since is an option or has been handed over. */
  ghost predicate Accounted(flags: Flags, table: seq<SOption>, args: seq<string>, before: set<nat>, after: set<nat>,
                            reports: seq<Report>)
  {
    forall x | x in after && x !in before ::
      x < |args| && (!IsData(flags, table, args[x]) || HandedOver(reports, args[x]))
  }

  lemma NothingTaken(flags: Flags, table: seq<SOption>, args: seq<string>, taken: set<nat>)
    ensures Accounted(flags, table, args, taken, taken, [])
  {
  }

  lemma TakenAccounted(flags: Flags, table: seq<SOption>, args: seq<string>, before: set<nat>, s: State,
                       reports: seq<Report>)
    requires TableOk(table) && ArgsOk(args) && s.scanned <= |args|
    requires Accounted(flags, table, args, before, s.taken, reports)
    ensures
      var (more, s', r) := Step(flags, table, args, s);
      Accounted(flags, table, args, before, s'.taken, reports + if more then [r] else [])
  {
    hide Step, IsData;
    StepHandsOver(flags, table, args, s);
    var (more, s', r) := Step(flags, table, args, s);
    var all := reports + if more then [r] else [];
    forall x | x in s'.taken && x !in before
      ensures x < |args| && (!IsData(flags, table, args[x]) || HandedOver(all, args[x]))
    {
      if x in s.taken {
        if HandedOver(reports, args[x]) {
          var k :| 0 <= k < |reports| && reports[k].arg == Some(args[x]);
          assert all[k] == reports[k];
        }
      } else if more && r.arg == Some(args[x]) {
        assert all[|reports|] == r;
      }
    }
  }

  /** Calls until there is nothing more, as the programs do. */
  method AllOptions(p: SimpleOpt) returns (reports: seq<Report>)
    requires p.Valid()
    modifies p, p.argv, p.text
    ensures p.Valid() && p.scanned == |p.args|
    ensures reports == AllReports(p.flags, p.table, p.args, old(p.S()))
    ensures Onwards(p.flags, p.table, p.args, old(p.S()), p.S())
    ensures Accounted(p.flags, p.table, p.args, old(p.taken), p.taken, reports)
  {
    hide SimpleOpt.Placed, SimpleOpt.Unread, Step, Onwards, Classify, TableOk, ArgsOk, CString, Arrangement, AllReports,
      Accounted;
    ghost var s := p.S();
    reports := [];
    NothingTaken(p.flags, p.table, p.args, s.taken);
    TakenAccounted(p.flags, p.table, p.args, s.taken, s, []);
    MoreReports(p.flags, p.table, p.args, s);
    Still(p.flags, p.table, p.args, s, s);
    StepProgress(p.flags, p.table, p.args, p.S());
    var more := p.Next();
    while more
      invariant p.Valid() && Onwards(p.flags, p.table, p.args, s, p.S())
      invariant !more ==> p.scanned == |p.args|
      invariant Accounted(p.flags, p.table, p.args, s.taken, p.taken, reports + if more then [p.R()] else [])
      invariant AllReports(p.flags, p.table, p.args, s)
             == reports + if more then [p.R()] + AllReports(p.flags, p.table, p.args, p.S()) else []
      decreases |p.args| - p.scanned, |p.clump|, more
    {
      reports := reports + [p.R()];
      ghost var m := p.S();
      StepProgress(p.flags, p.table, p.args, m);
      MoreReports(p.flags, p.table, p.args, m);
      TakenAccounted(p.flags, p.table, p.args, s.taken, m, reports);
      more := p.Next();
      OnwardsTwice(p.flags, p.table, p.args, s, m, p.S());
    }
  }

  /** The whole command line. It ends up permuted: the arguments taken, and behind them, as files, those that
      are no option, both in the order they had. */
  method ParseAll(p: SimpleOpt) returns (reports: seq<Report>, files: seq<string>)
    requires p.Valid()
    modifies p, p.argv, p.text
    ensures p.Valid() && p.scanned == |p.args|
    ensures reports == AllReports(p.flags, p.table, p.args, old(p.S()))
    ensures Accounted(p.flags, p.table, p.args, old(p.taken), p.taken, reports)
    ensures p.argv[..] == Kept(p.taken, |p.args|) + Left(p.taken, |p.args|)
    ensures multiset(p.argv[..]) == multiset(Range(0, |p.args|))
    ensures |files| == |Left(p.taken, |p.args|)|
    ensures forall i | 0 <= i < |files| ::
      var x := Left(p.taken, |p.args|)[i];
      x < |p.args| && files[i] == p.args[x] && (old(p.scanned) <= x ==> Classify(p.flags, p.table, files[i]).Data?)
  {
    hide SimpleOpt.Placed, SimpleOpt.Unread, Step, Onwards, Classify, TableOk, ArgsOk, CString, Arrangement, AllReports,
      Accounted;
    ghost var s := p.S();
    reports := AllOptions(p);
    files := p.Files();
    IsPermutation(p.taken, p.scanned, |p.args|);
    Finished(p, s);
  }

  lemma MoreReports(flags: Flags, table: seq<SOption>, args: seq<string>, s: State)
    requires TableOk(table) && ArgsOk(args) && s.scanned <= |args|
    ensures
      var (more, s', r) := Step(flags, table, args, s);
      && s'.scanned <= |args|
      && AllReports(flags, table, args, s) == if more then [r] + AllReports(flags, table, args, s') else []
  {
    hide Step, Classify;
    StepProgress(flags, table, args, s);
  }

  lemma Finished(p: SimpleOpt, s: State)
    requires p.Valid() && p.scanned == |p.args| && Onwards(p.flags, p.table, p.args, s, p.S())
    ensures p.argv[..] == Kept(p.taken, |p.args|) + Left(p.taken, |p.args|) == Arrangement(p.taken, |p.args|, |p.args|)
    ensures forall x | x in Left(p.taken, |p.args|) ::
      x < |p.args| && (s.scanned <= x ==> Classify(p.flags, p.table, p.args[x]).Data?)
  {
    hide Classify;
    forall x | x in Left(p.taken, |p.args|)
      ensures x < |p.args| && (s.scanned <= x ==> Classify(p.flags, p.table, p.args[x]).Data?)
    {
      ListsHold(p.taken, |p.args|, x);
    }
  }
}
