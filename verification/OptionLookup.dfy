/** Looking up a command-line argument in the table of options. */
module OptionLookup {

  datatype ArgType = NoArg | ReqSep | ReqCmb | Opt | Multi

  datatype SOption = SOption(id: nat, text: string, argType: ArgType)

  datatype Flags = Flags(exact: bool, shortArg: bool, clump: bool, noErr: bool, pedantic: bool,
                         icaseShort: bool, icaseLong: bool, icaseWord: bool)

  /** What the clumped form is looked up with. */
  const EXACT_ONLY := Flags(true, false, false, false, false, false, false, false)

  const SO_SUCCESS := 0
  const SO_OPT_INVALID := -1
  const SO_OPT_MULTIPLE := -2
  const SO_ARG_INVALID := -3
  const SO_ARG_INVALID_TYPE := -4
  const SO_ARG_MISSING := -5
  const SO_ARG_INVALID_DATA := -6

  /** A string that ends at its first NUL. */
  predicate CString(s: string) { forall i | 0 <= i < |s| :: s[i] != '\0' }

  /** Entries are strings other than a lone hyphen. */
  predicate TableOk(table: seq<SOption>) {
    forall i | 0 <= i < |table| :: CString(table[i].text) && table[i].text != "-"
  }

  // ----- what a match is -----

  function Hyphens(s: string): (n: nat)
    ensures n <= |s| && (forall i | 0 <= i < n :: s[i] == '-') && (n < |s| ==> s[n] != '-')
  {
    if s != "" && s[0] == '-' then 1 + Hyphens(s[1..]) else 0
  }

  lemma {:induction false} HyphensAre(s: string, n: nat)
    requires n <= |s| && forall i | 0 <= i < n :: s[i] == '-'
    ensures Hyphens(s) >= n && (Hyphens(s) == n <==> At(s, n) != '-')
  {
    if n > 0 {
      assert forall i | 0 <= i < n - 1 :: s[1..][i] == s[i + 1];
      HyphensAre(s[1..], n - 1);
    }
  }

  /** The character at a place, or the NUL that ends the string. */
  function At(s: string, i: nat): char { if i < |s| then s[i] else '\0' }

  function Name(s: string): string { s[Hyphens(s)..] }

  function Lower(c: char): char {
    if 'A' <= c <= 'Z' then ((c as int) + 32) as char else c
  }

  /** Which flag decides about the case of an entry's letters. */
  function IgnoresCase(flags: Flags, source: string): bool {
    if source == "" || source[0] != '-' then flags.icaseWord
    else if |source| == 2 && source[1] != '-' then flags.icaseShort
    else flags.icaseLong
  }

  predicate SameChar(a: char, b: char, icase: bool) {
    if icase then Lower(a) == Lower(b) else a == b
  }

  predicate Begins(prefix: string, s: string, icase: bool) {
    |prefix| <= |s| && forall i | 0 <= i < |prefix| :: SameChar(s[i], prefix[i], icase)
  }

  /** The argument is the entry: as many hyphens, and the same name. */
  predicate Exact(flags: Flags, source: string, arg: string) {
    Hyphens(source) == Hyphens(arg) && |source| == |arg| && Begins(Name(arg), Name(source), IgnoresCase(flags, source))
  }

  /** The argument abbreviates the entry: as many hyphens, and the beginning of a longer name. */
  predicate Partial(flags: Flags, source: string, arg: string) {
    && Hyphens(source) == Hyphens(arg) && 0 < |Name(arg)| < |Name(source)|
    && Begins(Name(arg), Name(source), IgnoresCase(flags, source))
  }

  /** When case counts, the argument is the entry just when they are the same string, and abbreviates it just
      when it is the beginning of it and has a letter of its name. */
  lemma WhenCaseCounts(flags: Flags, source: string, arg: string)
    requires !IgnoresCase(flags, source)
    ensures Exact(flags, source, arg) <==> source == arg
    ensures Partial(flags, source, arg) <==> arg < source && Hyphens(source) < |arg|
  {
    var h := Hyphens(source);
    if h == Hyphens(arg) {
      assert source == source[..h] + Name(source) && arg == arg[..h] + Name(arg);
      assert source[..h] == arg[..h];
      if Begins(Name(arg), Name(source), false) {
        assert Name(arg) == Name(source)[..|arg| - h];
      }
    }
    if arg <= source && h < |arg| {
      HyphensAre(arg, h);
      assert forall i | 0 <= i < |arg| - h :: Name(source)[i] == source[h + i] == arg[h + i] == Name(arg)[i];
    }
  }

  /** When it does not, the letters from A to Z are what they are in the other case. */
  lemma WhenCaseIsIgnored(a: char, b: char)
    ensures SameChar(a, b, true) <==>
      || a == b
      || ('A' <= a <= 'Z' && b as int == a as int + ('a' as int - 'A' as int))
      || ('A' <= b <= 'Z' && a as int == b as int + ('a' as int - 'A' as int))
  {
  }

  /** An entry with one hyphen and one letter is short, one without hyphens is a word, any other is long. */
  lemma WhichCase(flags: Flags, source: string)
    ensures IgnoresCase(flags, source)
         == if Hyphens(source) == 0 then flags.icaseWord
            else if Hyphens(source) == 1 && |Name(source)| == 1 then flags.icaseShort
            else flags.icaseLong
  {
    if source != "" && source[0] == '-' {
      assert Hyphens(source) == 1 + Hyphens(source[1..]);
    }
  }

  // ----- the two loops -----

  /** -1 if the argument is the entry, the number of letters if it abbreviates it, 0 otherwise. So all
      abbreviations score the same for one argument. */
  method CalcMatch(flags: Flags, source: string, test: string) returns (r: int)
    requires CString(source) && CString(test) && source != "-"
    ensures r == if Exact(flags, source, test) then -1 else if Partial(flags, source, test) then |Name(test)| else 0
    ensures r > 0 <==> Partial(flags, source, test)
  {
    var icase := IgnoresCase(flags, source);
    var h := 0;
    while At(source, h) == '-' && At(test, h) == '-'
      invariant h <= |source| && h <= |test|
      invariant forall i | 0 <= i < h :: source[i] == '-' && test[i] == '-'
      decreases |source| - h
    {
      h := h + 1;
    }
    HyphensAre(source, h);
    HyphensAre(test, h);
    if At(source, h) == '-' || At(test, h) == '-' { return 0; }
    var len := 0;
    while At(source, h + len) != '\0' && SameChar(At(source, h + len), At(test, h + len), icase)
      invariant h + len <= |source| && h + len <= |test|
      invariant forall i | 0 <= i < len :: SameChar(Name(source)[i], Name(test)[i], icase)
      decreases |source| - len
    {
      len := len + 1;
    }
    if h + len == |source| {
      return if h + len == |test| then -1 else 0;
    }
    if h + len < |test| {
      assert !SameChar(Name(source)[len], Name(test)[len], icase);
      return 0;
    }
    r := len;
  }

  /** The entries that `arg` abbreviates. */
  ghost function Abbreviated(flags: Flags, table: seq<SOption>, arg: string, n: nat): set<nat>
    requires n <= |table|
  {
    set i: nat | i < n && Partial(flags, table[i].text, arg)
  }

  ghost predicate FirstExact(flags: Flags, table: seq<SOption>, arg: string, n: nat) {
    n < |table| && Exact(flags, table[n].text, arg) && forall i | 0 <= i < n :: !Exact(flags, table[i].text, arg)
  }

  ghost predicate NoExact(flags: Flags, table: seq<SOption>, arg: string, n: nat)
    requires n <= |table|
  {
    forall i | 0 <= i < n :: !Exact(flags, table[i].text, arg)
  }

  /** The first entry the argument is; else, unless only exact matches are wanted, the one entry it
      abbreviates; or why there is none. */
  ghost predicate Found(flags: Flags, table: seq<SOption>, arg: string, r: int) {
    if r >= 0 && FirstExact(flags, table, arg, r) then true
    else
      && NoExact(flags, table, arg, |table|)
      && var some := Abbreviated(flags, table, arg, |table|);
      if flags.exact || some == {} then r == SO_OPT_INVALID
      else if |some| == 1 then r >= 0 && some == {r}
      else r == SO_OPT_MULTIPLE
  }

  ghost function ExactFrom(flags: Flags, table: seq<SOption>, arg: string, n: nat): int
    requires n <= |table|
    decreases |table| - n
  {
    if n == |table| then -1 else if Exact(flags, table[n].text, arg) then n else ExactFrom(flags, table, arg, n + 1)
  }

  ghost function Lookup(flags: Flags, table: seq<SOption>, arg: string): int {
    var some := Abbreviated(flags, table, arg, |table|);
    if ExactFrom(flags, table, arg, 0) >= 0 then ExactFrom(flags, table, arg, 0)
    else if flags.exact || some == {} then SO_OPT_INVALID
    else if |some| == 1 then var i :| i in some; i
    else SO_OPT_MULTIPLE
  }

  lemma {:induction false} ExactFound(flags: Flags, table: seq<SOption>, arg: string, n: nat)
    requires n <= |table| && NoExact(flags, table, arg, n)
    ensures
      var r := ExactFrom(flags, table, arg, n);
      if r >= 0 then FirstExact(flags, table, arg, r) else r == -1 && NoExact(flags, table, arg, |table|)
    decreases |table| - n
  {
    hide Exact;
    if n < |table| && !Exact(flags, table[n].text, arg) {
      ExactFound(flags, table, arg, n + 1);
    }
  }

  /** The lookup is the one answer that meets its description. */
  lemma LookupMeans(flags: Flags, table: seq<SOption>, arg: string, r: int)
    ensures Found(flags, table, arg, r) <==> r == Lookup(flags, table, arg)
  {
    hide Exact, Partial;
    ExactFound(flags, table, arg, 0);
    var some := Abbreviated(flags, table, arg, |table|);
    if |some| == 1 {
      var i :| i in some;
      assert some == {i} by {
        assert |some - {i}| == 0;
      }
    }
  }

  lemma NoneAbbreviated(flags: Flags, table: seq<SOption>, arg: string)
    ensures Abbreviated(flags, table, arg, 0) == {}
  {
  }

  lemma NextAbbreviated(flags: Flags, table: seq<SOption>, arg: string, n: nat)
    requires n < |table|
    ensures n !in Abbreviated(flags, table, arg, n)
    ensures Abbreviated(flags, table, arg, n + 1)
         == Abbreviated(flags, table, arg, n) + if Partial(flags, table[n].text, arg) then {n} else {}
  {
    hide Partial;
  }

  method LookupOption(flags: Flags, table: seq<SOption>, arg: string) returns (r: int)
    requires TableOk(table) && CString(arg)
    ensures r == Lookup(flags, table, arg) && Found(flags, table, arg, r) && -2 <= r < |table|
  {
    hide Exact, Partial, Lookup, Name, Abbreviated;
    NoneAbbreviated(flags, table, arg);
    var best, bestLen, lastLen := -1, 0, 0;
    ghost var some: set<nat> := {};
    for n := 0 to |table|
      invariant NoExact(flags, table, arg, n)
      invariant some == Abbreviated(flags, table, arg, n)
      invariant if some == {} then best == -1 && bestLen == 0 && lastLen == 0
                else 0 <= best < n && best in some && bestLen == |Name(arg)| > 0
      invariant |some| == 1 ==> some == {best} && lastLen == 0
      invariant |some| > 1 ==> lastLen == bestLen
    {
      var len := CalcMatch(flags, table[n].text, arg);
      if len == -1 {
        LookupMeans(flags, table, arg, n);
        return n;
      }
      NextAbbreviated(flags, table, arg, n);
      if len > 0 && len >= bestLen {
        lastLen := bestLen;
        bestLen := len;
        best := n;
        some := some + {n};
      }
    }
    r := if flags.exact || best == -1 then SO_OPT_INVALID else if bestLen > lastLen then best else SO_OPT_MULTIPLE;
    LookupMeans(flags, table, arg, r);
  }
}
