/**
 src/cpuset.rs, codec layer: the run-length printer and the tolerant range parser. A cpuset
 directory is named by the printed form of its CPU set, so the two have to be inverse.
 */
module Ranges {
  import opened Strings
  import opened Words
  import opened CpuSets

  datatype Run = Run(lo: nat, hi: nat)

  // ----- Printed form -----

  function PrintRun(r: Run): string {
    if r.lo == r.hi then Dec(r.lo) else Dec(r.lo) + "-" + Dec(r.hi)
  }

  function PrintRuns(rs: seq<Run>): string {
    if rs == [] then ""
    else if |rs| == 1 then PrintRun(rs[0])
    else PrintRuns(rs[..|rs| - 1]) + "," + PrintRun(rs[|rs| - 1])
  }

  /** Adds `cpu` at the end: to the last run if it continues it, else as a new run. */
  function Extended(rs: seq<Run>, cpu: nat): seq<Run> {
    if rs != [] && rs[|rs| - 1].hi + 1 == cpu
    then rs[..|rs| - 1] + [Run(rs[|rs| - 1].lo, cpu)]
    else rs + [Run(cpu, cpu)]
  }

  /** The runs of the members of `s` below `n`. */
  function RunsBelow(s: set<nat>, n: nat): seq<Run> {
    if n == 0 then []
    else if n - 1 in s then Extended(RunsBelow(s, n - 1), n - 1)
    else RunsBelow(s, n - 1)
  }

  /** `CpuSet::to_range_string`, as a function of the set. */
  function RangeString(s: set<nat>): string {
    PrintRuns(RunsBelow(s, CPU_SETSIZE))
  }

  // ----- Meaning of a list of runs -----

  ghost predicate InRuns(rs: seq<Run>, cpu: nat) {
    exists i :: 0 <= i < |rs| && rs[i].lo <= cpu <= rs[i].hi
  }

  /** Ascending, maximal runs: never empty, overlapping or adjacent. */
  ghost predicate Canonical(rs: seq<Run>) {
    && (forall i :: 0 <= i < |rs| ==> rs[i].lo <= rs[i].hi)
    && (forall i, j :: 0 <= i < j < |rs| ==> rs[i].hi + 1 < rs[j].lo)
  }

  ghost predicate Covers(rs: seq<Run>, s: set<nat>) {
    forall cpu: nat :: InRuns(rs, cpu) <==> cpu in s
  }

  lemma InRunsLast(rs: seq<Run>, r: Run, cpu: nat)
    ensures InRuns(rs + [r], cpu) <==> InRuns(rs, cpu) || r.lo <= cpu <= r.hi
  {
    var all := rs + [r];
    if InRuns(rs, cpu) {
      var i :| 0 <= i < |rs| && rs[i].lo <= cpu <= rs[i].hi;
      assert all[i] == rs[i];
    }
    if r.lo <= cpu <= r.hi {
      assert all[|rs|] == r;
    }
  }

  ghost predicate EndsBelow(rs: seq<Run>, n: nat) {
    rs != [] ==> rs[|rs| - 1].hi < n
  }

  lemma ExtendedCanonical(rs: seq<Run>, cpu: nat)
    requires Canonical(rs) && EndsBelow(rs, cpu)
    ensures Canonical(Extended(rs, cpu)) && EndsBelow(Extended(rs, cpu), cpu + 1)
  {
    var rs' := Extended(rs, cpu);
    forall i, j | 0 <= i < j < |rs'| ensures rs'[i].hi + 1 < rs'[j].lo {
      if j < |rs| {
        assert rs[i].hi + 1 < rs[j].lo;
      } else if i < |rs| - 1 {
        assert rs[i].hi + 1 < rs[|rs| - 1].lo;
      }
    }
  }

  lemma ExtendedCovers(rs: seq<Run>, cpu: nat, c: nat)
    requires Canonical(rs) && EndsBelow(rs, cpu)
    ensures InRuns(Extended(rs, cpu), c) <==> c == cpu || InRuns(rs, c)
  {
    if rs != [] && rs[|rs| - 1].hi + 1 == cpu {
      var init, last := rs[..|rs| - 1], rs[|rs| - 1];
      assert rs == init + [last];
      InRunsLast(init, last, c);
      InRunsLast(init, Run(last.lo, cpu), c);
    } else {
      InRunsLast(rs, Run(cpu, cpu), c);
    }
  }

  lemma {:induction false} RunsBelowShape(s: set<nat>, n: nat)
    ensures Canonical(RunsBelow(s, n)) && EndsBelow(RunsBelow(s, n), n)
  {
    if n > 0 {
      RunsBelowShape(s, n - 1);
      ExtendedCanonical(RunsBelow(s, n - 1), n - 1);
    }
  }

  lemma {:induction false} RunsBelowCover(s: set<nat>, n: nat, cpu: nat)
    ensures InRuns(RunsBelow(s, n), cpu) <==> cpu < n && cpu in s
  {
    if n > 0 {
      RunsBelowCover(s, n - 1, cpu);
      RunsBelowShape(s, n - 1);
      ExtendedCovers(RunsBelow(s, n - 1), n - 1, cpu);
    }
  }

  lemma RunsBelowMeaning(s: set<nat>, n: nat)
    ensures Canonical(RunsBelow(s, n)) && EndsBelow(RunsBelow(s, n), n)
    ensures forall cpu: nat :: InRuns(RunsBelow(s, n), cpu) <==> cpu < n && cpu in s
  {
    RunsBelowShape(s, n);
    forall cpu: nat { RunsBelowCover(s, n, cpu); }
  }

  /** A stretch without members adds no runs. */
  lemma {:induction false} RunsSkip(s: set<nat>, low: nat, high: nat)
    requires low <= high
    requires forall cpu :: low <= cpu < high ==> cpu !in s
    ensures RunsBelow(s, high) == RunsBelow(s, low)
    decreases high
  {
    if low < high { RunsSkip(s, low, high - 1); }
  }

  lemma InLastRun(rs: seq<Run>, cpu: nat)
    requires rs != []
    ensures rs[|rs| - 1].lo <= cpu <= rs[|rs| - 1].hi ==> InRuns(rs, cpu)
  {
  }

  lemma GapBeforeLast(rs: seq<Run>, cpu: nat)
    requires Canonical(rs) && rs != [] && cpu + 1 == rs[|rs| - 1].lo
    ensures !InRuns(rs, cpu)
  {
  }

  lemma SameTop(a: seq<Run>, b: seq<Run>)
    requires Canonical(a) && Canonical(b) && a != []
    requires forall cpu: nat :: InRuns(a, cpu) <==> InRuns(b, cpu)
    ensures b != [] && b[|b| - 1].hi >= a[|a| - 1].hi
    ensures b[|b| - 1].hi == a[|a| - 1].hi ==> b[|b| - 1].lo <= a[|a| - 1].lo
  {
    InLastRun(a, a[|a| - 1].hi);
    assert InRuns(b, a[|a| - 1].hi);
    if b[|b| - 1].lo > 0 {
      var gap: nat := b[|b| - 1].lo - 1;
      GapBeforeLast(b, gap);
      InLastRun(a, gap);
    }
  }

  /** Canonical runs are determined by the CPUs they cover. */
  lemma {:induction false} CanonicalUnique(a: seq<Run>, b: seq<Run>)
    requires Canonical(a) && Canonical(b)
    requires forall cpu: nat :: InRuns(a, cpu) <==> InRuns(b, cpu)
    ensures a == b
  {
    if a == [] {
      if b != [] { SameTop(b, a); }
    } else {
      SameTop(a, b);
      SameTop(b, a);
      var a', b' := a[..|a| - 1], b[..|b| - 1];
      var last := a[|a| - 1];
      assert a == a' + [last] && b == b' + [last];
      forall cpu: nat
        ensures InRuns(a', cpu) <==> InRuns(b', cpu)
      {
        InRunsLast(a', last, cpu);
        InRunsLast(b', last, cpu);
        assert InRuns(a, cpu) <==> InRuns(b, cpu);
        assert InRuns(a', cpu) ==> cpu < last.lo;
        assert InRuns(b', cpu) ==> cpu < last.lo;
      }
      CanonicalUnique(a', b');
    }
  }

  /** The printed runs are the one canonical list that covers the set. */
  lemma PrintedRunsAreCanonical(s: set<nat>, rs: seq<Run>)
    requires InRange(s)
    ensures Canonical(rs) && Covers(rs, s) <==> rs == RunsBelow(s, CPU_SETSIZE)
  {
    RunsBelowMeaning(s, CPU_SETSIZE);
    if Canonical(rs) && Covers(rs, s) {
      CanonicalUnique(rs, RunsBelow(s, CPU_SETSIZE));
    }
  }

  // ----- Parsed form -----

  /** The bounds one comma-separated part denotes, in order; None if the part is skipped. */
  function PartBounds(raw: string): Option<(nat, nat)> {
    var part := Trim(raw);
    if part == "" then None
    else match Find(part, '-')
         case Some(pos) =>
           var a := ParseUsize(part[..pos]).GetOr(USIZE_MAX);
           var b := ParseUsize(part[pos + 1..]).GetOr(a);
           if a == USIZE_MAX then None
           else if a > b then Some((b, a)) else Some((a, b))
         case None =>
           var a := ParseUsize(part).GetOr(USIZE_MAX);
           if a == USIZE_MAX then None else Some((a, a))
  }

  predicate InPart(raw: string, cpu: nat) {
    match PartBounds(raw)
    case None => false
    case Some((lo, hi)) => lo <= cpu <= hi
  }

  predicate InSomePart(parts: seq<string>, cpu: nat) {
    exists k | 0 <= k < |parts| :: InPart(parts[k], cpu)
  }

  /** The CPUs a range string denotes. */
  function Parse(spec: string): (s: set<nat>)
    ensures InRange(s)
  {
    set cpu: nat | cpu < CPU_SETSIZE && InSomePart(Split(spec, ','), cpu)
  }

  // ----- Laws of the parser -----

  lemma InSomePartAppend(a: seq<string>, b: seq<string>, cpu: nat)
    ensures InSomePart(a + b, cpu) <==> InSomePart(a, cpu) || InSomePart(b, cpu)
  {
    var all := a + b;
    if InSomePart(a, cpu) {
      var k :| 0 <= k < |a| && InPart(a[k], cpu);
      assert all[k] == a[k];
    }
    if InSomePart(b, cpu) {
      var k :| 0 <= k < |b| && InPart(b[k], cpu);
      assert all[|a| + k] == b[k];
    }
  }

  /** Joining two specs with a comma denotes the union, whatever the two strings are. */
  lemma ParseJoin(a: string, b: string)
    ensures Parse(a + "," + b) == Parse(a) + Parse(b)
  {
    SplitAppend(a, b, ',');
    assert a + "," + b == a + [','] + b;
    forall cpu: nat {
      InSomePartAppend(Split(a, ','), Split(b, ','), cpu);
    }
  }

  lemma ParseEmpty()
    ensures Parse("") == {}
  {
    assert Trim("") == "";
  }

  // ----- Round trip -----

  lemma NoCommaOrDash(r: Run)
    ensures ',' !in PrintRun(r)
    ensures '-' !in Dec(r.lo)
    ensures '-' in PrintRun(r) <==> r.lo != r.hi
  {
    assert forall c :: c in Dec(r.lo) ==> IsDigit(c);
    assert forall c :: c in Dec(r.hi) ==> IsDigit(c);
  }

  lemma TrimPrintedRun(r: Run)
    ensures Trim(PrintRun(r)) == PrintRun(r)
  {
    var p, a, b := PrintRun(r), Dec(r.lo), Dec(r.hi);
    assert p[0] == a[0] && IsDigit(a[0]);
    assert p[|p| - 1] == b[|b| - 1] && IsDigit(b[|b| - 1]);
    TrimPlainEnds(p);
  }

  lemma DashOfPrintedRun(r: Run)
    requires r.lo != r.hi
    ensures Find(PrintRun(r), '-') == Some(|Dec(r.lo)|)
    ensures PrintRun(r)[..|Dec(r.lo)|] == Dec(r.lo) && PrintRun(r)[|Dec(r.lo)| + 1..] == Dec(r.hi)
  {
    var p, a := PrintRun(r), Dec(r.lo);
    NoCommaOrDash(r);
    assert p[|a|] == '-' && p[..|a|] == a;
    FindUnique(p, '-', |a|);
  }

  lemma PartOfSingle(r: Run)
    requires r.lo == r.hi <= USIZE_MAX
    ensures PartBounds(PrintRun(r)) == if r.lo == USIZE_MAX then None else Some((r.lo, r.hi))
  {
    TrimPrintedRun(r);
    NoCommaOrDash(r);
    ParseDec(r.lo);
  }

  lemma PartOfPair(r: Run)
    requires r.lo != r.hi && r.lo <= USIZE_MAX && r.hi <= USIZE_MAX
    ensures PartBounds(PrintRun(r)) ==
              if r.lo == USIZE_MAX then None else if r.lo > r.hi then Some((r.hi, r.lo)) else Some((r.lo, r.hi))
  {
    TrimPrintedRun(r);
    DashOfPrintedRun(r);
    ParseDec(r.lo);
    ParseDec(r.hi);
  }

  /** A printed run is read back with its bounds in order, unless it starts at `usize::MAX`. */
  lemma PartOfPrintedRun(r: Run)
    requires r.lo <= USIZE_MAX && r.hi <= USIZE_MAX
    ensures PartBounds(PrintRun(r)) ==
              if r.lo == USIZE_MAX then None else if r.lo > r.hi then Some((r.hi, r.lo)) else Some((r.lo, r.hi))
  {
    if r.lo == r.hi { PartOfSingle(r); } else { PartOfPair(r); }
  }

  lemma ParsePart(part: string, cpu: nat)
    requires ',' !in part
    ensures cpu in Parse(part) <==> cpu < CPU_SETSIZE && InPart(part, cpu)
  {
    SplitWhole(part, ',');
    assert [part][0] == part;
  }

  /** The CPUs a printed run is read back as, whatever its bounds: a reversed run is turned round, and
      one that starts at `usize::MAX` is skipped. */
  predicate ReadBack(r: Run, cpu: nat) {
    if r.lo <= r.hi then r.lo <= cpu <= r.hi else r.lo < USIZE_MAX && r.hi <= cpu <= r.lo
  }

  ghost predicate SomeReadBack(rs: seq<Run>, cpu: nat) {
    exists i :: 0 <= i < |rs| && ReadBack(rs[i], cpu)
  }

  ghost predicate UsizeRuns(rs: seq<Run>) {
    forall i :: 0 <= i < |rs| ==> rs[i].lo <= USIZE_MAX && rs[i].hi <= USIZE_MAX
  }

  ghost predicate Printable(rs: seq<Run>) {
    forall i :: 0 <= i < |rs| ==> rs[i].lo <= rs[i].hi <= USIZE_MAX
  }

  lemma ParsePrintedRun(r: Run, cpu: nat)
    requires r.lo <= USIZE_MAX && r.hi <= USIZE_MAX
    ensures cpu in Parse(PrintRun(r)) <==> cpu < CPU_SETSIZE && ReadBack(r, cpu)
  {
    NoCommaOrDash(r);
    ParsePart(PrintRun(r), cpu);
    PartOfPrintedRun(r);
  }

  lemma SomeReadBackLast(rs: seq<Run>, r: Run, cpu: nat)
    ensures SomeReadBack(rs + [r], cpu) <==> SomeReadBack(rs, cpu) || ReadBack(r, cpu)
  {
    var all := rs + [r];
    if SomeReadBack(rs, cpu) {
      var i :| 0 <= i < |rs| && ReadBack(rs[i], cpu);
      assert all[i] == rs[i];
    }
    if ReadBack(r, cpu) {
      assert all[|rs|] == r;
    }
  }

  /** What any printed list of runs is read back as. */
  lemma {:induction false} ParseAnyRuns(rs: seq<Run>, cpu: nat)
    requires UsizeRuns(rs)
    ensures cpu in Parse(PrintRuns(rs)) <==> cpu < CPU_SETSIZE && SomeReadBack(rs, cpu)
  {
    if rs == [] {
      ParseEmpty();
    } else {
      var init, last := rs[..|rs| - 1], rs[|rs| - 1];
      assert rs == init + [last];
      SomeReadBackLast(init, last, cpu);
      ParsePrintedRun(last, cpu);
      if init != [] {
        ParseAnyRuns(init, cpu);
        ParseJoin(PrintRuns(init), PrintRun(last));
      }
    }
  }

  lemma ParsePrintedRuns(rs: seq<Run>, cpu: nat)
    requires Printable(rs)
    ensures cpu in Parse(PrintRuns(rs)) <==> cpu < CPU_SETSIZE && InRuns(rs, cpu)
  {
    ParseAnyRuns(rs, cpu);
    forall i | 0 <= i < |rs| ensures ReadBack(rs[i], cpu) <==> rs[i].lo <= cpu <= rs[i].hi {}
  }

  /** Printing then parsing is the identity on every CPU set. */
  lemma ParsePrinted(s: set<nat>)
    requires InRange(s)
    ensures Parse(RangeString(s)) == s
  {
    var rs := RunsBelow(s, CPU_SETSIZE);
    RunsBelowMeaning(s, CPU_SETSIZE);
    forall i | 0 <= i < |rs| ensures rs[i].hi < CPU_SETSIZE {
      assert InRuns(rs, rs[i].hi);
    }
    forall cpu: nat { ParsePrintedRuns(rs, cpu); }
  }

  /** Two CPU sets share a cpuset directory name exactly when they are equal. */
  lemma DirectoryNamesDistinguishSets(s: set<nat>, t: set<nat>)
    requires InRange(s) && InRange(t)
    ensures RangeString(s) == RangeString(t) <==> s == t
  {
    ParsePrinted(s);
    ParsePrinted(t);
  }

  // ----- The loops -----

  /** The text after `push_range`. */
  function Pushed(text: string, r: Run, first: bool): string {
    (if first then text else text + ",") + PrintRun(r)
  }

  method PushRange(s: string, start: Option<nat>, end: Option<nat>, first: bool) returns (s': string, first': bool)
    ensures start.Some? && end.Some? ==> !first' && s' == Pushed(s, Run(start.value, end.value), first)
    ensures start.None? || end.None? ==> s' == s && first' == first
  {
    s', first' := s, first;
    if start.Some? && end.Some? {
      if !first {
        s' := s' + ",";
      }
      if start.value == end.value {
        s' := s' + Dec(start.value);
      } else {
        s' := s' + (Dec(start.value) + "-" + Dec(end.value));
      }
      first' := false;
    }
  }

  /** The printer's variables: the text so far, the open run if any, and whether no run was pushed yet. */
  datatype Printer = Printer(text: string, start: Option<nat>, end: Option<nat>, first: bool)

  /** The variables when the runs seen so far are `runs`, the last of them still open or not. */
  function PrinterOf(runs: seq<Run>, open: bool): Printer {
    if open && runs != [] then
      var last := runs[|runs| - 1];
      Printer(PrintRuns(runs[..|runs| - 1]), Some(last.lo), Some(last.hi), |runs| == 1)
    else Printer(PrintRuns(runs), None, None, runs == [])
  }

  /** Every CPU below `n` has been looked at; a closed last run cannot be continued by `n`. */
  ghost predicate Printing(runs: seq<Run>, n: nat, p: Printer) {
    && p == PrinterOf(runs, p.start.Some?)
    && (p.start.None? && runs != [] ==> runs[|runs| - 1].hi + 1 < n)
  }

  /** Pushing the open run prints all runs. */
  lemma PushedOpenRun(runs: seq<Run>, p: Printer)
    requires p == PrinterOf(runs, true) && runs != []
    ensures Pushed(p.text, Run(p.start.value, p.end.value), p.first) == PrintRuns(runs)
  {
    if |runs| == 1 {
      assert runs[..0] == [];
    }
  }

  /** `push_range` on the open run, as it closes the printer. */
  method Close(ghost runs: seq<Run>, p: Printer) returns (p': Printer)
    requires p == PrinterOf(runs, p.start.Some?)
    ensures p' == PrinterOf(runs, false)
  {
    if p.start.Some? { PushedOpenRun(runs, p); }
    var text, first := PushRange(p.text, p.start, p.end, p.first);
    p' := Printer(text, None, None, first);
  }

  lemma OpenedPrinter(runs: seq<Run>, cpu: nat)
    ensures PrinterOf(runs + [Run(cpu, cpu)], true) == PrinterOf(runs, false).(start := Some(cpu), end := Some(cpu))
  {
    var more := runs + [Run(cpu, cpu)];
    assert more[..|more| - 1] == runs;
  }

  lemma ContinuedPrinter(runs: seq<Run>, cpu: nat)
    requires runs != []
    ensures var last := Run(runs[|runs| - 1].lo, cpu);
            PrinterOf(runs[..|runs| - 1] + [last], true) == PrinterOf(runs, true).(end := Some(cpu))
  {
    var more := runs[..|runs| - 1] + [Run(runs[|runs| - 1].lo, cpu)];
    assert more[..|more| - 1] == runs[..|runs| - 1];
  }

  /** What the printer's variables say about the last run. */
  lemma OpenRun(runs: seq<Run>, n: nat, p: Printer)
    requires Printing(runs, n, p)
    ensures p.start.Some? ==> runs != [] && p.end == Some(runs[|runs| - 1].hi) && p == PrinterOf(runs, true)
    ensures p.start.None? ==> p == PrinterOf(runs, false) && Extended(runs, n) == runs + [Run(n, n)]
  {
  }

  /** One set bit in the loop of `to_range_string`. */
  method PrintCpu(cpu: nat, ghost runs: seq<Run>, p: Printer) returns (p': Printer)
    requires Printing(runs, cpu, p)
    ensures Printing(Extended(runs, cpu), cpu + 1, p')
  {
    OpenRun(runs, cpu, p);
    OpenedPrinter(runs, cpu);
    if p.start.None? {
      p' := p.(start := Some(cpu), end := Some(cpu));
    } else if p.end.Some? && cpu == p.end.value + 1 {
      ContinuedPrinter(runs, cpu);
      p' := p.(end := Some(cpu));
    } else {
      var closed := Close(runs, p);
      p' := closed.(start := Some(cpu), end := Some(cpu));
    }
  }

  /** The body of the inner loop of `to_range_string`. */
  method PrintBit(cpu: nat, isSet: bool, ghost s: set<nat>, p: Printer) returns (p': Printer)
    requires Printing(RunsBelow(s, cpu), cpu, p) && (isSet <==> cpu in s)
    ensures Printing(RunsBelow(s, cpu + 1), cpu + 1, p')
  {
    if isSet {
      p' := PrintCpu(cpu, RunsBelow(s, cpu), p);
    } else {
      p' := p;
    }
  }

  /** The inner loop of `to_range_string`: the bits of one word. */
  method PrintBits(word: nat, base: nat, ghost s: set<nat>, p: Printer) returns (p': Printer)
    requires Printing(RunsBelow(s, base), base, p)
    requires forall bit: nat :: bit < CPU_WORD_BITS ==> (Tests(word, bit) <==> base + bit in s)
    ensures Printing(RunsBelow(s, base + CPU_WORD_BITS), base + CPU_WORD_BITS, p')
  {
    p' := p;
    var bit, cpu := 0, base;
    while bit < CPU_WORD_BITS
      invariant 0 <= bit <= CPU_WORD_BITS && cpu == base + bit
      invariant Printing(RunsBelow(s, cpu), cpu, p')
    {
      p' := PrintBit(cpu, Tests(word, bit), s, p');
      bit, cpu := bit + 1, cpu + 1;
    }
  }

  /** One word in the loop of `to_range_string`; a zero word closes the open run. */
  method PrintWord(word: nat, base: nat, ghost s: set<nat>, p: Printer) returns (p': Printer)
    requires Printing(RunsBelow(s, base), base, p)
    requires forall bit: nat :: bit < CPU_WORD_BITS ==> (Tests(word, bit) <==> base + bit in s)
    ensures Printing(RunsBelow(s, base + CPU_WORD_BITS), base + CPU_WORD_BITS, p')
  {
    if word == 0 {
      ZeroWordGap(base, s);
      RunsSkip(s, base, base + CPU_WORD_BITS);
      RunsBelowShape(s, base);
      p' := Close(RunsBelow(s, base), p);
    } else {
      p' := PrintBits(word, base, s, p);
    }
  }

  lemma ZeroWordGap(base: nat, s: set<nat>)
    requires forall bit: nat :: bit < CPU_WORD_BITS ==> (Tests(0, bit) <==> base + bit in s)
    ensures forall cpu :: base <= cpu < base + CPU_WORD_BITS ==> cpu !in s
  {
    forall cpu | base <= cpu < base + CPU_WORD_BITS ensures cpu !in s {
      var bit := cpu - base;
      AndMask(0, bit);
      ZeroHasNoBits(bit);
      assert Tests(0, bit) <==> base + bit in s;
    }
  }

  /** The body of the loop of `to_range_string`, for the word at `idx`. */
  method PrintWordAt(words: seq<nat>, idx: nat, p: Printer) returns (p': Printer)
    requires |words| == CPU_WORDS && idx < CPU_WORDS
    requires Printing(RunsBelow(SetOf(words), CPU_WORD_BITS * idx), CPU_WORD_BITS * idx, p)
    ensures Printing(RunsBelow(SetOf(words), CPU_WORD_BITS * (idx + 1)), CPU_WORD_BITS * (idx + 1), p')
  {
    TestsMembership(words, idx);
    p' := PrintWord(words[idx], CPU_WORD_BITS * idx, SetOf(words), p);
  }

  /** The loop of `to_range_string`, over the words of the array. */
  method PrintWords(words: seq<nat>) returns (text: string)
    requires |words| == CPU_WORDS
    ensures text == RangeString(SetOf(words))
  {
    var p := Printer("", None, None, true);
    var idx := 0;
    while idx < CPU_WORDS
      invariant 0 <= idx <= CPU_WORDS
      invariant Printing(RunsBelow(SetOf(words), CPU_WORD_BITS * idx), CPU_WORD_BITS * idx, p)
    {
      p := PrintWordAt(words, idx, p);
      idx := idx + 1;
    }
    p := Close(RunsBelow(SetOf(words), CPU_WORD_BITS * CPU_WORDS), p);
    text := p.text;
  }

  method ToRangeString(cs: CpuSet) returns (text: string)
    requires cs.Valid()
    ensures text == RangeString(cs.View())
  {
    text := PrintWords(cs.bits[..]);
  }

  lemma TestsMembership(words: seq<nat>, idx: nat)
    requires |words| == CPU_WORDS && idx < CPU_WORDS
    ensures forall bit: nat :: bit < CPU_WORD_BITS ==> (Tests(words[idx], bit) <==> CPU_WORD_BITS * idx + bit in SetOf(words))
  {
    forall bit: nat | bit < CPU_WORD_BITS
      ensures Tests(words[idx], bit) <==> CPU_WORD_BITS * idx + bit in SetOf(words)
    {
      CpuSplit(idx, bit);
      AndMask(words[idx], bit);
    }
  }

  function MaskOf(present: CpuSet?): Option<set<nat>>
    requires present != null ==> present.bits.Length == CPU_WORDS
    reads if present == null then {} else {present.bits}
  {
    if present == null then None else Some(present.View())
  }

  predicate Allows(mask: Option<set<nat>>, cpu: nat) {
    mask.Some? ==> cpu in mask.value
  }

  /** The inner loop of `parse_cpu_ranges`: sets the CPUs of one part, clipped and masked. */
  method SetInterval(cs: CpuSet, lo: nat, hi: nat, present: CpuSet?)
    requires cs.Valid() && (present != null ==> present.Valid() && present.bits != cs.bits)
    modifies cs.bits
    ensures cs.Valid()
    ensures forall cpu: nat :: cpu in cs.View() <==>
              cpu in old(cs.View()) || (lo <= cpu <= hi && cpu < CPU_SETSIZE && Allows(MaskOf(present), cpu))
  {
    var top := if hi < CPU_SETSIZE - 1 then hi else CPU_SETSIZE - 1;
    var i := lo;
    while i <= top
      invariant cs.Valid() && (present != null ==> present.Valid())
      invariant lo <= i && (lo <= top ==> i <= top + 1)
      invariant forall cpu: nat :: cpu in cs.View() <==>
                  cpu in old(cs.View()) || (lo <= cpu < i && cpu <= top && Allows(MaskOf(present), cpu))
    {
      var skip := false;
      if present != null {
        var isSet := present.IsSet(i);
        skip := !isSet;
      }
      if !skip {
        cs.Set(i);
      }
      i := i + 1;
    }
  }

  /** `view` is what the given parts denote under the mask. */
  ghost predicate Collected(view: set<nat>, mask: Option<set<nat>>, parts: seq<string>) {
    forall cpu: nat :: cpu in view <==> cpu < CPU_SETSIZE && Allows(mask, cpu) && InSomePart(parts, cpu)
  }

  lemma CollectedNext(before: set<nat>, after: set<nat>, mask: Option<set<nat>>, parts: seq<string>, k: nat)
    requires k < |parts| && Collected(before, mask, parts[..k])
    requires forall cpu: nat :: cpu in after <==>
               cpu in before || (InPart(parts[k], cpu) && cpu < CPU_SETSIZE && Allows(mask, cpu))
    ensures Collected(after, mask, parts[..k + 1])
  {
    assert parts[..k + 1] == parts[..k] + [parts[k]];
    assert [parts[k]][0] == parts[k];
    forall cpu: nat { InSomePartAppend(parts[..k], [parts[k]], cpu); }
  }

  lemma CollectedAll(view: set<nat>, mask: Option<set<nat>>, spec: string)
    requires Collected(view, mask, Split(spec, ','))
    ensures view == if mask.None? then Parse(spec) else Parse(spec) * mask.value
  {
  }

  /** One part of the outer loop of `parse_cpu_ranges`. */
  method SetPart(cs: CpuSet, parts: seq<string>, k: nat, present: CpuSet?)
    requires k < |parts| && cs.Valid() && (present != null ==> present.Valid() && present.bits != cs.bits)
    requires Collected(cs.View(), MaskOf(present), parts[..k])
    modifies cs.bits
    ensures cs.Valid() && Collected(cs.View(), MaskOf(present), parts[..k + 1])
  {
    var bounds := PartBounds(parts[k]);
    if bounds.Some? {
      SetInterval(cs, bounds.value.0, bounds.value.1, present);
    }
    CollectedNext(old(cs.View()), cs.View(), MaskOf(present), parts, k);
  }

  /** The outer loop of `parse_cpu_ranges`, on a fresh set. */
  method SetParts(cs: CpuSet, parts: seq<string>, present: CpuSet?)
    requires cs.Valid() && cs.View() == {}
    requires present != null ==> present.Valid() && present.bits != cs.bits
    modifies cs.bits
    ensures cs.Valid() && Collected(cs.View(), MaskOf(present), parts)
  {
    var k := 0;
    while k < |parts|
      invariant 0 <= k <= |parts| && cs.Valid()
      invariant Collected(cs.View(), MaskOf(present), parts[..k])
    {
      SetPart(cs, parts, k, present);
      k := k + 1;
    }
    assert parts[..|parts|] == parts;
  }

  /** `parse_cpu_ranges`: with a present mask, CPUs outside the mask are dropped as they are read. */
  method ParseCpuRanges(spec: string, present: CpuSet?) returns (cs: CpuSet)
    requires present != null ==> present.Valid()
    ensures cs.Valid() && fresh(cs) && fresh(cs.bits)
    ensures cs.View() == if present == null then Parse(spec) else Parse(spec) * present.View()
  {
    cs := new CpuSet();
    if spec == "" {
      ParseEmpty();
      return;
    }
    SetParts(cs, Split(spec, ','), present);
    CollectedAll(cs.View(), MaskOf(present), spec);
  }

  method FromRange(spec: string) returns (cs: CpuSet)
    ensures cs.Valid() && fresh(cs) && fresh(cs.bits) && cs.View() == Parse(spec)
  {
    cs := ParseCpuRanges(spec, null);
  }
}
