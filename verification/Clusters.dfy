/**
 src/cpu.rs: the second range printer, `fmt_cpus`, which works on a list of CPU numbers.
 Numbers are 64-bit `usize` values; the release profile leaves overflow checks off, so
 `end + 1` wraps.
 */
module Clusters {
  import opened Strings
  import opened CpuSets
  import opened Ranges

  ghost predicate Usizes(v: seq<nat>) {
    forall i :: 0 <= i < |v| ==> v[i] <= USIZE_MAX
  }

  function Succ(n: nat): nat {
    if n == USIZE_MAX then 0 else n + 1
  }

  /** An element joins the last run if it follows its end, else it starts a run. */
  function Joined(rs: seq<Run>, cpu: nat): seq<Run> {
    if rs != [] && cpu == Succ(rs[|rs| - 1].hi)
    then rs[..|rs| - 1] + [Run(rs[|rs| - 1].lo, cpu)]
    else rs + [Run(cpu, cpu)]
  }

  /** The runs `fmt_cpus` forms from the first `n` elements. */
  function ListRuns(v: seq<nat>, n: nat): (rs: seq<Run>)
    requires n <= |v|
    ensures n > 0 ==> rs != [] && rs[|rs| - 1].hi == v[n - 1]
  {
    if n == 0 then [] else Joined(ListRuns(v, n - 1), v[n - 1])
  }

  function Join(parts: seq<string>, sep: string): string {
    if parts == [] then ""
    else if |parts| == 1 then parts[0]
    else Join(parts[..|parts| - 1], sep) + sep + parts[|parts| - 1]
  }

  /** The string `fmt_cpus` returns, as a function of the list. */
  function Formatted(v: seq<nat>): string {
    if v == [] then "0" else PrintRuns(ListRuns(v, |v|))
  }

  // ----- Meaning -----

  /** `end + 1` never wraps onto the next element. */
  ghost predicate NoWrap(v: seq<nat>) {
    forall i :: 0 <= i < |v| - 1 && v[i] == USIZE_MAX ==> v[i + 1] != 0
  }

  lemma JoinedPrintable(rs: seq<Run>, x: nat)
    requires Printable(rs) && x <= USIZE_MAX
    requires rs != [] && rs[|rs| - 1].hi == USIZE_MAX ==> x != 0
    ensures Printable(Joined(rs, x))
  {
  }

  lemma JoinedCovers(rs: seq<Run>, x: nat, cpu: nat)
    requires Printable(rs) && x <= USIZE_MAX
    requires rs != [] && rs[|rs| - 1].hi == USIZE_MAX ==> x != 0
    ensures InRuns(Joined(rs, x), cpu) <==> cpu == x || InRuns(rs, cpu)
  {
    if rs != [] && x == Succ(rs[|rs| - 1].hi) {
      var done, last := rs[..|rs| - 1], rs[|rs| - 1];
      assert rs == done + [last];
      InRunsLast(done, last, cpu);
      InRunsLast(done, Run(last.lo, x), cpu);
    } else {
      InRunsLast(rs, Run(x, x), cpu);
    }
  }

  lemma {:induction false} ListRunsPrintable(v: seq<nat>, n: nat)
    requires n <= |v| && Usizes(v) && NoWrap(v)
    ensures Printable(ListRuns(v, n))
  {
    if n > 0 {
      ListRunsPrintable(v, n - 1);
      JoinedPrintable(ListRuns(v, n - 1), v[n - 1]);
    }
  }

  lemma InPrefix(v: seq<nat>, n: nat, cpu: nat)
    requires 0 < n <= |v|
    ensures cpu in v[..n] <==> cpu in v[..n - 1] || cpu == v[n - 1]
  {
    assert v[..n] == v[..n - 1] + [v[n - 1]];
  }

  lemma {:induction false} ListRunsCover(v: seq<nat>, n: nat, cpu: nat)
    requires n <= |v| && Usizes(v) && NoWrap(v)
    ensures InRuns(ListRuns(v, n), cpu) <==> cpu in v[..n]
  {
    if n > 0 {
      ListRunsCover(v, n - 1, cpu);
      ListRunsPrintable(v, n - 1);
      JoinedCovers(ListRuns(v, n - 1), v[n - 1], cpu);
      InPrefix(v, n, cpu);
    }
  }

  lemma FormattedMember(v: seq<nat>, cpu: nat)
    requires v != [] && Usizes(v) && NoWrap(v)
    ensures cpu in Parse(Formatted(v)) <==> cpu in v && cpu < CPU_SETSIZE
  {
    ListRunsPrintable(v, |v|);
    ListRunsCover(v, |v|, cpu);
    assert v[..|v|] == v;
    ParsePrintedRuns(ListRuns(v, |v|), cpu);
  }

  /** Reading a formatted list back gives its elements below 1024, sorted or not. */
  lemma ParseFormatted(v: seq<nat>)
    requires v != [] && Usizes(v) && NoWrap(v)
    ensures Parse(Formatted(v)) == set cpu | cpu in v && cpu < CPU_SETSIZE
  {
    forall cpu: nat
      ensures cpu in Parse(Formatted(v)) <==> cpu in v && cpu < CPU_SETSIZE
    {
      FormattedMember(v, cpu);
    }
  }

  /** An empty list is printed as CPU 0. */
  lemma FormattedEmpty(cpu: nat)
    ensures cpu in Parse(Formatted([])) <==> cpu == 0
  {
    assert Dec(0) == [DigitChar(0)] == "0";
    ParsePrintedRun(Run(0, 0), cpu);
  }

  lemma WrappedRuns(v: seq<nat>)
    requires v == [USIZE_MAX, 0]
    ensures Formatted(v) == PrintRun(Run(USIZE_MAX, 0))
  {
    assert ListRuns(v, 1) == Joined([], USIZE_MAX) == [Run(USIZE_MAX, USIZE_MAX)];
    assert ListRuns(v, 2) == [Run(USIZE_MAX, 0)];
  }

  /** Without `NoWrap` the law fails: the wrapped run is printed backwards and then skipped. */
  lemma WrappedListIsLost(v: seq<nat>)
    requires v == [USIZE_MAX, 0]
    ensures Usizes(v) && !NoWrap(v) && 0 in v && 0 !in Parse(Formatted(v))
  {
    var r := Run(USIZE_MAX, 0);
    WrappedRuns(v);
    assert v[0] == USIZE_MAX && v[1] == 0;
    ParsePrintedRun(r, 0);
  }

  /** Some run is printed backwards. The bounds on the length in what follows are met by every Rust
      vector. */
  ghost predicate Backwards(rs: seq<Run>) {
    exists i :: 0 <= i < |rs| && rs[i].lo > rs[i].hi
  }

  ghost predicate LastShort(rs: seq<Run>, n: nat) {
    rs != [] && rs[|rs| - 1].lo <= rs[|rs| - 1].hi < rs[|rs| - 1].lo + n
  }

  lemma LastShortNext(rs: seq<Run>, n: nat, x: nat)
    requires LastShort(rs, n) && (rs[|rs| - 1].hi == USIZE_MAX ==> x != 0)
    ensures LastShort(Joined(rs, x), n + 1)
  {
  }

  /** Before any wrap the last run is forward and no longer than the list. */
  lemma {:induction false} LastRunLength(v: seq<nat>, n: nat)
    requires 0 < n <= |v| <= USIZE_MAX && Usizes(v)
    requires forall i :: 0 <= i < n - 1 && v[i] == USIZE_MAX ==> v[i + 1] != 0
    ensures LastShort(ListRuns(v, n), n)
  {
    if n > 1 {
      LastRunLength(v, n - 1);
      LastShortNext(ListRuns(v, n - 1), n - 1, v[n - 1]);
    }
  }

  /** Some closed run is backwards, or the last is, having started before a wrap at `w`. */
  ghost predicate WrappedBack(rs: seq<Run>, w: nat, n: nat) {
    rs != [] && (Backwards(rs[..|rs| - 1]) || (rs[|rs| - 1].lo + w >= USIZE_MAX && rs[|rs| - 1].hi + w + 2 <= n))
  }

  lemma BackwardsInit(rs: seq<Run>)
    requires rs != []
    ensures Backwards(rs) <==> Backwards(rs[..|rs| - 1]) || rs[|rs| - 1].lo > rs[|rs| - 1].hi
  {
    var init := rs[..|rs| - 1];
    assert rs == init + [rs[|rs| - 1]];
    if Backwards(init) {
      var i :| 0 <= i < |init| && init[i].lo > init[i].hi;
      assert rs[i] == init[i];
    }
    if Backwards(rs) {
      var i :| 0 <= i < |rs| && rs[i].lo > rs[i].hi;
      if i < |init| { assert init[i] == rs[i]; }
    }
  }

  lemma WrappedBackNext(rs: seq<Run>, w: nat, n: nat, x: nat)
    requires WrappedBack(rs, w, n) && n < USIZE_MAX
    ensures WrappedBack(Joined(rs, x), w, n + 1)
  {
    var last, rs' := rs[|rs| - 1], Joined(rs, x);
    if x == Succ(last.hi) {
      assert rs'[..|rs'| - 1] == rs[..|rs| - 1];
    } else {
      assert rs'[..|rs'| - 1] == rs;
      BackwardsInit(rs);
    }
  }

  /** After a wrap at `w` the last run stays backwards while it grows, and is kept when it is closed. */
  lemma {:induction false} WrapStaysBackwards(v: seq<nat>, w: nat, n: nat)
    requires w + 2 <= n <= |v| <= USIZE_MAX && Usizes(v)
    requires v[w] == USIZE_MAX && v[w + 1] == 0
    requires forall i :: 0 <= i < w && v[i] == USIZE_MAX ==> v[i + 1] != 0
    ensures WrappedBack(ListRuns(v, n), w, n)
  {
    if n == w + 2 {
      LastRunLength(v, w + 1);
    } else {
      WrapStaysBackwards(v, w, n - 1);
      WrappedBackNext(ListRuns(v, n - 1), w, n - 1, v[n - 1]);
    }
  }

  /** Every part is printed in ascending order exactly for the lists without a wrap. */
  lemma PrintableIffNoWrap(v: seq<nat>)
    requires |v| <= USIZE_MAX && Usizes(v)
    ensures Printable(ListRuns(v, |v|)) <==> NoWrap(v)
  {
    if NoWrap(v) {
      ListRunsPrintable(v, |v|);
    } else {
      var w := FirstWrap(v);
      WrapStaysBackwards(v, w, |v|);
      BackwardsInit(ListRuns(v, |v|));
    }
  }

  lemma FirstWrap(v: seq<nat>) returns (w: nat)
    requires !NoWrap(v)
    ensures w + 1 < |v| && v[w] == USIZE_MAX && v[w + 1] == 0
    ensures forall i :: 0 <= i < w && v[i] == USIZE_MAX ==> v[i + 1] != 0
  {
    w := 0;
    while !(w + 1 < |v| && v[w] == USIZE_MAX && v[w + 1] == 0)
      invariant w < |v|
      invariant forall i :: 0 <= i < w && v[i] == USIZE_MAX ==> v[i + 1] != 0
      decreases |v| - w
    {
      w := w + 1;
    }
  }

  // ----- Exactly when reading back is right -----

  ghost predicate Distinct(v: seq<nat>) {
    forall i, j :: 0 <= i < j < |v| ==> v[i] != v[j]
  }

  lemma JoinedUsize(rs: seq<Run>, x: nat)
    requires UsizeRuns(rs) && x <= USIZE_MAX
    ensures UsizeRuns(Joined(rs, x))
  {
  }

  lemma {:induction false} ListRunsUsize(v: seq<nat>, n: nat)
    requires n <= |v| && Usizes(v)
    ensures UsizeRuns(ListRuns(v, n))
  {
    if n > 0 {
      ListRunsUsize(v, n - 1);
      JoinedUsize(ListRuns(v, n - 1), v[n - 1]);
    }
  }

  /** No run is read back as one with CPU 0. */
  ghost predicate WithoutZero(rs: seq<Run>) {
    forall i :: 0 <= i < |rs| ==> rs[i].lo == USIZE_MAX || 0 < rs[i].lo <= rs[i].hi
  }

  lemma WithoutZeroNext(rs: seq<Run>, x: nat)
    requires WithoutZero(rs) && UsizeRuns(rs) && x <= USIZE_MAX
    requires x == 0 ==> rs != [] && rs[|rs| - 1] == Run(USIZE_MAX, USIZE_MAX)
    ensures WithoutZero(Joined(rs, x))
  {
    if rs != [] { assert rs[|rs| - 1].lo == USIZE_MAX || 0 < rs[|rs| - 1].lo <= rs[|rs| - 1].hi; }
  }

  /** If the wrapped run starts at `usize::MAX`, CPU 0 is lost. */
  lemma {:induction false} ZeroIsLost(v: seq<nat>, w: nat, n: nat)
    requires n <= |v| && w + 1 < |v| && Usizes(v) && Distinct(v)
    requires v[w] == USIZE_MAX && v[w + 1] == 0
    requires ListRuns(v, w + 1)[|ListRuns(v, w + 1)| - 1].lo == USIZE_MAX
    ensures WithoutZero(ListRuns(v, n))
  {
    if n > 0 {
      ZeroIsLost(v, w, n - 1);
      ListRunsUsize(v, n - 1);
      OnlyZero(v, w + 1, n - 1);
      WithoutZeroNext(ListRuns(v, n - 1), v[n - 1]);
    }
  }

  lemma OnlyZero(v: seq<nat>, z: nat, i: nat)
    requires Distinct(v) && z < |v| && i < |v| && v[z] == 0
    ensures v[i] == 0 ==> i == z
  {
  }

  /** A run that wrapped at `w` after a start below `usize::MAX`, and counted on from 0 since. */
  ghost predicate WrappedPart(v: seq<nat>, w: nat, n: nat, r: Run) {
    && r.lo < USIZE_MAX <= r.lo + w
    && r.hi + w + 2 <= n
    && forall cpu: nat :: cpu <= r.hi ==> cpu in v
  }

  ghost predicate HasWrappedPart(v: seq<nat>, w: nat, n: nat, rs: seq<Run>) {
    exists i :: 0 <= i < |rs| && WrappedPart(v, w, n, rs[i])
  }

  lemma WrappedPartStays(v: seq<nat>, w: nat, n: nat, rs: seq<Run>)
    requires n < |v| <= USIZE_MAX && HasWrappedPart(v, w, n, rs)
    ensures HasWrappedPart(v, w, n + 1, Joined(rs, v[n]))
  {
    var i :| 0 <= i < |rs| && WrappedPart(v, w, n, rs[i]);
    var rs' := Joined(rs, v[n]);
    assert v[n] in v;
    if i < |rs| - 1 { assert rs'[i] == rs[i]; }
    assert WrappedPart(v, w, n + 1, rs'[i]);
  }

  lemma {:induction false} WrapLeavesPart(v: seq<nat>, w: nat, n: nat)
    requires w + 2 <= n <= |v| <= USIZE_MAX && Usizes(v)
    requires v[w] == USIZE_MAX && v[w + 1] == 0
    requires forall i :: 0 <= i < w && v[i] == USIZE_MAX ==> v[i + 1] != 0
    requires ListRuns(v, w + 1)[|ListRuns(v, w + 1)| - 1].lo < USIZE_MAX
    ensures HasWrappedPart(v, w, n, ListRuns(v, n))
  {
    if n == w + 2 {
      LastRunLength(v, w + 1);
      var rs := ListRuns(v, n);
      assert v[w + 1] in v;
      assert WrappedPart(v, w, n, rs[|rs| - 1]);
    } else {
      WrapLeavesPart(v, w, n - 1);
      WrappedPartStays(v, w, n - 1, ListRuns(v, n - 1));
    }
  }

  /** Such a run is turned round by the parser, so it is read as all CPUs from its end on. */
  lemma MissingIsRead(v: seq<nat>, w: nat, rs: seq<Run>, missing: nat)
    requires |v| <= USIZE_MAX - CPU_SETSIZE && HasWrappedPart(v, w, |v|, rs)
    requires missing < CPU_SETSIZE && missing !in v && w < |v|
    ensures SomeReadBack(rs, missing)
  {
    var i :| 0 <= i < |rs| && WrappedPart(v, w, |v|, rs[i]);
    assert missing > rs[i].hi;
    assert ReadBack(rs[i], missing);
  }

  lemma WrapIsMisread(v: seq<nat>, missing: nat) returns (cpu: nat)
    requires |v| <= USIZE_MAX - CPU_SETSIZE && Usizes(v) && Distinct(v) && !NoWrap(v)
    requires missing < CPU_SETSIZE && missing !in v
    ensures cpu < CPU_SETSIZE && (cpu in Parse(Formatted(v)) <==> cpu !in v)
  {
    var w := FirstWrap(v);
    var rs, first := ListRuns(v, |v|), ListRuns(v, w + 1);
    ListRunsUsize(v, |v|);
    LastRunLength(v, w + 1);
    if first[|first| - 1].lo == USIZE_MAX {
      cpu := 0;
      ZeroIsLost(v, w, |v|);
      assert v[w + 1] in v;
    } else {
      cpu := missing;
      WrapLeavesPart(v, w, |v|);
      MissingIsRead(v, w, rs, missing);
    }
    ParseAnyRuns(rs, cpu);
  }

  /** For a list without repetitions that does not hold all 1024 CPUs, a formatted list is read back
      right exactly if `end + 1` never wraps onto the next element. */
  lemma ParseFormattedDistinct(v: seq<nat>, missing: nat)
    requires v != [] && |v| <= USIZE_MAX - CPU_SETSIZE && Usizes(v) && Distinct(v)
    requires missing < CPU_SETSIZE && missing !in v
    ensures Parse(Formatted(v)) == (set cpu | cpu in v && cpu < CPU_SETSIZE) <==> NoWrap(v)
  {
    if NoWrap(v) {
      ParseFormatted(v);
    } else {
      var cpu := WrapIsMisread(v, missing);
      assert cpu in (set c | c in v && c < CPU_SETSIZE) <==> cpu in v;
    }
  }

  // ----- The same for all lists -----

  /** The run is no longer than `n`, counted round through 0 if it is backwards. */
  predicate Short(r: Run, n: nat) {
    if r.lo <= r.hi then r.hi < r.lo + n else r.hi + USIZE_MAX + 1 < r.lo + n
  }

  ghost predicate AllShort(rs: seq<Run>, n: nat) {
    forall i :: 0 <= i < |rs| ==> Short(rs[i], n)
  }

  lemma JoinedShort(rs: seq<Run>, n: nat, x: nat)
    requires AllShort(rs, n) && UsizeRuns(rs) && n < USIZE_MAX && x <= USIZE_MAX
    ensures AllShort(Joined(rs, x), n + 1)
  {
    if rs != [] { assert Short(rs[|rs| - 1], n); }
  }

  lemma {:induction false} ListRunsShort(v: seq<nat>, n: nat)
    requires n <= |v| <= USIZE_MAX && Usizes(v)
    ensures AllShort(ListRuns(v, n), n)
  {
    if n > 0 {
      ListRunsShort(v, n - 1);
      ListRunsUsize(v, n - 1);
      JoinedShort(ListRuns(v, n - 1), n - 1, v[n - 1]);
    }
  }

  /** The CPU is one of the elements that the run was formed from. */
  predicate Holds(r: Run, cpu: nat) {
    if r.lo <= r.hi then r.lo <= cpu <= r.hi else cpu <= r.hi
  }

  ghost predicate SomeHolds(rs: seq<Run>, cpu: nat) {
    exists i :: 0 <= i < |rs| && Holds(rs[i], cpu)
  }

  lemma SomeHoldsLast(rs: seq<Run>, r: Run, cpu: nat)
    ensures SomeHolds(rs + [r], cpu) <==> SomeHolds(rs, cpu) || Holds(r, cpu)
  {
    var all := rs + [r];
    if SomeHolds(rs, cpu) {
      var i :| 0 <= i < |rs| && Holds(rs[i], cpu);
      assert all[i] == rs[i];
    }
    if Holds(r, cpu) { assert all[|rs|] == r; }
  }

  lemma JoinedHolds(rs: seq<Run>, n: nat, x: nat, cpu: nat)
    requires AllShort(rs, n) && UsizeRuns(rs) && n < USIZE_MAX - CPU_SETSIZE && x <= USIZE_MAX && cpu < CPU_SETSIZE
    ensures SomeHolds(Joined(rs, x), cpu) <==> cpu == x || SomeHolds(rs, cpu)
  {
    if rs != [] && x == Succ(rs[|rs| - 1].hi) {
      var done, last := rs[..|rs| - 1], rs[|rs| - 1];
      assert rs == done + [last] && Short(last, n);
      SomeHoldsLast(done, last, cpu);
      SomeHoldsLast(done, Run(last.lo, x), cpu);
    } else {
      SomeHoldsLast(rs, Run(x, x), cpu);
    }
  }

  lemma {:induction false} ListRunsHold(v: seq<nat>, n: nat, cpu: nat)
    requires n <= |v| <= USIZE_MAX - CPU_SETSIZE && Usizes(v) && cpu < CPU_SETSIZE
    ensures SomeHolds(ListRuns(v, n), cpu) <==> cpu in v[..n]
  {
    if n > 0 {
      ListRunsHold(v, n - 1, cpu);
      ListRunsShort(v, n - 1);
      ListRunsUsize(v, n - 1);
      JoinedHolds(ListRuns(v, n - 1), n - 1, v[n - 1], cpu);
      InPrefix(v, n, cpu);
    }
  }

  /** A backwards part does no harm: what it is wrongly read as is in the list anyway, and the CPUs
      that it was to denote are read from some part. */
  ghost predicate MadeUp(v: seq<nat>, rs: seq<Run>, r: Run) {
    && (r.lo < USIZE_MAX ==> forall cpu: nat :: cpu < CPU_SETSIZE ==> cpu in v)
    && (forall cpu: nat :: cpu <= r.hi && cpu < CPU_SETSIZE ==> SomeReadBack(rs, cpu))
  }

  ghost predicate AllMadeUp(v: seq<nat>, rs: seq<Run>) {
    forall i :: 0 <= i < |rs| && rs[i].lo > rs[i].hi ==> MadeUp(v, rs, rs[i])
  }

  /** The element-wise view: reading back is right for all CPUs. */
  ghost predicate AllRight(v: seq<nat>, rs: seq<Run>) {
    forall cpu: nat :: cpu < CPU_SETSIZE ==> (cpu in v <==> SomeReadBack(rs, cpu))
  }

  lemma RightIfMadeUp(v: seq<nat>, rs: seq<Run>, cpu: nat)
    requires cpu < CPU_SETSIZE && AllMadeUp(v, rs) && (SomeHolds(rs, cpu) <==> cpu in v)
    ensures cpu in v <==> SomeReadBack(rs, cpu)
  {
    if SomeHolds(rs, cpu) {
      var i :| 0 <= i < |rs| && Holds(rs[i], cpu);
      if rs[i].lo <= rs[i].hi { assert ReadBack(rs[i], cpu); } else { assert MadeUp(v, rs, rs[i]); }
    }
    if SomeReadBack(rs, cpu) {
      var i :| 0 <= i < |rs| && ReadBack(rs[i], cpu);
      if rs[i].lo <= rs[i].hi { assert Holds(rs[i], cpu); } else { assert MadeUp(v, rs, rs[i]); }
    }
  }

  lemma MadeUpIfRight(v: seq<nat>, rs: seq<Run>, i: nat)
    requires i < |rs| && rs[i].lo > rs[i].hi && Short(rs[i], USIZE_MAX - CPU_SETSIZE)
    requires AllRight(v, rs) && forall cpu: nat :: cpu < CPU_SETSIZE ==> (SomeHolds(rs, cpu) <==> cpu in v)
    ensures MadeUp(v, rs, rs[i])
  {
    forall cpu: nat | cpu < CPU_SETSIZE && cpu <= rs[i].hi ensures cpu in v { assert Holds(rs[i], cpu); }
    forall cpu: nat | cpu < CPU_SETSIZE && cpu >= rs[i].hi && rs[i].lo < USIZE_MAX ensures cpu in v {
      assert ReadBack(rs[i], cpu);
    }
  }

  /** Any list is read back right exactly if each of its backwards parts is made up for. */
  lemma ParseFormattedIff(v: seq<nat>)
    requires v != [] && |v| <= USIZE_MAX - CPU_SETSIZE && Usizes(v)
    ensures Parse(Formatted(v)) == (set cpu | cpu in v && cpu < CPU_SETSIZE) <==> AllMadeUp(v, ListRuns(v, |v|))
  {
    var rs := ListRuns(v, |v|);
    ListRunsUsize(v, |v|);
    ListRunsShort(v, |v|);
    assert v[..|v|] == v;
    forall cpu: nat | cpu < CPU_SETSIZE ensures SomeHolds(rs, cpu) <==> cpu in v { ListRunsHold(v, |v|, cpu); }
    ReadBackIsRight(v);
    if AllRight(v, rs) {
      forall i | 0 <= i < |rs| && rs[i].lo > rs[i].hi ensures MadeUp(v, rs, rs[i]) { MadeUpIfRight(v, rs, i); }
    }
    if AllMadeUp(v, rs) {
      forall cpu: nat | cpu < CPU_SETSIZE ensures cpu in v <==> SomeReadBack(rs, cpu) { RightIfMadeUp(v, rs, cpu); }
    }
  }

  lemma ReadBackIsRight(v: seq<nat>)
    requires v != [] && Usizes(v)
    ensures Parse(Formatted(v)) == (set cpu | cpu in v && cpu < CPU_SETSIZE) <==> AllRight(v, ListRuns(v, |v|))
  {
    var s, want := Parse(Formatted(v)), set cpu | cpu in v && cpu < CPU_SETSIZE;
    ListRunsUsize(v, |v|);
    forall cpu: nat ensures cpu in s <==> cpu < CPU_SETSIZE && SomeReadBack(ListRuns(v, |v|), cpu) {
      ParseAnyRuns(ListRuns(v, |v|), cpu);
    }
    if s == want {
      forall cpu: nat | cpu < CPU_SETSIZE ensures cpu in v <==> SomeReadBack(ListRuns(v, |v|), cpu) {
        assert cpu in s <==> cpu in want;
      }
    }
    if AllRight(v, ListRuns(v, |v|)) {
      forall cpu: nat ensures cpu in s <==> cpu in want {}
    }
  }

  // ----- Agreement with the other printer -----

  ghost predicate Ascending(v: seq<nat>) {
    forall i, j :: 0 <= i < j < |v| ==> v[i] < v[j]
  }

  lemma JoinedIsExtended(rs: seq<Run>, x: nat)
    requires EndsBelow(rs, x) && x <= USIZE_MAX
    ensures Joined(rs, x) == Extended(rs, x)
  {
  }

  lemma {:induction false} AscendingCanonical(v: seq<nat>, n: nat)
    requires n <= |v| && Usizes(v) && Ascending(v)
    ensures Canonical(ListRuns(v, n))
  {
    if n > 0 {
      AscendingCanonical(v, n - 1);
      JoinedIsExtended(ListRuns(v, n - 1), v[n - 1]);
      ExtendedCanonical(ListRuns(v, n - 1), v[n - 1]);
    }
  }

  /** On the ascending list of a non-empty set the two printers produce the same string. */
  lemma PrintersAgree(v: seq<nat>, s: set<nat>)
    requires v != [] && Ascending(v) && InRange(s)
    requires forall cpu :: cpu in v <==> cpu in s
    ensures Formatted(v) == RangeString(s)
  {
    forall i | 0 <= i < |v| ensures v[i] < CPU_SETSIZE { assert v[i] in s; }
    AscendingCanonical(v, |v|);
    forall cpu: nat
      ensures InRuns(ListRuns(v, |v|), cpu) <==> cpu in s
    {
      ListRunsCover(v, |v|, cpu);
      assert v[..|v|] == v;
    }
    PrintedRunsAreCanonical(s, ListRuns(v, |v|));
  }

  // ----- The loops -----

  /** The strings pushed for the runs. */
  ghost function Printed(rs: seq<Run>): seq<string> {
    seq(|rs|, i requires 0 <= i < |rs| => PrintRun(rs[i]))
  }

  lemma {:induction false} JoinPrinted(rs: seq<Run>)
    ensures Join(Printed(rs), ",") == PrintRuns(rs)
  {
    if |rs| > 1 {
      JoinPrinted(rs[..|rs| - 1]);
      assert Printed(rs)[..|rs| - 1] == Printed(rs[..|rs| - 1]);
    }
  }

  lemma PrintedSnoc(rs: seq<Run>, r: Run)
    ensures Printed(rs + [r]) == Printed(rs) + [PrintRun(r)]
  {
  }

  /** The inner loop of `fmt_cpus`: extends the run that starts at `i`. */
  method ExtendRun(cpus: seq<nat>, i: nat, ghost done: seq<Run>) returns (i': nat, end: nat)
    requires i < |cpus| && ListRuns(cpus, i + 1) == done + [Run(cpus[i], cpus[i])]
    ensures i <= i' < |cpus| && end == cpus[i']
    ensures ListRuns(cpus, i' + 1) == done + [Run(cpus[i], end)]
    ensures i' + 1 < |cpus| ==> cpus[i' + 1] != Succ(end)
  {
    i', end := i, cpus[i];
    while i' + 1 < |cpus| && cpus[i' + 1] == Succ(end)
      invariant i <= i' < |cpus| && end == cpus[i']
      invariant ListRuns(cpus, i' + 1) == done + [Run(cpus[i], end)]
    {
      JoinedLast(done, Run(cpus[i], end), cpus[i' + 1]);
      i' := i' + 1;
      end := cpus[i'];
    }
  }

  lemma JoinedLast(done: seq<Run>, r: Run, cpu: nat)
    requires cpu == Succ(r.hi)
    ensures Joined(done + [r], cpu) == done + [Run(r.lo, cpu)]
  {
    assert (done + [r])[..|done|] == done;
  }

  method PushPart(parts: seq<string>, start: nat, end: nat, ghost runs: seq<Run>) returns (parts': seq<string>)
    requires parts == Printed(runs)
    ensures parts' == Printed(runs + [Run(start, end)])
  {
    PrintedSnoc(runs, Run(start, end));
    if start == end {
      parts' := parts + [Dec(start)];
    } else {
      parts' := parts + [Dec(start) + "-" + Dec(end)];
    }
  }

  /** The outer loop of `fmt_cpus`. */
  method FormatParts(cpus: seq<nat>) returns (parts: seq<string>)
    ensures parts == Printed(ListRuns(cpus, |cpus|))
  {
    parts := [];
    ghost var runs := [];
    var i := 0;
    while i < |cpus|
      invariant 0 <= i <= |cpus|
      invariant runs == ListRuns(cpus, i) && parts == Printed(runs)
      invariant 0 < i < |cpus| ==> cpus[i] != Succ(cpus[i - 1])
    {
      NewRun(cpus, i);
      var start := cpus[i];
      var end;
      i, end := ExtendRun(cpus, i, runs);
      parts := PushPart(parts, start, end, runs);
      runs := runs + [Run(start, end)];
      i := i + 1;
    }
  }

  lemma NewRun(v: seq<nat>, i: nat)
    requires i < |v| && (0 < i ==> v[i] != Succ(v[i - 1]))
    ensures ListRuns(v, i + 1) == ListRuns(v, i) + [Run(v[i], v[i])]
  {
  }

  method FmtCpus(cpus: seq<nat>) returns (text: string)
    ensures text == Formatted(cpus)
  {
    if cpus == [] {
      return "0";
    }
    var parts := FormatParts(cpus);
    JoinPrinted(ListRuns(cpus, |cpus|));
    text := Join(parts, ",");
  }
}
