/**
 The userspace steps of Interleaving.dfy, run without a kernel step in between, amount to the
 operations of src/main.rs as EventMode.dfy states and implements them: the fine-grained
 program is the real one.
 */
module Atomicity {
  import opened Strings
  import opened Config
  import opened Whitelist
  import opened ProcCaches
  import opened ProcScan
  import opened EventMode
  import opened Interleaving
  import A = AutoCache

  /** The answer userspace gets next, when exactly the threads in `live` are alive. */
  function NextAnswer(s: State, live: set<int>): Choice {
    if s.pc.Binding? then Answer(s.pc.tid !in live) else Pop
  }

  /** One step, unless userspace is idle. */
  function Onward(s: State, live: set<int>): State {
    if s.pc.Idle? then s else UserStep(s, NextAnswer(s, live))
  }

  function Iterate(f: State -> State, s: State, n: nat): State
    decreases n
  {
    if n == 0 then s else Iterate(f, f(s), n - 1)
  }

  lemma {:induction false} IterateCompose(f: State -> State, s: State, a: nat, b: nat)
    ensures Iterate(f, s, a + b) == Iterate(f, Iterate(f, s, a), b)
    decreases a
  {
    if a > 0 { IterateCompose(f, f(s), a - 1, b); }
  }

  /** Userspace runs on by itself until it is idle. */
  function Alone(s: State, live: set<int>, fuel: nat): State {
    Iterate(st => Onward(st, live), s, fuel)
  }

  /** The state with its two written parts replaced. */
  function WithSide(s: State, side: Side, pc: Pc): State {
    s.(cache := side.cache, applied := side.applied, pc := pc)
  }

  function SideOf(s: State): Side { Side(s.cache, s.applied) }

  lemma AloneStep(s: State, live: set<int>, fuel: nat)
    requires !s.pc.Idle?
    ensures Alone(s, live, fuel + 1) == Alone(UserStep(s, NextAnswer(s, live)), live, fuel)
  {
  }

  lemma AloneCompose(s: State, live: set<int>, a: nat, b: nat)
    ensures Alone(s, live, a + b) == Alone(Alone(s, live, a), live, b)
  {
    IterateCompose(st => Onward(st, live), s, a, b);
  }

  // ----- Binding one thread -----

  /** From the decision to the end of `task_apply`. */
  lemma BegunAlone(s: State, cache: Cache, tid: int, d: Decision, rest: seq<Item>, live: set<int>) returns (fuel: nat)
    ensures fuel <= 3
    ensures Alone(Begun(s, cache, tid, d, rest), live, fuel)
         == WithSide(s, Bound(Side(cache, s.applied), tid, d, tid !in live), After(rest))
  {
    var s1 := Begun(s, cache, tid, d, rest);
    match d
    case Unmatched => fuel := 0;
    case KeepOld => fuel := 0;
    case Bind(entry) =>
      var s2 := UserStep(s1, NextAnswer(s1, live));
      if tid !in live {
        fuel := 1;
        AloneStep(s1, live, 0);
      } else {
        fuel := 3;
        var s3 := UserStep(s2, Pop);
        var s4 := UserStep(s3, Pop);
        AloneStep(s1, live, 2);
        AloneStep(s2, live, 1);
        AloneStep(s3, live, 0);
        assert s4.cache.tasks == cache.tasks[tid := entry];
      }
  }

  // ----- Removing threads from the applied map -----

  lemma {:induction false} UnpublishAlone(s: State, tids: seq<int>, rest: seq<Item>, live: set<int>) returns (fuel: nat)
    requires s.pc == Unpublishing(tids, rest)
    ensures Alone(s, live, fuel) == s.(applied := s.applied - Elems(tids), pc := After(rest))
    decreases |tids|
  {
    var s' := UserStep(s, Pop);
    if tids == [] {
      fuel := 1;
      AloneStep(s, live, 0);
      assert s.applied - Elems(tids) == s.applied;
    } else {
      var f := UnpublishAlone(s', tids[1..], rest, live);
      fuel := f + 1;
      AloneStep(s, live, f);
      assert tids == [tids[0]] + tids[1..];
      assert Elems(tids) == {tids[0]} + Elems(tids[1..]);
      assert s.applied - Elems(tids) == (s.applied - {tids[0]}) - Elems(tids[1..]);
    }
  }

  // ----- One event -----

  lemma EventAlone(s: State, cache: Cache, e: Event, trustComm: bool, live: set<int>) returns (fuel: nat)
    requires LookedUp(cache, e.pid, CommStr(e.comm), s.cfg).Some?
    ensures Alone(EventBegun(s, cache, e, trustComm), live, fuel)
         == WithSide(s, EventApplied(Side(cache, s.applied), e, s.cfg, trustComm, e.tid !in live), Idle)
  {
    var comm := CommStr(e.comm);
    var (pkg, htr) := LookedUp(cache, e.pid, comm, s.cfg).value;
    var c := AfterLookup(cache, e.pid, comm, s.cfg);
    fuel := BegunAlone(s, c, e.tid, Decide(c, e.tid, e.pid, pkg, comm, htr, trustComm, s.cfg), [], live);
  }

  lemma DispatchingAlone(s: State, live: set<int>) returns (fuel: nat)
    requires s.pc.Got?
    ensures Alone(Dispatching(s, s.pc.e), live, fuel)
         == WithSide(s, Dispatched(SideOf(s), s.pc.e, s.cfg, s.pc.e.tid !in live), Idle)
  {
    var e := s.pc.e;
    var without := s.cache.(pkgs := s.cache.pkgs - {e.pid});
    var s1 := Dispatching(s, e);
    assert Elems([e.tid]) == {e.tid};
    match e.kind
    case Exit => fuel := UnpublishAlone(s1, [e.tid], [], live);
    case Exec =>
      if LookedUp(without, e.pid, CommStr(e.comm), s.cfg).Some? {
        fuel := EventAlone(s, without, e, true, live);
      } else {
        fuel := UnpublishAlone(s1, [e.tid], [], live);
      }
    case Fork =>
      if LookedUp(s.cache, e.pid, CommStr(e.comm), s.cfg).Some? {
        fuel := EventAlone(s, s.cache, e, e.tid == e.pid, live);
      } else {
        fuel := 0;
      }
    case Rename =>
      if LookedUp(s.cache, e.pid, CommStr(e.comm), s.cfg).Some? {
        fuel := EventAlone(s, s.cache, e, true, live);
      } else {
        fuel := 0;
      }
    case OtherKind => fuel := 0;
  }

  /** The steps for one popped event amount to `event_dispatch`. */
  lemma AloneIsDispatched(s: State, live: set<int>) returns (fuel: nat)
    requires s.pc.Got?
    ensures Alone(s, live, fuel) == WithSide(s, Dispatched(SideOf(s), s.pc.e, s.cfg, s.pc.e.tid !in live), Idle)
  {
    var f := DispatchingAlone(s, live);
    fuel := f + 1;
    AloneStep(s, live, f);
  }

  // ----- The sweep -----

  function Answers(order: seq<int>, live: set<int>): seq<Choice> {
    if order == [] then [] else [AnswerFor(order[0], order[0] !in live)] + Answers(order[1..], live)
  }

  function UserRun(s: State, cs: seq<Choice>): State
    decreases |cs|
  {
    if cs == [] then s else UserRun(UserStep(s, cs[0]), cs[1..])
  }

  function DeadIn(order: seq<int>, live: set<int>): seq<int> {
    if order == [] then []
    else if order[0] in live then DeadIn(order[1..], live)
    else [order[0]] + DeadIn(order[1..], live)
  }

  lemma {:induction false} DeadInMembers(order: seq<int>, live: set<int>)
    ensures Elems(DeadIn(order, live)) == Elems(order) - live
  {
    if order != [] {
      assert order == [order[0]] + order[1..];
      DeadInMembers(order[1..], live);
      assert Elems(order) == {order[0]} + Elems(order[1..]);
      var rest := DeadIn(order[1..], live);
      assert Elems([order[0]] + rest) == {order[0]} + Elems(rest);
    }
  }

  lemma {:induction false} SweepAsksOne(s: State, tid: int, rest: seq<int>, live: set<int>)
    requires s.pc.Sweeping? && s.pc.todo == Elems([tid] + rest) && tid !in rest
    ensures UserStep(s, AnswerFor(tid, tid !in live))
         == s.(pc := Sweeping(Elems(rest), if tid in live then s.pc.dead else s.pc.dead + [tid]))
  {
    assert ([tid] + rest)[0] == tid && tid in Elems([tid] + rest);
    assert Elems([tid] + rest) - {tid} == Elems(rest);
  }

  lemma {:induction false} DeadInCons(tid: int, rest: seq<int>, live: set<int>, dead: seq<int>)
    ensures dead + DeadIn([tid] + rest, live) == (if tid in live then dead else dead + [tid]) + DeadIn(rest, live)
  {
    assert ([tid] + rest)[1..] == rest;
  }

  lemma {:induction false} UserRunCons(s: State, tid: int, rest: seq<int>, live: set<int>)
    ensures UserRun(s, Answers([tid] + rest, live)) == UserRun(UserStep(s, AnswerFor(tid, tid !in live)), Answers(rest, live))
  {
    var cs := Answers([tid] + rest, live);
    assert ([tid] + rest)[1..] == rest;
    assert cs[0] == AnswerFor(tid, tid !in live) && cs[1..] == Answers(rest, live);
  }

  /** The questions of a sweep, in any order. */
  lemma {:induction false} SweepAsks(s: State, order: seq<int>, live: set<int>)
    requires s.pc.Sweeping? && s.pc.todo == Elems(order)
    requires forall i, j :: 0 <= i < j < |order| ==> order[i] != order[j]
    ensures UserRun(s, Answers(order, live)) == s.(pc := Sweeping({}, s.pc.dead + DeadIn(order, live)))
    decreases |order|
  {
    if order == [] {
      assert Elems(order) == {};
      assert s.pc.dead + [] == s.pc.dead;
    } else {
      var tid, rest := order[0], order[1..];
      assert order == [tid] + rest;
      SweepAsksOne(s, tid, rest, live);
      UserRunCons(s, tid, rest, live);
      DeadInCons(tid, rest, live, s.pc.dead);
      SweepAsks(UserStep(s, AnswerFor(tid, tid !in live)), rest, live);
    }
  }

  /** The end of a sweep: the dead are deleted and leave the applied map. */
  lemma SweepEnds(s: State, dead: seq<int>, live: set<int>) returns (fuel: nat)
    requires s.pc == Sweeping({}, dead)
    ensures Alone(s, live, fuel) == WithSide(s, Side(Cleaned(s.cache, Elems(dead)), s.applied - Elems(dead)), Idle)
  {
    DeletionOrderIrrelevant(s.cache, dead);
    var s1 := UserStep(s, Pop);
    var f := UnpublishAlone(s1, dead, [], live);
    fuel := f + 1;
    AloneStep(s, live, f);
  }

  /** The steps of a sweep, whatever the order of its questions, amount to `affinity_sync` and
      the removal of the dead threads from the applied map. */
  lemma AloneIsSwept(s: State, order: seq<int>, live: set<int>) returns (fuel: nat)
    requires s.pc == Sweeping(s.cache.tasks.Keys, [])
    requires Elems(order) == s.cache.tasks.Keys && forall i, j :: 0 <= i < j < |order| ==> order[i] != order[j]
    ensures Alone(UserRun(s, Answers(order, live)), live, fuel)
         == WithSide(s, Side(Swept(s.cache, live), s.applied - (s.cache.tasks.Keys - live)), Idle)
  {
    var dead := DeadIn(order, live);
    SweepAsks(s, order, live);
    DeadInMembers(order, live);
    assert [] + dead == dead;
    fuel := SweepEnds(s.(pc := Sweeping({}, dead)), dead, live);
  }

  // ----- The full scan -----

  lemma ItemAlone(s: State, item: Item, rest: seq<Item>, live: set<int>) returns (fuel: nat)
    ensures Alone(ItemBegun(s, item, rest), live, fuel) == WithSide(s, ItemDone(SideOf(s), item, s.cfg, live), After(rest))
  {
    match item
    case BindItem(tid, pid, pkg, comm, htr) =>
      fuel := BegunAlone(s, s.cache, tid, Decide(s.cache, tid, pid, pkg, comm, htr, true, s.cfg), rest, live);
    case PkgItem(pid, pkg, htr) =>
      fuel := 0;
  }

  lemma ItemsDoneHead(side: Side, items: seq<Item>, cfg: AppConfig, live: set<int>)
    requires items != []
    ensures ItemsDone(side, items, cfg, live) == ItemsDone(ItemDone(side, items[0], cfg, live), items[1..], cfg, live)
  {
    assert items == [items[0]] + items[1..];
    assert [] + [items[0]] == [items[0]];
    ItemsDoneSnoc(side, [], items[0], cfg, live);
    ItemsDoneAppend(side, [items[0]], items[1..], cfg, live);
  }

  /** The steps for the first item of what is left. */
  lemma FirstItemAlone(s: State, items: seq<Item>, live: set<int>) returns (fuel: nat)
    requires items != [] && s.pc == After(items)
    ensures Alone(s, live, fuel) == WithSide(s, ItemDone(SideOf(s), items[0], s.cfg, live), After(items[1..]))
  {
    var k := ItemAlone(s, items[0], items[1..], live);
    fuel := k + 1;
    ScanningStep(s, items, live);
    AloneStep(s, live, k);
  }

  lemma ScanningStep(s: State, items: seq<Item>, live: set<int>)
    requires items != [] && s.pc == After(items)
    ensures !s.pc.Idle? && UserStep(s, NextAnswer(s, live)) == ItemBegun(s, items[0], items[1..])
  {
  }

  lemma {:induction false} ScanAlone(s: State, items: seq<Item>, live: set<int>) returns (fuel: nat)
    requires s.pc == After(items)
    ensures Alone(s, live, fuel) == WithSide(s, ItemsDone(SideOf(s), items, s.cfg, live), Idle)
    decreases |items|
  {
    if items == [] {
      fuel := 0;
    } else {
      var k := FirstItemAlone(s, items, live);
      var s2 := WithSide(s, ItemDone(SideOf(s), items[0], s.cfg, live), After(items[1..]));
      var f := ScanAlone(s2, items[1..], live);
      fuel := k + f;
      AloneCompose(s, live, k, f);
      ItemsDoneHead(SideOf(s), items, s.cfg, live);
    }
  }

  /** The steps of a full scan, with or without a reload before it, amount to `full_scan`. */
  lemma AloneIsFullScanned(s: State, reload: A.Reload, stale: seq<int>, snap: Option<Snapshot>, live: set<int>)
    returns (fuel: nat)
    requires s.pc == Idle && s.applied.Keys <= Elems(stale)
    ensures Alone(UserStep(s, StartScan(reload, stale, snap)), live, fuel)
         == (var cfg := A.Reloaded(s.cfg, reload); WithSide(s.(cfg := cfg), FullScanned(snap, cfg, live), Idle))
  {
    var cfg := A.Reloaded(s.cfg, reload);
    var items := ScanItems(snap, cfg);
    var loading := UserStep(s, StartScan(reload, stale, snap));
    var k := UnpublishAlone(loading, stale, items, live);
    var cleared := loading.(applied := map[], pc := After(items));
    assert loading.applied - Elems(stale) == map[];
    var f := ScanAlone(cleared, items, live);
    fuel := k + f;
    AloneCompose(loading, live, k, f);
  }
}
