/**
 src/main.rs, eBPF mode, and the map operations of src/bpf.rs: what userspace does with one
 kernel event and with a full scan, taken alone. Interleaving.dfy lets the kernel run in
 between.
 */
module EventMode {
  import opened Strings
  import opened Config
  import opened RuleMatch
  import opened Whitelist
  import opened Threads
  import opened ProcCaches
  import opened ProcScan
  import A = AutoCache

  datatype EventKind = Fork | Exec | Rename | Exit | OtherKind

  /** `comm` holds the 16 raw bytes. */
  datatype Event = Event(kind: EventKind, pid: int, tid: int, comm: string)

  // ----- The BPF maps -----

  /** The part of a mask that fits the map's 64-bit value. */
  function FirstWord(cpus: set<nat>): set<nat> {
    set cpu | cpu in cpus && cpu < 64
  }

  class BpfMaps {
    var target: map<string, nat>
    var applied: map<int, set<nat>>

    constructor ()
      ensures target == map[] && applied == map[]
    {
      target, applied := map[], map[];
    }

    /** Replaces the whitelist by the keys of `pkgs`, unless they do not fit. */
    method CommMapInit(pkgs: seq<string>, capacity: nat) returns (short: bool)
      modifies this`target
      ensures short <==> |KeySet(pkgs)| > capacity
      ensures |pkgs| <= capacity / 2 ==> !short
      ensures |pkgs| <= 4096 && capacity == MAP_CAPACITY ==> !short
      ensures target.Keys == if short then old(target).Keys else KeySet(pkgs)
      ensures short ==> target == old(target)
    {
      var entries := CommKeysBuild(pkgs);
      if |entries| > capacity {
        return true;
      }
      TargetClear();
      TargetFill(entries);
      SameMembers(target.Keys, entries, KeySet(pkgs));
      short := false;
    }

    /** The first loop of `comm_map_init`. */
    method TargetClear()
      modifies this`target
      ensures target == map[]
    {
      var oldKeys := target.Keys;
      while oldKeys != {}
        invariant target.Keys == oldKeys
      {
        ghost var w := Member(oldKeys);
        var k :| k in oldKeys;
        target := target - {k};
        oldKeys := oldKeys - {k};
      }
    }

    /** The second loop of `comm_map_init`. */
    method TargetFill(entries: seq<string>)
      requires target == map[]
      modifies this`target
      ensures forall k :: k in target.Keys <==> k in entries
    {
      for i := 0 to |entries|
        invariant forall k :: k in target.Keys <==> k in entries[..i]
      {
        assert entries[..i + 1] == entries[..i] + [entries[i]];
        target := target[entries[i] := 1];
      }
      assert entries[..|entries|] == entries;
    }

    method AppliedSet(tid: int, bits: set<nat>)
      modifies this`applied
      ensures applied == old(applied)[tid := bits]
    {
      applied := applied[tid := bits];
    }

    method AppliedDel(tid: int)
      modifies this`applied
      ensures applied == old(applied) - {tid}
    {
      applied := applied - {tid};
    }

    method AppliedClear()
      modifies this`applied
      ensures applied == map[]
    {
      var keys := applied.Keys;
      while keys != {}
        invariant applied.Keys == keys
      {
        ghost var w := Member(keys);
        var k :| k in keys;
        applied := applied - {k};
        keys := keys - {k};
      }
    }
  }

  lemma SameMembers(keys: set<string>, entries: seq<string>, want: set<string>)
    requires forall k :: k in keys <==> k in entries
    requires forall k :: k in entries <==> k in want
    ensures keys == want
  {
    forall k ensures k in keys <==> k in want {}
  }

  // ----- One event, as a function -----

  /** The cache and the applied map, the two things userspace writes. */
  datatype Side = Side(cache: Cache, applied: map<int, set<nat>>)

  /** Binding a thread as decided; `dead` is the answer of `affinity_set`. */
  function Bound(s: Side, tid: int, d: Decision, dead: bool): Side {
    Side(Decided(s.cache, tid, d, dead),
         if d.Bind? && !dead then s.applied[tid := FirstWord(d.entry.cpus)] else s.applied)
  }

  /** `event_apply`, for a package that was found. */
  function EventApplied(s: Side, e: Event, cfg: AppConfig, trustComm: bool, dead: bool): Side
    requires LookedUp(s.cache, e.pid, CommStr(e.comm), cfg).Some?
  {
    var comm := CommStr(e.comm);
    var (pkg, htr) := LookedUp(s.cache, e.pid, comm, cfg).value;
    var c := AfterLookup(s.cache, e.pid, comm, cfg);
    Bound(s.(cache := c), e.tid, Decide(c, e.tid, e.pid, pkg, comm, htr, trustComm, cfg), dead)
  }

  function Forgotten(s: Side, tid: int): Side {
    Side(TaskDeleted(s.cache, tid), s.applied - {tid})
  }

  function WithoutPkg(s: Side, pid: int): Side {
    s.(cache := s.cache.(pkgs := s.cache.pkgs - {pid}))
  }

  predicate Resolved(s: Side, e: Event, cfg: AppConfig) {
    LookedUp(s.cache, e.pid, CommStr(e.comm), cfg).Some?
  }

  /** `event_dispatch` */
  function Dispatched(s: Side, e: Event, cfg: AppConfig, dead: bool): Side {
    match e.kind
    case Exit =>
      Forgotten(if e.tid == e.pid then WithoutPkg(s, e.pid) else s, e.tid)
    case Exec =>
      var s0 := WithoutPkg(s, e.pid);
      if Resolved(s0, e, cfg) then EventApplied(s0, e, cfg, true, dead) else Forgotten(s0, e.tid)
    case Fork =>
      if Resolved(s, e, cfg) then EventApplied(s, e, cfg, e.tid == e.pid, dead) else s
    case Rename =>
      if Resolved(s, e, cfg) then EventApplied(s, e, cfg, true, dead) else s
    case OtherKind => s
  }

  // ----- Latching -----

  /** The binding step of an event finds the thread dead. */
  predicate FoundDead(s: Side, e: Event, cfg: AppConfig, trustComm: bool, dead: bool) {
    && dead && Resolved(s, e, cfg)
    && var comm := CommStr(e.comm);
       var (pkg, htr) := LookedUp(s.cache, e.pid, comm, cfg).value;
       Decide(AfterLookup(s.cache, e.pid, comm, cfg), e.tid, e.pid, pkg, comm, htr, trustComm, cfg).Bind?
  }

  /** The event removes the thread's entry: an exit, an exec to an unknown package, or a
      binding step that finds the thread dead. */
  predicate Removes(s: Side, e: Event, cfg: AppConfig, dead: bool, tid: int) {
    && e.tid == tid
    && match e.kind
       case Exit => true
       case Exec => !Resolved(WithoutPkg(s, e.pid), e, cfg) || FoundDead(WithoutPkg(s, e.pid), e, cfg, true, dead)
       case Fork => FoundDead(s, e, cfg, e.tid == e.pid, dead)
       case Rename => FoundDead(s, e, cfg, true, dead)
       case OtherKind => false
  }

  predicate Latched(s: Side, tid: int) {
    tid in s.cache.tasks && s.cache.tasks[tid].isThreadRule
  }

  lemma EventAppliedLatches(s: Side, e: Event, cfg: AppConfig, trustComm: bool, dead: bool, tid: int)
    requires Latched(s, tid) && Resolved(s, e, cfg)
    ensures var s' := EventApplied(s, e, cfg, trustComm, dead);
            && (tid in s'.cache.tasks <==> !(e.tid == tid && FoundDead(s, e, cfg, trustComm, dead)))
            && (tid in s'.cache.tasks ==> Latched(s', tid))
  {
  }

  /** One event either leaves a thread-rule binding a thread-rule binding, or removes it, and the
      latter exactly in the three ways of `Removes`. */
  lemma DispatchLatches(s: Side, e: Event, cfg: AppConfig, dead: bool, tid: int)
    requires Latched(s, tid)
    ensures var s' := Dispatched(s, e, cfg, dead);
            && (tid in s'.cache.tasks <==> !Removes(s, e, cfg, dead, tid))
            && (tid in s'.cache.tasks ==> Latched(s', tid))
  {
    var s0 := WithoutPkg(s, e.pid);
    match e.kind
    case Exit =>
    case Exec => if Resolved(s0, e, cfg) { EventAppliedLatches(s0, e, cfg, true, dead, tid); }
    case Fork => if Resolved(s, e, cfg) { EventAppliedLatches(s, e, cfg, e.tid == e.pid, dead, tid); }
    case Rename => if Resolved(s, e, cfg) { EventAppliedLatches(s, e, cfg, true, dead, tid); }
    case OtherKind =>
  }

  /** A queue of events, each with the configuration and the liveness answer it meets. */
  datatype Input = Input(event: Event, cfg: AppConfig, dead: bool)

  function DispatchedAll(s: Side, inputs: seq<Input>): Side
    decreases |inputs|
  {
    if inputs == [] then s
    else DispatchedAll(Dispatched(s, inputs[0].event, inputs[0].cfg, inputs[0].dead), inputs[1..])
  }

  /** Some event of the queue removes the thread's entry. */
  predicate RemovedIn(s: Side, inputs: seq<Input>, tid: int)
    decreases |inputs|
  {
    inputs != [] &&
    (|| Removes(s, inputs[0].event, inputs[0].cfg, inputs[0].dead, tid)
     || RemovedIn(Dispatched(s, inputs[0].event, inputs[0].cfg, inputs[0].dead), inputs[1..], tid))
  }

  /** Over any sequence of events a thread-rule binding stays one until it is removed. */
  lemma {:induction false} BindingLatches(s: Side, inputs: seq<Input>, tid: int)
    requires Latched(s, tid) && !RemovedIn(s, inputs, tid)
    ensures Latched(DispatchedAll(s, inputs), tid)
    decreases |inputs|
  {
    if inputs != [] {
      var i := inputs[0];
      DispatchLatches(s, i.event, i.cfg, i.dead, tid);
      BindingLatches(Dispatched(s, i.event, i.cfg, i.dead), inputs[1..], tid);
    }
  }

  // ----- A full scan, as a function -----

  /** One thing a full scan does. */
  datatype Item =
    | BindItem(tid: int, pid: int, pkg: string, comm: string, hasThreadRules: bool)
    | PkgItem(pid: int, pkg: string, hasThreadRules: bool)

  function ThreadItem(snap: Snapshot, p: ProcInfo, tid: int, cfg: AppConfig): Item
    requires PkgOf(p).Some?
  {
    var (pkg, htr) := ScanFlag(p, cfg);
    BindItem(tid, p.pid, pkg, ScanName(snap, tid, htr), htr)
  }

  /** A process to bind: its threads, then its package. */
  function ItemsOf(snap: Snapshot, p: ProcInfo, cfg: AppConfig): (items: seq<Item>)
    requires Target(p, cfg)
    ensures |items| == |p.tids.value| + 1 && items[|p.tids.value|] == PkgItem(p.pid, ScanFlag(p, cfg).0, ScanFlag(p, cfg).1)
    ensures forall i :: 0 <= i < |p.tids.value| ==> items[i] == ThreadItem(snap, p, p.tids.value[i], cfg)
  {
    seq(|p.tids.value|, i requires 0 <= i < |p.tids.value| => ThreadItem(snap, p, p.tids.value[i], cfg))
    + [PkgItem(p.pid, ScanFlag(p, cfg).0, ScanFlag(p, cfg).1)]
  }

  /** The items of the first `n` entries of `/proc`. */
  function ProcItems(snap: Snapshot, n: nat, cfg: AppConfig): seq<Item>
    requires n <= |snap.procs|
  {
    if n == 0 then []
    else if Target(snap.procs[n - 1], cfg) then ProcItems(snap, n - 1, cfg) + ItemsOf(snap, snap.procs[n - 1], cfg)
    else ProcItems(snap, n - 1, cfg)
  }

  /** All a full scan has to do; nothing if `/proc` cannot be read. */
  function ScanItems(snap: Option<Snapshot>, cfg: AppConfig): seq<Item> {
    if snap.None? then [] else ProcItems(snap.value, |snap.value.procs|, cfg)
  }

  function ItemDone(s: Side, item: Item, cfg: AppConfig, live: set<int>): Side {
    match item
    case BindItem(tid, pid, pkg, comm, htr) =>
      Bound(s, tid, Decide(s.cache, tid, pid, pkg, comm, htr, true, cfg), tid !in live)
    case PkgItem(pid, pkg, htr) => s.(cache := s.cache.(pkgs := s.cache.pkgs[pid := (pkg, htr)]))
  }

  function ItemsDone(s: Side, items: seq<Item>, cfg: AppConfig, live: set<int>): Side
    decreases |items|
  {
    if items == [] then s else ItemDone(ItemsDone(s, items[..|items| - 1], cfg, live), items[|items| - 1], cfg, live)
  }

  /** `full_scan`: from nothing, one item after the other. */
  function FullScanned(snap: Option<Snapshot>, cfg: AppConfig, live: set<int>): Side {
    ItemsDone(Side(EMPTY, map[]), ScanItems(snap, cfg), cfg, live)
  }

  lemma ItemsDoneSnoc(s: Side, items: seq<Item>, item: Item, cfg: AppConfig, live: set<int>)
    ensures ItemsDone(s, items + [item], cfg, live) == ItemDone(ItemsDone(s, items, cfg, live), item, cfg, live)
  {
    assert (items + [item])[..|items|] == items;
  }

  lemma {:induction false} ItemsDoneAppend(s: Side, a: seq<Item>, b: seq<Item>, cfg: AppConfig, live: set<int>)
    ensures ItemsDone(s, a + b, cfg, live) == ItemsDone(ItemsDone(s, a, cfg, live), b, cfg, live)
    decreases |b|
  {
    if b == [] {
      assert a + b == a;
    } else {
      var init, last := b[..|b| - 1], b[|b| - 1];
      assert b == init + [last] && a + b == (a + init) + [last];
      ItemsDoneAppend(s, a, init, cfg, live);
      ItemsDoneSnoc(s, a + init, last, cfg, live);
      ItemsDoneSnoc(ItemsDone(s, a, cfg, live), init, last, cfg, live);
    }
  }

  // ----- Invariants of a run -----

  /** The cached flag is what recomputing it would give. */
  ghost predicate FreshFlags(pkgs: map<int, (string, bool)>, cfg: AppConfig) {
    forall p :: p in pkgs ==> pkgs[p].1 == HasThreadRules(cfg.rules, pkgs[p].0)
  }

  /** A binding's directory is empty or names its mask, and the mask is not empty if any CPU is present. */
  ghost predicate EntryAgrees(e: TaskEntry, present: set<nat>) {
    NamesMask(e.dir, e.cpus) && (present != {} ==> e.cpus != {})
  }

  ghost predicate EntriesAgree(tasks: map<int, TaskEntry>, present: set<nat>) {
    forall t :: t in tasks ==> EntryAgrees(tasks[t], present)
  }

  lemma DecisionAgrees(c: Cache, tid: int, pid: int, pkg: string, comm: string, htr: bool, trust: bool, cfg: AppConfig)
    requires DirsAgree(cfg.rules)
    ensures var d := Decide(c, tid, pid, pkg, comm, htr, trust, cfg);
            d.Bind? ==> EntryAgrees(d.entry, cfg.topo.present)
  {
    AffinityDirNamesMask(pkg, ThreadName(comm, htr, trust), cfg);
  }

  ghost predicate SideOk(s: Side, cfg: AppConfig) {
    FreshFlags(s.cache.pkgs, cfg) && EntriesAgree(s.cache.tasks, cfg.topo.present)
  }

  lemma BoundOk(s: Side, tid: int, d: Decision, dead: bool, cfg: AppConfig)
    requires SideOk(s, cfg) && (d.Bind? ==> EntryAgrees(d.entry, cfg.topo.present))
    ensures SideOk(Bound(s, tid, d, dead), cfg)
  {
  }

  lemma LookupOk(s: Side, pid: int, comm: string, cfg: AppConfig)
    requires SideOk(s, cfg)
    ensures SideOk(s.(cache := AfterLookup(s.cache, pid, comm, cfg)), cfg)
    ensures var r := LookedUp(s.cache, pid, comm, cfg);
            r.Some? ==> r.value.1 == HasThreadRules(cfg.rules, r.value.0)
  {
  }

  lemma ForgottenOk(s: Side, tid: int, cfg: AppConfig)
    requires SideOk(s, cfg)
    ensures SideOk(Forgotten(s, tid), cfg)
  {
  }

  lemma EventAppliedOk(s: Side, e: Event, cfg: AppConfig, trustComm: bool, dead: bool)
    requires SideOk(s, cfg) && DirsAgree(cfg.rules) && Resolved(s, e, cfg)
    ensures SideOk(EventApplied(s, e, cfg, trustComm, dead), cfg)
  {
    var comm := CommStr(e.comm);
    var (pkg, htr) := LookedUp(s.cache, e.pid, comm, cfg).value;
    var c := AfterLookup(s.cache, e.pid, comm, cfg);
    LookupOk(s, e.pid, comm, cfg);
    DecisionAgrees(c, e.tid, e.pid, pkg, comm, htr, trustComm, cfg);
    BoundOk(s.(cache := c), e.tid, Decide(c, e.tid, e.pid, pkg, comm, htr, trustComm, cfg), dead, cfg);
  }

  lemma DispatchedOk(s: Side, e: Event, cfg: AppConfig, dead: bool)
    requires SideOk(s, cfg) && DirsAgree(cfg.rules)
    ensures SideOk(Dispatched(s, e, cfg, dead), cfg)
  {
    var s0 := WithoutPkg(s, e.pid);
    ForgottenOk(s, e.tid, cfg);
    ForgottenOk(s0, e.tid, cfg);
    if Resolved(s0, e, cfg) { EventAppliedOk(s0, e, cfg, true, dead); }
    if Resolved(s, e, cfg) {
      EventAppliedOk(s, e, cfg, true, dead);
      EventAppliedOk(s, e, cfg, e.tid == e.pid, dead);
    }
  }

  /** What a scan has to do carries fresh flags. */
  ghost predicate ItemsOk(items: seq<Item>, cfg: AppConfig) {
    forall i :: 0 <= i < |items| ==> items[i].hasThreadRules == HasThreadRules(cfg.rules, items[i].pkg)
  }

  lemma ItemsOkAppend(a: seq<Item>, b: seq<Item>, cfg: AppConfig)
    requires ItemsOk(a, cfg) && ItemsOk(b, cfg)
    ensures ItemsOk(a + b, cfg)
  {
  }

  lemma ItemsOfOk(snap: Snapshot, p: ProcInfo, cfg: AppConfig)
    requires Target(p, cfg)
    ensures ItemsOk(ItemsOf(snap, p, cfg), cfg)
  {
  }

  lemma {:induction false} ProcItemsOk(snap: Snapshot, n: nat, cfg: AppConfig)
    requires n <= |snap.procs|
    ensures ItemsOk(ProcItems(snap, n, cfg), cfg)
  {
    if n > 0 {
      ProcItemsOk(snap, n - 1, cfg);
      var p := snap.procs[n - 1];
      if Target(p, cfg) {
        ItemsOfOk(snap, p, cfg);
        ItemsOkAppend(ProcItems(snap, n - 1, cfg), ItemsOf(snap, p, cfg), cfg);
      }
    }
  }

  lemma ItemDoneOk(s: Side, item: Item, cfg: AppConfig, live: set<int>)
    requires SideOk(s, cfg) && DirsAgree(cfg.rules) && ItemsOk([item], cfg)
    ensures SideOk(ItemDone(s, item, cfg, live), cfg)
  {
    match item
    case BindItem(tid, pid, pkg, comm, htr) =>
      DecisionAgrees(s.cache, tid, pid, pkg, comm, htr, true, cfg);
      BoundOk(s, tid, Decide(s.cache, tid, pid, pkg, comm, htr, true, cfg), tid !in live, cfg);
    case PkgItem(_, _, _) => assert [item][0] == item;
  }

  lemma {:induction false} ItemsDoneOk(s: Side, items: seq<Item>, cfg: AppConfig, live: set<int>)
    requires SideOk(s, cfg) && DirsAgree(cfg.rules) && ItemsOk(items, cfg)
    ensures SideOk(ItemsDone(s, items, cfg, live), cfg)
    decreases |items|
  {
    if items != [] {
      var init, last := items[..|items| - 1], items[|items| - 1];
      ItemsDoneOk(s, init, cfg, live);
      ItemDoneOk(ItemsDone(s, init, cfg, live), last, cfg, live);
    }
  }

  lemma FullScannedOk(snap: Option<Snapshot>, cfg: AppConfig, live: set<int>)
    requires DirsAgree(cfg.rules)
    ensures SideOk(FullScanned(snap, cfg, live), cfg)
  {
    if snap.Some? { ProcItemsOk(snap.value, |snap.value.procs|, cfg); }
    ItemsDoneOk(Side(EMPTY, map[]), ScanItems(snap, cfg), cfg, live);
  }

  // ----- Whole runs of eBPF mode -----

  /** One turn of the loop: an event, the periodic sweep, or a full scan, with the configuration
      reloaded before it or not. */
  datatype Turn =
    | OnEvent(event: Event, dead: bool)
    | OnSweep(live: set<int>)
    | OnScan(reload: A.Reload, snap: Option<Snapshot>, live: set<int>)

  datatype Loop = Loop(cfg: AppConfig, side: Side)

  /** The loop as it is entered. */
  function Begin(st: A.Start): Loop {
    Loop(A.StartConfig(st), Side(EMPTY, map[]))
  }

  function Turned(l: Loop, t: Turn): (l': Loop)
    ensures l'.cfg.topo == l.cfg.topo
  {
    match t
    case OnEvent(e, dead) => l.(side := Dispatched(l.side, e, l.cfg, dead))
    case OnSweep(live) => l.(side := Side(Swept(l.side.cache, live), l.side.applied - (l.side.cache.tasks.Keys - live)))
    case OnScan(reload, snap, live) =>
      var cfg := A.Reloaded(l.cfg, reload);
      Loop(cfg, FullScanned(snap, cfg, live))
  }

  function TurnedAll(l: Loop, ts: seq<Turn>): Loop
    decreases |ts|
  {
    if ts == [] then l else TurnedAll(Turned(l, ts[0]), ts[1..])
  }

  ghost predicate LoopOk(l: Loop) {
    SideOk(l.side, l.cfg) && DirsAgree(l.cfg.rules)
  }

  lemma TurnedOk(l: Loop, t: Turn)
    requires LoopOk(l)
    ensures LoopOk(Turned(l, t))
  {
    match t
    case OnEvent(e, dead) => DispatchedOk(l.side, e, l.cfg, dead);
    case OnSweep(live) =>
    case OnScan(reload, snap, live) =>
      A.ReloadedDirsAgree(l.cfg, reload);
      FullScannedOk(snap, A.Reloaded(l.cfg, reload), live);
  }

  lemma {:induction false} TurnedAllOk(l: Loop, ts: seq<Turn>)
    requires LoopOk(l)
    ensures LoopOk(TurnedAll(l, ts)) && TurnedAll(l, ts).cfg.topo == l.cfg.topo
    decreases |ts|
  {
    if ts != [] {
      TurnedOk(l, ts[0]);
      TurnedAllOk(Turned(l, ts[0]), ts[1..]);
    }
  }

  /** At every point of every run, whatever the files hold, cached flags are fresh and each
      binding's directory agrees with its mask. */
  lemma RunOk(st: A.Start, ts: seq<Turn>)
    ensures var end := TurnedAll(Begin(st), ts); LoopOk(end) && end.cfg.topo == st.topo
  {
    A.StartDirsAgree(st);
    TurnedAllOk(Begin(st), ts);
  }

  /** So a lookup hit gives the same flag as recomputing it, at any point of any run. */
  lemma LookupHitIsFresh(st: A.Start, ts: seq<Turn>, pid: int, comm: string)
    ensures var end := TurnedAll(Begin(st), ts);
            var r := LookedUp(end.side.cache, pid, comm, end.cfg);
            r.Some? ==> r.value.1 == HasThreadRules(end.cfg.rules, r.value.0)
  {
    var end := TurnedAll(Begin(st), ts);
    RunOk(st, ts);
    LookupOk(end.side, pid, comm, end.cfg);
  }

  // ----- The methods -----

  /** `task_apply` with the closure of eBPF mode: bind the thread, then publish it. */
  method TaskApply(pc: ProcCache, bpf: BpfMaps, threads: ThreadTable, tid: int, pid: int, pkg: string, comm: string,
                   hasThreadRules: bool, cfg: AppConfig, trustComm: bool) returns (ok: bool)
    modifies pc, bpf`applied, threads
    ensures threads.live == old(threads.live)
    ensures var d := Decide(old(pc.Value()), tid, pid, pkg, comm, hasThreadRules, trustComm, cfg);
            && Side(pc.Value(), bpf.applied) == Bound(Side(old(pc.Value()), old(bpf.applied)), tid, d, tid !in threads.live)
            && (ok <==> d.KeepOld? || (d.Bind? && tid in threads.live))
  {
    var d := pc.TaskPrepare(tid, pid, pkg, comm, hasThreadRules, cfg, trustComm);
    if !d.Bind? {
      return d.KeepOld?;
    }
    var dead := threads.AffinitySet(tid, d.entry.cpus, d.entry.dir, cfg.topo);
    if dead {
      return false;
    }
    bpf.AppliedSet(tid, FirstWord(d.entry.cpus));
    pc.tasks := pc.tasks[tid := d.entry];
    assert pc.tasks == old(pc.tasks)[tid := d.entry];
    ok := true;
  }

  method EventApply(pc: ProcCache, bpf: BpfMaps, threads: ThreadTable, e: Event, cfg: AppConfig, trustComm: bool) returns (found: bool)
    modifies pc, bpf`applied, threads
    ensures threads.live == old(threads.live)
    ensures found <==> Resolved(Side(old(pc.Value()), old(bpf.applied)), e, cfg)
    ensures var s := Side(old(pc.Value()), old(bpf.applied));
            Side(pc.Value(), bpf.applied) == if found then EventApplied(s, e, cfg, trustComm, e.tid !in threads.live) else s
  {
    var comm := CommStr(e.comm);
    var r := pc.PkgLookupComm(e.pid, comm, cfg);
    if r.None? {
      return false;
    }
    var _ := TaskApply(pc, bpf, threads, e.tid, e.pid, r.value.0, comm, r.value.1, cfg, trustComm);
    found := true;
  }

  method EventDispatch(pc: ProcCache, bpf: BpfMaps, threads: ThreadTable, e: Event, cfg: AppConfig)
    modifies pc, bpf`applied, threads
    ensures threads.live == old(threads.live)
    ensures Side(pc.Value(), bpf.applied) ==
            Dispatched(Side(old(pc.Value()), old(bpf.applied)), e, cfg, e.tid !in threads.live)
  {
    match e.kind
    case Exit =>
      if e.tid == e.pid { pc.pkgs := pc.pkgs - {e.pid}; }
      pc.TaskDel(e.tid);
      bpf.AppliedDel(e.tid);
    case Exec =>
      pc.pkgs := pc.pkgs - {e.pid};
      var found := EventApply(pc, bpf, threads, e, cfg, true);
      if !found {
        pc.TaskDel(e.tid);
        bpf.AppliedDel(e.tid);
      }
    case Fork =>
      var _ := EventApply(pc, bpf, threads, e, cfg, e.tid == e.pid);
    case Rename =>
      var _ := EventApply(pc, bpf, threads, e, cfg, true);
    case OtherKind =>
  }

  /** One thread of a full scan. */
  method ScanThread(pc: ProcCache, bpf: BpfMaps, threads: ThreadTable, snap: Snapshot, p: ProcInfo, tid: int, cfg: AppConfig)
    requires PkgOf(p).Some?
    modifies pc, bpf`applied, threads
    ensures threads.live == old(threads.live)
    ensures Side(pc.Value(), bpf.applied) ==
            ItemDone(Side(old(pc.Value()), old(bpf.applied)), ThreadItem(snap, p, tid, cfg), cfg, threads.live)
  {
    var (pkg, htr) := ScanFlag(p, cfg);
    var _ := TaskApply(pc, bpf, threads, tid, p.pid, pkg, ScanName(snap, tid, htr), htr, cfg, true);
  }

  /** One process of a full scan. */
  method ScanProc(pc: ProcCache, bpf: BpfMaps, threads: ThreadTable, snap: Snapshot, p: ProcInfo, cfg: AppConfig)
    requires Target(p, cfg)
    modifies pc, bpf`applied, threads
    ensures threads.live == old(threads.live)
    ensures Side(pc.Value(), bpf.applied) ==
            ItemsDone(Side(old(pc.Value()), old(bpf.applied)), ItemsOf(snap, p, cfg), cfg, threads.live)
  {
    ghost var side, items, n := Side(pc.Value(), bpf.applied), ItemsOf(snap, p, cfg), |p.tids.value|;
    for i := 0 to |p.tids.value|
      invariant threads.live == old(threads.live)
      invariant Side(pc.Value(), bpf.applied) == ItemsDone(side, items[..i], cfg, threads.live)
    {
      assert items[..i + 1] == items[..i] + [items[i]];
      ItemsDoneSnoc(side, items[..i], items[i], cfg, threads.live);
      ScanThread(pc, bpf, threads, snap, p, p.tids.value[i], cfg);
    }
    assert items == items[..n] + [items[n]];
    ItemsDoneSnoc(side, items[..n], items[n], cfg, threads.live);
    pc.pkgs := pc.pkgs[p.pid := ScanFlag(p, cfg)];
  }

  /** One entry of `/proc` in a full scan. */
  method ScanEntry(pc: ProcCache, bpf: BpfMaps, threads: ThreadTable, snap: Snapshot, i: nat, cfg: AppConfig)
    requires i < |snap.procs|
    requires Side(pc.Value(), bpf.applied) == ItemsDone(Side(EMPTY, map[]), ProcItems(snap, i, cfg), cfg, threads.live)
    modifies pc, bpf`applied, threads
    ensures threads.live == old(threads.live)
    ensures Side(pc.Value(), bpf.applied) == ItemsDone(Side(EMPTY, map[]), ProcItems(snap, i + 1, cfg), cfg, threads.live)
  {
    var p := snap.procs[i];
    if Target(p, cfg) {
      ItemsDoneAppend(Side(EMPTY, map[]), ProcItems(snap, i, cfg), ItemsOf(snap, p, cfg), cfg, threads.live);
      ScanProc(pc, bpf, threads, snap, p, cfg);
    }
  }

  method FullScan(pc: ProcCache, bpf: BpfMaps, threads: ThreadTable, snap: Option<Snapshot>, cfg: AppConfig)
    modifies pc, bpf`applied, threads
    ensures threads.live == old(threads.live)
    ensures Side(pc.Value(), bpf.applied) == FullScanned(snap, cfg, threads.live)
  {
    pc.Clear();
    bpf.AppliedClear();
    if snap.None? {
      return;
    }
    for i := 0 to |snap.value.procs|
      invariant threads.live == old(threads.live)
      invariant Side(pc.Value(), bpf.applied) == ItemsDone(Side(EMPTY, map[]), ProcItems(snap.value, i, cfg), cfg, threads.live)
    {
      ScanEntry(pc, bpf, threads, snap.value, i, cfg);
    }
  }

  /** The periodic sweep: `affinity_sync`, then the dead threads leave the applied map. */
  method Sweep(pc: ProcCache, bpf: BpfMaps, threads: ThreadTable, topo: Topology)
    modifies pc, bpf`applied, threads
    ensures threads.live == old(threads.live)
    ensures pc.Value() == Swept(old(pc.Value()), threads.live)
    ensures bpf.applied == old(bpf.applied) - (old(pc.tasks).Keys - threads.live)
  {
    var dead := pc.AffinitySync(threads, topo);
    for i := 0 to |dead|
      invariant threads.live == old(threads.live) && pc.Value() == Swept(old(pc.Value()), threads.live)
      invariant bpf.applied == old(bpf.applied) - Elems(dead[..i])
    {
      assert Elems(dead[..i + 1]) == Elems(dead[..i]) + {dead[i]};
      bpf.AppliedDel(dead[i]);
    }
    assert dead[..|dead|] == dead;
    forall t ensures t in Elems(dead) <==> t in old(pc.tasks).Keys - threads.live {}
    assert Elems(dead) == old(pc.tasks).Keys - threads.live;
  }
}
