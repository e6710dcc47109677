/**
 The protocol between the kernel programs in ebpf/src/main.rs and the userspace loop in
 src/main.rs, with every access to shared state a step of its own. The shared state is the
 applied map, the whitelist map and the event queue (ring buffer and channel as one). Kernel
 handlers run on any number of CPUs; userspace is one thread. System calls answer freely, and
 any thread number may fork, exec, be renamed or exit at any time, so numbers may be reused.
 No event is dropped, no map entry is evicted, and map operations succeed.
 */
module Interleaving {
  import opened Strings
  import opened Config
  import opened Whitelist
  import opened ProcCaches
  import opened ProcScan
  import opened EventMode
  import A = AutoCache

  // ----- State -----

  /** A kernel handler past its lookups, by what it has left to do. */
  datatype Handler =
    | ForkInserts(e: Event)             // insert the child, then submit
    | ExitRemoves(pid: int, tid: int)   // remove the thread, then submit
    | Submits(e: Event)

  /** Where userspace is; `rest` is what remains of a full scan. */
  datatype Pc =
    | Idle
    | Got(e: Event)                                              // popped, nothing done yet
    | Binding(tid: int, entry: TaskEntry, rest: seq<Item>)       // old entry removed, before `affinity_set`
    | Publishing(tid: int, entry: TaskEntry, rest: seq<Item>)    // found alive, before `applied_set`
    | Recording(tid: int, entry: TaskEntry, rest: seq<Item>)     // before `tasks.insert`
    | Unpublishing(tids: seq<int>, rest: seq<Item>)              // `applied_del` for each
    | Sweeping(todo: set<int>, dead: seq<int>)
    | Scanning(rest: seq<Item>)

  datatype State = State(
    applied: map<int, set<nat>>,
    keys: set<string>,
    queue: seq<Event>,
    handlers: multiset<Handler>,
    cache: Cache,
    cfg: AppConfig,
    pc: Pc)

  // ----- Kernel steps -----

  datatype KernelCall =
    | ForkCall(parent: int, pid: int, child: int, comm: string)
    | ExecCall(pid: int, tid: int, comm: string)
    | RenameCall(pid: int, tid: int, comm: string)
    | ExitCall(pid: int, tid: int)

  function Started(s: State, h: Handler): State {
    s.(handlers := s.handlers + multiset{h})
  }

  predicate Whitelisted(s: State, comm: string) {
    |comm| == COMM_LEN && WindowHit(comm, s.keys)
  }

  /** A tracepoint fires: the lookups, and what they make the handler do. */
  function Fired(s: State, call: KernelCall): State {
    match call
    case ForkCall(parent, pid, child, comm) =>
      if parent in s.applied then Started(s, ForkInserts(Event(Fork, pid, child, comm)))
      else if Whitelisted(s, comm) then Started(s, Submits(Event(Fork, pid, child, comm)))
      else s
    case ExecCall(pid, tid, comm) =>
      if Whitelisted(s, comm) then Started(s, Submits(Event(Exec, pid, tid, comm))) else s
    case RenameCall(pid, tid, comm) =>
      if tid != 0 && (tid in s.applied || Whitelisted(s, comm)) then Started(s, Submits(Event(Rename, pid, tid, comm))) else s
    case ExitCall(pid, tid) =>
      if tid in s.applied then Started(s, ExitRemoves(pid, tid)) else s
  }

  function ExitEvent(pid: int, tid: int): Event {
    Event(Exit, pid, tid, Zeros(COMM_LEN))
  }

  /** A handler in flight takes its next step. */
  function Advanced(s: State, h: Handler): State {
    if h !in s.handlers then s
    else
      var s' := s.(handlers := s.handlers - multiset{h});
      match h
      case ForkInserts(e) => Started(s'.(applied := s.applied[e.tid := {}]), Submits(e))
      case ExitRemoves(pid, tid) => Started(s'.(applied := s.applied - {tid}), Submits(ExitEvent(pid, tid)))
      case Submits(e) => s'.(queue := s.queue + [e])
  }

  // ----- Userspace steps -----

  /** What userspace is told or chooses in a step. */
  datatype Choice =
    | Pop
    | StartSweep
    | Rekey(keys: set<string>)            // any update of the whitelist map
    | StartScan(reload: A.Reload, stale: seq<int>, snap: Option<Snapshot>)  // `stale` are the applied keys read
    | Answer(dead: bool)                 // of `affinity_set`
    | AnswerFor(tid: int, dead: bool)    // of `affinity_set` in a sweep

  function After(rest: seq<Item>): Pc { if rest == [] then Idle else Scanning(rest) }

  /** `task_apply` up to `apply_fn`. */
  function Begun(s: State, cache: Cache, tid: int, d: Decision, rest: seq<Item>): State {
    match d
    case Bind(entry) => s.(cache := cache.(tasks := cache.tasks - {tid}), pc := Binding(tid, entry, rest))
    case Unmatched => s.(cache := cache, pc := After(rest))
    case KeepOld => s.(cache := cache, pc := After(rest))
  }

  function EventBegun(s: State, cache: Cache, e: Event, trustComm: bool): State
    requires LookedUp(cache, e.pid, CommStr(e.comm), s.cfg).Some?
  {
    var comm := CommStr(e.comm);
    var (pkg, htr) := LookedUp(cache, e.pid, comm, s.cfg).value;
    var c := AfterLookup(cache, e.pid, comm, s.cfg);
    Begun(s, c, e.tid, Decide(c, e.tid, e.pid, pkg, comm, htr, trustComm, s.cfg), [])
  }

  /** `event_dispatch` up to its first access to shared state. */
  function Dispatching(s: State, e: Event): State {
    var without := s.cache.(pkgs := s.cache.pkgs - {e.pid});
    match e.kind
    case Exit =>
      s.(cache := TaskDeleted(if e.tid == e.pid then without else s.cache, e.tid), pc := Unpublishing([e.tid], []))
    case Exec =>
      if LookedUp(without, e.pid, CommStr(e.comm), s.cfg).Some? then EventBegun(s, without, e, true)
      else s.(cache := TaskDeleted(without, e.tid), pc := Unpublishing([e.tid], []))
    case Fork =>
      if LookedUp(s.cache, e.pid, CommStr(e.comm), s.cfg).Some? then EventBegun(s, s.cache, e, e.tid == e.pid) else s.(pc := Idle)
    case Rename =>
      if LookedUp(s.cache, e.pid, CommStr(e.comm), s.cfg).Some? then EventBegun(s, s.cache, e, true) else s.(pc := Idle)
    case OtherKind => s.(pc := Idle)
  }

  function ItemBegun(s: State, item: Item, rest: seq<Item>): State {
    match item
    case BindItem(tid, pid, pkg, comm, htr) => Begun(s, s.cache, tid, Decide(s.cache, tid, pid, pkg, comm, htr, true, s.cfg), rest)
    case PkgItem(pid, pkg, htr) => s.(cache := s.cache.(pkgs := s.cache.pkgs[pid := (pkg, htr)]), pc := After(rest))
  }

  /** One step of userspace; a choice that does not fit leaves the state as it is. */
  function UserStep(s: State, c: Choice): State {
    match s.pc
    case Idle =>
      (match c
       case Pop => if s.queue == [] then s else s.(queue := s.queue[1..], pc := Got(s.queue[0]))
       case StartSweep => s.(pc := Sweeping(s.cache.tasks.Keys, []))
       case Rekey(keys) => s.(keys := keys)
       case StartScan(reload, stale, snap) =>
         var cfg := A.Reloaded(s.cfg, reload);
         s.(cfg := cfg, cache := EMPTY, pc := Unpublishing(stale, ScanItems(snap, cfg)))
       case _ => s)
    case Got(e) => Dispatching(s, e)
    case Binding(tid, entry, rest) =>
      if c.Answer? then s.(pc := if c.dead then After(rest) else Publishing(tid, entry, rest)) else s
    case Publishing(tid, entry, rest) =>
      s.(applied := s.applied[tid := FirstWord(entry.cpus)], pc := Recording(tid, entry, rest))
    case Recording(tid, entry, rest) =>
      s.(cache := s.cache.(tasks := s.cache.tasks[tid := entry]), pc := After(rest))
    case Unpublishing(tids, rest) =>
      if tids == [] then s.(pc := After(rest))
      else s.(applied := s.applied - {tids[0]}, pc := Unpublishing(tids[1..], rest))
    case Sweeping(todo, dead) =>
      if todo == {} then s.(cache := AllDeleted(s.cache, dead), pc := Unpublishing(dead, []))
      else if c.AnswerFor? && c.tid in todo then
        s.(pc := Sweeping(todo - {c.tid}, if c.dead then dead + [c.tid] else dead))
      else s
    case Scanning(rest) =>
      if rest == [] then s.(pc := Idle) else ItemBegun(s, rest[0], rest[1..])
  }

  // ----- Runs -----

  datatype Step = Kernel(call: KernelCall) | Handle(h: Handler) | User(choice: Choice)

  function Next(s: State, step: Step): State {
    match step
    case Kernel(call) => Fired(s, call)
    case Handle(h) => Advanced(s, h)
    case User(choice) => UserStep(s, choice)
  }

  function Run(s: State, steps: seq<Step>): State
    decreases |steps|
  {
    if steps == [] then s else Run(Next(s, steps[0]), steps[1..])
  }

  lemma RunOne(s: State, a: Step)
    ensures Run(s, [a]) == Next(s, a)
  {
    assert [a][1..] == [];
  }

  lemma {:induction false} RunAppend(s: State, a: seq<Step>, b: seq<Step>)
    ensures Run(s, a + b) == Run(Run(s, a), b)
    decreases |a|
  {
    if a == [] {
      assert a + b == b;
    } else {
      assert (a + b)[1..] == a[1..] + b;
      RunAppend(Next(s, a[0]), a[1..], b);
    }
  }

  lemma RunTwo(s: State, a: Step, b: Step)
    ensures Run(s, [a, b]) == Next(Next(s, a), b)
  {
    RunAppend(s, [a], [b]);
    assert [a] + [b] == [a, b];
    RunOne(s, a);
    RunOne(Next(s, a), b);
  }

  lemma RunThree(s: State, a: Step, b: Step, c: Step)
    ensures Run(s, [a, b, c]) == Next(Next(Next(s, a), b), c)
  {
    RunAppend(s, [a, b], [c]);
    assert [a, b] + [c] == [a, b, c];
    RunTwo(s, a, b);
    RunOne(Next(Next(s, a), b), c);
  }

  /** Userspace starts with an empty cache; the kernel side may be in any state. */
  predicate Initial(s: State) {
    s.cache == EMPTY && s.pc == Idle
  }

  // ----- The invariant -----

  predicate IsExitOf(e: Event, tid: int) { e.kind.Exit? && e.tid == tid }

  predicate ExitQueued(queue: seq<Event>, tid: int) {
    exists i | 0 <= i < |queue| :: IsExitOf(queue[i], tid)
  }

  predicate ExitInFlight(handlers: multiset<Handler>, tid: int) {
    exists h | h in handlers :: h.Submits? && IsExitOf(h.e, tid)
  }

  /** The thread's exit will reach userspace: it is still tracked by the kernel, or its EXIT
      event is being submitted, queued, or in userspace's hands. */
  predicate Watched(s: State, tid: int) {
    || tid in s.applied
    || ExitInFlight(s.handlers, tid)
    || ExitQueued(s.queue, tid)
    || (s.pc.Got? && IsExitOf(s.pc.e, tid))
  }

  ghost predicate Inv(s: State) {
    && (forall t :: t in s.cache.tasks ==> Watched(s, t))
    && (s.pc.Recording? ==> Watched(s, s.pc.tid))
    && (s.pc.Unpublishing? ==> forall t :: t in s.pc.tids ==> t !in s.cache.tasks)
  }

  lemma QueueKeeps(queue: seq<Event>, e: Event, tid: int)
    ensures ExitQueued(queue + [e], tid) <==> ExitQueued(queue, tid) || IsExitOf(e, tid)
  {
    var more := queue + [e];
    if ExitQueued(queue, tid) {
      var i :| 0 <= i < |queue| && IsExitOf(queue[i], tid);
      assert IsExitOf(more[i], tid);
    }
    if IsExitOf(e, tid) { assert IsExitOf(more[|queue|], tid); }
  }

  lemma PopKeeps(queue: seq<Event>, tid: int)
    requires queue != []
    ensures ExitQueued(queue, tid) <==> IsExitOf(queue[0], tid) || ExitQueued(queue[1..], tid)
  {
    if ExitQueued(queue[1..], tid) {
      var i :| 0 <= i < |queue[1..]| && IsExitOf(queue[1..][i], tid);
      assert IsExitOf(queue[i + 1], tid);
    }
    if ExitQueued(queue, tid) && !IsExitOf(queue[0], tid) {
      var i :| 0 <= i < |queue| && IsExitOf(queue[i], tid);
      assert IsExitOf(queue[1..][i - 1], tid);
    }
  }

  lemma FlightKeeps(handlers: multiset<Handler>, h: Handler, tid: int)
    requires h in handlers
    ensures ExitInFlight(handlers, tid) ==> ExitInFlight(handlers - multiset{h}, tid) || (h.Submits? && IsExitOf(h.e, tid))
  {
    if ExitInFlight(handlers, tid) {
      var g :| g in handlers && g.Submits? && IsExitOf(g.e, tid);
      if g != h { assert g in handlers - multiset{h}; }
    }
  }

  lemma FlightGrows(handlers: multiset<Handler>, h: Handler, tid: int)
    ensures ExitInFlight(handlers, tid) ==> ExitInFlight(handlers + multiset{h}, tid)
    ensures h.Submits? && IsExitOf(h.e, tid) ==> ExitInFlight(handlers + multiset{h}, tid)
  {
    if ExitInFlight(handlers, tid) {
      var g :| g in handlers && g.Submits? && IsExitOf(g.e, tid);
      assert g in handlers + multiset{h};
    }
    assert h in handlers + multiset{h};
  }

  lemma StartedKeepsWatch(s: State, h: Handler, tid: int)
    requires Watched(s, tid)
    ensures Watched(Started(s, h), tid)
  {
    FlightGrows(s.handlers, h, tid);
  }

  /** No kernel step loses sight of a watched thread. */
  lemma KernelKeepsWatch(s: State, call: KernelCall, tid: int)
    requires Watched(s, tid)
    ensures Watched(Fired(s, call), tid)
  {
    match call
    case ForkCall(parent, pid, child, comm) =>
      StartedKeepsWatch(s, ForkInserts(Event(Fork, pid, child, comm)), tid);
      StartedKeepsWatch(s, Submits(Event(Fork, pid, child, comm)), tid);
    case ExecCall(pid, t, comm) => StartedKeepsWatch(s, Submits(Event(Exec, pid, t, comm)), tid);
    case RenameCall(pid, t, comm) => StartedKeepsWatch(s, Submits(Event(Rename, pid, t, comm)), tid);
    case ExitCall(pid, t) => StartedKeepsWatch(s, ExitRemoves(pid, t), tid);
  }

  lemma HandlerKeepsWatch(s: State, h: Handler, tid: int)
    requires Watched(s, tid)
    ensures Watched(Advanced(s, h), tid)
  {
    if h in s.handlers {
      var left := s.handlers - multiset{h};
      FlightKeeps(s.handlers, h, tid);
      match h
      case ForkInserts(e) => FlightGrows(left, Submits(e), tid);
      case ExitRemoves(p, t) => FlightGrows(left, Submits(ExitEvent(p, t)), tid);
      case Submits(e) => QueueKeeps(s.queue, e, tid);
    }
  }

  lemma {:induction false} AllDeletedTasks(c: Cache, tids: seq<int>)
    ensures AllDeleted(c, tids).tasks == c.tasks - Elems(tids)
  {
    DeletionOrderIrrelevant(c, tids);
  }

  lemma BegunKeepsInv(s: State, cache: Cache, tid: int, d: Decision, rest: seq<Item>)
    requires forall t :: t in cache.tasks ==> Watched(s.(pc := Idle), t)
    ensures Inv(Begun(s, cache, tid, d, rest))
  {
  }

  lemma GotKeepsInv(s: State)
    requires Inv(s) && s.pc.Got?
    ensures Inv(Dispatching(s, s.pc.e))
  {
    var e := s.pc.e;
    var without := s.cache.(pkgs := s.cache.pkgs - {e.pid});
    match e.kind
    case Exit =>
    case Exec =>
      if LookedUp(without, e.pid, CommStr(e.comm), s.cfg).Some? {
        var (pkg, htr) := LookedUp(without, e.pid, CommStr(e.comm), s.cfg).value;
        var c := AfterLookup(without, e.pid, CommStr(e.comm), s.cfg);
        BegunKeepsInv(s, c, e.tid, Decide(c, e.tid, e.pid, pkg, CommStr(e.comm), htr, true, s.cfg), []);
      }
    case Fork => GotOtherKeepsInv(s, e.tid == e.pid);
    case Rename => GotOtherKeepsInv(s, true);
    case OtherKind =>
  }

  lemma GotOtherKeepsInv(s: State, trust: bool)
    requires Inv(s) && s.pc.Got? && !s.pc.e.kind.Exit?
    ensures var e := s.pc.e;
            LookedUp(s.cache, e.pid, CommStr(e.comm), s.cfg).Some? ==> Inv(EventBegun(s, s.cache, e, trust))
  {
    var e := s.pc.e;
    if LookedUp(s.cache, e.pid, CommStr(e.comm), s.cfg).Some? {
      var (pkg, htr) := LookedUp(s.cache, e.pid, CommStr(e.comm), s.cfg).value;
      var c := AfterLookup(s.cache, e.pid, CommStr(e.comm), s.cfg);
      BegunKeepsInv(s, c, e.tid, Decide(c, e.tid, e.pid, pkg, CommStr(e.comm), htr, trust, s.cfg), []);
    }
  }

  lemma IdleKeepsInv(s: State, c: Choice)
    requires Inv(s) && s.pc.Idle?
    ensures Inv(UserStep(s, c))
  {
    if c.Pop? && s.queue != [] {
      forall t | t in s.cache.tasks ensures Watched(UserStep(s, c), t) { PopKeeps(s.queue, t); }
    }
  }

  lemma SweepKeepsInv(s: State, c: Choice)
    requires Inv(s) && s.pc.Sweeping?
    ensures Inv(UserStep(s, c))
  {
    AllDeletedTasks(s.cache, s.pc.dead);
    forall t | t in s.pc.dead ensures t in Elems(s.pc.dead) {}
  }

  lemma UnpublishKeepsInv(s: State, c: Choice)
    requires Inv(s) && s.pc.Unpublishing?
    ensures Inv(UserStep(s, c))
  {
    if s.pc.tids != [] {
      assert s.pc.tids[0] in s.pc.tids;
      assert forall t :: t in s.pc.tids[1..] ==> t in s.pc.tids;
    }
  }

  lemma ScanKeepsInv(s: State, c: Choice)
    requires Inv(s) && s.pc.Scanning?
    ensures Inv(UserStep(s, c))
  {
    if s.pc.rest != [] {
      match s.pc.rest[0]
      case BindItem(tid, pid, pkg, comm, htr) =>
        BegunKeepsInv(s, s.cache, tid, Decide(s.cache, tid, pid, pkg, comm, htr, true, s.cfg), s.pc.rest[1..]);
      case PkgItem(pid, pkg, htr) =>
    }
  }

  lemma UserKeepsInv(s: State, c: Choice)
    requires Inv(s)
    ensures Inv(UserStep(s, c))
  {
    match s.pc
    case Idle => IdleKeepsInv(s, c);
    case Got(_) => GotKeepsInv(s);
    case Binding(_, _, _) =>
    case Publishing(_, _, _) =>
    case Recording(_, _, _) =>
    case Unpublishing(_, _) => UnpublishKeepsInv(s, c);
    case Sweeping(_, _) => SweepKeepsInv(s, c);
    case Scanning(_) => ScanKeepsInv(s, c);
  }

  lemma NextKeepsInv(s: State, step: Step)
    requires Inv(s)
    ensures Inv(Next(s, step))
  {
    match step
    case Kernel(call) =>
      forall t | Watched(s, t) ensures Watched(Fired(s, call), t) { KernelKeepsWatch(s, call, t); }
    case Handle(h) =>
      forall t | Watched(s, t) ensures Watched(Advanced(s, h), t) { HandlerKeepsWatch(s, h, t); }
    case User(choice) => UserKeepsInv(s, choice);
  }

  lemma {:induction false} RunKeepsInv(s: State, steps: seq<Step>)
    requires Inv(s)
    ensures Inv(Run(s, steps))
    decreases |steps|
  {
    if steps != [] {
      NextKeepsInv(s, steps[0]);
      RunKeepsInv(Next(s, steps[0]), steps[1..]);
    }
  }

  /** In every interleaving, every thread with a binding is watched: the kernel still tracks it
      or its EXIT event is on the way to userspace. */
  lemma BoundThreadsAreWatched(s: State, steps: seq<Step>, tid: int)
    requires Initial(s) && tid in Run(s, steps).cache.tasks
    ensures Watched(Run(s, steps), tid)
  {
    RunKeepsInv(s, steps);
  }

  /** Nothing is in flight: no handler is past its lookups, the queue is drained, userspace is idle. */
  predicate Quiet(s: State) {
    s.handlers == multiset{} && s.queue == [] && s.pc == Idle
  }

  /** The state after a thread's exit has run through its handler. */
  function Exited(s: State, pid: int, tid: int): State {
    Next(Next(Next(s, Kernel(ExitCall(pid, tid))), Handle(ExitRemoves(pid, tid))), Handle(Submits(ExitEvent(pid, tid))))
  }

  /** A handler alone in flight takes its next step. */
  lemma OnlyHandlerAdvances(s: State, pid: int, tid: int)
    requires s.handlers == multiset{ExitRemoves(pid, tid)}
    ensures Advanced(s, ExitRemoves(pid, tid)) == s.(applied := s.applied - {tid}, handlers := multiset{Submits(ExitEvent(pid, tid))})
  {
  }

  lemma OnlySubmitQueues(s: State, e: Event)
    requires s.handlers == multiset{Submits(e)}
    ensures Advanced(s, Submits(e)) == s.(queue := s.queue + [e], handlers := multiset{})
  {
  }

  lemma ExitRaised(q: State, pid: int, tid: int)
    requires q.handlers == multiset{} && tid in q.applied
    ensures Exited(q, pid, tid) == q.(applied := q.applied - {tid}, queue := q.queue + [ExitEvent(pid, tid)])
  {
    var s1 := Fired(q, ExitCall(pid, tid));
    assert s1 == q.(handlers := multiset{ExitRemoves(pid, tid)});
    OnlyHandlerAdvances(s1, pid, tid);
    OnlySubmitQueues(Advanced(s1, ExitRemoves(pid, tid)), ExitEvent(pid, tid));
  }

  lemma ExitPopped(s: State, pid: int, tid: int)
    requires s.pc == Idle && s.queue == [ExitEvent(pid, tid)]
    ensures UserStep(UserStep(s, Pop), Pop).cache.tasks == s.cache.tasks - {tid}
  {
    var got := UserStep(s, Pop);
    assert got.pc == Got(ExitEvent(pid, tid)) && got.cache == s.cache;
  }

  /** Whenever the system is quiet, every bound thread is in the applied map, so its exit raises
      an EXIT event, and dispatching that event removes the binding and nothing else's. */
  lemma QuietExitIsSeen(s: State, steps: seq<Step>, pid: int, tid: int)
    requires Initial(s) && Quiet(Run(s, steps)) && tid in Run(s, steps).cache.tasks
    ensures var q := Run(s, steps);
            && tid in q.applied
            && var seen := Exited(q, pid, tid);
               && seen.queue == [ExitEvent(pid, tid)]
               && UserStep(UserStep(seen, Pop), Pop).cache.tasks == q.cache.tasks - {tid}
  {
    BoundThreadsAreWatched(s, steps, tid);
    ExitRaised(Run(s, steps), pid, tid);
    ExitPopped(Exited(Run(s, steps), pid, tid), pid, tid);
  }

  /** A thread runs a new program: the event is raised, queued and popped. */
  function ExecPopped(pid: int, tid: int, comm: string): seq<Step> {
    [Kernel(ExecCall(pid, tid, comm)), Handle(Submits(Event(Exec, pid, tid, comm))), User(Pop)]
  }

  lemma ExecSubmitted(s: State, pid: int, tid: int, comm: string)
    requires Quiet(s) && Whitelisted(s, comm)
    ensures Run(s, ExecPopped(pid, tid, comm)) == s.(pc := Got(Event(Exec, pid, tid, comm)))
  {
    var e := Event(Exec, pid, tid, comm);
    var call, submit := Kernel(ExecCall(pid, tid, comm)), Handle(Submits(e));
    var s1 := s.(handlers := multiset{Submits(e)});
    assert Next(s, call) == s1;
    OnlySubmitQueues(s1, e);
    RunThree(s, call, submit, User(Pop));
  }

  // ----- What the protocol does not give -----

  /** If the ring buffer drops an EXIT event, the invariant is lost. */
  lemma DroppedExitIsLost(s: State, pid: int, tid: int)
    requires Inv(s) && Quiet(s) && tid in s.cache.tasks
    ensures var removed := Advanced(Fired(s, ExitCall(pid, tid)), ExitRemoves(pid, tid));
            !Watched(removed.(handlers := multiset{}), tid)
  {
  }
}
