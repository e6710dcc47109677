/**
 A thread that exits after userspace found it alive and before userspace publishes it, src/main.rs
 lines 42 to 48: exactly when the binding of the dead thread is left behind.
 */
module ExitRace {
  import opened Strings
  import opened Config
  import opened RuleMatch
  import opened Whitelist
  import opened ProcCaches
  import opened EventMode
  import opened Interleaving
  import A = AutoCache

  // ----- What is on its way about a thread number -----

  predicate Concerns(h: Handler, tid: int) {
    match h
    case ForkInserts(e) => e.tid == tid
    case ExitRemoves(_, t) => t == tid
    case Submits(e) => e.tid == tid
  }

  predicate IsExit(h: Handler) {
    h.ExitRemoves? || (h.Submits? && h.e.kind.Exit?)
  }

  ghost predicate InFlight(handlers: multiset<Handler>, tid: int) {
    exists h :: h in handlers && Concerns(h, tid)
  }

  ghost predicate Queued(queue: seq<Event>, tid: int) {
    exists i :: 0 <= i < |queue| && queue[i].tid == tid
  }

  /** A handler or a queued event is about the thread number. */
  ghost predicate Ahead(s: State, tid: int) {
    InFlight(s.handlers, tid) || Queued(s.queue, tid)
  }

  /** All of these are exits, of an earlier or the present thread of that number. */
  ghost predicate OnlyExits(s: State, tid: int) {
    && (forall h :: h in s.handlers && Concerns(h, tid) ==> IsExit(h))
    && (forall i :: 0 <= i < |s.queue| && s.queue[i].tid == tid ==> s.queue[i].kind.Exit?)
  }

  function CallTid(call: KernelCall): int {
    match call
    case ForkCall(_, _, child, _) => child
    case ExecCall(_, tid, _) => tid
    case RenameCall(_, tid, _) => tid
    case ExitCall(_, tid) => tid
  }

  /** Anything may go on but the start of a sweep or a scan, or a kernel event of that number. */
  predicate Spares(step: Step, tid: int) {
    match step
    case Kernel(call) => CallTid(call) != tid
    case Handle(_) => true
    case User(c) => !c.StartSweep? && !c.StartScan?
  }

  lemma StartedAhead(s: State, h: Handler, tid: int)
    ensures Ahead(Started(s, h), tid) <==> Ahead(s, tid) || Concerns(h, tid)
    ensures OnlyExits(s, tid) && (Concerns(h, tid) ==> IsExit(h)) ==> OnlyExits(Started(s, h), tid)
  {
    var more := Started(s, h).handlers;
    assert h in more;
    if InFlight(s.handlers, tid) {
      var g :| g in s.handlers && Concerns(g, tid);
      assert g in more;
    }
    forall g | g in more ensures g in s.handlers || g == h {}
  }

  /** A tracepoint does nothing, or starts one handler for its own thread. */
  lemma FiredStarts(s: State, call: KernelCall) returns (h: Handler)
    ensures Fired(s, call) == s || Fired(s, call) == Started(s, h)
    ensures forall t :: Concerns(h, t) <==> CallTid(call) == t
  {
    match call
    case ForkCall(parent, pid, child, comm) =>
      h := if parent in s.applied then ForkInserts(Event(Fork, pid, child, comm)) else Submits(Event(Fork, pid, child, comm));
    case ExecCall(pid, t, comm) => h := Submits(Event(Exec, pid, t, comm));
    case RenameCall(pid, t, comm) => h := Submits(Event(Rename, pid, t, comm));
    case ExitCall(pid, t) => h := ExitRemoves(pid, t);
  }

  lemma FiredSpares(s: State, call: KernelCall, tid: int)
    requires CallTid(call) != tid
    ensures var s' := Fired(s, call);
            && s'.applied == s.applied && s'.cache == s.cache && s'.pc == s.pc
            && (Ahead(s', tid) <==> Ahead(s, tid)) && (OnlyExits(s, tid) ==> OnlyExits(s', tid))
  {
    var h := FiredStarts(s, call);
    StartedAhead(s, h, tid);
  }

  /** Taking a handler out of flight. */
  function Landed(s: State, h: Handler): State {
    s.(handlers := s.handlers - multiset{h})
  }

  lemma LandedAhead(s: State, h: Handler, tid: int)
    requires h in s.handlers
    ensures Ahead(s, tid) ==> Ahead(Landed(s, h), tid) || Concerns(h, tid)
    ensures Ahead(Landed(s, h), tid) ==> Ahead(s, tid)
    ensures OnlyExits(s, tid) ==> OnlyExits(Landed(s, h), tid)
  {
    var left := Landed(s, h).handlers;
    if InFlight(s.handlers, tid) {
      var g :| g in s.handlers && Concerns(g, tid);
      if g != h { assert g in left; }
    }
    forall g | g in left ensures g in s.handlers {}
  }

  lemma SubmittedAhead(s: State, e: Event, tid: int)
    ensures var s' := s.(queue := s.queue + [e]);
            && (Ahead(s', tid) <==> Ahead(s, tid) || e.tid == tid)
            && (OnlyExits(s, tid) && (e.tid == tid ==> e.kind.Exit?) ==> OnlyExits(s', tid))
  {
    var more := s.queue + [e];
    assert more[|s.queue|] == e;
    if Queued(s.queue, tid) {
      var i :| 0 <= i < |s.queue| && s.queue[i].tid == tid;
      assert more[i] == s.queue[i];
    }
  }

  lemma PoppedAhead(s: State, s': State, tid: int)
    requires s.queue != [] && s'.queue == s.queue[1..] && s'.handlers == s.handlers
    ensures Ahead(s, tid) <==> Ahead(s', tid) || s.queue[0].tid == tid
    ensures OnlyExits(s, tid) ==> OnlyExits(s', tid)
  {
    var rest := s.queue[1..];
    if Queued(s.queue, tid) {
      var i :| 0 <= i < |s.queue| && s.queue[i].tid == tid;
      if i > 0 { assert rest[i - 1] == s.queue[i]; }
    }
    if Queued(rest, tid) {
      var i :| 0 <= i < |rest| && rest[i].tid == tid;
      assert s.queue[i + 1] == rest[i];
    }
  }

  /** A handler's step keeps what is ahead, and moves only its own thread. */
  lemma AdvancedAhead(s: State, h: Handler, tid: int)
    requires OnlyExits(s, tid)
    ensures var s' := Advanced(s, h);
            && s'.cache == s.cache && s'.pc == s.pc && OnlyExits(s', tid)
            && (Ahead(s', tid) <==> Ahead(s, tid))
            && (tid in s'.applied ==> tid in s.applied)
            && (!Ahead(s, tid) ==> (tid in s'.applied <==> tid in s.applied))
  {
    if h in s.handlers {
      var l := Landed(s, h);
      LandedAhead(s, h, tid);
      match h
      case ForkInserts(e) => StartedAhead(l.(applied := s.applied[e.tid := {}]), Submits(e), tid);
      case ExitRemoves(p, t) => StartedAhead(l.(applied := s.applied - {t}), Submits(ExitEvent(p, t)), tid);
      case Submits(e) => SubmittedAhead(l, e, tid);
    }
  }

  // ----- Where userspace is -----

  /** What a scan has left to do is about other threads. */
  ghost predicate Others(rest: seq<Item>, tid: int) {
    forall i :: 0 <= i < |rest| && rest[i].BindItem? ==> rest[i].tid != tid
  }

  /** Userspace is not at work on the thread, nor in a sweep. */
  ghost predicate Elsewhere(pc: Pc, tid: int) {
    match pc
    case Idle => true
    case Got(e) => e.tid != tid
    case Binding(t, _, rest) => t != tid && Others(rest, tid)
    case Publishing(t, _, rest) => t != tid && Others(rest, tid)
    case Recording(t, _, rest) => t != tid && Others(rest, tid)
    case Unpublishing(tids, rest) => tid !in tids && Others(rest, tid)
    case Sweeping(_, _) => false
    case Scanning(rest) => Others(rest, tid)
  }

  /** Work on other threads. */
  ghost predicate OtherWork(s: State, s': State, tid: int) {
    && Elsewhere(s'.pc, tid) && s'.handlers == s.handlers && s'.queue == s.queue
    && (tid in s'.cache.tasks <==> tid in s.cache.tasks)
    && (tid in s'.applied <==> tid in s.applied)
  }

  lemma BegunElsewhere(s: State, cache: Cache, t: int, d: Decision, rest: seq<Item>, tid: int)
    requires t != tid && (tid in cache.tasks <==> tid in s.cache.tasks) && Others(rest, tid)
    ensures OtherWork(s, Begun(s, cache, t, d, rest), tid)
  {
  }

  lemma EventBegunElsewhere(s: State, cache: Cache, e: Event, trust: bool, tid: int)
    requires e.tid != tid && (tid in cache.tasks <==> tid in s.cache.tasks)
    requires LookedUp(cache, e.pid, CommStr(e.comm), s.cfg).Some?
    ensures OtherWork(s, EventBegun(s, cache, e, trust), tid)
  {
    var comm := CommStr(e.comm);
    var (pkg, htr) := LookedUp(cache, e.pid, comm, s.cfg).value;
    var c := AfterLookup(cache, e.pid, comm, s.cfg);
    BegunElsewhere(s, c, e.tid, Decide(c, e.tid, e.pid, pkg, comm, htr, trust, s.cfg), [], tid);
  }

  lemma DispatchingElsewhere(s: State, e: Event, tid: int)
    requires e.tid != tid
    ensures OtherWork(s, Dispatching(s, e), tid)
  {
    var comm, without := CommStr(e.comm), s.cache.(pkgs := s.cache.pkgs - {e.pid});
    match e.kind
    case Exit =>
    case Exec => if LookedUp(without, e.pid, comm, s.cfg).Some? { EventBegunElsewhere(s, without, e, true, tid); }
    case Fork => if LookedUp(s.cache, e.pid, comm, s.cfg).Some? { EventBegunElsewhere(s, s.cache, e, e.tid == e.pid, tid); }
    case Rename => if LookedUp(s.cache, e.pid, comm, s.cfg).Some? { EventBegunElsewhere(s, s.cache, e, true, tid); }
    case OtherKind =>
  }

  lemma ItemElsewhere(s: State, item: Item, rest: seq<Item>, tid: int)
    requires (item.BindItem? ==> item.tid != tid) && Others(rest, tid)
    ensures OtherWork(s, ItemBegun(s, item, rest), tid)
  {
    match item
    case BindItem(t, pid, pkg, comm, htr) =>
      BegunElsewhere(s, s.cache, t, Decide(s.cache, t, pid, pkg, comm, htr, true, s.cfg), rest, tid);
    case PkgItem(_, _, _) =>
  }

  lemma UnpublishElsewhere(s: State, c: Choice, tid: int)
    requires Elsewhere(s.pc, tid) && s.pc.Unpublishing?
    ensures OtherWork(s, UserStep(s, c), tid)
  {
    if s.pc.tids != [] {
      assert s.pc.tids[0] in s.pc.tids;
      assert forall t :: t in s.pc.tids[1..] ==> t in s.pc.tids;
    }
  }

  lemma StepElsewhere(s: State, c: Choice, tid: int)
    requires Elsewhere(s.pc, tid) && !s.pc.Idle?
    ensures OtherWork(s, UserStep(s, c), tid)
  {
    match s.pc
    case Got(e) => DispatchingElsewhere(s, e, tid);
    case Binding(_, _, _) =>
    case Publishing(_, _, _) =>
    case Recording(_, _, _) =>
    case Unpublishing(_, _) => UnpublishElsewhere(s, c, tid);
    case Scanning(rest) => if rest != [] { ItemElsewhere(s, rest[0], rest[1..], tid); }
  }

  /** Userspace is about to publish or to record the thread. */
  ghost predicate Entering(pc: Pc, tid: int) {
    (pc.Publishing? || pc.Recording?) && pc.tid == tid && Others(pc.rest, tid)
  }

  // ----- An exit that nobody hears of -----

  /** Nothing is ahead, and the thread is on its way into `tasks` or there. */
  ghost predicate Unseen(s: State, tid: int) {
    && !Ahead(s, tid)
    && (|| (Entering(s.pc, tid) && (s.pc.Recording? ==> tid in s.applied))
        || (Elsewhere(s.pc, tid) && tid in s.cache.tasks && tid in s.applied))
  }

  lemma NothingAheadOnlyExits(s: State, tid: int)
    requires !Ahead(s, tid)
    ensures OnlyExits(s, tid)
  {
  }

  lemma UnseenStepped(s: State, c: Choice, tid: int)
    requires Unseen(s, tid) && !c.StartSweep? && !c.StartScan?
    ensures Unseen(UserStep(s, c), tid)
  {
    if Elsewhere(s.pc, tid) {
      if !s.pc.Idle? {
        StepElsewhere(s, c, tid);
      } else if c.Pop? && s.queue != [] {
        PoppedAhead(s, UserStep(s, c), tid);
      }
    }
  }

  lemma UnseenNext(s: State, step: Step, tid: int)
    requires Unseen(s, tid) && Spares(step, tid)
    ensures Unseen(Next(s, step), tid)
  {
    NothingAheadOnlyExits(s, tid);
    match step
    case Kernel(call) => FiredSpares(s, call, tid);
    case Handle(h) => AdvancedAhead(s, h, tid);
    case User(c) => UnseenStepped(s, c, tid);
  }

  // ----- An exit that reaches userspace -----

  /** Userspace is dispatching an EXIT event of the thread, or has done so. */
  ghost predicate Forgetting(s: State, tid: int) {
    || (s.pc.Got? && IsExitOf(s.pc.e, tid))
    || (s.pc == Unpublishing([tid], []) && tid !in s.cache.tasks)
    || (Elsewhere(s.pc, tid) && tid !in s.cache.tasks && tid !in s.applied)
  }

  /** An EXIT event will be dispatched after the binding, or is, or has been. */
  ghost predicate Seen(s: State, tid: int) {
    && OnlyExits(s, tid)
    && ((Ahead(s, tid) && (Entering(s.pc, tid) || Elsewhere(s.pc, tid))) || Forgetting(s, tid))
  }

  lemma ForgettingStepped(s: State, c: Choice, tid: int)
    requires Forgetting(s, tid) && !s.pc.Idle?
    ensures var s' := UserStep(s, c);
            Forgetting(s', tid) && s'.handlers == s.handlers && s'.queue == s.queue
  {
    if s.pc == Unpublishing([tid], []) {
      assert [tid][1..] == [];
    } else if Elsewhere(s.pc, tid) {
      StepElsewhere(s, c, tid);
    }
  }

  lemma SeenPopped(s: State, tid: int)
    requires Seen(s, tid) && s.pc.Idle? && s.queue != []
    ensures Seen(UserStep(s, Pop), tid)
  {
    PoppedAhead(s, UserStep(s, Pop), tid);
  }

  lemma SeenStepped(s: State, c: Choice, tid: int)
    requires Seen(s, tid) && !c.StartSweep? && !c.StartScan?
    ensures Seen(UserStep(s, c), tid)
  {
    if s.pc.Idle? {
      if c.Pop? && s.queue != [] { SeenPopped(s, tid); }
    } else if Forgetting(s, tid) {
      ForgettingStepped(s, c, tid);
    } else if Elsewhere(s.pc, tid) {
      StepElsewhere(s, c, tid);
    }
  }

  lemma SeenNext(s: State, step: Step, tid: int)
    requires Seen(s, tid) && Spares(step, tid)
    ensures Seen(Next(s, step), tid)
  {
    match step
    case Kernel(call) => FiredSpares(s, call, tid);
    case Handle(h) => AdvancedAhead(s, h, tid);
    case User(c) => SeenStepped(s, c, tid);
  }

  // ----- The race -----

  lemma {:induction false} ExitRaceRun(s: State, steps: seq<Step>, tid: int, seen: bool)
    requires if seen then Seen(s, tid) else Unseen(s, tid)
    requires forall i :: 0 <= i < |steps| ==> Spares(steps[i], tid)
    ensures var end := Run(s, steps); if seen then Seen(end, tid) else Unseen(end, tid)
    decreases |steps|
  {
    if steps != [] {
      if seen { SeenNext(s, steps[0], tid); } else { UnseenNext(s, steps[0], tid); }
      ExitRaceRun(Next(s, steps[0]), steps[1..], tid, seen);
    }
  }

  /** Userspace is about to publish a thread that it found alive, for an event or in a scan that does
      not list the thread again. Of that number there may be exits on their way, of earlier threads,
      but nothing else. */
  ghost predicate AboutToPublish(s: State) {
    s.pc.Publishing? && Others(s.pc.rest, s.pc.tid) && OnlyExits(s, s.pc.tid)
  }

  /** If the thread exits at that point, then whatever else goes on, at every quiet end its entry is
      left behind exactly if it was not in the applied map and no earlier exit of its number was on
      its way: then no EXIT event is dispatched after the binding. */
  lemma ExitRaceLeavesEntryIff(s: State, pid: int, steps: seq<Step>)
    requires AboutToPublish(s) && forall i :: 0 <= i < |steps| ==> Spares(steps[i], s.pc.tid)
    requires Quiet(Run(Fired(s, ExitCall(pid, s.pc.tid)), steps))
    ensures var tid, end := s.pc.tid, Run(Fired(s, ExitCall(pid, s.pc.tid)), steps);
            && (tid in end.cache.tasks <==> tid !in s.applied && !Ahead(s, tid))
            && (tid in end.applied <==> tid !in s.applied && !Ahead(s, tid))
  {
    var tid, fired := s.pc.tid, Fired(s, ExitCall(pid, s.pc.tid));
    StartedAhead(s, ExitRemoves(pid, tid), tid);
    ExitRaceRun(fired, steps, tid, tid in s.applied || Ahead(s, tid));
    QuietHasNothingAhead(Run(fired, steps), tid);
  }

  lemma QuietHasNothingAhead(s: State, tid: int)
    requires Quiet(s)
    ensures !Ahead(s, tid)
  {
  }

  // ----- Both outcomes from the start of the program -----

  lemma AffinityOfThreadRules(pkg: string, thread: string, cfg: AppConfig)
    requires HasThreadRules(cfg.rules, pkg)
    ensures Affinity(pkg, thread, cfg).Some?
  {
  }

  /** The dispatch of an exec or a rename whose package has thread rules comes to a binding. */
  lemma EventBinds(s: State, pkg: string)
    requires s.pc.Got? && (s.pc.e.kind.Exec? || s.pc.e.kind.Rename?) && s.cache == EMPTY
    requires CommToPkg(CommStr(s.pc.e.comm), s.cfg.pkgs) == Some(pkg) && HasThreadRules(s.cfg.rules, pkg)
    ensures var s' := UserStep(s, Pop);
            && s'.pc.Binding? && s'.pc.tid == s.pc.e.tid && s'.pc.rest == []
            && s'.applied == s.applied && s'.handlers == s.handlers && s'.queue == s.queue
  {
    AffinityOfThreadRules(pkg, CommStr(s.pc.e.comm), s.cfg);
  }

  /** From a popped event to the point of publishing. */
  function Alive(): seq<Step> { [User(Pop), User(Answer(false))] }

  lemma AliveIsPublishing(s: State, pkg: string)
    requires s.pc.Got? && (s.pc.e.kind.Exec? || s.pc.e.kind.Rename?) && s.cache == EMPTY
    requires CommToPkg(CommStr(s.pc.e.comm), s.cfg.pkgs) == Some(pkg) && HasThreadRules(s.cfg.rules, pkg)
    ensures var r := Run(s, Alive());
            && r.pc.Publishing? && r.pc.tid == s.pc.e.tid && r.pc.rest == []
            && r.applied == s.applied && r.handlers == s.handlers && r.queue == s.queue
  {
    EventBinds(s, pkg);
    RunTwo(s, User(Pop), User(Answer(false)));
  }

  /** Such points are reached, with the applied map as it was: from any quiet point of a run with an
      empty cache, by a thread whose name the whitelist and the configuration know. */
  lemma AboutToPublishReached(s: State, pid: int, tid: int, comm: string, pkg: string)
    requires Quiet(s) && s.cache == EMPTY && Whitelisted(s, comm)
    requires CommToPkg(CommStr(comm), s.cfg.pkgs) == Some(pkg) && HasThreadRules(s.cfg.rules, pkg)
    ensures var r := Run(s, ExecPopped(pid, tid, comm) + Alive());
            && AboutToPublish(r) && r.pc.tid == tid && r.pc.rest == []
            && r.applied == s.applied && r.handlers == multiset{} && r.queue == []
  {
    ExecSubmitted(s, pid, tid, comm);
    RunAppend(s, ExecPopped(pid, tid, comm), Alive());
    AliveIsPublishing(s.(pc := Got(Event(Exec, pid, tid, comm))), pkg);
  }

  lemma NameAResolves()
    ensures |Stored("a")| == COMM_LEN && CommStr(Stored("a")) == "a"
  {
    StoredName("a");
    assert "a"[1..] == "";
    assert ValidUtf8("") && ValidUtf8("a");
    TrimPlainEnds("a");
  }

  /** The start of the program with one package and one thread rule, and its name whitelisted. */
  function DemoStart(topo: Topology, applied: map<int, set<nat>>): State {
    State(applied, {Window(Stored("a"), 0)}, [], multiset{}, EMPTY,
          A.StartConfig(A.Start([OneThreadEntry("a")], topo, None, None)), Idle)
  }

  lemma DemoReady(topo: Topology, applied: map<int, set<nat>>)
    ensures var s := DemoStart(topo, applied);
            && Initial(s) && Quiet(s) && Whitelisted(s, Stored("a"))
            && CommToPkg(CommStr(Stored("a")), s.cfg.pkgs) == Some("a") && HasThreadRules(s.cfg.rules, "a")
  {
    NameAResolves();
    A.OneThreadStart("a", topo);
    assert WindowHit(Stored("a"), DemoStart(topo, applied).keys);
  }

  /** A run to an entry that is left behind: the thread was not in the applied map. */
  lemma LeftEntryFromStart(topo: Topology, pid: int, tid: int)
    ensures var s := DemoStart(topo, map[]);
            var r := Run(s, ExecPopped(pid, tid, Stored("a")) + Alive());
            var end := Run(Fired(r, ExitCall(pid, tid)), [User(Pop), User(Pop)]);
            Initial(s) && AboutToPublish(r) && Quiet(end) && tid in end.cache.tasks
  {
    var s := DemoStart(topo, map[]);
    DemoReady(topo, map[]);
    AboutToPublishReached(s, pid, tid, Stored("a"), "a");
    LeftByExit(Run(s, ExecPopped(pid, tid, Stored("a")) + Alive()), pid);
  }

  lemma LeftByExit(r: State, pid: int)
    requires r.pc.Publishing? && r.pc.rest == [] && r.pc.tid !in r.applied && r.handlers == multiset{} && r.queue == []
    ensures var end := Run(Fired(r, ExitCall(pid, r.pc.tid)), [User(Pop), User(Pop)]);
            Quiet(end) && r.pc.tid in end.cache.tasks
  {
    Recorded(r);
  }

  lemma Recorded(r: State)
    requires r.pc.Publishing? && r.pc.rest == []
    ensures var end := Run(r, [User(Pop), User(Pop)]);
            end.pc == Idle && end.handlers == r.handlers && end.queue == r.queue && r.pc.tid in end.cache.tasks
  {
    RunTwo(r, User(Pop), User(Pop));
  }

  /** A tracked thread is renamed and exits before userspace looks at either event. */
  function RenamedThenExited(pid: int, tid: int, comm: string): seq<Step> {
    [Kernel(RenameCall(pid, tid, comm)), Handle(Submits(Event(Rename, pid, tid, comm)))]
    + [Kernel(ExitCall(pid, tid)), Handle(ExitRemoves(pid, tid)), Handle(Submits(ExitEvent(pid, tid)))]
  }

  lemma RenameQueued(s: State, pid: int, tid: int, comm: string)
    requires Quiet(s) && tid in s.applied && tid != 0
    ensures var e := Event(Rename, pid, tid, comm);
            Run(s, [Kernel(RenameCall(pid, tid, comm)), Handle(Submits(e))]) == s.(queue := [e])
  {
    var e := Event(Rename, pid, tid, comm);
    var s1 := s.(handlers := multiset{Submits(e)});
    assert Next(s, Kernel(RenameCall(pid, tid, comm))) == s1;
    OnlySubmitQueues(s1, e);
    RunTwo(s, Kernel(RenameCall(pid, tid, comm)), Handle(Submits(e)));
  }

  lemma BothQueued(s: State, pid: int, tid: int, comm: string)
    requires Quiet(s) && tid in s.applied && tid != 0
    ensures Run(s, RenamedThenExited(pid, tid, comm))
         == s.(applied := s.applied - {tid}, queue := [Event(Rename, pid, tid, comm), ExitEvent(pid, tid)])
  {
    var e := Event(Rename, pid, tid, comm);
    var s2 := s.(queue := [e]);
    var rename := [Kernel(RenameCall(pid, tid, comm)), Handle(Submits(e))];
    var exit := [Kernel(ExitCall(pid, tid)), Handle(ExitRemoves(pid, tid)), Handle(Submits(ExitEvent(pid, tid)))];
    RenameQueued(s, pid, tid, comm);
    RunAppend(s, rename, exit);
    ExitRaised(s2, pid, tid);
    RunThree(s2, exit[0], exit[1], exit[2]);
  }

  /** Then the number is used again, and the new thread is found alive for the old rename. */
  function OlderExitSteps(pid: int, tid: int): seq<Step> {
    RenamedThenExited(pid, tid, Stored("a")) + ([User(Pop)] + Alive())
  }

  lemma OlderExitPublishing(s: State, pid: int, tid: int, comm: string, pkg: string)
    requires Quiet(s) && s.cache == EMPTY && tid in s.applied && tid != 0
    requires CommToPkg(CommStr(comm), s.cfg.pkgs) == Some(pkg) && HasThreadRules(s.cfg.rules, pkg)
    ensures var r := Run(s, RenamedThenExited(pid, tid, comm) + ([User(Pop)] + Alive()));
            && r.pc.Publishing? && r.pc.tid == tid && r.pc.rest == []
            && tid !in r.applied && r.handlers == multiset{} && r.queue == [ExitEvent(pid, tid)]
  {
    var both := Run(s, RenamedThenExited(pid, tid, comm));
    BothQueued(s, pid, tid, comm);
    assert both.queue[1..] == [ExitEvent(pid, tid)];
    RunAppend(s, RenamedThenExited(pid, tid, comm), [User(Pop)] + Alive());
    RunOne(both, User(Pop));
    RunAppend(both, [User(Pop)], Alive());
    AliveIsPublishing(Next(both, User(Pop)), pkg);
  }

  lemma OlderExitReached(topo: Topology, pid: int, tid: int)
    requires tid != 0
    ensures var s := DemoStart(topo, map[tid := {}]);
            var r := Run(s, OlderExitSteps(pid, tid));
            && Initial(s) && r.pc.Publishing? && r.pc.tid == tid && r.pc.rest == []
            && tid !in r.applied && r.handlers == multiset{} && r.queue == [ExitEvent(pid, tid)]
  {
    DemoReady(topo, map[tid := {}]);
    OlderExitPublishing(DemoStart(topo, map[tid := {}]), pid, tid, Stored("a"), "a");
  }

  /** Userspace pops one EXIT event and dispatches it. */
  function Dispatches(): seq<Step> { [User(Pop), User(Pop)] + [User(Pop), User(Pop)] }

  lemma ExitDispatched(s: State, pid: int, tid: int)
    requires s.pc == Idle && s.handlers == multiset{} && s.queue == [ExitEvent(pid, tid)]
    ensures Quiet(Run(s, Dispatches())) && tid !in Run(s, Dispatches()).cache.tasks
  {
    RunTwo(s, User(Pop), User(Pop));
    var s2 := Run(s, [User(Pop), User(Pop)]);
    assert s.queue[1..] == [];
    assert s2.pc == Unpublishing([tid], []) && s2.queue == [] && tid !in s2.cache.tasks;
    RunAppend(s, [User(Pop), User(Pop)], [User(Pop), User(Pop)]);
    RunTwo(s2, User(Pop), User(Pop));
    assert [tid][1..] == [];
  }

  lemma OlderExitClears(r: State, pid: int)
    requires r.pc.Publishing? && r.pc.rest == [] && r.pc.tid !in r.applied
    requires r.handlers == multiset{} && r.queue == [ExitEvent(pid, r.pc.tid)]
    ensures var end := Run(Fired(r, ExitCall(pid, r.pc.tid)), [User(Pop), User(Pop)] + Dispatches());
            AboutToPublish(r) && Ahead(r, r.pc.tid) && Quiet(end) && r.pc.tid !in end.cache.tasks
  {
    assert r.queue[0].tid == r.pc.tid;
    Recorded(r);
    RunAppend(r, [User(Pop), User(Pop)], Dispatches());
    ExitDispatched(Run(r, [User(Pop), User(Pop)]), pid, r.pc.tid);
  }

  /** A run in which nothing is left behind although the thread was not in the applied map: the EXIT
      event of an earlier thread of that number was still queued. */
  lemma OlderExitFromStart(topo: Topology, pid: int, tid: int)
    requires tid != 0
    ensures var s := DemoStart(topo, map[tid := {}]);
            var r := Run(s, OlderExitSteps(pid, tid));
            var end := Run(Fired(r, ExitCall(pid, tid)), [User(Pop), User(Pop)] + Dispatches());
            && Initial(s) && AboutToPublish(r) && r.pc.tid == tid && tid !in r.applied && Ahead(r, tid)
            && Quiet(end) && tid !in end.cache.tasks
  {
    OlderExitReached(topo, pid, tid);
    OlderExitClears(Run(DemoStart(topo, map[tid := {}]), OlderExitSteps(pid, tid)), pid);
  }
}
