/**
 From a thread's deed in the kernel to what userspace makes of it, in eBPF mode: for a fork, an exec, a
 rename and an exit, from a quiet point of the protocol in Interleaving.dfy to the next one.
 */
module EventPaths {
  import opened Strings
  import opened CpuSets
  import W = Words
  import R = Ranges
  import opened Config
  import opened RuleMatch
  import opened AffinityMeaning
  import opened Whitelist
  import opened ProcCaches
  import opened EventMode
  import opened Interleaving
  import opened Atomicity

  // ----- What the kernel passes on -----

  predicate Tracked(s: State, tid: int) { tid in s.applied }

  /** The kernel raises nothing about a thread that it neither tracks nor knows by name. */
  lemma KernelIgnores(s: State, pid: int, tid: int, comm: string)
    requires !Tracked(s, tid)
    ensures Fired(s, ExitCall(pid, tid)) == s
    ensures !Whitelisted(s, comm) ==> Fired(s, RenameCall(pid, tid, comm)) == s && Fired(s, ExecCall(pid, tid, comm)) == s
    ensures Fired(s, RenameCall(pid, 0, comm)) == s
    ensures !Whitelisted(s, comm) ==> forall child :: Fired(s, ForkCall(tid, pid, child, comm)) == s
  {
  }

  // ----- What a binding leads to -----

  /** What is published of a mask is its first word. */
  lemma FirstWordIsFirst(words: seq<nat>, cpu: nat)
    requires |words| == CPU_WORDS
    ensures cpu in FirstWord(SetOf(words)) <==> cpu < W.CPU_WORD_BITS && W.Tests(words[0], cpu)
  {
    R.TestsMembership(words, 0);
  }

  /** From `s` to the quiet state `end`, the thread got what the affinity demands: nothing, its old
      binding if that is by a thread rule and the new one is not, or the new one, published, or, if it
      has exited, the removal of the old one. */
  ghost predicate Ends(s: State, end: State, tid: int, pid: int, a: Option<AffinityResult>, alive: bool) {
    && Quiet(end) && end == s.(cache := end.cache, applied := end.applied)
    && match a
       case None => end.cache.tasks == s.cache.tasks && end.applied == s.applied
       case Some(r) =>
         if !r.isThreadRule && tid in s.cache.tasks && s.cache.tasks[tid].isThreadRule then
           end.cache.tasks == s.cache.tasks && end.applied == s.applied
         else if !alive then
           end.cache.tasks == s.cache.tasks - {tid} && end.applied == s.applied
         else
           && end.cache.tasks == s.cache.tasks[tid := TaskEntry(pid, r.cpus, r.dir, r.isThreadRule)]
           && end.applied == s.applied[tid := set cpu | cpu in r.cpus && cpu < 64]
  }

  /** The process goes by this package: as cached, else as its thread's name resolves. */
  ghost predicate KnownAs(s: State, pid: int, name: string, pkg: string, htr: bool) {
    if pid in s.cache.pkgs then s.cache.pkgs[pid] == (pkg, htr)
    else CommToPkg(name, s.cfg.pkgs) == Some(pkg) && (htr <==> HasPattern(s.cfg.rules, pkg))
  }

  predicate Unknown(s: State, pid: int, name: string) {
    pid !in s.cache.pkgs && CommToPkg(name, s.cfg.pkgs) == None
  }

  lemma KnownLooksUp(s: State, pid: int, name: string, pkg: string, htr: bool)
    requires KnownAs(s, pid, name, pkg, htr)
    ensures LookedUp(s.cache, pid, name, s.cfg) == Some((pkg, htr))
  {
    HasThreadRulesIn(s.cfg.rules, pkg);
  }

  /** Only the tasks of the cache enter into a decision. */
  lemma DecideByTasks(a: Cache, b: Cache, tid: int, pid: int, pkg: string, comm: string, htr: bool, trust: bool, cfg: AppConfig)
    requires a.tasks == b.tasks
    ensures Decide(a, tid, pid, pkg, comm, htr, trust, cfg) == Decide(b, tid, pid, pkg, comm, htr, trust, cfg)
  {
  }

  lemma {:induction false} DecisionEnds(s: State, end: State, tid: int, pid: int, pkg: string, name: string, htr: bool, trust: bool, dead: bool)
    requires Quiet(end) && end == s.(cache := end.cache, applied := end.applied)
    requires var d := Decide(s.cache, tid, pid, pkg, name, htr, trust, s.cfg);
             end.cache.tasks == Decided(s.cache, tid, d, dead).tasks && end.applied == Bound(SideOf(s), tid, d, dead).applied
    ensures Ends(s, end, tid, pid, Affinity(pkg, if htr && trust then name else "", s.cfg), !dead)
  {
    assert ThreadName(name, htr, trust) == if htr && trust then name else "";
  }

  lemma {:induction false} AppliedIsBound(s: Side, e: Event, cfg: AppConfig, trust: bool, pkg: string, htr: bool, dead: bool)
    requires LookedUp(s.cache, e.pid, CommStr(e.comm), cfg) == Some((pkg, htr))
    ensures var c := s.cache.(pkgs := s.cache.pkgs[e.pid := (pkg, htr)]);
            var d := Decide(c, e.tid, e.pid, pkg, CommStr(e.comm), htr, trust, cfg);
            EventApplied(s, e, cfg, trust, dead) == Bound(s.(cache := c), e.tid, d, dead)
  {
  }

  /** The dispatch of an event whose process is known. */
  lemma {:induction false} EventApplies(s: Side, e: Event, cfg: AppConfig, trust: bool, pkg: string, htr: bool, dead: bool)
    requires LookedUp(s.cache, e.pid, CommStr(e.comm), cfg) == Some((pkg, htr))
    ensures var end := EventApplied(s, e, cfg, trust, dead);
            var d := Decide(s.cache, e.tid, e.pid, pkg, CommStr(e.comm), htr, trust, cfg);
            && e.pid in end.cache.pkgs && end.cache.pkgs[e.pid] == (pkg, htr)
            && end.cache.tasks == Decided(s.cache, e.tid, d, dead).tasks && end.applied == Bound(s, e.tid, d, dead).applied
  {
    var c := s.cache.(pkgs := s.cache.pkgs[e.pid := (pkg, htr)]);
    AppliedIsBound(s, e, cfg, trust, pkg, htr, dead);
    DecideByTasks(c, s.cache, e.tid, e.pid, pkg, CommStr(e.comm), htr, trust, cfg);
    BoundByTasks(s, c, e.tid, Decide(s.cache, e.tid, e.pid, pkg, CommStr(e.comm), htr, trust, cfg), dead);
  }

  lemma BoundByTasks(s: Side, c: Cache, tid: int, d: Decision, dead: bool)
    requires c.tasks == s.cache.tasks
    ensures var end := Bound(s.(cache := c), tid, d, dead);
            end.cache.pkgs == c.pkgs && end.cache.tasks == Decided(s.cache, tid, d, dead).tasks && end.applied == Bound(s, tid, d, dead).applied
  {
  }

  /** The state in which userspace has popped the event, nothing else being in flight. */
  predicate Popped(s: State, got: State, e: Event) {
    Quiet(s) && got == s.(pc := Got(e))
  }

  lemma {:induction false} KnownEventEnds(s: State, e: Event, trust: bool, pkg: string, htr: bool, live: set<int>, dead: bool) returns (end: State)
    requires Quiet(s) && KnownAs(s, e.pid, CommStr(e.comm), pkg, htr) && (dead <==> e.tid !in live)
    ensures end == WithSide(s, EventApplied(SideOf(s), e, s.cfg, trust, dead), Idle)
    ensures LookedUp(s.cache, e.pid, CommStr(e.comm), s.cfg).Some?
    ensures Ends(s, end, e.tid, e.pid, Affinity(pkg, if htr && trust then CommStr(e.comm) else "", s.cfg), !dead)
    ensures e.pid in end.cache.pkgs && end.cache.pkgs[e.pid] == (pkg, htr)
  {
    KnownLooksUp(s, e.pid, CommStr(e.comm), pkg, htr);
    EventApplies(SideOf(s), e, s.cfg, trust, pkg, htr, dead);
    end := WithSide(s, EventApplied(SideOf(s), e, s.cfg, trust, dead), Idle);
    DecisionEnds(s, end, e.tid, e.pid, pkg, CommStr(e.comm), htr, trust, dead);
  }

  /** What userspace makes of a popped fork or rename of a known process, left alone. */
  lemma {:induction false} KnownEventAlone(s: State, got: State, e: Event, pkg: string, htr: bool, live: set<int>) returns (fuel: nat)
    requires Popped(s, got, e) && (e.kind.Fork? || e.kind.Rename?) && KnownAs(s, e.pid, CommStr(e.comm), pkg, htr)
    ensures var end := Alone(got, live, fuel);
            var trusted := e.kind.Rename? || e.tid == e.pid;
            && Ends(s, end, e.tid, e.pid, Affinity(pkg, if htr && trusted then CommStr(e.comm) else "", s.cfg), e.tid in live)
            && e.pid in end.cache.pkgs && end.cache.pkgs[e.pid] == (pkg, htr)
  {
    var dead := e.tid !in live;
    fuel := AloneIsDispatched(got, live);
    var end := KnownEventEnds(s, e, e.kind.Rename? || e.tid == e.pid, pkg, htr, live, dead);
    assert Alone(got, live, fuel) == end;
  }

  /** Of a process that is not known, nothing. */
  lemma {:induction false} UnknownEventAlone(s: State, got: State, e: Event, live: set<int>) returns (fuel: nat)
    requires Popped(s, got, e) && (e.kind.Fork? || e.kind.Rename?) && Unknown(s, e.pid, CommStr(e.comm))
    ensures Alone(got, live, fuel) == s
  {
    fuel := AloneIsDispatched(got, live);
    assert !Resolved(SideOf(s), e, s.cfg);
  }

  // ----- Rename -----

  function RenamePopped(pid: int, tid: int, comm: string): seq<Step> {
    [Kernel(RenameCall(pid, tid, comm)), Handle(Submits(Event(Rename, pid, tid, comm))), User(Pop)]
  }

  lemma RenameSubmitted(s: State, pid: int, tid: int, comm: string)
    requires Quiet(s) && tid != 0 && (Tracked(s, tid) || Whitelisted(s, comm))
    ensures Popped(s, Run(s, RenamePopped(pid, tid, comm)), Event(Rename, pid, tid, comm))
  {
    var e := Event(Rename, pid, tid, comm);
    var call, submit := Kernel(RenameCall(pid, tid, comm)), Handle(Submits(e));
    var s1 := s.(handlers := multiset{Submits(e)});
    assert Next(s, call) == s1;
    OnlySubmitQueues(s1, e);
    RunThree(s, call, submit, User(Pop));
  }

  /** A thread that the kernel tracks or knows by its new name is renamed, and its process is known: it
      ends with what the new name demands. */
  lemma RenameReachesBinding(s: State, pid: int, tid: int, comm: string, pkg: string, htr: bool, live: set<int>) returns (fuel: nat)
    requires Quiet(s) && tid != 0 && (Tracked(s, tid) || Whitelisted(s, comm))
    requires KnownAs(s, pid, CommStr(comm), pkg, htr)
    ensures var end := Alone(Run(s, RenamePopped(pid, tid, comm)), live, fuel);
            && Ends(s, end, tid, pid, Affinity(pkg, if htr then CommStr(comm) else "", s.cfg), tid in live)
            && pid in end.cache.pkgs && end.cache.pkgs[pid] == (pkg, htr)
  {
    RenameSubmitted(s, pid, tid, comm);
    fuel := KnownEventAlone(s, Run(s, RenamePopped(pid, tid, comm)), Event(Rename, pid, tid, comm), pkg, htr, live);
  }

  lemma RenameOfUnknown(s: State, pid: int, tid: int, comm: string, live: set<int>) returns (fuel: nat)
    requires Quiet(s) && tid != 0 && (Tracked(s, tid) || Whitelisted(s, comm)) && Unknown(s, pid, CommStr(comm))
    ensures Alone(Run(s, RenamePopped(pid, tid, comm)), live, fuel) == s
  {
    RenameSubmitted(s, pid, tid, comm);
    fuel := UnknownEventAlone(s, Run(s, RenamePopped(pid, tid, comm)), Event(Rename, pid, tid, comm), live);
  }

  // ----- Fork -----

  /** The fork of a tracked thread: its handler inserts the child and submits the event. */
  function ForkQueued(parent: int, pid: int, child: int, comm: string): seq<Step> {
    var e := Event(Fork, pid, child, comm);
    [Kernel(ForkCall(parent, pid, child, comm)), Handle(ForkInserts(e)), Handle(Submits(e))]
  }

  /** From then on the child is tracked, and its event is queued. */
  lemma TrackedForkQueued(s: State, parent: int, pid: int, child: int, comm: string)
    requires Quiet(s) && Tracked(s, parent)
    ensures Run(s, ForkQueued(parent, pid, child, comm))
         == s.(applied := s.applied[child := {}], queue := [Event(Fork, pid, child, comm)])
  {
    var e := Event(Fork, pid, child, comm);
    var s1 := s.(handlers := multiset{ForkInserts(e)});
    var s2 := s.(applied := s.applied[child := {}], handlers := multiset{Submits(e)});
    assert Fired(s, ForkCall(parent, pid, child, comm)) == s1;
    ForkInsertsAlone(s1, e);
    OnlySubmitQueues(s2, e);
    RunThree(s, Kernel(ForkCall(parent, pid, child, comm)), Handle(ForkInserts(e)), Handle(Submits(e)));
  }

  lemma ForkInsertsAlone(s: State, e: Event)
    requires s.handlers == multiset{ForkInserts(e)}
    ensures Advanced(s, ForkInserts(e)) == s.(applied := s.applied[e.tid := {}], handlers := multiset{Submits(e)})
  {
  }

  lemma QueuedIsPopped(s: State, e: Event)
    requires s.pc == Idle && s.queue == [e]
    ensures Run(s, [User(Pop)]) == s.(queue := [], pc := Got(e))
  {
    RunOne(s, User(Pop));
    assert s.queue[1..] == [];
  }

  /** The child of a tracked thread, whose process is known, ends tracked and with what the package
      demands; its name, still its parent's, counts only if it is the process's first thread. */
  lemma ForkReachesBinding(s: State, parent: int, pid: int, child: int, comm: string, pkg: string, htr: bool, live: set<int>)
    returns (fuel: nat)
    requires Quiet(s) && Tracked(s, parent) && KnownAs(s, pid, CommStr(comm), pkg, htr)
    ensures var end := Alone(Run(s, ForkQueued(parent, pid, child, comm) + [User(Pop)]), live, fuel);
            var name := if htr && child == pid then CommStr(comm) else "";
            && Tracked(end, child)
            && Ends(s.(applied := s.applied[child := {}]), end, child, pid, Affinity(pkg, name, s.cfg), child in live)
            && pid in end.cache.pkgs && end.cache.pkgs[pid] == (pkg, htr)
  {
    var e := Event(Fork, pid, child, comm);
    var s' := s.(applied := s.applied[child := {}]);
    TrackedForkQueued(s, parent, pid, child, comm);
    RunAppend(s, ForkQueued(parent, pid, child, comm), [User(Pop)]);
    QueuedIsPopped(s'.(queue := [e]), e);
    fuel := KnownEventAlone(s', s'.(pc := Got(e)), e, pkg, htr, live);
  }

  lemma ForkOfUnknown(s: State, parent: int, pid: int, child: int, comm: string, live: set<int>) returns (fuel: nat)
    requires Quiet(s) && Tracked(s, parent) && Unknown(s, pid, CommStr(comm))
    ensures Alone(Run(s, ForkQueued(parent, pid, child, comm) + [User(Pop)]), live, fuel) == s.(applied := s.applied[child := {}])
  {
    var e := Event(Fork, pid, child, comm);
    var s' := s.(applied := s.applied[child := {}]);
    TrackedForkQueued(s, parent, pid, child, comm);
    RunAppend(s, ForkQueued(parent, pid, child, comm), [User(Pop)]);
    QueuedIsPopped(s'.(queue := [e]), e);
    fuel := UnknownEventAlone(s', s'.(pc := Got(e)), e, live);
  }

  /** The fork of a thread that is not tracked, under a whitelisted name, only submits the event. */
  function ForkPopped(parent: int, pid: int, child: int, comm: string): seq<Step> {
    [Kernel(ForkCall(parent, pid, child, comm)), Handle(Submits(Event(Fork, pid, child, comm))), User(Pop)]
  }

  lemma ForkSubmitted(s: State, parent: int, pid: int, child: int, comm: string)
    requires Quiet(s) && !Tracked(s, parent) && Whitelisted(s, comm)
    ensures Popped(s, Run(s, ForkPopped(parent, pid, child, comm)), Event(Fork, pid, child, comm))
  {
    var e := Event(Fork, pid, child, comm);
    var call, submit := Kernel(ForkCall(parent, pid, child, comm)), Handle(Submits(e));
    var s1 := s.(handlers := multiset{Submits(e)});
    assert Next(s, call) == s1;
    OnlySubmitQueues(s1, e);
    RunThree(s, call, submit, User(Pop));
  }

  lemma NamedForkReachesBinding(s: State, parent: int, pid: int, child: int, comm: string, pkg: string, htr: bool, live: set<int>)
    returns (fuel: nat)
    requires Quiet(s) && !Tracked(s, parent) && Whitelisted(s, comm) && KnownAs(s, pid, CommStr(comm), pkg, htr)
    ensures var end := Alone(Run(s, ForkPopped(parent, pid, child, comm)), live, fuel);
            var name := if htr && child == pid then CommStr(comm) else "";
            && Ends(s, end, child, pid, Affinity(pkg, name, s.cfg), child in live)
            && pid in end.cache.pkgs && end.cache.pkgs[pid] == (pkg, htr)
  {
    ForkSubmitted(s, parent, pid, child, comm);
    fuel := KnownEventAlone(s, Run(s, ForkPopped(parent, pid, child, comm)), Event(Fork, pid, child, comm), pkg, htr, live);
  }

  // ----- Exec -----

  /** A new program is never taken for what was cached. */
  function Afresh(s: State, pid: int): State {
    s.(cache := s.cache.(pkgs := s.cache.pkgs - {pid}))
  }

  lemma ExecIsDispatched(s: State, e: Event, live: set<int>, dead: bool)
    requires e.kind.Exec? && Resolved(SideOf(Afresh(s, e.pid)), e, s.cfg)
    ensures Dispatched(SideOf(s), e, s.cfg, dead) == EventApplied(SideOf(Afresh(s, e.pid)), e, s.cfg, true, dead)
  {
  }

  /** What userspace makes of a popped exec under a name that resolves. */
  lemma {:induction false} ExecAlone(s: State, got: State, e: Event, pkg: string, live: set<int>) returns (fuel: nat)
    requires Popped(s, got, e) && e.kind.Exec? && CommToPkg(CommStr(e.comm), s.cfg.pkgs) == Some(pkg)
    ensures var end := Alone(got, live, fuel);
            var htr := HasThreadRules(s.cfg.rules, pkg);
            && Ends(s, end, e.tid, e.pid, Affinity(pkg, if htr then CommStr(e.comm) else "", s.cfg), e.tid in live)
            && e.pid in end.cache.pkgs && end.cache.pkgs[e.pid] == (pkg, htr)
  {
    var s0, dead, htr := Afresh(s, e.pid), e.tid !in live, HasThreadRules(s.cfg.rules, pkg);
    HasThreadRulesIn(s.cfg.rules, pkg);
    fuel := AloneIsDispatched(got, live);
    var end := KnownEventEnds(s0, e, true, pkg, htr, live, dead);
    ExecIsDispatched(s, e, live, dead);
    assert Alone(got, live, fuel) == end;
  }

  /** With the whitelist of its packages: when a thread runs a new program under a name as the kernel
      stores it that resolves to a package, the kernel passes the event, and the thread ends with what
      its package and name demand. */
  lemma ExecReachesBinding(s: State, pid: int, tid: int, comm: string, pkg: string, live: set<int>) returns (fuel: nat)
    requires Quiet(s) && forall k :: k in s.keys <==> IsKey(s.cfg.pkgs, k)
    requires |comm| == COMM_LEN && NulPadded(comm) && ValidUtf8(BeforeNul(comm))
    requires BeforeNul(comm) != "" && Trim(BeforeNul(comm)) == BeforeNul(comm)
    requires CommToPkg(BeforeNul(comm), s.cfg.pkgs) == Some(pkg)
    ensures var end := Alone(Run(s, ExecPopped(pid, tid, comm)), live, fuel);
            var htr := HasThreadRules(s.cfg.rules, pkg);
            && Ends(s, end, tid, pid, Affinity(pkg, if htr then BeforeNul(comm) else "", s.cfg), tid in live)
            && pid in end.cache.pkgs && end.cache.pkgs[pid] == (pkg, htr)
  {
    PlainName(comm);
    PrefilterHasNoFalseNegatives(comm, s.cfg.pkgs, s.keys);
    ExecSubmitted(s, pid, tid, comm);
    fuel := ExecAlone(s, Run(s, ExecPopped(pid, tid, comm)), Event(Exec, pid, tid, comm), pkg, live);
  }

  /** From `s` to `end` the thread was forgotten, and with it the process if it was its last thread; a
      `dropped` process is forgotten in any case. */
  ghost predicate Forgot(s: State, end: State, tid: int, dropped: set<int>) {
    && Quiet(end) && end.cache.tasks == s.cache.tasks - {tid} && end.applied == s.applied - {tid}
    && (forall p :: p in end.cache.pkgs <==>
          && p in s.cache.pkgs && p !in dropped
          && !(tid in s.cache.tasks && s.cache.tasks[tid].pid == p && forall t :: t in s.cache.tasks && t != tid ==> s.cache.tasks[t].pid != p))
    && (forall p :: p in end.cache.pkgs ==> end.cache.pkgs[p] == s.cache.pkgs[p])
  }

  lemma OwnsOther(tasks: map<int, TaskEntry>, tid: int, pid: int)
    ensures !OwnsTask(tasks - {tid}, pid) <==> forall t :: t in tasks && t != tid ==> tasks[t].pid != pid
  {
    var rest := tasks - {tid};
    if OwnsTask(rest, pid) {
      var t :| t in rest && rest[t].pid == pid;
      assert t in tasks && t != tid;
    }
    forall t | t in tasks && t != tid ensures t in rest && rest[t] == tasks[t] {}
  }

  lemma {:induction false} ForgottenMeans(s: State, pkgs: map<int, (string, bool)>, end: State, tid: int, dropped: set<int>)
    requires Quiet(s) && pkgs == s.cache.pkgs - dropped
    requires end == WithSide(s, Forgotten(Side(Cache(pkgs, s.cache.tasks), s.applied), tid), Idle)
    ensures Forgot(s, end, tid, dropped)
  {
    if tid in s.cache.tasks { OwnsOther(s.cache.tasks, tid, s.cache.tasks[tid].pid); }
  }

  /** A thread that runs a program under a whitelisted name that no package explains is forgotten, and
      what was cached of its process too. */
  lemma UnknownExecIsForgotten(s: State, pid: int, tid: int, comm: string, live: set<int>) returns (fuel: nat)
    requires Quiet(s) && Whitelisted(s, comm) && CommToPkg(CommStr(comm), s.cfg.pkgs) == None
    ensures Forgot(s, Alone(Run(s, ExecPopped(pid, tid, comm)), live, fuel), tid, {pid})
  {
    var e := Event(Exec, pid, tid, comm);
    ExecSubmitted(s, pid, tid, comm);
    fuel := AloneIsDispatched(s.(pc := Got(e)), live);
    assert !Resolved(SideOf(Afresh(s, pid)), e, s.cfg);
    ForgottenMeans(s, s.cache.pkgs - {pid}, Alone(s.(pc := Got(e)), live, fuel), tid, {pid});
  }

  // ----- Exit -----

  /** A tracked thread that exits is forgotten, and its process if it was the first or the last thread. */
  lemma ExitIsForgotten(s: State, pid: int, tid: int, live: set<int>) returns (fuel: nat)
    requires Quiet(s) && Tracked(s, tid)
    ensures Forgot(s, Alone(Next(Exited(s, pid, tid), User(Pop)), live, fuel), tid, if tid == pid then {pid} else {})
  {
    var e, s' := ExitEvent(pid, tid), s.(applied := s.applied - {tid});
    ExitRaised(s, pid, tid);
    assert Next(Exited(s, pid, tid), User(Pop)) == s'.(pc := Got(e));
    fuel := AloneIsDispatched(s'.(pc := Got(e)), live);
    var dropped := if tid == pid then {pid} else {};
    assert s'.applied - {tid} == s.applied - {tid};
    assert s.cache.pkgs - {} == s.cache.pkgs;
    ForgottenMeans(s, s.cache.pkgs - dropped, Alone(s'.(pc := Got(e)), live, fuel), tid, dropped);
  }

  // ----- A run of two -----

  /** A process is started under a resolvable name, and then another thread of it that the kernel tracks
      is renamed: to whatever name, it ends with what that name demands in the process's package. */
  lemma ExecThenRename(s: State, pid: int, comm: string, pkg: string, t: int, name: string, live: set<int>)
    returns (mid: State, fuel: nat, fuel': nat)
    requires Quiet(s) && forall k :: k in s.keys <==> IsKey(s.cfg.pkgs, k)
    requires |comm| == COMM_LEN && NulPadded(comm) && ValidUtf8(BeforeNul(comm))
    requires BeforeNul(comm) != "" && Trim(BeforeNul(comm)) == BeforeNul(comm)
    requires CommToPkg(BeforeNul(comm), s.cfg.pkgs) == Some(pkg) && Tracked(s, t) && t != pid && t != 0
    ensures mid == Alone(Run(s, ExecPopped(pid, pid, comm)), live, fuel)
    ensures var end := Alone(Run(mid, RenamePopped(pid, t, name)), live, fuel');
            var htr := HasThreadRules(s.cfg.rules, pkg);
            Ends(mid, end, t, pid, Affinity(pkg, if htr then CommStr(name) else "", s.cfg), t in live)
  {
    var htr := HasThreadRules(s.cfg.rules, pkg);
    fuel := ExecReachesBinding(s, pid, pid, comm, pkg, live);
    mid := Alone(Run(s, ExecPopped(pid, pid, comm)), live, fuel);
    EndsKeepsTracked(s, mid, pid, pid, Affinity(pkg, if htr then BeforeNul(comm) else "", s.cfg), pid in live, t);
    fuel' := RenameReachesBinding(mid, pid, t, name, pkg, htr, live);
  }

  lemma {:induction false} EndsKeepsTracked(s: State, end: State, tid: int, pid: int, a: Option<AffinityResult>, alive: bool, t: int)
    requires Ends(s, end, tid, pid, a, alive) && Tracked(s, t)
    ensures Tracked(end, t) && end.cfg == s.cfg
  {
  }
}
