/**
 What holds of the cache in every run of Interleaving.dfy, with the kernel and userspace stepping
 against each other: cached flags are fresh, directories agree with masks, and a thread-rule
 binding stays one until it is removed.
 */
module RunProperties {
  import opened Strings
  import opened Config
  import opened RuleMatch
  import opened Whitelist
  import opened ProcCaches
  import opened EventMode
  import opened Interleaving
  import A = AutoCache

  // ----- Flags and directories -----

  ghost predicate PcOk(pc: Pc, cfg: AppConfig) {
    match pc
    case Binding(_, entry, rest) => EntryAgrees(entry, cfg.topo.present) && ItemsOk(rest, cfg)
    case Publishing(_, entry, rest) => EntryAgrees(entry, cfg.topo.present) && ItemsOk(rest, cfg)
    case Recording(_, entry, rest) => EntryAgrees(entry, cfg.topo.present) && ItemsOk(rest, cfg)
    case Unpublishing(_, rest) => ItemsOk(rest, cfg)
    case Scanning(rest) => ItemsOk(rest, cfg)
    case _ => true
  }

  ghost predicate CacheOk(c: Cache, cfg: AppConfig) {
    FreshFlags(c.pkgs, cfg) && EntriesAgree(c.tasks, cfg.topo.present)
  }

  ghost predicate StateOk(s: State) {
    CacheOk(s.cache, s.cfg) && DirsAgree(s.cfg.rules) && PcOk(s.pc, s.cfg)
  }

  lemma AfterOk(rest: seq<Item>, cfg: AppConfig)
    requires ItemsOk(rest, cfg)
    ensures PcOk(After(rest), cfg)
  {
  }

  lemma BegunOk(s: State, c: Cache, tid: int, d: Decision, rest: seq<Item>)
    requires CacheOk(c, s.cfg) && DirsAgree(s.cfg.rules) && ItemsOk(rest, s.cfg)
    requires d.Bind? ==> EntryAgrees(d.entry, s.cfg.topo.present)
    ensures StateOk(Begun(s, c, tid, d, rest))
  {
  }

  lemma EventBegunOk(s: State, c: Cache, e: Event, trust: bool)
    requires CacheOk(c, s.cfg) && DirsAgree(s.cfg.rules) && LookedUp(c, e.pid, CommStr(e.comm), s.cfg).Some?
    ensures StateOk(EventBegun(s, c, e, trust))
  {
    var comm := CommStr(e.comm);
    var (pkg, htr) := LookedUp(c, e.pid, comm, s.cfg).value;
    var c' := AfterLookup(c, e.pid, comm, s.cfg);
    LookupOk(Side(c, map[]), e.pid, comm, s.cfg);
    DecisionAgrees(c', e.tid, e.pid, pkg, comm, htr, trust, s.cfg);
    BegunOk(s, c', e.tid, Decide(c', e.tid, e.pid, pkg, comm, htr, trust, s.cfg), []);
  }

  lemma DispatchingOk(s: State, e: Event)
    requires StateOk(s)
    ensures StateOk(Dispatching(s, e))
  {
    var comm, without := CommStr(e.comm), s.cache.(pkgs := s.cache.pkgs - {e.pid});
    match e.kind
    case Exit =>
    case Exec => if LookedUp(without, e.pid, comm, s.cfg).Some? { EventBegunOk(s, without, e, true); }
    case Fork => if LookedUp(s.cache, e.pid, comm, s.cfg).Some? { EventBegunOk(s, s.cache, e, e.tid == e.pid); }
    case Rename => if LookedUp(s.cache, e.pid, comm, s.cfg).Some? { EventBegunOk(s, s.cache, e, true); }
    case OtherKind =>
  }

  lemma IdleOk(s: State, c: Choice)
    requires StateOk(s) && s.pc.Idle?
    ensures StateOk(UserStep(s, c))
  {
    if c.StartScan? {
      A.ReloadedDirsAgree(s.cfg, c.reload);
      if c.snap.Some? { ProcItemsOk(c.snap.value, |c.snap.value.procs|, A.Reloaded(s.cfg, c.reload)); }
    }
  }

  lemma SweepOk(s: State, c: Choice)
    requires StateOk(s) && s.pc.Sweeping?
    ensures StateOk(UserStep(s, c))
  {
    DeletionOrderIrrelevant(s.cache, s.pc.dead);
  }

  lemma ScanOk(s: State, c: Choice)
    requires StateOk(s) && s.pc.Scanning?
    ensures StateOk(UserStep(s, c))
  {
    var items := s.pc.rest;
    if items != [] {
      assert ItemsOk(items[1..], s.cfg);
      match items[0]
      case BindItem(tid, pid, pkg, comm, htr) =>
        DecisionAgrees(s.cache, tid, pid, pkg, comm, htr, true, s.cfg);
        BegunOk(s, s.cache, tid, Decide(s.cache, tid, pid, pkg, comm, htr, true, s.cfg), items[1..]);
      case PkgItem(_, _, _) => AfterOk(items[1..], s.cfg);
    }
  }

  lemma UserStepOk(s: State, c: Choice)
    requires StateOk(s)
    ensures StateOk(UserStep(s, c))
  {
    match s.pc
    case Idle => IdleOk(s, c);
    case Got(e) => DispatchingOk(s, e);
    case Binding(_, _, rest) => AfterOk(rest, s.cfg);
    case Publishing(_, _, _) =>
    case Recording(_, _, rest) => AfterOk(rest, s.cfg);
    case Unpublishing(_, rest) => AfterOk(rest, s.cfg);
    case Sweeping(_, _) => SweepOk(s, c);
    case Scanning(_) => ScanOk(s, c);
  }

  /** The kernel's steps leave the cache, the configuration and userspace's position alone. */
  lemma OnlyUserWrites(s: State, step: Step)
    requires !step.User?
    ensures var s' := Next(s, step); s'.cache == s.cache && s'.cfg == s.cfg && s'.pc == s.pc
  {
  }

  lemma EventBegunKeepsConfig(s: State, c: Cache, e: Event, trust: bool)
    requires LookedUp(c, e.pid, CommStr(e.comm), s.cfg).Some?
    ensures EventBegun(s, c, e, trust).cfg == s.cfg
  {
  }

  lemma DispatchingKeepsConfig(s: State, e: Event)
    ensures Dispatching(s, e).cfg == s.cfg
  {
    var comm, without := CommStr(e.comm), s.cache.(pkgs := s.cache.pkgs - {e.pid});
    match e.kind
    case Exit =>
    case Exec => if LookedUp(without, e.pid, comm, s.cfg).Some? { EventBegunKeepsConfig(s, without, e, true); }
    case Fork => if LookedUp(s.cache, e.pid, comm, s.cfg).Some? { EventBegunKeepsConfig(s, s.cache, e, e.tid == e.pid); }
    case Rename => if LookedUp(s.cache, e.pid, comm, s.cfg).Some? { EventBegunKeepsConfig(s, s.cache, e, true); }
    case OtherKind =>
  }

  lemma UserKeepsTopo(s: State, c: Choice)
    ensures UserStep(s, c).cfg.topo == s.cfg.topo
  {
    if s.pc.Got? { DispatchingKeepsConfig(s, s.pc.e); }
  }

  lemma NextOk(s: State, step: Step)
    requires StateOk(s)
    ensures StateOk(Next(s, step)) && Next(s, step).cfg.topo == s.cfg.topo
  {
    if step.User? {
      UserStepOk(s, step.choice);
      UserKeepsTopo(s, step.choice);
    } else {
      OnlyUserWrites(s, step);
    }
  }

  lemma {:induction false} RunStateOk(s: State, steps: seq<Step>)
    requires StateOk(s)
    ensures StateOk(Run(s, steps)) && Run(s, steps).cfg.topo == s.cfg.topo
    decreases |steps|
  {
    if steps != [] {
      NextOk(s, steps[0]);
      RunStateOk(Next(s, steps[0]), steps[1..]);
    }
  }

  /** At every step of every interleaving, whatever the files hold: a lookup hit gives the flag that
      recomputing it would give, each binding's directory is empty or names its mask, and no mask
      is empty if a CPU is present. */
  lemma InterleavedCacheOk(st: A.Start, s: State, steps: seq<Step>, pid: int, comm: string)
    requires Initial(s) && s.cfg == A.StartConfig(st)
    ensures var end := Run(s, steps);
            && EntriesAgree(end.cache.tasks, st.topo.present)
            && var r := LookedUp(end.cache, pid, comm, end.cfg);
               (r.Some? ==> r.value.1 == HasThreadRules(end.cfg.rules, r.value.0))
  {
    var end := Run(s, steps);
    A.StartDirsAgree(st);
    RunStateOk(s, steps);
    LookupOk(Side(end.cache, map[]), pid, comm, end.cfg);
  }

  // ----- What is asked of `task_apply` -----

  /** The arguments of a call of `task_apply`. */
  datatype Ask = Ask(cache: Cache, tid: int, pid: int, pkg: string, comm: string, hasThreadRules: bool, trustComm: bool)

  function DecisionOn(a: Ask, cfg: AppConfig): Decision {
    Decide(a.cache, a.tid, a.pid, a.pkg, a.comm, a.hasThreadRules, a.trustComm, cfg)
  }

  function EventAsk(c: Cache, e: Event, trustComm: bool, cfg: AppConfig): Option<Ask> {
    match LookedUp(c, e.pid, CommStr(e.comm), cfg)
    case None => None
    case Some((pkg, htr)) =>
      Some(Ask(AfterLookup(c, e.pid, CommStr(e.comm), cfg), e.tid, e.pid, pkg, CommStr(e.comm), htr, trustComm))
  }

  /** The call that the next step of userspace makes, if any. */
  function NextAsk(s: State): Option<Ask> {
    match s.pc
    case Got(e) =>
      (match e.kind
       case Exec => EventAsk(s.cache.(pkgs := s.cache.pkgs - {e.pid}), e, true, s.cfg)
       case Fork => EventAsk(s.cache, e, e.tid == e.pid, s.cfg)
       case Rename => EventAsk(s.cache, e, true, s.cfg)
       case _ => None)
    case Scanning(rest) =>
      if rest != [] && rest[0].BindItem?
      then Some(Ask(s.cache, rest[0].tid, rest[0].pid, rest[0].pkg, rest[0].comm, rest[0].hasThreadRules, true))
      else None
    case _ => None
  }

  lemma EventAskIsStep(s: State, c: Cache, e: Event, trust: bool)
    requires EventAsk(c, e, trust, s.cfg).Some?
    ensures var a := EventAsk(c, e, trust, s.cfg).value;
            EventBegun(s, c, e, trust) == Begun(s, a.cache, a.tid, DecisionOn(a, s.cfg), [])
  {
  }

  lemma AskIsStep(s: State, c: Choice)
    requires NextAsk(s).Some?
    ensures var a := NextAsk(s).value;
            UserStep(s, c) == Begun(s, a.cache, a.tid, DecisionOn(a, s.cfg), if s.pc.Scanning? then s.pc.rest[1..] else [])
  {
    if s.pc.Got? {
      var e := s.pc.e;
      match e.kind
      case Exec => EventAskIsStep(s, s.cache.(pkgs := s.cache.pkgs - {e.pid}), e, true);
      case Fork => EventAskIsStep(s, s.cache, e, e.tid == e.pid);
      case Rename => EventAskIsStep(s, s.cache, e, true);
    }
  }

  lemma EventAskFresh(c: Cache, e: Event, trust: bool, cfg: AppConfig)
    requires CacheOk(c, cfg) && EventAsk(c, e, trust, cfg).Some?
    ensures var a := EventAsk(c, e, trust, cfg).value; a.hasThreadRules == HasThreadRules(cfg.rules, a.pkg)
  {
    LookupOk(Side(c, map[]), e.pid, CommStr(e.comm), cfg);
  }

  lemma AskFresh(s: State)
    requires StateOk(s) && NextAsk(s).Some?
    ensures var a := NextAsk(s).value; a.hasThreadRules == HasThreadRules(s.cfg.rules, a.pkg)
  {
    if s.pc.Got? {
      var e := s.pc.e;
      match e.kind
      case Exec => EventAskFresh(s.cache.(pkgs := s.cache.pkgs - {e.pid}), e, true, s.cfg);
      case Fork => EventAskFresh(s.cache, e, e.tid == e.pid, s.cfg);
      case Rename => EventAskFresh(s.cache, e, true, s.cfg);
    }
  }

  /** At every step of every interleaving, for events and in scans: `task_apply` finds nothing exactly
      for a package without thread rules and without a CPU in its package rules, so a matched thread
      rule always leads to a binding or keeps one. */
  lemma InterleavedMatchBinds(st: A.Start, s: State, steps: seq<Step>)
    requires Initial(s) && s.cfg == A.StartConfig(st) && NextAsk(Run(s, steps)).Some?
    ensures var end := Run(s, steps);
            var a := NextAsk(end).value;
            && (DecisionOn(a, end.cfg).Unmatched? <==>
                  !HasThreadRules(end.cfg.rules, a.pkg) && UnionOf(PackageRules(end.cfg.rules, a.pkg)) == {})
            && (ThreadRules(end.cfg.rules, a.pkg, ThreadName(a.comm, a.hasThreadRules, a.trustComm)) != [] ==>
                  !DecisionOn(a, end.cfg).Unmatched?)
  {
    A.StartDirsAgree(st);
    RunStateOk(s, steps);
    var end := Run(s, steps);
    AskFresh(end);
    AskDecided(NextAsk(end).value, end.cfg);
  }

  lemma AskDecided(a: Ask, cfg: AppConfig)
    requires a.hasThreadRules == HasThreadRules(cfg.rules, a.pkg)
    ensures DecisionOn(a, cfg).Unmatched? <==> !a.hasThreadRules && UnionOf(PackageRules(cfg.rules, a.pkg)) == {}
    ensures ThreadRules(cfg.rules, a.pkg, ThreadName(a.comm, a.hasThreadRules, a.trustComm)) != [] ==>
              !DecisionOn(a, cfg).Unmatched?
  {
    UnmatchedIff(a.cache, a.tid, a.pid, a.pkg, a.comm, a.trustComm, cfg);
    if ThreadRules(cfg.rules, a.pkg, ThreadName(a.comm, a.hasThreadRules, a.trustComm)) != [] {
      MatchedRuleBinds(a.cache, a.tid, a.pid, a.pkg, a.comm, a.trustComm, cfg);
    }
  }

  // ----- Latching -----

  /** The thread has a thread-rule binding, or userspace is at work giving it a new one. */
  predicate Held(s: State, tid: int) {
    || (tid in s.cache.tasks && s.cache.tasks[tid].isThreadRule)
    || ((s.pc.Binding? || s.pc.Publishing? || s.pc.Recording?) && s.pc.tid == tid && s.pc.entry.isThreadRule)
  }

  /** Between the removal of an old entry and the insertion of the new one there is no entry, and an
      old binding by a thread rule is only replaced by another. */
  ghost predicate NoEntryWhileBinding(s: State) {
    s.pc.Binding? || s.pc.Publishing? || s.pc.Recording? ==> s.pc.tid !in s.cache.tasks
  }

  /** The step removes the thread's binding: a binding step that finds it dead, an exit, an exec to
      an unknown package, the end of a sweep that found it dead, or the start of a scan. */
  predicate Drops(s: State, c: Choice, tid: int) {
    match s.pc
    case Idle => c.StartScan?
    case Got(e) =>
      && e.tid == tid
      && (|| e.kind.Exit?
          || (e.kind.Exec? && LookedUp(s.cache.(pkgs := s.cache.pkgs - {e.pid}), e.pid, CommStr(e.comm), s.cfg).None?))
    case Binding(t, _, _) => t == tid && c == Answer(true)
    case Sweeping(todo, dead) => todo == {} && tid in dead
    case _ => false
  }

  predicate StepDrops(s: State, step: Step, tid: int) {
    step.User? && Drops(s, step.choice, tid)
  }

  lemma BegunHolds(s: State, c: Cache, tid: int, d: Decision, rest: seq<Item>, t: int)
    requires t in c.tasks && c.tasks[t].isThreadRule
    requires d.Bind? && tid == t ==> d.entry.isThreadRule
    ensures Held(Begun(s, c, tid, d, rest), t)
  {
  }

  lemma DecideLatches(c: Cache, tid: int, pid: int, pkg: string, comm: string, htr: bool, trust: bool, cfg: AppConfig)
    requires tid in c.tasks && c.tasks[tid].isThreadRule
    ensures var d := Decide(c, tid, pid, pkg, comm, htr, trust, cfg); d.Bind? ==> d.entry.isThreadRule
  {
  }

  lemma EventBegunHolds(s: State, c: Cache, e: Event, trust: bool, t: int)
    requires t in c.tasks && c.tasks[t].isThreadRule && LookedUp(c, e.pid, CommStr(e.comm), s.cfg).Some?
    ensures Held(EventBegun(s, c, e, trust), t)
  {
    var comm := CommStr(e.comm);
    var (pkg, htr) := LookedUp(c, e.pid, comm, s.cfg).value;
    var c' := AfterLookup(c, e.pid, comm, s.cfg);
    if t == e.tid { DecideLatches(c', t, e.pid, pkg, comm, htr, trust, s.cfg); }
    BegunHolds(s, c', e.tid, Decide(c', e.tid, e.pid, pkg, comm, htr, trust, s.cfg), [], t);
  }

  lemma ExecHolds(s: State, e: Event, t: int)
    requires t in s.cache.tasks && s.cache.tasks[t].isThreadRule && e.kind.Exec?
    ensures var without := s.cache.(pkgs := s.cache.pkgs - {e.pid});
            Held(Dispatching(s, e), t) <==> e.tid != t || LookedUp(without, e.pid, CommStr(e.comm), s.cfg).Some?
  {
    var without := s.cache.(pkgs := s.cache.pkgs - {e.pid});
    if LookedUp(without, e.pid, CommStr(e.comm), s.cfg).Some? { EventBegunHolds(s, without, e, true, t); }
  }

  lemma OtherHolds(s: State, e: Event, t: int)
    requires t in s.cache.tasks && s.cache.tasks[t].isThreadRule && !e.kind.Exec? && !e.kind.Exit?
    ensures Held(Dispatching(s, e), t)
  {
    if LookedUp(s.cache, e.pid, CommStr(e.comm), s.cfg).Some? {
      EventBegunHolds(s, s.cache, e, true, t);
      EventBegunHolds(s, s.cache, e, e.tid == e.pid, t);
    }
  }

  lemma ExitHolds(s: State, e: Event, t: int)
    requires t in s.cache.tasks && s.cache.tasks[t].isThreadRule && e.kind.Exit?
    ensures Held(Dispatching(s, e), t) <==> e.tid != t
  {
  }

  lemma GotHolds(s: State, c: Choice, t: int)
    requires s.pc.Got? && Held(s, t)
    ensures Held(UserStep(s, c), t) <==> !Drops(s, c, t)
  {
    var e := s.pc.e;
    if e.kind.Exec? {
      ExecHolds(s, e, t);
    } else if e.kind.Exit? {
      ExitHolds(s, e, t);
    } else {
      OtherHolds(s, e, t);
    }
  }

  lemma ScanHolds(s: State, c: Choice, t: int)
    requires s.pc.Scanning? && Held(s, t)
    ensures Held(UserStep(s, c), t)
  {
    if s.pc.rest != [] {
      match s.pc.rest[0]
      case BindItem(tid, pid, pkg, comm, htr) =>
        if t == tid { DecideLatches(s.cache, t, pid, pkg, comm, htr, true, s.cfg); }
        BegunHolds(s, s.cache, tid, Decide(s.cache, tid, pid, pkg, comm, htr, true, s.cfg), s.pc.rest[1..], t);
      case PkgItem(_, _, _) =>
    }
  }

  lemma SweepHolds(s: State, c: Choice, t: int)
    requires s.pc.Sweeping? && Held(s, t)
    ensures Held(UserStep(s, c), t) <==> !Drops(s, c, t)
  {
    AllDeletedTasks(s.cache, s.pc.dead);
    assert t in Elems(s.pc.dead) <==> t in s.pc.dead;
  }

  lemma UserStepHolds(s: State, c: Choice, t: int)
    requires Held(s, t) && NoEntryWhileBinding(s)
    ensures Held(UserStep(s, c), t) <==> !Drops(s, c, t)
  {
    match s.pc
    case Idle =>
    case Got(_) => GotHolds(s, c, t);
    case Binding(_, _, _) =>
    case Publishing(_, _, _) =>
    case Recording(_, _, _) =>
    case Unpublishing(_, _) =>
    case Sweeping(_, _) => SweepHolds(s, c, t);
    case Scanning(_) => ScanHolds(s, c, t);
  }

  /** One step either keeps a thread-rule binding one, or removes it, and the latter exactly in the
      ways of `Drops`. */
  lemma NextHolds(s: State, step: Step, tid: int)
    requires Held(s, tid) && NoEntryWhileBinding(s)
    ensures Held(Next(s, step), tid) <==> !StepDrops(s, step, tid)
  {
    if step.User? { UserStepHolds(s, step.choice, tid); } else { OnlyUserWrites(s, step); }
  }

  lemma BegunNoEntry(s: State, c: Cache, tid: int, d: Decision, rest: seq<Item>)
    ensures NoEntryWhileBinding(Begun(s, c, tid, d, rest))
  {
  }

  lemma EventBegunNoEntry(s: State, c: Cache, e: Event, trust: bool)
    requires LookedUp(c, e.pid, CommStr(e.comm), s.cfg).Some?
    ensures NoEntryWhileBinding(EventBegun(s, c, e, trust))
  {
    var comm := CommStr(e.comm);
    var (pkg, htr) := LookedUp(c, e.pid, comm, s.cfg).value;
    var c' := AfterLookup(c, e.pid, comm, s.cfg);
    BegunNoEntry(s, c', e.tid, Decide(c', e.tid, e.pid, pkg, comm, htr, trust, s.cfg), []);
  }

  lemma DispatchingNoEntry(s: State, e: Event)
    ensures NoEntryWhileBinding(Dispatching(s, e))
  {
    var comm, without := CommStr(e.comm), s.cache.(pkgs := s.cache.pkgs - {e.pid});
    match e.kind
    case Exit =>
    case Exec => if LookedUp(without, e.pid, comm, s.cfg).Some? { EventBegunNoEntry(s, without, e, true); }
    case Fork => if LookedUp(s.cache, e.pid, comm, s.cfg).Some? { EventBegunNoEntry(s, s.cache, e, e.tid == e.pid); }
    case Rename => if LookedUp(s.cache, e.pid, comm, s.cfg).Some? { EventBegunNoEntry(s, s.cache, e, true); }
    case OtherKind =>
  }

  lemma ScanNoEntry(s: State, item: Item, rest: seq<Item>)
    ensures NoEntryWhileBinding(ItemBegun(s, item, rest))
  {
    match item
    case BindItem(tid, pid, pkg, comm, htr) =>
      BegunNoEntry(s, s.cache, tid, Decide(s.cache, tid, pid, pkg, comm, htr, true, s.cfg), rest);
    case PkgItem(_, _, _) =>
  }

  lemma UserNoEntry(s: State, c: Choice)
    requires NoEntryWhileBinding(s)
    ensures NoEntryWhileBinding(UserStep(s, c))
  {
    if s.pc.Got? { DispatchingNoEntry(s, s.pc.e); }
    if s.pc.Scanning? && s.pc.rest != [] { ScanNoEntry(s, s.pc.rest[0], s.pc.rest[1..]); }
  }

  lemma NoEntryNext(s: State, step: Step)
    requires NoEntryWhileBinding(s)
    ensures NoEntryWhileBinding(Next(s, step))
  {
    if step.User? { UserNoEntry(s, step.choice); } else { OnlyUserWrites(s, step); }
  }

  predicate DroppedIn(s: State, steps: seq<Step>, tid: int)
    decreases |steps|
  {
    steps != [] && (StepDrops(s, steps[0], tid) || DroppedIn(Next(s, steps[0]), steps[1..], tid))
  }

  lemma {:induction false} RunHolds(s: State, steps: seq<Step>, tid: int)
    requires Held(s, tid) && NoEntryWhileBinding(s) && !DroppedIn(s, steps, tid)
    ensures Held(Run(s, steps), tid)
    decreases |steps|
  {
    if steps != [] {
      NextHolds(s, steps[0], tid);
      NoEntryNext(s, steps[0]);
      RunHolds(Next(s, steps[0]), steps[1..], tid);
    }
  }

  lemma {:induction false} RunNoEntry(s: State, steps: seq<Step>)
    requires NoEntryWhileBinding(s)
    ensures NoEntryWhileBinding(Run(s, steps))
    decreases |steps|
  {
    if steps != [] {
      NoEntryNext(s, steps[0]);
      RunNoEntry(Next(s, steps[0]), steps[1..]);
    }
  }

  /** In every interleaving, a thread-rule binding stays one until a step removes it: whenever
      userspace is idle again, `tasks` holds it. */
  lemma InterleavedBindingLatches(s: State, before: seq<Step>, steps: seq<Step>, tid: int)
    requires Initial(s)
    requires var mid := Run(s, before); Held(mid, tid) && !DroppedIn(mid, steps, tid)
    ensures var end := Run(Run(s, before), steps);
            Held(end, tid) && (end.pc.Idle? ==> tid in end.cache.tasks && end.cache.tasks[tid].isThreadRule)
  {
    RunNoEntry(s, before);
    RunHolds(Run(s, before), steps, tid);
  }
}
