/**
 What the two scans of `/proc` in src/main.rs lead to, thread by thread: the rebuild of proc mode and
 the full scan of eBPF mode, against the files read and the configured rules.
 */
module ScanMeaning {
  import opened Strings
  import opened Ranges
  import opened Config
  import opened RuleMatch
  import opened AffinityMeaning
  import opened ProcCaches
  import opened ProcScan
  import opened EventMode
  import opened ProcMode

  // ----- What a process's files ask for -----

  /** The process's package: its command line, else its name. */
  predicate Named(p: ProcInfo, pkg: string) {
    p.cmdline == Some(pkg) || (p.cmdline == None && p.comm == Some(pkg))
  }

  /** The name a thread is bound by: read if some thread rule is meant for the package. */
  ghost function NameRead(snap: Snapshot, t: int, pkg: string, cfg: AppConfig): string {
    if HasPattern(cfg.rules, pkg) && t in snap.threadComm then snap.threadComm[t] else ""
  }

  /** The process asks for this binding of its thread. */
  ghost predicate Asks(snap: Snapshot, p: ProcInfo, pkg: string, t: int, e: TaskEntry, cfg: AppConfig) {
    && Named(p, pkg) && Interested(pkg, cfg) && p.tids.Some? && t in p.tids.value
    && Affinity(pkg, NameRead(snap, t, pkg, cfg), cfg) == Some(AffinityResult(e.cpus, e.dir, e.isThreadRule))
    && e.pid == p.pid
  }

  lemma HasPatternIff(rules: seq<Rule>, pkg: string)
    ensures HasThreadRules(rules, pkg) <==> HasPattern(rules, pkg)
  {
    HasThreadRulesIn(rules, pkg);
  }

  lemma BindingMeaning(x: Scan, p: ProcInfo, pkg: string, t: int, e: TaskEntry)
    requires Named(p, pkg)
    ensures PkgOf(p) == Some(pkg)
    ensures BindingOf(x, p, t) == Some(e) <==>
              && Affinity(pkg, NameRead(x.snap, t, pkg, x.cfg), x.cfg) == Some(AffinityResult(e.cpus, e.dir, e.isThreadRule))
              && e.pid == p.pid
  {
    HasPatternIff(x.cfg.rules, pkg);
  }

  /** The process is looked at in this rebuild. */
  predicate LookedAt(x: Scan, p: ProcInfo) { x.all || p.pid in x.tracked }

  /** The process asks for the offer, under its package and with that package's flag. */
  ghost predicate AsksOffer(x: Scan, p: ProcInfo, pkg: string, o: Offer) {
    && Asks(x.snap, p, pkg, o.tid, o.entry, x.cfg)
    && o.flag.0 == pkg && (o.flag.1 <==> HasPattern(x.cfg.rules, pkg))
  }

  lemma {:induction false} IsOfferMeaning(x: Scan, p: ProcInfo, pkg: string, o: Offer)
    requires Named(p, pkg) && Target(p, x.cfg) && o.tid in p.tids.value
    ensures IsOffer(x, p, o) <==> AsksOffer(x, p, pkg, o)
  {
    BindingMeaning(x, p, pkg, o.tid, o.entry);
    HasPatternIff(x.cfg.rules, pkg);
  }

  lemma TargetMeaning(p: ProcInfo, pkg: string, cfg: AppConfig)
    requires Named(p, pkg)
    ensures Target(p, cfg) <==> Interested(pkg, cfg) && p.tids.Some?
  {
  }

  lemma {:induction false} MakesNamed(x: Scan, i: nat, pkg: string, o: Offer)
    requires i < |x.Procs()| && Named(x.Procs()[i], pkg)
    ensures Makes(x, i, o) <==> LookedAt(x, x.Procs()[i]) && AsksOffer(x, x.Procs()[i], pkg, o)
  {
    var p := x.Procs()[i];
    TargetMeaning(p, pkg, x.cfg);
    if Target(p, x.cfg) && o.tid in p.tids.value { IsOfferMeaning(x, p, pkg, o); }
  }

  /** Process `i` makes exactly the offers that its files ask for. */
  lemma {:induction false} MakesMeaning(x: Scan, i: nat, o: Offer)
    ensures Makes(x, i, o) <==>
              && i < |x.Procs()| && LookedAt(x, x.Procs()[i]) && exists pkg :: AsksOffer(x, x.Procs()[i], pkg, o)
  {
    if Makes(x, i, o) { MakesNamed(x, i, PkgOf(x.Procs()[i]).value, o); }
    if i < |x.Procs()| && exists pkg :: AsksOffer(x, x.Procs()[i], pkg, o) {
      var pkg :| AsksOffer(x, x.Procs()[i], pkg, o);
      MakesNamed(x, i, pkg, o);
    }
  }

  // ----- The rebuild -----

  /** Some process that is looked at asks for this binding. */
  ghost predicate Asked(x: Scan, t: int, e: TaskEntry) {
    exists i: nat, pkg :: i < |x.Procs()| && LookedAt(x, x.Procs()[i]) && Asks(x.snap, x.Procs()[i], pkg, t, e, x.cfg)
  }

  /** Every binding of a rebuild was asked for. */
  lemma RebuiltWasAsked(x: Scan, t: int)
    requires t in Rebuilt(x).tasks
    ensures Asked(x, t, Rebuilt(x).tasks[t])
  {
    var os := AllOffers(x);
    var k := WinnerOf(os, t);
    OffersMembers(x, os[k]);
    var i: nat :| Makes(x, i, os[k]);
    MakesMeaning(x, i, os[k]);
    var pkg :| AsksOffer(x, x.Procs()[i], pkg, os[k]);
  }

  /** Only process `i` lists the thread. */
  ghost predicate OnlyIn(snap: Snapshot, i: nat, t: int) {
    && i < |snap.procs| && t in TidsOf(snap.procs[i])
    && forall j :: 0 <= j < |snap.procs| && j != i ==> t !in TidsOf(snap.procs[j])
  }

  lemma AskedByOnly(x: Scan, i: nat, t: int, e: TaskEntry)
    requires OnlyIn(x.snap, i, t)
    ensures Asked(x, t, e) <==> LookedAt(x, x.Procs()[i]) && exists pkg :: Asks(x.snap, x.Procs()[i], pkg, t, e, x.cfg)
  {
  }

  lemma AskedOnce(x: Scan, i: nat, t: int, e: TaskEntry, f: TaskEntry)
    requires OnlyIn(x.snap, i, t) && Asked(x, t, e) && Asked(x, t, f)
    ensures e == f
  {
    var p := x.Procs()[i];
    AskedByOnly(x, i, t, e);
    AskedByOnly(x, i, t, f);
    var pkg :| Asks(x.snap, p, pkg, t, e, x.cfg);
    var pkg' :| Asks(x.snap, p, pkg', t, f, x.cfg);
    assert pkg == pkg';
  }

  lemma AskedIsBound(x: Scan, t: int, e: TaskEntry)
    requires Asked(x, t, e)
    ensures t in Rebuilt(x).tasks
  {
    var os := AllOffers(x);
    var i: nat, pkg :| i < |x.Procs()| && LookedAt(x, x.Procs()[i]) && Asks(x.snap, x.Procs()[i], pkg, t, e, x.cfg);
    HasPatternIff(x.cfg.rules, pkg);
    var o := Offer(t, e, (pkg, HasThreadRules(x.cfg.rules, pkg)));
    assert AsksOffer(x, x.Procs()[i], pkg, o);
    MakesMeaning(x, i, o);
    OffersMembers(x, o);
    var k :| 0 <= k < |os| && os[k] == o;
    OfferedIsBound(EMPTY, os, k);
  }

  /** A thread listed under one process is bound exactly as that process's files and the rules ask. */
  lemma RebuiltTaskIff(x: Scan, i: nat, t: int, e: TaskEntry)
    requires OnlyIn(x.snap, i, t)
    ensures t in Rebuilt(x).tasks && Rebuilt(x).tasks[t] == e <==>
              LookedAt(x, x.Procs()[i]) && exists pkg :: Asks(x.snap, x.Procs()[i], pkg, t, e, x.cfg)
  {
    AskedByOnly(x, i, t, e);
    if t in Rebuilt(x).tasks {
      RebuiltWasAsked(x, t);
      if Asked(x, t, e) { AskedOnce(x, i, t, e, Rebuilt(x).tasks[t]); }
    } else if Asked(x, t, e) {
      AskedIsBound(x, t, e);
    }
  }

  // ----- The full scan -----

  /** Only live threads, bound as in `tasks` and published with the part of their mask below 64. */
  ghost predicate LivePart(s: Side, tasks: map<int, TaskEntry>, live: set<int>) {
    && (forall t :: t in s.cache.tasks <==> t in tasks && t in live)
    && (forall t :: t in s.cache.tasks ==> s.cache.tasks[t] == tasks[t])
    && (forall t :: t in s.applied <==> t in s.cache.tasks)
    && (forall t :: t in s.applied ==> s.applied[t] == set cpu | cpu in s.cache.tasks[t].cpus && cpu < 64)
  }

  /** The tasks after at most one offer. */
  function TakenOne(tasks: map<int, TaskEntry>, os: seq<Offer>): map<int, TaskEntry> {
    if os == [] then tasks else TakenTasks(tasks, os[0])
  }

  /** An offer is bound unless the thread keeps a binding by a thread rule. */
  function TakingDecision(c: Cache, o: Offer): Decision {
    if o.tid in c.tasks && c.tasks[o.tid].isThreadRule && !o.entry.isThreadRule then KeepOld else Bind(o.entry)
  }

  lemma {:induction false} BoundLivePart(s: Side, tasks: map<int, TaskEntry>, o: Offer, d: Decision, dead: bool, live: set<int>)
    requires LivePart(s, tasks, live) && (dead <==> o.tid !in live)
    requires d == TakingDecision(s.cache, o)
    ensures LivePart(Bound(s, o.tid, d, dead), TakenTasks(tasks, o), live)
  {
  }

  /** What the scan decides about a thread is to take the process's offer. */
  lemma DecisionTakes(c: Cache, x: Scan, p: ProcInfo, t: int)
    requires PkgOf(p).Some?
    ensures var os, d := OfferOf(x, p, t), ScanDecision(c, x.snap, p, t, x.cfg);
            && |os| <= 1 && (os == [] ==> d == Unmatched)
            && (os != [] ==> os[0].tid == t && d == TakingDecision(c, os[0]))
  {
  }

  /** One thread, in the full scan and in the rebuild. */
  lemma {:induction false} ThreadLivePart(s: Side, tasks: map<int, TaskEntry>, x: Scan, p: ProcInfo, t: int, live: set<int>)
    requires PkgOf(p).Some? && LivePart(s, tasks, live)
    ensures LivePart(ItemDone(s, ThreadItem(x.snap, p, t, x.cfg), x.cfg, live), TakenOne(tasks, OfferOf(x, p, t)), live)
  {
    var os, d, dead := OfferOf(x, p, t), ScanDecision(s.cache, x.snap, p, t, x.cfg), t !in live;
    DecisionTakes(s.cache, x, p, t);
    assert ItemDone(s, ThreadItem(x.snap, p, t, x.cfg), x.cfg, live) == Bound(s, t, d, dead);
    if os != [] { BoundLivePart(s, tasks, os[0], d, dead, live); }
  }

  lemma TakenTasksSnoc(c: Cache, os: seq<Offer>, more: seq<Offer>)
    requires |more| <= 1
    ensures TakenAll(c, os + more).tasks == TakenOne(TakenAll(c, os).tasks, more)
  {
    if more == [] {
      assert os + more == os;
    } else {
      assert more == [more[0]];
      TakenSnoc(c, os, more[0]);
    }
  }

  lemma {:induction false} ThreadsLivePartNext(s: Side, items: seq<Item>, c: Cache, os: seq<Offer>, x: Scan, p: ProcInfo, t: int, live: set<int>)
    requires PkgOf(p).Some? && LivePart(ItemsDone(s, items, x.cfg, live), TakenAll(c, os).tasks, live)
    ensures LivePart(ItemsDone(s, items + [ThreadItem(x.snap, p, t, x.cfg)], x.cfg, live), TakenAll(c, os + OfferOf(x, p, t)).tasks, live)
  {
    ItemsDoneSnoc(s, items, ThreadItem(x.snap, p, t, x.cfg), x.cfg, live);
    ThreadLivePart(ItemsDone(s, items, x.cfg, live), TakenAll(c, os).tasks, x, p, t, live);
    DecisionTakes(c, x, p, t);
    TakenTasksSnoc(c, os, OfferOf(x, p, t));
  }

  lemma {:induction false} ThreadsLivePart(s: Side, c: Cache, x: Scan, p: ProcInfo, n: nat, live: set<int>)
    requires Target(p, x.cfg) && n <= |p.tids.value| && LivePart(s, c.tasks, live)
    ensures LivePart(ItemsDone(s, ItemsOf(x.snap, p, x.cfg)[..n], x.cfg, live), TakenAll(c, Concat(ThreadParts(x, p), n)).tasks, live)
  {
    var items, parts := ItemsOf(x.snap, p, x.cfg), ThreadParts(x, p);
    if n == 0 {
      assert items[..0] == [];
    } else {
      ThreadsLivePart(s, c, x, p, n - 1, live);
      assert items[..n] == items[..n - 1] + [items[n - 1]];
      ThreadsLivePartNext(s, items[..n - 1], c, Concat(parts, n - 1), x, p, p.tids.value[n - 1], live);
    }
  }

  lemma PkgItemLivePart(s: Side, tasks: map<int, TaskEntry>, pid: int, pkg: string, htr: bool, cfg: AppConfig, live: set<int>)
    requires LivePart(s, tasks, live)
    ensures LivePart(ItemDone(s, PkgItem(pid, pkg, htr), cfg, live), tasks, live)
  {
  }

  lemma {:induction false} ProcLivePart(s: Side, c: Cache, x: Scan, p: ProcInfo, live: set<int>)
    requires Target(p, x.cfg) && LivePart(s, c.tasks, live)
    ensures LivePart(ItemsDone(s, ItemsOf(x.snap, p, x.cfg), x.cfg, live), TakenAll(c, ThreadOffers(x, p)).tasks, live)
  {
    var items, n := ItemsOf(x.snap, p, x.cfg), |p.tids.value|;
    ThreadsLivePart(s, c, x, p, n, live);
    assert items == items[..n] + [items[n]];
    ItemsDoneSnoc(s, items[..n], items[n], x.cfg, live);
    PkgItemLivePart(ItemsDone(s, items[..n], x.cfg, live), TakenAll(c, ThreadOffers(x, p)).tasks,
                    p.pid, ScanFlag(p, x.cfg).0, ScanFlag(p, x.cfg).1, x.cfg, live);
  }

  /** A full scan looks at all processes. */
  function FullOf(snap: Snapshot, cfg: AppConfig): Scan {
    Scan(snap, true, {}, cfg)
  }

  /** The first `n` processes, in the full scan and in the rebuild. */
  ghost predicate ProcsLive(snap: Snapshot, n: nat, cfg: AppConfig, live: set<int>)
    requires n <= |snap.procs|
  {
    LivePart(ItemsDone(Side(EMPTY, map[]), ProcItems(snap, n, cfg), cfg, live),
             TakenAll(EMPTY, OffersUpTo(FullOf(snap, cfg), n)).tasks, live)
  }

  lemma {:induction false} ProcsLiveNext(snap: Snapshot, n: nat, cfg: AppConfig, live: set<int>)
    requires n < |snap.procs| && ProcsLive(snap, n, cfg, live)
    ensures ProcsLive(snap, n + 1, cfg, live)
  {
    var x, p := FullOf(snap, cfg), snap.procs[n];
    TakenUpTo(x, n);
    if Target(p, cfg) {
      ItemsDoneAppend(Side(EMPTY, map[]), ProcItems(snap, n, cfg), ItemsOf(snap, p, cfg), cfg, live);
      ProcLivePart(ItemsDone(Side(EMPTY, map[]), ProcItems(snap, n, cfg), cfg, live), TakenAll(EMPTY, OffersUpTo(x, n)), x, p, live);
    }
  }

  lemma {:induction false} NoProcsLive(snap: Snapshot, cfg: AppConfig, live: set<int>)
    ensures ProcsLive(snap, 0, cfg, live)
  {
  }

  lemma {:induction false} Upward(P: nat -> bool, n: nat)
    requires P(0) && forall i: nat :: i < n && P(i) ==> P(i + 1)
    ensures P(n)
  {
    if n > 0 { Upward(P, n - 1); }
  }

  lemma {:induction false} AllProcsLive(snap: Snapshot, cfg: AppConfig, live: set<int>)
    ensures ProcsLive(snap, |snap.procs|, cfg, live)
  {
    var P := (i: nat) => i <= |snap.procs| && ProcsLive(snap, i, cfg, live);
    NoProcsLive(snap, cfg, live);
    forall i: nat | i < |snap.procs| && P(i) ensures P(i + 1) { ProcsLiveNext(snap, i, cfg, live); }
    Upward(P, |snap.procs|);
  }

  /** A full scan binds and publishes exactly the live threads, as a rebuild that looks at all processes
      binds them. */
  lemma FullScanIsRebuild(snap: Snapshot, cfg: AppConfig, live: set<int>)
    ensures LivePart(FullScanned(Some(snap), cfg, live), Rebuilt(FullOf(snap, cfg)).tasks, live)
  {
    AllProcsLive(snap, cfg, live);
  }

  /** So a thread listed under one process is bound exactly if it is alive and as that process's files
      and the rules ask. */
  lemma FullTaskIff(snap: Snapshot, cfg: AppConfig, live: set<int>, i: nat, t: int, e: TaskEntry)
    requires OnlyIn(snap, i, t)
    ensures var tasks := FullScanned(Some(snap), cfg, live).cache.tasks;
            t in tasks && tasks[t] == e <==> t in live && exists pkg :: Asks(snap, snap.procs[i], pkg, t, e, cfg)
  {
    FullScanIsRebuild(snap, cfg, live);
    RebuiltTaskIff(FullOf(snap, cfg), i, t, e);
  }

  // ----- The packages after a full scan -----

  /** The process is bound: of interest, and with a readable task list. */
  ghost predicate IsTarget(p: ProcInfo, pkg: string, cfg: AppConfig) {
    Named(p, pkg) && Interested(pkg, cfg) && p.tids.Some?
  }

  /** Process `i` is the last one to be bound under its number. */
  ghost predicate LastTarget(snap: Snapshot, n: nat, i: nat, pid: int, flag: (string, bool), cfg: AppConfig)
    requires n <= |snap.procs|
  {
    && i < n && snap.procs[i].pid == pid && IsTarget(snap.procs[i], flag.0, cfg) && (flag.1 <==> HasPattern(cfg.rules, flag.0))
    && forall j :: i < j < n && snap.procs[j].pid == pid ==> !Target(snap.procs[j], cfg)
  }

  lemma {:induction false} ThreadItemsKeepPkgs(s: Side, items: seq<Item>, cfg: AppConfig, live: set<int>)
    requires forall i :: 0 <= i < |items| ==> items[i].BindItem?
    ensures ItemsDone(s, items, cfg, live).cache.pkgs == s.cache.pkgs
    decreases |items|
  {
    if items != [] {
      var init, last := items[..|items| - 1], items[|items| - 1];
      ThreadItemsKeepPkgs(s, init, cfg, live);
      BindKeepsPkgs(ItemsDone(s, init, cfg, live), last, cfg, live);
    }
  }

  lemma BindKeepsPkgs(s: Side, item: Item, cfg: AppConfig, live: set<int>)
    requires item.BindItem?
    ensures ItemDone(s, item, cfg, live).cache.pkgs == s.cache.pkgs
  {
  }

  lemma ProcPkgEntered(s: Side, snap: Snapshot, p: ProcInfo, cfg: AppConfig, live: set<int>)
    requires Target(p, cfg)
    ensures ItemsDone(s, ItemsOf(snap, p, cfg), cfg, live).cache.pkgs == s.cache.pkgs[p.pid := ScanFlag(p, cfg)]
  {
    var items, n := ItemsOf(snap, p, cfg), |p.tids.value|;
    assert items == items[..n] + [items[n]];
    ItemsDoneSnoc(s, items[..n], items[n], cfg, live);
    ThreadItemsKeepPkgs(s, items[..n], cfg, live);
  }

  /** The packages entered by the first `n` processes. */
  function PkgsEntered(snap: Snapshot, n: nat, cfg: AppConfig): map<int, (string, bool)>
    requires n <= |snap.procs|
  {
    if n == 0 then map[]
    else
      var pkgs, p := PkgsEntered(snap, n - 1, cfg), snap.procs[n - 1];
      if Target(p, cfg) then pkgs[p.pid := ScanFlag(p, cfg)] else pkgs
  }

  lemma {:induction false} FullPkgs(snap: Snapshot, n: nat, cfg: AppConfig, live: set<int>)
    requires n <= |snap.procs|
    ensures ItemsDone(Side(EMPTY, map[]), ProcItems(snap, n, cfg), cfg, live).cache.pkgs == PkgsEntered(snap, n, cfg)
  {
    if n > 0 {
      FullPkgs(snap, n - 1, cfg, live);
      var side, p := Side(EMPTY, map[]), snap.procs[n - 1];
      if Target(p, cfg) {
        ItemsDoneAppend(side, ProcItems(snap, n - 1, cfg), ItemsOf(snap, p, cfg), cfg, live);
        ProcPkgEntered(ItemsDone(side, ProcItems(snap, n - 1, cfg), cfg, live), snap, p, cfg, live);
      }
    }
  }

  ghost predicate SomeLastTarget(snap: Snapshot, n: nat, pid: int, flag: (string, bool), cfg: AppConfig)
    requires n <= |snap.procs|
  {
    exists i: nat :: LastTarget(snap, n, i, pid, flag, cfg)
  }

  lemma TargetFlag(p: ProcInfo, flag: (string, bool), cfg: AppConfig)
    requires PkgOf(p).Some?
    ensures IsTarget(p, flag.0, cfg) && (flag.1 <==> HasPattern(cfg.rules, flag.0)) <==> Target(p, cfg) && ScanFlag(p, cfg) == flag
  {
    HasPatternIff(cfg.rules, PkgOf(p).value);
  }

  lemma LastTargetNext(snap: Snapshot, n: nat, pid: int, flag: (string, bool), cfg: AppConfig)
    requires n < |snap.procs|
    ensures var p := snap.procs[n];
            SomeLastTarget(snap, n + 1, pid, flag, cfg) <==>
              if Target(p, cfg) && p.pid == pid then ScanFlag(p, cfg) == flag else SomeLastTarget(snap, n, pid, flag, cfg)
  {
    var p := snap.procs[n];
    if PkgOf(p).Some? { TargetFlag(p, flag, cfg); }
    if Target(p, cfg) && p.pid == pid {
      if ScanFlag(p, cfg) == flag { assert LastTarget(snap, n + 1, n, pid, flag, cfg); }
    } else if SomeLastTarget(snap, n, pid, flag, cfg) {
      var i: nat :| LastTarget(snap, n, i, pid, flag, cfg);
      assert LastTarget(snap, n + 1, i, pid, flag, cfg);
    } else if SomeLastTarget(snap, n + 1, pid, flag, cfg) {
      var i: nat :| LastTarget(snap, n + 1, i, pid, flag, cfg);
      LastTargetBefore(snap, n, i, pid, flag, cfg);
    }
  }

  lemma LastTargetBefore(snap: Snapshot, n: nat, i: nat, pid: int, flag: (string, bool), cfg: AppConfig)
    requires n < |snap.procs| && LastTarget(snap, n + 1, i, pid, flag, cfg)
    requires !(Target(snap.procs[n], cfg) && snap.procs[n].pid == pid)
    ensures LastTarget(snap, n, i, pid, flag, cfg)
  {
    if i == n { TargetMeaning(snap.procs[n], flag.0, cfg); }
  }

  lemma {:induction false} PkgsEnteredIff(snap: Snapshot, n: nat, pid: int, flag: (string, bool), cfg: AppConfig)
    requires n <= |snap.procs|
    ensures var pkgs := PkgsEntered(snap, n, cfg);
            pid in pkgs && pkgs[pid] == flag <==> SomeLastTarget(snap, n, pid, flag, cfg)
  {
    if n > 0 {
      PkgsEnteredIff(snap, n - 1, pid, flag, cfg);
      LastTargetNext(snap, n - 1, pid, flag, cfg);
    }
  }

  /** A full scan enters every process of interest whose threads can be listed, bound or not, each with
      its package and flag. */
  lemma FullPkgIff(snap: Snapshot, cfg: AppConfig, live: set<int>, pid: int, flag: (string, bool))
    ensures var pkgs := FullScanned(Some(snap), cfg, live).cache.pkgs;
            pid in pkgs && pkgs[pid] == flag <==> SomeLastTarget(snap, |snap.procs|, pid, flag, cfg)
  {
    FullPkgs(snap, |snap.procs|, cfg, live);
    PkgsEnteredIff(snap, |snap.procs|, pid, flag, cfg);
  }

  // ----- Thread rules in scans -----

  /** The entry is a binding by thread rules that holds the rule's CPUs. */
  ghost predicate BoundBy(tasks: map<int, TaskEntry>, t: int, pid: int, r: Rule) {
    t in tasks && tasks[t].pid == pid && tasks[t].isThreadRule && Parse(r.cpus) <= tasks[t].cpus
  }

  /** A thread that one process lists, whose name a rule for the process's package matches. */
  ghost predicate RuleApplies(snap: Snapshot, i: nat, t: int, pkg: string, r: Rule, cfg: AppConfig) {
    && OnlyIn(snap, i, t) && Named(snap.procs[i], pkg) && Interested(pkg, cfg) && HasPattern(cfg.rules, pkg)
    && t in snap.threadComm && r in cfg.rules && ThreadRuleFor(r, pkg, snap.threadComm[t]) && Parse(r.cpus) != {}
  }

  lemma RuleAsks(snap: Snapshot, i: nat, t: int, pkg: string, r: Rule, cfg: AppConfig) returns (e: TaskEntry)
    requires RuleApplies(snap, i, t, pkg, r, cfg)
    ensures Asks(snap, snap.procs[i], pkg, t, e, cfg) && e.pid == snap.procs[i].pid && e.isThreadRule && Parse(r.cpus) <= e.cpus
  {
    var name := snap.threadComm[t];
    var cpu :| cpu in Parse(r.cpus);
    assert ThreadCpu(cfg.rules, pkg, name, cpu);
    ThreadRulesDecide(pkg, name, cfg);
    var a := Affinity(pkg, name, cfg).value;
    e := TaskEntry(snap.procs[i].pid, a.cpus, a.dir, a.isThreadRule);
    forall c | c in Parse(r.cpus) ensures c in a.cpus { assert ThreadCpu(cfg.rules, pkg, name, c); }
  }

  /** Both scans bind it by thread rules: the rebuild if it looks at the process, the full scan if the
      thread is alive. */
  lemma ScannedThreadRule(x: Scan, live: set<int>, i: nat, t: int, pkg: string, r: Rule)
    requires RuleApplies(x.snap, i, t, pkg, r, x.cfg)
    ensures LookedAt(x, x.Procs()[i]) ==> BoundBy(Rebuilt(x).tasks, t, x.Procs()[i].pid, r)
    ensures t in live ==> BoundBy(FullScanned(Some(x.snap), x.cfg, live).cache.tasks, t, x.Procs()[i].pid, r)
  {
    var e := RuleAsks(x.snap, i, t, pkg, r, x.cfg);
    RebuiltTaskIff(x, i, t, e);
    FullTaskIff(x.snap, x.cfg, live, i, t, e);
  }

  /** Some process of that number lists the thread, and a rule for its package matches the thread's name. */
  ghost predicate RuleOf(snap: Snapshot, t: int, pid: int, cfg: AppConfig) {
    exists i: nat, pkg :: i < |snap.procs| && snap.procs[i].pid == pid && t in TidsOf(snap.procs[i]) && Named(snap.procs[i], pkg)
      && t in snap.threadComm && SomeThreadCpu(cfg.rules, pkg, snap.threadComm[t])
  }

  lemma AskedByRule(x: Scan, t: int, e: TaskEntry)
    requires Asked(x, t, e) && e.isThreadRule
    ensures RuleOf(x.snap, t, e.pid, x.cfg)
  {
    var i: nat, pkg :| i < |x.Procs()| && LookedAt(x, x.Procs()[i]) && Asks(x.snap, x.Procs()[i], pkg, t, e, x.cfg);
    ThreadRuleIff(pkg, NameRead(x.snap, t, pkg, x.cfg), x.cfg);
    assert SomeThreadCpu(x.cfg.rules, pkg, NameRead(x.snap, t, pkg, x.cfg));
    var cpu: nat :| ThreadCpu(x.cfg.rules, pkg, NameRead(x.snap, t, pkg, x.cfg), cpu);
  }

  /** And every thread-rule binding of a scan comes from such a rule and name. */
  lemma ThreadRuleScanned(x: Scan, live: set<int>, t: int)
    ensures t in Rebuilt(x).tasks && Rebuilt(x).tasks[t].isThreadRule ==> RuleOf(x.snap, t, Rebuilt(x).tasks[t].pid, x.cfg)
    ensures var tasks := FullScanned(Some(x.snap), x.cfg, live).cache.tasks;
            t in tasks && tasks[t].isThreadRule ==> RuleOf(x.snap, t, tasks[t].pid, x.cfg)
  {
    var all := FullOf(x.snap, x.cfg);
    if t in Rebuilt(x).tasks && Rebuilt(x).tasks[t].isThreadRule {
      RebuiltWasAsked(x, t);
      AskedByRule(x, t, Rebuilt(x).tasks[t]);
    }
    FullScanIsRebuild(x.snap, x.cfg, live);
    if t in Rebuilt(all).tasks && Rebuilt(all).tasks[t].isThreadRule {
      RebuiltWasAsked(all, t);
      AskedByRule(all, t, Rebuilt(all).tasks[t]);
    }
  }
}
