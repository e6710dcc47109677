/**
 src/main.rs, proc mode: `proc_cache_sync` rebuilds the cache from a snapshot of `/proc` when
 something changed, and the periodic sweep prunes it. Binding itself is left to the sweep.
 */
module ProcMode {
  import opened Strings
  import opened Config
  import opened RuleMatch
  import opened Threads
  import opened ProcCaches
  import opened ProcScan
  import opened EventMode
  import A = AutoCache

  /** The fields of `ProcState`. */
  datatype ProcValue = ProcValue(
    cache: Cache,
    lastProcCount: int,
    scanAllProc: bool,
    trackedPids: set<int>,
    lastProcTotal: int,
    forceAffinity: bool)

  // ----- The rebuild, as a list of offers -----

  /** What one rebuild works on: a snapshot, which processes to look at, and the configuration. */
  datatype Scan = Scan(snap: Snapshot, all: bool, tracked: set<int>, cfg: AppConfig) {
    function Procs(): seq<ProcInfo> { snap.procs }
  }

  predicate Scanned(x: Scan, p: ProcInfo) {
    (x.all || p.pid in x.tracked) && Target(p, x.cfg)
  }

  /** A binding that the scan of a process offers to one of its threads, with the process's package. */
  datatype Offer = Offer(tid: int, entry: TaskEntry, flag: (string, bool))

  /** The binding a thread should get as a thread of this process. */
  function BindingOf(x: Scan, p: ProcInfo, tid: int): Option<TaskEntry>
    requires PkgOf(p).Some?
  {
    var pkg := PkgOf(p).value;
    match Affinity(pkg, ScanName(x.snap, tid, HasThreadRules(x.cfg.rules, pkg)), x.cfg)
    case None => None
    case Some(r) => Some(TaskEntry(p.pid, r.cpus, r.dir, r.isThreadRule))
  }

  function TidsOf(p: ProcInfo): seq<int> { p.tids.GetOr([]) }

  /** A thread gets no offer exactly if the package has no thread rules and no CPU in its package
      rules; a matched thread rule always offers a binding. */
  lemma NoBindingIff(x: Scan, p: ProcInfo, tid: int)
    requires PkgOf(p).Some?
    ensures var rules, pkg := x.cfg.rules, PkgOf(p).value;
            && (BindingOf(x, p, tid).None? <==> !HasThreadRules(rules, pkg) && UnionOf(PackageRules(rules, pkg)) == {})
            && (ThreadRules(rules, pkg, ScanName(x.snap, tid, HasThreadRules(rules, pkg))) != [] ==> BindingOf(x, p, tid).Some?)
  {
  }

  function OfferOf(x: Scan, p: ProcInfo, tid: int): seq<Offer> {
    if PkgOf(p).None? then []
    else match BindingOf(x, p, tid)
         case None => []
         case Some(e) => [Offer(tid, e, ScanFlag(p, x.cfg))]
  }

  /** The first `n` lists, one after the other. */
  function Concat(parts: seq<seq<Offer>>, n: nat): seq<Offer>
    requires n <= |parts|
  {
    if n == 0 then [] else Concat(parts, n - 1) + parts[n - 1]
  }

  /** What a process offers each of its threads. */
  function ThreadParts(x: Scan, p: ProcInfo): (parts: seq<seq<Offer>>)
    ensures |parts| == |TidsOf(p)| && forall i :: 0 <= i < |parts| ==> parts[i] == OfferOf(x, p, TidsOf(p)[i])
  {
    seq(|TidsOf(p)|, i requires 0 <= i < |TidsOf(p)| => OfferOf(x, p, TidsOf(p)[i]))
  }

  /** The offers of a process, in the order of its threads. */
  function ThreadOffers(x: Scan, p: ProcInfo): seq<Offer> {
    Concat(ThreadParts(x, p), |TidsOf(p)|)
  }

  function ProcOffers(x: Scan, p: ProcInfo): seq<Offer> {
    if Scanned(x, p) then ThreadOffers(x, p) else []
  }

  function ProcParts(x: Scan): (parts: seq<seq<Offer>>)
    ensures |parts| == |x.Procs()| && forall i :: 0 <= i < |parts| ==> parts[i] == ProcOffers(x, x.Procs()[i])
  {
    seq(|x.Procs()|, i requires 0 <= i < |x.Procs()| => ProcOffers(x, x.Procs()[i]))
  }

  /** The offers of the first `n` entries of `/proc`, in order. */
  function OffersUpTo(x: Scan, n: nat): seq<Offer>
    requires n <= |x.Procs()|
  {
    Concat(ProcParts(x), n)
  }

  function AllOffers(x: Scan): seq<Offer> { OffersUpTo(x, |x.Procs()|) }

  /** An offer is taken unless the thread holds a binding by a thread rule and the offer is none. */
  function TakenTasks(tasks: map<int, TaskEntry>, o: Offer): map<int, TaskEntry> {
    if o.tid in tasks && tasks[o.tid].isThreadRule && !o.entry.isThreadRule then tasks else tasks[o.tid := o.entry]
  }

  function Taken(c: Cache, o: Offer): Cache {
    Cache(c.pkgs[o.entry.pid := o.flag], TakenTasks(c.tasks, o))
  }

  function TakenAll(c: Cache, os: seq<Offer>): Cache {
    if os == [] then c else Taken(TakenAll(c, os[..|os| - 1]), os[|os| - 1])
  }

  lemma TakenSnoc(c: Cache, os: seq<Offer>, o: Offer)
    ensures TakenAll(c, os + [o]) == Taken(TakenAll(c, os), o)
  {
    assert (os + [o])[..|os|] == os;
  }

  lemma {:induction false} TakenAppend(c: Cache, a: seq<Offer>, b: seq<Offer>)
    ensures TakenAll(c, a + b) == TakenAll(TakenAll(c, a), b)
  {
    if b == [] {
      assert a + b == a;
    } else {
      assert (a + b)[..|a + b| - 1] == a + b[..|b| - 1];
      TakenAppend(c, a, b[..|b| - 1]);
    }
  }

  /** The cache after a rebuild. */
  function Rebuilt(x: Scan): Cache {
    TakenAll(EMPTY, AllOffers(x))
  }

  lemma TakenUpTo(x: Scan, n: nat)
    requires n < |x.Procs()|
    ensures TakenAll(EMPTY, OffersUpTo(x, n + 1)) == TakenAll(TakenAll(EMPTY, OffersUpTo(x, n)), ProcOffers(x, x.Procs()[n]))
  {
    TakenAppend(EMPTY, OffersUpTo(x, n), ProcOffers(x, x.Procs()[n]));
  }

  /** One `task_apply` of the rebuild takes what the process offers the thread, if anything. */
  lemma DecidedTakes(c: Cache, x: Scan, p: ProcInfo, tid: int)
    requires PkgOf(p).Some?
    ensures var d, os := ScanDecision(c, x.snap, p, tid, x.cfg), OfferOf(x, p, tid);
            && (d.Unmatched? <==> os == []) && |os| <= 1
            && Decided(c, tid, d, false) == c.(tasks := if os == [] then c.tasks else TakenTasks(c.tasks, os[0]))
  {
  }

  /** `c` after some of a process's offers, apart from `pkgs`, which follows at the end. */
  ghost predicate TakenFrom(c: Cache, c': Cache, os: seq<Offer>) {
    c' == c.(tasks := TakenAll(c, os).tasks)
  }

  lemma TakenFromNext(c: Cache, c1: Cache, os: seq<Offer>, more: seq<Offer>)
    requires TakenFrom(c, c1, os) && |more| <= 1
    ensures TakenFrom(c, c1.(tasks := if more == [] then c1.tasks else TakenTasks(c1.tasks, more[0])), os + more)
  {
    if more == [] {
      assert os + more == os;
    } else {
      assert more == [more[0]];
      TakenSnoc(c, os, more[0]);
    }
  }

  lemma ThreadTakes(c: Cache, c1: Cache, x: Scan, p: ProcInfo, tid: int, os: seq<Offer>)
    requires PkgOf(p).Some? && TakenFrom(c, c1, os)
    ensures TakenFrom(c, Decided(c1, tid, ScanDecision(c1, x.snap, p, tid, x.cfg), false), os + OfferOf(x, p, tid))
    ensures ScanDecision(c1, x.snap, p, tid, x.cfg).Unmatched? <==> OfferOf(x, p, tid) == []
  {
    DecidedTakes(c1, x, p, tid);
    TakenFromNext(c, c1, os, OfferOf(x, p, tid));
  }

  lemma {:induction false} SameOwnerPkgs(c: Cache, os: seq<Offer>, pid: int, flag: (string, bool))
    requires forall o :: o in os ==> o.entry.pid == pid && o.flag == flag
    ensures TakenAll(c, os).pkgs == if os == [] then c.pkgs else c.pkgs[pid := flag]
  {
    if os != [] {
      assert os[|os| - 1] in os;
      SameOwnerPkgs(c, os[..|os| - 1], pid, flag);
    }
  }

  /** The offer is one of the process. */
  ghost predicate IsOffer(x: Scan, p: ProcInfo, o: Offer) {
    && PkgOf(p).Some? && BindingOf(x, p, o.tid) == Some(o.entry)
    && o.entry.pid == p.pid && o.flag == ScanFlag(p, x.cfg)
  }

  lemma OfferOfMember(x: Scan, p: ProcInfo, tid: int, o: Offer)
    ensures o in OfferOf(x, p, tid) <==> o.tid == tid && IsOffer(x, p, o)
  {
  }

  lemma {:induction false} ConcatMembers(parts: seq<seq<Offer>>, n: nat, o: Offer)
    requires n <= |parts|
    ensures o in Concat(parts, n) <==> exists i :: 0 <= i < n && o in parts[i]
  {
    if n > 0 { ConcatMembers(parts, n - 1, o); }
  }

  lemma ConcatTagged(parts: seq<seq<Offer>>, tids: seq<int>, o: Offer, isOffer: bool)
    requires |parts| == |tids|
    requires forall i :: 0 <= i < |parts| ==> (o in parts[i] <==> o.tid == tids[i] && isOffer)
    ensures o in Concat(parts, |parts|) <==> o.tid in tids && isOffer
  {
    ConcatMembers(parts, |parts|, o);
  }

  lemma ThreadOffersMembers(x: Scan, p: ProcInfo, o: Offer)
    ensures o in ThreadOffers(x, p) <==> o.tid in TidsOf(p) && IsOffer(x, p, o)
  {
    var parts, tids := ThreadParts(x, p), TidsOf(p);
    forall i | 0 <= i < |parts| ensures o in parts[i] <==> o.tid == tids[i] && IsOffer(x, p, o) {
      OfferOfMember(x, p, tids[i], o);
    }
    ConcatTagged(parts, tids, o, IsOffer(x, p, o));
  }

  /** All offers of a process name it and its package, so `pkgs` gets one entry, if any. */
  lemma ProcPkgs(c: Cache, x: Scan, p: ProcInfo)
    requires PkgOf(p).Some?
    ensures var os := ThreadOffers(x, p);
            TakenAll(c, os).pkgs == if os == [] then c.pkgs else c.pkgs[p.pid := ScanFlag(p, x.cfg)]
  {
    var os := ThreadOffers(x, p);
    forall o | o in os ensures o.entry.pid == p.pid && o.flag == ScanFlag(p, x.cfg) {
      ThreadOffersMembers(x, p, o);
    }
    SameOwnerPkgs(c, os, p.pid, ScanFlag(p, x.cfg));
  }

  /** Process `i` is scanned and makes the offer. */
  ghost predicate Makes(x: Scan, i: nat, o: Offer) {
    && i < |x.Procs()| && Scanned(x, x.Procs()[i])
    && o.tid in TidsOf(x.Procs()[i]) && IsOffer(x, x.Procs()[i], o)
  }

  lemma ProcOffersMembers(x: Scan, i: nat, o: Offer)
    requires i < |x.Procs()|
    ensures o in ProcOffers(x, x.Procs()[i]) <==> Makes(x, i, o)
  {
    ThreadOffersMembers(x, x.Procs()[i], o);
  }

  ghost predicate SomeMakes(x: Scan, o: Offer) {
    exists i: nat :: Makes(x, i, o)
  }

  /** The offers are exactly the bindings that the scanned processes' threads should get. */
  lemma OffersMembers(x: Scan, o: Offer)
    ensures o in AllOffers(x) <==> SomeMakes(x, o)
  {
    var parts := ProcParts(x);
    forall i | 0 <= i < |parts| ensures o in parts[i] <==> Makes(x, i, o) { ProcOffersMembers(x, i, o); }
    ConcatMembers(parts, |parts|, o);
  }

  // ----- What offers lead to -----

  /** Bindings by thread rules outrank others, and later offers outrank earlier ones. */
  predicate Outranks(os: seq<Offer>, k: nat, j: nat)
    requires k < |os| && j < |os|
  {
    if os[k].entry.isThreadRule == os[j].entry.isThreadRule then k > j else os[k].entry.isThreadRule
  }

  /** Offer `k` outranks all others for its thread. */
  ghost predicate Wins(os: seq<Offer>, k: nat) {
    k < |os| && forall j :: 0 <= j < |os| && j != k && os[j].tid == os[k].tid ==> Outranks(os, k, j)
  }

  ghost predicate WinsFor(os: seq<Offer>, k: nat, tid: int, e: TaskEntry) {
    Wins(os, k) && os[k].tid == tid && os[k].entry == e
  }

  /** The thread's winning offer is this binding. */
  ghost predicate Won(os: seq<Offer>, tid: int, e: TaskEntry) {
    exists k: nat :: WinsFor(os, k, tid, e)
  }

  lemma WinsStays(os: seq<Offer>, o: Offer, k: nat)
    requires Wins(os, k)
    requires o.tid == os[k].tid ==> os[k].entry.isThreadRule && !o.entry.isThreadRule
    ensures Wins(os + [o], k)
  {
    var all := os + [o];
    forall j | 0 <= j < |all| && j != k && all[j].tid == all[k].tid ensures Outranks(all, k, j) {
      if j < |os| { assert Outranks(os, k, j); }
    }
  }

  lemma WinsAnew(os: seq<Offer>, o: Offer, k: nat)
    requires Wins(os, k) && os[k].tid == o.tid && !(os[k].entry.isThreadRule && !o.entry.isThreadRule)
    ensures Wins(os + [o], |os|)
  {
    var all := os + [o];
    forall j | 0 <= j < |os| && all[j].tid == o.tid ensures Outranks(all, |os|, j) {
      if j != k { assert Outranks(os, k, j); }
    }
  }

  lemma {:induction false} OfferedIsBound(c: Cache, os: seq<Offer>, k: nat)
    requires k < |os|
    ensures os[k].tid in TakenAll(c, os).tasks && os[k].entry.pid in TakenAll(c, os).pkgs
  {
    if k < |os| - 1 { OfferedIsBound(c, os[..|os| - 1], k); }
  }

  /** Each thread in `tasks` has its winning offer. */
  lemma {:induction false} WinnerOf(os: seq<Offer>, tid: int) returns (k: nat)
    requires tid in TakenAll(EMPTY, os).tasks
    ensures WinsFor(os, k, tid, TakenAll(EMPTY, os).tasks[tid])
  {
    var init, o := os[..|os| - 1], os[|os| - 1];
    assert os == init + [o];
    var tasks := TakenAll(EMPTY, init).tasks;
    if tid in tasks {
      k := WinnerOf(init, tid);
      if o.tid == tid && !(tasks[tid].isThreadRule && !o.entry.isThreadRule) {
        WinsAnew(init, o, k);
        k := |init|;
      } else {
        WinsStays(init, o, k);
      }
    } else {
      k := |init|;
      forall j | 0 <= j < |init| ensures init[j].tid != tid { OfferedIsBound(EMPTY, init, j); }
    }
  }

  /** `tasks` is exactly the set of winning offers. */
  lemma TakenTaskIff(os: seq<Offer>, tid: int, e: TaskEntry)
    ensures var tasks := TakenAll(EMPTY, os).tasks; tid in tasks && tasks[tid] == e <==> Won(os, tid, e)
  {
    if tid in TakenAll(EMPTY, os).tasks {
      var k := WinnerOf(os, tid);
      if j: nat :| WinsFor(os, j, tid, e) { assert !(j != k); }
    } else if Won(os, tid, e) {
      var k: nat :| WinsFor(os, k, tid, e);
      OfferedIsBound(EMPTY, os, k);
    }
  }

  /** Offer `k` is the last of its process. */
  ghost predicate LastOf(os: seq<Offer>, k: nat, pid: int, flag: (string, bool)) {
    && k < |os| && os[k].entry.pid == pid && os[k].flag == flag
    && forall j :: k < j < |os| ==> os[j].entry.pid != pid
  }

  /** The process makes an offer, and this is its package. */
  ghost predicate Entered(os: seq<Offer>, pid: int, flag: (string, bool)) {
    exists k: nat :: LastOf(os, k, pid, flag)
  }

  lemma {:induction false} PkgOffer(os: seq<Offer>, pid: int) returns (k: nat)
    requires pid in TakenAll(EMPTY, os).pkgs
    ensures LastOf(os, k, pid, TakenAll(EMPTY, os).pkgs[pid])
  {
    var init, o := os[..|os| - 1], os[|os| - 1];
    assert os == init + [o];
    if o.entry.pid == pid {
      k := |init|;
    } else {
      k := PkgOffer(init, pid);
    }
  }

  /** `pkgs` holds exactly the processes that make an offer, each with its package. */
  lemma TakenPkgIff(os: seq<Offer>, pid: int, flag: (string, bool))
    ensures var pkgs := TakenAll(EMPTY, os).pkgs; pid in pkgs && pkgs[pid] == flag <==> Entered(os, pid, flag)
  {
    if pid in TakenAll(EMPTY, os).pkgs {
      var k := PkgOffer(os, pid);
      if j: nat :| LastOf(os, j, pid, flag) { assert !(j < k) && !(k < j); }
    } else if Entered(os, pid, flag) {
      var k: nat :| LastOf(os, k, pid, flag);
      OfferedIsBound(EMPTY, os, k);
    }
  }

  // ----- Owners of tasks -----

  /** Every process that owns a task is in `pkgs`. */
  ghost predicate Rooted(c: Cache) {
    Owners(c.tasks) <= c.pkgs.Keys
  }

  /** `pkgs` holds exactly the processes that own a task. */
  ghost predicate Tight(c: Cache) {
    c.pkgs.Keys == Owners(c.tasks)
  }

  /** The processes in `pkgs` that own no task. */
  function Orphans(c: Cache): set<int> {
    c.pkgs.Keys - Owners(c.tasks)
  }

  lemma TightIsNoOrphans(c: Cache)
    ensures Tight(c) <==> Rooted(c) && Orphans(c) == {}
  {
    if Rooted(c) && Orphans(c) == {} {
      forall p | p in c.pkgs.Keys ensures p in Owners(c.tasks) { assert p !in Orphans(c); }
    }
  }

  ghost predicate WinsOne(os: seq<Offer>, k: nat, pid: int) {
    Wins(os, k) && os[k].entry.pid == pid
  }

  /** One of the process's offers wins its thread. */
  ghost predicate WinsSome(os: seq<Offer>, pid: int) {
    exists k: nat :: WinsOne(os, k, pid)
  }

  /** The processes that make offers of which none wins. */
  ghost function Losers(os: seq<Offer>): set<int> {
    set k | 0 <= k < |os| && !WinsSome(os, os[k].entry.pid) :: os[k].entry.pid
  }

  lemma OwnersWin(os: seq<Offer>, pid: int)
    ensures pid in Owners(TakenAll(EMPTY, os).tasks) <==> WinsSome(os, pid)
  {
    var tasks := TakenAll(EMPTY, os).tasks;
    if pid in Owners(tasks) {
      var t :| t in tasks && tasks[t].pid == pid;
      var k := WinnerOf(os, t);
      assert WinsOne(os, k, pid);
    }
    if WinsSome(os, pid) {
      var k: nat :| WinsOne(os, k, pid);
      assert WinsFor(os, k, os[k].tid, os[k].entry);
      TakenTaskIff(os, os[k].tid, os[k].entry);
    }
  }

  lemma TakenRooted(os: seq<Offer>)
    ensures Rooted(TakenAll(EMPTY, os))
  {
    forall pid | pid in Owners(TakenAll(EMPTY, os).tasks) ensures pid in TakenAll(EMPTY, os).pkgs {
      OwnersWin(os, pid);
      var k: nat :| WinsOne(os, k, pid);
      OfferedIsBound(EMPTY, os, k);
    }
  }

  lemma TakenOrphans(os: seq<Offer>)
    ensures Orphans(TakenAll(EMPTY, os)) == Losers(os)
  {
    var c := TakenAll(EMPTY, os);
    forall pid ensures pid in Orphans(c) <==> pid in Losers(os) {
      OwnersWin(os, pid);
      if pid in c.pkgs { var k := PkgOffer(os, pid); }
      if k :| 0 <= k < |os| && os[k].entry.pid == pid { OfferedIsBound(EMPTY, os, k); }
    }
  }

  /** What a rebuild leaves, in terms of its offers. */
  lemma OutcomeOf(os: seq<Offer>)
    ensures var c := TakenAll(EMPTY, os);
            && (forall t, e :: t in c.tasks && c.tasks[t] == e <==> Won(os, t, e))
            && (forall p, f :: p in c.pkgs && c.pkgs[p] == f <==> Entered(os, p, f))
            && Rooted(c) && Orphans(c) == Losers(os) && (Tight(c) <==> Losers(os) == {})
  {
    var c := TakenAll(EMPTY, os);
    forall t, e ensures t in c.tasks && c.tasks[t] == e <==> Won(os, t, e) { TakenTaskIff(os, t, e); }
    forall p, f ensures p in c.pkgs && c.pkgs[p] == f <==> Entered(os, p, f) { TakenPkgIff(os, p, f); }
    TakenRooted(os);
    TakenOrphans(os);
    TightIsNoOrphans(c);
  }

  // ----- One sync, as a function -----

  /** Whether the process count and the tracked processes call for a rebuild. */
  predicate NeedsReload(v: ProcValue, procs: Option<int>, alive: set<int>) {
    || v.scanAllProc
    || procs.None?
    || procs.value > v.lastProcCount + 11
    || exists pid | pid in v.trackedPids :: pid !in alive
  }

  function Counted(v: ProcValue, procs: Option<int>): ProcValue {
    match procs
    case None => v
    case Some(cur) =>
      v.(lastProcCount := cur,
         forceAffinity := v.forceAffinity || v.lastProcCount < cur <= v.lastProcCount + 11)
  }

  function ScanOf(v: ProcValue, cfg: AppConfig, snap: Snapshot): Scan {
    Scan(snap, v.scanAllProc, v.trackedPids, cfg)
  }

  /** `procs` is the process count of `sysinfo`, None if the call fails; `alive` are the processes
      that answer signal 0; `snap` is None if `/proc` cannot be read. */
  function Synced(v: ProcValue, cfg: AppConfig, procs: Option<int>, alive: set<int>, snap: Option<Snapshot>): ProcValue {
    var v' := Counted(v, procs);
    if !NeedsReload(v, procs, alive) then v'
    else
      var c := if snap.None? then EMPTY else Rebuilt(ScanOf(v, cfg, snap.value));
      var total := if snap.None? then 0 else |snap.value.procs|;
      v'.(cache := c, scanAllProc := total > v.lastProcTotal, lastProcTotal := total,
          trackedPids := c.pkgs.Keys, forceAffinity := true)
  }

  /** After a reload, over any snapshot: `tasks` is exactly the set of winning offers, `pkgs` holds
      exactly the processes that made an offer, all of them tracked, and every owner of a task is
      among them; these are all owners exactly if each of them won some thread. */
  lemma SyncIsComprehension(v: ProcValue, cfg: AppConfig, procs: Option<int>, alive: set<int>, snap: Snapshot)
    requires NeedsReload(v, procs, alive)
    ensures var v', os := Synced(v, cfg, procs, alive, Some(snap)), AllOffers(ScanOf(v, cfg, snap));
            && (forall t, e :: t in v'.cache.tasks && v'.cache.tasks[t] == e <==> Won(os, t, e))
            && (forall p, f :: p in v'.cache.pkgs && v'.cache.pkgs[p] == f <==> Entered(os, p, f))
            && v'.trackedPids == v'.cache.pkgs.Keys
            && Rooted(v'.cache) && (Tight(v'.cache) <==> Losers(os) == {})
  {
    OutcomeOf(AllOffers(ScanOf(v, cfg, snap)));
  }

  // ----- Snapshots without overlap -----

  /** No thread is listed under two processes, as at any one moment. */
  ghost predicate Disjoint(snap: Snapshot) {
    forall i, j, t :: 0 <= i < j < |snap.procs| && t in TidsOf(snap.procs[i]) ==> t !in TidsOf(snap.procs[j])
  }

  /** Two offers for one thread come from one process, so they are the same. */
  lemma DisjointSame(x: Scan, o: Offer, q: Offer)
    requires Disjoint(x.snap) && o in AllOffers(x) && q in AllOffers(x) && o.tid == q.tid
    ensures o == q
  {
    OffersMembers(x, o);
    OffersMembers(x, q);
    var i: nat :| i < |x.Procs()| && Makes(x, i, o);
    var j: nat :| j < |x.Procs()| && Makes(x, j, q);
    NoClash(x.snap, i, j, o.tid);
  }

  lemma NoClash(snap: Snapshot, i: nat, j: nat, t: int)
    requires Disjoint(snap) && i < |snap.procs| && j < |snap.procs|
    requires t in TidsOf(snap.procs[i]) && t in TidsOf(snap.procs[j])
    ensures i == j
  {
  }

  /** Where all offers for a thread are the same, every offer is won. */
  lemma SameAreWon(os: seq<Offer>, k: nat)
    requires k < |os| && forall i, j :: 0 <= i < |os| && 0 <= j < |os| && os[i].tid == os[j].tid ==> os[i] == os[j]
    ensures Won(os, os[k].tid, os[k].entry) && WinsSome(os, os[k].entry.pid)
  {
    OfferedIsBound(EMPTY, os, k);
    var w := WinnerOf(os, os[k].tid);
    assert os[w] == os[k];
    assert WinsFor(os, w, os[k].tid, os[k].entry) && WinsOne(os, w, os[k].entry.pid);
  }

  lemma DisjointAllWon(x: Scan)
    requires Disjoint(x.snap)
    ensures Losers(AllOffers(x)) == {}
    ensures forall o :: o in AllOffers(x) ==> Won(AllOffers(x), o.tid, o.entry)
  {
    var os := AllOffers(x);
    forall i, j | 0 <= i < |os| && 0 <= j < |os| && os[i].tid == os[j].tid ensures os[i] == os[j] {
      DisjointSame(x, os[i], os[j]);
    }
    forall k | 0 <= k < |os| ensures Won(os, os[k].tid, os[k].entry) && WinsSome(os, os[k].entry.pid) { SameAreWon(os, k); }
  }

  /** Some scanned process gives its thread this binding. */
  ghost predicate SomeGives(x: Scan, t: int, e: TaskEntry) {
    exists o :: SomeMakes(x, o) && o.tid == t && o.entry == e
  }

  lemma WonIsGiven(x: Scan, t: int, e: TaskEntry)
    requires Disjoint(x.snap)
    ensures Won(AllOffers(x), t, e) <==> SomeGives(x, t, e)
  {
    var os := AllOffers(x);
    DisjointAllWon(x);
    if Won(os, t, e) {
      var k: nat :| WinsFor(os, k, t, e);
      OffersMembers(x, os[k]);
    }
    if SomeGives(x, t, e) {
      var o :| SomeMakes(x, o) && o.tid == t && o.entry == e;
      OffersMembers(x, o);
    }
  }

  /** After a reload over such a snapshot, `tasks` is exactly the comprehension over the scanned
      processes and their threads, and `pkgs` exactly the owners. */
  lemma DisjointSyncIsComprehension(v: ProcValue, cfg: AppConfig, procs: Option<int>, alive: set<int>, snap: Snapshot)
    requires NeedsReload(v, procs, alive) && Disjoint(snap)
    ensures var v', x := Synced(v, cfg, procs, alive, Some(snap)), ScanOf(v, cfg, snap);
            && (forall t, e :: t in v'.cache.tasks && v'.cache.tasks[t] == e <==> SomeGives(x, t, e))
            && Tight(v'.cache) && v'.trackedPids == v'.cache.pkgs.Keys
  {
    var x := ScanOf(v, cfg, snap);
    SyncIsComprehension(v, cfg, procs, alive, snap);
    DisjointAllWon(x);
    forall t, e ensures Won(AllOffers(x), t, e) <==> SomeGives(x, t, e) { WonIsGiven(x, t, e); }
  }

  // ----- A snapshot with overlap -----

  lemma TwoOffers(os: seq<Offer>)
    requires |os| == 2 && os[0].tid == os[1].tid && os[0].entry.pid != os[1].entry.pid
    requires !os[0].entry.isThreadRule
    ensures os[0].entry.pid in Losers(os)
  {
    assert !Outranks(os, 0, 1);
  }

  lemma OneOffer(x: Scan, p: ProcInfo, t: int)
    requires Scanned(x, p) && p.tids == Some([t]) && x.snap.threadComm == map[]
    requires HasThreadRules(x.cfg.rules, PkgOf(p).value)
    ensures var os := ProcOffers(x, p);
            |os| == 1 && os[0].tid == t && os[0].entry.pid == p.pid && !os[0].entry.isThreadRule
  {
    assert BindingOf(x, p, t).Some? && !BindingOf(x, p, t).value.isThreadRule;
    var parts := ThreadParts(x, p);
    assert Concat(parts, 0) == [];
    assert Concat(parts, 1) == parts[0];
  }

  /** A torn reading: one thread listed under two processes. Both enter `pkgs`, and the first owns
      no task. */
  lemma OverlapBreaksTight(topo: Topology)
    ensures var cfg := A.StartConfig(A.Start([OneThreadEntry("a")], topo, None, None));
            var snap := Snapshot([ProcInfo(1, Some("a"), None, Some([7])), ProcInfo(2, Some("a"), None, Some([7]))], map[]);
            var c := Rebuilt(Scan(snap, true, {}, cfg));
            !Tight(c) && 1 in c.pkgs && 1 !in Owners(c.tasks)
  {
    var cfg := A.StartConfig(A.Start([OneThreadEntry("a")], topo, None, None));
    var snap := Snapshot([ProcInfo(1, Some("a"), None, Some([7])), ProcInfo(2, Some("a"), None, Some([7]))], map[]);
    var x := Scan(snap, true, {}, cfg);
    A.OneThreadStart("a", topo);
    OneOffer(x, x.Procs()[0], 7);
    OneOffer(x, x.Procs()[1], 7);
    var parts := ProcParts(x);
    assert Concat(parts, 0) == [] && Concat(parts, 1) == parts[0];
    TwoOffers(AllOffers(x));
    TakenOrphans(AllOffers(x));
  }

  // ----- Runs of proc mode -----

  /** The loop of `main` in proc mode: a sync, a sweep, a hot reload of the configuration, or a merge
      of the cache file after automatic assignment. */
  datatype ProcStep =
    | SyncStep(procs: Option<int>, alive: set<int>, snap: Option<Snapshot>)
    | SweepStep(live: set<int>)
    | ReloadStep(reload: A.Reload)
    | MergeStep(file: Option<seq<Entry>>)

  datatype ProcLoop = ProcLoop(cfg: AppConfig, v: ProcValue)

  function SweptValue(v: ProcValue, live: set<int>): ProcValue {
    v.(cache := Swept(v.cache, live), forceAffinity := false)
  }

  function Stepped(l: ProcLoop, step: ProcStep): (l': ProcLoop)
    ensures l'.cfg.topo == l.cfg.topo
  {
    match step
    case SyncStep(procs, alive, snap) => l.(v := Synced(l.v, l.cfg, procs, alive, snap))
    case SweepStep(live) => l.(v := SweptValue(l.v, live))
    case ReloadStep(reload) => ProcLoop(A.Reloaded(l.cfg, reload), l.v.(scanAllProc := true))
    case MergeStep(file) => l.(cfg := A.MergedFile(l.cfg, file))
  }

  function SteppedAll(l: ProcLoop, steps: seq<ProcStep>): ProcLoop
    decreases |steps|
  {
    if steps == [] then l else SteppedAll(Stepped(l, steps[0]), steps[1..])
  }

  /** Every owner of a task is in `pkgs`, and all of `pkgs` is tracked. */
  ghost predicate Linked(v: ProcValue) {
    Rooted(v.cache) && v.cache.pkgs.Keys <= v.trackedPids
  }

  predicate Rebuilds(l: ProcLoop, step: ProcStep) {
    step.SyncStep? && NeedsReload(l.v, step.procs, step.alive)
  }

  /** What a rebuild leaves in `pkgs` without a task. */
  ghost function RebuildLosers(l: ProcLoop, step: ProcStep): set<int>
    requires step.SyncStep?
  {
    if step.snap.None? then {} else Losers(AllOffers(ScanOf(l.v, l.cfg, step.snap.value)))
  }

  lemma SweepKeepsOrphans(c: Cache, live: set<int>)
    requires Rooted(c)
    ensures Rooted(Swept(c, live)) && Orphans(Swept(c, live)) == Orphans(c) && Swept(c, live).pkgs.Keys <= c.pkgs.Keys
  {
    var tasks := c.tasks - (c.tasks.Keys - live);
    forall p | p in Owners(tasks) ensures p in Owners(c.tasks) {
      var t :| t in tasks && tasks[t].pid == p;
      assert t in c.tasks;
    }
  }

  lemma RebuildLinked(l: ProcLoop, step: ProcStep)
    requires Rebuilds(l, step)
    ensures Linked(Stepped(l, step).v) && Orphans(Stepped(l, step).v.cache) == RebuildLosers(l, step)
  {
    if step.snap.Some? {
      OutcomeOf(AllOffers(ScanOf(l.v, l.cfg, step.snap.value)));
    }
  }

  lemma SteppedLinked(l: ProcLoop, step: ProcStep)
    requires Linked(l.v)
    ensures Linked(Stepped(l, step).v)
    ensures Orphans(Stepped(l, step).v.cache) == if Rebuilds(l, step) then RebuildLosers(l, step) else Orphans(l.v.cache)
  {
    if Rebuilds(l, step) { RebuildLinked(l, step); }
    if step.SweepStep? { SweepKeepsOrphans(l.v.cache, step.live); }
  }

  /** The losers of the last rebuild of the run, or `now` if there is none. */
  ghost function LastLosers(l: ProcLoop, steps: seq<ProcStep>, now: set<int>): set<int>
    decreases |steps|
  {
    if steps == [] then now
    else LastLosers(Stepped(l, steps[0]), steps[1..], if Rebuilds(l, steps[0]) then RebuildLosers(l, steps[0]) else now)
  }

  lemma {:induction false} SteppedAllLinked(l: ProcLoop, steps: seq<ProcStep>)
    requires Linked(l.v)
    ensures Linked(SteppedAll(l, steps).v)
    ensures Orphans(SteppedAll(l, steps).v.cache) == LastLosers(l, steps, Orphans(l.v.cache))
    decreases |steps|
  {
    if steps != [] {
      SteppedLinked(l, steps[0]);
      SteppedAllLinked(Stepped(l, steps[0]), steps[1..]);
    }
  }

  /** Entering proc mode with any cache, as eBPF mode may leave it: from the first sync on, every
      step keeps the owners of tasks in `pkgs` and these tracked. A process in `pkgs` owns no task
      exactly if it won no thread in the last rebuild. */
  lemma ConsistentFromFirstSync(l: ProcLoop, first: ProcStep, steps: seq<ProcStep>)
    requires l.v.scanAllProc && first.SyncStep?
    ensures var end := SteppedAll(Stepped(l, first), steps).v;
            var losers := LastLosers(Stepped(l, first), steps, RebuildLosers(l, first));
            && Linked(end) && Orphans(end.cache) == losers
            && (Tight(end.cache) <==> losers == {})
  {
    RebuildLinked(l, first);
    SteppedAllLinked(Stepped(l, first), steps);
    TightIsNoOrphans(SteppedAll(Stepped(l, first), steps).v.cache);
  }

  ghost predicate DisjointSnapshots(steps: seq<ProcStep>) {
    forall i :: 0 <= i < |steps| && steps[i].SyncStep? && steps[i].snap.Some? ==> Disjoint(steps[i].snap.value)
  }

  lemma {:induction false} DisjointRunHasNoLosers(l: ProcLoop, steps: seq<ProcStep>)
    requires DisjointSnapshots(steps)
    ensures LastLosers(l, steps, {}) == {}
    decreases |steps|
  {
    if steps != [] {
      var step := steps[0];
      if step.SyncStep? && step.snap.Some? { DisjointAllWon(ScanOf(l.v, l.cfg, step.snap.value)); }
      assert forall i :: 0 <= i < |steps[1..]| ==> steps[1..][i] == steps[i + 1];
      DisjointRunHasNoLosers(Stepped(l, step), steps[1..]);
    }
  }

  /** So with snapshots without overlap `pkgs` is always exactly the set of owners. */
  lemma TightFromFirstSync(l: ProcLoop, first: ProcStep, steps: seq<ProcStep>)
    requires l.v.scanAllProc && first.SyncStep? && DisjointSnapshots([first] + steps)
    ensures Tight(SteppedAll(Stepped(l, first), steps).v.cache)
  {
    var all := [first] + steps;
    assert all[0] == first && all[1..] == steps;
    assert forall i :: 0 <= i < |steps| ==> steps[i] == all[i + 1];
    ConsistentFromFirstSync(l, first, steps);
    if first.snap.Some? { DisjointAllWon(ScanOf(l.v, l.cfg, first.snap.value)); }
    DisjointRunHasNoLosers(Stepped(l, first), steps);
  }

  // ----- Bindings agree with their directories, across both modes -----

  lemma OfferAgrees(x: Scan, i: nat, o: Offer)
    requires DirsAgree(x.cfg.rules) && Makes(x, i, o)
    ensures EntryAgrees(o.entry, x.cfg.topo.present)
  {
    var pkg := PkgOf(x.Procs()[i]).value;
    AffinityDirNamesMask(pkg, ScanName(x.snap, o.tid, HasThreadRules(x.cfg.rules, pkg)), x.cfg);
  }

  lemma RebuiltAgrees(x: Scan)
    requires DirsAgree(x.cfg.rules)
    ensures EntriesAgree(Rebuilt(x).tasks, x.cfg.topo.present)
  {
    var os := AllOffers(x);
    forall t | t in TakenAll(EMPTY, os).tasks ensures EntryAgrees(TakenAll(EMPTY, os).tasks[t], x.cfg.topo.present) {
      var k := WinnerOf(os, t);
      OffersMembers(x, os[k]);
      var i: nat :| i < |x.Procs()| && Makes(x, i, os[k]);
      OfferAgrees(x, i, os[k]);
    }
  }

  ghost predicate LoopAgrees(l: ProcLoop) {
    EntriesAgree(l.v.cache.tasks, l.cfg.topo.present) && DirsAgree(l.cfg.rules)
  }

  lemma SteppedAgrees(l: ProcLoop, step: ProcStep)
    requires LoopAgrees(l)
    ensures LoopAgrees(Stepped(l, step))
  {
    match step
    case SyncStep(procs, alive, snap) =>
      if snap.Some? { RebuiltAgrees(ScanOf(l.v, l.cfg, snap.value)); }
    case SweepStep(live) =>
    case ReloadStep(reload) => A.ReloadedDirsAgree(l.cfg, reload);
    case MergeStep(file) => A.MergedFileDirsAgree(l.cfg, file);
  }

  lemma {:induction false} SteppedAllAgrees(l: ProcLoop, steps: seq<ProcStep>)
    requires LoopAgrees(l)
    ensures LoopAgrees(SteppedAll(l, steps)) && SteppedAll(l, steps).cfg.topo == l.cfg.topo
    decreases |steps|
  {
    if steps != [] {
      SteppedAgrees(l, steps[0]);
      SteppedAllAgrees(Stepped(l, steps[0]), steps[1..]);
    }
  }

  /** In every run, through eBPF mode and then proc mode, with any reloads and merges of any files:
      each binding's directory is empty or parses back to its mask, and no mask is empty if a CPU is
      present. */
  lemma BindingsAlwaysAgree(st: A.Start, turns: seq<Turn>, l: ProcLoop, steps: seq<ProcStep>)
    requires var end := TurnedAll(Begin(st), turns); l.cfg == end.cfg && l.v.cache == end.side.cache
    ensures EntriesAgree(l.v.cache.tasks, st.topo.present)
    ensures EntriesAgree(SteppedAll(l, steps).v.cache.tasks, st.topo.present)
  {
    RunOk(st, turns);
    SteppedAllAgrees(l, steps);
  }

  // ----- The methods -----

  class ProcState {
    const cache: ProcCache
    var lastProcCount: int
    var scanAllProc: bool
    var trackedPids: set<int>
    var lastProcTotal: int
    var forceAffinity: bool

    constructor ()
      ensures Value() == ProcValue(EMPTY, 0, true, {}, 0, false) && fresh(cache)
    {
      cache := new ProcCache();
      lastProcCount, scanAllProc, trackedPids, lastProcTotal, forceAffinity := 0, true, {}, 0, false;
    }

    function Value(): ProcValue
      reads this, cache
    {
      ProcValue(cache.Value(), lastProcCount, scanAllProc, trackedPids, lastProcTotal, forceAffinity)
    }

    /** `task_apply` with an `apply_fn` that binds nothing and reports the thread alive. */
    method TaskApply(tid: int, pid: int, pkg: string, comm: string, htr: bool, cfg: AppConfig) returns (d: Decision)
      modifies cache`tasks
      ensures d == Decide(old(cache.Value()), tid, pid, pkg, comm, htr, true, cfg)
      ensures cache.Value() == Decided(old(cache.Value()), tid, d, false)
    {
      ghost var before := cache.tasks;
      d := cache.TaskPrepare(tid, pid, pkg, comm, htr, cfg, true);
      if d.Bind? {
        cache.tasks := cache.tasks[tid := d.entry];
        assert cache.tasks == before[tid := d.entry];
      }
    }

    /** One thread; the answer of `task_apply`. */
    method RebuildThread(x: Scan, p: ProcInfo, tid: int, ghost c: Cache, ghost os: seq<Offer>) returns (bound: bool)
      requires PkgOf(p).Some? && TakenFrom(c, cache.Value(), os)
      modifies cache`tasks
      ensures TakenFrom(c, cache.Value(), os + OfferOf(x, p, tid))
      ensures bound <==> OfferOf(x, p, tid) != []
    {
      ThreadTakes(c, cache.Value(), x, p, tid, os);
      var (pkg, htr) := ScanFlag(p, x.cfg);
      var d := TaskApply(tid, p.pid, pkg, ScanName(x.snap, tid, htr), htr, x.cfg);
      bound := !d.Unmatched?;
    }

    /** The threads of one process; `any` tells whether one of them was given a binding. */
    method RebuildThreads(x: Scan, p: ProcInfo) returns (any: bool)
      requires Target(p, x.cfg)
      modifies cache`tasks
      ensures TakenFrom(old(cache.Value()), cache.Value(), ThreadOffers(x, p))
      ensures any <==> ThreadOffers(x, p) != []
    {
      ghost var parts := ThreadParts(x, p);
      any := false;
      for i := 0 to |p.tids.value|
        invariant TakenFrom(old(cache.Value()), cache.Value(), Concat(parts, i))
        invariant any <==> Concat(parts, i) != []
      {
        var bound := RebuildThread(x, p, p.tids.value[i], old(cache.Value()), Concat(parts, i));
        any := any || bound;
      }
    }

    /** One entry of `/proc`. */
    method RebuildProc(x: Scan, p: ProcInfo, newTracked: set<int>) returns (newTracked': set<int>)
      requires newTracked == cache.pkgs.Keys
      modifies cache
      ensures cache.Value() == TakenAll(old(cache.Value()), ProcOffers(x, p))
      ensures newTracked' == cache.pkgs.Keys
    {
      newTracked' := newTracked;
      if !x.all && p.pid !in x.tracked { return; }
      if !Target(p, x.cfg) { return; }
      ProcPkgs(cache.Value(), x, p);
      var any := RebuildThreads(x, p);
      if any {
        cache.pkgs := cache.pkgs[p.pid := ScanFlag(p, x.cfg)];
        newTracked' := newTracked + {p.pid};
      }
    }

    /** The body of the loop over `/proc`. */
    method RebuildNext(x: Scan, i: nat, newTracked: set<int>) returns (newTracked': set<int>)
      requires i < |x.Procs()|
      requires newTracked == cache.pkgs.Keys && cache.Value() == TakenAll(EMPTY, OffersUpTo(x, i))
      modifies cache
      ensures cache.Value() == TakenAll(EMPTY, OffersUpTo(x, i + 1))
      ensures newTracked' == cache.pkgs.Keys
    {
      TakenUpTo(x, i);
      newTracked' := RebuildProc(x, x.Procs()[i], newTracked);
    }

    method Rebuild(x: Scan) returns (newTracked: set<int>)
      requires cache.Value() == EMPTY
      modifies cache
      ensures cache.Value() == Rebuilt(x)
      ensures newTracked == cache.pkgs.Keys
    {
      newTracked := {};
      for i := 0 to |x.Procs()|
        invariant cache.Value() == TakenAll(EMPTY, OffersUpTo(x, i))
        invariant newTracked == cache.pkgs.Keys
      {
        newTracked := RebuildNext(x, i, newTracked);
      }
    }

    /** The loop over the tracked processes, left at the first that is gone. */
    method SomeGone(pids: set<int>, alive: set<int>) returns (gone: bool)
      ensures gone <==> exists pid :: pid in pids && pid !in alive
    {
      var todo := pids;
      while todo != {}
        invariant todo <= pids
        invariant forall pid :: pid in pids && pid !in todo ==> pid in alive
      {
        ghost var w := Member(todo);
        var pid :| pid in todo;
        if pid !in alive {
          return true;
        }
        todo := todo - {pid};
      }
      gone := false;
    }

    /** The checks before a rebuild: process count and tracked processes. */
    method CheckReload(procs: Option<int>, alive: set<int>) returns (need: bool)
      modifies this`lastProcCount, this`forceAffinity
      ensures need <==> NeedsReload(old(Value()), procs, alive)
      ensures Value() == Counted(old(Value()), procs)
    {
      need := scanAllProc;
      if procs.None? {
        need := true;
      } else {
        var cur := procs.value;
        if cur > lastProcCount + 11 {
          need := true;
        } else if cur > lastProcCount {
          forceAffinity := true;
        }
        lastProcCount := cur;
      }
      if !need {
        need := SomeGone(trackedPids, alive);
      }
    }

    method Sync(cfg: AppConfig, procs: Option<int>, alive: set<int>, snap: Option<Snapshot>) returns (reloaded: bool)
      modifies this, cache
      ensures Value() == Synced(old(Value()), cfg, procs, alive, snap)
      ensures reloaded <==> NeedsReload(old(Value()), procs, alive)
    {
      var need := CheckReload(procs, alive);
      if !need {
        return false;
      }
      cache.Clear();
      var tracked, total := {}, 0;
      if snap.Some? {
        tracked := Rebuild(Scan(snap.value, scanAllProc, trackedPids, cfg));
        total := |snap.value.procs|;
      }
      scanAllProc := total > lastProcTotal;
      lastProcTotal := total;
      trackedPids := tracked;
      forceAffinity := true;
      reloaded := true;
    }

    method Sweep(threads: ThreadTable, topo: Topology)
      modifies this`forceAffinity, cache, threads
      ensures Value() == SweptValue(old(Value()), threads.live)
      ensures threads.live == old(threads.live)
    {
      var _ := cache.AffinitySync(threads, topo);
      forceAffinity := false;
    }
  }
}
