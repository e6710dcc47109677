/**
 src/proccache.rs: the process cache shared by both modes. `pkgs` maps a process to its
 package and that package's has-thread-rules flag, `tasks` maps a thread to its binding.
 */
module ProcCaches {
  import opened Strings
  import opened Config
  import opened RuleMatch
  import opened Whitelist
  import opened Threads

  datatype TaskEntry = TaskEntry(pid: int, cpus: set<nat>, dir: string, isThreadRule: bool)

  datatype Cache = Cache(pkgs: map<int, (string, bool)>, tasks: map<int, TaskEntry>)

  const EMPTY: Cache := Cache(map[], map[])

  // ----- Deletion -----

  predicate OwnsTask(tasks: map<int, TaskEntry>, pid: int) {
    exists t | t in tasks :: tasks[t].pid == pid
  }

  /** The processes that own a task. */
  function Owners(tasks: map<int, TaskEntry>): set<int> {
    set t | t in tasks :: tasks[t].pid
  }

  /** `task_del` */
  function TaskDeleted(c: Cache, tid: int): Cache {
    if tid !in c.tasks then c
    else
      var tasks, pid := c.tasks - {tid}, c.tasks[tid].pid;
      Cache(if OwnsTask(tasks, pid) then c.pkgs else c.pkgs - {pid}, tasks)
  }

  function AllDeleted(c: Cache, tids: seq<int>): Cache {
    if tids == [] then c else TaskDeleted(AllDeleted(c, tids[..|tids| - 1]), tids[|tids| - 1])
  }

  /** The cache without the tasks in `gone`: a process is forgotten exactly if it loses its last task. */
  function Cleaned(c: Cache, gone: set<int>): Cache {
    var tasks := c.tasks - gone;
    Cache(c.pkgs - (Owners(c.tasks) - Owners(tasks)), tasks)
  }

  lemma OwnersMember(tasks: map<int, TaskEntry>, pid: int)
    ensures pid in Owners(tasks) <==> OwnsTask(tasks, pid)
  {
  }

  lemma CleanedOne(c: Cache, gone: set<int>, tid: int)
    ensures TaskDeleted(Cleaned(c, gone), tid) == Cleaned(c, gone + {tid})
  {
    var mid, end := c.tasks - gone, c.tasks - (gone + {tid});
    if tid in mid {
      var pid := mid[tid].pid;
      assert mid - {tid} == end;
      OwnersMember(end, pid);
      OwnersLose(mid, tid);
      assert forall p :: p in Owners(mid) ==> p in Owners(c.tasks);
    } else {
      assert mid == end;
    }
  }

  lemma OwnersLose(tasks: map<int, TaskEntry>, tid: int)
    requires tid in tasks
    ensures var rest := tasks - {tid};
            Owners(rest) == if OwnsTask(rest, tasks[tid].pid) then Owners(tasks) else Owners(tasks) - {tasks[tid].pid}
  {
    var rest := tasks - {tid};
    forall p ensures p in Owners(tasks) <==> p in Owners(rest) || p == tasks[tid].pid {
      if p in Owners(rest) {
        var t :| t in rest && rest[t].pid == p;
        assert t in tasks;
      }
      if p in Owners(tasks) && p != tasks[tid].pid {
        var t :| t in tasks && tasks[t].pid == p;
        assert t in rest;
      }
    }
    OwnersMember(rest, tasks[tid].pid);
  }

  function Elems(tids: seq<int>): set<int> {
    set t | t in tids
  }

  /** Deleting a list of tasks one by one has one result, whatever the order. */
  lemma {:induction false} DeletionOrderIrrelevant(c: Cache, tids: seq<int>)
    ensures AllDeleted(c, tids) == Cleaned(c, Elems(tids))
  {
    if tids == [] {
      assert Elems(tids) == {};
      assert c.tasks - {} == c.tasks;
      assert c.pkgs - (Owners(c.tasks) - Owners(c.tasks)) == c.pkgs;
    } else {
      var init, tid := tids[..|tids| - 1], tids[|tids| - 1];
      assert tids == init + [tid];
      DeletionOrderIrrelevant(c, init);
      CleanedOne(c, Elems(init), tid);
      assert Elems(tids) == Elems(init) + {tid};
    }
  }

  /** The cache after one sweep against a fixed set of live threads. */
  function Swept(c: Cache, live: set<int>): Cache {
    Cleaned(c, c.tasks.Keys - live)
  }

  /** A sweep heals any cache: only live threads stay, untouched, and `pkgs` forgets exactly the
      processes that lost their last task. A second sweep finds nothing to do. */
  lemma SweepHeals(c: Cache, live: set<int>)
    ensures var s := Swept(c, live);
            && s.tasks.Keys == c.tasks.Keys * live
            && (forall t :: t in s.tasks ==> s.tasks[t] == c.tasks[t])
            && (forall p :: p in s.pkgs <==> p in c.pkgs && (OwnsTask(c.tasks, p) ==> OwnsTask(s.tasks, p)))
            && (forall p :: p in s.pkgs ==> s.pkgs[p] == c.pkgs[p])
            && Swept(s, live) == s
  {
    var s := Swept(c, live);
    forall p ensures p in Owners(c.tasks) - Owners(s.tasks) <==> OwnsTask(c.tasks, p) && !OwnsTask(s.tasks, p) {
      OwnersMember(c.tasks, p);
      OwnersMember(s.tasks, p);
    }
    assert s.tasks.Keys - live == {};
    assert s.tasks - {} == s.tasks;
    assert Owners(s.tasks) - Owners(s.tasks) == {};
  }

  // ----- Lookup and apply -----

  /** The package of a process: the cached one, else the one `comm` resolves to. */
  function LookedUp(c: Cache, pid: int, comm: string, cfg: AppConfig): Option<(string, bool)> {
    if pid in c.pkgs then Some(c.pkgs[pid])
    else match CommToPkg(comm, cfg.pkgs)
         case None => None
         case Some(pkg) => Some((pkg, HasThreadRules(cfg.rules, pkg)))
  }

  function AfterLookup(c: Cache, pid: int, comm: string, cfg: AppConfig): Cache {
    var r := LookedUp(c, pid, comm, cfg);
    if r.Some? then c.(pkgs := c.pkgs[pid := r.value]) else c
  }

  /** What `task_apply` does with a thread: nothing, keep a thread-rule binding, or bind anew. */
  datatype Decision = Unmatched | KeepOld | Bind(entry: TaskEntry)

  function ThreadName(comm: string, hasThreadRules: bool, trustComm: bool): string {
    if hasThreadRules && trustComm then comm else ""
  }

  function Decide(c: Cache, tid: int, pid: int, pkg: string, comm: string, hasThreadRules: bool, trustComm: bool, cfg: AppConfig): Decision {
    match Affinity(pkg, ThreadName(comm, hasThreadRules, trustComm), cfg)
    case None => Unmatched
    case Some(r) =>
      if !r.isThreadRule && tid in c.tasks && c.tasks[tid].isThreadRule then KeepOld
      else Bind(TaskEntry(pid, r.cpus, r.dir, r.isThreadRule))
  }

  /** When the flag passed in is the package's own, `task_apply` finds nothing exactly for a package
      without thread rules and without a CPU in its package rules. */
  lemma UnmatchedIff(c: Cache, tid: int, pid: int, pkg: string, comm: string, trust: bool, cfg: AppConfig)
    ensures var htr := HasThreadRules(cfg.rules, pkg);
            Decide(c, tid, pid, pkg, comm, htr, trust, cfg).Unmatched? <==> !htr && UnionOf(PackageRules(cfg.rules, pkg)) == {}
  {
  }

  /** So a matched thread rule never ends in None there, whatever the package's name. */
  lemma MatchedRuleBinds(c: Cache, tid: int, pid: int, pkg: string, comm: string, trust: bool, cfg: AppConfig)
    requires ThreadRules(cfg.rules, pkg, ThreadName(comm, HasThreadRules(cfg.rules, pkg), trust)) != []
    ensures !Decide(c, tid, pid, pkg, comm, HasThreadRules(cfg.rules, pkg), trust, cfg).Unmatched?
  {
    UnmatchedIff(c, tid, pid, pkg, comm, trust, cfg);
  }

  /** A thread found dead while binding loses its old entry, but its process stays in `pkgs`. */
  function Decided(c: Cache, tid: int, d: Decision, dead: bool): Cache {
    match d
    case Unmatched => c
    case KeepOld => c
    case Bind(e) => c.(tasks := if dead then c.tasks - {tid} else c.tasks[tid := e])
  }

  lemma DeadListSweeps(c: Cache, live: set<int>, dead: seq<int>)
    requires forall t :: t in dead <==> t in c.tasks && t !in live
    ensures AllDeleted(c, dead) == Swept(c, live)
  {
    DeletionOrderIrrelevant(c, dead);
    forall t ensures t in Elems(dead) <==> t in c.tasks.Keys - live {}
    assert Elems(dead) == c.tasks.Keys - live;
  }

  lemma EmptyOrMember<T>(s: set<T>)
    ensures s == {} || exists x :: x in s
  {
    if forall x :: x !in s { assert s == {}; }
  }

  lemma Member<T>(s: set<T>) returns (x: T)
    requires s != {}
    ensures x in s
  {
    EmptyOrMember(s);
    x :| x in s;
  }

  // ----- The class -----

  class ProcCache {
    var pkgs: map<int, (string, bool)>
    var tasks: map<int, TaskEntry>

    constructor ()
      ensures Value() == EMPTY
    {
      pkgs, tasks := map[], map[];
    }

    function Value(): Cache
      reads this
    {
      Cache(pkgs, tasks)
    }

    method Clear()
      modifies this
      ensures Value() == EMPTY
    {
      pkgs, tasks := map[], map[];
    }

    method TaskDel(tid: int)
      modifies this
      ensures Value() == TaskDeleted(old(Value()), tid)
    {
      if tid in tasks {
        var pid := tasks[tid].pid;
        tasks := tasks - {tid};
        PkgsPurge(pid);
      }
    }

    method PkgsPurge(pid: int)
      modifies this`pkgs
      ensures pkgs == if OwnsTask(tasks, pid) then old(pkgs) else old(pkgs) - {pid}
    {
      if !OwnsTask(tasks, pid) {
        pkgs := pkgs - {pid};
      }
    }

    method PkgLookupComm(pid: int, comm: string, cfg: AppConfig) returns (r: Option<(string, bool)>)
      modifies this`pkgs
      ensures r == LookedUp(old(Value()), pid, comm, cfg)
      ensures Value() == AfterLookup(old(Value()), pid, comm, cfg)
    {
      if pid in pkgs {
        r := Some(pkgs[pid]);
        assert pkgs == pkgs[pid := pkgs[pid]];
        return;
      }
      var pkg := CommToPkg(comm, cfg.pkgs);
      if pkg.None? {
        return None;
      }
      var hasThreadRules := HasThreadRules(cfg.rules, pkg.value);
      pkgs := pkgs[pid := (pkg.value, hasThreadRules)];
      r := Some((pkg.value, hasThreadRules));
    }

    /** `task_apply` up to the call of `apply_fn`: on `Bind` the old entry is already removed. */
    method TaskPrepare(tid: int, pid: int, pkg: string, comm: string, hasThreadRules: bool, cfg: AppConfig, trustComm: bool)
      returns (d: Decision)
      modifies this`tasks
      ensures d == Decide(old(Value()), tid, pid, pkg, comm, hasThreadRules, trustComm, cfg)
      ensures tasks == if d.Bind? then old(tasks) - {tid} else old(tasks)
    {
      var name := if hasThreadRules && trustComm then comm else "";
      var result := ThreadAffinity(pkg, name, cfg);
      if result.None? {
        return Unmatched;
      }
      if !result.value.isThreadRule {
        if tid in tasks && tasks[tid].isThreadRule {
          return KeepOld;
        }
      }
      tasks := tasks - {tid};
      d := Bind(TaskEntry(pid, result.value.cpus, result.value.dir, result.value.isThreadRule));
    }

    /** `affinity_sync`: tries to bind every task, in any order, and deletes the dead ones. */
    method AffinitySync(threads: ThreadTable, topo: Topology) returns (dead: seq<int>)
      modifies this, threads
      ensures Value() == Swept(old(Value()), threads.live)
      ensures threads.live == old(threads.live)
      ensures forall t :: t in dead <==> t in old(tasks) && t !in threads.live
      ensures forall i, j :: 0 <= i < j < |dead| ==> dead[i] != dead[j]
    {
      dead := [];
      var todo: set<int> := tasks.Keys;
      while todo != {}
        invariant todo <= tasks.Keys && Value() == old(Value()) && threads.live == old(threads.live)
        invariant forall t :: t in dead <==> t in tasks && t !in todo && t !in threads.live
        invariant forall i, j :: 0 <= i < j < |dead| ==> dead[i] != dead[j]
      {
        ghost var w := Member(todo);
        var tid :| tid in todo;
        var exited := threads.AffinitySet(tid, tasks[tid].cpus, tasks[tid].dir, topo);
        if exited {
          dead := dead + [tid];
        }
        todo := todo - {tid};
      }
      DeleteAll(dead);
      DeadListSweeps(old(Value()), threads.live, dead);
    }

    method DeleteAll(dead: seq<int>)
      modifies this
      ensures Value() == AllDeleted(old(Value()), dead)
    {
      for i := 0 to |dead|
        invariant Value() == AllDeleted(old(Value()), dead[..i])
      {
        assert dead[..i + 1][..i] == dead[..i];
        TaskDel(dead[i]);
      }
      assert dead[..|dead|] == dead;
    }
  }
}
