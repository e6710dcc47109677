/**
 What src/rule_match.rs gives a thread, in terms of the configured rules alone: which of them
 decide, and which CPUs and directory they lead to.
 */
module AffinityMeaning {
  import opened Strings
  import opened CpuSets
  import opened Ranges
  import opened Glob
  import opened Config
  import opened RuleMatch

  // ----- The rules that count -----

  /** A thread rule of the package whose name pattern matches the thread. */
  predicate ThreadRuleFor(r: Rule, pkg: string, thread: string) {
    r.pkg == pkg && r.thread != "" && thread != "" && FnMatch(r.thread, thread)
  }

  predicate PackageRuleFor(r: Rule, pkg: string) {
    r.pkg == pkg && r.thread == ""
  }

  ghost predicate Matched(rules: seq<Rule>, pkg: string, thread: string) {
    exists r :: r in rules && ThreadRuleFor(r, pkg, thread)
  }

  /** Some matching thread rule names the CPU. */
  ghost predicate ThreadCpu(rules: seq<Rule>, pkg: string, thread: string, cpu: nat) {
    exists r :: r in rules && ThreadRuleFor(r, pkg, thread) && cpu in Parse(r.cpus)
  }

  /** Some rule for the package itself names the CPU. */
  ghost predicate PackageCpu(rules: seq<Rule>, pkg: string, cpu: nat) {
    exists r :: r in rules && PackageRuleFor(r, pkg) && cpu in Parse(r.cpus)
  }

  ghost predicate SomeThreadCpu(rules: seq<Rule>, pkg: string, thread: string) {
    exists cpu: nat :: ThreadCpu(rules, pkg, thread, cpu)
  }

  ghost predicate SomePackageCpu(rules: seq<Rule>, pkg: string) {
    exists cpu: nat :: PackageCpu(rules, pkg, cpu)
  }

  /** Some thread rule is for the package or for a pattern that matches it. */
  ghost predicate HasPattern(rules: seq<Rule>, pkg: string) {
    exists r :: r in rules && r.thread != "" && FnMatch(r.pkg, pkg)
  }

  lemma ThreadRulesMembers(rules: seq<Rule>, pkg: string, thread: string, r: Rule)
    ensures r in ThreadRules(rules, pkg, thread) <==> r in rules && ThreadRuleFor(r, pkg, thread)
  {
    SelectIn(rules, pkg, ThreadNamed(thread), r);
  }

  lemma PackageRulesMembers(rules: seq<Rule>, pkg: string, r: Rule)
    ensures r in PackageRules(rules, pkg) <==> r in rules && PackageRuleFor(r, pkg)
  {
    SelectIn(rules, pkg, PackageLevel, r);
  }

  lemma MatchedMeaning(rules: seq<Rule>, pkg: string, thread: string)
    ensures ThreadRules(rules, pkg, thread) != [] <==> Matched(rules, pkg, thread)
  {
    var ts := ThreadRules(rules, pkg, thread);
    if ts != [] { ThreadRulesMembers(rules, pkg, thread, ts[0]); }
    if Matched(rules, pkg, thread) {
      var r :| r in rules && ThreadRuleFor(r, pkg, thread);
      ThreadRulesMembers(rules, pkg, thread, r);
    }
  }

  lemma UnionMembers(rules: seq<Rule>, cpu: nat)
    ensures cpu in UnionOf(rules) <==> exists r :: r in rules && cpu in Parse(r.cpus)
  {
  }

  lemma ThreadUnion(rules: seq<Rule>, pkg: string, thread: string, cpu: nat)
    ensures cpu in UnionOf(ThreadRules(rules, pkg, thread)) <==> ThreadCpu(rules, pkg, thread, cpu)
  {
    var ts := ThreadRules(rules, pkg, thread);
    UnionMembers(ts, cpu);
    forall r ensures r in ts <==> r in rules && ThreadRuleFor(r, pkg, thread) { ThreadRulesMembers(rules, pkg, thread, r); }
  }

  lemma PackageUnion(rules: seq<Rule>, pkg: string, cpu: nat)
    ensures cpu in UnionOf(PackageRules(rules, pkg)) <==> PackageCpu(rules, pkg, cpu)
  {
    var ps := PackageRules(rules, pkg);
    UnionMembers(ps, cpu);
    forall r ensures r in ps <==> r in rules && PackageRuleFor(r, pkg) { PackageRulesMembers(rules, pkg, r); }
  }

  lemma SetEmptyIff(s: set<nat>)
    ensures s != {} <==> exists cpu: nat :: cpu in s
  {
    if forall cpu: nat :: cpu !in s { assert s == {}; }
  }

  // ----- The result -----

  /** The result binds to exactly the CPUs of the matching thread rules. */
  ghost predicate ByThreadRules(a: Option<AffinityResult>, pkg: string, thread: string, cfg: AppConfig) {
    && a.Some? && a.value.isThreadRule && a.value.dir == EnsureDir(a.value.cpus, cfg.topo)
    && forall cpu: nat :: cpu in a.value.cpus <==> ThreadCpu(cfg.rules, pkg, thread, cpu)
  }

  /** The result binds to exactly the CPUs of the package's own rules. */
  ghost predicate ByPackageRules(a: Option<AffinityResult>, pkg: string, cfg: AppConfig) {
    && a.Some? && !a.value.isThreadRule
    && forall cpu: nat :: cpu in a.value.cpus <==> PackageCpu(cfg.rules, pkg, cpu)
  }

  lemma ThreadRulesDecide(pkg: string, thread: string, cfg: AppConfig)
    requires SomeThreadCpu(cfg.rules, pkg, thread)
    ensures ByThreadRules(Affinity(pkg, thread, cfg), pkg, thread, cfg)
  {
    var cpus := UnionOf(ThreadRules(cfg.rules, pkg, thread));
    forall cpu: nat ensures cpu in cpus <==> ThreadCpu(cfg.rules, pkg, thread, cpu) { ThreadUnion(cfg.rules, pkg, thread, cpu); }
    SetEmptyIff(cpus);
    MatchedMeaning(cfg.rules, pkg, thread);
    assert Affinity(pkg, thread, cfg) == Some(AffinityResult(cpus, EnsureDir(cpus, cfg.topo), true));
  }

  lemma PackageRulesDecide(pkg: string, thread: string, cfg: AppConfig)
    requires !Matched(cfg.rules, pkg, thread) && SomePackageCpu(cfg.rules, pkg)
    ensures ByPackageRules(Affinity(pkg, thread, cfg), pkg, cfg)
  {
    var cpus := UnionOf(PackageRules(cfg.rules, pkg));
    forall cpu: nat ensures cpu in cpus <==> PackageCpu(cfg.rules, pkg, cpu) { PackageUnion(cfg.rules, pkg, cpu); }
    SetEmptyIff(cpus);
    MatchedMeaning(cfg.rules, pkg, thread);
  }

  lemma NoRuleDecides(pkg: string, thread: string, cfg: AppConfig)
    requires !SomeThreadCpu(cfg.rules, pkg, thread)
    requires Matched(cfg.rules, pkg, thread) || !SomePackageCpu(cfg.rules, pkg)
    ensures Affinity(pkg, thread, cfg) ==
              if HasPattern(cfg.rules, pkg) then Some(AffinityResult(cfg.topo.present, "", false)) else None
  {
    var ts, ps := UnionOf(ThreadRules(cfg.rules, pkg, thread)), UnionOf(PackageRules(cfg.rules, pkg));
    forall cpu: nat ensures cpu in ts <==> ThreadCpu(cfg.rules, pkg, thread, cpu) { ThreadUnion(cfg.rules, pkg, thread, cpu); }
    forall cpu: nat ensures cpu in ps <==> PackageCpu(cfg.rules, pkg, cpu) { PackageUnion(cfg.rules, pkg, cpu); }
    SetEmptyIff(ts);
    SetEmptyIff(ps);
    MatchedMeaning(cfg.rules, pkg, thread);
    HasThreadRulesIn(cfg.rules, pkg);
  }

  /** The whole of `thread_affinity` over the configured rules. The matching thread rules decide if they
      name a CPU; the package's own rules decide if no thread rule matches and they name a CPU; else
      a thread gets the present CPUs if any thread rule is meant for its package, and else nothing. */
  lemma AffinityMeaning(pkg: string, thread: string, cfg: AppConfig)
    ensures var a := Affinity(pkg, thread, cfg);
            if SomeThreadCpu(cfg.rules, pkg, thread) then ByThreadRules(a, pkg, thread, cfg)
            else if !Matched(cfg.rules, pkg, thread) && SomePackageCpu(cfg.rules, pkg) then ByPackageRules(a, pkg, cfg)
            else if HasPattern(cfg.rules, pkg) then a == Some(AffinityResult(cfg.topo.present, "", false))
            else a == None
  {
    if SomeThreadCpu(cfg.rules, pkg, thread) {
      ThreadRulesDecide(pkg, thread, cfg);
    } else if !Matched(cfg.rules, pkg, thread) && SomePackageCpu(cfg.rules, pkg) {
      PackageRulesDecide(pkg, thread, cfg);
    } else {
      NoRuleDecides(pkg, thread, cfg);
    }
  }

  /** So a thread is bound by a thread rule exactly if a matching one names a CPU. */
  lemma ThreadRuleIff(pkg: string, thread: string, cfg: AppConfig)
    ensures var a := Affinity(pkg, thread, cfg);
            a.Some? && a.value.isThreadRule <==> SomeThreadCpu(cfg.rules, pkg, thread)
  {
    AffinityMeaning(pkg, thread, cfg);
  }

  /** With at most one star in the patterns, a rule matches the threads that its pattern matches as a
      glob. */
  lemma ThreadCpuByGlob(rules: seq<Rule>, pkg: string, thread: string, cpu: nat)
    requires forall r :: r in rules ==> Stars(r.thread) <= 1
    ensures ThreadCpu(rules, pkg, thread, cpu) <==>
              exists r :: r in rules && r.pkg == pkg && r.thread != "" && thread != "" && Matches(r.thread, thread) && cpu in Parse(r.cpus)
  {
    forall r | r in rules && r.thread != "" ensures FnMatch(r.thread, thread) <==> Matches(r.thread, thread) {
      FnMatchIsGlob(r.thread, thread);
    }
  }

  // ----- The directory of a package's rules -----

  lemma {:induction false} SelectsOne(rules: seq<Rule>, n: nat, pkg: string, q: Query, i: nat)
    requires n <= |rules| && i < |rules| && Chosen(rules[i], pkg, q)
    requires forall j :: 0 <= j < n && j != i ==> !Chosen(rules[j], pkg, q)
    ensures Select(rules, n, pkg, q) == if i < n then [rules[i]] else []
  {
    if n > 0 { SelectsOne(rules, n - 1, pkg, q, i); }
  }

  lemma {:induction false} SelectsTwo(rules: seq<Rule>, n: nat, pkg: string, q: Query, i: nat, j: nat)
    requires i < j < n <= |rules| && Chosen(rules[i], pkg, q) && Chosen(rules[j], pkg, q)
    ensures |Select(rules, n, pkg, q)| >= 2
  {
    if j < n - 1 { SelectsTwo(rules, n - 1, pkg, q, i, j); } else { SelectsSome(rules, j, pkg, q, i); }
  }

  lemma {:induction false} SelectsSome(rules: seq<Rule>, n: nat, pkg: string, q: Query, i: nat)
    requires i < n <= |rules| && Chosen(rules[i], pkg, q)
    ensures Select(rules, n, pkg, q) != []
  {
    if i < n - 1 { SelectsSome(rules, n - 1, pkg, q, i); }
  }

  /** The rules of the package decide, and rule `i` is one of them. */
  ghost predicate Decides(cfg: AppConfig, i: nat, pkg: string, thread: string) {
    && i < |cfg.rules| && PackageRuleFor(cfg.rules[i], pkg)
    && !Matched(cfg.rules, pkg, thread) && SomePackageCpu(cfg.rules, pkg)
  }

  lemma DirOfPackageRules(cfg: AppConfig, pkg: string, thread: string)
    requires !Matched(cfg.rules, pkg, thread) && SomePackageCpu(cfg.rules, pkg)
    ensures Affinity(pkg, thread, cfg).Some?
    ensures Affinity(pkg, thread, cfg).value.dir == SharedDir(PackageRules(cfg.rules, pkg), cfg.topo)
  {
    PackageRulesDecide(pkg, thread, cfg);
    var cpus := UnionOf(PackageRules(cfg.rules, pkg));
    var cpu: nat :| PackageCpu(cfg.rules, pkg, cpu);
    PackageUnion(cfg.rules, pkg, cpu);
    MatchedMeaning(cfg.rules, pkg, thread);
  }

  /** A single rule for the package gives its own directory, or, if it has none, that of its CPUs. */
  lemma OnlyRuleDir(cfg: AppConfig, i: nat, pkg: string, thread: string)
    requires Decides(cfg, i, pkg, thread)
    requires forall j :: 0 <= j < |cfg.rules| && j != i ==> !PackageRuleFor(cfg.rules[j], pkg)
    ensures Affinity(pkg, thread, cfg).Some?
    ensures var r := cfg.rules[i];
            Affinity(pkg, thread, cfg).value.dir == if r.cpusetDir != "" then r.cpusetDir else EnsureDir(Parse(r.cpus), cfg.topo)
  {
    DirOfPackageRules(cfg, pkg, thread);
    SelectsOne(cfg.rules, |cfg.rules|, pkg, PackageLevel, i);
  }

  /** Several rules for the package share no directory. */
  lemma SeveralRulesNoDir(cfg: AppConfig, i: nat, j: nat, pkg: string, thread: string)
    requires Decides(cfg, i, pkg, thread) && Decides(cfg, j, pkg, thread) && i < j
    ensures Affinity(pkg, thread, cfg).Some? && Affinity(pkg, thread, cfg).value.dir == ""
  {
    DirOfPackageRules(cfg, pkg, thread);
    SelectsTwo(cfg.rules, |cfg.rules|, pkg, PackageLevel, i, j);
  }

  /** A directory is named for every CPU set if cpusets are on and its creation succeeds, by a string
      that denotes the set; otherwise none is. */
  lemma DirectoryIsNamed(cpus: set<nat>, topo: Topology)
    requires InRange(cpus)
    ensures var dir := EnsureDir(cpus, topo);
            && (topo.cpusetEnabled && RangeString(cpus) !in topo.broken ==> Parse(dir) == cpus)
            && (!topo.cpusetEnabled || RangeString(cpus) in topo.broken ==> dir == "")
  {
    ParsePrinted(cpus);
  }
}
