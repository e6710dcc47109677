/**
 src/rule_match.rs: the affinity of one thread. The live path takes the union of all
 matching thread rules, else of all package rules, else the present mask.
 */
module RuleMatch {
  import opened Strings
  import opened CpuSets
  import opened Ranges
  import opened Glob
  import opened Config

  datatype AffinityResult = AffinityResult(cpus: set<nat>, dir: string, isThreadRule: bool)

  /** Which rules of a package are asked for: its package rules, or those matching a thread name. */
  datatype Query = PackageLevel | ThreadNamed(name: string)

  predicate Chosen(r: Rule, pkg: string, q: Query) {
    && r.pkg == pkg
    && match q
       case PackageLevel => r.thread == ""
       case ThreadNamed(name) => r.thread != "" && FnMatch(r.thread, name)
  }

  function Select(rules: seq<Rule>, n: nat, pkg: string, q: Query): seq<Rule>
    requires n <= |rules|
  {
    if n == 0 then []
    else if Chosen(rules[n - 1], pkg, q) then Select(rules, n - 1, pkg, q) + [rules[n - 1]]
    else Select(rules, n - 1, pkg, q)
  }

  /** The union of the rules' CPU sets. */
  function UnionOf(rules: seq<Rule>): (s: set<nat>)
    ensures InRange(s)
  {
    set r, cpu | r in rules && cpu in Parse(r.cpus) :: cpu
  }

  function ThreadRules(rules: seq<Rule>, pkg: string, thread: string): seq<Rule> {
    if thread == "" then [] else Select(rules, |rules|, pkg, ThreadNamed(thread))
  }

  function PackageRules(rules: seq<Rule>, pkg: string): seq<Rule> {
    Select(rules, |rules|, pkg, PackageLevel)
  }

  /** A single package rule keeps its own directory; several of them have none. */
  function SharedDir(ps: seq<Rule>, topo: Topology): string {
    if |ps| != 1 then ""
    else if ps[0].cpusetDir != "" then ps[0].cpusetDir
    else EnsureDir(Parse(ps[0].cpus), topo)
  }

  /** What `thread_affinity` should return. */
  function Affinity(pkg: string, thread: string, cfg: AppConfig): Option<AffinityResult> {
    var ts, ps := ThreadRules(cfg.rules, pkg, thread), PackageRules(cfg.rules, pkg);
    var cpus := UnionOf(if ts != [] then ts else ps);
    if cpus != {} then
      Some(AffinityResult(cpus, if ts != [] then EnsureDir(cpus, cfg.topo) else SharedDir(ps, cfg.topo), ts != []))
    else if HasThreadRules(cfg.rules, pkg) then
      Some(AffinityResult(cfg.topo.present, "", false))
    else None
  }

  // ----- Selected rules -----

  lemma {:induction false} SelectMembers(rules: seq<Rule>, n: nat, pkg: string, q: Query, r: Rule)
    requires n <= |rules|
    ensures multiset(Select(rules, n, pkg, q))[r] == if Chosen(r, pkg, q) then multiset(rules[..n])[r] else 0
  {
    if n > 0 {
      SelectMembers(rules, n - 1, pkg, q, r);
      assert rules[..n] == rules[..n - 1] + [rules[n - 1]];
    }
  }

  lemma SelectIn(rules: seq<Rule>, pkg: string, q: Query, r: Rule)
    ensures r in Select(rules, |rules|, pkg, q) <==> r in rules && Chosen(r, pkg, q)
  {
    SelectMembers(rules, |rules|, pkg, q, r);
    assert rules[..|rules|] == rules;
    assert r in Select(rules, |rules|, pkg, q) <==> r in multiset(Select(rules, |rules|, pkg, q));
    assert r in rules <==> r in multiset(rules);
  }

  lemma SelectSameMembers(a: seq<Rule>, b: seq<Rule>, pkg: string, q: Query)
    requires forall r: Rule :: r.pkg == pkg ==> (r in a <==> r in b)
    ensures forall r :: r in Select(a, |a|, pkg, q) <==> r in Select(b, |b|, pkg, q)
    ensures Select(a, |a|, pkg, q) == [] <==> Select(b, |b|, pkg, q) == []
  {
    var sa, sb := Select(a, |a|, pkg, q), Select(b, |b|, pkg, q);
    forall r ensures r in sa <==> r in sb {
      SelectIn(a, pkg, q, r);
      SelectIn(b, pkg, q, r);
    }
    if sa != [] { assert sa[0] in sb; }
    if sb != [] { assert sb[0] in sa; }
  }

  lemma SelectPermuted(a: seq<Rule>, b: seq<Rule>, pkg: string, q: Query)
    requires multiset(a) == multiset(b)
    ensures multiset(Select(a, |a|, pkg, q)) == multiset(Select(b, |b|, pkg, q))
  {
    assert a[..|a|] == a && b[..|b|] == b;
    forall r
      ensures multiset(Select(a, |a|, pkg, q))[r] == multiset(Select(b, |b|, pkg, q))[r]
    {
      SelectMembers(a, |a|, pkg, q, r);
      SelectMembers(b, |b|, pkg, q, r);
    }
  }

  lemma UnionSameMembers(a: seq<Rule>, b: seq<Rule>)
    requires forall r :: r in a <==> r in b
    ensures UnionOf(a) == UnionOf(b)
  {
  }

  lemma UnionSnoc(rules: seq<Rule>, r: Rule)
    ensures UnionOf(rules + [r]) == UnionOf(rules) + Parse(r.cpus)
  {
    var all := rules + [r];
    forall cpu ensures cpu in UnionOf(all) <==> cpu in UnionOf(rules) || cpu in Parse(r.cpus) {
      if cpu in Parse(r.cpus) { assert r in all; }
      if cpu in UnionOf(rules) {
        var x :| x in rules && cpu in Parse(x.cpus);
        assert x in all;
      }
    }
  }

  lemma UnionOne(r: Rule)
    ensures UnionOf([r]) == Parse(r.cpus)
  {
    assert UnionOf([]) == {};
    assert [] + [r] == [r];
    UnionSnoc([], r);
  }

  lemma HasThreadRulesIn(rules: seq<Rule>, pkg: string)
    ensures HasThreadRules(rules, pkg) <==> exists r :: r in rules && r.thread != "" && FnMatch(r.pkg, pkg)
  {
  }

  // ----- Independence of rule order and multiplicity -----

  lemma SelectionsSameMembers(pkg: string, thread: string, a: seq<Rule>, b: seq<Rule>)
    requires forall r: Rule :: r.pkg == pkg ==> (r in a <==> r in b)
    ensures ThreadRules(a, pkg, thread) == [] <==> ThreadRules(b, pkg, thread) == []
    ensures UnionOf(ThreadRules(a, pkg, thread)) == UnionOf(ThreadRules(b, pkg, thread))
    ensures UnionOf(PackageRules(a, pkg)) == UnionOf(PackageRules(b, pkg))
  {
    SelectSameMembers(a, b, pkg, ThreadNamed(thread));
    SelectSameMembers(a, b, pkg, PackageLevel);
    UnionSameMembers(ThreadRules(a, pkg, thread), ThreadRules(b, pkg, thread));
    UnionSameMembers(PackageRules(a, pkg), PackageRules(b, pkg));
  }

  lemma HasThreadRulesSame(a: seq<Rule>, b: seq<Rule>, pkg: string)
    requires forall r: Rule :: FnMatch(r.pkg, pkg) ==> (r in a <==> r in b)
    ensures HasThreadRules(a, pkg) == HasThreadRules(b, pkg)
  {
    HasThreadRulesIn(a, pkg);
    HasThreadRulesIn(b, pkg);
  }

  /** The same CPUs and the same kind. */
  predicate SameBinding(x: Option<AffinityResult>, y: Option<AffinityResult>) {
    && (x.Some? <==> y.Some?)
    && (x.Some? ==> x.value.cpus == y.value.cpus && x.value.isThreadRule == y.value.isThreadRule)
  }

  /** Only the rules for the package and those whose pattern matches it count. */
  lemma AffinityIgnoresForeign(pkg: string, thread: string, a: AppConfig, b: AppConfig)
    requires forall r: Rule :: r.pkg == pkg || FnMatch(r.pkg, pkg) ==> (r in a.rules <==> r in b.rules)
    requires a.topo == b.topo
    ensures SameBinding(Affinity(pkg, thread, a), Affinity(pkg, thread, b))
  {
    SelectionsSameMembers(pkg, thread, a.rules, b.rules);
    HasThreadRulesSame(a.rules, b.rules, pkg);
  }

  /** Duplicated or reordered rules change neither the CPUs nor the kind of the binding. */
  lemma AffinityIgnoresDuplicates(pkg: string, thread: string, a: AppConfig, b: AppConfig)
    requires forall r :: r in a.rules <==> r in b.rules
    requires a.topo == b.topo
    ensures SameBinding(Affinity(pkg, thread, a), Affinity(pkg, thread, b))
  {
    AffinityIgnoresForeign(pkg, thread, a, b);
  }

  lemma SingleFromMultiset(a: seq<Rule>, b: seq<Rule>)
    requires multiset(a) == multiset(b) && |a| == 1
    ensures a == b
  {
    assert |multiset(a)| == 1 && |multiset(b)| == |b|;
    assert b[0] in multiset(b);
  }

  lemma SharedDirPermuted(a: seq<Rule>, b: seq<Rule>, topo: Topology)
    requires multiset(a) == multiset(b)
    ensures SharedDir(a, topo) == SharedDir(b, topo)
  {
    assert |multiset(a)| == |a| && |multiset(b)| == |b|;
    if |a| == 1 { SingleFromMultiset(a, b); }
  }

  /** Permuting the rules changes nothing at all, directory included. */
  lemma AffinityIgnoresOrder(pkg: string, thread: string, a: AppConfig, b: AppConfig)
    requires multiset(a.rules) == multiset(b.rules) && a.topo == b.topo
    ensures Affinity(pkg, thread, a) == Affinity(pkg, thread, b)
  {
    forall r ensures r in a.rules <==> r in b.rules {
      assert r in multiset(a.rules) <==> r in multiset(b.rules);
    }
    SelectionsSameMembers(pkg, thread, a.rules, b.rules);
    HasThreadRulesSame(a.rules, b.rules, pkg);
    SelectPermuted(a.rules, b.rules, pkg, PackageLevel);
    SharedDirPermuted(PackageRules(a.rules, pkg), PackageRules(b.rules, pkg), a.topo);
  }

  // ----- Directory and mask agree -----

  /** A directory is empty or names exactly the mask it comes with. */
  predicate NamesMask(dir: string, cpus: set<nat>) {
    dir == "" || (dir == RangeString(cpus) && Parse(dir) == cpus)
  }

  lemma EnsureDirNamesMask(cpus: set<nat>, topo: Topology)
    requires InRange(cpus)
    ensures NamesMask(EnsureDir(cpus, topo), cpus)
  {
    ParsePrinted(cpus);
  }

  lemma SharedDirNamesMask(ps: seq<Rule>, topo: Topology)
    requires DirsAgree(ps)
    ensures NamesMask(SharedDir(ps, topo), UnionOf(ps))
  {
    if |ps| == 1 {
      assert ps == [ps[0]];
      UnionOne(ps[0]);
      assert DirAgrees(ps[0]);
      ParsePrinted(Parse(ps[0].cpus));
    }
  }

  /** Under rules from `load` and `merge`, the directory of a result is empty or parses back to
      the result's mask, and the mask is empty only if the machine has no CPU present. */
  lemma AffinityDirNamesMask(pkg: string, thread: string, cfg: AppConfig)
    requires DirsAgree(cfg.rules)
    ensures Affinity(pkg, thread, cfg).Some? ==>
              var r := Affinity(pkg, thread, cfg).value;
              NamesMask(r.dir, r.cpus) && (cfg.topo.present != {} ==> r.cpus != {})
  {
    var ts, ps := ThreadRules(cfg.rules, pkg, thread), PackageRules(cfg.rules, pkg);
    EnsureDirNamesMask(UnionOf(ts), cfg.topo);
    forall r | r in ps ensures DirAgrees(r) { SelectIn(cfg.rules, pkg, PackageLevel, r); }
    SharedDirNamesMask(ps, cfg.topo);
  }

  lemma MatchesEmptyName(pat: string)
    ensures FnMatch(pat, "") <==> pat == "*"
  {
    var found := Find(pat, '*');
    if found.Some? {
      assert pat == pat[..found.value] + ['*'] + pat[found.value + 1..];
    }
  }

  /** Some thread rule is keyed to the package pattern `*`. */
  ghost predicate StarKeyed(rules: seq<Rule>) {
    exists r :: r in rules && r.thread != "" && r.pkg == "*"
  }

  lemma MatchedPackage(pkg: string, thread: string, rules: seq<Rule>)
    requires ThreadRules(rules, pkg, thread) != []
    ensures HasThreadRules(rules, pkg) <==> pkg != "" || StarKeyed(rules)
  {
    var r := ThreadRules(rules, pkg, thread)[0];
    SelectIn(rules, pkg, ThreadNamed(thread), r);
    HasThreadRulesIn(rules, pkg);
    if pkg == "" {
      forall r | r in rules ensures FnMatch(r.pkg, pkg) <==> r.pkg == "*" { MatchesEmptyName(r.pkg); }
    } else {
      FnMatchReflexive(pkg);
    }
  }

  /** A matched thread rule without a valid CPU falls to the present mask, and to None only for the
      empty package name, and then only if no thread rule is keyed to `*`. */
  lemma MatchedRuleNoneIff(pkg: string, thread: string, cfg: AppConfig)
    requires ThreadRules(cfg.rules, pkg, thread) != []
    ensures var cpus, a := UnionOf(ThreadRules(cfg.rules, pkg, thread)), Affinity(pkg, thread, cfg);
            && (a == None <==> cpus == {} && pkg == "" && !StarKeyed(cfg.rules))
            && (a.Some? && cpus == {} ==> a == Some(AffinityResult(cfg.topo.present, "", false)))
  {
    MatchedPackage(pkg, thread, cfg.rules);
  }

  /** Such a configuration, from a file with an entry for the empty package. No caller asks for this:
      with the flag of the package the thread's name is not passed on (`MatchedRuleBinds`). */
  lemma EmptyPackageIsNone(topo: Topology)
    ensures var cfg := Loaded([OneThreadEntry("")], 1, topo);
            ThreadRules(cfg.rules, "", "t") != [] && Affinity("", "t", cfg) == None
  {
    var cfg := Loaded([OneThreadEntry("")], 1, topo);
    OneThreadLoaded("", topo);
    FnMatchReflexive("t");
    SelectIn(cfg.rules, "", ThreadNamed("t"), Rule("", "t", "", ""));
    var ts := ThreadRules(cfg.rules, "", "t");
    forall q | q in ts ensures Parse(q.cpus) == {} {
      SelectIn(cfg.rules, "", ThreadNamed("t"), q);
      ParseEmpty();
    }
    MatchedRuleNoneIff("", "t", cfg);
  }

  // ----- The loops -----

  /** `cpus.or(&cpuset_from_rule(rule))` */
  method OrRule(cpus: CpuSet, rule: Rule, ghost done: seq<Rule>)
    requires cpus.Valid() && cpus.View() == UnionOf(done)
    modifies cpus.bits
    ensures cpus.Valid() && cpus.View() == UnionOf(done + [rule])
  {
    var s := FromRange(rule.cpus);
    cpus.Union(s);
    UnionSnoc(done, rule);
  }

  /** The body of the loop over thread rules. */
  method VisitThreadRule(cpus: CpuSet, rules: seq<Rule>, i: nat, pkg: string, thread: string, matched: bool)
    returns (matched': bool)
    requires i < |rules| && cpus.Valid()
    requires cpus.View() == UnionOf(Select(rules, i, pkg, ThreadNamed(thread)))
    requires matched <==> Select(rules, i, pkg, ThreadNamed(thread)) != []
    modifies cpus.bits
    ensures cpus.Valid() && cpus.View() == UnionOf(Select(rules, i + 1, pkg, ThreadNamed(thread)))
    ensures matched' <==> Select(rules, i + 1, pkg, ThreadNamed(thread)) != []
  {
    var rule := rules[i];
    matched' := matched;
    if rule.pkg != pkg || rule.thread == "" { return; }
    if FnMatch(rule.thread, thread) {
      OrRule(cpus, rule, Select(rules, i, pkg, ThreadNamed(thread)));
      matched' := true;
    }
  }

  /** The loop over thread rules. */
  method UnionThreadRules(cpus: CpuSet, rules: seq<Rule>, pkg: string, thread: string) returns (matched: bool)
    requires cpus.Valid() && cpus.View() == {} && thread != ""
    modifies cpus.bits
    ensures cpus.Valid() && cpus.View() == UnionOf(ThreadRules(rules, pkg, thread))
    ensures matched <==> ThreadRules(rules, pkg, thread) != []
  {
    matched := false;
    for i := 0 to |rules|
      invariant cpus.Valid() && cpus.View() == UnionOf(Select(rules, i, pkg, ThreadNamed(thread)))
      invariant matched <==> Select(rules, i, pkg, ThreadNamed(thread)) != []
    {
      matched := VisitThreadRule(cpus, rules, i, pkg, thread, matched);
    }
  }

  lemma SharedDirSnoc(done: seq<Rule>, r: Rule, topo: Topology)
    ensures SharedDir(done + [r], topo) ==
              if done != [] then ""
              else if r.cpusetDir != "" then r.cpusetDir
              else EnsureDir(UnionOf(done + [r]), topo)
  {
    if done == [] {
      assert done + [r] == [r];
      UnionOne(r);
    }
  }

  /** The body of the loop over package rules; the directory is kept for the first rule and
      cleared by a second. */
  method VisitPackageRule(cpus: CpuSet, rules: seq<Rule>, i: nat, pkg: string, topo: Topology, seen: bool, dir: string)
    returns (seen': bool, dir': string)
    requires i < |rules| && cpus.Valid()
    requires cpus.View() == UnionOf(Select(rules, i, pkg, PackageLevel))
    requires seen <==> Select(rules, i, pkg, PackageLevel) != []
    requires dir == SharedDir(Select(rules, i, pkg, PackageLevel), topo)
    modifies cpus.bits
    ensures cpus.Valid() && cpus.View() == UnionOf(Select(rules, i + 1, pkg, PackageLevel))
    ensures seen' <==> Select(rules, i + 1, pkg, PackageLevel) != []
    ensures dir' == SharedDir(Select(rules, i + 1, pkg, PackageLevel), topo)
  {
    var rule := rules[i];
    seen', dir' := seen, dir;
    if rule.pkg != pkg || rule.thread != "" { return; }
    SharedDirSnoc(Select(rules, i, pkg, PackageLevel), rule, topo);
    OrRule(cpus, rule, Select(rules, i, pkg, PackageLevel));
    if !seen {
      if rule.cpusetDir == "" {
        dir' := EnsureCpusetDir(cpus, topo);
      } else {
        dir' := rule.cpusetDir;
      }
      seen' := true;
    } else {
      dir' := "";
    }
  }

  /** The loop over package rules. */
  method UnionPackageRules(cpus: CpuSet, rules: seq<Rule>, pkg: string, topo: Topology) returns (dir: string)
    requires cpus.Valid() && cpus.View() == {}
    modifies cpus.bits
    ensures cpus.Valid() && cpus.View() == UnionOf(PackageRules(rules, pkg))
    ensures dir == SharedDir(PackageRules(rules, pkg), topo)
  {
    dir := "";
    var seen := false;
    for i := 0 to |rules|
      invariant cpus.Valid() && cpus.View() == UnionOf(Select(rules, i, pkg, PackageLevel))
      invariant seen <==> Select(rules, i, pkg, PackageLevel) != []
      invariant dir == SharedDir(Select(rules, i, pkg, PackageLevel), topo)
    {
      seen, dir := VisitPackageRule(cpus, rules, i, pkg, topo, seen, dir);
    }
  }

  method EnsureCpusetDir(cpus: CpuSet, topo: Topology) returns (dir: string)
    requires cpus.Valid()
    ensures dir == EnsureDir(cpus.View(), topo)
  {
    if !topo.cpusetEnabled {
      return "";
    }
    var name := ToRangeString(cpus);
    dir := if name !in topo.broken then name else "";
  }

  method ThreadAffinity(pkg: string, thread: string, cfg: AppConfig) returns (r: Option<AffinityResult>)
    ensures r == Affinity(pkg, thread, cfg)
  {
    var cpus := new CpuSet();
    var dir, matched := "", false;
    if thread != "" {
      matched := UnionThreadRules(cpus, cfg.rules, pkg, thread);
      if matched {
        dir := EnsureCpusetDir(cpus, cfg.topo);
      }
    }
    if !matched {
      dir := UnionPackageRules(cpus, cfg.rules, pkg, cfg.topo);
    }
    var count := cpus.Count();
    if count == 0 {
      if HasThreadRules(cfg.rules, pkg) {
        return Some(AffinityResult(cfg.topo.present, "", false));
      }
      return None;
    }
    r := Some(AffinityResult(cpus.View(), dir, matched));
  }
}
