/**
 src/config.rs: rules, the configuration, and how `load` builds rules from the entries of
 the configuration file. JSON text is left to the parser crate; an entry is what the code
 reads from one member of the rules array.
 */
module Config {
  import opened Strings
  import opened Ranges
  import opened Glob

  /** A member of a JSON array that is expected to hold strings. */
  datatype Json = Str(text: string) | NotStr

  /** `other` is None if it is not a string, `comm` is None if it is not an object. */
  datatype Entry = Entry(packages: seq<Json>, other: Option<string>, comm: Option<seq<(string, seq<Json>)>>)

  datatype Rule = Rule(pkg: string, thread: string, cpus: string, cpusetDir: string)

  /** `broken` holds the directory names whose creation under the base cpuset fails. */
  datatype Topology = Topology(present: set<nat>, cpusetEnabled: bool, broken: set<string>)

  /** `pkgs` lists the package hash set in its iteration order. */
  datatype AppConfig = AppConfig(rules: seq<Rule>, pkgs: seq<string>, wild: seq<string>, topo: Topology)

  predicate HasThreadRules(rules: seq<Rule>, pkg: string) {
    exists i | 0 <= i < |rules| :: rules[i].thread != "" && FnMatch(rules[i].pkg, pkg)
  }

  /** `ensure_cpuset_dir`: the name of the directory for a set, empty if there is none. */
  function EnsureDir(cpus: set<nat>, topo: Topology): string {
    if topo.cpusetEnabled && RangeString(cpus) !in topo.broken then RangeString(cpus) else ""
  }

  // ----- Rules of one entry, shared by `load` and the cache's `merge` -----

  /** `filter_map(as_str)` */
  function Texts(js: seq<Json>): seq<string> {
    if js == [] then []
    else (if js[0].Str? then [js[0].text] else []) + Texts(js[1..])
  }

  /** The thread rules of the first `n` names of one group. */
  function NameRules(pkg: string, cpus: string, names: seq<Json>, n: nat): seq<Rule>
    requires n <= |names|
  {
    if n == 0 then []
    else NameRules(pkg, cpus, names, n - 1) + (if names[n - 1].Str? then [Rule(pkg, names[n - 1].text, cpus, "")] else [])
  }

  function GroupRules(pkg: string, groups: seq<(string, seq<Json>)>, n: nat): seq<Rule>
    requires n <= |groups|
  {
    if n == 0 then []
    else GroupRules(pkg, groups, n - 1) + NameRules(pkg, groups[n - 1].0, groups[n - 1].1, |groups[n - 1].1|)
  }

  function Groups(e: Entry): seq<(string, seq<Json>)> { e.comm.GetOr([]) }

  function OtherCpus(e: Entry): string { e.other.GetOr("0") }

  /** The rules of an entry, its package rule carrying the directory `dir`. */
  function EntryRules(e: Entry, dir: string): seq<Rule>
    requires Texts(e.packages) != []
  {
    var pkg := Texts(e.packages)[0];
    [Rule(pkg, "", OtherCpus(e), dir)] + GroupRules(pkg, Groups(e), |Groups(e)|)
  }

  lemma {:induction false} NameRuleSource(pkg: string, cpus: string, names: seq<Json>, n: nat, r: Rule)
    requires n <= |names|
    ensures r in NameRules(pkg, cpus, names, n) <==>
              r == Rule(pkg, r.thread, cpus, "") && Str(r.thread) in names[..n]
  {
    if n > 0 {
      NameRuleSource(pkg, cpus, names, n - 1, r);
      assert names[..n] == names[..n - 1] + [names[n - 1]];
    }
  }

  /** Group `k` of an entry gives the thread rule `r`. */
  predicate GroupGives(pkg: string, groups: seq<(string, seq<Json>)>, k: nat, r: Rule) {
    k < |groups| && r == Rule(pkg, r.thread, groups[k].0, "") && Str(r.thread) in groups[k].1
  }

  lemma {:induction false} GroupRuleSource(pkg: string, groups: seq<(string, seq<Json>)>, n: nat, r: Rule)
    requires n <= |groups|
    ensures r in GroupRules(pkg, groups, n) <==> exists k :: 0 <= k < n && GroupGives(pkg, groups, k, r)
  {
    if n > 0 {
      GroupRuleSource(pkg, groups, n - 1, r);
      var names := groups[n - 1].1;
      NameRuleSource(pkg, groups[n - 1].0, names, |names|, r);
      assert names[..|names|] == names;
      assert r in NameRules(pkg, groups[n - 1].0, names, |names|) <==> GroupGives(pkg, groups, n - 1, r);
    }
  }

  /** The rules of an entry, stated without the loops: one package rule, and one thread rule
      for each name of each group. All are keyed to the entry's first package. */
  lemma EntryRuleSource(e: Entry, dir: string, r: Rule)
    requires Texts(e.packages) != []
    ensures var pkg := Texts(e.packages)[0];
            r in EntryRules(e, dir) <==>
              || r == Rule(pkg, "", OtherCpus(e), dir)
              || exists k :: 0 <= k < |Groups(e)| && GroupGives(pkg, Groups(e), k, r)
  {
    var pkg := Texts(e.packages)[0];
    GroupRuleSource(pkg, Groups(e), |Groups(e)|, r);
    assert r in EntryRules(e, dir) <==> r == Rule(pkg, "", OtherCpus(e), dir) || r in GroupRules(pkg, Groups(e), |Groups(e)|);
  }

  // ----- What `load` builds -----

  /** Hash-set insertion of the first `n` names. */
  function Inserted(pkgs: seq<string>, names: seq<string>, n: nat): (r: seq<string>)
    requires n <= |names|
    ensures forall p :: p in r <==> p in pkgs || p in names[..n]
    ensures Distinct(pkgs) ==> Distinct(r)
  {
    if n == 0 then pkgs
    else
      var r := Inserted(pkgs, names, n - 1);
      assert names[..n] == names[..n - 1] + [names[n - 1]];
      if names[n - 1] in r then r else r + [names[n - 1]]
  }

  ghost predicate Distinct(names: seq<string>) {
    forall i, j :: 0 <= i < j < |names| ==> names[i] != names[j]
  }

  predicate IsWild(pkg: string) { '*' in pkg || '?' in pkg }

  function Wild(names: seq<string>, n: nat): seq<string>
    requires n <= |names|
  {
    if n == 0 then [] else Wild(names, n - 1) + (if IsWild(names[n - 1]) then [names[n - 1]] else [])
  }

  /** One entry of the rules array; without package names it is skipped. */
  function LoadStep(cfg: AppConfig, e: Entry): AppConfig {
    var pl := Texts(e.packages);
    if pl == [] then cfg
    else cfg.(rules := cfg.rules + EntryRules(e, EnsureDir(Parse(OtherCpus(e)), cfg.topo)),
              pkgs := Inserted(cfg.pkgs, pl, |pl|),
              wild := cfg.wild + Wild(pl, |pl|))
  }

  /** The configuration after the first `n` entries. */
  function Loaded(entries: seq<Entry>, n: nat, topo: Topology): (cfg: AppConfig)
    requires n <= |entries|
    ensures cfg.topo == topo
  {
    if n == 0 then AppConfig([], [], [], topo) else LoadStep(Loaded(entries, n - 1, topo), entries[n - 1])
  }

  // ----- What the loaded configuration holds, without the loops -----

  lemma {:induction false} TextsMembers(js: seq<Json>, text: string)
    ensures text in Texts(js) <==> Str(text) in js
  {
    if js != [] {
      assert js == [js[0]] + js[1..];
      TextsMembers(js[1..], text);
    }
  }

  lemma {:induction false} WildMembers(names: seq<string>, n: nat, w: string)
    requires n <= |names|
    ensures w in Wild(names, n) <==> w in names[..n] && IsWild(w)
  {
    if n > 0 {
      WildMembers(names, n - 1, w);
      assert names[..n] == names[..n - 1] + [names[n - 1]];
    }
  }

  /** Entry `e` names the package. */
  predicate Names(e: Entry, pkg: string) { Str(pkg) in e.packages }

  /** Entry `e` gives the rule. */
  predicate EntryGives(e: Entry, topo: Topology, r: Rule) {
    Texts(e.packages) != [] && r in EntryRules(e, EnsureDir(Parse(OtherCpus(e)), topo))
  }

  lemma LoadStepMeaning(cfg: AppConfig, e: Entry, r: Rule, pkg: string)
    ensures var cfg' := LoadStep(cfg, e);
            && (r in cfg'.rules <==> r in cfg.rules || EntryGives(e, cfg.topo, r))
            && (pkg in cfg'.pkgs <==> pkg in cfg.pkgs || Names(e, pkg))
            && (pkg in cfg'.wild <==> pkg in cfg.wild || (Names(e, pkg) && IsWild(pkg)))
  {
    var pl := Texts(e.packages);
    TextsMembers(e.packages, pkg);
    assert pl[..|pl|] == pl;
    WildMembers(pl, |pl|, pkg);
  }

  predicate SomeGives(entries: seq<Entry>, n: nat, topo: Topology, r: Rule)
    requires n <= |entries|
  {
    exists i | 0 <= i < n :: EntryGives(entries[i], topo, r)
  }

  predicate SomeNames(entries: seq<Entry>, n: nat, pkg: string)
    requires n <= |entries|
  {
    exists i | 0 <= i < n :: Names(entries[i], pkg)
  }

  lemma SomeNext(entries: seq<Entry>, n: nat, topo: Topology, r: Rule, pkg: string)
    requires n < |entries|
    ensures SomeGives(entries, n + 1, topo, r) <==> SomeGives(entries, n, topo, r) || EntryGives(entries[n], topo, r)
    ensures SomeNames(entries, n + 1, pkg) <==> SomeNames(entries, n, pkg) || Names(entries[n], pkg)
  {
  }

  /** The rules are exactly those of the first `n` entries, the package set all the packages they
      name, and the wildcard list those with `*` or `?`. */
  predicate Describes(cfg: AppConfig, entries: seq<Entry>, n: nat, r: Rule, pkg: string)
    requires n <= |entries|
  {
    && (r in cfg.rules <==> SomeGives(entries, n, cfg.topo, r))
    && (pkg in cfg.pkgs <==> SomeNames(entries, n, pkg))
    && (pkg in cfg.wild <==> IsWild(pkg) && SomeNames(entries, n, pkg))
  }

  lemma LoadStepDescribes(cfg: AppConfig, entries: seq<Entry>, n: nat, r: Rule, pkg: string)
    requires n < |entries| && Describes(cfg, entries, n, r, pkg)
    ensures Describes(LoadStep(cfg, entries[n]), entries, n + 1, r, pkg)
  {
    LoadStepMeaning(cfg, entries[n], r, pkg);
    SomeNext(entries, n, cfg.topo, r, pkg);
  }

  /** What the empty configuration has and every entry keeps, `load` ends with. */
  lemma {:induction false} LoadInduction(entries: seq<Entry>, n: nat, topo: Topology, P: (AppConfig, nat) -> bool)
    requires n <= |entries| && P(AppConfig([], [], [], topo), 0)
    requires forall cfg, i :: 0 <= i < n && P(cfg, i) ==> P(LoadStep(cfg, entries[i]), i + 1)
    ensures P(Loaded(entries, n, topo), n)
  {
    if n > 0 { LoadInduction(entries, n - 1, topo, P); }
  }

  /** What `load` builds, without its loops. */
  lemma LoadedMeaning(entries: seq<Entry>, n: nat, topo: Topology, r: Rule, pkg: string)
    requires n <= |entries|
    ensures Describes(Loaded(entries, n, topo), entries, n, r, pkg)
  {
    var P := (cfg: AppConfig, i: nat) => i <= |entries| && Describes(cfg, entries, i, r, pkg);
    forall cfg, i: nat | i < n && P(cfg, i) ensures P(LoadStep(cfg, entries[i]), i + 1) {
      LoadStepDescribes(cfg, entries, i, r, pkg);
    }
    LoadInduction(entries, n, topo, P);
  }

  /** An entry with one package, no CPUs of its own, and one thread rule without CPUs. */
  function OneThreadEntry(pkg: string): Entry {
    Entry([Str(pkg)], None, Some([("", [Str("t")])]))
  }

  lemma OneThreadRules(pkg: string, dir: string, r: Rule)
    ensures var e := OneThreadEntry(pkg);
            && Texts(e.packages) == [pkg]
            && (r in EntryRules(e, dir) <==> r == Rule(pkg, "", "0", dir) || r == Rule(pkg, "t", "", ""))
  {
    var e := OneThreadEntry(pkg);
    assert Texts([Str(pkg)]) == [pkg] + Texts([]);
    EntryRuleSource(e, dir, r);
    assert GroupGives(pkg, Groups(e), 0, r) <==> r == Rule(pkg, "t", "", "");
  }

  /** What is loaded from it alone: its package, its thread rule, and one package rule. */
  lemma OneThreadLoaded(pkg: string, topo: Topology)
    ensures var cfg := Loaded([OneThreadEntry(pkg)], 1, topo);
            && cfg.pkgs == [pkg] && Rule(pkg, "t", "", "") in cfg.rules
            && forall r :: r in cfg.rules && r.thread != "" ==> r == Rule(pkg, "t", "", "")
  {
    var e, none := OneThreadEntry(pkg), AppConfig([], [], [], topo);
    var dir := EnsureDir(Parse(OtherCpus(e)), topo);
    assert Loaded([e], 0, topo) == none;
    OneThreadRules(pkg, dir, Rule(pkg, "t", "", ""));
    assert Inserted([], [pkg], 0) == [];
    assert LoadStep(none, e).pkgs == Inserted([], [pkg], 1) == [pkg];
    assert LoadStep(none, e).rules == EntryRules(e, dir);
    forall r | r in EntryRules(e, dir) && r.thread != "" ensures r == Rule(pkg, "t", "", "") { OneThreadRules(pkg, dir, r); }
  }

  /** A rule's directory is empty or the printed form of the rule's own CPU set. */
  predicate DirAgrees(r: Rule) {
    r.cpusetDir == "" || r.cpusetDir == RangeString(Parse(r.cpus))
  }

  predicate DirsAgree(rules: seq<Rule>) {
    forall r | r in rules :: DirAgrees(r)
  }

  lemma EntryDirsAgree(e: Entry, dir: string)
    requires Texts(e.packages) != []
    requires dir == "" || dir == RangeString(Parse(OtherCpus(e)))
    ensures DirsAgree(EntryRules(e, dir))
  {
    forall r | r in EntryRules(e, dir) ensures DirAgrees(r) {
      EntryRuleSource(e, dir, r);
    }
  }

  lemma DirsAgreeAppend(a: seq<Rule>, b: seq<Rule>)
    requires DirsAgree(a) && DirsAgree(b)
    ensures DirsAgree(a + b)
  {
  }

  lemma LoadStepDirsAgree(cfg: AppConfig, e: Entry)
    requires DirsAgree(cfg.rules)
    ensures DirsAgree(LoadStep(cfg, e).rules)
  {
    if Texts(e.packages) != [] {
      EntryDirsAgree(e, EnsureDir(Parse(OtherCpus(e)), cfg.topo));
    }
  }

  /** Every rule `load` builds has a directory that agrees with its CPU string. */
  lemma {:induction false} LoadedDirsAgree(entries: seq<Entry>, n: nat, topo: Topology)
    requires n <= |entries|
    ensures DirsAgree(Loaded(entries, n, topo).rules)
  {
    if n > 0 {
      LoadedDirsAgree(entries, n - 1, topo);
      LoadStepDirsAgree(Loaded(entries, n - 1, topo), entries[n - 1]);
    }
  }

  // ----- The loops -----

  /** `for nv in names.members()` */
  method PushNames(rules: seq<Rule>, pkg: string, cpus: string, names: seq<Json>) returns (rules': seq<Rule>)
    ensures rules' == rules + NameRules(pkg, cpus, names, |names|)
  {
    rules' := rules;
    for i := 0 to |names|
      invariant rules' == rules + NameRules(pkg, cpus, names, i)
    {
      if names[i].Str? {
        rules' := rules' + [Rule(pkg, names[i].text, cpus, "")];
      }
    }
  }

  /** The rules one entry pushes, for `load` and for `merge`. */
  method PushEntry(rules: seq<Rule>, pkg: string, e: Entry, dir: string) returns (rules': seq<Rule>)
    requires Texts(e.packages) != [] && pkg == Texts(e.packages)[0]
    ensures rules' == rules + EntryRules(e, dir)
  {
    rules' := rules + [Rule(pkg, "", OtherCpus(e), dir)];
    if e.comm.Some? {
      var groups := e.comm.value;
      for k := 0 to |groups|
        invariant rules' == rules + [Rule(pkg, "", OtherCpus(e), dir)] + GroupRules(pkg, groups, k)
      {
        rules' := PushNames(rules', pkg, groups[k].0, groups[k].1);
      }
    }
  }

  /** `for pk in &pl` */
  method PushPackages(pkgs: seq<string>, wild: seq<string>, pl: seq<string>) returns (pkgs': seq<string>, wild': seq<string>)
    ensures pkgs' == Inserted(pkgs, pl, |pl|) && wild' == wild + Wild(pl, |pl|)
  {
    pkgs', wild' := pkgs, wild;
    for j := 0 to |pl|
      invariant pkgs' == Inserted(pkgs, pl, j) && wild' == wild + Wild(pl, j)
    {
      if pl[j] !in pkgs' {
        pkgs' := pkgs' + [pl[j]];
      }
      if IsWild(pl[j]) {
        wild' := wild' + [pl[j]];
      }
    }
  }

  /** The directory `load` prepares for a package rule, from the rule's own CPU string. */
  method PackageDir(cpus: string, topo: Topology) returns (dir: string)
    ensures dir == EnsureDir(Parse(cpus), topo)
  {
    var otherSet := FromRange(cpus);
    var name := ToRangeString(otherSet);
    dir := if topo.cpusetEnabled && name !in topo.broken then name else "";
  }

  method LoadEntry(cfg: AppConfig, e: Entry) returns (cfg': AppConfig)
    ensures cfg' == LoadStep(cfg, e)
  {
    var pl := Texts(e.packages);
    if pl == [] {
      return cfg;
    }
    var pkgs, wild := PushPackages(cfg.pkgs, cfg.wild, pl);
    var dir := PackageDir(OtherCpus(e), cfg.topo);
    var rules := PushEntry(cfg.rules, pl[0], e, dir);
    cfg' := AppConfig(rules, pkgs, wild, cfg.topo);
  }

  method Load(entries: seq<Entry>, topo: Topology) returns (cfg: AppConfig)
    ensures cfg == Loaded(entries, |entries|, topo)
  {
    cfg := AppConfig([], [], [], topo);
    for i := 0 to |entries|
      invariant cfg == Loaded(entries, i, topo)
    {
      cfg := LoadEntry(cfg, entries[i]);
    }
  }
}
