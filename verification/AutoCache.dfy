/**
 src/config.rs, module `cache`: the automatic assignment cache. `save` files a package's
 threads under the big, middle or little cluster by estimated load; `merge` turns the
 cached entries into rules.
 */
module AutoCache {
  import opened Strings
  import opened CpuSets
  import opened Ranges
  import opened Clusters
  import opened Glob
  import opened Config
  import opened RuleMatch

  /** One scanned process: its package name and its threads' names. */
  datatype Proc = Proc(pid: int, name: string, threads: seq<string>)

  /** The arguments of one `save`. */
  datatype SaveCall = SaveCall(pkg: string, all: seq<Proc>, big: string, mid: string, little: string)

  predicate ContainsAny(name: string, words: seq<string>) {
    exists i | 0 <= i < |words| :: Contains(name, words[i])
  }

  function EstLoad(name: string): int {
    if ContainsAny(name, ["Render", "Gfx", "GL", "Vulkan"]) then 10
    else if ContainsAny(name, ["Decode", "Codec", "Video", "Audio"]) then 8
    else if ContainsAny(name, ["Main", "Unity", "Game", "Native", "RHI", "TaskGraph"]) then 9
    else if ContainsAny(name, ["Worker", "Thread", "Job"]) then 5
    else if ContainsAny(name, ["Io", "Network", "Http"]) then 3
    else if ContainsAny(name, ["Background", "Idle", "Pool"]) then 1
    else 5
  }

  predicate IsBlacklisted(pkg: string) {
    || EndsWith(pkg, ":widgetProvider") || EndsWith(pkg, ":searchDataService")
    || EndsWith(pkg, ":coreService") || EndsWith(pkg, ":cognitionService")
    || EndsWith(pkg, ":bert") || EndsWith(pkg, ":bertAlgo")
    || EndsWith(pkg, ":privacy") || EndsWith(pkg, ":kit7")
    || EndsWith(pkg, ":services") || EndsWith(pkg, ":daemon")
    || pkg == "android.process.media" || pkg == "android.process.acore"
    || "com.qualcomm." <= pkg || ".qti" <= pkg
    || ".qms" <= pkg || ".cacert" <= pkg
    || ".dataservices" <= pkg
  }

  // ----- The entry `save` writes -----

  datatype Cluster = Big | Mid | Little

  function ClusterFor(name: string, hasMid: bool): Cluster {
    if EstLoad(name) >= 8 then Big
    else if EstLoad(name) >= 5 && hasMid then Mid
    else Little
  }

  /** The threads of the first `n` processes that carry the package's name. */
  function ThreadsOf(all: seq<Proc>, n: nat, pkg: string): seq<string>
    requires n <= |all|
  {
    if n == 0 then []
    else if all[n - 1].name == pkg then ThreadsOf(all, n - 1, pkg) + all[n - 1].threads
    else ThreadsOf(all, n - 1, pkg)
  }

  function InCluster(names: seq<string>, c: Cluster, hasMid: bool): seq<string> {
    if names == [] then []
    else
      var init, name := names[..|names| - 1], names[|names| - 1];
      if ClusterFor(name, hasMid) == c then InCluster(init, c, hasMid) + [name] else InCluster(init, c, hasMid)
  }

  function Strs(names: seq<string>): (js: seq<Json>)
    ensures |js| == |names| && forall i :: 0 <= i < |names| ==> js[i] == Str(names[i])
  {
    seq(|names|, i requires 0 <= i < |names| => Str(names[i]))
  }

  /** The ordered map from CPU string to thread names. */
  function CommGroups(big: string, bigNames: seq<string>, mid: string, midNames: seq<string>): seq<(string, seq<Json>)> {
    if bigNames == [] && midNames == [] then []
    else if midNames == [] then [(big, Strs(bigNames))]
    else if bigNames == [] then [(mid, Strs(midNames))]
    else if big == mid then [(big, Strs(bigNames + midNames))]
    else if Less(big, mid) then [(big, Strs(bigNames)), (mid, Strs(midNames))]
    else [(mid, Strs(midNames)), (big, Strs(bigNames))]
  }

  function EntryOf(pkg: string, big: string, bigNames: seq<string>, mid: string, midNames: seq<string>, little: string): Entry {
    Entry([Str(pkg)], Some(little),
          if bigNames == [] && midNames == [] then None else Some(CommGroups(big, bigNames, mid, midNames)))
  }

  function NewEntry(c: SaveCall): Entry {
    var names := ThreadsOf(c.all, |c.all|, c.pkg);
    EntryOf(c.pkg, c.big, InCluster(names, Big, c.mid != ""),
            c.mid, InCluster(names, Mid, c.mid != ""), c.little)
  }

  // ----- The file -----

  /** `e["packages"][0].as_str()`: the name `save` deduplicates by. */
  function SaveKey(e: Entry): Option<string> {
    if e.packages != [] && e.packages[0].Str? then Some(e.packages[0].text) else None
  }

  predicate SaveKeyIn(e: Entry, pkgs: set<string>) {
    SaveKey(e).Some? && SaveKey(e).value in pkgs
  }

  function Without(file: seq<Entry>, pkgs: set<string>): seq<Entry> {
    if file == [] then []
    else
      var init, e := file[..|file| - 1], file[|file| - 1];
      if SaveKeyIn(e, pkgs) then Without(init, pkgs) else Without(init, pkgs) + [e]
  }

  /** Drops the package's old entries and appends the new one. */
  function Put(file: seq<Entry>, e: Entry): seq<Entry>
    requires SaveKey(e).Some?
  {
    Without(file, {SaveKey(e).value}) + [e]
  }

  function Saved(file: seq<Entry>, c: SaveCall): seq<Entry> {
    NewEntryKey(c);
    if IsBlacklisted(c.pkg) then file else Put(file, NewEntry(c))
  }

  function SavedAll(file: seq<Entry>, calls: seq<SaveCall>): seq<Entry>
    decreases |calls|
  {
    if calls == [] then file else SavedAll(Saved(file, calls[0]), calls[1..])
  }

  lemma NewEntryKey(c: SaveCall)
    ensures Keyed(NewEntry(c)) && MergeKey(NewEntry(c)) == c.pkg
    ensures SaveKey(NewEntry(c)) == Some(c.pkg)
  {
    assert Texts([Str(c.pkg)]) == [c.pkg] + Texts([]);
  }

  /** The entries a list of saves writes; blacklisted packages write none. */
  function Written(calls: seq<SaveCall>): (es: seq<Entry>)
    ensures AllKeyed(es)
  {
    if calls == [] then []
    else if IsBlacklisted(calls[0].pkg) then Written(calls[1..])
    else [NewEntry(calls[0])] + Written(calls[1..])
  }

  predicate AllKeyed(es: seq<Entry>) {
    forall i | 0 <= i < |es| :: SaveKey(es[i]).Some?
  }

  function KeysOf(es: seq<Entry>): set<string> {
    set i | 0 <= i < |es| && SaveKey(es[i]).Some? :: SaveKey(es[i]).value
  }

  /** The entries no later entry with the same key replaces, in order. */
  function LastOfEach(es: seq<Entry>): seq<Entry> {
    if es == [] then []
    else if SaveKeyIn(es[0], KeysOf(es[1..])) then LastOfEach(es[1..])
    else [es[0]] + LastOfEach(es[1..])
  }

  function PutAll(file: seq<Entry>, es: seq<Entry>): seq<Entry>
    requires AllKeyed(es)
    decreases |es|
  {
    if es == [] then file else PutAll(Put(file, es[0]), es[1..])
  }

  lemma {:induction false} WithoutAppend(a: seq<Entry>, b: seq<Entry>, pkgs: set<string>)
    ensures Without(a + b, pkgs) == Without(a, pkgs) + Without(b, pkgs)
  {
    if b == [] {
      assert a + b == a;
    } else {
      assert (a + b)[..|a + b| - 1] == a + b[..|b| - 1];
      WithoutAppend(a, b[..|b| - 1], pkgs);
    }
  }

  lemma WithoutOne(e: Entry, pkgs: set<string>)
    ensures Without([e], pkgs) == if SaveKeyIn(e, pkgs) then [] else [e]
  {
    assert [e][..0] == [];
    assert Without([], pkgs) == [];
  }

  lemma {:induction false} WithoutTwice(file: seq<Entry>, a: set<string>, b: set<string>)
    ensures Without(Without(file, a), b) == Without(file, a + b)
  {
    if file != [] {
      var init, e := file[..|file| - 1], file[|file| - 1];
      WithoutTwice(init, a, b);
      assert SaveKeyIn(e, a + b) <==> SaveKeyIn(e, a) || SaveKeyIn(e, b);
      if !SaveKeyIn(e, a) {
        assert Without(file, a)[..|Without(file, a)| - 1] == Without(init, a);
      }
    }
  }

  lemma {:induction false} WithoutNone(file: seq<Entry>)
    ensures Without(file, {}) == file
  {
    if file != [] { WithoutNone(file[..|file| - 1]); }
  }

  lemma PutThenWithout(file: seq<Entry>, e: Entry, pkgs: set<string>)
    requires SaveKey(e).Some?
    ensures Without(Put(file, e), pkgs)
         == Without(file, {SaveKey(e).value} + pkgs) + (if SaveKeyIn(e, pkgs) then [] else [e])
  {
    WithoutAppend(Without(file, {SaveKey(e).value}), [e], pkgs);
    WithoutTwice(file, {SaveKey(e).value}, pkgs);
    WithoutOne(e, pkgs);
  }

  lemma KeysOfCons(e: Entry, rest: seq<Entry>)
    requires SaveKey(e).Some?
    ensures KeysOf([e] + rest) == {SaveKey(e).value} + KeysOf(rest)
  {
    var es := [e] + rest;
    assert es[0] == e;
    forall i | 0 <= i < |rest| ensures es[i + 1] == rest[i] {}
    forall k ensures k in KeysOf(es) <==> k == SaveKey(e).value || k in KeysOf(rest) {
      if k in KeysOf(rest) {
        var i :| 0 <= i < |rest| && SaveKey(rest[i]) == Some(k);
        assert SaveKey(es[i + 1]) == Some(k);
      }
    }
  }

  lemma SnocThenAppend(a: seq<Entry>, e: Entry, b: seq<Entry>)
    ensures (a + [e]) + b == a + ([e] + b)
  {
  }

  /** Filing entries one after the other leaves the untouched old entries, then for each key its
      last entry, in the order in which these were filed. */
  lemma {:induction false} PutAllKeepsLast(file: seq<Entry>, es: seq<Entry>)
    requires AllKeyed(es)
    ensures PutAll(file, es) == Without(file, KeysOf(es)) + LastOfEach(es)
    decreases |es|
  {
    if es == [] {
      assert KeysOf(es) == {};
      WithoutNone(file);
    } else {
      var e, rest := es[0], es[1..];
      assert es == [e] + rest;
      PutAllKeepsLast(Put(file, e), rest);
      PutThenWithout(file, e, KeysOf(rest));
      KeysOfCons(e, rest);
      SnocThenAppend(Without(file, KeysOf(es)), e, LastOfEach(rest));
    }
  }

  lemma {:induction false} SavesArePuts(file: seq<Entry>, calls: seq<SaveCall>)
    ensures SavedAll(file, calls) == PutAll(file, Written(calls))
    decreases |calls|
  {
    if calls != [] {
      SavesArePuts(Saved(file, calls[0]), calls[1..]);
      if !IsBlacklisted(calls[0].pkg) {
        assert Written(calls)[1..] == Written(calls[1..]);
      }
    }
  }

  /** Any run of saves leaves the untouched old entries, then each saved package's latest entry
      in the order of its last save. */
  lemma SavesKeepLatest(file: seq<Entry>, calls: seq<SaveCall>)
    ensures SavedAll(file, calls) == Without(file, KeysOf(Written(calls))) + LastOfEach(Written(calls))
  {
    SavesArePuts(file, calls);
    PutAllKeepsLast(file, Written(calls));
  }

  lemma PutIdempotent(file: seq<Entry>, e: Entry)
    requires SaveKey(e).Some?
    ensures Put(Put(file, e), e) == Put(file, e)
  {
    var k := {SaveKey(e).value};
    PutThenWithout(file, e, k);
    assert k + k == k;
  }

  /** Saving the same input again changes nothing, whatever the file held. */
  lemma SaveIdempotent(file: seq<Entry>, c: SaveCall)
    ensures Saved(Saved(file, c), c) == Saved(file, c)
  {
    NewEntryKey(c);
    if !IsBlacklisted(c.pkg) { PutIdempotent(file, NewEntry(c)); }
  }

  lemma {:induction false} WithoutMembers(file: seq<Entry>, pkgs: set<string>, e: Entry)
    ensures e in Without(file, pkgs) <==> e in file && !SaveKeyIn(e, pkgs)
  {
    if file != [] {
      var init, last := file[..|file| - 1], file[|file| - 1];
      assert file == init + [last];
      WithoutMembers(init, pkgs, e);
    }
  }

  // ----- Merging -----

  predicate Keyed(e: Entry) { Texts(e.packages) != [] }

  /** `pl[0]`: the first string among the packages, the name `merge` deduplicates by. */
  function MergeKey(e: Entry): string
    requires Keyed(e)
  {
    Texts(e.packages)[0]
  }

  predicate HasKey(e: Entry, key: string) { Keyed(e) && MergeKey(e) == key }

  predicate KeySeen(file: seq<Entry>, n: nat, key: string)
    requires n <= |file|
  {
    exists i | 0 <= i < n :: HasKey(file[i], key)
  }

  /** The entry at `i` is the first with its key, so `merge` uses it. */
  predicate Used(file: seq<Entry>, i: nat)
    requires i < |file|
  {
    Keyed(file[i]) && !KeySeen(file, i, MergeKey(file[i]))
  }

  /** The entry at `i` is the last with its key. */
  predicate Latest(file: seq<Entry>, i: nat)
    requires i < |file|
  {
    Keyed(file[i]) && forall j | i < j < |file| :: !HasKey(file[j], MergeKey(file[i]))
  }

  function MergeEntry(cfg: AppConfig, e: Entry): AppConfig
    requires Keyed(e)
  {
    var pl := Texts(e.packages);
    cfg.(rules := cfg.rules + EntryRules(e, ""), pkgs := Inserted(cfg.pkgs, pl, |pl|))
  }

  function Merged(cfg: AppConfig, file: seq<Entry>, n: nat): (r: AppConfig)
    requires n <= |file|
    ensures r.topo == cfg.topo && r.wild == cfg.wild
  {
    if n == 0 then cfg
    else if Used(file, n - 1) then MergeEntry(Merged(cfg, file, n - 1), file[n - 1])
    else Merged(cfg, file, n - 1)
  }

  /** A file written by saves only: the package names are pairwise distinct. */
  ghost predicate DistinctKeys(file: seq<Entry>) {
    && (forall i :: 0 <= i < |file| ==> Keyed(file[i]))
    && (forall i, j :: 0 <= i < j < |file| ==> MergeKey(file[i]) != MergeKey(file[j]))
  }

  lemma SaveKeyIsMergeKey(e: Entry)
    requires SaveKey(e).Some?
    ensures Keyed(e) && MergeKey(e) == SaveKey(e).value
  {
  }

  lemma {:induction false} LastOfEachDistinct(es: seq<Entry>)
    requires AllKeyed(es)
    ensures forall e :: e in LastOfEach(es) ==> SaveKeyIn(e, KeysOf(es))
    ensures DistinctKeys(LastOfEach(es))
  {
    if es != [] {
      var e, rest := es[0], es[1..];
      assert es == [e] + rest;
      LastOfEachDistinct(rest);
      KeysOfCons(e, rest);
      SaveKeyIsMergeKey(e);
      var last := LastOfEach(rest);
      forall j | 0 <= j < |last| ensures Keyed(last[j]) && MergeKey(last[j]) in KeysOf(rest) {
        assert last[j] in last;
        SaveKeyIsMergeKey(last[j]);
      }
    }
  }

  lemma DistinctFirstIsLast(file: seq<Entry>, i: nat)
    requires DistinctKeys(file) && i < |file|
    ensures Used(file, i) && Latest(file, i)
  {
  }

  /** From an empty cache, any saves give pairwise distinct packages, each with its latest entry;
      the first entry of a package, which `merge` uses, is then also its last. */
  lemma SavedFileIsDistinct(calls: seq<SaveCall>)
    ensures SavedAll([], calls) == LastOfEach(Written(calls))
    ensures DistinctKeys(SavedAll([], calls))
    ensures forall i: nat :: i < |SavedAll([], calls)| ==> Used(SavedAll([], calls), i) && Latest(SavedAll([], calls), i)
  {
    SavesKeepLatest([], calls);
    LastOfEachDistinct(Written(calls));
    forall i: nat | i < |SavedAll([], calls)| { DistinctFirstIsLast(SavedAll([], calls), i); }
  }

  // ----- From a saved thread to its binding -----

  lemma {:induction false} InClusterMembers(names: seq<string>, c: Cluster, hasMid: bool, name: string)
    ensures name in InCluster(names, c, hasMid) <==> name in names && ClusterFor(name, hasMid) == c
  {
    if names != [] {
      var init, last := names[..|names| - 1], names[|names| - 1];
      assert names == init + [last];
      InClusterMembers(init, c, hasMid, name);
    }
  }

  lemma StrsMember(names: seq<string>, name: string)
    ensures Str(name) in Strs(names) <==> name in names
  {
    if name in names {
      var i :| 0 <= i < |names| && names[i] == name;
      assert Strs(names)[i] == Str(name);
    }
  }

  /** The cluster string a thread is filed under; none for the little cluster. */
  function Target(c: SaveCall, name: string): Option<string> {
    match ClusterFor(name, c.mid != "")
    case Big => Some(c.big)
    case Mid => Some(c.mid)
    case Little => None
  }

  lemma FiledInGroups(big: string, bigNames: seq<string>, mid: string, midNames: seq<string>, pkg: string, name: string)
    ensures name in bigNames ==> exists k :: 0 <= k < 2 && GroupGives(pkg, CommGroups(big, bigNames, mid, midNames), k, Rule(pkg, name, big, ""))
    ensures name in midNames ==> exists k :: 0 <= k < 2 && GroupGives(pkg, CommGroups(big, bigNames, mid, midNames), k, Rule(pkg, name, mid, ""))
  {
    StrsMember(bigNames, name);
    StrsMember(midNames, name);
    StrsMember(bigNames + midNames, name);
    var groups := CommGroups(big, bigNames, mid, midNames);
    assert name in bigNames ==> GroupGives(pkg, groups, 0, Rule(pkg, name, big, "")) || GroupGives(pkg, groups, 1, Rule(pkg, name, big, ""));
    assert name in midNames ==> GroupGives(pkg, groups, 0, Rule(pkg, name, mid, "")) || GroupGives(pkg, groups, 1, Rule(pkg, name, mid, ""));
  }

  lemma EntryOfGives(pkg: string, big: string, bigNames: seq<string>, mid: string, midNames: seq<string>, little: string, r: Rule)
    requires exists k :: 0 <= k < 2 && GroupGives(pkg, CommGroups(big, bigNames, mid, midNames), k, r)
    ensures Keyed(EntryOf(pkg, big, bigNames, mid, midNames, little))
    ensures r in EntryRules(EntryOf(pkg, big, bigNames, mid, midNames, little), "")
  {
    var e := EntryOf(pkg, big, bigNames, mid, midNames, little);
    assert Texts([Str(pkg)]) == [pkg] + Texts([]);
    assert Groups(e) == CommGroups(big, bigNames, mid, midNames);
    EntryRuleSource(e, "", r);
  }

  lemma FiledThread(c: SaveCall, name: string)
    requires name in ThreadsOf(c.all, |c.all|, c.pkg) && Target(c, name).Some?
    ensures Keyed(NewEntry(c)) && Rule(c.pkg, name, Target(c, name).value, "") in EntryRules(NewEntry(c), "")
  {
    var names := ThreadsOf(c.all, |c.all|, c.pkg);
    var bigNames, midNames := InCluster(names, Big, c.mid != ""), InCluster(names, Mid, c.mid != "");
    InClusterMembers(names, Big, c.mid != "", name);
    InClusterMembers(names, Mid, c.mid != "", name);
    FiledInGroups(c.big, bigNames, c.mid, midNames, c.pkg, name);
    EntryOfGives(c.pkg, c.big, bigNames, c.mid, midNames, c.little, Rule(c.pkg, name, Target(c, name).value, ""));
  }

  /** Entry `i` is used and gives the rule. */
  predicate UsedGives(file: seq<Entry>, i: nat, r: Rule) {
    i < |file| && Used(file, i) && r in EntryRules(file[i], "")
  }

  lemma MergeEntryMeaning(cfg: AppConfig, e: Entry, r: Rule, pkg: string)
    requires Keyed(e)
    ensures r in MergeEntry(cfg, e).rules <==> r in cfg.rules || r in EntryRules(e, "")
    ensures pkg in MergeEntry(cfg, e).pkgs <==> pkg in cfg.pkgs || Names(e, pkg)
  {
    var pl := Texts(e.packages);
    TextsMembers(e.packages, pkg);
    assert pl[..|pl|] == pl;
  }

  predicate SomeUsedGives(file: seq<Entry>, n: nat, r: Rule) {
    exists i | 0 <= i < n :: UsedGives(file, i, r)
  }

  predicate UsedNames(file: seq<Entry>, i: nat, pkg: string) {
    i < |file| && Used(file, i) && Names(file[i], pkg)
  }

  predicate SomeUsedNames(file: seq<Entry>, n: nat, pkg: string) {
    exists i | 0 <= i < n :: UsedNames(file, i, pkg)
  }

  lemma SomeUsedNext(file: seq<Entry>, n: nat, r: Rule, pkg: string)
    ensures SomeUsedGives(file, n + 1, r) <==> SomeUsedGives(file, n, r) || UsedGives(file, n, r)
    ensures SomeUsedNames(file, n + 1, pkg) <==> SomeUsedNames(file, n, pkg) || UsedNames(file, n, pkg)
  {
  }

  /** `merge` adds exactly the rules and packages of the used entries. */
  lemma {:induction false} MergedMeaning(cfg: AppConfig, file: seq<Entry>, n: nat, r: Rule, pkg: string)
    requires n <= |file|
    ensures r in Merged(cfg, file, n).rules <==> r in cfg.rules || SomeUsedGives(file, n, r)
    ensures pkg in Merged(cfg, file, n).pkgs <==> pkg in cfg.pkgs || SomeUsedNames(file, n, pkg)
  {
    if n > 0 {
      MergedMeaning(cfg, file, n - 1, r, pkg);
      SomeUsedNext(file, n - 1, r, pkg);
      if Used(file, n - 1) {
        MergeEntryMeaning(Merged(cfg, file, n - 1), file[n - 1], r, pkg);
      }
    }
  }

  /** An old entry hides a new one from `merge` if its first string is the package although its
      first element is no string: `save` does not recognise it as the package's old entry. */
  predicate Shadowed(file: seq<Entry>, pkg: string) {
    exists e | e in file :: SaveKey(e).None? && HasKey(e, pkg)
  }

  /** `merge` uses the entry `save` has just written exactly when no old entry shadows it. */
  lemma SavedEntryUsed(file: seq<Entry>, c: SaveCall)
    requires !IsBlacklisted(c.pkg)
    ensures var file' := Saved(file, c);
            Used(file', |file'| - 1) <==> !Shadowed(file, c.pkg)
  {
    var kept, file' := Without(file, {c.pkg}), Saved(file, c);
    NewEntryKey(c);
    if Shadowed(file, c.pkg) {
      var e :| e in file && SaveKey(e).None? && HasKey(e, c.pkg);
      WithoutMembers(file, {c.pkg}, e);
      var i :| 0 <= i < |kept| && kept[i] == e;
      assert file'[i] == e;
    } else {
      forall i | 0 <= i < |kept| ensures !HasKey(file'[i], c.pkg) {
        var e := kept[i];
        assert file'[i] == e && e in kept;
        WithoutMembers(file, {c.pkg}, e);
        if SaveKey(e).Some? { SaveKeyIsMergeKey(e); }
      }
    }
  }

  /** A file whose only entry has the package behind a first element that is no string: the package's
      new entry is not used. */
  lemma ShadowedEntryIgnored(c: SaveCall)
    requires c.pkg == "p"
    ensures var file' := Saved([Entry([NotStr, Str("p")], None, None)], c);
            !IsBlacklisted(c.pkg) && |file'| == 2 && file'[1] == NewEntry(c) && !Used(file', 1)
  {
    var old_ := Entry([NotStr, Str("p")], None, None);
    assert Texts([Str("p")]) == ["p"] + Texts([]);
    assert Texts([NotStr, Str("p")]) == Texts([Str("p")]);
    assert [old_][0] == old_ && HasKey(old_, "p");
    assert Without([], {"p"}) == [];
    assert Without([old_], {"p"}) == [] + [old_];
    SavedEntryUsed([old_], c);
  }

  lemma RuleReachesBinding(cfg: AppConfig, r: Rule)
    requires r in cfg.rules && r.thread != "" && r.pkg != "" && Parse(r.cpus) != {}
    ensures HasThreadRules(cfg.rules, r.pkg)
    ensures var a := Affinity(r.pkg, r.thread, cfg);
            a.Some? && a.value.isThreadRule && Parse(r.cpus) <= a.value.cpus
  {
    FnMatchReflexive(r.pkg);
    FnMatchReflexive(r.thread);
    HasThreadRulesIn(cfg.rules, r.pkg);
    SelectIn(cfg.rules, r.pkg, ThreadNamed(r.thread), r);
    var ts := ThreadRules(cfg.rules, r.pkg, r.thread);
    assert r in ts;
    assert Parse(r.cpus) <= UnionOf(ts);
  }

  /** A thread of the package is bound by a thread rule to a mask that holds all CPUs of the string. */
  ghost predicate BindsTo(cfg: AppConfig, pkg: string, thread: string, cpus: string) {
    var a := Affinity(pkg, thread, cfg);
    HasThreadRules(cfg.rules, pkg) && a.Some? && a.value.isThreadRule && Parse(cpus) <= a.value.cpus
  }

  /** An entry of `save` that `merge` uses binds the threads it files under a cluster with CPUs. */
  lemma UsedEntryBinds(cfg: AppConfig, file: seq<Entry>, i: nat, c: SaveCall, name: string)
    requires i < |file| && Used(file, i) && file[i] == NewEntry(c) && c.pkg != ""
    requires name != "" && name in ThreadsOf(c.all, |c.all|, c.pkg)
    requires Target(c, name).Some? && Parse(Target(c, name).value) != {}
    ensures BindsTo(Merged(cfg, file, |file|), c.pkg, name, Target(c, name).value)
  {
    var r := Rule(c.pkg, name, Target(c, name).value, "");
    FiledThread(c, name);
    MergedMeaning(cfg, file, |file|, r, c.pkg);
    assert UsedGives(file, i, r);
    RuleReachesBinding(Merged(cfg, file, |file|), r);
  }

  // ----- After many saves -----

  /** Some save in `calls` writes an entry for the package. */
  predicate Saves(calls: seq<SaveCall>, pkg: string) {
    exists c | c in calls :: !IsBlacklisted(c.pkg) && c.pkg == pkg
  }

  lemma {:induction false} WrittenKeys(calls: seq<SaveCall>, e: Entry)
    requires e in Written(calls)
    ensures SaveKey(e).Some? && Saves(calls, SaveKey(e).value)
  {
    var c, rest := calls[0], calls[1..];
    assert calls == [c] + rest;
    NewEntryKey(c);
    if IsBlacklisted(c.pkg) || e != NewEntry(c) {
      WrittenKeys(rest, e);
      var d :| d in rest && !IsBlacklisted(d.pkg) && d.pkg == SaveKey(e).value;
      assert d in calls;
    } else {
      assert c in calls;
    }
  }

  lemma {:induction false} WrittenAppend(a: seq<SaveCall>, b: seq<SaveCall>)
    ensures Written(a + b) == Written(a) + Written(b)
  {
    if a == [] {
      assert a + b == b;
    } else {
      assert (a + b)[1..] == a[1..] + b;
      WrittenAppend(a[1..], b);
    }
  }

  lemma {:induction false} LastStays(a: seq<Entry>, e: Entry, b: seq<Entry>)
    requires SaveKey(e).Some? && !SaveKeyIn(e, KeysOf(b))
    ensures e in LastOfEach(a + [e] + b)
  {
    var es := a + [e] + b;
    if a == [] {
      assert es == [e] + b;
    } else {
      assert es[1..] == a[1..] + [e] + b;
      LastStays(a[1..], e, b);
    }
  }

  /** The save at `k` is the last of its package. */
  predicate LastSave(calls: seq<SaveCall>, k: nat) {
    && k < |calls| && !IsBlacklisted(calls[k].pkg)
    && forall j | k < j < |calls| :: calls[j].pkg != calls[k].pkg
  }

  lemma KeyIsSaved(calls: seq<SaveCall>, pkg: string)
    requires pkg in KeysOf(Written(calls))
    ensures Saves(calls, pkg)
  {
    var i :| 0 <= i < |Written(calls)| && SaveKey(Written(calls)[i]) == Some(pkg);
    WrittenKeys(calls, Written(calls)[i]);
  }

  /** The saves after the package's last one write no entry for it. */
  lemma LaterKeysDiffer(later: seq<SaveCall>, pkg: string)
    requires forall j :: 0 <= j < |later| ==> later[j].pkg != pkg
    ensures pkg !in KeysOf(Written(later))
  {
    if pkg in KeysOf(Written(later)) { KeyIsSaved(later, pkg); }
  }

  lemma WrittenHead(c: SaveCall, rest: seq<SaveCall>)
    requires !IsBlacklisted(c.pkg)
    ensures Written([c] + rest) == [NewEntry(c)] + Written(rest)
  {
    assert ([c] + rest)[1..] == rest;
  }

  lemma WrittenAround(before: seq<SaveCall>, c: SaveCall, later: seq<SaveCall>)
    requires !IsBlacklisted(c.pkg)
    ensures Written(before + ([c] + later)) == Written(before) + ([NewEntry(c)] + Written(later))
  {
    WrittenAppend(before, [c] + later);
    WrittenHead(c, later);
  }

  lemma LastWritten(before: seq<Entry>, e: Entry, later: seq<Entry>)
    requires SaveKey(e).Some? && !SaveKeyIn(e, KeysOf(later))
    ensures e in LastOfEach(before + ([e] + later)) && SaveKey(e).value in KeysOf(before + ([e] + later))
  {
    var es := before + ([e] + later);
    SnocThenAppend(before, e, later);
    LastStays(before, e, later);
    assert es[|before|] == e;
  }

  lemma LastSaveWritten(calls: seq<SaveCall>, k: nat)
    requires LastSave(calls, k)
    ensures NewEntry(calls[k]) in LastOfEach(Written(calls)) && calls[k].pkg in KeysOf(Written(calls))
  {
    var before, c, later := calls[..k], calls[k], calls[k + 1..];
    assert calls == before + ([c] + later);
    WrittenAround(before, c, later);
    NewEntryKey(c);
    LaterKeysDiffer(later, c.pkg);
    LastWritten(Written(before), NewEntry(c), Written(later));
  }

  /** No kept old entry has the key of a package that is saved and not shadowed. */
  lemma KeptHasNoKey(file: seq<Entry>, pkgs: set<string>, pkg: string, e: Entry)
    requires pkg in pkgs && !Shadowed(file, pkg) && e in Without(file, pkgs)
    ensures !HasKey(e, pkg)
  {
    WithoutMembers(file, pkgs, e);
    if SaveKey(e).Some? { SaveKeyIsMergeKey(e); }
  }

  lemma UsedBehind(kept: seq<Entry>, last: seq<Entry>, m: nat)
    requires DistinctKeys(last) && m < |last|
    requires forall e :: e in kept ==> !HasKey(e, MergeKey(last[m]))
    ensures Used(kept + last, |kept| + m)
  {
    var file := kept + last;
    forall j | 0 <= j < |kept| + m ensures !HasKey(file[j], MergeKey(last[m])) {
      if j < |kept| { assert file[j] in kept; } else { assert file[j] == last[j - |kept|]; }
    }
  }

  lemma LastEntryUsed(file: seq<Entry>, es: seq<Entry>, e: Entry, pkg: string) returns (i: nat)
    requires AllKeyed(es) && e in LastOfEach(es) && SaveKey(e) == Some(pkg) && pkg in KeysOf(es) && !Shadowed(file, pkg)
    ensures var file' := Without(file, KeysOf(es)) + LastOfEach(es); i < |file'| && file'[i] == e && Used(file', i)
  {
    var kept, last := Without(file, KeysOf(es)), LastOfEach(es);
    LastOfEachDistinct(es);
    SaveKeyIsMergeKey(e);
    var m :| 0 <= m < |last| && last[m] == e;
    forall old_ | old_ in kept ensures !HasKey(old_, pkg) { KeptHasNoKey(file, KeysOf(es), pkg, old_); }
    UsedBehind(kept, last, m);
    i := |kept| + m;
  }

  /** After any saves, `merge` uses the last entry of a package that is not shadowed. */
  lemma LastSaveUsed(file: seq<Entry>, calls: seq<SaveCall>, k: nat) returns (i: nat)
    requires LastSave(calls, k) && !Shadowed(file, calls[k].pkg)
    ensures var file' := SavedAll(file, calls); i < |file'| && file'[i] == NewEntry(calls[k]) && Used(file', i)
  {
    SavesKeepLatest(file, calls);
    LastSaveWritten(calls, k);
    NewEntryKey(calls[k]);
    i := LastEntryUsed(file, Written(calls), NewEntry(calls[k]), calls[k].pkg);
  }

  /** End to end: once packages are saved, in any order and any number of times, and the cache is
      merged into any configuration, every thread of a package's last save with a name and a high
      enough load is bound by a thread rule to a mask that holds its whole cluster. */
  lemma SavedThreadIsBound(cfg: AppConfig, file: seq<Entry>, calls: seq<SaveCall>, k: nat, name: string)
    requires LastSave(calls, k) && calls[k].pkg != "" && !Shadowed(file, calls[k].pkg)
    requires name != "" && name in ThreadsOf(calls[k].all, |calls[k].all|, calls[k].pkg)
    ensures var file', c := SavedAll(file, calls), calls[k];
            var cfg' := Merged(cfg, file', |file'|);
            && (EstLoad(name) >= 8 && Parse(c.big) != {} ==> BindsTo(cfg', c.pkg, name, c.big))
            && (5 <= EstLoad(name) < 8 && c.mid != "" && Parse(c.mid) != {} ==> BindsTo(cfg', c.pkg, name, c.mid))
  {
    var file', c := SavedAll(file, calls), calls[k];
    var i := LastSaveUsed(file, calls, k);
    if Target(c, name).Some? && Parse(Target(c, name).value) != {} { UsedEntryBinds(cfg, file', i, c, name); }
  }

  /** With the cluster strings that `detect` produces, the mask holds every CPU of the cluster
      the thread was filed under. */
  lemma SavedThreadGetsCluster(cfg: AppConfig, file: seq<Entry>, calls: seq<SaveCall>, k: nat, name: string, cluster: seq<nat>)
    requires LastSave(calls, k) && calls[k].pkg != "" && !Shadowed(file, calls[k].pkg)
    requires name != "" && name in ThreadsOf(calls[k].all, |calls[k].all|, calls[k].pkg)
    requires Target(calls[k], name) == Some(Formatted(cluster)) && Usizes(cluster) && NoWrap(cluster)
    requires exists cpu :: cpu in cluster && cpu < CPU_SETSIZE
    ensures var file' := SavedAll(file, calls);
            var a := Affinity(calls[k].pkg, name, Merged(cfg, file', |file'|));
            a.Some? && a.value.isThreadRule && forall cpu :: cpu in cluster && cpu < CPU_SETSIZE ==> cpu in a.value.cpus
  {
    var cpu :| cpu in cluster && cpu < CPU_SETSIZE;
    ParseFormatted(cluster);
    assert cpu in Parse(Formatted(cluster));
    var i := LastSaveUsed(file, calls, k);
    UsedEntryBinds(cfg, SavedAll(file, calls), i, calls[k], name);
  }

  lemma {:induction false} MergedDirsAgree(cfg: AppConfig, file: seq<Entry>, n: nat)
    requires n <= |file| && DirsAgree(cfg.rules)
    ensures DirsAgree(Merged(cfg, file, n).rules)
  {
    if n > 0 {
      MergedDirsAgree(cfg, file, n - 1);
      if Used(file, n - 1) {
        EntryDirsAgree(file[n - 1], "");
        DirsAgreeAppend(Merged(cfg, file, n - 1).rules, EntryRules(file[n - 1], ""));
      }
    }
  }

  // ----- Configurations of a run -----

  /** `merge` with the cache file as it is found; None if it is missing or malformed. */
  function MergedFile(cfg: AppConfig, file: Option<seq<Entry>>): (r: AppConfig)
    ensures r.topo == cfg.topo
  {
    if file.None? then cfg else Merged(cfg, file.value, |file.value|)
  }

  /** What precedes a scan: nothing, or a hot reload of the configuration and cache files. */
  datatype Reload = Keep | HotReload(entries: seq<Entry>, file: Option<seq<Entry>>)

  function Reloaded(cfg: AppConfig, r: Reload): (r': AppConfig)
    ensures r'.topo == cfg.topo
  {
    match r
    case Keep => cfg
    case HotReload(entries, file) => MergedFile(Loaded(entries, |entries|, cfg.topo), file)
  }

  /** The start of the program: the configuration file, the cache file, and the cache file once more
      after the automatic assignment. */
  datatype Start = Start(entries: seq<Entry>, topo: Topology, cached: Option<seq<Entry>>, saved: Option<seq<Entry>>)

  function StartConfig(st: Start): (cfg: AppConfig)
    ensures cfg.topo == st.topo
  {
    MergedFile(MergedFile(Loaded(st.entries, |st.entries|, st.topo), st.cached), st.saved)
  }

  /** A start with one package and one thread rule, and no cache file. */
  lemma OneThreadStart(pkg: string, topo: Topology)
    requires pkg != ""
    ensures var cfg := StartConfig(Start([OneThreadEntry(pkg)], topo, None, None));
            cfg.pkgs == [pkg] && HasThreadRules(cfg.rules, pkg)
  {
    OneThreadLoaded(pkg, topo);
    FnMatchReflexive(pkg);
    HasThreadRulesIn(Loaded([OneThreadEntry(pkg)], 1, topo).rules, pkg);
  }

  lemma MergedFileDirsAgree(cfg: AppConfig, file: Option<seq<Entry>>)
    requires DirsAgree(cfg.rules)
    ensures DirsAgree(MergedFile(cfg, file).rules)
  {
    if file.Some? { MergedDirsAgree(cfg, file.value, |file.value|); }
  }

  lemma ReloadedDirsAgree(cfg: AppConfig, r: Reload)
    requires DirsAgree(cfg.rules)
    ensures DirsAgree(Reloaded(cfg, r).rules)
  {
    if r.HotReload? {
      LoadedDirsAgree(r.entries, |r.entries|, cfg.topo);
      MergedFileDirsAgree(Loaded(r.entries, |r.entries|, cfg.topo), r.file);
    }
  }

  /** Whatever the files hold, the rules at the start have directories that agree with their CPU
      sets; reloads and further merges keep it so. */
  lemma StartDirsAgree(st: Start)
    ensures DirsAgree(StartConfig(st).rules)
  {
    var loaded := Loaded(st.entries, |st.entries|, st.topo);
    LoadedDirsAgree(st.entries, |st.entries|, st.topo);
    MergedFileDirsAgree(loaded, st.cached);
    MergedFileDirsAgree(MergedFile(loaded, st.cached), st.saved);
  }

  // ----- Merging again after saves -----

  lemma {:induction false} LastOfEachMembers(es: seq<Entry>, e: Entry)
    requires e in LastOfEach(es)
    ensures e in es
  {
    if e != es[0] || SaveKeyIn(es[0], KeysOf(es[1..])) { LastOfEachMembers(es[1..], e); }
  }

  /** An entry that stays and is not saved anew is the first with its key in the old file too. */
  lemma {:induction false} KeptIndex(file: seq<Entry>, pkgs: set<string>, i: nat) returns (j: nat)
    requires i < |Without(file, pkgs)|
    ensures j < |file| && file[j] == Without(file, pkgs)[i]
    ensures forall k :: 0 <= k < j ==> SaveKeyIn(file[k], pkgs) || file[k] in Without(file, pkgs)[..i]
  {
    var init, last := file[..|file| - 1], file[|file| - 1];
    if i < |Without(init, pkgs)| {
      j := KeptIndex(init, pkgs, i);
      assert Without(file, pkgs)[..i] == Without(init, pkgs)[..i];
    } else {
      j := |file| - 1;
      assert Without(file, pkgs)[..i] == Without(init, pkgs);
      forall k | 0 <= k < j ensures SaveKeyIn(file[k], pkgs) || file[k] in Without(init, pkgs) {
        assert file[k] == init[k];
        WithoutMembers(init, pkgs, file[k]);
      }
    }
  }

  lemma KeptStaysUsed(file: seq<Entry>, more: seq<Entry>, pkgs: set<string>, i: nat, key: string) returns (j: nat)
    requires i < |Without(file, pkgs)| && Used(Without(file, pkgs) + more, i)
    requires MergeKey((Without(file, pkgs) + more)[i]) == key && key !in pkgs
    ensures j < |file| && file[j] == Without(file, pkgs)[i] && Used(file, j)
  {
    var kept := Without(file, pkgs);
    j := KeptIndex(file, pkgs, i);
    forall k | 0 <= k < j ensures !HasKey(file[k], key) {
      if SaveKeyIn(file[k], pkgs) {
        SaveKeyIsMergeKey(file[k]);
      } else {
        var m :| 0 <= m < i && kept[..i][m] == file[k];
        assert (kept + more)[m] == file[k];
      }
    }
  }

  /** A rule that the later merge uses is one of the first merge, or belongs to a saved package. */
  lemma LaterRule(file: seq<Entry>, calls: seq<SaveCall>, i: nat, r: Rule)
    requires UsedGives(SavedAll(file, calls), i, r) && !Saves(calls, r.pkg)
    ensures SomeUsedGives(file, |file|, r)
  {
    var es, saved := Written(calls), SavedAll(file, calls);
    var kept := Without(file, KeysOf(es));
    SavesKeepLatest(file, calls);
    var e := saved[i];
    EntryRulePkg(e, r);
    if i < |kept| {
      if r.pkg in KeysOf(es) { KeyIsSaved(calls, r.pkg); }
      var j := KeptStaysUsed(file, LastOfEach(es), KeysOf(es), i, r.pkg);
      assert UsedGives(file, j, r);
    } else {
      assert e in LastOfEach(es);
      LastOfEachMembers(es, e);
      WrittenKeys(calls, e);
      SaveKeyIsMergeKey(e);
    }
  }

  lemma EntryRulePkg(e: Entry, r: Rule)
    requires Keyed(e) && r in EntryRules(e, "")
    ensures r.pkg == MergeKey(e)
  {
    EntryRuleSource(e, "", r);
  }

  lemma LaterMergeRules(cfg: AppConfig, file: seq<Entry>, calls: seq<SaveCall>, r: Rule)
    ensures var once, saved := Merged(cfg, file, |file|), SavedAll(file, calls);
            r in once.rules ==> r in Merged(once, saved, |saved|).rules
    ensures var once, saved := Merged(cfg, file, |file|), SavedAll(file, calls);
            r in Merged(once, saved, |saved|).rules && !Saves(calls, r.pkg) ==> r in once.rules
  {
    var once, saved := Merged(cfg, file, |file|), SavedAll(file, calls);
    MergedMeaning(cfg, file, |file|, r, "");
    MergedMeaning(once, saved, |saved|, r, "");
    if SomeUsedGives(saved, |saved|, r) && !Saves(calls, r.pkg) {
      var i :| 0 <= i < |saved| && UsedGives(saved, i, r);
      LaterRule(file, calls, i, r);
    }
  }

  /** No saved package is the given one or a pattern for it. */
  predicate Untouched(calls: seq<SaveCall>, pkg: string) {
    forall c | c in calls :: IsBlacklisted(c.pkg) || (c.pkg != pkg && !FnMatch(c.pkg, pkg))
  }

  /** Merging again, after any saves, changes neither the CPUs nor the kind of any binding of a
      package that was not saved. */
  lemma LaterMergeHarmless(cfg: AppConfig, file: seq<Entry>, calls: seq<SaveCall>, pkg: string, thread: string)
    requires Untouched(calls, pkg)
    ensures var once, saved := Merged(cfg, file, |file|), SavedAll(file, calls);
            SameBinding(Affinity(pkg, thread, once), Affinity(pkg, thread, Merged(once, saved, |saved|)))
  {
    var once, saved := Merged(cfg, file, |file|), SavedAll(file, calls);
    var twice := Merged(once, saved, |saved|);
    forall r: Rule | r.pkg == pkg || FnMatch(r.pkg, pkg)
      ensures r in once.rules <==> r in twice.rules
    {
      LaterMergeRules(cfg, file, calls, r);
    }
    AffinityIgnoresForeign(pkg, thread, once, twice);
  }

  // ----- The loops -----

  /** Files one thread name. */
  method FileName(ghost names: seq<string>, name: string, hasMid: bool, bigs: seq<string>, mids: seq<string>, lils: seq<string>)
    returns (bigs': seq<string>, mids': seq<string>, lils': seq<string>)
    requires bigs == InCluster(names, Big, hasMid) && mids == InCluster(names, Mid, hasMid) && lils == InCluster(names, Little, hasMid)
    ensures bigs' == InCluster(names + [name], Big, hasMid)
    ensures mids' == InCluster(names + [name], Mid, hasMid)
    ensures lils' == InCluster(names + [name], Little, hasMid)
  {
    assert (names + [name])[..|names|] == names;
    bigs', mids', lils' := bigs, mids, lils;
    var load := EstLoad(name);
    if load >= 8 {
      bigs' := bigs + [name];
    } else if load >= 5 && hasMid {
      mids' := mids + [name];
    } else {
      lils' := lils + [name];
    }
  }

  lemma PrefixSnoc(names: seq<string>, threads: seq<string>, i: nat)
    requires i < |threads|
    ensures names + threads[..i + 1] == (names + threads[..i]) + [threads[i]]
  {
  }

  /** The inner loop of `save`: files the threads of one process. */
  method FileProc(ghost names: seq<string>, threads: seq<string>, hasMid: bool, bigs: seq<string>, mids: seq<string>, lils: seq<string>)
    returns (bigs': seq<string>, mids': seq<string>, lils': seq<string>)
    requires bigs == InCluster(names, Big, hasMid) && mids == InCluster(names, Mid, hasMid) && lils == InCluster(names, Little, hasMid)
    ensures bigs' == InCluster(names + threads, Big, hasMid)
    ensures mids' == InCluster(names + threads, Mid, hasMid)
    ensures lils' == InCluster(names + threads, Little, hasMid)
  {
    bigs', mids', lils' := bigs, mids, lils;
    var i := 0;
    ghost var seen := names;
    while i < |threads|
      invariant 0 <= i <= |threads| && seen == names + threads[..i]
      invariant bigs' == InCluster(seen, Big, hasMid)
      invariant mids' == InCluster(seen, Mid, hasMid)
      invariant lils' == InCluster(seen, Little, hasMid)
    {
      bigs', mids', lils' := FileName(seen, threads[i], hasMid, bigs', mids', lils');
      PrefixSnoc(names, threads, i);
      seen := seen + [threads[i]];
      i := i + 1;
    }
    assert threads[..|threads|] == threads;
  }

  method FileThreads(all: seq<Proc>, pkg: string, hasMid: bool) returns (bigs: seq<string>, mids: seq<string>)
    ensures bigs == InCluster(ThreadsOf(all, |all|, pkg), Big, hasMid)
    ensures mids == InCluster(ThreadsOf(all, |all|, pkg), Mid, hasMid)
  {
    bigs, mids := [], [];
    var lils := [];
    for i := 0 to |all|
      invariant bigs == InCluster(ThreadsOf(all, i, pkg), Big, hasMid)
      invariant mids == InCluster(ThreadsOf(all, i, pkg), Mid, hasMid)
      invariant lils == InCluster(ThreadsOf(all, i, pkg), Little, hasMid)
    {
      if all[i].name == pkg {
        bigs, mids, lils := FileProc(ThreadsOf(all, i, pkg), all[i].threads, hasMid, bigs, mids, lils);
      }
    }
  }

  /** The loop that drops a package's old entries. */
  method Dedup(file: seq<Entry>, pkg: string) returns (kept: seq<Entry>)
    ensures kept == Without(file, {pkg})
  {
    kept := [];
    for i := 0 to |file|
      invariant kept == Without(file[..i], {pkg})
    {
      assert file[..i + 1][..i] == file[..i];
      var keep := match SaveKey(file[i]) case Some(old_) => old_ != pkg case None => true;
      if keep {
        kept := kept + [file[i]];
      }
    }
    assert file[..|file|] == file;
  }

  lemma KeySeenNext(file: seq<Entry>, i: nat, key: string)
    requires i < |file|
    ensures KeySeen(file, i + 1, key) <==> KeySeen(file, i, key) || HasKey(file[i], key)
  {
  }

  /** The body of the loop of `merge`: an entry is used unless its key was seen before. */
  method MergeNext(cfg: AppConfig, file: seq<Entry>, i: nat, seen: set<string>) returns (cfg': AppConfig, seen': set<string>)
    requires i < |file| && forall key :: key in seen <==> KeySeen(file, i, key)
    ensures cfg' == if Used(file, i) then MergeEntry(cfg, file[i]) else cfg
    ensures forall key :: key in seen' <==> KeySeen(file, i + 1, key)
  {
    forall key ensures KeySeen(file, i + 1, key) <==> key in seen || HasKey(file[i], key) { KeySeenNext(file, i, key); }
    cfg', seen' := cfg, seen;
    var pl := Texts(file[i].packages);
    if pl == [] { return; }
    seen' := seen + {pl[0]};
    if pl[0] in seen { return; }
    cfg' := MergeOne(cfg, file[i]);
  }

  method MergeLoop(cfg: AppConfig, file: seq<Entry>) returns (cfg': AppConfig)
    ensures cfg' == Merged(cfg, file, |file|)
  {
    cfg' := cfg;
    var seen: set<string> := {};
    for i := 0 to |file|
      invariant cfg' == Merged(cfg, file, i)
      invariant forall key :: key in seen <==> KeySeen(file, i, key)
    {
      cfg', seen := MergeNext(cfg', file, i, seen);
    }
  }

  method MergeOne(cfg: AppConfig, e: Entry) returns (cfg': AppConfig)
    requires Keyed(e)
    ensures cfg' == MergeEntry(cfg, e)
  {
    var pl := Texts(e.packages);
    var pkgs, _ := PushPackages(cfg.pkgs, [], pl);
    var rules := PushEntry(cfg.rules, pl[0], e, "");
    cfg' := cfg.(rules := rules, pkgs := pkgs);
  }

  /** The cache file; None if it is missing or holds no JSON array. */
  class Cache {
    var file: Option<seq<Entry>>

    constructor ()
      ensures file == None
    {
      file := None;
    }

    method Save(c: SaveCall)
      modifies this
      ensures file == if IsBlacklisted(c.pkg) then old(file) else Some(Saved(old(file).GetOr([]), c))
    {
      if IsBlacklisted(c.pkg) {
        return;
      }
      NewEntryKey(c);
      var bigs, mids := FileThreads(c.all, c.pkg, c.mid != "");
      var entry := EntryOf(c.pkg, c.big, bigs, c.mid, mids, c.little);
      var kept := Dedup(file.GetOr([]), c.pkg);
      file := Some(kept + [entry]);
    }

    method Merge(cfg: AppConfig) returns (cfg': AppConfig)
      ensures cfg' == MergedFile(cfg, file)
    {
      if file.None? {
        return cfg;
      }
      cfg' := MergeLoop(cfg, file.value);
    }

    /** `hot_reload`; `entries` is None if the configuration file cannot be read. */
    method HotReload(cfg: AppConfig, entries: Option<seq<Entry>>) returns (cfg': AppConfig, changed: bool)
      ensures changed <==> entries.Some?
      ensures cfg' == if changed then Reloaded(cfg, Reload.HotReload(entries.value, file)) else cfg
    {
      if entries.None? {
        return cfg, false;
      }
      var loaded := Load(entries.value, cfg.topo);
      cfg' := Merge(loaded);
      changed := true;
    }
  }
}
