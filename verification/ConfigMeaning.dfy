/**
 src/config.rs and the choice of processes in src/main.rs: what the files lead to, in terms of their
 entries and of the texts in them.
 */
module ConfigMeaning {
  import opened Strings
  import opened Glob
  import opened Config
  import opened Whitelist
  import opened ProcScan
  import A = AutoCache

  // ----- Entries -----

  /** The package that an entry's rules are for: its first string, whatever else stands before it. */
  lemma {:induction false} FirstText(js: seq<Json>, i: nat, pkg: string)
    requires i < |js| && js[i] == Str(pkg) && forall j :: 0 <= j < i ==> js[j].NotStr?
    ensures Texts(js) != [] && Texts(js)[0] == pkg
  {
    if i > 0 { FirstText(js[1..], i - 1, pkg); }
  }

  /** Its rule for the package itself has the CPUs under `other`, or CPU 0 if there are none. */
  lemma EntryPackageRule(e: Entry, dir: string, i: nat, pkg: string)
    requires i < |e.packages| && e.packages[i] == Str(pkg) && forall j :: 0 <= j < i ==> e.packages[j].NotStr?
    ensures Texts(e.packages) != []
    ensures Rule(pkg, "", if e.other.Some? then e.other.value else "0", dir) in EntryRules(e, dir)
    ensures forall r :: r in EntryRules(e, dir) ==> r.pkg == pkg
  {
    FirstText(e.packages, i, pkg);
    forall r | r in EntryRules(e, dir) ensures r.pkg == pkg { EntryRuleSource(e, dir, r); }
    EntryRuleSource(e, dir, Rule(pkg, "", if e.other.Some? then e.other.value else "0", dir));
  }

  /** The wildcard packages are the listed names with a star or a question mark. */
  lemma LoadedWild(entries: seq<Entry>, topo: Topology, w: string)
    ensures w in Loaded(entries, |entries|, topo).wild <==>
              && (exists i :: 0 <= i < |w| && (w[i] == '*' || w[i] == '?'))
              && (exists i :: 0 <= i < |entries| && Str(w) in entries[i].packages)
  {
    LoadedMeaning(entries, |entries|, topo, Rule("", "", "", ""), w);
    assert IsWild(w) <==> exists i :: 0 <= i < |w| && (w[i] == '*' || w[i] == '?');
    assert SomeNames(entries, |entries|, w) <==> exists i :: 0 <= i < |entries| && Names(entries[i], w);
    forall i | 0 <= i < |entries| ensures Names(entries[i], w) <==> Str(w) in entries[i].packages {}
  }

  // ----- Reloads -----

  /** A hot reload leaves nothing of the old rules: they are those of the configuration file and of the
      entries that the cache file is merged from. */
  lemma ReloadedMeaning(cfg: AppConfig, entries: seq<Entry>, file: seq<Entry>, r: Rule, pkg: string)
    ensures var cfg' := A.Reloaded(cfg, A.HotReload(entries, Some(file)));
            var loaded := Loaded(entries, |entries|, cfg.topo);
            && (r in cfg'.rules <==> r in loaded.rules || A.SomeUsedGives(file, |file|, r))
            && (pkg in cfg'.pkgs <==> pkg in loaded.pkgs || A.SomeUsedNames(file, |file|, pkg))
            && cfg'.wild == loaded.wild && cfg'.topo == cfg.topo
  {
    var loaded := Loaded(entries, |entries|, cfg.topo);
    assert A.Reloaded(cfg, A.HotReload(entries, Some(file))) == A.Merged(loaded, file, |file|);
    A.MergedMeaning(loaded, file, |file|, r, pkg);
  }

  /** Without a cache file they are those of the configuration file. */
  lemma ReloadedAlone(cfg: AppConfig, entries: seq<Entry>, r: Rule)
    ensures r in A.Reloaded(cfg, A.HotReload(entries, None)).rules <==> SomeGives(entries, |entries|, cfg.topo, r)
  {
    LoadedMeaning(entries, |entries|, cfg.topo, r, "");
  }

  /** At the start the cache file counts twice: as it was, and as it is after the automatic assignment. */
  lemma StartMeaning(entries: seq<Entry>, topo: Topology, cached: seq<Entry>, saved: seq<Entry>, r: Rule, pkg: string)
    ensures var cfg := A.StartConfig(A.Start(entries, topo, Some(cached), Some(saved)));
            && (r in cfg.rules <==> || SomeGives(entries, |entries|, topo, r)
                                    || A.SomeUsedGives(cached, |cached|, r) || A.SomeUsedGives(saved, |saved|, r))
            && (pkg in cfg.pkgs <==> || SomeNames(entries, |entries|, pkg)
                                     || A.SomeUsedNames(cached, |cached|, pkg) || A.SomeUsedNames(saved, |saved|, pkg))
  {
    var loaded := Loaded(entries, |entries|, topo);
    LoadedMeaning(entries, |entries|, topo, r, pkg);
    A.MergedMeaning(loaded, cached, |cached|, r, pkg);
    A.MergedMeaning(A.Merged(loaded, cached, |cached|), saved, |saved|, r, pkg);
  }

  // ----- The automatic assignment -----

  /** A word occurs in a name. */
  ghost predicate Has(name: string, word: string) {
    exists before, after :: name == before + word + after
  }

  lemma ContainsIff(name: string, word: string)
    ensures Contains(name, word) <==> Has(name, word)
  {
    if Contains(name, word) {
      var i :| 0 <= i <= |name| && OccursAt(name, word, i);
      assert name == name[..i] + word + name[i + |word|..];
    }
    if Has(name, word) {
      var before, after :| name == before + word + after;
      assert OccursAt(name, word, |before|);
    }
  }

  ghost predicate HasAny(name: string, words: seq<string>) {
    exists w :: w in words && Has(name, w)
  }

  lemma ContainsAnyIff(name: string, words: seq<string>)
    ensures A.ContainsAny(name, words) <==> HasAny(name, words)
  {
    forall i | 0 <= i < |words| ensures Contains(name, words[i]) <==> Has(name, words[i]) { ContainsIff(name, words[i]); }
    if HasAny(name, words) {
      var w :| w in words && Has(name, w);
      var i :| 0 <= i < |words| && words[i] == w;
    }
    if A.ContainsAny(name, words) {
      var i :| 0 <= i < |words| && Contains(name, words[i]);
      assert words[i] in words;
    }
  }

  const DRAWING: seq<string> := ["Render", "Gfx", "GL", "Vulkan"]
  const DECODING: seq<string> := ["Decode", "Codec", "Video", "Audio"]
  const MAIN: seq<string> := ["Main", "Unity", "Game", "Native", "RHI", "TaskGraph"]
  const WORKING: seq<string> := ["Worker", "Thread", "Job"]
  const WAITING: seq<string> := ["Io", "Network", "Http"]
  const RESTING: seq<string> := ["Background", "Idle", "Pool"]

  /** The name is of a thread that draws, decodes or is a main one. */
  ghost predicate Heavy(name: string) {
    HasAny(name, DRAWING) || HasAny(name, DECODING) || HasAny(name, MAIN)
  }

  /** The name is of none of these nor of a worker, but of one that mostly waits. */
  ghost predicate Light(name: string) {
    !Heavy(name) && !HasAny(name, WORKING) && (HasAny(name, WAITING) || HasAny(name, RESTING))
  }

  /** How the estimated load stands to the two thresholds. */
  lemma LoadMeaning(name: string)
    ensures A.EstLoad(name) >= 8 <==> Heavy(name)
    ensures A.EstLoad(name) < 5 <==> Light(name)
  {
    ContainsAnyIff(name, DRAWING);
    ContainsAnyIff(name, DECODING);
    ContainsAnyIff(name, MAIN);
    ContainsAnyIff(name, WORKING);
    ContainsAnyIff(name, WAITING);
    ContainsAnyIff(name, RESTING);
  }

  /** A process of that name has a thread of that name. */
  ghost predicate HasThread(all: seq<A.Proc>, pkg: string, name: string) {
    exists i :: 0 <= i < |all| && all[i].name == pkg && name in all[i].threads
  }

  lemma {:induction false} ThreadsOfMembers(all: seq<A.Proc>, n: nat, pkg: string, name: string)
    requires n <= |all|
    ensures name in A.ThreadsOf(all, n, pkg) <==> exists i :: 0 <= i < n && all[i].name == pkg && name in all[i].threads
  {
    if n > 0 { ThreadsOfMembers(all, n - 1, pkg, name); }
  }

  /** The rules of the entry that `save` writes: the package gets the little cluster, its heavy threads
      the big one, those that are neither heavy nor light the middle one if there is one, and no
      other thread gets a rule. */
  lemma SavedRules(c: A.SaveCall, r: Rule)
    ensures A.Keyed(A.NewEntry(c))
    ensures r in EntryRules(A.NewEntry(c), "") <==>
              || r == Rule(c.pkg, "", c.little, "")
              || (HasThread(c.all, c.pkg, r.thread)
                  && (|| (Heavy(r.thread) && r == Rule(c.pkg, r.thread, c.big, ""))
                      || (!Heavy(r.thread) && !Light(r.thread) && c.mid != "" && r == Rule(c.pkg, r.thread, c.mid, ""))))
  {
    var names := A.ThreadsOf(c.all, |c.all|, c.pkg);
    ThreadsOfMembers(c.all, |c.all|, c.pkg, r.thread);
    LoadMeaning(r.thread);
    A.InClusterMembers(names, A.Big, c.mid != "", r.thread);
    A.InClusterMembers(names, A.Mid, c.mid != "", r.thread);
    EntryOfRules(c.pkg, c.big, A.InCluster(names, A.Big, c.mid != ""), c.mid, A.InCluster(names, A.Mid, c.mid != ""), c.little, r);
  }

  lemma EntryOfRules(pkg: string, big: string, bigNames: seq<string>, mid: string, midNames: seq<string>, little: string, r: Rule)
    ensures var e := A.EntryOf(pkg, big, bigNames, mid, midNames, little);
            && A.Keyed(e)
            && (r in EntryRules(e, "") <==>
                  || r == Rule(pkg, "", little, "")
                  || (r.thread in bigNames && r == Rule(pkg, r.thread, big, ""))
                  || (r.thread in midNames && r == Rule(pkg, r.thread, mid, "")))
  {
    var e := A.EntryOf(pkg, big, bigNames, mid, midNames, little);
    assert Texts([Str(pkg)]) == [pkg] + Texts([]);
    EntryRuleSource(e, "", r);
    GroupsGive(pkg, big, bigNames, mid, midNames, r);
    assert Groups(e) == A.CommGroups(big, bigNames, mid, midNames);
  }

  lemma GroupsGive(pkg: string, big: string, bigNames: seq<string>, mid: string, midNames: seq<string>, r: Rule)
    ensures var groups := A.CommGroups(big, bigNames, mid, midNames);
            (exists k :: 0 <= k < |groups| && GroupGives(pkg, groups, k, r)) <==>
              || (r.thread in bigNames && r == Rule(pkg, r.thread, big, ""))
              || (r.thread in midNames && r == Rule(pkg, r.thread, mid, ""))
  {
    var groups := A.CommGroups(big, bigNames, mid, midNames);
    A.StrsMember(bigNames, r.thread);
    A.StrsMember(midNames, r.thread);
    A.StrsMember(bigNames + midNames, r.thread);
    A.FiledInGroups(big, bigNames, mid, midNames, pkg, r.thread);
    assert |groups| <= 2;
  }

  /** The groups of the entry stand in the order of their CPU strings, one for each. */
  lemma GroupsAscend(big: string, bigNames: seq<string>, mid: string, midNames: seq<string>)
    ensures var groups := A.CommGroups(big, bigNames, mid, midNames);
            forall i, j :: 0 <= i < j < |groups| ==> Less(groups[i].0, groups[j].0)
  {
    LessTotal(big, mid);
  }

  /** A blacklisted package: by its end, by its name or by its start. */
  const BLACK_ENDS: seq<string> := [":widgetProvider", ":searchDataService", ":coreService", ":cognitionService", ":bert",
                                    ":bertAlgo", ":privacy", ":kit7", ":services", ":daemon"]
  const BLACK_NAMES: seq<string> := ["android.process.media", "android.process.acore"]
  const BLACK_STARTS: seq<string> := ["com.qualcomm.", ".qti", ".qms", ".cacert", ".dataservices"]

  lemma BlacklistedIff(pkg: string)
    ensures A.IsBlacklisted(pkg) <==>
              || (exists i :: 0 <= i < |BLACK_ENDS| && EndsWith(pkg, BLACK_ENDS[i]))
              || pkg in BLACK_NAMES
              || (exists i :: 0 <= i < |BLACK_STARTS| && BLACK_STARTS[i] <= pkg)
  {
    var e, s := BLACK_ENDS, BLACK_STARTS;
    assert e[0] == ":widgetProvider" && e[1] == ":searchDataService" && e[2] == ":coreService" && e[3] == ":cognitionService"
        && e[4] == ":bert" && e[5] == ":bertAlgo" && e[6] == ":privacy" && e[7] == ":kit7" && e[8] == ":services" && e[9] == ":daemon";
    assert s[0] == "com.qualcomm." && s[1] == ".qti" && s[2] == ".qms" && s[3] == ".cacert" && s[4] == ".dataservices";
  }

  // ----- The whitelist -----

  /** A package's keys: its first 8 bytes and its last 8 bytes, or, if it is shorter, its name filled up
      with NULs; the empty name has none. */
  lemma KeyMeaning(pkg: string, k: string)
    ensures KeyOf(pkg, k) <==>
              && |k| == 8 && pkg != ""
              && if |pkg| >= 8 then k <= pkg || EndsWith(pkg, k)
                 else pkg <= k && forall i :: |pkg| <= i < 8 ==> k[i] == '\0'
  {
    if |pkg| < 8 && |k| == 8 && pkg <= k && forall i :: |pkg| <= i < 8 ==> k[i] == '\0' {
      assert k == pkg + Zeros(8 - |pkg|);
    }
  }

  /** Keys are ordered byte by byte. */
  lemma {:induction false} LessMeaning(a: string, b: string)
    ensures Less(a, b) <==>
              exists i: nat :: i <= |a| && i < |b| && a[..i] == b[..i] && (i == |a| || a[i] < b[i])
  {
    if a == "" || b == "" {
      if b != "" { assert a[..0] == b[..0]; }
    } else {
      LessMeaning(a[1..], b[1..]);
      if a[0] == b[0] {
        LessStep(a, b);
      } else if a[0] < b[0] {
        assert a[..0] == b[..0];
      } else {
        SharedStart(a, b);
      }
    }
  }

  lemma PrefixFirst(a: string, b: string, i: nat)
    requires 0 < i <= |a| && i <= |b| && a[..i] == b[..i]
    ensures a[0] == b[0]
  {
    assert a[..i][0] == b[..i][0];
  }

  lemma SharedStart(a: string, b: string)
    requires a != "" && b != ""
    ensures forall i: nat :: 0 < i <= |a| && i < |b| && a[..i] == b[..i] ==> a[0] == b[0]
  {
    forall i: nat | 0 < i <= |a| && i < |b| && a[..i] == b[..i] ensures a[0] == b[0] { PrefixFirst(a, b, i); }
  }

  lemma LessStep(a: string, b: string)
    requires a != "" && b != "" && a[0] == b[0]
    ensures (exists i: nat :: i <= |a| && i < |b| && a[..i] == b[..i] && (i == |a| || a[i] < b[i])) <==>
            (exists i: nat :: i <= |a[1..]| && i < |b[1..]| && a[1..][..i] == b[1..][..i] && (i == |a[1..]| || a[1..][i] < b[1..][i]))
  {
    if i: nat :| i <= |a| && i < |b| && a[..i] == b[..i] && (i == |a| || a[i] < b[i]) {
      assert a[1..][..i - 1] == a[..i][1..] && b[1..][..i - 1] == b[..i][1..];
    }
    if i: nat :| i <= |a[1..]| && i < |b[1..]| && a[1..][..i] == b[1..][..i] && (i == |a[1..]| || a[1..][i] < b[1..][i]) {
      assert a[..i + 1] == [a[0]] + a[1..][..i] && b[..i + 1] == [b[0]] + b[1..][..i];
    }
  }

  // ----- Which processes are of interest -----

  lemma SplitFirst(s: string, c: char, base: string)
    requires c !in base && (s == base || exists rest :: s == base + [c] + rest)
    ensures Split(s, c)[0] == base
  {
    if s == base {
      SplitWhole(s, c);
    } else {
      var rest :| s == base + [c] + rest;
      SplitAppend(base, rest, c);
      SplitWhole(base, c);
    }
  }

  lemma FirstOfSplit(s: string, c: char)
    ensures var base := Split(s, c)[0]; c !in base && (s == base || exists rest :: s == base + [c] + rest)
  {
    var i := Find(s, c);
    if i.Some? { assert s == s[..i.value] + [c] + s[i.value + 1..]; }
  }

  /** A process is of interest by its name, by the part of its name before the first colon, or by a
      wildcard package that matches its whole name. */
  lemma InterestedIff(pkg: string, cfg: AppConfig)
    ensures Interested(pkg, cfg) <==>
              || pkg in cfg.pkgs
              || (exists base, rest :: base in cfg.pkgs && ':' !in base && pkg == base + ":" + rest)
              || (exists w :: w in cfg.wild && FnMatch(w, pkg))
  {
    var base := Split(pkg, ':')[0];
    FirstOfSplit(pkg, ':');
    forall b, rest | ':' !in b && pkg == b + ":" + rest ensures b == base {
      assert pkg == b + [':'] + rest;
      SplitFirst(pkg, ':', b);
    }
    if base in cfg.pkgs && pkg != base {
      var rest :| pkg == base + [':'] + rest;
      assert pkg == base + ":" + rest;
    }
    forall w ensures w in cfg.wild <==> exists i :: 0 <= i < |cfg.wild| && cfg.wild[i] == w {}
  }
}
