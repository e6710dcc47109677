/**
 The whitelist shared by kernel and userspace: the keys built in src/bpf.rs, the kernel's
 sliding-window filter in ebpf/src/main.rs, and the userspace resolver `comm_to_pkg`.
 A thread name (`comm`) is 16 bytes, a key is 8 bytes.
 */
module Whitelist {
  import opened Strings

  const COMM_LEN: nat := 16
  const KEY_LEN: nat := 8
  const MAP_CAPACITY: nat := 8192

  // ----- Keys -----

  function Zeros(n: nat): (z: string)
    ensures |z| == n && forall i :: 0 <= i < n ==> z[i] == '\0'
  {
    seq(n, _ => '\0')
  }

  /** The first 8 bytes, padded with NULs. */
  function PrefixKey(pkg: string): (k: string)
    ensures |k| == KEY_LEN
  {
    if |pkg| >= KEY_LEN then pkg[..KEY_LEN] else pkg + Zeros(KEY_LEN - |pkg|)
  }

  function SuffixKey(pkg: string): (k: string)
    requires |pkg| > KEY_LEN
    ensures |k| == KEY_LEN
  {
    pkg[|pkg| - KEY_LEN..]
  }

  /** `k` is one of the keys of `pkg`. */
  predicate KeyOf(pkg: string, k: string) {
    (pkg != "" && k == PrefixKey(pkg)) || (|pkg| > KEY_LEN && k == SuffixKey(pkg))
  }

  predicate IsKey(pkgs: seq<string>, k: string) {
    exists i | 0 <= i < |pkgs| :: KeyOf(pkgs[i], k)
  }

  /** The keys of all packages, as a set. */
  function KeySet(pkgs: seq<string>): (ks: set<string>)
    ensures forall k :: k in ks <==> IsKey(pkgs, k)
  {
    var ks := (set i | 0 <= i < |pkgs| && pkgs[i] != "" :: PrefixKey(pkgs[i]))
            + (set i | 0 <= i < |pkgs| && |pkgs[i]| > KEY_LEN :: SuffixKey(pkgs[i]));
    assert forall i :: 0 <= i < |pkgs| ==> forall k :: KeyOf(pkgs[i], k) ==> k in ks;
    ks
  }

  // ----- Byte-wise order of keys -----

  lemma {:induction false} LessIrreflexive(a: string)
    ensures !Less(a, a)
  {
    if a != "" { LessIrreflexive(a[1..]); }
  }

  lemma {:induction false} LessTransitive(a: string, b: string, c: string)
    requires Less(a, b) && Less(b, c)
    ensures Less(a, c)
  {
    if a != "" && a[0] == b[0] == c[0] { LessTransitive(a[1..], b[1..], c[1..]); }
  }

  lemma {:induction false} LessTotal(a: string, b: string)
    ensures Less(a, b) || a == b || Less(b, a)
  {
    if a != "" && b != "" && a[0] == b[0] {
      LessTotal(a[1..], b[1..]);
      assert a == [a[0]] + a[1..] && b == [b[0]] + b[1..];
    }
  }

  predicate AtMost(a: string, b: string) { a == b || Less(a, b) }

  ghost predicate SortedKeys(ks: seq<string>) {
    forall i, j :: 0 <= i < j < |ks| ==> AtMost(ks[i], ks[j])
  }

  ghost predicate Increasing(ks: seq<string>) {
    forall i, j :: 0 <= i < j < |ks| ==> Less(ks[i], ks[j])
  }

  lemma HasMember(ks: seq<string>)
    requires ks != []
    ensures exists k :: k in ks
  {
    assert ks[0] in ks;
  }

  /** A strictly increasing list is determined by its elements. */
  lemma {:induction false} IncreasingUnique(a: seq<string>, b: seq<string>)
    requires Increasing(a) && Increasing(b)
    requires forall k :: k in a <==> k in b
    ensures a == b
  {
    if a == [] {
      if b != [] { HasMember(b); }
    } else {
      assert a[0] in b;
      var i :| 0 <= i < |b| && b[i] == a[0];
      assert b[0] in a;
      var j :| 0 <= j < |a| && a[j] == b[0];
      if i > 0 && j > 0 { LessTransitive(a[0], a[j], a[0]); LessIrreflexive(a[0]); }
      assert a[0] == b[0];
      forall k ensures k in a[1..] <==> k in b[1..] {
        TailMember(a, k);
        TailMember(b, k);
      }
      IncreasingUnique(a[1..], b[1..]);
      assert a == [a[0]] + a[1..] && b == [b[0]] + b[1..];
    }
  }

  /** It has as many elements as entries. */
  lemma {:induction false} IncreasingCard(ks: seq<string>, s: set<string>)
    requires Increasing(ks) && forall k :: k in ks <==> k in s
    ensures |ks| == |s|
  {
    if ks == [] {
      assert s == {};
    } else {
      forall k ensures k in ks[1..] <==> k in s - {ks[0]} { TailMember(ks, k); }
      IncreasingCard(ks[1..], s - {ks[0]});
    }
  }

  lemma TailMember(a: seq<string>, k: string)
    requires Increasing(a) && a != []
    ensures k in a[1..] <==> k in a && k != a[0]
  {
    LessIrreflexive(a[0]);
    assert a == [a[0]] + a[1..];
  }

  // ----- Building the keys -----

  /** The stand-in for `Vec::sort`. */
  method InsertKey(ks: seq<string>, k: string) returns (r: seq<string>)
    requires SortedKeys(ks)
    ensures SortedKeys(r) && multiset(r) == multiset(ks) + multiset{k}
  {
    var i := |ks|;
    while i > 0 && !AtMost(ks[i - 1], k)
      invariant 0 <= i <= |ks|
      invariant forall j :: i <= j < |ks| ==> AtMost(k, ks[j])
    {
      LessTotal(ks[i - 1], k);
      i := i - 1;
    }
    InsertedSorted(ks, k, i);
    InsertedMembers(ks, k, i);
    r := ks[..i] + [k] + ks[i..];
  }

  lemma InsertedMembers(ks: seq<string>, k: string, i: nat)
    requires i <= |ks|
    ensures multiset(ks[..i] + [k] + ks[i..]) == multiset(ks) + multiset{k}
  {
    assert ks == ks[..i] + ks[i..];
  }

  lemma InsertedSorted(ks: seq<string>, k: string, i: nat)
    requires SortedKeys(ks) && i <= |ks|
    requires i > 0 ==> AtMost(ks[i - 1], k)
    requires forall j :: i <= j < |ks| ==> AtMost(k, ks[j])
    ensures SortedKeys(ks[..i] + [k] + ks[i..])
  {
    forall a | 0 <= a < i ensures AtMost(ks[a], k) {
      if a < i - 1 { AtMostTransitive(ks[a], ks[i - 1], k); }
    }
  }

  lemma AtMostTransitive(a: string, b: string, c: string)
    requires AtMost(a, b) && AtMost(b, c)
    ensures AtMost(a, c)
  {
    if Less(a, b) && Less(b, c) { LessTransitive(a, b, c); }
  }

  method SortKeys(ks: seq<string>) returns (r: seq<string>)
    ensures SortedKeys(r) && multiset(r) == multiset(ks)
  {
    r := [];
    for i := 0 to |ks|
      invariant SortedKeys(r) && multiset(r) == multiset(ks[..i])
    {
      assert ks[..i + 1] == ks[..i] + [ks[i]];
      r := InsertKey(r, ks[i]);
    }
    assert ks[..|ks|] == ks;
  }

  /** `Vec::dedup`: drops elements equal to the one before them. */
  method DedupKeys(ks: seq<string>) returns (r: seq<string>)
    requires SortedKeys(ks)
    ensures Increasing(r) && |r| <= |ks|
    ensures forall k :: k in r <==> k in ks
  {
    r := [];
    for i := 0 to |ks|
      invariant |r| <= i && (i > 0 ==> r != [] && r[|r| - 1] == ks[i - 1])
      invariant Increasing(r)
      invariant forall k :: k in r <==> k in ks[..i]
    {
      assert ks[..i + 1] == ks[..i] + [ks[i]];
      if i == 0 || ks[i] != ks[i - 1] {
        IncreasingSnoc(r, ks[i]);
        r := r + [ks[i]];
      }
    }
    assert ks[..|ks|] == ks;
  }

  lemma IncreasingSnoc(r: seq<string>, k: string)
    requires Increasing(r) && (r != [] ==> Less(r[|r| - 1], k))
    ensures Increasing(r + [k])
  {
    forall i | 0 <= i < |r| ensures Less(r[i], k) {
      if i < |r| - 1 { LessTransitive(r[i], r[|r| - 1], k); }
    }
  }

  /** The keys one package pushes. */
  function PushedKeys(pkg: string): (ks: seq<string>)
    ensures |ks| <= 2
    ensures forall k :: k in ks <==> KeyOf(pkg, k)
  {
    if pkg == "" then []
    else if |pkg| > KEY_LEN then [PrefixKey(pkg), SuffixKey(pkg)]
    else [PrefixKey(pkg)]
  }

  lemma IsKeyNext(pkgs: seq<string>, i: nat, k: string)
    requires i < |pkgs|
    ensures IsKey(pkgs[..i + 1], k) <==> IsKey(pkgs[..i], k) || KeyOf(pkgs[i], k)
  {
    var more := pkgs[..i + 1];
    if IsKey(pkgs[..i], k) {
      var j :| 0 <= j < i && KeyOf(pkgs[..i][j], k);
      assert more[j] == pkgs[..i][j];
    }
    if KeyOf(pkgs[i], k) { assert more[i] == pkgs[i]; }
    if IsKey(more, k) {
      var j :| 0 <= j < i + 1 && KeyOf(more[j], k);
      if j < i { assert pkgs[..i][j] == more[j]; }
    }
  }

  method PushKeys(pkgs: seq<string>) returns (entries: seq<string>)
    ensures |entries| <= 2 * |pkgs|
    ensures forall k :: k in entries <==> IsKey(pkgs, k)
  {
    entries := [];
    for i := 0 to |pkgs|
      invariant |entries| <= 2 * i
      invariant forall k :: k in entries <==> IsKey(pkgs[..i], k)
    {
      forall k ensures IsKey(pkgs[..i + 1], k) <==> IsKey(pkgs[..i], k) || KeyOf(pkgs[i], k) { IsKeyNext(pkgs, i, k); }
      var pkg := pkgs[i];
      if pkg == "" { continue; }
      var old_ := entries;
      entries := entries + [PrefixKey(pkg)];
      if |pkg| > KEY_LEN {
        entries := entries + [SuffixKey(pkg)];
      }
      assert entries == old_ + PushedKeys(pkg);
    }
    assert pkgs[..|pkgs|] == pkgs;
  }

  /** `comm_keys_build` */
  method CommKeysBuild(pkgs: seq<string>) returns (entries: seq<string>)
    ensures Increasing(entries)
    ensures forall k :: k in entries <==> IsKey(pkgs, k)
    ensures |entries| == |KeySet(pkgs)| <= 2 * |pkgs|
  {
    var pushed := PushKeys(pkgs);
    var sorted := SortKeys(pushed);
    assert |multiset(sorted)| == |multiset(pushed)|;
    forall k ensures k in sorted <==> k in pushed {
      assert k in multiset(sorted) <==> k in multiset(pushed);
    }
    entries := DedupKeys(sorted);
    IncreasingCard(entries, KeySet(pkgs));
  }

  // ----- The kernel's filter -----

  predicate WindowHit(comm: string, keys: set<string>)
    requires |comm| == COMM_LEN
  {
    exists pos | 0 <= pos <= COMM_LEN - KEY_LEN :: Window(comm, pos) in keys
  }

  function Window(comm: string, pos: nat): string
    requires |comm| == COMM_LEN && pos <= COMM_LEN - KEY_LEN
  {
    comm[pos..pos + KEY_LEN]
  }

  /** `whitelist_matched` */
  method WhitelistMatched(comm: string, keys: set<string>) returns (b: bool)
    requires |comm| == COMM_LEN
    ensures b <==> WindowHit(comm, keys)
  {
    var pos := 0;
    while pos <= COMM_LEN - KEY_LEN
      invariant 0 <= pos <= COMM_LEN - KEY_LEN + 1
      invariant forall p :: 0 <= p < pos ==> Window(comm, p) !in keys
    {
      if comm[pos..pos + KEY_LEN] in keys {
        assert Window(comm, pos) in keys;
        return true;
      }
      pos := pos + 1;
    }
    b := false;
  }

  // ----- The userspace resolver -----

  /** There is a continuation byte at `i`. */
  predicate Continues(s: string, i: nat) {
    i < |s| && 0x80 <= s[i] as int <= 0xBF
  }

  /** Length of the well-formed UTF-8 sequence at the front of `s`, 0 if there is none. */
  function Utf8Head(s: string): (n: nat)
    ensures n <= |s|
  {
    if s == "" then 0
    else
      var a := s[0] as int;
      if a < 0x80 then 1
      else if !Continues(s, 1) then 0
      else if 0xC2 <= a <= 0xDF then 2
      else if !Continues(s, 2) then 0
      else if 0xE0 <= a <= 0xEF then
        (if (a == 0xE0 && s[1] as int < 0xA0) || (a == 0xED && s[1] as int > 0x9F) then 0 else 3)
      else if !Continues(s, 3) then 0
      else if 0xF0 <= a <= 0xF4 then
        (if (a == 0xF0 && s[1] as int < 0x90) || (a == 0xF4 && s[1] as int > 0x8F) then 0 else 4)
      else 0
  }

  predicate ValidUtf8(s: string) {
    s == "" || (Utf8Head(s) > 0 && ValidUtf8(s[Utf8Head(s)..]))
  }

  /** The bytes before the first NUL. */
  function BeforeNul(comm: string): string {
    comm[..Find(comm, '\0').GetOr(|comm|)]
  }

  /** `comm_str` */
  function CommStr(comm: string): string {
    if ValidUtf8(BeforeNul(comm)) then Trim(BeforeNul(comm)) else ""
  }

  function FirstWithPrefix(pkgs: seq<string>, comm: string): (r: Option<string>)
    ensures r.Some? ==> r.value in pkgs && comm <= r.value
    ensures r.None? ==> forall p :: p in pkgs ==> !(comm <= p)
  {
    if pkgs == [] then None
    else if comm <= pkgs[0] then Some(pkgs[0])
    else
      assert forall p :: p in pkgs ==> p == pkgs[0] || p in pkgs[1..];
      FirstWithPrefix(pkgs[1..], comm)
  }

  function FirstWithSuffix(pkgs: seq<string>, comm: string): (r: Option<string>)
    ensures r.Some? ==> r.value in pkgs && EndsWith(r.value, comm)
    ensures r.None? ==> forall p :: p in pkgs ==> !EndsWith(p, comm)
  {
    if pkgs == [] then None
    else if EndsWith(pkgs[0], comm) then Some(pkgs[0])
    else
      assert forall p :: p in pkgs ==> p == pkgs[0] || p in pkgs[1..];
      FirstWithSuffix(pkgs[1..], comm)
  }

  /** A package may be resolved from `comm`: exactly, or from a name of at least 15 bytes that is
      one of its ends. */
  predicate Resolvable(pkg: string, comm: string) {
    pkg == comm || (|comm| >= 15 && (comm <= pkg || EndsWith(pkg, comm)))
  }

  /** `comm_to_pkg` */
  function CommToPkg(comm: string, pkgs: seq<string>): Option<string> {
    if comm in pkgs then Some(comm)
    else if |comm| >= 15 then
      match FirstWithPrefix(pkgs, comm)
      case Some(p) => Some(p)
      case None => FirstWithSuffix(pkgs, comm)
    else None
  }

  /** It finds a resolvable package whenever there is one, preferring an exact name, then a name
      that `comm` starts. */
  lemma CommToPkgFinds(comm: string, pkgs: seq<string>)
    ensures var r := CommToPkg(comm, pkgs);
            && (r.Some? ==> r.value in pkgs && Resolvable(r.value, comm))
            && (r.None? ==> forall p :: p in pkgs ==> !Resolvable(p, comm))
            && (comm in pkgs ==> r == Some(comm))
            && (r.Some? && r.value != comm && !(comm <= r.value) ==> forall p :: p in pkgs ==> !(comm <= p))
  {
    if CommToPkg(comm, pkgs).None? {
      forall p | p in pkgs ensures !Resolvable(p, comm) {
        assert p != comm;
      }
    }
  }

  // ----- No false negatives -----

  lemma TrimIsSlice(s: string)
    ensures var t := Trim(s);
            LeadingSpace(s) + |t| <= |s| && s[LeadingSpace(s)..LeadingSpace(s) + |t|] == t
  {
  }

  lemma SliceOfPrefix(s: string, n: nat, a: nat, b: nat)
    requires a <= b <= n <= |s|
    ensures s[..n][a..b] == s[a..b]
  {
  }

  lemma TrimmedIsSlice(comm: string, raw: string, t: string)
    requires raw <= comm && (t == "" || t == Trim(raw))
    ensures LeadingSpace(raw) + |t| <= |comm| && comm[LeadingSpace(raw)..LeadingSpace(raw) + |t|] == t
  {
    if t != "" {
      TrimIsSlice(raw);
      SliceOfPrefix(comm, |raw|, LeadingSpace(raw), LeadingSpace(raw) + |t|);
    }
  }

  lemma CommStrCases(comm: string)
    ensures BeforeNul(comm) <= comm
    ensures CommStr(comm) == "" || CommStr(comm) == Trim(BeforeNul(comm))
  {
  }

  /** `CommStr` is a stretch of the raw bytes. */
  lemma CommStrIsSlice(comm: string)
    ensures var o, t := LeadingSpace(BeforeNul(comm)), CommStr(comm);
            o + |t| <= |comm| && comm[o..o + |t|] == t
  {
    CommStrCases(comm);
    TrimmedIsSlice(comm, BeforeNul(comm), CommStr(comm));
  }

  lemma HitBy(comm: string, pkgs: seq<string>, keys: set<string>, pkg: string, pos: nat)
    requires |comm| == COMM_LEN && pos <= COMM_LEN - KEY_LEN
    requires forall k :: k in keys <==> IsKey(pkgs, k)
    requires pkg in pkgs && KeyOf(pkg, Window(comm, pos))
    ensures WindowHit(comm, keys)
  {
    var i :| 0 <= i < |pkgs| && pkgs[i] == pkg;
    assert IsKey(pkgs, Window(comm, pos));
  }

  lemma PrefixWindow(comm: string, t: string, o: nat, p: string)
    requires |comm| == COMM_LEN && o + |t| <= |comm| && comm[o..o + |t|] == t && |t| >= KEY_LEN && t <= p
    ensures Window(comm, o) == PrefixKey(p)
  {
    assert Window(comm, o) == t[..KEY_LEN];
    assert p[..KEY_LEN] == t[..KEY_LEN];
  }

  lemma SuffixWindow(comm: string, t: string, o: nat, p: string)
    requires |comm| == COMM_LEN && o + |t| <= |comm| && comm[o..o + |t|] == t && |t| >= KEY_LEN
    requires |p| > KEY_LEN && EndsWith(p, t)
    ensures Window(comm, o + |t| - KEY_LEN) == SuffixKey(p)
  {
    assert Window(comm, o + |t| - KEY_LEN) == t[|t| - KEY_LEN..];
    assert p[|p| - |t|..][|t| - KEY_LEN..] == p[|p| - KEY_LEN..];
  }

  /** Wherever a long name stands in the 16 bytes, it hits a key of a package it resolves to. */
  lemma LongNameHits(comm: string, t: string, o: nat, p: string, pkgs: seq<string>, keys: set<string>)
    requires |comm| == COMM_LEN && o + |t| <= |comm| && comm[o..o + |t|] == t && |t| >= KEY_LEN
    requires forall k :: k in keys <==> IsKey(pkgs, k)
    requires p in pkgs && Resolvable(p, t)
    ensures WindowHit(comm, keys)
  {
    if t <= p {
      PrefixWindow(comm, t, o, p);
      HitBy(comm, pkgs, keys, p, o);
    } else {
      SuffixWindow(comm, t, o, p);
      HitBy(comm, pkgs, keys, p, o + |t| - KEY_LEN);
    }
  }

  /** A shorter name hits its own key where NULs follow it, if it starts early enough. */
  lemma ShortNameHits(comm: string, t: string, o: nat, pkgs: seq<string>, keys: set<string>)
    requires |comm| == COMM_LEN && o <= COMM_LEN - KEY_LEN && 0 < |t| < KEY_LEN
    requires comm[o..o + |t|] == t && forall i :: o + |t| <= i < |comm| ==> comm[i] == '\0'
    requires forall k :: k in keys <==> IsKey(pkgs, k)
    requires t in pkgs
    ensures WindowHit(comm, keys)
  {
    assert Window(comm, o) == PrefixKey(t);
    HitBy(comm, pkgs, keys, t, o);
  }

  lemma NameHits(comm: string, t: string, o: nat, pkgs: seq<string>, keys: set<string>)
    requires |comm| == COMM_LEN && o + |t| <= |comm| && comm[o..o + |t|] == t
    requires || |t| >= KEY_LEN
             || (t != "" && o <= COMM_LEN - KEY_LEN && forall i :: o + |t| <= i < |comm| ==> comm[i] == '\0')
    requires forall k :: k in keys <==> IsKey(pkgs, k)
    requires CommToPkg(t, pkgs).Some?
    ensures WindowHit(comm, keys)
  {
    CommToPkgFinds(t, pkgs);
    if |t| >= KEY_LEN {
      LongNameHits(comm, t, o, CommToPkg(t, pkgs).value, pkgs, keys);
    } else {
      ShortNameHits(comm, t, o, pkgs, keys);
    }
  }

  /** For names of 8 bytes or more the kernel filter passes every comm the resolver accepts,
      whatever surrounds the name in the 16 bytes. */
  lemma LongNamesAdmitted(comm: string, pkgs: seq<string>, keys: set<string>)
    requires |comm| == COMM_LEN
    requires forall k :: k in keys <==> IsKey(pkgs, k)
    requires CommToPkg(CommStr(comm), pkgs).Some? && |CommStr(comm)| >= KEY_LEN
    ensures WindowHit(comm, keys)
  {
    CommStrIsSlice(comm);
    NameHits(comm, CommStr(comm), LeadingSpace(BeforeNul(comm)), pkgs, keys);
  }

  /** The bytes from the first NUL on are all NUL. */
  ghost predicate NulPadded(comm: string) {
    forall i :: |BeforeNul(comm)| <= i < |comm| ==> comm[i] == '\0'
  }

  /** A name without surrounding blanks is what stands before the first NUL. */
  lemma PlainName(comm: string)
    requires ValidUtf8(BeforeNul(comm)) && Trim(BeforeNul(comm)) == BeforeNul(comm)
    ensures CommStr(comm) == BeforeNul(comm) <= comm
  {
  }

  /** The prefilter has no false negatives on names as the kernel stores them. */
  lemma PrefilterHasNoFalseNegatives(comm: string, pkgs: seq<string>, keys: set<string>)
    requires |comm| == COMM_LEN && NulPadded(comm)
    requires ValidUtf8(BeforeNul(comm)) && BeforeNul(comm) != "" && Trim(BeforeNul(comm)) == BeforeNul(comm)
    requires forall k :: k in keys <==> IsKey(pkgs, k)
    requires CommToPkg(CommStr(comm), pkgs).Some?
    ensures WindowHit(comm, keys)
  {
    PlainName(comm);
    NameHits(comm, BeforeNul(comm), 0, pkgs, keys);
  }

  // ----- Exactly which names the filter never loses -----

  /** Userspace accepts the 16 bytes as a package name, but the kernel drops them. */
  predicate Lost(comm: string, pkgs: seq<string>)
    requires |comm| == COMM_LEN
  {
    CommToPkg(CommStr(comm), pkgs).Some? && !WindowHit(comm, KeySet(pkgs))
  }

  /** The trimmed name is as long as a key, or it ends the stored name and starts early enough for a
      window. */
  predicate FitsWindow(comm: string) {
    var raw, t := BeforeNul(comm), CommStr(comm);
    |t| >= KEY_LEN || (t != "" && LeadingSpace(raw) + |t| == |raw| && LeadingSpace(raw) <= COMM_LEN - KEY_LEN)
  }

  lemma FittingNameIsKept(comm: string, pkgs: seq<string>)
    requires |comm| == COMM_LEN && NulPadded(comm) && FitsWindow(comm)
    ensures !Lost(comm, pkgs)
  {
    if CommToPkg(CommStr(comm), pkgs).Some? {
      CommStrIsSlice(comm);
      NameHits(comm, CommStr(comm), LeadingSpace(BeforeNul(comm)), pkgs, KeySet(pkgs));
    }
  }

  lemma WideSpaceBytes(s: string)
    requires WideSpace(s)
    ensures forall i :: 1 <= i < |s| ==> 0x80 <= s[i] as int <= 0xBF
  {
  }

  lemma {:induction false} ValidAfterBlanks(s: string)
    requires ValidUtf8(s)
    ensures ValidUtf8(s[LeadingSpace(s)..])
    decreases |s|
  {
    var h := SpaceHead(s);
    if h == 0 {
      assert s[0..] == s;
    } else {
      assert Utf8Head(s) == h;
      ValidAfterBlanks(s[h..]);
      assert s[h..][LeadingSpace(s[h..])..] == s[LeadingSpace(s)..];
    }
  }

  function TrimEnd(s: string): string {
    s[..|s| - TrailingSpace(s)]
  }

  lemma TrimEndStep(s: string)
    ensures SpaceTail(s) == 0 ==> TrimEnd(s) == s
    ensures SpaceTail(s) > 0 ==> TrimEnd(s) == TrimEnd(s[..|s| - SpaceTail(s)])
  {
  }

  lemma {:induction false} NoBlankLeft(s: string)
    ensures SpaceTail(TrimEnd(s)) == 0
    decreases |s|
  {
    TrimEndStep(s);
    if SpaceTail(s) > 0 { NoBlankLeft(s[..|s| - SpaceTail(s)]); }
  }

  lemma FirstByte(u: string)
    requires ValidUtf8(u) && u != ""
    ensures !(0x80 <= u[0] as int <= 0xBF)
  {
  }

  lemma BlankTailByte(u: string)
    requires SpaceTail(u) > 1
    ensures forall i :: |u| - SpaceTail(u) < i < |u| ==> 0x80 <= u[i] as int <= 0xBF
  {
    WideSpaceBytes(u[|u| - SpaceTail(u)..]);
  }

  /** A blank at the end is no longer than the text that is both start and end of the string. */
  lemma BlankTailFits(u: string, t: string)
    requires ValidUtf8(u) && t <= u && t != "" && EndsWith(u, t)
    ensures SpaceTail(u) <= |t|
  {
    FirstByte(u);
    if SpaceTail(u) > 1 {
      BlankTailByte(u);
      assert u[|u| - |t|] == t[0] == u[0];
    }
  }

  lemma SameTail(u: string, t: string)
    requires EndsWith(u, t) && 0 < SpaceTail(u) <= |t|
    ensures SpaceTail(t) > 0
  {
    var k := SpaceTail(u);
    assert t[|t| - k..] == u[|u| - k..];
    assert t[|t| - 1] == u[|u| - 1];
  }

  /** A string with blanks behind it does not end in itself once they are trimmed. */
  lemma TrimmedIsNoEnd(u: string, t: string)
    requires ValidUtf8(u) && t == TrimEnd(u) && t != "" && SpaceTail(u) > 0
    ensures !EndsWith(u, t)
  {
    NoBlankLeft(u);
    if EndsWith(u, t) {
      BlankTailFits(u, t);
      SameTail(u, t);
    }
  }

  lemma NameHasNoNul(comm: string, i: nat)
    requires NulPadded(comm) && i < |comm|
    ensures comm[i] == '\0' <==> i >= |BeforeNul(comm)|
  {
  }

  /** A name and the NUL behind it can only stand at the end of the stored name. */
  lemma NulEndsName(comm: string, pos: nat, n: nat)
    requires NulPadded(comm) && 0 < n && pos + n < |comm|
    requires comm[pos + n - 1] != '\0' && comm[pos + n] == '\0'
    ensures pos + n == |BeforeNul(comm)|
  {
    NameHasNoNul(comm, pos + n - 1);
    NameHasNoNul(comm, pos + n);
  }

  lemma KeyWindow(comm: string, t: string, pos: nat)
    requires |comm| == COMM_LEN && pos <= COMM_LEN - KEY_LEN
    requires 0 < |t| < KEY_LEN && Window(comm, pos) == PrefixKey(t)
    ensures comm[pos..pos + |t|] == t && comm[pos + |t| - 1] == t[|t| - 1] && comm[pos + |t|] == '\0'
  {
    var w := Window(comm, pos);
    assert w[|t| - 1] == comm[pos + |t| - 1] && w[|t|] == comm[pos + |t|];
    assert w[..|t|] == comm[pos..pos + |t|];
  }

  /** A window that is the key of a short name ends the stored name with it. */
  lemma KeyEndsName(comm: string, t: string, pos: nat)
    requires |comm| == COMM_LEN && NulPadded(comm) && pos <= COMM_LEN - KEY_LEN
    requires 0 < |t| < KEY_LEN && '\0' !in t && Window(comm, pos) == PrefixKey(t)
    ensures pos + |t| == |BeforeNul(comm)| && EndsWith(BeforeNul(comm), t)
  {
    KeyWindow(comm, t, pos);
    assert t[|t| - 1] in t;
    NulEndsName(comm, pos, |t|);
    CommStrCases(comm);
    SliceOfPrefix(comm, |BeforeNul(comm)|, pos, pos + |t|);
  }

  lemma EndOfRest(raw: string, n: nat, t: string)
    requires n + |t| <= |raw|
    ensures EndsWith(raw, t) <==> EndsWith(raw[n..], t)
  {
    assert raw[n..][|raw| - n - |t|..] == raw[|raw| - |t|..];
  }

  /** Blanks behind a name keep the stored name from ending in it. */
  lemma BlanksHideName(comm: string)
    requires CommStr(comm) != "" && LeadingSpace(BeforeNul(comm)) + |CommStr(comm)| < |BeforeNul(comm)|
    ensures !EndsWith(BeforeNul(comm), CommStr(comm))
  {
    var raw, t := BeforeNul(comm), CommStr(comm);
    ValidAfterBlanks(raw);
    TrimmedIsNoEnd(raw[LeadingSpace(raw)..], t);
    EndOfRest(raw, LeadingSpace(raw), t);
  }

  lemma NoWindowIsKey(comm: string, pos: nat)
    requires |comm| == COMM_LEN && NulPadded(comm) && !FitsWindow(comm)
    requires CommStr(comm) != "" && pos <= COMM_LEN - KEY_LEN
    ensures Window(comm, pos) != PrefixKey(CommStr(comm))
  {
    var raw, t := BeforeNul(comm), CommStr(comm);
    TrimIsSlice(raw);
    if LeadingSpace(raw) + |t| < |raw| { BlanksHideName(comm); }
    if Window(comm, pos) == PrefixKey(t) { KeyEndsName(comm, t, pos); }
  }

  lemma UnfitNameIsLost(comm: string)
    requires |comm| == COMM_LEN && NulPadded(comm) && !FitsWindow(comm)
    ensures Lost(comm, [CommStr(comm)])
  {
    var t := CommStr(comm);
    forall pos: nat | pos <= COMM_LEN - KEY_LEN ensures Window(comm, pos) !in KeySet([t]) {
      if t != "" { NoWindowIsKey(comm, pos); }
      assert !KeyOf([t][0], Window(comm, pos));
    }
  }

  /** The filter loses a name under some set of packages exactly if the name does not fit. */
  lemma FilterLosesIff(comm: string)
    requires |comm| == COMM_LEN && NulPadded(comm)
    ensures (exists pkgs :: Lost(comm, pkgs)) <==> !FitsWindow(comm)
  {
    if FitsWindow(comm) {
      forall pkgs ensures !Lost(comm, pkgs) { FittingNameIsKept(comm, pkgs); }
    } else {
      UnfitNameIsLost(comm);
    }
  }

  /** A name as the kernel stores it. */
  function Stored(name: string): string
    requires |name| <= COMM_LEN
  {
    name + Zeros(COMM_LEN - |name|)
  }

  lemma StoredName(name: string)
    requires |name| < COMM_LEN && '\0' !in name
    ensures |Stored(name)| == COMM_LEN && BeforeNul(Stored(name)) == name && NulPadded(Stored(name))
  {
    assert Stored(name)[..|name|] == name;
    FindUnique(Stored(name), '\0', |name|);
  }

  lemma AbcBlank()
    ensures ValidUtf8("abc ") && Trim("abc ") == "abc" && LeadingSpace("abc ") == 0
  {
    var s := "abc ";
    assert s[1..] == "bc " && "bc "[1..] == "c " && "c "[1..] == " " && " "[1..] == "";
    assert ValidUtf8("") && ValidUtf8(" ") && ValidUtf8("c ") && ValidUtf8("bc ");
    assert SpaceHead(s) == 0 && s[0..] == s;
    assert SpaceTail(s) == 1 && s[..3] == "abc";
    assert SpaceTail("abc") == 0;
    assert TrailingSpace(s) == 1;
  }

  /** A short name with a trailing blank does not fit: it is resolved by userspace but dropped by the
      kernel. */
  lemma TrailingBlankIsDropped(name: string)
    requires name == "abc "
    ensures NulPadded(Stored(name)) && Lost(Stored(name), ["abc"])
  {
    StoredName(name);
    AbcBlank();
    UnfitNameIsLost(Stored(name));
  }
}
