/**
 The byte-level text functions that Rust's standard library gives the program, against the encoding
 itself: which bytes are UTF-8 (RFC 3629, section 3), and what trimming Unicode white space removes.
 */
module Utf8 {
  import opened Strings
  import opened Whitelist

  // ----- The encoding -----

  predicate Scalar(n: nat) { n < 0xD800 || 0xE000 <= n < 0x11_0000 }

  function Byte(n: nat): char
    requires n < 256
  {
    n as char
  }

  /** The bytes of one Unicode scalar value. */
  function Encode(n: nat): (s: string)
    requires Scalar(n)
    ensures 1 <= |s| <= 4
  {
    if n < 0x80 then [Byte(n)]
    else if n < 0x800 then [Byte(0xC0 + n / 64), Byte(0x80 + n % 64)]
    else if n < 0x1_0000 then [Byte(0xE0 + n / 4096), Byte(0x80 + n / 64 % 64), Byte(0x80 + n % 64)]
    else [Byte(0xF0 + n / 262144), Byte(0x80 + n / 4096 % 64), Byte(0x80 + n / 64 % 64), Byte(0x80 + n % 64)]
  }

  predicate Scalars(ns: seq<nat>) {
    forall i :: 0 <= i < |ns| ==> Scalar(ns[i])
  }

  function EncodeAll(ns: seq<nat>): string
    requires Scalars(ns)
  {
    if ns == [] then "" else Encode(ns[0]) + EncodeAll(ns[1..])
  }

  lemma HeadTwo(a: nat, b: nat, rest: string)
    requires 2 <= a < 32 && b < 64
    ensures Utf8Head([Byte(0xC0 + a), Byte(0x80 + b)] + rest) == 2
  {
    var s := [Byte(0xC0 + a), Byte(0x80 + b)] + rest;
    assert s[0] == Byte(0xC0 + a) && s[1] == Byte(0x80 + b);
  }

  lemma HeadThree(a: nat, b: nat, c: nat, rest: string)
    requires a < 16 && b < 64 && c < 64 && (a == 0 ==> b >= 32) && (a == 13 ==> b < 32)
    ensures Utf8Head([Byte(0xE0 + a), Byte(0x80 + b), Byte(0x80 + c)] + rest) == 3
  {
    var s := [Byte(0xE0 + a), Byte(0x80 + b), Byte(0x80 + c)] + rest;
    assert s[0] == Byte(0xE0 + a) && s[1] == Byte(0x80 + b) && s[2] == Byte(0x80 + c);
  }

  lemma HeadFour(a: nat, b: nat, c: nat, d: nat, rest: string)
    requires a < 5 && b < 64 && c < 64 && d < 64 && (a == 0 ==> b >= 16) && (a == 4 ==> b < 16)
    ensures Utf8Head([Byte(0xF0 + a), Byte(0x80 + b), Byte(0x80 + c), Byte(0x80 + d)] + rest) == 4
  {
    var s := [Byte(0xF0 + a), Byte(0x80 + b), Byte(0x80 + c), Byte(0x80 + d)] + rest;
    assert s[0] == Byte(0xF0 + a) && s[1] == Byte(0x80 + b) && s[2] == Byte(0x80 + c) && s[3] == Byte(0x80 + d);
  }

  lemma TwoRange(n: nat)
    requires 0x80 <= n < 0x800
    ensures 2 <= n / 64 < 32
  {
  }

  lemma ThreeRange(n: nat)
    requires Scalar(n) && 0x800 <= n < 0x1_0000
    ensures var a, b := n / 4096, n / 64 % 64; a < 16 && (a == 0 ==> b >= 32) && (a == 13 ==> b < 32)
  {
    assert n / 64 == 64 * (n / 4096) + n / 64 % 64;
  }

  lemma FourRange(n: nat)
    requires 0x1_0000 <= n < 0x11_0000
    ensures var a, b := n / 262144, n / 4096 % 64; a < 5 && (a == 0 ==> b >= 16) && (a == 4 ==> b < 16)
  {
    assert n / 4096 == 64 * (n / 262144) + n / 4096 % 64;
  }

  /** An encoded scalar value is recognised by its first bytes. */
  lemma HeadOfEncoded(n: nat, rest: string)
    requires Scalar(n)
    ensures Utf8Head(Encode(n) + rest) == |Encode(n)|
  {
    if n < 0x80 {
      assert (Encode(n) + rest)[0] == Byte(n);
    } else if n < 0x800 {
      TwoRange(n);
      HeadTwo(n / 64, n % 64, rest);
    } else if n < 0x1_0000 {
      ThreeRange(n);
      HeadThree(n / 4096, n / 64 % 64, n % 64, rest);
    } else {
      FourRange(n);
      HeadFour(n / 262144, n / 4096 % 64, n / 64 % 64, n % 64, rest);
    }
  }

  /** The scalar value whose encoding the string starts with. */
  function Decoded(s: string): (n: nat)
    requires Utf8Head(s) > 0
    ensures Scalar(n)
  {
    var a := s[0] as int;
    match Utf8Head(s)
    case 1 => a
    case 2 => (a - 0xC0) * 64 + (s[1] as int - 0x80)
    case 3 => (a - 0xE0) * 4096 + (s[1] as int - 0x80) * 64 + (s[2] as int - 0x80)
    case _ => (a - 0xF0) * 262144 + (s[1] as int - 0x80) * 4096 + (s[2] as int - 0x80) * 64 + (s[3] as int - 0x80)
  }

  lemma Split64(a: nat, b: nat)
    requires b < 64
    ensures (a * 64 + b) / 64 == a && (a * 64 + b) % 64 == b
  {
  }

  lemma EncodeTwo(a: nat, b: nat)
    requires 2 <= a < 32 && b < 64
    ensures Scalar(a * 64 + b) && Encode(a * 64 + b) == [Byte(0xC0 + a), Byte(0x80 + b)]
  {
    Split64(a, b);
  }

  lemma EncodeThree(a: nat, b: nat, c: nat)
    requires a < 16 && b < 64 && c < 64 && (a == 0 ==> b >= 32) && (a == 13 ==> b < 32)
    ensures var n := a * 4096 + b * 64 + c;
            Scalar(n) && Encode(n) == [Byte(0xE0 + a), Byte(0x80 + b), Byte(0x80 + c)]
  {
    var n := a * 4096 + b * 64 + c;
    assert n == (a * 64 + b) * 64 + c;
    Split64(a * 64 + b, c);
    Split64(a, b);
    assert n / 4096 == a;
  }

  lemma EncodeFour(a: nat, b: nat, c: nat, d: nat)
    requires a < 5 && b < 64 && c < 64 && d < 64 && (a == 0 ==> b >= 16) && (a == 4 ==> b < 16)
    ensures var n := a * 262144 + b * 4096 + c * 64 + d;
            Scalar(n) && Encode(n) == [Byte(0xF0 + a), Byte(0x80 + b), Byte(0x80 + c), Byte(0x80 + d)]
  {
    var n := a * 262144 + b * 4096 + c * 64 + d;
    assert n == ((a * 64 + b) * 64 + c) * 64 + d;
    Split64((a * 64 + b) * 64 + c, d);
    Split64(a * 64 + b, c);
    Split64(a, b);
    assert n / 4096 == a * 64 + b && n / 262144 == a;
  }

  /** What is recognised is an encoded scalar value. */
  lemma EncodedHead(s: string)
    requires Utf8Head(s) > 0
    ensures Encode(Decoded(s)) == s[..Utf8Head(s)]
  {
    var a := s[0] as int;
    if Utf8Head(s) == 2 {
      EncodeTwo(a - 0xC0, s[1] as int - 0x80);
    } else if Utf8Head(s) == 3 {
      EncodeThree(a - 0xE0, s[1] as int - 0x80, s[2] as int - 0x80);
    } else if Utf8Head(s) == 4 {
      EncodeFour(a - 0xF0, s[1] as int - 0x80, s[2] as int - 0x80, s[3] as int - 0x80);
    }
  }

  /** The string is the encoding of some text. */
  ghost predicate IsEncoding(s: string) {
    exists ns :: Scalars(ns) && s == EncodeAll(ns)
  }

  lemma {:induction false} EncodingIsValid(ns: seq<nat>)
    requires Scalars(ns)
    ensures ValidUtf8(EncodeAll(ns))
  {
    if ns != [] {
      EncodingIsValid(ns[1..]);
      HeadOfEncoded(ns[0], EncodeAll(ns[1..]));
      assert EncodeAll(ns)[|Encode(ns[0])|..] == EncodeAll(ns[1..]);
    }
  }

  lemma EncodeCons(n: nat, rest: seq<nat>)
    requires Scalar(n) && Scalars(rest)
    ensures Scalars([n] + rest) && EncodeAll([n] + rest) == Encode(n) + EncodeAll(rest)
  {
    assert ([n] + rest)[1..] == rest;
  }

  lemma FirstScalar(s: string) returns (n: nat, rest: string)
    requires ValidUtf8(s) && s != ""
    ensures Scalar(n) && s == Encode(n) + rest && ValidUtf8(rest) && |rest| < |s|
  {
    n, rest := Decoded(s), s[Utf8Head(s)..];
    EncodedHead(s);
    assert s == s[..Utf8Head(s)] + rest;
  }

  lemma {:induction false} ValidIsEncoding(s: string) returns (ns: seq<nat>)
    requires ValidUtf8(s)
    ensures Scalars(ns) && s == EncodeAll(ns)
    decreases |s|
  {
    if s == "" {
      ns := [];
    } else {
      var n, rest := FirstScalar(s);
      var more := ValidIsEncoding(rest);
      ns := [n] + more;
      EncodeCons(n, more);
    }
  }

  /** `from_utf8` succeeds exactly for the encodings of texts. */
  lemma ValidUtf8Iff(s: string)
    ensures ValidUtf8(s) <==> IsEncoding(s)
  {
    if ValidUtf8(s) { var ns := ValidIsEncoding(s); }
    if IsEncoding(s) {
      var ns :| Scalars(ns) && s == EncodeAll(ns);
      EncodingIsValid(ns);
    }
  }

  // ----- White space -----

  /** The scalar values with the Unicode property White_Space. */
  predicate WhiteScalar(n: nat) {
    || 9 <= n <= 13 || n == 0x20 || n == 0x85 || n == 0xA0 || n == 0x1680
    || 0x2000 <= n <= 0x200A || n == 0x2028 || n == 0x2029 || n == 0x202F || n == 0x205F || n == 0x3000
  }

  /** The bytes that trimming takes for one white-space scalar. */
  predicate Space(s: string) {
    (|s| == 1 && AsciiSpace(s[0])) || WideSpace(s)
  }

  lemma WhiteIsSpace(n: nat)
    requires WhiteScalar(n)
    ensures Scalar(n) && Space(Encode(n))
  {
    if 0x2000 <= n <= 0x205F { assert n / 4096 == 2; }
  }

  lemma SpaceIsWhite(s: string) returns (n: nat)
    requires Space(s)
    ensures WhiteScalar(n) && Scalar(n) && Encode(n) == s
  {
    if |s| == 1 {
      n := s[0] as int;
    } else if |s| == 2 {
      n := s[1] as int;
    } else {
      n := (s[0] as int - 0xE0) * 4096 + (s[1] as int - 0x80) * 64 + (s[2] as int - 0x80);
    }
  }

  /** They are exactly the encodings of the white-space scalars. */
  lemma SpaceIff(s: string)
    ensures Space(s) <==> exists n :: WhiteScalar(n) && Scalar(n) && s == Encode(n)
  {
    if Space(s) { var n := SpaceIsWhite(s); }
    if n :| WhiteScalar(n) && Scalar(n) && s == Encode(n) { WhiteIsSpace(n); }
  }

  // ----- Trimming -----

  /** The string starts, or ends, with white space. */
  ghost predicate SpaceFirst(s: string) {
    exists e :: Space(e) && e <= s
  }

  ghost predicate SpaceLast(s: string) {
    exists e :: Space(e) && EndsWith(s, e)
  }

  lemma SpaceSize(e: string)
    requires Space(e)
    ensures 1 <= |e| <= 3
    ensures |e| == 1 ==> AsciiSpace(e[0])
    ensures |e| > 1 ==> forall i :: 0 <= i < |e| ==> !AsciiSpace(e[i])
    ensures |e| == 3 ==> !WideSpace(e[..2]) && !WideSpace(e[1..])
  {
  }

  lemma HeadOfSpace(e: string, rest: string)
    requires Space(e)
    ensures SpaceHead(e + rest) == |e|
  {
    SpaceSize(e);
    var s := e + rest;
    assert s[..|e|] == e && s[0] == e[0];
    if |e| == 3 { assert s[..2] == e[..2]; }
  }

  lemma TailOfSpace(before: string, e: string)
    requires Space(e)
    ensures SpaceTail(before + e) == |e|
  {
    SpaceSize(e);
    var s := before + e;
    assert s[|s| - |e|..] == e && s[|s| - 1] == e[|e| - 1];
    if |e| == 3 { assert s[|s| - 2..] == e[1..]; }
  }

  lemma HeadIsSpace(s: string)
    requires SpaceHead(s) > 0
    ensures Space(s[..SpaceHead(s)])
  {
  }

  lemma TailIsSpace(s: string)
    requires SpaceTail(s) > 0
    ensures Space(s[|s| - SpaceTail(s)..])
  {
  }

  lemma HeadOfPrefix(s: string, e: string)
    requires Space(e) && e <= s
    ensures SpaceHead(s) == |e|
  {
    HeadOfSpace(e, s[|e|..]);
    assert s == e + s[|e|..];
  }

  lemma EndSplit(s: string, e: string)
    requires EndsWith(s, e)
    ensures s == s[..|s| - |e|] + e
  {
  }

  lemma TailOfSuffix(s: string, before: string, e: string)
    requires Space(e) && s == before + e
    ensures SpaceTail(s) == |e|
  {
    TailOfSpace(before, e);
  }

  lemma NoSpaceFirst(s: string)
    requires SpaceHead(s) == 0
    ensures !SpaceFirst(s)
  {
    forall e | Space(e) && e <= s ensures SpaceHead(s) == |e| && |e| > 0 {
      HeadOfPrefix(s, e);
      SpaceSize(e);
    }
  }

  lemma NoSpaceLast(s: string)
    requires SpaceTail(s) == 0
    ensures !SpaceLast(s)
  {
    forall e | Space(e) && EndsWith(s, e) ensures SpaceTail(s) == |e| && |e| > 0 {
      EndSplit(s, e);
      TailOfSuffix(s, s[..|s| - |e|], e);
      SpaceSize(e);
    }
  }

  predicate Spaces(parts: seq<string>) {
    forall i :: 0 <= i < |parts| ==> Space(parts[i])
  }

  function Flat(parts: seq<string>): string {
    if parts == [] then "" else parts[0] + Flat(parts[1..])
  }

  /** The string is white space only. */
  ghost predicate Blank(w: string) {
    exists parts :: Spaces(parts) && w == Flat(parts)
  }

  lemma {:induction false} FlatSnoc(parts: seq<string>, e: string)
    ensures Flat(parts + [e]) == Flat(parts) + e
  {
    if parts == [] {
      assert [] + [e] == [e] && [e][1..] == [];
    } else {
      assert (parts + [e])[1..] == parts[1..] + [e];
      FlatSnoc(parts[1..], e);
    }
  }

  lemma BlankCons(e: string, w: string)
    requires Space(e) && Blank(w)
    ensures Blank(e + w)
  {
    var parts :| Spaces(parts) && w == Flat(parts);
    assert ([e] + parts)[1..] == parts;
    assert Spaces([e] + parts) && Flat([e] + parts) == e + w;
  }

  lemma BlankSnoc(w: string, e: string)
    requires Space(e) && Blank(w)
    ensures Blank(w + e)
  {
    var parts :| Spaces(parts) && w == Flat(parts);
    FlatSnoc(parts, e);
    assert Spaces(parts + [e]);
  }

  lemma BlankEmpty()
    ensures Blank("")
  {
    assert Spaces([]) && Flat([]) == "";
  }

  /** The string without its first, or its last, white-space scalar. */
  function Headless(s: string): string { s[SpaceHead(s)..] }

  function Tailless(s: string): string { s[..|s| - SpaceTail(s)] }

  lemma LeadingStep(s: string)
    ensures LeadingSpace(s) == if SpaceHead(s) == 0 then 0 else SpaceHead(s) + LeadingSpace(Headless(s))
  {
  }

  lemma TrailingStep(s: string)
    ensures TrailingSpace(s) == if SpaceTail(s) == 0 then 0 else SpaceTail(s) + TrailingSpace(Tailless(s))
  {
  }

  lemma SplitAt(s: string, k: nat)
    requires k <= |s|
    ensures s == s[..k] + s[k..] && s == s[..|s| - k] + s[|s| - k..]
  {
  }

  lemma ConcatAssoc(a: string, b: string, c: string)
    ensures a + b + c == a + (b + c)
  {
  }

  /** What counts as leading, or trailing, white space is blank, and none is left behind it. */
  lemma {:induction false} LeadingParts(s: string) returns (w: string, rest: string)
    ensures s == w + rest && |w| == LeadingSpace(s) && Blank(w) && SpaceHead(rest) == 0
    decreases |s|
  {
    LeadingStep(s);
    if SpaceHead(s) == 0 {
      w, rest := "", s;
      BlankEmpty();
    } else {
      var e, more := s[..SpaceHead(s)], Headless(s);
      HeadIsSpace(s);
      SplitAt(s, SpaceHead(s));
      w, rest := LeadingParts(more);
      BlankCons(e, w);
      ConcatAssoc(e, w, rest);
      w := e + w;
    }
  }

  lemma {:induction false} TrailingParts(s: string) returns (core: string, v: string)
    ensures s == core + v && |v| == TrailingSpace(s) && Blank(v) && SpaceTail(core) == 0
    decreases |s|
  {
    TrailingStep(s);
    if SpaceTail(s) == 0 {
      core, v := s, "";
      BlankEmpty();
    } else {
      var before, e := Tailless(s), s[|s| - SpaceTail(s)..];
      TailIsSpace(s);
      SplitAt(s, SpaceTail(s));
      core, v := TrailingParts(before);
      BlankSnoc(v, e);
      ConcatAssoc(core, v, e);
      v := v + e;
    }
  }

  lemma TrimIs(s: string, w: string, u: string, core: string, v: string)
    requires s == w + u && |w| == LeadingSpace(s) && u == core + v && |v| == TrailingSpace(u)
    ensures Trim(s) == core
  {
    assert s[|w|..] == u && u[..|u| - |v|] == core;
  }

  /** The string is white space, the trimmed text, and white space, and the text neither starts nor ends
      with white space; nothing is left to trim at the front before the end is trimmed. */
  lemma TrimMeaning(s: string) returns (w: string, v: string)
    ensures s == w + (Trim(s) + v) && Blank(w) && Blank(v)
    ensures !SpaceLast(Trim(s)) && !SpaceFirst(Trim(s) + v)
  {
    var u, core;
    w, u := LeadingParts(s);
    core, v := TrailingParts(u);
    TrimIs(s, w, u, core, v);
    NoSpaceFirst(u);
    NoSpaceLast(core);
  }

  lemma {:induction false} BlankLeads(parts: seq<string>, rest: string)
    requires Spaces(parts) && SpaceHead(rest) == 0
    ensures LeadingSpace(Flat(parts) + rest) == |Flat(parts)|
  {
    if parts == [] {
      assert Flat(parts) + rest == rest;
    } else {
      var e, more := parts[0], Flat(parts[1..]) + rest;
      assert Flat(parts) + rest == e + more;
      BlankLeads(parts[1..], rest);
      SpaceLeads(e, more);
    }
  }

  lemma SpaceLeads(e: string, more: string)
    requires Space(e)
    ensures LeadingSpace(e + more) == |e| + LeadingSpace(more)
  {
    SpaceSize(e);
    HeadOfSpace(e, more);
    assert (e + more)[|e|..] == more;
  }

  lemma SpaceTrails(before: string, e: string)
    requires Space(e)
    ensures TrailingSpace(before + e) == |e| + TrailingSpace(before)
  {
    SpaceSize(e);
    TailOfSpace(before, e);
    assert (before + e)[..|before|] == before;
  }

  lemma {:induction false} BlankTrails(before: string, parts: seq<string>)
    requires Spaces(parts) && SpaceTail(before) == 0
    ensures TrailingSpace(before + Flat(parts)) == |Flat(parts)|
    decreases |parts|
  {
    if parts == [] {
      assert before + Flat(parts) == before;
    } else {
      var init, e := parts[..|parts| - 1], parts[|parts| - 1];
      assert parts == init + [e];
      FlatSnoc(init, e);
      assert before + Flat(parts) == (before + Flat(init)) + e;
      BlankTrails(before, init);
      SpaceTrails(before + Flat(init), e);
    }
  }

  lemma TrimByParts(w: string, core: string, v: string)
    requires LeadingSpace(w + (core + v)) == |w| && TrailingSpace(core + v) == |v|
    ensures Trim(w + (core + v)) == core
  {
    assert (w + (core + v))[|w|..] == core + v && (core + v)[..|core|] == core;
  }

  lemma Reassociate(w: string, core: string, v: string)
    ensures w + core + v == w + (core + v)
  {
  }

  lemma PlainHead(s: string)
    requires s != "" && Plain(s[0])
    ensures SpaceHead(s) == 0
  {
  }

  lemma PlainTail(s: string)
    requires s != "" && Plain(s[|s| - 1])
    ensures SpaceTail(s) == 0
  {
  }

  /** White space around a text with plain ends is trimmed, and nothing else. */
  lemma TrimAround(w: string, core: string, v: string)
    requires Blank(w) && Blank(v) && core != "" && Plain(core[0]) && Plain(core[|core| - 1])
    ensures Trim(w + core + v) == core
  {
    var ws :| Spaces(ws) && w == Flat(ws);
    var vs :| Spaces(vs) && v == Flat(vs);
    assert (core + v)[0] == core[0];
    PlainHead(core + v);
    PlainTail(core);
    BlankLeads(ws, core + v);
    BlankTrails(core, vs);
    TrimByParts(w, core, v);
    Reassociate(w, core, v);
  }

  /** White space alone is trimmed to nothing. */
  lemma TrimBlank(w: string)
    requires Blank(w)
    ensures Trim(w) == ""
  {
    var ws :| Spaces(ws) && w == Flat(ws);
    BlankLeads(ws, "");
    assert Flat(ws) + "" == w;
    assert w[|w|..] == "";
  }

  // ----- `comm_str` -----

  /** The thread's name is the trimmed text before the first NUL, and empty if that is no UTF-8. */
  lemma CommStrMeaning(comm: string, n: nat)
    requires n <= |comm| && '\0' !in comm[..n] && (n == |comm| || comm[n] == '\0')
    ensures CommStr(comm) == if IsEncoding(comm[..n]) then Trim(comm[..n]) else ""
  {
    ValidUtf8Iff(comm[..n]);
    BeforeNulIs(comm, n);
  }

  lemma BeforeNulIs(comm: string, n: nat)
    requires n <= |comm| && '\0' !in comm[..n] && (n == |comm| || comm[n] == '\0')
    ensures BeforeNul(comm) == comm[..n]
  {
    if n < |comm| {
      FindUnique(comm, '\0', n);
    } else {
      assert comm[..n] == comm;
    }
  }
}
