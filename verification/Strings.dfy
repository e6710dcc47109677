/**
 A Rust string is modelled by its UTF-8 bytes: a Dafny `string` whose characters are the
 bytes, each below 256. Lengths, slices, prefixes and suffixes are then byte-exact, as in
 Rust, and ASCII literals mean what they say.
 */
module Strings {

  datatype Option<+T> = None | Some(value: T) {
    function GetOr(default: T): T {
      match this
      case Some(v) => v
      case None => default
    }
  }

  const USIZE_MAX: nat := 0xFFFF_FFFF_FFFF_FFFF

  // ----- Searching -----

  predicate EndsWith(s: string, suffix: string) {
    |suffix| <= |s| && s[|s| - |suffix|..] == suffix
  }

  predicate OccursAt(s: string, part: string, i: nat) {
    i + |part| <= |s| && s[i..i + |part|] == part
  }

  predicate Contains(s: string, part: string) {
    exists i | 0 <= i <= |s| :: OccursAt(s, part, i)
  }

  /** Index of the first occurrence of `c`. */
  function Find(s: string, c: char): (r: Option<nat>)
    ensures r.Some? ==> r.value < |s| && s[r.value] == c && c !in s[..r.value]
    ensures r.None? ==> c !in s
  {
    if s == "" then None
    else if s[0] == c then Some(0)
    else match Find(s[1..], c)
         case None => None
         case Some(i) =>
           assert s[..i + 1] == [s[0]] + s[1..][..i];
           Some(i + 1)
  }

  // ----- Byte-wise order -----

  predicate Less(a: string, b: string) {
    b != "" && (a == "" || a[0] < b[0] || (a[0] == b[0] && Less(a[1..], b[1..])))
  }

  // ----- Trimming Unicode white space, on bytes -----

  predicate AsciiSpace(c: char) {
    '\t' <= c <= '\r' || c == ' '
  }

  /** The multi-byte encodings of the White_Space scalars above U+007F. */
  predicate WideSpace(s: string) {
    match |s|
    case 2 => s[0] as int == 0xC2 && (s[1] as int == 0x85 || s[1] as int == 0xA0)
    case 3 =>
      var (a, b, c) := (s[0] as int, s[1] as int, s[2] as int);
      || (a == 0xE1 && b == 0x9A && c == 0x80)
      || (a == 0xE2 && b == 0x80 && (0x80 <= c <= 0x8A || c == 0xA8 || c == 0xA9 || c == 0xAF))
      || (a == 0xE2 && b == 0x81 && c == 0x9F)
      || (a == 0xE3 && b == 0x80 && c == 0x80)
    case _ => false
  }

  /** Number of bytes of the white-space scalar at the front of `s`; 0 if there is none. */
  function SpaceHead(s: string): (n: nat)
    ensures n <= |s|
  {
    if 1 <= |s| && AsciiSpace(s[0]) then 1
    else if 2 <= |s| && WideSpace(s[..2]) then 2
    else if 3 <= |s| && WideSpace(s[..3]) then 3
    else 0
  }

  function SpaceTail(s: string): (n: nat)
    ensures n <= |s|
  {
    if 1 <= |s| && AsciiSpace(s[|s| - 1]) then 1
    else if 2 <= |s| && WideSpace(s[|s| - 2..]) then 2
    else if 3 <= |s| && WideSpace(s[|s| - 3..]) then 3
    else 0
  }

  /** Bytes of white space at the front of `s`. */
  function LeadingSpace(s: string): (n: nat)
    ensures n <= |s|
  {
    var h := SpaceHead(s);
    if h == 0 then 0 else h + LeadingSpace(s[h..])
  }

  function TrailingSpace(s: string): (n: nat)
    ensures n <= |s|
  {
    var t := SpaceTail(s);
    if t == 0 then 0 else t + TrailingSpace(s[..|s| - t])
  }

  /** `str::trim` */
  function Trim(s: string): string {
    var t := s[LeadingSpace(s)..];
    t[..|t| - TrailingSpace(t)]
  }

  /** A plain byte is neither white space nor part of a multi-byte scalar. */
  predicate Plain(c: char) {
    c < (0x80 as char) && !AsciiSpace(c)
  }

  lemma TrimPlainEnds(s: string)
    requires s != "" ==> Plain(s[0]) && Plain(s[|s| - 1])
    ensures Trim(s) == s
  {
    if s != "" {
      assert SpaceHead(s) == 0 && SpaceTail(s) == 0;
    }
    assert s[LeadingSpace(s)..] == s;
  }

  // ----- Splitting -----

  /** `str::split(c)`: always at least one part. */
  function Split(s: string, c: char): (parts: seq<string>)
    ensures |parts| >= 1
  {
    match Find(s, c)
    case None => [s]
    case Some(i) => [s[..i]] + Split(s[i + 1..], c)
  }

  lemma {:induction false} FindUnique(s: string, c: char, i: nat)
    requires i < |s| && s[i] == c && c !in s[..i]
    ensures Find(s, c) == Some(i)
  {
    if i > 0 {
      assert s[0] in s[..i];
      assert forall k :: k in s[1..][..i - 1] ==> k in s[..i];
      FindUnique(s[1..], c, i - 1);
    }
  }

  lemma {:induction false} SplitAppend(a: string, b: string, c: char)
    ensures Split(a + [c] + b, c) == Split(a, c) + Split(b, c)
    decreases |a|
  {
    var s := a + [c] + b;
    match Find(a, c)
    case None =>
      assert s[..|a|] == a;
      FindUnique(s, c, |a|);
      assert s[|a| + 1..] == b;
    case Some(i) =>
      assert s[..i] == a[..i];
      FindUnique(s, c, i);
      assert s[i + 1..] == a[i + 1..] + [c] + b;
      SplitAppend(a[i + 1..], b, c);
  }

  lemma SplitWhole(s: string, c: char)
    requires c !in s
    ensures Split(s, c) == [s]
  {
  }

  // ----- Decimal numbers -----

  predicate IsDigit(c: char) { '0' <= c <= '9' }

  predicate AllDigits(s: string) { forall i :: 0 <= i < |s| ==> IsDigit(s[i]) }

  function DigitChar(d: nat): (c: char)
    requires d < 10
    ensures IsDigit(c) && c as int - '0' as int == d
  {
    ('0' as int + d) as char
  }

  /** `{}` formatting of an unsigned number. */
  function Dec(n: nat): (s: string)
    ensures s != "" && AllDigits(s)
  {
    if n < 10 then [DigitChar(n)] else Dec(n / 10) + [DigitChar(n % 10)]
  }

  function DecValue(s: string): nat
    requires AllDigits(s)
  {
    if s == "" then 0
    else 10 * DecValue(s[..|s| - 1]) + (s[|s| - 1] as int - '0' as int)
  }

  /** `str::parse::<usize>()` on a 64-bit target: an optional plus sign, then digits, in range. */
  function ParseUsize(s: string): Option<nat> {
    var digits := if |s| > 1 && s[0] == '+' then s[1..] else s;
    if digits == "" || !AllDigits(digits) || DecValue(digits) > USIZE_MAX then None
    else Some(DecValue(digits))
  }

  lemma {:induction false} DecValueOfDec(n: nat)
    ensures DecValue(Dec(n)) == n
  {
    if n >= 10 {
      var s := Dec(n);
      assert s[..|s| - 1] == Dec(n / 10);
      DecValueOfDec(n / 10);
    }
  }

  lemma ParseDec(n: nat)
    ensures ParseUsize(Dec(n)) == if n <= USIZE_MAX then Some(n) else None
  {
    DecValueOfDec(n);
    assert IsDigit(Dec(n)[0]);
  }
}
