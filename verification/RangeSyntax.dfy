/**
 src/cpuset.rs, `parse_cpu_ranges`: what one part of a range string denotes, by its text. White
 space around a part is ignored, a part is a number or two numbers joined by a dash, and what is no
 number is left out.
 */
module RangeSyntax {
  import opened Strings
  import opened CpuSets
  import opened Ranges
  import opened Utf8

  /** A string of digits that `usize` holds; `usize::MAX` itself stands for no number. */
  predicate Number(d: string) {
    d != "" && AllDigits(d) && Value(d) < USIZE_MAX
  }

  /** The number written by the digits. */
  function Value(d: string): nat
    requires AllDigits(d)
  {
    if d == "" then 0 else 10 * Value(d[..|d| - 1]) + DigitValue(d[|d| - 1])
  }

  function DigitValue(c: char): nat
    requires IsDigit(c)
  {
    c as int - '0' as int
  }

  /** A text without a comma, a dash or anything to trim that is no number for `usize`: empty, with a
      character that is no digit, except a plus sign before a digit, or too large. */
  predicate NoNumber(x: string) {
    var digits := if |x| > 1 && x[0] == '+' then x[1..] else x;
    digits == "" || (exists i | 0 <= i < |digits| :: !IsDigit(digits[i])) || (AllDigits(digits) && Value(digits) > USIZE_MAX)
  }

  lemma {:induction false} ValueIsDecValue(d: string)
    requires AllDigits(d)
    ensures Value(d) == DecValue(d)
  {
    if d != "" { ValueIsDecValue(d[..|d| - 1]); }
  }

  lemma ParseDigits(d: string)
    requires d != "" && AllDigits(d) && Value(d) <= USIZE_MAX
    ensures ParseUsize(d) == Some(Value(d))
  {
    ValueIsDecValue(d);
    assert IsDigit(d[0]);
  }

  lemma ParseNoNumber(x: string)
    requires NoNumber(x)
    ensures ParseUsize(x) == None
  {
    var digits := if |x| > 1 && x[0] == '+' then x[1..] else x;
    if AllDigits(digits) { ValueIsDecValue(digits); }
  }

  /** The text is free of the characters that structure a range string. */
  predicate Bare(x: string) { ',' !in x && '-' !in x }

  lemma DigitsAreBare(d: string)
    requires AllDigits(d)
    ensures Bare(d)
  {
  }

  lemma PlainDigit(c: char)
    requires IsDigit(c)
    ensures Plain(c)
  {
  }

  /** White space without a comma, as around a part. */
  ghost predicate Around(w: string) { Blank(w) && ',' !in w }

  /** What a single part denotes, once its text is known. */
  lemma PartDenotes(w: string, core: string, v: string)
    requires Around(w) && Around(v) && ',' !in core && core != "" && Plain(core[0]) && Plain(core[|core| - 1])
    ensures Trim(w + core + v) == core
    ensures forall cpu: nat :: cpu in Parse(w + core + v) <==> cpu < CPU_SETSIZE && InPart(w + core + v, cpu)
  {
    TrimAround(w, core, v);
    forall cpu: nat { ParsePart(w + core + v, cpu); }
  }

  lemma DashAt(a: string, b: string)
    requires '-' !in a
    ensures var part := a + "-" + b;
            Find(part, '-') == Some(|a|) && part[..|a|] == a && part[|a| + 1..] == b
  {
    var part := a + "-" + b;
    assert part[..|a|] == a;
    FindUnique(part, '-', |a|);
  }

  lemma SingleBounds(raw: string, x: string)
    requires Trim(raw) == x != "" && '-' !in x
    ensures PartBounds(raw) == var a := ParseUsize(x).GetOr(USIZE_MAX); if a == USIZE_MAX then None else Some((a, a))
  {
  }

  /** The text of a part with a dash. */
  function Dashed(x: string, y: string): string { x + "-" + y }

  lemma PairBounds(raw: string, x: string, y: string)
    requires Trim(raw) == Dashed(x, y) && '-' !in x
    ensures PartBounds(raw) ==
              var a := ParseUsize(x).GetOr(USIZE_MAX);
              var b := ParseUsize(y).GetOr(a);
              if a == USIZE_MAX then None else if a > b then Some((b, a)) else Some((a, b))
  {
    DashAt(x, y);
  }

  /** A number denotes its CPU, if there is such a CPU; `usize::MAX` denotes nothing. */
  lemma ParseNumber(w: string, d: string, v: string)
    requires Around(w) && Around(v) && d != "" && AllDigits(d) && Value(d) <= USIZE_MAX
    ensures forall cpu: nat :: cpu in Parse(w + d + v) <==> cpu < CPU_SETSIZE && cpu == Value(d)
  {
    DigitsAreBare(d);
    PlainDigit(d[0]);
    PlainDigit(d[|d| - 1]);
    PartDenotes(w, d, v);
    ParseDigits(d);
    SingleBounds(w + d + v, d);
  }

  /** A plus sign before the digits changes nothing. */
  lemma ParsePlus(w: string, d: string, v: string)
    requires Around(w) && Around(v) && d != "" && AllDigits(d) && Value(d) <= USIZE_MAX
    ensures forall cpu: nat :: cpu in Parse(w + ("+" + d) + v) <==> cpu < CPU_SETSIZE && cpu == Value(d)
  {
    var x := "+" + d;
    DigitsAreBare(d);
    assert x[|x| - 1] == d[|d| - 1] && x[1..] == d;
    PlainDigit(d[|d| - 1]);
    PartDenotes(w, x, v);
    ValueIsDecValue(d);
    SingleBounds(w + x + v, x);
  }

  lemma DashedEnds(x: string, y: string)
    requires ',' !in x && ',' !in y && (x == "" || Plain(x[0])) && (y == "" || Plain(y[|y| - 1]))
    ensures var core := Dashed(x, y); ',' !in core && core != "" && Plain(core[0]) && Plain(core[|core| - 1])
  {
    var core := Dashed(x, y);
    assert core[0] == (if x == "" then '-' else x[0]) && core[|core| - 1] == (if y == "" then '-' else y[|y| - 1]);
  }

  /** A part with a dash, by the readings of what stands around it. */
  lemma DashedDenotes(w: string, x: string, y: string, v: string)
    requires Around(w) && Around(v) && Bare(x) && ',' !in y
    requires (x == "" || Plain(x[0])) && (y == "" || Plain(y[|y| - 1]))
    ensures var a := ParseUsize(x).GetOr(USIZE_MAX);
            var b := ParseUsize(y).GetOr(a);
            forall cpu: nat :: cpu in Parse(w + Dashed(x, y) + v) <==>
              cpu < CPU_SETSIZE && a != USIZE_MAX && (a <= cpu <= b || b <= cpu <= a)
  {
    DashedEnds(x, y);
    PartDenotes(w, Dashed(x, y), v);
    PairBounds(w + Dashed(x, y) + v, x, y);
  }

  lemma NumberEnds(d: string)
    requires Number(d)
    ensures Bare(d) && Plain(d[0]) && Plain(d[|d| - 1])
  {
    DigitsAreBare(d);
    PlainDigit(d[0]);
    PlainDigit(d[|d| - 1]);
  }

  /** Two numbers joined by a dash denote the interval between them, in either order. */
  lemma ParseInterval(w: string, d: string, e: string, v: string)
    requires Around(w) && Around(v) && Number(d) && Number(e)
    ensures forall cpu: nat :: cpu in Parse(w + Dashed(d, e) + v) <==>
              cpu < CPU_SETSIZE && (Value(d) <= cpu <= Value(e) || Value(e) <= cpu <= Value(d))
  {
    NumberEnds(d);
    NumberEnds(e);
    ParseDigits(d);
    ParseDigits(e);
    DashedDenotes(w, d, e, v);
  }

  /** If what follows the dash is no number, the part denotes the CPU before the dash alone. */
  lemma ParseOpenInterval(w: string, d: string, x: string, v: string)
    requires Around(w) && Around(v) && Number(d) && NoNumber(x) && ',' !in x && (x == "" || Plain(x[|x| - 1]))
    ensures forall cpu: nat :: cpu in Parse(w + Dashed(d, x) + v) <==> cpu < CPU_SETSIZE && cpu == Value(d)
  {
    NumberEnds(d);
    ParseDigits(d);
    ParseNoNumber(x);
    DashedDenotes(w, d, x, v);
  }

  /** If what stands before the dash, or the part itself, is no number, the part denotes nothing. */
  lemma ParseBadNumber(w: string, x: string, y: string, v: string)
    requires Around(w) && Around(v) && NoNumber(x) && Bare(x) && ',' !in y
    requires (x == "" || Plain(x[0])) && (y == "" || Plain(y[|y| - 1]))
    ensures Parse(w + Dashed(x, y) + v) == {}
  {
    ParseNoNumber(x);
    DashedDenotes(w, x, y, v);
  }

  lemma ParseBadPart(w: string, x: string, v: string)
    requires Around(w) && Around(v) && NoNumber(x) && Bare(x) && x != "" && Plain(x[0]) && Plain(x[|x| - 1])
    ensures Parse(w + x + v) == {}
  {
    PartDenotes(w, x, v);
    ParseNoNumber(x);
    SingleBounds(w + x + v, x);
  }

  /** Blank parts denote nothing. */
  lemma ParseBlank(w: string)
    requires Around(w)
    ensures Parse(w) == {}
  {
    TrimBlank(w);
    forall cpu: nat { ParsePart(w, cpu); }
  }
}
