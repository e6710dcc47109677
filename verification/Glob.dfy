/**
 src/config.rs, `fnmatch`: the name matcher behind thread rules and package patterns,
 against a recursive glob matcher in which `*` is the only special character.
 */
module Glob {
  import opened Strings

  predicate FnMatch(pat: string, name: string) {
    if pat == "" then false
    else match Find(pat, '*')
         case None => pat == name
         case Some(pos) =>
           && pat[..pos] <= name
           && (pat[pos + 1..] == "" || EndsWith(name[pos..], pat[pos + 1..]))
  }

  /** The reference: every `*` stands for any string. */
  predicate Matches(pat: string, name: string)
    decreases |pat| + |name|
  {
    if pat == "" then name == ""
    else if pat[0] == '*' then Matches(pat[1..], name) || (name != "" && Matches(pat, name[1..]))
    else name != "" && name[0] == pat[0] && Matches(pat[1..], name[1..])
  }

  function Stars(pat: string): nat {
    if pat == "" then 0 else (if pat[0] == '*' then 1 else 0) + Stars(pat[1..])
  }

  /** The pattern with its stars erased: the shortest name it should match. */
  function Erased(pat: string): string {
    if pat == "" then "" else (if pat[0] == '*' then "" else [pat[0]]) + Erased(pat[1..])
  }

  lemma {:induction false} StarFree(s: string)
    ensures Stars(s) == 0 <==> '*' !in s
  {
    if s != "" { StarFree(s[1..]); }
  }

  lemma {:induction false} StarsAppend(a: string, b: string)
    ensures Stars(a + b) == Stars(a) + Stars(b)
  {
    if a == "" {
      assert a + b == b;
    } else {
      assert (a + b)[1..] == a[1..] + b;
      StarsAppend(a[1..], b);
    }
  }

  lemma {:induction false} MatchesLiteral(pre: string, pat: string, name: string)
    requires '*' !in pre
    ensures Matches(pre + pat, name) <==> pre <= name && Matches(pat, name[|pre|..])
  {
    if pre == "" {
      assert pre + pat == pat;
    } else {
      assert (pre + pat)[1..] == pre[1..] + pat;
      if name != "" {
        MatchesLiteral(pre[1..], pat, name[1..]);
        assert pre <= name <==> name[0] == pre[0] && pre[1..] <= name[1..];
        if pre <= name { assert name[1..][|pre| - 1..] == name[|pre|..]; }
      }
    }
  }

  lemma MatchesItself(s: string)
    requires '*' !in s
    ensures forall name :: Matches(s, name) <==> name == s
  {
    forall name ensures Matches(s, name) <==> name == s {
      MatchesLiteral(s, "", name);
      assert s + "" == s;
      if s <= name && name[|s|..] == "" { assert name == s; }
    }
  }

  /** A star takes any number of characters, one at a time. */
  lemma {:induction false} StarTakes(pat: string, name: string, k: nat)
    requires pat != "" && pat[0] == '*' && k <= |name| && Matches(pat[1..], name[k..])
    ensures Matches(pat, name)
  {
    if k > 0 {
      assert name[1..][k - 1..] == name[k..];
      StarTakes(pat, name[1..], k - 1);
    }
  }

  lemma EndsWithTail(name: string, suf: string, k: nat)
    requires k <= |name| && EndsWith(name[k..], suf)
    ensures EndsWith(name, suf)
  {
    assert name[|name| - |suf|..] == name[k..][|name| - k - |suf|..];
  }

  lemma EndsWithChars(name: string, suf: string, c: char)
    requires EndsWith(name, suf) && c in suf
    ensures c in name
  {
    assert c in name[|name| - |suf|..];
  }

  lemma {:induction false} StarThenSuffix(pat: string, name: string)
    requires pat != "" && pat[0] == '*' && '*' !in pat[1..]
    ensures Matches(pat, name) <==> EndsWith(name, pat[1..])
  {
    var suf := pat[1..];
    MatchesItself(suf);
    if EndsWith(name, suf) {
      StarTakes(pat, name, |name| - |suf|);
    } else if name != "" {
      StarThenSuffix(pat, name[1..]);
      if EndsWith(name[1..], suf) { EndsWithTail(name, suf, 1); }
    }
  }

  /** Splitting a pattern at its first star. */
  lemma FirstStar(pat: string, pos: nat)
    requires Find(pat, '*') == Some(pos)
    ensures '*' !in pat[..pos] && pat[pos..][0] == '*' && pat[pos..][1..] == pat[pos + 1..]
    ensures pat == pat[..pos] + pat[pos..]
    ensures Stars(pat) == 1 + Stars(pat[pos + 1..])
  {
    assert pat == pat[..pos] + pat[pos..];
    StarFree(pat[..pos]);
    StarsAppend(pat[..pos], pat[pos..]);
  }

  /** With at most one star, `fnmatch` is the glob matcher. */
  lemma FnMatchIsGlob(pat: string, name: string)
    requires pat != "" && Stars(pat) <= 1
    ensures FnMatch(pat, name) <==> Matches(pat, name)
  {
    match Find(pat, '*')
    case None =>
      MatchesItself(pat);
    case Some(pos) =>
      FirstStar(pat, pos);
      StarFree(pat[pos + 1..]);
      MatchesLiteral(pat[..pos], pat[pos..], name);
      if pat[..pos] <= name {
        StarThenSuffix(pat[pos..], name[pos..]);
      }
  }

  /** A glob pattern matches itself read as a name, since each star may take one star. */
  lemma {:induction false} MatchesOwnText(pat: string)
    ensures Matches(pat, pat)
  {
    if pat != "" {
      MatchesOwnText(pat[1..]);
      if pat[0] == '*' { StarTakes(pat, pat, 1); }
    }
  }

  lemma StarThenText(pat: string, tail: string)
    requires pat != "" && pat[0] == '*' && (pat[1..] == "" || EndsWith(tail, pat[1..]))
    ensures Matches(pat, tail)
  {
    MatchesOwnText(pat[1..]);
    if pat[1..] == "" {
      assert tail[|tail|..] == "";
      StarTakes(pat, tail, |tail|);
    } else {
      StarTakes(pat, tail, |tail| - |pat[1..]|);
    }
  }

  /** Whatever the number of stars, `fnmatch` accepts no name the glob rejects. */
  lemma FnMatchWithinGlob(pat: string, name: string)
    requires FnMatch(pat, name)
    ensures Matches(pat, name)
  {
    match Find(pat, '*')
    case None =>
      MatchesItself(pat);
    case Some(pos) =>
      FirstStar(pat, pos);
      MatchesLiteral(pat[..pos], pat[pos..], name);
      StarThenText(pat[pos..], name[pos..]);
  }

  lemma {:induction false} ErasedMatches(pat: string)
    ensures Matches(pat, Erased(pat)) && '*' !in Erased(pat)
  {
    if pat != "" {
      ErasedMatches(pat[1..]);
      if pat[0] == '*' {
        assert Erased(pat) == Erased(pat[1..]);
      } else {
        assert Erased(pat)[1..] == Erased(pat[1..]);
      }
    }
  }

  lemma NoSuchSuffix(name: string, pos: nat, suf: string)
    requires '*' in suf && '*' !in name
    ensures pos <= |name| ==> !EndsWith(name[pos..], suf)
  {
    if pos <= |name| && EndsWith(name[pos..], suf) {
      EndsWithTail(name, suf, pos);
      EndsWithChars(name, suf, '*');
    }
  }

  /** A second star is literal to `fnmatch`, so a name without stars is never matched. */
  lemma SecondStarIsLiteral(pat: string, name: string)
    requires Stars(pat) >= 2 && '*' !in name
    ensures !FnMatch(pat, name)
  {
    StarFree(pat);
    var pos := Find(pat, '*').value;
    FirstStar(pat, pos);
    var suf := pat[pos + 1..];
    StarFree(suf);
    NoSuchSuffix(name, pos, suf);
  }

  /** `fnmatch` is the glob matcher exactly for the non-empty patterns with at most one star. */
  lemma FnMatchIsGlobIff(pat: string)
    ensures (forall name :: FnMatch(pat, name) <==> Matches(pat, name)) <==> pat != "" && Stars(pat) <= 1
  {
    if pat == "" {
      assert Matches(pat, "") && !FnMatch(pat, "");
    } else if Stars(pat) <= 1 {
      forall name { FnMatchIsGlob(pat, name); }
    } else {
      ErasedMatches(pat);
      SecondStarIsLiteral(pat, Erased(pat));
    }
  }

  /** Every non-empty string matches itself, stars and all. */
  lemma FnMatchReflexive(pat: string)
    ensures FnMatch(pat, pat) <==> pat != ""
  {
    if Find(pat, '*').Some? {
      var pos := Find(pat, '*').value;
      var suf := pat[pos + 1..];
      assert pat[pos..][1..] == suf;
      assert EndsWith(pat[pos..], suf);
    }
  }
}
