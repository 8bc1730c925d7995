/** The part of regular expressions that the message patterns use, matched against a whole string. */
module Regex {
  datatype Re =
    | Lit(text: string)
    | OneOf(chars: string)
    | Cat(first: Re, second: Re)
    | Or(left: Re, right: Re)
    | Rep(body: Re, lo: nat, hi: nat)
    | Star(body: Re)

  predicate Matches(re: Re, s: string)
    decreases re, 9, 0, 0
  {
    match re
    case Lit(t) => s == t
    case OneOf(cs) => |s| == 1 && s[0] in cs
    case Cat(a, b) => exists k :: 0 <= k <= |s| && Split(re, s, k)
    case Or(a, b) => Matches(a, s) || Matches(b, s)
    case Rep(r, lo, hi) => Times(r, lo, hi, s)
    case Star(r) => Repeated(r, s)
  }

  predicate Split(re: Re, s: string, k: int)
    requires re.Cat? && 0 <= k <= |s|
    decreases re, 1, 0, 0
  {
    Matches(re.first, s[..k]) && Matches(re.second, s[k..])
  }

  /** Between lo and hi copies of r. */
  predicate Times(r: Re, lo: int, hi: nat, s: string)
    decreases r, 10, hi, 1
  {
    (lo <= 0 && s == "") || exists k :: 0 <= k <= |s| && TimesSplit(r, lo, hi, s, k)
  }

  predicate TimesSplit(r: Re, lo: int, hi: nat, s: string, k: int)
    requires 0 <= k <= |s|
    decreases r, 10, hi, 0
  {
    hi > 0 && Matches(r, s[..k]) && Times(r, lo - 1, hi - 1, s[k..])
  }

  /** Any number of non-empty copies of r. */
  predicate Repeated(r: Re, s: string)
    decreases r, 10, |s|, 1
  {
    s == "" || exists k :: 1 <= k <= |s| && RepeatedSplit(r, s, k)
  }

  predicate RepeatedSplit(r: Re, s: string, k: int)
    requires 1 <= k <= |s|
    decreases r, 10, |s|, 0
  {
    Matches(r, s[..k]) && Repeated(r, s[k..])
  }

  lemma CatMatches(a: Re, b: Re, s: string, t: string)
    requires Matches(a, s) && Matches(b, t)
    ensures Matches(Cat(a, b), s + t)
  {
    assert (s + t)[..|s|] == s && (s + t)[|s|..] == t;
    assert Split(Cat(a, b), s + t, |s|);
  }

  lemma CatSplits(a: Re, b: Re, s: string) returns (k: nat)
    requires Matches(Cat(a, b), s)
    ensures k <= |s| && Matches(a, s[..k]) && Matches(b, s[k..]) && s == s[..k] + s[k..]
  {
    k :| 0 <= k <= |s| && Split(Cat(a, b), s, k);
  }

  lemma TimesMatches(r: Re, lo: int, hi: nat, s: string, t: string)
    requires hi > 0 && Matches(r, s) && Times(r, lo - 1, hi - 1, t)
    ensures Times(r, lo, hi, s + t)
  {
    assert (s + t)[..|s|] == s && (s + t)[|s|..] == t;
    assert TimesSplit(r, lo, hi, s + t, |s|);
  }

  lemma StarMatches(r: Re, s: string, t: string)
    requires s != "" && Matches(r, s) && Repeated(r, t)
    ensures Repeated(r, s + t)
  {
    assert (s + t)[..|s|] == s && (s + t)[|s|..] == t;
    assert RepeatedSplit(r, s + t, |s|);
  }
}
