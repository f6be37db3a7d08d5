/**
 Helpers for splitting datastore paths at '/' separators.
 A segment is what the character class `[^/]+` matches: a non-empty
 run of characters none of which is '/'.
 */
module Segments {
  import opened Wrappers

  /** True when `s` is matched by `[^/]+`. */
  predicate IsSegment(s: string) {
    |s| > 0 && '/' !in s
  }

  /** The rest of `s` after the prefix `p`, if `s` starts with `p`. */
  function StripPrefix(p: string, s: string): (r: Option<string>)
    ensures r.Some? <==> p <= s
    ensures r.Some? ==> s == p + r.value
  {
    if p <= s then
      assert s == s[..|p|] + s[|p|..];
      Some(s[|p|..])
    else None
  }

  /** Stripping a prefix off a concatenation leaves the second part. */
  lemma StripPrefixOfConcat(p: string, t: string)
    ensures StripPrefix(p, p + t) == Some(t)
  {
    assert (p + t)[..|p|] == p;
  }

  /** Concatenation of three parts, regrouped to the right. */
  lemma ConcatAssoc(a: string, b: string, c: string)
    ensures a + b + c == a + (b + c)
  {
  }

  /** Concatenation of four parts, regrouped to the right. */
  lemma ConcatRegroup(a: string, b: string, c: string, d: string)
    ensures a + b + c + d == a + (b + (c + d))
  {
  }

  /** The position of the first '/' in `s`, or `|s|` when there is none. */
  function FirstSlash(s: string): (i: nat)
    ensures i <= |s|
    ensures '/' !in s[..i]
    ensures i < |s| ==> s[i] == '/'
  {
    if s == [] then 0
    else if s[0] == '/' then 0
    else
      var j := FirstSlash(s[1..]);
      assert s[..j + 1] == [s[0]] + s[1..][..j];
      1 + j
  }

  /** In `a + b`, where `a` has no '/' and `b` starts with one, the first '/' is right after `a`. */
  lemma FirstSlashAfterSegment(a: string, b: string)
    requires '/' !in a
    requires |b| > 0 && b[0] == '/'
    ensures FirstSlash(a + b) == |a|
  {
    var s := a + b;
    var i := FirstSlash(s);
    assert s[|a|] == '/';
    assert forall k :: 0 <= k < |a| ==> s[k] == a[k];
    assert i >= |a|;
    assert i <= |a|;
  }

  /**
   Two components free of the delimiter `d` agree when one of them followed
   by `d` is a prefix of the other followed by `d`: a prefix test on
   delimiter boundaries never confuses component `a` with a longer `a...`.
   */
  lemma DelimitedPrefixAgrees(d: char, a: string, b: string, rest: string)
    requires d !in a && d !in b
    requires a + [d] <= b + [d] + rest
    ensures a == b
  {
    var s := b + [d] + rest;
    assert s[|b|] == d && (a + [d])[|a|] == d;
    forall k | 0 <= k < |b| ensures s[k] == b[k] && s[k] != d {
      assert b[k] in b;
    }
    forall k | 0 <= k < |a| ensures s[k] == a[k] && s[k] != d {
      assert a[k] in a;
    }
    assert |a| >= |b|;
    assert |a| <= |b|;
    assert a == (a + [d])[..|a|] == s[..|b|] == b;
  }
}
