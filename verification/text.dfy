/** Small string-splitting helpers used to state round trips over the strings the proxy builds. */
module Text {
  import opened Wrappers

  /** Splits `s` at the first occurrence of `c`. */
  function SplitFirst(s: string, c: char): (r: Option<(string, string)>)
    ensures r.Some? ==> s == r.value.0 + [c] + r.value.1 && c !in r.value.0
    ensures r.None? <==> c !in s
  {
    if |s| == 0 then None
    else if s[0] == c then Some(([], s[1..]))
    else
      match SplitFirst(s[1..], c)
      case None => None
      case Some((a, b)) =>
        assert s == [s[0]] + s[1..];
        Some(([s[0]] + a, b))
  }

  /** Splitting a string built around a first `c` recovers its two halves. */
  lemma {:induction false} SplitFirstOf(a: string, c: char, b: string)
    requires c !in a
    ensures SplitFirst(a + [c] + b, c) == Some((a, b))
  {
    var s := a + [c] + b;
    if |a| == 0 {
      assert s == [c] + b;
    } else {
      assert s[0] == a[0];
      assert s[1..] == a[1..] + [c] + b;
      SplitFirstOf(a[1..], c, b);
      assert [a[0]] + a[1..] == a;
    }
  }

  /** The position of the last occurrence of `c` in `s`. */
  function LastIndexOf(s: string, c: char): (r: Option<nat>)
    ensures r.Some? ==> r.value < |s| && s[r.value] == c && c !in s[r.value + 1..]
    ensures r.None? <==> c !in s
  {
    if |s| == 0 then None
    else if s[|s| - 1] == c then Some(|s| - 1)
    else
      var r := LastIndexOf(s[..|s| - 1], c);
      assert s == s[..|s| - 1] + [s[|s| - 1]];
      r
  }

  /** The last `c` of a string whose tail after some `c` is free of `c` is that `c`. */
  lemma {:induction false} LastIndexOfJoin(a: string, c: char, b: string)
    requires c !in b
    ensures LastIndexOf(a + [c] + b, c) == Some(|a|)
    decreases |b|
  {
    var s := a + [c] + b;
    if |b| == 0 {
      assert s == a + [c];
      assert s[|s| - 1] == c;
    } else {
      var b' := b[..|b| - 1];
      assert s[|s| - 1] == b[|b| - 1];
      assert b[|b| - 1] in b;
      assert s[..|s| - 1] == a + [c] + b';
      assert c !in b' by {
        assert forall i :: 0 <= i < |b'| ==> b'[i] == b[i];
      }
      LastIndexOfJoin(a, c, b');
    }
  }

  /** `s` with the prefix `p` removed, when `s` starts with `p`. */
  function StripPrefix(s: string, p: string): (r: Option<string>)
    ensures r.Some? <==> p <= s
    ensures r.Some? ==> p + r.value == s
  {
    if p <= s then Some(s[|p|..]) else None
  }

  /** `s` with the suffix `p` removed, when `s` ends with `p`. */
  function StripSuffix(s: string, p: string): (r: Option<string>)
    ensures r.Some? <==> |p| <= |s| && s[|s| - |p|..] == p
    ensures r.Some? ==> r.value + p == s
  {
    if |p| <= |s| && s[|s| - |p|..] == p then Some(s[..|s| - |p|]) else None
  }

  lemma StripPrefixOf(p: string, t: string)
    ensures StripPrefix(p + t, p) == Some(t)
  {
    assert (p + t)[|p|..] == t;
  }

  lemma StripSuffixOf(t: string, p: string)
    ensures StripSuffix(t + p, p) == Some(t)
  {
    assert (t + p)[|t|..] == p;
    assert (t + p)[..|t|] == t;
  }
}
