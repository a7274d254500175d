/**
  `strings.TrimSpace`, which `getExternalIP` applies to the body of the IP-echo
  reply (main.go:213). Go's version trims every Unicode white-space character;
  this model trims the six ASCII ones.
*/
module Whitespace {

  /** ASCII white space as Go's `unicode.IsSpace` sees it: space, tab, newline, vertical tab, form feed, carriage return. */
  predicate IsSpace(c: char)
  {
    c == ' ' || c == '\t' || c == '\n' || c == '\U{000B}' || c == '\U{000C}' || c == '\r'
  }

  predicate AllSpace(s: string)
  {
    forall i :: 0 <= i < |s| ==> IsSpace(s[i])
  }

  /** Neither the first nor the last character is white space. */
  predicate Trimmed(s: string)
  {
    |s| == 0 || (!IsSpace(s[0]) && !IsSpace(s[|s| - 1]))
  }

  /** Drops leading white space: what remains is a suffix of `s`, everything dropped
      was white space, and what remains does not start with white space. */
  function TrimLeft(s: string): (r: string)
    ensures |r| <= |s| && r == s[|s| - |r|..]
    ensures AllSpace(s[..|s| - |r|])
    ensures r == [] || !IsSpace(r[0])
    decreases |s|
  {
    if |s| > 0 && IsSpace(s[0]) then
      var r := TrimLeft(s[1..]);
      assert s[..|s| - |r|] == [s[0]] + s[1..][..|s[1..]| - |r|];
      r
    else s
  }

  /** Drops trailing white space: what remains is a prefix of `s`, everything dropped
      was white space, and what remains does not end with white space. */
  function TrimRight(s: string): (r: string)
    ensures |r| <= |s| && r == s[..|r|]
    ensures AllSpace(s[|r|..])
    ensures r == [] || !IsSpace(r[|r| - 1])
    decreases |s|
  {
    if |s| > 0 && IsSpace(s[|s| - 1]) then
      var r := TrimRight(s[..|s| - 1]);
      assert s[|r|..] == s[..|s| - 1][|r|..] + [s[|s| - 1]];
      r
    else s
  }

  /** `m` sits in `s` at offset `i` with only white space before and after it. */
  predicate WhiteSpaceAround(s: string, i: nat, m: string)
  {
    i + |m| <= |s| && s[i..i + |m|] == m && AllSpace(s[..i]) && AllSpace(s[i + |m|..])
  }

  /** `strings.TrimSpace(s)`: a piece of `s` that neither starts nor ends with white
      space, with only white space before and after it in `s`. */
  function TrimSpace(s: string): (r: string)
    ensures Trimmed(r)
    ensures exists i: nat :: WhiteSpaceAround(s, i, r)
  {
    var l := TrimLeft(s);
    var r := TrimRight(l);
    TrimBoth(s, l, r);
    r
  }

  /** Trimming the left of `s`, then the right of what remains, leaves a trimmed
      middle with white space around it. */
  lemma TrimBoth(s: string, l: string, r: string)
    requires l == TrimLeft(s) && r == TrimRight(l)
    ensures Trimmed(r) && WhiteSpaceAround(s, |s| - |l|, r)
  {
    var i := |s| - |l|;
    assert r != [] ==> r[0] == l[0];
    Slices(s, i, l, r);
    assert i + |r| <= |s|;
    assert s[i..i + |r|] == r;
    assert AllSpace(s[..i]);
    assert AllSpace(s[i + |r|..]);
    assert WhiteSpaceAround(s, i, r);
  }

  /** Slicing a suffix of `s` is slicing `s` further on. */
  lemma Slices(s: string, i: nat, l: string, r: string)
    requires i <= |s| && l == s[i..] && |r| <= |l| && r == l[..|r|]
    ensures s[i..i + |r|] == r && s[i + |r|..] == l[|r|..]
  {
  }

  /** Removing leading white space from a white-space prefix leaves what follows it,
      provided that does not itself start with white space. */
  lemma {:induction false} TrimLeftSpaces(p: string, x: string)
    requires AllSpace(p)
    requires x == [] || !IsSpace(x[0])
    ensures TrimLeft(p + x) == x
    decreases |p|
  {
    if |p| > 0 {
      assert (p + x)[1..] == p[1..] + x;
      TrimLeftSpaces(p[1..], x);
    } else {
      assert p + x == x;
    }
  }

  /** The mirror image of TrimLeftSpaces, for a white-space suffix. */
  lemma {:induction false} TrimRightSpaces(x: string, q: string)
    requires AllSpace(q)
    requires x == [] || !IsSpace(x[|x| - 1])
    ensures TrimRight(x + q) == x
    decreases |q|
  {
    if |q| > 0 {
      assert (x + q)[..|x + q| - 1] == x + q[..|q| - 1];
      TrimRightSpaces(x, q[..|q| - 1]);
    } else {
      assert x + q == x;
    }
  }

  /** TrimSpace finds THE trimmed middle: whenever `s` is white space, then a trimmed
      text `m`, then white space, TrimSpace(s) is `m`. */
  lemma TrimSpaceUnique(p: string, m: string, q: string)
    requires AllSpace(p) && AllSpace(q) && Trimmed(m)
    ensures TrimSpace(p + m + q) == m
  {
    if m == [] {
      assert p + m + q == (p + q) + m;
      TrimLeftSpaces(p + q, m);
    } else {
      assert p + m + q == p + (m + q);
      TrimLeftSpaces(p, m + q);
      TrimRightSpaces(m, q);
    }
  }

  /** A text with no outer white space is left as it is. */
  lemma TrimSpaceKeepsTrimmed(m: string)
    requires Trimmed(m)
    ensures TrimSpace(m) == m
  {
    assert [] + m == m && m + [] == m;
    TrimLeftSpaces([], m);
    TrimRightSpaces(m, []);
  }

  /** Trimming twice is trimming once. */
  lemma TrimSpaceIdempotent(s: string)
    ensures TrimSpace(TrimSpace(s)) == TrimSpace(s)
  {
    TrimSpaceKeepsTrimmed(TrimSpace(s));
  }

  /** The trailing newline of an IP-echo reply is removed. */
  lemma TrimSpaceDropsNewline()
    ensures TrimSpace("198.51.100.4\n") == "198.51.100.4"
  {
    assert "198.51.100.4\n" == [] + "198.51.100.4" + "\n";
    TrimSpaceUnique([], "198.51.100.4", "\n");
  }
}
