/**
 * The subset of Go's `strings` package the service relies on: TrimSpace,
 * ToLower, HasPrefix/HasSuffix, TrimPrefix/TrimSuffix and the first part of
 * SplitN(s, "/", 2). Strings are sequences of Unicode scalar values; white
 * space and letter case are their ASCII subsets.
 */
module Strings {

  /**
   * ASCII white space: tab, line feed, vertical tab, form feed, carriage
   * return and space. Go's unicode.IsSpace also admits U+0085, U+00A0 and the
   * Unicode space separators; those are not modelled.
   */
  predicate IsSpace(c: char) {
    c == ' ' || ('\t' <= c <= '\r')
  }

  /** Every character of `s` is white space (vacuously true of ""). */
  predicate AllSpace(s: string) {
    forall i :: 0 <= i < |s| ==> IsSpace(s[i])
  }

  /** `s` neither starts nor ends with white space. */
  predicate Trimmed(s: string) {
    s == [] || (!IsSpace(s[0]) && !IsSpace(s[|s| - 1]))
  }

  /** Drops the leading run of white space. */
  function TrimLeftSpace(s: string): (r: string)
    ensures |r| <= |s|
    ensures r == [] || !IsSpace(r[0])
  {
    if s != [] && IsSpace(s[0]) then TrimLeftSpace(s[1..]) else s
  }

  /** Drops the trailing run of white space. */
  function TrimRightSpace(s: string): (r: string)
    ensures |r| <= |s|
    ensures r == [] || !IsSpace(r[|r| - 1])
  {
    if s != [] && IsSpace(s[|s| - 1]) then TrimRightSpace(s[..|s| - 1]) else s
  }

  /** What TrimLeftSpace keeps is a suffix of `s`. */
  lemma {:induction false} TrimLeftIsSuffix(s: string)
    ensures TrimLeftSpace(s) == s[|s| - |TrimLeftSpace(s)|..]
  {
    if s != [] && IsSpace(s[0]) {
      TrimLeftIsSuffix(s[1..]);
    }
  }

  /** What TrimRightSpace keeps is a prefix of `s`. */
  lemma {:induction false} TrimRightIsPrefix(s: string)
    ensures TrimRightSpace(s) == s[..|TrimRightSpace(s)|]
  {
    if s != [] && IsSpace(s[|s| - 1]) {
      TrimRightIsPrefix(s[..|s| - 1]);
    }
  }

  /** What TrimLeftSpace drops is white space. */
  lemma {:induction false} TrimLeftDropsSpace(s: string)
    ensures AllSpace(s[..|s| - |TrimLeftSpace(s)|])
  {
    if s != [] && IsSpace(s[0]) {
      var r := TrimLeftSpace(s[1..]);
      TrimLeftDropsSpace(s[1..]);
      TrimLeftIsSuffix(s[1..]);
      AllSpaceAppend([s[0]], s[1..][..|s| - 1 - |r|]);
      assert s[..|s| - |r|] == [s[0]] + s[1..][..|s| - 1 - |r|];
    }
  }

  /** What TrimRightSpace drops is white space. */
  lemma {:induction false} TrimRightDropsSpace(s: string)
    ensures AllSpace(s[|TrimRightSpace(s)|..])
  {
    if s != [] && IsSpace(s[|s| - 1]) {
      var r := TrimRightSpace(s[..|s| - 1]);
      TrimRightDropsSpace(s[..|s| - 1]);
      TrimRightIsPrefix(s[..|s| - 1]);
      AllSpaceAppend(s[..|s| - 1][|r|..], [s[|s| - 1]]);
      assert s[|r|..] == s[..|s| - 1][|r|..] + [s[|s| - 1]];
    }
  }

  /**
   * Go's strings.TrimSpace: drops the leading and the trailing white space.
   * TrimSpaceBlank and TrimSpaceOfPadded below show what it keeps.
   */
  function TrimSpace(s: string): (r: string)
    ensures |r| <= |s|
    ensures Trimmed(r)
  {
    var l := TrimLeftSpace(s);
    TrimRightIsPrefix(l);
    TrimRightSpace(l)
  }

  /** TrimSpace leaves nothing exactly when `s` is all white space. */
  lemma TrimSpaceBlank(s: string)
    ensures TrimSpace(s) == [] <==> AllSpace(s)
  {
    var l := TrimLeftSpace(s);
    var k := |s| - |l|;
    TrimLeftIsSuffix(s);
    if TrimRightSpace(l) == [] {
      TrimLeftDropsSpace(s);
      TrimRightDropsSpace(l);
      assert l[0..] == l;
      assert s == s[..k] + l;
      AllSpaceAppend(s[..k], l);
    } else {
      TrimRightIsPrefix(l);
      assert l[0] == s[k];
    }
  }

  lemma AllSpaceAppend(a: string, b: string)
    requires AllSpace(a) && AllSpace(b)
    ensures AllSpace(a + b)
  {
  }

  /** Go's strings.HasPrefix. */
  predicate HasPrefix(s: string, prefix: string) {
    |prefix| <= |s| && s[..|prefix|] == prefix
  }

  /** Go's strings.HasSuffix. */
  predicate HasSuffix(s: string, suffix: string) {
    |suffix| <= |s| && s[|s| - |suffix|..] == suffix
  }

  /** Go's strings.TrimPrefix: removes `prefix` once if present, else returns `s`. */
  function TrimPrefix(s: string, prefix: string): (r: string)
    ensures HasPrefix(s, prefix) ==> prefix + r == s
    ensures !HasPrefix(s, prefix) ==> r == s
  {
    if HasPrefix(s, prefix) then
      assert s == s[..|prefix|] + s[|prefix|..];
      s[|prefix|..]
    else
      s
  }

  /** Go's strings.TrimSuffix: removes `suffix` once if present, else returns `s`. */
  function TrimSuffix(s: string, suffix: string): (r: string)
    ensures HasSuffix(s, suffix) ==> r + suffix == s
    ensures !HasSuffix(s, suffix) ==> r == s
  {
    if HasSuffix(s, suffix) then
      assert s == s[..|s| - |suffix|] + s[|s| - |suffix|..];
      s[..|s| - |suffix|]
    else
      s
  }

  /**
   * `strings.SplitN(s, "/", 2)[0]`: the text before the first '/', or all of
   * `s` when it has none.
   */
  function FirstSegment(s: string): (r: string)
    ensures '/' !in r
    ensures HasPrefix(s, r)
    ensures |r| == |s| || s[|r|] == '/'
  {
    if s == [] || s[0] == '/' then []
    else
      var r := FirstSegment(s[1..]);
      assert s[..1 + |r|] == [s[0]] + s[1..][..|r|];
      [s[0]] + r
  }

  predicate IsUpper(c: char) {
    'A' <= c <= 'Z'
  }

  /** Maps an ASCII upper-case letter to its lower-case form; other characters are kept. */
  function LowerChar(c: char): char {
    if IsUpper(c) then (c as int - 'A' as int + 'a' as int) as char else c
  }

  /** `s` holds no ASCII upper-case letter. */
  predicate NoUpper(s: string) {
    forall c :: c in s ==> !IsUpper(c)
  }

  /** Go's strings.ToLower, restricted to ASCII letters. */
  function ToLower(s: string): (r: string)
    ensures |r| == |s|
  {
    if s == [] then [] else [LowerChar(s[0])] + ToLower(s[1..])
  }

  // ---------------------------------------------------------------------------
  // Lemmas
  // ---------------------------------------------------------------------------

  /** Lower-casing maps every character through LowerChar. */
  lemma {:induction false} ToLowerAt(s: string, i: nat)
    requires i < |s|
    ensures ToLower(s)[i] == LowerChar(s[i])
  {
    if i > 0 {
      ToLowerAt(s[1..], i - 1);
    }
  }

  /** Lower-casing leaves no upper-case letter. */
  lemma {:induction false} ToLowerNoUpper(s: string)
    ensures NoUpper(ToLower(s))
  {
    if s != [] {
      ToLowerNoUpper(s[1..]);
      assert ToLower(s) == [LowerChar(s[0])] + ToLower(s[1..]);
    }
  }

  /** A string without upper-case letters is its own lower-case form; in particular ToLower is idempotent. */
  lemma {:induction false} ToLowerKeepsLower(s: string)
    requires NoUpper(s)
    ensures ToLower(s) == s
  {
    if s != [] {
      assert s[0] in s;
      assert NoUpper(s[1..]) by {
        forall c | c in s[1..] ensures !IsUpper(c) {
          assert c in s;
        }
      }
      ToLowerKeepsLower(s[1..]);
      assert [s[0]] + s[1..] == s;
    }
  }

  /** A slice of a string without upper-case letters has none either. */
  lemma NoUpperSlice(s: string, i: nat, j: nat)
    requires NoUpper(s) && i <= j <= |s|
    ensures NoUpper(s[i..j])
  {
    forall c | c in s[i..j] ensures !IsUpper(c) {
      var k :| 0 <= k < j - i && s[i..j][k] == c;
      assert s[i + k] == c;
    }
  }

  /** Lower-casing distributes over concatenation. */
  lemma {:induction false} ToLowerAppend(a: string, b: string)
    ensures ToLower(a + b) == ToLower(a) + ToLower(b)
  {
    if a != [] {
      assert (a + b)[1..] == a[1..] + b;
      ToLowerAppend(a[1..], b);
    } else {
      assert a + b == b;
    }
  }

  /**
   * Padding a trimmed string with white space on both sides and trimming
   * again gives it back. Since every string is such a padding of its own
   * trimmed core, this pins TrimSpace down on every input.
   */
  lemma {:induction false} TrimSpaceOfPadded(a: string, m: string, b: string)
    requires AllSpace(a) && AllSpace(b) && Trimmed(m)
    ensures TrimSpace(a + m + b) == m
  {
    if m == [] {
      AllSpaceAppend(a, b);
      assert a + m + b == a + b;
      TrimSpaceBlank(a + b);
    } else {
      assert a + m + b == a + (m + b);
      assert (m + b)[0] == m[0];
      TrimLeftOfPadded(a, m + b);
      TrimRightOfPadded(m, b);
    }
  }

  lemma {:induction false} TrimLeftOfPadded(a: string, t: string)
    requires AllSpace(a)
    requires t != [] && !IsSpace(t[0])
    ensures TrimLeftSpace(a + t) == t
  {
    if a != [] {
      assert (a + t)[1..] == a[1..] + t;
      TrimLeftOfPadded(a[1..], t);
    } else {
      assert a + t == t;
    }
  }

  lemma {:induction false} TrimRightOfPadded(m: string, b: string)
    requires AllSpace(b)
    requires m != [] && !IsSpace(m[|m| - 1])
    ensures TrimRightSpace(m + b) == m
  {
    if b != [] {
      assert (m + b)[..|m + b| - 1] == m + b[..|b| - 1];
      TrimRightOfPadded(m, b[..|b| - 1]);
    } else {
      assert m + b == m;
    }
  }

  /**
   * TrimSpace only removes characters from the ends: what it returns is a
   * contiguous slice of `s`, so every character of it was in `s`.
   */
  lemma TrimSpaceKeepsChars(s: string)
    ensures exists i, j :: 0 <= i <= j <= |s| && TrimSpace(s) == s[i..j]
    ensures forall c :: c in TrimSpace(s) ==> c in s
  {
    var l := TrimLeftSpace(s);
    var r := TrimRightSpace(l);
    TrimLeftIsSuffix(s);
    TrimRightIsPrefix(l);
    var k := |s| - |l|;
    assert r == l[..|r|];
    assert r == s[k..k + |r|];
    forall c | c in r ensures c in s {
      var i :| 0 <= i < |r| && r[i] == c;
      assert l[i] == c;
      assert s[|s| - |l| + i] == c;
    }
  }

  /** TrimSpace is idempotent. */
  lemma TrimSpaceIdempotent(s: string)
    ensures TrimSpace(TrimSpace(s)) == TrimSpace(s)
  {
    var t := TrimSpace(s);
    assert [] + t + [] == t;
    TrimSpaceOfPadded([], t, []);
  }

  /**
   * Trimming a string that starts with a non-space `u` only touches its
   * trailing white space: the result is `u` followed by a prefix of `v`.
   */
  lemma TrimSpaceKeepsHead(u: string, v: string)
    requires u != [] && !IsSpace(u[0]) && !IsSpace(u[|u| - 1])
    ensures var t := TrimSpace(u + v); |u| <= |t| && t == u + v[..|t| - |u|]
  {
    TrimLeftOfPadded([], u + v);
    assert [] + (u + v) == u + v;
    TrimRightKeepsHead(u, v);
    TrimRightIsPrefix(u + v);
    var t := TrimSpace(u + v);
    assert t == (u + v)[..|t|];
    assert (u + v)[..|t|] == u + v[..|t| - |u|];
  }

  lemma {:induction false} TrimRightKeepsHead(u: string, v: string)
    requires u != [] && !IsSpace(u[|u| - 1])
    ensures HasPrefix(TrimRightSpace(u + v), u)
  {
    if v != [] && IsSpace(v[|v| - 1]) {
      assert (u + v)[..|u + v| - 1] == u + v[..|v| - 1];
      TrimRightKeepsHead(u, v[..|v| - 1]);
    } else {
      assert (u + v)[..|u|] == u;
    }
  }

  /** The first segment of `h + rest` is `h` when `h` has no '/' and `rest` is empty or starts a path. */
  lemma {:induction false} FirstSegmentOf(h: string, rest: string)
    requires '/' !in h
    requires rest == [] || rest[0] == '/'
    ensures FirstSegment(h + rest) == h
  {
    if h == [] {
      assert h + rest == rest;
    } else {
      assert (h + rest)[0] == h[0];
      assert (h + rest)[1..] == h[1..] + rest;
      FirstSegmentOf(h[1..], rest);
      assert [h[0]] + h[1..] == h;
    }
  }
}
