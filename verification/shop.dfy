/**
 * The two host normalisers of the session middleware: the shop host named by
 * the token's issuer (`iss`) and the one named by its destination (`dest`).
 * The middleware accepts a token only when both are non-empty and equal.
 */
module ShopDomain {
  import opened Wrappers
  import opened Strings

  const HttpsScheme: string := "https://"
  const HttpScheme: string := "http://"

  /**
   * The shop host named by an issuer URL: lower-cased and trimmed first, then
   * stripped of an "https://" and then an "http://" prefix, then cut at the
   * first '/'.
   */
  function HostFromIssuer(issuer: string): (host: string)
    ensures '/' !in host
  {
    var s := TrimSpace(ToLower(issuer));
    var s := TrimPrefix(s, HttpsScheme);
    var s := TrimPrefix(s, HttpScheme);
    FirstSegment(s)
  }

  datatype ShopDomainError = EmptyShopDomain

  /**
   * The shop host named by a destination URL: trimmed, stripped of an
   * "https://" and then an "http://" prefix (case-sensitively), stripped of
   * one trailing '/', and lower-cased last. Fails when nothing is left.
   */
  function ExtractShopDomain(shopURL: string): (r: Result<string, ShopDomainError>)
    ensures r.Success? ==> r.value != ""
  {
    var s := TrimSpace(shopURL);
    var s := TrimPrefix(s, HttpsScheme);
    var s := TrimPrefix(s, HttpScheme);
    var s := TrimSuffix(s, "/");
    if s == "" then Failure(EmptyShopDomain) else Success(ToLower(s))
  }

  /** A destination that is empty or only white space names no shop. */
  lemma BlankDestinationFails(shopURL: string)
    requires AllSpace(shopURL)
    ensures ExtractShopDomain(shopURL) == Failure(EmptyShopDomain)
  {
    TrimSpaceBlank(shopURL);
  }

  /**
   * The trimmed destinations `ExtractShopDomain` rejects: the ones that
   * nothing is left of once "https://", then "http://", then one trailing
   * '/' are stripped.
   */
  const EmptyDestinations: set<string> :=
    {"", "/", "http://", "http:///", "https://", "https:///", "https://http://", "https://http:///"}

  /** Stripping one trailing '/' leaves nothing exactly of "" and "/". */
  lemma TrimSlashEmpty(s: string)
    ensures TrimSuffix(s, "/") == "" <==> s == "" || s == "/"
  {
    if HasSuffix(s, "/") {
      assert s == TrimSuffix(s, "/") + "/";
    }
  }

  /** `s` is `p` followed by `t`, told by length and by the characters after `p`. */
  lemma SplitAfter(s: string, p: string, t: string)
    requires HasPrefix(s, p) && |s| == |p| + |t|
    requires forall i :: 0 <= i < |t| ==> s[|p| + i] == t[i]
    ensures s == p + t
  {
    assert s == s[..|p|] + s[|p|..];
  }

  /** Stripping "http://" and one trailing '/' leaves nothing exactly of the EmptyAfterHttps. */
  lemma StripHttpEmpty(s: string)
    ensures TrimSuffix(TrimPrefix(s, HttpScheme), "/") == "" <==> s in EmptyAfterHttps
  {
    var t := TrimPrefix(s, HttpScheme);
    TrimSlashEmpty(t);
    if HasPrefix(s, HttpScheme) {
      assert s == HttpScheme + t;
      if s == "http://" {
        assert t == "";
      } else if s == "http:///" {
        assert t == "/" by { assert t[0] == s[7]; }
      }
      if t == "/" {
        SplitAfter("http:///", HttpScheme, "/");
      }
    } else {
      assert t == s;
      assert HasPrefix("http://", HttpScheme);
      SplitAfter("http:///", HttpScheme, "/");
    }
  }

  /** The text left of an EmptyDestinations member once "https://" is stripped. */
  const EmptyAfterHttps: set<string> := {"", "/", "http://", "http:///"}

  /** Behind "https://", the EmptyDestinations are those whose rest is in EmptyAfterHttps. */
  lemma HttpsPrefixedEmpty(t: string)
    ensures HttpsScheme + t in EmptyDestinations <==> t in EmptyAfterHttps
  {
    var s := HttpsScheme + t;
    assert s[4] == 's' && |s| >= 8;
    SplitAfter("https://", HttpsScheme, "");
    SplitAfter("https:///", HttpsScheme, "/");
    SplitAfter("https://http://", HttpsScheme, "http://");
    SplitAfter("https://http:///", HttpsScheme, "http:///");
  }

  /** Without "https://" in front, the EmptyDestinations are the EmptyAfterHttps. */
  lemma UnprefixedEmpty(s: string)
    requires !HasPrefix(s, HttpsScheme)
    ensures s in EmptyDestinations <==> s in EmptyAfterHttps
  {
    assert HasPrefix("https://", HttpsScheme);
    SplitAfter("https:///", HttpsScheme, "/");
    SplitAfter("https://http://", HttpsScheme, "http://");
    SplitAfter("https://http:///", HttpsScheme, "http:///");
  }

  /** Stripping both schemes and one trailing '/' leaves nothing exactly of the EmptyDestinations. */
  lemma StripSchemesEmpty(s: string)
    ensures TrimSuffix(TrimPrefix(TrimPrefix(s, HttpsScheme), HttpScheme), "/") == "" <==> s in EmptyDestinations
  {
    var t := TrimPrefix(s, HttpsScheme);
    StripHttpEmpty(t);
    if HasPrefix(s, HttpsScheme) {
      HttpsPrefixedEmpty(t);
    } else {
      UnprefixedEmpty(s);
    }
  }

  /**
   * `extractShopDomain` fails exactly when the trimmed destination is one of
   * the EmptyDestinations, and succeeds with a non-empty host otherwise.
   */
  lemma ExtractShopDomainFails(shopURL: string)
    ensures ExtractShopDomain(shopURL).Failure? <==> TrimSpace(shopURL) in EmptyDestinations
  {
    StripSchemesEmpty(TrimSpace(shopURL));
  }

  /** A plain host name: non-empty, with no '/', ':' or white space in it. */
  predicate ValidHost(h: string) {
    h != [] && forall c :: c in h ==> c != '/' && c != ':' && !IsSpace(c)
  }

  // ---------------------------------------------------------------------------
  // Lemmas
  // ---------------------------------------------------------------------------

  /** Lower-casing a plain host name gives a plain host name. */
  lemma LowerValidHost(h: string)
    requires ValidHost(h)
    ensures ValidHost(ToLower(h))
  {
    var lh := ToLower(h);
    forall c | c in lh ensures c != '/' && c != ':' && !IsSpace(c) {
      var i :| 0 <= i < |lh| && lh[i] == c;
      ToLowerAt(h, i);
      assert h[i] in h;
    }
  }

  /** The issuer host never holds an upper-case letter. */
  lemma IssuerHostIsLowerCase(issuer: string)
    ensures NoUpper(HostFromIssuer(issuer))
  {
    var lowered := ToLower(issuer);
    ToLowerNoUpper(issuer);
    TrimSpaceKeepsChars(lowered);
    var s0 := TrimSpace(lowered);
    var s1 := TrimPrefix(s0, HttpsScheme);
    var s2 := TrimPrefix(s1, HttpScheme);
    assert s1 == s0[|s0| - |s1|..|s0|];
    NoUpperSlice(s0, |s0| - |s1|, |s0|);
    assert s2 == s1[|s1| - |s2|..|s1|];
    NoUpperSlice(s1, |s1| - |s2|, |s1|);
    var host := FirstSegment(s2);
    assert host == s2[0..|host|];
    NoUpperSlice(s2, 0, |host|);
  }

  /** The destination host, when there is one, never holds an upper-case letter. */
  lemma DestinationHostIsLowerCase(shopURL: string)
    ensures ExtractShopDomain(shopURL).Success? ==> NoUpper(ExtractShopDomain(shopURL).value)
  {
    var s := TrimSuffix(TrimPrefix(TrimPrefix(TrimSpace(shopURL), HttpsScheme), HttpScheme), "/");
    ToLowerNoUpper(s);
  }

  /**
   * A plain host name followed by nothing or by a path does not start with
   * `scheme` when `scheme` has a ':' at position `k` and no '/' up to it.
   */
  lemma NotPrefixedBy(h: string, rest: string, scheme: string, k: nat)
    requires ValidHost(h)
    requires rest == [] || rest[0] == '/'
    requires k < |scheme| && scheme[k] == ':'
    requires forall i :: 0 <= i <= k ==> scheme[i] != '/'
    ensures !HasPrefix(h + rest, scheme)
  {
    var s := h + rest;
    if |h| > k {
      assert s[k] == h[k] && h[k] in h;
    } else if |s| > |h| {
      assert s[|h|] == '/';
    }
  }

  /** A plain host name followed by nothing or by a path does not start with a URL scheme. */
  lemma NoSchemePrefix(h: string, rest: string)
    requires ValidHost(h)
    requires rest == [] || rest[0] == '/'
    ensures !HasPrefix(h + rest, HttpsScheme) && !HasPrefix(h + rest, HttpScheme)
  {
    NotPrefixedBy(h, rest, HttpsScheme, 5);
    NotPrefixedBy(h, rest, HttpScheme, 4);
  }

  /**
   * Stripping "https://" and then "http://" removes exactly the scheme `ls`
   * in front of a text that itself starts with neither.
   */
  lemma StripSchemeOf(ls: string, x: string)
    requires ls == HttpsScheme || ls == HttpScheme || ls == ""
    requires !HasPrefix(x, HttpsScheme) && !HasPrefix(x, HttpScheme)
    ensures TrimPrefix(TrimPrefix(ls + x, HttpsScheme), HttpScheme) == x
  {
    if ls == HttpsScheme {
      assert ls + x == HttpsScheme + x;
    } else if ls == HttpScheme {
      assert (ls + x)[4] != HttpsScheme[4];
    } else {
      assert ls + x == x;
    }
  }

  /**
   * Past trimming, the issuer pipeline strips a lower-case scheme and cuts
   * the path, leaving the host.
   */
  lemma StripIssuerOf(ls: string, lh: string, w: string)
    requires ls == HttpsScheme || ls == HttpScheme || ls == ""
    requires ValidHost(lh)
    requires w == [] || w[0] == '/'
    ensures FirstSegment(TrimPrefix(TrimPrefix(ls + lh + w, HttpsScheme), HttpScheme)) == lh
  {
    NoSchemePrefix(lh, w);
    FirstSegmentOf(lh, w);
    assert ls + lh + w == ls + (lh + w);
    StripSchemeOf(ls, lh + w);
  }

  /**
   * Lower-casing and trimming an issuer URL that names a plain host leaves
   * the lower-case scheme and host followed by nothing or by a path `w`.
   */
  lemma LowerTrimIssuerOf(scheme: string, h: string, path: string) returns (w: string)
    requires ToLower(scheme) == HttpsScheme || ToLower(scheme) == HttpScheme || scheme == ""
    requires ValidHost(h)
    requires path == [] || path[0] == '/'
    ensures TrimSpace(ToLower(scheme + h + path)) == ToLower(scheme) + ToLower(h) + w
    ensures w == [] || w[0] == '/'
  {
    var ls, lh, lp := ToLower(scheme), ToLower(h), ToLower(path);
    ToLowerAppend(scheme + h, path);
    ToLowerAppend(scheme, h);
    LowerValidHost(h);
    assert lh[0] in lh && lh[|lh| - 1] in lh;
    var u := ls + lh;
    assert u[|u| - 1] == lh[|lh| - 1];
    assert u[0] == if ls == "" then lh[0] else 'h';
    TrimSpaceKeepsHead(u, lp);
    w := lp[..|TrimSpace(u + lp)| - |u|];
    if w != [] {
      ToLowerAt(path, 0);
    }
  }

  /**
   * The issuer host of a URL naming a plain host is that host, lower-cased,
   * whether the scheme is "https://", "http://" (in any letter case) or
   * absent, and whatever path follows.
   */
  lemma HostFromIssuerOf(scheme: string, h: string, path: string)
    requires ToLower(scheme) == HttpsScheme || ToLower(scheme) == HttpScheme || scheme == ""
    requires ValidHost(h)
    requires path == [] || path[0] == '/'
    ensures HostFromIssuer(scheme + h + path) == ToLower(h)
  {
    var w := LowerTrimIssuerOf(scheme, h, path);
    LowerValidHost(h);
    StripIssuerOf(ToLower(scheme), ToLower(h), w);
  }

  /** A plain host name loses one trailing '/' and nothing else. */
  lemma TrimSlashOf(h: string, tail: string)
    requires ValidHost(h)
    requires tail == "" || tail == "/"
    ensures TrimSuffix(h + tail, "/") == h
  {
    assert h[|h| - 1] in h;
    if tail == "" {
      assert h + tail == h;
    } else {
      assert (h + tail)[..|h|] == h;
    }
  }

  /**
   * Past trimming, the destination pipeline strips a lower-case scheme and
   * one trailing '/', leaving the host.
   */
  lemma StripDestinationOf(scheme: string, h: string, tail: string)
    requires scheme == HttpsScheme || scheme == HttpScheme || scheme == ""
    requires ValidHost(h)
    requires tail == "" || tail == "/"
    ensures TrimSuffix(TrimPrefix(TrimPrefix(scheme + h + tail, HttpsScheme), HttpScheme), "/") == h
  {
    NoSchemePrefix(h, tail);
    assert scheme + h + tail == scheme + (h + tail);
    StripSchemeOf(scheme, h + tail);
    TrimSlashOf(h, tail);
  }

  /** A URL that starts and ends with a non-space character is left alone by trimming. */
  lemma TrimSpaceOfTrimmed(s: string)
    requires Trimmed(s)
    ensures TrimSpace(s) == s
  {
    assert [] + s + [] == s;
    TrimSpaceOfPadded([], s, []);
  }

  /**
   * The destination host of a URL naming a plain host is that host,
   * lower-cased, with a lower-case "https://" or "http://" scheme or none,
   * and with or without one trailing '/'.
   */
  lemma ExtractShopDomainOf(scheme: string, h: string, tail: string)
    requires scheme == HttpsScheme || scheme == HttpScheme || scheme == ""
    requires ValidHost(h)
    requires tail == "" || tail == "/"
    ensures ExtractShopDomain(scheme + h + tail) == Success(ToLower(h))
  {
    var s := scheme + h + tail;
    assert h[0] in h && h[|h| - 1] in h;
    assert s[0] == if scheme == "" then h[0] else 'h';
    assert s[|s| - 1] == if tail == "" then h[|h| - 1] else '/';
    TrimSpaceOfTrimmed(s);
    StripDestinationOf(scheme, h, tail);
  }

  /** The destination pipeline leaves an upper-case "HTTPS://" in place. */
  lemma UpperSchemeNotStripped(h: string)
    requires ValidHost(h)
    ensures var s := "HTTPS://" + h;
      TrimSuffix(TrimPrefix(TrimPrefix(TrimSpace(s), HttpsScheme), HttpScheme), "/") == s
  {
    var s := "HTTPS://" + h;
    assert h[|h| - 1] in h;
    assert s[|s| - 1] == h[|h| - 1];
    TrimSpaceOfTrimmed(s);
    assert s[0] != HttpsScheme[0] && s[0] != HttpScheme[0];
  }

  /**
   * The two normalisers treat the scheme's letter case differently: an
   * upper-case "HTTPS://" is stripped from an issuer but kept, lower-cased,
   * in a destination.
   */
  lemma UpperSchemeKeptInDestination(h: string)
    requires ValidHost(h)
    ensures HostFromIssuer("HTTPS://" + h) == ToLower(h)
    ensures ExtractShopDomain("HTTPS://" + h) == Success(HttpsScheme + ToLower(h))
  {
    UpperSchemeLowered();
    assert "HTTPS://" + h + [] == "HTTPS://" + h;
    HostFromIssuerOf("HTTPS://", h, []);
    UpperSchemeNotStripped(h);
    ToLowerAppend("HTTPS://", h);
  }

  /** Lower-casing "HTTPS://" gives the scheme the normalisers strip. */
  lemma UpperSchemeLowered()
    ensures ToLower("HTTPS://") == HttpsScheme
  {
    forall i | 0 <= i < |HttpsScheme| ensures ToLower("HTTPS://")[i] == HttpsScheme[i] {
      ToLowerAt("HTTPS://", i);
    }
  }
}
