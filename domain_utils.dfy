/** `normalizeDomain` (utils/domainUtils.js): a fixed pipeline of string steps
    that turns what a user typed or a CSV cell held into a bare host name. */
module DomainUtils {
  import opened Text

  /** Starts with `http://` or `https://`, in any letter case. */
  predicate HasScheme(s: string) {
    StartsWith(Lower(s), "http://") || StartsWith(Lower(s), "https://")
  }

  /** Starts with `www.`, in any letter case. */
  predicate HasWww(s: string) {
    StartsWith(Lower(s), "www.")
  }

  /** `s.replace(/^(?:https?:\/\/)?/i, '')`: at most one leading scheme goes. */
  function StripScheme(s: string): (r: string)
    ensures HasScheme(s) ==> |r| + 7 <= |s| && r == s[|s| - |r|..]
    ensures !HasScheme(s) ==> r == s
  {
    if StartsWith(Lower(s), "https://") then s[8..]
    else if StartsWith(Lower(s), "http://") then s[7..]
    else s
  }

  /** Drops one leading `www.` in any letter case. */
  function StripWww(s: string): (r: string)
    ensures HasWww(s) ==> r == s[4..]
    ensures !HasWww(s) ==> r == s
  {
    if HasWww(s) then s[4..] else s
  }

  /** `s.split('/')[0].split('?')[0].split('#')[0]` */
  function Cut(s: string): (r: string)
    ensures '/' !in r && '?' !in r && '#' !in r
    ensures r <= s
  {
    BeforeFirst(BeforeFirst(BeforeFirst(s, '/'), '?'), '#')
  }

  /** Drops one trailing `.`. */
  function DropTrailingDot(s: string): (r: string)
    ensures s != [] && s[|s| - 1] == '.' ==> r == s[..|s| - 1]
    ensures s == [] || s[|s| - 1] != '.' ==> r == s
  {
    if s != [] && s[|s| - 1] == '.' then s[..|s| - 1] else s
  }

  /** The steps after the prefixes are gone: cut, lower-case, drop one dot. */
  function HostOf(s: string): (r: string)
    ensures '/' !in r && '?' !in r && '#' !in r
    ensures IsLowerCase(r)
    ensures |r| <= |s|
  {
    DropTrailingDot(Lower(Cut(s)))
  }

  /** `normalizeDomain(url)`; the empty string is the falsy input. */
  function NormalizeDomain(url: string): (r: string)
    ensures url == [] ==> r == []
    ensures '/' !in r && '?' !in r && '#' !in r
    ensures IsLowerCase(r)
    ensures |r| <= |url|
  {
    if url == [] then [] else HostOf(StripWww(StripScheme(Trim(url))))
  }

  /** A domain the pipeline has nothing to do to. */
  predicate IsNormalDomain(d: string) {
    && Trimmed(d)
    && IsLowerCase(d)
    && '/' !in d && '?' !in d && '#' !in d
    && !HasWww(d)
    && (d == [] || d[|d| - 1] != '.')
  }

  lemma SchemeHasSlash(s: string)
    requires HasScheme(s)
    ensures '/' in s
  {
    assert Lower(s)[5] == '/' || Lower(s)[6] == '/';
    assert s[5] == '/' || s[6] == '/';
  }

  /** Surrounding white space never matters: trimming comes first. */
  lemma NormalizeDomainTrimsFirst(url: string)
    ensures NormalizeDomain(url) == NormalizeDomain(Trim(url))
  {
    TrimOfTrimmed(Trim(url));
    if Trim(url) == [] {
      assert StripWww(StripScheme([])) == [];
    }
  }

  /** On an input without surrounding white space the trimming step does nothing. */
  lemma NormalizeDomainOfTrimmed(x: string)
    requires Trimmed(x)
    ensures NormalizeDomain(x) == HostOf(StripWww(StripScheme(x)))
  {
    if x != [] {
      TrimOfTrimmed(x);
    } else {
      assert StripWww(StripScheme(x)) == [];
    }
  }

  /** A string with only the last steps left to act on. */
  predicate IsBody(s: string) {
    Trimmed(s) && '/' !in s && '?' !in s && '#' !in s && !HasWww(s)
  }

  /** On a body the pipeline only lower-cases and drops one trailing dot. */
  lemma NormalizeDomainOfBody(s: string)
    requires IsBody(s)
    ensures NormalizeDomain(s) == DropTrailingDot(Lower(s))
  {
    NormalizeDomainOfTrimmed(s);
    if s != [] {
      if HasScheme(s) {
        SchemeHasSlash(s);
      }
      BeforeFirstAbsent(s, '/');
      BeforeFirstAbsent(s, '?');
      BeforeFirstAbsent(s, '#');
    }
  }

  /** An input that is already normal comes back unchanged. */
  lemma NormalizeDomainFixesNormal(d: string)
    requires IsNormalDomain(d)
    ensures NormalizeDomain(d) == d
  {
    NormalizeDomainOfBody(d);
    LowerOfLowerCase(d);
  }

  /** Only one trailing dot goes: `example.com.` becomes `example.com`, `a..` becomes `a.`. */
  lemma NormalizeDomainDropsOneDot(s: string)
    requires IsBody(s + ".") && IsLowerCase(s)
    ensures NormalizeDomain(s + ".") == s
  {
    NormalizeDomainOfBody(s + ".");
    LowerOfLowerCase(s + ".");
    assert (s + ".")[..|s|] == s;
  }

  lemma NoSchemeUnlessH(t: string)
    requires t != [] && t[0] != 'h'
    ensures !StartsWith(t, "http://") && !StartsWith(t, "https://")
  {
    assert "http://"[0] == 'h' && "https://"[0] == 'h';
  }

  lemma LowerFirst(a: string, b: string)
    requires a != []
    ensures Lower(a + b)[0] == Lower(a)[0]
  {
    assert (a + b)[0] == a[0];
  }

  lemma LowerStartsWith(a: string, b: string, p: string)
    requires StartsWith(Lower(a), p)
    ensures StartsWith(Lower(a + b), p)
  {
    LowerAppend(a, b);
    assert Lower(a + b)[..|p|] == Lower(a)[..|p|];
  }

  lemma SchemePrefixTrimmed(scheme: string, s: string)
    requires Lower(scheme) == "http://" || Lower(scheme) == "https://"
    requires Trimmed(s)
    ensures Trimmed(scheme + s)
  {
    var x := scheme + s;
    assert x[0] == scheme[0];
    assert Lower(scheme)[0] == 'h';
    if s == [] {
      assert x[|x| - 1] == scheme[|scheme| - 1];
      assert Lower(scheme)[|scheme| - 1] == '/';
    }
  }

  lemma SchemePrefixStripped(scheme: string, s: string)
    requires Lower(scheme) == "http://" || Lower(scheme) == "https://"
    ensures StripScheme(scheme + s) == s
  {
    var x := scheme + s;
    assert x[|scheme|..] == s;
    if Lower(scheme) == "https://" {
      LowerStartsWith(scheme, s, "https://");
    } else {
      LowerStartsWith(scheme, s, "http://");
      NotHttps(Lower(x));
    }
  }

  lemma NotHttps(t: string)
    requires StartsWith(t, "http://")
    ensures !StartsWith(t, "https://")
  {
    assert t[4] == t[..7][4] == ':';
  }

  /** One leading scheme is removed, whatever its letter case; the rest of
      the pipeline then sees the input as if it had had none. */
  lemma NormalizeDomainStripsScheme(scheme: string, s: string)
    requires Lower(scheme) == "http://" || Lower(scheme) == "https://"
    requires Trimmed(s) && !HasScheme(s)
    ensures NormalizeDomain(scheme + s) == NormalizeDomain(s)
  {
    SchemePrefixTrimmed(scheme, s);
    SchemePrefixStripped(scheme, s);
    NormalizeDomainOfTrimmed(scheme + s);
    NormalizeDomainOfTrimmed(s);
  }

  lemma WwwPrefixTrimmed(www: string, s: string)
    requires Lower(www) == "www." && Trimmed(s)
    ensures Trimmed(www + s)
  {
    var x := www + s;
    assert x[0] == www[0];
    assert Lower(www)[0] == 'w';
    if s == [] {
      assert x[|x| - 1] == www[|www| - 1];
      assert Lower(www)[|www| - 1] == '.';
    }
  }

  lemma WwwPrefixStripped(www: string, s: string)
    requires Lower(www) == "www."
    ensures StripWww(StripScheme(www + s)) == s
  {
    var x := www + s;
    LowerStartsWith(www, s, "www.");
    LowerFirst(www, s);
    NoSchemeUnlessH(Lower(x));
    assert x[4..] == s;
  }

  /** One leading `www.` is removed, whatever its letter case; a second one
      stays: the rest of the input only goes through the last steps. */
  lemma NormalizeDomainStripsOneWww(www: string, s: string)
    requires Lower(www) == "www."
    requires Trimmed(s) && !HasScheme(s)
    ensures NormalizeDomain(www + s) == HostOf(s)
    ensures !HasWww(s) ==> NormalizeDomain(www + s) == NormalizeDomain(s)
  {
    WwwPrefixTrimmed(www, s);
    WwwPrefixStripped(www, s);
    NormalizeDomainOfTrimmed(www + s);
    NormalizeDomainOfTrimmed(s);
  }

  /** Everything from the first `/`, `?` or `#` on is cut away. */
  lemma CutAtSeparator(x: string, tail: string)
    requires '/' !in x && '?' !in x && '#' !in x
    requires tail == [] || tail[0] in {'/', '?', '#'}
    ensures Cut(x + tail) == x
  {
    var t1 := BeforeFirst(tail, '/');
    var t2 := BeforeFirst(t1, '?');
    var t3 := BeforeFirst(t2, '#');
    BeforeFirstAppend(x, tail, '/');
    BeforeFirstAppend(x, t1, '?');
    BeforeFirstAppend(x, t2, '#');
    assert Cut(x + tail) == x + t3;
    assert t3 == [];
    assert x + [] == x;
  }

  lemma WwwBeforeSeparator(h: string, tail: string)
    requires '/' !in h && '?' !in h && '#' !in h
    requires tail != [] && tail[0] in {'/', '?', '#'}
    ensures HasWww(h + tail) <==> HasWww(h)
  {
    var x := h + tail;
    LowerAppend(h, tail);
    if |h| < 4 {
      assert Lower(x)[|h|] == tail[0];
    } else {
      assert Lower(x)[..4] == Lower(h)[..4];
    }
  }

  lemma PrefixesBeforeSeparator(h: string, tail: string)
    requires '/' !in h && '?' !in h && '#' !in h
    requires tail != [] && tail[0] in {'/', '?', '#'}
    requires !HasScheme(h + tail)
    ensures StripWww(StripScheme(h + tail)) == StripWww(StripScheme(h)) + tail
  {
    WwwBeforeSeparator(h, tail);
    if HasScheme(h) {
      SchemeHasSlash(h);
    }
    if HasWww(h) {
      assert (h + tail)[4..] == h[4..] + tail;
    }
  }

  /** A path, query or fragment after the host never reaches the result. */
  lemma NormalizeDomainCutsTail(h: string, tail: string)
    requires '/' !in h && '?' !in h && '#' !in h
    requires tail == [] || tail[0] in {'/', '?', '#'}
    requires Trimmed(h) && Trimmed(h + tail) && !HasScheme(h + tail)
    ensures NormalizeDomain(h + tail) == NormalizeDomain(h)
  {
    if tail == [] {
      assert h + tail == h;
    } else {
      NormalizeDomainOfTrimmed(h + tail);
      NormalizeDomainOfTrimmed(h);
      PrefixesBeforeSeparator(h, tail);
      var z := StripWww(StripScheme(h));
      StrippedHasNoSeparator(h);
      HostOfCutsTail(z, tail);
    }
  }

  lemma StrippedHasNoSeparator(h: string)
    requires '/' !in h && '?' !in h && '#' !in h
    ensures var z := StripWww(StripScheme(h)); '/' !in z && '?' !in z && '#' !in z
  {
    if HasScheme(h) {
      SchemeHasSlash(h);
    }
  }

  lemma HostOfCutsTail(z: string, tail: string)
    requires '/' !in z && '?' !in z && '#' !in z
    requires tail == [] || tail[0] in {'/', '?', '#'}
    ensures HostOf(z + tail) == HostOf(z)
  {
    CutAtSeparator(z, tail);
    BeforeFirstAbsent(z, '/');
    BeforeFirstAbsent(z, '?');
    BeforeFirstAbsent(z, '#');
  }

  /** The whole pipeline on an input made of white space, a scheme, `www.`,
      a host, a path/query/fragment tail and white space: only the host
      survives, lower-cased and without one trailing dot. The host may itself
      start with `www.`: that second one is kept. */
  lemma NormalizeDomainExtractsHost(pre: string, scheme: string, www: string, host: string, tail: string, post: string)
    requires AllSpace(pre) && AllSpace(post)
    requires Lower(scheme) == "http://" || Lower(scheme) == "https://"
    requires Lower(www) == "www."
    requires '/' !in host && '?' !in host && '#' !in host
    requires tail == [] || tail[0] in {'/', '?', '#'}
    requires Trimmed(host + tail) && !HasScheme(host + tail)
    ensures NormalizeDomain(pre + (scheme + (www + (host + tail))) + post) == DropTrailingDot(Lower(host))
  {
    var whole := scheme + (www + (host + tail));
    NormalizeDomainExtractsHostTrimmed(scheme, www, host, tail);
    NormalizeDomainTrimsFirst(pre + whole + post);
    TrimSurrounded(pre, whole, post);
  }

  /** `NormalizeDomainExtractsHost` without surrounding white space. */
  lemma NormalizeDomainExtractsHostTrimmed(scheme: string, www: string, host: string, tail: string)
    requires Lower(scheme) == "http://" || Lower(scheme) == "https://"
    requires Lower(www) == "www."
    requires '/' !in host && '?' !in host && '#' !in host
    requires tail == [] || tail[0] in {'/', '?', '#'}
    requires Trimmed(host + tail) && !HasScheme(host + tail)
    ensures Trimmed(scheme + (www + (host + tail)))
    ensures NormalizeDomain(scheme + (www + (host + tail))) == DropTrailingDot(Lower(host))
  {
    var rest := host + tail;
    var mid := www + rest;
    WwwPrefixKeepsShape(www, rest);
    SchemePrefixTrimmed(scheme, mid);
    NormalizeDomainStripsScheme(scheme, mid);
    NormalizeDomainStripsOneWww(www, rest);
    CutAtSeparator(host, tail);
  }

  /** `www.` in front of a trimmed, scheme-less string leaves it trimmed and
      scheme-less. */
  lemma WwwPrefixKeepsShape(www: string, rest: string)
    requires Lower(www) == "www."
    requires Trimmed(rest) && !HasScheme(rest)
    ensures Trimmed(www + rest) && !HasScheme(www + rest)
  {
    WwwPrefixTrimmed(www, rest);
    LowerFirst(www, rest);
    assert Lower(www)[0] == 'w';
    NoSchemeUnlessH(Lower(www + rest));
  }

  lemma HostOfNormal(d: string)
    requires IsNormalDomain(d)
    ensures HostOf(d) == d
  {
    BeforeFirstAbsent(d, '/');
    BeforeFirstAbsent(d, '?');
    BeforeFirstAbsent(d, '#');
    LowerOfLowerCase(d);
  }

  lemma HostOfPrefixedNormal(www: string, d: string)
    requires Lower(www) == "www."
    requires IsNormalDomain(d) && d != []
    ensures HostOf(www + d) == Lower(www) + d
  {
    var once := www + d;
    WwwHasNoSeparator(www);
    assert Cut(once) == once by {
      BeforeFirstAbsent(once, '/');
      BeforeFirstAbsent(once, '?');
      BeforeFirstAbsent(once, '#');
    }
    assert Lower(once) == Lower(www) + d by {
      LowerAppend(www, d);
      LowerOfLowerCase(d);
    }
    assert (Lower(www) + d)[|once| - 1] == d[|d| - 1];
  }

  lemma WwwHasNoSeparator(www: string)
    requires Lower(www) == "www."
    ensures '/' !in www && '?' !in www && '#' !in www
  {
    forall k | 0 <= k < |www|
      ensures www[k] != '/' && www[k] != '?' && www[k] != '#'
    {
      assert LowerChar(www[k]) == "www."[k];
    }
  }


  /** `www.` in front of a normal domain is removed. */
  lemma NormalizeDomainStripsWwwOfNormal(www: string, d: string)
    requires Lower(www) == "www."
    requires IsNormalDomain(d)
    ensures NormalizeDomain(www + d) == d
  {
    if HasScheme(d) {
      SchemeHasSlash(d);
    }
    NormalizeDomainStripsOneWww(www, d);
    HostOfNormal(d);
  }

  /** Not idempotent: a doubled `www.` loses one copy per application. */
  lemma NormalizeDomainNotIdempotent(www: string, d: string)
    requires Lower(www) == "www."
    requires IsNormalDomain(d) && d != []
    ensures NormalizeDomain(www + (www + d)) == Lower(www) + d
    ensures NormalizeDomain(NormalizeDomain(www + (www + d))) == d
  {
    var once := www + d;
    WwwPrefixTrimmed(www, d);
    LowerFirst(www, d);
    assert Lower(www)[0] == 'w';
    NoSchemeUnlessH(Lower(once));
    NormalizeDomainStripsOneWww(www, once);
    HostOfPrefixedNormal(www, d);
    var w := Lower(www);
    LowerOfLowerCase(w);
    NormalizeDomainStripsWwwOfNormal(w, d);
  }
}
