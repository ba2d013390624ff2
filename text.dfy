/** The string operations the scraper relies on, with ASCII semantics:
    `toLowerCase`, `toUpperCase`, `trim`, `includes`, `startsWith`,
    `split(c)[0]`, `replace(/\D/g, '')` and `join`. */
module Text {

  /** `\s` restricted to ASCII: space, tab, line feed, vertical tab, form feed, carriage return. */
  predicate IsSpace(c: char) {
    c == ' ' || c == '\t' || c == '\n' || c == '\r' || c as int == 11 || c as int == 12
  }

  predicate IsDigit(c: char) {
    '0' <= c <= '9'
  }

  predicate IsUpper(c: char) {
    'A' <= c <= 'Z'
  }

  predicate IsLower(c: char) {
    'a' <= c <= 'z'
  }

  function LowerChar(c: char): (d: char)
    ensures !IsUpper(d)
    ensures IsSpace(d) == IsSpace(c) && IsDigit(d) == IsDigit(c)
    ensures !IsUpper(c) ==> d == c
  {
    if IsUpper(c) then (c as int + 32) as char else c
  }

  function UpperChar(c: char): (d: char)
    ensures !IsLower(d)
    ensures !IsLower(c) ==> d == c
    ensures IsLower(c) ==> IsUpper(d)
  {
    if IsLower(c) then (c as int - 32) as char else c
  }

  /** No upper-case letter occurs. */
  predicate IsLowerCase(s: string) {
    forall i :: 0 <= i < |s| ==> !IsUpper(s[i])
  }

  /** `s.toLowerCase()` */
  function Lower(s: string): (r: string)
    ensures |r| == |s| && IsLowerCase(r)
    ensures forall i :: 0 <= i < |s| ==> r[i] == LowerChar(s[i])
  {
    seq(|s|, i requires 0 <= i < |s| => LowerChar(s[i]))
  }

  /** `s.toUpperCase()` */
  function Upper(s: string): (r: string)
    ensures |r| == |s|
    ensures forall i :: 0 <= i < |s| ==> r[i] == UpperChar(s[i])
  {
    seq(|s|, i requires 0 <= i < |s| => UpperChar(s[i]))
  }

  lemma LowerOfLowerCase(s: string)
    requires IsLowerCase(s)
    ensures Lower(s) == s
  {
  }

  lemma LowerAppend(a: string, b: string)
    ensures Lower(a + b) == Lower(a) + Lower(b)
  {
  }

  lemma LowerSlice(s: string, i: nat, j: nat)
    requires i <= j <= |s|
    ensures Lower(s[i..j]) == Lower(s)[i..j]
  {
  }

  predicate AllSpace(s: string) {
    forall i :: 0 <= i < |s| ==> IsSpace(s[i])
  }

  /** Neither the first nor the last character is white space. */
  predicate Trimmed(s: string) {
    s == [] || (!IsSpace(s[0]) && !IsSpace(s[|s| - 1]))
  }

  function TrimStart(s: string): (r: string)
    ensures |r| <= |s|
    ensures r == [] || !IsSpace(r[0])
    decreases |s|
  {
    if s != [] && IsSpace(s[0]) then TrimStart(s[1..]) else s
  }

  function TrimEnd(s: string): (r: string)
    ensures r <= s
    ensures r == [] || !IsSpace(r[|r| - 1])
    decreases |s|
  {
    if s != [] && IsSpace(s[|s| - 1]) then TrimEnd(s[..|s| - 1]) else s
  }

  /** `s.trim()`: the longest slice of `s` that neither starts nor ends with white space. */
  function Trim(s: string): (r: string)
    ensures Trimmed(r)
    ensures |r| <= |s|
  {
    var t := TrimStart(s);
    var u := TrimEnd(t);
    assert u == [] || !IsSpace(u[0]);
    u
  }

  lemma {:induction false} TrimStartDrops(s: string)
    ensures s == s[..|s| - |TrimStart(s)|] + TrimStart(s)
    ensures AllSpace(s[..|s| - |TrimStart(s)|])
    decreases |s|
  {
    if s != [] && IsSpace(s[0]) {
      TrimStartDrops(s[1..]);
      assert s[1..][..|s| - 1 - |TrimStart(s)|] == s[1..|s| - |TrimStart(s)|];
    }
  }

  lemma {:induction false} TrimEndDrops(s: string)
    ensures s == TrimEnd(s) + s[|TrimEnd(s)|..]
    ensures AllSpace(s[|TrimEnd(s)|..])
    decreases |s|
  {
    if s != [] && IsSpace(s[|s| - 1]) {
      TrimEndDrops(s[..|s| - 1]);
      assert s[..|s| - 1][|TrimEnd(s)|..] + [s[|s| - 1]] == s[|TrimEnd(s)|..];
    }
  }

  /** The trimmed string is a slice of the original. */
  lemma TrimIsSlice(s: string) returns (i: nat)
    ensures i + |Trim(s)| <= |s| && Trim(s) == s[i..i + |Trim(s)|]
  {
    var t := TrimStart(s);
    var u := TrimEnd(t);
    assert Trim(s) == u;
    i := |s| - |t|;
    assert t == s[i..] by {
      TrimStartDrops(s);
    }
    PrefixOfSuffix(s, i, u);
  }

  lemma PrefixOfSuffix(s: string, i: nat, u: string)
    requires i <= |s| && u <= s[i..]
    ensures i + |u| <= |s| && u == s[i..i + |u|]
  {
    assert u == s[i..][..|u|];
  }

  /** Trimming removes no digit. */
  lemma DigitsOfTrim(s: string)
    ensures Digits(Trim(s)) == Digits(s)
  {
    var t := TrimStart(s);
    var u := TrimEnd(t);
    assert Trim(s) == u;
    TrimStartDrops(s);
    TrimEndDrops(t);
    DigitsAppend(s[..|s| - |t|], t);
    DigitsOfSpace(s[..|s| - |t|]);
    DigitsAppend(u, t[|u|..]);
    DigitsOfSpace(t[|u|..]);
  }

  lemma SplitAt(s: string, k: nat)
    requires k <= |s|
    ensures s == s[..k] + s[k..]
  {
  }

  lemma {:induction false} TrimStartSkipsSpace(pre: string, s: string)
    requires AllSpace(pre)
    requires s == [] || !IsSpace(s[0])
    ensures TrimStart(pre + s) == s
    decreases |pre|
  {
    if pre != [] {
      assert (pre + s)[1..] == pre[1..] + s;
      TrimStartSkipsSpace(pre[1..], s);
    }
  }

  lemma {:induction false} TrimEndSkipsSpace(s: string, post: string)
    requires AllSpace(post)
    requires s == [] || !IsSpace(s[|s| - 1])
    ensures TrimEnd(s + post) == s
    decreases |post|
  {
    if post != [] {
      assert (s + post)[..|s + post| - 1] == s + post[..|post| - 1];
      TrimEndSkipsSpace(s, post[..|post| - 1]);
    }
  }

  /** Trimming drops exactly the white space around a trimmed core. */
  lemma TrimSurrounded(pre: string, s: string, post: string)
    requires AllSpace(pre) && AllSpace(post) && Trimmed(s)
    ensures Trim(pre + s + post) == s
  {
    if s == [] {
      assert pre + s + post == pre + post;
      TrimStartSkipsSpace(pre + post, []);
      assert pre + post + [] == pre + post;
      TrimEndSkipsSpace([], []);
    } else {
      assert pre + s + post == pre + (s + post);
      TrimStartSkipsSpace(pre, s + post);
      TrimEndSkipsSpace(s, post);
    }
  }

  lemma TrimOfTrimmed(s: string)
    requires Trimmed(s)
    ensures Trim(s) == s
  {
    TrimSurrounded([], s, []);
    assert [] + s + [] == s;
  }

  lemma TrimOfLowerCase(s: string)
    requires IsLowerCase(s)
    ensures IsLowerCase(Trim(s))
  {
    var i := TrimIsSlice(s);
  }

  lemma LowerKeepsTrimmed(s: string)
    requires Trimmed(s)
    ensures Trimmed(Lower(s))
  {
  }

  /** `s.startsWith(p)` */
  predicate StartsWith(s: string, p: string) {
    |p| <= |s| && s[..|p|] == p
  }

  /** `s.includes(t)` */
  predicate Contains(s: string, t: string)
    decreases |s|
  {
    StartsWith(s, t) || (s != [] && Contains(s[1..], t))
  }

  /** `keys.some(k => s.includes(k))` */
  predicate ContainsAny(s: string, keys: seq<string>)
    decreases |keys|
  {
    keys != [] && (Contains(s, keys[0]) || ContainsAny(s, keys[1..]))
  }

  lemma {:induction false} ContainsAnyMeans(s: string, keys: seq<string>)
    ensures ContainsAny(s, keys) <==> exists k :: k in keys && Contains(s, k)
    decreases |keys|
  {
    if keys != [] {
      ContainsAnyMeans(s, keys[1..]);
      if Contains(s, keys[0]) {
        assert keys[0] in keys;
      } else {
        forall k | k in keys && Contains(s, k)
          ensures k in keys[1..]
        {
          assert k != keys[0];
        }
      }
    }
  }

  /** The key at index `i` found in `s` is enough. */
  lemma {:induction false} ContainsAnyAt(s: string, keys: seq<string>, i: nat)
    requires i < |keys| && Contains(s, keys[i])
    ensures ContainsAny(s, keys)
    decreases i
  {
    if i > 0 {
      assert keys[1..][i - 1] == keys[i];
      ContainsAnyAt(s, keys[1..], i - 1);
    }
  }

  /** The index of a key found in `s`. */
  lemma {:induction false} ContainsAnyIndex(s: string, keys: seq<string>) returns (i: nat)
    requires ContainsAny(s, keys)
    ensures i < |keys| && Contains(s, keys[i])
    decreases |keys|
  {
    if Contains(s, keys[0]) {
      i := 0;
    } else {
      var j := ContainsAnyIndex(s, keys[1..]);
      i := j + 1;
    }
  }

  /** `s.split(c)[0]`: everything before the first `c`. */
  function BeforeFirst(s: string, c: char): (r: string)
    ensures c !in r && r <= s
    ensures |r| < |s| ==> s[|r|] == c
    decreases |s|
  {
    if s == [] || s[0] == c then [] else [s[0]] + BeforeFirst(s[1..], c)
  }

  lemma BeforeFirstAbsent(s: string, c: char)
    requires c !in s
    ensures BeforeFirst(s, c) == s
  {
  }

  lemma {:induction false} BeforeFirstAppend(x: string, y: string, c: char)
    requires c !in x
    ensures BeforeFirst(x + y, c) == x + BeforeFirst(y, c)
    decreases |x|
  {
    if x != [] {
      var xy, rest := x + y, x[1..];
      assert xy[0] == x[0] && xy[0] != c;
      assert xy[1..] == rest + y;
      assert BeforeFirst(xy, c) == [x[0]] + BeforeFirst(rest + y, c);
      BeforeFirstAppend(rest, y, c);
      assert x == [x[0]] + rest;
    } else {
      assert x + y == y;
    }
  }

  /** A string contains each of its suffixes. */
  lemma {:induction false} ContainsSuffix(a: string, k: string)
    ensures Contains(a + k, k)
    decreases |a|
  {
    if a == [] {
      assert a + k == k;
    } else {
      assert (a + k)[1..] == a[1..] + k;
      ContainsSuffix(a[1..], k);
    }
  }

  /** A non-empty string occurs only where its first character does. */
  lemma {:induction false} ContainsHead(s: string, t: string)
    requires t != [] && Contains(s, t)
    ensures t[0] in s
    decreases |s|
  {
    if !StartsWith(s, t) {
      ContainsHead(s[1..], t);
    }
  }

  /** A string holding `t` holds every prefix of `t`. */
  lemma {:induction false} ContainsPrefix(s: string, t: string, p: string)
    requires p <= t && Contains(s, t)
    ensures Contains(s, p)
    decreases |s|
  {
    if StartsWith(s, t) {
      assert s[..|p|] == t[..|p|];
    } else {
      ContainsPrefix(s[1..], t, p);
    }
  }

  /** `s.replace(/\D/g, '')` */
  function Digits(s: string): (r: string)
    ensures |r| <= |s|
    ensures forall i :: 0 <= i < |r| ==> IsDigit(r[i])
    decreases |s|
  {
    if s == [] then []
    else (if IsDigit(s[0]) then [s[0]] else []) + Digits(s[1..])
  }

  lemma {:induction false} DigitsAppend(a: string, b: string)
    ensures Digits(a + b) == Digits(a) + Digits(b)
    decreases |a|
  {
    if a != [] {
      var head := if IsDigit(a[0]) then [a[0]] else [];
      assert (a + b)[0] == a[0];
      assert (a + b)[1..] == a[1..] + b;
      DigitsAppend(a[1..], b);
      calc {
        Digits(a + b);
        head + Digits(a[1..] + b);
        head + (Digits(a[1..]) + Digits(b));
        (head + Digits(a[1..])) + Digits(b);
        Digits(a) + Digits(b);
      }
    } else {
      assert a + b == b;
    }
  }

  lemma {:induction false} DigitsOfSpace(s: string)
    requires AllSpace(s)
    ensures Digits(s) == []
    decreases |s|
  {
    if s != [] {
      DigitsOfSpace(s[1..]);
    }
  }

  /** Every character of `s` is `c`. */
  predicate AllChar(s: string, c: char) {
    forall i :: 0 <= i < |s| ==> s[i] == c
  }

  function DigitChar(d: nat): (c: char)
    requires d < 10
    ensures IsDigit(c)
  {
    ('0' as int + d) as char
  }

  /** The decimal notation of `n`, as a template literal renders it. */
  function NatToString(n: nat): (r: string)
    ensures |r| > 0
    ensures forall i :: 0 <= i < |r| ==> IsDigit(r[i])
  {
    if n < 10 then [DigitChar(n)] else NatToString(n / 10) + [DigitChar(n % 10)]
  }

  /** Different numbers are written differently, so generated column names never clash. */
  lemma {:induction false} NatToStringInjective(m: nat, n: nat)
    requires NatToString(m) == NatToString(n)
    ensures m == n
  {
    var a, b := NatToString(m), NatToString(n);
    assert |a| == 1 <==> m < 10;
    assert |b| == 1 <==> n < 10;
    if m < 10 {
      assert a[0] == b[0];
    } else {
      assert a[..|a| - 1] == NatToString(m / 10);
      assert b[..|b| - 1] == NatToString(n / 10);
      assert a[|a| - 1] == b[|b| - 1];
      NatToStringInjective(m / 10, n / 10);
    }
  }

  /** `xs.join(sep)` */
  function Join(xs: seq<string>, sep: string): (r: string)
    ensures xs == [] ==> r == []
    ensures |xs| == 1 ==> r == xs[0]
    decreases |xs|
  {
    if xs == [] then []
    else if |xs| == 1 then xs[0]
    else xs[0] + sep + Join(xs[1..], sep)
  }
}
