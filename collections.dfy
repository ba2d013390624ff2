/** Insertion-ordered, duplicate-free collections: the behaviour of a JavaScript
    `Set` that is only ever added to and then spread into an array. */
module Collections {

  datatype Option<T> = None | Some(value: T)

  /** No element occurs twice. */
  ghost predicate NoDup<T>(s: seq<T>) {
    forall i, j :: 0 <= i < j < |s| ==> s[i] != s[j]
  }

  /** `set.add(x)` seen through the insertion order: appended unless present. */
  function AddUnique<T(==,!new)>(s: seq<T>, x: T): (r: seq<T>)
    ensures x in r
    ensures forall y :: y in r <==> y in s || y == x
    ensures s <= r && |r| <= |s| + 1
    ensures NoDup(s) ==> NoDup(r)
  {
    if x in s then s else s + [x]
  }

  /** Adds every element of `xs`, in order, to the ordered set `acc`. */
  function AddAll<T(==,!new)>(acc: seq<T>, xs: seq<T>): (r: seq<T>)
    ensures forall y :: y in r <==> y in acc || y in xs
    ensures acc <= r
    ensures NoDup(acc) ==> NoDup(r)
    decreases |xs|
  {
    if xs == [] then acc else AddUnique(AddAll(acc, xs[..|xs| - 1]), xs[|xs| - 1])
  }

  lemma AddAllSnoc<T(!new)>(acc: seq<T>, xs: seq<T>, x: T)
    ensures AddAll(acc, xs + [x]) == AddUnique(AddAll(acc, xs), x)
  {
    assert (xs + [x])[..|xs|] == xs;
  }

  /** The values of the `Some` entries, in order. */
  function Present<T(!new)>(opts: seq<Option<T>>): (r: seq<T>)
    ensures |r| <= |opts|
    ensures forall x :: x in r <==> Some(x) in opts
    decreases |opts|
  {
    if opts == [] then []
    else
      var init := Present(opts[..|opts| - 1]);
      assert forall o :: o in opts <==> o in opts[..|opts| - 1] || o == opts[|opts| - 1];
      match opts[|opts| - 1]
      case Some(x) => init + [x]
      case None => init
  }

  lemma PresentSnoc<T(!new)>(opts: seq<Option<T>>, o: Option<T>)
    ensures Present(opts + [o]) == Present(opts) + (if o.Some? then [o.value] else [])
  {
    assert (opts + [o])[..|opts|] == opts;
  }

  /** `[...new Set(xs)]`: first occurrences, in order. */
  function Dedup<T(==,!new)>(xs: seq<T>): (r: seq<T>)
    ensures NoDup(r)
    ensures forall y :: y in r <==> y in xs
  {
    AddAll([], xs)
  }

  lemma DedupEmpty<T(!new)>(xs: seq<T>)
    ensures Dedup(xs) == [] <==> xs == []
  {
    if xs != [] {
      assert xs[0] in Dedup(xs);
    }
  }

  lemma AddAllEmpty<T(!new)>(acc: seq<T>, xs: seq<T>)
    ensures AddAll(acc, xs) == [] <==> acc + xs == []
  {
    if acc + xs != [] {
      assert (acc + xs)[0] in acc || (acc + xs)[0] in xs;
      assert (acc + xs)[0] in AddAll(acc, xs);
    }
  }

  /** `xs.map(f)` */
  function Map<A, B>(f: A -> B, xs: seq<A>): (r: seq<B>)
    ensures |r| == |xs|
    ensures forall i :: 0 <= i < |xs| ==> r[i] == f(xs[i])
  {
    seq(|xs|, i requires 0 <= i < |xs| => f(xs[i]))
  }

  lemma MapSnoc<A, B>(f: A -> B, xs: seq<A>, x: A)
    ensures Map(f, xs + [x]) == Map(f, xs) + [f(x)]
  {
  }

  lemma PrefixSnoc<T>(xs: seq<T>, j: nat)
    requires j < |xs|
    ensures xs[..j + 1] == xs[..j] + [xs[j]]
  {
  }

  lemma MapAppend<A, B>(f: A -> B, xs: seq<A>, ys: seq<A>)
    ensures Map(f, xs + ys) == Map(f, xs) + Map(f, ys)
  {
  }

  /** Adding a list in two parts is adding it in one. */
  lemma {:induction false} AddAllAppend<T(!new)>(acc: seq<T>, xs: seq<T>, ys: seq<T>)
    ensures AddAll(acc, xs + ys) == AddAll(AddAll(acc, xs), ys)
    decreases |ys|
  {
    if ys == [] {
      assert xs + ys == xs;
    } else {
      var init := ys[..|ys| - 1];
      var last := ys[|ys| - 1];
      assert xs + ys == (xs + init) + [last];
      assert ys == init + [last];
      AddAllSnoc(acc, xs + init, last);
      AddAllAppend(acc, xs, init);
      AddAllSnoc(AddAll(acc, xs), init, last);
    }
  }

  lemma {:induction false} PresentAppend<T(!new)>(xs: seq<Option<T>>, ys: seq<Option<T>>)
    ensures Present(xs + ys) == Present(xs) + Present(ys)
    decreases |ys|
  {
    if ys == [] {
      assert xs + ys == xs;
    } else {
      var init, last := ys[..|ys| - 1], ys[|ys| - 1];
      var tail := if last.Some? then [last.value] else [];
      assert ys == init + [last];
      assert xs + ys == (xs + init) + [last];
      PresentSnoc(xs + init, last);
      PresentAppend(xs, init);
      PresentSnoc(init, last);
      calc {
        Present(xs + ys);
        Present(xs + init) + tail;
        Present(xs) + Present(init) + tail;
        Present(xs) + (Present(init) + tail);
        Present(xs) + Present(ys);
      }
    }
  }

  /** Adding the values of `opts + [o]`: the values of `opts`, then `o`'s, if any. */
  lemma AddPresentSnoc<T(!new)>(acc: seq<T>, opts: seq<Option<T>>, o: Option<T>)
    ensures AddAll(acc, Present(opts + [o]))
         == if o.Some? then AddUnique(AddAll(acc, Present(opts)), o.value) else AddAll(acc, Present(opts))
  {
    PresentSnoc(opts, o);
    if o.Some? {
      AddAllSnoc(acc, Present(opts), o.value);
    }
  }

  /** `array.slice(0, n)`. */
  function Take<T>(s: seq<T>, n: nat): (r: seq<T>)
    ensures r <= s
    ensures |r| == if |s| <= n then |s| else n
  {
    if |s| <= n then s else s[..n]
  }

  /** `array.filter(x => !claimed.has(x))`. */
  function Unclaimed<T(==,!new)>(s: seq<T>, claimed: set<T>): (r: seq<T>)
    ensures forall x :: x in r <==> x in s && x !in claimed
    ensures |r| <= |s|
    ensures NoDup(s) ==> NoDup(r)
    ensures (forall x :: x in s ==> x !in claimed) ==> r == s
    decreases |s|
  {
    if s == [] then []
    else
      var init := Unclaimed(s[..|s| - 1], claimed);
      var x := s[|s| - 1];
      assert forall y :: y in s <==> y in s[..|s| - 1] || y == x;
      if x in claimed then init else init + [x]
  }

  lemma UnclaimedSnoc<T(!new)>(s: seq<T>, x: T, claimed: set<T>)
    ensures Unclaimed(s + [x], claimed) == Unclaimed(s, claimed) + (if x in claimed then [] else [x])
  {
    assert (s + [x])[..|s|] == s;
  }

  /** The filter keeps the order: filtering a concatenation concatenates the
      filtered pieces. */
  lemma {:induction false} UnclaimedAppend<T(!new)>(a: seq<T>, b: seq<T>, claimed: set<T>)
    ensures Unclaimed(a + b, claimed) == Unclaimed(a, claimed) + Unclaimed(b, claimed)
    decreases |b|
  {
    if b == [] {
      assert a + b == a;
    } else {
      var init, last := b[..|b| - 1], b[|b| - 1];
      assert a + b == (a + init) + [last] && b == init + [last];
      UnclaimedSnoc(a + init, last, claimed);
      UnclaimedSnoc(init, last, claimed);
      UnclaimedAppend(a, init, claimed);
    }
  }

  /** Filtering a prefix gives a prefix of the filtered whole. */
  lemma UnclaimedPrefix<T(!new)>(a: seq<T>, b: seq<T>, claimed: set<T>)
    requires a <= b
    ensures Unclaimed(a, claimed) <= Unclaimed(b, claimed)
  {
    assert a + b[|a|..] == b;
    UnclaimedAppend(a, b[|a|..], claimed);
  }

  /** A duplicate-free sequence has as many distinct elements as entries. */
  lemma {:induction false} NoDupCardinality<T>(s: seq<T>)
    requires NoDup(s)
    ensures |set x | x in s| == |s|
  {
    if s != [] {
      var init := s[..|s| - 1];
      NoDupCardinality(init);
      assert (set x | x in s) == (set x | x in init) + {s[|s| - 1]};
      assert s[|s| - 1] !in init;
    }
  }

  /** A duplicate-free sequence holding every element of another duplicate-free
      sequence is at least as long. */
  lemma NoDupCovers<T>(big: seq<T>, small: seq<T>)
    requires NoDup(big) && NoDup(small)
    requires forall x :: x in small ==> x in big
    ensures |small| <= |big|
  {
    NoDupCardinality(big);
    NoDupCardinality(small);
    SubsetCardinality(set x | x in small, set x | x in big);
  }

  lemma {:induction false} SubsetCardinality<T>(a: set<T>, b: set<T>)
    requires a <= b
    ensures |a| <= |b|
  {
    if a != {} {
      var x :| x in a;
      SubsetCardinality(a - {x}, b - {x});
    }
  }

  /** The JavaScript `Set` used as an accumulator: an insertion-ordered set. */
  class OrderedSet<T(==,!new)> {
    var items: seq<T>

    ghost predicate Valid()
      reads this
    {
      NoDup(items)
    }

    constructor ()
      ensures Valid() && items == []
    {
      items := [];
    }

    /** `set.size` */
    function Size(): (n: nat)
      reads this
      ensures n == |items|
    {
      |items|
    }

    /** `set.add(x)` */
    method Add(x: T)
      requires Valid()
      modifies this
      ensures Valid()
      ensures items == AddUnique(old(items), x)
    {
      if x !in items {
        items := items + [x];
      }
    }
  }
}
