/** Ordering of group identifiers. A walk over a user's groups is resumed by position, so the
    position has to mean the same group on every call, however Okta ordered its answer. */
module Sorting {
  import opened Base

  /** Go's string order: byte by byte, a proper prefix first. */
  predicate AtMost(a: string, b: string) {
    a == [] || (b != [] && (a[0] < b[0] || (a[0] == b[0] && AtMost(a[1..], b[1..]))))
  }

  lemma {:induction false} AtMostTotal(a: string, b: string)
    ensures AtMost(a, b) || AtMost(b, a)
    ensures AtMost(a, b) && AtMost(b, a) ==> a == b
  {
    if a != [] && b != [] {
      AtMostTotal(a[1..], b[1..]);
      assert a == [a[0]] + a[1..] && b == [b[0]] + b[1..];
    }
  }

  lemma {:induction false} AtMostTransitive(a: string, b: string, c: string)
    requires AtMost(a, b) && AtMost(b, c)
    ensures AtMost(a, c)
  {
    if a != [] && a[0] == b[0] == c[0] {
      AtMostTransitive(a[1..], b[1..], c[1..]);
    }
  }

  predicate IsSorted(xs: seq<string>) {
    forall i, j :: 0 <= i < j < |xs| ==> AtMost(xs[i], xs[j])
  }

  function Insert(x: string, xs: seq<string>): seq<string> {
    if xs == [] || AtMost(x, xs[0]) then [x] + xs else [xs[0]] + Insert(x, xs[1..])
  }

  /** The answer of sort.Strings: the sorted rearrangement of its argument. */
  function SortStrings(xs: seq<string>): seq<string> {
    if xs == [] then [] else Insert(xs[0], SortStrings(xs[1..]))
  }

  lemma {:induction false} InsertSorted(x: string, xs: seq<string>)
    requires IsSorted(xs)
    ensures IsSorted(Insert(x, xs))
    ensures multiset(Insert(x, xs)) == multiset(xs) + multiset{x}
  {
    if xs == [] {
    } else if AtMost(x, xs[0]) {
      forall j | 0 <= j < |xs| ensures AtMost(x, xs[j]) {
        if j > 0 { AtMostTransitive(x, xs[0], xs[j]); }
      }
    } else {
      var rest := Insert(x, xs[1..]);
      InsertSorted(x, xs[1..]);
      assert xs == [xs[0]] + xs[1..];
      AtMostTotal(x, xs[0]);
      forall j | 0 <= j < |rest| ensures AtMost(xs[0], rest[j]) {
        assert rest[j] in multiset(rest);
        assert rest[j] == x || rest[j] in xs[1..];
      }
    }
  }

  lemma {:induction false} SortStringsSorts(xs: seq<string>)
    ensures IsSorted(SortStrings(xs))
    ensures multiset(SortStrings(xs)) == multiset(xs)
  {
    if xs != [] {
      SortStringsSorts(xs[1..]);
      InsertSorted(xs[0], SortStrings(xs[1..]));
      assert xs == [xs[0]] + xs[1..];
    }
  }

  lemma HeadIsLeast(xs: seq<string>, x: string)
    requires IsSorted(xs) && x in multiset(xs)
    ensures AtMost(xs[0], x)
  {
    var j :| 0 <= j < |xs| && xs[j] == x;
    AtMostTotal(x, x);
  }

  lemma MultisetOfTail(xs: seq<string>)
    requires xs != []
    ensures multiset(xs[1..]) == multiset(xs) - multiset{xs[0]}
  {
    assert xs == [xs[0]] + xs[1..];
  }

  /** There is only one sorted arrangement of a given collection. */
  lemma {:induction false} SortedIsUnique(xs: seq<string>, ys: seq<string>)
    requires IsSorted(xs) && IsSorted(ys) && multiset(xs) == multiset(ys)
    ensures xs == ys
  {
    assert |xs| == |multiset(xs)| == |multiset(ys)| == |ys|;
    if xs != [] {
      assert xs[0] in multiset(ys) && ys[0] in multiset(xs);
      HeadIsLeast(xs, ys[0]);
      HeadIsLeast(ys, xs[0]);
      AtMostTotal(xs[0], ys[0]);
      MultisetOfTail(xs);
      MultisetOfTail(ys);
      SortedIsUnique(xs[1..], ys[1..]);
      assert xs == [xs[0]] + xs[1..] && ys == [ys[0]] + ys[1..];
    }
  }

  /** The identifiers present in a listing; a record without one is skipped. */
  function PresentIds(listing: seq<Option<string>>): seq<string> {
    if listing == [] then []
    else
      var front := PresentIds(listing[..|listing| - 1]);
      var last := listing[|listing| - 1];
      if last.Some? then front + [last.value] else front
  }

  /** The order in which a user's groups are walked. */
  function WalkOrder(listing: seq<Option<string>>): seq<string> {
    SortStrings(PresentIds(listing))
  }

  lemma {:induction false} PresentIdsCount(listing: seq<Option<string>>, id: string)
    ensures multiset(PresentIds(listing))[id] == multiset(listing)[Some(id)]
  {
    if listing != [] {
      var front, last := listing[..|listing| - 1], listing[|listing| - 1];
      PresentIdsCount(front, id);
      assert listing == front + [last];
      assert multiset(listing) == multiset(front) + multiset{last};
    }
  }

  /** Walk order depends on which groups were listed, not on the order of the listing. */
  lemma WalkOrderIsCanonical(one: seq<Option<string>>, other: seq<Option<string>>)
    requires multiset(one) == multiset(other)
    ensures WalkOrder(one) == WalkOrder(other)
  {
    forall id ensures multiset(PresentIds(one))[id] == multiset(PresentIds(other))[id] {
      PresentIdsCount(one, id);
      PresentIdsCount(other, id);
    }
    assert multiset(PresentIds(one)) == multiset(PresentIds(other));
    SortStringsSorts(PresentIds(one));
    SortStringsSorts(PresentIds(other));
    SortedIsUnique(WalkOrder(one), WalkOrder(other));
  }

  /** Walk order holds exactly the groups that were listed with an identifier. */
  lemma WalkOrderMembers(listing: seq<Option<string>>, id: string)
    ensures id in WalkOrder(listing) <==> Some(id) in listing
  {
    SortStringsSorts(PresentIds(listing));
    PresentIdsCount(listing, id);
    assert id in WalkOrder(listing) <==> id in multiset(WalkOrder(listing));
    assert Some(id) in listing <==> Some(id) in multiset(listing);
  }
}
