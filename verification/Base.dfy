/** Shared result types and a few facts about finite collections. */
module Base {

  datatype Option<+T> = None | Some(value: T)

  /** A value or an error; the text of an error never influences control flow, so it is not kept. */
  datatype Result<+T> = Ok(value: T) | Err

  /** The three ways an Okta lookup by key can end. */
  datatype Reply<+T> = Found(value: T) | NotFound | Failed

  function ToSet<T>(xs: seq<T>): set<T> {
    set x | x in xs
  }

  /** All the entries of a paged listing, whatever page they are on. */
  function Flat<T>(pages: seq<seq<T>>): set<T> {
    set p, x | p in pages && x in p :: x
  }

  /** The union of `f(a)` over all keys `a`. */
  function Gather<A, B>(keys: set<A>, f: A -> set<B>): set<B> {
    set a, b | a in keys && b in f(a) :: b
  }

  ghost predicate SubMap<K, V>(small: map<K, V>, large: map<K, V>) {
    forall k :: k in small ==> k in large && small[k] == large[k]
  }

  lemma GatherEmpty<A, B>(f: A -> set<B>)
    ensures Gather({}, f) == {}
  {
  }

  lemma ToSetAppend<T>(xs: seq<T>, x: T)
    ensures ToSet(xs + [x]) == ToSet(xs) + {x}
  {
  }

  /** Growing a prefix by one element grows a gathered set by that element's share. */
  lemma GatherPrefix<A, B>(xs: seq<A>, i: nat, f: A -> set<B>)
    requires i < |xs|
    ensures Gather(ToSet(xs[..i + 1]), f) == Gather(ToSet(xs[..i]), f) + f(xs[i])
  {
  }
}
