/** Optional values and failing results, standing for Kotlin's nullable types and thrown exceptions. */
module Wrappers {

  /** A Kotlin `T?`: `None` is `null`. */
  datatype Option<+T> = None | Some(value: T)
  {
    /** Kotlin's `?:` operator. */
    function GetOr(default: T): T
    {
      match this
      case Some(v) => v
      case None => default
    }
  }

  /** The outcome of a Kotlin call that either returns a value or throws. */
  datatype Result<+T, +E> = Success(value: T) | Failure(error: E)
}

/** Kotlin collection helpers used by the converters. */
module Collections {
  import opened Wrappers

  /** Kotlin's `mapNotNull`: applies `f` and keeps the non-null results, in order. */
  function MapNotNull<A, B>(xs: seq<A>, f: A -> Option<B>): (r: seq<B>)
    ensures |r| <= |xs|
  {
    if xs == [] then []
    else
      var rest := MapNotNull(xs[1..], f);
      match f(xs[0])
      case Some(y) => [y] + rest
      case None => rest
  }

  /** Every element `mapNotNull` keeps is the image of some input. */
  lemma {:induction false} MapNotNullFrom<A, B>(xs: seq<A>, f: A -> Option<B>, y: B)
    requires y in MapNotNull(xs, f)
    ensures exists x :: x in xs && f(x) == Some(y)
  {
    if f(xs[0]) == Some(y) {
      assert xs[0] in xs;
    } else {
      assert y in MapNotNull(xs[1..], f);
      MapNotNullFrom(xs[1..], f, y);
      var x :| x in xs[1..] && f(x) == Some(y);
      assert x in xs;
    }
  }

  /** Every non-null image of an input is kept. */
  lemma {:induction false} MapNotNullKeeps<A, B>(xs: seq<A>, f: A -> Option<B>, x: A)
    requires x in xs && f(x).Some?
    ensures f(x).value in MapNotNull(xs, f)
  {
    if xs[0] != x {
      assert x in xs[1..];
      MapNotNullKeeps(xs[1..], f, x);
    }
  }

  /** `mapNotNull` keeps the order of its input: it distributes over concatenation. */
  lemma {:induction false} MapNotNullAppend<A, B>(xs: seq<A>, ys: seq<A>, f: A -> Option<B>)
    ensures MapNotNull(xs + ys, f) == MapNotNull(xs, f) + MapNotNull(ys, f)
  {
    if xs == [] {
      assert xs + ys == ys;
    } else {
      assert (xs + ys)[0] == xs[0];
      assert (xs + ys)[1..] == xs[1..] + ys;
      MapNotNullAppend(xs[1..], ys, f);
    }
  }

  /** Kotlin's `map` on an optional list followed by `?: emptyList()`. */
  function MapOrEmpty<A, B>(xs: Option<seq<A>>, f: A -> B): (r: seq<B>)
    ensures xs.None? ==> r == []
    ensures xs.Some? ==> |r| == |xs.value| && forall i :: 0 <= i < |r| ==> r[i] == f(xs.value[i])
  {
    match xs
    case None => []
    case Some(s) => seq(|s|, i requires 0 <= i < |s| => f(s[i]))
  }
}
