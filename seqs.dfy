/**
 * The shape both scraping loops share: walk a list, turn each element into
 * zero or one result, and keep the results in list order.
 */
module Seqs {
  import opened Wrappers

  /** `[y for x in xs if (y := f(x)) is not None]`, built from the back. */
  function FilterMap<T, U>(f: T -> Option<U>, xs: seq<T>): (ys: seq<U>)
    ensures |ys| <= |xs|
  {
    if xs == [] then []
    else
      var rest := FilterMap(f, xs[..|xs| - 1]);
      match f(xs[|xs| - 1])
      case Some(y) => rest + [y]
      case None => rest
  }

  /** One more step of the loop: the next element's result, if any, goes at the end. */
  lemma {:induction false} FilterMapStep<T, U>(f: T -> Option<U>, xs: seq<T>, i: nat)
    requires i < |xs|
    ensures FilterMap(f, xs[..i + 1]) == FilterMap(f, xs[..i]) + (if f(xs[i]).Some? then [f(xs[i]).value] else [])
  {
    assert xs[..i + 1][..i] == xs[..i];
  }

  /** Every element the function keeps shows up in the result. */
  lemma {:induction false} KeptIsListed<T, U>(f: T -> Option<U>, xs: seq<T>, i: nat)
    requires i < |xs| && f(xs[i]).Some?
    ensures f(xs[i]).value in FilterMap(f, xs)
  {
    if i < |xs| - 1 {
      var init := xs[..|xs| - 1];
      assert init[i] == xs[i];
      KeptIsListed(f, init, i);
    }
  }

  /** Every result comes from an element the function kept. */
  lemma {:induction false} ListedIsKept<T, U>(f: T -> Option<U>, xs: seq<T>, y: U) returns (i: nat)
    requires y in FilterMap(f, xs)
    ensures i < |xs| && f(xs[i]) == Some(y)
  {
    var init := xs[..|xs| - 1];
    if y in FilterMap(f, init) {
      i := ListedIsKept(f, init, y);
      assert init[i] == xs[i];
    } else {
      i := |xs| - 1;
    }
  }

  /** The loop can be split anywhere: two halves give the two results in a row. */
  lemma {:induction false} FilterMapConcat<T, U>(f: T -> Option<U>, xs: seq<T>, ys: seq<T>)
    ensures FilterMap(f, xs + ys) == FilterMap(f, xs) + FilterMap(f, ys)
  {
    if ys == [] {
      assert xs + ys == xs;
    } else {
      var ys' := ys[..|ys| - 1];
      assert (xs + ys)[..|xs + ys| - 1] == xs + ys';
      FilterMapConcat(f, xs, ys');
    }
  }

  /** An element the function drops contributes nothing. */
  lemma {:induction false} DroppedIsSkipped<T, U>(f: T -> Option<U>, xs: seq<T>, x: T, ys: seq<T>)
    requires f(x).None?
    ensures FilterMap(f, xs + [x] + ys) == FilterMap(f, xs) + FilterMap(f, ys)
  {
    FilterMapConcat(f, xs + [x], ys);
    FilterMapConcat(f, xs, [x]);
    assert [x][..0] == [];
  }
}
