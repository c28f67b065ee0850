/**
 * The shape shared by every question filter of the pipeline: walk the list once, keep an
 * element when its guards pass, skip it when one fails, and stop with the exception of
 * the first element whose guards raise.
 */
module Filtering {
  import opened Py

  /** The list the source's `for`/`continue`/`append` loop builds, or its first exception. */
  function Filter<T>(xs: seq<T>, keep: T -> Result<bool>): Result<seq<T>>
    decreases |xs|
  {
    if xs == [] then Ok([])
    else
      var r :- Filter(xs[..|xs| - 1], keep);
      var k :- keep(xs[|xs| - 1]);
      Ok(if k then r + [xs[|xs| - 1]] else r)
  }

  /** `r` is `xs` with some elements left out and the rest in their original order. */
  ghost predicate IsSubsequence<T>(r: seq<T>, xs: seq<T>)
    decreases |xs|
  {
    if r == [] then true
    else if xs == [] then false
    else if r[|r| - 1] == xs[|xs| - 1] && IsSubsequence(r[..|r| - 1], xs[..|xs| - 1]) then true
    else IsSubsequence(r, xs[..|xs| - 1])
  }

  /** Guards composed as the two stages of a filter run one after the other. */
  function Then<T>(first: T -> Result<bool>, second: T -> Result<bool>): T -> Result<bool>
  {
    x => match first(x)
         case Err(e) => Err(e)
         case Ok(k) => if k then second(x) else Ok(false)
  }

  /** One more element of a filter loop: it raises, is kept, or is skipped. */
  lemma FilterStep<T>(xs: seq<T>, i: nat, keep: T -> Result<bool>, kept: seq<T>)
    requires i < |xs| && Filter(xs[..i], keep) == Ok(kept)
    ensures keep(xs[i]).Err? ==> Filter(xs[..i + 1], keep) == Err(keep(xs[i]).error)
    ensures keep(xs[i]) == Ok(true) ==> Filter(xs[..i + 1], keep) == Ok(kept + [xs[i]])
    ensures keep(xs[i]) == Ok(false) ==> Filter(xs[..i + 1], keep) == Ok(kept)
  {
    assert xs[..i + 1][..i] == xs[..i];
  }

  /** Once a prefix raises, the whole filter raises the same exception. */
  lemma {:induction false} FilterErrPrefix<T>(xs: seq<T>, i: nat, keep: T -> Result<bool>)
    requires i <= |xs|
    requires Filter(xs[..i], keep).Err?
    ensures Filter(xs, keep) == Filter(xs[..i], keep)
    decreases |xs| - i
  {
    if i < |xs| {
      assert xs[..i + 1][..i] == xs[..i];
      FilterErrPrefix(xs, i + 1, keep);
    } else {
      assert xs[..i] == xs;
    }
  }

  /** The filter succeeds exactly when no element's guards raise. */
  lemma {:induction false} FilterOkIff<T>(xs: seq<T>, keep: T -> Result<bool>)
    ensures Filter(xs, keep).Ok? <==> forall k | 0 <= k < |xs| :: keep(xs[k]).Ok?
    decreases |xs|
  {
    if xs != [] {
      var init := xs[..|xs| - 1];
      FilterOkIff(init, keep);
      assert forall k | 0 <= k < |init| :: init[k] == xs[k];
    }
  }

  /** When the filter raises, it raises the exception of the first element whose guards raise. */
  lemma {:induction false} FilterFirstError<T>(xs: seq<T>, keep: T -> Result<bool>)
    requires Filter(xs, keep).Err?
    ensures exists k | 0 <= k < |xs| ::
              keep(xs[k]) == Err(Filter(xs, keep).error) &&
              forall j | 0 <= j < k :: keep(xs[j]).Ok?
    decreases |xs|
  {
    var init := xs[..|xs| - 1];
    assert forall j | 0 <= j < |init| :: init[j] == xs[j];
    if Filter(init, keep).Err? {
      FilterFirstError(init, keep);
      var k :| 0 <= k < |init| && keep(init[k]) == Err(Filter(init, keep).error) &&
               forall j | 0 <= j < k :: keep(init[j]).Ok?;
      assert keep(xs[k]) == Err(Filter(xs, keep).error);
    } else {
      FilterOkIff(init, keep);
      assert keep(xs[|xs| - 1]) == Err(Filter(xs, keep).error);
    }
  }

  /** A successful filter keeps an order-preserving subsequence of its input. */
  lemma {:induction false} FilterIsSubsequence<T>(xs: seq<T>, keep: T -> Result<bool>)
    requires Filter(xs, keep).Ok?
    ensures IsSubsequence(Filter(xs, keep).value, xs)
    decreases |xs|
  {
    if xs != [] {
      var init := xs[..|xs| - 1];
      var r := Filter(init, keep).value;
      FilterIsSubsequence(init, keep);
      if keep(xs[|xs| - 1]).value {
        assert (r + [xs[|xs| - 1]])[..|r|] == r;
      } else {
        SubsequenceOfPrefix(r, init, xs);
      }
    }
  }

  lemma {:induction false} SubsequenceOfPrefix<T>(r: seq<T>, init: seq<T>, xs: seq<T>)
    requires xs != [] && init == xs[..|xs| - 1]
    requires IsSubsequence(r, init)
    ensures IsSubsequence(r, xs)
  {
  }

  /** A subsequence only holds elements of the sequence it was taken from. */
  lemma {:induction false} SubsequenceElements<T>(r: seq<T>, xs: seq<T>)
    requires IsSubsequence(r, xs)
    ensures forall x | x in r :: x in xs
    decreases |xs|
  {
    if r != [] {
      var init := xs[..|xs| - 1];
      if r[|r| - 1] == xs[|xs| - 1] && IsSubsequence(r[..|r| - 1], init) {
        SubsequenceElements(r[..|r| - 1], init);
        assert forall x | x in r :: x in r[..|r| - 1] || x == r[|r| - 1];
      } else {
        SubsequenceElements(r, init);
      }
    }
  }

  /** A successful filter keeps exactly the elements whose guards pass. */
  lemma {:induction false} FilterMembers<T>(xs: seq<T>, keep: T -> Result<bool>)
    requires Filter(xs, keep).Ok?
    ensures forall x | x in Filter(xs, keep).value :: keep(x) == Ok(true)
    ensures forall x | x in xs && keep(x) == Ok(true) :: x in Filter(xs, keep).value
    decreases |xs|
  {
    if xs != [] {
      var init := xs[..|xs| - 1];
      FilterMembers(init, keep);
      assert forall x | x in xs :: x in init || x == xs[|xs| - 1];
    }
  }

  /** When every element passes, the filter returns its input unchanged. */
  lemma {:induction false} FilterAllPass<T>(xs: seq<T>, keep: T -> Result<bool>)
    requires forall x | x in xs :: keep(x) == Ok(true)
    ensures Filter(xs, keep) == Ok(xs)
    decreases |xs|
  {
    if xs != [] {
      var init := xs[..|xs| - 1];
      assert forall x | x in init :: x in xs;
      FilterAllPass(init, keep);
      assert init + [xs[|xs| - 1]] == xs;
    }
  }

  /**
   * Running a second filter over the output of a first one succeeds exactly when one pass
   * with the composed guards does, and then yields the same list.
   */
  lemma {:induction false} FilterThen<T>(xs: seq<T>, first: T -> Result<bool>, second: T -> Result<bool>)
    requires Filter(xs, first).Ok?
    ensures SameAsComposed(xs, first, second)
    decreases |xs|
  {
    if xs != [] {
      var init := xs[..|xs| - 1];
      assert Filter(init, first).Ok?;
      FilterThen(init, first, second);
      FilterThenStep(init, xs[|xs| - 1], first, second);
      assert init + [xs[|xs| - 1]] == xs;
    }
  }

  /** The two stages and the composed guard agree on `xs`. */
  ghost predicate SameAsComposed<T>(xs: seq<T>, first: T -> Result<bool>, second: T -> Result<bool>)
    requires Filter(xs, first).Ok?
  {
    Filter(Filter(xs, first).value, second).Ok? == Filter(xs, Then(first, second)).Ok? &&
    (Filter(xs, Then(first, second)).Ok? ==>
       Filter(Filter(xs, first).value, second).value == Filter(xs, Then(first, second)).value)
  }

  /** Agreement on a list carries over to the list with one more element. */
  lemma FilterThenStep<T>(init: seq<T>, last: T, first: T -> Result<bool>, second: T -> Result<bool>)
    requires Filter(init + [last], first).Ok?
    requires Filter(init, first).Ok? && SameAsComposed(init, first, second)
    ensures SameAsComposed(init + [last], first, second)
  {
    var xs := init + [last];
    assert xs[..|xs| - 1] == init && xs[|xs| - 1] == last;
    var both := Then(first, second);
    var r1 := Filter(init, first).value;
    assert first(last).Ok?;
    if first(last).value {
      assert both(last) == second(last);
      var ys := r1 + [last];
      assert ys[..|ys| - 1] == r1;
      assert Filter(xs, first).value == ys;
    } else {
      assert both(last) == Ok(false);
      assert Filter(xs, first).value == r1;
    }
  }

  /** `g` applied to each element, in order. */
  function MapSeq<A, B>(xs: seq<A>, g: A -> B): (r: seq<B>)
    ensures |r| == |xs|
  {
    seq(|xs|, i requires 0 <= i < |xs| => g(xs[i]))
  }

  /** A guard on images, asked of the element the image was made from. */
  function Pullback<A, B>(g: A -> B, keep: B -> Result<bool>): A -> Result<bool>
  {
    x => keep(g(x))
  }

  /**
   * Filtering the images of a list raises exactly when filtering the list with the pulled-back
   * guard does, with the same exception, and otherwise keeps the images of what that keeps.
   */
  lemma {:induction false} FilterMapped<A, B>(xs: seq<A>, g: A -> B, keep: B -> Result<bool>)
    ensures var byImages := Filter(MapSeq(xs, g), keep);
            var byElements := Filter(xs, Pullback(g, keep));
            byImages.Ok? == byElements.Ok? &&
            (byImages.Err? ==> byImages.error == byElements.error) &&
            (byImages.Ok? ==> byImages.value == MapSeq(byElements.value, g))
    decreases |xs|
  {
    if xs != [] {
      var n := |xs| - 1;
      var ys := MapSeq(xs, g);
      assert ys[..n] == MapSeq(xs[..n], g);
      FilterMapped(xs[..n], g, keep);
      assert keep(ys[n]) == Pullback(g, keep)(xs[n]);
      var prev := Filter(xs[..n], Pullback(g, keep));
      if prev.Ok? {
        assert MapSeq(prev.value + [xs[n]], g) == MapSeq(prev.value, g) + [ys[n]];
      }
    }
  }
}
