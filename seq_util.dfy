// Sequence helpers for Rust iterator chains: `filter_map(..).collect()`.
module SeqUtil {
  import opened Wrappers

  /** `xs.iter().filter_map(f).collect()` */
  function FilterMap<T, U>(xs: seq<T>, f: T -> Option<U>): (r: seq<U>)
    ensures |r| <= |xs|
    ensures forall y :: y in r ==> exists i :: 0 <= i < |xs| && f(xs[i]) == Some(y)
    ensures (forall i :: 0 <= i < |xs| ==> f(xs[i]).Some?) ==>
              |r| == |xs| && forall i :: 0 <= i < |xs| ==> f(xs[i]) == Some(r[i])
  {
    if |xs| == 0 then []
    else
      var rest := FilterMap(xs[1..], f);
      assert forall y :: y in rest ==> exists i :: 0 <= i < |xs| && f(xs[i]) == Some(y) by {
        forall y | y in rest ensures exists i :: 0 <= i < |xs| && f(xs[i]) == Some(y) {
          var k :| 0 <= k < |xs[1..]| && f(xs[1..][k]) == Some(y);
          assert f(xs[k + 1]) == Some(y);
        }
      }
      match f(xs[0])
      case Some(y) => [y] + rest
      case None => rest
  }

  /** Every element `f` maps to a value contributes that value. */
  lemma {:induction false} FilterMapKeeps<T, U>(xs: seq<T>, f: T -> Option<U>, i: nat)
    requires i < |xs| && f(xs[i]).Some?
    ensures f(xs[i]).value in FilterMap(xs, f)
  {
    if i > 0 {
      assert xs[1..][i - 1] == xs[i];
      FilterMapKeeps(xs[1..], f, i - 1);
    }
  }

  /** Filtering a concatenation filters each part, keeping their order. */
  lemma {:induction false} FilterMapAppend<T, U>(xs: seq<T>, ys: seq<T>, f: T -> Option<U>)
    ensures FilterMap(xs + ys, f) == FilterMap(xs, f) + FilterMap(ys, f)
  {
    if |xs| > 0 {
      assert (xs + ys)[1..] == xs[1..] + ys;
      FilterMapAppend(xs[1..], ys, f);
    } else {
      assert xs + ys == ys;
    }
  }

  /** `xs.iter().map(f).collect()` */
  function Map<T, U>(xs: seq<T>, f: T -> U): (r: seq<U>)
    ensures |r| == |xs|
    ensures forall i :: 0 <= i < |xs| ==> r[i] == f(xs[i])
  {
    if |xs| == 0 then [] else [f(xs[0])] + Map(xs[1..], f)
  }
}
