/** The `Array.prototype` operations the components use on their lists:
    `find`/`findIndex`, `filter` and the update-in-place idiom
    `xs.map(x => p(x) ? f(x) : x)`. */
module JsArrays {
  import opened Wrappers

  /** `xs.findIndex(p)`, with `None` standing for -1: the first index whose
      element satisfies `p`. */
  function FindIndex<T>(xs: seq<T>, p: T -> bool): (r: Option<nat>)
    ensures r.Some? ==> r.value < |xs| && p(xs[r.value])
    ensures r.Some? ==> forall j :: 0 <= j < r.value ==> !p(xs[j])
    ensures r.None? <==> forall j :: 0 <= j < |xs| ==> !p(xs[j])
  {
    if |xs| == 0 then None
    else if p(xs[0]) then Some(0)
    else
      match FindIndex(xs[1..], p)
      case None =>
        assert forall j :: 1 <= j < |xs| ==> xs[j] == xs[1..][j - 1];
        None
      case Some(k) =>
        assert forall j :: 1 <= j < k + 1 ==> xs[j] == xs[1..][j - 1];
        Some(k + 1)
  }

  /** `xs.find(p)`: the first element satisfying `p`. */
  function Find<T>(xs: seq<T>, p: T -> bool): (r: Option<T>)
    ensures r.Some? <==> exists j :: 0 <= j < |xs| && p(xs[j])
    ensures r.Some? ==> p(r.value) && r.value in xs
  {
    match FindIndex(xs, p)
    case None => None
    case Some(k) => Some(xs[k])
  }

  /** `xs.filter(p)`. */
  function Filter<T>(xs: seq<T>, p: T -> bool): (r: seq<T>)
    ensures |r| <= |xs|
    ensures forall x :: x in r ==> x in xs && p(x)
    ensures forall i :: 0 <= i < |xs| && p(xs[i]) ==> xs[i] in r
  {
    if |xs| == 0 then []
    else
      assert forall i :: 1 <= i < |xs| ==> xs[i] == xs[1..][i - 1];
      (if p(xs[0]) then [xs[0]] else []) + Filter(xs[1..], p)
  }

  /** Filtering with a predicate every element satisfies keeps the list as it is. */
  lemma {:induction false} FilterKeepsAll<T>(xs: seq<T>, p: T -> bool)
    requires forall i :: 0 <= i < |xs| ==> p(xs[i])
    ensures Filter(xs, p) == xs
  {
    if |xs| > 0 {
      FilterKeepsAll(xs[1..], p);
      assert xs == [xs[0]] + xs[1..];
    }
  }

  /** A list is its part before position `k`, the element at `k`, and the rest. */
  lemma SplitAround<T>(xs: seq<T>, k: nat)
    requires k < |xs|
    ensures xs == xs[..k] + ([xs[k]] + xs[k + 1..])
  {
  }

  /** Filtering out a single element removes it and keeps the others in order. */
  lemma FilterDropsOne<T>(xs: seq<T>, p: T -> bool, k: nat)
    requires k < |xs| && !p(xs[k])
    requires forall i :: 0 <= i < |xs| && i != k ==> p(xs[i])
    ensures Filter(xs, p) == xs[..k] + xs[k + 1..]
  {
    var before, after := xs[..k], xs[k + 1..];
    SplitAround(xs, k);
    assert forall i :: 0 <= i < |before| ==> before[i] == xs[i];
    FilterKeepsAll(before, p);
    assert forall i :: 0 <= i < |after| ==> after[i] == xs[k + 1 + i];
    FilterKeepsAll(after, p);
    FilterSingleton(xs[k], p);
    FilterAppend([xs[k]], after, p);
    FilterAppend(before, [xs[k]] + after, p);
    calc {
      Filter(xs, p);
      Filter(before + ([xs[k]] + after), p);
      Filter(before, p) + Filter([xs[k]] + after, p);
      before + Filter([xs[k]] + after, p);
      before + ([] + after);
      { assert [] + after == after; }
      before + after;
    }
  }

  /** Filtering a one-element list keeps the element exactly when it passes. */
  lemma FilterSingleton<T>(x: T, p: T -> bool)
    ensures Filter([x], p) == if p(x) then [x] else []
  {
  }

  /** Filtering a concatenation filters each part in place: the kept elements
      keep their order and their multiplicity. */
  lemma {:induction false} FilterAppend<T>(xs: seq<T>, ys: seq<T>, p: T -> bool)
    ensures Filter(xs + ys, p) == Filter(xs, p) + Filter(ys, p)
  {
    if |xs| == 0 {
      assert xs + ys == ys;
    } else {
      var head := if p(xs[0]) then [xs[0]] else [];
      assert (xs + ys)[0] == xs[0];
      assert (xs + ys)[1..] == xs[1..] + ys;
      FilterAppend(xs[1..], ys, p);
      calc {
        Filter(xs + ys, p);
        head + Filter(xs[1..] + ys, p);
        head + (Filter(xs[1..], p) + Filter(ys, p));
        (head + Filter(xs[1..], p)) + Filter(ys, p);
        Filter(xs, p) + Filter(ys, p);
      }
    }
  }

  /** `xs.map(x => p(x) ? f(x) : x)`: rewrites the elements satisfying `p`. */
  function UpdateWhere<T>(xs: seq<T>, p: T -> bool, f: T -> T): (r: seq<T>)
    ensures |r| == |xs|
    ensures forall i :: 0 <= i < |xs| ==> r[i] == if p(xs[i]) then f(xs[i]) else xs[i]
  {
    seq(|xs|, i requires 0 <= i < |xs| => if p(xs[i]) then f(xs[i]) else xs[i])
  }
}
