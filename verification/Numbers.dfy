/** Shared vocabulary: readings that may be missing, running maxima over index
    arrays, and binary search results, as the array code uses them. */
module Numbers {

  datatype Option<+T> = None | Some(value: T)

  /** A floating point reading; `None` stands for NaN. Prices are exact reals. */
  type Num = Option<real>

  function Max(a: real, b: real): real { if a < b then b else a }

  function Min(a: real, b: real): real { if b < a then b else a }

  function Abs(a: real): real { if a < 0.0 then -a else a }

  function MinInt(a: int, b: int): int { if b < a then b else a }

  /** `int()` of a float: truncation toward zero. */
  function Trunc(x: real): int {
    if x < 0.0 then -((-x).Floor) else x.Floor
  }

  function CeilReal(x: real): int { -((-x).Floor) }

  /** numpy's `where(mask, arange(n), -1)`. */
  function IndexWhere(mask: seq<bool>): (r: seq<int>)
    ensures |r| == |mask|
  {
    seq(|mask|, i requires 0 <= i < |mask| => if mask[i] then i else -1)
  }

  /** Entry `i` of numpy's `maximum.accumulate(xs)`. */
  function MaxAccumulate(xs: seq<int>, i: int): int
    requires 0 <= i < |xs|
  {
    if i == 0 then xs[0]
    else var before := MaxAccumulate(xs, i - 1); if before < xs[i] then xs[i] else before
  }

  /** Accumulating the masked indices yields the last true index, or -1. */
  lemma {:induction false} AccumulatedIndexIsLastTrue(mask: seq<bool>, i: int)
    requires 0 <= i < |mask|
    ensures var last := MaxAccumulate(IndexWhere(mask), i);
            && -1 <= last <= i
            && (last >= 0 ==> mask[last])
            && forall j :: last < j <= i ==> !mask[j]
  {
    if i > 0 {
      AccumulatedIndexIsLastTrue(mask, i - 1);
    }
  }

  ghost predicate StrictlyIncreasing(xs: seq<int>) {
    forall i, j :: 0 <= i < j < |xs| ==> xs[i] < xs[j]
  }

  /** numpy's `searchsorted(xs, t, side="right")` on a sorted array: how many
      entries are at most `t`. */
  function SearchRight(xs: seq<int>, t: int): (r: nat)
    ensures r <= |xs|
    ensures r > 0 ==> xs[r - 1] <= t
    ensures StrictlyIncreasing(xs) ==> forall j :: 0 <= j < |xs| ==> (j < r <==> xs[j] <= t)
  {
    if xs == [] then 0
    else if xs[|xs| - 1] <= t then |xs|
    else
      var rest := xs[..|xs| - 1];
      assert forall j :: 0 <= j < |rest| ==> rest[j] == xs[j];
      SearchRight(rest, t)
  }

  /** Later entries do not move the answer as long as they are past `t`. */
  lemma {:induction false} SearchRightIgnoresLater(xs: seq<int>, more: seq<int>, t: int)
    requires forall k :: 0 <= k < |more| ==> more[k] > t
    ensures SearchRight(xs + more, t) == SearchRight(xs, t)
  {
    if more == [] {
      assert xs + more == xs;
    } else {
      var all := xs + more;
      assert all[|all| - 1] == more[|more| - 1];
      assert all[..|all| - 1] == xs + more[..|more| - 1];
      SearchRightIgnoresLater(xs, more[..|more| - 1], t);
    }
  }

  lemma {:induction false} MaxAccumulateCausal(xs: seq<int>, ys: seq<int>, i: nat)
    requires xs <= ys && i < |xs|
    ensures MaxAccumulate(xs, i) == MaxAccumulate(ys, i)
  {
    if i > 0 { MaxAccumulateCausal(xs, ys, i - 1); }
  }

  /** numpy's `argmax` of a boolean array, or its length when nothing is true. */
  function FirstTrue(mask: seq<bool>): (r: nat)
    ensures r <= |mask|
    ensures r < |mask| ==> mask[r]
    ensures forall j :: 0 <= j < r ==> !mask[j]
  {
    if mask == [] || mask[0] then 0 else 1 + FirstTrue(mask[1..])
  }
}
