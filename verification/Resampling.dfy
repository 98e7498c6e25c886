/** deltabt/strategy.py: higher-timeframe bars from one-minute bars, and values
    projected back without looking into a forming bar. */
module Resampling {
  import opened Numbers
  import opened Costs
  import opened Indicators

  /** Bars in strictly increasing time, as every stored frame is. */
  ghost predicate Sorted(f: Frame) {
    forall i, j :: 0 <= i < j < |f| ==> f[i].time < f[j].time
  }

  /** Where a time belongs: its bucket's start. */
  type Keying = int -> int

  function Bucket(time: int, step: int): int
    requires step > 0
  {
    time / step * step
  }

  function ByStep(step: int): Keying {
    t => if step > 0 then Bucket(t, step) else t
  }

  ghost predicate Monotone(key: Keying) {
    forall t, u :: t <= u ==> key(t) <= key(u)
  }

  /** The distinct bucket starts, in order of first appearance. */
  function Buckets(f: Frame, key: Keying): seq<int> {
    if f == [] then []
    else
      var before, b := Buckets(f[..|f| - 1], key), key(f[|f| - 1].time);
      if before != [] && before[|before| - 1] == b then before else before + [b]
  }

  /** The bars of one bucket, in frame order. */
  function Group(f: Frame, key: Keying, b: int): Frame {
    if f == [] then []
    else
      var before, x := Group(f[..|f| - 1], key, b), f[|f| - 1];
      if key(x.time) == b then before + [x] else before
  }

  function HighOf(g: Frame): real
    requires g != []
  {
    if |g| == 1 then g[0].high else Max(HighOf(g[..|g| - 1]), g[|g| - 1].high)
  }

  function LowOf(g: Frame): real
    requires g != []
  {
    if |g| == 1 then g[0].low else Min(LowOf(g[..|g| - 1]), g[|g| - 1].low)
  }

  function VolumeOf(g: Frame): real {
    if g == [] then 0.0 else VolumeOf(g[..|g| - 1]) + g[|g| - 1].volume
  }

  /** first / max / min / last / sum; no group is empty. */
  function Aggregate(b: int, g: Frame): Candle {
    if g == [] then Candle(b, 0.0, 0.0, 0.0, 0.0, 0.0)
    else Candle(b, g[0].open, HighOf(g), LowOf(g), g[|g| - 1].close, VolumeOf(g))
  }

  function Grouped(f: Frame, key: Keying): (r: Frame)
    ensures |r| == |Buckets(f, key)|
  {
    var keys := Buckets(f, key);
    seq(|keys|, k requires 0 <= k < |keys| => Aggregate(keys[k], Group(f, key, keys[k])))
  }

  /** `resample_ohlcv`: group by bucket, aggregate each group. */
  function ResampleOhlcv(f: Frame, minutes: int): Frame {
    if minutes <= 1 then f else Grouped(f, ByStep(60 * minutes))
  }

  // ---------------------------------------------------------------- bar by bar

  function Merge(bar: Candle, x: Candle): Candle {
    Candle(bar.time, bar.open, Max(bar.high, x.high), Min(bar.low, x.low), x.close, bar.volume + x.volume)
  }

  /** What one more minute does to the resampled frame. */
  function Absorb(out: Frame, x: Candle, b: int): Frame {
    if out != [] && out[|out| - 1].time == b then out[..|out| - 1] + [Merge(out[|out| - 1], x)]
    else out + [x.(time := b)]
  }

  /** The streaming form: bars absorbed one at a time. */
  function Streamed(f: Frame, key: Keying): Frame {
    if f == [] then [] else Absorb(Streamed(f[..|f| - 1], key), f[|f| - 1], key(f[|f| - 1].time))
  }

  lemma BucketBounds(t: int, step: int)
    requires step > 0
    ensures Bucket(t, step) <= t < Bucket(t, step) + step
  {
    assert t == t / step * step + t % step;
  }

  lemma BucketMonotone(t: int, u: int, step: int)
    requires step > 0 && t <= u
    ensures Bucket(t, step) <= Bucket(u, step)
  {
    var p, q := t / step, u / step;
    assert t == p * step + t % step && u == q * step + u % step;
    var d := q - p;
    assert d * step == q * step - p * step;
    if d != 0 { NonzeroMultipleIsFar(d, step); }
  }

  lemma ByStepMonotone(step: int)
    ensures Monotone(ByStep(step))
  {
    forall t: int, u: int | t <= u ensures ByStep(step)(t) <= ByStep(step)(u) {
      if step > 0 { BucketMonotone(t, u, step); }
    }
  }

  /** On a sorted frame the keys are strictly increasing, the last one is the last
      bar's, and every bar has its own. */
  lemma {:induction false} BucketsOfSorted(f: Frame, key: Keying)
    requires Monotone(key) && Sorted(f)
    ensures var keys := Buckets(f, key);
            && StrictlyIncreasing(keys)
            && (f != [] ==> keys != [] && keys[|keys| - 1] == key(f[|f| - 1].time))
            && (forall k :: 0 <= k < |keys| ==> Group(f, key, keys[k]) != [])
  {
    if f != [] {
      var before := f[..|f| - 1];
      BucketsOfSorted(before, key);
      if before != [] {
        assert before[|before| - 1].time <= f[|f| - 1].time;
      }
    }
  }

  lemma {:induction false} BarHasItsBucket(f: Frame, key: Keying, i: nat) returns (k: nat)
    requires i < |f|
    ensures k < |Buckets(f, key)| && Buckets(f, key)[k] == key(f[i].time)
  {
    var before := f[..|f| - 1];
    if i < |before| {
      k := BarHasItsBucket(before, key, i);
    } else {
      k := |Buckets(f, key)| - 1;
    }
  }

  lemma GroupSnoc(before: Frame, x: Candle, key: Keying, b: int)
    ensures Group(before + [x], key, b)
            == if key(x.time) == b then Group(before, key, b) + [x] else Group(before, key, b)
  {
    assert (before + [x])[..|before|] == before;
  }

  /** One more bar in the last bucket merges into the last group. */
  lemma GroupedMerges(before: Frame, x: Candle, key: Keying)
    requires var keys, b := Buckets(before, key), key(x.time);
             StrictlyIncreasing(keys) && keys != [] && keys[|keys| - 1] == b && Group(before, key, b) != []
    ensures Grouped(before + [x], key) == Absorb(Grouped(before, key), x, key(x.time))
  {
    hide Aggregate, Merge, Group;
    var f, keys, b := before + [x], Buckets(before, key), key(x.time);
    var last := |keys| - 1;
    var was, now := Grouped(before, key), Grouped(f, key);
    assert Buckets(f, key) == keys by { assert f[..|f| - 1] == before; }
    forall k | 0 <= k < last ensures now[k] == was[k] {
      assert keys[k] < keys[last];
      GroupSnoc(before, x, key, keys[k]);
    }
    assert now[last] == Merge(was[last], x) by {
      GroupSnoc(before, x, key, b);
      AggregateSnoc(b, Group(before, key, b), x);
    }
    assert was[last].time == b by { AggregateTime(b, Group(before, key, b)); }
    assert now == was[..last] + [Merge(was[last], x)];
  }

  lemma AggregateTime(b: int, g: Frame)
    ensures Aggregate(b, g).time == b
  {
  }

  /** One more bar in a new bucket is a new group of its own. */
  lemma GroupedAppends(before: Frame, x: Candle, key: Keying)
    requires key(x.time) !in Buckets(before, key) && Group(before, key, key(x.time)) == []
    ensures Grouped(before + [x], key) == Absorb(Grouped(before, key), x, key(x.time))
  {
    hide Aggregate, Group;
    var f, keys, b := before + [x], Buckets(before, key), key(x.time);
    var was, now := Grouped(before, key), Grouped(f, key);
    assert Buckets(f, key) == keys + [b] by {
      assert f[..|f| - 1] == before;
      assert keys != [] ==> keys[|keys| - 1] in keys;
    }
    forall k | 0 <= k < |keys| ensures now[k] == was[k] && was[k].time != b {
      assert keys[k] in keys;
      GroupSnoc(before, x, key, keys[k]);
      AggregateTime(keys[k], Group(before, key, keys[k]));
    }
    assert now[|keys|] == x.(time := b) by {
      GroupSnoc(before, x, key, b);
      assert Group(f, key, b) == [x];
      AggregateSingle(b, x);
    }
    assert now == was + [x.(time := b)];
  }

  /** Grouping and aggregating is the same as absorbing bar by bar. */
  lemma {:induction false} GroupedIsStreamed(f: Frame, key: Keying)
    requires Monotone(key) && Sorted(f)
    ensures Grouped(f, key) == Streamed(f, key)
  {
    if f != [] {
      var before, x := f[..|f| - 1], f[|f| - 1];
      var b, keys := key(x.time), Buckets(before, key);
      assert f == before + [x];
      GroupedIsStreamed(before, key);
      BucketsOfSorted(before, key);
      if keys != [] && keys[|keys| - 1] == b {
        GroupedMerges(before, x, key);
      } else {
        forall i | 0 <= i < |before| ensures key(before[i].time) != b {
          var k := BarHasItsBucket(before, key, i);
          assert key(before[|before| - 1].time) <= b;
        }
        NoEarlierBarInBucket(before, key, b);
        GroupedAppends(before, x, key);
      }
    }
  }

  lemma AggregateSingle(b: int, x: Candle)
    ensures Aggregate(b, [x]) == x.(time := b)
  {
    assert [x][..0] == [];
    assert VolumeOf([x]) == VolumeOf([]) + x.volume;
  }

  lemma AggregateSnoc(b: int, g: Frame, x: Candle)
    requires g != []
    ensures Aggregate(b, g + [x]) == Merge(Aggregate(b, g), x)
  {
    var all := g + [x];
    assert all[..|all| - 1] == g;
  }

  lemma {:induction false} NoEarlierBarInBucket(f: Frame, key: Keying, b: int)
    requires forall i :: 0 <= i < |f| ==> key(f[i].time) != b
    ensures Group(f, key, b) == []
  {
    if f != [] { NoEarlierBarInBucket(f[..|f| - 1], key, b); }
  }

  lemma StreamedSnoc(f: Frame, x: Candle, key: Keying)
    ensures Streamed(f + [x], key) == Absorb(Streamed(f, key), x, key(x.time))
  {
    assert (f + [x])[..|f|] == f;
  }

  /** The next resampling sees a bar merged into as it would see its two parts. */
  lemma AbsorbMerged(out: Frame, l: Candle, x: Candle, b: int)
    ensures Absorb(Absorb(out, l, b), x, b) == Absorb(out, Merge(l, x), b)
  {
    var first := Absorb(out, l, b);
    if out != [] && out[|out| - 1].time == b {
      assert Merge(Merge(out[|out| - 1], l), x) == Merge(out[|out| - 1], Merge(l, x));
      assert first[..|first| - 1] == out[..|out| - 1];
    } else {
      assert first[..|first| - 1] == out;
    }
  }

  /** `coarse` is a union of `fine` buckets. */
  ghost predicate Nested(fine: Keying, coarse: Keying) {
    forall t :: coarse(fine(t)) == coarse(t)
  }

  /** One more minute, absorbed on the fine grid and then on the coarse one. */
  lemma AbsorbComposes(mid: Frame, x: Candle, b: int, coarse: Keying)
    requires coarse(b) == coarse(x.time)
    ensures Streamed(Absorb(mid, x, b), coarse) == Absorb(Streamed(mid, coarse), x, coarse(x.time))
  {
    if mid != [] && mid[|mid| - 1].time == b {
      var init, l := mid[..|mid| - 1], mid[|mid| - 1];
      assert mid == init + [l];
      StreamedSnoc(init, l, coarse);
      StreamedSnoc(init, Merge(l, x), coarse);
      AbsorbMerged(Streamed(init, coarse), l, x, coarse(x.time));
    } else {
      StreamedSnoc(mid, x.(time := b), coarse);
      AbsorbIgnoresTime(Streamed(mid, coarse), x, b, coarse(x.time));
    }
  }

  lemma AbsorbIgnoresTime(out: Frame, x: Candle, b: int, c: int)
    ensures Absorb(out, x.(time := b), c) == Absorb(out, x, c)
  {
  }

  /** Streaming to a fine grid and then to a coarse one is streaming to the coarse one. */
  lemma {:induction false} StreamingComposes(f: Frame, fine: Keying, coarse: Keying)
    requires Nested(fine, coarse)
    ensures Streamed(Streamed(f, fine), coarse) == Streamed(f, coarse)
  {
    if f != [] {
      var before, x := f[..|f| - 1], f[|f| - 1];
      StreamingComposes(before, fine, coarse);
      AbsorbComposes(Streamed(before, fine), x, fine(x.time), coarse);
    }
  }

  /** Buckets nest: the coarse bucket of a fine bucket is the coarse bucket. */
  lemma BucketsNest(t: int, step: int, k: int)
    requires step > 0 && k > 0
    ensures step * k > 0
    ensures Bucket(Bucket(t, step), step * k) == Bucket(t, step * k)
  {
    PositiveMultiple(k, step);
    assert k * step == step * k;
    var q := t / (step * k);
    var c := q * (step * k);
    assert c == q * k * step;
    BucketBounds(t, step * k);
    BucketBounds(t, step);
    MultipleHasNoRemainder(q * k, step);
    assert Bucket(c, step) == c;
    BucketMonotone(c, t, step);
    QuotientUnique(Bucket(t, step), step * k, q);
  }

  lemma QuotientUnique(t: int, n: int, q: int)
    requires n > 0 && q * n <= t < q * n + n
    ensures t / n == q
  {
    var p := t / n;
    assert t == p * n + t % n;
    assert (p - q) * n == p * n - q * n;
    MultiplesApart(q, p, n);
  }

  lemma StepsNest(step: int, k: int)
    requires step > 0 && k > 0
    ensures Nested(ByStep(step), ByStep(step * k))
  {
    forall t: int ensures ByStep(step * k)(ByStep(step)(t)) == ByStep(step * k)(t) {
      BucketsNest(t, step, k);
    }
  }

  lemma ResampledIsSorted(f: Frame, key: Keying)
    requires Monotone(key) && Sorted(f)
    ensures Sorted(Grouped(f, key))
  {
    BucketsOfSorted(f, key);
  }

  /** Resampling to `a` and then to `a * b` minutes is going straight to `a * b`. */
  lemma ResamplingComposes(f: Frame, a: int, b: int)
    requires Sorted(f) && a >= 1 && b >= 1
    ensures ResampleOhlcv(ResampleOhlcv(f, a), a * b) == ResampleOhlcv(f, a * b)
  {
    if a > 1 {
      PositiveMultiple(b, a);
      assert b * a == a * b;
      var step := 60 * a;
      assert step * b == 60 * (a * b);
      var fine, coarse := ByStep(step), ByStep(step * b);
      ByStepMonotone(step);
      ByStepMonotone(step * b);
      StepsNest(step, b);
      ResampledIsSorted(f, fine);
      GroupedIsStreamed(f, fine);
      GroupedIsStreamed(f, coarse);
      GroupedIsStreamed(Grouped(f, fine), coarse);
      StreamingComposes(f, fine, coarse);
    }
  }

  // ---------------------------------------------------------------- completeness

  /** `max(1, int(round(min_frac * minutes)))`. */
  function MinutesNeeded(minutes: int, minFrac: real): int {
    var n := RoundHalfEven(minFrac * minutes as real);
    if n < 1 then 1 else n
  }

  function KeepComplete(out: Frame, f: Frame, key: Keying, need: int): Frame {
    if out == [] then []
    else
      var before, bar := KeepComplete(out[..|out| - 1], f, key, need), out[|out| - 1];
      if bar.time in Buckets(f, key) && |Group(f, key, bar.time)| >= need then before + [bar] else before
  }

  /** `resample_complete`: only buckets holding enough of their minutes. */
  function ResampleComplete(f: Frame, minutes: int, minFrac: real): Frame {
    KeepComplete(ResampleOhlcv(f, minutes), f, ByStep(60 * minutes), MinutesNeeded(minutes, minFrac))
  }

  lemma {:induction false} KeptBarsAreComplete(out: Frame, f: Frame, key: Keying, need: int)
    ensures forall bar :: bar in KeepComplete(out, f, key, need)
              <==> bar in out && bar.time in Buckets(f, key) && |Group(f, key, bar.time)| >= need
    ensures |KeepComplete(out, f, key, need)| <= |out|
    ensures |KeepComplete(out, f, key, need)| == |out| ==> KeepComplete(out, f, key, need) == out
  {
    if out != [] {
      assert out == out[..|out| - 1] + [out[|out| - 1]];
      KeptBarsAreComplete(out[..|out| - 1], f, key, need);
    }
  }

  /** `groupby(bucket).all()` for one bucket. */
  function GroupAll(f: Frame, tradable: seq<bool>, key: Keying, b: int): bool
    requires |tradable| == |f|
    decreases |f|
  {
    if f == [] then true
    else
      var n := |f| - 1;
      GroupAll(f[..n], tradable[..n], key, b) && (key(f[n].time) == b ==> tradable[n])
  }

  lemma {:induction false} GroupAllMeansEveryMinute(f: Frame, tradable: seq<bool>, key: Keying, b: int)
    requires |tradable| == |f|
    ensures GroupAll(f, tradable, key, b)
            <==> forall i :: 0 <= i < |f| && key(f[i].time) == b ==> tradable[i]
    decreases |f|
  {
    if f != [] {
      var n := |f| - 1;
      GroupAllMeansEveryMinute(f[..n], tradable[..n], key, b);
      assert forall i :: 0 <= i < n ==> f[..n][i] == f[i] && tradable[..n][i] == tradable[i];
    }
  }

  /** `resample_tradable`; a bucket absent from the frame reads as not tradable. */
  function ResampleTradable(f: Frame, tradable: seq<bool>, minutes: int, times: Option<seq<int>>): (r: seq<bool>)
    requires |tradable| == |f|
  {
    if minutes <= 1 then tradable
    else
      var key := ByStep(60 * minutes);
      var keys := Buckets(f, key);
      var at := if times.None? then keys else times.value;
      seq(|at|, k requires 0 <= k < |at| => at[k] in keys && GroupAll(f, tradable, key, at[k]))
  }

  /** Aligned to the complete bars, the mask is true for a bar iff every recorded
      minute of its bucket is tradable. */
  lemma AlignedMaskIsExact(f: Frame, tradable: seq<bool>, minutes: int, minFrac: real, k: nat)
    requires Sorted(f) && |tradable| == |f| && minutes >= 2
    requires k < |ResampleComplete(f, minutes, minFrac)|
    ensures var bars := ResampleComplete(f, minutes, minFrac);
            var mask := ResampleTradable(f, tradable, minutes, Some(OpenTimes(bars)));
            && |mask| == |bars|
            && (mask[k] <==> forall i ::
                  0 <= i < |f| && Bucket(f[i].time, 60 * minutes) == bars[k].time ==> tradable[i])
  {
    var bars, key := ResampleComplete(f, minutes, minFrac), ByStep(60 * minutes);
    KeptBarsAreComplete(ResampleOhlcv(f, minutes), f, key, MinutesNeeded(minutes, minFrac));
    assert bars[k] in bars;
    GroupAllMeansEveryMinute(f, tradable, key, bars[k].time);
    assert forall i :: 0 <= i < |f| ==> key(f[i].time) == Bucket(f[i].time, 60 * minutes);
  }

  lemma {:induction false} BucketIsSomeKey(f: Frame, key: Keying, b: int)
    ensures b in Buckets(f, key) ==> exists i :: 0 <= i < |f| && key(f[i].time) == b
  {
    if f != [] {
      BucketIsSomeKey(f[..|f| - 1], key, b);
      assert forall i :: 0 <= i < |f| - 1 ==> f[..|f| - 1][i] == f[i];
    }
  }

  lemma {:induction false} GroupHoldsItsBar(f: Frame, key: Keying, i: nat)
    requires i < |f|
    ensures |Group(f, key, key(f[i].time))| >= 1
  {
    if i < |f| - 1 { GroupHoldsItsBar(f[..|f| - 1], key, i); }
  }

  lemma {:induction false} AllKeptIff(out: Frame, f: Frame, key: Keying, need: int)
    ensures |KeepComplete(out, f, key, need)| == |out|
            <==> forall i :: 0 <= i < |out| ==> out[i].time in Buckets(f, key) && |Group(f, key, out[i].time)| >= need
  {
    KeptBarsAreComplete(out, f, key, need);
    if out != [] {
      var before := out[..|out| - 1];
      AllKeptIff(before, f, key, need);
      KeptBarsAreComplete(before, f, key, need);
      assert forall i :: 0 <= i < |before| ==> before[i] == out[i];
    }
  }

  lemma OnGridIff(t: int)
    ensures ByStep(60)(t) % 60 == 0
    ensures t % 60 == 0 <==> ByStep(60)(t) == t
  {
    assert t == t / 60 * 60 + t % 60;
  }

  /** A bar is found under its own time exactly when it opens on the minute. */
  lemma KeptIffOnGrid(f: Frame, i: nat)
    requires i < |f|
    ensures f[i].time in Buckets(f, ByStep(60)) && |Group(f, ByStep(60), f[i].time)| >= 1 <==> f[i].time % 60 == 0
  {
    var key, t := ByStep(60), f[i].time;
    OnGridIff(t);
    BucketIsSomeKey(f, key, t);
    if t in Buckets(f, key) {
      var j :| 0 <= j < |f| && key(f[j].time) == t;
      OnGridIff(f[j].time);
    }
    hide ByStep;
    var k := BarHasItsBucket(f, key, i);
    GroupHoldsItsBar(f, key, i);
  }

  /** On one-minute bars the mask is the minutes' own, never aligned. It fits the
      complete bars exactly when every bar opens on the minute; then they are the
      minutes themselves. */
  lemma OneMinuteMaskFitsIff(f: Frame, tradable: seq<bool>, minFrac: real, times: Option<seq<int>>)
    requires |tradable| == |f| && minFrac <= 1.0
    ensures var (bars, mask) := (ResampleComplete(f, 1, minFrac), ResampleTradable(f, tradable, 1, times));
            && mask == tradable
            && (|mask| == |bars| <==> forall i :: 0 <= i < |f| ==> f[i].time % 60 == 0)
            && (|mask| == |bars| ==> bars == f)
  {
    var key := ByStep(60);
    assert MinutesNeeded(1, minFrac) == 1;
    hide ByStep, Buckets, Group, KeepComplete, MinutesNeeded;
    KeptBarsAreComplete(f, f, key, 1);
    AllKeptIff(f, f, key, 1);
    forall i | 0 <= i < |f|
      ensures f[i].time in Buckets(f, key) && |Group(f, key, f[i].time)| >= 1 <==> f[i].time % 60 == 0
    {
      KeptIffOnGrid(f, i);
    }
  }

  /** Without `times` the mask has one entry per bucket, so it lines up with the
      complete bars only when no bucket was dropped. */
  lemma UnalignedMaskFitsIff(f: Frame, tradable: seq<bool>, minutes: int, minFrac: real)
    requires Sorted(f) && |tradable| == |f| && minutes >= 2
    ensures |ResampleTradable(f, tradable, minutes, None)| == |ResampleComplete(f, minutes, minFrac)|
            <==> ResampleComplete(f, minutes, minFrac) == ResampleOhlcv(f, minutes)
  {
    KeptBarsAreComplete(ResampleOhlcv(f, minutes), f, ByStep(60 * minutes), MinutesNeeded(minutes, minFrac));
  }

  // ---------------------------------------------------------------- broadcasting

  /** The higher bar whose value the base bar opening at `t` is shown; negative for none. */
  function ShownBar(htfTime: seq<int>, t: int): (k: int)
    ensures -2 <= k < |htfTime|
  {
    SearchRight(htfTime, t) - 2
  }

  /** `_broadcast_confirmed`: shift by one higher bar, then fill the slots. */
  method BroadcastConfirmed(htf: seq<Num>, htfTime: seq<int>, ltfTime: seq<int>) returns (out: array<Num>)
    requires |htf| == |htfTime|
    ensures fresh(out) && out.Length == |ltfTime|
    ensures forall t :: 0 <= t < |ltfTime| ==>
              out[t] == var k := ShownBar(htfTime, ltfTime[t]); if k >= 0 then htf[k] else None
  {
    out := new Num[|ltfTime|](_ => None);
    var shifted := if |htf| == 0 then [None] else [None] + htf[..|htf| - 1];
    for t := 0 to |ltfTime|
      invariant forall j :: 0 <= j < t ==>
                  out[j] == var k := ShownBar(htfTime, ltfTime[j]); if k >= 0 then htf[k] else None
      invariant forall j :: t <= j < |ltfTime| ==> out[j] == None
    {
      var slot := SearchRight(htfTime, ltfTime[t]) - 1;
      if slot >= 0 {
        out[t] := shifted[slot];
      }
    }
  }

  predicate ClosedBy(open: int, step: int, t: int) { open + step <= t }

  /** Starts of buckets, in order. */
  ghost predicate BucketGrid(times: seq<int>, step: int)
    requires step > 0
  {
    && StrictlyIncreasing(times)
    && forall k :: 0 <= k < |times| ==> times[k] % step == 0
  }

  lemma GridGap(a: int, b: int, step: int)
    requires step > 0 && a % step == 0 && b % step == 0 && a < b
    ensures a + step <= b
  {
    var d := b / step - a / step;
    assert a == a / step * step && b == b / step * step;
    assert d * step == b - a;
    if d != 0 { NonzeroMultipleIsFar(d, step); }
  }

  /** The shown bar's bucket has ended by the base bar's open: no look-ahead. */
  lemma BroadcastShowsOnlyClosedBars(htfTime: seq<int>, step: int, t: int)
    requires step > 0 && BucketGrid(htfTime, step)
    ensures var k := ShownBar(htfTime, t); k >= 0 ==> ClosedBy(htfTime[k], step, t)
  {
    var k := ShownBar(htfTime, t);
    if k >= 0 { GridGap(htfTime[k], htfTime[k + 1], step); }
  }

  /** It is the LAST bar that has ended exactly when the base bar opens inside the
      bucket of the most recent higher bar; across a gap it is one bar stale. */
  lemma BroadcastShowsLastClosedIff(htfTime: seq<int>, step: int, t: int)
    requires step > 0 && BucketGrid(htfTime, step)
    requires htfTime != [] && htfTime[0] <= t
    ensures var k := ShownBar(htfTime, t);
            && -1 <= k < |htfTime| - 1
            && ((forall j :: k < j < |htfTime| ==> !ClosedBy(htfTime[j], step, t))
                <==> !ClosedBy(htfTime[k + 1], step, t))
  {
  }

  /** A gap makes it stale: with higher bars at 0 and 300 only, 1200 still reads 0. */
  lemma BroadcastStaleAcrossGap()
    ensures BucketGrid([0, 300], 300) && ShownBar([0, 300], 1200) == 0 && ClosedBy(300, 300, 1200)
  {
    assert SearchRight([0, 300], 1200) == 2;
  }

  /** Projected onto the very frame it was resampled from, it is always the last
      recorded bar that has ended. */
  lemma OwnFrameShowsLastClosed(f: Frame, minutes: int, t: nat)
    requires Sorted(f) && minutes >= 2 && t < |f|
    ensures var times := OpenTimes(ResampleOhlcv(f, minutes));
            var k := ShownBar(times, f[t].time);
            && -1 <= k < |times| - 1
            && (k >= 0 ==> ClosedBy(times[k], 60 * minutes, f[t].time))
            && (forall j :: k < j < |times| ==> !ClosedBy(times[j], 60 * minutes, f[t].time))
  {
    var step := 60 * minutes;
    var key := ByStep(step);
    var keys := Buckets(f, key);
    assert OpenTimes(ResampleOhlcv(f, minutes)) == keys;
    BucketGridOfBuckets(f, step);
    var m := BarHasItsBucket(f, key, t);
    OwnBucketIsSlot(keys, step, f[t].time, m);
  }

  lemma OwnBucketIsSlot(keys: seq<int>, step: int, t: int, m: nat)
    requires step > 0 && BucketGrid(keys, step) && m < |keys| && keys[m] == Bucket(t, step)
    ensures ShownBar(keys, t) == m - 1
    ensures m > 0 ==> ClosedBy(keys[m - 1], step, t)
    ensures forall j :: m - 1 < j < |keys| ==> !ClosedBy(keys[j], step, t)
  {
    BucketBounds(t, step);
    var s := SearchRight(keys, t) - 1;
    assert m <= s;
    if m < s { GridGap(keys[m], keys[s], step); }
    BroadcastShowsOnlyClosedBars(keys, step, t);
  }

  lemma {:induction false} BucketGridOfBuckets(f: Frame, step: int)
    requires step > 0 && Sorted(f)
    ensures BucketGrid(Buckets(f, ByStep(step)), step)
  {
    ByStepMonotone(step);
    BucketsOfSorted(f, ByStep(step));
    if f != [] {
      BucketGridOfBuckets(f[..|f| - 1], step);
      MultipleHasNoRemainder(f[|f| - 1].time / step, step);
    }
  }
}
