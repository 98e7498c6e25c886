/** deltabt/indicators.py: the index-loop kernels, each against a definition that
    reads bars one at a time, and what the definitions guarantee. */
module Indicators {
  import opened Numbers

  datatype Candle = Candle(time: int, open: real, high: real, low: real, close: real, volume: real)

  type Frame = seq<Candle>

  function OpenTimes(f: Frame): (r: seq<int>)
    ensures |r| == |f|
  {
    seq(|f|, i requires 0 <= i < |f| => f[i].time)
  }

  // ---------------------------------------------------------------- Wilder smoothing

  /** Before the seed the kernel sums; from the seed on it smooths. */
  datatype Smoother = Seeding(seen: nat, sum: real) | Running(prev: real)

  function Alpha(length: int): real
    requires length >= 1
  {
    1.0 / length as real
  }

  function Mean(sum: real, length: int): real
    requires length >= 1
  {
    sum / length as real
  }

  function Blend(alpha: real, v: real, prev: real): real { alpha * v + (1.0 - alpha) * prev }

  /** `part` as a percentage of `whole`. */
  function Percent(part: real, whole: real): real
    requires whole != 0.0
  {
    100.0 * part / whole
  }

  function Feed(s: Smoother, v: Num, length: int): Smoother
    requires length >= 1
  {
    if v.None? then s
    else match s
      case Seeding(seen, sum) =>
        if seen + 1 == length then Running(Mean(sum + v.value, length))
        else Seeding(seen + 1, sum + v.value)
      case Running(prev) => Running(Blend(Alpha(length), v.value, prev))
  }

  /** The smoother after the first `i` readings. */
  function SmootherAt(values: seq<Num>, length: int, i: nat): Smoother
    requires length >= 1 && i <= |values|
  {
    if i == 0 then Seeding(0, 0.0) else Feed(SmootherAt(values, length, i - 1), values[i - 1], length)
  }

  function Emitted(s: Smoother): Num {
    if s.Running? then Some(s.prev) else None
  }

  function RmaAt(values: seq<Num>, length: int, i: nat): Num
    requires i < |values|
  {
    if length < 1 then None else Emitted(SmootherAt(values, length, i + 1))
  }

  /** `rma`: the series of smoothed values. */
  function Rma(values: seq<Num>, length: int): (r: seq<Num>)
    ensures |r| == |values|
    ensures forall i :: 0 <= i < |r| ==> r[i] == RmaAt(values, length, i)
  {
    seq(|values|, i requires 0 <= i < |values| => RmaAt(values, length, i))
  }

  lemma {:induction false} SeedingIsShort(values: seq<Num>, length: int, i: nat)
    requires length >= 1 && i <= |values|
    ensures var s := SmootherAt(values, length, i);
            if s.Seeding? then s.seen <= i && s.seen < length else i >= length
  {
    if i > 0 { SeedingIsShort(values, length, i - 1); }
  }

  /** `_rma`: a seeding loop left at the seed, then a smoothing loop. */
  method RmaKernel(values: seq<Num>, length: int) returns (out: array<Num>)
    ensures fresh(out) && out[..] == Rma(values, length)
  {
    var n := |values|;
    out := new Num[n](_ => None);
    if length < 1 || n < length {
      if length >= 1 {
        forall i | 0 <= i < n ensures RmaAt(values, length, i) == None {
          SeedingIsShort(values, length, i + 1);
        }
      }
      return;
    }
    var alpha := Alpha(length);
    var seedSum, seen, seedIdx := 0.0, 0, -1;
    var i := 0;
    while i < n
      invariant 0 <= i <= n && seedIdx == -1
      invariant 0 <= seen < length && SmootherAt(values, length, i) == Seeding(seen, seedSum)
      invariant forall j :: 0 <= j < n ==> out[j] == None
      invariant forall j :: 0 <= j < i ==> RmaAt(values, length, j) == None
    {
      var v := values[i];
      if v.Some? {
        seedSum := seedSum + v.value;
        seen := seen + 1;
        if seen == length {
          seedIdx := i;
          break;
        }
      }
      i := i + 1;
    }
    if seedIdx < 0 {
      return;
    }
    var prev := Mean(seedSum, length);
    out[seedIdx] := Some(prev);
    i := seedIdx + 1;
    while i < n
      invariant seedIdx < i <= n
      invariant SmootherAt(values, length, i) == Running(prev)
      invariant forall j :: 0 <= j < i ==> out[j] == RmaAt(values, length, j)
    {
      var v := values[i];
      if v.Some? {
        prev := Blend(alpha, v.value, prev);
      }
      out[i] := Some(prev);
      i := i + 1;
    }
  }

  lemma {:induction false} SmootherReadsOnlyThePast(v: seq<Num>, w: seq<Num>, length: int, i: nat)
    requires length >= 1 && v <= w && i <= |v|
    ensures SmootherAt(v, length, i) == SmootherAt(w, length, i)
  {
    if i > 0 { SmootherReadsOnlyThePast(v, w, length, i - 1); }
  }

  lemma RmaCausal(v: seq<Num>, w: seq<Num>, length: int)
    requires v <= w
    ensures Rma(v, length) <= Rma(w, length)
  {
    if length >= 1 {
      forall i | 0 <= i < |v| ensures Rma(v, length)[i] == Rma(w, length)[i] {
        SmootherReadsOnlyThePast(v, w, length, i + 1);
      }
    }
  }

  /** Smoothing is a convex combination: bounds on the readings pass through,
      holes included. */
  lemma {:induction false} SmootherStaysInBounds(v: seq<Num>, length: int, i: nat, hi: real)
    requires length >= 1 && i <= |v| && hi >= 0.0
    requires forall j :: 0 <= j < |v| && v[j].Some? ==> 0.0 <= v[j].value <= hi
    ensures match SmootherAt(v, length, i)
            case Seeding(seen, sum) => 0.0 <= sum <= Total(seen, hi) && seen < length
            case Running(prev) => 0.0 <= prev <= hi
  {
    if i == 0 {
      TotalSteps(0, hi);
    } else {
      SmootherStaysInBounds(v, length, i - 1, hi);
      if v[i - 1].Some? {
        match SmootherAt(v, length, i - 1)
        case Seeding(seen, sum) =>
          TotalSteps(seen, hi);
          if seen + 1 == length { MeanBounds(sum + v[i - 1].value, length, hi); }
        case Running(prev) => BlendBounds(Alpha(length), v[i - 1].value, prev, hi) by { AlphaInUnit(length); }
      }
    }
  }

  function Total(n: int, each: real): real { n as real * each }

  lemma TotalSteps(n: int, each: real)
    ensures Total(0, each) == 0.0
    ensures Total(n + 1, each) == Total(n, each) + each
  {
    assert (n + 1) as real * each == n as real * each + each;
  }

  lemma AlphaInUnit(length: int)
    requires length >= 1
    ensures 0.0 < Alpha(length) <= 1.0
  {
  }

  lemma MeanBounds(sum: real, length: int, hi: real)
    requires length >= 1 && 0.0 <= sum <= Total(length, hi)
    ensures 0.0 <= Mean(sum, length) <= hi
  {
    QuotientBounds(sum, length as real, hi);
  }

  lemma QuotientBounds(a: real, b: real, hi: real)
    requires b > 0.0 && 0.0 <= a <= b * hi
    ensures 0.0 <= a / b <= hi
  {
    var m := a / b;
    assert m * b == a;
    NonNegativeFactor(m, b);
    var d := hi - m;
    assert d * b == b * hi - a;
    NonNegativeFactor(d, b);
  }

  lemma NonNegativeFactor(x: real, n: real)
    requires n > 0.0 && x * n >= 0.0
    ensures x >= 0.0
  {
  }

  lemma NonNegativeProduct(x: real, y: real)
    requires x >= 0.0 && y >= 0.0
    ensures x * y >= 0.0
  {
  }

  lemma BlendBounds(alpha: real, v: real, prev: real, hi: real)
    requires 0.0 <= alpha <= 1.0 && 0.0 <= prev <= hi && 0.0 <= v <= hi
    ensures 0.0 <= Blend(alpha, v, prev) <= hi
  {
    var beta := 1.0 - alpha;
    NonNegativeProduct(alpha, v);
    NonNegativeProduct(beta, prev);
    NonNegativeProduct(alpha, hi - v);
    NonNegativeProduct(beta, hi - prev);
    assert alpha * (hi - v) + beta * (hi - prev) == hi - Blend(alpha, v, prev);
  }

  // ---------------------------------------------------------------- true range

  function TrueRange(f: Frame, i: nat): real
    requires i < |f|
  {
    if i == 0 then f[0].high - f[0].low
    else
      var pc := f[i - 1].close;
      Max(Max(f[i].high - f[i].low, Abs(f[i].high - pc)), Abs(f[i].low - pc))
  }

  function TrueRanges(f: Frame): (r: seq<Num>)
    ensures |r| == |f|
  {
    seq(|f|, i requires 0 <= i < |f| => Some(TrueRange(f, i)))
  }

  method TrueRangeKernel(f: Frame) returns (out: array<Num>)
    ensures fresh(out) && out[..] == TrueRanges(f)
  {
    var n := |f|;
    out := new Num[n](_ => None);
    if n == 0 {
      return;
    }
    out[0] := Some(f[0].high - f[0].low);
    for i := 1 to n
      invariant forall j :: 0 <= j < i ==> out[j] == TrueRanges(f)[j]
    {
      var pc := f[i - 1].close;
      var a, b, c := f[i].high - f[i].low, Abs(f[i].high - pc), Abs(f[i].low - pc);
      var m := a;
      if b > m { m := b; }
      if c > m { m := c; }
      out[i] := Some(m);
    }
  }

  function Atr(f: Frame, length: int): (r: seq<Num>)
    ensures |r| == |f|
  {
    Rma(TrueRanges(f), length)
  }

  lemma AtrCausal(f: Frame, g: Frame, length: int)
    requires f <= g
    ensures Atr(f, length) <= Atr(g, length)
  {
    assert TrueRanges(f) <= TrueRanges(g);
    RmaCausal(TrueRanges(f), TrueRanges(g), length);
  }

  // ---------------------------------------------------------------- Williams %R

  /** Highest high over bars `from..i`. */
  function HighestHigh(f: Frame, from: nat, i: nat): real
    requires from <= i < |f|
    decreases i - from
  {
    if from == i then f[i].high else Max(HighestHigh(f, from, i - 1), f[i].high)
  }

  function LowestLow(f: Frame, from: nat, i: nat): real
    requires from <= i < |f|
    decreases i - from
  {
    if from == i then f[i].low else Min(LowestLow(f, from, i - 1), f[i].low)
  }

  /** They are the extremes of the window, attained at bars `hi` and `lo` in it. */
  lemma {:induction false} ExtremesOfWindow(f: Frame, from: nat, i: nat) returns (hi: nat, lo: nat)
    requires from <= i < |f|
    ensures forall j :: from <= j <= i ==> f[j].high <= HighestHigh(f, from, i) && LowestLow(f, from, i) <= f[j].low
    ensures from <= hi <= i && f[hi].high == HighestHigh(f, from, i)
    ensures from <= lo <= i && f[lo].low == LowestLow(f, from, i)
    decreases i - from
  {
    hi, lo := i, i;
    if from < i {
      var h, l := ExtremesOfWindow(f, from, i - 1);
      if f[i].high <= f[h].high { hi := h; }
      if f[l].low <= f[i].low { lo := l; }
    }
  }

  function WprAt(f: Frame, length: int, i: nat): Num
    requires i < |f|
  {
    if length < 1 || i + 1 < length then None
    else
      var hh, ll := HighestHigh(f, i + 1 - length, i), LowestLow(f, i + 1 - length, i);
      if hh - ll <= 0.0 then None else Some(Percent(f[i].close - hh, hh - ll))
  }

  function Wpr(f: Frame, length: int): (r: seq<Num>)
    ensures |r| == |f|
  {
    seq(|f|, i requires 0 <= i < |f| => WprAt(f, length, i))
  }

  /** The inner loop: extremes seeded with the current bar, scanned forward. */
  method WindowExtremes(f: Frame, from: nat, i: nat) returns (hh: real, ll: real)
    requires from <= i < |f|
    ensures hh == HighestHigh(f, from, i) && ll == LowestLow(f, from, i)
  {
    hh, ll := f[i].high, f[i].low;
    for j := from to i + 1
      invariant hh == if j == from then f[i].high else Max(HighestHigh(f, from, j - 1), f[i].high)
      invariant ll == if j == from then f[i].low else Min(LowestLow(f, from, j - 1), f[i].low)
    {
      if f[j].high > hh { hh := f[j].high; }
      if f[j].low < ll { ll := f[j].low; }
    }
  }

  /** `_wpr`: an extremum loop inside the bar loop. */
  method WprKernel(f: Frame, length: int) returns (out: array<Num>)
    ensures fresh(out) && out[..] == Wpr(f, length)
  {
    var n := |f|;
    out := new Num[n](_ => None);
    if length < 1 || n < length {
      return;
    }
    for i := length - 1 to n
      invariant forall j :: 0 <= j < i ==> out[j] == WprAt(f, length, j)
      invariant forall j :: i <= j < n ==> out[j] == None
    {
      var hh, ll := WindowExtremes(f, i - length + 1, i);
      var rng := hh - ll;
      if rng > 0.0 {
        out[i] := Some(Percent(f[i].close - hh, rng));
      }
    }
  }

  lemma {:induction false} ExtremesCausal(f: Frame, g: Frame, from: nat, i: nat)
    requires f <= g && from <= i < |f|
    ensures HighestHigh(f, from, i) == HighestHigh(g, from, i)
    ensures LowestLow(f, from, i) == LowestLow(g, from, i)
    decreases i - from
  {
    if from < i { ExtremesCausal(f, g, from, i - 1); }
  }

  lemma WprCausal(f: Frame, g: Frame, length: int)
    requires f <= g
    ensures Wpr(f, length) <= Wpr(g, length)
  {
    forall i | 0 <= i < |f| ensures WprAt(f, length, i) == WprAt(g, length, i) {
      if length >= 1 && i + 1 >= length { ExtremesCausal(f, g, i + 1 - length, i); }
    }
  }

  /** Every bar's close lies between its low and its high. */
  ghost predicate Coherent(f: Frame) {
    forall i :: 0 <= i < |f| ==> f[i].low <= f[i].close <= f[i].high
  }

  lemma WprInRange(f: Frame, length: int, i: nat)
    requires Coherent(f) && i < |f|
    ensures WprAt(f, length, i).Some? ==> -100.0 <= WprAt(f, length, i).value <= 0.0
  {
    if WprAt(f, length, i).Some? {
      var hh, ll := HighestHigh(f, i + 1 - length, i), LowestLow(f, i + 1 - length, i);
      assert ll <= f[i].low && f[i].high <= hh;
      PercentRange(hh - f[i].close, hh - ll);
      PercentOfNegated(hh - f[i].close, hh - ll);
    }
  }

  lemma PercentRange(a: real, b: real)
    requires b > 0.0 && 0.0 <= a <= b
    ensures 0.0 <= Percent(a, b) <= 100.0
  {
    QuotientBounds(100.0 * a, b, 100.0);
  }

  lemma PercentOfNegated(a: real, b: real)
    requires b > 0.0
    ensures Percent(-a, b) == -Percent(a, b)
  {
    var x, y := 100.0 * a / b, 100.0 * -a / b;
    assert x * b == 100.0 * a && y * b == 100.0 * -a;
    var d := x + y;
    assert d * b == 0.0;
    NonNegativeFactor(d, b);
    NonNegativeFactor(-d, b);
  }

  // ---------------------------------------------------------------- DMI

  function PlusDm(f: Frame, i: nat): real
    requires i < |f|
  {
    if i == 0 then 0.0
    else
      var up, down := f[i].high - f[i - 1].high, f[i - 1].low - f[i].low;
      if up > down && up > 0.0 then up else 0.0
  }

  function MinusDm(f: Frame, i: nat): real
    requires i < |f|
  {
    if i == 0 then 0.0
    else
      var up, down := f[i].high - f[i - 1].high, f[i - 1].low - f[i].low;
      if down > up && down > 0.0 then down else 0.0
  }

  function PlusDms(f: Frame): (r: seq<Num>)
    ensures |r| == |f|
  {
    seq(|f|, i requires 0 <= i < |f| => Some(PlusDm(f, i)))
  }

  function MinusDms(f: Frame): (r: seq<Num>)
    ensures |r| == |f|
  {
    seq(|f|, i requires 0 <= i < |f| => Some(MinusDm(f, i)))
  }

  /** One directional index: 100 x smoothed movement over smoothed range. */
  function DiOf(moved: Num, range: Num): Num {
    if range.None? || moved.None? || range.value == 0.0 then None else Some(Percent(moved.value, range.value))
  }

  function DxOf(p: Num, m: Num): Num {
    if p.None? || m.None? then None
    else
      var denom := p.value + m.value;
      if denom > 0.0 then Some(Percent(Abs(p.value - m.value), denom)) else Some(0.0)
  }

  function PlusDi(f: Frame, length: int): (r: seq<Num>)
    ensures |r| == |f|
  {
    var s, t := Rma(PlusDms(f), length), Atr(f, length);
    seq(|f|, i requires 0 <= i < |f| => DiOf(s[i], t[i]))
  }

  function MinusDi(f: Frame, length: int): (r: seq<Num>)
    ensures |r| == |f|
  {
    var s, t := Rma(MinusDms(f), length), Atr(f, length);
    seq(|f|, i requires 0 <= i < |f| => DiOf(s[i], t[i]))
  }

  function Dx(f: Frame, length: int): (r: seq<Num>)
    ensures |r| == |f|
  {
    var p, m := PlusDi(f, length), MinusDi(f, length);
    seq(|f|, i requires 0 <= i < |f| => DxOf(p[i], m[i]))
  }

  function Adx(f: Frame, diLength: int, smoothing: int): (r: seq<Num>)
    ensures |r| == |f|
  {
    Rma(Dx(f, diLength), smoothing)
  }

  method DirectionalMovement(f: Frame) returns (plusDm: array<Num>, minusDm: array<Num>)
    ensures fresh(plusDm) && plusDm[..] == PlusDms(f)
    ensures fresh(minusDm) && minusDm[..] == MinusDms(f)
  {
    var n := |f|;
    plusDm, minusDm := new Num[n](_ => Some(0.0)), new Num[n](_ => Some(0.0));
    for i := 1 to if n == 0 then 1 else n
      invariant forall j :: 0 <= j < i && j < n ==> plusDm[j] == Some(PlusDm(f, j)) && minusDm[j] == Some(MinusDm(f, j))
      invariant forall j :: i <= j < n ==> plusDm[j] == minusDm[j] == Some(0.0)
    {
      var up, down := f[i].high - f[i - 1].high, f[i - 1].low - f[i].low;
      plusDm[i] := Some(if up > down && up > 0.0 then up else 0.0);
      minusDm[i] := Some(if down > up && down > 0.0 then down else 0.0);
    }
  }

  method DirectionalIndices(plusS: seq<Num>, minusS: seq<Num>, trS: seq<Num>)
    returns (plusDi: array<Num>, minusDi: array<Num>, dx: array<Num>)
    requires |plusS| == |minusS| == |trS|
    requires forall i :: 0 <= i < |trS| ==> plusS[i].Some? == trS[i].Some? == minusS[i].Some?
    ensures fresh(plusDi) && plusDi.Length == |trS| && fresh(minusDi) && minusDi.Length == |trS|
    ensures fresh(dx) && dx.Length == |trS|
    ensures forall i :: 0 <= i < |trS| ==> plusDi[i] == DiOf(plusS[i], trS[i]) && minusDi[i] == DiOf(minusS[i], trS[i])
    ensures forall i :: 0 <= i < |trS| ==> dx[i] == DxOf(DiOf(plusS[i], trS[i]), DiOf(minusS[i], trS[i]))
  {
    var n := |trS|;
    plusDi, minusDi := new Num[n](_ => None), new Num[n](_ => None);
    dx := new Num[n](_ => None);
    for i := 0 to n
      invariant forall j :: 0 <= j < i ==> plusDi[j] == DiOf(plusS[j], trS[j]) && minusDi[j] == DiOf(minusS[j], trS[j])
      invariant forall j :: 0 <= j < i ==> dx[j] == DxOf(DiOf(plusS[j], trS[j]), DiOf(minusS[j], trS[j]))
      invariant forall j :: i <= j < n ==> plusDi[j] == minusDi[j] == dx[j] == None
    {
      var t := trS[i];
      if t.Some? && t.value != 0.0 {
        var p := Percent(plusS[i].value, t.value);
        var m := Percent(minusS[i].value, t.value);
        plusDi[i] := Some(p);
        minusDi[i] := Some(m);
        var denom := p + m;
        if denom > 0.0 {
          dx[i] := Some(Percent(Abs(p - m), denom));
        } else {
          dx[i] := Some(0.0);
        }
      }
    }
  }

  /** `_dmi`: +DI, -DI and ADX. */
  method DmiKernel(f: Frame, diLength: int, smoothing: int)
    returns (plusDi: array<Num>, minusDi: array<Num>, adx: array<Num>)
    ensures fresh(plusDi) && plusDi[..] == PlusDi(f, diLength)
    ensures fresh(minusDi) && minusDi[..] == MinusDi(f, diLength)
    ensures fresh(adx) && adx[..] == Adx(f, diLength, smoothing)
  {
    var plusDm, minusDm := DirectionalMovement(f);
    var plusS := RmaKernel(plusDm[..], diLength);
    var minusS := RmaKernel(minusDm[..], diLength);
    var tr := TrueRangeKernel(f);
    var trS := RmaKernel(tr[..], diLength);
    SmoothedTogether(PlusDms(f), TrueRanges(f), diLength);
    SmoothedTogether(MinusDms(f), TrueRanges(f), diLength);
    var dx;
    plusDi, minusDi, dx := DirectionalIndices(plusS[..], minusS[..], trS[..]);
    assert dx[..] == Dx(f, diLength);
    adx := RmaKernel(dx[..], smoothing);
  }

  /** Two hole-free series of one length are seeded on the same bar. */
  lemma SmoothedTogether(v: seq<Num>, w: seq<Num>, length: int)
    requires |v| == |w|
    requires forall j :: 0 <= j < |v| ==> v[j].Some? && w[j].Some?
    ensures forall i :: 0 <= i < |v| ==> (Rma(v, length)[i].Some? <==> Rma(w, length)[i].Some?)
  {
    if length >= 1 {
      forall i | 0 <= i < |v| ensures Rma(v, length)[i].Some? <==> Rma(w, length)[i].Some? {
        SeededAfterLength(v, length, i + 1);
        SeededAfterLength(w, length, i + 1);
      }
    }
  }

  lemma {:induction false} SeededAfterLength(v: seq<Num>, length: int, i: nat)
    requires length >= 1 && i <= |v|
    requires forall j :: 0 <= j < |v| ==> v[j].Some?
    ensures var s := SmootherAt(v, length, i);
            if i < length then s.Seeding? && s.seen == i else s.Running?
  {
    if i > 0 { SeededAfterLength(v, length, i - 1); }
  }

  lemma DmiCausal(f: Frame, g: Frame, diLength: int, smoothing: int)
    requires f <= g
    ensures PlusDi(f, diLength) <= PlusDi(g, diLength)
    ensures MinusDi(f, diLength) <= MinusDi(g, diLength)
    ensures Adx(f, diLength, smoothing) <= Adx(g, diLength, smoothing)
  {
    assert PlusDms(f) <= PlusDms(g) && MinusDms(f) <= MinusDms(g);
    RmaCausal(PlusDms(f), PlusDms(g), diLength);
    RmaCausal(MinusDms(f), MinusDms(g), diLength);
    AtrCausal(f, g, diLength);
    assert Dx(f, diLength) <= Dx(g, diLength);
    RmaCausal(Dx(f, diLength), Dx(g, diLength), smoothing);
  }

  /** Directional movement never exceeds the true range of its bar. */
  lemma MovementWithinRange(f: Frame, i: nat)
    requires Coherent(f) && i < |f|
    ensures 0.0 <= PlusDm(f, i) && 0.0 <= MinusDm(f, i)
    ensures PlusDm(f, i) + MinusDm(f, i) <= TrueRange(f, i)
  {
  }

  /** Three smoothers in step, the first two non-negative and together within the third. */
  predicate Dominated(a: Smoother, b: Smoother, c: Smoother, length: int, i: nat) {
    if i < length then
      && a.Seeding? && b.Seeding? && c.Seeding? && a.seen == b.seen == c.seen == i
      && 0.0 <= a.sum && 0.0 <= b.sum && a.sum + b.sum <= c.sum
    else
      && a.Running? && b.Running? && c.Running?
      && 0.0 <= a.prev && 0.0 <= b.prev && a.prev + b.prev <= c.prev
  }

  lemma FeedKeepsDominance(a: Smoother, b: Smoother, c: Smoother, length: int, i: nat, p: real, m: real, t: real)
    requires length >= 1 && Dominated(a, b, c, length, i)
    requires 0.0 <= p && 0.0 <= m && p + m <= t
    ensures Dominated(Feed(a, Some(p), length), Feed(b, Some(m), length), Feed(c, Some(t), length), length, i + 1)
  {
    hide Mean, Blend, Alpha;
    if i + 1 == length {
      AveragesKeepDominance(a.sum + p, b.sum + m, c.sum + t, length);
    } else if i + 1 > length {
      AlphaInUnit(length);
      BlendKeepsDominance(Alpha(length), a.prev, b.prev, c.prev, p, m, t);
    }
  }

  /** Smoothing is linear and monotone: `p + m <= t` pointwise survives it. */
  lemma {:induction false} SmoothingKeepsDominance(p: seq<Num>, m: seq<Num>, t: seq<Num>, length: int, i: nat)
    requires length >= 1 && |p| == |m| == |t| && i <= |p|
    requires forall j :: 0 <= j < |p| ==> p[j].Some? && m[j].Some? && t[j].Some?
    requires forall j :: 0 <= j < |p| ==> 0.0 <= p[j].value && 0.0 <= m[j].value
                                          && p[j].value + m[j].value <= t[j].value
    ensures Dominated(SmootherAt(p, length, i), SmootherAt(m, length, i), SmootherAt(t, length, i), length, i)
  {
    if i > 0 {
      hide Feed, Dominated;
      SmoothingKeepsDominance(p, m, t, length, i - 1);
      FeedKeepsDominance(SmootherAt(p, length, i - 1), SmootherAt(m, length, i - 1), SmootherAt(t, length, i - 1),
                         length, i - 1, p[i - 1].value, m[i - 1].value, t[i - 1].value);
    }
  }

  lemma AveragesKeepDominance(a: real, b: real, c: real, length: int)
    requires length >= 1 && 0.0 <= a && 0.0 <= b && a + b <= c
    ensures 0.0 <= Mean(a, length) && 0.0 <= Mean(b, length) && Mean(a, length) + Mean(b, length) <= Mean(c, length)
  {
    MeansKeepDominance(a, b, c, length as real);
  }

  lemma MeansKeepDominance(a: real, b: real, c: real, n: real)
    requires n > 0.0 && 0.0 <= a && 0.0 <= b && a + b <= c
    ensures 0.0 <= a / n && 0.0 <= b / n && a / n + b / n <= c / n
  {
    var x, y, z := a / n, b / n, c / n;
    assert x * n == a && y * n == b && z * n == c;
    NonNegativeFactor(x, n);
    NonNegativeFactor(y, n);
    var d := z - x - y;
    assert d * n == c - a - b;
    NonNegativeFactor(d, n);
  }

  lemma BlendKeepsDominance(alpha: real, a: real, b: real, c: real, p: real, m: real, t: real)
    requires 0.0 <= alpha <= 1.0
    requires 0.0 <= a && 0.0 <= b && a + b <= c && 0.0 <= p && 0.0 <= m && p + m <= t
    ensures 0.0 <= Blend(alpha, p, a) && 0.0 <= Blend(alpha, m, b)
    ensures Blend(alpha, p, a) + Blend(alpha, m, b) <= Blend(alpha, t, c)
  {
    var beta := 1.0 - alpha;
    NonNegativeProduct(alpha, p);
    NonNegativeProduct(alpha, m);
    NonNegativeProduct(beta, a);
    NonNegativeProduct(beta, b);
    NonNegativeProduct(alpha, t - p - m);
    NonNegativeProduct(beta, c - a - b);
    assert alpha * (t - p - m) == alpha * t - alpha * p - alpha * m;
    assert beta * (c - a - b) == beta * c - beta * a - beta * b;
  }

  /** +DI and -DI are non-negative and sum to at most 100; DX lies in [0, 100]. */
  lemma DirectionalIndicesBounded(f: Frame, length: int, i: nat)
    requires Coherent(f) && i < |f|
    ensures var p, m := PlusDi(f, length)[i], MinusDi(f, length)[i];
            && (p.Some? <==> m.Some?)
            && (p.Some? ==> 0.0 <= p.value && 0.0 <= m.value && p.value + m.value <= 100.0)
    ensures Dx(f, length)[i].Some? ==> 0.0 <= Dx(f, length)[i].value <= 100.0
  {
    if length >= 1 {
      forall j | 0 <= j < |f|
        ensures 0.0 <= PlusDm(f, j) && 0.0 <= MinusDm(f, j) && PlusDm(f, j) + MinusDm(f, j) <= TrueRange(f, j)
      {
        MovementWithinRange(f, j);
      }
      SmoothingKeepsDominance(PlusDms(f), MinusDms(f), TrueRanges(f), length, i + 1);
      var p, m, t := Rma(PlusDms(f), length)[i], Rma(MinusDms(f), length)[i], Atr(f, length)[i];
      if t.Some? && t.value != 0.0 {
        SharesBounded(p.value, m.value, t.value);
        DxBounded(PlusDi(f, length)[i], MinusDi(f, length)[i]);
      }
    }
  }

  lemma SharesBounded(p: real, m: real, t: real)
    requires 0.0 <= p && 0.0 <= m && p + m <= t && t > 0.0
    ensures 0.0 <= Percent(p, t) && 0.0 <= Percent(m, t) && Percent(p, t) + Percent(m, t) <= 100.0
  {
    MeansKeepDominance(100.0 * p, 100.0 * m, 100.0 * t, t);
  }

  lemma DxBounded(p: Num, m: Num)
    requires p.Some? && m.Some? && 0.0 <= p.value && 0.0 <= m.value
    ensures DxOf(p, m).Some? && 0.0 <= DxOf(p, m).value <= 100.0
  {
    if p.value + m.value > 0.0 {
      PercentRange(Abs(p.value - m.value), p.value + m.value);
    }
  }

  /** ADX lies in [0, 100], through every missing DX. */
  lemma AdxBounded(f: Frame, diLength: int, smoothing: int, i: nat)
    requires Coherent(f) && i < |f|
    ensures var a := Adx(f, diLength, smoothing)[i]; a.Some? ==> 0.0 <= a.value <= 100.0
  {
    if smoothing >= 1 {
      var dx := Dx(f, diLength);
      forall j | 0 <= j < |dx| && dx[j].Some? ensures 0.0 <= dx[j].value <= 100.0 {
        DirectionalIndicesBounded(f, diLength, j);
      }
      SmootherStaysInBounds(dx, smoothing, i + 1, 100.0);
    }
  }

  // ---------------------------------------------------------------- Supertrend

  /** Direction is -1 in an uptrend and 1 in a downtrend, as Pine has it. */
  datatype Trend = NotStarted | Tracking(upper: real, lower: real, line: real, dir: int)

  function BandWidth(factor: real, atr: real): real { factor * atr }

  function TrendStep(s: Trend, f: Frame, i: nat, atr: Num, factor: real): Trend
    requires i < |f|
  {
    if atr.None? then s
    else
      var mid := (f[i].high + f[i].low) / 2.0;
      var band := BandWidth(factor, atr.value);
      var rawUpper, rawLower := mid + band, mid - band;
      match s
      case NotStarted => Tracking(rawUpper, rawLower, rawUpper, 1)
      case Tracking(pu, pl, _, pd) =>
        var pc := if i == 0 then f[i].close else f[i - 1].close;
        var lower := if rawLower > pl || pc < pl then rawLower else pl;
        var upper := if rawUpper < pu || pc > pu then rawUpper else pu;
        var dir := if pd == 1 then (if f[i].close > pu then -1 else 1)
                   else (if f[i].close < pl then 1 else -1);
        Tracking(upper, lower, if dir == -1 then lower else upper, dir)
  }

  /** The tracker after the first `i` bars, given each bar's ATR. */
  function TrendAt(f: Frame, atrs: seq<Num>, factor: real, i: nat): Trend
    requires i <= |f| == |atrs|
  {
    if i == 0 then NotStarted
    else TrendStep(TrendAt(f, atrs, factor, i - 1), f, i - 1, atrs[i - 1], factor)
  }

  function LineAt(f: Frame, atrs: seq<Num>, factor: real, i: nat): Num
    requires i < |f| == |atrs|
  {
    var s := TrendAt(f, atrs, factor, i + 1);
    if s.Tracking? && atrs[i].Some? then Some(s.line) else None
  }

  function DirectionAt(f: Frame, atrs: seq<Num>, factor: real, i: nat): Option<int>
    requires i < |f| == |atrs|
  {
    var s := TrendAt(f, atrs, factor, i + 1);
    if s.Tracking? && atrs[i].Some? then Some(s.dir) else None
  }

  function SupertrendLine(f: Frame, factor: real, atrPeriod: int): (r: seq<Num>)
    ensures |r| == |f|
  {
    var atrs := Atr(f, atrPeriod);
    seq(|f|, i requires 0 <= i < |f| => LineAt(f, atrs, factor, i))
  }

  function SupertrendDirection(f: Frame, factor: real, atrPeriod: int): (r: seq<Option<int>>)
    ensures |r| == |f|
  {
    var atrs := Atr(f, atrPeriod);
    seq(|f|, i requires 0 <= i < |f| => DirectionAt(f, atrs, factor, i))
  }

  /** One bar once started: ratchet both bands, then decide the direction. */
  method RatchetBands(f: Frame, i: nat, a: real, factor: real, prevUpper: real, prevLower: real, ghost prevSt: real,
                      prevDir: int) returns (upper: real, lower: real, value: real, d: int)
    requires 0 < i < |f|
    ensures Tracking(upper, lower, value, d)
            == TrendStep(Tracking(prevUpper, prevLower, prevSt, prevDir), f, i, Some(a), factor)
  {
    var mid := (f[i].high + f[i].low) / 2.0;
    upper, lower := mid + BandWidth(factor, a), mid - BandWidth(factor, a);
    var pc := f[i - 1].close;
    if !(lower > prevLower || pc < prevLower) { lower := prevLower; }
    if !(upper < prevUpper || pc > prevUpper) { upper := prevUpper; }
    if prevDir == 1 {
      d := if f[i].close > prevUpper then -1 else 1;
    } else {
      d := if f[i].close < prevLower then 1 else -1;
    }
    value := if d == -1 then lower else upper;
  }

  function Carried(started: bool, upper: real, lower: real, line: real, dir: int): Trend {
    if started then Tracking(upper, lower, line, dir) else NotStarted
  }

  /** `_supertrend`: bands, direction and line carried from bar to bar. */
  method SupertrendKernel(f: Frame, factor: real, atrPeriod: int)
    returns (st: array<Num>, direction: array<Option<int>>)
    ensures fresh(st) && st[..] == SupertrendLine(f, factor, atrPeriod)
    ensures fresh(direction) && direction[..] == SupertrendDirection(f, factor, atrPeriod)
  {
    var tr := TrueRangeKernel(f);
    var smoothed := RmaKernel(tr[..], atrPeriod);
    st, direction := TrackTrend(f, smoothed[..], factor);
  }

  method TrackTrend(f: Frame, atrV: seq<Num>, factor: real) returns (st: array<Num>, direction: array<Option<int>>)
    requires |atrV| == |f|
    ensures fresh(st) && st.Length == |f| && fresh(direction) && direction.Length == |f|
    ensures forall j :: 0 <= j < |f| ==> st[j] == LineAt(f, atrV, factor, j)
    ensures forall j :: 0 <= j < |f| ==> direction[j] == DirectionAt(f, atrV, factor, j)
  {
    var n := |f|;
    st := new Num[n](_ => None);
    direction := new Option<int>[n](_ => None);
    var prevUpper, prevLower, prevSt, prevDir, started := 0.0, 0.0, 0.0, 0, false;
    for i := 0 to n
      invariant TrendAt(f, atrV, factor, i) == Carried(started, prevUpper, prevLower, prevSt, prevDir)
      invariant started ==> i > 0
      invariant forall j :: 0 <= j < i ==> st[j] == LineAt(f, atrV, factor, j)
      invariant forall j :: 0 <= j < i ==> direction[j] == DirectionAt(f, atrV, factor, j)
      invariant forall j :: i <= j < n ==> st[j] == None && direction[j] == None
    {
      var a := atrV[i];
      if a.Some? {
        if !started {
          var mid := (f[i].high + f[i].low) / 2.0;
          prevUpper, prevLower := mid + BandWidth(factor, a.value), mid - BandWidth(factor, a.value);
          prevDir, prevSt := 1, prevUpper;
          started := true;
        } else {
          prevUpper, prevLower, prevSt, prevDir :=
            RatchetBands(f, i, a.value, factor, prevUpper, prevLower, prevSt, prevDir);
        }
        st[i], direction[i] := Some(prevSt), Some(prevDir);
      }
    }
  }

  lemma {:induction false} TrendReadsOnlyThePast(f: Frame, g: Frame, a: seq<Num>, b: seq<Num>, factor: real, i: nat)
    requires f <= g && a <= b && |a| == |f| && |b| == |g| && i <= |f|
    ensures TrendAt(f, a, factor, i) == TrendAt(g, b, factor, i)
  {
    if i > 0 { TrendReadsOnlyThePast(f, g, a, b, factor, i - 1); }
  }

  lemma SupertrendCausal(f: Frame, g: Frame, factor: real, atrPeriod: int)
    requires f <= g
    ensures SupertrendLine(f, factor, atrPeriod) <= SupertrendLine(g, factor, atrPeriod)
    ensures SupertrendDirection(f, factor, atrPeriod) <= SupertrendDirection(g, factor, atrPeriod)
  {
    AtrCausal(f, g, atrPeriod);
    var a, b := Atr(f, atrPeriod), Atr(g, atrPeriod);
    forall i | 0 <= i < |f|
      ensures LineAt(f, a, factor, i) == LineAt(g, b, factor, i)
      ensures DirectionAt(f, a, factor, i) == DirectionAt(g, b, factor, i)
    {
      TrendReadsOnlyThePast(f, g, a, b, factor, i + 1);
    }
  }

  // ---------------------------------------------------------------- start of the window

  function Power(base: real, n: nat): real {
    if n == 0 then 1.0 else base * Power(base, n - 1)
  }

  /** How many of the values are readings rather than NaN. */
  function Readings(vs: seq<Num>): nat {
    if vs == [] then 0 else Readings(vs[..|vs| - 1]) + if vs[|vs| - 1].Some? then 1 else 0
  }

  /** The last smoothed value of a series. */
  function LastRma(vs: seq<Num>, length: int): Num {
    if vs == [] then None else Rma(vs, length)[|vs| - 1]
  }

  lemma LastRmaSteps(vs: seq<Num>, length: int)
    requires length >= 1 && vs != [] && LastRma(vs[..|vs| - 1], length).Some?
    ensures var prev, v := LastRma(vs[..|vs| - 1], length).value, vs[|vs| - 1];
            LastRma(vs, length) == Some(if v.None? then prev else Blend(Alpha(length), v.value, prev))
  {
    SmootherReadsOnlyThePast(vs[..|vs| - 1], vs, length, |vs| - 1);
  }

  lemma BlendContracts(beta: real, x: real, y: real, power: real, gap: real)
    requires x - y == power * gap
    ensures beta * x - beta * y == beta * power * gap
  {
    assert beta * x - beta * y == beta * (x - y);
  }

  /** Where the window starts is forgotten geometrically: of two histories of any
      length, both seeded, followed by the same values, `k` readings on the averages
      differ by (1 - 1/length)^k of what they differed before. */
  lemma {:induction false} SmoothingForgetsItsSeed(v: seq<Num>, w: seq<Num>, vs: seq<Num>, length: int)
    requires length >= 1 && LastRma(v, length).Some? && LastRma(w, length).Some?
    ensures LastRma(v + vs, length).Some? && LastRma(w + vs, length).Some?
    ensures LastRma(v + vs, length).value - LastRma(w + vs, length).value
            == Power(1.0 - Alpha(length), Readings(vs)) * (LastRma(v, length).value - LastRma(w, length).value)
    decreases |vs|
  {
    hide LastRma;
    if vs == [] {
      assert v + vs == v && w + vs == w;
    } else {
      var before, last := vs[..|vs| - 1], vs[|vs| - 1];
      var beta := 1.0 - Alpha(length);
      assert (v + vs)[..|v + vs| - 1] == v + before && (w + vs)[..|w + vs| - 1] == w + before;
      SmoothingForgetsItsSeed(v, w, before, length);
      LastRmaSteps(v + vs, length);
      LastRmaSteps(w + vs, length);
      BlendContracts(beta, LastRma(v + before, length).value, LastRma(w + before, length).value,
                     Power(beta, Readings(before)), LastRma(v, length).value - LastRma(w, length).value);
    }
  }
}
