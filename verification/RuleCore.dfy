/** deltabt/rulecore.py: a strategy specification turned into per-bar signals.
    Every array function here is causal: a longer frame extends its result. */
module RuleCore {
  import opened Numbers
  import opened Indicators
  import Exits

  datatype SupertrendMode = SupertrendOff | Aligned | Flip | FlipRecent | Counter

  datatype WprRule = NoWprRule | VariantA | Banded | BandedFade | CrossLevels | CrossRecent | NotExhausted

  datatype Rules = Rules(supertrend: SupertrendMode, di: bool, adxMin: Num,
                         wprRule: WprRule, wprLong: real, wprShort: real)

  /** The two stop modes that need nothing but bars and their ATR. */
  datatype StopMode = AtrStop | FixedPct

  datatype Sides = BothSides | LongOnly | ShortOnly

  datatype Spec = Spec(primaryMinutes: int, confirmMinutes: int, stMultiplier: real, stAtrPeriod: int,
                       diPeriod: int, adxPeriod: int, wprPeriod: int, primary: Rules, confirm: Rules,
                       edge: bool, stop: StopMode, stopAtrPeriod: int, stopAtrMultiplier: real, stopPct: real,
                       targetR: real, maxStopPct: real, entryHours: Option<(int, int)>,
                       eventWindow: Option<int>, sides: Sides, protection: Exits.Protection)

  predicate Enabled(r: Rules) {
    r.supertrend != SupertrendOff || r.di || r.adxMin.Some? || r.wprRule != NoWprRule
  }

  predicate Windowed(r: Rules) {
    r.supertrend == FlipRecent || r.wprRule == CrossRecent
  }

  predicate ValidRules(r: Rules) {
    && (r.adxMin.Some? ==> r.adxMin.value >= 0.0)
    && (r.wprRule != NoWprRule ==> -100.0 < r.wprLong < r.wprShort < 0.0)
  }

  /** `StrategySpec.validate`; names outside the enumerations cannot be written here. */
  predicate ValidSpec(s: Spec) {
    var windowed := Windowed(s.primary) || Windowed(s.confirm);
    && (windowed ==> s.eventWindow.Some? && s.eventWindow.value >= 1)
    && (s.eventWindow.Some? ==> windowed)
    && ValidRules(s.primary) && ValidRules(s.confirm)
    && s.primaryMinutes >= 1 && s.confirmMinutes >= 1
    && (Enabled(s.confirm) ==> s.primaryMinutes % s.confirmMinutes == 0 || s.confirmMinutes % s.primaryMinutes == 0)
    && s.targetR > 0.0
    && Exits.Valid(s.protection)
    && (s.stop == FixedPct ==> 0.0 < s.stopPct < 1.0)
    && (s.entryHours.Some? ==> var (lo, hi) := s.entryHours.value;
                               0 <= lo <= 23 && 1 <= hi <= 24 && lo != hi && !(lo == 0 && hi == 24))
  }

  function MaxOf(a: int, b: int): int { if a < b then b else a }

  function WarmupBars(s: Spec): int {
    MaxOf(MaxOf(s.wprPeriod, s.diPeriod + 2 * s.adxPeriod), MaxOf(s.stAtrPeriod, s.stopAtrPeriod)) + 5
  }

  // ---------------------------------------------------------------- indicators

  /** One row of `TimeframeIndicators`. */
  datatype Reading = Reading(time: int, close: real, line: Num, direction: Option<int>, plusDi: Num, minusDi: Num,
                             adx: Num, wpr: Num, atr: Num, legStart: int, legDeterminate: bool)

  function Finite(direction: seq<Option<int>>): (r: seq<bool>)
    ensures |r| == |direction|
  {
    seq(|direction|, i requires 0 <= i < |direction| => direction[i].Some?)
  }

  /** A leg starts at the first finite bar and at every flip thereafter. The first
      finite index is searched over the whole array. */
  function LegStarts(direction: seq<Option<int>>): (r: seq<bool>)
    ensures |r| == |direction|
  {
    var first := FirstTrue(Finite(direction));
    seq(|direction|, i requires 0 <= i < |direction| =>
      && direction[i].Some?
      && (i == first || (i > 0 && direction[i - 1].Some? && direction[i] != direction[i - 1])))
  }

  function ReadingsOf(f: Frame, s: Spec): (r: seq<Reading>)
    ensures |r| == |f|
  {
    var direction := SupertrendDirection(f, s.stMultiplier, s.stAtrPeriod);
    Rows(f, SupertrendLine(f, s.stMultiplier, s.stAtrPeriod), direction, PlusDi(f, s.diPeriod), MinusDi(f, s.diPeriod),
         Adx(f, s.diPeriod, s.adxPeriod), Wpr(f, s.wprPeriod), Atr(f, s.stopAtrPeriod),
         IndexWhere(LegStarts(direction)), WarmupBars(s))
  }

  function Rows(f: Frame, line: seq<Num>, direction: seq<Option<int>>, plusDi: seq<Num>, minusDi: seq<Num>,
                adx: seq<Num>, wpr: seq<Num>, atr: seq<Num>, starts: seq<int>, warmup: int): (r: seq<Reading>)
    requires |line| == |direction| == |plusDi| == |minusDi| == |adx| == |wpr| == |atr| == |starts| == |f|
    ensures |r| == |f|
  {
    seq(|f|, i requires 0 <= i < |f| =>
      var leg := MaxAccumulate(starts, i);
      Reading(f[i].time, f[i].close, line[i], direction[i], plusDi[i], minusDi[i], adx[i], wpr[i], atr[i],
              leg, direction[i].Some? && leg >= warmup))
  }

  /** `indicators`, out of the kernels. */
  method IndicatorRows(f: Frame, s: Spec) returns (r: seq<Reading>)
    ensures r == ReadingsOf(f, s)
  {
    var st, direction := SupertrendKernel(f, s.stMultiplier, s.stAtrPeriod);
    var plusDi, minusDi, adx := DmiKernel(f, s.diPeriod, s.adxPeriod);
    var wpr := WprKernel(f, s.wprPeriod);
    var tr := TrueRangeKernel(f);
    var atr := RmaKernel(tr[..], s.stopAtrPeriod);
    var starts := IndexWhere(LegStarts(direction[..]));
    r := Rows(f, st[..], direction[..], plusDi[..], minusDi[..], adx[..], wpr[..], atr[..], starts, WarmupBars(s));
  }

  lemma LegStartsCausal(d: seq<Option<int>>, e: seq<Option<int>>)
    requires d <= e
    ensures LegStarts(d) <= LegStarts(e)
  {
    forall i | 0 <= i < |d| ensures LegStarts(d)[i] == LegStarts(e)[i] {
      if d[i].Some? {
        assert Finite(d)[i] && Finite(e)[i];
        var p, q := FirstTrue(Finite(d)), FirstTrue(Finite(e));
        assert Finite(e)[p] && Finite(d)[p];
        assert q < |d| ==> Finite(d)[q];
      }
    }
  }

  lemma ReadingsCausal(f: Frame, g: Frame, s: Spec)
    requires f <= g
    ensures ReadingsOf(f, s) <= ReadingsOf(g, s)
  {
    SupertrendCausal(f, g, s.stMultiplier, s.stAtrPeriod);
    DmiCausal(f, g, s.diPeriod, s.adxPeriod);
    WprCausal(f, g, s.wprPeriod);
    AtrCausal(f, g, s.stopAtrPeriod);
    var d, e := SupertrendDirection(f, s.stMultiplier, s.stAtrPeriod),
        SupertrendDirection(g, s.stMultiplier, s.stAtrPeriod);
    LegStartsCausal(d, e);
    var x, y := IndexWhere(LegStarts(d)), IndexWhere(LegStarts(e));
    assert x <= y;
    forall i | 0 <= i < |f| ensures ReadingsOf(f, s)[i] == ReadingsOf(g, s)[i] {
      MaxAccumulateCausal(x, y, i);
    }
  }

  // ---------------------------------------------------------------- recent events

  function CumSum(event: seq<bool>, t: nat): nat
    requires t < |event|
  {
    (if event[t] then 1 else 0) + if t == 0 then 0 else CumSum(event, t - 1)
  }

  /** `_recent` at bar `t`: a difference of cumulative sums. */
  function Recent(event: seq<bool>, window: int, t: nat): bool
    requires t < |event|
  {
    if window <= 1 then event[t]
    else
      var before := if t < window then 0 else CumSum(event, t - window);
      CumSum(event, t) - before > 0
  }

  lemma {:induction false} CumSumGap(event: seq<bool>, a: int, t: nat)
    requires -1 <= a <= t < |event|
    ensures var before := if a < 0 then 0 else CumSum(event, a);
            && CumSum(event, t) >= before
            && (CumSum(event, t) > before <==> exists j :: a < j <= t && event[j])
    decreases t
  {
    if a < t && t > 0 {
      CumSumGap(event, a, t - 1);
    }
  }

  /** The cumulative-sum form is exactly "on this bar or any of the window-1 before". */
  lemma RecentIsWindowed(event: seq<bool>, window: int, t: nat)
    requires t < |event| && window >= 1
    ensures Recent(event, window, t) <==> exists j :: 0 <= j <= t && t - window < j && event[j]
  {
    CumSumGap(event, if t < window then -1 else t - window, t);
  }

  // ---------------------------------------------------------------- gates

  function EffectiveWindow(window: Option<int>): int {
    if window.None? || window.value == 0 then 1 else window.value
  }

  predicate Bull(d: Option<int>) { d.Some? && d.value < 0 }

  predicate Bear(d: Option<int>) { d.Some? && d.value > 0 }

  function PrevDirection(ti: seq<Reading>, t: nat): Option<int>
    requires t < |ti|
  {
    if t == 0 then None else ti[t - 1].direction
  }

  function PrevWpr(ti: seq<Reading>, t: nat): Num
    requires t < |ti|
  {
    if t == 0 then None else ti[t - 1].wpr
  }

  /** The leg at `t` began within the last `w` bars and not inside the warm-up. */
  predicate FreshLeg(ti: seq<Reading>, w: int, t: nat)
    requires t < |ti|
  {
    ti[t].legDeterminate && 0 <= t - ti[t].legStart < w
  }

  predicate TrendUp(ti: seq<Reading>, mode: SupertrendMode, w: int, t: nat)
    requires t < |ti|
  {
    var dp := PrevDirection(ti, t);
    && Bull(ti[t].direction)
    && (mode == Flip ==> dp.Some? && dp.value >= 0)
    && (mode == FlipRecent ==> FreshLeg(ti, w, t))
  }

  predicate TrendDown(ti: seq<Reading>, mode: SupertrendMode, w: int, t: nat)
    requires t < |ti|
  {
    var dp := PrevDirection(ti, t);
    && Bear(ti[t].direction)
    && (mode == Flip ==> dp.Some? && dp.value <= 0)
    && (mode == FlipRecent ==> FreshLeg(ti, w, t))
  }

  function CrossUp(ti: seq<Reading>, level: real): (r: seq<bool>)
    ensures |r| == |ti|
  {
    seq(|ti|, t requires 0 <= t < |ti| =>
      var w, wp := ti[t].wpr, PrevWpr(ti, t);
      w.Some? && wp.Some? && w.value > level && wp.value <= level)
  }

  function CrossDown(ti: seq<Reading>, level: real): (r: seq<bool>)
    ensures |r| == |ti|
  {
    seq(|ti|, t requires 0 <= t < |ti| =>
      var w, wp := ti[t].wpr, PrevWpr(ti, t);
      w.Some? && wp.Some? && w.value < level && wp.value >= level)
  }

  predicate Rising(w: Num, wp: Num) { w.Some? && wp.Some? && w.value > wp.value }

  predicate Falling(w: Num, wp: Num) { w.Some? && wp.Some? && w.value < wp.value }

  predicate Within(w: Num, lo: real, hi: real) { w.Some? && lo < w.value < hi }

  predicate WprLongOk(ti: seq<Reading>, r: Rules, w: int, t: nat)
    requires t < |ti|
  {
    var now, before := ti[t].wpr, PrevWpr(ti, t);
    var mid := 0.5 * (r.wprLong + r.wprShort);
    match r.wprRule
    case NoWprRule => true
    case VariantA => Rising(now, before) && now.value > r.wprLong
    case Banded => Rising(now, before) && Within(now, r.wprLong, mid)
    case BandedFade => Falling(now, before) && Within(now, mid, r.wprShort)
    case CrossLevels => CrossUp(ti, r.wprLong)[t]
    case CrossRecent =>
      Recent(CrossUp(ti, r.wprLong), w, t) && now.Some? && before.Some? && now.value > r.wprLong
    case NotExhausted => now.Some? && now.value < r.wprShort
  }

  predicate WprShortOk(ti: seq<Reading>, r: Rules, w: int, t: nat)
    requires t < |ti|
  {
    var now, before := ti[t].wpr, PrevWpr(ti, t);
    var mid := 0.5 * (r.wprLong + r.wprShort);
    match r.wprRule
    case NoWprRule => true
    case VariantA => Falling(now, before) && now.value < r.wprShort
    case Banded => Falling(now, before) && Within(now, mid, r.wprShort)
    case BandedFade => Rising(now, before) && Within(now, r.wprLong, mid)
    case CrossLevels => CrossDown(ti, r.wprShort)[t]
    case CrossRecent =>
      Recent(CrossDown(ti, r.wprShort), w, t) && now.Some? && before.Some? && now.value < r.wprShort
    case NotExhausted => now.Some? && now.value > r.wprLong
  }

  /** The Supertrend component; `Counter` swaps the sides. */
  predicate TrendLongOk(ti: seq<Reading>, r: Rules, w: int, t: nat)
    requires t < |ti|
  {
    match r.supertrend
    case SupertrendOff => true
    case Counter => TrendDown(ti, Counter, w, t)
    case mode => TrendUp(ti, mode, w, t)
  }

  predicate TrendShortOk(ti: seq<Reading>, r: Rules, w: int, t: nat)
    requires t < |ti|
  {
    match r.supertrend
    case SupertrendOff => true
    case Counter => TrendUp(ti, Counter, w, t)
    case mode => TrendDown(ti, mode, w, t)
  }

  predicate DiLongOk(x: Reading, r: Rules) {
    !r.di || (x.plusDi.Some? && x.minusDi.Some? && x.plusDi.value > x.minusDi.value)
  }

  predicate DiShortOk(x: Reading, r: Rules) {
    !r.di || (x.plusDi.Some? && x.minusDi.Some? && x.minusDi.value > x.plusDi.value)
  }

  predicate AdxOk(x: Reading, r: Rules) {
    r.adxMin.None? || (x.adx.Some? && x.adx.value >= r.adxMin.value)
  }

  /** The long conjunction at bar `t`; a missing reading never passes. */
  predicate GateLong(ti: seq<Reading>, r: Rules, window: Option<int>, t: nat)
    requires t < |ti|
  {
    var w := EffectiveWindow(window);
    TrendLongOk(ti, r, w, t) && DiLongOk(ti[t], r) && AdxOk(ti[t], r) && WprLongOk(ti, r, w, t)
  }

  predicate GateShort(ti: seq<Reading>, r: Rules, window: Option<int>, t: nat)
    requires t < |ti|
  {
    var w := EffectiveWindow(window);
    TrendShortOk(ti, r, w, t) && DiShortOk(ti[t], r) && AdxOk(ti[t], r) && WprShortOk(ti, r, w, t)
  }

  function LongGates(ti: seq<Reading>, r: Rules, window: Option<int>): (m: seq<bool>)
    ensures |m| == |ti|
  {
    seq(|ti|, t requires 0 <= t < |ti| => GateLong(ti, r, window, t))
  }

  function ShortGates(ti: seq<Reading>, r: Rules, window: Option<int>): (m: seq<bool>)
    ensures |m| == |ti|
  {
    seq(|ti|, t requires 0 <= t < |ti| => GateShort(ti, r, window, t))
  }

  /** One `&=` over a whole array. */
  method Narrow(a: array<bool>, mask: seq<bool>)
    requires |mask| == a.Length
    modifies a
    ensures forall t :: 0 <= t < a.Length ==> a[t] == (old(a[t]) && mask[t])
  {
    for t := 0 to a.Length
      invariant forall j :: 0 <= j < t ==> a[j] == (old(a[j]) && mask[j])
      invariant forall j :: t <= j < a.Length ==> a[j] == old(a[j])
    {
      a[t] := a[t] && mask[t];
    }
  }

  method NarrowByTrend(longOk: array<bool>, shortOk: array<bool>, ti: seq<Reading>, r: Rules, w: int)
    requires longOk != shortOk && longOk.Length == shortOk.Length == |ti|
    modifies longOk, shortOk
    ensures forall t :: 0 <= t < |ti| ==> longOk[t] == (old(longOk[t]) && TrendLongOk(ti, r, w, t))
    ensures forall t :: 0 <= t < |ti| ==> shortOk[t] == (old(shortOk[t]) && TrendShortOk(ti, r, w, t))
  {
    if r.supertrend != SupertrendOff {
      var bull := seq(|ti|, t requires 0 <= t < |ti| => TrendUp(ti, r.supertrend, w, t));
      var bear := seq(|ti|, t requires 0 <= t < |ti| => TrendDown(ti, r.supertrend, w, t));
      if r.supertrend == Counter {
        Narrow(longOk, bear);
        Narrow(shortOk, bull);
      } else {
        Narrow(longOk, bull);
        Narrow(shortOk, bear);
      }
    }
  }

  method NarrowByStrength(longOk: array<bool>, shortOk: array<bool>, ti: seq<Reading>, r: Rules)
    requires longOk != shortOk && longOk.Length == shortOk.Length == |ti|
    modifies longOk, shortOk
    ensures forall t :: 0 <= t < |ti| ==> longOk[t] == (old(longOk[t]) && DiLongOk(ti[t], r) && AdxOk(ti[t], r))
    ensures forall t :: 0 <= t < |ti| ==> shortOk[t] == (old(shortOk[t]) && DiShortOk(ti[t], r) && AdxOk(ti[t], r))
  {
    if r.di {
      Narrow(longOk, seq(|ti|, t requires 0 <= t < |ti| => DiLongOk(ti[t], r)));
      Narrow(shortOk, seq(|ti|, t requires 0 <= t < |ti| => DiShortOk(ti[t], r)));
    }
    if r.adxMin.Some? {
      var strong := seq(|ti|, t requires 0 <= t < |ti| => AdxOk(ti[t], r));
      Narrow(longOk, strong);
      Narrow(shortOk, strong);
    }
  }

  /** `gate`: two arrays of True, narrowed by one component after another. */
  method Gate(ti: seq<Reading>, r: Rules, window: Option<int>) returns (longOk: array<bool>, shortOk: array<bool>)
    ensures fresh(longOk) && fresh(shortOk) && longOk != shortOk
    ensures longOk[..] == LongGates(ti, r, window)
    ensures shortOk[..] == ShortGates(ti, r, window)
  {
    var w := EffectiveWindow(window);
    longOk, shortOk := new bool[|ti|](_ => true), new bool[|ti|](_ => true);
    NarrowByTrend(longOk, shortOk, ti, r, w);
    NarrowByStrength(longOk, shortOk, ti, r);
    Narrow(longOk, seq(|ti|, t requires 0 <= t < |ti| => WprLongOk(ti, r, w, t)));
    Narrow(shortOk, seq(|ti|, t requires 0 <= t < |ti| => WprShortOk(ti, r, w, t)));
    GatesAreConjunctions(ti, r, window);
  }

  lemma GatesAreConjunctions(ti: seq<Reading>, r: Rules, window: Option<int>)
    ensures forall t :: 0 <= t < |ti| ==>
              LongGates(ti, r, window)[t]
              == (var w := EffectiveWindow(window);
                  TrendLongOk(ti, r, w, t) && DiLongOk(ti[t], r) && AdxOk(ti[t], r) && WprLongOk(ti, r, w, t))
    ensures forall t :: 0 <= t < |ti| ==>
              ShortGates(ti, r, window)[t]
              == (var w := EffectiveWindow(window);
                  TrendShortOk(ti, r, w, t) && DiShortOk(ti[t], r) && AdxOk(ti[t], r) && WprShortOk(ti, r, w, t))
  {
  }

  lemma {:induction false} CumSumCausal(a: seq<bool>, b: seq<bool>, t: nat)
    requires a <= b && t < |a|
    ensures CumSum(a, t) == CumSum(b, t)
  {
    if t > 0 { CumSumCausal(a, b, t - 1); }
  }

  lemma RecentCausal(a: seq<bool>, b: seq<bool>, window: int, t: nat)
    requires a <= b && t < |a|
    ensures Recent(a, window, t) == Recent(b, window, t)
  {
    CumSumCausal(a, b, t);
    if 1 < window <= t { CumSumCausal(a, b, t - window); }
  }

  lemma GateCausal(ti: seq<Reading>, tj: seq<Reading>, r: Rules, window: Option<int>, t: nat)
    requires ti <= tj && t < |ti|
    ensures GateLong(ti, r, window, t) == GateLong(tj, r, window, t)
    ensures GateShort(ti, r, window, t) == GateShort(tj, r, window, t)
  {
    var w := EffectiveWindow(window);
    assert CrossUp(ti, r.wprLong) <= CrossUp(tj, r.wprLong);
    assert CrossDown(ti, r.wprShort) <= CrossDown(tj, r.wprShort);
    RecentCausal(CrossUp(ti, r.wprLong), CrossUp(tj, r.wprLong), w, t);
    RecentCausal(CrossDown(ti, r.wprShort), CrossDown(tj, r.wprShort), w, t);
    assert PrevWpr(ti, t) == PrevWpr(tj, t) && PrevDirection(ti, t) == PrevDirection(tj, t);
  }

  /** `banded_fade` with a counter Supertrend is exactly `banded` with the sides
      swapped, bar for bar. */
  lemma FadeMirrorsBanded(ti: seq<Reading>, r: Rules, window: Option<int>, t: nat)
    requires t < |ti| && r.wprRule == Banded && r.supertrend == Aligned && !r.di
    ensures var fade := r.(wprRule := BandedFade, supertrend := Counter);
            && GateLong(ti, fade, window, t) == GateShort(ti, r, window, t)
            && GateShort(ti, fade, window, t) == GateLong(ti, r, window, t)
  {
  }

  // ---------------------------------------------------------------- alignment

  function Times(ti: seq<Reading>): (r: seq<int>)
    ensures |r| == |ti|
  {
    seq(|ti|, i requires 0 <= i < |ti| => ti[i].time)
  }

  /** `align_confirm` for one primary bar; times are bar opens. */
  function AlignConfirm(primaryTime: int, confirmTimes: seq<int>, s: Spec): (k: int)
    ensures -1 <= k < |confirmTimes|
  {
    SearchRight(confirmTimes, primaryTime + s.primaryMinutes * 60 - s.confirmMinutes * 60) - 1
  }

  predicate ClosesBy(confirmTime: int, primaryTime: int, s: Spec) {
    confirmTime + s.confirmMinutes * 60 <= primaryTime + s.primaryMinutes * 60
  }

  /** It picks exactly the last confirmation bar closing at or before the primary close. */
  lemma AlignIsLastClosed(primaryTime: int, confirmTimes: seq<int>, s: Spec)
    requires StrictlyIncreasing(confirmTimes)
    ensures var k := AlignConfirm(primaryTime, confirmTimes, s);
            forall j :: 0 <= j < |confirmTimes| ==> (j <= k <==> ClosesBy(confirmTimes[j], primaryTime, s))
  {
  }

  /** Appended confirmation bars leave a primary bar's alignment alone exactly when
      none of them closes by that bar's close. */
  lemma AlignUnmovedIff(primaryTime: int, times: seq<int>, more: seq<int>, s: Spec)
    requires StrictlyIncreasing(times + more)
    ensures AlignConfirm(primaryTime, times + more, s) == AlignConfirm(primaryTime, times, s)
            <==> forall k :: 0 <= k < |more| ==> !ClosesBy(more[k], primaryTime, s)
  {
    var all := times + more;
    assert forall i :: 0 <= i < |times| ==> all[i] == times[i];
    assert StrictlyIncreasing(times);
    AlignIsLastClosed(primaryTime, all, s);
    AlignIsLastClosed(primaryTime, times, s);
    if exists k :: 0 <= k < |more| && ClosesBy(more[k], primaryTime, s) {
      var k :| 0 <= k < |more| && ClosesBy(more[k], primaryTime, s);
      assert all[|times| + k] == more[k];
    } else {
      SearchRightIgnoresLater(times, more, primaryTime + s.primaryMinutes * 60 - s.confirmMinutes * 60);
    }
  }

  // ---------------------------------------------------------------- signals

  /** One row of `SignalArrays`. */
  datatype Row = Row(longEntry: bool, shortEntry: bool, stopLong: Num, stopShort: Num, targetLong: Num,
                     targetShort: Num, atr: Num, longSetup: bool, shortSetup: bool,
                     rejectedStopPct: bool, rejectedEntryHours: bool, confirmIndex: int)

  function ConfirmIndex(primaryTimes: seq<int>, confirmTimes: seq<int>, s: Spec): (r: seq<int>)
    ensures |r| == |primaryTimes|
    ensures forall t :: 0 <= t < |r| ==> -1 <= r[t] < |confirmTimes|
  {
    seq(|primaryTimes|, t requires 0 <= t < |primaryTimes| =>
      if Enabled(s.confirm) then AlignConfirm(primaryTimes[t], confirmTimes, s) else -1)
  }

  /** The primary gate, confirmed where a confirmation gate is enabled; a primary
      bar with no confirmation bar yet passes nothing. */
  function Setups(primaryGate: seq<bool>, confirmGate: seq<bool>, index: seq<int>, confirmed: bool): (r: seq<bool>)
    requires |index| == |primaryGate|
    requires forall t :: 0 <= t < |index| ==> -1 <= index[t] < |confirmGate|
    ensures |r| == |primaryGate|
  {
    seq(|primaryGate|, t requires 0 <= t < |primaryGate| =>
      primaryGate[t] && (confirmed ==> index[t] >= 0 && confirmGate[index[t]]))
  }

  predicate InsideHours(time: int, hours: Option<(int, int)>) {
    hours.None? ||
    var (lo, hi) := hours.value;
    var hour := time % 86400 / 3600;
    if lo < hi then lo <= hour < hi else hour >= lo || hour < hi
  }

  function StopLong(x: Reading, s: Spec): Num {
    match s.stop
    case AtrStop => if x.atr.None? then None else Some(x.close - s.stopAtrMultiplier * x.atr.value)
    case FixedPct => Some(x.close * (1.0 - s.stopPct))
  }

  function StopShort(x: Reading, s: Spec): Num {
    match s.stop
    case AtrStop => if x.atr.None? then None else Some(x.close + s.stopAtrMultiplier * x.atr.value)
    case FixedPct => Some(x.close * (1.0 + s.stopPct))
  }

  /** The stop is missing, not on the losing side, or wider than the limit; a close
      of zero divides to the source's infinity. */
  predicate StopRefused(risk: Num, close: real, maxStopPct: real) {
    risk.None? || risk.value <= 0.0 || close == 0.0 || risk.value / close > maxStopPct
  }

  function RowFor(x: Reading, s: Spec, longSetup: bool, shortSetup: bool, prevLong: bool, prevShort: bool,
                  confirmIndex: int): Row
  {
    var triggeredLong := longSetup && !(s.edge && prevLong);
    var triggeredShort := shortSetup && !(s.edge && prevShort);
    var both := triggeredLong && triggeredShort;
    var inside := InsideHours(x.time, s.entryHours);
    var firedLong, firedShort := triggeredLong && !both && inside, triggeredShort && !both && inside;
    var stopLong, stopShort := StopLong(x, s), StopShort(x, s);
    var riskLong := if stopLong.None? then None else Some(x.close - stopLong.value);
    var riskShort := if stopShort.None? then None else Some(stopShort.value - x.close);
    var badLong, badShort := StopRefused(riskLong, x.close, s.maxStopPct),
        StopRefused(riskShort, x.close, s.maxStopPct);
    Row(firedLong && !badLong && s.sides != ShortOnly,
        firedShort && !badShort && s.sides != LongOnly,
        stopLong, stopShort,
        if riskLong.None? then None else Some(x.close + s.targetR * riskLong.value),
        if riskShort.None? then None else Some(x.close - s.targetR * riskShort.value),
        x.atr, longSetup, shortSetup,
        (firedLong && badLong) || (firedShort && badShort),
        (triggeredLong || triggeredShort) && !both && !inside,
        confirmIndex)
  }

  function Trigger(p: seq<Reading>, s: Spec, longSetup: seq<bool>, shortSetup: seq<bool>,
                   index: seq<int>): (r: seq<Row>)
    requires |longSetup| == |shortSetup| == |index| == |p|
    ensures |r| == |p|
  {
    seq(|p|, t requires 0 <= t < |p| =>
      RowFor(p[t], s, longSetup[t], shortSetup[t], t > 0 && longSetup[t - 1], t > 0 && shortSetup[t - 1], index[t]))
  }

  function RowsFromReadings(p: seq<Reading>, c: seq<Reading>, s: Spec): (r: seq<Row>)
    ensures |r| == |p|
  {
    var index := ConfirmIndex(Times(p), Times(c), s);
    var on := Enabled(s.confirm);
    Trigger(p, s,
            Setups(LongGates(p, s.primary, s.eventWindow), LongGates(c, s.confirm, s.eventWindow), index, on),
            Setups(ShortGates(p, s.primary, s.eventWindow), ShortGates(c, s.confirm, s.eventWindow), index, on),
            index)
  }

  function SignalRows(primary: Frame, confirm: Frame, s: Spec): (r: seq<Row>)
    ensures |r| == |primary|
  {
    RowsFromReadings(ReadingsOf(primary, s), ReadingsOf(confirm, s), s)
  }

  datatype ComputeError = InvalidSpec | EmptyFrame | MissingConfirm

  datatype Computed = Ok(rows: seq<Row>) | Err(error: ComputeError)

  /** `compute`: validate, gate both frames, narrow the setups, then trigger. */
  method Compute(primary: Frame, confirm: Option<Frame>, s: Spec) returns (r: Computed)
    ensures r == if !ValidSpec(s) then Err(InvalidSpec)
                 else if primary == [] then Err(EmptyFrame)
                 else if !Enabled(s.confirm) then Ok(SignalRows(primary, [], s))
                 else if confirm.None? then Err(MissingConfirm)
                 else if confirm.value == [] then Err(EmptyFrame)
                 else Ok(SignalRows(primary, confirm.value, s))
  {
    if !ValidSpec(s) {
      return Err(InvalidSpec);
    }
    if |primary| == 0 {
      return Err(EmptyFrame);
    }
    var p := IndicatorRows(primary, s);
    var longSetup, shortSetup := Gate(p, s.primary, s.eventWindow);
    if !Enabled(s.confirm) {
      var none := ConfirmIndex(Times(p), [], s);
      assert longSetup[..] == Setups(longSetup[..], LongGates([], s.confirm, s.eventWindow), none, false);
      assert shortSetup[..] == Setups(shortSetup[..], ShortGates([], s.confirm, s.eventWindow), none, false);
      assert ReadingsOf([], s) == [];
      return Ok(Trigger(p, s, longSetup[..], shortSetup[..], none));
    }
    if confirm.None? {
      return Err(MissingConfirm);
    }
    if |confirm.value| == 0 {
      return Err(EmptyFrame);
    }
    var c := IndicatorRows(confirm.value, s);
    var index := ConfirmIndex(Times(p), Times(c), s);
    var cLong, cShort := Gate(c, s.confirm, s.eventWindow);
    ConfirmSetups(longSetup, cLong[..], index);
    ConfirmSetups(shortSetup, cShort[..], index);
    r := Ok(Trigger(p, s, longSetup[..], shortSetup[..], index));
  }

  /** `long_setup &= have & c_long[safe]`. */
  method ConfirmSetups(setup: array<bool>, confirmGate: seq<bool>, index: seq<int>)
    requires |index| == setup.Length
    requires forall t :: 0 <= t < |index| ==> -1 <= index[t] < |confirmGate|
    modifies setup
    ensures setup[..] == Setups(old(setup[..]), confirmGate, index, true)
  {
    Narrow(setup, seq(|index|, t requires 0 <= t < |index| => index[t] >= 0 && confirmGate[index[t]]));
  }

  lemma GatesCausal(ti: seq<Reading>, tj: seq<Reading>, r: Rules, window: Option<int>)
    requires ti <= tj
    ensures LongGates(ti, r, window) <= LongGates(tj, r, window)
    ensures ShortGates(ti, r, window) <= ShortGates(tj, r, window)
  {
    forall t | 0 <= t < |ti|
      ensures LongGates(ti, r, window)[t] == LongGates(tj, r, window)[t]
      ensures ShortGates(ti, r, window)[t] == ShortGates(tj, r, window)[t]
    {
      GateCausal(ti, tj, r, window, t);
    }
  }

  lemma ConfirmIndexCausal(pt: seq<int>, qt: seq<int>, ct: seq<int>, dt: seq<int>, s: Spec)
    requires pt <= qt && ct <= dt
    requires Enabled(s.confirm) ==>
               forall k, t :: |ct| <= k < |dt| && 0 <= t < |pt| ==> !ClosesBy(dt[k], pt[t], s)
    ensures ConfirmIndex(pt, ct, s) <= ConfirmIndex(qt, dt, s)
  {
    if Enabled(s.confirm) {
      var more := dt[|ct|..];
      assert dt == ct + more;
      forall t | 0 <= t < |pt| ensures AlignConfirm(pt[t], ct, s) == AlignConfirm(qt[t], dt, s) {
        forall k | 0 <= k < |more| ensures !ClosesBy(more[k], pt[t], s) {
          assert more[k] == dt[|ct| + k];
        }
        AlignIgnoresLater(pt[t], ct, more, s);
      }
    }
  }

  lemma AlignIgnoresLater(primaryTime: int, times: seq<int>, more: seq<int>, s: Spec)
    requires forall k :: 0 <= k < |more| ==> !ClosesBy(more[k], primaryTime, s)
    ensures AlignConfirm(primaryTime, times + more, s) == AlignConfirm(primaryTime, times, s)
  {
    SearchRightIgnoresLater(times, more, primaryTime + s.primaryMinutes * 60 - s.confirmMinutes * 60);
  }

  /** Causality of the whole pipeline: bars appended to the primary frame, and
      confirmation bars that close after the old primary bars, change no earlier
      row: no setup, entry, stop, target or rejection. */
  lemma ComputeIsCausal(f: Frame, g: Frame, cf: Frame, cg: Frame, s: Spec)
    requires f <= g && cf <= cg
    requires Enabled(s.confirm) ==>
               forall k, t :: |cf| <= k < |cg| && 0 <= t < |f| ==> !ClosesBy(cg[k].time, f[t].time, s)
    ensures SignalRows(f, cf, s) <= SignalRows(g, cg, s)
  {
    ReadingsCausal(f, g, s);
    ReadingsCausal(cf, cg, s);
    var p, q, c, d := ReadingsOf(f, s), ReadingsOf(g, s), ReadingsOf(cf, s), ReadingsOf(cg, s);
    assert Times(p) == OpenTimes(f) && Times(d) == OpenTimes(cg);
    ReadingRowsCausal(p, q, c, d, s);
  }

  lemma ReadingRowsCausal(p: seq<Reading>, q: seq<Reading>, c: seq<Reading>, d: seq<Reading>, s: Spec)
    requires p <= q && c <= d
    requires Enabled(s.confirm) ==>
               forall k, t :: |c| <= k < |d| && 0 <= t < |p| ==> !ClosesBy(Times(d)[k], Times(p)[t], s)
    ensures RowsFromReadings(p, c, s) <= RowsFromReadings(q, d, s)
  {
    GatesCausal(p, q, s.primary, s.eventWindow);
    GatesCausal(c, d, s.confirm, s.eventWindow);
    assert Times(p) <= Times(q) && Times(c) <= Times(d);
    ConfirmIndexCausal(Times(p), Times(q), Times(c), Times(d), s);
  }
}
