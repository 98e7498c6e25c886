/** deltabt/portfolio.py, the open position: `_Position`, `_promote_rungs`,
    `_ladder_walk` and `_fill_at_cross`. */
module Positions {
  import opened Numbers
  import opened Costs
  import opened Exits

  /** What is fixed when a position opens. */
  datatype PlanFields = Plan(symbol: string, side: Side, contracts: int, entryPrice: real, entryIndex: int,
                             entryTime: int, targetPrice: real, riskPerUnit: real, entryFee: real, costPerR: Num)

  /** Entries with no risk distance are refused, so an open position has one. */
  type Plan = p: PlanFields | p.riskPerUnit > 0.0
    witness Plan("", Long, 0, 0.0, 0, 0, 0.0, 1.0, 0.0, None)

  /** The value of a position at one instant. */
  datatype Held = Held(plan: Plan, stopPrice: real, stopPromoted: bool, accruedFunding: real)

  /** The stop a favourable price earns; None when it earns none. */
  type Rule = real -> Num

  function Protective(side: Side): Direction { if side.Long? then Down else Up }

  function Signed(side: Side, x: real): real { if side.Long? then x else -x }

  /** Favourable excursion in R against the original risk. */
  function FavourableR(plan: Plan, px: real): real {
    Signed(plan.side, px - plan.entryPrice) / plan.riskPerUnit
  }

  /** The price `gain` beyond entry, on the tick grid, away from the market. */
  function PriceAtGain(side: Side, entry: real, gain: real, c: SymbolCosts): real {
    RoundPrice(c, entry + Signed(side, gain), Protective(side))
  }

  /** `r` units of the original risk, as a price distance. */
  function RiskUnits(plan: Plan, r: real): real { r * plan.riskPerUnit }

  function PriceAtR(plan: Plan, lock: real, c: SymbolCosts): real {
    PriceAtGain(plan.side, plan.entryPrice, RiskUnits(plan, lock), c)
  }

  function StopForExcursion(plan: Plan, favR: real, prot: Protection, c: SymbolCosts): Num {
    var lock := Earned(favR, prot);
    if lock.None? then None else Some(PriceAtR(plan, lock.value, c))
  }

  /** The configured ladder or trail, as a rule on prices. */
  function Earning(plan: Plan, prot: Protection, c: SymbolCosts): Rule {
    px => StopForExcursion(plan, FavourableR(plan, px), prot, c)
  }

  function Tighten(h: Held, candidate: Num): Held {
    if candidate.Some? && Tightens(h.plan.side, candidate.value, h.stopPrice)
    then h.(stopPrice := candidate.value, stopPromoted := true)
    else h
  }

  /** `_promote_rungs` as a change of value. */
  function Promoted(h: Held, favPx: real, earn: Rule): Held {
    Tighten(h, earn(favPx))
  }

  /** Promotion price by price, the way every executor applies the rule. */
  function PromotedThrough(h: Held, prices: seq<real>, earn: Rule): Held {
    if prices == [] then h
    else Promoted(PromotedThrough(h, prices[..|prices| - 1], earn), prices[|prices| - 1], earn)
  }

  function Better(side: Side, p: real, q: real): real {
    if side.Long? then Max(p, q) else Min(p, q)
  }

  /** The most favourable price of a path. */
  function Peak(side: Side, prices: seq<real>): real
    requires prices != []
  {
    var last := prices[|prices| - 1];
    if |prices| == 1 then last else Better(side, Peak(side, prices[..|prices| - 1]), last)
  }

  /** `a` is no tighter than `b`; no candidate at all is the loosest. */
  predicate NoTighter(side: Side, a: Num, b: Num) {
    a.None? || (b.Some? && if side.Long? then a.value <= b.value else b.value <= a.value)
  }

  /** A more favourable price never earns a looser stop. */
  ghost predicate Monotone(side: Side, earn: Rule) {
    forall p: real, q: real :: Better(side, p, q) == q ==> NoTighter(side, earn(p), earn(q))
  }

  lemma DivideMonotone(a: real, b: real, d: real)
    requires d > 0.0 && a <= b
    ensures a / d <= b / d
  {
    var x, y := a / d, b / d;
    assert x * d == a && y * d == b;
    if y < x { ScaleLt(y, x, d); }
  }

  lemma PriceAtGainMonotone(side: Side, entry: real, a: real, b: real, c: SymbolCosts)
    requires a <= b
    ensures NoTighter(side, Some(PriceAtGain(side, entry, a, c)), Some(PriceAtGain(side, entry, b, c)))
  {
    if side.Long? {
      RoundPriceMonotone(c, entry + a, entry + b, Down);
    } else {
      RoundPriceMonotone(c, entry - b, entry - a, Up);
    }
  }

  lemma PriceAtRMonotone(plan: Plan, x: real, y: real, c: SymbolCosts)
    requires x <= y
    ensures NoTighter(plan.side, Some(PriceAtR(plan, x, c)), Some(PriceAtR(plan, y, c)))
  {
    assert RiskUnits(plan, x) <= RiskUnits(plan, y) by { ScaleLe(x, y, plan.riskPerUnit); }
    PriceAtGainMonotone(plan.side, plan.entryPrice, RiskUnits(plan, x), RiskUnits(plan, y), c);
  }

  lemma StopForExcursionMonotone(plan: Plan, x: real, y: real, prot: Protection, c: SymbolCosts)
    requires Valid(prot) && x <= y
    ensures NoTighter(plan.side, StopForExcursion(plan, x, prot, c), StopForExcursion(plan, y, prot, c))
  {
    EarnedMonotone(prot, x, y);
    if Earned(x, prot).Some? {
      PriceAtRMonotone(plan, Earned(x, prot).value, Earned(y, prot).value, c);
    }
  }

  lemma FavourableRMonotone(plan: Plan, p: real, q: real)
    requires Better(plan.side, p, q) == q
    ensures FavourableR(plan, p) <= FavourableR(plan, q)
  {
    DivideMonotone(Signed(plan.side, p - plan.entryPrice), Signed(plan.side, q - plan.entryPrice), plan.riskPerUnit);
  }

  /** Every valid ladder or trail, tick rounding included, is monotone. */
  lemma ValidProtectionIsMonotone(plan: Plan, prot: Protection, c: SymbolCosts)
    requires Valid(prot)
    ensures Monotone(plan.side, Earning(plan, prot, c))
  {
    forall p: real, q: real | Better(plan.side, p, q) == q
      ensures NoTighter(plan.side, Earning(plan, prot, c)(p), Earning(plan, prot, c)(q))
    {
      FavourableRMonotone(plan, p, q);
      StopForExcursionMonotone(plan, FavourableR(plan, p), FavourableR(plan, q), prot, c);
    }
  }

  /** A gain short of the market is a price behind the market, ticks included. */
  lemma RoundedBehind(side: Side, entry: real, kept: real, px: real, c: SymbolCosts)
    requires kept < Signed(side, px - entry)
    ensures var stop := PriceAtGain(side, entry, kept, c); if side.Long? then stop < px else stop > px
  {
    hide Snap;
    if c.tickSize > 0.0 {
      RoundPriceBounds(c, entry + Signed(side, kept), Protective(side));
    }
  }

  lemma RiskUnitsBehind(plan: Plan, lock: real, px: real)
    requires lock < FavourableR(plan, px)
    ensures RiskUnits(plan, lock) < Signed(plan.side, px - plan.entryPrice)
  {
    var favR := FavourableR(plan, px);
    assert favR * plan.riskPerUnit == Signed(plan.side, px - plan.entryPrice);
    ScaleLt(lock, favR, plan.riskPerUnit);
  }

  /** A stop newly placed by a price lies strictly on the losing side of that
      price: it cannot fire at the very price that moved it. */
  lemma PromotionLiesBehindPrice(plan: Plan, favPx: real, prot: Protection, c: SymbolCosts)
    requires Valid(prot)
    ensures var cand := Earning(plan, prot, c)(favPx);
            cand.Some? ==> if plan.side.Long? then cand.value < favPx else cand.value > favPx
  {
    hide FavourableR, RiskUnits, PriceAtGain, Earned;
    var favR := FavourableR(plan, favPx);
    EarnedLiesBehind(prot, favR);
    if Earned(favR, prot).Some? {
      var lock := Earned(favR, prot).value;
      RiskUnitsBehind(plan, lock, favPx);
      RoundedBehind(plan.side, plan.entryPrice, RiskUnits(plan, lock), favPx, c);
    }
  }

  /** Two promotions in either order are one promotion at the better price. */
  lemma PromotedTwice(h: Held, p: real, q: real, earn: Rule)
    requires Monotone(h.plan.side, earn)
    ensures Promoted(Promoted(h, p, earn), q, earn) == Promoted(h, Better(h.plan.side, p, q), earn)
  {
    assert Better(h.plan.side, p, q) == q || Better(h.plan.side, q, p) == p;
  }

  /** The ratchet is stateless: promoting price by price, tighten-only, leaves
      exactly what one promotion at the peak would. */
  lemma {:induction false} RatchetIsPeak(h: Held, prices: seq<real>, earn: Rule)
    requires Monotone(h.plan.side, earn) && prices != []
    ensures PromotedThrough(h, prices, earn) == Promoted(h, Peak(h.plan.side, prices), earn)
  {
    if |prices| == 1 {
      assert prices[..0] == [];
    } else {
      var before := prices[..|prices| - 1];
      RatchetIsPeak(h, before, earn);
      PromotedTwice(h, Peak(h.plan.side, before), prices[|prices| - 1], earn);
    }
  }

  /** The same, said of the configured rule: any valid ladder or trail. */
  lemma LadderOrTrailTracksPeak(h: Held, prices: seq<real>, prot: Protection, c: SymbolCosts)
    requires Valid(prot) && prices != []
    ensures var earn := Earning(h.plan, prot, c);
            PromotedThrough(h, prices, earn) == Promoted(h, Peak(h.plan.side, prices), earn)
  {
    ValidProtectionIsMonotone(h.plan, prot, c);
    RatchetIsPeak(h, prices, Earning(h.plan, prot, c));
  }

  /** The stop only ever moves in the position's favour, whatever the rule. */
  lemma {:induction false} RatchetNeverLoosens(h: Held, prices: seq<real>, k: nat, earn: Rule)
    requires k <= |prices|
    ensures NoTighter(h.plan.side, Some(PromotedThrough(h, prices[..k], earn).stopPrice),
                                   Some(PromotedThrough(h, prices, earn).stopPrice))
    ensures PromotedThrough(h, prices, earn).plan == h.plan
    decreases |prices|
  {
    if k < |prices| {
      assert prices[..|prices| - 1][..k] == prices[..k];
      RatchetNeverLoosens(h, prices[..|prices| - 1], k, earn);
    } else {
      assert prices[..k] == prices;
      if k > 0 { RatchetNeverLoosens(h, prices[..k - 1], k - 1, earn); }
    }
  }

  // ---------------------------------------------------------------- minute walk

  /** One minute of last-traded and mark prices inside a primary bar. */
  datatype Minute = Minute(close: real, ltpHigh: real, ltpLow: real, markHigh: real, markLow: real)

  /** How a minute test ended; `fill` is None when nothing was hit. */
  datatype Walked = Walked(hitStop: bool, hitTarget: bool, fill: Num)

  /** Which price the stop watches, and the slippage moved into its fill. */
  datatype StopRule = StopRule(triggerLtp: bool, slip: real)

  function FavourablePrice(side: Side, m: Minute): real {
    if side.Long? then m.ltpHigh else m.ltpLow
  }

  predicate HitsStop(h: Held, m: Minute, rule: StopRule) {
    if h.plan.side.Long? then (if rule.triggerLtp then m.ltpLow else m.markLow) <= h.stopPrice
    else (if rule.triggerLtp then m.ltpHigh else m.markHigh) >= h.stopPrice
  }

  predicate HitsTarget(h: Held, m: Minute) {
    if h.plan.side.Long? then m.ltpHigh >= h.plan.targetPrice else m.ltpLow <= h.plan.targetPrice
  }

  predicate Hits(h: Held, m: Minute, rule: StopRule) {
    HitsStop(h, m, rule) || HitsTarget(h, m)
  }

  function Slipped(side: Side, px: real, slip: real): real {
    px * (1.0 - Signed(side, slip))
  }

  function HitResult(h: Held, m: Minute, rule: StopRule): Walked {
    Walked(HitsStop(h, m, rule), HitsTarget(h, m), Some(Slipped(h.plan.side, m.close, rule.slip)))
  }

  /** `_ladder_walk`: test, then promote, minute after minute. */
  function Walk(h: Held, ms: seq<Minute>, earn: Rule, rule: StopRule): (Held, Walked)
    decreases |ms|
  {
    if ms == [] then (h, Walked(false, false, None))
    else if Hits(h, ms[0], rule) then (h, HitResult(h, ms[0], rule))
    else Walk(Promoted(h, FavourablePrice(h.plan.side, ms[0]), earn), ms[1..], earn, rule)
  }

  lemma {:induction false} WalkKeepsPlan(h: Held, ms: seq<Minute>, earn: Rule, rule: StopRule)
    ensures var after := Walk(h, ms, earn, rule).0;
            after.plan == h.plan && after.accruedFunding == h.accruedFunding
    decreases |ms|
  {
    if ms != [] && !Hits(h, ms[0], rule) {
      WalkKeepsPlan(Promoted(h, FavourablePrice(h.plan.side, ms[0]), earn), ms[1..], earn, rule);
    }
  }

  function FavourablePath(side: Side, ms: seq<Minute>): (r: seq<real>)
    ensures |r| == |ms|
  {
    seq(|ms|, i requires 0 <= i < |ms| => FavourablePrice(side, ms[i]))
  }

  /** The position tested at minute `k`, by closed form: the stop the peak of the
      strictly earlier minutes has earned. */
  function TestedAt(h: Held, ms: seq<Minute>, k: nat, earn: Rule): Held
    requires k <= |ms|
  {
    if k == 0 then h else Promoted(h, Peak(h.plan.side, FavourablePath(h.plan.side, ms[..k])), earn)
  }

  lemma TestedAtShift(h: Held, ms: seq<Minute>, k: nat, earn: Rule)
    requires Monotone(h.plan.side, earn) && 0 < k <= |ms|
    ensures TestedAt(h, ms, k, earn)
            == TestedAt(Promoted(h, FavourablePrice(h.plan.side, ms[0]), earn), ms[1..], k - 1, earn)
  {
    var p := FavourablePrice(h.plan.side, ms[0]);
    var path := FavourablePath(h.plan.side, ms[..k]);
    if k == 1 {
      assert path == [p];
    } else {
      var rest := FavourablePath(h.plan.side, ms[1..][..k - 1]);
      assert path == [p] + rest;
      PeakOfCons(h.plan.side, p, rest);
      PromotedTwice(h, p, Peak(h.plan.side, rest), earn);
    }
  }

  lemma {:induction false} PeakOfCons(side: Side, p: real, rest: seq<real>)
    requires rest != []
    ensures Peak(side, [p] + rest) == Better(side, p, Peak(side, rest))
  {
    var all := [p] + rest;
    if |rest| == 1 {
      assert all[..1] == [p];
    } else {
      assert all[..|all| - 1] == [p] + rest[..|rest| - 1];
      PeakOfCons(side, p, rest[..|rest| - 1]);
    }
  }

  /** The walk, without a walk: it stops at the first minute `k` that hits the
      position whose stop is a function of strictly earlier minutes. */
  lemma {:induction false} WalkStopsAtFirstHit(h: Held, ms: seq<Minute>, earn: Rule, rule: StopRule) returns (k: nat)
    requires Monotone(h.plan.side, earn)
    ensures k <= |ms|
    ensures forall j :: 0 <= j < k ==> !Hits(TestedAt(h, ms, j, earn), ms[j], rule)
    ensures k < |ms| ==> Hits(TestedAt(h, ms, k, earn), ms[k], rule)
    ensures var tested := TestedAt(h, ms, k, earn);
            Walk(h, ms, earn, rule)
            == (tested, if k == |ms| then Walked(false, false, None) else HitResult(tested, ms[k], rule))
    decreases |ms|
  {
    if ms == [] || Hits(h, ms[0], rule) {
      k := 0;
    } else {
      var next := Promoted(h, FavourablePrice(h.plan.side, ms[0]), earn);
      var rest := WalkStopsAtFirstHit(next, ms[1..], earn, rule);
      k := rest + 1;
      TestedAtShift(h, ms, k, earn);
      forall j | 0 <= j < k
        ensures !Hits(TestedAt(h, ms, j, earn), ms[j], rule)
      {
        if j > 0 { TestedAtShift(h, ms, j, earn); }
      }
    }
  }

  /** No look-ahead: an exit found in `a` is untouched by whatever follows, and a
      survived `a` hands its stop on, so bars compose minute by minute. */
  lemma {:induction false} WalkComposes(h: Held, a: seq<Minute>, b: seq<Minute>, earn: Rule, rule: StopRule)
    ensures var (after, w) := Walk(h, a, earn, rule);
            Walk(h, a + b, earn, rule)
            == if w.hitStop || w.hitTarget then (after, w) else Walk(after, b, earn, rule)
    decreases |a|
  {
    if a == [] {
      assert a + b == b;
    } else if !Hits(h, a[0], rule) {
      assert (a + b)[1..] == a[1..] + b;
      WalkComposes(Promoted(h, FavourablePrice(h.plan.side, a[0]), earn), a[1..], b, earn, rule);
    }
  }

  // ---------------------------------------------------------------- stop fill

  predicate MarkCrosses(side: Side, m: Minute, stop: real) {
    if side.Long? then m.markLow <= stop else m.markHigh >= stop
  }

  function FirstCross(side: Side, ms: seq<Minute>, stop: real): (k: nat)
    ensures k <= |ms|
    ensures k < |ms| ==> MarkCrosses(side, ms[k], stop)
    ensures forall j :: 0 <= j < k ==> !MarkCrosses(side, ms[j], stop)
  {
    if ms == [] || MarkCrosses(side, ms[0], stop) then 0 else 1 + FirstCross(side, ms[1..], stop)
  }

  /** `_fill_at_cross`: the close of the first crossing minute, else the bar's. */
  function FillAtCross(side: Side, ms: seq<Minute>, barClose: real, stop: real, slip: real): real {
    var k := FirstCross(side, ms, stop);
    Slipped(side, if k < |ms| then ms[k].close else barClose, slip)
  }

  /** Where no rule is configured, the minute walk and `_fill_at_cross` read the
      same stop out of the same minute. */
  lemma {:induction false} PlainWalkFillsAtCross(h: Held, ms: seq<Minute>, barClose: real, earn: Rule, rule: StopRule)
    requires !rule.triggerLtp && forall px :: earn(px).None?
    ensures var (after, w) := Walk(h, ms, earn, rule);
            && after == h
            && (w.hitStop ==> && FirstCross(h.plan.side, ms, h.stopPrice) < |ms|
                              && w.fill == Some(FillAtCross(h.plan.side, ms, barClose, h.stopPrice, rule.slip)))
            && (!w.hitStop && !w.hitTarget ==> FirstCross(h.plan.side, ms, h.stopPrice) == |ms|)
    decreases |ms|
  {
    if ms != [] {
      assert MarkCrosses(h.plan.side, ms[0], h.stopPrice) == HitsStop(h, ms[0], rule);
      if !Hits(h, ms[0], rule) {
        PlainWalkFillsAtCross(h, ms[1..], barClose, earn, rule);
        assert FirstCross(h.plan.side, ms, h.stopPrice) == 1 + FirstCross(h.plan.side, ms[1..], h.stopPrice);
      }
    }
  }

  // ---------------------------------------------------------------- the object

  /** The mutable position; promotion and funding change it in place. */
  class Position {
    const plan: Plan
    var stopPrice: real
    var stopPromoted: bool
    var accruedFunding: real

    function Value(): Held
      reads this
    {
      Held(plan, stopPrice, stopPromoted, accruedFunding)
    }

    constructor (h: Held)
      ensures Value() == h
    {
      plan, stopPrice, stopPromoted, accruedFunding := h.plan, h.stopPrice, h.stopPromoted, h.accruedFunding;
    }

    method Accrue(charge: real)
      modifies this`accruedFunding
      ensures Value() == old(Value()).(accruedFunding := old(accruedFunding) + charge)
    {
      accruedFunding := accruedFunding + charge;
    }

    method PromoteRungs(favPx: real, prot: Protection, c: SymbolCosts)
      modifies this`stopPrice, this`stopPromoted
      ensures Value() == Promoted(old(Value()), favPx, Earning(plan, prot, c))
    {
      var favR := FavourableR(plan, favPx);
      var lock := EarnedStopR(favR, prot);
      if lock.None? {
        return;
      }
      var candidate := PriceAtR(plan, lock.value, c);
      if Tightens(plan.side, candidate, stopPrice) {
        stopPrice := candidate;
        stopPromoted := true;
      }
    }

    /** None when the bar has no minutes to walk. */
    method LadderWalk(ms: seq<Minute>, prot: Protection, rule: StopRule, c: SymbolCosts)
      returns (r: Option<Walked>)
      modifies this`stopPrice, this`stopPromoted
      ensures r.None? <==> ms == []
      ensures (Value(), if r.Some? then r.value else Walked(false, false, None))
              == Walk(old(Value()), ms, Earning(plan, prot, c), rule)
    {
      if |ms| == 0 {
        return None;
      }
      ghost var earn := Earning(plan, prot, c);
      for k := 0 to |ms|
        invariant Walk(old(Value()), ms, earn, rule) == Walk(Value(), ms[k..], earn, rule)
      {
        assert ms[k..][0] == ms[k] && ms[k..][1..] == ms[k + 1..];
        var m := ms[k];
        var trigger, hitStop, hitTarget, favPx;
        if plan.side.Long? {
          trigger := if rule.triggerLtp then m.ltpLow else m.markLow;
          hitStop := trigger <= stopPrice;
          hitTarget := m.ltpHigh >= plan.targetPrice;
          favPx := m.ltpHigh;
        } else {
          trigger := if rule.triggerLtp then m.ltpHigh else m.markHigh;
          hitStop := trigger >= stopPrice;
          hitTarget := m.ltpLow <= plan.targetPrice;
          favPx := m.ltpLow;
        }
        if hitStop || hitTarget {
          return Some(Walked(hitStop, hitTarget, Some(Slipped(plan.side, m.close, rule.slip))));
        }
        PromoteRungs(favPx, prot, c);
      }
      return Some(Walked(false, false, None));
    }
  }
}
