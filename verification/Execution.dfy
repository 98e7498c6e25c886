/** What deltabt/engine.py and deltabt/portfolio.py share: reading one bar,
    deciding an exit, settling a trade, and planning and sizing an entry. */
module Execution {
  import opened Numbers
  import opened Costs
  import opened Exits
  import opened Positions

  /** One primary bar of one symbol with its signals. `rate` is the funding rate
      at this bar when it is a settlement instant; `minutes` are its one-minute
      bars, empty when none were supplied. */
  datatype Bar = Bar(time: int, close: real, high: real, low: real, markHigh: real, markLow: real,
                     rate: Num, tradable: bool, minutes: seq<Minute>,
                     longEntry: bool, shortEntry: bool, longBase: bool, shortBase: bool,
                     stopLong: Num, stopShort: Num, atr: Num, wpr: Num, bull: bool, bear: bool)

  /** The part of `StrategyParams` both simulators read. `maxLeverage` is None
      when infinite; the two bar counts are off at 0. */
  datatype Params = Params(stopFillFraction: real, exitOnTrendFlip: bool, exitAtAdverseR: Num,
                           exitOnWprBandExit: bool, wprExitLong: real, wprExitShort: real,
                           maxHoldBars: int, cooldownBars: int, warmup: int,
                           minStopAtrMult: real, minStopTicks: real, maxCostPerR: Num,
                           riskPercent: real, maxLeverage: Num, rewardRisk: real)

  datatype Reason = StopHit | TargetHit | TrendFlip | AdverseR | WprBand | MaxHold

  datatype Exit = Exit(price: real, reason: Reason, ambiguous: bool)

  /** A closed trade: the plan it was opened on and how it ended. */
  datatype Trade = Trade(plan: Plan, exitIndex: int, exitTime: int, exit: Exit, stopPrice: real, rMultiple: real,
                         pnl: real, fees: real, funding: real, stopPromoted: bool)

  // ---------------------------------------------------------------- funding

  /** One sample of the funding series; NaN is None. */
  datatype FundingPoint = FundingPoint(time: int, rate: Num)

  function Times(points: seq<FundingPoint>): (r: seq<int>)
    ensures |r| == |points|
  {
    seq(|points|, i requires 0 <= i < |points| => points[i].time)
  }

  /** `_funding_lookup` at time `t` of a series running from `first` to `last`. */
  function RateAt(points: seq<FundingPoint>, first: int, last: int, interval: int, t: int): Num {
    if t !in FundingTimestamps(first, last, interval) then None
    else
      var k := SearchRight(Times(points), t) - 1;
      if k >= 0 then points[k].rate else None
  }

  /** Within the series, a bar pays funding exactly when its time is a multiple of
      the interval and the latest sample at or before it is a number. */
  lemma SettlesExactlyOnTheGrid(points: seq<FundingPoint>, first: int, last: int, interval: int, t: int)
    requires StrictlyIncreasing(Times(points)) && first <= t <= last
    ensures RateAt(points, first, last, interval, t).Some?
            <==> && interval > 0 && t % interval == 0
                 && exists k :: 0 <= k < |points| && Times(points)[k] <= t && points[k].rate.Some?
                               && forall j :: k < j < |points| ==> Times(points)[j] > t
  {
    FundingStampsExact(first, last, interval, t);
    var k := SearchRight(Times(points), t) - 1;
    if k >= 0 { assert Times(points)[k] <= t; }
  }

  /** The settlement charge on one position: positive is paid. */
  function Charge(plan: Plan, c: SymbolCosts, b: Bar): real {
    if b.rate.None? then 0.0
    else Signed(plan.side, AbsInt(plan.contracts) as real * c.contractValue * b.close * (b.rate.value / 100.0))
  }

  /** The sample in force at `t`: the latest one not after it. */
  function SampleAt(points: seq<FundingPoint>, t: int): Num {
    if points == [] then None
    else if points[|points| - 1].time <= t then points[|points| - 1].rate
    else SampleAt(points[..|points| - 1], t)
  }

  /** What a position pays on a bar, read off the samples and the clock alone. */
  function SampledCharge(plan: Plan, c: SymbolCosts, b: Bar, points: seq<FundingPoint>): real {
    if c.fundingInterval > 0 && b.time % c.fundingInterval == 0
    then Charge(plan, c, b.(rate := SampleAt(points, b.time)))
    else 0.0
  }

  /** The bar carries the rate the lookup over its series gives it. */
  predicate RatedFrom(b: Bar, c: SymbolCosts, points: seq<FundingPoint>, first: int, last: int) {
    first <= b.time <= last && b.rate == RateAt(points, first, last, c.fundingInterval, b.time)
  }

  lemma {:induction false} SampleAtIsSearched(points: seq<FundingPoint>, t: int)
    ensures SearchRight(Times(points), t) > 0
            ==> SampleAt(points, t) == points[SearchRight(Times(points), t) - 1].rate
    ensures SearchRight(Times(points), t) == 0 ==> SampleAt(points, t) == None
  {
    if points != [] && points[|points| - 1].time > t {
      assert Times(points)[..|points| - 1] == Times(points[..|points| - 1]);
      SampleAtIsSearched(points[..|points| - 1], t);
    }
  }

  /** Where the series begins and ends does not matter to a bar inside it: the charge
      is that of the sample in force, at multiples of the interval and nowhere else. */
  lemma RatedBarPaysItsSample(plan: Plan, c: SymbolCosts, b: Bar, points: seq<FundingPoint>, first: int, last: int)
    requires RatedFrom(b, c, points, first, last)
    ensures Charge(plan, c, b) == SampledCharge(plan, c, b, points)
  {
    FundingStampsExact(first, last, c.fundingInterval, b.time);
    SampleAtIsSearched(points, b.time);
  }

  // ---------------------------------------------------------------- exits

  /** Where a stop fills on the bar: a fraction of the way to the adverse extreme. */
  function FractionFill(side: Side, b: Bar, stop: real, fraction: real): real {
    var adverse := if side.Long? then Min(b.low, stop) else Max(b.high, stop);
    stop + fraction * (adverse - stop)
  }

  /** Exits taken at the bar's close, in their order of precedence. */
  function CloseExit(h: Held, b: Bar, i: int, p: Params): (r: Option<Reason>)
    ensures r != Some(StopHit) && r != Some(TargetHit)
  {
    var plan, px := h.plan, b.close;
    if p.exitOnTrendFlip && (if plan.side.Long? then b.bear else b.bull) then Some(TrendFlip)
    else if p.exitAtAdverseR.Some?
            && Signed(plan.side, plan.entryPrice - px)
               >= p.exitAtAdverseR.value * Signed(plan.side, plan.entryPrice - h.stopPrice) then Some(AdverseR)
    else if p.exitOnWprBandExit && b.wpr.Some?
            && (if plan.side.Long? then b.wpr.value < p.wprExitLong else b.wpr.value > p.wprExitShort)
                then Some(WprBand)
    else if p.maxHoldBars != 0 && i - plan.entryIndex >= p.maxHoldBars then Some(MaxHold)
    else None
  }

  /** One bar's verdict: the stop wins over the target, both over the close. */
  function Decide(h: Held, b: Bar, i: int, p: Params, hitStop: bool, hitTarget: bool, stopFill: real): Option<Exit> {
    if hitStop then Some(Exit(stopFill, StopHit, hitTarget))
    else if hitTarget then Some(Exit(h.plan.targetPrice, TargetHit, false))
    else
      var why := CloseExit(h, b, i, p);
      if why.Some? then Some(Exit(b.close, why.value, false)) else None
  }

  function Gross(plan: Plan, c: SymbolCosts, price: real): real {
    Signed(plan.side, price - plan.entryPrice) * plan.contracts as real * c.contractValue
  }

  /** The fee for leaving. `slipped` says stop fills already carry the slippage,
      which is then not charged again. */
  function ExitFee(plan: Plan, c: SymbolCosts, exit: Exit, slipped: bool): real {
    ExitCost(c, plan.contracts, exit.price, exit.reason == TargetHit, exit.reason == StopHit && slipped)
  }

  /** What closing adds to the account. */
  function Proceeds(plan: Plan, c: SymbolCosts, exit: Exit, slipped: bool): real {
    Gross(plan, c, exit.price) - ExitFee(plan, c, exit, slipped)
  }

  function UnitRisk(plan: Plan, c: SymbolCosts): real {
    plan.riskPerUnit * plan.contracts as real * c.contractValue
  }

  /** What an open position has cost so far. */
  function Sunk(h: Held): real { h.plan.entryFee + h.accruedFunding }

  function TradeOf(h: Held, c: SymbolCosts, exit: Exit, slipped: bool, b: Bar, i: int): Trade {
    var plan := h.plan;
    var pnl := Proceeds(plan, c, exit, slipped) - Sunk(h);
    var unit := UnitRisk(plan, c);
    Trade(plan, i, b.time, exit, h.stopPrice, if unit > 0.0 then pnl / unit else 0.0,
          pnl, plan.entryFee + ExitFee(plan, c, exit, slipped), h.accruedFunding, h.stopPromoted)
  }

  function SumPnl(trades: seq<Trade>): real {
    if trades == [] then 0.0 else SumPnl(trades[..|trades| - 1]) + trades[|trades| - 1].pnl
  }

  lemma SumPnlSnoc(trades: seq<Trade>, t: Trade)
    ensures SumPnl(trades + [t]) == SumPnl(trades) + t.pnl
  {
    assert (trades + [t])[..|trades|] == trades;
  }

  // ---------------------------------------------------------------- entries

  function MinRisk(b: Bar, p: Params, c: SymbolCosts): real {
    Max(p.minStopAtrMult * (if b.atr.Some? then b.atr.value else 0.0), p.minStopTicks * c.tickSize)
  }

  function RiskBudget(equity: real, p: Params): real { equity * p.riskPercent / 100.0 }

  function LeverageBudget(equity: real, leverage: real): real { equity * leverage }

  /** How many units the risk budget and the leverage cap allow. */
  function UnitsAllowed(equity: real, px: real, rpu: real, p: Params): real
    requires rpu > 0.0
  {
    var byRisk := RiskBudget(equity, p) / rpu;
    if p.maxLeverage.None? || px == 0.0 then byRisk else Min(byRisk, LeverageBudget(equity, p.maxLeverage.value) / px)
  }

  function Reward(rpu: real, p: Params): real { rpu * p.rewardRisk }

  function Cooldown(p: Params): nat { if p.cooldownBars > 0 then p.cooldownBars else 0 }

  /** From a wanted side to a position, or None when the entry is refused: no stop,
      stop too close, too costly per R, or not one contract. */
  function PlanEntry(symbol: string, side: Side, b: Bar, i: int, equity: real, p: Params, c: SymbolCosts)
    : (r: Option<Held>)
    ensures r.Some? ==> && r.value.accruedFunding == 0.0 && !r.value.stopPromoted
                        && r.value.plan.symbol == symbol && r.value.plan.side == side
                        && r.value.plan.entryIndex == i && r.value.plan.entryTime == b.time
  {
    var raw := if side.Long? then b.stopLong else b.stopShort;
    if raw.None? then None
    else
      var px := b.close;
      var stop := RoundPrice(c, raw.value, if side.Long? then Down else Up);
      var rpu := Signed(side, px - stop);
      if rpu <= 0.0 || rpu < MinRisk(b, p, c) then None
      else
        var cpr := CostPerR(c, px, rpu);
        if p.maxCostPerR.Some? && cpr.value > p.maxCostPerR.value then None
        else
          var contracts := ContractsFor(c, UnitsAllowed(equity, px, rpu, p));
          if contracts <= 0 then None
          else
            var target := RoundPrice(c, px + Signed(side, Reward(rpu, p)), if side.Long? then Up else Down);
            Some(Held(Plan(symbol, side, contracts, px, i, b.time, target, rpu, EntryCost(c, contracts, px), cpr),
                      stop, false, 0.0))
  }

  /** The worst loss at the stop, before costs, is within the risk budget, and the
      position is within the leverage cap. */
  lemma EntryIsWithinBudget(symbol: string, side: Side, b: Bar, i: int, equity: real, p: Params, c: SymbolCosts)
    requires PlanEntry(symbol, side, b, i, equity, p, c).Some?
    ensures var h := PlanEntry(symbol, side, b, i, equity, p, c).value;
            && h.plan.contracts > 0 && c.contractValue > 0.0
            && Signed(side, h.plan.entryPrice - h.stopPrice) == h.plan.riskPerUnit
            && UnitRisk(h.plan, c) <= RiskBudget(equity, p)
            && Gross(h.plan, c, h.stopPrice) == -UnitRisk(h.plan, c)
            && (p.maxLeverage.Some? && b.close > 0.0
                ==> Notional(c, h.plan.contracts, b.close) <= LeverageBudget(equity, p.maxLeverage.value))
  {
    hide RoundPrice, CostPerR, EntryCost, MinRisk, Reward, ContractsFor, RiskBudget, LeverageBudget;
    var h := PlanEntry(symbol, side, b, i, equity, p, c).value;
    var n, cv, rpu := h.plan.contracts, c.contractValue, h.plan.riskPerUnit;
    var units := UnitsAllowed(equity, b.close, rpu, p);
    var lots := n as real * cv;
    assert lots <= units;
    assert lots <= RiskBudget(equity, p) / rpu;
    WithinIff(lots, RiskBudget(equity, p), rpu);
    assert UnitRisk(h.plan, c) == lots * rpu by { Reorder(rpu, n as real, cv); }
    NegateProduct(rpu, n as real, cv);
    if p.maxLeverage.Some? && b.close > 0.0 {
      assert lots <= LeverageBudget(equity, p.maxLeverage.value) / b.close;
      WithinIff(lots, LeverageBudget(equity, p.maxLeverage.value), b.close);
    }
  }

  /** `k` contracts keep the loss at this risk, the notional and the position limit within bounds. */
  predicate Affordable(k: int, equity: real, px: real, rpu: real, p: Params, c: SymbolCosts) {
    && c.contractValue > 0.0
    && k as real * c.contractValue * rpu <= RiskBudget(equity, p)
    && (p.maxLeverage.Some? ==> k as real * c.contractValue * px <= LeverageBudget(equity, p.maxLeverage.value))
    && (c.sizeLimit.Some? ==> k as real <= c.sizeLimit.value)
  }

  lemma SizedIsLargest(k: int, equity: real, px: real, rpu: real, p: Params, c: SymbolCosts)
    requires k >= 1 && px > 0.0 && rpu > 0.0
    ensures k <= ContractsFor(c, UnitsAllowed(equity, px, rpu, p)) <==> Affordable(k, equity, px, rpu, p, c)
  {
    hide ContractsFor, RiskBudget, LeverageBudget;
    ContractsForIsLargest(c, UnitsAllowed(equity, px, rpu, p), k);
    var lots := k as real * c.contractValue;
    WithinIff(lots, RiskBudget(equity, p), rpu);
    if p.maxLeverage.Some? { WithinIff(lots, LeverageBudget(equity, p.maxLeverage.value), px); }
  }

  /** An entry whose stop and cost pass is refused exactly when not one contract is
      affordable; otherwise it takes as many as are. */
  lemma EntryTakesAllItMay(symbol: string, side: Side, b: Bar, i: int, equity: real, p: Params, c: SymbolCosts)
    requires b.close > 0.0
    requires var raw := if side.Long? then b.stopLong else b.stopShort;
             && raw.Some?
             && var rpu := Signed(side, b.close - RoundPrice(c, raw.value, Protective(side)));
                && rpu > 0.0 && rpu >= MinRisk(b, p, c)
                && (p.maxCostPerR.Some? ==> CostPerR(c, b.close, rpu).value <= p.maxCostPerR.value)
    ensures var raw := if side.Long? then b.stopLong else b.stopShort;
            var rpu := Signed(side, b.close - RoundPrice(c, raw.value, Protective(side)));
            var h := PlanEntry(symbol, side, b, i, equity, p, c);
            && (h.None? <==> !Affordable(1, equity, b.close, rpu, p, c))
            && (h.Some? ==> && h.value.stopPrice == RoundPrice(c, raw.value, Protective(side))
                            && forall k :: k >= 1 ==> (k <= h.value.plan.contracts
                                                      <==> Affordable(k, equity, b.close, rpu, p, c)))
  {
    hide RoundPrice, CostPerR, MinRisk, ContractsFor, Affordable, Reward, EntryCost, UnitsAllowed;
    var raw := if side.Long? then b.stopLong else b.stopShort;
    var rpu := Signed(side, b.close - RoundPrice(c, raw.value, Protective(side)));
    SizedIsLargest(1, equity, b.close, rpu, p, c);
    forall k | k >= 1
      ensures k <= ContractsFor(c, UnitsAllowed(equity, b.close, rpu, p)) <==> Affordable(k, equity, b.close, rpu, p, c)
    {
      SizedIsLargest(k, equity, b.close, rpu, p, c);
    }
  }

  lemma Reorder(a: real, b: real, c: real)
    ensures a * b * c == b * c * a
  {
  }

  lemma NegateProduct(a: real, b: real, c: real)
    ensures (-a) * b * c == -(a * b * c)
  {
  }

  /** The target lies at least the reward multiple of the risk beyond entry. */
  lemma TargetIsBeyondReward(symbol: string, side: Side, b: Bar, i: int, equity: real, p: Params, c: SymbolCosts)
    requires PlanEntry(symbol, side, b, i, equity, p, c).Some?
    ensures var plan := PlanEntry(symbol, side, b, i, equity, p, c).value.plan;
            Signed(side, plan.targetPrice - plan.entryPrice) >= Reward(plan.riskPerUnit, p)
  {
    var plan := PlanEntry(symbol, side, b, i, equity, p, c).value.plan;
    var ideal := plan.entryPrice + Signed(side, Reward(plan.riskPerUnit, p));
    if c.tickSize > 0.0 {
      RoundPriceBounds(c, ideal, if side.Long? then Up else Down);
    }
  }
}
