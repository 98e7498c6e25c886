/** deltabt/engine.py: `run_backtest`, one symbol on its own account. */
module Engine {
  import opened Numbers
  import opened Costs
  import opened Exits
  import opened Positions
  import opened Execution
  import Latch = WprLatch

  /** The Williams %R gate as the engine may drive it. */
  datatype LatchRule = LatchRule(corrected: bool, enabled: bool, long: Latch.Levels, short: Latch.Levels,
                                 clearInPosition: bool, clearOnAdverseFlip: bool)

  datatype Setup = Setup(symbol: string, p: Params, c: SymbolCosts, latch: LatchRule, capital: real)

  /** Everything the bar loop carries. */
  datatype State = State(pos: Option<Held>, equity: real, optimistic: real, lastExit: int,
                         armLong: int, armShort: int, trades: seq<Trade>)

  predicate Live(l: LatchRule) {
    l.corrected && l.enabled && (l.clearInPosition || l.clearOnAdverseFlip)
  }

  function Initial(u: Setup): State {
    State(None, u.capital, u.capital, -1000000000, -1, -1, [])
  }

  // ---------------------------------------------------------------- one bar

  function Funded(s: State, b: Bar, u: Setup): State {
    if s.pos.None? then s
    else
      var charge := Charge(s.pos.value.plan, u.c, b);
      s.(pos := Some(s.pos.value.(accruedFunding := s.pos.value.accruedFunding + charge)),
         equity := s.equity - charge)
  }

  predicate StopTouched(h: Held, b: Bar) {
    if h.plan.side.Long? then b.markLow <= h.stopPrice else b.markHigh >= h.stopPrice
  }

  predicate TargetTouched(h: Held, b: Bar) {
    if h.plan.side.Long? then b.high >= h.plan.targetPrice else b.low <= h.plan.targetPrice
  }

  function Verdict(h: Held, b: Bar, i: int, p: Params): Option<Exit> {
    Decide(h, b, i, p, StopTouched(h, b), TargetTouched(h, b),
           FractionFill(h.plan.side, b, h.stopPrice, p.stopFillFraction))
  }

  /** The same exit with a same-bar conflict resolved target first. */
  function Hopeful(plan: Plan, exit: Exit): Exit {
    if exit.ambiguous then Exit(plan.targetPrice, TargetHit, true) else exit
  }

  function Exited(s: State, b: Bar, i: int, u: Setup): State {
    if s.pos.None? then s
    else
      var h := s.pos.value;
      var verdict := Verdict(h, b, i, u.p);
      if verdict.None? then s
      else
        var exit := verdict.value;
        s.(pos := None,
           equity := s.equity + Proceeds(h.plan, u.c, exit, false),
           optimistic := s.optimistic + Proceeds(h.plan, u.c, Hopeful(h.plan, exit), false),
           lastExit := i,
           trades := s.trades + [TradeOf(h, u.c, exit, false, b, i)])
  }

  function PrevWpr(bars: seq<Bar>, i: nat): Num
    requires i < |bars|
  {
    if i > 0 then bars[i - 1].wpr else None
  }

  predicate TurnsBear(bars: seq<Bar>, i: nat)
    requires i < |bars|
  {
    i > 0 && bars[i].bear && !bars[i - 1].bear
  }

  predicate TurnsBull(bars: seq<Bar>, i: nat)
    requires i < |bars|
  {
    i > 0 && bars[i].bull && !bars[i - 1].bull
  }

  /** Whether one side's latch fires on bar `i`, and the arm it keeps. */
  function LatchStep(arm: int, bars: seq<Bar>, i: nat, levels: Latch.Levels, clear: bool): (int, bool)
    requires i < |bars|
  {
    var (next, fired) := Latch.Advance(arm, i, bars[i].wpr, PrevWpr(bars, i), levels);
    (if clear then -1 else next, fired)
  }

  predicate ClearsLong(s: State, bars: seq<Bar>, i: nat, l: LatchRule)
    requires i < |bars|
  {
    (l.clearInPosition && s.pos.Some?) || (l.clearOnAdverseFlip && TurnsBear(bars, i))
  }

  predicate ClearsShort(s: State, bars: seq<Bar>, i: nat, l: LatchRule)
    requires i < |bars|
  {
    (l.clearInPosition && s.pos.Some?) || (l.clearOnAdverseFlip && TurnsBull(bars, i))
  }

  function Latched(s: State, bars: seq<Bar>, i: nat, l: LatchRule): State
    requires i < |bars|
  {
    if !Live(l) then s
    else s.(armLong := LatchStep(s.armLong, bars, i, l.long, ClearsLong(s, bars, i, l)).0,
            armShort := LatchStep(s.armShort, bars, i, l.short, ClearsShort(s, bars, i, l)).0)
  }

  /** The side wanted on bar `i`, long first; `s` is the state before the latch moved. */
  function Wanted(s: State, bars: seq<Bar>, i: nat, l: LatchRule): Option<Side>
    requires i < |bars|
  {
    var b := bars[i];
    var long := if Live(l) then b.longBase && LatchStep(s.armLong, bars, i, l.long, false).1 else b.longEntry;
    var short := if Live(l) then b.shortBase && LatchStep(s.armShort, bars, i, l.short, false).1 else b.shortEntry;
    if long then Some(Long) else if short then Some(Short) else None
  }

  predicate MayEnter(s: State, b: Bar, i: int, p: Params) {
    && s.pos.None? && i >= p.warmup && b.tradable
    && !(p.cooldownBars != 0 && i - s.lastExit < p.cooldownBars)
  }

  function Entered(s: State, b: Bar, i: int, want: Option<Side>, u: Setup): State {
    if want.None? || !MayEnter(s, b, i, u.p) then s
    else
      var h := PlanEntry(u.symbol, want.value, b, i, s.equity, u.p, u.c);
      if h.None? then s
      else s.(pos := h, equity := s.equity - h.value.plan.entryFee, optimistic := s.optimistic - h.value.plan.entryFee)
  }

  /** Funding and exit: the state the latch and the entry gate see. */
  function Managed(s: State, b: Bar, i: int, u: Setup): State {
    Exited(Funded(s, b, u), b, i, u)
  }

  function Step(s: State, bars: seq<Bar>, i: nat, u: Setup): State
    requires i < |bars|
  {
    var managed := Managed(s, bars[i], i, u);
    Entered(Latched(managed, bars, i, u.latch), bars[i], i, Wanted(managed, bars, i, u.latch), u)
  }

  /** The state after the first `i` bars. */
  function After(bars: seq<Bar>, u: Setup, i: nat): State
    requires i <= |bars|
  {
    if i == 0 then Initial(u) else Step(After(bars, u, i - 1), bars, i - 1, u)
  }

  // ---------------------------------------------------------------- the loop

  /** Funding and exits of one bar. */
  method Manage(s: State, b: Bar, i: int, u: Setup) returns (r: State)
    ensures r == Managed(s, b, i, u)
  {
    hide Charge, Proceeds, TradeOf, CloseExit;
    r := s;
    if s.pos.None? {
      return;
    }
    var charge := Charge(s.pos.value.plan, u.c, b);
    var h := s.pos.value.(accruedFunding := s.pos.value.accruedFunding + charge);
    r := r.(pos := Some(h), equity := r.equity - charge);
    var hitStop, hitTarget;
    if h.plan.side.Long? {
      hitStop, hitTarget := b.markLow <= h.stopPrice, b.high >= h.plan.targetPrice;
    } else {
      hitStop, hitTarget := b.markHigh >= h.stopPrice, b.low <= h.plan.targetPrice;
    }
    var exit;
    if hitStop {
      exit := Exit(FractionFill(h.plan.side, b, h.stopPrice, u.p.stopFillFraction), StopHit, hitTarget);
    } else if hitTarget {
      exit := Exit(h.plan.targetPrice, TargetHit, false);
    } else {
      var why := CloseExit(h, b, i, u.p);
      if why.None? {
        return;
      }
      exit := Exit(b.close, why.value, false);
    }
    var proceeds := Proceeds(h.plan, u.c, exit, false);
    var hopeful := proceeds;
    if exit.ambiguous {
      hopeful := Proceeds(h.plan, u.c, Exit(h.plan.targetPrice, TargetHit, true), false);
    }
    r := State(None, r.equity + proceeds, r.optimistic + hopeful, i, r.armLong, r.armShort,
               r.trades + [TradeOf(h, u.c, exit, false, b, i)]);
  }

  /** Both latches of one bar, and the side they want. */
  method DriveLatches(s: State, bars: seq<Bar>, i: nat, l: LatchRule) returns (r: State, want: Option<Side>)
    requires i < |bars|
    ensures r == Latched(s, bars, i, l)
    ensures want == Wanted(s, bars, i, l)
  {
    hide Latch.Advance;
    r := s;
    var b := bars[i];
    var wantLong, wantShort := b.longEntry, b.shortEntry;
    if Live(l) {
      var prev := if i > 0 then bars[i - 1].wpr else None;
      var armLong, firedLong := Latch.StepState(s.armLong, i, b.wpr, prev, l.long);
      var armShort, firedShort := Latch.StepState(s.armShort, i, b.wpr, prev, l.short);
      if l.clearInPosition && s.pos.Some? {
        armLong, armShort := -1, -1;
      }
      if l.clearOnAdverseFlip {
        if i > 0 && b.bear && !bars[i - 1].bear {
          armLong := -1;
        }
        if i > 0 && b.bull && !bars[i - 1].bull {
          armShort := -1;
        }
      }
      wantLong, wantShort := b.longBase && firedLong, b.shortBase && firedShort;
      r := s.(armLong := armLong, armShort := armShort);
    }
    want := if wantLong then Some(Long) else if wantShort then Some(Short) else None;
  }

  /** `run_backtest`: one pass over the bars. */
  method RunBacktest(bars: seq<Bar>, u: Setup)
    returns (trades: seq<Trade>, curve: array<real>, optimisticPnl: real)
    ensures fresh(curve) && curve.Length == |bars|
    ensures forall k :: 0 <= k < |bars| ==> curve[k] == After(bars, u, k + 1).equity
    ensures trades == After(bars, u, |bars|).trades
    ensures optimisticPnl == After(bars, u, |bars|).optimistic - u.capital
  {
    hide Managed, Latched, Wanted, PlanEntry;
    curve := new real[|bars|](_ => u.capital);
    var s := Initial(u);
    for i := 0 to |bars|
      invariant s == After(bars, u, i)
      invariant forall k :: 0 <= k < i ==> curve[k] == After(bars, u, k + 1).equity
    {
      var want;
      s := Manage(s, bars[i], i, u);
      s, want := DriveLatches(s, bars, i, u.latch);
      curve[i] := s.equity;
      if want.None? || !MayEnter(s, bars[i], i, u.p) {
        continue;
      }
      var h := PlanEntry(u.symbol, want.value, bars[i], i, s.equity, u.p, u.c);
      if h.Some? {
        var fee := h.value.plan.entryFee;
        s := s.(pos := h, equity := s.equity - fee, optimistic := s.optimistic - fee);
        curve[i] := s.equity;
      }
    }
    trades, optimisticPnl := s.trades, s.optimistic - u.capital;
  }

  // ---------------------------------------------------------------- causality

  /** A step reads its own bar and the one before. */
  lemma StepReadsTwoBars(s: State, bars: seq<Bar>, more: seq<Bar>, i: nat, u: Setup)
    requires i < |bars| && bars <= more
    ensures Step(s, bars, i, u) == Step(s, more, i, u)
  {
    hide Managed, Entered, Latch.Advance;
    assert bars[i] == more[i] && (i > 0 ==> bars[i - 1] == more[i - 1]);
  }

  /** No look-ahead: the first `i` bars alone decide everything up to there. */
  lemma {:induction false} RunIsCausal(bars: seq<Bar>, more: seq<Bar>, u: Setup, i: nat)
    requires i <= |bars| && bars <= more
    ensures After(bars, u, i) == After(more, u, i)
  {
    hide Step;
    if i > 0 {
      RunIsCausal(bars, more, u, i - 1);
      StepReadsTwoBars(After(bars, u, i - 1), bars, more, i - 1, u);
    }
  }

  // ---------------------------------------------------------------- the latch

  /** Bar by bar, whether the run was in a position once exits were resolved. */
  function InPosition(bars: seq<Bar>, u: Setup): (r: seq<bool>)
    ensures |r| == |bars|
  {
    seq(|bars|, i requires 0 <= i < |bars| => Managed(After(bars, u, i), bars[i], i, u).pos.Some?)
  }

  function BearTurns(bars: seq<Bar>): (r: seq<bool>)
    ensures |r| == |bars|
  {
    seq(|bars|, i requires 0 <= i < |bars| => TurnsBear(bars, i))
  }

  function BullTurns(bars: seq<Bar>): (r: seq<bool>)
    ensures |r| == |bars|
  {
    seq(|bars|, i requires 0 <= i < |bars| => TurnsBull(bars, i))
  }

  function WprSeries(bars: seq<Bar>): (r: seq<Num>)
    ensures |r| == |bars|
  {
    seq(|bars|, i requires 0 <= i < |bars| => bars[i].wpr)
  }

  /** The fires the engine saw, as they happened. */
  function LongFires(bars: seq<Bar>, u: Setup): (r: seq<bool>)
    ensures |r| == |bars|
  {
    seq(|bars|, i requires 0 <= i < |bars| => LatchStep(After(bars, u, i).armLong, bars, i, u.latch.long, false).1)
  }

  function ShortFires(bars: seq<Bar>, u: Setup): (r: seq<bool>)
    ensures |r| == |bars|
  {
    seq(|bars|, i requires 0 <= i < |bars| => LatchStep(After(bars, u, i).armShort, bars, i, u.latch.short, false).1)
  }

  function LongResets(bars: seq<Bar>, u: Setup): (r: seq<bool>)
    ensures |r| == |bars|
  {
    Latch.Resets(InPosition(bars, u), u.latch.clearInPosition, BearTurns(bars), u.latch.clearOnAdverseFlip)
  }

  function ShortResets(bars: seq<Bar>, u: Setup): (r: seq<bool>)
    ensures |r| == |bars|
  {
    Latch.Resets(InPosition(bars, u), u.latch.clearInPosition, BullTurns(bars), u.latch.clearOnAdverseFlip)
  }

  lemma ManagingKeepsArms(s: State, b: Bar, i: int, u: Setup)
    ensures Managed(s, b, i, u).armLong == s.armLong && Managed(s, b, i, u).armShort == s.armShort
  {
    hide Charge, Verdict, Proceeds, TradeOf;
  }

  lemma ResetsAreClears(bars: seq<Bar>, u: Setup, i: nat)
    requires i < |bars|
    ensures var managed := Managed(After(bars, u, i), bars[i], i, u);
            && LongResets(bars, u)[i] == ClearsLong(managed, bars, i, u.latch)
            && ShortResets(bars, u)[i] == ClearsShort(managed, bars, i, u.latch)
  {
    hide After, Managed;
  }

  lemma StepArms(s: State, bars: seq<Bar>, i: nat, u: Setup)
    requires i < |bars| && Live(u.latch)
    ensures var (managed, next) := (Managed(s, bars[i], i, u), Step(s, bars, i, u));
            && next.armLong == LatchStep(s.armLong, bars, i, u.latch.long, ClearsLong(managed, bars, i, u.latch)).0
            && next.armShort == LatchStep(s.armShort, bars, i, u.latch.short, ClearsShort(managed, bars, i, u.latch)).0
  {
    hide Managed, PlanEntry, LatchStep, Wanted;
    ManagingKeepsArms(s, bars[i], i, u);
  }

  lemma {:induction false} ArmsAreReplayed(bars: seq<Bar>, u: Setup, i: nat)
    requires Live(u.latch) && i <= |bars|
    ensures After(bars, u, i).armLong == Latch.ArmBefore(WprSeries(bars), u.latch.long, LongResets(bars, u), i)
    ensures After(bars, u, i).armShort == Latch.ArmBefore(WprSeries(bars), u.latch.short, ShortResets(bars, u), i)
  {
    hide Managed, Step, Latch.Advance, LongResets, ShortResets, ClearsLong, ClearsShort;
    if i > 0 {
      ArmsAreReplayed(bars, u, i - 1);
      StepArms(After(bars, u, i - 1), bars, i - 1, u);
      ResetsAreClears(bars, u, i - 1);
    }
  }

  /** Closed loop equals open loop: the fires the live latch gave the engine, driven
      by its own positions, are those of a scan run afterwards over what it recorded. */
  lemma ClosedLoopLatchIsReplay(bars: seq<Bar>, u: Setup)
    requires Live(u.latch)
    ensures LongFires(bars, u) == Latch.Fires(WprSeries(bars), u.latch.long, LongResets(bars, u))
    ensures ShortFires(bars, u) == Latch.Fires(WprSeries(bars), u.latch.short, ShortResets(bars, u))
  {
    hide After;
    forall i | 0 <= i < |bars|
      ensures LongFires(bars, u)[i] == Latch.FiresAt(WprSeries(bars), u.latch.long, LongResets(bars, u), i)
      ensures ShortFires(bars, u)[i] == Latch.FiresAt(WprSeries(bars), u.latch.short, ShortResets(bars, u), i)
    {
      ArmsAreReplayed(bars, u, i);
    }
  }

  /** The replay is the scan itself. */
  method ReplayLong(bars: seq<Bar>, u: Setup) returns (fire: array<bool>)
    requires Live(u.latch)
    ensures fresh(fire) && fire[..] == LongFires(bars, u)
  {
    ClosedLoopLatchIsReplay(bars, u);
    fire := Latch.Scan(WprSeries(bars), u.latch.long, InPosition(bars, u), u.latch.clearInPosition,
                       BearTurns(bars), u.latch.clearOnAdverseFlip);
  }

  // ---------------------------------------------------------------- conservation

  function OpenCost(pos: Option<Held>): real { if pos.None? then 0.0 else Sunk(pos.value) }

  ghost predicate Balanced(s: State, u: Setup) {
    s.equity == u.capital + SumPnl(s.trades) - OpenCost(s.pos)
  }

  lemma StepBalances(s: State, bars: seq<Bar>, i: nat, u: Setup)
    requires i < |bars| && Balanced(s, u)
    ensures Balanced(Step(s, bars, i, u), u)
  {
    hide Charge, Verdict, Proceeds, PlanEntry, LatchStep, Wanted;
    var funded := Funded(s, bars[i], u);
    assert Balanced(funded, u);
    var managed := Exited(funded, bars[i], i, u);
    if managed != funded {
      SumPnlSnoc(funded.trades, managed.trades[|funded.trades|]);
    }
    assert Balanced(managed, u);
  }

  /** At every bar, equity is the capital plus what closed trades made, less the
      entry fee and funding sunk into the open position. */
  lemma {:induction false} EquityIsConserved(bars: seq<Bar>, u: Setup, i: nat)
    requires i <= |bars|
    ensures Balanced(After(bars, u, i), u)
  {
    hide Step;
    if i > 0 {
      EquityIsConserved(bars, u, i - 1);
      StepBalances(After(bars, u, i - 1), bars, i - 1, u);
    }
  }

  // ---------------------------------------------------------------- funding

  /** What a position pays over the bars after `lo`, up to and including `hi`. */
  function FundingOver(bars: seq<Bar>, plan: Plan, c: SymbolCosts, lo: int, hi: int): real
    requires -1 <= lo <= hi < |bars|
    decreases hi - lo
  {
    if lo == hi then 0.0 else FundingOver(bars, plan, c, lo, hi - 1) + Charge(plan, c, bars[hi])
  }

  ghost predicate PaidInFull(t: Trade, bars: seq<Bar>, c: SymbolCosts) {
    && 0 <= t.plan.entryIndex < t.exitIndex < |bars|
    && t.funding == FundingOver(bars, t.plan, c, t.plan.entryIndex, t.exitIndex)
  }

  ghost predicate FundingTracked(s: State, bars: seq<Bar>, i: nat, c: SymbolCosts)
    requires i <= |bars|
  {
    && (forall k :: 0 <= k < |s.trades| ==> PaidInFull(s.trades[k], bars, c))
    && (s.pos.Some? ==> var h := s.pos.value;
                        && 0 <= h.plan.entryIndex < i
                        && h.accruedFunding == FundingOver(bars, h.plan, c, h.plan.entryIndex, i - 1))
  }

  /** Each trade's funding is the sum over the settlement bars after its entry bar,
      up to and including its exit bar. */
  lemma {:induction false} FundingIsPaidInFull(bars: seq<Bar>, u: Setup, i: nat)
    requires i <= |bars|
    ensures FundingTracked(After(bars, u, i), bars, i, u.c)
  {
    hide Charge, Verdict, Proceeds, Latched, Wanted, PlanEntry;
    if i > 0 {
      FundingIsPaidInFull(bars, u, i - 1);
      var s, b := After(bars, u, i - 1), bars[i - 1];
      LatchingKeepsAccount(Managed(s, b, i - 1, u), bars, i - 1, u.latch);
    }
  }

  /** The same sum, read off the funding series instead of the bars. */
  function SampledFunding(bars: seq<Bar>, plan: Plan, c: SymbolCosts, points: seq<FundingPoint>, lo: int, hi: int): real
    requires -1 <= lo <= hi < |bars|
    decreases hi - lo
  {
    if lo == hi then 0.0
    else SampledFunding(bars, plan, c, points, lo, hi - 1) + SampledCharge(plan, c, bars[hi], points)
  }

  /** Every bar carries the rate looked up in the series sampled from the first bar to the last. */
  predicate Rated(bars: seq<Bar>, c: SymbolCosts, points: seq<FundingPoint>) {
    forall k :: 0 <= k < |bars| ==> RatedFrom(bars[k], c, points, bars[0].time, bars[|bars| - 1].time)
  }

  lemma {:induction false} FundingIsSampled(bars: seq<Bar>, plan: Plan, c: SymbolCosts, points: seq<FundingPoint>,
                                            lo: int, hi: int)
    requires -1 <= lo <= hi < |bars| && Rated(bars, c, points)
    ensures FundingOver(bars, plan, c, lo, hi) == SampledFunding(bars, plan, c, points, lo, hi)
    decreases hi - lo
  {
    hide Charge, SampledCharge, RatedFrom;
    if lo < hi {
      FundingIsSampled(bars, plan, c, points, lo, hi - 1);
      RatedBarPaysItsSample(plan, c, bars[hi], points, bars[0].time, bars[|bars| - 1].time);
    }
  }

  /** With the rates looked up, each trade of a run has paid, for every bar after its
      entry up to its exit whose time is a multiple of the interval, the sample in
      force at that time, and nothing for any other. */
  lemma FundingFollowsTheSamples(bars: seq<Bar>, u: Setup, points: seq<FundingPoint>, i: nat, k: nat)
    requires Rated(bars, u.c, points) && i <= |bars| && k < |After(bars, u, i).trades|
    ensures var t := After(bars, u, i).trades[k];
            && 0 <= t.plan.entryIndex < t.exitIndex < |bars|
            && t.funding == SampledFunding(bars, t.plan, u.c, points, t.plan.entryIndex, t.exitIndex)
  {
    hide After, FundingOver, SampledFunding, Rated;
    FundingIsPaidInFull(bars, u, i);
    var t := After(bars, u, i).trades[k];
    FundingIsSampled(bars, t.plan, u.c, points, t.plan.entryIndex, t.exitIndex);
  }

  lemma LatchingKeepsAccount(s: State, bars: seq<Bar>, i: nat, l: LatchRule)
    requires i < |bars|
    ensures Latched(s, bars, i, l)
            == s.(armLong := Latched(s, bars, i, l).armLong, armShort := Latched(s, bars, i, l).armShort)
  {
    hide LatchStep;
  }

  // ---------------------------------------------------------------- order of trades

  ghost predicate Orderly(s: State, i: nat, p: Params) {
    && (forall k :: 0 <= k < |s.trades|
          ==> p.warmup <= s.trades[k].plan.entryIndex < s.trades[k].exitIndex <= s.lastExit < i)
    && (forall j, k :: 0 <= j < k < |s.trades| ==> s.trades[j].exitIndex + Cooldown(p) <= s.trades[k].plan.entryIndex)
    && (s.pos.Some? ==> && p.warmup <= s.pos.value.plan.entryIndex < i
                        && forall k :: 0 <= k < |s.trades|
                            ==> s.trades[k].exitIndex + Cooldown(p) <= s.pos.value.plan.entryIndex)
  }

  lemma FundingStaysOrderly(s: State, b: Bar, i: nat, u: Setup)
    requires Orderly(s, i, u.p)
    ensures Orderly(Funded(s, b, u), i, u.p)
  {
    hide Charge;
  }

  lemma ExitingStaysOrderly(s: State, b: Bar, i: nat, u: Setup)
    requires Orderly(s, i, u.p)
    ensures Orderly(Exited(s, b, i, u), i + 1, u.p)
  {
    hide Verdict, Proceeds, Hopeful;
    var next := Exited(s, b, i, u);
    if next != s {
      var h, last := s.pos.value, |s.trades|;
      assert next.trades[last].plan == h.plan && next.trades[last].exitIndex == i;
      assert forall k :: 0 <= k < last ==> next.trades[k] == s.trades[k];
    }
  }

  lemma EnteringStaysOrderly(s: State, b: Bar, i: nat, want: Option<Side>, u: Setup)
    requires Orderly(s, i + 1, u.p)
    requires forall k :: 0 <= k < |s.trades| ==> s.trades[k].exitIndex <= i
    ensures Orderly(Entered(s, b, i, want, u), i + 1, u.p)
  {
    hide PlanEntry;
  }

  lemma StepIsOrderly(s: State, bars: seq<Bar>, i: nat, u: Setup)
    requires i < |bars| && Orderly(s, i, u.p)
    ensures Orderly(Step(s, bars, i, u), i + 1, u.p)
  {
    hide Funded, Exited, Entered, Latched, Wanted;
    var b := bars[i];
    var funded, managed := Funded(s, b, u), Managed(s, b, i, u);
    FundingStaysOrderly(s, b, i, u);
    ExitingStaysOrderly(funded, b, i, u);
    LatchingKeepsAccount(managed, bars, i, u.latch);
    EnteringStaysOrderly(Latched(managed, bars, i, u.latch), b, i, Wanted(managed, bars, i, u.latch), u);
  }

  /** Positions never overlap: each is opened after the warmup, closed on a later
      bar than it was opened, and followed by the whole cooldown. */
  lemma {:induction false} TradesNeverOverlap(bars: seq<Bar>, u: Setup, i: nat)
    requires i <= |bars|
    ensures Orderly(After(bars, u, i), i, u.p)
  {
    hide Step;
    if i > 0 {
      TradesNeverOverlap(bars, u, i - 1);
      StepIsOrderly(After(bars, u, i - 1), bars, i - 1, u);
    }
  }

  // ---------------------------------------------------------------- the optimistic counterpart

  /** What resolving a same-bar conflict the other way would have added. */
  function Gap(t: Trade, c: SymbolCosts): real {
    Proceeds(t.plan, c, Hopeful(t.plan, t.exit), false) - Proceeds(t.plan, c, t.exit, false)
  }

  function SumGaps(trades: seq<Trade>, c: SymbolCosts): real {
    if trades == [] then 0.0 else SumGaps(trades[..|trades| - 1], c) + Gap(trades[|trades| - 1], c)
  }

  function SumFunding(trades: seq<Trade>): real {
    if trades == [] then 0.0 else SumFunding(trades[..|trades| - 1]) + trades[|trades| - 1].funding
  }

  /** All funding charged so far, on closed trades and the open position. */
  function FundingCharged(s: State): real {
    SumFunding(s.trades) + if s.pos.None? then 0.0 else s.pos.value.accruedFunding
  }

  ghost predicate OptimismExplained(s: State, c: SymbolCosts) {
    s.optimistic - s.equity == FundingCharged(s) + SumGaps(s.trades, c)
  }

  lemma SumsSnoc(trades: seq<Trade>, t: Trade, c: SymbolCosts)
    ensures SumGaps(trades + [t], c) == SumGaps(trades, c) + Gap(t, c)
    ensures SumFunding(trades + [t]) == SumFunding(trades) + t.funding
  {
    assert (trades + [t])[..|trades|] == trades;
  }

  lemma ManagingExplainsOptimism(s: State, b: Bar, i: int, u: Setup)
    requires OptimismExplained(s, u.c)
    ensures OptimismExplained(Managed(s, b, i, u), u.c)
  {
    hide Charge, Verdict, Proceeds, Hopeful;
    var funded, managed := Funded(s, b, u), Managed(s, b, i, u);
    if managed != funded {
      SumsSnoc(funded.trades, managed.trades[|funded.trades|], u.c);
    }
  }

  /** The optimistic account is ahead by exactly the funding it never pays plus the
      gap of every ambiguous trade. */
  lemma {:induction false} OptimismIsFundingPlusGaps(bars: seq<Bar>, u: Setup, i: nat)
    requires i <= |bars|
    ensures OptimismExplained(After(bars, u, i), u.c)
  {
    hide Managed, Latched, Wanted, PlanEntry, Gap;
    if i > 0 {
      var s := After(bars, u, i - 1);
      var managed := Managed(s, bars[i - 1], i - 1, u);
      OptimismIsFundingPlusGaps(bars, u, i - 1);
      ManagingExplainsOptimism(s, bars[i - 1], i - 1, u);
      LatchingKeepsAccount(managed, bars, i - 1, u.latch);
    }
  }

  /** A position as the entry rules make it: stop behind, target ahead, worth something. */
  ghost predicate SoundPlan(plan: Plan, stop: real, c: SymbolCosts) {
    && plan.contracts > 0 && c.contractValue > 0.0 && plan.entryPrice > 0.0
    && Signed(plan.side, plan.entryPrice - stop) == plan.riskPerUnit
    && Signed(plan.side, plan.targetPrice - plan.entryPrice) >= 0.0
  }

  ghost predicate SoundTrade(t: Trade, c: SymbolCosts) {
    && SoundPlan(t.plan, t.stopPrice, c)
    && (t.exit.reason == StopHit ==> Signed(t.plan.side, t.plan.entryPrice - t.exit.price) >= t.plan.riskPerUnit)
    && (t.exit.ambiguous ==> t.exit.reason == StopHit)
  }

  ghost predicate Sound(s: State, c: SymbolCosts) {
    && (forall k :: 0 <= k < |s.trades| ==> SoundTrade(s.trades[k], c))
    && (s.pos.Some? ==> SoundPlan(s.pos.value.plan, s.pos.value.stopPrice, c))
  }

  lemma StopFillsBehindStop(side: Side, b: Bar, stop: real, fraction: real)
    requires fraction >= 0.0
    ensures Signed(side, stop - FractionFill(side, b, stop, fraction)) >= 0.0
  {
    var adverse := if side.Long? then Min(b.low, stop) else Max(b.high, stop);
    var d := if side.Long? then stop - adverse else adverse - stop;
    assert fraction * d >= 0.0;
    assert side.Long? ==> fraction * (adverse - stop) == -(fraction * d);
  }

  lemma EntryIsSound(u: Setup, side: Side, b: Bar, i: int, equity: real)
    requires PlanEntry(u.symbol, side, b, i, equity, u.p, u.c).Some?
    requires b.close > 0.0 && u.p.rewardRisk >= 0.0
    ensures var h := PlanEntry(u.symbol, side, b, i, equity, u.p, u.c).value; SoundPlan(h.plan, h.stopPrice, u.c)
  {
    EntryIsWithinBudget(u.symbol, side, b, i, equity, u.p, u.c);
    TargetIsBeyondReward(u.symbol, side, b, i, equity, u.p, u.c);
    var plan := PlanEntry(u.symbol, side, b, i, equity, u.p, u.c).value.plan;
    assert Reward(plan.riskPerUnit, u.p) >= 0.0;
  }

  lemma StepIsSound(s: State, bars: seq<Bar>, i: nat, u: Setup)
    requires i < |bars| && Sound(s, u.c)
    requires u.p.stopFillFraction >= 0.0 && u.p.rewardRisk >= 0.0 && bars[i].close > 0.0
    ensures Sound(Step(s, bars, i, u), u.c)
  {
    hide Charge, Proceeds, CloseExit, FractionFill, Latched, Wanted, PlanEntry;
    var b := bars[i];
    if s.pos.Some? {
      StopFillsBehindStop(s.pos.value.plan.side, b, s.pos.value.stopPrice, u.p.stopFillFraction);
    }
    var funded, managed := Funded(s, b, u), Managed(s, b, i, u);
    if managed != funded {
      var h, last := funded.pos.value, |funded.trades|;
      assert managed.trades == funded.trades + [managed.trades[last]] && managed.trades[last].plan == h.plan;
      assert forall k :: 0 <= k < last ==> managed.trades[k] == s.trades[k];
      assert SoundTrade(managed.trades[last], u.c);
    }
    assert Sound(managed, u.c);
    LatchingKeepsAccount(managed, bars, i, u.latch);
    var want := Wanted(managed, bars, i, u.latch);
    if want.Some? && PlanEntry(u.symbol, want.value, b, i, managed.equity, u.p, u.c).Some? {
      EntryIsSound(u, want.value, b, i, managed.equity);
    }
  }

  lemma {:induction false} RunIsSound(bars: seq<Bar>, u: Setup, i: nat)
    requires i <= |bars|
    requires u.p.stopFillFraction >= 0.0 && u.p.rewardRisk >= 0.0
    requires forall k :: 0 <= k < |bars| ==> bars[k].close > 0.0
    ensures Sound(After(bars, u, i), u.c)
  {
    hide Step;
    if i > 0 {
      RunIsSound(bars, u, i - 1);
      StepIsSound(After(bars, u, i - 1), bars, i - 1, u);
    }
  }

  /** One unit's outcome at a price, per side and fee rate. */
  function PerUnit(side: Side, entry: real, price: real, rate: real): real {
    Signed(side, price - entry) - price * rate
  }

  lemma ProceedsPerUnit(plan: Plan, c: SymbolCosts, exit: Exit)
    requires plan.contracts > 0
    ensures var rate := if exit.reason == TargetHit then EffectiveMaker(c) else EffectiveTaker(c) + SlippageRate(c);
            Proceeds(plan, c, exit, false)
            == plan.contracts as real * c.contractValue * PerUnit(plan.side, plan.entryPrice, exit.price, rate)
  {
    var rate := if exit.reason == TargetHit then EffectiveMaker(c) else EffectiveTaker(c) + SlippageRate(c);
    FactorOut(Signed(plan.side, exit.price - plan.entryPrice), plan.contracts as real, c.contractValue, exit.price,
              rate);
  }

  lemma FactorOut(a: real, n: real, cv: real, price: real, rate: real)
    ensures a * n * cv - n * cv * price * rate == n * cv * (a - price * rate)
  {
  }

  /** Ahead of entry at the lower rate beats behind entry at the higher one. */
  lemma TargetBeatsStop(side: Side, entry: real, target: real, stop: real, maker: real, taker: real)
    requires -1.0 <= maker <= taker <= 1.0 && entry > 0.0
    requires Signed(side, target - entry) >= 0.0 >= Signed(side, stop - entry)
    ensures PerUnit(side, entry, target, maker) >= PerUnit(side, entry, stop, taker)
  {
    if side.Short? {
      ShortTargetBeatsStop(target, stop, maker, taker);
    } else if stop >= 0.0 {
      ScaleLe(maker, taker, stop);
      ScaleLe(stop, target, 1.0 - maker);
      assert target * (1.0 - maker) == target - target * maker && stop * (1.0 - maker) == stop - stop * maker;
    } else {
      KeepsSign(target, 1.0 - maker);
      KeepsSign(-stop, 1.0 - taker);
      assert target * (1.0 - maker) == target - target * maker;
      assert -stop * (1.0 - taker) == stop * taker - stop;
    }
  }

  lemma KeepsSign(a: real, b: real)
    requires a >= 0.0 && b >= 0.0
    ensures a * b >= 0.0
  {
  }

  lemma ShortTargetBeatsStop(target: real, stop: real, maker: real, taker: real)
    requires -1.0 <= maker <= taker && target <= stop && stop >= 0.0
    ensures -target - target * maker >= -stop - stop * taker
  {
    ScaleLe(target, stop, 1.0 + maker);
    ScaleLe(1.0 + maker, 1.0 + taker, stop);
    assert stop * (1.0 + maker) <= stop * (1.0 + taker);
    assert target * (1.0 + maker) == target + target * maker;
    assert stop * (1.0 + taker) == stop + stop * taker;
  }

  /** A gap is never negative while leaving as a maker is no dearer than as a taker. */
  lemma GapIsNonNegative(t: Trade, c: SymbolCosts)
    requires SoundTrade(t, c)
    requires -1.0 <= EffectiveMaker(c) <= EffectiveTaker(c) + SlippageRate(c) <= 1.0
    ensures Gap(t, c) >= 0.0
  {
    if t.exit.ambiguous {
      var plan, maker, taker := t.plan, EffectiveMaker(c), EffectiveTaker(c) + SlippageRate(c);
      ProceedsPerUnit(plan, c, t.exit);
      ProceedsPerUnit(plan, c, Hopeful(plan, t.exit));
      TargetBeatsStop(plan.side, plan.entryPrice, plan.targetPrice, t.exit.price, maker, taker);
      var good := PerUnit(plan.side, plan.entryPrice, plan.targetPrice, maker);
      var bad := PerUnit(plan.side, plan.entryPrice, t.exit.price, taker);
      assert plan.contracts as real * c.contractValue >= 0.0;
      ScaleLe(bad, good, plan.contracts as real * c.contractValue);
    }
  }

  /** An ambiguous one-contract trade with its stop filled at its own price. */
  function Conflict(side: Side, entry: real, risk: real, target: real): Trade
    requires risk > 0.0
  {
    var stop := entry - Signed(side, risk);
    Trade(Plan("", side, 1, entry, 0, 0, target, risk, 0.0, None), 1, 60, Exit(stop, StopHit, true), stop,
          0.0, 0.0, 0.0, 0.0, false)
  }

  lemma ConflictGap(side: Side, entry: real, risk: real, target: real, c: SymbolCosts)
    requires risk > 0.0 && entry > 0.0 && Signed(side, target - entry) >= 0.0 && c.contractValue > 0.0
    ensures SoundTrade(Conflict(side, entry, risk, target), c)
    ensures Gap(Conflict(side, entry, risk, target), c)
            == c.contractValue * (PerUnit(side, entry, target, EffectiveMaker(c))
                                  - PerUnit(side, entry, entry - Signed(side, risk),
                                            EffectiveTaker(c) + SlippageRate(c)))
  {
    var t := Conflict(side, entry, risk, target);
    ProceedsPerUnit(t.plan, c, t.exit);
    ProceedsPerUnit(t.plan, c, Hopeful(t.plan, t.exit));
  }

  lemma Beyond(bound: real, step: real) returns (k: real)
    requires step > 0.0
    ensures k > 0.0 && k * step > bound
  {
    k := (Abs(bound) + 1.0) / step;
    assert k * step == Abs(bound) + 1.0;
  }

  lemma Spread(a: real, b: real, k: real)
    ensures (a - b) * k == a * k - b * k && k * (a - b) == k * a - k * b
  {
  }

  lemma DearMaker(maker: real, taker: real, entry: real)
    requires entry * (maker - taker) > 1.0 - taker
    ensures PerUnit(Long, entry, entry, maker) < PerUnit(Long, entry, entry - 1.0, taker)
  {
    Spread(maker, taker, entry);
    Spread(entry, 1.0, taker);
  }

  lemma DearTaker(maker: real, taker: real, risk: real)
    requires risk * (taker - 1.0) > taker - maker
    ensures PerUnit(Long, 1.0, 1.0, maker) < PerUnit(Long, 1.0, 1.0 - risk, taker)
  {
    Spread(taker, 1.0, risk);
    Spread(1.0, risk, taker);
  }

  lemma PaidMaker(maker: real, taker: real, gain: real)
    requires gain * -(1.0 + maker) > 1.0 - maker + 2.0 * taker
    ensures PerUnit(Short, 1.0, 1.0 - gain, maker) < PerUnit(Short, 1.0, 2.0, taker)
  {
    Spread(1.0, gain, maker);
    Spread(-maker, 1.0, gain);
  }

  /** Some conflict is worse for the optimist as soon as the rates leave that range. */
  lemma WorstConflict(maker: real, taker: real) returns (side: Side, entry: real, risk: real, target: real)
    requires !(-1.0 <= maker <= taker <= 1.0)
    ensures risk > 0.0 && entry > 0.0 && Signed(side, target - entry) >= 0.0
    ensures PerUnit(side, entry, target, maker) < PerUnit(side, entry, entry - Signed(side, risk), taker)
  {
    hide PerUnit;
    if maker > taker {
      entry := Beyond(1.0 - taker, maker - taker);
      DearMaker(maker, taker, entry);
      side, risk, target := Long, 1.0, entry;
    } else if taker > 1.0 {
      risk := Beyond(taker - maker, taker - 1.0);
      DearTaker(maker, taker, risk);
      side, entry, target := Long, 1.0, 1.0;
    } else {
      var gain := Beyond(1.0 - maker + 2.0 * taker, -(1.0 + maker));
      PaidMaker(maker, taker, gain);
      side, entry, target, risk := Short, 1.0, 1.0 - gain, 1.0;
    }
  }

  /** No sound trade has a negative gap exactly when leaving as a maker is no dearer
      than as a taker with slippage, and neither rate exceeds the whole price. */
  lemma GapNonNegativeIff(c: SymbolCosts)
    requires c.contractValue > 0.0
    ensures (forall t: Trade :: SoundTrade(t, c) ==> Gap(t, c) >= 0.0)
            <==> -1.0 <= EffectiveMaker(c) <= EffectiveTaker(c) + SlippageRate(c) <= 1.0
  {
    hide Gap, SoundTrade, PerUnit, EffectiveMaker, EffectiveTaker, SlippageRate;
    var maker, taker := EffectiveMaker(c), EffectiveTaker(c) + SlippageRate(c);
    if -1.0 <= maker <= taker <= 1.0 {
      forall t: Trade | SoundTrade(t, c) ensures Gap(t, c) >= 0.0 { GapIsNonNegative(t, c); }
    } else {
      var side, entry, risk, target := WorstConflict(maker, taker);
      ConflictGap(side, entry, risk, target, c);
      ScaleLt(PerUnit(side, entry, target, maker) - PerUnit(side, entry, entry - Signed(side, risk), taker), 0.0,
              c.contractValue);
      assert SoundTrade(Conflict(side, entry, risk, target), c) && Gap(Conflict(side, entry, risk, target), c) < 0.0;
    }
  }

  lemma {:induction false} SumOfGapsIsNonNegative(trades: seq<Trade>, c: SymbolCosts)
    requires forall k :: 0 <= k < |trades| ==> SoundTrade(trades[k], c)
    requires -1.0 <= EffectiveMaker(c) <= EffectiveTaker(c) + SlippageRate(c) <= 1.0
    ensures SumGaps(trades, c) >= 0.0
  {
    if trades != [] {
      SumOfGapsIsNonNegative(trades[..|trades| - 1], c);
      GapIsNonNegative(trades[|trades| - 1], c);
    }
  }

  /** So the optimistic account, once it too pays the funding, is never behind. */
  lemma OptimisticIsAnUpperBound(bars: seq<Bar>, u: Setup, i: nat)
    requires i <= |bars|
    requires u.p.stopFillFraction >= 0.0 && u.p.rewardRisk >= 0.0
    requires forall k :: 0 <= k < |bars| ==> bars[k].close > 0.0
    requires -1.0 <= EffectiveMaker(u.c) <= EffectiveTaker(u.c) + SlippageRate(u.c) <= 1.0
    ensures var s := After(bars, u, i); s.optimistic - FundingCharged(s) >= s.equity
  {
    OptimismIsFundingPlusGaps(bars, u, i);
    RunIsSound(bars, u, i);
    SumOfGapsIsNonNegative(After(bars, u, i).trades, u.c);
  }

  /** A stop filled at its own price loses exactly one R before costs. */
  lemma StopAtItsPriceLosesOneR(bars: seq<Bar>, u: Setup, i: nat, k: nat)
    requires i <= |bars| && k < |After(bars, u, i).trades|
    requires u.p.stopFillFraction >= 0.0 && u.p.rewardRisk >= 0.0
    requires forall j :: 0 <= j < |bars| ==> bars[j].close > 0.0
    requires var t := After(bars, u, i).trades[k]; t.exit.reason == StopHit && t.exit.price == t.stopPrice
    ensures var t := After(bars, u, i).trades[k];
            Gross(t.plan, u.c, t.exit.price) == -UnitRisk(t.plan, u.c)
  {
    hide After;
    RunIsSound(bars, u, i);
    var t := After(bars, u, i).trades[k];
    NegateProduct(t.plan.riskPerUnit, t.plan.contracts as real, u.c.contractValue);
  }
}
