/** deltabt/portfolio.py: `run_portfolio`, every symbol against one account. */
module Portfolio {
  import opened Numbers
  import opened Costs
  import opened Exits
  import opened Positions
  import opened Execution

  /** One symbol's bar in the merged stream; `index` counts its own bars. */
  datatype Event = Event(symbol: string, index: int, bar: Bar)

  /** All events of one timestamp. */
  datatype Tick = Tick(ts: int, events: seq<Event>)

  /** Circuit breakers; 0 switches off losses, resume and pause. */
  datatype Gates = Gates(maxOpen: int, maxTradesPerDay: int, maxDailyLoss: real, maxDrawdown: real,
                         maxLosses: int, resumeAfterDays: int, pauseSeconds: int, pauseAfter: Option<Trade -> bool>)

  /** How stops are watched and filled. */
  datatype StopModel = StopModel(ltpClose: bool, triggerLtp: bool, protection: Protection)

  datatype Book = Book(costs: SymbolCosts, warmup: int)

  datatype Setup = Setup(symbols: seq<string>, books: string -> Book, p: Params, stops: StopModel, gates: Gates,
                         capital: real)

  /** Everything the event loop carries. */
  datatype Account = Account(equity: real, peak: real, open: map<string, Held>,
                             day: Option<int>, dayStart: real, tradesToday: int, losses: int,
                             haltedAt: Option<int>, halts: seq<(int, real)>,
                             lastExit: map<string, int>, pauseUntil: map<string, int>,
                             trades: seq<Trade>, curve: seq<(int, real)>)

  const DAY := 86400

  function Initial(u: Setup): Account {
    Account(u.capital, u.capital, map[], None, u.capital, 0, 0, None, [], map[], map[], [], [])
  }

  function Get(m: map<string, int>, symbol: string, otherwise: int): int {
    if symbol in m then m[symbol] else otherwise
  }

  // ---------------------------------------------------------------- day roll

  function Rolled(a: Account, ts: int): Account {
    if a.day == Some(ts / DAY) then a
    else a.(day := Some(ts / DAY), dayStart := a.equity, tradesToday := 0, losses := 0)
  }

  // ---------------------------------------------------------------- exits

  predicate Protects(p: Protection) { p.ladder != [] || p.trail.Some? }

  function BarHits(h: Held, b: Bar, m: StopModel): (bool, bool) {
    if h.plan.side.Long? then
      ((if m.triggerLtp then b.low else b.markLow) <= h.stopPrice, b.high >= h.plan.targetPrice)
    else
      ((if m.triggerLtp then b.high else b.markHigh) >= h.stopPrice, b.low <= h.plan.targetPrice)
  }

  function BarStopFill(h: Held, b: Bar, m: StopModel, p: Params, c: SymbolCosts): real {
    if m.ltpClose then FillAtCross(h.plan.side, b.minutes, b.close, h.stopPrice, SlippageRate(c))
    else FractionFill(h.plan.side, b, h.stopPrice, p.stopFillFraction)
  }

  function BarExtreme(side: Side, b: Bar): real { if side.Long? then b.high else b.low }

  predicate Walks(b: Bar, m: StopModel) { Protects(m.protection) && b.minutes != [] }

  function Rule(h: Held, m: StopModel, c: SymbolCosts): Positions.Rule { Earning(h.plan, m.protection, c) }

  /** The verdict on one bar, and the position the walk left behind. */
  function Resolve(h: Held, e: Event, u: Setup): (Held, Option<Exit>) {
    var b, m, c := e.bar, u.stops, u.books(e.symbol).costs;
    if Walks(b, m) then
      var (after, w) := Walk(h, b.minutes, Rule(h, m, c), StopRule(m.triggerLtp, SlippageRate(c)));
      (after, Decide(after, b, e.index, u.p, w.hitStop, w.hitTarget, if w.fill.Some? then w.fill.value else 0.0))
    else
      var (hitStop, hitTarget) := BarHits(h, b, m);
      (h, Decide(h, b, e.index, u.p, hitStop, hitTarget, BarStopFill(h, b, m, u.p, c)))
  }

  /** What a surviving position becomes: bars without minutes promote on their
      extreme, after the exits. */
  function Kept(h: Held, e: Event, u: Setup): Held {
    if Protects(u.stops.protection) && !Walks(e.bar, u.stops)
    then Promoted(h, BarExtreme(h.plan.side, e.bar), Rule(h, u.stops, u.books(e.symbol).costs))
    else h
  }

  predicate Pauses(g: Gates, t: Trade) {
    g.pauseSeconds != 0 && g.pauseAfter.Some? && g.pauseAfter.value(t)
  }

  function Closed(a: Account, h: Held, exit: Exit, e: Event, u: Setup): Account {
    var c := u.books(e.symbol).costs;
    var trade := TradeOf(h, c, exit, u.stops.ltpClose, e.bar, e.index);
    var equity := a.equity + Proceeds(h.plan, c, exit, u.stops.ltpClose);
    a.(equity := equity, peak := Max(a.peak, equity), open := a.open - {e.symbol},
       trades := a.trades + [trade], lastExit := a.lastExit[e.symbol := e.index],
       pauseUntil := if Pauses(u.gates, trade) then a.pauseUntil[e.symbol := e.bar.time + u.gates.pauseSeconds]
           else a.pauseUntil,
       losses := if trade.pnl > 0.0 then 0 else a.losses + 1)
  }

  function Charged(h: Held, e: Event, u: Setup): Held {
    h.(accruedFunding := h.accruedFunding + Charge(h.plan, u.books(e.symbol).costs, e.bar))
  }

  /** Funding, then exit or promotion, of one symbol. */
  function Managed(a: Account, e: Event, u: Setup): Account {
    if e.symbol !in a.open then a
    else
      var h := Charged(a.open[e.symbol], e, u);
      var charged := a.(equity := a.equity - Charge(a.open[e.symbol].plan, u.books(e.symbol).costs, e.bar));
      var (after, verdict) := Resolve(h, e, u);
      if verdict.Some? then Closed(charged, after, verdict.value, e, u)
      else charged.(open := a.open[e.symbol := Kept(after, e, u)])
  }

  function ManagedAll(a: Account, es: seq<Event>, u: Setup): Account {
    if es == [] then a else Managed(ManagedAll(a, es[..|es| - 1], u), es[|es| - 1], u)
  }

  // ---------------------------------------------------------------- entries

  predicate DayIsLost(a: Account, g: Gates) {
    a.dayStart > 0.0 && (a.dayStart - a.equity) / a.dayStart >= g.maxDailyLoss
  }

  predicate DrawnDown(a: Account, g: Gates) {
    a.peak > 0.0 && (a.peak - a.equity) / a.peak >= g.maxDrawdown
  }

  predicate MayResume(a: Account, ts: int, g: Gates) {
    a.haltedAt.Some? && g.resumeAfterDays != 0 && ts - a.haltedAt.value >= g.resumeAfterDays * DAY
  }

  /** An operator resume rebases the peak, or the halt would return at once. */
  function Resumed(a: Account, ts: int, g: Gates): Account {
    if MayResume(a, ts, g) then a.(haltedAt := None, peak := a.equity) else a
  }

  /** The gates that change nothing. */
  predicate SlotFree(a: Account, g: Gates) {
    && |a.open| < g.maxOpen
    && a.tradesToday < g.maxTradesPerDay
    && !DayIsLost(a, g)
  }

  predicate Allowed(a: Account, ts: int, e: Event, u: Setup) {
    var g := u.gates;
    && !(g.maxLosses > 0 && a.losses >= g.maxLosses)
    && e.bar.tradable
    && !(u.p.cooldownBars != 0 && e.index - Get(a.lastExit, e.symbol, -1000000000) < u.p.cooldownBars)
    && ts >= Get(a.pauseUntil, e.symbol, -1000000000000000000)
  }

  function Opened(a: Account, e: Event, u: Setup): Account {
    var h := PlanEntry(e.symbol, if e.bar.longEntry then Long else Short, e.bar, e.index, a.equity, u.p,
                       u.books(e.symbol).costs);
    if h.None? then a
    else a.(equity := a.equity - h.value.plan.entryFee, open := a.open[e.symbol := h.value],
            tradesToday := a.tradesToday + 1)
  }

  predicate Signals(a: Account, e: Event, u: Setup) {
    && e.symbol !in a.open && e.index >= u.books(e.symbol).warmup
    && (e.bar.longEntry || e.bar.shortEntry)
  }

  /** One symbol's entry decision behind the gates, in their order. */
  function Entered(a: Account, ts: int, e: Event, u: Setup): Account {
    if !Signals(a, e, u) || !SlotFree(a, u.gates) then a
    else if a.haltedAt.Some? && !MayResume(a, ts, u.gates) then a
    else
      var r := Resumed(a, ts, u.gates);
      if DrawnDown(r, u.gates) then
        if |r.open| == 0 then r.(haltedAt := Some(ts), halts := r.halts + [(ts, r.equity)]) else r
      else if !Allowed(r, ts, e, u) then r
      else Opened(r, e, u)
  }

  function EnteredAll(a: Account, ts: int, es: seq<Event>, u: Setup): Account {
    if es == [] then a else Entered(EnteredAll(a, ts, es[..|es| - 1], u), ts, es[|es| - 1], u)
  }

  // ---------------------------------------------------------------- the run

  function Recorded(a: Account, ts: int): Account { a.(curve := a.curve + [(ts, a.equity)]) }

  /** Day roll, every exit, then every entry, then the curve. */
  function Step(a: Account, t: Tick, u: Setup): Account {
    Recorded(EnteredAll(ManagedAll(Rolled(a, t.ts), t.events, u), t.ts, t.events, u), t.ts)
  }

  /** The account after the first `k` timestamps. */
  function After(ticks: seq<Tick>, u: Setup, k: nat): Account
    requires k <= |ticks|
  {
    if k == 0 then Initial(u) else Step(After(ticks, u, k - 1), ticks[k - 1], u)
  }

  lemma {:induction false} RunIsCausal(ticks: seq<Tick>, more: seq<Tick>, u: Setup, k: nat)
    requires k <= |ticks| && ticks <= more
    ensures After(ticks, u, k) == After(more, u, k)
  {
    hide Step;
    if k > 0 { RunIsCausal(ticks, more, u, k - 1); }
  }

  // ---------------------------------------------------------------- the event stream

  ghost predicate DistinctSymbols(es: seq<Event>) {
    forall j, k :: 0 <= j < k < |es| ==> es[j].symbol != es[k].symbol
  }

  /** Each symbol's bars arrive in their own order. */
  ghost predicate Ordered(h: seq<Event>) {
    forall j, k :: 0 <= j < k < |h| && h[j].symbol == h[k].symbol ==> h[j].index < h[k].index
  }

  function Flatten(ticks: seq<Tick>, k: nat): seq<Event>
    requires k <= |ticks|
  {
    if k == 0 then [] else Flatten(ticks, k - 1) + ticks[k - 1].events
  }

  /** What the merged stream of strictly time-sorted frames is. */
  ghost predicate ValidTicks(ticks: seq<Tick>, u: Setup) {
    && (forall j, k :: 0 <= j < k < |ticks| ==> ticks[j].ts < ticks[k].ts)
    && Ordered(Flatten(ticks, |ticks|))
    && forall t :: t in ticks ==> && DistinctSymbols(t.events)
                                  && forall e :: e in t.events ==> e.symbol in u.symbols && e.bar.time == t.ts
  }

  lemma {:induction false} FlattenIsPrefix(ticks: seq<Tick>, k: nat, n: nat)
    requires k <= n <= |ticks|
    ensures Flatten(ticks, k) <= Flatten(ticks, n)
  {
    if k < n { FlattenIsPrefix(ticks, k, n - 1); }
  }

  // ---------------------------------------------------------------- conservation

  ghost predicate Distinct(xs: seq<string>) {
    forall j, k :: 0 <= j < k < |xs| ==> xs[j] != xs[k]
  }

  function SunkAt(open: map<string, Held>, s: string): real { if s in open then Sunk(open[s]) else 0.0 }

  /** Entry fees and funding sunk into everything open. */
  function TotalSunk(symbols: seq<string>, open: map<string, Held>): real {
    if symbols == [] then 0.0
    else TotalSunk(symbols[..|symbols| - 1], open) + SunkAt(open, symbols[|symbols| - 1])
  }

  ghost predicate SameExcept(a: map<string, Held>, b: map<string, Held>, s: string) {
    forall t :: t != s ==> (t in a <==> t in b) && (t in a ==> a[t] == b[t])
  }

  lemma {:induction false} TotalSunkChangesAt(symbols: seq<string>, a: map<string, Held>, b: map<string, Held>,
                                              s: string)
    requires Distinct(symbols) && SameExcept(a, b, s)
    ensures TotalSunk(symbols, b) - TotalSunk(symbols, a) == if s in symbols then SunkAt(b, s) - SunkAt(a, s) else 0.0
  {
    if symbols != [] {
      var last := |symbols| - 1;
      assert symbols == symbols[..last] + [symbols[last]];
      TotalSunkChangesAt(symbols[..last], a, b, s);
      assert s == symbols[last] ==> s !in symbols[..last];
    }
  }

  ghost predicate Balanced(a: Account, u: Setup) {
    && a.equity == u.capital + SumPnl(a.trades) - TotalSunk(u.symbols, a.open)
    && forall s :: s in a.open ==> s in u.symbols
  }

  lemma ResolveKeepsCost(h: Held, e: Event, u: Setup)
    ensures var after := Resolve(h, e, u).0; after.plan == h.plan && after.accruedFunding == h.accruedFunding
    ensures Kept(h, e, u).plan == h.plan && Kept(h, e, u).accruedFunding == h.accruedFunding
  {
    hide Decide, Earning, BarHits, BarStopFill;
    var m := u.stops;
    if Walks(e.bar, m) {
      WalkKeepsPlan(h, e.bar.minutes, Rule(h, m, u.books(e.symbol).costs),
                    StopRule(m.triggerLtp, SlippageRate(u.books(e.symbol).costs)));
    }
  }

  /** One position costing more, and the account having paid it. */
  lemma RepricingBalances(a: Account, b: Account, s: string, h: Held, u: Setup)
    requires Balanced(a, u) && Distinct(u.symbols) && s in a.open
    requires b.trades == a.trades && b.open == a.open[s := h]
    requires b.equity == a.equity - (Sunk(h) - Sunk(a.open[s]))
    ensures Balanced(b, u)
  {
    hide Sunk, SumPnl;
    TotalSunkChangesAt(u.symbols, a.open, b.open, s);
  }

  lemma ClosingBalances(a: Account, h: Held, exit: Exit, e: Event, u: Setup)
    requires Distinct(u.symbols) && Balanced(a.(open := a.open[e.symbol := h]), u)
    ensures Balanced(Closed(a, h, exit, e, u), u)
  {
    hide Proceeds, Pauses;
    var next := Closed(a, h, exit, e, u);
    TotalSunkChangesAt(u.symbols, a.open[e.symbol := h], next.open, e.symbol);
    SumPnlSnoc(a.trades, next.trades[|a.trades|]);
  }

  lemma ChargingSinks(p: Held, e: Event, u: Setup)
    ensures Sunk(Charged(p, e, u)) == Sunk(p) + Charge(p.plan, u.books(e.symbol).costs, e.bar)
  {
    hide Charge;
  }

  lemma ManagingBalances(a: Account, e: Event, u: Setup)
    requires Balanced(a, u) && Distinct(u.symbols)
    ensures Balanced(Managed(a, e, u), u)
  {
    hide Charge, Charged, Resolve, Kept, Closed, Balanced;
    if e.symbol in a.open {
      var p := a.open[e.symbol];
      var h := Charged(p, e, u);
      var (after, verdict) := Resolve(h, e, u);
      var charged := a.(equity := a.equity - Charge(p.plan, u.books(e.symbol).costs, e.bar));
      ChargingSinks(p, e, u);
      ResolveKeepsCost(h, e, u);
      ResolveKeepsCost(after, e, u);
      if verdict.Some? {
        RepricingBalances(a, charged.(open := a.open[e.symbol := after]), e.symbol, after, u);
        ClosingBalances(charged, after, verdict.value, e, u);
      } else {
        RepricingBalances(a, Managed(a, e, u), e.symbol, Kept(after, e, u), u);
      }
    }
  }

  lemma OpeningBalances(a: Account, e: Event, u: Setup)
    requires Balanced(a, u) && Distinct(u.symbols) && e.symbol in u.symbols && e.symbol !in a.open
    ensures Balanced(Opened(a, e, u), u)
  {
    hide PlanEntry;
    TotalSunkChangesAt(u.symbols, a.open, Opened(a, e, u).open, e.symbol);
  }

  lemma EnteringBalances(a: Account, ts: int, e: Event, u: Setup)
    requires Balanced(a, u) && Distinct(u.symbols) && e.symbol in u.symbols
    ensures Balanced(Entered(a, ts, e, u), u)
  {
    hide Opened, DrawnDown, Allowed, SlotFree, MayResume, TotalSunk;
    if e.symbol !in a.open {
      OpeningBalances(Resumed(a, ts, u.gates), e, u);
    }
  }

  lemma {:induction false} ManagingAllBalances(a: Account, es: seq<Event>, u: Setup)
    requires Balanced(a, u) && Distinct(u.symbols)
    ensures Balanced(ManagedAll(a, es, u), u)
  {
    hide Managed, Balanced;
    if es != [] {
      ManagingAllBalances(a, es[..|es| - 1], u);
      ManagingBalances(ManagedAll(a, es[..|es| - 1], u), es[|es| - 1], u);
    }
  }

  lemma {:induction false} EnteringAllBalances(a: Account, ts: int, es: seq<Event>, u: Setup)
    requires Balanced(a, u) && Distinct(u.symbols) && forall e :: e in es ==> e.symbol in u.symbols
    ensures Balanced(EnteredAll(a, ts, es, u), u)
  {
    hide Entered, Balanced;
    if es != [] {
      EnteringAllBalances(a, ts, es[..|es| - 1], u);
      EnteringBalances(EnteredAll(a, ts, es[..|es| - 1], u), ts, es[|es| - 1], u);
    }
  }

  /** At every timestamp the account is the capital plus what closed trades made,
      less the entry fees and funding sunk into everything still open. */
  lemma {:induction false} EquityIsConserved(ticks: seq<Tick>, u: Setup, k: nat)
    requires ValidTicks(ticks, u) && Distinct(u.symbols) && k <= |ticks|
    ensures Balanced(After(ticks, u, k), u)
  {
    hide ManagedAll, EnteredAll;
    if k == 0 {
      NothingSunk(u.symbols);
    } else {
      EquityIsConserved(ticks, u, k - 1);
      var a, t := After(ticks, u, k - 1), ticks[k - 1];
      assert t in ticks;
      ManagingAllBalances(Rolled(a, t.ts), t.events, u);
      EnteringAllBalances(ManagedAll(Rolled(a, t.ts), t.events, u), t.ts, t.events, u);
    }
  }

  lemma {:induction false} NothingSunk(symbols: seq<string>)
    ensures TotalSunk(symbols, map[]) == 0.0
  {
    if symbols != [] { NothingSunk(symbols[..|symbols| - 1]); }
  }

  // ---------------------------------------------------------------- capacity and the halt

  function Capacity(g: Gates): nat { if g.maxOpen > 0 then g.maxOpen else 0 }

  lemma ManagingOpensNothing(a: Account, e: Event, u: Setup)
    ensures var next := Managed(a, e, u);
            && next.open.Keys <= a.open.Keys && |next.open| <= |a.open|
            && (a.open == map[] ==> next == a)
            && next.haltedAt == a.haltedAt && next.day == a.day && next.tradesToday == a.tradesToday
  {
    hide Charge, Resolve, Kept, Proceeds, TradeOf;
    var next := Managed(a, e, u);
    assert next.open.Keys <= a.open.Keys;
    SmallerMap(next.open, a.open);
  }

  lemma SmallerMap(a: map<string, Held>, b: map<string, Held>)
    requires a.Keys <= b.Keys
    ensures |a| <= |b|
  {
    Subset(a.Keys, b.Keys);
    assert |a| == |a.Keys| && |b| == |b.Keys|;
  }

  lemma Subset(a: set<string>, b: set<string>)
    requires a <= b
    ensures |a| <= |b|
  {
    assert b == a + (b - a);
  }

  /** Only an entry through every gate opens, one symbol at a time. */
  lemma EnteringOpensAtMostOne(a: Account, ts: int, e: Event, u: Setup)
    ensures var next := Entered(a, ts, e, u);
            && (next.open == a.open
                || (&& e.symbol !in a.open && next.open.Keys == a.open.Keys + {e.symbol}
                    && SlotFree(a, u.gates) && next.haltedAt.None? && |next.open| == |a.open| + 1))
            && next.trades == a.trades
  {
    hide PlanEntry, DrawnDown, Allowed, MayResume, SlotFree;
    var next := Entered(a, ts, e, u);
    if next.open != a.open {
      var h := next.open[e.symbol];
      assert next.open == a.open[e.symbol := h];
      OneMore(a.open, e.symbol, h);
    }
  }

  lemma OneMore(m: map<string, Held>, s: string, h: Held)
    requires s !in m
    ensures m[s := h].Keys == m.Keys + {s} && |m[s := h]| == |m| + 1
  {
    assert m[s := h].Keys == m.Keys + {s};
    assert |m[s := h]| == |m[s := h].Keys| && |m| == |m.Keys|;
  }

  /** Within capacity; and a latched halt means flat. */
  ghost predicate Contained(a: Account, g: Gates) {
    && |a.open| <= Capacity(g)
    && (a.haltedAt.Some? ==> a.open == map[])
  }

  lemma {:induction false} ManagingAllContains(a: Account, es: seq<Event>, u: Setup)
    requires Contained(a, u.gates)
    ensures Contained(ManagedAll(a, es, u), u.gates)
    ensures a.open == map[] ==> ManagedAll(a, es, u) == a
  {
    hide Managed;
    if es != [] {
      ManagingAllContains(a, es[..|es| - 1], u);
      ManagingOpensNothing(ManagedAll(a, es[..|es| - 1], u), es[|es| - 1], u);
    }
  }

  lemma EnteringContains(a: Account, ts: int, e: Event, u: Setup)
    requires Contained(a, u.gates)
    ensures Contained(Entered(a, ts, e, u), u.gates)
  {
    hide PlanEntry, DrawnDown, Allowed, MayResume, DayIsLost;
    EnteringOpensAtMostOne(a, ts, e, u);
  }

  lemma {:induction false} EnteringAllContains(a: Account, ts: int, es: seq<Event>, u: Setup)
    requires Contained(a, u.gates)
    ensures Contained(EnteredAll(a, ts, es, u), u.gates)
  {
    hide Entered;
    if es != [] {
      EnteringAllContains(a, ts, es[..|es| - 1], u);
      EnteringContains(EnteredAll(a, ts, es[..|es| - 1], u), ts, es[|es| - 1], u);
    }
  }

  /** Open positions never exceed the limit, and the drawdown halt only ever
      latches on, and keeps, a flat account. */
  lemma {:induction false} NeverOverCapacity(ticks: seq<Tick>, u: Setup, k: nat)
    requires k <= |ticks|
    ensures Contained(After(ticks, u, k), u.gates)
  {
    hide ManagedAll, EnteredAll;
    if k > 0 {
      NeverOverCapacity(ticks, u, k - 1);
      var a, t := Rolled(After(ticks, u, k - 1), ticks[k - 1].ts), ticks[k - 1];
      ManagingAllContains(a, t.events, u);
      EnteringAllContains(ManagedAll(a, t.events, u), t.ts, t.events, u);
    }
  }

  lemma {:induction false} HaltedEntersNothing(a: Account, ts: int, es: seq<Event>, u: Setup)
    requires a.haltedAt.Some? && !MayResume(a, ts, u.gates)
    ensures EnteredAll(a, ts, es, u) == a
  {
    if es != [] { HaltedEntersNothing(a, ts, es[..|es| - 1], u); }
  }

  /** With no resume policy the latched halt is terminal: from then on the account
      is flat, takes no trade, and its equity never changes again. */
  lemma {:induction false} HaltIsTerminal(ticks: seq<Tick>, u: Setup, k: nat, n: nat)
    requires k <= n <= |ticks| && u.gates.resumeAfterDays == 0
    requires After(ticks, u, k).haltedAt.Some?
    ensures var (at, later) := (After(ticks, u, k), After(ticks, u, n));
            && later.haltedAt == at.haltedAt && later.open == map[]
            && later.trades == at.trades && later.equity == at.equity && later.peak == at.peak
    decreases n - k
  {
    hide ManagedAll, EnteredAll;
    NeverOverCapacity(ticks, u, k);
    if k < n {
      HaltIsTerminal(ticks, u, k, n - 1);
      var a, t := Rolled(After(ticks, u, n - 1), ticks[n - 1].ts), ticks[n - 1];
      NeverOverCapacity(ticks, u, n - 1);
      ManagingAllContains(a, t.events, u);
      HaltedEntersNothing(a, t.ts, t.events, u);
    }
  }

  /** With a policy, nothing happens to a halted account before its time is up. */
  lemma HaltHoldsUntilItsTime(ticks: seq<Tick>, u: Setup, k: nat)
    requires k < |ticks| && After(ticks, u, k).haltedAt.Some?
    requires !MayResume(After(ticks, u, k), ticks[k].ts, u.gates)
    ensures var (a, next) := (After(ticks, u, k), After(ticks, u, k + 1));
            && next.haltedAt == a.haltedAt && next.open == map[] && next.trades == a.trades && next.equity == a.equity
  {
    hide ManagedAll, EnteredAll;
    NeverOverCapacity(ticks, u, k);
    var a, t := Rolled(After(ticks, u, k), ticks[k].ts), ticks[k];
    ManagingAllContains(a, t.events, u);
    HaltedEntersNothing(a, t.ts, t.events, u);
  }

  // ---------------------------------------------------------------- entries per day

  function EntryDay(plan: Plan): int { plan.entryTime / DAY }

  function OpenedOn(open: map<string, Held>, d: int): set<string> {
    set s | s in open && EntryDay(open[s].plan) == d
  }

  function ClosedFrom(trades: seq<Trade>, d: int): nat {
    if trades == [] then 0
    else ClosedFrom(trades[..|trades| - 1], d) + if EntryDay(trades[|trades| - 1].plan) == d then 1 else 0
  }

  /** How many positions were entered on UTC day `d`, closed since or not. */
  function EntriesOn(a: Account, d: int): nat { ClosedFrom(a.trades, d) + |OpenedOn(a.open, d)| }

  function DailyCap(g: Gates): nat { if g.maxTradesPerDay > 0 then g.maxTradesPerDay else 0 }

  ghost predicate DayCounted(a: Account, d: int, g: Gates) {
    && EntriesOn(a, d) <= DailyCap(g)
    && (a.day == Some(d) ==> EntriesOn(a, d) == a.tradesToday)
    && (a.day.None? || a.day.value < d ==> EntriesOn(a, d) == 0)
  }

  lemma ManagingKeepsDayCount(a: Account, e: Event, u: Setup, d: int)
    ensures EntriesOn(Managed(a, e, u), d) == EntriesOn(a, d)
    ensures Managed(a, e, u).day == a.day && Managed(a, e, u).tradesToday == a.tradesToday
  {
    hide Charge, Resolve, Kept, Proceeds, EntryDay;
    var next := Managed(a, e, u);
    if e.symbol in a.open {
      var h := Charged(a.open[e.symbol], e, u);
      ResolveKeepsCost(h, e, u);
      var (after, verdict) := Resolve(h, e, u);
      ResolveKeepsCost(after, e, u);
      if verdict.Some? {
        assert next.trades[..|a.trades|] == a.trades;
        assert OpenedOn(next.open, d) == OpenedOn(a.open, d) - {e.symbol};
      } else {
        assert OpenedOn(next.open, d) == OpenedOn(a.open, d);
      }
    }
  }

  lemma OpeningCountsOne(a: Account, e: Event, u: Setup, d: int)
    requires DayCounted(a, d, u.gates) && a.day == Some(e.bar.time / DAY) && e.symbol !in a.open
    requires a.tradesToday < u.gates.maxTradesPerDay
    ensures DayCounted(Opened(a, e, u), d, u.gates) && Opened(a, e, u).day == a.day
  {
    hide PlanEntry, OpenedOn, EntryDay;
    var next := Opened(a, e, u);
    if next != a {
      var h := next.open[e.symbol];
      OneMoreOn(a.open, e.symbol, h, d);
      DayOfEntry(h.plan, e.bar.time);
    }
  }

  lemma EnteringCountsOne(a: Account, ts: int, e: Event, u: Setup, d: int)
    requires DayCounted(a, d, u.gates) && a.day == Some(ts / DAY) && e.bar.time == ts
    ensures DayCounted(Entered(a, ts, e, u), d, u.gates) && Entered(a, ts, e, u).day == a.day
  {
    hide Opened, DrawnDown, Allowed, MayResume, DayIsLost, OpenedOn;
    if Signals(a, e, u) && SlotFree(a, u.gates) {
      OpeningCountsOne(Resumed(a, ts, u.gates), e, u, d);
    }
  }

  lemma DayOfEntry(plan: Plan, ts: int)
    requires plan.entryTime == ts
    ensures EntryDay(plan) == ts / DAY
  {
  }

  lemma OneMoreOn(m: map<string, Held>, s: string, h: Held, d: int)
    requires s !in m
    ensures |OpenedOn(m[s := h], d)| == |OpenedOn(m, d)| + if EntryDay(h.plan) == d then 1 else 0
  {
    hide EntryDay;
    assert OpenedOn(m[s := h], d) == if EntryDay(h.plan) == d then OpenedOn(m, d) + {s} else OpenedOn(m, d);
  }

  lemma {:induction false} ManagingAllKeepsDayCount(a: Account, es: seq<Event>, u: Setup, d: int)
    ensures var next := ManagedAll(a, es, u);
            EntriesOn(next, d) == EntriesOn(a, d) && next.day == a.day && next.tradesToday == a.tradesToday
  {
    hide Managed, EntriesOn;
    if es != [] {
      ManagingAllKeepsDayCount(a, es[..|es| - 1], u, d);
      ManagingKeepsDayCount(ManagedAll(a, es[..|es| - 1], u), es[|es| - 1], u, d);
    }
  }

  lemma {:induction false} EnteringAllCounts(a: Account, ts: int, es: seq<Event>, u: Setup, d: int)
    requires DayCounted(a, d, u.gates) && a.day == Some(ts / DAY) && forall e :: e in es ==> e.bar.time == ts
    ensures var next := EnteredAll(a, ts, es, u); DayCounted(next, d, u.gates) && next.day == a.day
  {
    hide Entered, DayCounted;
    if es != [] {
      EnteringAllCounts(a, ts, es[..|es| - 1], u, d);
      EnteringCountsOne(EnteredAll(a, ts, es[..|es| - 1], u), ts, es[|es| - 1], u, d);
    }
  }

  /** On no UTC day are more positions entered than the daily limit. */
  lemma {:induction false} NeverOverDailyLimit(ticks: seq<Tick>, u: Setup, k: nat, d: int)
    requires ValidTicks(ticks, u) && k <= |ticks|
    ensures DayCounted(After(ticks, u, k), d, u.gates)
    ensures After(ticks, u, k).day == if k == 0 then None else Some(ticks[k - 1].ts / DAY)
  {
    hide ManagedAll, EnteredAll;
    if k > 0 {
      NeverOverDailyLimit(ticks, u, k - 1, d);
      var t := ticks[k - 1];
      assert t in ticks && (k > 1 ==> ticks[k - 2].ts < t.ts);
      var rolled := Rolled(After(ticks, u, k - 1), t.ts);
      assert DayCounted(rolled, d, u.gates);
      ManagingAllKeepsDayCount(rolled, t.events, u, d);
      EnteringAllCounts(ManagedAll(rolled, t.events, u), t.ts, t.events, u, d);
    }
  }

  // ---------------------------------------------------------------- one symbol's history

  /** A bar of the plan's symbol after its entry bar, up to `upTo` when given. */
  predicate Concerns(e: Event, plan: Plan, upTo: Option<int>) {
    e.symbol == plan.symbol && plan.entryIndex < e.index && (upTo.Some? ==> e.index <= upTo.value)
  }

  function FundingAt(e: Event, plan: Plan, upTo: Option<int>, u: Setup): real {
    if Concerns(e, plan, upTo) then Charge(plan, u.books(plan.symbol).costs, e.bar) else 0.0
  }

  /** What the plan pays over the events of its symbol after its entry. */
  function FundingOver(h: seq<Event>, plan: Plan, upTo: Option<int>, u: Setup): real {
    if h == [] then 0.0
    else FundingOver(h[..|h| - 1], plan, upTo, u) + FundingAt(h[|h| - 1], plan, upTo, u)
  }

  /** The favourable prices a position is promoted on, in one bar. */
  function BarPath(e: Event, plan: Plan, u: Setup): seq<real> {
    if !Concerns(e, plan, None) then []
    else if Walks(e.bar, u.stops) then FavourablePath(plan.side, e.bar.minutes)
    else [BarExtreme(plan.side, e.bar)]
  }

  /** The favourable prices since its entry. */
  function Path(h: seq<Event>, plan: Plan, u: Setup): seq<real> {
    if h == [] then [] else Path(h[..|h| - 1], plan, u) + BarPath(h[|h| - 1], plan, u)
  }

  /** The position as it was opened. */
  function AtEntry(plan: Plan): Held {
    Held(plan, plan.entryPrice - Signed(plan.side, plan.riskPerUnit), false, 0.0)
  }

  ghost predicate Seen(h: seq<Event>, s: string, i: int) {
    exists k :: 0 <= k < |h| && h[k].symbol == s && h[k].index == i
  }

  /** Nothing of `e`'s symbol in `h` comes at or after `e`. */
  ghost predicate Next(h: seq<Event>, e: Event) {
    forall k :: 0 <= k < |h| && h[k].symbol == e.symbol ==> h[k].index < e.index
  }

  /** `e` is the newest of its symbol in `h`. */
  ghost predicate Newest(h: seq<Event>, e: Event) {
    && e in h
    && forall k :: 0 <= k < |h| && h[k].symbol == e.symbol ==> h[k].index <= e.index
  }

  ghost predicate TradeAccounted(t: Trade, h: seq<Event>, u: Setup) {
    && t.plan.entryIndex < t.exitIndex && Seen(h, t.plan.symbol, t.exitIndex)
    && t.funding == FundingOver(h, t.plan, Some(t.exitIndex), u)
  }

  /** An open position has paid for every settlement since its entry, and its stop is
      the configured rule ratcheted through every favourable price since. */
  ghost predicate OpenAccounted(s: string, p: Held, h: seq<Event>, u: Setup) {
    && p.plan.symbol == s && Seen(h, s, p.plan.entryIndex)
    && p == PromotedThrough(AtEntry(p.plan), Path(h, p.plan, u), Rule(p, u.stops, u.books(s).costs))
              .(accruedFunding := FundingOver(h, p.plan, None, u))
  }

  ghost predicate Accounted(a: Account, h: seq<Event>, u: Setup) {
    && (forall k :: 0 <= k < |a.trades| ==> TradeAccounted(a.trades[k], h, u))
    && (forall s :: s in a.open ==> OpenAccounted(s, a.open[s], h, u))
  }

  lemma HistorySnoc(h: seq<Event>, e: Event, plan: Plan, upTo: Option<int>, u: Setup)
    ensures FundingOver(h + [e], plan, upTo, u) == FundingOver(h, plan, upTo, u) + FundingAt(e, plan, upTo, u)
    ensures Path(h + [e], plan, u) == Path(h, plan, u) + BarPath(e, plan, u)
  {
    assert (h + [e])[..|h|] == h;
  }

  lemma SeenLater(h: seq<Event>, e: Event, s: string, i: int)
    requires Seen(h, s, i) || (e.symbol == s && e.index == i)
    ensures Seen(h + [e], s, i)
  {
    if Seen(h, s, i) {
      var k :| 0 <= k < |h| && h[k].symbol == s && h[k].index == i;
      assert (h + [e])[k] == h[k];
    } else {
      assert (h + [e])[|h|] == e;
    }
  }

  lemma {:induction false} NoEventsNoFunding(h: seq<Event>, plan: Plan, upTo: Option<int>, u: Setup)
    requires forall k :: 0 <= k < |h| && h[k].symbol == plan.symbol ==> h[k].index <= plan.entryIndex
    ensures FundingOver(h, plan, upTo, u) == 0.0 && Path(h, plan, u) == []
  {
    if h != [] { NoEventsNoFunding(h[..|h| - 1], plan, upTo, u); }
  }

  lemma {:induction false} WindowHoldsEverything(h: seq<Event>, plan: Plan, upTo: int, u: Setup)
    requires forall k :: 0 <= k < |h| && h[k].symbol == plan.symbol ==> h[k].index <= upTo
    ensures FundingOver(h, plan, Some(upTo), u) == FundingOver(h, plan, None, u)
  {
    hide Charge;
    if h != [] { WindowHoldsEverything(h[..|h| - 1], plan, upTo, u); }
  }

  lemma {:induction false} PromotedThroughAppends(p: Held, a: seq<real>, b: seq<real>, earn: Positions.Rule)
    ensures PromotedThrough(p, a + b, earn) == PromotedThrough(PromotedThrough(p, a, earn), b, earn)
  {
    if b == [] {
      assert a + b == a;
    } else {
      assert (a + b)[..|a + b| - 1] == a + b[..|b| - 1];
      PromotedThroughAppends(p, a, b[..|b| - 1], earn);
    }
  }

  lemma {:induction false} PromotionIgnoresFunding(p: Held, prices: seq<real>, earn: Positions.Rule, x: real)
    ensures PromotedThrough(p.(accruedFunding := x), prices, earn)
            == PromotedThrough(p, prices, earn).(accruedFunding := x)
    ensures PromotedThrough(p, prices, earn).plan == p.plan
  {
    if prices != [] { PromotionIgnoresFunding(p, prices[..|prices| - 1], earn, x); }
  }

  /** A walk that hits nothing has promoted on every minute. */
  lemma {:induction false} SurvivedWalkIsRatchet(p: Held, ms: seq<Minute>, earn: Positions.Rule, rule: StopRule)
    requires var w := Walk(p, ms, earn, rule).1; !w.hitStop && !w.hitTarget
    ensures Walk(p, ms, earn, rule).0 == PromotedThrough(p, FavourablePath(p.plan.side, ms), earn)
    decreases |ms|
  {
    if ms != [] {
      var price := FavourablePrice(p.plan.side, ms[0]);
      var next := Promoted(p, price, earn);
      SurvivedWalkIsRatchet(next, ms[1..], earn, rule);
      assert FavourablePath(p.plan.side, ms) == [price] + FavourablePath(p.plan.side, ms[1..]);
      PromotedThroughAppends(p, [price], FavourablePath(p.plan.side, ms[1..]), earn);
      assert PromotedThrough(p, [price], earn) == next by { assert [price][..0] == []; }
    }
  }

  /** A bar survived moves the stop exactly along that bar's favourable prices. */
  lemma SurvivedBarIsRatchet(p: Held, e: Event, u: Setup)
    requires p.plan.symbol == e.symbol && p.plan.entryIndex < e.index && Resolve(p, e, u).1.None?
    ensures Kept(Resolve(p, e, u).0, e, u)
            == PromotedThrough(p, BarPath(e, p.plan, u), Rule(p, u.stops, u.books(e.symbol).costs))
  {
    var earn, m := Rule(p, u.stops, u.books(e.symbol).costs), u.stops;
    if Walks(e.bar, m) {
      SurvivedWalkIsRatchet(p, e.bar.minutes, earn, StopRule(m.triggerLtp, SlippageRate(u.books(e.symbol).costs)));
    } else {
      var x := BarExtreme(p.plan.side, e.bar);
      assert [x][..0] == [];
      assert PromotedThrough(p, [x], earn) == Promoted(p, x, earn);
    }
  }

  lemma OthersStayAccounted(s: string, p: Held, h: seq<Event>, e: Event, u: Setup)
    requires OpenAccounted(s, p, h, u) && e.symbol != s
    ensures OpenAccounted(s, p, h + [e], u)
  {
    hide PromotedThrough, Earning;
    HistorySnoc(h, e, p.plan, None, u);
    assert Path(h + [e], p.plan, u) == Path(h, p.plan, u);
    SeenLater(h, e, s, p.plan.entryIndex);
  }

  lemma TradesStayAccounted(t: Trade, h: seq<Event>, e: Event, u: Setup)
    requires TradeAccounted(t, h, u) && Next(h, e)
    ensures TradeAccounted(t, h + [e], u)
  {
    HistorySnoc(h, e, t.plan, Some(t.exitIndex), u);
    SeenLater(h, e, t.plan.symbol, t.exitIndex);
  }

  /** Funding, then the bar's promotions, extend the account of an open position. */
  lemma SurvivorStaysAccounted(p: Held, h: seq<Event>, e: Event, u: Setup)
    requires OpenAccounted(e.symbol, p, h, u) && Next(h, e)
    requires Resolve(Charged(p, e, u), e, u).1.None?
    ensures OpenAccounted(e.symbol, Kept(Resolve(Charged(p, e, u), e, u).0, e, u), h + [e], u)
  {
    hide Charge, Earning, Resolve, Kept;
    var plan, earn := p.plan, Rule(p, u.stops, u.books(e.symbol).costs);
    var charged, before := Charged(p, e, u), PromotedThrough(AtEntry(plan), Path(h, plan, u), earn);
    HistorySnoc(h, e, plan, None, u);
    SurvivedBarIsRatchet(charged, e, u);
    PromotionIgnoresFunding(before, BarPath(e, plan, u), earn, charged.accruedFunding);
    PromotionIgnoresFunding(AtEntry(plan), Path(h, plan, u), earn, 0.0);
    PromotedThroughAppends(AtEntry(plan), Path(h, plan, u), BarPath(e, plan, u), earn);
    SeenLater(h, e, e.symbol, plan.entryIndex);
  }

  lemma LeaverIsAccounted(p: Held, h: seq<Event>, e: Event, u: Setup)
    requires OpenAccounted(e.symbol, p, h, u) && Next(h, e) && Resolve(Charged(p, e, u), e, u).1.Some?
    ensures var (after, verdict) := Resolve(Charged(p, e, u), e, u);
            TradeAccounted(TradeOf(after, u.books(e.symbol).costs, verdict.value, u.stops.ltpClose, e.bar, e.index),
                           h + [e], u)
  {
    hide Charge, Resolve, Proceeds, PromotedThrough;
    HistorySnoc(h, e, p.plan, None, u);
    ResolveKeepsCost(Charged(p, e, u), e, u);
    WindowHoldsEverything(h + [e], p.plan, e.index, u);
    SeenLater(h, e, e.symbol, e.index);
    PromotionIgnoresFunding(AtEntry(p.plan), Path(h, p.plan, u), Rule(p, u.stops, u.books(e.symbol).costs), 0.0);
  }

  lemma ManagingAccounts(a: Account, h: seq<Event>, e: Event, u: Setup)
    requires Accounted(a, h, u) && Next(h, e)
    ensures Accounted(Managed(a, e, u), h + [e], u)
  {
    hide Charged, Resolve, Kept, Proceeds, OpenAccounted, TradeAccounted, TradeOf;
    var next := Managed(a, e, u);
    forall k | 0 <= k < |a.trades| ensures TradeAccounted(a.trades[k], h + [e], u) {
      TradesStayAccounted(a.trades[k], h, e, u);
    }
    forall s | s in a.open && s != e.symbol ensures OpenAccounted(s, a.open[s], h + [e], u) {
      OthersStayAccounted(s, a.open[s], h, e, u);
    }
    if e.symbol in a.open {
      if Resolve(Charged(a.open[e.symbol], e, u), e, u).1.Some? {
        LeaverIsAccounted(a.open[e.symbol], h, e, u);
      } else {
        SurvivorStaysAccounted(a.open[e.symbol], h, e, u);
      }
    }
  }

  lemma NewcomerIsAccounted(a: Account, h: seq<Event>, e: Event, side: Side, u: Setup)
    requires Newest(h, e)
    requires PlanEntry(e.symbol, side, e.bar, e.index, a.equity, u.p, u.books(e.symbol).costs).Some?
    ensures OpenAccounted(e.symbol,
                          PlanEntry(e.symbol, side, e.bar, e.index, a.equity, u.p, u.books(e.symbol).costs).value, h, u)
  {
    hide PlanEntry, RiskBudget, LeverageBudget, Gross, Notional, UnitRisk;
    var c := u.books(e.symbol).costs;
    var p := PlanEntry(e.symbol, side, e.bar, e.index, a.equity, u.p, c).value;
    EntryIsWithinBudget(e.symbol, side, e.bar, e.index, a.equity, u.p, c);
    NoEventsNoFunding(h, p.plan, None, u);
    assert p == AtEntry(p.plan);
  }

  lemma EnteringAccounts(a: Account, h: seq<Event>, ts: int, e: Event, u: Setup)
    requires Accounted(a, h, u) && Newest(h, e)
    ensures Accounted(Entered(a, ts, e, u), h, u)
  {
    hide PlanEntry, DrawnDown, Allowed, MayResume, SlotFree, OpenAccounted, TradeAccounted;
    var next := Entered(a, ts, e, u);
    if next.open != a.open {
      var r, side := Resumed(a, ts, u.gates), if e.bar.longEntry then Long else Short;
      NewcomerIsAccounted(r, h, e, side, u);
    }
  }

  lemma {:induction false} ManagingAllAccounts(a: Account, h: seq<Event>, es: seq<Event>, u: Setup)
    requires Accounted(a, h, u) && Ordered(h + es)
    ensures Accounted(ManagedAll(a, es, u), h + es, u)
  {
    hide Managed, Accounted;
    if es == [] {
      assert h + es == h;
    } else {
      var init, e := es[..|es| - 1], es[|es| - 1];
      assert h + es == (h + init) + [e];
      assert Ordered(h + init) && Next(h + init, e) by { NextOfOrdered(h + init, e); }
      ManagingAllAccounts(a, h, init, u);
      ManagingAccounts(ManagedAll(a, init, u), h + init, e, u);
    }
  }

  lemma NextOfOrdered(h: seq<Event>, e: Event)
    requires Ordered(h + [e])
    ensures Ordered(h) && Next(h, e)
  {
    var all := h + [e];
    forall j, k | 0 <= j < k < |h| && h[j].symbol == h[k].symbol ensures h[j].index < h[k].index {
      assert all[j] == h[j] && all[k] == h[k];
    }
    forall k | 0 <= k < |h| && h[k].symbol == e.symbol ensures h[k].index < e.index {
      assert all[k] == h[k] && all[|h|] == e;
    }
  }

  lemma {:induction false} EnteringAllAccounts(a: Account, h: seq<Event>, ts: int, es: seq<Event>, u: Setup)
    requires Accounted(a, h, u) && forall e :: e in es ==> Newest(h, e)
    ensures Accounted(EnteredAll(a, ts, es, u), h, u)
  {
    hide Entered, Accounted;
    if es != [] {
      EnteringAllAccounts(a, h, ts, es[..|es| - 1], u);
      EnteringAccounts(EnteredAll(a, ts, es[..|es| - 1], u), h, ts, es[|es| - 1], u);
    }
  }

  /** Within its own tick every event is the newest of its symbol. */
  lemma NewestInTick(h: seq<Event>, es: seq<Event>, e: Event)
    requires Ordered(h + es) && DistinctSymbols(es) && e in es
    ensures Newest(h + es, e)
  {
    var all := h + es;
    var j :| 0 <= j < |es| && es[j] == e;
    assert all[|h| + j] == e;
    forall k | 0 <= k < |all| && all[k].symbol == e.symbol ensures all[k].index <= e.index {
      if k >= |h| { assert all[k] == es[k - |h|]; }
    }
  }

  lemma OrderedPrefix(h: seq<Event>, all: seq<Event>)
    requires Ordered(all) && h <= all
    ensures Ordered(h)
  {
  }

  /** Whole runs: every closed trade has paid exactly the settlements after its
      entry bar up to its exit bar, and every open position's stop is the configured
      rule ratcheted through every favourable price since it was opened. */
  lemma {:induction false} RunIsAccounted(ticks: seq<Tick>, u: Setup, k: nat)
    requires ValidTicks(ticks, u) && k <= |ticks|
    ensures Accounted(After(ticks, u, k), Flatten(ticks, k), u)
  {
    hide ManagedAll, EnteredAll, Accounted;
    if k == 0 {
      NothingToAccount(u);
    } else {
      RunIsAccounted(ticks, u, k - 1);
      var a, t, h := After(ticks, u, k - 1), ticks[k - 1], Flatten(ticks, k - 1);
      assert t in ticks;
      FlattenIsPrefix(ticks, k, |ticks|);
      OrderedPrefix(Flatten(ticks, k), Flatten(ticks, |ticks|));
      BookkeepingAccounts(a, h, t.ts, u);
      ManagingAllAccounts(Rolled(a, t.ts), h, t.events, u);
      forall e | e in t.events ensures Newest(h + t.events, e) { NewestInTick(h, t.events, e); }
      var managed := ManagedAll(Rolled(a, t.ts), t.events, u);
      EnteringAllAccounts(managed, h + t.events, t.ts, t.events, u);
      BookkeepingAccounts(EnteredAll(managed, t.ts, t.events, u), h + t.events, t.ts, u);
    }
  }

  /** A symbol's funding samples and the span its bars cover. */
  datatype Funding = Funding(points: seq<FundingPoint>, first: int, last: int)

  /** Every bar carries the rate looked up in its own symbol's series. */
  predicate Rated(h: seq<Event>, funding: string -> Funding, u: Setup) {
    forall k :: 0 <= k < |h| ==>
      var f := funding(h[k].symbol);
      RatedFrom(h[k].bar, u.books(h[k].symbol).costs, f.points, f.first, f.last)
  }

  /** What the plan pays over the events of its symbol after its entry, read off the
      funding samples instead of the bars. */
  function SampledFunding(h: seq<Event>, plan: Plan, upTo: Option<int>, points: seq<FundingPoint>, u: Setup): real {
    if h == [] then 0.0
    else SampledFunding(h[..|h| - 1], plan, upTo, points, u)
         + if Concerns(h[|h| - 1], plan, upTo)
           then SampledCharge(plan, u.books(plan.symbol).costs, h[|h| - 1].bar, points) else 0.0
  }

  lemma {:induction false} FundingIsSampled(h: seq<Event>, plan: Plan, upTo: Option<int>, funding: string -> Funding,
                                            u: Setup)
    requires Rated(h, funding, u)
    ensures FundingOver(h, plan, upTo, u) == SampledFunding(h, plan, upTo, funding(plan.symbol).points, u)
  {
    hide Charge, SampledCharge, RatedFrom;
    if h != [] {
      FundingIsSampled(h[..|h| - 1], plan, upTo, funding, u);
      var e, f := h[|h| - 1], funding(plan.symbol);
      if Concerns(e, plan, upTo) {
        RatedBarPaysItsSample(plan, u.books(plan.symbol).costs, e.bar, f.points, f.first, f.last);
      }
    }
  }

  /** With the rates looked up, every trade has paid the samples in force at its
      symbol's settlement instants between its entry and its exit, and nothing else. */
  lemma FundingFollowsTheSamples(ticks: seq<Tick>, u: Setup, funding: string -> Funding, k: nat, j: nat)
    requires ValidTicks(ticks, u) && k <= |ticks| && Rated(Flatten(ticks, k), funding, u)
    requires j < |After(ticks, u, k).trades|
    ensures var t := After(ticks, u, k).trades[j];
            t.funding == SampledFunding(Flatten(ticks, k), t.plan, Some(t.exitIndex), funding(t.plan.symbol).points, u)
  {
    hide After, FundingOver, SampledFunding, Rated, Flatten, ValidTicks;
    RunIsAccounted(ticks, u, k);
    var t := After(ticks, u, k).trades[j];
    assert TradeAccounted(t, Flatten(ticks, k), u);
    FundingIsSampled(Flatten(ticks, k), t.plan, Some(t.exitIndex), funding, u);
  }

  lemma NothingToAccount(u: Setup)
    ensures Accounted(Initial(u), [], u)
  {
  }

  lemma BookkeepingAccounts(a: Account, h: seq<Event>, ts: int, u: Setup)
    requires Accounted(a, h, u)
    ensures Accounted(Rolled(a, ts), h, u) && Accounted(Recorded(a, ts), h, u)
  {
    hide OpenAccounted, TradeAccounted;
  }

  /** For any valid ladder or trail the stop of an open position is the one its best
      price so far has earned, whatever the bars and minutes in between. */
  lemma StopIsEarnedByPeak(ticks: seq<Tick>, u: Setup, k: nat, s: string)
    requires ValidTicks(ticks, u) && k <= |ticks| && s in After(ticks, u, k).open
    requires Valid(u.stops.protection)
    ensures var p := After(ticks, u, k).open[s];
            var path := Path(Flatten(ticks, k), p.plan, u);
            var earned := if path == [] then AtEntry(p.plan)
                          else Promoted(AtEntry(p.plan), Peak(p.plan.side, path), Rule(p, u.stops, u.books(s).costs));
            p.stopPrice == earned.stopPrice && p.stopPromoted == earned.stopPromoted
  {
    hide After, Earning;
    RunIsAccounted(ticks, u, k);
    var p := After(ticks, u, k).open[s];
    assert OpenAccounted(s, p, Flatten(ticks, k), u);
    var path := Path(Flatten(ticks, k), p.plan, u);
    if path != [] {
      LadderOrTrailTracksPeak(AtEntry(p.plan), path, u.stops.protection, u.books(s).costs);
    }
  }

  // ---------------------------------------------------------------- one symbol's trades in a row

  /** Every trade of the plan's symbol was over, cooldown and all, when it opened. */
  ghost predicate Follows(plan: Plan, trades: seq<Trade>, p: Params) {
    forall k :: 0 <= k < |trades| && trades[k].plan.symbol == plan.symbol
                ==> trades[k].exitIndex + Cooldown(p) <= plan.entryIndex
  }

  ghost predicate LastExitKnown(t: Trade, lastExit: map<string, int>) {
    && t.plan.entryIndex < t.exitIndex
    && t.plan.symbol in lastExit && t.exitIndex <= lastExit[t.plan.symbol]
  }

  ghost predicate OpenInOrder(s: string, p: Held, a: Account, h: seq<Event>, u: Setup) {
    p.plan.symbol == s && Seen(h, s, p.plan.entryIndex) && Follows(p.plan, a.trades, u.p)
  }

  ghost predicate Sequential(a: Account, h: seq<Event>, u: Setup) {
    && (forall s :: s in a.lastExit ==> Seen(h, s, a.lastExit[s]))
    && (forall k :: 0 <= k < |a.trades| ==> LastExitKnown(a.trades[k], a.lastExit))
    && (forall k :: 0 <= k < |a.trades| ==> Follows(a.trades[k].plan, a.trades[..k], u.p))
    && (forall s :: s in a.open ==> OpenInOrder(s, a.open[s], a, h, u))
  }

  lemma SeenBeforeNext(h: seq<Event>, e: Event, i: int)
    requires Seen(h, e.symbol, i) && Next(h, e)
    ensures i < e.index
  {
  }

  lemma FollowsSnoc(plan: Plan, trades: seq<Trade>, t: Trade, p: Params)
    requires Follows(plan, trades, p) && t.plan.symbol != plan.symbol
    ensures Follows(plan, trades + [t], p)
  {
  }

  lemma ClosingStaysSequential(a: Account, h: seq<Event>, p: Held, exit: Exit, e: Event, u: Setup)
    requires Sequential(a, h, u) && Next(h, e) && e.symbol in a.open && p.plan == a.open[e.symbol].plan
    ensures Sequential(Closed(a, p, exit, e, u), h + [e], u)
  {
    hide Proceeds, Seen, Follows;
    var next := Closed(a, p, exit, e, u);
    var t := next.trades[|a.trades|];
    forall s | s in next.lastExit ensures Seen(h + [e], s, next.lastExit[s]) {
      SeenLater(h, e, s, next.lastExit[s]);
    }
    assert OpenInOrder(e.symbol, a.open[e.symbol], a, h, u);
    SeenBeforeNext(h, e, p.plan.entryIndex);
    if e.symbol in a.lastExit { SeenBeforeNext(h, e, a.lastExit[e.symbol]); }
    forall k | 0 <= k < |next.trades| ensures Follows(next.trades[k].plan, next.trades[..k], u.p) {
      if k < |a.trades| {
        assert next.trades[..k] == a.trades[..k];
      } else {
        assert next.trades[..k] == a.trades;
      }
    }
    forall s | s in next.open ensures OpenInOrder(s, next.open[s], next, h + [e], u) {
      assert OpenInOrder(s, a.open[s], a, h, u);
      FollowsSnoc(a.open[s].plan, a.trades, t, u.p);
      SeenLater(h, e, s, a.open[s].plan.entryIndex);
    }
  }

  lemma KeepingStaysSequential(a: Account, b: Account, h: seq<Event>, e: Event, u: Setup)
    requires Sequential(a, h, u)
    requires b.lastExit == a.lastExit && b.trades == a.trades && b.open.Keys == a.open.Keys
    requires forall s :: s in a.open ==> b.open[s].plan == a.open[s].plan
    ensures Sequential(b, h + [e], u)
  {
    hide Seen, Follows;
    forall s, i | Seen(h, s, i) ensures Seen(h + [e], s, i) { SeenLater(h, e, s, i); }
    forall s | s in b.open ensures OpenInOrder(s, b.open[s], b, h + [e], u) {
      assert OpenInOrder(s, a.open[s], a, h, u);
    }
  }

  lemma ManagingStaysSequential(a: Account, h: seq<Event>, e: Event, u: Setup)
    requires Sequential(a, h, u) && Next(h, e)
    ensures Sequential(Managed(a, e, u), h + [e], u)
  {
    hide Charge, Charged, Resolve, Kept, Closed, Sequential;
    if e.symbol in a.open {
      var p := Charged(a.open[e.symbol], e, u);
      var (after, verdict) := Resolve(p, e, u);
      assert p.plan == a.open[e.symbol].plan by { ChargingKeepsPlan(a.open[e.symbol], e, u); }
      ResolveKeepsCost(p, e, u);
      ResolveKeepsCost(after, e, u);
      if verdict.Some? {
        var charged := a.(equity := a.equity - Charge(a.open[e.symbol].plan, u.books(e.symbol).costs, e.bar));
        assert Sequential(charged, h, u) by { EquityIsIrrelevant(a, charged.equity, h, u); }
        ClosingStaysSequential(charged, h, after, verdict.value, e, u);
      } else {
        KeepingStaysSequential(a, Managed(a, e, u), h, e, u);
      }
    } else {
      KeepingStaysSequential(a, a, h, e, u);
    }
  }

  lemma ChargingKeepsPlan(p: Held, e: Event, u: Setup)
    ensures Charged(p, e, u).plan == p.plan
  {
  }

  lemma EquityIsIrrelevant(a: Account, equity: real, h: seq<Event>, u: Setup)
    requires Sequential(a, h, u)
    ensures Sequential(a.(equity := equity), h, u)
  {
    forall s | s in a.open ensures OpenInOrder(s, a.open[s], a.(equity := equity), h, u) {
      assert OpenInOrder(s, a.open[s], a, h, u);
    }
  }

  /** A position is opened exactly when the symbol has a signal, every gate lets it
      through, and it can be planned; nothing else about it moves but the halt. */
  lemma EntersIffEveryGatePasses(a: Account, ts: int, e: Event, u: Setup)
    ensures var (next, r) := (Entered(a, ts, e, u), Resumed(a, ts, u.gates));
            && next.trades == a.trades && next.lastExit == a.lastExit
            && (e.symbol in next.open && e.symbol !in a.open
                <==> && Signals(a, e, u) && SlotFree(a, u.gates)
                     && (a.haltedAt.None? || MayResume(a, ts, u.gates))
                     && !DrawnDown(r, u.gates) && Allowed(r, ts, e, u)
                     && PlanEntry(e.symbol, if e.bar.longEntry then Long else Short, e.bar, e.index, r.equity, u.p,
                                  u.books(e.symbol).costs).Some?)
            && (next.open != a.open
                ==> && e.symbol in next.open && e.symbol !in a.open
                    && next.open == a.open[e.symbol := next.open[e.symbol]]
                    && next.open[e.symbol].plan.symbol == e.symbol && next.open[e.symbol].plan.entryIndex == e.index)
  {
    hide PlanEntry, DrawnDown, MayResume, SlotFree, Allowed;
  }

  lemma NewcomerFollows(a: Account, h: seq<Event>, ts: int, e: Event, plan: Plan, u: Setup)
    requires Sequential(a, h, u) && Newest(h, e) && Allowed(Resumed(a, ts, u.gates), ts, e, u)
    requires plan.symbol == e.symbol && plan.entryIndex == e.index
    ensures Seen(h, plan.symbol, plan.entryIndex) && Follows(plan, a.trades, u.p)
  {
    hide MayResume, OpenInOrder;
    forall k | 0 <= k < |a.trades| && a.trades[k].plan.symbol == e.symbol
      ensures a.trades[k].exitIndex + Cooldown(u.p) <= e.index
    {
      assert LastExitKnown(a.trades[k], a.lastExit) && Seen(h, e.symbol, a.lastExit[e.symbol]);
    }
  }

  lemma EnteringStaysSequential(a: Account, h: seq<Event>, ts: int, e: Event, u: Setup)
    requires Sequential(a, h, u) && Newest(h, e)
    ensures Sequential(Entered(a, ts, e, u), h, u)
  {
    hide Entered, Allowed, Seen, Follows, Newest;
    var next := Entered(a, ts, e, u);
    EntersIffEveryGatePasses(a, ts, e, u);
    if next.open != a.open {
      NewcomerFollows(a, h, ts, e, next.open[e.symbol].plan, u);
    }
    forall s | s in next.open ensures OpenInOrder(s, next.open[s], next, h, u) {
      if s in a.open && next.open[s] == a.open[s] {
        assert OpenInOrder(s, a.open[s], a, h, u);
      }
    }
  }

  lemma {:induction false} ManagingAllStaysSequential(a: Account, h: seq<Event>, es: seq<Event>, u: Setup)
    requires Sequential(a, h, u) && Ordered(h + es)
    ensures Sequential(ManagedAll(a, es, u), h + es, u)
  {
    hide Managed, Sequential;
    if es == [] {
      assert h + es == h;
    } else {
      var init, e := es[..|es| - 1], es[|es| - 1];
      assert h + es == (h + init) + [e];
      NextOfOrdered(h + init, e);
      ManagingAllStaysSequential(a, h, init, u);
      ManagingStaysSequential(ManagedAll(a, init, u), h + init, e, u);
    }
  }

  lemma {:induction false} EnteringAllStaysSequential(a: Account, h: seq<Event>, ts: int, es: seq<Event>, u: Setup)
    requires Sequential(a, h, u) && forall e :: e in es ==> Newest(h, e)
    ensures Sequential(EnteredAll(a, ts, es, u), h, u)
  {
    hide Entered, Sequential;
    if es != [] {
      EnteringAllStaysSequential(a, h, ts, es[..|es| - 1], u);
      EnteringStaysSequential(EnteredAll(a, ts, es[..|es| - 1], u), h, ts, es[|es| - 1], u);
    }
  }

  lemma BookkeepingStaysSequential(a: Account, b: Account, h: seq<Event>, u: Setup)
    requires Sequential(a, h, u) && b.lastExit == a.lastExit && b.trades == a.trades && b.open == a.open
    ensures Sequential(b, h, u)
  {
    hide Seen, Follows;
    forall s | s in b.open ensures OpenInOrder(s, b.open[s], b, h, u) {
      assert OpenInOrder(s, a.open[s], a, h, u);
    }
  }

  /** One symbol's positions never overlap: each closes on a later bar than it
      opened, and the next waits out the cooldown. */
  lemma {:induction false} NoSymbolHoldsTwo(ticks: seq<Tick>, u: Setup, k: nat)
    requires ValidTicks(ticks, u) && k <= |ticks|
    ensures Sequential(After(ticks, u, k), Flatten(ticks, k), u)
  {
    hide ManagedAll, EnteredAll, Sequential;
    if k == 0 {
      assert Sequential(Initial(u), [], u) by { NothingIsSequential(u); }
    } else {
      NoSymbolHoldsTwo(ticks, u, k - 1);
      var a, t, h := After(ticks, u, k - 1), ticks[k - 1], Flatten(ticks, k - 1);
      assert t in ticks;
      FlattenIsPrefix(ticks, k, |ticks|);
      OrderedPrefix(Flatten(ticks, k), Flatten(ticks, |ticks|));
      BookkeepingStaysSequential(a, Rolled(a, t.ts), h, u);
      ManagingAllStaysSequential(Rolled(a, t.ts), h, t.events, u);
      forall e | e in t.events ensures Newest(h + t.events, e) { NewestInTick(h, t.events, e); }
      var managed := ManagedAll(Rolled(a, t.ts), t.events, u);
      EnteringAllStaysSequential(managed, h + t.events, t.ts, t.events, u);
      var entered := EnteredAll(managed, t.ts, t.events, u);
      BookkeepingStaysSequential(entered, Recorded(entered, t.ts), h + t.events, u);
    }
  }

  lemma NothingIsSequential(u: Setup)
    ensures Sequential(Initial(u), [], u)
  {
  }

  // ---------------------------------------------------------------- slippage on a walked stop

  lemma {:induction false} WalkedFillIsSlipped(h: Held, ms: seq<Minute>, earn: Positions.Rule,
                                               rule: StopRule) returns (k: nat)
    requires Walk(h, ms, earn, rule).1.hitStop
    ensures k < |ms| && Walk(h, ms, earn, rule).1.fill == Some(Slipped(h.plan.side, ms[k].close, rule.slip))
    decreases |ms|
  {
    if Hits(h, ms[0], rule) {
      k := 0;
    } else {
      k := WalkedFillIsSlipped(Promoted(h, FavourablePrice(h.plan.side, ms[0]), earn), ms[1..], earn, rule);
      k := k + 1;
    }
  }

  /** A walked stop fills at a minute's close already moved by the slippage, and its fee
      adds the slippage again unless stops are configured as `ltp_close`. */
  lemma WalkedStopIsSlipped(h: Held, e: Event, u: Setup) returns (k: nat)
    requires Walks(e.bar, u.stops) && Resolve(h, e, u).1.Some? && Resolve(h, e, u).1.value.reason == StopHit
    ensures var (c, exit) := (u.books(e.symbol).costs, Resolve(h, e, u).1.value);
            && k < |e.bar.minutes| && exit.price == Slipped(h.plan.side, e.bar.minutes[k].close, SlippageRate(c))
            && ExitFee(h.plan, c, exit, u.stops.ltpClose)
               == Notional(c, h.plan.contracts, exit.price) * EffectiveTaker(c)
                  + if u.stops.ltpClose then 0.0 else Notional(c, h.plan.contracts, exit.price) * SlippageRate(c)
  {
    hide EffectiveTaker, SlippageRate, Notional, Earning, Slipped;
    var m, c := u.stops, u.books(e.symbol).costs;
    k := WalkedFillIsSlipped(h, e.bar.minutes, Rule(h, m, c), StopRule(m.triggerLtp, SlippageRate(c)));
    WalkKeepsPlan(h, e.bar.minutes, Rule(h, m, c), StopRule(m.triggerLtp, SlippageRate(c)));
    var n := Notional(c, h.plan.contracts, Resolve(h, e, u).1.value.price);
    assert n * (EffectiveTaker(c) + SlippageRate(c)) == n * EffectiveTaker(c) + n * SlippageRate(c);
  }

  lemma SlippedIsPositive(side: Side, px: real, slip: real)
    requires px > 0.0 && -1.0 < slip < 1.0
    ensures Slipped(side, px, slip) > 0.0
  {
    ScaleLt(0.0, 1.0 - Signed(side, slip), px);
  }

  lemma NotionalIsPositive(c: SymbolCosts, contracts: int, price: real)
    requires c.contractValue > 0.0 && contracts != 0 && price > 0.0
    ensures Notional(c, contracts, price) > 0.0
  {
    assert AbsInt(contracts) as real * c.contractValue > 0.0;
  }

  lemma ZeroProductIff(a: real, b: real)
    requires a > 0.0
    ensures a * b == 0.0 <==> b == 0.0
  {
  }

  /** So, of an open position in a market with prices, the slippage is charged once
      exactly when stops are configured as `ltp_close` or there is no slippage. */
  lemma WalkedStopSlipsOnceIff(h: Held, e: Event, u: Setup)
    requires Walks(e.bar, u.stops) && Resolve(h, e, u).1.Some? && Resolve(h, e, u).1.value.reason == StopHit
    requires h.plan.contracts != 0 && u.books(e.symbol).costs.contractValue > 0.0
    requires -1.0 < SlippageRate(u.books(e.symbol).costs) < 1.0
    requires forall k :: 0 <= k < |e.bar.minutes| ==> e.bar.minutes[k].close > 0.0
    ensures var (c, exit) := (u.books(e.symbol).costs, Resolve(h, e, u).1.value);
            ExitFee(h.plan, c, exit, u.stops.ltpClose) == Notional(c, h.plan.contracts, exit.price) * EffectiveTaker(c)
            <==> u.stops.ltpClose || SlippageRate(c) == 0.0
  {
    hide EffectiveTaker, SlippageRate, Notional, Earning, Slipped, Resolve, ExitFee;
    var k := WalkedStopIsSlipped(h, e, u);
    var c, price := u.books(e.symbol).costs, Resolve(h, e, u).1.value.price;
    SlippedIsPositive(h.plan.side, e.bar.minutes[k].close, SlippageRate(c));
    NotionalIsPositive(c, h.plan.contracts, price);
    ZeroProductIff(Notional(c, h.plan.contracts, price), SlippageRate(c));
  }

  /** A doubly charged exit: under the default fill a trailed long stopped in its first
      minute sells at 99.98, two basis points under the market, and pays two more. */
  lemma WalkedStopSlipsTwice()
    ensures var c := SymbolCosts(0.5, 1.0, 0.0, 0.0005, None, 28800, 2.0, 1.18, false);
            var h := Held(Plan("BTCUSD", Long, 1, 110.0, 0, 0, 200.0, 5.0, 0.0, None), 105.0, false, 0.0);
            var p := Params(0.0, false, None, false, 0.0, 0.0, 0, 0, 0, 0.0, 0.0, None, 1.0, None, 2.0);
            var u := Setup(["BTCUSD"], _ => Book(c, 0), p,
                           StopModel(false, false, Protection([], Some(1.0), Some(1.0))),
                           Gates(1, 10, 1.0, 1.0, 0, 0, 0, None), 1000.0);
            var b := Bar(300, 100.0, 110.0, 100.0, 110.0, 100.0, None, true,
                         [Minute(100.0, 110.0, 100.0, 110.0, 100.0)],
                         false, false, false, false, None, None, None, None, false, false);
            && Resolve(h, Event("BTCUSD", 1, b), u).1 == Some(Exit(99.98, StopHit, false))
            && ExitFee(h.plan, c, Exit(99.98, StopHit, false), false) == 99.98 * 0.00059 + 99.98 * 0.0002
  {
    var c := SymbolCosts(0.5, 1.0, 0.0, 0.0005, None, 28800, 2.0, 1.18, false);
    assert SlippageRate(c) == 0.0002 && EffectiveTaker(c) == 0.00059;
    assert Slipped(Long, 100.0, 0.0002) == 99.98;
  }
}
