/** deltabt/portfolio.py: the merged event stream, and `run_portfolio` as it is
    written, changing one account and its positions in place. */
module PortfolioRun {
  import opened Numbers
  import opened Costs
  import opened Exits
  import opened Positions
  import opened Execution
  import opened Portfolio

  // ---------------------------------------------------------------- grouping

  function SameTime(events: seq<Event>, ts: int): (n: nat)
    ensures n <= |events|
    ensures forall k :: 0 <= k < n ==> events[k].bar.time == ts
    ensures n < |events| ==> events[n].bar.time != ts
  {
    if events == [] || events[0].bar.time != ts then 0 else 1 + SameTime(events[1..], ts)
  }

  /** The stream cut at every change of timestamp. */
  function Ticks(events: seq<Event>): seq<Tick> {
    if events == [] then []
    else
      var ts := events[0].bar.time;
      var n := SameTime(events, ts);
      [Tick(ts, events[..n])] + Ticks(events[n..])
  }

  /** The merged stream: by time, each symbol's bars strictly in their own order. */
  ghost predicate Merged(events: seq<Event>, u: Setup) {
    && (forall j, k :: 0 <= j < k < |events| ==> events[j].bar.time <= events[k].bar.time)
    && (forall j, k :: 0 <= j < k < |events| && events[j].symbol == events[k].symbol
          ==> events[j].bar.time < events[k].bar.time && events[j].index < events[k].index)
    && forall k :: 0 <= k < |events| ==> events[k].symbol in u.symbols
  }

  lemma Associates(a: seq<Event>, b: seq<Event>, c: seq<Event>)
    ensures (a + b) + c == a + (b + c)
  {
  }

  lemma {:induction false} FlattenCons(t: Tick, ticks: seq<Tick>, k: nat)
    requires k <= |ticks|
    ensures Flatten([t] + ticks, k + 1) == t.events + Flatten(ticks, k)
  {
    if k == 0 {
      assert Flatten([t] + ticks, 0) == [];
    } else {
      FlattenCons(t, ticks, k - 1);
      var all := [t] + ticks;
      assert all[k] == ticks[k - 1];
      assert Flatten(all, k + 1) == Flatten(all, k) + ticks[k - 1].events;
      assert Flatten(ticks, k) == Flatten(ticks, k - 1) + ticks[k - 1].events;
      Associates(t.events, Flatten(ticks, k - 1), ticks[k - 1].events);
    }
  }

  /** Grouping loses nothing and keeps the order. */
  lemma {:induction false} FlattenTicks(events: seq<Event>)
    ensures Flatten(Ticks(events), |Ticks(events)|) == events
    decreases |events|
  {
    if events != [] {
      var n := SameTime(events, events[0].bar.time);
      FlattenTicks(events[n..]);
      FlattenCons(Tick(events[0].bar.time, events[..n]), Ticks(events[n..]), |Ticks(events[n..])|);
    }
  }

  lemma MergedSuffix(events: seq<Event>, n: nat, u: Setup)
    requires Merged(events, u) && n <= |events|
    ensures Merged(events[n..], u)
  {
  }

  lemma FirstTickIsSound(events: seq<Event>, n: nat, ts: int, u: Setup)
    requires Merged(events, u) && n <= |events|
    requires forall k :: 0 <= k < n ==> events[k].bar.time == ts
    ensures DistinctSymbols(events[..n])
    ensures forall e :: e in events[..n] ==> e.symbol in u.symbols && e.bar.time == ts
  {
  }

  lemma {:induction false} TicksCoverEvents(events: seq<Event>, t: Tick, u: Setup) returns (k: nat)
    requires Merged(events, u) && t in Ticks(events)
    ensures DistinctSymbols(t.events)
    ensures forall e :: e in t.events ==> e.symbol in u.symbols && e.bar.time == t.ts
    ensures k < |events| && events[k].bar.time == t.ts
    decreases |events|
  {
    hide Merged, DistinctSymbols;
    var ts := events[0].bar.time;
    var n := SameTime(events, ts);
    if t == Tick(ts, events[..n]) {
      FirstTickIsSound(events, n, ts, u);
      k := 0;
    } else {
      MergedSuffix(events, n, u);
      k := TicksCoverEvents(events[n..], t, u);
      k := n + k;
    }
  }

  lemma MergedAscends(events: seq<Event>, j: nat, k: nat, u: Setup)
    requires Merged(events, u) && j <= k < |events|
    ensures events[j].bar.time <= events[k].bar.time
  {
  }

  lemma {:induction false} TicksAscend(events: seq<Event>, u: Setup)
    requires Merged(events, u)
    ensures var ticks := Ticks(events); forall j, k :: 0 <= j < k < |ticks| ==> ticks[j].ts < ticks[k].ts
    decreases |events|
  {
    hide Merged, DistinctSymbols;
    if events != [] {
      var ts := events[0].bar.time;
      var n := SameTime(events, ts);
      var rest := Ticks(events[n..]);
      MergedSuffix(events, n, u);
      TicksAscend(events[n..], u);
      forall k | 0 <= k < |rest| ensures ts < rest[k].ts {
        var i := TicksCoverEvents(events[n..], rest[k], u);
        MergedAscends(events, 0, n, u);
        MergedAscends(events, n, n + i, u);
      }
    }
  }

  /** The stream built from strictly sorted frames meets every assumption of the
      run's theorems. */
  lemma MergedStreamIsValid(events: seq<Event>, u: Setup)
    requires Merged(events, u)
    ensures ValidTicks(Ticks(events), u)
  {
    FlattenTicks(events);
    TicksAscend(events, u);
    forall t | t in Ticks(events)
      ensures DistinctSymbols(t.events) && forall e :: e in t.events ==> e.symbol in u.symbols && e.bar.time == t.ts
    {
      var _ := TicksCoverEvents(events, t, u);
    }
  }

  // ---------------------------------------------------------------- in place

  /** The open positions are objects that promotion and funding change in place. */
  type Table = map<string, Position>

  /** No two symbols share a position object. */
  ghost predicate Separate(open: Table) {
    forall s, t :: s in open && t in open && s != t ==> open[s] != open[t]
  }

  /** What a table of position objects holds. */
  ghost function HeldIn(open: Table): map<string, Held>
    reads open.Values
  {
    map s | s in open :: open[s].Value()
  }

  /** The account with the positions read out of the table; `a`'s own go unused. */
  ghost function With(a: Account, open: Table): Account
    reads open.Values
  {
    a.(open := HeldIn(open))
  }

  /** Exit tests of one bar; a walked position moves its stop as it goes. */
  method Judge(pos: Position, e: Event, u: Setup) returns (verdict: Option<Exit>)
    modifies pos`stopPrice, pos`stopPromoted
    ensures (pos.Value(), verdict) == Resolve(old(pos.Value()), e, u)
  {
    hide Decide, BarHits, BarStopFill;
    var b, m, c := e.bar, u.stops, u.books(e.symbol).costs;
    var walked: Option<Walked> := None;
    if Protects(m.protection) {
      walked := pos.LadderWalk(b.minutes, m.protection, StopRule(m.triggerLtp, SlippageRate(c)), c);
    }
    var h := pos.Value();
    var (hitStop, hitTarget) := BarHits(h, b, m);
    var stopFill := BarStopFill(h, b, m, u.p, c);
    if walked.Some? {
      hitStop, hitTarget := walked.value.hitStop, walked.value.hitTarget;
      stopFill := if walked.value.fill.Some? then walked.value.fill.value else 0.0;
    }
    verdict := Decide(h, b, e.index, u.p, hitStop, hitTarget, stopFill);
  }

  /** Promotion of a bar without minutes, after its exits. */
  method Keep(pos: Position, e: Event, u: Setup)
    modifies pos`stopPrice, pos`stopPromoted
    ensures pos.Value() == Kept(old(pos.Value()), e, u)
  {
    hide Earning;
    if Protects(u.stops.protection) && |e.bar.minutes| == 0 {
      pos.PromoteRungs(if pos.plan.side.Long? then e.bar.high else e.bar.low,
                       u.stops.protection, u.books(e.symbol).costs);
    }
  }

  /** One bar of one open position: charged, judged, and promoted if it survives. */
  method DriveBar(pos: Position, e: Event, u: Setup) returns (charge: real, verdict: Option<Exit>)
    modifies pos`stopPrice, pos`stopPromoted, pos`accruedFunding
    ensures charge == Charge(pos.plan, u.books(e.symbol).costs, e.bar)
    ensures var (after, exit) := Resolve(Charged(old(pos.Value()), e, u), e, u);
            verdict == exit && pos.Value() == if exit.Some? then after else Kept(after, e, u)
  {
    hide Charge, Resolve, Kept;
    charge := Charge(pos.plan, u.books(e.symbol).costs, e.bar);
    pos.Accrue(charge);
    verdict := Judge(pos, e, u);
    if verdict.None? {
      Keep(pos, e, u);
    }
  }

  /** What `Managed` is, with the positions kept apart from the scalars. */
  lemma ManagedApart(a: Account, held: map<string, Held>, e: Event, u: Setup)
    requires e.symbol in held
    ensures var w := a.(open := held);
            var (after, exit) := Resolve(Charged(held[e.symbol], e, u), e, u);
            var b := a.(equity := a.equity - Charge(held[e.symbol].plan, u.books(e.symbol).costs, e.bar));
            Managed(w, e, u) == if exit.Some? then Closed(b, after, exit.value, e, u).(open := held - {e.symbol})
                                else b.(open := held[e.symbol := Kept(after, e, u)])
  {
    hide Charge, Charged, Resolve, Kept, Proceeds, TradeOf, Pauses;
  }

  /** Funding, then exit or promotion, of one symbol. */
  method ManageOne(a: Account, open: Table, e: Event, u: Setup) returns (b: Account, left: Table)
    requires Separate(open)
    modifies open.Values
    ensures Separate(left) && left.Values <= open.Values
    ensures With(b, left) == Managed(old(With(a, open)), e, u)
  {
    hide Charge, Charged, Resolve, Kept, Closed, HeldIn;
    b, left := a, open;
    TableReads(open);
    if e.symbol !in open {
      return;
    }
    var pos := open[e.symbol];
    ghost var held := HeldIn(open);
    ManagedApart(a, held, e, u);
    hide Managed;
    var charge, verdict := DriveBar(pos, e, u);
    OthersKept(open, e.symbol, held);
    b := b.(equity := b.equity - charge);
    if verdict.Some? {
      b := Closed(b, pos.Value(), verdict.value, e, u);
      left := open - {e.symbol};
      TableShrunk(open, e.symbol);
      assert HeldIn(left) == held - {e.symbol};
    }
  }

  lemma TableReads(open: Table)
    ensures HeldIn(open).Keys == open.Keys
    ensures forall s :: s in open ==> HeldIn(open)[s] == open[s].Value()
  {
  }

  lemma TableShrunk(open: Table, s: string)
    ensures HeldIn(open - {s}) == HeldIn(open) - {s}
  {
  }

  /** One position has changed. */
  lemma OthersKept(open: Table, s: string, was: map<string, Held>)
    requires s in open && was.Keys == open.Keys
    requires forall t :: t in open && t != s ==> open[t].Value() == was[t]
    ensures HeldIn(open) == was[s := open[s].Value()]
  {
  }

  lemma TableKeys(open: Table)
    ensures HeldIn(open).Keys == open.Keys && |HeldIn(open)| == |open|
  {
    assert HeldIn(open).Keys == open.Keys;
    assert |HeldIn(open)| == |HeldIn(open).Keys| && |open| == |open.Keys|;
  }

  lemma TableExtended(open: Table, s: string, pos: Position)
    requires s !in open
    ensures HeldIn(open[s := pos]) == HeldIn(open)[s := pos.Value()]
  {
  }

  /** No gate but the slot count looks at the positions. */
  lemma GatesReadScalars(a: Account, held: map<string, Held>, ts: int, e: Event, u: Setup)
    ensures var w := a.(open := held);
            && DayIsLost(w, u.gates) == DayIsLost(a, u.gates) && DrawnDown(w, u.gates) == DrawnDown(a, u.gates)
            && Allowed(w, ts, e, u) == Allowed(a, ts, e, u)
  {
  }

  /** The gates in their order, for a symbol with a signal and no position. A
      resume or a new halt stays in `b` whether or not the entry goes ahead. */
  method PassGates(a: Account, size: nat, ghost held: map<string, Held>, ts: int, e: Event, u: Setup)
    returns (b: Account, ok: bool)
    requires size == |held| && Signals(a.(open := held), e, u)
    ensures b == a.(haltedAt := b.haltedAt, peak := b.peak, halts := b.halts)
    ensures Entered(a.(open := held), ts, e, u) == var w := b.(open := held); if ok then Opened(w, e, u) else w
  {
    hide Opened, DayIsLost, DrawnDown, Allowed;
    var g := u.gates;
    b, ok := a, false;
    GatesReadScalars(b, held, ts, e, u);
    if size >= g.maxOpen || b.tradesToday >= g.maxTradesPerDay || DayIsLost(b, g) {
      return;
    }
    if b.haltedAt.Some? {
      if g.resumeAfterDays == 0 || ts - b.haltedAt.value < g.resumeAfterDays * DAY {
        return;
      }
      b := b.(haltedAt := None, peak := b.equity);
      GatesReadScalars(b, held, ts, e, u);
    }
    if DrawnDown(b, g) {
      if size == 0 {
        b := b.(haltedAt := Some(ts), halts := b.halts + [(ts, b.equity)]);
      }
      return;
    }
    ok := Allowed(b, ts, e, u);
  }

  lemma NoSignalNoEntry(a: Account, ts: int, e: Event, u: Setup)
    ensures !Signals(a, e, u) ==> Entered(a, ts, e, u) == a
  {
  }

  /** A new position object in the table. */
  method Admit(open: Table, symbol: string, h: Held) returns (more: Table)
    requires Separate(open) && symbol !in open
    ensures Separate(more) && fresh(more.Values - open.Values)
    ensures HeldIn(more) == HeldIn(open)[symbol := h] && HeldIn(open) == old(HeldIn(open))
  {
    TableKeys(open);
    var pos := new Position(h);
    more := open[symbol := pos];
    TableExtended(open, symbol, pos);
  }

  /** One symbol's entry behind the gates; a new position is a new object. */
  method EnterOne(a: Account, open: Table, ts: int, e: Event, u: Setup) returns (b: Account, more: Table)
    requires Separate(open)
    ensures Separate(more) && fresh(more.Values - open.Values)
    ensures With(b, more) == Entered(With(a, open), ts, e, u)
  {
    hide PlanEntry, HeldIn, Entered;
    b, more := a, open;
    TableKeys(open);
    NoSignalNoEntry(With(a, open), ts, e, u);
    if e.symbol in open || e.index < u.books(e.symbol).warmup || !(e.bar.longEntry || e.bar.shortEntry) {
      return;
    }
    var ok;
    b, ok := PassGates(b, |open|, HeldIn(open), ts, e, u);
    if !ok {
      return;
    }
    var h := PlanEntry(e.symbol, if e.bar.longEntry then Long else Short, e.bar, e.index, b.equity, u.p,
                       u.books(e.symbol).costs);
    if h.None? {
      return;
    }
    b := b.(equity := b.equity - h.value.plan.entryFee, tradesToday := b.tradesToday + 1);
    more := Admit(open, e.symbol, h.value);
  }

  /** Everything one timestamp brings. */
  method RunTick(a: Account, open: Table, t: Tick, u: Setup) returns (b: Account, next: Table)
    requires Separate(open)
    modifies open.Values
    ensures Separate(next) && fresh(next.Values - open.Values)
    ensures With(b, next) == Step(old(With(a, open)), t, u)
  {
    hide Managed, Entered;
    b, next := a, open;
    ghost var was := With(a, open);
    var today := t.ts / DAY;
    if b.day.None? || b.day.value != today {
      b := b.(day := Some(today), dayStart := b.equity, tradesToday := 0, losses := 0);
    }
    ghost var rolled := Rolled(was, t.ts);
    var es := t.events;
    for k := 0 to |es|
      invariant Separate(next) && next.Values <= open.Values
      invariant With(b, next) == ManagedAll(rolled, es[..k], u)
    {
      assert es[..k + 1][..k] == es[..k];
      b, next := ManageOne(b, next, es[k], u);
    }
    assert es[..|es|] == es;
    ghost var managed := ManagedAll(rolled, es, u);
    for k := 0 to |es|
      invariant Separate(next) && fresh(next.Values - open.Values)
      invariant With(b, next) == EnteredAll(managed, t.ts, es[..k], u)
    {
      assert es[..k + 1][..k] == es[..k];
      b, next := EnterOne(b, next, t.ts, es[k], u);
    }
    assert With(b, next) == EnteredAll(managed, t.ts, es, u);
    b := b.(curve := b.curve + [(t.ts, b.equity)]);
  }

  /** `run_portfolio`: the stream taken one timestamp at a time. */
  method RunPortfolio(events: seq<Event>, u: Setup) returns (a: Account, open: Table)
    ensures var ticks := Ticks(events); With(a, open) == After(ticks, u, |ticks|)
  {
    hide Step, Ticks, HeldIn;
    a, open := Initial(u), map[];
    EmptyTable();
    NoTicks();
    var idx := 0;
    ghost var done: nat := 0;
    ghost var ticks := Ticks(events);
    assert events[0..] == events;
    while idx < |events|
      invariant idx <= |events| && done <= |ticks|
      invariant Ticks(events[idx..]) == ticks[done..]
      invariant Separate(open) && fresh(open.Values)
      invariant With(a, open) == After(ticks, u, done)
      decreases |events| - idx
    {
      var ts := events[idx].bar.time;
      var first := idx;
      while idx < |events| && events[idx].bar.time == ts
        invariant first <= idx <= |events|
        invariant forall k :: first <= k < idx ==> events[k].bar.time == ts
      {
        idx := idx + 1;
      }
      TickTaken(events, first, idx);
      a, open := RunTick(a, open, Tick(ts, events[first..idx]), u);
      done := done + 1;
    }
    assert events[idx..] == [];
  }

  lemma EmptyTable()
    ensures HeldIn(map[]) == map[]
  {
  }

  lemma NoTicks()
    ensures Ticks([]) == []
  {
  }

  lemma {:induction false} SameTimeIs(events: seq<Event>, ts: int, n: nat)
    requires n <= |events| && forall k :: 0 <= k < n ==> events[k].bar.time == ts
    requires n < |events| ==> events[n].bar.time != ts
    ensures SameTime(events, ts) == n
    decreases n
  {
    if n > 0 { SameTimeIs(events[1..], ts, n - 1); }
  }

  lemma TickTaken(events: seq<Event>, first: nat, idx: nat)
    requires first < idx <= |events|
    requires forall k :: first <= k < idx ==> events[k].bar.time == events[first].bar.time
    requires idx < |events| ==> events[idx].bar.time != events[first].bar.time
    ensures Ticks(events[first..]) == [Tick(events[first].bar.time, events[first..idx])] + Ticks(events[idx..])
  {
    var rest, ts := events[first..], events[first].bar.time;
    var n := idx - first;
    SameTimeIs(rest, ts, n);
    assert rest[..n] == events[first..idx] && rest[n..] == events[idx..];
  }
}
