/** live/broker.py: planning the leverage, and sending one risk-approved intent with
    its attribution written before the order leaves. */
module Broker {
  import opened Numbers
  import opened Costs
  import opened Client

  const LIQUIDATION_BUFFER := 3.0
  const MARGIN_HEADROOM := 0.9

  // ---------------------------------------------------------------- leverage

  /** A product's margin terms; `_margin_spec` refuses any that is not positive. */
  datatype MarginSpec = MarginSpec(initial: real, maintenance: real, contractValue: real)
  {
    predicate Usable() { initial > 0.0 && maintenance > 0.0 && contractValue > 0.0 }
  }

  datatype Plan = Plan(leverage: int, margin: real, notional: real, stopDistance: real, liquidationDistance: real)

  function StopDistance(entry: real, stop: real): real
    requires entry != 0.0
  {
    Abs(entry - stop) / entry
  }

  function LiquidationDistance(leverage: int, maintenance: real): real
    requires leverage > 0
  {
    1.0 / leverage as real - maintenance / 100.0
  }

  function MaxLeverage(initial: real): int
    requires initial > 0.0
  {
    Trunc(100.0 / initial)
  }

  function SafeLeverage(stopDistance: real, maintenance: real): int
    requires stopDistance > 0.0 && maintenance > 0.0
  {
    assert LIQUIDATION_BUFFER * stopDistance + maintenance / 100.0 > 0.0;
    Trunc(1.0 / (LIQUIDATION_BUFFER * stopDistance + maintenance / 100.0))
  }

  /** `_plan_leverage`; None is a refusal. A missing entry or spec is None. */
  function PlanLeverage(entry: Num, stop: real, quantity: int, spec: Option<MarginSpec>, available: Num): Option<Plan> {
    if entry.None? || entry.value == 0.0 then None
    else
      var d := StopDistance(entry.value, stop);
      if d <= 0.0 || spec.None? || !spec.value.Usable() then None
      else
        var leverage := MinInt(SafeLeverage(d, spec.value.maintenance), MaxLeverage(spec.value.initial));
        if leverage < 1 then None
        else
          var notional := quantity as real * spec.value.contractValue * entry.value;
          var margin := notional / leverage as real;
          if available.None? || margin > available.value * MARGIN_HEADROOM then None
          else Some(Plan(leverage, margin, notional, d, LiquidationDistance(leverage, spec.value.maintenance)))
  }

  /** A whole leverage keeps liquidation the buffer's multiple of the stop away. */
  predicate KeepsBuffer(k: int, stopDistance: real, maintenance: real)
    requires k > 0
  {
    LiquidationDistance(k, maintenance) >= LIQUIDATION_BUFFER * stopDistance
  }

  lemma ReciprocalOrder(k: real, need: real)
    requires k > 0.0 && need > 0.0
    ensures k <= 1.0 / need <==> need <= 1.0 / k
  {
    var u, v := 1.0 / need, 1.0 / k;
    assert u * need == 1.0 && v * k == 1.0;
    if k <= u {
      ScaleLe(k, u, need);
      assert k * need <= v * k;
      CancelLe(need, v, k);
    } else {
      ScaleLt(u, k, need);
      assert v * k < need * k;
      CancelLt(v, need, k);
    }
  }

  lemma CancelLe(a: real, b: real, k: real)
    requires k > 0.0 && k * a <= b * k
    ensures a <= b
  {
    if b < a { ScaleLt(b, a, k); }
  }

  lemma CancelLt(a: real, b: real, k: real)
    requires k > 0.0 && a * k < b * k
    ensures a < b
  {
    if b <= a { ScaleLe(b, a, k); }
  }

  /** The safe leverage is the largest whole one that keeps the buffer. */
  lemma SafeLeverageIsLargest(k: int, stopDistance: real, maintenance: real)
    requires k > 0 && stopDistance > 0.0 && maintenance > 0.0
    ensures k <= SafeLeverage(stopDistance, maintenance) <==> KeepsBuffer(k, stopDistance, maintenance)
  {
    var need := LIQUIDATION_BUFFER * stopDistance + maintenance / 100.0;
    ReciprocalOrder(k as real, need);
    assert 1.0 / need >= 0.0;
  }

  /** Whatever is planned: liquidation at least the buffer away, the margin inside
      the headroom, and the leverage the largest whole number within the product's
      cap that keeps the buffer. */
  lemma PlannedLeverageIsSafeAndLargest(entry: Num, stop: real, quantity: int, spec: Option<MarginSpec>, available: Num)
    requires PlanLeverage(entry, stop, quantity, spec, available).Some?
    ensures var plan := PlanLeverage(entry, stop, quantity, spec, available).value;
            && plan.leverage >= 1 && plan.stopDistance > 0.0
            && plan.liquidationDistance >= LIQUIDATION_BUFFER * plan.stopDistance
            && plan.margin * plan.leverage as real == plan.notional
            && plan.margin <= available.value * MARGIN_HEADROOM
            && forall k :: k > 0 ==> (k <= plan.leverage <==> k <= MaxLeverage(spec.value.initial)
                                                              && KeepsBuffer(k, plan.stopDistance,
                                                                      spec.value.maintenance))
  {
    var plan := PlanLeverage(entry, stop, quantity, spec, available).value;
    var mm := spec.value.maintenance;
    SafeLeverageIsLargest(plan.leverage, plan.stopDistance, mm);
    forall k | k > 0
      ensures k <= SafeLeverage(plan.stopDistance, mm) <==> KeepsBuffer(k, plan.stopDistance, mm)
    {
      SafeLeverageIsLargest(k, plan.stopDistance, mm);
    }
    assert plan.notional / plan.leverage as real * plan.leverage as real == plan.notional;
  }

  /** Given usable terms, a real stop and enough balance, the entry is refused exactly
      when no whole leverage within the cap keeps the buffer. */
  lemma RefusedIffNoLeverageFits(entry: Num, stop: real, quantity: int, spec: Option<MarginSpec>, available: Num)
    requires entry.Some? && entry.value > 0.0 && stop != entry.value
    requires spec.Some? && spec.value.Usable() && available.Some? && quantity >= 0
    requires quantity as real * spec.value.contractValue * entry.value <= available.value * MARGIN_HEADROOM
    ensures PlanLeverage(entry, stop, quantity, spec, available).None?
            <==> MaxLeverage(spec.value.initial) < 1
                 || !KeepsBuffer(1, StopDistance(entry.value, stop), spec.value.maintenance)
  {
    var d := StopDistance(entry.value, stop);
    assert d > 0.0 by { PositiveQuotient(Abs(entry.value - stop), entry.value); }
    SafeLeverageIsLargest(1, d, spec.value.maintenance);
    var notional := quantity as real * spec.value.contractValue * entry.value;
    var leverage := MinInt(SafeLeverage(d, spec.value.maintenance), MaxLeverage(spec.value.initial));
    if leverage >= 1 { DividedIsNoMore(notional, leverage as real); }
  }

  lemma PositiveQuotient(a: real, b: real)
    requires a > 0.0 && b > 0.0
    ensures a / b > 0.0
  {
  }

  lemma DividedIsNoMore(x: real, k: real)
    requires x >= 0.0 && k >= 1.0
    ensures x / k <= x
  {
    var q := x / k;
    assert q * k == x;
    assert q >= 0.0;
    ScaleLe(1.0, k, q);
  }

  // ---------------------------------------------------------------- submitting

  datatype Intent = Intent(symbol: string, cid: string, market: bool, quantity: int, entry: Num, stop: real)

  /** What the broker reads before it may send: the kill switch, whether the book
      passed, and the leverage terms, balance and read-back. */
  datatype Readings = Readings(killSwitch: bool, bookOk: bool, spec: Option<MarginSpec>, available: Num, confirmed: Num)

  datatype Submitted = Sent(row: Row) | SentUnread | OpeningRefused | DidNotFill | VenueRejected | AmbiguousWrite

  /** `no_position_can_result` of the exception raised, false on a returned row. */
  predicate NoPositionCanResult(s: Submitted) {
    s.OpeningRefused? || s.DidNotFill? || s.VenueRejected?
  }

  /** What the broker makes of the client's answer to a sent order. */
  function Raised(i: Intent, a: Answer): Submitted {
    match a
    case Rejected => VenueRejected
    case Placed(row) => if i.market && DiedUnfilled(row) then DidNotFill else Submitted.Sent(row)
    case PlacedUnread => SentUnread
    case Ambiguous => AmbiguousWrite
  }

  class LiveBroker {
    const client: LiveClient
    const tradeable: Option<set<string>>
    const productIds: map<string, int>
    var suspended: set<string>
    var entryCid: map<string, string>
    var pending: map<string, Intent>

    constructor (client: LiveClient, tradeable: Option<set<string>>, productIds: map<string, int>)
      ensures this.client == client && entryCid == map[] && pending == map[] && suspended == {}
    {
      this.client, this.tradeable, this.productIds := client, tradeable, productIds;
      suspended, entryCid, pending := {}, map[], map[];
    }

    predicate Refuses(i: Intent, r: Readings)
      reads this
    {
      || (tradeable.Some? && i.symbol !in tradeable.value)
      || r.killSwitch || i.symbol in suspended || i.symbol !in productIds || !r.bookOk
      || var plan := PlanLeverage(i.entry, i.stop, i.quantity, r.spec, r.available);
         plan.None? || r.confirmed.None? || RoundHalfEven(r.confirmed.value) != plan.value.leverage
    }

    method Forget(i: Intent)
      modifies this`entryCid, this`pending
      ensures pending == old(pending) - {i.cid}
      ensures entryCid == if i.symbol in old(entryCid) && old(entryCid)[i.symbol] == i.cid
                          then old(entryCid) - {i.symbol} else old(entryCid)
    {
      if i.symbol in entryCid && entryCid[i.symbol] == i.cid {
        entryCid := entryCid - {i.symbol};
      }
      pending := pending - {i.cid};
    }

    /** `submit_order`. At most one order is sent. A refusal changes nothing; what is
        raised of a sent order is what its answer and the lookup say, and an order
        the venue declined is as able to open as it was. Having been sent and said to
        leave no position, an order keeps no attribution. */
    method SubmitOrder(i: Intent, r: Readings) returns (s: Submitted, ghost wire: Wire, ghost seen: seq<Exchange>)
      requires client.venue.Valid()
      modifies this`entryCid, this`pending, client.venue
      ensures client.venue.Valid()
      ensures s.OpeningRefused? <==> old(Refuses(i, r))
      ensures client.venue.posts == old(client.venue.posts) + if s.OpeningRefused? then [] else [i.cid]
      ensures s.OpeningRefused? ==> && pending == old(pending) && entryCid == old(entryCid)
                                    && client.venue.orders == old(client.venue.orders)
                                    && client.venue.late == old(client.venue.late)
      ensures !s.OpeningRefused? ==> client.venue.log == old(client.venue.log) + [Exchange.Sent(i.cid, wire)] + seen
      ensures !s.OpeningRefused? ==> s == Raised(i, Reading(i.cid, wire, seen))
      ensures s.VenueRejected? ==> (client.venue.CanOpen(i.cid) <==> old(client.venue.CanOpen(i.cid)))
      ensures s.DidNotFill? ==> !client.venue.CanOpen(i.cid)
      ensures old(client.venue.Live(i.cid)) ==> client.venue.Live(i.cid)
      ensures !s.OpeningRefused? && old(client.venue.Live(i.cid))
              ==> !(Parse(wire).Value? && Parse(wire).body.Order?)
      ensures s.SentUnread?
              <==> !s.OpeningRefused? && (NoOrder(wire) || (Parse(wire).Outage? && EndsGarbled(i.cid, seen)))
      ensures NoPositionCanResult(s) && !s.OpeningRefused?
              ==> i.cid !in pending && !(i.symbol in entryCid && entryCid[i.symbol] == i.cid)
      ensures !NoPositionCanResult(s)
              ==> pending == old(pending)[i.cid := i] && entryCid == old(entryCid)[i.symbol := i.cid]
      ensures s.Sent? ==> s.row.cid == i.cid && i.cid in client.venue.orders && s.row == client.venue.orders[i.cid]
      ensures forall c :: c != i.cid ==> (c in pending <==> c in old(pending))
                                         && (c in pending ==> pending[c] == old(pending[c]))
    {
      seen := [];
      wire := Silence;
      if Refuses(i, r) {
        return OpeningRefused, wire, seen;
      }
      entryCid := entryCid[i.symbol := i.cid];
      pending := pending[i.cid := i];
      var answer;
      answer, wire, seen := client.PlaceOrder(i.cid);
      if answer.Rejected? {
        Forget(i);
        return VenueRejected, wire, seen;
      }
      if answer.Placed? && i.market && DiedUnfilled(answer.row) {
        Forget(i);
        return DidNotFill, wire, seen;
      }
      s := match answer
           case Placed(row) => Submitted.Sent(row)
           case PlacedUnread => SentUnread
           case _ => AmbiguousWrite;
    }

    /** The promise in full, and exactly when it is kept: a report that no position can
        result is true of an intent neither able to open before nor pending, and of any
        other it is false unless the order was seen dead at the venue, or was declined
        by the venue with nothing able to open. */
    method SubmitReported(i: Intent, r: Readings) returns (s: Submitted)
      requires client.venue.Valid()
      modifies this`entryCid, this`pending, client.venue
      ensures client.venue.Valid()
      ensures NoPositionCanResult(s)
              ==> (!client.venue.CanOpen(i.cid) && i.cid !in pending
                   <==> || s.DidNotFill?
                        || (s.VenueRejected? && !old(client.venue.CanOpen(i.cid)))
                        || (s.OpeningRefused? && !old(client.venue.CanOpen(i.cid)) && i.cid !in old(pending)))
    {
      ghost var wire, seen;
      s, wire, seen := SubmitOrder(i, r);
    }

    /** For an intent never submitted before it is always kept. */
    method SubmitOnce(i: Intent, r: Readings) returns (s: Submitted)
      requires client.venue.Valid() && !client.venue.CanOpen(i.cid) && i.cid !in pending
      modifies this`entryCid, this`pending, client.venue
      ensures client.venue.Valid()
      ensures NoPositionCanResult(s) ==> !client.venue.CanOpen(i.cid) && i.cid !in pending
    {
      s := SubmitReported(i, r);
    }

    /** For any other it is broken by a refusal: submitted again under the kill switch,
        the order is reported unable to open, and still can or is still pending. */
    method ResubmitUnderKillSwitch(i: Intent, r: Readings) returns (s: Submitted)
      requires client.venue.Valid() && (client.venue.CanOpen(i.cid) || i.cid in pending) && r.killSwitch
      modifies this`entryCid, this`pending, client.venue
      ensures NoPositionCanResult(s)
      ensures client.venue.CanOpen(i.cid) <==> old(client.venue.CanOpen(i.cid))
      ensures i.cid in pending <==> i.cid in old(pending)
      ensures client.venue.CanOpen(i.cid) || i.cid in pending
    {
      ghost var wire, seen;
      s, wire, seen := SubmitOrder(i, r);
    }

    /** And without any refusal: a live order submitted again is declined for its known
        client id, unless nothing is heard or nothing that can be read. Then it too is
        reported unable to open; it can open exactly as before, and what attributed its
        fill is gone. */
    method ResubmitLive(i: Intent, r: Readings) returns (s: Submitted, ghost wire: Wire)
      requires client.venue.Valid() && client.venue.Live(i.cid) && !Refuses(i, r)
      modifies this`entryCid, this`pending, client.venue
      ensures s.VenueRejected? <==> !Parse(wire).Outage? && !NoOrder(wire)
      ensures s.VenueRejected? ==> && NoPositionCanResult(s) && i.cid !in pending
                                   && !(i.symbol in entryCid && entryCid[i.symbol] == i.cid)
                                   && (client.venue.CanOpen(i.cid) <==> old(client.venue.CanOpen(i.cid)))
    {
      ghost var seen;
      s, wire, seen := SubmitOrder(i, r);
    }
  }
}
