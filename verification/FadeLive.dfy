/** live/fade_live.py: the real-money account. The database and the venue survive a
    crash; everything else is forgotten. At any await the pass may end, positions may
    move toward flat, and other processes may write the status. */
module FadeLive {
  import opened Numbers
  import opened Costs
  import opened FadeLog

  const FLOOR_USD := 140.0
  const WRONG_ACCOUNT_RATIO := 1.25
  const MAX_POSITION_SHARE := 0.45
  const LEVERAGE := 1
  const LIQUIDATION_BUFFER := 3.0
  const K_STOP := 2.0
  const ENTRY_WINDOW := 1800
  const EXIT_AFTER := 5
  const UNEXPLAINED_FLAT := 300
  const DAY := 86400

  // ---------------------------------------------------------------- calculations

  /** `leverage_ok`. */
  predicate LeverageOk(dist: real, maintenance: real) {
    dist > 0.0 && 1.0 / LEVERAGE as real - maintenance / 100.0 >= LIQUIDATION_BUFFER * dist
  }

  /** `contracts_for`. */
  function EntryContracts(balance: real, risk: real, ref: real, stop: real, cv: real): (n: int)
    ensures n != 0 ==> balance > 0.0 && stop > ref > 0.0 && cv > 0.0
  {
    if !(balance > 0.0 && stop > ref > 0.0 && cv > 0.0) then 0
    else
      var byRisk := risk * balance / ((stop - ref) * cv);
      var byMargin := MAX_POSITION_SHARE * balance * LEVERAGE as real / (ref * cv);
      Min(byRisk, byMargin).Floor
  }

  /** The largest whole number of contracts inside both the risk and the share; so
      the notionals of MAX_OPEN positions sized this way fit the balance together. */
  lemma ContractsAreLargestAllowed(balance: real, risk: real, ref: real, stop: real, cv: real, n: int)
    requires balance > 0.0 && stop > ref > 0.0 && cv > 0.0
    ensures n <= EntryContracts(balance, risk, ref, stop, cv)
            <==> n as real * ((stop - ref) * cv) <= risk * balance
                 && n as real * (ref * cv) <= MAX_POSITION_SHARE * balance
    ensures MAX_OPEN as real * (MAX_POSITION_SHARE * balance) <= balance
  {
    WithinIff(n as real, risk * balance, (stop - ref) * cv);
    WithinIff(n as real, MAX_POSITION_SHARE * balance, ref * cv);
    assert MAX_POSITION_SHARE * balance * LEVERAGE as real == MAX_POSITION_SHARE * balance;
  }

  // ---------------------------------------------------------------- entities

  /** One row of fade_live_positions; its client order id is a function of its key. */
  datatype Row = Row(key: Key, status: RowStatus, product: Option<int>, contracts: int, flatSince: Option<int>)

  /** One entry of the venue's list of positions. */
  datatype Held = Held(product: Option<int>, size: int)

  datatype Pick = Pick(symbol: string, atrp: real, paperEntry: bool)

  /** What the venue says of a coin when an entry is considered. */
  datatype Quote = Quote(bid: real, ask: real, mark: real, tick: real, contractValue: real, maintenance: real)

  /** Every await: a value, or the end of the pass, raised or crashed. */
  datatype Outcome<+T> = Done(value: T) | Aborted
  {
    predicate IsFailure() { Aborted? }
    function PropagateFailure<U>(): Outcome<U>
      requires IsFailure()
    {
      Aborted
    }
    function Extract(): T
      requires !IsFailure()
    {
      value
    }
  }

  /** What becomes of the entry's POST: an answer that tells the fill, a success that is
      no order, a refusal, or nothing learnt. Untold, it may have landed all the same. */
  datatype News = Telling(fill: nat) | Blurry(lands: bool, fill: nat) | Refusing | Silent(lands: bool, fill: nat)

  /** How the entry's POST came back. A success that is no order reads as nothing filled. */
  datatype Sent = Filled(contracts: int) | Unread | Refused | Unknown

  function SentOf(news: News): Sent {
    match news
    case Telling(fill) => Filled(fill)
    case Blurry(_, _) => Unread
    case Refusing => Refused
    case Silent(_, _) => Unknown
  }

  predicate Landing(news: News) {
    news.Telling? || (news.Blurry? && news.lands) || (news.Silent? && news.lands)
  }

  /** What a lookup by client order id says. An answer that is no order is taken for it. */
  datatype Found = Order(filled: int) | NoOrder | Missing | LookupFailed

  /** How a lookup goes: the order's own route answers, or with no order, or with
      nothing; a page that may not hold the order is scanned; or all is down. */
  datatype Route = Direct | Garbled | Blank | Scan(listed: bool) | Down

  function LookupAnswer(orders: map<Key, int>, k: Key, route: Route): Found {
    match route
    case Down => LookupFailed
    case Direct => if k in orders then Order(orders[k]) else Missing
    case Garbled => NoOrder
    case Blank => Missing
    case Scan(listed) => if listed && k in orders then Order(orders[k]) else Missing
  }

  /** The routes on which a filled order is not seen to be filled. */
  predicate Loses(route: Route) { route.Garbled? || route.Blank? || route == Scan(false) }

  datatype ExitReason = TimeExit | Unprotected

  datatype Leg = Limit | Market

  /** The client order id of a buy-back: the row, the reason and the leg, nothing else. */
  datatype ExitId = ExitId(row: nat, reason: ExitReason, leg: Leg)

  /** How one order of a buy-back is answered: the answer is read, or lost, or a success
      that is no order (landed or not), or the pass dies on it once it has landed. */
  datatype Hearing = Heard | Lost | Blurred(lands: bool) | Dies

  /** What the venue is like while a position is bought back: whether the ticker has an
      ask, and how each order is answered and how much it may fill. */
  datatype Mood = Mood(asked: bool, limit: Hearing, market: Hearing, limitDepth: nat, marketDepth: nat)

  /** The size held, or the total, of one product. */
  function Pos(m: map<int, int>, product: int): int { if product in m then m[product] else 0 }

  /** Positions move toward flat, if at all. */
  ghost predicate Shrunk(was: map<int, int>, now: map<int, int>) {
    forall p :: if Pos(was, p) < 0 then Pos(was, p) <= Pos(now, p) <= 0 else 0 <= Pos(now, p) <= Pos(was, p)
  }

  ghost predicate StaysFlat(was: map<int, int>, now: map<int, int>) {
    forall p :: Pos(was, p) == 0 ==> Pos(now, p) == 0
  }

  ghost predicate Grown(was: map<int, int>, now: map<int, int>) {
    forall p :: Pos(was, p) <= Pos(now, p)
  }

  /** No position is long. */
  ghost predicate Short(position: map<int, int>) { forall p :: Pos(position, p) <= 0 }

  /** Flat, as far as this pass could see: a size read off an answer that is no position
      reads as flat, and is remembered in `misread`. */
  ghost predicate Flat(position: map<int, int>, misread: set<int>, product: int) {
    Pos(position, product) == 0 || product in misread
  }

  /** Flat, or seen behind a stop, or the account guarded. */
  ghost predicate Safe(product: int, position: map<int, int>, misread: set<int>, stopSeen: map<int, bool>,
                       guarded: bool) {
    Flat(position, misread, product) || (product in stopSeen && stopSeen[product]) || guarded
  }

  /** The row is open, or closed over a flat position. */
  ghost predicate Standing(r: Row, position: map<int, int>, misread: set<int>) {
    r.product.Some? && (r.status.Open? || (r.status.Closed? && Flat(position, misread, r.product.value)))
  }

  /** What a lookup's answer makes of a row that was SENDING. */
  ghost predicate Resolved(r: Row, answer: Found, position: map<int, int>, misread: set<int>,
                           stopSeen: map<int, bool>, guarded: bool)
  {
    match answer
    case LookupFailed => r.status.Sending? && guarded
    case Missing => r.status.Failed?
    case NoOrder => r.status.Failed?
    case Order(n) => if n == 0 then r.status.Failed?
                     else Standing(r, position, misread) && Safe(r.product.value, position, misread, stopSeen, guarded)
  }

  /** What a completed reconcile has made of a row. */
  ghost predicate Settled(was: Row, r: Row, found: map<Key, Found>, position: map<int, int>, misread: set<int>,
                          stopSeen: map<int, bool>, guarded: bool)
  {
    && r.key == was.key && r.product == was.product
    && (was.status.Sending?
        ==> was.key in found && Resolved(r, found[was.key], position, misread, stopSeen, guarded))
    && (was.status.Open?
        ==> Standing(r, position, misread) && Safe(r.product.value, position, misread, stopSeen, guarded))
    && (!Active(was) ==> r == was)
  }

  /** Only this product's stop has been read anew. */
  ghost predicate OnlyStop(s: map<int, bool>, t: map<int, bool>, product: int) {
    forall p :: p != product ==> ((p in s && s[p]) <==> (p in t && t[p]))
  }

  /** A settled row stays settled while positions shrink and another product's stop is read. */
  lemma SettledStays(was: Row, r: Row, f: map<Key, Found>, g: map<Key, Found>, p: map<int, int>, q: map<int, int>,
                     m: set<int>, n: set<int>, s: map<int, bool>, t: map<int, bool>, a: bool, b: bool, product: int)
    requires Settled(was, r, f, p, m, s, a) && StaysFlat(p, q) && m <= n && (a ==> b)
    requires was.status.Sending? && was.key in f ==> was.key in g && g[was.key] == f[was.key]
    requires OnlyStop(s, t, product) && (s == t || Safe(product, q, n, t, b))
    ensures Settled(was, r, g, q, n, t, b)
  {
  }

  // ---------------------------------------------------------------- a buy-back, alone

  predicate Unused(exits: map<ExitId, int>, i: nat, reason: ExitReason) {
    ExitId(i, reason, Limit) !in exits && ExitId(i, reason, Market) !in exits
  }

  /** No other row's or reason's client ids have come into use. */
  ghost predicate OnlyIds(exits: map<ExitId, int>, later: map<ExitId, int>, i: nat, reason: ExitReason) {
    exits.Keys <= later.Keys <= exits.Keys + {ExitId(i, reason, Limit), ExitId(i, reason, Market)}
  }

  /** An order of the buy-back is declined for its known id, and the refusal is read. */
  predicate Declined(exits: map<ExitId, int>, id: ExitId, hearing: Hearing) { hearing.Heard? && id in exits }

  /** One order will be declined if it comes to it; the limit order comes first. */
  predicate Spent(exits: map<ExitId, int>, i: nat, reason: ExitReason, mood: Mood) {
    || (mood.asked && Declined(exits, ExitId(i, reason, Limit), mood.limit))
    || Declined(exits, ExitId(i, reason, Market), mood.market)
  }

  predicate AllHeard(mood: Mood) { mood.limit.Heard? && mood.market.Heard? }

  /** No answer is lost. */
  predicate Plain(mood: Mood) { !mood.limit.Lost? && !mood.market.Lost? }

  predicate Tells(told: set<ExitId>, exits: map<ExitId, int>, id: ExitId) {
    id in told && id in exits && exits[id] != 0
  }

  /** One of the two orders, its row read, holds a fill. */
  predicate ToldOf(told: set<ExitId>, exits: map<ExitId, int>, i: nat, reason: ExitReason) {
    Tells(told, exits, ExitId(i, reason, Limit)) || Tells(told, exits, ExitId(i, reason, Market))
  }

  /** What one order of a buy-back comes to: contracts filled, whether the pass ends on
      it, and whether its answer tells a fill. */
  datatype Traded = Traded(fill: nat, dies: bool, told: bool)

  function TradeLeg(exits: map<ExitId, int>, id: ExitId, hearing: Hearing, depth: nat, held: nat): Traded {
    if held == 0 then Traded(0, false, false)
    else
      var lands := id !in exits && hearing != Blurred(false);
      var fill := if lands then MinInt(held, depth) else 0;
      Traded(fill, hearing.Dies? || Declined(exits, id, hearing), hearing.Heard? && fill > 0)
  }

  /** What a buy-back comes to while nothing else happens: the position it leaves,
      whether it ends the pass, whether it is told of a fill, and the ids in use. */
  datatype Deal = Deal(position: int, dies: bool, told: bool, limitKnown: bool, marketKnown: bool)

  function Dealt(exits: map<ExitId, int>, i: nat, reason: ExitReason, mood: Mood, held: nat): (d: Deal)
    ensures -(held as int) <= d.position <= 0
  {
    var limit, market := ExitId(i, reason, Limit), ExitId(i, reason, Market);
    var first := TradeLeg(exits, limit, mood.limit, mood.limitDepth, if mood.asked then held else 0);
    var left := held - first.fill;
    var second := TradeLeg(exits, market, mood.market, mood.marketDepth, if first.dies then 0 else left);
    Deal(second.fill - left, first.dies || second.dies, first.told || second.told,
         limit in exits || (mood.asked && held > 0 && mood.limit != Blurred(false)),
         market in exits || (!first.dies && left > 0 && mood.market != Blurred(false)))
  }

  /** What is known of buy-backs: the ids in use with their fills, what this pass has
      bought, and the ids whose rows it has read. */
  datatype Books = Books(exits: map<ExitId, int>, bought: map<int, int>, told: set<ExitId>)

  /** One order: an id the venue knows buys nothing, and is declined if its answer is read;
      what it tells is the fill of its row when that was read, and else nothing. */
  ghost predicate OrderSpec(a: Books, b: Books, id: ExitId, product: int, hearing: Hearing, o: Outcome<int>) {
    && a.exits.Keys <= b.exits.Keys <= a.exits.Keys + {id} && (forall d :: d in a.exits ==> b.exits[d] == a.exits[d])
    && Pos(a.bought, product) <= Pos(b.bought, product)
    && (id in a.exits ==> b.exits == a.exits && b.bought == a.bought)
    && (Declined(a.exits, id, hearing) ==> o.Aborted?)
    && (id !in a.exits && o.Done? && hearing.Heard? ==> Pos(b.bought, product) == Pos(a.bought, product) + o.value)
    && a.told <= b.told <= a.told + {id} && (o.Done? && hearing.Heard? ==> id in b.told)
    && (o.Done? ==> o.value == (if id in b.told && id in b.exits then b.exits[id] else 0))
  }

  /** One order, while nothing else happens, came to its trade. */
  ghost predicate OrderWent(exits: map<ExitId, int>, later: map<ExitId, int>, id: ExitId, hearing: Hearing, depth: nat,
                            size: nat, now: int, o: Outcome<int>)
  {
    var t := TradeLeg(exits, id, hearing, depth, size);
    && (o.Aborted? <==> t.dies) && (o.Done? ==> (o.value != 0 <==> t.told)) && now == t.fill - size
    && (id in later <==> id in exits || hearing != Blurred(false))
    && later.Keys <= exits.Keys + {id} && exits.Keys <= later.Keys
  }

  /** One leg: at most its own id comes into use. It tells a fill exactly when its row was
      read and holds one; it ends the pass when its order is declined for a known id. */
  ghost predicate LegSpec(a: Books, b: Books, id: ExitId, product: int, size: nat, used: bool, hearing: Hearing,
                          o: Outcome<(bool, int)>)
  {
    && a.exits.Keys <= b.exits.Keys <= a.exits.Keys + {id} && (forall d :: d in a.exits ==> b.exits[d] == a.exits[d])
    && a.told <= b.told <= a.told + {id} && Pos(a.bought, product) <= Pos(b.bought, product)
    && (o.Done? ==> o.value.1 >= 0 && (o.value.0 <==> Tells(b.told, b.exits, id)))
    && (id !in a.exits && o.Done? && hearing.Heard?
        ==> (o.value.0 <==> Pos(b.bought, product) > Pos(a.bought, product)))
    && (size == 0 ==> o == Done((false, 0)) && b.bought == a.bought)
    && (used && id in a.exits ==> b.bought == a.bought)
    && (used && size != 0 && Declined(a.exits, id, hearing) ==> o.Aborted?)
    && (!used ==> b.bought == a.bought && b.exits == a.exits)
  }

  /** Both legs. It tells a fill exactly when one of its two rows was read and holds one.
      With its ids unused and every answer read, that is when something was bought. With
      an order declined for a known id it completes only with nothing left to buy. */
  ghost predicate BackSpec(a: Books, b: Books, i: nat, reason: ExitReason, product: int, mood: Mood,
                           o: Outcome<(bool, int)>)
  {
    && OnlyIds(a.exits, b.exits, i, reason)
    && (o.Done? ==> o.value.1 >= 0 && (o.value.0 <==> ToldOf(b.told, b.exits, i, reason)))
    && (Unused(a.exits, i, reason) && AllHeard(mood) && o.Done?
        ==> (o.value.0 <==> Pos(b.bought, product) > Pos(a.bought, product)))
    && (Spent(a.exits, i, reason, mood) && o.Done? ==> o.value.1 == 0)
    && (mood.asked && Declined(a.exits, ExitId(i, reason, Limit), mood.limit) ==> b.bought == a.bought)
  }

  /** The id's row has not been read yet. */
  predicate Untold(a: Books, i: nat, reason: ExitReason) {
    ExitId(i, reason, Limit) !in a.told && ExitId(i, reason, Market) !in a.told
  }

  lemma OrderDies(a: Books, id: ExitId, product: int, hearing: Hearing)
    ensures OrderSpec(a, a, id, product, hearing, Aborted)
  {
  }

  lemma OrderOnlyLater(a: Books, b: Books, id: ExitId, product: int, hearing: Hearing, o: Outcome<int>)
    ensures OrderSpec(a, b, id, product, hearing, o) ==> OrderSpec(a, b, id, product, hearing, Aborted)
  {
  }

  lemma OrderMakesLeg(a: Books, b: Books, id: ExitId, product: int, size: nat, hearing: Hearing, o: Outcome<int>,
                      left: nat)
    ensures OrderSpec(a, b, id, product, hearing, o) && size != 0 && id !in a.told
            ==> && LegSpec(a, b, id, product, size, true, hearing, Aborted)
                && LegSpec(a, b, id, product, size, true, hearing,
                           if o.Aborted? then Aborted else Done((o.value != 0, left)))
  {
  }

  lemma UnusedLeg(a: Books, id: ExitId, product: int, size: nat, used: bool, hearing: Hearing, left: nat)
    requires id !in a.told
    ensures size != 0 ==> LegSpec(a, a, id, product, size, used, hearing, Aborted)
    ensures size != 0 && !used ==> LegSpec(a, a, id, product, size, used, hearing, Done((false, left)))
    ensures size == 0 ==> LegSpec(a, a, id, product, size, used, hearing, Done((false, 0)))
  {
  }

  lemma OrderGoesLeg(exits: map<ExitId, int>, later: map<ExitId, int>, id: ExitId, hearing: Hearing, depth: nat,
                     size: nat, now: int, o: Outcome<int>)
    ensures OrderWent(exits, later, id, hearing, depth, size, now, o) && size != 0
            ==> && LegWent(exits, later, id, hearing, depth, true, -(size as int), now,
                           if o.Aborted? then Aborted else Done((o.value != 0, -now)))
                && -(size as int) <= now <= 0
  {
  }

  lemma UnusedLegWent(exits: map<ExitId, int>, id: ExitId, hearing: Hearing, depth: nat, size: nat)
    ensures LegWent(exits, exits, id, hearing, depth, false, -(size as int), -(size as int), Done((false, size)))
    ensures LegWent(exits, exits, id, hearing, depth, true, 0, 0, Done((false, 0)))
  {
  }

  lemma LegsMakeBack(a: Books, b: Books, c: Books, i: nat, reason: ExitReason, product: int, mood: Mood, size: nat,
                     o: Outcome<(bool, int)>, u: Outcome<(bool, int)>)
    ensures && LegSpec(a, b, ExitId(i, reason, Limit), product, size, mood.asked, mood.limit, o)
            && o.Done? && o.value.1 >= 0 && Untold(a, i, reason)
            && LegSpec(b, c, ExitId(i, reason, Market), product, o.value.1, true, mood.market, u)
            ==> BackSpec(a, c, i, reason, product, mood,
                         if u.Aborted? then Aborted else Done((o.value.0 || u.value.0, u.value.1)))
  {
  }

  lemma LegLeavesOther(a: Books, b: Books, id: ExitId, product: int, size: nat, used: bool, hearing: Hearing,
                       o: Outcome<(bool, int)>, other: ExitId)
    ensures LegSpec(a, b, id, product, size, used, hearing, o) && other != id && other !in a.told
            ==> other !in b.told && (o.Done? ==> o.value.1 >= 0)
  {
  }

  lemma LegMakesBack(a: Books, b: Books, i: nat, reason: ExitReason, product: int, mood: Mood, size: nat)
    ensures LegSpec(a, b, ExitId(i, reason, Limit), product, size, mood.asked, mood.limit, Aborted)
            ==> BackSpec(a, b, i, reason, product, mood, Aborted)
  {
  }

  lemma BackIgnoresTold(was: Books, a: Books, i: nat, reason: ExitReason, product: int, mood: Mood)
    requires was.exits == a.exits && was.bought == a.bought
    ensures forall b, o {:trigger BackSpec(a, b, i, reason, product, mood, o)} ::
              BackSpec(a, b, i, reason, product, mood, o) ==> BackSpec(was, b, i, reason, product, mood, o)
  {
  }

  lemma NothingMakesBack(a: Books, i: nat, reason: ExitReason, product: int, mood: Mood)
    ensures BackSpec(a, a, i, reason, product, mood, Aborted)
  {
  }

  /** One leg, while nothing else happens, came to its trade. */
  ghost predicate LegWent(exits: map<ExitId, int>, later: map<ExitId, int>, id: ExitId, hearing: Hearing, depth: nat,
                          used: bool, was: int, now: int, o: Outcome<(bool, int)>)
  {
    was <= 0 &&
    var t := TradeLeg(exits, id, hearing, depth, if used then -was else 0);
    && (o.Aborted? <==> t.dies) && (o.Done? ==> o.value == (t.told, -now)) && now == was + t.fill
    && (id in later <==> id in exits || (used && was < 0 && hearing != Blurred(false)))
    && later.Keys <= exits.Keys + {id} && exits.Keys <= later.Keys
  }

  /** A buy-back came to this deal. */
  ghost predicate Deals(d: Deal, exits: map<ExitId, int>, i: nat, reason: ExitReason, position: int, aborted: bool) {
    && (aborted <==> d.dies) && position == d.position
    && (ExitId(i, reason, Limit) in exits <==> d.limitKnown)
    && (ExitId(i, reason, Market) in exits <==> d.marketKnown)
  }

  /** The two legs make the deal, and so does a first one that ends the pass. */
  lemma LegsDeal(exits: map<ExitId, int>, e: map<ExitId, int>, f: map<ExitId, int>, i: nat, reason: ExitReason,
                 mood: Mood, was: int, mid: int, now: int, o: Outcome<(bool, int)>, u: Outcome<(bool, int)>)
    requires was <= 0
    ensures && LegWent(exits, e, ExitId(i, reason, Limit), mood.limit, mood.limitDepth, mood.asked, was, mid, o)
            && o.Done?
            && LegWent(e, f, ExitId(i, reason, Market), mood.market, mood.marketDepth, true, mid, now, u)
            ==> var d := Dealt(exits, i, reason, mood, -was);
                && Deals(d, f, i, reason, now, u.Aborted?)
                && (u.Done? ==> d.told == (o.value.0 || u.value.0) && d.position == -u.value.1)
  {
  }

  lemma LegEndsDeal(exits: map<ExitId, int>, e: map<ExitId, int>, i: nat, reason: ExitReason, mood: Mood, was: int,
                    mid: int)
    requires was <= 0
    ensures LegWent(exits, e, ExitId(i, reason, Limit), mood.limit, mood.limitDepth, mood.asked, was, mid, Aborted)
            ==> Deals(Dealt(exits, i, reason, mood, -was), e, i, reason, mid, true)
  {
  }

  /** What a leg tells is still open is the position it leaves. */
  lemma LegLeaves(exits: map<ExitId, int>, e: map<ExitId, int>, id: ExitId, hearing: Hearing, depth: nat, used: bool,
                  was: int, now: int, o: Outcome<(bool, int)>)
    ensures LegWent(exits, e, id, hearing, depth, used, was, now, o) && o.Done? ==> now == -o.value.1
  {
  }

  /** With every answer read, a buy-back ends the pass exactly when the position is held
      and its limit order is sent under a known id, or leaves something for a market
      order whose id is known. */
  predicate Stranded(exits: map<ExitId, int>, i: nat, reason: ExitReason, mood: Mood, held: nat) {
    && held > 0
    && ((mood.asked && ExitId(i, reason, Limit) in exits)
        || (ExitId(i, reason, Market) in exits && (mood.asked ==> mood.limitDepth < held)))
  }

  lemma DealDiesIff(exits: map<ExitId, int>, i: nat, reason: ExitReason, mood: Mood, held: nat)
    requires AllHeard(mood)
    ensures Dealt(exits, i, reason, mood, held).dies <==> Stranded(exits, i, reason, mood, held)
    ensures Dealt(exits, i, reason, mood, held).dies ==> Dealt(exits, i, reason, mood, held).position < 0
    ensures Unused(exits, i, reason)
            ==> (Dealt(exits, i, reason, mood, held).told
                 <==> Dealt(exits, i, reason, mood, held).position > -(held as int))
  {
  }

  lemma FirstStrands(exits: map<ExitId, int>, i: nat, held: nat)
    ensures held >= 2 && Unused(exits, i, Unprotected)
            ==> Dealt(exits, i, Unprotected, Mood(true, Dies, Heard, 1, 0), held)
                == Deal(1 - held, true, false, true, false)
  {
  }

  lemma SecondStrands(exits: map<ExitId, int>, i: nat, held: nat)
    ensures held >= 1 && ExitId(i, Unprotected, Limit) in exits
            ==> var d := Dealt(exits, i, Unprotected, Mood(true, Heard, Heard, 1, 0), held);
                d.dies && d.position == -(held as int) && d.limitKnown
  {
  }

  /** Nothing held, nothing traded. */
  lemma DealOfNothing(exits: map<ExitId, int>, i: nat, reason: ExitReason, mood: Mood)
    ensures Deals(Dealt(exits, i, reason, mood, 0), exits, i, reason, 0, false)
  {
  }

  /** With free ids and every answer read, a buy-back completes. */
  lemma FreeDealCompletes(exits: map<ExitId, int>, later: map<ExitId, int>, i: nat, reason: ExitReason, mood: Mood,
                          held: nat, position: int, aborted: bool)
    ensures && AllHeard(mood) && Unused(exits, i, reason)
            && Deals(Dealt(exits, i, reason, mood, held), later, i, reason, position, aborted)
            ==> !aborted
  {
    if AllHeard(mood) { DealDiesIff(exits, i, reason, mood, held); }
  }

  /** Bought back in full by an order whose success is no order: nothing filled is told. */
  lemma UnreadDeal(i: nat, reason: ExitReason, held: nat)
    requires held > 0
    ensures Dealt(map[], i, reason, Mood(true, Blurred(true), Heard, held, 0), held) 
            == Deal(0, false, false, true, false)
  {
  }

  /** A first pass that dies on a limit order partly filled, and one that finds no ask and
      fills part at market, each leave ids on which the next buy-back ends its pass. */
  lemma TwoWaysToStrand(i: nat, reason: ExitReason)
    ensures Dealt(map[], i, reason, Mood(true, Dies, Heard, 1, 0), 3) == Deal(-2, true, false, true, false)
    ensures Dealt(map[], i, reason, Mood(false, Heard, Heard, 0, 1), 3) == Deal(-2, false, true, false, true)
    ensures Stranded(map[ExitId(i, reason, Limit) := 1], i, reason, Mood(true, Heard, Heard, 5, 5), 2)
    ensures Stranded(map[ExitId(i, reason, Market) := 1], i, reason, Mood(true, Heard, Heard, 1, 5), 2)
    ensures !Spent(map[ExitId(i, reason, Market) := 1], i, reason, Mood(true, Heard, Lost, 1, 5))
  {
  }

  // ---------------------------------------------------------------- steps

  /** What the relations between two moments of a pass read. */
  datatype Moment = Moment(status: Option<Status>, touched: bool, reopened: bool, deeds: seq<Deed>, flat: set<int>,
                           misread: set<int>, position: map<int, int>, bought: map<int, int>, size: nat,
                           ids: set<ExitId>, quiet: bool)

  /** The status is written only in the log's sight, and a shut account reopened only by an owner. */
  ghost predicate Oversees(a: Moment, b: Moment) {
    && a.deeds <= b.deeds && After(b.deeds).posts == After(a.deeds).posts
    && (a.status.Some? ==> b.status.Some?)
    && (a.touched ==> b.touched) && (a.reopened ==> b.reopened)
    && (Shut(a.status) ==> Shut(b.status) || b.reopened)
    && (a.status == Some(Stopped) ==> b.status == Some(Stopped) || b.reopened)
    && a.misread <= b.misread
  }

  /** What happens at an await: positions shrink, other processes write the status. */
  ghost predicate Elapses(a: Moment, b: Moment) {
    && Oversees(a, b) && Shrunk(a.position, b.position)
    && (b.status == a.status || b.touched)
    && (b.status == Some(Stopped) ==> a.status == Some(Stopped))
    && (b.status == Some(Halted) ==> a.status == Some(Halted))
    && (After(a.deeds).entitled ==> After(b.deeds).entitled)
    && (After(a.deeds).clean ==> After(b.deeds).clean)
  }

  /** What no step of reconciling and exiting undoes. */
  ghost predicate Advances(a: Moment, b: Moment) {
    && Oversees(a, b) && Shrunk(a.position, b.position) && Grown(a.bought, b.bought)
    && (After(a.deeds).clean ==> After(b.deeds).clean)
    && a.flat <= b.flat && (a.quiet ==> b.misread == a.misread) && a.quiet == b.quiet
    && a.size == b.size && a.ids <= b.ids
  }

  /** What posting an entry may change. */
  ghost predicate Sends(a: Moment, b: Moment, k: Key, product: int) {
    && a.deeds <= b.deeds && a.misread <= b.misread
    && (After(b.deeds).posts == After(a.deeds).posts || After(b.deeds).posts == After(a.deeds).posts + [k])
    && (a.status.Some? ==> b.status.Some?)
    && (a.touched ==> b.touched) && (a.reopened ==> b.reopened)
    && (Shut(a.status) ==> Shut(b.status) || b.reopened)
    && (a.status == Some(Stopped) ==> b.status == Some(Stopped) || b.reopened)
    && (After(a.deeds).clean ==> After(b.deeds).clean)
    && (After(b.deeds).posts == After(a.deeds).posts ==> StaysFlat(a.position, b.position))
    && (forall p :: p != product && Pos(a.position, p) == 0 ==> Pos(b.position, p) == 0)
  }

  /** An await before the order changes nothing of it, and neither does one after. */
  lemma AwaitSends(a: Moment, b: Moment, k: Key, product: int)
    ensures Elapses(a, b)
            ==> && Sends(a, b, k, product) && (After(a.deeds).entitled ==> After(b.deeds).entitled)
                && After(b.deeds).posts == After(a.deeds).posts && StaysFlat(a.position, b.position)
                && a.misread <= b.misread
  {
    hide After;
  }

  lemma SendsBetween(a: Moment, b: Moment, c: Moment, d: Moment, k: Key, product: int)
    ensures Elapses(a, b) && Sends(b, c, k, product) && Elapses(c, d)
            ==> && Sends(a, d, k, product) && (After(c.deeds).entitled ==> After(d.deeds).entitled)
                && After(d.deeds).posts == After(c.deeds).posts
  {
    hide After;
  }

  lemma ElapsesNothing(a: Moment)
    ensures Elapses(a, a) && Advances(a, a)
  {
  }

  lemma WellEnters(a: Scene, b: Scene)
    ensures EntersWell(a, b)
            ==> Enters(a, b) && (GuardedAt(a) ==> GuardedAt(b))
  {
  }

  lemma AwaitKeepsOpen(a: Moment, b: Moment)
    ensures Elapses(a, b) && !Shut(a.status)
            ==> !Shut(b.status)
  {
    hide After;
  }

  lemma AdvanceKeepsPosts(a: Moment, b: Moment)
    ensures Advances(a, b)
            ==> After(b.deeds).posts == After(a.deeds).posts
  {
    hide After;
  }

  lemma AwaitSent(a: Moment, b: Moment, c: Moment, k: Key, product: int)
    ensures (Elapses(a, b) || Advances(a, b)) && (Elapses(b, c) || Advances(b, c))
            ==> Sends(a, c, k, product) && After(c.deeds).posts == After(a.deeds).posts
  {
    hide After;
  }

  lemma AwaitThenSends(a: Moment, b: Moment, c: Moment, k: Key, product: int)
    ensures (Elapses(a, b) || Advances(a, b)) && Sends(b, c, k, product)
            ==> Sends(a, c, k, product)
  {
    hide After;
  }

  lemma SentAfter(a: Moment, b: Moment, c: Moment, k: Key, product: int)
    ensures Sends(a, b, k, product) && Sends(b, c, k, product) && After(b.deeds).posts == After(a.deeds).posts
            ==> Sends(a, c, k, product)
  {
    hide After;
  }

  lemma SentStatus(a: Moment, b: Moment, k: Key, product: int)
    ensures Sends(a, b, k, product) && a.status.Some?
            ==> b.status.Some?
  {
    hide After;
  }

  lemma FlatAgain(a: Moment, b: Moment, k: Key, product: int)
    ensures Sends(a, b, k, product) && Pos(b.position, product) == 0
            ==> StaysFlat(a.position, b.position)
  {
  }

  lemma SendsThen(a: Moment, b: Moment, c: Moment, k: Key, product: int)
    ensures Sends(a, b, k, product) && Advances(b, c)
            ==> && Sends(a, c, k, product) && After(c.deeds).posts == After(b.deeds).posts
                && (StaysFlat(a.position, b.position) ==> StaysFlat(a.position, c.position))
                && (a.status.Some? ==> b.status.Some? && c.status.Some?)
  {
    hide After;
  }

  /** The order's fill, and nothing else, has come off the product's position. */
  ghost predicate Landed(was: map<int, int>, now: map<int, int>, product: int, fill: nat) {
    forall p :: Pos(now, p) == Pos(was, p) - if p == product then fill else 0
  }

  lemma NothingLands(a: Moment, b: Moment, c: Moment, d: Moment, product: int)
    ensures Elapses(a, b) && Elapses(c, d) && Landed(b.position, c.position, product, 0)
            ==> StaysFlat(a.position, d.position)
  {
    hide After;
  }

  /** The part of it a buy-back needs. */
  lemma AdvancesCompose()
    ensures forall a, b, c {:trigger Advances(a, b), Advances(b, c)} ::
              Advances(a, b) && Advances(b, c) ==> Advances(a, c)
    ensures forall a {:trigger Advances(a, a)} :: Advances(a, a)
    ensures forall a, b {:trigger Advances(a, b)} :: Advances(a, b) ==> (a.touched ==> b.touched) && a.flat <= b.flat
    ensures forall a, b, p {:trigger Advances(a, b), Pos(b.bought, p)} ::
              Advances(a, b) ==> Pos(a.bought, p) <= Pos(b.bought, p)
  {
    hide After;
  }

  /** The part of it reconciling and exiting need. */
  lemma ReconcilesCompose()
    ensures forall a, b, c {:trigger Advances(a, b), Advances(b, c)} ::
              Advances(a, b) && Advances(b, c) ==> Advances(a, c)
    ensures forall a {:trigger Advances(a, a)} :: Advances(a, a)
    ensures forall a, b {:trigger Advances(a, b)} :: Advances(a, b)
              ==> && (a.status.Some? ==> b.status.Some?) && (a.touched ==> b.touched) && (a.reopened ==> b.reopened)
                  && (Shut(a.status) || a.reopened ==> Shut(b.status) || b.reopened)
                  && a.flat <= b.flat && a.misread <= b.misread && a.size == b.size
                  && (a.quiet ==> b.misread == a.misread)
    ensures forall a, b, p {:trigger Advances(a, b), Pos(b.position, p)} ::
              Advances(a, b) ==> (Pos(a.position, p) == 0 ==> Pos(b.position, p) == 0)
                                 && (Pos(a.position, p) <= 0 ==> Pos(a.position, p) <= Pos(b.position, p) <= 0)
    ensures forall a, b {:trigger Advances(a, b), Short(a.position)} ::
              Advances(a, b) && Short(a.position) ==> Short(b.position)
  {
    hide After;
  }

  /** The relations hold of no step and compose, so that a method need not look inside them. */
  lemma StepsCompose()
    ensures forall a, b, c {:trigger Oversees(a, b), Oversees(b, c)} ::
              Oversees(a, b) && Oversees(b, c) ==> Oversees(a, c)
    ensures forall a, b, c {:trigger Elapses(a, b), Elapses(b, c)} :: Elapses(a, b) && Elapses(b, c) ==> Elapses(a, c)
    ensures forall a, b, c {:trigger Advances(a, b), Advances(b, c)} ::
              Advances(a, b) && Advances(b, c) ==> Advances(a, c)
    ensures forall a, b, c {:trigger Shrunk(a, b), Shrunk(b, c)} :: Shrunk(a, b) && Shrunk(b, c) ==> Shrunk(a, c)
    ensures forall a {:trigger Oversees(a, a)} :: Oversees(a, a)
    ensures forall a {:trigger Elapses(a, a)} :: Elapses(a, a)
    ensures forall a {:trigger Advances(a, a)} :: Advances(a, a)
    ensures forall a {:trigger Shrunk(a, a)} :: Shrunk(a, a)
    ensures forall a, b {:trigger Oversees(a, b)} :: Oversees(a, b)
              ==> && a.deeds <= b.deeds && After(b.deeds).posts == After(a.deeds).posts
                  && (a.status.Some? ==> b.status.Some?) && (a.touched ==> b.touched) && (a.reopened ==> b.reopened)
                  && (Shut(a.status) ==> Shut(b.status) || b.reopened)
                  && (a.status == Some(Stopped) ==> b.status == Some(Stopped) || b.reopened)
    ensures forall a, b {:trigger Elapses(a, b)} :: Elapses(a, b)
              ==> && Oversees(a, b) && Shrunk(a.position, b.position) && (b.status == a.status || b.touched)
                  && (b.status == Some(Stopped) ==> a.status == Some(Stopped))
                  && (b.status == Some(Halted) ==> a.status == Some(Halted))
                  && (After(a.deeds).entitled ==> After(b.deeds).entitled)
                  && (After(a.deeds).clean ==> After(b.deeds).clean)
    ensures forall a, b {:trigger Advances(a, b)} :: Advances(a, b)
              ==> && Oversees(a, b) && a.flat <= b.flat && a.misread <= b.misread && a.size == b.size && a.ids <= b.ids
                  && (a.quiet ==> b.misread == a.misread) && Shrunk(a.position, b.position)
                  && (After(a.deeds).clean ==> After(b.deeds).clean)
    ensures forall a, b, p {:trigger Shrunk(a, b), Pos(b, p)} :: Shrunk(a, b) && Pos(a, p) == 0 ==> Pos(b, p) == 0
    ensures forall a, b, p {:trigger Shrunk(a, b), Pos(b, p)} ::
              Shrunk(a, b) && Pos(a, p) <= 0 ==> Pos(a, p) <= Pos(b, p) <= 0
    ensures forall a, b, p {:trigger Advances(a, b), Pos(b.bought, p)} ::
              Advances(a, b) ==> Pos(a.bought, p) <= Pos(b.bought, p)
    ensures forall a, b {:trigger Shrunk(a, b), Short(a)} :: Shrunk(a, b) && Short(a) ==> Short(b)
  {
    hide After;
  }

  // ---------------------------------------------------------------- entries

  /** What the entry half of a pass is judged by. */
  datatype Scene = Scene(at: Moment, rows: seq<Row>, answers: map<Key, Sent>, stopSeen: map<int, bool>)

  ghost predicate GuardedAt(s: Scene) { Shut(s.at.status) || s.at.reopened }

  ghost predicate SafeAt(s: Scene, product: int) {
    Safe(product, s.at.position, s.at.misread, s.stopSeen, GuardedAt(s))
  }

  /** What an entry keeps, completed or not: rows are only added, nothing heard of them
      is forgotten, and a shut account is reopened only by an owner. */
  ghost predicate Enters(a: Scene, b: Scene) {
    && a.rows <= b.rows && HeardStays(a.rows, a.answers, b.answers)
    && a.at.deeds <= b.at.deeds && a.at.misread <= b.at.misread
    && (a.at.status.Some? ==> b.at.status.Some?)
    && (a.at.touched ==> b.at.touched) && (a.at.reopened ==> b.at.reopened)
    && (Shut(a.at.status) ==> Shut(b.at.status) || b.at.reopened)
    && (a.at.status == Some(Stopped) ==> b.at.status == Some(Stopped) || b.at.reopened)
    && (After(a.at.deeds).clean ==> After(b.at.deeds).clean)
  }

  /** And completed: every product that was protected still is, and every new position has
      an active row, unless its entry went unheard or its size was misread; and every new
      open position is protected, unless unheard again. */
  ghost predicate EntersWell(a: Scene, b: Scene) {
    && Enters(a, b)
    && (forall p :: SafeAt(a, p) ==> SafeAt(b, p) || Unheard(|a.rows|, b.rows, b.answers, p))
    && (forall p :: Pos(b.at.position, p) != 0
          ==> || Pos(a.at.position, p) != 0 || GuardedAt(b) || Owned(b.rows, p)
              || Unheard(|a.rows|, b.rows, b.answers, p) || p in b.at.misread)
    && (forall i :: |a.rows| <= i < |b.rows| && b.rows[i].status.Open?
          ==> b.rows[i].product.Some? && (SafeAt(b, b.rows[i].product.value)
                                          || Unheard(|a.rows|, b.rows, b.answers, b.rows[i].product.value)))
  }

  lemma UnheardStays(n: nat, m: nat, rows: seq<Row>, later: seq<Row>, was: map<Key, Sent>, now: map<Key, Sent>,
                     product: int)
    requires n <= m <= |rows| && rows <= later && HeardStays(rows, was, now)
    ensures Unheard(n, rows, was, product) ==> Unheard(n, later, now, product)
    ensures Unheard(m, later, now, product) ==> Unheard(n, later, now, product)
    ensures Owned(rows, product) ==> Owned(later, product)
  {
    if Unheard(n, rows, was, product) {
      var i :| && n <= i < |rows| && rows[i].status.Skipped? && rows[i].product == Some(product)
               && rows[i].key in was && was[rows[i].key].Unread?;
      assert later[i] == rows[i];
    }
    if Owned(rows, product) {
      var i :| 0 <= i < |rows| && Active(rows[i]) && rows[i].product == Some(product);
      assert later[i] == rows[i];
    }
  }

  lemma EntersCompose(a: Scene, b: Scene, c: Scene)
    ensures Enters(a, b) && Enters(b, c)
            ==> && Enters(a, c)
                && (EntersWell(a, b) && EntersWell(b, c) ==> EntersWell(a, c))
  {
    if Enters(a, b) && Enters(b, c) {
      hide After, Unheard, Owned, SafeAt;
      assert HeardStays(a.rows, a.answers, c.answers) by {
        forall i | 0 <= i < |a.rows| ensures a.rows[i] == b.rows[i] {}
      }
      if EntersWell(a, b) && EntersWell(b, c) {
        forall p | Pos(c.at.position, p) != 0
          ensures || Pos(a.at.position, p) != 0 || GuardedAt(c) || Owned(c.rows, p)
                  || Unheard(|a.rows|, c.rows, c.answers, p) || p in c.at.misread
        {
          UnheardStays(|a.rows|, |b.rows|, b.rows, c.rows, b.answers, c.answers, p);
        }
        forall p | SafeAt(a, p) ensures SafeAt(c, p) || Unheard(|a.rows|, c.rows, c.answers, p) {
          UnheardStays(|a.rows|, |b.rows|, b.rows, c.rows, b.answers, c.answers, p);
        }
        forall i | |a.rows| <= i < |c.rows| && c.rows[i].status.Open?
          ensures c.rows[i].product.Some? && (SafeAt(c, c.rows[i].product.value)
                                              || Unheard(|a.rows|, c.rows, c.answers, c.rows[i].product.value))
        {
          if i < |b.rows| { assert c.rows[i] == b.rows[i]; }
          UnheardStays(|a.rows|, |b.rows|, b.rows, c.rows, b.answers, c.answers, c.rows[i].product.value);
        }
      }
    }
  }

  /** An await, a reading or a write that adds at most a row that is not open. */
  lemma StepEnters(a: Scene, b: Scene)
    ensures && (Elapses(a.at, b.at) || Advances(a.at, b.at))
            && a.rows <= b.rows && b.answers == a.answers && b.stopSeen == a.stopSeen
            && (forall i :: |a.rows| <= i < |b.rows| ==> !b.rows[i].status.Open?)
            ==> EntersWell(a, b)
  {
    hide After, Owned, Unheard;
  }

  lemma EntersMeans(a: Scene, b: Scene)
    ensures Enters(a, b)
            ==> && a.rows <= b.rows && a.at.deeds <= b.at.deeds && (a.at.status.Some? ==> b.at.status.Some?)
                && (GuardedAt(a) ==> GuardedAt(b))
  {
  }

  /** A row was added, and its order sent. */
  ghost predicate Written(a: Scene, m: Scene, b: Scene, row: Row, product: int) {
    && Elapses(a.at, m.at) && m.rows == a.rows + [row] && m.answers == a.answers && m.stopSeen == a.stopSeen
    && Sends(m.at, b.at, row.key, product) && row.product == Some(product) && !HasRow(a.rows, row.key)
    && |b.rows| == |m.rows| && a.rows == b.rows[..|a.rows|]
    && b.rows[|a.rows|].key == row.key && b.rows[|a.rows|].product == row.product
    && (b.answers == m.answers || (row.key in b.answers && b.answers == m.answers[row.key := b.answers[row.key]]))
  }

  /** The row says what became of the order. */
  ghost predicate Booked(m: Scene, b: Scene, r: Row, product: int) {
    && OnlyStop(m.stopSeen, b.stopSeen, product) && (b.stopSeen == m.stopSeen || SafeAt(b, product))
    && (r.status.Open? ==> SafeAt(b, product))
    && (!r.status.Open? && !GuardedAt(b)
        ==> || StaysFlat(m.at.position, b.at.position) || product in b.at.misread
            || (r.status.Skipped? && r.key in b.answers && b.answers[r.key].Unread?))
  }

  lemma EntryEnters(a: Scene, m: Scene, b: Scene, row: Row, product: int)
    ensures Written(a, m, b, row, product)
            ==> Enters(a, b) && (Booked(m, b, b.rows[|a.rows|], product) ==> EntersWell(a, b))
  {
    if Written(a, m, b, row, product) {
      hide After;
      assert HeardStays(a.rows, a.answers, b.answers);
      var r := b.rows[|a.rows|];
      if Booked(m, b, r, product) {
        NewPositionHasRow(a, m, b, row, product);
        forall p | SafeAt(a, p) ensures SafeAt(b, p) || Unheard(|a.rows|, b.rows, b.answers, p) {
          if p == product && !r.status.Open? && Pos(b.at.position, p) != 0 && p !in b.at.misread {
            assert Pos(a.at.position, p) == 0 ==> Pos(m.at.position, p) == 0;
          }
        }
      }
    }
  }

  lemma NewPositionHasRow(a: Scene, m: Scene, b: Scene, row: Row, product: int)
    requires Elapses(a.at, m.at) && Sends(m.at, b.at, row.key, product)
    requires |b.rows| == |a.rows| + 1 && b.rows[|a.rows|].key == row.key && b.rows[|a.rows|].product == Some(product)
    requires var r := b.rows[|a.rows|];
             !r.status.Open? && !GuardedAt(b)
             ==> || StaysFlat(m.at.position, b.at.position) || product in b.at.misread
                 || (r.status.Skipped? && row.key in b.answers && b.answers[row.key].Unread?)
    ensures forall p :: Pos(b.at.position, p) != 0
              ==> || Pos(a.at.position, p) != 0 || GuardedAt(b) || Owned(b.rows, p)
                  || Unheard(|a.rows|, b.rows, b.answers, p) || p in b.at.misread
  {
    hide After;
    forall p | Pos(b.at.position, p) != 0 && Pos(a.at.position, p) == 0
      ensures GuardedAt(b) || Owned(b.rows, p) || Unheard(|a.rows|, b.rows, b.answers, p) || p in b.at.misread
    {
      assert Pos(m.at.position, p) == 0;
      var r := b.rows[|a.rows|];
      if p == product && r.status.Open? { assert Active(r); }
    }
  }

  /** Only client ids of this reason have come into use. */
  ghost predicate OnlyReason(exits: map<ExitId, int>, later: map<ExitId, int>, reason: ExitReason) {
    forall id :: id in later && id !in exits ==> id.reason == reason
  }

  predicate Active(r: Row) { r.status.Sending? || r.status.Open? }

  function ActiveCount(rows: seq<Row>): nat {
    if rows == [] then 0 else ActiveCount(rows[..|rows| - 1]) + if Active(rows[|rows| - 1]) then 1 else 0
  }

  /** The product belongs to a row sent or open. */
  ghost predicate Owned(rows: seq<Row>, product: int) {
    exists i :: 0 <= i < |rows| && Active(rows[i]) && rows[i].product == Some(product)
  }

  function IsOurs(rows: seq<Row>, product: int): (b: bool)
    ensures b <==> Owned(rows, product)
  {
    if rows == [] then false
    else
      var last := rows[|rows| - 1];
      if Active(last) && last.product == Some(product) then true
      else
        assert forall i :: 0 <= i < |rows| - 1 ==> rows[..|rows| - 1][i] == rows[i];
        IsOurs(rows[..|rows| - 1], product)
  }

  ghost predicate HasRow(rows: seq<Row>, k: Key) {
    exists i :: 0 <= i < |rows| && rows[i].key == k
  }

  lemma KeysStay(rows: seq<Row>, later: seq<Row>, k: Key)
    requires HasRow(rows, k) && |rows| <= |later| && forall i :: 0 <= i < |rows| ==> later[i].key == rows[i].key
    ensures HasRow(later, k)
  {
    var i :| 0 <= i < |rows| && rows[i].key == k;
    assert later[i].key == k;
  }

  function Known(rows: seq<Row>, k: Key): (b: bool)
    ensures b <==> HasRow(rows, k)
  {
    if rows == [] then false
    else if rows[|rows| - 1].key == k then true
    else
      assert forall i :: 0 <= i < |rows| - 1 ==> rows[..|rows| - 1][i] == rows[i];
      Known(rows[..|rows| - 1], k)
  }

  /** `to_tick`, rounding up or down. */
  function ToTick(price: real, tick: real, up: bool): real
    requires tick != 0.0
  {
    (if up then CeilReal(price / tick) else (price / tick).Floor) as real * tick
  }

  /** The paper stop's distance, as a share of the price. */
  function StopShare(pick: Pick): real { K_STOP * pick.atrp }

  function StopPrice(q: Quote, dist: real): real
    requires q.tick != 0.0
  {
    ToTick(q.bid * (1.0 + dist), q.tick, true)
  }

  method Listed(position: map<int, int>) returns (held: seq<Held>)
    ensures forall p :: p in position ==> Held(Some(p), position[p]) in held
  {
    held := [];
    var todo: set<int> := position.Keys;
    while exists p: int :: p in todo
      invariant todo <= position.Keys
      invariant forall p :: p in position && p !in todo ==> Held(Some(p), position[p]) in held
      decreases |todo|
    {
      var p: int :| p in todo;
      todo, held := todo - {p}, held + [Held(Some(p), position[p])];
    }
  }

  // ---------------------------------------------------------------- the table

  /** One row per (day, symbol), never more than MAX_OPEN active, every post behind a
      row, and no key posted twice. */
  ghost predicate TableValid(rows: seq<Row>, posts: seq<Key>, productOf: string -> int) {
    && (forall i, j :: 0 <= i < j < |rows| ==> rows[i].key != rows[j].key)
    && (forall i :: 0 <= i < |rows| && Active(rows[i]) ==> rows[i].product == Some(productOf(rows[i].key.symbol)))
    && ActiveCount(rows) <= MAX_OPEN
    && (forall i, j :: 0 <= i < j < |posts| ==> posts[i] != posts[j])
    && (forall k :: k in posts ==> HasRow(rows, k))
  }

  lemma TableGrows(rows: seq<Row>, row: Row, posts: seq<Key>, productOf: string -> int)
    requires TableValid(rows, posts, productOf) && !HasRow(rows, row.key)
    requires Active(row) ==> ActiveCount(rows) < MAX_OPEN && row.product == Some(productOf(row.key.symbol))
    ensures TableValid(rows + [row], posts, productOf)
  {
    assert (rows + [row])[..|rows|] == rows;
    forall k | k in posts ensures HasRow(rows + [row], k) { KeysStay(rows, rows + [row], k); }
  }

  lemma TableMoves(rows: seq<Row>, i: nat, row: Row, posts: seq<Key>, productOf: string -> int)
    requires TableValid(rows, posts, productOf) && i < |rows|
    requires row.key == rows[i].key && row.product == rows[i].product && (Active(row) ==> Active(rows[i]))
    ensures TableValid(rows[i := row], posts, productOf)
  {
    ActiveCountUpdate(rows, i, row);
    forall k | k in posts ensures HasRow(rows[i := row], k) { KeysStay(rows, rows[i := row], k); }
  }

  lemma TablePosts(rows: seq<Row>, i: nat, posts: seq<Key>, productOf: string -> int)
    requires TableValid(rows, posts, productOf) && i < |rows| && rows[i].key !in posts
    ensures TableValid(rows, posts + [rows[i].key], productOf)
  {
    assert HasRow(rows, rows[i].key);
  }

  /** A position with no active row: an order of that product, sent and filled, that the
      lookup of this pass did not find, or did not see to be filled. */
  ghost predicate Missed(before: seq<Row>, rows: seq<Row>, found: map<Key, Found>, product: int) {
    exists i :: && 0 <= i < |before| && i < |rows| && before[i].status.Sending? && before[i].product == Some(product)
                && rows[i].status.Failed? && before[i].key in found
                && found[before[i].key] in {Missing, NoOrder, Order(0)}
  }

  /** A position with no active row: an entry of this pass, answered with a success that
      is no order, and so recorded as not filled. */
  ghost predicate Unheard(before: nat, rows: seq<Row>, answers: map<Key, Sent>, product: int) {
    exists i :: && before <= i < |rows| && rows[i].status.Skipped? && rows[i].product == Some(product)
                && rows[i].key in answers && answers[rows[i].key].Unread?
  }

  /** What was heard of these rows' entries is still so. */
  ghost predicate HeardStays(rows: seq<Row>, was: map<Key, Sent>, now: map<Key, Sent>) {
    forall i :: 0 <= i < |rows| && rows[i].key in was ==> rows[i].key in now && now[rows[i].key] == was[rows[i].key]
  }

  /** As it was, or an open row still open or closed over a flat position. */
  ghost predicate ExitStep(was: Row, r: Row, position: map<int, int>, misread: set<int>) {
    r == was || (was.status.Open? && Standing(r, position, misread) && r.key == was.key && r.product == was.product)
  }

  lemma KeysDiffer(rows: seq<Row>, posts: seq<Key>, productOf: string -> int, i: nat)
    requires TableValid(rows, posts, productOf) && i < |rows|
    ensures forall j :: 0 <= j < |rows| && j != i ==> rows[j].key != rows[i].key
  {
  }

  class LiveFade {
    const productOf: string -> int
    const risk: real
    const startUsd: real

    // the database
    var rows: seq<Row>
    var status: Option<Status>
    // other processes: resumes that have read HALTED and not yet written
    var resuming: nat
    // the venue
    var position: map<int, int>
    var stops: set<int>
    var orders: map<Key, int>
    var exits: map<ExitId, int>
    // while set, nothing but the pass happens: no await dies, no answer is unreadable, no
    // position or bracket moves by itself, no other process runs
    const quiet: bool
    // the log
    ghost var deeds: seq<Deed>
    ghost var answers: map<Key, Sent>
    // what this pass has read and done
    ghost var flat: set<int>
    ghost var stopSeen: map<int, bool>
    ghost var closeSeen: map<int, Option<bool>>
    ghost var found: map<Key, Found>
    ghost var bought: map<int, int>
    // another process has written the status during this pass
    ghost var touched: bool
    // a resume has written over a shut account during this pass
    ghost var reopened: bool
    // this pass's readings of a position, or of all positions, that were answers but none
    ghost var misread: set<int>
    ghost var blind: bool
    // the buy-back orders whose rows this pass has read
    ghost var told: set<ExitId>

    /** Holds at every await, so at every crash. */
    ghost predicate Valid()
      reads this`rows, this`status, this`resuming, this`position, this`orders, this`deeds, this`answers, this`flat,
            this`misread
    {
      && TableValid(rows, After(deeds).posts, productOf)
      && (forall p :: p in flat ==> Flat(position, misread, p))
      && (forall k :: k in orders ==> k in After(deeds).posts)
      && LegalLog(deeds) && After(deeds).status == status && After(deeds).inFlight == resuming
      && (forall k :: k in answers ==> k in After(deeds).posts)
    }

    /** Shut, or an owner has reopened a shut account since the pass began. */
    ghost predicate Guarded()
      reads this`status, this`reopened
    {
      Shut(status) || reopened
    }

    /** Flat, as far as this pass could see. */
    ghost predicate ReadsFlat(product: int)
      reads this`position, this`misread
    {
      Flat(position, misread, product)
    }

    /** This pass last read the product's stop as resting. */
    ghost predicate StopShown(product: int)
      reads this`stopSeen
    {
      product in stopSeen && stopSeen[product]
    }

    /** Flat, or seen behind a stop by this pass, or the account guarded. */
    ghost predicate Protected(product: int)
      reads this`position, this`misread, this`stopSeen, this`status, this`reopened
    {
      Safe(product, position, misread, stopSeen, Guarded())
    }

    /** This pass last read the position as closed by its stop. */
    ghost predicate StoppedOut(product: int)
      reads this`closeSeen
    {
      product in closeSeen && closeSeen[product] == Some(true)
    }

    /** What happens at an await. */
    twostate predicate Elapsed()
      reads this
    {
      Elapses(old(Now()), Now())
    }

    ghost function Now(): Moment
      reads this`rows, this`status, this`position, this`exits, this`deeds, this`flat, this`misread, this`bought,
            this`touched, this`reopened
    {
      Moment(status, touched, reopened, deeds, flat, misread, position, bought, |rows|, exits.Keys, quiet)
    }

    /** The status is written only in the log's sight. */
    twostate predicate Overseen()
      reads this
    {
      Oversees(old(Now()), Now())
    }

    /** What no step of reconciling and exiting undoes. */
    twostate predicate Onward()
      reads this
    {
      Advances(old(Now()), Now())
    }

    /** Only row `i` has been touched, and not its identity. */
    twostate predicate OnlyRow(i: nat)
      reads this
      requires i < |old(rows)|
    {
      && |rows| == |old(rows)|
      && (forall j :: 0 <= j < |rows| && j != i ==> rows[j] == old(rows)[j])
      && rows[i].key == old(rows)[i].key && rows[i].product == old(rows)[i].product
    }

    /** Positions, brackets and the status are as they were. */
    twostate predicate Still()
      reads this
    {
      position == old(position) && stops == old(stops) && status == old(status)
    }

    constructor (productOf: string -> int, risk: real, startUsd: real, quiet: bool)
      ensures Valid() && rows == [] && status == None && deeds == []
    {
      this.productOf, this.risk, this.startUsd, this.quiet := productOf, risk, startUsd, quiet;
      rows, status, resuming := [], None, 0;
      position, stops, orders, exits := map[], {}, map[], map[];
      deeds, answers, flat, stopSeen, closeSeen, found, bought := [], map[], {}, map[], map[], map[], map[];
      touched, reopened, misread, blind, told := false, false, {}, false, {};
    }

    // ------------------------------------------------------------ other processes

    ghost predicate MayLog(d: Deed)
      reads this`deeds
    {
      LegalLog(deeds) && Allowed(After(deeds), d)
    }

    ghost method Log(d: Deed)
      requires MayLog(d)
      modifies this`deeds
      ensures LegalLog(deeds) && deeds == old(deeds) + [d] && After(deeds) == Next(After(old(deeds)), d)
    {
      LogSnoc(deeds, d);
      deeds := deeds + [d];
    }

    /** `record_off`: one statement, only over OFF, RUNNING or nothing. */
    method RecordOff()
      requires Valid()
      modifies this`status, this`deeds, this`touched
      ensures Valid() && Elapsed()
      ensures status == if Shut(old(status)) then old(status) else Some(Off)
    {
      hide TableValid, LegalLog, After;
      if status.None? || status.value.Off? || status.value.Running? {
        Log(Wrote(status, Off, Disabling));
        status, touched := Some(Off), true;
      }
    }

    /** `resume`, its read. */
    method ResumeReads()
      requires Valid()
      modifies this`resuming, this`deeds
      ensures Valid() && Elapsed()
      ensures resuming == old(resuming) + if status == Some(Halted) then 1 else 0
    {
      hide TableValid, LegalLog, After;
      if status == Some(Halted) {
        Log(FadeLog.ResumeRead);
        resuming := resuming + 1;
      }
    }

    ghost method Mark()
      requires Valid()
      modifies this`touched, this`reopened
      ensures Valid() && Elapsed() && touched && reopened == (old(reopened) || Shut(status))
    {
      hide Valid, After;
      touched, reopened := true, reopened || Shut(status);
    }

    method ResumeStatement()
      requires Valid() && resuming > 0 && status.Some? && touched && (Shut(status) ==> reopened)
      modifies this`resuming, this`status, this`deeds
      ensures Valid() && Elapsed() && status == Some(Running) && resuming == old(resuming) - 1
    {
      hide TableValid, LegalLog, After;
      Log(Wrote(status, Running, Resuming));
      status, resuming := Some(Running), resuming - 1;
    }

    /** `resume`, its write: it does not look again. */
    method ResumeWrites()
      requires Valid() && resuming > 0
      modifies this`resuming, this`status, this`deeds, this`touched, this`reopened
      ensures Valid() && Elapsed()
      ensures old(status).Some? ==> status == Some(Running) && touched && resuming == old(resuming) - 1
      ensures reopened == (old(reopened) || (old(status).Some? && Shut(old(status))))
    {
      StepsCompose();
      hide Valid, Oversees, Elapses, Advances, Shrunk, After;
      if status.Some? {
        Mark();
        ResumeStatement();
      }
    }

    method ResumeDies()
      requires Valid() && resuming > 0
      modifies this`resuming, this`deeds
      ensures Valid() && Elapsed()
    {
      hide TableValid, LegalLog, After;
      Log(ResumeDropped);
      resuming := resuming - 1;
    }

    method Others()
      requires Valid()
      modifies this`status, this`resuming, this`deeds, this`touched, this`reopened
      ensures Valid() && Elapsed()
    {
      hide TableValid, LegalLog, After;
      var steps: int := *;
      for n := 0 to if steps > 0 then steps else 0
        invariant Valid() && Elapsed()
      {
        var who: int := *;
        if who == 0 {
          RecordOff();
        } else if who == 1 {
          ResumeReads();
        } else if who == 2 && resuming > 0 {
          ResumeWrites();
        } else if who == 3 && resuming > 0 {
          ResumeDies();
        }
      }
    }

    /** Positions only move toward flat; brackets come and go. */
    method Drift()
      requires Valid()
      modifies this`position, this`stops
      ensures Valid() && Elapsed()
    {
      hide TableValid, LegalLog, After;
      var steps: int := *;
      for n := 0 to if steps > 0 then steps else 0
        invariant Valid() && Elapsed()
      {
        var p: int, size: int := *, *;
        var was := Pos(position, p);
        if (was < 0 && was <= size <= 0) || (was >= 0 && 0 <= size <= was) {
          position := position[p := size];
        }
        stops := *;
      }
    }

    /** Any await: time passes, and it may be the last of its pass. */
    method Await() returns (o: Outcome<()>)
      requires Valid()
      modifies this`status, this`resuming, this`deeds, this`touched, this`reopened, this`position, this`stops
      ensures Valid() && Elapsed() && Onward() && (status == old(status) || touched)
      ensures quiet ==> o.Done? && Still() && deeds == old(deeds)
    {
      hide TableValid, LegalLog, After;
      if quiet { return Done(()); }
      Others();
      Drift();
      var dies: bool := *;
      o := if dies then Aborted else Done(());
    }

    // ------------------------------------------------------------ reads

    method ReadStatus() returns (o: Outcome<Option<Status>>)
      requires Valid()
      modifies this`status, this`resuming, this`deeds, this`touched, this`reopened, this`position, this`stops
      ensures Valid() && Elapsed() && Onward()
      ensures o.Done? ==> o.value == status
      ensures quiet ==> o.Done? && Still()
    {
      var _ :- Await();
      return Done(status);
    }

    /** `venue_size`. An answer that is no position reads as none held. */
    method ReadSize(product: int) returns (o: Outcome<int>)
      requires Valid()
      modifies this`status, this`resuming, this`deeds, this`touched, this`reopened, this`position, this`stops,
               this`flat, this`misread
      ensures Valid() && Elapsed() && Onward()
      ensures status == old(status) || touched
      ensures quiet ==> o.Done? && o.value == Pos(position, product) && Still()
      ensures misread <= old(misread) + {product} && (misread != old(misread) ==> o == Done(0))
      ensures o.Done? ==> && (o.value == Pos(position, product) || (o.value == 0 && product in misread))
                          && flat == old(flat) + if o.value == 0 then {product} else {}
    {
      hide TableValid, LegalLog, After;
      var _ :- Await();
      var garbled: bool := *;
      if garbled && !quiet {
        misread, flat := misread + {product}, flat + {product};
        return Done(0);
      }
      if Pos(position, product) == 0 {
        flat := flat + {product};
      }
      return Done(Pos(position, product));
    }

    /** `get_positions`: every position the venue holds. An answer that is no list of
        positions reads as one of nothing. */
    method ReadPositions() returns (o: Outcome<seq<Held>>)
      requires Valid()
      modifies this`status, this`resuming, this`deeds, this`touched, this`reopened, this`position, this`stops,
               this`blind
      ensures Valid() && Elapsed() && Onward()
      ensures old(blind) ==> blind
      ensures quiet ==> o.Done? && Still() && blind == old(blind)
      ensures o.Done? ==> blind || forall p :: Pos(position, p) != 0 ==> Held(Some(p), Pos(position, p)) in o.value
    {
      hide TableValid, LegalLog, After;
      var _ :- Await();
      var garbled: bool := *;
      if garbled && !quiet {
        blind := true;
        return Done([Held(None, 0)]);
      }
      var held := Listed(position);
      var unreadable: bool, size: int := *, *;
      return Done(if unreadable then held + [Held(None, size)] else held);
    }

    /** One read of the pending orders, remembered. An empty answer shows no stop. */
    method StopResting(product: int) returns (o: Outcome<bool>)
      requires Valid()
      modifies this`status, this`resuming, this`deeds, this`touched, this`reopened, this`position, this`stops,
               this`stopSeen
      ensures Valid() && Elapsed() && Onward()
      ensures status == old(status) || touched
      ensures o.Done? && o.value ==> product in stops
      ensures quiet ==> o == Done(product in old(stops)) && Still()
      ensures stopSeen == if o.Done? then old(stopSeen)[product := o.value] else old(stopSeen)
    {
      hide TableValid, LegalLog, After;
      var _ :- Await();
      var empty: bool := *;
      var resting := product in stops && !(empty && !quiet);
      stopSeen := stopSeen[product := resting];
      return Done(resting);
    }

    /** The newest order that closed a short, remembered: None, or whether it was the stop. */
    method LastClose(product: int) returns (o: Outcome<Option<bool>>)
      requires Valid()
      modifies this`status, this`resuming, this`deeds, this`touched, this`reopened, this`position, this`stops,
               this`closeSeen
      ensures Valid() && Elapsed() && Onward()
      ensures closeSeen == if o.Done? then old(closeSeen)[product := o.value] else old(closeSeen)
      ensures quiet ==> o.Done? && Still()
    {
      hide TableValid, LegalLog, After;
      var _ :- Await();
      var last: Option<bool> := *;
      closeSeen := closeSeen[product := last];
      return Done(last);
    }

    /** `get_order_by_client_id`, remembered. */
    method LookUp(k: Key, route: Route) returns (o: Outcome<Found>)
      requires Valid()
      modifies this`status, this`resuming, this`deeds, this`touched, this`reopened, this`position, this`stops,
               this`found
      ensures Valid() && Elapsed() && Onward()
      ensures o.Done? ==> o.value == LookupAnswer(orders, k, route)
      ensures found == if o.Done? then old(found)[k := o.value] else old(found)
      ensures quiet ==> o.Done? && Still()
    {
      hide TableValid, LegalLog, After;
      var _ :- Await();
      var answer := LookupAnswer(orders, k, route);
      found := found[k := answer];
      return Done(answer);
    }

    // ------------------------------------------------------------ durable writes

    method Insert(row: Row)
      requires Valid() && !HasRow(rows, row.key)
      requires row.status.Skipped? || (row.status.Sending? && ActiveCount(rows) < MAX_OPEN
                                       && row.product == Some(productOf(row.key.symbol)))
      modifies this`deeds, this`rows
      ensures Valid() && Elapsed() && rows == old(rows) + [row]
    {
      hide TableValid, LegalLog, After;
      Log(Inserted(row.status, ActiveCount(rows)));
      TableGrows(rows, row, After(deeds).posts, productOf);
      rows := rows + [row];
    }

    method AddRow(row: Row) returns (o: Outcome<()>)
      requires Valid() && !HasRow(rows, row.key)
      requires row.status.Skipped? || (row.status.Sending? && ActiveCount(rows) < MAX_OPEN
                                       && row.product == Some(productOf(row.key.symbol)))
      modifies this`status, this`resuming, this`deeds, this`touched, this`reopened, this`position, this`stops, this`rows
      ensures Valid() && Elapsed() && (rows == old(rows) || rows == old(rows) + [row])
      ensures o.Done? ==> rows == old(rows) + [row]
      ensures quiet ==> o.Done? && Still()
    {
      StepsCompose();
      hide Valid, TableValid, LegalLog, After, Oversees, Elapses, Advances, Shrunk, HasRow, ActiveCount;
      var _ :- Await();
      Insert(row);
      o := Await();
    }

    method Update(i: nat, row: Row)
      requires Valid() && i < |rows| && row.key == rows[i].key && row.product == rows[i].product
      requires row.status == rows[i].status || LegalMove(rows[i].status, row.status)
      requires row.status.Closed? && !rows[i].status.Closed? ==> row.product.Some? && ReadsFlat(row.product.value)
      modifies this`deeds, this`rows
      ensures Valid() && Elapsed() && Onward() && rows == old(rows)[i := row]
    {
      hide TableValid, LegalLog, After;
      if row.status != rows[i].status {
        if row.product.Some? {
          var p := row.product.value;
          Log(Moved(rows[i].status, row.status, Pos(position, p), p in misread));
        } else {
          Log(Moved(rows[i].status, row.status, 0, false));
        }
      }
      TableMoves(rows, i, row, After(deeds).posts, productOf);
      rows := rows[i := row];
    }

    method PutRow(i: nat, row: Row) returns (o: Outcome<()>)
      requires Valid() && i < |rows| && row.key == rows[i].key && row.product == rows[i].product
      requires row.status == rows[i].status || LegalMove(rows[i].status, row.status)
      requires row.status.Closed? && !rows[i].status.Closed? ==> row.product.Some? && ReadsFlat(row.product.value)
      modifies this`status, this`resuming, this`deeds, this`touched, this`reopened, this`position, this`stops, this`rows
      ensures Valid() && Elapsed() && Onward() && OnlyRow(i) && (rows[i] == row || rows == old(rows))
      ensures o.Done? ==> rows[i] == row
      ensures quiet ==> o.Done? && Still()
    {
      StepsCompose();
      hide Valid, TableValid, LegalLog, After, Oversees, Elapses, Advances, Shrunk;
      var _ :- Await();
      Update(i, row);
      o := Await();
    }

    // ------------------------------------------------------------ venue writes

    /** The matching engine fills the entry, now. */
    method Land(k: Key, product: int, fill: nat)
      requires Valid() && k in After(deeds).posts
      modifies this`position, this`stops, this`orders, this`flat
      ensures Valid() && flat == old(flat) - {product} && orders == old(orders)[k := fill]
      ensures forall p :: Pos(position, p) == if p == product then Pos(old(position), p) - fill
              else Pos(old(position), p)
    {
      hide TableValid, LegalLog, After;
      orders := orders[k := fill];
      flat := flat - {product};
      position := position[product := Pos(position, product) - fill];
      stops := *;
    }

    ghost method Record(i: nat)
      requires Valid() && i < |rows| && rows[i].status.Sending? && After(deeds).entitled
      requires rows[i].key !in After(deeds).posts
      modifies this`deeds
      ensures Valid() && old(deeds) <= deeds
              && After(deeds) == After(old(deeds)).(posts := After(old(deeds)).posts + [rows[i].key])
    {
      hide TableValid, LegalLog, After;
      TablePosts(rows, i, After(deeds).posts, productOf);
      Log(Posted(rows[i].key, status, rows[i].status));
    }

    /** What posting an entry may change. */
    twostate predicate Sending(k: Key, product: int)
      reads this
    {
      Sends(old(Now()), Now(), k, product)
    }

    /** The order leaves, and lands or does not. */
    method Fire(i: nat, product: int, news: News)
      requires Valid() && i < |rows| && rows[i].status.Sending? && After(deeds).entitled
      requires rows[i].key !in After(deeds).posts
      modifies this`deeds, this`position, this`stops, this`orders, this`flat
      ensures Valid() && Sending(rows[i].key, product) && After(deeds).entitled
      ensures After(deeds).posts == After(old(deeds)).posts + [rows[i].key]
      ensures old(flat) - {product} <= flat
      ensures orders == if Landing(news) then old(orders)[rows[i].key := news.fill] else old(orders)
      ensures Landed(old(position), position, product, if Landing(news) then news.fill else 0)
    {
      hide TableValid, LegalLog, After;
      Record(i);
      if Landing(news) {
        Land(rows[i].key, product, news.fill);
      }
    }

    ghost method Answered(k: Key, sent: Sent)
      requires Valid() && k in After(deeds).posts
      modifies this`answers
      ensures Valid() && answers == old(answers)[k := sent]
    {
      hide TableValid, LegalLog, After;
      answers := answers[k := sent];
    }

    /** The one entry POST, and what becomes of it. It lands when sent or never. */
    method PostEntry(i: nat, news: News) returns (o: Outcome<Sent>)
      requires Valid() && i < |rows| && rows[i].status.Sending? && rows[i].product.Some?
      requires rows[i].key !in After(deeds).posts && After(deeds).entitled
      modifies this`status, this`resuming, this`deeds, this`touched, this`reopened, this`position, this`stops,
               this`orders, this`flat, this`misread, this`answers
      ensures Valid() && Sending(rows[i].key, rows[i].product.value)
      ensures After(deeds).entitled
      ensures old(flat) - {rows[i].product.value} <= flat && misread == old(misread)
      ensures answers == if o.Done? then old(answers)[rows[i].key := o.value] else old(answers)
      ensures o.Done? ==> o.value == SentOf(news) && After(deeds).posts == After(old(deeds)).posts + [rows[i].key]
      ensures o.Done? ==> orders == if Landing(news) then old(orders)[rows[i].key := news.fill] else old(orders)
      ensures !Landing(news) || news.fill == 0 ==> StaysFlat(old(position), position)
      ensures quiet ==> && o.Done? && status == old(status)
                        && Landed(old(position), position, rows[i].product.value,
                                  if Landing(news) then news.fill else 0)
    {
      hide Valid, TableValid, LegalLog, After, Oversees, Elapses, Advances, Sends, Shrunk, StaysFlat, Landed;
      ghost var k, product, start := rows[i].key, rows[i].product.value, Now();
      var before := Await();
      ghost var left := Now();
      AwaitSends(start, left, k, product);
      if before.Aborted? { return Aborted; }
      Fire(i, rows[i].product.value, news);
      ghost var fired := Now();
      var after := Await();
      SendsBetween(start, left, fired, Now(), k, product);
      NothingLands(start, left, fired, Now(), product);
      if after.Aborted? { return Aborted; }
      Answered(rows[i].key, SentOf(news));
      return Done(SentOf(news));
    }

    ghost method NoteFill(product: int, fill: nat)
      requires Valid() && fill <= -Pos(position, product)
      modifies this`deeds
      ensures Valid() && Onward()
    {
      hide TableValid, LegalLog, After;
      Log(Bought(Pos(position, product), Pos(position, product) + fill));
    }

    method Reduce(product: int, fill: nat)
      requires Valid() && fill <= -Pos(position, product)
      modifies this`position
      ensures Valid() && Onward() && Pos(position, product) == Pos(old(position), product) + fill
    {
      hide TableValid, LegalLog, After;
      position := position[product := Pos(position, product) + fill];
    }

    method Tally(id: ExitId, product: int, fill: nat)
      modifies this`exits, this`bought
      ensures Onward() && exits == old(exits)[id := fill] && Pos(bought, product) == Pos(old(bought), product) + fill
    {
      hide After;
      exits, bought := exits[id := fill], bought[product := Pos(bought, product) + fill];
    }

    /** The matching engine fills a reduce-only buy. */
    method Fill(id: ExitId, product: int, fill: nat)
      requires Valid() && fill <= -Pos(position, product)
      modifies this`deeds, this`position, this`exits, this`bought
      ensures Valid() && Onward()
      ensures exits == old(exits)[id := fill] && Pos(bought, product) == Pos(old(bought), product) + fill
      ensures Pos(position, product) == Pos(old(position), product) + fill
    {
      AdvancesCompose();
      hide Valid, Oversees, Elapses, Advances, Shrunk, After;
      NoteFill(product, fill);
      Reduce(product, fill);
      Tally(id, product, fill);
    }

    ghost function Ledgers(): Books
      reads this`exits, this`bought, this`told
    {
      Books(exits, bought, told)
    }

    /** The order reaches the venue or does not, and its answer comes back or does not. */
    method Deliver(id: ExitId, product: int, size: int, hearing: Hearing, depth: nat) returns (o: Outcome<int>)
      requires Valid() && size >= 0 && id !in told
      modifies this`deeds, this`position, this`exits, this`bought, this`told
      ensures Valid() && Onward()
      ensures OrderSpec(old(Ledgers()), Ledgers(), id, product, hearing, o)
      ensures !hearing.Lost? && Pos(old(position), product) == -size < 0
              ==> OrderWent(old(exits), exits, id, hearing, depth, size, Pos(position, product), o)
    {
      hide Valid, TableValid, LegalLog, After, Oversees, Elapses, Advances, Shrunk;
      AdvancesCompose();
      var landed: bool, found: bool, garbled: bool := *, *, *;
      if !hearing.Lost? { landed := hearing != Blurred(false); }
      if id !in exits && Pos(position, product) < 0 && landed {
        Fill(id, product, MinInt(MinInt(size, depth), -Pos(position, product)));
      } else if hearing.Heard? {
        return Aborted;
      }
      if hearing.Dies? || (hearing.Lost? && !(found && id in exits)) {
        return Aborted;
      }
      if hearing.Blurred? || (hearing.Lost? && garbled) {
        return Done(0);
      }
      told := told + {id};
      return Done(exits[id]);
    }

    /** A reduce-only buy under a client id: the contracts its answer tells. An id the
        venue knows is declined, or, when the answer is lost, looked up and found as it
        was; neither buys anything. A success that is no order tells nothing filled. */
    method BuyReduceOnly(id: ExitId, product: int, size: int, hearing: Hearing, depth: nat) returns (o: Outcome<int>)
      requires Valid() && size >= 0 && id !in told
      modifies this`status, this`resuming, this`deeds, this`touched, this`reopened, this`position, this`stops,
               this`exits, this`bought, this`told
      ensures Valid() && Onward() && (status == old(status) || touched)
      ensures OrderSpec(old(Ledgers()), Ledgers(), id, product, hearing, o)
      ensures quiet && !hearing.Lost? && Pos(old(position), product) == -size < 0
              ==> && OrderWent(old(exits), exits, id, hearing, depth, size, Pos(position, product), o)
                  && status == old(status) && stops == old(stops)
    {
      AdvancesCompose();
      hide Valid, TableValid, LegalLog, After, Oversees, Elapses, Advances, Shrunk, TradeLeg, OrderSpec, OrderWent;
      OrderDies(Ledgers(), id, product, hearing);
      var _ :- Await();
      o := Deliver(id, product, size, hearing, depth);
      OrderOnlyLater(old(Ledgers()), Ledgers(), id, product, hearing, o);
      if o.Aborted? { return; }
      var _ :- Await();
    }

    method Cancel(product: int)
      requires Valid() && product in flat
      modifies this`deeds, this`stops
      ensures Valid() && Elapsed() && Onward()
    {
      hide TableValid, LegalLog, After;
      Log(CancelledStop(Pos(position, product), product in misread));
      stops := stops - {product};
    }

    method CancelOne(product: int) returns (o: Outcome<()>)
      requires Valid() && product in flat
      modifies this`status, this`resuming, this`deeds, this`touched, this`reopened, this`position, this`stops
      ensures Valid() && Elapsed() && Onward()
      ensures quiet ==> o.Done? && position == old(position) && status == old(status)
    {
      StepsCompose();
      hide Valid, TableValid, LegalLog, After, Oversees, Elapses, Advances, Shrunk;
      var _ :- Await();
      Cancel(product);
      o := Await();
    }

    // ------------------------------------------------------------ the protocol

    /** The INSERT of `state`, which writes over OFF or nothing only. */
    method StartStatement()
      requires Valid() && !Shut(status)
      modifies this`status, this`deeds
      ensures Valid() && Onward() && status == Some(Running) && After(deeds).entitled
    {
      hide TableValid, LegalLog, After;
      if status.None? || status.value.Off? {
        Log(Wrote(status, Running, Starting));
        status := Some(Running);
      }
      Log(Believed(Running));
    }

    ghost method Believe()
      requires Valid() && status.Some?
      modifies this`deeds
      ensures Valid() && Onward() && After(deeds).entitled == status.value.Running?
    {
      hide TableValid, LegalLog, After;
      Log(Believed(status.value));
    }

    /** `state`: first use, or a return from OFF, starts the run. What it answers was the
        status at that moment. */
    method State() returns (o: Outcome<Status>)
      requires Valid()
      modifies this`status, this`resuming, this`deeds, this`touched, this`reopened, this`position, this`stops
      ensures Valid() && Onward()
      ensures o.Done? ==> && status.Some? && o.value != Off && (status == Some(o.value) || touched)
                          && After(deeds).entitled == o.value.Running?
      ensures Shut(old(status)) && o.Done? ==> Shut(Some(o.value)) || reopened
      ensures quiet ==> o.Done? && position == old(position) && stops == old(stops)
    {
      StepsCompose();
      hide Valid, TableValid, LegalLog, After, Oversees, Elapses, Advances, Shrunk;
      var s :- ReadStatus();
      if s.Some? && !s.value.Off? {
        Believe();
        return Done(s.value);
      }
      var _ :- Await();
      StartStatement();
      var _ :- Await();
      return Done(Running);
    }

    /** The UPDATE of `set_state`. */
    method JudgeStatement(to: Status)
      requires Valid() && to in {Halted, Stopped} && status.Some? && status != Some(Stopped)
      modifies this`status, this`deeds
      ensures Valid() && status == Some(to) && Overseen()
      ensures !(to.Stopped? && old(status) == Some(Halted)) ==> Onward()
      ensures After(old(deeds)).clean && !(to.Stopped? && old(status) == Some(Halted)) ==> After(deeds).clean
    {
      hide TableValid, LegalLog, After;
      Log(Wrote(status, to, Judging));
      status := Some(to);
    }

    /** `set_state`: STOPPED is final; a repeat is not written again. */
    method SetState(to: Status) returns (o: Outcome<()>)
      requires Valid() && to in {Halted, Stopped} && status.Some?
      modifies this`status, this`resuming, this`deeds, this`touched, this`reopened, this`position, this`stops
      ensures Valid() && Overseen() && Shrunk(old(position), position)
      ensures !(to.Stopped? && old(status) == Some(Halted)) ==> Onward()
      ensures o.Done? ==> status == (if old(status) == Some(Stopped) then Some(Stopped) else Some(to)) || reopened
      ensures quiet ==> o.Done? && position == old(position)
    {
      StepsCompose();
      hide Valid, TableValid, LegalLog, After, Oversees, Elapses, Advances, Shrunk;
      var s :- ReadStatus();
      var repeated: bool := *;
      if s == Some(Stopped) || (s == Some(to) && repeated) {
        return Done(());
      }
      var _ :- Await();
      JudgeStatement(to);
      o := Await();
    }

    /** `wait_protected`: polls until a stop rests or time is up. */
    method WaitProtected(product: int) returns (o: Outcome<bool>)
      requires Valid()
      modifies this`status, this`resuming, this`deeds, this`touched, this`reopened, this`position, this`stops,
               this`stopSeen
      ensures Valid() && Onward() && OnlyStop(old(stopSeen), stopSeen, product)
      ensures o.Done? && o.value ==> StopShown(product)
      ensures quiet ==> o.Done? && Still()
    {
      ReconcilesCompose();
      hide Valid, TableValid, LegalLog, After, Oversees, Elapses, Advances, Shrunk;
      var polls: int := *;
      for k := 0 to if polls > 0 then polls else 0
        invariant Valid() && Onward() && OnlyStop(old(stopSeen), stopSeen, product)
        invariant quiet ==> Still()
      {
        var resting :- StopResting(product);
        if resting { return Done(true); }
      }
      return Done(false);
    }

    /** A leg that sends its order: the order, and a fresh reading. */
    method PlaceLeg(id: ExitId, product: int, size: int, hearing: Hearing, depth: nat)
      returns (o: Outcome<(bool, int)>)
      requires Valid() && size > 0 && id !in told
      modifies this`status, this`resuming, this`deeds, this`touched, this`reopened, this`position, this`stops,
               this`flat, this`misread, this`exits, this`bought, this`told
      ensures Valid() && Onward() && (status == old(status) || touched)
      ensures o.Done? ==> (o.value.1 == 0 ==> product in flat)
      ensures LegSpec(old(Ledgers()), Ledgers(), id, product, size, true, hearing, o)
      ensures quiet && !hearing.Lost? && Pos(old(position), product) == -size
              ==> && LegWent(old(exits), exits, id, hearing, depth, true, -size, Pos(position, product), o)
                  && status == old(status) && stops == old(stops)
    {
      AdvancesCompose();
      hide Valid, TableValid, LegalLog, After, Oversees, Elapses, Advances, Shrunk, TradeLeg,
           OrderSpec, OrderWent, LegSpec, LegWent;
      ghost var a, calm := Ledgers(), quiet && !hearing.Lost? && Pos(position, product) == -size;
      var n := BuyReduceOnly(id, product, size, hearing, depth);
      ghost var b := Ledgers();
      OrderMakesLeg(a, b, id, product, size, hearing, n, 0);
      if calm { OrderGoesLeg(a.exits, exits, id, hearing, depth, size, Pos(position, product), n); }
      if n.Aborted? { return Aborted; }
      var left :- ReadSize(product);
      OrderMakesLeg(a, b, id, product, size, hearing, n, AbsInt(left));
      return Done((n.value != 0, AbsInt(left)));
    }

    /** One leg of a buy-back: nothing for nothing, else one order and a fresh reading. */
    method BuyLeg(id: ExitId, product: int, size: int, used: bool, hearing: Hearing, depth: nat)
      returns (o: Outcome<(bool, int)>)
      requires Valid() && size >= 0 && (size == 0 ==> product in flat) && id !in told
      modifies this`status, this`resuming, this`deeds, this`touched, this`reopened, this`position, this`stops,
               this`flat, this`misread, this`exits, this`bought, this`told
      ensures Valid() && Onward() && (status == old(status) || touched)
      ensures o.Done? ==> (o.value.1 == 0 ==> product in flat)
      ensures LegSpec(old(Ledgers()), Ledgers(), id, product, size, used, hearing, o)
      ensures quiet && !(used && hearing.Lost?) && Pos(old(position), product) == -size
              ==> && LegWent(old(exits), exits, id, hearing, depth, used, -size, Pos(position, product), o)
                  && status == old(status) && stops == old(stops)
    {
      AdvancesCompose();
      hide Valid, TableValid, LegalLog, After, Oversees, Elapses, Advances, Shrunk, TradeLeg, LegSpec, LegWent;
      ghost var a := Ledgers();
      UnusedLeg(a, id, product, size, used, hearing, size);
      UnusedLegWent(exits, id, hearing, depth, size);
      if size == 0 {
        return Done((false, 0));
      }
      var _ :- Await();
      if used {
        o := PlaceLeg(id, product, size, hearing, depth);
      } else {
        var left :- ReadSize(product);
        UnusedLeg(a, id, product, size, used, hearing, AbsInt(left));
        return Done((false, AbsInt(left)));
      }
    }

    /** The two legs, on a size just read. */
    method BuyLegs(i: nat, reason: ExitReason, product: int, size: int, mood: Mood) returns (o: Outcome<(bool, int)>)
      requires Valid() && size >= 0 && (size == 0 ==> product in flat) && Untold(Ledgers(), i, reason)
      modifies this`status, this`resuming, this`deeds, this`touched, this`reopened, this`position, this`stops,
               this`flat, this`misread, this`exits, this`bought, this`told
      ensures Valid() && Onward() && (status == old(status) || touched)
      ensures o.Done? ==> (o.value.1 == 0 ==> product in flat)
      ensures BackSpec(old(Ledgers()), Ledgers(), i, reason, product, mood, o)
      ensures quiet && Plain(mood) && Pos(old(position), product) == -size
              ==> var d := Dealt(old(exits), i, reason, mood, size);
                  Followed(d, i, reason, product, o.Aborted?) && status == old(status) && stops == old(stops)
                  && (o.Done? ==> o.value == (d.told, -d.position))
    {
      AdvancesCompose();
      hide Valid, TableValid, LegalLog, After, Oversees, Elapses, Advances, Shrunk, TradeLeg, Dealt, Deals, LegWent,
           BackSpec, LegSpec;
      var limit, market := ExitId(i, reason, Limit), ExitId(i, reason, Market);
      ghost var a, calm := Ledgers(), quiet && Plain(mood) && Pos(position, product) == -size;
      var first := BuyLeg(limit, product, size, mood.asked, mood.limit, mood.limitDepth);
      ghost var b, mid := Ledgers(), Pos(position, product);
      LegLeavesOther(a, b, limit, product, size, mood.asked, mood.limit, first, market);
      if calm { LegLeaves(a.exits, exits, limit, mood.limit, mood.limitDepth, mood.asked, -size, mid, first); }
      if first.Aborted? {
        LegMakesBack(a, b, i, reason, product, mood, size);
        if calm { LegEndsDeal(a.exits, exits, i, reason, mood, -size, mid); }
        return Aborted;
      }
      var second := BuyLeg(market, product, first.value.1, true, mood.market, mood.marketDepth);
      LegsMakeBack(a, b, Ledgers(), i, reason, product, mood, size, first, second);
      if calm { LegsDeal(a.exits, b.exits, exits, i, reason, mood, -size, mid, Pos(position, product), first, second); }
      if second.Aborted? { return Aborted; }
      return Done((first.value.0 || second.value.0, second.value.1));
    }

    /** `buy_back`: a limit, then a market order for the rest; whether an order filled,
        and how much is still open. While nothing else happens it is the deal of the same
        readings. */
    method BuyBack(i: nat, reason: ExitReason, product: int, mood: Mood) returns (o: Outcome<(bool, int)>)
      requires Valid()
      modifies this`status, this`resuming, this`deeds, this`touched, this`reopened, this`position, this`stops,
               this`flat, this`misread, this`exits, this`bought, this`told
      ensures Valid() && Onward() && (status == old(status) || touched)
      ensures o.Done? ==> (o.value.1 == 0 ==> product in flat)
      ensures BackSpec(old(Ledgers()), Ledgers(), i, reason, product, mood, o)
      ensures quiet && Plain(mood) && Pos(old(position), product) <= 0
              ==> var d := Dealt(old(exits), i, reason, mood, -Pos(old(position), product));
                  Followed(d, i, reason, product, o.Aborted?) && status == old(status) && stops == old(stops)
                  && (o.Done? ==> o.value == (d.told, -d.position))
    {
      AdvancesCompose();
      hide Valid, TableValid, LegalLog, After, Oversees, Elapses, Advances, Shrunk, TradeLeg, Dealt, Deals, LegWent,
           LegSpec, BackSpec;
      ghost var was := Ledgers();
      told := told - {ExitId(i, reason, Limit), ExitId(i, reason, Market)};
      ghost var a := Ledgers();
      BackIgnoresTold(was, a, i, reason, product, mood);
      NothingMakesBack(a, i, reason, product, mood);
      var size :- ReadSize(product);
      o := BuyLegs(i, reason, product, AbsInt(size), mood);
    }

    /** What is left is the deal's position, and the deal's ids are in use. */
    ghost predicate Followed(d: Deal, i: nat, reason: ExitReason, product: int, aborted: bool)
      reads this`position, this`exits
    {
      Deals(d, exits, i, reason, Pos(position, product), aborted)
    }

    /** `cancel_leftovers`: only once the coin reads flat, by a reading of its own. */
    method CancelLeftovers(product: int) returns (o: Outcome<()>)
      requires Valid()
      modifies this`status, this`resuming, this`deeds, this`touched, this`reopened, this`position, this`stops,
               this`flat, this`misread
      ensures Valid() && Onward()
      ensures quiet ==> o.Done? && position == old(position) && status == old(status)
    {
      ReconcilesCompose();
      hide Valid, TableValid, LegalLog, After, Oversees, Elapses, Advances, Shrunk;
      var size :- ReadSize(product);
      if size != 0 {
        return Done(());
      }
      var _ :- Await();
      var leftovers: int := *;
      for k := 0 to if leftovers > 0 then leftovers else 0
        invariant Valid() && Onward() && product in flat
        invariant quiet ==> position == old(position) && status == old(status)
      {
        var _ :- CancelOne(product);
      }
      return Done(());
    }

    lemma FlatIsSeen(product: int)
      requires Valid() && product in flat
      ensures ReadsFlat(product)
    {
      hide TableValid, LegalLog, After;
    }

    /** `r` is row `i` as some earlier read of this pass saw it. */
    ghost predicate Snapshot(i: nat, r: Row)
      reads this`rows
    {
      i < |rows| && rows[i] == r.(flatSince := rows[i].flatSince)
    }

    ghost predicate OpenOrFlat(i: nat)
      reads this`rows, this`position, this`misread
      requires i < |rows|
    {
      Standing(rows[i], position, misread)
    }

    /** The row closed, the leftovers cancelled, and the account halted unless its stop did it. */
    method RecordClosed(i: nat, r: Row, byStop: bool) returns (o: Outcome<()>)
      requires Valid() && Snapshot(i, r) && r.status.Open? && r.product.Some? && r.product.value in flat && status.Some?
      modifies this`status, this`resuming, this`deeds, this`touched, this`reopened, this`position, this`stops,
               this`rows, this`flat, this`misread
      ensures Valid() && Onward() && OnlyRow(i) && OpenOrFlat(i)
      ensures o.Done? ==> rows[i].status.Closed? && (byStop || Guarded())
      ensures quiet ==> o.Done? && position == old(position)
    {
      ReconcilesCompose();
      hide Valid, TableValid, LegalLog, After, Oversees, Elapses, Advances, Shrunk;
      FlatIsSeen(r.product.value);
      var _ :- PutRow(i, rows[i].(status := Closed));
      var _ :- CancelLeftovers(r.product.value);
      var _ :- Await();
      if !byStop {
        o := SetState(Halted);
        return;
      }
      return Done(());
    }

    /** `_closed_at_venue`: flat at the venue while the row says OPEN. Completed, the row
        is closed, and by its stop unless the account is guarded; or no closing order was
        found and it waits for an explanation. */
    method ClosedAtVenue(i: nat, r: Row, now: int) returns (o: Outcome<()>)
      requires Valid() && Snapshot(i, r) && r.status.Open? && r.product.Some? && r.product.value in flat && status.Some?
      modifies this`status, this`resuming, this`deeds, this`touched, this`reopened, this`position, this`stops,
               this`rows, this`flat, this`misread, this`closeSeen
      ensures Valid() && Onward() && OnlyRow(i) && OpenOrFlat(i)
      ensures o.Done? && rows[i].status.Closed? ==> StoppedOut(r.product.value) || Guarded()
      ensures quiet ==> o.Done? && position == old(position)
      ensures o.Done? && rows[i].status.Open?
              ==> && r.product.value in closeSeen && closeSeen[r.product.value] == None
                  && (rows[i].flatSince.Some? || r.flatSince.Some?)
    {
      ReconcilesCompose();
      hide Valid, TableValid, LegalLog, After, Oversees, Elapses, Advances, Shrunk;
      var p := r.product.value;
      var last :- LastClose(p);
      if last.None? {
        if r.flatSince.None? {
          o := PutRow(i, rows[i].(flatSince := Some(now)));
          return;
        }
        if now - r.flatSince.value < UNEXPLAINED_FLAT {
          return Done(());
        }
      }
      o := RecordClosed(i, r, last == Some(true));
    }

    /** The rest of `_close`, on a coin read flat. */
    method Finish(i: nat, r: Row, now: int, reason: ExitReason, filled: bool) returns (o: Outcome<()>)
      requires Valid() && Snapshot(i, r) && r.status.Open? && r.product.Some? && r.product.value in flat && status.Some?
      modifies this`status, this`resuming, this`deeds, this`touched, this`reopened, this`position, this`stops,
               this`rows, this`flat, this`misread, this`closeSeen
      ensures Valid() && Onward() && OnlyRow(i) && OpenOrFlat(i) && ReadsFlat(r.product.value)
      ensures o.Done? && reason.Unprotected? && rows[i].status.Closed? ==> StoppedOut(r.product.value) || Guarded()
      ensures o.Done? && filled ==> rows[i].status.Closed?
      ensures quiet ==> o.Done? && position == old(position)
    {
      ReconcilesCompose();
      hide Valid, TableValid, LegalLog, After, Oversees, Elapses, Advances, Shrunk;
      FlatIsSeen(r.product.value);
      var _ :- CancelLeftovers(r.product.value);
      if !filled {
        o := ClosedAtVenue(i, r, now);
        return;
      }
      var _ :- PutRow(i, rows[i].(status := Closed));
      if reason != TimeExit {
        o := SetState(Halted);
        return;
      }
      return Done(());
    }

    /** `_close`: buy the position back ourselves. Completed, it is flat or the account
        guarded. For want of a stop, a row closed has guarded the account unless its stop
        closed it. With its ids unused and every answer read, a position bought back has
        its row closed. With an order declined for its known id it never completes on a
        position still held. While nothing else happens it is the deal of the same
        readings, and ends its pass exactly when that does. */
    method Close(i: nat, r: Row, now: int, reason: ExitReason, mood: Mood) returns (o: Outcome<()>)
      requires Valid() && Snapshot(i, r) && r.status.Open? && r.product.Some? && status.Some?
      modifies this`status, this`resuming, this`deeds, this`touched, this`reopened, this`position, this`stops,
               this`rows, this`flat, this`misread, this`closeSeen, this`exits, this`bought, this`told
      ensures Valid() && Onward() && OnlyRow(i) && OpenOrFlat(i)
      ensures IdsUsedBy(i, reason)
      ensures o.Done? ==> ReadsFlat(r.product.value) || Guarded()
      ensures o.Done? && reason.Unprotected? && rows[i].status.Closed? ==> StoppedOut(r.product.value) || Guarded()
      ensures Unused(old(exits), i, reason) && AllHeard(mood)
              && o.Done? && Pos(bought, r.product.value) > Pos(old(bought), r.product.value)
              ==> rows[i].status.Closed? || Guarded()
      ensures Spent(old(exits), i, reason, mood) && !ReadsFlat(r.product.value)
              ==> o.Aborted? && (status == old(status) || touched)
      ensures mood.asked && Declined(old(exits), ExitId(i, reason, Limit), mood.limit) ==> bought == old(bought)
      ensures quiet && Plain(mood) && Pos(old(position), r.product.value) <= 0
              ==> && Followed(Dealt(old(exits), i, reason, mood, -Pos(old(position), r.product.value)), i, reason,
                              r.product.value, o.Aborted?)
                  && (o.Aborted? ==> status == old(status) && stops == old(stops))
    {
      ReconcilesCompose();
      hide Valid, TableValid, LegalLog, After, Oversees, Elapses, Advances, Shrunk, Dealt, TradeLeg, Spent, Declined,
           Unused, OnlyIds, ToldOf, Deals;
      var back :- BuyBack(i, reason, r.product.value, mood);
      if back.1 != 0 {
        var _ :- Await();
        o := SetState(Halted);
      } else {
        o := Finish(i, r, now, reason, back.0);
      }
    }

    /** Only this product's stop has been read anew. */
    twostate predicate StopReadOf(product: int)
      reads this`stopSeen
    {
      OnlyStop(old(stopSeen), stopSeen, product)
    }

    /** Only this row's client ids for this reason have come into use. */
    twostate predicate IdsUsedBy(i: nat, reason: ExitReason)
      reads this`exits
    {
      OnlyIds(old(exits), exits, i, reason)
    }

    /** No stop shows: bought back. */
    method CloseNaked(i: nat, now: int, mood: Mood) returns (o: Outcome<()>)
      requires Valid() && i < |rows| && rows[i].status.Open? && rows[i].product.Some? && status.Some?
      modifies this`status, this`resuming, this`deeds, this`touched, this`reopened, this`position, this`stops,
               this`rows, this`flat, this`misread, this`closeSeen, this`exits, this`bought, this`told
      ensures Valid() && Onward() && OnlyRow(i) && IdsUsedBy(i, Unprotected)
      ensures OpenOrFlat(i) && (o.Done? ==> ReadsFlat(rows[i].product.value) || Guarded())
      ensures quiet && AllHeard(mood) && Short(old(position)) && Unused(old(exits), i, Unprotected) ==> o.Done?
    {
      ReconcilesCompose();
      hide Valid, TableValid, LegalLog, After, Oversees, Elapses, Advances, Shrunk, Spent, Declined, Dealt, TradeLeg,
           Deals, Unused;
      ghost var p := rows[i].product.value;
      var _ :- Await();
      ghost var held, was := -Pos(position, p), exits;
      o := Close(i, rows[i], now, Unprotected, mood);
      if held >= 0 { FreeDealCompletes(was, exits, i, Unprotected, mood, held, Pos(position, p), o.Aborted?); }
    }

    /** The rest of `_opened`: a position whose stop does not show is closed. */
    method Protect(i: nat, now: int, mood: Mood) returns (o: Outcome<()>)
      requires Valid() && i < |rows| && rows[i].status.Open? && rows[i].product.Some? && status.Some?
      modifies this`status, this`resuming, this`deeds, this`touched, this`reopened, this`position, this`stops,
               this`rows, this`flat, this`misread, this`stopSeen, this`closeSeen, this`exits, this`bought, this`told
      ensures Valid() && Onward() && OnlyRow(i) && StopReadOf(rows[i].product.value) && IdsUsedBy(i, Unprotected)
      ensures OpenOrFlat(i) && (o.Done? ==> Protected(rows[i].product.value))
      ensures quiet && AllHeard(mood) && Short(old(position)) && Unused(old(exits), i, Unprotected) ==> o.Done?
    {
      ReconcilesCompose();
      hide Valid, TableValid, LegalLog, After, Oversees, Elapses, Advances, Shrunk, Unused;
      var shown :- WaitProtected(rows[i].product.value);
      if !shown {
        o := CloseNaked(i, now, mood);
        return;
      }
      return Done(());
    }

    /** `_opened`: record the fill; a position whose stop does not show is closed. */
    method Opened(i: nat, filled: int, now: int, mood: Mood) returns (o: Outcome<()>)
      requires Valid() && i < |rows| && rows[i].status.Sending? && rows[i].product.Some? && status.Some?
      modifies this`status, this`resuming, this`deeds, this`touched, this`reopened, this`position, this`stops,
               this`rows, this`flat, this`misread, this`stopSeen, this`closeSeen, this`exits, this`bought, this`told
      ensures Valid() && Onward() && OnlyRow(i) && StopReadOf(rows[i].product.value) && IdsUsedBy(i, Unprotected)
      ensures rows[i].status.Sending? || OpenOrFlat(i)
      ensures o.Done? ==> OpenOrFlat(i) && Protected(rows[i].product.value)
      ensures quiet && AllHeard(mood) && Short(old(position)) && Unused(old(exits), i, Unprotected) ==> o.Done?
    {
      ReconcilesCompose();
      hide Valid, TableValid, LegalLog, After, Oversees, Elapses, Advances, Shrunk, Safe;
      var _ :- PutRow(i, rows[i].(status := Open, contracts := filled));
      o := Protect(i, now, mood);
    }

    /** One OPEN row whose position is held: its stop rests, or it is closed. */
    method CheckHeld(i: nat, r: Row, now: int, mood: Mood) returns (o: Outcome<()>)
      requires Valid() && Snapshot(i, r) && r.status.Open? && r.product.Some? && status.Some?
      modifies this`status, this`resuming, this`deeds, this`touched, this`reopened, this`position, this`stops,
               this`rows, this`flat, this`misread, this`stopSeen, this`closeSeen, this`exits, this`bought, this`told
      ensures Valid() && Onward() && OnlyRow(i) && OpenOrFlat(i)
      ensures StopReadOf(r.product.value) && IdsUsedBy(i, Unprotected)
      ensures o.Done? ==> Protected(r.product.value)
      ensures Spent(old(exits), i, Unprotected, mood) && !ReadsFlat(r.product.value) && !StopShown(r.product.value)
              ==> o.Aborted? && (status == old(status) || touched)
      ensures mood.asked && Declined(old(exits), ExitId(i, Unprotected, Limit), mood.limit) ==> bought == old(bought)
      ensures quiet && Plain(mood) && Pos(old(position), r.product.value) <= 0 && r.product.value !in old(stops)
              ==> && Followed(Dealt(old(exits), i, Unprotected, mood, -Pos(old(position), r.product.value)),
                              i, Unprotected, r.product.value, o.Aborted?)
                  && (o.Aborted? ==> status == old(status) && stops == old(stops))
      ensures quiet && r.product.value in old(stops) ==> o.Done?
    {
      ReconcilesCompose();
      hide Valid, TableValid, LegalLog, After, Oversees, Elapses, Advances, Shrunk, Dealt, TradeLeg, Spent, Declined,
           Unused, Deals;
      var p := r.product.value;
      var resting :- StopResting(p);
      if !resting {
        o := Close(i, r, now, Unprotected, mood);
        return;
      }
      return Done(());
    }

    method Unmark(i: nat, r: Row) returns (o: Outcome<()>)
      requires Valid() && i < |rows| && rows[i] == r
      modifies this`status, this`resuming, this`deeds, this`touched, this`reopened, this`position, this`stops, this`rows
      ensures Valid() && Onward() && OnlyRow(i) && Snapshot(i, r) && (status == old(status) || touched)
      ensures quiet ==> o.Done? && Still()
    {
      hide TableValid, LegalLog, After;
      o := PutRow(i, r.(flatSince := None));
    }

    /** One OPEN row: its stop still rests, or it is closed, or it was found closed.
        Completed, its product is flat, or seen behind a stop, or the account guarded.
        Without a stop, and with an order declined for its known id, it never completes
        while held, and nothing shuts the account. While nothing else happens that is
        the only way it ends its pass, and else it completes. */
    method CheckOpen(i: nat, r: Row, now: int, mood: Mood) returns (o: Outcome<()>)
      requires Valid() && i < |rows| && rows[i] == r && r.status.Open? && r.product.Some? && status.Some?
      modifies this`status, this`resuming, this`deeds, this`touched, this`reopened, this`position, this`stops,
               this`rows, this`flat, this`misread, this`stopSeen, this`closeSeen, this`exits, this`bought, this`told
      ensures Valid() && Onward() && OnlyRow(i) && OpenOrFlat(i)
      ensures StopReadOf(r.product.value) && IdsUsedBy(i, Unprotected)
      ensures o.Done? ==> Protected(r.product.value)
      ensures Spent(old(exits), i, Unprotected, mood) && !ReadsFlat(r.product.value) && !StopShown(r.product.value)
              ==> o.Aborted? && (status == old(status) || touched)
      ensures mood.asked && Declined(old(exits), ExitId(i, Unprotected, Limit), mood.limit) ==> bought == old(bought)
      ensures quiet && Plain(mood) && Pos(old(position), r.product.value) <= 0 && r.product.value !in old(stops)
              ==> && Followed(Dealt(old(exits), i, Unprotected, mood, -Pos(old(position), r.product.value)),
                              i, Unprotected, r.product.value, o.Aborted?)
                  && (o.Aborted? ==> status == old(status) && stops == old(stops))
      ensures quiet && r.product.value in old(stops) ==> o.Done?
    {
      DealOfNothing(exits, i, Unprotected, mood);
      ReconcilesCompose();
      hide Valid, TableValid, LegalLog, After, Oversees, Elapses, Advances, Shrunk, Dealt, TradeLeg, Spent, Declined,
           Unused, Deals;
      var p := r.product.value;
      var size :- ReadSize(p);
      if size == 0 {
        o := ClosedAtVenue(i, r, now);
        return;
      }
      if r.flatSince.Some? {
        var _ :- Unmark(i, r);
      }
      o := CheckHeld(i, r, now, mood);
    }

    /** A quiet pass that finds row `i` open, held and without a stop, and ends there:
        what its buy-back's deal says is left, and everything else as it was. */
    method StrandedPass(i: nat, now: int, mood: Mood) returns (o: Outcome<()>)
      requires Valid() && i < |rows| && rows[i].status.Open? && rows[i].product.Some? && status == Some(Running)
               && quiet
      requires Plain(mood) && rows[i].product.value !in stops && Pos(position, rows[i].product.value) < 0
      requires var d := Dealt(exits, i, Unprotected, mood, -Pos(position, rows[i].product.value));
               d.dies && d.position < 0
      modifies this`status, this`resuming, this`deeds, this`touched, this`reopened, this`position, this`stops,
               this`rows, this`flat, this`misread, this`stopSeen, this`closeSeen, this`exits, this`bought, this`told,
               this`found, this`blind
      ensures Valid() && o.Aborted? && status == Some(Running) && i < |rows| && rows[i].status.Open?
      ensures rows[i].product == old(rows)[i].product && stops == old(stops)
      ensures var d := Dealt(old(exits), i, Unprotected, mood, -Pos(old(position), old(rows)[i].product.value));
              && Pos(position, rows[i].product.value) == d.position
              && (ExitId(i, Unprotected, Limit) in exits <==> d.limitKnown)
    {
      ReconcilesCompose();
      hide Valid, TableValid, LegalLog, After, Oversees, Elapses, Advances, Shrunk, Dealt, TradeLeg, Unused, Spent,
           Declined;
      Begin();
      o := CheckOpen(i, rows[i], now, mood);
    }

    /** Two passes over an open position without a stop: the first dies once its limit
        order has filled one contract, and the second is declined for that order's id.
        The rest is still held, without a stop, and the account still runs. */
    method Strand(i: nat, now: int) returns (first: Outcome<()>, second: Outcome<()>)
      requires Valid() && i < |rows| && rows[i].status.Open? && rows[i].product.Some? && status == Some(Running)
               && quiet
      requires rows[i].product.value !in stops && Unused(exits, i, Unprotected)
      requires Pos(position, rows[i].product.value) <= -2
      modifies this`status, this`resuming, this`deeds, this`touched, this`reopened, this`position, this`stops,
               this`rows, this`flat, this`misread, this`stopSeen, this`closeSeen, this`exits, this`bought, this`told,
               this`found, this`blind
      ensures Valid() && first.Aborted? && second.Aborted? && status == Some(Running)
      ensures i < |rows| && rows[i].status.Open? && rows[i].product == old(rows)[i].product && stops == old(stops)
      ensures Pos(position, rows[i].product.value) == Pos(old(position), rows[i].product.value) + 1 < 0
    {
      FirstStrands(exits, i, -Pos(position, rows[i].product.value));
      hide Valid, Dealt, TradeLeg, Unused;
      first := StrandedPass(i, now, Mood(true, Dies, Heard, 1, 0));
      SecondStrands(exits, i, -Pos(position, rows[i].product.value));
      second := StrandedPass(i, now, Mood(true, Heard, Heard, 1, 0));
    }

    /** What the lookup's answer makes of the row. */
    method Resolve(i: nat, now: int, answer: Found, mood: Mood) returns (o: Outcome<()>)
      requires Valid() && i < |rows| && rows[i].status.Sending? && rows[i].product.Some? && status.Some?
      modifies this`status, this`resuming, this`deeds, this`touched, this`reopened, this`position, this`stops,
               this`rows, this`flat, this`misread, this`stopSeen, this`closeSeen, this`exits, this`bought, this`told
      ensures Valid() && Onward() && OnlyRow(i) && StopReadOf(rows[i].product.value) && IdsUsedBy(i, Unprotected)
      ensures o.Done? ==> ResolvedBy(i, answer)
      ensures o.Done? ==> stopSeen == old(stopSeen) || Protected(rows[i].product.value)
      ensures rows[i].status.Failed? ==> answer in {Missing, NoOrder, Order(0)}
      ensures quiet && answer in {Missing, NoOrder, Order(0)}
              ==> o.Done? && status == old(status) && position == old(position)
      ensures quiet && AllHeard(mood) && Short(old(position)) && Unused(old(exits), i, Unprotected) ==> o.Done?
    {
      ReconcilesCompose();
      hide Valid, TableValid, LegalLog, After, Oversees, Elapses, Advances, Shrunk;
      match answer {
        case LookupFailed => o := SetState(Halted);
        case Order(filled) =>
          if filled != 0 {
            o := Opened(i, filled, now, mood);
          } else {
            o := PutRow(i, rows[i].(status := Failed));
          }
        case Missing => o := PutRow(i, rows[i].(status := Failed));
        case NoOrder => o := PutRow(i, rows[i].(status := Failed));
      }
    }

    ghost predicate ResolvedBy(i: nat, answer: Found)
      reads this
      requires i < |rows|
    {
      Resolved(rows[i], answer, position, misread, stopSeen, Guarded())
    }

    /** One SENDING row: its outcome was never seen, so ask by client order id. A filled
        order is failed exactly when its route answers with no order, or with nothing, or
        the page scanned does not list it. */
    method CheckSending(i: nat, now: int, route: Route, mood: Mood) returns (o: Outcome<()>)
      requires Valid() && i < |rows| && rows[i].status.Sending? && rows[i].product.Some? && status.Some?
      modifies this`status, this`resuming, this`deeds, this`touched, this`reopened, this`position, this`stops,
               this`rows, this`flat, this`misread, this`stopSeen, this`closeSeen, this`exits, this`bought, this`told,
               this`found
      ensures Valid() && Onward() && OnlyRow(i) && StopReadOf(rows[i].product.value) && IdsUsedBy(i, Unprotected)
      ensures found == old(found) || found == old(found)[rows[i].key := LookupAnswer(orders, rows[i].key, route)]
      ensures o.Done? ==> found == old(found)[rows[i].key := LookupAnswer(orders, rows[i].key, route)]
                          && ResolvedBy(i, found[rows[i].key])
      ensures o.Done? ==> stopSeen == old(stopSeen) || Protected(rows[i].product.value)
      ensures rows[i].key in orders && orders[rows[i].key] != 0 && !route.Down?
              ==> (rows[i].status.Failed? ==> Loses(route)) && (o.Done? && Loses(route) ==> rows[i].status.Failed?)
      ensures quiet && Loses(route) ==> o.Done? && status == old(status) && position == old(position)
      ensures quiet && AllHeard(mood) && Short(old(position)) && Unused(old(exits), i, Unprotected) ==> o.Done?
    {
      ReconcilesCompose();
      hide Valid, TableValid, LegalLog, After, Oversees, Elapses, Advances, Shrunk, Standing, Safe;
      var answer :- LookUp(rows[i].key, route);
      o := Resolve(i, now, answer, mood);
    }

    /** A filled order, and any route that loses it: its row is failed, and nothing else. */
    method MissedFill(i: nat, now: int, route: Route, mood: Mood) returns (o: Outcome<()>)
      requires Valid() && i < |rows| && rows[i].status.Sending? && rows[i].product.Some? && status.Some?
      requires rows[i].key in orders && orders[rows[i].key] > 0 && Loses(route) && quiet
      modifies this`status, this`resuming, this`deeds, this`touched, this`reopened, this`position, this`stops,
               this`rows, this`flat, this`misread, this`stopSeen, this`closeSeen, this`exits, this`bought, this`told,
               this`found
      ensures o.Done? && i < |rows| && rows[i].status.Failed? && rows[i].key in orders && orders[rows[i].key] > 0
      ensures status == old(status) && position == old(position)
    {
      hide TableValid, LegalLog, After;
      o := CheckSending(i, now, route, mood);
    }

    /** Every position the venue holds belongs to a row, or the account is guarded,
        unless the list was read off an answer that is none. */
    method CheckPositions() returns (o: Outcome<()>)
      requires Valid() && status.Some?
      modifies this`status, this`resuming, this`deeds, this`touched, this`reopened, this`position, this`stops,
               this`blind
      ensures Valid() && Onward()
      ensures (old(blind) ==> blind) && (quiet ==> o.Done? && blind == old(blind))
      ensures o.Done? ==> forall p :: Pos(position, p) != 0 ==> Owned(rows, p) || Guarded() || blind
    {
      StepsCompose();
      hide Valid, TableValid, LegalLog, After, Oversees, Elapses, Advances, Shrunk, Owned;
      var held :- ReadPositions();
      ghost var seen, missed := position, blind;
      for k := 0 to |held|
        invariant Valid() && Onward() && Shrunk(seen, position) && blind == missed
        invariant forall j :: 0 <= j < k && held[j].size != 0 ==>
                    Guarded() || (held[j].product.Some? && Owned(rows, held[j].product.value))
      {
        var v := held[k];
        if v.size != 0 && (v.product.None? || !IsOurs(rows, v.product.value)) {
          var _ :- SetState(Halted);
        }
      }
      forall p | Pos(position, p) != 0 ensures Owned(rows, p) || Guarded() || blind {
        if !blind { assert Held(Some(p), Pos(seen, p)) in held; }
      }
      return Done(());
    }

    /** What a completed reconcile has made of row `i`, which was `was`. */
    ghost predicate RowSettled(was: Row, i: nat)
      reads this
      requires i < |rows|
    {
      Settled(was, rows[i], found, position, misread, stopSeen, Guarded())
    }

    /** No buy-back of an active row has used its client ids. */
    ghost predicate IdsFree(snap: seq<Row>, from: nat, reason: ExitReason)
      reads this`exits
    {
      forall j :: from <= j < |snap| && Active(snap[j]) ==> Unused(exits, j, reason)
    }

    /** Every active row against the venue, in order. While nothing else happens, no
        position is long and their ids are free, it completes. */
    method CheckRows(now: int) returns (o: Outcome<()>)
      requires Valid() && status.Some?
      modifies this`status, this`resuming, this`deeds, this`touched, this`reopened, this`position, this`stops,
               this`rows, this`flat, this`misread, this`stopSeen, this`closeSeen, this`exits, this`bought, this`told,
               this`found
      ensures Valid() && Onward() && OnlyReason(old(exits), exits, Unprotected)
      ensures o.Done? ==> forall i :: 0 <= i < |rows| ==> RowSettled(old(rows)[i], i)
      ensures quiet && Short(old(position)) && old(IdsFree(rows, 0, Unprotected)) ==> o.Done?
    {
      ReconcilesCompose();
      hide Valid, TableValid, LegalLog, After, RowSettled, Active, Oversees, Elapses, Advances, Shrunk;
      var snap := rows;
      ghost var calm := quiet && Short(position) && IdsFree(rows, 0, Unprotected);
      for i := 0 to |snap|
        invariant Valid() && Onward() && |rows| == |snap| && OnlyReason(old(exits), exits, Unprotected)
        invariant forall j :: i <= j < |snap| ==> rows[j] == snap[j]
        invariant forall j :: 0 <= j < i ==> RowSettled(snap[j], j)
        invariant calm ==> IdsFree(snap, i, Unprotected)
      {
        var _ :- CheckRow(i, snap, now);
      }
      return Done(());
    }

    lemma RowKnown(i: nat)
      requires Valid() && i < |rows|
      ensures Active(rows[i]) ==> rows[i].product.Some?
      ensures forall j :: 0 <= j < |rows| && j != i ==> rows[j].key != rows[i].key
    {
      hide LegalLog, After;
      KeysDiffer(rows, After(deeds).posts, productOf, i);
    }

    /** One row of the pass's list, and the rows before it. */
    method CheckRow(i: nat, snap: seq<Row>, now: int) returns (o: Outcome<()>)
      requires Valid() && status.Some? && i < |rows| && |rows| == |snap|
      requires forall j :: i <= j < |snap| ==> rows[j] == snap[j]
      requires forall j :: 0 <= j < i ==> RowSettled(snap[j], j)
      modifies this`status, this`resuming, this`deeds, this`touched, this`reopened, this`position, this`stops,
               this`rows, this`flat, this`misread, this`stopSeen, this`closeSeen, this`exits, this`bought, this`told,
               this`found
      ensures Valid() && Onward() && OnlyRow(i) && IdsUsedBy(i, Unprotected)
      ensures o.Done? ==> forall j :: 0 <= j <= i ==> RowSettled(snap[j], j)
      ensures quiet && Short(old(position)) && (Active(snap[i]) ==> Unused(old(exits), i, Unprotected)) ==> o.Done?
    {
      ReconcilesCompose();
      hide Valid, TableValid, LegalLog, After, Dealt, Oversees, Elapses, Advances, Shrunk;
      var r := snap[i];
      ghost var f, q, m, s, g := found, position, misread, stopSeen, Guarded();
      var route: Route, mood: Mood := *, *;
      if quiet { mood := mood.(limit := Heard, market := Heard); }
      if !Active(r) {
        return Done(());
      }
      RowKnown(i);
      if r.status.Sending? {
        o := CheckSending(i, now, route, mood);
      } else {
        if AllHeard(mood) && Pos(position, r.product.value) <= 0 {
          DealDiesIff(exits, i, Unprotected, mood, -Pos(position, r.product.value));
        }
        o := CheckOpen(i, r, now, mood);
      }
      if o.Done? {
        forall j | 0 <= j < i ensures RowSettled(snap[j], j) {
          SettledStays(snap[j], rows[j], f, found, q, position, m, misread, s, stopSeen, g, Guarded(), r.product.value);
        }
      }
    }

    ghost predicate Overlooked(before: seq<Row>, product: int)
      reads this`rows, this`found
    {
      Missed(before, rows, found, product)
    }

    /** Why a position may be left without an active row: its order was overlooked or
        went unheard, its size was misread, or no row had it and the list was blind. */
    ghost predicate Excused(before: seq<Row>, product: int)
      reads this
    {
      || Overlooked(before, product) || Unheard(|before|, rows, answers, product)
      || product in misread || (blind && !Owned(before, product))
    }

    /** Every position has an active row now, or its excuse. */
    ghost predicate Accounted(before: seq<Row>)
      reads this
    {
      forall p :: Pos(position, p) != 0 ==> Guarded() || Owned(rows, p) || Excused(before, p)
    }

    /** Every open row's product is protected, unless a later entry of it went unheard. */
    ghost predicate AllProtected(before: nat)
      reads this
    {
      forall i :: 0 <= i < |rows| && rows[i].status.Open?
        ==> rows[i].product.Some? && (Protected(rows[i].product.value)
                                      || Unheard(before, rows, answers, rows[i].product.value))
    }

    /** Each row that was SENDING has the status its lookup's answer calls for. */
    ghost predicate OutcomesKnown(before: seq<Row>)
      reads this
    {
      forall i :: 0 <= i < |before| && i < |rows| && before[i].status.Sending?
        ==> && before[i].key in found
            && (match found[before[i].key]
                case LookupFailed => Guarded()
                case Missing => rows[i].status.Failed?
                case NoOrder => rows[i].status.Failed?
                case Order(n) => if n == 0 then rows[i].status.Failed?
                                 else rows[i].status.Open? || rows[i].status.Closed?)
    }

    /** A product whose stop this pass last read as missing is flat, or the account is
        guarded, unless its order was overlooked or no row had it. */
    ghost predicate NothingNaked(before: seq<Row>)
      reads this
    {
      forall p :: p in stopSeen && !stopSeen[p] && !ReadsFlat(p)
        ==> Guarded() || Overlooked(before, p) || (blind && !Owned(before, p))
    }

    lemma SettledIsAccounted(before: seq<Row>)
      requires |before| == |rows| && forall i :: 0 <= i < |rows| ==> RowSettled(before[i], i)
      requires forall p :: Pos(position, p) != 0 ==> Owned(before, p) || Guarded() || blind
      ensures Accounted(before) && AllProtected(|before|) && OutcomesKnown(before) && NothingNaked(before)
      ensures forall i :: 0 <= i < |rows| && Active(rows[i]) ==> Active(before[i])
    {
      forall p | !ReadsFlat(p) && !Guarded() && !(blind && !Owned(before, p))
        ensures Owned(rows, p) || Overlooked(before, p)
        ensures p in stopSeen && !stopSeen[p] ==> Overlooked(before, p)
      {
        var i :| 0 <= i < |before| && Active(before[i]) && before[i].product == Some(p);
        assert RowSettled(before[i], i);
        if before[i].status.Sending? && !rows[i].status.Open? {
          assert rows[i].status.Failed?;
        }
      }
      forall i | 0 <= i < |rows| && rows[i].status.Open?
        ensures rows[i].product.Some? && Protected(rows[i].product.value)
      {
        assert RowSettled(before[i], i);
      }
      forall i | 0 <= i < |rows| ensures RowSettled(before[i], i) {}
    }

    /** `_reconcile`. Completed, and unless the account is guarded: every position belongs
        to an active row, or its order was overlooked, or its reading was none; every open
        position was seen behind a stop, and what was read without one is flat; every row
        that was SENDING has its answer's status. While nothing else happens, no position
        is long and the buy-back ids are free, it completes. */
    method Reconcile(now: int) returns (o: Outcome<()>)
      requires Valid() && status.Some?
      modifies this`status, this`resuming, this`deeds, this`touched, this`reopened, this`position, this`stops,
               this`rows, this`flat, this`misread, this`stopSeen, this`closeSeen, this`exits, this`bought, this`told,
               this`found, this`blind
      ensures Valid() && Onward() && OnlyReason(old(exits), exits, Unprotected)
      ensures o.Done? ==> && Accounted(old(rows)) && AllProtected(|old(rows)|) && OutcomesKnown(old(rows))
                          && NothingNaked(old(rows))
      ensures o.Done? ==> forall i :: 0 <= i < |rows| && Active(rows[i]) ==> Active(old(rows)[i])
      ensures quiet && Short(old(position)) && old(IdsFree(rows, 0, Unprotected)) ==> o.Done?
    {
      ReconcilesCompose();
      hide Valid, TableValid, LegalLog, After, RowSettled, Owned, Active, Oversees, Elapses, Advances, Shrunk;
      var _ :- Await();
      ghost var snap := rows;
      var _ :- CheckPositions();
      ghost var held, guard := position, Guarded();
      var _ :- CheckRows(now);
      assert forall p :: Pos(position, p) != 0 ==> Pos(held, p) != 0;
      SettledIsAccounted(snap);
      return Done(());
    }

    predicate Due(r: Row, now: int) {
      r.status.Open? && r.key.day <= now - DAY - EXIT_AFTER
    }

    /** Closed over a flat position, or as it was but for when it was first found flat. */
    twostate predicate OnlyExits()
      reads this
    {
      && |rows| == |old(rows)|
      && forall i :: 0 <= i < |rows| ==> ExitStep(old(rows)[i], rows[i], position, misread)
    }

    /** One row of the exits' list: closed if due. */
    method ExitRow(i: nat, r: Row, now: int) returns (o: Outcome<()>)
      requires Valid() && status.Some? && i < |rows| && rows[i] == r
      modifies this`status, this`resuming, this`deeds, this`touched, this`reopened, this`position, this`stops,
               this`rows, this`flat, this`misread, this`closeSeen, this`exits, this`bought, this`told
      ensures Valid() && Onward() && OnlyRow(i) && ExitStep(r, rows[i], position, misread)
      ensures IdsUsedBy(i, TimeExit)
      ensures o.Done? && Due(r, now) ==> r.product.Some? && (ReadsFlat(r.product.value) || Guarded())
      ensures quiet && Short(old(position)) && (Active(r) ==> Unused(old(exits), i, TimeExit)) ==> o.Done?
    {
      ElapsesNothing(Now());
      hide Valid, TableValid, LegalLog, After, Dealt, Oversees, Elapses, Advances, Shrunk;
      if !Due(r, now) { return Done(()); }
      var mood: Mood := *;
      if quiet { mood := mood.(limit := Heard, market := Heard); }
      RowKnown(i);
      if AllHeard(mood) && Pos(position, r.product.value) <= 0 {
        DealDiesIff(exits, i, TimeExit, mood, -Pos(position, r.product.value));
      }
      o := Close(i, r, now, TimeExit, mood);
    }

    /** `_exits`: yesterday's positions are bought back. Completed, none of them is still
        held, unless the account is guarded. While nothing else happens, no position is
        long and the ids of an exit are free, it completes. */
    method Exits(now: int) returns (o: Outcome<()>)
      requires Valid() && status.Some?
      modifies this`status, this`resuming, this`deeds, this`touched, this`reopened, this`position, this`stops,
               this`rows, this`flat, this`misread, this`closeSeen, this`exits, this`bought, this`told
      ensures Valid() && Onward() && OnlyExits()
      ensures o.Done? ==> forall i :: 0 <= i < |rows| && Due(old(rows)[i], now)
                            ==> old(rows)[i].product.Some? && (ReadsFlat(old(rows)[i].product.value) || Guarded())
      ensures quiet && Short(old(position)) && old(IdsFree(rows, 0, TimeExit)) ==> o.Done?
    {
      ReconcilesCompose();
      hide Valid, TableValid, LegalLog, After, Oversees, Elapses, Advances, Shrunk, Due;
      var _ :- Await();
      var snap := rows;
      ghost var calm := quiet && Short(position) && IdsFree(rows, 0, TimeExit);
      for i := 0 to |snap|
        invariant Valid() && Onward() && OnlyExits()
        invariant forall j :: i <= j < |snap| ==> rows[j] == snap[j]
        invariant calm ==> IdsFree(snap, i, TimeExit)
        invariant forall j :: 0 <= j < i && Due(snap[j], now)
                    ==> snap[j].product.Some? && (ReadsFlat(snap[j].product.value) || Guarded())
      {
        var _ :- ExitRow(i, snap[i], now);
      }
      return Done(());
    }

    lemma ExitsKeepAccount(before: seq<Row>, mid: seq<Row>, p: map<int, int>, m: set<int>, guarded: bool)
      requires |mid| == |rows| == |before| && m <= misread
      requires forall i :: 0 <= i < |rows| ==> ExitStep(mid[i], rows[i], position, misread)
      requires StaysFlat(p, position) && (guarded ==> Guarded())
      requires forall q :: Pos(p, q) != 0 ==> guarded || Owned(mid, q) || Missed(before, mid, found, q)
                                              || q in m || (blind && !Owned(before, q))
      ensures Accounted(before)
    {
      forall q | Pos(position, q) != 0 && !Guarded() ensures Owned(rows, q) || Excused(before, q) {
        assert Pos(p, q) != 0;
        if Owned(mid, q) && q !in misread {
          var i :| 0 <= i < |mid| && Active(mid[i]) && mid[i].product == Some(q);
          assert Active(rows[i]) && rows[i].product == Some(q);
        }
      }
    }

    /** The exits keep what reconciling has established. */
    method ExitsAfter(ghost before: seq<Row>, now: int) returns (o: Outcome<()>)
      requires Valid() && status.Some? && |before| == |rows|
      requires Accounted(before) && AllProtected(|before|) && OutcomesKnown(before)
      modifies this`status, this`resuming, this`deeds, this`touched, this`reopened, this`position, this`stops,
               this`rows, this`flat, this`misread, this`closeSeen, this`exits, this`bought, this`told
      ensures Valid() && Onward()
      ensures o.Done? ==> Accounted(before) && AllProtected(|before|) && OutcomesKnown(before)
      ensures quiet && Short(old(position)) && old(IdsFree(rows, 0, TimeExit)) ==> o.Done?
    {
      ReconcilesCompose();
      hide Valid, TableValid, LegalLog, After, Oversees, Elapses, Advances, Shrunk, IdsFree, Owned, Missed;
      ghost var mid, p, m, guarded := rows, position, misread, Guarded();
      o := Exits(now);
      if o.Done? { ExitsKeepAccount(before, mid, p, m, guarded); }
    }

    /** The first half of `step`: reconcile, then exit. While nothing else happens, no
        position is long and no active row's buy-back ids are used, it completes. */
    method SettleAll(now: int) returns (o: Outcome<()>)
      requires Valid() && status.Some?
      modifies this`status, this`resuming, this`deeds, this`touched, this`reopened, this`position, this`stops,
               this`rows, this`flat, this`misread, this`stopSeen, this`closeSeen, this`exits, this`bought, this`told,
               this`found, this`blind
      ensures Valid() && Onward()
      ensures o.Done? ==> Accounted(old(rows)) && AllProtected(|old(rows)|) && OutcomesKnown(old(rows))
      ensures quiet && Short(old(position)) && old(IdsFree(rows, 0, Unprotected)) && old(IdsFree(rows, 0, TimeExit))
              ==> o.Done?
    {
      ReconcilesCompose();
      hide Valid, TableValid, LegalLog, After, Oversees, Elapses, Advances, Shrunk, Owned, Missed, Settled;
      ghost var before := rows;
      var _ :- Reconcile(now);
      o := ExitsAfter(before, now);
    }

    /** `_skip`: recorded unless the pick already has a row. */
    method Skip(k: Key) returns (o: Outcome<()>)
      requires Valid() && status.Some?
      modifies this`status, this`resuming, this`deeds, this`touched, this`reopened, this`position, this`stops, this`rows
      ensures Valid() && Elapsed()
      ensures rows == old(rows) || rows == old(rows) + [Row(k, Skipped, None, 0, None)]
      ensures o.Done? ==> HasRow(rows, k)
    {
      StepsCompose();
      hide Valid, TableValid, LegalLog, After, Oversees, Elapses, Advances, Shrunk;
      var _ :- Await();
      if !Known(rows, k) {
        ghost var was := rows;
        var _ :- AddRow(Row(k, Skipped, None, 0, None));
        assert rows[|was|].key == k;
      }
      return Done(());
    }

    /** The checks before the row: None skips the pick, else the contracts to sell. */
    method Size(pick: Pick, balance: real, q: Quote) returns (n: Option<int>)
      requires q.tick != 0.0
      ensures n.Some? ==> var stop := StopPrice(q, StopShare(pick));
                          && n.value == EntryContracts(balance, risk, q.bid, stop, q.contractValue) >= 1
                          && LeverageOk(StopShare(pick), q.maintenance)
                          && 0.0 < q.bid < stop && 0.0 < q.mark < stop
    {
      hide EntryContracts, LeverageOk, ToTick;
      var dist := StopShare(pick);
      var stop := StopPrice(q, dist);
      if q.bid <= 0.0 || q.ask <= 0.0 || q.mark <= 0.0 || q.mark >= stop || q.ask - q.bid > 0.25 * (stop - q.bid)
         || !LeverageOk(dist, q.maintenance) {
        return None;
      }
      var contracts := EntryContracts(balance, risk, q.bid, stop, q.contractValue);
      return if contracts < 1 then None else Some(contracts);
    }

    /** What the POST's answer makes of the row behind it. */
    ghost predicate Recorded(i: nat, sent: Sent)
      reads this
      requires i < |rows|
    {
      match sent
      case Refused => rows[i].status.Failed?
      case Unread => rows[i].status.Skipped?
      case Unknown => rows[i].status.Sending? && Guarded()
      case Filled(n) => if n == 0 then rows[i].status.Skipped? else OpenOrFlat(i) && Protected(rows[i].product.value)
    }

    /** What the POST's answer makes of the row. */
    method Book(i: nat, now: int, sent: Sent, mood: Mood) returns (o: Outcome<()>)
      requires Valid() && i < |rows| && rows[i].status.Sending? && rows[i].product.Some? && status.Some?
      modifies this`status, this`resuming, this`deeds, this`touched, this`reopened, this`position, this`stops,
               this`rows, this`flat, this`misread, this`stopSeen, this`closeSeen, this`exits, this`bought, this`told
      ensures Valid() && Onward() && OnlyRow(i) && StopReadOf(rows[i].product.value)
      ensures sent.Filled? && sent.contracts != 0 ==> rows[i].status.Sending? || OpenOrFlat(i)
      ensures o.Done? ==> Recorded(i, sent) && (stopSeen == old(stopSeen) || Protected(rows[i].product.value))
      ensures quiet && sent.Unread? ==> o.Done? && Still()
    {
      ReconcilesCompose();
      hide Valid, TableValid, LegalLog, After, Oversees, Elapses, Advances, Shrunk, Safe, Standing;
      match sent {
        case Refused => o := PutRow(i, rows[i].(status := Failed));
        case Unknown => o := SetState(Halted);
        case Unread => o := PutRow(i, rows[i].(status := Skipped));
        case Filled(n) =>
          if n == 0 {
            o := PutRow(i, rows[i].(status := Skipped));
          } else {
            o := Opened(i, n, now, mood);
          }
      }
    }

    /** After the row: send once, and record what came back. An outcome nobody saw leaves
        the row SENDING and the account guarded. A filled order is never failed, and it is
        skipped exactly when its success was no order. */
    method Send(i: nat, now: int, news: News, mood: Mood) returns (o: Outcome<()>)
      requires Valid() && i < |rows| && rows[i].status.Sending? && rows[i].product.Some? && status.Some?
      requires rows[i].key !in After(deeds).posts && After(deeds).entitled
      modifies this`status, this`resuming, this`deeds, this`touched, this`reopened, this`position, this`stops,
               this`rows, this`flat, this`misread, this`stopSeen, this`closeSeen, this`exits, this`bought, this`told,
               this`orders, this`answers
      ensures OnlyRow(i) && Valid() && Sending(old(rows)[i].key, old(rows)[i].product.value)
      ensures StopReadOf(rows[i].product.value)
      ensures answers == old(answers) || answers == old(answers)[rows[i].key := SentOf(news)]
      ensures rows[i].status.Sending? || rows[i].key in answers
      ensures o.Done? ==> After(deeds).posts == After(old(deeds)).posts + [rows[i].key]
      ensures news.Telling? && news.fill != 0 ==> rows[i].status.Sending? || OpenOrFlat(i)
      ensures o.Done? ==> rows[i].key in answers && answers[rows[i].key] == SentOf(news) && Recorded(i, SentOf(news))
      ensures o.Done? && rows[i].key in orders && orders[rows[i].key] != 0
              ==> !rows[i].status.Failed? && (rows[i].status.Skipped? <==> news.Blurry?)
      ensures o.Done? ==> stopSeen == old(stopSeen) || Protected(rows[i].product.value)
      ensures o.Done? && !rows[i].status.Open? && !Guarded()
              ==> StaysFlat(old(position), position) || news.Blurry? || rows[i].product.value in misread
      ensures quiet && news.Blurry? && news.lands
              ==> && o.Done? && status == old(status) && rows[i].key in orders && orders[rows[i].key] == news.fill
                  && Pos(position, rows[i].product.value) == Pos(old(position), rows[i].product.value) - news.fill
    {
      hide Valid, TableValid, LegalLog, After, Oversees, Elapses, Advances, Sends, Shrunk, StaysFlat;
      ghost var k, product, start := rows[i].key, rows[i].product.value, Now();
      NotYetOrdered(k);
      var sent := PostEntry(i, news);
      if sent.Aborted? { return Aborted; }
      ghost var posted := Now();
      SentStatus(start, posted, k, product);
      o := Book(i, now, sent.value, mood);
      SendsThen(start, posted, Now(), k, product);
      if Pos(position, product) == 0 { FlatAgain(start, Now(), k, product); }
    }

    lemma NotYetOrdered(k: Key)
      requires Valid() && k !in After(deeds).posts
      ensures k !in orders && k !in answers
    {
      hide TableValid, LegalLog, After;
    }

    /** A filled entry whose success is no order: skipped, the account running on, and
        the position without a row. */
    method UnheardEntry(i: nat, now: int, fill: nat, mood: Mood) returns (o: Outcome<()>)
      requires Valid() && i < |rows| && rows[i].status.Sending? && rows[i].product.Some? && status == Some(Running)
      requires rows[i].key !in After(deeds).posts && After(deeds).entitled && quiet && fill > 0
      requires Pos(position, rows[i].product.value) == 0 && Alone(i)
      modifies this`status, this`resuming, this`deeds, this`touched, this`reopened, this`position, this`stops,
               this`rows, this`flat, this`misread, this`stopSeen, this`closeSeen, this`exits, this`bought, this`told,
               this`orders, this`answers
      ensures o.Done? && status == Some(Running) && i < |rows| && rows[i].status.Skipped? && rows[i].product.Some?
      ensures Pos(position, rows[i].product.value) == -(fill as int) && !Owned(rows, rows[i].product.value)
    {
      hide TableValid, LegalLog, After;
      o := Send(i, now, Blurry(true, fill), mood);
    }

    /** No other active row has the product of row `i`. */
    ghost predicate Alone(i: nat)
      reads this`rows
      requires i < |rows|
    {
      forall j :: 0 <= j < |rows| && j != i && Active(rows[j]) ==> rows[j].product != rows[i].product
    }

    ghost function View(): Scene
      reads this`rows, this`status, this`position, this`exits, this`deeds, this`flat, this`misread, this`bought,
            this`touched, this`reopened, this`answers, this`stopSeen
    {
      Scene(Now(), rows, answers, stopSeen)
    }

    /** What an entry of this key may change. */
    twostate predicate Entering(k: Key, product: int)
      reads this
    {
      Sending(k, product) && Enters(old(View()), View())
    }

    /** The entry half of a pass: what it keeps, completed or not. */
    twostate predicate Trading()
      reads this
    {
      Enters(old(View()), View())
    }

    /** And what it keeps completed. */
    twostate predicate WellEntered()
      reads this
    {
      EntersWell(old(View()), View())
    }

    lemma NewKey(k: Key)
      requires Valid() && !HasRow(rows, k)
      ensures k !in After(deeds).posts
    {
      hide LegalLog, After;
    }

    /** The row goes in, unless its key is there. */
    method Write(row: Row) returns (o: Outcome<()>)
      requires Valid() && status.Some? && After(deeds).entitled && ActiveCount(rows) < MAX_OPEN
      requires row.status.Sending? && row.product == Some(productOf(row.key.symbol))
      modifies this`status, this`resuming, this`deeds, this`touched, this`reopened, this`position, this`stops, this`rows
      ensures Valid() && Elapsed() && (rows == old(rows) || rows == old(rows) + [row])
      ensures o.Done? ==> && rows == old(rows) + [row] && !HasRow(old(rows), row.key) && row.key !in After(deeds).posts
                          && status.Some? && After(deeds).entitled
    {
      StepsCompose();
      hide Valid, TableValid, LegalLog, After, Oversees, Elapses, Advances, Shrunk, ActiveCount, HasRow;
      var _ :- Await();
      if Known(rows, row.key) { return Aborted; }
      NewKey(row.key);
      o := AddRow(row);
    }

    /** The row is written before the order leaves; a crash after it leaves a SENDING
        row for the next pass to resolve. A row already there ends the pass. */
    method WriteThenSend(row: Row, now: int, news: News, mood: Mood) returns (o: Outcome<()>)
      requires Valid() && status.Some? && After(deeds).entitled && ActiveCount(rows) < MAX_OPEN
      requires row.status.Sending? && row.product == Some(productOf(row.key.symbol))
      modifies this`status, this`resuming, this`deeds, this`touched, this`reopened, this`position, this`stops,
               this`rows, this`flat, this`misread, this`stopSeen, this`closeSeen, this`exits, this`bought, this`told,
               this`orders, this`answers
      ensures Valid() && Entering(row.key, row.product.value)
      ensures o.Done? ==> WellEntered() && After(deeds).posts == After(old(deeds)).posts + [row.key]
    {
      hide Valid, TableValid, LegalLog, After, Oversees, Elapses, Advances, Sends, Shrunk, Grown, ActiveCount,
           StaysFlat, Enters, EntersWell, HasRow, Safe;
      ghost var k, product, a := row.key, row.product.value, View();
      var written := Write(row);
      ghost var m := View();
      AwaitSends(a.at, m.at, k, product);
      StepEnters(a, m);
      WellEnters(a, m);
      if written.Aborted? { return Aborted; }
      o := Send(|rows| - 1, now, news, mood);
      SentAfter(a.at, m.at, Now(), k, product);
      EntryEnters(a, m, View(), row, product);
    }

    method SkipPick(k: Key, product: int) returns (o: Outcome<()>)
      requires Valid() && status.Some?
      modifies this`status, this`resuming, this`deeds, this`touched, this`reopened, this`position, this`stops, this`rows
      ensures Valid() && Entering(k, product) && WellEntered() && After(deeds).posts == After(old(deeds)).posts
    {
      hide Valid, TableValid, LegalLog, After, Oversees, Elapses, Advances, Sends, EntersWell, StaysFlat;
      ghost var a := View();
      o := Skip(k);
      AwaitSends(a.at, Now(), k, product);
      StepEnters(a, View());
      assert Enters(a, View()) by { WellEnters(a, View()); }
    }

    /** A pick recorded as skipped, and the account judged for it. */
    method SkipAnd(k: Key, product: int, to: Status) returns (o: Outcome<()>)
      requires Valid() && status.Some? && !Shut(status) && to in {Halted, Stopped}
      modifies this`status, this`resuming, this`deeds, this`touched, this`reopened, this`position, this`stops, this`rows
      ensures Valid() && Entering(k, product) && WellEntered()
      ensures After(deeds).posts == After(old(deeds)).posts
      ensures o.Done? ==> status == Some(to) || reopened
    {
      hide Valid, TableValid, LegalLog, After, Oversees, Elapses, Advances, Sends, Enters, EntersWell, StaysFlat,
           Shrunk;
      ghost var a := View();
      var skipped := Skip(k);
      ghost var b := View();
      AwaitSends(a.at, b.at, k, product);
      AwaitKeepsOpen(a.at, b.at);
      StepEnters(a, b);
      WellEnters(a, b);
      if skipped.Aborted? { return Aborted; }
      o := SetState(to);
      SendsThen(a.at, b.at, Now(), k, product);
      AdvanceKeepsPosts(b.at, Now());
      StepEnters(b, View());
      WellEnters(b, View());
      EntersCompose(a, b, View());
    }

    /** The last checks, on a coin read flat with a slot free. */
    method EnterFlat(k: Key, pick: Pick, now: int, balance: real, q: Quote, leverage: int, news: News, mood: Mood)
      returns (o: Outcome<()>)
      requires Valid() && status.Some? && After(deeds).entitled && k.symbol == pick.symbol
      requires ActiveCount(rows) < MAX_OPEN
      modifies this`status, this`resuming, this`deeds, this`touched, this`reopened, this`position, this`stops,
               this`rows, this`flat, this`misread, this`stopSeen, this`closeSeen, this`exits, this`bought, this`told,
               this`orders, this`answers
      ensures Valid() && Entering(k, productOf(pick.symbol))
      ensures o.Done? ==> WellEntered()
      ensures After(deeds).posts != After(old(deeds)).posts
              ==> && leverage == LEVERAGE && q.tick != 0.0
                  && LeverageOk(StopShare(pick), q.maintenance)
                  && EntryContracts(balance, risk, q.bid, StopPrice(q, StopShare(pick)), q.contractValue) >= 1
    {
      hide Valid, TableValid, LegalLog, After, LeverageOk, EntryContracts, StopPrice, ActiveCount, Oversees, Elapses,
           Advances, Sends, Enters, EntersWell, StaysFlat;
      ghost var product, a := productOf(pick.symbol), View();
      ElapsesNothing(a.at);
      StepEnters(a, a);
      AwaitSends(a.at, a.at, k, product);
      WellEnters(a, a);
      if q.tick == 0.0 { return Aborted; }
      var n := Size(pick, balance, q);
      if n.None? || leverage != LEVERAGE {
        o := SkipPick(k, productOf(pick.symbol));
        return;
      }
      o := WriteThenSend(Row(k, RowStatus.Sending, Some(productOf(pick.symbol)), n.value, None), now, news, mood);
    }

    /** The checks of an entry on a wallet that is the right one. */
    method EnterChecked(k: Key, pick: Pick, now: int, balance: real, q: Quote, leverage: int, news: News, mood: Mood)
      returns (o: Outcome<()>)
      requires Valid() && status.Some? && After(deeds).entitled && k.symbol == pick.symbol
      modifies this`status, this`resuming, this`deeds, this`touched, this`reopened, this`position, this`stops,
               this`rows, this`flat, this`misread, this`stopSeen, this`closeSeen, this`exits, this`bought, this`told,
               this`orders, this`answers
      ensures Valid() && Entering(k, productOf(pick.symbol))
      ensures o.Done? ==> WellEntered()
      ensures After(deeds).posts != After(old(deeds)).posts
              ==> && ActiveCount(old(rows)) < MAX_OPEN && leverage == LEVERAGE && q.tick != 0.0
                  && LeverageOk(StopShare(pick), q.maintenance)
                  && EntryContracts(balance, risk, q.bid, StopPrice(q, StopShare(pick)), q.contractValue) >= 1
    {
      hide Valid, TableValid, LegalLog, After, LeverageOk, EntryContracts, StopPrice, ActiveCount, Oversees, Elapses,
           Advances, Sends, Enters, EntersWell, StaysFlat;
      ghost var product, a := productOf(pick.symbol), View();
      ElapsesNothing(a.at);
      if ActiveCount(rows) >= MAX_OPEN {
        o := SkipPick(k, productOf(pick.symbol));
        return;
      }
      var size := ReadSize(productOf(pick.symbol));
      ghost var b := View();
      AwaitSends(a.at, b.at, k, product);
      StepEnters(a, b);
      WellEnters(a, b);
      SentStatus(a.at, b.at, k, product);
      if size.Aborted? { return Aborted; }
      if size.value != 0 {
        o := SkipPick(k, productOf(pick.symbol));
      } else {
        o := EnterFlat(k, pick, now, balance, q, leverage, news, mood);
      }
      AwaitSent(a.at, a.at, b.at, k, product);
      AwaitThenSends(a.at, b.at, Now(), k, product);
      EntersCompose(a, b, View());
    }

    /** `_enter_one`: the checks, then the row, then the one POST. The readings are
        whatever the venue answers. */
    method EnterOne(day: int, pick: Pick, now: int, balance: real, q: Quote, leverage: int, news: News, mood: Mood)
      returns (o: Outcome<()>)
      requires Valid() && status.Some? && After(deeds).entitled
      modifies this`status, this`resuming, this`deeds, this`touched, this`reopened, this`position, this`stops,
               this`rows, this`flat, this`misread, this`stopSeen, this`closeSeen, this`exits, this`bought, this`told,
               this`orders, this`answers
      ensures Valid() && Entering(Key(day, pick.symbol), productOf(pick.symbol))
      ensures o.Done? ==> WellEntered()
      ensures balance < FLOOR_USD ==> After(deeds).posts == After(old(deeds)).posts
                                      && (o.Done? ==> status == Some(Stopped) || reopened)
      ensures balance > WRONG_ACCOUNT_RATIO * startUsd ==> After(deeds).posts == After(old(deeds)).posts
                                                           && (o.Done? ==> Guarded())
      ensures After(deeds).posts != After(old(deeds)).posts
              ==> && ActiveCount(old(rows)) < MAX_OPEN && leverage == LEVERAGE && q.tick != 0.0
                  && LeverageOk(StopShare(pick), q.maintenance)
                  && EntryContracts(balance, risk, q.bid, StopPrice(q, StopShare(pick)), q.contractValue) >= 1
    {
      hide Valid, TableValid, LegalLog, After, LeverageOk, EntryContracts, StopPrice, ActiveCount, Oversees, Elapses,
           Advances, Sends, Enters, EntersWell, StaysFlat;
      var k := Key(day, pick.symbol);
      ghost var product, a := productOf(pick.symbol), View();
      EntitledIsOpen();
      var waited := Await();
      ghost var b := View();
      AwaitSends(a.at, b.at, k, product);
      AwaitKeepsOpen(a.at, b.at);
      StepEnters(a, b);
      WellEnters(a, b);
      SentStatus(a.at, b.at, k, product);
      if waited.Aborted? { return Aborted; }
      if balance < FLOOR_USD {
        o := SkipAnd(k, productOf(pick.symbol), Stopped);
      } else if balance > WRONG_ACCOUNT_RATIO * startUsd {
        o := SkipAnd(k, productOf(pick.symbol), Halted);
      } else {
        o := EnterChecked(k, pick, now, balance, q, leverage, news, mood);
      }
      AwaitThenSends(a.at, b.at, Now(), k, product);
      EntersCompose(a, b, View());
    }

    lemma EntitledIsOpen()
      requires Valid() && After(deeds).entitled
      ensures !Shut(status)
    {
      hide TableValid, After, LegalLog;
      EntitledStatus(deeds);
    }

    /** `_entries`: the day's picks, one at a time, while the account runs. */
    method Entries(now: int, entered: bool, picks: seq<Pick>) returns (o: Outcome<()>)
      requires Valid() && status.Some? && After(deeds).entitled
      modifies this`status, this`resuming, this`deeds, this`touched, this`reopened, this`position, this`stops,
               this`rows, this`flat, this`misread, this`stopSeen, this`closeSeen, this`exits, this`bought, this`told,
               this`orders, this`answers
      ensures Valid() && Trading()
      ensures o.Done? ==> WellEntered()
      ensures After(deeds).posts != After(old(deeds)).posts ==> entered && now < now / DAY * DAY + ENTRY_WINDOW
      ensures quiet && (!entered || now >= now / DAY * DAY + ENTRY_WINDOW) ==> o.Done?
    {
      hide Valid, TableValid, LegalLog, After, Oversees, Elapses, Advances, Enters, EntersWell, StaysFlat;
      var day := now / DAY * DAY;
      ghost var a := View();
      ElapsesNothing(a.at);
      StepEnters(a, a);
      WellEnters(a, a);
      if now >= day + ENTRY_WINDOW { return Done(()); }
      var waited := Await();
      ghost var b := View();
      AwaitSends(a.at, b.at, Key(day, ""), 0);
      StepEnters(a, b);
      WellEnters(a, b);
      EntersMeans(a, b);
      if waited.Aborted? { return Aborted; }
      if !entered { return Done(()); }
      var done := rows;
      for j := 0 to |picks|
        invariant Valid() && Trading() && After(deeds).entitled && WellEntered() && status.Some?
      {
        ghost var c := View();
        var more := EnterPick(day, picks[j], now, done);
        EntersCompose(a, c, View());
        EntersMeans(c, View());
        if more.Aborted? { return Aborted; }
        if !more.value { return Done(()); }
      }
      return Done(());
    }

    /** One pick of the day, and whether the account still runs. */
    method EnterPick(day: int, pick: Pick, now: int, done: seq<Row>) returns (o: Outcome<bool>)
      requires Valid() && status.Some? && After(deeds).entitled
      modifies this`status, this`resuming, this`deeds, this`touched, this`reopened, this`position, this`stops,
               this`rows, this`flat, this`misread, this`stopSeen, this`closeSeen, this`exits, this`bought, this`told,
               this`orders, this`answers
      ensures Valid() && Trading()
      ensures o.Done? ==> WellEntered() && (o.value ==> After(deeds).entitled)
    {
      hide Valid, TableValid, LegalLog, After, LeverageOk, EntryContracts, StopPrice, ActiveCount, Oversees, Elapses,
           Advances, Sends, Enters, EntersWell, StaysFlat;
      var k := Key(day, pick.symbol);
      ghost var a := View();
      ElapsesNothing(a.at);
      StepEnters(a, a);
      WellEnters(a, a);
      if Known(done, k) { return Done(true); }
      var killed: bool := *;
      var entered;
      if killed || !pick.paperEntry || pick.atrp == 0.0 {
        entered := Skip(k);
        StepEnters(a, View());
        WellEnters(a, View());
      } else {
        var balance: real, q: Quote, leverage: int, news: News, mood: Mood := *, *, *, *, *;
        entered := EnterOne(day, pick, now, balance, q, leverage, news, mood);
      }
      ghost var b := View();
      if entered.Aborted? { return Aborted; }
      var s := State();
      StepEnters(b, View());
      WellEnters(b, View());
      EntersCompose(a, b, View());
      if s.Aborted? { return Aborted; }
      return Done(s.value.Running?);
    }

    /** The entries keep what reconciling and exiting have established. */
    method EntriesAfter(ghost before: seq<Row>, now: int, entered: bool, picks: seq<Pick>) returns (o: Outcome<()>)
      requires Valid() && status.Some? && After(deeds).entitled && |before| <= |rows|
      requires Accounted(before) && AllProtected(|before|) && OutcomesKnown(before)
      modifies this`status, this`resuming, this`deeds, this`touched, this`reopened, this`position, this`stops,
               this`rows, this`flat, this`misread, this`stopSeen, this`closeSeen, this`exits, this`bought, this`told,
               this`orders, this`answers
      ensures Valid() && Trading()
      ensures o.Done? ==> Accounted(before) && AllProtected(|before|) && OutcomesKnown(before)
      ensures quiet && (!entered || now >= now / DAY * DAY + ENTRY_WINDOW) ==> o.Done?
    {
      hide Valid, TableValid, LegalLog, After, Safe, Unheard, Owned, Missed;
      ghost var mid, heard := rows, answers;
      o := Entries(now, entered, picks);
      if o.Done? {
        forall q | Pos(position, q) != 0 && !Guarded() ensures Owned(rows, q) || Excused(before, q) {
          EnteredIsExcused(before, mid, heard, q);
        }
        forall i | 0 <= i < |rows| && rows[i].status.Open?
          ensures rows[i].product.Some? && (Protected(rows[i].product.value)
                                            || Unheard(|before|, rows, answers, rows[i].product.value))
        {
          if i < |mid| { assert mid[i] == rows[i]; }
          EnteredIsExcused(before, mid, heard, rows[i].product.value);
        }
      }
    }

    /** An owner or an excuse from before the entries is one after them. */
    lemma EnteredIsExcused(before: seq<Row>, mid: seq<Row>, heard: map<Key, Sent>, product: int)
      requires |before| <= |mid| <= |rows| && mid <= rows && HeardStays(mid, heard, answers)
      ensures Owned(mid, product) ==> Owned(rows, product)
      ensures Missed(before, mid, found, product) ==> Overlooked(before, product)
      ensures Unheard(|before|, mid, heard, product) || Unheard(|mid|, rows, answers, product)
              ==> Unheard(|before|, rows, answers, product)
    {
      UnheardStays(|before|, |mid|, mid, rows, heard, answers, product);
      if Missed(before, mid, found, product) {
        var i :| && 0 <= i < |before| && i < |mid| && before[i].status.Sending? && before[i].product == Some(product)
                 && mid[i].status.Failed? && before[i].key in found
                 && found[before[i].key] in {Missing, NoOrder, Order(0)};
        assert rows[i] == mid[i];
      }
    }

    ghost method ForgetSizes()
      requires Valid()
      modifies this`flat, this`misread
      ensures Valid() && misread == {}
    {
      hide TableValid, LegalLog, After;
      flat, misread := {}, {};
    }

    ghost method Forget()
      requires Valid()
      modifies this`flat, this`misread, this`blind, this`stopSeen, this`closeSeen, this`found, this`bought, this`told,
               this`touched, this`reopened
      ensures Valid() && !touched && !reopened && !blind && misread == {}
    {
      hide Valid;
      ForgetSizes();
      stopSeen, closeSeen, found, bought, told := map[], map[], map[], map[], {};
      blind, touched, reopened := false, false, false;
    }

    ghost method Note(d: Deed)
      requires Valid() && (d.Began? || (d.Believed? && status == Some(d.seen)))
      modifies this`deeds
      ensures Valid() && old(deeds) <= deeds && After(deeds) == Next(After(old(deeds)), d)
    {
      hide TableValid, LegalLog, After;
      Log(d);
    }

    /** What a pass forgets: everything it has read. */
    method Begin()
      requires Valid()
      modifies this`deeds, this`flat, this`misread, this`blind, this`stopSeen, this`closeSeen, this`found, this`bought,
               this`told, this`touched, this`reopened
      ensures Valid() && !touched && !reopened && !blind && misread == {} && old(deeds) <= deeds
      ensures After(deeds).posts == After(old(deeds)).posts && (After(old(deeds)).clean ==> After(deeds).clean)
    {
      hide Valid, After;
      Forget();
      Note(Began);
    }

    /** Reading the status keeps what reconciling and exiting have established. */
    method StateAfter(ghost before: seq<Row>) returns (o: Outcome<Status>)
      requires Valid() && |before| == |rows| && Accounted(before) && AllProtected(|before|) && OutcomesKnown(before)
      modifies this`status, this`resuming, this`deeds, this`touched, this`reopened, this`position, this`stops
      ensures Valid() && Onward() && Accounted(before) && AllProtected(|before|) && OutcomesKnown(before)
      ensures o.Done? ==> && status.Some? && o.value != Off && After(deeds).entitled == o.value.Running?
                          && (Shut(old(status)) ==> Shut(Some(o.value)) || reopened)
      ensures quiet ==> o.Done?
    {
      ReconcilesCompose();
      hide Valid, TableValid, LegalLog, After, Owned, Missed, Unheard, Active, Oversees, Elapses, Advances, Shrunk;
      o := State();
    }

    /** `step` up to its entries, and the status it then reads. While nothing else happens,
        no position is long and no active row's buy-back ids are used, it gets there. */
    method BeforeEntries(now: int) returns (o: Outcome<Status>)
      requires Valid()
      modifies this`status, this`resuming, this`deeds, this`touched, this`reopened, this`position, this`stops,
               this`rows, this`flat, this`misread, this`stopSeen, this`closeSeen, this`exits, this`bought, this`told,
               this`found, this`blind
      ensures Valid() && Onward()
      ensures o.Done? ==> && Accounted(old(rows)) && AllProtected(|old(rows)|) && OutcomesKnown(old(rows))
                          && status.Some? && After(deeds).entitled == o.value.Running?
      ensures o.Done? && Shut(old(status)) ==> Shut(Some(o.value)) || reopened
      ensures quiet && Short(old(position)) && old(IdsFree(rows, 0, Unprotected)) && old(IdsFree(rows, 0, TimeExit))
              ==> o.Done?
    {
      ReconcilesCompose();
      hide Valid, TableValid, LegalLog, After, Owned, Missed, Unheard, Short, Active, Oversees, Elapses, Advances,
           Shrunk;
      ghost var before := rows;
      var _ :- State();
      var _ :- SettleAll(now);
      o := StateAfter(before);
    }

    /** `step`, which never raises: reconcile, exit, then enter. Completed, and unless the
        account is guarded: every position belongs to an active row, or its order was
        overlooked or went unheard, or its reading was none; every open one was seen
        behind a stop by this pass; no row is left with its outcome unknown. A shut
        account posts nothing, and stays shut unless an owner reopens it. With nothing to
        enter, while nothing else happens, no position is long and no active row's
        buy-back ids are used, it completes. */
    method Pass(now: int, entered: bool, picks: seq<Pick>) returns (o: Outcome<()>)
      requires Valid()
      modifies this`status, this`resuming, this`deeds, this`touched, this`reopened, this`position, this`stops,
               this`rows, this`flat, this`misread, this`stopSeen, this`closeSeen, this`exits, this`bought, this`told,
               this`orders, this`answers, this`found, this`blind
      ensures Valid() && old(deeds) <= deeds && (After(old(deeds)).clean ==> After(deeds).clean)
      ensures o.Done? ==> Accounted(old(rows)) && AllProtected(|old(rows)|) && OutcomesKnown(old(rows))
      ensures Shut(old(status)) ==> (Shut(status) && After(deeds).posts == After(old(deeds)).posts) || reopened
      ensures && quiet && Short(old(position))
              && old(IdsFree(rows, 0, Unprotected)) && old(IdsFree(rows, 0, TimeExit))
              && (!entered || now >= now / DAY * DAY + ENTRY_WINDOW)
              ==> o.Done?
    {
      hide TableValid, LegalLog, After, Safe, Resolved, Owned, Missed, Unheard;
      ghost var before := rows;
      Begin();
      var s :- BeforeEntries(now);
      if !s.Running? {
        return Done(());
      }
      o := EntriesAfter(before, now, entered, picks);
    }

    /** Between passes anything may happen to positions and stops. */
    method World()
      requires Valid()
      modifies this`position, this`stops, this`flat
      ensures Valid()
    {
      flat := {};
      position := *;
      stops := *;
    }

    /** Any run: passes that may die anywhere, the account switched off, owners resuming
        at any await, and the world in between. While no two resumes are ever in flight
        together, STOPPED is absorbing and posts nothing. */
    method Life(picks: seq<seq<Pick>>)
      requires Valid() && After(deeds).clean
      modifies this`status, this`resuming, this`deeds, this`touched, this`reopened, this`position, this`stops,
               this`rows, this`flat, this`misread, this`stopSeen, this`closeSeen, this`exits, this`bought, this`told,
               this`orders, this`answers, this`found, this`blind
      ensures Valid() && old(deeds) <= deeds && After(deeds).clean
      ensures old(status) == Some(Stopped) && After(deeds).single
              ==> status == Some(Stopped) && After(deeds).posts == After(old(deeds)).posts
      ensures forall i, j ::
                0 <= i < j < |deeds| && deeds[i].Posted? && deeds[j].Posted? ==> deeds[i].key != deeds[j].key
      ensures ActiveCount(rows) <= MAX_OPEN
    {
      hide LegalLog, After;
      ghost var was := deeds;
      for n := 0 to |picks|
        invariant Valid() && old(deeds) <= deeds && After(deeds).clean
      {
        var now: int, entered: bool := *, *;
        World();
        Others();
        var _ := Pass(now, entered, picks[n]);
      }
      forall i, j | 0 <= i < j < |deeds| && deeds[i].Posted? && deeds[j].Posted? ensures deeds[i].key != deeds[j].key {
        AtMostOnePostPerPick(deeds, i, j);
      }
      if After(deeds).single && old(status) == Some(Stopped) {
        assert deeds[..|was|] == was;
        StoppedIsAbsorbing(deeds, |was|);
      }
    }
  }

  lemma {:induction false} ActiveCountUpdate(rows: seq<Row>, i: nat, row: Row)
    requires i < |rows|
    ensures ActiveCount(rows[i := row])
            == ActiveCount(rows) - (if Active(rows[i]) then 1 else 0) + if Active(row) then 1 else 0
  {
    var last := |rows| - 1;
    if i == last {
      assert rows[i := row][..last] == rows[..last];
    } else {
      assert rows[i := row][..last] == rows[..last][i := row];
      ActiveCountUpdate(rows[..last], i, row);
    }
  }
}
