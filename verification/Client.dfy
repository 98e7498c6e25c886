/** live/client.py: one POST per order, and an unobserved outcome resolved by
    asking. The venue is a nondeterministic environment that answers honestly,
    late, or not at all. */
module Client {
  import opened Numbers

  /** An order as the venue reports it. A size that cannot be read is None. */
  datatype Row = Row(cid: string, final: bool, size: Option<int>, unfilled: Option<int>)

  /** `_died_unfilled`: final, and nothing filled, both stated by the venue. */
  predicate DiedUnfilled(r: Row) {
    r.final && r.size.Some? && r.unfilled.Some? && r.size.value > 0 && r.unfilled.value >= r.size.value
  }

  // ---------------------------------------------------------------- the wire

  /** What the body of a response holds. `Unread` is an object that is no order, as text
      that is not JSON becomes; `Blank` is null, empty or no object at all. */
  datatype Body = Order(row: Row) | SaysFailure | Unread | Blank

  /** No response at all, or a status and a body. */
  datatype Wire = Silence | Answer(status: int, body: Body)

  datatype Parsed = Value(body: Body) | Declined | Outage

  /** `_parse`, with a transport failure read as its callers read it. */
  function Parse(w: Wire): Parsed {
    if w.Silence? || w.status == 429 || 500 <= w.status < 600 then Outage
    else if w.status != 200 || w.body.SaysFailure? then Declined
    else Value(w.body)
  }

  /** A 200 to a read by client id is a row, an object that is none, or nothing. */
  datatype Reply = Found(row: Row) | Garbled | Empty | Refused | Unavailable

  /** A page that is no list of orders has no order in it. */
  datatype Page = Rows(rows: seq<Row>) | PageGarbled | PageRefused | PageUnavailable

  /** One request and what came back of it. */
  datatype Exchange = Sent(cid: string, wire: Wire) | Asked(wanted: string, reply: Reply) | Listed(page: Page)

  /** What is taken for an order's row: the row, or an answer that is none. */
  datatype Shown = Real(row: Row) | NoRow

  /** What one exchange shows of an order. */
  function HitOf(cid: string, x: Exchange): Option<Shown> {
    if x.Asked? && x.reply.Found? && x.wanted == cid then Some(Real(x.reply.row))
    else if x.Asked? && x.reply.Garbled? && x.wanted == cid then Some(NoRow)
    else if x.Listed? && x.page.Rows? && RowOf(cid, x.page.rows).Some? then Some(Real(RowOf(cid, x.page.rows).value))
    else None
  }

  /** What the exchanges with the venue show of an order: the first that shows any. */
  function HitIn(cid: string, xs: seq<Exchange>): Option<Shown> {
    if xs == [] then None
    else
      var earlier := HitIn(cid, xs[..|xs| - 1]);
      if earlier.Some? then earlier else HitOf(cid, xs[|xs| - 1])
  }

  /** The first row of the page under the client id. */
  function RowOf(cid: string, rows: seq<Row>): Option<Row> {
    if rows == [] then None else if rows[0].cid == cid then Some(rows[0]) else RowOf(cid, rows[1..])
  }

  /** How many pages of orders were answered, a refusal included, short of an outage. */
  function PagesRead(xs: seq<Exchange>): nat {
    if xs == [] then 0
    else PagesRead(xs[..|xs| - 1]) + if xs[|xs| - 1].Listed? && !xs[|xs| - 1].page.PageUnavailable? then 1 else 0
  }

  /** Not finding an order is an answer: its own route says nothing, or both pages, its
      own route being refused, were answered without it. */
  predicate Answered(cid: string, xs: seq<Exchange>) {
    || (xs != [] && xs[|xs| - 1] == Asked(cid, Empty))
    || (Asked(cid, Refused) in xs && PagesRead(xs) == 2)
  }

  // ---------------------------------------------------------------- the venue

  class Venue {
    /** Orders the matching engine holds or held, by client id. */
    var orders: map<string, Row>
    /** Orders sent and not lost, still on their way. */
    var late: set<string>
    /** Every POST ever made. */
    ghost var posts: seq<string>
    /** Every exchange ever had. */
    ghost var log: seq<Exchange>

    ghost predicate Valid()
      reads this
    {
      && (forall c :: c in orders ==> orders[c].cid == c)
      && (forall c :: c in late ==> c !in orders)
    }

    /** The order exists at the venue, or may yet arrive. */
    ghost predicate Live(cid: string)
      reads this
    {
      cid in orders || cid in late
    }

    /** A position has come, or may still come, of the order. */
    ghost predicate CanOpen(cid: string)
      reads this
    {
      cid in late || (cid in orders && !DiedUnfilled(orders[cid]))
    }

    /** Late orders may have landed and resting ones moved; nothing else. */
    twostate predicate OnlyTimePassed()
      reads this
    {
      && late <= old(late)
      && (forall c :: Live(c) <==> old(Live(c)))
      && (forall c :: CanOpen(c) ==> old(CanOpen(c)))
      && forall c :: c in old(orders) ==> c in orders && (old(orders[c]).final ==> orders[c] == old(orders[c]))
    }

    constructor ()
      ensures Valid() && orders == map[] && late == {} && posts == [] && log == []
    {
      orders, late, posts, log := map[], {}, [], [];
    }

    /** Time passes: late orders land, resting ones move; final ones never do. */
    method Drift()
      requires Valid()
      modifies this`orders, this`late
      ensures Valid() && OnlyTimePassed()
    {
      var steps: int := *;
      for i := 0 to if steps > 0 then steps else 0
        invariant Valid() && OnlyTimePassed()
      {
        var c: string := *;
        var row: Row := *;
        if c in late || (c in orders && !orders[c].final) {
          orders, late := orders[c := row.(cid := c)], late - {c};
        }
      }
    }

    /** One POST. A client id already known is declined. A declined order is not
        acted on; a success that reads as an order carries its own row. A success that
        reads as none may stand before anything. */
    method Post(cid: string) returns (w: Wire)
      requires Valid()
      modifies this
      ensures Valid() && posts == old(posts) + [cid] && log == old(log) + [Sent(cid, w)]
      ensures old(Live(cid)) ==> !(Parse(w).Value? && Parse(w).body.Order?)
      ensures forall c :: c != cid ==> (Live(c) <==> old(Live(c))) && (CanOpen(c) <==> old(CanOpen(c)))
      ensures forall c :: c in old(orders) ==> c in orders && orders[c] == old(orders[c])
      ensures old(late) <= late <= old(late) + {cid}
      ensures Parse(w).Declined? ==> orders == old(orders) && late == old(late)
      ensures Parse(w).Value? && Parse(w).body.Order? ==> cid in orders && Parse(w).body.row == orders[cid]
    {
      posts := posts + [cid];
      var lost: bool := *;
      var garbled: bool, blank: bool := *, *;
      var accepted: bool := *;
      var delayed: bool := *;
      var status: int := *;
      var row: Row := *;
      w := Silence;
      if cid in orders || cid in late || !accepted {
        if !lost && status != 200 {
          w := Answer(status, SaysFailure);
        } else if !lost {
          w := Answer(200, SaysFailure);
        }
      } else if delayed {
        late := late + {cid};
      } else {
        orders := orders[cid := row.(cid := cid)];
        if !lost {
          w := Answer(200, Order(orders[cid]));
        } else if 500 <= status < 600 || status == 429 {
          w := Answer(status, Blank);
        }
      }
      if garbled {
        w := Answer(200, if blank then Blank else Unread);
      }
      log := log + [Sent(cid, w)];
    }

    /** One GET by client id; it may fail, or be no order at all, but never invents one. */
    method GetByCid(cid: string) returns (r: Reply)
      requires Valid()
      modifies this`orders, this`late, this`log
      ensures Valid() && OnlyTimePassed() && log == old(log) + [Asked(cid, r)]
      ensures r.Found? ==> cid in orders && r.row == orders[cid]
    {
      Drift();
      var how: int := *;
      r := if how == 0 then Unavailable
           else if how == 1 then Refused
           else if how == 2 then Garbled
           else if how == 3 then Empty
           else if cid in orders then Found(orders[cid]) else Empty;
      log := log + [Asked(cid, r)];
    }

    /** One page of orders: true rows, but only some of them. */
    method GetPage() returns (p: Page)
      requires Valid()
      modifies this`orders, this`late, this`log
      ensures Valid() && OnlyTimePassed() && log == old(log) + [Listed(p)]
      ensures p.Rows? ==> forall r :: r in p.rows ==> r.cid in orders && r == orders[r.cid]
    {
      Drift();
      var how: int, size: int := *, *;
      var rows: seq<Row> := [];
      for i := 0 to if size > 0 then size else 0
        invariant forall r :: r in rows ==> r.cid in orders && r == orders[r.cid]
      {
        var c: string := *;
        if c in orders { rows := rows + [orders[c]]; }
      }
      p := if how == 0 then PageUnavailable else if how == 1 then PageRefused
           else if how == 2 then PageGarbled else Rows(rows);
      log := log + [Listed(p)];
    }
  }

  lemma {:induction false} HitInAppends(cid: string, xs: seq<Exchange>, ys: seq<Exchange>)
    ensures HitIn(cid, xs + ys) == if HitIn(cid, xs).Some? then HitIn(cid, xs) else HitIn(cid, ys)
  {
    if ys == [] {
      assert xs + ys == xs;
    } else {
      assert (xs + ys)[..|xs + ys| - 1] == xs + ys[..|ys| - 1];
      HitInAppends(cid, xs, ys[..|ys| - 1]);
    }
  }

  lemma {:induction false} PagesReadAppends(xs: seq<Exchange>, ys: seq<Exchange>)
    ensures PagesRead(xs + ys) == PagesRead(xs) + PagesRead(ys)
  {
    if ys == [] {
      assert xs + ys == xs;
    } else {
      assert (xs + ys)[..|xs + ys| - 1] == xs + ys[..|ys| - 1];
      PagesReadAppends(xs, ys[..|ys| - 1]);
    }
  }

  // ---------------------------------------------------------------- the client

  datatype Answer = Placed(row: Row) | PlacedUnread | Rejected | Ambiguous

  datatype Lookup = Hit(row: Row) | HitUnread | Miss | Failed

  class LiveClient {
    const venue: Venue
    const maxRetries: nat

    constructor (venue: Venue, maxRetries: nat)
      ensures this.venue == venue && this.maxRetries == maxRetries
    {
      this.venue, this.maxRetries := venue, maxRetries;
    }

    /** `_read` by client id: retried while the venue is unavailable, and no further. */
    method ReadByCid(cid: string) returns (r: Reply, ghost xs: seq<Exchange>)
      requires venue.Valid()
      modifies venue`orders, venue`late, venue`log
      ensures venue.Valid() && venue.OnlyTimePassed() && venue.log == old(venue.log) + xs
      ensures |xs| <= maxRetries && (maxRetries > 0 ==> xs != [])
      ensures forall k :: 0 <= k < |xs| ==> xs[k] == Asked(cid, if k < |xs| - 1 then Unavailable else r)
      ensures r.Unavailable? ==> |xs| == maxRetries
      ensures !r.Unavailable? ==> xs != [] && xs[|xs| - 1] == Asked(cid, r)
      ensures HitIn(cid, xs) == (if r.Found? then Some(Real(r.row)) else if r.Garbled? then Some(NoRow) else None)
      ensures PagesRead(xs) == 0
      ensures r.Found? ==> cid in venue.orders && r.row == venue.orders[cid]
    {
      xs := [];
      assert HitIn(cid, xs).None? && PagesRead(xs) == 0;
      hide HitIn, PagesRead, RowOf;
      for attempt := 0 to maxRetries
        invariant venue.Valid() && venue.OnlyTimePassed() && venue.log == old(venue.log) + xs
        invariant |xs| == attempt && HitIn(cid, xs).None? && PagesRead(xs) == 0
        invariant forall k :: 0 <= k < |xs| ==> xs[k] == Asked(cid, Unavailable)
      {
        r := venue.GetByCid(cid);
        HitInAppends(cid, xs, [Asked(cid, r)]);
        PagesReadAppends(xs, [Asked(cid, r)]);
        SingleExchange(cid, Asked(cid, r));
        xs := xs + [Asked(cid, r)];
        if !r.Unavailable? { return; }
      }
      r := Unavailable;
    }

    method ReadPage(ghost cid: string) returns (p: Page, ghost xs: seq<Exchange>)
      requires venue.Valid()
      modifies venue`orders, venue`late, venue`log
      ensures venue.Valid() && venue.OnlyTimePassed() && venue.log == old(venue.log) + xs
      ensures HitIn(cid, xs)
              == if p.Rows? && RowOf(cid, p.rows).Some? then Some(Real(RowOf(cid, p.rows).value)) else None
      ensures PagesRead(xs) == (if p.PageUnavailable? then 0 else 1) && forall k :: 0 <= k < |xs| ==> xs[k].Listed?
      ensures p.Rows? ==> forall r :: r in p.rows ==> r.cid in venue.orders && r == venue.orders[r.cid]
    {
      xs := [];
      assert HitIn(cid, xs).None? && PagesRead(xs) == 0;
      hide HitIn, PagesRead, RowOf;
      for attempt := 0 to maxRetries
        invariant venue.Valid() && venue.OnlyTimePassed() && venue.log == old(venue.log) + xs
        invariant HitIn(cid, xs).None? && PagesRead(xs) == 0 && forall k :: 0 <= k < |xs| ==> xs[k].Listed?
      {
        p := venue.GetPage();
        HitInAppends(cid, xs, [Listed(p)]);
        PagesReadAppends(xs, [Listed(p)]);
        SingleExchange(cid, Listed(p));
        xs := xs + [Listed(p)];
        if !p.PageUnavailable? { return; }
      }
      p := PageUnavailable;
    }

    /** `get_order_by_client_id`: the dedicated route, else a scan of two pages. It hits
        exactly when an exchange shows something under the id: a row, then the venue's
        own, or, exactly when its own route answered with no order, that answer. It
        misses only on an answer, and otherwise fails. */
    method GetOrderByClientId(cid: string) returns (r: Lookup, ghost xs: seq<Exchange>)
      requires venue.Valid()
      modifies venue`orders, venue`late, venue`log
      ensures venue.Valid() && venue.OnlyTimePassed() && venue.log == old(venue.log) + xs
      ensures maxRetries > 0 ==> xs != [] && xs[0].Asked? && xs[0].wanted == cid
      ensures HitIn(cid, xs) == if r.Hit? then Some(Real(r.row)) else if r.HitUnread? then Some(NoRow) else None
      ensures r.HitUnread? <==> xs != [] && xs[|xs| - 1] == Asked(cid, Garbled)
      ensures r.Miss? ==> Answered(cid, xs)
      ensures r.Failed? ==> !Answered(cid, xs)
      ensures r.Hit? ==> r.row.cid == cid && cid in venue.orders && r.row == venue.orders[cid]
    {
      var reply;
      reply, xs := ReadByCid(cid);
      match reply {
        case Found(row) => return Hit(row), xs;
        case Garbled => return HitUnread, xs;
        case Empty => return Miss, xs;
        case Unavailable => return Failed, xs;
        case Refused =>
      }
      for path := 0 to 2
        invariant venue.Valid() && venue.OnlyTimePassed() && venue.log == old(venue.log) + xs
        invariant maxRetries > 0 ==> xs != [] && xs[0].Asked? && xs[0].wanted == cid
        invariant HitIn(cid, xs).None? && PagesRead(xs) == path && Asked(cid, Refused) in xs
        invariant xs != [] && xs[|xs| - 1] != Asked(cid, Empty) && xs[|xs| - 1] != Asked(cid, Garbled)
      {
        ghost var ys;
        var page;
        page, ys := ReadPage(cid);
        HitInAppends(cid, xs, ys);
        PagesReadAppends(xs, ys);
        xs := xs + ys;
        if page.PageUnavailable? { return Failed, xs; }
        if page.Rows? {
          var row := FindRow(cid, page.rows);
          if row.Some? { return Hit(row.value), xs; }
        }
      }
      r := Miss;
    }

    /** `place_order`: sent exactly once. What it returns is read off the POST's answer
        alone, unless nothing was heard; then off the lookup that follows. A returned row
        is the order's own, unless the answer, of the POST or of the lookup, was a success
        that is no order; and an order neither answered nor found is ambiguous, never
        rejected. */
    method PlaceOrder(cid: string) returns (r: Answer, ghost wire: Wire, ghost seen: seq<Exchange>)
      requires venue.Valid()
      modifies venue
      ensures venue.Valid() && venue.posts == old(venue.posts) + [cid]
      ensures venue.log == old(venue.log) + [Sent(cid, wire)] + seen
      ensures r == Reading(cid, wire, seen)
      ensures r.PlacedUnread? <==> NoOrder(wire) || (Parse(wire).Outage? && EndsGarbled(cid, seen))
      ensures !Parse(wire).Outage? ==> seen == []
      ensures Parse(wire).Outage? && maxRetries > 0 ==> seen != [] && seen[0].Asked? && seen[0].wanted == cid
      ensures forall c :: c != cid ==> (venue.Live(c) <==> old(venue.Live(c)))
                                       && (venue.CanOpen(c) ==> old(venue.CanOpen(c)))
      ensures old(venue.Live(cid)) ==> venue.Live(cid) && !(Parse(wire).Value? && Parse(wire).body.Order?)
      ensures r.Rejected? ==> && (venue.Live(cid) <==> old(venue.Live(cid)))
                              && (venue.CanOpen(cid) <==> old(venue.CanOpen(cid)))
      ensures r.Placed? ==> r.row.cid == cid && cid in venue.orders && r.row == venue.orders[cid]
    {
      var heard := venue.Post(cid);
      wire, seen := heard, [];
      match Parse(heard) {
        case Value(Order(row)) => return Placed(row), wire, seen;
        case Value(_) => return PlacedUnread, wire, seen;
        case Declined => return Rejected, wire, seen;
        case Outage =>
      }
      var found;
      found, seen := GetOrderByClientId(cid);
      return if found.Hit? then Placed(found.row) else if found.HitUnread? then PlacedUnread else Ambiguous, wire, seen;
    }
  }

  lemma SingleExchange(cid: string, x: Exchange)
    ensures HitIn(cid, [x]) == HitOf(cid, x)
    ensures PagesRead([x]) == if x.Listed? && !x.page.PageUnavailable? then 1 else 0
  {
    assert [x][..0] == [];
  }

  method FindRow(cid: string, rows: seq<Row>) returns (r: Option<Row>)
    ensures r == RowOf(cid, rows)
    ensures r.Some? ==> r.value in rows && r.value.cid == cid
  {
    for k := 0 to |rows|
      invariant RowOf(cid, rows) == RowOf(cid, rows[k..])
    {
      assert rows[k..][1..] == rows[k + 1..];
      if rows[k].cid == cid { return Some(rows[k]); }
    }
    r := None;
  }

  /** What one POST and the reads after it amount to. */
  function Reading(cid: string, wire: Wire, seen: seq<Exchange>): Answer {
    match Parse(wire)
    case Value(Order(row)) => Placed(row)
    case Value(_) => PlacedUnread
    case Declined => Rejected
    case Outage =>
      var hit := HitIn(cid, seen);
      if hit.None? then Ambiguous else if hit.value.Real? then Placed(hit.value.row) else PlacedUnread
  }

  /** A success that is no order. */
  predicate NoOrder(w: Wire) { w.Answer? && w.status == 200 && (w.body.Unread? || w.body.Blank?) }

  /** The lookup ended on the order's own route answering with no order. */
  predicate EndsGarbled(cid: string, seen: seq<Exchange>) {
    seen != [] && seen[|seen| - 1] == Asked(cid, Garbled)
  }

  /** A POST nobody answered and a lookup answered with no order: returned as a row. */
  lemma UnreadLookup(cid: string)
    ensures Reading(cid, Silence, [Asked(cid, Garbled)]) == PlacedUnread
    ensures Reading(cid, Answer(502, Blank), [Asked(cid, Unavailable), Asked(cid, Garbled)]) == PlacedUnread
  {
    SingleExchange(cid, Asked(cid, Garbled));
    SingleExchange(cid, Asked(cid, Unavailable));
    assert [Asked(cid, Unavailable), Asked(cid, Garbled)] == [Asked(cid, Unavailable)] + [Asked(cid, Garbled)];
    HitInAppends(cid, [Asked(cid, Unavailable)], [Asked(cid, Garbled)]);
  }

  /** A filled order is missed when its own route is refused and neither page lists it,
      or when its own route answers with nothing. */
  lemma FilledOrderMissed(cid: string)
    ensures var filled := Row(cid, true, Some(1), Some(0));
            && !DiedUnfilled(filled)
            && HitIn(cid, [Asked(cid, Refused), Listed(Rows([])), Listed(Rows([]))]) == None
            && HitIn(cid, [Asked(cid, Empty)]) == None && Answered(cid, [Asked(cid, Empty)])
            && HitIn(cid, [Asked(cid, Refused), Listed(Rows([filled]))]) == Some(Real(filled))
  {
    var miss := [Asked(cid, Refused), Listed(Rows([])), Listed(Rows([]))];
    HitInAppends(cid, [Asked(cid, Refused)], [Listed(Rows([]))]);
    HitInAppends(cid, [Asked(cid, Refused)] + [Listed(Rows([]))], [Listed(Rows([]))]);
    assert miss == [Asked(cid, Refused)] + [Listed(Rows([]))] + [Listed(Rows([]))];
    SingleExchange(cid, Asked(cid, Empty));
    SingleExchange(cid, Asked(cid, Refused));
    SingleExchange(cid, Listed(Rows([])));
    var filled := Row(cid, true, Some(1), Some(0));
    HitInAppends(cid, [Asked(cid, Refused)], [Listed(Rows([filled]))]);
    SingleExchange(cid, Listed(Rows([filled])));
  }
}
