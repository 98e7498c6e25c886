/** live/fade.py: the paper account's positions, walked over one-minute bars that
    arrive in polls. Every position is a short held to the end of its day. */
module Fade {
  import opened Numbers
  import opened Costs

  const MINUTE := 60
  const HOUR := 3600
  const DAY := 86400
  const RISK_PCT := 0.02
  const MAX_LEVERAGE := 5.0

  datatype Bar = Bar(time: int, high: real, low: real, close: real)

  datatype Reason = Stop | Target | Time | NoData

  datatype Exit = Exit(time: int, price: real, reason: Reason)

  /** A position's row; `lastChecked` is the open time of the last bar walked. */
  datatype Trip = Trip(day: int, entryTime: int, entry: real, stop: real, target: Num, lastChecked: int,
                       exit: Option<Exit>)
  {
    function End(): int { day + DAY }
  }

  ghost predicate Sorted(bars: seq<Bar>) {
    forall i, j :: 0 <= i < j < |bars| ==> bars[i].time < bars[j].time
  }

  // ---------------------------------------------------------------- walk

  predicate Hits(p: Trip, b: Bar) {
    b.high >= p.stop || (p.target.Some? && b.low <= p.target.value)
  }

  /** A minute touching both counts as the stop, filled at the worse of the two. */
  function HitExit(p: Trip, b: Bar): Exit {
    if b.high >= p.stop then Exit(b.time + MINUTE, Max(p.stop, b.close), Stop)
    else Exit(b.time + MINUTE, if p.target.Some? then p.target.value else 0.0, Target)
  }

  predicate Skips(p: Trip, b: Bar) {
    b.time <= p.lastChecked || b.time < p.entryTime || b.time >= p.End()
  }

  /** The loop of `walk`: the position, and the close of the last bar it read. */
  function Pass(p: Trip, bars: seq<Bar>, last: Num): (Trip, Num)
    decreases |bars|
  {
    if bars == [] then (p, last)
    else
      var b := bars[0];
      if Skips(p, b) then Pass(p, bars[1..], last)
      else
        var q := p.(lastChecked := b.time);
        if Hits(p, b) then (q.(exit := Some(HitExit(p, b))), last)
        else if b.time == p.End() - MINUTE then (q.(exit := Some(Exit(p.End(), b.close, Time))), Some(b.close))
        else Pass(q, bars[1..], Some(b.close))
  }

  function Walked(p: Trip, bars: seq<Bar>, dayComplete: bool): Trip {
    var (q, last) := Pass(p, bars, None);
    if q.exit.None? && dayComplete && last.Some? then q.(exit := Some(Exit(p.End(), last.value, Time))) else q
  }

  /** The mutable row `walk` advances. */
  class Position {
    const day: int
    const entryTime: int
    const entry: real
    const stop: real
    const target: Num
    var lastChecked: int
    var exit: Option<Exit>

    function Value(): Trip
      reads this
    {
      Trip(day, entryTime, entry, stop, target, lastChecked, exit)
    }

    constructor (p: Trip)
      ensures Value() == p
    {
      day, entryTime, entry, stop, target := p.day, p.entryTime, p.entry, p.stop, p.target;
      lastChecked, exit := p.lastChecked, p.exit;
    }

    method Walk(bars: seq<Bar>, dayComplete: bool) returns (done: bool)
      requires exit.None?
      modifies this`lastChecked, this`exit
      ensures Value() == Walked(old(Value()), bars, dayComplete)
      ensures done == Value().exit.Some?
    {
      var end := day + DAY;
      var lastClose: Num := None;
      for k := 0 to |bars|
        invariant exit.None?
        invariant Pass(old(Value()), bars, None) == Pass(Value(), bars[k..], lastClose)
      {
        assert bars[k..][0] == bars[k] && bars[k..][1..] == bars[k + 1..];
        var b := bars[k];
        if b.time <= lastChecked || b.time < entryTime || b.time >= end {
          continue;
        }
        lastChecked := b.time;
        if b.high >= stop {
          exit := Some(Exit(b.time + MINUTE, Max(stop, b.close), Stop));
          return true;
        }
        if target.Some? && b.low <= target.value {
          exit := Some(Exit(b.time + MINUTE, target.value, Target));
          return true;
        }
        lastClose := Some(b.close);
        if b.time == end - MINUTE {
          exit := Some(Exit(end, b.close, Time));
          return true;
        }
      }
      if dayComplete && lastClose.Some? {
        exit := Some(Exit(end, lastClose.value, Time));
        return true;
      }
      return false;
    }
  }

  // ---------------------------------------------------------------- one poll

  /** How many bars open before `t`. */
  function CountBefore(bars: seq<Bar>, t: int): (n: nat)
    ensures n <= |bars|
    ensures Sorted(bars) ==> forall k :: 0 <= k < |bars| ==> (k < n <==> bars[k].time < t)
  {
    if bars == [] || bars[0].time >= t then 0 else 1 + CountBefore(bars[1..], t)
  }

  /** The candles the venue serves for [lo, hi]. */
  function Served(day: seq<Bar>, lo: int, hi: int): seq<Bar> {
    var i, j := CountBefore(day, lo), CountBefore(day, hi + 1);
    if i <= j then day[i..j] else []
  }

  function LastClosed(now: int): int { now / MINUTE * MINUTE - MINUTE }

  predicate DayOver(p: Trip, now: int) { now >= p.End() + 2 * MINUTE }

  /** The close of the last of these bars opening before the day's end. */
  function LastBefore(bars: seq<Bar>, end: int): Num {
    var n := CountBefore(bars, end);
    if n == 0 then None else Some(bars[n - 1].close)
  }

  /** `_monitor` on one row: fetch from `lo`, walk, and past the day's end fall back
      to the last traded close, or an hour later to the entry price. */
  function Polled(p: Trip, day: seq<Bar>, lo: int, now: int): Trip {
    var hi := LastClosed(now);
    var bars := if hi <= lo then [] else Served(day, lo, hi);
    var q := if bars == [] then p else Walked(p, bars, DayOver(p, now));
    if q.exit.Some? || !DayOver(p, now) then q
    else
      var prior := LastBefore(bars, p.End());
      if prior.Some? then q.(exit := Some(Exit(p.End(), prior.value, Time)))
      else if now >= p.End() + HOUR then q.(exit := Some(Exit(p.End(), p.entry, NoData)))
      else q
  }

  method PollOne(pos: Position, day: seq<Bar>, lo: int, now: int) returns (done: bool)
    requires pos.exit.None?
    modifies pos`lastChecked, pos`exit
    ensures pos.Value() == Polled(old(pos.Value()), day, lo, now)
    ensures done == pos.Value().exit.Some?
  {
    var end := pos.day + DAY;
    var over := now >= end + 2 * MINUTE;
    var hi := now / MINUTE * MINUTE - MINUTE;
    var bars := if hi <= lo then [] else Served(day, lo, hi);
    done := false;
    if |bars| > 0 {
      done := pos.Walk(bars, over);
    }
    if !done && over {
      var prior := LastBefore(bars, end);
      if prior.Some? {
        pos.exit := Some(Exit(end, prior.value, Time));
        done := true;
      } else if now >= end + HOUR {
        pos.exit := Some(Exit(end, pos.entry, NoData));
        done := true;
      }
    }
  }

  // ---------------------------------------------------------------- the day, read once

  predicate Live(p: Trip, b: Bar) { p.entryTime < b.time < p.End() }

  function FirstHit(p: Trip, day: seq<Bar>): (k: nat)
    ensures k <= |day|
    ensures k < |day| ==> Live(p, day[k]) && Hits(p, day[k])
    ensures forall j :: 0 <= j < k ==> !(Live(p, day[j]) && Hits(p, day[j]))
  {
    if day == [] || (Live(p, day[0]) && Hits(p, day[0])) then 0 else 1 + FirstHit(p, day[1..])
  }

  /** How the position ends, said without walking: the first minute after entry that
      touches the stop or the target, else the last traded close of the day. */
  function Outcome(p: Trip, day: seq<Bar>): Exit {
    var k := FirstHit(p, day);
    if k < |day| then HitExit(p, day[k])
    else
      var last := LastBefore(day, p.End());
      Exit(p.End(), if last.Some? then last.value else p.entry, if last.Some? then Time else NoData)
  }

  /** One UTC day of a traded coin: bars on the minute grid, the entry bar among them. */
  ghost predicate TradedDay(p: Trip, day: seq<Bar>, e: nat) {
    && Sorted(day) && p.day % MINUTE == 0
    && (forall k :: 0 <= k < |day| ==> day[k].time % MINUTE == 0)
    && e < |day| && day[e].time == p.entryTime && p.day <= p.entryTime < p.End()
  }

  /** `q` is `p` with bars up to index `c` walked and nothing hit. */
  ghost predicate Waiting(p: Trip, q: Trip, day: seq<Bar>, c: nat) {
    && q == p.(lastChecked := q.lastChecked) && q.exit.None?
    && c < |day| && day[c].time == q.lastChecked && p.entryTime <= q.lastChecked < p.End()
    && (forall k :: 0 <= k <= c ==> !(Live(p, day[k]) && Hits(p, day[k])))
  }

  lemma FirstHitIs(p: Trip, day: seq<Bar>, k: nat)
    requires k < |day| && Live(p, day[k]) && Hits(p, day[k])
    requires forall j :: 0 <= j < k ==> !(Live(p, day[j]) && Hits(p, day[j]))
    ensures FirstHit(p, day) == k
  {
    var f := FirstHit(p, day);
    assert !(f < k);
    assert !(k < f);
  }

  lemma HitDecides(p: Trip, day: seq<Bar>, k: nat)
    requires k < |day| && Live(p, day[k]) && Hits(p, day[k])
    requires forall j :: 0 <= j < k ==> !(Live(p, day[j]) && Hits(p, day[j]))
    ensures Outcome(p, day) == HitExit(p, day[k])
  {
    FirstHitIs(p, day, k);
  }

  lemma NoHitAtAll(p: Trip, day: seq<Bar>)
    requires forall j :: 0 <= j < |day| ==> !(Live(p, day[j]) && Hits(p, day[j]))
    ensures FirstHit(p, day) == |day|
  {
  }

  /** Walking on over `day[i..j]` from a waiting position: it waits on, or it ends
      as the whole day says it ends. */
  lemma {:induction false} PassReachesOutcome(p: Trip, q: Trip, day: seq<Bar>, e: nat, c: nat, i: nat, j: nat,
                                              last: Num)
    returns (d: nat)
    requires TradedDay(p, day, e) && Waiting(p, q, day, c) && i <= j <= |day|
    requires forall k :: c < k < i ==> day[k].time >= p.End()
    requires last.Some? ==> last.value == day[c].close
    ensures var (r, l) := Pass(q, day[i..j], last);
            if r.exit.Some? then r.exit.value == Outcome(p, day)
            else && Waiting(p, r, day, d) && c <= d
                 && (forall k :: d < k < j ==> day[k].time >= p.End())
                 && (if l.Some? then l.value == day[d].close else d == c && last.None?)
    decreases j - i
  {
    hide Outcome;
    var rest := day[i..j];
    d := c;
    if i < j {
      assert rest[1..] == day[i + 1..j] && rest[0] == day[i];
      var b := day[i];
      if Skips(q, b) {
        d := PassReachesOutcome(p, q, day, e, c, i + 1, j, last);
      } else {
        BarsInOrder(day, c, i);
        if Hits(p, b) {
          HitDecides(p, day, i);
        } else if b.time == p.End() - MINUTE {
          LastMinuteDecides(p, day, e, i);
        } else {
          d := PassReachesOutcome(p, q.(lastChecked := b.time), day, e, i, i + 1, j, Some(b.close));
        }
      }
    }
  }

  lemma CountIs(bars: seq<Bar>, t: int, n: nat)
    requires Sorted(bars) && n <= |bars|
    requires n > 0 ==> bars[n - 1].time < t
    requires n < |bars| ==> bars[n].time >= t
    ensures CountBefore(bars, t) == n
  {
    var m := CountBefore(bars, t);
    assert !(n < m);
    assert !(m < n);
  }

  lemma BarsInOrder(day: seq<Bar>, c: nat, i: nat)
    requires Sorted(day) && c < |day| && i < |day| && day[c].time < day[i].time
    ensures c < i
  {
  }

  lemma NothingInsideTheLastMinute(day: int, t: int)
    requires day % 60 == 0 && t % 60 == 0 && t > day + DAY - 60
    ensures t >= day + DAY
  {
  }

  /** With the day's last minute walked and nothing hit, the day ends at its close. */
  lemma LastMinuteDecides(p: Trip, day: seq<Bar>, e: nat, i: nat)
    requires TradedDay(p, day, e) && i < |day| && day[i].time == p.End() - MINUTE
    requires forall k :: 0 <= k <= i ==> !(Live(p, day[k]) && Hits(p, day[k]))
    ensures Outcome(p, day) == Exit(p.End(), day[i].close, Time)
  {
    forall k | i < k < |day| ensures day[k].time >= p.End() {
      NothingInsideTheLastMinute(p.day, day[k].time);
    }
    NoHitAtAll(p, day);
    CountIs(day, p.End(), i + 1);
  }

  /** With every bar before the end walked and nothing hit, the day ends at the
      close of the last bar walked. */
  lemma LastWalkedDecides(p: Trip, q: Trip, day: seq<Bar>, e: nat, c: nat)
    requires TradedDay(p, day, e) && Waiting(p, q, day, c)
    requires forall k :: c < k < |day| ==> day[k].time >= p.End()
    ensures Outcome(p, day) == Exit(p.End(), day[c].close, Time)
  {
    NoHitAtAll(p, day);
    CountIs(day, p.End(), c + 1);
  }

  lemma ServedWindow(day: seq<Bar>, lo: int, hi: int)
    requires Sorted(day) && lo <= hi
    ensures var (i, j) := (CountBefore(day, lo), CountBefore(day, hi + 1)); i <= j && Served(day, lo, hi) == day[i..j]
  {
    var i, j := CountBefore(day, lo), CountBefore(day, hi + 1);
    if i > 0 { assert day[i - 1].time < lo; }
  }

  /** The window of a poll past the day's end reaches beyond it, and holds the last
      walked bar. */
  lemma FinalWindow(p: Trip, q: Trip, day: seq<Bar>, e: nat, c: nat, lo: int, now: int)
    requires TradedDay(p, day, e) && Waiting(p, q, day, c) && lo <= q.lastChecked && DayOver(p, now)
    ensures var hi := LastClosed(now);
            && lo < hi && CountBefore(day, lo) <= c < CountBefore(day, hi + 1)
            && forall k :: CountBefore(day, hi + 1) <= k < |day| ==> day[k].time >= p.End()
  {
  }

  /** A finished pass that read nothing new falls back to the last walked bar. */
  lemma PriorIsLastWalked(p: Trip, q: Trip, day: seq<Bar>, e: nat, c: nat, i: nat, j: nat)
    requires TradedDay(p, day, e) && Waiting(p, q, day, c) && i <= c < j <= |day|
    requires forall k :: c < k < j ==> day[k].time >= p.End()
    ensures LastBefore(day[i..j], p.End()) == Some(day[c].close)
  {
    var bars := day[i..j];
    assert bars[c - i] == day[c];
    assert Sorted(bars);
    CountIs(bars, p.End(), c - i + 1);
  }

  /** Past the day's end, what a fallback reads and the whole day's outcome are the same. */
  lemma FallbackIsOutcome(p: Trip, r: Trip, day: seq<Bar>, e: nat, d: nat, i: nat, j: nat)
    requires TradedDay(p, day, e) && Waiting(p, r, day, d) && i <= d < j <= |day|
    requires forall k :: d < k < |day| ==> day[k].time >= p.End()
    ensures Outcome(p, day) == Exit(p.End(), day[d].close, Time)
    ensures LastBefore(day[i..j], p.End()) == Some(day[d].close)
  {
    hide Outcome, LastBefore, Live, Hits;
    LastWalkedDecides(p, r, day, e, d);
    PriorIsLastWalked(p, r, day, e, d, i, j);
  }

  /** One poll over any window starting at or before the last walked bar either
      leaves the position waiting, or ends it the way the whole day ends it; once
      the day is over it always ends. */
  lemma PollReachesOutcome(p: Trip, q: Trip, day: seq<Bar>, e: nat, c: nat, lo: int, now: int) returns (d: nat)
    requires TradedDay(p, day, e) && Waiting(p, q, day, c) && lo <= q.lastChecked
    ensures var r := Polled(q, day, lo, now);
            && (if r.exit.Some? then r.exit.value == Outcome(p, day) else Waiting(p, r, day, d))
            && (DayOver(p, now) ==> r.exit.Some?)
  {
    hide Outcome, LastBefore;
    d := c;
    var hi := LastClosed(now);
    if lo < hi {
      ServedWindow(day, lo, hi);
      var i, j := CountBefore(day, lo), CountBefore(day, hi + 1);
      var bars := Served(day, lo, hi);
      d := PassReachesOutcome(p, q, day, e, c, i, j, None);
      if DayOver(p, now) {
        FinalWindow(p, q, day, e, c, lo, now);
        var (r, l) := Pass(q, bars, None);
        if r.exit.None? {
          FallbackIsOutcome(p, r, day, e, d, i, j);
        }
      }
    } else if DayOver(p, now) {
      FinalWindow(p, q, day, e, c, lo, now);
    }
  }

  // ---------------------------------------------------------------- any sequence of polls

  /** One tick of the runner: how far before the last walked bar it fetches (other
      rows of the coin may lag), when, and whether it died before its write. */
  datatype Tick = Tick(back: nat, now: int, crashed: bool)

  /** A closed row is not polled again; a crashed poll leaves the row as it was. */
  function PolledThrough(p: Trip, day: seq<Bar>, ticks: seq<Tick>): Trip {
    if ticks == [] then p
    else
      var q, t := PolledThrough(p, day, ticks[..|ticks| - 1]), ticks[|ticks| - 1];
      if q.exit.Some? || t.crashed then q else Polled(q, day, q.lastChecked - t.back, t.now)
  }

  lemma StartsWaiting(p: Trip, day: seq<Bar>, e: nat)
    requires TradedDay(p, day, e) && p.lastChecked == p.entryTime && p.exit.None?
    ensures Waiting(p, p, day, e)
  {
  }

  lemma {:induction false} PollsReachOutcome(p: Trip, day: seq<Bar>, e: nat, ticks: seq<Tick>) returns (c: nat)
    requires TradedDay(p, day, e) && p.lastChecked == p.entryTime && p.exit.None?
    ensures var q := PolledThrough(p, day, ticks);
            if q.exit.Some? then q.exit.value == Outcome(p, day) else Waiting(p, q, day, c)
  {
    hide Polled, Outcome, TradedDay;
    if ticks == [] {
      StartsWaiting(p, day, e);
      c := e;
    } else {
      var before, t := ticks[..|ticks| - 1], ticks[|ticks| - 1];
      c := PollsReachOutcome(p, day, e, before);
      var q := PolledThrough(p, day, before);
      if q.exit.None? && !t.crashed {
        c := PollReachesOutcome(p, q, day, e, c, q.lastChecked - t.back, t.now);
      }
    }
  }

  /** Chunked polling is one pass: however the day's minutes are cut into polls,
      overlapping, late or lost to crashes, a position that has exited has exited at
      the time, price and reason of the whole day read once, never for lack of data. */
  lemma ChunkedPollingIsOnePass(p: Trip, day: seq<Bar>, e: nat, ticks: seq<Tick>)
    requires TradedDay(p, day, e) && p.lastChecked == p.entryTime && p.exit.None?
    ensures var q := PolledThrough(p, day, ticks);
            && (q.exit.Some? ==> q.exit.value == Outcome(p, day) && q.exit.value.reason != NoData)
            && q == p.(lastChecked := q.lastChecked, exit := q.exit)
  {
    var _ := PollsReachOutcome(p, day, e, ticks);
    EntryBarIsPrior(p, day, e);
    PollingKeepsTerms(p, day, ticks);
  }

  lemma EntryBarIsPrior(p: Trip, day: seq<Bar>, e: nat)
    requires TradedDay(p, day, e)
    ensures Outcome(p, day).reason != NoData
  {
    assert day[e].time < p.End();
    assert e < CountBefore(day, p.End());
  }

  lemma {:induction false} PassKeepsTerms(p: Trip, bars: seq<Bar>, last: Num)
    ensures var q := Pass(p, bars, last).0; q == p.(lastChecked := q.lastChecked, exit := q.exit)
    decreases |bars|
  {
    if bars != [] {
      PassKeepsTerms(p, bars[1..], last);
      PassKeepsTerms(p.(lastChecked := bars[0].time), bars[1..], Some(bars[0].close));
    }
  }

  lemma PollKeepsTerms(p: Trip, day: seq<Bar>, lo: int, now: int)
    ensures var q := Polled(p, day, lo, now); q == p.(lastChecked := q.lastChecked, exit := q.exit)
  {
    hide Pass, Served, LastBefore;
    PassKeepsTerms(p, Served(day, lo, LastClosed(now)), None);
  }

  lemma {:induction false} PollingKeepsTerms(p: Trip, day: seq<Bar>, ticks: seq<Tick>)
    ensures var q := PolledThrough(p, day, ticks); q == p.(lastChecked := q.lastChecked, exit := q.exit)
  {
    hide Polled;
    if ticks != [] {
      PollingKeepsTerms(p, day, ticks[..|ticks| - 1]);
      var q, t := PolledThrough(p, day, ticks[..|ticks| - 1]), ticks[|ticks| - 1];
      PollKeepsTerms(q, day, q.lastChecked - t.back, t.now);
    }
  }

  /** The first poll past the day's end that reaches its write closes the row, and
      nothing changes it afterwards: exactly one exit. */
  lemma {:induction false} DayEndAlwaysCloses(p: Trip, day: seq<Bar>, e: nat, ticks: seq<Tick>, k: nat)
    requires TradedDay(p, day, e) && p.lastChecked == p.entryTime && p.exit.None?
    requires k < |ticks| && DayOver(p, ticks[k].now) && !ticks[k].crashed
    ensures PolledThrough(p, day, ticks).exit == Some(Outcome(p, day))
    decreases |ticks|
  {
    hide Polled, Outcome, TradedDay;
    var before := ticks[..|ticks| - 1];
    if k < |before| {
      DayEndAlwaysCloses(p, day, e, before, k);
    } else {
      var c := PollsReachOutcome(p, day, e, before);
      var q := PolledThrough(p, day, before);
      if q.exit.None? {
        c := PollReachesOutcome(p, q, day, e, c, q.lastChecked - ticks[k].back, ticks[k].now);
      }
    }
  }

  /** In particular the reference itself is one `walk` over the day, whenever any
      minute traded after entry. */
  lemma WholeDayWalkIsOutcome(p: Trip, day: seq<Bar>, e: nat, k: nat)
    requires TradedDay(p, day, e) && p.lastChecked == p.entryTime && p.exit.None?
    requires k < |day| && Live(p, day[k])
    ensures Walked(p, day, true).exit == Some(Outcome(p, day))
  {
    assert day[0..|day|] == day;
    var d := PassReachesOutcome(p, p, day, e, e, 0, |day|, None);
    var (r, l) := Pass(p, day, None);
    if r.exit.None? {
      LastWalkedDecides(p, r, day, e, d);
    }
  }

  // ---------------------------------------------------------------- sizing

  /** `size`: contracts for the risk budget, capped by leverage. */
  function Size(equity: real, entry: real, stop: real, cv: real): int {
    if !(equity > 0.0 && stop > entry > 0.0 && cv > 0.0) then 0
    else
      var byRisk := RISK_PCT * equity / ((stop - entry) * cv);
      var byLeverage := MAX_LEVERAGE * equity / (entry * cv);
      Min(byRisk, byLeverage).Floor
  }

  /** The size is the largest whole number of contracts whose loss at the stop is
      within the risk budget and whose notional is within the leverage. */
  lemma SizeIsLargestAllowed(equity: real, entry: real, stop: real, cv: real, n: int)
    requires equity > 0.0 && stop > entry > 0.0 && cv > 0.0
    ensures n <= Size(equity, entry, stop, cv)
            <==> && n as real * ((stop - entry) * cv) <= RISK_PCT * equity
                 && n as real * (entry * cv) <= MAX_LEVERAGE * equity
  {
    var perRisk, perNotional := (stop - entry) * cv, entry * cv;
    WithinIff(n as real, RISK_PCT * equity, perRisk);
    WithinIff(n as real, MAX_LEVERAGE * equity, perNotional);
  }
}
