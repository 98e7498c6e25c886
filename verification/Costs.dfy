/** deltabt/costs.py: contracts, ticks, fees and settlement instants. */
module Costs {
  import opened Numbers

  /** `None` in `sizeLimit` stands for an infinite position limit. */
  datatype SymbolCosts = SymbolCosts(tickSize: real, contractValue: real, makerFee: real, takerFee: real,
                                     sizeLimit: Num, fundingInterval: int, slippageBps: real,
                                     gst: real, makerEntry: bool)

  datatype Direction = Down | Nearest | Up

  function EffectiveTaker(c: SymbolCosts): real { c.takerFee * c.gst }

  function EffectiveMaker(c: SymbolCosts): real { c.makerFee * c.gst }

  function SlippageRate(c: SymbolCosts): real { c.slippageBps / 10000.0 }

  /** Python's and numpy's `round`: ties go to the even neighbour. */
  function RoundHalfEven(q: real): int {
    var f := q.Floor;
    var frac := q - f as real;
    if frac < 0.5 then f
    else if frac > 0.5 then f + 1
    else if f % 2 == 0 then f else f + 1
  }

  function Snap(q: real, direction: Direction): int {
    match direction
    case Down => q.Floor
    case Nearest => RoundHalfEven(q)
    case Up => CeilReal(q)
  }

  function RoundPrice(c: SymbolCosts, price: real, direction: Direction): real {
    if c.tickSize <= 0.0 then price
    else Snap(price / c.tickSize, direction) as real * c.tickSize
  }

  /** Directed rounding lands on the tick grid, less than one tick away, and on
      the chosen side of the price. */
  lemma RoundPriceBounds(c: SymbolCosts, price: real, direction: Direction)
    requires c.tickSize > 0.0 && direction != Nearest
    ensures var r := RoundPrice(c, price, direction);
            if direction == Down then r <= price < r + c.tickSize else r - c.tickSize < price <= r
  {
    var q, t := price / c.tickSize, c.tickSize;
    var k := Snap(q, direction) as real;
    var r := RoundPrice(c, price, direction);
    if direction == Down {
      TickCell(k, q, t, r, price);
    } else {
      TickCell(-k, -q, t, -r, -price);
    }
  }

  lemma TickCell(k: real, q: real, t: real, r: real, price: real)
    requires t > 0.0 && k <= q < k + 1.0 && r == k * t && price == q * t
    ensures r <= price < r + t
  {
    assert r <= price by { ScaleLe(k, q, t); }
    BelowNextTick(k, q, t, r, price);
  }

  lemma BelowNextTick(k: real, q: real, t: real, r: real, price: real)
    requires t > 0.0 && q < k + 1.0 && r == k * t && price == q * t
    ensures price < r + t
  {
    var d := q - k;
    ScaleLt(d, 1.0, t);
    assert d * t == q * t - k * t;
  }

  lemma ScaleLe(a: real, b: real, t: real)
    requires t >= 0.0 && a <= b
    ensures a * t <= b * t
  {
  }

  lemma ScaleLt(a: real, b: real, t: real)
    requires t > 0.0 && a < b
    ensures a * t < b * t
  {
  }

  /** At most a quotient is the product within the whole. */
  lemma WithinIff(x: real, whole: real, d: real)
    requires d > 0.0
    ensures x <= whole / d <==> x * d <= whole
  {
    var q := whole / d;
    assert q * d == whole;
    if x <= q { ScaleLe(x, q, d); } else { ScaleLt(q, x, d); }
  }

  /** Rounding in a fixed direction keeps the order of prices. */
  lemma RoundPriceMonotone(c: SymbolCosts, p: real, q: real, direction: Direction)
    requires p <= q && direction != Nearest
    ensures RoundPrice(c, p, direction) <= RoundPrice(c, q, direction)
  {
    if c.tickSize > 0.0 {
      var t := c.tickSize;
      var u, v := p / t, q / t;
      assert u * t == p && v * t == q;
      assert u <= v by {
        if v < u { ScaleLt(v, u, t); }
      }
      var j, k := Snap(u, direction), Snap(v, direction);
      assert j <= k;
      ScaleLe(j as real, k as real, t);
    }
  }

  function ContractsFor(c: SymbolCosts, units: real): (n: int)
    ensures n > 0 ==> c.contractValue > 0.0 && n as real * c.contractValue <= units
    ensures n > 0 && c.sizeLimit.Some? ==> n as real <= c.sizeLimit.value
  {
    if c.contractValue <= 0.0 then 0
    else
      var lots := units / c.contractValue;
      assert lots * c.contractValue == units;
      var floored := lots.Floor;
      var n := if floored < 0 then 0 else floored;
      var limited := if c.sizeLimit.Some? then MinInt(n, Trunc(c.sizeLimit.value)) else n;
      assert limited > 0 ==> limited as real * c.contractValue <= units by {
        if limited > 0 { ScaleLe(limited as real, lots, c.contractValue); }
      }
      limited
  }

  /** The count is the largest that fits the units asked for and the position limit. */
  lemma ContractsForIsLargest(c: SymbolCosts, units: real, k: int)
    requires k >= 1
    ensures k <= ContractsFor(c, units)
            <==> && c.contractValue > 0.0 && k as real * c.contractValue <= units
                 && (c.sizeLimit.Some? ==> k as real <= c.sizeLimit.value)
  {
    if c.contractValue > 0.0 {
      WithinIff(k as real, units, c.contractValue);
      assert k <= (units / c.contractValue).Floor <==> k as real <= units / c.contractValue;
    }
  }

  function AbsInt(n: int): int { if n < 0 then -n else n }

  function Notional(c: SymbolCosts, contracts: int, price: real): real {
    AbsInt(contracts) as real * c.contractValue * price
  }

  function EntryCost(c: SymbolCosts, contracts: int, price: real): real {
    if c.makerEntry then Notional(c, contracts, price) * EffectiveMaker(c)
    else Notional(c, contracts, price) * (EffectiveTaker(c) + SlippageRate(c))
  }

  function ExitCost(c: SymbolCosts, contracts: int, price: real, maker: bool, slippedPrice: bool): real {
    if maker then Notional(c, contracts, price) * EffectiveMaker(c)
    else Notional(c, contracts, price) * (EffectiveTaker(c) + if slippedPrice then 0.0 else SlippageRate(c))
  }

  /** Round-trip cost in R; `None` is the source's infinity. */
  function CostPerR(c: SymbolCosts, entryPrice: real, riskPerUnit: real): Num {
    if riskPerUnit <= 0.0 then None
    else
      var leg := EffectiveTaker(c) + SlippageRate(c);
      Some(entryPrice * (leg + leg) / riskPerUnit)
  }

  // ---------------------------------------------------------------- settlement

  function Stamps(first: int, end: int, interval: int): (r: seq<int>)
    requires interval > 0
    decreases end - first
  {
    if first > end then [] else [first] + Stamps(first + interval, end, interval)
  }

  /** `funding_timestamps`: the grid is anchored to the epoch. */
  function FundingTimestamps(start: int, end: int, interval: int): seq<int> {
    if interval <= 0 then []
    else Stamps((start + interval - 1) / interval * interval, end, interval)
  }

  lemma {:induction false} StampsAreMultiples(first: int, end: int, interval: int, t: int)
    requires interval > 0 && first % interval == 0
    ensures t in Stamps(first, end, interval) <==> first <= t <= end && t % interval == 0
    decreases end - first
  {
    if first <= end {
      MultipleStep(first, interval, t);
      StampsAreMultiples(first + interval, end, interval, t);
    }
  }

  lemma MultipleStep(first: int, interval: int, t: int)
    requires interval > 0 && first % interval == 0
    ensures (first + interval) % interval == 0
    ensures first <= t < first + interval && t % interval == 0 ==> t == first
  {
    var k := first / interval;
    assert first == k * interval;
    assert first + interval == (k + 1) * interval;
    MultipleHasNoRemainder(k + 1, interval);
    if first <= t < first + interval && t % interval == 0 {
      MultiplesApart(k, t / interval, interval);
    }
  }

  lemma MultiplesApart(j: int, k: int, n: int)
    requires n > 0 && -n < (k - j) * n < n
    ensures j == k
  {
    if k != j {
      NonzeroMultipleIsFar(k - j, n);
    }
  }

  lemma NonzeroMultipleIsFar(d: int, n: int)
    requires n > 0 && d != 0
    ensures d * n >= n || d * n <= -n
  {
    if d > 0 {
      PositiveMultiple(d, n);
    } else {
      PositiveMultiple(-d, n);
      assert d * n == -(-d * n);
    }
  }

  lemma {:induction false} PositiveMultiple(d: nat, n: int)
    requires n > 0 && d > 0
    ensures d * n >= n
  {
    if d > 1 {
      PositiveMultiple(d - 1, n);
      assert d * n == (d - 1) * n + n;
    }
  }

  lemma MultipleHasNoRemainder(k: int, n: int)
    requires n > 0
    ensures k * n % n == 0 && k * n / n == k
  {
    var q, r := k * n / n, k * n % n;
    assert k * n == q * n + r && 0 <= r < n;
    assert (k - q) * n == r;
    MultiplesApart(q, k, n);
  }

  /** Settlement instants are exactly the interval multiples in the window. */
  lemma FundingStampsExact(start: int, end: int, interval: int, t: int)
    ensures t in FundingTimestamps(start, end, interval)
            <==> interval > 0 && start <= t <= end && t % interval == 0
  {
    if interval > 0 {
      var k := (start + interval - 1) / interval;
      var first := k * interval;
      MultipleHasNoRemainder(k, interval);
      StampsAreMultiples(first, end, interval, t);
      assert start <= first < start + interval;
      if start <= t < first && t % interval == 0 {
        MultipleStep(first - interval, interval, t) by { 
          assert first - interval == (k - 1) * interval;
          MultipleHasNoRemainder(k - 1, interval);
        }
      }
    }
  }
}
