/** live/learning.py: which of one coin's labelled signals a single slot could have
    taken, decided as the labels arrive. */
module Learning {
  import opened Numbers

  /** One signal in (bar_open, id) order. `takeable` is None while undecided;
      `freeFrom` and `cooldownBars` come out of the label's detail, when stored. */
  datatype Row = Row(key: int, barOpen: int, labelled: bool, rNet: Num, takeable: Option<bool>, exitTime: int,
                     freeFrom: Option<int>, restTradable: bool, cooldownBars: Option<int>)

  /** `StrategyParams().cooldown_bars`. */
  const DEFAULT_COOLDOWN := 10

  /** `_free_from`: stored, or the exit bar plus the cooldown at five minutes a bar. */
  function FreeFrom(r: Row): int {
    if r.freeFrom.Some? then r.freeFrom.value
    else r.exitTime + 300 * if r.cooldownBars.Some? then r.cooldownBars.value else DEFAULT_COOLDOWN
  }

  predicate Acceptable(r: Row) { r.rNet.Some? && r.restTradable }

  predicate Takes(r: Row, free: Option<int>) {
    if r.takeable.Some? then r.takeable.value
    else Acceptable(r) && (free.None? || r.barOpen >= free.value)
  }

  /** How many signals come before the first without an outcome. */
  function Ready(rows: seq<Row>): (n: nat)
    ensures n <= |rows|
    ensures forall k :: 0 <= k < n ==> rows[k].labelled
    ensures n < |rows| ==> !rows[n].labelled
  {
    if rows == [] || !rows[0].labelled then 0 else 1 + Ready(rows[1..])
  }

  /** When the coin is free again after the first `k` signals; None if never taken. */
  function FreeAfter(rows: seq<Row>, k: nat): Option<int>
    requires k <= |rows|
    decreases k, 0
  {
    if k == 0 then None
    else if Taken(rows, k - 1) then Some(FreeFrom(rows[k - 1]))
    else FreeAfter(rows, k - 1)
  }

  /** Whether signal `k` is taken. */
  predicate Taken(rows: seq<Row>, k: nat)
    requires k < |rows|
    decreases k, 1
  {
    Takes(rows[k], FreeAfter(rows, k))
  }

  ghost predicate UniqueKeys(rows: seq<Row>) {
    forall i, j :: 0 <= i < j < |rows| ==> rows[i].key != rows[j].key
  }

  function Undecided(rows: seq<Row>): nat {
    if rows == [] then 0
    else Undecided(rows[..|rows| - 1]) + if rows[|rows| - 1].labelled && rows[|rows| - 1].takeable.None? then 1 else 0
  }

  /** `decide_takeable`: the newly decided rows by key, and how many labelled rows
      are left waiting behind the first unlabelled one. */
  method DecideTakeable(rows: seq<Row>) returns (got: map<int, bool>, waiting: nat)
    requires UniqueKeys(rows)
    ensures forall k :: 0 <= k < |rows| ==>
              (rows[k].key in got <==> k < Ready(rows) && rows[k].takeable.None?)
    ensures forall k :: 0 <= k < |rows| && rows[k].key in got ==> got[rows[k].key] == Taken(rows, k)
    ensures waiting == Undecided(rows[Ready(rows)..])
  {
    var freeFrom: Option<int> := None;
    got := map[];
    for k := 0 to |rows|
      invariant k <= Ready(rows)
      invariant freeFrom == FreeAfter(rows, k)
      invariant forall j :: 0 <= j < |rows| ==> (rows[j].key in got <==> j < k && rows[j].takeable.None?)
      invariant forall j :: 0 <= j < k && rows[j].key in got ==> got[rows[j].key] == Taken(rows, j)
    {
      var r := rows[k];
      if !r.labelled {
        waiting := CountUndecided(rows[k..]);
        return;
      }
      var took;
      if r.takeable.Some? {
        took := r.takeable.value;
      } else {
        took := r.rNet.Some? && r.restTradable && (freeFrom.None? || r.barOpen >= freeFrom.value);
        got := got[r.key := took];
      }
      if took {
        freeFrom := Some(FreeFrom(r));
      }
    }
    assert rows[|rows|..] == [];
    waiting := 0;
  }

  method CountUndecided(rows: seq<Row>) returns (n: nat)
    ensures n == Undecided(rows)
  {
    n := 0;
    for k := 0 to |rows|
      invariant n == Undecided(rows[..k])
    {
      assert rows[..k + 1][..k] == rows[..k];
      if rows[k].labelled && rows[k].takeable.None? {
        n := n + 1;
      }
    }
    assert rows[..|rows|] == rows;
  }

  // ---------------------------------------------------------------- stages

  /** The signals as one run sees them: some labels still missing, earlier
      decisions stored. */
  function Seen(truth: seq<Row>, labelled: seq<bool>, stored: seq<Option<bool>>): (r: seq<Row>)
    requires |labelled| == |stored| == |truth|
    ensures |r| == |truth|
  {
    seq(|truth|, k requires 0 <= k < |truth| => truth[k].(labelled := labelled[k], takeable := stored[k]))
  }

  /** What is stored after one run: new decisions are added, old ones never change. */
  function Stored(truth: seq<Row>, labelled: seq<bool>, stored: seq<Option<bool>>): (r: seq<Option<bool>>)
    requires |labelled| == |stored| == |truth|
    ensures |r| == |truth|
  {
    var rows := Seen(truth, labelled, stored);
    seq(|truth|, k requires 0 <= k < |truth| =>
      if stored[k].Some? then stored[k] else if k < Ready(rows) then Some(Taken(rows, k)) else None)
  }

  /** Runs one after another, each with the labels known by then. */
  function StoredAfter(truth: seq<Row>, stages: seq<seq<bool>>): (r: seq<Option<bool>>)
    requires forall s :: 0 <= s < |stages| ==> |stages[s]| == |truth|
    ensures |r| == |truth|
  {
    if stages == [] then seq(|truth|, _ => None)
    else Stored(truth, stages[|stages| - 1], StoredAfter(truth, stages[..|stages| - 1]))
  }

  ghost predicate Fresh(truth: seq<Row>) {
    forall k :: 0 <= k < |truth| ==> truth[k].takeable.None?
  }

  ghost predicate Agrees(stored: seq<Option<bool>>, truth: seq<Row>)
    requires |stored| == |truth|
  {
    forall k :: 0 <= k < |truth| && stored[k].Some? ==> stored[k].value == Taken(truth, k)
  }

  /** Stored answers that agree with the batch lead every later answer to agree. */
  lemma {:induction false} SeenDecidesAsBatch(truth: seq<Row>, labelled: seq<bool>, stored: seq<Option<bool>>, k: nat)
    requires |labelled| == |stored| == |truth| && Fresh(truth) && Agrees(stored, truth) && k <= |truth|
    ensures FreeAfter(Seen(truth, labelled, stored), k) == FreeAfter(truth, k)
    ensures k < |truth| ==> Taken(Seen(truth, labelled, stored), k) == Taken(truth, k)
  {
    if k > 0 { SeenDecidesAsBatch(truth, labelled, stored, k - 1); }
  }

  /** However the labels arrive, whatever is stored is what one batch over the fully
      labelled signals would decide. */
  lemma {:induction false} StagedAgreesWithBatch(truth: seq<Row>, stages: seq<seq<bool>>)
    requires Fresh(truth) && forall s :: 0 <= s < |stages| ==> |stages[s]| == |truth|
    ensures Agrees(StoredAfter(truth, stages), truth)
  {
    if stages != [] {
      var before := stages[..|stages| - 1];
      StagedAgreesWithBatch(truth, before);
      var labelled, stored := stages[|stages| - 1], StoredAfter(truth, before);
      forall k | 0 <= k < |truth| && Stored(truth, labelled, stored)[k].Some?
        ensures Stored(truth, labelled, stored)[k].value == Taken(truth, k)
      {
        SeenDecidesAsBatch(truth, labelled, stored, k);
      }
    }
  }

  /** Once the first `n` signals are labelled, all `n` are decided, as the batch decides. */
  lemma StagedReachesBatch(truth: seq<Row>, before: seq<seq<bool>>, latest: seq<bool>, n: nat)
    requires Fresh(truth) && |latest| == |truth| && forall s :: 0 <= s < |before| ==> |before[s]| == |truth|
    requires n <= |truth| && forall k :: 0 <= k < n ==> latest[k]
    ensures forall k :: 0 <= k < n ==> StoredAfter(truth, before + [latest])[k] == Some(Taken(truth, k))
  {
    var stages := before + [latest];
    assert stages[..|stages| - 1] == before;
    StagedAgreesWithBatch(truth, stages);
    var rows := Seen(truth, latest, StoredAfter(truth, before));
    var r := Ready(rows);
    assert forall k :: 0 <= k < n ==> rows[k].labelled;
    assert !(r < n);
  }

  // ---------------------------------------------------------------- one slot

  lemma {:induction false} FreeAfterIsLastTaken(rows: seq<Row>, k: nat) returns (i: int)
    requires k <= |rows|
    ensures -1 <= i < k
    ensures forall j :: i < j < k ==> !Taken(rows, j)
    ensures if i < 0 then FreeAfter(rows, k) == None
            else Taken(rows, i) && FreeAfter(rows, k) == Some(FreeFrom(rows[i]))
  {
    if k == 0 {
      i := -1;
    } else if Taken(rows, k - 1) {
      i := k - 1;
    } else {
      i := FreeAfterIsLastTaken(rows, k - 1);
    }
  }

  ghost predicate InBarOrder(rows: seq<Row>) {
    forall i, j :: 0 <= i < j < |rows| ==> rows[i].barOpen <= rows[j].barOpen
  }

  /** Taken signals never overlap: each opens at or after every earlier one is over.
      Bar order alone is enough, and so is every `free_from` reaching its own bar. */
  lemma {:induction false} TakenNeverOverlap(rows: seq<Row>, i: nat, j: nat)
    requires Fresh(rows) && i < j < |rows| && Taken(rows, i) && Taken(rows, j)
    requires InBarOrder(rows) || forall k :: 0 <= k < |rows| ==> FreeFrom(rows[k]) >= rows[k].barOpen
    ensures rows[j].barOpen >= FreeFrom(rows[i])
    decreases j
  {
    var last := FreeAfterIsLastTaken(rows, j);
    if last != i { TakenNeverOverlap(rows, i, last); }
  }

  /** An acceptable signal is refused only because an earlier taken one still holds
      the coin, and exactly then. */
  lemma RefusedIffHeld(rows: seq<Row>, j: nat) returns (i: int)
    requires Fresh(rows) && j < |rows| && Acceptable(rows[j])
    ensures -1 <= i < j && (i >= 0 ==> Taken(rows, i))
    ensures !Taken(rows, j) <==> i >= 0 && rows[j].barOpen < FreeFrom(rows[i])
  {
    i := FreeAfterIsLastTaken(rows, j);
  }
}
