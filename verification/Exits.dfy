/** deltabt/exits.py: where a profit-protecting stop belongs, given how far a
    trade has gone; deltabt/spec.py says which rules are valid. */
module Exits {
  import opened Numbers

  datatype Side = Long | Short
  {
    function Sign(): real { if Long? then 1.0 else -1.0 }
  }

  datatype Rung = Rung(trigger: real, stop: real)

  /** A ladder, a trail, or neither. */
  datatype Protection = Protection(ladder: seq<Rung>, trailAfter: Num, trail: Num)

  /** `StrategySpec.validate`, the protection part. */
  predicate Valid(p: Protection) {
    && (forall i, j :: 0 <= i < |p.ladder| && i < j < |p.ladder| ==> p.ladder[i].trigger < p.ladder[j].trigger)
    && (forall i :: 0 <= i < |p.ladder| ==> p.ladder[i].trigger > 0.0)
    && (forall i, j :: 0 <= i < |p.ladder| && i < j < |p.ladder| ==> p.ladder[i].stop <= p.ladder[j].stop)
    && (forall i :: 0 <= i < |p.ladder| ==> p.ladder[i].stop < p.ladder[i].trigger)
    && (p.trailAfter.None? <==> p.trail.None?)
    && (p.trail.Some? ==> p.trail.value > 0.0 && p.trailAfter.value > 0.0 && p.ladder == [])
  }

  /** The stop of the last rung before the first one not reached. */
  function LadderStop(rungs: seq<Rung>, favourable: real): Num {
    if rungs == [] || favourable < rungs[0].trigger then None
    else
      var later := LadderStop(rungs[1..], favourable);
      if later.Some? then later else Some(rungs[0].stop)
  }

  /** The stop, in R from entry, that this excursion has earned. */
  function Earned(favourable: real, p: Protection): Num {
    var best := LadderStop(p.ladder, favourable);
    if p.trailAfter.Some? && p.trail.Some? && favourable >= p.trailAfter.value then
      var trailed := favourable - p.trail.value;
      Some(if best.None? then trailed else Max(best.value, trailed))
    else best
  }

  /** `earned_stop_r`: the loop over rungs, leaving at the first one not reached. */
  method EarnedStopR(favourable: real, p: Protection) returns (best: Num)
    ensures best == Earned(favourable, p)
  {
    best := None;
    var k := 0;
    while k < |p.ladder|
      invariant 0 <= k <= |p.ladder|
      invariant LadderStop(p.ladder, favourable)
                == var rest := LadderStop(p.ladder[k..], favourable); if rest.Some? then rest else best
    {
      assert p.ladder[k..][1..] == p.ladder[k + 1..];
      if favourable < p.ladder[k].trigger {
        break;
      }
      best := Some(p.ladder[k].stop);
      k := k + 1;
    }
    if p.trailAfter.Some? && p.trail.Some? && favourable >= p.trailAfter.value {
      var trailed := favourable - p.trail.value;
      best := Some(if best.None? then trailed else Max(best.value, trailed));
    }
  }

  predicate Tightens(side: Side, candidate: real, current: real) {
    if side.Long? then candidate > current else candidate < current
  }

  /** On a valid ladder the loop's answer is the stop of the highest rung whose
      trigger has been reached, and None exactly when none has. */
  lemma {:induction false} LadderStopIsHighestReached(p: Protection, k: nat, favourable: real)
    requires Valid(p) && k <= |p.ladder|
    ensures var r := LadderStop(p.ladder[k..], favourable);
            && (r.None? <==> forall i :: k <= i < |p.ladder| ==> favourable < p.ladder[i].trigger)
            && (r.Some? ==> exists i :: k <= i < |p.ladder| && p.ladder[i].trigger <= favourable
                                       && r.value == p.ladder[i].stop
                                       && forall j :: i < j < |p.ladder| ==> favourable < p.ladder[j].trigger)
    decreases |p.ladder| - k
  {
    if k < |p.ladder| {
      assert p.ladder[k..][1..] == p.ladder[k + 1..];
      LadderStopIsHighestReached(p, k + 1, favourable);
    }
  }

  /** `a` is no tighter a claim than `b`; nothing earned is the loosest. */
  predicate NoMoreThan(a: Num, b: Num) {
    a.None? || (b.Some? && a.value <= b.value)
  }

  /** A larger excursion never earns a looser stop. */
  lemma EarnedMonotone(p: Protection, x: real, y: real)
    requires Valid(p) && x <= y
    ensures NoMoreThan(Earned(x, p), Earned(y, p))
  {
    assert p.ladder[0..] == p.ladder;
    LadderStopIsHighestReached(p, 0, x);
    LadderStopIsHighestReached(p, 0, y);
  }

  /** An earned stop lies strictly behind the excursion that earned it, so the
      price that arms a stop can never be the price that triggers it. */
  lemma EarnedLiesBehind(p: Protection, x: real)
    requires Valid(p)
    ensures Earned(x, p).Some? ==> Earned(x, p).value < x
  {
    assert p.ladder[0..] == p.ladder;
    LadderStopIsHighestReached(p, 0, x);
  }
}
