/** deltabt/wpr_latch.py: the Williams %R band-traverse latch. One machine in
    three forms: a forward scan, a per-bar step and a branch-free expression. */
module WprLatch {
  import opened Numbers

  /** Arming level, firing level, expiry in bars, and which side this latch is. */
  datatype Levels = Levels(arm: real, fire: real, expiry: int, long: bool)

  predicate Armable(value: real, p: Levels) {
    if p.long then value < p.arm else value > p.arm
  }

  predicate Crosses(value: real, prev: real, p: Levels) {
    if p.long then value > p.fire && prev <= p.fire
    else value < p.fire && prev >= p.fire
  }

  /** One bar of the machine: expiry, then arm, then fire. `arm` is the bar the
      latch was last armed on, -1 when it is not armed. */
  function Advance(arm: int, i: int, value: Num, prev: Num, p: Levels): (r: (int, bool))
  {
    var alive := if arm >= 0 && i - arm >= p.expiry then -1 else arm;
    if value.None? || prev.None? then (alive, false)
    else
      var armed := if Armable(value.value, p) then i else alive;
      if armed >= 0 && Crosses(value.value, prev.value, p) then (-1, true) else (armed, false)
  }

  /** `step_state`, branch by branch. */
  method StepState(arm: int, i: int, value: Num, prev: Num, p: Levels) returns (armBar: int, fired: bool)
    ensures (armBar, fired) == Advance(arm, i, value, prev, p)
  {
    armBar := arm;
    var valid := value.Some? && prev.Some?;
    if armBar >= 0 && i - armBar >= p.expiry {
      armBar := -1;
    }
    if valid {
      if p.long {
        if value.value < p.arm { armBar := i; }
      } else {
        if value.value > p.arm { armBar := i; }
      }
    }
    fired := false;
    if valid && armBar >= 0 {
      var crossed;
      if p.long {
        crossed := value.value > p.fire && prev.value <= p.fire;
      } else {
        crossed := value.value < p.fire && prev.value >= p.fire;
      }
      if crossed {
        fired := true;
        armBar := -1;
      }
    }
  }

  function Prev(v: seq<Num>, i: int): Num
    requires 0 <= i < |v|
  {
    if i > 0 then v[i - 1] else None
  }

  /** The arm carried INTO bar `i`; `cleared[j]` says a reset followed bar `j`. */
  function ArmBefore(v: seq<Num>, p: Levels, cleared: seq<bool>, i: nat): int
    requires i <= |v| && i <= |cleared|
  {
    if i == 0 then -1
    else if cleared[i - 1] then -1
    else Advance(ArmBefore(v, p, cleared, i - 1), i - 1, v[i - 1], Prev(v, i - 1), p).0
  }

  predicate FiresAt(v: seq<Num>, p: Levels, cleared: seq<bool>, i: nat)
    requires i < |v| && i <= |cleared|
  {
    Advance(ArmBefore(v, p, cleared, i), i, v[i], Prev(v, i), p).1
  }

  /** The fire pulses of the machine run over a whole series. */
  function Fires(v: seq<Num>, p: Levels, cleared: seq<bool>): (r: seq<bool>)
    requires |cleared| == |v|
    ensures |r| == |v|
  {
    seq(|v|, i requires 0 <= i < |v| => FiresAt(v, p, cleared, i))
  }

  /** Which bars are followed by a reset, given the two optional reset arrays. */
  function Resets(inPosition: seq<bool>, clearInPosition: bool,
                  adverseFlip: seq<bool>, clearOnAdverseFlip: bool): (r: seq<bool>)
    requires |inPosition| == |adverseFlip|
    ensures |r| == |inPosition|
  {
    seq(|inPosition|, i requires 0 <= i < |inPosition| =>
      (clearInPosition && inPosition[i]) || (clearOnAdverseFlip && adverseFlip[i]))
  }

  function NoResets(n: nat): (r: seq<bool>)
    ensures |r| == n
  {
    seq(n, _ => false)
  }

  /** `_scan`: the forward loop, with its own copy of the machine. */
  method Scan(values: seq<Num>, p: Levels, inPosition: seq<bool>, clearInPosition: bool,
              adverseFlip: seq<bool>, clearOnAdverseFlip: bool) returns (fire: array<bool>)
    requires |inPosition| == |values| == |adverseFlip|
    ensures fresh(fire)
    ensures fire[..] == Fires(values, p, Resets(inPosition, clearInPosition, adverseFlip, clearOnAdverseFlip))
  {
    var n := |values|;
    fire := new bool[n](_ => false);
    var armBar := -1;
    ghost var cleared := Resets(inPosition, clearInPosition, adverseFlip, clearOnAdverseFlip);
    for i := 0 to n
      invariant armBar == ArmBefore(values, p, cleared, i)
      invariant forall j :: 0 <= j < i ==> fire[j] == FiresAt(values, p, cleared, j)
      invariant forall j :: i <= j < n ==> !fire[j]
    {
      var v := values[i];
      var vp := if i > 0 then values[i - 1] else None;
      var valid := v.Some? && vp.Some?;
      if armBar >= 0 && i - armBar >= p.expiry {
        armBar := -1;
      }
      if valid {
        if p.long {
          if v.value < p.arm { armBar := i; }
        } else {
          if v.value > p.arm { armBar := i; }
        }
      }
      if valid && armBar >= 0 {
        var crossed;
        if p.long {
          crossed := v.value > p.fire && vp.value <= p.fire;
        } else {
          crossed := v.value < p.fire && vp.value >= p.fire;
        }
        if crossed {
          fire[i] := true;
          armBar := -1;
        }
      }
      if clearInPosition && inPosition[i] {
        armBar := -1;
      }
      if clearOnAdverseFlip && adverseFlip[i] {
        armBar := -1;
      }
    }
  }

  // ---------------------------------------------------------------- branch-free

  predicate Usable(v: seq<Num>, i: int)
    requires 0 <= i < |v|
  {
    i > 0 && v[i].Some? && v[i - 1].Some?
  }

  function ZoneMask(v: seq<Num>, p: Levels): (r: seq<bool>)
    ensures |r| == |v|
  {
    seq(|v|, i requires 0 <= i < |v| => Usable(v, i) && Armable(v[i].value, p))
  }

  function CrossMask(v: seq<Num>, p: Levels): (r: seq<bool>)
    ensures |r| == |v|
  {
    seq(|v|, i requires 0 <= i < |v| => Usable(v, i) && Crosses(v[i].value, v[i - 1].value, p))
  }

  /** `latch_fires_vectorised`: masks and accumulated indices only. */
  function LatchFiresVectorised(v: seq<Num>, p: Levels): (r: seq<bool>)
    ensures |r| == |v|
  {
    var zone := ZoneMask(v, p);
    var cross := CrossMask(v, p);
    seq(|v|, i requires 0 <= i < |v| =>
      var armedAt := MaxAccumulate(IndexWhere(zone), i);
      var prevCross := LastBefore(cross, i);
      cross[i] && armedAt >= 0 && i - armedAt < p.expiry && prevCross < armedAt)
  }

  /** The last true index strictly before `i`, as the shifted accumulation gives it. */
  function LastBefore(mask: seq<bool>, i: nat): int
    requires i <= |mask|
  {
    if i == 0 then -1 else MaxAccumulate(IndexWhere(mask), i - 1)
  }

  lemma LastBeforeStep(mask: seq<bool>, i: nat)
    requires i < |mask|
    ensures -1 <= LastBefore(mask, i) < i
    ensures LastBefore(mask, i + 1) == if mask[i] then i else LastBefore(mask, i)
  {
    AccumulatedIndexIsLastTrue(mask, i);
    if i > 0 {
      AccumulatedIndexIsLastTrue(mask, i - 1);
    }
  }

  /** The carried arm written with last-in-zone, last-cross and expiry only. */
  function SpentOrLive(a: int, c: int, i: int, expiry: int): int {
    if a >= 0 && c < a && (a == i - 1 || i - 1 - a < expiry) then a else -1
  }

  /** What the carried arm is, in terms of last-in-zone, last-cross and expiry. */
  lemma {:induction false} ArmIsLastZoneUnlessSpent(v: seq<Num>, p: Levels, i: nat)
    requires i <= |v|
    ensures ArmBefore(v, p, NoResets(|v|), i)
            == SpentOrLive(LastBefore(ZoneMask(v, p), i), LastBefore(CrossMask(v, p), i), i, p.expiry)
  {
    if i > 0 {
      var zone, cross := ZoneMask(v, p), CrossMask(v, p);
      ArmIsLastZoneUnlessSpent(v, p, i - 1);
      LastBeforeStep(zone, i - 1);
      LastBeforeStep(cross, i - 1);
      assert !NoResets(|v|)[i - 1];
    }
  }

  /** One reading can be in the arming zone and across the target at once. */
  predicate LevelsOverlap(p: Levels) {
    if p.long then p.fire < p.arm else p.arm < p.fire
  }

  lemma VectorisedAgreesAt(v: seq<Num>, p: Levels, i: nat)
    requires p.expiry >= 1 || !LevelsOverlap(p)
    requires i < |v|
    ensures LatchFiresVectorised(v, p)[i] == FiresAt(v, p, NoResets(|v|), i)
  {
    ArmIsLastZoneUnlessSpent(v, p, i);
    LastBeforeStep(ZoneMask(v, p), i);
    LastBeforeStep(CrossMask(v, p), i);
  }

  /** With a non-positive expiry the scan still fires on a bar that arms and
      crosses at once; the expression never does. */
  lemma VectorisedMissesSameBarFire(p: Levels) returns (v: seq<Num>)
    requires p.expiry < 1 && LevelsOverlap(p)
    ensures LatchFiresVectorised(v, p) != Fires(v, p, NoResets(|v|))
  {
    v := [Some(p.fire), Some((p.arm + p.fire) / 2.0)];
    AccumulatedIndexIsLastTrue(ZoneMask(v, p), 1);
    assert ArmBefore(v, p, NoResets(2), 1) == -1;
    assert FiresAt(v, p, NoResets(2), 1);
    assert Fires(v, p, NoResets(2))[1];
    assert !LatchFiresVectorised(v, p)[1];
  }

  /** Exactly which parameters make the two forms agree on every series. */
  lemma VectorisedAgreesIff(p: Levels)
    ensures (forall v: seq<Num> :: LatchFiresVectorised(v, p) == Fires(v, p, NoResets(|v|)))
            <==> (p.expiry >= 1 || !LevelsOverlap(p))
  {
    if p.expiry >= 1 || !LevelsOverlap(p) {
      forall v: seq<Num>
        ensures LatchFiresVectorised(v, p) == Fires(v, p, NoResets(|v|))
      {
        forall i | 0 <= i < |v|
          ensures LatchFiresVectorised(v, p)[i] == Fires(v, p, NoResets(|v|))[i]
        {
          VectorisedAgreesAt(v, p, i);
        }
      }
    } else {
      var v := VectorisedMissesSameBarFire(p);
    }
  }

  // ---------------------------------------------------------------- resets

  /** The carried arm depends only on what has already been recorded. */
  lemma {:induction false} ArmReadsOnlyThePast(v: seq<Num>, p: Levels, c: seq<bool>, d: seq<bool>, i: nat)
    requires i <= |v| && i <= |c| && i <= |d|
    requires c[..i] == d[..i]
    ensures ArmBefore(v, p, c, i) == ArmBefore(v, p, d, i)
  {
    if i > 0 {
      assert c[i - 1] == c[..i][i - 1] && d[i - 1] == d[..i][i - 1];
      assert c[..i - 1] == c[..i][..i - 1] && d[..i - 1] == d[..i][..i - 1];
      ArmReadsOnlyThePast(v, p, c, d, i - 1);
    }
  }

  /** A live arm was set on an earlier bar inside the zone, has not outlived its
      expiry, and no reset has happened since. */
  lemma {:induction false} ArmSurvivedEveryReset(v: seq<Num>, p: Levels, c: seq<bool>, i: nat)
    requires i <= |v| && i <= |c|
    ensures var a := ArmBefore(v, p, c, i);
            && -1 <= a < i
            && (a >= 0 ==> && ZoneMask(v, p)[a]
                           && (a == i - 1 || i - 1 - a < p.expiry)
                           && forall j :: a <= j < i ==> !c[j])
  {
    if i > 0 {
      ArmSurvivedEveryReset(v, p, c, i - 1);
    }
  }

  /** Every fire comes from a traverse that began in the zone at some bar `a`,
      within the expiry, with no reset from `a` up to the firing bar. */
  lemma FireHasCleanTraverse(v: seq<Num>, p: Levels, c: seq<bool>, i: nat) returns (a: nat)
    requires i < |v| && |c| == |v|
    requires p.expiry >= 1
    requires FiresAt(v, p, c, i)
    ensures a <= i && i - a < p.expiry
    ensures ZoneMask(v, p)[a] && CrossMask(v, p)[i]
    ensures forall j :: a <= j < i ==> !c[j]
  {
    ArmSurvivedEveryReset(v, p, c, i);
    a := if ZoneMask(v, p)[i] then i else ArmBefore(v, p, c, i);
  }

  // ---------------------------------------------------------------- projection

  /** For each base bar, the higher-timeframe bar it lies in, -1 before the first. */
  function Slot(htfTime: seq<int>, t: int): (s: int)
    ensures -1 <= s < |htfTime|
  {
    SearchRight(htfTime, t) - 1
  }

  function MappedFire(htfFires: seq<bool>, htfTime: seq<int>, ltfTime: seq<int>, k: nat): bool
    requires |htfFires| == |htfTime| && k < |ltfTime|
  {
    var s := Slot(htfTime, ltfTime[k]);
    && s >= 0
    && (k == 0 || Slot(htfTime, ltfTime[k - 1]) != s)
    && s >= 1 && htfFires[s - 1]
  }

  /** `map_htf_fires_to_ltf`: masked fills over the base bars. */
  method MapHtfFiresToLtf(htfFires: seq<bool>, htfTime: seq<int>, ltfTime: seq<int>) returns (out: array<bool>)
    requires |htfFires| == |htfTime|
    ensures fresh(out) && out.Length == |ltfTime|
    ensures forall k :: 0 <= k < |ltfTime| ==> out[k] == MappedFire(htfFires, htfTime, ltfTime, k)
  {
    out := new bool[|ltfTime|](_ => false);
    if |htfFires| == 0 {
      return;
    }
    var shifted := [false] + htfFires[..|htfFires| - 1];
    for k := 0 to |ltfTime|
      invariant forall j :: 0 <= j < k ==> out[j] == MappedFire(htfFires, htfTime, ltfTime, j)
      invariant forall j :: k <= j < |ltfTime| ==> !out[j]
    {
      var s := Slot(htfTime, ltfTime[k]);
      var newSlot := k == 0 || s != Slot(htfTime, ltfTime[k - 1]);
      if s >= 0 && newSlot {
        out[k] := shifted[s];
      }
    }
  }

  /** One higher-timeframe fire gives at most one base pulse, and that pulse lies
      in the bar after the one that fired, never inside it. */
  lemma FireMapsToAtMostOneBaseBar(htfFires: seq<bool>, htfTime: seq<int>, ltfTime: seq<int>, j: nat, k: nat)
    requires |htfFires| == |htfTime|
    requires StrictlyIncreasing(htfTime) && StrictlyIncreasing(ltfTime)
    requires j < |ltfTime| && k < |ltfTime|
    requires MappedFire(htfFires, htfTime, ltfTime, j) && MappedFire(htfFires, htfTime, ltfTime, k)
    ensures ltfTime[k] >= htfTime[Slot(htfTime, ltfTime[k])] > htfTime[Slot(htfTime, ltfTime[k]) - 1]
    ensures Slot(htfTime, ltfTime[j]) == Slot(htfTime, ltfTime[k]) ==> j == k
  {
    if j < k && Slot(htfTime, ltfTime[j]) == Slot(htfTime, ltfTime[k]) {
      SlotMonotone(htfTime, ltfTime[j], ltfTime[k - 1]);
      SlotMonotone(htfTime, ltfTime[k - 1], ltfTime[k]);
    } else if k < j && Slot(htfTime, ltfTime[j]) == Slot(htfTime, ltfTime[k]) {
      SlotMonotone(htfTime, ltfTime[k], ltfTime[j - 1]);
      SlotMonotone(htfTime, ltfTime[j - 1], ltfTime[j]);
    }
  }

  lemma SlotMonotone(htfTime: seq<int>, t: int, u: int)
    requires StrictlyIncreasing(htfTime) && t <= u
    ensures Slot(htfTime, t) <= Slot(htfTime, u)
  {
  }

  /** A fire is delivered whenever any base bar lies in the following bar. */
  lemma {:induction false} FireIsDelivered(htfFires: seq<bool>, htfTime: seq<int>, ltfTime: seq<int>, s: nat, k: nat)
    returns (first: nat)
    requires |htfFires| == |htfTime| && s + 1 < |htfTime| && htfFires[s]
    requires StrictlyIncreasing(htfTime) && StrictlyIncreasing(ltfTime)
    requires k < |ltfTime| && Slot(htfTime, ltfTime[k]) == s + 1
    ensures first <= k && Slot(htfTime, ltfTime[first]) == s + 1
    ensures MappedFire(htfFires, htfTime, ltfTime, first)
  {
    first := k;
    if k > 0 && Slot(htfTime, ltfTime[k - 1]) == s + 1 {
      first := FireIsDelivered(htfFires, htfTime, ltfTime, s, k - 1);
    }
  }
}
