/** live/fade_live.py: what the account may ever do, as a log. Every write, order and
    cancellation is a deed, other processes' writes to the status included. */
module FadeLog {
  import opened Numbers

  const MAX_OPEN := 2

  datatype Key = Key(day: int, symbol: string)

  datatype RowStatus = Sending | Open | Closed | Skipped | Failed

  datatype Status = Running | Halted | Stopped | Off

  /** Who writes the status: `state`, `set_state`, `record_off`, `resume`. */
  datatype Writer = Starting | Judging | Disabling | Resuming

  /** No entries until the owner looks, or ever again. */
  predicate Shut(s: Option<Status>) { s == Some(Halted) || s == Some(Stopped) }

  /** `unseen`: the position was read as flat off an answer that was none. */
  datatype Deed =
    | Began
    | Believed(seen: Status)
    | Inserted(row: RowStatus, active: nat)
    | Moved(from: RowStatus, to: RowStatus, position: int, unseen: bool)
    | Wrote(before: Option<Status>, after: Status, writer: Writer)
    | ResumeRead
    | ResumeDropped
    | Posted(key: Key, state: Option<Status>, sending: RowStatus)
    | Bought(was: int, now: int)
    | CancelledStop(position: int, unseen: bool)

  /** What a log adds up to. `entitled`: this pass last took the status to be RUNNING
      and has not judged since; `disabled`: switched off since then. `single`: never
      two resumes in flight; `clean`: no STOP was written over a HALT. */
  datatype Ledger = Ledger(status: Option<Status>, inFlight: int, entitled: bool, disabled: bool,
                           posts: seq<Key>, single: bool, clean: bool)

  function Opening(): Ledger { Ledger(None, 0, false, false, [], true, true) }

  function Next(l: Ledger, d: Deed): Ledger {
    match d
    case Began => l.(entitled := false, disabled := false)
    case Believed(seen) => l.(entitled := seen.Running?, disabled := false)
    case Wrote(before, after, writer) =>
      l.(status := Some(after),
         inFlight := if writer.Resuming? then l.inFlight - 1 else l.inFlight,
         entitled := l.entitled && !writer.Judging?,
         disabled := l.disabled || writer.Disabling?,
         clean := l.clean && !(before == Some(Halted) && after.Stopped?))
    case ResumeRead => l.(inFlight := l.inFlight + 1, single := l.single && l.inFlight < 1)
    case ResumeDropped => l.(inFlight := l.inFlight - 1)
    case Posted(key, _, _) => l.(posts := l.posts + [key])
    case _ => l
  }

  predicate LegalMove(from: RowStatus, to: RowStatus) {
    match from
    case Sending => to.Open? || to.Failed? || to.Skipped?
    case Open => to.Closed?
    case _ => false
  }

  /** The UPDATE of each writer, with the WHERE it carries; `resume` carries none. */
  predicate LegalWrite(before: Option<Status>, after: Status, writer: Writer) {
    match writer
    case Starting => before in {None, Some(Off)} && after == Running
    case Judging => before.Some? && before != Some(Stopped) && after in {Halted, Stopped}
    case Disabling => before in {None, Some(Off), Some(Running)} && after == Off
    case Resuming => before.Some? && after == Running
  }

  /** The protocol's promise about each deed. */
  predicate Allowed(l: Ledger, d: Deed) {
    match d
    case Began => true
    case Believed(seen) => l.status == Some(seen)
    case Inserted(row, active) => row.Skipped? || (row.Sending? && active < MAX_OPEN)
    case Moved(from, to, position, unseen) => LegalMove(from, to) && (to.Closed? ==> position == 0 || unseen)
    case Wrote(before, after, writer) =>
      before == l.status && LegalWrite(before, after, writer) && (writer.Resuming? ==> l.inFlight > 0)
    case ResumeRead => l.status == Some(Halted)
    case ResumeDropped => l.inFlight > 0
    case Posted(key, state, sending) => l.entitled && state == l.status && sending.Sending? && key !in l.posts
    case Bought(was, now) => if was < 0 then was <= now <= 0 else now == was
    case CancelledStop(position, unseen) => position == 0 || unseen
  }

  function After(deeds: seq<Deed>): Ledger {
    if deeds == [] then Opening() else Next(After(deeds[..|deeds| - 1]), deeds[|deeds| - 1])
  }

  /** What a whole run leaves, crashes and other processes and all. */
  predicate LegalLog(deeds: seq<Deed>) {
    deeds == []
    || (LegalLog(deeds[..|deeds| - 1]) && Allowed(After(deeds[..|deeds| - 1]), deeds[|deeds| - 1]))
  }

  lemma LogSnoc(deeds: seq<Deed>, d: Deed)
    requires LegalLog(deeds) && Allowed(After(deeds), d)
    ensures LegalLog(deeds + [d]) && After(deeds + [d]) == Next(After(deeds), d)
  {
    assert (deeds + [d])[..|deeds|] == deeds;
  }

  lemma NextKeeps(l: Ledger, d: Deed)
    ensures Next(l, d).single ==> l.single
    ensures Next(l, d).clean ==> l.clean
    ensures l.posts <= Next(l, d).posts
  {
  }

  lemma {:induction false} LogPrefix(deeds: seq<Deed>, k: nat)
    requires LegalLog(deeds) && k <= |deeds|
    ensures LegalLog(deeds[..k])
    ensures After(deeds).single ==> After(deeds[..k]).single
    ensures After(deeds).clean ==> After(deeds[..k]).clean
    ensures After(deeds[..k]).posts <= After(deeds).posts
    decreases |deeds|
  {
    hide Next, Allowed;
    if k < |deeds| {
      assert deeds[..|deeds| - 1][..k] == deeds[..k];
      LogPrefix(deeds[..|deeds| - 1], k);
      NextKeeps(After(deeds[..|deeds| - 1]), deeds[|deeds| - 1]);
    } else {
      assert deeds[..k] == deeds;
    }
  }

  // ---------------------------------------------------------------- orders

  /** A pass entitled to enter sees RUNNING, or OFF if it was switched off meanwhile. */
  lemma {:induction false} EntitledStatus(deeds: seq<Deed>)
    requires LegalLog(deeds) && After(deeds).entitled
    ensures var l := After(deeds); l.status == Some(Running) || (l.status == Some(Off) && l.disabled)
  {
    var before, d := deeds[..|deeds| - 1], deeds[|deeds| - 1];
    if After(before).entitled { EntitledStatus(before); }
  }

  lemma AllowedAt(deeds: seq<Deed>, i: nat)
    requires LegalLog(deeds) && i < |deeds|
    ensures LegalLog(deeds[..i]) && Allowed(After(deeds[..i]), deeds[i])
    ensures After(deeds[..i + 1]) == Next(After(deeds[..i]), deeds[i])
  {
    hide Next, Allowed;
    LogPrefix(deeds, i + 1);
    assert deeds[..i + 1][..i] == deeds[..i];
  }

  /** Every entry is posted by a pass that read RUNNING and has judged nothing since,
      and while RUNNING unless the account was switched off in between. */
  lemma PostedOnlyWhileRunning(deeds: seq<Deed>, i: nat)
    requires LegalLog(deeds) && i < |deeds| && deeds[i].Posted?
    ensures var l := After(deeds[..i]);
            && l.entitled
            && (l.status == Some(Running) || (l.status == Some(Off) && l.disabled))
  {
    AllowedAt(deeds, i);
    EntitledStatus(deeds[..i]);
  }

  /** Switched off between the reading of RUNNING and the order: posted while OFF. */
  lemma PostedWhileOff(k: Key) returns (deeds: seq<Deed>)
    ensures LegalLog(deeds) && deeds != [] && deeds[|deeds| - 1] == Posted(k, Some(Off), Sending)
    ensures After(deeds[..|deeds| - 1]).status == Some(Off)
  {
    LogSnoc([], Wrote(None, Running, Starting));
    var a := [] + [Wrote(None, Running, Starting)];
    LogSnoc(a, Believed(Running));
    var b := a + [Believed(Running)];
    LogSnoc(b, Wrote(Some(Running), Off, Disabling));
    var c := b + [Wrote(Some(Running), Off, Disabling)];
    LogSnoc(c, Posted(k, Some(Off), Sending));
    deeds := c + [Posted(k, Some(Off), Sending)];
    assert deeds[..|deeds| - 1] == c;
  }

  /** A stop is only cancelled, and a row only closed, off a position that is flat or
      whose reading was no position. */
  lemma UndoneOnlyWhenFlat(deeds: seq<Deed>, i: nat)
    requires LegalLog(deeds) && i < |deeds|
    ensures deeds[i].CancelledStop? ==> deeds[i].position == 0 || deeds[i].unseen
    ensures deeds[i].Moved? && deeds[i].to.Closed? ==> deeds[i].position == 0 || deeds[i].unseen
  {
    AllowedAt(deeds, i);
  }

  lemma PostIsRecorded(deeds: seq<Deed>, i: nat)
    requires LegalLog(deeds) && i < |deeds| && deeds[i].Posted?
    ensures deeds[i].key in After(deeds).posts
  {
    AllowedAt(deeds, i);
    LogPrefix(deeds, i + 1);
    var early, all := After(deeds[..i + 1]).posts, After(deeds).posts;
    assert early[|early| - 1] == all[|early| - 1];
  }

  /** At most one entry order per (day, symbol), over any run. */
  lemma AtMostOnePostPerPick(deeds: seq<Deed>, i: nat, j: nat)
    requires LegalLog(deeds) && i < j < |deeds| && deeds[i].Posted? && deeds[j].Posted?
    ensures deeds[i].key != deeds[j].key
  {
    hide After, LegalLog, Next;
    AllowedAt(deeds, j);
    PostIsRecorded(deeds[..j], i);
  }

  // ---------------------------------------------------------------- STOPPED and HALTED

  lemma OnlyResumesReopen(l: Ledger, d: Deed)
    requires Allowed(l, d)
    ensures l.status == Some(Stopped) && Next(l, d).status != Some(Stopped)
            ==> d == Wrote(Some(Stopped), Running, Resuming)
    ensures Shut(l.status) && !Shut(Next(l, d).status) ==> d.Wrote? && d.writer.Resuming? && Shut(d.before)
  {
  }

  /** STOPPED gives way only to a resume that does not look again. */
  lemma {:induction false} StopEndsOnlyByResume(deeds: seq<Deed>, k: nat) returns (w: int)
    requires LegalLog(deeds) && k <= |deeds| && After(deeds[..k]).status == Some(Stopped)
    requires After(deeds).status != Some(Stopped)
    ensures k <= w < |deeds| && deeds[w] == Wrote(Some(Stopped), Running, Resuming)
    decreases |deeds|
  {
    hide Next, Allowed;
    assert deeds[..|deeds|] == deeds;
    var before, d := deeds[..|deeds| - 1], deeds[|deeds| - 1];
    assert before[..k] == deeds[..k];
    if After(before).status == Some(Stopped) {
      OnlyResumesReopen(After(before), d);
      w := |deeds| - 1;
    } else {
      w := StopEndsOnlyByResume(before, k);
    }
  }

  /** HALTED gives way to anything but STOPPED only through a resume. */
  lemma {:induction false} HaltEndsOnlyByResume(deeds: seq<Deed>, k: nat) returns (w: int)
    requires LegalLog(deeds) && k <= |deeds| && Shut(After(deeds[..k]).status)
    requires !Shut(After(deeds).status)
    ensures k <= w < |deeds| && deeds[w].Wrote? && deeds[w].writer.Resuming? && Shut(deeds[w].before)
    decreases |deeds|
  {
    hide Next, Allowed;
    assert deeds[..|deeds|] == deeds;
    var before, d := deeds[..|deeds| - 1], deeds[|deeds| - 1];
    assert before[..k] == deeds[..k];
    if Shut(After(before).status) {
      OnlyResumesReopen(After(before), d);
      w := |deeds| - 1;
    } else {
      w := HaltEndsOnlyByResume(before, k);
    }
  }

  /** While at most one resume is ever in flight, it is in flight over a HALT. */
  lemma {:induction false} ResumeIsOverHalt(deeds: seq<Deed>)
    requires LegalLog(deeds) && After(deeds).single && After(deeds).clean
    ensures 0 <= After(deeds).inFlight <= 1
    ensures After(deeds).inFlight == 1 ==> After(deeds).status == Some(Halted)
  {
    if deeds != [] { ResumeIsOverHalt(deeds[..|deeds| - 1]); }
  }

  /** STOPPED is absorbing under every writer, for every log with at most one resume
      in flight: a STOP is only ever written over a running account. */
  lemma {:induction false} StoppedIsAbsorbing(deeds: seq<Deed>, k: nat)
    requires LegalLog(deeds) && k <= |deeds| && After(deeds).single && After(deeds).clean
    requires After(deeds[..k]).status == Some(Stopped)
    ensures After(deeds).status == Some(Stopped)
    ensures After(deeds).posts == After(deeds[..k]).posts
    decreases |deeds|
  {
    assert deeds[..|deeds|] == deeds;
    if k < |deeds| {
      var before := deeds[..|deeds| - 1];
      assert before[..k] == deeds[..k];
      LogPrefix(deeds, |deeds| - 1);
      StoppedIsAbsorbing(before, k);
      ResumeIsOverHalt(before);
      if After(before).entitled { EntitledStatus(before); }
    }
  }

  /** Halted, and two owners have read so. */
  lemma TwoResumesInFlight() returns (deeds: seq<Deed>)
    ensures LegalLog(deeds) && After(deeds) == Ledger(Some(Halted), 2, false, false, [], false, true)
  {
    LogSnoc([], Wrote(None, Running, Starting));
    var a := [] + [Wrote(None, Running, Starting)];
    LogSnoc(a, Wrote(Some(Running), Halted, Judging));
    var b := a + [Wrote(Some(Running), Halted, Judging)];
    LogSnoc(b, ResumeRead);
    LogSnoc(b + [ResumeRead], ResumeRead);
    deeds := b + [ResumeRead] + [ResumeRead];
  }

  /** Two resumes that both read HALTED: the second reopens a run stopped between them. */
  lemma TwoResumesReopenAStop() returns (deeds: seq<Deed>, k: nat)
    ensures LegalLog(deeds) && After(deeds).clean && !After(deeds).single
    ensures k <= |deeds| && After(deeds[..k]).status == Some(Stopped)
    ensures After(deeds).status == Some(Running)
  {
    var e := TwoResumesInFlight();
    hide LegalLog, After;
    LogSnoc(e, Wrote(Some(Halted), Running, Resuming));
    var f := e + [Wrote(Some(Halted), Running, Resuming)];
    LogSnoc(f, Wrote(Some(Running), Stopped, Judging));
    var g := f + [Wrote(Some(Running), Stopped, Judging)];
    LogSnoc(g, Wrote(Some(Stopped), Running, Resuming));
    deeds, k := g + [Wrote(Some(Stopped), Running, Resuming)], |g|;
    assert deeds[..k] == g;
  }
}
