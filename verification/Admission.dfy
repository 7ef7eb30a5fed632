/**
 * Single use of an entry at the door. Any number of admissions (scans or manual check-ins) of
 * one entry interleave their reads, their conditional update and their report with the entry's
 * revocation, with the deletion of its event and with its own deletion.
 */
module Admission {
  import opened Wrappers

  type AttemptId = nat
  type EventId = nat
  type UserId = nat

  datatype Entry = Entry(
    event: Option<EventId>, usedAt: Option<nat>, usedBy: Option<UserId>, usedManually: bool, revoked: bool)

  datatype Status = Ok | Legacy | AlreadyUsed | WrongEvent | Revoked | NotFound

  /** Who attends, at which event's door, and whether the entry was scanned or picked from the list. */
  datatype Door = Door(user: UserId, event: Option<EventId>, manual: bool)

  /** Where an admission is; `seen` is the entry as it read it. */
  datatype Phase =
    | Loaded(door: Door, seen: Entry)
    | Cleared(door: Door, seen: Entry)
    | Won(seen: Entry)
    | Lost
    | Done(status: Status, usedAt: Option<nat>)

  /** What happened to the row. */
  datatype Event = Used(attempt: AttemptId, at: nat) | Withdrawn | Removed

  datatype State = State(entry: Option<Entry>, attempts: map<AttemptId, Phase>, log: seq<Event>)

  datatype Action =
    | Load(a: AttemptId, door: Door)
    | Judge(a: AttemptId)
    | Consume(a: AttemptId, now: nat)
    | Report(a: AttemptId)
    | Revoke
    | DropEvent
    | Delete

  function Issued(event: Option<EventId>): State {
    State(Some(Entry(event, None, None, false, false)), map[], [])
  }

  /** The same reasons for a scan and for a manual check-in. */
  function Rejection(entry: Entry, door: Option<EventId>): Option<Status> {
    if entry.revoked then Some(Status.Revoked)
    else if entry.usedAt.Some? then Some(AlreadyUsed)
    else if door.Some? && entry.event.Some? && entry.event != door then Some(WrongEvent)
    else None
  }

  /** The condition of the update statement. */
  predicate Consumable(entry: Option<Entry>) {
    entry.Some? && entry.value.usedAt.None? && !entry.value.revoked
  }

  function At(s: State, a: AttemptId, phase: Phase): State {
    s.(attempts := s.attempts[a := phase])
  }

  /** One atomic step; a step that is not enabled changes nothing. */
  function Do(s: State, action: Action): State {
    match action
    case Load(a, door) =>
      if a in s.attempts then s
      else if s.entry.None? then At(s, a, Done(NotFound, None))
      else At(s, a, Loaded(door, s.entry.value))
    case Judge(a) =>
      if a !in s.attempts || !s.attempts[a].Loaded? then s
      else
        var Loaded(door, seen) := s.attempts[a];
        var rejection := Rejection(seen, door.event);
        At(s, a, if rejection.Some? then Done(rejection.value, if rejection == Some(AlreadyUsed) then seen.usedAt else None)
                 else Cleared(door, seen))
    case Consume(a, now) =>
      if a !in s.attempts || !s.attempts[a].Cleared? then s
      else
        var Cleared(door, seen) := s.attempts[a];
        if Consumable(s.entry) then
          var used := s.entry.value.(usedAt := Some(now), usedBy := Some(door.user), usedManually := door.manual);
          At(s, a, Won(seen)).(entry := Some(used), log := s.log + [Used(a, now)])
        else At(s, a, Lost)
    case Report(a) =>
      if a !in s.attempts then s
      else if s.attempts[a].Won? then
        At(s, a, Done(if s.attempts[a].seen.event.None? then Legacy else Ok, None))
      else if s.attempts[a].Lost? then
        At(s, a, Done(AlreadyUsed, if s.entry.Some? then s.entry.value.usedAt else None))
      else s
    case Revoke =>
      if s.entry.None? || s.entry.value.revoked then s
      else s.(entry := Some(s.entry.value.(revoked := true)), log := s.log + [Withdrawn])
    case DropEvent =>
      if s.entry.None? then s else s.(entry := Some(s.entry.value.(event := None)))
    case Delete =>
      if s.entry.None? then s else s.(entry := None, log := s.log + [Removed])
  }

  function Exec(s: State, run: seq<Action>): State
    decreases |run|
  {
    if run == [] then s else Do(Exec(s, run[..|run| - 1]), run[|run| - 1])
  }

  /** One admission with nobody in between. */
  function Alone(entry: Option<Entry>, door: Door, now: nat): State {
    Do(Do(Do(Do(State(entry, map[], []), Load(0, door)), Judge(0)), Consume(0, now)), Report(0))
  }

  /** The stored row, and the door service over it. */
  class Registry {
    var entry: Option<Entry>

    constructor (event: Option<EventId>)
      ensures entry == Issued(event).entry
    {
      entry := Some(Entry(event, None, None, false, false));
    }

    /** The conditional update: true when it changed the row. */
    method Use(user: UserId, manual: bool, now: nat) returns (won: bool)
      modifies this
      ensures won <==> Consumable(old(entry))
      ensures !won ==> entry == old(entry)
      ensures won ==> entry == Some(Entry(old(entry).value.event, Some(now), Some(user), manual, false))
    {
      won := entry.Some? && entry.value.usedAt.None? && !entry.value.revoked;
      if won {
        entry := Some(entry.value.(usedAt := Some(now), usedBy := Some(user), usedManually := manual));
      }
    }

    /** The hour of the use that won, read again for the loser. */
    method HourOfUse() returns (usedAt: Option<nat>)
      ensures usedAt == if entry.Some? then entry.value.usedAt else None
    {
      usedAt := if entry.Some? then entry.value.usedAt else None;
    }

    method Admit(door: Door, now: nat) returns (status: Status, usedAt: Option<nat>)
      modifies this
      ensures entry == Alone(old(entry), door, now).entry
      ensures Alone(old(entry), door, now).attempts == map[0 := Done(status, usedAt)]
    {
      if entry.None? {
        return NotFound, None;
      }
      var seen := entry.value;
      if seen.revoked {
        return Status.Revoked, None;
      }
      if seen.usedAt.Some? {
        return AlreadyUsed, seen.usedAt;
      }
      if door.event.Some? && seen.event.Some? && seen.event != door.event {
        return WrongEvent, None;
      }
      var won := Use(door.user, door.manual, now);
      if !won {
        usedAt := HourOfUse();
        return AlreadyUsed, usedAt;
      }
      if seen.event.None? {
        return Legacy, None;
      }
      return Ok, None;
    }
  }

  // ---------------------------------------------------------------- the invariant

  predicate HasUse(log: seq<Event>) {
    exists i :: 0 <= i < |log| && log[i].Used?
  }

  predicate IsUseBy(e: Event, a: AttemptId) {
    e.Used? && e.attempt == a
  }

  predicate UsedBy(log: seq<Event>, a: AttemptId) {
    exists i :: 0 <= i < |log| && IsUseBy(log[i], a)
  }

  /** A use can only be the first thing that happens to the row: never a second one, never after its end. */
  predicate UsedFirstOrNever(log: seq<Event>) {
    forall j :: 0 < j < |log| ==> !log[j].Used?
  }

  predicate Admitted(phase: Phase) {
    phase.Won? || (phase.Done? && (phase.status == Ok || phase.status == Legacy))
  }

  /** The row records the use in the log, and only a living row has no removal in the log. */
  predicate RowMatchesLog(s: State) {
    && (s.entry.Some? ==>
          && (forall i :: 0 <= i < |s.log| ==> !s.log[i].Removed?)
          && (s.entry.value.revoked <==> exists i :: 0 <= i < |s.log| && s.log[i].Withdrawn?)
          && (s.entry.value.usedAt.Some? <==> HasUse(s.log))
          && (forall i :: 0 <= i < |s.log| && s.log[i].Used? ==> s.entry.value.usedAt == Some(s.log[i].at)))
    && (s.entry.None? ==> s.log != [])
  }

  predicate Sound(s: State) {
    && UsedFirstOrNever(s.log)
    && RowMatchesLog(s)
    && (forall a <- s.attempts :: Admitted(s.attempts[a]) <==> UsedBy(s.log, a))
    && (forall i :: 0 <= i < |s.log| && s.log[i].Used? ==> s.log[i].attempt in s.attempts)
    && (forall a <- s.attempts :: s.attempts[a].Lost? ==> s.log != [])
  }

  lemma SomethingHappened(log: seq<Event>)
    ensures log == [] || HasUse(log)
            || (exists i :: 0 <= i < |log| && log[i].Withdrawn?) || (exists i :: 0 <= i < |log| && log[i].Removed?)
  {
    if log != [] {
      assert log[0].Used? || log[0].Withdrawn? || log[0].Removed?;
    }
  }

  lemma ConsumableMeansUntouched(s: State)
    requires Sound(s) && Consumable(s.entry)
    ensures s.log == []
  {
    SomethingHappened(s.log);
  }

  lemma UsedByAfter(log: seq<Event>, e: Event, a: AttemptId)
    ensures UsedBy(log + [e], a) <==> UsedBy(log, a) || IsUseBy(e, a)
    ensures HasUse(log + [e]) <==> HasUse(log) || e.Used?
  {
    var more := log + [e];
    if UsedBy(log, a) {
      var i :| 0 <= i < |log| && IsUseBy(log[i], a);
      assert IsUseBy(more[i], a);
    }
    if HasUse(log) {
      var i :| 0 <= i < |log| && log[i].Used?;
      assert more[i].Used?;
    }
    assert more[|log|] == e;
  }

  lemma WinKeepsSound(s: State, a: AttemptId, now: nat)
    requires Sound(s) && a in s.attempts && s.attempts[a].Cleared? && Consumable(s.entry)
    ensures Sound(Do(s, Consume(a, now)))
  {
    ConsumableMeansUntouched(s);
    var t := Do(s, Consume(a, now));
    assert t.log == [Used(a, now)];
    assert HasUse(t.log) by { assert t.log[0].Used?; }
    forall b <- t.attempts ensures Admitted(t.attempts[b]) <==> UsedBy(t.log, b) {
      assert UsedBy(t.log, b) <==> IsUseBy(t.log[0], b);
      assert !UsedBy(s.log, b);
    }
  }

  /** Steps that only move one admission along. */
  lemma MovingKeepsSound(s: State, a: AttemptId, phase: Phase)
    requires Sound(s)
    requires Admitted(phase) <==> UsedBy(s.log, a)
    requires phase.Lost? ==> s.log != []
    ensures Sound(At(s, a, phase))
  {
  }

  lemma UnstartedIsUnused(s: State, a: AttemptId)
    requires Sound(s) && a !in s.attempts
    ensures !UsedBy(s.log, a)
  {
  }

  lemma RowEndsKeepSound(s: State, action: Action)
    requires Sound(s) && (action.Revoke? || action.Delete?)
    ensures Sound(Do(s, action))
  {
    var t := Do(s, action);
    if t != s {
      var e := t.log[|s.log|];
      forall a <- t.attempts ensures UsedBy(t.log, a) <==> UsedBy(s.log, a) {
        UsedByAfter(s.log, e, a);
      }
      UsedByAfter(s.log, e, 0);
      assert forall i :: 0 <= i < |s.log| ==> t.log[i] == s.log[i];
    }
  }

  lemma AttemptStepKeepsSound(s: State, a: AttemptId, action: Action)
    requires Sound(s)
    requires (action.Load? || action.Judge? || action.Report?) && action.a == a
    ensures Sound(Do(s, action))
  {
    var t := Do(s, action);
    if t != s {
      if action.Load? {
        UnstartedIsUnused(s, a);
      }
      MovingKeepsSound(s, a, t.attempts[a]);
    }
  }

  lemma ConsumeKeepsSound(s: State, a: AttemptId, now: nat)
    requires Sound(s)
    ensures Sound(Do(s, Consume(a, now)))
  {
    if a in s.attempts && s.attempts[a].Cleared? {
      if Consumable(s.entry) {
        WinKeepsSound(s, a, now);
      } else {
        assert s.log != [] by {
          assert s.entry.Some? && s.entry.value.usedAt.Some? ==> HasUse(s.log);
        }
        MovingKeepsSound(s, a, Lost);
      }
    }
  }

  lemma StepKeepsSound(s: State, action: Action)
    requires Sound(s)
    ensures Sound(Do(s, action))
  {
    match action
    case Load(a, _) => AttemptStepKeepsSound(s, a, action);
    case Judge(a) => AttemptStepKeepsSound(s, a, action);
    case Report(a) => AttemptStepKeepsSound(s, a, action);
    case Consume(a, now) => ConsumeKeepsSound(s, a, now);
    case Revoke => RowEndsKeepSound(s, action);
    case Delete => RowEndsKeepSound(s, action);
    case DropEvent =>
  }

  /**
   * However many admissions, revocations and deletions interleave: at most one admission of
   * the entry succeeds, it is the one that wrote the row, the row keeps that use's hour, and
   * none succeeds after a revocation or a deletion.
   */
  lemma {:induction false} RunsAdmitOnce(event: Option<EventId>, run: seq<Action>)
    ensures Sound(Exec(Issued(event), run))
    decreases |run|
  {
    if run != [] {
      RunsAdmitOnce(event, run[..|run| - 1]);
      StepKeepsSound(Exec(Issued(event), run[..|run| - 1]), run[|run| - 1]);
    }
  }

  lemma OneWinner(event: Option<EventId>, run: seq<Action>, a: AttemptId, b: AttemptId)
    ensures var s := Exec(Issued(event), run);
            && (a in s.attempts && b in s.attempts && Admitted(s.attempts[a]) && Admitted(s.attempts[b]) ==> a == b)
            && (a in s.attempts && Admitted(s.attempts[a]) ==>
                  s.log != [] && IsUseBy(s.log[0], a) && (s.entry.Some? ==> s.entry.value.usedAt == Some(s.log[0].at)))
  {
    RunsAdmitOnce(event, run);
    var s := Exec(Issued(event), run);
    if a in s.attempts && Admitted(s.attempts[a]) {
      var i :| 0 <= i < |s.log| && IsUseBy(s.log[i], a);
      assert i == 0;
      if b in s.attempts && Admitted(s.attempts[b]) {
        var j :| 0 <= j < |s.log| && IsUseBy(s.log[j], b);
        assert j == 0;
      }
    }
  }

  /** Whether a use is recorded, and which. */
  predicate SameUse(before: Entry, after: Entry) {
    after.usedAt == before.usedAt && after.usedBy == before.usedBy && after.usedManually == before.usedManually
  }

  predicate IsUsed(s: State) {
    s.entry.Some? && s.entry.value.usedAt.Some?
  }

  /** Once written, the fields of the use never change while the row exists. */
  lemma {:induction false} UseIsWrittenOnce(s: State, run: seq<Action>)
    requires IsUsed(s)
    ensures var t := Exec(s, run); t.entry.Some? ==> SameUse(s.entry.value, t.entry.value)
    decreases |run|
  {
    if run != [] {
      UseIsWrittenOnce(s, run[..|run| - 1]);
    }
  }

  /**
   * The door with nobody in between, by the row and the event of the door: an entry that is
   * neither withdrawn nor used nor bound to another event comes in, whoever holds it, and the row
   * then says who let it in, when and how; every other is told why and changes nothing.
   */
  lemma AloneIsToldExactly(entry: Option<Entry>, door: Door, now: nat)
    ensures var s := Alone(entry, door, now);
            0 in s.attempts
            && if entry.None? then s == State(None, map[0 := Done(NotFound, None)], [])
               else
                 var e := entry.value;
                 var elsewhere := door.event.Some? && e.event.Some? && e.event.value != door.event.value;
                 if e.revoked then s == State(entry, map[0 := Done(Status.Revoked, None)], [])
                 else if e.usedAt.Some? then s == State(entry, map[0 := Done(AlreadyUsed, e.usedAt)], [])
                 else if elsewhere then s == State(entry, map[0 := Done(WrongEvent, None)], [])
                 else
                   && s.entry == Some(Entry(e.event, Some(now), Some(door.user), door.manual, false))
                   && s.attempts == map[0 := Done(if e.event.Some? then Ok else Legacy, None)]
                   && s.log == [Used(0, now)]
  {
    var loaded := Do(State(entry, map[], []), Load(0, door));
    var judged := Do(loaded, Judge(0));
    var consumed := Do(judged, Consume(0, now));
    assert Alone(entry, door, now) == Do(consumed, Report(0));
  }

  // ---------------------------------------------------------------- what the loser is told

  /**
   * An admission that reaches the update and loses is always told "already used". That is
   * false, the entry was never used, exactly when at the update the row was gone or revoked
   * without a use.
   */
  lemma LoserIsToldUsed(s: State, a: AttemptId, now: nat)
    requires Sound(s) && a in s.attempts && s.attempts[a].Cleared?
    ensures var t := Do(Do(s, Consume(a, now)), Report(a));
            && (t.attempts[a].Done? && (t.attempts[a].status == AlreadyUsed <==> !Consumable(s.entry)))
            && (t.attempts[a].status == AlreadyUsed && !HasUse(t.log)
                <==> !HasUse(s.log) && (s.entry.None? || s.entry.value.revoked))
  {
    if Consumable(s.entry) {
      ConsumableMeansUntouched(s);
      assert Do(s, Consume(a, now)).log[0].Used?;
    } else if s.entry.Some? {
      assert s.entry.value.usedAt.Some? <==> HasUse(s.log);
    }
  }

  /** The run that shows it: the payment is rejected between the read and the update. */
  lemma RevokedButToldUsed()
    ensures var s := Exec(Issued(Some(1)), [Load(0, Door(9, Some(1), false)), Judge(0), Revoke, Consume(0, 5), Report(0)]);
            0 in s.attempts && s.attempts[0] == Done(AlreadyUsed, None) && !HasUse(s.log)
  {
    var run := [Load(0, Door(9, Some(1), false)), Judge(0), Revoke, Consume(0, 5), Report(0)];
    var s0 := Issued(Some(1));
    var s1 := Do(s0, run[0]);
    var s2 := Do(s1, run[1]);
    var s3 := Do(s2, run[2]);
    var s4 := Do(s3, run[3]);
    assert run[..4][..3] == run[..3] && run[..3][..2] == run[..2] && run[..2][..1] == run[..1] && run[..1][..0] == [];
    assert Exec(s0, run[..1]) == s1;
    assert Exec(s0, run[..2]) == s2;
    assert Exec(s0, run[..3]) == s3;
    assert Exec(s0, run[..4]) == s4;
    assert s4.log == [Withdrawn];
  }
}
