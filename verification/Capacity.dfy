/**
 * The gate of an event under overlapping deliveries. The plan of a delivery counts the live
 * entries, and the entry is inserted later; deliveries that were planned before another one
 * inserted all pass. This module splits deliveries there, on the board and among all its other
 * operations, and bounds how far that goes.
 */
module Capacity {
  import opened Wrappers
  import opened Board
  import opened Crm
  import opened Sequences
  import E = CrmEntries
  import R = CrmRuns

  // ---------------------------------------------------------------- deliveries that overlap

  /** A delivery that was planned for the event and has not written its entry. */
  datatype Flight = Flight(conv: ConvId, event: Event)

  datatype Overlap = Overlap(s: State, flying: map<nat, Flight>)

  /** A delivery in its two halves, a move of a card without the delivery that may follow, and every other step. */
  datatype Action =
    | Check(delivery: nat, conv: ConvId, now: int)
    | Insert(delivery: nat)
    | Abandon(delivery: nat)
    | Place(conv: ConvId, to: StageId, mover: Mover)
    | Step(a: R.Action)

  /** The steps that plan and write in one go; here they come in halves. */
  predicate Delivers(a: R.Action) {
    a.Drag? || a.Deliver? || a.Retry? || a.RetryForEvent? || a.Approve? || a.Press?
  }

  /** The card stands in the validated stage and its plan lets it have a new entry of an event. */
  predicate Passes(board: Table, s: State, conv: ConvId, now: int) {
    && conv in s.cards && s.cards[conv].entry.None?
    && GetStage(board, Human, PaymentValidated) == Some(s.cards[conv].stage)
    && var planned := PlanFor(s, s.cards[conv], now);
       planned.plan.blockedBy.None? && planned.event.Some?
  }

  /** The card and the event are still there to hang the entry from. */
  predicate CanInsert(s: State, f: Flight) {
    f.conv in s.cards && EventById(s.events, Some(f.event.id)).Some?
  }

  function Do(board: Table, o: Overlap, a: Action): Overlap {
    match a
    case Check(d, conv, now) =>
      if d !in o.flying && Passes(board, o.s, conv, now)
      then o.(flying := o.flying[d := Flight(conv, PlanFor(o.s, o.s.cards[conv], now).event.value)]) else o
    case Insert(d) =>
      if d !in o.flying then o
      else if CanInsert(o.s, o.flying[d])
      then Overlap(Issued(o.s, o.flying[d].conv, Some(o.flying[d].event)), o.flying - {d})
      else o.(flying := o.flying - {d})
    case Abandon(d) => o.(flying := o.flying - {d})
    case Place(conv, to, mover) => o.(s := MovedCard(board, o.s, conv, to, mover).0)
    case Step(a) => if Delivers(a) then o else o.(s := R.Do(board, o.s, a))
  }

  function Exec(board: Table, o: Overlap, run: seq<Action>): Overlap
    decreases |run|
  {
    if run == [] then o else Do(board, Exec(board, o, run[..|run| - 1]), run[|run| - 1])
  }

  /** A board on which nothing happened yet. */
  function Start(catalogue: map<ServiceId, Service>): Overlap {
    Overlap(R.Empty(catalogue), map[])
  }

  /** The deliveries in flight for the event. */
  function Airborne(o: Overlap, id: EventId): set<nat> {
    set d | d in o.flying && o.flying[d].event.id == id
  }

  // ---------------------------------------------------------------- the counters

  /** Live entries of the event, deliveries that passed its gate and have not inserted yet, and its capacity. */
  datatype Counters = Counters(live: nat, passed: nat, capacity: Option<nat>)

  function CapacityOf(s: State, id: EventId): Option<nat> {
    var row := EventById(s.events, Some(id));
    if row.Some? then row.value.capacity else None
  }

  function Abs(o: Overlap, id: EventId): Counters {
    Counters(|Seats(o.s, id)|, |Airborne(o, id)|, CapacityOf(o.s, id))
  }

  /** A delivery passes the gate below the capacity, or enters; entries and deliveries go; the event appears, empty. */
  predicate Tick(c: Counters, d: Counters) {
    || (d == c.(passed := c.passed + 1) && (c.capacity.Some? ==> c.live < c.capacity.value))
    || (c.passed > 0 && d == Counters(c.live + 1, c.passed - 1, c.capacity))
    || (d.live <= c.live && d.passed <= c.passed && (d.capacity == c.capacity || d.capacity.None?))
    || (d.live == 0 && d.passed == 0)
  }

  /** The capacity is exceeded, by entries and deliveries on their way, by no more than `slack`. */
  predicate Bounded(c: Counters, slack: nat) {
    c.capacity.Some? ==> c.live + c.passed <= c.capacity.value + slack
  }

  /** The sum of both counters never outgrows the capacity by more than the overlap less one. */
  lemma TickKeepsBounded(c: Counters, d: Counters, overlap: nat, slack: nat)
    requires Tick(c, d) && Bounded(c, slack) && d.passed <= overlap <= slack + 1
    ensures Bounded(d, slack)
  {
  }

  // ---------------------------------------------------------------- the steps refine the counters

  /** Events are told apart, and entries and deliveries name events that were created. */
  predicate Inv(o: Overlap) {
    E.EventsOk(o.s) && forall d <- o.flying :: o.flying[d].event.id < o.s.nextEvent
  }

  lemma {:induction false} RowIsFound(events: seq<Event>, e: Event)
    requires E.DistinctIds(events) && e in events
    ensures EventById(events, Some(e.id)) == Some(e)
  {
    if events[0] == e {
    } else {
      assert events == [events[0]] + events[1..];
      E.HeadIdIsAlone(events, e);
      assert E.DistinctIds(events[1..]) by {
        assert forall i :: 0 <= i < |events[1..]| ==> events[1..][i] == events[i + 1];
      }
      RowIsFound(events[1..], e);
    }
  }

  /** The rows of an event decide its capacity. */
  lemma SameRowSameCapacity(s: State, t: State, id: EventId)
    requires E.DistinctIds(s.events) && E.DistinctIds(t.events)
    requires forall e: Event :: e.id == id ==> (e in s.events <==> e in t.events)
    ensures CapacityOf(s, id) == CapacityOf(t, id)
  {
    var a, b := EventById(s.events, Some(id)), EventById(t.events, Some(id));
    if a.Some? {
      RowIsFound(t.events, a.value);
    } else if b.Some? {
      RowIsFound(s.events, b.value);
    }
  }

  lemma NoNewEntriesKeepEvents(s: State, t: State)
    requires E.EventsOk(s) && E.NoNewEntries(s, t)
    ensures E.EventsOk(t)
  {
    forall conv <- t.cards ensures E.BoundBelow(t.cards[conv], t.nextEvent) {
      assert t.cards[conv].entry.Some? ==> E.BoundBelow(s.cards[conv], s.nextEvent);
    }
  }

  /** A step that gives no entry and leaves the agenda alone. */
  lemma QuietIsATick(o: Overlap, t: State, id: EventId)
    requires Inv(o) && E.NoNewEntries(o.s, t)
    ensures Inv(o.(s := t)) && Tick(Abs(o, id), Abs(o.(s := t), id))
  {
    NoNewEntriesKeepEvents(o.s, t);
    assert Seats(t, id) <= Seats(o.s, id);
    SubsetSize(Seats(t, id), Seats(o.s, id));
    assert Airborne(o.(s := t), id) == Airborne(o, id);
  }

  /** A planned event is in the table, and had a free seat. */
  lemma PlannedEventHasRoom(board: Table, s: State, conv: ConvId, now: int)
    requires E.EventsOk(s) && Passes(board, s, conv, now)
    ensures var event := PlanFor(s, s.cards[conv], now).event.value;
            event.id < s.nextEvent && HasCapacity(s, event) && CapacityOf(s, event.id) == event.capacity
  {
    var event := PlanFor(s, s.cards[conv], now).event.value;
    E.PlanIsGated(s, conv, now);
    assert E.Gated(s, conv, Some(event));
    var i :| 0 <= i < |s.events| && s.events[i] == event;
    RowIsFound(s.events, event);
  }

  lemma FlightStarts(o: Overlap, d: nat, f: Flight, id: EventId)
    requires d !in o.flying
    ensures |Airborne(o.(flying := o.flying[d := f]), id)| == |Airborne(o, id)| + (if f.event.id == id then 1 else 0)
  {
    var t := o.(flying := o.flying[d := f]);
    if f.event.id == id {
      assert Airborne(t, id) == Airborne(o, id) + {d} && d !in Airborne(o, id);
    } else {
      assert Airborne(t, id) == Airborne(o, id);
    }
  }

  lemma CheckIsATick(board: Table, o: Overlap, d: nat, conv: ConvId, now: int, id: EventId)
    requires Inv(o) && d !in o.flying && Passes(board, o.s, conv, now)
    ensures var t := Do(board, o, Check(d, conv, now)); Inv(t) && Tick(Abs(o, id), Abs(t, id))
  {
    PlannedEventHasRoom(board, o.s, conv, now);
    TakeOff(o, d, Flight(conv, PlanFor(o.s, o.s.cards[conv], now).event.value), id);
  }

  lemma TakeOff(o: Overlap, d: nat, f: Flight, id: EventId)
    requires Inv(o) && d !in o.flying && f.event.id < o.s.nextEvent
    requires HasCapacity(o.s, f.event) && CapacityOf(o.s, f.event.id) == f.event.capacity
    ensures var t := o.(flying := o.flying[d := f]); Inv(t) && Tick(Abs(o, id), Abs(t, id))
  {
    FlightStarts(o, d, f, id);
  }

  /** Landing or giving up takes the delivery out of the air. */
  lemma FlightEnds(o: Overlap, s: State, d: nat, id: EventId)
    ensures Airborne(Overlap(s, o.flying - {d}), id) == Airborne(o, id) - {d}
    ensures |Airborne(Overlap(s, o.flying - {d}), id)|
            == |Airborne(o, id)| - (if d in o.flying && o.flying[d].event.id == id then 1 else 0)
  {
    assert Airborne(Overlap(s, o.flying - {d}), id) == Airborne(o, id) - {d};
  }

  lemma IssueKeepsEvents(s: State, conv: ConvId, event: Event)
    requires E.EventsOk(s) && conv in s.cards && event.id < s.nextEvent
    ensures E.EventsOk(Issued(s, conv, Some(event)))
  {
    var t := Issued(s, conv, Some(event));
    forall c <- t.cards ensures E.BoundBelow(t.cards[c], t.nextEvent) {
      assert E.BoundBelow(s.cards[c], s.nextEvent);
    }
  }

  lemma IssueAddsASeat(s: State, conv: ConvId, event: Event, id: EventId)
    requires conv in s.cards
    ensures |Seats(Issued(s, conv, Some(event)), id)|
            == |Seats(s, id)| + (if s.cards[conv].entry.None? && event.id == id then 1 else 0)
  {
    SeatsAfterIssue(s, conv, event, id);
  }

  lemma SeatsAfterIssue(s: State, conv: ConvId, event: Event, id: EventId)
    requires conv in s.cards
    ensures Seats(Issued(s, conv, Some(event)), id)
            == if s.cards[conv].entry.None? && event.id == id then Seats(s, id) + {conv} else Seats(s, id)
    ensures s.cards[conv].entry.None? ==> conv !in Seats(s, id)
  {
    var t := Issued(s, conv, Some(event));
    forall c ensures LiveIn(t, c, id) <==> LiveIn(s, c, id) || (c == conv && s.cards[conv].entry.None? && event.id == id) {
    }
    assert forall c :: c in Seats(t, id) <==> LiveIn(t, c, id);
    assert forall c :: c in Seats(s, id) <==> LiveIn(s, c, id);
  }

  predicate LiveIn(s: State, conv: ConvId, id: EventId) {
    conv in s.cards && LiveFor(s.cards[conv], id)
  }

  lemma InsertIsATick(board: Table, o: Overlap, d: nat, id: EventId)
    requires Inv(o) && d in o.flying
    ensures var t := Do(board, o, Insert(d)); Inv(t) && Tick(Abs(o, id), Abs(t, id))
  {
    var t, f := Do(board, o, Insert(d)), o.flying[d];
    FlightEnds(o, t.s, d, id);
    if CanInsert(o.s, f) {
      IssueKeepsEvents(o.s, f.conv, f.event);
      IssueAddsASeat(o.s, f.conv, f.event, id);
    }
  }

  // ---------------------------------------------------------------- the agenda

  lemma AddIsATick(o: Overlap, request: Event, id: EventId)
    requires Inv(o)
    ensures var t := o.(s := EventAdded(o.s, request)); Inv(t) && Tick(Abs(o, id), Abs(t, id))
  {
    var t := o.(s := EventAdded(o.s, request));
    assert Airborne(t, id) == Airborne(o, id) && Seats(t.s, id) == Seats(o.s, id);
    forall conv <- t.s.cards ensures E.BoundBelow(t.s.cards[conv], t.s.nextEvent) {
      assert E.BoundBelow(o.s.cards[conv], o.s.nextEvent);
    }
    if id == o.s.nextEvent {
      forall conv <- o.s.cards ensures !LiveFor(o.s.cards[conv], id) {
        assert E.BoundBelow(o.s.cards[conv], o.s.nextEvent);
      }
      assert Seats(t.s, id) == {} && Airborne(t, id) == {};
    } else {
      SameRowSameCapacity(o.s, t.s, id);
    }
  }

  lemma DropIsATick(o: Overlap, dropped: EventId, id: EventId)
    requires Inv(o)
    ensures var t := o.(s := EventDropped(o.s, dropped)); Inv(t) && Tick(Abs(o, id), Abs(t, id))
  {
    var t := o.(s := EventDropped(o.s, dropped));
    E.WithoutIsSubset(o.s.events, dropped);
    E.WithoutKeepsIds(o.s.events, dropped);
    forall conv <- t.s.cards ensures E.BoundBelow(t.s.cards[conv], t.s.nextEvent) {
      assert E.BoundBelow(o.s.cards[conv], o.s.nextEvent);
    }
    forall i | 0 <= i < |t.s.events| ensures t.s.events[i].id < t.s.nextEvent {
      assert t.s.events[i] in o.s.events;
    }
    assert Airborne(t, id) == Airborne(o, id);
    assert Seats(t.s, id) <= Seats(o.s, id);
    SubsetSize(Seats(t.s, id), Seats(o.s, id));
    if id != dropped {
      SameRowSameCapacity(o.s, t.s, id);
    }
  }

  /** The step edits this event. */
  predicate Edits(a: Action, id: EventId) {
    a.Step? && a.a.EditEvent? && a.a.event.id == id && Admissible(a.a.event)
  }

  lemma ReplacedKeepsIds(events: seq<Event>, event: Event)
    requires E.DistinctIds(events)
    ensures E.DistinctIds(EventReplaced(events, event))
  {
  }

  lemma EditKeepsInv(o: Overlap, request: Event)
    requires Inv(o)
    ensures Inv(o.(s := EventEdited(o.s, request)))
  {
    var t := EventEdited(o.s, request);
    if Admissible(request) {
      ReplacedKeepsIds(o.s.events, Cleaned(request));
    }
    forall conv <- t.cards ensures E.BoundBelow(t.cards[conv], t.nextEvent) {
      assert E.BoundBelow(o.s.cards[conv], o.s.nextEvent);
    }
  }

  /** An edit changes the capacity of its event, and only that. */
  lemma EditResizes(o: Overlap, request: Event, id: EventId)
    requires Inv(o)
    ensures var t := o.(s := EventEdited(o.s, request));
            && Abs(t, id).live == Abs(o, id).live && Abs(t, id).passed == Abs(o, id).passed
            && (Abs(t, id).capacity == Abs(o, id).capacity
                || (Admissible(request) && id == request.id && Abs(t, id).capacity == request.capacity))
  {
    var t := o.(s := EventEdited(o.s, request));
    EditKeepsInv(o, request);
    assert Seats(t.s, id) == Seats(o.s, id) && Airborne(t, id) == Airborne(o, id);
    if !Admissible(request) || id != request.id {
      EditKeepsOthers(o.s, request, id);
      SameRowSameCapacity(o.s, t.s, id);
    } else {
      var row := EventById(t.s.events, Some(id));
      if row.None? && EventById(o.s.events, Some(id)).Some? {
        var e := EventById(o.s.events, Some(id)).value;
        var i :| 0 <= i < |o.s.events| && o.s.events[i] == e;
        assert t.s.events[i] in t.s.events;
        RowIsFound(t.s.events, t.s.events[i]);
      } else if row.Some? {
        var i :| 0 <= i < |t.s.events| && t.s.events[i] == row.value;
      }
    }
  }

  lemma EditKeepsOthers(s: State, request: Event, id: EventId)
    requires !Admissible(request) || id != request.id
    ensures forall e: Event :: e.id == id ==> (e in s.events <==> e in EventEdited(s, request).events)
  {
    var t := EventEdited(s, request);
    if Admissible(request) {
      forall e: Event | e.id == id ensures e in s.events <==> e in t.events {
        if i :| 0 <= i < |s.events| && s.events[i] == e {
          assert t.events[i] == e;
        }
        if i :| 0 <= i < |t.events| && t.events[i] == e {
          assert s.events[i] == e;
        }
      }
    }
  }

  lemma RevokeIsATick(o: Overlap, conv: ConvId, id: EventId)
    requires Inv(o)
    ensures var t := o.(s := Revoked(o.s, conv)); Inv(t) && Tick(Abs(o, id), Abs(t, id))
  {
    var t := o.(s := Revoked(o.s, conv));
    forall c <- t.s.cards ensures E.BoundBelow(t.s.cards[c], t.s.nextEvent) {
      assert E.BoundBelow(o.s.cards[c], o.s.nextEvent);
    }
    assert Airborne(t, id) == Airborne(o, id);
    assert Seats(t.s, id) <= Seats(o.s, id);
    SubsetSize(Seats(t.s, id), Seats(o.s, id));
  }

  /** The remaining steps of the board, one at a time. */
  lemma OtherStepIssuesNothing(board: Table, s: State, a: R.Action)
    requires !Delivers(a) && !a.AddEvent? && !a.EditEvent? && !a.DropEvent? && !a.Revoke?
    ensures E.NoNewEntries(s, R.Do(board, s, a))
  {
    if R.OfConversation(a) {
      E.ConversationIssuesNothing(s, a);
    } else if a.Sync? {
      E.SyncIssuesNothing(board, s, a.conv);
    } else if a.Create? {
      E.CreateIssuesNothing(board, s, a.phone, a.fullName, a.user);
    }
  }

  lemma BoardIsATick(board: Table, o: Overlap, a: R.Action, id: EventId)
    requires Inv(o) && !Delivers(a) && !Edits(Step(a), id)
    ensures var t := o.(s := R.Do(board, o.s, a)); Inv(t) && Tick(Abs(o, id), Abs(t, id))
  {
    match a
    case AddEvent(request) => AddIsATick(o, request, id);
    case EditEvent(request) => EditIsATick(o, request, id);
    case DropEvent(dropped) => DropIsATick(o, dropped, id);
    case Revoke(conv) => RevokeIsATick(o, conv, id);
    case _ => OtherStepIsATick(board, o, a, id);
  }

  lemma OtherStepIsATick(board: Table, o: Overlap, a: R.Action, id: EventId)
    requires Inv(o) && !Delivers(a) && !a.AddEvent? && !a.EditEvent? && !a.DropEvent? && !a.Revoke?
    ensures var t := o.(s := R.Do(board, o.s, a)); Inv(t) && Tick(Abs(o, id), Abs(t, id))
  {
    OtherStepIssuesNothing(board, o.s, a);
    QuietIsATick(o, R.Do(board, o.s, a), id);
  }

  lemma EditIsATick(o: Overlap, request: Event, id: EventId)
    requires Inv(o) && !(request.id == id && Admissible(request))
    ensures var t := o.(s := EventEdited(o.s, request)); Inv(t) && Tick(Abs(o, id), Abs(t, id))
  {
    EditKeepsInv(o, request);
    EditResizes(o, request, id);
  }

  /** Every step but an edit of the event does to its counters what the counters say. */
  lemma StepIsATick(board: Table, o: Overlap, a: Action, id: EventId)
    requires Inv(o) && !Edits(a, id)
    ensures Inv(Do(board, o, a)) && Tick(Abs(o, id), Abs(Do(board, o, a), id))
  {
    match a
    case Check(d, conv, now) =>
      if d !in o.flying && Passes(board, o.s, conv, now) {
        CheckIsATick(board, o, d, conv, now, id);
      }
    case Insert(d) =>
      if d in o.flying {
        InsertIsATick(board, o, d, id);
      }
    case Abandon(d) => FlightEnds(o, o.s, d, id);
    case Place(conv, to, mover) =>
      E.MovingKeepsEntries(board, o.s, conv, to, mover);
      QuietIsATick(o, MovedCard(board, o.s, conv, to, mover).0, id);
    case Step(b) =>
      if !Delivers(b) {
        BoardIsATick(board, o, b, id);
      }
  }

  // ---------------------------------------------------------------- the bounds

  /** At no point more than `overlap` deliveries of the event are in flight. */
  predicate AtMost(board: Table, o: Overlap, run: seq<Action>, id: EventId, overlap: nat)
    decreases |run|
  {
    |Airborne(Exec(board, o, run), id)| <= overlap && (run == [] || AtMost(board, o, run[..|run| - 1], id, overlap))
  }

  /** An edit of the event keeps room for its entries, and for the deliveries in flight if they are to be kept too. */
  predicate KeepsRoom(o: Overlap, a: Action, id: EventId, flights: bool) {
    Edits(a, id) && a.a.event.capacity.Some? ==>
      |Seats(o.s, id)| + (if flights then |Airborne(o, id)| else 0) <= a.a.event.capacity.value
  }

  predicate EditsKeepRoom(board: Table, o: Overlap, run: seq<Action>, id: EventId, flights: bool)
    decreases |run|
  {
    run == [] || (EditsKeepRoom(board, o, run[..|run| - 1], id, flights)
                  && KeepsRoom(Exec(board, o, run[..|run| - 1]), run[|run| - 1], id, flights))
  }

  lemma EditKeepsBounded(board: Table, o: Overlap, a: Action, id: EventId, flights: bool, overlap: nat)
    requires Inv(o) && Edits(a, id) && KeepsRoom(o, a, id, flights)
    requires overlap > 0 && |Airborne(o, id)| <= overlap
    requires Bounded(Abs(o, id), if flights then overlap - 1 else overlap)
    ensures Inv(Do(board, o, a)) && Bounded(Abs(Do(board, o, a), id), if flights then overlap - 1 else overlap)
  {
    EditKeepsInv(o, a.a.event);
    EditResizes(o, a.a.event, id);
  }

  lemma {:induction false} ExcessIsBounded(board: Table, catalogue: map<ServiceId, Service>, run: seq<Action>, id: EventId,
                                           overlap: nat, flights: bool)
    requires overlap > 0 && AtMost(board, Start(catalogue), run, id, overlap)
    requires EditsKeepRoom(board, Start(catalogue), run, id, flights)
    ensures Inv(Exec(board, Start(catalogue), run))
    ensures Bounded(Abs(Exec(board, Start(catalogue), run), id), if flights then overlap - 1 else overlap)
    decreases |run|
  {
    var o := Start(catalogue);
    if run == [] {
      assert Airborne(o, id) == {} && Seats(o.s, id) == {};
    } else {
      var init, a := run[..|run| - 1], run[|run| - 1];
      var before := Exec(board, o, init);
      ExcessIsBounded(board, catalogue, init, id, overlap, flights);
      if Edits(a, id) {
        EditKeepsBounded(board, before, a, id, flights, overlap);
      } else {
        StepIsATick(board, before, a, id);
        TickKeepsBounded(Abs(before, id), Abs(Exec(board, o, run), id), overlap, if flights then overlap - 1 else overlap);
      }
    }
  }

  /**
   * Over any run of the board with its deliveries in halves, at most `overlap` of an event in
   * flight and edits that keep room for its entries and those on their way: its live entries
   * never exceed its capacity by more than the overlap less one.
   */
  lemma OverlapBoundsExcess(board: Table, catalogue: map<ServiceId, Service>, run: seq<Action>, id: EventId, overlap: nat)
    requires overlap > 0 && AtMost(board, Start(catalogue), run, id, overlap)
    requires EditsKeepRoom(board, Start(catalogue), run, id, true)
    ensures var c := Abs(Exec(board, Start(catalogue), run), id);
            c.capacity.Some? ==> c.live + c.passed <= c.capacity.value + overlap - 1
  {
    ExcessIsBounded(board, catalogue, run, id, overlap, true);
  }

  /** When edits keep room only for the entries already issued, by no more than the overlap. */
  lemma EditsBoundExcess(board: Table, catalogue: map<ServiceId, Service>, run: seq<Action>, id: EventId, overlap: nat)
    requires overlap > 0 && AtMost(board, Start(catalogue), run, id, overlap)
    requires EditsKeepRoom(board, Start(catalogue), run, id, false)
    ensures var c := Abs(Exec(board, Start(catalogue), run), id);
            c.capacity.Some? ==> c.live + c.passed <= c.capacity.value + overlap
  {
    ExcessIsBounded(board, catalogue, run, id, overlap, false);
  }
}
