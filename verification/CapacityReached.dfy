/**
 * The bounds of `Capacity` are met: runs from an empty board, with buyers that reach the validated
 * stage one after the other, whose overlapping deliveries issue that many entries too many.
 */
module CapacityReached {
  import opened Wrappers
  import opened Board
  import opened Crm
  import opened Capacity
  import opened CrmBuyers
  import R = CrmRuns
  import D = CrmDelivery
  import Delivery

  // ---------------------------------------------------------------- a line of buyers

  /** A buyer in the validated stage, with its entry or without. */
  function Bought(row: Event, c: ConvId, served: bool): Card {
    Card(VALIDATED, [], [row.service], [Move(None, 0, Agent), Move(Some(0), VALIDATED, Operator(0))],
         if served then Some(Entry(c, Some(row.id), Some(row.info), false)) else None)
  }

  /** `n` buyers of the only event; the first `live` have their entry. */
  predicate Buyers(s: State, row: Event, n: nat, live: nat) {
    && Leads(s, n) && live <= n
    && (forall c :: 0 <= c < n ==> c in s.cards)
    && (forall c <- s.cards :: c < n && s.cards[c] == Bought(row, c, c < live))
    && OnlyEvent(s, row) && row.id == 0 && s.nextToken == live && s.nextEvent == 1
  }

  /** The deliveries `live` to `next` are in flight, each for the card of its number. */
  function Flights(event: Event, live: nat, next: nat): (flying: map<nat, Flight>)
    ensures forall d :: d in flying <==> live <= d < next
    ensures forall d :: d in flying ==> flying[d] == Flight(d, event)
  {
    if next <= live then map[] else Flights(event, live, next - 1)[next - 1 := Flight(next - 1, event)]
  }

  predicate Line(o: Overlap, planned: Event, row: Event, n: nat, live: nat, next: nat) {
    && Buyers(o.s, row, n, live) && live <= next <= n
    && o.flying == Flights(planned, live, next)
    && planned.id == row.id && planned.info == row.info
  }

  lemma {:induction false} CountBetween(s: set<nat>, first: nat, end: nat)
    requires first <= end
    requires forall x :: x in s <==> first <= x < end
    ensures |s| == end - first
    decreases end - first
  {
    if first == end {
      assert s == {};
    } else {
      CountBetween(s - {end - 1}, first, end - 1);
    }
  }

  lemma SeatsOfBuyers(s: State, row: Event, n: nat, live: nat)
    requires Buyers(s, row, n, live)
    ensures |Seats(s, row.id)| == live
  {
    CountBetween(Seats(s, row.id), 0, live);
  }

  lemma AirborneOfLine(o: Overlap, planned: Event, row: Event, n: nat, live: nat, next: nat)
    requires Line(o, planned, row, n, live, next)
    ensures |Airborne(o, row.id)| == next - live
  {
    CountBetween(Airborne(o, row.id), live, next);
  }

  // ---------------------------------------------------------------- the steps of the line

  lemma OneMoreChecks(o: Overlap, row: Event, n: nat, live: nat, d: nat, next: nat)
    requires d + 1 == next <= n && Line(o, row, row, n, live, d)
    requires row.status != Over && row.capacity.Some? && live < row.capacity.value
    ensures Line(Do(SEEDED, o, Check(d, d, row.startsAt)), row, row, n, live, next)
  {
    BuyerPasses(o.s, row, n, live, d);
    assert Flights(row, live, d)[d := Flight(d, row)] == Flights(row, live, next);
  }

  lemma BuyerPasses(s: State, row: Event, n: nat, live: nat, conv: ConvId)
    requires Buyers(s, row, n, live) && live <= conv < n
    requires row.status != Over && row.capacity.Some? && live < row.capacity.value
    ensures Passes(SEEDED, s, conv, row.startsAt) && PlanFor(s, s.cards[conv], row.startsAt).event == Some(row)
  {
    SeededStages();
    SeatsOfBuyers(s, row, n, live);
    BuyerGetsASeat(s, row, s.cards[conv]);
  }

  lemma OneMoreInserts(o: Overlap, planned: Event, row: Event, n: nat, live: nat, next: nat)
    requires Line(o, planned, row, n, live, next) && live < next
    ensures Line(Do(SEEDED, o, Insert(live)), planned, row, n, live + 1, next)
  {
    InsertLands(o, planned, row, live);
    BuyerIsServed(o.s, planned, row, n, live);
    FlightLands(planned, live, next);
  }

  lemma FlightLands(planned: Event, live: nat, next: nat)
    ensures Flights(planned, live, next) - {live} == Flights(planned, live + 1, next)
  {
  }

  lemma InsertLands(o: Overlap, planned: Event, row: Event, live: nat)
    requires live in o.flying && o.flying[live] == Flight(live, planned) && live in o.s.cards
    requires o.s.events == [row] && planned.id == row.id
    ensures Do(SEEDED, o, Insert(live)) == Overlap(Issued(o.s, live, Some(planned)), o.flying - {live})
  {
    assert o.s.events[0] == row && EventById(o.s.events, Some(row.id)) == Some(row);
  }

  lemma BuyerIsServed(s: State, planned: Event, row: Event, n: nat, live: nat)
    requires Buyers(s, row, n, live) && live < n && planned.id == row.id && planned.info == row.info
    ensures Buyers(Issued(s, live, Some(planned)), row, n, live + 1)
  {
    var t := Issued(s, live, Some(planned));
    forall c <- t.cards ensures c < n && t.cards[c] == Bought(row, c, c < live + 1) {
      assert c != live ==> t.cards[c] == s.cards[c];
    }
  }

  /** The request that changes only the capacity of the event. */
  function Resized(request: Event, capacity: nat): Event {
    request.(id := 0, capacity := Some(capacity))
  }

  lemma ResizedRow(request: Event, capacity: nat)
    requires Admissible(request) && capacity > 0
    ensures Admissible(Resized(request, capacity))
    ensures EventReplaced([Row(request)], Cleaned(Resized(request, capacity))) == [Row(request).(capacity := Some(capacity))]
  {
  }

  lemma CapacityEdited(o: Overlap, request: Event, capacity: nat, n: nat, live: nat, next: nat)
    requires Admissible(request) && capacity > 0 && Line(o, Row(request), Row(request), n, live, next)
    ensures Line(Do(SEEDED, o, Step(R.EditEvent(Resized(request, capacity)))),
                 Row(request), Row(request).(capacity := Some(capacity)), n, live, next)
  {
    ResizedRow(request, capacity);
    var t := EventEdited(o.s, Resized(request, capacity));
    assert t.events == [Row(request).(capacity := Some(capacity))];
  }

  // ---------------------------------------------------------------- runs

  function Course(request: Event): map<ServiceId, Service> {
    map[request.service := COURSE]
  }

  /** The run keeps to the overlap, and its edits keep their room. */
  predicate Fair(request: Event, run: seq<Action>, overlap: nat, flights: bool) {
    && AtMost(SEEDED, Start(Course(request)), run, 0, overlap)
    && EditsKeepRoom(SEEDED, Start(Course(request)), run, 0, flights)
  }

  function At(request: Event, run: seq<Action>): Overlap {
    Exec(SEEDED, Start(Course(request)), run)
  }

  lemma Grows(request: Event, run: seq<Action>, overlap: nat, flights: bool, a: Action)
    requires Fair(request, run, overlap, flights)
    requires |Airborne(Do(SEEDED, At(request, run), a), 0)| <= overlap && KeepsRoom(At(request, run), a, 0, flights)
    ensures Fair(request, run + [a], overlap, flights)
    ensures At(request, run + [a]) == Do(SEEDED, At(request, run), a)
  {
    assert (run + [a])[..|run|] == run;
  }

  /** Nothing in flight, so far. */
  predicate Idle(request: Event, run: seq<Action>, overlap: nat, flights: bool) {
    Fair(request, run, overlap, flights) && At(request, run).flying == map[]
  }

  lemma IdleGrows(request: Event, run: seq<Action>, overlap: nat, flights: bool, a: Action) returns (longer: seq<Action>)
    requires Idle(request, run, overlap, flights) && !Edits(a, 0)
    requires Do(SEEDED, At(request, run), a).flying == map[]
    ensures Idle(request, longer, overlap, flights)
    ensures At(request, longer) == Do(SEEDED, At(request, run), a)
  {
    assert Airborne(Do(SEEDED, At(request, run), a), 0) == {};
    Grows(request, run, overlap, flights, a);
    longer := run + [a];
  }

  lemma EventOpens(request: Event, overlap: nat, flights: bool) returns (run: seq<Action>)
    requires Admissible(request)
    ensures Idle(request, run, overlap, flights) && Line(At(request, run), Row(request), Row(request), 0, 0, 0)
  {
    assert Airborne(Start(Course(request)), 0) == {};
    run := IdleGrows(request, [], overlap, flights, Step(R.AddEvent(request)));
    assert At(request, run).s.events == [Row(request)];
  }

  /** One more buyer writes, buys and is put in the validated stage. */
  lemma BuyerJoins(request: Event, overlap: nat, flights: bool, run: seq<Action>, n: nat) returns (longer: seq<Action>)
    requires Admissible(request) && Idle(request, run, overlap, flights)
    requires Line(At(request, run), Row(request), Row(request), n, 0, 0)
    ensures Idle(request, longer, overlap, flights) && Line(At(request, longer), Row(request), Row(request), n + 1, 0, 0)
  {
    var s := At(request, run).s;
    longer := LeadArrives(request, overlap, flights, run, n);
    var bought := At(request, longer).s;
    longer := IdleGrows(request, longer, overlap, flights, Place(n, VALIDATED, Operator(0)));
    BuyerIsPlaced(s, bought, Row(request), n);
  }

  lemma LeadArrives(request: Event, overlap: nat, flights: bool, run: seq<Action>, n: nat) returns (longer: seq<Action>)
    requires Idle(request, run, overlap, flights) && Leads(At(request, run).s, n) && n !in At(request, run).s.cards
    ensures Idle(request, longer, overlap, flights)
    ensures var s, t := At(request, run).s, At(request, longer).s;
            Leads(t, n + 1) && SameRest(s, t) && t.cards == s.cards[n := Arrival(request.service)]
  {
    var written, mirrored, bought := LeadBuys(At(request, run).s, n, request.service);
    longer := StepGrows(request, run, overlap, flights, R.Write(n));
    longer := StepGrows(request, longer, overlap, flights, R.Sync(n));
    longer := StepGrows(request, longer, overlap, flights, R.Assign(n, [request.service]));
  }

  lemma StepGrows(request: Event, run: seq<Action>, overlap: nat, flights: bool, a: R.Action) returns (longer: seq<Action>)
    requires Idle(request, run, overlap, flights) && !Delivers(a) && !a.EditEvent?
    ensures Idle(request, longer, overlap, flights) && At(request, longer).s == R.Do(SEEDED, At(request, run).s, a)
  {
    longer := IdleGrows(request, run, overlap, flights, Step(a));
  }

  lemma BuyerIsPlaced(s: State, bought: State, row: Event, n: nat)
    requires Buyers(s, row, n, 0) && Leads(bought, n + 1) && SameRest(s, bought)
    requires bought.cards == s.cards[n := Arrival(row.service)]
    ensures Buyers(MovedCard(SEEDED, bought, n, VALIDATED, Operator(0)).0, row, n + 1, 0)
  {
    SeededStages();
    D.MoveEffect(SEEDED, bought, n, VALIDATED, Operator(0));
  }

  lemma {:induction false} BuyersJoin(request: Event, overlap: nat, flights: bool, n: nat) returns (run: seq<Action>)
    requires Admissible(request)
    ensures Idle(request, run, overlap, flights) && Line(At(request, run), Row(request), Row(request), n, 0, 0)
    decreases n
  {
    if n == 0 {
      run := EventOpens(request, overlap, flights);
    } else {
      run := BuyersJoin(request, overlap, flights, n - 1);
      run := BuyerJoins(request, overlap, flights, run, n - 1);
    }
  }

  /** A fair run that leads to this line. */
  predicate Reaches(request: Event, overlap: nat, flights: bool, run: seq<Action>, planned: Event, row: Event, n: nat, live: nat, next: nat) {
    Fair(request, run, overlap, flights) && Line(At(request, run), planned, row, n, live, next)
  }

  lemma CheckOn(request: Event, overlap: nat, flights: bool, run: seq<Action>, n: nat, live: nat, d: nat, next: nat)
    returns (longer: seq<Action>)
    requires Admissible(request) && request.status != Over && request.capacity.Some? && live < request.capacity.value
    requires d + 1 == next <= n && next - live <= overlap
    requires Reaches(request, overlap, flights, run, Row(request), Row(request), n, live, d)
    ensures Reaches(request, overlap, flights, longer, Row(request), Row(request), n, live, next)
  {
    var a := Check(d, d, request.startsAt);
    var o := At(request, run);
    OneMoreChecks(o, Row(request), n, live, d, next);
    AirborneOfLine(Do(SEEDED, o, a), Row(request), Row(request), n, live, next);
    Grows(request, run, overlap, flights, a);
    longer := run + [a];
  }

  lemma InsertOn(request: Event, overlap: nat, flights: bool, run: seq<Action>, planned: Event, row: Event, n: nat, live: nat, next: nat)
    returns (longer: seq<Action>)
    requires live < next && next - live <= overlap && row.id == 0
    requires Reaches(request, overlap, flights, run, planned, row, n, live, next)
    ensures Reaches(request, overlap, flights, longer, planned, row, n, live + 1, next)
  {
    var a := Insert(live);
    var o := At(request, run);
    OneMoreInserts(o, planned, row, n, live, next);
    AirborneOfLine(Do(SEEDED, o, a), planned, row, n, live + 1, next);
    Grows(request, run, overlap, flights, a);
    longer := run + [a];
  }

  /** The first `live` seats are filled one delivery at a time. */
  lemma {:induction false} Fill(request: Event, overlap: nat, flights: bool, n: nat, live: nat) returns (run: seq<Action>)
    requires Admissible(request) && request.status != Over && request.capacity.Some?
    requires live <= request.capacity.value && live <= n && overlap > 0
    ensures Reaches(request, overlap, flights, run, Row(request), Row(request), n, live, live)
    decreases live
  {
    if live == 0 {
      run := BuyersJoin(request, overlap, flights, n);
    } else {
      run := Fill(request, overlap, flights, n, live - 1);
      run := CheckOn(request, overlap, flights, run, n, live - 1, live - 1, live);
      run := InsertOn(request, overlap, flights, run, Row(request), Row(request), n, live - 1, live);
      LineMoves(At(request, run), Row(request), Row(request), n, live);
    }
  }

  /** With nothing in flight the line starts anywhere. */
  lemma LineMoves(o: Overlap, planned: Event, row: Event, n: nat, live: nat)
    requires Line(o, planned, row, n, live, live)
    ensures o.flying == map[]
  {
    assert Flights(planned, live, live) == map[];
  }

  /** The deliveries up to `next` check together. */
  lemma {:induction false} CheckTogether(request: Event, overlap: nat, flights: bool, n: nat, live: nat, next: nat) returns (run: seq<Action>)
    requires Admissible(request) && request.status != Over && request.capacity.Some? && live < request.capacity.value
    requires live <= next <= n && next - live <= overlap && overlap > 0
    ensures Reaches(request, overlap, flights, run, Row(request), Row(request), n, live, next)
    decreases next
  {
    if next == live {
      run := Fill(request, overlap, flights, n, live);
    } else {
      var before := CheckTogether(request, overlap, flights, n, live, next - 1);
      run := CheckOn(request, overlap, flights, before, n, live, next - 1, next);
    }
  }

  lemma {:induction false} InsertAll(request: Event, overlap: nat, flights: bool, run: seq<Action>, planned: Event, row: Event,
                                     n: nat, live: nat, next: nat)
    returns (longer: seq<Action>)
    requires live <= next && next - live <= overlap && row.id == 0
    requires Reaches(request, overlap, flights, run, planned, row, n, live, next)
    ensures Reaches(request, overlap, flights, longer, planned, row, n, next, next)
    decreases next - live
  {
    longer := run;
    if live < next {
      longer := InsertOn(request, overlap, flights, run, planned, row, n, live, next);
      longer := InsertAll(request, overlap, flights, longer, planned, row, n, live + 1, next);
    }
  }

  /** That many overlapping deliveries do issue that many entries too many, starting from an empty board. */
  lemma ExcessIsReached(request: Event, overlap: nat) returns (run: seq<Action>)
    requires Admissible(request) && request.status != Over && request.capacity.Some? && overlap > 0
    ensures Fair(request, run, overlap, true)
    ensures CapacityOf(At(request, run).s, 0) == request.capacity
    ensures |Seats(At(request, run).s, 0)| == request.capacity.value + overlap - 1
  {
    var live := request.capacity.value - 1;
    var n := live + overlap;
    run := CheckTogether(request, overlap, true, n, live, n);
    run := InsertAll(request, overlap, true, run, Row(request), Row(request), n, live, n);
    SeatsOfBuyers(At(request, run).s, Row(request), n, n);
  }

  lemma EditOn(request: Event, overlap: nat, run: seq<Action>, capacity: nat, n: nat, next: nat) returns (longer: seq<Action>)
    requires Admissible(request) && 0 < capacity && capacity <= next && next - capacity <= overlap
    requires Reaches(request, overlap, false, run, Row(request), Row(request), n, capacity, next)
    ensures Reaches(request, overlap, false, longer, Row(request), Row(request).(capacity := Some(capacity)), n, capacity, next)
  {
    var a := Step(R.EditEvent(Resized(request, capacity)));
    var o := At(request, run);
    CapacityEdited(o, request, capacity, n, capacity, next);
    SeatsOfBuyers(o.s, Row(request), n, capacity);
    AirborneOfLine(Do(SEEDED, o, a), Row(request), Row(request).(capacity := Some(capacity)), n, capacity, next);
    Grows(request, run, overlap, false, a);
    longer := run + [a];
  }

  /**
   * An edit that lowers the capacity to the entries already issued, while deliveries that passed
   * the gate are in flight, lets all of them exceed it: one more than without edits.
   */
  lemma EditExcessIsReached(request: Event, overlap: nat, capacity: nat) returns (run: seq<Action>)
    requires Admissible(request) && request.status != Over && request.capacity == Some(capacity + 1)
    requires capacity > 0 && overlap > 0
    ensures Fair(request, run, overlap, false)
    ensures CapacityOf(At(request, run).s, 0) == Some(capacity)
    ensures |Seats(At(request, run).s, 0)| == capacity + overlap
  {
    var n := capacity + overlap;
    var row := Row(request).(capacity := Some(capacity));
    run := CheckTogether(request, overlap, false, n, capacity, n);
    run := EditOn(request, overlap, run, capacity, n, n);
    run := InsertAll(request, overlap, false, run, Row(request), row, n, capacity, n);
    SeatsOfBuyers(At(request, run).s, row, n, n);
  }

  // ---------------------------------------------------------------- when the capacity is safe

  predicate WithinCapacity(s: State, id: EventId) {
    CapacityOf(s, id).Some? ==> |Seats(s, id)| <= CapacityOf(s, id).value
  }

  /** Over every run with at most that overlap and edits that keep room, no event exceeds its capacity. */
  ghost predicate NeverExceeds(overlap: nat, flights: bool) {
    forall catalogue: map<ServiceId, Service>, run: seq<Action>, id: EventId ::
      AtMost(SEEDED, Start(catalogue), run, id, overlap) && EditsKeepRoom(SEEDED, Start(catalogue), run, id, flights) ==>
        WithinCapacity(Exec(SEEDED, Start(catalogue), run).s, id)
  }

  /** An event with two seats. */
  const WORKSHOP: Event := Event(0, 3, Active, 0, Some(2), "", Delivery.EventInfo("", "", ""))

  /**
   * Capacities are safe exactly when the deliveries of an event never overlap and no edit takes
   * the room of those in flight.
   */
  lemma CapacityIsSafeExactly(overlap: nat, flights: bool)
    requires overlap > 0
    ensures NeverExceeds(overlap, flights) <==> overlap == 1 && flights
  {
    if overlap == 1 && flights {
      forall catalogue: map<ServiceId, Service>, run: seq<Action>, id: EventId
        | AtMost(SEEDED, Start(catalogue), run, id, overlap) && EditsKeepRoom(SEEDED, Start(catalogue), run, id, flights)
        ensures WithinCapacity(Exec(SEEDED, Start(catalogue), run).s, id)
      {
        OverlapBoundsExcess(SEEDED, catalogue, run, id, overlap);
      }
    } else {
      WorkshopIsAdmissible();
      var run := Breach(overlap, flights);
      assert !WithinCapacity(At(WORKSHOP, run).s, 0);
    }
  }

  lemma WorkshopIsAdmissible()
    ensures Admissible(WORKSHOP)
  {
    assert CheckedVenue("") == Some("");
  }

  lemma Breach(overlap: nat, flights: bool) returns (run: seq<Action>)
    requires overlap > 1 || (overlap == 1 && !flights)
    ensures Fair(WORKSHOP, run, overlap, flights) && !WithinCapacity(At(WORKSHOP, run).s, 0)
  {
    WorkshopIsAdmissible();
    if flights {
      run := ExcessIsReached(WORKSHOP, overlap);
    } else {
      run := EditExcessIsReached(WORKSHOP, overlap, 1);
    }
  }
}
