/**
 * Leads that buy a course, from the first message to the validated stage of the seeded board: the
 * runs that show what the code does less than it says start here.
 */
module CrmBuyers {
  import opened Wrappers
  import opened Board
  import opened CardFlags
  import opened Crm
  import opened CrmRuns
  import opened CrmDelivery
  import opened CrmEntries
  import opened CrmNotices
  import Delivery

  /** A course held in person, without links. */
  const COURSE: Service := Service(Delivery.Presencial, [])

  const VALIDATED: StageId := 7

  lemma SeededStages()
    ensures GetStage(SEEDED, Ia, IaNew) == Some(0) && SEEDED[0].status == Open
    ensures GetStage(SEEDED, Human, PaymentValidated) == Some(VALIDATED) && SEEDED[VALIDATED].status == Open
    ensures SEEDED[VALIDATED].kind == Human && SEEDED[VALIDATED].name == PaymentValidated
    ensures GetStage(SEEDED, Human, Handed) == Some(8) && SEEDED[8].status == Open
  {
    assert SEEDED[0].kind == Ia && SEEDED[0].name == IaNew;
    assert SEEDED[7].kind == Human && SEEDED[7].name == PaymentValidated;
    assert SEEDED[8].kind == Human && SEEDED[8].name == Handed;
  }

  // ---------------------------------------------------------------- a lead arrives

  /** `n` leads wrote, each from the phone of its number. */
  predicate Leads(s: State, n: nat) {
    |s.convs| == n && forall c :: 0 <= c < n ==> s.convs[c].phone == c
  }

  lemma {:induction false} UnknownPhone(convs: seq<Conv>, phone: Phone)
    requires forall c :: 0 <= c < |convs| ==> convs[c].phone != phone
    ensures LatestOf(convs, phone) == None
  {
    if convs != [] {
      UnknownPhone(convs[..|convs| - 1], phone);
    }
  }

  /** The card of a lead that wrote and bought. */
  function Arrival(service: ServiceId): Card {
    Card(0, [], [service], [Move(None, 0, Agent)], None)
  }

  /** Everything but conversations, cards and the log. */
  predicate SameRest(s: State, t: State) {
    && t.catalogue == s.catalogue && t.events == s.events && t.contacts == s.contacts
    && t.nextToken == s.nextToken && t.nextEvent == s.nextEvent
  }

  lemma LeadWrites(s: State, n: nat)
    requires Leads(s, n)
    ensures var t := Do(SEEDED, s, Write(n));
            && Leads(t, n + 1) && t.cards == s.cards && SameRest(s, t)
            && t.convs[n] == FreshConv(n, None) && t.log == s.log
  {
    UnknownPhone(s.convs, n);
  }

  lemma LeadIsMirrored(s: State, n: nat)
    requires Leads(s, n + 1) && n !in s.cards && s.convs[n] == FreshConv(n, None)
    ensures var t := Do(SEEDED, s, Sync(n));
            && Leads(t, n + 1) && SameRest(s, t)
            && t.cards == s.cards[n := Card(0, [], [], [Move(None, 0, Agent)], None)]
            && t.convs[n] == FreshConv(n, None) && t.log == s.log + [Moved(n, Move(None, 0, Agent))]
  {
    SeededStages();
  }

  /** A new lead writes, is mirrored on the board, and an operator records what it bought. */
  lemma LeadBuys(s: State, n: nat, service: ServiceId) returns (written: State, mirrored: State, t: State)
    requires Leads(s, n) && n !in s.cards
    ensures written == Do(SEEDED, s, Write(n)) && mirrored == Do(SEEDED, written, Sync(n))
    ensures t == Do(SEEDED, mirrored, Assign(n, [service]))
    ensures Leads(t, n + 1) && SameRest(s, t) && t.cards == s.cards[n := Arrival(service)] && t.convs[n] == FreshConv(n, None)
    ensures t.log == s.log + [Moved(n, Move(None, 0, Agent))]
  {
    written := Do(SEEDED, s, Write(n));
    LeadWrites(s, n);
    mirrored := Do(SEEDED, written, Sync(n));
    LeadIsMirrored(written, n);
    t := Do(SEEDED, mirrored, Assign(n, [service]));
  }

  // ---------------------------------------------------------------- the plan of a buyer

  /** The course is in the catalogue and this event is the only one. */
  predicate OnlyEvent(s: State, row: Event) {
    s.events == [row] && s.catalogue == map[row.service := COURSE]
  }

  lemma BuysTheCourse(s: State, row: Event)
    requires OnlyEvent(s, row)
    ensures Accepted(s, [row.service]) == [COURSE] && AcceptedIds(s, [row.service]) == [row.service]
  {
    assert [row.service][1..] == [];
    assert Accepted(s, []) == [] && AcceptedIds(s, []) == [];
  }

  /** A buyer without entry gets one of the event while it has room. */
  lemma BuyerGetsASeat(s: State, row: Event, card: Card)
    requires OnlyEvent(s, row) && row.status != Over && HasCapacity(s, row)
    requires card.services == [row.service] && card.entry.None?
    ensures var planned := PlanFor(s, card, row.startsAt);
            planned.plan.blockedBy.None? && planned.plan.needsEntry && planned.event == Some(row)
  {
    BuysTheCourse(s, row);
    assert [row][..0] == [];
    assert CurrentFor([row], row.service, row.startsAt) == Some(row);
    Delivery.DecidesExactly(Delivery.Presencial, LinksAt([], Some(row)), InfoOf(Some(row), None));
  }

  // ---------------------------------------------------------------- a revoked entry goes out again

  /** A delivery whose message is accepted, and whose notices are recorded. */
  const GOOD: World := World(Recorded, SendResult.Delivered, SendResult.Delivered, true)

  /** The catalogue and what the card bought. */
  predicate SamePurchase(s: State, t: State, conv: ConvId) {
    t.catalogue == s.catalogue && conv in s.cards && conv in t.cards && t.cards[conv].services == s.cards[conv].services
  }

  lemma ConcludingKeepsPurchase(board: Table, s: State, conv: ConvId, warnings: seq<Flag>)
    requires conv in s.cards
    ensures SamePurchase(s, Concluded(board, s, conv, warnings).0, conv)
  {
  }

  lemma AdvancingKeepsPurchase(board: Table, s: State, conv: ConvId, handed: StageId, warnings: seq<Flag>)
    requires conv in s.cards && handed < |board|
    ensures SamePurchase(s, Advanced(board, s, conv, handed, warnings).0, conv)
  {
    var (moved, result) := MovedCard(board, s, conv, handed, System);
    if result == MoveOk {
      MovedKeepsCards(board, s, conv, handed, System);
      ConcludingKeepsPurchase(board, WithFlags(moved, conv, DeliveryReplaced(moved.cards[conv].flags, warnings)), conv, warnings);
    }
  }

  /** A buyer that stands in the validated stage, with its entry or before it. */
  ghost predicate Ready(s: State, row: Event, conv: ConvId) {
    && AtValidated(SEEDED, s, conv) && OnlyEvent(s, row) && s.cards[conv].services == [row.service]
  }

  lemma FirstEntryGoesOut(s: State, row: Event, conv: ConvId)
    requires Ready(s, row, conv) && row.status != Over && row.capacity.None? && s.cards[conv].entry.None?
    ensures var (t, outcome) := DeliveredTo(SEEDED, s, conv, row.startsAt, GOOD);
            && outcome.Done? && SamePurchase(s, t, conv) && t.events == s.events
            && t.cards[conv].entry == Some(Entry(s.nextToken, Some(row.id), Some(row.info), false))
  {
    SeededStages();
    BuyerGetsASeat(s, row, s.cards[conv]);
    var planned := PlanFor(s, s.cards[conv], row.startsAt);
    EntryGoesOut(SEEDED, s, conv, planned, GOOD);
    AdvancingKeepsPurchase(SEEDED, SentMain(s, conv, planned, GOOD), conv, 8, planned.plan.warnings);
    AdvancingKeepsEntries(SEEDED, SentMain(s, conv, planned, GOOD), conv, 8, planned.plan.warnings);
  }

  /** The card of an operator's drag into the validated stage, before the delivery that follows. */
  lemma DragValidates(s: State, conv: ConvId)
    requires conv in s.cards && s.cards[conv].stage != VALIDATED
    ensures var (moved, result) := MovedCard(SEEDED, s, conv, VALIDATED, Operator(0));
            && result == MoveOk && conv in moved.cards && moved.cards[conv].stage == VALIDATED
            && moved.log == s.log + [Moved(conv, Move(Some(s.cards[conv].stage), VALIDATED, Operator(0)))]
            && SamePurchase(s, moved, conv) && moved.events == s.events && moved.nextToken == s.nextToken
            && moved.cards[conv].entry == s.cards[conv].entry
  {
    SeededStages();
    MoveEffect(SEEDED, s, conv, VALIDATED, Operator(0));
  }

  lemma DragDelivers(s: State, conv: ConvId, now: int)
    requires conv in s.cards && s.cards[conv].stage != VALIDATED
    ensures var (moved, result) := MovedCard(SEEDED, s, conv, VALIDATED, Operator(0));
            && Do(SEEDED, s, Drag(conv, VALIDATED, 0, now, GOOD)) == DeliveredTo(SEEDED, moved, conv, now, GOOD).0
            && AtValidated(SEEDED, moved, conv) && moved.log == s.log + [Moved(conv, Move(Some(s.cards[conv].stage), VALIDATED, Operator(0)))]
            && SamePurchase(s, moved, conv) && moved.events == s.events && moved.nextToken == s.nextToken
            && moved.cards[conv].entry == s.cards[conv].entry
  {
    SeededStages();
    DragValidates(s, conv);
    DragIsMoveAndDelivery(SEEDED, s, conv, VALIDATED, now, GOOD);
  }

  lemma DragIsMoveAndDelivery(board: Table, s: State, conv: ConvId, to: StageId, now: int, world: World)
    requires MovedCard(board, s, conv, to, Operator(0)).1 == MoveOk
    requires to < |board| && board[to].kind == Human && board[to].name == PaymentValidated
    ensures Do(board, s, Drag(conv, to, 0, now, world))
            == DeliveredTo(board, MovedCard(board, s, conv, to, Operator(0)).0, conv, now, world).0
  {
    var a := Drag(conv, to, 0, now, world);
    assert Do(board, s, a) == OnBoard(board, s, a);
    DraggedIsDelivery(board, s, conv, to, now, world);
  }

  lemma DraggedIsDelivery(board: Table, s: State, conv: ConvId, to: StageId, now: int, world: World)
    requires MovedCard(board, s, conv, to, Operator(0)).1 == MoveOk
    requires to < |board| && board[to].kind == Human && board[to].name == PaymentValidated
    ensures Dragged(board, s, conv, to, 0, now, world)
            == DeliveredTo(board, MovedCard(board, s, conv, to, Operator(0)).0, conv, now, world).0
  {
  }

  lemma DeliverIsDelivery(board: Table, s: State, conv: ConvId, now: int, world: World)
    ensures Do(board, s, Deliver(conv, now, world)) == DeliveredTo(board, s, conv, now, world).0
  {
  }

  lemma DeliveredLeaves(s: State, conv: ConvId, now: int)
    requires conv in s.cards && DeliveredTo(SEEDED, s, conv, now, GOOD).1.Done?
    ensures var t := DeliveredTo(SEEDED, s, conv, now, GOOD).0; conv in t.cards && t.cards[conv].stage != VALIDATED
  {
    SeededStages();
    SeededIsInOrder();
    var (t, outcome) := DeliveredTo(SEEDED, s, conv, now, GOOD);
    DeliveryServesOrStays(SEEDED, s, conv, now, GOOD);
    var moves := ServedMoves(SEEDED, s.cards[conv].stage, 8, outcome.closed);
    var what :| Served(SEEDED, s, t, conv, moves, what);
  }

  /** The message of an accepted request, as the table stores it. */
  function Row(request: Event): Event
    requires Admissible(request)
  {
    Cleaned(request).(id := 0)
  }

  /** A lead bought a seat and the delivery reached it. */
  function SeatTaken(service: ServiceId, request: Event): seq<Action> {
    [AddEvent(request), Write(0), Sync(0), Assign(0, [service]), Drag(0, VALIDATED, 0, request.startsAt, GOOD)]
  }

  /** Its entry is revoked and the card dragged back into the validated stage. */
  function DraggedBack(service: ServiceId, request: Event): seq<Action> {
    SeatTaken(service, request) + [Revoke(0)] + [Drag(0, VALIDATED, 0, request.startsAt, GOOD)]
  }

  lemma BuyerArrives(request: Event) returns (s: State)
    requires Admissible(request)
    ensures s == Exec(SEEDED, Empty(map[request.service := COURSE]),
                      [AddEvent(request), Write(0), Sync(0), Assign(0, [request.service])])
    ensures OnlyEvent(s, Row(request)) && s.cards == map[0 := Arrival(request.service)] && s.nextToken == 0
  {
    var empty := Empty(map[request.service := COURSE]);
    var run := [AddEvent(request)];
    EventIsListed(request);
    s := LeadBuysAfter(empty, run, request.service);
    assert run + [Write(0)] + [Sync(0)] + [Assign(0, [request.service])]
        == [AddEvent(request), Write(0), Sync(0), Assign(0, [request.service])];
  }

  lemma EventIsListed(request: Event)
    requires Admissible(request)
    ensures Exec(SEEDED, Empty(map[request.service := COURSE]), [AddEvent(request)])
            == Empty(map[request.service := COURSE]).(events := [Row(request)], nextEvent := 1)
  {
    var empty := Empty(map[request.service := COURSE]);
    OneMore(SEEDED, empty, [], AddEvent(request));
    assert [] + [AddEvent(request)] == [AddEvent(request)];
    AddingAdds(SEEDED, empty, request);
    FirstRow(empty, request);
  }

  lemma AddingAdds(board: Table, s: State, request: Event)
    ensures Do(board, s, AddEvent(request)) == EventAdded(s, request)
  {
  }

  lemma FirstRow(s: State, request: Event)
    requires Admissible(request) && s.events == [] && s.nextEvent == 0
    ensures EventAdded(s, request) == s.(events := [Row(request)], nextEvent := 1)
  {
    assert [] + [Row(request)] == [Row(request)];
  }

  /** The first lead, after a run that left no lead and no card. */
  lemma LeadBuysAfter(s: State, run: seq<Action>, service: ServiceId) returns (t: State)
    requires Leads(Exec(SEEDED, s, run), 0) && Exec(SEEDED, s, run).cards == map[]
    ensures t == Exec(SEEDED, s, run + [Write(0)] + [Sync(0)] + [Assign(0, [service])])
    ensures Leads(t, 1) && SameRest(Exec(SEEDED, s, run), t) && t.cards == map[0 := Arrival(service)] && !t.convs[0].noticed
    ensures t.log == Exec(SEEDED, s, run).log + [Moved(0, Move(None, 0, Agent))]
  {
    var written, mirrored, bought := LeadBuys(Exec(SEEDED, s, run), 0, service);
    OneMore(SEEDED, s, run, Write(0));
    OneMore(SEEDED, s, run + [Write(0)], Sync(0));
    OneMore(SEEDED, s, run + [Write(0)] + [Sync(0)], Assign(0, [service]));
    t := bought;
  }

  lemma SeatIsTaken(request: Event) returns (s: State)
    requires Admissible(request) && request.status != Over && request.capacity.None?
    ensures s == Exec(SEEDED, Empty(map[request.service := COURSE]), SeatTaken(request.service, request))
    ensures OnlyEvent(s, Row(request)) && 0 in s.cards && s.cards[0].services == [request.service] && s.cards[0].stage != VALIDATED
    ensures s.cards[0].entry == Some(Entry(0, Some(0), Some(request.info), false))
  {
    var before := BuyerArrives(request);
    var run := [AddEvent(request), Write(0), Sync(0), Assign(0, [request.service])];
    var drag := Drag(0, VALIDATED, 0, request.startsAt, GOOD);
    OneMore(SEEDED, Empty(map[request.service := COURSE]), run, drag);
    assert run + [drag] == SeatTaken(request.service, request);
    DragDelivers(before, 0, request.startsAt);
    var moved := MovedCard(SEEDED, before, 0, VALIDATED, Operator(0)).0;
    FirstEntryGoesOut(moved, Row(request), 0);
    DeliveredLeaves(moved, 0, request.startsAt);
    s := DeliveredTo(SEEDED, moved, 0, request.startsAt, GOOD).0;
  }

  /**
   * The entry of a lead that was served is revoked, and its card dragged back into the validated
   * stage: the same entry goes out again, revoked as it is, and the card is handed over.
   */
  lemma ARevokedEntryGoesOut(request: Event)
    requires Admissible(request) && request.status != Over && request.capacity.None?
    ensures var before := Exec(SEEDED, Empty(map[request.service := COURSE]), SeatTaken(request.service, request) + [Revoke(0)]);
            var after := Exec(SEEDED, Empty(map[request.service := COURSE]), DraggedBack(request.service, request));
            && 0 in before.cards && before.cards[0].entry == Some(Entry(0, Some(0), Some(request.info), true))
            && 0 in after.cards && after.cards[0].entry == before.cards[0].entry && after.cards[0].stage != VALIDATED
            && |after.log| > |before.log| + 1 && after.log[|before.log| + 1] == Sent(0, EntryImage(0))
  {
    var empty := Empty(map[request.service := COURSE]);
    var before := SeatIsRevoked(request);
    OneMore(SEEDED, empty, SeatTaken(request.service, request) + [Revoke(0)], Drag(0, VALIDATED, 0, request.startsAt, GOOD));
    RevokedIsResentOnDrag(before, Row(request));
  }

  lemma SeatIsRevoked(request: Event) returns (s: State)
    requires Admissible(request) && request.status != Over && request.capacity.None?
    ensures s == Exec(SEEDED, Empty(map[request.service := COURSE]), SeatTaken(request.service, request) + [Revoke(0)])
    ensures OnlyEvent(s, Row(request)) && 0 in s.cards && s.cards[0].services == [request.service] && s.cards[0].stage != VALIDATED
    ensures s.cards[0].entry == Some(Entry(0, Some(0), Some(request.info), true))
  {
    var served := SeatIsTaken(request);
    OneMore(SEEDED, Empty(map[request.service := COURSE]), SeatTaken(request.service, request), Revoke(0));
    s := Do(SEEDED, served, Revoke(0));
  }

  lemma RevokedIsResentOnDrag(before: State, row: Event)
    requires OnlyEvent(before, row) && 0 in before.cards && before.cards[0].stage != VALIDATED
    requires before.cards[0].services == [row.service]
    requires before.cards[0].entry.Some? && before.cards[0].entry.value.revoked
    ensures var after := Do(SEEDED, before, Drag(0, VALIDATED, 0, row.startsAt, GOOD));
            && 0 in after.cards && after.cards[0].entry == before.cards[0].entry && after.cards[0].stage != VALIDATED
            && |after.log| > |before.log| + 1
            && after.log[|before.log| + 1] == Sent(0, EntryImage(before.cards[0].entry.value.token))
  {
    DragDelivers(before, 0, row.startsAt);
    RevokedIsResentFrom(MovedCard(SEEDED, before, 0, VALIDATED, Operator(0)).0, row);
  }

  lemma RevokedIsResentFrom(s: State, row: Event)
    requires Ready(s, row, 0) && s.cards[0].entry.Some? && s.cards[0].entry.value.revoked
    ensures var t := DeliveredTo(SEEDED, s, 0, row.startsAt, GOOD).0;
            && 0 in t.cards && t.cards[0].entry == s.cards[0].entry && t.cards[0].stage != VALIDATED
            && |t.log| > |s.log| && t.log[|s.log|] == Sent(0, EntryImage(s.cards[0].entry.value.token))
  {
    SeededStages();
    BuysTheCourse(s, row);
    RevokedEntryIsResent(SEEDED, s, 0, row.startsAt, GOOD);
    DeliveredLeaves(s, 0, row.startsAt);
  }

  // ---------------------------------------------------------------- a lead told twice

  /** The notice is accepted and its row lost with the session. */
  const LOSING: World := World(Unrecorded, SendResult.Delivered, SendResult.Delivered, true)

  /** A card that bought nothing is put in the validated stage: the notice is lost, and the delivery tried again. */
  const TOLD_TWICE: seq<Action> := [Write(0), Sync(0), Assign(0, [1]), Drag(0, VALIDATED, 0, 0, LOSING), Deliver(0, 0, GOOD)]

  lemma BlockedByNothingBought(s: State, card: Card)
    requires card.services == [1] && s.catalogue == map[]
    ensures PlanFor(s, card, 0) == Planned(Delivery.Blocked(NoModality), None)
  {
    assert [1][1..] == [];
    assert Accepted(s, [1]) == Accepted(s, []);
  }

  /** A blocked delivery of a lead not told yet sends the notice, and records it or loses it. */
  lemma BlockedTells(s: State, world: World)
    requires AtValidated(SEEDED, s, 0) && s.cards[0].services == [1] && s.catalogue == map[]
    requires |s.convs| == 1 && !s.convs[0].noticed && world.notice != Refused
    ensures var t := DeliveredTo(SEEDED, s, 0, 0, world).0;
            && t.log == s.log + [Sent(0, Notice(world.notice == Recorded))]
            && (world.notice == Unrecorded ==> t == s.(log := t.log))
  {
    BlockedByNothingBought(s, s.cards[0]);
  }

  /** The lead is told again when the row of the first notice was lost. */
  lemma LostNoticeIsToldAgain()
    ensures var log := Exec(SEEDED, Empty(map[]), TOLD_TWICE).log;
            |log| == 4 && log[2] == Sent(0, Notice(false)) && log[3] == Sent(0, Notice(true)) && ToldTwice(log, 2, 3)
  {
    var run := [Write(0), Sync(0), Assign(0, [1])];
    var bought := LeadBuysAfter(Empty(map[]), [], 1);
    assert [] + [Write(0)] + [Sync(0)] + [Assign(0, [1])] == run;
    ToldOnceAndAgain(bought);
    TwoMore(SEEDED, Empty(map[]), run, Drag(0, VALIDATED, 0, 0, LOSING), Deliver(0, 0, GOOD));
    assert run + [Drag(0, VALIDATED, 0, 0, LOSING)] + [Deliver(0, 0, GOOD)] == TOLD_TWICE;
  }

  lemma TwoMore(board: Table, s: State, run: seq<Action>, a: Action, b: Action)
    ensures Exec(board, s, run + [a] + [b]) == Do(board, Do(board, Exec(board, s, run), a), b)
  {
    OneMore(board, s, run, a);
    OneMore(board, s, run + [a], b);
  }

  lemma ToldOnceAndAgain(s: State)
    requires s.cards == map[0 := Arrival(1)] && s.catalogue == map[] && |s.convs| == 1 && !s.convs[0].noticed
    requires |s.log| == 1
    ensures var log := Do(SEEDED, Do(SEEDED, s, Drag(0, VALIDATED, 0, 0, LOSING)), Deliver(0, 0, GOOD)).log;
            |log| == 4 && log[2] == Sent(0, Notice(false)) && log[3] == Sent(0, Notice(true))
  {
    var lost, move := NoticeIsLost(s);
    BlockedTells(lost, GOOD);
    DeliverIsDelivery(SEEDED, lost, 0, 0, GOOD);
    FourHappenings(s.log, Moved(0, move), Sent(0, Notice(false)), Sent(0, Notice(true)));
  }

  lemma FourHappenings(log: seq<Happening>, a: Happening, b: Happening, c: Happening)
    requires |log| == 1
    ensures var more := log + [a] + [b] + [c]; |more| == 4 && more[2] == b && more[3] == c
  {
  }

  lemma ConvsAfterDrag(s: State, conv: ConvId)
    ensures var moved := MovedCard(SEEDED, s, conv, VALIDATED, Operator(0)).0;
            |moved.convs| == |s.convs| && forall c :: 0 <= c < |s.convs| ==> moved.convs[c].noticed == s.convs[c].noticed
  {
  }

  lemma NoticeIsLost(s: State) returns (lost: State, move: Move)
    requires s.cards == map[0 := Arrival(1)] && s.catalogue == map[] && |s.convs| == 1 && !s.convs[0].noticed
    ensures lost == Do(SEEDED, s, Drag(0, VALIDATED, 0, 0, LOSING))
    ensures AtValidated(SEEDED, lost, 0) && lost.cards[0].services == [1] && lost.catalogue == map[]
    ensures |lost.convs| == 1 && !lost.convs[0].noticed
    ensures lost.log == s.log + [Moved(0, move)] + [Sent(0, Notice(false))]
  {
    SeededStages();
    var moved := MovedCard(SEEDED, s, 0, VALIDATED, Operator(0)).0;
    DragValidates(s, 0);
    DragIsMoveAndDelivery(SEEDED, s, 0, VALIDATED, 0, LOSING);
    ConvsAfterDrag(s, 0);
    BlockedTells(moved, LOSING);
    lost := DeliveredTo(SEEDED, moved, 0, 0, LOSING).0;
    assert lost == moved.(log := moved.log + [Sent(0, Notice(false))]);
    move := Move(Some(0), VALIDATED, Operator(0));
  }
}
