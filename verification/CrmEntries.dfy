/**
 * The entries that deliveries issue: seats of an event never exceed its capacity in any
 * sequential run, and the entry of a card never changes once it exists.
 */
module CrmEntries {
  import opened Wrappers
  import opened Board
  import opened CardFlags
  import opened Sequences
  import opened Crm
  import opened CrmRuns
  import opened CrmDelivery
  import Delivery

  // ---------------------------------------------------------------- the invariant

  /** Ids of events are never reused, and entries only name events that were created. */
  predicate EventsOk(s: State) {
    && (forall i :: 0 <= i < |s.events| ==> s.events[i].id < s.nextEvent)
    && DistinctIds(s.events)
    && (forall conv <- s.cards :: BoundBelow(s.cards[conv], s.nextEvent))
  }

  predicate BoundBelow(card: Card, next: EventId) {
    card.entry.Some? && card.entry.value.event.Some? ==> card.entry.value.event.value < next
  }

  predicate WithinRoom(s: State, event: Event) {
    event.capacity.Some? ==> |Seats(s, event.id)| <= event.capacity.value
  }

  predicate SeatsOk(s: State) {
    EventsOk(s) && forall i :: 0 <= i < |s.events| ==> WithinRoom(s, s.events[i])
  }

  predicate TokensOk(s: State) {
    && (forall conv <- s.cards :: s.cards[conv].entry.Some? ==> s.cards[conv].entry.value.token < s.nextToken)
    && (forall a <- s.cards, b <- s.cards :: a != b && s.cards[a].entry.Some? && s.cards[b].entry.Some? ==>
          s.cards[a].entry.value.token != s.cards[b].entry.value.token)
  }

  /** Entries in order: seats within capacity, tokens apart. */
  predicate EntriesOk(s: State) {
    SeatsOk(s) && TokensOk(s)
  }

  /** No entry is new; some may be gone with their cards. */
  predicate NoNewEntries(s: State, t: State) {
    && t.events == s.events && t.nextEvent == s.nextEvent && t.nextToken >= s.nextToken
    && forall conv <- t.cards :: t.cards[conv].entry.None? || (conv in s.cards && t.cards[conv].entry == s.cards[conv].entry)
  }

  lemma NoNewEntriesKeepSeats(s: State, t: State)
    requires EntriesOk(s) && NoNewEntries(s, t)
    ensures EntriesOk(t)
  {
    forall i | 0 <= i < |t.events| ensures WithinRoom(t, t.events[i]) {
      assert WithinRoom(s, s.events[i]);
      assert Seats(t, t.events[i].id) <= Seats(s, t.events[i].id);
      SubsetSize(Seats(t, t.events[i].id), Seats(s, t.events[i].id));
    }
    forall conv <- t.cards ensures BoundBelow(t.cards[conv], t.nextEvent) {
      assert t.cards[conv].entry.Some? ==> BoundBelow(s.cards[conv], s.nextEvent);
    }
  }

  /** The gate a new entry went through. */
  predicate Gated(s: State, conv: ConvId, event: Option<Event>)
    requires conv in s.cards
  {
    s.cards[conv].entry.Some? || event.None? || (event.value in s.events && HasCapacity(s, event.value))
  }

  lemma IssuingKeepsSeats(s: State, conv: ConvId, event: Option<Event>)
    requires EntriesOk(s) && conv in s.cards && Gated(s, conv, event)
    ensures EntriesOk(Issued(s, conv, event))
  {
    var t := Issued(s, conv, event);
    if s.cards[conv].entry.None? {
      forall i | 0 <= i < |t.events| ensures WithinRoom(t, t.events[i]) {
        assert WithinRoom(s, s.events[i]);
        SeatsAfterIssue(s, conv, event, s.events[i]);
      }
      forall c <- t.cards ensures BoundBelow(t.cards[c], t.nextEvent) {
        assert BoundBelow(s.cards[c], s.nextEvent);
        if event.Some? { var i :| 0 <= i < |s.events| && s.events[i] == event.value; }
      }
    }
  }

  lemma SeatsAfterIssue(s: State, conv: ConvId, event: Option<Event>, row: Event)
    requires EventsOk(s) && conv in s.cards && s.cards[conv].entry.None? && Gated(s, conv, event)
    requires row in s.events && WithinRoom(s, row)
    ensures WithinRoom(Issued(s, conv, event), row)
  {
    var t := Issued(s, conv, event);
    if event.Some? && event.value.id == row.id {
      var i :| 0 <= i < |s.events| && s.events[i] == row;
      var j :| 0 <= j < |s.events| && s.events[j] == event.value;
      assert i == j;
      assert Seats(t, row.id) == Seats(s, row.id) + {conv};
    } else {
      assert Seats(t, row.id) == Seats(s, row.id);
    }
  }

  // ---------------------------------------------------------------- deliveries

  lemma PlanIsGated(s: State, conv: ConvId, now: int)
    requires conv in s.cards
    ensures var planned := PlanFor(s, s.cards[conv], now);
            planned.plan.blockedBy.None? ==> Gated(s, conv, planned.event)
  {
    var card := s.cards[conv];
    var services := Accepted(s, card.services);
    if |services| == 1 && GivesEntry(services[0]) && card.entry.None? {
      var event := CurrentFor(s.events, OnlyService(s, card.services), now);
    }
  }

  /** Entries untouched. */
  predicate SameEntries(s: State, t: State) {
    && t.events == s.events && t.nextEvent == s.nextEvent && t.nextToken == s.nextToken
    && t.cards.Keys == s.cards.Keys
    && forall conv <- s.cards :: t.cards[conv].entry == s.cards[conv].entry
  }

  lemma MovingKeepsEntries(board: Table, s: State, conv: ConvId, to: StageId, mover: Mover)
    ensures SameEntries(s, MovedCard(board, s, conv, to, mover).0)
  {
  }

  lemma ConcludingKeepsEntries(board: Table, s: State, conv: ConvId, warnings: seq<Flag>)
    requires conv in s.cards
    ensures SameEntries(s, Concluded(board, s, conv, warnings).0)
  {
    var won := StageByStatus(board, Human, Won);
    if won.Some? {
      MovingKeepsEntries(board, s, conv, won.value, System);
    }
  }

  lemma AdvancingKeepsEntries(board: Table, s: State, conv: ConvId, handed: StageId, warnings: seq<Flag>)
    requires conv in s.cards && handed < |board|
    ensures SameEntries(s, Advanced(board, s, conv, handed, warnings).0)
  {
    var (moved, result) := MovedCard(board, s, conv, handed, System);
    MovingKeepsEntries(board, s, conv, handed, System);
    if result == MoveOk {
      var flagged := WithFlags(moved, conv, DeliveryReplaced(moved.cards[conv].flags, warnings));
      assert SameEntries(moved, flagged);
      ConcludingKeepsEntries(board, flagged, conv, warnings);
    }
  }

  lemma HoldingKeepsEntries(s: State, conv: ConvId, flag: Flag)
    requires conv in s.cards
    ensures SameEntries(s, HeldBy(s, conv, flag).0)
  {
    assert SameEntries(s, WithFlags(s, conv, DeliveryReplaced(s.cards[conv].flags, [flag])));
  }

  lemma SendingIssuesAtMost(s: State, conv: ConvId, planned: Planned, world: World)
    requires conv in s.cards
    ensures var sent := SentMain(s, conv, planned, world);
            SameEntries(s, sent) || SameEntries(Issued(s, conv, planned.event), sent)
  {
  }

  lemma OutsideIssuesAtMost(board: Table, s: State, conv: ConvId, handed: StageId, planned: Planned, world: World)
    requires conv in s.cards && handed < |board| && world.main == OutsideWindow
    ensures var t := Shipped(board, s, conv, handed, planned, world).0;
            t == s || SameEntries(SentMain(s, conv, planned, world), t)
  {
    var sent := SentMain(s, conv, planned, world);
    if !planned.plan.needsEntry || planned.event.None? || world.template == OutsideWindow {
      HoldingKeepsEntries(sent, conv, DeliveryPending);
    } else if world.template == SendResult.Delivered {
      var told := Logged(sent, Sent(conv, EntryTemplate(TokenOf(sent, conv))));
      AdvancingKeepsEntries(board, told, conv, handed, planned.plan.warnings);
      assert SameEntries(told, Shipped(board, s, conv, handed, planned, world).0);
    }
  }

  /** A shipment issues at most the entry of its card, for the planned event. */
  lemma ShippingIssuesAtMost(board: Table, s: State, conv: ConvId, handed: StageId, planned: Planned, world: World)
    requires conv in s.cards && handed < |board|
    ensures var t := Shipped(board, s, conv, handed, planned, world).0;
            SameEntries(s, t) || SameEntries(Issued(s, conv, planned.event), t)
  {
    var sent := SentMain(s, conv, planned, world);
    SendingIssuesAtMost(s, conv, planned, world);
    if world.main == SendResult.Delivered {
      AdvancingKeepsEntries(board, sent, conv, handed, planned.plan.warnings);
    } else if world.main == OutsideWindow {
      OutsideIssuesAtMost(board, s, conv, handed, planned, world);
    }
  }

  /** What a delivery or the button may do to the entries. */
  predicate IssuesAtMost(s: State, t: State, conv: ConvId, event: Option<Event>) {
    SameEntries(s, t) || (conv in s.cards && Gated(s, conv, event) && SameEntries(Issued(s, conv, event), t))
  }

  lemma BlockingKeepsEntries(s: State, conv: ConvId, result: NoticeResult, flag: Flag)
    requires conv in s.cards
    ensures SameEntries(s, Noticed(s, conv, result))
    ensures SameEntries(s, HeldBy(Noticed(s, conv, result), conv, flag).0)
  {
    HoldingKeepsEntries(Noticed(s, conv, result), conv, flag);
  }

  lemma DeliveryIssuesAtMost(board: Table, s: State, conv: ConvId, now: int, world: World)
    ensures conv !in s.cards ==> DeliveredTo(board, s, conv, now, world).0 == s
    ensures conv in s.cards ==>
              IssuesAtMost(s, DeliveredTo(board, s, conv, now, world).0, conv, PlanFor(s, s.cards[conv], now).event)
  {
    var handed := GetStage(board, Human, Handed);
    if conv in s.cards && handed.Some? {
      var planned := PlanFor(s, s.cards[conv], now);
      if planned.plan.blockedBy.Some? {
        BlockingKeepsEntries(s, conv, world.notice, planned.plan.blockedBy.value);
      } else {
        PlanIsGated(s, conv, now);
        ShippingIssuesAtMost(board, s, conv, handed.value, planned, world);
      }
    }
  }

  lemma ButtonIssuesAtMost(board: Table, s: State, conv: ConvId, handed: StageId, user: UserId, planned: Planned, world: World)
    requires conv in s.cards
    ensures var t := ButtonPressed(board, s, conv, handed, user, planned, world).0;
            SameEntries(s, t) || SameEntries(Issued(s, conv, planned.event), t)
  {
    SendingIssuesAtMost(s, conv, planned, world);
    MovingKeepsEntries(board, SentMain(s, conv, planned, world), conv, handed, Operator(user));
  }

  lemma PressIssuesAtMost(board: Table, s: State, conv: ConvId, user: UserId, now: int, world: World)
    ensures conv !in s.cards ==> EntryGenerated(board, s, conv, user, now, world).0 == s
    ensures conv in s.cards ==>
              IssuesAtMost(s, EntryGenerated(board, s, conv, user, now, world).0, conv, PlanFor(s, s.cards[conv], now).event)
  {
    var handed := GetStage(board, Human, Handed);
    if conv in s.cards && handed.Some? {
      PlanIsGated(s, conv, now);
      ButtonIssuesAtMost(board, s, conv, handed.value, user, PlanFor(s, s.cards[conv], now), world);
    }
  }

  lemma IssuingAtMostKeepsSeats(s: State, t: State, conv: ConvId, event: Option<Event>)
    requires EntriesOk(s) && IssuesAtMost(s, t, conv, event)
    ensures EntriesOk(t)
  {
    if SameEntries(s, t) {
      NoNewEntriesKeepSeats(s, t);
    } else {
      IssuingKeepsSeats(s, conv, event);
      NoNewEntriesKeepSeats(Issued(s, conv, event), t);
    }
  }

  lemma DeliveryKeepsSeats(board: Table, s: State, conv: ConvId, now: int, world: World)
    requires EntriesOk(s)
    ensures EntriesOk(DeliveredTo(board, s, conv, now, world).0)
  {
    DeliveryIssuesAtMost(board, s, conv, now, world);
    if conv in s.cards {
      IssuingAtMostKeepsSeats(s, DeliveredTo(board, s, conv, now, world).0, conv, PlanFor(s, s.cards[conv], now).event);
    }
  }

  lemma {:induction false} RetriesKeepSeats(board: Table, s: State, waiting: seq<ConvId>, now: int, worlds: ConvId -> World)
    requires EntriesOk(s)
    ensures EntriesOk(RetriedAll(board, s, waiting, now, worlds))
    decreases |waiting|
  {
    if waiting != [] {
      var conv := waiting[|waiting| - 1];
      RetriesKeepSeats(board, s, waiting[..|waiting| - 1], now, worlds);
      DeliveryKeepsSeats(board, RetriedAll(board, s, waiting[..|waiting| - 1], now, worlds), conv, now, worlds(conv));
    }
  }

  // ---------------------------------------------------------------- the agenda

  predicate DistinctIds(events: seq<Event>) {
    forall i, j :: 0 <= i < j < |events| ==> events[i].id != events[j].id
  }

  lemma {:induction false} WithoutIsSubset(events: seq<Event>, id: EventId)
    ensures forall e :: e in EventsWithout(events, id) <==> e in events && e.id != id
  {
    if events != [] {
      WithoutIsSubset(events[1..], id);
      assert events == [events[0]] + events[1..];
    }
  }

  lemma HeadIdIsAlone(events: seq<Event>, e: Event)
    requires DistinctIds(events) && events != [] && e in events[1..]
    ensures e.id != events[0].id
  {
    var m :| 0 <= m < |events[1..]| && events[1..][m] == e;
    assert events[m + 1] == e;
  }

  lemma {:induction false} WithoutKeepsIds(events: seq<Event>, id: EventId)
    requires DistinctIds(events)
    ensures DistinctIds(EventsWithout(events, id))
  {
    if events != [] {
      var rest := EventsWithout(events[1..], id);
      assert DistinctIds(events[1..]) by {
        assert forall i :: 0 <= i < |events[1..]| ==> events[1..][i] == events[i + 1];
      }
      WithoutKeepsIds(events[1..], id);
      WithoutIsSubset(events[1..], id);
      forall k | 0 <= k < |rest| ensures rest[k].id != events[0].id {
        assert rest[k] in rest;
        HeadIdIsAlone(events, rest[k]);
      }
    }
  }

  lemma DropKeepsSeats(s: State, id: EventId)
    requires EntriesOk(s)
    ensures EntriesOk(EventDropped(s, id))
  {
    var t := EventDropped(s, id);
    WithoutIsSubset(s.events, id);
    WithoutKeepsIds(s.events, id);
    forall i | 0 <= i < |t.events| ensures t.events[i].id < t.nextEvent && WithinRoom(t, t.events[i]) {
      assert t.events[i] in t.events;
      var j :| 0 <= j < |s.events| && s.events[j] == t.events[i];
      assert WithinRoom(s, s.events[j]);
      assert Seats(t, t.events[i].id) <= Seats(s, t.events[i].id);
      SubsetSize(Seats(t, t.events[i].id), Seats(s, t.events[i].id));
    }
    forall conv <- t.cards ensures BoundBelow(t.cards[conv], t.nextEvent) {
      assert BoundBelow(s.cards[conv], s.nextEvent);
    }
  }

  lemma AddKeepsSeats(s: State, event: Event)
    requires EntriesOk(s)
    ensures EntriesOk(EventAdded(s, event))
  {
    var t := EventAdded(s, event);
    forall i | 0 <= i < |t.events| ensures WithinRoom(t, t.events[i]) {
      assert Seats(t, t.events[i].id) == Seats(s, t.events[i].id);
      if i < |s.events| {
        assert WithinRoom(s, s.events[i]);
      } else {
        forall conv <- s.cards ensures !LiveFor(s.cards[conv], s.nextEvent) {
          assert BoundBelow(s.cards[conv], s.nextEvent);
        }
        assert Seats(s, s.nextEvent) == {};
      }
    }
    forall conv <- t.cards ensures BoundBelow(t.cards[conv], t.nextEvent) {
      assert BoundBelow(s.cards[conv], s.nextEvent);
    }
  }

  lemma EditKeepsSeats(s: State, event: Event)
    requires EntriesOk(s) && WithinRoom(s, event)
    ensures EntriesOk(EventEdited(s, event))
  {
    var t := EventEdited(s, event);
    forall i | 0 <= i < |t.events| ensures WithinRoom(t, t.events[i]) {
      assert WithinRoom(s, s.events[i]);
      assert Seats(t, t.events[i].id) == Seats(s, t.events[i].id);
    }
  }

  lemma RevokeKeepsSeats(s: State, conv: ConvId)
    requires EntriesOk(s)
    ensures EntriesOk(Revoked(s, conv))
  {
    var t := Revoked(s, conv);
    forall i | 0 <= i < |t.events| ensures WithinRoom(t, t.events[i]) {
      assert WithinRoom(s, s.events[i]);
      assert Seats(t, t.events[i].id) <= Seats(s, t.events[i].id);
      SubsetSize(Seats(t, t.events[i].id), Seats(s, t.events[i].id));
    }
    forall c <- t.cards ensures BoundBelow(t.cards[c], t.nextEvent) {
      assert BoundBelow(s.cards[c], s.nextEvent);
    }
  }

  // ---------------------------------------------------------------- over runs

  /** An edited event keeps room for the entries it already has. */
  predicate KeepsRoom(s: State, a: Action) {
    a.EditEvent? ==> WithinRoom(s, a.event)
  }

  predicate AlwaysKeepsRoom(board: Table, s: State, run: seq<Action>)
    decreases |run|
  {
    run == [] || (AlwaysKeepsRoom(board, s, run[..|run| - 1])
                  && KeepsRoom(Exec(board, s, run[..|run| - 1]), run[|run| - 1]))
  }

  lemma ConversationIssuesNothing(s: State, a: Action)
    ensures NoNewEntries(s, OnConversation(s, a))
  {
  }

  lemma SyncIssuesNothing(board: Table, s: State, conv: ConvId)
    ensures NoNewEntries(s, Synced(board, s, conv))
  {
  }

  lemma CreateIssuesNothing(board: Table, s: State, phone: Phone, fullName: Option<string>, user: UserId)
    ensures NoNewEntries(s, Created(board, s, phone, fullName, user))
  {
  }

  lemma CardKeepsSeats(s: State, a: Action)
    requires EntriesOk(s)
    ensures EntriesOk(OnCard(s, a))
  {
    if a.Revoke? {
      RevokeKeepsSeats(s, a.conv);
    } else {
      NoNewEntriesKeepSeats(s, OnCard(s, a));
    }
  }

  lemma AgendaKeepsSeats(s: State, a: Action)
    requires EntriesOk(s) && KeepsRoom(s, a)
    ensures EntriesOk(OnAgenda(s, a))
  {
    match a
    case AddEvent(event) => AddKeepsSeats(s, event);
    case EditEvent(event) => EditKeepsSeats(s, event);
    case DropEvent(id) => DropKeepsSeats(s, id);
    case _ => NoNewEntriesKeepSeats(s, OnAgenda(s, a));
  }

  lemma DragKeepsSeats(board: Table, s: State, conv: ConvId, to: StageId, user: UserId, now: int, world: World)
    requires EntriesOk(s)
    ensures EntriesOk(Dragged(board, s, conv, to, user, now, world))
  {
    var moved := MovedCard(board, s, conv, to, Operator(user)).0;
    MovingKeepsEntries(board, s, conv, to, Operator(user));
    NoNewEntriesKeepSeats(s, moved);
    DeliveryKeepsSeats(board, moved, conv, now, world);
  }

  lemma PressKeepsSeats(board: Table, s: State, conv: ConvId, user: UserId, now: int, world: World)
    requires EntriesOk(s)
    ensures var t := EntryGenerated(board, s, conv, user, now, world).0; EntriesOk(t)
  {
    PressIssuesAtMost(board, s, conv, user, now, world);
    if conv in s.cards {
      IssuingAtMostKeepsSeats(s, EntryGenerated(board, s, conv, user, now, world).0, conv, PlanFor(s, s.cards[conv], now).event);
    }
  }

  lemma SyncKeepsSeats(board: Table, s: State, conv: ConvId)
    requires EntriesOk(s)
    ensures EntriesOk(Synced(board, s, conv))
  {
    SyncIssuesNothing(board, s, conv);
    NoNewEntriesKeepSeats(s, Synced(board, s, conv));
  }

  lemma CreateKeepsSeats(board: Table, s: State, phone: Phone, fullName: Option<string>, user: UserId)
    requires EntriesOk(s)
    ensures EntriesOk(Created(board, s, phone, fullName, user))
  {
    CreateIssuesNothing(board, s, phone, fullName, user);
    NoNewEntriesKeepSeats(s, Created(board, s, phone, fullName, user));
  }

  lemma DeleteKeepsSeats(s: State, conv: ConvId)
    requires EntriesOk(s)
    ensures EntriesOk(Deleted(s, conv))
  {
    NoNewEntriesKeepSeats(s, Deleted(s, conv));
  }

  lemma ValidationKeepsEntries(board: Table, s: State, conv: ConvId)
    ensures SameEntries(s, Validated(board, s, conv).0)
  {
    var target := GetStage(board, Human, PaymentValidated);
    if AwaitsPayment(board, s, conv) && target.Some? {
      MovingKeepsEntries(board, WithFlags(s, conv, Approval(s.cards[conv].flags)), conv, target.value, System);
    }
  }

  lemma ApproveKeepsSeats(board: Table, s: State, conv: ConvId, now: int, world: World)
    requires EntriesOk(s)
    ensures EntriesOk(Approved(board, s, conv, now, world))
  {
    ValidationKeepsEntries(board, s, conv);
    NoNewEntriesKeepSeats(s, Validated(board, s, conv).0);
    DeliveryKeepsSeats(board, Validated(board, s, conv).0, conv, now, world);
  }

  lemma BoardKeepsSeats(board: Table, s: State, a: Action)
    requires EntriesOk(s)
    ensures EntriesOk(OnBoard(board, s, a))
  {
    match a
    case Sync(conv) => SyncKeepsSeats(board, s, conv);
    case Create(phone, fullName, user) => CreateKeepsSeats(board, s, phone, fullName, user);
    case Delete(conv) => DeleteKeepsSeats(s, conv);
    case Drag(conv, to, user, now, world) => DragKeepsSeats(board, s, conv, to, user, now, world);
    case Deliver(conv, now, world) => DeliveryKeepsSeats(board, s, conv, now, world);
    case Retry(conv, now, world) => DeliveryKeepsSeats(board, s, conv, now, world);
    case RetryForEvent(waiting, now, worlds) => RetriesKeepSeats(board, s, waiting, now, worlds);
    case Approve(conv, now, world) => ApproveKeepsSeats(board, s, conv, now, world);
    case Press(conv, user, now, world) => PressKeepsSeats(board, s, conv, user, now, world);
    case _ =>
  }

  lemma StepKeepsSeats(board: Table, s: State, a: Action)
    requires EntriesOk(s) && KeepsRoom(s, a)
    ensures EntriesOk(Do(board, s, a))
  {
    if OfConversation(a) {
      ConversationIssuesNothing(s, a);
      NoNewEntriesKeepSeats(s, OnConversation(s, a));
    } else if OfCard(a) {
      CardKeepsSeats(s, a);
    } else if OfAgenda(a) {
      AgendaKeepsSeats(s, a);
    } else {
      BoardKeepsSeats(board, s, a);
    }
  }

  /**
   * In any run of deliveries, failed sends, retries, revocations and edits that keep room for the
   * entries already issued, the live entries of an event never exceed its capacity, and no two
   * cards share a token.
   */
  lemma {:induction false} RunsRespectCapacity(board: Table, catalogue: map<ServiceId, Service>, run: seq<Action>)
    requires AlwaysKeepsRoom(board, Empty(catalogue), run)
    ensures EntriesOk(Exec(board, Empty(catalogue), run))
    decreases |run|
  {
    if run != [] {
      RunsRespectCapacity(board, catalogue, run[..|run| - 1]);
      StepKeepsSeats(board, Exec(board, Empty(catalogue), run[..|run| - 1]), run[|run| - 1]);
    }
  }

  // ---------------------------------------------------------------- the entry of a card is stable

  /** Same token and same copy of the event; it can only be revoked or lose its event. */
  predicate SameEntry(before: Entry, after: Entry) {
    && after.token == before.token && after.snapshot == before.snapshot
    && (before.revoked ==> after.revoked)
    && (after.event == before.event || after.event.None?)
  }

  predicate EntriesStay(s: State, t: State) {
    forall conv <- s.cards :: conv in t.cards && s.cards[conv].entry.Some? ==>
      t.cards[conv].entry.Some? && SameEntry(s.cards[conv].entry.value, t.cards[conv].entry.value)
  }

  lemma {:induction false} RetriesKeepEntries(board: Table, s: State, waiting: seq<ConvId>, now: int, worlds: ConvId -> World)
    ensures RetriedAll(board, s, waiting, now, worlds).cards.Keys == s.cards.Keys
    ensures EntriesStay(s, RetriedAll(board, s, waiting, now, worlds))
    decreases |waiting|
  {
    if waiting != [] {
      var conv := waiting[|waiting| - 1];
      var before := RetriedAll(board, s, waiting[..|waiting| - 1], now, worlds);
      RetriesKeepEntries(board, s, waiting[..|waiting| - 1], now, worlds);
      DeliveryIssuesAtMost(board, before, conv, now, worlds(conv));
    }
  }

  lemma IssuingAtMostKeepsEntries(s: State, t: State, conv: ConvId, event: Option<Event>)
    requires IssuesAtMost(s, t, conv, event)
    ensures t.cards.Keys == s.cards.Keys && EntriesStay(s, t)
  {
  }

  lemma DeliveryKeepsEntries(board: Table, s: State, conv: ConvId, now: int, world: World)
    ensures var t := DeliveredTo(board, s, conv, now, world).0;
            t.cards.Keys == s.cards.Keys && EntriesStay(s, t)
  {
    DeliveryIssuesAtMost(board, s, conv, now, world);
    if conv in s.cards {
      IssuingAtMostKeepsEntries(s, DeliveredTo(board, s, conv, now, world).0, conv, PlanFor(s, s.cards[conv], now).event);
    }
  }

  lemma DragKeepsEntries(board: Table, s: State, conv: ConvId, to: StageId, user: UserId, now: int, world: World)
    ensures EntriesStay(s, Dragged(board, s, conv, to, user, now, world))
  {
    MovingKeepsEntries(board, s, conv, to, Operator(user));
    DeliveryKeepsEntries(board, MovedCard(board, s, conv, to, Operator(user)).0, conv, now, world);
  }

  lemma ApproveKeepsEntries(board: Table, s: State, conv: ConvId, now: int, world: World)
    ensures EntriesStay(s, Approved(board, s, conv, now, world))
  {
    ValidationKeepsEntries(board, s, conv);
    DeliveryKeepsEntries(board, Validated(board, s, conv).0, conv, now, world);
  }

  lemma PressKeepsEntries(board: Table, s: State, conv: ConvId, user: UserId, now: int, world: World)
    ensures EntriesStay(s, EntryGenerated(board, s, conv, user, now, world).0)
  {
    PressIssuesAtMost(board, s, conv, user, now, world);
    if conv in s.cards {
      IssuingAtMostKeepsEntries(s, EntryGenerated(board, s, conv, user, now, world).0, conv, PlanFor(s, s.cards[conv], now).event);
    }
  }

  lemma ConversationKeepsEntries(s: State, a: Action)
    ensures EntriesStay(s, OnConversation(s, a))
  {
  }

  lemma CardKeepsEntries(s: State, a: Action)
    ensures EntriesStay(s, OnCard(s, a))
  {
  }

  lemma AgendaKeepsEntries(s: State, a: Action)
    ensures EntriesStay(s, OnAgenda(s, a))
  {
  }

  lemma SyncKeepsEntries(board: Table, s: State, conv: ConvId)
    ensures EntriesStay(s, Synced(board, s, conv))
  {
  }

  lemma CreateKeepsEntries(board: Table, s: State, phone: Phone, fullName: Option<string>, user: UserId)
    ensures EntriesStay(s, Created(board, s, phone, fullName, user))
  {
  }

  lemma DeleteKeepsEntries(s: State, conv: ConvId)
    ensures EntriesStay(s, Deleted(s, conv))
  {
  }

  lemma RetryKeepsEntries(board: Table, s: State, conv: ConvId, now: int, world: World)
    ensures EntriesStay(s, Retried(board, s, conv, now, world))
  {
    DeliveryKeepsEntries(board, s, conv, now, world);
  }

  lemma MovesKeepEntries(board: Table, s: State, a: Action)
    requires a.Sync? || a.Delete? || a.Create? || a.Drag?
    ensures EntriesStay(s, OnBoard(board, s, a))
  {
    match a
    case Sync(conv) => SyncKeepsEntries(board, s, conv);
    case Delete(conv) => DeleteKeepsEntries(s, conv);
    case Create(phone, fullName, user) => CreateKeepsEntries(board, s, phone, fullName, user);
    case Drag(conv, to, user, now, world) => DragKeepsEntries(board, s, conv, to, user, now, world);
  }

  lemma DeliveriesKeepEntries(board: Table, s: State, a: Action)
    requires a.Deliver? || a.Retry? || a.RetryForEvent? || a.Approve? || a.Press?
    ensures EntriesStay(s, OnBoard(board, s, a))
  {
    match a
    case Deliver(conv, now, world) => DeliveryKeepsEntries(board, s, conv, now, world);
    case Retry(conv, now, world) => RetryKeepsEntries(board, s, conv, now, world);
    case RetryForEvent(waiting, now, worlds) => RetriesKeepEntries(board, s, waiting, now, worlds);
    case Approve(conv, now, world) => ApproveKeepsEntries(board, s, conv, now, world);
    case Press(conv, user, now, world) => PressKeepsEntries(board, s, conv, user, now, world);
  }

  lemma BoardKeepsEntries(board: Table, s: State, a: Action)
    ensures !Environment(a) ==> EntriesStay(s, OnBoard(board, s, a))
  {
    if a.Sync? || a.Delete? || a.Create? || a.Drag? {
      MovesKeepEntries(board, s, a);
    } else if !Environment(a) {
      DeliveriesKeepEntries(board, s, a);
    }
  }

  /** Once issued, the entry of a card is the same through every step: a resend never invalidates the QR the lead has. */
  lemma StepKeepsEntry(board: Table, s: State, a: Action)
    ensures EntriesStay(s, Do(board, s, a))
  {
    ConversationKeepsEntries(s, a);
    CardKeepsEntries(s, a);
    AgendaKeepsEntries(s, a);
    BoardKeepsEntries(board, s, a);
  }

  /** The card is on the board at every point of the run. */
  predicate StaysOnBoard(board: Table, s: State, run: seq<Action>, conv: ConvId)
    decreases |run|
  {
    conv in Exec(board, s, run).cards && (run != [] ==> StaysOnBoard(board, s, run[..|run| - 1], conv))
  }

  lemma {:induction false} RunsKeepEntry(board: Table, s: State, run: seq<Action>, conv: ConvId)
    requires StaysOnBoard(board, s, run, conv)
    ensures conv in s.cards
    ensures s.cards[conv].entry.Some? ==>
              && Exec(board, s, run).cards[conv].entry.Some?
              && SameEntry(s.cards[conv].entry.value, Exec(board, s, run).cards[conv].entry.value)
    decreases |run|
  {
    if run != [] {
      RunsKeepEntry(board, s, run[..|run| - 1], conv);
      StepKeepsEntry(board, Exec(board, s, run[..|run| - 1]), run[|run| - 1]);
    }
  }

  // ---------------------------------------------------------------- what is handed to the lead

  /** A card that has its entry is never held by the plan: the entry ships again. */
  lemma ExistingEntryShips(s: State, card: Card, now: int)
    requires OneEntryService(s, card) && card.entry.Some?
    ensures PlanFor(s, card, now).plan.blockedBy.None? && PlanFor(s, card, now).plan.needsEntry
  {
    var service := Accepted(s, card.services)[0];
    var event := EventById(s.events, card.entry.value.event);
    Delivery.DecidesExactly(service.modality, LinksAt(service.links, event), InfoOf(event, card.entry.value.snapshot));
  }

  /** A planned entry whose message is accepted: the image of the card's entry goes out and the card moves. */
  lemma EntryGoesOut(board: Table, s: State, conv: ConvId, planned: Planned, world: World)
    requires AtValidated(board, s, conv) && planned.plan.needsEntry
    requires world.main == SendResult.Delivered && board[GetStage(board, Human, Handed).value].status == Open
    ensures var (t, outcome) := Shipped(board, s, conv, GetStage(board, Human, Handed).value, planned, world);
            var issued := Issued(s, conv, planned.event);
            && outcome.Done? && conv in t.cards
            && |t.log| > |s.log| && t.log[|s.log|] == Sent(conv, EntryImage(TokenOf(issued, conv)))
            && t.cards[conv].entry == issued.cards[conv].entry
  {
    var sent := SentMain(s, conv, planned, world);
    var handed := GetStage(board, Human, Handed).value;
    AdvancedEffect(board, sent, conv, s.cards[conv].stage, handed, planned.plan.warnings);
    MoveEffect(board, sent, conv, handed, System);
    AdvancingKeepsEntries(board, sent, conv, handed, planned.plan.warnings);
  }

  /** A revoked entry skips the gate like any other: the message goes out with a QR the door rejects. */
  lemma RevokedEntryIsResent(board: Table, s: State, conv: ConvId, now: int, world: World)
    requires AtValidated(board, s, conv) && OneEntryService(s, s.cards[conv])
    requires s.cards[conv].entry.Some? && s.cards[conv].entry.value.revoked
    requires world.main == SendResult.Delivered && board[GetStage(board, Human, Handed).value].status == Open
    ensures var (t, outcome) := DeliveredTo(board, s, conv, now, world);
            && outcome.Done? && conv in t.cards
            && |t.log| > |s.log| && t.log[|s.log|] == Sent(conv, EntryImage(s.cards[conv].entry.value.token))
            && t.cards[conv].entry == s.cards[conv].entry
  {
    ExistingEntryShips(s, s.cards[conv], now);
    EntryGoesOut(board, s, conv, PlanFor(s, s.cards[conv], now), world);
  }

  /** After a delivery the card's entry admits at the door exactly when it was not already revoked before. */
  lemma HandedEntryIsLiveExactly(board: Table, s: State, conv: ConvId, now: int, world: World)
    requires DeliveredTo(board, s, conv, now, world).1.Done? && OneEntryService(s, s.cards[conv])
    ensures var t := DeliveredTo(board, s, conv, now, world).0;
            && conv in t.cards && t.cards[conv].entry.Some?
            && (!t.cards[conv].entry.value.revoked <==> s.cards[conv].entry.None? || !s.cards[conv].entry.value.revoked)
  {
    DeliveryIssuesAtMost(board, s, conv, now, world);
    DoneMeansIssued(board, s, conv, now, world);
  }

  /** A service with an in-person part never plans a delivery without an entry. */
  lemma PlanNeedsEntry(s: State, card: Card, now: int)
    requires OneEntryService(s, card) && PlanFor(s, card, now).plan.blockedBy.None?
    ensures PlanFor(s, card, now).plan.needsEntry
  {
    var service := Accepted(s, card.services)[0];
    var event := if card.entry.Some? then EventById(s.events, card.entry.value.event)
                 else CurrentFor(s.events, OnlyService(s, card.services), now);
    var snapshot := if card.entry.Some? then card.entry.value.snapshot else None;
    Delivery.DecidesExactly(service.modality, LinksAt(service.links, event), InfoOf(event, snapshot));
  }

  lemma ShippedMeansIssued(board: Table, s: State, conv: ConvId, handed: StageId, planned: Planned, world: World)
    requires conv in s.cards && handed < |board| && planned.plan.needsEntry
    requires Shipped(board, s, conv, handed, planned, world).1.Done?
    ensures var t := Shipped(board, s, conv, handed, planned, world).0;
            conv in t.cards && t.cards[conv].entry.Some?
  {
    var sent := SentMain(s, conv, planned, world);
    if world.main == SendResult.Delivered {
      AdvancingKeepsEntries(board, sent, conv, handed, planned.plan.warnings);
    } else {
      AdvancingKeepsEntries(board, Logged(sent, Sent(conv, EntryTemplate(TokenOf(sent, conv)))), conv, handed, planned.plan.warnings);
    }
  }

  lemma DoneMeansIssued(board: Table, s: State, conv: ConvId, now: int, world: World)
    requires DeliveredTo(board, s, conv, now, world).1.Done? && OneEntryService(s, s.cards[conv])
    ensures var t := DeliveredTo(board, s, conv, now, world).0;
            conv in t.cards && t.cards[conv].entry.Some?
  {
    var planned := PlanFor(s, s.cards[conv], now);
    assert planned.plan.blockedBy.None?;
    PlanNeedsEntry(s, s.cards[conv], now);
    ShippedMeansIssued(board, s, conv, GetStage(board, Human, Handed).value, planned, world);
  }
}
