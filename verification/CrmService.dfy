/**
 * The services of the CRM as they run: the fields of the store rewritten step by step. Every
 * operation ends in the state its specification says, keeps the invariants of the board, and
 * states what that means for its caller.
 */
module CrmService {
  import opened Wrappers
  import opened Board
  import opened CardFlags
  import opened Crm
  import Delivery
  import Funnel
  import Deliveries = CrmDelivery
  import Entries = CrmEntries
  import Invariant = CrmInvariant
  import Laws = CrmLaws
  import Notices = CrmNotices
  import Outcomes = CrmOutcomes

  class Store {
    const board: Table
    var convs: seq<Conv>
    var cards: map<ConvId, Card>
    var catalogue: map<ServiceId, Service>
    var events: seq<Event>
    var contacts: map<Phone, Option<string>>
    var nextToken: nat
    var nextEvent: EventId
    var log: seq<Happening>

    ghost function Now(): State
      reads this
    {
      State(convs, cards, catalogue, events, contacts, nextToken, nextEvent, log)
    }

    /** The invariants of the board hold of what is stored. */
    ghost predicate Valid()
      reads this
    {
      Invariant.Holds(board, Now())
    }

    constructor (stages: Table, services: map<ServiceId, Service>)
      ensures Valid() && board == stages
      ensures Now() == State([], map[], services, [], map[], 0, 0, [])
    {
      board := stages;
      convs, cards, catalogue, events, contacts := [], map[], services, [], map[];
      nextToken, nextEvent, log := 0, 0, [];
    }

    method ApplyClosedState(conv: ConvId, status: Status)
      modifies this`convs
      ensures Now() == CloseAccordingTo(old(Now()), conv, status)
    {
      if conv < |convs| {
        convs := convs[conv := convs[conv].(closed := status != Open)];
      }
    }

    /** Append the move to the history, then point the card at the new stage. */
    method RecordMove(conv: ConvId, to: StageId, mover: Mover)
      requires conv in cards && to < |board|
      modifies this`cards, this`log, this`convs
      ensures Now() == Place(board, old(Now()), conv, to, mover)
    {
      var card := cards[conv];
      var move := Move(Some(card.stage), to, mover);
      card := card.(moves := card.moves + [move]);
      card := card.(stage := to);
      cards := cards[conv := card];
      log := log + [Moved(conv, move)];
      ApplyClosedState(conv, board[to].status);
    }

    method AddCard(conv: ConvId, to: StageId, mover: Mover)
      modifies this`cards, this`log
      ensures Now() == NewCard(old(Now()), conv, to, mover)
    {
      var move := Move(None, to, mover);
      cards := cards[conv := Card(to, [], [], [move], None)];
      log := log + [Moved(conv, move)];
    }

    /** Reconcile the card with the conversation's persisted state. */
    method Sync(conv: ConvId)
      requires Valid()
      modifies this`cards, this`log, this`convs
      ensures Valid()
      ensures Now() == Synced(board, old(Now()), conv)
      ensures Laws.HasTarget(board, old(Now()), conv) ==>
                conv in cards && Laws.StandsFor(board, cards[conv].stage, Laws.TargetOf(board, old(Now()), conv))
      ensures conv < |old(convs)| && Outcomes.WithTheTeam(old(convs)[conv]) && Outcomes.NotInPostsale(board, old(Now()), conv)
              && GetStage(board, Human, PaymentValidation).Some? && GetStage(board, Human, Intake).Some? ==>
                (AwaitsPayment(board, Now(), conv) <==> old(convs)[conv].reason == "payment_validation")
    {
      if conv < |convs| && Outcomes.WithTheTeam(convs[conv]) && Outcomes.NotInPostsale(board, Now(), conv)
         && GetStage(board, Human, PaymentValidation).Some? && GetStage(board, Human, Intake).Some? {
        Outcomes.PaymentHandoffsAwait(board, Now(), conv);
      }
      Invariant.SyncKeeps(board, Now(), conv);
      if Laws.HasTarget(board, Now(), conv) {
        Laws.SyncMirrors(board, Now(), conv);
      }
      if conv >= |convs| {
        return;
      }
      var (kind, name) := TargetStage(convs[conv]);
      var target := GetStage(board, kind, name);
      if target.None? {
        return;
      }
      if conv !in cards {
        AddCard(conv, target.value, Agent);
        ApplyClosedState(conv, board[target.value].status);
      } else if cards[conv].stage != target.value {
        var current := cards[conv].stage;
        if current < |board| && WouldRegress(board[current], board[target.value]) {
          return;
        }
        RecordMove(conv, target.value, Agent);
      }
    }

    method MoveCard(conv: ConvId, to: StageId, mover: Mover) returns (result: MoveResult)
      modifies this`cards, this`log, this`convs, this`contacts
      ensures (Now(), result) == MovedCard(board, old(Now()), conv, to, mover)
      ensures old(Valid()) && mover != System ==> Valid()
      ensures conv in old(cards) && conv < |old(convs)| && to < |board| ==>
                && conv in cards && (result == MoveOk <==> cards[conv].stage == to)
                && (result == NeedsAName <==> board[to].status == Won && old(cards)[conv].stage != to && !Laws.LeadIsNamed(old(Now()), conv))
    {
      if Valid() && mover != System {
        Invariant.MoveKeeps(board, Now(), conv, to, mover);
      }
      if conv in cards && conv < |convs| && to < |board| {
        Laws.WinningNeedsAName(board, Now(), conv, to, mover);
      }
      if conv !in cards {
        return NoCard;
      }
      if to >= |board| {
        return NoStage;
      }
      if cards[conv].stage != to {
        if board[to].status == Won && conv < |convs| {
          var named := EnsureLeadName(conv);
          if !named {
            return NeedsAName;
          }
        }
        RecordMove(conv, to, mover);
        if board[to].status == Won && conv < |convs| {
          UpsertContact(conv);
        }
      }
      return MoveOk;
    }

    method EnsureLeadName(conv: ConvId) returns (named: bool)
      requires conv < |convs|
      ensures named == HasName(Now(), conv)
    {
      if NamedText(convs[conv].fullName) {
        return true;
      }
      var phone := convs[conv].phone;
      return phone in contacts && NamedText(contacts[phone]);
    }

    method UpsertContact(conv: ConvId)
      requires conv < |convs|
      modifies this`contacts
      ensures Now() == WithContact(old(Now()), conv)
    {
      var c := convs[conv];
      if c.phone !in contacts || c.fullName.Some? {
        contacts := contacts[c.phone := c.fullName];
      }
    }

    /** The takeover switch; turning the agent back on reopens a terminal funnel. */
    method SetAiActive(conv: ConvId, active: bool) returns (found: bool)
      requires Valid()
      modifies this`convs
      ensures Valid()
      ensures found <==> conv < |old(convs)|
      ensures Now() == AiSet(old(Now()), conv, active)
      ensures found ==> conv < |convs| && TargetStage(convs[conv]).0 == if active then Ia else Human
      ensures found ==>
                var was := old(convs)[conv];
                var reopens := active && (was.funnel == Funnel.HandedOff || was.funnel == Funnel.Disqualified);
                convs[conv] == was.(active := active, funnel := if reopens then Funnel.Engaging else was.funnel)
    {
      Invariant.AiKeeps(board, Now(), conv, active);
      if conv >= |convs| {
        return false;
      }
      Laws.ReactivationReturnsToSale(Now(), conv);
      convs := convs[conv := convs[conv].(active := active)];
      if active {
        convs := convs[conv := convs[conv].(funnel := Funnel.Reopen(convs[conv].funnel, false))];
      }
      assert Now() == AiSet(old(Now()), conv, active);
      return true;
    }

    method CreateOpportunity(phone: Phone, fullName: Option<string>, user: UserId) returns (ok: bool)
      modifies this`convs, this`cards, this`log
      ensures old(Valid()) && SaleStartsOpen(board) ==> Valid()
      ensures ok <==> FirstStage(board, Ia).Some?
      ensures Now() == Created(board, old(Now()), phone, fullName, user)
      ensures ok ==> var latest := LatestOf(convs, phone);
                     && latest.Some? && !convs[latest.value].closed && latest.value in cards
                     && (!IsEmptyName(fullName) ==> !IsEmptyName(convs[latest.value].fullName))
                     && (latest.value !in old(cards) ==>
                           cards[latest.value].moves == [Move(None, FirstStage(board, Ia).value, Operator(user))])
    {
      if Valid() && SaleStartsOpen(board) {
        Invariant.CreateKeeps(board, Now(), phone, fullName, user);
      }
      Laws.CreatedIsOnBoard(board, Now(), phone, fullName, user);
      var first := FirstStage(board, Ia);
      if first.None? {
        return false;
      }
      var latest := LatestOf(convs, phone);
      var conv;
      if latest.None? || convs[latest.value].closed {
        conv := |convs|;
        convs := convs + [FreshConv(phone, fullName)];
      } else {
        conv := latest.value;
        if !IsEmptyName(fullName) && IsEmptyName(convs[conv].fullName) {
          convs := convs[conv := convs[conv].(fullName := fullName)];
        }
      }
      if conv !in cards {
        AddCard(conv, first.value, Operator(user));
      }
      return true;
    }

    method DeleteOpportunity(conv: ConvId) returns (found: bool)
      requires Valid()
      modifies this`convs, this`cards
      ensures Valid()
      ensures found <==> conv in old(cards)
      ensures Now() == Deleted(old(Now()), conv)
      ensures found ==> Laws.Gone(Now(), conv)
    {
      Invariant.DeleteKeeps(board, Now(), conv);
      if conv !in cards {
        return false;
      }
      Laws.DeletionOfValidIsGone(board, Now(), conv);
      if conv < |convs| && !convs[conv].closed {
        convs := convs[conv := convs[conv].(closed := true)];
      }
      cards := cards - {conv};
      assert Now() == Deleted(old(Now()), conv);
      return true;
    }

    // ---------------------------------------------------------------- delivery

    method SetFlags(conv: ConvId, flags: seq<Flag>)
      requires conv in cards
      modifies this`cards
      ensures Now() == WithFlags(old(Now()), conv, flags)
    {
      cards := cards[conv := cards[conv].(flags := flags)];
    }

    /** Replace what depends on the attempt, keep the rest. */
    method ReplaceDeliveryFlags(conv: ConvId, extra: seq<Flag>)
      requires conv in cards
      modifies this`cards
      ensures Now() == WithFlags(old(Now()), conv, DeliveryReplaced(old(cards)[conv].flags, extra))
    {
      var kept := Removed(cards[conv].flags, DELIVERY_FLAGS);
      var flags := Add(kept, extra);
      SetFlags(conv, flags);
    }

    method Block(conv: ConvId, flag: Flag) returns (outcome: Outcome)
      requires conv in cards
      modifies this`cards
      ensures (Now(), outcome) == HeldBy(old(Now()), conv, flag)
      ensures flag in DELIVERY_FLAGS ==> outcome == Held(flag) && Deliveries.Annotated(old(Now()), Now(), conv, flag)
    {
      if flag in DELIVERY_FLAGS {
        Deliveries.HoldingAnnotates(Now(), conv, flag);
      }
      ReplaceDeliveryFlags(conv, [flag]);
      outcome := Held(flag);
    }

    /** Tell the lead unless it was told; a loss keeps nothing but the message the lead has. */
    method ConfirmPaymentPending(conv: ConvId, result: NoticeResult) returns (told: bool)
      modifies this`convs, this`log
      ensures Now() == Noticed(old(Now()), conv, result)
      ensures told <==> conv < |old(convs)| && !old(convs)[conv].noticed && result != Refused
      ensures told <==> log != old(log)
      ensures Notices.NoticesOk(old(Now())) ==> Notices.NoticesOk(Now())
    {
      if Notices.NoticesOk(Now()) {
        Notices.TellingCounts(Now(), conv, result);
      }
      if conv >= |convs| || convs[conv].noticed {
        return false;
      }
      if result == Refused {
        return false;
      }
      log := log + [Sent(conv, Notice(result == Recorded))];
      if result == Unrecorded {
        return true;
      }
      convs := convs[conv := convs[conv].(noticed := true)];
      return true;
    }

    /** The entry of the card, written now when it had none. */
    method IssueEntry(conv: ConvId, event: Option<Event>)
      requires conv in cards
      modifies this`cards, this`nextToken
      ensures Now() == Issued(old(Now()), conv, event)
      ensures cards[conv].entry.Some? && (old(cards)[conv].entry.Some? ==> cards == old(cards))
      ensures Entries.EntriesOk(old(Now())) && Entries.Gated(old(Now()), conv, event) ==> Entries.EntriesOk(Now())
    {
      if Entries.EntriesOk(Now()) && Entries.Gated(Now(), conv, event) {
        Entries.IssuingKeepsSeats(Now(), conv, event);
      }
      if cards[conv].entry.None? {
        var id: Option<EventId> := None;
        var snapshot: Option<Delivery.EventInfo> := None;
        if event.Some? {
          id, snapshot := Some(event.value.id), Some(event.value.info);
        }
        cards := cards[conv := cards[conv].(entry := Some(Entry(nextToken, id, snapshot, false)))];
        nextToken := nextToken + 1;
      }
    }

    /** Write the entry if missing, then send; a failed send may lose the write. */
    method Send(conv: ConvId, planned: Planned, world: World)
      requires conv in cards
      modifies this`cards, this`nextToken, this`log
      ensures Now() == SentMain(old(Now()), conv, planned, world)
    {
      if planned.plan.needsEntry {
        var cardsBefore, tokenBefore := cards, nextToken;
        IssueEntry(conv, planned.event);
        match world.main {
          case Delivered => log := log + [Sent(conv, EntryImage(cards[conv].entry.value.token))];
          case OutsideWindow =>
          case Failed =>
            if !world.kept {
              cards, nextToken := cardsBefore, tokenBefore;
            }
        }
      } else if world.main == SendResult.Delivered {
        log := log + [Sent(conv, Links)];
      }
    }

    method Close(conv: ConvId, warnings: seq<Flag>) returns (outcome: Outcome)
      requires conv in cards
      modifies this`cards, this`log, this`convs, this`contacts
      ensures (Now(), outcome) == Concluded(board, old(Now()), conv, warnings)
    {
      var won := StageByStatus(board, Human, Won);
      if won.None? {
        return Done(false, warnings);
      }
      var result := MoveCard(conv, won.value, System);
      if result == NeedsAName {
        var flags := Add(cards[conv].flags, [NeedsName]);
        SetFlags(conv, flags);
        return Done(false, warnings + [NeedsName]);
      }
      return Done(true, warnings);
    }

    method Advance(conv: ConvId, handed: StageId, warnings: seq<Flag>) returns (outcome: Outcome)
      requires conv in cards && handed < |board|
      modifies this`cards, this`log, this`convs, this`contacts
      ensures (Now(), outcome) == Advanced(board, old(Now()), conv, handed, warnings)
    {
      ghost var before := Now();
      var result := MoveCard(conv, handed, System);
      if result != MoveOk {
        return Raised;
      }
      MovedKeepsCards(board, before, conv, handed, System);
      ReplaceDeliveryFlags(conv, warnings);
      outcome := Close(conv, warnings);
    }

    method SendTemplate(conv: ConvId, result: SendResult)
      requires conv in cards && cards[conv].entry.Some?
      modifies this`log
      ensures Now() == if result == SendResult.Delivered
                       then Logged(old(Now()), Sent(conv, EntryTemplate(TokenOf(old(Now()), conv)))) else old(Now())
    {
      if result == SendResult.Delivered {
        log := log + [Sent(conv, EntryTemplate(cards[conv].entry.value.token))];
      }
    }

    method Ship(conv: ConvId, handed: StageId, planned: Planned, world: World) returns (outcome: Outcome)
      requires conv in cards && handed < |board|
      modifies this`cards, this`log, this`convs, this`contacts, this`nextToken
      ensures (Now(), outcome) == Shipped(board, old(Now()), conv, handed, planned, world)
    {
      var cardsBefore, tokenBefore := cards, nextToken;
      Send(conv, planned, world);
      if world.main == Failed {
        return Raised;
      }
      if world.main == OutsideWindow {
        if !planned.plan.needsEntry || planned.event.None? {
          outcome := Block(conv, DeliveryPending);
          return;
        }
        SendTemplate(conv, world.template);
        if world.template == Failed {
          if !world.kept {
            cards, nextToken := cardsBefore, tokenBefore;
          }
          return Raised;
        }
        if world.template == OutsideWindow {
          outcome := Block(conv, DeliveryPending);
          return;
        }
      }
      outcome := Advance(conv, handed, planned.plan.warnings);
    }

    method Deliver(conv: ConvId, now: int, world: World) returns (outcome: Outcome)
      requires Valid()
      modifies this`cards, this`log, this`convs, this`contacts, this`nextToken
      ensures Valid()
      ensures (Now(), outcome) == DeliveredTo(board, old(Now()), conv, now, world)
      ensures Deliveries.StillOrServed(board, old(Now()), Now(), conv, outcome)
      ensures outcome.Held? ==> Deliveries.Annotated(old(Now()), Now(), conv, outcome.flag)
      ensures outcome.Done? && conv < |old(convs)| ==>
                Outcomes.WonByName(board, old(Now()), Now(), conv, GetStage(board, Human, Handed).value, outcome)
      ensures Entries.EntriesStay(old(Now()), Now())
    {
      ghost var before := Now();
      Invariant.DeliverKeeps(board, before, conv, now, world);
      Deliveries.DeliveryServesOrStays(board, before, conv, now, world);
      Deliveries.HeldKeepsTheCard(board, before, conv, now, world);
      Entries.DeliveryKeepsEntries(board, before, conv, now, world);
      if conv < |convs| {
        Outcomes.DeliveryEndsExactly(board, before, conv, now, world);
      }
      outcome := TryToDeliver(conv, now, world);
    }

    method TryToDeliver(conv: ConvId, now: int, world: World) returns (outcome: Outcome)
      modifies this`cards, this`log, this`convs, this`contacts, this`nextToken
      ensures (Now(), outcome) == DeliveredTo(board, old(Now()), conv, now, world)
    {
      if conv !in cards {
        return NotFound;
      }
      var validated := GetStage(board, Human, PaymentValidated);
      var handed := GetStage(board, Human, Handed);
      if validated.None? || handed.None? {
        return NoStages;
      }
      if cards[conv].stage != validated.value {
        return NotValidated;
      }
      var planned := Plan(conv, now);
      if planned.plan.blockedBy.Some? {
        var told := ConfirmPaymentPending(conv, world.notice);
        if told && world.notice == Unrecorded {
          return Raised;
        }
        outcome := Block(conv, planned.plan.blockedBy.value);
        return;
      }
      outcome := Ship(conv, handed.value, planned, world);
    }

    /** What to send, read from the catalogue and the agenda. */
    method Plan(conv: ConvId, now: int) returns (planned: Planned)
      requires conv in cards
      ensures planned == PlanFor(Now(), cards[conv], now)
      ensures planned.plan.blockedBy.Some? ==> planned.plan.blockedBy.value in DELIVERY_FLAGS
      ensures planned.plan.blockedBy.None? ==> Entries.Gated(Now(), conv, planned.event)
    {
      Entries.PlanIsGated(Now(), conv, now);
      Deliveries.PlansBlockWithDeliveryFlags(Now(), cards[conv], now);
      var card := cards[conv];
      var here := State(convs, cards, catalogue, events, contacts, nextToken, nextEvent, log);
      var services := Accepted(here, card.services);
      if |services| == 0 {
        return Planned(Delivery.Blocked(NoModality), None);
      }
      if |services| > 1 {
        return Planned(Delivery.Blocked(AmbiguousService), None);
      }
      var service := services[0];
      if !GivesEntry(service) {
        return Planned(Delivery.PlanDelivery(service.modality, service.links, None), None);
      }
      var event: Option<Event>;
      var snapshot: Option<Delivery.EventInfo> := None;
      if card.entry.Some? {
        event := EventById(events, card.entry.value.event);
        snapshot := card.entry.value.snapshot;
      } else {
        event := CurrentFor(events, OnlyService(here, card.services), now);
        if event.None? {
          return Planned(Delivery.Blocked(NoEvent), None);
        }
        if !HasCapacity(here, event.value) {
          return Planned(Delivery.Blocked(CapacityFull), None);
        }
      }
      planned := PlanWithEvent(service, event, snapshot);
    }

    /** The button of the card: the same plan, moved by the operator. */
    method GenerateEntry(conv: ConvId, user: UserId, now: int, world: World) returns (button: Button)
      requires Valid()
      modifies this`cards, this`log, this`convs, this`contacts, this`nextToken
      ensures Valid()
      ensures (Now(), button) == EntryGenerated(board, old(Now()), conv, user, now, world)
      ensures Entries.EntriesStay(old(Now()), Now())
    {
      Invariant.PressKeeps(board, Now(), conv, user, now, world);
      Entries.PressKeepsEntries(board, Now(), conv, user, now, world);
      button := TryToGenerate(conv, user, now, world);
    }

    method TryToGenerate(conv: ConvId, user: UserId, now: int, world: World) returns (button: Button)
      modifies this`cards, this`log, this`convs, this`contacts, this`nextToken
      ensures (Now(), button) == EntryGenerated(board, old(Now()), conv, user, now, world)
    {
      if conv !in cards {
        return Invalid;
      }
      var validated := GetStage(board, Human, PaymentValidated);
      var handed := GetStage(board, Human, Handed);
      if cards[conv].entry.Some? && handed == Some(cards[conv].stage) {
        return Existing;
      }
      if validated != Some(cards[conv].stage) {
        return Invalid;
      }
      var here := State(convs, cards, catalogue, events, contacts, nextToken, nextEvent, log);
      if !OneEntryService(here, cards[conv]) || handed.None? {
        return Invalid;
      }
      var planned := Plan(conv, now);
      if planned.plan.blockedBy.Some? {
        return Invalid;
      }
      button := IssueAndMove(conv, handed.value, user, planned, world);
    }

    method IssueAndMove(conv: ConvId, handed: StageId, user: UserId, planned: Planned, world: World) returns (button: Button)
      requires conv in cards && handed < |board|
      modifies this`cards, this`log, this`convs, this`contacts, this`nextToken
      ensures (Now(), button) == ButtonPressed(board, old(Now()), conv, handed, user, planned, world)
    {
      var cardsBefore, tokenBefore := cards, nextToken;
      if world.main != SendResult.Delivered {
        if world.kept {
          IssueEntry(conv, planned.event);
        }
        return Unsent;
      }
      Send(conv, planned, world);
      var result := MoveCard(conv, handed, Operator(user));
      if result != MoveOk {
        if !world.kept {
          cards, nextToken := cardsBefore, tokenBefore;
        }
        return Unsent;
      }
      return Generated;
    }

    // ---------------------------------------------------------------- triggers

    /** The operator drags the card: if it lands in the validated stage it is delivered at once. */
    method MoveAndDeliver(conv: ConvId, to: StageId, user: UserId, now: int, world: World)
      requires Valid()
      modifies this`cards, this`log, this`convs, this`contacts, this`nextToken
      ensures Valid()
      ensures Now() == Dragged(board, old(Now()), conv, to, user, now, world)
    {
      var result := MoveCard(conv, to, Operator(user));
      if result == MoveOk && board[to].kind == Human && board[to].name == PaymentValidated {
        var _ := Deliver(conv, now, world);
      }
    }

    /** A receipt passed its checks: its notices, the move by the system, and the delivery. */
    method Approve(conv: ConvId, now: int, world: World) returns (approved: bool)
      requires Valid()
      modifies this`cards, this`log, this`convs, this`contacts, this`nextToken
      ensures Valid()
      ensures Now() == Approved(board, old(Now()), conv, now, world)
      ensures approved ==> AwaitsPayment(board, old(Now()), conv)
      ensures conv < |old(convs)| ==>
                var validated := GetStage(board, Human, PaymentValidated);
                (approved <==> AwaitsPayment(board, old(Now()), conv) && validated.Some?
                               && (board[validated.value].status == Won ==> Laws.LeadIsNamed(old(Now()), conv)))
      ensures InOrder(board) ==> Deliveries.Ratchet(board, old(Now()), Now())
      ensures Entries.EntriesStay(old(Now()), Now())
    {
      Invariant.ApproveKeeps(board, Now(), conv, now, world);
      Entries.ApproveKeepsEntries(board, Now(), conv, now, world);
      if InOrder(board) {
        Deliveries.ApproveKeepsRatchet(board, Now(), conv, now, world);
      }
      if conv < |convs| {
        Outcomes.ValidationExactly(board, Now(), conv);
      }
      approved := Validate(conv);
      if approved {
        var _ := TryToDeliver(conv, now, world);
      }
    }

    method Validate(conv: ConvId) returns (approved: bool)
      modifies this`cards, this`log, this`convs, this`contacts
      ensures (Now(), approved) == Validated(board, old(Now()), conv)
    {
      if conv !in cards || GetStage(board, Human, PaymentValidation) != Some(cards[conv].stage) {
        return false;
      }
      var kept := Removed(cards[conv].flags, {ReceiptReview});
      var flags := Add(kept, [PaymentUnconfirmed]);
      SetFlags(conv, flags);
      var target := GetStage(board, Human, PaymentValidated);
      if target.None? {
        return false;
      }
      var result := MoveCard(conv, target.value, System);
      return result == MoveOk;
    }

    /** The lead writes again: a delivery that waited for the window is tried again. */
    method RetryPending(conv: ConvId, now: int, world: World)
      requires Valid()
      modifies this`cards, this`log, this`convs, this`contacts, this`nextToken
      ensures Valid()
      ensures Now() == Retried(board, old(Now()), conv, now, world)
      ensures InOrder(board) ==> Deliveries.Ratchet(board, old(Now()), Now())
    {
      if InOrder(board) {
        Deliveries.DeliverKeepsRatchet(board, Now(), conv, now, world);
      }
      if conv in cards && DeliveryPending in Known(cards[conv].flags) {
        var _ := Deliver(conv, now, world);
      }
    }

    /** Someone loads an event: the cards that waited for a date or a seat are tried again, in order. */
    method RetryForEvent(waiting: seq<ConvId>, now: int, worlds: ConvId -> World) returns (retried: nat)
      requires Valid()
      modifies this`cards, this`log, this`convs, this`contacts, this`nextToken
      ensures Valid()
      ensures Now() == RetriedAll(board, old(Now()), waiting, now, worlds)
      ensures retried <= |waiting|
      ensures InOrder(board) ==> Deliveries.Climbs(board, old(Now()), Now())
      ensures Entries.EntriesStay(old(Now()), Now())
    {
      if InOrder(board) {
        Deliveries.RetriesClimb(board, Now(), waiting, now, worlds);
      }
      Entries.RetriesKeepEntries(board, Now(), waiting, now, worlds);
      retried := RetryEach(waiting, now, worlds);
    }

    method RetryEach(waiting: seq<ConvId>, now: int, worlds: ConvId -> World) returns (retried: nat)
      requires Valid()
      modifies this`cards, this`log, this`convs, this`contacts, this`nextToken
      ensures Valid()
      ensures Now() == RetriedAll(board, old(Now()), waiting, now, worlds)
      ensures retried <= |waiting|
    {
      retried := 0;
      ghost var before := Now();
      for i := 0 to |waiting|
        invariant Valid()
        invariant Now() == RetriedAll(board, before, waiting[..i], now, worlds)
        invariant retried <= i
      {
        assert waiting[..i + 1][..i] == waiting[..i];
        var conv := waiting[i];
        if conv in cards && (NoEvent in Known(cards[conv].flags) || CapacityFull in Known(cards[conv].flags)) {
          var _ := Deliver(conv, now, worlds(conv));
          retried := retried + 1;
        }
      }
      assert waiting[..|waiting|] == waiting;
    }
  }
}
