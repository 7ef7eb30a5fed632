/**
 * The cards of an organisation: what every operation of the CRM does to the stored state.
 * Conversations are numbered in order of creation; a card belongs to one conversation.
 */
module Crm {
  import opened Wrappers
  import opened Text
  import opened Board
  import opened CardFlags
  import Delivery
  import Funnel
  import History

  type ConvId = History.ConvId
  type Phone = nat
  type UserId = nat
  type ServiceId = nat
  type EventId = nat

  datatype Conv = Conv(
    phone: Phone, fullName: Option<string>, funnel: Funnel.Stage, active: bool, closed: bool,
    reason: string, noticed: bool)

  datatype Mover = Agent | Operator(user: UserId) | System

  datatype Move = Move(from: Option<StageId>, to: StageId, by_: Mover)

  datatype Entry = Entry(token: nat, event: Option<EventId>, snapshot: Option<Delivery.EventInfo>, revoked: bool)

  datatype Card = Card(
    stage: StageId, flags: seq<Flag>, services: seq<ServiceId>, moves: seq<Move>, entry: Option<Entry>)

  datatype EventStatus = Active | Scheduled | Over

  datatype Event = Event(
    id: EventId, service: ServiceId, status: EventStatus, startsAt: int, capacity: Option<nat>,
    mapsUrl: string, info: Delivery.EventInfo)

  datatype Service = Service(modality: Delivery.Modality, links: seq<Delivery.LinkRef>)

  datatype What = Links | EntryImage(token: nat) | EntryTemplate(token: nat) | Notice(recorded: bool)

  /** What an outside observer sees: messages the lead received and moves of cards. */
  datatype Happening = Sent(conv: ConvId, what: What) | Moved(conv: ConvId, move: Move)

  datatype State = State(
    convs: seq<Conv>, cards: map<ConvId, Card>, catalogue: map<ServiceId, Service>, events: seq<Event>,
    contacts: map<Phone, Option<string>>, nextToken: nat, nextEvent: EventId, log: seq<Happening>)

  // ---------------------------------------------------------------- moving a card

  function WithCard(s: State, conv: ConvId, card: Card): State {
    s.(cards := s.cards[conv := card])
  }

  function WithConv(s: State, conv: ConvId, c: Conv): State
    requires conv < |s.convs|
  {
    s.(convs := s.convs[conv := c])
  }

  /** The conversation is closed while its card stands in a terminal stage. */
  function CloseAccordingTo(s: State, conv: ConvId, status: Status): State {
    if conv < |s.convs| then WithConv(s, conv, s.convs[conv].(closed := status != Open)) else s
  }

  function Place(board: Table, s: State, conv: ConvId, to: StageId, mover: Mover): State
    requires conv in s.cards && to < |board|
  {
    var card := s.cards[conv];
    var move := Move(Some(card.stage), to, mover);
    var moved := WithCard(s, conv, card.(stage := to, moves := card.moves + [move]));
    CloseAccordingTo(moved.(log := s.log + [Moved(conv, move)]), conv, board[to].status)
  }

  function NewCard(s: State, conv: ConvId, to: StageId, mover: Mover): State {
    var move := Move(None, to, mover);
    WithCard(s, conv, Card(to, [], [], [move], None)).(log := s.log + [Moved(conv, move)])
  }

  // ---------------------------------------------------------------- projection of the agent's state

  function IaName(stage: Funnel.Stage): Name {
    match stage
    case New => IaNew
    case Engaging => IaEngaging
    case Qualifying => IaQualifying
    case Qualified => IaQualified
    case Disqualified => IaDisqualified
    case HandedOff => Intake
  }

  function HumanName(reason: string): Name {
    if reason == "payment_validation" then PaymentValidation else Intake
  }

  /** Handoff or silence sends the card to the postsale pipeline; otherwise it mirrors the funnel. */
  function TargetStage(c: Conv): (Pipeline, Name) {
    if !c.active || c.funnel == Funnel.HandedOff then (Human, HumanName(c.reason)) else (Ia, IaName(c.funnel))
  }

  predicate WouldRegress(current: Stage, target: Stage) {
    current.kind == Human && target.kind == Human && target.position <= current.position
  }

  function Synced(board: Table, s: State, conv: ConvId): State {
    if conv >= |s.convs| then s
    else
      var (kind, name) := TargetStage(s.convs[conv]);
      var target := GetStage(board, kind, name);
      if target.None? then s
      else if conv !in s.cards then
        CloseAccordingTo(NewCard(s, conv, target.value, Agent), conv, board[target.value].status)
      else
        var current := s.cards[conv].stage;
        if current == target.value then s
        else if current < |board| && WouldRegress(board[current], board[target.value]) then s
        else Place(board, s, conv, target.value, Agent)
  }

  // ---------------------------------------------------------------- moves by an operator or the system

  predicate NamedText(name: Option<string>) {
    name.Some? && !IsBlank(name.value)
  }

  predicate HasName(s: State, conv: ConvId)
    requires conv < |s.convs|
  {
    || NamedText(s.convs[conv].fullName)
    || (s.convs[conv].phone in s.contacts && NamedText(s.contacts[s.convs[conv].phone]))
  }

  datatype MoveResult = MoveOk | NoCard | NoStage | NeedsAName

  function WithContact(s: State, conv: ConvId): State
    requires conv < |s.convs|
  {
    var c := s.convs[conv];
    if c.phone !in s.contacts || c.fullName.Some? then s.(contacts := s.contacts[c.phone := c.fullName]) else s
  }

  function MovedCard(board: Table, s: State, conv: ConvId, to: StageId, mover: Mover): (State, MoveResult) {
    if conv !in s.cards then (s, NoCard)
    else if to >= |board| then (s, NoStage)
    else if s.cards[conv].stage == to then (s, MoveOk)
    else if board[to].status == Won && conv < |s.convs| && !HasName(s, conv) then (s, NeedsAName)
    else
      var placed := Place(board, s, conv, to, mover);
      (if board[to].status == Won && conv < |placed.convs| then WithContact(placed, conv) else placed, MoveOk)
  }

  function AiSet(s: State, conv: ConvId, active: bool): State {
    if conv >= |s.convs| then s
    else
      var c := s.convs[conv].(active := active);
      WithConv(s, conv, if active then c.(funnel := Funnel.Reopen(c.funnel, false)) else c)
  }

  // ---------------------------------------------------------------- manual opportunities

  function LatestOf(convs: seq<Conv>, phone: Phone): (found: Option<ConvId>)
    ensures found.Some? ==> found.value < |convs| && convs[found.value].phone == phone
  {
    if convs == [] then None
    else if convs[|convs| - 1].phone == phone then Some(|convs| - 1)
    else LatestOf(convs[..|convs| - 1], phone)
  }

  function FreshConv(phone: Phone, fullName: Option<string>): Conv {
    Conv(phone, fullName, Funnel.New, true, false, "", false)
  }

  predicate IsEmptyName(name: Option<string>) {
    name.None? || name.value == ""
  }

  /** The conversation an opportunity of this phone hangs from: the latest one unless it is closed. */
  function OpenConv(s: State, phone: Phone, fullName: Option<string>): (r: (State, ConvId))
    ensures r.1 < |r.0.convs|
  {
    var latest := LatestOf(s.convs, phone);
    if latest.None? || s.convs[latest.value].closed then
      (s.(convs := s.convs + [FreshConv(phone, fullName)]), |s.convs|)
    else if !IsEmptyName(fullName) && IsEmptyName(s.convs[latest.value].fullName) then
      (WithConv(s, latest.value, s.convs[latest.value].(fullName := fullName)), latest.value)
    else (s, latest.value)
  }

  function Created(board: Table, s: State, phone: Phone, fullName: Option<string>, user: UserId): State {
    var first := FirstStage(board, Ia);
    if first.None? then s
    else
      var (base, conv) := OpenConv(s, phone, fullName);
      if conv in base.cards then base else NewCard(base, conv, first.value, Operator(user))
  }

  function Deleted(s: State, conv: ConvId): State {
    if conv !in s.cards then s
    else
      var bare := s.(cards := s.cards - {conv});
      if conv < |s.convs| then WithConv(bare, conv, s.convs[conv].(closed := true)) else bare
  }

  // ---------------------------------------------------------------- events and their entries

  predicate LiveFor(card: Card, event: EventId) {
    card.entry.Some? && card.entry.value.event == Some(event) && !card.entry.value.revoked
  }

  /** The cards whose entry holds a seat of the event. */
  function Seats(s: State, event: EventId): set<ConvId> {
    set conv | conv in s.cards && LiveFor(s.cards[conv], event)
  }

  predicate HasCapacity(s: State, event: Event) {
    event.capacity.None? || |Seats(s, event.id)| < event.capacity.value
  }

  predicate Upcoming(e: Event, service: ServiceId, now: int) {
    e.service == service && e.status != Over && e.startsAt >= now
  }

  /** Active before scheduled, and between equals the nearest. */
  predicate Before(a: Event, b: Event) {
    (a.status == Active && b.status != Active) || ((a.status == Active <==> b.status == Active) && a.startsAt < b.startsAt)
  }

  /** The event that entries issued now belong to; ties keep the order of the table. */
  function CurrentFor(events: seq<Event>, service: ServiceId, now: int): (found: Option<Event>)
    ensures found.Some? ==> found.value in events && Upcoming(found.value, service, now)
    ensures forall i :: 0 <= i < |events| && Upcoming(events[i], service, now) ==>
              found.Some? && !Before(events[i], found.value)
  {
    if events == [] then None
    else
      var last := events[|events| - 1];
      var best := CurrentFor(events[..|events| - 1], service, now);
      if Upcoming(last, service, now) && (best.None? || Before(last, best.value)) then Some(last) else best
  }

  function EventById(events: seq<Event>, id: Option<EventId>): (found: Option<Event>)
    ensures found.Some? ==> found.value in events && id == Some(found.value.id)
  {
    if events == [] || id.None? then None
    else if events[0].id == id.value then Some(events[0])
    else EventById(events[1..], id)
  }

  // ---------------------------------------------------------------- planning a delivery

  datatype Planned = Planned(plan: Delivery.Plan, event: Option<Event>)

  /** The accepted services of the card that the catalogue still holds. */
  function Accepted(s: State, ids: seq<ServiceId>): seq<Service> {
    if ids == [] then []
    else if ids[0] in s.catalogue then [s.catalogue[ids[0]]] + Accepted(s, ids[1..])
    else Accepted(s, ids[1..])
  }

  function AcceptedIds(s: State, ids: seq<ServiceId>): seq<ServiceId> {
    if ids == [] then []
    else if ids[0] in s.catalogue then [ids[0]] + AcceptedIds(s, ids[1..])
    else AcceptedIds(s, ids[1..])
  }

  predicate GivesEntry(service: Service) {
    service.modality == Delivery.Presencial || service.modality == Delivery.Hybrid
  }

  function WithoutMaps(links: seq<Delivery.LinkRef>): seq<Delivery.LinkRef> {
    if links == [] then []
    else if links[0].kind == Delivery.Maps then WithoutMaps(links[1..])
    else [links[0]] + WithoutMaps(links[1..])
  }

  /** The event's venue replaces the service's. */
  function LinksAt(links: seq<Delivery.LinkRef>, event: Option<Event>): seq<Delivery.LinkRef> {
    if event.Some? && event.value.mapsUrl != ""
    then WithoutMaps(links) + [Delivery.LinkRef(Delivery.Maps, event.value.mapsUrl, None)]
    else links
  }

  function InfoOf(event: Option<Event>, snapshot: Option<Delivery.EventInfo>): Option<Delivery.EventInfo> {
    if event.Some? then Some(event.value.info) else snapshot
  }

  function PlanWithEvent(service: Service, event: Option<Event>, snapshot: Option<Delivery.EventInfo>): Planned {
    Planned(Delivery.PlanDelivery(service.modality, LinksAt(service.links, event), InfoOf(event, snapshot)), event)
  }

  /** An issued entry keeps its event and skips the gate; otherwise an event with a free seat is needed. */
  function PlanFor(s: State, card: Card, now: int): Planned {
    var services := Accepted(s, card.services);
    if |services| == 0 then Planned(Delivery.Blocked(NoModality), None)
    else if |services| > 1 then Planned(Delivery.Blocked(AmbiguousService), None)
    else if !GivesEntry(services[0]) then
      Planned(Delivery.PlanDelivery(services[0].modality, services[0].links, None), None)
    else if card.entry.Some? then
      PlanWithEvent(services[0], EventById(s.events, card.entry.value.event), card.entry.value.snapshot)
    else
      var event := CurrentFor(s.events, OnlyService(s, card.services), now);
      if event.None? then Planned(Delivery.Blocked(NoEvent), None)
      else if !HasCapacity(s, event.value) then Planned(Delivery.Blocked(CapacityFull), None)
      else PlanWithEvent(services[0], event, None)
  }

  function OnlyService(s: State, ids: seq<ServiceId>): ServiceId {
    var accepted := AcceptedIds(s, ids);
    if accepted == [] then 0 else accepted[0]
  }

  // ---------------------------------------------------------------- sending

  datatype SendResult = Delivered | OutsideWindow | Failed

  /** The notice was refused, or accepted and its row recorded, or accepted and everything after it lost. */
  datatype NoticeResult = Refused | Recorded | Unrecorded

  /**
   * How the outside world answers one delivery: the confirmation notice, the main message, the
   * template of an issued entry. `kept` says whether an entry written before a failure
   * ends up committed by the session.
   */
  datatype World = World(notice: NoticeResult, main: SendResult, template: SendResult, kept: bool)

  function Logged(s: State, h: Happening): State {
    s.(log := s.log + [h])
  }

  /** The card holds its entry: the one it had, or a new one bound to the event. */
  function Issued(s: State, conv: ConvId, event: Option<Event>): State
    requires conv in s.cards
  {
    var card := s.cards[conv];
    if card.entry.Some? then s
    else
      var entry := Entry(s.nextToken,
                         if event.Some? then Some(event.value.id) else None,
                         if event.Some? then Some(event.value.info) else None,
                         false);
      WithCard(s, conv, card.(entry := Some(entry))).(nextToken := s.nextToken + 1)
  }

  function TokenOf(s: State, conv: ConvId): nat {
    if conv in s.cards && s.cards[conv].entry.Some? then s.cards[conv].entry.value.token else 0
  }

  /** The main message of the plan: the entry with its caption, or the links. */
  function SentMain(s: State, conv: ConvId, planned: Planned, world: World): State
    requires conv in s.cards
  {
    if planned.plan.needsEntry then
      var issued := Issued(s, conv, planned.event);
      match world.main
      case Delivered => Logged(issued, Sent(conv, EntryImage(TokenOf(issued, conv))))
      case OutsideWindow => issued
      case Failed => if world.kept then issued else s
    else if world.main == Delivered then Logged(s, Sent(conv, Links))
    else s
  }

  /** Says once per conversation that the payment is confirmed while a person completes the delivery. */
  function Noticed(s: State, conv: ConvId, result: NoticeResult): State {
    if conv >= |s.convs| || s.convs[conv].noticed || result == Refused then s
    else if result == Unrecorded then Logged(s, Sent(conv, Notice(false)))
    else Logged(WithConv(s, conv, s.convs[conv].(noticed := true)), Sent(conv, Notice(true)))
  }

  /** The notice went out and the session failed to commit it. */
  predicate LosesNotice(s: State, conv: ConvId, result: NoticeResult) {
    conv < |s.convs| && !s.convs[conv].noticed && result == Unrecorded
  }

  datatype Outcome =
    | NotFound | NoStages | NotValidated | Raised
    | Held(flag: Flag)
    | Done(closed: bool, flags: seq<Flag>)

  function WithFlags(s: State, conv: ConvId, flags: seq<Flag>): State
    requires conv in s.cards
  {
    WithCard(s, conv, s.cards[conv].(flags := flags))
  }

  function HeldBy(s: State, conv: ConvId, flag: Flag): (State, Outcome)
    requires conv in s.cards
  {
    (WithFlags(s, conv, DeliveryReplaced(s.cards[conv].flags, [flag])), Held(flag))
  }

  /** Wins the opportunity; without a name it stays open with its notice. */
  function Concluded(board: Table, s: State, conv: ConvId, warnings: seq<Flag>): (State, Outcome)
    requires conv in s.cards
  {
    var won := StageByStatus(board, Human, Won);
    if won.None? then (s, Done(false, warnings))
    else
      var (moved, result) := MovedCard(board, s, conv, won.value, System);
      if result == NeedsAName then
        (WithFlags(s, conv, Added(s.cards[conv].flags, [NeedsName])), Done(false, warnings + [NeedsName]))
      else (moved, Done(true, warnings))
  }

  /** The lead was served: move, clear the notices of earlier attempts, close. */
  function Advanced(board: Table, s: State, conv: ConvId, handed: StageId, warnings: seq<Flag>): (State, Outcome)
    requires conv in s.cards && handed < |board|
  {
    var (moved, result) := MovedCard(board, s, conv, handed, System);
    if result != MoveOk then (s, Raised)
    else
      MovedKeepsCards(board, s, conv, handed, System);
      Concluded(board, WithFlags(moved, conv, DeliveryReplaced(moved.cards[conv].flags, warnings)), conv, warnings)
  }

  lemma MovedKeepsCards(board: Table, s: State, conv: ConvId, to: StageId, mover: Mover)
    ensures MovedCard(board, s, conv, to, mover).0.cards.Keys == s.cards.Keys
    ensures |MovedCard(board, s, conv, to, mover).0.convs| == |s.convs|
  {
  }

  function Shipped(board: Table, s: State, conv: ConvId, handed: StageId, planned: Planned, world: World): (State, Outcome)
    requires conv in s.cards && handed < |board|
  {
    var sent := SentMain(s, conv, planned, world);
    match world.main
    case Failed => (sent, Raised)
    case Delivered => Advanced(board, sent, conv, handed, planned.plan.warnings)
    case OutsideWindow =>
      if !planned.plan.needsEntry || planned.event.None? then HeldBy(sent, conv, DeliveryPending)
      else
        match world.template
        case Delivered =>
          Advanced(board, Logged(sent, Sent(conv, EntryTemplate(TokenOf(sent, conv)))), conv, handed, planned.plan.warnings)
        case OutsideWindow => HeldBy(sent, conv, DeliveryPending)
        case Failed => (if world.kept then sent else s, Raised)
  }

  function Executed(board: Table, s: State, conv: ConvId, handed: StageId, planned: Planned, world: World): (State, Outcome)
    requires conv in s.cards && handed < |board|
  {
    if planned.plan.blockedBy.Some? then
      if LosesNotice(s, conv, world.notice) then (Noticed(s, conv, world.notice), Raised)
      else HeldBy(Noticed(s, conv, world.notice), conv, planned.plan.blockedBy.value)
    else Shipped(board, s, conv, handed, planned, world)
  }

  /** Delivers a card whose payment was validated: send first, move after. */
  function DeliveredTo(board: Table, s: State, conv: ConvId, now: int, world: World): (State, Outcome) {
    var validated := GetStage(board, Human, PaymentValidated);
    var handed := GetStage(board, Human, Handed);
    if conv !in s.cards then (s, NotFound)
    else if validated.None? || handed.None? then (s, NoStages)
    else if s.cards[conv].stage != validated.value then (s, NotValidated)
    else Executed(board, s, conv, handed.value, PlanFor(s, s.cards[conv], now), world)
  }

  // ---------------------------------------------------------------- the operator's button

  datatype Button = Existing | Invalid | Unsent | Generated

  predicate OneEntryService(s: State, card: Card) {
    var services := Accepted(s, card.services);
    |services| == 1 && GivesEntry(services[0])
  }

  function EntryGenerated(board: Table, s: State, conv: ConvId, user: UserId, now: int, world: World): (State, Button) {
    var validated := GetStage(board, Human, PaymentValidated);
    var handed := GetStage(board, Human, Handed);
    if conv !in s.cards then (s, Invalid)
    else if s.cards[conv].entry.Some? && handed == Some(s.cards[conv].stage) then (s, Existing)
    else if validated != Some(s.cards[conv].stage) then (s, Invalid)
    else if !OneEntryService(s, s.cards[conv]) || handed.None? then (s, Invalid)
    else
      var planned := PlanFor(s, s.cards[conv], now);
      if planned.plan.blockedBy.Some? then (s, Invalid)
      else ButtonPressed(board, s, conv, handed.value, user, planned, world)
  }

  function ButtonPressed(board: Table, s: State, conv: ConvId, handed: StageId, user: UserId, planned: Planned,
                         world: World): (State, Button)
    requires conv in s.cards
  {
    if world.main != Delivered then (if world.kept then Issued(s, conv, planned.event) else s, Unsent)
    else
      var sent := SentMain(s, conv, planned, world);
      var (moved, result) := MovedCard(board, sent, conv, handed, Operator(user));
      if result == MoveOk then (moved, Generated)
      else (if world.kept then sent else s.(log := sent.log), Unsent)
  }

  // ---------------------------------------------------------------- triggers

  function Dragged(board: Table, s: State, conv: ConvId, to: StageId, user: UserId, now: int, world: World): State {
    var (moved, result) := MovedCard(board, s, conv, to, Operator(user));
    if result == MoveOk && to < |board| && board[to].kind == Human && board[to].name == PaymentValidated
    then DeliveredTo(board, moved, conv, now, world).0 else moved
  }

  /** The card waits in the postsale pipeline for its payment to be validated. */
  predicate AwaitsPayment(board: Table, s: State, conv: ConvId) {
    conv in s.cards && GetStage(board, Human, PaymentValidation) == Some(s.cards[conv].stage)
  }

  /** The notices of a receipt that passed its checks. */
  function Approval(flags: seq<Flag>): seq<Flag> {
    Added(Removed(flags, {ReceiptReview}), [PaymentUnconfirmed])
  }

  /** The system validates the payment: the notices of the card, then the move when the board has the stage. */
  function Validated(board: Table, s: State, conv: ConvId): (r: (State, bool)) {
    if !AwaitsPayment(board, s, conv) then (s, false)
    else
      var flagged := WithFlags(s, conv, Approval(s.cards[conv].flags));
      var target := GetStage(board, Human, PaymentValidated);
      if target.None? then (flagged, false)
      else
        var (moved, result) := MovedCard(board, flagged, conv, target.value, System);
        (moved, result == MoveOk)
  }

  /** A receipt that passed its checks validates the payment, and the delivery follows. */
  function Approved(board: Table, s: State, conv: ConvId, now: int, world: World): State {
    var (validated, ok) := Validated(board, s, conv);
    if ok then DeliveredTo(board, validated, conv, now, world).0 else validated
  }

  function Retried(board: Table, s: State, conv: ConvId, now: int, world: World): State {
    if conv in s.cards && DeliveryPending in Known(s.cards[conv].flags) then DeliveredTo(board, s, conv, now, world).0 else s
  }

  /** A card that waits for a date or for a seat. */
  predicate Waits(card: Card) {
    NoEvent in Known(card.flags) || CapacityFull in Known(card.flags)
  }

  function RetriedAll(board: Table, s: State, waiting: seq<ConvId>, now: int, worlds: ConvId -> World): State
    decreases |waiting|
  {
    if waiting == [] then s
    else
      var before := RetriedAll(board, s, waiting[..|waiting| - 1], now, worlds);
      var conv := waiting[|waiting| - 1];
      if conv in before.cards && Waits(before.cards[conv]) then DeliveredTo(board, before, conv, now, worlds(conv)).0
      else before
  }

  // ---------------------------------------------------------------- the environment

  function Revoked(s: State, conv: ConvId): State {
    if conv in s.cards && s.cards[conv].entry.Some? then
      WithCard(s, conv, s.cards[conv].(entry := Some(s.cards[conv].entry.value.(revoked := true))))
    else s
  }

  predicate StartsWith(text: string, prefix: string) {
    prefix <= text
  }

  /** The venue of a request after its validator: trimmed, blank as none, a web address or refused. */
  function CheckedVenue(raw: string): Option<string> {
    var cleaned := Strip(raw);
    if cleaned == "" then Some("")
    else if StartsWith(cleaned, "http://") || StartsWith(cleaned, "https://") then Some(cleaned)
    else None
  }

  /** The request passes the schema: no capacity or a positive one, and a venue that may be stored. */
  predicate Admissible(event: Event) {
    event.capacity != Some(0) && CheckedVenue(event.mapsUrl).Some?
  }

  function Cleaned(event: Event): Event
    requires Admissible(event)
  {
    event.(mapsUrl := CheckedVenue(event.mapsUrl).value)
  }

  function EventAdded(s: State, event: Event): State {
    if Admissible(event)
    then s.(events := s.events + [Cleaned(event).(id := s.nextEvent)], nextEvent := s.nextEvent + 1) else s
  }

  function EventEdited(s: State, event: Event): State {
    if Admissible(event) then s.(events := EventReplaced(s.events, Cleaned(event))) else s
  }

  function EventReplaced(events: seq<Event>, event: Event): seq<Event> {
    seq(|events|, i requires 0 <= i < |events| => if events[i].id == event.id then event else events[i])
  }

  function EventsWithout(events: seq<Event>, id: EventId): seq<Event> {
    if events == [] then []
    else if events[0].id == id then EventsWithout(events[1..], id)
    else [events[0]] + EventsWithout(events[1..], id)
  }

  function Unbound(card: Card, id: EventId): Card {
    if card.entry.Some? && card.entry.value.event == Some(id) then card.(entry := Some(card.entry.value.(event := None)))
    else card
  }

  /** Deleting an event leaves its entries without event. */
  function EventDropped(s: State, id: EventId): State {
    s.(events := EventsWithout(s.events, id),
       cards := map conv | conv in s.cards :: Unbound(s.cards[conv], id))
  }
}
