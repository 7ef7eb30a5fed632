/**
 * What holds over every run of the CRM: histories of moves, closed conversations, the ratchet
 * of the postsale pipeline, and deliveries that move a card only after reaching the lead.
 */
module CrmRuns {
  import opened Wrappers
  import opened Board
  import opened CardFlags
  import opened Crm
  import Funnel

  /** Everything that may happen, in any order. */
  datatype Action =
    | Sync(conv: ConvId)
    | Drag(conv: ConvId, to: StageId, user: UserId, now: int, world: World)
    | SetAi(conv: ConvId, active: bool)
    | Create(phone: Phone, fullName: Option<string>, user: UserId)
    | Delete(conv: ConvId)
    | Deliver(conv: ConvId, now: int, world: World)
    | Retry(conv: ConvId, now: int, world: World)
    | RetryForEvent(waiting: seq<ConvId>, now: int, worlds: ConvId -> World)
    | Approve(conv: ConvId, now: int, world: World)
    | Press(conv: ConvId, user: UserId, now: int, world: World)
    | Revoke(conv: ConvId)
    | AddEvent(event: Event)
    | EditEvent(event: Event)
    | DropEvent(id: EventId)
    | Write(phone: Phone)
    | EndTurn(conv: ConvId, funnel: Funnel.Stage, active: bool, reason: string)
    | Assign(conv: ConvId, services: seq<ServiceId>)
    | Stock(catalogue: map<ServiceId, Service>)
    | Rename(conv: ConvId, fullName: Option<string>)
    | Annotate(conv: ConvId, flags: seq<Flag>)

  /** Steps that touch conversations, entries, the catalogue or the agenda, but not where cards stand. */
  predicate Environment(a: Action) {
    OfConversation(a) || OfCard(a) || OfAgenda(a)
  }

  predicate OfConversation(a: Action) {
    a.SetAi? || a.Write? || a.EndTurn? || a.Rename?
  }

  predicate OfCard(a: Action) {
    a.Revoke? || a.Assign? || a.Annotate?
  }

  predicate OfAgenda(a: Action) {
    a.AddEvent? || a.EditEvent? || a.DropEvent? || a.Stock?
  }

  function OnConversation(s: State, a: Action): State {
    match a
    case SetAi(conv, active) => AiSet(s, conv, active)
    case Write(phone) => OpenConv(s, phone, None).0
    case EndTurn(conv, funnel, active, reason) =>
      if conv < |s.convs| then WithConv(s, conv, s.convs[conv].(funnel := funnel, active := active, reason := reason)) else s
    case Rename(conv, fullName) =>
      if conv < |s.convs| then WithConv(s, conv, s.convs[conv].(fullName := fullName)) else s
    case _ => s
  }

  function OnCard(s: State, a: Action): State {
    match a
    case Revoke(conv) => Revoked(s, conv)
    case Assign(conv, services) =>
      if conv in s.cards then WithCard(s, conv, s.cards[conv].(services := services)) else s
    case Annotate(conv, flags) =>
      if conv in s.cards then WithFlags(s, conv, flags) else s
    case _ => s
  }

  function OnAgenda(s: State, a: Action): State {
    match a
    case AddEvent(event) => EventAdded(s, event)
    case EditEvent(event) => EventEdited(s, event)
    case DropEvent(id) => EventDropped(s, id)
    case Stock(catalogue) => s.(catalogue := catalogue)
    case _ => s
  }

  function OnBoard(board: Table, s: State, a: Action): State {
    match a
    case Sync(conv) => Synced(board, s, conv)
    case Drag(conv, to, user, now, world) => Dragged(board, s, conv, to, user, now, world)
    case Create(phone, fullName, user) => Created(board, s, phone, fullName, user)
    case Delete(conv) => Deleted(s, conv)
    case Deliver(conv, now, world) => DeliveredTo(board, s, conv, now, world).0
    case Retry(conv, now, world) => Retried(board, s, conv, now, world)
    case RetryForEvent(waiting, now, worlds) => RetriedAll(board, s, waiting, now, worlds)
    case Approve(conv, now, world) => Approved(board, s, conv, now, world)
    case Press(conv, user, now, world) => EntryGenerated(board, s, conv, user, now, world).0
    case _ => s
  }

  function Do(board: Table, s: State, a: Action): State {
    if OfConversation(a) then OnConversation(s, a)
    else if OfCard(a) then OnCard(s, a)
    else if OfAgenda(a) then OnAgenda(s, a)
    else OnBoard(board, s, a)
  }

  function Empty(catalogue: map<ServiceId, Service>): State {
    State([], map[], catalogue, [], map[], 0, 0, [])
  }

  function Exec(board: Table, s: State, run: seq<Action>): State
    decreases |run|
  {
    if run == [] then s else Do(board, Exec(board, s, run[..|run| - 1]), run[|run| - 1])
  }

  lemma OneMore(board: Table, s: State, run: seq<Action>, a: Action)
    ensures Exec(board, s, run + [a]) == Do(board, Exec(board, s, run), a)
  {
    assert (run + [a])[..|run|] == run;
  }

  // ---------------------------------------------------------------- the invariant of a card

  /** The history is a connected path that ends where the card is. */
  predicate Connected(card: Card) {
    && card.moves != []
    && card.moves[0].from == None
    && (forall i :: 0 < i < |card.moves| ==> card.moves[i].from == Some(card.moves[i - 1].to))
    && (forall i :: 0 < i < |card.moves| ==> card.moves[i].to != card.moves[i - 1].to)
    && card.moves[|card.moves| - 1].to == card.stage
  }

  predicate CardOk(board: Table, s: State, conv: ConvId)
    requires conv in s.cards
  {
    && conv < |s.convs|
    && s.cards[conv].stage < |board|
    && Connected(s.cards[conv])
    && (s.convs[conv].closed <==> board[s.cards[conv].stage].status != Open)
  }

  predicate CardsOk(board: Table, s: State) {
    forall conv <- s.cards :: CardOk(board, s, conv)
  }

  /** Nothing the board shows changed. */
  predicate SameBoard(s: State, t: State) {
    && t.cards.Keys == s.cards.Keys
    && (forall conv <- s.cards :: t.cards[conv].stage == s.cards[conv].stage && t.cards[conv].moves == s.cards[conv].moves)
    && |t.convs| >= |s.convs|
    && (forall conv :: 0 <= conv < |s.convs| ==> t.convs[conv].closed == s.convs[conv].closed)
  }

  lemma SameBoardKeepsOk(board: Table, s: State, t: State)
    requires CardsOk(board, s) && SameBoard(s, t)
    ensures CardsOk(board, t)
  {
    forall conv <- t.cards ensures CardOk(board, t, conv) {
      assert CardOk(board, s, conv);
    }
  }

  lemma PlaceKeepsOk(board: Table, s: State, conv: ConvId, to: StageId, mover: Mover)
    requires CardsOk(board, s) && conv in s.cards && to < |board| && to != s.cards[conv].stage
    ensures CardsOk(board, Place(board, s, conv, to, mover))
  {
    var t := Place(board, s, conv, to, mover);
    assert CardOk(board, s, conv);
    forall c <- t.cards ensures CardOk(board, t, c) {
      assert CardOk(board, s, c);
    }
  }

  lemma NewCardKeepsOk(board: Table, s: State, conv: ConvId, to: StageId, mover: Mover)
    requires CardsOk(board, s) && conv < |s.convs| && conv !in s.cards && to < |board|
    ensures CardsOk(board, CloseAccordingTo(NewCard(s, conv, to, mover), conv, board[to].status))
  {
    var t := CloseAccordingTo(NewCard(s, conv, to, mover), conv, board[to].status);
    forall c <- t.cards ensures CardOk(board, t, c) {
      assert c != conv ==> CardOk(board, s, c);
    }
  }

  lemma SyncKeepsOk(board: Table, s: State, conv: ConvId)
    requires CardsOk(board, s)
    ensures CardsOk(board, Synced(board, s, conv))
  {
    if conv < |s.convs| {
      var (kind, name) := TargetStage(s.convs[conv]);
      var target := GetStage(board, kind, name);
      if target.Some? {
        if conv !in s.cards {
          NewCardKeepsOk(board, s, conv, target.value, Agent);
        } else if s.cards[conv].stage != target.value {
          PlaceKeepsOk(board, s, conv, target.value, Agent);
        }
      }
    }
  }

  lemma MoveKeepsOk(board: Table, s: State, conv: ConvId, to: StageId, mover: Mover)
    requires CardsOk(board, s)
    ensures CardsOk(board, MovedCard(board, s, conv, to, mover).0)
  {
    if conv in s.cards && to < |board| && s.cards[conv].stage != to {
      var placed := Place(board, s, conv, to, mover);
      PlaceKeepsOk(board, s, conv, to, mover);
      if conv < |placed.convs| {
        SameBoardKeepsOk(board, placed, WithContact(placed, conv));
      }
    }
  }

  // ---------------------------------------------------------------- deliveries, step by step

  lemma SendingShowsNothing(s: State, conv: ConvId, planned: Planned, world: World)
    requires conv in s.cards
    ensures SameBoard(s, SentMain(s, conv, planned, world)) && SameBoard(s, Issued(s, conv, planned.event))
  {
  }

  lemma NoticeShowsNothing(s: State, conv: ConvId, result: NoticeResult)
    ensures SameBoard(s, Noticed(s, conv, result))
  {
  }

  lemma FlagsKeepOk(board: Table, s: State, conv: ConvId, flags: seq<Flag>)
    requires CardsOk(board, s) && conv in s.cards
    ensures CardsOk(board, WithFlags(s, conv, flags))
  {
    SameBoardKeepsOk(board, s, WithFlags(s, conv, flags));
  }

  lemma ConcludeKeepsOk(board: Table, s: State, conv: ConvId, warnings: seq<Flag>)
    requires CardsOk(board, s) && conv in s.cards
    ensures CardsOk(board, Concluded(board, s, conv, warnings).0)
  {
    var won := StageByStatus(board, Human, Won);
    if won.Some? {
      MoveKeepsOk(board, s, conv, won.value, System);
      FlagsKeepOk(board, s, conv, Added(s.cards[conv].flags, [NeedsName]));
    }
  }

  lemma AdvanceKeepsOk(board: Table, s: State, conv: ConvId, handed: StageId, warnings: seq<Flag>)
    requires CardsOk(board, s) && conv in s.cards && handed < |board|
    ensures CardsOk(board, Advanced(board, s, conv, handed, warnings).0)
  {
    var (moved, result) := MovedCard(board, s, conv, handed, System);
    MoveKeepsOk(board, s, conv, handed, System);
    if result == MoveOk {
      MovedKeepsCards(board, s, conv, handed, System);
      var flagged := WithFlags(moved, conv, DeliveryReplaced(moved.cards[conv].flags, warnings));
      FlagsKeepOk(board, moved, conv, DeliveryReplaced(moved.cards[conv].flags, warnings));
      ConcludeKeepsOk(board, flagged, conv, warnings);
    }
  }

  lemma HoldKeepsOk(board: Table, s: State, conv: ConvId, flag: Flag)
    requires CardsOk(board, s) && conv in s.cards
    ensures CardsOk(board, HeldBy(s, conv, flag).0)
  {
    FlagsKeepOk(board, s, conv, DeliveryReplaced(s.cards[conv].flags, [flag]));
  }

  lemma LogKeepsOk(board: Table, s: State, h: Happening)
    requires CardsOk(board, s)
    ensures CardsOk(board, Logged(s, h))
  {
    SameBoardKeepsOk(board, s, Logged(s, h));
  }

  lemma TemplateKeepsOk(board: Table, s: State, conv: ConvId, handed: StageId, warnings: seq<Flag>)
    requires CardsOk(board, s) && conv in s.cards && handed < |board|
    ensures CardsOk(board, Advanced(board, Logged(s, Sent(conv, EntryTemplate(TokenOf(s, conv)))), conv, handed, warnings).0)
  {
    var h := Sent(conv, EntryTemplate(TokenOf(s, conv)));
    LogKeepsOk(board, s, h);
    AdvanceKeepsOk(board, Logged(s, h), conv, handed, warnings);
  }

  lemma SendKeepsOk(board: Table, s: State, conv: ConvId, planned: Planned, world: World)
    requires CardsOk(board, s) && conv in s.cards
    ensures conv in SentMain(s, conv, planned, world).cards
    ensures CardsOk(board, SentMain(s, conv, planned, world))
    ensures CardsOk(board, Issued(s, conv, planned.event))
    ensures CardsOk(board, s.(log := SentMain(s, conv, planned, world).log))
  {
    var sent := SentMain(s, conv, planned, world);
    SendingShowsNothing(s, conv, planned, world);
    SameBoardKeepsOk(board, s, sent);
    SameBoardKeepsOk(board, s, Issued(s, conv, planned.event));
    SameBoardKeepsOk(board, s, s.(log := sent.log));
  }

  lemma OutsideKeepsOk(board: Table, s: State, conv: ConvId, handed: StageId, planned: Planned, world: World)
    requires CardsOk(board, s) && conv in s.cards && handed < |board| && world.main == OutsideWindow
    ensures CardsOk(board, Shipped(board, s, conv, handed, planned, world).0)
  {
    var sent := SentMain(s, conv, planned, world);
    SendKeepsOk(board, s, conv, planned, world);
    if !planned.plan.needsEntry || planned.event.None? || world.template == OutsideWindow {
      HoldKeepsOk(board, sent, conv, DeliveryPending);
    } else if world.template == SendResult.Delivered {
      TemplateKeepsOk(board, sent, conv, handed, planned.plan.warnings);
    }
  }

  lemma ShipKeepsOk(board: Table, s: State, conv: ConvId, handed: StageId, planned: Planned, world: World)
    requires CardsOk(board, s) && conv in s.cards && handed < |board|
    ensures CardsOk(board, Shipped(board, s, conv, handed, planned, world).0)
  {
    if world.main == OutsideWindow {
      OutsideKeepsOk(board, s, conv, handed, planned, world);
    } else {
      SendKeepsOk(board, s, conv, planned, world);
      if world.main == SendResult.Delivered {
        AdvanceKeepsOk(board, SentMain(s, conv, planned, world), conv, handed, planned.plan.warnings);
      }
    }
  }

  lemma BlockKeepsOk(board: Table, s: State, conv: ConvId, result: NoticeResult, flag: Flag)
    requires CardsOk(board, s) && conv in s.cards
    ensures CardsOk(board, Noticed(s, conv, result))
    ensures CardsOk(board, HeldBy(Noticed(s, conv, result), conv, flag).0)
  {
    var told := Noticed(s, conv, result);
    NoticeShowsNothing(s, conv, result);
    SameBoardKeepsOk(board, s, told);
    HoldKeepsOk(board, told, conv, flag);
  }

  lemma ExecutionKeepsOk(board: Table, s: State, conv: ConvId, handed: StageId, planned: Planned, world: World)
    requires CardsOk(board, s) && conv in s.cards && handed < |board|
    ensures CardsOk(board, Executed(board, s, conv, handed, planned, world).0)
  {
    if planned.plan.blockedBy.Some? {
      BlockKeepsOk(board, s, conv, world.notice, planned.plan.blockedBy.value);
    } else {
      ShipKeepsOk(board, s, conv, handed, planned, world);
    }
  }

  lemma DeliverKeepsOk(board: Table, s: State, conv: ConvId, now: int, world: World)
    requires CardsOk(board, s)
    ensures CardsOk(board, DeliveredTo(board, s, conv, now, world).0)
  {
    var handed := GetStage(board, Human, Handed);
    if conv in s.cards && handed.Some? {
      ExecutionKeepsOk(board, s, conv, handed.value, PlanFor(s, s.cards[conv], now), world);
    }
  }

  lemma {:induction false} RetriesKeepOk(board: Table, s: State, waiting: seq<ConvId>, now: int, worlds: ConvId -> World)
    requires CardsOk(board, s)
    ensures CardsOk(board, RetriedAll(board, s, waiting, now, worlds))
    decreases |waiting|
  {
    if waiting != [] {
      var conv := waiting[|waiting| - 1];
      RetriesKeepOk(board, s, waiting[..|waiting| - 1], now, worlds);
      DeliverKeepsOk(board, RetriedAll(board, s, waiting[..|waiting| - 1], now, worlds), conv, now, worlds(conv));
    }
  }

  lemma ButtonKeepsOk(board: Table, s: State, conv: ConvId, handed: StageId, user: UserId, planned: Planned, world: World)
    requires CardsOk(board, s) && conv in s.cards
    ensures CardsOk(board, ButtonPressed(board, s, conv, handed, user, planned, world).0)
  {
    SendKeepsOk(board, s, conv, planned, world);
    MoveKeepsOk(board, SentMain(s, conv, planned, world), conv, handed, Operator(user));
  }

  lemma PressKeepsOk(board: Table, s: State, conv: ConvId, user: UserId, now: int, world: World)
    requires CardsOk(board, s)
    ensures CardsOk(board, EntryGenerated(board, s, conv, user, now, world).0)
  {
    var handed := GetStage(board, Human, Handed);
    if conv in s.cards && handed.Some? {
      ButtonKeepsOk(board, s, conv, handed.value, user, PlanFor(s, s.cards[conv], now), world);
    }
  }

  lemma OpenShowsNothing(s: State, phone: Phone, fullName: Option<string>)
    ensures SameBoard(s, OpenConv(s, phone, fullName).0)
    ensures var (t, conv) := OpenConv(s, phone, fullName); !t.convs[conv].closed
  {
  }

  lemma OpenCardKeepsOk(board: Table, s: State, conv: ConvId, to: StageId, mover: Mover)
    requires CardsOk(board, s) && conv < |s.convs| && conv !in s.cards && to < |board|
    requires !s.convs[conv].closed
    ensures CardsOk(board, NewCard(s, conv, to, mover)) <==> board[to].status == Open
  {
    var t := NewCard(s, conv, to, mover);
    assert CardOk(board, t, conv) <==> board[to].status == Open;
    forall c <- t.cards ensures c != conv ==> CardOk(board, t, c) {
      assert c != conv ==> CardOk(board, s, c);
    }
  }

  lemma CreateKeepsOk(board: Table, s: State, phone: Phone, fullName: Option<string>, user: UserId)
    requires CardsOk(board, s) && SaleStartsOpen(board)
    ensures CardsOk(board, Created(board, s, phone, fullName, user))
  {
    var first := FirstStage(board, Ia);
    if first.Some? {
      var (base, conv) := OpenConv(s, phone, fullName);
      OpenShowsNothing(s, phone, fullName);
      SameBoardKeepsOk(board, s, base);
      if conv !in base.cards {
        OpenCardKeepsOk(board, base, conv, first.value, Operator(user));
      }
    }
  }

  lemma DeleteKeepsOk(board: Table, s: State, conv: ConvId)
    requires CardsOk(board, s)
    ensures CardsOk(board, Deleted(s, conv))
  {
    var t := Deleted(s, conv);
    forall c <- t.cards ensures CardOk(board, t, c) {
      assert CardOk(board, s, c);
    }
  }

  lemma ConversationShowsNothing(s: State, a: Action)
    ensures SameBoard(s, OnConversation(s, a)) && OnConversation(s, a).log == s.log
  {
    if a.Write? {
      OpenShowsNothing(s, a.phone, None);
    }
  }

  lemma CardShowsNothing(s: State, a: Action)
    ensures SameBoard(s, OnCard(s, a)) && OnCard(s, a).log == s.log
  {
  }

  lemma AgendaShowsNothing(s: State, a: Action)
    ensures SameBoard(s, OnAgenda(s, a)) && OnAgenda(s, a).log == s.log
  {
  }

  /** The remaining steps show nothing on the board. */
  lemma EnvironmentShowsNothing(board: Table, s: State, a: Action)
    requires Environment(a)
    ensures SameBoard(s, Do(board, s, a)) && Do(board, s, a).log == s.log
  {
    ConversationShowsNothing(s, a);
    CardShowsNothing(s, a);
    AgendaShowsNothing(s, a);
  }

  lemma DragKeepsOk(board: Table, s: State, conv: ConvId, to: StageId, user: UserId, now: int, world: World)
    requires CardsOk(board, s)
    ensures CardsOk(board, Dragged(board, s, conv, to, user, now, world))
  {
    MoveKeepsOk(board, s, conv, to, Operator(user));
    DeliverKeepsOk(board, MovedCard(board, s, conv, to, Operator(user)).0, conv, now, world);
  }

  lemma ApproveKeepsOk(board: Table, s: State, conv: ConvId, now: int, world: World)
    requires CardsOk(board, s)
    ensures CardsOk(board, Validated(board, s, conv).0)
    ensures CardsOk(board, Approved(board, s, conv, now, world))
  {
    if AwaitsPayment(board, s, conv) {
      var flagged := WithFlags(s, conv, Approval(s.cards[conv].flags));
      FlagsKeepOk(board, s, conv, Approval(s.cards[conv].flags));
      var target := GetStage(board, Human, PaymentValidated);
      if target.Some? {
        MoveKeepsOk(board, flagged, conv, target.value, System);
      }
    }
    DeliverKeepsOk(board, Validated(board, s, conv).0, conv, now, world);
  }

  lemma BoardKeepsOk(board: Table, s: State, a: Action)
    requires CardsOk(board, s) && SaleStartsOpen(board)
    ensures CardsOk(board, OnBoard(board, s, a))
  {
    match a
    case Sync(conv) => SyncKeepsOk(board, s, conv);
    case Drag(conv, to, user, now, world) => DragKeepsOk(board, s, conv, to, user, now, world);
    case Create(phone, fullName, user) => CreateKeepsOk(board, s, phone, fullName, user);
    case Delete(conv) => DeleteKeepsOk(board, s, conv);
    case Deliver(conv, now, world) => DeliverKeepsOk(board, s, conv, now, world);
    case Retry(conv, now, world) => DeliverKeepsOk(board, s, conv, now, world);
    case RetryForEvent(waiting, now, worlds) => RetriesKeepOk(board, s, waiting, now, worlds);
    case Approve(conv, now, world) => ApproveKeepsOk(board, s, conv, now, world);
    case Press(conv, user, now, world) => PressKeepsOk(board, s, conv, user, now, world);
    case _ =>
  }

  lemma StepKeepsCardsOk(board: Table, s: State, a: Action)
    requires CardsOk(board, s) && SaleStartsOpen(board)
    ensures CardsOk(board, Do(board, s, a))
  {
    if Environment(a) {
      EnvironmentShowsNothing(board, s, a);
      SameBoardKeepsOk(board, s, Do(board, s, a));
    } else {
      BoardKeepsOk(board, s, a);
    }
  }

  /**
   * Over any run from an empty board whose sale starts open: every card's history is a
   * connected path ending at its stage, and its conversation is closed exactly while it
   * stands in a won or lost stage.
   */
  lemma {:induction false} RunsKeepCardsOk(board: Table, catalogue: map<ServiceId, Service>, run: seq<Action>)
    requires SaleStartsOpen(board)
    ensures CardsOk(board, Exec(board, Empty(catalogue), run))
    decreases |run|
  {
    if run != [] {
      RunsKeepCardsOk(board, catalogue, run[..|run| - 1]);
      StepKeepsCardsOk(board, Exec(board, Empty(catalogue), run[..|run| - 1]), run[|run| - 1]);
    }
  }

  /** Creating an opportunity is the one step that needs the sale to start open, and it needs it exactly. */
  lemma CreationClosesExactly(board: Table, s: State, phone: Phone, fullName: Option<string>, user: UserId)
    requires CardsOk(board, s) && FirstStage(board, Ia).Some?
    requires OpenConv(s, phone, fullName).1 !in s.cards
    ensures CardsOk(board, Created(board, s, phone, fullName, user)) <==> SaleStartsOpen(board)
  {
    var (base, conv) := OpenConv(s, phone, fullName);
    OpenShowsNothing(s, phone, fullName);
    SameBoardKeepsOk(board, s, base);
    OpenCardKeepsOk(board, base, conv, FirstStage(board, Ia).value, Operator(user));
  }
}
