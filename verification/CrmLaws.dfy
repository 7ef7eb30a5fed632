/** Laws of single operations of the CRM: what repeating one does, and what one undoes of another. */
module CrmLaws {
  import opened Wrappers
  import opened Text
  import opened Board
  import opened CardFlags
  import opened Crm
  import opened CrmRuns
  import opened CrmDelivery
  import opened CrmEntries
  import Delivery
  import Funnel

  // ---------------------------------------------------------------- projection

  /** Reconciling twice is reconciling once. */
  lemma SyncIsIdempotent(board: Table, s: State, conv: ConvId)
    ensures Synced(board, Synced(board, s, conv), conv) == Synced(board, s, conv)
  {
    if conv < |s.convs| {
      var (kind, name) := TargetStage(s.convs[conv]);
      var target := GetStage(board, kind, name);
      var t := Synced(board, s, conv);
      assert TargetStage(t.convs[conv]) == (kind, name);
    }
  }

  /** The conversation exists and the board has the stage it calls for. */
  predicate HasTarget(board: Table, s: State, conv: ConvId) {
    conv < |s.convs| && GetStage(board, TargetStage(s.convs[conv]).0, TargetStage(s.convs[conv]).1).Some?
  }

  function TargetOf(board: Table, s: State, conv: ConvId): (target: StageId)
    requires HasTarget(board, s, conv)
    ensures target < |board|
  {
    GetStage(board, TargetStage(s.convs[conv]).0, TargetStage(s.convs[conv]).1).value
  }

  /** The card's stage is the target, or stands at or beyond it in the postsale pipeline. */
  predicate StandsFor(board: Table, stood: StageId, target: StageId)
    requires target < |board|
  {
    stood == target || (stood < |board| && WouldRegress(board[stood], board[target]))
  }

  /** After reconciling, the card stands in the stage its conversation calls for, or further on in the postsale pipeline. */
  lemma SyncMirrors(board: Table, s: State, conv: ConvId)
    requires HasTarget(board, s, conv)
    ensures var t := Synced(board, s, conv);
            conv in t.cards && StandsFor(board, t.cards[conv].stage, TargetOf(board, s, conv))
  {
  }

  /** Turning the agent back on returns the lead to the sale, whatever the stage was. */
  lemma ReactivationReturnsToSale(s: State, conv: ConvId)
    requires conv < |s.convs|
    ensures TargetStage(AiSet(s, conv, true).convs[conv]).0 == Ia
    ensures TargetStage(AiSet(s, conv, false).convs[conv]).0 == Human
  {
  }

  // ---------------------------------------------------------------- manual opportunities

  lemma {:induction false} LatestAfterAppend(convs: seq<Conv>, c: Conv)
    ensures LatestOf(convs + [c], c.phone) == Some(|convs|)
  {
  }

  lemma {:induction false} LatestAfterEdit(convs: seq<Conv>, phone: Phone, conv: ConvId, c: Conv)
    requires conv < |convs| && c.phone == convs[conv].phone
    ensures LatestOf(convs[conv := c], phone) == LatestOf(convs, phone)
  {
    var last := |convs| - 1;
    if convs[last].phone != phone {
      if conv == last {
        assert convs[conv := c][..last] == convs[..last];
      } else {
        assert convs[conv := c][..last] == convs[..last][conv := c];
        LatestAfterEdit(convs[..last], phone, conv, c);
      }
    }
  }

  lemma OpenedIsLatest(s: State, phone: Phone, fullName: Option<string>)
    ensures var (t, conv) := OpenConv(s, phone, fullName);
            LatestOf(t.convs, phone) == Some(conv) && !t.convs[conv].closed
  {
    var latest := LatestOf(s.convs, phone);
    if latest.None? || s.convs[latest.value].closed {
      LatestAfterAppend(s.convs, FreshConv(phone, fullName));
    } else {
      LatestAfterEdit(s.convs, phone, latest.value, s.convs[latest.value].(fullName := fullName));
    }
  }

  /** An open conversation of the phone is reused. */
  lemma OpenIsReused(s: State, phone: Phone, fullName: Option<string>, conv: ConvId)
    requires LatestOf(s.convs, phone) == Some(conv) && !s.convs[conv].closed
    ensures var (t, reused) := OpenConv(s, phone, fullName);
            reused == conv && t.cards == s.cards && t.log == s.log && |t.convs| == |s.convs|
  {
  }

  lemma CreatedStands(board: Table, s: State, phone: Phone, fullName: Option<string>, user: UserId)
    requires FirstStage(board, Ia).Some?
    ensures var t, conv := Created(board, s, phone, fullName, user), OpenConv(s, phone, fullName).1;
            t.convs == OpenConv(s, phone, fullName).0.convs && conv in t.cards
  {
  }

  /** Afterwards the phone's latest conversation is open and on the board, and a name that was given is not missing. */
  lemma CreatedIsOnBoard(board: Table, s: State, phone: Phone, fullName: Option<string>, user: UserId)
    ensures FirstStage(board, Ia).Some? ==>
              var t := Created(board, s, phone, fullName, user);
              var latest := LatestOf(t.convs, phone);
              && latest.Some? && !t.convs[latest.value].closed && latest.value in t.cards
              && (!IsEmptyName(fullName) ==> !IsEmptyName(t.convs[latest.value].fullName))
  {
    if FirstStage(board, Ia).Some? {
      OpenedIsLatest(s, phone, fullName);
      CreatedStands(board, s, phone, fullName, user);
    }
  }

  /** Adding an opportunity twice for the same phone adds it once. */
  lemma CreationIsIdempotent(board: Table, s: State, phone: Phone, first: Option<string>, second: Option<string>,
                             user: UserId, other: UserId)
    ensures var once := Created(board, s, phone, first, user);
            var twice := Created(board, once, phone, second, other);
            twice.cards == once.cards && |twice.convs| == |once.convs| && twice.log == once.log
  {
    if FirstStage(board, Ia).Some? {
      var conv := OpenConv(s, phone, first).1;
      OpenedIsLatest(s, phone, first);
      CreatedStands(board, s, phone, first, user);
      OpenIsReused(Created(board, s, phone, first, user), phone, second, conv);
    }
  }

  // ---------------------------------------------------------------- deletion

  /** The opportunity is off the board and its conversation closed. */
  predicate Gone(s: State, conv: ConvId) {
    conv < |s.convs| && conv !in s.cards && s.convs[conv].closed
  }

  /** A reconciliation of this very conversation, with a stage to put it in. */
  predicate Resurrects(board: Table, s: State, a: Action, conv: ConvId) {
    a == Sync(conv) && HasTarget(board, s, conv)
  }

  lemma DeletionIsGone(s: State, conv: ConvId)
    requires conv in s.cards && conv < |s.convs|
    ensures Gone(Deleted(s, conv), conv)
  {
  }

  lemma DeletionOfValidIsGone(board: Table, s: State, conv: ConvId)
    requires CardsOk(board, s) && conv in s.cards
    ensures Gone(Deleted(s, conv), conv)
  {
    assert CardOk(board, s, conv);
    DeletionIsGone(s, conv);
  }

  /** While it is gone, the next message or opportunity of its phone opens, or finds, another conversation. */
  lemma NextIsAnother(s: State, conv: ConvId, fullName: Option<string>)
    requires Gone(s, conv)
    ensures OpenConv(s, s.convs[conv].phone, fullName).1 != conv
  {
  }

  /** The same cards but one, and every conversation but one as closed as it was. */
  predicate Elsewhere(s: State, t: State, touched: ConvId) {
    && t.cards.Keys == s.cards.Keys
    && (forall c <- s.cards :: c != touched ==> t.cards[c] == s.cards[c])
    && |t.convs| == |s.convs|
    && forall c :: 0 <= c < |s.convs| && c != touched ==> t.convs[c].closed == s.convs[c].closed
  }

  lemma MoveIsElsewhere(board: Table, s: State, conv: ConvId, to: StageId, mover: Mover)
    ensures Elsewhere(s, MovedCard(board, s, conv, to, mover).0, conv)
  {
  }

  lemma ConcludeIsElsewhere(board: Table, s: State, conv: ConvId, warnings: seq<Flag>)
    requires conv in s.cards
    ensures Elsewhere(s, Concluded(board, s, conv, warnings).0, conv)
  {
    var won := StageByStatus(board, Human, Won);
    if won.Some? {
      MoveIsElsewhere(board, s, conv, won.value, System);
    }
  }

  lemma AdvanceIsElsewhere(board: Table, s: State, conv: ConvId, handed: StageId, warnings: seq<Flag>)
    requires conv in s.cards && handed < |board|
    ensures Elsewhere(s, Advanced(board, s, conv, handed, warnings).0, conv)
  {
    var (moved, result) := MovedCard(board, s, conv, handed, System);
    MoveIsElsewhere(board, s, conv, handed, System);
    if result == MoveOk {
      var flagged := WithFlags(moved, conv, DeliveryReplaced(moved.cards[conv].flags, warnings));
      assert Elsewhere(moved, flagged, conv);
      ConcludeIsElsewhere(board, flagged, conv, warnings);
    }
  }

  lemma SendIsElsewhere(s: State, conv: ConvId, planned: Planned, world: World)
    requires conv in s.cards
    ensures Elsewhere(s, SentMain(s, conv, planned, world), conv)
  {
  }

  lemma HoldIsElsewhere(s: State, conv: ConvId, flag: Flag)
    requires conv in s.cards
    ensures Elsewhere(s, HeldBy(s, conv, flag).0, conv)
  {
    assert Elsewhere(s, WithFlags(s, conv, DeliveryReplaced(s.cards[conv].flags, [flag])), conv);
  }

  lemma ElsewhereTwice(s: State, mid: State, t: State, conv: ConvId)
    requires Elsewhere(s, mid, conv) && Elsewhere(mid, t, conv)
    ensures Elsewhere(s, t, conv)
  {
  }

  lemma TemplateIsElsewhere(board: Table, s: State, conv: ConvId, handed: StageId, planned: Planned, world: World)
    requires conv in s.cards && handed < |board| && world.main == OutsideWindow
    ensures Elsewhere(s, Shipped(board, s, conv, handed, planned, world).0, conv)
  {
    var sent := SentMain(s, conv, planned, world);
    SendIsElsewhere(s, conv, planned, world);
    if !planned.plan.needsEntry || planned.event.None? || world.template == OutsideWindow {
      HoldIsElsewhere(sent, conv, DeliveryPending);
      ElsewhereTwice(s, sent, HeldBy(sent, conv, DeliveryPending).0, conv);
    } else if world.template == SendResult.Delivered {
      var logged := Logged(sent, Sent(conv, EntryTemplate(TokenOf(sent, conv))));
      AdvanceIsElsewhere(board, logged, conv, handed, planned.plan.warnings);
      ElsewhereTwice(s, logged, Advanced(board, logged, conv, handed, planned.plan.warnings).0, conv);
    }
  }

  lemma ShipIsElsewhere(board: Table, s: State, conv: ConvId, handed: StageId, planned: Planned, world: World)
    requires conv in s.cards && handed < |board|
    ensures Elsewhere(s, Shipped(board, s, conv, handed, planned, world).0, conv)
  {
    if world.main == OutsideWindow {
      TemplateIsElsewhere(board, s, conv, handed, planned, world);
    } else {
      var sent := SentMain(s, conv, planned, world);
      SendIsElsewhere(s, conv, planned, world);
      if world.main == SendResult.Delivered {
        AdvanceIsElsewhere(board, sent, conv, handed, planned.plan.warnings);
        ElsewhereTwice(s, sent, Advanced(board, sent, conv, handed, planned.plan.warnings).0, conv);
      }
    }
  }

  lemma ExecutionIsElsewhere(board: Table, s: State, conv: ConvId, handed: StageId, planned: Planned, world: World)
    requires conv in s.cards && handed < |board|
    ensures Elsewhere(s, Executed(board, s, conv, handed, planned, world).0, conv)
  {
    if planned.plan.blockedBy.Some? {
      assert Elsewhere(s, Noticed(s, conv, world.notice), conv);
      HoldIsElsewhere(Noticed(s, conv, world.notice), conv, planned.plan.blockedBy.value);
    } else {
      ShipIsElsewhere(board, s, conv, handed, planned, world);
    }
  }

  /** A delivery touches no other card and closes no other conversation. */
  lemma DeliveryIsElsewhere(board: Table, s: State, conv: ConvId, now: int, world: World)
    ensures Elsewhere(s, DeliveredTo(board, s, conv, now, world).0, conv)
  {
    var handed := GetStage(board, Human, Handed);
    if conv in s.cards && handed.Some? {
      ExecutionIsElsewhere(board, s, conv, handed.value, PlanFor(s, s.cards[conv], now), world);
    }
  }

  /** Deliveries neither touch what is gone nor bring it back. */
  lemma DeliverKeepsGone(board: Table, s: State, conv: ConvId, now: int, world: World, gone: ConvId)
    requires Gone(s, gone)
    ensures Gone(DeliveredTo(board, s, conv, now, world).0, gone)
  {
    DeliveryIsElsewhere(board, s, conv, now, world);
  }

  lemma {:induction false} RetriesKeepGone(board: Table, s: State, waiting: seq<ConvId>, now: int, worlds: ConvId -> World, gone: ConvId)
    requires Gone(s, gone)
    ensures Gone(RetriedAll(board, s, waiting, now, worlds), gone)
    decreases |waiting|
  {
    if waiting != [] {
      var conv := waiting[|waiting| - 1];
      RetriesKeepGone(board, s, waiting[..|waiting| - 1], now, worlds, gone);
      DeliverKeepsGone(board, RetriedAll(board, s, waiting[..|waiting| - 1], now, worlds), conv, now, worlds(conv), gone);
    }
  }

  lemma ButtonKeepsGone(board: Table, s: State, conv: ConvId, handed: StageId, user: UserId, planned: Planned, world: World, gone: ConvId)
    requires Gone(s, gone) && conv in s.cards
    ensures Gone(ButtonPressed(board, s, conv, handed, user, planned, world).0, gone)
  {
    var sent := SentMain(s, conv, planned, world);
    SendIsElsewhere(s, conv, planned, world);
    MoveIsElsewhere(board, sent, conv, handed, Operator(user));
  }

  lemma PressKeepsGone(board: Table, s: State, conv: ConvId, user: UserId, now: int, world: World, gone: ConvId)
    requires Gone(s, gone)
    ensures Gone(EntryGenerated(board, s, conv, user, now, world).0, gone)
  {
    var handed := GetStage(board, Human, Handed);
    if conv in s.cards && handed.Some? {
      ButtonKeepsGone(board, s, conv, handed.value, user, PlanFor(s, s.cards[conv], now), world, gone);
    }
  }

  lemma CreateKeepsGone(board: Table, s: State, phone: Phone, fullName: Option<string>, user: UserId, gone: ConvId)
    requires Gone(s, gone)
    ensures Gone(OpenConv(s, phone, fullName).0, gone) && OpenConv(s, phone, fullName).1 != gone
    ensures Gone(Created(board, s, phone, fullName, user), gone)
  {
  }

  lemma SyncGoneExactly(board: Table, s: State, conv: ConvId, gone: ConvId)
    requires Gone(s, gone)
    ensures Gone(Synced(board, s, conv), gone) <==> !Resurrects(board, s, Sync(conv), gone)
  {
  }

  lemma EnvironmentKeepsGone(board: Table, s: State, a: Action, gone: ConvId)
    requires Environment(a) && Gone(s, gone)
    ensures Gone(Do(board, s, a), gone)
  {
    EnvironmentShowsNothing(board, s, a);
  }

  lemma DragKeepsGone(board: Table, s: State, conv: ConvId, to: StageId, user: UserId, now: int, world: World, gone: ConvId)
    requires Gone(s, gone)
    ensures Gone(Dragged(board, s, conv, to, user, now, world), gone)
  {
    MoveIsElsewhere(board, s, conv, to, Operator(user));
    DeliverKeepsGone(board, MovedCard(board, s, conv, to, Operator(user)).0, conv, now, world, gone);
  }

  lemma ValidationIsElsewhere(board: Table, s: State, conv: ConvId)
    ensures Elsewhere(s, Validated(board, s, conv).0, conv)
  {
    var target := GetStage(board, Human, PaymentValidated);
    if AwaitsPayment(board, s, conv) && target.Some? {
      MoveIsElsewhere(board, WithFlags(s, conv, Approval(s.cards[conv].flags)), conv, target.value, System);
    }
  }

  lemma ApproveKeepsGone(board: Table, s: State, conv: ConvId, now: int, world: World, gone: ConvId)
    requires Gone(s, gone)
    ensures Gone(Approved(board, s, conv, now, world), gone)
  {
    var validated := Validated(board, s, conv).0;
    ValidationIsElsewhere(board, s, conv);
    assert Gone(validated, gone) by {
      assert conv !in s.cards ==> validated == s;
    }
    DeliverKeepsGone(board, validated, conv, now, world, gone);
  }

  /** What such a reconciliation brings back: the card, and the conversation as open as the stage. */
  lemma SyncBringsBack(board: Table, s: State, conv: ConvId)
    requires Gone(s, conv) && Resurrects(board, s, Sync(conv), conv)
    ensures var t := Synced(board, s, conv);
            && conv in t.cards && t.cards[conv].stage < |board|
            && (t.convs[conv].closed <==> board[t.cards[conv].stage].status != Open)
  {
  }

  /**
   * Exactly which steps bring a deleted opportunity back: a reconciliation of its conversation that
   * has a stage for it, which then has the card, and the conversation as open as that stage.
   */
  lemma GoneExactly(board: Table, s: State, a: Action, gone: ConvId)
    requires Gone(s, gone)
    ensures Gone(Do(board, s, a), gone) <==> !Resurrects(board, s, a, gone)
    ensures Resurrects(board, s, a, gone) ==>
              var t := Do(board, s, a);
              && gone in t.cards && t.cards[gone].stage < |board|
              && (t.convs[gone].closed <==> board[t.cards[gone].stage].status != Open)
  {
    if Resurrects(board, s, a, gone) {
      SyncBringsBack(board, s, gone);
    }
    if Environment(a) {
      EnvironmentKeepsGone(board, s, a, gone);
    } else {
      BoardGoneExactly(board, s, a, gone);
    }
  }

  lemma BoardGoneExactly(board: Table, s: State, a: Action, gone: ConvId)
    requires Gone(s, gone) && !Environment(a)
    ensures Gone(OnBoard(board, s, a), gone) <==> !Resurrects(board, s, a, gone)
  {
    match a
    case Sync(conv) => SyncGoneExactly(board, s, conv, gone);
    case Create(phone, fullName, user) => CreateKeepsGone(board, s, phone, fullName, user, gone);
    case Drag(conv, to, user, now, world) => DragKeepsGone(board, s, conv, to, user, now, world, gone);
    case Deliver(conv, now, world) => DeliverKeepsGone(board, s, conv, now, world, gone);
    case Retry(conv, now, world) => DeliverKeepsGone(board, s, conv, now, world, gone);
    case RetryForEvent(waiting, now, worlds) => RetriesKeepGone(board, s, waiting, now, worlds, gone);
    case Approve(conv, now, world) => ApproveKeepsGone(board, s, conv, now, world, gone);
    case Press(conv, user, now, world) => PressKeepsGone(board, s, conv, user, now, world, gone);
    case _ =>
  }

  /** Gone at every point of the run. */
  predicate StaysGone(board: Table, s: State, run: seq<Action>, conv: ConvId)
    decreases |run|
  {
    Gone(Exec(board, s, run), conv) && (run != [] ==> StaysGone(board, s, run[..|run| - 1], conv))
  }

  predicate NeverResurrects(board: Table, s: State, run: seq<Action>, conv: ConvId)
    decreases |run|
  {
    run == [] || (NeverResurrects(board, s, run[..|run| - 1], conv)
                  && !Resurrects(board, Exec(board, s, run[..|run| - 1]), run[|run| - 1], conv))
  }

  /**
   * After a deletion the conversation stays closed and off the board, and the phone's next one
   * another, over a run exactly when no reconciliation of it with a target stage comes in.
   */
  lemma {:induction false} DeletionLastsExactly(board: Table, s: State, run: seq<Action>, conv: ConvId)
    requires Gone(s, conv)
    ensures StaysGone(board, s, run, conv) <==> NeverResurrects(board, s, run, conv)
    ensures StaysGone(board, s, run, conv) ==>
              var t := Exec(board, s, run);
              forall fullName: Option<string> :: OpenConv(t, t.convs[conv].phone, fullName).1 != conv
    decreases |run|
  {
    if StaysGone(board, s, run, conv) {
      var t := Exec(board, s, run);
      forall fullName: Option<string> ensures OpenConv(t, t.convs[conv].phone, fullName).1 != conv {
        NextIsAnother(t, conv, fullName);
      }
    }
    if run != [] {
      DeletionLastsExactly(board, s, run[..|run| - 1], conv);
      if StaysGone(board, s, run[..|run| - 1], conv) {
        GoneExactly(board, Exec(board, s, run[..|run| - 1]), run[|run| - 1], conv);
      }
    }
  }

  lemma OneMoreSync(board: Table, s: State, run: seq<Action>, conv: ConvId)
    ensures Exec(board, s, run + [Sync(conv)]) == Synced(board, Exec(board, s, run), conv)
  {
    OneMore(board, s, run, Sync(conv));
  }

  lemma OneMoreDelete(board: Table, s: State, run: seq<Action>, conv: ConvId)
    ensures Exec(board, s, run + [Delete(conv)]) == Deleted(Exec(board, s, run), conv)
  {
    OneMore(board, s, run, Delete(conv));
  }

  lemma FirstIsWrite(board: Table, s: State, phone: Phone)
    ensures Exec(board, s, [Write(phone)]) == OpenConv(s, phone, None).0
  {
    OneMore(board, s, [], Write(phone));
    assert [] + [Write(phone)] == [Write(phone)];
  }

  lemma WrittenAndDeleted(board: Table, s: State, phone: Phone, conv: ConvId)
    ensures Exec(board, s, [Write(phone), Sync(conv), Delete(conv), Sync(conv)])
            == Synced(board, Deleted(Synced(board, OpenConv(s, phone, None).0, conv), conv), conv)
  {
    FirstIsWrite(board, s, phone);
    OneMoreSync(board, s, [Write(phone)], conv);
    OneMoreDelete(board, s, [Write(phone), Sync(conv)], conv);
    OneMoreSync(board, s, [Write(phone), Sync(conv), Delete(conv)], conv);
    assert [Write(phone)] + [Sync(conv)] == [Write(phone), Sync(conv)];
    assert [Write(phone), Sync(conv)] + [Delete(conv)] == [Write(phone), Sync(conv), Delete(conv)];
    assert [Write(phone), Sync(conv), Delete(conv)] + [Sync(conv)] == [Write(phone), Sync(conv), Delete(conv), Sync(conv)];
  }

  /** One conversation of this phone, in the sale, open or closed. */
  predicate OneNewLead(s: State, phone: Phone, closed: bool) {
    && |s.convs| == 1 && s.convs[0].phone == phone && s.convs[0].closed == closed
    && s.convs[0].active && s.convs[0].funnel == Funnel.New
  }

  lemma NewLeadIsMirrored(s: State, phone: Phone, closed: bool)
    requires OneNewLead(s, phone, closed) && s.cards == map[]
    ensures var t := Synced(SEEDED, s, 0);
            OneNewLead(t, phone, false) && 0 in t.cards && OpenConv(t, phone, None).1 == 0
  {
    NewStageIsSeeded();
    assert LatestOf(Synced(SEEDED, s, 0).convs, phone) == Some(0);
  }

  lemma MirroredIsDeleted(s: State, phone: Phone)
    requires OneNewLead(s, phone, false) && s.cards.Keys == {0}
    ensures OneNewLead(Deleted(s, 0), phone, true) && Deleted(s, 0).cards == map[]
  {
  }

  lemma MirroredTwice(s: State, phone: Phone)
    requires OneNewLead(s, phone, false) && s.cards == map[]
    ensures var t := Synced(SEEDED, Deleted(Synced(SEEDED, s, 0), 0), 0);
            OneNewLead(t, phone, false) && 0 in t.cards && OpenConv(t, phone, None).1 == 0
  {
    NewLeadIsMirrored(s, phone, false);
    var t := Synced(SEEDED, s, 0);
    assert t.cards.Keys == {0};
    MirroredIsDeleted(t, phone);
    NewLeadIsMirrored(Deleted(t, 0), phone, true);
  }

  /** A job left in the list at the deletion ends in a reconciliation: the opportunity is back and takes the next message. */
  lemma DeletedComesBack()
    ensures var s := Exec(SEEDED, Empty(map[]), [Write(5), Sync(0), Delete(0), Sync(0)]);
            0 in s.cards && |s.convs| == 1 && !s.convs[0].closed && OpenConv(s, 5, None).1 == 0
  {
    WrittenAndDeleted(SEEDED, Empty(map[]), 5, 0);
    FirstWrite(5);
    MirroredTwice(OpenConv(Empty(map[]), 5, None).0, 5);
  }

  lemma FirstWrite(phone: Phone)
    ensures OneNewLead(OpenConv(Empty(map[]), phone, None).0, phone, false)
    ensures OpenConv(Empty(map[]), phone, None).0.cards == map[]
  {
    assert LatestOf([], phone).None?;
    assert [] + [FreshConv(phone, None)] == [FreshConv(phone, None)];
  }

  lemma NewStageIsSeeded()
    ensures GetStage(SEEDED, Ia, IaNew) == Some(0) && SEEDED[0].status == Open
  {
    assert SEEDED[0].kind == Ia && SEEDED[0].name == IaNew;
  }

  // ---------------------------------------------------------------- deliveries

  /** A delivered card is not delivered again: a second trigger finds it out of the validated stage. */
  lemma DeliveredOnce(board: Table, s: State, conv: ConvId, now: int, world: World, later: int, again: World)
    requires InOrder(board) && DeliveredTo(board, s, conv, now, world).1.Done?
    ensures var t := DeliveredTo(board, s, conv, now, world).0;
            DeliveredTo(board, t, conv, later, again) == (t, NotValidated)
  {
    var (t, outcome) := DeliveredTo(board, s, conv, now, world);
    DeliveryServesOrStays(board, s, conv, now, world);
    var moves := ServedMoves(board, s.cards[conv].stage, GetStage(board, Human, Handed).value, outcome.closed);
    var what :| Served(board, s, t, conv, moves, what);
    assert t.cards[conv].stage == moves[|moves| - 1].to;
  }

  lemma {:induction false} WithoutMapsHasNone(links: seq<Delivery.LinkRef>)
    ensures Delivery.FirstOf(WithoutMaps(links), Delivery.Maps).None?
  {
    if links != [] {
      WithoutMapsHasNone(links[1..]);
      if links[0].kind != Delivery.Maps {
        assert WithoutMaps(links)[1..] == WithoutMaps(links[1..]);
      }
    }
  }

  lemma {:induction false} FirstOfAppended(links: seq<Delivery.LinkRef>, link: Delivery.LinkRef, kind: Delivery.Kind)
    requires Delivery.FirstOf(links, kind).None?
    ensures Delivery.FirstOf(links + [link], kind) == if Delivery.Usable(link, kind) then Some(link) else None
  {
    if links == [] {
      assert links + [link] == [link];
    } else {
      assert (links + [link])[1..] == links[1..] + [link];
      FirstOfAppended(links[1..], link, kind);
    }
  }

  // ---------------------------------------------------------------- venues

  /** What the schema lets into the table: no venue, or one with something in it. */
  predicate VenueOk(event: Event) {
    event.mapsUrl == "" || !IsBlank(event.mapsUrl)
  }

  predicate VenuesOk(s: State) {
    forall i :: 0 <= i < |s.events| ==> VenueOk(s.events[i])
  }

  /** A venue that passes the validator is stored trimmed, and never as blanks. */
  lemma CheckedVenueIsOk(raw: string)
    ensures CheckedVenue(raw).Some? ==> CheckedVenue(raw).value == Strip(raw)
    ensures CheckedVenue(raw).Some? && CheckedVenue(raw).value != "" ==> !IsBlank(CheckedVenue(raw).value)
    ensures IsBlank(raw) ==> CheckedVenue(raw) == Some("")
  {
    StripOfBlank(raw);
    var cleaned := Strip(raw);
    if CheckedVenue(raw).Some? && cleaned != "" {
      assert cleaned[0] == 'h';
      assert !IsSpace(cleaned[0]);
    }
  }

  lemma {:induction false} RetriesKeepEvents(board: Table, s: State, waiting: seq<ConvId>, now: int, worlds: ConvId -> World)
    ensures RetriedAll(board, s, waiting, now, worlds).events == s.events
    decreases |waiting|
  {
    if waiting != [] {
      var conv := waiting[|waiting| - 1];
      RetriesKeepEvents(board, s, waiting[..|waiting| - 1], now, worlds);
      DeliveryIssuesAtMost(board, RetriedAll(board, s, waiting[..|waiting| - 1], now, worlds), conv, now, worlds(conv));
    }
  }

  lemma DragKeepsEvents(board: Table, s: State, conv: ConvId, to: StageId, user: UserId, now: int, world: World)
    ensures Dragged(board, s, conv, to, user, now, world).events == s.events
  {
    MovingKeepsEntries(board, s, conv, to, Operator(user));
    DeliveryIssuesAtMost(board, MovedCard(board, s, conv, to, Operator(user)).0, conv, now, world);
  }

  lemma ApproveKeepsEvents(board: Table, s: State, conv: ConvId, now: int, world: World)
    ensures Approved(board, s, conv, now, world).events == s.events
  {
    ValidationKeepsEntries(board, s, conv);
    DeliveryIssuesAtMost(board, Validated(board, s, conv).0, conv, now, world);
  }

  /** Only the agenda changes the events. */
  lemma BoardKeepsEvents(board: Table, s: State, a: Action)
    ensures OnBoard(board, s, a).events == s.events
  {
    match a
    case Sync(conv) => SyncIssuesNothing(board, s, conv);
    case Create(phone, fullName, user) => CreateIssuesNothing(board, s, phone, fullName, user);
    case Drag(conv, to, user, now, world) => DragKeepsEvents(board, s, conv, to, user, now, world);
    case Deliver(conv, now, world) => DeliveryIssuesAtMost(board, s, conv, now, world);
    case Retry(conv, now, world) => DeliveryIssuesAtMost(board, s, conv, now, world);
    case RetryForEvent(waiting, now, worlds) => RetriesKeepEvents(board, s, waiting, now, worlds);
    case Approve(conv, now, world) => ApproveKeepsEvents(board, s, conv, now, world);
    case Press(conv, user, now, world) => PressIssuesAtMost(board, s, conv, user, now, world);
    case _ =>
  }

  lemma AgendaKeepsVenues(s: State, a: Action)
    requires VenuesOk(s)
    ensures VenuesOk(OnAgenda(s, a))
  {
    var t := OnAgenda(s, a);
    if a.AddEvent? || a.EditEvent? {
      CheckedVenueIsOk(a.event.mapsUrl);
    } else if a.DropEvent? {
      WithoutIsSubset(s.events, a.id);
      forall i | 0 <= i < |t.events| ensures VenueOk(t.events[i]) {
        assert t.events[i] in t.events;
        var j :| 0 <= j < |s.events| && s.events[j] == t.events[i];
      }
    }
  }

  lemma {:induction false} RunsKeepVenues(board: Table, catalogue: map<ServiceId, Service>, run: seq<Action>)
    ensures VenuesOk(Exec(board, Empty(catalogue), run))
    decreases |run|
  {
    if run != [] {
      var s, a := Exec(board, Empty(catalogue), run[..|run| - 1]), run[|run| - 1];
      RunsKeepVenues(board, catalogue, run[..|run| - 1]);
      if OfAgenda(a) {
        AgendaKeepsVenues(s, a);
      } else if OfConversation(a) {
        ConversationIssuesNothing(s, a);
      } else if !OfCard(a) {
        BoardKeepsEvents(board, s, a);
      }
    }
  }

  lemma VenueReplaces(links: seq<Delivery.LinkRef>, event: Event)
    requires VenueOk(event)
    ensures Delivery.FirstOf(LinksAt(links, Some(event)), Delivery.Maps)
            == if event.mapsUrl == "" then Delivery.FirstOf(links, Delivery.Maps)
               else Some(Delivery.LinkRef(Delivery.Maps, event.mapsUrl, None))
  {
    if event.mapsUrl != "" {
      WithoutMapsHasNone(links);
      FirstOfAppended(WithoutMaps(links), Delivery.LinkRef(Delivery.Maps, event.mapsUrl, None), Delivery.Maps);
    }
  }

  /** Over any run, every stored venue replaces the map of the service, and only an event without one leaves it. */
  lemma EveryVenueReplaces(board: Table, catalogue: map<ServiceId, Service>, run: seq<Action>, i: nat, links: seq<Delivery.LinkRef>)
    requires i < |Exec(board, Empty(catalogue), run).events|
    ensures var event := Exec(board, Empty(catalogue), run).events[i];
            Delivery.FirstOf(LinksAt(links, Some(event)), Delivery.Maps)
            == if event.mapsUrl == "" then Delivery.FirstOf(links, Delivery.Maps)
               else Some(Delivery.LinkRef(Delivery.Maps, event.mapsUrl, None))
  {
    RunsKeepVenues(board, catalogue, run);
    VenueReplaces(links, Exec(board, Empty(catalogue), run).events[i]);
  }

  // ---------------------------------------------------------------- winning

  /** A name with something to read in it. */
  predicate Legible(name: Option<string>) {
    name.Some? && exists i :: 0 <= i < |name.value| && !IsSpace(name.value[i])
  }

  /** The conversation names the lead, or the contact of its phone does. */
  predicate LeadIsNamed(s: State, conv: ConvId)
    requires conv < |s.convs|
  {
    var c := s.convs[conv];
    Legible(c.fullName) || (c.phone in s.contacts && Legible(s.contacts[c.phone]))
  }

  /**
   * A move to another stage is refused exactly where the stage is won and the lead has no name;
   * otherwise it is recorded, the conversation is closed exactly in a stage that is not open,
   * and winning writes the lead's name to the contact of its phone.
   */
  lemma WinningNeedsAName(board: Table, s: State, conv: ConvId, to: StageId, mover: Mover)
    requires conv in s.cards && conv < |s.convs| && to < |board|
    ensures var (t, result) := MovedCard(board, s, conv, to, mover);
            var c := s.convs[conv];
            var won := board[to].status == Won;
            && (result == MoveOk <==> t.cards[conv].stage == to)
            && (result == NeedsAName <==> won && s.cards[conv].stage != to && !LeadIsNamed(s, conv))
            && (result != MoveOk || s.cards[conv].stage == to ==> t == s)
            && (result == MoveOk && s.cards[conv].stage != to ==>
                  && MovedOnly(s, t, conv, to, mover)
                  && t.convs == s.convs[conv := c.(closed := won || board[to].status == Lost)]
                  && t.contacts == if won && (c.phone !in s.contacts || c.fullName.Some?)
                                   then s.contacts[c.phone := c.fullName] else s.contacts)
  {
    MoveEffect(board, s, conv, to, mover);
    assert LeadIsNamed(s, conv) == HasName(s, conv);
  }
}
