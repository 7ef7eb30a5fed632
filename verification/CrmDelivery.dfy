/**
 * What one delivery does, and what that gives over every run: a card reaches the handed stage by
 * the system only right after its lead was served, once per stay in the validated stage, and no
 * step but an operator's move takes a postsale card back.
 */
module CrmDelivery {
  import opened Wrappers
  import opened Board
  import opened CardFlags
  import opened Sequences
  import opened Crm
  import opened CrmRuns
  import Delivery

  // ---------------------------------------------------------------- one delivery

  /** Cards and log after a card moved. */
  predicate MovedOnly(s: State, t: State, conv: ConvId, to: StageId, mover: Mover)
    requires conv in s.cards
  {
    var move := Move(Some(s.cards[conv].stage), to, mover);
    && t.cards == s.cards[conv := s.cards[conv].(stage := to, moves := s.cards[conv].moves + [move])]
    && t.log == s.log + [Moved(conv, move)]
  }

  lemma MoveEffect(board: Table, s: State, conv: ConvId, to: StageId, mover: Mover)
    requires conv in s.cards && to < |board|
    ensures var (t, result) := MovedCard(board, s, conv, to, mover);
            && (result == MoveOk || (result == NeedsAName && t == s))
            && (s.cards[conv].stage == to ==> result == MoveOk && t == s)
            && (s.cards[conv].stage != to && result == MoveOk ==> MovedOnly(s, t, conv, to, mover))
  {
  }

  /** Moves and stages of the cards, and the log, agree. */
  predicate SameHistory(s: State, t: State) {
    && t.cards.Keys == s.cards.Keys
    && forall conv <- s.cards :: t.cards[conv].stage == s.cards[conv].stage && t.cards[conv].moves == s.cards[conv].moves
  }

  /** At most a message went out; no card moved. */
  predicate Still(s: State, t: State, conv: ConvId) {
    SameHistory(s, t) && (t.log == s.log || (|t.log| == |s.log| + 1 && t.log[..|s.log|] == s.log && t.log[|s.log|].Sent?))
  }

  /** The moves a served card makes: into the handed stage and, if the opportunity closes, into the won one. */
  function ServedMoves(board: Table, validated: StageId, handed: StageId, closes: bool): seq<Move> {
    [Move(Some(validated), handed, System)]
    + (if closes && StageByStatus(board, Human, Won).Some? && StageByStatus(board, Human, Won).value != handed
       then [Move(Some(handed), StageByStatus(board, Human, Won).value, System)] else [])
  }

  function MoveLog(conv: ConvId, moves: seq<Move>): seq<Happening> {
    seq(|moves|, i requires 0 <= i < |moves| => Moved(conv, moves[i]))
  }

  predicate IsDelivery(what: What) {
    !what.Notice?
  }

  /** The lead received the delivery and then the card made its moves; no other card did. */
  predicate Served(board: Table, s: State, t: State, conv: ConvId, moves: seq<Move>, what: What)
    requires conv in s.cards
  {
    && IsDelivery(what) && moves != []
    && t.cards.Keys == s.cards.Keys
    && (forall c <- s.cards :: c != conv ==> t.cards[c] == s.cards[c])
    && t.cards[conv].moves == s.cards[conv].moves + moves
    && t.cards[conv].stage == moves[|moves| - 1].to
    && t.log == s.log + [Sent(conv, what)] + MoveLog(conv, moves)
  }

  lemma ConcludedEffect(board: Table, s: State, conv: ConvId, warnings: seq<Flag>)
    requires conv in s.cards
    ensures var (t, outcome) := Concluded(board, s, conv, warnings);
            var won := StageByStatus(board, Human, Won);
            && outcome.Done?
            && t.cards.Keys == s.cards.Keys && (forall c <- s.cards :: c != conv ==> t.cards[c] == s.cards[c])
            && (if outcome.closed && won.Some? && won.value != s.cards[conv].stage
                then MovedOnly(s, t, conv, won.value, System)
                else t.cards[conv].moves == s.cards[conv].moves && t.cards[conv].stage == s.cards[conv].stage && t.log == s.log)
            && (outcome.closed ==> won.Some? && t.cards[conv].flags == s.cards[conv].flags && outcome.flags == warnings)
            && (!outcome.closed ==> (won.None? && t == s && outcome.flags == warnings)
                                    || (t == WithFlags(s, conv, Added(s.cards[conv].flags, [NeedsName]))
                                        && outcome.flags == warnings + [NeedsName]))
  {
    var won := StageByStatus(board, Human, Won);
    if won.Some? {
      MoveEffect(board, s, conv, won.value, System);
    }
  }

  /** The card made these moves, in its history and in the log; no other card did. */
  predicate Made(s: State, t: State, conv: ConvId, moves: seq<Move>)
    requires conv in s.cards && moves != []
  {
    && t.cards.Keys == s.cards.Keys && (forall c <- s.cards :: c != conv ==> t.cards[c] == s.cards[c])
    && t.cards[conv].moves == s.cards[conv].moves + moves
    && t.cards[conv].stage == moves[|moves| - 1].to
    && t.log == s.log + MoveLog(conv, moves)
  }

  lemma HandedOver(board: Table, s: State, conv: ConvId, handed: StageId, warnings: seq<Flag>)
    requires conv in s.cards && handed < |board| && s.cards[conv].stage != handed
    requires MovedCard(board, s, conv, handed, System).1 == MoveOk
    ensures var moved := MovedCard(board, s, conv, handed, System).0;
            && conv in moved.cards
            && Made(s, WithFlags(moved, conv, DeliveryReplaced(moved.cards[conv].flags, warnings)), conv,
                    [Move(Some(s.cards[conv].stage), handed, System)])
  {
    MoveEffect(board, s, conv, handed, System);
  }

  lemma ThenWon(s: State, mid: State, t: State, conv: ConvId, first: Move, won: StageId)
    requires conv in s.cards && Made(s, mid, conv, [first]) && MovedOnly(mid, t, conv, won, System)
    ensures Made(s, t, conv, [first] + [Move(Some(first.to), won, System)])
  {
    var last := Move(Some(first.to), won, System);
    assert s.cards[conv].moves + [first] + [last] == s.cards[conv].moves + ([first] + [last]);
    assert MoveLog(conv, [first] + [last]) == MoveLog(conv, [first]) + [Moved(conv, last)];
  }

  /** After the send the card stands in the validated stage; the rest is moves and notices. */
  lemma AdvancedEffect(board: Table, s: State, conv: ConvId, validated: StageId, handed: StageId, warnings: seq<Flag>)
    requires conv in s.cards && handed < |board| && s.cards[conv].stage == validated && validated != handed
    ensures var (t, outcome) := Advanced(board, s, conv, handed, warnings);
            && (outcome == Raised ==> t == s)
            && (outcome != Raised ==> outcome.Done? && Made(s, t, conv, ServedMoves(board, validated, handed, outcome.closed)))
  {
    var (moved, result) := MovedCard(board, s, conv, handed, System);
    if result == MoveOk {
      HandedOver(board, s, conv, handed, warnings);
      var flagged := WithFlags(moved, conv, DeliveryReplaced(moved.cards[conv].flags, warnings));
      var won := StageByStatus(board, Human, Won);
      var (t, outcome) := Concluded(board, flagged, conv, warnings);
      ConcludedEffect(board, flagged, conv, warnings);
      if outcome.closed && won.value != handed {
        ThenWon(s, flagged, t, conv, Move(Some(validated), handed, System), won.value);
      }
    }
  }

  lemma SentEffect(s: State, conv: ConvId, planned: Planned, world: World)
    requires conv in s.cards
    ensures var sent := SentMain(s, conv, planned, world);
            && SameHistory(s, sent)
            && (forall c <- s.cards :: c != conv ==> sent.cards[c] == s.cards[c])
            && sent.cards[conv].flags == s.cards[conv].flags
            && (world.main == SendResult.Delivered ==>
                  exists what :: IsDelivery(what) && sent.log == s.log + [Sent(conv, what)])
            && (world.main != SendResult.Delivered ==> sent.log == s.log)
  {
    var sent := SentMain(s, conv, planned, world);
    if world.main == SendResult.Delivered {
      var what := if planned.plan.needsEntry then EntryImage(TokenOf(Issued(s, conv, planned.event), conv)) else Links;
      assert IsDelivery(what) && sent.log == s.log + [Sent(conv, what)];
    }
  }

  lemma AdvancedIsServed(board: Table, s: State, sent: State, conv: ConvId, validated: StageId, handed: StageId,
                         warnings: seq<Flag>, what: What)
    requires conv in s.cards && handed < |board| && validated != handed && s.cards[conv].stage == validated
    requires SameHistory(s, sent) && (forall c <- s.cards :: c != conv ==> sent.cards[c] == s.cards[c])
    requires IsDelivery(what) && sent.log == s.log + [Sent(conv, what)]
    ensures var (t, outcome) := Advanced(board, sent, conv, handed, warnings);
            && (outcome == Raised ==> Still(s, t, conv))
            && (outcome != Raised ==> outcome.Done? && Served(board, s, t, conv, ServedMoves(board, validated, handed, outcome.closed), what))
  {
    AdvancedEffect(board, sent, conv, validated, handed, warnings);
  }

  lemma HeldIsStill(s: State, t: State, conv: ConvId, flag: Flag)
    requires conv in t.cards && Still(s, t, conv)
    ensures Still(s, HeldBy(t, conv, flag).0, conv)
  {
    var held := WithFlags(t, conv, DeliveryReplaced(t.cards[conv].flags, [flag]));
    assert held.log == t.log;
  }

  /** Served by some message, with the moves of the outcome. */
  ghost predicate ServedBy(board: Table, s: State, t: State, conv: ConvId, moves: seq<Move>)
    requires conv in s.cards
  {
    exists what :: Served(board, s, t, conv, moves, what)
  }

  /** The two ends of a delivery: nobody moved, or the lead was served and then the card moved. */
  ghost predicate StillOrServed(board: Table, s: State, t: State, conv: ConvId, outcome: Outcome) {
    if outcome.Done? then
      && conv in s.cards
      && GetStage(board, Human, PaymentValidated) == Some(s.cards[conv].stage)
      && GetStage(board, Human, Handed).Some?
      && ServedBy(board, s, t, conv,
                  ServedMoves(board, s.cards[conv].stage, GetStage(board, Human, Handed).value, outcome.closed))
    else Still(s, t, conv)
  }

  /** The delivery stages of the board, with the card in the first of them. */
  ghost predicate AtValidated(board: Table, s: State, conv: ConvId) {
    && conv in s.cards && GetStage(board, Human, PaymentValidated) == Some(s.cards[conv].stage)
    && GetStage(board, Human, Handed).Some?
  }

  lemma AdvancedEnds(board: Table, s: State, sent: State, conv: ConvId, warnings: seq<Flag>, what: What)
    requires AtValidated(board, s, conv)
    requires SameHistory(s, sent) && (forall c <- s.cards :: c != conv ==> sent.cards[c] == s.cards[c])
    requires IsDelivery(what) && sent.log == s.log + [Sent(conv, what)]
    ensures var (t, outcome) := Advanced(board, sent, conv, GetStage(board, Human, Handed).value, warnings);
            StillOrServed(board, s, t, conv, outcome)
  {
    AdvancedIsServed(board, s, sent, conv, s.cards[conv].stage, GetStage(board, Human, Handed).value, warnings, what);
  }

  lemma TemplateEnds(board: Table, s: State, conv: ConvId, planned: Planned, world: World)
    requires AtValidated(board, s, conv) && world.main == OutsideWindow
    ensures var (t, outcome) := Shipped(board, s, conv, GetStage(board, Human, Handed).value, planned, world);
            StillOrServed(board, s, t, conv, outcome)
  {
    var sent := SentMain(s, conv, planned, world);
    SentEffect(s, conv, planned, world);
    if !planned.plan.needsEntry || planned.event.None? || world.template == OutsideWindow {
      HeldIsStill(s, sent, conv, DeliveryPending);
    } else if world.template == SendResult.Delivered {
      var what := EntryTemplate(TokenOf(sent, conv));
      AdvancedEnds(board, s, Logged(sent, Sent(conv, what)), conv, planned.plan.warnings, what);
    }
  }

  lemma ShippedEffect(board: Table, s: State, conv: ConvId, planned: Planned, world: World)
    requires AtValidated(board, s, conv)
    ensures var (t, outcome) := Shipped(board, s, conv, GetStage(board, Human, Handed).value, planned, world);
            StillOrServed(board, s, t, conv, outcome)
  {
    if world.main == OutsideWindow {
      TemplateEnds(board, s, conv, planned, world);
    } else {
      var sent := SentMain(s, conv, planned, world);
      SentEffect(s, conv, planned, world);
      if world.main == SendResult.Delivered {
        var what :| IsDelivery(what) && sent.log == s.log + [Sent(conv, what)];
        AdvancedEnds(board, s, sent, conv, planned.plan.warnings, what);
      }
    }
  }

  /** Whatever the sends answer, a delivery either moves nothing, or serves the lead and then moves this card. */
  lemma DeliveryServesOrStays(board: Table, s: State, conv: ConvId, now: int, world: World)
    ensures var (t, outcome) := DeliveredTo(board, s, conv, now, world);
            StillOrServed(board, s, t, conv, outcome)
  {
    var validated, handed := GetStage(board, Human, PaymentValidated), GetStage(board, Human, Handed);
    if conv in s.cards && validated == Some(s.cards[conv].stage) && handed.Some? {
      var planned := PlanFor(s, s.cards[conv], now);
      if planned.plan.blockedBy.Some? {
        assert Still(s, Noticed(s, conv, world.notice), conv);
        HeldIsStill(s, Noticed(s, conv, world.notice), conv, planned.plan.blockedBy.value);
      } else {
        ShippedEffect(board, s, conv, planned, world);
      }
    }
  }

  // ---------------------------------------------------------------- the notices a delivery leaves

  lemma PlansBlockWithDeliveryFlags(s: State, card: Card, now: int)
    ensures var plan := PlanFor(s, card, now).plan;
            && (plan.blockedBy.Some? ==> plan.blockedBy.value in DELIVERY_FLAGS)
            && (plan.warnings == [] || plan.warnings == [MissingLink])
  {
    var services := Accepted(s, card.services);
    if |services| == 1 {
      var event := if card.entry.Some? then EventById(s.events, card.entry.value.event)
                   else CurrentFor(s.events, OnlyService(s, card.services), now);
      Delivery.DecidesExactly(services[0].modality, services[0].links, None);
      Delivery.DecidesExactly(services[0].modality, LinksAt(services[0].links, event), InfoOf(event, None));
      if card.entry.Some? {
        Delivery.DecidesExactly(services[0].modality, LinksAt(services[0].links, event), InfoOf(event, card.entry.value.snapshot));
      }
    }
  }

  /** The card of `s` with a new delivery notice after its other notices. */
  predicate Annotated(s: State, t: State, conv: ConvId, flag: Flag) {
    && conv in s.cards && conv in t.cards
    && t.cards[conv].stage == s.cards[conv].stage && t.cards[conv].moves == s.cards[conv].moves
    && t.cards[conv].flags == Select(Known(s.cards[conv].flags), OTHER_FLAGS) + [flag]
  }

  lemma HoldingAnnotates(s: State, conv: ConvId, flag: Flag)
    requires conv in s.cards && flag in DELIVERY_FLAGS
    ensures HeldBy(s, conv, flag).1 == Held(flag)
    ensures Annotated(s, HeldBy(s, conv, flag).0, conv, flag)
  {
    ReplaceKeepsTheRest(s.cards[conv].flags, [flag]);
  }

  /** Only a message outside the window holds a shipment. */
  lemma ShippingHoldsSent(board: Table, s: State, conv: ConvId, handed: StageId, planned: Planned, world: World)
    requires conv in s.cards && handed < |board| && Shipped(board, s, conv, handed, planned, world).1.Held?
    ensures world.main == OutsideWindow
    ensures Shipped(board, s, conv, handed, planned, world) == HeldBy(SentMain(s, conv, planned, world), conv, DeliveryPending)
  {
    var sent := SentMain(s, conv, planned, world);
    AdvancedNeverHolds(board, sent, conv, handed, planned.plan.warnings);
    AdvancedNeverHolds(board, Logged(sent, Sent(conv, EntryTemplate(TokenOf(sent, conv)))), conv, handed, planned.plan.warnings);
  }

  lemma ShippingAnnotates(board: Table, s: State, conv: ConvId, planned: Planned, world: World)
    requires AtValidated(board, s, conv)
    requires Shipped(board, s, conv, GetStage(board, Human, Handed).value, planned, world).1.Held?
    ensures var (t, outcome) := Shipped(board, s, conv, GetStage(board, Human, Handed).value, planned, world);
            outcome == Held(DeliveryPending) && Annotated(s, t, conv, DeliveryPending)
  {
    var handed := GetStage(board, Human, Handed).value;
    ShippingHoldsSent(board, s, conv, handed, planned, world);
    SentEffect(s, conv, planned, world);
    HoldingAnnotates(SentMain(s, conv, planned, world), conv, DeliveryPending);
  }

  /**
   * A held delivery leaves the card where it was, with the reason as its one delivery notice
   * after all its other known notices in their order.
   */
  lemma HeldKeepsTheCard(board: Table, s: State, conv: ConvId, now: int, world: World)
    ensures var (t, outcome) := DeliveredTo(board, s, conv, now, world);
            outcome.Held? ==> outcome.flag in DELIVERY_FLAGS && Annotated(s, t, conv, outcome.flag)
  {
    if !DeliveredTo(board, s, conv, now, world).1.Held? {
      return;
    }
    var planned := PlanFor(s, s.cards[conv], now);
    PlansBlockWithDeliveryFlags(s, s.cards[conv], now);
    if planned.plan.blockedBy.None? {
      ShippingAnnotates(board, s, conv, planned, world);
    } else {
      assert Noticed(s, conv, world.notice).cards == s.cards;
      HoldingAnnotates(Noticed(s, conv, world.notice), conv, planned.plan.blockedBy.value);
    }
  }

  lemma AdvancedNeverHolds(board: Table, s: State, conv: ConvId, handed: StageId, warnings: seq<Flag>)
    requires conv in s.cards && handed < |board|
    ensures !Advanced(board, s, conv, handed, warnings).1.Held?
  {
  }

  // ---------------------------------------------------------------- over runs: served first, once per stay

  /** The system moves a card into the handed stage. */
  predicate Hands(board: Table, move: Move) {
    move.by_ == System && GetStage(board, Human, Handed) == Some(move.to)
  }

  predicate HandsAt(board: Table, log: seq<Happening>, k: nat) {
    k < |log| && log[k].Moved? && Hands(board, log[k].move)
  }

  /** The move was made from the validated stage, right after the lead received the delivery. */
  predicate ServedJustBefore(board: Table, log: seq<Happening>, k: nat)
    requires HandsAt(board, log, k)
  {
    && k > 0 && log[k - 1].Sent? && log[k - 1].conv == log[k].conv && IsDelivery(log[k - 1].what)
    && log[k].move.from.Some? && log[k].move.from == GetStage(board, Human, PaymentValidated)
  }

  predicate LogOk(board: Table, log: seq<Happening>) {
    forall k :: 0 <= k < |log| && HandsAt(board, log, k) ==> ServedJustBefore(board, log, k)
  }

  predicate CardHandsOk(board: Table, card: Card) {
    forall i :: 0 <= i < |card.moves| && Hands(board, card.moves[i]) ==>
      card.moves[i].from.Some? && card.moves[i].from == GetStage(board, Human, PaymentValidated)
  }

  predicate HandsOk(board: Table, s: State) {
    LogOk(board, s.log) && forall conv <- s.cards :: CardHandsOk(board, s.cards[conv])
  }

  lemma LogOkAppends(board: Table, log: seq<Happening>, h: Happening)
    requires LogOk(board, log)
    requires h.Moved? && Hands(board, h.move) ==>
               && log != [] && log[|log| - 1].Sent? && log[|log| - 1].conv == h.conv && IsDelivery(log[|log| - 1].what)
               && h.move.from.Some? && h.move.from == GetStage(board, Human, PaymentValidated)
    ensures LogOk(board, log + [h])
  {
    var more := log + [h];
    forall k | 0 <= k < |more| && HandsAt(board, more, k) ensures ServedJustBefore(board, more, k) {
      if k < |log| {
        assert HandsAt(board, log, k);
      }
    }
  }

  lemma SameHistoryKeepsHands(board: Table, s: State, t: State)
    requires HandsOk(board, s) && SameHistory(s, t) && t.log == s.log
    ensures HandsOk(board, t)
  {
    forall conv <- t.cards ensures CardHandsOk(board, t.cards[conv]) {
      assert CardHandsOk(board, s.cards[conv]);
    }
  }

  lemma StillKeepsHands(board: Table, s: State, t: State, conv: ConvId)
    requires HandsOk(board, s) && Still(s, t, conv)
    ensures HandsOk(board, t)
  {
    if t.log != s.log {
      assert t.log == s.log + [t.log[|s.log|]];
      LogOkAppends(board, s.log, t.log[|s.log|]);
    }
    forall c <- t.cards ensures CardHandsOk(board, t.cards[c]) {
      assert CardHandsOk(board, s.cards[c]);
    }
  }

  lemma MoveKeepsHands(board: Table, s: State, conv: ConvId, to: StageId, mover: Mover)
    requires HandsOk(board, s) && (mover != System || GetStage(board, Human, Handed) != Some(to))
    ensures HandsOk(board, MovedCard(board, s, conv, to, mover).0)
  {
    if conv in s.cards && to < |board| {
      var (t, result) := MovedCard(board, s, conv, to, mover);
      MoveEffect(board, s, conv, to, mover);
      if t != s {
        PlacedKeepsHands(board, s, t, conv, to, mover);
      }
    }
  }

  lemma PlacedKeepsHands(board: Table, s: State, t: State, conv: ConvId, to: StageId, mover: Mover)
    requires HandsOk(board, s) && conv in s.cards && MovedOnly(s, t, conv, to, mover)
    requires mover != System || GetStage(board, Human, Handed) != Some(to)
    ensures HandsOk(board, t)
  {
    LogOkAppends(board, s.log, Moved(conv, Move(Some(s.cards[conv].stage), to, mover)));
    forall c <- t.cards ensures CardHandsOk(board, t.cards[c]) {
      assert CardHandsOk(board, s.cards[c]);
    }
  }

  lemma NewCardKeepsHands(board: Table, s: State, conv: ConvId, to: StageId, mover: Mover)
    requires HandsOk(board, s) && mover != System
    ensures HandsOk(board, NewCard(s, conv, to, mover))
  {
    var t := NewCard(s, conv, to, mover);
    LogOkAppends(board, s.log, Moved(conv, Move(None, to, mover)));
    forall c <- t.cards ensures CardHandsOk(board, t.cards[c]) {
      assert c != conv ==> CardHandsOk(board, s.cards[c]);
    }
  }

  lemma SyncKeepsHands(board: Table, s: State, conv: ConvId)
    requires HandsOk(board, s)
    ensures HandsOk(board, Synced(board, s, conv))
  {
    if conv < |s.convs| {
      var (kind, name) := TargetStage(s.convs[conv]);
      var target := GetStage(board, kind, name);
      if target.Some? {
        if conv !in s.cards {
          NewCardKeepsHands(board, s, conv, target.value, Agent);
        } else {
          PlacedKeepsHands(board, s, Place(board, s, conv, target.value, Agent), conv, target.value, Agent);
        }
      }
    }
  }

  lemma ServedKeepsLog(board: Table, log: seq<Happening>, conv: ConvId, validated: StageId, handed: StageId, closes: bool, what: What)
    requires LogOk(board, log) && IsDelivery(what)
    requires GetStage(board, Human, PaymentValidated) == Some(validated) && GetStage(board, Human, Handed) == Some(handed)
    ensures LogOk(board, log + [Sent(conv, what)] + MoveLog(conv, ServedMoves(board, validated, handed, closes)))
  {
    var moves := ServedMoves(board, validated, handed, closes);
    var sent := log + [Sent(conv, what)];
    LogOkAppends(board, log, Sent(conv, what));
    LogOkAppends(board, sent, Moved(conv, moves[0]));
    if |moves| > 1 {
      LogOkAppends(board, sent + [Moved(conv, moves[0])], Moved(conv, moves[1]));
      assert sent + MoveLog(conv, moves) == sent + [Moved(conv, moves[0])] + [Moved(conv, moves[1])];
    } else {
      assert MoveLog(conv, moves) == [Moved(conv, moves[0])];
    }
  }

  lemma DeliverKeepsHands(board: Table, s: State, conv: ConvId, now: int, world: World)
    requires HandsOk(board, s)
    ensures HandsOk(board, DeliveredTo(board, s, conv, now, world).0)
  {
    var (t, outcome) := DeliveredTo(board, s, conv, now, world);
    DeliveryServesOrStays(board, s, conv, now, world);
    if outcome.Done? {
      var handed := GetStage(board, Human, Handed).value;
      var moves := ServedMoves(board, s.cards[conv].stage, handed, outcome.closed);
      var what :| Served(board, s, t, conv, moves, what);
      ServedKeepsLog(board, s.log, conv, s.cards[conv].stage, handed, outcome.closed, what);
      forall c <- t.cards ensures CardHandsOk(board, t.cards[c]) {
        assert CardHandsOk(board, s.cards[c]);
      }
    } else {
      StillKeepsHands(board, s, t, conv);
    }
  }

  lemma {:induction false} RetriesKeepHands(board: Table, s: State, waiting: seq<ConvId>, now: int, worlds: ConvId -> World)
    requires HandsOk(board, s)
    ensures HandsOk(board, RetriedAll(board, s, waiting, now, worlds))
    decreases |waiting|
  {
    if waiting != [] {
      var conv := waiting[|waiting| - 1];
      RetriesKeepHands(board, s, waiting[..|waiting| - 1], now, worlds);
      DeliverKeepsHands(board, RetriedAll(board, s, waiting[..|waiting| - 1], now, worlds), conv, now, worlds(conv));
    }
  }

  lemma ButtonKeepsHands(board: Table, s: State, conv: ConvId, handed: StageId, user: UserId, planned: Planned, world: World)
    requires HandsOk(board, s) && conv in s.cards
    ensures HandsOk(board, ButtonPressed(board, s, conv, handed, user, planned, world).0)
  {
    var sent := SentMain(s, conv, planned, world);
    SentEffect(s, conv, planned, world);
    assert Still(s, sent, conv);
    StillKeepsHands(board, s, sent, conv);
    SameHistoryKeepsHands(board, s, Issued(s, conv, planned.event));
    MoveKeepsHands(board, sent, conv, handed, Operator(user));
    if world.main == SendResult.Delivered {
      assert Still(s, s.(log := sent.log), conv);
      StillKeepsHands(board, s, s.(log := sent.log), conv);
    }
  }

  lemma PressKeepsHands(board: Table, s: State, conv: ConvId, user: UserId, now: int, world: World)
    requires HandsOk(board, s)
    ensures HandsOk(board, EntryGenerated(board, s, conv, user, now, world).0)
  {
    var handed := GetStage(board, Human, Handed);
    if conv in s.cards && handed.Some? {
      ButtonKeepsHands(board, s, conv, handed.value, user, PlanFor(s, s.cards[conv], now), world);
    }
  }

  lemma CreateKeepsHands(board: Table, s: State, phone: Phone, fullName: Option<string>, user: UserId)
    requires HandsOk(board, s)
    ensures HandsOk(board, Created(board, s, phone, fullName, user))
  {
    var first := FirstStage(board, Ia);
    if first.Some? {
      var (base, conv) := OpenConv(s, phone, fullName);
      SameHistoryKeepsHands(board, s, base);
      NewCardKeepsHands(board, base, conv, first.value, Operator(user));
    }
  }

  lemma DeleteKeepsHands(board: Table, s: State, conv: ConvId)
    requires HandsOk(board, s)
    ensures HandsOk(board, Deleted(s, conv))
  {
    forall c <- Deleted(s, conv).cards ensures CardHandsOk(board, Deleted(s, conv).cards[c]) {
      assert CardHandsOk(board, s.cards[c]);
    }
  }

  lemma DragKeepsHands(board: Table, s: State, conv: ConvId, to: StageId, user: UserId, now: int, world: World)
    requires HandsOk(board, s)
    ensures HandsOk(board, Dragged(board, s, conv, to, user, now, world))
  {
    MoveKeepsHands(board, s, conv, to, Operator(user));
    DeliverKeepsHands(board, MovedCard(board, s, conv, to, Operator(user)).0, conv, now, world);
  }

  lemma ApproveKeepsHands(board: Table, s: State, conv: ConvId, now: int, world: World)
    requires HandsOk(board, s)
    ensures HandsOk(board, Validated(board, s, conv).0)
    ensures HandsOk(board, Approved(board, s, conv, now, world))
  {
    if AwaitsPayment(board, s, conv) {
      var flagged := WithFlags(s, conv, Approval(s.cards[conv].flags));
      SameHistoryKeepsHands(board, s, flagged);
      var target := GetStage(board, Human, PaymentValidated);
      if target.Some? {
        MoveKeepsHands(board, flagged, conv, target.value, System);
      }
    }
    DeliverKeepsHands(board, Validated(board, s, conv).0, conv, now, world);
  }

  lemma StepKeepsHands(board: Table, s: State, a: Action)
    requires HandsOk(board, s)
    ensures HandsOk(board, Do(board, s, a))
  {
    match a
    case Sync(conv) => SyncKeepsHands(board, s, conv);
    case Drag(conv, to, user, now, world) => DragKeepsHands(board, s, conv, to, user, now, world);
    case Create(phone, fullName, user) => CreateKeepsHands(board, s, phone, fullName, user);
    case Delete(conv) => DeleteKeepsHands(board, s, conv);
    case Deliver(conv, now, world) => DeliverKeepsHands(board, s, conv, now, world);
    case Retry(conv, now, world) => DeliverKeepsHands(board, s, conv, now, world);
    case RetryForEvent(waiting, now, worlds) => RetriesKeepHands(board, s, waiting, now, worlds);
    case Approve(conv, now, world) => ApproveKeepsHands(board, s, conv, now, world);
    case Press(conv, user, now, world) => PressKeepsHands(board, s, conv, user, now, world);
    case _ =>
      EnvironmentShowsNothing(board, s, a);
      SameHistoryKeepsHands(board, s, Do(board, s, a));
  }

  /**
   * Over any run, with sends failing at will: whenever the system hands a card over, it does so
   * from the validated stage and right after the lead received the delivery.
   */
  lemma {:induction false} RunsServeFirst(board: Table, catalogue: map<ServiceId, Service>, run: seq<Action>)
    ensures HandsOk(board, Exec(board, Empty(catalogue), run))
    decreases |run|
  {
    if run != [] {
      RunsServeFirst(board, catalogue, run[..|run| - 1]);
      StepKeepsHands(board, Exec(board, Empty(catalogue), run[..|run| - 1]), run[|run| - 1]);
    }
  }

  /** Between two handovers of a card by the system somebody put it in the validated stage again. */
  lemma OncePerStay(board: Table, catalogue: map<ServiceId, Service>, run: seq<Action>, conv: ConvId, i: nat, j: nat)
    returns (k: nat)
    requires SaleStartsOpen(board)
    requires conv in Exec(board, Empty(catalogue), run).cards
    requires var moves := Exec(board, Empty(catalogue), run).cards[conv].moves;
             i < j < |moves| && Hands(board, moves[i]) && Hands(board, moves[j])
    ensures var moves := Exec(board, Empty(catalogue), run).cards[conv].moves;
            i < k < j && GetStage(board, Human, PaymentValidated) == Some(moves[k].to)
  {
    var s := Exec(board, Empty(catalogue), run);
    RunsServeFirst(board, catalogue, run);
    RunsKeepCardsOk(board, catalogue, run);
    assert CardOk(board, s, conv) && CardHandsOk(board, s.cards[conv]);
    k := j - 1;
    var moves := s.cards[conv].moves;
    assert moves[j].from == Some(moves[k].to);
    assert moves[i].to != moves[k].to;
  }

  // ---------------------------------------------------------------- the ratchet

  predicate NotBack(board: Table, before: StageId, after: StageId) {
    || before == after
    || (before < |board| && after < |board| && board[before].kind == Human && board[after].kind == Human
        && board[before].position <= board[after].position)
  }

  /** No card of the postsale pipeline went back; none left its pipeline. */
  predicate Climbs(board: Table, s: State, t: State) {
    && t.cards.Keys == s.cards.Keys
    && forall conv <- s.cards :: NotBack(board, s.cards[conv].stage, t.cards[conv].stage)
  }

  lemma DeliverClimbs(board: Table, s: State, conv: ConvId, now: int, world: World)
    requires InOrder(board)
    ensures Climbs(board, s, DeliveredTo(board, s, conv, now, world).0)
  {
    var (t, outcome) := DeliveredTo(board, s, conv, now, world);
    DeliveryServesOrStays(board, s, conv, now, world);
    if outcome.Done? {
      var handed := GetStage(board, Human, Handed).value;
      var moves := ServedMoves(board, s.cards[conv].stage, handed, outcome.closed);
      var what :| Served(board, s, t, conv, moves, what);
    }
  }

  lemma {:induction false} RetriesClimb(board: Table, s: State, waiting: seq<ConvId>, now: int, worlds: ConvId -> World)
    requires InOrder(board)
    ensures Climbs(board, s, RetriedAll(board, s, waiting, now, worlds))
    decreases |waiting|
  {
    if waiting != [] {
      var conv := waiting[|waiting| - 1];
      RetriesClimb(board, s, waiting[..|waiting| - 1], now, worlds);
      DeliverClimbs(board, RetriedAll(board, s, waiting[..|waiting| - 1], now, worlds), conv, now, worlds(conv));
    }
  }

  lemma ButtonClimbs(board: Table, s: State, conv: ConvId, user: UserId, planned: Planned, world: World)
    requires InOrder(board) && AtValidated(board, s, conv)
    ensures Climbs(board, s, ButtonPressed(board, s, conv, GetStage(board, Human, Handed).value, user, planned, world).0)
  {
    var handed := GetStage(board, Human, Handed).value;
    var sent := SentMain(s, conv, planned, world);
    SentEffect(s, conv, planned, world);
    MoveEffect(board, sent, conv, handed, Operator(user));
  }

  lemma PressClimbs(board: Table, s: State, conv: ConvId, user: UserId, now: int, world: World)
    requires InOrder(board)
    ensures Climbs(board, s, EntryGenerated(board, s, conv, user, now, world).0)
  {
    if AtValidated(board, s, conv) {
      ButtonClimbs(board, s, conv, user, PlanFor(s, s.cards[conv], now), world);
    }
  }

  /** A card that stays in the postsale pipeline through the step does not lose position. */
  predicate Ratchet(board: Table, s: State, t: State) {
    forall conv <- s.cards :: conv in t.cards ==> Kept(board, s.cards[conv].stage, t.cards[conv].stage)
  }

  predicate Kept(board: Table, before: StageId, after: StageId) {
    before < |board| && after < |board| && board[before].kind == Human && board[after].kind == Human
    ==> board[before].position <= board[after].position
  }

  lemma ClimbingKeepsRatchet(board: Table, s: State, t: State)
    requires Climbs(board, s, t)
    ensures Ratchet(board, s, t)
  {
    forall conv <- s.cards ensures conv in t.cards ==> Kept(board, s.cards[conv].stage, t.cards[conv].stage) {
      assert NotBack(board, s.cards[conv].stage, t.cards[conv].stage);
    }
  }

  lemma SyncKeepsRatchet(board: Table, s: State, conv: ConvId)
    ensures Ratchet(board, s, Synced(board, s, conv))
  {
  }

  lemma CreateKeepsRatchet(board: Table, s: State, phone: Phone, fullName: Option<string>, user: UserId)
    ensures Ratchet(board, s, Created(board, s, phone, fullName, user))
  {
  }

  lemma StillKeepsRatchet(board: Table, s: State, t: State)
    requires SameHistory(s, t)
    ensures Ratchet(board, s, t)
  {
  }

  lemma RetriesKeepRatchet(board: Table, s: State, waiting: seq<ConvId>, now: int, worlds: ConvId -> World)
    requires InOrder(board)
    ensures Ratchet(board, s, RetriedAll(board, s, waiting, now, worlds))
  {
    RetriesClimb(board, s, waiting, now, worlds);
    ClimbingKeepsRatchet(board, s, RetriedAll(board, s, waiting, now, worlds));
  }

  lemma PressKeepsRatchet(board: Table, s: State, conv: ConvId, user: UserId, now: int, world: World)
    requires InOrder(board)
    ensures Ratchet(board, s, EntryGenerated(board, s, conv, user, now, world).0)
  {
    PressClimbs(board, s, conv, user, now, world);
    ClimbingKeepsRatchet(board, s, EntryGenerated(board, s, conv, user, now, world).0);
  }

  lemma DeliverKeepsRatchet(board: Table, s: State, conv: ConvId, now: int, world: World)
    requires InOrder(board)
    ensures Ratchet(board, s, DeliveredTo(board, s, conv, now, world).0)
    ensures Ratchet(board, s, Retried(board, s, conv, now, world))
  {
    DeliverClimbs(board, s, conv, now, world);
    ClimbingKeepsRatchet(board, s, DeliveredTo(board, s, conv, now, world).0);
    StillKeepsRatchet(board, s, s);
  }

  lemma ClimbsJoin(board: Table, a: State, b: State, c: State)
    requires Climbs(board, a, b) && Climbs(board, b, c)
    ensures Climbs(board, a, c)
  {
    forall conv <- a.cards ensures NotBack(board, a.cards[conv].stage, c.cards[conv].stage) {
      assert NotBack(board, a.cards[conv].stage, b.cards[conv].stage);
      assert NotBack(board, b.cards[conv].stage, c.cards[conv].stage);
    }
  }

  lemma ValidationClimbs(board: Table, s: State, conv: ConvId)
    requires InOrder(board)
    ensures Climbs(board, s, Validated(board, s, conv).0)
  {
    var target := GetStage(board, Human, PaymentValidated);
    if AwaitsPayment(board, s, conv) && target.Some? {
      var flagged := WithFlags(s, conv, Approval(s.cards[conv].flags));
      FlagsClimb(board, s, conv, Approval(s.cards[conv].flags));
      MovingClimbs(board, flagged, conv, target.value, System);
      ClimbsJoin(board, s, flagged, MovedCard(board, flagged, conv, target.value, System).0);
    } else if AwaitsPayment(board, s, conv) {
      FlagsClimb(board, s, conv, Approval(s.cards[conv].flags));
    }
  }

  lemma FlagsClimb(board: Table, s: State, conv: ConvId, flags: seq<Flag>)
    requires conv in s.cards
    ensures Climbs(board, s, WithFlags(s, conv, flags))
  {
  }

  lemma MovingClimbs(board: Table, s: State, conv: ConvId, to: StageId, mover: Mover)
    requires conv in s.cards && to < |board| && NotBack(board, s.cards[conv].stage, to)
    ensures Climbs(board, s, MovedCard(board, s, conv, to, mover).0)
  {
    MoveEffect(board, s, conv, to, mover);
  }

  lemma ApproveKeepsRatchet(board: Table, s: State, conv: ConvId, now: int, world: World)
    requires InOrder(board)
    ensures Ratchet(board, s, Approved(board, s, conv, now, world))
  {
    var (validated, ok) := Validated(board, s, conv);
    ValidationClimbs(board, s, conv);
    DeliverClimbs(board, validated, conv, now, world);
    if ok {
      ClimbsJoin(board, s, validated, DeliveredTo(board, validated, conv, now, world).0);
    }
    ClimbingKeepsRatchet(board, s, Approved(board, s, conv, now, world));
  }

  /** Every step except an operator dragging the card keeps the ratchet. */
  lemma StepKeepsRatchet(board: Table, s: State, a: Action)
    requires InOrder(board) && !a.Drag?
    ensures Ratchet(board, s, Do(board, s, a))
  {
    if Environment(a) {
      EnvironmentShowsNothing(board, s, a);
      StillKeepsRatchet(board, s, Do(board, s, a));
    } else {
      BoardKeepsRatchet(board, s, a);
    }
  }

  lemma BoardKeepsRatchet(board: Table, s: State, a: Action)
    requires InOrder(board) && !a.Drag? && !Environment(a)
    ensures Ratchet(board, s, OnBoard(board, s, a))
  {
    match a
    case Sync(conv) => SyncKeepsRatchet(board, s, conv);
    case Create(phone, fullName, user) => CreateKeepsRatchet(board, s, phone, fullName, user);
    case Delete(conv) =>
    case Deliver(conv, now, world) => DeliverKeepsRatchet(board, s, conv, now, world);
    case Retry(conv, now, world) => DeliverKeepsRatchet(board, s, conv, now, world);
    case RetryForEvent(waiting, now, worlds) => RetriesKeepRatchet(board, s, waiting, now, worlds);
    case Approve(conv, now, world) => ApproveKeepsRatchet(board, s, conv, now, world);
    case Press(conv, user, now, world) => PressKeepsRatchet(board, s, conv, user, now, world);
  }

  /** The card stands in the postsale pipeline at every point of the run. */
  predicate StaysHuman(board: Table, s: State, run: seq<Action>, conv: ConvId)
    decreases |run|
  {
    var t := Exec(board, s, run);
    && conv in t.cards && t.cards[conv].stage < |board| && board[t.cards[conv].stage].kind == Human
    && (run != [] ==> StaysHuman(board, s, run[..|run| - 1], conv))
  }

  /** Over any run without drags, a card that does not leave the postsale pipeline never goes back. */
  lemma {:induction false} PostsaleOnlyAdvances(board: Table, s: State, run: seq<Action>, conv: ConvId)
    requires InOrder(board) && StaysHuman(board, s, run, conv)
    requires forall k :: 0 <= k < |run| ==> !run[k].Drag?
    ensures conv in s.cards && s.cards[conv].stage < |board|
    ensures board[s.cards[conv].stage].position <= board[Exec(board, s, run).cards[conv].stage].position
    decreases |run|
  {
    if run != [] {
      var init := run[..|run| - 1];
      PostsaleOnlyAdvances(board, s, init, conv);
      StepKeepsRatchet(board, Exec(board, s, init), run[|run| - 1]);
    }
  }
}
