/**
 * The message that confirms a payment while a person completes the delivery: once per
 * conversation, and again only when its row was lost after WhatsApp accepted it.
 */
module CrmNotices {
  import opened Wrappers
  import opened Board
  import opened CardFlags
  import opened Crm
  import opened CrmRuns

  predicate IsNotice(h: Happening) {
    h.Sent? && h.what.Notice?
  }

  /** A notice to the conversation whose row was recorded. */
  predicate IsRecorded(h: Happening, conv: ConvId) {
    IsNotice(h) && h.conv == conv && h.what.recorded
  }

  /** How many notices to the conversation were recorded. */
  function RecordedTo(log: seq<Happening>, conv: ConvId): nat {
    if log == [] then 0
    else
      var last := log[|log| - 1];
      RecordedTo(log[..|log| - 1], conv) + (if IsRecorded(last, conv) then 1 else 0)
  }

  predicate Told(s: State, conv: ConvId) {
    conv < |s.convs| && s.convs[conv].noticed
  }

  /** The lead is told again only after a notice whose row was lost. */
  predicate TellsAgainAfterLoss(log: seq<Happening>) {
    forall i, j :: 0 <= i < j < |log| && IsNotice(log[i]) && IsNotice(log[j]) && log[i].conv == log[j].conv ==>
      !log[i].what.recorded
  }

  ghost predicate NoticesOk(s: State) {
    && (forall conv: ConvId :: RecordedTo(s.log, conv) == if Told(s, conv) then 1 else 0)
    && TellsAgainAfterLoss(s.log)
  }

  /** Nothing was told, and nobody forgot having told. */
  predicate Quiet(s: State, t: State) {
    && |s.log| <= |t.log| && t.log[..|s.log|] == s.log
    && (forall k :: |s.log| <= k < |t.log| ==> !IsNotice(t.log[k]))
    && |s.convs| <= |t.convs|
    && (forall conv :: 0 <= conv < |s.convs| ==> t.convs[conv].noticed == s.convs[conv].noticed)
    && (forall conv :: |s.convs| <= conv < |t.convs| ==> !t.convs[conv].noticed)
  }

  lemma QuietJoins(a: State, b: State, c: State)
    requires Quiet(a, b) && Quiet(b, c)
    ensures Quiet(a, c)
  {
    assert c.log[..|a.log|] == c.log[..|b.log|][..|a.log|];
    forall k | |a.log| <= k < |c.log| ensures !IsNotice(c.log[k]) {
      assert k < |b.log| ==> c.log[k] == c.log[..|b.log|][k];
    }
  }

  lemma {:induction false} QuietLogCounts(log: seq<Happening>, more: seq<Happening>, conv: ConvId)
    requires |log| <= |more| && more[..|log|] == log
    requires forall k :: |log| <= k < |more| ==> !IsNotice(more[k])
    ensures RecordedTo(more, conv) == RecordedTo(log, conv)
    decreases |more|
  {
    if |more| == |log| {
      assert more == log;
    } else {
      var init := more[..|more| - 1];
      assert init[..|log|] == log;
      QuietLogCounts(log, init, conv);
    }
  }

  lemma QuietKeepsOrder(log: seq<Happening>, more: seq<Happening>)
    requires TellsAgainAfterLoss(log)
    requires |log| <= |more| && more[..|log|] == log
    requires forall k :: |log| <= k < |more| ==> !IsNotice(more[k])
    ensures TellsAgainAfterLoss(more)
  {
    forall i, j | 0 <= i < j < |more| && IsNotice(more[i]) && IsNotice(more[j]) && more[i].conv == more[j].conv
      ensures !more[i].what.recorded
    {
      assert more[i] == log[i] && more[j] == log[j];
    }
  }

  lemma QuietKeepsNotices(s: State, t: State)
    requires NoticesOk(s) && Quiet(s, t)
    ensures NoticesOk(t)
  {
    QuietKeepsOrder(s.log, t.log);
    forall conv: ConvId ensures RecordedTo(t.log, conv) == if Told(t, conv) then 1 else 0 {
      QuietLogCounts(s.log, t.log, conv);
      assert RecordedTo(s.log, conv) == if Told(s, conv) then 1 else 0;
    }
  }

  lemma {:induction false} NoneRecorded(log: seq<Happening>, conv: ConvId, i: nat)
    requires RecordedTo(log, conv) == 0 && i < |log|
    ensures !IsRecorded(log[i], conv)
    decreases |log|
  {
    if i < |log| - 1 {
      NoneRecorded(log[..|log| - 1], conv, i);
    }
  }

  lemma TellingKeepsOrder(log: seq<Happening>, conv: ConvId, recorded: bool)
    requires TellsAgainAfterLoss(log) && RecordedTo(log, conv) == 0
    ensures TellsAgainAfterLoss(log + [Sent(conv, Notice(recorded))])
  {
    var more := log + [Sent(conv, Notice(recorded))];
    forall i, j | 0 <= i < j < |more| && IsNotice(more[i]) && IsNotice(more[j]) && more[i].conv == more[j].conv
      ensures !more[i].what.recorded
    {
      if j == |log| {
        NoneRecorded(log, conv, i);
      }
    }
  }

  lemma TellingCounts(s: State, conv: ConvId, result: NoticeResult)
    requires NoticesOk(s)
    ensures NoticesOk(Noticed(s, conv, result))
  {
    var t := Noticed(s, conv, result);
    if t != s {
      assert RecordedTo(s.log, conv) == 0;
      TellingKeepsOrder(s.log, conv, result == Recorded);
      assert t.log[..|t.log| - 1] == s.log;
      forall c: ConvId ensures RecordedTo(t.log, c) == if Told(t, c) then 1 else 0 {
        assert RecordedTo(s.log, c) == if Told(s, c) then 1 else 0;
      }
    }
  }

  lemma MovingIsQuiet(board: Table, s: State, conv: ConvId, to: StageId, mover: Mover)
    ensures Quiet(s, MovedCard(board, s, conv, to, mover).0)
  {
  }

  lemma ConcludingIsQuiet(board: Table, s: State, conv: ConvId, warnings: seq<Flag>)
    requires conv in s.cards
    ensures Quiet(s, Concluded(board, s, conv, warnings).0)
  {
    var won := StageByStatus(board, Human, Won);
    if won.Some? {
      MovingIsQuiet(board, s, conv, won.value, System);
    }
  }

  lemma AdvancingIsQuiet(board: Table, s: State, conv: ConvId, handed: StageId, warnings: seq<Flag>)
    requires conv in s.cards && handed < |board|
    ensures Quiet(s, Advanced(board, s, conv, handed, warnings).0)
  {
    var (moved, result) := MovedCard(board, s, conv, handed, System);
    MovingIsQuiet(board, s, conv, handed, System);
    if result == MoveOk {
      var flagged := WithFlags(moved, conv, DeliveryReplaced(moved.cards[conv].flags, warnings));
      ConcludingIsQuiet(board, flagged, conv, warnings);
      QuietJoins(s, flagged, Concluded(board, flagged, conv, warnings).0);
    }
  }

  lemma SendingIsQuiet(s: State, conv: ConvId, planned: Planned, world: World)
    requires conv in s.cards
    ensures conv in SentMain(s, conv, planned, world).cards
    ensures Quiet(s, SentMain(s, conv, planned, world))
  {
  }

  lemma HoldingIsQuiet(s: State, conv: ConvId, flag: Flag)
    requires conv in s.cards
    ensures Quiet(s, HeldBy(s, conv, flag).0)
  {
    assert Quiet(s, WithFlags(s, conv, DeliveryReplaced(s.cards[conv].flags, [flag])));
  }

  lemma TemplateIsQuiet(board: Table, s: State, conv: ConvId, handed: StageId, warnings: seq<Flag>)
    requires conv in s.cards && handed < |board|
    ensures Quiet(s, Advanced(board, Logged(s, Sent(conv, EntryTemplate(TokenOf(s, conv)))), conv, handed, warnings).0)
  {
    var logged := Logged(s, Sent(conv, EntryTemplate(TokenOf(s, conv))));
    AdvancingIsQuiet(board, logged, conv, handed, warnings);
    QuietJoins(s, logged, Advanced(board, logged, conv, handed, warnings).0);
  }

  lemma ShippingIsQuiet(board: Table, s: State, conv: ConvId, handed: StageId, planned: Planned, world: World)
    requires conv in s.cards && handed < |board|
    ensures Quiet(s, Shipped(board, s, conv, handed, planned, world).0)
  {
    var sent := SentMain(s, conv, planned, world);
    SendingIsQuiet(s, conv, planned, world);
    if world.main == SendResult.Delivered {
      AdvancingIsQuiet(board, sent, conv, handed, planned.plan.warnings);
    } else if world.main == OutsideWindow {
      HoldingIsQuiet(sent, conv, DeliveryPending);
      TemplateIsQuiet(board, sent, conv, handed, planned.plan.warnings);
    }
    var t := Shipped(board, s, conv, handed, planned, world).0;
    if t != s {
      QuietJoins(s, sent, t);
    }
  }

  lemma BlockTellsOnce(s: State, conv: ConvId, result: NoticeResult, flag: Flag)
    requires NoticesOk(s) && conv in s.cards
    ensures NoticesOk(Noticed(s, conv, result))
    ensures NoticesOk(HeldBy(Noticed(s, conv, result), conv, flag).0)
  {
    var told := Noticed(s, conv, result);
    TellingCounts(s, conv, result);
    HoldingIsQuiet(told, conv, flag);
    QuietKeepsNotices(told, HeldBy(told, conv, flag).0);
  }

  lemma DeliveryTellsOnce(board: Table, s: State, conv: ConvId, now: int, world: World)
    requires NoticesOk(s)
    ensures NoticesOk(DeliveredTo(board, s, conv, now, world).0)
  {
    var handed := GetStage(board, Human, Handed);
    if conv in s.cards && handed.Some? {
      ExecutionTellsOnce(board, s, conv, handed.value, PlanFor(s, s.cards[conv], now), world);
    }
  }

  lemma ExecutionTellsOnce(board: Table, s: State, conv: ConvId, handed: StageId, planned: Planned, world: World)
    requires NoticesOk(s) && conv in s.cards && handed < |board|
    ensures NoticesOk(Executed(board, s, conv, handed, planned, world).0)
  {
    if planned.plan.blockedBy.Some? {
      BlockTellsOnce(s, conv, world.notice, planned.plan.blockedBy.value);
    } else {
      ShippingIsQuiet(board, s, conv, handed, planned, world);
      QuietKeepsNotices(s, Shipped(board, s, conv, handed, planned, world).0);
    }
  }

  lemma {:induction false} RetriesTellOnce(board: Table, s: State, waiting: seq<ConvId>, now: int, worlds: ConvId -> World)
    requires NoticesOk(s)
    ensures NoticesOk(RetriedAll(board, s, waiting, now, worlds))
    decreases |waiting|
  {
    if waiting != [] {
      var conv := waiting[|waiting| - 1];
      RetriesTellOnce(board, s, waiting[..|waiting| - 1], now, worlds);
      DeliveryTellsOnce(board, RetriedAll(board, s, waiting[..|waiting| - 1], now, worlds), conv, now, worlds(conv));
    }
  }

  lemma ButtonIsQuiet(board: Table, s: State, conv: ConvId, handed: StageId, user: UserId, planned: Planned, world: World)
    requires conv in s.cards
    ensures Quiet(s, ButtonPressed(board, s, conv, handed, user, planned, world).0)
  {
    var sent := SentMain(s, conv, planned, world);
    SendingIsQuiet(s, conv, planned, world);
    MovingIsQuiet(board, sent, conv, handed, Operator(user));
    QuietJoins(s, sent, MovedCard(board, sent, conv, handed, Operator(user)).0);
  }

  lemma PressIsQuiet(board: Table, s: State, conv: ConvId, user: UserId, now: int, world: World)
    ensures Quiet(s, EntryGenerated(board, s, conv, user, now, world).0)
  {
    var handed := GetStage(board, Human, Handed);
    if conv in s.cards && handed.Some? {
      ButtonIsQuiet(board, s, conv, handed.value, user, PlanFor(s, s.cards[conv], now), world);
    }
  }

  lemma CreatingIsQuiet(board: Table, s: State, phone: Phone, fullName: Option<string>, user: UserId)
    ensures Quiet(s, Created(board, s, phone, fullName, user))
  {
    if FirstStage(board, Ia).Some? {
      QuietJoins(s, OpenConv(s, phone, fullName).0, Created(board, s, phone, fullName, user));
    }
  }

  lemma EnvironmentIsQuiet(s: State, a: Action)
    ensures Quiet(s, OnConversation(s, a))
    ensures Quiet(s, OnCard(s, a))
    ensures Quiet(s, OnAgenda(s, a))
  {
  }

  lemma SyncIsQuiet(board: Table, s: State, conv: ConvId)
    ensures Quiet(s, Synced(board, s, conv))
  {
  }

  lemma ValidationIsQuiet(board: Table, s: State, conv: ConvId)
    ensures Quiet(s, Validated(board, s, conv).0)
  {
    var target := GetStage(board, Human, PaymentValidated);
    if AwaitsPayment(board, s, conv) && target.Some? {
      var flagged := WithFlags(s, conv, Approval(s.cards[conv].flags));
      MovingIsQuiet(board, flagged, conv, target.value, System);
      QuietJoins(s, flagged, MovedCard(board, flagged, conv, target.value, System).0);
    }
  }

  lemma ApproveTellsOnce(board: Table, s: State, conv: ConvId, now: int, world: World)
    requires NoticesOk(s)
    ensures NoticesOk(Approved(board, s, conv, now, world))
  {
    ValidationIsQuiet(board, s, conv);
    QuietKeepsNotices(s, Validated(board, s, conv).0);
    DeliveryTellsOnce(board, Validated(board, s, conv).0, conv, now, world);
  }

  lemma BoardTellsOnce(board: Table, s: State, a: Action)
    requires NoticesOk(s)
    ensures NoticesOk(OnBoard(board, s, a))
  {
    match a
    case Sync(conv) =>
      SyncIsQuiet(board, s, conv);
      QuietKeepsNotices(s, Synced(board, s, conv));
    case Drag(conv, to, user, now, world) =>
      MovingIsQuiet(board, s, conv, to, Operator(user));
      QuietKeepsNotices(s, MovedCard(board, s, conv, to, Operator(user)).0);
      DeliveryTellsOnce(board, MovedCard(board, s, conv, to, Operator(user)).0, conv, now, world);
    case Deliver(conv, now, world) => DeliveryTellsOnce(board, s, conv, now, world);
    case Retry(conv, now, world) => DeliveryTellsOnce(board, s, conv, now, world);
    case RetryForEvent(waiting, now, worlds) => RetriesTellOnce(board, s, waiting, now, worlds);
    case Approve(conv, now, world) => ApproveTellsOnce(board, s, conv, now, world);
    case Press(conv, user, now, world) =>
      PressIsQuiet(board, s, conv, user, now, world);
      QuietKeepsNotices(s, EntryGenerated(board, s, conv, user, now, world).0);
    case Create(phone, fullName, user) =>
      CreatingIsQuiet(board, s, phone, fullName, user);
      QuietKeepsNotices(s, Created(board, s, phone, fullName, user));
    case Delete(conv) => QuietKeepsNotices(s, Deleted(s, conv));
    case _ =>
  }

  lemma StepTellsOnce(board: Table, s: State, a: Action)
    requires NoticesOk(s)
    ensures NoticesOk(Do(board, s, a))
  {
    if Environment(a) {
      EnvironmentIsQuiet(s, a);
      QuietKeepsNotices(s, Do(board, s, a));
    } else {
      BoardTellsOnce(board, s, a);
    }
  }

  lemma {:induction false} RunsKeepNotices(board: Table, catalogue: map<ServiceId, Service>, run: seq<Action>)
    ensures NoticesOk(Exec(board, Empty(catalogue), run))
    decreases |run|
  {
    if run != [] {
      RunsKeepNotices(board, catalogue, run[..|run| - 1]);
      StepTellsOnce(board, Exec(board, Empty(catalogue), run[..|run| - 1]), run[|run| - 1]);
    }
  }

  /** Two notices reached the same lead. */
  predicate ToldTwice(log: seq<Happening>, i: nat, j: nat) {
    i < j < |log| && IsNotice(log[i]) && IsNotice(log[j]) && log[i].conv == log[j].conv
  }

  /**
   * Over any run, however often deliveries are retried: a lead is told again only after a notice
   * whose row was lost, so with no such loss each lead is told at most once.
   */
  lemma RunsTellOnce(board: Table, catalogue: map<ServiceId, Service>, run: seq<Action>)
    ensures var log := Exec(board, Empty(catalogue), run).log;
            && (forall i: nat, j: nat :: ToldTwice(log, i, j) ==> !log[i].what.recorded)
            && ((forall k :: 0 <= k < |log| && IsNotice(log[k]) ==> log[k].what.recorded)
                ==> forall i: nat, j: nat :: !ToldTwice(log, i, j))
  {
    RunsKeepNotices(board, catalogue, run);
  }
}
