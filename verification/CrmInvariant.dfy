/** The invariants of the board together, and that every operation and every run keeps them. */
module CrmInvariant {
  import opened Wrappers
  import opened Board
  import opened Crm
  import opened CrmRuns
  import opened CrmDelivery
  import opened CrmEntries
  import opened CrmNotices

  /**
   * Histories connected and conversations closed as their cards are; seats within capacity and
   * tokens apart; system handovers right after a delivery; leads told at most once.
   */
  ghost predicate Holds(board: Table, s: State) {
    CardsOk(board, s) && EntriesOk(s) && HandsOk(board, s) && NoticesOk(s)
  }

  lemma EmptyHolds(board: Table, catalogue: map<ServiceId, Service>)
    ensures Holds(board, Empty(catalogue))
  {
  }

  lemma SyncKeeps(board: Table, s: State, conv: ConvId)
    requires Holds(board, s)
    ensures Holds(board, Synced(board, s, conv))
  {
    SyncKeepsOk(board, s, conv);
    SyncKeepsSeats(board, s, conv);
    SyncKeepsHands(board, s, conv);
    SyncIsQuiet(board, s, conv);
    QuietKeepsNotices(s, Synced(board, s, conv));
  }

  /** A move by a person or the agent; the system moves a card when it validates its payment or has served its lead. */
  lemma MoveKeeps(board: Table, s: State, conv: ConvId, to: StageId, mover: Mover)
    requires Holds(board, s) && mover != System
    ensures Holds(board, MovedCard(board, s, conv, to, mover).0)
  {
    MoveKeepsOk(board, s, conv, to, mover);
    MovingKeepsEntries(board, s, conv, to, mover);
    NoNewEntriesKeepSeats(s, MovedCard(board, s, conv, to, mover).0);
    MoveKeepsHands(board, s, conv, to, mover);
    MovingIsQuiet(board, s, conv, to, mover);
    QuietKeepsNotices(s, MovedCard(board, s, conv, to, mover).0);
  }

  lemma DeliverKeeps(board: Table, s: State, conv: ConvId, now: int, world: World)
    requires Holds(board, s)
    ensures Holds(board, DeliveredTo(board, s, conv, now, world).0)
  {
    DeliverKeepsOk(board, s, conv, now, world);
    DeliveryKeepsSeats(board, s, conv, now, world);
    DeliverKeepsHands(board, s, conv, now, world);
    DeliveryTellsOnce(board, s, conv, now, world);
  }

  lemma ApproveKeeps(board: Table, s: State, conv: ConvId, now: int, world: World)
    requires Holds(board, s)
    ensures Holds(board, Validated(board, s, conv).0)
    ensures Holds(board, Approved(board, s, conv, now, world))
  {
    var validated := Validated(board, s, conv).0;
    ApproveKeepsOk(board, s, conv, now, world);
    ApproveKeepsHands(board, s, conv, now, world);
    ValidationKeepsEntries(board, s, conv);
    NoNewEntriesKeepSeats(s, validated);
    ValidationIsQuiet(board, s, conv);
    QuietKeepsNotices(s, validated);
    DeliverKeeps(board, validated, conv, now, world);
  }

  lemma PressKeeps(board: Table, s: State, conv: ConvId, user: UserId, now: int, world: World)
    requires Holds(board, s)
    ensures Holds(board, EntryGenerated(board, s, conv, user, now, world).0)
  {
    PressKeepsOk(board, s, conv, user, now, world);
    PressKeepsSeats(board, s, conv, user, now, world);
    PressKeepsHands(board, s, conv, user, now, world);
    PressIsQuiet(board, s, conv, user, now, world);
    QuietKeepsNotices(s, EntryGenerated(board, s, conv, user, now, world).0);
  }

  lemma CreateKeeps(board: Table, s: State, phone: Phone, fullName: Option<string>, user: UserId)
    requires Holds(board, s) && SaleStartsOpen(board)
    ensures Holds(board, Created(board, s, phone, fullName, user))
  {
    CreateKeepsOk(board, s, phone, fullName, user);
    CreateKeepsSeats(board, s, phone, fullName, user);
    CreateKeepsHands(board, s, phone, fullName, user);
    CreatingIsQuiet(board, s, phone, fullName, user);
    QuietKeepsNotices(s, Created(board, s, phone, fullName, user));
  }

  lemma DeleteKeeps(board: Table, s: State, conv: ConvId)
    requires Holds(board, s)
    ensures Holds(board, Deleted(s, conv))
  {
    DeleteKeepsOk(board, s, conv);
    DeleteKeepsSeats(s, conv);
    DeleteKeepsHands(board, s, conv);
    assert Quiet(s, Deleted(s, conv));
    QuietKeepsNotices(s, Deleted(s, conv));
  }

  lemma AiMovesNothing(s: State, conv: ConvId, active: bool)
    ensures SameBoard(s, AiSet(s, conv, active)) && SameHistory(s, AiSet(s, conv, active))
  {
  }

  lemma AiIssuesNothing(s: State, conv: ConvId, active: bool)
    ensures NoNewEntries(s, AiSet(s, conv, active)) && Quiet(s, AiSet(s, conv, active))
  {
  }

  lemma AiKeeps(board: Table, s: State, conv: ConvId, active: bool)
    requires Holds(board, s)
    ensures Holds(board, AiSet(s, conv, active))
  {
    var t := AiSet(s, conv, active);
    AiMovesNothing(s, conv, active);
    AiIssuesNothing(s, conv, active);
    SameBoardKeepsOk(board, s, t);
    NoNewEntriesKeepSeats(s, t);
    SameHistoryKeepsHands(board, s, t);
    QuietKeepsNotices(s, t);
  }

  lemma StepKeeps(board: Table, s: State, a: Action)
    requires Holds(board, s) && SaleStartsOpen(board) && KeepsRoom(s, a)
    ensures Holds(board, Do(board, s, a))
  {
    StepKeepsCardsOk(board, s, a);
    StepKeepsSeats(board, s, a);
    StepKeepsHands(board, s, a);
    StepTellsOnce(board, s, a);
  }

  /** All of it over every run from an empty board. */
  lemma {:induction false} RunsKeep(board: Table, catalogue: map<ServiceId, Service>, run: seq<Action>)
    requires SaleStartsOpen(board) && AlwaysKeepsRoom(board, Empty(catalogue), run)
    ensures Holds(board, Exec(board, Empty(catalogue), run))
    decreases |run|
  {
    if run == [] {
      EmptyHolds(board, catalogue);
    } else {
      RunsKeep(board, catalogue, run[..|run| - 1]);
      StepKeeps(board, Exec(board, Empty(catalogue), run[..|run| - 1]), run[|run| - 1]);
    }
  }
}
