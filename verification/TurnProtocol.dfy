/**
 * The inbound-turn protocol as a step relation: webhook transactions, the Redis dispatch
 * list and its per-conversation locks, any number of workers, and the start-up sweep,
 * interleaved in any order. `Do` performs one action; an action that is not possible in a
 * state leaves the state alone, so every sequence of actions is a run.
 */
module TurnProtocol {
  import opened Wrappers
  import opened History

  type WorkerId = nat

  /** The columns of `conversation` that the protocol reads and writes. */
  datatype Convo = Convo(active: bool, closed: bool, mark: nat)

  /** Where a worker is inside `process_one`. */
  datatype Phase =
    | Idle
    | Popped(conv: ConvId)                          // job taken off the list, lock not tried
    | Bounced(conv: ConvId)                         // lock taken by someone else, job to be put back
    | Holding(conv: ConvId)                         // lock taken, nothing read yet
    | Running(conv: ConvId, from: nat, target: nat) // snapshot read, turn in flight
    | Sending(conv: ConvId, turn: nat)              // turn saved, messages going out
    | Leaving(conv: ConvId)                         // handler over, lock still held

  /** What the outside world can see: turns saved and messages sent for a saved turn. */
  datatype Event =
    | Saved(conv: ConvId, from: nat, to: nat)
    | Sent(conv: ConvId, turn: nat)

  datatype State = State(
    table: seq<Row>,
    queue: seq<ConvId>,       // pushed at the front, popped at the back
    locks: set<ConvId>,       // lock keys present in Redis; a key does not name its owner
    convs: seq<Convo>,        // conversations by creation order
    workers: map<WorkerId, Phase>,
    log: seq<Event>)

  datatype Action =
    | Open                                              // a conversation is created
    | Receive(conv: ConvId, text: string, enqueue: bool) // inbound row inserted, job pushed unless opt-out
    | Commit(order: nat)                                // the webhook's transaction commits
    | Post(conv: ConvId, role: Role, text: string)      // an operator reply or a system note
    | Toggle(conv: ConvId, active: bool)                // AI switched on or off
    | Close(conv: ConvId, closed: bool)
    | Start(worker: WorkerId)
    | Pop(worker: WorkerId)
    | TryLock(worker: WorkerId)
    | Requeue(worker: WorkerId)
    | Read(worker: WorkerId)
    | Save(worker: WorkerId, replies: seq<string>, active: bool)
    | Send(worker: WorkerId)
    | Finish(worker: WorkerId)
    | Fail(worker: WorkerId)                            // the handler raised
    | Release(worker: WorkerId)
    | Crash(worker: WorkerId)                           // the process died; its lock key stays
    | Expire(conv: ConvId)                              // a lock key reached its time to live
    | Sweep(conv: ConvId)                               // catch-up pushes a job for the conversation

  function Initial(): State {
    State([], [], {}, [], map[], [])
  }

  function PhaseOf(s: State, w: WorkerId): Phase {
    if w in s.workers then s.workers[w] else Idle
  }

  function To(s: State, w: WorkerId, phase: Phase): State {
    s.(workers := s.workers[w := phase])
  }

  /** The worker holds the lock of the conversation, as far as it knows. */
  predicate InTurn(phase: Phase) {
    phase.Holding? || phase.Running? || phase.Sending? || phase.Leaving?
  }

  /** The assistant rows a turn stores, already committed. */
  function Replies(conv: ConvId, replies: seq<string>): (rows: seq<Row>)
    ensures |rows| == |replies|
    ensures forall i :: 0 <= i < |rows| ==> rows[i] == Row(conv, Assistant, replies[i], true)
  {
    seq(|replies|, i requires 0 <= i < |replies| => Row(conv, Assistant, replies[i], true))
  }

  /** The turn guard: what a fresh snapshot leaves to answer, if anything. */
  function TargetOf(s: State, conv: ConvId): Option<nat> {
    if conv < |s.convs| && s.convs[conv].active
       && Load(s.table, conv).latest.Some?
       && Load(s.table, conv).latest.value > s.convs[conv].mark
    then Load(s.table, conv).latest
    else None
  }

  function Do(s: State, a: Action): State {
    match a
    case Open => s.(convs := s.convs + [Convo(true, false, 0)])
    case Receive(c, text, enqueue) =>
      if c < |s.convs|
      then s.(table := s.table + [Row(c, Lead, text, false)], queue := if enqueue then [c] + s.queue else s.queue)
      else s
    case Commit(o) =>
      if 0 < o <= |s.table| then s.(table := s.table[o - 1 := s.table[o - 1].(committed := true)]) else s
    case Post(c, role, text) =>
      if c < |s.convs| && role != Lead then s.(table := s.table + [Row(c, role, text, true)]) else s
    case Toggle(c, active) =>
      if c < |s.convs| then s.(convs := s.convs[c := s.convs[c].(active := active)]) else s
    case Close(c, closed) =>
      if c < |s.convs| then s.(convs := s.convs[c := s.convs[c].(closed := closed)]) else s
    case Start(w) =>
      if w !in s.workers then To(s, w, Idle) else s
    case Pop(w) =>
      if w in s.workers && s.workers[w].Idle? && s.queue != []
      then To(s, w, Popped(s.queue[|s.queue| - 1])).(queue := s.queue[..|s.queue| - 1])
      else s
    case TryLock(w) =>
      if !PhaseOf(s, w).Popped? then s
      else if PhaseOf(s, w).conv in s.locks then To(s, w, Bounced(PhaseOf(s, w).conv))
      else To(s, w, Holding(PhaseOf(s, w).conv)).(locks := s.locks + {PhaseOf(s, w).conv})
    case Requeue(w) =>
      if PhaseOf(s, w).Bounced? then To(s, w, Idle).(queue := [PhaseOf(s, w).conv] + s.queue) else s
    case Read(w) =>
      if !PhaseOf(s, w).Holding? then s
      else
        var c := PhaseOf(s, w).conv;
        if TargetOf(s, c).Some?
        then To(s, w, Running(c, s.convs[c].mark, TargetOf(s, c).value))
        else To(s, w, Leaving(c))
    case Save(w, replies, active) =>
      if PhaseOf(s, w).Running? && PhaseOf(s, w).conv < |s.convs| then DoSave(s, w, replies, active) else s
    case Send(w) =>
      if PhaseOf(s, w).Sending? then s.(log := s.log + [Sent(PhaseOf(s, w).conv, PhaseOf(s, w).turn)]) else s
    case Finish(w) =>
      if PhaseOf(s, w).Sending? then To(s, w, Leaving(PhaseOf(s, w).conv)) else s
    case Fail(w) =>
      if PhaseOf(s, w).Holding? || PhaseOf(s, w).Running? || PhaseOf(s, w).Sending?
      then To(s, w, Leaving(PhaseOf(s, w).conv)) else s
    case Release(w) =>
      if PhaseOf(s, w).Leaving? then To(s, w, Idle).(locks := s.locks - {PhaseOf(s, w).conv}) else s
    case Crash(w) =>
      if w in s.workers then To(s, w, Idle) else s
    case Expire(c) => s.(locks := s.locks - {c})
    case Sweep(c) =>
      if c < |s.convs| then s.(queue := [c] + s.queue) else s
  }

  /** `save_turn`: advance the mark, store the replies, commit. */
  function DoSave(s: State, w: WorkerId, replies: seq<string>, active: bool): State
    requires PhaseOf(s, w).Running? && PhaseOf(s, w).conv < |s.convs|
  {
    var p := PhaseOf(s, w);
    To(s, w, Sending(p.conv, |s.log|)).(
      table := s.table + Replies(p.conv, replies),
      convs := s.convs[p.conv := s.convs[p.conv].(active := active, mark := p.target)],
      log := s.log + [Saved(p.conv, p.from, p.target)])
  }

  function Exec(s: State, run: seq<Action>): State
    decreases |run|
  {
    if run == [] then s else Exec(Do(s, run[0]), run[1..])
  }

  // ---------------------------------------------------------------- safety

  /** At most one turn of a conversation is in flight. */
  predicate Exclusive(s: State) {
    forall v, w :: v in s.workers && w in s.workers && InTurn(s.workers[v]) && InTurn(s.workers[w])
                   && s.workers[v].conv == s.workers[w].conv
                   ==> v == w
  }

  /** Whoever is inside a turn is covered by its lock key. */
  predicate Guarded(s: State) {
    forall w :: w in s.workers && InTurn(s.workers[w]) ==> s.workers[w].conv in s.locks
  }

  /** A turn in flight still starts at the mark, and targets a visible lead row above it. */
  predicate Current(s: State) {
    forall w :: w in s.workers && s.workers[w].Running? ==> CurrentTurn(s, s.workers[w])
  }

  predicate CurrentTurn(s: State, p: Phase)
    requires p.Running?
  {
    && p.conv < |s.convs| && p.from == s.convs[p.conv].mark < p.target
    && IsLeadOrder(s.table, p.conv, p.target)
  }

  predicate IsLeadOrder(table: seq<Row>, conv: ConvId, order: nat) {
    0 < order <= |table| && IsLeadRow(table[order - 1], conv)
  }

  /** Saved turns only look back: each interval is proper and below its conversation's mark. */
  predicate Bounded(s: State) {
    forall i :: 0 <= i < |s.log| && s.log[i].Saved? ==> BoundedTurn(s, s.log[i])
  }

  predicate BoundedTurn(s: State, e: Event)
    requires e.Saved?
  {
    && e.conv < |s.convs| && e.from < e.to <= s.convs[e.conv].mark
    && IsLeadOrder(s.table, e.conv, e.to)
  }

  /** The intervals of one conversation's saved turns are disjoint and increasing. */
  predicate Increasing(log: seq<Event>) {
    forall i, j :: 0 <= i < j < |log| && log[i].Saved? && log[j].Saved? && log[i].conv == log[j].conv ==>
                     log[i].to <= log[j].from
  }

  /** A message goes out only for a turn of the same conversation saved before it. */
  predicate SendsFollowSaves(log: seq<Event>) {
    forall i :: 0 <= i < |log| && log[i].Sent? ==>
                  log[i].turn < i && log[log[i].turn].Saved? && log[log[i].turn].conv == log[i].conv
  }

  /** A sending worker points at its own saved turn. */
  predicate Anchored(s: State) {
    forall w :: w in s.workers && s.workers[w].Sending? ==>
                  var p := s.workers[w];
                  p.turn < |s.log| && s.log[p.turn].Saved? && s.log[p.turn].conv == p.conv
  }

  /** Every row belongs to a conversation that exists. */
  predicate Known(s: State) {
    forall i :: 0 <= i < |s.table| ==> s.table[i].conv < |s.convs|
  }

  predicate Safe(s: State) {
    Known(s) && Exclusive(s) && Guarded(s) && Current(s) && Bounded(s) && Increasing(s.log) && SendsFollowSaves(s.log) && Anchored(s)
  }

  /** A lock key expires only when nobody is inside a turn of that conversation. */
  predicate LockOutlivesTurn(s: State, a: Action) {
    a.Expire? ==> forall w :: w in s.workers && InTurn(s.workers[w]) ==> s.workers[w].conv != a.conv
  }

  predicate LocksOutliveTurns(s: State, run: seq<Action>)
    decreases |run|
  {
    run == [] || (LockOutlivesTurn(s, run[0]) && LocksOutliveTurns(Do(s, run[0]), run[1..]))
  }

  lemma StepKeepsKnown(s: State, a: Action)
    requires Known(s) && Current(s)
    ensures Known(Do(s, a))
  {
  }

  lemma WorkerStepKeepsLocking(s: State, a: Action)
    requires Exclusive(s) && Guarded(s) && LockOutlivesTurn(s, a)
    ensures Exclusive(Do(s, a)) && Guarded(Do(s, a))
  {
  }

  /** What a window reports is the order of the thread's newest visible lead row. */
  lemma WindowTargetsLead(table: seq<Row>, conv: ConvId)
    requires Load(table, conv).latest.Some?
    ensures IsLeadOrder(table, conv, Load(table, conv).latest.value)
    ensures Load(table, conv).latest.value == LatestLead(table, conv)
  {
    WindowAgreesExactly(table, conv);
    if LeadInSight(table, conv) {
      var first, last := WindowRefinesThread(table, conv);
    }
  }

  /** The history is append-only: a visible row is never removed or changed. */
  lemma VisibleRowsStay(s: State, a: Action, conv: ConvId, order: nat)
    requires IsLeadOrder(s.table, conv, order)
    ensures IsLeadOrder(Do(s, a).table, conv, order)
  {
  }

  /** Marks only move in a save, and conversations are never removed. */
  lemma MarksMoveInSaves(s: State, a: Action, conv: ConvId)
    requires conv < |s.convs|
    ensures conv < |Do(s, a).convs|
    ensures !(a.Save? && PhaseOf(s, a.worker).Running? && PhaseOf(s, a.worker).conv == conv)
            ==> Do(s, a).convs[conv].mark == s.convs[conv].mark
    ensures a.Save? && PhaseOf(s, a.worker).Running? && PhaseOf(s, a.worker).conv == conv
            ==> Do(s, a).convs[conv].mark == PhaseOf(s, a.worker).target
  {
  }

  lemma StepKeepsCurrent(s: State, a: Action)
    requires Exclusive(s) && Current(s)
    ensures Current(Do(s, a))
  {
    var t := Do(s, a);
    forall w | w in t.workers && t.workers[w].Running? ensures CurrentTurn(t, t.workers[w]) {
      var p := t.workers[w];
      if w in s.workers && s.workers[w] == p {
        VisibleRowsStay(s, a, p.conv, p.target);
        MarksMoveInSaves(s, a, p.conv);
      } else {
        assert a == Read(w);
        WindowTargetsLead(s.table, p.conv);
      }
    }
  }

  lemma StepKeepsBounded(s: State, a: Action)
    requires Current(s) && Bounded(s)
    ensures Bounded(Do(s, a))
  {
    var t := Do(s, a);
    forall i | 0 <= i < |t.log| && t.log[i].Saved? ensures BoundedTurn(t, t.log[i]) {
      var e := t.log[i];
      if i < |s.log| {
        assert s.log[i] == e;
        VisibleRowsStay(s, a, e.conv, e.to);
        MarksMoveInSaves(s, a, e.conv);
      } else {
        var p := PhaseOf(s, a.worker);
        VisibleRowsStay(s, a, p.conv, p.target);
      }
    }
  }

  /** The log only grows, by at most one event. */
  lemma LogGrows(s: State, a: Action)
    ensures |s.log| <= |Do(s, a).log| <= |s.log| + 1
    ensures forall i :: 0 <= i < |s.log| ==> Do(s, a).log[i] == s.log[i]
    ensures |Do(s, a).log| > |s.log| ==>
              || (a.Save? && PhaseOf(s, a.worker).Running?
                  && Do(s, a).log[|s.log|] == Saved(PhaseOf(s, a.worker).conv, PhaseOf(s, a.worker).from, PhaseOf(s, a.worker).target))
              || (a.Send? && PhaseOf(s, a.worker).Sending?
                  && Do(s, a).log[|s.log|] == Sent(PhaseOf(s, a.worker).conv, PhaseOf(s, a.worker).turn))
  {
  }

  lemma StepKeepsIntervals(s: State, a: Action)
    requires Current(s) && Bounded(s) && Increasing(s.log)
    ensures Increasing(Do(s, a).log)
  {
    LogGrows(s, a);
    var log := Do(s, a).log;
    forall i, j | 0 <= i < j < |log| && log[i].Saved? && log[j].Saved? && log[i].conv == log[j].conv
      ensures log[i].to <= log[j].from
    {
      if j == |s.log| {
        assert BoundedTurn(s, s.log[i]);
        assert CurrentTurn(s, PhaseOf(s, a.worker));
      }
    }
  }

  lemma StepKeepsSends(s: State, a: Action)
    requires SendsFollowSaves(s.log) && Anchored(s)
    ensures SendsFollowSaves(Do(s, a).log) && Anchored(Do(s, a))
  {
    LogGrows(s, a);
  }

  lemma StepKeepsSafe(s: State, a: Action)
    requires Safe(s) && LockOutlivesTurn(s, a)
    ensures Safe(Do(s, a))
  {
    StepKeepsKnown(s, a);
    WorkerStepKeepsLocking(s, a);
    StepKeepsCurrent(s, a);
    StepKeepsBounded(s, a);
    StepKeepsIntervals(s, a);
    StepKeepsSends(s, a);
  }

  /**
   * In every interleaving in which no lock key expires under a running turn: at most one
   * turn per conversation is in flight, saved intervals are disjoint and increasing, and
   * every message follows the save of its own turn.
   */
  lemma {:induction false} RunsAreSafe(s: State, run: seq<Action>)
    requires Safe(s) && LocksOutliveTurns(s, run)
    ensures Safe(Exec(s, run))
    decreases |run|
  {
    if run != [] {
      StepKeepsSafe(s, run[0]);
      RunsAreSafe(Do(s, run[0]), run[1..]);
    }
  }

  /**
   * No lead row is answered twice: the intervals of two different saved turns of its
   * conversation never both contain it.
   */
  lemma AnsweredAtMostOnce(s: State, run: seq<Action>, i: nat, j: nat, order: nat)
    requires Safe(s) && LocksOutliveTurns(s, run)
    requires var log := Exec(s, run).log;
             && i < |log| && j < |log| && log[i].Saved? && log[j].Saved? && log[i].conv == log[j].conv
             && log[i].from < order <= log[i].to && log[j].from < order <= log[j].to
    ensures i == j
  {
    RunsAreSafe(s, run);
  }

  /**
   * The lock excludes a second worker exactly as long as its key outlives the turn: with
   * the job of a conversation in another worker's hands, losing the key to its time to
   * live puts two turns in flight if and only if one was running.
   */
  lemma ExpiryBreaksExclusionExactly(s: State, v: WorkerId, conv: ConvId)
    requires Safe(s) && PhaseOf(s, v) == Popped(conv)
    ensures Exclusive(Do(s, TryLock(v)))
    ensures Exclusive(Do(Do(s, Expire(conv)), TryLock(v))) <==> LockOutlivesTurn(s, Expire(conv))
  {
    WorkerStepKeepsLocking(s, TryLock(v));
    var t := Do(Do(s, Expire(conv)), TryLock(v));
    assert t.workers[v] == Holding(conv);
    if !LockOutlivesTurn(s, Expire(conv)) {
      var w :| w in s.workers && InTurn(s.workers[w]) && s.workers[w].conv == conv;
      assert w != v && t.workers[w] == s.workers[w];
    }
  }

  /**
   * The key is deleted without asking whose it is: a worker that leaves takes the key away
   * from under another worker's turn exactly when there is such a turn, which takes a key
   * lost earlier. From a safe state there is none.
   */
  lemma ReleaseUnguardsExactly(s: State, v: WorkerId, conv: ConvId)
    requires PhaseOf(s, v) == Leaving(conv) && Guarded(s)
    ensures Guarded(Do(s, Release(v)))
            <==> forall w :: w in s.workers && w != v && InTurn(s.workers[w]) ==> s.workers[w].conv != conv
    ensures Exclusive(s) ==> Guarded(Do(s, Release(v)))
  {
    var t := Do(s, Release(v));
    assert t.workers[v] == Idle;
    forall w | w in s.workers && w != v ensures t.workers[w] == s.workers[w] {
    }
  }

  /** Reading a one-message thread targets that message. */
  lemma SoleMessageIsTarget(text: string)
    ensures Load([Row(0, Lead, text, true)], 0).latest == Some(1)
  {
    var table := [Row(0, Lead, text, true)];
    assert table[..0] == [];
    assert LatestLead(table, 0) == 1;
    assert Thread(table, 0) == [Entry(1, Lead, text)];
    assert Recent(Thread(table, 0), WINDOW)[0].role == Lead;
    WindowAgreesExactly(table, 0);
  }

  lemma Extend(run: seq<Action>, s: State, a: Action) returns (longer: seq<Action>, next: State)
    requires Exec(Initial(), run) == s
    ensures longer == run + [a] && next == Do(s, a) == Exec(Initial(), longer)
  {
    longer, next := run + [a], Do(s, a);
    RunsCompose(Initial(), run, [a]);
    assert [a][1..] == [];
    assert Exec(s, [a]) == Exec(Do(s, a), []);
  }

  /** A state with two workers, one lead message and no turn saved. */
  function TwoWorkers(queue: seq<ConvId>, locks: set<ConvId>, first: Phase, second: Phase): State {
    State([Row(0, Lead, "hola", true)], queue, locks, [Convo(true, false, 0)], map[0 := first, 1 := second], [])
  }

  lemma SoleMessageIsRead(s: State, w: WorkerId)
    requires s.table == [Row(0, Lead, "hola", true)] && s.convs == [Convo(true, false, 0)] && PhaseOf(s, w) == Holding(0)
    ensures Do(s, Read(w)) == To(s, w, Running(0, 0, 1))
  {
    SoleMessageIsTarget("hola");
  }

  lemma TwoJobsForOneMessage() returns (run: seq<Action>, s: State)
    ensures Exec(Initial(), run) == s == TwoWorkers([0, 0], {}, Idle, Idle)
  {
    run, s := [], Initial();
    run, s := Extend(run, s, Open);
    run, s := Extend(run, s, Receive(0, "hola", true));
    run, s := Extend(run, s, Commit(1));
    assert s.table == [Row(0, Lead, "hola", true)];
    run, s := Extend(run, s, Sweep(0));
    run, s := Extend(run, s, Start(0));
    run, s := Extend(run, s, Start(1));
  }

  lemma FirstWorkerHolds() returns (run: seq<Action>, s: State)
    ensures Exec(Initial(), run) == s == TwoWorkers([], {0}, Holding(0), Popped(0))
  {
    run, s := BothWorkersPopped();
    run, s := Extend(run, s, TryLock(0));
  }

  lemma FirstWorkerRuns() returns (run: seq<Action>, s: State)
    ensures Exec(Initial(), run) == s == TwoWorkers([], {0}, Running(0, 0, 1), Popped(0))
  {
    run, s := FirstWorkerHolds();
    SoleMessageIsRead(s, 0);
    run, s := Extend(run, s, Read(0));
  }

  lemma BothWorkersPopped() returns (run: seq<Action>, s: State)
    ensures Exec(Initial(), run) == s == TwoWorkers([], {}, Popped(0), Popped(0))
  {
    run, s := TwoJobsForOneMessage();
    run, s := Extend(run, s, Pop(0));
    run, s := Extend(run, s, Pop(1));
  }

  lemma BothWorkersHold() returns (run: seq<Action>, s: State)
    ensures Exec(Initial(), run) == s == TwoWorkers([], {0}, Running(0, 0, 1), Holding(0))
  {
    run, s := FirstWorkerRuns();
    run, s := Extend(run, s, Expire(0));
    run, s := Extend(run, s, TryLock(1));
  }

  lemma BothWorkersRun() returns (run: seq<Action>, s: State)
    ensures Exec(Initial(), run) == s == TwoWorkers([], {0}, Running(0, 0, 1), Running(0, 0, 1))
  {
    run, s := BothWorkersHold();
    SoleMessageIsRead(s, 1);
    run, s := Extend(run, s, Read(1));
  }

  /** A lock key lives thirty seconds; under a longer turn the same message is answered twice. */
  lemma ExpiryAnswersTwice() returns (run: seq<Action>)
    ensures Exec(Initial(), run).log == [Saved(0, 0, 1), Saved(0, 0, 1)]
  {
    var s;
    run, s := BothWorkersRun();
    run, s := Extend(run, s, Save(0, [], true));
    run, s := Extend(run, s, Save(1, [], true));
  }

  lemma {:induction false} RunsCompose(s: State, first: seq<Action>, second: seq<Action>)
    ensures Exec(s, first + second) == Exec(Exec(s, first), second)
    decreases |first|
  {
    if first == [] {
      assert first + second == second;
    } else {
      assert (first + second)[1..] == first[1..] + second;
      RunsCompose(Do(s, first[0]), first[1..], second);
    }
  }

  // ---------------------------------------------------------------- nothing is forgotten

  /** The lead wrote something the agent is on duty to answer and has not. */
  predicate Pending(s: State, conv: ConvId) {
    conv < |s.convs| && s.convs[conv].active && LatestLead(s.table, conv) > s.convs[conv].mark
  }

  /** The worker has a job of the conversation and has not read the thread yet. */
  predicate Unread(phase: Phase, conv: ConvId) {
    (phase.Popped? || phase.Bounced? || phase.Holding?) && phase.conv == conv
  }

  /** The worker is going to deal with everything the lead wrote so far. */
  predicate Carries(s: State, phase: Phase, conv: ConvId) {
    || Unread(phase, conv)
    || (phase.Running? && phase.conv == conv && phase.target >= LatestLead(s.table, conv))
  }

  predicate CarriedBesides(s: State, w: WorkerId, conv: ConvId) {
    conv in s.queue || exists v :: v in s.workers && v != w && Carries(s, s.workers[v], conv)
  }

  predicate Carried(s: State, conv: ConvId) {
    conv in s.queue || exists v :: v in s.workers && Carries(s, s.workers[v], conv)
  }

  /** A job that will still read the thread. */
  predicate Awaited(s: State, conv: ConvId) {
    conv in s.queue || exists v :: v in s.workers && Unread(s.workers[v], conv)
  }

  predicate Covered(s: State) {
    forall c :: 0 <= c < |s.convs| && Pending(s, c) ==> Carried(s, c)
  }

  /** The action leaves a pending conversation with nobody on its way to it. */
  predicate Strands(s: State, a: Action) {
    match a
    case Commit(o) =>  // the row became visible after its job was consumed, or was stored with no job
      && 0 < o <= |s.table| && s.table[o - 1].role == Lead && !s.table[o - 1].committed
      && var c := s.table[o - 1].conv;
         && c < |s.convs| && s.convs[c].active && o > s.convs[c].mark && o > LatestLead(s.table, c) && !Awaited(s, c)
    case Toggle(c, active) =>  // the AI is switched back on over unanswered messages
      && active && c < |s.convs| && !s.convs[c].active
      && LatestLead(s.table, c) > s.convs[c].mark && !Carried(s, c)
    case Read(w) =>  // ten later rows hide the lead's message from the window
      && PhaseOf(s, w).Holding? && Pending(s, PhaseOf(s, w).conv)
      && !LeadInSight(s.table, PhaseOf(s, w).conv) && !CarriedBesides(s, w, PhaseOf(s, w).conv)
    case Save(w, _, active) =>  // the save overwrites an operator's takeover
      && PhaseOf(s, w).Running? && active
      && var c := PhaseOf(s, w).conv;
         && c < |s.convs| && !s.convs[c].active
         && LatestLead(s.table, c) > PhaseOf(s, w).target && !CarriedBesides(s, w, c)
    case Fail(w) =>  // the handler raised before saving
      && (PhaseOf(s, w).Holding? || PhaseOf(s, w).Running?) && Drops(s, w)
    case Crash(w) =>
      && w in s.workers && !s.workers[w].Idle? && Drops(s, w)
    case _ => false
  }

  predicate Drops(s: State, w: WorkerId)
    requires !PhaseOf(s, w).Idle?
  {
    var c := PhaseOf(s, w).conv;
    Pending(s, c) && Carries(s, PhaseOf(s, w), c) && !CarriedBesides(s, w, c)
  }

  lemma NewestAfterSave(s: State, a: Action, conv: ConvId)
    requires a.Save?
    ensures LatestLead(Do(s, a).table, conv) == LatestLead(s.table, conv)
  {
    if PhaseOf(s, a.worker).Running? {
      LatestLeadIgnores(s.table, Replies(PhaseOf(s, a.worker).conv, a.replies), conv);
    }
  }

  /** How an action moves the newest visible lead order of a thread. */
  lemma NewestAfter(s: State, a: Action, conv: ConvId)
    ensures var flips := a.Commit? && 0 < a.order <= |s.table| && s.table[a.order - 1].role == Lead
                         && s.table[a.order - 1].conv == conv && a.order > LatestLead(s.table, conv);
            LatestLead(Do(s, a).table, conv) == if flips then a.order else LatestLead(s.table, conv)
  {
    match a
    case Receive(c, text, enqueue) => LatestLeadIgnores(s.table, [Row(c, Lead, text, false)], conv);
    case Post(c, role, text) => if role != Lead { LatestLeadIgnores(s.table, [Row(c, role, text, true)], conv); }
    case Save(w, replies, _) => NewestAfterSave(s, a, conv);
    case Commit(o) => if 0 < o <= |s.table| { LatestLeadAfterCommit(s.table, o, conv); }
    case _ =>
  }

  function Shown(row: Row): Row {
    row.(committed := true)
  }

  lemma LatestLeadStep(init: seq<Row>, last: Row, conv: ConvId)
    ensures LatestLead(init + [last], conv) == if IsLeadRow(last, conv) then |init| + 1 else LatestLead(init, conv)
  {
    assert (init + [last])[..|init|] == init;
  }

  lemma {:induction false} LatestLeadAfterCommit(table: seq<Row>, order: nat, conv: ConvId)
    requires 0 < order <= |table|
    ensures var after := table[order - 1 := Shown(table[order - 1])];
            LatestLead(after, conv) ==
              if table[order - 1].role == Lead && table[order - 1].conv == conv && order > LatestLead(table, conv)
              then order else LatestLead(table, conv)
  {
    var init, last := table[..|table| - 1], table[|table| - 1];
    assert table == init + [last];
    LatestLeadStep(init, last, conv);
    if order == |table| {
      assert table[order - 1 := Shown(last)] == init + [Shown(last)];
      LatestLeadStep(init, Shown(last), conv);
    } else {
      var shown := init[order - 1 := Shown(table[order - 1])];
      assert table[order - 1 := Shown(table[order - 1])] == shown + [last];
      LatestLeadStep(shown, last, conv);
      LatestLeadAfterCommit(init, order, conv);
    }
  }

  /** The worker's turn of this conversation is what the action saves. */
  predicate SavesTurn(s: State, a: Action, conv: ConvId) {
    a.Save? && PhaseOf(s, a.worker).Running? && PhaseOf(s, a.worker).conv == conv
  }

  /** Marks and activity of a conversation only change through its own switch and saves. */
  lemma ConvAfter(s: State, a: Action, conv: ConvId)
    requires conv < |s.convs|
    ensures conv < |Do(s, a).convs|
    ensures var after := Do(s, a).convs[conv];
            && after.mark == (if SavesTurn(s, a, conv) then PhaseOf(s, a.worker).target else s.convs[conv].mark)
            && after.active == (if SavesTurn(s, a, conv) || (a.Toggle? && a.conv == conv)
                                then a.active else s.convs[conv].active)
  {
  }

  /** The worker an action belongs to. */
  function Actor(a: Action): Option<WorkerId> {
    match a
    case Start(w) => Some(w)
    case Pop(w) => Some(w)
    case TryLock(w) => Some(w)
    case Requeue(w) => Some(w)
    case Read(w) => Some(w)
    case Save(w, _, _) => Some(w)
    case Send(w) => Some(w)
    case Finish(w) => Some(w)
    case Fail(w) => Some(w)
    case Release(w) => Some(w)
    case Crash(w) => Some(w)
    case _ => None
  }

  /** An action moves no other worker, and drops nothing from the list but the job it pops. */
  lemma OthersStay(s: State, a: Action)
    ensures forall v :: v in s.workers && Actor(a) != Some(v) ==> v in Do(s, a).workers && Do(s, a).workers[v] == s.workers[v]
    ensures forall v :: v in Do(s, a).workers && Actor(a) != Some(v) ==> v in s.workers
    ensures forall c :: c in s.queue && !a.Pop? ==> c in Do(s, a).queue
  {
  }

  lemma PopHandsOver(s: State, w: WorkerId, conv: ConvId)
    requires conv in s.queue
    ensures Carried(Do(s, Pop(w)), conv)
  {
    var t := Do(s, Pop(w));
    if w in s.workers && s.workers[w].Idle? {
      var i :| 0 <= i < |s.queue| && s.queue[i] == conv;
      if i < |s.queue| - 1 {
        assert t.queue[i] == conv;
      } else {
        assert t.workers[w] == Popped(conv);
      }
    }
  }

  /** The acting worker stops carrying the conversation in this step. */
  predicate PutsDown(s: State, a: Action, conv: ConvId) {
    match a
    case Read(w) => PhaseOf(s, w) == Holding(conv) && TargetOf(s, conv).None?
    case Save(w, _, _) => SavesTurn(s, a, conv)
    case Fail(w) => (PhaseOf(s, w).Holding? || PhaseOf(s, w).Running?) && Carries(s, PhaseOf(s, w), conv)
    case Crash(w) => w in s.workers && Carries(s, PhaseOf(s, w), conv)
    case _ => false
  }

  /** Who carried a conversation before a step still carries it, or has passed it on. */
  lemma CarriageAfter(s: State, a: Action, conv: ConvId)
    requires Carried(s, conv) && conv < |s.convs|
    requires LatestLead(Do(s, a).table, conv) == LatestLead(s.table, conv)
    requires PutsDown(s, a, conv) ==> CarriedBesides(s, Actor(a).value, conv)
    ensures Carried(Do(s, a), conv)
  {
    var t := Do(s, a);
    OthersStay(s, a);
    if conv in s.queue {
      if a.Pop? { PopHandsOver(s, a.worker, conv); }
    } else if v :| v in s.workers && Actor(a) != Some(v) && Carries(s, s.workers[v], conv) {
      assert Carries(t, t.workers[v], conv);
    } else {
      var w :| w in s.workers && Carries(s, s.workers[w], conv);
      assert Actor(a) == Some(w);
      OwnCarriageAfter(s, a, w, conv);
    }
  }

  lemma OwnCarriageAfter(s: State, a: Action, w: WorkerId, conv: ConvId)
    requires Actor(a) == Some(w) && w in s.workers && Carries(s, s.workers[w], conv) && conv < |s.convs|
    requires LatestLead(Do(s, a).table, conv) == LatestLead(s.table, conv)
    requires !PutsDown(s, a, conv)
    ensures Carried(Do(s, a), conv)
  {
    var t := Do(s, a);
    if a.Requeue? && s.workers[w].Bounced? {
      assert t.queue[0] == conv;
    } else {
      if a.Read? && s.workers[w].Holding? { WindowTargetsLead(s.table, conv); }
      assert w in t.workers && Carries(t, t.workers[w], conv);
    }
  }

  lemma NewConversationsAreEmpty(s: State, conv: ConvId)
    requires Known(s) && conv >= |s.convs|
    ensures LatestLead(s.table, conv) == 0
  {
  }

  /** A step that strands nobody leaves every pending conversation with someone on its way. */
  lemma StepKeepsCovered(s: State, a: Action, conv: ConvId)
    requires Safe(s) && Covered(s) && !Strands(s, a) && Pending(Do(s, a), conv)
    ensures Carried(Do(s, a), conv)
  {
    var t := Do(s, a);
    if conv >= |s.convs| {
      NewestAfter(s, a, conv);
      NewConversationsAreEmpty(s, conv);
    } else if LatestLead(t.table, conv) != LatestLead(s.table, conv) {
      NewestAfter(s, a, conv);
      ConvAfter(s, a, conv);
      assert Awaited(s, conv);
      OthersStay(s, a);
      if v :| v in s.workers && Unread(s.workers[v], conv) {
        assert Carries(t, t.workers[v], conv);
      }
    } else {
      PendingWasCarried(s, a, conv);
      CarriageAfter(s, a, conv);
    }
  }

  lemma PendingWasCarried(s: State, a: Action, conv: ConvId)
    requires Safe(s) && Covered(s) && !Strands(s, a) && Pending(Do(s, a), conv) && conv < |s.convs|
    requires LatestLead(Do(s, a).table, conv) == LatestLead(s.table, conv)
    ensures Carried(s, conv)
    ensures PutsDown(s, a, conv) ==> CarriedBesides(s, Actor(a).value, conv)
  {
    ConvAfter(s, a, conv);
    if SavesTurn(s, a, conv) {
      assert CurrentTurn(s, PhaseOf(s, a.worker));
      if s.convs[conv].active {
        assert Pending(s, conv);
      }
    } else if s.convs[conv].active {
      assert Pending(s, conv);
      if a.Read? && PutsDown(s, a, conv) {
        HiddenWhenNoTarget(s, conv);
      }
    }
  }

  /** A pending conversation yields no target only when its lead rows are out of sight. */
  lemma HiddenWhenNoTarget(s: State, conv: ConvId)
    requires Pending(s, conv) && TargetOf(s, conv).None?
    ensures !LeadInSight(s.table, conv)
  {
    if LeadInSight(s.table, conv) {
      var first, last := WindowRefinesThread(s.table, conv);
    }
  }

  lemma NoTargetWhenHidden(s: State, conv: ConvId)
    requires !LeadInSight(s.table, conv)
    ensures TargetOf(s, conv).None?
  {
    WindowAgreesExactly(s.table, conv);
  }

  /** The conversation a stranding step leaves behind. */
  function Stranded(s: State, a: Action): ConvId
    requires Strands(s, a)
  {
    if a.Commit? then s.table[a.order - 1].conv else if a.Toggle? then a.conv else PhaseOf(s, Actor(a).value).conv
  }

  lemma StrandingLeavesPending(s: State, a: Action)
    requires Safe(s) && Strands(s, a)
    ensures Pending(Do(s, a), Stranded(s, a))
  {
    NewestAfter(s, a, Stranded(s, a));
    ConvAfter(s, a, Stranded(s, a));
  }

  lemma BystandersDoNotCarry(s: State, a: Action, v: WorkerId)
    requires Safe(s) && Strands(s, a) && v in Do(s, a).workers && Actor(a) != Some(v)
    ensures !Carries(Do(s, a), Do(s, a).workers[v], Stranded(s, a))
  {
    NewestAfter(s, a, Stranded(s, a));
    OthersStay(s, a);
    if a.Commit? && s.workers[v].Running? && s.workers[v].conv == Stranded(s, a) {
      assert CurrentTurn(s, s.workers[v]);
    }
  }

  lemma StrandingLeavesAlone(s: State, a: Action)
    requires Safe(s) && Strands(s, a)
    ensures !Carried(Do(s, a), Stranded(s, a))
  {
    var t, conv := Do(s, a), Stranded(s, a);
    if a.Read? { NoTargetWhenHidden(s, conv); }
    forall v | v in t.workers ensures !Carries(t, t.workers[v], conv) {
      if Actor(a) != Some(v) {
        BystandersDoNotCarry(s, a, v);
      }
    }
  }

  /** A stranding step does leave a pending conversation behind. */
  lemma StrandingUncovers(s: State, a: Action) returns (conv: ConvId)
    requires Safe(s) && Strands(s, a)
    ensures Pending(Do(s, a), conv) && !Carried(Do(s, a), conv)
  {
    conv := Stranded(s, a);
    StrandingLeavesPending(s, a);
    StrandingLeavesAlone(s, a);
  }

  /**
   * Exactly which steps leave a conversation pending with nobody on its way: from a state
   * where every conversation whose newest message is above its mark has a job or a worker
   * coming, the next state has the same property unless the step is one of the six listed in
   * `Strands`. Older messages that show late are the subject of `TurnSight`.
   */
  lemma CoverageKeptExactly(s: State, a: Action)
    requires Safe(s) && Covered(s)
    ensures Covered(Do(s, a)) <==> !Strands(s, a)
  {
    if Strands(s, a) {
      var conv := StrandingUncovers(s, a);
    } else {
      forall c | 0 <= c < |Do(s, a).convs| && Pending(Do(s, a), c) ensures Carried(Do(s, a), c) {
        StepKeepsCovered(s, a, c);
      }
    }
  }

  predicate NeverStrands(s: State, run: seq<Action>)
    decreases |run|
  {
    run == [] || (!Strands(s, run[0]) && LockOutlivesTurn(s, run[0]) && NeverStrands(Do(s, run[0]), run[1..]))
  }

  predicate Quiet(s: State) {
    s.queue == [] && forall w :: w in s.workers ==> s.workers[w].Idle?
  }

  lemma {:induction false} RunsStayCovered(s: State, run: seq<Action>)
    requires Safe(s) && Covered(s) && NeverStrands(s, run)
    ensures Covered(Exec(s, run))
    decreases |run|
  {
    if run != [] {
      StepKeepsSafe(s, run[0]);
      CoverageKeptExactly(s, run[0]);
      RunsStayCovered(Do(s, run[0]), run[1..]);
    }
  }

  /**
   * After any run with no stranding step, once the list is empty and the workers are idle,
   * the newest message of every active conversation is at or below its mark. That a turn had
   * each of them before its eyes takes more: see `TurnSight.EveryMessageIsSeen`.
   */
  lemma QuietMeansAnswered(run: seq<Action>, conv: ConvId)
    requires NeverStrands(Initial(), run) && Quiet(Exec(Initial(), run))
    ensures !Pending(Exec(Initial(), run), conv)
  {
    RunsStayCovered(Initial(), run);
  }

  /** One worker, one stored message, nothing saved. */
  function OneWorker(locks: set<ConvId>, phase: Phase, shown: bool): State {
    State([Row(0, Lead, "hola", shown)], [], locks, [Convo(true, false, 0)], map[0 := phase], [])
  }

  lemma JobTakenEarly() returns (run: seq<Action>, s: State)
    ensures Exec(Initial(), run) == s == OneWorker({}, Popped(0), false)
  {
    run, s := [], Initial();
    run, s := Extend(run, s, Open);
    run, s := Extend(run, s, Receive(0, "hola", true));
    run, s := Extend(run, s, Start(0));
    run, s := Extend(run, s, Pop(0));
  }

  /** The webhook pushes the job before it commits the row; a quick worker then finds nothing, and nobody comes back. */
  lemma LateCommitIsForgotten() returns (run: seq<Action>)
    ensures Quiet(Exec(Initial(), run)) && Pending(Exec(Initial(), run), 0)
  {
    var s;
    run, s := JobTakenEarly();
    run, s := ReadTooEarly(run, s);
    run, s := Extend(run, s, Release(0));
    assert s == OneWorker({}, Idle, false);
    run, s := Extend(run, s, Commit(1));
    assert s.table == [Row(0, Lead, "hola", true)];
    assert LatestLead(s.table, 0) == 1;
  }

  lemma ReadTooEarly(run: seq<Action>, s: State) returns (longer: seq<Action>, next: State)
    requires Exec(Initial(), run) == s == OneWorker({}, Popped(0), false)
    ensures Exec(Initial(), longer) == next == OneWorker({0}, Leaving(0), false)
  {
    longer, next := Extend(run, s, TryLock(0));
    assert next == OneWorker({0}, Holding(0), false);
    assert Thread(next.table, 0) == [] by { assert next.table[..0] == []; }
    NoTargetWhenHidden(next, 0);
    longer, next := Extend(longer, next, Read(0));
  }
}
