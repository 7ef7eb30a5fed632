/**
 * Which messages a turn had before its eyes. The mark of a conversation is one number, but a turn
 * sees only a window of ten rows, and rows become visible out of order: `message_order` is drawn
 * when the row is inserted and the row shows when its transaction commits. This module follows the
 * protocol and remembers what each turn read, and says exactly which messages the mark passes over.
 */
module TurnSight {
  import opened Wrappers
  import opened History
  import opened TurnProtocol

  /**
   * The protocol's state, the table each worker read last, and the messages seen: those in the
   * window of a saved turn and in its interval.
   */
  datatype Watch = Watch(s: State, views: map<WorkerId, seq<Row>>, seen: set<nat>)

  function Begin(): Watch {
    Watch(Initial(), map[], {})
  }

  /** What a turn answers when it is saved. */
  function Sight(read: seq<Row>, p: Phase): set<nat>
    requires p.Running?
  {
    set o: nat | p.from < o <= p.target && InWindow(read, p.conv, o)
  }

  function Step(wt: Watch, a: Action): Watch {
    var t := Do(wt.s, a);
    match a
    case Read(w) => Watch(t, if PhaseOf(wt.s, w).Holding? then wt.views[w := wt.s.table] else wt.views, wt.seen)
    case Save(w, _, _) =>
      var p := PhaseOf(wt.s, w);
      Watch(t, wt.views,
            if p.Running? && p.conv < |wt.s.convs| && w in wt.views then wt.seen + Sight(wt.views[w], p) else wt.seen)
    case _ => Watch(t, wt.views, wt.seen)
  }

  function Watching(wt: Watch, run: seq<Action>): Watch
    decreases |run|
  {
    if run == [] then wt else Watching(Step(wt, run[0]), run[1..])
  }

  /** Watching does not disturb the protocol. */
  lemma {:induction false} WatchingIsExec(wt: Watch, run: seq<Action>)
    ensures Watching(wt, run).s == Exec(wt.s, run)
    decreases |run|
  {
    if run != [] {
      WatchingIsExec(Step(wt, run[0]), run[1..]);
    }
  }

  // ---------------------------------------------------------------- messages passed over

  /** A visible message of a lead. */
  predicate LeadAt(table: seq<Row>, o: nat) {
    0 < o <= |table| && table[o - 1].committed && table[o - 1].role == Lead
  }

  /** A visible message at or below the mark that no turn saw. */
  predicate Missed(wt: Watch, o: nat) {
    && LeadAt(wt.s.table, o) && o !in wt.seen
    && var c := wt.s.table[o - 1].conv;
       c < |wt.s.convs| && o <= wt.s.convs[c].mark
  }

  /** A visible message the turn in flight was not shown and is about to pass over. */
  predicate Overtaken(wt: Watch, o: nat, w: WorkerId) {
    && LeadAt(wt.s.table, o) && o !in wt.seen
    && w in wt.s.workers && wt.s.workers[w].Running?
    && var p := wt.s.workers[w];
       && p.conv == wt.s.table[o - 1].conv && o <= p.target
       && !(w in wt.views && p.from < o && InWindow(wt.views[w], p.conv, o))
  }

  predicate PassedOver(wt: Watch, o: nat) {
    Missed(wt, o) || exists w :: w in wt.s.workers && Overtaken(wt, o, w)
  }

  /** No visible message was passed over, nor is about to be. */
  predicate AllSighted(wt: Watch) {
    forall o :: 0 < o <= |wt.s.table| ==> !PassedOver(wt, o)
  }

  /** The turn in flight targets this order or a later one. */
  predicate Targets(p: Phase, conv: ConvId, o: nat) {
    p.Running? && p.conv == conv && o <= p.target
  }

  /** A message becomes visible at or below its conversation's mark, or at or below what a turn in flight targets. */
  predicate LateCommit(s: State, a: Action) {
    && a.Commit? && 0 < a.order <= |s.table| && s.table[a.order - 1].role == Lead && !s.table[a.order - 1].committed
    && var c := s.table[a.order - 1].conv;
       || (c < |s.convs| && a.order <= s.convs[c].mark)
       || exists w :: w in s.workers && Targets(s.workers[w], c, a.order)
  }

  /** A visible message above the mark with ten or more newer rows in its thread. */
  predicate Buried(s: State, conv: ConvId, o: nat) {
    conv < |s.convs| && s.convs[conv].mark < o && IsLeadOrder(s.table, conv, o) && Newer(s.table, conv, o) >= WINDOW
  }

  /** A turn starts, with such a message in its thread. */
  predicate CrowdedRead(s: State, a: Action) {
    && a.Read? && PhaseOf(s, a.worker).Holding? && TargetOf(s, PhaseOf(s, a.worker).conv).Some?
    && exists o :: 0 < o <= |s.table| && Buried(s, PhaseOf(s, a.worker).conv, o)
  }

  /** The steps that make the mark pass over a message. */
  predicate Skips(s: State, a: Action) {
    LateCommit(s, a) || CrowdedRead(s, a)
  }

  /** What is remembered was visible when it was read, and still is; what was seen is below the mark. */
  predicate Faithful(wt: Watch) {
    && (forall w :: w in wt.views ==> Shows(wt.views[w], wt.s.table))
    && (forall o :: o in wt.seen ==> LeadAt(wt.s.table, o) && BelowMark(wt.s, o))
  }

  predicate BelowMark(s: State, o: nat)
    requires LeadAt(s.table, o)
  {
    s.table[o - 1].conv < |s.convs| && o <= s.convs[s.table[o - 1].conv].mark
  }

  predicate Shows(read: seq<Row>, table: seq<Row>) {
    |read| <= |table| && forall i :: 0 <= i < |read| && read[i].committed ==> table[i] == read[i]
  }

  /** Visible rows are never removed or changed, and only commits and replies make rows visible. */
  lemma TableAfter(s: State, a: Action)
    ensures Shows(s.table, Do(s, a).table)
    ensures forall o: nat :: LeadAt(Do(s, a).table, o) ==>
              || LeadAt(s.table, o)
              || (a == Commit(o) && 0 < o <= |s.table| && s.table[o - 1].role == Lead && !s.table[o - 1].committed)
    ensures forall i :: 0 <= i < |s.table| ==> Do(s, a).table[i].conv == s.table[i].conv
  {
  }

  /** Marks only move in saves, and then to the turn's target. */
  lemma MarkAfter(s: State, a: Action, c: ConvId)
    requires c < |Do(s, a).convs|
    ensures c >= |s.convs| ==> Do(s, a).convs[c].mark == 0
    ensures c < |s.convs| ==>
              Do(s, a).convs[c].mark == if SavesTurn(s, a, c) then PhaseOf(s, a.worker).target else s.convs[c].mark
  {
  }

  /** A worker only starts to run by reading, from the mark to the newest visible message. */
  lemma RunningAfter(s: State, a: Action, w: WorkerId)
    requires w in Do(s, a).workers && Do(s, a).workers[w].Running?
    ensures (w in s.workers && Do(s, a).workers[w] == s.workers[w])
            || (a == Read(w) && PhaseOf(s, w).Holding? && Do(s, a).workers[w].conv < |s.convs|
                && Do(s, a).workers[w].from == s.convs[Do(s, a).workers[w].conv].mark)
  {
  }

  lemma StepKeepsFaithful(wt: Watch, a: Action)
    requires Safe(wt.s) && Faithful(wt)
    ensures Faithful(Step(wt, a))
  {
    var t := Step(wt, a);
    TableAfter(wt.s, a);
    forall o | o in t.seen ensures LeadAt(t.s.table, o) && BelowMark(t.s, o) {
      if o !in wt.seen {
        SightIsVisible(wt, a, o);
      }
      MarksGrow(wt.s, a, wt.s.table[o - 1].conv);
    }
  }

  /** A save marks what its turn saw. */
  lemma SightIsVisible(wt: Watch, a: Action, o: nat)
    requires Faithful(wt) && o in Step(wt, a).seen && o !in wt.seen
    ensures LeadAt(wt.s.table, o) && SavesTurn(wt.s, a, wt.s.table[o - 1].conv)
    ensures wt.s.table[o - 1].conv < |wt.s.convs| && o <= PhaseOf(wt.s, a.worker).target
  {
    WindowShowsExactly(wt.views[a.worker], PhaseOf(wt.s, a.worker).conv, o);
  }

  lemma MarksGrow(s: State, a: Action, c: ConvId)
    requires Safe(s) && c < |s.convs|
    ensures c < |Do(s, a).convs| && s.convs[c].mark <= Do(s, a).convs[c].mark
  {
    ConvAfter(s, a, c);
    if SavesTurn(s, a, c) {
      assert CurrentTurn(s, s.workers[a.worker]);
    }
  }

  lemma NotMissedAfter(wt: Watch, a: Action, o: nat)
    requires Safe(wt.s) && LeadAt(wt.s.table, o) && !PassedOver(wt, o)
    ensures !Missed(Step(wt, a), o)
  {
    var t := Step(wt, a);
    TableAfter(wt.s, a);
    var c := wt.s.table[o - 1].conv;
    if c < |t.s.convs| {
      MarkAfter(wt.s, a, c);
      if SavesTurn(wt.s, a, c) {
        var w := a.worker;
        assert CurrentTurn(wt.s, wt.s.workers[w]);
        assert !Overtaken(wt, o, w);
      }
    }
  }

  lemma NotOvertakenAfter(wt: Watch, a: Action, o: nat, w: WorkerId)
    requires Safe(wt.s) && LeadAt(wt.s.table, o) && !PassedOver(wt, o) && !CrowdedRead(wt.s, a)
    ensures !Overtaken(Step(wt, a), o, w)
  {
    var t := Step(wt, a);
    TableAfter(wt.s, a);
    if w in t.s.workers && t.s.workers[w].Running? {
      RunningAfter(wt.s, a, w);
      if w in wt.s.workers && t.s.workers[w] == wt.s.workers[w] {
        assert !Overtaken(wt, o, w);
      } else if t.s.workers[w].conv == wt.s.table[o - 1].conv {
        WindowShowsExactly(wt.s.table, t.s.workers[w].conv, o);
        assert !Buried(wt.s, t.s.workers[w].conv, o);
      }
    }
  }

  /**
   * Exactly which steps make a message be passed over: from a state where none was, the next
   * state has one if and only if the step makes a message visible at or below the mark of its
   * conversation or the target of a turn in flight, or starts a turn on a thread with an
   * unanswered message under ten newer rows.
   */
  lemma SkipsExactly(wt: Watch, a: Action)
    requires Safe(wt.s) && Faithful(wt) && AllSighted(wt)
    ensures AllSighted(Step(wt, a)) <==> !Skips(wt.s, a)
  {
    if LateCommit(wt.s, a) {
      LateIsPassedOver(wt, a);
    } else if CrowdedRead(wt.s, a) {
      BuriedIsPassedOver(wt, a);
    } else {
      NothingSkipped(wt, a);
    }
  }

  lemma NothingSkipped(wt: Watch, a: Action)
    requires Safe(wt.s) && Faithful(wt) && AllSighted(wt) && !Skips(wt.s, a)
    ensures AllSighted(Step(wt, a))
  {
    var t := Step(wt, a);
    TableAfter(wt.s, a);
    forall o | 0 < o <= |t.s.table| ensures !PassedOver(t, o) {
      if LeadAt(wt.s.table, o) {
        NotMissedAfter(wt, a, o);
        forall w | w in t.s.workers ensures !Overtaken(t, o, w) {
          NotOvertakenAfter(wt, a, o, w);
        }
      } else if LeadAt(t.s.table, o) {
        TimelyIsSighted(wt, o);
      }
    }
  }

  lemma BuriedIsPassedOver(wt: Watch, a: Action)
    requires Safe(wt.s) && Faithful(wt) && CrowdedRead(wt.s, a)
    ensures !AllSighted(Step(wt, a))
  {
    var w, t := a.worker, Step(wt, a);
    var c := PhaseOf(wt.s, w).conv;
    var o :| 0 < o <= |wt.s.table| && Buried(wt.s, c, o);
    WindowTargetsLead(wt.s.table, c);
    WindowShowsExactly(wt.s.table, c, o);
    assert o !in wt.seen by {
      assert o in wt.seen ==> BelowMark(wt.s, o);
    }
    assert Overtaken(t, o, w);
    assert PassedOver(t, o);
  }

  lemma LateIsPassedOver(wt: Watch, a: Action)
    requires Faithful(wt) && LateCommit(wt.s, a)
    ensures PassedOver(Step(wt, a), a.order) && !AllSighted(Step(wt, a))
  {
    var t, o := Step(wt, a), a.order;
    var c := wt.s.table[o - 1].conv;
    assert LeadAt(t.s.table, o) && o !in t.seen;
    forall w | w in wt.views ensures !InWindow(wt.views[w], c, o) {
      WindowShowsExactly(wt.views[w], c, o);
    }
    if !(c < |wt.s.convs| && o <= wt.s.convs[c].mark) {
      var w :| w in wt.s.workers && Targets(wt.s.workers[w], c, o);
      assert Overtaken(t, o, w);
    }
    assert PassedOver(t, o);
  }

  lemma TimelyIsSighted(wt: Watch, o: nat)
    requires 0 < o <= |wt.s.table| && wt.s.table[o - 1].role == Lead && !wt.s.table[o - 1].committed
    requires !LateCommit(wt.s, Commit(o))
    ensures !PassedOver(Step(wt, Commit(o)), o)
  {
    var t := Step(wt, Commit(o));
    forall w | w in t.s.workers ensures !Overtaken(t, o, w) {
      assert !Targets(wt.s.workers[w], wt.s.table[o - 1].conv, o);
    }
  }

  /** What was passed over stays so: no later turn and no sweep comes back to it. */
  lemma MissedForever(wt: Watch, a: Action, o: nat)
    requires Safe(wt.s) && Faithful(wt) && Missed(wt, o)
    ensures Missed(Step(wt, a), o)
  {
    TableAfter(wt.s, a);
    var c := wt.s.table[o - 1].conv;
    MarkAfter(wt.s, a, c);
    if o in Step(wt, a).seen {
      SightIsVisible(wt, a, o);
    }
    MarksGrow(wt.s, a, c);
  }

  // ---------------------------------------------------------------- over runs

  predicate NeverSkips(s: State, run: seq<Action>)
    decreases |run|
  {
    run == [] || (!Skips(s, run[0]) && LockOutlivesTurn(s, run[0]) && NeverSkips(Do(s, run[0]), run[1..]))
  }

  /** At no point of the run is a message passed over. */
  predicate AlwaysSighted(wt: Watch, run: seq<Action>)
    decreases |run|
  {
    AllSighted(wt) && (run == [] || AlwaysSighted(Step(wt, run[0]), run[1..]))
  }

  /** With locks that outlive their turns, no message is ever passed over exactly when none commits late or is buried. */
  lemma {:induction false} RunsSkipExactly(wt: Watch, run: seq<Action>)
    requires Safe(wt.s) && Faithful(wt) && AllSighted(wt) && LocksOutliveTurns(wt.s, run)
    ensures AlwaysSighted(wt, run) <==> NeverSkips(wt.s, run)
    decreases |run|
  {
    if run != [] {
      StepKeepsSafe(wt.s, run[0]);
      StepKeepsFaithful(wt, run[0]);
      SkipsExactly(wt, run[0]);
      if AllSighted(Step(wt, run[0])) {
        RunsSkipExactly(Step(wt, run[0]), run[1..]);
      }
    }
  }

  lemma {:induction false} RunsStaySighted(wt: Watch, run: seq<Action>)
    requires Safe(wt.s) && Faithful(wt) && AllSighted(wt) && NeverSkips(wt.s, run)
    ensures AllSighted(Watching(wt, run))
    decreases |run|
  {
    if run != [] {
      StepKeepsSafe(wt.s, run[0]);
      StepKeepsFaithful(wt, run[0]);
      SkipsExactly(wt, run[0]);
      RunsStaySighted(Step(wt, run[0]), run[1..]);
    }
  }

  /**
   * Nothing is forgotten: after a run with no stranding step, no late commit and no crowded
   * read, once the list is empty and the workers are idle, every visible message of every
   * active conversation was in the window of a saved turn whose interval holds it.
   */
  lemma EveryMessageIsSeen(run: seq<Action>, o: nat)
    requires NeverStrands(Initial(), run) && NeverSkips(Initial(), run) && Quiet(Exec(Initial(), run))
    requires LeadAt(Exec(Initial(), run).table, o)
    requires var s := Exec(Initial(), run); s.table[o - 1].conv < |s.convs| && s.convs[s.table[o - 1].conv].active
    ensures o in Watching(Begin(), run).seen
  {
    var s := Exec(Initial(), run);
    var c := s.table[o - 1].conv;
    WatchingIsExec(Begin(), run);
    QuietMeansAnswered(run, c);
    RunsStaySighted(Begin(), run);
    assert IsLeadRow(s.table[o - 1], c);
    assert !PassedOver(Watching(Begin(), run), o);
  }

  lemma {:induction false} MissedToTheEnd(wt: Watch, run: seq<Action>, o: nat)
    requires Safe(wt.s) && Faithful(wt) && LocksOutliveTurns(wt.s, run) && Missed(wt, o)
    ensures Missed(Watching(wt, run), o)
    decreases |run|
  {
    if run != [] {
      StepKeepsSafe(wt.s, run[0]);
      StepKeepsFaithful(wt, run[0]);
      MissedForever(wt, run[0], o);
      MissedToTheEnd(Step(wt, run[0]), run[1..], o);
    }
  }

  // ---------------------------------------------------------------- a message overtaken

  /** A run so far, watched, with no stranding step. */
  predicate Told(run: seq<Action>, wt: Watch) {
    Watching(Begin(), run) == wt && NeverStrands(Initial(), run)
  }

  lemma {:induction false} WatchingCompose(wt: Watch, first: seq<Action>, second: seq<Action>)
    ensures Watching(wt, first + second) == Watching(Watching(wt, first), second)
    decreases |first|
  {
    if first == [] {
      assert first + second == second;
    } else {
      assert (first + second)[1..] == first[1..] + second;
      WatchingCompose(Step(wt, first[0]), first[1..], second);
    }
  }

  lemma {:induction false} NeverStrandsGrows(s: State, run: seq<Action>, a: Action)
    requires NeverStrands(s, run) && !Strands(Exec(s, run), a) && LockOutlivesTurn(Exec(s, run), a)
    ensures NeverStrands(s, run + [a])
    decreases |run|
  {
    if run == [] {
      assert run + [a] == [a] && [a][1..] == [];
    } else {
      assert (run + [a])[1..] == run[1..] + [a];
      NeverStrandsGrows(Do(s, run[0]), run[1..], a);
    }
  }

  lemma Tell(run: seq<Action>, wt: Watch, a: Action) returns (longer: seq<Action>, next: Watch)
    requires Told(run, wt) && !Strands(wt.s, a) && LockOutlivesTurn(wt.s, a)
    ensures Told(longer, next) && next == Step(wt, a)
  {
    longer, next := run + [a], Step(wt, a);
    WatchingIsExec(Begin(), run);
    NeverStrandsGrows(Initial(), run, a);
    WatchingCompose(Begin(), run, [a]);
    assert [a][1..] == [];
    assert Watching(wt, [a]) == Watching(Step(wt, a), []);
  }

  /** Two messages of one lead, the first visible or not, one worker. */
  function Two(first: bool, second: bool, queue: seq<ConvId>, locks: set<ConvId>, mark: nat, phase: Phase, log: seq<Event>): State {
    State([Row(0, Lead, "foto", first), Row(0, Lead, "hola", second)], queue, locks, [Convo(true, false, mark)],
          map[0 := phase], log)
  }

  /** Reading the two messages with the first one hidden targets the second. */
  lemma SecondIsTarget()
    ensures Load([Row(0, Lead, "foto", false), Row(0, Lead, "hola", true)], 0).latest == Some(2)
  {
    var table := [Row(0, Lead, "foto", false), Row(0, Lead, "hola", true)];
    assert table[..1] == [Row(0, Lead, "foto", false)] && table[..1][..0] == [];
    assert LatestLead(table, 0) == 2;
    assert Thread(table[..1], 0) == [];
    assert Thread(table, 0) == [Entry(2, Lead, "hola")];
    assert Recent(Thread(table, 0), WINDOW)[0].role == Lead;
    WindowAgreesExactly(table, 0);
  }

  lemma BothReceived() returns (run: seq<Action>, wt: Watch)
    ensures Told(run, wt)
    ensures wt.s == State([Row(0, Lead, "foto", false), Row(0, Lead, "hola", false)], [0, 0], {}, [Convo(true, false, 0)], map[], [])
    ensures wt.views == map[] && wt.seen == {}
  {
    run, wt := [], Begin();
    run, wt := Tell(run, wt, Open);
    run, wt := Tell(run, wt, Receive(0, "foto", true));
    run, wt := Tell(run, wt, Receive(0, "hola", true));
  }

  lemma SecondShown() returns (run: seq<Action>, wt: Watch)
    ensures Told(run, wt) && wt == Watch(Two(false, true, [0], {}, 0, Popped(0), []), map[], {})
  {
    run, wt := BothReceived();
    assert Awaited(wt.s, 0) by { assert wt.s.queue[0] == 0; }
    run, wt := Tell(run, wt, Commit(2));
    run, wt := Tell(run, wt, Start(0));
    assert wt.s == Two(false, true, [0, 0], {}, 0, Idle, []);
    run, wt := Tell(run, wt, Pop(0));
  }

  lemma SecondLocked() returns (run: seq<Action>, wt: Watch)
    ensures Told(run, wt) && wt == Watch(Two(false, true, [0], {0}, 0, Holding(0), []), map[], {})
  {
    run, wt := SecondShown();
    run, wt := Tell(run, wt, TryLock(0));
  }

  lemma SecondRead() returns (run: seq<Action>, wt: Watch)
    ensures Told(run, wt) && wt.s == Two(false, true, [0], {0}, 0, Running(0, 0, 2), [])
    ensures wt.views == map[0 := wt.s.table] && wt.seen == {}
  {
    run, wt := SecondLocked();
    SecondIsTarget();
    WindowAgreesExactly(wt.s.table, 0);
    run, wt := Tell(run, wt, Read(0));
  }

  lemma SecondAnswered() returns (run: seq<Action>, wt: Watch)
    ensures Told(run, wt) && wt.s == Two(false, true, [0], {}, 2, Idle, [Saved(0, 0, 2)])
    ensures 1 !in wt.seen
  {
    run, wt := SecondRead();
    WindowShowsExactly(wt.views[0], 0, 1);
    run, wt := Tell(run, wt, Save(0, [], true));
    assert wt.s == Two(false, true, [0], {0}, 2, Sending(0, 0), [Saved(0, 0, 2)]);
    run, wt := Tell(run, wt, Finish(0));
    run, wt := Tell(run, wt, Release(0));
    assert wt.s == Two(false, true, [0], {}, 2, Idle, [Saved(0, 0, 2)]);
  }

  lemma SecondJobHeld() returns (run: seq<Action>, wt: Watch)
    ensures Told(run, wt) && wt.s == Two(false, true, [], {0}, 2, Holding(0), [Saved(0, 0, 2)])
    ensures 1 !in wt.seen
  {
    run, wt := SecondAnswered();
    run, wt := Tell(run, wt, Pop(0));
    run, wt := Tell(run, wt, TryLock(0));
  }

  lemma NothingAboveTheMark(s: State)
    requires s == Two(false, true, [], {0}, 2, Holding(0), [Saved(0, 0, 2)])
    ensures TargetOf(s, 0).None? && !Pending(s, 0)
  {
    SecondIsTarget();
    WindowTargetsLead(s.table, 0);
  }

  lemma LeavesAtOnce(s: State, w: WorkerId, conv: ConvId)
    requires PhaseOf(s, w) == Holding(conv) && TargetOf(s, conv).None? && !Pending(s, conv)
    ensures !Strands(s, Read(w)) && Do(s, Read(w)) == To(s, w, Leaving(conv))
  {
  }

  lemma NothingToAnswer() returns (run: seq<Action>, wt: Watch)
    ensures Told(run, wt) && wt.s == Two(false, true, [], {0}, 2, Leaving(0), [Saved(0, 0, 2)])
    ensures 1 !in wt.seen
  {
    run, wt := SecondJobHeld();
    NothingAboveTheMark(wt.s);
    LeavesAtOnce(wt.s, 0, 0);
    run, wt := Tell(run, wt, Read(0));
    assert wt.s.workers == map[0 := Leaving(0)];
  }

  lemma AllAtRest() returns (run: seq<Action>, wt: Watch)
    ensures Told(run, wt) && wt.s == Two(false, true, [], {}, 2, Idle, [Saved(0, 0, 2)])
    ensures 1 !in wt.seen
  {
    run, wt := NothingToAnswer();
    run, wt := Tell(run, wt, Release(0));
    assert wt.s.workers == map[0 := Idle];
  }

  /**
   * A message whose transaction commits after a later one was answered: no step strands
   * anybody, the list is empty, the workers are idle, nothing is pending, and the message,
   * visible in an active conversation, was before the eyes of no turn.
   */
  lemma OvertakenIsForgotten() returns (run: seq<Action>)
    ensures NeverStrands(Initial(), run)
    ensures var s := Exec(Initial(), run);
            Quiet(s) && !Pending(s, 0) && s.convs == [Convo(true, false, 2)] && LeadAt(s.table, 1)
    ensures Missed(Watching(Begin(), run), 1)
  {
    var wt;
    run, wt := AllAtRest();
    run, wt := Tell(run, wt, Commit(1));
    assert wt.s == Two(true, true, [], {}, 2, Idle, [Saved(0, 0, 2)]);
    WatchingIsExec(Begin(), run);
    assert LatestLead(wt.s.table, 0) <= 2;
  }

  // ---------------------------------------------------------------- a burst of messages

  function Burst(n: nat): (table: seq<Row>)
    ensures |table| == n && forall i :: 0 <= i < n ==> table[i] == Row(0, Lead, "hola", true)
  {
    seq(n, _ => Row(0, Lead, "hola", true))
  }

  function Jobs(n: nat): (queue: seq<ConvId>)
    ensures |queue| == n && forall i :: 0 <= i < n ==> queue[i] == 0
  {
    seq(n, _ => 0)
  }

  lemma {:induction false} BurstNewer(n: nat, o: nat)
    requires 0 < o <= n
    ensures Newer(Burst(n), 0, o) == n - o
    decreases n
  {
    if o < n {
      assert Burst(n)[..n - 1] == Burst(n - 1);
      BurstNewer(n - 1, o);
    }
  }

  lemma BurstTarget(n: nat)
    requires n > 0
    ensures Load(Burst(n), 0).latest == Some(n)
  {
    BurstNewer(n, n);
    WindowShowsExactly(Burst(n), 0, n);
    assert LatestLead(Burst(n), 0) == n;
    WindowAgreesExactly(Burst(n), 0);
  }

  function Crowd(n: nat, jobs: nat, locks: set<ConvId>, mark: nat, workers: map<WorkerId, Phase>, log: seq<Event>): State {
    State(Burst(n), Jobs(jobs), locks, [Convo(true, false, mark)], workers, log)
  }

  lemma {:induction false} BurstArrives(n: nat) returns (run: seq<Action>, wt: Watch)
    ensures Told(run, wt) && wt.s == Crowd(n, n, {}, 0, map[], [])
    ensures wt.views == map[] && wt.seen == {}
  {
    if n == 0 {
      run, wt := [], Begin();
      run, wt := Tell(run, wt, Open);
    } else {
      run, wt := BurstArrives(n - 1);
      run, wt := Tell(run, wt, Receive(0, "hola", true));
      assert Awaited(wt.s, 0) by { assert wt.s.queue[0] == 0; }
      run, wt := Tell(run, wt, Commit(n));
      assert wt.s.table == Burst(n) && wt.s.queue == Jobs(n);
    }
  }

  lemma BurstLocked(n: nat) returns (run: seq<Action>, wt: Watch)
    requires n > 0
    ensures Told(run, wt) && wt.s == Crowd(n, n - 1, {0}, 0, map[0 := Holding(0)], [])
    ensures wt.views == map[] && wt.seen == {}
  {
    run, wt := BurstArrives(n);
    run, wt := Tell(run, wt, Start(0));
    run, wt := Tell(run, wt, Pop(0));
    assert wt.s.queue == Jobs(n - 1) && wt.s.workers == map[0 := Popped(0)];
    run, wt := Tell(run, wt, TryLock(0));
    assert wt.s.workers == map[0 := Holding(0)];
  }

  lemma BurstRead(n: nat) returns (run: seq<Action>, wt: Watch)
    requires n > 0
    ensures Told(run, wt) && wt.s == Crowd(n, n - 1, {0}, 0, map[0 := Running(0, 0, n)], [])
    ensures wt.views == map[0 := Burst(n)] && wt.seen == {}
  {
    run, wt := BurstLocked(n);
    BurstTarget(n);
    run, wt := Tell(run, wt, Read(0));
    assert wt.s.workers == map[0 := Running(0, 0, n)];
  }

  /**
   * A burst of more than ten messages read at once: the turn answers up to the last one, and
   * the first ones were before the eyes of no turn, now or later. Nothing strands, nothing is
   * pending.
   */
  lemma BurstIsCut(n: nat, o: nat) returns (run: seq<Action>)
    requires 0 < o && o + WINDOW <= n
    ensures NeverStrands(Initial(), run)
    ensures var s := Exec(Initial(), run);
            s.table == Burst(n) && s.convs == [Convo(true, false, n)] && !Pending(s, 0)
    ensures Missed(Watching(Begin(), run), o)
  {
    var wt;
    run, wt := BurstRead(n);
    BurstNewer(n, o);
    WindowShowsExactly(Burst(n), 0, o);
    run, wt := Tell(run, wt, Save(0, [], true));
    assert wt.s.table == Burst(n);
    WatchingIsExec(Begin(), run);
  }
}
