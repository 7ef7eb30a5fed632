/**
 * One worker at a time: the dispatch list and its locks as an object, `process_one`,
 * the `consume` loop and the start-up sweep. Each method is proved against the step
 * relation of TurnProtocol, and the sweep followed by the loop is shown to answer every
 * stranded conversation exactly once, whatever duplicates the list held.
 */
module Worker {
  import opened Wrappers
  import opened History
  import opened TurnProtocol

  /** What a turn stores and sends, and whether the agent stays on duty. */
  datatype Answer = Answer(replies: seq<string>, active: bool)

  const ME: WorkerId := 0

  // ---------------------------------------------------------------- specification

  function Sends(conv: ConvId, turn: nat, n: nat): (events: seq<Event>)
    ensures |events| == n && forall i :: 0 <= i < n ==> events[i] == Sent(conv, turn)
  {
    seq(n, _ => Sent(conv, turn))
  }

  /** The last job of the list, served start to finish; `None` when the handler raises before saving. */
  function Served(s: State, answer: Option<Answer>): State {
    if s.queue == [] then s
    else
      var c := s.queue[|s.queue| - 1];
      var rest := s.queue[..|s.queue| - 1];
      if c in s.locks then s.(queue := [c] + rest)
      else if TargetOf(s, c).None? || answer.None? then s.(queue := rest)
      else
        s.(queue := rest,
           table := s.table + Replies(c, answer.value.replies),
           convs := s.convs[c := s.convs[c].(active := answer.value.active, mark := TargetOf(s, c).value)],
           log := s.log + [Saved(c, s.convs[c].mark, TargetOf(s, c).value)]
                  + Sends(c, |s.log|, |answer.value.replies|))
  }

  /** The state with one more job at the back of the list, next to be popped. */
  function WithJob(s: State, conv: ConvId): State {
    s.(queue := s.queue + [conv])
  }

  /** The protocol actions behind one served job. */
  function ServingRun(answer: Option<Answer>): seq<Action> {
    [Pop(ME), TryLock(ME), Requeue(ME), Read(ME)]
    + (if answer.None? then [Fail(ME)]
       else [Save(ME, answer.value.replies, answer.value.active)]
            + seq(|answer.value.replies|, _ => Send(ME)) + [Finish(ME)])
    + [Release(ME)]
  }

  /** The jobs of the list served one after the other until it is empty. */
  function Drained(s: State, answers: ConvId -> Answer): State
    requires s.locks == {}
    decreases |s.queue|
  {
    if s.queue == [] then s
    else Drained(Served(s, Some(answers(s.queue[|s.queue| - 1]))), answers)
  }

  /** The oldest `limit` open conversations the agent is on duty for. */
  function EligibleFrom(convs: seq<Convo>, from: nat, limit: nat): seq<ConvId>
    requires from <= |convs|
    decreases |convs| - from
  {
    if from == |convs| || limit == 0 then []
    else if convs[from].active && !convs[from].closed
    then [from] + EligibleFrom(convs, from + 1, limit - 1)
    else EligibleFrom(convs, from + 1, limit)
  }

  predicate Unanswered(s: State, conv: ConvId) {
    conv < |s.convs| && LatestLead(s.table, conv) > s.convs[conv].mark
  }

  function UnansweredAmong(s: State, convs: seq<ConvId>): seq<ConvId> {
    if convs == [] then []
    else
      var last := |convs| - 1;
      UnansweredAmong(s, convs[..last]) + (if Unanswered(s, convs[last]) then [convs[last]] else [])
  }

  function PushedFront(queue: seq<ConvId>, convs: seq<ConvId>): seq<ConvId> {
    if convs == [] then queue
    else [convs[|convs| - 1]] + PushedFront(queue, convs[..|convs| - 1])
  }

  /** The sweep pushes one job for each unanswered eligible conversation, oldest first. */
  function Swept(s: State, limit: nat): State {
    s.(queue := PushedFront(s.queue, UnansweredAmong(s, EligibleFrom(s.convs, 0, limit))))
  }

  /** Serving with no lock held takes the job off the list and leaves no lock behind. */
  lemma ServedShrinks(s: State, answer: Option<Answer>)
    requires s.queue != [] && s.locks == {}
    ensures Served(s, answer).queue == s.queue[..|s.queue| - 1] && Served(s, answer).locks == {}
    ensures Served(s, answer).workers == s.workers
  {
  }

  // ---------------------------------------------------------------- the objects

  /** `agent:dispatch` and its lock keys. */
  class Dispatcher {
    var dispatchList: seq<ConvId>
    var lockKeys: set<ConvId>

    constructor ()
      ensures dispatchList == [] && lockKeys == {}
    {
      dispatchList, lockKeys := [], {};
    }

    method Enqueue(conv: ConvId)
      modifies this`dispatchList
      ensures dispatchList == [conv] + old(dispatchList)
    {
      dispatchList := [conv] + dispatchList;
    }

    method Dequeue() returns (job: Option<ConvId>)
      modifies this`dispatchList
      ensures old(dispatchList) == [] ==> job == None && dispatchList == []
      ensures old(dispatchList) != [] ==>
                job.Some? && old(dispatchList) == dispatchList + [job.value]
    {
      if dispatchList == [] {
        return None;
      }
      job := Some(dispatchList[|dispatchList| - 1]);
      dispatchList := dispatchList[..|dispatchList| - 1];
    }

    method AcquireLock(conv: ConvId) returns (acquired: bool)
      modifies this`lockKeys
      ensures acquired <==> conv !in old(lockKeys)
      ensures lockKeys == old(lockKeys) + {conv}
    {
      acquired := conv !in lockKeys;
      lockKeys := lockKeys + {conv};
    }

    method ReleaseLock(conv: ConvId)
      modifies this`lockKeys
      ensures lockKeys == old(lockKeys) - {conv}
    {
      lockKeys := lockKeys - {conv};
    }
  }

  /** The database tables behind a worker, and what it has shown to the world. */
  class Backend {
    const dispatcher: Dispatcher
    var table: seq<Row>
    var convs: seq<Convo>
    var log: seq<Event>

    constructor (dispatcher: Dispatcher)
      ensures this.dispatcher == dispatcher && table == [] && convs == [] && log == []
    {
      this.dispatcher := dispatcher;
      table, convs, log := [], [], [];
    }

    /** The protocol state this object stands for, with one idle worker. */
    ghost function Abs(): State
      reads this, dispatcher
    {
      State(table, dispatcher.dispatchList, dispatcher.lockKeys, convs, map[ME := Idle], log)
    }

    /** Load, guard, save, then send: `process_message` with the answer the turn came to. */
    method ProcessMessage(conv: ConvId, answer: Option<Answer>)
      modifies this
      ensures answer.None? || TargetOf(old(Abs()), conv).None? ==> Abs() == old(Abs())
      ensures answer.Some? && TargetOf(old(Abs()), conv).Some? ==>
                && table == old(table) + Replies(conv, answer.value.replies)
                && convs == old(convs)[conv := old(convs)[conv].(active := answer.value.active, mark := TargetOf(old(Abs()), conv).value)]
                && log == old(log) + [Saved(conv, old(convs)[conv].mark, TargetOf(old(Abs()), conv).value)]
                          + Sends(conv, |old(log)|, |answer.value.replies|)
    {
      if conv >= |convs| || !convs[conv].active {
        return;
      }
      var latest := Load(table, conv).latest;
      if latest.None? || latest.value <= convs[conv].mark || answer.None? {
        return;
      }
      var turn := |log|;
      log := log + [Saved(conv, convs[conv].mark, latest.value)];
      convs := convs[conv := convs[conv].(active := answer.value.active, mark := latest.value)];
      table := table + Replies(conv, answer.value.replies);
      var sent := 0;
      ghost var saved := log;
      while sent < |answer.value.replies|
        invariant 0 <= sent <= |answer.value.replies|
        invariant log == saved + Sends(conv, turn, sent)
        invariant convs == old(convs)[conv := old(convs)[conv].(active := answer.value.active, mark := latest.value)]
        invariant table == old(table) + Replies(conv, answer.value.replies)
      {
        log := log + [Sent(conv, turn)];
        sent := sent + 1;
        assert Sends(conv, turn, sent) == Sends(conv, turn, sent - 1) + [Sent(conv, turn)];
      }
    }

    /** Lock, handle, release; a job whose conversation is locked goes back to the list. */
    method ProcessOne(conv: ConvId, answer: Option<Answer>)
      modifies this, dispatcher
      ensures Abs() == Served(WithJob(old(Abs()), conv), answer)
    {
      assert WithJob(old(Abs()), conv).queue[..|old(Abs()).queue|] == old(Abs()).queue;
      var acquired := dispatcher.AcquireLock(conv);
      if !acquired {
        dispatcher.Enqueue(conv);
        assert dispatcher.lockKeys == old(dispatcher.lockKeys);
        return;
      }
      ghost var s := old(Abs());
      label Locked:
      ProcessMessage(conv, answer);
      assert TargetOf(old@Locked(Abs()), conv) == TargetOf(s, conv);
      dispatcher.ReleaseLock(conv);
      assert dispatcher.lockKeys == old(dispatcher.lockKeys);
    }

    /** The main loop, until the list is empty. */
    method Consume(answers: ConvId -> Answer)
      requires dispatcher.lockKeys == {}
      modifies this, dispatcher
      ensures Abs() == Drained(old(Abs()), answers)
    {
      while dispatcher.dispatchList != []
        invariant dispatcher.lockKeys == {}
        invariant Drained(Abs(), answers) == Drained(old(Abs()), answers)
        decreases |dispatcher.dispatchList|
      {
        ghost var s := Abs();
        var job := dispatcher.Dequeue();
        assert s == WithJob(Abs(), job.value);
        ProcessOne(job.value, Some(answers(job.value)));
        ServedShrinks(s, Some(answers(job.value)));
      }
    }

    /** Re-enqueue the eligible conversations whose newest lead message is above the mark. */
    method RunCatchUp(limit: nat) returns (requeued: nat)
      modifies dispatcher`dispatchList
      ensures Abs() == Swept(old(Abs()), limit)
      ensures requeued == |UnansweredAmong(old(Abs()), EligibleFrom(convs, 0, limit))|
    {
      var eligible := EligibleFrom(convs, 0, limit);
      requeued := 0;
      ghost var s := old(Abs());
      for i := 0 to |eligible|
        invariant requeued == |UnansweredAmong(s, eligible[..i])|
        invariant dispatcher.dispatchList == PushedFront(s.queue, UnansweredAmong(s, eligible[..i]))
      {
        var conv := eligible[i];
        assert eligible[..i + 1][..i] == eligible[..i];
        if conv < |convs| && LatestLead(table, conv) > convs[conv].mark {
          ghost var before := UnansweredAmong(s, eligible[..i]);
          assert UnansweredAmong(s, eligible[..i + 1]) == before + [conv];
          assert (before + [conv])[..|before|] == before;
          dispatcher.Enqueue(conv);
          requeued := requeued + 1;
        } else {
          assert UnansweredAmong(s, eligible[..i + 1]) == UnansweredAmong(s, eligible[..i]);
        }
      }
      assert eligible[..|eligible|] == eligible;
    }
  }

  // ---------------------------------------------------------------- one job is a run

  lemma {:induction false} SendingRun(s: State, n: nat, conv: ConvId, turn: nat)
    requires PhaseOf(s, ME) == Sending(conv, turn)
    ensures Exec(s, seq(n, _ => Send(ME))) == s.(log := s.log + Sends(conv, turn, n))
    decreases n
  {
    var run := seq(n, _ => Send(ME));
    if n == 0 {
      assert s.log + Sends(conv, turn, 0) == s.log;
    } else {
      var t := Do(s, Send(ME));
      assert run[1..] == seq(n - 1, _ => Send(ME));
      SendingRun(t, n - 1, conv, turn);
      assert t.log + Sends(conv, turn, n - 1) == s.log + Sends(conv, turn, n);
    }
  }

  lemma Exec1(s: State, a: Action)
    ensures Exec(s, [a]) == Do(s, a)
  {
    assert [a][1..] == [];
  }

  lemma Exec4(s: State, a: Action, b: Action, c: Action, d: Action)
    ensures Exec(s, [a, b, c, d]) == Do(Do(Do(Do(s, a), b), c), d)
  {
    RunsCompose(s, [a], [b, c, d]);
    RunsCompose(Do(s, a), [b], [c, d]);
    RunsCompose(Do(Do(s, a), b), [c], [d]);
    Exec1(s, a);
    Exec1(Do(s, a), b);
    Exec1(Do(Do(s, a), b), c);
    Exec1(Do(Do(Do(s, a), b), c), d);
    assert [a, b, c, d] == [a] + [b, c, d];
    assert [b, c, d] == [b] + [c, d];
    assert [c, d] == [c] + [d];
  }

  /** The state after the job was popped, locked and read. */
  function Opened(s: State): State {
    Do(Do(Do(Do(s, Pop(ME)), TryLock(ME)), Requeue(ME)), Read(ME))
  }

  /** What popping, locking and reading come to. */
  lemma OpenedShape(s: State)
    requires s.workers == map[ME := Idle] && s.queue != []
    ensures var c := s.queue[|s.queue| - 1];
            var rest := s.queue[..|s.queue| - 1];
            Opened(s) ==
              if c in s.locks then s.(queue := [c] + rest)
              else s.(queue := rest, locks := s.locks + {c},
                      workers := map[ME := if TargetOf(s, c).Some? then Running(c, s.convs[c].mark, TargetOf(s, c).value) else Leaving(c)])
  {
    var c := s.queue[|s.queue| - 1];
    var p := Do(Do(s, Pop(ME)), TryLock(ME));
    assert Do(s, Pop(ME)).workers == map[ME := Popped(c)];
    if c in s.locks {
      assert p.workers == map[ME := Bounced(c)];
      assert Do(p, Requeue(ME)).workers == map[ME := Idle];
    } else {
      assert p.workers == map[ME := Holding(c)];
      assert TargetOf(p, c) == TargetOf(s, c);
    }
  }

  /** Closing a job that was put back changes nothing more. */
  lemma ClosingIdle(s: State, last: Action)
    requires s.workers == map[ME := Idle] && (last == Fail(ME) || last == Finish(ME))
    ensures Do(Do(s, last), Release(ME)) == s
  {
  }

  /** Closing a turn that saved nothing gives the lock back. */
  lemma ClosingUnsaved(p: State, c: ConvId, last: Action)
    requires ME in p.workers && p.workers.Keys == {ME}
    requires (last == Fail(ME) && (p.workers[ME].Running? || p.workers[ME].Leaving?))
             || (last == Finish(ME) && p.workers[ME].Leaving?)
    requires p.workers[ME].conv == c
    ensures Do(Do(p, last), Release(ME)) == p.(locks := p.locks - {c}, workers := map[ME := Idle])
  {
    var t := Do(p, last);
    assert t.workers == map[ME := Leaving(c)];
  }

  lemma ClosingWithoutSave(s: State, answer: Option<Answer>, last: Action)
    requires s.workers == map[ME := Idle] && s.queue != []
    requires (last == Fail(ME) && answer.None?) || (last == Finish(ME) && !PhaseOf(Opened(s), ME).Running?)
    ensures Do(Do(Opened(s), last), Release(ME)) == Served(s, answer)
  {
    var c := s.queue[|s.queue| - 1];
    OpenedShape(s);
    if c in s.locks {
      ClosingIdle(Opened(s), last);
    } else {
      ClosingUnsaved(Opened(s), c, last);
      assert s.locks + {c} - {c} == s.locks;
    }
  }

  /** The state once the turn is saved and its messages are out. */
  function Delivered(s: State, answer: Answer): State
    requires s.queue != [] && TargetOf(s, s.queue[|s.queue| - 1]).Some?
  {
    var c := s.queue[|s.queue| - 1];
    Served(s.(locks := {}), Some(answer)).(locks := s.locks + {c}, workers := map[ME := Sending(c, |s.log|)])
  }

  lemma SavingShape(s: State, answer: Answer)
    requires s.workers == map[ME := Idle] && s.queue != [] && PhaseOf(Opened(s), ME).Running?
    ensures TargetOf(s, s.queue[|s.queue| - 1]).Some? && s.queue[|s.queue| - 1] !in s.locks
    ensures var p := Do(Opened(s), Save(ME, answer.replies, answer.active));
            && PhaseOf(p, ME) == Sending(s.queue[|s.queue| - 1], |s.log|)
            && p.(log := p.log + Sends(s.queue[|s.queue| - 1], |s.log|, |answer.replies|)) == Delivered(s, answer)
  {
    OpenedShape(s);
    var p := Do(Opened(s), Save(ME, answer.replies, answer.active));
    assert p.workers == map[ME := Sending(s.queue[|s.queue| - 1], |s.log|)];
  }

  lemma LeavingShape(s: State, answer: Answer)
    requires s.workers == map[ME := Idle] && s.queue != []
    requires TargetOf(s, s.queue[|s.queue| - 1]).Some? && s.queue[|s.queue| - 1] !in s.locks
    ensures Do(Do(Delivered(s, answer), Finish(ME)), Release(ME)) == Served(s, Some(answer))
  {
    var c := s.queue[|s.queue| - 1];
    assert TargetOf(s.(locks := {}), c) == TargetOf(s, c);
    var q := Do(Delivered(s, answer), Finish(ME));
    assert q.workers == map[ME := Leaving(c)];
    assert s.locks + {c} - {c} == s.locks;
    assert Do(q, Release(ME)).workers == map[ME := Idle];
  }

  lemma Exec2(s: State, a: Action, b: Action)
    ensures Exec(s, [a] + [b]) == Do(Do(s, a), b)
  {
    RunsCompose(s, [a], [b]);
    Exec1(s, a);
    Exec1(Do(s, a), b);
  }

  /** From a read job to the end of `process_one`. */
  lemma ClosingRun(s: State, answer: Answer)
    requires s.workers == map[ME := Idle] && s.queue != []
    ensures Exec(Opened(s), [Save(ME, answer.replies, answer.active)]
                            + (seq(|answer.replies|, _ => Send(ME)) + ([Finish(ME)] + [Release(ME)])))
            == Served(s, Some(answer))
  {
    var o := Opened(s);
    var save := Save(ME, answer.replies, answer.active);
    var sends := seq(|answer.replies|, _ => Send(ME));
    RunsCompose(o, [save], sends + ([Finish(ME)] + [Release(ME)]));
    Exec1(o, save);
    RunsCompose(Do(o, save), sends, [Finish(ME)] + [Release(ME)]);
    Exec2(Exec(Do(o, save), sends), Finish(ME), Release(ME));
    if PhaseOf(o, ME).Running? {
      TurnSaved(s, answer);
    } else {
      NothingSaved(s, answer);
    }
  }

  lemma TurnSaved(s: State, answer: Answer)
    requires s.workers == map[ME := Idle] && s.queue != [] && PhaseOf(Opened(s), ME).Running?
    ensures var o := Opened(s);
            var save := Save(ME, answer.replies, answer.active);
            Do(Do(Exec(Do(o, save), seq(|answer.replies|, _ => Send(ME))), Finish(ME)), Release(ME)) == Served(s, Some(answer))
  {
    SavingShape(s, answer);
    LeavingShape(s, answer);
    SendingRun(Do(Opened(s), Save(ME, answer.replies, answer.active)), |answer.replies|, s.queue[|s.queue| - 1], |s.log|);
  }

  lemma NothingSaved(s: State, answer: Answer)
    requires s.workers == map[ME := Idle] && s.queue != [] && !PhaseOf(Opened(s), ME).Running?
    ensures var o := Opened(s);
            var save := Save(ME, answer.replies, answer.active);
            Do(Do(Exec(Do(o, save), seq(|answer.replies|, _ => Send(ME))), Finish(ME)), Release(ME)) == Served(s, Some(answer))
  {
    var o := Opened(s);
    assert Do(o, Save(ME, answer.replies, answer.active)) == o;
    OpenedShape(s);
    IdleSends(o, |answer.replies|);
    ClosingWithoutSave(s, Some(answer), Finish(ME));
  }

  lemma {:induction false} IdleSends(s: State, n: nat)
    requires !PhaseOf(s, ME).Sending?
    ensures Exec(s, seq(n, _ => Send(ME))) == s
    decreases n
  {
    if n > 0 {
      assert seq(n, _ => Send(ME))[1..] == seq(n - 1, _ => Send(ME));
      IdleSends(s, n - 1);
    }
  }

  /** Serving a job start to finish is one particular run of the protocol. */
  lemma ServedIsARun(s: State, answer: Option<Answer>)
    requires s.workers == map[ME := Idle] && s.queue != []
    ensures Exec(s, ServingRun(answer)) == Served(s, answer)
  {
    var head := [Pop(ME), TryLock(ME), Requeue(ME), Read(ME)];
    var run := ServingRun(answer);
    Exec4(s, Pop(ME), TryLock(ME), Requeue(ME), Read(ME));
    if answer.None? {
      assert run == head + ([Fail(ME)] + [Release(ME)]);
      RunsCompose(s, head, [Fail(ME)] + [Release(ME)]);
      Exec2(Opened(s), Fail(ME), Release(ME));
      ClosingWithoutSave(s, answer, Fail(ME));
    } else {
      var save := Save(ME, answer.value.replies, answer.value.active);
      var sends := seq(|answer.value.replies|, _ => Send(ME));
      var tail := [save] + (sends + ([Finish(ME)] + [Release(ME)]));
      assert run == head + tail;
      RunsCompose(s, head, tail);
      ClosingRun(s, answer.value);
    }
  }

  // ---------------------------------------------------------------- sweep and drain

  /** The saves of one conversation, in log order. */
  function SavesOf(log: seq<Event>, conv: ConvId): seq<Event> {
    if log == [] then []
    else
      var last := |log| - 1;
      SavesOf(log[..last], conv) + (if log[last].Saved? && log[last].conv == conv then [log[last]] else [])
  }

  lemma {:induction false} SavesOfAppend(log: seq<Event>, more: seq<Event>, conv: ConvId)
    ensures SavesOf(log + more, conv) == SavesOf(log, conv) + SavesOf(more, conv)
  {
    if more == [] {
      assert log + more == log;
    } else {
      var init := more[..|more| - 1];
      assert (log + more)[..|log + more| - 1] == log + init;
      SavesOfAppend(log, init, conv);
    }
  }

  lemma {:induction false} SendsSaveNothing(conv: ConvId, turn: nat, n: nat, of: ConvId)
    ensures SavesOf(Sends(conv, turn, n), of) == []
    decreases n
  {
    if n > 0 {
      assert Sends(conv, turn, n)[..n - 1] == Sends(conv, turn, n - 1);
      SendsSaveNothing(conv, turn, n - 1, of);
    }
  }

  /** What one turn of the conversation would save right now. */
  function DueSave(s: State, conv: ConvId): seq<Event> {
    if TargetOf(s, conv).Some? then [Saved(conv, s.convs[conv].mark, TargetOf(s, conv).value)] else []
  }

  /** Serving a job answers its conversation and leaves the others exactly as they were. */
  lemma ServedOthers(s: State, answer: Answer, conv: ConvId)
    requires s.queue != [] && s.locks == {} && conv != s.queue[|s.queue| - 1]
    ensures var t := Served(s, Some(answer));
            && |t.convs| == |s.convs|
            && (conv < |s.convs| ==> t.convs[conv] == s.convs[conv])
            && Thread(t.table, conv) == Thread(s.table, conv)
            && TargetOf(t, conv) == TargetOf(s, conv)
  {
    var c := s.queue[|s.queue| - 1];
    if TargetOf(s, c).Some? {
      ThreadIgnores(s.table, Replies(c, answer.replies), conv);
    }
  }

  lemma ServedIsAnswered(s: State, answer: Answer)
    requires s.queue != [] && s.locks == {}
    ensures TargetOf(Served(s, Some(answer)), s.queue[|s.queue| - 1]).None?
  {
    var c := s.queue[|s.queue| - 1];
    var t := Served(s, Some(answer));
    if TargetOf(s, c).Some? && TargetOf(t, c).Some? {
      WindowTargetsLead(s.table, c);
      WindowTargetsLead(t.table, c);
      LatestLeadIgnores(s.table, Replies(c, answer.replies), c);
    }
  }

  lemma ServedSaves(s: State, answer: Answer, conv: ConvId)
    requires s.queue != [] && s.locks == {}
    ensures SavesOf(Served(s, Some(answer)).log, conv) ==
            SavesOf(s.log, conv) + (if conv == s.queue[|s.queue| - 1] then DueSave(s, conv) else [])
  {
    var c := s.queue[|s.queue| - 1];
    if TargetOf(s, c).Some? {
      TurnSavesOnce(s.log, Saved(c, s.convs[c].mark, TargetOf(s, c).value), |answer.replies|, conv);
    }
  }

  lemma TurnSavesOnce(log: seq<Event>, save: Event, sends: nat, conv: ConvId)
    requires save.Saved?
    ensures SavesOf(log + [save] + Sends(save.conv, |log|, sends), conv) ==
            SavesOf(log, conv) + (if conv == save.conv then [save] else [])
  {
    SavesOfAppend(log + [save], Sends(save.conv, |log|, sends), conv);
    SavesOfAppend(log, [save], conv);
    SendsSaveNothing(save.conv, |log|, sends, conv);
    assert [save][..0] == [];
  }

  /** The mark a drain leaves, and the newest lead order it finds. */
  lemma ServedMark(s: State, answer: Answer, conv: ConvId)
    requires s.queue != [] && s.locks == {} && conv < |s.convs|
    ensures var t := Served(s, Some(answer));
            && |t.convs| == |s.convs|
            && LatestLead(t.table, conv) == LatestLead(s.table, conv)
            && t.convs[conv].mark == (if conv == s.queue[|s.queue| - 1] then TargetOf(s, conv).GetOr(s.convs[conv].mark)
                                      else s.convs[conv].mark)
  {
    var c := s.queue[|s.queue| - 1];
    LatestLeadIgnores(s.table, Replies(c, answer.replies), conv);
  }

  /**
   * Draining the list, whatever duplicates it holds: a listed conversation with something
   * in sight to answer is saved exactly once, from its mark to its target; any other is
   * not saved at all.
   */
  lemma {:induction false} DrainSavesOnce(s: State, answers: ConvId -> Answer, conv: ConvId)
    requires s.locks == {}
    ensures SavesOf(Drained(s, answers).log, conv) ==
            SavesOf(s.log, conv) + (if conv in s.queue then DueSave(s, conv) else [])
    decreases |s.queue|
  {
    if s.queue != [] {
      var c := s.queue[|s.queue| - 1];
      assert s.queue == s.queue[..|s.queue| - 1] + [c];
      ServedShrinks(s, Some(answers(c)));
      ServedSaves(s, answers(c), conv);
      if conv == c { ServedIsAnswered(s, answers(c)); } else { ServedOthers(s, answers(c), conv); }
      DrainSavesOnce(Served(s, Some(answers(c))), answers, conv);
    }
  }

  /** Each listed conversation's mark moves to its target, and no other mark moves. */
  lemma {:induction false} DrainMovesMarks(s: State, answers: ConvId -> Answer, conv: ConvId)
    requires s.locks == {} && conv < |s.convs|
    ensures var t := Drained(s, answers);
            && t.queue == [] && |t.convs| == |s.convs|
            && LatestLead(t.table, conv) == LatestLead(s.table, conv)
            && t.convs[conv].mark == if conv in s.queue then TargetOf(s, conv).GetOr(s.convs[conv].mark) else s.convs[conv].mark
    decreases |s.queue|
  {
    if s.queue != [] {
      var c := s.queue[|s.queue| - 1];
      assert s.queue == s.queue[..|s.queue| - 1] + [c];
      ServedShrinks(s, Some(answers(c)));
      ServedMark(s, answers(c), conv);
      if conv == c { ServedIsAnswered(s, answers(c)); } else { ServedOthers(s, answers(c), conv); }
      DrainMovesMarks(Served(s, Some(answers(c))), answers, conv);
    }
  }

  lemma {:induction false} EligibleHoldsAll(convs: seq<Convo>, from: nat, limit: nat, conv: ConvId)
    requires from <= |convs| && |EligibleFrom(convs, from, limit)| < limit
    ensures conv in EligibleFrom(convs, from, limit)
            <==> from <= conv < |convs| && convs[conv].active && !convs[conv].closed
    decreases |convs| - from
  {
    if from < |convs| {
      if convs[from].active && !convs[from].closed {
        EligibleHoldsAll(convs, from + 1, limit - 1, conv);
      } else {
        EligibleHoldsAll(convs, from + 1, limit, conv);
      }
    }
  }

  lemma {:induction false} UnansweredFilters(s: State, convs: seq<ConvId>, conv: ConvId)
    ensures conv in UnansweredAmong(s, convs) <==> conv in convs && Unanswered(s, conv)
  {
    if convs != [] {
      var last := |convs| - 1;
      assert convs == convs[..last] + [convs[last]];
      UnansweredFilters(s, convs[..last], conv);
    }
  }

  lemma {:induction false} PushedFrontAdds(queue: seq<ConvId>, convs: seq<ConvId>, conv: ConvId)
    ensures conv in PushedFront(queue, convs) <==> conv in queue || conv in convs
  {
    if convs != [] {
      var last := |convs| - 1;
      assert convs == convs[..last] + [convs[last]];
      PushedFrontAdds(queue, convs[..last], conv);
    }
  }

  /**
   * A sweep below its limit, then the loop. Every eligible conversation with an unanswered
   * message in sight gets exactly one turn, from its mark to its newest lead message;
   * every other eligible conversation gets none. The ones still unanswered afterwards are
   * exactly those whose lead rows ten later rows hide from the window.
   */
  lemma SweepThenDrain(s: State, limit: nat, answers: ConvId -> Answer, conv: ConvId)
    requires s.locks == {} && |EligibleFrom(s.convs, 0, limit)| < limit
    requires conv < |s.convs| && s.convs[conv].active && !s.convs[conv].closed
    ensures var t := Drained(Swept(s, limit), answers);
            && SavesOf(t.log, conv) == SavesOf(s.log, conv)
               + (if Unanswered(s, conv) && LeadInSight(s.table, conv)
                  then [Saved(conv, s.convs[conv].mark, LatestLead(s.table, conv))] else [])
            && (Unanswered(t, conv) <==> Unanswered(s, conv) && !LeadInSight(s.table, conv))
  {
    var swept := Swept(s, limit);
    EligibleHoldsAll(s.convs, 0, limit, conv);
    UnansweredFilters(s, EligibleFrom(s.convs, 0, limit), conv);
    PushedFrontAdds(s.queue, UnansweredAmong(s, EligibleFrom(s.convs, 0, limit)), conv);
    DrainSavesOnce(swept, answers, conv);
    DrainMovesMarks(swept, answers, conv);
    assert TargetOf(swept, conv) == TargetOf(s, conv);
    WindowAgreesExactly(s.table, conv);
    if TargetOf(s, conv).Some? {
      WindowTargetsLead(s.table, conv);
    }
  }

  /** Pushing jobs at the front takes no job and no worker away. */
  lemma PushedKeepsCarried(s: State, queue: seq<ConvId>, conv: ConvId)
    requires forall c :: c in s.queue ==> c in queue
    requires Carried(s, conv)
    ensures Carried(s.(queue := queue), conv)
  {
    if w :| w in s.workers && Carries(s, s.workers[w], conv) {
      assert Carries(s.(queue := queue), s.workers[w], conv);
    }
  }

  /**
   * After a sweep that stays below its limit, whatever happened before, a pending conversation
   * has somebody on its way exactly when it is open or already had: closed conversations are
   * the only ones the sweep passes by.
   */
  lemma SweepCoversExactly(s: State, limit: nat, conv: ConvId)
    requires |EligibleFrom(s.convs, 0, limit)| < limit && Pending(s, conv)
    ensures Pending(Swept(s, limit), conv)
    ensures Carried(Swept(s, limit), conv) <==> !s.convs[conv].closed || Carried(s, conv)
  {
    var among := UnansweredAmong(s, EligibleFrom(s.convs, 0, limit));
    var t := Swept(s, limit);
    EligibleHoldsAll(s.convs, 0, limit, conv);
    UnansweredFilters(s, EligibleFrom(s.convs, 0, limit), conv);
    PushedFrontAdds(s.queue, among, conv);
    if Carried(s, conv) {
      forall c | c in s.queue ensures c in t.queue {
        PushedFrontAdds(s.queue, among, c);
      }
      PushedKeepsCarried(s, t.queue, conv);
    }
    if Carried(t, conv) && conv !in t.queue {
      var w :| w in t.workers && Carries(t, t.workers[w], conv);
      assert Carries(s, s.workers[w], conv);
    }
  }

  /** From any state, a sweep below its limit recovers every pending conversation but the closed ones nobody was coming for. */
  lemma SweepRecoversExactly(s: State, limit: nat)
    requires |EligibleFrom(s.convs, 0, limit)| < limit
    ensures Covered(Swept(s, limit))
            <==> forall c :: 0 <= c < |s.convs| && Pending(s, c) && s.convs[c].closed ==> Carried(s, c)
  {
    var t := Swept(s, limit);
    forall c | 0 <= c < |s.convs| && Pending(s, c)
      ensures Pending(t, c) && (Carried(t, c) <==> !s.convs[c].closed || Carried(s, c))
    {
      SweepCoversExactly(s, limit, c);
    }
    forall c | 0 <= c < |t.convs| && Pending(t, c) ensures Pending(s, c) {
    }
  }

  lemma {:induction false} SweepsPush(s: State, convs: seq<ConvId>)
    requires forall i :: 0 <= i < |convs| ==> convs[i] < |s.convs|
    ensures Exec(s, Sweeps(convs)) == s.(queue := PushedFront(s.queue, convs))
  {
    if convs == [] {
    } else {
      var init, last := convs[..|convs| - 1], convs[|convs| - 1];
      SweepsPush(s, init);
      RunsCompose(s, Sweeps(init), [Sweep(last)]);
      Exec1(Exec(s, Sweeps(init)), Sweep(last));
    }
  }

  function Sweeps(convs: seq<ConvId>): seq<Action> {
    if convs == [] then [] else Sweeps(convs[..|convs| - 1]) + [Sweep(convs[|convs| - 1])]
  }

  /** The sweep is a run of the protocol: one `Sweep` for each unanswered eligible conversation, in their order. */
  lemma SweptIsARun(s: State, limit: nat)
    ensures Exec(s, Sweeps(UnansweredAmong(s, EligibleFrom(s.convs, 0, limit)))) == Swept(s, limit)
  {
    var among := UnansweredAmong(s, EligibleFrom(s.convs, 0, limit));
    forall i | 0 <= i < |among| ensures among[i] < |s.convs| {
      UnansweredFilters(s, EligibleFrom(s.convs, 0, limit), among[i]);
    }
    SweepsPush(s, among);
  }

  // ---------------------------------------------------------------- the list and the locks

  /** The last `n` jobs of the list, in the order workers take them. */
  function Taken(queue: seq<ConvId>, n: nat): seq<ConvId>
    requires n <= |queue|
  {
    if n == 0 then [] else [queue[|queue| - 1]] + Taken(queue[..|queue| - 1], n - 1)
  }

  lemma {:induction false} TakenJoins(front: seq<ConvId>, queue: seq<ConvId>)
    ensures Taken(front + queue, |front| + |queue|) == Taken(queue, |queue|) + Taken(front, |front|)
    decreases |queue|
  {
    var all := front + queue;
    if queue == [] {
      assert all == front;
    } else {
      assert all[..|all| - 1] == front + queue[..|queue| - 1];
      TakenJoins(front, queue[..|queue| - 1]);
    }
  }

  /** First in, first out: jobs pushed one after the other are taken in that order, after all that was there before. */
  lemma {:induction false} JobsAreTakenInOrder(queue: seq<ConvId>, convs: seq<ConvId>)
    ensures |PushedFront(queue, convs)| == |queue| + |convs|
    ensures Taken(PushedFront(queue, convs), |queue| + |convs|) == Taken(queue, |queue|) + convs
    decreases |convs|
  {
    if convs != [] {
      var last := |convs| - 1;
      var before := PushedFront(queue, convs[..last]);
      JobsAreTakenInOrder(queue, convs[..last]);
      TakenJoins([convs[last]], before);
      assert [convs[last]][..0] == [];
      assert Taken([convs[last]], 1) == [convs[last]];
      assert convs == convs[..last] + [convs[last]];
    }
  }

  /** One message after the other, each pushing its job. */
  function Receives(convs: seq<ConvId>, text: string): seq<Action> {
    if convs == [] then [] else Receives(convs[..|convs| - 1], text) + [Receive(convs[|convs| - 1], text, true)]
  }

  lemma {:induction false} ReceivesPush(s: State, convs: seq<ConvId>, text: string)
    requires forall i :: 0 <= i < |convs| ==> convs[i] < |s.convs|
    ensures Exec(s, Receives(convs, text)).queue == PushedFront(s.queue, convs)
    ensures Exec(s, Receives(convs, text)).convs == s.convs
  {
    if convs != [] {
      var init, last := convs[..|convs| - 1], convs[|convs| - 1];
      ReceivesPush(s, init, text);
      RunsCompose(s, Receives(init, text), [Receive(last, text, true)]);
      Exec1(Exec(s, Receives(init, text)), Receive(last, text, true));
    }
  }

  /** Messages are taken in the order they came, after everything that waited before them. */
  lemma {:induction false} MessagesAreTakenInOrder(s: State, convs: seq<ConvId>, text: string)
    requires forall i :: 0 <= i < |convs| ==> convs[i] < |s.convs|
    ensures var t := Exec(s, Receives(convs, text));
            && |t.queue| == |s.queue| + |convs|
            && Taken(t.queue, |s.queue| + |convs|) == Taken(s.queue, |s.queue|) + convs
  {
    ReceivesPush(s, convs, text);
    JobsAreTakenInOrder(s.queue, convs);
  }

  predicate Rising(convs: seq<ConvId>) {
    forall i, j :: 0 <= i < j < |convs| ==> convs[i] < convs[j]
  }

  lemma {:induction false} EligibleRises(convs: seq<Convo>, from: nat, limit: nat)
    requires from <= |convs|
    ensures Rising(EligibleFrom(convs, from, limit))
    ensures forall i :: 0 <= i < |EligibleFrom(convs, from, limit)| ==> EligibleFrom(convs, from, limit)[i] >= from
    decreases |convs| - from
  {
    if from < |convs| && limit > 0 {
      if convs[from].active && !convs[from].closed {
        EligibleRises(convs, from + 1, limit - 1);
      } else {
        EligibleRises(convs, from + 1, limit);
      }
    }
  }

  /** The limit leaves out the youngest: whoever is older than one it keeps is kept. */
  lemma {:induction false} LimitKeepsTheOldest(convs: seq<Convo>, from: nat, limit: nat, kept: ConvId, older: ConvId)
    requires from <= older < kept < |convs| && kept in EligibleFrom(convs, from, limit)
    requires convs[older].active && !convs[older].closed
    ensures older in EligibleFrom(convs, from, limit)
    decreases |convs| - from
  {
    EligibleRises(convs, from, limit);
    if from < older {
      if convs[from].active && !convs[from].closed {
        LimitKeepsTheOldest(convs, from + 1, limit - 1, kept, older);
      } else {
        LimitKeepsTheOldest(convs, from + 1, limit, kept, older);
      }
    }
  }

  lemma {:induction false} UnansweredRises(s: State, convs: seq<ConvId>)
    requires Rising(convs)
    ensures Rising(UnansweredAmong(s, convs))
    ensures forall i :: 0 <= i < |UnansweredAmong(s, convs)| ==> UnansweredAmong(s, convs)[i] in convs
  {
    if convs != [] {
      var init := convs[..|convs| - 1];
      assert convs == init + [convs[|convs| - 1]];
      UnansweredRises(s, init);
      var before := UnansweredAmong(s, init);
      forall i | 0 <= i < |before| ensures before[i] < convs[|convs| - 1] {
        assert before[i] in init;
      }
    }
  }

  /** What the sweep adds is taken after what was in the list, oldest conversation first. */
  lemma SweepGoesByAge(s: State, limit: nat) returns (added: seq<ConvId>)
    ensures var t := Swept(s, limit);
            |t.queue| == |s.queue| + |added| && Taken(t.queue, |s.queue| + |added|) == Taken(s.queue, |s.queue|) + added
    ensures Rising(added)
    ensures forall c :: c in added <==> c in EligibleFrom(s.convs, 0, limit) && Unanswered(s, c)
  {
    var eligible := EligibleFrom(s.convs, 0, limit);
    added := UnansweredAmong(s, eligible);
    EligibleRises(s.convs, 0, limit);
    UnansweredRises(s, eligible);
    JobsAreTakenInOrder(s.queue, added);
    forall c ensures c in added <==> c in eligible && Unanswered(s, c) {
      UnansweredFilters(s, eligible, c);
    }
  }
}
