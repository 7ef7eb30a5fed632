/**
 * What the steps of the protocol are for: a message that pushed its job is waited for until the
 * job is taken, jobs are taken in the order of their messages, and what a turn, an operator or a
 * switch writes is there afterwards.
 */
module TurnEffects {
  import opened History
  import opened TurnProtocol

  // ---------------------------------------------------------------- the job of a message

  /** The row is stored, hidden until its transaction commits, and its job is in the list unless it opted out. */
  lemma ReceivedIsQueued(s: State, c: ConvId, text: string, enqueue: bool)
    requires c < |s.convs|
    ensures var t := Do(s, Receive(c, text, enqueue));
            && t.table == s.table + [Row(c, Lead, text, false)]
            && t.queue == (if enqueue then [c] else []) + s.queue
            && t.convs == s.convs && t.workers == s.workers && t.locks == s.locks && t.log == s.log
  {
    assert [] + s.queue == s.queue;
  }

  /** The step takes a job off the list. */
  predicate Takes(s: State, a: Action) {
    a.Pop? && PhaseOf(s, a.worker).Idle? && a.worker in s.workers && s.queue != []
  }

  /** How many jobs a run takes off the list. */
  function TakenIn(s: State, run: seq<Action>): nat
    decreases |run|
  {
    if run == [] then 0 else (if Takes(s, run[0]) then 1 else 0) + TakenIn(Do(s, run[0]), run[1..])
  }

  /** New jobs come in at the front, and jobs leave at the back. */
  lemma StepShifts(s: State, a: Action) returns (more: seq<ConvId>)
    ensures Do(s, a).queue == more + (if Takes(s, a) then s.queue[..|s.queue| - 1] else s.queue)
  {
    var kept := if Takes(s, a) then s.queue[..|s.queue| - 1] else s.queue;
    more := Do(s, a).queue[..|Do(s, a).queue| - |kept|];
  }

  lemma {:induction false} QueueShifts(s: State, run: seq<Action>) returns (more: seq<ConvId>)
    requires TakenIn(s, run) <= |s.queue|
    ensures Exec(s, run).queue == more + s.queue[..|s.queue| - TakenIn(s, run)]
    decreases |run|
  {
    if run == [] {
      more := [];
      assert s.queue[..|s.queue|] == s.queue;
    } else {
      var t, rest := Do(s, run[0]), run[1..];
      var first := StepShifts(s, run[0]);
      var kept := if Takes(s, run[0]) then s.queue[..|s.queue| - 1] else s.queue;
      var later := QueueShifts(t, rest);
      more := later + first;
      var left := |s.queue| - TakenIn(s, run);
      assert |t.queue| - TakenIn(t, rest) == |first| + left;
      assert t.queue[..|first| + left] == first + kept[..left];
      assert kept[..left] == s.queue[..left];
      assert later + (first + s.queue[..left]) == later + first + s.queue[..left];
    }
  }

  /** Rows never change hands. */
  lemma {:induction false} RowsStayPut(s: State, run: seq<Action>, i: nat)
    requires i < |s.table|
    ensures i < |Exec(s, run).table|
    ensures Exec(s, run).table[i].conv == s.table[i].conv && Exec(s, run).table[i].role == s.table[i].role
    decreases |run|
  {
    if run != [] {
      RowStaysPut(s, run[0], i);
      RowsStayPut(Do(s, run[0]), run[1..], i);
    }
  }

  lemma RowStaysPut(s: State, a: Action, i: nat)
    requires i < |s.table|
    ensures i < |Do(s, a).table|
    ensures Do(s, a).table[i].conv == s.table[i].conv && Do(s, a).table[i].role == s.table[i].role
  {
  }

  /**
   * A message that pushed its job is never stranded by its commit as long as the job is in the
   * list, however long the transaction takes: that is, until as many jobs were taken as were in
   * the list before it, and one more.
   */
  lemma ReceivedCommitsInTime(s: State, c: ConvId, text: string, run: seq<Action>)
    requires c < |s.convs|
    requires TakenIn(Do(s, Receive(c, text, true)), run) <= |s.queue|
    ensures var t := Exec(Do(s, Receive(c, text, true)), run);
            && Awaited(t, c) && !Strands(t, Commit(|s.table| + 1))
  {
    var received := Do(s, Receive(c, text, true));
    var t := Exec(received, run);
    ReceivedIsQueued(s, c, text, true);
    var more := QueueShifts(received, run);
    var kept := received.queue[..|received.queue| - TakenIn(received, run)];
    assert kept[0] == c;
    assert t.queue[|more|] == c;
    RowsStayPut(received, run, |s.table|);
  }

  // ---------------------------------------------------------------- in the order of the messages

  /** The last job of the list is the one an idle worker takes. */
  lemma PopTakesTheOldest(s: State, w: WorkerId)
    requires w in s.workers && s.workers[w].Idle? && s.queue != []
    ensures var t := Do(s, Pop(w));
            t.workers[w] == Popped(s.queue[|s.queue| - 1]) && t.queue == s.queue[..|s.queue| - 1]
  {
  }

  /** Two messages received one after the other into an empty list are taken in that order. */
  lemma FirstReceivedIsFirstTaken(s: State, c: ConvId, d: ConvId, first: string, second: string, v: WorkerId, w: WorkerId)
    requires c < |s.convs| && d < |s.convs| && s.queue == []
    requires v != w && v in s.workers && w in s.workers && s.workers[v].Idle? && s.workers[w].Idle?
    ensures var t := Do(Do(Do(Do(s, Receive(c, first, true)), Receive(d, second, true)), Pop(v)), Pop(w));
            t.workers[v] == Popped(c) && t.workers[w] == Popped(d) && t.queue == []
  {
    var received := Do(Do(s, Receive(c, first, true)), Receive(d, second, true));
    assert received.queue == [d, c];
    PopTakesTheOldest(received, v);
    PopTakesTheOldest(Do(received, Pop(v)), w);
  }

  // ---------------------------------------------------------------- what the steps write

  /** The replies of a turn, as entries of its thread. */
  function ReplyEntries(order: nat, replies: seq<string>): (entries: seq<Entry>)
    ensures |entries| == |replies|
    ensures forall i :: 0 <= i < |replies| ==> entries[i] == Entry(order + i + 1, Assistant, replies[i])
  {
    seq(|replies|, i requires 0 <= i < |replies| => Entry(order + i + 1, Assistant, replies[i]))
  }

  lemma OneReplyShows(table: seq<Row>, conv: ConvId, reply: string)
    ensures Thread(table + [Row(conv, Assistant, reply, true)], conv)
            == Thread(table, conv) + [Entry(|table| + 1, Assistant, reply)]
  {
    ThreadStep(table, Row(conv, Assistant, reply, true), conv);
  }

  lemma {:induction false} RepliesShow(table: seq<Row>, conv: ConvId, replies: seq<string>)
    ensures Thread(table + Replies(conv, replies), conv) == Thread(table, conv) + ReplyEntries(|table|, replies)
    decreases |replies|
  {
    if replies == [] {
      assert table + Replies(conv, replies) == table;
    } else {
      var n := |replies| - 1;
      RepliesShow(table, conv, replies[..n]);
      OneReplyShows(table + Replies(conv, replies[..n]), conv, replies[n]);
      assert table + Replies(conv, replies) == table + Replies(conv, replies[..n]) + [Row(conv, Assistant, replies[n], true)];
      assert ReplyEntries(|table|, replies) == ReplyEntries(|table|, replies[..n]) + [Entry(|table| + n + 1, Assistant, replies[n])];
    }
  }

  /** A saved turn: its replies at the end of its thread, in order, the mark at its target, the switch as it answered. */
  lemma SavedTurnIsStored(s: State, w: WorkerId, replies: seq<string>, active: bool)
    requires PhaseOf(s, w).Running? && PhaseOf(s, w).conv < |s.convs|
    ensures var p, t := PhaseOf(s, w), Do(s, Save(w, replies, active));
            && Thread(t.table, p.conv) == Thread(s.table, p.conv) + ReplyEntries(|s.table|, replies)
            && t.convs[p.conv].mark == p.target && t.convs[p.conv].active == active
            && t.convs[p.conv].closed == s.convs[p.conv].closed
            && t.log == s.log + [Saved(p.conv, p.from, p.target)]
            && PhaseOf(t, w) == Sending(p.conv, |s.log|)
  {
    RepliesShow(s.table, PhaseOf(s, w).conv, replies);
  }

  /** What the staff does shows at once: a reply or a note at the end of the thread, a closing and a switch on the conversation alone. */
  lemma StaffStepsShow(s: State, c: ConvId, role: Role, text: string, on: bool)
    requires c < |s.convs| && role != Lead
    ensures Thread(Do(s, Post(c, role, text)).table, c) == Thread(s.table, c) + [Entry(|s.table| + 1, role, text)]
    ensures Do(s, Close(c, on)) == s.(convs := s.convs[c := Convo(s.convs[c].active, on, s.convs[c].mark)])
    ensures Do(s, Toggle(c, on)) == s.(convs := s.convs[c := Convo(on, s.convs[c].closed, s.convs[c].mark)])
  {
    ThreadStep(s.table, Row(c, role, text, true), c);
  }

  /** Once it has saved, a worker that sends, finishes and leaves is free again, and so is the lock of its conversation. */
  lemma SavedTurnEndsFree(s: State, w: WorkerId, replies: seq<string>, active: bool)
    requires PhaseOf(s, w).Running? && PhaseOf(s, w).conv < |s.convs|
    ensures var conv := PhaseOf(s, w).conv;
            var saved := Do(s, Save(w, replies, active));
            var t := Do(Do(Do(saved, Send(w)), Finish(w)), Release(w));
            && PhaseOf(t, w) == Idle && t.locks == s.locks - {conv}
            && t.queue == s.queue && t.convs == saved.convs && t.table == saved.table
            && |t.log| == |s.log| + 2 && t.log[|s.log|].Saved? && t.log[|s.log| + 1] == Sent(conv, |s.log|)
  {
    var saved := Do(s, Save(w, replies, active));
    assert PhaseOf(saved, w) == Sending(PhaseOf(s, w).conv, |s.log|);
    var sent := Do(saved, Send(w));
    assert PhaseOf(sent, w).Sending?;
    var finished := Do(sent, Finish(w));
    assert PhaseOf(finished, w) == Leaving(PhaseOf(s, w).conv);
  }
}
