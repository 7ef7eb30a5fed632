/**
 * What one message is for, said on the message itself: where it is stored and in which words, who
 * is sent to work on it, and what an opt-out does, for one message and over any deliveries.
 */
module WebhookEffects {
  import opened Wrappers
  import opened Webhook

  // ---------------------------------------------------------------- the conversation of a message

  /** The newest conversation of the phone. */
  predicate IsNewest(convs: seq<Conv>, phone: Phone, c: ConvId) {
    c < |convs| && convs[c].phone == phone && forall i :: c < i < |convs| ==> convs[i].phone != phone
  }

  /** The phone has a conversation, and its newest one is open. */
  predicate HasOpen(convs: seq<Conv>, phone: Phone) {
    exists c :: 0 <= c < |convs| && IsNewest(convs, phone, c) && !convs[c].closed
  }

  lemma {:induction false} LatestIsNewest(convs: seq<Conv>, phone: Phone)
    ensures LatestOf(convs, phone).Some? ==> IsNewest(convs, phone, LatestOf(convs, phone).value)
    ensures LatestOf(convs, phone).None? ==> forall i :: 0 <= i < |convs| ==> convs[i].phone != phone
  {
    if convs != [] {
      LatestIsNewest(convs[..|convs| - 1], phone);
    }
  }

  /** A message goes to the newest conversation of its phone when that one is open, and to a new one exactly otherwise. */
  lemma OpensOnlyWhenNeeded(convs: seq<Conv>, phone: Phone)
    ensures var (after, c) := GetOrCreate(convs, phone);
            && IsNewest(after, phone, c) && !after[c].closed
            && after == if HasOpen(convs, phone) then convs else convs + [Conv(phone, false)]
  {
    LatestIsNewest(convs, phone);
    var latest := LatestOf(convs, phone);
    if latest.Some? && !convs[latest.value].closed {
      assert IsNewest(convs, phone, latest.value);
    }
  }

  // ---------------------------------------------------------------- one message

  /** What is kept of the words of a message. */
  predicate KeepsWords(m: Msg, text: string) {
    match m.kind
    case Text => m.content == Some(text)
    case Image => text == "[image: " + Caption(m) + "]"
    case Document => text == "[document: " + Caption(m) + "]"
    case Unsupported => false
  }

  function Caption(m: Msg): string {
    if m.content == None || m.content == Some("") then "sin descripcion" else m.content.value
  }

  /** The message brings something that was not stored yet. */
  predicate IsNews(s: State, m: Msg) {
    (m.kind == Text || m.kind == Image || m.kind == Document) && m.content.Some? && m.id !in Ids(s.rows)
  }

  predicate OptsOut(m: Msg) {
    m.kind == Text && m.content.Some? && m.optsOut
  }

  /** Who is sent to work on the message: vision on what may be the awaited receipt, the agent unless the lead opted out. */
  function Sends(m: Msg, c: ConvId): seq<Job> {
    (if IsMedia(m) && m.receipt == Awaited then [Vision(c, m.id)] else []) + (if OptsOut(m) then [] else [Turn(c)])
  }

  lemma NewsIsHandled(s: State, m: Msg)
    requires Handle(s, m).Some? && IsNews(s, m)
    ensures var t, c := Handle(s, m).value, GetOrCreate(s.convs, m.phone).1;
            var row := LeadRow(c, m.id, StoredText(m));
            && t.rows == s.rows + [row] + (if OptsOut(m) && m.replied then [OptOutReply(c)] else [])
            && t.jobs == s.jobs + Sends(m, c)
            && t.optOuts == s.optOuts + (if OptsOut(m) then {m.phone} else {})
            && t.convs == GetOrCreate(s.convs, m.phone).0
  {
    ExistsIffId(s.rows, m.id);
    var c := GetOrCreate(s.convs, m.phone).1;
    var row := LeadRow(c, m.id, StoredText(m));
    assert s.rows + [row] + [] == s.rows + [row];
    assert s.jobs + [] + [Turn(c)] == s.jobs + [Turn(c)];
    assert s.jobs + [Vision(c, m.id)] + [Turn(c)] == s.jobs + ([Vision(c, m.id)] + [Turn(c)]);
    assert s.optOuts + {} == s.optOuts;
  }

  /**
   * A message that is news: one row of its own words in the newest, open conversation of its
   * phone, vision sent exactly on media that may be the awaited receipt, the agent sent once
   * unless the lead opted out, and the opt-out registered, with its reply when it went out.
   */
  lemma NewsDoesItsWork(s: State, m: Msg) returns (c: ConvId, text: string)
    requires Handle(s, m).Some? && IsNews(s, m)
    ensures var t := Handle(s, m).value;
            && IsNewest(t.convs, m.phone, c) && !t.convs[c].closed && KeepsWords(m, text)
            && t.convs == (if HasOpen(s.convs, m.phone) then s.convs else s.convs + [Conv(m.phone, false)])
            && t.rows == s.rows + [LeadRow(c, m.id, text)] + (if OptsOut(m) && m.replied then [OptOutReply(c)] else [])
            && t.jobs == s.jobs + Sends(m, c)
            && t.optOuts == s.optOuts + (if OptsOut(m) then {m.phone} else {})
  {
    c, text := GetOrCreate(s.convs, m.phone).1, StoredText(m);
    OpensOnlyWhenNeeded(s.convs, m.phone);
    NewsIsHandled(s, m);
  }

  /** Anything else is stored by no row, sends nobody and opts nobody out. */
  lemma TheRestDoesNothing(s: State, m: Msg)
    requires Handle(s, m).Some? && !IsNews(s, m)
    ensures var t := Handle(s, m).value;
            && t.rows == s.rows && t.jobs == s.jobs && t.optOuts == s.optOuts
            && (!IsMedia(m) || m.id in Ids(s.rows) ==> t.convs == s.convs)
  {
    ExistsIffId(s.rows, m.id);
  }

  /** A new opt-out registers its phone and sends nobody to answer. */
  lemma OptOutIsHeard(s: State, m: Msg)
    requires Handle(s, m).Some? && IsNews(s, m) && OptsOut(m)
    ensures m.phone in Handle(s, m).value.optOuts && Handle(s, m).value.jobs == s.jobs
  {
    NewsIsHandled(s, m);
    assert s.jobs + ([] + []) == s.jobs;
  }

  // ---------------------------------------------------------------- over any deliveries

  /** Among these messages the phone opted out, in one that was not a repetition. */
  predicate OptedOut(msgs: seq<Msg>, phone: Phone) {
    exists k :: 0 <= k < |msgs| && OptsOutAt(msgs, phone, k)
  }

  predicate OptsOutAt(msgs: seq<Msg>, phone: Phone, k: nat)
    requires k < |msgs|
  {
    OptsOut(msgs[k]) && msgs[k].phone == phone && forall j :: 0 <= j < k ==> !SameMessage(msgs[j], msgs[k].id)
  }

  lemma OptedOutGrows(msgs: seq<Msg>, m: Msg, phone: Phone)
    ensures OptedOut(msgs + [m], phone)
            <==> OptedOut(msgs, phone)
                 || (OptsOut(m) && m.phone == phone && forall j :: 0 <= j < |msgs| ==> !SameMessage(msgs[j], m.id))
  {
    var more := msgs + [m];
    forall k | 0 <= k < |msgs| ensures OptsOutAt(more, phone, k) <==> OptsOutAt(msgs, phone, k) {
      assert forall j :: 0 <= j < k ==> more[j] == msgs[j];
    }
    assert more[|msgs|] == m;
    assert OptsOutAt(more, phone, |msgs|) <==> OptsOut(m) && m.phone == phone && forall j :: 0 <= j < |msgs| ==> !SameMessage(msgs[j], m.id) by {
      assert forall j :: 0 <= j < |msgs| ==> more[j] == msgs[j];
    }
    if OptedOut(msgs, phone) {
      var k :| 0 <= k < |msgs| && OptsOutAt(msgs, phone, k);
      assert OptsOutAt(more, phone, k);
    }
    if OptedOut(more, phone) {
      var k :| 0 <= k < |more| && OptsOutAt(more, phone, k);
      assert k < |msgs| ==> OptsOutAt(msgs, phone, k);
    }
  }

  /** What was committed so far: its ids are stored, and its opt-outs registered. */
  ghost predicate Reflects(s: State, msgs: seq<Msg>) {
    && (forall id: WaId :: id in Ids(s.rows) <==> exists j :: 0 <= j < |msgs| && SameMessage(msgs[j], id))
    && (forall phone: Phone :: phone in s.optOuts <==> OptedOut(msgs, phone))
  }

  lemma OneMoreIsReflected(s: State, msgs: seq<Msg>, m: Msg)
    requires Reflects(s, msgs) && Handle(s, m).Some?
    ensures Reflects(Handle(s, m).value, msgs + [m])
  {
    var t, more := Handle(s, m).value, msgs + [m];
    HandleStores(s, m);
    forall id: WaId ensures id in Ids(t.rows) <==> exists j :: 0 <= j < |more| && SameMessage(more[j], id) {
      OneMoreMessage(msgs, m, id);
    }
    forall phone: Phone ensures phone in t.optOuts <==> OptedOut(more, phone) {
      OptedOutGrows(msgs, m, phone);
      NewlyOptedOut(s, msgs, m, phone);
    }
  }

  lemma NewlyOptedOut(s: State, msgs: seq<Msg>, m: Msg, phone: Phone)
    requires Reflects(s, msgs) && Handle(s, m).Some?
    ensures phone in Handle(s, m).value.optOuts
            <==> phone in s.optOuts
                 || (OptsOut(m) && m.phone == phone && forall j :: 0 <= j < |msgs| ==> !SameMessage(msgs[j], m.id))
  {
    assert m.id in Ids(s.rows) <==> exists j :: 0 <= j < |msgs| && SameMessage(msgs[j], m.id);
    if IsNews(s, m) {
      NewsIsHandled(s, m);
    } else {
      TheRestDoesNothing(s, m);
    }
  }

  lemma {:induction false} BatchIsReflected(s: State, earlier: seq<Msg>, batch: seq<Msg>)
    requires Reflects(s, earlier) && HandleAll(s, batch).1
    ensures Reflects(HandleAll(s, batch).0, earlier + batch)
    decreases |batch|
  {
    if batch == [] {
      assert earlier + batch == earlier;
    } else {
      var init, last := batch[..|batch| - 1], batch[|batch| - 1];
      BatchStep(s, batch, []);
      BatchIsReflected(s, earlier, init);
      OneMoreIsReflected(HandleAll(s, init).0, earlier + init, last);
      assert earlier + batch == earlier + init + [last];
    }
  }

  lemma {:induction false} RunsAreReflected(run: seq<Step>)
    ensures Reflects(Exec(EMPTY, run), ArrivedMsgs(EMPTY, run))
    decreases |run|
  {
    if run == [] {
      assert Ids(EMPTY.rows) == [];
    } else {
      var init, last := run[..|run| - 1], run[|run| - 1];
      var before := Exec(EMPTY, init);
      RunsAreReflected(init);
      if last.Batch? {
        LastingSucceeds(before, last.msgs);
        BatchIsReflected(before, ArrivedMsgs(EMPTY, init), Lasting(before, last.msgs));
      } else {
        assert ArrivedMsgs(EMPTY, run) == ArrivedMsgs(EMPTY, init);
      }
    }
  }

  /** Over any failures and retries: a phone is opted out exactly when one of its opt-outs was committed. */
  lemma OptOutsExactly(run: seq<Step>, phone: Phone)
    ensures phone in Exec(EMPTY, run).optOuts <==> OptedOut(ArrivedMsgs(EMPTY, run), phone)
  {
    RunsAreReflected(run);
  }

  // ---------------------------------------------------------------- nobody is left without an agent

  /** The message is stored, and the agent was sent to its conversation. */
  predicate IsWorkedOn(s: State, id: WaId) {
    exists i :: 0 <= i < |s.rows| && IsRowOf(s.rows[i], id) && Turn(s.rows[i].conv) in s.jobs
  }

  /** The message was the first of its id, and no opt-out. */
  predicate AsksForAnswer(msgs: seq<Msg>, k: nat)
    requires k < |msgs|
  {
    Storable(msgs[k]) && !OptsOut(msgs[k]) && forall j :: 0 <= j < k ==> !SameMessage(msgs[j], msgs[k].id)
  }

  ghost predicate AllWorkedOn(s: State, msgs: seq<Msg>) {
    forall k :: 0 <= k < |msgs| && AsksForAnswer(msgs, k) ==> IsWorkedOn(s, msgs[k].id)
  }

  /** Rows and jobs only grow. */
  predicate Grows(s: State, t: State) {
    s.rows <= t.rows && s.jobs <= t.jobs
  }

  lemma WorkStays(s: State, t: State, msgs: seq<Msg>)
    requires Grows(s, t) && AllWorkedOn(s, msgs)
    ensures AllWorkedOn(t, msgs)
  {
    forall k | 0 <= k < |msgs| && AsksForAnswer(msgs, k) ensures IsWorkedOn(t, msgs[k].id) {
      var i :| 0 <= i < |s.rows| && IsRowOf(s.rows[i], msgs[k].id) && Turn(s.rows[i].conv) in s.jobs;
      assert t.rows[i] == s.rows[i];
      var n :| 0 <= n < |s.jobs| && s.jobs[n] == Turn(s.rows[i].conv);
      assert t.jobs[n] == s.jobs[n];
    }
  }

  lemma HandleGrows(s: State, m: Msg)
    requires Handle(s, m).Some?
    ensures Grows(s, Handle(s, m).value)
  {
    if IsNews(s, m) {
      NewsIsHandled(s, m);
    } else {
      TheRestDoesNothing(s, m);
    }
  }

  lemma NewsIsWorkedOn(s: State, m: Msg)
    requires Handle(s, m).Some? && IsNews(s, m) && !OptsOut(m)
    ensures IsWorkedOn(Handle(s, m).value, m.id)
  {
    NewsIsHandled(s, m);
    var t, c := Handle(s, m).value, GetOrCreate(s.convs, m.phone).1;
    assert IsRowOf(t.rows[|s.rows|], m.id) && t.rows[|s.rows|].conv == c;
    assert t.jobs[|t.jobs| - 1] == Turn(c);
  }

  lemma OneMoreIsWorkedOn(s: State, msgs: seq<Msg>, m: Msg)
    requires Reflects(s, msgs) && AllWorkedOn(s, msgs) && Handle(s, m).Some?
    ensures AllWorkedOn(Handle(s, m).value, msgs + [m])
  {
    var t, more := Handle(s, m).value, msgs + [m];
    HandleGrows(s, m);
    WorkStays(s, t, msgs);
    forall k | 0 <= k < |more| && AsksForAnswer(more, k) ensures IsWorkedOn(t, more[k].id) {
      assert forall j :: 0 <= j < k ==> more[j] == msgs[j];
      if k < |msgs| {
        assert AsksForAnswer(msgs, k);
      } else {
        assert m.id in Ids(s.rows) <==> exists j :: 0 <= j < |msgs| && SameMessage(msgs[j], m.id);
        NewsIsWorkedOn(s, m);
      }
    }
  }

  lemma {:induction false} BatchIsWorkedOn(s: State, earlier: seq<Msg>, batch: seq<Msg>)
    requires Reflects(s, earlier) && AllWorkedOn(s, earlier) && HandleAll(s, batch).1
    ensures AllWorkedOn(HandleAll(s, batch).0, earlier + batch)
    decreases |batch|
  {
    if batch == [] {
      assert earlier + batch == earlier;
    } else {
      var init, last := batch[..|batch| - 1], batch[|batch| - 1];
      BatchStep(s, batch, []);
      BatchIsWorkedOn(s, earlier, init);
      BatchIsReflected(s, earlier, init);
      OneMoreIsWorkedOn(HandleAll(s, init).0, earlier + init, last);
      assert earlier + batch == earlier + init + [last];
    }
  }

  /** Jobs pushed after the last commit of a failed batch come after those before it. */
  lemma {:induction false} JobsOfPrefix(s: State, batch: seq<Msg>, n: nat)
    requires n <= |batch| && HandleAll(s, batch[..n]).1
    ensures HandleAll(s, batch[..n]).0.jobs <= HandleAll(s, batch).0.jobs
    decreases |batch|
  {
    if n == |batch| {
      assert batch[..n] == batch;
    } else {
      var init, last := batch[..|batch| - 1], batch[|batch| - 1];
      assert init[..n] == batch[..n];
      JobsOfPrefix(s, init, n);
      if HandleAll(s, init).1 && Handle(HandleAll(s, init).0, last).Some? {
        HandleGrows(HandleAll(s, init).0, last);
      }
    }
  }

  /** Over any failures and retries: every committed message that asked for an answer is stored, and the agent was sent. */
  lemma {:induction false} EveryMessageSendsTheAgent(run: seq<Step>)
    ensures AllWorkedOn(Exec(EMPTY, run), ArrivedMsgs(EMPTY, run))
    decreases |run|
  {
    if run != [] {
      var init, last := run[..|run| - 1], run[|run| - 1];
      var before := Exec(EMPTY, init);
      EveryMessageSendsTheAgent(init);
      RunsAreReflected(init);
      if last.Batch? {
        var kept := Lasting(before, last.msgs);
        LastingSucceeds(before, last.msgs);
        BatchIsWorkedOn(before, ArrivedMsgs(EMPTY, init), kept);
        JobsOfPrefix(before, last.msgs, |kept|);
        WorkStays(HandleAll(before, kept).0, Delivered(before, last.msgs), ArrivedMsgs(EMPTY, init) + kept);
      } else {
        assert ArrivedMsgs(EMPTY, run) == ArrivedMsgs(EMPTY, init);
        WorkStays(before, Exec(EMPTY, run), ArrivedMsgs(EMPTY, run));
      }
    }
  }
}
