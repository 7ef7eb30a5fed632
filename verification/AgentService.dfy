/**
 * `process_message` around the loop: the loaded window becomes the model's transcript, and
 * the outcome becomes the rows that are stored and the messages that are sent.
 */
module AgentService {
  import opened History
  import opened Funnel
  import opened Sequences
  import Effects = TurnEffects
  import TurnProtocol
  import L = AgentLoop
  import Tools = AgentTools
  import Worker

  /** One message of the turn, stored and sent alike. */
  datatype Outbound = Text(body: string) | File(doc: L.Document) | Image(url: string, caption: string)

  const QR_CAPTION := "Escanea el QR para pagar y mandame la foto del comprobante"

  function ToMessage(e: Entry): L.Message {
    if e.role == Lead then L.User(e.text) else L.Assistant(e.text, [])
  }

  function ToTranscript(rows: seq<Entry>): (t: L.Transcript)
    ensures |t| == |rows| && forall i :: 0 <= i < |rows| ==> t[i] == ToMessage(rows[i])
  {
    seq(|rows|, i requires 0 <= i < |rows| => ToMessage(rows[i]))
  }

  /** The snapshot a turn of the conversation starts from. */
  function SnapshotOf(table: seq<Row>, conv: ConvId, stage: Stage): L.Snapshot {
    L.Snapshot(stage, ToTranscript(Load(table, conv).rows))
  }

  /** Only the first image carries the caption. */
  function Captioned(images: seq<string>, caption: string): seq<Outbound> {
    seq(|images|, i requires 0 <= i < |images| => Image(images[i], if i == 0 then caption else ""))
  }

  function Files(documents: seq<L.Document>): seq<Outbound> {
    seq(|documents|, i requires 0 <= i < |documents| => File(documents[i]))
  }

  /** Everything the lead receives in the turn, in order; with images the reply is their caption. */
  function Messages(o: L.Outcome): seq<Outbound> {
    (if o.images == [] && o.reply != "" then [Text(o.reply)] else [])
    + Files(o.documents)
    + Captioned(FirstOccurrences(o.images), if o.reply != "" then o.reply else QR_CAPTION)
  }

  /** The stored content of a message. */
  function ContentOf(m: Outbound): string {
    match m
    case Text(body) => body
    case File(doc) => doc.caption
    case Image(_, caption) => caption
  }

  /** The rows and the switch the protocol's save step writes for this outcome. */
  function AnswerOf(o: L.Outcome): Worker.Answer {
    Worker.Answer(seq(|Messages(o)|, i requires 0 <= i < |Messages(o)| => ContentOf(Messages(o)[i])), o.active)
  }

  /** The list is built once and feeds both the stored rows and the sends. */
  method AssembleMessages(o: L.Outcome) returns (messages: seq<Outbound>)
    ensures messages == Messages(o)
  {
    messages := if o.images == [] && o.reply != "" then [Text(o.reply)] else [];
    ghost var head := messages;
    for i := 0 to |o.documents|
      invariant messages == head + Files(o.documents[..i])
    {
      messages := messages + [File(o.documents[i])];
      assert Files(o.documents[..i + 1]) == Files(o.documents[..i]) + [File(o.documents[i])];
    }
    assert o.documents[..|o.documents|] == o.documents;
    messages := AppendImages(messages, o.images, if o.reply != "" then o.reply else QR_CAPTION);
  }

  method AppendImages(head: seq<Outbound>, images: seq<string>, first: string) returns (messages: seq<Outbound>)
    ensures messages == head + Captioned(FirstOccurrences(images), first)
  {
    messages := head;
    var caption := first;
    var seen: set<string> := {};
    for i := 0 to |images|
      invariant forall x :: x in seen <==> x in FirstOccurrences(images[..i])
      invariant caption == if FirstOccurrences(images[..i]) == [] then first else ""
      invariant messages == head + Captioned(FirstOccurrences(images[..i]), first)
    {
      ImagesStep(images, i, first);
      if images[i] !in seen {
        seen := seen + {images[i]};
        messages := messages + [Image(images[i], caption)];
        caption := "";
      }
    }
    assert images[..|images|] == images;
  }

  lemma ImagesStep(images: seq<string>, i: nat, first: string)
    requires i < |images|
    ensures var before, after := FirstOccurrences(images[..i]), FirstOccurrences(images[..i + 1]);
            if images[i] in before then after == before
            else && after == before + [images[i]]
                 && Captioned(after, first) == Captioned(before, first) + [Image(images[i], if before == [] then first else "")]
  {
    assert images[..i + 1] == images[..i] + [images[i]];
    FirstOccurrencesStep(images[..i], images[i]);
    CaptionedStep(FirstOccurrences(images[..i]), images[i], first);
  }

  lemma CaptionedStep(images: seq<string>, url: string, first: string)
    ensures Captioned(images + [url], first)
            == Captioned(images, first) + [Image(url, if images == [] then first else "")]
  {
  }

  /** Every image of the outcome is sent, each exactly once. */
  lemma ImagesAreSentOnce(o: L.Outcome)
    ensures |Messages(o)| >= |FirstOccurrences(o.images)|
    ensures forall url :: url in o.images <==> exists k :: 0 <= k < |Messages(o)| && Messages(o)[k].Image? && Messages(o)[k].url == url
    ensures forall j, k :: 0 <= j < k < |Messages(o)| && Messages(o)[j].Image? && Messages(o)[k].Image? ==>
              Messages(o)[j].url != Messages(o)[k].url
  {
    var d, all := FirstOccurrences(o.images), Messages(o);
    FirstOccurrencesIsASet(o.images);
    var offset := |all| - |d|;
    assert forall k :: 0 <= k < offset ==> !all[k].Image?;
    assert forall k :: 0 <= k < |d| ==> all[offset + k].Image? && all[offset + k].url == d[k];
    assert forall k :: offset <= k < |all| ==> all[k].url == d[k - offset];
    forall url | url in o.images
      ensures exists k :: 0 <= k < |all| && all[k].Image? && all[k].url == url
    {
      var at := FirstIndex(d, url);
      assert all[offset + at].url == url;
    }
    forall k | 0 <= k < |all| && all[k].Image? ensures all[k].url in o.images {
      assert all[k].url == d[k - offset];
    }
  }

  /**
   * The reply is read once: alone and first where no image goes out, as the caption of the
   * first image otherwise; the documents follow the text in their order, the images come last.
   */
  lemma TurnIsSentInOrder(o: L.Outcome)
    ensures var all, d := Messages(o), FirstOccurrences(o.images);
            var at := if o.images == [] && o.reply != "" then 1 else 0;
            && |all| == at + |o.documents| + |d|
            && (at == 1 ==> all[0] == Text(o.reply))
            && (forall k :: at <= k < at + |o.documents| ==> all[k] == File(o.documents[k - at]))
            && (forall k :: at + |o.documents| <= k < |all| ==> all[k].Image? && all[k].url == d[k - at - |o.documents|])
            && (forall k :: at + |o.documents| < k < |all| ==> all[k].caption == "")
            && (o.images != [] ==>
                  && |d| > 0
                  && all[|o.documents|] == Image(o.images[0], if o.reply != "" then o.reply else QR_CAPTION))
  {
    if o.images != [] { FirstIsFirst(o.images); }
  }

  lemma {:induction false} FirstIsFirst(images: seq<string>)
    requires images != []
    ensures FirstOccurrences(images) != [] && FirstOccurrences(images)[0] == images[0]
  {
    if |images| > 1 { FirstIsFirst(images[..|images| - 1]); }
  }

  /**
   * From the calls of a turn to the lead's screen: a file goes out if and only if a call asked
   * for its material, and the payment code if and only if a call asked for it, a code is
   * configured and the turn hands nothing over.
   */
  lemma AskedIsSent(env: L.Env, stage: Stage, calls: seq<L.ToolUse>, window: L.Transcript, o: L.Outcome)
    requires Tools.CarriesOut(env, stage, calls, window, o)
    ensures forall doc: L.Document :: (File(doc) in Messages(o)
            <==> exists use <- calls :: Tools.AsksMaterial(env, use) && doc in env.materials[use.input.slug])
    ensures (exists m <- Messages(o) :: m.Image?)
            <==> env.qrUrl != "" && Tools.Heard(env, stage, calls).None? && exists use <- calls :: Tools.AsksQr(env, use)
    ensures forall m <- Messages(o) :: m.Image? ==> m.url == env.qrUrl
  {
    forall doc: L.Document
      ensures File(doc) in Messages(o) <==> exists use <- calls :: Tools.AsksMaterial(env, use) && doc in env.materials[use.input.slug]
    {
      MaterialsExactly(env, calls, doc);
      DocumentsAreSent(o, doc);
    }
    CodesExactly(env, calls);
    ImagesAreSent(o);
  }

  lemma DocumentsAreSent(o: L.Outcome, doc: L.Document)
    ensures File(doc) in Messages(o) <==> doc in o.documents
  {
    TurnIsSentInOrder(o);
    var all := Messages(o);
    var at := if o.images == [] && o.reply != "" then 1 else 0;
    if doc in o.documents {
      var i :| 0 <= i < |o.documents| && o.documents[i] == doc;
      assert all[at + i] == File(doc);
    }
    if File(doc) in all {
      var k :| 0 <= k < |all| && all[k] == File(doc);
      assert at <= k < at + |o.documents| && o.documents[k - at] == doc;
    }
  }

  lemma ImagesAreSent(o: L.Outcome)
    ensures (exists m <- Messages(o) :: m.Image?) <==> o.images != []
    ensures forall m <- Messages(o) :: m.Image? ==> m.url in o.images
  {
    TurnIsSentInOrder(o);
    ImagesAreSentOnce(o);
    var all := Messages(o);
    if o.images != [] { assert all[|o.documents|].Image? && all[|o.documents|] in all; }
    forall m | m in all && m.Image? ensures m.url in o.images {
      var k :| 0 <= k < |all| && all[k] == m;
    }
  }

  lemma {:induction false} MaterialsExactly(env: L.Env, calls: seq<L.ToolUse>, doc: L.Document)
    ensures doc in Tools.Materials(env, calls)
            <==> exists use <- calls :: Tools.AsksMaterial(env, use) && doc in env.materials[use.input.slug]
  {
    if calls != [] {
      MaterialsExactly(env, calls[..|calls| - 1], doc);
      assert calls == calls[..|calls| - 1] + [calls[|calls| - 1]];
    }
  }

  lemma {:induction false} CodesExactly(env: L.Env, calls: seq<L.ToolUse>)
    ensures Tools.Codes(env, calls) != [] <==> env.qrUrl != "" && exists use <- calls :: Tools.AsksQr(env, use)
    ensures forall url <- Tools.Codes(env, calls) :: url == env.qrUrl
  {
    if calls != [] {
      CodesExactly(env, calls[..|calls| - 1]);
      assert calls == calls[..|calls| - 1] + [calls[|calls| - 1]];
    }
  }

  /** The words a message leaves in the thread: its text, or the caption of its file or image. */
  predicate ReadsAs(m: Outbound, text: string) {
    match m
    case Text(body) => text == body
    case File(doc) => text == doc.caption
    case Image(_, caption) => text == caption
  }

  lemma RepliesAreRows(s: TurnProtocol.State, w: TurnProtocol.WorkerId, replies: seq<string>, active: bool)
    requires TurnProtocol.PhaseOf(s, w).Running? && TurnProtocol.PhaseOf(s, w).conv < |s.convs|
    ensures var conv, t := TurnProtocol.PhaseOf(s, w).conv, TurnProtocol.Do(s, TurnProtocol.Save(w, replies, active));
            var before, after := Thread(s.table, conv), Thread(t.table, conv);
            && |after| == |before| + |replies| && before <= after && conv < |t.convs| && t.convs[conv].active == active
            && forall k :: |before| <= k < |after| ==> after[k].role == Assistant && after[k].text == replies[k - |before|]
  {
    Effects.SavedTurnIsStored(s, w, replies, active);
  }

  lemma AnswerReadsAsSent(o: L.Outcome)
    ensures AnswerOf(o).active == o.active && |AnswerOf(o).replies| == |Messages(o)|
    ensures forall k :: 0 <= k < |Messages(o)| ==> ReadsAs(Messages(o)[k], AnswerOf(o).replies[k])
  {
  }

  /**
   * What the save of a turn writes mirrors what is sent: after the earlier rows of the thread,
   * one agent row for each message in the order of the sends, with its words.
   */
  lemma SavedAsSent(s: TurnProtocol.State, w: TurnProtocol.WorkerId, o: L.Outcome)
    requires TurnProtocol.PhaseOf(s, w).Running? && TurnProtocol.PhaseOf(s, w).conv < |s.convs|
    ensures var conv := TurnProtocol.PhaseOf(s, w).conv;
            var t := TurnProtocol.Do(s, TurnProtocol.Save(w, AnswerOf(o).replies, AnswerOf(o).active));
            var before, after := Thread(s.table, conv), Thread(t.table, conv);
            && |after| == |before| + |Messages(o)| && before <= after
            && t.convs[conv].active == o.active
            && forall k :: |before| <= k < |after| ==>
                 after[k].role == Assistant && ReadsAs(Messages(o)[k - |before|], after[k].text)
  {
    AnswerReadsAsSent(o);
    RepliesAreRows(s, w, AnswerOf(o).replies, AnswerOf(o).active);
  }

  /** A turn that hands off sends plain text and documents only: no payment QR goes out with it. */
  lemma HandoffSendsNoImage(env: L.Env, oracle: L.Oracle, s: L.Snapshot, maxIterations: nat, rules: L.Flow)
    ensures var o := L.Turn(env, oracle, s, maxIterations, rules).0;
            o.reason.Some? ==>
              && !AnswerOf(o).active
              && forall m <- Messages(o) :: !m.Image?
  {
    L.TurnIsSound(env, oracle, s, maxIterations, rules);
  }

  /**
   * A turn the guard lets through, from the stored thread to the model: the transcript
   * starts and ends with the lead, and every completion of the turn, whatever the model
   * does, is asked on a transcript that ends with a user message, at most
   * `maxIterations + 3` times.
   */
  lemma GuardedTurnTranscripts(s: TurnProtocol.State, conv: ConvId, stage: Stage, env: L.Env, oracle: L.Oracle,
                               maxIterations: nat, rules: L.Flow)
    requires TurnProtocol.TargetOf(s, conv).Some?
    ensures var snapshot := SnapshotOf(s.table, conv, stage);
            var log := L.Turn(env, oracle, snapshot, maxIterations, rules).1;
            && snapshot.window != [] && snapshot.window[0].User? && snapshot.window[|snapshot.window| - 1].User?
            && |log| <= maxIterations + 3
            && forall k :: 0 <= k < |log| ==> L.EndsWithUser(log[k])
  {
    WindowAgreesExactly(s.table, conv);
    var first, last := WindowRefinesThread(s.table, conv);
    var snapshot := SnapshotOf(s.table, conv, stage);
    var rows := Load(s.table, conv).rows;
    assert rows[0] == Candidates(s.table, conv)[first];
    assert rows[|rows| - 1] == Candidates(s.table, conv)[last];
    L.TurnTranscripts(env, oracle, snapshot, maxIterations, rules);
  }
}
