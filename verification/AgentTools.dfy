/**
 * What each tool is for, read off the calls of a turn. Five separate readings of the calls
 * (who closes the lead, how far it climbs, what is sent, captured and named) say what the
 * fold over the handlers and the loop around it leave behind.
 */
module AgentTools {
  import opened Wrappers
  import opened Text
  import opened Funnel
  import opened AgentLoop

  // ---------------------------------------------------------------- the calls, one by one

  predicate HandsOff(env: Env, use: ToolUse) {
    !env.raises(use) && use.name == "handoff_to_human" && use.input.reason in HANDOFF_REASONS
  }

  /** The terminal stage a call asks for, whoever asks. */
  function Closing(env: Env, use: ToolUse): Option<Stage> {
    if env.raises(use) then None
    else if HandsOff(env, use) || (use.name == "set_lead_stage" && use.input.stage == "handed_off") then Some(HandedOff)
    else if use.name == "out_of_scope" || (use.name == "set_lead_stage" && use.input.stage == "disqualified") then Some(Disqualified)
    else None
  }

  predicate Accepts(env: Env, use: ToolUse) {
    !env.raises(use) && use.name == "fijar_servicio" && use.input.slug in env.services
  }

  predicate AsksQr(env: Env, use: ToolUse) {
    !env.raises(use) && use.name == "enviar_qr_pago"
  }

  predicate AsksMaterial(env: Env, use: ToolUse) {
    !env.raises(use) && use.name == "enviar_material" && use.input.slug in env.materials
  }

  predicate Names(env: Env, use: ToolUse) {
    !env.raises(use) && use.name == "guardar_nombre" && !IsBlank(use.input.name)
  }

  /** The call names the rung `rank` of the ladder new, engaging, qualifying, qualified. */
  predicate Proposes(env: Env, use: ToolUse, rank: nat) {
    && !env.raises(use) && use.name == "set_lead_stage"
    && rank < 4 && use.input.stage == ["new", "engaging", "qualifying", "qualified"][rank]
  }

  // ---------------------------------------------------------------- five readings

  /** The terminal stage the calls lead to: the first closing call decides, and nothing reopens. */
  function ClosedBy(env: Env, stage: Stage, uses: seq<ToolUse>): Option<Stage> {
    if stage == HandedOff || stage == Disqualified then Some(stage)
    else if uses == [] then None
    else if Closing(env, uses[0]).Some? then Closing(env, uses[0])
    else ClosedBy(env, stage, uses[1..])
  }

  /** The reason of the last handoff call. */
  function LastReason(env: Env, uses: seq<ToolUse>): Option<string> {
    if uses == [] then None
    else if HandsOff(env, uses[|uses| - 1]) then Some(uses[|uses| - 1].input.reason)
    else LastReason(env, uses[..|uses| - 1])
  }

  /** A handoff is heard unless the lead was disqualified first. */
  function Heard(env: Env, stage: Stage, uses: seq<ToolUse>): Option<string> {
    if ClosedBy(env, stage, uses) == Some(HandedOff) then LastReason(env, uses) else None
  }

  /** The rung reached: a buying signal lifts any lead in conversation to the top, a proposal is one step. */
  function Climbs(env: Env, rank: nat, uses: seq<ToolUse>): nat {
    if uses == [] then rank
    else
      var before := Climbs(env, rank, uses[..|uses| - 1]);
      var use := uses[|uses| - 1];
      if (Accepts(env, use) || AsksQr(env, use)) && before >= 1 then 3
      else if Proposes(env, use, before + 1) then before + 1
      else before
  }

  function Captured(env: Env, uses: seq<ToolUse>): seq<string> {
    if uses == [] then []
    else
      var use := uses[|uses| - 1];
      Captured(env, uses[..|uses| - 1]) + (if Accepts(env, use) && use.input.slug != "" then [use.input.slug] else [])
  }

  function Materials(env: Env, uses: seq<ToolUse>): seq<Document> {
    if uses == [] then []
    else
      var use := uses[|uses| - 1];
      Materials(env, uses[..|uses| - 1]) + (if AsksMaterial(env, use) then env.materials[use.input.slug] else [])
  }

  function Codes(env: Env, uses: seq<ToolUse>): seq<string> {
    if uses == [] then []
    else Codes(env, uses[..|uses| - 1]) + (if AsksQr(env, uses[|uses| - 1]) && env.qrUrl != "" then [env.qrUrl] else [])
  }

  /** The last name given that is not blank. */
  function LastName(env: Env, uses: seq<ToolUse>): Option<string> {
    if uses == [] then None
    else if Names(env, uses[|uses| - 1]) then Some(Strip(uses[|uses| - 1].input.name))
    else LastName(env, uses[..|uses| - 1])
  }

  // ---------------------------------------------------------------- the fold

  function Rung(rank: nat): Stage {
    if rank == 0 then New else if rank == 1 then Engaging else if rank == 2 then Qualifying else Qualified
  }

  function StageAsked(env: Env, stage: Stage, uses: seq<ToolUse>): Stage {
    ClosedBy(env, stage, uses).GetOr(Rung(Climbs(env, Rank(stage), uses)))
  }

  /** Where these calls, from `stage` on, ask the turn to go. */
  function AskedFor(env: Env, stage: Stage, uses: seq<ToolUse>): Acc {
    Acc(StageAsked(env, stage, uses),
        Heard(env, stage, uses).None?, Heard(env, stage, uses),
        Materials(env, uses), Captured(env, uses), Codes(env, uses), LastName(env, uses))
  }

  lemma {:induction false} ClosedByStep(env: Env, stage: Stage, uses: seq<ToolUse>, use: ToolUse)
    ensures ClosedBy(env, stage, uses + [use])
            == if ClosedBy(env, stage, uses).Some? then ClosedBy(env, stage, uses) else Closing(env, use)
  {
    if stage != HandedOff && stage != Disqualified {
      if uses == [] {
        assert (uses + [use])[1..] == [];
      } else {
        assert (uses + [use])[1..] == uses[1..] + [use];
        ClosedByStep(env, stage, uses[1..], use);
      }
    }
  }

  /** Without a closing call there is no handoff call. */
  lemma {:induction false} NoReasonYet(env: Env, stage: Stage, uses: seq<ToolUse>)
    requires ClosedBy(env, stage, uses).None?
    ensures LastReason(env, uses).None?
  {
    if uses != [] {
      var init, use := uses[..|uses| - 1], uses[|uses| - 1];
      assert uses == init + [use];
      ClosedByStep(env, stage, init, use);
      NoReasonYet(env, stage, init);
    }
  }

  lemma StepSends(env: Env, use: ToolUse, acc: Acc)
    ensures var next := ApplyTool(env, use, acc).1;
            && next.documents == acc.documents + (if AsksMaterial(env, use) then env.materials[use.input.slug] else [])
            && next.images == acc.images + (if AsksQr(env, use) && env.qrUrl != "" then [env.qrUrl] else [])
  {
    if env.raises(use) {
    } else if use.name == "enviar_material" {
    } else if use.name == "enviar_qr_pago" {
    } else {
    }
  }

  lemma StepRecords(env: Env, use: ToolUse, acc: Acc)
    ensures var next := ApplyTool(env, use, acc).1;
            && next.slugs == acc.slugs + (if Accepts(env, use) && use.input.slug != "" then [use.input.slug] else [])
            && next.fullName == if Names(env, use) then Some(Strip(use.input.name)) else acc.fullName
  {
    StripOfBlank(use.input.name);
    if env.raises(use) {
    } else if use.name == "fijar_servicio" {
    } else if use.name == "guardar_nombre" {
    } else {
    }
  }

  /** What one call does to the stage, whatever came before. */
  predicate MovesTo(env: Env, use: ToolUse, from: Stage, stage: Stage) {
    if IsTerminal(from) then stage == from
    else if Closing(env, use).Some? then stage == Closing(env, use).value
    else
      && !IsTerminal(stage)
      && Rank(stage) == if (Accepts(env, use) || AsksQr(env, use)) && Rank(from) >= 1 then 3
                        else if Proposes(env, use, Rank(from) + 1) then Rank(from) + 1
                        else Rank(from)
  }

  lemma ProposalMoves(env: Env, use: ToolUse, acc: Acc)
    requires !env.raises(use) && use.name == "set_lead_stage"
    ensures MovesTo(env, use, acc.stage, ApplyTool(env, use, acc).1.stage)
  {
    assert Execute(env, acc.stage, use) ==
      if ParseStage(use.input.stage).None? then Some(Plain(false))
      else Some(TryTransition(acc.stage, ParseStage(use.input.stage).value));
    StageNames(use.input.stage);
  }

  lemma StepMoves(env: Env, use: ToolUse, acc: Acc)
    ensures MovesTo(env, use, acc.stage, ApplyTool(env, use, acc).1.stage)
  {
    if env.raises(use) {
    } else if use.name == "set_lead_stage" {
      ProposalMoves(env, use, acc);
    } else if use.name == "handoff_to_human" {
    } else if use.name == "out_of_scope" {
    } else if use.name == "fijar_servicio" {
    } else if use.name == "enviar_qr_pago" {
    } else {
    }
  }

  lemma StageNames(raw: string)
    ensures ParseStage(raw) == Some(HandedOff) <==> raw == "handed_off"
    ensures ParseStage(raw) == Some(Disqualified) <==> raw == "disqualified"
    ensures forall rank: nat :: rank < 4 ==>
      (raw == ["new", "engaging", "qualifying", "qualified"][rank]
       <==> ParseStage(raw).Some? && !IsTerminal(ParseStage(raw).value) && Rank(ParseStage(raw).value) == rank)
  {
  }

  lemma StepSpeaksUp(env: Env, use: ToolUse, acc: Acc)
    ensures var next := ApplyTool(env, use, acc).1;
            if HandsOff(env, use) && acc.stage != Disqualified
            then next.reason == Some(use.input.reason) && !next.active
            else next.reason == acc.reason && next.active == acc.active
  {
  }

  lemma {:induction false} ClosedByEnds(env: Env, stage: Stage, uses: seq<ToolUse>)
    ensures ClosedBy(env, stage, uses).Some? ==>
              ClosedBy(env, stage, uses).value == HandedOff || ClosedBy(env, stage, uses).value == Disqualified
  {
    if uses != [] { ClosedByEnds(env, stage, uses[1..]); }
  }

  lemma {:induction false} ClimbsIsARung(env: Env, rank: nat, uses: seq<ToolUse>)
    requires rank < 4
    ensures Climbs(env, rank, uses) < 4
  {
    if uses != [] { ClimbsIsARung(env, rank, uses[..|uses| - 1]); }
  }

  lemma StageAskedStep(env: Env, stage: Stage, uses: seq<ToolUse>, use: ToolUse, acc: Acc)
    requires acc.stage == StageAsked(env, stage, uses)
    ensures ApplyTool(env, use, acc).1.stage == StageAsked(env, stage, uses + [use])
  {
    assert (uses + [use])[..|uses|] == uses;
    ClosedByStep(env, stage, uses, use);
    ClosedByEnds(env, stage, uses);
    if !IsTerminal(stage) { ClimbsIsARung(env, Rank(stage), uses); }
    StepMoves(env, use, acc);
  }

  lemma HeardStep(env: Env, stage: Stage, uses: seq<ToolUse>, use: ToolUse)
    ensures Heard(env, stage, uses + [use])
            == if HandsOff(env, use) && StageAsked(env, stage, uses) != Disqualified then Some(use.input.reason) else Heard(env, stage, uses)
  {
    assert (uses + [use])[..|uses|] == uses;
    ClosedByStep(env, stage, uses, use);
    ClosedByEnds(env, stage, uses);
    if ClosedBy(env, stage, uses).None? { NoReasonYet(env, stage, uses); }
  }

  lemma StepIsAsAsked(env: Env, stage: Stage, uses: seq<ToolUse>, use: ToolUse)
    ensures ApplyTool(env, use, AskedFor(env, stage, uses)).1 == AskedFor(env, stage, uses + [use])
  {
    var acc := AskedFor(env, stage, uses);
    assert (uses + [use])[..|uses|] == uses;
    StageAskedStep(env, stage, uses, use, acc);
    HeardStep(env, stage, uses, use);
    StepSends(env, use, acc);
    StepRecords(env, use, acc);
    StepSpeaksUp(env, use, acc);
  }

  lemma {:induction false} FoldLast(env: Env, uses: seq<ToolUse>, use: ToolUse, acc: Acc)
    ensures FoldTools(env, uses + [use], acc).1 == ApplyTool(env, use, FoldTools(env, uses, acc).1).1
  {
    if uses == [] {
      assert (uses + [use])[1..] == [];
    } else {
      assert (uses + [use])[1..] == uses[1..] + [use];
      FoldLast(env, uses[1..], use, ApplyTool(env, uses[0], acc).1);
    }
  }

  /** The interleaved fold over the handlers leaves exactly what the calls, read separately, ask for. */
  lemma {:induction false} FoldIsAsAsked(env: Env, stage: Stage, before: seq<ToolUse>, uses: seq<ToolUse>)
    ensures FoldTools(env, uses, AskedFor(env, stage, before)).1 == AskedFor(env, stage, before + uses)
  {
    if uses == [] {
      assert before + uses == before;
    } else {
      var init, use := uses[..|uses| - 1], uses[|uses| - 1];
      assert uses == init + [use] && before + uses == (before + init) + [use];
      FoldLast(env, init, use, AskedFor(env, stage, before));
      FoldIsAsAsked(env, stage, before, init);
      StepIsAsAsked(env, stage, before + init, use);
    }
  }

  // ---------------------------------------------------------------- the loop

  /** All the calls of `n` completions from `first` on, in order. */
  function Asked(oracle: Oracle, first: nat, n: nat): seq<ToolUse> {
    if n == 0 then []
    else Asked(oracle, first, n - 1) + (if oracle(first + n - 1).Reply? then oracle(first + n - 1).uses else [])
  }

  lemma {:induction false} FoldAppend(env: Env, before: seq<ToolUse>, uses: seq<ToolUse>, acc: Acc)
    ensures FoldTools(env, before + uses, acc).1 == FoldTools(env, uses, FoldTools(env, before, acc).1).1
  {
    if before == [] {
      assert before + uses == uses;
    } else {
      assert (before + uses)[1..] == before[1..] + uses;
      FoldAppend(env, before[1..], uses, ApplyTool(env, before[0], acc).1);
    }
  }

  function Folded(env: Env, oracle: Oracle, start: Acc, first: nat, n: nat): Acc {
    FoldTools(env, Asked(oracle, first, n), start).1
  }

  predicate FoldGoesOn(env: Env, oracle: Oracle, start: Acc, first: nat, n: nat) {
    oracle(first + n).Reply? && oracle(first + n).uses != [] && Folded(env, oracle, start, first, n + 1).reason.None?
  }

  /** The end of a loop that started at completion `first` and stopped at `last` of at most `bound`. */
  predicate EndsAt(env: Env, oracle: Oracle, start: Acc, first: nat, last: nat, bound: nat, end: LoopEnd) {
    if last == bound then end == Exhausted(Folded(env, oracle, start, first, last))
    else
      match oracle(first + last)
      case Failed => end == ProviderFailed
      case Reply(text, uses) =>
        if uses == [] then end.Spoke? && end.text == text && end.acc == Folded(env, oracle, start, first, last)
        else end.HandedOver? && end.acc == Folded(env, oracle, start, first, last + 1) && end.acc.reason.Some?
  }

  /** The loop is one fold over all the calls of its completions, up to the first that ends it. */
  lemma {:induction false} LoopIsOneFold(env: Env, oracle: Oracle, start: Acc, first: nat, n: nat, left: nat,
                                         messages: Transcript, log: seq<Transcript>) returns (last: nat)
    requires |log| == first + n
    ensures n <= last <= n + left
    ensures forall k :: n <= k < last ==> FoldGoesOn(env, oracle, start, first, k)
    ensures last < n + left ==> !FoldGoesOn(env, oracle, start, first, last)
    ensures var (end, after) := Loop(env, oracle, left, messages, Folded(env, oracle, start, first, n), log);
            && |after| == first + last + (if last == n + left then 0 else 1)
            && EndsAt(env, oracle, start, first, last, n + left, end)
    decreases left
  {
    last := n;
    if left > 0 && oracle(first + n).Reply? && oracle(first + n).uses != [] {
      var turn := oracle(first + n);
      FoldAppend(env, Asked(oracle, first, n), turn.uses, start);
      assert Asked(oracle, first, n + 1) == Asked(oracle, first, n) + turn.uses;
      var (results, next) := FoldTools(env, turn.uses, Folded(env, oracle, start, first, n));
      assert next == Folded(env, oracle, start, first, n + 1);
      if next.reason.None? {
        last := LoopIsOneFold(env, oracle, start, first, n + 1, left - 1, messages + [Assistant(turn.text, turn.uses), Results(results)],
                              log + [messages]);
      }
    }
  }

  // ---------------------------------------------------------------- the turn

  /** The n-th completion of the loop calls tools, and no handoff has been heard up to it. */
  predicate GoesOn(env: Env, oracle: Oracle, stage: Stage, first: nat, n: nat) {
    && oracle(first + n).Reply? && oracle(first + n).uses != []
    && Heard(env, stage, Asked(oracle, first, n + 1)).None?
  }

  /** The generative flow takes a new lead into conversation and leaves any other where it is. */
  function InConversation(stage: Stage): Stage {
    if stage == New then Engaging else stage
  }

  /** The newest text of the lead stands for an image or a document. */
  ghost predicate SentMedia(window: Transcript) {
    exists i :: 0 <= i < |window| && NewestText(window, i) && ("[image" <= window[i].text || "[document" <= window[i].text)
  }

  ghost predicate NewestText(window: Transcript, i: nat)
    requires i < |window|
  {
    && window[i].User? && window[i].text != ""
    && forall j :: i < j < |window| ==> !(window[j].User? && window[j].text != "")
  }

  lemma {:induction false} NewestTextIsRead(window: Transcript)
    ensures LastUserText(window) == "" ==> forall i :: 0 <= i < |window| ==> !NewestText(window, i)
    ensures forall i :: 0 <= i < |window| && NewestText(window, i) ==> window[i].text == LastUserText(window)
    ensures LastUserText(window) != "" ==> exists i :: 0 <= i < |window| && NewestText(window, i)
  {
    if window != [] {
      var init, last := window[..|window| - 1], window[|window| - 1];
      NewestTextIsRead(init);
      if last.User? && last.text != "" {
        assert NewestText(window, |window| - 1);
      } else {
        forall i | 0 <= i < |window| && NewestText(window, i) ensures i < |init| && NewestText(init, i) {
          assert i < |init|;
        }
        if LastUserText(init) != "" {
          var i :| 0 <= i < |init| && NewestText(init, i);
          assert NewestText(window, i);
        }
      }
    }
  }

  lemma MediaExactly(window: Transcript)
    ensures LastUserIsMedia(window) <==> SentMedia(window)
  {
    NewestTextIsRead(window);
    if LastUserIsMedia(window) {
      var i :| 0 <= i < |window| && NewestText(window, i);
      assert window[i].text == LastUserText(window);
    }
  }

  /** What the lead reads when a tool hands off: never the model's own words. */
  ghost function Goodbye(reason: string, window: Transcript): string {
    if reason == "payment_validation" then (if SentMedia(window) then PAYMENT_RECEIVED_REPLY else PAYMENT_HANDOFF_REPLY)
    else if reason == "unknown_service" then ""
    else HANDOFF_REPLY
  }

  /** A turn that could not go on: the lead is told, the agent is silenced and nothing it had prepared goes out. */
  function GivenUp(stage: Stage): Outcome {
    Outcome(ERROR_HANDOFF_REPLY, if stage == Disqualified then Disqualified else HandedOff, false, Some("agent_error"), [], [], [], None)
  }

  /** The outcome carries what these calls, read separately, ask for; the codes only where no handoff was heard. */
  ghost predicate CarriesOut(env: Env, stage: Stage, calls: seq<ToolUse>, window: Transcript, o: Outcome) {
    var reason := Heard(env, stage, calls);
    && o.documents == Materials(env, calls) && o.slugs == Captured(env, calls) && o.fullName == LastName(env, calls)
    && o.images == (if reason.Some? then [] else Codes(env, calls))
    && o.stage == StageAsked(env, stage, calls)
    && o.reason == reason && (o.active <==> reason.None?)
    && (reason.Some? ==> o.reply == Goodbye(reason.value, window))
  }

  lemma FreshIsAskedForNothing(env: Env, stage: Stage)
    ensures Fresh(stage) == AskedFor(env, stage, [])
  {
  }

  lemma FoldedIsAskedFor(env: Env, oracle: Oracle, stage: Stage, first: nat, n: nat)
    ensures Folded(env, oracle, Fresh(stage), first, n) == AskedFor(env, stage, Asked(oracle, first, n))
  {
    FreshIsAskedForNothing(env, stage);
    FoldIsAsAsked(env, stage, [], Asked(oracle, first, n));
    assert [] + Asked(oracle, first, n) == Asked(oracle, first, n);
  }

  lemma ConcludedCarriesOut(env: Env, oracle: Oracle, s: Snapshot, stage: Stage, calls: seq<ToolUse>, end: LoopEnd, log: seq<Transcript>)
    requires end.Spoke? || end.HandedOver? || end.Exhausted?
    requires end.acc == AskedFor(env, stage, calls)
    requires end.acc.reason.Some? <==> end.HandedOver?
    ensures var o := Concluded(env, oracle, s, end, log).0;
            if end.Exhausted? then o == GivenUp(StageAsked(env, stage, calls)) else CarriesOut(env, stage, calls, s.window, o)
  {
    MediaExactly(s.window);
  }

  lemma RoundsAgree(env: Env, oracle: Oracle, stage: Stage, first: nat)
    ensures forall k: nat :: Folded(env, oracle, Fresh(stage), first, k) == AskedFor(env, stage, Asked(oracle, first, k))
    ensures forall k: nat :: GoesOn(env, oracle, stage, first, k) <==> FoldGoesOn(env, oracle, Fresh(stage), first, k)
  {
    forall k: nat
      ensures Folded(env, oracle, Fresh(stage), first, k) == AskedFor(env, stage, Asked(oracle, first, k))
    {
      FoldedIsAskedFor(env, oracle, stage, first, k);
    }
    forall k: nat ensures GoesOn(env, oracle, stage, first, k) <==> FoldGoesOn(env, oracle, Fresh(stage), first, k) {
      FoldedIsAskedFor(env, oracle, stage, first, k + 1);
    }
  }

  lemma LoopFromFresh(env: Env, oracle: Oracle, stage: Stage, maxIterations: nat, window: Transcript, log: seq<Transcript>)
    returns (last: nat)
    ensures last <= maxIterations && forall k :: 0 <= k < last ==> FoldGoesOn(env, oracle, Fresh(stage), |log|, k)
    ensures last < maxIterations ==> !FoldGoesOn(env, oracle, Fresh(stage), |log|, last)
    ensures var end := Loop(env, oracle, maxIterations, window, Fresh(stage), log).0;
            && EndsAt(env, oracle, Fresh(stage), |log|, last, maxIterations, end)
            && (end.Spoke? || end.Exhausted? ==> end.acc.reason.None?)
  {
    last := LoopIsOneFold(env, oracle, Fresh(stage), |log|, 0, maxIterations, window, log);
    if last > 0 { assert FoldGoesOn(env, oracle, Fresh(stage), |log|, last - 1); }
  }

  lemma EndCarriesOut(env: Env, oracle: Oracle, s: Snapshot, stage: Stage, first: nat, last: nat, bound: nat, end: LoopEnd, log: seq<Transcript>)
    requires EndsAt(env, oracle, Fresh(stage), first, last, bound, end)
    requires end.Spoke? || end.Exhausted? ==> end.acc.reason.None?
    ensures var o := Concluded(env, oracle, s, end, log).0;
            if last == bound then o == GivenUp(StageAsked(env, stage, Asked(oracle, first, last)))
            else if oracle(first + last).Failed? then o == GivenUp(s.stage)
            else CarriesOut(env, stage, Asked(oracle, first, last + 1), s.window, o)
  {
    var n := if last == bound then last else last + 1;
    FoldedIsAskedFor(env, oracle, stage, first, n);
    if last < bound && oracle(first + last).Reply? && oracle(first + last).uses == [] {
      assert Asked(oracle, first, last + 1) == Asked(oracle, first, last);
    }
    if !end.ProviderFailed? {
      ConcludedCarriesOut(env, oracle, s, stage, Asked(oracle, first, n), end, log);
    }
  }

  /**
   * The generative flow, whatever the model does: it goes on while completions call tools and
   * no handoff is heard; it gives up when a completion fails or the iterations run out; and
   * otherwise its outcome carries out exactly what all the calls of the turn ask for.
   */
  lemma GeneratedExactly(env: Env, oracle: Oracle, s: Snapshot, maxIterations: nat, log: seq<Transcript>) returns (last: nat)
    ensures last <= maxIterations && forall k :: 0 <= k < last ==> GoesOn(env, oracle, InConversation(s.stage), |log|, k)
    ensures last < maxIterations ==> !GoesOn(env, oracle, InConversation(s.stage), |log|, last)
    ensures var o := Generated(env, oracle, s, maxIterations, log).0;
            var stage := InConversation(s.stage);
            if last == maxIterations then o == GivenUp(StageAsked(env, stage, Asked(oracle, |log|, last)))
            else if oracle(|log| + last).Failed? then o == GivenUp(s.stage)
            else CarriesOut(env, stage, Asked(oracle, |log|, last + 1), s.window, o)
  {
    var stage := InConversation(s.stage);
    last := LoopFromFresh(env, oracle, stage, maxIterations, s.window, log);
    RoundsAgree(env, oracle, stage, |log|);
    var (end, after) := Loop(env, oracle, maxIterations, s.window, Fresh(stage), log);
    assert Generated(env, oracle, s, maxIterations, log) == Concluded(env, oracle, s, end, after);
    EndCarriesOut(env, oracle, s, stage, |log|, last, maxIterations, end, after);
  }

  /**
   * A handoff call of a known reason in a completion that the turn reaches, no call before it
   * having disqualified the lead, ends the turn there: the reason of the last one is kept, the
   * agent is silenced, the lead is handed off and no payment code goes out.
   */
  lemma HandoffEndsTheTurn(env: Env, oracle: Oracle, s: Snapshot, maxIterations: nat, log: seq<Transcript>, n: nat,
                           before: seq<ToolUse>, use: ToolUse, later: seq<ToolUse>)
    requires s.stage != Disqualified && n < maxIterations && oracle(|log| + n).Reply?
    requires forall k :: 0 <= k < n ==> GoesOn(env, oracle, InConversation(s.stage), |log|, k)
    requires Asked(oracle, |log|, n + 1) == before + [use] + later && HandsOff(env, use)
    requires forall u <- before :: Closing(env, u) != Some(Disqualified)
    requires forall j :: 0 <= j < |later| ==> !HandsOff(env, later[j])
    ensures var o := Generated(env, oracle, s, maxIterations, log).0;
            o.reason == Some(use.input.reason) && !o.active && o.stage == HandedOff && o.images == []
  {
    var stage := InConversation(s.stage);
    HandoffIsHeard(env, stage, before, use, later);
    var last := GeneratedExactly(env, oracle, s, maxIterations, log);
    assert !GoesOn(env, oracle, stage, |log|, n);
    assert last == n;
  }

  lemma HandoffIsHeard(env: Env, stage: Stage, before: seq<ToolUse>, use: ToolUse, later: seq<ToolUse>)
    requires stage != Disqualified && HandsOff(env, use)
    requires forall u <- before :: Closing(env, u) != Some(Disqualified)
    requires forall j :: 0 <= j < |later| ==> !HandsOff(env, later[j])
    ensures var calls := before + [use] + later;
            Heard(env, stage, calls) == Some(use.input.reason) && StageAsked(env, stage, calls) == HandedOff
  {
    NotDisqualified(env, stage, before);
    ClosedByStep(env, stage, before, use);
    ClosedByEnds(env, stage, before);
    ClosedByAppend(env, stage, before + [use], later);
    LastReasonIs(env, before + [use], later);
    assert (before + [use])[..|before|] == before;
  }

  lemma {:induction false} NotDisqualified(env: Env, stage: Stage, uses: seq<ToolUse>)
    requires stage != Disqualified
    requires forall use <- uses :: Closing(env, use) != Some(Disqualified)
    ensures ClosedBy(env, stage, uses) != Some(Disqualified)
  {
    if uses != [] {
      assert uses[0] in uses;
      NotDisqualified(env, stage, uses[1..]);
    }
  }

  lemma {:induction false} ClosedByAppend(env: Env, stage: Stage, before: seq<ToolUse>, uses: seq<ToolUse>)
    ensures ClosedBy(env, stage, before).Some? ==> ClosedBy(env, stage, before + uses) == ClosedBy(env, stage, before)
  {
    if uses == [] {
      assert before + uses == before;
    } else {
      var init, use := uses[..|uses| - 1], uses[|uses| - 1];
      assert uses == init + [use] && before + uses == (before + init) + [use];
      ClosedByAppend(env, stage, before, init);
      ClosedByStep(env, stage, before + init, use);
    }
  }

  lemma {:induction false} LastReasonIs(env: Env, before: seq<ToolUse>, uses: seq<ToolUse>)
    requires forall j :: 0 <= j < |uses| ==> !HandsOff(env, uses[j])
    ensures LastReason(env, before + uses) == LastReason(env, before)
  {
    if uses == [] {
      assert before + uses == before;
    } else {
      assert (before + uses)[..|before + uses| - 1] == before + uses[..|uses| - 1];
      LastReasonIs(env, before, uses[..|uses| - 1]);
    }
  }

  /**
   * The stage after a turn's calls: of the calls that close the lead the first one decides,
   * whatever comes after it; and without one, any accepted service or payment code leaves a
   * lead in conversation qualified.
   */
  lemma {:induction false} ClosedExactly(env: Env, stage: Stage, uses: seq<ToolUse>, i: nat)
    requires stage != HandedOff && stage != Disqualified && i <= |uses|
    requires forall j :: 0 <= j < i ==> Closing(env, uses[j]).None?
    requires i < |uses| ==> Closing(env, uses[i]).Some?
    ensures ClosedBy(env, stage, uses) == if i < |uses| then Closing(env, uses[i]) else None
    ensures i == |uses| && stage != New && (exists j :: 0 <= j < |uses| && (Accepts(env, uses[j]) || AsksQr(env, uses[j]))) ==>
              StageAsked(env, stage, uses) == Qualified
  {
    if 0 < i {
      ClosedExactly(env, stage, uses[1..], i - 1);
    }
    if j :| i == |uses| && stage != New && 0 <= j < |uses| && (Accepts(env, uses[j]) || AsksQr(env, uses[j])) {
      SignalsReachTheTop(env, Rank(stage), uses, j);
      ClimbsIsARung(env, Rank(stage), uses);
    }
  }

  lemma {:induction false} SignalsReachTheTop(env: Env, rank: nat, uses: seq<ToolUse>, j: nat)
    requires 1 <= rank < 4 && j < |uses| && (Accepts(env, uses[j]) || AsksQr(env, uses[j]))
    ensures Climbs(env, rank, uses) >= 3
  {
    NeverFalls(env, rank, uses[..|uses| - 1]);
    if j < |uses| - 1 { SignalsReachTheTop(env, rank, uses[..|uses| - 1], j); }
  }

  lemma {:induction false} NeverFalls(env: Env, rank: nat, uses: seq<ToolUse>)
    requires rank < 4
    ensures rank <= Climbs(env, rank, uses)
  {
    if uses != [] {
      NeverFalls(env, rank, uses[..|uses| - 1]);
      ClimbsIsARung(env, rank, uses[..|uses| - 1]);
    }
  }

  // ---------------------------------------------------------------- the route of a turn

  /** The classifier's first verdict names this flow. */
  ghost predicate Verdict(c: Completion, flow: string) {
    && c.Reply?
    && exists i :: 0 <= i < |c.uses| && c.uses[i].name == "classify_intent" && c.uses[i].input.flow == flow
                   && forall j :: 0 <= j < i ==> c.uses[j].name != "classify_intent"
  }

  lemma {:induction false} ClassifiedExactly(uses: seq<ToolUse>, text: string)
    ensures Classified(uses) == Handoff <==> Verdict(Reply(text, uses), "handoff")
    ensures Classified(uses) == Greeting <==> Verdict(Reply(text, uses), "greeting")
  {
    if uses != [] && uses[0].name != "classify_intent" {
      ClassifiedExactly(uses[1..], text);
      VerdictOfTail(uses, text, "handoff");
      VerdictOfTail(uses, text, "greeting");
    } else if uses != [] {
      assert Verdict(Reply(text, uses), uses[0].input.flow);
    }
  }

  lemma VerdictOfTail(uses: seq<ToolUse>, text: string, flow: string)
    requires uses != [] && uses[0].name != "classify_intent"
    ensures Verdict(Reply(text, uses), flow) <==> Verdict(Reply(text, uses[1..]), flow)
  {
    if Verdict(Reply(text, uses), flow) {
      var i :| 0 <= i < |uses| && uses[i].name == "classify_intent" && uses[i].input.flow == flow
               && forall j :: 0 <= j < i ==> uses[j].name != "classify_intent";
      assert uses[1..][i - 1] == uses[i];
    }
    if Verdict(Reply(text, uses[1..]), flow) {
      var i :| 0 <= i < |uses[1..]| && uses[1..][i].name == "classify_intent" && uses[1..][i].input.flow == flow
               && forall j :: 0 <= j < i ==> uses[1..][j].name != "classify_intent";
      assert uses[i + 1] == uses[1..][i];
      forall j | 0 <= j < i + 1 ensures uses[j].name != "classify_intent" {
        if j > 0 { assert uses[j] == uses[1..][j - 1]; }
      }
    }
  }

  /** Nothing was ever answered to this lead. */
  predicate FirstContact(s: Snapshot) {
    s.stage == New && forall m <- s.window :: !m.Assistant?
  }

  /**
   * The four ways of a turn: a lead who asks for a person, in the rules' or the classifier's
   * reading, is handed over at once; a first contact that only greets gets the greeting; a
   * classifier that fails gives the lead up to the team; everything else is the generative flow.
   */
  lemma TurnRoutes(env: Env, oracle: Oracle, s: Snapshot, maxIterations: nat, rules: Flow)
    ensures var (o, log) := Turn(env, oracle, s, maxIterations, rules);
            var asked: seq<Transcript> := if rules == Unknown then [[User(LastUserText(s.window))]] else [];
            if rules == Unknown && oracle(0).Failed? then o == GivenUp(s.stage)
            else if rules == Handoff || (rules == Unknown && Verdict(oracle(0), "handoff")) then
              && o == GivenUp(s.stage).(reply := HANDOFF_REPLY, reason := Some("explicit_request"))
              && log == asked
            else if (rules == Greeting || (rules == Unknown && Verdict(oracle(0), "greeting"))) && FirstContact(s) then
              o == Outcome(env.greeting, Engaging, true, None, [], [], [], None) && log == asked
            else (o, log) == Generated(env, oracle, s, maxIterations, asked)
  {
    if rules == Unknown && oracle(0).Reply? { ClassifiedExactly(oracle(0).uses, oracle(0).text); }
    assert IsFirstTurn(s) <==> FirstContact(s) by {
      forall m | m in s.window && IsFirstTurn(s) ensures !m.Assistant? {
        var i :| 0 <= i < |s.window| && s.window[i] == m;
      }
    }
  }

  // ---------------------------------------------------------------- what is said

  /** The newest message of the agent, empty where it never wrote. */
  ghost predicate LastSaid(window: Transcript, text: string) {
    if text == "" then forall m <- window :: m.Assistant? ==> m.text == ""
    else exists i :: 0 <= i < |window| && window[i].Assistant? && window[i].text == text
                     && forall j :: i < j < |window| && window[j].Assistant? ==> window[j].text == ""
  }

  lemma {:induction false} LastSaidIsRead(window: Transcript)
    ensures LastSaid(window, LastAssistantText(window))
  {
    if window != [] {
      var init, last := window[..|window| - 1], window[|window| - 1];
      assert window == init + [last];
      LastSaidIsRead(init);
      var text := LastAssistantText(init);
      if last.Assistant? && last.text != "" {
        assert window[|window| - 1].text == last.text;
      } else if text != "" {
        var i :| 0 <= i < |init| && init[i].Assistant? && init[i].text == text
                 && forall j :: i < j < |init| && init[j].Assistant? ==> init[j].text == "";
        assert window[i] == init[i];
      }
    }
  }

  /**
   * A turn that hands nothing over says what the model said last: the words of its last
   * completion, or those it writes when asked once more; and when they repeat the agent's
   * previous message, those of one more completion, unless it fails or is blank.
   */
  lemma SaysWhatWasSaid(env: Env, oracle: Oracle, s: Snapshot, text: string, messages: Transcript, acc: Acc, log: seq<Transcript>,
                        previous: string)
    requires acc.reason.None? && LastSaid(s.window, previous)
    ensures var (o, after) := Settle(env, oracle, s, text, messages, acc, log);
            var silent := IsBlank(text);
            var first := if !silent then Strip(text) else if oracle(|log|).Reply? then Strip(oracle(|log|).text) else "";
            var n := |log| + (if silent then 1 else 0);
            if first != "" && previous != "" && env.sameText(first, previous) then
              && |after| == n + 1
              && o.reply == if oracle(n).Reply? && !IsBlank(oracle(n).text) then Strip(oracle(n).text) else first
            else |after| == n && o.reply == first
  {
    LastSaidIsRead(s.window);
    LastSaidOnce(s.window, previous, LastAssistantText(s.window));
    StripOfBlank(text);
    var n := |log| + (if IsBlank(text) then 1 else 0);
    if oracle(n).Reply? { StripOfBlank(oracle(n).text); }
  }

  lemma LastSaidOnce(window: Transcript, a: string, b: string)
    requires LastSaid(window, a) && LastSaid(window, b)
    ensures a == b
  {
    if a != "" && b != "" {
      var i :| 0 <= i < |window| && window[i].Assistant? && window[i].text == a
               && forall j :: i < j < |window| && window[j].Assistant? ==> window[j].text == "";
      var k :| 0 <= k < |window| && window[k].Assistant? && window[k].text == b
               && forall j :: k < j < |window| && window[j].Assistant? ==> window[j].text == "";
      assert i == k;
    } else {
      assert forall j :: 0 <= j < |window| ==> window[j] in window;
    }
  }
}
