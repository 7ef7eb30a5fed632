/**
 * One turn of the agent: routing, the bounded tool loop over the funnel, and the reply.
 * The model is an oracle that answers the n-th completion with anything at all, or fails.
 * `Turn` returns the outcome together with every transcript handed to a completion.
 */
module AgentLoop {
  import opened Wrappers
  import opened Text
  import opened Funnel

  // ---------------------------------------------------------------- the model's side

  /** The fields the tool handlers look up in a call's input, empty when absent. */
  datatype ToolInput = ToolInput(stage: string, reason: string, slug: string, name: string, flow: string)

  datatype ToolUse = ToolUse(id: string, name: string, input: ToolInput)

  datatype ToolResult = ToolResult(id: string, isError: bool)

  datatype Message =
    | User(text: string)
    | Results(results: seq<ToolResult>)
    | Assistant(text: string, uses: seq<ToolUse>)

  datatype Completion = Reply(text: string, uses: seq<ToolUse>) | Failed

  type Oracle = nat -> Completion
  type Transcript = seq<Message>

  // ---------------------------------------------------------------- the service's side

  datatype Document = Document(link: string, filename: string, caption: string)

  datatype Flow = Greeting | Handoff | Service | Faq | Qualify | Unknown

  /** The agent's configuration and the parts of the process that can raise or are copy. */
  datatype Env = Env(
    services: set<string>,                    // slugs of the published catalog
    materials: map<string, seq<Document>>,    // documents by category slug
    raises: ToolUse -> bool,                  // a handler that blows up
    qrUrl: string,
    greeting: string,
    sameText: (string, string) -> bool)       // equal up to case, punctuation and spacing

  /** What a turn starts from. */
  datatype Snapshot = Snapshot(stage: Stage, window: Transcript)

  datatype Outcome = Outcome(
    reply: string, stage: Stage, active: bool, reason: Option<string>,
    documents: seq<Document>, slugs: seq<string>, images: seq<string>, fullName: Option<string>)

  const HANDOFF_REPLY := "Dale, te conecto con Mirko"
  const PAYMENT_HANDOFF_REPLY := "Perfecto! Para validar tu pago, mandame la foto del comprobante"
  const PAYMENT_RECEIVED_REPLY := "Recibi tu comprobante! Lo validamos y te confirmamos en un rato"
  const ERROR_HANDOFF_REPLY := "Te paso con alguien del equipo para ayudarte mejor"
  const FINAL_NUDGE := "Escribi ahora SOLO el mensaje para el lead"
  const VARY_NUDGE := "Reformula: misma idea, otras palabras"

  const HANDOFF_REASONS: set<string> := {"explicit_request", "payment_validation", "agent_error", "unknown_service"}

  function FixedReplies(): set<string> {
    {HANDOFF_REPLY, PAYMENT_HANDOFF_REPLY, PAYMENT_RECEIVED_REPLY, ERROR_HANDOFF_REPLY}
  }

  function ParseStage(raw: string): Option<Stage> {
    if raw == "new" then Some(New)
    else if raw == "engaging" then Some(Engaging)
    else if raw == "qualifying" then Some(Qualifying)
    else if raw == "qualified" then Some(Qualified)
    else if raw == "handed_off" then Some(HandedOff)
    else if raw == "disqualified" then Some(Disqualified)
    else None
  }

  function ParseFlow(raw: string): Flow {
    if raw == "greeting" then Greeting
    else if raw == "handoff" then Handoff
    else if raw == "service" then Service
    else if raw == "faq" then Faq
    else if raw == "qualify" then Qualify
    else Unknown
  }

  // ---------------------------------------------------------------- tools

  /** A handler's result, reduced to what the loop reads back from it. */
  datatype ToolReply = ToolReply(
    ok: bool, stage: Option<Stage>, documents: seq<Document>, slug: string, qr: bool, fullName: string, reason: string)

  function Plain(ok: bool): ToolReply {
    ToolReply(ok, None, [], "", false, "", "")
  }

  function TryTransition(current: Stage, target: Stage): ToolReply {
    var next := ValidateTransition(current, target);
    Plain(next.Some?).(stage := next)
  }

  /** A buying signal proposes the climb only where it changes the stage. */
  function Climbed(current: Stage): Option<Stage> {
    if TowardQualified(current) != current then Some(TowardQualified(current)) else None
  }

  /** The registry: `None` stands for a raised exception, an unknown tool name included. */
  function Execute(env: Env, stage: Stage, use: ToolUse): Option<ToolReply> {
    if env.raises(use) then None
    else if use.name == "get_service" || use.name == "consultar_faq" then Some(Plain(false))
    else if use.name == "enviar_material" then
      if use.input.slug in env.materials && env.materials[use.input.slug] != []
      then Some(Plain(true).(documents := env.materials[use.input.slug]))
      else Some(Plain(false))
    else if use.name == "fijar_servicio" then
      if use.input.slug in env.services
      then Some(Plain(true).(slug := use.input.slug, stage := Climbed(stage)))
      else Some(Plain(false))
    else if use.name == "enviar_qr_pago" then Some(Plain(true).(qr := true, stage := Climbed(stage)))
    else if use.name == "guardar_nombre" then
      var name := Strip(use.input.name);
      if name == "" then Some(Plain(false)) else Some(Plain(true).(fullName := name))
    else if use.name == "set_lead_stage" then
      var target := ParseStage(use.input.stage);
      if target.None? then Some(Plain(false)) else Some(TryTransition(stage, target.value))
    else if use.name == "handoff_to_human" then
      if use.input.reason !in HANDOFF_REASONS then Some(Plain(false))
      else Some(TryTransition(stage, HandedOff).(reason := use.input.reason))
    else if use.name == "out_of_scope" then Some(TryTransition(stage, Disqualified))
    else None
  }

  /** What the loop carries from one tool call to the next. */
  datatype Acc = Acc(
    stage: Stage, active: bool, reason: Option<string>,
    documents: seq<Document>, slugs: seq<string>, images: seq<string>, fullName: Option<string>)

  function Fresh(stage: Stage): Acc {
    Acc(stage, true, None, [], [], [], None)
  }

  /** One tool call: its result for the model and its effect on the turn. */
  function ApplyTool(env: Env, use: ToolUse, acc: Acc): (ToolResult, Acc) {
    var reply := Execute(env, acc.stage, use);
    if reply.None? then (ToolResult(use.id, true), acc)
    else
      var r := reply.value;
      if !r.ok then (ToolResult(use.id, false), acc)
      else
        var handsOff := use.name == "handoff_to_human";
        (ToolResult(use.id, false),
         Acc(r.stage.GetOr(acc.stage),
             acc.active && !handsOff,
             if handsOff then Some(r.reason) else acc.reason,
             acc.documents + r.documents,
             if use.name == "fijar_servicio" && r.slug != "" then acc.slugs + [r.slug] else acc.slugs,
             if r.qr && env.qrUrl != "" then acc.images + [env.qrUrl] else acc.images,
             if use.name == "guardar_nombre" && r.fullName != "" then Some(r.fullName) else acc.fullName))
  }

  function FoldTools(env: Env, uses: seq<ToolUse>, acc: Acc): (seq<ToolResult>, Acc) {
    if uses == [] then ([], acc)
    else
      var (result, next) := ApplyTool(env, uses[0], acc);
      var (results, last) := FoldTools(env, uses[1..], next);
      ([result] + results, last)
  }

  // ---------------------------------------------------------------- the loop

  datatype LoopEnd =
    | Spoke(text: string, messages: Transcript, acc: Acc)
    | HandedOver(messages: Transcript, acc: Acc)
    | Exhausted(acc: Acc)
    | ProviderFailed

  /** The tool loop with `left` iterations to go; the log grows by one transcript per completion. */
  function Loop(env: Env, oracle: Oracle, left: nat, messages: Transcript, acc: Acc, log: seq<Transcript>): (LoopEnd, seq<Transcript>)
    decreases left
  {
    if left == 0 then (Exhausted(acc), log)
    else
      match oracle(|log|)
      case Failed => (ProviderFailed, log + [messages])
      case Reply(text, uses) =>
        if uses == [] then (Spoke(text, Say(messages, text), acc), log + [messages])
        else
          var (results, next) := FoldTools(env, uses, acc);
          var longer := messages + [Assistant(text, uses), Results(results)];
          if next.reason.Some? then (HandedOver(longer, next), log + [messages])
          else Loop(env, oracle, left - 1, longer, next, log + [messages])
  }

  /** An empty closing text is not appended. */
  function Say(messages: Transcript, text: string): Transcript {
    if text == "" then messages else messages + [Assistant(text, [])]
  }

  function Nudged(messages: Transcript, nudge: string): Transcript {
    messages + [User(nudge)]
  }

  function LastAssistantText(window: Transcript): string {
    if window == [] then ""
    else
      var last := window[|window| - 1];
      if last.Assistant? && last.text != "" then last.text else LastAssistantText(window[..|window| - 1])
  }

  function LastUserText(window: Transcript): string {
    if window == [] then ""
    else
      var last := window[|window| - 1];
      if last.User? && last.text != "" then last.text else LastUserText(window[..|window| - 1])
  }

  predicate LastUserIsMedia(window: Transcript) {
    "[image" <= LastUserText(window) || "[document" <= LastUserText(window)
  }

  /** One extra completion asks for the message the silent turn did not write. */
  function Finalize(oracle: Oracle, messages: Transcript, log: seq<Transcript>): (string, seq<Transcript>) {
    match oracle(|log|)
    case Failed => ("", log + [Nudged(messages, FINAL_NUDGE)])
    case Reply(text, _) => (Strip(text), log + [Nudged(messages, FINAL_NUDGE)])
  }

  /** One extra completion rewords a reply that repeats the previous one. */
  function VaryIfRepeat(env: Env, oracle: Oracle, reply: string, window: Transcript, messages: Transcript, log: seq<Transcript>)
    : (string, seq<Transcript>)
  {
    var previous := LastAssistantText(window);
    if reply == "" || previous == "" || !env.sameText(reply, previous) then (reply, log)
    else
      match oracle(|log|)
      case Failed => (reply, log + [Nudged(messages, VARY_NUDGE)])
      case Reply(text, _) => (if Strip(text) != "" then Strip(text) else reply, log + [Nudged(messages, VARY_NUDGE)])
  }

  /** The reply and the outcome once the loop has ended with or without a handoff. */
  function Settle(env: Env, oracle: Oracle, s: Snapshot, text: string, messages: Transcript, acc: Acc, log: seq<Transcript>)
    : (Outcome, seq<Transcript>)
  {
    var images := if acc.reason.Some? then [] else acc.images;
    var spoken := Strip(text);
    if acc.reason.Some? then
      var reply :=
        if acc.reason.value == "payment_validation" && LastUserIsMedia(s.window) then PAYMENT_RECEIVED_REPLY
        else if spoken == "" && acc.reason.value != "unknown_service" then
          if acc.reason.value == "payment_validation" then PAYMENT_HANDOFF_REPLY else HANDOFF_REPLY
        else spoken;
      (Outcome(reply, acc.stage, acc.active, acc.reason, acc.documents, acc.slugs, images, acc.fullName), log)
    else
      var (first, log1) := if spoken == "" then Finalize(oracle, messages, log) else (spoken, log);
      var (reply, log2) := VaryIfRepeat(env, oracle, first, s.window, messages, log1);
      (Outcome(reply, acc.stage, acc.active, acc.reason, acc.documents, acc.slugs, images, acc.fullName), log2)
  }

  function Silenced(reply: string, stage: Stage, reason: string): Outcome {
    Outcome(reply, Advance(stage, HandedOff), false, Some(reason), [], [], [], None)
  }

  function Concluded(env: Env, oracle: Oracle, s: Snapshot, end: LoopEnd, log: seq<Transcript>): (Outcome, seq<Transcript>) {
    match end
    case Spoke(text, messages, acc) => Settle(env, oracle, s, text, messages, acc, log)
    case HandedOver(messages, acc) => Settle(env, oracle, s, "", messages, acc, log)
    case Exhausted(acc) => (Silenced(ERROR_HANDOFF_REPLY, acc.stage, "agent_error"), log)
    case ProviderFailed => (Silenced(ERROR_HANDOFF_REPLY, s.stage, "agent_error"), log)
  }

  /** The generative flow. */
  function Generated(env: Env, oracle: Oracle, s: Snapshot, maxIterations: nat, log: seq<Transcript>): (Outcome, seq<Transcript>) {
    var (end, after) := Loop(env, oracle, maxIterations, s.window, Fresh(Advance(s.stage, Engaging)), log);
    Concluded(env, oracle, s, end, after)
  }

  predicate IsFirstTurn(s: Snapshot) {
    s.stage == New && forall i :: 0 <= i < |s.window| ==> !s.window[i].Assistant?
  }

  /** A greeting is only for a first contact. */
  function Demoted(flow: Flow, firstTurn: bool): Flow {
    if flow == Greeting && !firstTurn then Unknown else flow
  }

  /** The flow the classifier named, unknown when it named none. */
  function Classified(uses: seq<ToolUse>): Flow {
    if uses == [] then Unknown
    else if uses[0].name == "classify_intent" then ParseFlow(uses[0].input.flow)
    else Classified(uses[1..])
  }

  function Handled(env: Env, oracle: Oracle, s: Snapshot, maxIterations: nat, flow: Flow, log: seq<Transcript>)
    : (Outcome, seq<Transcript>)
  {
    match flow
    case Greeting => (Outcome(env.greeting, Advance(s.stage, Engaging), true, None, [], [], [], None), log)
    case Handoff => (Silenced(HANDOFF_REPLY, s.stage, "explicit_request"), log)
    case _ => Generated(env, oracle, s, maxIterations, log)
  }

  /** A whole turn. `rules` is the keyword router's verdict; only `Unknown` falls to the classifier. */
  function Turn(env: Env, oracle: Oracle, s: Snapshot, maxIterations: nat, rules: Flow): (Outcome, seq<Transcript>) {
    if rules != Unknown then Handled(env, oracle, s, maxIterations, Demoted(rules, IsFirstTurn(s)), [])
    else
      var asked := [[User(LastUserText(s.window))]];
      match oracle(0)
      case Failed => (Silenced(ERROR_HANDOFF_REPLY, s.stage, "agent_error"), asked)
      case Reply(_, uses) =>
        Handled(env, oracle, s, maxIterations, Demoted(Classified(uses), IsFirstTurn(s)), asked)
  }

  // ---------------------------------------------------------------- the loops as written

  method RunTools(env: Env, uses: seq<ToolUse>, acc: Acc) returns (results: seq<ToolResult>, next: Acc)
    ensures (results, next) == FoldTools(env, uses, acc)
  {
    results, next := [], acc;
    assert uses[0..] == uses && [] + FoldTools(env, uses, acc).0 == FoldTools(env, uses, acc).0;
    for i := 0 to |uses|
      invariant var (rest, last) := FoldTools(env, uses[i..], next);
                FoldTools(env, uses, acc) == (results + rest, last)
    {
      assert uses[i..][1..] == uses[i + 1..];
      var (result, after) := ApplyTool(env, uses[i], next);
      ghost var rest := FoldTools(env, uses[i + 1..], after).0;
      assert results + ([result] + rest) == results + [result] + rest;
      results, next := results + [result], after;
    }
    assert results + [] == results;
  }

  method Generate(env: Env, oracle: Oracle, s: Snapshot, maxIterations: nat, asked: seq<Transcript>)
    returns (outcome: Outcome, log: seq<Transcript>)
    ensures (outcome, log) == Generated(env, oracle, s, maxIterations, asked)
  {
    var messages := s.window;
    var acc := Fresh(Advance(s.stage, Engaging));
    log := asked;
    var left := maxIterations;
    while left > 0
      invariant Loop(env, oracle, left, messages, acc, log)
                == Loop(env, oracle, maxIterations, s.window, Fresh(Advance(s.stage, Engaging)), asked)
    {
      var turn := oracle(|log|);
      log := log + [messages];
      if turn.Failed? {
        outcome, log := Concluded(env, oracle, s, ProviderFailed, log).0, log;
        return;
      }
      if turn.uses == [] {
        var settled := Settle(env, oracle, s, turn.text, Say(messages, turn.text), acc, log);
        return settled.0, settled.1;
      }
      var results;
      results, acc := RunTools(env, turn.uses, acc);
      messages := messages + [Assistant(turn.text, turn.uses), Results(results)];
      if acc.reason.Some? {
        var settled := Settle(env, oracle, s, "", messages, acc, log);
        return settled.0, settled.1;
      }
      left := left - 1;
    }
    outcome := Silenced(ERROR_HANDOFF_REPLY, acc.stage, "agent_error");
  }

  // ---------------------------------------------------------------- transcripts

  predicate FromUser(m: Message) {
    m.User? || m.Results?
  }

  predicate EndsWithUser(t: Transcript) {
    t != [] && FromUser(t[|t| - 1])
  }

  /** The results answer the calls, one for one and in order. */
  predicate Answers(results: seq<ToolResult>, uses: seq<ToolUse>) {
    |results| == |uses| && forall i :: 0 <= i < |uses| ==> results[i].id == uses[i].id
  }

  /** The message at `i` was appended lawfully: no empty assistant turn, every tool turn answered at once. */
  predicate Lawful(t: Transcript, i: nat)
    requires i < |t|
  {
    match t[i]
    case User(_) => true
    case Assistant(text, uses) =>
      if uses == [] then text != ""
      else i + 1 < |t| && t[i + 1].Results? && Answers(t[i + 1].results, uses)
    case Results(_) => i > 0 && t[i - 1].Assistant? && t[i - 1].uses != []
  }

  predicate Extends(t: Transcript, window: Transcript) {
    window <= t && forall i :: |window| <= i < |t| ==> Lawful(t, i)
  }

  lemma {:induction false} FoldAnswersInOrder(env: Env, uses: seq<ToolUse>, acc: Acc)
    ensures Answers(FoldTools(env, uses, acc).0, uses)
  {
    if uses != [] {
      var (result, next) := ApplyTool(env, uses[0], acc);
      FoldAnswersInOrder(env, uses[1..], next);
      var results := FoldTools(env, uses[1..], next).0;
      forall i | 0 <= i < |uses| ensures ([result] + results)[i].id == uses[i].id {
        if i > 0 { assert results[i - 1].id == uses[1..][i - 1].id; }
      }
    }
  }

  lemma ToolTurnExtends(window: Transcript, messages: Transcript, text: string, uses: seq<ToolUse>, results: seq<ToolResult>)
    requires Extends(messages, window) && uses != [] && Answers(results, uses)
    ensures var t := messages + [Assistant(text, uses), Results(results)];
            Extends(t, window) && EndsWithUser(t)
  {
    var t := messages + [Assistant(text, uses), Results(results)];
    forall i | |window| <= i < |t| ensures Lawful(t, i) {
      if i < |messages| {
        assert Lawful(messages, i) && t[i] == messages[i];
        if i + 1 < |messages| { assert t[i + 1] == messages[i + 1]; }
        if i > 0 { assert t[i - 1] == messages[i - 1]; }
      }
    }
  }

  lemma SayExtends(window: Transcript, messages: Transcript, text: string)
    requires Extends(messages, window)
    ensures Extends(Say(messages, text), window)
  {
    var t := Say(messages, text);
    forall i | |window| <= i < |t| ensures Lawful(t, i) {
      if i < |messages| {
        assert Lawful(messages, i) && t[i] == messages[i];
        if i + 1 < |messages| { assert t[i + 1] == messages[i + 1]; }
        if i > 0 { assert t[i - 1] == messages[i - 1]; }
      }
    }
  }

  lemma NudgeExtends(window: Transcript, messages: Transcript, nudge: string)
    requires Extends(messages, window)
    ensures Extends(Nudged(messages, nudge), window) && EndsWithUser(Nudged(messages, nudge))
  {
    var t := Nudged(messages, nudge);
    forall i | |window| <= i < |t| ensures Lawful(t, i) {
      if i < |messages| {
        assert Lawful(messages, i) && t[i] == messages[i];
        if i + 1 < |messages| { assert t[i + 1] == messages[i + 1]; }
        if i > 0 { assert t[i - 1] == messages[i - 1]; }
      }
    }
  }

  /** From `from` on, every logged transcript extends the window lawfully and ends with the user. */
  predicate GoodLog(log: seq<Transcript>, from: nat, window: Transcript) {
    from <= |log| && forall k :: from <= k < |log| ==> Extends(log[k], window) && EndsWithUser(log[k])
  }

  lemma {:induction false} LoopTranscripts(env: Env, oracle: Oracle, left: nat, messages: Transcript, acc: Acc,
                                           log: seq<Transcript>, from: nat, window: Transcript)
    requires Extends(messages, window) && EndsWithUser(messages) && GoodLog(log, from, window)
    ensures var (end, after) := Loop(env, oracle, left, messages, acc, log);
            && GoodLog(after, from, window) && |log| <= |after| <= |log| + left
            && (end.Spoke? ==> Extends(end.messages, window))
    decreases left
  {
    if left > 0 {
      var turn := oracle(|log|);
      assert GoodLog(log + [messages], from, window);
      if turn.Reply? {
        if turn.uses == [] {
          SayExtends(window, messages, turn.text);
        } else {
          FoldAnswersInOrder(env, turn.uses, acc);
          var (results, next) := FoldTools(env, turn.uses, acc);
          ToolTurnExtends(window, messages, turn.text, turn.uses, results);
          if next.reason.None? {
            LoopTranscripts(env, oracle, left - 1, messages + [Assistant(turn.text, turn.uses), Results(results)], next,
                            log + [messages], from, window);
          }
        }
      }
    }
  }

  lemma SettleTranscripts(env: Env, oracle: Oracle, s: Snapshot, text: string, messages: Transcript, acc: Acc,
                          log: seq<Transcript>, from: nat)
    requires acc.reason.None? ==> Extends(messages, s.window)
    requires GoodLog(log, from, s.window)
    ensures var after := Settle(env, oracle, s, text, messages, acc, log).1;
            GoodLog(after, from, s.window) && |log| <= |after| <= |log| + 2
  {
    if acc.reason.None? {
      NudgeExtends(s.window, messages, FINAL_NUDGE);
      NudgeExtends(s.window, messages, VARY_NUDGE);
    }
  }

  /**
   * For any behaviour of the model: every transcript handed to a completion of the
   * generative flow is the loaded window extended lawfully and ends with a user message,
   * and the flow makes at most `maxIterations + 2` completions.
   */
  lemma GeneratedTranscripts(env: Env, oracle: Oracle, s: Snapshot, maxIterations: nat, log: seq<Transcript>)
    requires EndsWithUser(s.window)
    ensures var after := Generated(env, oracle, s, maxIterations, log).1;
            GoodLog(after, |log|, s.window) && |after| <= |log| + maxIterations + 2
  {
    var start := Fresh(Advance(s.stage, Engaging));
    LoopTranscripts(env, oracle, maxIterations, s.window, start, log, |log|, s.window);
    var (end, after) := Loop(env, oracle, maxIterations, s.window, start, log);
    LoopReasons(env, oracle, maxIterations, s.window, start, log);
    match end
    case Spoke(text, messages, acc) => SettleTranscripts(env, oracle, s, text, messages, acc, after, |log|);
    case HandedOver(messages, acc) => SettleTranscripts(env, oracle, s, "", messages, acc, after, |log|);
    case _ =>
  }

  /** A whole turn completes at most `maxIterations + 3` times, the classifier included, each time on a user message. */
  lemma TurnTranscripts(env: Env, oracle: Oracle, s: Snapshot, maxIterations: nat, rules: Flow)
    requires EndsWithUser(s.window)
    ensures var log := Turn(env, oracle, s, maxIterations, rules).1;
            && |log| <= maxIterations + 3
            && (forall k :: 0 <= k < |log| ==> EndsWithUser(log[k]))
            && GoodLog(log, if rules == Unknown then 1 else 0, s.window)
  {
    GeneratedTranscripts(env, oracle, s, maxIterations, []);
    GeneratedTranscripts(env, oracle, s, maxIterations, [[User(LastUserText(s.window))]]);
    GeneratedKeepsLog(env, oracle, s, maxIterations, [[User(LastUserText(s.window))]]);
  }

  lemma {:induction false} LoopKeepsLog(env: Env, oracle: Oracle, left: nat, messages: Transcript, acc: Acc, log: seq<Transcript>)
    ensures log <= Loop(env, oracle, left, messages, acc, log).1
    decreases left
  {
    if left > 0 && oracle(|log|).Reply? && oracle(|log|).uses != [] {
      var turn := oracle(|log|);
      var (results, next) := FoldTools(env, turn.uses, acc);
      if next.reason.None? {
        LoopKeepsLog(env, oracle, left - 1, messages + [Assistant(turn.text, turn.uses), Results(results)], next, log + [messages]);
      }
    }
  }

  lemma GeneratedKeepsLog(env: Env, oracle: Oracle, s: Snapshot, maxIterations: nat, log: seq<Transcript>)
    ensures log <= Generated(env, oracle, s, maxIterations, log).1
  {
    LoopKeepsLog(env, oracle, maxIterations, s.window, Fresh(Advance(s.stage, Engaging)), log);
  }

  // ---------------------------------------------------------------- outcomes

  /** The turn so far: silenced exactly when it carries a reason, and then handed off. */
  predicate Consistent(acc: Acc) {
    && (acc.active <==> acc.reason.None?)
    && (acc.reason.Some? ==> acc.stage == HandedOff && acc.reason.value in HANDOFF_REASONS)
  }

  lemma ToolMovesLawfully(env: Env, use: ToolUse, acc: Acc)
    requires Consistent(acc)
    ensures var next := ApplyTool(env, use, acc).1;
            Consistent(next) && Reaches(acc.stage, next.stage)
  {
    var reply := Execute(env, acc.stage, use);
    StayingReaches(acc.stage);
    BuyingSignalReaches(acc.stage);
    if reply.Some? && reply.value.stage.Some? {
      AcceptedReaches(acc.stage, reply.value.stage.value);
      if acc.reason.Some? { ReachesClimbs(acc.stage, reply.value.stage.value); }
    }
  }

  lemma {:induction false} ToolsMoveLawfully(env: Env, uses: seq<ToolUse>, acc: Acc)
    requires Consistent(acc)
    ensures var next := FoldTools(env, uses, acc).1;
            Consistent(next) && Reaches(acc.stage, next.stage)
  {
    if uses == [] {
      StayingReaches(acc.stage);
    } else {
      ToolMovesLawfully(env, uses[0], acc);
      var next := ApplyTool(env, uses[0], acc).1;
      ToolsMoveLawfully(env, uses[1..], next);
      ReachesTransitive(acc.stage, next.stage, FoldTools(env, uses[1..], next).1.stage);
    }
  }

  lemma {:induction false} LoopReasons(env: Env, oracle: Oracle, left: nat, messages: Transcript, acc: Acc, log: seq<Transcript>)
    requires Consistent(acc) && acc.reason.None?
    ensures var end := Loop(env, oracle, left, messages, acc, log).0;
            && (end.Spoke? || end.Exhausted? ==> Consistent(end.acc) && end.acc.reason.None?)
            && (end.HandedOver? ==> Consistent(end.acc) && end.acc.reason.Some?)
            && (!end.ProviderFailed? ==> Reaches(acc.stage, end.acc.stage))
    decreases left
  {
    StayingReaches(acc.stage);
    if left > 0 && oracle(|log|).Reply? && oracle(|log|).uses != [] {
      var turn := oracle(|log|);
      ToolsMoveLawfully(env, turn.uses, acc);
      var (results, next) := FoldTools(env, turn.uses, acc);
      if next.reason.None? {
        var longer := messages + [Assistant(turn.text, turn.uses), Results(results)];
        LoopReasons(env, oracle, left - 1, longer, next, log + [messages]);
        var end := Loop(env, oracle, left - 1, longer, next, log + [messages]).0;
        if !end.ProviderFailed? { ReachesTransitive(acc.stage, next.stage, end.acc.stage); }
      }
    }
  }

  /** What every outcome promises, and where the stage may have gone. */
  ghost predicate SoundOutcome(from: Stage, o: Outcome) {
    && (o.active <==> o.reason.None?)
    && (o.reason.Some? ==> IsTerminal(o.stage) && o.images == [] && o.reason.value in HANDOFF_REASONS)
    && Reaches(from, o.stage)
  }

  lemma SilencedIsSound(reply: string, stage: Stage, from: Stage, reason: string)
    requires reason in HANDOFF_REASONS && Reaches(from, stage)
    ensures SoundOutcome(from, Silenced(reply, stage, reason))
  {
    AcceptedReaches(stage, HandedOff);
    ReachesTransitive(from, stage, Advance(stage, HandedOff));
  }

  /**
   * On every path of a turn (greeting, explicit handoff, loop, exhaustion, provider
   * failure) the outcome silences the agent if and only if it carries a handoff reason; a
   * reason implies a terminal stage and no images; and the stage moved along allowed
   * transitions only.
   */
  lemma TurnIsSound(env: Env, oracle: Oracle, s: Snapshot, maxIterations: nat, rules: Flow)
    ensures SoundOutcome(s.stage, Turn(env, oracle, s, maxIterations, rules).0)
  {
    StayingReaches(s.stage);
    AcceptedReaches(s.stage, Engaging);
    SilencedIsSound(ERROR_HANDOFF_REPLY, s.stage, s.stage, "agent_error");
    SilencedIsSound(HANDOFF_REPLY, s.stage, s.stage, "explicit_request");
    GeneratedIsSound(env, oracle, s, maxIterations, []);
    GeneratedIsSound(env, oracle, s, maxIterations, [[User(LastUserText(s.window))]]);
  }

  lemma GeneratedIsSound(env: Env, oracle: Oracle, s: Snapshot, maxIterations: nat, log: seq<Transcript>)
    ensures var o := Generated(env, oracle, s, maxIterations, log).0;
            && SoundOutcome(s.stage, o)
            && (o.reason.Some? && !Loop(env, oracle, maxIterations, s.window, Fresh(Advance(s.stage, Engaging)), log).0.Exhausted?
                && !Loop(env, oracle, maxIterations, s.window, Fresh(Advance(s.stage, Engaging)), log).0.ProviderFailed?
                ==> o.stage == HandedOff)
  {
    var start := Fresh(Advance(s.stage, Engaging));
    AcceptedReaches(s.stage, Engaging);
    StayingReaches(s.stage);
    LoopReasons(env, oracle, maxIterations, s.window, start, log);
    var end := Loop(env, oracle, maxIterations, s.window, start, log).0;
    if !end.ProviderFailed? { ReachesTransitive(s.stage, start.stage, end.acc.stage); }
    SilencedIsSound(ERROR_HANDOFF_REPLY, if end.Exhausted? then end.acc.stage else s.stage, s.stage, "agent_error");
  }

  // ---------------------------------------------------------------- a conversation's life

  /** Everything a turn depends on besides the stage it starts from. */
  datatype TurnInput = TurnInput(env: Env, oracle: Oracle, window: Transcript, maxIterations: nat, rules: Flow)

  /** A turn of the agent, or staff switching the agent back on. */
  datatype Chapter = Answered(input: TurnInput) | SwitchedOn

  function StageAfter(stage: Stage, t: TurnInput): Stage {
    Turn(t.env, t.oracle, Snapshot(stage, t.window), t.maxIterations, t.rules).0.stage
  }

  function MomentOf(stage: Stage, chapter: Chapter): Moment {
    match chapter
    case Answered(input) => Proposed(StageAfter(stage, input))
    case SwitchedOn => Reactivated
  }

  /** What happens to the stored stage over these chapters. */
  function Life(stage: Stage, chapters: seq<Chapter>): seq<Moment>
    decreases |chapters|
  {
    if chapters == [] then []
    else
      var m := MomentOf(stage, chapters[0]);
      [m] + Life(After(stage, m), chapters[1..])
  }

  function EndOfLife(stage: Stage, chapters: seq<Chapter>): Stage
    decreases |chapters|
  {
    if chapters == [] then stage else EndOfLife(After(stage, MomentOf(stage, chapters[0])), chapters[1..])
  }

  /** Whatever the model answers, every life is made of allowed transitions and reactivations. */
  lemma {:induction false} LivesAreLawful(stage: Stage, chapters: seq<Chapter>)
    ensures Funnel.Lawful(stage, Life(stage, chapters))
    decreases |chapters|
  {
    if chapters != [] {
      var m := MomentOf(stage, chapters[0]);
      if chapters[0].Answered? {
        var t := chapters[0].input;
        TurnIsSound(t.env, t.oracle, Snapshot(stage, t.window), t.maxIterations, t.rules);
      }
      LivesAreLawful(After(stage, m), chapters[1..]);
      assert Life(stage, chapters)[1..] == Life(After(stage, m), chapters[1..]);
    }
  }

  /** Over any turns and reactivations the stage changes at most four times, plus four per reopening. */
  lemma LifeChangesAreBounded(stage: Stage, chapters: seq<Chapter>)
    ensures var life := Life(stage, chapters);
            Changes(stage, life) + Rank(stage) <= 4 + 4 * Reopenings(stage, life)
  {
    LivesAreLawful(stage, chapters);
    ChangesAreBounded(stage, Life(stage, chapters));
  }

  /**
   * Over any number of turns without a reactivation, whatever the model answers: the stage only
   * moves along allowed transitions, its rank never falls, a terminal stage absorbs, and it
   * changes at most four times.
   */
  lemma TurnsOnlyAdvance(stage: Stage, chapters: seq<Chapter>)
    requires forall i :: 0 <= i < |chapters| ==> chapters[i].Answered?
    ensures Reaches(stage, EndOfLife(stage, chapters))
    ensures Rank(stage) <= Rank(EndOfLife(stage, chapters))
    ensures IsTerminal(stage) ==> EndOfLife(stage, chapters) == stage
    ensures Changes(stage, Life(stage, chapters)) <= 4
  {
    TurnsReach(stage, chapters);
    ReachesClimbs(stage, EndOfLife(stage, chapters));
    LifeChangesAreBounded(stage, chapters);
    NothingReopens(stage, chapters);
  }

  lemma {:induction false} TurnsReach(stage: Stage, chapters: seq<Chapter>)
    requires forall i :: 0 <= i < |chapters| ==> chapters[i].Answered?
    ensures Reaches(stage, EndOfLife(stage, chapters))
    decreases |chapters|
  {
    if chapters == [] {
      StayingReaches(stage);
    } else {
      var t := chapters[0].input;
      TurnIsSound(t.env, t.oracle, Snapshot(stage, t.window), t.maxIterations, t.rules);
      TurnsReach(StageAfter(stage, t), chapters[1..]);
      ReachesTransitive(stage, StageAfter(stage, t), EndOfLife(stage, chapters));
    }
  }

  lemma {:induction false} NothingReopens(stage: Stage, chapters: seq<Chapter>)
    requires forall i :: 0 <= i < |chapters| ==> chapters[i].Answered?
    ensures Reopenings(stage, Life(stage, chapters)) == 0
    decreases |chapters|
  {
    if chapters != [] {
      var m := MomentOf(stage, chapters[0]);
      NothingReopens(After(stage, m), chapters[1..]);
      assert Life(stage, chapters)[1..] == Life(After(stage, m), chapters[1..]);
    }
  }

  // ---------------------------------------------------------------- what the lead reads

  predicate AskedForText(t: Transcript) {
    t != [] && (t[|t| - 1] == User(FINAL_NUDGE) || t[|t| - 1] == User(VARY_NUDGE))
  }

  /** The reply is the text of a completion that called no tool, or was asked for the text alone. */
  predicate Voiced(oracle: Oracle, log: seq<Transcript>, reply: string) {
    exists k :: 0 <= k < |log| && VoicedBy(oracle, log, reply, k)
  }

  predicate VoicedBy(oracle: Oracle, log: seq<Transcript>, reply: string, k: nat)
    requires k < |log|
  {
    oracle(k).Reply? && reply == Strip(oracle(k).text) && (oracle(k).uses == [] || AskedForText(log[k]))
  }

  lemma {:induction false} LoopSpeaksLast(env: Env, oracle: Oracle, left: nat, messages: Transcript, acc: Acc, log: seq<Transcript>)
    ensures var (end, after) := Loop(env, oracle, left, messages, acc, log);
            end.Spoke? ==> |after| > 0 && oracle(|after| - 1) == Reply(end.text, [])
    decreases left
  {
    if left > 0 && oracle(|log|).Reply? && oracle(|log|).uses != [] {
      var turn := oracle(|log|);
      var (results, next) := FoldTools(env, turn.uses, acc);
      if next.reason.None? {
        LoopSpeaksLast(env, oracle, left - 1, messages + [Assistant(turn.text, turn.uses), Results(results)], next, log + [messages]);
      }
    }
  }

  lemma SettleVoice(env: Env, oracle: Oracle, s: Snapshot, text: string, messages: Transcript, acc: Acc, log: seq<Transcript>)
    requires text != "" ==> |log| > 0 && oracle(|log| - 1) == Reply(text, [])
    ensures var (o, after) := Settle(env, oracle, s, text, messages, acc, log);
            o.reply == "" || o.reply in FixedReplies() || Voiced(oracle, after, o.reply)
  {
    var (o, after) := Settle(env, oracle, s, text, messages, acc, log);
    if acc.reason.Some? {
      if text != "" { assert VoicedBy(oracle, log, Strip(text), |log| - 1); }
    } else {
      var n := |log|;
      if Strip(text) != "" {
        assert VoicedBy(oracle, after, Strip(text), n - 1);
        if |after| > n && o.reply != Strip(text) { assert VoicedBy(oracle, after, o.reply, n); }
      } else {
        var first := Finalize(oracle, messages, log).0;
        if oracle(n).Reply? { assert VoicedBy(oracle, after, first, n); }
        if |after| > n + 1 && o.reply != first { assert VoicedBy(oracle, after, o.reply, n + 1); }
      }
    }
  }

  /**
   * Text that accompanies tool calls is internal: the generative flow's reply is empty, one
   * of the fixed replies, or the stripped text of a completion that called no tool or was
   * asked, without tools, for the message itself.
   */
  lemma NarrationStaysInternal(env: Env, oracle: Oracle, s: Snapshot, maxIterations: nat, log: seq<Transcript>)
    ensures var (o, after) := Generated(env, oracle, s, maxIterations, log);
            o.reply == "" || o.reply in FixedReplies() || Voiced(oracle, after, o.reply)
  {
    var start := Fresh(Advance(s.stage, Engaging));
    LoopSpeaksLast(env, oracle, maxIterations, s.window, start, log);
    var (end, after) := Loop(env, oracle, maxIterations, s.window, start, log);
    match end
    case Spoke(text, messages, acc) => SettleVoice(env, oracle, s, text, messages, acc, after);
    case HandedOver(messages, acc) => SettleVoice(env, oracle, s, "", messages, acc, after);
    case _ =>
  }
}
