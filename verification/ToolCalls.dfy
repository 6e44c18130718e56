/** One tool call from preparation to its final result: `prepareToolCall`,
    `executePreparedToolCall` and `finalizeExecutedToolCall` of agent-loop.ts. */
module ToolCalls {
  import opened CanonicalJson
  import opened JsonEquality
  import opened AgentTypes

  /** `beforeToolCall`, with the arguments as it leaves them. */
  datatype HookInput = NoHook | HookCalled(answer: Attempt<HookAnswer>, patched: Json, abortedMeanwhile: bool)

  /** `None` leaves a field as the tool returned it. */
  datatype Override = Override(content: Option<string>, details: Option<Json>, isError: Option<bool>, terminate: Option<bool>)

  /** Everything the outside world decides about one tool call. */
  datatype CallInput = CallInput(
    args: Attempt<Json>,
    classifier: Option<Attempt<Classification>>,
    hook: HookInput,
    channel: Option<Attempt<Decision>>,
    abortedBeforeDispatch: bool,
    updates: seq<Result>,
    execution: Attempt<Result>,
    after: Option<Attempt<Override>>,
    abortedAfterwards: bool)

  datatype Tool = Tool(name: string, sequential: bool)

  /** The digest behind `computeArgsHash`, and `defaultPromptPayload`. */
  datatype Config = Config(digest: Text -> Text, payload: (string, Json) -> Json, sequential: bool)

  datatype Preparation = Immediate(result: Result) | Prepared(args: Json)

  function FindTool(tools: seq<Tool>, name: string): Option<Tool> {
    if tools == [] then None
    else if tools[0].name == name then Some(tools[0])
    else FindTool(tools[1..], name)
  }

  function ErrorResult(message: string): Result {
    Result(message, Null, None)
  }

  const FAIL_CLOSED :=
    "control-plane prompt required but no onControlPlanePrompt hook configured (fail-closed deny — see issue #110 design v0.2)"

  function OrDefault(reason: Option<string>, default: string): string {
    if reason.None? || reason.value == "" then default else reason.value
  }

  /** The prompt to show, if the classifier or the hook demands one. The runtime owns
      the id, the name and the hash; a hook may only enrich label and payload. What the
      classifier demands is computed from the arguments before the hook patched them. */
  function EffectivePrompt(cfg: Config, call: Call, before: Json, after: Json, verdict: Classification,
                           hookPrompt: Option<Request>): Option<Request> {
    var label_ := "Control-plane write: " + call.name;
    var early := ArgsHash(cfg.digest, before);
    match (verdict, hookPrompt)
    case (Prompt(reason), None) => Some(Request(call.id, call.name, early, label_, cfg.payload(call.name, before), reason))
    case (Prompt(reason), Some(h)) => Some(Request(call.id, call.name, early, h.labelText, h.payload, reason))
    case (_, Some(h)) => Some(Request(call.id, call.name, ArgsHash(cfg.digest, after), h.labelText, h.payload, h.reason))
    case (_, None) => None
  }

  /** The steps after the effective prompt is known. */
  function ResolvePrompt(call: Call, args: Json, prompt: Option<Request>, input: CallInput): (Preparation, seq<Entry>) {
    if prompt.None? then (Dispatch(args, input), [])
    else if input.channel.Some? && input.channel.value.Threw? then
      (Immediate(ErrorResult(input.channel.value.message)), [Asked(prompt.value, input.channel.value)])
    else
      var request := prompt.value;
      var decision := if input.channel.None? then Denied(Some(FAIL_CLOSED)) else input.channel.value.value;
      var asked := if input.channel.None? then [] else [Asked(request, input.channel.value)];
      var resolved := Emit(PromptResolved(request.id, request.name, request.hash, request.labelText, decision));
      var preparation :=
        match decision
        case Denied(reason) =>
          Immediate(ErrorResult(OrDefault(reason, "tool call denied by user via control-plane prompt")))
        case TimedOut => Immediate(ErrorResult("control-plane prompt timed out — tool call denied"))
        case Allowed => Dispatch(args, input);
      (preparation, asked + [resolved])
  }

  function Dispatch(args: Json, input: CallInput): Preparation {
    if input.abortedBeforeDispatch then Immediate(ErrorResult("Operation aborted")) else Prepared(args)
  }

  /** The steps after classification. */
  function AskHook(cfg: Config, call: Call, args: Json, verdict: Classification, input: CallInput): (Preparation, seq<Entry>) {
    match input.hook
    case NoHook => ResolvePrompt(call, args, EffectivePrompt(cfg, call, args, args, verdict, None), input)
    case HookCalled(Threw(message), _, _) => (Immediate(ErrorResult(message)), [])
    case HookCalled(Returned(answer), patched, aborted) =>
      if aborted then (Immediate(ErrorResult("Operation aborted")), [Hooked(answer, patched)])
      else if answer.block then
        (Immediate(ErrorResult(OrDefault(answer.reason, "Tool execution was blocked"))), [Hooked(answer, patched)])
      else
        var prompt := EffectivePrompt(cfg, call, args, patched, verdict, answer.prompt);
        var (p, log) := ResolvePrompt(call, patched, prompt, input);
        (p, [Hooked(answer, patched)] + log)
  }

  function Prepare(cfg: Config, tools: seq<Tool>, call: Call, input: CallInput): (Preparation, seq<Entry>) {
    if FindTool(tools, call.name).None? then (Immediate(ErrorResult("Tool " + call.name + " not found")), [])
    else
      match input.args
      case Threw(message) => (Immediate(ErrorResult(message)), [])
      case Returned(args) =>
        match input.classifier
        case Some(Threw(message)) => (Immediate(ErrorResult(message)), [Validated(args)])
        case Some(Returned(verdict)) =>
          if verdict.Block? then (Immediate(ErrorResult(verdict.reason)), [Validated(args), Classified(verdict)])
          else
            var (p, log) := AskHook(cfg, call, args, verdict, input);
            (p, [Validated(args), Classified(verdict)] + log)
        case None =>
          var (p, log) := AskHook(cfg, call, args, Allow, input);
          (p, [Validated(args)] + log)
  }

  /** The result a prepared call ends with. */
  function Outcome(call: Call, input: CallInput): Finalized {
    var (result, isError) :=
      match input.execution
      case Returned(r) => (r, false)
      case Threw(message) => (ErrorResult(message), true);
    match input.after
    case None => Finalized(call, result, isError)
    case Some(Threw(message)) => Finalized(call, ErrorResult(message), true)
    case Some(Returned(o)) =>
      Finalized(call,
                Result(o.content.GetOr(result.content), o.details.GetOr(result.details), o.terminate.Else(result.terminate)),
                o.isError.GetOr(isError))
  }

  /** The final result of a call, executed or not. */
  function Final(cfg: Config, tools: seq<Tool>, call: Call, input: CallInput): Finalized {
    match Prepare(cfg, tools, call, input).0
    case Immediate(result) => Finalized(call, result, true)
    case Prepared(_) => Outcome(call, input)
  }

  function Updates(call: Call, results: seq<Result>): (r: seq<Entry>)
    ensures |r| == |results| && forall i | 0 <= i < |r| :: r[i] == Emit(ToolUpdate(call, results[i]))
  {
    seq(|results|, i requires 0 <= i < |results| => Emit(ToolUpdate(call, results[i])))
  }

  /** Everything up to the point where a prepared call waits to be executed. */
  function PrepareLog(cfg: Config, tools: seq<Tool>, call: Call, input: CallInput): seq<Entry> {
    [Emit(ToolStart(call))] + Prepare(cfg, tools, call, input).1
  }

  /** The execution of a prepared call. */
  function ExecuteLog(args: Json, call: Call, input: CallInput): seq<Entry> {
    [Executed(call.id, call.name, args)] + Updates(call, input.updates)
  }

  /** What remains after preparation: nothing to execute, or the execution. */
  function RestLog(cfg: Config, tools: seq<Tool>, call: Call, input: CallInput): seq<Entry> {
    var done := [Emit(ToolEnd(Final(cfg, tools, call, input)))];
    match Prepare(cfg, tools, call, input).0
    case Immediate(_) => done
    case Prepared(args) => ExecuteLog(args, call, input) + done
  }

  /** The whole life of one call. */
  function CallLog(cfg: Config, tools: seq<Tool>, call: Call, input: CallInput): seq<Entry> {
    PrepareLog(cfg, tools, call, input) + RestLog(cfg, tools, call, input)
  }
}
