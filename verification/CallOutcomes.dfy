/** What a tool call comes to, in terms of what the outside world answered: whether the
    tool runs, what is put to the user, and what the model is told. */
module CallOutcomes {
  import opened CanonicalJson
  import opened JsonEquality
  import opened AgentTypes
  import opened ToolCalls
  import opened ToolBatches
  import opened ApprovalGate

  // ---------- When a tool runs

  ghost predicate Known(tools: seq<Tool>, name: string) {
    exists i | 0 <= i < |tools| :: tools[i].name == name
  }

  predicate ClassifierAsks(input: CallInput) {
    input.classifier.Some? && input.classifier.value.Returned? && input.classifier.value.value.Prompt?
  }

  predicate HookAsks(input: CallInput) {
    input.hook.HookCalled? && input.hook.answer.Returned? && input.hook.answer.value.prompt.Some?
  }

  /** The tool exists, its arguments are valid, and the classifier neither fails nor blocks. */
  ghost predicate Considered(tools: seq<Tool>, call: Call, input: CallInput) {
    && Known(tools, call.name) && input.args.Returned?
    && (input.classifier.Some? ==> input.classifier.value.Returned? && !input.classifier.value.value.Block?)
  }

  /** Nor does the hook, nor an abort during it. */
  ghost predicate PastHook(tools: seq<Tool>, call: Call, input: CallInput) {
    && Considered(tools, call, input)
    && (input.hook.HookCalled? ==> input.hook.answer.Returned? && !input.hook.answer.value.block && !input.hook.abortedMeanwhile)
  }

  /** Nobody objects: what classifier or hook want confirmed is allowed, and no abort comes first. */
  ghost predicate Permitted(tools: seq<Tool>, call: Call, input: CallInput) {
    && PastHook(tools, call, input)
    && (ClassifierAsks(input) || HookAsks(input) ==> input.channel == Some(Returned(Allowed)))
    && !input.abortedBeforeDispatch
  }

  /** The arguments as validation and the hook leave them. */
  function FinalArgs(input: CallInput): Json
    requires input.args.Returned?
  {
    if input.hook.HookCalled? then input.hook.patched else input.args.value
  }

  lemma {:induction false} FindToolIff(tools: seq<Tool>, name: string)
    ensures FindTool(tools, name).Some? <==> Known(tools, name)
  {
    if tools != [] {
      FindToolIff(tools[1..], name);
      if i :| 0 <= i < |tools| && tools[i].name == name {
        assert i > 0 ==> tools[1..][i - 1].name == name;
      }
      if i :| 0 <= i < |tools| - 1 && tools[1..][i].name == name { assert tools[i + 1].name == name; }
    }
  }

  lemma ConsideredByHook(cfg: Config, tools: seq<Tool>, call: Call, input: CallInput)
    requires Considered(tools, call, input)
    ensures Prepare(cfg, tools, call, input).0
         == AskHook(cfg, call, input.args.value, if input.classifier.Some? then input.classifier.value.value else Allow, input).0
  {
    FindToolIff(tools, call.name);
  }

  lemma ResolvedByPrompt(cfg: Config, tools: seq<Tool>, call: Call, input: CallInput) returns (prompt: Option<Request>)
    requires PastHook(tools, call, input)
    ensures prompt.Some? <==> ClassifierAsks(input) || HookAsks(input)
    ensures Prepare(cfg, tools, call, input).0 == ResolvePrompt(call, FinalArgs(input), prompt, input).0
  {
    ConsideredByHook(cfg, tools, call, input);
    var verdict := if input.classifier.Some? then input.classifier.value.value else Allow;
    var hookPrompt := if input.hook.HookCalled? then input.hook.answer.value.prompt else None;
    prompt := EffectivePrompt(cfg, call, input.args.value, FinalArgs(input), verdict, hookPrompt);
  }

  lemma PreparedIffPermitted(cfg: Config, tools: seq<Tool>, call: Call, input: CallInput)
    ensures Prepare(cfg, tools, call, input).0.Prepared? <==> Permitted(tools, call, input)
    ensures Permitted(tools, call, input) ==> Prepare(cfg, tools, call, input).0.args == FinalArgs(input)
  {
    FindToolIff(tools, call.name);
    if Considered(tools, call, input) { ConsideredByHook(cfg, tools, call, input); }
    if PastHook(tools, call, input) { var prompt := ResolvedByPrompt(cfg, tools, call, input); }
  }

  /** A call's tool runs if and only if nobody objects, and then on the arguments as
      validation and the hook left them. */
  lemma RunsIffPermitted(cfg: Config, tools: seq<Tool>, call: Call, input: CallInput)
    ensures (exists e | e in CallLog(cfg, tools, call, input) :: e.Executed?) <==> Permitted(tools, call, input)
    ensures Permitted(tools, call, input) ==> Executed(call.id, call.name, FinalArgs(input)) in CallLog(cfg, tools, call, input)
  {
    PreparedIffPermitted(cfg, tools, call, input);
    PrepareIsPreparatory(cfg, tools, call, input);
    RestIsNotPreparatory(cfg, tools, call, input);
    var prep, rest := PrepareLog(cfg, tools, call, input), RestLog(cfg, tools, call, input);
    forall e | e in CallLog(cfg, tools, call, input) ensures e in prep || e in rest {}
    if Permitted(tools, call, input) { assert rest[0] in rest; }
  }

  /** From place `i` on the log shows the execution, each of the tool's updates in order,
      and the end. */
  ghost predicate ShowsRun(p: seq<Entry>, i: nat, call: Call, input: CallInput) {
    && |p| == i + |input.updates| + 2 && p[i].Executed?
    && (forall n | 0 <= n < |input.updates| :: p[i + 1 + n] == Emit(ToolUpdate(call, input.updates[n])))
    && p[|p| - 1].Emit? && p[|p| - 1].event.ToolEnd?
  }

  /** While a tool runs, exactly its updates are shown. */
  lemma RunShows(cfg: Config, tools: seq<Tool>, call: Call, input: CallInput)
    requires Permitted(tools, call, input)
    ensures ShowsRun(CallLog(cfg, tools, call, input), |PrepareLog(cfg, tools, call, input)|, call, input)
  {
    PreparedIffPermitted(cfg, tools, call, input);
    var prep, args := PrepareLog(cfg, tools, call, input), FinalArgs(input);
    var run, end := ExecuteLog(args, call, input), [Emit(ToolEnd(Final(cfg, tools, call, input)))];
    assert CallLog(cfg, tools, call, input) == prep + (run + end);
  }

  /** The same of every call of a batch, under either executor and any scheduler. */
  lemma BatchRunsPermitted(b: Batch, schedule: seq<nat>, k: nat)
    ensures (exists e | e in Project(BatchLog(b, schedule), k) :: e.Executed?)
       <==> b.base <= k < b.base + StartedFrom(b, 0) && Permitted(b.tools, b.calls[k - b.base], b.inputs(k - b.base))
  {
    BatchCallLog(b, schedule, k);
    if b.base <= k < b.base + StartedFrom(b, 0) {
      RunsIffPermitted(b.cfg, b.tools, b.calls[k - b.base], b.inputs(k - b.base));
    }
  }

  // ---------- What is put to the user

  /** What the prompt shows: the hook's label and payload if it gave a prompt, and else
      the default ones for the arguments before the hook; the classifier's reason if it
      gave one, and else the hook's. */
  ghost predicate Shows(cfg: Config, call: Call, input: CallInput, request: Request)
    requires input.args.Returned? && (ClassifierAsks(input) || HookAsks(input))
  {
    && (HookAsks(input) ==>
          var h := input.hook.answer.value.prompt.value; request.labelText == h.labelText && request.payload == h.payload)
    && (!HookAsks(input) ==>
          && request.labelText == "Control-plane write: " + call.name
          && request.payload == cfg.payload(call.name, input.args.value))
    && request.reason == if ClassifierAsks(input) then input.classifier.value.value.reason
                         else input.hook.answer.value.prompt.value.reason
  }

  lemma PromptShows(cfg: Config, call: Call, input: CallInput, verdict: Classification)
    requires input.args.Returned? && (verdict.Prompt? <==> ClassifierAsks(input))
    requires ClassifierAsks(input) ==> verdict == input.classifier.value.value
    ensures forall e | e in AskHook(cfg, call, input.args.value, verdict, input).1 && e.Asked? ::
              (ClassifierAsks(input) || HookAsks(input)) && Shows(cfg, call, input, e.request) && input.channel == Some(e.reply)
  {
  }

  lemma PreparedEarly(cfg: Config, tools: seq<Tool>, call: Call, input: CallInput, e: Entry)
    requires e in CallLog(cfg, tools, call, input) && Prompting(e)
    ensures Considered(tools, call, input)
    ensures e in AskHook(cfg, call, input.args.value, if input.classifier.Some? then input.classifier.value.value else Allow, input).1
  {
    FindToolIff(tools, call.name);
    RestIsNotPreparatory(cfg, tools, call, input);
    assert e in PrepareLog(cfg, tools, call, input) || e in RestLog(cfg, tools, call, input);
    assert e in Prepare(cfg, tools, call, input).1;
  }

  /** Whatever is put to the user shows that, and is put to nobody else. */
  lemma RequestShows(cfg: Config, tools: seq<Tool>, call: Call, input: CallInput, e: Entry)
    requires e in CallLog(cfg, tools, call, input) && e.Asked?
    ensures PastHook(tools, call, input) && input.channel == Some(e.reply)
    ensures (ClassifierAsks(input) || HookAsks(input)) && Shows(cfg, call, input, e.request)
  {
    PreparedEarly(cfg, tools, call, input, e);
    PromptShows(cfg, call, input, if input.classifier.Some? then input.classifier.value.value else Allow);
  }

  lemma AsksInPlace(cfg: Config, call: Call, input: CallInput, verdict: Classification)
    requires input.args.Returned? && (verdict.Prompt? <==> ClassifierAsks(input)) && input.channel.Some?
    requires ClassifierAsks(input) || HookAsks(input)
    requires input.hook.HookCalled? ==> input.hook.answer.Returned? && !input.hook.answer.value.block && !input.hook.abortedMeanwhile
    ensures exists e | e in AskHook(cfg, call, input.args.value, verdict, input).1 :: e.Asked?
  {
    var hookPrompt := if input.hook.HookCalled? then input.hook.answer.value.prompt else None;
    var prompt := EffectivePrompt(cfg, call, input.args.value, FinalArgs(input), verdict, hookPrompt);
    var asked := Asked(prompt.value, input.channel.value);
    assert ResolvePrompt(call, FinalArgs(input), prompt, input).1[0] == asked;
    assert asked in AskHook(cfg, call, input.args.value, verdict, input).1;
  }

  /** The user is asked if and only if the classifier or the hook wants it, nobody objected
      so far, and there is a channel. */
  lemma AskedIff(cfg: Config, tools: seq<Tool>, call: Call, input: CallInput)
    ensures (exists e | e in CallLog(cfg, tools, call, input) :: e.Asked?)
       <==> PastHook(tools, call, input) && (ClassifierAsks(input) || HookAsks(input)) && input.channel.Some?
  {
    if e :| e in CallLog(cfg, tools, call, input) && e.Asked? { RequestShows(cfg, tools, call, input, e); }
    if PastHook(tools, call, input) && (ClassifierAsks(input) || HookAsks(input)) && input.channel.Some? {
      var verdict := if input.classifier.Some? then input.classifier.value.value else Allow;
      FindToolIff(tools, call.name);
      AsksInPlace(cfg, call, input, verdict);
      var e :| e in AskHook(cfg, call, input.args.value, verdict, input).1 && e.Asked?;
      assert e in Prepare(cfg, tools, call, input).1;
      assert e in CallLog(cfg, tools, call, input);
    }
  }

  /** What becomes of a demanded prompt: without a channel it is denied. */
  function Answer(input: CallInput): Attempt<Decision> {
    input.channel.GetOr(Returned(Denied(Some(FAIL_CLOSED))))
  }

  predicate Resolves(e: Entry) {
    e.Emit? && e.event.PromptResolved?
  }

  /** An announced decision is the answer given, for the call itself, with the hash and
      the label that were shown. */
  ghost predicate Announces(cfg: Config, call: Call, input: CallInput, e: Entry)
    requires input.args.Returned? && Resolves(e)
  {
    && e.event.id == call.id && e.event.name == call.name && Returned(e.event.decision) == Answer(input)
    && e.event.hash == ArgsHash(cfg.digest, if ClassifierAsks(input) then input.args.value else FinalArgs(input))
    && e.event.labelText == if HookAsks(input) then input.hook.answer.value.prompt.value.labelText
                            else "Control-plane write: " + call.name
  }

  lemma PromptAnnounces(cfg: Config, call: Call, input: CallInput, verdict: Classification)
    requires input.args.Returned? && (verdict.Prompt? <==> ClassifierAsks(input))
    ensures forall e | e in AskHook(cfg, call, input.args.value, verdict, input).1 && Resolves(e) ::
              (ClassifierAsks(input) || HookAsks(input)) && Announces(cfg, call, input, e)
  {
  }

  /** Every decision on a demanded prompt is announced, the denial for want of a channel
      as well; only a channel that throws decides nothing. */
  lemma ResolvedIff(cfg: Config, tools: seq<Tool>, call: Call, input: CallInput)
    ensures (exists e | e in CallLog(cfg, tools, call, input) :: Resolves(e))
       <==> PastHook(tools, call, input) && (ClassifierAsks(input) || HookAsks(input)) && Answer(input).Returned?
    ensures forall e | e in CallLog(cfg, tools, call, input) && Resolves(e) ::
              PastHook(tools, call, input) && Announces(cfg, call, input, e)
  {
    FindToolIff(tools, call.name);
    var verdict := if input.classifier.Some? && input.classifier.value.Returned? then input.classifier.value.value else Allow;
    forall e | e in CallLog(cfg, tools, call, input) && Resolves(e)
      ensures PastHook(tools, call, input) && (ClassifierAsks(input) || HookAsks(input)) && Announces(cfg, call, input, e)
    {
      PreparedEarly(cfg, tools, call, input, e);
      PromptAnnounces(cfg, call, input, verdict);
    }
    if PastHook(tools, call, input) && (ClassifierAsks(input) || HookAsks(input)) && Answer(input).Returned? {
      ResolvesInPlace(cfg, call, input, verdict);
      var e :| e in AskHook(cfg, call, input.args.value, verdict, input).1 && Resolves(e);
      assert e in Prepare(cfg, tools, call, input).1;
      assert e in CallLog(cfg, tools, call, input);
    }
  }

  lemma ResolvesInPlace(cfg: Config, call: Call, input: CallInput, verdict: Classification)
    requires input.args.Returned? && (verdict.Prompt? <==> ClassifierAsks(input)) && Answer(input).Returned?
    requires ClassifierAsks(input) || HookAsks(input)
    requires input.hook.HookCalled? ==> input.hook.answer.Returned? && !input.hook.answer.value.block && !input.hook.abortedMeanwhile
    ensures exists e | e in AskHook(cfg, call, input.args.value, verdict, input).1 :: Resolves(e)
  {
    var hookPrompt := if input.hook.HookCalled? then input.hook.answer.value.prompt else None;
    var prompt := EffectivePrompt(cfg, call, input.args.value, FinalArgs(input), verdict, hookPrompt);
    var log := ResolvePrompt(call, FinalArgs(input), prompt, input).1;
    assert Resolves(log[|log| - 1]) && log[|log| - 1] in log;
    assert log[|log| - 1] in AskHook(cfg, call, input.args.value, verdict, input).1;
  }

  // ---------- What the model is told

  /** A failure as the runtime reports it. */
  ghost predicate Failure(message: string, result: Result, isError: bool) {
    result.content == message && result.details == Null && result.terminate == None && isError
  }

  /** What the tool itself came to. */
  ghost predicate AsExecuted(input: CallInput, result: Result, isError: bool) {
    match input.execution
    case Returned(r) => result == r && !isError
    case Threw(message) => Failure(message, result, isError)
  }

  /** What a dispatched call ends with: what the tool came to, except for exactly the
      fields the hook after it gives; or the failure of that hook. */
  ghost predicate Settled(input: CallInput, result: Result, isError: bool) {
    match input.after
    case None => AsExecuted(input, result, isError)
    case Some(Threw(message)) => Failure(message, result, isError)
    case Some(Returned(o)) =>
      exists plain: Result, plainError :: AsExecuted(input, plain, plainError)
        && (if o.content.Some? then result.content == o.content.value else result.content == plain.content)
        && (if o.details.Some? then result.details == o.details.value else result.details == plain.details)
        && (if o.terminate.Some? then result.terminate == o.terminate else result.terminate == plain.terminate)
        && (if o.isError.Some? then isError == o.isError.value else isError == plainError)
  }

  function Thrown<T>(a: Attempt<T>): Option<string> {
    if a.Threw? then Some(a.message) else None
  }

  /** The reason given, if it says anything. */
  function Stated(reason: Option<string>, otherwise: string): string {
    match reason
    case Some(text) => if |text| > 0 then text else otherwise
    case None => otherwise
  }

  function When(made: bool, message: string): Option<string> {
    if made then Some(message) else None
  }

  function PromptObjection(input: CallInput): Option<string> {
    if !(ClassifierAsks(input) || HookAsks(input)) then None
    else
      match Answer(input)
      case Threw(message) => Some(message)
      case Returned(Denied(reason)) => Some(Stated(reason, "tool call denied by user via control-plane prompt"))
      case Returned(TimedOut) => Some("control-plane prompt timed out — tool call denied")
      case Returned(Allowed) => None
  }

  /** The objections to a call in the order in which they are looked for: what the model
      is told if the n-th is the first one made. */
  ghost function Objection(tools: seq<Tool>, call: Call, input: CallInput, n: nat): Option<string> {
    var classified := input.classifier.GetOr(Returned(Allow));
    var hooked := if input.hook.HookCalled? then input.hook.answer else Returned(HookAnswer(false, None, None));
    if n == 0 then When(!Known(tools, call.name), "Tool " + call.name + " not found")
    else if n == 1 then Thrown(input.args)
    else if n == 2 then Thrown(classified)
    else if n == 3 then if classified.Returned? && classified.value.Block? then Some(classified.value.reason) else None
    else if n == 4 then Thrown(hooked)
    else if n == 5 then When(input.hook.HookCalled? && input.hook.abortedMeanwhile, "Operation aborted")
    else if n == 6 then
      if hooked.Returned? && hooked.value.block then Some(Stated(hooked.value.reason, "Tool execution was blocked")) else None
    else if n == 7 then PromptObjection(input)
    else When(n == 8 && input.abortedBeforeDispatch, "Operation aborted")
  }

  /** The first objection's message is reported. */
  ghost predicate Refused(tools: seq<Tool>, call: Call, input: CallInput, result: Result, isError: bool) {
    exists n: nat, message ::
      && Objection(tools, call, input, n) == Some(message) && Failure(message, result, isError)
      && forall m: nat | m < n :: Objection(tools, call, input, m) == None
  }

  lemma FirstObjection(tools: seq<Tool>, call: Call, input: CallInput, result: Result, n: nat)
    requires Objection(tools, call, input, n).Some? && result == ErrorResult(Objection(tools, call, input, n).value)
    requires forall m: nat | m < n :: Objection(tools, call, input, m) == None
    ensures Refused(tools, call, input, result, true)
  {
  }

  lemma RefusedEarly(cfg: Config, tools: seq<Tool>, call: Call, input: CallInput)
    requires !Known(tools, call.name) || input.args.Threw?
          || (input.classifier.Some? && (input.classifier.value.Threw? || input.classifier.value.value.Block?))
    ensures var p := Prepare(cfg, tools, call, input).0; p.Immediate? && Refused(tools, call, input, p.result, true)
  {
    FindToolIff(tools, call.name);
    var result := Prepare(cfg, tools, call, input).0.result;
    if !Known(tools, call.name) {
      FirstObjection(tools, call, input, result, 0);
    } else if input.args.Threw? {
      FirstObjection(tools, call, input, result, 1);
    } else if input.classifier.value.Threw? {
      FirstObjection(tools, call, input, result, 2);
    } else {
      FirstObjection(tools, call, input, result, 3);
    }
  }

  lemma RefusedByHook(cfg: Config, tools: seq<Tool>, call: Call, input: CallInput)
    requires Considered(tools, call, input) && input.hook.HookCalled?
    requires input.hook.answer.Threw? || input.hook.abortedMeanwhile || input.hook.answer.value.block
    ensures var p := Prepare(cfg, tools, call, input).0; p.Immediate? && Refused(tools, call, input, p.result, true)
  {
    ConsideredByHook(cfg, tools, call, input);
    var result := Prepare(cfg, tools, call, input).0.result;
    if input.hook.answer.Threw? {
      FirstObjection(tools, call, input, result, 4);
    } else if input.hook.abortedMeanwhile {
      FirstObjection(tools, call, input, result, 5);
    } else {
      FirstObjection(tools, call, input, result, 6);
    }
  }

  lemma NoneSoFar(tools: seq<Tool>, call: Call, input: CallInput)
    requires PastHook(tools, call, input)
    ensures forall m: nat | m < 7 :: Objection(tools, call, input, m) == None
  {
  }

  lemma PromptDecides(call: Call, args: Json, prompt: Option<Request>, input: CallInput)
    requires prompt.Some? <==> ClassifierAsks(input) || HookAsks(input)
    ensures ResolvePrompt(call, args, prompt, input).0
         == match PromptObjection(input)
            case Some(message) => Immediate(ErrorResult(message))
            case None => Dispatch(args, input)
  {
  }

  lemma RefusedLate(cfg: Config, tools: seq<Tool>, call: Call, input: CallInput)
    requires PastHook(tools, call, input) && !Permitted(tools, call, input)
    ensures var p := Prepare(cfg, tools, call, input).0; p.Immediate? && Refused(tools, call, input, p.result, true)
  {
    var prompt := ResolvedByPrompt(cfg, tools, call, input);
    PromptDecides(call, FinalArgs(input), prompt, input);
    NoneSoFar(tools, call, input);
    var n := if PromptObjection(input).Some? then 7 else 8;
    FirstObjection(tools, call, input, Prepare(cfg, tools, call, input).0.result, n);
  }

  lemma OutcomeSettles(call: Call, input: CallInput)
    ensures var f := Outcome(call, input); f.call == call && Settled(input, f.result, f.isError)
  {
    var plain := match input.execution case Returned(r) => r case Threw(message) => ErrorResult(message);
    assert AsExecuted(input, plain, input.execution.Threw?);
  }

  /** What a call ends with: the first objection to it, or what its tool came to. */
  ghost predicate Told(tools: seq<Tool>, call: Call, input: CallInput, result: Result, isError: bool) {
    if Permitted(tools, call, input) then Settled(input, result, isError) else Refused(tools, call, input, result, isError)
  }

  lemma FinalTells(cfg: Config, tools: seq<Tool>, call: Call, input: CallInput)
    ensures var f := Final(cfg, tools, call, input); f.call == call && Told(tools, call, input, f.result, f.isError)
  {
    PreparedIffPermitted(cfg, tools, call, input);
    if Permitted(tools, call, input) {
      OutcomeSettles(call, input);
    } else if !Considered(tools, call, input) {
      RefusedEarly(cfg, tools, call, input);
    } else if !PastHook(tools, call, input) {
      RefusedByHook(cfg, tools, call, input);
    } else {
      RefusedLate(cfg, tools, call, input);
    }
  }

  /** A tool runs if and only if there is no objection at all. */
  lemma PermittedIffNoObjection(tools: seq<Tool>, call: Call, input: CallInput)
    ensures Permitted(tools, call, input) <==> forall n: nat :: Objection(tools, call, input, n) == None
  {
    if forall n: nat :: Objection(tools, call, input, n) == None {
      assert Objection(tools, call, input, 0) == Objection(tools, call, input, 1) == Objection(tools, call, input, 2)
        == Objection(tools, call, input, 3) == None;
      assert Objection(tools, call, input, 4) == Objection(tools, call, input, 5) == Objection(tools, call, input, 6)
        == Objection(tools, call, input, 7) == Objection(tools, call, input, 8) == None;
    }
  }
}
