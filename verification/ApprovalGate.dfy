/** The approval gate inside `prepareToolCall`, read off the observations of one call. */
module ApprovalGate {
  import opened CanonicalJson
  import opened JsonEquality
  import opened AgentTypes
  import opened ToolCalls

  ghost predicate ClassifierDemands(p: seq<Entry>) {
    exists e | e in p :: e.Classified? && e.verdict.Prompt?
  }

  ghost predicate HookDemands(p: seq<Entry>) {
    exists e | e in p :: e.Hooked? && e.answer.prompt.Some?
  }

  /** The classifier or the hook asked for a prompt. */
  ghost predicate Demanded(p: seq<Entry>) {
    ClassifierDemands(p) || HookDemands(p)
  }

  predicate Vetoing(e: Entry) {
    (e.Classified? && e.verdict.Block?) || (e.Hooked? && e.answer.block)
  }

  predicate Prompting(e: Entry) {
    e.Asked? || (e.Emit? && e.event.PromptResolved?)
  }

  /** The request names `call` itself and carries the hash of `args`. */
  predicate Names(digest: Text -> Text, request: Request, call: Call, args: Json) {
    request.id == call.id && request.name == call.name && request.hash == ArgsHash(digest, args)
  }

  function Resolution(request: Request, decision: Decision): Entry {
    Emit(PromptResolved(request.id, request.name, request.hash, request.labelText, decision))
  }

  /** `p[j]` asks about `call` with the hash of `args`, the answer is `decision`, and
      `p[j + 1]` announces it with the same data. */
  ghost predicate Bound(digest: Text -> Text, p: seq<Entry>, j: nat, call: Call, args: Json, decision: Decision) {
    && j + 1 < |p| && p[j].Asked? && p[j].reply == Returned(decision)
    && Names(digest, p[j].request, call, args) && p[j + 1] == Resolution(p[j].request, decision)
  }

  ghost predicate OnlyAt(p: seq<Entry>, j: nat) {
    forall i | 0 <= i < |p| && Prompting(p[i]) :: i == j || i == j + 1
  }

  ghost predicate OwnCall(p: seq<Entry>) {
    |p| > 1 && p[0].Emit? && p[0].event.ToolStart? && p[1].Validated?
  }

  /** The arguments a prompt's hash is taken from: those before the hook if the classifier
      demanded the prompt, and else those the hook leaves. */
  ghost predicate Hashed(p: seq<Entry>, args: Json)
    requires OwnCall(p)
  {
    if ClassifierDemands(p) then args == p[1].args else exists e | e in p :: e.Hooked? && e.args == args
  }

  /** The arguments left after the hook, if there was one. */
  ghost predicate Left(p: seq<Entry>, args: Json)
    requires OwnCall(p)
  {
    && (forall h | 0 <= h < |p| && p[h].Hooked? :: p[h].args == args)
    && ((forall h | 0 <= h < |p| :: !p[h].Hooked?) ==> p[1].args == args)
  }

  /** What must hold of a call's observations if its tool ran: it ran once, unvetoed, on
      the arguments left after the hook, and if a prompt was demanded then after the one
      prompt, naming the call itself, was allowed. */
  ghost predicate Gate(digest: Text -> Text, p: seq<Entry>) {
    forall i | 0 <= i < |p| && p[i].Executed? ::
      && OwnCall(p) && p[0].event.call.id == p[i].id && p[0].event.call.name == p[i].name
      && (forall h | 0 <= h < |p| :: !Vetoing(p[h]))
      && (forall h | 0 <= h < |p| && p[h].Executed? :: h == i)
      && (forall h | 0 <= h < |p| && p[h].Validated? :: h == 1)
      && (forall h | 0 <= h < |p| && p[h].Hooked? :: h < i)
      && Left(p, p[i].args)
      && (Demanded(p) ==> exists j: nat, args ::
            j + 1 < i && Hashed(p, args) && Bound(digest, p, j, p[0].event.call, args, Allowed) && OnlyAt(p, j))
  }

  /** Every request put to the user names the call itself and carries the hash of the
      right arguments; if it was answered, the answer is announced with the same data. */
  ghost predicate Binding(digest: Text -> Text, p: seq<Entry>) {
    forall j | 0 <= j < |p| && p[j].Asked? ::
      && OwnCall(p)
      && (exists args :: Hashed(p, args) && Names(digest, p[j].request, p[0].event.call, args))
      && (p[j].reply.Returned? ==> j + 1 < |p| && p[j + 1] == Resolution(p[j].request, p[j].reply.value))
  }

  // ---------- The stages of a preparation

  /** The observations of the prompt, if there was one. */
  ghost predicate Prompts(digest: Text -> Text, call: Call, args: Json, r: seq<Entry>) {
    && |r| <= 2 && (forall e | e in r :: Prompting(e)) && (|r| == 2 ==> r[0].Asked? && !r[1].Asked?)
    && (r != [] && r[0].Asked? ==>
          && Names(digest, r[0].request, call, args)
          && (r[0].reply.Returned? ==> |r| == 2 && r[1] == Resolution(r[0].request, r[0].reply.value)))
  }

  /** Classification, hook and prompt: `after` is what the hook leaves of `before`. */
  ghost predicate Staged(digest: Text -> Text, call: Call, before: Json, after: Json,
                         c: seq<Entry>, h: seq<Entry>, r: seq<Entry>) {
    && |c| <= 1 && (forall e | e in c :: e.Classified?)
    && |h| <= 1 && (forall e | e in h :: e.Hooked? && e.args == after) && (h == [] ==> after == before)
    && Prompts(digest, call, if ClassifierDemands(c) then before else after, r)
    && (r != [] && !ClassifierDemands(c) ==> h != [])
  }

  /** What the stages are when the call may run. */
  ghost predicate Passed(c: seq<Entry>, h: seq<Entry>, r: seq<Entry>) {
    && (forall e | e in c || e in h :: !Vetoing(e))
    && if ClassifierDemands(c) || HookDemands(h) then |r| == 2 && r[0].Asked? && r[0].reply == Returned(Allowed) else r == []
  }

  lemma PromptNames(cfg: Config, call: Call, before: Json, after: Json, verdict: Classification, hookPrompt: Option<Request>)
    ensures var prompt := EffectivePrompt(cfg, call, before, after, verdict, hookPrompt);
            && (prompt.Some? <==> verdict.Prompt? || hookPrompt.Some?)
            && (prompt.Some? ==> Names(cfg.digest, prompt.value, call, if verdict.Prompt? then before else after))
  {
  }

  lemma PromptStage(digest: Text -> Text, call: Call, args: Json, hashed: Json, prompt: Option<Request>, input: CallInput)
    requires prompt.Some? ==> Names(digest, prompt.value, call, hashed)
    ensures var (p, r) := ResolvePrompt(call, args, prompt, input);
            && Prompts(digest, call, hashed, r) && (prompt.None? ==> r == [])
            && (p.Prepared? ==> p.args == args && (prompt.Some? ==> |r| == 2 && r[0].Asked? && r[0].reply == Returned(Allowed)))
  {
  }

  /** The stages from the classifier's verdict on, when the hook, if any, asks for `hookPrompt`. */
  lemma AnsweredStage(cfg: Config, call: Call, before: Json, after: Json, verdict: Classification, hookPrompt: Option<Request>,
                      c: seq<Entry>, h: seq<Entry>, input: CallInput)
    requires |c| <= 1 && (forall e | e in c :: e.Classified? && !Vetoing(e)) && (ClassifierDemands(c) <==> verdict.Prompt?)
    requires |h| <= 1 && (forall e | e in h :: e.Hooked? && e.args == after && !Vetoing(e)) && (h == [] ==> after == before)
    requires (HookDemands(h) <==> hookPrompt.Some?) && (hookPrompt.Some? ==> h != [])
    ensures var (p, r) := ResolvePrompt(call, after, EffectivePrompt(cfg, call, before, after, verdict, hookPrompt), input);
            && Staged(cfg.digest, call, before, after, c, h, r) && (p.Prepared? ==> p.args == after && Passed(c, h, r))
  {
    PromptNames(cfg, call, before, after, verdict, hookPrompt);
    PromptStage(cfg.digest, call, after, if verdict.Prompt? then before else after,
                EffectivePrompt(cfg, call, before, after, verdict, hookPrompt), input);
  }

  lemma HookStage(cfg: Config, call: Call, before: Json, verdict: Classification, c: seq<Entry>, input: CallInput)
      returns (h: seq<Entry>, r: seq<Entry>, after: Json)
    requires |c| <= 1 && (forall e | e in c :: e.Classified? && !Vetoing(e)) && (ClassifierDemands(c) <==> verdict.Prompt?)
    ensures var (p, log) := AskHook(cfg, call, before, verdict, input);
            && log == h + r && Staged(cfg.digest, call, before, after, c, h, r)
            && (p.Prepared? ==> p.args == after && Passed(c, h, r))
  {
    h, r, after := [], [], before;
    match input.hook
    case NoHook =>
      AnsweredStage(cfg, call, before, before, verdict, None, c, h, input);
      r := ResolvePrompt(call, before, EffectivePrompt(cfg, call, before, before, verdict, None), input).1;
    case HookCalled(Threw(_), _, _) =>
    case HookCalled(Returned(answer), patched, aborted) =>
      h, after := [Hooked(answer, patched)], patched;
      assert HookDemands(h) <==> answer.prompt.Some? by { assert Hooked(answer, patched) in h; }
      if !aborted && !answer.block {
        AnsweredStage(cfg, call, before, patched, verdict, answer.prompt, c, h, input);
        r := ResolvePrompt(call, patched, EffectivePrompt(cfg, call, before, patched, verdict, answer.prompt), input).1;
      }
  }

  /** The observations of a preparation that got past validation. */
  lemma PrepareStages(cfg: Config, tools: seq<Tool>, call: Call, input: CallInput)
      returns (c: seq<Entry>, h: seq<Entry>, r: seq<Entry>, after: Json)
    requires FindTool(tools, call.name).Some? && input.args.Returned?
    ensures var (p, log) := Prepare(cfg, tools, call, input);
            && log == [Validated(input.args.value)] + c + h + r
            && Staged(cfg.digest, call, input.args.value, after, c, h, r)
            && (p.Prepared? ==> p.args == after && Passed(c, h, r))
  {
    var before := input.args.value;
    c, h, r, after := [], [], [], before;
    match input.classifier
    case None => h, r, after := HookStage(cfg, call, before, Allow, c, input);
    case Some(Threw(_)) =>
    case Some(Returned(verdict)) =>
      c := [Classified(verdict)];
      assert ClassifierDemands(c) <==> verdict.Prompt? by { assert Classified(verdict) in c; }
      if !verdict.Block? { h, r, after := HookStage(cfg, call, before, verdict, c, input); }
  }

  /** Entries that only `Prepare` produces. */
  predicate Preparatory(e: Entry) {
    e.Validated? || e.Classified? || e.Hooked? || e.Asked? || (e.Emit? && e.event.PromptResolved?)
  }

  lemma PrepareIsPreparatory(cfg: Config, tools: seq<Tool>, call: Call, input: CallInput)
    ensures forall e | e in Prepare(cfg, tools, call, input).1 :: Preparatory(e)
  {
  }

  lemma RestIsNotPreparatory(cfg: Config, tools: seq<Tool>, call: Call, input: CallInput)
    ensures forall e | e in RestLog(cfg, tools, call, input) :: !Preparatory(e)
    ensures Prepare(cfg, tools, call, input).0.Immediate? ==> forall e | e in RestLog(cfg, tools, call, input) :: !e.Executed?
    ensures Prepare(cfg, tools, call, input).0.Prepared? ==>
              && RestLog(cfg, tools, call, input)[0] == Executed(call.id, call.name, Prepare(cfg, tools, call, input).0.args)
              && forall e | e in RestLog(cfg, tools, call, input)[1..] :: !e.Executed?
  {
    match Prepare(cfg, tools, call, input).0
    case Immediate(_) =>
    case Prepared(args) =>
      var done := [Emit(ToolEnd(Final(cfg, tools, call, input)))];
      var rest := Updates(call, input.updates) + done;
      assert RestLog(cfg, tools, call, input) == [Executed(call.id, call.name, args)] + rest;
  }

  // ---------- The gate

  /** The observations of a call before dispatch, stage by stage. */
  function Assembled(call: Call, before: Json, c: seq<Entry>, h: seq<Entry>, r: seq<Entry>): seq<Entry> {
    [Emit(ToolStart(call))] + ([Validated(before)] + c + h + r)
  }

  lemma ExecutedOnce(prep: seq<Entry>, rest: seq<Entry>)
    requires forall e | e in prep :: !e.Executed?
    requires rest != [] && rest[0].Executed? && forall e | e in rest[1..] :: !e.Executed?
    ensures forall i | 0 <= i < |prep + rest| :: (prep + rest)[i].Executed? <==> i == |prep|
  {
    forall i | 0 <= i < |prep + rest| ensures (prep + rest)[i].Executed? <==> i == |prep| {
      if i < |prep| {
        assert prep[i] in prep;
      } else if i > |prep| {
        assert rest[i - |prep|] == rest[1..][i - |prep| - 1];
        assert rest[1..][i - |prep| - 1] in rest[1..];
      }
    }
  }

  /** Where each kind of entry stands, whatever follows the preparation. */
  lemma Positions(digest: Text -> Text, call: Call, before: Json, after: Json, c: seq<Entry>, h: seq<Entry>, r: seq<Entry>,
                  rest: seq<Entry>)
    requires Staged(digest, call, before, after, c, h, r) && forall e | e in rest :: !Preparatory(e)
    ensures var p := Assembled(call, before, c, h, r) + rest; var j := 2 + |c| + |h|;
            && OwnCall(p) && p[0].event.call == call && p[1].args == before
            && (forall i | 0 <= i < |p| && p[i].Validated? :: i == 1)
            && (forall i | 0 <= i < |p| && p[i].Classified? :: 2 <= i < 2 + |c| && p[i] == c[i - 2])
            && (forall i | 0 <= i < |p| && p[i].Hooked? :: 2 + |c| <= i < j && p[i] == h[i - 2 - |c|])
            && (forall i | 0 <= i < |p| && Prompting(p[i]) :: j <= i < j + |r| && p[i] == r[i - j])
  {
    var p := Assembled(call, before, c, h, r) + rest;
    var j := 2 + |c| + |h|;
    forall i | 0 <= i < |p|
      ensures i < 2 || (i < 2 + |c| && p[i] == c[i - 2]) || (2 + |c| <= i < j && p[i] == h[i - 2 - |c|])
           || (j <= i < j + |r| && p[i] == r[i - j]) || !Preparatory(p[i])
    {
      if i >= j + |r| { assert p[i] == rest[i - j - |r|]; }
    }
    forall k | 0 <= k < |c| ensures c[k].Classified? { assert c[k] in c; }
    forall k | 0 <= k < |h| ensures h[k].Hooked? { assert h[k] in h; }
    forall k | 0 <= k < |r| ensures Prompting(r[k]) { assert r[k] in r; }
  }

  /** The demands are those of the stages. */
  lemma Demands(digest: Text -> Text, call: Call, before: Json, after: Json, c: seq<Entry>, h: seq<Entry>, r: seq<Entry>,
                rest: seq<Entry>)
    requires Staged(digest, call, before, after, c, h, r) && forall e | e in rest :: !Preparatory(e)
    ensures var p := Assembled(call, before, c, h, r) + rest;
            && (ClassifierDemands(p) <==> ClassifierDemands(c)) && (HookDemands(p) <==> HookDemands(h))
            && (forall e | e in h :: e in p)
  {
    var p := Assembled(call, before, c, h, r) + rest;
    Positions(digest, call, before, after, c, h, r, rest);
    forall e | e in c || e in h ensures e in p { assert e in [Validated(before)] + c + h + r; }
    if ClassifierDemands(p) {
      var e :| e in p && e.Classified? && e.verdict.Prompt?;
      var i :| 0 <= i < |p| && p[i] == e;
      assert c[i - 2] in c;
    }
    if HookDemands(p) {
      var e :| e in p && e.Hooked? && e.answer.prompt.Some?;
      var i :| 0 <= i < |p| && p[i] == e;
      assert h[i - 2 - |c|] in h;
    }
  }

  /** A prompt's hash is taken from the right arguments. */
  lemma HashedStage(digest: Text -> Text, call: Call, before: Json, after: Json, c: seq<Entry>, h: seq<Entry>, r: seq<Entry>,
                    rest: seq<Entry>)
    requires Staged(digest, call, before, after, c, h, r) && (forall e | e in rest :: !Preparatory(e)) && r != []
    ensures var p := Assembled(call, before, c, h, r) + rest;
            OwnCall(p) && Hashed(p, if ClassifierDemands(c) then before else after)
  {
    Positions(digest, call, before, after, c, h, r, rest);
    Demands(digest, call, before, after, c, h, r, rest);
    if !ClassifierDemands(c) { assert h[0] in h; }
  }

  lemma StagesBind(digest: Text -> Text, call: Call, before: Json, after: Json, c: seq<Entry>, h: seq<Entry>, r: seq<Entry>,
                   rest: seq<Entry>)
    requires Staged(digest, call, before, after, c, h, r) && forall e | e in rest :: !Preparatory(e)
    ensures Binding(digest, Assembled(call, before, c, h, r) + rest)
  {
    var p := Assembled(call, before, c, h, r) + rest;
    var j := 2 + |c| + |h|;
    Positions(digest, call, before, after, c, h, r, rest);
    forall i | 0 <= i < |p| && p[i].Asked?
      ensures i == j && r != [] && p[i] == r[0] && (|r| == 2 ==> p[i + 1] == r[1])
    {
      assert Prompting(p[i]);
    }
    if r != [] { HashedStage(digest, call, before, after, c, h, r, rest); }
  }

  lemma StagesGate(digest: Text -> Text, call: Call, before: Json, after: Json, c: seq<Entry>, h: seq<Entry>, r: seq<Entry>,
                   rest: seq<Entry>)
    requires Staged(digest, call, before, after, c, h, r) && Passed(c, h, r)
    requires rest != [] && rest[0] == Executed(call.id, call.name, after) && forall e | e in rest :: !Preparatory(e)
    requires var prep := Assembled(call, before, c, h, r);
             forall i | 0 <= i < |prep + rest| :: (prep + rest)[i].Executed? <==> i == |prep|
    ensures Gate(digest, Assembled(call, before, c, h, r) + rest)
  {
    var prep := Assembled(call, before, c, h, r);
    var p, i, j := prep + rest, |prep|, 2 + |c| + |h|;
    assert p[i] == rest[0];
    Positions(digest, call, before, after, c, h, r, rest);
    Demands(digest, call, before, after, c, h, r, rest);
    forall n | 0 <= n < |p| ensures !Vetoing(p[n]) {
      if p[n].Classified? { assert c[n - 2] in c; }
      if p[n].Hooked? { assert h[n - 2 - |c|] in h; }
    }
    LeftStage(digest, call, before, after, c, h, r, rest);
    if Demanded(p) {
      HashedStage(digest, call, before, after, c, h, r, rest);
      assert p[j] == r[0] && p[j + 1] == r[1];
      assert Bound(digest, p, j, call, if ClassifierDemands(c) then before else after, Allowed) && OnlyAt(p, j);
    }
  }

  lemma LeftStage(digest: Text -> Text, call: Call, before: Json, after: Json, c: seq<Entry>, h: seq<Entry>, r: seq<Entry>,
                  rest: seq<Entry>)
    requires Staged(digest, call, before, after, c, h, r) && forall e | e in rest :: !Preparatory(e)
    ensures var p := Assembled(call, before, c, h, r) + rest; OwnCall(p) && Left(p, after)
  {
    var p := Assembled(call, before, c, h, r) + rest;
    Positions(digest, call, before, after, c, h, r, rest);
    forall n | 0 <= n < |p| && p[n].Hooked? ensures p[n].args == after { assert h[n - 2 - |c|] in h; }
    if h != [] { assert p[2 + |c|] == h[0] && h[0] in h; }
  }

  /** A tool runs only behind its gate. */
  lemma CallLogGated(cfg: Config, tools: seq<Tool>, call: Call, input: CallInput)
    ensures Gate(cfg.digest, CallLog(cfg, tools, call, input))
  {
    PrepareIsPreparatory(cfg, tools, call, input);
    RestIsNotPreparatory(cfg, tools, call, input);
    var prep, rest := PrepareLog(cfg, tools, call, input), RestLog(cfg, tools, call, input);
    var p := prep + rest;
    if Prepare(cfg, tools, call, input).0.Immediate? {
      forall e: Entry | e in p ensures !e.Executed? { assert e in prep || e in rest; }
    } else {
      ExecutedOnce(prep, rest);
      var c, h, r, after := PrepareStages(cfg, tools, call, input);
      StagesGate(cfg.digest, call, input.args.value, after, c, h, r, rest);
    }
  }

  /** Whatever a hook supplies, a request names the call itself. */
  lemma CallLogBinds(cfg: Config, tools: seq<Tool>, call: Call, input: CallInput)
    ensures Binding(cfg.digest, CallLog(cfg, tools, call, input))
  {
    RestIsNotPreparatory(cfg, tools, call, input);
    var rest := RestLog(cfg, tools, call, input);
    if FindTool(tools, call.name).Some? && input.args.Returned? {
      var c, h, r, after := PrepareStages(cfg, tools, call, input);
      StagesBind(cfg.digest, call, input.args.value, after, c, h, r, rest);
    } else {
      var p := CallLog(cfg, tools, call, input);
      forall j | 0 <= j < |p| ensures !p[j].Asked? { assert j > 0 ==> p[j] == rest[j - 1] && rest[j - 1] in rest; }
    }
  }

  // ---------- What was approved and what runs

  /** `p[i]` ran under an approval of exactly its arguments. */
  ghost predicate ApprovedAsRun(digest: Text -> Text, p: seq<Entry>, i: nat)
    requires i < |p| && p[i].Executed? && OwnCall(p)
  {
    exists j: nat :: j + 1 < i && Bound(digest, p, j, p[0].event.call, p[i].args, Allowed)
  }

  /** The exact condition for the allowed prompt to carry the hash of the arguments that
      run: the classifier did not demand it, or the hook left the hash as it was. */
  lemma ApprovedAsRunIff(digest: Text -> Text, p: seq<Entry>, i: nat)
    requires Gate(digest, p) && i < |p| && p[i].Executed? && Demanded(p)
    ensures OwnCall(p)
    ensures ApprovedAsRun(digest, p, i)
        <==> !ClassifierDemands(p) || ArgsHash(digest, p[1].args) == ArgsHash(digest, p[i].args)
  {
    var call := p[0].event.call;
    var j: nat, args :| j + 1 < i && Hashed(p, args) && Bound(digest, p, j, call, args, Allowed) && OnlyAt(p, j);
    if !ClassifierDemands(p) {
      var e :| e in p && e.Hooked? && e.args == args;
      var n :| 0 <= n < |p| && p[n] == e;
      assert args == p[i].args;
    }
    if ApprovedAsRun(digest, p, i) {
      var k: nat :| k + 1 < i && Bound(digest, p, k, call, p[i].args, Allowed);
      assert Prompting(p[k]) && p[j + 1].Emit?;
      assert k == j;
    } else {
      assert !Bound(digest, p, j, call, p[i].args, Allowed);
    }
  }

  /** With a digest without collisions: the approval covers the arguments that run exactly
      if the classifier did not demand it or the hook changed no more than the key order. */
  lemma ApprovedArgumentsIff(digest: Text -> Text, p: seq<Entry>, i: nat)
    requires Gate(digest, p) && i < |p| && p[i].Executed? && Demanded(p)
    requires OwnCall(p) ==> Valid(p[1].args) && AllJson(p[1].args) && Valid(p[i].args) && AllJson(p[i].args)
    requires forall s, t | WellFormed(s) && WellFormed(t) && digest(s) == digest(t) :: s == t
    ensures OwnCall(p)
    ensures ApprovedAsRun(digest, p, i) <==> !ClassifierDemands(p) || SameUpToOrder(p[1].args, p[i].args)
  {
    ApprovedAsRunIff(digest, p, i);
    HashBindsArguments(digest, p[1].args, p[i].args);
  }

  /** A call the classifier wants confirmed, that is allowed after the hook patched it. */
  function Patching(before: Json, after: Json): CallInput {
    CallInput(Returned(before), Some(Returned(Prompt("confirm"))), HookCalled(Returned(HookAnswer(false, None, None)), after, false),
              Some(Returned(Allowed)), false, [], Returned(Result("", Null, None)), None, false)
  }

  /** The approval carries the hash from before the patch, and the patched arguments run. */
  lemma PatchOutrunsApproval(cfg: Config, tools: seq<Tool>, call: Call, before: Json, after: Json)
    requires FindTool(tools, call.name).Some?
    ensures var p := CallLog(cfg, tools, call, Patching(before, after));
            && OwnCall(p) && p[1] == Validated(before) && ClassifierDemands(p) && p[6] == Executed(call.id, call.name, after)
            && Bound(cfg.digest, p, 4, call, before, Allowed)
            && (ApprovedAsRun(cfg.digest, p, 6) <==> ArgsHash(cfg.digest, before) == ArgsHash(cfg.digest, after))
  {
    var input := Patching(before, after);
    var p := CallLog(cfg, tools, call, input);
    assert p[2] == Classified(Prompt("confirm")) && p[2] in p;
    CallLogGated(cfg, tools, call, input);
    ApprovedAsRunIff(cfg.digest, p, 6);
  }

  const VALUE: Text := [118, 97, 108, 117, 101]
  const HELLO := Obj([Field(VALUE, Str([104, 101, 108, 108, 111]))])
  const NUMBER := Obj([Field(VALUE, Num([49, 50, 51]))])

  /** `{"value":"hello"}` is approved and `{"value":123}` runs. */
  lemma HelloApprovedNumberRuns(cfg: Config, tools: seq<Tool>, call: Call)
    requires FindTool(tools, call.name).Some?
    requires forall s, t | WellFormed(s) && WellFormed(t) && cfg.digest(s) == cfg.digest(t) :: s == t
    ensures var p := CallLog(cfg, tools, call, Patching(HELLO, NUMBER));
            && OwnCall(p) && p[6] == Executed(call.id, call.name, NUMBER) && Bound(cfg.digest, p, 4, call, HELLO, Allowed)
            && !ApprovedAsRun(cfg.digest, p, 6)
  {
    PatchOutrunsApproval(cfg, tools, call, HELLO, NUMBER);
    HelloIsNotNumber();
    HashBindsArguments(cfg.digest, HELLO, NUMBER);
  }

  lemma HelloIsNotNumber()
    ensures Valid(HELLO) && Valid(NUMBER) && AllJson(HELLO) && AllJson(NUMBER) && !SameUpToOrder(HELLO, NUMBER)
  {
    assert Keys(HELLO.fields) == [VALUE] && Keys(NUMBER.fields) == [VALUE];
    assert !SameUpToOrder(HELLO.fields[0].value, NUMBER.fields[0].value);
  }

  // ---------- Without a prompt channel

  lemma NoChannelNoAsk(cfg: Config, tools: seq<Tool>, call: Call, input: CallInput)
    requires input.channel.None?
    ensures forall e | e in CallLog(cfg, tools, call, input) :: !e.Asked?
  {
    RestIsNotPreparatory(cfg, tools, call, input);
    forall e: Entry | e in CallLog(cfg, tools, call, input) ensures !e.Asked? {
      assert e in PrepareLog(cfg, tools, call, input) || e in RestLog(cfg, tools, call, input);
    }
  }

  /** Without a prompt channel a demanded prompt means the tool does not run, and the
      call is answered with a denial. */
  lemma NoChannelNoExecution(cfg: Config, tools: seq<Tool>, call: Call, input: CallInput)
    requires input.channel.None? && Demanded(CallLog(cfg, tools, call, input))
    ensures forall e | e in CallLog(cfg, tools, call, input) :: !e.Executed?
    ensures Final(cfg, tools, call, input).isError
  {
    var p := CallLog(cfg, tools, call, input);
    CallLogGated(cfg, tools, call, input);
    NoChannelNoAsk(cfg, tools, call, input);
    assert forall i | 0 <= i < |p| :: p[i] in p;
    RestIsNotPreparatory(cfg, tools, call, input);
    var rest := RestLog(cfg, tools, call, input);
    assert rest[0] in rest;
    assert rest[0] in p;
  }

  // ---------- What a hook can say

  /** `input`, had the hook's prompt named another call. */
  function Spoofed(input: CallInput, id: string, name: string, hash: Text): CallInput {
    match input.hook
    case HookCalled(Returned(answer), patched, aborted) =>
      if answer.prompt.None? then input
      else
        var prompt := answer.prompt.value.(id := id, name := name, hash := hash);
        input.(hook := HookCalled(Returned(answer.(prompt := Some(prompt))), patched, aborted))
    case _ => input
  }

  /** The same observations, but for what the hook itself answered. */
  ghost predicate SameButHook(p: seq<Entry>, q: seq<Entry>) {
    |p| == |q| && forall i | 0 <= i < |p| :: p[i] == q[i] || (p[i].Hooked? && q[i].Hooked?)
  }

  /** Whatever call a hook's prompt names, its patch being the same, nothing but the hook's own answer changes: not
      the request shown, not the resolution, not whether and with what the tool runs. */
  lemma HookCannotSpoof(cfg: Config, tools: seq<Tool>, call: Call, input: CallInput, id: string, name: string, hash: Text)
    ensures SameButHook(CallLog(cfg, tools, call, input), CallLog(cfg, tools, call, Spoofed(input, id, name, hash)))
    ensures Final(cfg, tools, call, Spoofed(input, id, name, hash)) == Final(cfg, tools, call, input)
  {
    var other := Spoofed(input, id, name, hash);
    SpoofedPreparation(cfg, tools, call, input, id, name, hash);
    assert RestLog(cfg, tools, call, other) == RestLog(cfg, tools, call, input);
  }

  lemma SpoofedHook(cfg: Config, call: Call, args: Json, verdict: Classification, input: CallInput,
                    id: string, name: string, hash: Text)
    ensures var other := Spoofed(input, id, name, hash);
            var (p, log), (q, log') := AskHook(cfg, call, args, verdict, input), AskHook(cfg, call, args, verdict, other);
            q == p && SameButHook(log, log')
  {
    var other := Spoofed(input, id, name, hash);
    if other != input {
      var answer, spoof, patched := input.hook.answer.value, other.hook.answer.value, input.hook.patched;
      var prompt := EffectivePrompt(cfg, call, args, patched, verdict, answer.prompt);
      assert EffectivePrompt(cfg, call, args, patched, verdict, spoof.prompt) == prompt;
      assert ResolvePrompt(call, patched, prompt, other) == ResolvePrompt(call, patched, prompt, input);
    }
  }

  lemma SpoofedPreparation(cfg: Config, tools: seq<Tool>, call: Call, input: CallInput, id: string, name: string, hash: Text)
    ensures var other := Spoofed(input, id, name, hash);
            && Prepare(cfg, tools, call, other).0 == Prepare(cfg, tools, call, input).0
            && SameButHook(Prepare(cfg, tools, call, input).1, Prepare(cfg, tools, call, other).1)
  {
    if input.args.Returned? {
      SpoofedHook(cfg, call, input.args.value, Allow, input, id, name, hash);
      if input.classifier.Some? && input.classifier.value.Returned? {
        SpoofedHook(cfg, call, input.args.value, input.classifier.value.value, input, id, name, hash);
      }
    }
  }
}
