/** `runLoop`, `runAgentLoop` and `streamAssistantResponse` of agent-loop.ts as
    functions of everything the outside world supplies. */
module AgentLoops {
  import opened AgentTypes
  import opened Queues
  import opened ToolCalls
  import opened ToolBatches

  // ---------- Streaming one reply

  /** The provider's events: a new partial message, an update of it, a block start
      (which the loop ignores), and the final `done` or `error`. */
  datatype StreamEvent = Opened(partial: Reply) | Updated(partial: Reply) | BlockOpened | Finished

  /** How a stream ends: with its final message, or by throwing. */
  datatype StreamEnd = Replied(reply: Reply) | Broke(message: string, aborted: bool)

  datatype StreamInput = StreamInput(events: seq<StreamEvent>, end: StreamEnd)

  /** The local state of `streamAssistantResponse`. */
  datatype Streaming = Streaming(context: seq<Message>, added: bool, log: Log)

  function SetLast(ms: seq<Message>, m: Message): seq<Message> {
    if ms == [] then ms else ms[|ms| - 1 := m]
  }

  function StreamStep(s: Streaming, e: StreamEvent): Streaming {
    match e
    case Opened(p) =>
      Streaming(s.context + [Assistant(p)], true, s.log + [Loop(MessageStart(Assistant(p)))])
    case Updated(p) =>
      if s.added
      then Streaming(SetLast(s.context, Assistant(p)), true, s.log + [Loop(MessageUpdate(Assistant(p)))])
      else s
    case _ => s
  }

  /** The events up to the one that finishes the stream. */
  function Relevant(events: seq<StreamEvent>): seq<StreamEvent> {
    if events == [] || events[0].Finished? then [] else [events[0]] + Relevant(events[1..])
  }

  function StreamAll(s: Streaming, events: seq<StreamEvent>): Streaming {
    if events == [] then s else StreamStep(StreamAll(s, events[..|events| - 1]), events[|events| - 1])
  }

  function CloseStream(s: Streaming, reply: Reply): Streaming {
    var m := Assistant(reply);
    Streaming(if s.added then SetLast(s.context, m) else s.context + [m],
              true,
              s.log + (if s.added then [] else [Loop(MessageStart(m))]) + [Loop(MessageEnd(m))])
  }

  /** The whole stream: what it leaves behind when it throws, or the closed state. */
  function StreamReply(context: seq<Message>, input: StreamInput): Streaming {
    var s := StreamAll(Streaming(context, false, []), Relevant(input.events));
    if input.end.Replied? then CloseStream(s, input.end.reply) else s
  }

  /** What streaming logs: the start, the updates and the end of a message. */
  predicate Telling(o: Obs) {
    o.Loop? && (o.event.MessageStart? || o.event.MessageUpdate? || o.event.MessageEnd?)
  }

  lemma {:induction false} StreamTells(context: seq<Message>, events: seq<StreamEvent>)
    ensures forall o | o in StreamAll(Streaming(context, false, []), events).log :: Telling(o)
  {
    if events != [] { StreamTells(context, events[..|events| - 1]); }
  }

  lemma ReplyTells(context: seq<Message>, input: StreamInput)
    ensures forall o | o in StreamReply(context, input).log :: Telling(o)
  {
    StreamTells(context, Relevant(input.events));
  }

  // ---------- One turn

  /** What the outside world supplies to one turn: the stream, the answers to tool
      calls, the scheduler, the two hooks after the turn, and the callers' actions
      before each queue poll. */
  datatype TurnInput = TurnInput(
    stream: StreamInput,
    calls: nat -> CallInput,
    schedule: seq<nat>,
    stopAfterTurn: bool,
    replaced: Option<(seq<Message>, seq<Tool>)>,
    beforeSteering: seq<Op>,
    beforeFollowUp: seq<Op>)

  /** The variables of `runLoop`, with the queues behind its two poll callbacks. */
  datatype Run = Run(
    context: seq<Message>,
    tools: seq<Tool>,
    newMessages: seq<Message>,
    pending: seq<Message>,
    source: Source,
    firstTurn: bool,
    queues: Pair,
    skipPoll: bool,
    started: nat,
    log: Log)

  datatype Status = Going | Ended | Failed(message: string, aborted: bool)

  function InjectLog(source: Source, ms: seq<Message>): Log {
    if ms == [] then []
    else
      var m := ms[|ms| - 1];
      InjectLog(source, ms[..|ms| - 1]) + [Injected(source, m)] + Announce(m)
  }

  lemma {:induction false} InjectTells(source: Source, ms: seq<Message>)
    ensures forall o | o in InjectLog(source, ms) :: o.Injected? || Telling(o)
  {
    if ms != [] { InjectTells(source, ms[..|ms| - 1]); }
  }

  function OpenTurn(r: Run): Run {
    r.(context := r.context + r.pending,
       newMessages := r.newMessages + r.pending,
       pending := [],
       firstTurn := false,
       log := r.log + (if r.firstTurn then [] else [Loop(TurnStart)]) + InjectLog(r.source, r.pending))
  }

  function CallsOf(content: seq<Block>): seq<Call> {
    if content == [] then []
    else CallsOf(content[..|content| - 1]) + match content[|content| - 1] case ToolCallBlock(c) => [c] case _ => []
  }

  function BatchOf(cfg: Config, r: Run, reply: Reply, t: TurnInput): Batch {
    Batch(cfg, r.tools, r.started, CallsOf(reply.content), t.calls)
  }

  /** The tool results of a turn: none if the reply calls no tool. */
  function ResultsOf(b: Batch): seq<Message> {
    if b.calls == [] then [] else Messages(BatchFinals(b))
  }

  function BatchObs(b: Batch, schedule: seq<nat>): Log {
    if b.calls == [] then [] else BatchLog(b, schedule)
  }

  function StartedOf(b: Batch): nat {
    if b.calls == [] then 0 else StartedFrom(b, 0)
  }

  predicate Unanimous(b: Batch) {
    b.calls != [] && Terminates(BatchFinals(b))
  }

  function WithReply(r: Run, s: Streaming, reply: Reply): Run {
    r.(context := s.context, newMessages := r.newMessages + [Assistant(reply)], log := r.log + s.log)
  }

  function WithResults(r: Run, b: Batch, reply: Reply, schedule: seq<nat>): Run {
    var results := ResultsOf(b);
    r.(context := r.context + results,
       newMessages := r.newMessages + results,
       started := r.started + StartedOf(b),
       log := r.log + BatchObs(b, schedule) + [Loop(TurnEnd(reply, results))])
  }

  function Finish(r: Run): Run {
    r.(log := r.log + [Loop(AgentEnd(r.newMessages))])
  }

  /** `getSteeringMessages`. */
  function PollSteering(r: Run): (seq<Message>, Run) {
    if r.skipPoll then ([], r.(skipPoll := false))
    else (r.queues.steering.Next(), r.(queues := r.queues.(steering := r.queues.steering.Drain())))
  }

  /** `getFollowUpMessages`. */
  function PollFollowUp(r: Run): (seq<Message>, Run) {
    (r.queues.followUp.Next(), r.(queues := r.queues.(followUp := r.queues.followUp.Drain())))
  }

  function Act(r: Run, ops: seq<Op>): Run {
    r.(queues := r.queues.ApplyAll(ops))
  }

  function Replace(r: Run, t: TurnInput): Run {
    if t.replaced.None? then r else r.(context := t.replaced.value.0, tools := t.replaced.value.1)
  }

  /** From the end of a turn that was not stopped: drain the queues, go on or end. */
  function Proceed(r: Run, continues: bool, t: TurnInput): (Run, Status) {
    var (steered, r1) := PollSteering(Act(r, t.beforeSteering));
    if steered != [] then (r1.(pending := steered, source := Steering), Going)
    else if continues then (r1, Going)
    else
      var (followed, r2) := PollFollowUp(Act(r1, t.beforeFollowUp));
      if followed != [] then (r2.(pending := followed, source := FollowUp), Going)
      else (Finish(r2), Ended)
  }

  /** From the assistant's reply to the decision whether another turn follows. */
  function AfterReply(cfg: Config, r: Run, reply: Reply, t: TurnInput): (Run, Status) {
    if reply.stop.Error? || reply.stop.Aborted? then
      (Finish(r.(log := r.log + [Loop(TurnEnd(reply, []))])), Ended)
    else
      var b := BatchOf(cfg, r, reply, t);
      var r1 := WithResults(r, b, reply, t.schedule);
      if t.stopAfterTurn then (Finish(r1), Ended)
      else if ResultsOf(b) != [] && Unanimous(b) then (Finish(r1), Ended)
      else Proceed(Replace(r1, t), reply.stop.ToolUse?, t)
  }

  function Turn(cfg: Config, r: Run, t: TurnInput): (Run, Status) {
    var r1 := OpenTurn(r);
    var s := StreamReply(r1.context, t.stream);
    match t.stream.end
    case Broke(message, aborted) => (r1.(context := s.context, log := r1.log + s.log), Failed(message, aborted))
    case Replied(reply) => AfterReply(cfg, WithReply(r1, s, reply), reply, t)
  }

  /** `runLoop`, for as many turns as the script covers. `Going` at the end means the
      run is still under way there. */
  function Turns(cfg: Config, r: Run, script: seq<TurnInput>): (Run, Status)
    decreases |script|
  {
    if script == [] then (r, Going)
    else
      var (r1, status) := Turn(cfg, r, script[0]);
      if status == Going then Turns(cfg, r1, script[1..]) else (r1, status)
  }

  // ---------- Whole runs

  /** `runAgentLoop`: the prompts open the first turn. */
  function StartRun(context: seq<Message>, tools: seq<Tool>, prompts: seq<Message>, source: Source,
                    queues: Pair, skipPoll: bool, started: nat): Run {
    Run(context + prompts, tools, prompts, [], Steering, true, queues, skipPoll, started,
        [Loop(AgentStart), Loop(TurnStart)] + InjectLog(source, prompts))
  }

  /** The first steering poll of `runLoop`. */
  function FirstPoll(r: Run, ops: seq<Op>): Run {
    var (steered, r1) := PollSteering(Act(r, ops));
    r1.(pending := steered, source := Steering)
  }

  /** The message `handleRunFailure` closes a broken run with. */
  function FailureReply(message: string, aborted: bool): Reply {
    Reply([TextBlock("")], if aborted then Aborted else Error, Some(message))
  }

  function FailureLog(message: string, aborted: bool): Log {
    var reply := FailureReply(message, aborted);
    Announce(Assistant(reply)) + [Loop(TurnEnd(reply, [])), Loop(AgentEnd([Assistant(reply)]))]
  }

  /** A run as the agent performs it: `runWithLifecycle` closes a broken one. */
  function Perform(cfg: Config, r: Run, ops: seq<Op>, script: seq<TurnInput>): (Run, Status) {
    var (r1, status) := Turns(cfg, FirstPoll(r, ops), script);
    match status
    case Failed(message, aborted) => (r1.(log := r1.log + FailureLog(message, aborted)), Ended)
    case _ => (r1, status)
  }
}
