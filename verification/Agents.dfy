/** The `Agent` class of agent.ts: it owns the transcript and the two queues, runs the
    loop, and turns a broken stream into a closed turn. */
module Agents {
  import opened AgentTypes
  import opened AgentStates
  import opened Queues
  import opened ToolCalls
  import opened ToolBatches
  import ToolExecutors
  import opened AgentLoops
  import opened RunLogs
  import opened RunQueues
  import opened RunShape
  import opened RunTools

  // ---------- streamAssistantResponse

  lemma {:induction false} RelevantPrefix(events: seq<StreamEvent>, i: nat)
    requires i <= |events| && forall j | 0 <= j < i :: !events[j].Finished?
    requires i == |events| || events[i].Finished?
    ensures Relevant(events) == events[..i]
  {
    if i > 0 {
      RelevantPrefix(events[1..], i - 1);
      assert events[..i] == [events[0]] + events[1..][..i - 1];
    }
  }

  method StreamAssistantResponse(context0: seq<Message>, input: StreamInput) returns (context: seq<Message>, log: Log)
    ensures var s := StreamReply(context0, input); context == s.context && log == s.log
  {
    context, log := context0, [];
    var addedPartial := false;
    var i := 0;
    ghost var start := Streaming(context0, false, []);
    while i < |input.events| && !input.events[i].Finished?
      invariant i <= |input.events| && forall j | 0 <= j < i :: !input.events[j].Finished?
      invariant Streaming(context, addedPartial, log) == StreamAll(start, input.events[..i])
    {
      match input.events[i] {
        case Opened(partial) =>
          context := context + [Assistant(partial)];
          addedPartial := true;
          log := log + [Loop(MessageStart(Assistant(partial)))];
        case Updated(partial) =>
          if addedPartial {
            context := SetLast(context, Assistant(partial));
            log := log + [Loop(MessageUpdate(Assistant(partial)))];
          }
        case _ =>
      }
      assert input.events[..i + 1][..i] == input.events[..i];
      i := i + 1;
    }
    RelevantPrefix(input.events, i);
    if input.end.Replied? {
      var final := Assistant(input.end.reply);
      var opening: Log := if addedPartial then [] else [Loop(MessageStart(final))];
      context := if addedPartial then SetLast(context, final) else context + [final];
      log := log + opening + [Loop(MessageEnd(final))];
    }
  }

  lemma InjectLogSnoc(source: Source, ms: seq<Message>, i: nat)
    requires i < |ms|
    ensures InjectLog(source, ms[..i + 1]) == InjectLog(source, ms[..i]) + [Injected(source, ms[i])] + Announce(ms[i])
  {
    assert ms[..i + 1][..i] == ms[..i];
  }

  lemma ApplyAllSnoc(p: Pair, ops: seq<Op>, i: nat)
    requires i < |ops|
    ensures p.ApplyAll(ops[..i + 1]) == p.ApplyAll(ops[..i]).Apply(ops[i])
  {
    assert ops[..i + 1][..i] == ops[..i];
  }

  lemma InjectNext(before: Log, source: Source, ms: seq<Message>, i: nat)
    requires i < |ms|
    ensures before + InjectLog(source, ms[..i]) + ([Injected(source, ms[i])] + Announce(ms[i]))
         == before + InjectLog(source, ms[..i + 1])
  {
    InjectLogSnoc(source, ms, i);
  }

  /** Runs the tool calls of a reply, if it has any. */
  method ExecuteCalls(b: Batch, schedule: seq<nat>) returns (results: seq<Message>, allTerminate: bool, started: nat, log: Log)
    ensures results == ResultsOf(b) && log == BatchObs(b, schedule) && started == StartedOf(b)
    ensures allTerminate == Unanimous(b)
  {
    results, allTerminate, started, log := [], false, 0, [];
    if |b.calls| > 0 {
      results, allTerminate, started, log := ToolExecutors.ExecuteBatch(b, schedule);
    }
  }

  /** `r` accounts for everything its queues delivered, given what entered before it. */
  ghost predicate AccountedBy(past: Log, r: Run) {
    && r.queues.Conserved()
    && InjectedFrom(past + r.log, Steering) + InFlight(r, Steering) == r.queues.steering.drained
    && InjectedFrom(past + r.log, FollowUp) + InFlight(r, FollowUp) == r.queues.followUp.drained
  }

  lemma KeptIsAccounted(past: Log, r: Run)
    requires Kept(InjectedFrom(past, Steering), InjectedFrom(past, FollowUp), r)
    ensures AccountedBy(past, r)
  {
    InjectedConcat(past, r.log, Steering);
    InjectedConcat(past, r.log, FollowUp);
  }

  function From(source: Source, prompts: seq<Message>, queue: Source): seq<Message> {
    if source == queue then prompts else []
  }

  lemma RunKeepsAccount(cfg: Config, past: Log, context: seq<Message>, tools: seq<Tool>, prompts: seq<Message>, source: Source,
                        queues: Pair, skipPoll: bool, started: nat, ops: seq<Op>, script: seq<TurnInput>)
    requires queues.Conserved()
    requires queues.steering.drained == InjectedFrom(past, Steering) + From(source, prompts, Steering)
    requires queues.followUp.drained == InjectedFrom(past, FollowUp) + From(source, prompts, FollowUp)
    ensures var (f, status) := Perform(cfg, StartRun(context, tools, prompts, source, queues, skipPoll, started), ops, script);
            AccountedBy(past, f) && (status != Going ==> f.pending == [])
  {
    var steered, followed := InjectedFrom(past, Steering), InjectedFrom(past, FollowUp);
    var r := StartRun(context, tools, prompts, source, queues, skipPoll, started);
    StartKept(context, tools, prompts, source, queues, skipPoll, started, steered, followed);
    PerformKept(cfg, steered, followed, r, ops, script);
    KeptIsAccounted(past, Perform(cfg, r, ops, script).0);
  }

  lemma RunEndsIdle(cfg: Config, v: View, context: seq<Message>, tools: seq<Tool>, prompts: seq<Message>, source: Source,
                    queues: Pair, skipPoll: bool, started: nat, ops: seq<Op>, script: seq<TurnInput>)
    requires v.pending == {}
    ensures var (f, status) := Perform(cfg, StartRun(context, tools, prompts, source, queues, skipPoll, started), ops, script);
            status != Going ==> status == Ended && Replay(v, f.log).pending == {} && Replay(v, f.log).streaming == None
  {
    TraceIsWellFormed(cfg, context, tools, prompts, source, queues, skipPoll, started, ops, script);
    NothingPendingAtTurnEnds(cfg, v, context, tools, prompts, source, queues, skipPoll, started, ops, script);
    var (f, status) := Perform(cfg, StartRun(context, tools, prompts, source, queues, skipPoll, started), ops, script);
    if status == Ended { ClosedIsIdle(v, f.log); }
  }

  datatype Response = Ran(status: Status) | Refused(reason: string)

  /** The run `continue()` begins from an idle agent, or why it refuses. */
  function Continuation(context: seq<Message>, tools: seq<Tool>, queues: Pair, started: nat): Option<Run> {
    if context == [] then None
    else if !context[|context| - 1].Assistant? then Some(StartRun(context, tools, [], Prompted, queues, false, started))
    else if queues.steering.Next() != [] then
      Some(StartRun(context, tools, queues.steering.Next(), Steering, queues.(steering := queues.steering.Drain()), true, started))
    else if queues.followUp.Next() != [] then
      Some(StartRun(context, tools, queues.followUp.Next(), FollowUp, queues.(followUp := queues.followUp.Drain()), false, started))
    else None
  }

  /** After an assistant message the queues supply what comes next: steering first. */
  ghost predicate Chosen(before: Pair, queued: seq<Message>, source: Source, skipPoll: bool, after: Pair) {
    if before.steering.Next() != [] then
      && queued == before.steering.Next() && source == Steering && skipPoll
      && after == before.(steering := before.steering.Drain())
    else
      && queued == before.followUp.Next() && source == FollowUp && !skipPoll
      && after == before.(followUp := before.followUp.Drain())
  }

  lemma EmptyDrain(q: Queue)
    requires q.Next() == []
    ensures q.Drain() == q
  {
    assert q.messages[0..] == q.messages && q.drained + [] == q.drained;
  }

  lemma ChosenAccounts(before: Pair, queued: seq<Message>, source: Source, skipPoll: bool, after: Pair)
    requires Chosen(before, queued, source, skipPoll, after)
    ensures after.steering.drained == before.steering.drained + From(source, queued, Steering)
    ensures after.followUp.drained == before.followUp.drained + From(source, queued, FollowUp)
  {
  }

  lemma ChosenContinues(context: seq<Message>, tools: seq<Tool>, started: nat, before: Pair, queued: seq<Message>,
                        source: Source, skipPoll: bool, after: Pair)
    requires Chosen(before, queued, source, skipPoll, after)
    requires context != [] && context[|context| - 1].Assistant?
    ensures Continuation(context, tools, before, started)
         == if queued == [] then None else Some(StartRun(context, tools, queued, source, after, skipPoll, started))
    ensures queued == [] ==> after == before
  {
    if queued == [] { EmptyDrain(before.followUp); }
  }

  /** The local variables of `runLoop`. */
  datatype Locals = Locals(
    context: seq<Message>,
    tools: seq<Tool>,
    newMessages: seq<Message>,
    pending: seq<Message>,
    source: Source,
    firstTurn: bool,
    skipPoll: bool,
    started: nat)

  /** `r` with the fields that the end of a turn sets. */
  ghost function TurnClosed(r: Run, results: seq<Message>, started: nat, steps: Log, reply: Reply): Run {
    r.(context := r.context + results, newMessages := r.newMessages + results, started := r.started + started,
       log := r.log + steps + [Loop(TurnEnd(reply, results))])
  }

  lemma TurnClosedIsWithResults(r: Run, b: Batch, reply: Reply, schedule: seq<nat>)
    ensures TurnClosed(r, ResultsOf(b), StartedOf(b), BatchObs(b, schedule), reply) == WithResults(r, b, reply, schedule)
  {
  }

  class Agent {
    const state: AgentState
    const steeringQueue: PendingMessageQueue
    const followUpQueue: PendingMessageQueue
    const cfg: Config
    var tools: seq<Tool>
    var activeRun: bool
    /** Numbers the tool calls of the agent's runs, to tell them apart in the log. */
    var callCount: nat

    /** What a run under way has drained and not yet injected. */
    ghost var flightSource: Source
    ghost var flight: seq<Message>

    ghost function Pairs(): Pair
      reads this, steeringQueue, followUpQueue
    {
      Pair(steeringQueue.Value(), followUpQueue.Value())
    }

    /** Everything the agent ever observed. */
    ghost function Total(): Log
      reads this, state
    {
      state.past + state.log
    }

    ghost predicate Wired()
      reads this, state, steeringQueue, followUpQueue
    {
      state.Valid() && steeringQueue != followUpQueue && steeringQueue.Valid() && followUpQueue.Valid()
    }

    ghost function InFlightFrom(source: Source): seq<Message>
      reads this
    {
      if flightSource == source then flight else []
    }

    /** What a queue delivered, over the agent's whole life, is what entered the
        conversation from it or is about to. */
    ghost predicate Accounted()
      reads this, state, steeringQueue, followUpQueue
    {
      && InjectedFrom(Total(), Steering) + InFlightFrom(Steering) == steeringQueue.drained
      && InjectedFrom(Total(), Source.FollowUp) + InFlightFrom(Source.FollowUp) == followUpQueue.drained
    }

    ghost predicate Valid()
      reads this, state, steeringQueue, followUpQueue
    {
      && Wired() && Accounted()
      && (!activeRun ==> flight == [] && state.pendingToolCalls == {} && state.streamingMessage == None)
    }

    constructor (config: Config, messages: seq<Message>, initialTools: seq<Tool>, steeringMode: Mode, followUpMode: Mode)
      ensures Valid() && !activeRun && fresh(state) && fresh(steeringQueue) && fresh(followUpQueue)
      ensures state.messages == messages && tools == initialTools && cfg == config && callCount == 0
      ensures Pairs() == Pair(Queue([], steeringMode, [], []), Queue([], followUpMode, [], []))
    {
      cfg := config;
      tools := initialTools;
      state := new AgentState(messages);
      steeringQueue := new PendingMessageQueue(steeringMode);
      followUpQueue := new PendingMessageQueue(followUpMode);
      activeRun, callCount := false, 0;
      flightSource, flight := Prompted, [];
    }

    // ---------- The queues from outside

    method Steer(m: Message)
      requires Valid()
      modifies steeringQueue
      ensures Valid() && Pairs() == old(Pairs()).Apply(Op.Steer(m))
    {
      steeringQueue.Enqueue(m);
    }

    method FollowUp(m: Message)
      requires Valid()
      modifies followUpQueue
      ensures Valid() && Pairs() == old(Pairs()).Apply(FollowUpWith(m))
    {
      followUpQueue.Enqueue(m);
    }

    method HasQueuedMessages() returns (r: bool)
      requires Valid()
      ensures r <==> steeringQueue.drained < steeringQueue.enqueued || followUpQueue.drained < followUpQueue.enqueued
    {
      var s := steeringQueue.HasItems();
      var f := followUpQueue.HasItems();
      r := s || f;
    }

    method ClearAllQueues()
      requires Valid()
      modifies steeringQueue, followUpQueue
      ensures Valid() && Pairs() == Pair(old(Pairs()).steering.Clear(), old(Pairs()).followUp.Clear())
      ensures steeringQueue.messages == [] && followUpQueue.messages == []
      ensures steeringQueue.drained == old(steeringQueue.drained) && followUpQueue.drained == old(followUpQueue.drained)
    {
      steeringQueue.Clear();
      followUpQueue.Clear();
    }

    /** Between runs, each queue's enqueued sequence is what entered the conversation
        from it followed by what it still holds. */
    lemma NothingLost()
      requires Valid() && !activeRun
      ensures steeringQueue.enqueued == InjectedFrom(Total(), Steering) + steeringQueue.messages
      ensures followUpQueue.enqueued == InjectedFrom(Total(), Source.FollowUp) + followUpQueue.messages
    {
    }

    /** The callers' actions between two polls. */
    method ApplyOps(ops: seq<Op>)
      requires Wired()
      modifies steeringQueue, followUpQueue
      ensures Wired() && Pairs() == old(Pairs()).ApplyAll(ops)
    {
      for i := 0 to |ops|
        invariant Wired() && Pairs() == old(Pairs()).ApplyAll(ops[..i])
      {
        ApplyAllSnoc(old(Pairs()), ops, i);
        match ops[i] {
          case Steer(m) => steeringQueue.Enqueue(m);
          case FollowUpWith(m) => followUpQueue.Enqueue(m);
          case SteeringMode(mode) => steeringQueue.SetMode(mode);
          case FollowUpMode(mode) => followUpQueue.SetMode(mode);
        }
      }
      assert ops[..|ops|] == ops;
    }

    // ---------- runLoop

    /** The run the agent is driving: the loop's variables, its queues and its log. */
    ghost function AsRun(l: Locals): Run
      reads this, state, steeringQueue, followUpQueue
    {
      Run(l.context, l.tools, l.newMessages, l.pending, l.source, l.firstTurn, Pairs(), l.skipPoll, l.started, state.log)
    }

    /** Injects the pending messages before the next assistant response. */
    method InjectPending(source: Source, pending: seq<Message>)
      requires Wired()
      modifies state
      ensures Wired() && state.log == old(state.log) + InjectLog(source, pending)
      ensures state.origin == old(state.origin) && state.past == old(state.past)
    {
      for i := 0 to |pending|
        invariant Wired() && state.origin == old(state.origin) && state.past == old(state.past)
        invariant state.log == old(state.log) + InjectLog(source, pending[..i])
      {
        InjectLogSnoc(source, pending, i);
        InjectNext(old(state.log), source, pending, i);
        state.ObserveAll([Injected(source, pending[i])] + Announce(pending[i]));
      }
      assert pending[..|pending|] == pending;
    }

    method BeginTurn(l: Locals) returns (n: Locals)
      requires Wired()
      modifies state
      ensures Wired() && AsRun(n) == OpenTurn(old(AsRun(l)))
      ensures state.origin == old(state.origin) && state.past == old(state.past)
    {
      if l.firstTurn {
        assert state.log == state.log + [];
      } else {
        state.Observe(Loop(TurnStart));
      }
      InjectPending(l.source, l.pending);
      n := l.(context := l.context + l.pending, newMessages := l.newMessages + l.pending, pending := [], firstTurn := false);
    }

    /** The tool batch of a reply and the end of its turn. */
    method FinishTurn(l: Locals, reply: Reply, t: TurnInput) returns (n: Locals, terminate: bool)
      requires Wired()
      modifies state
      ensures var r := old(AsRun(l)); var b := BatchOf(cfg, r, reply, t);
              && Wired() && AsRun(n) == WithResults(r, b, reply, t.schedule)
              && terminate == (ResultsOf(b) != [] && Unanimous(b))
      ensures state.origin == old(state.origin) && state.past == old(state.past)
    {
      var b := Batch(cfg, l.tools, l.started, CallsOf(reply.content), t.calls);
      TurnClosedIsWithResults(AsRun(l), b, reply, t.schedule);
      var results, allTerminate, started, log := ExecuteCalls(b, t.schedule);
      terminate := |results| > 0 && allTerminate;
      n := CloseTurn(l, reply, results, started, log);
    }

    method CloseTurn(l: Locals, reply: Reply, results: seq<Message>, started: nat, steps: Log) returns (n: Locals)
      requires Wired()
      modifies state
      ensures Wired() && AsRun(n) == TurnClosed(old(AsRun(l)), results, started, steps, reply)
      ensures state.origin == old(state.origin) && state.past == old(state.past)
    {
      n := l.(context := l.context + results, newMessages := l.newMessages + results, started := l.started + started);
      state.ObserveAll(steps);
      state.Observe(Loop(TurnEnd(reply, results)));
    }

    method EndRun(l: Locals)
      requires Wired()
      modifies state
      ensures Wired() && AsRun(l) == Finish(old(AsRun(l)))
      ensures state.origin == old(state.origin) && state.past == old(state.past)
    {
      state.Observe(Loop(AgentEnd(l.newMessages)));
    }

    /** `getSteeringMessages`, with the flag of `createLoopConfig`. */
    method GetSteeringMessages(l: Locals) returns (queued: seq<Message>, n: Locals)
      requires Wired()
      modifies steeringQueue
      ensures Wired() && (queued, AsRun(n)) == PollSteering(old(AsRun(l)))
    {
      if l.skipPoll {
        queued, n := [], l.(skipPoll := false);
      } else {
        queued := steeringQueue.Drain();
        n := l;
      }
    }

    /** Draining the queues after a turn that was not stopped. */
    method Advance(l: Locals, continues: bool, t: TurnInput) returns (n: Locals, status: Status)
      requires Wired()
      modifies state, steeringQueue, followUpQueue
      ensures Wired() && (AsRun(n), status) == Proceed(old(AsRun(l)), continues, t)
      ensures state.origin == old(state.origin) && state.past == old(state.past)
    {
      ApplyOps(t.beforeSteering);
      var queued, l1 := GetSteeringMessages(l);
      if |queued| > 0 {
        n, status := l1.(pending := queued, source := Steering), Going;
      } else if continues {
        n, status := l1, Going;
      } else {
        ApplyOps(t.beforeFollowUp);
        queued := followUpQueue.Drain();
        if |queued| > 0 {
          n, status := l1.(pending := queued, source := Source.FollowUp), Going;
        } else {
          EndRun(l1);
          n, status := l1, Ended;
        }
      }
    }

    method TakeReply(l: Locals, reply: Reply, t: TurnInput) returns (n: Locals, status: Status)
      requires Wired()
      modifies state, steeringQueue, followUpQueue
      ensures Wired() && (AsRun(n), status) == AfterReply(cfg, old(AsRun(l)), reply, t)
      ensures state.origin == old(state.origin) && state.past == old(state.past)
    {
      if reply.stop.Error? || reply.stop.Aborted? {
        state.Observe(Loop(TurnEnd(reply, [])));
        EndRun(l);
        n, status := l, Ended;
      } else {
        var l1, terminate := FinishTurn(l, reply, t);
        if t.stopAfterTurn || terminate {
          EndRun(l1);
          n, status := l1, Ended;
        } else {
          var l2 := if t.replaced.None? then l1 else l1.(context := t.replaced.value.0, tools := t.replaced.value.1);
          n, status := Advance(l2, reply.stop.ToolUse?, t);
        }
      }
    }

    method RunTurn(l: Locals, t: TurnInput) returns (n: Locals, status: Status)
      requires Wired()
      modifies state, steeringQueue, followUpQueue
      ensures Wired() && (AsRun(n), status) == Turn(cfg, old(AsRun(l)), t)
      ensures state.origin == old(state.origin) && state.past == old(state.past)
    {
      var l1 := BeginTurn(l);
      var context, log := StreamAssistantResponse(l1.context, t.stream);
      state.ObserveAll(log);
      match t.stream.end {
        case Broke(message, aborted) =>
          n, status := l1.(context := context), Failed(message, aborted);
        case Replied(reply) =>
          var l2 := l1.(context := context, newMessages := l1.newMessages + [Assistant(reply)]);
          n, status := TakeReply(l2, reply, t);
      }
    }

    /** `runLoop`, over as many turns as the script covers. */
    method RunLoop(l0: Locals, ops: seq<Op>, script: seq<TurnInput>) returns (l: Locals, status: Status)
      requires Wired()
      modifies state, steeringQueue, followUpQueue
      ensures Wired() && (AsRun(l), status) == Turns(cfg, FirstPoll(old(AsRun(l0)), ops), script)
      ensures state.origin == old(state.origin) && state.past == old(state.past)
    {
      ghost var r0 := FirstPoll(AsRun(l0), ops);
      ApplyOps(ops);
      var queued, l1 := GetSteeringMessages(l0);
      l, status := l1.(pending := queued, source := Steering), Going;
      var i := 0;
      while i < |script| && status == Going
        invariant i <= |script| && Wired()
        invariant state.origin == old(state.origin) && state.past == old(state.past)
        invariant if status == Going then Turns(cfg, AsRun(l), script[i..]) == Turns(cfg, r0, script)
                  else (AsRun(l), status) == Turns(cfg, r0, script)
        decreases |script| - i
      {
        assert script[i..][0] == script[i] && script[i..][1..] == script[i + 1..];
        l, status := RunTurn(l, script[i]);
        i := i + 1;
      }
    }

    // ---------- A whole run

    /** The run that would begin now. */
    ghost function RunFrom(prompts: seq<Message>, source: Source, skipPoll: bool): Run
      reads this, state, steeringQueue, followUpQueue
    {
      StartRun(state.messages, tools, prompts, source, Pairs(), skipPoll, callCount)
    }

    /** `runAgentLoop` and `runAgentLoopContinue` up to `runLoop`. */
    method OpenRun(prompts: seq<Message>, source: Source, skipPoll: bool) returns (l: Locals)
      requires Wired()
      modifies state
      ensures Wired() && AsRun(l) == old(RunFrom(prompts, source, skipPoll)) && state.past == old(Total())
      ensures state.origin == old(state.Current()).(streaming := None, error := None)
    {
      state.BeginRun();
      l := Locals(state.messages + prompts, tools, prompts, [], Steering, true, skipPoll, callCount);
      var opening: Log := [Loop(AgentStart), Loop(TurnStart)];
      state.ObserveAll(opening);
      assert [] + opening == opening;
      InjectPending(source, prompts);
    }

    /** `l0` opens a run over an idle state whose queues are accounted for. */
    ghost predicate Poised(l0: Locals, prompts: seq<Message>, source: Source, context: seq<Message>)
      reads this, state, steeringQueue, followUpQueue
    {
      var queues := Pairs();
      && state.origin.pending == {} && queues.Conserved()
      && queues.steering.drained == InjectedFrom(state.past, Steering) + From(source, prompts, Steering)
      && queues.followUp.drained == InjectedFrom(state.past, Source.FollowUp) + From(source, prompts, Source.FollowUp)
      && AsRun(l0) == StartRun(context, l0.tools, prompts, source, queues, l0.skipPoll, l0.started)
    }

    method ExecuteOpened(l0: Locals, ops: seq<Op>, script: seq<TurnInput>, ghost prompts: seq<Message>, ghost source: Source,
                         ghost context: seq<Message>)
      returns (l: Locals, status: Status)
      requires Wired() && Poised(l0, prompts, source, context)
      modifies state, steeringQueue, followUpQueue
      ensures Wired() && (AsRun(l), status) == Perform(cfg, old(AsRun(l0)), ops, script)
      ensures state.origin == old(state.origin) && state.past == old(state.past)
      ensures AccountedBy(state.past, AsRun(l))
      ensures status == Going
           || (status == Ended && l.pending == [] && state.pendingToolCalls == {} && state.streamingMessage == None)
    {
      RunKeepsAccount(cfg, state.past, context, l0.tools, prompts, source, Pairs(), l0.skipPoll, l0.started, ops, script);
      RunEndsIdle(cfg, state.origin, context, l0.tools, prompts, source, Pairs(), l0.skipPoll, l0.started, ops, script);
      l, status := Execute(l0, ops, script);
    }

    /** Runs the loop and, if its stream threw, closes the open turn (`handleRunFailure`). */
    method Execute(l0: Locals, ops: seq<Op>, script: seq<TurnInput>) returns (l: Locals, status: Status)
      requires Wired()
      modifies state, steeringQueue, followUpQueue
      ensures Wired() && (AsRun(l), status) == Perform(cfg, old(AsRun(l0)), ops, script)
      ensures state.origin == old(state.origin) && state.past == old(state.past)
    {
      l, status := RunLoop(l0, ops, script);
      match status {
        case Failed(message, aborted) =>
          state.ObserveAll(FailureLog(message, aborted));
          status := Ended;
        case _ =>
      }
    }

    /** What the start of a run leaves for its end to settle. */
    method StartLifecycle(prompts: seq<Message>, source: Source, skipPoll: bool) returns (l: Locals)
      requires Wired() && Accounted() && !activeRun && state.pendingToolCalls == {}
      requires flightSource == source && flight == prompts
      modifies this`activeRun, state
      ensures activeRun && Wired() && AsRun(l) == old(RunFrom(prompts, source, skipPoll)) && Poised(l, prompts, source, old(state.messages))
      ensures state.past == old(Total()) && state.origin == old(state.Current()).(streaming := None, error := None)
    {
      activeRun := true;
      l := OpenRun(prompts, source, skipPoll);
    }

    /** `finishRun`, unless the run is still under way. */
    method EndLifecycle(l: Locals, status: Status)
      requires Wired() && AccountedBy(state.past, AsRun(l)) && activeRun
      requires status == Going
            || (status == Ended && l.pending == [] && state.pendingToolCalls == {} && state.streamingMessage == None)
      modifies this`activeRun, this`callCount, this`flight, this`flightSource, state
      ensures Valid() && activeRun == (status == Going) && callCount == l.started
      ensures state.log == old(state.log) && state.past == old(state.past) && state.origin == old(state.origin)
    {
      callCount, flight, flightSource := l.started, l.pending, l.source;
      if status != Going {
        state.FinishRun();
        activeRun := false;
      }
    }

    /** `runWithLifecycle`, with `prompts` drained from `source`. */
    method RunWithLifecycle(prompts: seq<Message>, source: Source, skipPoll: bool, ops: seq<Op>, script: seq<TurnInput>)
      returns (status: Status)
      requires Wired() && Accounted() && !activeRun && state.pendingToolCalls == {}
      requires flightSource == source && flight == prompts
      modifies this`activeRun, this`callCount, this`flight, this`flightSource, state, steeringQueue, followUpQueue
      ensures Valid() && state.past == old(Total())
      ensures state.origin == old(state.Current()).(streaming := None, error := None)
      ensures Performed(old(RunFrom(prompts, source, skipPoll)), ops, script, status)
    {
      var l := StartLifecycle(prompts, source, skipPoll);
      l, status := ExecuteOpened(l, ops, script, prompts, source, old(state.messages));
      EndLifecycle(l, status);
    }

    /** The agent is where performing `r0` leads. */
    ghost predicate Performed(r0: Run, ops: seq<Op>, script: seq<TurnInput>, status: Status)
      reads this, state, steeringQueue, followUpQueue
    {
      var (f, s) := Perform(cfg, r0, ops, script);
      && status == s && activeRun == (s == Going)
      && state.log == f.log && Pairs() == f.queues && callCount == f.started
    }

    /** `runPromptMessages`, with messages drained from `source`. */
    method RunPromptMessages(messages: seq<Message>, source: Source, skipPoll: bool, ops: seq<Op>, script: seq<TurnInput>)
      returns (status: Status)
      requires Wired() && !activeRun && flight == [] && state.pendingToolCalls == {}
      requires Drawn(messages, source)
      modifies this`activeRun, this`callCount, this`flight, this`flightSource, state, steeringQueue, followUpQueue
      ensures Valid() && Performed(old(RunFrom(messages, source, skipPoll)), ops, script, status)
      ensures state.past == old(Total()) && state.origin == old(state.Current()).(streaming := None, error := None)
    {
      flight, flightSource := messages, source;
      status := RunWithLifecycle(messages, source, skipPoll, ops, script);
    }

    method Prompt(messages: seq<Message>, ops: seq<Op>, script: seq<TurnInput>) returns (r: Response)
      requires Valid()
      modifies this`activeRun, this`callCount, this`flight, this`flightSource, state, steeringQueue, followUpQueue
      ensures Valid() && (r.Refused? <==> old(activeRun))
      ensures r.Refused? ==> unchanged(this) && unchanged(state) && unchanged(steeringQueue) && unchanged(followUpQueue)
      ensures r.Ran? ==> state.past == old(Total()) && state.origin == old(state.Current()).(streaming := None, error := None)
      ensures r.Ran? ==> Performed(old(RunFrom(messages, Prompted, false)), ops, script, r.status)
    {
      if activeRun {
        return Refused("Agent is already processing a prompt.");
      }
      var status := RunPromptMessages(messages, Prompted, false, ops, script);
      r := Ran(status);
    }

    /** `messages` have been drained from `source` and entered nothing yet. */
    ghost predicate Drawn(messages: seq<Message>, source: Source)
      reads this, state, steeringQueue, followUpQueue
    {
      && steeringQueue.drained == InjectedFrom(Total(), Steering) + From(source, messages, Steering)
      && followUpQueue.drained == InjectedFrom(Total(), Source.FollowUp) + From(source, messages, Source.FollowUp)
    }

    /** `continue()` after an assistant message. */
    method DrainToContinue() returns (queued: seq<Message>, source: Source, skipPoll: bool)
      requires Wired() && Drawn([], Prompted)
      modifies steeringQueue, followUpQueue
      ensures Wired() && Drawn(queued, source) && Chosen(old(Pairs()), queued, source, skipPoll, Pairs())
    {
      queued := steeringQueue.Drain();
      source, skipPoll := Steering, true;
      if |queued| == 0 {
        EmptyDrain(old(Pairs()).steering);
        queued := followUpQueue.Drain();
        source, skipPoll := Source.FollowUp, false;
      }
      ChosenAccounts(old(Pairs()), queued, source, skipPoll, Pairs());
    }

    /** `continue()` after an assistant message: the queues must supply what comes next. */
    method ContinueFromQueues(ops: seq<Op>, script: seq<TurnInput>) returns (r: Response)
      requires Valid() && !activeRun && state.messages != [] && state.messages[|state.messages| - 1].Assistant?
      modifies this`activeRun, this`callCount, this`flight, this`flightSource, state, steeringQueue, followUpQueue
      ensures Valid()
      ensures r.Refused? ==> !activeRun && Pairs() == old(Pairs()) && unchanged(state)
      ensures r.Ran? ==> state.past == old(Total())
      ensures match old(Continuation(state.messages, tools, Pairs(), callCount))
              case None => r.Refused?
              case Some(r0) => r.Ran? && Performed(r0, ops, script, r.status)
    {
      var queued, source, skipPoll := DrainToContinue();
      ChosenContinues(state.messages, tools, callCount, old(Pairs()), queued, source, skipPoll, Pairs());
      if |queued| == 0 {
        return Refused("Cannot continue from message role: assistant");
      }
      var status := RunPromptMessages(queued, source, skipPoll, ops, script);
      r := Ran(status);
    }

    method Continue(ops: seq<Op>, script: seq<TurnInput>) returns (r: Response)
      requires Valid()
      modifies this`activeRun, this`callCount, this`flight, this`flightSource, state, steeringQueue, followUpQueue
      ensures Valid()
      ensures r.Refused? ==> activeRun == old(activeRun) && Pairs() == old(Pairs()) && unchanged(state)
      ensures r.Ran? ==> state.past == old(Total())
      ensures match old(if activeRun then None else Continuation(state.messages, tools, Pairs(), callCount))
              case None => r.Refused?
              case Some(r0) => r.Ran? && Performed(r0, ops, script, r.status)
    {
      if activeRun {
        return Refused("Agent is already processing.");
      }
      if |state.messages| == 0 {
        return Refused("No messages to continue from");
      }
      if state.messages[|state.messages| - 1].Assistant? {
        r := ContinueFromQueues(ops, script);
      } else {
        assert state.messages + [] == state.messages;
        var status := RunPromptMessages([], Prompted, false, ops, script);
        r := Ran(status);
      }
    }
  }
}
