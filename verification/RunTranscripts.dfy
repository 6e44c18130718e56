/** The loop's context, the messages it returns and the agent's own transcript agree. */
module RunTranscripts {
  import opened Ordering
  import opened AgentTypes
  import opened AgentStates
  import opened Queues
  import opened ToolCalls
  import opened ToolBatches
  import opened AgentLoops
  import opened RunLogs
  import opened RunShape

  lemma SaidInjected(before: Log, source: Source, m: Message)
    ensures Said(before + [Injected(source, m)] + Announce(m)) == Said(before) + [m]
  {
    SaidThree(before, [Injected(source, m)], Announce(m));
    SaidNothing([Injected(source, m)]);
    SaidAnnounce(m);
    assert Said(before) + [] + [m] == Said(before) + [m];
  }

  lemma {:induction false} SaidInject(source: Source, ms: seq<Message>)
    ensures Said(InjectLog(source, ms)) == ms
  {
    if ms == [] {
    } else {
      var init := ms[..|ms| - 1];
      SaidInject(source, init);
      SaidInjected(InjectLog(source, init), source, ms[|ms| - 1]);
      assert init + [ms[|ms| - 1]] == ms;
    }
  }

  // ---------- The stream

  /** How many `start` events the stream delivers. */
  function Starts(events: seq<StreamEvent>): nat {
    if events == [] then 0
    else Starts(events[..|events| - 1]) + if events[|events| - 1].Opened? then 1 else 0
  }

  /** `n` messages of the stream have been added to the context so far. */
  ghost predicate Grown(context: seq<Message>, n: nat, s: Streaming) {
    && |s.context| == |context| + n && s.context[..|context|] == context
    && (s.added <==> n > 0) && Said(s.log) == []
  }

  lemma StepGrows(context: seq<Message>, n: nat, s: Streaming, e: StreamEvent)
    requires Grown(context, n, s)
    ensures Grown(context, n + if e.Opened? then 1 else 0, StreamStep(s, e))
  {
    var next := StreamStep(s, e);
    if next.log != s.log {
      var o := if e.Opened? then Loop(MessageStart(Assistant(e.partial))) else Loop(MessageUpdate(Assistant(e.partial)));
      SaidSilent(s.log, o);
    }
  }

  lemma SaidSilent(log: Log, o: Obs)
    requires SaidBy(o) == []
    ensures Said(log + [o]) == Said(log)
  {
    SaidConcat(log, [o]);
    SaidNothing([o]);
  }

  /** While streaming, every `start` adds a message to the context, and none is
      reported as complete. */
  lemma {:induction false} StreamGrows(context: seq<Message>, events: seq<StreamEvent>)
    ensures Grown(context, Starts(events), StreamAll(Streaming(context, false, []), events))
  {
    if events == [] {
    } else {
      var init := events[..|events| - 1];
      StreamGrows(context, init);
      StepGrows(context, Starts(init), StreamAll(Streaming(context, false, []), init), events[|events| - 1]);
    }
  }

  /** The final message takes the place of the last partial one. */
  lemma StreamEnds(context: seq<Message>, input: StreamInput)
    requires input.end.Replied?
    ensures var s := StreamReply(context, input); var n := Starts(Relevant(input.events));
            && |s.context| == |context| + (if n == 0 then 1 else n)
            && s.context[..|context|] == context && s.context[|s.context| - 1] == Assistant(input.end.reply)
            && Said(s.log) == [Assistant(input.end.reply)]
  {
    var events := Relevant(input.events);
    var s := StreamAll(Streaming(context, false, []), events);
    var m := Assistant(input.end.reply);
    StreamGrows(context, events);
    var opening: Log := if s.added then [] else [Loop(MessageStart(m))];
    SaidThree(s.log, opening, [Loop(MessageEnd(m))]);
    SaidNothing(opening);
    assert Said([Loop(MessageEnd(m))]) == [m] by { assert [Loop(MessageEnd(m))][..0] == []; }
  }

  /** The context gains exactly the reply if and only if the stream starts at most one
      message; the agent's transcript gains exactly the reply in any case. */
  lemma StreamAgreesIff(context: seq<Message>, input: StreamInput)
    requires input.end.Replied?
    ensures (StreamReply(context, input).context == context + [Assistant(input.end.reply)])
            <==> Starts(Relevant(input.events)) <= 1
    ensures Said(StreamReply(context, input).log) == [Assistant(input.end.reply)]
  {
    StreamEnds(context, input);
    var s := StreamReply(context, input);
    if Starts(Relevant(input.events)) <= 1 {
      assert s.context == s.context[..|context|] + [s.context[|context|]];
    }
  }

  // ---------- The turn

  /** The three transcripts agree, counting from the agent's messages at the start. */
  ghost predicate Agree(start: seq<Message>, r: Run) {
    && start + Said(r.log) == r.context
    && r.context == start + r.newMessages
  }

  /** A stream conforms to the protocol if it starts at most one message. */
  predicate Conforms(t: TurnInput) {
    t.replaced.None? && Starts(Relevant(t.stream.events)) <= 1
  }

  lemma Append(start: seq<Message>, log: Log, more: Log, context: seq<Message>, added: seq<Message>, newMessages: seq<Message>)
    requires start + Said(log) == context && context == start + newMessages && Said(more) == added
    ensures start + Said(log + more) == context + added && context + added == start + (newMessages + added)
  {
    SaidConcat(log, more);
    Regroup(start, Said(log), added);
    Regroup(start, newMessages, added);
  }

  lemma OpenTurnAgrees(start: seq<Message>, r: Run)
    requires Agree(start, r)
    ensures Agree(start, OpenTurn(r))
  {
    var opening: Log := if r.firstTurn then [] else [Loop(TurnStart)];
    SaidOpening(opening, r.source, r.pending);
    Append(start, r.log, opening + InjectLog(r.source, r.pending), r.context, r.pending, r.newMessages);
    assert r.log + opening + InjectLog(r.source, r.pending) == r.log + (opening + InjectLog(r.source, r.pending));
  }

  lemma SaidOpening(opening: Log, source: Source, ms: seq<Message>)
    requires forall o | o in opening :: SaidBy(o) == []
    ensures Said(opening + InjectLog(source, ms)) == ms
  {
    SaidNothing(opening);
    SaidInject(source, ms);
    SaidConcat(opening, InjectLog(source, ms));
    assert [] + ms == ms;
  }

  lemma ReplyAgrees(start: seq<Message>, r: Run, input: StreamInput)
    requires Agree(start, r) && input.end.Replied? && Starts(Relevant(input.events)) <= 1
    ensures Agree(start, WithReply(r, StreamReply(r.context, input), input.end.reply))
  {
    StreamAgreesIff(r.context, input);
    Append(start, r.log, StreamReply(r.context, input).log, r.context, [Assistant(input.end.reply)], r.newMessages);
  }

  lemma SaidBatchObs(b: Batch, schedule: seq<nat>)
    ensures Said(BatchObs(b, schedule)) == ResultsOf(b)
  {
    BatchSaid(b, schedule);
  }

  lemma ResultsAgree(start: seq<Message>, r: Run, b: Batch, reply: Reply, schedule: seq<nat>)
    requires Agree(start, r)
    ensures Agree(start, WithResults(r, b, reply, schedule))
  {
    SaidBatchObs(b, schedule);
    Append(start, r.log, BatchObs(b, schedule), r.context, ResultsOf(b), r.newMessages);
    SaidSilent(r.log + BatchObs(b, schedule), Loop(TurnEnd(reply, ResultsOf(b))));
  }

  lemma FinishAgrees(start: seq<Message>, r: Run)
    requires Agree(start, r)
    ensures Agree(start, Finish(r))
  {
    SaidSilent(r.log, Loop(AgentEnd(r.newMessages)));
  }

  lemma ProceedAgrees(start: seq<Message>, r: Run, continues: bool, t: TurnInput)
    requires Agree(start, r)
    ensures Agree(start, Proceed(r, continues, t).0)
  {
    var (steered, r1) := PollSteering(Act(r, t.beforeSteering));
    var (followed, r2) := PollFollowUp(Act(r1, t.beforeFollowUp));
    assert Agree(start, r1) && Agree(start, r2);
    FinishAgrees(start, r2);
  }

  lemma AfterReplyAgrees(cfg: Config, start: seq<Message>, r: Run, reply: Reply, t: TurnInput)
    requires Agree(start, r) && t.replaced.None?
    ensures Agree(start, AfterReply(cfg, r, reply, t).0)
  {
    if reply.stop.Error? || reply.stop.Aborted? {
      var r1 := r.(log := r.log + [Loop(TurnEnd(reply, []))]);
      SaidSilent(r.log, Loop(TurnEnd(reply, [])));
      FinishAgrees(start, r1);
    } else {
      var b := BatchOf(cfg, r, reply, t);
      var r1 := WithResults(r, b, reply, t.schedule);
      ResultsAgree(start, r, b, reply, t.schedule);
      FinishAgrees(start, r1);
      ProceedAgrees(start, r1, reply.stop.ToolUse?, t);
    }
  }

  lemma TurnAgrees(cfg: Config, start: seq<Message>, r: Run, t: TurnInput)
    requires Agree(start, r) && Conforms(t) && t.stream.end.Replied?
    ensures Agree(start, Turn(cfg, r, t).0)
  {
    var r1 := OpenTurn(r);
    OpenTurnAgrees(start, r);
    ReplyAgrees(start, r1, t.stream);
    AfterReplyAgrees(cfg, start, WithReply(r1, StreamReply(r1.context, t.stream), t.stream.end.reply), t.stream.end.reply, t);
  }

  /** No turn that is taken replaces the context or lets its stream throw. */
  ghost predicate Plain(cfg: Config, r: Run, script: seq<TurnInput>) {
    forall i | 0 <= i < TurnsTaken(cfg, r, script) :: script[i].replaced.None? && script[i].stream.end.Replied?
  }

  /** Every stream that is read starts at most one message. */
  ghost predicate AllConform(cfg: Config, r: Run, script: seq<TurnInput>) {
    forall i | 0 <= i < TurnsTaken(cfg, r, script) :: Starts(Relevant(script[i].stream.events)) <= 1
  }

  /** A property of the turns taken holds of the first and of those taken after it. */
  lemma TakenTail(cfg: Config, r: Run, script: seq<TurnInput>, n: Run, ok: TurnInput -> bool)
    requires script != [] && Turn(cfg, r, script[0]) == (n, Going)
    ensures (forall i | 0 <= i < TurnsTaken(cfg, r, script) :: ok(script[i]))
       <==> ok(script[0]) && forall i | 0 <= i < TurnsTaken(cfg, n, script[1..]) :: ok(script[1..][i])
  {
    var k := TurnsTaken(cfg, n, script[1..]);
    assert TurnsTaken(cfg, r, script) == 1 + k;
    TailForall(script, k, ok);
  }

  lemma TailForall(script: seq<TurnInput>, k: nat, ok: TurnInput -> bool)
    requires script != [] && 1 + k <= |script|
    ensures (forall i | 0 <= i < 1 + k :: ok(script[i])) <==> ok(script[0]) && forall i | 0 <= i < k :: ok(script[1..][i])
  {
    if ok(script[0]) && forall i | 0 <= i < k :: ok(script[1..][i]) {
      forall i | 0 <= i < 1 + k ensures ok(script[i]) {
        if i > 0 { assert script[i] == script[1..][i - 1]; }
      }
    }
    if forall i | 0 <= i < 1 + k :: ok(script[i]) {
      forall i | 0 <= i < k ensures ok(script[1..][i]) { assert script[1..][i] == script[i + 1]; }
    }
  }

  lemma PlainTail(cfg: Config, r: Run, script: seq<TurnInput>, n: Run)
    requires script != [] && Turn(cfg, r, script[0]) == (n, Going)
    ensures Plain(cfg, r, script) <==>
              script[0].replaced.None? && script[0].stream.end.Replied? && Plain(cfg, n, script[1..])
  {
    TakenTail(cfg, r, script, n, (t: TurnInput) => t.replaced.None? && t.stream.end.Replied?);
  }

  lemma ConformTail(cfg: Config, r: Run, script: seq<TurnInput>, n: Run)
    requires script != [] && Turn(cfg, r, script[0]) == (n, Going)
    ensures AllConform(cfg, r, script) <==>
              Starts(Relevant(script[0].stream.events)) <= 1 && AllConform(cfg, n, script[1..])
  {
    TakenTail(cfg, r, script, n, (t: TurnInput) => Starts(Relevant(t.stream.events)) <= 1);
  }

  lemma {:induction false} TurnsAgree(cfg: Config, start: seq<Message>, r: Run, script: seq<TurnInput>)
    requires Agree(start, r) && Plain(cfg, r, script) && AllConform(cfg, r, script)
    ensures Agree(start, Turns(cfg, r, script).0)
    decreases |script|
  {
    if script != [] {
      assert TurnsTaken(cfg, r, script) > 0;
      TurnAgrees(cfg, start, r, script[0]);
      if Turn(cfg, r, script[0]).1 == Going {
        PlainTail(cfg, r, script, Turn(cfg, r, script[0]).0);
        ConformTail(cfg, r, script, Turn(cfg, r, script[0]).0);
        TurnsAgree(cfg, start, Turn(cfg, r, script[0]).0, script[1..]);
      }
    }
  }

  /** By how much the context has outgrown the new messages. */
  function Excess(r: Run): int {
    |r.context| - |r.newMessages|
  }

  lemma ProceedExcess(r: Run, continues: bool, t: TurnInput)
    ensures Excess(Proceed(r, continues, t).0) == Excess(r)
  {
  }

  lemma AfterReplyExcess(cfg: Config, r: Run, reply: Reply, t: TurnInput)
    requires t.replaced.None?
    ensures Excess(AfterReply(cfg, r, reply, t).0) == Excess(r)
  {
    if !reply.stop.Error? && !reply.stop.Aborted? {
      var r1 := WithResults(r, BatchOf(cfg, r, reply, t), reply, t.schedule);
      assert Excess(r1) == Excess(r);
      ProceedExcess(r1, reply.stop.ToolUse?, t);
    }
  }

  lemma TurnExcess(cfg: Config, r: Run, t: TurnInput)
    requires t.replaced.None? && t.stream.end.Replied?
    ensures Excess(Turn(cfg, r, t).0) >= Excess(r)
    ensures Starts(Relevant(t.stream.events)) > 1 ==> Excess(Turn(cfg, r, t).0) > Excess(r)
  {
    var r1 := OpenTurn(r);
    StreamEnds(r1.context, t.stream);
    AfterReplyExcess(cfg, WithReply(r1, StreamReply(r1.context, t.stream), t.stream.end.reply), t.stream.end.reply, t);
  }

  /** A second start leaves a message in the context for good. */
  lemma {:induction false} TurnsExcess(cfg: Config, r: Run, script: seq<TurnInput>)
    requires Plain(cfg, r, script)
    ensures Excess(Turns(cfg, r, script).0) >= Excess(r)
    ensures !AllConform(cfg, r, script) ==> Excess(Turns(cfg, r, script).0) > Excess(r)
    decreases |script|
  {
    if script != [] {
      assert TurnsTaken(cfg, r, script) > 0;
      TurnExcess(cfg, r, script[0]);
      if Turn(cfg, r, script[0]).1 == Going {
        PlainTail(cfg, r, script, Turn(cfg, r, script[0]).0);
        ConformTail(cfg, r, script, Turn(cfg, r, script[0]).0);
        TurnsExcess(cfg, Turn(cfg, r, script[0]).0, script[1..]);
      }
    }
  }

  lemma StartAgrees(context: seq<Message>, tools: seq<Tool>, prompts: seq<Message>, source: Source, queues: Pair,
                    skipPoll: bool, started: nat)
    ensures Agree(context, StartRun(context, tools, prompts, source, queues, skipPoll, started))
  {
    SaidOpening([Loop(AgentStart), Loop(TurnStart)], source, prompts);
  }

  /** At a turn boundary of a run that neither throws nor has its context replaced, the
      agent's reduced transcript, the loop's context, and the initial messages followed by
      the loop's new messages are the same sequence if and only if every stream so far
      started at most one message. */
  lemma TranscriptsAgreeIff(cfg: Config, v: View, tools: seq<Tool>, prompts: seq<Message>, source: Source, queues: Pair,
                            skipPoll: bool, started: nat, ops: seq<Op>, script: seq<TurnInput>)
    requires Plain(cfg, FirstPoll(StartRun(v.messages, tools, prompts, source, queues, skipPoll, started), ops), script)
    ensures var r0 := FirstPoll(StartRun(v.messages, tools, prompts, source, queues, skipPoll, started), ops);
            var r := Turns(cfg, r0, script).0;
            Replay(v, r.log).messages == r.context == v.messages + r.newMessages <==> AllConform(cfg, r0, script)
  {
    var r0 := FirstPoll(StartRun(v.messages, tools, prompts, source, queues, skipPoll, started), ops);
    StartAgrees(v.messages, tools, prompts, source, queues, skipPoll, started);
    assert Agree(v.messages, r0);
    TurnsExcess(cfg, r0, script);
    if AllConform(cfg, r0, script) { TurnsAgree(cfg, v.messages, r0, script); }
    TranscriptIsSaid(v, Turns(cfg, r0, script).0.log);
  }
}
