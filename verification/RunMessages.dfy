/** Messages over whole runs: each is started before it is updated or completed, and
    nothing else happens in between. */
module RunMessages {
  import opened AgentTypes
  import opened Queues
  import opened ToolCalls
  import opened ToolBatches
  import opened AgentLoops
  import opened RunLogs
  import opened RunShape
  import opened RunTranscripts

  datatype Speech = Silent | Speaking(message: Message) | Garbled

  /** One observation of the message grammar: a completed message is the one that was
      started, or, for an assistant message, what became of the partial one. */
  function Hear(s: Speech, o: Obs): Speech {
    if EventOf(o) == [] || s.Garbled? then s
    else
      match EventOf(o)[0]
      case MessageStart(m) => Speaking(m)
      case MessageUpdate(m) => if s.Speaking? && s.message.Assistant? && m.Assistant? then Speaking(m) else Garbled
      case MessageEnd(m) =>
        if s.Speaking? && (s.message == m || (s.message.Assistant? && m.Assistant?)) then Silent else Garbled
      case _ => if s.Silent? then Silent else Garbled
  }

  function Heard(s: Speech, log: Log): Speech {
    if log == [] then s else Hear(Heard(s, log[..|log| - 1]), log[|log| - 1])
  }

  lemma {:induction false} HeardConcat(s: Speech, a: Log, b: Log)
    ensures Heard(s, a + b) == Heard(Heard(s, a), b)
  {
    if b == [] {
      assert a + b == a;
    } else {
      assert (a + b)[..|a + b| - 1] == a + b[..|b| - 1];
      HeardConcat(s, a, b[..|b| - 1]);
    }
  }

  lemma HeardOne(s: Speech, o: Obs)
    ensures Heard(s, [o]) == Hear(s, o)
  {
    assert [o][..0] == [];
  }

  predicate Wordless(o: Obs) {
    EventOf(o) == [] || (var e := EventOf(o)[0]; !e.MessageStart? && !e.MessageUpdate? && !e.MessageEnd?)
  }

  lemma {:induction false} HeardNothing(log: Log)
    requires forall o | o in log :: Wordless(o)
    ensures Heard(Silent, log) == Silent
  {
    if log != [] {
      assert log == log[..|log| - 1] + [log[|log| - 1]];
      assert log[|log| - 1] in log;
      HeardNothing(log[..|log| - 1]);
    }
  }

  lemma HeardAnnounce(s: Speech, m: Message)
    requires !s.Garbled?
    ensures Heard(s, Announce(m)) == Silent
  {
    HeardOne(s, Loop(MessageStart(m)));
    HeardOne(Speaking(m), Loop(MessageEnd(m)));
    HeardConcat(s, [Loop(MessageStart(m))], [Loop(MessageEnd(m))]);
    assert Announce(m) == [Loop(MessageStart(m))] + [Loop(MessageEnd(m))];
  }

  lemma {:induction false} HeardAnnounceAll(ms: seq<Message>)
    ensures Heard(Silent, AnnounceAll(ms)) == Silent
  {
    if ms != [] {
      var init := ms[..|ms| - 1];
      HeardAnnounceAll(init);
      HeardAnnounce(Silent, ms[|ms| - 1]);
      HeardConcat(Silent, AnnounceAll(init), Announce(ms[|ms| - 1]));
    }
  }

  lemma HeardInjected(log: Log, source: Source, m: Message)
    requires Heard(Silent, log) == Silent
    ensures Heard(Silent, log + [Injected(source, m)] + Announce(m)) == Silent
  {
    HeardConcat(Silent, log, [Injected(source, m)]);
    HeardOne(Silent, Injected(source, m));
    HeardConcat(Silent, log + [Injected(source, m)], Announce(m));
    HeardAnnounce(Silent, m);
  }

  lemma {:induction false} HeardInject(source: Source, ms: seq<Message>)
    ensures Heard(Silent, InjectLog(source, ms)) == Silent
  {
    if ms != [] {
      HeardInject(source, ms[..|ms| - 1]);
      HeardInjected(InjectLog(source, ms[..|ms| - 1]), source, ms[|ms| - 1]);
    }
  }

  // ---------- The stream

  ghost predicate Speaks(s: Streaming) {
    var heard := Heard(Silent, s.log);
    if s.added then heard.Speaking? && heard.message.Assistant? else heard == Silent
  }

  lemma StepSpeaks(s: Streaming, e: StreamEvent)
    requires Speaks(s)
    ensures Speaks(StreamStep(s, e))
  {
    var n := StreamStep(s, e);
    if n.log != s.log {
      var o := n.log[|s.log|];
      assert n.log == s.log + [o];
      HeardConcat(Silent, s.log, [o]);
      HeardOne(Heard(Silent, s.log), o);
    }
  }

  lemma {:induction false} StreamSpeaks(context: seq<Message>, events: seq<StreamEvent>)
    ensures Speaks(StreamAll(Streaming(context, false, []), events))
  {
    if events != [] {
      StreamSpeaks(context, events[..|events| - 1]);
      StepSpeaks(StreamAll(Streaming(context, false, []), events[..|events| - 1]), events[|events| - 1]);
    }
  }

  lemma CloseSpeaks(s: Streaming, reply: Reply)
    requires Speaks(s)
    ensures Heard(Silent, CloseStream(s, reply).log) == Silent
  {
    var m, end: Log := Assistant(reply), [Loop(MessageEnd(Assistant(reply)))];
    if s.added {
      assert s.log + [] + end == s.log + end;
      HeardConcat(Silent, s.log, end);
      HeardOne(Heard(Silent, s.log), end[0]);
    } else {
      assert s.log + [Loop(MessageStart(m))] + end == s.log + Announce(m);
      HeardConcat(Silent, s.log, Announce(m));
      HeardAnnounce(Silent, m);
    }
  }

  /** A stream that replies completes its message; one that throws may leave it open. */
  lemma ReplyHeard(context: seq<Message>, input: StreamInput)
    ensures var heard := Heard(Silent, StreamReply(context, input).log);
            if input.end.Replied? then heard == Silent else !heard.Garbled?
  {
    var s := StreamAll(Streaming(context, false, []), Relevant(input.events));
    StreamSpeaks(context, Relevant(input.events));
    if input.end.Replied? { CloseSpeaks(s, input.end.reply); }
  }

  /** How many messages a log starts. */
  function StartsIn(log: Log): nat {
    if log == [] then 0
    else
      var e := EventOf(log[|log| - 1]);
      StartsIn(log[..|log| - 1]) + if e != [] && e[0].MessageStart? then 1 else 0
  }

  lemma StartsSnoc(log: Log, e: Event)
    ensures StartsIn(log + [Loop(e)]) == StartsIn(log) + if e.MessageStart? then 1 else 0
  {
    assert (log + [Loop(e)])[..|log|] == log;
  }

  lemma StartsStep(s: Streaming, e: StreamEvent)
    ensures StartsIn(StreamStep(s, e).log) == StartsIn(s.log) + if e.Opened? then 1 else 0
  {
    match e
    case Opened(p) => StartsSnoc(s.log, MessageStart(Assistant(p)));
    case Updated(p) => StartsSnoc(s.log, MessageUpdate(Assistant(p)));
    case _ =>
  }

  lemma {:induction false} StartsAreStarts(context: seq<Message>, events: seq<StreamEvent>)
    ensures StartsIn(StreamAll(Streaming(context, false, []), events).log) == Starts(events)
  {
    if events != [] {
      var init := events[..|events| - 1];
      StartsAreStarts(context, init);
      StartsStep(StreamAll(Streaming(context, false, []), init), events[|events| - 1]);
    }
  }

  /** As many messages are started as the stream starts, and one if it replies without. */
  lemma ReplyStarts(context: seq<Message>, input: StreamInput)
    ensures var n := Starts(Relevant(input.events));
            StartsIn(StreamReply(context, input).log) == if input.end.Replied? && n == 0 then 1 else n
  {
    var s := StreamAll(Streaming(context, false, []), Relevant(input.events));
    StartsAreStarts(context, Relevant(input.events));
    StreamGrows(context, Relevant(input.events));
    if input.end.Replied? {
      var m := Assistant(input.end.reply);
      StartsSnoc(s.log, MessageStart(m));
      StartsSnoc(s.log + if s.added then [] else [Loop(MessageStart(m))], MessageEnd(m));
      assert s.log + [] == s.log;
    }
  }

  // ---------- The batch

  lemma StepsWordless(log: Log)
    requires forall o | o in log :: ToolStep(o)
    ensures Heard(Silent, log) == Silent
  {
    HeardNothing(log);
  }

  lemma HeardLife(log: Log, k: nat, life: Life)
    requires Heard(Silent, log) == Silent && forall e | e in life.preflight || e in life.rest :: Tooling(e)
    ensures Heard(Silent, log + TagAll(k, life.preflight + life.rest) + Announce(ResultMessage(life.final))) == Silent
  {
    var steps := TagAll(k, life.preflight + life.rest);
    TagTooling(k, life.preflight + life.rest);
    StepsWordless(steps);
    HeardConcat(Silent, log, steps);
    HeardConcat(Silent, log + steps, Announce(ResultMessage(life.final)));
    HeardAnnounce(Silent, ResultMessage(life.final));
  }

  lemma {:induction false} HeardSequential(base: nat, lives: seq<Life>)
    requires ToolLives(lives)
    ensures Heard(Silent, SequentialLog(base, lives)) == Silent
  {
    if lives != [] {
      var i := |lives| - 1;
      HeardSequential(base, lives[..i]);
      HeardLife(SequentialLog(base, lives[..i]), base + i, lives[i]);
    }
  }

  lemma HeardParallel(base: nat, lives: seq<Life>, schedule: seq<nat>)
    requires ToolLives(lives)
    ensures Heard(Silent, ParallelLog(base, lives, schedule)) == Silent
  {
    var early, steps := PreflightLog(base, lives), Interleave(Threads(base, lives), schedule);
    var said := AnnounceAll(Messages(FinalsOf(lives)));
    assert Heard(Silent, early) == Silent by { PreflightMembers(base, lives); StepsWordless(early); }
    assert Heard(Silent, steps) == Silent by { ThreadMembers(base, lives, schedule); StepsWordless(steps); }
    HeardAnnounceAll(Messages(FinalsOf(lives)));
    HeardConcat(Silent, early, steps);
    HeardConcat(Silent, early + steps, said);
  }

  lemma HeardBatch(b: Batch, schedule: seq<nat>)
    ensures Heard(Silent, BatchObs(b, schedule)) == Silent
  {
    BatchTooling(b);
    HeardSequential(b.base, BatchLives(b));
    HeardParallel(b.base, BatchLives(b), schedule);
  }

  // ---------- The run

  ghost predicate Whole(r: Run) {
    Heard(Silent, r.log) == Silent
  }

  lemma WholeThen(log: Log, more: Log)
    requires Heard(Silent, log) == Silent && Heard(Silent, more) == Silent
    ensures Heard(Silent, log + more) == Silent
  {
    HeardConcat(Silent, log, more);
  }

  lemma WholeEvent(log: Log, e: Event)
    requires Heard(Silent, log) == Silent && !e.MessageStart? && !e.MessageUpdate? && !e.MessageEnd?
    ensures Heard(Silent, log + [Loop(e)]) == Silent
  {
    HeardOne(Silent, Loop(e));
    WholeThen(log, [Loop(e)]);
  }

  lemma OpenTurnWhole(r: Run)
    requires Whole(r)
    ensures Whole(OpenTurn(r))
  {
    var begun := r.log + if r.firstTurn then [] else [Loop(TurnStart)];
    if r.firstTurn { assert begun == r.log; } else { WholeEvent(r.log, TurnStart); }
    HeardInject(r.source, r.pending);
    WholeThen(begun, InjectLog(r.source, r.pending));
  }

  lemma ProceedWhole(r: Run, continues: bool, t: TurnInput)
    requires Whole(r)
    ensures Whole(Proceed(r, continues, t).0)
  {
    WholeEvent(r.log, AgentEnd(r.newMessages));
  }

  lemma AfterReplyWhole(cfg: Config, r: Run, reply: Reply, t: TurnInput)
    requires Whole(r)
    ensures Whole(AfterReply(cfg, r, reply, t).0)
  {
    if reply.stop.Error? || reply.stop.Aborted? {
      var r1 := r.(log := r.log + [Loop(TurnEnd(reply, []))]);
      WholeEvent(r.log, TurnEnd(reply, []));
      WholeEvent(r1.log, AgentEnd(r1.newMessages));
    } else {
      var b := BatchOf(cfg, r, reply, t);
      var r1 := WithResults(r, b, reply, t.schedule);
      HeardBatch(b, t.schedule);
      WholeThen(r.log, BatchObs(b, t.schedule));
      WholeEvent(r.log + BatchObs(b, t.schedule), TurnEnd(reply, ResultsOf(b)));
      WholeEvent(r1.log, AgentEnd(r1.newMessages));
      ProceedWhole(Replace(r1, t), reply.stop.ToolUse?, t);
    }
  }

  /** After a turn that did not throw no message is open. */
  lemma TurnWhole(cfg: Config, r: Run, t: TurnInput)
    requires Whole(r)
    ensures var (f, status) := Turn(cfg, r, t); if status.Failed? then !Heard(Silent, f.log).Garbled? else Whole(f)
  {
    var r1 := OpenTurn(r);
    var s := StreamReply(r1.context, t.stream);
    OpenTurnWhole(r);
    ReplyHeard(r1.context, t.stream);
    HeardConcat(Silent, r1.log, s.log);
    if t.stream.end.Replied? { AfterReplyWhole(cfg, WithReply(r1, s, t.stream.end.reply), t.stream.end.reply, t); }
  }

  lemma {:induction false} TurnsWhole(cfg: Config, r: Run, script: seq<TurnInput>)
    requires Whole(r)
    ensures var (f, status) := Turns(cfg, r, script); if status.Failed? then !Heard(Silent, f.log).Garbled? else Whole(f)
    decreases |script|
  {
    if script != [] {
      TurnWhole(cfg, r, script[0]);
      var (r1, status) := Turn(cfg, r, script[0]);
      if status == Going { TurnsWhole(cfg, r1, script[1..]); }
    }
  }

  lemma FailureWhole(log: Log, message: string, aborted: bool)
    requires !Heard(Silent, log).Garbled?
    ensures Heard(Silent, log + FailureLog(message, aborted)) == Silent
  {
    var reply := FailureReply(message, aborted);
    var said := log + Announce(Assistant(reply));
    HeardAnnounce(Heard(Silent, log), Assistant(reply));
    HeardConcat(Silent, log, Announce(Assistant(reply)));
    WholeEvent(said, TurnEnd(reply, []));
    WholeEvent(said + [Loop(TurnEnd(reply, []))], AgentEnd([Assistant(reply)]));
    assert said + [Loop(TurnEnd(reply, []))] + [Loop(AgentEnd([Assistant(reply)]))] == log + FailureLog(message, aborted);
  }

  /** Over every run, also one whose stream throws in the middle of a message: messages are
      started before they are updated or completed, no event of another kind comes in
      between, and at the end none is open. */
  lemma MessagesAreWhole(cfg: Config, context: seq<Message>, tools: seq<Tool>, prompts: seq<Message>, source: Source,
                         queues: Pair, skipPoll: bool, started: nat, ops: seq<Op>, script: seq<TurnInput>)
    ensures var r := StartRun(context, tools, prompts, source, queues, skipPoll, started);
            Heard(Silent, Perform(cfg, r, ops, script).0.log) == Silent
  {
    var r := StartRun(context, tools, prompts, source, queues, skipPoll, started);
    var opening: Log := [Loop(AgentStart), Loop(TurnStart)];
    HeardNothing(opening);
    HeardInject(source, prompts);
    WholeThen(opening, InjectLog(source, prompts));
    TurnsWhole(cfg, FirstPoll(r, ops), script);
    var (f, status) := Turns(cfg, FirstPoll(r, ops), script);
    if status.Failed? { FailureWhole(f.log, status.message, status.aborted); }
  }
}
