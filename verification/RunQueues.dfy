/** Queued messages reach the conversation once each and in order. */
module RunQueues {
  import opened Ordering
  import opened AgentTypes
  import opened Queues
  import opened ToolCalls
  import opened ToolBatches
  import opened AgentLoops
  import opened RunLogs

  function InjectedBy(o: Obs, source: Source): seq<Message> {
    if o.Injected? && o.source == source then [o.message] else []
  }

  /** The messages a queue brought into the conversation. */
  function InjectedFrom(log: Log, source: Source): seq<Message> {
    if log == [] then [] else InjectedFrom(log[..|log| - 1], source) + InjectedBy(log[|log| - 1], source)
  }

  lemma {:induction false} InjectedConcat(a: Log, b: Log, source: Source)
    ensures InjectedFrom(a + b, source) == InjectedFrom(a, source) + InjectedFrom(b, source)
  {
    if b == [] {
      assert a + b == a;
    } else {
      var init := b[..|b| - 1];
      assert (a + b)[..|a + b| - 1] == a + init;
      InjectedConcat(a, init, source);
    }
  }

  lemma {:induction false} InjectedNothing(log: Log, source: Source)
    requires forall o | o in log :: !o.Injected?
    ensures InjectedFrom(log, source) == []
  {
    if log != [] {
      assert log == log[..|log| - 1] + [log[|log| - 1]];
      assert log[|log| - 1] in log;
      InjectedNothing(log[..|log| - 1], source);
    }
  }

  lemma InjectedStep(before: Log, from: Source, m: Message, source: Source)
    ensures InjectedFrom(before + [Injected(from, m)] + Announce(m), source)
         == InjectedFrom(before, source) + if from == source then [m] else []
  {
    InjectedConcat(before + [Injected(from, m)], Announce(m), source);
    InjectedConcat(before, [Injected(from, m)], source);
    InjectedNothing(Announce(m), source);
    assert [Injected(from, m)][..0] == [];
  }

  lemma {:induction false} InjectedLog(from: Source, ms: seq<Message>, source: Source)
    ensures InjectedFrom(InjectLog(from, ms), source) == if from == source then ms else []
  {
    if ms == [] {
    } else {
      var init := ms[..|ms| - 1];
      InjectedLog(from, init, source);
      InjectedStep(InjectLog(from, init), from, ms[|ms| - 1], source);
      assert init + [ms[|ms| - 1]] == ms;
    }
  }

  lemma InjectedSame(log: Log, more: Log, source: Source)
    requires forall o | o in more :: !o.Injected?
    ensures InjectedFrom(log + more, source) == InjectedFrom(log, source)
  {
    InjectedConcat(log, more, source);
    InjectedNothing(more, source);
  }

  /** Drained and waiting to be injected at the next turn. */
  function InFlight(r: Run, source: Source): seq<Message> {
    if r.source == source then r.pending else []
  }

  /** `base` was drained before the run; since then everything drained was injected or
      is about to be. */
  ghost predicate Delivered(base: seq<Message>, r: Run, source: Source, q: Queue) {
    && q.Conserved()
    && base + InjectedFrom(r.log, source) + InFlight(r, source) == q.drained
  }

  ghost predicate Kept(steered: seq<Message>, followed: seq<Message>, r: Run) {
    Delivered(steered, r, Steering, r.queues.steering) && Delivered(followed, r, FollowUp, r.queues.followUp)
  }

  lemma OpenTurnDelivers(base: seq<Message>, r: Run, source: Source)
    ensures base + InjectedFrom(OpenTurn(r).log, source) == base + InjectedFrom(r.log, source) + InFlight(r, source)
  {
    var opening: Log := if r.firstTurn then [] else [Loop(TurnStart)];
    InjectedOpening(r.log, opening, r.source, r.pending, source);
    Regroup(base, InjectedFrom(r.log, source), InFlight(r, source));
  }

  lemma InjectedOpening(log: Log, opening: Log, from: Source, ms: seq<Message>, source: Source)
    requires forall o | o in opening :: !o.Injected?
    ensures InjectedFrom(log + opening + InjectLog(from, ms), source)
         == InjectedFrom(log, source) + if from == source then ms else []
  {
    InjectedSame(log, opening, source);
    InjectedConcat(log + opening, InjectLog(from, ms), source);
    InjectedLog(from, ms, source);
  }

  lemma OpenTurnKept(steered: seq<Message>, followed: seq<Message>, r: Run)
    requires Kept(steered, followed, r)
    ensures Kept(steered, followed, OpenTurn(r)) && OpenTurn(r).pending == []
  {
    OpenTurnDelivers(steered, r, Steering);
    OpenTurnDelivers(followed, r, FollowUp);
    var n := OpenTurn(r);
    assert InFlight(n, Steering) == [] && InFlight(n, FollowUp) == [];
  }

  /** Logging anything else changes nothing. */
  lemma LogKept(steered: seq<Message>, followed: seq<Message>, r: Run, n: Run, more: Log)
    requires Kept(steered, followed, r) && n.log == r.log + more && forall o | o in more :: !o.Injected?
    requires n.queues == r.queues && n.pending == r.pending && n.source == r.source
    ensures Kept(steered, followed, n)
  {
    InjectedSame(r.log, more, Steering);
    InjectedSame(r.log, more, FollowUp);
  }

  lemma FinishKept(steered: seq<Message>, followed: seq<Message>, r: Run)
    requires Kept(steered, followed, r)
    ensures Kept(steered, followed, Finish(r))
  {
    LogKept(steered, followed, r, Finish(r), [Loop(AgentEnd(r.newMessages))]);
  }

  lemma ActKept(steered: seq<Message>, followed: seq<Message>, r: Run, ops: seq<Op>)
    requires Kept(steered, followed, r)
    ensures Kept(steered, followed, Act(r, ops))
  {
    ApplyConserves(r.queues, ops);
  }

  /** A poll moves messages from the queue into flight. */
  lemma SteeringKept(steered: seq<Message>, followed: seq<Message>, r: Run)
    requires Kept(steered, followed, r) && r.pending == []
    ensures var (ms, r1) := PollSteering(r);
            Kept(steered, followed, r1.(pending := ms, source := Steering)) && (ms == [] ==> Kept(steered, followed, r1))
  {
    DrainConserves(r.queues.steering);
  }

  lemma FollowUpKept(steered: seq<Message>, followed: seq<Message>, r: Run)
    requires Kept(steered, followed, r) && r.pending == []
    ensures var (ms, r1) := PollFollowUp(r);
            Kept(steered, followed, r1.(pending := ms, source := FollowUp)) && (ms == [] ==> Kept(steered, followed, r1))
  {
    DrainConserves(r.queues.followUp);
  }

  lemma ProceedKept(steered: seq<Message>, followed: seq<Message>, r: Run, continues: bool, t: TurnInput)
    requires Kept(steered, followed, r) && r.pending == []
    ensures var (f, status) := Proceed(r, continues, t);
            Kept(steered, followed, f) && (status != Going ==> f.pending == [])
  {
    var a := Act(r, t.beforeSteering);
    ActKept(steered, followed, r, t.beforeSteering);
    SteeringKept(steered, followed, a);
    var (ms, r1) := PollSteering(a);
    if ms == [] && !continues {
      var b := Act(r1, t.beforeFollowUp);
      ActKept(steered, followed, r1, t.beforeFollowUp);
      FollowUpKept(steered, followed, b);
      if PollFollowUp(b).0 == [] { FinishKept(steered, followed, PollFollowUp(b).1); }
    }
  }

  lemma {:induction false} SequentialQuiet(base: nat, lives: seq<Life>)
    ensures forall o | o in SequentialLog(base, lives) :: !o.Injected?
  {
    if lives != [] { SequentialQuiet(base, lives[..|lives| - 1]); }
  }

  lemma {:induction false} AnnounceAllQuiet(ms: seq<Message>)
    ensures forall o | o in AnnounceAll(ms) :: !o.Injected?
  {
    if ms != [] { AnnounceAllQuiet(ms[..|ms| - 1]); }
  }

  lemma BatchQuiet(b: Batch, schedule: seq<nat>)
    ensures forall o | o in BatchObs(b, schedule) :: !o.Injected?
  {
    BatchTooling(b);
    SequentialQuiet(b.base, BatchLives(b));
    PreflightMembers(b.base, BatchLives(b));
    ThreadMembers(b.base, BatchLives(b), schedule);
    AnnounceAllQuiet(Messages(FinalsOf(BatchLives(b))));
  }

  lemma ResultsKept(steered: seq<Message>, followed: seq<Message>, r: Run, b: Batch, reply: Reply, t: TurnInput)
    requires Kept(steered, followed, r)
    ensures Kept(steered, followed, WithResults(r, b, reply, t.schedule))
    ensures Kept(steered, followed, Replace(WithResults(r, b, reply, t.schedule), t))
  {
    var r1 := r.(log := r.log + BatchObs(b, t.schedule));
    var end := Loop(TurnEnd(reply, ResultsOf(b)));
    BatchQuiet(b, t.schedule);
    LogKept(steered, followed, r, r1, BatchObs(b, t.schedule));
    LogKept(steered, followed, r1, WithResults(r, b, reply, t.schedule), [end]);
  }

  lemma AfterReplyKept(cfg: Config, steered: seq<Message>, followed: seq<Message>, r: Run, reply: Reply, t: TurnInput)
    requires Kept(steered, followed, r) && r.pending == []
    ensures var (f, status) := AfterReply(cfg, r, reply, t);
            Kept(steered, followed, f) && (status != Going ==> f.pending == [])
  {
    if reply.stop.Error? || reply.stop.Aborted? {
      var r1 := r.(log := r.log + [Loop(TurnEnd(reply, []))]);
      LogKept(steered, followed, r, r1, [Loop(TurnEnd(reply, []))]);
      FinishKept(steered, followed, r1);
    } else {
      var b := BatchOf(cfg, r, reply, t);
      var r1 := WithResults(r, b, reply, t.schedule);
      ResultsKept(steered, followed, r, b, reply, t);
      FinishKept(steered, followed, r1);
      ProceedKept(steered, followed, Replace(r1, t), reply.stop.ToolUse?, t);
    }
  }

  lemma TurnKept(cfg: Config, steered: seq<Message>, followed: seq<Message>, r: Run, t: TurnInput)
    requires Kept(steered, followed, r)
    ensures var (f, status) := Turn(cfg, r, t);
            Kept(steered, followed, f) && (status != Going ==> f.pending == [])
  {
    var r1 := OpenTurn(r);
    var s := StreamReply(r1.context, t.stream);
    OpenTurnKept(steered, followed, r);
    ReplyTells(r1.context, t.stream);
    match t.stream.end
    case Broke(_, _) => LogKept(steered, followed, r1, r1.(context := s.context, log := r1.log + s.log), s.log);
    case Replied(reply) =>
      LogKept(steered, followed, r1, WithReply(r1, s, reply), s.log);
      AfterReplyKept(cfg, steered, followed, WithReply(r1, s, reply), reply, t);
  }

  lemma {:induction false} TurnsKept(cfg: Config, steered: seq<Message>, followed: seq<Message>, r: Run, script: seq<TurnInput>)
    requires Kept(steered, followed, r)
    ensures var (f, status) := Turns(cfg, r, script);
            Kept(steered, followed, f) && (status != Going ==> f.pending == [])
    decreases |script|
  {
    if script != [] {
      TurnKept(cfg, steered, followed, r, script[0]);
      var (r1, status) := Turn(cfg, r, script[0]);
      if status == Going { TurnsKept(cfg, steered, followed, r1, script[1..]); }
    }
  }

  /** A run, begun with messages that were or were not drained from a queue, keeps the
      account of both queues; when it is over nothing is in flight. */
  lemma PerformKept(cfg: Config, steered: seq<Message>, followed: seq<Message>, r: Run, ops: seq<Op>, script: seq<TurnInput>)
    requires Kept(steered, followed, r) && r.pending == []
    ensures var (f, status) := Perform(cfg, r, ops, script);
            Kept(steered, followed, f) && (status != Going ==> f.pending == [])
  {
    ActKept(steered, followed, r, ops);
    SteeringKept(steered, followed, Act(r, ops));
    TurnsKept(cfg, steered, followed, FirstPoll(r, ops), script);
    var (f, status) := Turns(cfg, FirstPoll(r, ops), script);
    if status.Failed? {
      var more := FailureLog(status.message, status.aborted);
      LogKept(steered, followed, f, f.(log := f.log + more), more);
    }
  }

  lemma StartKept(context: seq<Message>, tools: seq<Tool>, prompts: seq<Message>, source: Source, queues: Pair,
                  skipPoll: bool, started: nat, steered: seq<Message>, followed: seq<Message>)
    requires queues.Conserved()
    requires queues.steering.drained == steered + if source == Steering then prompts else []
    requires queues.followUp.drained == followed + if source == FollowUp then prompts else []
    ensures Kept(steered, followed, StartRun(context, tools, prompts, source, queues, skipPoll, started))
  {
    StartInjects(source, prompts, Steering);
    StartInjects(source, prompts, FollowUp);
  }

  lemma StartInjects(source: Source, prompts: seq<Message>, queue: Source)
    ensures InjectedFrom([Loop(AgentStart), Loop(TurnStart)] + InjectLog(source, prompts), queue)
         == if source == queue then prompts else []
  {
    var opening: Log := [Loop(AgentStart), Loop(TurnStart)];
    InjectedOpening([], opening, source, prompts, queue);
    assert [] + opening == opening;
  }
}
