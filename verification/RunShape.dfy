/** The shape of a run: its event grammar, which turn is the last, and how many there are. */
module RunShape {
  import opened AgentTypes
  import opened AgentStates
  import opened Queues
  import opened ToolCalls
  import opened ToolBatches
  import opened AgentLoops
  import opened RunLogs

  // ---------- The event grammar

  lemma PhaseSnoc(p: Phase, log: Log, o: Obs)
    ensures PhaseAfter(p, log + [o]) == PhaseObs(PhaseAfter(p, log), o)
  {
    assert (log + [o])[..|log|] == log;
  }

  lemma PhaseInner(p: Phase, log: Log, more: Log, n: nat)
    requires PhaseAfter(p, log) == InTurn(n) && forall o | o in more :: Inner(o)
    ensures PhaseAfter(p, log + more) == InTurn(n)
  {
    PhaseConcat(p, log, more);
    InnerKeepsTurn(n, more);
  }

  /** Between turns: `n` turns are closed, or the first one is already open. */
  ghost predicate AtBoundary(r: Run, n: nat) {
    PhaseAfter(Before, r.log) == (if r.firstTurn then InTurn(0) else InRun(n)) && (r.firstTurn <==> n == 0)
  }

  lemma OpenTurnPhase(r: Run, n: nat)
    requires AtBoundary(r, n)
    ensures PhaseAfter(Before, OpenTurn(r).log) == InTurn(n)
  {
    var begun := if r.firstTurn then r.log else r.log + [Loop(TurnStart)];
    assert r.log + (if r.firstTurn then [] else [Loop(TurnStart)]) == begun;
    if !r.firstTurn { PhaseSnoc(Before, r.log, Loop(TurnStart)); }
    InjectTells(r.source, r.pending);
    PhaseInner(Before, begun, InjectLog(r.source, r.pending), n);
  }

  lemma ResultsPhase(r: Run, b: Batch, reply: Reply, schedule: seq<nat>, n: nat)
    requires PhaseAfter(Before, r.log) == InTurn(n)
    ensures PhaseAfter(Before, WithResults(r, b, reply, schedule).log) == InRun(n + 1)
  {
    BatchObsInner(b, schedule);
    StepsPhase(r.log, BatchObs(b, schedule), reply, ResultsOf(b), n);
  }

  lemma BatchObsInner(b: Batch, schedule: seq<nat>)
    ensures forall o | o in BatchObs(b, schedule) :: Inner(o)
  {
    BatchInner(b, schedule);
  }

  lemma StepsPhase(log: Log, steps: Log, reply: Reply, results: seq<Message>, n: nat)
    requires PhaseAfter(Before, log) == InTurn(n) && forall o | o in steps :: Inner(o)
    ensures PhaseAfter(Before, log + steps + [Loop(TurnEnd(reply, results))]) == InRun(n + 1)
  {
    PhaseInner(Before, log, steps, n);
    PhaseSnoc(Before, log + steps, Loop(TurnEnd(reply, results)));
  }

  lemma FinishPhase(r: Run, n: nat)
    requires PhaseAfter(Before, r.log) == InRun(n) && n > 0
    ensures PhaseAfter(Before, Finish(r).log) == Closed(n)
  {
    PhaseSnoc(Before, r.log, Loop(AgentEnd(r.newMessages)));
  }

  /** What a turn's outcome means for the trace. */
  ghost predicate AfterTurn(r: Run, status: Status, n: nat) {
    match status
    case Going => AtBoundary(r, n + 1)
    case Ended => PhaseAfter(Before, r.log) == Closed(n + 1)
    case Failed(_, _) => PhaseAfter(Before, r.log) == InTurn(n)
  }

  lemma ProceedPhase(r: Run, continues: bool, t: TurnInput, n: nat)
    requires PhaseAfter(Before, r.log) == InRun(n + 1) && !r.firstTurn
    ensures AfterTurn(Proceed(r, continues, t).0, Proceed(r, continues, t).1, n)
  {
    var (steered, r1) := PollSteering(Act(r, t.beforeSteering));
    var (followed, r2) := PollFollowUp(Act(r1, t.beforeFollowUp));
    FinishPhase(r2, n + 1);
  }

  lemma ErrorPhase(r: Run, reply: Reply, n: nat)
    requires PhaseAfter(Before, r.log) == InTurn(n)
    ensures PhaseAfter(Before, Finish(r.(log := r.log + [Loop(TurnEnd(reply, []))])).log) == Closed(n + 1)
  {
    PhaseSnoc(Before, r.log, Loop(TurnEnd(reply, [])));
    FinishPhase(r.(log := r.log + [Loop(TurnEnd(reply, []))]), n + 1);
  }

  lemma ContinuePhase(r: Run, b: Batch, reply: Reply, t: TurnInput, n: nat)
    requires PhaseAfter(Before, r.log) == InTurn(n) && !r.firstTurn
    ensures var r1 := WithResults(r, b, reply, t.schedule);
            var (f, status) := Proceed(Replace(r1, t), reply.stop.ToolUse?, t);
            PhaseAfter(Before, Finish(r1).log) == Closed(n + 1) && AfterTurn(f, status, n)
  {
    var r1 := WithResults(r, b, reply, t.schedule);
    ResultsPhase(r, b, reply, t.schedule, n);
    FinishPhase(r1, n + 1);
    ProceedPhase(Replace(r1, t), reply.stop.ToolUse?, t, n);
  }

  lemma AfterReplyPhase(cfg: Config, r: Run, reply: Reply, t: TurnInput, n: nat)
    requires PhaseAfter(Before, r.log) == InTurn(n) && !r.firstTurn
    ensures AfterTurn(AfterReply(cfg, r, reply, t).0, AfterReply(cfg, r, reply, t).1, n)
  {
    if reply.stop.Error? || reply.stop.Aborted? {
      ErrorPhase(r, reply, n);
    } else {
      ContinuePhase(r, BatchOf(cfg, r, reply, t), reply, t, n);
    }
  }

  lemma TurnPhase(cfg: Config, r: Run, t: TurnInput, n: nat)
    requires AtBoundary(r, n)
    ensures AfterTurn(Turn(cfg, r, t).0, Turn(cfg, r, t).1, n)
  {
    var r1 := OpenTurn(r);
    var s := StreamReply(r1.context, t.stream);
    OpenTurnPhase(r, n);
    ReplyTells(r1.context, t.stream);
    PhaseInner(Before, r1.log, s.log, n);
    if t.stream.end.Replied? {
      AfterReplyPhase(cfg, WithReply(r1, s, t.stream.end.reply), t.stream.end.reply, t, n);
    }
  }

  /** How many turns the run takes of the script. */
  function TurnsTaken(cfg: Config, r: Run, script: seq<TurnInput>): (n: nat)
    ensures n <= |script|
    decreases |script|
  {
    if script == [] then 0
    else
      var (r1, status) := Turn(cfg, r, script[0]);
      1 + if status == Going then TurnsTaken(cfg, r1, script[1..]) else 0
  }

  /** Where the trace stands after `m` turns. */
  ghost predicate After(r: Run, status: Status, m: nat) {
    if status == Going then AtBoundary(r, m) else m > 0 && AfterTurn(r, status, m - 1)
  }

  lemma TurnAfter(cfg: Config, r: Run, t: TurnInput, n: nat)
    requires AtBoundary(r, n)
    ensures After(Turn(cfg, r, t).0, Turn(cfg, r, t).1, n + 1)
  {
    TurnPhase(cfg, r, t, n);
  }

  lemma {:induction false} TurnsPhase(cfg: Config, r: Run, script: seq<TurnInput>, n: nat)
    requires AtBoundary(r, n)
    ensures After(Turns(cfg, r, script).0, Turns(cfg, r, script).1, n + TurnsTaken(cfg, r, script))
    decreases |script|
  {
    if script != [] {
      TurnAfter(cfg, r, script[0], n);
      var (r1, status) := Turn(cfg, r, script[0]);
      if status == Going { TurnsPhase(cfg, r1, script[1..], n + 1); }
    }
  }

  lemma FailurePhase(log: Log, message: string, aborted: bool, n: nat)
    requires PhaseAfter(Before, log) == InTurn(n)
    ensures PhaseAfter(Before, log + FailureLog(message, aborted)) == Closed(n + 1)
  {
    var reply := FailureReply(message, aborted);
    var said := Announce(Assistant(reply));
    PhaseInner(Before, log, said, n);
    PhaseSnoc(Before, log + said, Loop(TurnEnd(reply, [])));
    PhaseSnoc(Before, log + said + [Loop(TurnEnd(reply, []))], Loop(AgentEnd([Assistant(reply)])));
    assert log + said + [Loop(TurnEnd(reply, []))] + [Loop(AgentEnd([Assistant(reply)]))] == log + FailureLog(message, aborted);
  }

  lemma StartPhase(context: seq<Message>, tools: seq<Tool>, prompts: seq<Message>, source: Source, queues: Pair,
                   skipPoll: bool, started: nat)
    ensures AtBoundary(StartRun(context, tools, prompts, source, queues, skipPoll, started), 0)
  {
    var opening: Log := [Loop(AgentStart), Loop(TurnStart)];
    PhaseSnoc(Before, [], Loop(AgentStart));
    PhaseSnoc(Before, [Loop(AgentStart)], Loop(TurnStart));
    assert [] + [Loop(AgentStart)] == [Loop(AgentStart)] && [Loop(AgentStart)] + [Loop(TurnStart)] == opening;
    InjectTells(source, prompts);
    PhaseInner(Before, opening, InjectLog(source, prompts), 0);
  }

  lemma ClosePhase(r: Run, status: Status, n: nat)
    requires After(r, status, n) && status.Failed?
    ensures n > 0 && PhaseAfter(Before, r.log + FailureLog(status.message, status.aborted)) == Closed(n)
  {
    FailurePhase(r.log, status.message, status.aborted, n - 1);
  }

  /** A run from its first turn on, however it ends. */
  lemma PerformPhase(cfg: Config, r: Run, ops: seq<Op>, script: seq<TurnInput>)
    requires AtBoundary(r, 0)
    ensures var (f, status) := Perform(cfg, r, ops, script);
            var n := TurnsTaken(cfg, FirstPoll(r, ops), script);
            && (status == Ended ==> n > 0 && PhaseAfter(Before, f.log) == Closed(n))
            && (status != Ended ==> status == Going && AtBoundary(f, n))
  {
    var r0 := FirstPoll(r, ops);
    assert AtBoundary(r0, 0);
    TurnsPhase(cfg, r0, script, 0);
    var (f, status) := Turns(cfg, r0, script);
    if status.Failed? { ClosePhase(f, status, TurnsTaken(cfg, r0, script)); }
  }

  /** Every finished run, whether it ended by itself or its stream threw, is agent_start,
      one or more closed turns and one final agent_end: as many turns as were taken. */
  lemma TraceIsWellFormed(cfg: Config, context: seq<Message>, tools: seq<Tool>, prompts: seq<Message>, source: Source,
                          queues: Pair, skipPoll: bool, started: nat, ops: seq<Op>, script: seq<TurnInput>)
    ensures var r := StartRun(context, tools, prompts, source, queues, skipPoll, started);
            var (f, status) := Perform(cfg, r, ops, script);
            var n := TurnsTaken(cfg, FirstPoll(r, ops), script);
            && (status == Ended ==> n > 0 && PhaseAfter(Before, f.log) == Closed(n))
            && (status != Ended ==> status == Going && AtBoundary(f, n))
  {
    StartPhase(context, tools, prompts, source, queues, skipPoll, started);
    PerformPhase(cfg, StartRun(context, tools, prompts, source, queues, skipPoll, started), ops, script);
  }

  /** Only agent_end closes a trace. */
  lemma CloseStep(p: Phase, o: Obs)
    requires PhaseObs(p, o).Closed?
    ensures if EventOf(o) == [] then p.Closed? else EventOf(o)[0].AgentEnd?
  {
  }

  /** A closed trace leaves no message streaming. */
  lemma {:induction false} ClosedIsIdle(v: View, log: Log)
    requires PhaseAfter(Before, log).Closed?
    ensures Replay(v, log).streaming == None
  {
    if log != [] {
      var init, o := log[..|log| - 1], log[|log| - 1];
      assert log == init + [o];
      CloseStep(PhaseAfter(Before, init), o);
      ReplaySnoc(v, init, o);
      if EventOf(o) == [] { ClosedIsIdle(v, init); }
    }
  }

  // ---------- Which turn is the last

  /** The run as it stands when the assistant's reply of a turn is complete. */
  function Replying(r: Run, t: TurnInput): Run
    requires t.stream.end.Replied?
  {
    var r1 := OpenTurn(r);
    WithReply(r1, StreamReply(r1.context, t.stream), t.stream.end.reply)
  }

  predicate ErrorStop(t: TurnInput) {
    t.stream.end.Replied? && (t.stream.end.reply.stop.Error? || t.stream.end.reply.stop.Aborted?)
  }

  /** The turn stops the run before the queues are looked at. */
  predicate HardStop(cfg: Config, r: Run, t: TurnInput)
    requires t.stream.end.Replied?
  {
    ErrorStop(t) || t.stopAfterTurn || Unanimous(BatchOf(cfg, Replying(r, t), t.stream.end.reply, t))
  }

  /** Both queues are empty when they are drained. */
  predicate NothingQueued(r: Run, t: TurnInput) {
    && (r.skipPoll || r.queues.ApplyAll(t.beforeSteering).steering.messages == [])
    && PollSteering(Act(r, t.beforeSteering)).1.queues.ApplyAll(t.beforeFollowUp).followUp.messages == []
  }

  predicate SoftStop(r: Run, t: TurnInput)
    requires t.stream.end.Replied?
  {
    !t.stream.end.reply.stop.ToolUse? && NothingQueued(r, t)
  }

  lemma ProceedStops(r: Run, continues: bool, t: TurnInput)
    ensures Proceed(r, continues, t).1 == Ended <==> !continues && NothingQueued(r, t)
    ensures Proceed(r, continues, t).1 == Ended || Proceed(r, continues, t).1 == Going
  {
  }

  lemma UnanimousHasResults(b: Batch)
    requires Unanimous(b)
    ensures ResultsOf(b) != []
  {
    assert |BatchFinals(b)| > 0;
  }

  lemma AfterReplyStops(cfg: Config, r: Run, reply: Reply, t: TurnInput)
    ensures var (f, status) := AfterReply(cfg, r, reply, t);
            var b := BatchOf(cfg, r, reply, t);
            var hard := reply.stop.Error? || reply.stop.Aborted? || t.stopAfterTurn || Unanimous(b);
            && (status == Ended || status == Going)
            && (hard ==> status == Ended && f.queues == r.queues)
            && (!hard ==> (status == Ended <==> !reply.stop.ToolUse? && NothingQueued(r, t)))
  {
    var b := BatchOf(cfg, r, reply, t);
    if Unanimous(b) { UnanimousHasResults(b); }
    var r2 := Replace(WithResults(r, b, reply, t.schedule), t);
    ProceedStops(r2, reply.stop.ToolUse?, t);
    assert NothingQueued(r2, t) <==> NothingQueued(r, t);
  }

  /** A turn that does not throw ends the run exactly if it stops hard, or softly with
      nothing queued; a hard stop leaves both queues as they were. */
  lemma TurnEndsIff(cfg: Config, r: Run, t: TurnInput)
    requires t.stream.end.Replied?
    ensures Turn(cfg, r, t).1 == Ended <==> HardStop(cfg, r, t) || SoftStop(r, t)
    ensures Turn(cfg, r, t).1 == Ended || Turn(cfg, r, t).1 == Going
    ensures HardStop(cfg, r, t) ==> Turn(cfg, r, t).0.queues == r.queues
  {
    var r1 := Replying(r, t);
    AfterReplyStops(cfg, r1, t.stream.end.reply, t);
    assert NothingQueued(r1, t) <==> NothingQueued(r, t);
  }

  lemma ProceedFollowUps(r: Run, continues: bool, t: TurnInput)
    ensures Proceed(r, continues, t).0.queues.followUp.drained != r.queues.followUp.drained ==>
              !continues && PollSteering(Act(r, t.beforeSteering)).0 == []
  {
    ApplyKeepsDrained(r.queues, t.beforeSteering);
  }

  /** A follow-up waits until the run would otherwise stop: a turn drains one only if it
      did not stop hard, used no tools, and the steering poll found nothing. */
  lemma FollowUpsWait(cfg: Config, r: Run, t: TurnInput)
    requires Turn(cfg, r, t).0.queues.followUp.drained != r.queues.followUp.drained
    ensures t.stream.end.Replied? && !HardStop(cfg, r, t) && !t.stream.end.reply.stop.ToolUse?
    ensures PollSteering(Act(r, t.beforeSteering)).0 == []
  {
    if t.stream.end.Replied? {
      var r1, reply := Replying(r, t), t.stream.end.reply;
      TurnEndsIff(cfg, r, t);
      var r2 := Replace(WithResults(r1, BatchOf(cfg, r1, reply, t), reply, t.schedule), t);
      ProceedFollowUps(r2, reply.stop.ToolUse?, t);
    }
  }

  /** A batch holding a call that was missing, blocked, denied or aborted before
      dispatch is never unanimous. */
  lemma ImmediateNeverHardStops(cfg: Config, r: Run, t: TurnInput, i: nat)
    requires t.stream.end.Replied? && !ErrorStop(t) && !t.stopAfterTurn
    requires var b := BatchOf(cfg, Replying(r, t), t.stream.end.reply, t);
             b.calls != [] && i < StartedFrom(b, 0) && !BatchLives(b)[i].dispatched
    ensures !HardStop(cfg, r, t)
  {
    ImmediateNeverTerminates(BatchOf(cfg, Replying(r, t), t.stream.end.reply, t), i);
  }

  /** The state at the start of the `i`-th turn taken. */
  function StateAt(cfg: Config, r: Run, script: seq<TurnInput>, i: nat): Run
    requires i < TurnsTaken(cfg, r, script)
    decreases |script|
  {
    if i == 0 then r else StateAt(cfg, Turn(cfg, r, script[0]).0, script[1..], i - 1)
  }

  /** Turn `i` stops the run: its stream throws, or it stops hard or softly. */
  ghost predicate StopsAt(cfg: Config, r: Run, script: seq<TurnInput>, i: nat)
    requires i < TurnsTaken(cfg, r, script)
  {
    var s := StateAt(cfg, r, script, i);
    script[i].stream.end.Broke? || HardStop(cfg, s, script[i]) || SoftStop(s, script[i])
  }

  lemma StopsLater(cfg: Config, r: Run, script: seq<TurnInput>, i: nat)
    requires 0 < i < TurnsTaken(cfg, r, script)
    ensures Turn(cfg, r, script[0]).1 == Going && i - 1 < TurnsTaken(cfg, Turn(cfg, r, script[0]).0, script[1..])
    ensures StopsAt(cfg, r, script, i) <==> StopsAt(cfg, Turn(cfg, r, script[0]).0, script[1..], i - 1)
  {
    assert script[1..][i - 1] == script[i];
    assert StateAt(cfg, r, script, i) == StateAt(cfg, Turn(cfg, r, script[0]).0, script[1..], i - 1);
  }

  lemma StopsFirst(cfg: Config, r: Run, script: seq<TurnInput>)
    requires script != []
    ensures TurnsTaken(cfg, r, script) > 0
    ensures StopsAt(cfg, r, script, 0) <==> Turn(cfg, r, script[0]).1 != Going
  {
    if script[0].stream.end.Replied? { TurnEndsIff(cfg, r, script[0]); }
  }

  /** A run's last turn is exactly the first that stops it: no earlier turn satisfies a
      stop condition, and a run that is over is so because its last turn does. */
  lemma {:induction false} LastTurnIsFirstStop(cfg: Config, r: Run, script: seq<TurnInput>, i: nat)
    requires i < TurnsTaken(cfg, r, script)
    ensures StopsAt(cfg, r, script, i) <==> i == TurnsTaken(cfg, r, script) - 1 && Turns(cfg, r, script).1 != Going
    decreases |script|
  {
    var (r1, status) := Turn(cfg, r, script[0]);
    if i == 0 {
      StopsFirst(cfg, r, script);
      if status == Going && |script| > 1 { assert TurnsTaken(cfg, r1, script[1..]) > 0; }
    } else {
      StopsLater(cfg, r, script, i);
      LastTurnIsFirstStop(cfg, r1, script[1..], i - 1);
    }
  }

  // ---------- How many turns there are

  predicate UsesTools(t: TurnInput) {
    t.stream.end.Replied? && t.stream.end.reply.stop.ToolUse?
  }

  /** Turns taken whose reply stopped for tool use. */
  function ToolTurns(cfg: Config, r: Run, script: seq<TurnInput>): nat
    decreases |script|
  {
    if script == [] then 0
    else
      var (r1, status) := Turn(cfg, r, script[0]);
      (if UsesTools(script[0]) then 1 else 0) + if status == Going then ToolTurns(cfg, r1, script[1..]) else 0
  }

  function Drained(r: Run): nat {
    |r.queues.steering.drained| + |r.queues.followUp.drained|
  }

  /** A turn after which the run goes on used tools or drained a message. */
  lemma ProceedDrains(r: Run, continues: bool, t: TurnInput)
    ensures var (f, status) := Proceed(r, continues, t);
            Drained(f) >= Drained(r) && (status == Going ==> continues || Drained(f) > Drained(r))
  {
    var a := Act(r, t.beforeSteering);
    ApplyKeepsDrained(r.queues, t.beforeSteering);
    var (steered, r1) := PollSteering(a);
    ApplyKeepsDrained(r1.queues, t.beforeFollowUp);
  }

  lemma TurnDrains(cfg: Config, r: Run, t: TurnInput)
    ensures var (f, status) := Turn(cfg, r, t);
            Drained(f) >= Drained(r) && (status == Going ==> UsesTools(t) || Drained(f) > Drained(r))
  {
    if t.stream.end.Replied? {
      var r1 := Replying(r, t);
      var reply := t.stream.end.reply;
      var r2 := Replace(WithResults(r1, BatchOf(cfg, r1, reply, t), reply, t.schedule), t);
      ProceedDrains(r2, reply.stop.ToolUse?, t);
    }
  }

  /** The number of turns is bounded by one plus the tool-use replies plus the messages
      drained at turn ends; a run that is still going has not even used up that one. */
  lemma {:induction false} TurnsAreBounded(cfg: Config, r: Run, script: seq<TurnInput>)
    ensures var (f, status) := Turns(cfg, r, script);
            && Drained(f) >= Drained(r)
            && TurnsTaken(cfg, r, script)
                 <= (if status == Going then 0 else 1) + ToolTurns(cfg, r, script) + (Drained(f) - Drained(r))
    decreases |script|
  {
    if script != [] {
      TurnDrains(cfg, r, script[0]);
      var (r1, status) := Turn(cfg, r, script[0]);
      if status == Going { TurnsAreBounded(cfg, r1, script[1..]); }
    }
  }
}
