/** What the queue polls of a run take and what they leave, in either drain mode. */
module RunPolls {
  import opened Ordering
  import opened AgentTypes
  import opened Queues
  import opened ToolCalls
  import opened ToolBatches
  import opened AgentLoops
  import opened RunShape
  import opened Agents

  // ---------- What callers do

  function SteeredBy(op: Op): seq<Message> {
    if op.Steer? then [op.message] else []
  }

  function FollowedBy(op: Op): seq<Message> {
    if op.FollowUpWith? then [op.message] else []
  }

  /** The steering messages among `ops`. */
  function Steered(ops: seq<Op>): seq<Message> {
    if ops == [] then [] else Steered(ops[..|ops| - 1]) + SteeredBy(ops[|ops| - 1])
  }

  function Followed(ops: seq<Op>): seq<Message> {
    if ops == [] then [] else Followed(ops[..|ops| - 1]) + FollowedBy(ops[|ops| - 1])
  }

  /** The mode last set among `ops`, or `mode` if none is. */
  ghost predicate SteersIn(mode: Mode, ops: seq<Op>, m: Mode) {
    || (m == mode && forall i | 0 <= i < |ops| :: !ops[i].SteeringMode?)
    || exists i :: 0 <= i < |ops| && ops[i] == SteeringMode(m) && forall j | i < j < |ops| :: !ops[j].SteeringMode?
  }

  ghost predicate FollowsIn(mode: Mode, ops: seq<Op>, m: Mode) {
    || (m == mode && forall i | 0 <= i < |ops| :: !ops[i].FollowUpMode?)
    || exists i :: 0 <= i < |ops| && ops[i] == FollowUpMode(m) && forall j | i < j < |ops| :: !ops[j].FollowUpMode?
  }

  /** Messages are queued behind those that wait. */
  lemma {:induction false} OpsQueue(p: Pair, ops: seq<Op>)
    ensures p.ApplyAll(ops).steering.messages == p.steering.messages + Steered(ops)
    ensures p.ApplyAll(ops).followUp.messages == p.followUp.messages + Followed(ops)
  {
    if ops == [] {
      assert p.steering.messages + [] == p.steering.messages && p.followUp.messages + [] == p.followUp.messages;
    } else {
      var init, op := ops[..|ops| - 1], ops[|ops| - 1];
      OpsQueue(p, init);
      Regroup(p.steering.messages, Steered(init), SteeredBy(op));
      Regroup(p.followUp.messages, Followed(init), FollowedBy(op));
      var q := p.ApplyAll(init);
      assert q.steering.messages + [] == q.steering.messages && q.followUp.messages + [] == q.followUp.messages;
    }
  }

  lemma {:induction false} OpsSetMode(p: Pair, ops: seq<Op>)
    ensures SteersIn(p.steering.mode, ops, p.ApplyAll(ops).steering.mode)
    ensures FollowsIn(p.followUp.mode, ops, p.ApplyAll(ops).followUp.mode)
  {
    if ops != [] {
      var init, n := ops[..|ops| - 1], |ops| - 1;
      OpsSetMode(p, init);
      var q, r := p.ApplyAll(init), p.ApplyAll(ops);
      if !ops[n].SteeringMode? {
        SteersOn(p.steering.mode, ops, q.steering.mode);
      }
      if !ops[n].FollowUpMode? {
        FollowsOn(p.followUp.mode, ops, q.followUp.mode);
      }
    }
  }

  lemma SteersOn(mode: Mode, ops: seq<Op>, m: Mode)
    requires ops != [] && !ops[|ops| - 1].SteeringMode? && SteersIn(mode, ops[..|ops| - 1], m)
    ensures SteersIn(mode, ops, m)
  {
    var init := ops[..|ops| - 1];
    forall j | 0 <= j < |init| ensures init[j] == ops[j] {}
    if i :| 0 <= i < |init| && init[i] == SteeringMode(m) && forall j | i < j < |init| :: !init[j].SteeringMode? {
      assert ops[i] == SteeringMode(m);
      forall j | i < j < |ops| ensures !ops[j].SteeringMode? { assert j < |init| ==> ops[j] == init[j]; }
    }
  }

  lemma FollowsOn(mode: Mode, ops: seq<Op>, m: Mode)
    requires ops != [] && !ops[|ops| - 1].FollowUpMode? && FollowsIn(mode, ops[..|ops| - 1], m)
    ensures FollowsIn(mode, ops, m)
  {
    var init := ops[..|ops| - 1];
    forall j | 0 <= j < |init| ensures init[j] == ops[j] {}
    if i :| 0 <= i < |init| && init[i] == FollowUpMode(m) && forall j | i < j < |init| :: !init[j].FollowUpMode? {
      assert ops[i] == FollowUpMode(m);
      forall j | i < j < |ops| ensures !ops[j].FollowUpMode? { assert j < |init| ==> ops[j] == init[j]; }
    }
  }

  // ---------- What a poll takes

  /** In mode `All` everything that waits is taken, and otherwise the first of it. */
  ghost predicate Takes(mode: Mode, waiting: seq<Message>, taken: seq<Message>, left: seq<Message>) {
    && taken + left == waiting
    && (mode == All ==> left == [])
    && (mode == OneAtATime ==> |taken| == if waiting == [] then 0 else 1)
  }

  lemma DrainTakes(q: Queue)
    ensures Takes(q.mode, q.messages, q.Next(), q.Drain().messages)
  {
  }

  /** What the polls at the end of a turn put in flight: steering messages if any wait,
      and else, if the reply used no tools, follow-ups. */
  ghost predicate PolledIn(mode: Mode, r: Run, t: TurnInput, f: Run)
    requires t.stream.end.Replied?
  {
    var waiting := r.queues.steering.messages + Steered(t.beforeSteering);
    if !r.skipPoll && waiting != [] then
      f.source == Steering && f.pending != [] && Takes(mode, waiting, f.pending, f.queues.steering.messages)
    else if t.stream.end.reply.stop.ToolUse? then f.pending == [] && f.queues.steering.messages == waiting
    else
      && f.queues.steering.messages == waiting + Steered(t.beforeFollowUp)
      && f.source == FollowUp && f.pending != [] && TookFollowUp(r, t, f)
  }

  ghost predicate Polled(r: Run, t: TurnInput, f: Run)
    requires t.stream.end.Replied?
  {
    exists mode :: SteersIn(r.queues.steering.mode, t.beforeSteering, mode) && PolledIn(mode, r, t, f)
  }

  ghost predicate TookFollowUp(r: Run, t: TurnInput, f: Run) {
    exists mode ::
      && FollowsIn(r.queues.followUp.mode, t.beforeSteering + t.beforeFollowUp, mode)
      && Takes(mode, r.queues.followUp.messages + Followed(t.beforeSteering) + Followed(t.beforeFollowUp),
               f.pending, f.queues.followUp.messages)
  }

  lemma {:induction false} OpsSplit(p: Pair, a: seq<Op>, b: seq<Op>)
    ensures p.ApplyAll(a + b) == p.ApplyAll(a).ApplyAll(b)
  {
    if b == [] {
      assert a + b == a;
    } else {
      assert (a + b)[..|a + b| - 1] == a + b[..|b| - 1];
      OpsSplit(p, a, b[..|b| - 1]);
    }
  }

  /** The follow-up queue when it is polled: the steering poll does not touch it. */
  lemma FollowUpsWaiting(p: Pair, steering: Queue, before: seq<Op>, later: seq<Op>)
    ensures var q := p.ApplyAll(before).(steering := steering).ApplyAll(later);
            && q.followUp.messages == p.followUp.messages + Followed(before) + Followed(later)
            && FollowsIn(p.followUp.mode, before + later, q.followUp.mode)
            && q.steering.messages == steering.messages + Steered(later)
  {
    var mid := p.ApplyAll(before).(steering := steering);
    OpsQueue(p, before);
    OpsQueue(mid, later);
    OpsSetMode(p, before + later);
    OpsSplit(p, before, later);
    SameFollowUp(mid, p.ApplyAll(before), later);
  }

  lemma {:induction false} SameFollowUp(p: Pair, q: Pair, ops: seq<Op>)
    requires p.followUp == q.followUp
    ensures p.ApplyAll(ops).followUp == q.ApplyAll(ops).followUp
  {
    if ops != [] { SameFollowUp(p, q, ops[..|ops| - 1]); }
  }

  lemma ProceedPolls(r: Run, t: TurnInput)
    requires t.stream.end.Replied? && r.pending == [] && Proceed(r, t.stream.end.reply.stop.ToolUse?, t).1 == Going
    ensures Polled(r, t, Proceed(r, t.stream.end.reply.stop.ToolUse?, t).0)
  {
    var q := r.queues.ApplyAll(t.beforeSteering);
    var f := Proceed(r, t.stream.end.reply.stop.ToolUse?, t).0;
    OpsQueue(r.queues, t.beforeSteering);
    OpsSetMode(r.queues, t.beforeSteering);
    DrainTakes(q.steering);
    var (steered, r1) := PollSteering(Act(r, t.beforeSteering));
    if steered == [] && !t.stream.end.reply.stop.ToolUse? {
      var p := Act(r1, t.beforeFollowUp).queues;
      assert r1.queues == q.(steering := r1.queues.steering);
      FollowUpsWaiting(r.queues, r1.queues.steering, t.beforeSteering, t.beforeFollowUp);
      DrainTakes(p.followUp);
      assert Takes(p.followUp.mode, p.followUp.messages, f.pending, f.queues.followUp.messages);
      assert f.pending == p.followUp.Next() && f.queues.followUp == p.followUp.Drain() && f.queues.steering == p.steering;
      assert TookFollowUp(r, t, f);
      assert f.queues.steering.messages == r.queues.steering.messages + Steered(t.beforeSteering) + Steered(t.beforeFollowUp);
    }
    assert PolledIn(q.steering.mode, r, t, f);
  }

  lemma TurnProceeds(cfg: Config, r: Run, t: TurnInput) returns (n: Run)
    requires Turn(cfg, r, t).1 == Going
    ensures t.stream.end.Replied? && n.queues == r.queues && n.skipPoll == r.skipPoll && n.pending == []
    ensures Turn(cfg, r, t) == Proceed(n, t.stream.end.reply.stop.ToolUse?, t)
  {
    var r1, reply := Replying(r, t), t.stream.end.reply;
    n := Replace(WithResults(r1, BatchOf(cfg, r1, reply, t), reply, t.schedule), t);
  }

  lemma PolledAlike(r: Run, n: Run, t: TurnInput, f: Run)
    requires t.stream.end.Replied? && n.queues == r.queues && n.skipPoll == r.skipPoll && Polled(n, t, f)
    ensures Polled(r, t, f)
  {
  }

  /** After a turn that does not stop the run, the polls have put in flight what their
      modes say, and left the rest. */
  lemma TurnPolls(cfg: Config, r: Run, t: TurnInput)
    requires Turn(cfg, r, t).1 == Going
    ensures t.stream.end.Replied? && Polled(r, t, Turn(cfg, r, t).0)
  {
    var n := TurnProceeds(cfg, r, t);
    ProceedPolls(n, t);
    PolledAlike(r, n, t, Turn(cfg, r, t).0);
  }

  /** The poll before the first turn, which a continuation from the queue skips. */
  lemma FirstPollTakes(r: Run, ops: seq<Op>)
    ensures var f := FirstPoll(r, ops); var waiting := r.queues.steering.messages + Steered(ops);
            if r.skipPoll then f.pending == [] && f.queues.steering.messages == waiting && !f.skipPoll
            else exists mode :: SteersIn(r.queues.steering.mode, ops, mode) && Takes(mode, waiting, f.pending, f.queues.steering.messages)
  {
    OpsQueue(r.queues, ops);
    OpsSetMode(r.queues, ops);
    DrainTakes(r.queues.ApplyAll(ops).steering);
  }

  // ---------- Over a whole run

  /** Nobody sets the steering queue to another mode. */
  predicate Steady(mode: Mode, ops: seq<Op>) {
    forall i | 0 <= i < |ops| && ops[i].SteeringMode? :: ops[i].mode == mode
  }

  ghost predicate SteadyRun(mode: Mode, script: seq<TurnInput>) {
    forall i | 0 <= i < |script| :: Steady(mode, script[i].beforeSteering) && Steady(mode, script[i].beforeFollowUp)
  }

  lemma SteadySteers(mode: Mode, ops: seq<Op>, m: Mode)
    requires Steady(mode, ops) && SteersIn(mode, ops, m)
    ensures m == mode
  {
  }

  /** Between the turns of a run: one steering message at a time is in flight, or, in mode
      `All`, none is left waiting but those of `late`, which came after the poll. */
  ghost predicate Regular(mode: Mode, s: Run, late: seq<Message>) {
    && s.queues.steering.mode == mode && !s.skipPoll
    && (mode == OneAtATime && s.source == Steering ==> |s.pending| <= 1)
    && (mode == All ==> s.queues.steering.messages == [] || s.queues.steering.messages == late)
  }

  lemma ModeStays(p: Pair, mode: Mode, ops: seq<Op>)
    requires p.steering.mode == mode && Steady(mode, ops)
    ensures p.ApplyAll(ops).steering.mode == mode
  {
    OpsSetMode(p, ops);
    SteadySteers(mode, ops, p.ApplyAll(ops).steering.mode);
  }

  lemma ProceedMode(r: Run, mode: Mode, continues: bool, t: TurnInput)
    requires r.queues.steering.mode == mode && Steady(mode, t.beforeSteering) && Steady(mode, t.beforeFollowUp)
    ensures var f := Proceed(r, continues, t).0; f.queues.steering.mode == mode && !f.skipPoll
  {
    ModeStays(r.queues, mode, t.beforeSteering);
    var r1 := PollSteering(Act(r, t.beforeSteering)).1;
    ModeStays(r1.queues, mode, t.beforeFollowUp);
  }

  lemma PolledRegular(mode: Mode, r: Run, t: TurnInput, f: Run)
    requires t.stream.end.Replied? && Polled(r, t, f) && r.queues.steering.mode == mode && !r.skipPoll
    requires Steady(mode, t.beforeSteering) && f.queues.steering.mode == mode && !f.skipPoll
    ensures Regular(mode, f, Steered(t.beforeFollowUp))
  {
    var m :| SteersIn(r.queues.steering.mode, t.beforeSteering, m) && PolledIn(m, r, t, f);
    SteadySteers(mode, t.beforeSteering, m);
    assert [] + Steered(t.beforeFollowUp) == Steered(t.beforeFollowUp);
  }

  lemma TurnRegular(cfg: Config, mode: Mode, r: Run, t: TurnInput)
    requires Turn(cfg, r, t).1 == Going && r.queues.steering.mode == mode && !r.skipPoll
    requires Steady(mode, t.beforeSteering) && Steady(mode, t.beforeFollowUp)
    ensures Regular(mode, Turn(cfg, r, t).0, Steered(t.beforeFollowUp))
  {
    TurnPolls(cfg, r, t);
    var n := TurnProceeds(cfg, r, t);
    ProceedMode(n, mode, t.stream.end.reply.stop.ToolUse?, t);
    PolledRegular(mode, r, t, Turn(cfg, r, t).0);
  }

  lemma {:induction false} TurnsRegular(cfg: Config, mode: Mode, r: Run, script: seq<TurnInput>, late: seq<Message>, i: nat)
    requires Regular(mode, r, late) && SteadyRun(mode, script) && i < TurnsTaken(cfg, r, script)
    ensures Regular(mode, StateAt(cfg, r, script, i), if i == 0 then late else Steered(script[i - 1].beforeFollowUp))
    decreases |script|
  {
    if i > 0 {
      TurnRegular(cfg, mode, r, script[0]);
      assert SteadyRun(mode, script[1..]) && (i > 1 ==> script[1..][i - 2] == script[i - 1]);
      TurnsRegular(cfg, mode, Turn(cfg, r, script[0]).0, script[1..], Steered(script[0].beforeFollowUp), i - 1);
    }
  }

  /** Over a run whose steering queue stays in one mode: at the start of every turn at most
      one steering message is in flight, or, in mode `All`, nothing waits that was there at
      the last poll. A continuation skips its first poll and leaves what waits then. */
  lemma RunRegular(cfg: Config, mode: Mode, r: Run, ops: seq<Op>, script: seq<TurnInput>, i: nat)
    requires r.queues.steering.mode == mode && Steady(mode, ops) && SteadyRun(mode, script)
    requires i < TurnsTaken(cfg, FirstPoll(r, ops), script)
    ensures var late := if i > 0 then Steered(script[i - 1].beforeFollowUp)
                        else if r.skipPoll then r.queues.steering.messages + Steered(ops) else [];
            Regular(mode, StateAt(cfg, FirstPoll(r, ops), script, i), late)
  {
    var f := FirstPoll(r, ops);
    FirstPollTakes(r, ops);
    ModeStays(r.queues, mode, ops);
    if !r.skipPoll {
      var m :| SteersIn(r.queues.steering.mode, ops, m)
        && Takes(m, r.queues.steering.messages + Steered(ops), f.pending, f.queues.steering.messages);
      SteadySteers(mode, ops, m);
    }
    TurnsRegular(cfg, mode, f, script, if r.skipPoll then r.queues.steering.messages + Steered(ops) else [], i);
  }

  // ---------- Continuing

  /** What a continuation after an assistant message starts with: queued steering messages,
      or else follow-ups; it is refused exactly if neither queue holds any. */
  lemma ContinuesWith(context: seq<Message>, tools: seq<Tool>, queues: Pair, started: nat)
    requires context != [] && context[|context| - 1].Assistant?
    ensures match Continuation(context, tools, queues, started)
            case None => queues.steering.messages == [] && queues.followUp.messages == []
            case Some(r) =>
              && r.context == context + r.newMessages && r.newMessages != [] && r.tools == tools && r.pending == []
              && if queues.steering.messages != [] then
                   && Takes(queues.steering.mode, queues.steering.messages, r.newMessages, r.queues.steering.messages)
                   && r.queues.followUp == queues.followUp && r.skipPoll
                   && r.log == [Loop(AgentStart), Loop(TurnStart)] + InjectLog(Steering, r.newMessages)
                 else
                   && Takes(queues.followUp.mode, queues.followUp.messages, r.newMessages, r.queues.followUp.messages)
                   && r.queues.steering == queues.steering && !r.skipPoll
                   && r.log == [Loop(AgentStart), Loop(TurnStart)] + InjectLog(FollowUp, r.newMessages)
  {
    DrainTakes(queues.steering);
    DrainTakes(queues.followUp);
  }
}
