/** The pending set in every state of a whole run. */
module RunPending {
  import opened AgentTypes
  import opened AgentStates
  import opened Queues
  import opened ToolCalls
  import opened ToolBatches
  import opened AgentLoops
  import opened RunLogs
  import opened RunShape
  import opened RunTools
  import opened PendingCalls

  /** The k-th started call of the run is under way, and `id` is its id. */
  ghost predicate PendingCall(seen: Log, k: nat, id: string) {
    UnderWay(seen, k) && var e := Project(seen, k)[0]; e.Emit? && e.event.ToolStart? && e.event.call.id == id
  }

  /** `id` is pending if and only if it is the id of a call under way. */
  ghost predicate Exact(v: View, seen: Log, id: string) {
    id in Replay(v, seen).pending <==> exists k: nat :: PendingCall(seen, k, id)
  }

  ghost predicate Tracked(v: View, log: Log) {
    forall m: nat, id | m <= |log| :: Exact(v, log[..m], id)
  }

  /** Tracked so far, with nothing under way and no call numbered ahead. */
  ghost predicate Settled(v: View, log: Log, started: nat) {
    && Tracked(v, log) && Replay(v, log).pending == {}
    && (forall k: nat :: !UnderWay(log, k))
    && (forall k: nat | k >= started :: Project(log, k) == [])
  }

  lemma CallAfter(log: Log, x: Log, base: nat, k: nat, id: string)
    requires !UnderWay(log, k) && (k >= base ==> Project(log, k) == []) && (k < base ==> Project(x, k) == [])
    ensures PendingCall(log + x, k, id) <==> PendingCall(x, k, id)
    ensures UnderWay(log + x, k) <==> UnderWay(x, k)
  {
    ProjectConcat(log, x, k);
    if k < base { assert Project(log, k) + [] == Project(log, k); } else { assert [] + Project(x, k) == Project(x, k); }
  }

  lemma ExactAfter(v: View, log: Log, x: Log, base: nat, id: string)
    requires Settled(v, log, base) && Exact(Replay(v, log), x, id) && forall k: nat | k < base :: Project(x, k) == []
    ensures Exact(v, log + x, id)
  {
    ReplayConcat(v, log, x);
    forall k: nat ensures PendingCall(log + x, k, id) <==> PendingCall(x, k, id) { CallAfter(log, x, base, k, id); }
  }

  lemma EmptyProjects(log: Log, m: nat, k: nat)
    requires m <= |log| && Project(log, k) == []
    ensures Project(log[..m], k) == []
  {
    PrefixProjects(log, m, k);
  }

  lemma TrackedAfter(v: View, log: Log, more: Log, base: nat)
    requires Settled(v, log, base) && Tracked(Replay(v, log), more) && forall k: nat | k < base :: Project(more, k) == []
    ensures Tracked(v, log + more)
  {
    var n := log + more;
    forall m: nat, id | m <= |n| ensures Exact(v, n[..m], id) {
      if m <= |log| {
        assert n[..m] == log[..m];
      } else {
        var x := more[..m - |log|];
        assert n[..m] == log + x;
        forall k: nat | k < base ensures Project(x, k) == [] { EmptyProjects(more, m - |log|, k); }
        ExactAfter(v, log, x, base, id);
      }
    }
  }

  lemma SettledAfter(v: View, log: Log, more: Log, base: nat, started: nat)
    requires Settled(v, log, base) && Settled(Replay(v, log), more, started) && base <= started
    requires forall k: nat | k < base :: Project(more, k) == []
    ensures Settled(v, log + more, started)
  {
    TrackedAfter(v, log, more, base);
    ReplayConcat(v, log, more);
    forall k: nat ensures !UnderWay(log + more, k) && (k >= started ==> Project(log + more, k) == []) {
      CallAfter(log, more, base, k, "");
      ProjectConcat(log, more, k);
    }
  }

  // ---------- Pieces of a run

  predicate Idle(o: Obs) {
    NoToolEvent(o) && !o.Of?
  }

  lemma IdleProjects(log: Log, k: nat)
    requires forall o | o in log :: Idle(o)
    ensures Project(log, k) == []
  {
    ProjectForeign(log, k);
  }

  lemma IdleSettled(v: View, log: Log)
    requires v.pending == {} && forall o | o in log :: Idle(o)
    ensures Settled(v, log, 0)
  {
    forall m: nat, id | m <= |log| ensures Exact(v, log[..m], id) {
      forall o | o in log[..m] ensures Idle(o) {}
      PendingUnchanged(v, log[..m]);
      forall k: nat ensures !PendingCall(log[..m], k, id) { IdleProjects(log[..m], k); }
    }
    PendingUnchanged(v, log);
    forall k: nat ensures Project(log, k) == [] { IdleProjects(log, k); }
  }

  lemma SettledIdle(v: View, log: Log, started: nat, more: Log)
    requires Settled(v, log, started) && forall o | o in more :: Idle(o)
    ensures Settled(v, log + more, started)
  {
    IdleSettled(Replay(v, log), more);
    forall k: nat ensures Project(more, k) == [] { IdleProjects(more, k); }
    SettledAfter(v, log, more, started, started);
  }

  ghost predicate DistinctCalls(calls: seq<Call>) {
    forall i, j | 0 <= i < j < |calls| :: calls[i].id != calls[j].id
  }

  lemma StartedDistinct(b: Batch)
    requires DistinctCalls(b.calls)
    ensures DistinctIds(BatchFinals(b))
  {
    forall n | 0 <= n < |BatchFinals(b)| ensures BatchFinals(b)[n].call == b.calls[n] { BatchLifeLived(b, n); }
  }

  /** A call under way shows its start. */
  lemma UnderWayOwned(log: Log, base: nat, finals: seq<Finalized>, m: nat, n: nat)
    requires Lived(log, base, finals) && m <= |log| && n < |finals| && UnderWay(log[..m], base + n)
    ensures PendingCall(log[..m], base + n, finals[n].call.id)
  {
    LivedAt(log, base, finals, n);
    FirstShown(log, m, base + n, finals[n].call, finals[n]);
  }

  lemma FirstShown(log: Log, m: nat, k: nat, call: Call, final: Finalized)
    requires StartsAndEnds(Project(log, k), call, final) && m <= |log| && Project(log[..m], k) != []
    ensures Project(log[..m], k)[0] == Emit(ToolStart(call))
  {
    PrefixProjects(log, m, k);
  }

  lemma PendingHasCall(v: View, log: Log, base: nat, finals: seq<Finalized>, m: nat, id: string)
    requires v.pending == {} && Lived(log, base, finals) && DistinctIds(finals) && m <= |log|
    requires id in Replay(v, log[..m]).pending
    ensures exists k: nat :: PendingCall(log[..m], k, id)
  {
    PendingIsOwned(v, log, base, finals, m, id);
    var n :| 0 <= n < |finals| && finals[n].call.id == id;
    LivedPending(v, log, base, finals, m, n);
    UnderWayOwned(log, base, finals, m, n);
  }

  lemma CallIsPending(v: View, log: Log, base: nat, finals: seq<Finalized>, m: nat, id: string, n: nat)
    requires v.pending == {} && Lived(log, base, finals) && DistinctIds(finals) && m <= |log| && n < |finals|
    requires PendingCall(log[..m], base + n, id)
    ensures id in Replay(v, log[..m]).pending
  {
    UnderWayOwned(log, base, finals, m, n);
    LivedPending(v, log, base, finals, m, n);
  }

  lemma OnlyCallsAhead(log: Log, base: nat, count: nat, m: nat, k: nat, id: string)
    requires m <= |log| && PendingCall(log[..m], k, id)
    requires k < base || k >= base + count ==> Project(log, k) == []
    ensures base <= k < base + count
  {
    if k < base || k >= base + count { EmptyProjects(log, m, k); }
  }

  lemma CallAtIsPending(v: View, log: Log, base: nat, finals: seq<Finalized>, m: nat, id: string, k: nat)
    requires v.pending == {} && Lived(log, base, finals) && DistinctIds(finals) && m <= |log|
    requires PendingCall(log[..m], k, id) && base <= k < base + |finals|
    ensures id in Replay(v, log[..m]).pending
  {
    var n := k - base;
    assert base + n == k;
    CallIsPending(v, log, base, finals, m, id, n);
  }

  lemma LivedExact(v: View, log: Log, base: nat, finals: seq<Finalized>, m: nat, id: string)
    requires v.pending == {} && Lived(log, base, finals) && DistinctIds(finals) && m <= |log|
    requires forall k: nat | k < base || k >= base + |finals| :: Project(log, k) == []
    ensures Exact(v, log[..m], id)
  {
    if id in Replay(v, log[..m]).pending { PendingHasCall(v, log, base, finals, m, id); }
    forall k: nat | PendingCall(log[..m], k, id) ensures id in Replay(v, log[..m]).pending {
      OnlyCallsAhead(log, base, |finals|, m, k, id);
      CallAtIsPending(v, log, base, finals, m, id, k);
    }
  }

  lemma NothingUnderWay(log: Log, base: nat, finals: seq<Finalized>, k: nat)
    requires Lived(log, base, finals) && (k < base || k >= base + |finals| ==> Project(log, k) == [])
    ensures !UnderWay(log, k)
  {
    if base <= k < base + |finals| {
      LivedAt(log, base, finals, k - base);
      var p := Project(log, k);
      assert p[|p| - 1] in p;
    }
  }

  lemma BatchSettled(v: View, b: Batch, schedule: seq<nat>)
    requires v.pending == {} && DistinctCalls(b.calls)
    ensures Settled(v, BatchLog(b, schedule), b.base + StartedFrom(b, 0))
    ensures forall k: nat | k < b.base :: Project(BatchLog(b, schedule), k) == []
  {
    BatchLived(b, schedule);
    StartedDistinct(b);
    forall k: nat | k < b.base || k >= b.base + StartedFrom(b, 0) ensures Project(BatchLog(b, schedule), k) == [] {
      BatchSilent(b, schedule, k);
    }
    BatchLeavesNothingPending(v, b, schedule);
    LivedSettled(v, BatchLog(b, schedule), b.base, BatchFinals(b));
  }

  lemma LivedSettled(v: View, log: Log, base: nat, finals: seq<Finalized>)
    requires v.pending == {} && Lived(log, base, finals) && DistinctIds(finals) && Replay(v, log).pending == {}
    requires forall k: nat | k < base || k >= base + |finals| :: Project(log, k) == []
    ensures Settled(v, log, base + |finals|)
  {
    forall m: nat, id | m <= |log| ensures Exact(v, log[..m], id) { LivedExact(v, log, base, finals, m, id); }
    forall k: nat ensures !UnderWay(log, k) { NothingUnderWay(log, base, finals, k); }
  }

  lemma SettledBatch(v: View, log: Log, b: Batch, schedule: seq<nat>)
    requires Settled(v, log, b.base) && DistinctCalls(b.calls)
    ensures Settled(v, log + BatchObs(b, schedule), b.base + StartedOf(b))
  {
    if b.calls == [] {
      assert log + [] == log;
    } else {
      BatchSettled(Replay(v, log), b, schedule);
      SettledAfter(v, log, BatchLog(b, schedule), b.base, b.base + StartedFrom(b, 0));
    }
  }

  // ---------- The run

  /** The calls of the turn's reply have distinct ids. */
  ghost predicate DistinctTurn(t: TurnInput) {
    t.stream.end.Replied? ==> DistinctCalls(CallsOf(t.stream.end.reply.content))
  }

  ghost predicate RunSettled(v: View, r: Run) {
    Settled(v, r.log, r.started)
  }

  lemma FinishSettled(v: View, r: Run)
    requires RunSettled(v, r)
    ensures RunSettled(v, Finish(r))
  {
    SettledIdle(v, r.log, r.started, [Loop(AgentEnd(r.newMessages))]);
  }

  lemma TurnEndSettled(v: View, r: Run, reply: Reply, results: seq<Message>)
    requires RunSettled(v, r)
    ensures RunSettled(v, r.(log := r.log + [Loop(TurnEnd(reply, results))]))
  {
    SettledIdle(v, r.log, r.started, [Loop(TurnEnd(reply, results))]);
  }

  lemma ResultsSettled(v: View, r: Run, b: Batch, reply: Reply, schedule: seq<nat>)
    requires RunSettled(v, r) && b.base == r.started && DistinctCalls(b.calls)
    ensures RunSettled(v, WithResults(r, b, reply, schedule))
  {
    SettledBatch(v, r.log, b, schedule);
    SettledIdle(v, r.log + BatchObs(b, schedule), r.started + StartedOf(b), [Loop(TurnEnd(reply, ResultsOf(b)))]);
  }

  lemma ProceedSettled(v: View, r: Run, continues: bool, t: TurnInput)
    requires RunSettled(v, r)
    ensures RunSettled(v, Proceed(r, continues, t).0)
  {
    var (steered, r1) := PollSteering(Act(r, t.beforeSteering));
    FinishSettled(v, PollFollowUp(Act(r1, t.beforeFollowUp)).1);
  }

  lemma AfterReplySettled(cfg: Config, v: View, r: Run, reply: Reply, t: TurnInput)
    requires RunSettled(v, r) && DistinctCalls(CallsOf(reply.content))
    ensures RunSettled(v, AfterReply(cfg, r, reply, t).0)
  {
    if reply.stop.Error? || reply.stop.Aborted? {
      TurnEndSettled(v, r, reply, []);
      FinishSettled(v, r.(log := r.log + [Loop(TurnEnd(reply, []))]));
    } else {
      var b := BatchOf(cfg, r, reply, t);
      var r1 := WithResults(r, b, reply, t.schedule);
      ResultsSettled(v, r, b, reply, t.schedule);
      FinishSettled(v, r1);
      ProceedSettled(v, Replace(r1, t), reply.stop.ToolUse?, t);
    }
  }

  lemma OpenTurnSettled(v: View, r: Run)
    requires RunSettled(v, r)
    ensures RunSettled(v, OpenTurn(r))
  {
    var opening: Log := if r.firstTurn then [] else [Loop(TurnStart)];
    InjectTells(r.source, r.pending);
    SettledIdle(v, r.log, r.started, opening);
    SettledIdle(v, r.log + opening, r.started, InjectLog(r.source, r.pending));
  }

  lemma TurnSettled(cfg: Config, v: View, r: Run, t: TurnInput)
    requires RunSettled(v, r) && DistinctTurn(t)
    ensures RunSettled(v, Turn(cfg, r, t).0)
  {
    var r1 := OpenTurn(r);
    var s := StreamReply(r1.context, t.stream);
    OpenTurnSettled(v, r);
    ReplyTells(r1.context, t.stream);
    SettledIdle(v, r1.log, r1.started, s.log);
    if t.stream.end.Replied? {
      AfterReplySettled(cfg, v, WithReply(r1, s, t.stream.end.reply), t.stream.end.reply, t);
    }
  }

  /** In every batch of a turn that is taken, the ids are distinct. */
  ghost predicate DistinctBatches(cfg: Config, r: Run, script: seq<TurnInput>) {
    forall i | 0 <= i < TurnsTaken(cfg, r, script) :: DistinctTurn(script[i])
  }

  lemma {:induction false} TurnsSettled(cfg: Config, v: View, r: Run, script: seq<TurnInput>)
    requires RunSettled(v, r) && DistinctBatches(cfg, r, script)
    ensures RunSettled(v, Turns(cfg, r, script).0)
    decreases |script|
  {
    if script != [] {
      TurnSettled(cfg, v, r, script[0]);
      var (r1, status) := Turn(cfg, r, script[0]);
      if status == Going {
        forall i | 0 <= i < TurnsTaken(cfg, r1, script[1..]) ensures DistinctTurn(script[1..][i]) {
          assert script[1..][i] == script[i + 1];
        }
        TurnsSettled(cfg, v, r1, script[1..]);
      }
    }
  }

  lemma StartSettled(v: View, context: seq<Message>, tools: seq<Tool>, prompts: seq<Message>, source: Source,
                     queues: Pair, skipPoll: bool, started: nat)
    requires v.pending == {}
    ensures RunSettled(v, StartRun(context, tools, prompts, source, queues, skipPoll, started))
  {
    InjectTells(source, prompts);
    IdleSettled(v, StartRun(context, tools, prompts, source, queues, skipPoll, started).log);
  }

  lemma FailureSettled(v: View, log: Log, started: nat, message: string, aborted: bool)
    requires Settled(v, log, started)
    ensures Settled(v, log + FailureLog(message, aborted), started)
  {
    SettledIdle(v, log, started, FailureLog(message, aborted));
  }

  /** In every state of a run whose batches have distinct ids, the pending set is exactly
      the set of ids of the calls that have started and not ended. */
  lemma PendingIsExact(cfg: Config, v: View, context: seq<Message>, tools: seq<Tool>, prompts: seq<Message>, source: Source,
                       queues: Pair, skipPoll: bool, started: nat, ops: seq<Op>, script: seq<TurnInput>, m: nat, id: string)
    requires v.pending == {}
    requires var r := StartRun(context, tools, prompts, source, queues, skipPoll, started);
             DistinctBatches(cfg, FirstPoll(r, ops), script) && m <= |Perform(cfg, r, ops, script).0.log|
    ensures var seen := Perform(cfg, StartRun(context, tools, prompts, source, queues, skipPoll, started), ops, script).0.log[..m];
            id in Replay(v, seen).pending <==> exists k: nat :: PendingCall(seen, k, id)
  {
    var r := StartRun(context, tools, prompts, source, queues, skipPoll, started);
    StartSettled(v, context, tools, prompts, source, queues, skipPoll, started);
    TurnsSettled(cfg, v, FirstPoll(r, ops), script);
    var (f, status) := Turns(cfg, FirstPoll(r, ops), script);
    if status.Failed? { FailureSettled(v, f.log, f.started, status.message, status.aborted); }
    assert Exact(v, Perform(cfg, r, ops, script).0.log[..m], id);
  }
}
