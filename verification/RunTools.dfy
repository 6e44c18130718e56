/** Tool calls over whole runs: the approval gate, and the set of pending calls. */
module RunTools {
  import opened CanonicalJson
  import opened JsonEquality
  import opened AgentTypes
  import opened AgentStates
  import opened Queues
  import opened ToolCalls
  import opened ToolBatches
  import opened ApprovalGate
  import opened AgentLoops
  import opened RunLogs

  // ---------- The gate

  ghost predicate Sound(digest: Text -> Text, p: seq<Entry>) {
    Gate(digest, p) && Binding(digest, p)
  }

  /** Every call's observations so far pass the gate; no call is numbered ahead. */
  ghost predicate Gated(digest: Text -> Text, log: Log, started: nat) {
    && (forall k: nat :: Sound(digest, Project(log, k)))
    && (forall k: nat | k >= started :: Project(log, k) == [])
  }

  lemma ProjectQuiet(log: Log, more: Log, k: nat)
    requires forall o | o in more :: !o.Of?
    ensures Project(log + more, k) == Project(log, k)
  {
    ProjectConcat(log, more, k);
    ProjectForeign(more, k);
  }

  lemma GatedQuiet(digest: Text -> Text, log: Log, started: nat, more: Log)
    requires Gated(digest, log, started) && forall o | o in more :: !o.Of?
    ensures Gated(digest, log + more, started)
  {
    forall k: nat ensures Project(log + more, k) == Project(log, k) { ProjectQuiet(log, more, k); }
  }

  lemma BatchEntries(log: Log, b: Batch, schedule: seq<nat>, k: nat)
    requires k >= b.base ==> Project(log, k) == []
    ensures var p := Project(log + BatchLog(b, schedule), k);
            if b.base <= k < b.base + StartedFrom(b, 0)
            then p == CallLog(b.cfg, b.tools, b.calls[k - b.base], b.inputs(k - b.base))
            else p == Project(log, k)
  {
    ProjectConcat(log, BatchLog(b, schedule), k);
    BatchCallLog(b, schedule, k);
  }

  lemma CallSound(cfg: Config, tools: seq<Tool>, call: Call, input: CallInput)
    ensures Sound(cfg.digest, CallLog(cfg, tools, call, input))
  {
    CallLogGated(cfg, tools, call, input);
    CallLogBinds(cfg, tools, call, input);
  }

  lemma EntriesSound(log: Log, b: Batch, schedule: seq<nat>, k: nat)
    requires (k >= b.base ==> Project(log, k) == []) && Sound(b.cfg.digest, Project(log, k))
    ensures Sound(b.cfg.digest, Project(log + BatchLog(b, schedule), k))
    ensures k >= b.base + StartedFrom(b, 0) ==> Project(log + BatchLog(b, schedule), k) == []
  {
    BatchEntries(log, b, schedule, k);
    if b.base <= k < b.base + StartedFrom(b, 0) {
      CallSound(b.cfg, b.tools, b.calls[k - b.base], b.inputs(k - b.base));
    }
  }

  lemma GatedBatch(log: Log, b: Batch, schedule: seq<nat>)
    requires Gated(b.cfg.digest, log, b.base)
    ensures Gated(b.cfg.digest, log + BatchLog(b, schedule), b.base + StartedFrom(b, 0))
  {
    forall k: nat
      ensures Sound(b.cfg.digest, Project(log + BatchLog(b, schedule), k))
      ensures k >= b.base + StartedFrom(b, 0) ==> Project(log + BatchLog(b, schedule), k) == []
    {
      EntriesSound(log, b, schedule, k);
    }
  }

  lemma OpenTurnGated(digest: Text -> Text, r: Run)
    requires Gated(digest, r.log, r.started)
    ensures Gated(digest, OpenTurn(r).log, r.started)
  {
    var opening: Log := if r.firstTurn then [] else [Loop(TurnStart)];
    InjectTells(r.source, r.pending);
    GatedQuiet(digest, r.log, r.started, opening + InjectLog(r.source, r.pending));
    assert r.log + opening + InjectLog(r.source, r.pending) == r.log + (opening + InjectLog(r.source, r.pending));
  }

  lemma ResultsGated(r: Run, b: Batch, reply: Reply, schedule: seq<nat>)
    requires Gated(b.cfg.digest, r.log, r.started) && b.base == r.started
    ensures var n := WithResults(r, b, reply, schedule); Gated(b.cfg.digest, n.log, n.started)
  {
    if b.calls == [] {
      assert r.log + [] == r.log;
    } else {
      GatedBatch(r.log, b, schedule);
    }
    GatedQuiet(b.cfg.digest, r.log + BatchObs(b, schedule), r.started + StartedOf(b), [Loop(TurnEnd(reply, ResultsOf(b)))]);
  }

  lemma FinishGated(digest: Text -> Text, r: Run)
    requires Gated(digest, r.log, r.started)
    ensures Gated(digest, Finish(r).log, r.started)
  {
    GatedQuiet(digest, r.log, r.started, [Loop(AgentEnd(r.newMessages))]);
  }

  lemma ProceedGated(digest: Text -> Text, r: Run, continues: bool, t: TurnInput)
    requires Gated(digest, r.log, r.started)
    ensures var f := Proceed(r, continues, t).0; Gated(digest, f.log, f.started)
  {
    var (steered, r1) := PollSteering(Act(r, t.beforeSteering));
    var (followed, r2) := PollFollowUp(Act(r1, t.beforeFollowUp));
    FinishGated(digest, r2);
  }

  lemma AfterReplyGated(cfg: Config, r: Run, reply: Reply, t: TurnInput)
    requires Gated(cfg.digest, r.log, r.started)
    ensures var f := AfterReply(cfg, r, reply, t).0; Gated(cfg.digest, f.log, f.started)
  {
    if reply.stop.Error? || reply.stop.Aborted? {
      GatedQuiet(cfg.digest, r.log, r.started, [Loop(TurnEnd(reply, []))]);
      FinishGated(cfg.digest, r.(log := r.log + [Loop(TurnEnd(reply, []))]));
    } else {
      var b := BatchOf(cfg, r, reply, t);
      var r1 := WithResults(r, b, reply, t.schedule);
      ResultsGated(r, b, reply, t.schedule);
      FinishGated(cfg.digest, r1);
      ProceedGated(cfg.digest, Replace(r1, t), reply.stop.ToolUse?, t);
    }
  }

  lemma TurnGated(cfg: Config, r: Run, t: TurnInput)
    requires Gated(cfg.digest, r.log, r.started)
    ensures var f := Turn(cfg, r, t).0; Gated(cfg.digest, f.log, f.started)
  {
    var r1 := OpenTurn(r);
    var s := StreamReply(r1.context, t.stream);
    OpenTurnGated(cfg.digest, r);
    ReplyTells(r1.context, t.stream);
    GatedQuiet(cfg.digest, r1.log, r1.started, s.log);
    if t.stream.end.Replied? {
      AfterReplyGated(cfg, WithReply(r1, s, t.stream.end.reply), t.stream.end.reply, t);
    }
  }

  lemma {:induction false} TurnsGated(cfg: Config, r: Run, script: seq<TurnInput>)
    requires Gated(cfg.digest, r.log, r.started)
    ensures var f := Turns(cfg, r, script).0; Gated(cfg.digest, f.log, f.started)
    decreases |script|
  {
    if script != [] {
      TurnGated(cfg, r, script[0]);
      var (r1, status) := Turn(cfg, r, script[0]);
      if status == Going { TurnsGated(cfg, r1, script[1..]); }
    }
  }

  lemma StartGated(digest: Text -> Text, context: seq<Message>, tools: seq<Tool>, prompts: seq<Message>, source: Source,
                   queues: Pair, skipPoll: bool, started: nat)
    ensures Gated(digest, StartRun(context, tools, prompts, source, queues, skipPoll, started).log, started)
  {
    var log := StartRun(context, tools, prompts, source, queues, skipPoll, started).log;
    InjectTells(source, prompts);
    forall k: nat ensures Project(log, k) == [] { ProjectForeign(log, k); }
  }

  /** Over every run, finished, broken or still going, and under every scheduler: a tool
      executes only behind its own approval, and every request put to the user is bound
      to its call by the runtime. */
  lemma RunIsGated(cfg: Config, context: seq<Message>, tools: seq<Tool>, prompts: seq<Message>, source: Source,
                   queues: Pair, skipPoll: bool, started: nat, ops: seq<Op>, script: seq<TurnInput>, k: nat)
    ensures var f := Perform(cfg, StartRun(context, tools, prompts, source, queues, skipPoll, started), ops, script).0;
            Gate(cfg.digest, Project(f.log, k)) && Binding(cfg.digest, Project(f.log, k))
  {
    var r := StartRun(context, tools, prompts, source, queues, skipPoll, started);
    StartGated(cfg.digest, context, tools, prompts, source, queues, skipPoll, started);
    TurnsGated(cfg, FirstPoll(r, ops), script);
    var (f, status) := Turns(cfg, FirstPoll(r, ops), script);
    if status.Failed? { GatedQuiet(cfg.digest, f.log, f.started, FailureLog(status.message, status.aborted)); }
  }

  /** Over every run: an executed call whose prompt was demanded was approved with exactly
      the arguments it runs on, if and only if the classifier did not demand the prompt or
      the hook left the hash of the arguments as it was. */
  lemma RunApprovedAsRunIff(cfg: Config, context: seq<Message>, tools: seq<Tool>, prompts: seq<Message>, source: Source,
                            queues: Pair, skipPoll: bool, started: nat, ops: seq<Op>, script: seq<TurnInput>, k: nat, i: nat)
    requires var f := Perform(cfg, StartRun(context, tools, prompts, source, queues, skipPoll, started), ops, script).0;
             var p := Project(f.log, k);
             i < |p| && p[i].Executed? && Demanded(p)
    ensures var f := Perform(cfg, StartRun(context, tools, prompts, source, queues, skipPoll, started), ops, script).0;
            var p := Project(f.log, k);
            && OwnCall(p)
            && (ApprovedAsRun(cfg.digest, p, i)
                <==> !ClassifierDemands(p) || ArgsHash(cfg.digest, p[1].args) == ArgsHash(cfg.digest, p[i].args))
  {
    RunIsGated(cfg, context, tools, prompts, source, queues, skipPoll, started, ops, script, k);
    var f := Perform(cfg, StartRun(context, tools, prompts, source, queues, skipPoll, started), ops, script).0;
    ApprovedAsRunIff(cfg.digest, Project(f.log, k), i);
  }

  // ---------- Pending calls

  lemma ProjectMember(log: Log, k: nat, e: Entry) returns (j: nat)
    requires e in Project(log, k)
    ensures j < |log| && log[j] == Of(k, e)
  {
    var n := |log| - 1;
    if log[n].Of? && log[n].k == k && log[n].entry == e {
      j := n;
    } else {
      j := ProjectMember(log[..n], k, e);
    }
  }

  lemma MemberProject(log: Log, j: nat, k: nat)
    requires j < |log| && log[j].Of? && log[j].k == k
    ensures log[j].entry in Project(log, k)
  {
    var n := |log| - 1;
    if j < n {
      assert log[..n][j] == log[j];
      MemberProject(log[..n], j, k);
    }
  }

  ghost predicate StartsAndEnds(p: seq<Entry>, call: Call, final: Finalized) {
    && |p| >= 2 && p[0] == Emit(ToolStart(call)) && p[|p| - 1] == Emit(ToolEnd(final))
    && (forall e | e in p[1..] :: !(e.Emit? && e.event.ToolStart?))
    && (forall e | e in p[..|p| - 1] :: !(e.Emit? && e.event.ToolEnd?))
  }

  lemma Bracketed(call: Call, prep: seq<Entry>, rest: seq<Entry>, final: Finalized)
    requires rest != [] && rest[|rest| - 1] == Emit(ToolEnd(final))
    requires forall e | e in prep || e in rest :: !(e.Emit? && e.event.ToolStart?)
    requires forall e | e in prep || e in rest[..|rest| - 1] :: !(e.Emit? && e.event.ToolEnd?)
    ensures StartsAndEnds([Emit(ToolStart(call))] + prep + rest, call, final)
  {
    var p := [Emit(ToolStart(call))] + prep + rest;
    assert p[1..] == prep + rest;
    assert p[..|p| - 1] == [Emit(ToolStart(call))] + prep + rest[..|rest| - 1];
  }

  /** A call log starts with the only start and ends with the only end of its call. */
  lemma CallLogEnds(cfg: Config, tools: seq<Tool>, call: Call, input: CallInput)
    ensures StartsAndEnds(CallLog(cfg, tools, call, input), call, Final(cfg, tools, call, input))
    ensures Final(cfg, tools, call, input).call == call
  {
    PrepareIsPreparatory(cfg, tools, call, input);
    RestEndsOnce(cfg, tools, call, input);
    Bracketed(call, Prepare(cfg, tools, call, input).1, RestLog(cfg, tools, call, input), Final(cfg, tools, call, input));
  }

  lemma RestEndsOnce(cfg: Config, tools: seq<Tool>, call: Call, input: CallInput)
    ensures var rest := RestLog(cfg, tools, call, input);
            && rest != [] && rest[|rest| - 1] == Emit(ToolEnd(Final(cfg, tools, call, input)))
            && (forall e | e in rest :: !(e.Emit? && e.event.ToolStart?))
            && (forall e | e in rest[..|rest| - 1] :: !(e.Emit? && e.event.ToolEnd?))
    ensures Final(cfg, tools, call, input).call == call
  {
    match Prepare(cfg, tools, call, input).0
    case Immediate(_) =>
    case Prepared(args) =>
      var body := ExecuteLog(args, call, input);
      assert RestLog(cfg, tools, call, input)[..|body|] == body;
  }

  /** Every started call of a batch is ended after it was started. */
  lemma StartedIsEnded(b: Batch, schedule: seq<nat>, i: nat) returns (j: nat)
    requires i < |BatchLog(b, schedule)| && EventOf(BatchLog(b, schedule)[i]) != []
    requires EventOf(BatchLog(b, schedule)[i])[0].ToolStart?
    ensures i < j < |BatchLog(b, schedule)|
    ensures EndsId(BatchLog(b, schedule)[j], EventOf(BatchLog(b, schedule)[i])[0].call.id)
  {
    var log := BatchLog(b, schedule);
    BatchInner(b, schedule);
    assert log[i] in log;
    var k := log[i].k;
    BatchCallLog(b, schedule, k);
    MemberProject(log, i, k);
    var n := k - b.base;
    CallLogEnds(b.cfg, b.tools, b.calls[n], b.inputs(n));
    j := AfterStart(log, i, k, b.calls[n], Final(b.cfg, b.tools, b.calls[n], b.inputs(n)));
  }

  lemma TailOfSplit(p: seq<Entry>, q: seq<Entry>, e: Entry, a: seq<Entry>)
    requires p == q + [e] + a
    ensures q != [] ==> e in p[1..]
    ensures q == [] ==> a == p[1..]
  {
    if q != [] { assert p[1..] == q[1..] + ([e] + a); }
  }

  lemma StartIsFirst(p: seq<Entry>, q: seq<Entry>, e: Entry, a: seq<Entry>, call: Call, final: Finalized)
    requires StartsAndEnds(p, call, final) && p == q + [e] + a && e.Emit? && e.event.ToolStart?
    ensures q == [] && e.event.call == call && Emit(ToolEnd(final)) in a
  {
    TailOfSplit(p, q, e, a);
    assert p[1..][|p| - 2] == p[|p| - 1];
  }

  lemma ProjectAround(log: Log, i: nat, k: nat)
    requires i < |log| && log[i].Of? && log[i].k == k
    ensures Project(log, k) == Project(log[..i], k) + [log[i].entry] + Project(log[i + 1..], k)
  {
    assert log == log[..i] + [log[i]] + log[i + 1..];
    ProjectThree(log[..i], [log[i]], log[i + 1..], k);
    ProjectSingle(log[i], k);
  }

  lemma AfterStart(log: Log, i: nat, k: nat, call: Call, final: Finalized) returns (j: nat)
    requires i < |log| && log[i].Of? && log[i].k == k && log[i].entry.Emit? && log[i].entry.event.ToolStart?
    requires StartsAndEnds(Project(log, k), call, final)
    ensures log[i].entry.event.call == call && i < j < |log| && log[j] == Of(k, Emit(ToolEnd(final)))
  {
    ProjectAround(log, i, k);
    StartIsFirst(Project(log, k), Project(log[..i], k), log[i].entry, Project(log[i + 1..], k), call, final);
    j := ProjectMember(log[i + 1..], k, Emit(ToolEnd(final)));
    j := j + 1 + i;
  }

  /** Whatever the scheduler, an abort or duplicate ids do, a batch leaves no call pending. */
  lemma BatchLeavesNothingPending(v: View, b: Batch, schedule: seq<nat>)
    requires v.pending == {}
    ensures Replay(v, BatchLog(b, schedule)).pending == {}
  {
    var log := BatchLog(b, schedule);
    forall id ensures id !in Replay(v, log).pending {
      PendingIsOpen(v, log, id);
      if id in Replay(v, log).pending {
        var i: nat :| OpenAt(log, i, id);
        var j := StartedIsEnded(b, schedule, i);
        assert false;
      }
    }
  }

  /** Nothing is pending here and at every turn_end so far. */
  ghost predicate Quiescent(v: View, log: Log) {
    && Replay(v, log).pending == {}
    && forall i | 0 <= i < |log| && log[i].Loop? && log[i].event.TurnEnd? :: Replay(v, log[..i]).pending == {}
  }

  lemma QuiescentStep(v: View, log: Log, more: Log)
    requires Quiescent(v, log) && Replay(Replay(v, log), more).pending == {}
    requires forall o | o in more :: !(o.Loop? && o.event.TurnEnd?)
    ensures Quiescent(v, log + more)
  {
    ReplayConcat(v, log, more);
    var n := log + more;
    forall i | |log| <= i < |n| ensures !(n[i].Loop? && n[i].event.TurnEnd?) { assert more[i - |log|] in more; }
    forall i | 0 <= i < |n| && n[i].Loop? && n[i].event.TurnEnd? ensures Replay(v, n[..i]).pending == {} {
      assert n[..i] == log[..i];
    }
  }

  predicate NoToolEvent(o: Obs) {
    o.Injected? || (o.Loop? && !o.event.ToolStart? && !o.event.ToolEnd?)
  }

  lemma {:induction false} PendingUnchanged(v: View, log: Log)
    requires forall o | o in log :: NoToolEvent(o)
    ensures Replay(v, log).pending == v.pending
  {
    if log != [] {
      var init, o := log[..|log| - 1], log[|log| - 1];
      assert log == init + [o];
      assert o in log;
      PendingUnchanged(v, init);
      ReplaySnoc(v, init, o);
      NoToolReduce(Replay(v, init), o);
    }
  }

  lemma NoToolReduce(v: View, o: Obs)
    requires NoToolEvent(o)
    ensures EventOf(o) != [] ==> Reduce(v, EventOf(o)[0]).pending == v.pending
  {
  }

  /** Anything but tool steps and turn ends. */
  lemma QuiescentPlain(v: View, log: Log, more: Log)
    requires Quiescent(v, log) && forall o | o in more :: NoToolEvent(o) && !(o.Loop? && o.event.TurnEnd?)
    ensures Quiescent(v, log + more)
  {
    PendingUnchanged(Replay(v, log), more);
    QuiescentStep(v, log, more);
  }

  lemma QuiescentTurnEnd(v: View, log: Log, reply: Reply, results: seq<Message>)
    requires Quiescent(v, log)
    ensures Quiescent(v, log + [Loop(TurnEnd(reply, results))])
  {
    var o := Loop(TurnEnd(reply, results));
    var n := log + [o];
    ReplaySnoc(v, log, o);
    NoToolReduce(Replay(v, log), o);
    forall i | 0 <= i < |n| && n[i].Loop? && n[i].event.TurnEnd? ensures Replay(v, n[..i]).pending == {} {
      if i < |log| {
        assert n[..i] == log[..i];
      } else {
        assert n[..i] == log;
      }
    }
  }

  lemma QuiescentBatch(v: View, log: Log, b: Batch, schedule: seq<nat>)
    requires Quiescent(v, log)
    ensures Quiescent(v, log + BatchObs(b, schedule))
  {
    if b.calls == [] {
      assert log + [] == log;
    } else {
      BatchLeavesNothingPending(Replay(v, log), b, schedule);
      BatchInner(b, schedule);
      QuiescentStep(v, log, BatchLog(b, schedule));
    }
  }

  lemma OpenTurnQuiescent(v: View, r: Run)
    requires Quiescent(v, r.log)
    ensures Quiescent(v, OpenTurn(r).log)
  {
    var opening: Log := if r.firstTurn then [] else [Loop(TurnStart)];
    InjectTells(r.source, r.pending);
    QuiescentPlain(v, r.log, opening);
    QuiescentPlain(v, r.log + opening, InjectLog(r.source, r.pending));
  }

  lemma FinishQuiescent(v: View, r: Run)
    requires Quiescent(v, r.log)
    ensures Quiescent(v, Finish(r).log)
  {
    QuiescentPlain(v, r.log, [Loop(AgentEnd(r.newMessages))]);
  }

  lemma ProceedQuiescent(v: View, r: Run, continues: bool, t: TurnInput)
    requires Quiescent(v, r.log)
    ensures Quiescent(v, Proceed(r, continues, t).0.log)
  {
    var (steered, r1) := PollSteering(Act(r, t.beforeSteering));
    FinishQuiescent(v, PollFollowUp(Act(r1, t.beforeFollowUp)).1);
  }

  lemma AfterReplyQuiescent(cfg: Config, v: View, r: Run, reply: Reply, t: TurnInput)
    requires Quiescent(v, r.log)
    ensures Quiescent(v, AfterReply(cfg, r, reply, t).0.log)
  {
    if reply.stop.Error? || reply.stop.Aborted? {
      QuiescentTurnEnd(v, r.log, reply, []);
      FinishQuiescent(v, r.(log := r.log + [Loop(TurnEnd(reply, []))]));
    } else {
      var b := BatchOf(cfg, r, reply, t);
      var r1 := WithResults(r, b, reply, t.schedule);
      QuiescentBatch(v, r.log, b, t.schedule);
      QuiescentTurnEnd(v, r.log + BatchObs(b, t.schedule), reply, ResultsOf(b));
      FinishQuiescent(v, r1);
      ProceedQuiescent(v, Replace(r1, t), reply.stop.ToolUse?, t);
    }
  }

  lemma TurnQuiescent(cfg: Config, v: View, r: Run, t: TurnInput)
    requires Quiescent(v, r.log)
    ensures Quiescent(v, Turn(cfg, r, t).0.log)
  {
    var r1 := OpenTurn(r);
    var s := StreamReply(r1.context, t.stream);
    OpenTurnQuiescent(v, r);
    ReplyTells(r1.context, t.stream);
    QuiescentPlain(v, r1.log, s.log);
    if t.stream.end.Replied? {
      AfterReplyQuiescent(cfg, v, WithReply(r1, s, t.stream.end.reply), t.stream.end.reply, t);
    }
  }

  lemma {:induction false} TurnsQuiescent(cfg: Config, v: View, r: Run, script: seq<TurnInput>)
    requires Quiescent(v, r.log)
    ensures Quiescent(v, Turns(cfg, r, script).0.log)
    decreases |script|
  {
    if script != [] {
      TurnQuiescent(cfg, v, r, script[0]);
      var (r1, status) := Turn(cfg, r, script[0]);
      if status == Going { TurnsQuiescent(cfg, v, r1, script[1..]); }
    }
  }

  lemma FailureQuiescent(v: View, log: Log, message: string, aborted: bool)
    requires Quiescent(v, log)
    ensures Quiescent(v, log + FailureLog(message, aborted))
  {
    var reply := FailureReply(message, aborted);
    QuiescentPlain(v, log, Announce(Assistant(reply)));
    QuiescentTurnEnd(v, log + Announce(Assistant(reply)), reply, []);
    QuiescentPlain(v, log + Announce(Assistant(reply)) + [Loop(TurnEnd(reply, []))], [Loop(AgentEnd([Assistant(reply)]))]);
    assert log + Announce(Assistant(reply)) + [Loop(TurnEnd(reply, []))] + [Loop(AgentEnd([Assistant(reply)]))]
        == log + FailureLog(message, aborted);
  }

  /** Over every run no tool call is pending at any turn_end, nor when the run is over. */
  lemma NothingPendingAtTurnEnds(cfg: Config, v: View, context: seq<Message>, tools: seq<Tool>, prompts: seq<Message>,
                                 source: Source, queues: Pair, skipPoll: bool, started: nat, ops: seq<Op>,
                                 script: seq<TurnInput>)
    requires v.pending == {}
    ensures Quiescent(v, Perform(cfg, StartRun(context, tools, prompts, source, queues, skipPoll, started), ops, script).0.log)
  {
    var r := StartRun(context, tools, prompts, source, queues, skipPoll, started);
    InjectTells(source, prompts);
    assert Quiescent(v, []);
    QuiescentPlain(v, [], r.log);
    assert [] + r.log == r.log;
    TurnsQuiescent(cfg, v, FirstPoll(r, ops), script);
    var (f, status) := Turns(cfg, FirstPoll(r, ops), script);
    if status.Failed? { FailureQuiescent(v, f.log, status.message, status.aborted); }
  }
}
