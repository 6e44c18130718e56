/** What one turn makes of the reply: which calls it answers, with what, and what it
    leaves for the next turn. */
module TurnResults {
  import opened AgentTypes
  import opened Queues
  import opened ToolCalls
  import opened ToolBatches
  import opened CallOutcomes
  import opened AgentLoops
  import opened RunLogs
  import opened RunShape
  import opened RunTools
  import opened RunTranscripts

  // ---------- The calls of a reply

  /** `at` lists exactly the positions of the tool calls, in order. */
  ghost predicate CallPositions(content: seq<Block>, at: seq<nat>) {
    && (forall n, m | 0 <= n < m < |at| :: at[n] < at[m])
    && (forall n | 0 <= n < |at| :: at[n] < |content| && content[at[n]].ToolCallBlock?)
    && (forall i: nat | i < |content| && content[i].ToolCallBlock? :: i in at)
  }

  lemma {:induction false} PositionsExist(content: seq<Block>) returns (at: seq<nat>)
    ensures CallPositions(content, at)
  {
    if content == [] {
      at := [];
    } else {
      var last := |content| - 1;
      at := PositionsExist(content[..last]);
      if content[last].ToolCallBlock? { at := at + [last]; }
      forall i: nat | i < |content| && content[i].ToolCallBlock? ensures i in at {
        if i < last { assert content[..last][i] == content[i]; }
      }
    }
  }

  lemma LastPosition(content: seq<Block>, at: seq<nat>)
    requires content != [] && CallPositions(content, at)
    ensures content[|content| - 1].ToolCallBlock? ==>
              at != [] && at[|at| - 1] == |content| - 1 && CallPositions(content[..|content| - 1], at[..|at| - 1])
    ensures !content[|content| - 1].ToolCallBlock? ==> CallPositions(content[..|content| - 1], at)
  {
    var last := |content| - 1;
    var init := content[..last];
    if content[last].ToolCallBlock? {
      assert last in at;
      var n :| 0 <= n < |at| && at[n] == last;
      assert at[n] <= at[|at| - 1] <= last;
      assert n == |at| - 1;
      forall i: nat | i < last && init[i].ToolCallBlock? ensures i in at[..n] {
        assert content[i].ToolCallBlock?;
        var m :| 0 <= m < |at| && at[m] == i;
        assert at[..n][m] == i;
      }
    } else {
      forall n | 0 <= n < |at| ensures at[n] < last { assert at[n] != last; }
      forall i: nat | i < last && init[i].ToolCallBlock? ensures i in at { assert content[i].ToolCallBlock?; }
    }
  }

  lemma {:induction false} PositionAtLeast(content: seq<Block>, at: seq<nat>, n: nat)
    requires CallPositions(content, at) && n < |at|
    ensures at[n] >= n
  {
    if n > 0 {
      PositionAtLeast(content, at, n - 1);
      assert at[n - 1] < at[n];
    }
  }

  lemma PositionsFit(content: seq<Block>, at: seq<nat>)
    requires CallPositions(content, at)
    ensures |at| <= |content|
  {
    if at != [] { PositionAtLeast(content, at, |at| - 1); }
  }

  /** The calls are those at these positions. */
  ghost predicate CallsListed(content: seq<Block>, at: seq<nat>, calls: seq<Call>)
    requires CallPositions(content, at)
  {
    |calls| == |at| && forall n | 0 <= n < |at| :: calls[n] == content[at[n]].call
  }

  lemma ListedNext(content: seq<Block>, at: seq<nat>, calls: seq<Call>)
    requires content != [] && CallPositions(content, at)
    requires var init := content[..|content| - 1];
             if content[|content| - 1].ToolCallBlock?
             then at != [] && at[|at| - 1] == |content| - 1
                  && CallPositions(init, at[..|at| - 1]) && CallsListed(init, at[..|at| - 1], calls)
             else CallPositions(init, at) && CallsListed(init, at, calls)
    ensures content[|content| - 1].ToolCallBlock? ==> CallsListed(content, at, calls + [content[|content| - 1].call])
    ensures !content[|content| - 1].ToolCallBlock? ==> CallsListed(content, at, calls)
  {
    var k, init := |at| - 1, content[..|content| - 1];
    if content[|content| - 1].ToolCallBlock? {
      forall n | 0 <= n < k ensures calls[n] == content[at[n]].call { assert at[..k][n] == at[n]; }
    }
  }

  /** The calls are those of the reply's blocks, in the order of the blocks. */
  lemma {:induction false} CallsAt(content: seq<Block>, at: seq<nat>)
    requires CallPositions(content, at)
    ensures CallsListed(content, at, CallsOf(content))
  {
    if content == [] {
      PositionsFit(content, at);
    } else {
      var init := content[..|content| - 1];
      LastPosition(content, at);
      if content[|content| - 1].ToolCallBlock? {
        CallsAt(init, at[..|at| - 1]);
        assert CallsOf(content) == CallsOf(init) + [content[|content| - 1].call];
      } else {
        CallsAt(init, at);
        assert CallsOf(content) == CallsOf(init) + [] == CallsOf(init);
      }
      ListedNext(content, at, CallsOf(init));
    }
  }

  // ---------- The results

  /** `m` tells the model what the call came to. */
  ghost predicate Reports(m: Message, tools: seq<Tool>, call: Call, input: CallInput) {
    && m.ToolResult? && m.id == call.id && m.name == call.name
    && exists terminate :: Told(tools, call, input, Result(m.content, m.details, terminate), m.isError)
  }

  /** One result for each call, in the order of the calls, up to the first call after
      which an abort is noticed. */
  ghost predicate Answered(results: seq<Message>, tools: seq<Tool>, content: seq<Block>, at: seq<nat>, inputs: nat -> CallInput)
    requires CallPositions(content, at)
  {
    && |results| <= |at|
    && (forall n | 0 <= n < |results| :: Reports(results[n], tools, content[at[n]].call, inputs(n)))
    && (forall n | 0 <= n < |results| - 1 :: !inputs(n).abortedAfterwards)
    && (|results| < |at| ==> results != [] && inputs(|results| - 1).abortedAfterwards)
  }

  lemma {:induction false} StartedStops(b: Batch, i: nat)
    requires i <= |b.calls|
    ensures var n := StartedFrom(b, i);
            && (forall j | i <= j < n - 1 :: !b.inputs(j).abortedAfterwards)
            && (n < |b.calls| ==> n > i && b.inputs(n - 1).abortedAfterwards)
    decreases |b.calls| - i
  {
    if i < |b.calls| && !b.inputs(i).abortedAfterwards { StartedStops(b, i + 1); }
  }

  lemma ResultReports(b: Batch, i: nat)
    requires i < StartedFrom(b, 0)
    ensures Reports(Messages(BatchFinals(b))[i], b.tools, b.calls[i], b.inputs(i))
  {
    FinalTells(b.cfg, b.tools, b.calls[i], b.inputs(i));
    var f := LifeOf(b, i).final;
    assert BatchFinals(b)[i] == f;
    assert f.result == Result(f.result.content, f.result.details, f.result.terminate);
  }

  lemma BatchAnswers(cfg: Config, r: Run, reply: Reply, t: TurnInput, at: seq<nat>)
    requires CallPositions(reply.content, at)
    ensures Answered(ResultsOf(BatchOf(cfg, r, reply, t)), r.tools, reply.content, at, t.calls)
  {
    var b := BatchOf(cfg, r, reply, t);
    CallsAt(reply.content, at);
    if b.calls != [] {
      StartedStops(b, 0);
      forall n | 0 <= n < |ResultsOf(b)| ensures Reports(ResultsOf(b)[n], r.tools, reply.content[at[n]].call, t.calls(n)) {
        ResultReports(b, n);
      }
    }
  }

  /** The only end of a call comes last and tells what the call came to. */
  ghost predicate EndsTold(p: seq<Entry>, tools: seq<Tool>, call: Call, input: CallInput) {
    && p != [] && p[|p| - 1].Emit? && p[|p| - 1].event.ToolEnd?
    && (forall e | e in p[..|p| - 1] :: !(e.Emit? && e.event.ToolEnd?))
    && var f := p[|p| - 1].event.outcome; f.call == call && Told(tools, call, input, f.result, f.isError)
  }

  lemma CallEndTells(cfg: Config, tools: seq<Tool>, call: Call, input: CallInput)
    ensures EndsTold(CallLog(cfg, tools, call, input), tools, call, input)
  {
    CallLogEnds(cfg, tools, call, input);
    FinalTells(cfg, tools, call, input);
  }

  lemma CallEndsFinal(cfg: Config, tools: seq<Tool>, call: Call, input: CallInput)
    ensures var p := CallLog(cfg, tools, call, input); p != [] && p[|p| - 1] == Emit(ToolEnd(Final(cfg, tools, call, input)))
  {
    CallLogEnds(cfg, tools, call, input);
  }

  lemma EndAnnounced(b: Batch, i: nat, p: seq<Entry>)
    requires i < StartedFrom(b, 0) && p == CallLog(b.cfg, b.tools, b.calls[i], b.inputs(i))
    ensures EndsTold(p, b.tools, b.calls[i], b.inputs(i))
    ensures Messages(BatchFinals(b))[i] == ResultMessage(p[|p| - 1].event.outcome)
  {
    CallEndTells(b.cfg, b.tools, b.calls[i], b.inputs(i));
    CallEndsFinal(b.cfg, b.tools, b.calls[i], b.inputs(i));
    FinalAt(b, i);
  }

  lemma FinalAt(b: Batch, i: nat)
    requires i < StartedFrom(b, 0)
    ensures Messages(BatchFinals(b))[i] == ResultMessage(Final(b.cfg, b.tools, b.calls[i], b.inputs(i)))
  {
    assert BatchFinals(b)[i] == LifeOf(b, i).final;
  }

  lemma LifeLogAt(base: nat, lives: seq<Life>, i: nat, k: nat)
    requires i < |lives| && k == base + i
    ensures LifeLog(base, lives, k) == lives[i].preflight + lives[i].rest
  {
  }

  lemma LifeIsLogged(b: Batch, i: nat)
    requires i < StartedFrom(b, 0)
    ensures BatchLives(b)[i].preflight + BatchLives(b)[i].rest == CallLog(b.cfg, b.tools, b.calls[i], b.inputs(i))
  {
    assert BatchLives(b)[i] == LifeOf(b, i);
  }

  lemma LifeLogIs(b: Batch, i: nat, k: nat, p: seq<Entry>)
    requires i < StartedFrom(b, 0) && k == b.base + i && p == LifeLog(b.base, BatchLives(b), k)
    ensures p == CallLog(b.cfg, b.tools, b.calls[i], b.inputs(i))
  {
    LifeIsLogged(b, i);
    LifeLogAt(b.base, BatchLives(b), i, k);
  }

  lemma ShownAsLogged(b: Batch, schedule: seq<nat>, i: nat, k: nat, p: seq<Entry>)
    requires i < StartedFrom(b, 0) && k == b.base + i && p == Project(BatchLog(b, schedule), k)
    ensures p == CallLog(b.cfg, b.tools, b.calls[i], b.inputs(i))
  {
    BatchLife(b, schedule, k);
    LifeLogIs(b, i, k, p);
  }

  /** The end of a started call, as listeners see it, and the message announced for it
      tell the same. */
  lemma EndTells(b: Batch, schedule: seq<nat>, i: nat, k: nat, p: seq<Entry>)
    requires i < StartedFrom(b, 0) && k == b.base + i && p == Project(BatchLog(b, schedule), k)
    ensures EndsTold(p, b.tools, b.calls[i], b.inputs(i))
    ensures var f := p[|p| - 1].event.outcome;
            Messages(BatchFinals(b))[i] == ToolResult(f.call.id, f.call.name, f.result.content, f.result.details, f.isError)
  {
    ShownAsLogged(b, schedule, i, k, p);
    EndAnnounced(b, i, p);
  }

  // ---------- The turn

  /** The only turn_end and agent_end are those at the end. */
  ghost predicate EndsAs(more: Log, reply: Reply, results: seq<Message>, newMessages: seq<Message>) {
    && Loop(TurnEnd(reply, results)) in more
    && (forall o | o in more && o.Loop? && o.event.TurnEnd? :: o == Loop(TurnEnd(reply, results)))
    && (forall o | o in more && o.Loop? && o.event.AgentEnd? :: o == Loop(AgentEnd(newMessages)))
  }

  /** The messages that a turn with this reply adds, and its result messages. */
  ghost predicate Concluded(r: Run, t: TurnInput, results: seq<Message>, f: Run, more: Log)
    requires t.stream.end.Replied?
  {
    var reply := t.stream.end.reply;
    && f.newMessages == r.newMessages + r.pending + [Assistant(reply)] + results
    && f.log == r.log + more && Said(more) == r.pending + [Assistant(reply)] + results
    && EndsAs(more, reply, results, f.newMessages)
  }

  /** What the turn logs before its results. */
  function TurnOpening(r: Run, t: TurnInput): Log {
    (if r.firstTurn then [] else [Loop(TurnStart)]) + InjectLog(r.source, r.pending) + StreamReply(r.context + r.pending, t.stream).log
  }

  lemma OpeningSays(r: Run, t: TurnInput)
    requires t.stream.end.Replied?
    ensures Said(TurnOpening(r, t)) == r.pending + [Assistant(t.stream.end.reply)]
  {
    var s := StreamReply(r.context + r.pending, t.stream);
    var opening: Log := if r.firstTurn then [] else [Loop(TurnStart)];
    StreamAgreesIff(r.context + r.pending, t.stream);
    SaidOpening(opening, r.source, r.pending);
    SaidConcat(opening + InjectLog(r.source, r.pending), s.log);
  }

  lemma OpeningTells(r: Run, t: TurnInput)
    ensures forall o | o in TurnOpening(r, t) && o.Loop? :: !o.event.TurnEnd? && !o.event.AgentEnd?
  {
    InjectTells(r.source, r.pending);
    ReplyTells(r.context + r.pending, t.stream);
  }

  lemma ReplyingIs(r: Run, t: TurnInput)
    requires t.stream.end.Replied?
    ensures var n := Replying(r, t); var reply := t.stream.end.reply;
            && n.log == r.log + TurnOpening(r, t) && n.newMessages == r.newMessages + r.pending + [Assistant(reply)]
            && n.context == StreamReply(r.context + r.pending, t.stream).context && n.tools == r.tools
            && n.pending == [] && n.queues == r.queues && n.skipPoll == r.skipPoll && n.started == r.started
  {
    var opening: Log := if r.firstTurn then [] else [Loop(TurnStart)];
    var s := StreamReply(r.context + r.pending, t.stream);
    assert r.log + opening + InjectLog(r.source, r.pending) + s.log
        == r.log + (opening + InjectLog(r.source, r.pending) + s.log);
  }

  /** What a turn logs from its results on: the end of the turn and, if the run is over, of the run. */
  function TurnClosing(reply: Reply, results: seq<Message>, newMessages: seq<Message>, over: bool): Log {
    [Loop(TurnEnd(reply, results))] + if over then [Loop(AgentEnd(newMessages))] else []
  }

  lemma ProceedCloses(r: Run, continues: bool, t: TurnInput)
    ensures var (f, status) := Proceed(r, continues, t);
            && f.log == r.log + (if status == Going then [] else [Loop(AgentEnd(f.newMessages))])
            && f.newMessages == r.newMessages && f.context == r.context && f.tools == r.tools && f.started == r.started
  {
  }

  lemma AfterReplyCloses(cfg: Config, r: Run, reply: Reply, t: TurnInput)
    requires !reply.stop.Error? && !reply.stop.Aborted?
    ensures var (f, status) := AfterReply(cfg, r, reply, t);
            var b := BatchOf(cfg, r, reply, t);
            && f.log == r.log + BatchObs(b, t.schedule) + TurnClosing(reply, ResultsOf(b), f.newMessages, status != Going)
            && f.newMessages == r.newMessages + ResultsOf(b) && f.started == r.started + StartedOf(b)
  {
    var b := BatchOf(cfg, r, reply, t);
    var r1 := WithResults(r, b, reply, t.schedule);
    ProceedCloses(Replace(r1, t), reply.stop.ToolUse?, t);
    LogCloses(r.log + BatchObs(b, t.schedule), reply, ResultsOf(b), AfterReply(cfg, r, reply, t).0.newMessages);
  }

  lemma LogCloses(log: Log, reply: Reply, results: seq<Message>, newMessages: seq<Message>)
    ensures log + [Loop(TurnEnd(reply, results))] + [Loop(AgentEnd(newMessages))]
         == log + TurnClosing(reply, results, newMessages, true)
    ensures log + [Loop(TurnEnd(reply, results))] + [] == log + [Loop(TurnEnd(reply, results))]
         == log + TurnClosing(reply, results, newMessages, false)
  {
  }

  /** The tool calls of the turn, none if it was cut short. */
  function TurnBatch(cfg: Config, r: Run, t: TurnInput): Batch
    requires t.stream.end.Replied?
  {
    Batch(cfg, r.tools, r.started, CallsOf(t.stream.end.reply.content), t.calls)
  }

  lemma TurnBatchIs(cfg: Config, r: Run, t: TurnInput)
    requires t.stream.end.Replied?
    ensures TurnBatch(cfg, r, t) == BatchOf(cfg, Replying(r, t), t.stream.end.reply, t)
  {
  }

  function TurnSteps(cfg: Config, r: Run, t: TurnInput): Log
    requires t.stream.end.Replied?
  {
    if ErrorStop(t) then [] else BatchObs(TurnBatch(cfg, r, t), t.schedule)
  }

  function TurnAnswers(cfg: Config, r: Run, t: TurnInput): seq<Message>
    requires t.stream.end.Replied?
  {
    if ErrorStop(t) then [] else ResultsOf(TurnBatch(cfg, r, t))
  }

  /** Everything the turn adds to the log. */
  function TurnAdds(cfg: Config, r: Run, t: TurnInput): Log
    requires t.stream.end.Replied?
  {
    var (f, status) := Turn(cfg, r, t);
    TurnOpening(r, t) + TurnSteps(cfg, r, t)
      + TurnClosing(t.stream.end.reply, TurnAnswers(cfg, r, t), f.newMessages, status != Going)
  }

  lemma FourPieces(a: Log, b: Log, c: Log, d: Log)
    ensures a + b + c + d == a + (b + c + d)
  {
  }

  lemma TurnLogs(cfg: Config, r: Run, t: TurnInput)
    requires t.stream.end.Replied?
    ensures var f := Turn(cfg, r, t).0;
            && f.log == r.log + TurnAdds(cfg, r, t)
            && f.newMessages == r.newMessages + r.pending + [Assistant(t.stream.end.reply)] + TurnAnswers(cfg, r, t)
  {
    var n, reply := Replying(r, t), t.stream.end.reply;
    var (f, status) := Turn(cfg, r, t);
    ReplyingIs(r, t);
    TurnBatchIs(cfg, r, t);
    FourPieces(r.log, TurnOpening(r, t), TurnSteps(cfg, r, t),
               TurnClosing(reply, TurnAnswers(cfg, r, t), f.newMessages, status != Going));
    if ErrorStop(t) {
      LogCloses(n.log, reply, [], n.newMessages);
      assert n.log + [] == n.log && n.newMessages + [] == n.newMessages;
    } else {
      AfterReplyCloses(cfg, n, reply, t);
    }
  }

  lemma ClosingSays(reply: Reply, results: seq<Message>, newMessages: seq<Message>, over: bool)
    ensures Said(TurnClosing(reply, results, newMessages, over)) == []
  {
    SaidNothing(TurnClosing(reply, results, newMessages, over));
  }

  lemma StepsSay(cfg: Config, r: Run, t: TurnInput)
    requires t.stream.end.Replied?
    ensures Said(TurnSteps(cfg, r, t)) == TurnAnswers(cfg, r, t)
    ensures forall o | o in TurnSteps(cfg, r, t) && o.Loop? :: !o.event.TurnEnd? && !o.event.AgentEnd?
  {
    if !ErrorStop(t) {
      SaidBatchObs(TurnBatch(cfg, r, t), t.schedule);
      BatchObsInner(TurnBatch(cfg, r, t), t.schedule);
    }
  }

  lemma PiecesSay(opening: Log, steps: Log, reply: Reply, results: seq<Message>, newMessages: seq<Message>, over: bool)
    requires Said(steps) == results
    ensures Said(opening + steps + TurnClosing(reply, results, newMessages, over)) == Said(opening) + results
  {
    var closing := TurnClosing(reply, results, newMessages, over);
    SaidThree(opening, steps, closing);
    ClosingSays(reply, results, newMessages, over);
    assert Said(opening) + results + [] == Said(opening) + results;
  }

  lemma PiecesEnd(opening: Log, steps: Log, reply: Reply, results: seq<Message>, newMessages: seq<Message>, over: bool)
    requires forall o | o in opening || o in steps :: o.Loop? ==> !o.event.TurnEnd? && !o.event.AgentEnd?
    ensures EndsAs(opening + steps + TurnClosing(reply, results, newMessages, over), reply, results, newMessages)
  {
    var closing := TurnClosing(reply, results, newMessages, over);
    var more := opening + steps + closing;
    assert closing[0] in closing;
    forall o | o in more ensures o in opening || o in steps || o in closing {}
  }

  /** A turn that is not cut short answers the calls of its reply: the end of the turn, the
      announcements and the new messages all carry the same results, and no others. */
  lemma TurnConcludes(cfg: Config, r: Run, t: TurnInput, at: seq<nat>) returns (results: seq<Message>, more: Log)
    requires t.stream.end.Replied? && CallPositions(t.stream.end.reply.content, at)
    ensures if ErrorStop(t) then results == [] else Answered(results, r.tools, t.stream.end.reply.content, at, t.calls)
    ensures Concluded(r, t, results, Turn(cfg, r, t).0, more)
  {
    var (f, status) := Turn(cfg, r, t);
    results := TurnAnswers(cfg, r, t);
    more := TurnAdds(cfg, r, t);
    BatchAnswers(cfg, r, t.stream.end.reply, t, at);
    TurnLogs(cfg, r, t);
    OpeningSays(r, t);
    OpeningTells(r, t);
    StepsSay(cfg, r, t);
    PiecesSay(TurnOpening(r, t), TurnSteps(cfg, r, t), t.stream.end.reply, results, f.newMessages, status != Going);
    PiecesEnd(TurnOpening(r, t), TurnSteps(cfg, r, t), t.stream.end.reply, results, f.newMessages, status != Going);
  }

  lemma ProceedLeaves(cfg: Config, r: Run, reply: Reply, t: TurnInput)
    requires !reply.stop.Error? && !reply.stop.Aborted?
    ensures var f := AfterReply(cfg, r, reply, t).0;
            var b := BatchOf(cfg, r, reply, t);
            if t.replaced.Some? && !t.stopAfterTurn && !Unanimous(b)
            then f.context == t.replaced.value.0 && f.tools == t.replaced.value.1
            else f.context == r.context + ResultsOf(b) && f.tools == r.tools
  {
    var b := BatchOf(cfg, r, reply, t);
    if Unanimous(b) { UnanimousHasResults(b); }
    ProceedCloses(Replace(WithResults(r, b, reply, t.schedule), t), reply.stop.ToolUse?, t);
  }

  /** What the next turn starts from: the context with the reply and its results, or the
      one that replaces it; a turn that stops the run hard asks for no replacement. */
  lemma TurnLeaves(cfg: Config, r: Run, t: TurnInput)
    requires t.stream.end.Replied?
    ensures var f := Turn(cfg, r, t).0;
            if t.replaced.Some? && !HardStop(cfg, r, t)
            then f.context == t.replaced.value.0 && f.tools == t.replaced.value.1
            else f.context == StreamReply(r.context + r.pending, t.stream).context + TurnAnswers(cfg, r, t) && f.tools == r.tools
  {
    ReplyingIs(r, t);
    TurnBatchIs(cfg, r, t);
    if !ErrorStop(t) { ProceedLeaves(cfg, Replying(r, t), t.stream.end.reply, t); }
  }

  lemma OpeningProjects(r: Run, t: TurnInput, k: nat)
    ensures Project(TurnOpening(r, t), k) == []
  {
    InjectTells(r.source, r.pending);
    ReplyTells(r.context + r.pending, t.stream);
    ProjectForeign(TurnOpening(r, t), k);
  }

  lemma TurnProjects(opening: Log, steps: Log, closing: Log, k: nat)
    requires Project(opening, k) == [] && forall o | o in closing :: o.Loop?
    ensures Project(opening + steps + closing, k) == Project(steps, k)
  {
    ProjectThree(opening, steps, closing, k);
    ProjectForeign(closing, k);
    assert [] + Project(steps, k) + [] == Project(steps, k);
  }

  lemma TurnShows(cfg: Config, r: Run, t: TurnInput, k: nat, p: seq<Entry>)
    requires t.stream.end.Replied? && p == Project(TurnAdds(cfg, r, t), k)
    ensures p == Project(TurnSteps(cfg, r, t), k)
  {
    OpeningProjects(r, t, k);
    var (f, status) := Turn(cfg, r, t);
    TurnProjects(TurnOpening(r, t), TurnSteps(cfg, r, t),
                 TurnClosing(t.stream.end.reply, TurnAnswers(cfg, r, t), f.newMessages, status != Going), k);
  }

  /** The whole story of a started call: it begins, its tool runs if and only if nobody
      objects, and it ends with what `m` tells the model. */
  ghost predicate Accounted(p: seq<Entry>, tools: seq<Tool>, call: Call, input: CallInput, m: Message) {
    && EndsTold(p, tools, call, input) && p[0] == Emit(ToolStart(call))
    && ((exists e | e in p :: e.Executed?) <==> Permitted(tools, call, input))
    && var f := p[|p| - 1].event.outcome; m == ToolResult(call.id, call.name, f.result.content, f.result.details, f.isError)
  }

  lemma CallAccounted(cfg: Config, tools: seq<Tool>, call: Call, input: CallInput, p: seq<Entry>, m: Message)
    requires p == CallLog(cfg, tools, call, input) && m == ResultMessage(Final(cfg, tools, call, input))
    ensures Accounted(p, tools, call, input, m)
  {
    CallEndTells(cfg, tools, call, input);
    CallEndsFinal(cfg, tools, call, input);
    RunsIffPermitted(cfg, tools, call, input);
  }

  lemma BatchAccounts(b: Batch, schedule: seq<nat>, i: nat, k: nat, p: seq<Entry>, call: Call, input: CallInput, m: Message)
    requires i < StartedFrom(b, 0) && k == b.base + i && p == Project(BatchLog(b, schedule), k)
    requires call == b.calls[i] && input == b.inputs(i) && m == Messages(BatchFinals(b))[i]
    ensures Accounted(p, b.tools, call, input, m)
  {
    ShownAsLogged(b, schedule, i, k, p);
    FinalAt(b, i);
    CallAccounted(b.cfg, b.tools, call, input, p, m);
  }

  lemma StepsSilent(b: Batch, schedule: seq<nat>, k: nat)
    requires k >= b.base + StartedOf(b)
    ensures Project(BatchObs(b, schedule), k) == []
  {
    if b.calls != [] { BatchSilent(b, schedule, k); }
  }

  lemma StepsAccount(b: Batch, schedule: seq<nat>, at: seq<nat>, content: seq<Block>, n: nat, k: nat, p: seq<Entry>,
                     tools: seq<Tool>, input: CallInput, m: Message)
    requires CallPositions(content, at) && CallsListed(content, at, b.calls) && tools == b.tools && input == b.inputs(n)
    requires n < |ResultsOf(b)| && m == ResultsOf(b)[n] && k == b.base + n && p == Project(BatchObs(b, schedule), k)
    ensures n < |at| && Accounted(p, tools, content[at[n]].call, input, m)
  {
    BatchAccounts(b, schedule, n, k, p, content[at[n]].call, input, m);
  }

  lemma TurnStepsAccount(cfg: Config, r: Run, t: TurnInput, at: seq<nat>, n: nat, k: nat, p: seq<Entry>, input: CallInput, m: Message)
    requires t.stream.end.Replied? && CallPositions(t.stream.end.reply.content, at) && input == t.calls(n) && k == r.started + n
    requires n < |TurnAnswers(cfg, r, t)| && m == TurnAnswers(cfg, r, t)[n] && p == Project(TurnSteps(cfg, r, t), k)
    ensures n < |at| && Accounted(p, r.tools, t.stream.end.reply.content[at[n]].call, input, m)
  {
    CallsAt(t.stream.end.reply.content, at);
    StepsAccount(TurnBatch(cfg, r, t), t.schedule, at, t.stream.end.reply.content, n, k, p, r.tools, input, m);
  }

  /** In a turn, the n-th call of the reply shows its whole story if it has a result. */
  lemma TurnAccounts(cfg: Config, r: Run, t: TurnInput, at: seq<nat>, n: nat, k: nat, p: seq<Entry>, input: CallInput, m: Message)
    requires t.stream.end.Replied? && CallPositions(t.stream.end.reply.content, at) && input == t.calls(n) && k == r.started + n
    requires n < |TurnAnswers(cfg, r, t)| && m == TurnAnswers(cfg, r, t)[n] && p == Project(TurnAdds(cfg, r, t), k)
    ensures n < |at| && Accounted(p, r.tools, t.stream.end.reply.content[at[n]].call, input, m)
  {
    TurnShows(cfg, r, t, k, p);
    TurnStepsAccount(cfg, r, t, at, n, k, p, input, m);
  }

  lemma TurnStepsSilent(cfg: Config, r: Run, t: TurnInput, k: nat, p: seq<Entry>)
    requires t.stream.end.Replied? && k >= r.started + |TurnAnswers(cfg, r, t)| && p == Project(TurnSteps(cfg, r, t), k)
    ensures p == []
  {
    if !ErrorStop(t) { StepsSilent(TurnBatch(cfg, r, t), t.schedule, k); }
  }

  /** And nothing if it has none. */
  lemma TurnSilent(cfg: Config, r: Run, t: TurnInput, k: nat, p: seq<Entry>)
    requires t.stream.end.Replied? && k >= r.started + |TurnAnswers(cfg, r, t)| && p == Project(TurnAdds(cfg, r, t), k)
    ensures p == []
  {
    TurnShows(cfg, r, t, k, p);
    TurnStepsSilent(cfg, r, t, k, p);
  }

  // ---------- Unanimity

  /** Some call ended in this log, and all that did asked to end the run. */
  ghost predicate AllAskToStop(log: Log) {
    && (exists x :: 0 <= x < |log| && IsEnd(log[x]))
    && forall x | 0 <= x < |log| && IsEnd(log[x]) :: log[x].entry.event.outcome.result.terminate == Some(true)
  }

  lemma EndIsFinal(b: Batch, schedule: seq<nat>, x: nat) returns (i: nat)
    requires x < |BatchLog(b, schedule)| && IsEnd(BatchLog(b, schedule)[x])
    ensures i < StartedFrom(b, 0) && BatchLog(b, schedule)[x].entry.event.outcome == BatchFinals(b)[i]
  {
    var o := BatchLog(b, schedule)[x];
    MemberProject(BatchLog(b, schedule), x, o.k);
    i := ShownIsStarted(b, schedule, o.k);
    OnlyEnd(b, schedule, i, o.k, Project(BatchLog(b, schedule), o.k), o.entry);
  }

  lemma ShownIsStarted(b: Batch, schedule: seq<nat>, k: nat) returns (i: nat)
    requires Project(BatchLog(b, schedule), k) != []
    ensures i < StartedFrom(b, 0) && k == b.base + i
  {
    BatchLife(b, schedule, k);
    i := k - b.base;
  }

  lemma OnlyEnd(b: Batch, schedule: seq<nat>, i: nat, k: nat, p: seq<Entry>, e: Entry)
    requires i < StartedFrom(b, 0) && k == b.base + i && p == Project(BatchLog(b, schedule), k)
    requires e in p && e.Emit? && e.event.ToolEnd?
    ensures e.event.outcome == BatchFinals(b)[i]
  {
    EndIs(b, schedule, i, k, p);
    var x :| 0 <= x < |p| && p[x] == e;
  }

  lemma EndIs(b: Batch, schedule: seq<nat>, i: nat, k: nat, p: seq<Entry>)
    requires i < StartedFrom(b, 0) && k == b.base + i && p == Project(BatchLog(b, schedule), k)
    ensures p != [] && p[|p| - 1] == Emit(ToolEnd(BatchFinals(b)[i]))
    ensures forall x | 0 <= x < |p| - 1 :: !(p[x].Emit? && p[x].event.ToolEnd?)
  {
    ShownAsLogged(b, schedule, i, k, p);
    EndsFinally(b.cfg, b.tools, b.calls[i], b.inputs(i), p);
    assert BatchFinals(b)[i] == LifeOf(b, i).final;
  }

  lemma EndsFinally(cfg: Config, tools: seq<Tool>, call: Call, input: CallInput, p: seq<Entry>)
    requires p == CallLog(cfg, tools, call, input)
    ensures p != [] && p[|p| - 1] == Emit(ToolEnd(Final(cfg, tools, call, input)))
    ensures forall x | 0 <= x < |p| - 1 :: !(p[x].Emit? && p[x].event.ToolEnd?)
  {
    CallLogEnds(cfg, tools, call, input);
    forall x | 0 <= x < |p| - 1 ensures !(p[x].Emit? && p[x].event.ToolEnd?) { assert p[..|p| - 1][x] == p[x]; }
  }

  lemma LastShown(log: Log, k: nat, p: seq<Entry>) returns (x: nat)
    requires p == Project(log, k) && p != []
    ensures x < |log| && log[x] == Of(k, p[|p| - 1])
  {
    assert p[|p| - 1] in p;
    x := ProjectMember(log, k, p[|p| - 1]);
  }

  lemma FinalIsEnd(b: Batch, schedule: seq<nat>, i: nat) returns (x: nat)
    requires i < StartedFrom(b, 0)
    ensures x < |BatchLog(b, schedule)| && IsEnd(BatchLog(b, schedule)[x])
    ensures BatchLog(b, schedule)[x].entry.event.outcome == BatchFinals(b)[i]
  {
    var k := b.base + i;
    var p := Project(BatchLog(b, schedule), k);
    EndIs(b, schedule, i, k, p);
    x := LastShown(BatchLog(b, schedule), k, p);
  }

  /** A batch ends the run exactly if some call ended and every call that did asked for it. */
  lemma UnanimousIff(b: Batch, schedule: seq<nat>)
    ensures Unanimous(b) <==> AllAskToStop(BatchObs(b, schedule))
  {
    if b.calls != [] {
      var log := BatchLog(b, schedule);
      if Unanimous(b) {
        var x := FinalIsEnd(b, schedule, 0);
        forall y | 0 <= y < |log| && IsEnd(log[y]) ensures log[y].entry.event.outcome.result.terminate == Some(true) {
          var i := EndIsFinal(b, schedule, y);
        }
      }
      if AllAskToStop(log) {
        var y :| 0 <= y < |log| && IsEnd(log[y]);
        var j := EndIsFinal(b, schedule, y);
        forall i | 0 <= i < |BatchFinals(b)| ensures BatchFinals(b)[i].result.terminate == Some(true) {
          var x := FinalIsEnd(b, schedule, i);
        }
      }
    }
  }

  lemma OnlyStepsAsk(opening: Log, steps: Log, closing: Log)
    requires (forall x | 0 <= x < |opening| :: !opening[x].Of?) && forall x | 0 <= x < |closing| :: !closing[x].Of?
    ensures AllAskToStop(opening + steps + closing) <==> AllAskToStop(steps)
  {
    var log, n := opening + steps + closing, |opening|;
    forall x | 0 <= x < |log| && IsEnd(log[x]) ensures n <= x < n + |steps| && log[x] == steps[x - n] {}
    forall x | 0 <= x < |steps| ensures log[n + x] == steps[x] {}
    if AllAskToStop(log) {
      var x :| 0 <= x < |log| && IsEnd(log[x]);
      assert IsEnd(steps[x - n]);
    }
  }

  lemma OpeningIsNoCall(r: Run, t: TurnInput)
    ensures forall x | 0 <= x < |TurnOpening(r, t)| :: !TurnOpening(r, t)[x].Of?
  {
    var opening := TurnOpening(r, t);
    InjectTells(r.source, r.pending);
    ReplyTells(r.context + r.pending, t.stream);
    forall o | o in opening ensures !o.Of? {}
  }

  /** Without an error stop and without the hook's word, a turn stops the run hard exactly
      if some tool of it ended and every one that did asked for it. */
  lemma TurnStopsIff(cfg: Config, r: Run, t: TurnInput)
    requires t.stream.end.Replied? && !ErrorStop(t) && !t.stopAfterTurn
    ensures HardStop(cfg, r, t) <==> AllAskToStop(TurnAdds(cfg, r, t))
    ensures Turn(cfg, r, t).0.log == r.log + TurnAdds(cfg, r, t)
  {
    var (f, status) := Turn(cfg, r, t);
    TurnLogs(cfg, r, t);
    TurnBatchIs(cfg, r, t);
    UnanimousIff(TurnBatch(cfg, r, t), t.schedule);
    OpeningIsNoCall(r, t);
    OnlyStepsAsk(TurnOpening(r, t), TurnSteps(cfg, r, t),
                 TurnClosing(t.stream.end.reply, TurnAnswers(cfg, r, t), f.newMessages, status != Going));
  }
}
