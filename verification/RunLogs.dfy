/** Reading a log: what was said, which turns it holds, which tool calls are open. */
module RunLogs {
  import opened Ordering
  import opened AgentTypes
  import opened AgentStates
  import opened ToolCalls
  import opened ToolBatches
  import opened ApprovalGate

  // ---------- What was said

  function SaidBy(o: Obs): seq<Message> {
    match o
    case Loop(MessageEnd(m)) => [m]
    case Of(_, Emit(MessageEnd(m))) => [m]
    case _ => []
  }

  /** The completed messages of a log. */
  function Said(log: Log): seq<Message> {
    if log == [] then [] else Said(log[..|log| - 1]) + SaidBy(log[|log| - 1])
  }

  lemma {:induction false} SaidConcat(a: Log, b: Log)
    ensures Said(a + b) == Said(a) + Said(b)
  {
    if b == [] {
      assert a + b == a;
    } else {
      var init := b[..|b| - 1];
      assert (a + b)[..|a + b| - 1] == a + init;
      SaidConcat(a, init);
      Regroup(Said(a), Said(init), SaidBy(b[|b| - 1]));
    }
  }

  lemma {:induction false} SaidNothing(log: Log)
    requires forall o | o in log :: SaidBy(o) == []
    ensures Said(log) == []
  {
    if log != [] {
      assert log == log[..|log| - 1] + [log[|log| - 1]];
      assert log[|log| - 1] in log;
      SaidNothing(log[..|log| - 1]);
    }
  }

  lemma SaidAnnounce(m: Message)
    ensures Said(Announce(m)) == [m]
  {
    assert Announce(m)[..1] == [Loop(MessageStart(m))];
    assert Said([Loop(MessageStart(m))]) == [] by { assert [Loop(MessageStart(m))][..0] == []; }
  }

  lemma {:induction false} SaidAnnounceAll(ms: seq<Message>)
    ensures Said(AnnounceAll(ms)) == ms
  {
    if ms != [] {
      SaidAnnounceAll(ms[..|ms| - 1]);
      SaidAnnounce(ms[|ms| - 1]);
      SaidConcat(AnnounceAll(ms[..|ms| - 1]), Announce(ms[|ms| - 1]));
    }
  }

  lemma TranscriptSnoc(v: View, log: Log, o: Obs)
    ensures Replay(v, log + [o]).messages == Replay(v, log).messages + SaidBy(o)
  {
    ReplaySnoc(v, log, o);
    ReduceSays(Replay(v, log), o);
  }

  /** The agent's transcript is what was said. */
  lemma {:induction false} TranscriptIsSaid(v: View, log: Log)
    ensures Replay(v, log).messages == v.messages + Said(log)
  {
    if log == [] {
      assert v.messages + [] == v.messages;
    } else {
      var init, o := log[..|log| - 1], log[|log| - 1];
      assert log == init + [o];
      TranscriptIsSaid(v, init);
      TranscriptSnoc(v, init, o);
      Regroup(v.messages, Said(init), SaidBy(o));
    }
  }

  lemma ReduceSays(v: View, o: Obs)
    ensures v.messages + SaidBy(o) == if EventOf(o) == [] then v.messages else Reduce(v, EventOf(o)[0]).messages
  {
  }

  // ---------- Members of a batch log

  /** The events of a tool call. */
  predicate Tooling(e: Entry) {
    e.Emit? ==> e.event.ToolStart? || e.event.ToolUpdate? || e.event.ToolEnd? || e.event.PromptResolved?
  }

  predicate ToolStep(o: Obs) {
    o.Of? && Tooling(o.entry)
  }

  ghost predicate ToolLives(lives: seq<Life>) {
    forall i, e | 0 <= i < |lives| && (e in lives[i].preflight || e in lives[i].rest) :: Tooling(e)
  }

  lemma LifeTooling(b: Batch, i: nat)
    requires i < |b.calls|
    ensures forall e | e in LifeOf(b, i).preflight || e in LifeOf(b, i).rest :: Tooling(e)
  {
    var life := LifeOf(b, i);
    PrepareIsPreparatory(b.cfg, b.tools, b.calls[i], b.inputs(i));
    forall e | e in life.preflight ensures Tooling(e) {
      assert Tooling(Emit(ToolStart(b.calls[i])));
    }
    RestTooling(b.cfg, b.tools, b.calls[i], b.inputs(i));
  }

  lemma RestTooling(cfg: Config, tools: seq<Tool>, call: Call, input: CallInput)
    ensures forall e | e in RestLog(cfg, tools, call, input) :: Tooling(e)
  {
  }

  lemma BatchTooling(b: Batch)
    ensures ToolLives(BatchLives(b))
  {
    forall i, e | 0 <= i < |BatchLives(b)| && (e in BatchLives(b)[i].preflight || e in BatchLives(b)[i].rest)
      ensures Tooling(e)
    {
      LifeTooling(b, i);
    }
  }

  lemma TagTooling(k: nat, entries: seq<Entry>)
    requires forall e | e in entries :: Tooling(e)
    ensures forall o | o in TagAll(k, entries) :: ToolStep(o)
  {
  }

  lemma {:induction false} InterleaveMembers(threads: seq<Log>, schedule: seq<nat>)
    requires forall i, o | 0 <= i < |threads| && o in threads[i] :: ToolStep(o)
    ensures forall o | o in Interleave(threads, schedule) :: ToolStep(o)
    decreases Work(threads)
  {
    if !Idle(threads) {
      var j := Pick(threads, schedule);
      var next := threads[j := threads[j][1..]];
      WorkDrops(threads, j);
      forall i, o | 0 <= i < |next| && o in next[i] ensures ToolStep(o) {
        assert o in threads[i];
      }
      InterleaveMembers(next, Later(schedule));
      assert threads[j][0] in threads[j];
    }
  }

  lemma {:induction false} PreflightMembers(base: nat, lives: seq<Life>)
    requires ToolLives(lives)
    ensures forall o | o in PreflightLog(base, lives) :: ToolStep(o)
  {
    if lives != [] {
      var i := |lives| - 1;
      PreflightMembers(base, lives[..i]);
      TagTooling(base + i, Early(lives[i]));
    }
  }

  lemma ThreadMembers(base: nat, lives: seq<Life>, schedule: seq<nat>)
    requires ToolLives(lives)
    ensures forall o | o in Interleave(Threads(base, lives), schedule) :: ToolStep(o)
  {
    var threads := Threads(base, lives);
    forall i, o | 0 <= i < |threads| && o in threads[i] ensures ToolStep(o) {
      TagTooling(base + i, if lives[i].dispatched then lives[i].rest else []);
    }
    InterleaveMembers(threads, schedule);
  }

  lemma SaidTagged(k: nat, entries: seq<Entry>)
    requires forall e | e in entries :: Tooling(e)
    ensures Said(TagAll(k, entries)) == []
  {
    TagTooling(k, entries);
    SaidNothing(TagAll(k, entries));
  }

  lemma SaidThree(a: Log, b: Log, c: Log)
    ensures Said(a + b + c) == Said(a) + Said(b) + Said(c)
  {
    SaidConcat(a + b, c);
    SaidConcat(a, b);
  }

  lemma MessagesSnoc(lives: seq<Life>)
    requires lives != []
    ensures Messages(FinalsOf(lives))
         == Messages(FinalsOf(lives[..|lives| - 1])) + [ResultMessage(lives[|lives| - 1].final)]
  {
  }

  lemma SaidStep(before: Log, k: nat, life: Life)
    requires forall e | e in life.preflight || e in life.rest :: Tooling(e)
    ensures Said(before + TagAll(k, life.preflight + life.rest) + Announce(ResultMessage(life.final)))
         == Said(before) + [ResultMessage(life.final)]
  {
    SaidThree(before, TagAll(k, life.preflight + life.rest), Announce(ResultMessage(life.final)));
    SaidTagged(k, life.preflight + life.rest);
    SaidAnnounce(ResultMessage(life.final));
    assert Said(before) + [] == Said(before);
  }

  lemma {:induction false} SequentialSaid(base: nat, lives: seq<Life>)
    requires ToolLives(lives)
    ensures Said(SequentialLog(base, lives)) == Messages(FinalsOf(lives))
  {
    if lives == [] {
    } else {
      var i := |lives| - 1;
      SequentialSaid(base, lives[..i]);
      SaidStep(SequentialLog(base, lives[..i]), base + i, lives[i]);
      MessagesSnoc(lives);
    }
  }

  lemma StepsSaid(log: Log)
    requires forall o | o in log :: ToolStep(o)
    ensures Said(log) == []
  {
    SaidNothing(log);
  }

  lemma ParallelSaid(base: nat, lives: seq<Life>, schedule: seq<nat>)
    requires ToolLives(lives)
    ensures Said(ParallelLog(base, lives, schedule)) == Messages(FinalsOf(lives))
  {
    var ms := Messages(FinalsOf(lives));
    assert Said(PreflightLog(base, lives)) == [] by {
      PreflightMembers(base, lives);
      StepsSaid(PreflightLog(base, lives));
    }
    assert Said(Interleave(Threads(base, lives), schedule)) == [] by {
      ThreadMembers(base, lives, schedule);
      StepsSaid(Interleave(Threads(base, lives), schedule));
    }
    SaidAnnounceAll(ms);
    SaidThree(PreflightLog(base, lives), Interleave(Threads(base, lives), schedule), AnnounceAll(ms));
    assert [] + [] + ms == ms;
  }

  /** Under any scheduler a batch says exactly its results, in source order. */
  lemma BatchSaid(b: Batch, schedule: seq<nat>)
    ensures Said(BatchLog(b, schedule)) == Messages(BatchFinals(b))
  {
    BatchTooling(b);
    SequentialSaid(b.base, BatchLives(b));
    ParallelSaid(b.base, BatchLives(b), schedule);
  }

  /** When the outcome of each call is fixed, the two executors say the same results and
      show the same life of every call, whatever the scheduler does. */
  lemma ExecutorsAgree(b: Batch, schedule: seq<nat>, k: nat)
    ensures Said(ParallelLog(b.base, BatchLives(b), schedule)) == Said(SequentialLog(b.base, BatchLives(b)))
    ensures Project(ParallelLog(b.base, BatchLives(b), schedule), k) == Project(SequentialLog(b.base, BatchLives(b)), k)
  {
    BatchTooling(b);
    SequentialSaid(b.base, BatchLives(b));
    ParallelSaid(b.base, BatchLives(b), schedule);
    SequentialLives(b.base, BatchLives(b), k);
    ParallelLives(b.base, BatchLives(b), schedule, k);
  }

  // ---------- Turns

  datatype Phase = Before | InRun(turns: nat) | InTurn(turns: nat) | Closed(turns: nat) | Broken

  /** One event of the run grammar: start, closed turns, end. */
  function PhaseStep(p: Phase, e: Event): Phase {
    match e
    case AgentStart => if p.Before? then InRun(0) else Broken
    case TurnStart => if p.InRun? then InTurn(p.turns) else Broken
    case TurnEnd(_, _) => if p.InTurn? then InRun(p.turns + 1) else Broken
    case AgentEnd(_) => if p.InRun? && p.turns > 0 then Closed(p.turns) else Broken
    case _ => if p.InTurn? then p else Broken
  }

  function PhaseObs(p: Phase, o: Obs): Phase {
    match o
    case Loop(e) => PhaseStep(p, e)
    case Of(_, Emit(e)) => PhaseStep(p, e)
    case _ => p
  }

  function PhaseAfter(p: Phase, log: Log): Phase {
    if log == [] then p else PhaseObs(PhaseAfter(p, log[..|log| - 1]), log[|log| - 1])
  }

  lemma {:induction false} PhaseConcat(p: Phase, a: Log, b: Log)
    ensures PhaseAfter(p, a + b) == PhaseAfter(PhaseAfter(p, a), b)
  {
    if b == [] {
      assert a + b == a;
    } else {
      var init := b[..|b| - 1];
      assert (a + b)[..|a + b| - 1] == a + init;
      PhaseConcat(p, a, init);
    }
  }

  /** Observations that belong inside a turn and leave it open. */
  predicate Inner(o: Obs) {
    match o
    case Loop(e) => e.MessageStart? || e.MessageUpdate? || e.MessageEnd?
    case Of(_, e) => Tooling(e)
    case Injected(_, _) => true
  }

  lemma {:induction false} InnerKeepsTurn(n: nat, log: Log)
    requires forall o | o in log :: Inner(o)
    ensures PhaseAfter(InTurn(n), log) == InTurn(n)
  {
    if log != [] {
      assert log == log[..|log| - 1] + [log[|log| - 1]];
      assert log[|log| - 1] in log;
      InnerKeepsTurn(n, log[..|log| - 1]);
    }
  }

  lemma {:induction false} AnnounceAllInner(ms: seq<Message>)
    ensures forall o | o in AnnounceAll(ms) :: Inner(o)
  {
    if ms != [] { AnnounceAllInner(ms[..|ms| - 1]); }
  }

  lemma {:induction false} SequentialInner(base: nat, lives: seq<Life>)
    requires ToolLives(lives)
    ensures forall o | o in SequentialLog(base, lives) :: Inner(o)
  {
    if lives != [] {
      var i := |lives| - 1;
      SequentialInner(base, lives[..i]);
      TagTooling(base + i, lives[i].preflight + lives[i].rest);
    }
  }

  lemma BatchInner(b: Batch, schedule: seq<nat>)
    ensures forall o | o in BatchLog(b, schedule) :: Inner(o)
  {
    BatchTooling(b);
    SequentialInner(b.base, BatchLives(b));
    PreflightMembers(b.base, BatchLives(b));
    ThreadMembers(b.base, BatchLives(b), schedule);
    AnnounceAllInner(Messages(FinalsOf(BatchLives(b))));
  }

  // ---------- Open tool calls

  predicate StartsId(o: Obs, id: string) {
    EventOf(o) != [] && EventOf(o)[0].ToolStart? && EventOf(o)[0].call.id == id
  }

  predicate EndsId(o: Obs, id: string) {
    EventOf(o) != [] && EventOf(o)[0].ToolEnd? && EventOf(o)[0].outcome.call.id == id
  }

  /** `id` was started at `i` and has not been ended since. */
  ghost predicate OpenAt(log: Log, i: nat, id: string) {
    i < |log| && StartsId(log[i], id) && forall j | i < j < |log| :: !EndsId(log[j], id)
  }

  ghost predicate IsOpen(log: Log, id: string) {
    exists i: nat :: OpenAt(log, i, id)
  }

  lemma OpenSnoc(log: Log, o: Obs, id: string)
    ensures IsOpen(log + [o], id) <==> StartsId(o, id) || (IsOpen(log, id) && !EndsId(o, id))
  {
    var n := log + [o];
    if StartsId(o, id) {
      assert OpenAt(n, |log|, id);
    } else {
      assert n[|log|] == o;
      forall i: nat ensures OpenAt(n, i, id) <==> OpenAt(log, i, id) && !EndsId(o, id) {
        if i < |log| {
          assert n[i] == log[i];
          assert forall j | i < j < |log| :: n[j] == log[j];
        }
      }
    }
  }

  lemma PendingSnoc(v: View, log: Log, o: Obs, id: string)
    ensures id in Replay(v, log + [o]).pending
       <==> StartsId(o, id) || (id in Replay(v, log).pending && !EndsId(o, id))
  {
    ReplaySnoc(v, log, o);
    if EventOf(o) != [] { ReducePending(Replay(v, log), EventOf(o)[0], id); }
  }

  lemma ReducePending(v: View, e: Event, id: string)
    ensures id in Reduce(v, e).pending
       <==> (e.ToolStart? && e.call.id == id) || (id in v.pending && !(e.ToolEnd? && e.outcome.call.id == id))
  {
  }

  /** For every log: the pending set holds exactly the ids started and not ended since. */
  lemma {:induction false} PendingIsOpen(v: View, log: Log, id: string)
    requires v.pending == {}
    ensures id in Replay(v, log).pending <==> IsOpen(log, id)
  {
    if log == [] {
    } else {
      var init, o := log[..|log| - 1], log[|log| - 1];
      assert log == init + [o];
      PendingIsOpen(v, init, id);
      PendingSnoc(v, init, o, id);
      OpenSnoc(init, o, id);
    }
  }
}
