/** `executeToolCallsSequential`, `executeToolCallsParallel` and `executeToolCalls`:
    the loops over the calls of one assistant message. What the loops emit is
    collected in `log`. */
module ToolExecutors {
  import opened CanonicalJson
  import opened AgentTypes
  import opened ToolCalls
  import opened ToolBatches

  lemma TagSplit(k: nat, a: seq<Entry>, b: seq<Entry>)
    ensures TagAll(k, a + b) == TagAll(k, a) + TagAll(k, b)
  {
  }

  lemma StartedSnoc(b: Batch, i: nat)
    requires i < |b.calls| && StartedFrom(b, 0) == StartedFrom(b, i)
    ensures if b.inputs(i).abortedAfterwards then StartedFrom(b, 0) == i + 1
            else StartedFrom(b, 0) == StartedFrom(b, i + 1)
  {
  }

  lemma LivesPrefix(b: Batch, i: nat)
    requires i < |b.calls|
    ensures Lives(b, i + 1)[..i] == Lives(b, i) && Lives(b, i + 1)[i] == LifeOf(b, i)
  {
  }

  /** Prepares one call, runs it if it may run, and reports its end. */
  method RunCall(b: Batch, i: nat) returns (finalized: Finalized, log: Log)
    requires i < |b.calls|
    ensures log == TagAll(b.base + i, LifeOf(b, i).preflight + LifeOf(b, i).rest)
    ensures finalized == LifeOf(b, i).final
  {
    var call, input := b.calls[i], b.inputs(i);
    var (preparation, entries) := Prepare(b.cfg, b.tools, call, input);
    log := TagAll(b.base + i, [Emit(ToolStart(call))] + entries);
    ghost var rest: seq<Entry> := [];
    match preparation {
      case Immediate(result) =>
        finalized := Finalized(call, result, true);
        assert log == log + TagAll(b.base + i, rest);
      case Prepared(args) =>
        rest := ExecuteLog(args, call, input);
        log := log + TagAll(b.base + i, ExecuteLog(args, call, input));
        finalized := Outcome(call, input);
    }
    log := log + [Of(b.base + i, Emit(ToolEnd(finalized)))];
    RunCallLog(b, i, rest);
  }

  lemma RunCallLog(b: Batch, i: nat, rest: seq<Entry>)
    requires i < |b.calls|
    requires rest == match Prepare(b.cfg, b.tools, b.calls[i], b.inputs(i)).0
                     case Immediate(_) => []
                     case Prepared(args) => ExecuteLog(args, b.calls[i], b.inputs(i))
    ensures TagAll(b.base + i, LifeOf(b, i).preflight) + TagAll(b.base + i, rest)
              + [Of(b.base + i, Emit(ToolEnd(LifeOf(b, i).final)))]
         == TagAll(b.base + i, LifeOf(b, i).preflight + LifeOf(b, i).rest)
  {
    var k := b.base + i;
    var end := [Emit(ToolEnd(LifeOf(b, i).final))];
    assert LifeOf(b, i).rest == rest + end;
    TagSplit(k, LifeOf(b, i).preflight, rest + end);
    TagSplit(k, rest, end);
    assert TagAll(k, end) == [Of(k, end[0])];
  }

  method ExecuteSequential(b: Batch) returns (messages: seq<Message>, terminate: bool, started: nat, log: Log)
    ensures log == SequentialLog(b.base, BatchLives(b))
    ensures messages == Messages(BatchFinals(b)) && terminate == Terminates(BatchFinals(b))
    ensures started == StartedFrom(b, 0)
  {
    var finals: seq<Finalized> := [];
    messages, started, log := [], 0, [];
    var aborted := false;
    while started < |b.calls| && !aborted
      invariant started <= |b.calls| && log == SequentialLog(b.base, Lives(b, started))
      invariant finals == FinalsOf(Lives(b, started)) && messages == Messages(finals)
      invariant StartedFrom(b, 0) == if aborted then started else StartedFrom(b, started)
      decreases |b.calls| - started, !aborted
    {
      var finalized, entries := RunCall(b, started);
      log := log + entries + Announce(ResultMessage(finalized));
      SequentialNext(b, started);
      StartedSnoc(b, started);
      finals := finals + [finalized];
      messages := messages + [ResultMessage(finalized)];
      aborted := b.inputs(started).abortedAfterwards;
      started := started + 1;
    }
    terminate := Terminates(finals);
  }

  lemma SequentialNext(b: Batch, i: nat)
    requires i < |b.calls|
    ensures SequentialLog(b.base, Lives(b, i + 1))
         == SequentialLog(b.base, Lives(b, i)) + TagAll(b.base + i, LifeOf(b, i).preflight + LifeOf(b, i).rest)
            + Announce(ResultMessage(LifeOf(b, i).final))
    ensures FinalsOf(Lives(b, i + 1)) == FinalsOf(Lives(b, i)) + [LifeOf(b, i).final]
    ensures Messages(FinalsOf(Lives(b, i + 1))) == Messages(FinalsOf(Lives(b, i))) + [ResultMessage(LifeOf(b, i).final)]
  {
    LivesPrefix(b, i);
  }

  /** The results known when the preflight loop is over. */
  function Waiting(lives: seq<Life>): (r: seq<Option<Finalized>>)
    ensures |r| == |lives| && forall i | 0 <= i < |r| :: r[i] == if lives[i].dispatched then None else Some(lives[i].final)
  {
    seq(|lives|, i requires 0 <= i < |lives| => if lives[i].dispatched then None else Some(lives[i].final))
  }

  method PreflightOne(b: Batch, i: nat) returns (result: Option<Finalized>, log: Log)
    requires i < |b.calls|
    ensures var life := LifeOf(b, i);
            && log == TagAll(b.base + i, Early(life))
            && result == if life.dispatched then None else Some(life.final)
  {
    var call, input := b.calls[i], b.inputs(i);
    var (preparation, entries) := Prepare(b.cfg, b.tools, call, input);
    log := TagAll(b.base + i, [Emit(ToolStart(call))] + entries);
    match preparation {
      case Immediate(r) =>
        var finalized := Finalized(call, r, true);
        RunCallLog(b, i, []);
        assert log == log + TagAll(b.base + i, []);
        log := log + [Of(b.base + i, Emit(ToolEnd(finalized)))];
        result := Some(finalized);
      case Prepared(_) =>
        result := None;
        assert LifeOf(b, i).preflight + [] == LifeOf(b, i).preflight;
    }
  }

  lemma PreflightNext(b: Batch, i: nat)
    requires i < |b.calls|
    ensures var life := LifeOf(b, i);
            && PreflightLog(b.base, Lives(b, i + 1))
                 == PreflightLog(b.base, Lives(b, i))
                    + TagAll(b.base + i, Early(life))
            && Waiting(Lives(b, i + 1)) == Waiting(Lives(b, i)) + [if life.dispatched then None else Some(life.final)]
  {
    LivesPrefix(b, i);
  }

  /** The preflight loop: prepared calls wait, the others end at once. */
  method Preflight(b: Batch) returns (started: nat, results: seq<Option<Finalized>>, log: Log)
    ensures started == StartedFrom(b, 0)
    ensures log == PreflightLog(b.base, BatchLives(b)) && results == Waiting(BatchLives(b))
  {
    started, results, log := 0, [], [];
    var aborted := false;
    while started < |b.calls| && !aborted
      invariant started <= |b.calls| && log == PreflightLog(b.base, Lives(b, started))
      invariant results == Waiting(Lives(b, started))
      invariant StartedFrom(b, 0) == if aborted then started else StartedFrom(b, started)
      decreases |b.calls| - started, !aborted
    {
      var result, entries := PreflightOne(b, started);
      results, log := results + [result], log + entries;
      PreflightNext(b, started);
      StartedSnoc(b, started);
      aborted := b.inputs(started).abortedAfterwards;
      started := started + 1;
    }
  }

  /** A thread hands over its result with its last step and not before. */
  ghost predicate Pending(left: Log, result: Option<Finalized>, final: Finalized) {
    if left == [] then result == Some(final)
    else
      && result == None && IsEnd(left[|left| - 1]) && left[|left| - 1].entry.event.outcome == final
      && forall i | 0 <= i < |left| - 1 :: !IsEnd(left[i])
  }

  ghost predicate AllPending(left: seq<Log>, results: seq<Option<Finalized>>, finals: seq<Finalized>) {
    |left| == |results| == |finals| && forall i | 0 <= i < |left| :: Pending(left[i], results[i], finals[i])
  }

  lemma PendingStep(left: Log, result: Option<Finalized>, final: Finalized)
    requires left != [] && Pending(left, result, final)
    ensures Pending(left[1..], if IsEnd(left[0]) then Some(left[0].entry.event.outcome) else result, final)
  {
    if |left| > 1 { assert left[1..][|left| - 2] == left[|left| - 1]; }
  }

  /** Promise.all over the waiting calls: the scheduler lets one thread take one step
      at a time until all have finished; results keep the source order. */
  method RunThreads(threads: seq<Log>, waiting: seq<Option<Finalized>>, schedule0: seq<nat>, ghost finals: seq<Finalized>)
      returns (results: seq<Finalized>, log: Log)
    requires AllPending(threads, waiting, finals)
    ensures log == Interleave(threads, schedule0)
    ensures results == finals
  {
    var left, slots, schedule := threads, waiting, schedule0;
    log := [];
    while !Idle(left)
      invariant AllPending(left, slots, finals)
      invariant log + Interleave(left, schedule) == Interleave(threads, schedule0)
      decreases Work(left)
    {
      var j := Pick(left, schedule);
      var o := left[j][0];
      WorkDrops(left, j);
      InterleaveHead(left, schedule);
      PendingStep(left[j], slots[j], finals[j]);
      if IsEnd(o) { slots := slots[j := Some(o.entry.event.outcome)]; }
      left := left[j := left[j][1..]];
      schedule := Later(schedule);
      log := log + [o];
    }
    assert Interleave(left, schedule) == [];
    assert forall i | 0 <= i < |left| :: Pending(left[i], slots[i], finals[i]);
    results := seq(|slots|, i requires 0 <= i < |slots| => slots[i].value);
  }

  lemma InterleaveHead(threads: seq<Log>, schedule: seq<nat>)
    requires !Idle(threads)
    ensures var j := Pick(threads, schedule);
            Interleave(threads, schedule)
              == [threads[j][0]] + Interleave(threads[j := threads[j][1..]], Later(schedule))
  {
  }

  /** A dispatched call's remaining observations end with its result. */
  lemma RestEnds(cfg: Config, tools: seq<Tool>, call: Call, input: CallInput, k: nat)
    ensures Pending(TagAll(k, RestLog(cfg, tools, call, input)), None, Final(cfg, tools, call, input))
  {
    var final := Final(cfg, tools, call, input);
    match Prepare(cfg, tools, call, input).0
    case Immediate(_) =>
    case Prepared(args) =>
      assert RestLog(cfg, tools, call, input) == ExecuteLog(args, call, input) + [Emit(ToolEnd(final))];
  }

  lemma ThreadsPending(b: Batch, n: nat)
    requires n <= |b.calls|
    ensures AllPending(Threads(b.base, Lives(b, n)), Waiting(Lives(b, n)), FinalsOf(Lives(b, n)))
  {
    var lives := Lives(b, n);
    forall i | 0 <= i < n ensures Pending(Threads(b.base, lives)[i], Waiting(lives)[i], FinalsOf(lives)[i]) {
      RestEnds(b.cfg, b.tools, b.calls[i], b.inputs(i), b.base + i);
    }
  }

  method ExecuteParallel(b: Batch, schedule: seq<nat>)
      returns (messages: seq<Message>, terminate: bool, started: nat, log: Log)
    ensures log == ParallelLog(b.base, BatchLives(b), schedule)
    ensures messages == Messages(BatchFinals(b)) && terminate == Terminates(BatchFinals(b))
    ensures started == StartedFrom(b, 0)
  {
    var waiting;
    started, waiting, log := Preflight(b);
    ThreadsPending(b, started);
    var finals, steps := RunThreads(Threads(b.base, Lives(b, started)), waiting, schedule, BatchFinals(b));
    var said;
    messages, said := AnnounceResults(finals);
    log := log + steps + said;
    terminate := Terminates(finals);
  }

  method AnnounceResults(finals: seq<Finalized>) returns (messages: seq<Message>, log: Log)
    ensures messages == Messages(finals) && log == AnnounceAll(messages)
  {
    messages, log := [], [];
    for i := 0 to |finals|
      invariant messages == Messages(finals)[..i] && log == AnnounceAll(messages)
    {
      var message := ResultMessage(finals[i]);
      assert (messages + [message])[..|messages|] == messages;
      log := log + Announce(message);
      messages := messages + [message];
    }
  }

  /** `executeToolCalls`. */
  method ExecuteBatch(b: Batch, schedule: seq<nat>)
      returns (messages: seq<Message>, terminate: bool, started: nat, log: Log)
    ensures log == BatchLog(b, schedule)
    ensures messages == Messages(BatchFinals(b)) && terminate == Terminates(BatchFinals(b))
    ensures started == StartedFrom(b, 0)
  {
    if RunsSequentially(b) {
      messages, terminate, started, log := ExecuteSequential(b);
    } else {
      messages, terminate, started, log := ExecuteParallel(b, schedule);
    }
  }
}
