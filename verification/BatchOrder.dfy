/** In which order the calls of a batch proceed. */
module BatchOrder {
  import opened AgentTypes
  import opened ToolCalls
  import opened ToolBatches
  import opened ApprovalGate
  import opened RunLogs
  import opened RunTools

  // ---------- Which executor runs

  /** `tools[m]` is the tool a call by this name finds. */
  predicate Finds(tools: seq<Tool>, name: string, m: nat) {
    m < |tools| && tools[m].name == name && forall q | 0 <= q < m :: tools[q].name != name
  }

  lemma {:induction false} FindsFirst(tools: seq<Tool>, name: string)
    ensures match FindTool(tools, name)
            case Some(tool) => exists m: nat :: Finds(tools, name, m) && tools[m] == tool
            case None => forall m: nat :: !Finds(tools, name, m)
  {
    if tools != [] {
      if tools[0].name == name {
        assert Finds(tools, name, 0);
      } else {
        FindsFirst(tools[1..], name);
        forall m: nat ensures Finds(tools, name, m + 1) <==> Finds(tools[1..], name, m) { FindsLater(tools, name, m); }
        if FindTool(tools, name).Some? {
          var m: nat :| Finds(tools[1..], name, m) && tools[1..][m] == FindTool(tools, name).value;
          assert Finds(tools, name, m + 1);
        }
        if m: nat :| Finds(tools, name, m) { assert Finds(tools[1..], name, m - 1); }
      }
    }
  }

  lemma FindsLater(tools: seq<Tool>, name: string, m: nat)
    requires tools != [] && tools[0].name != name
    ensures Finds(tools, name, m + 1) <==> Finds(tools[1..], name, m)
  {
    var rest := tools[1..];
    assert forall q | 0 <= q < |rest| :: rest[q] == tools[q + 1];
    if Finds(rest, name, m) {
      forall q | 0 <= q < m + 1 ensures tools[q].name != name { assert q > 0 ==> tools[q] == rest[q - 1]; }
    }
  }

  lemma FindsOnce(tools: seq<Tool>, name: string, m: nat, n: nat)
    requires Finds(tools, name, m) && Finds(tools, name, n)
    ensures m == n
  {
  }

  /** A call finds a tool that wants to run alone. */
  ghost predicate WantsTurns(b: Batch) {
    exists i: nat, m: nat :: i < |b.calls| && Finds(b.tools, b.calls[i].name, m) && b.tools[m].sequential
  }

  /** The calls run one after the other exactly if the configuration or one of their tools wants it. */
  lemma RunsSequentiallyIff(b: Batch)
    ensures RunsSequentially(b) <==> b.cfg.sequential || WantsTurns(b)
  {
    forall i | 0 <= i < |b.calls|
      ensures (FindTool(b.tools, b.calls[i].name).Some? && FindTool(b.tools, b.calls[i].name).value.sequential)
         <==> exists m: nat :: Finds(b.tools, b.calls[i].name, m) && b.tools[m].sequential
    {
      FindsFirst(b.tools, b.calls[i].name);
      if m: nat :| Finds(b.tools, b.calls[i].name, m) && b.tools[m].sequential {
        var n: nat :| Finds(b.tools, b.calls[i].name, n) && b.tools[n] == FindTool(b.tools, b.calls[i].name).value;
        FindsOnce(b.tools, b.calls[i].name, m, n);
      }
    }
    if WantsTurns(b) {
      var i: nat, m: nat :| i < |b.calls| && Finds(b.tools, b.calls[i].name, m) && b.tools[m].sequential;
      assert FindTool(b.tools, b.calls[i].name).Some? && FindTool(b.tools, b.calls[i].name).value.sequential;
    }
  }

  // ---------- One after the other

  /** Nothing is observed of a call once a later one has begun. */
  ghost predicate InTurn(log: Log) {
    forall x, y | 0 <= x < y < |log| && log[x].Of? && log[y].Of? :: log[x].k <= log[y].k
  }

  predicate Below(log: Log, k: nat) {
    forall x | 0 <= x < |log| && log[x].Of? :: log[x].k < k
  }

  lemma InTurnNext(log: Log, k: nat, entries: seq<Entry>)
    requires InTurn(log) && Below(log, k)
    ensures InTurn(log + TagAll(k, entries)) && Below(log + TagAll(k, entries), k + 1)
  {
  }

  lemma InTurnSaid(log: Log, k: nat, m: Message)
    requires InTurn(log) && Below(log, k)
    ensures InTurn(log + Announce(m)) && Below(log + Announce(m), k)
  {
  }

  lemma {:induction false} SequentialInTurn(base: nat, lives: seq<Life>)
    ensures InTurn(SequentialLog(base, lives)) && Below(SequentialLog(base, lives), base + |lives|)
  {
    if lives != [] {
      var i := |lives| - 1;
      var before := SequentialLog(base, lives[..i]);
      SequentialInTurn(base, lives[..i]);
      InTurnNext(before, base + i, lives[i].preflight + lives[i].rest);
      InTurnSaid(before + TagAll(base + i, lives[i].preflight + lives[i].rest), base + i + 1, ResultMessage(lives[i].final));
    }
  }

  predicate Begins(o: Obs) {
    o.Of? && o.entry.Emit? && o.entry.event.ToolStart?
  }

  predicate Runs(o: Obs) {
    o.Of? && o.entry.Executed?
  }

  /** The end of a call is at once followed by the announcement of its result. */
  ghost predicate SaidAtOnce(log: Log) {
    forall x | 0 <= x < |log| && IsEnd(log[x]) ::
      x + 2 < |log| && [log[x + 1], log[x + 2]] == Announce(ResultMessage(log[x].entry.event.outcome))
  }

  /** The only end of the call comes last and carries its result. */
  ghost predicate EndsOnce(life: Life) {
    var p := life.preflight + life.rest;
    && p != [] && p[|p| - 1] == Emit(ToolEnd(life.final))
    && forall x | 0 <= x < |p| - 1 :: !(p[x].Emit? && p[x].event.ToolEnd?)
  }

  lemma SaidNext(log: Log, k: nat, life: Life)
    requires SaidAtOnce(log) && EndsOnce(life)
    ensures SaidAtOnce(log + TagAll(k, life.preflight + life.rest) + Announce(ResultMessage(life.final)))
  {
    var p := life.preflight + life.rest;
    var n := log + TagAll(k, p) + Announce(ResultMessage(life.final));
    forall x | 0 <= x < |n| && IsEnd(n[x])
      ensures x + 2 < |n| && [n[x + 1], n[x + 2]] == Announce(ResultMessage(n[x].entry.event.outcome))
    {
      if x < |log| {
        assert n[x] == log[x] && n[x + 1] == log[x + 1] && n[x + 2] == log[x + 2];
      } else {
        assert x == |log| + |p| - 1;
        assert n[x] == Of(k, p[|p| - 1]);
      }
    }
  }

  lemma {:induction false} SequentialSaidAtOnce(base: nat, lives: seq<Life>)
    requires forall life | life in lives :: EndsOnce(life)
    ensures SaidAtOnce(SequentialLog(base, lives))
  {
    if lives != [] {
      var i := |lives| - 1;
      SequentialSaidAtOnce(base, lives[..i]);
      SaidNext(SequentialLog(base, lives[..i]), base + i, lives[i]);
    }
  }

  lemma LifeEndsOnce(b: Batch, i: nat)
    requires i < |b.calls|
    ensures EndsOnce(LifeOf(b, i))
  {
    var life := LifeOf(b, i);
    var p := CallLog(b.cfg, b.tools, b.calls[i], b.inputs(i));
    assert p == life.preflight + life.rest;
    CallLogEnds(b.cfg, b.tools, b.calls[i], b.inputs(i));
    forall x | 0 <= x < |p| - 1 ensures !(p[x].Emit? && p[x].event.ToolEnd?) { assert p[x] in p[..|p| - 1]; }
  }

  /** In a batch with a sequential tool no call begins before the one before it has ended
      and its result has been announced. */
  lemma SequentialTakesTurns(b: Batch, schedule: seq<nat>)
    requires b.cfg.sequential || WantsTurns(b)
    ensures InTurn(BatchLog(b, schedule)) && SaidAtOnce(BatchLog(b, schedule))
  {
    RunsSequentiallyIff(b);
    SequentialInTurn(b.base, BatchLives(b));
    forall life | life in BatchLives(b) ensures EndsOnce(life) {
      var i :| 0 <= i < |BatchLives(b)| && BatchLives(b)[i] == life;
      LifeEndsOnce(b, i);
    }
    SequentialSaidAtOnce(b.base, BatchLives(b));
  }

  // ---------- All at once

  /** Calls begin in source order and all of them before any tool runs; results are
      announced when all have ended. */
  ghost predicate InWaves(log: Log) {
    forall x, y | 0 <= x < y < |log| ::
      && (Begins(log[x]) && Begins(log[y]) ==> log[x].k < log[y].k)
      && !(Runs(log[x]) && Begins(log[y])) && !(log[x].Loop? && log[y].Of?)
  }

  /** What the preflight loop shows: no tool runs, and calls begin in order. */
  ghost predicate Preparing(log: Log, k: nat) {
    && (forall x | 0 <= x < |log| :: log[x].Of? && log[x].k < k && !Runs(log[x]))
    && forall x, y | 0 <= x < y < |log| && Begins(log[x]) && Begins(log[y]) :: log[x].k < log[y].k
  }

  /** A call begins once, and runs only if it is dispatched, after its preflight. */
  ghost predicate BeginsOnce(life: Life) {
    && (forall e | e in Early(life) :: !e.Executed?)
    && (forall x | 0 < x < |Early(life)| :: !(Early(life)[x].Emit? && Early(life)[x].event.ToolStart?))
    && (life.dispatched ==> forall e | e in life.rest :: !(e.Emit? && e.event.ToolStart?))
  }

  lemma PreparingNext(log: Log, k: nat, life: Life)
    requires Preparing(log, k) && BeginsOnce(life)
    ensures Preparing(log + TagAll(k, Early(life)), k + 1)
  {
    var more := TagAll(k, Early(life));
    var n := log + more;
    forall x | 0 <= x < |n| ensures n[x].Of? && n[x].k < k + 1 && !Runs(n[x]) {
      if x >= |log| { assert n[x].entry == Early(life)[x - |log|] && Early(life)[x - |log|] in Early(life); }
    }
    forall x | |log| < x < |n| ensures !Begins(n[x]) { assert n[x].entry == Early(life)[x - |log|]; }
  }

  lemma {:induction false} PreflightPrepares(base: nat, lives: seq<Life>)
    requires forall life | life in lives :: BeginsOnce(life)
    ensures Preparing(PreflightLog(base, lives), base + |lives|)
  {
    if lives != [] {
      var i := |lives| - 1;
      PreflightPrepares(base, lives[..i]);
      PreparingNext(PreflightLog(base, lives[..i]), base + i, lives[i]);
    }
  }

  /** Observations of calls that have begun. */
  ghost predicate Stepping(log: Log) {
    forall x | 0 <= x < |log| :: log[x].Of? && !Begins(log[x])
  }

  ghost predicate Saying(log: Log) {
    forall x | 0 <= x < |log| :: log[x].Loop?
  }

  lemma {:induction false} InterleaveOf(threads: seq<Log>, schedule: seq<nat>)
    requires forall i | 0 <= i < |threads| :: Stepping(threads[i])
    ensures Stepping(Interleave(threads, schedule))
    decreases Work(threads)
  {
    if !Idle(threads) {
      var j := Pick(threads, schedule);
      WorkDrops(threads, j);
      InterleaveOf(threads[j := threads[j][1..]], Later(schedule));
    }
  }

  lemma ThreadsRun(base: nat, lives: seq<Life>, schedule: seq<nat>)
    requires forall life | life in lives :: BeginsOnce(life)
    ensures Stepping(Interleave(Threads(base, lives), schedule))
  {
    var threads: seq<Log> := Threads(base, lives);
    forall i | 0 <= i < |threads| ensures Stepping(threads[i]) {
      forall j | 0 <= j < |threads[i]| ensures !Begins(threads[i][j]) {
        assert lives[i] in lives && threads[i][j].entry in lives[i].rest;
      }
    }
    InterleaveOf(threads, schedule);
  }

  lemma {:induction false} AnnounceAllLoops(ms: seq<Message>)
    ensures Saying(AnnounceAll(ms))
  {
    if ms != [] { AnnounceAllLoops(ms[..|ms| - 1]); }
  }

  lemma Waves(prepared: Log, k: nat, steps: Log, said: Log)
    requires Preparing(prepared, k) && Stepping(steps) && Saying(said)
    ensures InWaves(prepared + steps + said)
  {
  }

  lemma LifeBeginsOnce(b: Batch, i: nat)
    requires i < |b.calls|
    ensures BeginsOnce(LifeOf(b, i))
  {
    var life := LifeOf(b, i);
    PrepareIsPreparatory(b.cfg, b.tools, b.calls[i], b.inputs(i));
    RestIsNotPreparatory(b.cfg, b.tools, b.calls[i], b.inputs(i));
    RestEndsOnce(b.cfg, b.tools, b.calls[i], b.inputs(i));
    var prep, early := Prepare(b.cfg, b.tools, b.calls[i], b.inputs(i)).1, Early(life);
    forall x | 0 < x < |early| ensures !(early[x].Emit? && early[x].event.ToolStart?) {
      assert early[x] in prep || early[x] in life.rest;
    }
    forall e | e in early ensures !e.Executed? { assert e in prep || e in early[..1] || (!life.dispatched && e in life.rest); }
  }

  lemma LivesInWaves(base: nat, lives: seq<Life>, schedule: seq<nat>)
    requires forall life | life in lives :: BeginsOnce(life)
    ensures InWaves(ParallelLog(base, lives, schedule))
  {
    PreflightPrepares(base, lives);
    ThreadsRun(base, lives, schedule);
    var ms := Messages(FinalsOf(lives));
    AnnounceAllLoops(ms);
    Waves(PreflightLog(base, lives), base + |lives|, Interleave(Threads(base, lives), schedule), AnnounceAll(ms));
  }

  /** Any other batch proceeds in waves, whatever the scheduler does. */
  lemma ParallelGoesInWaves(b: Batch, schedule: seq<nat>)
    requires !b.cfg.sequential && !WantsTurns(b)
    ensures InWaves(BatchLog(b, schedule))
  {
    RunsSequentiallyIff(b);
    forall life | life in BatchLives(b) ensures BeginsOnce(life) {
      var i :| 0 <= i < |BatchLives(b)| && BatchLives(b)[i] == life;
      LifeBeginsOnce(b, i);
    }
    LivesInWaves(b.base, BatchLives(b), schedule);
  }

  // ---------- Any order of steps is possible

  /** `log` takes the steps of the threads one at a time, each thread's in its own order. */
  ghost predicate Merges(threads: seq<Log>, log: Log)
    decreases |log|
  {
    if log == [] then Idle(threads)
    else exists j: nat :: j < |threads| && threads[j] != [] && log[0] == threads[j][0] && Merges(threads[j := threads[j][1..]], log[1..])
  }

  lemma {:induction false} InterleaveMerges(threads: seq<Log>, schedule: seq<nat>)
    ensures Merges(threads, Interleave(threads, schedule))
    decreases Work(threads)
  {
    if !Idle(threads) {
      var j := Pick(threads, schedule);
      var next := threads[j := threads[j][1..]];
      WorkDrops(threads, j);
      InterleaveMerges(next, Later(schedule));
      var log := Interleave(threads, schedule);
      assert log[0] == threads[j][0] && log[1..] == Interleave(next, Later(schedule));
    }
  }

  /** Schedules cover everything that can happen: whatever order the calls' steps come in,
      some schedule gives it. */
  lemma {:induction false} SchedulesCoverAll(threads: seq<Log>, log: Log) returns (schedule: seq<nat>)
    requires Merges(threads, log)
    ensures Interleave(threads, schedule) == log
    decreases |log|
  {
    if log == [] {
      schedule := [];
    } else {
      var j: nat :| j < |threads| && threads[j] != [] && log[0] == threads[j][0] && Merges(threads[j := threads[j][1..]], log[1..]);
      var rest := SchedulesCoverAll(threads[j := threads[j][1..]], log[1..]);
      schedule := [j] + rest;
      assert Later(schedule) == rest && log == [log[0]] + log[1..];
    }
  }
}
