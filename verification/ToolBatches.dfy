/** The two executors of a tool batch: one call after the other, or all prepared
    calls concurrently under an arbitrary scheduler. */
module ToolBatches {
  import opened CanonicalJson
  import opened AgentTypes
  import opened ToolCalls
  import opened ApprovalGate

  function ResultMessage(f: Finalized): Message {
    ToolResult(f.call.id, f.call.name, f.result.content, f.result.details, f.isError)
  }

  function Messages(finals: seq<Finalized>): (r: seq<Message>)
    ensures |r| == |finals| && forall i | 0 <= i < |r| :: r[i] == ResultMessage(finals[i])
  {
    seq(|finals|, i requires 0 <= i < |finals| => ResultMessage(finals[i]))
  }

  function Announce(m: Message): Log {
    [Loop(MessageStart(m)), Loop(MessageEnd(m))]
  }

  function AnnounceAll(ms: seq<Message>): Log {
    if ms == [] then [] else AnnounceAll(ms[..|ms| - 1]) + Announce(ms[|ms| - 1])
  }

  /** `shouldTerminateToolBatch`. */
  predicate Terminates(finals: seq<Finalized>) {
    finals != [] && forall i | 0 <= i < |finals| :: finals[i].result.terminate == Some(true)
  }

  /** What an executor needs to know of one call: its observations before dispatch,
      whether it is dispatched, what follows, and the result it ends with. */
  datatype Life = Life(preflight: seq<Entry>, dispatched: bool, rest: seq<Entry>, final: Finalized)

  function FinalsOf(lives: seq<Life>): (r: seq<Finalized>)
    ensures |r| == |lives| && forall i | 0 <= i < |r| :: r[i] == lives[i].final
  {
    seq(|lives|, i requires 0 <= i < |lives| => lives[i].final)
  }

  // ---------- The sequential executor

  function SequentialLog(base: nat, lives: seq<Life>): Log {
    if lives == [] then []
    else
      var i := |lives| - 1;
      SequentialLog(base, lives[..i])
        + TagAll(base + i, lives[i].preflight + lives[i].rest)
        + Announce(ResultMessage(lives[i].final))
  }

  // ---------- The parallel executor

  /** What the preflight loop logs of one call. */
  function Early(life: Life): seq<Entry> {
    life.preflight + if life.dispatched then [] else life.rest
  }

  /** What the preflight loop logs: a call that is not dispatched ends at once. */
  function PreflightLog(base: nat, lives: seq<Life>): Log {
    if lives == [] then []
    else
      var i := |lives| - 1;
      PreflightLog(base, lives[..i])
        + TagAll(base + i, Early(lives[i]))
  }

  /** The steps each dispatched call still has to take after the preflight. */
  function Threads(base: nat, lives: seq<Life>): (r: seq<Log>)
    ensures |r| == |lives|
    ensures forall i | 0 <= i < |r| :: r[i] == TagAll(base + i, if lives[i].dispatched then lives[i].rest else [])
  {
    seq(|lives|, i requires 0 <= i < |lives| => TagAll(base + i, if lives[i].dispatched then lives[i].rest else []))
  }

  predicate Idle(threads: seq<Log>) {
    forall i | 0 <= i < |threads| :: threads[i] == []
  }

  function FirstBusy(threads: seq<Log>): (i: nat)
    requires !Idle(threads)
    ensures i < |threads| && threads[i] != []
  {
    if threads[0] != [] then 0
    else
      assert !Idle(threads[1..]) by { var j :| 0 <= j < |threads| && threads[j] != []; assert threads[1..][j - 1] != []; }
      1 + FirstBusy(threads[1..])
  }

  /** The thread the scheduler runs next: its own pick if that thread is busy. */
  function Pick(threads: seq<Log>, schedule: seq<nat>): (i: nat)
    requires !Idle(threads)
    ensures i < |threads| && threads[i] != []
  {
    if schedule != [] && schedule[0] < |threads| && threads[schedule[0]] != [] then schedule[0] else FirstBusy(threads)
  }

  function Later(schedule: seq<nat>): seq<nat> {
    if schedule == [] then [] else schedule[1..]
  }

  function Work(threads: seq<Log>): nat {
    if threads == [] then 0 else |threads[0]| + Work(threads[1..])
  }

  lemma {:induction false} WorkDrops(threads: seq<Log>, j: nat)
    requires j < |threads| && threads[j] != []
    ensures Work(threads[j := threads[j][1..]]) == Work(threads) - 1
  {
    if j == 0 {
      assert threads[0 := threads[0][1..]][1..] == threads[1..];
    } else {
      WorkDrops(threads[1..], j - 1);
      assert threads[j := threads[j][1..]][1..] == threads[1..][j - 1 := threads[1..][j - 1][1..]];
    }
  }

  /** The steps of all threads in the order the scheduler takes them. */
  function Interleave(threads: seq<Log>, schedule: seq<nat>): Log
    decreases Work(threads)
  {
    if Idle(threads) then []
    else
      var j := Pick(threads, schedule);
      WorkDrops(threads, j);
      [threads[j][0]] + Interleave(threads[j := threads[j][1..]], Later(schedule))
  }

  function ParallelLog(base: nat, lives: seq<Life>, schedule: seq<nat>): Log {
    PreflightLog(base, lives) + Interleave(Threads(base, lives), schedule) + AnnounceAll(Messages(FinalsOf(lives)))
  }

  // ---------- Every started call lives its own life, whatever the interleaving

  /** The observations of call `k` when the calls numbered from `base` live `lives`. */
  function LifeLog(base: nat, lives: seq<Life>, k: nat): seq<Entry> {
    if base <= k < base + |lives| then lives[k - base].preflight + lives[k - base].rest else []
  }

  lemma ProjectAnnounce(m: Message, k: nat)
    ensures Project(Announce(m), k) == []
  {
    ProjectForeign(Announce(m), k);
  }

  lemma {:induction false} ProjectAnnounceAll(ms: seq<Message>, k: nat)
    ensures Project(AnnounceAll(ms), k) == []
  {
    if ms != [] {
      ProjectAnnounceAll(ms[..|ms| - 1], k);
      ProjectAnnounce(ms[|ms| - 1], k);
      ProjectConcat(AnnounceAll(ms[..|ms| - 1]), Announce(ms[|ms| - 1]), k);
    }
  }

  lemma ProjectExtended(before: Log, j: nat, entries: seq<Entry>, k: nat)
    ensures Project(before + TagAll(j, entries), k) == Project(before, k) + if k == j then entries else []
  {
    ProjectConcat(before, TagAll(j, entries), k);
    ProjectTagged(j, entries, k);
  }

  lemma ProjectAnnounced(before: Log, m: Message, k: nat)
    ensures Project(before + Announce(m), k) == Project(before, k)
  {
    ProjectConcat(before, Announce(m), k);
    ProjectAnnounce(m, k);
  }

  lemma SequentialStep(before: Log, j: nat, life: Life, k: nat)
    ensures Project(before + TagAll(j, life.preflight + life.rest) + Announce(ResultMessage(life.final)), k)
         == Project(before, k) + if k == j then life.preflight + life.rest else []
  {
    ProjectExtended(before, j, life.preflight + life.rest, k);
    ProjectAnnounced(before + TagAll(j, life.preflight + life.rest), ResultMessage(life.final), k);
  }

  lemma LifeLogSnoc(base: nat, lives: seq<Life>, k: nat)
    requires lives != []
    ensures var i := |lives| - 1;
            LifeLog(base, lives, k)
              == LifeLog(base, lives[..i], k) + if k == base + i then lives[i].preflight + lives[i].rest else []
  {
  }

  lemma {:induction false} SequentialLives(base: nat, lives: seq<Life>, k: nat)
    ensures Project(SequentialLog(base, lives), k) == LifeLog(base, lives, k)
  {
    if lives == [] {
    } else {
      var i := |lives| - 1;
      SequentialLives(base, lives[..i], k);
      LifeLogSnoc(base, lives, k);
      SequentialStep(SequentialLog(base, lives[..i]), base + i, lives[i], k);
    }
  }

  /** What the preflight loop shows of call `k`. */
  function EarlyLog(base: nat, lives: seq<Life>, k: nat): seq<Entry> {
    if base <= k < base + |lives|
    then Early(lives[k - base])
    else []
  }

  lemma EarlyLogSnoc(base: nat, lives: seq<Life>, k: nat)
    requires lives != []
    ensures var i := |lives| - 1;
            EarlyLog(base, lives, k)
              == EarlyLog(base, lives[..i], k)
                 + if k == base + i then Early(lives[i]) else []
  {
  }

  lemma {:induction false} PreflightLives(base: nat, lives: seq<Life>, k: nat)
    ensures Project(PreflightLog(base, lives), k) == EarlyLog(base, lives, k)
  {
    if lives == [] {
    } else {
      var i := |lives| - 1;
      PreflightLives(base, lives[..i], k);
      EarlyLogSnoc(base, lives, k);
      ProjectExtended(PreflightLog(base, lives[..i]), base + i,
                      Early(lives[i]), k);
    }
  }

  /** Thread `i` only takes steps of call `base + i`. */
  ghost predicate Owned(threads: seq<Log>, base: nat) {
    forall i, j | 0 <= i < |threads| && 0 <= j < |threads[i]| :: threads[i][j].Of? && threads[i][j].k == base + i
  }

  lemma ProjectSingle(o: Obs, k: nat)
    ensures Project([o], k) == if o.Of? && o.k == k then [o.entry] else []
  {
    assert [o][..0] == [];
  }

  lemma ProjectHead(log: Log, k: nat)
    requires log != []
    ensures Project(log, k) == (if log[0].Of? && log[0].k == k then [log[0].entry] else []) + Project(log[1..], k)
  {
    assert log == [log[0]] + log[1..];
    ProjectConcat([log[0]], log[1..], k);
    ProjectSingle(log[0], k);
  }

  lemma {:induction false} InterleaveKeepsThreads(threads: seq<Log>, base: nat, schedule: seq<nat>, k: nat)
    requires Owned(threads, base)
    ensures Project(Interleave(threads, schedule), k)
         == if base <= k < base + |threads| then Project(threads[k - base], k) else []
    decreases Work(threads)
  {
    if !Idle(threads) {
      var j := Pick(threads, schedule);
      var next := threads[j := threads[j][1..]];
      WorkDrops(threads, j);
      InterleaveKeepsThreads(next, base, Later(schedule), k);
      var steps := Interleave(threads, schedule);
      assert steps[0] == threads[j][0] && steps[1..] == Interleave(next, Later(schedule));
      ProjectHead(steps, k);
      ProjectHead(threads[j], k);
    }
  }

  lemma ThreadLives(base: nat, lives: seq<Life>, schedule: seq<nat>, k: nat)
    ensures Project(Interleave(Threads(base, lives), schedule), k)
         == if base <= k < base + |lives| && lives[k - base].dispatched then lives[k - base].rest else []
  {
    InterleaveKeepsThreads(Threads(base, lives), base, schedule, k);
    if base <= k < base + |lives| {
      ProjectTagged(k, if lives[k - base].dispatched then lives[k - base].rest else [], k);
    }
  }

  lemma ProjectThree(a: Log, b: Log, c: Log, k: nat)
    ensures Project(a + b + c, k) == Project(a, k) + Project(b, k) + Project(c, k)
  {
    ProjectConcat(a + b, c, k);
    ProjectConcat(a, b, k);
  }

  lemma EarlyThenLate(base: nat, lives: seq<Life>, k: nat)
    ensures EarlyLog(base, lives, k)
              + (if base <= k < base + |lives| && lives[k - base].dispatched then lives[k - base].rest else [])
         == LifeLog(base, lives, k)
  {
  }

  lemma ParallelLives(base: nat, lives: seq<Life>, schedule: seq<nat>, k: nat)
    ensures Project(ParallelLog(base, lives, schedule), k) == LifeLog(base, lives, k)
  {
    var pre := PreflightLog(base, lives);
    var steps := Interleave(Threads(base, lives), schedule);
    var said := AnnounceAll(Messages(FinalsOf(lives)));
    ProjectThree(pre, steps, said, k);
    PreflightLives(base, lives, k);
    ThreadLives(base, lives, schedule, k);
    ProjectAnnounceAll(Messages(FinalsOf(lives)), k);
    EarlyThenLate(base, lives, k);
    assert LifeLog(base, lives, k) + [] == LifeLog(base, lives, k);
  }

  // ---------- The batch of an assistant message

  /** A batch of calls with what the outside world answers to each of them. */
  datatype Batch = Batch(cfg: Config, tools: seq<Tool>, base: nat, calls: seq<Call>, inputs: nat -> CallInput)

  function LifeOf(b: Batch, i: nat): Life
    requires i < |b.calls|
  {
    Life(PrepareLog(b.cfg, b.tools, b.calls[i], b.inputs(i)),
         Prepare(b.cfg, b.tools, b.calls[i], b.inputs(i)).0.Prepared?,
         RestLog(b.cfg, b.tools, b.calls[i], b.inputs(i)),
         Final(b.cfg, b.tools, b.calls[i], b.inputs(i)))
  }

  function Lives(b: Batch, n: nat): (r: seq<Life>)
    requires n <= |b.calls|
    ensures |r| == n && forall i | 0 <= i < n :: r[i] == LifeOf(b, i)
  {
    seq(n, i requires 0 <= i < n => LifeOf(b, i))
  }

  /** How many calls are started before an abort is noticed, counting from `i`. */
  function StartedFrom(b: Batch, i: nat): (n: nat)
    requires i <= |b.calls|
    ensures i <= n <= |b.calls|
    decreases |b.calls| - i
  {
    if i == |b.calls| then i
    else if b.inputs(i).abortedAfterwards then i + 1
    else StartedFrom(b, i + 1)
  }

  /** `executeToolCalls`: any call of a sequential tool makes the batch sequential. */
  predicate RunsSequentially(b: Batch) {
    b.cfg.sequential ||
    exists i | 0 <= i < |b.calls| ::
      FindTool(b.tools, b.calls[i].name).Some? && FindTool(b.tools, b.calls[i].name).value.sequential
  }

  function BatchLives(b: Batch): seq<Life> {
    Lives(b, StartedFrom(b, 0))
  }

  function BatchLog(b: Batch, schedule: seq<nat>): Log {
    if RunsSequentially(b) then SequentialLog(b.base, BatchLives(b)) else ParallelLog(b.base, BatchLives(b), schedule)
  }

  function BatchFinals(b: Batch): seq<Finalized> {
    FinalsOf(BatchLives(b))
  }

  lemma BatchLife(b: Batch, schedule: seq<nat>, k: nat)
    ensures Project(BatchLog(b, schedule), k) == LifeLog(b.base, BatchLives(b), k)
  {
    var lives := BatchLives(b);
    SequentialLives(b.base, lives, k);
    ParallelLives(b.base, lives, schedule, k);
  }

  /** Whichever executor ran and however it was scheduled, each started call shows its
      complete call log and nothing else. */
  lemma BatchCallLog(b: Batch, schedule: seq<nat>, k: nat)
    ensures Project(BatchLog(b, schedule), k)
         == if b.base <= k < b.base + StartedFrom(b, 0)
            then CallLog(b.cfg, b.tools, b.calls[k - b.base], b.inputs(k - b.base)) else []
  {
    BatchLife(b, schedule, k);
    LivesAreCallLogs(b, k, Project(BatchLog(b, schedule), k));
  }

  /** Nothing is shown of calls that were not started. */
  lemma BatchSilent(b: Batch, schedule: seq<nat>, k: nat)
    requires k < b.base || k >= b.base + StartedFrom(b, 0)
    ensures Project(BatchLog(b, schedule), k) == []
  {
    BatchLife(b, schedule, k);
  }

  lemma LivesAreCallLogs(b: Batch, k: nat, p: seq<Entry>)
    requires p == LifeLog(b.base, BatchLives(b), k)
    ensures p == if b.base <= k < b.base + StartedFrom(b, 0)
                 then CallLog(b.cfg, b.tools, b.calls[k - b.base], b.inputs(k - b.base)) else []
  {
  }

  /** All calls are started unless an abort was noticed before the last of them. */
  lemma {:induction false} StartedAll(b: Batch, i: nat)
    requires i <= |b.calls|
    ensures StartedFrom(b, i) == |b.calls| <==> forall j | i <= j < |b.calls| - 1 :: !b.inputs(j).abortedAfterwards
    decreases |b.calls| - i
  {
    if i < |b.calls| && !b.inputs(i).abortedAfterwards { StartedAll(b, i + 1); }
  }

  /** A call that was not dispatched never lets the batch end the run. */
  lemma ImmediateNeverTerminates(b: Batch, i: nat)
    requires i < StartedFrom(b, 0) && !BatchLives(b)[i].dispatched
    ensures !Terminates(BatchFinals(b))
  {
    assert BatchFinals(b)[i] == LifeOf(b, i).final;
    ImmediateHasNoHint(b.cfg, b.tools, b.calls[i], b.inputs(i));
  }

  lemma ImmediateHasNoHint(cfg: Config, tools: seq<Tool>, call: Call, input: CallInput)
    requires Prepare(cfg, tools, call, input).0.Immediate?
    ensures Final(cfg, tools, call, input).result.terminate == None && Final(cfg, tools, call, input).isError
  {
    ImmediateIsError(cfg, tools, call, input);
  }

  /** Every result `prepareToolCall` makes up itself carries no termination hint. */
  lemma ImmediateIsError(cfg: Config, tools: seq<Tool>, call: Call, input: CallInput)
    ensures var p := Prepare(cfg, tools, call, input).0;
            p.Immediate? ==> exists message :: p.result == ErrorResult(message)
  {
  }

  /** The results are in source order, one for each started call: the calls up to the
      first after which an abort is noticed, so all of them if there is none. */
  lemma ResultsInSourceOrder(b: Batch)
    ensures |Messages(BatchFinals(b))| == StartedFrom(b, 0) <= |b.calls|
    ensures forall i | 0 <= i < StartedFrom(b, 0) ::
              var m := Messages(BatchFinals(b))[i]; m.ToolResult? && m.id == b.calls[i].id && m.name == b.calls[i].name
    ensures (forall i | 0 <= i < |b.calls| :: !b.inputs(i).abortedAfterwards) ==> StartedFrom(b, 0) == |b.calls|
  {
    forall i | 0 <= i < StartedFrom(b, 0)
      ensures var m := Messages(BatchFinals(b))[i]; m.ToolResult? && m.id == b.calls[i].id && m.name == b.calls[i].name
    {
      assert BatchFinals(b)[i] == LifeOf(b, i).final;
    }
    StartedAll(b, 0);
  }
}
