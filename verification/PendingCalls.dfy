/** Which tool calls are pending in the middle of a batch. */
module PendingCalls {
  import opened AgentTypes
  import opened AgentStates
  import opened ToolCalls
  import opened ToolBatches
  import opened RunLogs
  import opened RunTools

  predicate IsToolEvent(o: Obs) {
    EventOf(o) != [] && (EventOf(o)[0].ToolStart? || EventOf(o)[0].ToolEnd?)
  }

  /** The calls numbered from `base` show their whole lives in `log`, and no other call
      starts or ends there. */
  ghost predicate Lived(log: Log, base: nat, finals: seq<Finalized>) {
    && (forall n | 0 <= n < |finals| :: StartsAndEnds(Project(log, base + n), finals[n].call, finals[n]))
    && (forall o | o in log && IsToolEvent(o) :: o.Of? && base <= o.k < base + |finals|)
  }

  ghost predicate LifeLived(life: Life, call: Call) {
    life.final.call == call && StartsAndEnds(life.preflight + life.rest, call, life.final)
  }

  lemma CallLived(b: Batch, n: nat)
    requires n < |b.calls|
    ensures LifeLived(LifeOf(b, n), b.calls[n])
  {
    CallLogEnds(b.cfg, b.tools, b.calls[n], b.inputs(n));
  }

  /** `log` shows the lives numbered from `base` and nothing that a batch does not log. */
  ghost predicate Shows(log: Log, base: nat, lives: seq<Life>) {
    (forall k: nat :: Project(log, k) == LifeLog(base, lives, k)) && forall o | o in log :: Inner(o)
  }

  lemma BatchShows(b: Batch, schedule: seq<nat>)
    ensures Shows(BatchLog(b, schedule), b.base, BatchLives(b))
  {
    BatchInner(b, schedule);
    forall k: nat ensures Project(BatchLog(b, schedule), k) == LifeLog(b.base, BatchLives(b), k) {
      BatchLife(b, schedule, k);
    }
  }

  lemma LifeTransfers(base: nat, lives: seq<Life>, n: nat, p: seq<Entry>)
    requires n < |lives| && p == LifeLog(base, lives, base + n) && LifeLived(lives[n], lives[n].final.call)
    ensures StartsAndEnds(p, lives[n].final.call, lives[n].final)
  {
  }

  lemma EventOwned(log: Log, base: nat, lives: seq<Life>, o: Obs)
    requires Shows(log, base, lives) && o in log && IsToolEvent(o)
    ensures o.Of? && base <= o.k < base + |lives|
  {
    var i :| 0 <= i < |log| && log[i] == o;
    MemberProject(log, i, o.k);
    assert Project(log, o.k) == LifeLog(base, lives, o.k);
  }

  lemma ShownIsLived(log: Log, base: nat, lives: seq<Life>)
    requires Shows(log, base, lives)
    requires forall n | 0 <= n < |lives| :: LifeLived(lives[n], lives[n].final.call)
    ensures Lived(log, base, FinalsOf(lives))
  {
    var finals := FinalsOf(lives);
    forall n | 0 <= n < |finals| ensures StartsAndEnds(Project(log, base + n), finals[n].call, finals[n]) {
      LifeTransfers(base, lives, n, Project(log, base + n));
    }
    forall o | o in log && IsToolEvent(o) ensures o.Of? && base <= o.k < base + |finals| {
      EventOwned(log, base, lives, o);
    }
  }

  lemma BatchLifeLived(b: Batch, n: nat)
    requires n < StartedFrom(b, 0)
    ensures BatchLives(b)[n].final.call == b.calls[n] && LifeLived(BatchLives(b)[n], BatchLives(b)[n].final.call)
  {
    CallLived(b, n);
    assert BatchLives(b)[n] == LifeOf(b, n);
  }

  lemma BatchLived(b: Batch, schedule: seq<nat>)
    ensures Lived(BatchLog(b, schedule), b.base, BatchFinals(b))
    ensures forall n | 0 <= n < |BatchFinals(b)| :: BatchFinals(b)[n].call == b.calls[n]
  {
    forall n | 0 <= n < |BatchFinals(b)|
      ensures BatchLives(b)[n].final.call == b.calls[n] && LifeLived(BatchLives(b)[n], BatchLives(b)[n].final.call)
    {
      BatchLifeLived(b, n);
    }
    BatchShows(b, schedule);
    ShownIsLived(BatchLog(b, schedule), b.base, BatchLives(b));
  }

  lemma EventInside(p: seq<Entry>, call: Call, final: Finalized, e: Entry)
    requires StartsAndEnds(p, call, final) && final.call == call && e in p && e.Emit?
    ensures e.event.ToolStart? ==> e.event.call == call
    ensures e.event.ToolEnd? ==> e.event.outcome.call == call
  {
    var i :| 0 <= i < |p| && p[i] == e;
    if i > 0 { assert p[1..][i - 1] == e; }
    if i < |p| - 1 { assert p[..|p| - 1][i] == e; }
  }

  /** A start or end in the log belongs to the call it is tagged with. */
  lemma ToolEventCall(log: Log, base: nat, finals: seq<Finalized>, i: nat) returns (n: nat)
    requires Lived(log, base, finals) && i < |log| && IsToolEvent(log[i])
    ensures n < |finals| && log[i].Of? && log[i].k == base + n && log[i].entry.Emit?
    ensures log[i].entry.event.ToolStart? ==> log[i].entry.event.call == finals[n].call
    ensures log[i].entry.event.ToolEnd? ==> log[i].entry.event.outcome.call == finals[n].call
  {
    assert log[i] in log;
    n := log[i].k - base;
    MemberProject(log, i, base + n);
    EventInside(Project(log, base + n), finals[n].call, finals[n], log[i].entry);
  }

  lemma PrefixProjects(log: Log, m: nat, k: nat)
    requires m <= |log|
    ensures Project(log[..m], k) <= Project(log, k)
  {
    assert log == log[..m] + log[m..];
    ProjectConcat(log[..m], log[m..], k);
  }

  lemma PrefixStarts(p: seq<Entry>, whole: seq<Entry>, call: Call, final: Finalized)
    requires StartsAndEnds(whole, call, final) && p <= whole && p != []
    ensures p[0] == Emit(ToolStart(call)) && forall e | e in p[1..] :: !(e.Emit? && e.event.ToolStart?)
  {
    assert p[1..] == whole[1..][..|p| - 1];
  }

  /** A call has started and not ended in what has been seen so far. */
  ghost predicate UnderWay(seen: Log, k: nat) {
    Project(seen, k) != [] && forall e | e in Project(seen, k) :: !(e.Emit? && e.event.ToolEnd?)
  }

  /** The ids of the calls are distinct. */
  ghost predicate DistinctIds(finals: seq<Finalized>) {
    forall i, j | 0 <= i < j < |finals| :: finals[i].call.id != finals[j].call.id
  }

  /** The log shows the whole life of call `k`, and no other call starts or ends its id. */
  ghost predicate Owns(log: Log, k: nat, call: Call, final: Finalized) {
    && StartsAndEnds(Project(log, k), call, final) && final.call == call
    && forall j | 0 <= j < |log| && (StartsId(log[j], call.id) || EndsId(log[j], call.id)) :: log[j].Of? && log[j].k == k
  }

  lemma LivedAt(log: Log, base: nat, finals: seq<Finalized>, n: nat)
    requires Lived(log, base, finals) && n < |finals|
    ensures StartsAndEnds(Project(log, base + n), finals[n].call, finals[n])
  {
  }

  /** With distinct ids every call owns its id. */
  lemma LivedOwns(log: Log, base: nat, finals: seq<Finalized>, n: nat)
    requires Lived(log, base, finals) && DistinctIds(finals) && n < |finals|
    ensures Owns(log, base + n, finals[n].call, finals[n])
  {
    var id := finals[n].call.id;
    forall j | 0 <= j < |log| && (StartsId(log[j], id) || EndsId(log[j], id)) ensures log[j].Of? && log[j].k == base + n {
      var i := ToolEventCall(log, base, finals, j);
      assert i == n;
    }
    LivedAt(log, base, finals, n);
  }

  lemma SeenEvent(log: Log, k: nat, m: nat, j: nat)
    requires j < m <= |log| && log[j].Of? && log[j].k == k
    ensures log[j].entry in Project(log[..m], k)
  {
    assert log[..m][j] == log[j];
    MemberProject(log[..m], j, k);
  }

  lemma NoEndSeen(log: Log, k: nat, call: Call, final: Finalized, m: nat, j: nat)
    requires Owns(log, k, call, final) && j < m <= |log| && UnderWay(log[..m], k)
    ensures !EndsId(log[..m][j], call.id)
  {
    if EndsId(log[j], call.id) {
      SeenEvent(log, k, m, j);
      assert false;
    }
  }

  lemma SeenCallStarts(log: Log, m: nat, k: nat, call: Call, final: Finalized) returns (i: nat)
    requires StartsAndEnds(Project(log, k), call, final) && m <= |log| && Project(log[..m], k) != []
    ensures i < m && log[..m][i] == Of(k, Emit(ToolStart(call)))
  {
    PrefixProjects(log, m, k);
    assert Project(log[..m], k)[0] == Emit(ToolStart(call));
    i := ProjectMember(log[..m], k, Emit(ToolStart(call)));
  }

  lemma UnderWayIsOpen(log: Log, k: nat, call: Call, final: Finalized, m: nat)
    requires Owns(log, k, call, final) && m <= |log| && UnderWay(log[..m], k)
    ensures IsOpen(log[..m], call.id)
  {
    var i := SeenCallStarts(log, m, k, call, final);
    forall j | i < j < m ensures !EndsId(log[..m][j], call.id) { NoEndSeen(log, k, call, final, m, j); }
    assert OpenAt(log[..m], i, call.id);
  }

  /** Nothing of a call is seen before its start. */
  lemma StartOpens(log: Log, m: nat, k: nat, i: nat, call: Call, final: Finalized)
    requires StartsAndEnds(Project(log, k), call, final) && i < m <= |log|
    requires log[i].Of? && log[i].k == k && log[i].entry.Emit? && log[i].entry.event.ToolStart?
    ensures Project(log[..m], k) == [log[i].entry] + Project(log[..m][i + 1..], k)
  {
    var seen := log[..m];
    var p := Project(seen, k);
    PrefixProjects(log, m, k);
    assert seen[i] == log[i];
    ProjectAround(seen, i, k);
    OnlyStart(p, Project(seen[..i], k), log[i].entry, Project(seen[i + 1..], k), Project(log, k), call, final);
  }

  lemma OnlyStart(p: seq<Entry>, q: seq<Entry>, e: Entry, a: seq<Entry>, whole: seq<Entry>, call: Call, final: Finalized)
    requires StartsAndEnds(whole, call, final) && p <= whole && p == q + [e] + a && e.Emit? && e.event.ToolStart?
    ensures p == [e] + a
  {
    PrefixStarts(p, whole, call, final);
    TailOfSplit(p, q, e, a);
  }

  /** The end of a call, once seen, comes after its start. */
  lemma EndComesLater(log: Log, m: nat, k: nat, i: nat, call: Call, final: Finalized, e: Entry) returns (j: nat)
    requires StartsAndEnds(Project(log, k), call, final) && i < m <= |log|
    requires log[i].Of? && log[i].k == k && log[i].entry.Emit? && log[i].entry.event.ToolStart?
    requires e in Project(log[..m], k) && e.Emit? && e.event.ToolEnd?
    ensures i < j < m && log[j] == Of(k, e)
  {
    StartOpens(log, m, k, i, call, final);
    var rest := log[..m][i + 1..];
    var a := Project(rest, k);
    assert e in a;
    j := ProjectMember(rest, k, e);
    assert rest[j] == log[j + i + 1];
    j := j + i + 1;
  }

  lemma NotEndedWhileOpen(log: Log, m: nat, k: nat, call: Call, final: Finalized, i: nat, e: Entry)
    requires StartsAndEnds(Project(log, k), call, final) && final.call == call && m <= |log|
    requires OpenAt(log[..m], i, call.id) && log[i].Of? && log[i].k == k
    requires e in Project(log[..m], k)
    ensures !(e.Emit? && e.event.ToolEnd?)
  {
    if e.Emit? && e.event.ToolEnd? {
      var j := EndComesLater(log, m, k, i, call, final, e);
      PrefixProjects(log, m, k);
      EventInside(Project(log, k), call, final, e);
      assert EndsId(log[..m][j], call.id);
      assert false;
    }
  }

  lemma OpenIsUnderWay(log: Log, k: nat, call: Call, final: Finalized, m: nat)
    requires Owns(log, k, call, final) && m <= |log| && IsOpen(log[..m], call.id)
    ensures UnderWay(log[..m], k)
  {
    var i: nat :| OpenAt(log[..m], i, call.id);
    SeenEvent(log, k, m, i);
    forall e | e in Project(log[..m], k) ensures !(e.Emit? && e.event.ToolEnd?) {
      NotEndedWhileOpen(log, m, k, call, final, i, e);
    }
  }

  lemma PendingIffUnderWay(v: View, log: Log, k: nat, call: Call, final: Finalized, m: nat)
    requires v.pending == {} && Owns(log, k, call, final) && m <= |log|
    ensures call.id in Replay(v, log[..m]).pending <==> UnderWay(log[..m], k)
  {
    PendingIsOpen(v, log[..m], call.id);
    if UnderWay(log[..m], k) { UnderWayIsOpen(log, k, call, final, m); }
    if IsOpen(log[..m], call.id) { OpenIsUnderWay(log, k, call, final, m); }
  }

  lemma LivedPending(v: View, log: Log, base: nat, finals: seq<Finalized>, m: nat, n: nat)
    requires v.pending == {} && Lived(log, base, finals) && DistinctIds(finals) && m <= |log| && n < |finals|
    ensures finals[n].call.id in Replay(v, log[..m]).pending <==> UnderWay(log[..m], base + n)
  {
    LivedOwns(log, base, finals, n);
    PendingIffUnderWay(v, log, base + n, finals[n].call, finals[n], m);
  }

  /** In every state a batch passes through, if its call ids are distinct, the pending set
      holds the id of a call exactly while that call is under way. */
  lemma PendingIsUnderWay(v: View, b: Batch, schedule: seq<nat>, m: nat, n: nat)
    requires v.pending == {} && DistinctIds(BatchFinals(b)) && m <= |BatchLog(b, schedule)| && n < StartedFrom(b, 0)
    ensures b.calls[n].id in Replay(v, BatchLog(b, schedule)[..m]).pending
        <==> UnderWay(BatchLog(b, schedule)[..m], b.base + n)
  {
    BatchLived(b, schedule);
    LivedPending(v, BatchLog(b, schedule), b.base, BatchFinals(b), m, n);
  }

  lemma PendingIsOwned(v: View, log: Log, base: nat, finals: seq<Finalized>, m: nat, id: string)
    requires v.pending == {} && Lived(log, base, finals) && m <= |log| && id in Replay(v, log[..m]).pending
    ensures exists n :: 0 <= n < |finals| && finals[n].call.id == id
  {
    PendingIsOpen(v, log[..m], id);
    var i: nat :| OpenAt(log[..m], i, id);
    var n := ToolEventCall(log, base, finals, i);
  }

  /** Nothing but started calls is ever pending, distinct ids or not. */
  lemma PendingIsStarted(v: View, b: Batch, schedule: seq<nat>, m: nat, id: string)
    requires v.pending == {} && m <= |BatchLog(b, schedule)| && id in Replay(v, BatchLog(b, schedule)[..m]).pending
    ensures exists n :: 0 <= n < StartedFrom(b, 0) && b.calls[n].id == id
  {
    BatchLived(b, schedule);
    PendingIsOwned(v, BatchLog(b, schedule), b.base, BatchFinals(b), m, id);
  }
}
