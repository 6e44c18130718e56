/** What the agent's state shows after any log, and after a run that broke. */
module RunViews {
  import opened Ordering
  import opened AgentTypes
  import opened AgentStates
  import opened ToolCalls
  import opened ToolBatches
  import opened Queues
  import opened AgentLoops
  import opened RunLogs

  // ---------- The streaming message and the error

  predicate Speaks(e: Event) {
    e.MessageStart? || e.MessageUpdate? || e.MessageEnd? || e.AgentEnd?
  }

  predicate Fails(e: Event) {
    e.TurnEnd? && e.reply.error.Some? && e.reply.error.value != ""
  }

  ghost predicate NoneOf(kind: Event -> bool, es: seq<Event>) {
    forall i | 0 <= i < |es| :: !kind(es[i])
  }

  /** The message being streamed is the one last started or updated, unless it was
      completed or the run ended since. */
  lemma {:induction false} StreamingIs(v: View, es: seq<Event>, j: nat)
    requires LastOf(Speaks, es, j)
    ensures ReduceAll(v, es).streaming == if es[j].MessageStart? || es[j].MessageUpdate? then Some(es[j].message) else None
  {
    if j < |es| - 1 {
      LastOfInit(Speaks, es, j);
      StreamingIs(v, es[..|es| - 1], j);
    }
  }

  lemma {:induction false} StreamingStays(v: View, es: seq<Event>)
    requires NoneOf(Speaks, es)
    ensures ReduceAll(v, es).streaming == v.streaming
  {
    if es != [] { StreamingStays(v, es[..|es| - 1]); }
  }

  /** The error is that of the last turn that had one. */
  lemma {:induction false} ErrorIs(v: View, es: seq<Event>, j: nat)
    requires LastOf(Fails, es, j)
    ensures ReduceAll(v, es).error == es[j].reply.error
  {
    if j < |es| - 1 {
      LastOfInit(Fails, es, j);
      ErrorIs(v, es[..|es| - 1], j);
    }
  }

  lemma {:induction false} ErrorStays(v: View, es: seq<Event>)
    requires NoneOf(Fails, es)
    ensures ReduceAll(v, es).error == v.error
  {
    if es != [] { ErrorStays(v, es[..|es| - 1]); }
  }

  // ---------- While a reply is streamed

  /** The `j`-th event of the stream carries the latest partial message. */
  ghost predicate Latest(es: seq<StreamEvent>, j: nat) {
    && j < |es| && (es[j].Opened? || (es[j].Updated? && exists i :: 0 <= i < j && es[i].Opened?))
    && forall i | j < i < |es| :: !es[i].Opened? && !es[i].Updated?
  }

  lemma {:induction false} AddedIff(context: seq<Message>, es: seq<StreamEvent>)
    ensures StreamAll(Streaming(context, false, []), es).added <==> exists i :: 0 <= i < |es| && es[i].Opened?
  {
    if es != [] {
      var init := es[..|es| - 1];
      AddedIff(context, init);
      assert forall i | 0 <= i < |init| :: init[i] == es[i];
    }
  }

  lemma ObservedLast(v: View, log: Log, e: Event)
    ensures Replay(v, log + [Loop(e)]) == Reduce(Replay(v, log), e)
  {
    ReplaySnoc(v, log, Loop(e));
  }

  lemma StepShows(v: View, s: Streaming, e: StreamEvent)
    requires e.Opened? || (e.Updated? && s.added && s.context != [])
    ensures var n := StreamStep(s, e); var m := Assistant(e.partial);
            n.added && n.context != [] && n.context[|n.context| - 1] == m && Replay(v, n.log).streaming == Some(m)
  {
    ObservedLast(v, s.log, if e.Opened? then MessageStart(Assistant(e.partial)) else MessageUpdate(Assistant(e.partial)));
  }

  lemma LatestInit(es: seq<StreamEvent>, j: nat)
    requires Latest(es, j)
    ensures j < |es| - 1 ==> Latest(es[..|es| - 1], j) && !es[|es| - 1].Opened? && !es[|es| - 1].Updated?
    ensures j == |es| - 1 && es[j].Updated? ==> exists i :: 0 <= i < |es[..j]| && es[..j][i].Opened?
  {
    var init := es[..|es| - 1];
    assert forall i | 0 <= i < |init| :: init[i] == es[i];
    if !es[j].Opened? {
      var i :| 0 <= i < j && es[i].Opened?;
      assert init[i].Opened?;
    }
  }

  /** At any moment the context ends in the latest partial message, and the agent's state
      shows it as the one being streamed. */
  lemma {:induction false} LatestIsShown(context: seq<Message>, v: View, es: seq<StreamEvent>, j: nat)
    requires Latest(es, j)
    ensures var s := StreamAll(Streaming(context, false, []), es); var m := Assistant(es[j].partial);
            s.added && s.context != [] && s.context[|s.context| - 1] == m && Replay(v, s.log).streaming == Some(m)
  {
    var init := es[..|es| - 1];
    LatestInit(es, j);
    if j < |init| {
      LatestIsShown(context, v, init, j);
    } else {
      AddedIff(context, init);
      NotEmptied(context, init);
      StepShows(v, StreamAll(Streaming(context, false, []), init), es[j]);
    }
  }

  lemma {:induction false} NotEmptied(context: seq<Message>, es: seq<StreamEvent>)
    ensures var s := StreamAll(Streaming(context, false, []), es); s.added ==> s.context != []
  {
    if es != [] { NotEmptied(context, es[..|es| - 1]); }
  }

  // ---------- A run that broke

  lemma FailureEvents(message: string, aborted: bool)
    ensures var reply := FailureReply(message, aborted); var m := Assistant(reply);
            Events(FailureLog(message, aborted)) == [MessageStart(m), MessageEnd(m), TurnEnd(reply, []), AgentEnd([m])]
  {
    var reply := FailureReply(message, aborted);
    var m := Assistant(reply);
    var log := FailureLog(message, aborted);
    assert log == [Loop(MessageStart(m)), Loop(MessageEnd(m)), Loop(TurnEnd(reply, [])), Loop(AgentEnd([m]))];
    EventsOfFour(log[0], log[1], log[2], log[3]);
  }

  lemma EventsOfFour(a: Obs, b: Obs, c: Obs, d: Obs)
    ensures Events([a, b, c, d]) == EventOf(a) + EventOf(b) + EventOf(c) + EventOf(d)
  {
    assert [a, b, c, d][..3] == [a, b, c] && [a, b, c][..2] == [a, b] && [a, b][..1] == [a] && [a][..0] == [];
    assert Events([a]) == [] + EventOf(a) == EventOf(a);
    assert Events([a, b]) == EventOf(a) + EventOf(b);
  }

  lemma FailureError(v: View, message: string, aborted: bool)
    ensures var n := ReduceAll(v, Events(FailureLog(message, aborted)));
            n.streaming == None && n.error == if message == "" then v.error else Some(message)
  {
    FailureEvents(message, aborted);
    var es := Events(FailureLog(message, aborted));
    assert LastOf(Speaks, es, 3);
    StreamingIs(v, es, 3);
    if message != "" {
      assert LastOf(Fails, es, 2);
      ErrorIs(v, es, 2);
    } else {
      ErrorStays(v, es);
    }
  }

  /** What the state shows after a failure was reported. */
  lemma FailureShows(v: View, log: Log, message: string, aborted: bool)
    ensures var w, n := Replay(v, log), Replay(v, log + FailureLog(message, aborted));
            && n.messages == w.messages + [Assistant(Reply([TextBlock("")], if aborted then Aborted else Error, Some(message)))]
            && n.streaming == None && n.error == if message == "" then w.error else Some(message)
  {
    ReplayConcat(v, log, FailureLog(message, aborted));
    FailureError(Replay(v, log), message, aborted);
    TranscriptIsSaid(Replay(v, log), FailureLog(message, aborted));
    SaidFailure(message, aborted);
  }

  /** When a stream throws, the run ends with one more assistant message that holds the
      error and says whether it was an abort, and the last event hands out that message
      alone; with `FailureShows` the state then shows the message and its error. */
  lemma BrokenRunTells(cfg: Config, r: Run, ops: seq<Op>, script: seq<TurnInput>)
    requires Turns(cfg, FirstPoll(r, ops), script).1.Failed?
    ensures var (before, status) := Turns(cfg, FirstPoll(r, ops), script);
            var (f, over) := Perform(cfg, r, ops, script);
            && over == Ended && f.log == before.log + FailureLog(status.message, status.aborted)
            && f.log[|f.log| - 1]
                 == Loop(AgentEnd([Assistant(Reply([TextBlock("")], if status.aborted then Aborted else Error, Some(status.message)))]))
  {
  }

  lemma SaidFailure(message: string, aborted: bool)
    ensures Said(FailureLog(message, aborted)) == [Assistant(FailureReply(message, aborted))]
  {
    var m := Assistant(FailureReply(message, aborted));
    var ends: Log := [Loop(TurnEnd(FailureReply(message, aborted), [])), Loop(AgentEnd([m]))];
    SaidConcat(Announce(m), ends);
    SaidAnnounce(m);
    SaidNothing(ends);
  }
}
