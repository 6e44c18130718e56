/** The agent's own state, reduced from the event trace (`processEvents` of agent.ts). */
module AgentStates {
  import opened AgentTypes

  datatype View = View(messages: seq<Message>, streaming: Option<Message>, pending: set<string>, error: Option<string>)

  function Reduce(v: View, e: Event): View {
    match e
    case MessageStart(m) => v.(streaming := Some(m))
    case MessageUpdate(m) => v.(streaming := Some(m))
    case MessageEnd(m) => v.(streaming := None, messages := v.messages + [m])
    case ToolStart(call) => v.(pending := v.pending + {call.id})
    case ToolEnd(outcome) => v.(pending := v.pending - {outcome.call.id})
    case TurnEnd(reply, _) =>
      if reply.error.Some? && reply.error.value != "" then v.(error := reply.error) else v
    case AgentEnd(_) => v.(streaming := None)
    case _ => v
  }

  function ReduceAll(v: View, events: seq<Event>): View {
    if events == [] then v else Reduce(ReduceAll(v, events[..|events| - 1]), events[|events| - 1])
  }

  lemma {:induction false} ReduceConcat(v: View, a: seq<Event>, b: seq<Event>)
    ensures ReduceAll(v, a + b) == ReduceAll(ReduceAll(v, a), b)
  {
    if b == [] {
      assert a + b == a;
    } else {
      assert (a + b)[..|a + b| - 1] == a + b[..|b| - 1];
      ReduceConcat(v, a, b[..|b| - 1]);
    }
  }

  /** The view after a whole log. */
  function Replay(v: View, log: Log): View {
    ReduceAll(v, Events(log))
  }

  lemma ReplayConcat(v: View, a: Log, b: Log)
    ensures Replay(v, a + b) == Replay(Replay(v, a), b)
  {
    EventsConcat(a, b);
    ReduceConcat(v, Events(a), Events(b));
  }

  lemma ReplaySnoc(v: View, a: Log, o: Obs)
    ensures Replay(v, a + [o]) == if EventOf(o) == [] then Replay(v, a) else Reduce(Replay(v, a), EventOf(o)[0])
  {
    assert (a + [o])[..|a + [o]| - 1] == a;
    var es := Events(a);
    if EventOf(o) != [] {
      assert (es + EventOf(o))[..|es|] == es;
    } else {
      assert es + [] == es;
    }
  }

  lemma SliceSnoc(before: Log, os: Log, i: nat)
    requires i < |os|
    ensures before + os[..i] + [os[i]] == before + os[..i + 1]
  {
  }

  /** MutableAgentState: the fields a run's events update. */
  class AgentState {
    var messages: seq<Message>
    var streamingMessage: Option<Message>
    var pendingToolCalls: set<string>
    var errorMessage: Option<string>

    /** Everything observed since the state was `origin`. */
    ghost var origin: View
    ghost var log: Log

    ghost function Current(): View
      reads this
    {
      View(messages, streamingMessage, pendingToolCalls, errorMessage)
    }

    /** What was observed before `origin`. */
    ghost var past: Log

    ghost predicate Valid()
      reads this
    {
      Current() == Replay(origin, log)
    }

    constructor (initial: seq<Message>)
      ensures Valid() && Current() == View(initial, None, {}, None) && log == [] && past == [] && origin == Current()
    {
      messages := initial;
      streamingMessage := None;
      pendingToolCalls := {};
      errorMessage := None;
      origin := View(initial, None, {}, None);
      log, past := [], [];
    }

    /** `runWithLifecycle` before it starts the loop. */
    method BeginRun()
      modifies this
      ensures Valid() && Current() == old(Current()).(streaming := None, error := None)
      ensures origin == Current() && log == [] && past == old(past + log)
    {
      streamingMessage := None;
      errorMessage := None;
      origin := Current();
      past := past + log;
      log := [];
    }

    /** `finishRun`. */
    method FinishRun()
      requires Valid() && streamingMessage == None && pendingToolCalls == {}
      modifies this
      ensures Valid() && Current() == old(Current()) && origin == old(origin) && log == old(log) && past == old(past)
    {
      streamingMessage := None;
      pendingToolCalls := {};
    }

    method ProcessEvent(e: Event)
      modifies this
      ensures Current() == Reduce(old(Current()), e)
      ensures log == old(log) && origin == old(origin) && past == old(past)
    {
      match e
      case MessageStart(m) => streamingMessage := Some(m);
      case MessageUpdate(m) => streamingMessage := Some(m);
      case MessageEnd(m) =>
        streamingMessage := None;
        messages := messages + [m];
      case ToolStart(call) => pendingToolCalls := pendingToolCalls + {call.id};
      case ToolEnd(outcome) => pendingToolCalls := pendingToolCalls - {outcome.call.id};
      case TurnEnd(reply, _) =>
        if reply.error.Some? && reply.error.value != "" { errorMessage := reply.error; }
      case AgentEnd(_) => streamingMessage := None;
      case _ =>
    }

    /** Logs an observation and, if it is an event, lets the state react to it. */
    method Observe(o: Obs)
      requires Valid()
      modifies this
      ensures Valid() && log == old(log) + [o] && origin == old(origin) && past == old(past)
    {
      ReplaySnoc(origin, log, o);
      var events := EventOf(o);
      if events != [] { ProcessEvent(events[0]); }
      log := log + [o];
    }

    method ObserveAll(os: Log)
      requires Valid()
      modifies this
      ensures Valid() && log == old(log) + os && origin == old(origin) && past == old(past)
    {
      for i := 0 to |os|
        invariant Valid() && log == old(log) + os[..i] && origin == old(origin) && past == old(past)
      {
        SliceSnoc(old(log), os, i);
        Observe(os[i]);
      }
      assert os[..|os|] == os;
    }
  }
}
