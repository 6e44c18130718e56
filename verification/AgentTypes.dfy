/** Messages, events and the observable log of an agent run (types.ts). */
module AgentTypes {
  import opened CanonicalJson

  datatype Option<+T> = None | Some(value: T) {
    /** The source's `this ?? fallback`. */
    function Else(fallback: Option<T>): Option<T> {
      if Some? then this else fallback
    }

    function GetOr(fallback: T): T {
      if Some? then value else fallback
    }
  }

  /** A call into the outside world: it returns or throws. */
  datatype Attempt<+T> = Returned(value: T) | Threw(message: string)

  datatype StopReason = Stop | Length | ToolUse | Error | Aborted

  datatype Call = Call(id: string, name: string, args: Json)

  datatype Block = TextBlock(text: string) | ThinkingBlock(text: string) | ToolCallBlock(call: Call)

  /** An assistant message. */
  datatype Reply = Reply(content: seq<Block>, stop: StopReason, error: Option<string>)

  datatype Message =
    | User(text: string)
    | Assistant(reply: Reply)
    | ToolResult(id: string, name: string, content: string, details: Json, isError: bool)
    | Custom(text: string)

  /** AgentToolResult: what a tool hands back. */
  datatype Result = Result(content: string, details: Json, terminate: Option<bool>)

  /** A tool call with its final result, as the executors collect it. */
  datatype Finalized = Finalized(call: Call, result: Result, isError: bool)

  datatype Request = Request(id: string, name: string, hash: Text, labelText: string, payload: Json, reason: string)

  datatype Decision = Allowed | Denied(reason: Option<string>) | TimedOut

  datatype Event =
    | AgentStart
    | AgentEnd(messages: seq<Message>)
    | TurnStart
    | TurnEnd(reply: Reply, toolResults: seq<Message>)
    | MessageStart(message: Message)
    | MessageUpdate(message: Message)
    | MessageEnd(message: Message)
    | ToolStart(call: Call)
    | ToolUpdate(call: Call, partialResult: Result)
    | ToolEnd(outcome: Finalized)
    | PromptResolved(id: string, name: string, hash: Text, labelText: string, decision: Decision)

  datatype Classification = Allow | Prompt(reason: string) | Block(reason: string)

  datatype HookAnswer = HookAnswer(block: bool, reason: Option<string>, prompt: Option<Request>)

  /** What happens to one tool call besides its events: the answers the outside
      world gave and the execution itself. A hook may patch the validated arguments in
      place; `Hooked` records them as it leaves them. */
  datatype Entry =
    | Emit(event: Event)
    | Validated(args: Json)
    | Classified(verdict: Classification)
    | Hooked(answer: HookAnswer, args: Json)
    | Asked(request: Request, reply: Attempt<Decision>)
    | Executed(id: string, name: string, args: Json)

  datatype Source = Prompted | Steering | FollowUp

  /** One observation of a run. `Of` tags what belongs to the k-th started tool call
      of the run; `Injected` marks a queued message entering the conversation. */
  datatype Obs = Loop(event: Event) | Of(k: nat, entry: Entry) | Injected(source: Source, message: Message)

  type Log = seq<Obs>

  /** The end of a tool call. */
  predicate IsEnd(o: Obs) {
    o.Of? && o.entry.Emit? && o.entry.event.ToolEnd?
  }

  function EventOf(o: Obs): seq<Event> {
    match o
    case Loop(e) => [e]
    case Of(_, Emit(e)) => [e]
    case _ => []
  }

  /** The events a listener sees. */
  function Events(log: Log): seq<Event> {
    if log == [] then [] else Events(log[..|log| - 1]) + EventOf(log[|log| - 1])
  }

  lemma {:induction false} EventsConcat(a: Log, b: Log)
    ensures Events(a + b) == Events(a) + Events(b)
  {
    if b == [] {
      assert a + b == a;
    } else {
      var init := b[..|b| - 1];
      assert (a + b)[..|a + b| - 1] == a + init;
      EventsConcat(a, init);
    }
  }

  /** The observations of call `k`. */
  function Project(log: Log, k: nat): seq<Entry> {
    if log == [] then []
    else
      var o := log[|log| - 1];
      Project(log[..|log| - 1], k) + if o.Of? && o.k == k then [o.entry] else []
  }

  lemma {:induction false} ProjectConcat(a: Log, b: Log, k: nat)
    ensures Project(a + b, k) == Project(a, k) + Project(b, k)
  {
    if b == [] {
      assert a + b == a;
    } else {
      var init := b[..|b| - 1];
      assert (a + b)[..|a + b| - 1] == a + init;
      ProjectConcat(a, init, k);
    }
  }

  /** `entries` as observations of call `k`. */
  function TagAll(k: nat, entries: seq<Entry>): (r: Log)
    ensures |r| == |entries| && forall i | 0 <= i < |r| :: r[i] == Of(k, entries[i])
  {
    seq(|entries|, i requires 0 <= i < |entries| => Of(k, entries[i]))
  }

  lemma {:induction false} ProjectTagged(k: nat, entries: seq<Entry>, j: nat)
    ensures Project(TagAll(k, entries), j) == if j == k then entries else []
  {
    if entries != [] {
      var init := entries[..|entries| - 1];
      assert TagAll(k, entries)[..|entries| - 1] == TagAll(k, init);
      ProjectTagged(k, init, j);
      assert init + [entries[|entries| - 1]] == entries;
    }
  }

  lemma {:induction false} ProjectForeign(log: Log, k: nat)
    requires forall o | o in log :: o.Of? ==> o.k != k
    ensures Project(log, k) == []
  {
    if log != [] {
      assert log == log[..|log| - 1] + [log[|log| - 1]];
      ProjectForeign(log[..|log| - 1], k);
    }
  }
}
