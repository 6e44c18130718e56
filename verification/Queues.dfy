/** The steering and follow-up queues (`PendingMessageQueue` of agent.ts). */
module Queues {
  import opened AgentTypes

  datatype Mode = All | OneAtATime

  /** A queue's value: what waits, the drain mode, everything enqueued and not cleared,
      and everything drained. */
  datatype Queue = Queue(messages: seq<Message>, mode: Mode, enqueued: seq<Message>, drained: seq<Message>) {
    /** Nothing lost, duplicated or reordered. */
    ghost predicate Conserved() {
      enqueued == drained + messages
    }

    function Enqueue(m: Message): Queue {
      this.(messages := messages + [m], enqueued := enqueued + [m])
    }

    /** What the next drain hands out. */
    function Next(): seq<Message> {
      if mode == All || messages == [] then messages else messages[..1]
    }

    function Drain(): Queue {
      this.(messages := messages[|Next()|..], drained := drained + Next())
    }

    /** What was cleared counts as never enqueued. */
    function Clear(): Queue {
      this.(messages := [], enqueued := drained)
    }

    function SetMode(m: Mode): Queue {
      this.(mode := m)
    }
  }

  class PendingMessageQueue {
    var messages: seq<Message>
    var mode: Mode
    ghost var enqueued: seq<Message>
    ghost var drained: seq<Message>

    ghost function Value(): Queue
      reads this
    {
      Queue(messages, mode, enqueued, drained)
    }

    ghost predicate Valid()
      reads this
    {
      Value().Conserved()
    }

    constructor (initialMode: Mode)
      ensures Valid() && Value() == Queue([], initialMode, [], [])
    {
      messages, mode, enqueued, drained := [], initialMode, [], [];
    }

    method Enqueue(m: Message)
      requires Valid()
      modifies this
      ensures Valid() && Value() == old(Value()).Enqueue(m)
    {
      messages := messages + [m];
      enqueued := enqueued + [m];
    }

    method HasItems() returns (r: bool)
      requires Valid()
      ensures r <==> drained < enqueued
    {
      r := |messages| > 0;
    }

    method Drain() returns (r: seq<Message>)
      requires Valid()
      modifies this
      ensures Valid() && Value() == old(Value()).Drain() && r == old(Value()).Next()
      ensures old(mode) == All ==> r == old(messages) && messages == []
      ensures old(mode) == OneAtATime ==> |r| == (if old(messages) == [] then 0 else 1) && r + messages == old(messages)
      ensures mode == old(mode) && enqueued == old(enqueued) && drained == old(drained) + r
    {
      if mode == All {
        r := messages;
        messages := [];
      } else if messages == [] {
        r := [];
      } else {
        r := [messages[0]];
        messages := messages[1..];
      }
      drained := drained + r;
    }

    method Clear()
      requires Valid()
      modifies this
      ensures Valid() && Value() == old(Value()).Clear()
      ensures messages == [] && mode == old(mode) && drained == old(drained) && enqueued == drained
    {
      messages := [];
      enqueued := drained;
    }

    method SetMode(m: Mode)
      requires Valid()
      modifies this
      ensures Valid() && Value() == old(Value()).SetMode(m)
    {
      mode := m;
    }
  }

  /** A caller acting on the agent while it runs. */
  datatype Op = Steer(message: Message) | FollowUpWith(message: Message) | SteeringMode(mode: Mode) | FollowUpMode(mode: Mode)

  datatype Pair = Pair(steering: Queue, followUp: Queue) {
    ghost predicate Conserved() {
      steering.Conserved() && followUp.Conserved()
    }

    function Apply(op: Op): Pair {
      match op
      case Steer(m) => this.(steering := steering.Enqueue(m))
      case FollowUpWith(m) => this.(followUp := followUp.Enqueue(m))
      case SteeringMode(m) => this.(steering := steering.SetMode(m))
      case FollowUpMode(m) => this.(followUp := followUp.SetMode(m))
    }

    function ApplyAll(ops: seq<Op>): Pair {
      if ops == [] then this else ApplyAll(ops[..|ops| - 1]).Apply(ops[|ops| - 1])
    }
  }

  lemma DrainConserves(q: Queue)
    requires q.Conserved()
    ensures q.Drain().Conserved() && q.messages == q.Next() + q.Drain().messages
  {
  }

  lemma {:induction false} ApplyKeepsDrained(p: Pair, ops: seq<Op>)
    ensures p.ApplyAll(ops).steering.drained == p.steering.drained
    ensures p.ApplyAll(ops).followUp.drained == p.followUp.drained
  {
    if ops != [] { ApplyKeepsDrained(p, ops[..|ops| - 1]); }
  }

  lemma {:induction false} ApplyConserves(p: Pair, ops: seq<Op>)
    requires p.Conserved()
    ensures p.ApplyAll(ops).Conserved()
    ensures p.ApplyAll(ops).steering.drained == p.steering.drained
    ensures p.ApplyAll(ops).followUp.drained == p.followUp.drained
  {
    ApplyKeepsDrained(p, ops);
    if ops != [] { ApplyConserves(p, ops[..|ops| - 1]); }
  }
}
