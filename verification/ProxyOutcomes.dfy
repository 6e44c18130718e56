/** How a replay ends and what it hands on, in terms of the events that were sent. */
module ProxyOutcomes {
  import opened Ordering
  import opened CanonicalJson
  import opened AgentTypes
  import opened ProxyMessages
  import opened ProxyStreams

  // ---------- Stop reason, usage and error

  predicate Closes(e: ProxyEvent) {
    e.Done? || e.Failure?
  }

  lemma PlayedBefore(parse: string -> Json, es: seq<ProxyEvent>)
    requires es != [] && Rebuilt(parse, es).thrown.None?
    ensures var init := Rebuilt(parse, es[..|es| - 1]);
            && init.thrown.None? && Process(parse, init.partial, es[|es| - 1]).Stepped?
            && Rebuilt(parse, es).partial == Process(parse, init.partial, es[|es| - 1]).partial
  {
  }

  lemma ProcessCloses(parse: string -> Json, p: Partial, e: ProxyEvent)
    requires Process(parse, p, e).Stepped?
    ensures var q := Process(parse, p, e).partial;
            && q.stop == (if Closes(e) then e.reason else p.stop)
            && q.usage == (if Closes(e) then e.usage else p.usage)
            && q.error == (if e.Failure? then e.errorMessage else p.error)
  {
  }

  /** The message stops for the reason, and with the usage, of the last closing event. */
  lemma {:induction false} StopIs(parse: string -> Json, es: seq<ProxyEvent>, j: nat)
    requires Rebuilt(parse, es).thrown.None? && LastOf(Closes, es, j)
    ensures Rebuilt(parse, es).partial.stop == es[j].reason && Rebuilt(parse, es).partial.usage == es[j].usage
  {
    PlayedBefore(parse, es);
    ProcessCloses(parse, Rebuilt(parse, es[..|es| - 1]).partial, es[|es| - 1]);
    if j < |es| - 1 {
      LastOfInit(Closes, es, j);
      StopIs(parse, es[..|es| - 1], j);
    }
  }

  /** Its error is that of the last failure, whatever follows. */
  lemma {:induction false} ErrorIs(parse: string -> Json, es: seq<ProxyEvent>, j: nat)
    requires Rebuilt(parse, es).thrown.None? && LastOf((e: ProxyEvent) => e.Failure?, es, j)
    ensures Rebuilt(parse, es).partial.error == es[j].errorMessage
  {
    PlayedBefore(parse, es);
    ProcessCloses(parse, Rebuilt(parse, es[..|es| - 1]).partial, es[|es| - 1]);
    if j < |es| - 1 {
      LastOfInit((e: ProxyEvent) => e.Failure?, es, j);
      ErrorIs(parse, es[..|es| - 1], j);
    }
  }

  /** Without a closing event it is as it was created; without a failure it has no error. */
  lemma {:induction false} OpenIs(parse: string -> Json, es: seq<ProxyEvent>)
    requires Rebuilt(parse, es).thrown.None?
    ensures (forall e | e in es :: !Closes(e)) ==>
              Rebuilt(parse, es).partial.stop == Stop && Rebuilt(parse, es).partial.usage == Usage(0, 0, 0, 0, 0)
    ensures (forall e | e in es :: !e.Failure?) ==> Rebuilt(parse, es).partial.error == None
  {
    if es != [] {
      PlayedBefore(parse, es);
      ProcessCloses(parse, Rebuilt(parse, es[..|es| - 1]).partial, es[|es| - 1]);
      OpenIs(parse, es[..|es| - 1]);
      assert es[|es| - 1] in es;
    }
  }

  // ---------- What is handed on

  predicate StartedAsCall(es: seq<ProxyEvent>, i: nat) {
    Last(es, i, Opening).Some? && es[Last(es, i, Opening).value].ToolCallStart?
  }

  /** What the client hands on when `e` comes after `es`: block ends carry the block, the
      end of something that is no tool call and unknown events are passed over, and any
      other event goes on as it is. */
  function Says(parse: string -> Json, es: seq<ProxyEvent>, e: ProxyEvent): seq<Pushed> {
    match e
    case Unhandled => []
    case TextEnd(i, _) => if Last(es, i, Opening).Some? then [TextClosed(i, TextSince(es, i))] else []
    case ThinkingEnd(i, _) => if Last(es, i, Opening).Some? then [ThinkingClosed(i, TextSince(es, i))] else []
    case ToolCallEnd(i) =>
      if StartedAsCall(es, i)
      then
        var k := Last(es, i, Opening).value;
        [ToolCallClosed(i, PartFrom(parse, es[k], es[k + 1..] + [e], i))]
      else []
    case _ => [Forwarded(e)]
  }

  function Spoken(parse: string -> Json, es: seq<ProxyEvent>): seq<Pushed> {
    if es == [] then [] else Spoken(parse, es[..|es| - 1]) + Says(parse, es[..|es| - 1], es[|es| - 1])
  }

  lemma CallClosed(parse: string -> Json, es: seq<ProxyEvent>, p: Partial, i: nat, k: nat)
    requires Faithful(parse, es, p, i) && Last(es, i, Opening) == Some(k) && es[k].ToolCallStart?
    ensures Process(parse, p, ToolCallEnd(i)).pushed
         == Some(ToolCallClosed(i, PartFrom(parse, es[k], es[k + 1..] + [ToolCallEnd(i)], i)))
  {
    PartGrows(parse, es[k], es[k + 1..], ToolCallEnd(i), p, i);
  }

  lemma NotACall(parse: string -> Json, es: seq<ProxyEvent>, p: Partial, i: nat)
    requires Faithful(parse, es, p, i) && !StartedAsCall(es, i)
    ensures i in p.content ==> KindOf(p.content[i]) != ToolKind
  {
    var k := Last(es, i, Opening);
    KindIsStarted(parse, es, p, i);
    if k.Some? { assert KindStarted(es[k.value], i) != ToolKind; }
  }

  lemma NoCallClosed(parse: string -> Json, p: Partial, i: nat)
    requires i in p.content ==> KindOf(p.content[i]) != ToolKind
    ensures Process(parse, p, ToolCallEnd(i)) == Stepped(p, None)
  {
  }

  lemma StepSays(parse: string -> Json, es: seq<ProxyEvent>, p: Partial, e: ProxyEvent)
    requires (forall i: nat :: Faithful(parse, es, p, i)) && Process(parse, p, e).Stepped?
    ensures Says(parse, es, e) == match Process(parse, p, e).pushed case Some(pushed) => [pushed] case None => []
  {
    match e
    case TextEnd(i, _) =>
      assert Faithful(parse, es, p, i);
      ClosingStep(parse, es, p, e);
    case ThinkingEnd(i, _) =>
      assert Faithful(parse, es, p, i);
      ClosingStep(parse, es, p, e);
    case ToolCallEnd(i) =>
      assert Faithful(parse, es, p, i);
      if StartedAsCall(es, i) {
        CallClosed(parse, es, p, i, Last(es, i, Opening).value);
      } else {
        NotACall(parse, es, p, i);
        NoCallClosed(parse, p, i);
      }
    case _ =>
  }

  /** Everything handed on by a replay that does not throw is what the events say. */
  lemma {:induction false} PushesAreSpoken(parse: string -> Json, es: seq<ProxyEvent>)
    requires Rebuilt(parse, es).thrown.None?
    ensures Rebuilt(parse, es).pushes == Spoken(parse, es)
  {
    if es != [] {
      var init, e := es[..|es| - 1], es[|es| - 1];
      PlayedBefore(parse, es);
      PushesAreSpoken(parse, init);
      forall i: nat ensures Faithful(parse, init, Rebuilt(parse, init).partial, i) { BlocksAreRebuilt(parse, init, i); }
      StepSays(parse, init, Rebuilt(parse, init).partial, e);
    }
  }

  /** A throw ends the replay: what was built and handed on is what the events before the
      first misplaced one say. */
  lemma {:induction false} ThrowKeepsWhatCame(parse: string -> Json, es: seq<ProxyEvent>, k: nat)
    requires Misplaced(es, k) && forall j: nat | j < k :: !Misplaced(es, j)
    ensures var before := Rebuilt(parse, es[..k]);
            && before.thrown.None? && Rebuilt(parse, es).thrown.Some?
            && Rebuilt(parse, es).partial == before.partial && Rebuilt(parse, es).pushes == before.pushes
  {
    var init := es[..|es| - 1];
    if k < |init| {
      assert init[..k] == es[..k];
      forall j: nat | j <= k ensures Misplaced(init, j) <==> Misplaced(es, j) { assert init[..j] == es[..j]; }
      ThrowKeepsWhatCame(parse, init, k);
    } else {
      forall j: nat | j < k ensures !Misplaced(init, j) { assert init[..j] == es[..j]; assert !Misplaced(es, j); }
      ThrowsIffMisplaced(parse, init);
      ThrowsIffMisplaced(parse, es);
    }
  }

  // ---------- What a line carries

  predicate Blanks(s: string) {
    forall i | 0 <= i < |s| :: Blank(s[i])
  }

  /** `d` begins and ends with something visible. */
  predicate Visible(d: string) {
    d != "" && !Blank(d[0]) && !Blank(d[|d| - 1])
  }

  /** `s` is `d` with blanks around it. */
  predicate Around(s: string, a: string, d: string, b: string) {
    s == a + d + b && Blanks(a) && Blanks(b)
  }

  lemma BlankBefore(s: string, a: string, d: string, b: string)
    requires s != "" && Blank(s[0]) && Around(s[1..], a, d, b)
    ensures Around(s, [s[0]] + a, d, b)
  {
    assert s == [s[0]] + s[1..];
  }

  lemma BlankAfter(s: string, a: string, d: string, b: string)
    requires s != "" && Blank(s[|s| - 1]) && Around(s[..|s| - 1], a, d, b)
    ensures Around(s, a, d, b + [s[|s| - 1]])
  {
    assert s == s[..|s| - 1] + [s[|s| - 1]];
  }

  lemma {:induction false} TrimParts(s: string) returns (a: string, b: string)
    ensures Around(s, a, Trim(s), b) && (Trim(s) == "" || Visible(Trim(s)))
    decreases |s|
  {
    a, b := "", "";
    if s == "" {
    } else if Blank(s[0]) {
      a, b := TrimParts(s[1..]);
      BlankBefore(s, a, Trim(s), b);
      a := [s[0]] + a;
    } else if Blank(s[|s| - 1]) {
      a, b := TrimParts(s[..|s| - 1]);
      BlankAfter(s, a, Trim(s), b);
      b := b + [s[|s| - 1]];
    }
  }

  lemma LessBefore(s: string, a: string, d: string, b: string)
    requires Around(s, a, d, b) && a != ""
    ensures Blank(s[0]) && Around(s[1..], a[1..], d, b)
  {
    assert s[0] == a[0] && a == [a[0]] + a[1..];
  }

  lemma LessAfter(s: string, a: string, d: string, b: string)
    requires Around(s, a, d, b) && b != ""
    ensures Blank(s[|s| - 1]) && Around(s[..|s| - 1], a, d, b[..|b| - 1])
  {
    assert s[|s| - 1] == b[|b| - 1];
  }

  lemma {:induction false} TrimOf(s: string, a: string, d: string, b: string)
    requires Around(s, a, d, b) && Visible(d)
    ensures Trim(s) == d
    decreases |s|
  {
    if a != "" {
      LessBefore(s, a, d, b);
      TrimOf(s[1..], a[1..], d, b);
    } else if b != "" {
      assert s[0] == d[0];
      LessAfter(s, a, d, b);
      TrimOf(s[..|s| - 1], a, d, b[..|b| - 1]);
    } else {
      assert s == d;
    }
  }

  /** A line carries a payload exactly if it is `data: ` followed by that payload, which
      begins and ends visibly, with nothing but blanks around it. */
  lemma DataIff(line: string, d: string)
    ensures DataOf(line) == Some(d) <==> Visible(d) && exists a, b :: line == "data: " + (a + d + b) && Blanks(a) && Blanks(b)
  {
    if DataOf(line) == Some(d) {
      var a, b := TrimParts(line[|PREFIX|..]);
      assert line == "data: " + (a + d + b);
    }
    if Visible(d) {
      forall a, b | line == "data: " + (a + d + b) && Blanks(a) && Blanks(b) ensures DataOf(line) == Some(d) {
        assert line[|PREFIX|..] == a + d + b;
        TrimOf(line[|PREFIX|..], a, d, b);
      }
    }
  }

  // ---------- How a stream ends

  function TextOf(chunks: seq<Chunk>): string {
    if chunks == [] then "" else TextOf(chunks[..|chunks| - 1]) + chunks[|chunks| - 1].text
  }

  /** `n` chunks come before the first one that finds the request aborted, if any does. */
  ghost predicate HeardUpTo(chunks: seq<Chunk>, n: nat) {
    n <= |chunks| && (forall i | 0 <= i < n :: !chunks[i].aborted) && (n < |chunks| ==> chunks[n].aborted)
  }

  lemma {:induction false} TextHead(chunks: seq<Chunk>)
    requires chunks != []
    ensures TextOf(chunks) == chunks[0].text + TextOf(chunks[1..])
  {
    if |chunks| == 1 {
      assert TextOf(chunks[..0]) == "" && TextOf(chunks[1..]) == "";
    } else {
      var init := chunks[..|chunks| - 1];
      TextHead(init);
      assert init[1..] == chunks[1..][..|chunks| - 2];
      assert TextOf(chunks) == chunks[0].text + TextOf(init[1..]) + chunks[|chunks| - 1].text;
    }
  }

  /** Exactly the text of those chunks is looked at. */
  lemma {:induction false} HeardIs(chunks: seq<Chunk>, n: nat)
    requires HeardUpTo(chunks, n)
    ensures Heard(chunks) == TextOf(chunks[..n]) && (Cut(chunks) <==> n < |chunks|)
  {
    if n > 0 {
      HeardIs(chunks[1..], n - 1);
      TextHead(chunks[..n]);
      assert chunks[..n][1..] == chunks[1..][..n - 1];
    }
  }

  /** The stream ends without an error exactly if every event is in its place and decodes,
      no chunk finds the request aborted, and the body is complete and not aborted. An error
      while handling lines comes first, then an abort, then the failed read. */
  lemma EndsWith(codec: Codec, chunks: seq<Chunk>, close: Close, n: nat)
    requires HeardUpTo(chunks, n)
    ensures var s := HandleAll(codec, FRESH, Lines(TextOf(chunks[..n])));
            Listened(codec, chunks, close).thrown
              == if s.thrown.Some? then s.thrown
                 else if n < |chunks| || close == Complete(true) then Some("Request aborted by user")
                 else if close.Interrupted? then Some(close.message) else None
  {
    HeardIs(chunks, n);
  }
}
