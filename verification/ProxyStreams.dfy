/** The read loop of `streamProxy` (proxy.ts): chunks of text in, message events out. */
module ProxyStreams {
  import opened CanonicalJson
  import opened AgentTypes
  import opened ProxyMessages

  // ---------- Lines

  /** The source's `s.split("\n")`. */
  function Split(s: string): (r: seq<string>)
    ensures |r| > 0
  {
    if s == "" then [""]
    else
      var r := Split(s[..|s| - 1]);
      var c := s[|s| - 1];
      if c == '\n' then r + [""] else r[..|r| - 1] + [r[|r| - 1] + [c]]
  }

  /** The newline-terminated lines of a text, and what follows the last newline. */
  function Lines(s: string): seq<string> {
    Split(s)[..|Split(s)| - 1]
  }

  function Tail(s: string): string {
    Split(s)[|Split(s)| - 1]
  }

  function Unlines(lines: seq<string>): string {
    if lines == [] then "" else Unlines(lines[..|lines| - 1]) + lines[|lines| - 1] + "\n"
  }

  /** `lines` and `tail` are `text` cut at every newline. */
  ghost predicate Framed(lines: seq<string>, tail: string, text: string) {
    && Unlines(lines) + tail == text
    && '\n' !in tail && forall line | line in lines :: '\n' !in line
  }

  lemma LinesSnoc(s: string, c: char)
    ensures Lines(s + [c]) == if c == '\n' then Lines(s) + [Tail(s)] else Lines(s)
    ensures Tail(s + [c]) == if c == '\n' then "" else Tail(s) + [c]
  {
    assert (s + [c])[..|s|] == s;
    var r := Split(s);
    assert r == r[..|r| - 1] + [r[|r| - 1]];
  }

  lemma FramesLine(lines: seq<string>, tail: string, text: string)
    requires Framed(lines, tail, text)
    ensures Framed(lines + [tail], "", text + "\n")
  {
    assert (lines + [tail])[..|lines|] == lines;
    assert Unlines(lines + [tail]) + "" == text + "\n";
  }

  lemma FramesChar(lines: seq<string>, tail: string, text: string, c: char)
    requires Framed(lines, tail, text) && c != '\n'
    ensures Framed(lines, tail + [c], text + [c])
  {
    assert Unlines(lines) + (tail + [c]) == Unlines(lines) + tail + [c];
  }

  /** Splitting cuts a text at every newline. */
  lemma {:induction false} SplitFrames(s: string)
    ensures Framed(Lines(s), Tail(s), s)
  {
    if s == "" {
    } else {
      var init, c := s[..|s| - 1], s[|s| - 1];
      assert s == init + [c];
      SplitFrames(init);
      LinesSnoc(init, c);
      if c == '\n' { FramesLine(Lines(init), Tail(init), init); } else { FramesChar(Lines(init), Tail(init), init, c); }
    }
  }

  lemma LineUnframed(lines: seq<string>, text: string, c: char)
    requires lines != [] && Framed(lines, "", text + [c])
    ensures c == '\n' && Framed(lines[..|lines| - 1], lines[|lines| - 1], text)
  {
    var before, last := lines[..|lines| - 1], lines[|lines| - 1];
    assert Unlines(lines) + "" == Unlines(before) + last + "\n";
    assert text == (text + [c])[..|text|] == Unlines(before) + last;
    assert last in lines;
  }

  lemma CharUnframed(lines: seq<string>, tail: string, d: char, text: string, c: char)
    requires Framed(lines, tail + [d], text + [c])
    ensures c == d && c != '\n' && Framed(lines, tail, text)
  {
    assert Unlines(lines) + (tail + [d]) == Unlines(lines) + tail + [d];
    assert text == (text + [c])[..|text|] == Unlines(lines) + tail;
    assert d in tail + [d];
  }

  /** There is only one such cut. */
  lemma {:induction false} FramingUnique(text: string, lines: seq<string>, tail: string)
    requires Framed(lines, tail, text)
    ensures lines == Lines(text) && tail == Tail(text)
    decreases |text|
  {
    if text == "" {
      assert lines != [] ==> Unlines(lines) != "";
    } else {
      var init, c := text[..|text| - 1], text[|text| - 1];
      assert text == init + [c];
      LinesSnoc(init, c);
      if tail != "" {
        var shorter, d := tail[..|tail| - 1], tail[|tail| - 1];
        assert tail == shorter + [d];
        CharUnframed(lines, shorter, d, init, c);
        FramingUnique(init, lines, shorter);
      } else {
        LineUnframed(lines, init, c);
        FramingUnique(init, lines[..|lines| - 1], lines[|lines| - 1]);
        assert lines == lines[..|lines| - 1] + [lines[|lines| - 1]];
      }
    }
  }

  lemma Framing(a: string, b: string)
    ensures Framed(Lines(a) + Lines(Tail(a) + b), Tail(Tail(a) + b), a + b)
  {
    SplitFrames(a);
    SplitFrames(Tail(a) + b);
    UnlinesConcat(Lines(a), Lines(Tail(a) + b));
    Rejoin(Unlines(Lines(a)), Tail(a), b, Unlines(Lines(Tail(a) + b)), Tail(Tail(a) + b));
  }

  lemma Rejoin(u: string, t: string, b: string, v: string, w: string)
    requires v + w == t + b
    ensures u + v + w == u + t + b
  {
    assert u + v + w == u + (v + w);
  }

  lemma {:induction false} UnlinesConcat(a: seq<string>, b: seq<string>)
    ensures Unlines(a + b) == Unlines(a) + Unlines(b)
  {
    if b == [] {
      assert a + b == a;
    } else {
      assert (a + b)[..|a + b| - 1] == a + b[..|b| - 1];
      UnlinesConcat(a, b[..|b| - 1]);
    }
  }

  /** Cutting a text anywhere: the tail of the first piece is completed by the second. */
  lemma LinesAcross(a: string, b: string)
    ensures Lines(a + b) == Lines(a) + Lines(Tail(a) + b) && Tail(a + b) == Tail(Tail(a) + b)
  {
    Framing(a, b);
    FramingUnique(a + b, Lines(a) + Lines(Tail(a) + b), Tail(Tail(a) + b));
  }

  // ---------- Handling a line

  const PREFIX := "data: "

  predicate Blank(c: char) {
    || c in "\t\n\r \U{000B}\U{000C}\U{00A0}\U{1680}\U{2028}\U{2029}\U{202F}\U{205F}\U{3000}\U{FEFF}"
    || '\U{2000}' <= c <= '\U{200A}'
  }

  /** The source's `s.trim()`. */
  function Trim(s: string): string {
    if s == "" then ""
    else if Blank(s[0]) then Trim(s[1..])
    else if Blank(s[|s| - 1]) then Trim(s[..|s| - 1])
    else s
  }

  /** The payload of a line, if it carries one. */
  function DataOf(line: string): Option<string> {
    if PREFIX <= line && Trim(line[|PREFIX|..]) != "" then Some(Trim(line[|PREFIX|..])) else None
  }

  /** Parsing functions: `parse` for streaming JSON, `decode` for `JSON.parse`. */
  datatype Codec = Codec(parse: string -> Json, decode: string -> Attempt<ProxyEvent>)

  function Handle(codec: Codec, s: Playback, line: string): Playback {
    if s.thrown.Some? || DataOf(line).None? then s
    else
      match codec.decode(DataOf(line).value)
      case Threw(message) => s.(thrown := Some(message))
      case Returned(e) => Play(codec.parse, s, e)
  }

  function HandleAll(codec: Codec, s: Playback, lines: seq<string>): Playback {
    if lines == [] then s else Handle(codec, HandleAll(codec, s, lines[..|lines| - 1]), lines[|lines| - 1])
  }

  lemma {:induction false} HandleConcat(codec: Codec, s: Playback, a: seq<string>, b: seq<string>)
    ensures HandleAll(codec, s, a + b) == HandleAll(codec, HandleAll(codec, s, a), b)
  {
    if b == [] {
      assert a + b == a;
    } else {
      var init := b[..|b| - 1];
      assert (a + b)[..|a + b| - 1] == a + init;
      HandleConcat(codec, s, a, init);
    }
  }

  lemma {:induction false} HandleStopped(codec: Codec, s: Playback, lines: seq<string>)
    requires s.thrown.Some?
    ensures HandleAll(codec, s, lines) == s
  {
    if lines != [] { HandleStopped(codec, s, lines[..|lines| - 1]); }
  }

  // ---------- The whole stream

  /** A decoded chunk, and whether the request was aborted by the time it arrived. */
  datatype Chunk = Chunk(text: string, aborted: bool)

  /** How reading ends: the body is over, or a read throws. */
  datatype Close = Complete(aborted: bool) | Interrupted(message: string)

  const ABORTED := "Request aborted by user"

  /** The text that is looked at: everything before the first aborted chunk. */
  function Heard(chunks: seq<Chunk>): string {
    if chunks == [] || chunks[0].aborted then "" else chunks[0].text + Heard(chunks[1..])
  }

  function Cut(chunks: seq<Chunk>): bool {
    chunks != [] && (chunks[0].aborted || Cut(chunks[1..]))
  }

  /** The error that ends the stream after all its lines were handled. */
  function CloseError(chunks: seq<Chunk>, close: Close): Option<string> {
    if Cut(chunks) then Some(ABORTED)
    else
      match close
      case Complete(aborted) => if aborted then Some(ABORTED) else None
      case Interrupted(message) => Some(message)
  }

  const FRESH := Playback(NOTHING, [], None)

  /** The catch clause. */
  function Caught(s: Playback, abortedByThen: bool): Playback {
    if s.thrown.None? then s
    else
      var stop := if abortedByThen then Aborted else Error;
      s.(partial := s.partial.(stop := stop, error := s.thrown), pushes := s.pushes + [Broken(stop, s.thrown.value)])
  }

  /** The state when reading is over: the newline-terminated lines of the whole text
      handled in order, up to the first error. */
  function Listened(codec: Codec, chunks: seq<Chunk>, close: Close): Playback {
    var s := HandleAll(codec, FRESH, Lines(Heard(chunks)));
    if s.thrown.None? then s.(thrown := CloseError(chunks, close)) else s
  }

  /** However the text was cut into chunks, the lines that count are those that end in a
      newline, and what follows the last newline is dropped. */
  lemma ListenedToLines(codec: Codec, chunks: seq<Chunk>, close: Close, lines: seq<string>, tail: string)
    requires Framed(lines, tail, Heard(chunks))
    ensures var s := HandleAll(codec, FRESH, lines);
            Listened(codec, chunks, close) == if s.thrown.None? then s.(thrown := CloseError(chunks, close)) else s
  {
    FramingUnique(Heard(chunks), lines, tail);
  }

  /** The events that the data lines decode to, up to a line that does not decode. */
  function Decoded(codec: Codec, lines: seq<string>): (seq<ProxyEvent>, Option<string>) {
    if lines == [] then ([], None)
    else
      var (es, error) := Decoded(codec, lines[..|lines| - 1]);
      var data := DataOf(lines[|lines| - 1]);
      if error.Some? || data.None? then (es, error)
      else
        match codec.decode(data.value)
        case Threw(message) => (es, Some(message))
        case Returned(e) => (es + [e], None)
  }

  /** Handling lines is replaying the events they decode to. */
  lemma {:induction false} LinesReplay(codec: Codec, lines: seq<string>)
    ensures var (es, error) := Decoded(codec, lines);
            var r := Rebuilt(codec.parse, es);
            HandleAll(codec, FRESH, lines) == if r.thrown.None? then r.(thrown := error) else r
  {
    if lines != [] {
      var init := lines[..|lines| - 1];
      LinesReplay(codec, init);
      var (es, error) := Decoded(codec, init);
      var data := DataOf(lines[|lines| - 1]);
      if error.None? && data.Some? {
        match codec.decode(data.value)
        case Threw(_) =>
        case Returned(e) => ReplaySnoc(codec.parse, es, e);
      }
    }
  }

  lemma HeardThrough(codec: Codec, s: Playback, text: string, more: string)
    requires s == HandleAll(codec, FRESH, Lines(text)) && s.thrown.Some?
    ensures HandleAll(codec, FRESH, Lines(text + more)) == s
  {
    LinesAcross(text, more);
    HandleConcat(codec, FRESH, Lines(text), Lines(Tail(text) + more));
    HandleStopped(codec, s, Lines(Tail(text) + more));
  }

  lemma NextChunk(codec: Codec, s: Playback, text: string, chunk: string)
    requires s == HandleAll(codec, FRESH, Lines(text))
    ensures HandleAll(codec, s, Lines(Tail(text) + chunk)) == HandleAll(codec, FRESH, Lines(text + chunk))
    ensures Tail(Tail(text) + chunk) == Tail(text + chunk)
  {
    LinesAcross(text, chunk);
    HandleConcat(codec, FRESH, Lines(text), Lines(Tail(text) + chunk));
  }

  lemma HandleNext(codec: Codec, s: Playback, lines: seq<string>, i: nat)
    requires i < |lines|
    ensures HandleAll(codec, s, lines[..i + 1]) == Handle(codec, HandleAll(codec, s, lines[..i]), lines[i])
  {
    assert lines[..i + 1][..i] == lines[..i];
  }

  lemma HandledThrough(codec: Codec, s: Playback, lines: seq<string>, i: nat)
    requires i <= |lines| && HandleAll(codec, s, lines[..i]).thrown.Some?
    ensures HandleAll(codec, s, lines) == HandleAll(codec, s, lines[..i])
  {
    assert lines == lines[..i] + lines[i..];
    HandleConcat(codec, s, lines[..i], lines[i..]);
    HandleStopped(codec, HandleAll(codec, s, lines[..i]), lines[i..]);
  }

  /** `partial`, the message that is rebuilt in place. */
  class PartialMessage {
    var content: map<nat, Part>
    var stopReason: StopReason
    var errorMessage: Option<string>
    var usage: Usage

    function Value(): Partial
      reads this
    {
      Partial(content, stopReason, errorMessage, usage)
    }

    constructor ()
      ensures Value() == NOTHING
    {
      content, stopReason, errorMessage, usage := map[], Stop, None, Usage(0, 0, 0, 0, 0);
    }

    method ProcessProxyEvent(parse: string -> Json, e: ProxyEvent) returns (r: Attempt<Option<Pushed>>)
      modifies this
      ensures Follows(Process(parse, old(Value()), e), old(Value()), r)
    {
      match e
      case Begin => r := Returned(Some(Forwarded(e)));
      case TextStart(i) =>
        content := content[i := TextPart("", None)];
        r := Returned(Some(Forwarded(e)));
      case ThinkingStart(i) =>
        content := content[i := ThinkingPart("", None)];
        r := Returned(Some(Forwarded(e)));
      case ToolCallStart(i, id, name) =>
        content := content[i := ToolPart(id, name, Obj([]), Some(""))];
        r := Returned(Some(Forwarded(e)));
      case Done(reason, finalUsage) =>
        stopReason, usage := reason, finalUsage;
        r := Returned(Some(Forwarded(e)));
      case Failure(reason, message, finalUsage) =>
        stopReason, errorMessage, usage := reason, message, finalUsage;
        r := Returned(Some(Forwarded(e)));
      case Unhandled => r := Returned(None);
      case TextDelta(_, _) => r := ProcessText(e);
      case TextEnd(_, _) => r := ProcessText(e);
      case ThinkingDelta(_, _) => r := ProcessThinking(e);
      case ThinkingEnd(_, _) => r := ProcessThinking(e);
      case _ => r := ProcessToolCall(parse, e);
    }

    /** The state and the result are what `step` says, `before` being the state at its start. */
    ghost predicate Follows(step: Step, before: Partial, r: Attempt<Option<Pushed>>)
      reads this
    {
      match step
      case Stepped(p, pushed) => Value() == p && r == Returned(pushed)
      case Thrown(message) => Value() == before && r == Threw(message)
    }

    method ProcessText(e: ProxyEvent) returns (r: Attempt<Option<Pushed>>)
      requires e.TextDelta? || e.TextEnd?
      modifies this
      ensures forall parse :: Follows(Process(parse, old(Value()), e), old(Value()), r)
    {
      if e.index !in content || !content[e.index].TextPart? {
        return Threw(if e.TextDelta? then "Received text_delta for non-text content" else "Received text_end for non-text content");
      }
      var part := content[e.index];
      if e.TextDelta? {
        content := content[e.index := TextPart(part.text + e.delta, part.signature)];
        r := Returned(Some(Forwarded(e)));
      } else {
        content := content[e.index := TextPart(part.text, e.signature)];
        r := Returned(Some(TextClosed(e.index, part.text)));
      }
    }

    method ProcessThinking(e: ProxyEvent) returns (r: Attempt<Option<Pushed>>)
      requires e.ThinkingDelta? || e.ThinkingEnd?
      modifies this
      ensures forall parse :: Follows(Process(parse, old(Value()), e), old(Value()), r)
    {
      if e.index !in content || !content[e.index].ThinkingPart? {
        return Threw(if e.ThinkingDelta? then "Received thinking_delta for non-thinking content"
                     else "Received thinking_end for non-thinking content");
      }
      var part := content[e.index];
      if e.ThinkingDelta? {
        content := content[e.index := ThinkingPart(part.text + e.delta, part.signature)];
        r := Returned(Some(Forwarded(e)));
      } else {
        content := content[e.index := ThinkingPart(part.text, e.signature)];
        r := Returned(Some(ThinkingClosed(e.index, part.text)));
      }
    }

    method ProcessToolCall(parse: string -> Json, e: ProxyEvent) returns (r: Attempt<Option<Pushed>>)
      requires e.ToolCallDelta? || e.ToolCallEnd?
      modifies this
      ensures Follows(Process(parse, old(Value()), e), old(Value()), r)
    {
      if e.index !in content || !content[e.index].ToolPart? {
        return if e.ToolCallDelta? then Threw("Received toolcall_delta for non-toolCall content") else Returned(None);
      }
      var part := content[e.index];
      if e.ToolCallDelta? {
        var text := part.partialJson.GetOr(UNDEFINED) + e.delta;
        content := content[e.index := part.(partialJson := Some(text), arguments := parse(text))];
        r := Returned(Some(Forwarded(e)));
      } else {
        content := content[e.index := part.(partialJson := None)];
        r := Returned(Some(ToolCallClosed(e.index, content[e.index])));
      }
    }
  }

  /** One line of the buffer; `pushes` grows by what it produced. */
  method HandleLine(codec: Codec, message: PartialMessage, pushes0: seq<Pushed>, line: string)
    returns (pushes: seq<Pushed>, thrown: Option<string>)
    modifies message
    ensures Playback(message.Value(), pushes, thrown) == Handle(codec, Playback(old(message.Value()), pushes0, None), line)
  {
    pushes, thrown := pushes0, None;
    if PREFIX <= line {
      var data := Trim(line[|PREFIX|..]);
      if data != "" {
        match codec.decode(data) {
          case Threw(m) => thrown := Some(m);
          case Returned(e) =>
            var r := message.ProcessProxyEvent(codec.parse, e);
            match r {
              case Threw(m) => thrown := Some(m);
              case Returned(pushed) => if pushed.Some? { pushes := pushes + [pushed.value]; }
            }
        }
      }
    }
  }

  /** The complete lines of a buffer, until one throws. */
  method HandleLines(codec: Codec, message: PartialMessage, pushes0: seq<Pushed>, lines: seq<string>)
    returns (pushes: seq<Pushed>, thrown: Option<string>)
    modifies message
    ensures Playback(message.Value(), pushes, thrown) == HandleAll(codec, Playback(old(message.Value()), pushes0, None), lines)
  {
    ghost var s := Playback(message.Value(), pushes0, None);
    pushes, thrown := pushes0, None;
    var i := 0;
    while i < |lines| && thrown.None?
      invariant i <= |lines|
      invariant Playback(message.Value(), pushes, thrown) == HandleAll(codec, s, lines[..i])
    {
      HandleNext(codec, s, lines, i);
      pushes, thrown := HandleLine(codec, message, pushes, lines[i]);
      i := i + 1;
    }
    if thrown.Some? { HandledThrough(codec, s, lines, i); } else { assert lines[..i] == lines; }
  }

  /** One chunk: its text completes the buffer, and the buffer's complete lines are handled. */
  method TakeChunk(codec: Codec, message: PartialMessage, pushes0: seq<Pushed>, buffer0: string, chunk: string, ghost text: string)
    returns (pushes: seq<Pushed>, thrown: Option<string>, buffer: string)
    requires buffer0 == Tail(text) && Playback(message.Value(), pushes0, None) == HandleAll(codec, FRESH, Lines(text))
    modifies message
    ensures buffer == Tail(text + chunk)
    ensures Playback(message.Value(), pushes, thrown) == HandleAll(codec, FRESH, Lines(text + chunk))
  {
    NextChunk(codec, Playback(message.Value(), pushes0, None), text, chunk);
    var split := Split(buffer0 + chunk);
    buffer := split[|split| - 1];
    pushes, thrown := HandleLines(codec, message, pushes0, split[..|split| - 1]);
  }

  lemma HeardNext(chunks: seq<Chunk>, i: nat, text: string)
    requires i < |chunks| && Heard(chunks) == text + Heard(chunks[i..]) && Cut(chunks) == Cut(chunks[i..])
    ensures chunks[i].aborted ==> Heard(chunks) == text && Cut(chunks)
    ensures !chunks[i].aborted ==>
        Heard(chunks) == text + chunks[i].text + Heard(chunks[i + 1..]) && Cut(chunks) == Cut(chunks[i + 1..])
  {
    assert chunks[i..][0] == chunks[i] && chunks[i..][1..] == chunks[i + 1..];
    if chunks[i].aborted {
      assert text + "" == text;
    } else {
      assert text + (chunks[i].text + Heard(chunks[i + 1..])) == text + chunks[i].text + Heard(chunks[i + 1..]);
    }
  }

  /** The read loop. */
  method ReadAll(codec: Codec, message: PartialMessage, chunks: seq<Chunk>, close: Close)
    returns (pushes: seq<Pushed>, thrown: Option<string>)
    requires message.Value() == NOTHING
    modifies message
    ensures Playback(message.Value(), pushes, thrown) == Listened(codec, chunks, close)
  {
    pushes, thrown := [], None;
    var buffer, i := "", 0;
    ghost var text := "";
    while i < |chunks|
      invariant i <= |chunks| && buffer == Tail(text)
      invariant Heard(chunks) == text + Heard(chunks[i..]) && Cut(chunks) == Cut(chunks[i..])
      invariant thrown == None && Playback(message.Value(), pushes, None) == HandleAll(codec, FRESH, Lines(text))
    {
      HeardNext(chunks, i, text);
      if chunks[i].aborted { return pushes, Some(ABORTED); }
      pushes, thrown, buffer := TakeChunk(codec, message, pushes, buffer, chunks[i].text, text);
      text := text + chunks[i].text;
      i := i + 1;
      if thrown.Some? {
        HeardThrough(codec, Playback(message.Value(), pushes, thrown), text, Heard(chunks[i..]));
        return;
      }
    }
    assert text + Heard(chunks[i..]) == text;
    match close {
      case Complete(aborted) => if aborted { thrown := Some(ABORTED); }
      case Interrupted(m) => thrown := Some(m);
    }
  }

  /** The read loop and its catch clause: whatever the chunks, it delivers what the whole
      text says. */
  method StreamProxy(codec: Codec, chunks: seq<Chunk>, close: Close, abortedByThen: bool)
    returns (message: PartialMessage, pushes: seq<Pushed>, thrown: Option<string>)
    ensures fresh(message)
    ensures Playback(message.Value(), pushes, thrown) == Caught(Listened(codec, chunks, close), abortedByThen)
    ensures thrown.Some? ==>
              && message.stopReason == (if abortedByThen then Aborted else Error) && message.errorMessage == thrown
              && pushes != [] && pushes[|pushes| - 1] == Broken(message.stopReason, thrown.value)
  {
    message := new PartialMessage();
    pushes, thrown := ReadAll(codec, message, chunks, close);
    if thrown.Some? {
      message.stopReason := if abortedByThen then Aborted else Error;
      message.errorMessage := thrown;
      pushes := pushes + [Broken(message.stopReason, thrown.value)];
    }
  }
}
