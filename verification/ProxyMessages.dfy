/** Rebuilding an assistant message from proxy events (`processProxyEvent` of proxy.ts). */
module ProxyMessages {
  import opened CanonicalJson
  import opened AgentTypes

  datatype Usage = Usage(input: nat, output: nat, cacheRead: nat, cacheWrite: nat, totalTokens: nat)

  /** What the server sends. `Unhandled` is any type the client does not know. */
  datatype ProxyEvent =
    | Begin
    | TextStart(index: nat)
    | TextDelta(index: nat, delta: string)
    | TextEnd(index: nat, signature: Option<string>)
    | ThinkingStart(index: nat)
    | ThinkingDelta(index: nat, delta: string)
    | ThinkingEnd(index: nat, signature: Option<string>)
    | ToolCallStart(index: nat, id: string, name: string)
    | ToolCallDelta(index: nat, delta: string)
    | ToolCallEnd(index: nat)
    | Done(reason: StopReason, usage: Usage)
    | Failure(reason: StopReason, errorMessage: Option<string>, usage: Usage)
    | Unhandled

  /** A content block. `partialJson` is absent once the tool call has ended. */
  datatype Part =
    | TextPart(text: string, signature: Option<string>)
    | ThinkingPart(text: string, signature: Option<string>)
    | ToolPart(id: string, name: string, arguments: Json, partialJson: Option<string>)

  /** The message under construction; `content` is a sparse array. */
  datatype Partial = Partial(content: map<nat, Part>, stop: StopReason, error: Option<string>, usage: Usage)

  const NOTHING := Partial(map[], Stop, None, Usage(0, 0, 0, 0, 0))

  /** What the client pushes on its own stream. */
  datatype Pushed =
    | Forwarded(event: ProxyEvent)
    | TextClosed(index: nat, text: string)
    | ThinkingClosed(index: nat, text: string)
    | ToolCallClosed(index: nat, call: Part)
    | Broken(stop: StopReason, message: string)

  datatype Step = Stepped(partial: Partial, pushed: Option<Pushed>) | Thrown(message: string)

  /** A missing `partialJson` is the text `undefined` when a delta is appended to it. */
  const UNDEFINED := "undefined"

  function Put(p: Partial, i: nat, part: Part): Partial {
    p.(content := p.content[i := part])
  }

  /** `parse` stands for `parseStreamingJson(text) || {}`. */
  function Process(parse: string -> Json, p: Partial, e: ProxyEvent): Step {
    match e
    case Begin => Stepped(p, Some(Forwarded(e)))
    case TextStart(i) => Stepped(Put(p, i, TextPart("", None)), Some(Forwarded(e)))
    case TextDelta(i, delta) =>
      if i in p.content && p.content[i].TextPart?
      then Stepped(Put(p, i, TextPart(p.content[i].text + delta, p.content[i].signature)), Some(Forwarded(e)))
      else Thrown("Received text_delta for non-text content")
    case TextEnd(i, signature) =>
      if i in p.content && p.content[i].TextPart?
      then Stepped(Put(p, i, TextPart(p.content[i].text, signature)), Some(TextClosed(i, p.content[i].text)))
      else Thrown("Received text_end for non-text content")
    case ThinkingStart(i) => Stepped(Put(p, i, ThinkingPart("", None)), Some(Forwarded(e)))
    case ThinkingDelta(i, delta) =>
      if i in p.content && p.content[i].ThinkingPart?
      then Stepped(Put(p, i, ThinkingPart(p.content[i].text + delta, p.content[i].signature)), Some(Forwarded(e)))
      else Thrown("Received thinking_delta for non-thinking content")
    case ThinkingEnd(i, signature) =>
      if i in p.content && p.content[i].ThinkingPart?
      then Stepped(Put(p, i, ThinkingPart(p.content[i].text, signature)), Some(ThinkingClosed(i, p.content[i].text)))
      else Thrown("Received thinking_end for non-thinking content")
    case ToolCallStart(i, id, name) => Stepped(Put(p, i, ToolPart(id, name, Obj([]), Some(""))), Some(Forwarded(e)))
    case ToolCallDelta(i, delta) =>
      if i in p.content && p.content[i].ToolPart? then
        var text := p.content[i].partialJson.GetOr(UNDEFINED) + delta;
        Stepped(Put(p, i, p.content[i].(partialJson := Some(text), arguments := parse(text))), Some(Forwarded(e)))
      else Thrown("Received toolcall_delta for non-toolCall content")
    case ToolCallEnd(i) =>
      if i in p.content && p.content[i].ToolPart? then
        var call := p.content[i].(partialJson := None);
        Stepped(Put(p, i, call), Some(ToolCallClosed(i, call)))
      else Stepped(p, None)
    case Done(reason, usage) => Stepped(p.(stop := reason, usage := usage), Some(Forwarded(e)))
    case Failure(reason, errorMessage, usage) =>
      Stepped(p.(stop := reason, error := errorMessage, usage := usage), Some(Forwarded(e)))
    case Unhandled => Stepped(p, None)
  }

  /** A replay: what it built and pushed, and the error it threw, if any, at which it stopped. */
  datatype Playback = Playback(partial: Partial, pushes: seq<Pushed>, thrown: Option<string>)

  function Play(parse: string -> Json, s: Playback, e: ProxyEvent): Playback {
    if s.thrown.Some? then s
    else
      match Process(parse, s.partial, e)
      case Thrown(message) => s.(thrown := Some(message))
      case Stepped(p, pushed) => s.(partial := p, pushes := s.pushes + if pushed.Some? then [pushed.value] else [])
  }

  function Replay(parse: string -> Json, s: Playback, es: seq<ProxyEvent>): Playback {
    if es == [] then s else Play(parse, Replay(parse, s, es[..|es| - 1]), es[|es| - 1])
  }

  /** A replay from the empty message. */
  function Rebuilt(parse: string -> Json, es: seq<ProxyEvent>): Playback {
    Replay(parse, Playback(NOTHING, [], None), es)
  }

  function At(p: Partial, i: nat): Option<Part> {
    if i in p.content then Some(p.content[i]) else None
  }

  // ---------- What an event sequence says about block `i`

  datatype Role = Opening | Growing | Closing | Ending

  /** The part an event plays for block `i`. */
  function RoleOf(e: ProxyEvent, i: nat): Option<Role> {
    match e
    case TextStart(j) => if j == i then Some(Opening) else None
    case ThinkingStart(j) => if j == i then Some(Opening) else None
    case ToolCallStart(j, _, _) => if j == i then Some(Opening) else None
    case TextDelta(j, _) => if j == i then Some(Growing) else None
    case ThinkingDelta(j, _) => if j == i then Some(Growing) else None
    case ToolCallDelta(j, _) => if j == i then Some(Growing) else None
    case TextEnd(j, _) => if j == i then Some(Closing) else None
    case ThinkingEnd(j, _) => if j == i then Some(Closing) else None
    case ToolCallEnd(j) => if j == i then Some(Ending) else None
    case _ => None
  }

  predicate Plays(e: ProxyEvent, i: nat, role: Role) {
    RoleOf(e, i) == Some(role)
  }

  /** The last event of a role. */
  function Last(es: seq<ProxyEvent>, i: nat, role: Role): (r: Option<nat>)
    ensures r.Some? ==> r.value < |es| && Plays(es[r.value], i, role)
  {
    if es == [] then None
    else if Plays(es[|es| - 1], i, role) then Some(|es| - 1)
    else Last(es[..|es| - 1], i, role)
  }

  /** After the last event of a role there is none. */
  lemma {:induction false} NoneAfterLast(es: seq<ProxyEvent>, i: nat, role: Role)
    ensures var k := Last(es, i, role);
            forall j | (if k.Some? then k.value + 1 else 0) <= j < |es| :: !Plays(es[j], i, role)
  {
    if es != [] && !Plays(es[|es| - 1], i, role) {
      var init := es[..|es| - 1];
      NoneAfterLast(init, i, role);
      assert Last(es, i, role) == Last(init, i, role) && forall j | 0 <= j < |init| :: init[j] == es[j];
    }
  }

  /** The concatenated deltas of block `i`. */
  function Deltas(es: seq<ProxyEvent>, i: nat): string {
    if es == [] then ""
    else
      var e := es[|es| - 1];
      Deltas(es[..|es| - 1], i) + if Plays(e, i, Growing) then e.delta else ""
  }

  function SignatureOf(since: seq<ProxyEvent>, i: nat): Option<string> {
    var k := Last(since, i, Closing);
    if k.Some? then since[k.value].signature else None
  }

  /** What `partialJson` holds: the deltas of the call; absent after its end; and when
      deltas follow an end, those deltas after the text `undefined`. */
  function JsonText(since: seq<ProxyEvent>, i: nat): Option<string> {
    var k := Last(since, i, Ending);
    if k.None? then Some(Deltas(since, i)) else Regrown(since[k.value + 1..], i)
  }

  /** `partialJson` after the end of a call, from the events after that end. */
  function Regrown(after: seq<ProxyEvent>, i: nat): Option<string> {
    if Last(after, i, Growing).None? then None else Some(UNDEFINED + Deltas(after, i))
  }

  /** The arguments: what the text parsed to at the last delta. */
  function ArgumentsOf(parse: string -> Json, since: seq<ProxyEvent>, i: nat): Json {
    var k := Last(since, i, Growing);
    if k.None? then Obj([]) else parse(JsonText(since[..k.value + 1], i).GetOr(""))
  }

  /** Block `i` as its last start and the events since say it is. */
  function PartFrom(parse: string -> Json, start: ProxyEvent, since: seq<ProxyEvent>, i: nat): Part
    requires Plays(start, i, Opening)
  {
    match start
    case TextStart(_) => TextPart(Deltas(since, i), SignatureOf(since, i))
    case ThinkingStart(_) => ThinkingPart(Deltas(since, i), SignatureOf(since, i))
    case ToolCallStart(_, id, name) => ToolPart(id, name, ArgumentsOf(parse, since, i), JsonText(since, i))
  }

  // ---------- The replay builds exactly that

  lemma LastSnoc(es: seq<ProxyEvent>, e: ProxyEvent, i: nat, role: Role)
    ensures Last(es + [e], i, role) == if Plays(e, i, role) then Some(|es|) else Last(es, i, role)
  {
    assert (es + [e])[..|es|] == es;
  }

  lemma DeltasSnoc(es: seq<ProxyEvent>, e: ProxyEvent, i: nat)
    ensures Deltas(es + [e], i) == if Plays(e, i, Growing) then Deltas(es, i) + e.delta else Deltas(es, i)
  {
    assert (es + [e])[..|es|] == es;
    assert Deltas(es, i) + "" == Deltas(es, i);
  }

  lemma SliceSnoc(es: seq<ProxyEvent>, e: ProxyEvent, k: nat)
    requires k <= |es|
    ensures (es + [e])[k..] == es[k..] + [e]
  {
  }

  lemma SignatureSnoc(since: seq<ProxyEvent>, e: ProxyEvent, i: nat)
    ensures SignatureOf(since + [e], i) == if Plays(e, i, Closing) then e.signature else SignatureOf(since, i)
  {
    LastSnoc(since, e, i, Closing);
  }

  lemma RegrownSnoc(after: seq<ProxyEvent>, e: ProxyEvent, i: nat)
    ensures Regrown(after + [e], i)
         == if Plays(e, i, Growing) then Some(Regrown(after, i).GetOr(UNDEFINED) + e.delta) else Regrown(after, i)
  {
    LastSnoc(after, e, i, Growing);
    DeltasSnoc(after, e, i);
    if Plays(e, i, Growing) {
      if Last(after, i, Growing).None? { NoGrowth(after, i); }
      Join(UNDEFINED, Deltas(after, i), e.delta);
    }
  }

  lemma Join(a: string, b: string, c: string)
    ensures a + (b + c) == a + b + c && a + "" == a
  {
  }

  lemma JsonTextOpen(since: seq<ProxyEvent>, e: ProxyEvent, i: nat)
    requires Last(since, i, Ending).None? && !Plays(e, i, Ending)
    ensures JsonText(since + [e], i) == if Plays(e, i, Growing) then Some(Deltas(since, i) + e.delta) else Some(Deltas(since, i))
  {
    LastSnoc(since, e, i, Ending);
    DeltasSnoc(since, e, i);
  }

  lemma JsonTextEnds(since: seq<ProxyEvent>, e: ProxyEvent, i: nat)
    requires Plays(e, i, Ending)
    ensures JsonText(since + [e], i) == None
  {
    LastSnoc(since, e, i, Ending);
    assert (since + [e])[|since| + 1..] == [];
  }

  lemma JsonTextEnded(longer: seq<ProxyEvent>, i: nat, k: nat, after: seq<ProxyEvent>)
    requires Last(longer, i, Ending) == Some(k) && longer[k + 1..] == after
    ensures JsonText(longer, i) == Regrown(after, i)
  {
  }

  lemma JsonTextAfterEnd(since: seq<ProxyEvent>, e: ProxyEvent, i: nat, k: nat)
    requires Last(since, i, Ending) == Some(k) && !Plays(e, i, Ending)
    ensures JsonText(since + [e], i)
         == if Plays(e, i, Growing) then Some(JsonText(since, i).GetOr(UNDEFINED) + e.delta) else JsonText(since, i)
  {
    var after := since[k + 1..];
    assert Last(since + [e], i, Ending) == Some(k) by { LastSnoc(since, e, i, Ending); }
    assert (since + [e])[k + 1..] == after + [e] by { SliceSnoc(since, e, k + 1); }
    JsonTextEnded(since, i, k, after);
    JsonTextEnded(since + [e], i, k, after + [e]);
    RegrownSnoc(after, e, i);
  }

  lemma JsonTextSnoc(since: seq<ProxyEvent>, e: ProxyEvent, i: nat)
    ensures JsonText(since + [e], i)
         == if Plays(e, i, Growing) then Some(JsonText(since, i).GetOr(UNDEFINED) + e.delta)
            else if Plays(e, i, Ending) then None else JsonText(since, i)
  {
    var k := Last(since, i, Ending);
    if Plays(e, i, Ending) {
      JsonTextEnds(since, e, i);
    } else if k.None? {
      JsonTextOpen(since, e, i);
    } else {
      JsonTextAfterEnd(since, e, i, k.value);
    }
  }

  lemma {:induction false} NoGrowth(es: seq<ProxyEvent>, i: nat)
    requires Last(es, i, Growing).None?
    ensures Deltas(es, i) == ""
  {
    if es != [] { NoGrowth(es[..|es| - 1], i); }
  }

  lemma ArgumentsSnoc(parse: string -> Json, since: seq<ProxyEvent>, e: ProxyEvent, i: nat)
    ensures ArgumentsOf(parse, since + [e], i)
         == if Plays(e, i, Growing) then parse(JsonText(since, i).GetOr(UNDEFINED) + e.delta) else ArgumentsOf(parse, since, i)
  {
    LastSnoc(since, e, i, Growing);
    if Plays(e, i, Growing) {
      assert (since + [e])[..|since| + 1] == since + [e];
      JsonTextSnoc(since, e, i);
    } else {
      var k := Last(since, i, Growing);
      if k.Some? { assert (since + [e])[..k.value + 1] == since[..k.value + 1]; }
    }
  }

  /** `p` holds for block `i` what `es` says, and no block that was not started. */
  ghost predicate Faithful(parse: string -> Json, es: seq<ProxyEvent>, p: Partial, i: nat) {
    var k := Last(es, i, Opening);
    if k.None? then i !in p.content
    else i in p.content && p.content[i] == PartFrom(parse, es[k.value], es[k.value + 1..], i)
  }

  lemma PartOpens(parse: string -> Json, e: ProxyEvent, p: Partial, i: nat)
    requires Plays(e, i, Opening)
    ensures var s := Process(parse, p, e); s.Stepped? && i in s.partial.content && s.partial.content[i] == PartFrom(parse, e, [], i)
  {
  }

  lemma TextGrows(parse: string -> Json, p: Partial, since: seq<ProxyEvent>, e: ProxyEvent, i: nat)
    requires !Plays(e, i, Opening) && i in p.content && Process(parse, p, e).Stepped?
    requires p.content[i] == TextPart(Deltas(since, i), SignatureOf(since, i))
    ensures At(Process(parse, p, e).partial, i) == Some(TextPart(Deltas(since + [e], i), SignatureOf(since + [e], i)))
  {
    DeltasSnoc(since, e, i);
    SignatureSnoc(since, e, i);
  }

  lemma ThinkingGrows(parse: string -> Json, p: Partial, since: seq<ProxyEvent>, e: ProxyEvent, i: nat)
    requires !Plays(e, i, Opening) && i in p.content && Process(parse, p, e).Stepped?
    requires p.content[i] == ThinkingPart(Deltas(since, i), SignatureOf(since, i))
    ensures At(Process(parse, p, e).partial, i) == Some(ThinkingPart(Deltas(since + [e], i), SignatureOf(since + [e], i)))
  {
    DeltasSnoc(since, e, i);
    SignatureSnoc(since, e, i);
  }

  lemma CallGrows(parse: string -> Json, p: Partial, id: string, name: string, since: seq<ProxyEvent>, e: ProxyEvent, i: nat)
    requires !Plays(e, i, Opening) && i in p.content && Process(parse, p, e).Stepped?
    requires p.content[i] == ToolPart(id, name, ArgumentsOf(parse, since, i), JsonText(since, i))
    ensures At(Process(parse, p, e).partial, i)
         == Some(ToolPart(id, name, ArgumentsOf(parse, since + [e], i), JsonText(since + [e], i)))
  {
    JsonTextSnoc(since, e, i);
    ArgumentsSnoc(parse, since, e, i);
  }

  lemma PartGrows(parse: string -> Json, start: ProxyEvent, since: seq<ProxyEvent>, e: ProxyEvent, p: Partial, i: nat)
    requires Plays(start, i, Opening) && !Plays(e, i, Opening) && i in p.content
    requires p.content[i] == PartFrom(parse, start, since, i) && Process(parse, p, e).Stepped?
    ensures At(Process(parse, p, e).partial, i) == Some(PartFrom(parse, start, since + [e], i))
  {
    match start
    case TextStart(_) => TextGrows(parse, p, since, e, i);
    case ThinkingStart(_) => ThinkingGrows(parse, p, since, e, i);
    case ToolCallStart(_, id, name) => CallGrows(parse, p, id, name, since, e, i);
  }

  lemma NoPartGrows(parse: string -> Json, e: ProxyEvent, p: Partial, i: nat)
    requires !Plays(e, i, Opening) && i !in p.content && Process(parse, p, e).Stepped?
    ensures i !in Process(parse, p, e).partial.content
  {
  }

  lemma FaithfulSnoc(parse: string -> Json, es: seq<ProxyEvent>, e: ProxyEvent, p: Partial, i: nat, q: Partial)
    requires Faithful(parse, es, p, i) && Process(parse, p, e).Stepped? && q == Process(parse, p, e).partial
    ensures Faithful(parse, es + [e], q, i)
  {
    LastSnoc(es, e, i, Opening);
    var k := Last(es, i, Opening);
    if Plays(e, i, Opening) {
      PartOpens(parse, e, p, i);
      assert (es + [e])[|es| + 1..] == [];
    } else if k.Some? {
      SliceSnoc(es, e, k.value + 1);
      PartGrows(parse, es[k.value], es[k.value + 1..], e, p, i);
    } else {
      NoPartGrows(parse, e, p, i);
    }
  }

  /** For every event sequence that is replayed without a throw: block `i` exists exactly
      if it was started, and is its last start with the later deltas appended. */
  lemma {:induction false} BlocksAreRebuilt(parse: string -> Json, es: seq<ProxyEvent>, i: nat)
    requires Rebuilt(parse, es).thrown.None?
    ensures Faithful(parse, es, Rebuilt(parse, es).partial, i)
  {
    if es != [] {
      var init, e := es[..|es| - 1], es[|es| - 1];
      assert es == init + [e];
      BlocksAreRebuilt(parse, init, i);
      FaithfulSnoc(parse, init, e, Rebuilt(parse, init).partial, i, Rebuilt(parse, es).partial);
    }
  }

  lemma ReplaySnoc(parse: string -> Json, es: seq<ProxyEvent>, e: ProxyEvent)
    ensures Rebuilt(parse, es + [e]) == Play(parse, Rebuilt(parse, es), e)
  {
    assert (es + [e])[..|es|] == es;
  }

  // ---------- When a replay throws

  datatype Kind = TextKind | ThinkingKind | ToolKind

  function KindOf(part: Part): Kind {
    match part
    case TextPart(_, _) => TextKind
    case ThinkingPart(_, _) => ThinkingKind
    case ToolPart(_, _, _, _) => ToolKind
  }

  function KindStarted(e: ProxyEvent, i: nat): Kind
    requires Plays(e, i, Opening)
  {
    match e
    case TextStart(_) => TextKind
    case ThinkingStart(_) => ThinkingKind
    case ToolCallStart(_, _, _) => ToolKind
  }

  /** The block an event needs, and its kind. The end of a tool call needs none. */
  function Needs(e: ProxyEvent): Option<(nat, Kind)> {
    match e
    case TextDelta(i, _) => Some((i, TextKind))
    case TextEnd(i, _) => Some((i, TextKind))
    case ThinkingDelta(i, _) => Some((i, ThinkingKind))
    case ThinkingEnd(i, _) => Some((i, ThinkingKind))
    case ToolCallDelta(i, _) => Some((i, ToolKind))
    case _ => None
  }

  /** Event `k` comes while its block was not started, or last started as another kind. */
  ghost predicate Misplaced(es: seq<ProxyEvent>, k: nat) {
    && k < |es| && Needs(es[k]).Some?
    && var (i, kind) := Needs(es[k]).value;
       var start := Last(es[..k], i, Opening);
       start.None? || KindStarted(es[start.value], i) != kind
  }

  lemma ThrowsIffNeedUnmet(parse: string -> Json, p: Partial, e: ProxyEvent)
    ensures Process(parse, p, e).Thrown?
        <==> Needs(e).Some? && var (i, kind) := Needs(e).value; i !in p.content || KindOf(p.content[i]) != kind
  {
  }

  lemma KindIsStarted(parse: string -> Json, es: seq<ProxyEvent>, p: Partial, i: nat)
    requires Faithful(parse, es, p, i)
    ensures var k := Last(es, i, Opening);
            (i in p.content <==> k.Some?) && (k.Some? ==> KindOf(p.content[i]) == KindStarted(es[k.value], i))
  {
  }

  /** For every event sequence: the replay throws if and only if some delta, text_end or
      thinking_end is misplaced. */
  lemma {:induction false} ThrowsIffMisplaced(parse: string -> Json, es: seq<ProxyEvent>)
    ensures Rebuilt(parse, es).thrown.Some? <==> exists k: nat :: Misplaced(es, k)
  {
    if es != [] {
      var n, init, e := |es| - 1, es[..|es| - 1], es[|es| - 1];
      ThrowsIffMisplaced(parse, init);
      forall k: nat | k < n ensures Misplaced(es, k) <==> Misplaced(init, k) {
        assert es[..k] == init[..k];
      }
      if Rebuilt(parse, init).thrown.None? {
        var p := Rebuilt(parse, init).partial;
        ThrowsIffNeedUnmet(parse, p, e);
        if Needs(e).Some? {
          BlocksAreRebuilt(parse, init, Needs(e).value.0);
          KindIsStarted(parse, init, p, Needs(e).value.0);
        }
        assert Process(parse, p, e).Thrown? <==> Misplaced(es, n);
      }
    }
  }

  // ---------- Tool calls

  lemma {:induction false} DeltasSettle(es: seq<ProxyEvent>, i: nat, d: nat)
    requires Last(es, i, Growing) == Some(d)
    ensures Deltas(es, i) == Deltas(es[..d + 1], i)
  {
    if d == |es| - 1 {
      assert es[..d + 1] == es;
    } else {
      var init := es[..|es| - 1];
      DeltasSettle(init, i, d);
      assert init[..d + 1] == es[..d + 1];
    }
  }

  /** No delta of the call follows an end of it. */
  ghost predicate EndsLast(since: seq<ProxyEvent>, i: nat) {
    forall a, b | 0 <= a < b < |since| && Plays(since[a], i, Ending) :: !Plays(since[b], i, Growing)
  }

  /** Up to and after the ends, in terms of positions. */
  lemma NothingGrowsAfter(since: seq<ProxyEvent>, i: nat, k: nat)
    requires EndsLast(since, i) && k < |since| && Plays(since[k], i, Ending)
    ensures Last(since[k + 1..], i, Growing).None?
  {
    var after := since[k + 1..];
    forall j | 0 <= j < |after| ensures !Plays(after[j], i, Growing) { assert after[j] == since[k + 1 + j]; }
    if Last(after, i, Growing).Some? { assert false; }
  }

  lemma NothingEndsBefore(since: seq<ProxyEvent>, i: nat, d: nat)
    requires EndsLast(since, i) && d < |since| && Plays(since[d], i, Growing)
    ensures Last(since[..d + 1], i, Ending).None?
  {
    var upTo := since[..d + 1];
    forall j | 0 <= j < |upTo| ensures !Plays(upTo[j], i, Ending) { assert upTo[j] == since[j]; }
    if Last(upTo, i, Ending).Some? { assert false; }
  }

  lemma CallText(since: seq<ProxyEvent>, i: nat)
    requires EndsLast(since, i)
    ensures JsonText(since, i) == if Last(since, i, Ending).Some? then None else Some(Deltas(since, i))
  {
    var k := Last(since, i, Ending);
    if k.Some? { NothingGrowsAfter(since, i, k.value); }
  }

  lemma TextAtLastDelta(since: seq<ProxyEvent>, i: nat, d: nat)
    requires EndsLast(since, i) && Last(since, i, Growing) == Some(d)
    ensures JsonText(since[..d + 1], i) == Some(Deltas(since, i))
  {
    DeltasSettle(since, i, d);
    NothingEndsBefore(since, i, d);
  }

  lemma CallArguments(parse: string -> Json, since: seq<ProxyEvent>, i: nat)
    requires EndsLast(since, i)
    ensures ArgumentsOf(parse, since, i) == if Last(since, i, Growing).None? then Obj([]) else parse(Deltas(since, i))
  {
    var d := Last(since, i, Growing);
    if d.Some? { TextAtLastDelta(since, i, d.value); }
  }

  /** A call as its deltas say it is, when they all come before its end. */
  function CallFrom(parse: string -> Json, start: ProxyEvent, since: seq<ProxyEvent>, i: nat): Part
    requires start.ToolCallStart?
  {
    ToolPart(start.id, start.name,
             if Last(since, i, Growing).None? then Obj([]) else parse(Deltas(since, i)),
             if Last(since, i, Ending).Some? then None else Some(Deltas(since, i)))
  }

  lemma CallIsPart(parse: string -> Json, start: ProxyEvent, since: seq<ProxyEvent>, i: nat)
    requires start.ToolCallStart? && start.index == i && EndsLast(since, i)
    ensures PartFrom(parse, start, since, i) == CallFrom(parse, start, since, i)
  {
    CallText(since, i);
    CallArguments(parse, since, i);
  }

  /** A tool call whose deltas all come before its end is rebuilt from the concatenation
      of its deltas, and keeps `partialJson` exactly as long as it has not ended. */
  lemma CallsAreRebuilt(parse: string -> Json, es: seq<ProxyEvent>, i: nat, k: nat)
    requires Rebuilt(parse, es).thrown.None? && Last(es, i, Opening) == Some(k) && es[k].ToolCallStart?
    requires EndsLast(es[k + 1..], i)
    ensures At(Rebuilt(parse, es).partial, i) == Some(CallFrom(parse, es[k], es[k + 1..], i))
  {
    BlocksAreRebuilt(parse, es, i);
    CallIsPart(parse, es[k], es[k + 1..], i);
  }

  /** In any replay, an ended call has lost `partialJson` if and only if no delta of it
      came after its last end. */
  lemma JsonGoneIff(parse: string -> Json, es: seq<ProxyEvent>, i: nat, k: nat, end: nat)
    requires Rebuilt(parse, es).thrown.None? && Last(es, i, Opening) == Some(k) && es[k].ToolCallStart?
    requires Last(es[k + 1..], i, Ending) == Some(end)
    ensures var content := Rebuilt(parse, es).partial.content;
            i in content && content[i].ToolPart?
            && (content[i].partialJson == None <==> Last(es[k + 1..][end + 1..], i, Growing).None?)
  {
    BlocksAreRebuilt(parse, es, i);
  }

  /** A tool call with a delta after its end. */
  const LATE := [ToolCallStart(0, "id", "name"), ToolCallDelta(0, "x"), ToolCallEnd(0), ToolCallDelta(0, "y")]

  /** A delta after the end brings `partialJson` back, and not as the concatenation. */
  lemma LateDeltaReopens(parse: string -> Json)
    ensures Rebuilt(parse, LATE).thrown == None && Deltas(LATE, 0) == "xy"
    ensures At(Rebuilt(parse, LATE).partial, 0) == Some(ToolPart("id", "name", parse("undefinedy"), Some("undefinedy")))
  {
    LateText();
    assert LATE[..3][..2][..1][..0] == [];
    ReplaySnoc(parse, [], ToolCallStart(0, "id", "name"));
    assert [] + [ToolCallStart(0, "id", "name")] == LATE[..1];
    ReplaySnoc(parse, LATE[..1], ToolCallDelta(0, "x"));
    assert LATE[..1] + [ToolCallDelta(0, "x")] == LATE[..2];
    ReplaySnoc(parse, LATE[..2], ToolCallEnd(0));
    assert LATE[..2] + [ToolCallEnd(0)] == LATE[..3];
    ReplaySnoc(parse, LATE[..3], ToolCallDelta(0, "y"));
    assert LATE[..3] + [ToolCallDelta(0, "y")] == LATE;
    assert UNDEFINED + "y" == "undefinedy";
  }

  lemma LateText()
    ensures Deltas(LATE, 0) == "xy"
  {
    FourDeltas(ToolCallStart(0, "id", "name"), ToolCallDelta(0, "x"), ToolCallEnd(0), ToolCallDelta(0, "y"));
    assert "x" + "y" == "xy";
  }

  lemma TwoDeltas(a: ProxyEvent, b: ProxyEvent)
    requires Plays(a, 0, Opening) && Plays(b, 0, Growing)
    ensures Deltas([a, b], 0) == b.delta
  {
    assert Deltas([a], 0) == "" by { assert [a][..0] == []; }
    assert [a, b][..1] == [a];
    assert "" + b.delta == b.delta;
  }

  lemma ThreeDeltas(a: ProxyEvent, b: ProxyEvent, c: ProxyEvent)
    requires Plays(a, 0, Opening) && Plays(b, 0, Growing) && Plays(c, 0, Ending)
    ensures Deltas([a, b, c], 0) == b.delta
  {
    TwoDeltas(a, b);
    assert [a, b, c][..2] == [a, b];
    assert b.delta + "" == b.delta;
  }

  lemma FourDeltas(a: ProxyEvent, b: ProxyEvent, c: ProxyEvent, d: ProxyEvent)
    requires Plays(a, 0, Opening) && Plays(b, 0, Growing) && Plays(c, 0, Ending) && Plays(d, 0, Growing)
    ensures Deltas([a, b, c, d], 0) == b.delta + d.delta
  {
    ThreeDeltas(a, b, c);
    assert [a, b, c, d][..3] == [a, b, c];
  }

  // ---------- Blocks do not disturb one another

  function About(e: ProxyEvent, i: nat): bool {
    RoleOf(e, i).Some?
  }

  /** The events of block `i` alone. */
  function Only(es: seq<ProxyEvent>, i: nat): seq<ProxyEvent> {
    if es == [] then []
    else Only(es[..|es| - 1], i) + if About(es[|es| - 1], i) then [es[|es| - 1]] else []
  }

  lemma ForeignEvent(parse: string -> Json, p: Partial, e: ProxyEvent, i: nat)
    requires !About(e, i) && Process(parse, p, e).Stepped?
    ensures At(Process(parse, p, e).partial, i) == At(p, i)
  {
  }

  lemma OwnEvent(parse: string -> Json, p: Partial, q: Partial, e: ProxyEvent, i: nat)
    requires About(e, i) && At(p, i) == At(q, i) && Process(parse, p, e).Stepped?
    ensures Process(parse, q, e).Stepped? && At(Process(parse, q, e).partial, i) == At(Process(parse, p, e).partial, i)
    ensures Process(parse, q, e).pushed == Process(parse, p, e).pushed
  {
    assert i in p.content <==> i in q.content;
  }

  /** However the blocks are interleaved, block `i` is what its own events build. */
  lemma {:induction false} BlocksAreIndependent(parse: string -> Json, es: seq<ProxyEvent>, i: nat)
    requires Rebuilt(parse, es).thrown.None?
    ensures var own := Rebuilt(parse, Only(es, i));
            own.thrown.None? && At(own.partial, i) == At(Rebuilt(parse, es).partial, i)
  {
    if es != [] {
      var init, e := es[..|es| - 1], es[|es| - 1];
      BlocksAreIndependent(parse, init, i);
      var own := Only(init, i);
      if About(e, i) {
        assert (own + [e])[..|own|] == own;
        OwnEvent(parse, Rebuilt(parse, init).partial, Rebuilt(parse, own).partial, e, i);
      } else {
        assert own + [] == own;
        ForeignEvent(parse, Rebuilt(parse, init).partial, e, i);
      }
    }
  }

  function TextSince(es: seq<ProxyEvent>, i: nat): string
    requires Last(es, i, Opening).Some?
  {
    Deltas(es[Last(es, i, Opening).value + 1..], i)
  }

  lemma ClosingStep(parse: string -> Json, es: seq<ProxyEvent>, p: Partial, e: ProxyEvent)
    requires (e.TextEnd? || e.ThinkingEnd?) && Faithful(parse, es, p, e.index) && Process(parse, p, e).Stepped?
    ensures Last(es, e.index, Opening).Some?
    ensures var text := TextSince(es, e.index);
            Process(parse, p, e).pushed == Some(if e.TextEnd? then TextClosed(e.index, text) else ThinkingClosed(e.index, text))
  {
  }

  /** The event that closes a block hands out the whole text of it. */
  lemma ClosingCarriesText(parse: string -> Json, es: seq<ProxyEvent>, e: ProxyEvent)
    requires Rebuilt(parse, es + [e]).thrown.None? && (e.TextEnd? || e.ThinkingEnd?)
    ensures Last(es, e.index, Opening).Some?
    ensures Rebuilt(parse, es + [e]).pushes == Rebuilt(parse, es).pushes
         + [if e.TextEnd? then TextClosed(e.index, TextSince(es, e.index)) else ThinkingClosed(e.index, TextSince(es, e.index))]
  {
    ReplaySnoc(parse, es, e);
    BlocksAreRebuilt(parse, es, e.index);
    ClosingStep(parse, es, Rebuilt(parse, es).partial, e);
  }
}
