/** Messages, tool calls and streaming deltas (daimon-llm types.rs) and the events
    of a turn (daimon-gateway reply_sink.rs). */
module Llm {
  import opened Wrappers
  import opened Json

  datatype Role = System | User | Assistant | Tool

  datatype ToolCall = ToolCall(id: string, name: string, arguments: Json)

  datatype ChatMessage = ChatMessage(role: Role, content: string, toolUseId: Option<string>, toolCalls: seq<ToolCall>)

  datatype StopReason = EndTurn | MaxTokens | StopSequence | CallTools | Unknown

  datatype Usage = Usage(inputTokens: nat, outputTokens: nat)

  const NO_USAGE := Usage(0, 0)

  datatype Delta =
    | TextDelta(text: string)
    | ToolUseStart(id: string, name: string)
    | ToolUseInputDelta(partialJson: string)
    | ToolUseStop(id: string)
    | MessageStop(stop: StopReason, usage: Usage)

  /** One item of a delta stream; a stream may break at any point. */
  datatype Item = Got(delta: Delta) | Broken(message: string)

  datatype TurnEvent =
    | TokenDelta(session: string, content: string)
    | ToolUse(session: string, tool: string, params: Json)
    | ToolResult(session: string, tool: string, output: string, isError: bool)
    | Done(session: string, stopReason: string, inputTokens: nat, outputTokens: nat)
    | Error(message: string)

  predicate Terminal(e: TurnEvent) { e.Done? || e.Error? }
}

/** From the provider's stream events to the assembled assistant message: the event
    mapping of daimon-llm anthropic.rs and the stream loop of daimon-app chat.rs,
    against the batch decoder. */
module Streaming {
  import opened Wrappers
  import opened Text
  import opened Json
  import opened Llm

  // ----- assembling a message from deltas -----------------------------------

  datatype Pending = Pending(id: string, name: string, inputJson: string)

  datatype Assembly = Assembly(
    text: string,
    pending: Option<Pending>,
    calls: seq<ToolCall>,
    stop: StopReason,
    usage: Usage,
    emitted: seq<TurnEvent>)

  const BLANK := Assembly("", None, [], Unknown, NO_USAGE, [])

  type JsonParser = string -> Option<Json>

  function ParseOrEmpty(parse: JsonParser, s: string): Json
  {
    if parse(s).Some? then parse(s).value else Obj([])
  }

  function Absorb(parse: JsonParser, session: string, a: Assembly, d: Delta): Assembly
  {
    match d
    case TextDelta(t) => a.(text := a.text + t, emitted := a.emitted + [TokenDelta(session, t)])
    case ToolUseStart(id, name) => a.(pending := Some(Pending(id, name, "")))
    case ToolUseInputDelta(j) =>
      if a.pending.Some? then a.(pending := Some(a.pending.value.(inputJson := a.pending.value.inputJson + j))) else a
    case ToolUseStop(_) =>
      if a.pending.Some? then
        var input := ParseOrEmpty(parse, a.pending.value.inputJson);
        a.(pending := None,
           calls := a.calls + [ToolCall(a.pending.value.id, a.pending.value.name, input)],
           emitted := a.emitted + [ToolUse(session, a.pending.value.name, input)])
      else a
    case MessageStop(stop, usage) => a.(stop := stop, usage := usage)
  }

  /** How far a stream was read: to its end, or to where it broke. */
  datatype Reading = Reading(assembly: Assembly, broken: Option<string>)

  function Read(parse: JsonParser, session: string, a: Assembly, items: seq<Item>): Reading
    decreases |items|
  {
    if items == [] then Reading(a, None)
    else match items[0]
         case Broken(m) => Reading(a, Some(m))
         case Got(d) => Read(parse, session, Absorb(parse, session, a, d), items[1..])
  }

  /** The stream loop of a turn, variable by variable. */
  method ReadStream(parse: JsonParser, session: string, items: seq<Item>) returns (r: Reading)
    ensures r == Read(parse, session, BLANK, items)
  {
    var accumulatedText: string, pendingTool: Option<Pending>, completed: seq<ToolCall> := "", None, [];
    var finalStop, finalUsage, emitted: seq<TurnEvent> := Unknown, NO_USAGE, [];
    var i := 0;
    while i < |items|
      invariant i <= |items|
      invariant Read(parse, session, BLANK, items) ==
                Read(parse, session,
                     Assembly(accumulatedText, pendingTool, completed, finalStop, finalUsage, emitted), items[i..])
    {
      assert items[i..][1..] == items[i + 1..];
      match items[i] {
        case Broken(m) =>
          return Reading(Assembly(accumulatedText, pendingTool, completed, finalStop, finalUsage, emitted), Some(m));
        case Got(d) =>
          match d {
            case TextDelta(t) =>
              accumulatedText := accumulatedText + t;
              emitted := emitted + [TokenDelta(session, t)];
            case ToolUseStart(id, name) =>
              pendingTool := Some(Pending(id, name, ""));
            case ToolUseInputDelta(j) =>
              if pendingTool.Some? {
                pendingTool := Some(pendingTool.value.(inputJson := pendingTool.value.inputJson + j));
              }
            case ToolUseStop(_) =>
              if pendingTool.Some? {
                var p := pendingTool.value;
                pendingTool := None;
                var input := ParseOrEmpty(parse, p.inputJson);
                emitted := emitted + [ToolUse(session, p.name, input)];
                completed := completed + [ToolCall(p.id, p.name, input)];
              }
            case MessageStop(stop, usage) =>
              finalStop, finalUsage := stop, usage;
          }
      }
      i := i + 1;
    }
    return Reading(Assembly(accumulatedText, pendingTool, completed, finalStop, finalUsage, emitted), None);
  }

  lemma {:induction false} ReadConcat(parse: JsonParser, session: string, a: Assembly, x: seq<Item>, y: seq<Item>)
    ensures var r := Read(parse, session, a, x);
            Read(parse, session, a, x + y) == if r.broken.Some? then r else Read(parse, session, r.assembly, y)
    decreases |x|
  {
    if x == [] {
      assert x + y == y;
    } else {
      assert (x + y)[1..] == x[1..] + y;
      if x[0].Got? {
        ReadConcat(parse, session, Absorb(parse, session, a, x[0].delta), x[1..], y);
      }
    }
  }

  // ----- what was shown is what was assembled -------------------------------

  function Shown(events: seq<TurnEvent>): string
  {
    if events == [] then ""
    else
      var e := events[|events| - 1];
      Shown(events[..|events| - 1]) + if e.TokenDelta? then e.content else ""
  }

  datatype Notice = Notice(tool: string, params: Json)

  function Notices(events: seq<TurnEvent>): seq<Notice>
  {
    if events == [] then []
    else
      var e := events[|events| - 1];
      Notices(events[..|events| - 1]) + if e.ToolUse? then [Notice(e.tool, e.params)] else []
  }

  function Announced(calls: seq<ToolCall>): seq<Notice>
  {
    if calls == [] then []
    else
      var c := calls[|calls| - 1];
      Announced(calls[..|calls| - 1]) + [Notice(c.name, c.arguments)]
  }

  /** The user saw the text that is kept, and one notice per kept call, in order;
      nothing that ends a turn has been emitted. */
  ghost predicate Truthful(a: Assembly)
  {
    && Shown(a.emitted) == a.text
    && Notices(a.emitted) == Announced(a.calls)
    && Ongoing(a.emitted)
  }

  predicate Ongoing(events: seq<TurnEvent>)
  {
    forall i :: 0 <= i < |events| ==> !Terminal(events[i])
  }

  lemma EmitOne(events: seq<TurnEvent>, e: TurnEvent)
    ensures Shown(events + [e]) == Shown(events) + if e.TokenDelta? then e.content else ""
    ensures Notices(events + [e]) == Notices(events) + if e.ToolUse? then [Notice(e.tool, e.params)] else []
  {
    assert (events + [e])[..|events|] == events;
  }

  lemma AnnounceOne(calls: seq<ToolCall>, c: ToolCall)
    ensures Announced(calls + [c]) == Announced(calls) + [Notice(c.name, c.arguments)]
  {
    assert (calls + [c])[..|calls|] == calls;
  }

  lemma AbsorbText(a: Assembly, session: string, t: string)
    requires Truthful(a)
    ensures Truthful(a.(text := a.text + t, emitted := a.emitted + [TokenDelta(session, t)]))
  {
    var e := TokenDelta(session, t);
    EmitOne(a.emitted, e);
    assert Notices(a.emitted) + [] == Notices(a.emitted);
  }

  lemma AbsorbCall(a: Assembly, session: string, c: ToolCall)
    requires Truthful(a)
    ensures Truthful(a.(pending := None, calls := a.calls + [c],
                        emitted := a.emitted + [ToolUse(session, c.name, c.arguments)]))
  {
    EmitOne(a.emitted, ToolUse(session, c.name, c.arguments));
    AnnounceOne(a.calls, c);
    assert Shown(a.emitted) + "" == Shown(a.emitted);
  }

  lemma AbsorbTruthful(parse: JsonParser, session: string, a: Assembly, d: Delta)
    requires Truthful(a)
    ensures Truthful(Absorb(parse, session, a, d))
  {
    match d
    case TextDelta(t) => AbsorbText(a, session, t);
    case ToolUseStop(_) =>
      if a.pending.Some? {
        var p := a.pending.value;
        AbsorbCall(a, session, ToolCall(p.id, p.name, ParseOrEmpty(parse, p.inputJson)));
      }
    case _ =>
  }

  /** For every stream, broken or not. */
  lemma {:induction false} ReadTruthful(parse: JsonParser, session: string, a: Assembly, items: seq<Item>)
    requires Truthful(a)
    ensures Truthful(Read(parse, session, a, items).assembly)
    decreases |items|
  {
    if items != [] && items[0].Got? {
      AbsorbTruthful(parse, session, a, items[0].delta);
      ReadTruthful(parse, session, Absorb(parse, session, a, items[0].delta), items[1..]);
    }
  }

  predicate InSession(events: seq<TurnEvent>, session: string)
  {
    forall i :: 0 <= i < |events| && !events[i].Error? ==> events[i].session == session
  }

  /** Everything emitted goes to the session of the turn. */
  lemma {:induction false} ReadInSession(parse: JsonParser, session: string, a: Assembly, items: seq<Item>)
    requires InSession(a.emitted, session)
    ensures InSession(Read(parse, session, a, items).assembly.emitted, session)
    decreases |items|
  {
    if items != [] && items[0].Got? {
      ReadInSession(parse, session, Absorb(parse, session, a, items[0].delta), items[1..]);
    }
  }

  // ----- the provider's events ----------------------------------------------

  datatype Block = TextBlock(text: string) | ToolBlock(id: string, name: string, input: Json)

  datatype RawDelta = RawText(text: string) | RawInput(partialJson: string)

  datatype Event =
    | BlockStart(index: nat, block: Block)
    | BlockDelta(index: nat, delta: RawDelta)
    | BlockStop(index: nat)
    | MessageDelta(stopReason: Option<string>, usage: Option<Usage>)
    | Ignored(name: string)
    | Undecodable(message: string)

  function ParseStop(s: Option<string>): StopReason
  {
    if s == Some("end_turn") then EndTurn
    else if s == Some("max_tokens") then MaxTokens
    else if s == Some("stop_sequence") then StopSequence
    else if s == Some("tool_use") then CallTools
    else Unknown
  }

  /** Which stop reason stands for which word of the provider. */
  predicate StopMeans(s: Option<string>, stop: StopReason)
  {
    && (stop == CallTools <==> s == Some("tool_use"))
    && (stop == EndTurn <==> s == Some("end_turn"))
    && (stop == MaxTokens <==> s == Some("max_tokens"))
    && (stop == StopSequence <==> s == Some("stop_sequence"))
  }

  lemma ParseStopMeans(s: Option<string>)
    ensures StopMeans(s, ParseStop(s))
  {
    assert |"tool_use"| == 8 && |"end_turn"| == 8 && |"max_tokens"| == 10 && |"stop_sequence"| == 13;
    assert "tool_use"[0] != "end_turn"[0];
  }

  function Reported(usage: Option<Usage>): Usage
  {
    if usage.Some? then usage.value else NO_USAGE
  }

  function IntoItem(e: Event): Option<Item>
  {
    match e
    case BlockStart(_, TextBlock(_)) => None
    case BlockStart(_, ToolBlock(id, name, _)) => Some(Got(ToolUseStart(id, name)))
    case BlockDelta(_, RawText(t)) => Some(Got(TextDelta(t)))
    case BlockDelta(_, RawInput(j)) => Some(Got(ToolUseInputDelta(j)))
    case BlockStop(_) => Some(Got(ToolUseStop("")))
    case MessageDelta(s, u) => Some(Got(MessageStop(ParseStop(s), Reported(u))))
    case Ignored(_) => None
    case Undecodable(m) => Some(Broken(m))
  }

  function Items(es: seq<Event>): seq<Item>
  {
    if es == [] then []
    else
      var rest := Items(es[1..]);
      match IntoItem(es[0])
      case Some(i) => [i] + rest
      case None => rest
  }

  lemma {:induction false} ItemsConcat(x: seq<Event>, y: seq<Event>)
    ensures Items(x + y) == Items(x) + Items(y)
  {
    if x == [] {
      assert x + y == y;
    } else {
      assert (x + y)[1..] == x[1..] + y;
      ItemsConcat(x[1..], y);
    }
  }

  /** Without pings, message starts and stops and unknown events. */
  function Meaningful(es: seq<Event>): seq<Event>
  {
    if es == [] then []
    else if es[0].Ignored? then Meaningful(es[1..])
    else [es[0]] + Meaningful(es[1..])
  }

  lemma {:induction false} NoiseDoesNotMatter(es: seq<Event>)
    ensures Items(es) == Items(Meaningful(es))
  {
    if es != [] {
      NoiseDoesNotMatter(es[1..]);
      assert !es[0].Ignored? ==> Meaningful(es)[1..] == Meaningful(es[1..]);
    }
  }

  // ----- blocks in pieces ---------------------------------------------------

  function Concat(parts: seq<string>): string
  {
    if parts == [] then "" else parts[0] + Concat(parts[1..])
  }

  /** A content block as it comes in: what its start event carries, the pieces of
      its content, and, for a tool call, the input the batch form would report. */
  datatype Chunk =
    | TextChunk(first: string, parts: seq<string>)
    | ToolChunk(id: string, name: string, firstInput: Json, parts: seq<string>, input: Json)

  function Piece(n: nat, text: bool, part: string): Event
  {
    BlockDelta(n, if text then RawText(part) else RawInput(part))
  }

  function Pieces(n: nat, text: bool, parts: seq<string>): seq<Event>
  {
    if parts == [] then [] else [Piece(n, text, parts[0])] + Pieces(n, text, parts[1..])
  }

  function Opening(c: Chunk): Block
  {
    match c
    case TextChunk(first, _) => TextBlock(first)
    case ToolChunk(id, name, input, _, _) => ToolBlock(id, name, input)
  }

  function EventsOf(n: nat, c: Chunk): seq<Event>
  {
    [BlockStart(n, Opening(c))] + Pieces(n, c.TextChunk?, c.parts) + [BlockStop(n)]
  }

  function AllEvents(n: nat, cs: seq<Chunk>): seq<Event>
    decreases |cs|
  {
    if cs == [] then [] else EventsOf(n, cs[0]) + AllEvents(n + 1, cs[1..])
  }

  /** The same block in the batch response. */
  function Whole(c: Chunk): Block
  {
    match c
    case TextChunk(first, parts) => TextBlock(first + Concat(parts))
    case ToolChunk(id, name, _, _, input) => ToolBlock(id, name, input)
  }

  function Wholes(cs: seq<Chunk>): seq<Block>
  {
    seq(|cs|, i requires 0 <= i < |cs| => Whole(cs[i]))
  }

  /** The batch decoder's text and tool calls. */
  function BatchText(blocks: seq<Block>): string
  {
    if blocks == [] then ""
    else (if blocks[0].TextBlock? then blocks[0].text else "") + BatchText(blocks[1..])
  }

  function BatchCalls(blocks: seq<Block>): seq<ToolCall>
  {
    if blocks == [] then []
    else (match blocks[0]
          case ToolBlock(id, name, input) => [ToolCall(id, name, input)]
          case TextBlock(_) => []) + BatchCalls(blocks[1..])
  }

  /** What the stream yields for the same blocks. */
  function ChunkText(c: Chunk): string
  {
    if c.TextChunk? then Concat(c.parts) else ""
  }

  function ChunkCalls(parse: JsonParser, c: Chunk): seq<ToolCall>
  {
    match c
    case ToolChunk(id, name, _, parts, _) => [ToolCall(id, name, ParseOrEmpty(parse, Concat(parts)))]
    case TextChunk(_, _) => []
  }

  function StreamText(cs: seq<Chunk>): string
  {
    if cs == [] then "" else ChunkText(cs[0]) + StreamText(cs[1..])
  }

  function StreamCalls(parse: JsonParser, cs: seq<Chunk>): seq<ToolCall>
  {
    if cs == [] then [] else ChunkCalls(parse, cs[0]) + StreamCalls(parse, cs[1..])
  }

  // ----- reading one block --------------------------------------------------

  /** Same message so far, whatever has been emitted. */
  predicate Holds(a: Assembly, text: string, pending: Option<Pending>, calls: seq<ToolCall>)
  {
    a.text == text && a.pending == pending && a.calls == calls
  }

  lemma {:induction false} ReadTextPieces(parse: JsonParser, session: string, a: Assembly, n: nat, parts: seq<string>)
    ensures var r := Read(parse, session, a, Items(Pieces(n, true, parts)));
            r.broken.None? && Holds(r.assembly, a.text + Concat(parts), a.pending, a.calls)
    decreases |parts|
  {
    if parts == [] {
      assert a.text + "" == a.text;
    } else {
      var rest := parts[1..];
      assert Pieces(n, true, parts)[1..] == Pieces(n, true, rest);
      ReadTextPieces(parse, session, Absorb(parse, session, a, TextDelta(parts[0])), n, rest);
      assert a.text + parts[0] + Concat(rest) == a.text + Concat(parts);
    }
  }

  lemma {:induction false} ReadToolPieces(parse: JsonParser, session: string, a: Assembly, p: Pending, n: nat,
                                          parts: seq<string>)
    requires a.pending == Some(p)
    ensures var r := Read(parse, session, a, Items(Pieces(n, false, parts)));
            && r.broken.None?
            && Holds(r.assembly, a.text, Some(Pending(p.id, p.name, p.inputJson + Concat(parts))), a.calls)
    decreases |parts|
  {
    if parts == [] {
      assert p.inputJson + "" == p.inputJson;
    } else {
      var rest := parts[1..];
      assert Pieces(n, false, parts)[1..] == Pieces(n, false, rest);
      var p' := Pending(p.id, p.name, p.inputJson + parts[0]);
      ReadToolPieces(parse, session, Absorb(parse, session, a, ToolUseInputDelta(parts[0])), p', n, rest);
      assert p.inputJson + parts[0] + Concat(rest) == p.inputJson + Concat(parts);
    }
  }

  lemma ItemsOfChunk(n: nat, c: Chunk)
    ensures Items(EventsOf(n, c)) ==
            (if c.ToolChunk? then [Got(ToolUseStart(c.id, c.name))] else [])
            + Items(Pieces(n, c.TextChunk?, c.parts)) + [Got(ToolUseStop(""))]
  {
    var start, pieces, stop := [BlockStart(n, Opening(c))], Pieces(n, c.TextChunk?, c.parts), [BlockStop(n)];
    ItemsConcat(start + pieces, stop);
    ItemsConcat(start, pieces);
    assert start[1..] == [] && stop[1..] == [];
  }

  lemma ReadOne(parse: JsonParser, session: string, a: Assembly, d: Delta)
    ensures Read(parse, session, a, [Got(d)]) == Reading(Absorb(parse, session, a, d), None)
  {
  }

  /** Reading `x` and then one more delta. */
  lemma ReadThen(parse: JsonParser, session: string, a: Assembly, x: seq<Item>, d: Delta)
    requires Read(parse, session, a, x).broken.None?
    ensures Read(parse, session, a, x + [Got(d)]) ==
            Reading(Absorb(parse, session, Read(parse, session, a, x).assembly, d), None)
  {
    ReadConcat(parse, session, a, x, [Got(d)]);
    ReadOne(parse, session, Read(parse, session, a, x).assembly, d);
  }

  lemma ReadTextChunk(parse: JsonParser, session: string, a: Assembly, n: nat, c: Chunk)
    requires c.TextChunk? && a.pending.None?
    ensures var r := Read(parse, session, a, Items(EventsOf(n, c)));
            r.broken.None? && Holds(r.assembly, a.text + ChunkText(c), None, a.calls + ChunkCalls(parse, c))
  {
    ItemsOfChunk(n, c);
    var x := Items(Pieces(n, true, c.parts));
    ReadTextPieces(parse, session, a, n, c.parts);
    ReadThen(parse, session, a, x, ToolUseStop(""));
    assert [] + x == x && a.calls + [] == a.calls;
  }

  lemma ReadToolChunk(parse: JsonParser, session: string, a: Assembly, n: nat, c: Chunk)
    requires c.ToolChunk? && a.pending.None?
    ensures var r := Read(parse, session, a, Items(EventsOf(n, c)));
            r.broken.None? && Holds(r.assembly, a.text + ChunkText(c), None, a.calls + ChunkCalls(parse, c))
  {
    ItemsOfChunk(n, c);
    var start, x := ToolUseStart(c.id, c.name), Items(Pieces(n, false, c.parts));
    ReadConcat(parse, session, a, [Got(start)], x);
    ReadOne(parse, session, a, start);
    ReadToolPieces(parse, session, Absorb(parse, session, a, start), Pending(c.id, c.name, ""), n, c.parts);
    assert "" + Concat(c.parts) == Concat(c.parts) && a.text + "" == a.text;
    ReadThen(parse, session, a, [Got(start)] + x, ToolUseStop(""));
  }

  lemma HoldsThen(a: Assembly, text: string, t: string, u: string, calls: seq<ToolCall>, c: seq<ToolCall>,
                  d: seq<ToolCall>)
    requires Holds(a, (text + t) + u, None, (calls + c) + d)
    ensures Holds(a, text + (t + u), None, calls + (c + d))
  {
    assert (text + t) + u == text + (t + u) && (calls + c) + d == calls + (c + d);
  }

  lemma {:induction false} ReadChunks(parse: JsonParser, session: string, a: Assembly, n: nat, cs: seq<Chunk>)
    requires a.pending.None?
    ensures var r := Read(parse, session, a, Items(AllEvents(n, cs)));
            && r.broken.None?
            && Holds(r.assembly, a.text + StreamText(cs), None, a.calls + StreamCalls(parse, cs))
    decreases |cs|
  {
    if cs == [] {
      assert a.text + "" == a.text && a.calls + [] == a.calls;
    } else {
      var c, rest := cs[0], cs[1..];
      var x, y := Items(EventsOf(n, c)), Items(AllEvents(n + 1, rest));
      ItemsConcat(EventsOf(n, c), AllEvents(n + 1, rest));
      ReadConcat(parse, session, a, x, y);
      if c.TextChunk? {
        ReadTextChunk(parse, session, a, n, c);
      } else {
        ReadToolChunk(parse, session, a, n, c);
      }
      var mid := Read(parse, session, a, x).assembly;
      ReadChunks(parse, session, mid, n + 1, rest);
      HoldsThen(Read(parse, session, mid, y).assembly, a.text, ChunkText(c), StreamText(rest),
                a.calls, ChunkCalls(parse, c), StreamCalls(parse, rest));
    }
  }

  // ----- streaming against batch --------------------------------------------

  /** No start event of a text block carries text of its own. */
  predicate EmptyStarts(cs: seq<Chunk>)
  {
    forall i :: 0 <= i < |cs| && cs[i].TextChunk? ==> cs[i].first == ""
  }

  /** A text reads as an input: it parses to it, or to nothing and the input is the
      empty object. */
  predicate ReadsAs(parse: JsonParser, text: string, input: Json)
  {
    match parse(text)
    case Some(j) => j == input
    case None => input == Obj([])
  }

  /** The pieces of each tool input, put together, read as the input. */
  predicate InputsParse(parse: JsonParser, cs: seq<Chunk>)
  {
    forall i :: 0 <= i < |cs| && cs[i].ToolChunk? ==> ReadsAs(parse, Concat(cs[i].parts), cs[i].input)
  }

  lemma {:induction false} TextsAgreeIff(cs: seq<Chunk>)
    ensures |StreamText(cs)| <= |BatchText(Wholes(cs))|
    ensures StreamText(cs) == BatchText(Wholes(cs)) <==> EmptyStarts(cs)
    ensures |StreamText(cs)| == |BatchText(Wholes(cs))| <==> EmptyStarts(cs)
  {
    if cs != [] {
      var rest := cs[1..];
      TextsAgreeIff(rest);
      assert Wholes(cs)[1..] == Wholes(rest);
      assert EmptyStarts(cs) <==> (cs[0].TextChunk? ==> cs[0].first == "") && EmptyStarts(rest) by {
        assert forall i :: 0 < i < |cs| ==> cs[i] == rest[i - 1];
        assert forall i :: 0 <= i < |rest| ==> rest[i] == cs[i + 1];
      }
      if cs[0].TextChunk? && cs[0].first == "" {
        assert "" + Concat(cs[0].parts) == Concat(cs[0].parts);
      }
    }
  }

  lemma {:induction false} CallsAgreeIff(parse: JsonParser, cs: seq<Chunk>)
    ensures |StreamCalls(parse, cs)| == |BatchCalls(Wholes(cs))|
    ensures StreamCalls(parse, cs) == BatchCalls(Wholes(cs)) <==> InputsParse(parse, cs)
  {
    if cs != [] {
      var c, rest := cs[0], cs[1..];
      CallsAgreeIff(parse, rest);
      assert Wholes(cs)[1..] == Wholes(rest) && Wholes(cs)[0] == Whole(c);
      assert InputsParse(parse, cs) <==>
             (c.ToolChunk? ==> ReadsAs(parse, Concat(c.parts), c.input)) && InputsParse(parse, rest) by {
        assert forall i :: 0 < i < |cs| ==> cs[i] == rest[i - 1];
        assert forall i :: 0 <= i < |rest| ==> rest[i] == cs[i + 1];
      }
      if c.ToolChunk? {
        ConsEqual(ToolCall(c.id, c.name, ParseOrEmpty(parse, Concat(c.parts))), StreamCalls(parse, rest),
                  ToolCall(c.id, c.name, c.input), BatchCalls(Wholes(rest)));
      } else {
        assert StreamCalls(parse, cs) == StreamCalls(parse, rest);
        assert BatchCalls(Wholes(cs)) == BatchCalls(Wholes(rest));
      }
    }
  }

  /** For any blocks, cut into any pieces, with any noise in between: the streamed
      message has the stop reason and usage reported, leaves nothing pending, has
      the batch text exactly when no text start carries text, and the batch tool
      calls, in order, exactly when the pieces of every input read as the input. */
  lemma StreamingAgreesWithBatch(parse: JsonParser, session: string, es: seq<Event>, cs: seq<Chunk>,
                                 stop: Option<string>, usage: Option<Usage>)
    requires Meaningful(es) == AllEvents(0, cs) + [MessageDelta(stop, usage)]
    ensures var r := Read(parse, session, BLANK, Items(es));
            && r.broken.None? && r.assembly.pending.None?
            && StopMeans(stop, r.assembly.stop)
            && r.assembly.usage == (if usage.Some? then usage.value else Usage(0, 0))
            && (r.assembly.text == BatchText(Wholes(cs)) <==> EmptyStarts(cs))
            && (r.assembly.calls == BatchCalls(Wholes(cs)) <==> InputsParse(parse, cs))
  {
    NoiseDoesNotMatter(es);
    ParseStopMeans(stop);
    var end := [MessageDelta(stop, usage)];
    ItemsConcat(AllEvents(0, cs), end);
    assert end[1..] == [] && Items(end) == [Got(MessageStop(ParseStop(stop), Reported(usage)))];
    ReadChunks(parse, session, BLANK, 0, cs);
    ReadThen(parse, session, BLANK, Items(AllEvents(0, cs)), MessageStop(ParseStop(stop), Reported(usage)));
    TextsAgreeIff(cs);
    CallsAgreeIff(parse, cs);
    assert "" + StreamText(cs) == StreamText(cs) && [] + StreamCalls(parse, cs) == StreamCalls(parse, cs);
  }

  // ----- when the stream goes wrong -----------------------------------------

  predicate AllDecodable(es: seq<Event>)
  {
    forall i :: 0 <= i < |es| ==> !es[i].Undecodable?
  }

  lemma {:induction false} DecodableDoesNotBreak(parse: JsonParser, session: string, a: Assembly, es: seq<Event>)
    requires AllDecodable(es)
    ensures Read(parse, session, a, Items(es)).broken.None?
    decreases |es|
  {
    if es != [] {
      var rest := es[1..];
      assert AllDecodable(rest);
      match IntoItem(es[0])
      case None => DecodableDoesNotBreak(parse, session, a, rest);
      case Some(i) =>
        assert i.Got?;
        assert Items(es)[1..] == Items(rest);
        DecodableDoesNotBreak(parse, session, Absorb(parse, session, a, i.delta), rest);
    }
  }

  /** Reading stops at the first event that cannot be decoded, with its message; what
      came before counts and what comes after does not. */
  lemma UndecodableBreaks(parse: JsonParser, session: string, a: Assembly, x: seq<Event>, m: string, y: seq<Event>)
    requires AllDecodable(x)
    ensures Read(parse, session, a, Items(x + [Undecodable(m)] + y)) ==
            Reading(Read(parse, session, a, Items(x)).assembly, Some(m))
  {
    var bad := [Undecodable(m)];
    DecodableDoesNotBreak(parse, session, a, x);
    ItemsConcat(x + bad, y);
    ItemsConcat(x, bad);
    assert bad[1..] == [] && Items(bad) == [Broken(m)];
    var mid := Read(parse, session, a, Items(x)).assembly;
    ReadConcat(parse, session, a, Items(x) + Items(bad), Items(y));
    ReadConcat(parse, session, a, Items(x), Items(bad));
    assert Read(parse, session, mid, [Broken(m)]) == Reading(mid, Some(m));
  }
}
