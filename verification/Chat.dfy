/** The turn engine (daimon-app chat.rs): one user message against an arbitrary
    language model and arbitrary tools. */
module Chat {
  import opened Wrappers
  import opened Text
  import opened Llm
  import opened Streaming

  const MAX_LOOPS: nat := 8

  const MEMORY_TOOL := "memory.log_"

  datatype CompletionRequest = CompletionRequest(
    model: string, messages: seq<ChatMessage>, system: string, requestId: string)

  datatype ToolOutput = ToolOutput(text: string, isError: bool)

  /** Everything outside: how tool inputs parse, what the model streams in a round
      (or why it could not start), what the n-th call of a round returns from the
      memory tier or from the bus. */
  datatype World = World(
    parse: JsonParser,
    llm: (nat, CompletionRequest) -> Result<seq<Item>, string>,
    capture: (nat, nat, ToolCall) -> ToolOutput,
    bus: (nat, nat, ToolCall) -> ToolOutput)

  /** A message as working memory keeps it. */
  datatype ConvMessage = ConvMessage(role: string, content: string, toolUseId: Option<string>)

  function ConvToChat(c: ConvMessage): ChatMessage
  {
    var role :=
      if c.role == "user" then User
      else if c.role == "assistant" then Assistant
      else if c.role == "tool" then Tool
      else System;
    ChatMessage(role, c.content, c.toolUseId, [])
  }

  function History(recent: seq<ConvMessage>): seq<ChatMessage>
  {
    seq(|recent|, i requires 0 <= i < |recent| => ConvToChat(recent[i]))
  }

  /** What a turn starts from; each of the first three may already end it. */
  datatype Setup = Setup(
    rejected: Option<string>,
    noModel: Option<string>,
    recent: Result<seq<ConvMessage>, string>,
    system: string,
    model: string,
    session: string)

  datatype SinkCall = Emit(event: TurnEvent) | Finish

  function UserMessage(text: string): ChatMessage { ChatMessage(User, text, None, []) }

  function AssistantMessage(a: Assembly): ChatMessage { ChatMessage(Assistant, a.text, None, a.calls) }

  function ToolMessage(id: string, output: string): ChatMessage { ChatMessage(Tool, output, Some(id), []) }

  function StopName(s: StopReason): string
  {
    match s
    case EndTurn => "endturn"
    case MaxTokens => "maxtokens"
    case StopSequence => "stopsequence"
    case CallTools => "tooluse"
    case Unknown => "error"
  }

  // ----- one round ----------------------------------------------------------

  function Output(w: World, n: nat, i: nat, c: ToolCall): ToolOutput
  {
    if MEMORY_TOOL <= c.name then w.capture(n, i, c) else w.bus(n, i, c)
  }

  function Results(w: World, n: nat, calls: seq<ToolCall>): seq<ChatMessage>
  {
    seq(|calls|, i requires 0 <= i < |calls| => ToolMessage(calls[i].id, Output(w, n, i, calls[i]).text))
  }

  function ResultEvents(w: World, n: nat, session: string, calls: seq<ToolCall>): seq<TurnEvent>
  {
    seq(|calls|, i requires 0 <= i < |calls| =>
      var out := Output(w, n, i, calls[i]); ToolResult(session, calls[i].name, out.text, out.isError))
  }

  /** What the stream of round `n` assembles to. */
  function Heard(w: World, session: string, items: seq<Item>): Reading
  {
    Read(w.parse, session, BLANK, items)
  }

  /** Does round `n` lead to another one? */
  predicate Continues(w: World, session: string, n: nat, req: CompletionRequest)
  {
    var reply := w.llm(n, req);
    && reply.Ok?
    && Heard(w, session, reply.value).broken.None?
    && Heard(w, session, reply.value).assembly.stop == CallTools
  }

  /** What round `n` shows before the turn ends or goes on. */
  function Said(w: World, session: string, n: nat, req: CompletionRequest): seq<TurnEvent>
  {
    var reply := w.llm(n, req);
    if reply.Err? then []
    else
      var a := Heard(w, session, reply.value).assembly;
      a.emitted + if Continues(w, session, n, req) then ResultEvents(w, n, session, a.calls) else []
  }

  /** How a turn whose last round is `n` ends. */
  function Ending(w: World, session: string, n: nat, req: CompletionRequest): TurnEvent
  {
    match w.llm(n, req)
    case Err(e) => Error("llm stream: " + e)
    case Ok(items) =>
      var r := Heard(w, session, items);
      if r.broken.Some? then Error("stream: " + r.broken.value)
      else if r.assembly.stop != CallTools then
        Done(session, StopName(r.assembly.stop), r.assembly.usage.inputTokens, r.assembly.usage.outputTokens)
      else Error("tool-use loop budget exhausted")
  }

  /** What a round that goes on adds to the conversation. */
  function Added(w: World, session: string, n: nat, req: CompletionRequest): seq<ChatMessage>
    requires Continues(w, session, n, req)
  {
    var a := Heard(w, session, w.llm(n, req).value).assembly;
    [AssistantMessage(a)] + Results(w, n, a.calls)
  }

  // ----- a whole turn -------------------------------------------------------

  function RequestOf(setup: Setup, messages: seq<ChatMessage>): CompletionRequest
  {
    CompletionRequest(setup.model, messages, setup.system, setup.session)
  }

  /** Every round but the last asked for tools, and each request is the one before
      extended by what that round added. */
  ghost predicate Rounds(w: World, setup: Setup, base: seq<ChatMessage>, reqs: seq<CompletionRequest>)
  {
    && (reqs != [] ==> reqs[0] == RequestOf(setup, base))
    && (forall n :: 0 <= n < |reqs| - 1 ==>
         && Continues(w, setup.session, n, reqs[n])
         && reqs[n + 1] == RequestOf(setup, reqs[n].messages + Added(w, setup.session, n, reqs[n])))
  }

  function Told(w: World, session: string, reqs: seq<CompletionRequest>): seq<TurnEvent>
  {
    if reqs == [] then []
    else Told(w, session, reqs[..|reqs| - 1]) + Said(w, session, |reqs| - 1, reqs[|reqs| - 1])
  }

  /** What round `n` leaves in working memory: nothing when its stream failed, else the
      assistant's message and, when it goes on, the tool results. */
  function KeptOf(w: World, session: string, n: nat, req: CompletionRequest): seq<ChatMessage>
  {
    var reply := w.llm(n, req);
    if reply.Err? || Heard(w, session, reply.value).broken.Some? then []
    else
      var a := Heard(w, session, reply.value).assembly;
      [AssistantMessage(a)] + if a.stop == CallTools then Results(w, n, a.calls) else []
  }

  function Kept(w: World, session: string, reqs: seq<CompletionRequest>): seq<ChatMessage>
  {
    if reqs == [] then []
    else Kept(w, session, reqs[..|reqs| - 1]) + KeptOf(w, session, |reqs| - 1, reqs[|reqs| - 1])
  }

  function Emits(events: seq<TurnEvent>): seq<SinkCall>
  {
    seq(|events|, i requires 0 <= i < |events| => Emit(events[i]))
  }

  /** Nothing terminal, then one terminal event, then one finish. */
  predicate OneEnding(trace: seq<SinkCall>)
  {
    var k := |trace| - 2;
    && k >= 0 && trace[k + 1] == Finish
    && trace[k].Emit? && Terminal(trace[k].event)
    && forall i :: 0 <= i < k ==> trace[i].Emit? && !Terminal(trace[i].event)
  }

  /** What is told before the ending never ends the turn. */
  lemma {:induction false} ToldIsOngoing(w: World, session: string, reqs: seq<CompletionRequest>)
    ensures Ongoing(Told(w, session, reqs))
  {
    if reqs != [] {
      var n := |reqs| - 1;
      ToldIsOngoing(w, session, reqs[..n]);
      var reply := w.llm(n, reqs[n]);
      if reply.Ok? {
        ReadTruthful(w.parse, session, BLANK, reply.value);
      }
    }
  }

  lemma TraceHasOneEnding(events: seq<TurnEvent>, e: TurnEvent)
    requires Ongoing(events) && Terminal(e)
    ensures OneEnding(Emits(events) + [Emit(e)] + [Finish])
  {
  }

  /** The tool calls of one round, in order. */
  method RunTools(w: World, n: nat, session: string, calls: seq<ToolCall>)
    returns (messages: seq<ChatMessage>, events: seq<TurnEvent>)
    ensures messages == Results(w, n, calls) && events == ResultEvents(w, n, session, calls)
  {
    messages, events := [], [];
    for i := 0 to |calls|
      invariant messages == Results(w, n, calls)[..i] && events == ResultEvents(w, n, session, calls)[..i]
    {
      var tc := calls[i];
      var out;
      if MEMORY_TOOL <= tc.name {
        out := w.capture(n, i, tc);
      } else {
        out := w.bus(n, i, tc);
      }
      events := events + [ToolResult(session, tc.name, out.text, out.isError)];
      messages := messages + [ToolMessage(tc.id, out.text)];
    }
  }

  /** The history is what the next request, if there is one, has to carry. */
  ghost predicate Ready(w: World, setup: Setup, base: seq<ChatMessage>, reqs: seq<CompletionRequest>,
                        history: seq<ChatMessage>)
  {
    && Rounds(w, setup, base, reqs)
    && (reqs == [] ==> history == base)
    && (reqs != [] ==>
         var n := |reqs| - 1;
         Continues(w, setup.session, n, reqs[n]) && history == reqs[n].messages + Added(w, setup.session, n, reqs[n]))
  }

  /** What was shown and what was kept are those of the rounds. */
  predicate Recorded(w: World, session: string, reqs: seq<CompletionRequest>, told: seq<TurnEvent>,
                     kept: seq<ChatMessage>)
  {
    told == Told(w, session, reqs) && kept == Kept(w, session, reqs)
  }

  /** One more request on a conversation. */
  lemma OneMoreRound(w: World, setup: Setup, base: seq<ChatMessage>, reqs: seq<CompletionRequest>,
                     history: seq<ChatMessage>)
    requires Ready(w, setup, base, reqs, history)
    ensures var req := RequestOf(setup, history);
            && Rounds(w, setup, base, reqs + [req])
            && (forall told, kept :: Recorded(w, setup.session, reqs, told, kept) ==>
                 Recorded(w, setup.session, reqs + [req],
                          told + Said(w, setup.session, |reqs|, req), kept + KeptOf(w, setup.session, |reqs|, req)))
            && (Continues(w, setup.session, |reqs|, req) ==>
                 Ready(w, setup, base, reqs + [req], history + Added(w, setup.session, |reqs|, req)))
  {
    var next := reqs + [RequestOf(setup, history)];
    assert next[..|reqs|] == reqs;
    forall n | 0 <= n < |next| - 1
      ensures Continues(w, setup.session, n, next[n])
      ensures next[n + 1] == RequestOf(setup, next[n].messages + Added(w, setup.session, n, next[n]))
    {
      if n < |reqs| - 1 {
        assert next[n] == reqs[n] && next[n + 1] == reqs[n + 1];
      }
    }
  }

  /** One pass of the tool loop: what is added to the history, or how the turn
      ends. */
  method RunRound(w: World, session: string, n: nat, req: CompletionRequest)
    returns (said: seq<TurnEvent>, kept: seq<ChatMessage>, outcome: Result<seq<ChatMessage>, TurnEvent>)
    ensures said == Said(w, session, n, req)
    ensures kept == KeptOf(w, session, n, req)
    ensures outcome.Ok? <==> Continues(w, session, n, req)
    ensures outcome.Ok? ==> outcome.value == Added(w, session, n, req)
    ensures outcome.Err? ==> outcome.error == Ending(w, session, n, req)
  {
    var reply := w.llm(n, req);
    if reply.Err? {
      return [], [], Err(Error("llm stream: " + reply.error));
    }
    var heard := ReadStream(w.parse, session, reply.value);
    var a := heard.assembly;
    said := a.emitted;
    if heard.broken.Some? {
      return said, [], Err(Error("stream: " + heard.broken.value));
    }
    var added := [AssistantMessage(a)];
    if a.stop != CallTools {
      return said, added, Err(Done(session, StopName(a.stop), a.usage.inputTokens, a.usage.outputTokens));
    }
    var messages, events := RunTools(w, n, session, a.calls);
    return said + events, added + messages, Ok(added + messages);
  }

  /** The turn ended as its last round says, with one that did not go on or with
      the last one allowed. */
  ghost predicate Ended(w: World, setup: Setup, reqs: seq<CompletionRequest>, end: TurnEvent)
  {
    var n := |reqs| - 1;
    && n >= 0
    && end == Ending(w, setup.session, n, reqs[n])
    && (Continues(w, setup.session, n, reqs[n]) ==> |reqs| == 8)
  }

  /** The tool loop: rounds until one ends the turn, eight at most. */
  method Converse(w: World, setup: Setup, base: seq<ChatMessage>)
    returns (told: seq<TurnEvent>, kept: seq<ChatMessage>, end: TurnEvent, reqs: seq<CompletionRequest>)
    ensures 1 <= |reqs| <= MAX_LOOPS
    ensures Rounds(w, setup, base, reqs)
    ensures Recorded(w, setup.session, reqs, told, kept)
    ensures Ended(w, setup, reqs, end)
  {
    var history, loopCount := base, 0;
    told, kept, reqs := [], [], [];
    while true
      invariant loopCount == |reqs| <= MAX_LOOPS
      invariant Ready(w, setup, base, reqs, history)
      invariant Recorded(w, setup.session, reqs, told, kept)
      decreases MAX_LOOPS - loopCount
    {
      loopCount := loopCount + 1;
      if loopCount > MAX_LOOPS {
        end := Error("tool-use loop budget exhausted");
        return;
      }
      var n, req := |reqs|, RequestOf(setup, history);
      OneMoreRound(w, setup, base, reqs, history);
      reqs := reqs + [req];
      var said, new_, outcome := RunRound(w, setup.session, n, req);
      told, kept := told + said, kept + new_;
      if outcome.Err? {
        end := outcome.error;
        return;
      }
      history := history + outcome.value;
    }
  }

  /** What a turn pushes for one of its messages. */
  function ToConv(m: ChatMessage): ConvMessage
  {
    ConvMessage(
      match m.role case User => "user" case Assistant => "assistant" case Tool => "tool" case System => "system",
      m.content, m.toolUseId)
  }

  function Pushed(ms: seq<ChatMessage>): seq<ConvMessage>
  {
    seq(|ms|, i requires 0 <= i < |ms| => ToConv(ms[i]))
  }

  /** All a turn pushes to working memory, when every push succeeds. */
  function PushedBy(w: World, setup: Setup, userMessage: string, reqs: seq<CompletionRequest>): seq<ConvMessage>
  {
    Pushed([UserMessage(userMessage)] + Kept(w, setup.session, reqs))
  }

  /** What ends a turn before its first round. */
  function NotStarted(setup: Setup): Option<TurnEvent>
  {
    if setup.rejected.Some? then Some(Error(setup.rejected.value))
    else if setup.noModel.Some? then Some(Error("llm init: " + setup.noModel.value))
    else if setup.recent.Err? then Some(Error("conv_recent: " + setup.recent.error))
    else None
  }

  /** A turn, for every model, every tool and every start: at most eight completion
      requests, one ending, last but for one finish; what was shown, what was asked
      and how it ended are those of the rounds. */
  method HandleChatSend(w: World, setup: Setup, userMessage: string)
    returns (trace: seq<SinkCall>, pushed: seq<ConvMessage>, reqs: seq<CompletionRequest>)
    ensures |reqs| <= 8 && OneEnding(trace)
    ensures NotStarted(setup).Some? ==> reqs == [] && pushed == [] && trace == [Emit(NotStarted(setup).value), Finish]
    ensures setup.rejected.Some? ==> trace[0] == Emit(Error(setup.rejected.value))
    ensures setup.rejected.None? && setup.noModel.Some? ==> trace[0] == Emit(Error("llm init: " + setup.noModel.value))
    ensures setup.rejected.None? && setup.noModel.None? && setup.recent.Err? ==>
              trace[0] == Emit(Error("conv_recent: " + setup.recent.error))
    ensures setup.rejected.None? && setup.noModel.None? && setup.recent.Ok? ==> reqs != []
    ensures NotStarted(setup).None? ==>
              && Rounds(w, setup, History(setup.recent.value) + [UserMessage(userMessage)], reqs)
              && trace == Emits(Told(w, setup.session, reqs)) + [trace[|trace| - 2]] + [Finish]
              && Ended(w, setup, reqs, trace[|trace| - 2].event)
              && pushed == PushedBy(w, setup, userMessage, reqs)
  {
    if setup.rejected.Some? { return [Emit(Error(setup.rejected.value)), Finish], [], []; }
    if setup.noModel.Some? { return [Emit(Error("llm init: " + setup.noModel.value)), Finish], [], []; }
    if setup.recent.Err? { return [Emit(Error("conv_recent: " + setup.recent.error)), Finish], [], []; }
    var history := History(setup.recent.value) + [UserMessage(userMessage)];
    var told, kept, end;
    told, kept, end, reqs := Converse(w, setup, history);
    ToldIsOngoing(w, setup.session, reqs);
    TraceHasOneEnding(told, end);
    trace := Emits(told) + [Emit(end)] + [Finish];
    pushed := Pushed([UserMessage(userMessage)] + kept);
  }

  // ----- pairing ------------------------------------------------------------

  /** Exactly one tool result per tool call, in order and with its id. */
  predicate Matching(calls: seq<ToolCall>, results: seq<ChatMessage>)
  {
    && |results| == |calls|
    && forall i :: 0 <= i < |calls| ==> results[i].role == Tool && results[i].toolUseId == Some(calls[i].id)
  }

  predicate FirstAnswered(ms: seq<ChatMessage>)
    requires ms != []
  {
    var k := 1 + |ms[0].toolCalls|;
    ms[0].role == Assistant && k <= |ms| && Matching(ms[0].toolCalls, ms[1..k])
  }

  /** Every assistant message is answered before the next one. */
  predicate Answered(ms: seq<ChatMessage>)
    decreases |ms|
  {
    ms != [] ==> FirstAnswered(ms) && Answered(ms[1 + |ms[0].toolCalls|..])
  }

  lemma AnsweredRound(a: Assembly, results: seq<ChatMessage>)
    requires Matching(a.calls, results)
    ensures Answered([AssistantMessage(a)] + results)
  {
    var ms := [AssistantMessage(a)] + results;
    assert ms[1 + |a.calls|..] == [] && ms[1..1 + |a.calls|] == results;
  }

  /** The first exchange and the rest. */
  lemma AnsweredCons(ms: seq<ChatMessage>, k: nat, rest: seq<ChatMessage>)
    requires ms != [] && k == 1 + |ms[0].toolCalls| <= |ms| && rest == ms[k..]
    ensures Answered(ms) <==> FirstAnswered(ms) && Answered(rest)
  {
  }

  lemma FirstAnsweredConcat(x: seq<ChatMessage>, y: seq<ChatMessage>, k: nat)
    requires x != [] && k == 1 + |x[0].toolCalls| <= |x|
    ensures FirstAnswered(x + y) <==> FirstAnswered(x)
    ensures (x + y)[k..] == x[k..] + y
  {
    assert (x + y)[1..k] == x[1..k];
  }

  lemma {:induction false} AnsweredConcat(x: seq<ChatMessage>, y: seq<ChatMessage>)
    requires Answered(x) && Answered(y)
    ensures Answered(x + y)
    decreases |x|
  {
    if x == [] {
      assert x + y == y;
    } else {
      var k := 1 + |x[0].toolCalls|;
      FirstAnsweredConcat(x, y, k);
      AnsweredConcat(x[k..], y);
      AnsweredCons(x + y, k, x[k..] + y);
    }
  }

  /** In every completion request of a turn, what the turn has added so far is
      answered. */
  lemma {:induction false} RequestsAreAnswered(w: World, setup: Setup, base: seq<ChatMessage>,
                                               reqs: seq<CompletionRequest>, n: nat)
    requires Rounds(w, setup, base, reqs) && n < |reqs|
    ensures base <= reqs[n].messages && Answered(reqs[n].messages[|base|..])
  {
    if n == 0 {
      assert base[|base|..] == [];
    } else {
      RequestsAreAnswered(w, setup, base, reqs, n - 1);
      var before, added := reqs[n - 1].messages, Added(w, setup.session, n - 1, reqs[n - 1]);
      AddedIsAnswered(w, setup.session, n - 1, reqs[n - 1]);
      AnsweredConcat(before[|base|..], added);
      assert reqs[n].messages == before + added;
      assert (before + added)[|base|..] == before[|base|..] + added;
    }
  }

  lemma AddedIsAnswered(w: World, session: string, n: nat, req: CompletionRequest)
    requires Continues(w, session, n, req)
    ensures Answered(Added(w, session, n, req))
  {
    var a := Heard(w, session, w.llm(n, req).value).assembly;
    AnsweredRound(a, Results(w, n, a.calls));
  }

  // ----- whole requests, with what earlier turns left -----------------------

  /** Like `Answered`, with user and system messages between the exchanges. */
  predicate Coherent(ms: seq<ChatMessage>)
    decreases |ms|
  {
    ms != [] ==>
      if ms[0].role == User || ms[0].role == System then Coherent(ms[1..])
      else FirstAnswered(ms) && Coherent(ms[1 + |ms[0].toolCalls|..])
  }

  lemma {:induction false} AnsweredIsCoherent(ms: seq<ChatMessage>)
    requires Answered(ms)
    ensures Coherent(ms)
    decreases |ms|
  {
    if ms != [] {
      AnsweredIsCoherent(ms[1 + |ms[0].toolCalls|..]);
    }
  }

  predicate NoToolCalls(ms: seq<ChatMessage>)
  {
    forall i :: 0 <= i < |ms| ==> ms[i].toolCalls == []
  }

  predicate NoToolResults(ms: seq<ChatMessage>)
  {
    forall i :: 0 <= i < |ms| ==> ms[i].role != Tool
  }

  /** A message that has lost its tool calls stands alone: it is in order exactly
      when it is not a tool result. */
  lemma CoherentAlone(m: ChatMessage, rest: seq<ChatMessage>)
    requires m.toolCalls == []
    ensures Coherent([m] + rest) <==> m.role != Tool && Coherent(rest)
  {
    var ms := [m] + rest;
    assert ms[0] == m && ms[1..] == rest && ms[1..1] == [];
  }

  /** In front of any messages, those read back are in order exactly when no tool
      result is among them and the others are in order. */
  lemma {:induction false} CoherentAfter(old_: seq<ChatMessage>, ms: seq<ChatMessage>)
    requires NoToolCalls(old_)
    ensures Coherent(old_ + ms) <==> NoToolResults(old_) && Coherent(ms)
    decreases |old_|
  {
    if old_ == [] {
      assert old_ + ms == ms;
    } else {
      var m, rest := old_[0], old_[1..];
      assert old_ + ms == [m] + (rest + ms);
      CoherentAlone(m, rest + ms);
      CoherentAfter(rest, ms);
      assert forall i :: 0 < i < |old_| ==> old_[i] == rest[i - 1];
      assert forall i :: 0 <= i < |rest| ==> rest[i] == old_[i + 1];
    }
  }

  /** The whole of every completion request of a turn pairs tool calls and results
      exactly when no tool result is among the messages read back from memory. */
  lemma RequestCoherentIff(w: World, setup: Setup, userMessage: string, reqs: seq<CompletionRequest>, n: nat)
    requires setup.recent.Ok? && n < |reqs|
    requires Rounds(w, setup, History(setup.recent.value) + [UserMessage(userMessage)], reqs)
    ensures Coherent(reqs[n].messages) <==>
            forall i :: 0 <= i < |setup.recent.value| ==> setup.recent.value[i].role != "tool"
  {
    var old_ := History(setup.recent.value);
    var base := old_ + [UserMessage(userMessage)];
    RequestsAreAnswered(w, setup, base, reqs, n);
    var added := reqs[n].messages[|base|..];
    AnsweredIsCoherent(added);
    CoherentAlone(UserMessage(userMessage), added);
    assert reqs[n].messages == old_ + ([UserMessage(userMessage)] + added);
    CoherentAfter(old_, [UserMessage(userMessage)] + added);
    forall i | 0 <= i < |old_|
      ensures old_[i].role != Tool <==> setup.recent.value[i].role != "tool"
    {
      assert old_[i] == ConvToChat(setup.recent.value[i]);
    }
  }

  /** The latest `n` messages of a session. */
  function Recent(conv: seq<ConvMessage>, n: nat): seq<ConvMessage>
  {
    if |conv| <= n then conv else conv[|conv| - n..]
  }

  /** A message comes back from memory as it was, without its tool calls. */
  lemma RoundTrip(m: ChatMessage)
    ensures ConvToChat(ToConv(m)) == m.(toolCalls := [])
  {
  }

  /** So what a later turn reads of any past, through a window of any size, is in
      order exactly when the window has no tool result in it, wherever it cuts. */
  lemma ReadBackCoherentIff(past: seq<ChatMessage>, n: nat)
    ensures Coherent(History(Recent(Pushed(past), n))) <==>
            forall i :: 0 <= i < |past| && |past| - n <= i ==> past[i].role != Tool
  {
    var k := if |past| <= n then 0 else |past| - n;
    var seen := History(Recent(Pushed(past), n));
    assert |seen| == |past| - k;
    forall i | 0 <= i < |seen|
      ensures seen[i] == past[k + i].(toolCalls := [])
    {
      RoundTrip(past[k + i]);
    }
    CoherentAfter(seen, []);
    assert seen + [] == seen;
    forall i | k <= i < |past|
      ensures seen[i - k].role == past[i].role
    {
    }
  }

  /** In a conversation in order there are tool results exactly when there are tool
      calls. */
  lemma {:induction false} ResultsIffCalls(ms: seq<ChatMessage>)
    requires Coherent(ms) && forall i :: 0 <= i < |ms| && ms[i].role != Assistant ==> ms[i].toolCalls == []
    ensures NoToolResults(ms) <==> NoToolCalls(ms)
    decreases |ms|
  {
    if ms != [] {
      if ms[0].role == Assistant && ms[0].toolCalls != [] {
        var k := 1 + |ms[0].toolCalls|;
        assert ms[1..k][0] == ms[1] && ms[1].role == Tool;
      } else {
        assert ms[1..1 + |ms[0].toolCalls|] == [];
        ResultsIffCalls(ms[1..]);
        assert forall i :: 0 < i < |ms| ==> ms[i] == ms[1..][i - 1];
        assert forall i :: 0 <= i < |ms| - 1 ==> ms[1..][i] == ms[i + 1];
      }
    }
  }

  /** As long as the window holds the whole past, its pairing survives into the next
      turn exactly when no tool was called in it. */
  lemma PairingSurvivesIff(past: seq<ChatMessage>, n: nat)
    requires Coherent(past) && forall i :: 0 <= i < |past| && past[i].role != Assistant ==> past[i].toolCalls == []
    requires |past| <= n
    ensures Coherent(History(Recent(Pushed(past), n))) <==> NoToolCalls(past)
  {
    ReadBackCoherentIff(past, n);
    ResultsIffCalls(past);
  }

  // ----- two turns ----------------------------------------------------------

  /** The place of the `i`-th tool result of round `k` among what the rounds leave. */
  function KeptAt(w: World, session: string, reqs: seq<CompletionRequest>, k: nat, i: nat): nat
    requires k < |reqs|
  {
    |Kept(w, session, reqs[..k])| + (1 + i)
  }

  lemma {:induction false} KeptPrefix(w: World, session: string, reqs: seq<CompletionRequest>, k: nat)
    requires k <= |reqs|
    ensures Kept(w, session, reqs[..k]) <= Kept(w, session, reqs)
  {
    if k == |reqs| {
      assert reqs[..k] == reqs;
    } else {
      var front := reqs[..|reqs| - 1];
      assert front[..k] == reqs[..k];
      KeptPrefix(w, session, front, k);
    }
  }

  /** The calls of a round that goes on. */
  function CallsOf(w: World, session: string, k: nat, req: CompletionRequest): seq<ToolCall>
    requires Continues(w, session, k, req)
  {
    Heard(w, session, w.llm(k, req).value).assembly.calls
  }

  lemma KeptOfResult(w: World, session: string, k: nat, req: CompletionRequest, i: nat)
    requires Continues(w, session, k, req) && i < |CallsOf(w, session, k, req)|
    ensures 1 + i < |KeptOf(w, session, k, req)| && KeptOf(w, session, k, req)[1 + i].role == Tool
  {
    assert KeptOf(w, session, k, req)[1 + i] == Results(w, k, CallsOf(w, session, k, req))[i];
  }

  lemma InMiddle(a: seq<ChatMessage>, b: seq<ChatMessage>, all: seq<ChatMessage>, i: nat)
    requires a + b <= all && i < |b|
    ensures |a| + i < |all| && all[|a| + i] == b[i]
  {
    assert (a + b)[|a| + i] == b[i];
  }

  lemma KeptResult(w: World, session: string, reqs: seq<CompletionRequest>, k: nat, i: nat, p: nat)
    requires k < |reqs| && Continues(w, session, k, reqs[k]) && i < |CallsOf(w, session, k, reqs[k])|
    requires p == KeptAt(w, session, reqs, k, i)
    ensures p < |Kept(w, session, reqs)| && Kept(w, session, reqs)[p].role == Tool
  {
    var upTo := reqs[..k + 1];
    assert upTo[..k] == reqs[..k] && upTo[k] == reqs[k];
    var before, here := Kept(w, session, reqs[..k]), KeptOf(w, session, k, reqs[k]);
    assert Kept(w, session, upTo) == before + here;
    KeptOfResult(w, session, k, reqs[k], i);
    KeptPrefix(w, session, reqs, k + 1);
    InMiddle(before, here, Kept(w, session, reqs), 1 + i);
  }

  lemma PushedAfterUser(u: ChatMessage, kept: seq<ChatMessage>, p: nat)
    requires p < |kept| && kept[p].role == Tool
    ensures 1 + p < |Pushed([u] + kept)| && Pushed([u] + kept)[1 + p].role == "tool"
  {
    assert ([u] + kept)[1 + p] == kept[p];
  }

  lemma InWindow(conv: seq<ConvMessage>, n: nat, p: nat)
    requires p < |conv| && |conv| - n <= p
    ensures exists i :: 0 <= i < |Recent(conv, n)| && Recent(conv, n)[i] == conv[p]
  {
    var i := if |conv| <= n then p else p - (|conv| - n);
    assert Recent(conv, n)[i] == conv[p];
  }

  /** After a turn with a round that called a tool, as long as one of its results is in
      the window, no request of any later turn of the session is in order, whatever
      was in memory before and whatever came after. */
  lemma ToolTurnSpoilsLaterTurns(w: World, setup: Setup, userMessage: string, reqs: seq<CompletionRequest>,
                                 k: nat, i: nat,
                                 before: seq<ConvMessage>, after: seq<ConvMessage>, window: nat,
                                 w2: World, setup2: Setup, userMessage2: string, reqs2: seq<CompletionRequest>, n: nat)
    requires k < |reqs| && Continues(w, setup.session, k, reqs[k]) && i < |CallsOf(w, setup.session, k, reqs[k])|
    requires setup2.recent == Ok(Recent(before + PushedBy(w, setup, userMessage, reqs) + after, window))
    requires |PushedBy(w, setup, userMessage, reqs)| + |after| - window <= 1 + KeptAt(w, setup.session, reqs, k, i)
    requires n < |reqs2|
    requires Rounds(w2, setup2, History(setup2.recent.value) + [UserMessage(userMessage2)], reqs2)
    ensures !Coherent(reqs2[n].messages)
  {
    var p := KeptAt(w, setup.session, reqs, k, i);
    KeptResult(w, setup.session, reqs, k, i, p);
    PushedAfterUser(UserMessage(userMessage), Kept(w, setup.session, reqs), p);
    ResultInWindow(before, PushedBy(w, setup, userMessage, reqs), after, window, 1 + p);
    RequestCoherentIff(w2, setup2, userMessage2, reqs2, n);
  }

  lemma ResultInWindow(before: seq<ConvMessage>, pushed: seq<ConvMessage>, after: seq<ConvMessage>, window: nat, p: nat)
    requires p < |pushed| && pushed[p].role == "tool" && |pushed| + |after| - window <= p
    ensures var seen := Recent(before + pushed + after, window);
            exists i :: 0 <= i < |seen| && seen[i].role == "tool"
  {
    var conv := before + pushed + after;
    assert conv[|before| + p] == pushed[p];
    InWindow(conv, window, |before| + p);
  }

  // ----- rounds and what they are made of -----------------------------------

  /** A reply that is a complete message of the provider leads to another round exactly
      when it says it wants tools, and otherwise ends the turn under the name of what it
      says, with its token counts. */
  lemma RoundFollowsProvider(w: World, session: string, n: nat, req: CompletionRequest, es: seq<Event>,
                             cs: seq<Chunk>, stop: Option<string>, usage: Usage)
    requires w.llm(n, req) == Ok(Items(es))
    requires Meaningful(es) == AllEvents(0, cs) + [MessageDelta(stop, Some(usage))]
    ensures Continues(w, session, n, req) <==> stop == Some("tool_use")
    ensures stop != Some("tool_use") ==>
              Ending(w, session, n, req) ==
              Done(session,
                   if stop == Some("end_turn") then "endturn"
                   else if stop == Some("max_tokens") then "maxtokens"
                   else if stop == Some("stop_sequence") then "stopsequence"
                   else "error",
                   usage.inputTokens, usage.outputTokens)
  {
    StreamingAgreesWithBatch(w.parse, session, es, cs, stop, Some(usage));
    var a := Heard(w, session, Items(es)).assembly;
    assert StopMeans(stop, a.stop) && a.usage == usage;
  }

  /** A reply that cannot start or breaks ends the turn with its own message, and the
      eighth round that wants tools with the exhausted budget. */
  lemma EndingOnFailure(w: World, session: string, n: nat, req: CompletionRequest)
    ensures w.llm(n, req).Err? ==> Ending(w, session, n, req) == Error("llm stream: " + w.llm(n, req).error)
    ensures Continues(w, session, n, req) ==> Ending(w, session, n, req) == Error("tool-use loop budget exhausted")
    ensures forall x: seq<Event>, m: string, y: seq<Event> ::
              AllDecodable(x) && w.llm(n, req) == Ok(Items(x + [Undecodable(m)] + y)) ==>
                Ending(w, session, n, req) == Error("stream: " + m)
  {
    forall x: seq<Event>, m: string, y: seq<Event>
      | AllDecodable(x) && w.llm(n, req) == Ok(Items(x + [Undecodable(m)] + y))
      ensures Ending(w, session, n, req) == Error("stream: " + m)
    {
      UndecodableBreaks(w.parse, session, BLANK, x, m, y);
    }
  }

  /** A tool call goes to the memory tier by its name, and to the bus otherwise. */
  lemma RoutedByName(w: World, n: nat, i: nat, c: ToolCall, rest: string)
    ensures c.name == "memory.log_" + rest ==> Output(w, n, i, c) == w.capture(n, i, c)
    ensures !("memory.log_" <= c.name) ==> Output(w, n, i, c) == w.bus(n, i, c)
  {
    assert "memory.log_" <= "memory.log_" + rest;
  }

  /** What the model is told next is what the user was shown: the assistant's message has
      the shown text and the noticed calls, and each tool message the shown output. */
  lemma AddedIsShown(w: World, session: string, n: nat, req: CompletionRequest)
    requires Continues(w, session, n, req)
    ensures var added, said := Added(w, session, n, req), Said(w, session, n, req);
            var calls := added[0].toolCalls;
            && |added| == 1 + |calls| <= 1 + |said|
            && added[0].content == Shown(said[..|said| - |calls|])
            && Announced(calls) == Notices(said[..|said| - |calls|])
            && forall i :: 0 <= i < |calls| ==>
                 var out := Output(w, n, i, calls[i]);
                 && added[1 + i].content == out.text
                 && said[|said| - |calls| + i] == ToolResult(session, calls[i].name, out.text, out.isError)
  {
    var items := w.llm(n, req).value;
    ReadTruthful(w.parse, session, BLANK, items);
    var a := Heard(w, session, items).assembly;
    var said := Said(w, session, n, req);
    assert said[..|said| - |a.calls|] == a.emitted;
  }

  /** Every request of a turn goes to the chosen model under the turn's system prompt and
      session, and carries the history so far: what was read back, the user's message
      and what the rounds have left in working memory. */
  lemma {:induction false} RequestsCarryTheTurn(w: World, setup: Setup, base: seq<ChatMessage>,
                                                reqs: seq<CompletionRequest>, n: nat)
    requires Rounds(w, setup, base, reqs) && n < |reqs|
    ensures reqs[n].model == setup.model && reqs[n].system == setup.system && reqs[n].requestId == setup.session
    ensures reqs[n].messages == base + Kept(w, setup.session, reqs[..n])
  {
    if n == 0 {
      assert base + [] == base;
    } else {
      var m := n - 1;
      RequestsCarryTheTurn(w, setup, base, reqs, m);
      assert reqs[n] == RequestOf(setup, reqs[m].messages + Added(w, setup.session, m, reqs[m]));
      assert reqs[..n][..m] == reqs[..m] && reqs[..n][m] == reqs[m];
      KeptIsAdded(w, setup.session, m, reqs[m]);
      Reassociate(base, Kept(w, setup.session, reqs[..m]), Added(w, setup.session, m, reqs[m]));
    }
  }

  lemma KeptIsAdded(w: World, session: string, n: nat, req: CompletionRequest)
    requires Continues(w, session, n, req)
    ensures KeptOf(w, session, n, req) == Added(w, session, n, req)
  {
  }

  /** The user's words stand in every request, behind the messages read back as they were
      stored. */
  lemma UserIsHeard(w: World, setup: Setup, userMessage: string, reqs: seq<CompletionRequest>, n: nat)
    requires setup.recent.Ok? && n < |reqs|
    requires Rounds(w, setup, History(setup.recent.value) + [UserMessage(userMessage)], reqs)
    ensures var recent, ms := setup.recent.value, reqs[n].messages;
            && |ms| > |recent| && ms[|recent|] == ChatMessage(User, userMessage, None, [])
            && forall i :: 0 <= i < |recent| ==>
                 ms[i].content == recent[i].content && ms[i].toolUseId == recent[i].toolUseId
  {
    RequestsCarryTheTurn(w, setup, History(setup.recent.value) + [UserMessage(userMessage)], reqs, n);
  }

  /** A round that ends the turn still shows what it streamed; its message is kept unless
      the stream could not start or broke. */
  lemma LastRoundIsShown(w: World, session: string, n: nat, req: CompletionRequest)
    requires !Continues(w, session, n, req)
    ensures w.llm(n, req).Err? ==> Said(w, session, n, req) == [] && KeptOf(w, session, n, req) == []
    ensures w.llm(n, req).Ok? ==>
              var r := Heard(w, session, w.llm(n, req).value);
              && Shown(Said(w, session, n, req)) == r.assembly.text
              && Notices(Said(w, session, n, req)) == Announced(r.assembly.calls)
              && KeptOf(w, session, n, req) ==
                 if r.broken.Some? then [] else [ChatMessage(Assistant, r.assembly.text, None, r.assembly.calls)]
  {
    if w.llm(n, req).Ok? {
      var items := w.llm(n, req).value;
      ReadTruthful(w.parse, session, BLANK, items);
      var a := Heard(w, session, items).assembly;
      assert a.emitted + [] == a.emitted;
      assert [AssistantMessage(a)] + [] == [AssistantMessage(a)];
    }
  }

  /** All that a turn shows goes to its own session. */
  lemma {:induction false} ToldInSession(w: World, session: string, reqs: seq<CompletionRequest>)
    ensures InSession(Told(w, session, reqs), session)
  {
    if reqs != [] {
      var n := |reqs| - 1;
      ToldInSession(w, session, reqs[..n]);
      if w.llm(n, reqs[n]).Ok? {
        ReadInSession(w.parse, session, BLANK, w.llm(n, reqs[n]).value);
      }
    }
  }
}
