/** The batched reply sink (daimon-gateway reply_sink.rs). */
module ReplySink {
  import opened Text
  import opened Llm
  import opened Streaming
  import opened Chat

  datatype Buffer = Buffer(buf: string, hadError: bool)

  const WARNING := "\U{26a0}\U{fe0f} "

  const NO_REPLY := "(no reply)"

  function Buffered(b: Buffer, e: TurnEvent): Buffer
  {
    match e
    case TokenDelta(_, content) => b.(buf := b.buf + content)
    case Error(message) => Buffer(b.buf + (if b.buf == "" then "" else "\n") + (WARNING + message), true)
    case _ => b
  }

  function BufferAll(b: Buffer, events: seq<TurnEvent>): Buffer
  {
    if events == [] then b else Buffered(BufferAll(b, events[..|events| - 1]), events[|events| - 1])
  }

  /** The one message a turn with these events comes to. */
  function Coalesced(events: seq<TurnEvent>): string
  {
    var text := BufferAll(Buffer("", false), events).buf;
    if Blank(text) then NO_REPLY else text
  }

  lemma BufferSnoc(b: Buffer, events: seq<TurnEvent>, e: TurnEvent)
    ensures BufferAll(b, events + [e]) == Buffered(BufferAll(b, events), e)
  {
    assert (events + [e])[..|events|] == events;
  }

  /** Without an error the message is the streamed text. */
  lemma {:induction false} OngoingIsShown(events: seq<TurnEvent>)
    requires Ongoing(events)
    ensures BufferAll(Buffer("", false), events) == Buffer(Shown(events), false)
  {
    if events != [] {
      OngoingIsShown(events[..|events| - 1]);
      var e := events[|events| - 1];
      assert !Terminal(e);
      assert Shown(events[..|events| - 1]) + "" == Shown(events[..|events| - 1]);
    }
  }

  /** What the reply to a turn is, by how the turn ended: the text shown, with a
      placeholder for none; or, behind it on a line of its own, the marked error. */
  lemma ReplyOfTurn(events: seq<TurnEvent>, end: TurnEvent)
    requires Ongoing(events) && Terminal(end)
    ensures end.Done? ==> Coalesced(events + [end]) == if Blank(Shown(events)) then "(no reply)" else Shown(events)
    ensures end.Error? ==>
              Coalesced(events + [end]) ==
              (if Shown(events) == "" then "" else Shown(events) + "\n") + ("\U{26a0}\U{fe0f} " + end.message)
  {
    BufferSnoc(Buffer("", false), events, end);
    OngoingIsShown(events);
    if end.Error? {
      var before := Shown(events) + if Shown(events) == "" then "" else "\n";
      WarningIsVisible(before, end.message);
      assert Shown(events) == "" ==> Shown(events) + "" == "";
    }
  }

  lemma WarningIsVisible(text: string, message: string)
    ensures !Blank(text + (WARNING + message))
  {
    assert (text + (WARNING + message))[|text|] == '\U{26a0}';
  }

  /** An emitted error can never leave a blank buffer, so a turn that failed is
      never swallowed. */
  lemma ErrorIsVisible(b: Buffer, e: TurnEvent)
    requires b.hadError ==> !Blank(b.buf)
    ensures Buffered(b, e).hadError ==> !Blank(Buffered(b, e).buf)
  {
    match e
    case Error(message) => WarningIsVisible(b.buf + (if b.buf == "" then "" else "\n"), message);
    case TokenDelta(_, content) =>
      if b.hadError {
        var i :| 0 <= i < |b.buf| && !IsWhitespace(b.buf[i]);
        assert (b.buf + content)[i] == b.buf[i];
      }
    case _ =>
  }

  /** After any events at all on a fresh buffer, an error among them shows. */
  lemma {:induction false} FailureIsVisible(events: seq<TurnEvent>)
    ensures var b := BufferAll(Buffer("", false), events);
            && (b.hadError <==> exists i :: 0 <= i < |events| && events[i].Error?)
            && (b.hadError ==> !Blank(b.buf))
  {
    if events != [] {
      var front, last := events[..|events| - 1], events[|events| - 1];
      FailureIsVisible(front);
      ErrorIsVisible(BufferAll(Buffer("", false), front), last);
      assert forall i :: 0 <= i < |front| ==> front[i] == events[i];
      assert last.Error? ==> events[|events| - 1].Error?;
    }
  }

  /** The sink; `sent` is what its channel has been given. */
  class BufferSink {
    var buf: string
    var hadError: bool
    var sent: seq<string>

    function State(): Buffer
      reads this
    {
      Buffer(buf, hadError)
    }

    /** Holds until the turn is finished. */
    predicate Open()
      reads this
    {
      hadError ==> !Blank(buf)
    }

    constructor ()
      ensures Open() && State() == Buffer("", false) && sent == []
    {
      buf, hadError, sent := "", false, [];
    }

    method Emit(e: TurnEvent)
      requires Open()
      modifies this
      ensures Open() && State() == Buffered(old(State()), e) && sent == old(sent)
    {
      ErrorIsVisible(State(), e);
      match e {
        case TokenDelta(_, content) =>
          buf := buf + content;
        case Error(message) =>
          hadError := true;
          if buf != "" {
            buf := buf + "\n";
          }
          buf := buf + (WARNING + message);
        case _ =>
      }
    }

    /** Exactly one message; the silent return is not reached on an open sink.  A
        sink that had an error is spent. */
    method Finish()
      requires Open()
      modifies this
      ensures sent == old(sent) + [if Blank(old(buf)) then NO_REPLY else old(buf)]
      ensures buf == "" && hadError == old(hadError)
      ensures Open() <==> !hadError
    {
      var text := buf;
      buf := "";
      if Blank(text) {
        if hadError {
          return;
        }
        text := NO_REPLY;
      }
      sent := sent + [text];
    }
  }

  function Events(trace: seq<SinkCall>): seq<TurnEvent>
    requires forall i :: 0 <= i < |trace| ==> trace[i].Emit?
  {
    seq(|trace|, i requires 0 <= i < |trace| => trace[i].event)
  }

  lemma EventsStep(trace: seq<SinkCall>, i: nat)
    requires i < |trace| && forall k :: 0 <= k < |trace| ==> trace[k].Emit?
    ensures BufferAll(Buffer("", false), Events(trace[..i + 1])) ==
            Buffered(BufferAll(Buffer("", false), Events(trace[..i])), trace[i].event)
  {
    assert Events(trace[..i + 1]) == Events(trace[..i]) + [trace[i].event];
    BufferSnoc(Buffer("", false), Events(trace[..i]), trace[i].event);
  }

  method DeliverEvents(sink: BufferSink, calls: seq<SinkCall>)
    requires sink.State() == Buffer("", false)
    requires forall k :: 0 <= k < |calls| ==> calls[k].Emit?
    modifies sink
    ensures sink.Open() && sink.State() == BufferAll(Buffer("", false), Events(calls))
    ensures sink.sent == old(sink.sent)
  {
    for i := 0 to |calls|
      invariant sink.Open() && sink.State() == BufferAll(Buffer("", false), Events(calls[..i]))
      invariant sink.sent == old(sink.sent)
    {
      EventsStep(calls, i);
      sink.Emit(calls[i].event);
    }
    assert calls[..|calls|] == calls;
  }

  /** A turn's calls on a fresh sink: one channel send, of the coalesced text. */
  method Deliver(sink: BufferSink, trace: seq<SinkCall>)
    requires OneEnding(trace) && sink.State() == Buffer("", false)
    modifies sink
    ensures sink.sent == old(sink.sent) + [Coalesced(Events(trace[..|trace| - 1]))]
  {
    DeliverEvents(sink, trace[..|trace| - 1]);
    sink.Finish();
  }
}

/** Inbound gateway messages (daimon-app gw.rs). */
module Gateway {
  import opened Wrappers
  import opened Text
  import opened Llm
  import opened Chat
  import opened ReplySink
  import opened Approvals

  // ----- reading decisions out of text --------------------------------------

  function TrimStart(s: string): string
  {
    if s != "" && IsWhitespace(s[0]) then TrimStart(s[1..]) else s
  }

  function TrimEnd(s: string): string
  {
    if s != "" && IsWhitespace(s[|s| - 1]) then TrimEnd(s[..|s| - 1]) else s
  }

  function Trim(s: string): string { TrimEnd(TrimStart(s)) }

  function LowerChar(c: char): char
  {
    if 'A' <= c <= 'Z' then (c as int - 'A' as int + 'a' as int) as char else c
  }

  function Lower(s: string): (r: string)
    ensures |r| == |s|
    ensures forall i :: 0 <= i < |s| ==>
              r[i] as int == if 'A' <= s[i] <= 'Z' then s[i] as int + 32 else s[i] as int
  {
    seq(|s|, i requires 0 <= i < |s| => LowerChar(s[i]))
  }

  function FirstSpace(s: string): (k: nat)
    ensures k <= |s| && (k < |s| ==> IsWhitespace(s[k]))
    ensures forall i :: 0 <= i < k ==> !IsWhitespace(s[i])
  {
    if s == "" || IsWhitespace(s[0]) then 0
    else
      var k := 1 + FirstSpace(s[1..]);
      assert forall i :: 0 < i < |s| ==> s[i] == s[1..][i - 1];
      k
  }

  datatype Decision = Decision(approved: bool, id: RowId)

  /** `approve <id>` or `deny <id>`; ids are read by `parseId`. */
  function ParseCommand(parseId: string -> Option<RowId>, text: string): Option<Decision>
  {
    var t := Trim(text);
    var k := FirstSpace(t);
    if k == |t| then None
    else
      var verb, id := Lower(t[..k]), parseId(Trim(t[k + 1..]));
      if verb !in {"approve", "/approve", "deny", "/deny"} || id.None? then None
      else Some(Decision(verb in {"approve", "/approve"}, id.value))
  }

  function StripCr(line: string): string
  {
    if line != "" && line[|line| - 1] == '\r' then line[..|line| - 1] else line
  }

  function StripAll(lines: seq<string>): seq<string>
  {
    if lines == [] then [] else [StripCr(lines[0])] + StripAll(lines[1..])
  }

  function DropEmptyEnd(parts: seq<string>): seq<string>
    requires parts != []
  {
    if parts[|parts| - 1] == "" then parts[..|parts| - 1] else parts
  }

  /** `lines()`: cut at newlines, a final empty line dropped. */
  function LinesOf(text: string): seq<string>
  {
    StripAll(DropEmptyEnd(Split(text, '\n')))
  }

  predicate Quoted(line: string)
  {
    var t := TrimStart(line);
    t != "" && t[0] == '>'
  }

  function Unquoted(lines: seq<string>): seq<string>
  {
    if lines == [] then []
    else (if Quoted(lines[0]) then [] else [lines[0]]) + Unquoted(lines[1..])
  }

  function FirstWord(s: string): string
  {
    var t := TrimStart(s);
    t[..FirstSpace(t)]
  }

  /** A reply that is only a decision; the id comes from what it replies to. */
  function ParseBare(text: string): Option<bool>
  {
    var first := Lower(FirstWord(Join(Unquoted(LinesOf(text)), ' ')));
    if first in {"approve", "/approve", "approved"} then Some(true)
    else if first in {"deny", "/deny", "denied"} then Some(false)
    else None
  }

  lemma StripCrQuoted(line: string)
    ensures Quoted(line) ==> Quoted(StripCr(line))
  {
    if line != "" && line[|line| - 1] == '\r' && Quoted(line) {
      TrimStartShorter(line);
    }
  }

  /** Dropping a trailing whitespace character does not touch the first other one. */
  lemma {:induction false} TrimStartShorter(line: string)
    requires Quoted(line) && IsWhitespace(line[|line| - 1])
    ensures Quoted(line[..|line| - 1])
  {
    if IsWhitespace(line[0]) {
      assert TrimStart(line) == TrimStart(line[1..]);
      assert line[1..][..|line| - 2] == line[..|line| - 1][1..];
      TrimStartShorter(line[1..]);
    }
  }

  lemma DropEmptyEndCons(q: string, tail: seq<string>)
    requires tail != []
    ensures DropEmptyEnd([q] + tail) == [q] + DropEmptyEnd(tail)
  {
    var parts := [q] + tail;
    assert parts[|parts| - 1] == tail[|tail| - 1];
    assert parts[..|parts| - 1] == [q] + tail[..|tail| - 1];
  }

  lemma StripAllCons(q: string, tail: seq<string>)
    ensures StripAll([q] + tail) == [StripCr(q)] + StripAll(tail)
  {
    assert ([q] + tail)[1..] == tail;
  }

  lemma UnquotedCons(q: string, tail: seq<string>)
    requires Quoted(q)
    ensures Unquoted([q] + tail) == Unquoted(tail)
  {
    assert ([q] + tail)[1..] == tail;
  }

  /** What is quoted never decides: a quoted line in front changes nothing. */
  lemma QuoteNeverDecides(q: string, t: string)
    requires '\n' !in q && Quoted(q)
    ensures ParseBare(q + ['\n'] + t) == ParseBare(t)
  {
    SplitCons(q, '\n', t);
    DropEmptyEndCons(q, Split(t, '\n'));
    StripAllCons(q, DropEmptyEnd(Split(t, '\n')));
    StripCrQuoted(q);
    UnquotedCons(StripCr(q), LinesOf(t));
  }

  // ----- which texts decide -------------------------------------------------

  /** A word: no whitespace in it, and not empty. */
  predicate IsWord(v: string)
  {
    v != "" && forall i :: 0 <= i < |v| ==> !IsWhitespace(v[i])
  }

  /** A text with nothing to trim. */
  predicate Trimmed(m: string)
  {
    m != "" && !IsWhitespace(m[0]) && !IsWhitespace(m[|m| - 1])
  }

  lemma {:induction false} TrimStartDrops(pre: string, m: string)
    requires Blank(pre) && (m == "" || !IsWhitespace(m[0]))
    ensures TrimStart(pre + m) == m
  {
    if pre == "" {
      assert pre + m == m;
    } else {
      assert (pre + m)[1..] == pre[1..] + m && (pre + m)[0] == pre[0];
      TrimStartDrops(pre[1..], m);
    }
  }

  lemma {:induction false} TrimEndDrops(m: string, post: string)
    requires Blank(post) && (m == "" || !IsWhitespace(m[|m| - 1]))
    ensures TrimEnd(m + post) == m
  {
    if post == "" {
      assert m + post == m;
    } else {
      var k := |post| - 1;
      assert (m + post)[..|m| + k] == m + post[..k] && (m + post)[|m| + k] == post[k];
      TrimEndDrops(m, post[..k]);
    }
  }

  lemma TrimDrops(pre: string, m: string, post: string)
    requires Blank(pre) && Blank(post) && Trimmed(m)
    ensures Trim(pre + m + post) == m
  {
    assert pre + m + post == pre + (m + post) && (m + post)[0] == m[0];
    TrimStartDrops(pre, m + post);
    TrimEndDrops(m, post);
  }

  lemma {:induction false} TrimStartCuts(s: string) returns (pre: string)
    ensures s == pre + TrimStart(s) && Blank(pre)
    ensures TrimStart(s) == "" || !IsWhitespace(TrimStart(s)[0])
    decreases |s|
  {
    if s != "" && IsWhitespace(s[0]) {
      var rest := TrimStartCuts(s[1..]);
      pre := [s[0]] + rest;
      assert s == [s[0]] + s[1..];
      assert s == pre + TrimStart(s);
    } else {
      pre := "";
      assert s == pre + s;
    }
  }

  lemma {:induction false} TrimEndCuts(s: string) returns (post: string)
    ensures s == TrimEnd(s) + post && Blank(post)
    ensures TrimEnd(s) == "" || (!IsWhitespace(TrimEnd(s)[|TrimEnd(s)| - 1]) && TrimEnd(s)[0] == s[0])
    decreases |s|
  {
    if s != "" && IsWhitespace(s[|s| - 1]) {
      var front := s[..|s| - 1];
      var rest := TrimEndCuts(front);
      post := rest + [s[|s| - 1]];
      assert s == front + [s[|s| - 1]];
      assert s == TrimEnd(s) + post;
    } else {
      post := "";
      assert s == s + post;
    }
  }

  /** Any text is its trimmed core between two blanks. */
  lemma TrimCuts(s: string) returns (pre: string, post: string)
    ensures s == pre + Trim(s) + post && Blank(pre) && Blank(post)
    ensures Trim(s) == "" || Trimmed(Trim(s))
  {
    pre := TrimStartCuts(s);
    post := TrimEndCuts(TrimStart(s));
    assert s == pre + (Trim(s) + post);
  }

  lemma FirstSpaceIs(v: string, c: char, rest: string)
    requires IsWord(v) && IsWhitespace(c)
    ensures FirstSpace(v + [c] + rest) == |v|
  {
    var t := v + [c] + rest;
    assert t[|v|] == c && forall i :: 0 <= i < |v| ==> t[i] == v[i];
  }

  /** Does the word say yes or no, in whatever case? */
  predicate Says(v: string, approved: bool)
  {
    if approved then Lower(v) == "approve" || Lower(v) == "/approve" else Lower(v) == "deny" || Lower(v) == "/deny"
  }

  /** The shape of a command: blanks, a verb, whitespace, an id, blanks. */
  predicate IsCommand(text: string, approved: bool, pre: string, v: string, c: char, gap: string, id: string,
                      post: string)
  {
    && text == pre + (v + [c] + (gap + id)) + post
    && Blank(pre) && Blank(gap) && Blank(post) && IsWhitespace(c)
    && IsWord(v) && Says(v, approved) && Trimmed(id)
  }

  lemma VerbsDiffer(v: string)
    ensures !(Says(v, true) && Says(v, false))
  {
    assert |"approve"| == 7 && |"/approve"| == 8 && |"deny"| == 4 && |"/deny"| == 5;
  }

  /** A text of that shape is read as the decision it says. */
  lemma CommandIsRead(parseId: string -> Option<RowId>, text: string, approved: bool,
                      pre: string, v: string, c: char, gap: string, id: string, post: string)
    requires IsCommand(text, approved, pre, v, c, gap, id, post) && parseId(id).Some?
    ensures ParseCommand(parseId, text) == Some(Decision(approved, parseId(id).value))
  {
    var rest := gap + id;
    var t := v + [c] + rest;
    CoreIsTrimmed(v, c, gap, id, t);
    TrimDrops(pre, t, post);
    FirstSpaceIs(v, c, rest);
    assert t[..|v|] == v && t[|v| + 1..] == rest;
    TrimDrops(gap, id, "");
    assert gap + id + "" == rest;
    VerbsDiffer(v);
  }

  lemma CoreIsTrimmed(v: string, c: char, gap: string, id: string, t: string)
    requires IsWord(v) && Trimmed(id) && t == v + [c] + (gap + id)
    ensures Trimmed(t)
  {
    assert t[0] == v[0] && t[|t| - 1] == id[|id| - 1];
  }

  lemma ParsedVerb(parseId: string -> Option<RowId>, text: string, t: string, k: nat)
    requires ParseCommand(parseId, text).Some? && t == Trim(text) && k == FirstSpace(t)
    ensures k < |t| && IsWhitespace(t[k]) && Says(t[..k], ParseCommand(parseId, text).value.approved)
    ensures parseId(Trim(t[k + 1..])) == Some(ParseCommand(parseId, text).value.id)
  {
  }

  lemma CutInTwo(t: string, k: nat)
    requires k < |t|
    ensures t == t[..k] + [t[k]] + t[k + 1..]
  {
  }

  lemma NothingAfter(s: string)
    ensures s + "" == s
  {
  }

  /** A trimmed text cut at its first whitespace. */
  lemma CutCommand(t: string, k: nat) returns (gap: string)
    requires Trimmed(t) && k == FirstSpace(t) && k < |t|
    ensures t == t[..k] + [t[k]] + (gap + Trim(t[k + 1..])) && Blank(gap)
    ensures IsWord(t[..k]) && Trimmed(Trim(t[k + 1..]))
  {
    var v, c, rest := t[..k], t[k], t[k + 1..];
    var post;
    gap, post := TrimCuts(rest);
    CutInTwo(t, k);
    RestIsTrimmed(t, v, c, rest, gap, Trim(rest), post);
    VerbIsWord(v, k, t);
    NothingAfter(gap + Trim(rest));
  }

  /** And nothing else is read as a decision. */
  lemma ReadIsCommand(parseId: string -> Option<RowId>, text: string)
    returns (pre: string, v: string, c: char, gap: string, id: string, post: string)
    requires ParseCommand(parseId, text).Some?
    ensures IsCommand(text, ParseCommand(parseId, text).value.approved, pre, v, c, gap, id, post)
    ensures parseId(id) == Some(ParseCommand(parseId, text).value.id)
  {
    pre, post := TrimCuts(text);
    var t := Trim(text);
    var k := FirstSpace(t);
    ParsedVerb(parseId, text, t, k);
    gap := CutCommand(t, k);
    v, c, id := t[..k], t[k], Trim(t[k + 1..]);
  }

  lemma VerbIsWord(v: string, k: nat, t: string)
    requires k < |t| && k == FirstSpace(t) && v == t[..k] && Trimmed(t)
    ensures IsWord(v)
  {
  }

  lemma RestIsTrimmed(t: string, v: string, c: char, rest: string, gap: string, id: string, post: string)
    requires Trimmed(t) && t == v + [c] + rest && IsWhitespace(c)
    requires rest == gap + id + post && Blank(gap) && Blank(post) && (id == "" || Trimmed(id))
    ensures Trimmed(id) && post == ""
  {
    assert t[|t| - 1] == if rest == "" then c else rest[|rest| - 1];
    assert post == "" && id == "" ==> rest == gap;
  }

  // Bare replies.

  /** Does the word say yes or no to what it replies to? */
  predicate Replies(v: string, approved: bool)
  {
    Says(v, approved) || Lower(v) == if approved then "approved" else "denied"
  }

  /** The first word of a text is `v`. */
  predicate StartsWithWord(s: string, pre: string, v: string, rest: string)
  {
    s == pre + (v + rest) && Blank(pre) && IsWord(v) && (rest == "" || IsWhitespace(rest[0]))
  }

  lemma FirstWordIs(s: string, pre: string, v: string, rest: string)
    requires StartsWithWord(s, pre, v, rest)
    ensures FirstWord(s) == v
  {
    var t := v + rest;
    assert t[0] == v[0];
    TrimStartDrops(pre, t);
    if rest == "" {
      assert t == v;
      assert FirstSpace(v) == |v|;
    } else {
      assert t == v + [rest[0]] + rest[1..];
      FirstSpaceIs(v, rest[0], rest[1..]);
    }
  }

  lemma FirstWordStarts(s: string) returns (pre: string, rest: string)
    requires FirstWord(s) != ""
    ensures StartsWithWord(s, pre, FirstWord(s), rest)
  {
    pre := TrimStartCuts(s);
    var t := TrimStart(s);
    rest := t[FirstSpace(t)..];
    assert t == FirstWord(s) + rest;
  }

  /** The lines of a reply that are not quoted, as one text. */
  function OwnWords(text: string): string
  {
    Join(Unquoted(LinesOf(text)), ' ')
  }

  lemma RepliesDiffer(v: string)
    ensures !(Replies(v, true) && Replies(v, false))
    ensures Replies(v, true) || Replies(v, false) ==> v != ""
  {
    assert |"approve"| == 7 && |"/approve"| == 8 && |"approved"| == 8;
    assert |"deny"| == 4 && |"/deny"| == 5 && |"denied"| == 6;
  }

  /** A reply decides exactly when the first of its own words says so. */
  lemma BareDecidesIff(text: string, approved: bool)
    ensures ParseBare(text) == Some(approved) <==> Replies(FirstWord(OwnWords(text)), approved)
    ensures forall pre, v, rest :: StartsWithWord(OwnWords(text), pre, v, rest) ==> FirstWord(OwnWords(text)) == v
  {
    RepliesDiffer(FirstWord(OwnWords(text)));
    forall pre, v, rest | StartsWithWord(OwnWords(text), pre, v, rest)
      ensures FirstWord(OwnWords(text)) == v
    {
      FirstWordIs(OwnWords(text), pre, v, rest);
    }
  }

  /** A line is quoted when its first visible character is the quote sign. */
  lemma QuoteSignQuotes(pre: string, c: char, rest: string)
    requires Blank(pre) && !IsWhitespace(c)
    ensures Quoted(pre + ([c] + rest)) <==> c == '>'
  {
    TrimStartDrops(pre, [c] + rest);
  }

  /** And only then: a line that is quoted has only blanks before that sign. */
  lemma QuotedHasSign(line: string) returns (pre: string, rest: string)
    requires Quoted(line)
    ensures Blank(pre) && line == pre + (['>'] + rest)
  {
    pre := TrimStartCuts(line);
    rest := TrimStart(line)[1..];
    assert TrimStart(line) == ['>'] + rest;
  }

  /** Line by line: a quoted line is left out, another one stays, without the carriage
      return before its end. */
  lemma OwnLines(q: string, t: string)
    requires '\n' !in q
    ensures Unquoted(LinesOf(q + ['\n'] + t)) ==
            (if Quoted(StripCr(q)) then [] else [StripCr(q)]) + Unquoted(LinesOf(t))
    ensures Unquoted(LinesOf(q)) == if q == "" || Quoted(StripCr(q)) then [] else [StripCr(q)]
  {
    SplitCons(q, '\n', t);
    DropEmptyEndCons(q, Split(t, '\n'));
    StripAllCons(q, DropEmptyEnd(Split(t, '\n')));
    assert ([StripCr(q)] + LinesOf(t))[1..] == LinesOf(t);
    assert Split(q, '\n') == [q];
    StripAllCons(q, []);
    assert [q] + [] == [q] && [StripCr(q)] + [] == [StripCr(q)];
    assert [StripCr(q)][1..] == [];
    assert q == "" ==> LinesOf(q) == [];
    assert q != "" ==> LinesOf(q) == [StripCr(q)];
  }

  // ----- the handler --------------------------------------------------------

  datatype Actor = Actor(username: string, userId: UserId, roles: seq<string>)

  datatype Inbound = Inbound(channel: string, text: string, session: string, replyTo: Option<string>)

  /** How the database may fail a decision: the update is not made, or it is made and
      the answer is lost. */
  datatype DecideFault = NoFault | NotMade | AnswerLost

  /** What the handler finds out from outside: who sent the message, and which
      approval, if any, the message replies to. */
  datatype Lookups = Lookups(
    identity: Result<Option<Actor>, string>,
    repliedTo: Result<Option<RowId>, string>,
    parseId: string -> Option<RowId>,
    guardConfigured: bool,
    fault: DecideFault,
    now: nat)

  predicate IsApprover(a: Actor) { "approver" in a.roles || "admin" in a.roles }

  /** The decision a message stands for: a bare reply to an approval alert first,
      then an explicit command. */
  function DecisionOf(msg: Inbound, look: Lookups): Option<Decision>
  {
    var bare := ParseBare(msg.text);
    if msg.replyTo.Some? && bare.Some? && look.repliedTo.Ok? && look.repliedTo.value.Some? then
      Some(Decision(bare.value, look.repliedTo.value.value))
    else ParseCommand(look.parseId, msg.text)
  }

  /** What a decision over chat does to the inbox. */
  function DecidedRows(rows: Table, look: Lookups, actor: Actor, d: Decision): Table
  {
    if IsApprover(actor) && look.guardConfigured && look.fault != NotMade then
      DecideRow(rows, d.id, actor.userId, d.approved, look.now)
    else rows
  }

  const NOT_APPROVER := "\U{1f6ab} Not authorized" + ": approving requires the `approver` or `admin` role."

  const NO_GUARD := "internal error" + ": no guard configured"

  const NOT_ENROLLED := " identity is not enrolled with daimon. Ask an admin to bind your handle."

  function Verb(d: Decision): string
  {
    if d.approved then "\U{2705} Approved" else "\U{1f6d1} Denied"
  }

  function Approval(d: Decision, showId: RowId -> string): string { " approval `" + showId(d.id) + "`." }

  function Unfound(d: Decision, showId: RowId -> string): string
  {
    " approval `" + showId(d.id) + "` (already decided, expired, or unknown id)."
  }

  function DecisionReply(rows: Table, look: Lookups, actor: Actor, d: Decision, showId: RowId -> string): string
  {
    if !IsApprover(actor) then NOT_APPROVER
    else if !look.guardConfigured then NO_GUARD
    else if look.fault == NoFault && IsPending(rows, d.id) then Verb(d) + Approval(d, showId)
    else NoPending(d, showId)
  }

  /** The answer to any error of the decision. */
  function NoPending(d: Decision, showId: RowId -> string): string
  {
    "No pending" + Unfound(d, showId)
  }

  lemma FirstCharacter(a: string, b: string)
    requires a != ""
    ensures (a + b)[0] == a[0]
  {
  }

  /** An approver is told that nothing was pending exactly when nothing was or the
      database failed; so the answer is wrong exactly when it failed on a pending row. */
  lemma NoPendingSaidIff(rows: Table, look: Lookups, actor: Actor, d: Decision, showId: RowId -> string)
    ensures DecisionReply(rows, look, actor, d, showId) == NoPending(d, showId) <==>
            IsApprover(actor) && look.guardConfigured && (look.fault != NoFault || !IsPending(rows, d.id))
  {
    FirstCharacter("No pending", Unfound(d, showId));
    FirstCharacter(Verb(d), Approval(d, showId));
    FirstCharacter("\U{1f6ab} Not authorized", ": approving requires the `approver` or `admin` role.");
    FirstCharacter("internal error", ": no guard configured");
  }

  method DecideOverChat(queue: ApprovalQueue, sink: BufferSink, look: Lookups, actor: Actor, d: Decision,
                        session: string, showId: RowId -> string)
    requires queue.Valid() && sink.Open()
    modifies queue, sink
    ensures queue.Valid() && Evolves(old(queue.rows), queue.rows)
    ensures queue.rows == DecidedRows(old(queue.rows), look, actor, d)
    ensures sink.Open() && sink.sent == old(sink.sent) && sink.hadError == old(sink.hadError)
    ensures sink.buf == old(sink.buf) + DecisionReply(old(queue.rows), look, actor, d, showId)
  {
    if !IsApprover(actor) {
      sink.Emit(TokenDelta(session, NOT_APPROVER));
      return;
    }
    if !look.guardConfigured {
      sink.Emit(TokenDelta(session, NO_GUARD));
      return;
    }
    var ok := false;
    if look.fault != NotMade {
      var r := queue.Decide(d.id, actor.userId, d.approved, look.now);
      ok := r.Ok? && look.fault == NoFault;
    }
    var text := if ok then Verb(d) + Approval(d, showId) else NoPending(d, showId);
    sink.Emit(TokenDelta(session, text));
  }

  lemma VisibleStart(a: string, b: string)
    requires a != "" && !IsWhitespace(a[0])
    ensures !Blank(a + b)
  {
    assert (a + b)[0] == a[0];
  }

  lemma ReplyIsVisible(rows: Table, look: Lookups, actor: Actor, d: Decision, showId: RowId -> string)
    ensures !Blank(DecisionReply(rows, look, actor, d, showId))
  {
    var known, unknown := Approval(d, showId), Unfound(d, showId);
    VisibleStart(Verb(d), known);
    VisibleStart("No pending", unknown);
    VisibleStart("\U{1f6ab} Not authorized", ": approving requires the `approver` or `admin` role.");
    VisibleStart("internal error", ": no guard configured");
  }

  method AnswerDecision(queue: ApprovalQueue, sink: BufferSink, look: Lookups, actor: Actor, d: Decision,
                        session: string, showId: RowId -> string)
    requires queue.Valid() && sink.State() == Buffer("", false)
    modifies queue, sink
    ensures queue.Valid() && Evolves(old(queue.rows), queue.rows)
    ensures queue.rows == DecidedRows(old(queue.rows), look, actor, d)
    ensures sink.sent == old(sink.sent) + [DecisionReply(old(queue.rows), look, actor, d, showId)]
  {
    ghost var reply := DecisionReply(queue.rows, look, actor, d, showId);
    ReplyIsVisible(queue.rows, look, actor, d, showId);
    DecideOverChat(queue, sink, look, actor, d, session, showId);
    assert "" + reply == reply;
    sink.Finish();
  }

  method Refuse(sink: BufferSink, message: string)
    requires sink.State() == Buffer("", false)
    modifies sink
    ensures sink.sent == old(sink.sent) + [WARNING + message]
  {
    sink.Emit(Error(message));
    assert "" + "" + (WARNING + message) == WARNING + message;
    sink.Finish();
  }

  /** A turn took place with these requests, and the reply is what its rounds said,
      and how it ended, coalesced; or it could not start, and the reply says why. */
  ghost predicate IsTurn(w: World, setup: Setup, text: string, reqs: seq<CompletionRequest>, reply: string)
  {
    if NotStarted(setup).Some? then reqs == [] && reply == Coalesced([NotStarted(setup).value])
    else
      var n := |reqs| - 1;
      && 0 <= n < MAX_LOOPS
      && Rounds(w, setup, History(setup.recent.value) + [UserMessage(text)], reqs)
      && Ended(w, setup, reqs, Ending(w, setup.session, n, reqs[n]))
      && reply == Coalesced(Told(w, setup.session, reqs) + [Ending(w, setup.session, n, reqs[n])])
  }

  lemma EventsOfTrace(events: seq<TurnEvent>, end: TurnEvent, trace: seq<SinkCall>)
    requires trace == Emits(events) + [Emit(end)] + [Finish]
    ensures trace[..|trace| - 1] == Emits(events + [end]) && Events(trace[..|trace| - 1]) == events + [end]
  {
    assert trace[..|trace| - 1] == Emits(events) + [Emit(end)];
  }

  method RunTurn(sink: BufferSink, w: World, setup: Setup, text: string) returns (reqs: seq<CompletionRequest>)
    requires sink.State() == Buffer("", false)
    modifies sink
    ensures |sink.sent| == |old(sink.sent)| + 1 && sink.sent[..|old(sink.sent)|] == old(sink.sent)
    ensures IsTurn(w, setup, text, reqs, sink.sent[|old(sink.sent)|])
  {
    var trace, pushed;
    trace, pushed, reqs := HandleChatSend(w, setup, text);
    ghost var told := if NotStarted(setup).Some? then [] else Told(w, setup.session, reqs);
    EventsOfTrace(told, trace[|trace| - 2].event, trace);
    assert NotStarted(setup).Some? ==> [] + [NotStarted(setup).value] == [NotStarted(setup).value];
    Deliver(sink, trace);
  }

  /** A gateway turn runs in the session of its conversation, on the default model. */
  function TurnSetup(setup: Setup, msg: Inbound): Setup
  {
    setup.(session := msg.session, model := "")
  }

  /** Without a bound identity nothing runs. */
  predicate Refused(look: Lookups) { look.identity.Err? || look.identity.value.None? }

  /** A failed lookup and an unknown sender are told different things. */
  function RefusalText(look: Lookups, msg: Inbound): string
    requires Refused(look)
  {
    if look.identity.Err? then "internal error resolving identity"
    else "Not authorized: your " + msg.channel + NOT_ENROLLED
  }

  /** What a message leads to: a refusal, a decision on the inbox, or a turn. */
  ghost predicate Handled(before: Table, after: Table, msg: Inbound, look: Lookups, w: World, setup: Setup,
                          showId: RowId -> string, reqs: seq<CompletionRequest>, reply: string)
  {
    if Refused(look) then reqs == [] && after == before && reply == WARNING + RefusalText(look, msg)
    else match DecisionOf(msg, look)
         case Some(d) =>
           && reqs == []
           && after == DecidedRows(before, look, look.identity.value.value, d)
           && reply == DecisionReply(before, look, look.identity.value.value, d, showId)
         case None => after == before && IsTurn(w, TurnSetup(setup, msg), msg.text, reqs, reply)
  }

  /** Every inbound message causes exactly one channel send. */
  method Handle(queue: ApprovalQueue, sink: BufferSink, msg: Inbound, look: Lookups, w: World, setup: Setup,
                showId: RowId -> string)
    returns (reqs: seq<CompletionRequest>)
    requires queue.Valid() && sink.State() == Buffer("", false)
    modifies queue, sink
    ensures queue.Valid() && Evolves(old(queue.rows), queue.rows)
    ensures |sink.sent| == |old(sink.sent)| + 1 && sink.sent[..|old(sink.sent)|] == old(sink.sent)
    ensures Handled(old(queue.rows), queue.rows, msg, look, w, setup, showId, reqs, sink.sent[|old(sink.sent)|])
  {
    if look.identity.Err? {
      Refuse(sink, "internal error resolving identity");
      return [];
    }
    if look.identity.value.None? {
      Refuse(sink, "Not authorized: your " + msg.channel + NOT_ENROLLED);
      return [];
    }
    var actor := look.identity.value.value;
    if msg.replyTo.Some? {
      var approved := ParseBare(msg.text);
      if approved.Some? && look.repliedTo.Ok? && look.repliedTo.value.Some? {
        var d := Decision(approved.value, look.repliedTo.value.value);
        AnswerDecision(queue, sink, look, actor, d, msg.session, showId);
        return [];
      }
    }
    var command := ParseCommand(look.parseId, msg.text);
    if command.Some? {
      AnswerDecision(queue, sink, look, actor, command.value, msg.session, showId);
      return [];
    }
    reqs := RunTurn(sink, w, TurnSetup(setup, msg), msg.text);
  }

  /** Over chat, a row changes only when it is pending, to the decision of a bound
      approver or admin, who is recorded. */
  lemma OnlyApproversDecide(before: Table, after: Table, msg: Inbound, look: Lookups, w: World, setup: Setup,
                            showId: RowId -> string, reqs: seq<CompletionRequest>, reply: string, id: RowId)
    requires Handled(before, after, msg, look, w, setup, showId, reqs, reply)
    requires id in after && (id in before ==> after[id] != before[id])
    ensures !Refused(look) && MayDecide(look.identity.value.value)
    ensures DecisionOf(msg, look).Some? && DecisionOf(msg, look).value.id == id && IsPending(before, id)
    ensures after[id].decidedBy == Some(look.identity.value.value.userId)
    ensures after[id].status == if DecisionOf(msg, look).value.approved then Approved else Denied
  {
  }

  /** Which decision a message stands for: a reply to an approval alert that begins with a
      yes or a no decides that approval; any other message only as a command. */
  lemma DecisionOfMessage(msg: Inbound, look: Lookups)
    ensures var word := FirstWord(OwnWords(msg.text));
            var alert := if look.repliedTo.Ok? then look.repliedTo.value else None;
            DecisionOf(msg, look) ==
            if msg.replyTo.Some? && alert.Some? && Replies(word, true) then Some(Decision(true, alert.value))
            else if msg.replyTo.Some? && alert.Some? && Replies(word, false) then Some(Decision(false, alert.value))
            else ParseCommand(look.parseId, msg.text)
  {
    BareDecidesIff(msg.text, true);
    BareDecidesIff(msg.text, false);
  }

  predicate MayDecide(a: Actor)
  {
    exists i :: 0 <= i < |a.roles| && (a.roles[i] == "approver" || a.roles[i] == "admin")
  }

  /** When a bound approver or admin decides a pending row, exactly that row gets exactly
      that decision, by that user. */
  lemma DecisionTakesEffect(before: Table, after: Table, msg: Inbound, look: Lookups, w: World, setup: Setup,
                            showId: RowId -> string, reqs: seq<CompletionRequest>, reply: string, d: Decision)
    requires Handled(before, after, msg, look, w, setup, showId, reqs, reply)
    requires !Refused(look) && MayDecide(look.identity.value.value)
    requires look.guardConfigured && look.fault != NotMade
    requires DecisionOf(msg, look) == Some(d) && IsPending(before, d.id)
    ensures after.Keys == before.Keys
    ensures after[d.id].status == if d.approved then Approved else Denied
    ensures after[d.id].decidedBy == Some(look.identity.value.value.userId) && after[d.id].decidedAt == Some(look.now)
    ensures forall m :: m in before && m != d.id ==> after[m] == before[m]
    ensures look.fault == NoFault ==>
              reply == (if d.approved then "\U{2705} Approved" else "\U{1f6d1} Denied")
                       + (" approval `" + showId(d.id) + "`.")
  {
    assert IsApprover(look.identity.value.value);
  }

  /** From the text to the row: an approve or deny command that is no reply. */
  lemma CommandDecidesRow(before: Table, after: Table, msg: Inbound, look: Lookups, w: World, setup: Setup,
                          showId: RowId -> string, reqs: seq<CompletionRequest>, reply: string, approved: bool,
                          pre: string, v: string, c: char, gap: string, id: string, post: string)
    requires Handled(before, after, msg, look, w, setup, showId, reqs, reply)
    requires msg.replyTo.None? && !Refused(look) && MayDecide(look.identity.value.value)
    requires look.guardConfigured && look.fault != NotMade
    requires IsCommand(msg.text, approved, pre, v, c, gap, id, post)
    requires look.parseId(id).Some? && IsPending(before, look.parseId(id).value)
    ensures var n := look.parseId(id).value;
            && n in after && after[n].status == (if approved then Approved else Denied)
            && after[n].decidedBy == Some(look.identity.value.value.userId)
            && forall m :: m in before && m != n ==> m in after && after[m] == before[m]
  {
    var d := Decision(approved, look.parseId(id).value);
    CommandIsRead(look.parseId, msg.text, approved, pre, v, c, gap, id, post);
    DecisionTakesEffect(before, after, msg, look, w, setup, showId, reqs, reply, d);
  }

  /** From the text to the row: a reply to an alert that begins with a yes or a no. */
  lemma ReplyDecidesRow(before: Table, after: Table, msg: Inbound, look: Lookups, w: World, setup: Setup,
                        showId: RowId -> string, reqs: seq<CompletionRequest>, reply: string, approved: bool,
                        pre: string, v: string, rest: string, n: RowId)
    requires Handled(before, after, msg, look, w, setup, showId, reqs, reply)
    requires msg.replyTo.Some? && !Refused(look) && MayDecide(look.identity.value.value)
    requires look.guardConfigured && look.fault != NotMade
    requires look.repliedTo == Ok(Some(n)) && IsPending(before, n)
    requires StartsWithWord(OwnWords(msg.text), pre, v, rest) && Replies(v, approved)
    ensures n in after && after[n].status == if approved then Approved else Denied
    ensures after[n].decidedBy == Some(look.identity.value.value.userId)
    ensures forall m :: m in before && m != n ==> m in after && after[m] == before[m]
  {
    FirstWordIs(OwnWords(msg.text), pre, v, rest);
    RepliesDiffer(v);
    DecisionOfMessage(msg, look);
    DecisionTakesEffect(before, after, msg, look, w, setup, showId, reqs, reply, Decision(approved, n));
  }

  /** Any other message of a bound sender is a turn in the session of its conversation, on
      the default model. */
  lemma OtherwiseATurn(before: Table, after: Table, msg: Inbound, look: Lookups, w: World, setup: Setup,
                       showId: RowId -> string, reqs: seq<CompletionRequest>, reply: string, n: nat)
    requires Handled(before, after, msg, look, w, setup, showId, reqs, reply)
    requires !Refused(look) && DecisionOf(msg, look).None? && NotStarted(setup).None? && n < |reqs|
    ensures after == before && reqs[n].requestId == msg.session && reqs[n].model == ""
    ensures var recent := setup.recent.value;
            |reqs[n].messages| > |recent| && reqs[n].messages[|recent|] == ChatMessage(User, msg.text, None, [])
  {
    var s := TurnSetup(setup, msg);
    RequestsCarryTheTurn(w, s, History(s.recent.value) + [UserMessage(msg.text)], reqs, n);
    UserIsHeard(w, s, msg.text, reqs, n);
  }
}
