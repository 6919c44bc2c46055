/** The Ollama stream parser: NDJSON lines to unified events, the seen-tool flag
    and the minted call ids carried along. */
module OllamaStream {
  import opened Unified
  import opened Lines
  import opened OpenAiCompat

  /** A tool call; `arguments` is its printed JSON. */
  datatype OllamaCall = OllamaCall(name: string, arguments: string)

  datatype OllamaChunk = OllamaChunk(content: Option<string>, toolCalls: Option<seq<OllamaCall>>, done: bool,
                                     promptEvalCount: Option<int>, evalCount: Option<int>, doneReason: Option<string>)

  type Json = string -> Option<OllamaChunk>

  /** Supplies the text of the n-th random id. */
  type Mint = nat -> string

  datatype State = State(seenToolCalls: bool, toolCallIds: map<nat, string>, minted: nat)

  const INITIAL := State(false, map[], 0)

  function MapFinishReason(hasToolCalls: bool, doneReason: Option<string>): string {
    if hasToolCalls then "tool_calls" else if doneReason == Some("length") then "length" else "stop"
  }

  /** Tool calls of one chunk from the i-th on; ids are minted once per index. */
  function CallDeltas(mint: Mint, st: State, calls: seq<OllamaCall>, i: nat): (State, seq<StreamEvent>)
    requires i <= |calls|
    decreases |calls| - i
  {
    if i == |calls| then (st, []) else
      var known := i in st.toolCallIds && st.toolCallIds[i] != "";
      var id := if known then st.toolCallIds[i] else mint(st.minted);
      var st1 := if known then st else st.(toolCallIds := st.toolCallIds[i := id], minted := st.minted + 1);
      var (st2, more) := CallDeltas(mint, st1, calls, i + 1);
      (st2, [ToolCallDelta(i, Some(id), Some(calls[i].name), Some(calls[i].arguments))] + more)
  }

  function ProcessChunk(mint: Mint, st: State, c: OllamaChunk): (State, seq<StreamEvent>) {
    var content := if c.content.Some? && c.content.value != "" then [ContentDelta(c.content.value)] else [];
    var calls := if c.toolCalls.Some? then c.toolCalls.value else [];
    var (st1, deltas) := CallDeltas(mint, st, calls, 0);
    var i, o := OrZero(c.promptEvalCount), OrZero(c.evalCount);
    var counted := c.done && (c.promptEvalCount.Some? || c.evalCount.Some?);
    var usage := if counted then [UsageReport(Usage(i, o, i + o))] else [];
    var done := if c.done then [Done(MapFinishReason(st.seenToolCalls || |calls| > 0, c.doneReason))] else [];
    (st1.(seenToolCalls := st.seenToolCalls || |calls| > 0), content + deltas + usage + done)
  }

  function DecodeLine(parse: Json, line: string): Option<OllamaChunk> {
    var trimmed := Trim(line);
    if trimmed == "" then None else parse(trimmed)
  }

  function Decode(parse: Json): string -> Option<OllamaChunk> {
    (line: string) => DecodeLine(parse, line)
  }

  function ProcessLine(mint: Mint, parse: Json, st: State, line: string): (State, seq<StreamEvent>) {
    var chunk := DecodeLine(parse, line);
    if chunk.Some? then ProcessChunk(mint, st, chunk.value) else (st, [])
  }

  function ByLine(mint: Mint, parse: Json): LineFunction<State, StreamEvent> {
    (st: State, line: string) => ProcessLine(mint, parse, st, line)
  }

  method ParseOllamaStream(body: Option<seq<string>>, parse: Json, mint: Mint) returns (events: seq<StreamEvent>)
    ensures events == if body.None? then [ErrorEvent("Response body is null")]
                      else FoldText(ByLine(mint, parse), INITIAL, Concat(body.value)).1
  {
    if body.None? {
      return [ErrorEvent("Response body is null")];
    }
    var _, all := ReadLines(ByLine(mint, parse), INITIAL, body.value);
    return all;
  }

  // ---- What the carried state means ----

  predicate Carries(st: State, e: StreamEvent)
    requires e.ToolCallDelta?
  {
    e.index in st.toolCallIds && st.toolCallIds[e.index] != "" && e.id == Some(st.toolCallIds[e.index])
  }

  /** The state is a summary of the events so far: the flag says whether a tool
      call went out, and every tool call of an index carried that index's id. */
  ghost predicate Summary(st: State, events: seq<StreamEvent>) {
    && (st.seenToolCalls <==> exists e :: e in events && e.ToolCallDelta?)
    && (forall e :: e in events && e.ToolCallDelta? ==> Carries(st, e))
  }

  lemma {:induction false} CallDeltasKeepIds(mint: Mint, st: State, calls: seq<OllamaCall>, i: nat)
    requires i <= |calls| && forall n :: mint(n) != ""
    ensures var (st', deltas) := CallDeltas(mint, st, calls, i);
            && |deltas| == |calls| - i
            && (forall e :: e in deltas ==> e.ToolCallDelta? && Carries(st', e))
            && (forall k :: k in st.toolCallIds && st.toolCallIds[k] != "" ==>
                  k in st'.toolCallIds && st'.toolCallIds[k] == st.toolCallIds[k])
    decreases |calls| - i
  {
    if i < |calls| {
      var known := i in st.toolCallIds && st.toolCallIds[i] != "";
      var id := if known then st.toolCallIds[i] else mint(st.minted);
      var st1 := if known then st else st.(toolCallIds := st.toolCallIds[i := id], minted := st.minted + 1);
      CallDeltasKeepIds(mint, st1, calls, i + 1);
    }
  }

  lemma ChunkKeepsSummary(mint: Mint, st: State, c: OllamaChunk, before: seq<StreamEvent>)
    requires Summary(st, before) && forall n :: mint(n) != ""
    ensures var (st', events) := ProcessChunk(mint, st, c); Summary(st', before + events)
    ensures var (st', events) := ProcessChunk(mint, st, c);
            c.done ==> events != [] && events[|events| - 1] == Done(MapFinishReason(st'.seenToolCalls, c.doneReason))
  {
    var calls := if c.toolCalls.Some? then c.toolCalls.value else [];
    CallDeltasKeepIds(mint, st, calls, 0);
    var (st1, deltas) := CallDeltas(mint, st, calls, 0);
    var (st', events) := ProcessChunk(mint, st, c);
    assert forall e :: e in events && e.ToolCallDelta? ==> e in deltas;
    assert forall e :: e in deltas ==> e in events;
    if |calls| > 0 {
      assert deltas[0] in before + events;
    }
    forall e | e in before + events && e.ToolCallDelta?
      ensures Carries(st', e)
    {
      assert e in before || e in deltas;
    }
  }

  /** Over the whole stream: the flag that decides the finish reason is set
      exactly if a tool call was emitted, and tool calls of the same index
      always carry the same id. */
  lemma {:induction false} StateSummarisesStream(mint: Mint, parse: Json, lines: seq<string>)
    requires forall n :: mint(n) != ""
    ensures var (st, events) := Fold(ByLine(mint, parse), INITIAL, lines); Summary(st, events)
  {
    assert Summary(INITIAL, []);
    forall st, line, before | Summary(st, before)
      ensures Summary(ByLine(mint, parse)(st, line).0, before + ByLine(mint, parse)(st, line).1)
    {
      LineKeepsSummary(mint, parse, st, line, before);
    }
    FoldKeeps(ByLine(mint, parse), Summary, INITIAL, lines, []);
    var (st, events) := Fold(ByLine(mint, parse), INITIAL, lines);
    assert [] + events == events;
  }

  lemma LineKeepsSummary(mint: Mint, parse: Json, st: State, line: string, before: seq<StreamEvent>)
    requires Summary(st, before) && forall n :: mint(n) != ""
    ensures var (st', events) := ProcessLine(mint, parse, st, line); Summary(st', before + events)
  {
    var chunk := DecodeLine(parse, line);
    if chunk.Some? {
      ChunkKeepsSummary(mint, st, chunk.value, before);
    } else {
      assert before + [] == before;
    }
  }

  // ---- What a stream says, read off its chunks ----

  function Contents(chunks: seq<OllamaChunk>): string {
    if chunks == [] then "" else
      var last := chunks[|chunks| - 1];
      Contents(chunks[..|chunks| - 1]) + if last.content.Some? then last.content.value else ""
  }

  predicate Calls(chunk: OllamaChunk) {
    chunk.toolCalls.Some? && chunk.toolCalls.value != []
  }

  predicate AnyCalls(chunks: seq<OllamaChunk>) {
    exists i :: 0 <= i < |chunks| && Calls(chunks[i])
  }

  /** The usage of the last final chunk that counted. */
  function UsageOf(chunks: seq<OllamaChunk>): Option<Usage> {
    if chunks == [] then None else
      var last := chunks[|chunks| - 1];
      if last.done && (last.promptEvalCount.Some? || last.evalCount.Some?) then
        var i := if last.promptEvalCount.Some? then last.promptEvalCount.value else 0;
        var o := if last.evalCount.Some? then last.evalCount.value else 0;
        Some(Usage(i, o, i + o))
      else
        UsageOf(chunks[..|chunks| - 1])
  }

  /** The finish reason at the last final chunk: tool calls so far win, then a
      length stop. */
  function FinishOf(chunks: seq<OllamaChunk>): Option<string> {
    if chunks == [] then None else
      var last := chunks[|chunks| - 1];
      if last.done then
        Some(if AnyCalls(chunks) then "tool_calls" else if last.doneReason == Some("length") then "length" else "stop")
      else
        FinishOf(chunks[..|chunks| - 1])
  }

  /** One delta for each call of the list, in order, with its place in the list,
      its name and its arguments. */
  ghost predicate Deltas(events: seq<StreamEvent>, calls: seq<OllamaCall>) {
    && |events| == |calls|
    && forall i :: 0 <= i < |calls| ==>
         && events[i].ToolCallDelta? && events[i].index == i
         && events[i].name == Some(calls[i].name) && events[i].argumentsDelta == Some(calls[i].arguments)
  }

  function ToolEvents(events: seq<StreamEvent>): seq<StreamEvent> {
    if events == [] then [] else
      var last := events[|events| - 1];
      ToolEvents(events[..|events| - 1]) + if last.ToolCallDelta? then [last] else []
  }

  /** The tool call events are the deltas of each chunk's calls, chunk by chunk. */
  ghost predicate CallsTold(chunks: seq<OllamaChunk>, told: seq<StreamEvent>) {
    if chunks == [] then told == [] else
      var last := chunks[|chunks| - 1];
      var calls := if last.toolCalls.Some? then last.toolCalls.value else [];
      && |calls| <= |told|
      && Deltas(told[|told| - |calls|..], calls)
      && CallsTold(chunks[..|chunks| - 1], told[..|told| - |calls|])
  }

  /** The part of a client's view that is not about tool calls. */
  datatype Told = Told(text: string, usage: Option<Usage>, finish: Option<string>)

  function ToldTo(c: Client): Told {
    Told(c.text, c.usage, c.finish)
  }

  /** What a client holds after a stream, and which tool calls it was told of. */
  ghost predicate Tells(chunks: seq<OllamaChunk>, events: seq<StreamEvent>) {
    && ToldTo(ReceiveAll(NEW_CLIENT, events)) == Told(Contents(chunks), UsageOf(chunks), FinishOf(chunks))
    && CallsTold(chunks, ToolEvents(events))
  }

  lemma {:induction false} CallDeltasAre(mint: Mint, st: State, calls: seq<OllamaCall>, i: nat)
    requires i <= |calls|
    ensures var (st', deltas) := CallDeltas(mint, st, calls, i);
            && st'.seenToolCalls == st.seenToolCalls && |deltas| == |calls| - i
            && forall k :: 0 <= k < |deltas| ==>
                 && deltas[k].ToolCallDelta? && deltas[k].index == i + k
                 && deltas[k].name == Some(calls[i + k].name)
                 && deltas[k].argumentsDelta == Some(calls[i + k].arguments)
    decreases |calls| - i
  {
    if i < |calls| {
      var known := i in st.toolCallIds && st.toolCallIds[i] != "";
      var id := if known then st.toolCallIds[i] else mint(st.minted);
      var st1 := if known then st else st.(toolCallIds := st.toolCallIds[i := id], minted := st.minted + 1);
      CallDeltasAre(mint, st1, calls, i + 1);
    }
  }

  lemma {:induction false} ToolsLeaveRest(c: Client, deltas: seq<StreamEvent>)
    requires forall k :: 0 <= k < |deltas| ==> deltas[k].ToolCallDelta?
    ensures var d := ReceiveAll(c, deltas); d.text == c.text && d.finish == c.finish && d.usage == c.usage
    ensures ToolEvents(deltas) == deltas
    decreases |deltas|
  {
    if deltas != [] {
      var before, last := deltas[..|deltas| - 1], deltas[|deltas| - 1];
      assert deltas == before + [last];
      ToolsLeaveRest(c, before);
      ReceiveAppend(c, before, [last]);
      var d := ReceiveAll(c, before);
      assert [last][1..] == [] && ReceiveAll(d, [last]) == Receive(d, last);
      assert d.text + "" == d.text;
    }
  }

  lemma {:induction false} ToolEventsAppend(a: seq<StreamEvent>, b: seq<StreamEvent>)
    ensures ToolEvents(a + b) == ToolEvents(a) + ToolEvents(b)
  {
    if b == [] {
      assert a + b == a;
    } else {
      ToolEventsAppend(a, b[..|b| - 1]);
      assert (a + b)[..|a + b| - 1] == a + b[..|b| - 1];
    }
  }

  /** An event that is sent or not, and is no tool call. */
  lemma SentOrNot(c: Client, e: StreamEvent, sent: bool)
    requires !e.ToolCallDelta?
    ensures var events := if sent then [e] else [];
            ReceiveAll(c, events) == (if sent then Receive(c, e) else c) && ToolEvents(events) == []
  {
    assert [e][1..] == [] && [e][..0] == [];
  }

  lemma InParts(c: Client, a: seq<StreamEvent>, b: seq<StreamEvent>, u: seq<StreamEvent>, f: seq<StreamEvent>)
    ensures ReceiveAll(c, a + b + u + f) == ReceiveAll(ReceiveAll(ReceiveAll(ReceiveAll(c, a), b), u), f)
    ensures ToolEvents(a + b + u + f) == ToolEvents(a) + ToolEvents(b) + ToolEvents(u) + ToolEvents(f)
  {
    ReceiveAppend(c, a + b + u, f);
    ReceiveAppend(c, a + b, u);
    ReceiveAppend(c, a, b);
    ToolEventsAppend(a + b + u, f);
    ToolEventsAppend(a + b, u);
    ToolEventsAppend(a, b);
  }

  function TextPart(chunk: OllamaChunk): seq<StreamEvent> {
    if chunk.content.Some? && chunk.content.value != "" then [ContentDelta(chunk.content.value)] else []
  }

  function CallsOf(chunk: OllamaChunk): seq<OllamaCall> {
    if chunk.toolCalls.Some? then chunk.toolCalls.value else []
  }

  /** The usage a chunk brings. */
  function Counted(chunk: OllamaChunk): Option<Usage> {
    if chunk.done && (chunk.promptEvalCount.Some? || chunk.evalCount.Some?) then
      var i, o := OrZero(chunk.promptEvalCount), OrZero(chunk.evalCount);
      Some(Usage(i, o, i + o))
    else None
  }

  function UsagePart(chunk: OllamaChunk): seq<StreamEvent> {
    if Counted(chunk).Some? then [UsageReport(Counted(chunk).value)] else []
  }

  function Reason(chunk: OllamaChunk, seen: bool): string {
    if seen then "tool_calls" else if chunk.doneReason == Some("length") then "length" else "stop"
  }

  function DonePart(chunk: OllamaChunk, seen: bool): seq<StreamEvent> {
    if chunk.done then [Done(Reason(chunk, seen))] else []
  }

  lemma ChunkInParts(mint: Mint, st: State, chunk: OllamaChunk)
    ensures var seen := st.seenToolCalls || Calls(chunk);
            && ProcessChunk(mint, st, chunk).0.seenToolCalls == seen
            && ProcessChunk(mint, st, chunk).1
               == TextPart(chunk) + CallDeltas(mint, st, CallsOf(chunk), 0).1 + UsagePart(chunk) + DonePart(chunk, seen)
  {
    CallDeltasAre(mint, st, CallsOf(chunk), 0);
  }

  lemma TextTold(c: Client, chunk: OllamaChunk)
    ensures ReceiveAll(c, TextPart(chunk))
         == c.(text := c.text + if chunk.content.Some? then chunk.content.value else "")
    ensures ToolEvents(TextPart(chunk)) == []
  {
    SentOrNot(c, ContentDelta(if chunk.content.Some? then chunk.content.value else ""), TextPart(chunk) != []);
    assert c.text + "" == c.text;
  }

  lemma UsageTold(c: Client, chunk: OllamaChunk)
    ensures ReceiveAll(c, UsagePart(chunk)) == c.(usage := OrElse(Counted(chunk), c.usage))
    ensures ToolEvents(UsagePart(chunk)) == []
  {
    if Counted(chunk).Some? {
      SentOrNot(c, UsageReport(Counted(chunk).value), true);
      assert c.text + "" == c.text;
    }
  }

  lemma DoneTold(c: Client, chunk: OllamaChunk, seen: bool)
    ensures ReceiveAll(c, DonePart(chunk, seen))
         == c.(finish := if chunk.done then Some(Reason(chunk, seen)) else c.finish)
    ensures ToolEvents(DonePart(chunk, seen)) == []
  {
    SentOrNot(c, Done(Reason(chunk, seen)), chunk.done);
    assert c.text + "" == c.text;
  }

  /** A client's view after one more chunk. */
  function Next(t: Told, chunk: OllamaChunk, seen: bool): Told {
    Told(t.text + (if chunk.content.Some? then chunk.content.value else ""), OrElse(Counted(chunk), t.usage),
         if chunk.done then Some(Reason(chunk, seen)) else t.finish)
  }

  lemma PartsTell(c: Client, chunk: OllamaChunk, seen: bool, calls: seq<StreamEvent>)
    requires forall k :: 0 <= k < |calls| ==> calls[k].ToolCallDelta?
    ensures var events := TextPart(chunk) + calls + UsagePart(chunk) + DonePart(chunk, seen);
            ToldTo(ReceiveAll(c, events)) == Next(ToldTo(c), chunk, seen) && ToolEvents(events) == calls
  {
    var a, u, f := TextPart(chunk), UsagePart(chunk), DonePart(chunk, seen);
    InParts(c, a, calls, u, f);
    TextTold(c, chunk);
    var c1 := ReceiveAll(c, a);
    ToolsLeaveRest(c1, calls);
    var c2 := ReceiveAll(c1, calls);
    UsageTold(c2, chunk);
    DoneTold(ReceiveAll(c2, u), chunk, seen);
    assert [] + calls + [] + [] == calls;
  }

  lemma ChunkTells(mint: Mint, st: State, chunk: OllamaChunk, c: Client)
    ensures var (st', events) := ProcessChunk(mint, st, chunk);
            && st'.seenToolCalls == (st.seenToolCalls || Calls(chunk))
            && ToldTo(ReceiveAll(c, events)) == Next(ToldTo(c), chunk, st'.seenToolCalls)
            && Deltas(ToolEvents(events), CallsOf(chunk))
  {
    ChunkInParts(mint, st, chunk);
    CallDeltasAre(mint, st, CallsOf(chunk), 0);
    PartsTell(c, chunk, st.seenToolCalls || Calls(chunk), CallDeltas(mint, st, CallsOf(chunk), 0).1);
  }

  lemma ViewsGrow(chunks: seq<OllamaChunk>, chunk: OllamaChunk)
    ensures var all := chunks + [chunk];
            Told(Contents(all), UsageOf(all), FinishOf(all))
            == Next(Told(Contents(chunks), UsageOf(chunks), FinishOf(chunks)), chunk, AnyCalls(all))
  {
    assert (chunks + [chunk])[..|chunks|] == chunks;
  }

  lemma CallsGrow(chunks: seq<OllamaChunk>, chunk: OllamaChunk, told: seq<StreamEvent>, more: seq<StreamEvent>)
    requires CallsTold(chunks, told) && Deltas(more, CallsOf(chunk))
    ensures CallsTold(chunks + [chunk], told + more)
  {
    assert (chunks + [chunk])[..|chunks|] == chunks;
    assert (told + more)[|told|..] == more && (told + more)[..|told|] == told;
  }

  /** One more chunk, at the end of a stream. */
  lemma TellsMore(chunks: seq<OllamaChunk>, chunk: OllamaChunk, before: seq<StreamEvent>, events: seq<StreamEvent>)
    requires Tells(chunks, before) && Deltas(ToolEvents(events), CallsOf(chunk))
    requires var c := ReceiveAll(NEW_CLIENT, before);
             ToldTo(ReceiveAll(c, events)) == Next(ToldTo(c), chunk, AnyCalls(chunks + [chunk]))
    ensures Tells(chunks + [chunk], before + events)
  {
    ReceiveAppend(NEW_CLIENT, before, events);
    ToolEventsAppend(before, events);
    ViewsGrow(chunks, chunk);
    CallsGrow(chunks, chunk, ToolEvents(before), ToolEvents(events));
  }

  lemma OneMoreCalls(chunks: seq<OllamaChunk>, chunk: OllamaChunk)
    ensures AnyCalls(chunks + [chunk]) == (AnyCalls(chunks) || Calls(chunk))
  {
    var all := chunks + [chunk];
    if i :| 0 <= i < |chunks| && Calls(chunks[i]) {
      assert Calls(all[i]);
    }
    assert all[|chunks|] == chunk;
  }

  lemma DecodedOneMore(parse: Json, lines: seq<string>, line: string)
    ensures var value := DecodeLine(parse, line);
            Decoded(Decode(parse), lines + [line])
            == Decoded(Decode(parse), lines) + if value.Some? then [value.value] else []
    decreases |lines|
  {
    if lines == [] {
      assert [line][1..] == [] && Decoded(Decode(parse), []) == [];
      assert (lines + [line])[0] == line && (lines + [line])[1..] == [];
    } else {
      DecodedOneMore(parse, lines[1..], line);
      assert (lines + [line])[0] == lines[0] && (lines + [line])[1..] == lines[1..] + [line];
    }
  }

  ghost predicate Holds(mint: Mint, parse: Json, lines: seq<string>) {
    var (st, events) := Fold(ByLine(mint, parse), INITIAL, lines);
    var chunks := Decoded(Decode(parse), lines);
    Tells(chunks, events) && st.seenToolCalls == AnyCalls(chunks)
  }

  lemma OneMoreLine(mint: Mint, parse: Json, before: seq<string>, line: string)
    requires Holds(mint, parse, before)
    ensures Holds(mint, parse, before + [line])
  {
    FoldOneMore(ByLine(mint, parse), INITIAL, before, line);
    DecodedOneMore(parse, before, line);
    var (st, events) := Fold(ByLine(mint, parse), INITIAL, before);
    var chunks, chunk := Decoded(Decode(parse), before), DecodeLine(parse, line);
    if chunk.Some? {
      OneMoreCalls(chunks, chunk.value);
      ChunkTells(mint, st, chunk.value, ReceiveAll(NEW_CLIENT, events));
      TellsMore(chunks, chunk.value, events, ProcessChunk(mint, st, chunk.value).1);
    } else {
      assert events + [] == events && chunks + [] == chunks;
    }
  }

  lemma {:induction false} HoldsAfter(mint: Mint, parse: Json, lines: seq<string>)
    ensures Holds(mint, parse, lines)
    decreases |lines|
  {
    if lines != [] {
      var before, line := lines[..|lines| - 1], lines[|lines| - 1];
      HoldsAfter(mint, parse, before);
      OneMoreLine(mint, parse, before, line);
      assert lines == before + [line];
    }
  }

  /** After any text, however it was cut: a client has the chunks' contents in
      order, the usage of the last final chunk that counted, and the finish reason
      that the last final chunk and the calls so far give; and it was told of each
      call with its place, name and arguments. */
  lemma {:induction false} StreamTells(mint: Mint, parse: Json, text: string)
    ensures Tells(Decoded(Decode(parse), SplitLines(text)), FoldText(ByLine(mint, parse), INITIAL, text).1)
  {
    HoldsAfter(mint, parse, SplitLines(text));
  }
}
