/** The OpenAI stream parser, and that the gateway is transparent for it. */
module OpenAiStream {
  import opened Unified
  import opened Lines
  import opened OpenAiCompat

  datatype ToolDelta = ToolDelta(index: Option<nat>, id: Option<string>, name: Option<string>,
                                 arguments: Option<string>)

  datatype Choice = Choice(content: Option<string>, toolCalls: seq<ToolDelta>, finishReason: Option<string>)

  /** A parsed upstream chunk: its first choice, if any, and its usage. */
  datatype UpstreamChunk = UpstreamChunk(choice: Option<Choice>, usage: Option<Usage>)

  type Json = string -> Option<UpstreamChunk>

  const KNOWN_REASONS := {"stop", "length", "tool_calls", "content_filter"}

  function MapFinishReason(raw: string): string {
    if raw in KNOWN_REASONS then raw else "stop"
  }

  function ToolDeltas(calls: seq<ToolDelta>): seq<StreamEvent> {
    if calls == [] then [] else
      var c := calls[0];
      [ToolCallDelta(if c.index.Some? then c.index.value else 0, c.id, c.name, c.arguments)] + ToolDeltas(calls[1..])
  }

  function ProcessChunk(c: UpstreamChunk): seq<StreamEvent> {
    var usage := if c.usage.Some? then [UsageReport(c.usage.value)] else [];
    if c.choice.None? then usage else
      var content := Truthy(c.choice.value.content);
      var finish := Truthy(c.choice.value.finishReason);
      (if content.Some? then [ContentDelta(content.value)] else [])
      + ToolDeltas(c.choice.value.toolCalls)
      + usage
      + (if finish.Some? then [Done(MapFinishReason(finish.value))] else [])
  }

  /** The chunk of a data line; None for other lines, the end-of-stream sentinel
      and broken JSON. */
  function DecodeLine(parse: Json, line: string): Option<UpstreamChunk> {
    var data := DataPayload(line);
    if data.Some? && data.value != "[DONE]" then parse(data.value) else None
  }

  function Decode(parse: Json): string -> Option<UpstreamChunk> {
    (line: string) => DecodeLine(parse, line)
  }

  function ProcessLine(parse: Json, line: string): seq<StreamEvent> {
    var chunk := DecodeLine(parse, line);
    if chunk.Some? then ProcessChunk(chunk.value) else []
  }

  /** The parser keeps no state between lines. */
  function ByLine(parse: Json): LineFunction<(), StreamEvent> {
    (st: (), line: string) => (st, ProcessLine(parse, line))
  }

  method ParseOpenAiStream(body: Option<seq<string>>, parse: Json) returns (events: seq<StreamEvent>)
    ensures events == if body.None? then [ErrorEvent("Response body is null")]
                      else FoldText(ByLine(parse), (), Concat(body.value)).1
  {
    if body.None? {
      return [ErrorEvent("Response body is null")];
    }
    var _, all := ReadLines(ByLine(parse), (), body.value);
    return all;
  }

  /** A line brings a chunk exactly if it is a data line whose payload parses and is
      not the sentinel. */
  lemma LineBrings(parse: Json, line: string, chunk: UpstreamChunk)
    ensures Decode(parse)(line) == Some(chunk)
       <==> exists payload :: Trim(line) == "data: " + payload && payload != "[DONE]" && parse(payload) == Some(chunk)
  {
    var data := DataPayload(line);
    if data.Some? {
      PayloadIs(line, data.value);
    }
    if payload :| Trim(line) == "data: " + payload && payload != "[DONE]" && parse(payload) == Some(chunk) {
      PayloadIs(line, payload);
    }
  }

  // ---- Transparency ----

  /** The finish reason a chunk brings, as the upstream wrote it. */
  function RawFinish(chunk: UpstreamChunk): Option<string> {
    if chunk.choice.None? then None else Truthy(chunk.choice.value.finishReason)
  }

  /** A client reading the upstream's own chunks. Like the gateway's client it
      passes over empty ids, names and finish reasons, and takes a tool call
      without an index to be the first. */
  function Directly(c: Client, chunk: UpstreamChunk): Client {
    if chunk.choice.None? then c.(usage := OrElse(chunk.usage, c.usage)) else
      var choice := chunk.choice.value;
      Client(c.text + StringOr(choice.content), AbsorbTools(c.tools, Fragments(choice.toolCalls)),
             OrElse(RawFinish(chunk), c.finish), OrElse(chunk.usage, c.usage))
  }

  function Fragments(calls: seq<ToolDelta>): seq<ToolFragment> {
    if calls == [] then [] else
      var c := calls[0];
      [ToolFragment(if c.index.Some? then c.index.value else 0, Truthy(c.id), true, Truthy(c.name), c.arguments)]
      + Fragments(calls[1..])
  }

  lemma {:induction false} ToolDeltasReceived(c: Client, calls: seq<ToolDelta>)
    ensures ReceiveAll(c, ToolDeltas(calls)) == c.(tools := AbsorbTools(c.tools, Fragments(calls)))
    decreases |calls|
  {
    if calls != [] {
      var events, fragments := ToolDeltas(calls), Fragments(calls);
      assert events[1..] == ToolDeltas(calls[1..]) && fragments[1..] == Fragments(calls[1..]);
      var c1 := Receive(c, events[0]);
      var f := FormatStreamChunk(events[0]).value.tools;
      assert f[1..] == [];
      assert AbsorbTools(c.tools, f) == AbsorbTool(c.tools, f[0]);
      assert c1 == c.(tools := AbsorbTool(c.tools, fragments[0]));
      ToolDeltasReceived(c1, calls[1..]);
    }
  }

  lemma ReceiveOptional(c: Client, event: StreamEvent, present: bool)
    ensures ReceiveAll(c, if present then [event] else []) == if present then Receive(c, event) else c
  {
    assert [event][1..] == [];
  }

  /** A finish reason the gateway passes on unchanged, or none. */
  predicate Known(finish: Option<string>) {
    finish.Some? ==> finish.value in KNOWN_REASONS
  }

  function Mapped(finish: Option<string>): Option<string> {
    if finish.Some? then Some(MapFinishReason(finish.value)) else None
  }

  lemma ContentReceived(c: Client, content: Option<string>)
    ensures ReceiveAll(c, if Truthy(content).Some? then [ContentDelta(Truthy(content).value)] else [])
         == c.(text := c.text + StringOr(content))
  {
    ReceiveOptional(c, ContentDelta(StringOr(content)), Truthy(content).Some?);
    assert c.text + "" == c.text;
  }

  lemma UsageReceived(c: Client, usage: Option<Usage>)
    ensures ReceiveAll(c, if usage.Some? then [UsageReport(usage.value)] else []) == c.(usage := OrElse(usage, c.usage))
  {
    ReceiveOptional(c, UsageReport(if usage.Some? then usage.value else Usage(0, 0, 0)), usage.Some?);
    assert c.text + "" == c.text;
  }

  lemma FinishReceived(c: Client, finish: Option<string>)
    ensures ReceiveAll(c, if finish.Some? then [Done(MapFinishReason(finish.value))] else [])
         == c.(finish := OrElse(Mapped(finish), c.finish))
  {
    ReceiveOptional(c, Done(MapFinishReason(StringOr(finish))), finish.Some?);
    assert c.text + "" == c.text;
  }

  lemma ChunkReceived(c: Client, chunk: UpstreamChunk)
    ensures ReceiveAll(c, ProcessChunk(chunk))
         == Directly(c, chunk).(finish := OrElse(Mapped(RawFinish(chunk)), c.finish))
  {
    UsageReceived(c, chunk.usage);
    if chunk.choice.Some? {
      var choice := chunk.choice.value;
      var content, finish := Truthy(choice.content), Truthy(choice.finishReason);
      var a := if content.Some? then [ContentDelta(content.value)] else [];
      var b := ToolDeltas(choice.toolCalls);
      var u := if chunk.usage.Some? then [UsageReport(chunk.usage.value)] else [];
      var d := if finish.Some? then [Done(MapFinishReason(finish.value))] else [];
      ReceiveAppend(c, a + b + u, d);
      ReceiveAppend(c, a + b, u);
      ReceiveAppend(c, a, b);
      ContentReceived(c, choice.content);
      var c1 := ReceiveAll(c, a);
      ToolDeltasReceived(c1, choice.toolCalls);
      var c2 := ReceiveAll(c1, b);
      UsageReceived(c2, chunk.usage);
      FinishReceived(ReceiveAll(c2, u), finish);
    }
  }

  /** A chunk that goes through the parser and out again as OpenAI chunks tells
      a client what the upstream's chunk would have told it, exactly if its
      finish reason is missing or one the gateway knows. */
  lemma ChunkIsTransparent(c: Client, chunk: UpstreamChunk)
    ensures ReceiveAll(c, ProcessChunk(chunk)) == Directly(c, chunk) <==> Known(RawFinish(chunk))
  {
    ChunkReceived(c, chunk);
  }

  function DirectlyAll(c: Client, chunks: seq<UpstreamChunk>): Client
    decreases |chunks|
  {
    if chunks == [] then c else DirectlyAll(Directly(c, chunks[0]), chunks[1..])
  }

  /** The last finish reason in a stream. */
  function LastFinish(chunks: seq<UpstreamChunk>): Option<string> {
    if chunks == [] then None else OrElse(LastFinish(chunks[1..]), RawFinish(chunks[0]))
  }

  /** The finish reason a client holds before a stream does not matter to the
      rest. */
  lemma {:induction false} DirectlyFinish(c: Client, finish: Option<string>, chunks: seq<UpstreamChunk>)
    ensures DirectlyAll(c, chunks).finish == OrElse(LastFinish(chunks), c.finish)
    ensures DirectlyAll(c.(finish := finish), chunks)
         == DirectlyAll(c, chunks).(finish := OrElse(LastFinish(chunks), finish))
    decreases |chunks|
  {
    if chunks != [] {
      var c1 := Directly(c, chunks[0]);
      DirectlyFinish(c1, OrElse(RawFinish(chunks[0]), finish), chunks[1..]);
      assert Directly(c.(finish := finish), chunks[0]) == c1.(finish := OrElse(RawFinish(chunks[0]), finish));
    }
  }

  lemma {:induction false} StreamReceived(parse: Json, c: Client, lines: seq<string>)
    ensures var chunks := Decoded(Decode(parse), lines);
            ReceiveAll(c, Fold(ByLine(parse), (), lines).1)
            == DirectlyAll(c, chunks).(finish := OrElse(Mapped(LastFinish(chunks)), c.finish))
    decreases |lines|
  {
    var chunks := Decoded(Decode(parse), lines);
    if lines == [] {
      assert DirectlyAll(c, chunks).finish == c.finish;
    } else {
      var events := ProcessLine(parse, lines[0]);
      var (_, more) := Fold(ByLine(parse), (), lines[1..]);
      ReceiveAppend(c, events, more);
      var rest := Decoded(Decode(parse), lines[1..]);
      var c1 := ReceiveAll(c, events);
      StreamReceived(parse, c1, lines[1..]);
      var chunk := Decode(parse)(lines[0]);
      if chunk.Some? {
        ChunkReceived(c, chunk.value);
        assert chunks[0] == chunk.value && chunks[1..] == rest;
        DirectlyFinish(Directly(c, chunk.value), c1.finish, rest);
      } else {
        assert chunks == rest;
      }
    }
  }

  /** A client behind the gateway reassembles what a client of the upstream
      itself would have, for every stream text whose last finish reason the
      gateway knows (or that has none) and for no other; text, tool calls and
      usage are the same for all. */
  lemma GatewayIsTransparent(parse: Json, c: Client, lines: seq<string>)
    ensures var behind, direct := ReceiveAll(c, Fold(ByLine(parse), (), lines).1),
                                  DirectlyAll(c, Decoded(Decode(parse), lines));
            && behind.(finish := None) == direct.(finish := None)
            && (behind == direct <==> Known(LastFinish(Decoded(Decode(parse), lines))))
  {
    StreamReceived(parse, c, lines);
    DirectlyFinish(c, None, Decoded(Decode(parse), lines));
  }

  /** The older `function_call` finish reason becomes `stop`. */
  lemma FunctionCallIsLost(c: Client)
    ensures var chunk := UpstreamChunk(Some(Choice(None, [], Some("function_call"))), None);
            && Directly(c, chunk).finish == Some("function_call")
            && ReceiveAll(c, ProcessChunk(chunk)).finish == Some("stop")
  {
    ChunkReceived(c, UpstreamChunk(Some(Choice(None, [], Some("function_call"))), None));
  }
}
