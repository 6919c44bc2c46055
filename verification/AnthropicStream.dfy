/** The Anthropic stream parser: SSE lines to unified events, content blocks
    renumbered into tool ordinals, the input count carried along. */
module AnthropicStream {
  import opened Unified
  import opened Lines

  datatype StartUsage = StartUsage(inputTokens: Option<int>, outputTokens: Option<int>)

  datatype DeltaUsage = DeltaUsage(inputTokens: Option<int>, outputTokens: int)

  datatype BlockHead = TextHead(text: string) | ToolHead(id: string, name: string) | OtherHead

  datatype Delta = TextDelta(text: string) | InputJsonDelta(partialJson: string) | OtherDelta

  datatype AnthropicEvent =
    | MessageStart(usage: Option<StartUsage>)
    | BlockStart(index: int, block: BlockHead)
    | BlockDelta(index: int, delta: Delta)
    | BlockStop(index: int)
    | MessageDelta(stopReason: Option<string>, deltaUsage: Option<DeltaUsage>)
    | MessageStop
    | OtherEvent

  /** What `JSON.parse` makes of a data payload; None when it throws. */
  type Json = string -> Option<AnthropicEvent>

  datatype State = State(toolOrdinals: map<int, nat>, inputTokens: Option<int>)

  const INITIAL := State(map[], None)

  function MapStopReason(raw: Option<string>): string {
    if raw.None? || raw.value == "" then "stop"
    else if raw.value == "max_tokens" then "length"
    else if raw.value == "tool_use" then "tool_calls"
    else "stop"
  }

  function ProcessEvent(st: State, e: AnthropicEvent): (State, seq<StreamEvent>) {
    match e
    case MessageStart(usage) =>
      if usage.None? then (st, []) else
        var i, o := OrZero(usage.value.inputTokens), OrZero(usage.value.outputTokens);
        (st.(inputTokens := usage.value.inputTokens), [UsageReport(Usage(i, o, i + o))])
    case BlockStart(index, block) =>
      if !block.ToolHead? then (st, []) else
        var ordinal := |st.toolOrdinals|;
        (st.(toolOrdinals := st.toolOrdinals[index := ordinal]),
         [ToolCallDelta(ordinal, Some(block.id), Some(block.name), Some(""))])
    case BlockDelta(index, delta) =>
      (st, match delta
           case TextDelta(text) => [ContentDelta(text)]
           case InputJsonDelta(json) =>
             if index in st.toolOrdinals then [ToolCallDelta(st.toolOrdinals[index], None, None, Some(json))] else []
           case OtherDelta => [])
    case MessageDelta(stopReason, usage) =>
      var report :=
        if usage.None? then [] else
          var i := if usage.value.inputTokens.Some? then usage.value.inputTokens.value else OrZero(st.inputTokens);
          var o := usage.value.outputTokens;
          [UsageReport(Usage(i, o, i + o))];
      var done := if stopReason.Some? && stopReason.value != "" then [Done(MapStopReason(stopReason))] else [];
      (st, report + done)
    case _ => (st, [])
  }

  /** The event of a data line; None for other lines and for broken JSON. */
  function DecodeLine(parse: Json, line: string): Option<AnthropicEvent> {
    var data := DataPayload(line);
    if data.Some? then parse(data.value) else None
  }

  function Decode(parse: Json): string -> Option<AnthropicEvent> {
    (line: string) => DecodeLine(parse, line)
  }

  function ProcessLine(parse: Json, st: State, line: string): (State, seq<StreamEvent>) {
    var event := DecodeLine(parse, line);
    if event.Some? then ProcessEvent(st, event.value) else (st, [])
  }

  function ByLine(parse: Json): LineFunction<State, StreamEvent> {
    (st: State, line: string) => ProcessLine(parse, st, line)
  }

  /** The events of a whole stream body. */
  function EventsOf(parse: Json, text: string): seq<StreamEvent> {
    FoldText(ByLine(parse), INITIAL, text).1
  }

  /** Chunk independence: the events depend on the concatenated text alone. */
  method ParseAnthropicStream(body: Option<seq<string>>, parse: Json) returns (events: seq<StreamEvent>)
    ensures events == if body.None? then [ErrorEvent("Response body is null")] else EventsOf(parse, Concat(body.value))
  {
    if body.None? {
      return [ErrorEvent("Response body is null")];
    }
    var _, all := ReadLines(ByLine(parse), INITIAL, body.value);
    return all;
  }

  /** A line brings an event exactly if it is a data line whose payload parses. */
  lemma LineBrings(parse: Json, line: string, event: AnthropicEvent)
    ensures Decode(parse)(line) == Some(event)
       <==> exists payload :: Trim(line) == "data: " + payload && parse(payload) == Some(event)
  {
    var data := DataPayload(line);
    if data.Some? {
      PayloadIs(line, data.value);
    }
    if payload :| Trim(line) == "data: " + payload && parse(payload) == Some(event) {
      PayloadIs(line, payload);
    }
  }

  // ---- The two layers of a stream ----

  function ProcessAll(st: State, es: seq<AnthropicEvent>): (State, seq<StreamEvent>)
    decreases |es|
  {
    if es == [] then (st, []) else
      var (s1, events) := ProcessEvent(st, es[0]);
      var (s2, more) := ProcessAll(s1, es[1..]);
      (s2, events + more)
  }

  /** Parsing line by line is decoding all lines and processing the events. */
  lemma {:induction false} LinesThenEvents(parse: Json, st: State, lines: seq<string>)
    ensures Fold(ByLine(parse), st, lines) == ProcessAll(st, Decoded(Decode(parse), lines))
    decreases |lines|
  {
    if lines != [] {
      var event := Decode(parse)(lines[0]);
      var (s1, events) := ProcessLine(parse, st, lines[0]);
      LinesThenEvents(parse, s1, lines[1..]);
      var all := Decoded(Decode(parse), lines);
      if event.Some? {
        assert all[0] == event.value && all[1..] == Decoded(Decode(parse), lines[1..]);
      } else {
        assert all == Decoded(Decode(parse), lines[1..]);
        assert [] + ProcessAll(s1, all).1 == ProcessAll(s1, all).1;
      }
    }
  }
}
