/** Streaming and non-streaming answers of the Anthropic provider say the same:
    a client that reassembles the stream's OpenAI chunks holds what the
    accumulated message would have given it in one response. */
module AnthropicAgreement {
  import opened Unified
  import opened Lines
  import opened OpenAiCompat
  import opened AnthropicStream

  // ---- Messages and their streams ----

  /** A content block. A text block's `initial` text is the one its start event
      carries, ahead of its deltas. */
  datatype Block =
    | TextBlock(index: int, initial: string, pieces: seq<string>)
    | ToolBlock(index: int, id: string, name: string, fragments: seq<string>)

  datatype Message = Message(startUsage: Option<StartUsage>, blocks: seq<Block>, stopReason: Option<string>,
                             deltaUsage: Option<DeltaUsage>)

  function TextDeltas(index: int, pieces: seq<string>): seq<AnthropicEvent> {
    if pieces == [] then [] else
      TextDeltas(index, pieces[..|pieces| - 1]) + [BlockDelta(index, TextDelta(pieces[|pieces| - 1]))]
  }

  function JsonDeltas(index: int, fragments: seq<string>): seq<AnthropicEvent> {
    if fragments == [] then [] else
      JsonDeltas(index, fragments[..|fragments| - 1])
      + [BlockDelta(index, InputJsonDelta(fragments[|fragments| - 1]))]
  }

  function BlockEvents(b: Block): seq<AnthropicEvent> {
    match b
    case TextBlock(index, initial, pieces) => [BlockStart(index, TextHead(initial))] + TextDeltas(index, pieces)
    case ToolBlock(index, id, name, fragments) => [BlockStart(index, ToolHead(id, name))] + JsonDeltas(index, fragments)
  }

  function BlocksEvents(bs: seq<Block>): seq<AnthropicEvent> {
    if bs == [] then [] else BlocksEvents(bs[..|bs| - 1]) + BlockEvents(bs[|bs| - 1])
  }

  /** The events of a message's stream that carry something, in order: blocks
      one after the other, then the closing delta. */
  function Render(m: Message): seq<AnthropicEvent> {
    [MessageStart(m.startUsage)] + BlocksEvents(m.blocks) + [MessageDelta(m.stopReason, m.deltaUsage)]
  }

  /** Events the gateway passes over: stops, pings, blocks and deltas of other
      kinds. */
  predicate IsNoise(e: AnthropicEvent) {
    || e.BlockStop? || e.MessageStop? || e.OtherEvent?
    || (e.BlockStart? && e.block.OtherHead?)
    || (e.BlockDelta? && e.delta.OtherDelta?)
  }

  function Signal(es: seq<AnthropicEvent>): seq<AnthropicEvent> {
    if es == [] then [] else (if IsNoise(es[0]) then [] else [es[0]]) + Signal(es[1..])
  }

  // ---- From events to the client ----

  /** Parser state and client after a list of upstream events. */
  function Pipe(st: State, c: Client, es: seq<AnthropicEvent>): (State, Client)
    decreases |es|
  {
    if es == [] then (st, c) else
      var (st', events) := ProcessEvent(st, es[0]);
      Pipe(st', ReceiveAll(c, events), es[1..])
  }

  lemma {:induction false} PipeIsParseThenReceive(st: State, c: Client, es: seq<AnthropicEvent>)
    ensures var (st', events) := ProcessAll(st, es);
            Pipe(st, c, es) == (st', ReceiveAll(c, events))
    decreases |es|
  {
    if es != [] {
      var (s1, events) := ProcessEvent(st, es[0]);
      var (s2, more) := ProcessAll(s1, es[1..]);
      PipeIsParseThenReceive(s1, ReceiveAll(c, events), es[1..]);
      ReceiveAppend(c, events, more);
    }
  }

  lemma {:induction false} PipeAppend(st: State, c: Client, a: seq<AnthropicEvent>, b: seq<AnthropicEvent>)
    ensures var (s1, c1) := Pipe(st, c, a); Pipe(st, c, a + b) == Pipe(s1, c1, b)
    decreases |a|
  {
    if a == [] {
      assert a + b == b;
    } else {
      assert (a + b)[0] == a[0] && (a + b)[1..] == a[1..] + b;
      var (s1, events) := ProcessEvent(st, a[0]);
      PipeAppend(s1, ReceiveAll(c, events), a[1..], b);
    }
  }

  lemma PipeOne(st: State, c: Client, e: AnthropicEvent)
    ensures var (s1, events) := ProcessEvent(st, e);
            Pipe(st, c, [e]) == (s1, ReceiveAll(c, events))
  {
    assert [e][1..] == [];
  }

  /** Noise reaches neither the state nor the client. */
  lemma {:induction false} PipeIgnoresNoise(st: State, c: Client, es: seq<AnthropicEvent>)
    ensures Pipe(st, c, es) == Pipe(st, c, Signal(es))
    decreases |es|
  {
    if es != [] {
      var (s1, events) := ProcessEvent(st, es[0]);
      PipeIgnoresNoise(s1, ReceiveAll(c, events), es[1..]);
      if IsNoise(es[0]) {
        assert Signal(es) == Signal(es[1..]);
      } else {
        assert Signal(es)[0] == es[0] && Signal(es)[1..] == Signal(es[1..]);
      }
    }
  }

  lemma ReceiveOne(c: Client, e: StreamEvent)
    ensures ReceiveAll(c, [e]) == Receive(c, e)
  {
    assert [e][1..] == [];
  }

  lemma DeltaPiped(st: State, c: Client, index: int, piece: string)
    ensures Pipe(st, c, [BlockDelta(index, TextDelta(piece))]) == (st, c.(text := c.text + piece))
  {
    PipeOne(st, c, BlockDelta(index, TextDelta(piece)));
    ReceiveOne(c, ContentDelta(piece));
  }

  lemma {:induction false} TextPiped(st: State, c: Client, index: int, pieces: seq<string>)
    ensures Pipe(st, c, TextDeltas(index, pieces)) == (st, c.(text := c.text + Concat(pieces)))
  {
    if pieces == [] {
      assert c.text + "" == c.text;
    } else {
      var before, last := pieces[..|pieces| - 1], pieces[|pieces| - 1];
      TextPiped(st, c, index, before);
      PipeAppend(st, c, TextDeltas(index, before), [BlockDelta(index, TextDelta(last))]);
      DeltaPiped(st, c.(text := c.text + Concat(before)), index, last);
      assert c.text + Concat(before) + last == c.text + (Concat(before) + last);
    }
  }

  /** A tool call as a client keeps it: an empty id or name was never sent. */
  function Entry(id: string, name: string, arguments: string): ToolEntry {
    ToolEntry(Truthy(Some(id)), Truthy(Some(name)), arguments)
  }

  lemma FragmentReceived(c: Client, k: nat, id: Option<string>, name: Option<string>, arguments: string)
    ensures ReceiveAll(c, [ToolCallDelta(k, id, name, Some(arguments))]) ==
            var before := if k in c.tools then c.tools[k] else ToolEntry(None, None, "");
            c.(tools := c.tools[k := ToolEntry(OrElse(Truthy(id), before.id), OrElse(Truthy(name), before.name),
                                               before.arguments + arguments)])
  {
    var e := ToolCallDelta(k, id, name, Some(arguments));
    ReceiveOne(c, e);
    var fs := FormatStreamChunk(e).value.tools;
    assert fs[1..] == [];
    assert AbsorbTools(c.tools, fs) == AbsorbTool(c.tools, fs[0]);
    assert c.text + "" == c.text;
  }

  lemma {:induction false} JsonPiped(st: State, c: Client, index: int, fragments: seq<string>)
    requires index in st.toolOrdinals && st.toolOrdinals[index] in c.tools
    ensures var k := st.toolOrdinals[index];
            var e := c.tools[k];
            Pipe(st, c, JsonDeltas(index, fragments)) ==
            (st, c.(tools := c.tools[k := e.(arguments := e.arguments + Concat(fragments))]))
  {
    var k := st.toolOrdinals[index];
    var e := c.tools[k];
    if fragments == [] {
      assert e.arguments + "" == e.arguments;
      assert c.tools[k := e] == c.tools;
    } else {
      var before, last := fragments[..|fragments| - 1], fragments[|fragments| - 1];
      JsonPiped(st, c, index, before);
      PipeAppend(st, c, JsonDeltas(index, before), [BlockDelta(index, InputJsonDelta(last))]);
      var e1 := e.(arguments := e.arguments + Concat(before));
      var c1 := c.(tools := c.tools[k := e1]);
      PipeOne(st, c1, BlockDelta(index, InputJsonDelta(last)));
      FragmentReceived(c1, k, None, None, last);
      assert e1.arguments + last == e.arguments + Concat(fragments);
      var e2 := e1.(arguments := e1.arguments + last);
      assert c1.tools[k := e2] == c.tools[k := e2];
    }
  }

  lemma ToolStarted(st: State, c: Client, index: int, id: string, name: string)
    requires |st.toolOrdinals| !in c.tools
    ensures var n := |st.toolOrdinals|;
            Pipe(st, c, [BlockStart(index, ToolHead(id, name))]) ==
            (st.(toolOrdinals := st.toolOrdinals[index := n]), c.(tools := c.tools[n := Entry(id, name, "")]))
  {
    PipeOne(st, c, BlockStart(index, ToolHead(id, name)));
    FragmentReceived(c, |st.toolOrdinals|, Some(id), Some(name), "");
    assert ToolEntry(None, None, "").arguments + "" == "";
  }

  /** One tool block becomes the client's next tool call. */
  lemma ToolPiped(st: State, c: Client, b: Block)
    requires b.ToolBlock? && |st.toolOrdinals| !in c.tools
    ensures var n := |st.toolOrdinals|;
            Pipe(st, c, BlockEvents(b)) ==
            (st.(toolOrdinals := st.toolOrdinals[b.index := n]),
             c.(tools := c.tools[n := Entry(b.id, b.name, Concat(b.fragments))]))
  {
    var n := |st.toolOrdinals|;
    PipeAppend(st, c, [BlockStart(b.index, ToolHead(b.id, b.name))], JsonDeltas(b.index, b.fragments));
    ToolStarted(st, c, b.index, b.id, b.name);
    var st1 := st.(toolOrdinals := st.toolOrdinals[b.index := n]);
    var c1 := c.(tools := c.tools[n := Entry(b.id, b.name, "")]);
    JsonPiped(st1, c1, b.index, b.fragments);
    assert "" + Concat(b.fragments) == Concat(b.fragments);
    var e := Entry(b.id, b.name, Concat(b.fragments));
    assert c1.tools[n := e] == c.tools[n := e];
  }

  // ---- A message's blocks, seen from both sides ----

  /** The tool blocks, in order. */
  function Tools(bs: seq<Block>): seq<Block> {
    if bs == [] then [] else
      var last := bs[|bs| - 1];
      Tools(bs[..|bs| - 1]) + if last.ToolBlock? then [last] else []
  }

  /** The text the deltas bring. */
  function StreamedText(bs: seq<Block>): string {
    if bs == [] then "" else
      var last := bs[|bs| - 1];
      StreamedText(bs[..|bs| - 1]) + if last.TextBlock? then Concat(last.pieces) else ""
  }

  ghost predicate DistinctTools(bs: seq<Block>) {
    var ts := Tools(bs);
    forall i, j :: 0 <= i < j < |ts| ==> ts[i].index != ts[j].index
  }

  /** Ordinals are given to the tool blocks' indices, one each. */
  ghost predicate OrdinalsOf(ts: seq<Block>, ordinals: map<int, nat>) {
    && |ordinals| == |ts|
    && (forall i :: i in ordinals ==> Opened(ts, i))
  }

  ghost predicate Opened(ts: seq<Block>, i: int) {
    exists k :: 0 <= k < |ts| && ts[k].index == i
  }

  /** The client's k-th tool call is the k-th tool block, whatever content-block
      indices were used. */
  ghost predicate CallsAre(ts: seq<Block>, tools: map<nat, ToolEntry>) {
    && (forall k: nat :: k in tools <==> k < |ts|)
    && (forall k :: 0 <= k < |ts| ==>
          ts[k].ToolBlock? && tools[k] == Entry(ts[k].id, ts[k].name, Concat(ts[k].fragments)))
  }

  ghost predicate AfterBlocks(bs: seq<Block>, st: State, c: Client) {
    && OrdinalsOf(Tools(bs), st.toolOrdinals) && CallsAre(Tools(bs), c.tools)
    && c.text == StreamedText(bs) && c.finish == None
  }

  lemma TextBlockPiped(st: State, c: Client, b: Block)
    requires b.TextBlock?
    ensures Pipe(st, c, BlockEvents(b)) == (st, c.(text := c.text + Concat(b.pieces)))
  {
    var start := BlockStart(b.index, TextHead(b.initial));
    PipeAppend(st, c, [start], TextDeltas(b.index, b.pieces));
    PipeOne(st, c, start);
    TextPiped(st, c, b.index, b.pieces);
  }

  /** One more block, after any others. */
  lemma BlockPiped(before: seq<Block>, b: Block, st: State, c: Client)
    requires AfterBlocks(before, st, c) && DistinctTools(before + [b])
    ensures var (st', c') := Pipe(st, c, BlockEvents(b));
            AfterBlocks(before + [b], st', c') && st'.inputTokens == st.inputTokens && c'.usage == c.usage
  {
    if b.ToolBlock? {
      ToolPiped(st, c, b);
      OneMoreTool(before, b, st, c);
    } else {
      TextBlockPiped(st, c, b);
      assert (before + [b])[..|before|] == before;
      assert Tools(before) + [] == Tools(before);
    }
  }

  lemma {:induction false} BlocksPiped(st: State, bs: seq<Block>, c: Client)
    requires DistinctTools(bs) && st.toolOrdinals == map[]
    requires c.text == "" && c.tools == map[] && c.finish == None
    ensures var (st', c') := Pipe(st, c, BlocksEvents(bs));
            AfterBlocks(bs, st', c') && st'.inputTokens == st.inputTokens && c'.usage == c.usage
  {
    if bs != [] {
      var before, b := bs[..|bs| - 1], bs[|bs| - 1];
      assert bs == before + [b] && Tools(before) <= Tools(bs);
      assert DistinctTools(before);
      BlocksPiped(st, before, c);
      var (s1, c1) := Pipe(st, c, BlocksEvents(before));
      PipeAppend(st, c, BlocksEvents(before), BlockEvents(b));
      BlockPiped(before, b, s1, c1);
    }
  }

  lemma OneMoreOpened(ts: seq<Block>, b: Block, i: int)
    requires Opened(ts, i) || i == b.index
    ensures Opened(ts + [b], i)
  {
    if Opened(ts, i) {
      var k :| 0 <= k < |ts| && ts[k].index == i;
      assert (ts + [b])[k].index == i;
    } else {
      assert (ts + [b])[|ts|].index == i;
    }
  }

  lemma OneMoreOrdinal(ts: seq<Block>, b: Block, ordinals: map<int, nat>)
    requires OrdinalsOf(ts, ordinals) && forall k :: 0 <= k < |ts| ==> ts[k].index != b.index
    ensures OrdinalsOf(ts + [b], ordinals[b.index := |ordinals|])
  {
    var grown := ordinals[b.index := |ordinals|];
    forall i | i in grown
      ensures Opened(ts + [b], i)
    {
      OneMoreOpened(ts, b, i);
    }
    assert !Opened(ts, b.index);
    assert |grown| == |ordinals| + 1;
  }

  lemma OneMoreCall(ts: seq<Block>, b: Block, tools: map<nat, ToolEntry>)
    requires b.ToolBlock? && CallsAre(ts, tools)
    ensures CallsAre(ts + [b], tools[|ts| := Entry(b.id, b.name, Concat(b.fragments))])
  {
  }

  lemma OneMoreTool(before: seq<Block>, b: Block, st: State, c: Client)
    requires b.ToolBlock? && AfterBlocks(before, st, c) && DistinctTools(before + [b])
    ensures var n := |st.toolOrdinals|;
            AfterBlocks(before + [b], st.(toolOrdinals := st.toolOrdinals[b.index := n]),
                        c.(tools := c.tools[n := Entry(b.id, b.name, Concat(b.fragments))]))
  {
    var bs, ts := before + [b], Tools(before);
    assert bs[..|bs| - 1] == before;
    assert Tools(bs) == ts + [b];
    assert forall k :: 0 <= k < |ts| ==> Tools(bs)[k] == ts[k] && ts[k].index != Tools(bs)[|ts|].index;
    OneMoreOrdinal(ts, b, st.toolOrdinals);
    OneMoreCall(ts, b, c.tools);
    assert StreamedText(bs) == StreamedText(before) + "";
  }

  // ---- The non-streaming side ----

  /** A block of a complete message: `input` is the tool call's parsed input. */
  datatype DoneBlock = DoneText(text: string) | DoneTool(id: string, name: string, input: string)

  function ContentOf(blocks: seq<DoneBlock>): seq<Content> {
    if blocks == [] then [] else
      var last := blocks[|blocks| - 1];
      ContentOf(blocks[..|blocks| - 1])
      + [if last.DoneText? then TextPart(last.text) else ToolPart(last.id, last.name, last.input)]
  }

  /** `fromAnthropicResponse`; printing a tool's input is left to `input`. */
  method FromAnthropicResponse(blocks: seq<DoneBlock>, stopReason: Option<string>, usage: Option<StartUsage>)
    returns (r: AiResponse)
    ensures r.content == ContentOf(blocks) && r.finishReason == MapStopReason(stopReason)
    ensures r.usage.totalTokens == r.usage.inputTokens + r.usage.outputTokens
    ensures usage.Some? ==> r.usage.inputTokens == OrZero(usage.value.inputTokens)
                            && r.usage.outputTokens == OrZero(usage.value.outputTokens)
    ensures usage.None? ==> r.usage.totalTokens == 0 && r.usage.inputTokens == 0
  {
    var content := [];
    for i := 0 to |blocks|
      invariant content == ContentOf(blocks[..i])
    {
      assert blocks[..i + 1][..i] == blocks[..i];
      match blocks[i] {
        case DoneText(text) => content := content + [TextPart(text)];
        case DoneTool(id, name, input) => content := content + [ToolPart(id, name, input)];
      }
    }
    assert blocks[..|blocks|] == blocks;
    var i := if usage.Some? then OrZero(usage.value.inputTokens) else 0;
    var o := if usage.Some? then OrZero(usage.value.outputTokens) else 0;
    return AiResponse(content, MapStopReason(stopReason), Usage(i, o, i + o));
  }

  /** The message its own stream accumulates to; `reprint` is parsing a tool's
      JSON input and printing it again. */
  function Accumulated(bs: seq<Block>, reprint: string -> string): seq<DoneBlock> {
    if bs == [] then [] else
      var last := bs[|bs| - 1];
      Accumulated(bs[..|bs| - 1], reprint)
      + [match last
         case TextBlock(_, initial, pieces) => DoneText(initial + Concat(pieces))
         case ToolBlock(_, id, name, fragments) => DoneTool(id, name, reprint(Concat(fragments)))]
  }

  predicate StartEmpty(bs: seq<Block>) {
    forall b :: b in bs && b.TextBlock? ==> b.initial == ""
  }

  lemma AccumulatedUnfolds(bs: seq<Block>, reprint: string -> string)
    requires bs != []
    ensures var before, b := bs[..|bs| - 1], bs[|bs| - 1];
            && TextOf(ContentOf(Accumulated(bs, reprint)))
               == TextOf(ContentOf(Accumulated(before, reprint)))
                  + (if b.TextBlock? then b.initial + Concat(b.pieces) else "")
            && CallsOf(ContentOf(Accumulated(bs, reprint)))
               == CallsOf(ContentOf(Accumulated(before, reprint)))
                  + (if b.TextBlock? then [] else [ToolCall(b.id, b.name, reprint(Concat(b.fragments)))])
  {
    var done := Accumulated(bs, reprint);
    assert done[..|done| - 1] == Accumulated(bs[..|bs| - 1], reprint);
    var content := ContentOf(done);
    assert content[..|content| - 1] == ContentOf(Accumulated(bs[..|bs| - 1], reprint));
  }

  /** Texts of unequal length stay unequal when the longer one is extended more. */
  lemma LongerStaysLonger(t: string, u: string, initial: string, rest: string)
    requires |t| <= |u|
    ensures |t + rest| <= |u + (initial + rest)|
    ensures t + rest == u + (initial + rest) <==> t == u && initial == ""
  {
    if t + rest == u + (initial + rest) {
      assert |initial| == 0 && |t| == |u|;
      assert t == (t + rest)[..|t|] == u;
    } else if initial == "" {
      assert initial + rest == rest;
    }
  }

  /** The accumulated text is the streamed text exactly if no text block starts
      with text of its own; otherwise it is longer. */
  lemma {:induction false} AccumulatedText(bs: seq<Block>, reprint: string -> string)
    ensures |StreamedText(bs)| <= |TextOf(ContentOf(Accumulated(bs, reprint)))|
    ensures StreamedText(bs) == TextOf(ContentOf(Accumulated(bs, reprint))) <==> StartEmpty(bs)
  {
    if bs != [] {
      var before, b := bs[..|bs| - 1], bs[|bs| - 1];
      assert bs == before + [b];
      AccumulatedText(before, reprint);
      AccumulatedUnfolds(bs, reprint);
      var t, u := StreamedText(before), TextOf(ContentOf(Accumulated(before, reprint)));
      if b.TextBlock? {
        LongerStaysLonger(t, u, b.initial, Concat(b.pieces));
      } else {
        assert t + "" == t && u + "" == u;
      }
    }
  }

  lemma {:induction false} AccumulatedCalls(bs: seq<Block>, reprint: string -> string)
    ensures var calls := CallsOf(ContentOf(Accumulated(bs, reprint)));
            var ts := Tools(bs);
            && |calls| == |ts|
            && forall k :: 0 <= k < |ts| ==>
                 ts[k].ToolBlock? && calls[k] == ToolCall(ts[k].id, ts[k].name, reprint(Concat(ts[k].fragments)))
  {
    if bs != [] {
      AccumulatedCalls(bs[..|bs| - 1], reprint);
      AccumulatedUnfolds(bs, reprint);
    }
  }

  // ---- Agreement ----

  /** The client's k-th tool call names what the response's k-th call names. */
  ghost predicate SameCalls(c: Client, calls: seq<ToolCall>) {
    && (forall k: nat :: k in c.tools <==> k < |calls|)
    && (forall k :: 0 <= k < |calls| ==> c.tools[k].id == Some(calls[k].id) && c.tools[k].name == Some(calls[k].name))
  }

  predicate Named(b: Block) {
    b.ToolBlock? ==> b.id != "" && b.name != ""
  }

  predicate ToolsNamed(bs: seq<Block>) {
    forall b :: b in Tools(bs) ==> Named(b)
  }

  lemma SameCallsIffNamed(ts: seq<Block>, c: Client, calls: seq<ToolCall>)
    requires CallsAre(ts, c.tools) && |calls| == |ts|
    requires forall k :: 0 <= k < |ts| ==> calls[k].id == ts[k].id && calls[k].name == ts[k].name
    ensures SameCalls(c, calls) <==> forall b :: b in ts ==> Named(b)
  {
    if SameCalls(c, calls) {
      forall b | b in ts ensures Named(b) {
        var k :| 0 <= k < |ts| && ts[k] == b;
        assert c.tools[k].id == Some(calls[k].id);
      }
    } else {
      var k :| 0 <= k < |ts| && !(c.tools[k].id == Some(calls[k].id) && c.tools[k].name == Some(calls[k].name));
      assert ts[k] in ts && !Named(ts[k]);
    }
  }

  /** The client at the end of a stream of upstream events. */
  function ClientAfter(es: seq<AnthropicEvent>): Client {
    Pipe(INITIAL, NEW_CLIENT, es).1
  }

  /** The non-streaming response to the same message. */
  function ResponseTo(m: Message, reprint: string -> string, usage: Usage): Completion {
    CompletionOf(AiResponse(ContentOf(Accumulated(m.blocks, reprint)), MapStopReason(m.stopReason), usage))
  }

  /** The input count of the closing usage: its own, else the one the message
      started with, else 0. */
  function CarriedInput(m: Message): int
    requires m.deltaUsage.Some?
  {
    if m.deltaUsage.value.inputTokens.Some? then m.deltaUsage.value.inputTokens.value
    else if m.startUsage.Some? then OrZero(m.startUsage.value.inputTokens)
    else 0
  }

  /** The finish reason a stop reason stands for. */
  function FinishWord(stopReason: Option<string>): string {
    if stopReason == Some("max_tokens") then "length"
    else if stopReason == Some("tool_use") then "tool_calls"
    else "stop"
  }

  /** Usage is that of the closing delta or, without one, that of the start. */
  function UsageHeld(m: Message): Option<Usage> {
    if m.deltaUsage.Some? then
      var i, o := CarriedInput(m), m.deltaUsage.value.outputTokens;
      Some(Usage(i, o, i + o))
    else if m.startUsage.Some? then
      var i, o := OrZero(m.startUsage.value.inputTokens), OrZero(m.startUsage.value.outputTokens);
      Some(Usage(i, o, i + o))
    else None
  }

  ghost predicate Holds(m: Message, c: Client) {
    && c.text == StreamedText(m.blocks)
    && CallsAre(Tools(m.blocks), c.tools)
    && c.finish == (if m.stopReason.Some? && m.stopReason.value != "" then Some(FinishWord(m.stopReason)) else None)
    && c.usage == UsageHeld(m)
  }

  /** State and client once the start and all blocks of `m` have come. */
  function BeforeClosing(m: Message): (State, Client) {
    Pipe(INITIAL, NEW_CLIENT, [MessageStart(m.startUsage)] + BlocksEvents(m.blocks))
  }

  /** The input count that the start of `m` brings. */
  function StartInput(m: Message): Option<int> {
    if m.startUsage.Some? then m.startUsage.value.inputTokens else None
  }

  function UsageAtStart(m: Message): Option<Usage> {
    UsageHeld(m.(deltaUsage := None))
  }

  lemma AfterStart(m: Message)
    ensures var (st, c) := Pipe(INITIAL, NEW_CLIENT, [MessageStart(m.startUsage)]);
            && st == State(map[], StartInput(m)) && c == NEW_CLIENT.(usage := UsageAtStart(m))
  {
    PipeOne(INITIAL, NEW_CLIENT, MessageStart(m.startUsage));
    UsageOnly(INITIAL, NEW_CLIENT, MessageStart(m.startUsage));
  }

  lemma UpToClosing(m: Message)
    requires DistinctTools(m.blocks)
    ensures var (st, c) := BeforeClosing(m);
            AfterBlocks(m.blocks, st, c) && c.usage == UsageAtStart(m) && st.inputTokens == StartInput(m)
  {
    PipeAppend(INITIAL, NEW_CLIENT, [MessageStart(m.startUsage)], BlocksEvents(m.blocks));
    AfterStart(m);
    BlocksPiped(State(map[], StartInput(m)), m.blocks, NEW_CLIENT.(usage := UsageAtStart(m)));
  }

  lemma AfterClosing(m: Message, st: State, c: Client)
    requires AfterBlocks(m.blocks, st, c) && c.usage == UsageAtStart(m) && st.inputTokens == StartInput(m)
    ensures Holds(m, Pipe(st, c, [MessageDelta(m.stopReason, m.deltaUsage)]).1)
  {
    PipeOne(st, c, MessageDelta(m.stopReason, m.deltaUsage));
    Closing(st, c, m.stopReason, m.deltaUsage);
  }

  /** What a client holds at the end of a stream of message `m`. */
  lemma {:induction false} ClientOfStream(m: Message, es: seq<AnthropicEvent>)
    requires DistinctTools(m.blocks) && Signal(es) == Render(m)
    ensures Holds(m, ClientAfter(es))
  {
    var opening := [MessageStart(m.startUsage)] + BlocksEvents(m.blocks);
    PipeIgnoresNoise(INITIAL, NEW_CLIENT, es);
    PipeAppend(INITIAL, NEW_CLIENT, opening, [MessageDelta(m.stopReason, m.deltaUsage)]);
    var (st, c) := BeforeClosing(m);
    UpToClosing(m);
    AfterClosing(m, st, c);
  }

  lemma UsageOnly(st: State, c: Client, e: AnthropicEvent)
    requires e.MessageStart?
    ensures var (st', events) := ProcessEvent(st, e);
            var c' := ReceiveAll(c, events);
            && c'.usage == (if e.usage.Some? then
                              var i, o := OrZero(e.usage.value.inputTokens), OrZero(e.usage.value.outputTokens);
                              Some(Usage(i, o, i + o))
                            else c.usage)
            && st'.toolOrdinals == st.toolOrdinals && c'.text == c.text && c'.tools == c.tools && c'.finish == c.finish
            && st'.inputTokens == if e.usage.Some? then e.usage.value.inputTokens else st.inputTokens
  {
    var (st', events) := ProcessEvent(st, e);
    if events != [] {
      assert events[1..] == [];
      ReceiveOne(c, events[0]);
      assert c.text + "" == c.text;
    }
  }

  lemma Closing(st: State, c: Client, stopReason: Option<string>, usage: Option<DeltaUsage>)
    ensures var (st', events) := ProcessEvent(st, MessageDelta(stopReason, usage));
            var c' := ReceiveAll(c, events);
            && c'.text == c.text && c'.tools == c.tools
            && c'.finish == (if Truthy(stopReason).Some? then Some(MapStopReason(stopReason)) else c.finish)
            && c'.usage == if usage.None? then c.usage else
                 var i := if usage.value.inputTokens.Some? then usage.value.inputTokens.value
                          else OrZero(st.inputTokens);
                 Some(Usage(i, usage.value.outputTokens, i + usage.value.outputTokens))
  {
    var (st', events) := ProcessEvent(st, MessageDelta(stopReason, usage));
    assert c.text + "" == c.text;
    if usage.Some? {
      var c1 := Receive(c, events[0]);
      ReceiveOne(c, events[0]);
      ReceiveAppend(c, events[..1], events[1..]);
      assert events == events[..1] + events[1..] && events[..1] == [events[0]];
      assert c1.text + "" == c1.text;
      if Truthy(stopReason).Some? {
        assert events[1..] == [events[1]];
        ReceiveOne(c1, events[1]);
      }
    } else if Truthy(stopReason).Some? {
      assert events == [events[0]];
      ReceiveOne(c, events[0]);
    }
  }

  /** The k-th arguments string of the client is the k-th tool block's fragments
      put together; the response's is the same JSON printed again. */
  ghost predicate SameArguments(ts: seq<Block>, c: Client, calls: seq<ToolCall>, reprint: string -> string) {
    && |ts| == |calls|
    && forall k :: 0 <= k < |ts| ==>
         && k in c.tools && ts[k].ToolBlock?
         && c.tools[k].arguments == Concat(ts[k].fragments)
         && calls[k].arguments == reprint(c.tools[k].arguments)
  }

  lemma CallsAgree(bs: seq<Block>, c: Client, reprint: string -> string, calls: seq<ToolCall>)
    requires CallsAre(Tools(bs), c.tools) && calls == CallsOf(ContentOf(Accumulated(bs, reprint)))
    ensures SameCalls(c, calls) <==> ToolsNamed(bs)
    ensures SameArguments(Tools(bs), c, calls, reprint)
  {
    AccumulatedCalls(bs, reprint);
    SameCallsIffNamed(Tools(bs), c, calls);
  }

  lemma HeldAgrees(m: Message, c: Client, reprint: string -> string, usage: Usage)
    requires Holds(m, c)
    ensures Agrees(m, c, ResponseTo(m, reprint, usage), reprint)
  {
    AccumulatedText(m.blocks, reprint);
    CallsAgree(m.blocks, c, reprint, ResponseTo(m, reprint, usage).toolCalls);
  }

  ghost predicate Agrees(m: Message, c: Client, r: Completion, reprint: string -> string) {
    && (c.text == StringOr(r.text) <==> StartEmpty(m.blocks))
    && (SameCalls(c, r.toolCalls) <==> ToolsNamed(m.blocks))
    && r.finish == FinishWord(m.stopReason)
    && (c.finish == Some(r.finish) <==> m.stopReason.Some? && m.stopReason.value != "")
    && SameArguments(Tools(m.blocks), c, r.toolCalls, reprint)
  }

  /** For every message and every stream of it, whatever noise it carries: the
      reassembled text, the ordered (id, name) list and the finish reason are
      those of the non-streaming response - each exactly under the condition
      that nothing the stream does not transport is involved - and each
      arguments string is the concatenation of the block's fragments. */
  lemma {:induction false} StreamAgreesWithResponse(m: Message, es: seq<AnthropicEvent>, reprint: string -> string,
                                                    usage: Usage)
    requires DistinctTools(m.blocks) && Signal(es) == Render(m)
    ensures Agrees(m, ClientAfter(es), ResponseTo(m, reprint, usage), reprint)
  {
    ClientOfStream(m, es);
    HeldAgrees(m, ClientAfter(es), reprint, usage);
  }

  /** From the network to the client: the same agreement for every text, however
      cut into chunks, whose data lines decode to a stream of `m`. */
  lemma {:induction false} TextAgreesWithResponse(m: Message, parse: Json, text: string, reprint: string -> string,
                                                  usage: Usage)
    requires DistinctTools(m.blocks) && Signal(Decoded(Decode(parse), SplitLines(text))) == Render(m)
    ensures Agrees(m, ReceiveAll(NEW_CLIENT, EventsOf(parse, text)), ResponseTo(m, reprint, usage), reprint)
  {
    var es := Decoded(Decode(parse), SplitLines(text));
    LinesThenEvents(parse, INITIAL, SplitLines(text));
    PipeIsParseThenReceive(INITIAL, NEW_CLIENT, es);
    StreamAgreesWithResponse(m, es, reprint, usage);
  }
}
