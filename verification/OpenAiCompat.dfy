/** The OpenAI surface: unified events and responses as Chat Completions
    output, and the client that reassembles a stream of chunks. */
module OpenAiCompat {
  import opened Unified

  const FINISH_REASONS := {"stop", "length", "tool_calls", "content_filter", "error"}

  function ToOpenAiFinishReason(reason: string): string {
    if reason in FINISH_REASONS then reason else "stop"
  }

  /** A field that is left out when it is missing or empty. */
  function Truthy(s: Option<string>): Option<string> {
    if s.Some? && s.value != "" then s else None
  }

  datatype ToolFragment = ToolFragment(index: nat, id: Option<string>, isFunction: bool, name: Option<string>,
                                       arguments: Option<string>)

  /** A `chat.completion.chunk`, without its constant fields. */
  datatype Chunk = Chunk(content: Option<string>, tools: seq<ToolFragment>, finish: Option<string>,
                         usage: Option<Usage>)

  function FormatStreamChunk(event: StreamEvent): Option<Chunk> {
    match event
    case ContentDelta(delta) => Some(Chunk(Some(delta), [], None, None))
    case ToolCallDelta(index, id, name, argumentsDelta) =>
      var isFunction := Truthy(name).Some? || Truthy(id).Some?;
      Some(Chunk(None, [ToolFragment(index, Truthy(id), isFunction, Truthy(name), Truthy(argumentsDelta))], None, None))
    case Done(reason) => Some(Chunk(None, [], Some(ToOpenAiFinishReason(reason)), None))
    case UsageReport(usage) => Some(Chunk(None, [], None, Some(usage)))
    case Error(_, _) => None
  }

  // ---- A client that reassembles the chunks ----

  datatype ToolEntry = ToolEntry(id: Option<string>, name: Option<string>, arguments: string)

  datatype Client = Client(text: string, tools: map<nat, ToolEntry>, finish: Option<string>, usage: Option<Usage>)

  const NEW_CLIENT := Client("", map[], None, None)

  function OrElse<T>(a: Option<T>, b: Option<T>): Option<T> {
    if a.Some? then a else b
  }

  function StringOr(s: Option<string>): string {
    if s.Some? then s.value else ""
  }

  /** A fragment joins the tool call of its index. */
  function AbsorbTool(tools: map<nat, ToolEntry>, f: ToolFragment): map<nat, ToolEntry> {
    var entry := if f.index in tools then tools[f.index] else ToolEntry(None, None, "");
    tools[f.index := ToolEntry(OrElse(f.id, entry.id), OrElse(f.name, entry.name),
                               entry.arguments + StringOr(f.arguments))]
  }

  function AbsorbTools(tools: map<nat, ToolEntry>, fs: seq<ToolFragment>): map<nat, ToolEntry>
    decreases |fs|
  {
    if fs == [] then tools else AbsorbTools(AbsorbTool(tools, fs[0]), fs[1..])
  }

  function Absorb(c: Client, chunk: Chunk): Client {
    Client(c.text + StringOr(chunk.content), AbsorbTools(c.tools, chunk.tools),
           OrElse(chunk.finish, c.finish), OrElse(chunk.usage, c.usage))
  }

  function Receive(c: Client, event: StreamEvent): Client {
    var chunk := FormatStreamChunk(event);
    if chunk.Some? then Absorb(c, chunk.value) else c
  }

  function ReceiveAll(c: Client, events: seq<StreamEvent>): Client
    decreases |events|
  {
    if events == [] then c else ReceiveAll(Receive(c, events[0]), events[1..])
  }

  lemma {:induction false} ReceiveAppend(c: Client, a: seq<StreamEvent>, b: seq<StreamEvent>)
    ensures ReceiveAll(c, a + b) == ReceiveAll(ReceiveAll(c, a), b)
    decreases |a|
  {
    if a == [] {
      assert a + b == b;
    } else {
      assert (a + b)[0] == a[0] && (a + b)[1..] == a[1..] + b;
      ReceiveAppend(Receive(c, a[0]), a[1..], b);
    }
  }

  // ---- The non-streaming response ----

  datatype Content = TextPart(text: string) | ToolPart(id: string, name: string, arguments: string)

  datatype AiResponse = AiResponse(content: seq<Content>, finishReason: string, usage: Usage)

  datatype Completion = Completion(text: Option<string>, toolCalls: seq<ToolCall>, finish: string, usage: Usage)

  /** All text parts together. */
  function TextOf(content: seq<Content>): string {
    if content == [] then "" else
      var last := content[|content| - 1];
      TextOf(content[..|content| - 1]) + if last.TextPart? then last.text else ""
  }

  function CallsOf(content: seq<Content>): seq<ToolCall> {
    if content == [] then [] else
      var last := content[|content| - 1];
      CallsOf(content[..|content| - 1])
      + if last.ToolPart? then [ToolCall(last.id, last.name, last.arguments)] else []
  }

  function CompletionOf(r: AiResponse): Completion {
    Completion(Truthy(Some(TextOf(r.content))), CallsOf(r.content), ToOpenAiFinishReason(r.finishReason), r.usage)
  }

  method FormatChatCompletionResponse(r: AiResponse) returns (c: Completion)
    ensures c == CompletionOf(r) && c.usage == r.usage
    ensures c.finish == if r.finishReason in {"stop", "length", "tool_calls", "content_filter", "error"} then
                          r.finishReason
                        else "stop"
  {
    var textContent: Option<string>, toolCalls := None, [];
    for i := 0 to |r.content|
      invariant textContent == Truthy(Some(TextOf(r.content[..i])))
      invariant toolCalls == CallsOf(r.content[..i])
    {
      var item := r.content[i];
      assert r.content[..i + 1][..i] == r.content[..i];
      if item.TextPart? {
        assert TextOf(r.content[..i + 1]) == TextOf(r.content[..i]) + item.text;
        if item.text != "" {
          textContent := Some(if textContent.Some? then textContent.value + item.text else item.text);
        }
        assert "" + item.text == item.text && TextOf(r.content[..i]) + "" == TextOf(r.content[..i]);
      } else {
        assert TextOf(r.content[..i]) + "" == TextOf(r.content[..i]);
        toolCalls := toolCalls + [ToolCall(item.id, item.name, item.arguments)];
      }
    }
    assert r.content[..|r.content|] == r.content;
    return Completion(textContent, toolCalls, ToOpenAiFinishReason(r.finishReason), r.usage);
  }

  /** A chunk of a tool call says that it is a function exactly if it carries the
      call's id or name; empty fields are left out. */
  lemma ToolChunk(index: nat, id: Option<string>, name: Option<string>, arguments: Option<string>)
    ensures var chunk := FormatStreamChunk(ToolCallDelta(index, id, name, arguments));
            && chunk.Some? && chunk.value.content == None && chunk.value.finish == None && chunk.value.usage == None
            && |chunk.value.tools| == 1
            && var f := chunk.value.tools[0];
               && f.index == index && (f.isFunction <==> f.id.Some? || f.name.Some?)
               && f.id == (if id == Some("") then None else id)
               && f.name == (if name == Some("") then None else name)
               && f.arguments == (if arguments == Some("") then None else arguments)
  {
  }
}
