/** The input items of a Responses API request become chat messages: tool calls
    join the assistant message right before them. */
module ResponsesInput {
  import opened Unified

  /** A content part: a non-empty text, or anything else (skipped). */
  datatype Part = TextPart(text: string) | OtherPart

  datatype ItemContent = Plain(text: string) | Parts(parts: seq<Part>) | NoContent

  datatype Item =
    | NotAnObject
    | FunctionCall(call: ToolCall)
    | FunctionCallOutput(callId: string, output: string)
    | MessageItem(role: string, content: ItemContent)

  datatype Message = Message(role: string, content: string, toolCallId: Option<string>, toolCalls: seq<ToolCall>)

  /** `Rejected` is the HTTP 400 that names the offending item's index. */
  datatype Parsed = Accepted(messages: seq<Message>) | Rejected(index: nat)

  function JoinParts(parts: seq<Part>): string {
    if parts == [] then "" else (if parts[0].TextPart? then parts[0].text else "") + JoinParts(parts[1..])
  }

  predicate Acceptable(item: Item) {
    !item.NotAnObject? && !(item.MessageItem? && item.content.NoContent?)
  }

  /** `mapResponsesInputItem`. */
  function MapItem(item: Item): Message
    requires Acceptable(item) && !item.FunctionCall?
  {
    match item
    case FunctionCallOutput(callId, output) => Message("tool", output, Some(callId), [])
    case MessageItem(role, content) =>
      Message(if role == "developer" then "system" else role,
              if content.Plain? then content.text else JoinParts(content.parts), None, [])
  }

  function Instructions(instructions: Option<string>): seq<Message> {
    if instructions.Some? && instructions.value != "" then [Message("system", instructions.value, None, [])] else []
  }

  // ---- Items grouped into turns ----

  /** An item with the run of calls that follows it, or a run of calls with no
      assistant message to join. */
  datatype Turn = Spoken(item: Item, calls: seq<ToolCall>) | Orphaned(calls: seq<ToolCall>)

  function CallItems(calls: seq<ToolCall>): seq<Item> {
    if calls == [] then [] else CallItems(calls[..|calls| - 1]) + [FunctionCall(calls[|calls| - 1])]
  }

  /** The items a turn was made of. */
  function ItemsOf(t: Turn): seq<Item> {
    (if t.Spoken? then [t.item] else []) + CallItems(t.calls)
  }

  function AllItems(turns: seq<Turn>): seq<Item> {
    if turns == [] then [] else AllItems(turns[..|turns| - 1]) + ItemsOf(turns[|turns| - 1])
  }

  /** An item that becomes a message of its own. */
  predicate Sayable(item: Item) {
    Acceptable(item) && !item.FunctionCall?
  }

  /** The turn's message is an assistant message: a call right after joins it. */
  predicate Joinable(t: Turn) {
    t.Orphaned? || (Sayable(t.item) && MapItem(t.item).role == "assistant")
  }

  /** A turn that may come after `before`: only assistant items carry calls, and
      calls stand alone only where no assistant message precedes them. */
  predicate Fits(before: seq<Turn>, t: Turn) {
    if t.Spoken? then Sayable(t.item) && (t.calls != [] ==> Joinable(t))
    else t.calls != [] && (before != [] ==> !Joinable(before[|before| - 1]))
  }

  predicate WellFormed(turns: seq<Turn>) {
    turns == [] || (WellFormed(turns[..|turns| - 1]) && Fits(turns[..|turns| - 1], turns[|turns| - 1]))
  }

  function Say(t: Turn): Message
    requires t.Spoken? ==> Sayable(t.item)
  {
    if t.Spoken? then MapItem(t.item).(toolCalls := t.calls) else Message("assistant", "", None, t.calls)
  }

  /** One message per turn, in order. */
  function SayAll(turns: seq<Turn>): (ms: seq<Message>)
    requires WellFormed(turns)
    ensures |ms| == |turns|
  {
    if turns == [] then [] else SayAll(turns[..|turns| - 1]) + [Say(turns[|turns| - 1])]
  }

  function Extend(turns: seq<Turn>, item: Item): seq<Turn> {
    if item.FunctionCall? then
      if turns != [] && Joinable(turns[|turns| - 1]) then
        turns[..|turns| - 1] + [AddCall(turns[|turns| - 1], item.call)]
      else turns + [Orphaned([item.call])]
    else turns + [Spoken(item, [])]
  }

  function AddCall(t: Turn, call: ToolCall): Turn {
    t.(calls := t.calls + [call])
  }

  function TurnsOf(items: seq<Item>): seq<Turn> {
    if items == [] then [] else Extend(TurnsOf(items[..|items| - 1]), items[|items| - 1])
  }

  lemma AnotherTurn(turns: seq<Turn>, t: Turn)
    requires WellFormed(turns) && Fits(turns, t)
    ensures WellFormed(turns + [t])
    ensures SayAll(turns + [t]) == SayAll(turns) + [Say(t)]
  {
    assert (turns + [t])[..|turns|] == turns;
  }

  lemma AnotherTurnItems(turns: seq<Turn>, t: Turn)
    ensures AllItems(turns + [t]) == AllItems(turns) + ItemsOf(t)
  {
    assert (turns + [t])[..|turns|] == turns;
  }

  lemma AnotherItem(items: seq<Item>, item: Item)
    ensures TurnsOf(items + [item]) == Extend(TurnsOf(items), item)
  {
    assert (items + [item])[..|items|] == items;
  }

  lemma AnotherCall(t: Turn, call: ToolCall)
    ensures ItemsOf(AddCall(t, call)) == ItemsOf(t) + [FunctionCall(call)]
  {
    assert (t.calls + [call])[..|t.calls|] == t.calls;
  }

  /** An item either opens a turn or joins the last one. */
  predicate Joins(turns: seq<Turn>, item: Item) {
    item.FunctionCall? && turns != [] && Joinable(turns[|turns| - 1])
  }

  function Opened(item: Item): Turn {
    if item.FunctionCall? then Orphaned([item.call]) else Spoken(item, [])
  }

  lemma OpenedFits(turns: seq<Turn>, item: Item)
    requires Acceptable(item) && !Joins(turns, item)
    ensures Fits(turns, Opened(item)) && Extend(turns, item) == turns + [Opened(item)]
    ensures ItemsOf(Opened(item)) == [item]
  {
    if item.FunctionCall? {
      AnotherCall(Orphaned([]), item.call);
      assert [] + [item.call] == [item.call];
    }
  }

  lemma Reassociate<T>(a: seq<T>, b: seq<T>, c: seq<T>)
    ensures a + (b + c) == (a + b) + c
  {
  }

  lemma JoiningKeeps(before: seq<Turn>, last: Turn, call: ToolCall)
    requires WellFormed(before) && Fits(before, last) && Joinable(last)
    ensures WellFormed(before + [AddCall(last, call)])
    ensures AllItems(before + [AddCall(last, call)]) == AllItems(before) + ItemsOf(last) + [FunctionCall(call)]
  {
    AnotherTurn(before, AddCall(last, call));
    AnotherTurnItems(before, AddCall(last, call));
    AnotherCall(last, call);
    Reassociate(AllItems(before), ItemsOf(last), [FunctionCall(call)]);
  }

  lemma ExtendKeeps(turns: seq<Turn>, item: Item)
    requires WellFormed(turns) && Acceptable(item)
    ensures WellFormed(Extend(turns, item)) && AllItems(Extend(turns, item)) == AllItems(turns) + [item]
  {
    if Joins(turns, item) {
      JoiningKeeps(turns[..|turns| - 1], turns[|turns| - 1], item.call);
    } else {
      OpenedFits(turns, item);
      AnotherTurn(turns, Opened(item));
      AnotherTurnItems(turns, Opened(item));
    }
  }

  /** Conservation: grouping loses, adds and reorders nothing - flattening the
      turns gives the items back. */
  lemma {:induction false} TurnsConserveItems(items: seq<Item>)
    requires AllAcceptable(items)
    ensures WellFormed(TurnsOf(items)) && AllItems(TurnsOf(items)) == items
  {
    if items != [] {
      var before, last := items[..|items| - 1], items[|items| - 1];
      assert items == before + [last];
      TurnsConserveItems(before);
      ExtendKeeps(TurnsOf(before), last);
    }
  }

  lemma {:induction false} LastTurnIsUnique(items: seq<Item>, last: Turn)
    requires Fits(TurnsOf(items), last)
    ensures TurnsOf(items + ItemsOf(last)) == TurnsOf(items) + [last]
    decreases |last.calls|
  {
    if last.calls == [] {
      AnotherItem(items, last.item);
      assert ItemsOf(last) == [last.item];
    } else {
      var calls, call := last.calls[..|last.calls| - 1], last.calls[|last.calls| - 1];
      var shorter := last.(calls := calls);
      assert last == AddCall(shorter, call);
      AnotherCall(shorter, call);
      Reassociate(items, ItemsOf(shorter), [FunctionCall(call)]);
      AnotherItem(items + ItemsOf(shorter), FunctionCall(call));
      if last.Orphaned? && calls == [] {
        assert items + ItemsOf(shorter) == items;
      } else {
        LastTurnIsUnique(items, shorter);
        CallJoins(TurnsOf(items), shorter, call);
      }
    }
  }

  lemma CallJoins(before: seq<Turn>, last: Turn, call: ToolCall)
    requires Joinable(last)
    ensures Extend(before + [last], FunctionCall(call)) == before + [AddCall(last, call)]
  {
    assert (before + [last])[..|before|] == before;
  }

  /** There is only one such grouping: runs of calls cannot be cut or joined
      differently. */
  lemma {:induction false} TurnsAreUnique(turns: seq<Turn>)
    requires WellFormed(turns)
    ensures TurnsOf(AllItems(turns)) == turns
  {
    if turns != [] {
      var before, last := turns[..|turns| - 1], turns[|turns| - 1];
      assert turns == before + [last];
      TurnsAreUnique(before);
      LastTurnIsUnique(AllItems(before), last);
    }
  }

  // ---- The parser ----

  /** `appendResponsesFunctionCall`. */
  function AppendCall(messages: seq<Message>, call: ToolCall): seq<Message> {
    if messages != [] && messages[|messages| - 1].role == "assistant" then
      var previous := messages[|messages| - 1];
      messages[..|messages| - 1] + [previous.(toolCalls := previous.toolCalls + [call])]
    else
      messages + [Message("assistant", "", None, [call])]
  }

  /** What the loop does with one accepted item. */
  function Push(messages: seq<Message>, item: Item): seq<Message>
    requires Acceptable(item)
  {
    if item.FunctionCall? then AppendCall(messages, item.call) else messages + [MapItem(item)]
  }

  ghost predicate AllAcceptable(items: seq<Item>) {
    forall i :: 0 <= i < |items| ==> Acceptable(items[i])
  }

  ghost function PushAll(messages: seq<Message>, items: seq<Item>): seq<Message>
    requires AllAcceptable(items)
  {
    if items == [] then messages else Push(PushAll(messages, items[..|items| - 1]), items[|items| - 1])
  }

  lemma PushJoins(head: seq<Message>, turns: seq<Turn>, item: Item)
    requires WellFormed(turns) && Joins(turns, item)
    ensures WellFormed(Extend(turns, item))
    ensures Push(head + SayAll(turns), item) == head + SayAll(Extend(turns, item))
  {
    var before, last := turns[..|turns| - 1], turns[|turns| - 1];
    var joined := AddCall(last, item.call);
    AnotherTurn(before, joined);
    var messages, kept := head + SayAll(turns), SayAll(before);
    assert messages == head + kept + [Say(last)];
    assert messages[..|messages| - 1] == head + kept;
    assert Say(joined) == Say(last).(toolCalls := Say(last).toolCalls + [item.call]);
    assert head + kept + [Say(joined)] == head + (kept + [Say(joined)]);
  }

  lemma PushOpens(head: seq<Message>, turns: seq<Turn>, item: Item)
    requires WellFormed(turns) && Acceptable(item) && !Joins(turns, item)
    requires head != [] ==> head[|head| - 1].role != "assistant"
    ensures WellFormed(Extend(turns, item))
    ensures Push(head + SayAll(turns), item) == head + SayAll(Extend(turns, item))
  {
    OpenedFits(turns, item);
    AnotherTurn(turns, Opened(item));
    var messages, said := head + SayAll(turns), Say(Opened(item));
    if turns == [] {
      assert messages == head;
    } else {
      assert messages[|messages| - 1] == Say(turns[|turns| - 1]);
    }
    assert Push(messages, item) == messages + [said];
    assert head + SayAll(turns) + [said] == head + (SayAll(turns) + [said]);
  }

  /** One step of the parser is one step of the grouping. */
  lemma PushIsExtend(head: seq<Message>, turns: seq<Turn>, item: Item)
    requires WellFormed(turns) && Acceptable(item)
    requires head != [] ==> head[|head| - 1].role != "assistant"
    ensures WellFormed(Extend(turns, item))
    ensures Push(head + SayAll(turns), item) == head + SayAll(Extend(turns, item))
  {
    if Joins(turns, item) {
      PushJoins(head, turns, item);
    } else {
      PushOpens(head, turns, item);
    }
  }

  // ---- What conservation means for calls ----

  function CallsIn(items: seq<Item>): seq<ToolCall> {
    if items == [] then [] else
      var last := items[|items| - 1];
      CallsIn(items[..|items| - 1]) + if last.FunctionCall? then [last.call] else []
  }

  function CallsAcross(messages: seq<Message>): seq<ToolCall> {
    if messages == [] then [] else CallsAcross(messages[..|messages| - 1]) + messages[|messages| - 1].toolCalls
  }

  lemma {:induction false} CallsInAppend(items: seq<Item>, calls: seq<ToolCall>)
    ensures CallsIn(items + CallItems(calls)) == CallsIn(items) + calls
  {
    if calls == [] {
      assert items + [] == items;
    } else {
      var before, last := calls[..|calls| - 1], calls[|calls| - 1];
      var all := items + CallItems(calls);
      assert all[..|all| - 1] == items + CallItems(before);
      CallsInAppend(items, before);
    }
  }

  lemma CallsInTurn(items: seq<Item>, t: Turn)
    requires t.Spoken? ==> !t.item.FunctionCall?
    ensures CallsIn(items + ItemsOf(t)) == CallsIn(items) + t.calls
  {
    var spoken := if t.Spoken? then [t.item] else [];
    if t.Spoken? {
      assert (items + spoken)[..|items|] == items;
    } else {
      assert items + spoken == items;
    }
    CallsInAppend(items + spoken, t.calls);
    Reassociate(items, spoken, CallItems(t.calls));
  }

  lemma CallsAcrossAppend(messages: seq<Message>, m: Message)
    ensures CallsAcross(messages + [m]) == CallsAcross(messages) + m.toolCalls
  {
    assert (messages + [m])[..|messages|] == messages;
  }

  /** The tool calls across all messages are the function_call items, in order. */
  lemma {:induction false} CallsConserved(head: seq<Message>, turns: seq<Turn>)
    requires WellFormed(turns) && CallsAcross(head) == []
    ensures CallsAcross(head + SayAll(turns)) == CallsIn(AllItems(turns))
  {
    if turns == [] {
      assert head + [] == head;
    } else {
      var before, last := turns[..|turns| - 1], turns[|turns| - 1];
      CallsConserved(head, before);
      CallsInTurn(AllItems(before), last);
      CallsAcrossAppend(head + SayAll(before), Say(last));
      Reassociate(head, SayAll(before), [Say(last)]);
    }
  }

  /** Conservation, of messages: the instructions, then one message per turn. */
  lemma {:induction false} InputConserved(head: seq<Message>, items: seq<Item>)
    requires AllAcceptable(items)
    requires head != [] ==> head[|head| - 1].role != "assistant"
    ensures WellFormed(TurnsOf(items))
    ensures PushAll(head, items) == head + SayAll(TurnsOf(items))
  {
    if items == [] {
      assert head + [] == head;
    } else {
      InputConserved(head, items[..|items| - 1]);
      PushIsExtend(head, TurnsOf(items[..|items| - 1]), items[|items| - 1]);
    }
  }

  // ---- What each message says ----

  /** `text` is the text parts put together, in order. */
  ghost predicate IsTextOf(text: string, parts: seq<Part>) {
    if parts == [] then text == ""
    else if parts[0].TextPart? then parts[0].text <= text && IsTextOf(text[|parts[0].text|..], parts[1..])
    else IsTextOf(text, parts[1..])
  }

  /** The message says what the item says. */
  ghost predicate Relays(m: Message, item: Item) {
    match item
    case FunctionCallOutput(callId, output) => m.role == "tool" && m.content == output && m.toolCallId == Some(callId)
    case MessageItem(role, content) =>
      && m.role == (if role == "developer" then "system" else role) && m.toolCallId == None
      && (content.Plain? ==> m.content == content.text)
      && (content.Parts? ==> IsTextOf(m.content, content.parts))
    case _ => false
  }

  lemma {:induction false} JoinIsText(parts: seq<Part>)
    ensures IsTextOf(JoinParts(parts), parts)
  {
    if parts != [] {
      JoinIsText(parts[1..]);
      if parts[0].TextPart? {
        assert JoinParts(parts)[|parts[0].text|..] == JoinParts(parts[1..]);
      } else {
        assert "" + JoinParts(parts[1..]) == JoinParts(parts[1..]);
      }
    }
  }

  lemma SayRelays(item: Item, calls: seq<ToolCall>)
    requires Sayable(item)
    ensures Relays(Say(Spoken(item, calls)), item)
  {
    if item.MessageItem? && item.content.Parts? {
      JoinIsText(item.content.parts);
    }
  }

  /** The items that are no tool calls, in order. */
  function NonCalls(items: seq<Item>): seq<Item> {
    if items == [] then [] else
      var last := items[|items| - 1];
      NonCalls(items[..|items| - 1]) + if last.FunctionCall? then [] else [last]
  }

  /** A message made for calls alone. */
  predicate StandsAlone(m: Message) {
    m.role == "assistant" && m.content == "" && m.toolCallId == None && m.toolCalls != []
  }

  /** The messages split, in order, into those that relay the items - the i-th of
      them at place `at[i]`, with calls only if it is the assistant's - and those
      made for calls alone, none of which has an assistant message to join. */
  ghost predicate RelaysAll(messages: seq<Message>, items: seq<Item>, at: seq<nat>) {
    && |at| == |items|
    && (forall i :: 0 <= i < |at| ==>
          && at[i] < |messages| && Relays(messages[at[i]], items[i])
          && (messages[at[i]].toolCalls != [] ==> messages[at[i]].role == "assistant"))
    && (forall i, j :: 0 <= i < j < |at| ==> at[i] < at[j])
    && (forall k :: 0 <= k < |messages| && k !in at ==>
          StandsAlone(messages[k]) && (k > 0 ==> messages[k - 1].role != "assistant"))
  }

  lemma {:induction false} NonCallsAppend(items: seq<Item>, calls: seq<ToolCall>)
    ensures NonCalls(items + CallItems(calls)) == NonCalls(items)
  {
    if calls == [] {
      assert items + [] == items;
    } else {
      var all := items + CallItems(calls);
      assert all[..|all| - 1] == items + CallItems(calls[..|calls| - 1]);
      NonCallsAppend(items, calls[..|calls| - 1]);
    }
  }

  lemma NonCallsOfTurn(items: seq<Item>, t: Turn)
    requires t.Spoken? ==> !t.item.FunctionCall?
    ensures NonCalls(items + ItemsOf(t)) == NonCalls(items) + if t.Spoken? then [t.item] else []
  {
    var spoken := if t.Spoken? then [t.item] else [];
    if t.Spoken? {
      assert (items + spoken)[..|items|] == items;
    } else {
      assert items + spoken == items;
    }
    NonCallsAppend(items + spoken, t.calls);
    Reassociate(items, spoken, CallItems(t.calls));
  }

  lemma RelayedMore(messages: seq<Message>, items: seq<Item>, at: seq<nat>, m: Message, item: Item)
    requires RelaysAll(messages, items, at) && Relays(m, item) && (m.toolCalls != [] ==> m.role == "assistant")
    ensures RelaysAll(messages + [m], items + [item], at + [|messages|])
  {
    var more := at + [|messages|];
    assert forall k :: k in at ==> k in more;
    assert more[|at|] == |messages|;
  }

  lemma AloneMore(messages: seq<Message>, items: seq<Item>, at: seq<nat>, m: Message)
    requires RelaysAll(messages, items, at) && StandsAlone(m)
    requires messages != [] ==> messages[|messages| - 1].role != "assistant"
    ensures RelaysAll(messages + [m], items, at)
  {
  }

  lemma TurnRelayed(before: seq<Turn>, last: Turn, items: seq<Item>, at: seq<nat>) returns (at': seq<nat>)
    requires WellFormed(before) && Fits(before, last) && RelaysAll(SayAll(before), items, at)
    ensures RelaysAll(SayAll(before) + [Say(last)], items + (if last.Spoken? then [last.item] else []), at')
  {
    if last.Spoken? {
      SayRelays(last.item, last.calls);
      RelayedMore(SayAll(before), items, at, Say(last), last.item);
      at' := at + [|before|];
    } else {
      AloneMore(SayAll(before), items, at, Say(last));
      assert items + [] == items;
      at' := at;
    }
  }

  /** Every item that is no call is relayed by one message, in order; every other
      message stands for calls alone. */
  lemma {:induction false} ItemsRelayed(turns: seq<Turn>) returns (at: seq<nat>)
    requires WellFormed(turns)
    ensures RelaysAll(SayAll(turns), NonCalls(AllItems(turns)), at)
  {
    if turns == [] {
      at := [];
    } else {
      var before, last := turns[..|turns| - 1], turns[|turns| - 1];
      at := ItemsRelayed(before);
      at := TurnRelayed(before, last, NonCalls(AllItems(before)), at);
      NonCallsOfTurn(AllItems(before), last);
    }
  }

  /** An item that is no object, or a message without content. */
  predicate Malformed(item: Item) {
    item.NotAnObject? || (item.MessageItem? && item.content == NoContent)
  }

  ghost predicate Relayed(messages: seq<Message>, items: seq<Item>) {
    exists at :: RelaysAll(messages, items, at)
  }

  /** The accepted messages: the instructions first, if there are any, then one
      message for each item that is no call, saying what the item says, and one
      for each run of calls that has no assistant message to join. */
  ghost predicate Conveys(instructions: Option<string>, items: seq<Item>, messages: seq<Message>) {
    var given := instructions.Some? && instructions.value != "";
    && (given ==> messages != [] && messages[0] == Message("system", instructions.value, None, []))
    && Relayed(if given then messages[1..] else messages, NonCalls(items))
  }

  lemma Conveyed(instructions: Option<string>, items: seq<Item>)
    requires AllAcceptable(items)
    ensures WellFormed(TurnsOf(items))
    ensures Conveys(instructions, items, Instructions(instructions) + SayAll(TurnsOf(items)))
  {
    TurnsConserveItems(items);
    var at := ItemsRelayed(TurnsOf(items));
    var head, said := Instructions(instructions), SayAll(TurnsOf(items));
    assert head == [] ==> head + said == said;
    assert head != [] ==> (head + said)[1..] == said;
    assert RelaysAll(said, NonCalls(items), at);
  }

  /** What the loop ends with when it has accepted everything. */
  ghost predicate Outcome(instructions: Option<string>, items: seq<Item>, messages: seq<Message>) {
    && WellFormed(TurnsOf(items)) && messages == Instructions(instructions) + SayAll(TurnsOf(items))
    && CallsAcross(messages) == CallsIn(items)
    && Conveys(instructions, items, messages)
  }

  lemma AllPushed(instructions: Option<string>, items: seq<Item>)
    requires AllAcceptable(items)
    ensures Outcome(instructions, items, PushAll(Instructions(instructions), items))
  {
    var head := Instructions(instructions);
    InputConserved(head, items);
    TurnsConserveItems(items);
    assert CallsAcross(head) == [] by {
      if head != [] {
        assert head[..|head| - 1] == [];
      }
    }
    CallsConserved(head, TurnsOf(items));
    Conveyed(instructions, items);
  }

  lemma AcceptableIsWellMade(items: seq<Item>)
    ensures AllAcceptable(items) <==> forall i :: 0 <= i < |items| ==> !Malformed(items[i])
  {
    assert forall i :: 0 <= i < |items| ==> (Acceptable(items[i]) <==> !Malformed(items[i]));
  }

  /** The items are accepted as a whole or rejected at the first malformed one; if
      accepted, the messages convey the items, one message per turn, and the calls
      across them are the function_call items in order. */
  method ParseInput(instructions: Option<string>, items: seq<Item>) returns (r: Parsed)
    ensures r.Accepted? <==> forall i :: 0 <= i < |items| ==> !Malformed(items[i])
    ensures r.Rejected? ==> r.index < |items| && Malformed(items[r.index])
                            && forall i :: 0 <= i < r.index ==> !Malformed(items[i])
    ensures r.Accepted? ==> Outcome(instructions, items, r.messages)
  {
    var messages := [];
    if instructions.Some? && instructions.value != "" {
      messages := messages + [Message("system", instructions.value, None, [])];
    }
    ghost var head := Instructions(instructions);
    for i := 0 to |items|
      invariant AllAcceptable(items[..i])
      invariant messages == PushAll(head, items[..i])
    {
      var item := items[i];
      if !Acceptable(item) {
        AcceptableIsWellMade(items[..i]);
        assert forall j :: 0 <= j < i ==> items[..i][j] == items[j];
        return Rejected(i);
      }
      assert items[..i + 1] == items[..i] + [item];
      assert items[..i + 1][..i] == items[..i];
      if item.FunctionCall? {
        messages := AppendCall(messages, item.call);
      } else {
        messages := messages + [MapItem(item)];
      }
    }
    assert items[..|items|] == items;
    AllPushed(instructions, items);
    AcceptableIsWellMade(items);
    return Accepted(messages);
  }
}
