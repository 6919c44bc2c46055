/** The provider-neutral vocabulary every other module speaks
    (libs/sirius-core/src/types). */
module Unified {
  datatype Option<+T> = None | Some(value: T)

  datatype Usage = Usage(inputTokens: int, outputTokens: int, totalTokens: int)

  datatype StreamEvent =
    | ContentDelta(delta: string)
    | ToolCallDelta(index: nat, id: Option<string>, name: Option<string>, argumentsDelta: Option<string>)
    | UsageReport(usage: Usage)
    | Done(finishReason: string)
    | Error(error: string, code: Option<string>)

  datatype ToolCall = ToolCall(id: string, name: string, arguments: string)

  function OrZero(n: Option<int>): int {
    if n.Some? then n.value else 0
  }

  function ErrorEvent(message: string): StreamEvent {
    Error(message, None)
  }
}
