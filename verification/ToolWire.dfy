/** What the two ends of the Home Assistant tool protocol and the bridge session share. */
module ToolWire {
  type Generation = nat
  type CallId = nat
  type Connection = nat
  type Json = string

  datatype Snapshot = Snapshot(gen: Generation, names: set<string>)

  /** The correlation future of one call. */
  datatype Future = Waiting | Resolved(success: bool, value: Json) | Disconnected | Abandoned

  datatype Refusal = AuthorityChanged | UndeclaredTool | ArgumentsTooLarge | TooManyPending

  datatype Ending = Returned | TimedOut | Cancelled | SendFailed
}
