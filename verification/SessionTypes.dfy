/** The durable values of a session: inputs, turns, responses, tool-call statuses, operations. */
module SessionTypes {
  import opened Operations
  import opened Options

  /** A JSON value that may be absent; one held in memory need not be valid. */
  datatype Json = Absent | Json(text: string, valid: bool)

  predicate ValidJson(j: Json) { j.Json? ==> j.valid }

  datatype Operation = Operation(
    id: string, kind: string, version: nat, status: Status, maxOutputLength: int, state: Json, idempotency: Json)

  datatype Mode = StopHard | StopWhenIdle | Heartbeat | UpdateSettings(effort: string)

  datatype ControlMessage = ControlMessage(mode: Mode, reason: string)

  /** A control input carries the message its payload decodes to, or `None` when it does not decode. */
  datatype InputKind = External | Control(message: Option<ControlMessage>) | Crash | OtherKind(name: string)

  datatype Input = Input(id: string, kind: InputKind, payload: Json)

  predicate ValidInput(input: Input) {
    && input.id != ""
    && !input.kind.OtherKind?
    && (input.kind.Control? ==> input.kind.message.Some?)
    && ValidJson(input.payload)
  }

  datatype TurnType = Regular | Compaction | OtherTurn(name: string)

  datatype Turn = Turn(id: string, previous: string, kind: TurnType)

  datatype ToolOutput = TextOutput(text: string) | ImageOutput(data: string)

  datatype ToolCall = ToolCall(callID: string, name: string, arguments: string)

  /** What the model is shown, and what it answers. */
  datatype ModelItem =
    | Message(role: string, text: string)
    | CallItem(call: ToolCall)
    | ResultItem(callID: string, output: seq<ToolOutput>)
    | Reasoning(raw: string)

  datatype Response = Response(turnID: string, output: seq<ModelItem>, details: string)

  datatype CallStatus = CallStatus(error: string, errorTruncated: bool, waitingFor: seq<string>)

  datatype ToolCallStatus = ToolCallStatus(turnID: string, callID: string, status: CallStatus,
    operations: seq<Operation>)

  datatype ItemData =
    | ForkItem(parent: string, previousTurn: string)
    | InputItem(input: Input)
    | TurnItem(turn: Turn)
    | ResponseItem(response: Response)
    | StatusItem(status: ToolCallStatus)

  /** `recordedAt` 0 is the zero time. */
  datatype Item = Item(sequence: nat, recordedAt: nat, data: ItemData)

  datatype Session = Session(id: string, createdAt: nat)
}
