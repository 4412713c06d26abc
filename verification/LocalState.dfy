/** What the coordinator knows of a session: a fold over the session's items. */
module LocalState {
  import opened Operations
  import opened Options
  import opened SessionTypes
  import opened SessionState
  import opened SessionHistory
  import opened ContextBuilder

  /** What a translator submits for one operation. */
  datatype Spec = Spec(kind: string, version: nat, maxOutputLength: int, state: Json, idempotency: Json)

  /** A translated call is refused with an error, or waits for the operations it submits. */
  datatype Plan = Reject(status: CallStatus) | Start(specs: seq<Spec>)

  datatype Translator = Translator(plan: ToolCall -> Plan,
    result: (string, CallStatus, seq<Operation>) -> Option<seq<ToolOutput>>)

  /** The pure dependencies of the coordinator. */
  datatype Tools = Tools(
    text: Json -> Option<string>,
    resolve: string -> Option<Translator>,
    unavailable: string -> CallStatus)

  predicate ValidSpec(spec: Spec) {
    spec.kind != "" && spec.version != 0 && ValidJson(spec.state) && ValidJson(spec.idempotency)
  }

  predicate IsError(status: CallStatus) {
    status.error != "" && status.waitingFor == []
  }

  /** Translators either report an error and submit nothing, or wait for exactly what they submit. */
  ghost predicate LawfulTools(tools: Tools) {
    && (forall name, call ::
          tools.resolve(name).Some? ==>
            match tools.resolve(name).value.plan(call)
            case Reject(status) => IsError(status)
            case Start(specs) => specs != [] && forall k :: 0 <= k < |specs| ==> ValidSpec(specs[k]))
    && (forall name :: IsError(tools.unavailable(name)))
  }

  type CallKey = (string, string)

  datatype Call = Call(call: ToolCall, status: Option<CallStatus>, operations: set<string>)

  /** The part of the state that is read off the items alone. */
  datatype Core = Core(
    turnID: string, turnKind: TurnType, calls: map<CallKey, Call>,
    available: nat, delivered: nat, turnInputs: nat, context: Context)

  /** The core, and the latest state of every operation, which live updates run ahead of. */
  datatype Local = Local(core: Core, operations: map<string, Operation>)

  function NewLocal(context: Context): Local {
    Local(Core("", Regular, map[], 0, 0, 0, context), map[])
  }

  function AddOperations(known: map<string, Operation>, operations: seq<Operation>): map<string, Operation> {
    if operations == [] then known else AddOperations(known, Front(operations))[Last(operations).id := Last(operations)]
  }

  function AddCalls(calls: map<CallKey, Call>, turnID: string, output: seq<ModelItem>): map<CallKey, Call> {
    if output == [] then calls
    else
      var before := AddCalls(calls, turnID, Front(output));
      if Last(output).CallItem? then before[(turnID, Last(output).call.callID) := Call(Last(output).call, None, {})]
          else before
  }

  function SetOf(ids: seq<string>): set<string> {
    set id | id in ids
  }

  predicate RequiresTranslator(status: ToolCallStatus) {
    status.status.error == "" || status.status.waitingFor != [] || status.operations != []
  }

  /** Whether every operation of a call is known to be terminal. */
  predicate AllTerminal(ids: set<string>, operations: map<string, Operation>) {
    forall id :: id in ids ==> id in operations && IsTerminal(operations[id].status)
  }

  /** The operations a status waits for, if all of them are known. */
  function Awaited(ids: seq<string>, call: Call, operations: map<string, Operation>): Option<seq<Operation>> {
    if ids == [] then Some([])
    else
      match Awaited(Front(ids), call, operations)
      case None => None
      case Some(front) =>
        if Last(ids) in call.operations && Last(ids) in operations then Some(front + [operations[Last(ids)]]) else None
  }

  function Finish(core: Core, key: CallKey): Core {
    core.(calls := core.calls - {key}, available := core.available + 1)
  }

  /** What a status adds to the context: the result, or a placeholder while the call runs. */
  function AddToolResult(tools: Tools, core: Core, operations: map<string, Operation>,
      status: ToolCallStatus): Result<Core> {
    var key := Key(status);
    if key !in core.calls then Ok(core)
    else
      var call := core.calls[key];
      match tools.resolve(call.call.name)
      case None =>
        if RequiresTranslator(status) then Ok(core)
        else Ok(Finish(core.(context :=
            AddResult(core.context, status.callID, [TextOutput(status.status.error)], false)), key))
      case Some(translator) =>
        match Awaited(status.status.waitingFor, call, operations)
        case None => Ok(core)
        case Some(awaited) =>
          match translator.result(status.callID, status.status, awaited)
          case None => Refused
          case Some(output) =>
            var running := !AllTerminal(call.operations, operations);
            var shown := core.(context := AddResult(core.context, status.callID, output, running));
            Ok(if running then shown else Finish(shown, key))
  }

  function RecordStatus(core: Core, status: ToolCallStatus): Core {
    var key := Key(status);
    if key !in core.calls then core
    else
      var call := core.calls[key];
      core.(calls := core.calls[key :=
        call.(status := Some(status.status), operations := call.operations + SetOf(status.status.waitingFor))])
  }

  /** An item more, whether it comes from the history or from the run. */
  function AddItem(tools: Tools, local: Local, data: ItemData): Result<Local> {
    var core := local.core;
    match data
    case ForkItem(_, _) => Ok(Local(core.(calls := map[]), map[]))
    case InputItem(input) =>
      if !ValidInput(input) then Refused
      else
        (match input.kind
         case External =>
           (match tools.text(input.payload)
            case None => Refused
            case Some(text) => Ok(local.(core :=
              core.(context := AddUserText(core.context, text), available := core.available + 1))))
         case Control(message) =>
           var heard := core.(context := AddControl(core.context, message.value));
           Ok(local.(core := if message.value.mode.Heartbeat? then heard.(available := heard.available + 1) else heard))
         case _ => Ok(local))
    case TurnItem(turn) =>
      Ok(local.(core := core.(turnID := turn.id, turnKind := turn.kind, turnInputs := core.available,
        context := Commit(core.context))))
    case ResponseItem(response) =>
      if core.turnKind.Compaction? && response.turnID == core.turnID then Ok(local)
      else
        Ok(local.(core := core.(
             context := AddOutput(core.context, response.output),
             delivered := if response.turnID == core.turnID then core.turnInputs else core.delivered,
             calls := AddCalls(core.calls, response.turnID, response.output))))
    case StatusItem(status) =>
      var operations := AddOperations(local.operations, status.operations);
      (match AddToolResult(tools, RecordStatus(core, status), operations, status)
       case Refused => Refused
       case Ok(after) => Ok(Local(after, operations)))
  }

  /** Restoring refuses a status whose tool is gone. */
  predicate Restorable(tools: Tools, local: Local, data: ItemData) {
    data.StatusItem? && RequiresTranslator(data.status) && Key(data.status) in local.core.calls
    ==> tools.resolve(local.core.calls[Key(data.status)].call.name).Some?
  }

  function RestoreItem(tools: Tools, local: Local, data: ItemData): Result<Local> {
    if Restorable(tools, local, data) then AddItem(tools, local, data) else Refused
  }

  /** The state a history restores. */
  function Fold(tools: Tools, start: Local, items: seq<Item>): Result<Local> {
    if items == [] then Ok(start)
    else
      match Fold(tools, start, Front(items))
      case Refused => Refused
      case Ok(local) => RestoreItem(tools, local, Last(items).data)
  }
}
