/** The coordinator's local state, changed in place. */
module CoordinatorState {
  import opened Operations
  import opened Options
  import opened SessionTypes
  import opened SessionState
  import opened SessionHistory
  import opened ContextBuilder
  import opened LocalState

  class LoopState {
    const tools: Tools
    const builder: Builder
    var currentTurnID: string
    var currentTurnType: TurnType
    var toolCalls: map<CallKey, Call>
    var operations: map<string, Operation>
    var availableInputs: nat
    var deliveredInputs: nat
    var currentTurnInputs: nat
    /** The calls whose results are waited for, and whether their deadline is set. */
    var graceToolCalls: set<CallKey>
    var graceArmed: bool

    constructor (tools: Tools, builder: Builder)
      ensures this.tools == tools && this.builder == builder
      ensures View() == NewLocal(builder.View()) && GraceSound() && !graceArmed
    {
      this.tools := tools;
      this.builder := builder;
      currentTurnID, currentTurnType := "", Regular;
      toolCalls, operations := map[], map[];
      availableInputs, deliveredInputs, currentTurnInputs := 0, 0, 0;
      graceToolCalls, graceArmed := {}, false;
    }

    ghost function View(): Local
      reads this, builder
    {
      Local(Core(currentTurnID, currentTurnType, toolCalls, availableInputs, deliveredInputs, currentTurnInputs,
        builder.View()), operations)
    }

    /** The grace period covers open calls only, and lasts while there are some. */
    ghost predicate GraceSound()
      reads this
    {
      graceToolCalls <= toolCalls.Keys && (graceArmed <==> graceToolCalls != {})
    }

    method ClearToolGrace()
      modifies this`graceToolCalls, this`graceArmed
      ensures GraceSound() && graceToolCalls == {} && !graceArmed
    {
      graceToolCalls := {};
      graceArmed := false;
    }

    method AddOperation(value: Operation)
      modifies this`operations
      ensures operations == old(operations)[value.id := value]
    {
      operations := operations[value.id := value];
    }

    method AddToolCalls(response: Response)
      modifies this`toolCalls
      ensures toolCalls == AddCalls(old(toolCalls), response.turnID, response.output)
    {
      var index := 0;
      while index < |response.output|
        invariant 0 <= index <= |response.output|
        invariant toolCalls == AddCalls(old(toolCalls), response.turnID, response.output[..index])
      {
        var output := response.output[index];
        assert Front(response.output[..index + 1]) == response.output[..index]
            && Last(response.output[..index + 1]) == output;
        if output.CallItem? {
          toolCalls := toolCalls[(response.turnID, output.call.callID) := Call(output.call, None, {})];
        }
        index := index + 1;
      }
      assert response.output[..index] == response.output;
    }

    method AddToolCallOperations(status: ToolCallStatus)
      modifies this`toolCalls
      ensures View().core == RecordStatus(old(View().core), status)
      ensures toolCalls.Keys == old(toolCalls.Keys)
    {
      var key := Key(status);
      if key !in toolCalls {
        return;
      }
      var call := toolCalls[key];
      var operations := call.operations;
      var index := 0;
      while index < |status.status.waitingFor|
        invariant 0 <= index <= |status.status.waitingFor|
        invariant operations == call.operations + SetOf(status.status.waitingFor[..index])
      {
        assert status.status.waitingFor[..index + 1] ==
            status.status.waitingFor[..index] + [status.status.waitingFor[index]];
        operations := operations + {status.status.waitingFor[index]};
        index := index + 1;
      }
      assert status.status.waitingFor[..index] == status.status.waitingFor;
      toolCalls := toolCalls[key := call.(status := Some(status.status), operations := operations)];
    }

    method FinishToolCall(key: CallKey)
      requires GraceSound()
      modifies this`toolCalls, this`graceToolCalls, this`graceArmed, this`availableInputs
      ensures View() == old(View()).(core := Finish(old(View().core), key))
      ensures GraceSound() && graceToolCalls == old(graceToolCalls) - {key}
    {
      toolCalls := toolCalls - {key};
      graceToolCalls := graceToolCalls - {key};
      if graceToolCalls == {} {
        ClearToolGrace();
      }
      availableInputs := availableInputs + 1;
    }

    /** The operations a status waits for, looked up one by one. */
    method Lookup(ids: seq<string>, call: Call) returns (found: Option<seq<Operation>>)
      ensures found == Awaited(ids, call, operations)
    {
      var collected: seq<Operation> := [];
      var index := 0;
      while index < |ids|
        invariant 0 <= index <= |ids|
        invariant Awaited(ids[..index], call, operations) == Some(collected)
      {
        assert Front(ids[..index + 1]) == ids[..index] && Last(ids[..index + 1]) == ids[index];
        if ids[index] !in call.operations || ids[index] !in operations {
          AwaitedPrefix(ids, call, operations, index + 1);
          return None;
        }
        collected := collected + [operations[ids[index]]];
        index := index + 1;
      }
      assert ids[..index] == ids;
      found := Some(collected);
    }

    method AddToolResultToLocalState(status: ToolCallStatus) returns (ok: bool)
      requires GraceSound()
      modifies this`toolCalls, this`graceToolCalls, this`graceArmed, this`availableInputs, builder
      ensures ok <==> AddToolResult(tools, old(View().core), operations, status).Ok?
      ensures ok ==> View().core == AddToolResult(tools, old(View().core), operations, status).value
      ensures GraceSound() && graceToolCalls <= old(graceToolCalls)
    {
      hide AddResult;
      hide Awaited;
      hide RequiresTranslator;
      var key := Key(status);
      if key !in toolCalls {
        return true;
      }
      var call := toolCalls[key];
      var translator := tools.resolve(call.call.name);
      if translator.None? {
        if !RequiresTranslator(status) {
          builder.AddToolResult(status.callID, [TextOutput(status.status.error)], false);
          FinishToolCall(key);
        }
        return true;
      }
      var awaited := Lookup(status.status.waitingFor, call);
      if awaited.None? {
        return true;
      }
      var result := translator.value.result(status.callID, status.status, awaited.value);
      if result.None? {
        return false;
      }
      var running := !AllTerminal(call.operations, operations);
      builder.AddToolResult(status.callID, result.value, running);
      if !running {
        FinishToolCall(key);
      }
      return true;
    }

    /** An item more: the fields take the step the item means. */
    method AddItemToLocalState(data: ItemData) returns (ok: bool)
      requires GraceSound()
      modifies this, builder
      ensures ok <==> AddItem(tools, old(View()), data).Ok?
      ensures ok ==> View() == AddItem(tools, old(View()), data).value
      ensures ok ==> GraceSound() && graceToolCalls <= old(graceToolCalls)
      ensures data.InputItem? ==> graceToolCalls == old(graceToolCalls)
    {
      hide Commit;
      hide AddUserText;
      hide AddControl;
      hide AddOutput;
      match data
      case ForkItem(_, _) =>
        toolCalls := map[];
        operations := map[];
        ClearToolGrace();
        ok := true;
      case InputItem(input) =>
        ok := AddInputItem(input);
      case TurnItem(turn) =>
        currentTurnID := turn.id;
        currentTurnType := turn.kind;
        currentTurnInputs := availableInputs;
        builder.CommitStaged();
        ok := true;
      case ResponseItem(response) =>
        if currentTurnType.Compaction? && response.turnID == currentTurnID {
          return true;
        }
        builder.AddModelResponse(response.output);
        if response.turnID == currentTurnID {
          deliveredInputs := currentTurnInputs;
        }
        AddCallsKeys(toolCalls, response.turnID, response.output);
        AddToolCalls(response);
        ok := true;
      case StatusItem(status) =>
        ok := AddStatusItem(status);
    }

    method AddInputItem(input: Input) returns (ok: bool)
      requires GraceSound()
      modifies this`availableInputs, builder
      ensures ok <==> AddItem(tools, old(View()), InputItem(input)).Ok?
      ensures ok ==> View() == AddItem(tools, old(View()), InputItem(input)).value
    {
      hide AddUserText;
      hide AddControl;
      if !ValidInput(input) {
        return false;
      }
      if input.kind.External? {
        var text := tools.text(input.payload);
        if text.None? {
          return false;
        }
        builder.AddExternalInput(text.value);
        availableInputs := availableInputs + 1;
      }
      if input.kind.Control? {
        var message := input.kind.message.value;
        builder.AddControlMessage(message);
        if message.mode.Heartbeat? {
          availableInputs := availableInputs + 1;
        }
      }
      ok := true;
    }

    method AddStatusItem(status: ToolCallStatus) returns (ok: bool)
      requires GraceSound()
      modifies this, builder
      ensures ok <==> AddItem(tools, old(View()), StatusItem(status)).Ok?
      ensures ok ==> View() == AddItem(tools, old(View()), StatusItem(status)).value
      ensures ok ==> GraceSound() && graceToolCalls <= old(graceToolCalls)
    {
      hide AddToolResult;
      hide RecordStatus;
      AddOperationsOf(status.operations);
      AddToolCallOperations(status);
      ok := AddToolResultToLocalState(status);
    }

    method AddOperationsOf(values: seq<Operation>)
      modifies this`operations
      ensures operations == AddOperations(old(operations), values)
    {
      var index := 0;
      while index < |values|
        invariant 0 <= index <= |values|
        invariant operations == AddOperations(old(operations), values[..index])
      {
        assert Front(values[..index + 1]) == values[..index] && Last(values[..index + 1]) == values[index];
        AddOperation(values[index]);
        index := index + 1;
      }
      assert values[..index] == values;
    }
  }

  lemma {:induction false} AwaitedPrefix(ids: seq<string>, call: Call, operations: map<string, Operation>, n: nat)
    requires n <= |ids| && Awaited(ids[..n], call, operations).None?
    ensures Awaited(ids, call, operations).None?
  {
    if n < |ids| {
      assert Front(ids)[..n] == ids[..n];
      AwaitedPrefix(Front(ids), call, operations, n);
    } else {
      assert ids[..n] == ids;
    }
  }

  lemma {:induction false} AddCallsKeys(calls: map<CallKey, Call>, turnID: string, output: seq<ModelItem>)
    ensures calls.Keys <= AddCalls(calls, turnID, output).Keys
  {
    if output != [] {
      AddCallsKeys(calls, turnID, Front(output));
    }
  }
}
