/** Turning a model's tool call into a status and the operations it waits for. */
module Translation {
  import opened Operations
  import opened Options
  import opened SessionTypes
  import opened SessionState
  import opened SessionHistory
  import opened LocalState
  import opened LocalHistory

  /** A name not in use, as a UUID is taken to be. */
  method FreshName(used: set<string>) returns (id: string)
    ensures id != "" && id !in used
  {
    id := "u";
    ghost var longer := used;
    while id in used
      invariant id != "" && longer <= used
      invariant forall name :: name in used && |name| >= |id| ==> name in longer
      decreases longer
    {
      longer := longer - {id};
      id := id + "u";
    }
  }

  /** An operation as a translator submits it. */
  function Submitted(spec: Spec, id: string): Operation {
    Operation(id, spec.kind, spec.version, StatusReady, spec.maxOutputLength, spec.state, spec.idempotency)
  }

  ghost predicate AllReady(operations: seq<Operation>) {
    forall op :: op in operations ==> op.status == StatusReady
  }

  /** Operations for a list of specifications, with names never used before. */
  method Submit(specs: seq<Spec>, used: set<string>, ghost head: Head)
    returns (operations: seq<Operation>, ids: seq<string>)
    requires head.positions.Keys == used
    requires forall k :: 0 <= k < |specs| ==> ValidSpec(specs[k])
    ensures |operations| == |specs| == |ids|
    ensures Initializable(head, operations) && AllReady(operations)
    ensures forall k :: 0 <= k < |specs| ==> operations[k] == Submitted(specs[k], ids[k])
    ensures SetOf(ids) == IdSet(operations) && Distinct(ids)
  {
    operations, ids := [], [];
    var taken := used;
    var index := 0;
    while index < |specs|
      invariant 0 <= index <= |specs| && |operations| == |ids| == index
      invariant taken == used + SetOf(ids)
      invariant Initializable(head, operations) && AllReady(operations)
      invariant forall k :: 0 <= k < index ==> operations[k] == Submitted(specs[k], ids[k])
      invariant SetOf(ids) == IdSet(operations) && Distinct(ids)
    {
      var id := FreshName(taken);
      assert id !in SetOf(ids);
      SubmitMore(head, operations, ids, Submitted(specs[index], id));
      operations := operations + [Submitted(specs[index], id)];
      ids := ids + [id];
      taken := taken + {id};
      index := index + 1;
    }
  }

  lemma SubmitMore(head: Head, operations: seq<Operation>, ids: seq<string>, op: Operation)
    requires Initializable(head, operations) && AllReady(operations) && |ids| == |operations|
    requires SetOf(ids) == IdSet(operations) && Distinct(ids)
    requires op.id !in ids && op.id !in head.positions && ValidOperation(op) && op.status == StatusReady
    ensures Initializable(head, operations + [op]) && AllReady(operations + [op])
    ensures SetOf(ids + [op.id]) == SetOf(ids) + {op.id} == IdSet(operations + [op]) && Distinct(ids + [op.id])
  {
    assert op.id !in SetOf(ids);
    assert forall k :: 0 <= k < |operations| ==> operations[k] in operations && operations[k].id in IdSet(operations);
    assert forall other :: other in operations + [op] <==> other in operations || other == op;
  }

  /** What a call's first status must be: without a tool the error that says so, the refusal as it is, or exactly the
      operations the translator specified, ready, and waited for in their order. */
  ghost predicate Planned(tools: Tools, call: ToolCall, status: ToolCallStatus) {
    match tools.resolve(call.name)
    case None => status.status == tools.unavailable(call.name) && status.operations == []
    case Some(translator) =>
      match translator.plan(call)
      case Reject(refused) => status.status == refused && status.operations == []
      case Start(specs) =>
        && status.status.error == "" && !status.status.errorTruncated
        && |status.operations| == |specs| == |status.status.waitingFor|
        && forall k :: 0 <= k < |specs| ==>
           && status.operations[k].id == status.status.waitingFor[k] && status.operations[k].status == StatusReady
           && status.operations[k].kind == specs[k].kind && status.operations[k].version == specs[k].version
           && status.operations[k].maxOutputLength == specs[k].maxOutputLength
           && status.operations[k].state == specs[k].state && status.operations[k].idempotency == specs[k].idempotency
  }

  /** The status of a call that was just made: the tool is missing, it refuses, or its operations start. */
  method TranslateCall(tools: Tools, key: CallKey, call: ToolCall, used: set<string>, ghost head: Head)
    returns (status: ToolCallStatus)
    requires LawfulTools(tools) && head.positions.Keys == used
    ensures Key(status) == key
    ensures FirstStatus(tools, head, Call(call, None, {}), status)
    ensures StatusReferences(status.status, status.operations) && AllReady(status.operations)
    ensures Planned(tools, call, status)
  {
    hide Initializable;
    var translator := tools.resolve(call.name);
    if translator.None? {
      NothingToInitialize(head);
      return ToolCallStatus(key.0, key.1, tools.unavailable(call.name), []);
    }
    match translator.value.plan(call)
    case Reject(refused) =>
      NothingToInitialize(head);
      status := ToolCallStatus(key.0, key.1, refused, []);
    case Start(specs) =>
      var operations, ids := Submit(specs, used, head);
      status := ToolCallStatus(key.0, key.1, CallStatus("", false, ids), operations);
  }

  lemma NothingToInitialize(head: Head)
    ensures Initializable(head, [])
  {
  }

  /** One status for each call that had none, as its tool plans it; in any order. */
  ghost predicate AllPlanned(tools: Tools, calls: map<CallKey, Call>, statuses: seq<ToolCallStatus>) {
    && (forall i, j :: 0 <= i < j < |statuses| ==> Key(statuses[i]) != Key(statuses[j]))
    && (forall k :: 0 <= k < |statuses| ==>
          && Key(statuses[k]) in calls && calls[Key(statuses[k])].status.None?
          && Planned(tools, calls[Key(statuses[k])].call, statuses[k]))
    && (forall key :: key in calls && calls[key].status.None? ==>
       exists k :: 0 <= k < |statuses| && Key(statuses[k]) == key)
  }

  /** Where a response makes a call of this ID last. */
  predicate CallAt(output: seq<ModelItem>, i: int, callID: string) {
    && 0 <= i < |output| && output[i].CallItem? && output[i].call.callID == callID
    && forall j :: i < j < |output| && output[j].CallItem? ==> output[j].call.callID != callID
  }

  /** A status is of a call of the response, and as the tool of the last such call plans it. */
  ghost predicate PlannedIn(tools: Tools, turnID: string, output: seq<ModelItem>, status: ToolCallStatus) {
    status.turnID == turnID && exists i :: CallAt(output, i, status.callID) && Planned(tools, output[i].call, status)
  }

  /** One status for each call ID of a response, as the tool of its last call plans it. */
  ghost predicate AnswersCalls(tools: Tools, turnID: string, output: seq<ModelItem>, statuses: seq<ToolCallStatus>) {
    && (forall i, j :: 0 <= i < j < |statuses| ==> Key(statuses[i]) != Key(statuses[j]))
    && (forall k :: 0 <= k < |statuses| ==> PlannedIn(tools, turnID, output, statuses[k]))
    && (forall i :: 0 <= i < |output| && output[i].CallItem? ==>
          exists k :: 0 <= k < |statuses| && Key(statuses[k]) == (turnID, output[i].call.callID))
  }

  lemma {:induction false} LastCall(output: seq<ModelItem>, i: nat) returns (last: nat)
    requires i < |output| && output[i].CallItem?
    ensures CallAt(output, last, output[i].call.callID)
    decreases |output| - i
  {
    last := i;
    if j :| i < j < |output| && output[j].CallItem? && output[j].call.callID == output[i].call.callID {
      last := LastCall(output, j);
    }
  }

  /** A response leaves its last call of an ID without a status, and all other calls as they are. */
  lemma {:induction false} CallsOf(calls: map<CallKey, Call>, turnID: string, output: seq<ModelItem>, key: CallKey)
    ensures var after := AddCalls(calls, turnID, output);
            && (forall i :: key.0 == turnID && CallAt(output, i, key.1) ==>
                  key in after && after[key] == Call(output[i].call, None, {}))
            && (key.0 != turnID || (forall i :: !CallAt(output, i, key.1)) ==>
                  (key in after <==> key in calls) && (key in calls ==> after[key] == calls[key]))
  {
    if output != [] {
      var front, last := Front(output), Last(output);
      CallsOf(calls, turnID, front, key);
      if last.CallItem? && last.call.callID == key.1 {
        assert CallAt(output, |output| - 1, key.1);
      } else {
        forall i
          ensures CallAt(output, i, key.1) <==> CallAt(front, i, key.1)
          ensures CallAt(front, i, key.1) ==> output[i] == front[i]
        {
        }
      }
    }
  }

  /** Where every earlier call has a status, the calls to plan are those of the response. */
  lemma ResponsePlanned(tools: Tools, calls: map<CallKey, Call>, turnID: string, output: seq<ModelItem>,
      statuses: seq<ToolCallStatus>)
    requires forall key :: key in calls ==> calls[key].status.Some?
    requires AllPlanned(tools, AddCalls(calls, turnID, output), statuses)
    ensures AnswersCalls(tools, turnID, output, statuses)
  {
    hide Planned;
    hide AddCalls;
    var after := AddCalls(calls, turnID, output);
    forall k | 0 <= k < |statuses|
      ensures PlannedIn(tools, turnID, output, statuses[k])
    {
      CallsOf(calls, turnID, output, Key(statuses[k]));
    }
    forall i | 0 <= i < |output| && output[i].CallItem?
      ensures exists k :: 0 <= k < |statuses| && Key(statuses[k]) == (turnID, output[i].call.callID)
    {
      var last := LastCall(output, i);
      var key := (turnID, output[i].call.callID);
      CallsOf(calls, turnID, output, key);
      assert key in after && after[key].status.None?;
    }
  }

  /** The calls that `left` no longer holds have been planned. */
  ghost predicate PlannedSoFar(tools: Tools, calls: map<CallKey, Call>, statuses: seq<ToolCallStatus>,
      left: set<CallKey>)
  {
    && (forall i, j :: 0 <= i < j < |statuses| ==> Key(statuses[i]) != Key(statuses[j]))
    && (forall k :: 0 <= k < |statuses| ==>
          && Key(statuses[k]) in calls && Key(statuses[k]) !in left && calls[Key(statuses[k])].status.None?
          && Planned(tools, calls[Key(statuses[k])].call, statuses[k]))
    && (forall key :: key in calls && key !in left && calls[key].status.None? ==>
          exists k :: 0 <= k < |statuses| && Key(statuses[k]) == key)
  }

  lemma NothingPlanned(tools: Tools, calls: map<CallKey, Call>, statuses: seq<ToolCallStatus>)
    requires statuses == []
    ensures PlannedSoFar(tools, calls, statuses, calls.Keys)
  {
  }

  lemma PlannedMore(tools: Tools, calls: map<CallKey, Call>, statuses: seq<ToolCallStatus>, left: set<CallKey>,
      status: ToolCallStatus)
    requires PlannedSoFar(tools, calls, statuses, left) && Key(status) in left && Key(status) in calls
    requires calls[Key(status)].status.None? && Planned(tools, calls[Key(status)].call, status)
    ensures PlannedSoFar(tools, calls, statuses + [status], left - {Key(status)})
  {
    hide Planned;
    var more := statuses + [status];
    forall key | key in calls && key !in left - {Key(status)} && calls[key].status.None?
      ensures exists k :: 0 <= k < |more| && Key(more[k]) == key
    {
      if key == Key(status) {
        assert Key(more[|statuses|]) == key;
      } else {
        var k :| 0 <= k < |statuses| && Key(statuses[k]) == key;
        assert Key(more[k]) == key;
      }
    }
  }

  lemma PlannedSkips(tools: Tools, calls: map<CallKey, Call>, statuses: seq<ToolCallStatus>, left: set<CallKey>,
      key: CallKey)
    requires PlannedSoFar(tools, calls, statuses, left) && (key in calls ==> calls[key].status.Some?)
    ensures PlannedSoFar(tools, calls, statuses, left - {key})
  {
    hide Planned;
  }

  lemma PlannedDone(tools: Tools, calls: map<CallKey, Call>, statuses: seq<ToolCallStatus>)
    requires PlannedSoFar(tools, calls, statuses, {})
    ensures AllPlanned(tools, calls, statuses)
  {
    hide Planned;
  }
}
