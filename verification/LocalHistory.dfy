/** The coordinator's state is a function of the stored session, live or restored. */
module LocalHistory {
  import opened Operations
  import opened Options
  import opened SessionTypes
  import opened SessionState
  import opened SessionHistory
  import opened SessionResume
  import opened ContextBuilder
  import opened LocalState

  /** The latest saved state of every operation of the session. */
  function HeadMap(head: Head): map<string, Operation> {
    map id | id in head.positions && head.positions[id] < |head.operations| :: head.operations[head.positions[id]]
  }

  /** The state the history alone restores. */
  function Replayed(tools: Tools, start: Context, items: seq<Item>): Local {
    match Fold(tools, NewLocal(start), items)
    case Ok(local) => local
    case Refused => NewLocal(start)
  }

  /** The state of a coordinator that has stored exactly this. */
  function Live(tools: Tools, start: Context, st: Stored): Local {
    Local(Replayed(tools, start, st.items).core, HeadMap(st.head))
  }

  /** Restoring folds the history and lays the resumed operations over it. */
  function Restore(tools: Tools, start: Context, st: Stored): Result<Local> {
    match Fold(tools, NewLocal(start), st.items)
    case Refused => Refused
    case Ok(local) => Ok(local.(operations := AddOperations(local.operations, Resume(st).operations)))
  }

  /** A status that waits for operations. */
  predicate IsWaiting(status: CallStatus) {
    status.error == "" && status.waitingFor != []
  }

  ghost predicate SoundCall(tools: Tools, head: Head, key: CallKey, call: Call) {
    && key.0 in head.ownedTurns && key.0 in head.respondedTurns && key.1 != ""
    && match call.status
       case None => call.operations == {} && key !in head.statuses
       case Some(status) =>
         && IsWaiting(status) && call.operations == SetOf(status.waitingFor)
         && call.operations <= head.positions.Keys
         && key in head.statuses && tools.resolve(call.call.name).Some?
  }

  ghost predicate SoundCalls(tools: Tools, head: Head, calls: map<CallKey, Call>) {
    && (forall key :: key in calls ==> SoundCall(tools, head, key, calls[key]))
    && (forall key :: key in head.statuses ==> key.0 in head.respondedTurns)
  }

  /** Every recorded status was for a call that was open. */
  predicate StatusesOpen(tools: Tools, start: Context, items: seq<Item>) {
    items == [] ||
    (&& StatusesOpen(tools, start, Front(items))
     && (Last(items).data.StatusItem? ==>
        Key(Last(items).data.status) in Replayed(tools, start, Front(items)).core.calls))
  }

  /** The snapshots in the history cover the operations; a terminal one is the last word. */
  ghost predicate SnapshotsAgree(operations: map<string, Operation>, head: Head, pending: set<string>) {
    && operations.Keys == head.positions.Keys == HeadMap(head).Keys
    && (forall id :: id in operations ==> operations[id].id == id)
    && (forall id :: id in operations && IsTerminal(operations[id].status) ==> operations[id] == HeadMap(head)[id])
    && (forall id :: id in pending <==> id in operations && !IsTerminal(operations[id].status))
  }

  /** Every recorded response answers the turn that was the latest when it was recorded. */
  predicate AnswersCurrent(items: seq<Item>) {
    items == [] ||
    (&& AnswersCurrent(Front(items))
     && (Last(items).data.ResponseItem? ==> Last(items).data.response.turnID == LastTurn(Front(items))))
  }

  /** What every session the coordinator leaves behind satisfies. */
  ghost predicate Good(tools: Tools, start: Context, st: Stored) {
    && WellFormed(st)
    && Fold(tools, NewLocal(start), st.items).Ok?
    && SoundCalls(tools, st.head, Replayed(tools, start, st.items).core.calls)
    && SnapshotsAgree(Replayed(tools, start, st.items).operations, st.head, Pending(Snapshots(st.items)))
    && StatusesOpen(tools, start, st.items)
    && AnswersCurrent(st.items)
    && Distinct(ExternalIds(st.items))
  }

  lemma FoldMore(tools: Tools, start: Context, items: seq<Item>, item: Item)
    requires Fold(tools, NewLocal(start), items).Ok?
    ensures Fold(tools, NewLocal(start), items + [item]) == RestoreItem(tools, Replayed(tools, start, items), item.data)
    ensures StatusesOpen(tools, start, items + [item]) <==>
            StatusesOpen(tools, start, items)
              && (item.data.StatusItem? ==> Key(item.data.status) in Replayed(tools, start, items).core.calls)
    ensures Snapshots(items + [item]) == Snapshots(items) +
            if item.data.StatusItem? then item.data.status.operations else []
    ensures ExternalIds(items + [item]) ==
            ExternalIds(items) +
              if item.data.InputItem? && item.data.input.kind.External? then [item.data.input.id] else []
    ensures AnswersCurrent(items + [item]) <==>
            AnswersCurrent(items) && (item.data.ResponseItem? ==> item.data.response.turnID == LastTurn(items))
  {
    hide RestoreItem;
    hide LastTurn;
    assert Front(items + [item]) == items && Last(items + [item]) == item;
  }

  // The later of two snapshots of an operation wins.

  lemma {:induction false} AddOperationsAt(known: map<string, Operation>, operations: seq<Operation>, id: string)
    ensures var after := AddOperations(known, operations);
            && (id in after <==> id in known || id in IdSet(operations))
            && (id in after && id !in IdSet(operations) ==> after[id] == known[id])
            && (id in IdSet(operations) ==> after[id] in operations && after[id].id == id)
  {
    if operations != [] {
      AddOperationsAt(known, Front(operations), id);
      assert operations == Front(operations) + [Last(operations)];
      assert IdSet(operations) == IdSet(Front(operations)) + {Last(operations).id};
    }
  }

  /** On the operations added, what was known before does not matter. */
  lemma {:induction false} AddOperationsSame(a: map<string, Operation>, b: map<string, Operation>,
      operations: seq<Operation>, id: string)
    requires id in IdSet(operations)
    ensures id in AddOperations(a, operations) && id in AddOperations(b, operations)
    ensures AddOperations(a, operations)[id] == AddOperations(b, operations)[id]
  {
    var front := Front(operations);
    assert operations == front + [Last(operations)];
    if Last(operations).id != id {
      assert id in IdSet(front);
      AddOperationsSame(a, b, front, id);
    }
  }

  lemma {:induction false} AddOperationsNoop(known: map<string, Operation>, operations: seq<Operation>)
    requires forall op :: op in operations ==> op.id in known && known[op.id] == op
    ensures AddOperations(known, operations) == known
  {
    if operations != [] {
      AddOperationsNoop(known, Front(operations));
      assert operations[|operations| - 1] in operations;
    }
  }

  lemma {:induction false} PendingMore(known: map<string, Operation>, snapshots: seq<Operation>,
      operations: seq<Operation>, pending: set<string>)
    requires pending == Pending(snapshots)
    requires forall id :: id in known ==> known[id].id == id
    requires forall id :: id in pending <==> id in known && !IsTerminal(known[id].status)
    ensures var after := AddOperations(known, operations);
            && (forall id :: id in Pending(snapshots + operations) <==> id in after && !IsTerminal(after[id].status))
            && (forall id :: id in after ==> after[id].id == id)
  {
    if operations == [] {
      assert snapshots + operations == snapshots;
    } else {
      PendingMore(known, snapshots, Front(operations), pending);
      assert Front(snapshots + operations) == snapshots + Front(operations);
      assert Last(snapshots + operations) == Last(operations);
    }
  }

  // Restoring gives back the live state.

  lemma HeadMapAt(head: Head, op: Operation)
    requires OperationsIndexed(head)
    ensures HeadMap(head).Keys == head.positions.Keys
    ensures op in head.operations <==> op.id in HeadMap(head) && HeadMap(head)[op.id] == op
  {
    if op in head.operations {
      var i :| 0 <= i < |head.operations| && head.operations[i] == op;
    }
  }

  lemma OverlayAt(tools: Tools, start: Context, st: Stored, id: string)
    requires Good(tools, start, st)
    ensures var known := Replayed(tools, start, st.items).operations;
            var after := AddOperations(known, Resume(st).operations);
            && (id in after <==> id in HeadMap(st.head))
            && (id in after ==> after[id] == HeadMap(st.head)[id])
  {
    hide Fold;
    hide Replayed;
    hide Resume;
    hide SoundCalls;
    hide StatusesOpen;
    hide AnswersCurrent;
    hide Lawful;
    hide HeadMap;
    hide OperationsIndexed;
    hide TurnIds;
    hide LastTurn;
    hide OwnedTurnIds;
    hide OwnedResponses;
    hide OwnedStatuses;
    hide Pending;
    hide Snapshots;
    hide ExternalIds;
    hide AddOperations;
    var known, resumed := Replayed(tools, start, st.items).operations, Resume(st).operations;
    AddOperationsAt(known, resumed, id);
    var after := AddOperations(known, resumed);
    if id in IdSet(resumed) {
      UnsettledOnly(st, after[id]);
      HeadMapAt(st.head, after[id]);
    } else if id in known {
      var saved := HeadMap(st.head)[id];
      HeadMapKey(st.head, id);
      UnsettledOnly(st, saved);
      HeadMapAt(st.head, saved);
    }
  }

  lemma HeadMapKeys(head: Head)
    requires OperationsIndexed(head)
    ensures HeadMap(head).Keys == head.positions.Keys
  {
  }

  lemma HeadMapKey(head: Head, id: string)
    requires OperationsIndexed(head) && id in HeadMap(head)
    ensures HeadMap(head)[id].id == id
  {
  }

  lemma UnsettledOnly(st: Stored, op: Operation)
    ensures op in Resume(st).operations <==>
            op in st.head.operations && (!IsTerminal(op.status) || op.id in Pending(Snapshots(st.items)))
  {
    UnsettledHas(st.head.operations, Pending(Snapshots(st.items)), op);
    hide Unsettled;
  }

  /** A restart at any point rebuilds exactly the state that was live: context, counters, turn, calls, operations. */
  lemma RestoreIsLive(tools: Tools, start: Context, st: Stored)
    requires Good(tools, start, st)
    ensures Restore(tools, start, st) == Ok(Live(tools, start, st))
  {
    var known := Replayed(tools, start, st.items).operations;
    var after := AddOperations(known, Resume(st).operations);
    forall id
      ensures id in after <==> id in HeadMap(st.head)
      ensures id in after ==> after[id] == HeadMap(st.head)[id]
    {
      OverlayAt(tools, start, st, id);
    }
    hide AddOperations;
    hide HeadMap;
    hide Resume;
    assert after == HeadMap(st.head);
  }

  // Appends keep the session good, and the live state goes along.

  /** An item that is not a status changes the core, by the core alone. */
  lemma AddItemCore(tools: Tools, a: Local, b: Local, data: ItemData)
    requires a.core == b.core && !data.StatusItem? && !data.ForkItem?
    ensures match AddItem(tools, a, data)
            case Refused => AddItem(tools, b, data).Refused?
            case Ok(after) => after.operations == a.operations && AddItem(tools, b, data) == Ok(b.(core := after.core))
  {
  }

  lemma {:induction false} AddCallsAt(calls: map<CallKey, Call>, turnID: string, output: seq<ModelItem>, key: CallKey)
    ensures key in calls ==> key in AddCalls(calls, turnID, output)
    ensures key in AddCalls(calls, turnID, output) ==>
              || (key in calls && AddCalls(calls, turnID, output)[key] == calls[key])
              || (key.0 == turnID && AddCalls(calls, turnID, output)[key].status.None?
                  && AddCalls(calls, turnID, output)[key].operations == {}
                  && CallItem(AddCalls(calls, turnID, output)[key].call) in output
                  && AddCalls(calls, turnID, output)[key].call.callID == key.1)
  {
    if output != [] {
      AddCallsAt(calls, turnID, Front(output), key);
      assert output == Front(output) + [Last(output)];
    }
  }

  predicate NamedCalls(output: seq<ModelItem>) {
    forall item :: item in output && item.CallItem? ==> item.call.callID != ""
  }

  /** What an item has to bring for the session to stay good. */
  ghost predicate Welcome(st: Stored, request: Request) {
    match request
    case AddInput(input) => input.kind.External? ==> input.id !in ExternalIds(st.items)
    case AddTurn(_) => true
    case AddResponse(response) => NamedCalls(response.output) && response.turnID == LastTurn(st.items)
    case _ => false
  }

  lemma SoundAfterInput(tools: Tools, head: Head, calls: map<CallKey, Call>, request: Request)
    requires SoundCalls(tools, head, calls) && (request.AddInput? || request.AddTurn?) && Accepts(head, request)
    ensures SoundCalls(tools, After(head, request), calls) && HeadMap(After(head, request)) == HeadMap(head)
  {
    forall key | key in calls
      ensures SoundCall(tools, After(head, request), key, calls[key])
    {
      assert SoundCall(tools, head, key, calls[key]);
    }
  }

  lemma SoundAfterResponse(tools: Tools, head: Head, calls: map<CallKey, Call>, response: Response)
    requires SoundCalls(tools, head, calls) && Accepts(head, AddResponse(response)) && NamedCalls(response.output)
    ensures SoundCalls(tools, After(head, AddResponse(response)), calls)
    ensures SoundCalls(tools, After(head, AddResponse(response)), AddCalls(calls, response.turnID, response.output))
    ensures HeadMap(After(head, AddResponse(response))) == HeadMap(head)
  {
    var after, more := After(head, AddResponse(response)), AddCalls(calls, response.turnID, response.output);
    forall key | key in calls
      ensures SoundCall(tools, after, key, calls[key])
    {
      assert SoundCall(tools, head, key, calls[key]);
    }
    forall key | key in more
      ensures SoundCall(tools, after, key, more[key])
    {
      AddCallsAt(calls, response.turnID, response.output, key);
      hide AddCalls;
      if key in calls && more[key] == calls[key] {
        assert SoundCall(tools, head, key, calls[key]);
      }
    }
  }

  lemma {:induction false} DistinctMore(ids: seq<string>, id: string)
    requires Distinct(ids) && id !in ids
    ensures Distinct(ids + [id])
  {
  }

  /** Inputs, turns and responses: the store and the live state take the same step. */
  lemma GoodAppend(tools: Tools, start: Context, st: Stored, request: Request, at: nat)
    requires Good(tools, start, st) && at != 0 && Accepts(st.head, request) && Welcome(st, request)
    requires AddItem(tools, Live(tools, start, st), DataOf(request).value).Ok?
    ensures var next := Apply(st, request, at).value;
            Good(tools, start, next) && Live(tools, start, next) ==
              AddItem(tools, Live(tools, start, st), DataOf(request).value).value
  {
    hide Fold;
    hide SoundCalls;
    hide SnapshotsAgree;
    hide Snapshots;
    hide ExternalIds;
    hide Pending;
    hide WellFormed;
    hide HeadMap;
    hide StatusesOpen;
    hide AnswersCurrent;
    hide Distinct;
    hide Accepts;
    hide AddCalls;
    hide NamedCalls;
    ApplyWellFormed(st, request, at);
    var data := DataOf(request).value;
    var item := Item(After(st.head, request).itemSequence, at, data);
    var before := Replayed(tools, start, st.items);
    FoldMore(tools, start, st.items, item);
    AddItemCore(tools, before, Live(tools, start, st), data);
    assert Snapshots(st.items) + [] == Snapshots(st.items);
    assert ExternalIds(st.items) + [] == ExternalIds(st.items);
    if request.AddResponse? {
      SoundAfterResponse(tools, st.head, before.core.calls, request.response);
    } else {
      SoundAfterInput(tools, st.head, before.core.calls, request);
    }
    AgreeKept(before.operations, st.head, After(st.head, request), Pending(Snapshots(st.items)));
    if request.AddInput? && request.input.kind.External? {
      DistinctMore(ExternalIds(st.items), request.input.id);
    }
  }

  lemma AgreeKept(operations: map<string, Operation>, head: Head, after: Head, pending: set<string>)
    requires SnapshotsAgree(operations, head, pending)
    requires after.positions == head.positions && HeadMap(after) == HeadMap(head)
    ensures SnapshotsAgree(operations, after, pending)
  {
  }

  // Statuses: what they say rests on the snapshots they carry, not on what else is known.

  lemma {:induction false} AwaitedSame(ids: seq<string>, call: Call, a: map<string, Operation>,
      b: map<string, Operation>)
    requires forall id :: id in ids ==> id in a && id in b && a[id] == b[id]
    ensures Awaited(ids, call, a) == Awaited(ids, call, b)
  {
    if ids != [] {
      assert ids[|ids| - 1] in ids;
      AwaitedSame(Front(ids), call, a, b);
    }
  }

  /** A status with snapshots of everything its call waits for. */
  ghost predicate SelfContained(calls: map<CallKey, Call>, status: ToolCallStatus) {
    && SetOf(status.status.waitingFor) <= IdSet(status.operations)
    && (Key(status) in calls ==> calls[Key(status)].operations <= IdSet(status.operations))
  }

  /** The core after a self-contained status does not depend on the operations known before. */
  lemma StatusCore(tools: Tools, core: Core, a: map<string, Operation>, b: map<string, Operation>,
      status: ToolCallStatus)
    requires SelfContained(core.calls, status)
    ensures var recorded := RecordStatus(core, status);
            AddToolResult(tools, recorded, AddOperations(a, status.operations), status) ==
            AddToolResult(tools, recorded, AddOperations(b, status.operations), status)
  {
    var knownA, knownB := AddOperations(a, status.operations), AddOperations(b, status.operations);
    forall id | id in IdSet(status.operations)
      ensures id in knownA && id in knownB && knownA[id] == knownB[id]
    {
      AddOperationsSame(a, b, status.operations, id);
    }
    hide AddOperations;
    hide AddResult;
    var recorded := RecordStatus(core, status);
    if Key(status) in recorded.calls {
      var call := recorded.calls[Key(status)];
      AwaitedSame(status.status.waitingFor, call, knownA, knownB);
      assert call.operations <= IdSet(status.operations);
      AllTerminalSame(call.operations, knownA, knownB);
      hide IdSet;
      hide SelfContained;
      hide Awaited;
      hide AllTerminal;
    }
  }

  lemma AllTerminalSame(ids: set<string>, a: map<string, Operation>, b: map<string, Operation>)
    requires forall id :: id in ids ==> id in a && id in b && a[id] == b[id]
    ensures AllTerminal(ids, a) == AllTerminal(ids, b)
  {
  }

  /** Initialized operations are known as they were submitted. */
  lemma {:induction false} HeadMapInitialize(head: Head, operations: seq<Operation>)
    requires OperationsIndexed(head) && Initializable(head, operations)
    ensures HeadMap(Initialize(head, operations)) == AddOperations(HeadMap(head), operations)
    ensures Initialize(head, operations).positions.Keys == head.positions.Keys + IdSet(operations)
    ensures OperationsIndexed(Initialize(head, operations))
  {
    if operations != [] {
      var front, last := Front(operations), Last(operations);
      assert operations == front + [last];
      FrontInitializable(head, operations);
      HeadMapInitialize(head, front);
      var before := Initialize(head, front);
      FreshLast(head, operations);
      HeadMapPush(before, last);
      PushIndexed(before, last);
      assert IdSet(operations) == IdSet(front) + {last.id};
    }
  }

  lemma HeadMapPush(head: Head, op: Operation)
    requires OperationsIndexed(head) && op.id !in head.positions
    ensures HeadMap(head.(positions := head.positions[op.id := |head.operations|], operations := head.operations
            + [op])) ==
            HeadMap(head)[op.id := op]
  {
    var after := head.(positions := head.positions[op.id := |head.operations|], operations := head.operations + [op]);
    forall id
      ensures id in HeadMap(after) <==> id in HeadMap(head)[op.id := op]
      ensures id in HeadMap(after) ==> HeadMap(after)[id] == HeadMap(head)[op.id := op][id]
    {
    }
  }

  /** The first status of a call: an error, or waiting for the operations it initializes. */
  ghost predicate FirstStatus(tools: Tools, head: Head, call: Call, status: ToolCallStatus) {
    && call.status.None?
    && Initializable(head, status.operations) && SetOf(status.status.waitingFor) == IdSet(status.operations)
    && ((IsError(status.status) && status.operations == [])
       || (IsWaiting(status.status) && tools.resolve(call.call.name).Some?))
  }

  /** A later status: the same one, with the saved state of each operation it waits for. */
  ghost predicate RepeatStatus(head: Head, call: Call, status: ToolCallStatus) {
    && call.status == Some(status.status) && SetOf(status.status.waitingFor) == IdSet(status.operations)
    && forall op :: op in status.operations ==> op.id in HeadMap(head) && HeadMap(head)[op.id] == op
  }

  /** A status leaves every other call as it was; an error status settles its own. */
  lemma ResultCalls(tools: Tools, core: Core, operations: map<string, Operation>, status: ToolCallStatus)
    requires AddToolResult(tools, RecordStatus(core, status), operations, status).Ok?
    ensures var recorded := RecordStatus(core, status);
            var after := AddToolResult(tools, recorded, operations, status).value;
            && (after.calls == recorded.calls || after.calls == recorded.calls - {Key(status)})
            && after.turnID == core.turnID
            && (Key(status) in core.calls && IsError(status.status) && status.operations == []
                && core.calls[Key(status)].operations == {} ==>
                  Key(status) !in after.calls)
  {
    hide AddResult;
  }

  /** One call changed, in a session that knows more. */
  lemma SoundOthers(tools: Tools, head: Head, after: Head, calls: map<CallKey, Call>, more: map<CallKey, Call>,
      key: CallKey)
    requires SoundCalls(tools, head, calls) && key in calls
    requires after.ownedTurns == head.ownedTurns && after.respondedTurns == head.respondedTurns
    requires head.positions.Keys <= after.positions.Keys && after.statuses == head.statuses + {key}
    requires forall other :: other in more && other != key ==> other in calls && more[other] == calls[other]
    requires key in more ==> SoundCall(tools, after, key, more[key])
    ensures SoundCalls(tools, after, more)
  {
    assert SoundCall(tools, head, key, calls[key]);
    forall other | other in more
      ensures SoundCall(tools, after, other, more[other])
    {
      if other != key {
        assert SoundCall(tools, head, other, calls[other]);
      }
    }
  }

  lemma HeadMapOnly(a: Head, b: Head)
    requires a.operations == b.operations && a.positions == b.positions
    ensures HeadMap(a) == HeadMap(b)
  {
  }

  lemma FirstHead(head: Head, status: ToolCallStatus)
    requires OperationsIndexed(head) && Accepts(head, AddStatus(status)) && Key(status) !in head.statuses
    requires Initializable(head, status.operations)
    ensures var after := After(head, AddStatus(status));
            && after.ownedTurns == head.ownedTurns && after.respondedTurns == head.respondedTurns
            && after.positions.Keys == head.positions.Keys + IdSet(status.operations)
            && after.statuses == head.statuses + {Key(status)}
            && HeadMap(after) == AddOperations(HeadMap(head), status.operations)
  {
    hide Initialize;
    hide Initializable;
    hide AddOperations;
    hide StatusReferences;
    hide IdSet;
    hide OperationsIndexed;
    hide Accepts;
    HeadMapInitialize(head, status.operations);
    InitializeOnly(head, status.operations);
    HeadMapOnly(Initialize(head, status.operations), After(head, AddStatus(status)));
    hide HeadMap;
  }

  lemma SoundAfterFirst(tools: Tools, head: Head, core: Core, status: ToolCallStatus,
      operations: map<string, Operation>)
    requires SoundCalls(tools, head, core.calls) && OperationsIndexed(head) && Accepts(head, AddStatus(status))
    requires Key(status) in core.calls && FirstStatus(tools, head, core.calls[Key(status)], status)
    requires AddToolResult(tools, RecordStatus(core, status), operations, status).Ok?
    ensures SoundCalls(tools, After(head, AddStatus(status)),
            AddToolResult(tools, RecordStatus(core, status), operations, status).value.calls)
  {
    hide Initializable;
    hide AddToolResult;
    hide HeadMap;
    hide OperationsIndexed;
    hide Accepts;
    hide After;
    var key := Key(status);
    assert SoundCall(tools, head, key, core.calls[key]);
    FirstHead(head, status);
    ResultCalls(tools, core, operations, status);
    SoundOthers(tools, head, After(head, AddStatus(status)), core.calls,
                AddToolResult(tools, RecordStatus(core, status), operations, status).value.calls, key);
  }

  lemma SoundAfterRepeat(tools: Tools, head: Head, core: Core, status: ToolCallStatus,
      operations: map<string, Operation>)
    requires SoundCalls(tools, head, core.calls) && Accepts(head, AddStatus(status))
    requires Key(status) in core.calls && RepeatStatus(head, core.calls[Key(status)], status)
    requires AddToolResult(tools, RecordStatus(core, status), operations, status).Ok?
    ensures After(head, AddStatus(status)) == head.(itemSequence := head.itemSequence + 1)
    ensures SoundCalls(tools, After(head, AddStatus(status)),
            AddToolResult(tools, RecordStatus(core, status), operations, status).value.calls)
  {
    hide Initializable;
    hide AddToolResult;
    hide HeadMap;
    hide StatusReferences;
    var key := Key(status);
    assert SoundCall(tools, head, key, core.calls[key]);
    ResultCalls(tools, core, operations, status);
    assert head.statuses == head.statuses + {key};
    SoundOthers(tools, head, After(head, AddStatus(status)), core.calls,
                AddToolResult(tools, RecordStatus(core, status), operations, status).value.calls, key);
  }

  /** Snapshots of operations, added to what is known and to what is saved alike. */
  lemma AgreeMore(known: map<string, Operation>, head: Head, after: Head, snapshots: seq<Operation>,
      operations: seq<Operation>)
    requires SnapshotsAgree(known, head, Pending(snapshots)) && OperationsIndexed(after)
    requires after.positions.Keys == head.positions.Keys + IdSet(operations)
    requires HeadMap(after) == AddOperations(HeadMap(head), operations)
    ensures SnapshotsAgree(AddOperations(known, operations), after, Pending(snapshots + operations))
  {
    hide AddOperations;
    hide Pending;
    hide IdSet;
    hide HeadMap;
    hide OperationsIndexed;
    PendingMore(known, snapshots, operations, Pending(snapshots));
    var more := AddOperations(known, operations);
    HeadMapKeys(after);
    forall id
      ensures id in more <==> id in known || id in IdSet(operations)
      ensures id in more && IsTerminal(more[id].status) ==> id in HeadMap(after) && more[id] == HeadMap(after)[id]
    {
      AddOperationsAt(known, operations, id);
      AddOperationsAt(HeadMap(head), operations, id);
      if id in IdSet(operations) {
        AddOperationsSame(known, HeadMap(head), operations, id);
      }
    }
    assert more.Keys == after.positions.Keys;
  }

  /** The status the coordinator records, first or again: the store and the live state take the same step. */
  lemma GoodStatus(tools: Tools, start: Context, st: Stored, status: ToolCallStatus, at: nat)
    requires Good(tools, start, st) && at != 0 && Accepts(st.head, AddStatus(status))
    requires Key(status) in Live(tools, start, st).core.calls
    requires var call := Live(tools, start, st).core.calls[Key(status)];
             FirstStatus(tools, st.head, call, status) || RepeatStatus(st.head, call, status)
    requires AddItem(tools, Live(tools, start, st), StatusItem(status)).Ok?
    ensures var next := Apply(st, AddStatus(status), at).value;
            Good(tools, start, next) && Live(tools, start, next) ==
              AddItem(tools, Live(tools, start, st), StatusItem(status)).value
  {
    hide Fold;
    hide SnapshotsAgree;
    hide Snapshots;
    hide ExternalIds;
    hide Pending;
    hide Lawful;
    hide HeadFollows;
    hide HeadMap;
    hide StatusesOpen;
    hide AnswersCurrent;
    hide Distinct;
    hide Accepts;
    hide AddOperations;
    hide AddToolResult;
    hide Initializable;
    hide After;
    hide OperationsIndexed;
    hide SoundCalls;
    var request := AddStatus(status);
    var local := Replayed(tools, start, st.items);
    var call := local.core.calls[Key(status)];
    var after := After(st.head, request);
    var item := Item(after.itemSequence, at, StatusItem(status));
    assert OperationsIndexed(st.head) by { FollowsIndexed(st); }
    ApplyWellFormed(st, request, at);
    IndexedAfter(st.head, request);
    FoldMore(tools, start, st.items, item);
    CallOf(tools, st.head, local.core.calls, Key(status));
    StatusCore(tools, local.core, local.operations, HeadMap(st.head), status);
    StatusSound(tools, st.head, local.core, status, AddOperations(HeadMap(st.head), status.operations));
    AgreeMore(local.operations, st.head, after, Snapshots(st.items), status.operations);
    hide StatusReferences;
    assert ExternalIds(st.items) + [] == ExternalIds(st.items);
  }

  lemma FollowsIndexed(st: Stored)
    requires HeadFollows(st)
    ensures OperationsIndexed(st.head)
  {
  }

  lemma CallOf(tools: Tools, head: Head, calls: map<CallKey, Call>, key: CallKey)
    requires SoundCalls(tools, head, calls) && key in calls
    ensures SoundCall(tools, head, key, calls[key])
  {
  }

  lemma StatusSound(tools: Tools, head: Head, core: Core, status: ToolCallStatus, operations: map<string, Operation>)
    requires SoundCalls(tools, head, core.calls) && OperationsIndexed(head) && Accepts(head, AddStatus(status))
    requires Key(status) in core.calls
    requires FirstStatus(tools, head, core.calls[Key(status)], status)
             || RepeatStatus(head, core.calls[Key(status)], status)
    requires AddToolResult(tools, RecordStatus(core, status), operations, status).Ok?
    ensures var after := After(head, AddStatus(status));
            && SoundCalls(tools, after,
               AddToolResult(tools, RecordStatus(core, status), operations, status).value.calls)
            && after.positions.Keys == head.positions.Keys + IdSet(status.operations)
            && HeadMap(after) == AddOperations(HeadMap(head), status.operations)
  {
    hide Initializable;
    hide AddToolResult;
    hide HeadMap;
    hide Accepts;
    hide OperationsIndexed;
    hide AddOperations;
    var key := Key(status);
    CallOf(tools, head, core.calls, key);
    if FirstStatus(tools, head, core.calls[key], status) {
      hide After;
      FirstHead(head, status);
      SoundAfterFirst(tools, head, core, status, operations);
    } else {
      SoundAfterRepeat(tools, head, core, status, operations);
      AddOperationsNoop(HeadMap(head), status.operations);
      HeadMapOnly(head, After(head, AddStatus(status)));
    }
  }

  /** An update that tells the history nothing it has settled otherwise: the store refuses it, the last recorded
      state of the operation was still running, or it is the state saved already. */
  predicate Harmless(st: Stored, op: Operation) {
    Accepts(st.head, SaveOperation(op)) ==>
      op.id in Pending(Snapshots(st.items)) || (op.id in HeadMap(st.head) && HeadMap(st.head)[op.id] == op)
  }

  /** An operation that still runs is not settled. */
  lemma RunningIsHarmless(tools: Tools, start: Context, st: Stored, op: Operation)
    requires Good(tools, start, st) && op.id in HeadMap(st.head) && !IsTerminal(HeadMap(st.head)[op.id].status)
    ensures Harmless(st, op)
  {
    hide Fold;
    hide Replayed;
    hide Snapshots;
    hide Pending;
    hide Lawful;
    hide StatusesOpen;
    hide AnswersCurrent;
    hide Distinct;
    hide SoundCalls;
    hide HeadMap;
    hide Accepts;
    hide ExternalIds;
  }

  lemma AgreeSave(operations: map<string, Operation>, head: Head, pending: set<string>, op: Operation)
    requires OperationsIndexed(head) && SnapshotsAgree(operations, head, pending) && Accepts(head, SaveOperation(op))
    ensures SnapshotsAgree(operations, After(head, SaveOperation(op)), pending) <==>
            op.id in pending || (op.id in HeadMap(head) && HeadMap(head)[op.id] == op)
  {
    HeadMapSave(head, op);
    hide HeadMap;
    assert op.id in operations && After(head, SaveOperation(op)).positions == head.positions;
  }

  /** A saved update keeps the session good exactly when it is harmless. */
  lemma GoodSave(tools: Tools, start: Context, st: Stored, op: Operation, at: nat)
    requires Good(tools, start, st) && at != 0 && Accepts(st.head, SaveOperation(op))
    ensures var next := Apply(st, SaveOperation(op), at).value;
            && (Good(tools, start, next) <==> Harmless(st, op))
            && Live(tools, start, next) == Live(tools, start, st).(operations := HeadMap(st.head)[op.id := op])
  {
    hide Fold;
    hide Replayed;
    hide Snapshots;
    hide ExternalIds;
    hide Pending;
    hide Lawful;
    hide StatusesOpen;
    hide AnswersCurrent;
    hide Distinct;
    hide SoundCalls;
    hide SnapshotsAgree;
    hide HeadMap;
    hide HeadFollows;
    ApplyWellFormed(st, SaveOperation(op), at);
    var head, after := st.head, After(st.head, SaveOperation(op));
    var local := Replayed(tools, start, st.items);
    FollowsIndexed(st);
    HeadMapSave(head, op);
    AgreeSave(local.operations, head, Pending(Snapshots(st.items)), op);
    SoundSame(tools, head, after, local.core.calls);
  }

  lemma OverlaySaved(tools: Tools, start: Context, st: Stored, op: Operation, at: nat, id: string)
    requires Good(tools, start, st) && at != 0 && Accepts(st.head, SaveOperation(op))
    ensures var next := Apply(st, SaveOperation(op), at).value;
            var after := AddOperations(Replayed(tools, start, st.items).operations, Resume(next).operations);
            && (id in after <==> id in HeadMap(next.head))
            && (id in after ==> (after[id] == HeadMap(next.head)[id] <==>
               id != op.id || Harmless(st, op) || !IsTerminal(op.status)))
  {
    hide Fold;
    hide Replayed;
    hide Resume;
    hide SoundCalls;
    hide StatusesOpen;
    hide AnswersCurrent;
    hide Lawful;
    hide HeadFollows;
    hide Distinct;
    hide Pending;
    hide Snapshots;
    hide ExternalIds;
    hide AddOperations;
    assert OperationsIndexed(st.head) by { FollowsIndexed(st); }
    var next := Apply(st, SaveOperation(op), at).value;
    assert OperationsIndexed(next.head);
    HeadMapSave(st.head, op);
    hide HeadMap;
    hide OperationsIndexed;
    hide Accepts;
    var known, resumed := Replayed(tools, start, st.items).operations, Resume(next).operations;
    AddOperationsAt(known, resumed, id);
    var after := AddOperations(known, resumed);
    if id in IdSet(resumed) {
      UnsettledOnly(next, after[id]);
      HeadMapAt(next.head, after[id]);
    } else if id in known {
      var saved := HeadMap(next.head)[id];
      HeadMapKey(next.head, id);
      UnsettledOnly(next, saved);
      HeadMapAt(next.head, saved);
    }
  }

  /** A restart after a saved update has the live state exactly when the update is harmless or sets the operation
      running: a settled operation keeps, for a restart, the end the history has recorded. */
  lemma SaveRestores(tools: Tools, start: Context, st: Stored, op: Operation, at: nat)
    requires Good(tools, start, st) && at != 0 && Accepts(st.head, SaveOperation(op))
    ensures var next := Apply(st, SaveOperation(op), at).value;
            Restore(tools, start, next) == Ok(Live(tools, start, next)) <==> Harmless(st, op) || !IsTerminal(op.status)
  {
    hide AddOperations;
    hide HeadMap;
    hide Resume;
    hide Harmless;
    hide Good;
    hide Accepts;
    hide Fold;
    var next := Apply(st, SaveOperation(op), at).value;
    var after := AddOperations(Replayed(tools, start, st.items).operations, Resume(next).operations);
    forall id
      ensures id in after <==> id in HeadMap(next.head)
      ensures id in after ==> (after[id] == HeadMap(next.head)[id] <==>
              id != op.id || Harmless(st, op) || !IsTerminal(op.status))
    {
      OverlaySaved(tools, start, st, op, at, id);
    }
    SavedKnown(tools, start, st, op, at);
    if Harmless(st, op) || !IsTerminal(op.status) {
      assert after == HeadMap(next.head);
    }
  }

  lemma SavedKnown(tools: Tools, start: Context, st: Stored, op: Operation, at: nat)
    requires Good(tools, start, st) && at != 0 && Accepts(st.head, SaveOperation(op))
    ensures var next := Apply(st, SaveOperation(op), at).value;
            next.items == st.items && Fold(tools, NewLocal(start), st.items).Ok? && op.id in HeadMap(next.head)
  {
    hide Fold;
    hide SoundCalls;
    hide SnapshotsAgree;
    hide StatusesOpen;
    hide AnswersCurrent;
    hide Distinct;
    hide ExternalIds;
    hide Lawful;
    HeadMapSave(st.head, op);
  }

  lemma HeadMapSave(head: Head, op: Operation)
    requires OperationsIndexed(head) && Accepts(head, SaveOperation(op))
    ensures HeadMap(After(head, SaveOperation(op))) == HeadMap(head)[op.id := op]
    ensures HeadMap(head).Keys == head.positions.Keys
  {
    var after := After(head, SaveOperation(op));
    forall id
      ensures id in HeadMap(after) <==> id in HeadMap(head)[op.id := op]
      ensures id in HeadMap(after) ==> HeadMap(after)[id] == HeadMap(head)[op.id := op][id]
    {
    }
  }

  lemma SoundSame(tools: Tools, head: Head, after: Head, calls: map<CallKey, Call>)
    requires SoundCalls(tools, head, calls)
    requires after == head.(operations := after.operations)
    ensures SoundCalls(tools, after, calls)
  {
    forall key | key in calls
      ensures SoundCall(tools, after, key, calls[key])
    {
      assert SoundCall(tools, head, key, calls[key]);
    }
  }

  /** A new session is good. */
  lemma GoodNew(tools: Tools, start: Context, session: Session)
    ensures Good(tools, start, NewStored(session))
    ensures Live(tools, start, NewStored(session)) == NewLocal(start)
  {
    NewWellFormed(session);
    assert HeadMap(NewHead(session)) == map[];
  }

  /** What the recursion says of any response: it answers the turn that was the latest when it was stored. */
  lemma {:induction false} AnswerIsCurrent(items: seq<Item>, i: nat)
    requires AnswersCurrent(items) && i < |items| && items[i].data.ResponseItem?
    ensures items[i].data.response.turnID == LastTurn(items[..i])
  {
    if i < |items| - 1 {
      assert Front(items)[..i] == items[..i];
      AnswerIsCurrent(Front(items), i);
    } else {
      assert Front(items) == items[..i];
    }
  }
}
