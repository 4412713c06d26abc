/** What each step of the coordinator's loop does to state and store, as facts about values. */
module CoordinatorSteps {
  import opened ContextBuilder
  import opened Inbox
  import opened LocalCounts
  import opened LocalFork
  import opened LocalHistory
  import opened LocalState
  import opened Operations
  import opened Options
  import opened SessionHistory
  import opened SessionResume
  import opened SessionState
  import opened SessionTypes
  import opened Translation
  import Trace

  lemma {:induction false} FoldRefused(tools: Tools, start: Local, items: seq<Item>, n: nat)
    requires n <= |items| && Fold(tools, start, items[..n]).Refused?
    ensures Fold(tools, start, items).Refused?
  {
    if n < |items| {
      assert Front(items)[..n] == items[..n];
      FoldRefused(tools, start, Front(items), n);
    } else {
      assert items[..n] == items;
    }
  }

  lemma WaitingAll(statuses: seq<ToolCallStatus>, head: Head)
    requires !NeedsModel(statuses) && forall status :: status in statuses ==> Scheduled(head, status)
    ensures forall status :: status in statuses ==> IsWaiting(status.status)
  {
    forall status | status in statuses
      ensures IsWaiting(status.status)
    {
      assert Scheduled(head, status);
    }
  }

  /** Some status already has its result, so the model has something to read. */
  predicate NeedsModel(statuses: seq<ToolCallStatus>) {
    exists status :: status in statuses && (status.status.error != "" || status.status.waitingFor == [])
  }

  /** The model is asked at once exactly if some call has its result at once. */
  lemma SettledAtOnce(statuses: seq<ToolCallStatus>, head: Head)
    requires forall status :: status in statuses ==> Scheduled(head, status)
    ensures NeedsModel(statuses) <==> exists status :: status in statuses && !IsWaiting(status.status)
  {
    forall status | status in statuses
      ensures IsWaiting(status.status) <==> !(status.status.error != "" || status.status.waitingFor == [])
    {
      assert Scheduled(head, status);
    }
  }

  /** What was delivered never exceeds what is available. */
  lemma LiveInOrder(tools: Tools, start: Context, st: Stored)
    requires Good(tools, start, st)
    ensures InOrder(Live(tools, start, st).core)
  {
    InputsConserved(tools, start, st.items);
    hide Fold;
    hide SoundCalls;
    hide SnapshotsAgree;
    hide StatusesOpen;
    hide AnswersCurrent;
    hide Distinct;
    hide HeadFollows;
    hide Lawful;
    hide HeadMap;
  }

  /** A call that is settled counts as one input more. */
  lemma SettledAvailable(tools: Tools, local: Local, status: ToolCallStatus)
    requires AddItem(tools, local, StatusItem(status)).Ok? && Key(status) in local.core.calls
    ensures var after := AddItem(tools, local, StatusItem(status)).value.core;
            && local.core.available <= after.available
            && (Key(status) !in after.calls ==> local.core.available < after.available)
  {
    hide AddItem;
    StatusCounts(tools, local, status);
  }

  lemma ResponseAccepted(tools: Tools, start: Context, st: Stored, response: Response)
    requires Good(tools, start, st) && response.turnID == Live(tools, start, st).core.turnID
    requires response.turnID in st.head.ownedTurns && response.turnID !in st.head.respondedTurns
    ensures Accepts(st.head, AddResponse(response)) && response.turnID == LastTurn(st.items)
  {
    hide Fold;
    hide SnapshotsAgree;
    hide StatusesOpen;
    hide AnswersCurrent;
    hide Distinct;
    hide SoundCalls;
    hide LastTurn;
    hide HeadFollows;
    hide Lawful;
    FoldTurn(tools, start, st.items);
  }

  /** A response joins the context behind what is committed. */
  function RecordedAct(response: Response, committed: seq<ModelItem>): Trace.Act {
    Trace.Recorded(response.turnID, response.output, committed + response.output)
  }

  /** The operations of a list that still run are dispatched, in order. */
  function DispatchActs(operations: seq<Operation>): seq<Trace.Act> {
    if operations == [] then []
    else
      DispatchActs(Front(operations)) +
      if IsTerminal(Last(operations).status) then [] else [Trace.Dispatched(Last(operations).id)]
  }

  function StatusActs(statuses: seq<ToolCallStatus>): seq<Trace.Act> {
    if statuses == [] then [] else StatusActs(Front(statuses)) + DispatchActs(Last(statuses).operations)
  }

  lemma NoDispatchActs(acts: seq<Trace.Act>)
    ensures acts + DispatchActs([]) == acts
  {
  }

  lemma NoStatusActs(acts: seq<Trace.Act>)
    ensures acts + StatusActs([]) == acts
  {
  }

  lemma DispatchOne(op: Operation)
    ensures DispatchActs([op]) == if IsTerminal(op.status) then [] else [Trace.Dispatched(op.id)]
  {
    assert Front([op]) == [];
  }

  lemma DispatchMore(operations: seq<Operation>, op: Operation)
    ensures DispatchActs(operations + [op]) == DispatchActs(operations) + DispatchActs([op])
  {
    assert Front(operations + [op]) == operations && Last(operations + [op]) == op;
    DispatchOne(op);
  }

  lemma StatusMore(statuses: seq<ToolCallStatus>, status: ToolCallStatus)
    ensures StatusActs(statuses + [status]) == StatusActs(statuses) + DispatchActs(status.operations)
  {
    assert Front(statuses + [status]) == statuses && Last(statuses + [status]) == status;
  }

  /** The first input in hand has reached the history. */
  lemma HandTaken(delivered: seq<string>, known: seq<string>, input: Input, rest: seq<Input>)
    requires delivered == known + ExternalOf([input] + rest)
    ensures delivered == known + (if input.kind.External? then [input.id] else []) + ExternalOf(rest)
  {
    assert ([input] + rest)[1..] == rest;
  }

  lemma SeqAssoc<T>(a: seq<T>, b: seq<T>, c: seq<T>)
    ensures a + (b + c) == (a + b) + c
  {
  }

  /** One input more is delivered and in hand. */
  lemma HandMore(resumed: seq<string>, delivered: seq<Input>, known: seq<string>, hand: seq<Input>, input: Input)
    requires resumed + ExternalOf(delivered) == known + ExternalOf(hand)
    ensures resumed + ExternalOf(delivered + [input]) == known + ExternalOf(hand + [input])
  {
    hide ExternalOf;
    ExternalSplit(delivered, [input]);
    ExternalSplit(hand, [input]);
    SeqAssoc(resumed, ExternalOf(delivered), ExternalOf([input]));
    SeqAssoc(known, ExternalOf(hand), ExternalOf([input]));
  }

  /** The inputs stored from `origin` on. */
  function StoredSince(items: seq<Item>, origin: nat): seq<Input> {
    if |items| <= origin then []
    else StoredSince(Front(items), origin) + if Last(items).data.InputItem? then [Last(items).data.input] else []
  }

  lemma StoredMore(items: seq<Item>, item: Item, origin: nat)
    requires origin <= |items|
    ensures StoredSince(items + [item], origin) ==
            if item.data.InputItem? then StoredSince(items, origin) + [item.data.input] else StoredSince(items, origin)
  {
    assert Front(items + [item]) == items && Last(items + [item]) == item;
    assert StoredSince(items, origin) + [] == StoredSince(items, origin);
  }

  /** No item takes back what is committed to the model's context. */
  lemma AddItemGrows(tools: Tools, local: Local, data: ItemData)
    requires AddItem(tools, local, data).Ok?
    ensures local.core.context.committed <= AddItem(tools, local, data).value.core.context.committed
  {
    hide AddCalls;
    hide Awaited;
    hide RequiresTranslator;
    hide AllTerminal;
    hide AddOperations;
  }

  /** A session one item longer has committed no less. */
  lemma LiveGrows(tools: Tools, start: Context, st: Stored, next: Stored)
    requires Good(tools, start, st) && Good(tools, start, next)
    requires next.items == st.items || (next.items != [] && Front(next.items) == st.items)
    ensures Live(tools, start, st).core.context.committed <= Live(tools, start, next).core.context.committed
  {
    hide SoundCalls;
    hide SnapshotsAgree;
    hide StatusesOpen;
    hide AnswersCurrent;
    hide Distinct;
    hide HeadFollows;
    hide Lawful;
    hide HeadMap;
    hide AddItem;
    if next.items != st.items {
      AddItemGrows(tools, Replayed(tools, start, st.items), Last(next.items).data);
    }
  }

  lemma NewInMiddle(known: seq<string>, id: string, rest: seq<string>)
    requires Distinct(known + [id] + rest)
    ensures id !in known
  {
    var all := known + [id] + rest;
    assert all[|known|] == id;
    assert forall k :: 0 <= k < |known| ==> all[k] == known[k];
  }

  /** The turn the coordinator proposes extends the session's latest turn. */
  lemma NextTurn(tools: Tools, start: Context, st: Stored, turn: Turn)
    requires Good(tools, start, st) && turn.previous == Live(tools, start, st).core.turnID
    requires turn.id != "" && turn.id !in st.head.turns
    ensures Accepts(st.head, AddTurn(turn))
    ensures turn.id !in st.head.respondedTurns
  {
    hide Fold;
    hide SnapshotsAgree;
    hide StatusesOpen;
    hide Distinct;
    hide SoundCalls;
    FoldTurn(tools, start, st.items);
    RespondedKnown(st.items);
    hide Lawful;
    hide TurnIds;
    hide LastTurn;
    hide OwnedResponses;
  }

  lemma {:induction false} RespondedKnown(items: seq<Item>)
    requires Lawful(items)
    ensures OwnedResponses(items) <= TurnIds(items)
  {
    if items != [] {
      RespondedKnown(Front(items));
      OwnedIsKnown(Front(items));
    }
  }

  lemma TurnFrame(tools: Tools, local: Local, st: Stored, turn: Turn, at: nat)
    requires Accepts(st.head, AddTurn(turn))
    ensures var next, after := Apply(st, AddTurn(turn), at).value, AddItem(tools, local, TurnItem(turn)).value;
            && next.head.ownedTurns == st.head.ownedTurns + {turn.id}
               && next.head.respondedTurns == st.head.respondedTurns
            && next.head.positions == st.head.positions
            && next.items == st.items + [Item(st.head.itemSequence + 1, at, TurnItem(turn))]
            && after.operations == local.operations && after.core.calls == local.core.calls
            && after.core.turnID == turn.id && after.core.turnKind == turn.kind
            && after.core.context.committed == local.core.context.Built()
            && ExternalIds(next.items) == ExternalIds(st.items)
  {
    ExternalMore(st.items, Item(st.head.itemSequence + 1, at, TurnItem(turn)));
  }

  lemma ResponseFrame(tools: Tools, local: Local, st: Stored, response: Response, at: nat)
    requires Accepts(st.head, AddResponse(response)) && local.core.turnKind.Regular?
    ensures var next, after := Apply(st, AddResponse(response), at).value,
            AddItem(tools, local, ResponseItem(response)).value;
            && next.head.positions == st.head.positions
            && after.core.turnID == local.core.turnID && after.core.turnKind == local.core.turnKind
            && after.operations == local.operations
            && after.core.context.committed == local.core.context.committed + response.output
            && after.core.calls == AddCalls(local.core.calls, response.turnID, response.output)
            && after.core.available == local.core.available
            && (response.turnID == local.core.turnID ==> after.core.delivered == local.core.turnInputs)
            && ExternalIds(next.items) == ExternalIds(st.items)
  {
    hide AddCalls;
    ExternalMore(st.items, Item(st.head.itemSequence + 1, at, ResponseItem(response)));
  }

  lemma InputFrame(tools: Tools, local: Local, st: Stored, input: Input, at: nat)
    requires Accepts(st.head, AddInput(input)) && AddItem(tools, local, InputItem(input)).Ok?
    ensures var next, after := Apply(st, AddInput(input), at).value, AddItem(tools, local, InputItem(input)).value;
            && next.head == st.head.(itemSequence := st.head.itemSequence + 1)
            && ExternalIds(next.items) == ExternalIds(st.items) + (if input.kind.External? then [input.id] else [])
            && next.items == st.items + [Item(st.head.itemSequence + 1, at, InputItem(input))]
            && after.operations == local.operations && after.core.calls == local.core.calls
            && after.core.turnID == local.core.turnID && after.core.turnKind == local.core.turnKind
            && after.core.context.committed == local.core.context.committed
            && after.core.delivered == local.core.delivered
            && local.core.available + (if input.kind.External? then 1 else 0) <= after.core.available
            && (input.kind.Control? ==> input.kind.message.Some?)
  {
    ExternalMore(st.items, Item(st.head.itemSequence + 1, at, InputItem(input)));
  }

  /** A session when an update has been saved, if it is accepted. */
  function Saved(st: Stored, update: Operation, at: nat): Stored {
    if Accepts(st.head, SaveOperation(update)) then Apply(st, SaveOperation(update), at).value else st
  }

  /** What is harmless stays so while harmless updates are saved. */
  lemma HarmlessKept(tools: Tools, start: Context, st: Stored, saved: Operation, update: Operation, at: nat)
    requires Good(tools, start, st) && at != 0 && Accepts(st.head, SaveOperation(saved))
    requires Harmless(st, saved) && Harmless(st, update)
    ensures Harmless(Apply(st, SaveOperation(saved), at).value, update)
  {
    hide Good;
    hide Pending;
    hide Snapshots;
    LiveFacts(tools, start, st);
    HeadMapSave(st.head, saved);
    hide HeadMap;
  }

  lemma SavedFrame(st: Stored, update: Operation, at: nat)
    requires Accepts(st.head, SaveOperation(update))
    ensures var next := Apply(st, SaveOperation(update), at).value;
            && next.items == st.items && next.head.positions == st.head.positions
            && next.head.ownedTurns == st.head.ownedTurns && next.head.respondedTurns == st.head.respondedTurns
  {
  }

  /** The last known states of some operations. */
  function Latest(ids: seq<string>, operations: map<string, Operation>): (r: seq<Operation>)
    requires forall id :: id in ids ==> id in operations
    ensures |r| == |ids| && forall k :: 0 <= k < |ids| ==> r[k] == operations[ids[k]]
  {
    if ids == [] then []
    else
      assert ids[|ids| - 1] in ids;
      Latest(Front(ids), operations) + [operations[Last(ids)]]
  }

  lemma UntranslatedCall(tools: Tools, start: Context, st: Stored, key: CallKey)
    requires Good(tools, start, st) && key in Live(tools, start, st).core.calls
             && Live(tools, start, st).core.calls[key].status.None?
    ensures Live(tools, start, st).core.calls[key].operations == {}
  {
    hide Good;
    hide Live;
    LiveFacts(tools, start, st);
    CallOf(tools, st.head, Live(tools, start, st).core.calls, key);
  }

  lemma TranslatedCall(tools: Tools, start: Context, st: Stored, key: CallKey)
    requires Good(tools, start, st) && key in Live(tools, start, st).core.calls
             && Live(tools, start, st).core.calls[key].status.Some?
    ensures var call := Live(tools, start, st).core.calls[key];
            && call.operations == SetOf(call.status.value.waitingFor)
            && call.operations <= st.head.positions.Keys && tools.resolve(call.call.name).Some?
            && forall id :: id in call.status.value.waitingFor ==>
               id in HeadMap(st.head) && HeadMap(st.head)[id].id == id
  {
    hide Good;
    hide Live;
    hide HeadMap;
    hide OperationsIndexed;
    LiveFacts(tools, start, st);
    CallOf(tools, st.head, Live(tools, start, st).core.calls, key);
    var call := Live(tools, start, st).core.calls[key];
    forall id | id in call.status.value.waitingFor
      ensures id in HeadMap(st.head) && HeadMap(st.head)[id].id == id
    {
      assert id in SetOf(call.status.value.waitingFor);
      HeadMapKey(st.head, id);
    }
  }

  lemma RepeatAccepted(tools: Tools, start: Context, st: Stored, status: ToolCallStatus)
    requires Good(tools, start, st) && Key(status) in Live(tools, start, st).core.calls
    requires Live(tools, start, st).core.calls[Key(status)].status == Some(status.status)
    requires forall id :: id in status.status.waitingFor ==> id in HeadMap(st.head)
    requires status.operations == Latest(status.status.waitingFor, HeadMap(st.head))
    ensures Accepts(st.head, AddStatus(status))
    ensures RepeatStatus(st.head, Live(tools, start, st).core.calls[Key(status)], status)
  {
    hide Good;
    hide Live;
    hide Initializable;
    hide StatusReferences;
    hide Latest;
    LiveFacts(tools, start, st);
    CallOf(tools, st.head, Live(tools, start, st).core.calls, Key(status));
    var ids, known := status.status.waitingFor, HeadMap(st.head);
    LatestFacts(ids, known, st.head);
    hide HeadMap;
  }

  lemma LatestFacts(ids: seq<string>, known: map<string, Operation>, head: Head)
    requires OperationsIndexed(head) && known == HeadMap(head)
    requires forall id :: id in ids ==> id in known
    ensures SetOf(ids) == IdSet(Latest(ids, known))
    ensures forall op :: op in Latest(ids, known) ==> op.id in known && known[op.id] == op
  {
    hide Latest;
    var operations := Latest(ids, known);
    forall k | 0 <= k < |ids|
      ensures operations[k].id == ids[k] && known[ids[k]] == operations[k]
    {
      assert ids[k] in ids;
      HeadMapKey(head, ids[k]);
    }
    forall op | op in operations
      ensures op.id in known && known[op.id] == op && op.id in ids
    {
      var k :| 0 <= k < |operations| && operations[k] == op;
      assert operations[k].id == ids[k];
    }
    forall id | id in ids
      ensures id in IdSet(operations)
    {
      var k :| 0 <= k < |ids| && ids[k] == id;
      assert operations[k] in operations;
    }
  }

  /** A repeated status whose operations are all terminal settles its call. */
  lemma RepeatSettles(tools: Tools, local: Local, status: ToolCallStatus)
    requires AddItem(tools, local, StatusItem(status)).Ok? && Key(status) in local.core.calls
    requires var call := local.core.calls[Key(status)];
             && call.status == Some(status.status) && call.operations == SetOf(status.status.waitingFor)
             && AllTerminal(call.operations, local.operations) && tools.resolve(call.call.name).Some?
    requires forall id :: id in status.status.waitingFor ==> id in local.operations && local.operations[id].id == id
    requires status.operations == Latest(status.status.waitingFor, local.operations)
    ensures var after := AddItem(tools, local, StatusItem(status)).value;
            after.core.calls == local.core.calls - {Key(status)} && after.operations == local.operations
  {
    var key := Key(status);
    var ids := status.status.waitingFor;
    var call := local.core.calls[key];
    forall op | op in status.operations
      ensures op.id in local.operations && local.operations[op.id] == op
    {
      var k :| 0 <= k < |status.operations| && status.operations[k] == op;
      assert ids[k] in ids;
    }
    AddOperationsNoop(local.operations, status.operations);
    assert call.operations + SetOf(ids) == call.operations;
    AwaitedAll(ids, call, local.operations);
    hide Awaited;
    hide AddOperations;
    hide AddResult;
    hide Latest;
  }

  lemma {:induction false} AwaitedAll(ids: seq<string>, call: Call, operations: map<string, Operation>)
    requires forall id :: id in ids ==> id in call.operations && id in operations
    ensures Awaited(ids, call, operations).Some?
    ensures Awaited(ids, call.(status := None), operations) == Awaited(ids, call, operations)
  {
    if ids != [] {
      assert ids[|ids| - 1] in ids;
      AwaitedAll(Front(ids), call, operations);
    }
  }

  /** A status just recorded for a new call: an error, or operations that are ready and known to the session. */
  ghost predicate Scheduled(head: Head, status: ToolCallStatus) {
    && ((IsError(status.status) && status.operations == []) || IsWaiting(status.status))
    && IdSet(status.operations) <= head.positions.Keys && AllReady(status.operations)
  }

  lemma LiveFacts(tools: Tools, start: Context, st: Stored)
    requires Good(tools, start, st)
    ensures Live(tools, start, st).operations == HeadMap(st.head)
    ensures HeadMap(st.head).Keys == st.head.positions.Keys
    ensures SoundCalls(tools, st.head, Live(tools, start, st).core.calls)
    ensures OperationsIndexed(st.head) && st.head.latestTurn == LastTurn(st.items)
  {
    hide Fold;
    hide Lawful;
    hide StatusesOpen;
    hide Distinct;
    hide SoundCall;
    hide HeadMap;
  }

  /** The store accepts the first status of an open call. */
  lemma FirstAccepted(tools: Tools, start: Context, st: Stored, call: ToolCall, status: ToolCallStatus)
    requires Good(tools, start, st) && Key(status) in Live(tools, start, st).core.calls
    requires FirstStatus(tools, st.head, Call(call, None, {}), status)
             && StatusReferences(status.status, status.operations)
    ensures Accepts(st.head, AddStatus(status))
  {
    hide Initializable;
    hide StatusReferences;
    hide HeadMap;
    hide Live;
    hide Good;
    LiveFacts(tools, start, st);
    CallOf(tools, st.head, Live(tools, start, st).core.calls, Key(status));
  }

  lemma FirstParts(tools: Tools, head: Head, call: ToolCall, status: ToolCallStatus)
    requires FirstStatus(tools, head, Call(call, None, {}), status)
    ensures (IsError(status.status) && status.operations == []) || IsWaiting(status.status)
    ensures SetOf(status.status.waitingFor) == IdSet(status.operations)
  {
  }

  lemma AddTwice(known: map<string, Operation>, operations: seq<Operation>)
    ensures AddOperations(AddOperations(known, operations), operations) == AddOperations(known, operations)
  {
    hide AddOperations;
    hide IdSet;
    var once := AddOperations(known, operations);
    var twice := AddOperations(once, operations);
    forall id
      ensures id in twice <==> id in once
      ensures id in twice ==> twice[id] == once[id]
    {
      AddOperationsAt(known, operations, id);
      AddOperationsAt(once, operations, id);
      if id in IdSet(operations) {
        AddOperationsSame(known, once, operations, id);
      }
    }
  }

  /** Knowing the operations of a status before it is added makes no difference. */
  lemma AddedBefore(tools: Tools, local: Local, status: ToolCallStatus)
    ensures AddItem(tools, local.(operations := AddOperations(local.operations, status.operations)),
            StatusItem(status)) ==
            AddItem(tools, local, StatusItem(status))
  {
    AddTwice(local.operations, status.operations);
    hide AddOperations;
    hide AddToolResult;
    hide RecordStatus;
  }

  /** An error settles its call at once; a call whose operations are ready stays open. */
  lemma FirstSettles(tools: Tools, local: Local, call: ToolCall, status: ToolCallStatus)
    requires AddItem(tools, local, StatusItem(status)).Ok?
    requires Key(status) in local.core.calls && local.core.calls[Key(status)] == Call(call, None, {})
    requires (IsError(status.status) && status.operations == []) || IsWaiting(status.status)
    requires AllReady(status.operations) && SetOf(status.status.waitingFor) == IdSet(status.operations)
    ensures var calls := AddItem(tools, local, StatusItem(status)).value.core.calls;
            calls == if IsError(status.status) then local.core.calls - {Key(status)}
                     else local.core.calls[Key(status) :=
                         Call(call, Some(status.status), SetOf(status.status.waitingFor))]
  {
    var key := Key(status);
    var known := AddOperations(local.operations, status.operations);
    var recorded := RecordStatus(local.core, status);
    ResultCalls(tools, local.core, known, status);
    assert {} + SetOf(status.status.waitingFor) == SetOf(status.status.waitingFor);
    assert recorded.calls[key] == Call(call, Some(status.status), SetOf(status.status.waitingFor));
    if IsWaiting(status.status) {
      var id := status.status.waitingFor[0];
      assert id in SetOf(status.status.waitingFor);
      AddOperationsAt(local.operations, status.operations, id);
      assert !AllTerminal(recorded.calls[key].operations, known);
    }
    hide AddOperations;
    hide Awaited;
    hide AddResult;
    hide AllTerminal;
  }

  /** An append adds its item at the end. */
  lemma AppliedItems(st: Stored, request: Request, at: nat)
    requires Accepts(st.head, request)
    ensures var next := Apply(st, request, at).value;
            && next.head == After(st.head, request)
            && next.items == st.items +
               if DataOf(request).Some? then [Item(st.head.itemSequence + 1, at, DataOf(request).value)] else []
  {
    if request.AddStatus? {
      InitializeOnly(st.head, request.status.operations);
    }
    hide Accepts;
    hide Initialize;
    assert st.items + [] == st.items;
  }

  lemma ExternalMore(items: seq<Item>, item: Item)
    ensures ExternalIds(items + [item]) ==
            ExternalIds(items) +
              if item.data.InputItem? && item.data.input.kind.External? then [item.data.input.id] else []
    ensures !item.data.InputItem? ==> ExternalIds(items + [item]) == ExternalIds(items)
  {
    assert Front(items + [item]) == items && Last(items + [item]) == item;
    assert ExternalIds(items) + [] == ExternalIds(items);
  }

  /** The external inputs of a good session have names. */
  lemma GoodNames(tools: Tools, start: Context, st: Stored)
    requires Good(tools, start, st)
    ensures "" !in ExternalIds(st.items)
  {
    hide Fold;
    hide StatusesOpen;
    hide AnswersCurrent;
    hide SoundCalls;
    hide SnapshotsAgree;
    LawfulNames(st.items);
  }

  lemma {:induction false} LawfulNames(items: seq<Item>)
    requires Lawful(items)
    ensures "" !in ExternalIds(items)
  {
    if items != [] {
      LawfulNames(Front(items));
    }
  }

  /** A status changes neither turns nor responses, and knows the operations it carries. */
  lemma StatusHead(tools: Tools, start: Context, st: Stored, status: ToolCallStatus)
    requires Good(tools, start, st) && Accepts(st.head, AddStatus(status))
    requires Key(status) in Live(tools, start, st).core.calls
    requires var call := Live(tools, start, st).core.calls[Key(status)];
             FirstStatus(tools, st.head, call, status) || RepeatStatus(st.head, call, status)
    ensures var after := After(st.head, AddStatus(status));
            && after.ownedTurns == st.head.ownedTurns && after.respondedTurns == st.head.respondedTurns
            && st.head.positions.Keys <= after.positions.Keys && IdSet(status.operations) <= after.positions.Keys
  {
    hide Accepts;
    hide Fold;
    hide SnapshotsAgree;
    hide Lawful;
    hide StatusesOpen;
    hide Distinct;
    hide ExternalIds;
    hide Snapshots;
    hide Initializable;
    hide OperationsIndexed;
    hide TurnIds;
    hide LastTurn;
    hide OwnedTurnIds;
    hide OwnedResponses;
    hide OwnedStatuses;
    hide AddOperations;
    var key := Key(status);
    var call := Live(tools, start, st).core.calls[key];
    CallOf(tools, st.head, Live(tools, start, st).core.calls, key);
    if FirstStatus(tools, st.head, call, status) {
      hide After;
      FirstHead(st.head, status);
    }
  }

  lemma InputAccepted(tools: Tools, local: Local, head: Head, request: Request)
    requires request.AddInput? || Accepts(head, request)
    requires request.AddInput? ==> AddItem(tools, local, InputItem(request.input)).Ok?
    ensures Accepts(head, request)
  {
  }

  // Which operations are known, dispatched and heard of.

  /** More operations are known, all of them from these statuses; none known before has changed. */
  ghost predicate OpsMore(before: map<string, Operation>, after: map<string, Operation>,
      statuses: seq<ToolCallStatus>)
  {
    && (forall id :: id in before ==> id in after && after[id] == before[id])
    && (forall id :: id in after ==>
       id in before || exists status :: status in statuses && id in IdSet(status.operations))
  }

  /** The operations of these statuses are known as they were submitted. */
  ghost predicate OpsHold(known: map<string, Operation>, statuses: seq<ToolCallStatus>) {
    forall status, op :: status in statuses && op in status.operations ==> op.id in known && known[op.id] == op
  }

  lemma NothingTracked(known: map<string, Operation>, acts: seq<Trace.Act>, heard: seq<Operation>)
    requires acts == []
    ensures Tracked(known, acts, heard)
  {
  }

  lemma AllAttended(known: map<string, Operation>, acts: seq<Trace.Act>, heard: seq<Operation>)
    requires forall id :: id in known && !IsTerminal(known[id].status) ==> Trace.Dispatched(id) in acts
    ensures Attended(known, acts, heard)
  {
  }

  lemma StatusOperations(tools: Tools, local: Local, status: ToolCallStatus)
    requires AddItem(tools, local, StatusItem(status)).Ok?
    ensures AddItem(tools, local, StatusItem(status)).value.operations ==
            AddOperations(local.operations, status.operations)
  {
    hide AddToolResult;
    hide RecordStatus;
  }

  lemma OneLonger(items: seq<Item>, item: Item)
    ensures Front(items + [item]) == items
  {
  }

  /** The operations of a first status are new. */
  lemma FirstOps(tools: Tools, head: Head, known: map<string, Operation>, call: Call, status: ToolCallStatus)
    requires FirstStatus(tools, head, call, status) && known.Keys == head.positions.Keys
    ensures var after := AddOperations(known, status.operations);
            OpsMore(known, after, [status]) && OpsHold(after, [status])
  {
    hide AddOperations;
    var after := AddOperations(known, status.operations);
    forall id
      ensures id in after <==> id in known || id in IdSet(status.operations)
      ensures id in known ==> after[id] == known[id]
      ensures id in IdSet(status.operations) ==> after[id] in status.operations && after[id].id == id
    {
      AddOperationsAt(known, status.operations, id);
    }
    forall op | op in status.operations
      ensures op.id in after && after[op.id] == op
    {
      assert op.id in IdSet(status.operations);
    }
    assert status in [status];
  }

  lemma OpsMoreMore(a: map<string, Operation>, b: map<string, Operation>, c: map<string, Operation>,
      statuses: seq<ToolCallStatus>, status: ToolCallStatus)
    requires OpsMore(a, b, statuses) && OpsHold(b, statuses)
    requires OpsMore(b, c, [status]) && OpsHold(c, [status])
    ensures OpsMore(a, c, statuses + [status]) && OpsHold(c, statuses + [status])
  {
    hide IdSet;
    assert status in [status] && status in statuses + [status];
    forall id | id in c
      ensures id in a || exists other :: other in statuses + [status] && id in IdSet(other.operations)
    {
      if id in b && id !in a {
        var other :| other in statuses && id in IdSet(other.operations);
        assert other in statuses + [status];
      }
    }
  }

  predicate HeardOf(heard: seq<Operation>, id: string) {
    exists k :: 0 <= k < |heard| && heard[k].id == id
  }

  predicate EndHeard(heard: seq<Operation>, id: string) {
    exists k :: 0 <= k < |heard| && heard[k].id == id && IsTerminal(heard[k].status)
  }

  /** What was dispatched and not heard to have ended still runs. */
  ghost predicate Tracked(known: map<string, Operation>, acts: seq<Trace.Act>, heard: seq<Operation>) {
    forall id :: Trace.Dispatched(id) in acts && !EndHeard(heard, id) ==> id in known && !IsTerminal(known[id].status)
  }

  /** What runs, and was never heard of, has been dispatched. */
  ghost predicate Attended(known: map<string, Operation>, acts: seq<Trace.Act>, heard: seq<Operation>) {
    forall id :: id in known && !IsTerminal(known[id].status) && !HeardOf(heard, id) ==> Trace.Dispatched(id) in acts
  }

  lemma HeardMore(heard: seq<Operation>, update: Operation, id: string)
    ensures HeardOf(heard + [update], id) <==> HeardOf(heard, id) || update.id == id
    ensures EndHeard(heard + [update], id) <==> EndHeard(heard, id) || (update.id == id && IsTerminal(update.status))
  {
    var more := heard + [update];
    assert more[|heard|] == update;
    assert forall k :: 0 <= k < |heard| ==> more[k] == heard[k];
  }

  lemma UpdateFollowed(known: map<string, Operation>, acts: seq<Trace.Act>, heard: seq<Operation>, update: Operation)
    requires Tracked(known, acts, heard)
    ensures Tracked(known[update.id := update], acts, heard + [update])
    ensures Attended(known, acts, heard) ==> Attended(known[update.id := update], acts, heard + [update])
  {
    hide HeardOf;
    hide EndHeard;
    forall id
      ensures HeardOf(heard + [update], id) <==> HeardOf(heard, id) || update.id == id
      ensures EndHeard(heard + [update], id) <==> EndHeard(heard, id) || (update.id == id && IsTerminal(update.status))
    {
      HeardMore(heard, update, id);
    }
  }

  /** One act more: a dispatch is of an operation that runs. */
  lemma ActFollowed(known: map<string, Operation>, acts: seq<Trace.Act>, heard: seq<Operation>, act: Trace.Act)
    requires Tracked(known, acts, heard)
    requires act.Dispatched? ==> act.id in known && !IsTerminal(known[act.id].status)
    ensures Tracked(known, acts + [act], heard)
    ensures Attended(known, acts, heard) ==> Attended(known, acts + [act], heard)
  {
  }

  /** Operations that are new have not been dispatched yet. */
  lemma MoreTracked(known: map<string, Operation>, more: map<string, Operation>, acts: seq<Trace.Act>,
      heard: seq<Operation>)
    requires Tracked(known, acts, heard) && forall id :: id in known ==> id in more && more[id] == known[id]
    ensures Tracked(more, acts, heard)
  {
  }

  lemma {:induction false} DispatchIn(operations: seq<Operation>, op: Operation)
    requires op in operations && !IsTerminal(op.status)
    ensures Trace.Dispatched(op.id) in DispatchActs(operations)
  {
    if op != Last(operations) {
      DispatchIn(Front(operations), op);
    }
  }

  lemma {:induction false} StatusIn(statuses: seq<ToolCallStatus>, status: ToolCallStatus, op: Operation)
    requires status in statuses && op in status.operations && !IsTerminal(op.status)
    ensures Trace.Dispatched(op.id) in StatusActs(statuses)
  {
    if status == Last(statuses) {
      DispatchIn(status.operations, op);
    } else {
      StatusIn(Front(statuses), status, op);
    }
  }

  /** The operations of a planned call are all dispatched, in the order its status waits for them. */
  lemma {:induction false} ReadyDispatched(operations: seq<Operation>)
    requires AllReady(operations)
    ensures |DispatchActs(operations)| == |operations|
    ensures forall k :: 0 <= k < |operations| ==> DispatchActs(operations)[k] == Trace.Dispatched(operations[k].id)
  {
    if operations != [] {
      ReadyDispatched(Front(operations));
      assert Last(operations) in operations;
    }
  }

  /** Dispatched are the operations of the statuses that still run, and nothing else. */
  lemma {:induction false} DispatchesExactly(statuses: seq<ToolCallStatus>, act: Trace.Act)
    requires act in StatusActs(statuses)
    ensures act.Dispatched?
    ensures exists status, op :: status in statuses && op in status.operations && !IsTerminal(op.status)
                                 && op.id == act.id
  {
    if act in StatusActs(Front(statuses)) {
      DispatchesExactly(Front(statuses), act);
    } else {
      var op := DispatchedOf(Last(statuses).operations, act);
      assert Last(statuses) in statuses && op in Last(statuses).operations;
    }
  }

  lemma {:induction false} DispatchedOf(operations: seq<Operation>, act: Trace.Act) returns (op: Operation)
    requires act in DispatchActs(operations)
    ensures act == Trace.Dispatched(op.id) && op in operations && !IsTerminal(op.status)
  {
    if act in DispatchActs(Front(operations)) {
      op := DispatchedOf(Front(operations), act);
    } else {
      op := Last(operations);
    }
  }

  /** When the operations of all new statuses are dispatched, everything that runs is again. */
  lemma NewAttended(before: map<string, Operation>, after: map<string, Operation>, statuses: seq<ToolCallStatus>,
      acts: seq<Trace.Act>, more: seq<Trace.Act>, heard: seq<Operation>)
    requires Attended(before, acts, heard) && OpsMore(before, after, statuses) && OpsHold(after, statuses)
    requires acts <= more && forall act :: act in StatusActs(statuses) ==> act in more
    ensures Attended(after, more, heard)
  {
    hide HeardOf;
    hide StatusActs;
    forall id | id in after && !IsTerminal(after[id].status) && !HeardOf(heard, id)
      ensures Trace.Dispatched(id) in more
    {
      if id !in before {
        var status :| status in statuses && id in IdSet(status.operations);
        var op :| op in status.operations && op.id == id;
        assert after[op.id] == op;
        StatusIn(statuses, status, op);
      }
    }
  }
}
