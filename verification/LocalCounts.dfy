/** Conservation over a history: inputs available and delivered, and calls settled once. */
module LocalCounts {
  import opened Operations
  import opened Options
  import opened SessionTypes
  import opened SessionState
  import opened SessionHistory
  import opened ContextBuilder
  import opened LocalState
  import opened LocalHistory

  /** The inputs that ask for an answer: external ones and heartbeats. */
  function Arrivals(items: seq<Item>): nat {
    if items == [] then 0
    else
      Arrivals(Front(items)) +
      if Last(items).data.InputItem? && (Last(items).data.input.kind.External? ||
           (Last(items).data.input.kind.Control? && Last(items).data.input.kind.message.Some?
            && Last(items).data.input.kind.message.value.mode.Heartbeat?)) then 1 else 0
  }

  /** Whether an item settles the call it is about: the call was open, and is not any more. */
  predicate Settles(tools: Tools, local: Local, data: ItemData) {
    && data.StatusItem? && Key(data.status) in local.core.calls
    && AddItem(tools, local, data).Ok? && Key(data.status) !in AddItem(tools, local, data).value.core.calls
  }

  /** The calls settled over a history, in order. */
  function Settled(tools: Tools, start: Context, items: seq<Item>): seq<CallKey> {
    if items == [] then []
    else
      Settled(tools, start, Front(items)) +
      if Settles(tools, Replayed(tools, start, Front(items)), Last(items).data) then [Key(Last(items).data.status)]
          else []
  }

  predicate InOrder(core: Core) {
    core.delivered <= core.turnInputs <= core.available
  }

  /** A status makes one more input available exactly when it settles its call, whose final result
      then is the last staged item; otherwise the call stays open with a placeholder, or untouched. */
  lemma StatusCounts(tools: Tools, local: Local, status: ToolCallStatus)
    requires AddItem(tools, local, StatusItem(status)).Ok?
    ensures var after := AddItem(tools, local, StatusItem(status)).value.core;
            && after.available == local.core.available + (if Settles(tools, local, StatusItem(status)) then 1 else 0)
            && after.delivered == local.core.delivered && after.turnInputs == local.core.turnInputs
            && after.context.committed == local.core.context.committed
            && after.turnID == local.core.turnID && after.turnKind == local.core.turnKind
            && (Settles(tools, local, StatusItem(status)) ==>
                  && after.context.staged != []
                  && Last(after.context.staged).ResultItem? && Last(after.context.staged).callID == status.callID
                  && after.calls == local.core.calls - {Key(status)})
            && (!Settles(tools, local, StatusItem(status)) ==>
                  && after.calls == RecordStatus(local.core, status).calls
                  && (after.context == local.core.context
                     || Last(after.context.staged) == ResultItem(status.callID, RUNNING_OUTPUT)))
  {
    hide AddOperations;
    hide Awaited;
    hide WithoutPlaceholder;
    hide AllTerminal;
  }

  lemma OtherCounts(tools: Tools, local: Local, data: ItemData)
    requires AddItem(tools, local, data).Ok? && !data.StatusItem?
    requires InOrder(local.core)
    ensures var after := AddItem(tools, local, data).value.core;
            && after.available == local.core.available + Arrivals([Item(0, 0, data)])
            && InOrder(after)
  {
    hide AddCalls;
    assert Front([Item(0, 0, data)]) == [];
  }

  lemma ArrivalsMore(items: seq<Item>, item: Item)
    requires items != [] && Last(items) == item
    ensures Arrivals(items) == Arrivals(Front(items)) + Arrivals([Item(0, 0, item.data)])
  {
    assert Front([Item(0, 0, item.data)]) == [];
  }

  /** Available inputs are the inputs that arrived and the calls that settled; what was delivered
      never exceeds what the current turn was asked with, nor that what is available. */
  lemma {:induction false} InputsConserved(tools: Tools, start: Context, items: seq<Item>)
    requires Fold(tools, NewLocal(start), items).Ok?
    ensures var core := Replayed(tools, start, items).core;
            && core.available == Arrivals(items) + |Settled(tools, start, items)|
            && InOrder(core)
  {
    if items != [] {
      var before, data := Replayed(tools, start, Front(items)), Last(items).data;
      InputsConserved(tools, start, Front(items));
      ArrivalsMore(items, Last(items));
      hide Arrivals;
      if data.StatusItem? {
        StatusCounts(tools, before, data.status);
        assert Arrivals([Item(0, 0, data)]) == 0 by { NoArrival(data); }
      } else {
        OtherCounts(tools, before, data);
      }
      hide AddItem;
    }
  }

  lemma NoArrival(data: ItemData)
    requires data.StatusItem?
    ensures Arrivals([Item(0, 0, data)]) == 0
  {
    assert Front([Item(0, 0, data)]) == [];
  }

  ghost predicate DistinctKeys(keys: seq<CallKey>) {
    forall i, j :: 0 <= i < j < |keys| ==> keys[i] != keys[j]
  }

  /** Calls, open or settled, are of turns that were answered; a settled one is not open again. */
  ghost predicate SettledApart(items: seq<Item>, calls: map<CallKey, Call>, settled: seq<CallKey>) {
    && (forall key :: key in calls ==> key.0 in Answered(items))
    && (forall key :: key in settled ==> key.0 in Answered(items) && key !in calls)
    && DistinctKeys(settled)
  }

  lemma ApartStatus(items: seq<Item>, more: seq<Item>, calls: map<CallKey, Call>, settled: seq<CallKey>, key: CallKey,
      after: map<CallKey, Call>, settles: bool)
    requires SettledApart(items, calls, settled) && Answered(more) == Answered(items)
    requires settles ==> key in calls && after.Keys == calls.Keys - {key}
    requires !settles ==> after.Keys <= calls.Keys
    ensures SettledApart(more, after, settled + if settles then [key] else [])
  {
    hide Answered;
    forall other | other in after
      ensures other.0 in Answered(more)
    {
      assert other in after.Keys;
      assert other in calls;
    }
    assert forall other :: other in settled && settles ==> other in calls.Keys ==> false;
  }

  lemma ApartResponse(tools: Tools, items: seq<Item>, local: Local, response: Response, settled: seq<CallKey>)
    requires items != [] && Lawful(items) && Last(items).data == ResponseItem(response)
    requires SettledApart(Front(items), local.core.calls, settled)
    ensures SettledApart(items, AddCalls(local.core.calls, response.turnID, response.output), settled)
    ensures SettledApart(items, local.core.calls, settled)
  {
    AnsweredOnce(items);
    hide Lawful;
    var more := AddCalls(local.core.calls, response.turnID, response.output);
    forall key | key in more
      ensures key.0 in Answered(items) && (key in settled ==> false)
    {
      AddCallsAt(local.core.calls, response.turnID, response.output, key);
    }
  }

  /** No call is settled twice, over any lawful history. */
  lemma {:induction false} SettledOnce(tools: Tools, start: Context, items: seq<Item>)
    requires Lawful(items) && Fold(tools, NewLocal(start), items).Ok?
    ensures SettledApart(items, Replayed(tools, start, items).core.calls, Settled(tools, start, items))
  {
    hide SettledApart;
    if items == [] {
      ApartNothing();
    } else {
      var front, data := Front(items), Last(items).data;
      SettledOnce(tools, start, front);
      var before := Replayed(tools, start, front);
      var settled := Settled(tools, start, front);
      hide Lawful;
      match data {
        case StatusItem(status) =>
          StatusCounts(tools, before, status);
          var after := AddItem(tools, before, data).value.core.calls;
          hide AddItem;
          ApartStatus(front, items, before.core.calls, settled, Key(status), after, Settles(tools, before, data));
        case ResponseItem(response) =>
          ApartResponse(tools, items, before, response, settled);
          hide AddCalls;
          assert settled + [] == settled;
        case _ =>
          ApartOther(tools, front, items, before, settled);
          assert settled + [] == settled;
      }
    }
  }

  lemma ApartNothing()
    ensures SettledApart([], map[], [])
  {
  }

  lemma ApartOther(tools: Tools, front: seq<Item>, items: seq<Item>, local: Local, settled: seq<CallKey>)
    requires items != [] && front == Front(items) && SettledApart(front, local.core.calls, settled)
    requires !Last(items).data.StatusItem? && !Last(items).data.ResponseItem?
    requires AddItem(tools, local, Last(items).data).Ok?
    ensures SettledApart(items, AddItem(tools, local, Last(items).data).value.core.calls, settled)
  {
  }

  /** The items since a turn contain no later turn and no fork. */
  predicate Within(items: seq<Item>, i: nat) {
    forall k :: i < k < |items| ==> !items[k].data.TurnItem? && !items[k].data.ForkItem?
  }

  lemma StepInputs(tools: Tools, local: Local, data: ItemData)
    requires AddItem(tools, local, data).Ok? && !data.TurnItem?
    ensures var after := AddItem(tools, local, data).value.core;
            && after.turnInputs == local.core.turnInputs && after.turnID == local.core.turnID
               && after.turnKind == local.core.turnKind
            && after.delivered ==
               if data.ResponseItem? && data.response.turnID == local.core.turnID && !local.core.turnKind.Compaction?
               then local.core.turnInputs else local.core.delivered
  {
    hide AddCalls;
    hide AddOperations;
    hide Awaited;
    hide AddResult;
  }

  /** While a turn is the current one, its inputs are those that were available when it started. */
  lemma {:induction false} TurnInputs(tools: Tools, start: Context, items: seq<Item>, i: nat)
    requires Fold(tools, NewLocal(start), items).Ok? && i < |items| && items[i].data.TurnItem? && Within(items, i)
    ensures var core, before := Replayed(tools, start, items).core, Replayed(tools, start, items[..i]).core;
            core.turnInputs == before.available && core.turnID == items[i].data.turn.id
              && core.turnKind == items[i].data.turn.kind
  {
    hide AddItem;
    var front, data := Front(items), Last(items).data;
    if i == |items| - 1 {
      assert items[..i] == front;
      TurnStarts(tools, Replayed(tools, start, front), data);
    } else {
      assert front[..i] == items[..i] && front[i] == items[i];
      assert forall k :: i < k < |front| ==> front[k] == items[k];
      assert items[|items| - 1] == Last(items);
      TurnInputs(tools, start, front, i);
      StepInputs(tools, Replayed(tools, start, front), data);
    }
  }

  lemma TurnStarts(tools: Tools, local: Local, data: ItemData)
    requires data.TurnItem?
    ensures var after := AddItem(tools, local, data);
            && after.Ok? && after.value.core.turnInputs == local.core.available
            && after.value.core.turnID == data.turn.id && after.value.core.turnKind == data.turn.kind
  {
  }

  /** The answer to the current turn delivers exactly the inputs available when the turn started:
      what arrived or settled in between stays pending. */
  lemma AnswerDelivers(tools: Tools, start: Context, items: seq<Item>, i: nat)
    requires Fold(tools, NewLocal(start), items).Ok? && i < |items| && items[i].data.TurnItem? && Within(items, i)
    requires i < |items| - 1 && Last(items).data.ResponseItem?
    requires Last(items).data.response.turnID == items[i].data.turn.id && !items[i].data.turn.kind.Compaction?
    ensures Replayed(tools, start, items).core.delivered == Replayed(tools, start, items[..i]).core.available
  {
    hide AddItem;
    var front := Front(items);
    assert front[..i] == items[..i] && front[i] == items[i];
    assert forall k :: i < k < |front| ==> front[k] == items[k];
    TurnInputs(tools, start, front, i);
    StepInputs(tools, Replayed(tools, start, front), Last(items).data);
  }
}
