/** What the model is shown: nothing that reached a session is missing from the requests that follow it. */
module Requests {
  import opened ContextBuilder
  import opened CoordinatorSteps
  import opened LocalCounts
  import opened LocalHistory
  import opened LocalState
  import opened Operations
  import opened Options
  import opened SessionHistory
  import opened SessionState
  import opened SessionTypes
  import Trace

  /** What a call shows while it runs; the one thing that is taken out of a context again. */
  predicate IsRunning(item: ModelItem) {
    item.ResultItem? && item.output == [TextOutput(RUNNING_PAYLOAD)]
  }

  /** All that is shown, how often it is, but for running calls. */
  function Content(items: seq<ModelItem>): multiset<ModelItem> {
    if items == [] then multiset{}
    else Content(Front(items)) + if IsRunning(Last(items)) then multiset{} else multiset{Last(items)}
  }

  lemma {:induction false} ContentSplit(a: seq<ModelItem>, b: seq<ModelItem>)
    ensures Content(a + b) == Content(a) + Content(b)
  {
    if b == [] {
      assert a + b == a;
    } else {
      assert Front(a + b) == a + Front(b) && Last(a + b) == Last(b);
      ContentSplit(a, Front(b));
    }
  }

  lemma {:induction false} ContentIn(items: seq<ModelItem>, item: ModelItem)
    ensures item in Content(items) <==> item in items && !IsRunning(item)
  {
    if items != [] {
      ContentIn(Front(items), item);
      assert items == Front(items) + [Last(items)];
    }
  }

  lemma ContentOne(item: ModelItem)
    ensures Content([item]) == if IsRunning(item) then multiset{} else multiset{item}
  {
    assert Front([item]) == [];
  }

  /** Placeholders are all that is ever taken out. */
  lemma {:induction false} ContentWithout(items: seq<ModelItem>, callID: string)
    ensures Content(WithoutPlaceholder(items, callID)) == Content(items)
  {
    if items != [] {
      var front, last := items[..|items| - 1], items[|items| - 1];
      ContentWithout(front, callID);
      assert Front(items) == front && Last(items) == last;
      ContentSplit(WithoutPlaceholder(front, callID), if IsPlaceholder(last, callID) then [] else [last]);
      ContentOne(last);
    }
  }

  lemma ResultContent(c: Context, callID: string, output: seq<ToolOutput>, running: bool)
    ensures Content(AddResult(c, callID, output, running).Built()) ==
            Content(c.Built()) + if running then multiset{} else Content([ResultItem(callID, output)])
  {
    var kept := WithoutPlaceholder(c.staged, callID);
    var shown := ResultItem(callID, if running then RUNNING_OUTPUT else output);
    ContentWithout(c.staged, callID);
    ContentSplit(c.committed, c.staged);
    ContentSplit(c.committed, kept + [shown]);
    ContentSplit(kept, [shown]);
    ContentOne(shown);
  }

  lemma StagedContent(c: Context, item: ModelItem)
    ensures Content(c.committed + (c.staged + [item])) == Content(c.Built()) + Content([item])
  {
    ContentSplit(c.committed, c.staged + [item]);
    ContentSplit(c.staged, [item]);
    ContentSplit(c.committed, c.staged);
  }

  lemma OutputContent(c: Context, output: seq<ModelItem>)
    ensures Content(c.committed + output + c.staged) == Content(c.Built()) + Content(output)
  {
    ContentSplit(c.committed + output, c.staged);
    ContentSplit(c.committed, output);
    ContentSplit(c.committed, c.staged);
  }

  /** An input shows its text, or what a heartbeat says, and nothing else. */
  lemma InputContent(tools: Tools, local: Local, input: Input)
    requires AddItem(tools, local, InputItem(input)).Ok?
    ensures input.kind.External? ==> tools.text(input.payload).Some?
    ensures input.kind.Control? ==> input.kind.message.Some?
    ensures var after := AddItem(tools, local, InputItem(input)).value;
            Content(after.core.context.Built()) == Content(local.core.context.Built()) +
            match input.kind
            case External => multiset{Message("user", tools.text(input.payload).value)}
            case Control(Some(message)) =>
              if message.mode.Heartbeat? then multiset{Message("user", message.reason)} else multiset{}
            case _ => multiset{}
  {
    hide Content;
    var c := local.core.context;
    if input.kind.External? {
      var shown := Message("user", tools.text(input.payload).value);
      StagedContent(c, shown);
      ContentOne(shown);
    } else if input.kind.Control? {
      var shown := Message("user", input.kind.message.value.reason);
      StagedContent(c, shown);
      ContentOne(shown);
    }
  }

  /** When a status settles its call: without the tool, when it needs none; with it, when all that the call waits for
      has ended. */
  lemma SettlesIff(tools: Tools, local: Local, status: ToolCallStatus)
    requires AddItem(tools, local, StatusItem(status)).Ok?
    ensures Settles(tools, local, StatusItem(status)) <==>
            && Key(status) in local.core.calls
            && var call := local.core.calls[Key(status)];
            match tools.resolve(call.call.name)
            case None => status.status.error != "" && status.status.waitingFor == [] && status.operations == []
            case Some(_) =>
              forall id :: id in call.operations || id in status.status.waitingFor ==>
                var operations := AddItem(tools, local, StatusItem(status)).value.operations;
                id in operations && IsTerminal(operations[id].status)
  {
    hide AddOperations;
    hide AddResult;
    var operations := AddOperations(local.operations, status.operations);
    if Key(status) in local.core.calls {
      var call := RecordStatus(local.core, status).calls[Key(status)];
      forall id | id in status.status.waitingFor
        ensures id in call.operations
      {
        assert id in SetOf(status.status.waitingFor);
      }
      AwaitedAll(status.status.waitingFor, call, operations);
      hide Awaited;
      assert forall id :: id in local.core.calls[Key(status)].operations || id in status.status.waitingFor <==>
          id in call.operations;
    }
  }

  lemma {:induction false} AwaitedAll(ids: seq<string>, call: Call, operations: map<string, Operation>)
    ensures Awaited(ids, call, operations).Some? <==>
            forall id :: id in ids ==> id in call.operations && id in operations
    ensures Awaited(ids, call, operations).Some? ==>
              (forall id :: id in ids ==> id in operations)
              && Awaited(ids, call, operations).value == Latest(ids, operations)
  {
    if ids != [] {
      AwaitedAll(Front(ids), call, operations);
      assert ids == Front(ids) + [Last(ids)];
    }
  }

  /** The last item that settling a call stages: what its tool makes of the operations in their latest states, in the
      order they are waited for; or its error, if it has no tool. */
  ghost predicate ShowsResult(tools: Tools, local: Local, status: ToolCallStatus, shown: ModelItem)
    requires AddItem(tools, local, StatusItem(status)).Ok? && Key(status) in local.core.calls
  {
    var operations := AddItem(tools, local, StatusItem(status)).value.operations;
    match tools.resolve(local.core.calls[Key(status)].call.name)
    case None => shown == ResultItem(status.callID, [TextOutput(status.status.error)])
    case Some(translator) =>
      && (forall id :: id in status.status.waitingFor ==> id in operations)
      && shown.ResultItem? && shown.callID == status.callID
      && translator.result(status.callID, status.status, Latest(status.status.waitingFor, operations)) ==
         Some(shown.output)
  }

  lemma ResultShown(tools: Tools, local: Local, status: ToolCallStatus)
    requires AddItem(tools, local, StatusItem(status)).Ok? && Settles(tools, local, StatusItem(status))
    ensures var staged := AddItem(tools, local, StatusItem(status)).value.core.context.staged;
            staged != [] && ShowsResult(tools, local, status, Last(staged))
  {
    hide AddOperations;
    hide WithoutPlaceholder;
    hide AllTerminal;
    var operations := AddOperations(local.operations, status.operations);
    AwaitedAll(status.status.waitingFor, RecordStatus(local.core, status).calls[Key(status)], operations);
    hide Awaited;
  }

  /** A status shows the result of the call it settles, and nothing else. */
  lemma StatusContent(tools: Tools, local: Local, status: ToolCallStatus)
    requires AddItem(tools, local, StatusItem(status)).Ok?
    ensures var after := AddItem(tools, local, StatusItem(status)).value.core.context;
            && (Settles(tools, local, StatusItem(status)) ==> after.staged != [])
            && Content(after.Built()) == Content(local.core.context.Built()) +
               if Settles(tools, local, StatusItem(status)) then Content([Last(after.staged)]) else multiset{}
  {
    hide AddOperations;
    hide AddResult;
    hide AllTerminal;
    hide Content;
    hide Awaited;
    var c := local.core.context;
    forall output, running
      ensures Content(AddResult(c, status.callID, output, running).Built()) ==
              Content(c.Built()) + if running then multiset{} else Content([ResultItem(status.callID, output)])
      ensures var staged := AddResult(c, status.callID, output, running).staged;
              staged != [] && (!running ==> Last(staged) == ResultItem(status.callID, output))
    {
      ResultContent(c, status.callID, output, running);
      OnePlaceholder(c, status.callID, output, running, "");
    }
  }

  /** A turn shows nothing new, a response what it says. */
  lemma OtherContent(tools: Tools, local: Local, data: ItemData)
    requires !data.InputItem? && !data.StatusItem?
    ensures AddItem(tools, local, data).Ok?
    ensures var before, after := local.core, AddItem(tools, local, data).value.core;
            Content(after.context.Built()) == Content(before.context.Built()) +
            if data.ResponseItem? && !(before.turnKind.Compaction? && data.response.turnID == before.turnID)
            then Content(data.response.output) else multiset{}
  {
    if data.ResponseItem? {
      OutputContent(local.core.context, data.response.output);
    }
    hide Content;
    hide AddCalls;
    assert local.core.context.committed + local.core.context.staged + [] == local.core.context.Built();
  }

  /** Settings take effect when they come, and stay until the next. */
  lemma EffortFollows(tools: Tools, local: Local, data: ItemData)
    requires AddItem(tools, local, data).Ok?
    ensures AddItem(tools, local, data).value.core.context.effort ==
            if data.InputItem? && data.input.kind.Control? && data.input.kind.message.Some?
               && data.input.kind.message.value.mode.UpdateSettings?
            then data.input.kind.message.value.mode.effort else local.core.context.effort
  {
    hide AddCalls;
    hide AddOperations;
    hide Awaited;
    hide AllTerminal;
    hide WithoutPlaceholder;
  }

  /** What a history cannot be restored over: an input the session would not have taken or that has no text, a status
      of an open call whose tool is gone, and one its tool makes nothing of. */
  lemma RestoreRefusedIff(tools: Tools, local: Local, data: ItemData)
    ensures RestoreItem(tools, local, data).Refused? <==>
            || (data.InputItem?
                && (!ValidInput(data.input) || (data.input.kind.External? && tools.text(data.input.payload).None?)))
            || (data.StatusItem? && Key(data.status) in local.core.calls
                && var call, ids := local.core.calls[Key(data.status)], data.status.status.waitingFor;
                var operations := AddOperations(local.operations, data.status.operations);
                match tools.resolve(call.call.name)
                case None => data.status.status.error == "" || ids != [] || data.status.operations != []
                case Some(translator) =>
                  && (forall id :: id in ids ==> id in operations)
                  && translator.result(data.status.callID, data.status.status, Latest(ids, operations)).None?)
  {
    hide AddOperations;
    hide AddResult;
    hide AddCalls;
    hide AllTerminal;
    hide Latest;
    if data.StatusItem? && Key(data.status) in local.core.calls {
      var ids := data.status.status.waitingFor;
      var operations := AddOperations(local.operations, data.status.operations);
      var call := RecordStatus(local.core, data.status).calls[Key(data.status)];
      forall id | id in ids
        ensures id in call.operations
      {
        assert id in SetOf(ids);
      }
      AwaitedAll(ids, call, operations);
      hide Awaited;
    }
  }

  lemma AddItemContent(tools: Tools, local: Local, data: ItemData)
    requires AddItem(tools, local, data).Ok?
    ensures Content(local.core.context.Built()) <= Content(AddItem(tools, local, data).value.core.context.Built())
  {
    hide AddItem;
    hide Content;
    if data.InputItem? {
      InputContent(tools, local, data.input);
    } else if data.StatusItem? {
      StatusContent(tools, local, data.status);
    } else {
      OtherContent(tools, local, data);
    }
  }

  // Over a history.

  lemma FoldStep(tools: Tools, start: Context, items: seq<Item>, i: nat)
    requires Fold(tools, NewLocal(start), items).Ok? && i < |items|
    ensures Fold(tools, NewLocal(start), items[..i]).Ok? && Fold(tools, NewLocal(start), items[..i + 1]).Ok?
    ensures AddItem(tools, Replayed(tools, start, items[..i]), items[i].data) ==
            Ok(Replayed(tools, start, items[..i + 1]))
  {
    hide AddItem;
    hide Fold;
    if Fold(tools, NewLocal(start), items[..i]).Refused? {
      FoldRefused(tools, NewLocal(start), items, i);
    }
    if Fold(tools, NewLocal(start), items[..i + 1]).Refused? {
      FoldRefused(tools, NewLocal(start), items, i + 1);
    }
    PrefixStep(items, i);
    FoldMore(tools, start, items[..i], items[i]);
  }

  /** What would be shown at one point of a history would be shown at any later one. */
  lemma {:induction false} ContentKept(tools: Tools, start: Context, items: seq<Item>, i: nat, j: nat)
    requires Fold(tools, NewLocal(start), items).Ok? && i <= j <= |items|
    ensures Content(Replayed(tools, start, items[..i]).core.context.Built()) <=
            Content(Replayed(tools, start, items[..j]).core.context.Built())
    decreases j
  {
    hide Replayed;
    hide Fold;
    hide AddItem;
    hide Content;
    if i < j {
      ContentKept(tools, start, items, i, j - 1);
      FoldStep(tools, start, items, j - 1);
      AddItemContent(tools, Replayed(tools, start, items[..j - 1]), items[j - 1].data);
    }
  }

  /** A request of this turn was stored at this position of a history. It shows what the history before it says, and
      something is among it that no earlier answer was given to. */
  ghost predicate AskedAt(tools: Tools, start: Context, items: seq<Item>, p: int, turnID: string,
      request: seq<ModelItem>) {
    && 0 <= p < |items| && items[p].data.TurnItem? && items[p].data.turn.id == turnID
    && var core := Replayed(tools, start, items[..p]).core;
    && request == core.context.Built() && core.delivered < core.available
  }

  /** The requests of some acts were stored in their order, from `origin` on. */
  ghost predicate RequestsStored(tools: Tools, start: Context, acts: seq<Trace.Act>, items: seq<Item>, origin: nat) {
    acts == [] ||
    if Last(acts).Asked? then
      exists p :: && origin <= p && AskedAt(tools, start, items, p, Last(acts).turnID, Last(acts).request)
                  && RequestsStored(tools, start, Front(acts), items[..p], origin)
    else RequestsStored(tools, start, Front(acts), items, origin)
  }

  lemma {:induction false} RequestsKept(tools: Tools, start: Context, acts: seq<Trace.Act>, items: seq<Item>,
      more: seq<Item>, origin: nat)
    requires RequestsStored(tools, start, acts, items, origin) && items <= more
    ensures RequestsStored(tools, start, acts, more, origin)
  {
    hide Replayed;
    if acts != [] {
      if Last(acts).Asked? {
        var p :| && origin <= p && AskedAt(tools, start, items, p, Last(acts).turnID, Last(acts).request)
                 && RequestsStored(tools, start, Front(acts), items[..p], origin);
        assert more[..p] == items[..p];
        assert AskedAt(tools, start, more, p, Last(acts).turnID, Last(acts).request);
      } else {
        RequestsKept(tools, start, Front(acts), items, more, origin);
      }
    }
  }

  /** A request is stored, as its turn, behind all that it shows. */
  lemma RequestMore(tools: Tools, start: Context, acts: seq<Trace.Act>, st: Stored, item: Item, act: Trace.Act,
      origin: nat)
    requires RequestsStored(tools, start, acts, st.items, origin) && origin <= |st.items|
    requires act.Asked? && item.data.TurnItem? && item.data.turn.id == act.turnID
    requires var core := Live(tools, start, st).core;
             act.request == core.context.Built() && core.delivered < core.available
    ensures var items := st.items + [item];
            && RequestsStored(tools, start, acts + [act], items, origin)
            && AskedAt(tools, start, items, |items| - 1, act.turnID, act.request)
  {
    hide Replayed;
    assert Front(acts + [act]) == acts && Last(acts + [act]) == act;
    assert (st.items + [item])[..|st.items|] == st.items;
    assert AskedAt(tools, start, st.items + [item], |st.items|, act.turnID, act.request);
  }

  lemma NoRequestMore(tools: Tools, start: Context, acts: seq<Trace.Act>, items: seq<Item>, act: Trace.Act, origin: nat)
    requires !act.Asked?
    ensures RequestsStored(tools, start, acts + [act], items, origin) <==>
            RequestsStored(tools, start, acts, items, origin)
  {
    assert Front(acts + [act]) == acts && Last(acts + [act]) == act;
  }

  /** The requests of another run come behind those of the runs before it. */
  lemma {:induction false} RequestsJoin(tools: Tools, start: Context, before: seq<Trace.Act>, acts: seq<Trace.Act>,
      base: seq<Item>, items: seq<Item>)
    requires RequestsStored(tools, start, before, base, 0) && RequestsStored(tools, start, acts, items, |base|)
    requires base <= items
    ensures RequestsStored(tools, start, before + acts, items, 0)
    decreases |acts|
  {
    if acts == [] {
      assert before + acts == before;
      RequestsKept(tools, start, before, base, items, 0);
    } else {
      var act := Last(acts);
      assert Front(before + acts) == before + Front(acts) && Last(before + acts) == act;
      if act.Asked? {
        var p :| && |base| <= p && AskedAt(tools, start, items, p, act.turnID, act.request)
                 && RequestsStored(tools, start, Front(acts), items[..p], |base|);
        RequestsJoin(tools, start, before, Front(acts), base, items[..p]);
      } else {
        RequestsJoin(tools, start, before, Front(acts), base, items);
      }
    }
  }

  /** Every request is found in the history. */
  lemma {:induction false} RequestAt(tools: Tools, start: Context, acts: seq<Trace.Act>, items: seq<Item>, origin: nat,
      k: nat) returns (p: nat)
    requires RequestsStored(tools, start, acts, items, origin) && k < |acts| && acts[k].Asked?
    ensures origin <= p && AskedAt(tools, start, items, p, acts[k].turnID, acts[k].request)
    decreases |acts|
  {
    hide Replayed;
    var q := |items|;
    if Last(acts).Asked? {
      q :| && origin <= q && AskedAt(tools, start, items, q, Last(acts).turnID, Last(acts).request)
           && RequestsStored(tools, start, Front(acts), items[..q], origin);
    }
    assert items[..|items|] == items;
    if k == |acts| - 1 {
      p := q;
    } else {
      p := RequestAt(tools, start, Front(acts), items[..q], origin, k);
      assert items[..q][..p] == items[..p];
    }
  }

  /** A request shows the text of every external input stored before its turn, what every heartbeat said, and the
      result of every call that was settled. */
  lemma RequestShows(tools: Tools, start: Context, items: seq<Item>, p: nat, turnID: string, request: seq<ModelItem>,
      i: nat) returns (result: ModelItem)
    requires Fold(tools, NewLocal(start), items).Ok? && i < p && AskedAt(tools, start, items, p, turnID, request)
    ensures items[i].data.InputItem? && items[i].data.input.kind.External? ==>
              && tools.text(items[i].data.input.payload).Some?
              && Message("user", tools.text(items[i].data.input.payload).value) in request
    ensures items[i].data.InputItem? && items[i].data.input.kind.Control? ==>
              var message := items[i].data.input.kind.message;
              message.Some? && (message.value.mode.Heartbeat? ==> Message("user", message.value.reason) in request)
    ensures var before := Replayed(tools, start, items[..i]);
            Settles(tools, before, items[i].data) ==>
              && ShowsResult(tools, before, items[i].data.status, result)
              && (result.output != [TextOutput(RUNNING_PAYLOAD)] ==> result in request)
  {
    hide AddItem;
    hide Fold;
    hide Replayed;
    hide Content;
    hide Settles;
    hide ShowsResult;
    var before, after := Replayed(tools, start, items[..i]), Replayed(tools, start, items[..i + 1]);
    FoldStep(tools, start, items, i);
    ContentKept(tools, start, items, i + 1, p);
    forall item
      ensures item in Content(after.core.context.Built()) ==> item in request
    {
      ContentIn(request, item);
    }
    result := Message("", "");
    if items[i].data.InputItem? {
      InputContent(tools, before, items[i].data.input);
    }
    if Settles(tools, before, items[i].data) {
      result := SettledContent(tools, before, items[i].data);
    }
  }

  /** The result of a settled call is shown. */
  lemma SettledContent(tools: Tools, local: Local, data: ItemData) returns (result: ModelItem)
    requires AddItem(tools, local, data).Ok? && Settles(tools, local, data)
    ensures ShowsResult(tools, local, data.status, result) && result.ResultItem?
    ensures result.output != [TextOutput(RUNNING_PAYLOAD)] ==>
              result in Content(AddItem(tools, local, data).value.core.context.Built())
  {
    hide AddItem;
    hide Content;
    ResultShown(tools, local, data.status);
    StatusContent(tools, local, data.status);
    result := Last(AddItem(tools, local, data).value.core.context.staged);
    ContentOne(result);
  }

  /** Every context begins with what a new builder holds: the system prompt comes first. */
  lemma {:induction false} SystemFirst(tools: Tools, system: string, items: seq<Item>)
    requires Fold(tools, NewLocal(NewContext(system)), items).Ok?
    ensures var built := Replayed(tools, NewContext(system), items).core.context.Built();
            built != [] && built[0] == Message("system", system)
    ensures [Message("system", system)] <= Replayed(tools, NewContext(system), items).core.context.committed
  {
    hide AddItem;
    if items != [] {
      SystemFirst(tools, system, Front(items));
      AddItemGrows(tools, Replayed(tools, NewContext(system), Front(items)), Last(items).data);
    }
  }
}
