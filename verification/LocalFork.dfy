/** A fork of a session the coordinator left behind can be restored, with nothing open. */
module LocalFork {
  import opened Operations
  import opened Options
  import opened SessionTypes
  import opened SessionState
  import opened SessionHistory
  import opened SessionResume
  import opened ContextBuilder
  import opened LocalState
  import opened LocalHistory

  /** Folding a stripped history keeps at least the calls of the original, exactly as they were. */
  ghost predicate Keeps(p: Local, q: Local) {
    && q.operations == map[]
    && p.core.turnID == q.core.turnID && p.core.turnKind == q.core.turnKind
    && forall key :: key in p.core.calls ==> key in q.core.calls && q.core.calls[key] == p.core.calls[key]
  }

  lemma {:induction false} AddCallsKeeps(a: map<CallKey, Call>, b: map<CallKey, Call>, turnID: string,
      output: seq<ModelItem>)
    requires forall key :: key in a ==> key in b && b[key] == a[key]
    ensures forall key :: key in AddCalls(a, turnID, output) ==>
              key in AddCalls(b, turnID, output) && AddCalls(b, turnID, output)[key] == AddCalls(a, turnID, output)[key]
  {
    if output != [] {
      AddCallsKeeps(a, b, turnID, Front(output));
    }
  }

  lemma NothingAwaited(ids: seq<string>, call: Call)
    requires ids != []
    ensures Awaited(ids, call, map[]).None?
  {
  }

  lemma StripStatus(tools: Tools, p: Local, q: Local, status: ToolCallStatus)
    requires Keeps(p, q) && Key(status) in p.core.calls && RestoreItem(tools, p, StatusItem(status)).Ok?
    ensures var after := RestoreItem(tools, q, StatusItem(status.(operations := [])));
            after.Ok? && Keeps(RestoreItem(tools, p, StatusItem(status)).value, after.value)
  {
    hide AddResult;
    hide AddOperations;
    var stripped := status.(operations := []);
    assert AddOperations(map[], []) == map[] by { NoOperations(map[]); }
    assert q.operations == map[];
    if status.status.waitingFor != [] {
      NothingAwaited(status.status.waitingFor, RecordStatus(q.core, stripped).calls[Key(status)]);
    }
  }

  lemma NoOperations(known: map<string, Operation>)
    ensures AddOperations(known, []) == known
  {
  }

  lemma StripStep(tools: Tools, p: Local, q: Local, item: Item)
    requires Keeps(p, q) && RestoreItem(tools, p, item.data).Ok?
    requires item.data.StatusItem? ==> Key(item.data.status) in p.core.calls
    ensures var after := RestoreItem(tools, q, Stripped(item).data);
            after.Ok? && Keeps(RestoreItem(tools, p, item.data).value, after.value)
  {
    match item.data
    case StatusItem(status) =>
      StripStatus(tools, p, q, status);
    case ResponseItem(response) =>
      AddCallsKeeps(p.core.calls, q.core.calls, response.turnID, response.output);
      hide AddCalls;
    case _ =>
  }

  lemma {:induction false} StripFold(tools: Tools, start: Context, items: seq<Item>)
    requires Fold(tools, NewLocal(start), items).Ok? && StatusesOpen(tools, start, items)
    requires AnswersCurrent(items)
    ensures Fold(tools, NewLocal(start), StrippedAll(items)).Ok? && StatusesOpen(tools, start, StrippedAll(items))
    ensures AnswersCurrent(StrippedAll(items)) && LastTurn(StrippedAll(items)) == LastTurn(items)
    ensures Keeps(Replayed(tools, start, items), Replayed(tools, start, StrippedAll(items)))
  {
    hide RestoreItem;
    hide Stripped;
    if items == [] {
      assert StrippedAll(items) == [];
    } else {
      var front, last := Front(items), Last(items);
      StripFold(tools, start, front);
      assert StrippedAll(items) == StrippedAll(front) + [Stripped(last)];
      FoldMore(tools, start, StrippedAll(front), Stripped(last));
      StrippedKind(last);
      TurnMore(StrippedAll(front), Stripped(last));
      StripStep(tools, Replayed(tools, start, front), Replayed(tools, start, StrippedAll(front)), last);
    }
  }

  lemma StrippedKind(item: Item)
    ensures Stripped(item).data.StatusItem? <==> item.data.StatusItem?
    ensures item.data.StatusItem? ==> Key(Stripped(item).data.status) == Key(item.data.status)
    ensures !item.data.StatusItem? ==> Stripped(item) == item
  {
  }

  lemma TurnMore(items: seq<Item>, item: Item)
    ensures LastTurn(items + [item]) == if item.data.TurnItem? then item.data.turn.id else LastTurn(items)
  {
    assert Front(items + [item]) == items && Last(items + [item]) == item;
  }

  lemma {:induction false} FoldPrefix(tools: Tools, start: Context, items: seq<Item>, n: nat)
    requires n <= |items| && Fold(tools, NewLocal(start), items).Ok? && StatusesOpen(tools, start, items)
             && AnswersCurrent(items)
    ensures Fold(tools, NewLocal(start), items[..n]).Ok? && StatusesOpen(tools, start, items[..n])
            && AnswersCurrent(items[..n])
    ensures ExternalIds(items[..n]) <= ExternalIds(items)
  {
    if n < |items| {
      assert Front(items)[..n] == items[..n];
      FoldPrefix(tools, start, Front(items), n);
    } else {
      assert items[..n] == items;
    }
  }

  /** Forking a good session at any of its turns gives a good session: restorable, with no open
      call and no operation, continuing the chosen turn. */
  lemma ForkGood(tools: Tools, start: Context, parent: Stored, session: Session, previousTurn: string)
    requires Good(tools, start, parent) && session.createdAt != 0 && ForkStored(parent, session, previousTurn).Ok?
    ensures var child := ForkStored(parent, session, previousTurn).value;
            && Good(tools, start, child)
            && Live(tools, start, child).core.calls == map[] && Live(tools, start, child).operations == map[]
            && Live(tools, start, child).core.turnID == previousTurn
  {
    hide ForkStored;
    hide Boundary;
    hide Fold;
    hide StatusesOpen;
    hide AnswersCurrent;
    hide ExternalIds;
    hide Snapshots;
    hide Lawful;
    hide TurnIds;
    hide LastTurn;
    hide OwnedTurnIds;
    hide OwnedResponses;
    hide Stripped;
    hide SoundCall;
    var child := ForkStored(parent, session, previousTurn).value;
    var kept := parent.items[..Boundary(parent.items, 0, previousTurn, -1) + 1];
    ForkWellFormed(parent, session, previousTurn);
    FoldPrefix(tools, start, parent.items, |kept|);
    StripFold(tools, start, kept);
    StrippedSnapshots(kept);
    var last := child.items[|child.items| - 1];
    assert child.items == StrippedAll(kept) + [last];
    FoldMore(tools, start, StrippedAll(kept), last);
    DistinctPrefix(ExternalIds(kept), ExternalIds(parent.items));
    hide Distinct;
    FoldTurn(tools, start, child.items);
    assert child.head.positions == map[] by { NothingIndexed(child.head); }
    hide OperationsIndexed;
    hide StrippedAll;
    assert OwnedStatuses(child.items) == {};
    assert HeadMap(child.head) == map[];
    assert ExternalIds(child.items) == ExternalIds(kept);
    assert Snapshots(child.items) == [];
  }

  lemma NothingIndexed(head: Head)
    requires OperationsIndexed(head) && head.operations == []
    ensures head.positions == map[]
  {
  }

  lemma DistinctPrefix(a: seq<string>, b: seq<string>)
    requires a <= b && Distinct(b)
    ensures Distinct(a)
  {
    assert forall i :: 0 <= i < |a| ==> a[i] == b[i];
  }

  /** The current turn of the restored state is the last turn of the history. */
  lemma {:induction false} FoldTurn(tools: Tools, start: Context, items: seq<Item>)
    requires Fold(tools, NewLocal(start), items).Ok?
    ensures Replayed(tools, start, items).core.turnID == LastTurn(items)
  {
    hide AddCalls;
    hide AddOperations;
    hide Awaited;
    if items != [] {
      FoldTurn(tools, start, Front(items));
      StepTurn(tools, Replayed(tools, start, Front(items)), Last(items).data);
      hide RestoreItem;
    }
  }

  lemma StepTurn(tools: Tools, local: Local, data: ItemData)
    requires RestoreItem(tools, local, data).Ok?
    ensures RestoreItem(tools, local, data).value.core.turnID ==
            if data.TurnItem? then data.turn.id else local.core.turnID
  {
    hide AddCalls;
    hide AddOperations;
    hide Awaited;
  }
}
