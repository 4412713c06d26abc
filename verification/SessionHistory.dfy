/** The law of session histories: turns form one chain of distinct IDs, each answered at
    most once; the write state is a function of the history; forks inherit a lawful prefix. */
module SessionHistory {
  import opened Operations
  import opened SessionTypes
  import opened SessionState

  function Front<T>(s: seq<T>): seq<T>
    requires s != []
  {
    s[..|s| - 1]
  }

  function Last<T>(s: seq<T>): T
    requires s != []
  {
    s[|s| - 1]
  }

  function TurnIds(items: seq<Item>): set<string> {
    if items == [] then {} else
      TurnIds(Front(items)) + if Last(items).data.TurnItem? then {Last(items).data.turn.id} else {}
  }

  function LastTurn(items: seq<Item>): string {
    if items == [] then "" else if Last(items).data.TurnItem? then Last(items).data.turn.id else LastTurn(Front(items))
  }

  /** Turns of the session itself: those after the last fork item. */
  function OwnedTurnIds(items: seq<Item>): set<string> {
    if items == [] || Last(items).data.ForkItem? then {} else
      OwnedTurnIds(Front(items)) + if Last(items).data.TurnItem? then {Last(items).data.turn.id} else {}
  }

  function OwnedResponses(items: seq<Item>): set<string> {
    if items == [] || Last(items).data.ForkItem? then {} else
      OwnedResponses(Front(items)) + if Last(items).data.ResponseItem? then {Last(items).data.response.turnID} else {}
  }

  /** Every turn answered anywhere in the history, inherited or not. */
  function Answered(items: seq<Item>): set<string> {
    if items == [] then {} else
      Answered(Front(items)) + if Last(items).data.ResponseItem? then {Last(items).data.response.turnID} else {}
  }

  function OwnedStatuses(items: seq<Item>): set<(string, string)> {
    if items == [] || Last(items).data.ForkItem? then {} else
      OwnedStatuses(Front(items)) + if Last(items).data.StatusItem? then {Key(Last(items).data.status)} else {}
  }

  /** What the next item has to satisfy after the items before it. */
  ghost predicate LawfulNext(before: seq<Item>, item: Item) {
    && item.sequence == |before| + 1 && item.recordedAt != 0
    && match item.data
       case InputItem(input) => ValidInput(input)
       case TurnItem(turn) => turn.id != "" && turn.previous == LastTurn(before) && turn.id !in TurnIds(before)
       case ResponseItem(response) => response.turnID in OwnedTurnIds(before)
         && response.turnID !in OwnedResponses(before)
       case StatusItem(status) => status.turnID in OwnedTurnIds(before) && status.callID != ""
       case ForkItem(_, _) => true
  }

  ghost predicate Lawful(items: seq<Item>) {
    items == [] || (Lawful(Front(items)) && LawfulNext(Front(items), Last(items)))
  }

  ghost predicate OperationsIndexed(head: Head) {
    && (forall id :: id in head.positions ==>
       head.positions[id] < |head.operations| && head.operations[head.positions[id]].id == id)
    && (forall i :: 0 <= i < |head.operations| ==>
       head.operations[i].id in head.positions && head.positions[head.operations[i].id] == i)
  }

  /** The write state holds exactly what the history says. */
  ghost predicate HeadFollows(st: Stored) {
    && st.head.itemSequence == |st.items|
    && st.head.turns == TurnIds(st.items) && st.head.latestTurn == LastTurn(st.items)
    && st.head.ownedTurns == OwnedTurnIds(st.items) && st.head.respondedTurns == OwnedResponses(st.items)
    && st.head.statuses == OwnedStatuses(st.items)
    && OperationsIndexed(st.head)
  }

  ghost predicate WellFormed(st: Stored) {
    Lawful(st.items) && HeadFollows(st)
  }

  lemma NewWellFormed(session: Session)
    ensures WellFormed(NewStored(session))
  {
  }

  lemma PushIndexed(head: Head, op: Operation)
    requires OperationsIndexed(head) && op.id !in head.positions
    ensures OperationsIndexed(head.(positions := head.positions[op.id := |head.operations|],
            operations := head.operations + [op]))
  {
  }

  lemma {:induction false} InitializeOnly(head: Head, operations: seq<Operation>)
    ensures var after := Initialize(head, operations);
            after == head.(operations := after.operations, positions := after.positions)
  {
    if operations != [] {
      InitializeOnly(head, Front(operations));
    }
  }

  lemma FrontInitializable(head: Head, operations: seq<Operation>)
    requires operations != [] && Initializable(head, operations)
    ensures Initializable(head, Front(operations))
  {
  }

  lemma FreshLast(head: Head, operations: seq<Operation>)
    requires operations != [] && Initializable(head, operations)
    ensures Last(operations).id !in head.positions && Last(operations).id !in IdSet(Front(operations))
  {
    assert operations[|operations| - 1] in operations;
    forall op | op in Front(operations)
      ensures op.id != Last(operations).id
    {
      var i :| 0 <= i < |operations| - 1 && operations[i] == op;
      assert operations[i].id != operations[|operations| - 1].id;
    }
  }

  /** Initializing operations adds them and their positions, and touches nothing else. */
  lemma {:induction false} InitializeMeaning(head: Head, operations: seq<Operation>)
    requires OperationsIndexed(head) && Initializable(head, operations)
    ensures var after := Initialize(head, operations);
            && OperationsIndexed(after)
            && after.operations == head.operations + operations
            && after.positions.Keys == head.positions.Keys + IdSet(operations)
            && after == head.(operations := after.operations, positions := after.positions)
  {
    hide Initializable;
    hide OperationsIndexed;
    if operations == [] {
      assert head.operations + operations == head.operations;
    } else {
      var front, last := operations[..|operations| - 1], operations[|operations| - 1];
      assert operations == front + [last];
      FrontInitializable(head, operations);
      FreshLast(head, operations);
      InitializeMeaning(head, front);
      assert head.operations + front + [last] == head.operations + operations;
      assert IdSet(operations) == IdSet(front) + {last.id};
      hide IdSet;
      PushIndexed(Initialize(head, front), last);
    }
  }

  /** What one more item does to everything read off a history. */
  lemma OneMore(items: seq<Item>, item: Item)
    ensures var more := items + [item];
            && TurnIds(more) == TurnIds(items) + (if item.data.TurnItem? then {item.data.turn.id} else {})
            && LastTurn(more) == (if item.data.TurnItem? then item.data.turn.id else LastTurn(items))
            && OwnedTurnIds(more) ==
               (if item.data.ForkItem? then {}
                else OwnedTurnIds(items) + if item.data.TurnItem? then {item.data.turn.id} else {})
            && OwnedResponses(more) ==
               (if item.data.ForkItem? then {}
                else OwnedResponses(items) + if item.data.ResponseItem? then {item.data.response.turnID} else {})
            && OwnedStatuses(more) ==
               (if item.data.ForkItem? then {}
                else OwnedStatuses(items) + if item.data.StatusItem? then {Key(item.data.status)} else {})
            && (Lawful(more) <==> Lawful(items) && LawfulNext(items, item))
  {
    hide LawfulNext;
    assert Front(items + [item]) == items && Last(items + [item]) == item;
  }

  /** An accepted append keeps the history lawful and the write state true to it. */
  lemma ApplyWellFormed(st: Stored, request: Request, at: nat)
    requires WellFormed(st) && at != 0 && Accepts(st.head, request)
    ensures var r := Apply(st, request, at); r.Ok? && WellFormed(r.value) && r.value.head.session == st.head.session
  {
    hide TurnIds;
    hide LastTurn;
    hide OwnedTurnIds;
    hide OwnedResponses;
    hide OwnedStatuses;
    hide Lawful;
    hide Initialize;
    hide Initializable;
    hide StatusReferences;
    hide OperationsIndexed;
    if request.AddStatus? && Key(request.status) !in st.head.statuses {
      InitializeMeaning(st.head, request.status.operations);
    }
    var head := After(st.head, request);
    if DataOf(request).Some? {
      OneMore(st.items, Item(head.itemSequence, at, DataOf(request).value));
    }
    assert OperationsIndexed(head) by { IndexedAfter(st.head, request); }
  }

  lemma IndexedAfter(head: Head, request: Request)
    requires OperationsIndexed(head) && Accepts(head, request)
    ensures OperationsIndexed(After(head, request))
  {
    if request.AddStatus? && Key(request.status) !in head.statuses {
      InitializeMeaning(head, request.status.operations);
      hide Initialize;
    }
  }

  /** The rules checked against the write state are the law of the history, no more and no less. */
  lemma AcceptsIffLawful(st: Stored, request: Request, at: nat)
    requires WellFormed(st) && at != 0 && DataOf(request).Some?
    ensures var lawful := LawfulNext(st.items, Item(|st.items| + 1, at, DataOf(request).value));
            if request.AddStatus? then
              Accepts(st.head, request) <==>
                && lawful
                && (Key(request.status) in OwnedStatuses(st.items) ||
                    (Initializable(st.head, request.status.operations)
                      && StatusReferences(request.status.status, request.status.operations)))
            else
              Accepts(st.head, request) <==> lawful
  {
    hide TurnIds;
    hide LastTurn;
    hide OwnedTurnIds;
    hide OwnedResponses;
    hide OwnedStatuses;
    hide Lawful;
    hide Initializable;
    hide StatusReferences;
    hide OperationsIndexed;
  }

  /** A saved operation is a valid one the session has initialized, under the same ID, type and version. */
  lemma SaveAcceptedIff(st: Stored, op: Operation)
    requires WellFormed(st)
    ensures Accepts(st.head, SaveOperation(op)) <==>
            && op.id != "" && op.kind != "" && op.version > 0 && !op.status.StatusUnsupported?
            && (op.state.Json? ==> op.state.valid) && (op.idempotency.Json? ==> op.idempotency.valid)
            && exists known :: known in st.head.operations
                               && known.id == op.id && known.kind == op.kind && known.version == op.version
    ensures Accepts(st.head, SaveOperation(op)) ==>
              var before, after := st.head.operations, After(st.head, SaveOperation(op)).operations;
              && |after| == |before|
              && forall k :: 0 <= k < |before| ==> after[k] == (if before[k].id == op.id then op else before[k])
  {
    hide TurnIds;
    hide LastTurn;
    hide OwnedTurnIds;
    hide OwnedResponses;
    hide OwnedStatuses;
    hide Lawful;
    forall known | known in st.head.operations && known.id == op.id
      ensures op.id in st.head.positions && st.head.operations[st.head.positions[op.id]] == known
    {
      var k :| 0 <= k < |st.head.operations| && st.head.operations[k] == known;
    }
  }

  // A successful first status waits for exactly the operations it initializes.

  lemma {:induction false} DistinctSize(ids: seq<string>)
    requires Distinct(ids)
    ensures |set id | id in ids| == |ids|
  {
    if ids != [] {
      var front, last := Front(ids), Last(ids);
      DistinctSize(front);
      assert (set id | id in ids) == (set id | id in front) + {last};
      assert last !in front;
    }
  }

  lemma SubsetEqual(a: set<string>, b: set<string>)
    requires a <= b && |a| == |b|
    ensures a == b
  {
    assert |b - a| == |b| - |a|;
  }

  lemma ReferencesExact(status: CallStatus, operations: seq<Operation>)
    requires DistinctIds(operations)
    ensures StatusReferences(status, operations) <==>
            if status.error != "" then status.waitingFor == [] && operations == []
            else
              operations != [] && Distinct(status.waitingFor) && (set id | id in status.waitingFor) == IdSet(operations)
  {
    var ids := seq(|operations|, i requires 0 <= i < |operations| => operations[i].id);
    var waiting := set id | id in status.waitingFor;
    assert (set id | id in ids) == IdSet(operations) by {
      forall id
        ensures id in ids <==> id in IdSet(operations)
      {
        if id in IdSet(operations) {
          var op :| op in operations && op.id == id;
          var i :| 0 <= i < |operations| && operations[i] == op;
          assert ids[i] == id;
        }
      }
    }
    DistinctSize(ids);
    if Distinct(status.waitingFor) {
      DistinctSize(status.waitingFor);
      if |status.waitingFor| == |operations| && waiting <= IdSet(operations) {
        SubsetEqual(waiting, IdSet(operations));
      }
      assert forall id :: id in status.waitingFor ==> id in waiting;
    }
  }

  ghost function StrippedAll(items: seq<Item>): seq<Item> {
    seq(|items|, i requires 0 <= i < |items| => Stripped(items[i]))
  }

  /** Everything read off a history but the operations is the same after stripping. */
  ghost predicate SameReading(a: seq<Item>, b: seq<Item>) {
    && |a| == |b| && Lawful(a) && Lawful(b)
    && TurnIds(a) == TurnIds(b) && LastTurn(a) == LastTurn(b) && OwnedTurnIds(a) == OwnedTurnIds(b)
    && OwnedResponses(a) == OwnedResponses(b) && OwnedStatuses(a) == OwnedStatuses(b)
  }

  lemma SameOneMore(a: seq<Item>, b: seq<Item>, item: Item)
    requires SameReading(a, b) && LawfulNext(a, item)
    ensures SameReading(a + [item], b + [Stripped(item)])
  {
    OneMore(a, item);
    OneMore(b, Stripped(item));
    hide TurnIds;
    hide LastTurn;
    hide OwnedTurnIds;
    hide OwnedResponses;
    hide OwnedStatuses;
    hide Lawful;
  }

  lemma InheritOne(st: Stored, item: Item)
    requires WellFormed(st) && LawfulNext(st.items, Stripped(item)) && st.head.operations == []
             && st.head.positions == map[]
    ensures var next := Inherit(st, item);
            WellFormed(next) && next.head.operations == [] && next.head.positions == map[]
              && next.head.session == st.head.session
  {
    OneMore(st.items, Stripped(item));
    hide TurnIds;
    hide LastTurn;
    hide OwnedTurnIds;
    hide OwnedResponses;
    hide OwnedStatuses;
    hide Lawful;
  }

  /** Inheriting a lawful history gives its write state, without operations. */
  lemma {:induction false} InheritFollows(session: Session, items: seq<Item>)
    requires Lawful(items)
    ensures var st := InheritAll(NewStored(session), items);
            && WellFormed(st) && SameReading(items, st.items) && st.items == StrippedAll(items)
            && st.head.session == session && st.head.operations == [] && st.head.positions == map[]
  {
    hide TurnIds;
    hide LastTurn;
    hide OwnedTurnIds;
    hide OwnedResponses;
    hide OwnedStatuses;
    if items == [] {
      EmptyReading();
      NewWellFormed(session);
    } else {
      var front, last := Front(items), Last(items);
      var before := InheritAll(NewStored(session), front);
      assert items == front + [last];
      InheritFollows(session, front);
      SameOneMore(front, before.items, last);
      InheritOne(before, last);
    }
  }

  lemma EmptyReading()
    ensures SameReading([], [])
  {
  }

  lemma {:induction false} LawfulPrefix(items: seq<Item>, n: nat)
    requires Lawful(items) && n <= |items|
    ensures Lawful(items[..n])
  {
    if n < |items| {
      assert Front(items)[..n] == items[..n];
      LawfulPrefix(Front(items), n);
    } else {
      assert items[..n] == items;
    }
  }

  lemma {:induction false} OwnedIsKnown(items: seq<Item>)
    ensures OwnedTurnIds(items) <= TurnIds(items)
    ensures Lawful(items) ==> Answered(items) <= TurnIds(items)
  {
    if items != [] {
      OwnedIsKnown(Front(items));
    }
  }

  lemma PrefixStep(items: seq<Item>, n: nat)
    requires n < |items|
    ensures items[..n + 1] == items[..n] + [items[n]] && Front(items[..n + 1]) == items[..n]
            && Last(items[..n + 1]) == items[n]
  {
  }

  lemma {:induction false} LawfulAt(items: seq<Item>, n: nat)
    requires Lawful(items) && n < |items|
    ensures LawfulNext(items[..n], items[n])
  {
    LawfulPrefix(items, n + 1);
    PrefixStep(items, n);
  }

  /** The boundary is the last item before the next turn that still has the turn as its latest. */
  lemma {:induction false} BoundaryMeaning(items: seq<Item>, from: nat, turnID: string, found: int)
    requires Lawful(items) && from <= |items| && -1 <= found < from
    requires found < 0 ==> turnID !in TurnIds(items[..from])
    requires found >= 0 ==>
               && LastTurn(items[..from]) == turnID == LastTurn(items[..found + 1])
               && turnID in TurnIds(items[..found + 1])
    ensures var b := Boundary(items, from, turnID, found);
            && (b < 0 <==> turnID !in TurnIds(items))
            && (b >= 0 ==> LastTurn(items[..b + 1]) == turnID)
    decreases |items| - from
  {
    hide TurnIds;
    hide LastTurn;
    hide OwnedTurnIds;
    hide OwnedResponses;
    hide OwnedStatuses;
    hide Lawful;
    if from == |items| {
      assert items[..from] == items;
      if found >= 0 {
        TurnIdsGrow(items, found + 1);
      }
    } else if found >= 0 && items[from].data.TurnItem? {
      TurnIdsGrow(items, found + 1);
    } else {
      PrefixStep(items, from);
      LawfulAt(items, from);
      OwnedIsKnown(items[..from]);
      OneMore(items[..from], items[from]);
      BoundaryMeaning(items, from + 1, turnID, if BelongsTo(items[from], turnID) then from else found);
    }
  }

  ghost predicate TurnWithin(items: seq<Item>, low: nat, high: nat)
    requires high <= |items|
  {
    exists j :: low <= j < high && items[j].data.TurnItem?
  }

  /** No item of the turn is left behind the boundary unless another turn started before it. */
  lemma {:induction false} BoundaryIsLast(items: seq<Item>, from: nat, turnID: string, found: int)
    requires from <= |items| && -1 <= found < from
    requires forall k :: found < k < from ==> !BelongsTo(items[k], turnID)
    ensures var b := Boundary(items, from, turnID, found);
            forall k :: b < k < |items| ==>
              var data := items[k].data;
              (data.TurnItem? && data.turn.id == turnID) || (data.ResponseItem? && data.response.turnID == turnID)
              || (data.StatusItem? && data.status.turnID == turnID) ==>
                b >= 0 && TurnWithin(items, b + 1, k + 1)
    decreases |items| - from
  {
    if from < |items| && !(found >= 0 && items[from].data.TurnItem?) {
      BoundaryIsLast(items, from + 1, turnID, if BelongsTo(items[from], turnID) then from else found);
    }
  }

  lemma {:induction false} TurnIdsGrow(items: seq<Item>, n: nat)
    requires n <= |items|
    ensures TurnIds(items[..n]) <= TurnIds(items)
  {
    if n < |items| {
      assert Front(items)[..n] == items[..n];
      TurnIdsGrow(Front(items), n);
    } else {
      assert items[..n] == items;
    }
  }

  /** A fork exists exactly for the parent's turns; it is lawful, owns nothing, continues the chosen turn. */
  lemma ForkWellFormed(parent: Stored, session: Session, previousTurn: string)
    requires WellFormed(parent) && session.createdAt != 0
    ensures var r := ForkStored(parent, session, previousTurn);
            && (r.Ok? <==> previousTurn in TurnIds(parent.items))
            && (r.Ok? ==>
                  && WellFormed(r.value) && r.value.head.session == session
                  && r.value.head.latestTurn == previousTurn
                  && r.value.head.ownedTurns == {} && r.value.head.operations == []
                  && r.value.items == StrippedAll(parent.items[..Boundary(parent.items, 0, previousTurn, -1) + 1])
                                      + [Item(|r.value.items|, session.createdAt,
                                        ForkItem(parent.head.session.id, previousTurn))])
  {
    hide Boundary;
    hide TurnIds;
    hide LastTurn;
    hide OwnedTurnIds;
    hide OwnedResponses;
    hide OwnedStatuses;
    hide Lawful;
    hide InheritAll;
    var b := Boundary(parent.items, 0, previousTurn, -1);
    assert parent.items[..0] == [] && previousTurn !in TurnIds([]) by { NoTurns(); }
    BoundaryMeaning(parent.items, 0, previousTurn, -1);
    if b >= 0 {
      LawfulPrefix(parent.items, b + 1);
      InheritFollows(session, parent.items[..b + 1]);
      var inherited := InheritAll(NewStored(session), parent.items[..b + 1]);
      OneMore(inherited.items, Item(inherited.head.itemSequence
        + 1, session.createdAt, ForkItem(parent.head.session.id, previousTurn)));
    }
  }

  lemma NoTurns()
    ensures TurnIds([]) == {}
  {
  }

  /** Each turn has at most one response, even across forks. */
  lemma {:induction false} AnsweredOnce(items: seq<Item>)
    requires Lawful(items)
    ensures forall t :: t in OwnedTurnIds(items) && t in Answered(items) ==> t in OwnedResponses(items)
    ensures items != [] && Last(items).data.ResponseItem? ==>
            Last(items).data.response.turnID !in Answered(Front(items))
  {
    if items != [] {
      AnsweredOnce(Front(items));
      OwnedIsKnown(Front(items));
    }
  }

  /** Two response items of one lawful history answer different turns. */
  lemma ResponsesDistinct(items: seq<Item>, i: nat, j: nat)
    requires Lawful(items) && i < j < |items| && items[i].data.ResponseItem? && items[j].data.ResponseItem?
    ensures items[i].data.response.turnID != items[j].data.response.turnID
  {
    LawfulPrefix(items, j + 1);
    PrefixStep(items, j);
    AnsweredOnce(items[..j + 1]);
    AnsweredHas(items[..j], i);
  }

  lemma {:induction false} AnsweredHas(items: seq<Item>, i: nat)
    requires i < |items| && items[i].data.ResponseItem?
    ensures items[i].data.response.turnID in Answered(items)
  {
    if i < |items| - 1 {
      AnsweredHas(Front(items), i);
    }
  }

  /** The turns of a lawful history have distinct IDs, and each names the turn before it. */
  lemma TurnsChain(items: seq<Item>, i: nat, j: nat)
    requires Lawful(items) && i < j < |items| && items[i].data.TurnItem? && items[j].data.TurnItem?
    requires forall k :: i < k < j ==> !items[k].data.TurnItem?
    ensures items[j].data.turn.previous == items[i].data.turn.id
    ensures items[j].data.turn.id !in TurnIds(items[..j]) && items[i].data.turn.id in TurnIds(items[..j])
  {
    LawfulAt(items, j);
    LastTurnIs(items, i, j);
  }

  lemma {:induction false} LastTurnIs(items: seq<Item>, i: nat, j: nat)
    requires i < j <= |items| && items[i].data.TurnItem?
    requires forall k :: i < k < j ==> !items[k].data.TurnItem?
    ensures LastTurn(items[..j]) == items[i].data.turn.id && items[i].data.turn.id in TurnIds(items[..j])
    decreases j
  {
    PrefixStep(items, j - 1);
    if i < j - 1 {
      LastTurnIs(items, i, j - 1);
    }
  }
}
