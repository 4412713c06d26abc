/** What a session is resumed with: unsettled operations and the external inputs already taken. */
module SessionResume {
  import opened Operations
  import opened SessionTypes
  import opened SessionState
  import opened SessionHistory

  datatype Resumed = Resumed(session: Session, operations: seq<Operation>, externalInputIDs: seq<string>)

  function ExternalIds(items: seq<Item>): seq<string> {
    if items == [] then []
    else
      ExternalIds(Front(items)) +
      if Last(items).data.InputItem? && Last(items).data.input.kind.External? then [Last(items).data.input.id] else []
  }

  /** All operation snapshots of the recorded statuses, in order. */
  function Snapshots(items: seq<Item>): seq<Operation> {
    if items == [] then []
    else Snapshots(Front(items)) + if Last(items).data.StatusItem? then Last(items).data.status.operations else []
  }

  /** The operations whose last snapshot is not terminal. */
  function Pending(snapshots: seq<Operation>): set<string> {
    if snapshots == [] then {}
    else if IsTerminal(Last(snapshots).status) then Pending(Front(snapshots)) - {Last(snapshots).id}
    else Pending(Front(snapshots)) + {Last(snapshots).id}
  }

  /** Operations that are unfinished, or finished without the history having said so. */
  function Unsettled(operations: seq<Operation>, pending: set<string>): seq<Operation> {
    if operations == [] then []
    else
      Unsettled(Front(operations), pending) +
      if !IsTerminal(Last(operations).status) || Last(operations).id in pending then [Last(operations)] else []
  }

  function Resume(st: Stored): Resumed {
    Resumed(st.head.session, Unsettled(st.head.operations, Pending(Snapshots(st.items))), ExternalIds(st.items))
  }

  /** The last snapshot of an operation is at this position. */
  ghost predicate LastAt(snapshots: seq<Operation>, i: nat, id: string) {
    i < |snapshots| && snapshots[i].id == id && forall j :: i < j < |snapshots| ==> snapshots[j].id != id
  }

  lemma {:induction false} PendingMeans(snapshots: seq<Operation>, id: string)
    ensures id in Pending(snapshots) <==> exists i: nat :: LastAt(snapshots, i, id) && !IsTerminal(snapshots[i].status)
  {
    if snapshots != [] {
      var front, n := Front(snapshots), |snapshots| - 1;
      PendingMeans(front, id);
      if snapshots[n].id == id {
        assert LastAt(snapshots, n, id);
        assert forall i: nat :: LastAt(snapshots, i, id) ==> i == n;
      } else {
        forall i: nat
          ensures LastAt(snapshots, i, id) <==> LastAt(front, i, id)
        {
          if LastAt(front, i, id) {
            assert forall j :: i < j < n ==> snapshots[j] == front[j];
          }
          if LastAt(snapshots, i, id) {
            assert forall j :: i < j < n ==> snapshots[j] == front[j];
          }
        }
      }
    }
  }

  lemma {:induction false} UnsettledHas(operations: seq<Operation>, pending: set<string>, op: Operation)
    ensures op in Unsettled(operations, pending) <==> op in operations && (!IsTerminal(op.status) || op.id in pending)
  {
    if operations != [] {
      UnsettledHas(Front(operations), pending, op);
      assert op in operations <==> op in Front(operations) || op == Last(operations);
    }
  }

  /** Resuming returns exactly the operations that are not settled: those still running, and those
      whose last recorded snapshot says they still were. */
  lemma ResumesUnsettled(st: Stored, op: Operation)
    ensures op in Resume(st).operations <==>
            && op in st.head.operations
            && (!IsTerminal(op.status) ||
                exists i: nat :: LastAt(Snapshots(st.items), i, op.id) && !IsTerminal(Snapshots(st.items)[i].status))
  {
    hide Unsettled;
    hide Pending;
    hide Snapshots;
    var operations, pending := st.head.operations, Pending(Snapshots(st.items));
    assert Resume(st).operations == Unsettled(operations, pending);
    UnsettledHas(operations, pending, op);
    PendingMeans(Snapshots(st.items), op.id);
  }

  lemma {:induction false} ExternalIdsHas(items: seq<Item>, id: string)
    ensures id in ExternalIds(items) <==>
            exists i :: 0 <= i < |items| && items[i].data.InputItem? && items[i].data.input.kind.External?
              && items[i].data.input.id == id
  {
    if items != [] {
      ExternalIdsHas(Front(items), id);
      assert items[|items| - 1] == Last(items);
      assert forall i :: 0 <= i < |items| - 1 ==> items[i] == Front(items)[i];
    }
  }

  lemma {:induction false} StrippedSnapshots(items: seq<Item>)
    ensures Snapshots(StrippedAll(items)) == []
    ensures ExternalIds(StrippedAll(items)) == ExternalIds(items)
  {
    if items != [] {
      assert Front(StrippedAll(items)) == StrippedAll(Front(items));
      StrippedSnapshots(Front(items));
    }
  }

  /** A fresh fork resumes without operations, with the parent's external inputs up to the fork. */
  lemma ForkResumesFresh(parent: Stored, session: Session, previousTurn: string)
    requires WellFormed(parent) && session.createdAt != 0 && ForkStored(parent, session, previousTurn).Ok?
    ensures var child := ForkStored(parent, session, previousTurn).value;
            && Resume(child).operations == []
            && Resume(child).session == session
            && Resume(child).externalInputIDs ==
               ExternalIds(parent.items[..Boundary(parent.items, 0, previousTurn, -1) + 1])
  {
    hide ForkStored;
    hide WellFormed;
    hide Boundary;
    ForkWellFormed(parent, session, previousTurn);
    var child := ForkStored(parent, session, previousTurn).value;
    StrippedSnapshots(parent.items[..Boundary(parent.items, 0, previousTurn, -1) + 1]);
    assert Front(child.items) == StrippedAll(parent.items[..Boundary(parent.items, 0, previousTurn, -1) + 1]);
  }

  /** The two loops of the source. */
  method ComputeResume(session: Session, initialized: seq<Operation>, items: seq<Item>) returns (r: Resumed)
    ensures r == Resumed(session, Unsettled(initialized, Pending(Snapshots(items))), ExternalIds(items))
  {
    var externalInputIDs: seq<string> := [];
    var pending: set<string> := {};
    var index := 0;
    while index < |items|
      invariant 0 <= index <= |items|
      invariant externalInputIDs == ExternalIds(items[..index])
      invariant pending == Pending(Snapshots(items[..index]))
    {
      var item := items[index];
      assert Front(items[..index + 1]) == items[..index] && Last(items[..index + 1]) == item;
      ghost var snapshots := Snapshots(items[..index]);
      assert snapshots + [] == snapshots;
      assert externalInputIDs + [] == externalInputIDs;
      match item.data {
        case InputItem(input) =>
          if input.kind.External? {
            externalInputIDs := externalInputIDs + [input.id];
          }
        case StatusItem(status) =>
          pending := Track(pending, snapshots, status.operations);
        case _ =>
      }
      index := index + 1;
    }
    assert items[..index] == items;
    var operations: seq<Operation> := [];
    index := 0;
    while index < |initialized|
      invariant 0 <= index <= |initialized|
      invariant operations == Unsettled(initialized[..index], pending)
    {
      var value := initialized[index];
      assert Front(initialized[..index + 1]) == initialized[..index] && Last(initialized[..index + 1]) == value;
      if !IsTerminal(value.status) || value.id in pending {
        operations := operations + [value];
      }
      index := index + 1;
    }
    assert initialized[..index] == initialized;
    r := Resumed(session, operations, externalInputIDs);
  }

  /** The snapshots of one status. */
  method Track(pending: set<string>, ghost before: seq<Operation>, operations: seq<Operation>)
    returns (after: set<string>)
    requires pending == Pending(before)
    ensures after == Pending(before + operations)
  {
    after := pending;
    var index := 0;
    assert before + operations[..0] == before;
    while index < |operations|
      invariant 0 <= index <= |operations|
      invariant after == Pending(before + operations[..index])
    {
      var value := operations[index];
      assert Front(before + operations[..index + 1]) == before + operations[..index]
          && Last(before + operations[..index + 1]) == value;
      if IsTerminal(value.status) {
        after := after - {value.id};
      } else {
        after := after + {value.id};
      }
      index := index + 1;
    }
    assert before + operations[..index] == before + operations;
  }
}
