/** What the manager sends is what the coordinator takes: updates the store accepts, and none of a settled operation. */
module ManagerUpdates {
  import Coordinator
  import Trace
  import opened ContextBuilder
  import opened CoordinatorSteps
  import opened LocalHistory
  import opened LocalManager
  import opened LocalState
  import opened Operations
  import opened SessionHistory
  import opened SessionState
  import opened SessionTypes
  import opened ShellRun
  import Shell

  /** A checkpoint as the operation record it is saved as. */
  ghost predicate Encodes(encode: Shell.Checkpoint -> Operation) {
    forall c ::
      var op := encode(c);
      && op.id == c.head.id && op.kind == Shell.SHELL_KIND && op.version == Shell.SHELL_VERSION
      && op.status == c.head.status && op.maxOutputLength == c.head.maxOutputLength
      && ValidJson(op.state) && ValidJson(op.idempotency)
  }

  /** A session when the updates of a manager, one after the other, have been saved. */
  function SavedAll(encode: Shell.Checkpoint -> Operation, st: Stored, log: seq<Shell.Checkpoint>, at: nat): Stored
    decreases |log|
  {
    if log == [] then st else SavedAll(encode, Saved(st, encode(log[0]), at), log[1..], at)
  }

  /** The session knows the operations a manager has accepted, and those it still hears of still run. */
  ghost predicate Dispatched(operations: map<string, Operation>, accepted: set<string>, log: seq<Shell.Checkpoint>) {
    && (forall id :: id in accepted ==>
          id in operations && operations[id].kind == Shell.SHELL_KIND && operations[id].version == Shell.SHELL_VERSION)
    && (forall i :: 0 <= i < |log| ==> log[i].head.id in operations && !IsTerminal(operations[log[i].head.id].status))
  }

  lemma FirstTaken(tools: Tools, start: Context, st: Stored, accepted: set<string>, op: Operation, at: nat)
    requires Good(tools, start, st) && at != 0
    requires op.id in accepted && op.id != "" && ValidOperation(op)
    requires op.kind == Shell.SHELL_KIND && op.version == Shell.SHELL_VERSION
    requires Dispatched(HeadMap(st.head), accepted, []) && !IsTerminal(HeadMap(st.head)[op.id].status)
    ensures Accepts(st.head, SaveOperation(op)) && Harmless(st, op)
    ensures Good(tools, start, Saved(st, op, at)) && HeadMap(Saved(st, op, at).head) == HeadMap(st.head)[op.id := op]
  {
    hide Good;
    LiveFacts(tools, start, st);
    hide Harmless;
    RunningIsHarmless(tools, start, st, op);
    GoodSave(tools, start, st, op, at);
    HeadMapSave(st.head, op);
  }

  lemma DispatchedRest(
      operations: map<string, Operation>, accepted: set<string>, log: seq<Shell.Checkpoint>, op: Operation)
    requires log != [] && LogKept(log, accepted) && Dispatched(operations, accepted, log)
    requires op.id == log[0].head.id && op.status == log[0].head.status
    requires op.kind == Shell.SHELL_KIND && op.version == Shell.SHELL_VERSION
    ensures LogKept(log[1..], accepted) && Dispatched(operations[op.id := op], accepted, log[1..])
  {
    var rest := log[1..];
    assert forall i :: 0 <= i < |rest| ==> rest[i] == log[i + 1];
  }

  /** Whatever else the session stores between two updates, it knows and hears of the same operations as before. */
  lemma DispatchedStays(
      st: Stored, request: Request, at: nat, accepted: set<string>, log: seq<Shell.Checkpoint>)
    requires WellFormed(st) && at != 0 && Accepts(st.head, request) && !request.SaveOperation?
    requires Dispatched(HeadMap(st.head), accepted, log)
    ensures Dispatched(HeadMap(Apply(st, request, at).value.head), accepted, log)
  {
    hide Lawful;
    FollowsIndexed(st);
    AppliedItems(st, request, at);
    var after := After(st.head, request);
    if request.AddStatus? && request.status.operations != [] {
      StatusKeeps(st.head, request.status);
    } else {
      HeadMapOnly(st.head, after);
    }
  }

  lemma StatusKeeps(head: Head, status: ToolCallStatus)
    requires OperationsIndexed(head) && Accepts(head, AddStatus(status))
    ensures var after := HeadMap(After(head, AddStatus(status)));
            forall id :: id in HeadMap(head) ==> id in after && after[id] == HeadMap(head)[id]
  {
    hide Initialize;
    hide AddOperations;
    var after := After(head, AddStatus(status));
    if Key(status) in head.statuses {
      HeadMapOnly(head, after);
    } else {
      HeadMapInitialize(head, status.operations);
      HeadMapOnly(Initialize(head, status.operations), after);
      forall id | id in HeadMap(head)
        ensures id in HeadMap(after) && HeadMap(after)[id] == HeadMap(head)[id]
      {
        AddOperationsAt(HeadMap(head), status.operations, id);
      }
    }
  }

  /** Operations the session dispatched while they ran: every update their manager sends, in the order it sends
      them, is one the store accepts and one that harms nothing. */
  lemma {:induction false} UpdatesTaken(
      tools: Tools, start: Context, st: Stored, encode: Shell.Checkpoint -> Operation,
      accepted: set<string>, log: seq<Shell.Checkpoint>, at: nat, k: nat)
    requires Good(tools, start, st) && at != 0 && Encodes(encode)
    requires LogKept(log, accepted) && "" !in accepted && Dispatched(HeadMap(st.head), accepted, log) && k < |log|
    ensures var next := SavedAll(encode, st, log[..k], at);
            Good(tools, start, next) && Accepts(next.head, SaveOperation(encode(log[k])))
              && Harmless(next, encode(log[k]))
    decreases k
  {
    hide Good;
    hide Accepts;
    hide Harmless;
    hide HeadMap;
    hide Saved;
    var op := encode(log[0]);
    assert log[0].head.id in accepted && IsUpdate(log[0]);
    FirstTaken(tools, start, st, accepted, op, at);
    if k > 0 {
      DispatchedRest(HeadMap(st.head), accepted, log, op);
      assert log[..k][1..] == log[1..][..k - 1];
      UpdatesTaken(tools, start, Saved(st, op, at), encode, accepted, log[1..], at, k - 1);
    }
  }

  function Encoded(encode: Shell.Checkpoint -> Operation, log: seq<Shell.Checkpoint>): seq<Operation> {
    seq(|log|, i requires 0 <= i < |log| => encode(log[i]))
  }

  /** No update has ended the operation of a later one. */
  lemma NoEndBefore(encode: Shell.Checkpoint -> Operation, accepted: set<string>, log: seq<Shell.Checkpoint>, k: nat)
    requires Encodes(encode) && LogKept(log, accepted) && k < |log|
    ensures !EndHeard(Encoded(encode, log[..k]), log[k].head.id)
  {
    var heard := Encoded(encode, log[..k]);
    forall i | 0 <= i < |heard|
      ensures !(heard[i].id == log[k].head.id && IsTerminal(heard[i].status))
    {
      assert heard[i] == encode(log[i]);
    }
  }

  /** Manager and coordinator together: where all updates received so far are the first ones of a manager that has
      accepted only what the run dispatched, the manager's next update is one the loop may be woken by, and one the
      store accepts. */
  lemma NextUpdateEnabled(c: Coordinator.Coordinator, encode: Shell.Checkpoint -> Operation,
      accepted: set<string>, log: seq<Shell.Checkpoint>, k: nat)
    requires Encodes(encode) && LogKept(log, accepted) && "" !in accepted && k < |log|
    requires c.AtSelect() && c.heard == Encoded(encode, log[..k])
    requires forall id :: id in accepted ==>
               && Trace.Dispatched(id) in c.trace && id in c.state.operations
               && c.state.operations[id].kind == Shell.SHELL_KIND
                  && c.state.operations[id].version == Shell.SHELL_VERSION
    ensures c.Enabled(Coordinator.Updated(encode(log[k])))
    ensures Accepts(c.sessions.stored.head, SaveOperation(encode(log[k])))
  {
    hide EndHeard;
    hide Accepts;
    hide Coordinator.Coordinator.Valid;
    hide Coordinator.Coordinator.Followed;
    hide Coordinator.Coordinator.Enabled;
    NoEndBefore(encode, accepted, log, k);
    assert log[k].head.id in accepted && IsUpdate(log[k]);
    c.DispatchedHarmless(encode(log[k]));
  }
}
