/** A session in which an update that the store accepts is lost by a restart. */
module HarmfulUpdate {
  import opened ContextBuilder
  import opened CoordinatorSteps
  import opened LocalHistory
  import opened LocalState
  import opened Operations
  import opened Options
  import opened SessionHistory
  import opened SessionResume
  import opened SessionState
  import opened SessionTypes

  const CALL := ToolCall("c", "tool", "")
  const KEY: CallKey := ("t", "c")
  const WAITS := CallStatus("", false, ["x"])

  function Op(status: Status): Operation {
    Operation("x", "shell", 3, status, 1, Absent, Absent)
  }

  /** One tool that starts one operation and shows nothing. */
  function OneTool(): Tools {
    Tools(_ => Some(""),
          _ => Some(Translator(_ => Start([Spec("shell", 3, 1, Absent, Absent)]), (_, _, _) => Some([]))),
          _ => CallStatus("no such tool", false, []))
  }

  function Turned(): Request { AddTurn(Turn("t", "", Regular)) }
  function Called(): Request { AddResponse(Response("t", [CallItem(CALL)], "")) }
  function Started(): Request { AddStatus(ToolCallStatus("t", "c", WAITS, [Op(StatusReady)])) }
  function Ended(): Request { SaveOperation(Op(StatusCompleted)) }
  function Settled(): Request { AddStatus(ToolCallStatus("t", "c", WAITS, [Op(StatusCompleted)])) }

  function Next(st: Stored, request: Request): Stored {
    match Apply(st, request, 1)
    case Ok(next) => next
    case Refused => st
  }

  /** The session after each of the five requests. */
  function Session1(): Stored { Next(NewStored(Session("s", 1)), Turned()) }
  function Session2(): Stored { Next(Session1(), Called()) }
  function Session3(): Stored { Next(Session2(), Started()) }
  function Session4(): Stored { Next(Session3(), Ended()) }
  function Session5(): Stored { Next(Session4(), Settled()) }

  lemma Lawful1()
    ensures LawfulTools(OneTool())
  {
  }

  lemma Good2(start: Context)
    ensures Good(OneTool(), start, Session2())
    ensures Live(OneTool(), start, Session2()).core.calls == map[KEY := Call(CALL, None, {})]
    ensures Live(OneTool(), start, Session2()).operations == map[]
  {
    hide Good;
    hide Live;
    var tools, new0 := OneTool(), NewStored(Session("s", 1));
    GoodNew(tools, start, Session("s", 1));
    GoodAppend(tools, start, new0, Turned(), 1);
    GoodAppend(tools, start, Session1(), Called(), 1);
  }

  function StatusOf(status: Status): ToolCallStatus {
    ToolCallStatus("t", "c", WAITS, [Op(status)])
  }

  lemma OneStatus(status: Status)
    ensures SetOf(WAITS.waitingFor) == IdSet([Op(status)]) == {"x"}
    ensures AddOperations(map[], [Op(status)]) == map["x" := Op(status)]
    ensures AddOperations(map["x" := Op(status)], [Op(status)]) == map["x" := Op(status)]
  {
    assert Op(status) in [Op(status)];
    assert Front([Op(status)]) == [];
  }

  lemma AwaitsOne(call: Call, operations: map<string, Operation>)
    requires call.operations == {"x"} && "x" in operations
    ensures Awaited(WAITS.waitingFor, call, operations) == Some([operations["x"]])
  {
    assert Front(WAITS.waitingFor) == [];
    assert Awaited([], call, operations) == Some([]);
    assert [] + [operations["x"]] == [operations["x"]];
  }

  /** The status of a running operation keeps the call open; that of an ended one settles it. */
  lemma StatusStep(local: Local, status: Status)
    requires KEY in local.core.calls && local.core.calls == map[KEY := local.core.calls[KEY]]
    requires local.core.calls[KEY] == Call(CALL, None, {}) || local.core.calls[KEY] == Call(CALL, Some(WAITS), {"x"})
    requires AddOperations(local.operations, [Op(status)]) == map["x" := Op(status)]
    ensures var o := AddItem(OneTool(), local, StatusItem(StatusOf(status)));
            && o.Ok? && o.value.operations == map["x" := Op(status)]
            && o.value.core.calls == if IsTerminal(status) then map[] else map[KEY := Call(CALL, Some(WAITS), {"x"})]
  {
    OneStatus(status);
    hide AddOperations;
    hide AddResult;
    var operations := map["x" := Op(status)];
    AwaitsOne(RecordStatus(local.core, StatusOf(status)).calls[KEY], operations);
    hide Awaited;
  }

  lemma Good3(start: Context)
    ensures var live := Live(OneTool(), start, Session3());
            && Good(OneTool(), start, Session3())
            && live.core.calls == map[KEY := Call(CALL, Some(WAITS), {"x"})]
               && live.operations == map["x" := Op(StatusReady)]
  {
    hide Good;
    hide Live;
    hide AddItem;
    Good2(start);
    OneStatus(StatusReady);
    StatusStep(Live(OneTool(), start, Session2()), StatusReady);
    GoodStatus(OneTool(), start, Session2(), StatusOf(StatusReady), 1);
  }

  lemma Good4(start: Context)
    ensures var live := Live(OneTool(), start, Session4());
            && Good(OneTool(), start, Session4())
            && live.core.calls == map[KEY := Call(CALL, Some(WAITS), {"x"})]
            && live.operations == map["x" := Op(StatusCompleted)]
  {
    hide Good;
    hide Live;
    hide HeadMap;
    hide Harmless;
    hide Accepts;
    hide Session3;
    Good3(start);
    var st, op := Session3(), Op(StatusCompleted);
    LiveIsHead(start, st);
    SavesKnown(start, st, op);
    RunningIsHarmless(OneTool(), start, st, op);
    GoodSave(OneTool(), start, st, op, 1);
  }

  lemma LiveIsHead(start: Context, st: Stored)
    ensures Live(OneTool(), start, st).operations == HeadMap(st.head)
  {
  }

  /** An update of the same kind of a known operation is accepted. */
  lemma SavesKnown(start: Context, st: Stored, op: Operation)
    requires Good(OneTool(), start, st) && op.id in HeadMap(st.head) && ValidOperation(op)
    requires HeadMap(st.head)[op.id].kind == op.kind && HeadMap(st.head)[op.id].version == op.version
    ensures Accepts(st.head, SaveOperation(op))
  {
    hide Good;
  }

  lemma SettledAccepted(start: Context, st: Stored)
    requires Good(OneTool(), start, st)
    requires Live(OneTool(), start, st).core.calls == map[KEY := Call(CALL, Some(WAITS), {"x"})]
    ensures Accepts(st.head, Settled())
  {
    hide Good;
    hide Live;
    hide Initializable;
    hide StatusReferences;
    hide HeadMap;
    LiveFacts(OneTool(), start, st);
    CallOf(OneTool(), st.head, Live(OneTool(), start, st).core.calls, KEY);
  }

  lemma Good5(start: Context)
    ensures var live := Live(OneTool(), start, Session5());
            && Good(OneTool(), start, Session5()) && live.core.calls == map[]
            && live.operations == map["x" := Op(StatusCompleted)]
  {
    hide Good;
    hide AddItem;
    Good4(start);
    var st := Session4();
    LiveIsHead(start, st);
    hide Live;
    hide Session4;
    hide Accepts;
    hide HeadMap;
    SettledAccepted(start, st);
    OneStatus(StatusCompleted);
    StatusStep(Live(OneTool(), start, st), StatusCompleted);
    GoodStatus(OneTool(), start, st, StatusOf(StatusCompleted), 1);
  }

  lemma SnapshotsMore(items: seq<Item>, item: Item)
    ensures Snapshots(items + [item]) ==
            Snapshots(items) + if item.data.StatusItem? then item.data.status.operations else []
  {
    assert Front(items + [item]) == items && Last(items + [item]) == item;
  }

  lemma Snapshots2()
    ensures Snapshots(Session2().items) == []
  {
    var new0 := NewStored(Session("s", 1));
    SnapshotsMore([], Item(1, 1, TurnItem(Turn("t", "", Regular))));
    SnapshotsMore(Session1().items, Item(2, 1, ResponseItem(Response("t", [CallItem(CALL)], ""))));
    assert new0.items == [] && Snapshots([]) == [];
  }

  /** The history records that the operation ran, and then that it completed. */
  lemma Snapshots5(start: Context)
    ensures Snapshots(Session5().items) == [Op(StatusReady), Op(StatusCompleted)]
  {
    hide Good;
    hide Live;
    hide Snapshots;
    hide Accepts;
    Snapshots2();
    Good2(start);
    Good4(start);
    Accepted3(start);
    Accepted4(start);
    SettledAccepted(start, Session4());
    hide Session1;
    hide Session2;
    AppliedItems(Session2(), Started(), 1);
    AppliedItems(Session3(), Ended(), 1);
    AppliedItems(Session4(), Settled(), 1);
    var first, last := Item(Session2().head.itemSequence + 1, 1, StatusItem(StatusOf(StatusReady))),
      Item(Session4().head.itemSequence + 1, 1, StatusItem(StatusOf(StatusCompleted)));
    SnapshotsMore(Session2().items, first);
    SnapshotsMore(Session4().items, last);
    assert Session3().items + [] == Session3().items;
  }

  lemma Accepted3(start: Context)
    ensures Accepts(Session2().head, Started())
  {
  }

  lemma Accepted4(start: Context)
    ensures Accepts(Session3().head, Ended())
  {
    Good3(start);
    var st := Session3();
    LiveIsHead(start, st);
    hide Good;
    hide Live;
    hide Session3;
    SavesKnown(start, st, Op(StatusCompleted));
  }

  /** The session is good, and its call settled; yet the store accepts an update that makes the completed operation a
      failed one, which a restart does not see. */
  lemma HarmfulExists(start: Context)
    ensures var tools, st, op := OneTool(), Session5(), Op(StatusFailed);
            && LawfulTools(tools) && Good(tools, start, st)
            && Accepts(st.head, SaveOperation(op)) && IsTerminal(op.status) && !Harmless(st, op)
            && Restore(tools, start, Apply(st, SaveOperation(op), 1).value) !=
               Ok(Live(tools, start, Apply(st, SaveOperation(op), 1).value))
  {
    Lawful1();
    Good5(start);
    Snapshots5(start);
    var st, op := Session5(), Op(StatusFailed);
    LiveIsHead(start, st);
    hide Session5;
    hide Good;
    hide Live;
    hide HeadMap;
    hide Snapshots;
    hide Restore;
    SavesKnown(start, st, op);
    SettledOne();
    SaveRestores(OneTool(), start, st, op, 1);
  }

  lemma SettledOne()
    ensures Pending([Op(StatusReady), Op(StatusCompleted)]) == {}
  {
    var snapshots := [Op(StatusReady), Op(StatusCompleted)];
    assert Front(snapshots) == [Op(StatusReady)];
    assert Front([Op(StatusReady)]) == [];
    assert Pending([]) == {};
  }
}
