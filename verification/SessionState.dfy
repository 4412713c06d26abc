/** What the session log means: which appends are accepted, and what a fork inherits. */
module SessionState {
  import opened Operations
  import opened Options
  import opened SessionTypes

  datatype Result<+T> = Ok(value: T) | Refused

  /** The write state of a session: everything an append has to be checked against. */
  datatype Head = Head(
    session: Session,
    operations: seq<Operation>,
    itemSequence: nat,
    latestTurn: string,
    turns: set<string>,
    ownedTurns: set<string>,
    respondedTurns: set<string>,
    statuses: set<(string, string)>,
    positions: map<string, nat>)

  datatype Stored = Stored(head: Head, items: seq<Item>)

  function NewHead(session: Session): Head {
    Head(session, [], 0, "", {}, {}, {}, {}, map[])
  }

  function NewStored(session: Session): Stored {
    Stored(NewHead(session), [])
  }

  predicate ValidOperation(op: Operation) {
    && op.id != "" && op.kind != "" && op.version != 0 && !op.status.StatusUnsupported?
    && ValidJson(op.state) && ValidJson(op.idempotency)
  }

  /** An append to the session, as a caller asks for it. */
  datatype Request =
    | AddInput(input: Input)
    | AddTurn(turn: Turn)
    | AddResponse(response: Response)
    | AddStatus(status: ToolCallStatus)
    | SaveOperation(operation: Operation)

  function IdSet(operations: seq<Operation>): set<string> {
    set op | op in operations :: op.id
  }

  predicate DistinctIds(operations: seq<Operation>) {
    forall i, j :: 0 <= i < j < |operations| ==> operations[i].id != operations[j].id
  }

  predicate Distinct(ids: seq<string>) {
    forall i, j :: 0 <= i < j < |ids| ==> ids[i] != ids[j]
  }

  /** Whether a first status refers exactly to the operations it initializes. */
  predicate StatusReferences(status: CallStatus, operations: seq<Operation>) {
    if status.error != "" then
      status.waitingFor == [] && operations == []
    else
      && operations != []
      && |status.waitingFor| == |operations|
      && Distinct(status.waitingFor)
      && forall id :: id in status.waitingFor ==> id in IdSet(operations)
  }

  predicate Initializable(head: Head, operations: seq<Operation>) {
    && DistinctIds(operations)
    && forall op :: op in operations ==> ValidOperation(op) && op.id !in head.positions
  }

  function Key(status: ToolCallStatus): (string, string) {
    (status.turnID, status.callID)
  }

  predicate Accepts(head: Head, request: Request) {
    match request
    case AddInput(input) => ValidInput(input)
    case AddTurn(turn) => turn.id != "" && turn.previous == head.latestTurn && turn.id !in head.turns
    case AddResponse(response) => response.turnID in head.ownedTurns && response.turnID !in head.respondedTurns
    case AddStatus(status) =>
      && status.turnID in head.ownedTurns && status.callID != ""
      && (Key(status) in head.statuses ||
          (Initializable(head, status.operations) && StatusReferences(status.status, status.operations)))
    case SaveOperation(op) =>
      && ValidOperation(op) && op.id in head.positions && head.positions[op.id] < |head.operations|
      && var existing := head.operations[head.positions[op.id]];
      existing.kind == op.kind && existing.version == op.version
  }

  /** Each initialized operation takes the next position. */
  function Initialize(head: Head, operations: seq<Operation>): Head {
    if operations == [] then head
    else
      var front, last := Initialize(head, operations[..|operations| - 1]), operations[|operations| - 1];
      front.(positions := front.positions[last.id := |front.operations|], operations := front.operations + [last])
  }

  /** The head after an accepted request. */
  function After(head: Head, request: Request): Head
    requires request.SaveOperation? ==>
             request.operation.id in head.positions && head.positions[request.operation.id] < |head.operations|
  {
    match request
    case AddInput(_) => head.(itemSequence := head.itemSequence + 1)
    case AddTurn(turn) =>
      head.(turns := head.turns + {turn.id}, ownedTurns := head.ownedTurns + {turn.id},
            latestTurn := turn.id, itemSequence := head.itemSequence + 1)
    case AddResponse(response) =>
      head.(respondedTurns := head.respondedTurns + {response.turnID}, itemSequence := head.itemSequence + 1)
    case AddStatus(status) =>
      if Key(status) in head.statuses then head.(itemSequence := head.itemSequence + 1)
      else
        Initialize(head, status.operations).(
          statuses := head.statuses + {Key(status)}, itemSequence := head.itemSequence + 1)
    case SaveOperation(op) =>
      head.(operations := head.operations[head.positions[op.id] := op])
  }

  function DataOf(request: Request): Option<ItemData> {
    match request
    case AddInput(input) => Some(InputItem(input))
    case AddTurn(turn) => Some(TurnItem(turn))
    case AddResponse(response) => Some(ResponseItem(response))
    case AddStatus(status) => Some(StatusItem(status))
    case SaveOperation(_) => None
  }

  /** The history after an accepted request: one more item, except for an operation update. */
  function Apply(st: Stored, request: Request, at: nat): Result<Stored> {
    if !Accepts(st.head, request) then Refused
    else
      var head := After(st.head, request);
      match DataOf(request)
      case None => Ok(Stored(head, st.items))
      case Some(data) => Ok(Stored(head, st.items + [Item(head.itemSequence, at, data)]))
  }

  function ResetOwned(head: Head): Head {
    head.(ownedTurns := {}, respondedTurns := {}, statuses := {}, operations := [], positions := map[])
  }

  /** Inherited statuses lose their operation snapshots. */
  function Stripped(item: Item): Item {
    match item.data
    case StatusItem(status) => item.(data := StatusItem(status.(operations := [])))
    case _ => item
  }

  function Inherit(st: Stored, item: Item): Stored {
    var head := st.head.(itemSequence := item.sequence);
    var head' :=
      match item.data
      case TurnItem(turn) =>
        head.(turns := head.turns + {turn.id}, ownedTurns := head.ownedTurns + {turn.id}, latestTurn := turn.id)
      case ResponseItem(response) => head.(respondedTurns := head.respondedTurns + {response.turnID})
      case StatusItem(status) => head.(statuses := head.statuses + {Key(status)})
      case ForkItem(_, _) => ResetOwned(head)
      case InputItem(_) => head;
    Stored(head', st.items + [Stripped(item)])
  }

  function InheritAll(st: Stored, items: seq<Item>): Stored {
    if items == [] then st else Inherit(InheritAll(st, items[..|items| - 1]), items[|items| - 1])
  }

  function AppendFork(st: Stored, parent: string, previousTurn: string, at: nat): Stored {
    var next := st.head.itemSequence + 1;
    Stored(ResetOwned(st.head.(itemSequence := next)), st.items + [Item(next, at, ForkItem(parent, previousTurn))])
  }

  predicate BelongsTo(item: Item, turnID: string) {
    match item.data
    case TurnItem(turn) => turn.id == turnID
    case ResponseItem(response) => response.turnID == turnID
    case StatusItem(status) => status.turnID == turnID
    case _ => false
  }

  /** The scan for the last item of a turn before the next turn starts; -1 when there is none. */
  function Boundary(items: seq<Item>, from: nat, turnID: string, found: int): (b: int)
    requires from <= |items| && -1 <= found < |items|
    ensures -1 <= b < |items|
    ensures b == found || (from <= b && BelongsTo(items[b], turnID))
    decreases |items| - from
  {
    if from == |items| || (found >= 0 && items[from].data.TurnItem?) then found
    else Boundary(items, from + 1, turnID, if BelongsTo(items[from], turnID) then from else found)
  }

  function ForkStored(parent: Stored, session: Session, previousTurn: string): Result<Stored> {
    var boundary := Boundary(parent.items, 0, previousTurn, -1);
    if boundary < 0 then Refused
    else
      Ok(AppendFork(InheritAll(NewStored(session), parent.items[..boundary + 1]),
                    parent.head.session.id, previousTurn, session.createdAt))
  }

  /** The loop of the source computes `Boundary`. */
  method FindBoundary(items: seq<Item>, turnID: string) returns (boundary: int)
    ensures boundary == Boundary(items, 0, turnID, -1)
  {
    boundary := -1;
    var index := 0;
    while index < |items|
      invariant 0 <= index <= |items| && -1 <= boundary < |items|
      invariant Boundary(items, 0, turnID, -1) == Boundary(items, index, turnID, boundary)
    {
      if boundary >= 0 && items[index].data.TurnItem? {
        return;
      }
      if BelongsTo(items[index], turnID) {
        boundary := index;
      }
      index := index + 1;
    }
  }
}
