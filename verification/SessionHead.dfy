/** The write state as it lies in memory: a struct that is copied, maps and an array that are shared. */
module SessionHead {
  import opened Operations
  import opened SessionTypes
  import opened SessionState
  import opened SessionHistory

  /** The maps of a write state. Every copy of the struct points to the same ones. */
  class Tables {
    var turns: set<string>
    var ownedTurns: set<string>
    var respondedTurns: set<string>
    var statuses: set<(string, string)>
    var positions: map<string, nat>

    constructor ()
      ensures turns == {} && ownedTurns == {} && respondedTurns == {} && statuses == {} && positions == map[]
    {
      turns, ownedTurns, respondedTurns, statuses, positions := {}, {}, {}, {}, map[];
    }
  }

  /** The struct: its maps, and the slice of `slots` that holds `count` operations. */
  datatype HeadRef = HeadRef(
    session: Session, itemSequence: nat, latestTurn: string, tables: Tables, slots: array<Operation>, count: nat)

  ghost predicate Fits(h: HeadRef) {
    h.count <= h.slots.Length
  }

  ghost function View(h: HeadRef): Head
    requires Fits(h)
    reads h.tables, h.slots
  {
    Head(h.session, h.slots[..h.count], h.itemSequence, h.latestTurn,
         h.tables.turns, h.tables.ownedTurns, h.tables.respondedTurns, h.tables.statuses, h.tables.positions)
  }

  /** A mutation of the head does what the request means, or is refused and changes nothing.
      The caller's copy of the struct is the one returned; only it and its shared parts are new. */
  twostate predicate Performed(h: HeadRef, request: Request, new r: Result<HeadRef>)
    requires Fits(h)
    reads h.tables, h.slots, if r.Ok? then {r.value.tables, r.value.slots} else {}
  {
    match r
    case Refused => !Accepts(old(View(h)), request) && View(h) == old(View(h))
    case Ok(next) =>
      && Accepts(old(View(h)), request)
      && Fits(next) && View(next) == After(old(View(h)), request)
      && next.tables == h.tables && (next.slots == h.slots || fresh(next.slots))
  }

  method NewHeadRef(session: Session) returns (h: HeadRef)
    ensures Fits(h) && View(h) == NewHead(session) && fresh(h.tables) && fresh(h.slots)
  {
    var tables := new Tables();
    var slots := new Operation[0];
    h := HeadRef(session, 0, "", tables, slots, 0);
  }

  method AppendInput(h: HeadRef, input: Input) returns (r: Result<HeadRef>)
    requires Fits(h)
    ensures Performed(h, AddInput(input), r)
  {
    if !ValidInput(input) {
      return Refused;
    }
    r := Ok(h.(itemSequence := h.itemSequence + 1));
  }

  method AppendTurn(h: HeadRef, turn: Turn) returns (r: Result<HeadRef>)
    requires Fits(h)
    modifies h.tables
    ensures Performed(h, AddTurn(turn), r)
  {
    if turn.id == "" || turn.previous != h.latestTurn || turn.id in h.tables.turns {
      return Refused;
    }
    h.tables.turns := h.tables.turns + {turn.id};
    h.tables.ownedTurns := h.tables.ownedTurns + {turn.id};
    r := Ok(h.(latestTurn := turn.id, itemSequence := h.itemSequence + 1));
  }

  method AppendResponse(h: HeadRef, response: Response) returns (r: Result<HeadRef>)
    requires Fits(h)
    modifies h.tables
    ensures Performed(h, AddResponse(response), r)
  {
    if response.turnID !in h.tables.ownedTurns || response.turnID in h.tables.respondedTurns {
      return Refused;
    }
    h.tables.respondedTurns := h.tables.respondedTurns + {response.turnID};
    r := Ok(h.(itemSequence := h.itemSequence + 1));
  }

  /** The loop that checks the operations a first status initializes. */
  method CheckInitializable(h: HeadRef, operations: seq<Operation>) returns (ok: bool)
    requires Fits(h)
    ensures ok == Initializable(View(h), operations)
  {
    var seen: set<string> := {};
    var index := 0;
    while index < |operations|
      invariant 0 <= index <= |operations|
      invariant seen == IdSet(operations[..index])
      invariant Initializable(View(h), operations[..index])
    {
      var value := operations[index];
      if !ValidOperation(value) || value.id in seen || value.id in h.tables.positions {
        assert value in operations;
        return false;
      }
      assert operations[..index + 1] == operations[..index] + [value];
      assert forall i :: 0 <= i < index ==> operations[..index][i].id in seen;
      seen := seen + {value.id};
      index := index + 1;
    }
    assert operations[..index] == operations;
    return true;
  }

  /** The check that a status waits exactly for the operations it initializes. */
  method CheckReferences(status: CallStatus, operations: seq<Operation>) returns (ok: bool)
    ensures ok == StatusReferences(status, operations)
  {
    if status.error != "" {
      return status.waitingFor == [] && operations == [];
    }
    if operations == [] || |status.waitingFor| != |operations| {
      return false;
    }
    var initialized := IdSet(operations);
    var waiting: set<string> := {};
    var index := 0;
    while index < |status.waitingFor|
      invariant 0 <= index <= |status.waitingFor|
      invariant forall id :: id in waiting <==> id in status.waitingFor[..index]
      invariant Distinct(status.waitingFor[..index])
      invariant forall id :: id in status.waitingFor[..index] ==> id in initialized
    {
      var id := status.waitingFor[index];
      if id in waiting || id !in initialized {
        return false;
      }
      assert status.waitingFor[..index + 1] == status.waitingFor[..index] + [id];
      waiting := waiting + {id};
      index := index + 1;
    }
    assert status.waitingFor[..index] == status.waitingFor;
    return true;
  }

  /** Appending to the slice: in place while the array has room, else into a larger array. */
  method AppendSlot(h: HeadRef, value: Operation) returns (next: HeadRef)
    requires Fits(h)
    modifies h.slots
    ensures next == h.(slots := next.slots, count := h.count + 1) && Fits(next)
    ensures next.slots == h.slots || fresh(next.slots)
    ensures next.slots[..next.count] == old(h.slots[..h.count]) + [value]
  {
    if h.count < h.slots.Length {
      h.slots[h.count] := value;
      next := h.(count := h.count + 1);
    } else {
      var room: nat :| true;
      var slots := new Operation[h.count + 1 + room];
      forall i | 0 <= i < h.count {
        slots[i] := h.slots[i];
      }
      slots[h.count] := value;
      next := h.(slots := slots, count := h.count + 1);
    }
  }

  /** The loop that gives each operation the next slot. */
  method InitializeAll(h: HeadRef, operations: seq<Operation>) returns (next: HeadRef)
    requires Fits(h)
    modifies h.tables`positions, h.slots
    ensures Fits(next) && next == h.(slots := next.slots, count := next.count)
    ensures next.slots == h.slots || fresh(next.slots)
    ensures View(next) == Initialize(old(View(h)), operations)
  {
    next := h;
    var index := 0;
    while index < |operations|
      invariant 0 <= index <= |operations|
      invariant Fits(next) && next == h.(slots := next.slots, count := next.count)
      invariant next.slots == h.slots || fresh(next.slots)
      invariant View(next) == Initialize(old(View(h)), operations[..index])
    {
      var value := operations[index];
      assert operations[..index + 1][..index] == operations[..index];
      h.tables.positions := h.tables.positions[value.id := next.count];
      next := AppendSlot(next, value);
      index := index + 1;
    }
    assert operations[..index] == operations;
  }

  method AppendStatus(h: HeadRef, status: ToolCallStatus) returns (r: Result<HeadRef>)
    requires Fits(h)
    modifies h.tables, h.slots
    ensures Performed(h, AddStatus(status), r)
  {
    if status.turnID !in h.tables.ownedTurns || status.callID == "" {
      return Refused;
    }
    if Key(status) in h.tables.statuses {
      return Ok(h.(itemSequence := h.itemSequence + 1));
    }
    var initializable := CheckInitializable(h, status.operations);
    if !initializable {
      return Refused;
    }
    var matching := CheckReferences(status.status, status.operations);
    if !matching {
      return Refused;
    }
    h.tables.statuses := h.tables.statuses + {Key(status)};
    InitializeStatuses(old(View(h)), h.tables.statuses, status.operations);
    hide Initialize;
    hide Initializable;
    hide StatusReferences;
    var next := InitializeAll(h, status.operations);
    r := Ok(next.(itemSequence := next.itemSequence + 1));
  }

  /** Initializing leaves the recorded statuses alone. */
  lemma {:induction false} InitializeStatuses(head: Head, statuses: set<(string, string)>, operations: seq<Operation>)
    ensures Initialize(head.(statuses := statuses), operations) == Initialize(head, operations).(statuses := statuses)
    ensures Initialize(head, operations).itemSequence == head.itemSequence
  {
    if operations != [] {
      InitializeStatuses(head, statuses, operations[..|operations| - 1]);
    }
  }

  method SaveSlot(h: HeadRef, value: Operation) returns (r: Result<HeadRef>)
    requires Fits(h)
    requires forall id :: id in h.tables.positions ==> h.tables.positions[id] < h.count
    modifies h.slots
    ensures Performed(h, SaveOperation(value), r)
  {
    if !ValidOperation(value) || value.id !in h.tables.positions {
      return Refused;
    }
    var index := h.tables.positions[value.id];
    var existing := h.slots[index];
    if existing.kind != value.kind || existing.version != value.version {
      return Refused;
    }
    h.slots[index] := value;
    r := Ok(h);
  }
}
