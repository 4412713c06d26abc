/** Reading a session log back into memory. */
module SessionReader {
  import opened Bytes
  import opened Operations
  import opened Options
  import opened SessionTypes
  import opened SessionState
  import opened SessionHistory
  import opened SessionHead
  import opened SessionCodec
  import opened SessionLog

  datatype Read = Read(head: HeadRef, items: seq<Item>, committedSize: nat)

  /** An inherited item is taken over without a check; a fork starts a new owner. */
  method InheritItem(h: HeadRef, item: Item) returns (next: HeadRef)
    requires Fits(h)
    modifies h.tables
    ensures Fits(next) && View(next) == Inherit(Stored(old(View(h)), []), item).head
    ensures (next.tables == h.tables || fresh(next.tables)) && (next.slots == h.slots || fresh(next.slots))
  {
    next := h.(itemSequence := item.sequence);
    match item.data
    case TurnItem(turn) =>
      h.tables.turns := h.tables.turns + {turn.id};
      h.tables.ownedTurns := h.tables.ownedTurns + {turn.id};
      next := next.(latestTurn := turn.id);
    case ResponseItem(response) =>
      h.tables.respondedTurns := h.tables.respondedTurns + {response.turnID};
    case StatusItem(status) =>
      h.tables.statuses := h.tables.statuses + {Key(status)};
    case ForkItem(_, _) =>
      var tables := new Tables();
      tables.turns := h.tables.turns;
      var slots := new Operation[0];
      next := next.(tables := tables, slots := slots, count := 0);
    case InputItem(_) =>
  }

  /** One request on the head, whichever it is. */
  method Perform(h: HeadRef, request: Request) returns (r: Result<HeadRef>)
    requires Fits(h) && OperationsIndexed(View(h))
    modifies h.tables, h.slots
    ensures Performed(h, request, r)
  {
    match request
    case AddInput(input) => r := AppendInput(h, input);
    case AddTurn(turn) => r := AppendTurn(h, turn);
    case AddResponse(response) => r := AppendResponse(h, response);
    case AddStatus(status) => r := AppendStatus(h, status);
    case SaveOperation(operation) => r := SaveSlot(h, operation);
  }

  /** The first pass of the reader. */
  method ScanRecords(codec: Codec, lines: seq<Octets>) returns (all: Option<seq<LogRecord>>, inherited: nat)
    ensures all == Scan(codec, lines)
    ensures all.Some? ==> inherited == Inherited(all.value)
  {
    var records: seq<LogRecord> := [];
    var itemCount := 0;
    inherited := 0;
    var lineIndex := 0;
    while lineIndex < |lines|
      invariant 0 <= lineIndex <= |lines|
      invariant Scan(codec, lines[..lineIndex]) == Some(records)
      invariant itemCount == ItemCount(records) && inherited == Inherited(records)
    {
      var line := lines[lineIndex];
      assert lines[..lineIndex + 1] == lines[..lineIndex] + [line];
      ScanMore(codec, lines[..lineIndex], line);
      if Scan(codec, lines).Some? {
        ScanPrefix(codec, lines, lineIndex + 1);
      }
      var decoded := codec.decode(line);
      if decoded.None? {
        return None, 0;
      }
      var record := decoded.value;
      CountMore(records, record);
      hide Scan;
      hide ItemCount;
      hide Inherited;
      match record {
        case SessionRecord(version, session) =>
          if lineIndex != 0 || version != FORMAT_VERSION || !ValidSessionID(session.id) || session.createdAt == 0 {
            return None, 0;
          }
        case ItemRecord(item, operations) =>
          if lineIndex == 0 || item.sequence != itemCount + 1 || item.recordedAt == 0 {
            return None, 0;
          }
          if !item.data.StatusItem? && operations != [] {
            return None, 0;
          }
          itemCount := itemCount + 1;
          if item.data.ForkItem? {
            inherited := itemCount;
          }
        case OperationRecord(_) =>
          if lineIndex == 0 {
            return None, 0;
          }
      }
      records := records + [record];
      lineIndex := lineIndex + 1;
    }
    assert lines[..lineIndex] == lines;
    all := Some(records);
  }

  /** One record of the second pass: inherited, or performed like an append. */
  method ReplayRecord(h: HeadRef, items: seq<Item>, record: LogRecord, replayed: nat, inherited: nat)
    returns (r: Result<HeadRef>, more: seq<Item>)
    requires Fits(h) && OperationsIndexed(View(h))
    requires !record.SessionRecord? && h.itemSequence == |items| == replayed
    requires record.ItemRecord? ==> record.item.sequence == replayed + 1
    modifies h.tables, h.slots
    ensures r.Refused? <==> ReplayOne(Stored(old(View(h)), items), record, replayed, inherited).Refused?
    ensures r.Ok? ==>
              && Fits(r.value)
              && (r.value.tables == h.tables || fresh(r.value.tables))
                 && (r.value.slots == h.slots || fresh(r.value.slots))
              && ReplayOne(Stored(old(View(h)), items), record, replayed, inherited) == Ok(Stored(View(r.value), more))
              && r.value.itemSequence == |more| == replayed + (if record.ItemRecord? then 1 else 0)
              && OperationsIndexed(View(r.value)) && r.value.session == h.session
  {
    more := items;
    ghost var st := Stored(View(h), items);
    if ReplayOne(st, record, replayed, inherited).Ok? {
      CountsStep(st, record, replayed, inherited);
    }
    hide Accepts;
    hide OperationsIndexed;
    if replayed < inherited {
      if !record.ItemRecord? || record.operations != [] {
        return Refused, more;
      }
      var next := InheritItem(h, record.item);
      return Ok(next), more + [Stripped(record.item)];
    }
    var request := RequestOf(record);
    if request.None? {
      return Refused, more;
    }
    r := Perform(h, request.value);
    if r.Ok? {
      hide After;
      match DataOf(request.value)
      case None =>
      case Some(data) => more := more + [Item(r.value.itemSequence, record.item.recordedAt, data)];
    }
  }

  /** The second pass of the reader. */
  method ReplayRecords(records: seq<LogRecord>, inherited: nat) returns (r: Result<HeadRef>, items: seq<Item>)
    requires records != [] && records[0].SessionRecord? && Shaped(records)
    ensures r.Refused? <==> Replay(records, inherited).Refused?
    ensures r.Ok? ==> Fits(r.value) && fresh(r.value.tables) && fresh(r.value.slots)
                      && Replay(records, inherited) == Ok(Stored(View(r.value), items))
  {
    var value := NewHeadRef(records[0].session);
    items := [];
    var replayedItems := 0;
    var index := 1;
    assert records[..1] == [records[0]] && Front(records[..1]) == [];
    while index < |records|
      invariant 1 <= index <= |records|
      invariant Fits(value) && fresh(value.tables) && fresh(value.slots) && OperationsIndexed(View(value))
      invariant replayedItems == |items| == value.itemSequence == ItemCount(records[..index])
      invariant Replay(records[..index], inherited) == Ok(Stored(View(value), items))
    {
      var record := records[index];
      assert records[..index + 1] == records[..index] + [record];
      ShapedAt(records, index);
      CountMore(records[..index], record);
      ReplayMore(records[..index], record, inherited);
      if Replay(records, inherited).Ok? {
        ReplayPrefix(records, index + 1, inherited);
      }
      hide Replay;
      hide ReplayOne;
      hide ItemCount;
      hide OperationsIndexed;
      var step, more := ReplayRecord(value, items, record, replayedItems, inherited);
      if step.Refused? {
        return Refused, items;
      }
      value, items := step.value, more;
      if record.ItemRecord? {
        replayedItems := replayedItems + 1;
      }
      index := index + 1;
    }
    assert records[..index] == records;
    r := Ok(value);
  }

  lemma {:induction false} ShapedAt(records: seq<LogRecord>, n: nat)
    requires Shaped(records) && n < |records|
    ensures ValidNext(records[..n], records[n])
  {
    hide ValidNext;
    if n < |records| - 1 {
      assert Front(records)[..n] == records[..n];
      ShapedAt(Front(records), n);
    }
  }

  /** Reading a log, as the loops of the source do it. */
  method DecodeLog(codec: Codec, file: Octets) returns (r: Result<Read>)
    ensures r.Refused? <==> Decode(codec, file).Refused?
    ensures r.Ok? ==>
              && Fits(r.value.head) && fresh(r.value.head.tables) && fresh(r.value.head.slots)
              && Decode(codec, file) == Ok(Decoded(Stored(View(r.value.head), r.value.items), r.value.committedSize))
  {
    var committedSize := CommittedSize(file);
    if committedSize == 0 {
      return Refused;
    }
    var lines := LogLines(Committed(file));
    assert lines != [];
    hide LogLines;
    var all, inherited := ScanRecords(codec, lines);
    if all.None? {
      return Refused;
    }
    ScanHeader(codec, lines);
    ScanShaped(codec, lines);
    hide Scan;
    hide Replay;
    var head, items := ReplayRecords(all.value, inherited);
    if head.Refused? {
      return Refused;
    }
    r := Ok(Read(head.value, items, committedSize));
  }

  /** The items taken over by a new session, one by one. */
  method InheritItems(session: Session, items: seq<Item>) returns (head: HeadRef, inherited: seq<Item>)
    ensures Fits(head) && fresh(head.tables) && fresh(head.slots)
    ensures Stored(View(head), inherited) == InheritAll(NewStored(session), items)
  {
    hide Stripped;
    head := NewHeadRef(session);
    inherited := [];
    var index := 0;
    while index < |items|
      invariant 0 <= index <= |items|
      invariant Fits(head) && fresh(head.tables) && fresh(head.slots)
      invariant Stored(View(head), inherited) == InheritAll(NewStored(session), items[..index])
    {
      assert items[..index + 1][..index] == items[..index];
      head := InheritItem(head, items[index]);
      inherited := inherited + [Stripped(items[index])];
      index := index + 1;
    }
    assert items[..index] == items;
  }

  /** A fork's write state and items, built by inheriting the parent's items one by one. */
  method BuildFork(items: seq<Item>, session: Session, previousTurn: string, ghost parent: Stored, parentID: string)
    returns (r: Result<Read>)
    requires parent.items == items && parent.head.session.id == parentID
    ensures r.Refused? <==> ForkStored(parent, session, previousTurn).Refused?
    ensures r.Ok? ==>
              && Fits(r.value.head) && fresh(r.value.head.tables) && fresh(r.value.head.slots)
              && ForkStored(parent, session, previousTurn) == Ok(Stored(View(r.value.head), r.value.items))
  {
    hide Boundary;
    var boundary := FindBoundary(items, previousTurn);
    if boundary < 0 {
      return Refused;
    }
    hide InheritAll;
    var head, inherited := InheritItems(session, items[..boundary + 1]);
    var next := head.itemSequence + 1;
    var tables := new Tables();
    tables.turns := head.tables.turns;
    var slots := new Operation[0];
    head := head.(itemSequence := next, tables := tables, slots := slots, count := 0);
    r := Ok(Read(head, inherited + [Item(next, session.createdAt, ForkItem(parentID, previousTurn))], 0));
  }

  /** The log of a new session, a record at a time. */
  method EncodeInitialLog(codec: Codec, session: Session, items: seq<Item>) returns (encoded: Option<Octets>)
    ensures encoded == InitialLog(codec, session, items)
  {
    hide RecordOf;
    hide ValidSessionID;
    hide EncodeRecord;
    InitialPrefix(codec, session, items, 0);
    assert items[..0] == [];
    if !ValidSessionID(session.id) {
      return None;
    }
    encoded := EncodeRecord(codec, SessionRecord(FORMAT_VERSION, session));
    if encoded.None? {
      return None;
    }
    var index := 0;
    while index < |items|
      invariant 0 <= index <= |items|
      invariant encoded.Some? && encoded == InitialLog(codec, session, items[..index])
    {
      var item := items[index];
      assert Front(items[..index + 1]) == items[..index] && Last(items[..index + 1]) == item;
      InitialPrefix(codec, session, items, index + 1);
      if item.sequence != index + 1 || item.recordedAt == 0 {
        return None;
      }
      var line := EncodeRecord(codec, RecordOf(item));
      if line.None? {
        return None;
      }
      encoded := Some(encoded.value + line.value);
      index := index + 1;
    }
    assert items[..index] == items;
  }

  /** A prefix that cannot be encoded spoils the whole. */
  lemma {:induction false} InitialPrefix(codec: Codec, session: Session, items: seq<Item>, n: nat)
    requires n <= |items|
    ensures InitialLog(codec, session, items[..n]).None? ==> InitialLog(codec, session, items).None?
  {
    if n < |items| {
      assert Front(items)[..n] == items[..n];
      InitialPrefix(codec, session, Front(items), n);
    } else {
      assert items[..n] == items;
    }
  }
}
