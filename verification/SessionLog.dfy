/** What the bytes of a session log keep: atomic appends, torn tails, and forks that read back. */
module SessionLog {
  import opened Bytes
  import opened Operations
  import opened Options
  import opened SessionTypes
  import opened SessionState
  import opened SessionHistory
  import opened SessionCodec

  lemma {:induction false} CommittedTail(file: Octets, tail: Octets)
    requires CommittedSize(file) == |file| && LF !in tail
    ensures CommittedSize(file + tail) == |file|
  {
    if tail == [] {
      assert file + tail == file;
    } else {
      var front := tail[..|tail| - 1];
      assert (file + tail)[..|file + tail| - 1] == file + front;
      CommittedTail(file, front);
    }
  }

  /** A line more at the end of a committed log. */
  lemma LinesMore(file: Octets, body: Octets)
    requires CommittedSize(file) == |file| && LF !in body
    ensures var more := file + (body + [LF]); CommittedSize(more) == |more| && LogLines(more) == LogLines(file) + [body]
  {
    var more := file + (body + [LF]);
    assert more[..|more| - 1] == file + body;
    CommittedTail(file, body);
    assert Committed(file + body) == file && (file + body)[|file|..] == body;
  }

  lemma {:induction false} CommittedTwice(file: Octets)
    ensures CommittedSize(Committed(file)) == |Committed(file)|
  {
    if file != [] && file[|file| - 1] != LF {
      CommittedTwice(file[..|file| - 1]);
      assert Committed(file[..|file| - 1]) == Committed(file);
    } else {
      assert Committed(file) == file;
    }
  }

  /** Bytes after the last newline are never seen. */
  lemma TornTailIgnored(codec: Codec, file: Octets, tail: Octets)
    requires CommittedSize(file) == |file| && LF !in tail
    ensures Decode(codec, file + tail) == Decode(codec, file)
    ensures Committed(file + tail) == file
  {
    hide Scan;
    hide Replay;
    hide LogLines;
    CommittedTail(file, tail);
    assert Committed(file + tail) == file == Committed(file);
  }

  /** Records as the first pass lets them through. */
  predicate Shaped(records: seq<LogRecord>) {
    records == [] || (Shaped(Front(records)) && ValidNext(Front(records), Last(records)))
  }

  /** A log begins with the session, in format 2 and with a valid ID and time, and goes on with operations and items;
      items are numbered from 1, have a time, and carry operations only if they are statuses. */
  lemma {:induction false} ShapedIff(records: seq<LogRecord>)
    ensures Shaped(records) <==>
            forall k :: 0 <= k < |records| ==>
              match records[k]
              case SessionRecord(version, session) =>
                k == 0 && version == 2 && session.createdAt != 0 && ValidSessionID(session.id)
              case ItemRecord(item, operations) =>
                && k > 0 && item.sequence == ItemCount(records[..k]) + 1 && item.recordedAt != 0
                && (operations != [] ==> item.data.StatusItem?)
              case OperationRecord(_) => k > 0
  {
    if records != [] {
      var front, n := Front(records), |records| - 1;
      ShapedIff(front);
      assert records[..n] == front && records[n] == Last(records);
      assert forall k :: 0 <= k < n ==> records[k] == front[k] && records[..k] == front[..k];
      hide ValidSessionID;
    }
  }

  lemma {:induction false} ScanShaped(codec: Codec, lines: seq<Octets>)
    requires Scan(codec, lines).Some?
    ensures Shaped(Scan(codec, lines).value)
  {
    hide ValidNext;
    if lines != [] {
      ScanShaped(codec, Front(lines));
      var before, r := Scan(codec, Front(lines)).value, codec.decode(Last(lines)).value;
      assert Front(before + [r]) == before && Last(before + [r]) == r;
    }
  }

  lemma CountAfter(head: Head, request: Request)
    requires Accepts(head, request)
    ensures After(head, request).session == head.session
    ensures After(head, request).itemSequence == head.itemSequence + if DataOf(request).Some? then 1 else 0
  {
    if request.AddStatus? {
      InitializeOnly(head, request.status.operations);
    }
    hide Initialize;
    hide Initializable;
    hide StatusReferences;
  }

  lemma CountsStep(st: Stored, r: LogRecord, replayed: nat, inherited: nat)
    requires !r.SessionRecord? && st.head.itemSequence == |st.items| == replayed && OperationsIndexed(st.head)
    requires r.ItemRecord? ==> r.item.sequence == replayed + 1
    requires ReplayOne(st, r, replayed, inherited).Ok?
    ensures var next := ReplayOne(st, r, replayed, inherited).value;
            && next.head.itemSequence == |next.items| == replayed + (if r.ItemRecord? then 1 else 0)
            && OperationsIndexed(next.head) && next.head.session == st.head.session
  {
    hide Accepts;
    if replayed >= inherited {
      IndexedAfter(st.head, RequestOf(r).value);
      CountAfter(st.head, RequestOf(r).value);
      hide After;
    }
  }

  /** A log that replays numbers its items without a gap, and indexes its operations. */
  lemma {:induction false} ReplayCounts(records: seq<LogRecord>, inherited: nat)
    requires records != [] && records[0].SessionRecord? && Shaped(records) && Replay(records, inherited).Ok?
    ensures var st := Replay(records, inherited).value;
            && st.head.itemSequence == |st.items| == ItemCount(records)
            && OperationsIndexed(st.head) && st.head.session == records[0].session
  {
    hide ReplayOne;
    if |records| == 1 {
      assert Front(records) == [];
    } else {
      var front := Front(records);
      ReplayCounts(front, inherited);
      CountsStep(Replay(front, inherited).value, Last(records), ItemCount(front), inherited);
    }
  }

  lemma DecodedCounts(codec: Codec, file: Octets)
    requires Decode(codec, file).Ok?
    ensures var st := Decode(codec, file).value.stored;
            st.head.itemSequence == |st.items| && OperationsIndexed(st.head)
  {
    hide Replay;
    var lines := LogLines(Committed(file));
    assert lines != [];
    hide LogLines;
    ScanHeader(codec, lines);
    ScanShaped(codec, lines);
    hide Scan;
    ReplayCounts(Scan(codec, lines).value, Inherited(Scan(codec, lines).value));
  }

  /** The record an accepted request leaves in the log. */
  function RecordFor(head: Head, request: Request, at: nat): LogRecord {
    match DataOf(request)
    case None => OperationRecord(request.operation)
    case Some(data) => RecordOf(Item(head.itemSequence + 1, at, data))
  }

  lemma RecordMeans(st: Stored, request: Request, at: nat)
    requires at != 0 && st.head.itemSequence == |st.items|
    ensures var r := RecordFor(st.head, request, at);
            && !r.SessionRecord?
            && RequestOf(r) == Some(request)
            && (r.ItemRecord? ==>
                  r.item.recordedAt == at && r.item.sequence == |st.items| + 1 && !r.item.data.ForkItem?)
            && (r.ItemRecord? ==> r.item.data.StatusItem? || r.operations == [])
            && (r.ItemRecord? <==> DataOf(request).Some?)
  {
  }

  /** Appending the record of an accepted request makes the log decode to the state the request means. */
  lemma AppendDecodes(codec: Codec, file: Octets, request: Request, at: nat, line: Octets)
    requires RoundTrips(codec) && at != 0 && CommittedSize(file) == |file|
    requires Decode(codec, file).Ok? && Accepts(Decode(codec, file).value.stored.head, request)
    requires EncodeRecord(codec, RecordFor(Decode(codec, file).value.stored.head, request, at)) == Some(line)
    ensures Decode(codec, file + line) ==
            Ok(Decoded(Apply(Decode(codec, file).value.stored, request, at).value, |file + line|))
  {
    var st := Decode(codec, file).value.stored;
    var r := RecordFor(st.head, request, at);
    DecodedCounts(codec, file);
    RecordMeans(st, request, at);
    var body := codec.encode(r).value;
    LinesMore(file, body);
    assert Committed(file) == file && Committed(file + line) == file + line;
    var lines := LogLines(file);
    hide LogLines;
    hide CommittedSize;
    ScanHeader(codec, lines);
    ScanShaped(codec, lines);
    ScanMore(codec, lines, body);
    var records := Scan(codec, lines).value;
    hide Scan;
    ReplayCounts(records, Inherited(records));
    CountMore(records, r);
    ReplayMore(records, r, Inherited(records));
    hide Replay;
    hide Accepts;
    hide After;
    hide RecordFor;
    hide ItemCount;
    hide Inherited;
  }

  /** A write that stops anywhere leaves the old state, unless all of the record is there. */
  lemma AppendAtomic(codec: Codec, file: Octets, request: Request, at: nat, line: Octets, written: nat)
    requires RoundTrips(codec) && at != 0 && CommittedSize(file) == |file|
    requires Decode(codec, file).Ok? && Accepts(Decode(codec, file).value.stored.head, request)
    requires EncodeRecord(codec, RecordFor(Decode(codec, file).value.stored.head, request, at)) == Some(line)
    requires written <= |line|
    ensures var torn := file + line[..written];
            && Decode(codec, torn) ==
               (if written < |line| then Decode(codec, file)
                else Ok(Decoded(Apply(Decode(codec, file).value.stored, request, at).value, |torn|)))
            && (written < |line| ==> Committed(torn) == file)
  {
    hide Decode;
    hide Accepts;
    hide Apply;
    if written < |line| {
      assert LF !in line[..written];
      TornTailIgnored(codec, file, line[..written]);
    } else {
      assert line[..written] == line;
      AppendDecodes(codec, file, request, at, line);
    }
  }

  /** The records of an initial log. */
  function InitialRecords(session: Session, items: seq<Item>): (r: seq<LogRecord>)
    ensures r != [] && r[0] == SessionRecord(FORMAT_VERSION, session)
  {
    if items == [] then [SessionRecord(FORMAT_VERSION, session)]
        else InitialRecords(session, Front(items)) + [RecordOf(Last(items))]
  }

  /** Items as a fork inherits them: a status names the operations it waited for but holds none. */
  predicate NoSnapshots(items: seq<Item>) {
    forall i :: 0 <= i < |items| ==> Stripped(items[i]) == items[i]
  }

  lemma {:induction false} InitialScan(codec: Codec, session: Session, items: seq<Item>)
    requires RoundTrips(codec) && session.createdAt != 0 && NoSnapshots(items)
    requires InitialLog(codec, session, items).Some?
    ensures var file := InitialLog(codec, session, items).value;
            && CommittedSize(file) == |file| > 0
            && Scan(codec, LogLines(file)) == Some(InitialRecords(session, items))
            && ItemCount(InitialRecords(session, items)) == |items|
  {
    if items == [] {
      var r := SessionRecord(FORMAT_VERSION, session);
      assert InitialRecords(session, items) == [] + [r];
      CountMore([], r);
      LinesMore([], codec.encode(r).value);
      assert [] + EncodeRecord(codec, r).value == EncodeRecord(codec, r).value;
      ScanMore(codec, [], codec.encode(r).value);
    } else {
      InitialScan(codec, session, Front(items));
      var before := InitialLog(codec, session, Front(items)).value;
      var r := RecordOf(Last(items));
      var body := codec.encode(r).value;
      LinesMore(before, body);
      ScanMore(codec, LogLines(before), body);
      assert Stripped(items[|items| - 1]) == items[|items| - 1];
      CountMore(InitialRecords(session, Front(items)), r);
      hide LogLines;
      hide CommittedSize;
      hide Scan;
      hide ItemCount;
    }
  }

  lemma {:induction false} InitialReplay(session: Session, items: seq<Item>, inherited: nat)
    requires NoSnapshots(items) && |items| <= inherited
    requires ItemCount(InitialRecords(session, items)) == |items|
    ensures Replay(InitialRecords(session, items), inherited) == Ok(InheritAll(NewStored(session), items))
  {
    if items != [] {
      var before, r := InitialRecords(session, Front(items)), RecordOf(Last(items));
      CountMore(before, r);
      hide ItemCount;
      InitialReplay(session, Front(items), inherited);
      ReplayMore(before, r, inherited);
      hide Replay;
      assert Stripped(items[|items| - 1]) == items[|items| - 1];
    }
  }

  /** Every item of an initial log that ends with its fork is inherited. */
  lemma InitialInherited(session: Session, items: seq<Item>)
    requires items != [] ==> Last(items).data.ForkItem?
    requires ItemCount(InitialRecords(session, items)) == |items|
    ensures Inherited(InitialRecords(session, items)) == |items|
  {
    if items != [] {
      CountMore(InitialRecords(session, Front(items)), RecordOf(Last(items)));
    } else {
      assert InitialRecords(session, items) == [] + [SessionRecord(FORMAT_VERSION, session)];
      CountMore([], SessionRecord(FORMAT_VERSION, session));
    }
  }

  /** A published initial log reads back as the inherited items, provided it ends with its fork. */
  lemma InitialDecodes(codec: Codec, session: Session, items: seq<Item>)
    requires RoundTrips(codec) && session.createdAt != 0 && NoSnapshots(items)
    requires items != [] ==> Last(items).data.ForkItem?
    requires InitialLog(codec, session, items).Some?
    ensures var file := InitialLog(codec, session, items).value;
            Decode(codec, file) == Ok(Decoded(InheritAll(NewStored(session), items), |file|))
  {
    hide Replay;
    hide Scan;
    hide LogLines;
    hide CommittedSize;
    hide InheritAll;
    hide InitialLog;
    hide InitialRecords;
    hide Inherited;
    hide ItemCount;
    InitialScan(codec, session, items);
    var file := InitialLog(codec, session, items).value;
    assert Committed(file) == file;
    InitialInherited(session, items);
    InitialReplay(session, items, |items|);
  }

  /** Inheriting again what was inherited before changes nothing. */
  lemma {:induction false} InheritStripped(session: Session, items: seq<Item>)
    ensures InheritAll(NewStored(session), StrippedAll(items)) == InheritAll(NewStored(session), items)
    ensures NoSnapshots(StrippedAll(items))
  {
    if items != [] {
      assert Front(StrippedAll(items)) == StrippedAll(Front(items));
      InheritStripped(session, Front(items));
    }
  }

  /** The log a fork publishes decodes to the state the fork built, at any depth of forks. */
  lemma ForkRoundTrip(codec: Codec, parent: Stored, session: Session, previousTurn: string)
    requires RoundTrips(codec) && WellFormed(parent) && session.createdAt != 0
    requires ForkStored(parent, session, previousTurn).Ok?
    requires InitialLog(codec, session, ForkStored(parent, session, previousTurn).value.items).Some?
    ensures var child := ForkStored(parent, session, previousTurn).value;
            var file := InitialLog(codec, session, child.items).value;
            Decode(codec, file) == Ok(Decoded(child, |file|))
  {
    ForkReinherits(parent, session, previousTurn);
    hide ForkStored;
    hide InheritAll;
    hide WellFormed;
    InitialDecodes(codec, session, ForkStored(parent, session, previousTurn).value.items);
  }

  lemma ForkReinherits(parent: Stored, session: Session, previousTurn: string)
    requires WellFormed(parent) && ForkStored(parent, session, previousTurn).Ok?
    ensures var child := ForkStored(parent, session, previousTurn).value;
            && InheritAll(NewStored(session), child.items) == child
            && NoSnapshots(child.items) && child.items != [] && Last(child.items).data.ForkItem?
  {
    hide Boundary;
    hide HeadFollows;
    var kept := parent.items[..Boundary(parent.items, 0, previousTurn, -1) + 1];
    LawfulPrefix(parent.items, |kept|);
    hide Lawful;
    hide SameReading;
    InheritFollows(session, kept);
    InheritStripped(session, kept);
    var child := ForkStored(parent, session, previousTurn).value;
    var last := child.items[|child.items| - 1];
    assert child.items == StrippedAll(kept) + [last];
    InheritMore(session, StrippedAll(kept), last);
    hide InheritAll;
  }

  lemma InheritMore(session: Session, items: seq<Item>, item: Item)
    ensures InheritAll(NewStored(session), items + [item]) == Inherit(InheritAll(NewStored(session), items), item)
  {
    assert (items + [item])[..|items + [item]| - 1] == items;
  }
}
