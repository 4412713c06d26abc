/** The session log as bytes: one encoded record a line, and the reader that rebuilds the state. */
module SessionCodec {
  import opened Bytes
  import opened Operations
  import opened Options
  import opened SessionTypes
  import opened SessionState
  import opened SessionHistory

  const FORMAT_VERSION := 2

  /** A record of the log. A status item keeps the operations it initializes beside itself. */
  datatype LogRecord =
    | SessionRecord(version: nat, session: Session)
    | ItemRecord(item: Item, operations: seq<Operation>)
    | OperationRecord(operation: Operation)

  /** JSON, abstractly: a partial encoding and a partial decoding. */
  datatype Codec = Codec(encode: LogRecord -> Option<Octets>, decode: Octets -> Option<LogRecord>)

  /** What is encoded decodes to the same record. */
  ghost predicate RoundTrips(codec: Codec) {
    forall r :: codec.encode(r).Some? ==> codec.decode(codec.encode(r).value) == Some(r)
  }

  predicate ValidSessionID(id: string) {
    id != "" && forall c :: c in id ==> 'a' <= c <= 'z' || 'A' <= c <= 'Z' || '0' <= c <= '9' || c == '-'
  }

  /** A session ID names a file: it is made of ASCII letters, digits and hyphens. */
  lemma SessionIDMeans(id: string)
    ensures ValidSessionID(id) <==>
            |id| > 0 && forall k :: 0 <= k < |id| ==>
              var code := id[k] as int;
              97 <= code <= 122 || 65 <= code <= 90 || 48 <= code <= 57 || code == 45
  {
    if ValidSessionID(id) {
      assert forall k :: 0 <= k < |id| ==> id[k] in id;
    } else if |id| > 0 {
      var c :| c in id && !('a' <= c <= 'z' || 'A' <= c <= 'Z' || '0' <= c <= '9' || c == '-');
      var k :| 0 <= k < |id| && id[k] == c;
    }
  }

  /** A line of the log, unless the encoding fails or would span lines. */
  function EncodeRecord(codec: Codec, r: LogRecord): Option<Octets> {
    match codec.encode(r)
    case None => None
    case Some(encoded) => if LF in encoded then None else Some(encoded + [LF])
  }

  function RecordOf(item: Item): LogRecord {
    match item.data
    case StatusItem(status) => ItemRecord(Stripped(item), status.operations)
    case _ => ItemRecord(item, [])
  }

  /** The log of a session that starts with the given items. */
  function InitialLog(codec: Codec, session: Session, items: seq<Item>): Option<Octets> {
    if items == [] then
      if ValidSessionID(session.id) then EncodeRecord(codec, SessionRecord(FORMAT_VERSION, session)) else None
    else
      match InitialLog(codec, session, Front(items))
      case None => None
      case Some(log) =>
        var item := Last(items);
        if item.sequence != |items| || item.recordedAt == 0 then None
        else
          match EncodeRecord(codec, RecordOf(item))
          case None => None
          case Some(line) => Some(log + line)
  }

  /** The length up to and including the last newline: what is committed. */
  function CommittedSize(file: Octets): (n: nat)
    ensures n <= |file|
    ensures n > 0 ==> file[n - 1] == LF
  {
    if file == [] then 0
    else if file[|file| - 1] == LF then |file|
    else CommittedSize(file[..|file| - 1])
  }

  function Committed(file: Octets): Octets {
    file[..CommittedSize(file)]
  }

  /** The lines of a file whose every line is ended. */
  function LogLines(file: Octets): seq<Octets>
    decreases |file|
  {
    if file == [] then []
    else
      var body := file[..|file| - 1];
      LogLines(Committed(body)) + [body[CommittedSize(body)..]]
  }

  function ItemCount(records: seq<LogRecord>): nat {
    if records == [] then 0 else ItemCount(Front(records)) + if Last(records).ItemRecord? then 1 else 0
  }

  /** The number of items up to the last fork. */
  function Inherited(records: seq<LogRecord>): (n: nat)
    ensures n <= ItemCount(records)
  {
    if records == [] then 0
    else if Last(records).ItemRecord? && Last(records).item.data.ForkItem? then ItemCount(records)
    else Inherited(Front(records))
  }

  predicate ValidHeader(r: LogRecord) {
    r.SessionRecord? && r.version == FORMAT_VERSION && ValidSessionID(r.session.id) && r.session.createdAt != 0
  }

  predicate ValidNext(before: seq<LogRecord>, r: LogRecord) {
    if before == [] then ValidHeader(r)
    else
      match r
      case SessionRecord(_, _) => false
      case ItemRecord(item, operations) =>
        item.sequence == ItemCount(before) + 1 && item.recordedAt != 0 && (item.data.StatusItem? || operations == [])
      case OperationRecord(_) => true
  }

  /** The first pass: every line decodes, and the records are numbered without a gap. */
  function Scan(codec: Codec, lines: seq<Octets>): (r: Option<seq<LogRecord>>)
    ensures r.Some? ==> |r.value| == |lines|
  {
    if lines == [] then Some([])
    else
      match Scan(codec, Front(lines))
      case None => None
      case Some(before) =>
        match codec.decode(Last(lines))
        case None => None
        case Some(r) => if ValidNext(before, r) then Some(before + [r]) else None
  }

  /** The request an item record stands for; a fork is not one. */
  function RequestOf(r: LogRecord): Option<Request> {
    match r
    case OperationRecord(op) => Some(SaveOperation(op))
    case SessionRecord(_, _) => None
    case ItemRecord(item, operations) =>
      match item.data
      case InputItem(input) => Some(AddInput(input))
      case TurnItem(turn) => Some(AddTurn(turn))
      case ResponseItem(response) => Some(AddResponse(response))
      case StatusItem(status) => Some(AddStatus(status.(operations := operations)))
      case ForkItem(_, _) => None
  }

  /** The second pass on one record; `replayed` items came before it. */
  function ReplayOne(st: Stored, r: LogRecord, replayed: nat, inherited: nat): Result<Stored> {
    if replayed < inherited then
      if r.ItemRecord? && r.operations == [] then Ok(Inherit(st, r.item)) else Refused
    else if RequestOf(r).None? then Refused
    else Apply(st, RequestOf(r).value, if r.ItemRecord? then r.item.recordedAt else 0)
  }

  function Replay(records: seq<LogRecord>, inherited: nat): Result<Stored>
    requires records != [] && records[0].SessionRecord?
  {
    if |records| == 1 then Ok(NewStored(records[0].session))
    else
      match Replay(Front(records), inherited)
      case Refused => Refused
      case Ok(st) => ReplayOne(st, Last(records), ItemCount(Front(records)), inherited)
  }

  datatype Decoded = Decoded(stored: Stored, committedSize: nat)

  function Decode(codec: Codec, file: Octets): Result<Decoded> {
    if CommittedSize(file) == 0 then Refused
    else
      match Scan(codec, LogLines(Committed(file)))
      case None => Refused
      case Some(records) =>
        assert records != [] && records[0].SessionRecord? by { ScanHeader(codec, LogLines(Committed(file))); }
        match Replay(records, Inherited(records))
        case Refused => Refused
        case Ok(st) => Ok(Decoded(st, CommittedSize(file)))
  }

  lemma {:induction false} ScanHeader(codec: Codec, lines: seq<Octets>)
    requires Scan(codec, lines).Some? && lines != []
    ensures ValidHeader(Scan(codec, lines).value[0])
  {
    if |lines| > 1 {
      ScanHeader(codec, Front(lines));
    }
  }

  lemma {:induction false} ScanPrefix(codec: Codec, lines: seq<Octets>, n: nat)
    requires n <= |lines| && Scan(codec, lines).Some?
    ensures Scan(codec, lines[..n]).Some? && Scan(codec, lines[..n]).value == Scan(codec, lines).value[..n]
  {
    if n < |lines| {
      assert Front(lines)[..n] == lines[..n];
      ScanPrefix(codec, Front(lines), n);
      assert Scan(codec, lines).value[..n] == Scan(codec, Front(lines)).value[..n];
    } else {
      assert lines[..n] == lines;
    }
  }

  /** One more line for the first pass. */
  lemma ScanMore(codec: Codec, lines: seq<Octets>, line: Octets)
    ensures Scan(codec, lines + [line]) ==
            if Scan(codec, lines).None? || codec.decode(line).None?
                || !ValidNext(Scan(codec, lines).value, codec.decode(line).value)
            then None else Some(Scan(codec, lines).value + [codec.decode(line).value])
  {
    hide ValidNext;
    assert Front(lines + [line]) == lines && Last(lines + [line]) == line;
  }

  lemma CountMore(records: seq<LogRecord>, r: LogRecord)
    ensures ItemCount(records + [r]) == ItemCount(records) + if r.ItemRecord? then 1 else 0
    ensures Inherited(records + [r]) ==
            if r.ItemRecord? && r.item.data.ForkItem? then ItemCount(records) + 1 else Inherited(records)
  {
    assert Front(records + [r]) == records && Last(records + [r]) == r;
  }

  lemma ReplayMore(records: seq<LogRecord>, r: LogRecord, inherited: nat)
    requires records != [] && records[0].SessionRecord?
    ensures Replay(records + [r], inherited) ==
            if Replay(records, inherited).Refused? then Refused
            else ReplayOne(Replay(records, inherited).value, r, ItemCount(records), inherited)
  {
    hide ReplayOne;
    assert Front(records + [r]) == records && Last(records + [r]) == r;
  }

  lemma {:induction false} ReplayPrefix(records: seq<LogRecord>, n: nat, inherited: nat)
    requires 0 < n <= |records| && records[0].SessionRecord?
    requires Replay(records, inherited).Ok?
    ensures Replay(records[..n], inherited).Ok?
  {
    if n < |records| {
      assert Front(records)[..n] == records[..n];
      ReplayPrefix(Front(records), n, inherited);
    } else {
      assert records[..n] == records;
    }
  }
}
