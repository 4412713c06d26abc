/** Events that primitives send back, and the file reader that streams a range. */
module Primitives {
  import opened Bytes
  import opened Options

  datatype CreateKind = RegularFile | Directory

  /** `None` stands for a result of the wrong type. */
  datatype EventKind =
    | Failed(error: Option<Octets>)
    | Canceled
    | CreateCompleted(kind: Option<CreateKind>)
    | ProcessStarted(pid: Option<int>)
    | ProcessExited(exit: Option<ProcessExit>)
    | ProcessOutput
    | ProcessStreamFailed
    | ReadOutput(output: Option<ReadData>)
    | ReadCompleted(size: Option<int>)
    | ComputeCompleted

  /** The events after which a primitive sends nothing more. */
  predicate Completes(kind: EventKind) {
    || kind.CreateCompleted? || kind.ReadCompleted? || kind.ProcessExited? || kind.Failed? || kind.Canceled?
    || kind.ComputeCompleted?
  }

  /** All that one primitive sends: its last event completes it, and no other does. */
  ghost predicate Stream(events: seq<Event>, source: string) {
    && events != []
    && forall i :: 0 <= i < |events| ==>
       events[i].source == source && (Completes(events[i].kind) <==> i == |events| - 1)
  }

  datatype ProcessExit = ProcessExit(code: int, signal: int)

  datatype ReadData = ReadData(offset: int, data: Octets)

  datatype Event = Event(source: string, correlation: string, kind: EventKind)

  datatype ReadRequest = ReadRequest(source: string, correlation: string, path: string, offset: nat, count: nat)

  const READ_CHUNK_SIZE := 32 * 1024

  function Min(a: int, b: int): int { if a < b then a else b }

  /** The bytes a request selects from a file. */
  function Window(request: ReadRequest, file: Octets): Octets {
    if request.offset < |file| then file[request.offset..Min(request.offset + request.count, |file|)] else []
  }

  function Answer(request: ReadRequest, kind: EventKind): Event {
    Event(request.source, request.correlation, kind)
  }

  /** Output events for consecutive chunks that start at `offset`. */
  function Outputs(request: ReadRequest, offset: nat, chunks: seq<Octets>): seq<Event>
    decreases |chunks|
  {
    if chunks == [] then [] else
      [Answer(request, ReadOutput(Some(ReadData(offset, chunks[0]))))]
      + Outputs(request, offset + |chunks[0]|, chunks[1..])
  }

  lemma {:induction false} OutputsSplit(request: ReadRequest, offset: nat, a: seq<Octets>, b: seq<Octets>)
    ensures Outputs(request, offset, a + b) ==
            Outputs(request, offset, a) + Outputs(request, offset + |Concat(a)|, b)
    decreases |a|
  {
    if a == [] {
      assert a + b == b;
    } else {
      assert (a + b)[1..] == a[1..] + b;
      OutputsSplit(request, offset + |a[0]|, a[1..], b);
    }
  }

  lemma {:induction false} OutputsRunning(request: ReadRequest, offset: nat, chunks: seq<Octets>)
    ensures forall event :: event in Outputs(request, offset, chunks) ==>
              event.source == request.source && event.kind.ReadOutput?
    decreases |chunks|
  {
    if chunks != [] {
      OutputsRunning(request, offset + |chunks[0]|, chunks[1..]);
    }
  }

  /** Outputs and a terminal event are a whole stream. */
  lemma ReadStream(request: ReadRequest, chunks: seq<Octets>, end: Event, events: seq<Event>)
    requires end.source == request.source && Completes(end.kind)
    requires events != [] && events[..|events| - 1] == Outputs(request, request.offset, chunks)
    requires events[|events| - 1] == end
    ensures Stream(events, request.source)
  {
    OutputsRunning(request, request.offset, chunks);
    hide Outputs;
    forall i | 0 <= i < |events| - 1
      ensures events[i].source == request.source && events[i].kind.ReadOutput?
    {
      assert events[i] == events[..|events| - 1][i];
      assert events[i] in Outputs(request, request.offset, chunks);
    }
  }

  function Range(file: Octets, low: nat, high: nat): Octets {
    if low <= high <= |file| then file[low..high] else []
  }

  lemma Streamed(request: ReadRequest, file: Octets, chunks: seq<Octets>, from: nat, data: Octets)
    requires request.offset <= from && from + |data| <= |file| && data == file[from..from + |data|]
    requires Concat(chunks) == Range(file, request.offset, from)
    ensures Outputs(request, request.offset, chunks + [data]) ==
            Outputs(request, request.offset, chunks) + [Answer(request, ReadOutput(Some(ReadData(from, data))))]
    ensures Concat(chunks + [data]) == Range(file, request.offset, from + |data|)
  {
    OutputsSplit(request, request.offset, chunks, [data]);
    ConcatLast(chunks, data);
    assert [data][1..] == [];
  }

  lemma NothingStreamed(request: ReadRequest, file: Octets)
    ensures Outputs(request, request.offset, []) == []
    ensures Concat([]) == Range(file, request.offset, request.offset)
  {
  }

  lemma RangeInWindow(request: ReadRequest, file: Octets, from: nat)
    requires request.offset <= from <= request.offset + request.count && (from <= |file| || from == request.offset)
    ensures Range(file, request.offset, from) <= Window(request, file)
    ensures from == request.offset + request.count || from >= |file| ==>
              Range(file, request.offset, from) == Window(request, file)
  {
  }

  /** What may interrupt one round of the reader's loop, or its end. */
  datatype Fault = Proceed | Cancel | IOError

  /** How many rounds reading `total` bytes takes. */
  function Rounds(total: nat): nat { (total + READ_CHUNK_SIZE - 1) / READ_CHUNK_SIZE }

  /** The bytes asked for of a file that was `size` bytes when it was opened. */
  function Total(request: ReadRequest, size: nat): nat {
    if request.offset < size then Min(request.count, size - request.offset) else 0
  }

  /** No round the reader gets to is interrupted, and the file holds what is asked for. */
  ghost predicate ReadsThrough(request: ReadRequest, file: Octets, size: nat, faults: seq<Fault>) {
    && (forall i :: 0 <= i < |faults| && i < Rounds(Total(request, size)) ==> faults[i] == Proceed)
    && (Total(request, size) > 0 ==> request.offset + Total(request, size) <= |file|)
  }

  method Interrupted(request: ReadRequest, fault: Fault, closeFails: bool) returns (event: Event)
    requires fault != Proceed
    ensures event == Answer(request, event.kind)
    ensures if fault == IOError || closeFails then event.kind.Failed? else event.kind.Canceled?
  {
    if fault == IOError || closeFails {
      event := Answer(request, Failed(Some([])));
    } else {
      event := Answer(request, Canceled);
    }
  }

  lemma RoundsLeft(total: nat, round: nat)
    ensures round * READ_CHUNK_SIZE < total <==> round < Rounds(total)
  {
  }

  /** Streams the requested range of a file whose size was `size` when it was opened.
      `file` is what reading finds, `faults` what each round meets, `last` what the end meets, and `late` whether
      the reader is canceled once the file is closed. */
  method StreamOpenFile(request: ReadRequest, file: Octets, size: nat, faults: seq<Fault>, last: Fault,
      closeFails: bool, sizeAfter: nat, late: bool)
      returns (events: seq<Event>, ghost chunks: seq<Octets>)
    ensures events != [] && events[..|events| - 1] == Outputs(request, request.offset, chunks)
    ensures Concat(chunks) <= Window(request, file)
    ensures forall c :: c in chunks ==> 0 < |c| <= READ_CHUNK_SIZE
    ensures var end := events[|events| - 1];
            && end == Answer(request, end.kind)
            && (end.kind.Failed? || end.kind.Canceled? || end.kind == ReadCompleted(Some(size)))
    ensures events[|events| - 1].kind.ReadCompleted? <==>
            ReadsThrough(request, file, size, faults) && last == Proceed && sizeAfter == size && !closeFails && !late
    ensures closeFails ==> events[|events| - 1].kind.Failed?
    ensures events[|events| - 1].kind.Canceled? ==> late || last == Cancel || Cancel in faults
    ensures events[|events| - 1].kind.Failed? ==>
              || closeFails || last == IOError || IOError in faults || sizeAfter != size
              || request.offset + Total(request, size) > |file|
    ensures events[|events| - 1].kind.ReadCompleted? && |file| == size ==> Concat(chunks) == Window(request, file)
    ensures Stream(events, request.source)
  {
    hide Stream;
    hide Outputs;
    hide Concat;
    hide Window;
    hide Range;
    hide Rounds;
    NothingStreamed(request, file);
    events, chunks := [], [];
    var remaining := 0;
    if request.offset < size {
      remaining := Min(request.count, size - request.offset);
    }
    ghost var total := remaining;
    var fileOffset := request.offset;
    var round := 0;
    RoundsLeft(total, 0);
    while remaining > 0
      invariant 0 <= remaining <= total && fileOffset == request.offset + (total - remaining)
      invariant events == Outputs(request, request.offset, chunks)
      invariant Concat(chunks) == Range(file, request.offset, fileOffset)
      invariant remaining < total ==> fileOffset <= |file|
      invariant total == Total(request, size)
      invariant forall c :: c in chunks ==> 0 < |c| <= READ_CHUNK_SIZE
      invariant forall i :: 0 <= i < |faults| && i < round ==> faults[i] == Proceed
      invariant remaining > 0 ==> total - remaining == round * READ_CHUNK_SIZE
      invariant remaining == 0 ==> Rounds(total) <= round
      decreases remaining
    {
      RoundsLeft(total, round);
      var fault := if round < |faults| then faults[round] else Proceed;
      assert round < |faults| ==> fault in faults;
      var want := Min(remaining, READ_CHUNK_SIZE);
      if fault == Proceed && fileOffset + want > |file| {
        fault := IOError;
      }
      if fault != Proceed {
        var end := Interrupted(request, fault, closeFails);
        RangeInWindow(request, file, fileOffset);
        ReadStream(request, chunks, end, events + [end]);
        events := events + [end];
        return;
      }
      round := round + 1;
      RoundsLeft(total, round);
      var data := file[fileOffset..fileOffset + want];
      Streamed(request, file, chunks, fileOffset, data);
      events := events + [Answer(request, ReadOutput(Some(ReadData(fileOffset, data))))];
      chunks := chunks + [data];
      fileOffset := fileOffset + want;
      remaining := remaining - want;
    }
    RangeInWindow(request, file, fileOffset);
    var end;
    if last != Proceed {
      end := Interrupted(request, last, closeFails);
    } else if sizeAfter != size || closeFails {
      end := Answer(request, Failed(Some([])));
    } else if late {
      end := Answer(request, Canceled);
    } else {
      end := Answer(request, ReadCompleted(Some(size)));
    }
    ReadStream(request, chunks, end, events + [end]);
    events := events + [end];
  }

  /** How making a path ends. */
  datatype Making = Made | NotMade | GivenUp

  /** Making a path is one event. */
  method CreatePath(source: string, correlation: string, kind: CreateKind, making: Making)
    returns (events: seq<Event>)
    ensures Stream(events, source) && |events| == 1 && events[0].correlation == correlation
    ensures events[0].kind.CreateCompleted? <==> making.Made?
    ensures making.Made? ==> events[0].kind == CreateCompleted(Some(kind))
    ensures events[0].kind.Canceled? <==> making.GivenUp?
  {
    match making
    case GivenUp => events := [Event(source, correlation, Canceled)];
    case NotMade => events := [Event(source, correlation, Failed(Some([])))];
    case Made => events := [Event(source, correlation, CreateCompleted(Some(kind)))];
  }

  /** How starting a process ends, and how the process does. */
  datatype Starting = Invalid | CanceledFirst | CannotStart | Launched(pid: int)

  datatype Leaving = Exits(exit: ProcessExit) | Killed

  /** A process started without pipes: its start, unless nobody listens any more, and then its end. `closes` is
      whether everything around it is closed without an error. */
  method RunProcess(source: string, correlation: string, starting: Starting, listens: bool, leaving: Leaving,
      closes: bool)
      returns (events: seq<Event>)
    ensures Stream(events, source)
    ensures forall event :: event in events ==> event.correlation == correlation
    ensures var end := events[|events| - 1].kind;
            && (end.ProcessExited? <==> starting.Launched? && leaving.Exits? && closes)
            && (end.ProcessExited? ==> end.exit == Some(leaving.exit))
            && (starting.Launched? && !closes ==> end.Failed?)
    ensures |events| == if starting.Launched? && listens then 2 else 1
    ensures |events| == 2 ==> events[0].kind == ProcessStarted(Some(starting.pid))
  {
    match starting {
      case Invalid => return [Event(source, correlation, Failed(Some([])))];
      case CanceledFirst =>
        return [Event(source, correlation, if closes then Canceled else Failed(Some([])))];
      case CannotStart => return [Event(source, correlation, Failed(Some([])))];
      case Launched(pid) =>
        events := if listens then [Event(source, correlation, ProcessStarted(Some(pid)))] else [];
    }
    if !closes {
      events := events + [Event(source, correlation, Failed(Some([])))];
    } else if leaving.Killed? {
      events := events + [Event(source, correlation, Canceled)];
    } else {
      events := events + [Event(source, correlation, ProcessExited(Some(leaving.exit)))];
    }
  }

  /** A computation is one event. */
  method Compute(source: string, correlation: string, canceled: bool, fails: bool) returns (events: seq<Event>)
    ensures Stream(events, source) && |events| == 1
    ensures events[0].kind.ComputeCompleted? <==> !canceled && !fails
  {
    if canceled {
      return [Event(source, correlation, Canceled)];
    }
    if fails {
      return [Event(source, correlation, Failed(Some([])))];
    }
    events := [Event(source, correlation, ComputeCompleted)];
  }
}
