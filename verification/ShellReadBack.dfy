/** Reading back what a process wrote, from its exit or from any checkpoint after it. */
module ShellReadBack {
  import opened Bytes
  import opened Operations
  import opened Options
  import opened Output
  import opened OutputWindow
  import opened Primitives
  import opened Shell
  import opened ShellRun

  /** The events of one primitive, in order; the step of the last one is the step that counts. */
  function HandleAll(m: Machine, events: seq<Event>): Outcome
    decreases |events|
  {
    if events == [] then Handled(m, Step(None, []))
    else
      match Handle(m, Some(events[0]))
      case Handled(next, step) => if |events| == 1 then Handled(next, step) else HandleAll(next, events[1..])
      case Refused => Refused
      case Panicked => Panicked
  }

  /** What the reader sends for a request, cut into these chunks. */
  function Reading(request: ReadRequest, chunks: seq<Octets>, size: nat): seq<Event> {
    Outputs(request, request.offset, chunks) + [Answer(request, ReadCompleted(Some(size)))]
  }

  /** A machine in a read phase whose request is `request`. */
  ghost predicate Reads(m: Machine, request: ReadRequest, paths: Paths) {
    && m.head.status == StatusAwaiting && IsRead(m.state.phase)
    && ShellPaths(m.state.baseDirectory, m.head.id) == Some(paths)
    && Request(m, paths) == Some(request)
  }

  lemma ReadsRequest(m: Machine, request: ReadRequest, paths: Paths)
    requires Reads(m, request, paths)
    ensures request.source == m.head.id && request.correlation == Correlation(m.state.phase)
    ensures forall kind: EventKind :: !kind.Failed? && !kind.Canceled? ==>
              Handle(m, Some(Answer(request, kind))) == ReadPhase(m, Answer(request, kind), paths)
  {
    hide Correlation;
    hide ReadPhase;
    hide Fail;
  }

  lemma OneOutput(m: Machine, request: ReadRequest, paths: Paths, chunk: Octets)
    requires Reads(m, request, paths) && m.readSize + |chunk| <= request.count
    ensures var next := m.(chunks := m.chunks + [chunk], readSize := m.readSize + |chunk|);
            && Handle(m, Some(Answer(request, ReadOutput(Some(ReadData(request.offset + m.readSize, chunk)))))) ==
               Handled(next, Step(None, []))
            && Reads(next, request, paths)
  {
    hide Handle;
    hide Correlation;
    hide ReadDone;
    hide Fail;
    ReadsRequest(m, request, paths);
  }

  lemma {:induction false} OutputsHandled(m: Machine, request: ReadRequest, paths: Paths, chunks: seq<Octets>,
      last: Event)
    requires Reads(m, request, paths) && m.readSize + |Concat(chunks)| <= request.count
    ensures var next := m.(chunks := m.chunks + chunks, readSize := m.readSize + |Concat(chunks)|);
            && HandleAll(m, Outputs(request, request.offset + m.readSize, chunks) + [last]) == HandleAll(next, [last])
            && Reads(next, request, paths)
    decreases |chunks|
  {
    hide Handle;
    hide Reads;
    hide Request;
    if chunks == [] {
      assert m.chunks + [] == m.chunks;
    } else {
      OneOutput(m, request, paths, chunks[0]);
      var mid := m.(chunks := m.chunks + [chunks[0]], readSize := m.readSize + |chunks[0]|);
      OutputsHandled(mid, request, paths, chunks[1..], last);
      assert m.chunks + [chunks[0]] + chunks[1..] == m.chunks + chunks;
      var all := Outputs(request, request.offset + m.readSize, chunks) + [last];
      assert all[1..] == Outputs(request, request.offset + mid.readSize, chunks[1..]) + [last];
    }
  }

  /** However the reader cuts the range, the machine ends up with the range. */
  lemma OneRead(m: Machine, request: ReadRequest, paths: Paths, file: Octets, chunks: seq<Octets>)
    requires Reads(m, request, paths) && m.chunks == [] && m.readSize == 0
    requires Concat(chunks) == Window(request, file) && request.offset <= |file|
    requires IsTail(m.state.phase) ==> |file| == request.offset + request.count
    ensures HandleAll(m, Reading(request, chunks, |file|)) == ReadDone(m, Window(request, file), |file|, paths)
  {
    hide Handle;
    hide ReadDone;
    hide Outputs;
    hide Concat;
    hide Window;
    hide Reads;
    var done := Answer(request, ReadCompleted(Some(|file|)));
    assert m.readSize + |Concat(chunks)| <= request.count by { WindowFits(request, file); }
    OutputsHandled(m, request, paths, chunks, done);
    var next := m.(chunks := m.chunks + chunks, readSize := m.readSize + |Concat(chunks)|);
    assert m.chunks + chunks == chunks;
    LastEvent(next, request, paths, file);
    assert next.(chunks := [], readSize := 0) == m;
  }

  lemma WindowFits(request: ReadRequest, file: Octets)
    requires request.offset <= |file|
    ensures |Window(request, file)| == Min(request.count, |file| - request.offset)
  {
  }

  /** The completion event hands over what was collected. */
  lemma LastEvent(next: Machine, request: ReadRequest, paths: Paths, file: Octets)
    requires Reads(next, request, paths) && request.offset <= |file|
    requires Concat(next.chunks) == Window(request, file) && next.readSize == |Concat(next.chunks)|
    requires IsTail(next.state.phase) ==> |file| == request.offset + request.count
    ensures HandleAll(next, [Answer(request, ReadCompleted(Some(|file|)))]) ==
            ReadDone(next.(chunks := [], readSize := 0), Window(request, file), |file|, paths)
  {
    hide ReadDone;
    hide Concat;
    hide Window;
    hide Fail;
    hide Handle;
    hide Correlation;
    WindowFits(request, file);
    ReadsRequest(next, request, paths);
    var done := Answer(request, ReadCompleted(Some(|file|)));
    assert |[done]| == 1 && [done][0] == done;
  }

  /** A stream as the state keeps it once it is read. */
  ghost predicate Kept(head: Octets, tail: Octets, text: Octets, limit: nat) {
    if |text| <= ReadLimit(limit) then head == text && tail == []
    else head == text[..ReadLimit(limit) - TailReadLimit(limit)] && tail == text[|text| - TailReadLimit(limit)..]
  }

  ghost predicate KeptHead(head: Octets, tail: Octets, text: Octets, limit: nat) {
    |text| > ReadLimit(limit) && head == text[..ReadLimit(limit) - TailReadLimit(limit)] && tail == []
  }

  /** A checkpoint in a read phase after the process exited with `code` leaving `out` and `err`. */
  ghost predicate ReadingBack(c: Checkpoint, out: Octets, err: Octets, code: int, paths: Paths) {
    && SoundCheckpoint(c) && c.head.status == StatusAwaiting && IsRead(c.state.phase)
    && ShellPaths(c.state.baseDirectory, c.head.id) == Some(paths)
    && c.state.pendingExitCode == Some(code)
    && (c.state.phase == PhaseReadOutTail ==>
          c.state.outSize == |out| && KeptHead(c.state.inlineOut, c.state.inlineOutTail, out, c.head.maxOutputLength))
    && (c.state.phase == PhaseReadErr || c.state.phase == PhaseReadErrTail ==>
          c.state.outSize == |out| && Kept(c.state.inlineOut, c.state.inlineOutTail, out, c.head.maxOutputLength))
    && (c.state.phase == PhaseReadErrTail ==>
          c.state.errSize == |err| && KeptHead(c.state.inlineErr, c.state.inlineErrTail, err, c.head.maxOutputLength))
  }

  /** An operation's end as it is saved: its result, where the complete streams are, and whether they were cut. */
  datatype Finished = Finished(result: ShellResult, outPath: string, errPath: string, outCut: bool, errCut: bool)

  /** What the operation must show: the bounding of the complete streams. */
  function WholeResult(out: Octets, err: Octets, code: int, limit: nat, paths: Paths): Finished {
    Finished(
      ShellResult(Shown(Whole(out, limit), Text(paths.out)), Shown(Whole(err, limit), Text(paths.err)), |out|, |err|,
                  code),
      paths.out, paths.err, Whole(out, limit).Cut?, Whole(err, limit).Cut?)
  }

  lemma KeptIsWhole(head: Octets, tail: Octets, text: Octets, limit: nat)
    requires limit >= 1 && Kept(head, tail, text, limit)
    ensures (tail == [] ==> |text| == |head|) && BoundedOutput(head, tail, |text|, limit) == Whole(text, limit)
  {
    hide Whole;
    hide BoundedOutput;
    if |text| > ReadLimit(limit) {
      WindowedIsWhole(text, limit);
    } else {
      assert Whole(text, limit) == BoundedOutput(text, [], |text|, limit) by { WholeMeans(text, limit); }
    }
  }

  lemma WholeMeans(text: Octets, limit: nat)
    ensures Whole(text, limit) == BoundedOutput(text, [], |text|, limit)
  {
  }

  /** The end has been saved. */
  ghost predicate Shows(c: Checkpoint, end: Finished) {
    && c.head.status == StatusCompleted && c.state.result == Some(end.result)
    && c.state.outPath == end.outPath && c.state.errPath == end.errPath
    && c.state.outTruncated == end.outCut && c.state.errTruncated == end.errCut
  }

  ghost predicate CompletesWith(o: Outcome, end: Finished) {
    o.Handled? && o.step.checkpoint.Some? && o.step.dispatches == [] && Shows(o.step.checkpoint.value, end)
  }

  lemma FinishShowsWhole(m: Machine, out: Octets, err: Octets, code: int, paths: Paths)
    requires m.head.maxOutputLength >= 1
    requires m.state.pendingExitCode == Some(code) && m.state.outSize == |out| && m.state.errSize == |err|
    requires Kept(m.state.inlineOut, m.state.inlineOutTail, out, m.head.maxOutputLength)
    requires Kept(m.state.inlineErr, m.state.inlineErrTail, err, m.head.maxOutputLength)
    ensures CompletesWith(Finish(m, paths), WholeResult(out, err, code, m.head.maxOutputLength, paths))
  {
    hide Whole;
    hide BoundedOutput;
    hide Shown;
    hide Text;
    hide Kept;
    KeptIsWhole(m.state.inlineOut, m.state.inlineOutTail, out, m.head.maxOutputLength);
    KeptIsWhole(m.state.inlineErr, m.state.inlineErrTail, err, m.head.maxOutputLength);
  }

  /** How the reader happens to cut each of the four possible reads. */
  datatype Cuts = Cuts(out: seq<Octets>, outTail: seq<Octets>, err: seq<Octets>, errTail: seq<Octets>)

  function CutOf(cuts: Cuts, phase: Phase): seq<Octets> {
    match phase
    case PhaseReadOut => cuts.out
    case PhaseReadOutTail => cuts.outTail
    case PhaseReadErr => cuts.err
    case _ => cuts.errTail
  }

  function StreamOf(out: Octets, err: Octets, phase: Phase): Octets {
    if phase == PhaseReadOut || phase == PhaseReadOutTail then out else err
  }

  function FirstBytes(text: Octets, n: nat): Octets { if n <= |text| then text[..n] else text }

  function LastBytes(text: Octets, n: nat): Octets { if n <= |text| then text[|text| - n..] else text }

  /** The cuts are of the bytes that the four reads select. */
  ghost predicate CutsOf(cuts: Cuts, out: Octets, err: Octets, limit: nat) {
    && Concat(cuts.out) == FirstBytes(out, ReadLimit(limit)) && Concat(cuts.err) == FirstBytes(err, ReadLimit(limit))
    && Concat(cuts.outTail) == LastBytes(out, TailReadLimit(limit))
       && Concat(cuts.errTail) == LastBytes(err, TailReadLimit(limit))
  }

  /** The files a process has written are where the operation's paths say. */
  ghost predicate OnDisk(files: map<string, Octets>, paths: Paths, out: Octets, err: Octets) {
    paths.out in files && files[paths.out] == out && paths.err in files && files[paths.err] == err
  }

  function FileAt(files: map<string, Octets>, path: string): Octets {
    if path in files then files[path] else []
  }

  /** Serves the reads the machine asks for, from the files they name, until it asks for none. */
  function ServeReads(m: Machine, files: map<string, Octets>, cuts: Cuts, paths: Paths): Outcome
    requires IsRead(m.state.phase)
    decreases 9 - Rank(m.state.phase)
  {
    match Request(m, paths)
    case None => Panicked
    case Some(request) =>
      var o := HandleAll(m, Reading(request, CutOf(cuts, m.state.phase), |FileAt(files, request.path)|));
      if o.Handled? && IsRead(o.machine.state.phase) && Rank(o.machine.state.phase) > Rank(m.state.phase) then
        ServeReads(o.machine, files, cuts, paths)
      else o
  }

  lemma FirstWindow(request: ReadRequest, file: Octets)
    requires request.offset == 0
    ensures Window(request, file) == FirstBytes(file, request.count)
  {
  }

  lemma LastWindow(request: ReadRequest, file: Octets)
    requires request.offset + request.count == |file|
    ensures Window(request, file) == LastBytes(file, request.count)
  {
  }

  /** What a read phase asks for: its own stream's file, from the start or up to the end. */
  lemma RequestFacts(c: Checkpoint, out: Octets, err: Octets, code: int, paths: Paths)
    requires ReadingBack(c, out, err, code, paths)
    ensures var m, file := Loaded(c), StreamOf(out, err, c.state.phase);
            && Request(m, paths).Some?
            && var request := Request(m, paths).value;
            && Reads(m, request, paths)
            && request.path == (if c.state.phase == PhaseReadOut || c.state.phase == PhaseReadOutTail then paths.out
                                else paths.err)
            && request.offset <= |file|
            && request.count == (if IsTail(c.state.phase) then TailReadLimit(Limit(m)) else ReadLimit(Limit(m)))
            && (if IsTail(c.state.phase) then |file| == request.offset + request.count else request.offset == 0)
  {
    hide Correlation;
    hide ShellPaths;
    hide Kept;
  }

  lemma RequestWindow(c: Checkpoint, out: Octets, err: Octets, code: int, cuts: Cuts, paths: Paths)
    requires ReadingBack(c, out, err, code, paths) && CutsOf(cuts, out, err, c.head.maxOutputLength)
    ensures var m, file := Loaded(c), StreamOf(out, err, c.state.phase);
            && Request(m, paths).Some?
            && var request := Request(m, paths).value;
            && Reads(m, request, paths)
            && request.path == (if c.state.phase == PhaseReadOut || c.state.phase == PhaseReadOutTail then paths.out
                                else paths.err)
            && Concat(CutOf(cuts, c.state.phase)) == Window(request, file)
            && request.offset <= |file|
            && (IsTail(c.state.phase) ==> |file| == request.offset + request.count)
  {
    hide Concat;
    hide Window;
    hide FirstBytes;
    hide LastBytes;
    hide Reads;
    hide Request;
    RequestFacts(c, out, err, code, paths);
    var m, file := Loaded(c), StreamOf(out, err, c.state.phase);
    var request := Request(m, paths).value;
    if IsTail(c.state.phase) {
      LastWindow(request, file);
    } else {
      FirstWindow(request, file);
    }
  }

  /** After one read: the next read of the same streams, or the whole result. */
  ghost predicate Continues(o: Outcome, rank: nat, out: Octets, err: Octets, code: int, limit: nat, paths: Paths) {
    o.Handled? &&
    var c := Checkpoint(o.machine.head, o.machine.state);
    || (&& ReadingBack(c, out, err, code, paths) && c.head.maxOutputLength == limit
        && Rank(c.state.phase) > rank && o.machine == Loaded(c) && o.step.checkpoint == Some(c)
        && Request(o.machine, paths).Some? && o.step.dispatches == [Read(Request(o.machine, paths).value)])
    || (CompletesWith(o, WholeResult(out, err, code, limit, paths)) && !IsRead(c.state.phase))
  }

  lemma NextReads(m: Machine, rank: nat, out: Octets, err: Octets, code: int, paths: Paths)
    requires m.chunks == [] && m.readSize == 0 && Rank(m.state.phase) > rank
    requires ReadingBack(Checkpoint(m.head.(status := StatusAwaiting), m.state), out, err, code, paths)
    ensures Continues(DispatchPhase(m, paths), rank, out, err, code, m.head.maxOutputLength, paths)
  {
    hide Whole;
    hide Shown;
    hide Kept;
    hide KeptHead;
    hide Correlation;
    hide WholeResult;
  }

  lemma FinishEnds(m: Machine, out: Octets, err: Octets, code: int, rank: nat, paths: Paths)
    requires CompletesWith(Finish(m, paths), WholeResult(out, err, code, Limit(m), paths))
    ensures Continues(Finish(m, paths), rank, out, err, code, Limit(m), paths)
  {
    hide Shown;
    hide Text;
    hide BoundedOutput;
    hide Whole;
    hide WholeResult;
    hide Message;
  }

  lemma HeadOfFirst(text: Octets, head: nat, limit: nat)
    requires head <= limit
    ensures |text| > limit ==> FirstBytes(text, limit)[..head] == text[..head]
    ensures |text| <= limit ==> FirstBytes(text, limit) == text
  {
  }

  /** A long stream keeps its head, and the tail is read next. */
  lemma OutLong(m: Machine, out: Octets, err: Octets, code: int, paths: Paths, file: Octets)
    requires m == Loaded(Checkpoint(m.head, m.state)) && m.state.phase == PhaseReadOut
    requires ReadingBack(Checkpoint(m.head, m.state), out, err, code, paths)
    requires |out| > ReadLimit(Limit(m)) && file == FirstBytes(out, ReadLimit(Limit(m)))
    ensures Continues(ReadDone(m, file, |out|, paths), Rank(m.state.phase), out, err, code, Limit(m), paths)
  {
    hide DispatchPhase;
    hide Finish;
    hide CompletesWith;
    hide Continues;
    hide WholeResult;
    hide Correlation;
    hide Shown;
    hide Whole;
    var limit := Limit(m);
    HeadOfFirst(out, ReadLimit(limit) - TailReadLimit(limit), ReadLimit(limit));
    var t := m.state.(inlineOut := out[..ReadLimit(limit) - TailReadLimit(limit)], outSize := |out|,
        inlineOutTail := []);
    NextReads(m.(state := t.(phase := PhaseReadOutTail)), Rank(m.state.phase), out, err, code, paths);
  }

  /** A short stream is kept whole, and the other one is read next. */
  lemma OutShort(m: Machine, out: Octets, err: Octets, code: int, paths: Paths)
    requires m == Loaded(Checkpoint(m.head, m.state)) && m.state.phase == PhaseReadOut
    requires ReadingBack(Checkpoint(m.head, m.state), out, err, code, paths) && |out| <= ReadLimit(Limit(m))
    ensures Continues(ReadDone(m, out, |out|, paths), Rank(m.state.phase), out, err, code, Limit(m), paths)
  {
    hide DispatchPhase;
    hide Finish;
    hide CompletesWith;
    hide Continues;
    hide WholeResult;
    hide Correlation;
    hide Shown;
    hide Whole;
    var t := m.state.(inlineOut := out, outSize := |out|, inlineOutTail := []);
    NextReads(m.(state := t.(phase := PhaseReadErr)), Rank(m.state.phase), out, err, code, paths);
  }

  lemma OutContinues(m: Machine, out: Octets, err: Octets, code: int, request: ReadRequest, paths: Paths)
    requires m == Loaded(Checkpoint(m.head, m.state)) && m.state.phase == PhaseReadOut
    requires ReadingBack(Checkpoint(m.head, m.state), out, err, code, paths) && Request(m, paths) == Some(request)
    ensures var file := StreamOf(out, err, m.state.phase);
            Continues(ReadDone(m, Window(request, file), |file|, paths), Rank(m.state.phase), out, err, code, Limit(m),
              paths)
  {
    hide ReadDone;
    hide ReadingBack;
    hide Continues;
    hide Correlation;
    var limit := Limit(m);
    assert Window(request, out) == FirstBytes(out, ReadLimit(limit));
    HeadOfFirst(out, ReadLimit(limit) - TailReadLimit(limit), ReadLimit(limit));
    if |out| > ReadLimit(limit) {
      OutLong(m, out, err, code, paths, Window(request, out));
    } else {
      OutShort(m, out, err, code, paths);
    }
  }

  lemma OutTailContinues(m: Machine, out: Octets, err: Octets, code: int, request: ReadRequest, paths: Paths)
    requires m == Loaded(Checkpoint(m.head, m.state)) && m.state.phase == PhaseReadOutTail
    requires ReadingBack(Checkpoint(m.head, m.state), out, err, code, paths) && Request(m, paths) == Some(request)
    ensures var file := StreamOf(out, err, m.state.phase);
            Continues(ReadDone(m, Window(request, file), |file|, paths), Rank(m.state.phase), out, err, code, Limit(m),
              paths)
  {
    hide DispatchPhase;
    hide Finish;
    hide CompletesWith;
    hide Continues;
    hide WholeResult;
    hide Correlation;
    assert Window(request, out) == out[|out| - TailReadLimit(Limit(m))..];
    NextReads(m.(state := m.state.(inlineOutTail := Window(request, out), phase := PhaseReadErr)), Rank(m.state.phase),
      out, err, code, paths);
  }

  lemma ErrLong(m: Machine, out: Octets, err: Octets, code: int, paths: Paths, file: Octets)
    requires m == Loaded(Checkpoint(m.head, m.state)) && m.state.phase == PhaseReadErr
    requires ReadingBack(Checkpoint(m.head, m.state), out, err, code, paths)
    requires |err| > ReadLimit(Limit(m)) && file == FirstBytes(err, ReadLimit(Limit(m)))
    ensures Continues(ReadDone(m, file, |err|, paths), Rank(m.state.phase), out, err, code, Limit(m), paths)
  {
    hide DispatchPhase;
    hide Finish;
    hide CompletesWith;
    hide Continues;
    hide WholeResult;
    hide Correlation;
    hide Shown;
    hide Whole;
    hide Kept;
    var limit := Limit(m);
    HeadOfFirst(err, ReadLimit(limit) - TailReadLimit(limit), ReadLimit(limit));
    var t := m.state.(inlineErr := err[..ReadLimit(limit) - TailReadLimit(limit)], errSize := |err|,
        inlineErrTail := []);
    NextReads(m.(state := t.(phase := PhaseReadErrTail)), Rank(m.state.phase), out, err, code, paths);
  }

  lemma ErrShort(m: Machine, out: Octets, err: Octets, code: int, paths: Paths)
    requires m == Loaded(Checkpoint(m.head, m.state)) && m.state.phase == PhaseReadErr
    requires ReadingBack(Checkpoint(m.head, m.state), out, err, code, paths) && |err| <= ReadLimit(Limit(m))
    ensures Continues(ReadDone(m, err, |err|, paths), Rank(m.state.phase), out, err, code, Limit(m), paths)
  {
    hide DispatchPhase;
    hide Finish;
    hide CompletesWith;
    hide Continues;
    hide WholeResult;
    hide Correlation;
    hide Shown;
    hide Whole;
    var t := m.(state := m.state.(inlineErr := err, errSize := |err|, inlineErrTail := []));
    FinishShowsWhole(t, out, err, code, paths);
    FinishEnds(t, out, err, code, Rank(m.state.phase), paths);
  }

  lemma ErrContinues(m: Machine, out: Octets, err: Octets, code: int, request: ReadRequest, paths: Paths)
    requires m == Loaded(Checkpoint(m.head, m.state)) && m.state.phase == PhaseReadErr
    requires ReadingBack(Checkpoint(m.head, m.state), out, err, code, paths) && Request(m, paths) == Some(request)
    ensures var file := StreamOf(out, err, m.state.phase);
            Continues(ReadDone(m, Window(request, file), |file|, paths), Rank(m.state.phase), out, err, code, Limit(m),
              paths)
  {
    hide ReadDone;
    hide ReadingBack;
    hide Continues;
    hide Correlation;
    hide Window;
    var limit := Limit(m);
    FirstWindow(request, err);
    HeadOfFirst(err, ReadLimit(limit) - TailReadLimit(limit), ReadLimit(limit));
    hide FirstBytes;
    if |err| > ReadLimit(Limit(m)) {
      ErrLong(m, out, err, code, paths, Window(request, err));
    } else {
      ErrShort(m, out, err, code, paths);
    }
  }

  lemma ErrTailContinues(m: Machine, out: Octets, err: Octets, code: int, request: ReadRequest, paths: Paths)
    requires m == Loaded(Checkpoint(m.head, m.state)) && m.state.phase == PhaseReadErrTail
    requires ReadingBack(Checkpoint(m.head, m.state), out, err, code, paths) && Request(m, paths) == Some(request)
    ensures var file := StreamOf(out, err, m.state.phase);
            Continues(ReadDone(m, Window(request, file), |file|, paths), Rank(m.state.phase), out, err, code, Limit(m),
              paths)
  {
    hide DispatchPhase;
    hide Finish;
    hide CompletesWith;
    hide Continues;
    hide WholeResult;
    hide Correlation;
    assert Window(request, err) == err[|err| - TailReadLimit(Limit(m))..];
    var t := m.(state := m.state.(inlineErrTail := Window(request, err)));
    FinishShowsWhole(t, out, err, code, paths);
    FinishEnds(t, out, err, code, Rank(m.state.phase), paths);
  }

  lemma ReadDoneContinues(m: Machine, out: Octets, err: Octets, code: int, request: ReadRequest, paths: Paths)
    requires m == Loaded(Checkpoint(m.head, m.state))
    requires ReadingBack(Checkpoint(m.head, m.state), out, err, code, paths) && Request(m, paths) == Some(request)
    ensures var file := StreamOf(out, err, m.state.phase);
            Continues(ReadDone(m, Window(request, file), |file|, paths), Rank(m.state.phase), out, err, code, Limit(m),
              paths)
  {
    hide DispatchPhase;
    hide Finish;
    hide CompletesWith;
    hide Continues;
    hide WholeResult;
    hide Correlation;
    hide ReadDone;
    hide Window;
    match m.state.phase
    case PhaseReadOut => OutContinues(m, out, err, code, request, paths);
    case PhaseReadOutTail => OutTailContinues(m, out, err, code, request, paths);
    case PhaseReadErr => ErrContinues(m, out, err, code, request, paths);
    case _ => ErrTailContinues(m, out, err, code, request, paths);
  }

  /** From any checkpoint of a read phase, over unchanged files and however they are cut: the whole result. */
  lemma {:induction false} ReadsShowWhole(c: Checkpoint, out: Octets, err: Octets, code: int, cuts: Cuts, paths: Paths,
      files: map<string, Octets>)
    requires OnDisk(files, paths, out, err)
    requires ReadingBack(c, out, err, code, paths) && CutsOf(cuts, out, err, c.head.maxOutputLength)
    ensures CompletesWith(ServeReads(Loaded(c), files, cuts, paths),
            WholeResult(out, err, code, c.head.maxOutputLength, paths))
    decreases 9 - Rank(c.state.phase)
  {
    hide Request;
    hide HandleAll;
    hide ReadDone;
    hide Reads;
    hide CompletesWith;
    hide WholeResult;
    hide Window;
    hide Reading;
    hide ReadingBack;
    var m := Loaded(c);
    var file := StreamOf(out, err, c.state.phase);
    assert Request(m, paths).Some? && IsRead(c.state.phase) by {
      RequestWindow(c, out, err, code, cuts, paths);
      ReadingIsRead(c, out, err, code, paths);
    }
    var request := Request(m, paths).value;
    assert HandleAll(m, Reading(request, CutOf(cuts, c.state.phase), |file|)) ==
        ReadDone(m, Window(request, file), |file|, paths) by {
      RequestWindow(c, out, err, code, cuts, paths);
      OneRead(m, request, paths, file, CutOf(cuts, c.state.phase));
    }
    assert FileAt(files, request.path) == file by { RequestWindow(c, out, err, code, cuts, paths); }
    ReadDoneContinues(m, out, err, code, request, paths);
    var o := ReadDone(m, Window(request, file), |file|, paths);
    var next := Checkpoint(o.machine.head, o.machine.state);
    if IsRead(o.machine.state.phase) {
      ReadsShowWhole(next, out, err, code, cuts, paths, files);
    }
  }

  lemma ReadingIsRead(c: Checkpoint, out: Octets, err: Octets, code: int, paths: Paths)
    requires ReadingBack(c, out, err, code, paths)
    ensures IsRead(c.state.phase) && c.head.maxOutputLength > 0
  {
  }

  /** The uninterrupted run: the exit event starts the reads, and they end in the whole result. */
  lemma ExitShowsWhole(m: Machine, exit: ProcessExit, out: Octets, err: Octets, cuts: Cuts, paths: Paths,
      files: map<string, Octets>)
    requires OnDisk(files, paths, out, err)
    requires Sound(m) && m.head.status == StatusAwaiting && m.state.phase == PhaseProcess
    requires ShellPaths(m.state.baseDirectory, m.head.id) == Some(paths)
    requires CutsOf(cuts, out, err, m.head.maxOutputLength)
    ensures var o := Handle(m, Some(Event(m.head.id, Correlation(PhaseProcess), ProcessExited(Some(exit)))));
            && o.Handled? && IsRead(o.machine.state.phase)
            && CompletesWith(ServeReads(o.machine, files, cuts, paths),
                         WholeResult(out, err, ExitStatus(exit), m.head.maxOutputLength, paths))
  {
    hide ServeReads;
    hide WholeResult;
    hide CompletesWith;
    hide DispatchPhase;
    hide CutsOf;
    hide Correlation;
    var code := ExitStatus(exit);
    var s := m.state.(processGroupID := 0, pendingExitCode := Some(code), phase := PhaseReadOut);
    NextReads(m.(state := s), 4, out, err, code, paths);
    var o := Handle(m, Some(Event(m.head.id, Correlation(PhaseProcess), ProcessExited(Some(exit)))));
    assert o == DispatchPhase(m.(state := s), paths);
    StartsReading(o, m.(state := s), out, err, code, paths);
    ReadsShowWhole(Checkpoint(o.machine.head, o.machine.state), out, err, code, cuts, paths, files);
  }

  lemma StartsReading(o: Outcome, m: Machine, out: Octets, err: Octets, code: int, paths: Paths)
    requires o == DispatchPhase(m, paths) && m.state.phase == PhaseReadOut && m.head.maxOutputLength > 0
    requires Continues(o, 4, out, err, code, m.head.maxOutputLength, paths)
    ensures var c := Checkpoint(o.machine.head, o.machine.state);
            && ReadingBack(c, out, err, code, paths) && c.head.maxOutputLength == m.head.maxOutputLength
            && o.machine == Loaded(c) && o.step.checkpoint == Some(c)
  {
    hide Whole;
    hide Shown;
    hide WholeResult;
    hide Correlation;
  }

  /** A restart from any checkpoint of a read phase asks for the read again and ends in the same result. */
  lemma RestartShowsWhole(c: Checkpoint, out: Octets, err: Octets, code: int, cuts: Cuts, paths: Paths,
      files: map<string, Octets>)
    requires OnDisk(files, paths, out, err)
    requires ReadingBack(c, out, err, code, paths) && CutsOf(cuts, out, err, c.head.maxOutputLength)
    ensures var o := Handle(Loaded(c), None);
            && Loads(c)
            && o.Handled? && IsRead(o.machine.state.phase)
            && CompletesWith(ServeReads(o.machine, files, cuts, paths),
                         WholeResult(out, err, code, c.head.maxOutputLength, paths))
  {
    hide ServeReads;
    hide WholeResult;
    hide CompletesWith;
    hide DispatchPhase;
    hide CutsOf;
    var m := Loaded(c);
    var o := Handle(m, None);
    assert o == DispatchPhase(m, paths);
    var rank: nat := Rank(c.state.phase) - 1;
    NextReads(m, rank, out, err, code, paths);
    assert IsRead(o.machine.state.phase) by { DispatchKeepsPhase(m, o, out, err, code, rank, paths); }
    ReadsShowWhole(Checkpoint(o.machine.head, o.machine.state), out, err, code, cuts, paths, files);
  }

  lemma DispatchKeepsPhase(m: Machine, o: Outcome, out: Octets, err: Octets, code: int, rank: nat, paths: Paths)
    requires o == DispatchPhase(m, paths) && IsRead(m.state.phase) && m.head.maxOutputLength > 0
    requires Continues(o, rank, out, err, code, m.head.maxOutputLength, paths)
    ensures IsRead(o.machine.state.phase)
  {
    hide Whole;
    hide Shown;
    hide WholeResult;
    hide Correlation;
    hide Message;
  }

  /** The last checkpoint emitted when `n` more reads have been served, if there were that many. */
  function SavedAfter(m: Machine, saved: Checkpoint, files: map<string, Octets>, cuts: Cuts, paths: Paths,
      n: nat): Option<Checkpoint>
    decreases n
  {
    if n == 0 then Some(saved)
    else if !IsRead(m.state.phase) || Request(m, paths).None? then None
    else
      var request := Request(m, paths).value;
      var o := HandleAll(m, Reading(request, CutOf(cuts, m.state.phase), |FileAt(files, request.path)|));
      if !o.Handled? || o.step.checkpoint.None? then None
      else SavedAfter(o.machine, o.step.checkpoint.value, files, cuts, paths, n - 1)
  }

  /** Everything saved while the streams are read back: what a restart can go on from, or the whole result. */
  lemma {:induction false} SavedReads(c: Checkpoint, out: Octets, err: Octets, code: int, cuts: Cuts, paths: Paths,
      n: nat,
      files: map<string, Octets>)
    requires OnDisk(files, paths, out, err)
    requires ReadingBack(c, out, err, code, paths) && CutsOf(cuts, out, err, c.head.maxOutputLength)
    ensures var saved := SavedAfter(Loaded(c), c, files, cuts, paths, n);
            saved.Some? ==>
              || (ReadingBack(saved.value, out, err, code, paths)
                 && saved.value.head.maxOutputLength == c.head.maxOutputLength)
              || Shows(saved.value, WholeResult(out, err, code, c.head.maxOutputLength, paths))
    decreases n
  {
    hide Request;
    hide HandleAll;
    hide ReadDone;
    hide Reads;
    hide WholeResult;
    hide Window;
    hide Reading;
    hide ReadingBack;
    hide CutsOf;
    if n > 0 {
      var m, file := Loaded(c), StreamOf(out, err, c.state.phase);
      ReadingIsRead(c, out, err, code, paths);
      RequestWindow(c, out, err, code, cuts, paths);
      var request := Request(m, paths).value;
      OneRead(m, request, paths, file, CutOf(cuts, c.state.phase));
      ReadDoneContinues(m, out, err, code, request, paths);
      var o := ReadDone(m, Window(request, file), |file|, paths);
      if IsRead(o.machine.state.phase) {
        SavedReads(o.step.checkpoint.value, out, err, code, cuts, paths, n - 1, files);
      }
    }
  }

  /** A crash at any moment after the exit, between reads or within one: a restart from what was saved last,
      over unchanged files and with any cuts of its own, shows the same result, if it is not saved already. */
  lemma CrashShowsWhole(m: Machine, exit: ProcessExit, out: Octets, err: Octets, cuts: Cuts, again: Cuts, paths: Paths,
      n: nat,
      files: map<string, Octets>)
    requires OnDisk(files, paths, out, err)
    requires Sound(m) && m.head.status == StatusAwaiting && m.state.phase == PhaseProcess
    requires ShellPaths(m.state.baseDirectory, m.head.id) == Some(paths)
    requires CutsOf(cuts, out, err, m.head.maxOutputLength) && CutsOf(again, out, err, m.head.maxOutputLength)
    ensures var o := Handle(m, Some(Event(m.head.id, Correlation(PhaseProcess), ProcessExited(Some(exit)))));
            var whole := WholeResult(out, err, ExitStatus(exit), m.head.maxOutputLength, paths);
            && o.Handled? && o.step.checkpoint.Some?
            && var saved := SavedAfter(o.machine, o.step.checkpoint.value, files, cuts, paths, n);
            saved.Some? && !Shows(saved.value, whole) ==>
              && Loads(saved.value) && Handle(Loaded(saved.value), None).Handled?
              && var restarted := Handle(Loaded(saved.value), None).machine;
              && IsRead(restarted.state.phase)
              && CompletesWith(ServeReads(restarted, files, again, paths), whole)
  {
    hide ServeReads;
    hide SavedAfter;
    hide WholeResult;
    hide CompletesWith;
    hide DispatchPhase;
    hide CutsOf;
    hide Correlation;
    hide Shows;
    var code := ExitStatus(exit);
    var s := m.state.(processGroupID := 0, pendingExitCode := Some(code), phase := PhaseReadOut);
    NextReads(m.(state := s), 4, out, err, code, paths);
    var o := Handle(m, Some(Event(m.head.id, Correlation(PhaseProcess), ProcessExited(Some(exit)))));
    assert o == DispatchPhase(m.(state := s), paths);
    StartsReading(o, m.(state := s), out, err, code, paths);
    hide Handle;
    hide ReadingBack;
    var c := o.step.checkpoint.value;
    SavedReads(c, out, err, code, cuts, paths, n, files);
    var saved := SavedAfter(o.machine, c, files, cuts, paths, n);
    if saved.Some? && !Shows(saved.value, WholeResult(out, err, code, m.head.maxOutputLength, paths)) {
      RestartShowsWhole(saved.value, out, err, code, again, paths, files);
    }
  }
}
