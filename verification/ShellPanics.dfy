/** Exactly which saved states of a shell can make bounding panic, over every run from loading on. */
module ShellPanics {
  import opened Bytes
  import opened Operations
  import opened Options
  import opened Output
  import opened OutputWindow
  import opened Primitives
  import opened Shell
  import opened ShellRun
  import opened ShellReadBack

  /** A saved state that is one read away from bounding a first stream it does not hold completely. */
  predicate CanPanic(c: Checkpoint) {
    && c.head.status == StatusAwaiting && ShellPaths(c.state.baseDirectory, c.head.id).Some?
    && c.state.pendingExitCode.Some?
    && c.state.inlineOutTail == [] && c.state.outSize != |c.state.inlineOut|
    && (c.state.phase == PhaseReadErr ||
        (c.state.phase == PhaseReadErrTail && c.state.errSize > ReadLimit(Limit(Loaded(c)))))
  }

  /** A run as the manager makes it: the first step, and then any events. */
  function RunFrom(c: Checkpoint, events: seq<Event>): Outcome {
    match Handle(Loaded(c), None)
    case Handled(m, _) => HandleAll(m, events)
    case o => o
  }

  /** What every step keeps, sound or not: the numbers are in order, and no panic is ahead. */
  ghost predicate Guarded(m: Machine) {
    && m.head.maxOutputLength > 0 && m.state.outSize >= 0 && m.state.errSize >= 0
    && m.readSize == |Concat(m.chunks)|
    && !CanPanic(Checkpoint(m.head, m.state))
  }

  ghost predicate KeepsGuard(o: Outcome) {
    !o.Panicked? && (o.Handled? ==> Guarded(o.machine))
  }

  lemma SaveGuarded(m: Machine, dispatches: seq<Dispatch>)
    requires Guarded(m)
    ensures KeepsGuard(Save(m, dispatches))
  {
    hide Whole;
    hide Shown;
    hide ShellPaths;
  }

  lemma FailGuarded(m: Machine, reason: Reason)
    requires m.head.maxOutputLength > 0 && m.state.outSize >= 0 && m.state.errSize >= 0
    ensures KeepsGuard(Fail(m, reason))
  {
    hide Message;
    hide Save;
    hide KeepsGuard;
    assert Concat([]) == [];
    SaveGuarded(m.(chunks := [], readSize := 0,
                   head := m.head.(status := StatusFailed),
                   state := m.state.(phase := PhaseNone, terminalError := Message(reason), errorTruncated := false)),
                     []);
  }

  lemma CancelGuarded(m: Machine)
    requires m.head.maxOutputLength > 0 && m.state.outSize >= 0 && m.state.errSize >= 0
    ensures KeepsGuard(CancelShell(m))
  {
    hide Text;
    hide Save;
    hide KeepsGuard;
    assert Concat([]) == [];
    SaveGuarded(m.(chunks := [], readSize := 0,
                   head := m.head.(status := StatusCanceled),
                   state := m.state.(phase := PhaseNone, terminalError := Text("shell operation canceled"),
                     errorTruncated := false)), []);
  }

  lemma DispatchGuarded(m: Machine, paths: Paths)
    requires Guarded(m.(head := m.head.(status := StatusAwaiting)))
    ensures KeepsGuard(DispatchPhase(m, paths))
  {
    hide Save;
    hide Fail;
    hide KeepsGuard;
    hide Correlation;
    hide Request;
    FailGuarded(m, InvalidPhase);
    FailGuarded(m, InvalidTailSize);
    forall dispatches: seq<Dispatch>
      ensures KeepsGuard(Save(m.(head := m.head.(status := StatusAwaiting)), dispatches))
    {
      SaveGuarded(m.(head := m.head.(status := StatusAwaiting)), dispatches);
    }
  }

  /** Bounding is safe where neither stream is incomplete. */
  lemma FinishGuarded(m: Machine, paths: Paths)
    requires m.head.maxOutputLength > 0 && m.chunks == [] && m.readSize == 0
    requires m.state.outSize >= 0 && m.state.errSize >= 0
    requires m.state.pendingExitCode.Some? ==>
               && !Incomplete(m.state.inlineOut, m.state.inlineOutTail, m.state.outSize)
               && !Incomplete(m.state.inlineErr, m.state.inlineErrTail, m.state.errSize)
    ensures KeepsGuard(Finish(m, paths))
  {
    hide Save;
    hide Fail;
    hide BoundedOutput;
    hide Shown;
    hide Text;
    hide Incomplete;
    hide KeepsGuard;
    hide ShellPaths;
    assert Concat([]) == [];
    FailGuarded(m, NoExitStatus);
    forall done: Machine, dispatches: seq<Dispatch> | Guarded(done) ensures KeepsGuard(Save(done, dispatches)) {
      SaveGuarded(done, dispatches);
    }
  }

  lemma ReadDoneGuarded(m: Machine, all: Octets, size: int, paths: Paths)
    requires IsRead(m.state.phase) && Guarded(m) && m.chunks == [] && m.readSize == 0 && size >= 0
    requires m.head.status == StatusAwaiting && ShellPaths(m.state.baseDirectory, m.head.id).Some?
    requires !IsTail(m.state.phase) ==> |all| == Min(ReadLimit(Limit(m)), size)
    requires IsTail(m.state.phase) ==> |all| == TailReadLimit(Limit(m))
    requires m.state.phase == PhaseReadErrTail ==> m.state.errSize > ReadLimit(Limit(m))
    ensures KeepsGuard(ReadDone(m, all, size, paths))
  {
    hide DispatchPhase;
    hide Finish;
    hide KeepsGuard;
    hide ShellPaths;
    var needsTail := size > ReadLimit(Limit(m));
    var headSize := ReadLimit(Limit(m)) - TailReadLimit(Limit(m));
    var data := if needsTail && !IsTail(m.state.phase) && headSize <= |all| then all[..headSize] else all;
    match m.state.phase
    case PhaseReadOut =>
      var s := m.state.(inlineOut := data, outSize := size, inlineOutTail := []);
      DispatchGuarded(m.(state := s.(phase := if needsTail then PhaseReadOutTail else PhaseReadErr)), paths);
    case PhaseReadOutTail =>
      DispatchGuarded(m.(state := m.state.(inlineOutTail := data, phase := PhaseReadErr)), paths);
    case PhaseReadErr =>
      var s := m.state.(inlineErr := data, errSize := size, inlineErrTail := []);
      if needsTail {
        DispatchGuarded(m.(state := s.(phase := PhaseReadErrTail)), paths);
      } else {
        FinishGuarded(m.(state := s), paths);
      }
    case _ =>
      FinishGuarded(m.(state := m.state.(inlineErrTail := data)), paths);
  }

  lemma ReadGuarded(m: Machine, event: Event, paths: Paths)
    requires IsRead(m.state.phase) && Guarded(m)
    requires m.head.status == StatusAwaiting && ShellPaths(m.state.baseDirectory, m.head.id) == Some(paths)
    ensures KeepsGuard(ReadPhase(m, event, paths))
  {
    hide ReadDone;
    hide Fail;
    hide Correlation;
    hide ShellPaths;
    forall reason ensures KeepsGuard(Fail(m, reason)) {
      FailGuarded(m, reason);
    }
    if event.kind.ReadOutput? && event.kind.output.Some? {
      ConcatLast(m.chunks, event.kind.output.value.data);
    }
    if event.kind.ReadCompleted? && event.kind.size.Some? && Request(m, paths).Some? {
      var request, size := Request(m, paths).value, event.kind.size.value;
      if size >= request.offset && m.readSize == Min(request.count, size - request.offset)
         && !(IsTail(m.state.phase) && size != request.offset + request.count) {
        assert Concat([]) == [];
        ReadDoneGuarded(m.(chunks := [], readSize := 0), Concat(m.chunks), size, paths);
      }
    }
  }

  lemma ProcessGuarded(m: Machine, event: Event, paths: Paths)
    requires Guarded(m) && m.state.phase == PhaseProcess
    ensures KeepsGuard(Process(m, event, paths))
  {
    hide DispatchPhase;
    hide Save;
    hide Fail;
    hide ShellPaths;
    hide KeepsGuard;
    forall reason ensures KeepsGuard(Fail(m, reason)) {
      FailGuarded(m, reason);
    }
    match event.kind
    case ProcessStarted(pid) =>
      if pid.Some? && pid.value > 1 {
        var s := m.state.(processGroupID := pid.value);
        SaveGuarded(m.(head := m.head.(status := StatusAwaiting), state := s), []);
      }
    case ProcessExited(exit) =>
      if exit.Some? {
        var s := m.state.(processGroupID := 0, pendingExitCode := Some(ExitStatus(exit.value)), phase := PhaseReadOut);
        DispatchGuarded(m.(state := s), paths);
      }
    case _ =>
  }

  lemma CreatedGuarded(m: Machine, event: Event, paths: Paths)
    requires Guarded(m)
    ensures KeepsGuard(Created(m, event, paths))
  {
    hide DispatchPhase;
    hide Fail;
    hide ShellPaths;
    hide KeepsGuard;
    FailGuarded(m, InvalidCreate);
    var s := m.state;
    DispatchGuarded(m.(state := s.(phase := PhaseCreateOut)), paths);
    DispatchGuarded(m.(state := s.(outPath := paths.out, phase := PhaseCreateErr)), paths);
    DispatchGuarded(m.(state := s.(errPath := paths.err, phase := PhaseProcess)), paths);
  }

  /** An event to a guarded machine never panics, and leaves it guarded. */
  lemma EventGuarded(m: Machine, event: Event)
    requires Guarded(m)
    ensures KeepsGuard(Handle(m, Some(event)))
  {
    hide Fail;
    hide CancelShell;
    hide Created;
    hide Process;
    hide ReadPhase;
    hide Correlation;
    hide ShellPaths;
    forall reason ensures KeepsGuard(Fail(m, reason)) {
      FailGuarded(m, reason);
    }
    CancelGuarded(m);
    if m.head.status == StatusAwaiting && ShellPaths(m.state.baseDirectory, m.head.id).Some? {
      var paths := ShellPaths(m.state.baseDirectory, m.head.id).value;
      CreatedGuarded(m, event, paths);
      match m.state.phase
      case PhaseProcess => ProcessGuarded(m, event, paths);
      case PhaseCreateDirectory =>
      case PhaseCreateOut =>
      case PhaseCreateErr =>
      case PhaseNone =>
      case PhaseOther(_) =>
      case _ => ReadGuarded(m, event, paths);
    }
  }

  /** The first step of a loaded state never panics; it is guarded unless the state can panic. */
  lemma FirstGuarded(c: Checkpoint)
    requires Loads(c) && !CanPanic(c)
    ensures KeepsGuard(Handle(Loaded(c), None))
  {
    hide Fail;
    hide CancelShell;
    hide DispatchPhase;
    hide ShellPaths;
    hide KeepsGuard;
    assert Concat([]) == [];
    var m := Loaded(c);
    forall reason ensures KeepsGuard(Fail(m, reason)) {
      FailGuarded(m, reason);
    }
    CancelGuarded(m);
    RefusalGuarded();
    if ShellPaths(m.state.baseDirectory, m.head.id).Some? {
      var paths := ShellPaths(m.state.baseDirectory, m.head.id).value;
      match m.head.status
      case StatusReady => DispatchGuarded(m.(state := m.state.(phase := PhaseCreateDirectory)), paths);
      case StatusAwaiting => DispatchGuarded(m, paths);
      case _ =>
    }
  }

  lemma RefusalGuarded()
    ensures KeepsGuard(Refused)
  {
  }

  lemma {:induction false} AllGuarded(m: Machine, events: seq<Event>)
    requires Guarded(m)
    ensures !HandleAll(m, events).Panicked?
    decreases |events|
  {
    hide Handle;
    hide Guarded;
    if events != [] {
      EventGuarded(m, events[0]);
      if Handle(m, Some(events[0])).Handled? {
        AllGuarded(Handle(m, Some(events[0])).machine, events[1..]);
      }
    }
  }

  /** Waiting for the read again changes nothing that matters. */
  lemma AwaitsAgain(m: Machine, paths: Paths, request: ReadRequest)
    requires IsRead(m.state.phase) && Request(m, paths) == Some(request)
    ensures var o := DispatchPhase(m, paths);
            && o.Handled? && o.machine.head == m.head.(status := StatusAwaiting)
            && o.machine.chunks == m.chunks && o.machine.readSize == m.readSize
            && o.machine.state == m.state.(terminalError := o.machine.state.terminalError,
                                           errorTruncated := o.machine.state.errorTruncated)
  {
    hide Whole;
    hide Shown;
    hide Correlation;
    hide Request;
  }

  /** Where the second stream's read ends, an incomplete first stream panics. */
  lemma EndPanics(m: Machine, size: int, paths: Paths)
    requires m.state.pendingExitCode.Some? && m.state.inlineOutTail == [] && m.state.outSize != |m.state.inlineOut|
    requires m.state.phase == PhaseReadErrTail || (m.state.phase == PhaseReadErr && size <= ReadLimit(Limit(m)))
    ensures forall all :: ReadDone(m, all, size, paths).Panicked?
  {
    hide DispatchPhase;
  }

  /** A read of `data` in one chunk, answered as it should be. */
  function OneChunk(request: ReadRequest, data: Octets, size: nat): seq<Event> {
    [Answer(request, ReadOutput(Some(ReadData(request.offset, data))))] + [Answer(request, ReadCompleted(Some(size)))]
  }

  lemma ReadErrPanics(m: Machine, request: ReadRequest, paths: Paths)
    requires Reads(m, request, paths) && m.chunks == [] && m.readSize == 0
    requires m.state.phase == PhaseReadErr && CanPanic(Checkpoint(m.head, m.state))
    ensures HandleAll(m, [Answer(request, ReadCompleted(Some(0)))]).Panicked?
  {
    hide Correlation;
    hide ReadDone;
    hide Fail;
    hide Handle;
    ReadsRequest(m, request, paths);
    EndPanics(m.(chunks := [], readSize := 0), 0, paths);
  }

  lemma ReadErrTailPanics(m: Machine, request: ReadRequest, paths: Paths, data: Octets)
    requires Reads(m, request, paths) && m.chunks == [] && m.readSize == 0 && |data| == request.count
    requires m.state.phase == PhaseReadErrTail && CanPanic(Checkpoint(m.head, m.state))
    ensures m.state.errSize >= 0 && HandleAll(m, OneChunk(request, data, m.state.errSize)).Panicked?
  {
    hide Correlation;
    hide ReadDone;
    hide Fail;
    hide Handle;
    OneOutput(m, request, paths, data);
    var next := m.(chunks := m.chunks + [data], readSize := m.readSize + |data|);
    ReadsRequest(next, request, paths);
    var events := OneChunk(request, data, m.state.errSize);
    assert events[1..] == [Answer(request, ReadCompleted(Some(m.state.errSize)))];
    EndPanics(next.(chunks := [], readSize := 0), m.state.errSize, paths);
  }

  lemma CanPanicDoes(c: Checkpoint) returns (events: seq<Event>)
    requires Loads(c) && CanPanic(c)
    ensures RunFrom(c, events).Panicked?
  {
    hide HandleAll;
    hide Correlation;
    hide DispatchPhase;
    hide ShellPaths;
    var m := Loaded(c);
    var paths := ShellPaths(c.state.baseDirectory, c.head.id).value;
    var request := Request(m, paths).value;
    AwaitsAgain(m, paths, request);
    var next := Handle(m, None).machine;
    assert Reads(next, request, paths);
    if c.state.phase == PhaseReadErr {
      events := [Answer(request, ReadCompleted(Some(0)))];
      ReadErrPanics(next, request, paths);
    } else {
      var data := seq(request.count, _ => 0);
      events := OneChunk(request, data, c.state.errSize);
      ReadErrTailPanics(next, request, paths, data);
    }
  }

  /** A state that loads can panic, over some run, exactly when it waits for the last read of the second stream, has
      an exit code, and holds of the first stream no tail and a head that is not the whole of it. */
  lemma PanicsIff(c: Checkpoint)
    requires Loads(c)
    ensures (exists events :: RunFrom(c, events).Panicked?) <==> CanPanic(c)
  {
    hide Handle;
    hide HandleAll;
    hide CanPanic;
    if CanPanic(c) {
      var events := CanPanicDoes(c);
    } else {
      FirstGuarded(c);
      forall events
        ensures !RunFrom(c, events).Panicked?
      {
        if Handle(Loaded(c), None).Handled? {
          AllGuarded(Handle(Loaded(c), None).machine, events);
        }
      }
    }
  }

  /** Loading lets such states in, whatever the operation is called. */
  lemma LoadedPanics(id: string, shell: string)
    requires IsAbsolute(shell) && ShellPaths(shell, id).Some?
    ensures exists c, events :: Loads(c) && c.head.id == id && RunFrom(c, events).Panicked?
  {
    var state := NewState(Input("", shell, ""), shell)
                 .(phase := PhaseReadErr, outSize := 1, pendingExitCode := Some(0));
    var c := Checkpoint(Head(id, StatusAwaiting, 1), state);
    hide RunFrom;
    hide ShellPaths;
    var events := CanPanicDoes(c);
  }

  /** No state that the system itself saves is one of them. */
  lemma SoundCannotPanic(c: Checkpoint)
    requires SoundCheckpoint(c)
    ensures !CanPanic(c)
  {
    hide ShellPaths;
  }
}
