/** Safety of every shell step, and the result of reading back a finished process:
    what is shown is what bounding the complete streams would show. */
module ShellRun {
  import opened Bytes
  import opened Operations
  import opened Options
  import opened Output
  import opened OutputWindow
  import opened Primitives
  import opened Shell

  /** The sizes a fully read stream has left in the state. */
  ghost predicate SizesKept(head: Octets, tail: Octets, size: int, limit: nat) {
    if size <= ReadLimit(limit) then |head| == size && tail == []
    else |head| == ReadLimit(limit) - TailReadLimit(limit) && |tail| == TailReadLimit(limit)
  }

  ghost predicate HeadOnly(head: Octets, tail: Octets, size: int, limit: nat) {
    size > ReadLimit(limit) && |head| == ReadLimit(limit) - TailReadLimit(limit) && tail == []
  }

  /** What every step keeps: the checkpoint loads again, and no stream is ever bounded half-read. */
  ghost predicate SoundCheckpoint(c: Checkpoint) {
    && Loads(c)
    && var s, limit := c.state, c.head.maxOutputLength;
    && (s.phase == PhaseReadOutTail ==> HeadOnly(s.inlineOut, s.inlineOutTail, s.outSize, limit))
    && (s.phase == PhaseReadErr || s.phase == PhaseReadErrTail ==>
       SizesKept(s.inlineOut, s.inlineOutTail, s.outSize, limit))
    && (s.phase == PhaseReadErrTail ==> HeadOnly(s.inlineErr, s.inlineErrTail, s.errSize, limit))
  }

  ghost predicate Sound(m: Machine) {
    && SoundCheckpoint(Checkpoint(m.head, m.state))
    && m.readSize == |Concat(m.chunks)|
    && (!IsRead(m.state.phase) ==> m.chunks == [])
    && (IsRead(m.state.phase) ==>
          m.readSize <= if IsTail(m.state.phase) then TailReadLimit(Limit(m)) else ReadLimit(Limit(m)))
  }

  function Rank(phase: Phase): nat {
    match phase
    case PhaseCreateDirectory => 1
    case PhaseCreateOut => 2
    case PhaseCreateErr => 3
    case PhaseProcess => 4
    case PhaseReadOut => 5
    case PhaseReadOutTail => 6
    case PhaseReadErr => 7
    case PhaseReadErrTail => 8
    case _ => 0
  }

  /** A step leaves a sound machine, emits a loadable checkpoint and asks for at most one
      primitive, for a phase of a higher rank than `rank`, unless the operation has ended. */
  ghost predicate GoodStep(o: Outcome, id: string, rank: int) {
    && o.Handled?
    && var m, step := o.machine, o.step;
    && Sound(m) && m.head.id == id
    && (step.checkpoint.Some? ==>
          && step.checkpoint.value == Checkpoint(m.head, m.state)
          && SoundCheckpoint(step.checkpoint.value) && Sound(Loaded(step.checkpoint.value)))
    && |step.dispatches| <= 1
    && (step.dispatches != [] ==> m.head.status == StatusAwaiting && Rank(m.state.phase) > rank && m.chunks == [])
    && (step.checkpoint.None? ==> step.dispatches == [] && m.head.status == StatusAwaiting)
    && (step.checkpoint.Some? ==>
       step.checkpoint.value.head.status == StatusAwaiting || IsTerminal(step.checkpoint.value.head.status))
  }

  lemma SaveGood(m: Machine, dispatches: seq<Dispatch>, rank: int)
    requires Sound(m) && |dispatches| <= 1 && (m.head.status == StatusAwaiting || IsTerminal(m.head.status))
    requires dispatches != [] ==> m.head.status == StatusAwaiting && Rank(m.state.phase) > rank && m.chunks == []
    ensures GoodStep(Save(m, dispatches), m.head.id, rank)
  {
    hide Whole;
    hide Shown;
  }

  lemma FailGood(m: Machine, reason: Reason, rank: int)
    requires Sound(m)
    ensures GoodStep(Fail(m, reason), m.head.id, rank)
  {
    hide Message;
    hide Save;
    SaveGood(m.(chunks := [], readSize := 0,
                head := m.head.(status := StatusFailed),
                state := m.state.(phase := PhaseNone, terminalError := Message(reason), errorTruncated := false)), [],
                  rank);
  }

  lemma CancelGood(m: Machine, rank: int)
    requires Sound(m)
    ensures GoodStep(CancelShell(m), m.head.id, rank)
  {
    hide Text;
    hide Save;
    SaveGood(m.(chunks := [], readSize := 0,
                head := m.head.(status := StatusCanceled),
                state := m.state.(phase := PhaseNone, terminalError := Text("shell operation canceled"),
                  errorTruncated := false)), [], rank);
  }

  lemma AwaitGood(m: Machine, dispatches: seq<Dispatch>, rank: int)
    requires Sound(m) && |dispatches| <= 1
    requires dispatches != [] ==> Rank(m.state.phase) > rank && m.chunks == []
    ensures GoodStep(Await(m, dispatches), m.head.id, rank)
  {
    hide Save;
    SaveGood(m.(head := m.head.(status := StatusAwaiting)), dispatches, rank);
  }

  lemma DispatchGood(m: Machine, paths: Paths, rank: int)
    requires Sound(m) && m.chunks == []
    requires Rank(m.state.phase) > rank || Rank(m.state.phase) == 0
    ensures GoodStep(DispatchPhase(m, paths), m.head.id, rank)
  {
    hide Await;
    hide Fail;
    hide Correlation;
    FailGood(m, InvalidPhase, rank);
    FailGood(m, InvalidTailSize, rank);
    if Rank(m.state.phase) > rank {
      forall d: Dispatch ensures GoodStep(Await(m, [d]), m.head.id, rank) {
        AwaitGood(m, [d], rank);
      }
    }
  }

  lemma ReadDoneGood(m: Machine, all: Octets, size: int, paths: Paths)
    requires Sound(m) && IsRead(m.state.phase) && m.chunks == [] && size >= 0
    requires !IsTail(m.state.phase) ==> |all| == Min(ReadLimit(Limit(m)), size)
    requires IsTail(m.state.phase) ==> |all| == TailReadLimit(Limit(m))
    ensures GoodStep(ReadDone(m, all, size, paths), m.head.id, Rank(m.state.phase))
  {
    hide DispatchPhase;
    hide Finish;
    hide GoodStep;
    var rank := Rank(m.state.phase);
    var needsTail := size > ReadLimit(Limit(m));
    var headSize := ReadLimit(Limit(m)) - TailReadLimit(Limit(m));
    var data := if needsTail && !IsTail(m.state.phase) && headSize <= |all| then all[..headSize] else all;
    match m.state.phase
    case PhaseReadOut =>
      var s := m.state.(inlineOut := data, outSize := size, inlineOutTail := []);
      DispatchGood(m.(state := s.(phase := if needsTail then PhaseReadOutTail else PhaseReadErr)), paths, rank);
    case PhaseReadOutTail =>
      DispatchGood(m.(state := m.state.(inlineOutTail := data, phase := PhaseReadErr)), paths, rank);
    case PhaseReadErr =>
      var s := m.state.(inlineErr := data, errSize := size, inlineErrTail := []);
      if needsTail {
        DispatchGood(m.(state := s.(phase := PhaseReadErrTail)), paths, rank);
      } else {
        FinishGood(m.(state := s), paths, rank);
      }
    case _ =>
      FinishGood(m.(state := m.state.(inlineErrTail := data)), paths, rank);
  }

  lemma FinishGood(m: Machine, paths: Paths, rank: int)
    requires Loads(Checkpoint(m.head, m.state)) && m.chunks == [] && m.readSize == 0
    requires SizesKept(m.state.inlineOut, m.state.inlineOutTail, m.state.outSize, Limit(m))
    requires SizesKept(m.state.inlineErr, m.state.inlineErrTail, m.state.errSize, Limit(m))
    ensures GoodStep(Finish(m, paths), m.head.id, rank)
  {
    hide Save;
    hide Fail;
    hide BoundedOutput;
    hide Shown;
    hide Text;
    var s := m.state;
    if s.pendingExitCode.None? {
      var idle := m.(state := s.(phase := PhaseNone));
      FailGood(idle, NoExitStatus, rank);
      FailForgetsPhase(m, PhaseNone, NoExitStatus);
    } else {
      var o := Finish(m, paths);
      var out := BoundedOutput(s.inlineOut, s.inlineOutTail, s.outSize, m.head.maxOutputLength);
      var err := BoundedOutput(s.inlineErr, s.inlineErrTail, s.errSize, m.head.maxOutputLength);
      SaveGood(m.(head := m.head.(status := StatusCompleted),
              state := s.(
                result := Some(ShellResult(Shown(out, Text(paths.out)), Shown(err, Text(paths.err)), s.outSize,
                  s.errSize, s.pendingExitCode.value)),
                outTruncated := out.Cut?, errTruncated := err.Cut?, outPath := paths.out, errPath := paths.err,
                pendingExitCode := None, inlineOut := [], inlineErr := [], inlineOutTail := [], inlineErrTail := [],
                phase := PhaseNone)), [], rank);
    }
  }

  lemma FailForgetsPhase(m: Machine, phase: Phase, reason: Reason)
    ensures Fail(m.(state := m.state.(phase := phase)), reason) == Fail(m, reason)
  {
    hide Message;
    hide Save;
  }

  lemma ReadGood(m: Machine, event: Event, paths: Paths)
    requires Sound(m) && IsRead(m.state.phase) && m.head.status == StatusAwaiting
    ensures GoodStep(ReadPhase(m, event, paths), m.head.id, Rank(m.state.phase))
  {
    hide ReadDone;
    hide Fail;
    hide Correlation;
    var rank := Rank(m.state.phase);
    forall reason ensures GoodStep(Fail(m, reason), m.head.id, rank) {
      FailGood(m, reason, rank);
    }
    if event.kind.ReadOutput? && event.kind.output.Some? {
      ConcatLast(m.chunks, event.kind.output.value.data);
    }
    if event.kind.ReadCompleted? && event.kind.size.Some? && Request(m, paths).Some? {
      var request, size := Request(m, paths).value, event.kind.size.value;
      if size >= request.offset && m.readSize == Min(request.count, size - request.offset)
         && !(IsTail(m.state.phase) && size != request.offset + request.count) {
        ReadDoneGood(m.(chunks := [], readSize := 0), Concat(m.chunks), size, paths);
      }
    }
  }

  lemma ProcessGood(m: Machine, event: Event, paths: Paths)
    requires Sound(m) && m.state.phase == PhaseProcess
    ensures GoodStep(Process(m, event, paths), m.head.id, Rank(m.state.phase))
  {
    hide DispatchPhase;
    hide Await;
    hide Fail;
    var rank := Rank(m.state.phase);
    forall reason ensures GoodStep(Fail(m, reason), m.head.id, rank) {
      FailGood(m, reason, rank);
    }
    match event.kind
    case ProcessStarted(pid) =>
      if pid.Some? && pid.value > 1 {
        AwaitGood(m.(state := m.state.(processGroupID := pid.value)), [], rank);
      }
    case ProcessExited(exit) =>
      if exit.Some? {
        var s := m.state.(processGroupID := 0, pendingExitCode := Some(ExitStatus(exit.value)), phase := PhaseReadOut);
        DispatchGood(m.(state := s), paths, rank);
      }
    case _ =>
  }

  lemma CreatedGood(m: Machine, event: Event, paths: Paths)
    requires Sound(m)
    requires m.state.phase == PhaseCreateDirectory || m.state.phase == PhaseCreateOut || m.state.phase == PhaseCreateErr
    ensures GoodStep(Created(m, event, paths), m.head.id, Rank(m.state.phase))
  {
    hide DispatchPhase;
    hide Fail;
    var rank, s := Rank(m.state.phase), m.state;
    FailGood(m, InvalidCreate, rank);
    match s.phase
    case PhaseCreateDirectory => DispatchGood(m.(state := s.(phase := PhaseCreateOut)), paths, rank);
    case PhaseCreateOut => DispatchGood(m.(state := s.(outPath := paths.out, phase := PhaseCreateErr)), paths, rank);
    case _ => DispatchGood(m.(state := s.(errPath := paths.err, phase := PhaseProcess)), paths, rank);
  }

  lemma AwaitedGood(m: Machine, event: Event)
    requires Sound(m) && m.head.status == StatusAwaiting
    ensures GoodStep(Awaited(m, event), m.head.id, Rank(m.state.phase))
  {
    hide Fail;
    hide CancelShell;
    hide Created;
    hide Process;
    hide ReadPhase;
    hide Correlation;
    var rank := Rank(m.state.phase);
    forall reason ensures GoodStep(Fail(m, reason), m.head.id, rank) {
      FailGood(m, reason, rank);
    }
    CancelGood(m, rank);
    if ShellPaths(m.state.baseDirectory, m.head.id).Some? {
      var paths := ShellPaths(m.state.baseDirectory, m.head.id).value;
      match m.state.phase
      case PhaseCreateDirectory => CreatedGood(m, event, paths);
      case PhaseCreateOut => CreatedGood(m, event, paths);
      case PhaseCreateErr => CreatedGood(m, event, paths);
      case PhaseProcess => ProcessGood(m, event, paths);
      case PhaseNone =>
      case PhaseOther(_) =>
      case _ => ReadGood(m, event, paths);
    }
  }

  lemma ResumeGood(m: Machine)
    requires Sound(m) && m.chunks == []
    ensures GoodStep(Resume(m), m.head.id, -1)
  {
    hide Fail;
    hide DispatchPhase;
    forall reason ensures GoodStep(Fail(m, reason), m.head.id, -1) {
      FailGood(m, reason, -1);
    }
    if ShellPaths(m.state.baseDirectory, m.head.id).Some? {
      DispatchGood(m.(chunks := [], readSize := 0), ShellPaths(m.state.baseDirectory, m.head.id).value, -1);
    }
  }

  /** Every step of every run: sound, loadable, one primitive at most, phases advancing, and no panic. */
  lemma HandleGood(m: Machine, event: Option<Event>)
    requires Sound(m) && (event.None? ==> m.chunks == [])
    requires m.head.status == StatusReady ==> m.state.phase == PhaseNone
    ensures var o := Handle(m, event);
            var rank := if event.Some? then Rank(m.state.phase) else -1;
            (o.Refused? && m.head.status != StatusAwaiting) || GoodStep(o, m.head.id, rank)
  {
    hide Fail;
    hide CancelShell;
    hide Awaited;
    hide Resume;
    hide DispatchPhase;
    match m.head.status
    case StatusReady =>
      FailGood(m, BadPath, -1);
      if ShellPaths(m.state.baseDirectory, m.head.id).Some? {
        DispatchGood(m.(state := m.state.(phase := PhaseCreateDirectory)),
          ShellPaths(m.state.baseDirectory, m.head.id).value, -1);
      }
    case StatusAwaiting =>
      if event.None? {
        ResumeGood(m);
      } else {
        AwaitedGood(m, event.value);
      }
    case StatusCanceling =>
      CancelGood(m, -1);
    case _ =>
  }

  /** A specification is refused exactly where its state would not load; what it lets through starts sound. */
  lemma SpecLoads(input: Input, baseDirectory: string, maxOutputLength: int, id: string)
    ensures var c := Checkpoint(Head(id, StatusReady, maxOutputLength), NewState(input, baseDirectory));
            && (NewShellSpec(input, baseDirectory, maxOutputLength).Some? <==> Loads(c))
            && (Loads(c) ==> Sound(Loaded(c)))
            && (Loads(c) ==>
                  && var s := NewShellSpec(input, baseDirectory, maxOutputLength).value;
                  && s.input == input && s.baseDirectory == baseDirectory && s.phase == PhaseNone && s.result == None
                  && s.terminalError == [] && !s.errorTruncated && s.outTruncated && s.errTruncated)
  {
    assert Concat([]) == [];
  }
}
