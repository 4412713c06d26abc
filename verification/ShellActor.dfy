/** The shell operation as the object it is: its fields change in place, and each
    method does to them what the step functions of `Shell` say. */
module ShellActor {
  import opened Bytes
  import opened Operations
  import opened Options
  import opened Output
  import opened OutputWindow
  import opened Primitives
  import opened Shell
  import ShellRun

  class Actor {
    var head: Head
    var state: State
    var chunks: seq<Octets>
    var readSize: nat

    ghost function Now(): Machine
      reads this
    {
      Machine(head, state, chunks, readSize)
    }

    /** Loading checks what the source checks, in its order, and fails otherwise. */
    static method Load(saved: Saved) returns (actor: Actor?)
      ensures actor != null <==> Decodes(saved) && Loads(Checkpoint(saved.head, saved.state.value))
      ensures actor != null <==>
                && saved.kind == "shell" && saved.version == 3 && 0 < saved.head.maxOutputLength <= 1_000_000
                && saved.state.Some?
                && var s, limit := saved.state.value, 4 * saved.head.maxOutputLength;
                && s.input.shell != "" && s.input.shell[0] == '/' && s.baseDirectory != "" && s.baseDirectory[0] == '/'
                && (s.processGroupID == 0 || s.processGroupID > 1) && s.outSize >= 0 && s.errSize >= 0
                && |s.inlineOut + s.inlineOutTail| <= limit && |s.inlineErr + s.inlineErrTail| <= limit
      ensures actor != null ==> fresh(actor) && actor.Now() == Loaded(Checkpoint(saved.head, saved.state.value))
    {
      actor := null;
      if saved.kind != SHELL_KIND || saved.version != SHELL_VERSION || !ValidLimit(saved.head.maxOutputLength) {
        return;
      }
      match saved.state {
        case None => return;
        case Some(state) =>
          if !ValidState(state) {
            return;
          }
          var limit := ReadLimit(saved.head.maxOutputLength);
          if |state.inlineOut| + |state.inlineOutTail| > limit || |state.inlineErr| + |state.inlineErrTail| > limit {
            return;
          }
          actor := new Actor(Checkpoint(saved.head, state));
      }
    }

    constructor (c: Checkpoint)
      ensures Now() == Loaded(c)
    {
      head, state, chunks, readSize := c.head, c.state, [], 0;
    }

    method TakeCheckpoint(dispatches: seq<Dispatch>) returns (step: Step)
      modifies this`state
      ensures Handled(Now(), step) == Save(old(Now()), dispatches)
    {
      hide Shown;
      hide BoundedOutput;
      if !state.errorTruncated {
        var text, truncated := BoundOutputParts(state.terminalError, [], |state.terminalError|, head.maxOutputLength,
            []);
        state := state.(terminalError := text, errorTruncated := truncated);
      }
      step := Step(Some(Checkpoint(head, state)), dispatches);
    }

    method FailShell(reason: Reason) returns (step: Step)
      modifies this
      ensures Handled(Now(), step) == Fail(old(Now()), reason)
    {
      hide Save;
      hide Message;
      chunks, readSize := [], 0;
      state := state.(phase := PhaseNone, terminalError := Message(reason), errorTruncated := false);
      head := head.(status := StatusFailed);
      step := TakeCheckpoint([]);
    }

    method CancelActor() returns (step: Step)
      modifies this
      ensures Handled(Now(), step) == CancelShell(old(Now()))
    {
      hide Save;
      hide Text;
      chunks, readSize := [], 0;
      state := state.(phase := PhaseNone, terminalError := Text("shell operation canceled"), errorTruncated := false);
      head := head.(status := StatusCanceled);
      step := TakeCheckpoint([]);
    }

    method AwaitNext(dispatches: seq<Dispatch>) returns (step: Step)
      modifies this
      ensures Handled(Now(), step) == Await(old(Now()), dispatches)
    {
      hide Save;
      head := head.(status := StatusAwaiting);
      step := TakeCheckpoint(dispatches);
    }

    method DispatchNow(paths: Paths) returns (step: Step)
      modifies this
      ensures Handled(Now(), step) == DispatchPhase(old(Now()), paths)
    {
      hide Await;
      hide Fail;
      hide Correlation;
      var correlation := Correlation(state.phase);
      match state.phase {
        case PhaseCreateDirectory =>
          step := AwaitNext([CreatePath(head.id, correlation, Directory, paths.directory, OWNER_DIRECTORY)]);
        case PhaseCreateOut =>
          step := AwaitNext([CreatePath(head.id, correlation, RegularFile, paths.out, OWNER_FILE)]);
        case PhaseCreateErr =>
          step := AwaitNext([CreatePath(head.id, correlation, RegularFile, paths.err, OWNER_FILE)]);
        case PhaseProcess =>
          step := AwaitNext([StartProcess(head.id, correlation, state.input.shell, ["-c", state.input.command],
                                          state.input.directory, paths.out, paths.err)]);
        case PhaseNone =>
          step := FailShell(InvalidPhase);
        case PhaseOther(_) =>
          step := FailShell(InvalidPhase);
        case _ =>
          var request := Request(Machine(head, state, chunks, readSize), paths);
          if request.None? {
            step := FailShell(InvalidTailSize);
          } else {
            step := AwaitNext([Read(request.value)]);
          }
      }
    }

    method Advance(phase: Phase, paths: Paths) returns (step: Step)
      modifies this
      ensures Handled(Now(), step) == Next(old(Now()), phase, paths)
    {
      hide DispatchPhase;
      state := state.(phase := phase);
      step := DispatchNow(paths);
    }

    method ResumeShell() returns (step: Step)
      modifies this
      ensures Handled(Now(), step) == Resume(old(Now()))
    {
      hide Fail;
      hide DispatchPhase;
      if state.phase == PhaseProcess {
        if state.processGroupID == 0 {
          step := FailShell(StartNotRecorded);
        } else {
          step := FailShell(ExitNotRecorded);
        }
        return;
      }
      var paths := ShellPaths(state.baseDirectory, head.id);
      if paths.None? {
        step := FailShell(BadPath);
        return;
      }
      chunks, readSize := [], 0;
      step := DispatchNow(paths.value);
    }

    method CreatedEvent(event: Event, paths: Paths) returns (step: Step)
      modifies this
      ensures Handled(Now(), step) == Created(old(Now()), event, paths)
    {
      hide Fail;
      hide DispatchPhase;
      var kind := if state.phase == PhaseCreateDirectory then Directory else RegularFile;
      if event.kind != CreateCompleted(Some(kind)) {
        step := FailShell(InvalidCreate);
        return;
      }
      if state.phase == PhaseCreateDirectory {
        step := Advance(PhaseCreateOut, paths);
      } else if state.phase == PhaseCreateOut {
        state := state.(outPath := paths.out);
        step := Advance(PhaseCreateErr, paths);
      } else {
        state := state.(errPath := paths.err);
        step := Advance(PhaseProcess, paths);
      }
    }

    method ProcessEvent(event: Event, paths: Paths) returns (step: Step)
      modifies this
      ensures Handled(Now(), step) == Process(old(Now()), event, paths)
    {
      hide Fail;
      hide Await;
      hide DispatchPhase;
      match event.kind {
        case ProcessStarted(pid) =>
          if pid.None? || pid.value <= 1 {
            step := FailShell(InvalidStart);
          } else {
            state := state.(processGroupID := pid.value);
            step := AwaitNext([]);
          }
        case ProcessExited(exit) =>
          if exit.None? {
            step := FailShell(InvalidExit);
          } else {
            state := state.(processGroupID := 0, pendingExitCode := Some(ExitStatus(exit.value)));
            step := Advance(PhaseReadOut, paths);
          }
        case ProcessOutput => step := FailShell(UnexpectedOutput);
        case ProcessStreamFailed => step := FailShell(StreamFailure);
        case _ => step := FailShell(UnexpectedProcessEvent);
      }
    }

    method FinishShell(paths: Paths) returns (step: Step)
      requires Finish(Now(), paths).Handled?
      modifies this
      ensures Handled(Now(), step) == Finish(old(Now()), paths)
    {
      hide Fail;
      hide Save;
      hide Shown;
      hide BoundedOutput;
      hide Text;
      if state.pendingExitCode.None? {
        step := FailShell(NoExitStatus);
        return;
      }
      var out, outCut := BoundOutputParts(state.inlineOut, state.inlineOutTail, state.outSize, head.maxOutputLength,
          Text(paths.out));
      var err, errCut := BoundOutputParts(state.inlineErr, state.inlineErrTail, state.errSize, head.maxOutputLength,
          Text(paths.err));
      state := state.(result := Some(ShellResult(out, err, state.outSize, state.errSize, state.pendingExitCode.value)));
      state := state.(outTruncated := outCut, errTruncated := errCut, outPath := paths.out, errPath := paths.err);
      state := state.(pendingExitCode := None, inlineOut := [], inlineErr := [], inlineOutTail := [],
        inlineErrTail := []);
      state := state.(phase := PhaseNone);
      head := head.(status := StatusCompleted);
      step := TakeCheckpoint([]);
    }

    method ReadFinished(all: Octets, size: int, paths: Paths) returns (step: Step)
      requires IsRead(state.phase) && ReadDone(Now(), all, size, paths).Handled?
      modifies this
      ensures Handled(Now(), step) == ReadDone(old(Now()), all, size, paths)
    {
      hide Finish;
      hide DispatchPhase;
      var limit := if head.maxOutputLength < 0 then 0 else head.maxOutputLength;
      var needsTail := size > ReadLimit(limit);
      var data := all;
      if needsTail && !IsTail(state.phase) && ReadLimit(limit) - TailReadLimit(limit) <= |all| {
        data := data[..ReadLimit(limit) - TailReadLimit(limit)];
      }
      match state.phase {
        case PhaseReadOut =>
          state := state.(inlineOut := data, outSize := size, inlineOutTail := []);
          if needsTail {
            step := Advance(PhaseReadOutTail, paths);
          } else {
            step := Advance(PhaseReadErr, paths);
          }
        case PhaseReadOutTail =>
          state := state.(inlineOutTail := data);
          step := Advance(PhaseReadErr, paths);
        case PhaseReadErr =>
          state := state.(inlineErr := data, errSize := size, inlineErrTail := []);
          if needsTail {
            step := Advance(PhaseReadErrTail, paths);
          } else {
            step := FinishShell(paths);
          }
        case _ =>
          state := state.(inlineErrTail := data);
          step := FinishShell(paths);
      }
    }

    method ReadEvent(event: Event, paths: Paths) returns (step: Step)
      requires IsRead(state.phase) && ReadPhase(Now(), event, paths).Handled?
      modifies this
      ensures Handled(Now(), step) == ReadPhase(old(Now()), event, paths)
    {
      hide Fail;
      hide ReadDone;
      hide Correlation;
      var request := Request(Machine(head, state, chunks, readSize), paths);
      if request.None? {
        step := FailShell(InvalidTailSize);
        return;
      }
      match event.kind {
        case ReadOutput(output) =>
          if output.None? || output.value.offset != request.value.offset + readSize {
            step := FailShell(InvalidOutput);
          } else if |output.value.data| > request.value.count - readSize {
            step := FailShell(ReadTooLong);
          } else {
            chunks := chunks + [output.value.data];
            readSize := readSize + |output.value.data|;
            step := Step(None, []);
          }
        case ReadCompleted(size) =>
          if size.None? || size.value < request.value.offset
              || readSize != Min(request.value.count, size.value - request.value.offset) {
            step := FailShell(InvalidCompletion);
          } else if IsTail(state.phase) && size.value != request.value.offset + request.value.count {
            step := FailShell(SizeChanged);
          } else {
            var data := Concat(chunks);
            chunks, readSize := [], 0;
            step := ReadFinished(data, size.value, paths);
          }
        case _ => step := FailShell(UnexpectedReadEvent);
      }
    }

    method HandleAwaiting(event: Event) returns (step: Step)
      requires Awaited(Now(), event).Handled?
      modifies this
      ensures Handled(Now(), step) == Awaited(old(Now()), event)
    {
      hide Fail;
      hide CancelShell;
      hide Created;
      hide Process;
      hide ReadPhase;
      hide Correlation;
      if event.source != head.id {
        step := FailShell(WrongSource);
        return;
      }
      if event.kind.Canceled? {
        step := CancelActor();
        return;
      }
      if event.kind.Failed? {
        step := FailShell(PrimitiveFailure(event.kind.error));
        return;
      }
      if event.correlation != Correlation(state.phase) {
        step := FailShell(WrongCorrelation);
        return;
      }
      var paths := ShellPaths(state.baseDirectory, head.id);
      if paths.None? {
        step := FailShell(BadPath);
        return;
      }
      match state.phase {
        case PhaseCreateDirectory => step := CreatedEvent(event, paths.value);
        case PhaseCreateOut => step := CreatedEvent(event, paths.value);
        case PhaseCreateErr => step := CreatedEvent(event, paths.value);
        case PhaseProcess => step := ProcessEvent(event, paths.value);
        case PhaseNone => step := FailShell(InvalidPhase);
        case PhaseOther(_) => step := FailShell(InvalidPhase);
        case _ => step := ReadEvent(event, paths.value);
      }
    }

    /** One event, or none at the start and after a reload. A sound machine never panics, and stays sound. */
    method HandleEvent(event: Option<Event>) returns (step: Step, ok: bool)
      requires ShellRun.Sound(Now()) && (event.None? ==> chunks == [])
      requires head.status == StatusReady ==> state.phase == PhaseNone
      modifies this
      ensures ShellRun.Sound(Now())
      ensures (if ok then Handled(Now(), step) else Refused) == Handle(old(Now()), event)
      ensures !ok ==> Now() == old(Now())
    {
      hide Fail;
      hide CancelShell;
      hide Awaited;
      hide Resume;
      hide DispatchPhase;
      hide ShellRun.Sound;
      ShellRun.HandleGood(Now(), event);
      step, ok := Step(None, []), true;
      match head.status {
        case StatusReady =>
          if event.Some? || state.phase != PhaseNone || state.result.Some? || state.terminalError != [] {
            ok := false;
            return;
          }
          var paths := ShellPaths(state.baseDirectory, head.id);
          if paths.None? {
            step := FailShell(BadPath);
          } else {
            step := Advance(PhaseCreateDirectory, paths.value);
          }
        case StatusAwaiting =>
          if event.None? {
            step := ResumeShell();
          } else {
            step := HandleAwaiting(event.value);
          }
        case StatusCanceling =>
          if event.Some? {
            ok := false;
            return;
          }
          step := CancelActor();
        case _ =>
          ok := false;
      }
    }
  }
}
