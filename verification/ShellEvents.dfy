/** What gets a shell on, and what ends it. */
module ShellEvents {
  import opened Bytes
  import opened Operations
  import opened Options
  import opened Output
  import opened OutputWindow
  import opened Primitives
  import opened Shell
  import opened ShellReadBack
  import opened ShellRun

  /** The one event a phase goes on with, given what it has read so far. */
  ghost predicate Completion(m: Machine, kind: EventKind, paths: Paths) {
    match m.state.phase
    case PhaseCreateDirectory => kind == CreateCompleted(Some(Directory))
    case PhaseCreateOut => kind == CreateCompleted(Some(RegularFile))
    case PhaseCreateErr => kind == CreateCompleted(Some(RegularFile))
    case PhaseProcess => kind.ProcessExited? && kind.exit.Some?
    case phase =>
      && IsRead(phase) && kind.ReadCompleted? && kind.size.Some? && Request(m, paths).Some?
      && var request, size := Request(m, paths).value, kind.size.value;
      && request.offset <= size && m.readSize == Min(request.count, size - request.offset)
      && (IsTail(phase) ==> size == request.offset + request.count)
  }

  /** The events a phase takes before that: the start of the process, and the next bytes asked for. */
  ghost predicate Progress(m: Machine, kind: EventKind, paths: Paths) {
    if m.state.phase == PhaseProcess then kind.ProcessStarted? && kind.pid.Some? && kind.pid.value > 1
    else
      && IsRead(m.state.phase) && kind.ReadOutput? && kind.output.Some? && Request(m, paths).Some?
      && var request, output := Request(m, paths).value, kind.output.value;
      && output.offset == request.offset + m.readSize && m.readSize + |output.data| <= request.count
  }

  predicate Survives(o: Outcome) {
    o.Handled? && (o.machine.head.status == StatusAwaiting || o.machine.head.status == StatusCompleted)
  }

  lemma FailDies(m: Machine, reason: Reason)
    ensures !Survives(Fail(m, reason)) && Fail(m, reason).Handled?
  {
    hide Message;
    hide Whole;
    hide Shown;
  }

  lemma CancelDies(m: Machine)
    ensures !Survives(CancelShell(m))
  {
    hide Text;
    hide Whole;
    hide Shown;
  }

  lemma ReadExpects(m: Machine, event: Event, paths: Paths)
    requires IsRead(m.state.phase) && Survives(ReadPhase(m, event, paths))
    ensures Completion(m, event.kind, paths) || Progress(m, event.kind, paths)
  {
    hide Fail;
    hide ReadDone;
    hide Request;
    forall reason ensures !Survives(Fail(m, reason)) {
      FailDies(m, reason);
    }
  }

  /** A shell survives no event but its own primitive's, with the right result in the right place. */
  lemma SurvivesOnly(m: Machine, event: Event)
    requires m.head.status == StatusAwaiting && Survives(Handle(m, Some(event)))
    ensures event.source == m.head.id && event.correlation == Correlation(m.state.phase)
    ensures ShellPaths(m.state.baseDirectory, m.head.id).Some?
    ensures var paths := ShellPaths(m.state.baseDirectory, m.head.id).value;
            Completion(m, event.kind, paths) || Progress(m, event.kind, paths)
  {
    hide Fail;
    hide CancelShell;
    hide ReadPhase;
    hide DispatchPhase;
    hide Await;
    hide ShellPaths;
    hide Correlation;
    hide Survives;
    forall reason ensures !Survives(Fail(m, reason)) {
      FailDies(m, reason);
    }
    CancelDies(m);
    if IsRead(m.state.phase) && ShellPaths(m.state.baseDirectory, m.head.id).Some? {
      var paths := ShellPaths(m.state.baseDirectory, m.head.id).value;
      if Survives(ReadPhase(m, event, paths)) {
        ReadExpects(m, event, paths);
      }
    }
  }

  /** How an operation that ends without a result is saved: nothing more is asked for, and the text of why is there,
      bounded to the operation's limit. */
  ghost predicate EndsWith(o: Outcome, status: Status, limit: int, why: Octets) {
    && o.Handled? && o.step.dispatches == [] && o.step.checkpoint.Some?
    && var c := o.step.checkpoint.value;
    && c.head.status == status && c.state.phase == PhaseNone
    && c.state.terminalError == Shown(Whole(why, limit), []) && c.state.errorTruncated == Whole(why, limit).Cut?
  }

  lemma FailEndsWith(m: Machine, reason: Reason)
    ensures EndsWith(Fail(m, reason), StatusFailed, m.head.maxOutputLength, Message(reason))
  {
    hide Message;
    hide Whole;
    hide Shown;
  }

  /** A primitive that fails ends the operation with its own words, a canceled one as canceled. */
  lemma FailureTold(m: Machine, event: Event)
    requires m.head.status == StatusAwaiting && event.source == m.head.id
    ensures event.kind.Failed? && event.kind.error.Some? ==>
              EndsWith(Handle(m, Some(event)), StatusFailed, m.head.maxOutputLength, event.kind.error.value)
    ensures event.kind.Canceled? ==>
              EndsWith(Handle(m, Some(event)), StatusCanceled, m.head.maxOutputLength, Text("shell operation canceled"))
  {
    hide Whole;
    hide Shown;
    hide Text;
    hide Correlation;
    if event.kind.Failed? {
      hide Save;
      FailEndsWith(m, PrimitiveFailure(event.kind.error));
    }
  }

  /** A restart never runs the process again: it cannot know whether it ran, and says which. */
  lemma InterruptedTold(m: Machine)
    requires m.head.status == StatusAwaiting && m.state.phase == PhaseProcess
    ensures EndsWith(Handle(m, None), StatusFailed, m.head.maxOutputLength,
              Message(if m.state.processGroupID == 0 then StartNotRecorded else ExitNotRecorded))
  {
    hide Fail;
    hide EndsWith;
    hide Message;
    hide DispatchPhase;
    FailEndsWith(m, StartNotRecorded);
    FailEndsWith(m, ExitNotRecorded);
  }

  /** A restart of an operation whose cancellation was asked for cancels it. */
  lemma CancelingTold(m: Machine)
    requires m.head.status == StatusCanceling
    ensures EndsWith(Handle(m, None), StatusCanceled, m.head.maxOutputLength, Text("shell operation canceled"))
  {
    hide Whole;
    hide Shown;
    hide Text;
  }

  /** The first step is refused exactly to an operation that has ended, or is not supported, or claims to be ready
      though it is not new. */
  lemma FirstRefusedIff(m: Machine)
    ensures Handle(m, None).Refused? <==>
              || IsTerminal(m.head.status) || m.head.status.StatusUnsupported?
              || (m.head.status == StatusReady
                  && (m.state.phase != PhaseNone || m.state.result.Some? || m.state.terminalError != []))
  {
    hide BoundError;
    hide ShellPaths;
    hide Message;
    hide Text;
    hide Correlation;
    hide Request;
  }
}
