/** The shell operation: create a directory and two capture files, run a process,
    read back what it wrote. Each step is a durable checkpoint. */
module Shell {
  import opened Bytes
  import opened Operations
  import opened Options
  import opened Output
  import opened OutputWindow
  import opened Primitives

  datatype Phase =
    | PhaseNone
    | PhaseCreateDirectory
    | PhaseCreateOut
    | PhaseCreateErr
    | PhaseProcess
    | PhaseReadOut
    | PhaseReadOutTail
    | PhaseReadErr
    | PhaseReadErrTail
    | PhaseOther(name: string)

  function Correlation(phase: Phase): string {
    match phase
    case PhaseNone => ""
    case PhaseCreateDirectory => "create_directory"
    case PhaseCreateOut => "create_out"
    case PhaseCreateErr => "create_err"
    case PhaseProcess => "process"
    case PhaseReadOut => "read_out"
    case PhaseReadOutTail => "read_out_tail"
    case PhaseReadErr => "read_err"
    case PhaseReadErrTail => "read_err_tail"
    case PhaseOther(name) => name
  }

  predicate IsTail(phase: Phase) { phase == PhaseReadOutTail || phase == PhaseReadErrTail }

  predicate IsRead(phase: Phase) { phase == PhaseReadOut || phase == PhaseReadErr || IsTail(phase) }

  datatype Input = Input(command: string, shell: string, directory: string)

  datatype ShellResult = ShellResult(out: Octets, err: Octets, outSize: int, errSize: int, exitCode: int)

  datatype State = State(
    input: Input,
    baseDirectory: string,
    phase: Phase,
    processGroupID: int,
    pendingExitCode: Option<int>,
    outSize: int,
    errSize: int,
    inlineOut: Octets,
    inlineErr: Octets,
    inlineOutTail: Octets,
    inlineErrTail: Octets,
    result: Option<ShellResult>,
    terminalError: Octets,
    errorTruncated: bool,
    outTruncated: bool,
    errTruncated: bool,
    outPath: string,
    errPath: string)

  /** The operation record without its state. */
  datatype Head = Head(id: string, status: Status, maxOutputLength: int)

  datatype Checkpoint = Checkpoint(head: Head, state: State)

  datatype Paths = Paths(directory: string, out: string, err: string)

  datatype Dispatch =
    | CreatePath(source: string, correlation: string, kind: CreateKind, path: string, mode: nat)
    | StartProcess(source: string, correlation: string, path: string, arguments: seq<string>, directory: string,
        out: string, err: string)
    | Read(request: ReadRequest)

  datatype Step = Step(checkpoint: Option<Checkpoint>, dispatches: seq<Dispatch>)

  datatype Machine = Machine(head: Head, state: State, chunks: seq<Octets>, readSize: nat)

  /** `Refused` is an error return that changes nothing, `Panicked` the panic of bounding an incomplete output. */
  datatype Outcome = Handled(machine: Machine, step: Step) | Refused | Panicked

  datatype Reason =
    | BadPath | StartNotRecorded | ExitNotRecorded | InvalidPhase | WrongSource | WrongCorrelation
    | InvalidCreate | InvalidStart | InvalidExit | UnexpectedOutput | StreamFailure | UnexpectedProcessEvent
    | InvalidTailSize | InvalidOutput | ReadTooLong | InvalidCompletion | SizeChanged | UnexpectedReadEvent
    | NoExitStatus | PrimitiveFailure(message: Option<Octets>)

  function Message(reason: Reason): Octets {
    match reason
    case BadPath => Text("operation ID is not a path component")
    case StartNotRecorded => Text("shell execution outcome is unknown because process start was not recorded")
    case ExitNotRecorded => Text("shell execution was interrupted before an exit status was recorded")
    case InvalidPhase => Text("shell operation has invalid phase")
    case WrongSource => Text("shell primitive event has the wrong source")
    case WrongCorrelation => Text("shell primitive event has the wrong correlation")
    case InvalidCreate => Text("create shell artifact returned an invalid result")
    case InvalidStart => Text("start shell returned an invalid result")
    case InvalidExit => Text("shell returned an invalid exit result")
    case UnexpectedOutput => Text("captured shell process produced an unexpected output event")
    case StreamFailure => Text("captured shell process returned an unexpected stream failure")
    case UnexpectedProcessEvent => Text("shell process returned unexpected event")
    case InvalidTailSize => Text("invalid shell tail read size")
    case InvalidOutput => Text("shell read returned invalid output")
    case ReadTooLong => Text("shell read exceeded its configured limit")
    case InvalidCompletion => Text("shell read returned an invalid completion")
    case SizeChanged => Text("shell capture size changed while reading its tail")
    case UnexpectedReadEvent => Text("shell read returned unexpected event")
    case NoExitStatus => Text("shell execution completed without an exit status")
    case PrimitiveFailure(None) => Text("shell primitive failed with an invalid result")
    case PrimitiveFailure(Some(message)) => message
  }

  predicate IsAbsolute(path: string) { path != "" && path[0] == '/' }

  function ShellPaths(baseDirectory: string, id: string): Option<Paths> {
    if id == "" || id == "." || id == ".." || '/' in id then None
    else
      var directory := baseDirectory + "/" + id;
      Some(Paths(directory, directory + "/out", directory + "/err"))
  }

  function Limit(m: Machine): nat {
    if m.head.maxOutputLength < 0 then 0 else m.head.maxOutputLength
  }

  const SHELL_KIND := "shell"
  const SHELL_VERSION: nat := 3

  predicate ValidState(s: State) {
    && IsAbsolute(s.input.shell) && IsAbsolute(s.baseDirectory)
    && s.processGroupID >= 0 && s.processGroupID != 1
    && s.outSize >= 0 && s.errSize >= 0
  }

  predicate ValidLimit(maxOutputLength: int) { 0 < maxOutputLength <= MAX_OUTPUT_LENGTH }

  /** What loading a checkpoint checks. */
  predicate Loads(c: Checkpoint) {
    && ValidLimit(c.head.maxOutputLength) && ValidState(c.state)
    && |c.state.inlineOut| + |c.state.inlineOutTail| <= ReadLimit(c.head.maxOutputLength)
    && |c.state.inlineErr| + |c.state.inlineErrTail| <= ReadLimit(c.head.maxOutputLength)
  }

  /** An operation as it is stored: its state is what the saved record decodes to, if it does. */
  datatype Saved = Saved(kind: string, version: nat, head: Head, state: Option<State>)

  predicate Decodes(saved: Saved) {
    saved.kind == SHELL_KIND && saved.version == SHELL_VERSION && ValidLimit(saved.head.maxOutputLength)
      && saved.state.Some?
  }

  function Loaded(c: Checkpoint): Machine {
    Machine(c.head, c.state, [], 0)
  }

  /** A fresh operation as its specification describes it. */
  function NewState(input: Input, baseDirectory: string): State {
    State(input, baseDirectory, PhaseNone, 0, None, 0, 0, [], [], [], [], None, [], false, true, true, "", "")
  }

  function NewShellSpec(input: Input, baseDirectory: string, maxOutputLength: int): Option<State> {
    var state := NewState(input, baseDirectory);
    if ValidLimit(maxOutputLength) && ValidState(state) then Some(state) else None
  }

  /** The terminal error is bounded once, whenever a checkpoint is taken. */
  function BoundError(m: Machine): Machine {
    if m.state.errorTruncated then m
    else
      var b := Whole(m.state.terminalError, m.head.maxOutputLength);
      m.(state := m.state.(terminalError := Shown(b, []), errorTruncated := b.Cut?))
  }

  function Save(m: Machine, dispatches: seq<Dispatch>): Outcome {
    var saved := BoundError(m);
    Handled(saved, Step(Some(Checkpoint(saved.head, saved.state)), dispatches))
  }

  function Fail(m: Machine, reason: Reason): Outcome {
    Save(m.(chunks := [], readSize := 0,
            head := m.head.(status := StatusFailed),
            state := m.state.(phase := PhaseNone, terminalError := Message(reason), errorTruncated := false)), [])
  }

  function CancelShell(m: Machine): Outcome {
    Save(m.(chunks := [], readSize := 0,
            head := m.head.(status := StatusCanceled),
            state := m.state.(phase := PhaseNone, terminalError := Text("shell operation canceled"),
              errorTruncated := false)), [])
  }

  function Await(m: Machine, dispatches: seq<Dispatch>): Outcome {
    Save(m.(head := m.head.(status := StatusAwaiting)), dispatches)
  }

  /** The read a read phase waits for; a tail read needs a stream longer than one read. */
  function Request(m: Machine, paths: Paths): Option<ReadRequest>
    requires IsRead(m.state.phase)
  {
    var out := m.state.phase == PhaseReadOut || m.state.phase == PhaseReadOutTail;
    var path, size := if out then paths.out else paths.err, if out then m.state.outSize else m.state.errSize;
    var correlation := Correlation(m.state.phase);
    if IsTail(m.state.phase) then
      if size <= ReadLimit(Limit(m)) then None
      else
        var count := TailReadLimit(Limit(m));
        Some(ReadRequest(m.head.id, correlation, path, size - count, count))
    else Some(ReadRequest(m.head.id, correlation, path, 0, ReadLimit(Limit(m))))
  }

  /** Access for the owner alone: 0700 and 0600. */
  const OWNER_DIRECTORY: nat := 448
  const OWNER_FILE: nat := 384

  function DispatchPhase(m: Machine, paths: Paths): Outcome {
    var correlation := Correlation(m.state.phase);
    match m.state.phase
    case PhaseCreateDirectory =>
      Await(m, [CreatePath(m.head.id, correlation, Directory, paths.directory, OWNER_DIRECTORY)])
    case PhaseCreateOut => Await(m, [CreatePath(m.head.id, correlation, RegularFile, paths.out, OWNER_FILE)])
    case PhaseCreateErr => Await(m, [CreatePath(m.head.id, correlation, RegularFile, paths.err, OWNER_FILE)])
    case PhaseProcess =>
      Await(m, [StartProcess(m.head.id, correlation, m.state.input.shell, ["-c", m.state.input.command],
                             m.state.input.directory, paths.out, paths.err)])
    case PhaseNone => Fail(m, InvalidPhase)
    case PhaseOther(_) => Fail(m, InvalidPhase)
    case _ =>
      match Request(m, paths)
      case None => Fail(m, InvalidTailSize)
      case Some(request) => Await(m, [Read(request)])
  }

  function Next(m: Machine, phase: Phase, paths: Paths): Outcome {
    DispatchPhase(m.(state := m.state.(phase := phase)), paths)
  }

  function Resume(m: Machine): Outcome {
    if m.state.phase == PhaseProcess then
      Fail(m, if m.state.processGroupID == 0 then StartNotRecorded else ExitNotRecorded)
    else
      match ShellPaths(m.state.baseDirectory, m.head.id)
      case None => Fail(m, BadPath)
      case Some(paths) => DispatchPhase(m.(chunks := [], readSize := 0), paths)
  }

  function Created(m: Machine, event: Event, paths: Paths): Outcome {
    var kind := if m.state.phase == PhaseCreateDirectory then Directory else RegularFile;
    if event.kind != CreateCompleted(Some(kind)) then
      Fail(m, InvalidCreate)
    else if m.state.phase == PhaseCreateDirectory then
      Next(m, PhaseCreateOut, paths)
    else if m.state.phase == PhaseCreateOut then
      Next(m.(state := m.state.(outPath := paths.out)), PhaseCreateErr, paths)
    else
      Next(m.(state := m.state.(errPath := paths.err)), PhaseProcess, paths)
  }

  function ExitStatus(exit: ProcessExit): int {
    if exit.signal != 0 then 128 + exit.signal else exit.code
  }

  function Process(m: Machine, event: Event, paths: Paths): Outcome {
    match event.kind
    case ProcessStarted(pid) =>
      if pid.None? || pid.value <= 1 then Fail(m, InvalidStart)
      else Await(m.(state := m.state.(processGroupID := pid.value)), [])
    case ProcessExited(exit) =>
      if exit.None? then Fail(m, InvalidExit)
      else Next(m.(state := m.state.(processGroupID := 0, pendingExitCode := Some(ExitStatus(exit.value)))),
          PhaseReadOut, paths)
    case ProcessOutput => Fail(m, UnexpectedOutput)
    case ProcessStreamFailed => Fail(m, StreamFailure)
    case _ => Fail(m, UnexpectedProcessEvent)
  }

  function ReadPhase(m: Machine, event: Event, paths: Paths): Outcome
    requires IsRead(m.state.phase)
  {
    match Request(m, paths)
    case None => Fail(m, InvalidTailSize)
    case Some(request) =>
      match event.kind
      case ReadOutput(output) =>
        if output.None? || output.value.offset != request.offset + m.readSize then Fail(m, InvalidOutput)
        else if |output.value.data| > request.count - m.readSize then Fail(m, ReadTooLong)
        else Handled(m.(chunks := m.chunks + [output.value.data], readSize := m.readSize + |output.value.data|),
            Step(None, []))
      case ReadCompleted(size) =>
        if size.None? || size.value < request.offset
            || m.readSize != Min(request.count, size.value - request.offset) then
          Fail(m, InvalidCompletion)
        else if IsTail(m.state.phase) && size.value != request.offset + request.count then
          Fail(m, SizeChanged)
        else
          ReadDone(m.(chunks := [], readSize := 0), Concat(m.chunks), size.value, paths)
      case _ => Fail(m, UnexpectedReadEvent)
  }

  /** A stream longer than one read keeps only its head, and has its tail read next. */
  function ReadDone(m: Machine, all: Octets, size: int, paths: Paths): Outcome
    requires IsRead(m.state.phase)
  {
    var needsTail := size > ReadLimit(Limit(m));
    var headSize := ReadLimit(Limit(m)) - TailReadLimit(Limit(m));
    var data := if needsTail && !IsTail(m.state.phase) && headSize <= |all| then all[..headSize] else all;
    match m.state.phase
    case PhaseReadOut =>
      Next(m.(state := m.state.(inlineOut := data, outSize := size, inlineOutTail := [])),
           if needsTail then PhaseReadOutTail else PhaseReadErr, paths)
    case PhaseReadOutTail =>
      Next(m.(state := m.state.(inlineOutTail := data)), PhaseReadErr, paths)
    case PhaseReadErr =>
      var read := m.(state := m.state.(inlineErr := data, errSize := size, inlineErrTail := []));
      if needsTail then Next(read, PhaseReadErrTail, paths) else Finish(read, paths)
    case _ =>
      Finish(m.(state := m.state.(inlineErrTail := data)), paths)
  }

  /** Whether bounding this stream would panic: an empty tail without the complete output. */
  predicate Incomplete(head: Octets, tail: Octets, size: int) {
    size < 0 || (tail == [] && size != |head|)
  }

  function Finish(m: Machine, paths: Paths): Outcome {
    var s := m.state;
    if s.pendingExitCode.None? then Fail(m, NoExitStatus)
    else if Incomplete(s.inlineOut, s.inlineOutTail, s.outSize)
        || Incomplete(s.inlineErr, s.inlineErrTail, s.errSize) then Panicked
    else
      var out := BoundedOutput(s.inlineOut, s.inlineOutTail, s.outSize, m.head.maxOutputLength);
      var err := BoundedOutput(s.inlineErr, s.inlineErrTail, s.errSize, m.head.maxOutputLength);
      Save(m.(head := m.head.(status := StatusCompleted),
              state := s.(
                result := Some(ShellResult(Shown(out, Text(paths.out)), Shown(err, Text(paths.err)), s.outSize,
                  s.errSize, s.pendingExitCode.value)),
                outTruncated := out.Cut?, errTruncated := err.Cut?, outPath := paths.out, errPath := paths.err,
                pendingExitCode := None, inlineOut := [], inlineErr := [], inlineOutTail := [], inlineErrTail := [],
                phase := PhaseNone)), [])
  }

  function Awaited(m: Machine, event: Event): Outcome {
    if event.source != m.head.id then Fail(m, WrongSource)
    else if event.kind.Canceled? then CancelShell(m)
    else if event.kind.Failed? then Fail(m, PrimitiveFailure(event.kind.error))
    else if event.correlation != Correlation(m.state.phase) then Fail(m, WrongCorrelation)
    else
      match ShellPaths(m.state.baseDirectory, m.head.id)
      case None => Fail(m, BadPath)
      case Some(paths) =>
        match m.state.phase
        case PhaseCreateDirectory => Created(m, event, paths)
        case PhaseCreateOut => Created(m, event, paths)
        case PhaseCreateErr => Created(m, event, paths)
        case PhaseProcess => Process(m, event, paths)
        case PhaseNone => Fail(m, InvalidPhase)
        case PhaseOther(_) => Fail(m, InvalidPhase)
        case _ => ReadPhase(m, event, paths)
  }

  function Handle(m: Machine, event: Option<Event>): Outcome {
    match m.head.status
    case StatusReady =>
      if event.Some? || m.state.phase != PhaseNone || m.state.result.Some? || m.state.terminalError != [] then Refused
      else
        (match ShellPaths(m.state.baseDirectory, m.head.id)
         case None => Fail(m, BadPath)
         case Some(paths) => Next(m, PhaseCreateDirectory, paths))
    case StatusAwaiting =>
      if event.None? then Resume(m) else Awaited(m, event.value)
    case StatusCanceling =>
      if event.Some? then Refused else CancelShell(m)
    case _ => Refused
  }
}
