/** A shell operation from its specification to its result, against the files its process writes. */
module ShellFiles {
  import opened Bytes
  import opened Operations
  import opened Options
  import opened Output
  import opened OutputWindow
  import opened Primitives
  import opened Shell
  import opened ShellRun
  import opened ShellReadBack

  /** The paths there are, and the programs that were run. */
  datatype World = World(directories: set<string>, files: map<string, Octets>, runs: seq<Program>)

  datatype Program = Program(path: string, arguments: seq<string>, directory: string)

  /** What a process writes and how it ends. */
  datatype Ran = Ran(stdout: Octets, stderr: Octets, exit: ProcessExit)

  /** What a program does, how a reader cuts a file, the number of the process, and which primitives fail for reasons of
      their own. */
  datatype Env = Env(run: (string, seq<string>, string) -> Ran, cut: (ReadRequest, Octets) -> seq<Octets>, pid: int,
    fails: (Dispatch, World) -> bool)

  ghost predicate LawfulEnv(env: Env) {
    env.pid > 1 && (forall dispatch, world :: !env.fails(dispatch, world)) && forall request, file ::
      Concat(env.cut(request, file)) == Window(request, file)
  }

  /** Something else is where a path is to be made. */
  predicate Blocked(world: World, kind: CreateKind, path: string) {
    if kind == Directory then path in world.files else path in world.directories
  }

  function FailureOf(dispatch: Dispatch): Event {
    match dispatch
    case Read(request) => Answer(request, Failed(Some([])))
    case _ => Event(dispatch.source, dispatch.correlation, Failed(Some([])))
  }

  /** What a primitive does to the files, and the events it sends. What is to be made and is there is used as it is; a
      process finds its two files and empties them. */
  function Perform(dispatch: Dispatch, world: World, env: Env): (World, seq<Event>) {
    if env.fails(dispatch, world) then (world, [FailureOf(dispatch)]) else
    match dispatch
    case CreatePath(source, correlation, kind, path, _) =>
      if Blocked(world, kind, path) then (world, [FailureOf(dispatch)])
      else
        (if kind == Directory then world.(directories := world.directories + {path})
         else if path in world.files then world
         else world.(files := world.files[path := []]),
         [Event(source, correlation, CreateCompleted(Some(kind)))])
    case StartProcess(source, correlation, path, arguments, directory, out, err) =>
      if out !in world.files || err !in world.files then (world, [FailureOf(dispatch)])
      else
        var ran := env.run(path, arguments, directory);
        (world.(files := world.files[out := ran.stdout][err := ran.stderr],
                runs := world.runs + [Program(path, arguments, directory)]),
         [Event(source, correlation, ProcessStarted(Some(env.pid))),
          Event(source, correlation, ProcessExited(Some(ran.exit)))])
    case Read(request) =>
      if request.path !in world.files then (world, [FailureOf(dispatch)])
      else
        var file := world.files[request.path];
        (world, Reading(request, env.cut(request, file), |file|))
  }

  /** Primitives are performed one by one until a step asks for none, or `fuel` of them have been. */
  function Drive(o: Outcome, world: World, env: Env, fuel: nat): (Outcome, World)
    decreases fuel
  {
    if !o.Handled? || o.step.dispatches == [] || fuel == 0 then (o, world)
    else
      var (after, events) := Perform(o.step.dispatches[0], world, env);
      Drive(HandleAll(o.machine, events), after, env, fuel - 1)
  }

  lemma DriveStep(o: Outcome, dispatch: Dispatch, world: World, env: Env, fuel: nat)
    requires o.Handled? && o.step.dispatches == [dispatch] && fuel > 0
    ensures var (after, events) := Perform(dispatch, world, env);
            Drive(o, world, env, fuel) == Drive(HandleAll(o.machine, events), after, env, fuel - 1)
  {
    hide Perform;
    hide HandleAll;
  }

  lemma DriveEnd(o: Outcome, world: World, env: Env, fuel: nat)
    requires o.Handled? && o.step.dispatches == []
    ensures Drive(o, world, env, fuel) == (o, world)
  {
  }

  lemma OneEvent(m: Machine, event: Event)
    ensures HandleAll(m, [event]) == match Handle(m, Some(event))
                                     case Handled(next, step) => Handled(next, step)
                                     case o => o
  {
    hide Handle;
  }

  /** A machine whose operation has the files of `paths`, waiting in a phase that makes one of them. */
  ghost predicate Waits(m: Machine, phase: Phase, input: Input, limit: int, paths: Paths) {
    && m.head.status == StatusAwaiting && m.head.maxOutputLength == limit && m.state.phase == phase
    && m.state.input == input && Sound(m) && m.chunks == [] && m.readSize == 0
    && ShellPaths(m.state.baseDirectory, m.head.id) == Some(paths)
  }

  lemma AwaitKeeps(m: Machine, dispatches: seq<Dispatch>, phase: Phase, input: Input, limit: int, paths: Paths)
    requires Waits(m.(head := m.head.(status := StatusAwaiting)), phase, input, limit, paths)
    ensures var o := Await(m, dispatches);
            && o.Handled? && o.step.dispatches == dispatches && o.machine.head.id == m.head.id
            && Waits(o.machine, phase, input, limit, paths)
  {
    hide Whole;
    hide Shown;
    hide ShellPaths;
  }

  /** What a phase before the reads asks for, field by field. */
  function Awaited(m: Machine, paths: Paths): seq<Dispatch> {
    match m.state.phase
    case PhaseCreateDirectory =>
      [CreatePath(m.head.id, "create_directory", Directory, paths.directory, 448)]
    case PhaseCreateOut => [CreatePath(m.head.id, "create_out", RegularFile, paths.out, 384)]
    case PhaseCreateErr => [CreatePath(m.head.id, "create_err", RegularFile, paths.err, 384)]
    case _ =>
      [StartProcess(m.head.id, "process", m.state.input.shell, ["-c", m.state.input.command], m.state.input.directory,
                    paths.out, paths.err)]
  }

  lemma Dispatches(m: Machine, phase: Phase, input: Input, limit: int, paths: Paths)
    requires Waits(m.(head := m.head.(status := StatusAwaiting)), phase, input, limit, paths)
    requires phase == PhaseCreateDirectory || phase == PhaseCreateOut || phase == PhaseCreateErr
             || phase == PhaseProcess
    ensures var o := DispatchPhase(m, paths);
            && o.Handled? && Waits(o.machine, phase, input, limit, paths) && o.machine.head.id == m.head.id
            && o.step.dispatches == Awaited(m, paths)
  {
    hide Await;
    hide ShellPaths;
    hide Sound;
    AwaitKeeps(m, Awaited(m, paths), phase, input, limit, paths);
  }

  /** A path that is made leads to the next phase. */
  lemma MadeStep(m: Machine, phase: Phase, next: Phase, input: Input, limit: int, paths: Paths)
    requires Waits(m, phase, input, limit, paths)
    requires (phase == PhaseCreateDirectory && next == PhaseCreateOut)
             || (phase == PhaseCreateOut && next == PhaseCreateErr) || (phase == PhaseCreateErr && next == PhaseProcess)
    ensures var kind := if phase == PhaseCreateDirectory then Directory else RegularFile;
            var o := HandleAll(m, [Event(m.head.id, Correlation(phase), CreateCompleted(Some(kind)))]);
            && o.Handled? && o.step.dispatches != [] && o.machine.head.id == m.head.id
            && Waits(o.machine, next, input, limit, paths)
            && o.step.dispatches == Awaited(o.machine, paths)
  {
    hide ShellPaths;
    hide DispatchPhase;
    hide HandleAll;
    hide Fail;
    var kind := if phase == PhaseCreateDirectory then Directory else RegularFile;
    var event := Event(m.head.id, Correlation(phase), CreateCompleted(Some(kind)));
    OneEvent(m, event);
    var s := m.state.(phase := next);
    var t := if phase == PhaseCreateOut then s.(outPath := paths.out)
             else if phase == PhaseCreateErr then s.(errPath := paths.err) else s;
    Dispatches(m.(state := t), next, input, limit, paths);
  }

  lemma StartedStep(m: Machine, input: Input, limit: int, paths: Paths, pid: int)
    requires Waits(m, PhaseProcess, input, limit, paths) && pid > 1
    ensures var o := Handle(m, Some(Event(m.head.id, Correlation(PhaseProcess), ProcessStarted(Some(pid)))));
            o.Handled? && o.machine.head.id == m.head.id && Waits(o.machine, PhaseProcess, input, limit, paths)
  {
    hide ShellPaths;
    hide DispatchPhase;
    hide Await;
    hide Fail;
    hide Sound;
    SoundProcess(m, pid);
    AwaitKeeps(m.(state := m.state.(processGroupID := pid)), [], PhaseProcess, input, limit, paths);
  }

  lemma SoundProcess(m: Machine, pid: int)
    requires Sound(m) && pid > 1 && m.state.phase == PhaseProcess
    ensures Sound(m.(state := m.state.(processGroupID := pid)))
  {
  }

  /** The exit is recorded as its code, or as 128 more than the signal, and the first read is asked for. */
  lemma ExitedStep(m: Machine, input: Input, limit: int, paths: Paths, exit: ProcessExit, out: Octets, err: Octets)
    requires Waits(m, PhaseProcess, input, limit, paths)
    ensures var o := Handle(m, Some(Event(m.head.id, Correlation(PhaseProcess), ProcessExited(Some(exit)))));
            && o.Handled? && o.step.checkpoint.Some?
            && var c := o.step.checkpoint.value;
            && ReadingBack(c, out, err, if exit.signal != 0 then 128 + exit.signal else exit.code, paths)
            && c.head.maxOutputLength == limit && o.machine == Loaded(c) && c.state.phase == PhaseReadOut
            && Request(o.machine, paths).Some? && o.step.dispatches == [Read(Request(o.machine, paths).value)]
  {
    hide ShellPaths;
    hide DispatchPhase;
    hide Fail;
    hide Request;
    hide ReadingBack;
    hide Continues;
    var code := if exit.signal != 0 then 128 + exit.signal else exit.code;
    var s := m.state.(processGroupID := 0, pendingExitCode := Some(code), phase := PhaseReadOut);
    assert Handle(m, Some(Event(m.head.id, Correlation(PhaseProcess), ProcessExited(Some(exit))))) ==
        DispatchPhase(m.(state := s), paths);
    ExitReads(m, code, out, err, paths);
    NextReads(m.(state := s), 4, out, err, code, paths);
    StartsReading(DispatchPhase(m.(state := s), paths), m.(state := s), out, err, code, paths);
    FirstRead(DispatchPhase(m.(state := s), paths), m.(state := s), out, err, code, paths);
  }

  lemma ExitReads(m: Machine, code: int, out: Octets, err: Octets, paths: Paths)
    requires Sound(m) && m.state.phase == PhaseProcess
    requires ShellPaths(m.state.baseDirectory, m.head.id) == Some(paths)
    ensures var s := m.state.(processGroupID := 0, pendingExitCode := Some(code), phase := PhaseReadOut);
            ReadingBack(Checkpoint(m.head.(status := StatusAwaiting), s), out, err, code, paths)
  {
    hide ShellPaths;
  }

  lemma FirstRead(o: Outcome, m: Machine, out: Octets, err: Octets, code: int, paths: Paths)
    requires o == DispatchPhase(m, paths) && m.state.phase == PhaseReadOut && m.head.maxOutputLength > 0
    requires Continues(o, 4, out, err, code, m.head.maxOutputLength, paths)
    ensures o.Handled? && o.machine.state.phase == PhaseReadOut
    ensures Request(o.machine, paths).Some? && o.step.dispatches == [Read(Request(o.machine, paths).value)]
  {
    hide ReadingBack;
    hide Request;
    hide Whole;
    hide Shown;
    hide WholeResult;
    assert Request(m, paths).Some? by { FirstRequest(m, paths); }
  }

  lemma FirstRequest(m: Machine, paths: Paths)
    requires m.state.phase == PhaseReadOut
    ensures Request(m, paths).Some?
  {
  }

  /** The process starts and exits: the first read is asked for, whatever it wrote. */
  lemma ProcessStep(m: Machine, input: Input, limit: int, paths: Paths, pid: int, exit: ProcessExit, out: Octets,
      err: Octets)
    requires Waits(m, PhaseProcess, input, limit, paths) && pid > 1
    ensures var o := HandleAll(m, [Event(m.head.id, Correlation(PhaseProcess), ProcessStarted(Some(pid))),
                                   Event(m.head.id, Correlation(PhaseProcess), ProcessExited(Some(exit)))]);
            && o.Handled? && o.step.checkpoint.Some?
            && var c := o.step.checkpoint.value;
            && ReadingBack(c, out, err, if exit.signal != 0 then 128 + exit.signal else exit.code, paths)
            && c.head.maxOutputLength == limit && o.machine == Loaded(c) && c.state.phase == PhaseReadOut
            && Request(o.machine, paths).Some? && o.step.dispatches == [Read(Request(o.machine, paths).value)]
  {
    hide Handle;
    hide Request;
    hide ReadingBack;
    hide Waits;
    hide Correlation;
    var started := Event(m.head.id, Correlation(PhaseProcess), ProcessStarted(Some(pid)));
    var exited := Event(m.head.id, Correlation(PhaseProcess), ProcessExited(Some(exit)));
    StartedStep(m, input, limit, paths, pid);
    var next := Handle(m, Some(started)).machine;
    assert [started, exited][1..] == [exited];
    OneEvent(next, exited);
    ExitedStep(next, input, limit, paths, exit, out, err);
  }

  /** From a read phase on: the files named are read, and the operation ends with what they hold. */
  lemma {:induction false} ReadDrive(c: Checkpoint, o: Outcome, out: Octets, err: Octets, code: int, paths: Paths,
      world: World, env: Env, fuel: nat)
    requires ReadingBack(c, out, err, code, paths) && LawfulEnv(env) && OnDisk(world.files, paths, out, err)
    requires o.Handled? && o.machine == Loaded(c) && Request(o.machine, paths).Some?
    requires o.step.dispatches == [Read(Request(o.machine, paths).value)]
    requires fuel >= 9 - Rank(c.state.phase)
    ensures var (end, after) := Drive(o, world, env, fuel);
            after == world && CompletesWith(end, WholeResult(out, err, code, c.head.maxOutputLength, paths))
    decreases 9 - Rank(c.state.phase)
  {
    hide Request;
    hide HandleAll;
    hide ReadDone;
    hide Reads;
    hide CompletesWith;
    hide WholeResult;
    hide Window;
    hide Reading;
    hide ReadingBack;
    hide Drive;
    ReadingIsRead(c, out, err, code, paths);
    var m, request := Loaded(c), Request(o.machine, paths).value;
    var file := StreamOf(out, err, c.state.phase);
    RequestFacts(c, out, err, code, paths);
    DriveStep(o, Read(request), world, env, fuel);
    OneRead(m, request, paths, file, env.cut(request, file));
    ReadDoneContinues(m, out, err, code, request, paths);
    var next := ReadDone(m, Window(request, file), |file|, paths);
    if IsRead(next.machine.state.phase) {
      ReadDrive(next.step.checkpoint.value, next, out, err, code, paths, world, env, fuel - 1);
    } else {
      EndsThere(next, WholeResult(out, err, code, c.head.maxOutputLength, paths), world, env, fuel - 1);
    }
  }

  lemma EndsThere(o: Outcome, end: Finished, world: World, env: Env, fuel: nat)
    requires CompletesWith(o, end)
    ensures Drive(o, world, env, fuel) == (o, world)
  {
    DriveEnd(o, world, env, fuel);
  }

  /** The world once the path of a phase has been made. */
  function Made(world: World, phase: Phase, paths: Paths): World {
    match phase
    case PhaseCreateDirectory => world.(directories := world.directories + {paths.directory})
    case PhaseCreateOut => if paths.out in world.files then world else world.(files := world.files[paths.out := []])
    case _ => if paths.err in world.files then world else world.(files := world.files[paths.err := []])
  }

  function PathOf(phase: Phase, paths: Paths): string {
    match phase
    case PhaseCreateDirectory => paths.directory
    case PhaseCreateOut => paths.out
    case _ => paths.err
  }

  /** A machine waiting for what it has just asked for. */
  ghost predicate Asks(o: Outcome, phase: Phase, id: string, input: Input, limit: int, paths: Paths) {
    && o.Handled? && o.machine.head.id == id && Waits(o.machine, phase, input, limit, paths)
    && o.step.dispatches == Awaited(o.machine, paths)
  }

  lemma MadeDrive(o: Outcome, phase: Phase, next: Phase, id: string, input: Input, limit: int, paths: Paths,
      world: World, env: Env, fuel: nat) returns (asked: Outcome)
    requires Asks(o, phase, id, input, limit, paths) && LawfulEnv(env)
    requires var kind := if phase == PhaseCreateDirectory then Directory else RegularFile;
             fuel > 0 && !Blocked(world, kind, PathOf(phase, paths))
    requires (phase == PhaseCreateDirectory && next == PhaseCreateOut)
             || (phase == PhaseCreateOut && next == PhaseCreateErr) || (phase == PhaseCreateErr && next == PhaseProcess)
    ensures Drive(o, world, env, fuel) == Drive(asked, Made(world, phase, paths), env, fuel - 1)
    ensures Asks(asked, next, id, input, limit, paths)
  {
    hide ShellPaths;
    hide HandleAll;
    hide Sound;
    hide Drive;
    MadeStep(o.machine, phase, next, input, limit, paths);
    DriveStep(o, o.step.dispatches[0], world, env, fuel);
    var kind := if phase == PhaseCreateDirectory then Directory else RegularFile;
    asked := HandleAll(o.machine, [Event(id, Correlation(phase), CreateCompleted(Some(kind)))]);
  }

  lemma ProcessDrive(o: Outcome, id: string, input: Input, limit: int, paths: Paths, world: World, env: Env, fuel: nat)
    requires Asks(o, PhaseProcess, id, input, limit, paths) && LawfulEnv(env) && fuel >= 5
    requires paths.out != paths.err && paths.out in world.files && paths.err in world.files
    ensures var ran := env.run(input.shell, ["-c", input.command], input.directory);
            var code := if ran.exit.signal != 0 then 128 + ran.exit.signal else ran.exit.code;
            var (end, after) := Drive(o, world, env, fuel);
            && CompletesWith(end, WholeResult(ran.stdout, ran.stderr, code, limit, paths))
            && after == world.(files := world.files[paths.out := ran.stdout][paths.err := ran.stderr],
                               runs := world.runs + [Program(input.shell, ["-c", input.command], input.directory)])
  {
    hide ShellPaths;
    hide HandleAll;
    hide Sound;
    hide Drive;
    hide ReadingBack;
    hide Request;
    hide WholeResult;
    hide CompletesWith;
    var ran := env.run(input.shell, ["-c", input.command], input.directory);
    var code := if ran.exit.signal != 0 then 128 + ran.exit.signal else ran.exit.code;
    ProcessStep(o.machine, input, limit, paths, env.pid, ran.exit, ran.stdout, ran.stderr);
    DriveStep(o, o.step.dispatches[0], world, env, fuel);
    var next := HandleAll(o.machine, [Event(id, "process", ProcessStarted(Some(env.pid))),
                                      Event(id, "process", ProcessExited(Some(ran.exit)))]);
    var left := world.(files := world.files[paths.out := ran.stdout][paths.err := ran.stderr],
        runs := world.runs + [Program(input.shell, ["-c", input.command], input.directory)]);
    ReadDrive(next.step.checkpoint.value, next, ran.stdout, ran.stderr, code, paths, left, env, fuel - 1);
  }

  lemma Begins(id: string, input: Input, baseDirectory: string, limit: int, paths: Paths)
    requires NewShellSpec(input, baseDirectory, limit).Some? && ShellPaths(baseDirectory, id) == Some(paths)
    ensures var c := Checkpoint(Head(id, StatusReady, limit), NewState(input, baseDirectory));
            Asks(Handle(Loaded(c), None), PhaseCreateDirectory, id, input, limit, paths)
  {
    hide ShellPaths;
    hide DispatchPhase;
    hide Sound;
    hide Fail;
    var c := Checkpoint(Head(id, StatusReady, limit), NewState(input, baseDirectory));
    SpecLoads(input, baseDirectory, limit, id);
    var m := Loaded(c);
    BeginsSound(m);
    Dispatches(m.(state := m.state.(phase := PhaseCreateDirectory)), PhaseCreateDirectory, input, limit, paths);
  }

  lemma BeginsSound(m: Machine)
    requires Sound(m) && m.chunks == [] && m.state.phase == PhaseNone
    ensures Sound(m.(state := m.state.(phase := PhaseCreateDirectory), head := m.head.(status := StatusAwaiting)))
  {
  }

  lemma PathsDiffer(directory: string)
    ensures directory + "/out" != directory + "/err" && directory != directory + "/out"
            && directory != directory + "/err"
  {
    assert (directory + "/out")[|directory| + 1] == 'o' && (directory + "/err")[|directory| + 1] == 'e';
    assert |directory + "/out"| > |directory|;
  }

  lemma RunDrive(id: string, input: Input, limit: int, paths: Paths, o: Outcome, world: World, env: Env, fuel: nat)
    requires Asks(o, PhaseCreateDirectory, id, input, limit, paths) && LawfulEnv(env) && fuel >= 8
    requires paths.out != paths.err
    requires paths.directory !in world.files && paths.out !in world.directories && paths.err !in world.directories
    requires paths.directory != paths.out && paths.directory != paths.err
    ensures var ran := env.run(input.shell, ["-c", input.command], input.directory);
            var code := if ran.exit.signal != 0 then 128 + ran.exit.signal else ran.exit.code;
            var (end, after) := Drive(o, world, env, fuel);
            && CompletesWith(end, WholeResult(ran.stdout, ran.stderr, code, limit, paths))
            && after.directories == world.directories + {paths.directory}
            && after.files == world.files[paths.out := ran.stdout][paths.err := ran.stderr]
            && after.runs == world.runs + [Program(input.shell, ["-c", input.command], input.directory)]
  {
    hide Asks;
    hide Drive;
    hide CompletesWith;
    hide WholeResult;
    hide LawfulEnv;
    var making := MadeDrive(o, PhaseCreateDirectory, PhaseCreateOut, id, input, limit, paths, world, env, fuel);
    var w := Made(world, PhaseCreateDirectory, paths);
    making := MadeDrive(making, PhaseCreateOut, PhaseCreateErr, id, input, limit, paths, w, env, fuel - 1);
    w := Made(w, PhaseCreateOut, paths);
    making := MadeDrive(making, PhaseCreateErr, PhaseProcess, id, input, limit, paths, w, env, fuel - 2);
    w := Made(w, PhaseCreateErr, paths);
    ProcessDrive(making, id, input, limit, paths, w, env, fuel - 3);
    var ran := env.run(input.shell, ["-c", input.command], input.directory);
    assert w.files[paths.out := ran.stdout][paths.err := ran.stderr] ==
        world.files[paths.out := ran.stdout][paths.err := ran.stderr];
  }

  /** A whole run from a specification, where nothing else is at the operation's paths: the program is run as
      specified, its output goes to the two files that were made for it, and the result shows the two streams. */
  lemma ShellShowsOutput(id: string, input: Input, baseDirectory: string, limit: int, world: World, env: Env, fuel: nat)
    requires NewShellSpec(input, baseDirectory, limit).Some? && LawfulEnv(env) && fuel >= 8
    requires id != "" && id != "." && id != ".." && '/' !in id
    requires var directory := baseDirectory + "/" + id;
             && directory !in world.files
             && directory + "/out" !in world.directories && directory + "/err" !in world.directories
    ensures var directory := baseDirectory + "/" + id;
            var out, err := directory + "/out", directory + "/err";
            var ran := env.run(input.shell, ["-c", input.command], input.directory);
            var c := Checkpoint(Head(id, StatusReady, limit), NewState(input, baseDirectory));
            var (end, after) := Drive(Handle(Loaded(c), None), world, env, fuel);
            && out != err && end.Handled? && end.step.dispatches == [] && end.step.checkpoint.Some?
            && after.directories == world.directories + {directory}
            && after.files == world.files[out := ran.stdout][err := ran.stderr]
            && after.runs == world.runs + [Program(input.shell, ["-c", input.command], input.directory)]
            && var saved := end.step.checkpoint.value;
            && saved.head.status == StatusCompleted && saved.state.result.Some?
            && saved.state.outPath == out && saved.state.errPath == err
            && saved.state.outTruncated == Whole(ran.stdout, limit).Cut?
            && saved.state.errTruncated == Whole(ran.stderr, limit).Cut?
            && var result := saved.state.result.value;
            && result.out == Shown(Whole(ran.stdout, limit), Text(out)) && result.outSize == |ran.stdout|
            && result.err == Shown(Whole(ran.stderr, limit), Text(err)) && result.errSize == |ran.stderr|
            && result.exitCode == (if ran.exit.signal != 0 then 128 + ran.exit.signal else ran.exit.code)
  {
    hide Handle;
    hide Drive;
    hide Asks;
    hide NewShellSpec;
    hide Shown;
    hide Whole;
    hide Text;
    hide LawfulEnv;
    hide Blocked;
    var directory := baseDirectory + "/" + id;
    var paths := Paths(directory, directory + "/out", directory + "/err");
    assert ShellPaths(baseDirectory, id) == Some(paths);
    hide ShellPaths;
    PathsDiffer(directory);
    Begins(id, input, baseDirectory, limit, paths);
    var c := Checkpoint(Head(id, StatusReady, limit), NewState(input, baseDirectory));
    RunDrive(id, input, limit, paths, Handle(Loaded(c), None), world, env, fuel);
  }
}
