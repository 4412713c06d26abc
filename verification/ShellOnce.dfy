/** How often the command of an operation is run, over restarts and crashes: once at most for each start from a
    checkpoint that was saved before the process phase, and never again from one saved in it or behind it. */
module ShellOnce {
  import opened Bytes
  import opened LocalManager
  import opened Operations
  import opened Options
  import opened Output
  import opened OutputWindow
  import opened Primitives
  import opened Shell
  import opened ShellFiles
  import opened ShellReadBack
  import opened ShellRun

  /** An operation whose files are at `paths`. */
  predicate At(m: Machine, paths: Paths) {
    ShellPaths(m.state.baseDirectory, m.head.id) == Some(paths)
  }

  /** What a step asks for is what its phase is for. */
  ghost predicate Tame(o: Outcome, paths: Paths) {
    o.Handled? ==>
      && At(o.machine, paths)
      && (o.step.dispatches != [] ==>
            && |o.step.dispatches| == 1 && o.machine.head.status == StatusAwaiting
            && var d := o.step.dispatches[0];
            match o.machine.state.phase
            case PhaseCreateDirectory => d.CreatePath?
            case PhaseCreateOut => d.CreatePath?
            case PhaseCreateErr => d.CreatePath?
            case PhaseProcess => d.StartProcess?
            case phase => IsRead(phase) && d.Read?)
  }

  /** A step that asks for nothing. */
  ghost predicate Rests(o: Outcome, paths: Paths) {
    o.Handled? && Tame(o, paths) && o.step.dispatches == []
  }

  lemma SaveTame(m: Machine, dispatches: seq<Dispatch>, paths: Paths)
    requires At(m, paths)
    ensures var o := Save(m, dispatches);
            && o.Handled? && At(o.machine, paths) && o.step.dispatches == dispatches
            && o.machine.state.phase == m.state.phase && o.machine.head.status == m.head.status
  {
    hide Whole;
    hide Shown;
    hide ShellPaths;
  }

  lemma FailTame(m: Machine, reason: Reason, paths: Paths)
    requires At(m, paths)
    ensures Rests(Fail(m, reason), paths) && Fail(m, reason).machine.head.status == StatusFailed
  {
    hide Message;
    hide Save;
    hide ShellPaths;
    SaveTame(m.(chunks := [], readSize := 0,
                head := m.head.(status := StatusFailed),
                state := m.state.(phase := PhaseNone, terminalError := Message(reason), errorTruncated := false)), [],
             paths);
  }

  lemma CancelTame(m: Machine, paths: Paths)
    requires At(m, paths)
    ensures Rests(CancelShell(m), paths)
  {
    hide Text;
    hide Save;
    hide ShellPaths;
    SaveTame(m.(chunks := [], readSize := 0,
                head := m.head.(status := StatusCanceled),
                state := m.state.(phase := PhaseNone, terminalError := Text("shell operation canceled"),
                  errorTruncated := false)), [], paths);
  }

  lemma AwaitTame(m: Machine, dispatches: seq<Dispatch>, paths: Paths)
    requires At(m, paths)
    ensures var o := Await(m, dispatches);
            && o.Handled? && At(o.machine, paths) && o.step.dispatches == dispatches
            && o.machine.state.phase == m.state.phase && o.machine.head.status == StatusAwaiting
  {
    hide Save;
    hide ShellPaths;
    SaveTame(m.(head := m.head.(status := StatusAwaiting)), dispatches, paths);
  }

  lemma DispatchTame(m: Machine, paths: Paths)
    requires At(m, paths)
    ensures var o := DispatchPhase(m, paths);
            && o.Handled? && Tame(o, paths)
            && (o.step.dispatches != [] ==> o.machine.state.phase == m.state.phase)
  {
    hide Await;
    hide Fail;
    hide At;
    hide Correlation;
    hide Request;
    FailTame(m, InvalidPhase, paths);
    FailTame(m, InvalidTailSize, paths);
    forall d ensures var o := Await(m, [d]);
                     && o.Handled? && At(o.machine, paths) && o.step.dispatches == [d]
                     && o.machine.state.phase == m.state.phase && o.machine.head.status == StatusAwaiting
    {
      AwaitTame(m, [d], paths);
    }
  }

  lemma UnhandledTame(paths: Paths)
    ensures Tame(Refused, paths) && Tame(Panicked, paths)
  {
  }

  /** A checkpoint of an operation whose process has not been asked for. */
  predicate Starts(c: Checkpoint) {
    || c.head.status == StatusReady
    || (c.head.status == StatusAwaiting
        && (c.state.phase == PhaseCreateDirectory || c.state.phase == PhaseCreateOut
           || c.state.phase == PhaseCreateErr))
  }

  /** What is asked for is the process, or leads to it. */
  predicate Early(o: Outcome) {
    o.Handled? && o.step.dispatches != [] && Rank(o.machine.state.phase) <= 4
  }

  /** What leads to the process is only asked for from a checkpoint before it. */
  lemma FirstTame(c: Checkpoint, paths: Paths)
    requires At(Loaded(c), paths)
    ensures var o := Handle(Loaded(c), None); Tame(o, paths) && (Early(o) ==> Starts(c))
  {
    var m := Loaded(c);
    hide Fail;
    hide CancelShell;
    hide DispatchPhase;
    hide ShellPaths;
    hide Tame;
    forall reason ensures Rests(Fail(m, reason), paths) {
      FailTame(m, reason, paths);
    }
    CancelTame(m, paths);
    UnhandledTame(paths);
    DispatchTame(m.(state := m.state.(phase := PhaseCreateDirectory)), paths);
    DispatchTame(m.(chunks := [], readSize := 0), paths);
    if m.head.status == StatusAwaiting && Early(Handle(m, None)) {
      EarlyPhase(Handle(m, None), paths);
    }
  }

  lemma EarlyPhase(o: Outcome, paths: Paths)
    requires Tame(o, paths) && Early(o)
    ensures o.machine.state.phase == PhaseCreateDirectory || o.machine.state.phase == PhaseCreateOut
            || o.machine.state.phase == PhaseCreateErr || o.machine.state.phase == PhaseProcess
  {
  }

  lemma FinishTame(m: Machine, paths: Paths)
    requires At(m, paths)
    ensures Tame(Finish(m, paths), paths)
  {
    hide Save;
    hide Fail;
    hide BoundedOutput;
    hide Shown;
    hide Incomplete;
    hide Text;
    hide ShellPaths;
    FailTame(m, NoExitStatus, paths);
    forall done: Machine | At(done, paths)
      ensures var o := Save(done, []);
              && o.Handled? && At(o.machine, paths) && o.step.dispatches == []
    {
      SaveTame(done, [], paths);
    }
  }

  lemma ReadTame(m: Machine, event: Event, paths: Paths)
    requires At(m, paths) && IsRead(m.state.phase)
    ensures Tame(ReadPhase(m, event, paths), paths)
  {
    hide Fail;
    hide Finish;
    hide DispatchPhase;
    hide Request;
    hide Concat;
    hide ShellPaths;
    hide Tame;
    forall reason ensures Rests(Fail(m, reason), paths) {
      FailTame(m, reason, paths);
    }
    forall next: Machine | At(next, paths) ensures Tame(Finish(next, paths), paths) {
      FinishTame(next, paths);
    }
    forall next: Machine | At(next, paths)
      ensures var o := DispatchPhase(next, paths);
              && o.Handled? && Tame(o, paths)
              && (o.step.dispatches != [] ==> o.machine.state.phase == next.state.phase)
    {
      DispatchTame(next, paths);
    }
    assert event.kind.ReadOutput? && event.kind.output.Some? ==>
        Tame(Handled(m.(chunks := m.chunks + [event.kind.output.value.data],
                        readSize := m.readSize + |event.kind.output.value.data|), Step(None, [])), paths) by {
      StillTame(m, event, paths);
    }
  }

  lemma StillTame(m: Machine, event: Event, paths: Paths)
    requires At(m, paths)
    ensures event.kind.ReadOutput? && event.kind.output.Some? ==>
              Tame(Handled(m.(chunks := m.chunks + [event.kind.output.value.data],
                              readSize := m.readSize + |event.kind.output.value.data|), Step(None, [])), paths)
  {
  }

  lemma CreatedTame(m: Machine, event: Event, paths: Paths)
    requires At(m, paths)
    requires m.state.phase == PhaseCreateDirectory || m.state.phase == PhaseCreateOut || m.state.phase == PhaseCreateErr
    ensures Tame(Created(m, event, paths), paths)
  {
    hide Fail;
    hide DispatchPhase;
    hide ShellPaths;
    hide Tame;
    FailTame(m, InvalidCreate, paths);
    forall next: Machine | At(next, paths)
      ensures var o := DispatchPhase(next, paths);
              && o.Handled? && Tame(o, paths)
              && (o.step.dispatches != [] ==> o.machine.state.phase == next.state.phase)
    {
      DispatchTame(next, paths);
    }
  }

  lemma ProcessTame(m: Machine, event: Event, paths: Paths)
    requires At(m, paths)
    ensures Tame(Process(m, event, paths), paths)
  {
    hide Fail;
    hide DispatchPhase;
    hide Await;
    hide ShellPaths;
    hide Tame;
    forall reason ensures Rests(Fail(m, reason), paths) {
      FailTame(m, reason, paths);
    }
    forall next: Machine | At(next, paths) ensures Rests(Await(next, []), paths) {
      RestTame(next, paths);
    }
    forall next: Machine | At(next, paths)
      ensures var o := DispatchPhase(next, paths);
              && o.Handled? && Tame(o, paths)
              && (o.step.dispatches != [] ==> o.machine.state.phase == next.state.phase)
    {
      DispatchTame(next, paths);
    }
  }

  lemma RestTame(m: Machine, paths: Paths)
    requires At(m, paths)
    ensures Rests(Await(m, []), paths)
  {
    hide Await;
    hide ShellPaths;
    AwaitTame(m, [], paths);
  }

  lemma EventTame(m: Machine, event: Event, paths: Paths)
    requires At(m, paths) && m.head.status == StatusAwaiting
    ensures Tame(Handle(m, Some(event)), paths)
  {
    hide Fail;
    hide CancelShell;
    hide Created;
    hide Process;
    hide ReadPhase;
    hide ShellPaths;
    hide Correlation;
    hide Tame;
    forall reason ensures Rests(Fail(m, reason), paths) {
      FailTame(m, reason, paths);
    }
    CancelTame(m, paths);
    match m.state.phase
    case PhaseCreateDirectory => CreatedTame(m, event, paths);
    case PhaseCreateOut => CreatedTame(m, event, paths);
    case PhaseCreateErr => CreatedTame(m, event, paths);
    case PhaseProcess => ProcessTame(m, event, paths);
    case PhaseNone =>
    case PhaseOther(_) =>
    case _ => ReadTame(m, event, paths);
  }

  lemma EndedRefuses(m: Machine, event: Event)
    requires IsTerminal(m.head.status)
    ensures Handle(m, Some(event)) == Refused
  {
  }

  /** A handled event leaves the shell ended, or at its files in the same phase or a later one. */
  lemma PhaseKept(m: Machine, event: Event, paths: Paths)
    requires At(m, paths) && m.head.status == StatusAwaiting
    ensures var o := Handle(m, Some(event));
            o.Handled? ==>
              && At(o.machine, paths)
              && (o.machine.head.status == StatusAwaiting || IsTerminal(o.machine.head.status))
              && (o.machine.head.status == StatusAwaiting ==> Rank(o.machine.state.phase) >= Rank(m.state.phase))
  {
    hide Handle;
    hide ShellPaths;
    hide Completes;
    EventHandled(m, event);
    EventTame(m, event, paths);
  }

  lemma {:induction false} AllTame(m: Machine, events: seq<Event>, paths: Paths)
    requires At(m, paths) && m.head.status == StatusAwaiting && events != []
    ensures var o := HandleAll(m, events);
            Tame(o, paths) && (o.Handled? && o.step.dispatches != [] ==>
              Rank(o.machine.state.phase) > Rank(m.state.phase))
    decreases |events|
  {
    hide Handle;
    hide Tame;
    hide ShellPaths;
    hide Rank;
    hide Completes;
    UnhandledTame(paths);
    EventTame(m, events[0], paths);
    EventHandled(m, events[0]);
    var o := Handle(m, Some(events[0]));
    if |events| > 1 && o.Handled? {
      PhaseKept(m, events[0], paths);
      if o.machine.head.status == StatusAwaiting {
        AllTame(o.machine, events[1..], paths);
      } else {
        EndedRefuses(o.machine, events[1]);
      }
    }
  }

  lemma PerformedOnce(o: Outcome, world: World, paths: Paths, env: Env)
    requires Tame(o, paths) && o.Handled? && o.step.dispatches != []
    ensures var (after, events) := Perform(o.step.dispatches[0], world, env);
            var next := HandleAll(o.machine, events);
            && Tame(next, paths) && (Early(next) ==> Early(o))
            && world.runs <= after.runs
            && |after.runs| + (if Early(next) then 1 else 0) <= |world.runs| + if Early(o) then 1 else 0
  {
    hide HandleAll;
    hide ShellPaths;
    hide Outputs;
    hide Blocked;
    var (after, events) := Perform(o.step.dispatches[0], world, env);
    assert events != [];
    AllTame(o.machine, events, paths);
  }

  lemma {:induction false} DriveOnce(o: Outcome, world: World, paths: Paths, env: Env, fuel: nat)
    requires Tame(o, paths)
    ensures var after := Drive(o, world, env, fuel).1;
            world.runs <= after.runs && |after.runs| <= |world.runs| + if Early(o) then 1 else 0
    decreases fuel
  {
    hide Tame;
    hide Early;
    hide Perform;
    hide HandleAll;
    if o.Handled? && o.step.dispatches != [] && fuel > 0 {
      PerformedOnce(o, world, paths, env);
      var (after, events) := Perform(o.step.dispatches[0], world, env);
      DriveOnce(HandleAll(o.machine, events), after, paths, env, fuel - 1);
    }
  }

  /** A life of an operation: it is started from a saved checkpoint, and crashes after some primitives. */
  datatype Life = Life(from: Checkpoint, performed: nat)

  function AfterLives(lives: seq<Life>, world: World, env: Env): World {
    if lives == [] then world
    else
      var before := AfterLives(lives[..|lives| - 1], world, env);
      var last := lives[|lives| - 1];
      Drive(Handle(Loaded(last.from), None), before, env, last.performed).1
  }

  /** How many of some lives start from a checkpoint before the process phase. */
  function StartsIn(lives: seq<Life>): nat {
    if lives == [] then 0
    else StartsIn(lives[..|lives| - 1]) + if Starts(lives[|lives| - 1].from) then 1 else 0
  }

  /** However often an operation is started, and wherever it crashes: its command is run at most once for each start
      from a checkpoint saved before the process phase. From one in the process phase or behind it, never. */
  lemma {:induction false} RunsBounded(lives: seq<Life>, world: World, env: Env, paths: Paths)
    requires forall life :: life in lives ==>
             ShellPaths(life.from.state.baseDirectory, life.from.head.id) == Some(paths)
    ensures var after := AfterLives(lives, world, env);
            world.runs <= after.runs && |after.runs| <= |world.runs| + StartsIn(lives)
  {
    hide ShellPaths;
    hide Handle;
    hide Drive;
    if lives != [] {
      var front, last := lives[..|lives| - 1], lives[|lives| - 1];
      RunsBounded(front, world, env, paths);
      FirstTame(last.from, paths);
      DriveOnce(Handle(Loaded(last.from), None), AfterLives(front, world, env), paths, env, last.performed);
    }
  }

  /** The bound is met: an operation that is started anew each time runs its command each time. The loop saves a
      checkpoint only after the manager has started what it asks for, so a crash in between leads to such a start. */
  lemma {:induction false} RunsEachTime(lives: seq<Life>, id: string, input: Input, baseDirectory: string, limit: int,
      world: World, env: Env)
    requires NewShellSpec(input, baseDirectory, limit).Some? && LawfulEnv(env)
    requires id != "" && id != "." && id != ".." && '/' !in id
    requires forall life :: life in lives ==>
               && life.from == Checkpoint(Head(id, StatusReady, limit), NewState(input, baseDirectory))
               && life.performed >= 8
    requires var directory := baseDirectory + "/" + id;
             && directory !in world.files
             && directory + "/out" !in world.directories && directory + "/err" !in world.directories
    ensures var after, directory := AfterLives(lives, world, env), baseDirectory + "/" + id;
            && |after.runs| == |world.runs| + |lives|
            && directory !in after.files
            && directory + "/out" !in after.directories && directory + "/err" !in after.directories
  {
    hide NewShellSpec;
    hide LawfulEnv;
    hide Handle;
    hide Drive;
    hide Shown;
    hide Whole;
    hide Text;
    if lives != [] {
      var front, last := lives[..|lives| - 1], lives[|lives| - 1];
      RunsEachTime(front, id, input, baseDirectory, limit, world, env);
      ShellShowsOutput(id, input, baseDirectory, limit, AfterLives(front, world, env), env, last.performed);
      PathsDiffer(baseDirectory + "/" + id);
    }
  }
}
