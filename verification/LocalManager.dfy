/** The local operation manager, running shell operations: it starts each once, counts the
    primitives in flight, and sends every checkpoint on. */
module LocalManager {
  import opened Bytes
  import opened Operations
  import opened Options
  import opened Output
  import opened OutputWindow
  import opened Primitives
  import opened Shell
  import opened ShellPanics
  import opened ShellRun

  /** A running operation; `canceled` is its context. */
  datatype Running = Running(machine: Machine, canceled: bool)

  /** A primitive that was started, and for which phase. */
  datatype Start = Start(id: string, rank: nat)

  /** The setting of a step: whose, the rank of the phase so far, whether its primitive has completed, and the phase. */
  datatype Pace = Pace(id: string, rank: int, completes: bool, phase: Phase)

  /** What a step does about the primitive in flight: it starts at most one other, for a later phase, and only
      after a completion; after a completion it starts another or ends; otherwise it stays in its phase. */
  ghost predicate Paced(o: Outcome, p: Pace) {
    o.Handled? ==>
      var m, step := o.machine, o.step;
      && m.head.id == p.id && |step.dispatches| <= 1
      && (step.checkpoint.Some? ==>
            step.checkpoint.value == Checkpoint(m.head, m.state)
              && (m.head.status == StatusAwaiting || IsTerminal(m.head.status)))
      && (step.checkpoint.None? ==> step.dispatches == [] && m.head.status == StatusAwaiting)
      && (step.dispatches != [] ==> p.completes && m.head.status == StatusAwaiting && Rank(m.state.phase) > p.rank)
      && (step.dispatches == [] && !IsTerminal(m.head.status) ==> !p.completes && m.state.phase == p.phase)
  }

  lemma SaveSays(m: Machine, dispatches: seq<Dispatch>)
    ensures var o := Save(m, dispatches);
            && o.Handled? && o.step.dispatches == dispatches
               && o.step.checkpoint == Some(Checkpoint(o.machine.head, o.machine.state))
            && o.machine.head == m.head && o.machine.state.phase == m.state.phase
  {
    hide Whole;
    hide Shown;
  }

  lemma FailPaced(m: Machine, reason: Reason, p: Pace)
    requires m.head.id == p.id
    ensures Paced(Fail(m, reason), p)
  {
    hide Message;
    hide Save;
    SaveSays(m.(chunks := [], readSize := 0,
                head := m.head.(status := StatusFailed),
                state := m.state.(phase := PhaseNone, terminalError := Message(reason), errorTruncated := false)), []);
  }

  lemma CancelEnds(m: Machine, p: Pace)
    requires m.head.id == p.id
    ensures Paced(CancelShell(m), p)
    ensures CancelShell(m).Handled? && CancelShell(m).step.dispatches == []
            && IsTerminal(CancelShell(m).machine.head.status)
  {
    hide Text;
    hide Save;
    SaveSays(m.(chunks := [], readSize := 0,
                head := m.head.(status := StatusCanceled),
                state := m.state.(phase := PhaseNone, terminalError := Text("shell operation canceled"),
                  errorTruncated := false)), []);
  }

  lemma AwaitPaced(m: Machine, dispatches: seq<Dispatch>, p: Pace)
    requires m.head.id == p.id && |dispatches| <= 1
    requires if p.completes then dispatches != [] && Rank(m.state.phase) > p.rank
             else dispatches == [] && m.state.phase == p.phase
    ensures Paced(Await(m, dispatches), p)
  {
    hide Save;
    hide Rank;
    SaveSays(m.(head := m.head.(status := StatusAwaiting)), dispatches);
  }

  /** A machine that may go on to the phase it is set to. */
  predicate MovedOn(m: Machine, p: Pace) {
    m.head.id == p.id && p.completes && (Rank(m.state.phase) > p.rank || Rank(m.state.phase) == 0)
  }

  lemma DispatchPaced(m: Machine, paths: Paths, p: Pace)
    requires MovedOn(m, p)
    ensures Paced(DispatchPhase(m, paths), p)
  {
    hide Await;
    hide Fail;
    hide Correlation;
    hide Request;
    hide Paced;
    FailPaced(m, InvalidPhase, p);
    FailPaced(m, InvalidTailSize, p);
    if Rank(m.state.phase) > p.rank {
      forall d: Dispatch ensures Paced(Await(m, [d]), p) {
        AwaitPaced(m, [d], p);
      }
    }
  }

  lemma FinishPaced(m: Machine, paths: Paths, p: Pace)
    requires m.head.id == p.id
    ensures Paced(Finish(m, paths), p)
  {
    hide Save;
    hide Fail;
    hide BoundedOutput;
    hide Shown;
    hide Incomplete;
    hide Text;
    FailPaced(m, NoExitStatus, p);
    forall done: Machine, dispatches: seq<Dispatch>
      ensures var o := Save(done, dispatches);
              && o.Handled? && o.machine.head == done.head && o.step.dispatches == dispatches
              && o.step.checkpoint == Some(Checkpoint(o.machine.head, o.machine.state))
    {
      SaveSays(done, dispatches);
    }
  }

  lemma ReadDonePaced(m: Machine, all: Octets, size: int, paths: Paths, p: Pace)
    requires IsRead(m.state.phase) && m.head.id == p.id && p.completes && p.rank == Rank(m.state.phase)
    ensures Paced(ReadDone(m, all, size, paths), p)
  {
    hide DispatchPhase;
    hide Finish;
    hide Paced;
    forall next: Machine | MovedOn(next, p) ensures Paced(DispatchPhase(next, paths), p) {
      DispatchPaced(next, paths, p);
    }
    forall next: Machine | next.head.id == p.id ensures Paced(Finish(next, paths), p) {
      FinishPaced(next, paths, p);
    }
  }

  lemma ReadPaced(m: Machine, event: Event, paths: Paths)
    requires IsRead(m.state.phase) && m.head.status == StatusAwaiting
    ensures Paced(ReadPhase(m, event, paths),
            Pace(m.head.id, Rank(m.state.phase), Completes(event.kind), m.state.phase))
  {
    hide Fail;
    hide ReadDone;
    hide Concat;
    hide Request;
    hide Rank;
    var p := Pace(m.head.id, Rank(m.state.phase), Completes(event.kind), m.state.phase);
    forall reason ensures Paced(Fail(m, reason), p) {
      FailPaced(m, reason, p);
    }
    if event.kind.ReadCompleted? && event.kind.size.Some? {
      ReadDonePaced(m.(chunks := [], readSize := 0), Concat(m.chunks), event.kind.size.value, paths, p);
    }
  }

  lemma ProcessPaced(m: Machine, event: Event, paths: Paths)
    requires m.head.status == StatusAwaiting && m.state.phase == PhaseProcess
    ensures Paced(Process(m, event, paths), Pace(m.head.id, Rank(m.state.phase), Completes(event.kind), m.state.phase))
  {
    hide Fail;
    hide DispatchPhase;
    hide Await;
    hide Paced;
    var p := Pace(m.head.id, Rank(m.state.phase), Completes(event.kind), m.state.phase);
    forall reason ensures Paced(Fail(m, reason), p) {
      FailPaced(m, reason, p);
    }
    match event.kind
    case ProcessStarted(pid) =>
      if pid.Some? && pid.value > 1 {
        AwaitPaced(m.(state := m.state.(processGroupID := pid.value)), [], p);
      }
    case ProcessExited(exit) =>
      if exit.Some? {
        var s := m.state.(processGroupID := 0, pendingExitCode := Some(ExitStatus(exit.value)), phase := PhaseReadOut);
        DispatchPaced(m.(state := s), paths, p);
      }
    case _ =>
  }

  lemma CreatedPaced(m: Machine, event: Event, paths: Paths)
    requires m.state.phase == PhaseCreateDirectory || m.state.phase == PhaseCreateOut || m.state.phase == PhaseCreateErr
    ensures Paced(Created(m, event, paths), Pace(m.head.id, Rank(m.state.phase), Completes(event.kind), m.state.phase))
  {
    hide Fail;
    hide DispatchPhase;
    hide Paced;
    var p := Pace(m.head.id, Rank(m.state.phase), Completes(event.kind), m.state.phase);
    FailPaced(m, InvalidCreate, p);
    forall next: Machine | MovedOn(next, p) ensures Paced(DispatchPhase(next, paths), p) {
      DispatchPaced(next, paths, p);
    }
  }

  /** Every event to a shell: no new primitive while one is in flight, and none left hanging after it completes. */
  lemma AwaitedPaced(m: Machine, event: Event)
    requires m.head.status == StatusAwaiting
    ensures Paced(Handle(m, Some(event)), Pace(m.head.id, Rank(m.state.phase), Completes(event.kind), m.state.phase))
  {
    hide Fail;
    hide CancelShell;
    hide Created;
    hide Process;
    hide ReadPhase;
    hide Paced;
    hide Correlation;
    hide ShellPaths;
    hide Completes;
    hide Rank;
    var p := Pace(m.head.id, Rank(m.state.phase), Completes(event.kind), m.state.phase);
    forall reason ensures Paced(Fail(m, reason), p) {
      FailPaced(m, reason, p);
    }
    CancelEnds(m, p);
    if ShellPaths(m.state.baseDirectory, m.head.id).Some? {
      var paths := ShellPaths(m.state.baseDirectory, m.head.id).value;
      match m.state.phase
      case PhaseCreateDirectory => CreatedPaced(m, event, paths);
      case PhaseCreateOut => CreatedPaced(m, event, paths);
      case PhaseCreateErr => CreatedPaced(m, event, paths);
      case PhaseProcess => ProcessPaced(m, event, paths);
      case PhaseNone =>
      case PhaseOther(_) =>
      case _ => ReadPaced(m, event, paths);
    }
  }

  /** A canceled completion ends the shell. */
  lemma CanceledEnds(m: Machine, event: Event)
    requires m.head.status == StatusAwaiting && event.kind.Canceled?
    ensures var o := Handle(m, Some(event)); o.Handled? && o.step.dispatches == [] && IsTerminal(o.machine.head.status)
  {
    hide Fail;
    hide CancelShell;
    hide Paced;
    FailEnds(m, WrongSource);
    CancelEnds(m, Pace(m.head.id, -1, true, m.state.phase));
  }

  lemma FailEnds(m: Machine, reason: Reason)
    ensures Fail(m, reason).Handled? && Fail(m, reason).step.dispatches == []
            && IsTerminal(Fail(m, reason).machine.head.status)
  {
    hide Message;
    hide Save;
    SaveSays(m.(chunks := [], readSize := 0,
                head := m.head.(status := StatusFailed),
                state := m.state.(phase := PhaseNone, terminalError := Message(reason), errorTruncated := false)), []);
  }

  /** The first step of an operation starts one primitive, or ends it, or is refused. */
  lemma FirstPaced(m: Machine)
    ensures Paced(Handle(m, None), Pace(m.head.id, -1, true, m.state.phase)) && !Handle(m, None).Panicked?
  {
    hide Fail;
    hide CancelShell;
    hide DispatchPhase;
    hide Paced;
    hide ShellPaths;
    hide Rank;
    var p := Pace(m.head.id, -1, true, m.state.phase);
    forall reason ensures Paced(Fail(m, reason), p) && Fail(m, reason).Handled? {
      FailPaced(m, reason, p);
      FailEnds(m, reason);
    }
    CancelEnds(m, p);
    forall next: Machine, paths | next.head.id == p.id
      ensures Paced(DispatchPhase(next, paths), p) && !DispatchPhase(next, paths).Panicked?
    {
      DispatchPaced(next, paths, p);
      DispatchSafe(next, paths);
    }
    RefusedPaced(p);
  }

  lemma DispatchSafe(m: Machine, paths: Paths)
    ensures !DispatchPhase(m, paths).Panicked?
  {
    hide Message;
    hide Correlation;
    hide BoundError;
  }

  lemma RefusedPaced(p: Pace)
    ensures Paced(Refused, p)
  {
  }

  /** Updates of one operation end with its terminal one. */
  ghost predicate LogKept(log: seq<Checkpoint>, accepted: set<string>) {
    && (forall i, j :: 0 <= i < j < |log| && log[i].head.id == log[j].head.id ==> !IsTerminal(log[i].head.status))
    && (forall i :: 0 <= i < |log| ==> log[i].head.id in accepted && IsUpdate(log[i]))
  }

  /** An update says that an operation waits, or how it ended. */
  predicate IsUpdate(c: Checkpoint) {
    c.head.status == StatusAwaiting || IsTerminal(c.head.status)
  }

  ghost predicate Ended(log: seq<Checkpoint>, id: string) {
    exists i :: 0 <= i < |log| && log[i].head.id == id && IsTerminal(log[i].head.status)
  }

  /** The primitives of one operation are started for ever later phases. */
  ghost predicate StartsKept(starts: seq<Start>, accepted: set<string>) {
    && (forall i, j :: 0 <= i < j < |starts| && starts[i].id == starts[j].id ==> starts[i].rank < starts[j].rank)
    && (forall i :: 0 <= i < |starts| ==> starts[i].id in accepted)
  }

  ghost predicate Below(starts: seq<Start>, id: string, rank: int) {
    forall i :: 0 <= i < |starts| && starts[i].id == id ==> starts[i].rank <= rank
  }

  /** No operation has two primitives in flight. */
  ghost predicate FlightKept(inFlight: multiset<string>, accepted: set<string>) {
    forall id :: inFlight[id] <= 1 && (id !in accepted ==> inFlight[id] == 0)
  }

  /** What the manager has done so far: primitives in flight and started, and updates. */
  datatype Book = Book(inFlight: multiset<string>, starts: seq<Start>, log: seq<Checkpoint>)

  ghost predicate BookKept(book: Book, accepted: set<string>) {
    LogKept(book.log, accepted) && StartsKept(book.starts, accepted) && FlightKept(book.inFlight, accepted)
  }

  /** A running shell waits for its one primitive, started for the phase it is in. */
  ghost predicate Runs(book: Book, accepted: set<string>, id: string, machine: Machine) {
    && id in accepted && machine.head.id == id && machine.head.status == StatusAwaiting
    && book.inFlight[id] == 1 && !Ended(book.log, id) && Below(book.starts, id, Rank(machine.state.phase))
  }

  ghost predicate Trust(operations: map<string, Running>, log: seq<Checkpoint>) {
    && (forall id :: id in operations ==> Sound(operations[id].machine))
    && (forall i :: 0 <= i < |log| ==> SoundCheckpoint(log[i]))
  }

  lemma TrustMore(operations: map<string, Running>, log: seq<Checkpoint>, id: string, canceled: bool, machine: Machine,
      step: Step, rank: int)
    requires Trust(operations, log) && GoodStep(Handled(machine, step), id, rank)
    ensures Trust(if IsTerminal(machine.head.status) then operations - {id}
            else operations[id := Running(machine, canceled)],
                  log + if step.checkpoint.Some? then [step.checkpoint.value] else [])
  {
    hide Sound;
    hide SoundCheckpoint;
  }

  /** An operation in the state a step left it in, or dropped with its end. */
  function Placed(operations: map<string, Running>, id: string, running: Running): map<string, Running> {
    if IsTerminal(running.machine.head.status) then operations - {id} else operations[id := running]
  }

  /** A completion reaches a canceled operation as a cancellation. */
  function Heard(event: Event, canceled: bool): Event {
    if Completes(event.kind) && canceled then event.(kind := Canceled) else event
  }

  /** One book goes on from another: no update and no start is ever forgotten. */
  predicate Continues(before: Book, after: Book) {
    before.log <= after.log && before.starts <= after.starts
  }

  lemma LogMore(book: Book, accepted: set<string>, c: Checkpoint)
    requires BookKept(book, accepted) && c.head.id in accepted && !Ended(book.log, c.head.id) && IsUpdate(c)
    ensures var more := book.(log := book.log + [c]);
            && BookKept(more, accepted)
            && (!IsTerminal(c.head.status) ==> !Ended(more.log, c.head.id))
  {
    EndedMore(book.log, c, c.head.id);
  }

  lemma EndedMore(log: seq<Checkpoint>, c: Checkpoint, id: string)
    ensures Ended(log + [c], id) <==> Ended(log, id) || (c.head.id == id && IsTerminal(c.head.status))
  {
    var more := log + [c];
    if Ended(log, id) {
      var i :| 0 <= i < |log| && log[i].head.id == id && IsTerminal(log[i].head.status);
      assert more[i] == log[i];
    }
    if c.head.id == id && IsTerminal(c.head.status) {
      assert more[|log|] == c;
    }
  }

  lemma StartMore(book: Book, accepted: set<string>, id: string, below: int, rank: nat)
    requires BookKept(book, accepted) && id in accepted && book.inFlight[id] == 0 && Below(book.starts, id, below)
             && below < rank
    ensures var more := book.(inFlight := book.inFlight + multiset{id}, starts := book.starts + [Start(id, rank)]);
            BookKept(more, accepted) && more.inFlight[id] == 1 && Below(more.starts, id, rank)
  {
  }

  /** Whatever is done for one operation, the others run on. */
  lemma OthersRun(book: Book, accepted: set<string>, id: string, log: seq<Checkpoint>, starts: seq<Start>,
      inFlight: multiset<string>, more: set<string>,
                  other: string, machine: Machine)
    requires Runs(book, accepted, other, machine) && other != id && accepted <= more
    requires log == book.log || (|log| > 0 && log[..|log| - 1] == book.log && log[|log| - 1].head.id == id)
    requires starts == book.starts
             || (|starts| > 0 && starts[..|starts| - 1] == book.starts && starts[|starts| - 1].id == id)
    requires inFlight[other] == book.inFlight[other]
    ensures Runs(Book(inFlight, starts, log), more, other, machine)
  {
    if log != book.log {
      assert log == book.log + [log[|log| - 1]];
      EndedMore(book.log, log[|log| - 1], other);
    }
  }

  /** How often an operation had a primitive started. */
  function StartCount(starts: seq<Start>, id: string): nat {
    if starts == [] then 0
    else StartCount(starts[..|starts| - 1], id) + if starts[|starts| - 1].id == id then 1 else 0
  }

  /** The events of one operation's primitives. */
  function EventsOf(events: seq<Event>, id: string): seq<Event> {
    if events == [] then []
    else EventsOf(events[..|events| - 1], id) + if events[|events| - 1].source == id then [events[|events| - 1]] else []
  }

  /** How many of some events complete a primitive. */
  function EndCount(events: seq<Event>): nat {
    if events == [] then 0
    else EndCount(events[..|events| - 1]) + if Completes(events[|events| - 1].kind) then 1 else 0
  }

  /** In flight is what was started and has not completed. */
  ghost predicate Conserved(inFlight: multiset<string>, starts: seq<Start>, handled: seq<Event>) {
    forall id :: inFlight[id] == StartCount(starts, id) - EndCount(EventsOf(handled, id))
  }

  lemma StartedConserves(inFlight: multiset<string>, starts: seq<Start>, handled: seq<Event>, id: string, rank: nat)
    requires Conserved(inFlight, starts, handled)
    ensures Conserved(inFlight + multiset{id}, starts + [Start(id, rank)], handled)
  {
    hide EndCount;
    hide EventsOf;
    var more := starts + [Start(id, rank)];
    assert more[..|more| - 1] == starts;
  }

  lemma EventMore(handled: seq<Event>, event: Event, id: string)
    ensures EndCount(EventsOf(handled + [event], id)) ==
            EndCount(EventsOf(handled, id)) + if event.source == id && Completes(event.kind) then 1 else 0
  {
    assert (handled + [event])[..|handled|] == handled;
    var before := EventsOf(handled, id);
    assert (before + [event])[..|before|] == before;
    assert before + [] == before;
  }

  lemma HandledConserves(inFlight: multiset<string>, starts: seq<Start>, handled: seq<Event>, event: Event)
    requires Conserved(inFlight, starts, handled) && event.source in inFlight
    ensures Conserved(if Completes(event.kind) then inFlight - multiset{event.source} else inFlight, starts,
                      handled + [event])
  {
    hide EndCount;
    hide EventsOf;
    hide StartCount;
    hide Completes;
    forall id
      ensures EndCount(EventsOf(handled + [event], id)) ==
              EndCount(EventsOf(handled, id)) + if event.source == id && Completes(event.kind) then 1 else 0
    {
      EventMore(handled, event, id);
    }
  }

  lemma {:induction false} EndCountSplit(a: seq<Event>, b: seq<Event>)
    ensures EndCount(a + b) == EndCount(a) + EndCount(b)
  {
    if b == [] {
      assert a + b == a;
    } else {
      assert (a + b)[..|a + b| - 1] == a + b[..|b| - 1];
      EndCountSplit(a, b[..|b| - 1]);
    }
  }

  lemma {:induction false} NoEnds(events: seq<Event>)
    requires forall i :: 0 <= i < |events| ==> !Completes(events[i].kind)
    ensures EndCount(events) == 0
  {
    if events != [] {
      NoEnds(events[..|events| - 1]);
    }
  }

  /** One whole stream after the other. */
  function AllOf(streams: seq<seq<Event>>): seq<Event> {
    if streams == [] then [] else AllOf(streams[..|streams| - 1]) + streams[|streams| - 1]
  }

  lemma {:induction false} StreamsEnd(streams: seq<seq<Event>>, id: string)
    requires forall k :: 0 <= k < |streams| ==> Stream(streams[k], id)
    ensures EndCount(AllOf(streams)) == |streams|
  {
    if streams != [] {
      var front, last := streams[..|streams| - 1], streams[|streams| - 1];
      StreamsEnd(front, id);
      EndCountSplit(AllOf(front), last);
      NoEnds(last[..|last| - 1]);
    }
  }

  class Manager {
    var operations: map<string, Running>
    var accepted: set<string>
    var activePrimitives: nat
    var pendingUpdates: seq<Checkpoint>
    /** The primitives that run beside the manager, and a record of what it has done. */
    var book: Book
    ghost var completions: nat
    /** The events of primitives received. */
    ghost var handled: seq<Event>

    /** The counter counts what is in flight, which is what was started less what completed;
        the pending updates are the last of all there were. */
    ghost predicate Counted()
      reads this
    {
      && activePrimitives == |book.inFlight| && |book.starts| == completions + activePrimitives
      && Conserved(book.inFlight, book.starts, handled)
      && |pendingUpdates| <= |book.log| && pendingUpdates == book.log[|book.log| - |pendingUpdates|..]
    }

    ghost predicate Valid()
      reads this
    {
      && Counted() && BookKept(book, accepted)
      && forall id :: id in operations ==> Runs(book, accepted, id, operations[id].machine)
    }

    constructor ()
      ensures Valid() && Trusted() && operations == map[] && accepted == {} && book == Book(multiset{}, [], [])
    {
      operations, accepted, activePrimitives, pendingUpdates := map[], {}, 0, [];
      book, completions, handled := Book(multiset{}, [], []), 0, [];
    }

    /** The manager between a step of one operation and its acceptance: its last primitive, if it has completed, is
        gone. */
    ghost predicate Between(id: string, completes: bool, rank: int)
      reads this
    {
      && Counted() && BookKept(book, accepted)
      && id in accepted && !Ended(book.log, id) && Below(book.starts, id, rank)
         && book.inFlight[id] == (if completes then 0 else 1)
      && forall other :: other in operations && other != id ==> Runs(book, accepted, other, operations[other].machine)
    }

    method AppendLocalUpdate(checkpoint: Checkpoint)
      requires Counted()
      modifies this`pendingUpdates, this`book
      ensures Counted() && book == old(book).(log := old(book).log + [checkpoint])
      ensures pendingUpdates == old(pendingUpdates) + [checkpoint]
    {
      hide Conserved;
      pendingUpdates := pendingUpdates + [checkpoint];
      book := book.(log := book.log + [checkpoint]);
    }

    method StartPrimitive(id: string, rank: nat)
      requires Counted()
      modifies this`activePrimitives, this`book
      ensures Counted()
      ensures book == old(book).(inFlight := old(book).inFlight + multiset{id}, starts := old(book).starts
              + [Start(id, rank)])
    {
      StartedConserves(book.inFlight, book.starts, handled, id, rank);
      hide Conserved;
      activePrimitives := activePrimitives + 1;
      book := book.(inFlight := book.inFlight + multiset{id}, starts := book.starts + [Start(id, rank)]);
    }

    /** Every machine and every update is sound: no panic is ahead, and every saved state loads again. */
    ghost predicate Trusted()
      reads this
    {
      Trust(operations, book.log)
    }

    /** No panic is ahead, however the operations were loaded. */
    ghost predicate Safe()
      reads this
    {
      forall id :: id in operations ==> Guarded(operations[id].machine)
    }

    /** A step is accepted: its checkpoint sent on, the operation dropped if it has ended, its primitive started if it
        has one. */
    method AcceptLocalStep(id: string, canceled: bool, machine: Machine, step: Step, ghost completes: bool,
        ghost phase: Phase, ghost rank: int)
      requires Between(id, completes, rank) && rank <= Rank(phase)
      requires Paced(Handled(machine, step), Pace(id, rank, completes, phase))
      modifies this`operations, this`activePrimitives, this`pendingUpdates, this`book
      ensures Valid()
      ensures operations == Placed(old(operations), id, Running(machine, canceled))
      ensures book.log == old(book).log + if step.checkpoint.Some? then [step.checkpoint.value] else []
      ensures book.starts == old(book).starts +
              if step.dispatches != [] then [Start(id, Rank(machine.state.phase))] else []
      ensures old(Trusted()) && GoodStep(Handled(machine, step), id, rank) ==> Trusted()
    {
      hide Conserved;
      hide Sound;
      hide SoundCheckpoint;
      hide BookKept;
      hide Ended;
      hide Below;
      hide Rank;
      hide Runs;
      hide Trust;
      hide GoodStep;
      if Trusted() && GoodStep(Handled(machine, step), id, rank) {
        TrustMore(operations, book.log, id, canceled, machine, step, rank);
      }
      if step.checkpoint.Some? {
        Record(id, step.checkpoint.value, completes, rank);
        if IsTerminal(step.checkpoint.value.head.status) {
          operations := operations - {id};
          return;
        }
      }
      if step.dispatches != [] {
        Launch(id, rank, Rank(machine.state.phase));
      } else {
        BelowMore(book.starts, id, rank, Rank(phase));
      }
      RunsAgain(book, accepted, id, machine);
      operations := operations[id := Running(machine, canceled)];
    }

    /** The next primitive of an operation whose last has completed; the others run on. */
    method Launch(id: string, ghost below: int, rank: nat)
      requires Between(id, true, below) && below < rank
      modifies this`activePrimitives, this`book
      ensures Between(id, false, rank)
      ensures book == old(book).(inFlight := old(book).inFlight + multiset{id},
                                 starts := old(book).starts + [Start(id, rank)])
    {
      hide Conserved;
      hide BookKept;
      hide Ended;
      hide Below;
      hide Runs;
      StartMore(book, accepted, id, below, rank);
      ghost var before := book;
      StartPrimitive(id, rank);
      forall other | other in operations && other != id
        ensures Runs(book, accepted, other, operations[other].machine)
      {
        OthersRun(before, accepted, id, book.log, book.starts, book.inFlight, accepted, other,
          operations[other].machine);
      }
    }

    /** The checkpoint of a step is one more update; the others run on. */
    method Record(id: string, checkpoint: Checkpoint, ghost completes: bool, ghost rank: int)
      requires Between(id, completes, rank) && checkpoint.head.id == id && IsUpdate(checkpoint)
      modifies this`pendingUpdates, this`book
      ensures book == old(book).(log := old(book).log + [checkpoint])
      ensures Counted() && BookKept(book, accepted)
      ensures !IsTerminal(checkpoint.head.status) ==> Between(id, completes, rank)
      ensures forall other :: other in operations && other != id ==>
              Runs(book, accepted, other, operations[other].machine)
    {
      hide Conserved;
      hide BookKept;
      hide Ended;
      hide Below;
      hide Runs;
      ghost var before := book;
      LogMore(book, accepted, checkpoint);
      AppendLocalUpdate(checkpoint);
      forall other | other in operations && other != id
        ensures Runs(book, accepted, other, operations[other].machine)
      {
        OthersRun(before, accepted, id, book.log, book.starts, book.inFlight, accepted, other,
          operations[other].machine);
      }
    }

    /** An operation starts at most once for its ID, with the step the machine takes. A saved state that loads but can
        panic is let in all the same. */
    method Add(c: Checkpoint) returns (ok: bool)
      requires Valid()
      modifies this
      ensures Valid() && completions == old(completions) && handled == old(handled)
      ensures Continues(old(book), book)
      ensures ok <==> c.head.id in old(accepted) || (Loads(c) && Handle(Loaded(c), None).Handled?)
      ensures accepted == old(accepted) + if ok then {c.head.id} else {}
      ensures !ok || c.head.id in old(accepted) ==> book == old(book) && operations == old(operations)
      ensures ok && c.head.id !in old(accepted) ==>
                var o := Handle(Loaded(c), None);
                && operations == Placed(old(operations), c.head.id, Running(o.machine, false))
                && o.step.checkpoint.Some? && book.log == old(book).log + [o.step.checkpoint.value]
                && book.starts == old(book).starts +
                   (if c.head.id in operations then [Start(c.head.id, Rank(o.machine.state.phase))] else [])
      ensures old(Trusted()) && (Loads(c) ==> Sound(Loaded(c))) ==> Trusted()
      ensures old(Safe()) && (Loads(c) ==> !CanPanic(c)) ==> Safe()
    {
      hide Conserved;
      hide Sound;
      hide Guarded;
      hide CanPanic;
      hide Handle;
      hide GoodStep;
      hide Loads;
      hide Runs;
      hide BookKept;
      hide Ended;
      hide Below;
      hide Rank;
      if c.head.id in accepted {
        return true;
      }
      if !Loads(c) {
        return false;
      }
      var m := Loaded(c);
      var o := Handle(m, None);
      FirstPaced(m);
      FirstSaves(m);
      if !o.Handled? {
        return false;
      }
      if Sound(m) {
        FirstGood(m);
      }
      if !CanPanic(c) {
        FirstGuarded(c);
      }
      NothingYet(book, c.head.id, accepted);
      ghost var before := accepted;
      accepted := accepted + {c.head.id};
      forall other | other in operations
        ensures Runs(book, accepted, other, operations[other].machine) && other != c.head.id
      {
        RunsAccepted(book, before, other, operations[other].machine);
        OthersRun(book, before, c.head.id, book.log, book.starts, book.inFlight, accepted, other,
          operations[other].machine);
      }
      AcceptLocalStep(c.head.id, false, o.machine, o.step, true, m.state.phase, -1);
      ok := true;
    }

    method Cancel(id: string)
      requires Valid()
      modifies this`operations
      ensures Valid() && operations.Keys == old(operations).Keys
      ensures (old(Trusted()) ==> Trusted()) && (old(Safe()) ==> Safe())
      ensures forall other :: other in operations ==>
                operations[other] ==
                  if other == id then old(operations)[other].(canceled := true) else old(operations)[other]
    {
      hide Conserved;
      hide Runs;
      hide BookKept;
      hide Sound;
      hide Guarded;
      hide SoundCheckpoint;
      if id in operations {
        operations := operations[id := operations[id].(canceled := true)];
      }
    }

    /** One primitive less. */
    method CompleteOne(id: string, ghost event: Event)
      requires Valid() && id in book.inFlight && event.source == id && Completes(event.kind)
      modifies this`activePrimitives, this`book, this`completions, this`handled
      ensures handled == old(handled) + [event]
      ensures Counted() && BookKept(book, accepted)
      ensures book == old(book).(inFlight := old(book).inFlight - multiset{id}) && completions == old(completions) + 1
      ensures book.inFlight[id] == 0
      ensures forall other :: other in operations && other != id ==>
              Runs(book, accepted, other, operations[other].machine)
    {
      hide Conserved;
      hide Completes;
      hide Sound;
      hide Runs;
      hide Ended;
      hide Below;
      hide LogKept;
      hide StartsKept;
      ghost var before := book;
      HandledConserves(book.inFlight, book.starts, handled, event);
      handled := handled + [event];
      activePrimitives := activePrimitives - 1;
      completions := completions + 1;
      book := book.(inFlight := book.inFlight - multiset{id});
      forall other | other in operations && other != id
        ensures Runs(book, accepted, other, operations[other].machine)
      {
        OthersRun(before, accepted, id, book.log, book.starts, book.inFlight, accepted, other,
          operations[other].machine);
      }
    }

    /** An event of a primitive in flight: its operation takes the step of its machine. A completed primitive of a
        canceled operation counts as canceled, ends the operation, and nothing more is started for it. Only a state
        that was loaded so can panic. */
    method OnPrimitiveEvent(event: Event) returns (panicked: bool)
      requires Valid() && event.source in book.inFlight
      modifies this`operations, this`activePrimitives, this`pendingUpdates, this`book, this`completions, this`handled
      ensures handled == old(handled) + [event]
      ensures old(Trusted()) ==> !panicked && Trusted()
      ensures old(Safe()) ==> !panicked && Safe()
      ensures !panicked ==> Valid()
      ensures Continues(old(book), book)
      ensures completions == old(completions) + if Completes(event.kind) then 1 else 0
      ensures event.source !in old(operations) ==>
                !panicked && book.log == old(book).log && book.starts == old(book).starts
                  && operations == old(operations)
      ensures event.source in old(operations) ==>
                var was := old(operations)[event.source];
                var o := Handle(was.machine, Some(Heard(event, was.canceled)));
                && (panicked <==> !o.Handled?)
                && (!panicked ==>
                      && operations == Placed(old(operations), event.source, Running(o.machine, was.canceled))
                      && book.log == old(book).log +
                         (if o.step.checkpoint.Some? then [o.step.checkpoint.value] else [])
                      && book.starts == old(book).starts +
                         (if o.step.dispatches != [] then [Start(event.source, Rank(o.machine.state.phase))] else []))
      ensures event.source in old(operations) && !panicked ==>
                && (book.starts != old(book).starts ==>
                      Completes(event.kind) && event.source in operations && !old(operations)[event.source].canceled)
                && (event.source !in operations ==> Ended(book.log, event.source))
                && (old(operations)[event.source].canceled && Completes(event.kind) ==> event.source !in operations)
                && (event.source in operations ==>
                      operations[event.source].canceled == old(operations)[event.source].canceled)
    {
      hide Conserved;
      hide Sound;
      hide Guarded;
      hide Handle;
      hide BookKept;
      hide Ended;
      hide Below;
      hide Rank;
      var completed := Completes(event.kind);
      if event.source in operations {
        assert Runs(book, accepted, event.source, operations[event.source].machine);
      }
      hide Runs;
      if completed {
        CompleteOne(event.source, event);
      } else {
        HandledConserves(book.inFlight, book.starts, handled, event);
        handled := handled + [event];
      }
      if event.source !in operations {
        return false;
      }
      var current := operations[event.source];
      var heard := if completed && current.canceled then event.(kind := Canceled) else event;
      panicked := Perform(event.source, current, heard);
    }

    /** The step of a running operation, when its completed primitive is gone. */
    method Perform(id: string, current: Running, heard: Event) returns (panicked: bool)
      requires Between(id, Completes(heard.kind), Rank(current.machine.state.phase))
      requires id in operations && operations[id] == current
      requires current.machine.head.id == id && current.machine.head.status == StatusAwaiting
      modifies this`operations, this`activePrimitives, this`pendingUpdates, this`book
      ensures old(Trusted()) ==> !panicked && Trusted()
      ensures old(Safe()) ==> !panicked && Safe()
      ensures panicked ==> book == old(book)
      ensures var o := Handle(current.machine, Some(heard));
              && (panicked <==> !o.Handled?)
              && (!panicked ==>
                    && Valid() && operations == Placed(old(operations), id, Running(o.machine, current.canceled))
                    && book.log == old(book).log +
                       (if o.step.checkpoint.Some? then [o.step.checkpoint.value] else [])
                    && book.starts == old(book).starts +
                       (if o.step.dispatches != [] then [Start(id, Rank(o.machine.state.phase))] else [])
                    && (o.step.dispatches != [] ==>
                          Completes(heard.kind) && !heard.kind.Canceled? && !IsTerminal(o.machine.head.status))
                    && (heard.kind.Canceled? ==> IsTerminal(o.machine.head.status))
                    && (IsTerminal(o.machine.head.status) ==> Ended(book.log, id)))
    {
      hide Conserved;
      hide Sound;
      hide Guarded;
      hide Handle;
      hide GoodStep;
      hide BookKept;
      hide Ended;
      hide Below;
      hide Rank;
      hide Runs;
      hide Completes;
      var o := Handle(current.machine, Some(heard));
      EventHandled(current.machine, heard);
      if Sound(current.machine) {
        ShellSteps(current.machine, heard);
      }
      if Guarded(current.machine) {
        EventGuarded(current.machine, heard);
      }
      if o.Panicked? {
        return true;
      }
      if IsTerminal(o.machine.head.status) {
        EndedMore(book.log, o.step.checkpoint.value, id);
      }
      AcceptLocalStep(id, current.canceled, o.machine, o.step, Completes(heard.kind), current.machine.state.phase,
        Rank(current.machine.state.phase));
      panicked := false;
    }

    /** The oldest pending update is sent. */
    method SendUpdate() returns (update: Checkpoint)
      requires Valid() && pendingUpdates != []
      modifies this`pendingUpdates
      ensures Valid() && [update] + pendingUpdates == old(pendingUpdates)
    {
      hide Conserved;
      hide Runs;
      hide BookKept;
      update := pendingUpdates[0];
      pendingUpdates := pendingUpdates[1..];
    }

    /** Shutting down cancels everything and waits for exactly the primitives in flight, whatever else they still
        send. */
    method DrainLocalPrimitives(events: seq<Event>) returns (consumed: nat)
      requires Valid() && multiset(Sources(events)) == book.inFlight
      modifies this
      ensures consumed <= |events| && book.inFlight == multiset{} && activePrimitives == 0
      ensures completions == |book.starts| && book.starts == old(book).starts && book.log == old(book).log
      ensures forall k :: consumed <= k < |events| ==> !Completes(events[k].kind)
    {
      hide Conserved;
      hide Runs;
      hide BookKept;
      hide Sources;
      operations := map k | k in operations :: Running(operations[k].machine, true);
      consumed := 0;
      assert events[0..] == events;
      while activePrimitives != 0
        invariant consumed <= |events|
        invariant activePrimitives == |book.inFlight| && |book.starts| == completions + activePrimitives
        invariant multiset(Sources(events[consumed..])) == book.inFlight
        invariant book.starts == old(book).starts && book.log == old(book).log
        decreases |events| - consumed
      {
        SomeLeft(events, consumed);
        SourcesMore(events, consumed);
        var event := events[consumed];
        consumed := consumed + 1;
        if Completes(event.kind) {
          activePrimitives := activePrimitives - 1;
          book := book.(inFlight := book.inFlight - multiset{event.source});
          completions := completions + 1;
        }
      }
      NoCompletions(events, consumed);
    }
  }

  /** What reaches the manager. */
  datatype Work = Adding(checkpoint: Checkpoint) | Canceling(id: string) | Happening(event: Event) | Sending

  /** Nothing is started for the operation any more: it is canceled or has ended, and no start of its has come since. */
  predicate Over(operations: map<string, Running>, accepted: set<string>, before: seq<Start>, now: seq<Start>,
      id: string) {
    && id in accepted && (id in operations ==> operations[id].canceled)
    && before <= now && forall i :: |before| <= i < |now| ==> now[i].id != id
  }

  /** Any work, in any order: nothing is forgotten, what is canceled starts nothing more, and unless a saved state
      that can panic is added, nothing panics. */
  method Manage(manager: Manager, works: seq<Work>) returns (panicked: bool)
    requires manager.Valid()
    modifies manager
    ensures Continues(old(manager.book), manager.book)
    ensures !panicked ==>
              && manager.Valid()
              && forall id :: id in old(manager.operations) && old(manager.operations)[id].canceled ==>
                   Over(manager.operations, manager.accepted, old(manager.book).starts, manager.book.starts, id)
    ensures old(manager.Safe()) && (forall work :: work in works && work.Adding? && Loads(work.checkpoint) ==>
                                      !CanPanic(work.checkpoint)) ==>
              !panicked && manager.Safe()
  {
    hide Conserved;
    hide Loads;
    hide CanPanic;
    hide Guarded;
    hide Handle;
    hide BookKept;
    hide Runs;
    hide Ended;
    hide Rank;
    panicked := false;
    var index := 0;
    forall id | id in manager.operations
      ensures id in manager.accepted
    {
      RunsAccepted(manager.book, manager.accepted, id, manager.operations[id].machine);
    }
    while index < |works| && !panicked
      invariant 0 <= index <= |works|
      invariant Continues(old(manager.book), manager.book)
      invariant !panicked ==>
                  && manager.Valid()
                  && forall id :: id in old(manager.operations) && old(manager.operations)[id].canceled ==>
                       Over(manager.operations, manager.accepted, old(manager.book).starts, manager.book.starts, id)
      invariant old(manager.Safe()) && (forall work :: work in works && work.Adding? && Loads(work.checkpoint) ==>
                                          !CanPanic(work.checkpoint)) ==>
                  !panicked && manager.Safe()
      decreases |works| - index, !panicked
    {
      panicked := DoWork(manager, works[index]);
      index := index + 1;
    }
  }

  /** One piece of work; events and updates only where there are any. */
  method DoWork(manager: Manager, work: Work) returns (panicked: bool)
    requires manager.Valid()
    modifies manager
    ensures Continues(old(manager.book), manager.book)
    ensures manager.handled == old(manager.handled) +
            if work.Happening? && work.event.source in old(manager.book.inFlight) then [work.event] else []
    ensures !panicked ==>
              && manager.Valid()
              && forall id, before ::
                   Over(old(manager.operations), old(manager.accepted), before, old(manager.book).starts, id) ==>
                     Over(manager.operations, manager.accepted, before, manager.book.starts, id)
    ensures old(manager.Safe()) && (work.Adding? && Loads(work.checkpoint) ==> !CanPanic(work.checkpoint)) ==>
              !panicked && manager.Safe()
  {
    hide Conserved;
    hide Loads;
    hide CanPanic;
    hide Guarded;
    hide Handle;
    hide BookKept;
    hide Runs;
    hide Ended;
    hide Rank;
    panicked := false;
    assert manager.handled + [] == manager.handled;
    match work
    case Adding(c) =>
      var ok := manager.Add(c);
    case Canceling(id) =>
      manager.Cancel(id);
    case Happening(event) =>
      if event.source in manager.book.inFlight {
        panicked := manager.OnPrimitiveEvent(event);
      }
    case Sending =>
      if manager.pendingUpdates != [] {
        var update := manager.SendUpdate();
      }
  }

  /** When all events of everything that was started have arrived, nothing is in flight and the counter is zero. */
  lemma AllArrived(manager: Manager, streams: map<string, seq<seq<Event>>>)
    requires manager.Counted()
    requires forall id :: id in streams ==> forall k :: 0 <= k < |streams[id]| ==> Stream(streams[id][k], id)
    requires forall id :: id in streams <==> StartCount(manager.book.starts, id) > 0
    requires forall id :: id in streams ==>
               && |streams[id]| == StartCount(manager.book.starts, id)
               && EventsOf(manager.handled, id) == AllOf(streams[id])
    ensures manager.book.inFlight == multiset{} && manager.activePrimitives == 0
  {
    hide EndCount;
    hide EventsOf;
    hide StartCount;
    hide AllOf;
    hide Stream;
    forall id
      ensures manager.book.inFlight[id] == 0
    {
      if id in streams {
        StreamsEnd(streams[id], id);
      }
    }
  }

  lemma BelowMore(starts: seq<Start>, id: string, rank: int, more: int)
    requires Below(starts, id, rank) && rank <= more
    ensures Below(starts, id, more)
  {
  }

  lemma RunsAgain(book: Book, accepted: set<string>, id: string, machine: Machine)
    requires machine.head.id == id && machine.head.status == StatusAwaiting
    requires id in accepted && book.inFlight[id] == 1 && !Ended(book.log, id)
             && Below(book.starts, id, Rank(machine.state.phase))
    ensures Runs(book, accepted, id, machine)
  {
  }

  lemma RunsAccepted(book: Book, accepted: set<string>, id: string, machine: Machine)
    requires Runs(book, accepted, id, machine)
    ensures id in accepted
  {
  }

  lemma NothingYet(book: Book, id: string, accepted: set<string>)
    requires id !in accepted && BookKept(book, accepted)
    ensures !Ended(book.log, id) && Below(book.starts, id, -1) && book.inFlight[id] == 0
    ensures BookKept(book, accepted + {id})
  {
  }

  /** Whose primitives complete in these events. */
  ghost function Sources(events: seq<Event>): seq<string> {
    if events == [] then []
    else (if Completes(events[0].kind) then [events[0].source] else []) + Sources(events[1..])
  }

  lemma SourcesMore(events: seq<Event>, k: nat)
    requires k < |events|
    ensures multiset(Sources(events[k..])) ==
            (if Completes(events[k].kind) then multiset{events[k].source} else multiset{})
              + multiset(Sources(events[k + 1..]))
  {
    assert events[k..][1..] == events[k + 1..];
  }

  lemma SomeLeft(events: seq<Event>, k: nat)
    requires k <= |events|
    ensures |multiset(Sources(events[k..]))| > 0 ==> k < |events|
  {
    if k == |events| {
      assert events[k..] == [];
    }
  }

  lemma {:induction false} NoCompletions(events: seq<Event>, k: nat)
    requires k <= |events| && multiset(Sources(events[k..])) == multiset{}
    ensures forall j :: k <= j < |events| ==> !Completes(events[j].kind)
    decreases |events| - k
  {
    if k < |events| {
      SourcesMore(events, k);
      NotEmpty(events[k].source, multiset(Sources(events[k + 1..])));
      NoCompletions(events, k + 1);
    }
  }

  lemma NotEmpty(id: string, more: multiset<string>)
    ensures multiset{id} + more != multiset{}
  {
    assert (multiset{id} + more)[id] > 0;
  }

  lemma FirstGood(m: Machine)
    requires Sound(m) && m.chunks == []
    ensures Handle(m, None).Refused? || GoodStep(Handle(m, None), m.head.id, -1)
  {
    hide Sound;
    hide GoodStep;
    if m.head.status != StatusReady || m.state.phase == PhaseNone {
      hide Handle;
      HandleGood(m, None);
    }
  }

  /** The first step of an operation that is not refused is always saved. */
  lemma FirstSaves(m: Machine)
    ensures Handle(m, None).Handled? ==> Handle(m, None).step.checkpoint.Some?
  {
    hide Message;
    hide BoundError;
    hide ShellPaths;
    hide Text;
    hide Request;
  }

  /** An event to a running shell is refused never, and panics only while bounding. */
  lemma EventHandled(m: Machine, event: Event)
    requires m.head.status == StatusAwaiting
    ensures var o := Handle(m, Some(event));
            && !o.Refused? && Paced(o, Pace(m.head.id, Rank(m.state.phase), Completes(event.kind), m.state.phase))
            && (event.kind.Canceled? ==> o.Handled? && o.step.dispatches == [] && IsTerminal(o.machine.head.status))
  {
    AwaitedPaced(m, event);
    NotRefused(m, event);
    hide Paced;
    hide Handle;
    if event.kind.Canceled? {
      CanceledEnds(m, event);
    }
  }

  lemma NotRefused(m: Machine, event: Event)
    requires m.head.status == StatusAwaiting
    ensures !Handle(m, Some(event)).Refused?
  {
    hide BoundError;
    hide ShellPaths;
    hide Message;
    hide Text;
    hide Concat;
    hide Correlation;
    hide Request;
    hide BoundedOutput;
    hide Shown;
    hide Incomplete;
    hide Completes;
  }

  /** A sound running shell handles every event of its primitive: it is never refused, and never panics. */
  lemma ShellSteps(m: Machine, event: Event)
    requires Sound(m) && m.head.status == StatusAwaiting
    ensures GoodStep(Handle(m, Some(event)), m.head.id, Rank(m.state.phase)) && Handle(m, Some(event)).Handled?
    ensures Paced(Handle(m, Some(event)), Pace(m.head.id, Rank(m.state.phase), Completes(event.kind), m.state.phase))
    ensures event.kind.Canceled? ==>
              Handle(m, Some(event)).step.dispatches == [] && IsTerminal(Handle(m, Some(event)).machine.head.status)
  {
    hide Sound;
    hide SoundCheckpoint;
    hide Handle;
    HandleGood(m, Some(event));
    EventHandled(m, event);
  }
}
