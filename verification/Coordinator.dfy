/** The coordinator: one session's decision loop, whose every step is stored before it is acted on. */
module Coordinator {
  import opened ContextBuilder
  import opened CoordinatorState
  import opened CoordinatorSteps
  import opened Inbox
  import opened LocalCounts
  import opened LocalFork
  import opened LocalHistory
  import opened LocalState
  import opened Operations
  import opened Options
  import opened Requests
  import opened SessionHistory
  import opened SessionResume
  import opened SessionState
  import opened SessionTypes
  import opened Sessions
  import opened Translation
  import Trace

  predicate IsHard(stop: Option<ControlMessage>) {
    stop.Some? && stop.value.mode.StopHard?
  }

  predicate AsksToStop(input: Input) {
    && input.kind.Control? && input.kind.message.Some?
    && (input.kind.message.value.mode.StopHard? || input.kind.message.value.mode.StopWhenIdle?)
  }

  /** The stop in force after some inputs: the latest request, but never one after a hard stop. */
  function StopAfter(stop: Option<ControlMessage>, inputs: seq<Input>): Option<ControlMessage> {
    if inputs == [] then stop
    else
      var before := StopAfter(stop, Front(inputs));
      if AsksToStop(Last(inputs)) && !IsHard(before) then Last(inputs).kind.message else before
  }

  const HISTORY_PAGE_SIZE: nat := 256
  const SLURP_MAX_ITEMS: nat := 100

  /** What the loop can be woken by; a reply may be late, for a turn that was superseded. */
  datatype Event =
    | Canceled
    | Closed
    | Received
    | Updated(update: Operation)
    | HeartbeatDue
    | GraceOver
    | Replied(turnID: string, reply: Option<Response>)

  /** How a turn of the loop ends. */
  datatype Ending = Running | Failed | Idle | Halted

  class Coordinator {
    const state: LoopState
    const sessions: Sessions
    const inbox: Inbox
    ghost const start: Context
    /** The external inputs the session resumed with, and how many items it held. */
    ghost const resumed: seq<string>
    ghost const origin: nat
    /** What the session had committed to the model's context. */
    ghost const base: seq<ModelItem>
    /** Whether the loop has decided to ask the model. */
    var callModel: bool
    var stop: Option<ControlMessage>
    var cancellationRequested: bool
    /** Whether a request to the model can still be answered. */
    var modelInFlight: bool
    ghost var trace: seq<Trace.Act>
    /** The operation updates received. */
    ghost var heard: seq<Operation>

    constructor (state: LoopState, sessions: Sessions, inbox: Inbox)
      requires LawfulTools(state.tools) && Good(state.tools, state.builder.View(), sessions.stored)
      requires state.View() == NewLocal(state.builder.View()) && state.GraceSound() && !state.graceArmed
      requires inbox.Valid() && inbox.delivered == []
      requires inbox.seeds == SetOf(ExternalIds(sessions.stored.items))
      ensures Unstarted() && this.state == state && this.sessions == sessions && this.inbox == inbox
      ensures resumed == ExternalIds(sessions.stored.items) && start == state.builder.View()
    {
      this.state := state;
      this.sessions := sessions;
      this.inbox := inbox;
      start := state.builder.View();
      resumed := ExternalIds(sessions.stored.items);
      origin := |sessions.stored.items|;
      base := Live(state.tools, state.builder.View(), sessions.stored).core.context.committed;
      callModel, cancellationRequested, modelInFlight := false, false, false;
      stop := None;
      trace, heard := [], [];
    }

    /** A coordinator for a stored session, with an inbox that knows the external inputs the session has taken. */
    static method Open(tools: Tools, system: string, sessions: Sessions) returns (coordinator: Coordinator)
      requires LawfulTools(tools) && Good(tools, NewContext(system), sessions.stored)
      ensures fresh(coordinator) && fresh(coordinator.state) && fresh(coordinator.state.builder)
              && fresh(coordinator.inbox)
      ensures coordinator.Unstarted() && coordinator.sessions == sessions
      ensures coordinator.state.tools == tools && coordinator.start == NewContext(system)
    {
      hide Good;
      hide LawfulTools;
      GoodNames(tools, NewContext(system), sessions.stored);
      var builder := new Builder(system);
      var state := new LoopState(tools, builder);
      var stored := sessions.stored;
      var resumed := ComputeResume(stored.head.session, stored.head.operations, stored.items);
      var inbox := Inbox.New(resumed.externalInputIDs);
      coordinator := new Coordinator(state, sessions, inbox.value);
    }

    /** Before the run starts. */
    ghost predicate Unstarted()
      reads this, state, state.builder, sessions, inbox
    {
      && LawfulTools(state.tools) && Good(state.tools, start, sessions.stored)
      && state.View() == NewLocal(start) && state.GraceSound() && state.graceToolCalls == {}
      && trace == [] && heard == []
      && !modelInFlight && stop == None && !cancellationRequested && !callModel
      && origin == |sessions.stored.items| && base == Committed() && InStep([])
    }

    /** What the stored session has committed to the model's context. */
    ghost function Committed(): seq<ModelItem>
      reads sessions
    {
      Live(state.tools, start, sessions.stored).core.context.committed
    }

    /** The external inputs of the history, and all inputs this run has stored. */
    ghost function Inputs(): (seq<string>, seq<Input>)
      reads sessions
    {
      (ExternalIds(sessions.stored.items), StoredSince(sessions.stored.items, origin))
    }

    /** Every input the inbox let out has been stored by this run, or is in hand, in order; and every external one is in
        the history once. */
    ghost predicate InStep(hand: seq<Input>)
      reads this, sessions, inbox
    {
      && inbox.Valid() && inbox.seeds == SetOf(resumed) && Distinct(resumed)
      && resumed + ExternalOf(inbox.delivered) == Inputs().0 + ExternalOf(hand)
      && Inputs().1 + hand == inbox.delivered
    }

    /** The local state is what the stored session says, and the session is one that can be restored. */
    ghost predicate Synced()
      reads this, state, state.builder, sessions
    {
      && Good(state.tools, start, sessions.stored)
      && state.View() == Live(state.tools, start, sessions.stored)
      && state.GraceSound()
    }

    /** What holds of the acts and the items of the run, however it ends. */
    ghost predicate Chronicled()
      reads this, sessions
    {
      && Trace.Told(trace, sessions.stored.head.positions.Keys)
      && (Trace.Stopped(trace) <==> IsHard(stop))
      && origin <= |sessions.stored.items| && Trace.QuietItems(sessions.stored.items, origin)
      && base <= Committed() && Trace.Bound(trace) <= Committed() && Trace.Based(trace, base)
      && RequestsStored(state.tools, start, trace, sessions.stored.items, origin)
    }

    /** What was asked, recorded and dispatched so far; a request in flight is the latest, and still unanswered. */
    ghost predicate Traced()
      reads this, state, state.builder, sessions
    {
      && Chronicled()
      && (cancellationRequested ==> IsHard(stop) && !modelInFlight)
      && (modelInFlight ==>
            && Trace.LastAsked(trace) == Some(Trace.Question(state.currentTurnID, state.builder.committedPrefix))
            && state.currentTurnType.Regular?
            && state.currentTurnID in sessions.stored.head.ownedTurns
            && state.currentTurnID !in sessions.stored.head.respondedTurns)
    }

    ghost predicate Valid()
      reads this, state, state.builder, sessions
    {
      && LawfulTools(state.tools) && Synced() && Traced()
      && (Trace.StopStored(sessions.stored.items, origin) <==> IsHard(stop))
    }

    /** The store only gains items and operations, and never breaks the silence after a hard stop. */
    twostate predicate Grown()
      reads this, sessions
    {
      && old(sessions.stored.items) <= sessions.stored.items
      && old(sessions.stored.head.positions.Keys) <= sessions.stored.head.positions.Keys
      && (old(Trace.QuietItems(sessions.stored.items, origin)) ==> Trace.QuietItems(sessions.stored.items, origin))
      && old(Committed()) <= Committed()
    }

    /** What every step does, however it ends: the acts and the items are continued, and a hard stop stays. */
    twostate predicate Onward()
      reads this, sessions
    {
      old(trace) <= trace && Grown() && (IsHard(old(stop)) ==> IsHard(stop))
    }

    /** What this run knows of its operations: what was dispatched and not heard to have ended still runs, and what runs
        and was never heard of has been dispatched. */
    ghost predicate Followed()
      reads this, state
    {
      Tracked(state.operations, trace, heard) && Attended(state.operations, trace, heard)
    }

    /** There is something the model has not answered to. */
    predicate Undelivered()
      reads state
    {
      state.availableInputs > state.deliveredInputs
    }

    /** A step that takes in an external input has the model asked. */
    twostate predicate Prompted()
      reads this, sessions
    {
      callModel || ExternalIds(sessions.stored.items) == old(ExternalIds(sessions.stored.items))
    }

    /** Some acts later, the last act is a request, and it shows all that the session had stored before its turn. */
    ghost predicate AsksNow(before: seq<Trace.Act>)
      reads this, sessions
    {
      && before < trace && Last(trace).Asked?
      && AskedAt(state.tools, start, sessions.stored.items, |sessions.stored.items| - 1, Last(trace).turnID,
                 Last(trace).request)
    }

    /** What a step that only concerns open calls leaves alone. */
    twostate predicate Calm()
      reads this, state, state.builder, sessions
    {
      && state.currentTurnID == old(state.currentTurnID) && state.currentTurnType == old(state.currentTurnType)
      && state.builder.committedPrefix == old(state.builder.committedPrefix)
      && state.deliveredInputs == old(state.deliveredInputs)
      && old(state.availableInputs) <= state.availableInputs
      && sessions.stored.head.ownedTurns == old(sessions.stored.head.ownedTurns)
      && sessions.stored.head.respondedTurns == old(sessions.stored.head.respondedTurns)
      && Inputs() == old(Inputs())
      && Trace.StopStored(sessions.stored.items, origin) == old(Trace.StopStored(sessions.stored.items, origin))
    }

    /** Acts that are not continued stay told while the store grows. */
    twostate lemma GrownChronicled()
      requires old(Chronicled()) && Grown() && unchanged(this`trace, this`stop)
      ensures Chronicled()
    {
      hide Trace.QuietItems;
      hide Trace.Stopped;
      hide Trace.Bound;
      hide Trace.Based;
      hide RequestsStored;
      hide Live;
      Trace.ToldGrows(trace, old(sessions.stored.head.positions.Keys), sessions.stored.head.positions.Keys);
      hide Trace.Told;
      Trace.PrefixOf(base, old(Committed()), Committed());
      Trace.PrefixOf(Trace.Bound(trace), old(Committed()), Committed());
      RequestsKept(state.tools, start, trace, old(sessions.stored.items), sessions.stored.items, origin);
    }

    /** A calm step keeps what is known of the requests. */
    twostate lemma CalmTraced()
      requires old(Traced()) && Grown() && Calm() && unchanged(this)
      ensures Traced()
    {
      hide Chronicled;
      hide Trace.LastAsked;
      hide Trace.Bound;
      hide Trace.Based;
      hide RequestsStored;
      hide Tracked;
      hide Attended;
      hide Trace.StopStored;
      hide ExternalIds;
      hide StoredSince;
      GrownChronicled();
    }

    /** An input, a turn or a response goes to the local state and then to the store. */
    method RecordItem(request: Request) returns (ok: bool, ghost at: nat)
      requires Synced() && (request.AddInput? || request.AddTurn? || request.AddResponse?)
      requires Welcome(sessions.stored, request) && (request.AddInput? || Accepts(sessions.stored.head, request))
      requires origin <= |sessions.stored.items|
      requires request.AddInput? || !Trace.StopStored(sessions.stored.items, origin)
      modifies state, state.builder, sessions
      ensures Good(state.tools, start, sessions.stored) && Grown()
      ensures ok ==>
                && at != 0 && Accepts(old(sessions.stored).head, request)
                && sessions.stored == Apply(old(sessions.stored), request, at).value
                && AddItem(state.tools, old(state.View()), DataOf(request).value) == Ok(state.View())
                && Synced() && state.graceToolCalls <= old(state.graceToolCalls)
                && (request.AddInput? ==> state.graceToolCalls == old(state.graceToolCalls))
                && StoredSince(sessions.stored.items, origin) ==
                   (if request.AddInput? then old(StoredSince(sessions.stored.items, origin)) + [request.input]
                    else old(StoredSince(sessions.stored.items, origin)))
                && (Trace.StopStored(sessions.stored.items, origin) <==>
                      old(Trace.StopStored(sessions.stored.items, origin)) || Trace.IsHardStop(DataOf(request).value))
    {
      hide Good;
      hide Live;
      hide AddItem;
      hide Accepts;
      hide Apply;
      hide Welcome;
      hide Trace.StopStored;
      hide Trace.QuietItems;
      ghost var before := sessions.stored;
      at := 1;
      var data := DataOf(request).value;
      ok := state.AddItemToLocalState(data);
      if !ok {
        return;
      }
      InputAccepted(state.tools, old(state.View()), before.head, request);
      ok, at := sessions.Append(request);
      GoodAppend(state.tools, start, before, request, at);
      AppliedItems(before, request, at);
      ghost var item := Item(before.head.itemSequence + 1, at, data);
      Trace.ItemsMore(before.items, item, origin);
      StoredMore(before.items, item, origin);
      OneLonger(before.items, item);
      LiveGrows(state.tools, start, before, sessions.stored);
    }

    /** A status of an open call goes to the local state and then to the store. */
    method RecordCallStatus(status: ToolCallStatus) returns (ok: bool)
      requires Good(state.tools, start, sessions.stored) && state.GraceSound()
      requires var live := Live(state.tools, start, sessions.stored);
               && AddItem(state.tools, state.View(), StatusItem(status)) ==
                  AddItem(state.tools, live, StatusItem(status))
               && state.View().core == live.core
               && Key(status) in live.core.calls
               && var call := live.core.calls[Key(status)];
               && (FirstStatus(state.tools, sessions.stored.head, call, status)
                  || RepeatStatus(sessions.stored.head, call, status))
      requires Accepts(sessions.stored.head, AddStatus(status)) && origin <= |sessions.stored.items|
      modifies state, state.builder, sessions
      ensures Good(state.tools, start, sessions.stored) && Grown()
      ensures ok ==>
                && Synced() && Calm() && state.graceToolCalls <= old(state.graceToolCalls)
                && AddItem(state.tools, old(state.View()), StatusItem(status)) == Ok(state.View())
                && IdSet(status.operations) <= sessions.stored.head.positions.Keys
                && (Key(status) !in state.toolCalls ==> old(state.availableInputs) < state.availableInputs)
    {
      hide Good;
      hide Live;
      hide AddItem;
      hide Accepts;
      hide Apply;
      hide FirstStatus;
      hide RepeatStatus;
      hide Settles;
      hide IdSet;
      hide Trace.StopStored;
      hide Trace.QuietItems;
      hide ExternalIds;
      hide StoredSince;
      ghost var before := sessions.stored;
      ok := state.AddItemToLocalState(StatusItem(status));
      if !ok {
        return;
      }
      StatusCounts(state.tools, old(state.View()), status);
      SettledAvailable(state.tools, old(state.View()), status);
      StatusHead(state.tools, start, before, status);
      ghost var at;
      ok, at := sessions.Append(AddStatus(status));
      GoodStatus(state.tools, start, before, status, at);
      AppliedItems(before, AddStatus(status), at);
      ghost var item := Item(before.head.itemSequence + 1, at, StatusItem(status));
      Trace.ItemsMore(before.items, item, origin);
      ExternalMore(before.items, item);
      StoredMore(before.items, item, origin);
      OneLonger(before.items, item);
      LiveGrows(state.tools, start, before, sessions.stored);
    }

    /** A call without a status is translated, and its operations are known before the store is asked. */
    method ScheduleToolCall(key: CallKey, call: ToolCall) returns (ok: bool, status: ToolCallStatus)
      requires LawfulTools(state.tools) && Synced()
      requires key in state.toolCalls && state.toolCalls[key] == Call(call, None, {})
               && origin <= |sessions.stored.items|
      modifies state, state.builder, sessions
      ensures Good(state.tools, start, sessions.stored) && Grown()
      ensures ok ==>
                && Synced() && Calm() && state.graceToolCalls <= old(state.graceToolCalls)
                && Key(status) == key && Scheduled(sessions.stored.head, status) && Planned(state.tools, call, status)
                && OpsMore(old(state.operations), state.operations, [status]) && OpsHold(state.operations, [status])
                && state.toolCalls ==
                   if IsError(status.status) then old(state.toolCalls) - {key}
                   else old(state.toolCalls)[key := Call(call, Some(status.status), SetOf(status.status.waitingFor))]
      ensures ok && !IsWaiting(status.status) ==> old(state.availableInputs) < state.availableInputs
    {
      hide Good;
      hide Live;
      hide AddItem;
      hide Accepts;
      hide FirstStatus;
      hide StatusReferences;
      hide IdSet;
      hide AddOperations;
      hide HeadMap;
      hide Trace.StopStored;
      hide Trace.QuietItems;
      hide ExternalIds;
      hide StoredSince;
      ghost var before := sessions.stored;
      LiveFacts(state.tools, start, before);
      status := TranslateCall(state.tools, key, call, state.operations.Keys, before.head);
      FirstAccepted(state.tools, start, before, call, status);
      state.AddOperationsOf(status.operations);
      AddedBefore(state.tools, old(state.View()), status);
      ghost var added := state.View();
      ok := RecordCallStatus(status);
      if ok {
        FirstParts(state.tools, before.head, call, status);
        FirstSettles(state.tools, added, call, status);
        StatusOperations(state.tools, old(state.View()), status);
        FirstOps(state.tools, before.head, old(state.operations), Call(call, None, {}), status);
      }
    }

    /** Every call that has no status gets one. */
    method ScheduleToolCalls() returns (ok: bool, statuses: seq<ToolCallStatus>)
      requires LawfulTools(state.tools) && Synced() && origin <= |sessions.stored.items|
      modifies state, state.builder, sessions
      ensures Good(state.tools, start, sessions.stored) && Grown()
      ensures ok ==>
                && Synced() && Calm() && state.graceToolCalls <= old(state.graceToolCalls)
                && Translated()
                && AllPlanned(state.tools, old(state.toolCalls), statuses)
                && (forall status :: status in statuses ==> Scheduled(sessions.stored.head, status))
                && (forall status :: status in statuses ==>
                      (Key(status) in state.toolCalls <==> IsWaiting(status.status)))
                && OpsMore(old(state.operations), state.operations, statuses) && OpsHold(state.operations, statuses)
                && ((exists status :: status in statuses && !IsWaiting(status.status)) ==>
                      old(state.availableInputs) < state.availableInputs)
    {
      hide Planned;
      hide AllPlanned;
      hide PlannedSoFar;
      hide Good;
      hide Live;
      hide IdSet;
      hide LawfulTools;
      hide Trace.StopStored;
      hide Trace.QuietItems;
      hide ExternalIds;
      hide StoredSince;
      statuses := [];
      var left := state.toolCalls.Keys;
      NothingPlanned(state.tools, state.toolCalls, statuses);
      while left != {}
        invariant Synced() && Calm() && Grown() && state.graceToolCalls <= old(state.graceToolCalls)
        invariant left <= state.toolCalls.Keys
        invariant forall key :: key in left ==>
                    key in old(state.toolCalls) && state.toolCalls[key] == old(state.toolCalls)[key]
        invariant PlannedSoFar(state.tools, old(state.toolCalls), statuses, left)
        invariant forall key :: key in state.toolCalls && key !in left ==> state.toolCalls[key].status.Some?
        invariant forall status :: status in statuses ==>
                  Scheduled(sessions.stored.head, status) && Key(status) !in left
        invariant forall status :: status in statuses ==> (Key(status) in state.toolCalls <==> IsWaiting(status.status))
        invariant OpsMore(old(state.operations), state.operations, statuses) && OpsHold(state.operations, statuses)
        invariant (exists status :: status in statuses && !IsWaiting(status.status)) ==>
                    old(state.availableInputs) < state.availableInputs
        decreases |left|
      {
        var key :| key in left;
        ghost var unplanned := left;
        left := left - {key};
        var call := state.toolCalls[key];
        if call.status.Some? {
          PlannedSkips(state.tools, old(state.toolCalls), statuses, unplanned, key);
        } else {
          UntranslatedCall(state.tools, start, sessions.stored, key);
          var status;
          label Next:
          ok, status := ScheduleToolCall(key, call.call);
          if !ok {
            return;
          }
          OpsMoreMore(old(state.operations), old@Next(state.operations), state.operations, statuses, status);
          PlannedMore(state.tools, old(state.toolCalls), statuses, unplanned, status);
          statuses := statuses + [status];
        }
      }
      PlannedDone(state.tools, old(state.toolCalls), statuses);
      ok := true;
    }

    /** Every open call has a status. */
    ghost predicate Translated()
      reads state
    {
      forall key :: key in state.toolCalls ==> state.toolCalls[key].status.Some?
    }

    /** No open call is finished: each waits for an operation that still runs. */
    ghost predicate Reconciled()
      reads state
    {
      Translated() && forall key :: key in state.toolCalls ==>
        !AllTerminal(state.toolCalls[key].operations, state.operations)
    }

    /** Every call whose operations are all terminal is recorded once more, with their last states, and settled. */
    method ReconcileToolCalls() returns (ok: bool)
      requires Synced() && Translated() && origin <= |sessions.stored.items|
      modifies state, state.builder, sessions
      ensures Good(state.tools, start, sessions.stored) && Grown()
      ensures ok ==>
                && Synced() && Calm() && state.graceToolCalls <= old(state.graceToolCalls) && Reconciled()
                && state.operations == old(state.operations)
                && (forall key :: key in state.toolCalls ==>
                      key in old(state.toolCalls) && state.toolCalls[key] == old(state.toolCalls)[key])
    {
      hide Good;
      hide Live;
      hide AllTerminal;
      hide Trace.StopStored;
      hide Trace.QuietItems;
      hide ExternalIds;
      hide StoredSince;
      var left := state.toolCalls.Keys;
      while left != {}
        invariant Synced() && Calm() && Grown() && state.graceToolCalls <= old(state.graceToolCalls)
        invariant state.operations == old(state.operations)
        invariant left <= state.toolCalls.Keys
        invariant forall key :: key in state.toolCalls ==>
                    key in old(state.toolCalls) && state.toolCalls[key] == old(state.toolCalls)[key]
                    && (key !in left ==> !AllTerminal(state.toolCalls[key].operations, state.operations))
        decreases |left|
      {
        var key :| key in left;
        left := left - {key};
        var call := state.toolCalls[key];
        if AllTerminal(call.operations, state.operations) {
          // The guard for a call without a status never applies: every open call has one.
          assert call.status.Some?;
          ok := SettleToolCall(key, call);
          if !ok {
            return;
          }
        }
      }
      ok := true;
    }

    /** The last status of a call: the operations it waited for have ended. */
    method SettleToolCall(key: CallKey, call: Call) returns (ok: bool)
      requires Synced() && key in state.toolCalls && call == state.toolCalls[key] && call.status.Some?
      requires AllTerminal(call.operations, state.operations) && origin <= |sessions.stored.items|
      modifies state, state.builder, sessions
      ensures Good(state.tools, start, sessions.stored) && Grown()
      ensures ok ==>
                && Synced() && Calm() && state.graceToolCalls <= old(state.graceToolCalls)
                && state.toolCalls == old(state.toolCalls) - {key} && state.operations == old(state.operations)
      ensures ok ==>
                && var translator, shown := state.tools.resolve(call.call.name), state.builder.stagedSuffix;
                && translator.Some? && (forall id :: id in call.status.value.waitingFor ==> id in state.operations)
                && shown != [] && Last(shown).ResultItem? && Last(shown).callID == key.1
                && translator.value.result(key.1, call.status.value,
                     Latest(call.status.value.waitingFor, state.operations)) == Some(Last(shown).output)
    {
      hide Good;
      hide Live;
      hide AddItem;
      hide Accepts;
      hide RepeatStatus;
      hide IdSet;
      hide HeadMap;
      hide OperationsIndexed;
      hide AllTerminal;
      hide Trace.StopStored;
      hide Trace.QuietItems;
      hide ExternalIds;
      hide StoredSince;
      ghost var before := sessions.stored;
      LiveFacts(state.tools, start, before);
      TranslatedCall(state.tools, start, before, key);
      var operations := Latest(call.status.value.waitingFor, state.operations);
      var status := ToolCallStatus(key.0, key.1, call.status.value, operations);
      RepeatAccepted(state.tools, start, before, status);
      ghost var live := state.View();
      ok := RecordCallStatus(status);
      if ok {
        RepeatSettles(state.tools, live, status);
        ResultShown(state.tools, live, status);
      }
    }

    /** A live update is known here before it is saved; it never becomes an item. The store refuses an update of an
        operation it does not know; one that tells a settled operation otherwise is the only harm it can do. */
    method HandleOperationUpdate(update: Operation) returns (ok: bool)
      requires Valid() && Followed()
      modifies this`heard, state`operations, sessions
      ensures heard == old(heard) + [update] && Followed()
      ensures Onward() && Chronicled() && sessions.stored.items == old(sessions.stored.items)
      ensures old(Harmless(sessions.stored, update)) ==> Good(state.tools, start, sessions.stored)
      ensures !Accepts(old(sessions.stored.head), SaveOperation(update)) ==>
              !ok && sessions.stored == old(sessions.stored)
      ensures ok && old(Harmless(sessions.stored, update)) ==>
                && Valid() && state.View() ==
                   old(state.View()).(operations := old(state.operations)[update.id := update])
      ensures old(Harmless(sessions.stored, update)) ==>
                forall other :: old(Harmless(sessions.stored, other)) ==> Harmless(sessions.stored, other)
    {
      hide Good;
      hide Live;
      hide Accepts;
      hide Apply;
      hide Harmless;
      hide HeadMap;
      hide OperationsIndexed;
      hide Trace.Told;
      hide Trace.Bound;
      hide Trace.Based;
      hide RequestsStored;
      hide Tracked;
      hide Attended;
      hide Trace.LastAsked;
      hide Trace.StopStored;
      hide Trace.QuietItems;
      hide LawfulTools;
      hide ExternalIds;
      hide StoredSince;
      ghost var before := sessions.stored;
      LiveFacts(state.tools, start, before);
      state.AddOperation(update);
      UpdateFollowed(old(state.operations), trace, heard, update);
      heard := heard + [update];
      ghost var at;
      ok, at := sessions.Save(update);
      if Accepts(before.head, SaveOperation(update)) {
        GoodSave(state.tools, start, before, update, at);
        SavedFrame(before, update, at);
        if Harmless(before, update) {
          LiveGrows(state.tools, start, before, sessions.stored);
        }
        forall other | Harmless(before, update) && Harmless(before, other)
          ensures Harmless(sessions.stored, other)
        {
          HarmlessKept(state.tools, start, before, update, other, at);
        }
      }
      GrownChronicled();
    }

    method ProcessOperations(updates: seq<Operation>) returns (ok: bool)
      requires Valid() && Translated() && Followed() && AllHarmless(updates)
      modifies this`heard, state`operations, sessions
      ensures Good(state.tools, start, sessions.stored) && Onward() && Chronicled()
      ensures sessions.stored.items == old(sessions.stored.items)
      ensures heard <= old(heard) + updates && Followed()
      ensures ok ==> Valid() && Translated() && heard == old(heard) + updates
    {
      hide Followed;
      hide Good;
      hide Harmless;
      hide Accepts;
      hide Chronicled;
      hide Valid;
      hide Trace.QuietItems;
      ValidKeeps();
      var index := 0;
      while index < |updates|
        invariant 0 <= index <= |updates|
        invariant Valid() && Translated() && Followed() && heard == old(heard) + updates[..index]
        invariant forall k :: index <= k < |updates| ==> Harmless(sessions.stored, updates[k])
        invariant Good(state.tools, start, sessions.stored) && Onward() && Chronicled()
        invariant sessions.stored.items == old(sessions.stored.items)
      {
        assert updates[..index + 1] == updates[..index] + [updates[index]];
        ok := HandleOperationUpdate(updates[index]);
        if !ok {
          return;
        }
        index := index + 1;
      }
      assert updates[..index] == updates;
      ok := true;
    }

    /** What `Valid` keeps in every ending. */
    lemma ValidKeeps()
      requires Valid()
      ensures Good(state.tools, start, sessions.stored) && Chronicled() && origin <= |sessions.stored.items|
    {
    }

    /** A hard stop, once accepted, stays; a softer one gives way to the latest. */
    method AcceptStop(message: ControlMessage)
      requires Traced() && (message.mode.StopHard? || message.mode.StopWhenIdle?)
      modifies this`stop, this`trace
      ensures Traced()
      ensures stop == if IsHard(old(stop)) then old(stop) else Some(message)
      ensures trace ==
              if message.mode.StopHard? && !IsHard(old(stop)) then old(trace) + [Trace.HardStopped] else old(trace)
    {
      hide Trace.Told;
      hide Trace.Bound;
      hide Trace.Based;
      hide RequestsStored;
      hide Tracked;
      hide Attended;
      hide Trace.Stopped;
      hide Trace.LastAsked;
      hide Trace.QuietItems;
      if IsHard(stop) {
        return;
      }
      stop := Some(message);
      if message.mode.StopHard? {
        Trace.ToldActs(trace, Trace.HardStopped, Committed(), sessions.stored.head.positions.Keys);
        Trace.BasedMore(trace, Trace.HardStopped, base);
        NoRequestMore(state.tools, start, trace, sessions.stored.items, Trace.HardStopped, origin);
        trace := trace + [Trace.HardStopped];
      }
    }

    /** The next input in hand is one the history does not hold. */
    lemma HandIsNew(input: Input, rest: seq<Input>)
      requires InStep([input] + rest)
      ensures input.kind.External? ==> input.id !in ExternalIds(sessions.stored.items)
    {
      hide FirstArrivals;
      hide ExternalIds;
      hide StoredSince;
      inbox.DeliveredOnce(resumed);
      HandTaken(resumed + ExternalOf(inbox.delivered), ExternalIds(sessions.stored.items), input, rest);
      hide ExternalOf;
      if input.kind.External? {
        NewInMiddle(ExternalIds(sessions.stored.items), input.id, ExternalOf(rest));
      }
    }

    /** An input is stored before it has any effect on the loop; settings end no grace period. */
    method HandleInboxInput(input: Input, ghost rest: seq<Input>) returns (ok: bool)
      requires Valid() && Translated() && Followed() && InStep([input] + rest)
      modifies this`stop, this`trace, state, state.builder, sessions
      ensures Good(state.tools, start, sessions.stored) && Onward() && Chronicled()
      ensures ok ==>
                && Valid() && Translated() && Followed() && InStep(rest)
                && state.operations == old(state.operations) && state.toolCalls == old(state.toolCalls)
                && |sessions.stored.items| == old(|sessions.stored.items|) + 1
                && sessions.stored.items[old(|sessions.stored.items|)].data == InputItem(input)
                && ExternalIds(sessions.stored.items) ==
                   old(ExternalIds(sessions.stored.items)) + (if input.kind.External? then [input.id] else [])
                && stop == StopAfter(old(stop), [input])
                && (var settings := input.kind.Control? && input.kind.message.Some?
                       && input.kind.message.value.mode.UpdateSettings?;
                    state.graceToolCalls == if settings then old(state.graceToolCalls) else {})
                && state.deliveredInputs == old(state.deliveredInputs)
                && old(state.availableInputs) <= state.availableInputs && (input.kind.External? ==> Undelivered())
    {
      hide Good;
      hide Live;
      hide AddItem;
      hide Accepts;
      hide Apply;
      hide Trace.Told;
      hide Trace.Bound;
      hide Trace.Based;
      hide RequestsStored;
      hide Tracked;
      hide Attended;
      hide Trace.LastAsked;
      hide Trace.Stopped;
      hide Trace.StopStored;
      hide Trace.QuietItems;
      hide LawfulTools;
      hide ExternalIds;
      hide StoredSince;
      hide ExternalOf;
      HandIsNew(input, rest);
      LiveInOrder(state.tools, start, sessions.stored);
      StopOne(stop, input);
      hide StopAfter;
      ghost var before := sessions.stored;
      ghost var at;
      ok, at := RecordItem(AddInput(input));
      GrownChronicled();
      if !ok {
        return;
      }
      InputFrame(state.tools, old(state.View()), before, input, at);
      HandTaken(resumed + ExternalOf(inbox.delivered), ExternalIds(before.items), input, rest);
      SeqAssoc(StoredSince(before.items, origin), [input], rest);
      if input.kind.Control? {
        if input.kind.message.None? {
          return false;
        }
        var message := input.kind.message.value;
        if message.mode.UpdateSettings? {
          return;
        }
        if message.mode.StopHard? || message.mode.StopWhenIdle? {
          HeedStop(message);
        }
      }
      state.ClearToolGrace();
    }

    /** A stop request takes effect; no operation is dispatched or heard of by it. */
    method HeedStop(message: ControlMessage)
      requires Traced() && Followed() && (message.mode.StopHard? || message.mode.StopWhenIdle?)
      modifies this`stop, this`trace
      ensures Traced() && Followed() && old(trace) <= trace
      ensures stop == if IsHard(old(stop)) then old(stop) else Some(message)
    {
      hide Traced;
      hide Tracked;
      hide Attended;
      AcceptStop(message);
      if trace != old(trace) {
        ActFollowed(state.operations, old(trace), heard, Trace.HardStopped);
      }
    }

    /** Inputs taken from the inbox, in order; an external one asks for the model. */
    method HandleInboxInputs(inputs: seq<Input>) returns (ok: bool)
      requires Valid() && Translated() && Followed() && InStep(inputs) && (callModel ==> Undelivered())
      modifies this`stop, this`trace, this`callModel, state, state.builder, sessions
      ensures Good(state.tools, start, sessions.stored) && Onward() && Chronicled()
      ensures ok ==> Valid() && Translated() && Followed() && InStep([]) && state.operations == old(state.operations)
      ensures ok ==>
                && stop == StopAfter(old(stop), inputs)
                && (callModel <==> old(callModel) || exists input :: input in inputs && input.kind.External?)
      ensures ok ==> Prompted() && (callModel ==> Undelivered())
    {
      hide ExternalIds;
      hide StoredSince;
      hide Good;
      hide Valid;
      hide Chronicled;
      hide InStep;
      hide Followed;
      hide Translated;
      hide Trace.QuietItems;
      hide StopAfter;
      ValidKeeps();
      var index := 0;
      assert inputs[0..] == inputs;
      StopNone(stop);
      assert inputs[..0] == [];
      while index < |inputs|
        invariant 0 <= index <= |inputs|
        invariant Valid() && Translated() && Followed() && InStep(inputs[index..])
        invariant Good(state.tools, start, sessions.stored) && Onward() && Chronicled()
        invariant state.operations == old(state.operations)
        invariant stop == StopAfter(old(stop), inputs[..index])
        invariant callModel <==> old(callModel) || exists k :: 0 <= k < index && inputs[k].kind.External?
        invariant Prompted() && (callModel ==> Undelivered())
      {
        var input := inputs[index];
        assert inputs[index..] == [input] + inputs[index + 1..];
        assert inputs[..index + 1] == inputs[..index] + [input];
        StopMore(old(stop), inputs[..index], input);
        ok := HandleInboxInput(input, inputs[index + 1..]);
        if !ok {
          return;
        }
        if input.kind.External? {
          label Heard:
          callModel := true;
          CallModelValid@Heard();
        }
        index := index + 1;
      }
      assert inputs[index..] == [] && inputs[..index] == inputs;
      ok := true;
    }

    /** Whether the model is to be called is no part of what is kept in step. */
    twostate lemma CallModelValid()
      requires old(Valid()) && unchanged(this`modelInFlight, this`trace, this`heard, this`stop,
               this`cancellationRequested)
      requires unchanged(state, state.builder, sessions, inbox)
      ensures Valid() && Chronicled() == old(Chronicled()) && Followed() == old(Followed())
      ensures forall hand :: InStep(hand) == old(InStep(hand))
    {
    }

    /** A request supersedes the one in flight; its turn is stored before the model is asked. */
    method RequestModelResponse() returns (ok: bool)
      requires Valid() && Followed() && !IsHard(stop) && Undelivered()
      modifies this`modelInFlight, this`callModel, this`trace, state, state.builder, sessions
      ensures Good(state.tools, start, sessions.stored) && Onward() && Chronicled()
      ensures ok ==>
                && Valid() && Followed() && modelInFlight && !callModel
                && state.toolCalls == old(state.toolCalls) && state.operations == old(state.operations)
                && trace == old(trace) + [Trace.Asked(state.currentTurnID, old(state.builder.View()).Built())]
                && Inputs() == old(Inputs()) && AsksNow(old(trace))
      ensures !ok ==> trace == old(trace)
    {
      hide Good;
      hide Live;
      hide AddItem;
      hide Accepts;
      hide Apply;
      hide Trace.Told;
      hide Trace.Bound;
      hide Trace.Based;
      hide RequestsStored;
      hide Tracked;
      hide Attended;
      hide Trace.LastAsked;
      hide Trace.Stopped;
      hide Trace.StopStored;
      hide Trace.QuietItems;
      hide LawfulTools;
      hide ExternalIds;
      hide StoredSince;
      hide AskedAt;
      modelInFlight := false;
      var input := state.builder.Build();
      var id := FreshName(sessions.stored.head.turns);
      var turn := Turn(id, state.currentTurnID, Regular);
      ghost var before, was := sessions.stored, state.View();
      NextTurn(state.tools, start, before, turn);
      ghost var at;
      ok, at := RecordItem(AddTurn(turn));
      GrownChronicled();
      if !ok {
        return;
      }
      TurnFrame(state.tools, was, before, turn, at);
      modelInFlight := true;
      callModel := false;
      ghost var act := Trace.Asked(id, input);
      Trace.PrefixOf(Trace.Bound(trace), was.core.context.committed, input);
      Trace.PrefixOf(base, was.core.context.committed, input);
      Trace.ToldActs(trace, act, input, sessions.stored.head.positions.Keys);
      Trace.BasedMore(trace, act, base);
      RequestMore(state.tools, start, trace, before, Item(before.head.itemSequence + 1, at, TurnItem(turn)), act,
        origin);
      ActFollowed(state.operations, trace, heard, act);
      trace := trace + [act];
    }

    /** The response to the latest request: stored first, then its calls are translated and stored. */
    method HandleModelResponse(response: Response) returns (ok: bool, statuses: seq<ToolCallStatus>)
      requires Valid() && Translated() && !modelInFlight && response.turnID == state.currentTurnID
               && NamedCalls(response.output)
      requires Trace.LastAsked(trace) == Some(Trace.Question(state.currentTurnID, state.builder.committedPrefix))
      requires state.currentTurnType.Regular? && !IsHard(stop)
      requires response.turnID in sessions.stored.head.ownedTurns
               && response.turnID !in sessions.stored.head.respondedTurns
      modifies this`callModel, this`trace, state, state.builder, sessions
      ensures Good(state.tools, start, sessions.stored) && Onward() && Chronicled()
      ensures trace == old(trace) || trace == old(trace) + [RecordedAct(response, old(state.builder.committedPrefix))]
      ensures ok ==>
                && Valid() && Translated() && callModel == NeedsModel(statuses)
                && trace == old(trace) + [RecordedAct(response, old(state.builder.committedPrefix))]
                && state.deliveredInputs == old(state.currentTurnInputs)
                && Inputs() == old(Inputs())
                && OpsMore(old(state.operations), state.operations, statuses) && OpsHold(state.operations, statuses)
                && AnswersCalls(state.tools, response.turnID, response.output, statuses)
                && (callModel ==> Undelivered())
                && (forall status :: status in statuses ==> Scheduled(sessions.stored.head, status))
                && (forall status :: status in statuses ==>
                      (Key(status) in state.toolCalls <==> IsWaiting(status.status)))
    {
      hide AnswersCalls;
      hide AllPlanned;
      hide Good;
      hide Live;
      hide AddItem;
      hide Accepts;
      hide Apply;
      hide Trace.Told;
      hide Trace.Bound;
      hide Trace.Based;
      hide RequestsStored;
      hide Tracked;
      hide Attended;
      hide Trace.LastAsked;
      hide Trace.Stopped;
      hide Trace.StopStored;
      hide Trace.QuietItems;
      hide LawfulTools;
      hide NamedCalls;
      hide Scheduled;
      hide ExternalIds;
      hide StoredSince;
      statuses := [];
      ghost var before, was := sessions.stored, state.View();
      ResponseAccepted(state.tools, start, before, response);
      LiveInOrder(state.tools, start, before);
      ghost var at;
      ok, at := RecordItem(AddResponse(response));
      GrownChronicled();
      if !ok {
        return;
      }
      ResponseFrame(state.tools, was, before, response, at);
      ghost var act := RecordedAct(response, was.core.context.committed);
      Trace.PrefixOf(base, was.core.context.committed, act.context);
      Trace.ToldActs(trace, act, was.core.context.committed, sessions.stored.head.positions.Keys);
      Trace.BasedMore(trace, act, base);
      NoRequestMore(state.tools, start, trace, sessions.stored.items, act, origin);
      trace := trace + [act];
      // The guard for responses to compaction turns never applies: this loop only asks in regular turns.
      assert !state.currentTurnType.Compaction?;
      label Stored:
      ok, statuses := ScheduleToolCalls();
      GrownChronicled@Stored();
      if !ok {
        return;
      }
      CalmTraced@Stored();
      ResponsePlanned(state.tools, old(state.toolCalls), response.turnID, response.output, statuses);
      SettledAtOnce(statuses, sessions.stored.head);
      callModel := NeedsModel(statuses);
    }

    /** An operation goes to the manager only when its status is stored, and never after a hard stop. */
    method DispatchOperationToManager(value: Operation) returns (ok: bool)
      requires Valid() && !IsHard(stop) && value.id in state.operations && state.operations[value.id] == value
      requires Tracked(state.operations, trace, heard)
      modifies this`trace
      ensures Valid() && Tracked(state.operations, trace, heard)
      ensures trace == old(trace) + DispatchActs([value])
    {
      hide Good;
      hide Live;
      hide Trace.Told;
      hide Trace.Bound;
      hide Trace.Based;
      hide RequestsStored;
      hide Tracked;
      hide Attended;
      hide Trace.LastAsked;
      hide Trace.Stopped;
      hide Trace.StopStored;
      hide Trace.QuietItems;
      hide LawfulTools;
      DispatchOne(value);
      if IsTerminal(value.status) {
        assert trace + [] == trace;
        return true;
      }
      ghost var act := Trace.Dispatched(value.id);
      LiveFacts(state.tools, start, sessions.stored);
      Trace.ToldActs(trace, act, Committed(), sessions.stored.head.positions.Keys);
      Trace.BasedMore(trace, act, base);
      NoRequestMore(state.tools, start, trace, sessions.stored.items, act, origin);
      ActFollowed(state.operations, trace, heard, act);
      trace := trace + [act];
      ok :| true;
    }

    /** The operations of one status, in order; it stops at the first the manager refuses. */
    method DispatchAll(operations: seq<Operation>) returns (ok: bool)
      requires Valid() && !IsHard(stop) && Tracked(state.operations, trace, heard)
      requires forall op :: op in operations ==> op.id in state.operations && state.operations[op.id] == op
      modifies this`trace
      ensures Valid() && Tracked(state.operations, trace, heard) && old(trace) <= trace
      ensures ok ==> trace == old(trace) + DispatchActs(operations)
    {
      hide Valid;
      hide Tracked;
      hide DispatchActs;
      var index := 0;
      NoDispatchActs(trace);
      assert operations[..0] == [];
      while index < |operations|
        invariant 0 <= index <= |operations|
        invariant Valid() && Tracked(state.operations, trace, heard)
        invariant trace == old(trace) + DispatchActs(operations[..index])
      {
        DispatchMore(operations[..index], operations[index]);
        assert operations[..index + 1] == operations[..index] + [operations[index]];
        ok := DispatchOperationToManager(operations[index]);
        SeqAssoc(old(trace), DispatchActs(operations[..index]), DispatchActs([operations[index]]));
        if !ok {
          return;
        }
        index := index + 1;
      }
      assert operations[..index] == operations;
      ok := true;
    }

    /** A reply to the current request: recorded, its operations dispatched, and a grace period opened for their
        results. */
    method ProcessModelResponse(turnID: string, reply: Option<Response>)
      returns (ok: bool, ghost statuses: seq<ToolCallStatus>)
      requires Valid() && Translated() && Followed() && modelInFlight
      requires turnID == state.currentTurnID && !IsHard(stop)
      requires reply.Some? ==> reply.value.turnID == turnID && NamedCalls(reply.value.output)
      modifies this`modelInFlight, this`callModel, this`trace, state, state.builder, sessions
      ensures Good(state.tools, start, sessions.stored) && Onward() && Chronicled()
      ensures reply.None? ==> !ok && trace == old(trace) && sessions.stored == old(sessions.stored)
      ensures ok ==>
                && Valid() && Translated() && Followed() && !modelInFlight
                && AnswersCalls(state.tools, turnID, reply.value.output, statuses) && (callModel ==> Undelivered())
                && (callModel <==> exists status :: status in statuses && Key(status) !in state.toolCalls)
                && Inputs() == old(Inputs())
                && state.deliveredInputs == old(state.currentTurnInputs)
                && trace == old(trace) + [RecordedAct(reply.value, old(state.builder.committedPrefix))]
                   + StatusActs(statuses)
                && (!callModel && statuses != [] ==>
                      && state.graceArmed
                      && forall status :: status in statuses ==> Key(status) in state.graceToolCalls)
    {
      hide Good;
      hide Live;
      hide Trace.Told;
      hide Trace.Bound;
      hide Trace.Based;
      hide RequestsStored;
      hide Tracked;
      hide Attended;
      hide Trace.LastAsked;
      hide Trace.Stopped;
      hide Trace.StopStored;
      hide Trace.QuietItems;
      hide LawfulTools;
      hide NamedCalls;
      hide ExternalIds;
      hide StoredSince;
      modelInFlight := false;
      statuses := [];
      if reply.None? {
        return false, [];
      }
      hide AnswersCalls;
      var made;
      ok, made := HandleModelResponse(reply.value);
      statuses := made;
      if !ok {
        return;
      }
      label Recorded:
      MoreTracked(old(state.operations), state.operations, old(trace), heard);
      ActFollowed(state.operations, old(trace), heard,
        RecordedAct(reply.value, old(state.builder.committedPrefix)));
      ok := DispatchStatuses(made);
      Trace.PrefixOf(old(trace), old@Recorded(trace), trace);
      if !ok {
        return;
      }
      NewAttended(old(state.operations), state.operations, made, old(trace), trace, heard);
      SettledAtOnce(made, sessions.stored.head);
      if !callModel && made != [] {
        WaitingAll(made, sessions.stored.head);
        OpenGrace(made);
      }
      ok := true;
    }

    method DispatchStatuses(statuses: seq<ToolCallStatus>) returns (ok: bool)
      requires Valid() && !IsHard(stop) && Tracked(state.operations, trace, heard)
      requires OpsHold(state.operations, statuses)
      modifies this`trace
      ensures Valid() && Tracked(state.operations, trace, heard) && old(trace) <= trace
      ensures ok ==> trace == old(trace) + StatusActs(statuses)
    {
      hide Valid;
      hide Tracked;
      hide StatusActs;
      hide DispatchActs;
      var index := 0;
      NoStatusActs(trace);
      assert statuses[..0] == [];
      while index < |statuses|
        invariant 0 <= index <= |statuses|
        invariant Valid() && Tracked(state.operations, trace, heard)
        invariant trace == old(trace) + StatusActs(statuses[..index])
      {
        StatusMore(statuses[..index], statuses[index]);
        assert statuses[..index + 1] == statuses[..index] + [statuses[index]];
        label Next:
        ok := DispatchAll(statuses[index].operations);
        if !ok {
          Trace.PrefixOf(old(trace), old@Next(trace), trace);
          return;
        }
        SeqAssoc(old(trace), StatusActs(statuses[..index]), DispatchActs(statuses[index].operations));
        index := index + 1;
      }
      assert statuses[..index] == statuses;
      ok := true;
    }

    /** The loop holds back for the results of the calls just made. */
    method OpenGrace(statuses: seq<ToolCallStatus>)
      requires Valid() && statuses != []
      requires forall status :: status in statuses ==> Key(status) in state.toolCalls
      modifies state`graceToolCalls, state`graceArmed
      ensures Valid() && state.graceArmed
      ensures forall status :: status in statuses ==> Key(status) in state.graceToolCalls
    {
      hide Good;
      hide Live;
      hide Chronicled;
      hide Trace.Bound;
      hide Trace.Based;
      hide RequestsStored;
      hide Tracked;
      hide Attended;
      hide Trace.LastAsked;
      hide LawfulTools;
      var index := 0;
      while index < |statuses|
        invariant 0 <= index <= |statuses|
        invariant state.graceToolCalls <= state.toolCalls.Keys
        invariant forall k :: 0 <= k < index ==> Key(statuses[k]) in state.graceToolCalls
        invariant state.View() == old(state.View()) && unchanged(this, sessions, state.builder)
      {
        state.graceToolCalls := state.graceToolCalls + {Key(statuses[index])};
        index := index + 1;
      }
      assert Key(statuses[0]) in state.graceToolCalls;
      state.graceArmed := true;
    }

    /** Cancellation is asked for of every operation that still runs, whatever becomes of the others. */
    method CancelOperations() returns (ok: bool)
      requires Valid() && IsHard(stop) && Followed()
      modifies this`trace
      ensures Valid() && Followed() && old(trace) <= trace
      ensures forall id :: id in state.operations && !IsTerminal(state.operations[id].status) ==>
                Trace.Canceled(id) in trace
    {
      hide Good;
      hide Live;
      hide LawfulTools;
      hide Chronicled;
      hide Tracked;
      hide Attended;
      ok := true;
      var left := state.operations.Keys;
      while left != {}
        invariant left <= state.operations.Keys
        invariant Valid() && Followed() && old(trace) <= trace
        invariant forall id :: id in state.operations && id !in left && !IsTerminal(state.operations[id].status) ==>
                    Trace.Canceled(id) in trace
        decreases |left|
      {
        hide Valid;
        hide Followed;
        var id :| id in left;
        left := left - {id};
        if !IsTerminal(state.operations[id].status) {
          CancelOne(id);
          var canceled: bool :| true;
          ok := ok && canceled;
        }
      }
    }

    method CancelOne(id: string)
      requires Valid() && IsHard(stop) && Followed()
      modifies this`trace
      ensures Valid() && Followed() && trace == old(trace) + [Trace.Canceled(id)]
    {
      hide Good;
      hide Live;
      hide LawfulTools;
      hide Trace.Told;
      hide Trace.Bound;
      hide Trace.Based;
      hide RequestsStored;
      hide Trace.Stopped;
      hide Trace.LastAsked;
      hide Trace.StopStored;
      hide Trace.QuietItems;
      hide Tracked;
      hide Attended;
      ghost var act := Trace.Canceled(id);
      Trace.ToldActs(trace, act, Committed(), sessions.stored.head.positions.Keys);
      Trace.BasedMore(trace, act, base);
      NoRequestMore(state.tools, start, trace, sessions.stored.items, act, origin);
      ActFollowed(state.operations, trace, heard, act);
      trace := trace + [act];
    }

    /** With a hard stop accepted, the request is dropped and what runs is canceled, once. */
    method HandleStop() returns (ok: bool, stopped: bool)
      requires Valid() && IsHard(stop) && Followed()
      modifies this`modelInFlight, this`cancellationRequested, this`trace
      ensures Good(state.tools, start, sessions.stored) && Chronicled() && old(trace) <= trace
      ensures old(cancellationRequested) ==> trace == old(trace)
      ensures !old(cancellationRequested) ==>
                forall id :: id in state.operations && !IsTerminal(state.operations[id].status) ==>
                  Trace.Canceled(id) in trace
      ensures ok ==> Valid() && Followed() && cancellationRequested && !modelInFlight
      ensures ok ==> (stopped <==> forall id :: id in state.operations ==> IsTerminal(state.operations[id].status))
    {
      hide Good;
      hide Live;
      hide Trace.Told;
      hide Trace.Bound;
      hide Trace.Based;
      hide RequestsStored;
      hide Trace.LastAsked;
      hide Trace.Stopped;
      hide Trace.StopStored;
      hide LawfulTools;
      hide Tracked;
      hide Attended;
      if !cancellationRequested {
        modelInFlight := false;
        var canceled := CancelOperations();
        if !canceled {
          return false, false;
        }
        cancellationRequested := true;
      }
      ok := true;
      stopped := AllTerminal(state.operations.Keys, state.operations);
    }

    method RestoreItem(data: ItemData) returns (ok: bool)
      requires state.GraceSound()
      modifies state, state.builder
      ensures ok <==> LocalState.RestoreItem(state.tools, old(state.View()), data).Ok?
      ensures ok ==>
                && state.View() == LocalState.RestoreItem(state.tools, old(state.View()), data).value
                && state.GraceSound()
      ensures ok && old(state.graceToolCalls) == {} ==> state.graceToolCalls == {}
    {
      hide AddItem;
      if data.StatusItem? && RequiresTranslator(data.status) && Key(data.status) in state.toolCalls {
        var available := state.tools.resolve(state.toolCalls[Key(data.status)].call.name);
        if available.None? {
          return false;
        }
      }
      ok := state.AddItemToLocalState(data);
    }

    /** The items of one page, one by one. */
    method RestorePage(items: seq<Item>, after: nat) returns (ok: bool)
      requires after + |items| <= |sessions.stored.items| && items == sessions.stored.items[after..after + |items|]
      requires state.GraceSound() && state.graceToolCalls == {}
      requires Fold(state.tools, NewLocal(start), sessions.stored.items[..after]) == Ok(state.View())
      modifies state, state.builder
      ensures !ok ==> Fold(state.tools, NewLocal(start), sessions.stored.items).Refused?
      ensures ok ==>
                && Fold(state.tools, NewLocal(start), sessions.stored.items[..after + |items|]) == Ok(state.View())
                && state.GraceSound() && state.graceToolCalls == {}
    {
      hide LocalState.RestoreItem;
      var index := 0;
      while index < |items|
        invariant 0 <= index <= |items|
        invariant state.GraceSound() && state.graceToolCalls == {}
        invariant Fold(state.tools, NewLocal(start), sessions.stored.items[..after + index]) == Ok(state.View())
      {
        ghost var all, n := sessions.stored.items, after + index;
        assert items[index] == all[n];
        PrefixStep(all, n);
        FoldMore(state.tools, start, all[..n], all[n]);
        ok := RestoreItem(items[index].data);
        if !ok {
          FoldRefused(state.tools, NewLocal(start), all, n + 1);
          return;
        }
        index := index + 1;
      }
      ok := true;
    }

    /** The history, page by page: any page size gives the fold over all of it. */
    method LoadHistory(pageSize: nat) returns (ok: bool)
      requires pageSize > 0 && Lawful(sessions.stored.items)
      requires state.View() == NewLocal(start) && state.GraceSound() && state.graceToolCalls == {}
      modifies state, state.builder
      ensures ok <==> Fold(state.tools, NewLocal(start), sessions.stored.items).Ok?
      ensures ok ==> Fold(state.tools, NewLocal(start), sessions.stored.items) == Ok(state.View())
      ensures ok ==> state.GraceSound() && state.graceToolCalls == {}
    {
      hide LocalState.RestoreItem;
      hide Lawful;
      var after := 0;
      assert sessions.stored.items[..0] == [];
      while true
        invariant 0 <= after <= |sessions.stored.items|
        invariant state.GraceSound() && state.graceToolCalls == {}
        invariant Fold(state.tools, NewLocal(start), sessions.stored.items[..after]) == Ok(state.View())
        decreases |sessions.stored.items| - after
      {
        var items, nextAfter, more := sessions.Items(after, pageSize);
        ok := RestorePage(items, after);
        if !ok {
          return;
        }
        if !more {
          assert sessions.stored.items[..nextAfter] == sessions.stored.items;
          return true;
        }
        if nextAfter <= after {
          assert false;
          return false;
        }
        after := nextAfter;
      }
    }

    /** A coordinator that restores has the state of the one that stored last. */
    method Restore() returns (ok: bool)
      requires Good(state.tools, start, sessions.stored)
      requires state.View() == NewLocal(start) && state.GraceSound() && state.graceToolCalls == {}
      modifies state, state.builder
      ensures ok && Synced() && state.graceToolCalls == {}
    {
      hide SoundCalls;
      hide SnapshotsAgree;
      hide StatusesOpen;
      hide Lawful;
      hide HeadFollows;
      hide Distinct;
      hide Fold;
      hide HeadMap;
      hide Snapshots;
      hide ExternalIds;
      hide StoredSince;
      hide Unsettled;
      hide Pending;
      ok := LoadHistory(HISTORY_PAGE_SIZE);
      RestoreIsLive(state.tools, start, sessions.stored);
      var resumed := ComputeResume(sessions.stored.head.session, sessions.stored.head.operations,
          sessions.stored.items);
      state.AddOperationsOf(resumed.operations);
    }

    function PendingInputs(): int
      reads state
    {
      state.availableInputs - state.deliveredInputs
    }

    /** Nothing is left to be done: no request or call is open, all that came is answered, and nothing runs. */
    ghost predicate AtRest()
      reads this, state
    {
      && !modelInFlight && state.availableInputs == state.deliveredInputs && state.toolCalls == map[]
      && forall id :: id in state.operations ==> IsTerminal(state.operations[id].status)
    }

    predicate IsIdle()
      reads this, state
    {
      && !modelInFlight && PendingInputs() == 0 && state.toolCalls == map[]
      && AllTerminal(state.operations.Keys, state.operations)
    }

    /** No wakeup is lost: where the loop blocks with inputs undelivered, a request is in flight or
        a grace period is running out, and no open call has ended unnoticed. With a hard stop accepted,
        nothing is in flight any more, and something still runs; asked to stop when idle, the loop is not idle. */
    ghost predicate AtSelect()
      reads this, state, state.builder, sessions, inbox
    {
      && Valid() && InStep([]) && Reconciled() && Followed() && (callModel ==> Undelivered())
      && (IsHard(stop) ==>
            cancellationRequested && exists id :: id in state.operations && !IsTerminal(state.operations[id].status))
      && (!IsHard(stop) ==>
            && !callModel
            && (state.availableInputs > state.deliveredInputs ==>
                  modelInFlight || (state.graceArmed && state.graceToolCalls != {}))
            && (stop.Some? && stop.value.mode.StopWhenIdle? ==> !AtRest()))
    }

    /** From a stored session: calls without a status get one, finished ones are settled, and everything that runs is
        handed to the manager again. */
    method TakeUp() returns (ok: bool, ask: bool)
      requires Unstarted()
      modifies this`trace, state, state.builder, sessions
      ensures Good(state.tools, start, sessions.stored) && Onward() && Chronicled()
      ensures ok ==>
                && Valid() && Reconciled() && Followed() && InStep([]) && !modelInFlight
                && (ask <==> Undelivered()) && stop == None && !callModel
                && forall id :: id in state.operations && !IsTerminal(state.operations[id].status) ==>
                     Trace.Dispatched(id) in trace
    {
      hide Good;
      hide Live;
      hide LawfulTools;
      hide Scheduled;
      hide ExternalIds;
      hide StoredSince;
      hide Trace.Told;
      hide Trace.Bound;
      hide Trace.Based;
      hide RequestsStored;
      hide Tracked;
      hide Attended;
      hide Trace.LastAsked;
      hide Trace.Stopped;
      hide Trace.StopStored;
      hide Trace.QuietItems;
      ok := Restore();
      StartsValid();
      label Restored:
      var statuses;
      ok, statuses := ScheduleToolCalls();
      GrownChronicled@Restored();
      ask := false;
      if !ok {
        return;
      }
      CalmTraced@Restored();
      AsksAtOnce@Restored(statuses);
      label Scheduled:
      ok := ReconcileToolCalls();
      GrownChronicled@Scheduled();
      if !ok {
        return;
      }
      CalmTraced@Scheduled();
      hide OpsMore;
      hide OpsHold;
      NothingTracked(state.operations, trace, heard);
      ok := DispatchOperationsToManager();
      if !ok {
        return;
      }
      AllAttended(state.operations, trace, heard);
      ask := NeedsModel(statuses) || PendingInputs() > 0;
    }

    /** A call that has its result at once leaves something undelivered. */
    twostate lemma AsksAtOnce(statuses: seq<ToolCallStatus>)
      requires Good(state.tools, start, sessions.stored) && state.View() == Live(state.tools, start, sessions.stored)
      requires old(Synced()) && Calm()
      requires forall status :: status in statuses ==> Scheduled(sessions.stored.head, status)
      requires (exists status :: status in statuses && !IsWaiting(status.status)) ==>
                 old(state.availableInputs) < state.availableInputs
      ensures NeedsModel(statuses) ==> Undelivered()
    {
      hide Good;
      hide Live;
      hide Scheduled;
      LiveInOrder(state.tools, start, old(sessions.stored));
      SettledAtOnce(statuses, sessions.stored.head);
    }

    /** From a stored session to the first blocking point. */
    method Begin() returns (ok: bool)
      requires Unstarted()
      modifies this`modelInFlight, this`callModel, this`trace, state, state.builder, sessions
      ensures Good(state.tools, start, sessions.stored) && Onward() && Chronicled()
      ensures ok ==> AtSelect()
      ensures ok ==>
                forall id :: id in state.operations && !IsTerminal(state.operations[id].status) ==>
                  Trace.Dispatched(id) in trace
    {
      hide Good;
      hide Live;
      hide LawfulTools;
      hide ExternalIds;
      hide StoredSince;
      hide Chronicled;
      hide Tracked;
      hide Attended;
      hide Trace.StopStored;
      hide Trace.QuietItems;
      var ask;
      ok, ask := TakeUp();
      if ok && ask {
        label Taken:
        ok := RequestModelResponse();
        Continued(old(trace), old@Taken(trace), trace, old(sessions.stored.items), old@Taken(sessions.stored.items),
          sessions.stored.items);
      }
    }

    /** Nothing has been asked or stored yet. */
    lemma StartsValid()
      requires LawfulTools(state.tools) && Synced() && trace == [] && !modelInFlight && stop == None
               && !cancellationRequested
      requires origin == |sessions.stored.items| && base == Committed()
      ensures Valid()
    {
      hide Good;
      hide Live;
    }

    /** At the start, everything still running is handed to the manager again. */
    method DispatchOperationsToManager() returns (ok: bool)
      requires Valid() && !IsHard(stop) && Tracked(state.operations, trace, heard)
      modifies this`trace
      ensures Valid() && Tracked(state.operations, trace, heard) && old(trace) <= trace
      ensures ok ==>
                forall id :: id in state.operations && !IsTerminal(state.operations[id].status) ==>
                  Trace.Dispatched(id) in trace
    {
      hide Good;
      hide Live;
      hide LawfulTools;
      hide Chronicled;
      hide Trace.Bound;
      hide Trace.Based;
      hide RequestsStored;
      hide Tracked;
      hide Attended;
      hide Trace.LastAsked;
      var left := state.operations.Keys;
      while left != {}
        invariant left <= state.operations.Keys
        invariant Valid() && Tracked(state.operations, trace, heard) && old(trace) <= trace
        invariant forall id :: id in state.operations && id !in left && !IsTerminal(state.operations[id].status) ==>
                    Trace.Dispatched(id) in trace
        decreases |left|
      {
        hide Valid;
        var id :| id in left;
        left := left - {id};
        assert state.operations[id].id == id by { OperationsNamed(id); }
        label Next:
        DispatchOne(state.operations[id]);
        ok := DispatchOperationToManager(state.operations[id]);
        Trace.PrefixOf(old(trace), old@Next(trace), trace);
        if !ok {
          return;
        }
      }
      ok := true;
    }

    lemma OperationsNamed(id: string)
      requires Valid() && id in state.operations
      ensures state.operations[id].id == id
    {
      hide Good;
      hide Live;
      hide HeadMap;
      hide OperationsIndexed;
      LiveFacts(state.tools, start, sessions.stored);
      HeadMapKey(sessions.stored.head, id);
    }

    /** What may happen next, for all the loop can know. */
    predicate Enabled(event: Event)
      reads this, state, sessions, inbox
    {
      match event
      case Received => inbox.queued != []
      case Updated(update) => Harmless(sessions.stored, update)
      case HeartbeatDue => !modelInFlight && !IsHard(stop) && PendingInputs() == 0 && state.toolCalls != map[]
      case GraceOver => state.graceArmed
      case Replied(turnID, reply) => reply.Some? ==> reply.value.turnID == turnID && NamedCalls(reply.value.output)
      case _ => true
    }

    /** An update of an operation this run has dispatched, and not heard the end of, is one that may come. */
    lemma DispatchedHarmless(update: Operation)
      requires Valid() && Followed() && Trace.Dispatched(update.id) in trace && !EndHeard(heard, update.id)
      ensures Enabled(Updated(update))
      ensures update.id in state.operations
      ensures var known := state.operations[update.id];
              ValidOperation(update) && update.kind == known.kind && update.version == known.version ==>
                Accepts(sessions.stored.head, SaveOperation(update))
    {
      hide Good;
      hide Live;
      hide Attended;
      hide EndHeard;
      hide Harmless;
      LiveFacts(state.tools, start, sessions.stored);
      RunningIsHarmless(state.tools, start, sessions.stored, update);
    }

    /** Where the loop blocks there is always something that will wake it, unless it has nothing left to do: an answer,
        the end of a grace period, or a heartbeat about the calls it waits for. */
    lemma NeverStuck()
      requires AtSelect() && !IsHard(stop)
      ensures || modelInFlight || Enabled(GraceOver) || Enabled(HeartbeatDue)
              || (state.availableInputs == state.deliveredInputs && state.toolCalls == map[])
    {
      hide Good;
      hide Live;
      hide Chronicled;
      hide Tracked;
      hide Attended;
      hide LawfulTools;
      hide ExternalIds;
      hide StoredSince;
      hide ExternalOf;
      hide AllTerminal;
      LiveInOrder(state.tools, start, sessions.stored);
    }

    predicate AllHarmless(updates: seq<Operation>)
      reads sessions
    {
      forall k :: 0 <= k < |updates| ==> Harmless(sessions.stored, updates[k])
    }

    /** Anyone may submit anything to the inbox, at any moment. */
    method Arrive()
      requires inbox.Valid()
      modifies inbox
      ensures inbox.Valid() && inbox.delivered == old(inbox.delivered)
    {
      var arrivals: seq<Input> :| true;
      var index := 0;
      while index < |arrivals|
        invariant 0 <= index <= |arrivals|
        invariant inbox.Valid() && inbox.delivered == old(inbox.delivered)
      {
        var taken := inbox.Submit(arrivals[index]);
        index := index + 1;
      }
    }

    /** The oldest input in the inbox is in hand now. */
    method TakeInput(ghost hand: seq<Input>) returns (input: Input)
      requires InStep(hand) && inbox.queued != []
      modifies inbox`queued, inbox`delivered
      ensures InStep(hand + [input]) && inbox.delivered == old(inbox.delivered) + [input]
    {
      hide FirstArrivals;
      hide ExternalIds;
      hide StoredSince;
      hide ExternalOf;
      var next := inbox.Take();
      input := next.value;
      HandMore(resumed, old(inbox.delivered), ExternalIds(sessions.stored.items), hand, input);
      SeqAssoc(StoredSince(sessions.stored.items, origin), hand, [input]);
    }

    /** Inputs that are there or keep coming are taken together, up to a limit. */
    method SlurpInputs() returns (ok: bool, inputs: seq<Input>)
      requires InStep([])
      modifies inbox
      ensures InStep(inputs) && |inputs| <= SLURP_MAX_ITEMS
    {
      hide ExternalIds;
      hide StoredSince;
      hide ExternalOf;
      inputs := [];
      while |inputs| < SLURP_MAX_ITEMS
        invariant InStep(inputs) && |inputs| <= SLURP_MAX_ITEMS
        decreases SLURP_MAX_ITEMS - |inputs|
      {
        Arrive();
        var canceled, idle: bool :| true;
        if canceled {
          return false, inputs;
        }
        if idle || inbox.queued == [] {
          return true, inputs;
        }
        var input := TakeInput(inputs);
        inputs := inputs + [input];
      }
      ok := true;
    }

    /** A heartbeat goes through the inbox like any other input. */
    method PostHeartbeat() returns (ok: bool)
      requires inbox.Valid()
      modifies inbox
      ensures inbox.Valid() && inbox.delivered == old(inbox.delivered)
      ensures ok ==>
                && |inbox.submitted| == |old(inbox.submitted)| + 1
                && inbox.submitted[..|old(inbox.submitted)|] == old(inbox.submitted)
                && var input := inbox.submitted[|old(inbox.submitted)|];
                && input.kind.Control? && input.kind.message.Some? && input.kind.message.value.mode.Heartbeat?
                && input.id !in old(inbox.seen)
    {
      assert "running" != "";
      var reason: string :| reason != "";
      var id := FreshName(inbox.seen);
      var canceled: bool :| true;
      if canceled {
        return false;
      }
      ok := inbox.Submit(Input(id, Control(Some(ControlMessage(Heartbeat, reason))), Json(reason, true)));
    }

    /** Inputs and updates that queued up are taken in before calls are settled. */
    method ProcessEvents() returns (ok: bool, call: bool)
      requires Valid() && Translated() && Followed() && InStep([]) && (callModel ==> Undelivered())
      modifies this`stop, this`trace, this`heard, this`callModel, state, state.builder, sessions, inbox
      ensures Good(state.tools, start, sessions.stored) && Onward() && Chronicled()
      ensures ok ==>
                && Valid() && Reconciled() && Followed() && InStep([])
                && (call <==> callModel || (Undelivered() && !modelInFlight && state.graceToolCalls == {}))
                && (old(callModel) ==> call) && (call ==> Undelivered())
                && (call || ExternalIds(sessions.stored.items) == old(ExternalIds(sessions.stored.items)))
    {
      hide Good;
      hide Live;
      hide LawfulTools;
      hide Trace.Told;
      hide Trace.Bound;
      hide Trace.Based;
      hide RequestsStored;
      hide Tracked;
      hide Attended;
      hide Trace.LastAsked;
      hide Trace.Stopped;
      hide Trace.StopStored;
      hide Trace.QuietItems;
      hide Harmless;
      hide ExternalIds;
      hide StoredSince;
      hide ExternalOf;
      call := false;
      var inputs;
      ok, inputs := SlurpInputs();
      if !ok {
        return;
      }
      ok := HandleInboxInputs(inputs);
      if !ok {
        return;
      }
      var canceled: bool :| true;
      if canceled {
        return false, false;
      }
      assert AllHarmless([]);
      var updates: seq<Operation> :| |updates| <= SLURP_MAX_ITEMS && AllHarmless(updates);
      label Heard:
      ok := ProcessOperations(updates);
      Trace.PrefixOf(old(sessions.stored.items), old@Heard(sessions.stored.items), sessions.stored.items);
      if !ok {
        return;
      }
      label Taken:
      ok := ReconcileToolCalls();
      Trace.PrefixOf(old(sessions.stored.items), old@Taken(sessions.stored.items), sessions.stored.items);
      GrownChronicled@Taken();
      if !ok {
        return;
      }
      CalmTraced@Taken();
      call := callModel || (PendingInputs() > 0 && !modelInFlight && state.graceToolCalls == {});
    }

    /** The oldest input of the inbox is taken and handled. */
    method HandleReceived() returns (ok: bool)
      requires AtSelect() && inbox.queued != []
      modifies this`stop, this`trace, this`callModel, state, state.builder, sessions, inbox
      ensures Good(state.tools, start, sessions.stored) && Onward() && Chronicled()
      ensures ok ==> Valid() && Translated() && Followed() && InStep([]) && Prompted() && (callModel ==> Undelivered())
      ensures |inbox.delivered| == |old(inbox.delivered)| + 1
    {
      hide Good;
      hide Live;
      hide LawfulTools;
      hide Chronicled;
      hide AskedAt;
      hide Tracked;
      hide Attended;
      hide Trace.LastAsked;
      hide Trace.StopStored;
      hide Trace.QuietItems;
      hide ExternalIds;
      hide StoredSince;
      hide ExternalOf;
      var input := TakeInput([]);
      assert [] + [input] == [input];
      ok := HandleInboxInputs([input]);
    }

    /** What the event itself does, before the queues are looked at. */
    method ProcessEvent(event: Event) returns (ok: bool)
      requires AtSelect() && Enabled(event)
      requires event.Replied? ==> modelInFlight && event.turnID == state.currentTurnID
      modifies this`stop, this`trace, this`heard, this`callModel, this`modelInFlight, state, state.builder, sessions,
          inbox
      ensures Good(state.tools, start, sessions.stored) && Onward() && Chronicled()
      ensures ok ==> Valid() && Translated() && Followed() && InStep([]) && Prompted() && (callModel ==> Undelivered())
      ensures ok ==>
                match event
                case Canceled => false
                case Closed => false
                case Received => |inbox.delivered| == |old(inbox.delivered)| + 1
                case Updated(update) => heard == old(heard) + [update]
                case HeartbeatDue => |inbox.submitted| == |old(inbox.submitted)| + 1
                case GraceOver => state.graceToolCalls == {}
                case Replied(_, reply) =>
                  reply.Some? && old(trace) + [RecordedAct(reply.value, old(state.builder.committedPrefix))] <= trace
    {
      hide StatusActs;
      hide RecordedAct;
      hide AnswersCalls;
      hide Chronicled;
      hide AskedAt;
      hide Good;
      hide Live;
      hide LawfulTools;
      hide Trace.Told;
      hide Trace.Bound;
      hide Trace.Based;
      hide RequestsStored;
      hide Tracked;
      hide Attended;
      hide Trace.LastAsked;
      hide Trace.Stopped;
      hide Trace.StopStored;
      hide Trace.QuietItems;
      hide Harmless;
      hide NamedCalls;
      hide ExternalIds;
      hide StoredSince;
      hide ExternalOf;
      match event
      case Canceled => ok := false;
      case Closed => ok := false;
      case Received =>
        ok := HandleReceived();
      case Updated(update) =>
        ok := HandleOperationUpdate(update);
      case HeartbeatDue =>
        ok := PostHeartbeat();
      case GraceOver =>
        state.ClearToolGrace();
        ok := true;
      case Replied(turnID, reply) =>
        ghost var statuses;
        ok, statuses := ProcessModelResponse(turnID, reply);
    }

    /** A hard stop is acted on; otherwise the model is asked if it has to be, and an idle loop may end. */
    method EndTurn(call: bool) returns (ending: Ending)
      requires Valid() && Reconciled() && Followed() && InStep([])
      requires call <==> callModel || (Undelivered() && !modelInFlight && state.graceToolCalls == {})
      requires call ==> Undelivered()
      modifies this`modelInFlight, this`callModel, this`cancellationRequested, this`trace, state, state.builder,
          sessions
      ensures Good(state.tools, start, sessions.stored) && Onward() && Chronicled()
      ensures ending.Running? ==> AtSelect()
      ensures ending.Idle? ==> Valid() && stop.Some? && stop.value.mode.StopWhenIdle? && AtRest() && !call
      ensures ending.Running? && !IsHard(stop) && call ==>
                modelInFlight && AsksNow(old(trace)) && state.graceToolCalls == {}
      ensures !IsHard(stop) && !call ==> trace == old(trace)
      ensures IsHard(stop) || !call ==> sessions.stored == old(sessions.stored)
      ensures IsHard(stop) && !old(cancellationRequested) ==>
                forall id :: id in state.operations && !IsTerminal(state.operations[id].status) ==>
                  Trace.Canceled(id) in trace
      ensures ending.Halted? ==> Valid() && IsHard(stop) && AllTerminal(state.operations.Keys, state.operations)
    {
      hide Chronicled;
      hide AskedAt;
      hide Good;
      hide Live;
      hide LawfulTools;
      hide Trace.Told;
      hide Trace.Bound;
      hide Trace.Based;
      hide RequestsStored;
      hide Tracked;
      hide Attended;
      hide Trace.LastAsked;
      hide Trace.Stopped;
      hide Trace.StopStored;
      hide Trace.QuietItems;
      hide ExternalIds;
      hide StoredSince;
      hide ExternalOf;
      if IsHard(stop) {
        var ok, stopped := HandleStop();
        return if !ok then Failed else if stopped then Halted else Running;
      }
      if call {
        var ok := RequestModelResponse();
        if !ok {
          return Failed;
        }
        state.ClearToolGrace();
      }
      if stop.Some? && stop.value.mode.StopWhenIdle? && IsIdle() {
        return Idle;
      }
      return Running;
    }

    /** What an event leaves to be done, up to the next blocking point. */
    method AfterEvent() returns (ending: Ending)
      requires Valid() && Translated() && Followed() && InStep([]) && (callModel ==> Undelivered())
      modifies this`stop, this`trace, this`heard, this`callModel, this`modelInFlight, this`cancellationRequested, state,
          state.builder, sessions, inbox
      ensures Good(state.tools, start, sessions.stored) && Onward() && Chronicled()
      ensures ending.Running? ==> AtSelect()
      ensures ending.Running? && !IsHard(stop) ==>
                || (!old(callModel) && ExternalIds(sessions.stored.items) == old(ExternalIds(sessions.stored.items)))
                || (modelInFlight && AsksNow(old(trace)))
      ensures ending.Idle? ==>
                !old(callModel) && ExternalIds(sessions.stored.items) == old(ExternalIds(sessions.stored.items))
      ensures CancelsAll(ending)
      ensures ending.Idle? ==> Valid() && stop.Some? && stop.value.mode.StopWhenIdle? && AtRest()
      ensures ending.Halted? ==> Valid() && IsHard(stop) && AllTerminal(state.operations.Keys, state.operations)
    {
      hide Good;
      hide Live;
      hide LawfulTools;
      hide Chronicled;
      hide Tracked;
      hide Attended;
      hide Trace.LastAsked;
      hide Trace.StopStored;
      hide Trace.QuietItems;
      hide ExternalIds;
      hide StoredSince;
      hide ExternalOf;
      var ok, call := ProcessEvents();
      if !ok {
        return Failed;
      }
      label Taken:
      ending := EndTurn(call);
      Continued(old(trace), old@Taken(trace), trace, old(sessions.stored.items), old@Taken(sessions.stored.items),
        sessions.stored.items);
    }

    /** A turn that first meets a hard stop, and gets to its end, has everything that runs canceled. */
    twostate predicate CancelsAll(ending: Ending)
      reads this, state
    {
      (ending.Running? || ending.Halted?) && IsHard(stop) && !old(cancellationRequested) ==>
        forall id :: id in state.operations && !IsTerminal(state.operations[id].status) ==> Trace.Canceled(id) in trace
    }

    /** One turn of the loop, from one blocking point to the next. */
    method TurnOnce() returns (ending: Ending)
      requires AtSelect()
      modifies this, state, state.builder, sessions, inbox
      ensures Good(state.tools, start, sessions.stored) && Onward() && Chronicled()
      ensures ending.Running? ==> AtSelect()
      ensures ending.Running? && !IsHard(stop) ==>
                || ExternalIds(sessions.stored.items) == old(ExternalIds(sessions.stored.items))
                || (modelInFlight && AsksNow(old(trace)))
      ensures ending.Idle? ==> ExternalIds(sessions.stored.items) == old(ExternalIds(sessions.stored.items))
      ensures CancelsAll(ending)
      ensures ending.Idle? ==>
                Valid() && !IsHard(old(stop)) && stop.Some? && stop.value.mode.StopWhenIdle? && AtRest()
      ensures ending.Halted? ==> Valid() && IsHard(stop) && AllTerminal(state.operations.Keys, state.operations)
    {
      hide Good;
      hide Live;
      hide LawfulTools;
      hide Chronicled;
      hide Tracked;
      hide Attended;
      hide Trace.LastAsked;
      hide Trace.StopStored;
      hide Trace.QuietItems;
      hide Harmless;
      hide NamedCalls;
      hide ExternalIds;
      hide StoredSince;
      hide ExternalOf;
      SelectKeeps();
      Arrive();
      assert Enabled(Canceled);
      var event: Event :| Enabled(event);
      if event.Replied? && (!modelInFlight || event.turnID != state.currentTurnID) {
        return Running;
      }
      var ok := ProcessEvent(event);
      if !ok {
        return Failed;
      }
      label Woken:
      ending := AfterEvent();
      Continued(old(trace), old@Woken(trace), trace, old(sessions.stored.items), old@Woken(sessions.stored.items),
        sessions.stored.items);
    }

    lemma SelectKeeps()
      requires AtSelect()
      ensures Good(state.tools, start, sessions.stored) && Chronicled()
    {
      hide Good;
      hide Chronicled;
    }

    /** Any number of turns of the loop. However it ends, the session left behind can be restored and has
        grown, and the acts of the run are told; a when-idle stop leaves nothing undelivered, a hard stop
        nothing running. */
    method Run(turns: nat) returns (ending: Ending)
      requires Unstarted()
      modifies this, state, state.builder, sessions, inbox
      ensures Good(state.tools, start, sessions.stored) && Onward() && Chronicled()
      ensures ending.Running? ==> AtSelect()
      ensures ending.Idle? ==> Valid() && !IsHard(stop) && AtRest()
      ensures ending.Halted? ==> Valid() && IsHard(stop) && AllTerminal(state.operations.Keys, state.operations)
    {
      hide Good;
      hide AtSelect;
      hide Chronicled;
      hide LawfulTools;
      hide Trace.QuietItems;
      hide ExternalIds;
      hide StoredSince;
      hide ExternalOf;
      var ok := Begin();
      if !ok {
        return Failed;
      }
      ending := Running;
      var turn := 0;
      while turn < turns && ending.Running?
        invariant Good(state.tools, start, sessions.stored) && Onward() && Chronicled()
        invariant ending.Running? ==> AtSelect()
        invariant ending.Idle? ==> Valid() && !IsHard(stop) && AtRest()
        invariant ending.Halted? ==> Valid() && IsHard(stop) && AllTerminal(state.operations.Keys, state.operations)
        decreases turns - turn
      {
        hide Valid;
        hide AtRest;
        label Turn:
        ending := TurnOnce();
        Continued(old(trace), old@Turn(trace), trace, old(sessions.stored.items), old@Turn(sessions.stored.items),
          sessions.stored.items);
        turn := turn + 1;
      }
    }
  }

  lemma StopNone(stop: Option<ControlMessage>)
    ensures StopAfter(stop, []) == stop
  {
  }

  lemma StopOne(stop: Option<ControlMessage>, input: Input)
    ensures StopAfter(stop, [input]) == if AsksToStop(input) && !IsHard(stop) then input.kind.message else stop
  {
    assert Front([input]) == [];
  }

  lemma StopMore(stop: Option<ControlMessage>, inputs: seq<Input>, input: Input)
    ensures StopAfter(stop, inputs + [input]) == StopAfter(StopAfter(stop, inputs), [input])
  {
    assert Front(inputs + [input]) == inputs;
    StopOne(StopAfter(stop, inputs), input);
  }

  predicate RequestsMode(input: Input, hard: bool) {
    && input.kind.Control? && input.kind.message.Some?
    && if hard then input.kind.message.value.mode.StopHard? else input.kind.message.value.mode.StopWhenIdle?
  }

  /** The first hard stop counts, and stays; without one, the latest request to stop when idle does. */
  lemma {:induction false} StopAfterIs(stop: Option<ControlMessage>, inputs: seq<Input>, k: nat)
    requires k < |inputs|
    ensures stop.Some? && stop.value.mode.StopHard? ==> StopAfter(stop, inputs) == stop
    ensures !(stop.Some? && stop.value.mode.StopHard?) ==>
              && (RequestsMode(inputs[k], true) && (forall j :: 0 <= j < k ==> !RequestsMode(inputs[j], true)) ==>
                    StopAfter(stop, inputs) == inputs[k].kind.message)
              && ((forall j :: 0 <= j < |inputs| ==> !RequestsMode(inputs[j], true)) ==>
                    && (RequestsMode(inputs[k], false)
                        && (forall j :: k < j < |inputs| ==> !RequestsMode(inputs[j], false)) ==>
                        StopAfter(stop, inputs) == inputs[k].kind.message)
                    && ((forall j :: 0 <= j < |inputs| ==> !RequestsMode(inputs[j], false)) ==>
                          StopAfter(stop, inputs) == stop))
    decreases |inputs|
  {
    var front := Front(inputs);
    assert forall j :: 0 <= j < |front| ==> front[j] == inputs[j];
    if k < |front| {
      StopAfterIs(stop, front, k);
    } else if front != [] {
      StopSoft(stop, front);
    }
  }

  /** Without a hard stop among some inputs there is none in force after them. */
  lemma {:induction false} StopSoft(stop: Option<ControlMessage>, inputs: seq<Input>)
    ensures stop.Some? && stop.value.mode.StopHard? ==> StopAfter(stop, inputs) == stop
    ensures !(stop.Some? && stop.value.mode.StopHard?)
            && (forall j :: 0 <= j < |inputs| ==> !RequestsMode(inputs[j], true)) ==>
            !(StopAfter(stop, inputs).Some? && StopAfter(stop, inputs).value.mode.StopHard?)
    ensures (forall j :: 0 <= j < |inputs| ==> !RequestsMode(inputs[j], true) && !RequestsMode(inputs[j], false)) ==>
              StopAfter(stop, inputs) == stop
  {
    if inputs != [] {
      var front := Front(inputs);
      assert forall j :: 0 <= j < |front| ==> front[j] == inputs[j];
      StopSoft(stop, front);
    }
  }

  lemma Continued(a: seq<Trace.Act>, b: seq<Trace.Act>, c: seq<Trace.Act>, x: seq<Item>, y: seq<Item>, z: seq<Item>)
    requires a <= b <= c && x <= y <= z
    ensures a <= c && x <= z
  {
  }

  /** What may happen to a session: a run until it ends or crashes, or a fork that takes its place. */
  datatype Life = Lived(turns: nat) | Forked(session: Session, turnID: string)

  ghost function CommittedBy(tools: Tools, system: string, st: Stored): seq<ModelItem> {
    Live(tools, NewContext(system), st).core.context.committed
  }

  /** Another run over the session: its acts continue those of the runs before it. */
  method RunOnce(tools: Tools, system: string, sessions: Sessions, turns: nat, ghost before: seq<Trace.Act>)
    returns (ghost acts: seq<Trace.Act>)
    requires LawfulTools(tools) && Good(tools, NewContext(system), sessions.stored)
    requires Trace.Extends(before, CommittedBy(tools, system, sessions.stored)) && Trace.AnswersLatest(before)
    requires RequestsStored(tools, NewContext(system), before, sessions.stored.items, 0)
    modifies sessions
    ensures Good(tools, NewContext(system), sessions.stored) && old(sessions.stored.items) <= sessions.stored.items
    ensures before <= acts
    ensures Trace.Extends(acts, CommittedBy(tools, system, sessions.stored)) && Trace.AnswersLatest(acts)
    ensures RequestsStored(tools, NewContext(system), acts, sessions.stored.items, 0)
  {
    hide RequestsStored;
    hide LawfulTools;
    hide ExternalIds;
    hide StoredSince;
    hide Good;
    hide Live;
    var coordinator := Coordinator.Open(tools, system, sessions);
    var ending := coordinator.Run(turns);
    acts := before + coordinator.trace;
    var base, committed := coordinator.base, CommittedBy(tools, system, sessions.stored);
    Trace.ExtendsMore(coordinator.trace, Trace.Bound(coordinator.trace), committed);
    Trace.RunsJoin(before, coordinator.trace, base, committed);
    RequestsJoin(tools, NewContext(system), before, coordinator.trace, old(sessions.stored.items),
      sessions.stored.items);
  }

  /** Runs, restarts and forks in any order: whatever crashes in between, a history only grows, and the history at
      hand holds no external input twice and can be restored. The acts of all runs since the last fork are one
      sequence, in which every request extends all earlier ones. */
  method RunAgain(tools: Tools, system: string, sessions: Sessions, lives: seq<Life>)
    returns (last: Sessions, ghost acts: seq<Trace.Act>)
    requires LawfulTools(tools) && Good(tools, NewContext(system), sessions.stored)
    modifies sessions
    ensures last == sessions || fresh(last)
    ensures Good(tools, NewContext(system), last.stored) && Distinct(ExternalIds(last.stored.items))
    ensures old(sessions.stored.items) <= sessions.stored.items
    ensures Trace.Extends(acts, CommittedBy(tools, system, last.stored)) && Trace.AnswersLatest(acts)
    ensures RequestsStored(tools, NewContext(system), acts, last.stored.items, 0)
  {
    hide LawfulTools;
    hide ExternalIds;
    hide ForkStored;
    hide CommittedBy;
    last, acts := sessions, [];
    var index := 0;
    while index < |lives|
      invariant 0 <= index <= |lives|
      invariant last == sessions || fresh(last)
      invariant Good(tools, NewContext(system), last.stored)
      invariant old(sessions.stored.items) <= sessions.stored.items
      invariant Trace.Extends(acts, CommittedBy(tools, system, last.stored)) && Trace.AnswersLatest(acts)
      invariant RequestsStored(tools, NewContext(system), acts, last.stored.items, 0)
    {
      hide Good;
      label Down:
      match lives[index] {
        case Lived(turns) =>
          acts := RunOnce(tools, system, last, turns, acts);
          Trace.PrefixOf(old(sessions.stored.items), old@Down(sessions.stored.items), sessions.stored.items);
        case Forked(session, turnID) =>
          var child := ForkStored(last.stored, session, turnID);
          if child.Ok? && session.createdAt != 0 {
            ForkGood(tools, NewContext(system), last.stored, session, turnID);
            last := new Sessions(child.value);
            acts := [];
          }
      }
      index := index + 1;
    }
  }
}
