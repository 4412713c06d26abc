/** From the coordinator's step to the bytes on disk and back: what a crash can leave behind. */
module Recovery {
  import opened Bytes
  import opened ContextBuilder
  import opened LocalHistory
  import opened LocalState
  import opened Operations
  import opened Options
  import opened SessionCodec
  import opened SessionHistory
  import opened SessionState
  import opened SessionStore
  import opened SessionTypes

  /** The appends the coordinator makes: each was accepted by its own state first. */
  ghost predicate Proposed(tools: Tools, start: Context, st: Stored, request: Request) {
    var live := Live(tools, start, st);
    && Accepts(st.head, request)
    && match request
       case SaveOperation(op) => Harmless(st, op)
       case AddStatus(status) =>
         && AddItem(tools, live, StatusItem(status)).Ok? && Key(status) in live.core.calls
         && (FirstStatus(tools, st.head, live.core.calls[Key(status)], status)
            || RepeatStatus(st.head, live.core.calls[Key(status)], status))
       case _ => Welcome(st, request) && AddItem(tools, live, DataOf(request).value).Ok?
  }

  /** What such an append does to the coordinator's state. */
  function Stepped(tools: Tools, local: Local, request: Request): Local {
    match DataOf(request)
    case None => local.(operations := local.operations[request.operation.id := request.operation])
    case Some(data) => match AddItem(tools, local, data) case Ok(after) => after case Refused => local
  }

  /** The store and the coordinator take the same step, whatever the append. */
  lemma StepsAgree(tools: Tools, start: Context, st: Stored, request: Request, at: nat)
    requires Good(tools, start, st) && Proposed(tools, start, st, request) && at != 0
    ensures var next := Apply(st, request, at).value;
            Good(tools, start, next) && Live(tools, start, next) == Stepped(tools, Live(tools, start, st), request)
  {
    hide Good;
    hide Accepts;
    hide Apply;
    hide AddItem;
    hide FirstStatus;
    hide RepeatStatus;
    hide Welcome;
    match request
    case SaveOperation(op) =>
      GoodSave(tools, start, st, op, at);
      assert Live(tools, start, st).operations == HeadMap(st.head);
    case AddStatus(status) =>
      hide Live;
      GoodStatus(tools, start, st, status, at);
    case _ =>
      hide Live;
      GoodAppend(tools, start, st, request, at);
  }

  /** However the append of a proposed request ends, even after any prefix of its bytes, a coordinator
      restarted on the file rebuilds the state before the append or the state after it; after it, if
      success was reported. */
  lemma CrashRecovers(codec: Codec, tools: Tools, start: Context, id: string, file: Octets, request: Request, at: nat,
      fault: Fault)
    requires RoundTrips(codec) && at != 0 && SoundFile(codec, id, file)
    requires Good(tools, start, Held(codec, file)) && Proposed(tools, start, Held(codec, file), request)
    ensures var live, (bytes, ok) := Live(tools, start, Held(codec, file)), Written(codec, file, request, at, fault);
            var restored := Restore(tools, start, Held(codec, bytes));
            && SoundFile(codec, id, bytes) && Good(tools, start, Held(codec, bytes))
            && (restored == Ok(live) || restored == Ok(Stepped(tools, live, request)))
            && (ok ==> restored == Ok(Stepped(tools, live, request)))
  {
    var st := Held(codec, file);
    assert Accepts(st.head, request);
    hide Good;
    hide Accepts;
    hide Apply;
    hide Held;
    hide SoundFile;
    hide Written;
    hide Restore;
    hide Live;
    hide Stepped;
    hide Proposed;
    hide LineFor;
    WrittenIsSound(codec, id, file, request, at, fault);
    StepsAgree(tools, start, st, request, at);
    RestoreIsLive(tools, start, st);
    RestoreIsLive(tools, start, Apply(st, request, at).value);
  }
}
