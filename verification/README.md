# Verification of the agent harness

A Dafny model of the parts of the harness that keep durable state or parse bytes, with
proofs of what they promise. `dafny verify dfyconfig.toml` checks all of it.

What is modelled, and where:

* **Session log** (`SessionTypes`, `SessionState`, `SessionHistory`, `SessionCodec`, `SessionLog`,
  `SessionHead`, `SessionReader`, `SessionResume`, `SessionStore`). The rules an append is checked
  against, the bytes of the log, the reader's two passes, forks, and the store with its cache of
  write states. The cached struct is copied while its maps and its operation array are shared, as in
  the source: `SessionHead.HeadRef` is the struct, `Tables` and `slots` are the shared parts. Files are
  byte strings; an append may fail to encode, to open, to truncate, after any number of bytes, at
  sync or at close; a publication may fail before or after its rename.
* **Coordinator** (`LocalState`, `LocalHistory`, `LocalCounts`, `LocalFork`, `Recovery`, `ContextBuilder`,
  `CoordinatorState`, `Translation`, `Sessions`, `Trace`, `Inbox`, `CoordinatorSteps`, `Requests`, `Coordinator`,
  `HarmfulUpdate`). The fold of
  history items into local state, and the loop as a class whose methods change that state in place. The loop owns an
  inbox, seeded with the external inputs the session was resumed with, into which anyone may submit anything at any
  moment. Each `select` branch is a nondeterministic event; what the loop can be woken by is limited only by
  `Coordinator.Enabled`. The store behind it is `Sessions.Sessions`, whose append has acceptance as a precondition and
  ends in one of the three ways `SessionStore.WrittenIsSound` allows, so that calling it at all is the proof that the
  coordinator proposes nothing the store refuses. Only operation updates, which come from outside, may be refused.
* **Shell operation, bounded output and the local manager** (`Utf8`, `Utf8Scalars`, `Output`, `OutputWindow`,
  `Primitives`, `Shell`, `ShellRun`, `ShellReadBack`, `ShellFiles`, `ShellOnce`, `ShellEvents`, `ShellPanics`,
  `ShellActor`, `LocalManager`, `ManagerUpdates`). UTF-8
  over arbitrary bytes (RFC 3629, sections 3 and 4; an invalid position counts as one rune of one byte), truncation by
  runes, the phase machine, the reader of capture files, and the manager's counters and updates. `ShellActor.Actor` is
  the object whose fields change; its methods are proved equal to the step functions of `Shell`.
* **SSE framing** (`SseFramer`, `SseChunks`, `SseGrammar`, `SsePassThrough`, `SseData`, `SseStream`). The framer as the
  imperative class it is, proved against a byte machine, and that against the line and event grammar of the WHATWG HTML
  Standard, sections 9.2.5 and 9.2.6.

The main results, and how they fit together:

* `Recovery.CrashRecovers`: whatever happens to an append the coordinator makes, a coordinator restarted on the
  file has the state from before it or from after it, and from after it if success was reported. It joins
  `SessionStore.WrittenIsSound` (bytes), `LocalHistory.GoodAppend`, `GoodStatus` and `GoodSave` (the step) and
  `LocalHistory.RestoreIsLive` (replay equals live).
* `Coordinator.Run` keeps, for any number of turns of the loop, any events and any failures, that the session left
  behind is good (restorable, every call settled at most once, every response an answer to the then latest turn), that
  the live state is the replayed one, that no wakeup is lost at a blocking point, that everything that runs has been
  handed to the manager, that the history and the trace of acts are only ever continued, and that both are silent after
  a hard stop. What holds of the acts (`Trace.Told`) holds however the run ends, cancellation and store failures
  included.
* `Coordinator.RunAgain`: over any runs, restarts and forks the history holds no external input ID twice, whatever is
  submitted how often, and the requests of all runs since the last fork extend each other. The first rests on
  `Inbox.DeliveredOnce` and on `Coordinator.InStep`: the inputs this run has stored, and those in hand, are what the
  inbox let out, in order. The second rests on `CoordinatorSteps.LiveGrows`: no item takes back what is committed.
* `Requests.RequestShows`, with `RequestsStored` in `Coordinator.Run` and `RunAgain`: every request of a session's
  life is stored as a turn, and shows the text of every external input stored before it, what every heartbeat said, and
  the result of every call settled before it: what the tool makes of the last states of the operations the call waited
  for, unless that reads like a placeholder. Nothing but placeholders of running calls is ever taken out (`AddItemContent`). And each request has something
  in front of it that no earlier answer was given to: the model is never asked for nothing.
* `Coordinator.ProcessModelResponse` with `Translation.AnswersCalls`: what is dispatched after a response is, call by
  call and field by field, what the tools plan for its calls.
* `LocalHistory.GoodSave` and `SaveRestores`: exactly which operation updates a restart reproduces. An update that
  gives a settled operation another end is accepted by the store and the loop, and a restart does not see it
  (`HarmfulUpdate.HarmfulExists`). `ManagerUpdates.NextUpdateEnabled` shows, of manager and coordinator together, that
  the manager never sends one.
* `ShellPanics.PanicsIff`: a saved state that loads can make bounding panic, over some run, exactly if it waits for the
  last read of the second stream, has an exit code, and holds of the first stream no tail and a head that is not the
  whole of it. No state the system itself saves is one of these (`SoundCannotPanic`).
* `LocalManager.Manage`: over any work in any order, starts and updates are only ever added to, a canceled operation
  stays canceled and starts nothing more, an operation's updates end with its one terminal update, and nothing panics
  unless a saved state of that kind is added.
* `SessionStore.Store.Valid` is kept by every operation under every fault: each cached write state is what its file
  decodes to, and every file decodes.
* `ShellFiles.ShellShowsOutput`: a whole run from a specification, over a map of files. The program is run as
  specified, its two streams go to the two files made for it, and the result shows the bounding of stdout as the one
  and of stderr as the other. `ShellReadBack.CrashShowsWhole`: reading two windows and bounding them shows what bounding
  the whole stream would show, also after a crash at any moment of the reading.
* `ShellOnce.RunsBounded`: over any restarts and crashes, a command is run at most once for each start from a
  checkpoint saved before the process phase, and never from a later one. The bound is met (`RunsEachTime`).
* `LocalManager.AllArrived`: when every primitive that was started has sent all it sends, nothing is counted as in
  flight. It rests on `Primitives`: of all a primitive sends, in every ending, exactly the last event completes it.
* `SseStream.StripDelivers` and `StreamEvents`: strip mode emits the blocks of the grammar, whatever the chunks, and
  the data read off the frames is the data the standard dispatches, except in one case that is stated exactly.
  `SsePassThrough.PassThroughEmitsBlocks`: pass-through mode fails exactly when strip mode does, and emits the same
  blocks with all their bytes, but for the LF of a CRLF that a chunk boundary cuts in two.

What is assumed. JSON is a partial encoding that decodes to the same record (`SessionCodec.RoundTrips`). A clock never
reads zero. UUIDs are names not in use. Translators either report an error and submit nothing, or wait for exactly the
operations they submit (`LocalState.LawfulTools`), and translating is a pure function. Call IDs are not empty. No update
gives an operation whose end the history has recorded another state (`LocalHistory.Harmless`, proved of the manager in
`ManagerUpdates`). Restarts use the same tools.

What the code does not promise: that a command is run only once. The manager starts what a checkpoint asks for before
the loop has saved the checkpoint, so a crash between the two leads to a start from an earlier one, and that runs the
command again (`ShellOnce.RunsEachTime`); `RunsBounded` says how often at most.

Where code and documentation differ, the code is modelled: `SSEData` drops a byte order mark at the start of every
frame. Section 9.2.6 of the WHATWG standard has a stream decoded as UTF-8, which drops one mark, at the start of the
stream. So for the first frame dropping it is what the standard asks; for any later frame it shows data the standard
does not dispatch exactly when a data field stands right behind the mark (`SseData.FrameDataIff`,
`SseData.MarkedFrame`, `SseStream.StreamEvents`).

## Model

| member | source | states |
|---|---|---|
| SseFramer.FeedSplit | harness/primitives/remote_sse.go:33-114 | feeding two pieces one after the other is feeding their concatenation, errors included |
| SseFramer.Framer.Append | harness/primitives/remote_sse.go:33-114 | the segment-at-a-time loop emits exactly the frames of the byte machine, ends in its state, and fails exactly when it fails |
| SseFramer.Framer.AppendFrameBytes | harness/primitives/remote_sse.go:129-137 | bytes are taken only while the frame's wire size stays within the maximum |
| SseFramer.Framer.TakeFrame | harness/primitives/remote_sse.go:139-150 | the frame taken starts at the emitted offset and advances it by what was emitted; strip mode drops the delimiter |
| SseFramer.Framer.AcceptTrailingLF | harness/primitives/remote_sse.go:36-71 | an LF after CR completes the ending: it joins the last frame, comes out alone, is swallowed, or overflows the size |
| SseFramer.Framer.Finish | harness/primitives/remote_sse.go:116-127 | strip mode drops an unfinished frame, pass-through mode releases it |
| SseChunks.StripChunking | harness/primitives/remote_sse.go:33-114 | in strip mode the frames, their offsets and the size error are the same for every cut into chunks |
| SseChunks.ChunkedMachine | harness/primitives/remote_sse.go:33-114 | in both modes the state a stream leaves behind, and whether it fails, are the same for every cut into chunks |
| SseChunks.DeliverConserves | harness/primitives/remote_sse.go:33-127 | at every moment emitted data and held data are the bytes fed, offsets are contiguous, no frame's wire size exceeds the maximum |
| SseChunks.PassThroughConservation | harness/primitives/remote_sse.go:33-150 | without error, the data of all frames with the finish is the input; each offset is the length emitted before |
| SseChunks.LateEndingsFit | harness/primitives/remote_sse.go:38-60 | an LF that reaches its CR in a later chunk and comes out alone still counts to the size of the frame it ends |
| SseGrammar.LinesRoundTrip | harness/primitives/remote_sse.go:73-112 | the lines of a stream with their CR, LF or CRLF endings and its unfinished rest are the stream again |
| SseGrammar.LinesShape | harness/primitives/remote_sse.go:73-112 | a line holds no line ending, and its ending is CR, LF or CRLF |
| SseGrammar.BlocksPartition | harness/primitives/remote_sse.go:90-108 | every ended line is in exactly one block or still open, in order |
| SseGrammar.BlocksEndBlank | harness/primitives/remote_sse.go:90-108 | a block is closed by a blank line and holds no other |
| SseGrammar.StripFollowsGrammar | harness/primitives/remote_sse.go:33-114 | from any line start, strip mode emits what the grammar prescribes for the rest of the stream |
| SseGrammar.StripEmitsBlocks | harness/primitives/remote_sse.go:33-127 | for every stream and every chunking, strip mode emits the blocks ended by a blank line minus their last delimiters, at contiguous offsets, and drops an unended last block |
| SseGrammar.TooLargeIff | harness/primitives/remote_sse.go:129-137 | over any blocks, the size error occurs exactly when some block, or the bytes behind the last, is longer than the maximum |
| SsePassThrough.ModesAgree | harness/primitives/remote_sse.go:33-137 | over any bytes both modes fail at the same byte, and know the same but for what was emitted |
| SsePassThrough.PassFollowsGrammar | harness/primitives/remote_sse.go:33-150 | over one chunk, from any line start, pass-through mode emits every ended block with its delimiters and holds the rest |
| SsePassThrough.PassThroughEmitsBlocks | harness/primitives/remote_sse.go:33-150 | for every stream and every chunking: the size error comes exactly when a block, or the bytes behind the last, is too large; without it the frames are the blocks with all their bytes, once each LF that came out alone is put back behind its CR |
| SseData.SSEData | harness/primitives/sse.go:7-23 | the loop returns what the data fields of the frame dispatch, or nothing without a data field |
| SseData.DataValueIff | harness/primitives/sse.go:11-15 | a line has a data value exactly if it is the field name alone, with the empty value, or the name, a colon and the value, less one space in front |
| SseData.FieldsOfBody | harness/primitives/sse.go:10-10 | splitting a frame at CR and LF gives back exactly the lines of its block |
| SseData.FrameData | harness/primitives/sse.go:7-23 | the frame of a block yields the data the lines of that block dispatch, once a byte order mark in front of the first is dropped |
| SseData.FrameDataIff | harness/primitives/sse.go:8-8 | it yields exactly the data the block dispatches if and only if the block does not open with a byte order mark and a data field right behind it |
| SseData.MarkedFrame | harness/primitives/sse.go:8-8 | a block that is one such line: the frame has data, the block dispatches none |
| SseData.DispatchedLast | harness/primitives/sse.go:11-22 | one more data line adds its value behind one newline, or starts the data if it is the first |
| SseData.DispatchedOther | harness/primitives/sse.go:12-14 | a line that is no data field changes nothing |
| SseStream.StripDelivers | harness/primitives/remote_sse.go:33-137 | for every stream and every chunking: the size error occurs exactly when a block, or the bytes behind the last, is longer than the maximum; without it the frames are exactly the blocks |
| SseStream.KthFrame | harness/primitives/sse.go:7-23 | the data read off the k-th frame is what the k-th block dispatches if and only if no byte order mark hides a data field there |
| SseStream.MarkDropped | harness/primitives/sse.go:8-8 | dropping the mark of the first frame is what decoding the stream as UTF-8 asks for |
| SseStream.StreamEvents | harness/llm/responsesapi/stream.go:80-90 | end to end, the data of all events read off the frames is what the standard dispatches for the stream, if and only if no frame but the first opens with a byte order mark and a data field behind it |
| Utf8.SegmentationsCoincide | harness/operation/output.go:39-56 | decoding runes backwards from the end gives the same segmentation as decoding forwards, for any bytes |
| Utf8.LastAgrees | harness/operation/output.go:42-46 | the last rune found backwards is the last rune found forwards |
| Utf8.StartIsBoundary | harness/operation/output.go:50-54 | a byte that is no continuation byte always starts a rune |
| Utf8Scalars.EncodeDecodes | harness/operation/output.go:58-60 | encoding a scalar value gives a well-formed sequence that decodes to it |
| Utf8Scalars.DecodeEncodes | harness/operation/output.go:58-60 | a well-formed sequence decodes to a scalar value whose encoding it is |
| Utf8Scalars.SanitizeWellFormed | harness/operation/output.go:58-60 | the sanitized text is well-formed UTF-8 with one code point for every rune |
| Utf8Scalars.SanitizeUnchangedIff | harness/operation/output.go:58-60 | sanitizing changes a text exactly when it is not well-formed |
| Utf8Scalars.MalformedByte | harness/operation/output.go:58-60 | a byte that starts no rune becomes U+FFFD |
| Output.OutputPart | harness/operation/output.go:39-56 | the loop keeps the first or last runes up to the limit and reports how many bytes they were |
| Output.BoundOutputParts | harness/operation/output.go:17-37 | a complete text within the limit is shown whole; otherwise head, marker and tail |
| Output.DecimalRoundTrip | harness/operation/output.go:31-31 | the number in the marker reads back as the number of bytes left out |
| Output.SignedReads | harness/operation/output.go:31-31 | the count reads back with its sign |
| Output.NegativeLimit | harness/operation/output.go:17-25 | a limit below zero shows of every text but an empty one its marker alone |
| Output.HeadIsRunes | harness/operation/output.go:49-55 | the head kept is exactly the first limit runes |
| Output.TailIsRunes | harness/operation/output.go:40-47 | the tail kept is exactly the last limit runes |
| Output.TruncationKeeps | harness/operation/output.go:29-36 | a text over the limit keeps limit/2 leading and limit-limit/2 trailing runes that do not overlap, and the marker counts the positive number of bytes between them |
| Output.MarkerReads | harness/operation/output.go:29-36 | what a reader sees of a text over the limit: its first and last runes, and between them dots, a numeral that reads as the number of bytes left out, where the rest is, and dots |
| Output.TextIs | harness/operation/output.go:30-36 | a text is shown as the codes of its characters |
| Output.ShortIsWhole | harness/operation/output.go:19-25 | a text within the limit is shown whole, in well-formed UTF-8 |
| OutputWindow.HeadWindow | harness/operation/shell.go:623-630 | the head of a text is decided by its first 4*n bytes |
| OutputWindow.TailWindow | harness/operation/shell.go:623-630 | the tail of a text is decided by its last 4*n bytes |
| OutputWindow.WindowedIsWhole | harness/operation/shell.go:406-434 | bounding the two windows kept of a long text gives what bounding the whole text gives |
| Primitives.StreamOpenFile | harness/primitives/file.go:99-190 | the chunks streamed are a prefix of the requested window in order, and exactly the last event completes the read; it is a completion with the size exactly if no round is interrupted, the file holds the window and keeps its size, closing works and no cancellation comes late; a failing close always ends in failure |
| Primitives.CreatePath | harness/primitives/file.go:231-257 | making a path is one event, which completes it: done with its kind, failed, or canceled |
| Primitives.RunProcess | harness/primitives/process.go:319-465 | in every ending of a process exactly the last event completes it; it is the exit exactly if the process was started, exited and everything around it closed without an error |
| Primitives.Compute | harness/primitives/compute.go:22-50 | a computation is one event, which completes it |
| ShellRun.HandleGood | harness/operation/shell.go:118-150 | every step of every run: the checkpoint emitted loads again, at most one primitive is asked for, its phase is a later one, and bounding never panics |
| ShellRun.SpecLoads | harness/operation/shell.go:88-116 | a specification is refused exactly where its state would not load, and what it lets through is sound and new |
| ShellPanics.PanicsIff | harness/operation/shell.go:152-164 | a state that loads panics over some run from its first step on, if and only if it is awaiting the last read of the second stream with an exit code recorded, and its first stream has no tail and a size other than its head's |
| ShellPanics.LoadedPanics | harness/operation/shell.go:152-164 | there is such a state for every operation ID that is a path component |
| ShellPanics.SoundCannotPanic | harness/operation/shell.go:118-150 | no checkpoint a step emits is such a state |
| ShellPanics.EventGuarded | harness/operation/shell.go:247-434 | a machine with no panic ahead handles or refuses every event, and still has none ahead |
| ShellReadBack.OneRead | harness/operation/shell.go:368-434 | a read delivered in any chunks is the window it asked for |
| ShellReadBack.RequestFacts | harness/operation/shell.go:342-366 | each read phase asks for the file of its own stream, from the start up to the read limit, or its last bytes |
| ShellReadBack.ReadsShowWhole | harness/operation/shell.go:368-458 | from any read phase, for any chunks, the operation completes with the bounding of the complete streams |
| ShellReadBack.ExitShowsWhole | harness/operation/shell.go:309-458 | a shell that exits, read over unchanged files by the paths of its requests, completes, and shows of both streams what bounding the whole files shows, for every limit from 1 to 1000000 |
| ShellReadBack.RestartShowsWhole | harness/operation/shell.go:194-210 | restarting from a checkpoint in a read phase that holds what was read so far ends in the same result |
| ShellReadBack.SavedReads | harness/operation/shell.go:368-434 | every checkpoint emitted while reading back is such a checkpoint, or holds the whole result |
| ShellReadBack.CrashShowsWhole | harness/operation/shell.go:194-210 | after an exit, any number of reads and a crash at any moment, a restart over unchanged files with any chunks of its own shows what bounding the whole files shows |
| ShellFiles.ProcessStep | harness/operation/shell.go:309-340 | a process that starts and exits leads to the first read, with its code recorded, or 128 more than its signal |
| ShellFiles.ReadDrive | harness/operation/shell.go:342-464 | from any read phase, however readers cut the files, what the files named hold is what the result shows |
| ShellFiles.ShellShowsOutput | harness/operation/shell.go:118-464 | a whole run: the directory and two different files are made, the program is run once as specified with its streams going to these files, and the result shows the bounding of stdout and of stderr, their sizes, the exit status and the two paths |
| ShellOnce.RunsBounded | harness/operation/shell.go:194-210 | over any restarts and crashes the command is run at most once for each start from a checkpoint saved before the process phase, and never from one saved in it or behind it |
| ShellOnce.RunsEachTime | harness/operation/local_manager.go:258-289 | the bound is met: an operation started anew each time runs its command each time |
| ShellEvents.SurvivesOnly | harness/operation/shell.go:247-434 | a shell survives no event but the one of its own primitive that its phase waits for, with the right kind, size, offset and count |
| ShellEvents.FailureTold | harness/operation/shell.go:247-284 | a primitive that fails ends the operation as failed with its own words, bounded; a canceled one ends it as canceled |
| ShellEvents.InterruptedTold | harness/operation/shell.go:194-204 | a restart in the process phase fails, and says whether the start had been recorded |
| ShellEvents.CancelingTold | harness/operation/shell.go:118-150 | a restart of an operation that was being canceled cancels it |
| ShellEvents.FirstRefusedIff | harness/operation/shell.go:118-150 | the first step is refused exactly to an operation that has ended, is not supported, or claims to be ready though it is not new |
| ShellActor.Actor.Load | harness/operation/shell.go:152-192 | a saved operation loads exactly when its type, version and limit are right, its state decodes, and paths, sizes and inline data are valid |
| ShellActor.Actor.HandleEvent | harness/operation/shell.go:118-150 | the object's fields and step become what the step function says, and a sound machine stays sound |
| ShellActor.Actor.HandleAwaiting | harness/operation/shell.go:247-284 | as the step function for an awaiting shell |
| ShellActor.Actor.ReadEvent | harness/operation/shell.go:368-404 | as the step function for an event of a read |
| ShellActor.Actor.ReadFinished | harness/operation/shell.go:406-434 | as the step function for a finished read |
| ShellActor.Actor.FinishShell | harness/operation/shell.go:436-464 | as the step function that bounds both streams; it is only called where bounding cannot panic |
| LocalManager.AwaitedPaced | harness/operation/shell.go:247-434 | whatever state it was loaded with, a shell starts at most one other primitive, of a later phase, and only when the last has completed; after a completion it starts one or ends |
| LocalManager.ShellSteps | harness/operation/local_manager.go:228-246 | a running shell takes every event of its primitive: no refusal, no panic, and a cancellation ends it |
| LocalManager.Manager.Add | harness/operation/local_manager.go:133-172 | an ID is accepted exactly if it was before or its state loads and takes a first step; a new one is placed by that step, with one update and at most one primitive; a refused one leaves no trace; a state that loads is let in whether it can panic or not, and one that cannot keeps the manager from panicking |
| LocalManager.Manager.AcceptLocalStep | harness/operation/local_manager.go:258-289 | a step's checkpoint is sent on, an ended operation is dropped, and the counter grows by the primitives started |
| LocalManager.Manager.OnPrimitiveEvent | harness/operation/local_manager.go:228-246 | the operation takes exactly the step of its machine, with its checkpoint as update and its primitive as start; the counter is what was started less what completed, failures and cancellations included; no operation has two primitives in flight; a canceled one stays canceled, starts nothing more and ends with its next completion; only a state loaded so panics |
| LocalManager.AllArrived | harness/operation/local_manager.go:228-254 | when all events of all primitives started have arrived, nothing is in flight and the counter is 0: the drain ends |
| LocalManager.Manage | harness/operation/local_manager.go:107-256 | over any work in any order: no update and no start is forgotten, what is canceled stays so and starts nothing more, and nothing panics unless a state that can panic is added |
| LocalManager.Manager.Cancel | harness/operation/local_manager.go:174-189 | cancellation marks the running operation and nothing else |
| LocalManager.Manager.SendUpdate | harness/operation/local_manager.go:121-131 | updates leave in the order they were made |
| LocalManager.Manager.DrainLocalPrimitives | harness/operation/local_manager.go:248-254 | the shutdown drain consumes exactly the completions still outstanding |
| ManagerUpdates.UpdatesTaken | harness/operation/local_manager.go:258-289 | every update the manager sends, in its order, is accepted by the store and gives no settled operation another state |
| ManagerUpdates.DispatchedStays | harness/coordinator/loop.go:878-927 | whatever else the session stores between two updates, what it knows of the operations dispatched stays |
| ManagerUpdates.NextUpdateEnabled | harness/coordinator/loop.go:131-147 | where all updates received are the first ones of a manager that accepted only what the run dispatched, its next update is one the loop may be woken by and the store accepts |
| SessionHistory.AcceptsIffLawful | harness/sessionstore/localfile/state.go:56-177 | the checks against the write state accept exactly what the history allows next |
| SessionHistory.SaveAcceptedIff | harness/sessionstore/localfile/state.go:265-284 | an update is accepted exactly if it is valid and the session has initialized an operation of its ID, type and version, and replaces that one only |
| SessionHistory.ApplyWellFormed | harness/sessionstore/localfile/state.go:179-222 | an accepted append keeps the history lawful and the write state a function of it |
| SessionHistory.InitializeMeaning | harness/sessionstore/localfile/state.go:171-176 | the operations of a first status take the next positions, each under its own ID |
| SessionHistory.ReferencesExact | harness/sessionstore/localfile/state.go:224-263 | a first status with an error waits for nothing and initializes nothing; any other waits for exactly the operations it initializes, each once |
| SessionHistory.TurnsChain | harness/sessionstore/localfile/state.go:68-93 | turn IDs are distinct, and every turn names the one before it |
| SessionHistory.ResponsesDistinct | harness/sessionstore/localfile/state.go:95-116 | no two responses of a history answer the same turn, across forks too |
| SessionHistory.BoundaryMeaning | harness/sessionstore/localfile/state.go:326-354 | a fork point exists exactly for the turns of the parent, and the chosen turn is the latest there |
| SessionHistory.BoundaryIsLast | harness/sessionstore/localfile/state.go:326-345 | no item of the turn is left behind the fork point unless a newer turn started before it |
| SessionHistory.InheritFollows | harness/sessionstore/localfile/state.go:388-412 | inheriting a lawful history gives the write state of that history, without operations or snapshots |
| SessionHistory.ForkWellFormed | harness/sessionstore/localfile/state.go:320-386 | a fork is the parent's items up to the boundary without snapshots, then the fork item; it owns nothing and continues the chosen turn |
| SessionState.FindBoundary | harness/sessionstore/localfile/state.go:326-345 | the scan finds the boundary |
| SessionHead.AppendInput | harness/sessionstore/localfile/state.go:56-66 | accepted or refused as the rules say; the struct counts one more item |
| SessionHead.AppendTurn | harness/sessionstore/localfile/state.go:68-93 | as the rules say, in place on the shared maps; a refused turn leaves them untouched |
| SessionHead.AppendResponse | harness/sessionstore/localfile/state.go:95-116 | as the rules say, in place on the shared maps; a refused response leaves them untouched |
| SessionHead.AppendStatus | harness/sessionstore/localfile/state.go:118-177 | as the rules say, in place on the shared maps and the operation slice; a refused status leaves them untouched |
| SessionHead.CheckInitializable | harness/sessionstore/localfile/state.go:141-161 | the loop accepts exactly valid operations with distinct, unused IDs |
| SessionHead.CheckReferences | harness/sessionstore/localfile/state.go:224-263 | the loop accepts exactly the references the rules allow |
| SessionHead.AppendSlot | harness/sessionstore/localfile/state.go:172-175 | appending reuses the shared array while it has room and moves to a new one otherwise; either way one operation more |
| SessionHead.SaveSlot | harness/sessionstore/localfile/state.go:265-284 | the saved operation overwrites its own slot only, and only with the same type and version |
| SessionLog.AppendDecodes | harness/sessionstore/localfile/codec.go:87-206 | the record of an accepted request makes the log decode to the state the request means |
| SessionLog.AppendAtomic | harness/sessionstore/localfile/codec.go:87-94 | after any proper prefix of a record the log decodes to the old state, after the whole record to the new one |
| SessionLog.TornTailIgnored | harness/sessionstore/localfile/codec.go:87-94 | bytes after the last newline are never seen |
| SessionLog.ShapedIff | harness/sessionstore/localfile/codec.go:96-175 | a log begins with the session, in format 2 with a valid ID and time; items are numbered from 1, have a time, and carry operations only if they are statuses |
| SessionLog.ReplayCounts | harness/sessionstore/localfile/codec.go:137-160 | a log that decodes numbers its items without a gap and indexes its operations |
| SessionCodec.SessionIDMeans | harness/sessionstore/localfile/store.go:470-481 | a session ID is made of ASCII letters, digits and hyphens, and is not empty |
| SessionLog.InitialDecodes | harness/sessionstore/localfile/codec.go:50-85 | a published initial log reads back as the items it was made of |
| SessionLog.ForkRoundTrip | harness/sessionstore/localfile/codec.go:177-205 | decoding the log a fork publishes gives the state the fork built, at any depth of forks |
| SessionReader.ScanRecords | harness/sessionstore/localfile/codec.go:96-175 | the first pass fails exactly on logs that are not well shaped, and finds the number of inherited items |
| SessionReader.ReplayRecords | harness/sessionstore/localfile/codec.go:177-205 | the second pass rebuilds the state in memory that the records mean, or fails |
| SessionReader.ReplayRecord | harness/sessionstore/localfile/codec.go:208-228 | one record is inherited or performed like an append |
| SessionReader.DecodeLog | harness/sessionstore/localfile/codec.go:87-206 | reading gives the decoded state and committed size in fresh memory, and fails exactly when decoding does |
| SessionReader.EncodeInitialLog | harness/sessionstore/localfile/codec.go:50-85 | the loop builds the initial log, and fails on a bad ID, a gap, a zero time or a record that does not encode |
| SessionReader.InheritItem | harness/sessionstore/localfile/state.go:388-412 | an inherited item changes the shared maps as inheriting means; a fork starts fresh ones |
| SessionReader.BuildFork | harness/sessionstore/localfile/state.go:320-364 | the fork built item by item is the fork the parent's items define |
| SessionResume.ResumesUnsettled | harness/sessionstore/localfile/state.go:286-318 | resuming returns exactly the operations that still run, and those whose last recorded snapshot says they did |
| SessionResume.ComputeResume | harness/sessionstore/localfile/state.go:286-318 | the two loops collect those operations and all external input IDs, in order |
| SessionResume.ForkResumesFresh | harness/sessionstore/localfile/state.go:286-318 | a fresh fork resumes with no operations and with the external inputs of what it inherited |
| SessionResume.ExternalIdsHas | harness/sessionstore/localfile/state.go:286-318 | the external input IDs resumed are those of the external inputs of the history, and no others |
| SessionStore.WrittenIsSound | harness/sessionstore/localfile/store.go:413-433 | however an append ends, the file decodes to the old state or the new one; a reported success means the new one |
| SessionStore.TornForgotten | harness/sessionstore/localfile/store.go:413-433 | after a torn append the next successful one leaves the log as if the torn bytes had never been; an append that got all its bytes out counts even if reported as failed |
| SessionStore.Store.ReadState | harness/sessionstore/localfile/store.go:274-300 | no file the store produced ever fails to decode or names another session |
| SessionStore.Store.LoadWriteState | harness/sessionstore/localfile/store.go:302-321 | the write state handed out is what the file decodes to, cached or not |
| SessionStore.Store.Mutate | harness/sessionstore/localfile/store.go:122-229 | a request changes only the shared parts of its own session, and a refused one changes nothing |
| SessionStore.Store.WriteRecord | harness/sessionstore/localfile/store.go:336-354 | the record is written as far as the fault lets it, and the cache keeps the head only on success |
| SessionStore.Store.Append | harness/sessionstore/localfile/store.go:122-229 | refused requests change neither file nor cache; accepted ones write exactly their record; every cached head stays what its file decodes to |
| SessionStore.Store.Publish | harness/sessionstore/localfile/store.go:323-334 | a new log replaces the old one unless the rename did not happen, and is cached only if that is known |
| SessionStore.Store.Create | harness/sessionstore/localfile/store.go:71-84 | creating gives an empty session, replacing one of the same ID |
| SessionStore.Store.Fork | harness/sessionstore/localfile/store.go:239-264 | forking publishes the child of the parent's file and leaves every other session alone |
| SessionStore.Store.Items | harness/sessionstore/localfile/store.go:94-120 | a page is the next items up to the limit, with the position after them and whether more follow |
| SessionStore.Store.Resume | harness/sessionstore/localfile/store.go:231-237 | resuming reads the file and returns what its state resumes with |
| ContextBuilder.OnePlaceholder | harness/contextbuilder/builder.go:103-123 | after a tool result at most the last staged item is the call's placeholder; other calls' placeholders and the committed prefix stay |
| ContextBuilder.PlaceholderReplaced | harness/contextbuilder/builder.go:112-118 | only the placeholders of the call are deleted, and the rest keeps its order |
| ContextBuilder.Builder.AddToolResult | harness/contextbuilder/builder.go:103-123 | the deletion loop and the append give the staged suffix that is meant |
| ContextBuilder.Builder.Build | harness/contextbuilder/builder.go:130-137 | a request is the committed prefix and the staged suffix |
| ContextBuilder.Builder.CommitStaged | harness/contextbuilder/builder.go:125-128 | committing moves the staged suffix behind the committed prefix, so that what was built is what is committed |
| LocalCounts.StatusCounts | harness/coordinator/loop.go:680-754 | a status makes one input available exactly when it settles its call with a final result, and otherwise leaves the call open with a placeholder or untouched |
| LocalCounts.InputsConserved | harness/coordinator/loop.go:541-641 | available inputs are external inputs, heartbeats and settled calls; delivered <= current-turn inputs <= available, in every replayed state |
| LocalCounts.SettledOnce | harness/coordinator/loop.go:680-754 | over any lawful history no call is settled twice, and a settled call is never open again |
| LocalCounts.AnswerDelivers | harness/coordinator/loop.go:589-618 | the answer to the current turn delivers exactly what was available when the turn started |
| LocalHistory.StatusCore | harness/coordinator/loop.go:659-754 | a status with snapshots of all it waits for has the same effect whatever operations were known before |
| LocalHistory.GoodAppend | harness/coordinator/loop.go:541-618 | storing an input, a turn or a response moves live state and replayed state together |
| LocalHistory.GoodStatus | harness/coordinator/loop.go:780-867 | storing a first or repeated status moves live state and replayed state together |
| LocalHistory.GoodSave | harness/coordinator/loop.go:478-484 | a saved update keeps the session good exactly when it gives no settled operation another state |
| LocalHistory.SaveRestores | harness/coordinator/loop.go:478-494 | a restart after a saved update has the live state exactly when the update is harmless in that sense or sets the operation running |
| HarmfulUpdate.HarmfulExists | harness/coordinator/loop.go:478-494 | a good session with a settled call, and an update of its completed operation that the store accepts and a restart does not see |
| LocalHistory.GoodNew | harness/coordinator/loop.go:486-494 | a new session is good, and live as a new coordinator |
| LocalHistory.AnswerIsCurrent | harness/coordinator/loop.go:589-618 | every response a good history holds, own or inherited, answers the turn that was the latest when it was stored |
| LocalHistory.RestoreIsLive | harness/coordinator/loop.go:486-521 | folding the history and overlaying the resumed operations rebuilds exactly the live context, counters, turn, calls and operations |
| LocalHistory.OverlayAt | harness/coordinator/loop.go:490-492 | the overlay gives every operation its last saved state |
| LocalFork.StripFold | harness/coordinator/loop.go:523-555 | folding an inherited history without snapshots succeeds where folding the original did, and keeps its open calls |
| LocalFork.ForkGood | harness/coordinator/loop.go:541-556 | a fork of a good session at any turn can be restored, with no open call and no operation, in the chosen turn |
| LocalFork.FoldTurn | harness/coordinator/loop.go:589-600 | the current turn is the last turn of the history |
| Recovery.StepsAgree | harness/coordinator/loop.go:346-370 | every append the coordinator proposes takes store and local state the same step |
| Recovery.CrashRecovers | harness/sessionstore/localfile/store.go:413-433 | a coordinator restarted after a crash at any byte of an append has the state before it or after it |
| CoordinatorState.LoopState.AddItemToLocalState | harness/coordinator/loop.go:541-641 | the fields take the step the item means, and fail exactly when it does; the grace set stays within the open calls |
| CoordinatorState.LoopState.AddToolResultToLocalState | harness/coordinator/loop.go:710-754 | as the result of a status means |
| CoordinatorState.LoopState.FinishToolCall | harness/coordinator/loop.go:680-691 | a finished call is no longer open or waited for, and counts as one input |
| CoordinatorState.LoopState.AddToolCalls | harness/coordinator/loop.go:643-657 | every tool call of a response is open, the last of equal IDs winning |
| CoordinatorState.LoopState.Lookup | harness/coordinator/loop.go:729-739 | the operations a status waits for are found in order, or not all known |
| Translation.Submit | harness/coordinator/loop.go:816-828 | submitted operations are ready, valid, and under names never used |
| Translation.TranslateCall | harness/coordinator/loop.go:780-802 | a call whose tool is missing gets the error that says so, a refused one the refusal, neither with operations; a planned one waits without error for exactly the operations the tool specified, in order, each ready with the kind, version, limit, state and idempotency specified |
| Translation.ResponsePlanned | harness/coordinator/loop.go:643-657 | where every earlier call has a status, the calls to plan are the last ones of each ID of the response |
| Coordinator.Coordinator.Open | cmd/internal/agentrunner/run.go:601-604 | a coordinator opened on a stored session gets an inbox that counts as seen exactly the external inputs the session has taken, and nothing is asked or stored yet |
| Coordinator.Coordinator.ScheduleToolCall | harness/coordinator/loop.go:780-814 | the status of a new call is what its tool plans, and is stored and accepted; an error settles the call, started operations keep it open |
| Coordinator.Coordinator.ScheduleToolCalls | harness/coordinator/loop.go:763-778 | exactly the calls without a status get one, one each, as their tools plan; those settled at once are no longer open |
| Coordinator.Coordinator.ReconcileToolCalls | harness/coordinator/loop.go:830-867 | afterwards no open call has all its operations ended, and nothing else about open calls changed |
| Coordinator.Coordinator.SettleToolCall | harness/coordinator/loop.go:830-867 | a call whose operations have ended is settled, and what is shown for it is what its tool makes of their last states, in the order they were waited for |
| Coordinator.Coordinator.HandleOperationUpdate | harness/coordinator/loop.go:478-484 | an update of an unknown operation or of another kind fails and changes nothing stored; any other is saved and adds no item, and unless it gives a settled operation another state, session and live state stay in step |
| Coordinator.Coordinator.DispatchedHarmless | harness/coordinator/loop.go:478-484 | an update of an operation the run dispatched and has not heard the end of gives no settled operation another state |
| Coordinator.Coordinator.HandleInboxInput | harness/coordinator/loop.go:390-415 | an input in hand becomes the next item before it has effects; since the inbox let it out it is in the history once; a hard stop stays accepted, a softer one gives way; settings leave a grace period as it is, all other inputs end it; an external one is something to answer |
| Coordinator.Coordinator.HandleInboxInputs | harness/coordinator/loop.go:417-427 | inputs become items one by one; the model is to be asked exactly if it was already or one of them is external |
| Coordinator.Coordinator.AcceptStop | harness/coordinator/loop.go:313-318 | a hard stop is never replaced; a softer one gives way |
| Coordinator.StopAfterIs | harness/coordinator/loop.go:313-318 | over any inputs the first hard stop counts and stays; without one the latest request to stop when idle does |
| Coordinator.Coordinator.RequestModelResponse | harness/coordinator/loop.go:346-388 | the turn extends the session's latest turn and is stored before the model is asked, with the whole context; it never happens after a hard stop, nor with nothing to answer |
| Coordinator.Coordinator.HandleModelResponse | harness/coordinator/loop.go:453-476 | only the response to the latest request is recorded, and joins the context right behind that request |
| Coordinator.Coordinator.DispatchOperationToManager | harness/coordinator/loop.go:952-962 | only operations whose status is stored reach the manager, and none after a hard stop |
| Coordinator.Coordinator.ProcessModelResponse | harness/coordinator/loop.go:225-254 | the response is recorded behind its request; each of its calls gets the status its tool plans, and exactly the operations of these statuses are dispatched, in order; the model is asked at once exactly if some call is settled already, else a grace period opens over all calls |
| Coordinator.Coordinator.CancelOperations | harness/coordinator/loop.go:333-344 | cancellation is asked for of every operation that still runs, whatever becomes of the others |
| Coordinator.Coordinator.HandleStop | harness/coordinator/loop.go:261-270 | after a hard stop nothing is in flight, everything that runs has been canceled, once, and the loop ends only when no operation runs |
| Coordinator.Coordinator.LoadHistory | harness/coordinator/loop.go:496-521 | paging with any page size gives the fold over the whole history |
| Coordinator.Coordinator.Restore | harness/coordinator/loop.go:486-494 | restoring a good session succeeds and gives the live state |
| Coordinator.Coordinator.TakeUp | harness/coordinator/loop.go:90-108 | from any good session calls get their statuses, finished ones are settled, and every operation that runs is dispatched again |
| Coordinator.Coordinator.Begin | harness/coordinator/loop.go:86-116 | from any good session, at the first blocking point everything that runs has been dispatched and no wakeup is lost |
| Coordinator.Coordinator.TakeInput | harness/coordinator/loop.go:131-137 | an input taken from the inbox is in hand; stored inputs and those in hand stay what the inbox let out, in order, control inputs included |
| Coordinator.Coordinator.SlurpInputs | harness/coordinator/loop.go:429-451 | inputs are taken together up to the limit, in order, whatever arrives meanwhile, and none that left the inbox is dropped |
| Coordinator.Coordinator.PostHeartbeat | harness/coordinator/loop.go:282-304 | a heartbeat is submitted to the inbox as a control input under a new ID |
| Coordinator.Coordinator.ProcessEvents | harness/coordinator/loop.go:190-210 | the decision to call the model is taken on the settled state, in which no open call has all its operations ended |
| Coordinator.Coordinator.EndTurn | harness/coordinator/loop.go:166-186 | with a hard stop nothing is asked or stored and everything that runs is canceled; otherwise the model is asked exactly if it has to be, and the loop ends only when idle |
| Coordinator.Coordinator.TurnOnce | harness/coordinator/loop.go:119-187 | from one blocking point to the next: no wakeup lost, stale replies ignored, an external input answered in the same turn, unless a hard stop is in force, by a request that shows all stored before it; history and acts only continued, and told however the turn ends; a when-idle exit exactly when nothing is undelivered, open or running |
| Coordinator.Coordinator.NeverStuck | harness/coordinator/loop.go:119-165 | where the loop blocks without a hard stop, an answer, the end of a grace period or a heartbeat will wake it, unless nothing is left to do |
| Coordinator.Coordinator.Run | harness/coordinator/loop.go:86-188 | for any number of turns, any events and any failures: the session left behind is good and has only grown, the state at every blocking point is the replayed one, and the acts of the run are told to its end |
| Coordinator.RunOnce | harness/coordinator/loop.go:86-188 | the acts of another run over a session continue those of the runs before it: every request extends all earlier ones |
| Coordinator.RunAgain | harness/coordinator/loop.go:86-188 | over any runs, restarts and forks the history at hand can be restored and holds no external input ID twice, the first session's history only grows, and the acts since the last fork are one sequence of requests that extend each other, each stored as a turn of the history and showing what the history before it says |
| CoordinatorSteps.NextTurn | harness/coordinator/loop.go:355-359 | the turn proposed is always one the store accepts |
| CoordinatorSteps.LatestFacts | harness/coordinator/loop.go:842-845 | a repeated status carries the saved state of exactly the operations it waits for |
| CoordinatorSteps.RepeatSettles | harness/coordinator/loop.go:830-866 | a repeated status whose operations have all ended settles its call |
| CoordinatorSteps.FirstSettles | harness/coordinator/loop.go:869-876 | an error status settles its call at once, started operations never do |
| CoordinatorSteps.DispatchesExactly | harness/coordinator/loop.go:241-247 | what is dispatched after a response is operations of its statuses that still run, and nothing else |
| CoordinatorSteps.ReadyDispatched | harness/coordinator/loop.go:241-247 | the operations of a planned call are all dispatched, in the order its status waits for them |
| CoordinatorSteps.LiveGrows | harness/coordinator/loop.go:541-641 | no item takes back anything committed to the model's context |
| Requests.InputContent | harness/coordinator/loop.go:557-588 | an external input shows its text to the model, a heartbeat what it says, as the user, and no other input anything |
| Requests.SettlesIff | harness/coordinator/loop.go:710-754 | a status settles its open call exactly if all the call waits for has ended, or it has no tool and needs none |
| Requests.ResultShown | harness/coordinator/loop.go:722-749 | the last item staged by a status that settles a call: what its tool makes of the latest states of the operations waited for, in order, or its error without a tool |
| Requests.StatusContent | harness/coordinator/loop.go:710-754 | a status shows the result of the call it settles, and takes nothing away but placeholders |
| Requests.EffortFollows | harness/contextbuilder/builder.go:67-72 | settings take effect when they come, and stay until the next |
| Requests.RestoreRefusedIff | harness/coordinator/loop.go:523-540 | a history cannot be restored over an invalid input or one without text, a status of an open call whose tool is gone, and one its tool makes nothing of; over anything else it can |
| Requests.ContentKept | harness/coordinator/loop.go:541-641 | what would be shown at one point of a history would be shown, as often, at any later one |
| Requests.RequestShows | harness/coordinator/loop.go:346-388 | a request shows the text of every external input stored before its turn, what every heartbeat said, and the result of every call that was settled, unless that reads like the placeholder of a running one |
| Requests.SystemFirst | harness/contextbuilder/builder.go:78-86 | every request begins with the system prompt |
| Trace.RequestsExtend | harness/contextbuilder/builder.go:88-137 | every request is a prefix of every later request, and so is every recorded exchange |
| Trace.ResponseFollowsRequest | harness/coordinator/loop.go:597-618 | a recorded response sits in every later request immediately after the input it answers |
| Trace.StopIsFinal | harness/coordinator/loop.go:166-175 | after a hard stop there is no request, no recorded response and no dispatch, only cancellation |
| Trace.RunsJoin | harness/contextbuilder/builder.go:88-137 | acts that start from what earlier ones committed continue them: requests still extend each other and responses still answer the latest |
| Trace.ToldActs | harness/coordinator/loop.go:346-388 | an act within what is committed, that answers the latest request and does not follow a hard stop, keeps the trace told |
| Trace.QuietMeans | harness/coordinator/loop.go:166-175 | no turn and no response is stored behind a hard stop the run has stored |
| Sessions.Sessions.Append | harness/coordinator/loop.go:878-927 | an append is only made when the session accepts it, and is kept or lost whole |
| Sessions.Sessions.Save | harness/coordinator/loop.go:929-941 | an update the session does not accept is refused and changes nothing; any other is kept or lost whole |
| Sessions.Sessions.Items | harness/sessionstore/localfile/store.go:94-120 | a page is the next items up to the limit |
| Inbox.ArrivalsOnce | harness/inbox/local.go:59-87 | what comes out has no ID twice, none seen before, and every new ID that went in |
| Inbox.ArrivalsExtend | harness/inbox/local.go:59-87 | what was let out is never revised by later arrivals |
| Inbox.Inbox.New | harness/inbox/local.go:16-31 | the IDs of a resumed session count as seen, and an empty one is refused |
| Inbox.Inbox.Submit | harness/inbox/local.go:33-53 | invalid inputs are refused, duplicates dropped, others queued |
| Inbox.Inbox.Take | harness/inbox/local.go:79-81 | inputs leave in the order of their first arrival |
| Inbox.ExternalDistinct | harness/inbox/local.go:59-87 | external IDs of distinct inputs, behind IDs none of them has, hold none twice |
| Inbox.Inbox.DeliveredOnce | harness/inbox/local.go:59-87 | no input is delivered twice, nor one the resumed history already holds; the resumed IDs and the external ones delivered hold none twice |

## Left out

- SessionStore.Store.Append: the five append methods and `SaveOperation` are one method over the request, because they differ only in the mutation they call.
- SessionHead.AppendSlot: how much room a grown array gets is left open, as Go leaves it.
- SessionStore.Store.Create: loss of unsynced data by the operating system is not modelled; what was written stays written.
- LocalManager.Manager.Add: only shell operations run in the model; value, skill-use, image and remote-job operations repeat the pattern with easier machines.
- LocalManager.Manager.OnPrimitiveEvent: running operations are values in the map, not pointers to objects; `ShellActor.Actor` is the object. A panic is an outcome; what becomes of the process is not modelled. The record of what was started and sent is part of the object.
- Coordinator.Coordinator.HandleOperationUpdate: an update that gives a settled operation another state breaks the agreement of live and restored state, so nothing is promised about the session after it; `LocalHistory.SaveRestores` has the exact condition, and `Enabled` lets the loop be woken by all other updates.
- Coordinator.RunAgain: a fork is made with the function the store is proved against, not through the store object.
- Coordinator.Coordinator.Run: the loop runs for a given number of turns, any number, instead of for ever; timers, channels and goroutines are nondeterministic events.
- Coordinator.Coordinator.HandleModelResponse: the guard for responses to compaction turns is proved not to apply, since this loop asks in regular turns only; replay of such turns is modelled.
- Pending-input accounting and unanswered calls at a fork: the source marks them as unfinished, and the model only states that calls, operations and grace are cleared.
- The five maps of a write state are one object; each is still shared by all copies of the struct.
- Integers are unbounded: 64-bit sizes and sequence numbers do not overflow here.
- JSON syntax, the shape of encoded records and unknown members: replaced by a partial encoding with a partial inverse.
- Paths: one file for each valid session ID; joining and cleaning of paths is not modelled.
- Interpolated texts of most errors: an error is an error, except for the texts a shell shows as its result.
- Observers, `ListSessions` and `Inspect`: notification and listing around the modelled state.
- The system prompt, tool definitions and model parameters of a request other than its input and reasoning effort.
- Heartbeat timing: a heartbeat is an event that may come while only calls are waited for; its submission comes back as an input.
- Process control, signals and sync variants: what a primitive sends is modelled, not how it comes to it.
- ShellFiles.ShellShowsOutput: the files are a map, a process writes its streams whole, parent directories and permissions are there; a primitive may fail for reasons of its own.
- HTTP, provider adapters, retries, terminal interface, configuration, login, MetaCog, image scaling and benchmarks.
