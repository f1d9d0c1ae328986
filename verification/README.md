# Verified models of the codex workspace

Dafny models of the stateful parts of the codex repository, with proofs about whole runs of them.

- **Analytics reducer** (`AnalyticsTypes`, `Reducer`, `AnalyticsReducer`, `ReducerContext`, `ReducerTurns`,
  `ReducerJoin`, `ReducerRequests`, `ReducerReviews`, `ReducerEvents`). The reducer joins facts that arrive in any order into turn,
  tool-item, review and steer events. `Reducer` says what each fact does to the seven maps and which events it emits;
  `AnalyticsReducer` is the object that updates the maps in place, proved equal to it fact by fact and over whole
  runs; the other modules prove properties of every run. `ReducerEvents` says, for every run, which event the next fact
  emits and everything it carries, in terms of the history of the facts alone.
- **In-process event forwarder** (`Forwarder`). A worker feeds a bounded channel with a lossless and a best-effort
  tier; the consumer is an arbitrary schedule of receives and an optional close.
- **Remote app-server client** (`RemoteWorker`). The handshake, the worker that multiplexes commands and JSON-RPC
  frames, the drain on exit and the event queue of the caller.
- **Daemon lifecycle and updater** (`Daemon`). Processes that interleave one atomic action at a time on a
  non-blocking lock, a settings file, a pid-managed backend and the control socket, with crashes and failures.
- **Smaller pieces**: the unified-diff summariser (`DiffSummary`), the LSP framing of the Lean client (`LspFraming`),
  the lint wrapper's argument normaliser (`LintArgs`), the bounded dedupe sets and the upload batching
  (`EventQueue`), the UTF-8-safe truncation (`Subreason`, on `Utf8`).

The pattern throughout: a step function on values is the specification, the source's imperative code is a class or a
method with the same branches proved equal to it, and the properties are lemmas over every sequence of steps.

Properties that do not hold of the code as it is, with the exact condition under which they do:

- the contents of a turn event do not depend on the order of its four facts if and only if request and config agree
  on the thread and the image count (`ReducerJoin.OrderIrrelevantIff`);
- lag markers account for every drop of every run of `n` events if and only if `n` is at most the counter's limit plus
  the channel's capacity (`Forwarder.LagMarkersAccountForEveryDrop`);
- whenever the daemon's lock is free a running managed backend has the saved setting, if and only if no process fails
  while the running backend has the other one (`Daemon.BackendMatchesSetting`); from a quiet state a failure of an
  operation can bring that about if and only if a managed backend runs and the operation is to save the other setting
  (`Daemon.FailureBreaksIff`);
- beside an unmanaged server no operation gets past its guard if and only if no check is made while a concurrent
  `version` command holds the pid reservation lock and no probe at a guard is left unanswered
  (`Daemon.UnmanagedServerIsLeftAlone`); past it, a restart, a bootstrap, the combined command and a remote-control
  change to the other setting can be misled by either into saving a setting or starting a backend, an update only by
  the former, a start only by the latter, and no other operation (`Daemon.MisledTouchesIff`);
- normalising lint arguments twice is the same as once if and only if the default manifest path is not `--` or is not
  used (`LintArgs.NormalizingIsIdempotent`);
- the lines recorded for a diff are under their own files' paths if and only if no file with added lines has a name
  that git quotes or a path that ends in white space (`DiffSummary.OwnPathsIff`).

Check the project with `dafny verify dfyconfig.toml`.

## Model

| member | source | states |
|---|---|---|
| ReducerJoin.FedTurnEmitsOnce | codex-rs/analytics/src/reducer.rs:606-642 | from a state with the connection, the thread metadata and the pending start request, any interleaving of start response, config, profile and completion with facts about other turns and with the turn's own start time, diffs, token counts, errors, items and steers emits exactly one turn event, with the last of the four; client, images, config, profile and end do not depend on the side facts, the thread is the one named last, start time, usage and error are the latest; without side facts the whole event is fixed |
| ReducerJoin.OrderIrrelevantIff | codex-rs/analytics/src/reducer.rs:793-808 | all orders give the same event if and only if request and config agree on thread and image count |
| ReducerJoin.PutFed | codex-rs/analytics/src/reducer.rs:1435-1487 | putting a part in place emits and forgets the turn exactly when all four are there, else keeps them |
| ReducerTurns.EmissionsConsumeParts | codex-rs/analytics/src/reducer.rs:1435-1487 | in every run the turn events for an id never outnumber the matched start responses, configs, profiles or completions for it, and a part still stored has not been used |
| ReducerTurns.LiveTurnCounts | codex-rs/analytics/src/reducer.rs:356-378 | for every live turn each of the seven tool counts is the number of tracked items of its kind completed since the state was created, the total is that of all kinds and their sum and is at least the tool-item events emitted in that period, the steer count is the accepted steers, and the diff is the last one noted |
| ReducerTurns.TurnEventReportsCounts | codex-rs/analytics/src/reducer.rs:1435-1487 | after every run, a fact that emits a turn event or an accepted-lines event emits exactly one turn event, first, with exactly those counts, and then the lines of the last diff noted for the turn in that period, if it has any |
| ReducerTurns.AcceptedLinesOfPatches | codex-rs/analytics/src/reducer.rs:2352-2380 | after every run, when the last diff noted for an emitted turn is any list of patches as git writes them, exactly their added and deleted lines are reported behind its event, and nothing when there are none |
| ReducerTurns.ItemEventsBounded | codex-rs/analytics/src/reducer.rs:1076-1143 | tool-item events for a key, plus one while a start is stored, never outnumber its started notifications; `ReducerEvents.ToolItemReportedIff` says exactly when one is emitted |
| ReducerTurns.StepCounts | codex-rs/analytics/src/reducer.rs:1093-1111 | one fact records its item in the counts exactly when it completes a tracked item of a live turn, adds one to the steer count exactly when it accepts a steer naming the turn, and replaces the diff exactly when it notes one for it |
| ReducerTurns.RecordCounts | codex-rs/analytics/src/reducer.rs:356-378 | recording an item adds one to the total when it is tracked, and to exactly the count of its own kind |
| ReducerReviews.SummaryIsHistory | codex-rs/analytics/src/reducer.rs:1416-1433 | the summary kept for an item is the summary of exactly the reviews finished for it since its last clearing completion |
| ReducerReviews.ToolItemEventCarriesReviews | codex-rs/analytics/src/reducer.rs:1951-1989 | every tool-item event carries the number of guardian and user reviews of that history, their sum, the outcome of the latest, the OR of the flags, and clears the history |
| ReducerReviews.ReviewsDoNotLeak | codex-rs/analytics/src/reducer.rs:1572-1583 | only reviews of the item's own thread, turn and item count for it, none about permissions or network access |
| ReducerReviews.ApprovalsAreOpen | codex-rs/analytics/src/reducer.rs:819-933 | the reducer keeps under each request id exactly the last undecided approval request |
| ReducerReviews.ReviewsWithinApprovals | codex-rs/analytics/src/reducer.rs:935-1018 | user review events per request id, plus one when an approval is open, never outnumber the approval requests |
| ReducerReviews.LateDecisionIsIgnored | codex-rs/analytics/src/reducer.rs:1001-1018 | after an answer or an abort, a late answer changes and emits nothing until a new approval request |
| ReducerReviews.LastReviewDecides | codex-rs/analytics/src/reducer.rs:1999-2191 | a fact that finishes a review of an item makes its own outcome the item's: approved, for the session, denied or aborted as the person's answer permits or refuses, and as the guardian's status says, a timeout being an abort |
| ReducerReviews.FinishedIsConsistent | codex-rs/analytics/src/reducer.rs:2078-2164 | every review that any run finishes carries the id it was asked under, and its trigger follows from the access it asks for and its name from its subject, whoever reviewed it |
| ReducerRequests.RequestsAreOpen | codex-rs/analytics/src/reducer.rs:575-604 | the reducer stores under each connection and id exactly the last unanswered request |
| ReducerRequests.SteersWithinRequests | codex-rs/analytics/src/reducer.rs:1302-1325 | steer events per connection and id, plus one when a steer is stored, never outnumber the steer requests |
| ReducerRequests.SteerCarriesRequest | codex-rs/analytics/src/reducer.rs:1327-1366 | every steer event comes from an answer and carries the open request of the key it names |
| ReducerRequests.LateAnswerIsIgnored | codex-rs/analytics/src/reducer.rs:1020-1051 | after a response or an error, a late answer changes and emits nothing until a new request |
| ReducerContext.LookupFailsOnlyForUnattachedThreads | codex-rs/analytics/src/reducer.rs:1489-1525 | in every reachable state a thread lookup fails exactly when the thread is unknown or unattached, a metadata lookup exactly when it is unknown |
| ReducerContext.ReplayKeepsContexts | codex-rs/analytics/src/reducer.rs:1187-1236 | every run keeps: each known thread has metadata and any connection it names is initialised |
| ReducerContext.ChainInheritsConnection | codex-rs/analytics/src/reducer.rs:524-550 | a chain of newly spawned subagents of any length inherits the attached root's connection, whatever happens in between |
| ReducerContext.ThreadsAreHistory | codex-rs/analytics/src/reducer.rs:1187-1236 | after every run a thread's connection and metadata are those of its last opening on an initialised connection, or else of its first spawn, with the parent's connection at that time |
| ReducerContext.ContextIsHistory | codex-rs/analytics/src/reducer.rs:1489-1525 | after every run the context found for a thread is the client of that connection and that metadata, and it is found exactly for attached threads |
| ReducerEvents.ToolItemReportedIff | codex-rs/analytics/src/reducer.rs:1076-1143 | after every run a completed item is reported exactly when it is tracked, its turn is live, its time is not negative, a start of it is unused, its thread is attached and it is not in progress, by one event with that start, its completion time, duration, terminal status, client, metadata and review history |
| ReducerEvents.StartsAreOpen | codex-rs/analytics/src/reducer.rs:1076-1111 | the reducer keeps for each item exactly its last start that no completion has taken |
| ReducerEvents.ReviewReportedIff | codex-rs/analytics/src/reducer.rs:1368-1414 | after every run an answer, an abort or a guardian's notice emits one review event exactly when it finishes a review in an attached thread, with the open approval or the guardian's review, reviewer, verdict, times, client and metadata |
| ReducerEvents.SteerReportedIff | codex-rs/analytics/src/reducer.rs:1327-1366 | after every run an answer to a steer emits one steer event exactly when a steer request is open under its key, its connection is initialised and its thread known, with the request, client, metadata and the accepting turn or the rejection |
| ReducerEvents.ThreadReported | codex-rs/analytics/src/reducer.rs:1187-1258 | after every run an opening on an initialised connection, a spawn, and a compaction or a guardian's review in an attached thread emit exactly one event with these contents; openings, compactions and reviews elsewhere emit none |
| AnalyticsReducer.AnalyticsReducer.Ingest | codex-rs/analytics/src/reducer.rs:381-497 | one fact changes the maps and pushes the events as the specification of the fact says |
| AnalyticsReducer.AnalyticsReducer.IngestAll | codex-rs/analytics/src/client.rs:64-70 | the worker loop over any facts reaches the state and emits the events of the run the lemmas are about |
| Forwarder.LagMarkersAccountForEveryDrop | codex-rs/app-server-client/src/lib.rs:207-273 | expanding the markers and the pending count gives the inputs with drops replaced by gaps, in order, for all input sequences of length n and all schedules, if and only if n is at most the counter's limit plus the channel capacity |
| Forwarder.ShortRunsAreCounted | codex-rs/app-server-client/src/lib.rs:222-262 | queued entries and pending drops never outnumber the events read, so no drop is missed within that bound |
| Forwarder.LosslessTierIsDelivered | codex-rs/app-server-client/src/lib.rs:151-273 | while the stream is enabled every must-deliver event is in the channel's history exactly once |
| Forwarder.RequestsAnsweredOnce | codex-rs/app-server-client/src/lib.rs:551-597 | up to the step that disables the stream every server request is forwarded once or rejected once, never both; the request at which the consumer is gone is neither |
| Forwarder.AnswersAreForTheirRequests | codex-rs/app-server-client/src/lib.rs:551-597 | over every run each rejection names a server request that was read at its position and carries -32000 for an authentication refresh and -32001 for any other, and each forwarded entry is the event read at its position |
| Forwarder.LossesAreJustified | codex-rs/app-server-client/src/lib.rs:207-273 | over every run an event is dropped only beside a full open channel, and given up only on a closed one, which alone disables the stream |
| Forwarder.ChannelStaysBounded | codex-rs/app-server-client/src/lib.rs:499-600 | over every run the channel holds at most its capacity, and each marker announces at least one and at most the counter's limit of drops |
| Forwarder.InProcessWorker.ForwardInProcessEvent | codex-rs/app-server-client/src/lib.rs:207-273 | marker first, blocking or not by tier, drop counts and rejects, closed channel disables, exactly as specified |
| Forwarder.InProcessWorker.HandleRuntimeEvent | codex-rs/app-server-client/src/lib.rs:551-597 | refuses authentication refreshes, forwards the rest and stops reading once disabled |
| Forwarder.InProcessWorker.ServeEvents | codex-rs/app-server-client/src/lib.rs:499-600 | the worker loop on any runtime events reaches the state of the run the lemmas are about |
| RemoteWorker.EveryCommandAnsweredOnce | codex-rs/app-server-client/src/remote.rs:208-253 | over every run each command read is answered exactly once, except requests still pending; after exit nothing is pending |
| RemoteWorker.PendingIsAcceptedUnanswered | codex-rs/app-server-client/src/remote.rs:209-325 | while the worker runs the pending map is exactly the accepted and unanswered ids with their first waiter |
| RemoteWorker.RequestGetsItsAnswer | codex-rs/app-server-client/src/remote.rs:312-325 | a waiting request is told exactly its first settling input: the result or error with its id, or the exit reason |
| RemoteWorker.DuplicateIsRefused | codex-rs/app-server-client/src/remote.rs:220-230 | over every run a duplicate of a pending id is told so and nothing else ever, the worker goes on as if it had not come, nothing is written for it, and the first waiter is told what settles the id afterwards |
| RemoteWorker.KeptIffRunning | codex-rs/app-server-client/src/remote.rs:208-458 | the inputs before the stopping one are exactly the prefixes after which the worker still runs |
| RemoteWorker.EventsFollowTheWire | codex-rs/app-server-client/src/remote.rs:326-452 | delivered events are exactly the known notifications and requests of the inputs before the one that stopped the worker, in wire order, and then one disconnect event with its message if and only if that input lost the connection while the receiver was open |
| RemoteWorker.KeptUntilTheEnd | codex-rs/app-server-client/src/remote.rs:208-458 | which input stops the worker, read off the inputs alone: a lost connection, a shutdown, no callers left, or an event nobody receives |
| RemoteWorker.CommandsAreToldTheirOutcome | codex-rs/app-server-client/src/remote.rs:254-311 | over every run a notification, a resolution, a rejection and a shutdown are told whether their write succeeded, an unsent request why, and nothing else ever |
| RemoteWorker.WritesFollowInputs | codex-rs/app-server-client/src/remote.rs:218-385 | over every run the messages written are exactly those the inputs call for, in order |
| RemoteWorker.UnknownRequestsRefused | codex-rs/app-server-client/src/remote.rs:338-385 | every unknown server request read, and nothing else, gets one method-not-found reply written, in order (section 5.1 of JSON-RPC 2.0) |
| RemoteWorker.HandshakeFollowsTheWire | codex-rs/app-server-client/src/remote.rs:798-932 | a successful handshake collects the events of the frames it read in wire order and refuses the unknown requests among them |
| RemoteWorker.Converse | codex-rs/app-server-client/src/remote.rs:603-608 | after a successful handshake and with reads that interleave in any way with the worker's passes, every read returns the next event delivered by then, and what was read is a prefix of the wire order from the first handshake frame up to the input that stopped the worker and of the one disconnect event that input calls for |
| RemoteWorker.CallerSeesTheWire | codex-rs/app-server-client/src/remote.rs:603-608 | what a caller can read is exactly the wire order of the handshake's frames and of the inputs before the one that stopped the worker, then one disconnect event, which is last, if and only if that input lost the connection and the receiver had not been dropped before |
| RemoteWorker.InitializeRemoteConnection | codex-rs/app-server-client/src/remote.rs:798-932 | the handshake loop computes the specified outcome, error paths included |
| RemoteWorker.DrainLoop | codex-rs/app-server-client/src/remote.rs:459-467 | the loop in the map's own order tells every pending waiter the exit error once |
| RemoteWorker.RemoteWorkerTask.Work | codex-rs/app-server-client/src/remote.rs:208-467 | the whole task on any inputs with distinct reply channels reaches the state of the run the lemmas are about |
| RemoteWorker.RemoteWorkerTask.Handle | codex-rs/app-server-client/src/remote.rs:208-458 | one pass of the select loop does what the step function says |
| RemoteWorker.RemoteWorkerTask.HandleCommand | codex-rs/app-server-client/src/remote.rs:218-311 | the five commands, with a failed request write undone, answered and ending the worker |
| RemoteWorker.RemoteWorkerTask.DeliverEvent | codex-rs/app-server-client/src/remote.rs:942-952 | an event reaches the channel exactly when the receiver is open |
| RemoteWorker.RemoteAppServerClient.NextEvent | codex-rs/app-server-client/src/remote.rs:603-608 | handshake events first, then the channel in order; what was seen is always a prefix of the two |
| Daemon.BackendMatchesSetting | codex-rs/app-server-daemon/src/lib.rs:276-433 | under any interleaving of operations, updater, crashes and failures: whenever the lock is free a running managed backend has the saved setting, if and only if no process fails while the running backend has the other one; then at most one process is in its critical section |
| Daemon.FailureBreaksIff | codex-rs/app-server-daemon/src/lib.rs:491-614 | for every operation, from every quiet state: a failure at some point can leave a mismatch if and only if a managed backend runs and the operation is to save the other setting |
| Daemon.UnmanagedServerIsLeftAlone | codex-rs/app-server-daemon/src/lib.rs:294-433 | beside an unmanaged server, under any interleaving: no operation gets past its guard if and only if no check is made while a `version` command holds the reservation lock and no probe at a guard is left unanswered; then the setting stays and no backend is started |
| Daemon.MisledTouchesIff | codex-rs/app-server-daemon/src/lib.rs:525-614 | for every operation and each cause (raced check, unanswered probe, either): it can be misled into saving another setting or starting a backend if and only if it is exposed to that cause, with failing runs for every exposed operation |
| Daemon.GuardHoldsIff | codex-rs/app-server-daemon/src/client.rs:33-60 | before its guard an action touches nothing, and it passes the guard exactly by a check while the reservation is held or by an unanswered probe |
| Daemon.ActIsSound | codex-rs/app-server-daemon/src/lib.rs:294-614 | every action of the lock holder keeps the setting it relies on and the backend's agreement outside the window |
| Daemon.FinishedOperation | codex-rs/app-server-daemon/src/lib.rs:294-614 | an operation that finishes, whatever the environment does meanwhile: a stop leaves no backend, a remote-control change, a bootstrap and the combined command leave the setting asked for, a restart and a bootstrap have started a backend, a bootstrap the updater; without crashes and other servers a start, a restart, a bootstrap and the combined command leave a backend running with the saved setting, and so do the others when one ran before |
| Daemon.OperationsFinish | codex-rs/app-server-daemon/src/lib.rs:294-614 | from every quiet state every operation whose probes are answered finishes within fifteen actions |
| Daemon.RunningBackendIsReplacedIff | codex-rs/app-server-daemon/src/lib.rs:294-403 | beside a running backend an update starts a new one exactly when it is forced or the versions differ, and a start changes nothing |
| Daemon.ReservationIsRespected | codex-rs/app-server-daemon/src/backend/pid.rs:116-229 | under any interleaving, no backend is started while another command holds the pid reservation lock |
| DiffSummary.Summarize | codex-rs/analytics/src/accepted_lines.rs:30-83 | the loop returns the counts and fingerprints of the scan of the diff's lines; `DiffSummary.FingerprintIff` says what each is |
| DiffSummary.SummaryOfRenderedDiff | codex-rs/analytics/src/accepted_lines.rs:30-83 | for every list of patches rendered as a git diff: exactly the added and deleted body lines, and the fingerprints of the effective added lines in order under the path of their own file's name line, even for body lines that look like headers |
| DiffSummary.OwnPathsIff | codex-rs/analytics/src/accepted_lines.rs:46-66 | for every list of files, quoted names and deleted files included, the recorded lines are each under their own file's path if and only if no file with added lines has a quoted name or a path that ends in white space |
| DiffSummary.SummaryUnderOwnPaths | codex-rs/analytics/src/accepted_lines.rs:30-83 | under that condition the fingerprints are those of the effective added lines in order under the files' own paths |
| DiffSummary.RecordedPathIff | codex-rs/analytics/src/accepted_lines.rs:143-155 | whatever way git writes a name, the recorded path is the file's own if and only if the name is not quoted and the path does not end in white space |
| DiffSummary.NormalizeIgnoresCarriageReturn | codex-rs/analytics/src/accepted_lines.rs:157-169 | a carriage return at the end of a line does not change its effective text |
| DiffSummary.EffectiveTextIff | codex-rs/analytics/src/accepted_lines.rs:157-169 | for any words spread with any white space, the effective text is the words with one space between them, if and only if that is longer than three bytes and some character of it is alphanumeric or an underscore; else there is none |
| DiffSummary.EveryLineIsSpread | codex-rs/analytics/src/accepted_lines.rs:157-169 | every line is its words spread with some white space, so the previous row covers all lines |
| DiffSummary.FingerprintIff | codex-rs/analytics/src/accepted_lines.rs:64-74 | an added line has exactly one fingerprint, the hashes of its path and of that text, if and only if it has a path and an effective text |
| DiffSummary.FingerprintsInOrder | codex-rs/analytics/src/accepted_lines.rs:64-83 | the fingerprints come line by line in the order of the added lines |
| LspFraming.FramingRoundTrip | lean-prover/lsp/lean_lsp_client.py:48-66 | reading the concatenated frames of any list of bodies gives exactly those bodies in order and then the end of the stream |
| LspFraming.ReadFrame | lean-prover/lsp/lean_lsp_client.py:53-66 | reading one frame followed by anything gives its body and goes on with what follows |
| LspFraming.HeaderRoundTrip | lean-prover/lsp/lean_lsp_client.py:48-51 | the header announces exactly the body's length |
| LspFraming.DecimalRoundTrip | lean-prover/lsp/lean_lsp_client.py:62-65 | parsing a written length gives it back |
| LspFraming.ReadUntil | lean-prover/lsp/lean_lsp_client.py:56-61 | the byte-by-byte header loop stops exactly after the first separator, or at the end of the stream |
| LspFraming.ReadLoop | lean-prover/lsp/lean_lsp_client.py:53-66 | the reader's loop yields the bodies and the ending of the whole stream |
| LintArgs.ParseWrapperArgs | tools/argument-comment-lint/wrapper_common.py:55-104 | the parse loop computes the meaning of the command line: what is before and after the first separator, and what each half selects |
| LintArgs.FlagsAreGiven | tools/argument-comment-lint/wrapper_common.py:20-104 | each flag is set if and only if its option is given before the separator in one of its spellings, an option's value never being taken for an option, and the target flag if and only if an argument behind it names a target kind |
| LintArgs.BuildFinalArgs | tools/argument-comment-lint/wrapper_common.py:107-122 | the missing defaults, the user's lint arguments, the separator only when needed, the cargo arguments |
| LintArgs.NormalizedKeepsUserArgs | tools/argument-comment-lint/wrapper_common.py:107-122 | parsing the built list finds the user's lint and cargo arguments again in order |
| LintArgs.NormalizingIsIdempotent | tools/argument-comment-lint/wrapper_common.py:55-122 | normalising twice equals once if and only if the default manifest path is not the separator or is not used |
| LintArgs.NormalizedIsFixed | tools/argument-comment-lint/wrapper_common.py:55-122 | the second pass changes nothing whatever its own default manifest path is |
| EventQueue.AdmissionsAccount | codex-rs/analytics/src/client.rs:86-117 | over any calls admissions are 4096 times the clears plus the keys held, the set never exceeds 4096 and a key is admitted at most clears + 1 times |
| EventQueue.EveryKeyAdmitted | codex-rs/analytics/src/client.rs:86-117 | every key ever called was admitted at least once |
| EventQueue.AnalyticsEventsQueue.ShouldEnqueueAppUsed | codex-rs/analytics/src/client.rs:86-102 | an app without a connector is always reported and leaves no key; any other follows the account |
| EventQueue.AnalyticsEventsQueue.ShouldEnqueuePluginUsed | codex-rs/analytics/src/client.rs:104-117 | the result and the new set follow the account |
| EventQueue.TrackEventRequestBatches | codex-rs/analytics/src/client.rs:427-448 | the batches are the events in order, isolated ones alone, no two neighbouring batches that could share a request |
| EventQueue.BatchingIsUnique | codex-rs/analytics/src/client.rs:427-448 | those conditions determine the batches |
| Subreason.SubreasonIsBoundedText | codex-rs/analytics/src/facts.rs:189-212 | valid UTF-8 of at most 512 bytes: the message itself if it fits, else the longest whole-character prefix of at most 509 bytes, at least 506, plus the suffix (section 3 of RFC 3629) |
| Utf8.BoundaryNearby | codex-rs/analytics/src/facts.rs:196-204 | every position of an encoded string has a character boundary at most three bytes before it |

## Left out

- Payload fields that the reducer only copies (runtime and client metadata, config, profile, token usage, item details, model names) are strings; the enum-to-string mappings and the counting helpers over command actions, file changes and dynamic content are not modelled.
- Skill, app, hook and plugin events of the reducer are pass-through facts: git lookups, SHA-1 ids and the originator are not modelled.
- Clocks, repository hashes and the permission working directory are inputs or absent; the accepted-lines event carries its counts, thread and model only.
- Counters of the reducer are unbounded; 64-bit overflow is not modelled. The forwarder's saturating counter is.
- Review ids keep the request id itself instead of its text form, in which a number and the same digits as text coincide.
- The image count of a request is an input; counting images in the user input is not modelled.
- Forwarder: tokio scheduling is an arbitrary consumer schedule before every channel operation; the command arms of the worker loop are not modelled.
- RemoteWorker: WebSocket, TLS and JSON decoding are frames that carry decoded messages or none; event and error texts are shortened; parsing the server version from the initialize response is not modelled; timeouts are frames that run out.
- RemoteWorker.RemoteWorkerTask.Handle: requires that no two pending requests share a reply channel, which one-shot channels guarantee.
- Daemon: the operations are a state machine of atomic actions on values rather than methods on a shared object, because the property is about their interleavings; starting a backend is one action that waits for the reservation lock, stopping one terminates it at once and goes on when that lock is free; polling loops and timeouts are nondeterministic failures; the updater's restart mode is an input, and installing updates and re-executing the updater change no modelled state.
- DiffSummary: the Unicode alphanumeric table and SHA-1 are parameters of the summariser; the effective text is stated for tables in which a space is not alphanumeric, as in Unicode.
- DiffSummary.OwnPathsIff: name lines carry git's default `b/` prefix; diffs made without prefixes or with mnemonic ones are not covered.
- DiffSummary.SummaryOfRenderedDiff: patches are rendered with one line feed after every line and no combined-diff hunks.
- LspFraming: JSON decoding and the dictionaries that distribute responses and diagnostics are not modelled; a header with a byte outside ASCII counts as unreadable; Python's limit on the digits of an integer is not modelled.
- The agent graph store, agent identity, packaging and CI scripts, token measurement, sandbox tests and terminal rendering are not modelled.
