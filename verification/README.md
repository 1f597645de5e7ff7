# Verified model of the mad-trellis arbiter

This project models the stateful protocols of mad-trellis and proves what they promise: the
crash-consistent promote protocol of the integrator, the lease ledger with its fair queue, the
cooperative multiplexer between container and host, the review plane with its event cursors, and
three small loops that support them (the paste-mode scanner, the nudge hand-off, the crash-restart
loop). `dafny verify dfyconfig.toml` checks everything.

## How it is modelled

**Trunk promote.** `Git` gives commits as values (a commit is its tree, parents, message and date),
so ancestry is structural and two commits are the same object exactly when they have the same
content. `TrunkMachine` is the protocol under free interleaving: every call is a small program whose
steps are single store statements and single git commands. Any call may take its next step at any
time, may die between two steps, and may be granted the lease although another promoter is still past
it. `TrunkSafety` holds the invariant of all schedules and the theorems about whole runs.
`TrunkSerial` says what serialized calls that may die anywhere keep, `TrunkAborted` when exactly an
aborted integration can still land, and `TrunkScenes` has two concrete runs. Branches are clean, there,
when the integration merges in them have landed. `Integrator` is the object the daemon runs; `TrunkCall`
shows that every one of its calls, whole or cut off at a named fault point, is a run of the machine.

**Leases.** `LeaseTables` gives each ledger call as a function on the two tables, and `Ledger` is the
object whose methods are proved against those functions. `LeaseFencing` follows the grants of a key
over whole histories. `LeaseQueue` has the reference design, a plain first-in first-out list per key
with instant expiry, and `LeaseFairness` proves that the tables answer as it does. `LeaseTies` drops the
assumption that ties are settled: it says when a waiter is moved back and how often it can be overtaken.

**Multiplexer.** `Frame` is the codec, with the imperative encoder and a reader over an arbitrary
fragmenting stream. `Tube` is one direction: a bounded channel of encoded frames, the single writer, a
bounded pipe, and the reader's partial frame, moving bytes in pieces of any size. `Mux` composes
relay, pump and the two tubes; every goroutine is a source of steps. `Demultiplexer` is the stream
table as an object. `MuxIntegrity` and `MuxSafety` prove per-stream integrity, `MuxProgress` the absence of
deadlock, `MuxClose` that a stream over on one side is not left open on the other, with one message at most,
and `MuxLiveness` what can always be done: end a stream, open one, get bytes through, wind down.

**Review plane.** `ReviewTables` gives each call as a function on the request rows, the event log and
the cursors, `ReviewPlane` is the object, `Review` has the theorems about request rows and `EventLog`
those about cursors.

**Supporting loops.** `PasteMode`, `Nudge` and `Keepalive`.

Clocks are parameters (one reading per call), branch contents and the gate's three-way merge are
arbitrary inputs, and whatever a session, a connection or a user does is a label, an operation or a
script entry that the theorems quantify over. `sent`, `delivered`, `log`, `enqueued` and `taken` are
history variables: no step reads them.

## Where the code and its comments differ

- The comments at `internal/integrator/integrator.go:244-246` and `internal/integrator/trunk.go:104-109`
  say that two promotes of one id write the same commit. They do exactly when they read the same tip
  and the same branch commit (`TrunkSafety.MergesOfOneIdAgree`), and they need not: the branch may move
  between them (`TrunkScenes.PromotesMayDisagree` reaches such a state). The trunk is safe all the same,
  because the row's first recorded pair is the one every promoter uses.
- `aborted` (`internal/integrator/integrator.go:335-341`) does not mean "never lands" under free
  interleaving: `Promote` does not look at the row's state again after taking the lease, so an abort
  that overtakes a promote in flight does not stop it (`TrunkScenes.AbortedMayHaveLanded` reaches such
  a state). An aborted row can still land if and only if its merge is recorded, the trunk is at its
  recorded base, and a promote of it is in flight that can pass its gate, if the gate is still ahead
  (`TrunkAborted.AbortedLandsIff`). Otherwise aborted is final (`TrunkAborted.AbortedIsFinal`), and in
  particular with no promote in flight (`TrunkAborted.SealedIsFinal`), which covers all serialized calls.
- The comment at `internal/lease/ledger.go:445-446` says Dequeue reports false without a live waiter row. It
  reports true for an expired row that has not been pruned yet (`LeaseFairness.DequeueSeesUnpruned`, and
  `LeaseFairness.StaleDequeue` from an empty ledger); it is the one call that can tell lazy pruning from
  instant expiry.
- FIFO order has one exception: two first enqueues of a key at the same clock reading are ordered by
  session name, so the later one may go ahead (`LeaseTies.LaterGoesFirst` from an empty ledger). No other
  call ever moves a waiter back (`LeaseTies.PlaceRisesIff`).

## Model

| member | source | states |
|---|---|---|
| TrunkSafety.RunKeeps | internal/integrator/integrator.go:199-398 | every schedule of interleaved and dying calls keeps the protocol invariant and lets later states only follow from earlier ones |
| TrunkSafety.ReachableEvolves | internal/integrator/integrator.go:199-398 | from any reachable state, for every schedule: each earlier trunk tip stays an ancestor of each later one, rows never disappear, recorded (base, merge) pairs and terminal rows never change |
| TrunkSafety.TrunkOnlyGrows | internal/integrator/trunk.go:162-180 | between any two moments of any run, nothing the trunk contained is lost |
| TrunkSafety.TrunkMovesToRecordedMerge | internal/integrator/integrator.go:280-332 | every change of the ref goes from B to a commit whose first parent is B (or from unborn to a create-only commit), which is some row's recorded, gate-passed merge with the clean tree of its own parents |
| TrunkSafety.OnlyUpdateRefMoves | internal/integrator/integrator.go:319-323 | no other statement of any call, no death and no branch update moves the trunk, and the update succeeds from the recorded base only |
| TrunkSafety.LandsAtMostOnce | internal/integrator/integrator.go:247-330 | in every reachable state no id has landed twice, however many promotes of it ran and raced |
| TrunkSafety.FirstParentsAreLandings | internal/integrator/trunk.go:100-127 | walking back along first parents from a landing meets exactly the earlier landings, newest first, and then the tip the store was opened on |
| TrunkSafety.NothingMergesSilently | internal/integrator/integrator.go:217-258 | the first-parent chain of the trunk consists of recorded merges of rows with gate_ok set whose trees are the clean merges of exactly their parents |
| TrunkSafety.RecordedIsClean | internal/integrator/trunk.go:60-127 | in every reachable state a recorded merge has the recorded base and one branch commit as its parents, git merges these two cleanly into its tree (without a trunk its tree is the branch's), its message names branch and id, and its date is the creation time in whole seconds |
| TrunkSafety.PromotedIsSoundAndStable | internal/integrator/integrator.go:290-300 | a promoted row has its merge among the trunk's ancestors, now and after any later schedule, and the row is unchanged |
| TrunkSafety.RecordedForGood | internal/integrator/store.go:123-150 | terminal rows never change again, and a recorded pair is never replaced |
| TrunkSafety.MergesOfOneIdAgree | internal/integrator/integrator.go:238-256 | two promotes of one id build the same commit if and only if they read the same tip and the same branch commit |
| Git.MergeMessageInjective | internal/integrator/integrator.go:473-475 | merge messages of safe refs determine branch and id, so merges of different integrations are different commits |
| Git.RefRules | internal/integrator/integrator.go:493-509 | a ref is accepted if and only if it is not empty, does not start with a dash, contains neither two dots nor a reflog brace, and has letters, digits, slash, dot, dash and underscore only |
| Git.AncestorSmaller | internal/integrator/trunk.go:129-146 | ancestry is well founded: a proper ancestor is strictly smaller |
| TrunkSerial.OnlyItselfLands | internal/integrator/integrator.go:455-471 | an advance brings one integration commit into the trunk, its own, as long as branches build on landed merges only |
| TrunkAborted.ReachablePast | internal/integrator/integrator.go:163-263 | in every reachable state each recorded base, and each tip a call has read, is part of the history of the present trunk |
| TrunkAborted.AbortedLandsIff | internal/integrator/integrator.go:199-371 | in every reachable state with clean branches, some clean schedule lands an aborted unlanded row if and only if its merge is recorded, the trunk is at its base, and a promote of it is in flight past its first read whose gate, if still ahead, can pass |
| TrunkAborted.AbortedIsFinal | internal/integrator/integrator.go:335-371 | when that condition fails, the aborted row stays exactly as it is and out of the trunk for every later clean schedule, whatever promotes are in flight |
| TrunkAborted.SealedIsFinal | internal/integrator/integrator.go:335-371 | a special case: an aborted row with no promote of it in flight stays so and out of the trunk |
| TrunkScenes.AbortedMayHaveLanded | internal/integrator/integrator.go:284-332 | a reachable state in which an aborted row has landed: the unrestricted claim is false |
| TrunkScenes.PromotesMayDisagree | internal/integrator/integrator.go:238-256 | a reachable state in which two promotes of one id are about to record different commits |
| TrunkSerial.SerialRunsAgree | internal/integrator/integrator.go:199-471 | from any state that keeps the invariant, serialized calls that may die at any statement keep rows and ref in agreement: promoted rows have landed, aborted rows have not |
| TrunkSerial.SerializedCallsAgree | internal/integrator/integrator.go:432-471 | from a store just opened, with clean branches, after any serialized calls, some cut off at any statement: a terminal row says promoted if and only if its merge is in the trunk, a received row has none there, and the opening tip is still in the history |
| TrunkCall.WholeCallKeeps | internal/integrator/integrator.go:199-398 | a call that runs alone, whole or cut off, keeps the invariant, the agreement of rows and ref, and the branch assumption |
| Integrator.Integrator.Submit | internal/integrator/integrator.go:163-191 | bad or unresolved refs are refused; otherwise one received row with the present tip as base is added, an existing id is left alone, and the trunk does not move |
| Integrator.Integrator.Reconcile | internal/integrator/integrator.go:432-453 | a validating row becomes promoted if and only if its merge is in the trunk |
| Integrator.Integrator.ValidateReceived | internal/integrator/integrator.go:217-263 | the gate decides: it passes if and only if the branch is there and git merges it cleanly, or there is no trunk, and then base, merge and gate_ok are recorded in one statement with exactly that tree; rejection or a vanished branch aborts; it is an error if and only if git fails, and then nothing changes |
| Integrator.Integrator.LandUnderLease | internal/integrator/integrator.go:265-332 | the whole outcome by case: refused lease, landed already, stale base, cut off before or after the ref update, or landed and recorded |
| Integrator.Integrator.Promote | internal/integrator/integrator.go:199-333 | the outcome and the answer by the state found (unknown, promoted, aborted, validating, received); for a received row what git says decides: a conflict aborts it and leaves the trunk alone, a failure changes nothing, a clean merge, or a branch onto no trunk, is recorded and, granted the lease and not cut off, promoted; the call is a run of the machine; the trunk moves under the lease only, from the recorded base to the recorded merge; a promoted answer means the merge is in the trunk |
| Integrator.Integrator.Abort | internal/integrator/integrator.go:342-371 | never moves the ref; afterwards the row is terminal, and reported promoted if and only if its merge is in the trunk; the answer by case |
| Integrator.Integrator.AbortAs | internal/integrator/integrator.go:380-398 | refused exactly for a live integration of another holder that has not landed, and then its state is reported; otherwise Abort, with its answer |
| Integrator.Integrator.Status | internal/integrator/integrator.go:401-415 | never moves the ref, records a landing it finds, and reports promoted if and only if the merge is in the trunk; the answer by case |
| Ledger.Ledger.PruneWaiters | internal/lease/ledger.go:485-491 | exactly the expired waiter rows go |
| Ledger.Ledger.LiveWaiters | internal/lease/ledger.go:493-513 | the live sessions of the key in queue order |
| Ledger.Ledger.HeadWaiter | internal/lease/ledger.go:515-535 | the head, the number of live waiters ahead of the session (all of them if it is not queued) and whether there is a queue |
| Ledger.Ledger.Acquire | internal/lease/ledger.go:205-269 | granted if and only if the key has no holder whose expiry lies ahead and the caller leads the line left after pruning, or there is none; the caller then holds the key up to the new expiry; new tables and reply: the next fence, and a served head leaves the queue |
| Ledger.Ledger.Renew | internal/lease/ledger.go:271-286 | succeeds exactly for the live holder, who then holds the key at every later reading before the new expiry and at no other; the fence, the other keys and all waiters stay, and a refusal changes nothing |
| Ledger.Ledger.Release | internal/lease/ledger.go:288-303 | succeeds exactly for the holder, live or lapsed; the key is then free at every reading, its fence is kept, the other keys stay, and a refusal changes nothing |
| Ledger.Ledger.ReclaimIfExpired | internal/lease/ledger.go:305-340 | frees exactly a held and lapsed key, raises its fence by one and reports the prior holder; no session gains or loses a live lease by it |
| Ledger.Ledger.Enqueue | internal/lease/ledger.go:410-443 | a new intent goes to its place, a repeated one keeps its enqueue time and refreshes its expiry; the reply is the place |
| Ledger.Ledger.Dequeue | internal/lease/ledger.go:445-457 | true exactly when there was a row of the session, live or not; afterwards there is none, and every other intent is still there |
| Ledger.Ledger.Queue | internal/lease/ledger.go:459-483 | the live holder and the live line |
| LeaseFencing.WindowsNeverOverlap | internal/lease/ledger.go:205-340 | over any history with a nondecreasing clock, live windows of two grants of a key never overlap and each fence exceeds all earlier ones |
| LeaseFencing.HeldInItsWindow | internal/lease/ledger.go:271-286 | the windows are the leases: a session holds a key at a reading if and only if the reading lies in a window granted to it |
| LeaseFencing.NoRenewalAfterLoss | internal/lease/ledger.go:271-286 | after a lapse, a release or a reclaim every renewal is refused until the session is granted the key again |
| LeaseFencing.GrantedOutsideWindows | internal/lease/ledger.go:205-269 | over any history with a nondecreasing clock, an acquire is granted if and only if its reading lies in no window of the key, however the last one ended, and the caller leads the line or there is none |
| LeaseQueue.SortedInOrder | internal/lease/ledger.go:493-499 | the queue order is enqueue time, then session name, and sorting loses and repeats no row |
| LeaseQueue.StepRefines | internal/lease/ledger.go:415-535 | one call on related states: the tables and a plain FIFO list with instant expiry give the same answer and stay related |
| LeaseFairness.LedgerRefinesDesk | internal/lease/ledger.go:415-535 | on every history with a nondecreasing clock and settled ties, every reply other than Dequeue's is the reply of the FIFO list |
| LeaseFairness.DequeueSeesUnpruned | internal/lease/ledger.go:445-457 | Dequeue agrees with the FIFO list if and only if the session's row, if any, is live |
| LeaseFairness.StaleDequeue | internal/lease/ledger.go:445-457 | from an empty ledger, an intent dequeued as it expires: the ledger says true, the FIFO list false |
| LeaseFairness.GrantOnlyToHead | internal/lease/ledger.go:227-239 | while somebody waits, only the head is granted the key |
| LeaseFairness.GrantedIff | internal/lease/ledger.go:227-252 | an acquire is granted if and only if the line left after pruning is empty or led by the caller and no holder's expiry lies ahead: a lapsed lease is taken over |
| LeaseFairness.LineMoves | internal/lease/ledger.go:209-269 | every call moves every line first in, first out: joins at the end, leaves anywhere, a grant pops the head |
| LeaseTies.BoundedOvertaking | internal/lease/ledger.go:209-269 | for every history with a nondecreasing clock, settled ties or not: grants of the key to others while a waiter is kept alive, plus its final place, are at most its initial place plus the ties it lost |
| LeaseTies.SettledOvertaking | internal/lease/ledger.go:209-269 | with settled ties the bound is the initial place alone |
| LeaseTies.PlaceRisesIff | internal/lease/ledger.go:493-499 | for every call and every table with one row a session and no enqueue time ahead of the clock: a waiter that stays in line is moved back if and only if the call is a first enqueue of the key at its very enqueue time under a smaller session name |
| LeaseTies.HistoryKeyed | internal/lease/ledger.go:415-443 | every history with a nondecreasing clock leads to such tables |
| LeaseTies.LaterGoesFirst | internal/lease/ledger.go:493-499 | from an empty ledger, two enqueues at one reading after which the first to come is second |
| LeaseTies.IntentLives | internal/lease/ledger.go:410-443 | an enqueue, first or repeated, keeps the session in line for exactly the time asked for, or ninety seconds by default |
| Frame.RoundTrip | internal/coop/frame.go:73-123 | reading what was encoded gives the frame back, and leaves the rest, if and only if its type is known |
| Frame.DecodeIsEncoding | internal/coop/frame.go:101-123 | only encodings decode: a frame read is proper and its encoding was next in the stream |
| Frame.WireFormat | internal/coop/frame.go:73-83 | id and length are big-endian words around the type byte, and the payload follows |
| Frame.ReadableIff | internal/coop/frame.go:101-123 | exactly types 1 to 4 with payloads up to a mebibyte are read |
| Frame.StrictPrefixTruncated | internal/coop/frame.go:97-123 | no strict prefix of a frame decodes to a frame or is taken for a damaged one |
| Frame.StreamRoundTrip | internal/coop/frame.go:68-123 | any list of proper frames written one after the other is read back as that list |
| Frame.CutStream | internal/coop/frame.go:97-123 | a stream cut anywhere yields exactly the frames whose encodings lie whole before the cut |
| Frame.EncodeFrame | internal/coop/frame.go:73-83 | the buffer filled by index holds the encoding; oversized payloads are refused |
| Frame.Reader.ReadFull | internal/coop/frame.go:101-105 | the wanted bytes, or all there are, however the stream fragments them |
| Frame.Reader.ReadFrame | internal/coop/frame.go:101-123 | returns a frame exactly when the remaining bytes begin with one, and consumes exactly it |
| Frame.Reader.ReadAll | internal/coop/frame.go:101-123 | reading until failure gives the decoding of the whole stream, however it is fragmented |
| Tube.DeliverKeeps | internal/launcher/coop.go:388-402 | with one writer and bounded queues, the frame handed to the demultiplexer is the next one sent, and no byte of the one after it is taken |
| Tube.NeverStuck | internal/launcher/coop.go:406-422 | a direction with anything queued or in flight has an enabled move that lowers its load |
| Demultiplexer.Demultiplexer.Accept | cmd/mad-trellis-relay/main.go:165-191 | an id not in the table, one above all earlier ones, and a registered stream, unless shutting down |
| Demultiplexer.Demultiplexer.OpenStream | internal/launcher/coop.go:458-475 | afterwards the stream is registered unless the side is done; a registered one is not replaced, a new one awaits its dial, and no other stream changes |
| Demultiplexer.Demultiplexer.DispatchData | internal/launcher/coop.go:539-556 | never blocks: afterwards the stream is closed if and only if it was closed already or its queue was full; bytes are queued at the end or not at all, always when there is room on an open stream, never beyond the bound; unregistered ids and other streams are untouched |
| Demultiplexer.Demultiplexer.PeerClose | internal/launcher/coop.go:558-569 | a registered stream is closed with its queue kept, and when its writer ends it owes no CLOSE, so none is echoed; unregistered ids and other streams are untouched |
| Demultiplexer.Demultiplexer.Receive | cmd/mad-trellis-relay/main.go:235-252 | one frame touches its own stream at most and drops none: READY, and OPEN at the relay, change nothing; OPEN at the pump leaves the stream registered unless the side is done; CLOSE closes it with its queue kept; DATA closes it or extends its queue by the payload |
| Demultiplexer.Demultiplexer.Shutdown | internal/launcher/coop.go:577-590 | afterwards the side is done, every stream that was registered is closed, none is dropped, and the relay has no registered stream left |
| MuxSafety.StepKeeps | internal/launcher/coop.go:382-590 | every step of every goroutine of either side keeps the invariant of the composed system |
| MuxSafety.StreamIntegrity | internal/launcher/coop.go:479-569 | in every run, in both directions, bytes written to a stream's far connection are a prefix of the bytes read from its near one |
| MuxSafety.LosslessWhileLive | internal/launcher/coop.go:479-556 | while both ends live, bytes read are exactly those written, held by the writer, queued, in flight and held by the reader, in that order |
| MuxSafety.NeverHeldBack | internal/coop/frame.go:73-83 | in every run ids and chunks fit the codec, so it refuses no frame and holds no goroutine back |
| MuxSafety.OpenIsNew | cmd/mad-trellis-relay/main.go:163-191 | an arriving OPEN never meets a stream the pump has seen, and none of its data came before it |
| MuxSafety.DispatchTouchesOneStream | cmd/mad-trellis-relay/main.go:254-271 | dispatching a frame, whatever it sheds, changes one stream of one side and nothing of the other |
| MuxClose.ClosedAtMostOnce | internal/launcher/coop.go:499-507 | in every run each side sends at most one CLOSE per stream, and only once it is through with the stream |
| MuxClose.EndIsAnnounced | internal/launcher/coop.go:477-508 | in every run a side that is through with a stream has sent exactly one CLOSE for it, unless it is shutting down or the peer ended the stream first |
| MuxClose.NoHalfOpen | internal/launcher/coop.go:477-508 | in every run, with both ends open and nothing queued or in flight, no stream is over on one side and live on the other |
| MuxClose.HalfOpenEnds | internal/launcher/coop.go:477-569 | from every reachable state with both ends open, writers and demux loops alone reach, within the load, a state where each stream over on one side is not live on the other |
| MuxProgress.NoDeadlock | cmd/mad-trellis-relay/main.go:112-271 | with both ends open and anything queued or in flight, a writer or demux step is enabled and lowers the load, even with every connection stuck |
| MuxProgress.NoReachableDeadlock | internal/launcher/coop.go:382-556 | the same for every state a run can reach, for any positive pipe capacity |
| MuxProgress.Drain | internal/launcher/coop.go:406-456 | writers and demux loops alone can drain both directions without touching a connection: each side is handed exactly the frames under way to it, in order, and every producer has room |
| MuxProgress.InternalRunsEnd | internal/launcher/coop.go:382-422 | no sequence of such steps is longer than the load it starts from |
| MuxLiveness.ReaderEndsStream | internal/launcher/coop.go:511-525 | in every run, on both sides, a serving stream whose reader has ended is torn down, no reader is left on an open connection once its stream is over, and the relay has then closed its connection |
| MuxLiveness.QueuesAreBounded | internal/launcher/coop.go:424-475 | in every run a stream queues at most 256 chunks of at most 32768 bytes, a side at most 256 frames, and the pipe holds at most its capacity |
| MuxLiveness.TearDownIsFinal | internal/launcher/coop.go:558-590 | a stream torn down stays so, and its connection is neither read nor written, in every step of either side |
| MuxLiveness.EndedReaderFinishes | internal/launcher/coop.go:477-540 | from every reachable state with both ends open, a serving stream whose reader has ended can get through by its own writer and the wire, with exactly one CLOSE, or none if the peer ended it first |
| MuxLiveness.EndReachesBoth | internal/launcher/coop.go:477-569 | from every reachable state with both ends open, a stream that was torn down or whose write fails can be brought to its end on both sides |
| MuxLiveness.ShutdownIsFinal | internal/launcher/coop.go:577-590 | after a shutdown a side adds no stream and revives none |
| MuxLiveness.ReachedShutdownFinishes | internal/launcher/coop.go:424-456 | from every reachable state, once its side shuts down, every stream can get through by its own goroutines, its reader included, without another frame |
| MuxLiveness.StreamOpens | cmd/mad-trellis-relay/main.go:163-191 | from every quiet reachable state an accepted connection can be connected to a dialled one, under the next id, with both readers running |
| MuxLiveness.BytesGetThrough | internal/launcher/coop.go:510-556 | from every reachable state with both ends open and nothing under way, whatever the reader of a live stream reads next can be written on the other side, after all it read before |
| ReviewPlane.ReviewPlane.UpsertRequest | internal/integration/store.go:117-150 | the row lands in requested with the new holder, cleared claimer, feedback and merge, kept creation time, and the old title if none is given |
| ReviewPlane.ReviewPlane.Request | internal/integration/integration.go:88-108 | unsafe refs are refused; otherwise the upsert and one integrator event |
| ReviewPlane.ReviewPlane.Claim | internal/integration/integration.go:113-140 | succeeds exactly on a waiting branch, which is then under review by this session with its holder kept; one event is appended, and the holder is authorized for it; otherwise nothing changes; the reply is the row as it is afterwards |
| ReviewPlane.ReviewPlane.Verdict | internal/integration/integration.go:142-194 | bad decisions and blank rejections are refused; a claimed row is approved with the merge commit on approve, sent back with the feedback on reject, with one event; otherwise nothing changes and the present state is reported |
| ReviewPlane.ReviewPlane.Cancel | internal/integration/integration.go:201-212 | succeeds exactly on a branch waiting or under review, so a verdict is never overwritten; afterwards the branch is neither; its feedback and merge and all other branches stay |
| ReviewPlane.ReviewPlane.ReclaimRows | internal/integration/store.go:256-282 | exactly the claimed rows of dead claimers are requeued, each once, in whatever order the query yields |
| ReviewPlane.ReviewPlane.ReclaimStaleClaims | internal/integration/integration.go:214-228 | the requeued rows, then one event per row |
| ReviewPlane.ReviewPlane.GCStale | internal/integration/store.go:284-325 | cold rows and old events go, claimed rows stay, and the count is the number of rows deleted |
| ReviewPlane.ReviewPlane.Events | internal/integration/events.go:51-127 | the first authorized events beyond the cursor up to the normalized limit, none of which the session may not read, and the cursor moves to the last of them |
| ReviewTables.NormalMax | internal/integration/events.go:134-142 | the limit is between 1 and 200, the number asked for within these bounds, and 50 by default |
| Review.RowsKeepTheirShape | internal/integration/store.go:117-282 | in every run each row has the shape of its state: no claimer, feedback or merge when requested; no feedback or merge when claimed; non-blank feedback and no merge when changes are requested |
| Review.Moves | internal/integration/store.go:152-282 | the whole table of state changes: which call may take a row into and out of each state |
| Review.VerdictDecides | internal/integration/integration.go:142-194 | approve approves and stores the merge commit, reject sends back and stores the feedback, and nothing else of the row changes but its time stamp |
| Review.VerdictTakenIff | internal/integration/integration.go:151-194 | a verdict is taken if and only if the branch is under review and the decision is approve, or reject with feedback that is not blank; otherwise nothing changes |
| Review.BlankTexts | internal/integration/integration.go:142-160 | a visible character makes a text not blank; spaces, tabs and line ends alone are blank |
| Review.SpacesAre | internal/integration/integration.go:142-160 | white space is the 25 characters of that Unicode property |
| Review.AskedIff | internal/integration/integration.go:94-108 | a request is taken if and only if the branch is a safe ref, letter by letter; otherwise nothing changes |
| Review.SweepFreesClaims | internal/integration/store.go:256-282 | after a sweep no dead session has a claim, its branches wait again with holder and title kept, and every other row is as it was |
| Review.CollectedIff | internal/integration/store.go:284-325 | a collection keeps exactly the branches under review, the decided ones of the last hour and the waiting ones of the last day, unchanged |
| Review.ChangesAreStamped | internal/integration/store.go:117-282 | whatever changes a row stamps it with the reading of the call, and its creation time stays |
| Review.VerdictsAreSeparated | internal/integration/store.go:168-196 | between any two verdicts on a branch there is a request of it and, later, a claim of it |
| Review.ClaimsAreExclusive | internal/integration/store.go:152-166 | between any two claims of a branch there is a request of it or the first claimer's death |
| EventLog.PolledFacts | internal/integration/events.go:51-112 | a poll hands over authorized events of the log beyond the cursor, in id order, at most as many as asked for |
| EventLog.NeverTwice | internal/integration/events.go:51-127 | a consumer's deliveries have strictly ascending ids, whatever filters, limits, authorization changes and collections occur |
| EventLog.SteadyLogIsInitialSegment | internal/integration/events.go:51-127 | with one filter, unchanging authorization and no collection the polls joined are exactly the authorized events up to the cursor, and all of them after a poll that was not full |
| EventLog.OwnBranchIsComplete | internal/integration/integration.go:246-271 | a session watching its own branch needs no assumption on authorization: it receives an initial segment of what integrators told it, and all of it after a poll that was not full |
| EventLog.PolledIsAuthorized | internal/integration/integration.go:246-271 | a session is handed an event only if it is addressed to all integrators and the session is named, or concerns its own branch or one whose row it holds; and only within the filter |
| EventLog.ShortPollHasAll | internal/integration/integration.go:246-271 | a poll that was not full hands over every such event beyond the cursor |
| EventLog.RequestReachesIntegrators | internal/integration/integration.go:94-108 | a request is the one event of the next unfiltered poll of every integrator that had caught up |
| EventLog.NewsReachesHolder | internal/integration/integration.go:113-194 | a claim or a verdict is the one event of the next poll of the branch's holder, filtered or not, if it had caught up |
| EventLog.RequeuesReachIntegrators | internal/integration/integration.go:214-228 | the requeued branches of a sweep are what an integrator that had caught up is handed next, in their order, up to the limit |
| EventLog.EventsForADay | internal/integration/events.go:129-132 | a collection keeps exactly the events of the last day |
| EventLog.PassedForGood | internal/integration/events.go:114-122 | what a cursor has passed is never delivered afterwards |
| EventLog.MixedFiltersSkip | internal/integration/events.go:67-76 | on every log, a poll passes an event beyond the cursor without delivering it if and only if it delivers a younger one and the event does not get through the filter or the authorization of that poll |
| EventLog.FilterSkipsOlder | internal/integration/events.go:67-76 | an instance: a poll for one branch passes the older event of another branch that is addressed to the session as well |
| EventLog.SkipIsReached | internal/integration/events.go:67-76 | five calls from an empty plane lead to such a log: the holder of two branches polls for one and the cursor passes the news of the other |
| PasteMode.ModeIsLastMark | internal/launcher/inject.go:83-90 | the mode is on exactly when some set sequence has no reset sequence after it |
| PasteMode.LatestMarkWins | internal/launcher/inject.go:75-98 | right after ESC [ ? 2 0 0 4 h the mode is on, right after ESC [ ? 2 0 0 4 l it is off, whatever came before |
| PasteMode.PasteModeTracker.Write | internal/launcher/inject.go:75-98 | after any chunk the flag is the mode of the whole output so far and the tail its last up-to-7 bytes |
| PasteMode.PasteModeTracker.WriteAll | internal/launcher/inject.go:61-98 | any split of the output into chunks gives the same flag and tail |
| PasteMode.ScanCatchesUp | internal/launcher/inject.go:80-96 | scanning the carried tail and a chunk gives the mode of the whole stream |
| Nudge.AtMostOneDeliverer | internal/launcher/nudge.go:163-200 | in every interleaving at most one deliverer runs, exactly when the flag is set |
| Nudge.NothingLostOrDuplicated | internal/launcher/nudge.go:163-200 | batches taken so far, then pending, are everything enqueued in order, and no batch is empty |
| Nudge.QuietBeforeTake | internal/launcher/nudge.go:175-200 | in every interleaving a deliverer about to take events has waited for quiet and done nothing since |
| Nudge.PendingHasADeliverer | internal/launcher/nudge.go:175-223 | until cancellation pending events have an active deliverer, and it alone takes them all in at most three steps once the input is quiet |
| Nudge.NudgeDeliveryState.Enqueue | internal/launcher/nudge.go:163-173 | the critical section is the enqueue step, and a deliverer is started exactly when none runs |
| Nudge.NudgeDeliveryState.TakeBatch | internal/launcher/nudge.go:183-191 | the critical section is the take step: all pending events, or the deliverer stops |
| Keepalive.FilterInPlace | cmd/mad-trellis/integrator.go:387-394 | filtering within the same storage keeps exactly the times not before the cutoff, in order |
| Keepalive.RunKeepalive | cmd/mad-trellis/integrator.go:347-423 | outcome, parks and sleeps of the whole loop, with storage for three failures |
| Keepalive.FailuresAreRecentCrashes | cmd/mad-trellis/integrator.go:376-422 | with a nondecreasing clock the failure list at each loop head is exactly the crashes since the last park within one window of the latest, at most two |
| Keepalive.ThirdRapidCrashParks | cmd/mad-trellis/integrator.go:395-405 | a crash parks the loop if and only if it is at least the third within one window since the last park |
| Keepalive.TurnTable | cmd/mad-trellis/integrator.go:355-422 | the whole turn by the crashes within one window since the last park: an orderly or signalled exit is passed on, a first crash waits one second and a second five, a third parks and only a retry goes on, and nobody goes on while another integrator holds the lease |
| Keepalive.WithinIff | cmd/mad-trellis/integrator.go:387-394 | the kept times are exactly those not before the cutoff |
| Keepalive.OnlyShortBackoffs | cmd/mad-trellis/integrator.go:376-421 | the third backoff is never used |

## Left out

- SQLite, WAL, JSON-RPC, sockets, process and PTY handling: driver and operating-system behaviour. A SQL
  statement is one atomic step on a table.
- Running git and parsing its output: tips, merge-tree, commit-tree, is-ancestor and update-ref are specified
  on commit values; merge-tree is an arbitrary deterministic function.
- Agents that push a branch built on a merge commit that never landed: `TrunkSerial` and `TrunkAborted` assume
  they do not. `TrunkSafety` does not need the assumption.
- Git.CommitMerge: git commit-tree drops a duplicate parent, so a branch whose commit is the trunk tip itself
  gives a merge with one parent; in the model it has that parent twice.
- Integrator.Integrator.Promote: the lease's answer is a parameter, and of the git errors only the gate's is a
  case of its own; in the machine any call may stop at any step, which covers the others. Reading the
  trunk tip and testing ancestry against it is one step, because commits do not change.
- Integrator.Integrator.Status: the store never deletes rows, so the branch for a row that vanished between two
  reads of one call is not modelled.
- Reason strings and audit records.
- Ledger.Ledger.Acquire: one call is one atomic step with one clock reading; statement-level interleaving of two
  acquires is not modelled, and acquired_at, the read-only listings and session tokens are left out.
- Frame.Reader.ReadFrame: which error a failure reports (end of file, truncation, unknown type, length) is not
  told apart in the method; the decoding function it is proved against does.
- Stream ids stop at 2^32 instead of wrapping around.
- Closing a stream's flag and its connection is one step; a Read or Write already under way at that moment ends
  as one that failed.
- Demultiplexer.Demultiplexer.DispatchData: which ready case a select takes when a stream with room is already
  closed is the parameter pick.
- A goroutine that exits is a goroutine that takes no further step; exits of the writer and the demux loops
  happen after shutdown only, so progress is claimed while both ends are open.
- Request and event timestamps inside one sweep share one clock reading; the holder column copied into a delivered
  event, the pending and list queries and audit payloads are left out.
- ptyInjector, the nudge texts, liveness scanning, presence checks and the watch surface: they would only add
  easy members.
- Keepalive.RunKeepalive: child exits, prompts and the inspection of the lease are a finite script; a loop whose
  script has run out is still running.
