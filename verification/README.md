# Current, verified

A Dafny model of the hardest parts of Current, a C++ library of immutable streams, storage, and
dataflow, and proofs about it. `dafny verify dfyconfig.toml` checks everything.

**Streams, replication and the master flip** (`StreamLog`, `Chunks`, `Replica`, `Subscription`,
`PubSub`, `ServedRange`, `PeriodLimit`, `Replication`, `Flip`, `Controller`, `Group`, `GroupSafety`, `GroupHandler`,
`GroupRuns`, `Backoff`, `TextCodec`).
A stream is an append-only log with strictly increasing timestamps and a HEAD that may run ahead of
the last entry. A master publishes into it. Followers receive it as bytes that are cut anywhere, over
connections that break anywhere. A flip makes a follower the master: the old master gives its
publisher up and answers with what the follower lacks. `Group` is the transition system of any number
of nodes, with chains of followers and flips that are passed on along the chain. `GroupSafety` proves
that in every reachable state there is at most one master and everyone else holds a faithful copy.
`GroupRuns` proves what runs achieve: that a session makes a follower equal to what it follows, and
exactly when a flip is granted. `GroupHandler` ties the steps of the group to the request handler of one controller. `TextCodec` is a
serialization that meets what the proofs assume of the one in use.

**CompactTSV** (`CompactTsv`, `CompactTsvSize`). The packer and the unpacker, byte by byte.

**The NLP schema combinators** (`Nlp`, `NlpEval`, `NlpMeaning`, `NlpLaws`, `NlpBrackets`). `Results` says what a block means, as a
list. `Eval` is the evaluator of the source, with continuations and with exceptions to leave early.
`Yields` says what a block matches, with no lists at all. Exceptions are told apart by the C++ type of the block that throws them, which is what `Shape` stands
for.

**The profiler** (`Profiler`, `ProfilerTime`, `ProfilerReport`). The history of what a thread did
determines how long it was in each scope. The report is proved to say just that.

**Transactions** (`Journal`, `Transactions`). The undo log of a transaction against the log that is
persisted.

**RipCurrent** (`RipCurrent`). The counters by which the end of a flow waits for its messages, under
every interleaving of the emitting threads and the consumer.

Places where the code does not do what its comments or its own assertions say:

- The root of a profiled thread is stamped after the first scope was entered, so the report's
  assertion that subscopes take no longer than their parent fails for the root of a thread that is
  still in the scope it entered first. `RootAddsUpExactlyIfIdle` gives the exact condition.
- The message queue is a set ordered by timestamp alone. A message with the timestamp of one that is
  still queued is silently lost, but was counted, so the wait at the end never ends.
  `CountersTellExactlyWithoutClashes` gives the exact condition.
- A `Map` into `Unit` can emit several `Unit`s, and the order of evaluation that the comments call
  irrelevant then shows. `OrderIsHarmlessExactly` gives the exact condition.
- An array that is limited by `period` is not closed if a HEAD update ends it. `HeadLeavesArrayOpen` is
  an example, and `ArrayIsClosedExactlyByAnEntry` gives the exact condition.
- The parameter `since` is ignored when `recent` is given, although the comments say that limits are
  combined. `SinceIsIgnoredWithRecent` gives the exact condition.
- The comment in the flip handler says that a client whose next index is not the one its HEAD implies
  will not accept the diff. `MismatchedDiffIsTaken` shows one that does, and
  `MismatchIsRejectedExactlyIfBehind` gives the exact condition.

## Model

| member | source | states |
|---|---|---|
| StreamLog.FirstAt | blocks/persistence/memory.h:244-255 | the search by timestamp: everything before the result is earlier, the result is not |
| StreamLog.Persister.PublishEntry | blocks/persistence/memory.h:155-167 | accepted exactly ahead of the HEAD; then one entry more and the HEAD on it, otherwise no change; earlier states stay faithful copies |
| StreamLog.Persister.PublishUnsafe | blocks/persistence/memory.h:170-189 | the raw-line form is accepted exactly if, besides, the index it carries is the size of the log |
| StreamLog.Persister.AdvanceHead | blocks/persistence/memory.h:192-201 | accepted exactly ahead of the HEAD, adds no entry |
| StreamLog.GrowsTransitive | stream/stream.h:57-60 | a faithful copy of a faithful copy is a faithful copy |
| Chunks.ChunkingIndependence | stream/replicator.h:128-167 | the records and the carry depend on the bytes received, not on how they were cut, empty chunks included |
| Chunks.FeedFindsTheRuns | stream/replicator.h:128-167 | the records are exactly the terminated maximal runs without line breaks, the carry the unterminated tail |
| Chunks.EveryStreamIsWellCut | stream/replicator.h:128-167 | every byte string decomposes into such runs and gaps, so the previous row covers all inputs |
| Replica.RemoteStreamSubscriber.PassEntryToSubscriber | stream/replicator.h:178-236 | parses a line, checks its index, and publishes it or moves the HEAD, or rejects it with no change |
| Replica.RemoteStreamSubscriber.PassChunkToSubscriber | stream/replicator.h:128-167 | the scanning loops pass on exactly the records of the chunk appended to the carry, and keep its carry |
| Replica.NextBreak | stream/replicator.h:134-159 | the first line break from a position on, or the end |
| Replica.SkipBreaks | stream/replicator.h:150-155 | skips line breaks without losing a record |
| Replica.ReceivedBytesAreWholeLines | stream/replicator.h:128-167 | any number of bytes of a feed is a number of whole lines and a proper part of the next |
| Replica.RecordsAreLines | stream/replicator.h:178-236 | taking rendered lines is taking the lines |
| Replica.ChunksDeliverLines | stream/replicator.h:128-236 | any way to cut any part of a feed hands the follower a number of its lines, in order, and nothing else |
| Subscription.PassEntriesToSubscriber | stream/stream.h:339-378 | passes the entries of a range in order until the subscriber is done |
| Subscription.PassRound | stream/stream.h:386-415 | one round of the thread: new entries, then the HEAD if it is ahead of them, as `Round` says, of which the next rows state what is passed and in which order |
| Subscription.ThreadImpl | stream/stream.h:380-416 | under any schedule of publishes, what was passed is the log from the first index on, in order; if the subscriber never stops, it reaches the end of the log and the HEAD that were observed last |
| Subscription.SnapshotsObserve | stream/stream.h:384-392 | the states that the rounds look at are those of a growing stream |
| Subscription.RoundKeepsOrder | stream/stream.h:386-415 | a round delivers the log on from where the thread was, in order, and keeps the thread in step |
| Subscription.RoundsKeepOrder | stream/stream.h:380-416 | so do all rounds together, while the stream grows between them |
| Subscription.RoundsPassEverything | stream/stream.h:380-416 | everything observed is passed: all entries, and the last HEAD, if the log has reached the first index and the HEAD the first timestamp |
| Subscription.InOrderMeans | stream/stream.h:339-416 | what in order means: timestamps strictly increase, the entries are the log with no gap or repeat, and a HEAD is passed after all entries up to it |
| Subscription.EveryScheduleDeliversInOrder | stream/stream.h:339-416 | in every run, wherever it stops, the subscriber has seen the log from its first index on, in order |
| PubSub.PubSubHTTPEndpoint.constructor | stream/pubsub.h:237-262 | starts to serve later if `recent` or `since` is given, and counts down from `n` |
| PubSub.PubSubHTTPEndpoint.OnParsedEntry | stream/pubsub.h:269-342 | the response to a parsed entry, with its bytes, the array framing, and the state it leaves |
| PubSub.PubSubHTTPEndpoint.PassParsedEntry | stream/pubsub.h:269-333 | the same without the closing of the array |
| PubSub.PubSubHTTPEndpoint.Send | stream/pubsub.h:302-332 | what is common after the text is built: size, array separators, `stop_after_bytes`, `n`, `nowait` |
| PubSub.PubSubHTTPEndpoint.OnRaw | stream/pubsub.h:344-432 | the response to a raw line |
| PubSub.PubSubHTTPEndpoint.PassRaw | stream/pubsub.h:344-422 | the same without the closing of the array, although the timestamp is parsed only when needed |
| PubSub.PubSubHTTPEndpoint.CurrentUs | stream/pubsub.h:349-356 | the timestamp, parsed now or before |
| PubSub.PubSubHTTPEndpoint.OnHeadUpdate | stream/pubsub.h:434-456 | the response to a HEAD update |
| ServedRange.StepsAgree | stream/pubsub.h:269-432 | one raw line and the record it serializes have the same effect |
| ServedRange.FormsBisimulate | stream/pubsub.h:269-432 | over every run the raw and the parsed subscriber keep the same state, answer the same, and send the same bytes |
| ServedRange.TerminationEnds | stream/pubsub.h:269-274 | told to terminate, the endpoint ends at once and sends no line any more |
| PeriodLimit.PeriodEndsTheResponse | stream/pubsub.h:434-456 | over every run of entries and HEADs: what is sent is what is let through within the period, and the first line after it, entry or HEAD, ends the response |
| PeriodLimit.ArrayIsClosedExactlyByAnEntry | stream/pubsub.h:304-311 | the same for an array: only entries are sent, as its elements, and it is closed exactly if an entry ends the response |
| PeriodLimit.HeadLeavesArrayOpen | stream/pubsub.h:448-450 | an array that is begun and never closed |
| ServedRange.SelectBegin | stream/stream.h:547-570 | where the subscription begins, for `tail`, `recent`, `since` and `i` |
| ServedRange.ServeDataViaHTTP | stream/stream.h:547-600 | a `nowait` request is answered with exactly the range of entries asked for, framed, or with no content exactly if the subscription would begin at the end |
| ServedRange.OneMoreEntry | stream/pubsub.h:269-342 | the endpoint sends an entry exactly if it is in the range, and ends exactly where the range ends |
| ServedRange.RunServesTheRange | stream/pubsub.h:252-342 | the run sends exactly the contiguous range from the start by index, tail and time, cut by `n`, `period` and `stop_after_bytes`, and ends by itself |
| ServedRange.SinceIsIgnoredWithRecent | stream/pubsub.h:47-63 | the code starts where the comments say exactly if `recent` is absent, or no entry that the index, the tail and `recent` admit is older than `since` |
| ServedRange.RecentAndSinceDisagree | stream/pubsub.h:252-258 | a request and a log where it does not |
| Replication.ResumesAtFollowerSize | stream/replicator.h:287-318 | after any disconnect, the index and the time that the follower asks from make the server resume at exactly the follower's size |
| Replication.ConnectOk | stream/stream.h:547-570 | a connection may be opened at any moment and starts in step |
| Replication.ServerRoundOk | stream/stream.h:380-416 | whatever the server's thread does, what it has sent stays the continuation of what the follower has |
| Replication.EndpointSendsTheBytes | stream/pubsub.h:252-285 | the endpoint, asked as a follower asks, lets through everything from the first line the follower needs |
| Replication.TakesExactlyTheNext | stream/replicator.h:178-236 | in both modes, whoever sends it, the follower takes exactly the next entry or a HEAD, ahead of its own HEAD, and appends just that |
| Replication.TakeLineOk | stream/replicator.h:178-236 | of the lines sent in order the follower can reject only a HEAD that is not ahead of its own |
| Replication.TakeLinesOk | stream/replicator.h:178-236 | after any number of lines the follower is a faithful copy, and what follows is still the continuation |
| Replication.ReceiveOk | stream/replicator.h:128-236 | whatever bytes arrive, the follower appends only missing entries and never a truncated line, and the connection stays in step |
| Replication.OneSessionCatchesUp | stream/replicator.h:240-318 | one undisturbed session makes any follower equal to its upstream |
| Replication.LevelMeansEqual | stream/replicator.h:178-236 | a faithful copy with the same HEAD is the same stream |
| Flip.ValidationMeans | stream/replicator.h:642-665 | the two unlocked reads pass exactly if the client's next index is where its HEAD splits the log, although entries may be published in between |
| Flip.ValidationLasts | stream/replicator.h:642-665 | it then stays so, whatever is published before the publisher is taken |
| Flip.ClientTakesDiff | stream/replicator.h:650-665 | the client takes a diff exactly if no entry at or after its next index is stamped at or before its HEAD |
| Flip.MismatchIsRejectedExactlyIfBehind | stream/replicator.h:651-665 | a client takes a diff exactly if its next index is not below the one its HEAD implies, so a mismatch is rejected exactly if it is below |
| Flip.MismatchedDiffIsTaken | stream/replicator.h:651-665 | a client that fails the validation because of a mismatch and would take the diff |
| Flip.WholeBodyIsLines | stream/replicator.h:411-421 | the body of the response is taken whole, with nothing carried over |
| Flip.ValidateAndSendDiff | stream/replicator.h:728-769 | answers exactly if the entries to send, their bytes and the distance between the HEADs are within the limits, a client with no entries being exempt from the first; then with exactly the entries missing and the HEAD |
| Flip.FlipTransfersEverything | stream/replicator.h:627-769 | a validated client that takes the response has every entry and the HEAD of the stream as it was given up, and equals it exactly if it was a copy before |
| Controller.MasterFlipController.constructor | stream/replicator.h:530-532 | a new controller masters its stream |
| Controller.MasterFlipController.ExposeViaHTTP | stream/replicator.h:543-564 | exposed once, with a delay of one second for the first wrong key |
| Controller.MasterFlipController.FollowRemoteStream | stream/replicator.h:577-602 | gives the publisher to the follower, or restores it if the remote stream does not respond |
| Controller.MasterFlipController.ConcludeFlip | stream/replicator.h:830-843 | takes the response and becomes the master, or subscribes again |
| Controller.MasterFlipController.FlipToMaster | stream/replicator.h:604-614 | refused to a master and to who follows nobody, otherwise concluded as above |
| Controller.MasterFlipController.CheckUnderLock | stream/replicator.h:667-700 | granted exactly if exposed, the publisher not given up, not blocked, the clock near, nobody followed, and the key right; passed on exactly if so and another node is followed; and the wrong-key delay |
| Controller.MasterFlipController.GiveUp | stream/replicator.h:706-718 | takes the publisher and answers with the diff, or gives it back |
| Controller.MasterFlipController.MasterFlipRequest | stream/replicator.h:627-726 | the whole handler, with the flip passed on to the node followed; at a node that follows nobody, a diff is sent exactly to a validated request that is granted and within the limits |
| Controller.AnsweredExactly | stream/replicator.h:627-726 | exactly when the handler answers with a diff, with which, and that a master that refuses stays the master |
| GroupSafety.PublishOk | stream/stream.h:202-264 | a master that publishes keeps every copy faithful and every validated request valid |
| GroupSafety.ConnStepOk | stream/replicator.h:240-318 | so do connecting, serving, delivering and disconnecting anywhere |
| GroupSafety.FollowOk | stream/replicator.h:577-602 | so does following, whether the remote stream responds or not |
| GroupSafety.LockOk | stream/replicator.h:667-700 | so do the checks under the lock, with refusals and with requests passed on |
| GroupSafety.GrantOk | stream/replicator.h:706-718 | so does giving the publisher up, after which there is no master |
| GroupSafety.DiffMakesEqual | stream/replicator.h:411-421 | a faithful copy that takes the diff is the very stream given up, and the master |
| GroupSafety.ConcludeWithoutResponse | stream/replicator.h:830-843 | so does a flip that fails or whose response is lost |
| GroupSafety.ConcludeWithResponse | stream/replicator.h:604-614 | so does a response that arrives, which makes the client the one master |
| GroupSafety.StepOk | stream/replicator.h:577-614 | every step keeps the invariant |
| GroupSafety.EveryRunIsSafe | stream/replicator.h:577-726 | the invariant holds in every state a group can reach |
| GroupSafety.OneMasterAndFaithfulCopies | stream/replicator.h:577-614 | in every reachable state at most one node is master, every log is a prefix of the authoritative one, no HEAD is ahead, and no entry at or below a follower's HEAD is missing from it |
| GroupSafety.FlipHandsOverExactly | stream/replicator.h:627-769 | in every run, the response makes its client the one master, with exactly the entries and the HEAD the old master had when it gave its publisher up |
| GroupSafety.GivingTakesThePublisher | stream/replicator.h:706-718 | what is handed over is the stream at the moment of giving, and from then on nobody can publish |
| GroupHandler.FailedValidationIsTheHandler | stream/replicator.h:642-665 | a request that fails validation in a group is refused as the handler refuses it |
| GroupHandler.LockAndGiveAreTheHandler | stream/replicator.h:667-718 | at a node that follows nobody, the steps of the group leave the node and answer as the handler does |
| GroupHandler.ForwardingIsTheHandler | stream/replicator.h:686-718 | at a node that follows another, so do the steps before and after the inner request, whatever happens to the rest of the group in between |
| GroupRuns.FlipIsGrantedExactly | stream/replicator.h:604-726 | from any reachable state, all steps of a flip make the follower the master, with the master's stream, exactly if it has the key and neither a block nor a restriction is in the way; otherwise every node keeps its part and its stream |
| GroupRuns.FlipIsPassedOn | stream/replicator.h:686-718 | asked of a follower, the flip is passed on with the key, and ends with the one who asked first as the master, with the master's stream |
| GroupRuns.SessionCatchesUp | stream/replicator.h:240-318 | from any reachable state, one session makes a follower that is not ahead equal to its upstream, and changes no other node |
| GroupRuns.PublishedReachesFollower | stream/stream.h:380-416 | what the master publishes is what a follower then holds |
| GroupRuns.HeadReachesFollower | stream/stream.h:380-416 | so is the HEAD that the master moves to |
| GroupRuns.FlipFromTheStart | stream/replicator.h:543-726 | exposed, joined and asked with the key, the new node is the master of the same stream; with another key it is not |
| GroupRuns.FollowingBegins | stream/replicator.h:577-602 | a node told to follow keeps its stream, is no master, and waits for a connection |
| GroupRuns.FailedFollowChangesNothing | stream/replicator.h:591-601 | an attempt to follow that fails changes nothing in any reachable state |
| TextCodec.TextIsFaithful | stream/replicator.h:178-236 | the assumptions about the serialization can be met |
| Backoff.OnlyWrongKeysCount | stream/replicator.h:672-700 | blocked attempts, and all but those that fail on the key, change nothing |
| Backoff.DelayDoubles | stream/replicator.h:695-700 | the delay after each wrong key, and the time between one wrong key and the next |
| Backoff.GuessingIsSlow | stream/replicator.h:672-700 | wrong key number k+1 that reaches the comparison comes at least 2^k - 1 seconds after the first |
| CompactTsv.CompactTSV.constructor | compact_tsv/compact_tsv.h:117-120 | an empty packer of the given width |
| CompactTsv.CompactTSV.Store | compact_tsv/compact_tsv.h:236-245 | appends a record of the string and returns its address; fails exactly if it is not addressable |
| CompactTsv.CompactTSV.PackCell | compact_tsv/compact_tsv.h:132-139 | writes a cell exactly if it changed, interning its string |
| CompactTsv.CompactTSV.PackRow | compact_tsv/compact_tsv.h:122-143 | packs a row, unless the bytes would no longer be addressable |
| CompactTsv.Unpack | compact_tsv/compact_tsv.h:156-192 | the pointer-advancing loop: the rows read, or the failed assertion, and their count; reads nothing outside of the bytes |
| CompactTsv.U16RoundTrip | compact_tsv/compact_tsv.h:168-168 | a length is read back |
| CompactTsv.U32RoundTrip | compact_tsv/compact_tsv.h:183-183 | an offset is read back |
| CompactTsv.ScanOnLonger | compact_tsv/compact_tsv.h:162-190 | what was unpacked stays so when more is appended |
| CompactTsv.PutRowHolds | compact_tsv/compact_tsv.h:122-143 | one more row packed is one more row unpacked, with every interned string in its place |
| CompactTsv.RoundTrip | compact_tsv/compact_tsv.h:122-192 | unpacking the packed bytes of any table gives exactly its rows, in order |
| CompactTsv.PackAndUnpack | compact_tsv/compact_tsv.h:117-192 | the same of the objects: fails exactly if the bytes would not be addressable, otherwise gives the rows and their number |
| CompactTsvSize.PackedSize | compact_tsv/compact_tsv.h:132-142 | each distinct string is stored once; the size is the strings' lengths plus 4 each, 5 per changed cell, and 1 per row |
| CompactTsvSize.OffsetsAreAddresses | compact_tsv/compact_tsv.h:236-253 | every offset in the table is where its string is stored; no two strings share one |
| NlpEval.EmitOnceEmitsOnce | nlp/nlp.h:117-130 | the signal thrown after the first `Unit` stops all others and is caught by its own handler |
| NlpEval.EvalIsResults | nlp/nlp.h:111-497 | for every block and window, and whatever waits for the results: the evaluator hands over exactly the results in order, up to where the receiver throws; no signal is caught by the wrong handler |
| NlpEval.SplitsAreResults | nlp/nlp.h:298-412 | the same for the loop over the splits of a sequence |
| NlpEval.MatchQueryIntoVector | nlp/nlp.h:633-642 | collects exactly the results, in order |
| NlpEval.JustMatchQuery | nlp/nlp.h:645-663 | the first result, or nothing exactly if there is none |
| NlpMeaning.ResultsAreWhatIsYielded | nlp/nlp.h:111-497 | for every block and window, the results are exactly what the block yields, which is said without lists and without an order |
| NlpMeaning.OrInOrder | nlp/nlp.h:149-167 | an `Or` gives each result of its left hand side, then each of its right hand side, converted |
| NlpMeaning.OrCommutes | nlp/nlp.h:139-190 | with its sides swapped, an `Or` gives the same results equally often |
| NlpMeaning.AndInOrder | nlp/nlp.h:275-285 | an `And` gives every pair once, the right hand side varying fastest |
| NlpMeaning.LeftmostSplitFirst | nlp/nlp.h:298-412 | the first result of a sequence is that of the leftmost split at which both sides match |
| NlpMeaning.FilterOfOr | nlp/nlp.h:478-497 | filtering an `Or` is filtering its sides, order included |
| NlpMeaning.FilterSplits | nlp/nlp.h:478-497 | what a filter keeps and what the opposite filter keeps is everything, equally often |
| NlpMeaning.MapInOrder | nlp/nlp.h:456-476 | a `Map` converts each result, in order |
| NlpLaws.UnitsAreEmittedOnce | nlp/nlp.h:346-412 | a `Unit` block emits at most once, unless it is a leaf or a `Map` that does otherwise |
| NlpLaws.OrderIsHarmlessExactly | nlp/nlp.h:354-365 | with a `Unit` on the right, trying the right hand side first gives the same sequence as trying the left hand side first exactly if at every split the right hand side yields at most one `Unit`, or what the left hand side yields is all the same |
| NlpLaws.RightFirstIsLeftFirst | nlp/nlp.h:354-365 | so it does, order included, for every right hand side but a leaf or a `Map` that emits more than once |
| NlpLaws.MapIntoUnitIsNotOnce | nlp/nlp.h:456-476 | a schema where it does not |
| NlpLaws.DirectionKeepsResults | nlp/nlp.h:298-344 | `<<` and `>>` yield the same results equally often, and in the same order if a side is a `Unit` |
| NlpLaws.Find | nlp/nlp.h:298-412 | each result of a sequence comes from a way to split the window |
| NlpLaws.Has | nlp/nlp.h:298-412 | each way to split the window gives a result |
| NlpLaws.BracketingKeepsTheSet | nlp/nlp.h:298-412 | both bracketings of three blocks yield the same set of flattened results, with `Unit`s or without |
| NlpLaws.BracketingKeepsTheCounts | nlp/nlp.h:298-320 | without `Unit`s, each equally often |
| NlpBrackets.ReplaceKeepsTheSet | nlp/nlp.h:298-412 | in a sequence, blocks may be replaced by blocks with the same set of results |
| NlpBrackets.ReplaceKeepsTheCounts | nlp/nlp.h:298-320 | the same for blocks that yield each result equally often |
| NlpBrackets.AnyBracketsKeepTheSet | nlp/nlp.h:298-412 | any two bracketings of any list of blocks, with `>>` and `<<` in any mixture, yield the same set of results in every window |
| NlpBrackets.AnyBracketsKeepTheCounts | nlp/nlp.h:298-344 | without `Unit`s, each equally often |
| Profiler.PerThread.EnterScope | profiler/profiler.h:187-198 | the scope under the top of the stack is entered now, created if it is new, with one entry more; it becomes the top |
| Profiler.PerThread.LeaveScope | profiler/profiler.h:200-214 | the top of the stack gets the time since it was entered, is no longer entered, and is popped |
| Profiler.PerThread.RecursiveReset | profiler/profiler.h:101-110 | every scope, the root included, has no time and one entry, and those entered are entered now; the stack stays |
| Profiler.FillNode | profiler/profiler.h:146-171 | the entry of one node with everything below it, and whether any assertion made on the way fails |
| ProfilerTime.TrieTellsTime | profiler/profiler.h:83-111 | after every history the trie holds exactly the scopes entered, the entered ones are those on the stack, and each shows its entries and the time the thread was in it since the last reset |
| ProfilerTime.TimeIsConserved | profiler/profiler.h:146-171 | the time in a scope is its own time and the times in its subscopes |
| ProfilerReport.ReportIsExact | profiler/profiler.h:132-183 | looking up any path in the report: there is an entry exactly if the scope was entered; it shows how often, and for how long the thread was in it, which is its own time and what the report shows for its subscopes |
| ProfilerReport.EveryScopeIsReported | profiler/profiler.h:146-171 | no assertion about any scope but the root can fail, in any report of any history |
| ProfilerReport.RootAddsUpExactlyIfIdle | profiler/profiler.h:163-167 | for the root it holds exactly after a reset, or if the thread was in no scope for at least as long as the root's clock was late |
| ProfilerReport.FirstScopeOutlastsRoot | profiler/profiler.h:114-118 | it fails for a thread that is still in the scope it entered first |
| Journal.MutationJournal.LogMutation | storage/base.h:198-202 | both logs grow by one |
| Journal.MutationJournal.Rollback | storage/base.h:208-213 | undoes the last first, and leaves the journal empty |
| Journal.MutationJournal.Clear | storage/base.h:215-221 | leaves the journal empty |
| Journal.Dictionary.Add | storage/container/dictionary.h:82-111 | the key now holds the object and the time, and nothing else changes; logs the event that would do the same, and an undo for each of the three cases |
| Journal.Dictionary.Erase | storage/container/dictionary.h:113-128 | a present key is gone, with the time; nothing at all for a missing key |
| Journal.Dictionary.Undo | storage/container/dictionary.h:91-106 | the rollback functions |
| Journal.Dictionary.Update | storage/container/dictionary.h:168-176 | the event handlers: the key of an update holds its object, that of a deletion is gone, with the time |
| Journal.UndoUndoesPut | storage/container/dictionary.h:82-111 | the undo restores the fields, the time of the last modification included |
| Journal.UndoUndoesRemove | storage/container/dictionary.h:113-128 | the same for an erasure |
| Journal.LastWriteWins | storage/container/dictionary.h:168-176 | after any events, a key holds what the last event about it says, and so does its time |
| Journal.EffectsWrite | storage/container/dictionary.h:82-128 | after any operations of a transaction, the last one on a key decides what it holds |
| Journal.MetaIsTheLastSet | storage/base.h:242-248 | a meta field of a transaction is what it was last set to, unless erased since |
| Transactions.Synchronous.RunBody | storage/transaction_policy.h:72-76 | whatever the body does, the fields are the replay of the commit log, and undoing the rollback log gives the fields from before |
| Transactions.Synchronous.PersistJournal | storage/persister/stream.h:120-139 | persists the commit log unless it is empty, and leaves the journal empty |
| Transactions.Synchronous.Transaction | storage/transaction_policy.h:61-101 | commits exactly if the body returns and the storage does not shut down; then the last operation on a key decides what it holds, and the transaction is persisted; otherwise fields and log are as before; the journal is empty again |
| Transactions.Synchronous.ReadOnlyTransaction | storage/transaction_policy.h:103-137 | changes nothing |
| Transactions.FieldsAreTheReplay | storage/transaction_policy.h:287-304 | over every run the fields are the replay of all persisted transactions |
| Transactions.FieldsAreTheLastWrites | storage/transaction_policy.h:287-304 | over every run, each key holds what the last persisted event about it says |
| Transactions.UncommittedLeavesNoTrace | storage/transaction_policy.h:61-176 | a run with a transaction that does not commit ends like the run without it |
| Transactions.SyncReplayStream | storage/persister/stream.h:181-197 | replaying the stream, from the start or from where one stopped, gives the fields of the storage that wrote it |
| RipCurrent.MMPQ.Publish | blocks/mmq/mmpq.h:76-87 | inserts by timestamp, exactly if none with that timestamp is queued |
| RipCurrent.MMPQ.UpdateHead | blocks/mmq/mmpq.h:91-99 | accepted exactly ahead of the last one |
| RipCurrent.InsertMeans | blocks/mmq/mmpq.h:130-141 | what the ordered set does with an entry |
| RipCurrent.StepKeeps | ripcurrent/ripcurrent.h:711-776 | every step keeps every message in exactly one place, and the counters equal to the number of messages there |
| RipCurrent.WaitEndsOnlyWhenDone | ripcurrent/ripcurrent.h:711-713 | in every interleaving, if the counters agree then nothing is on its way, and every message was handled or refused |
| RipCurrent.CountersTellExactlyWithoutClashes | ripcurrent/ripcurrent.h:747-760 | the counters agree exactly when nothing is on its way, as long as no message was published with the timestamp of a queued one; after that they never agree |
| RipCurrent.TwoForTheSameTime | ripcurrent/ripcurrent.h:727-736 | two messages scheduled for one time: everything comes to rest, and the counters disagree |
| RipCurrent.RefusedExactlyIfNotLater | ripcurrent/ripcurrent.h:715-725 | in every interleaving, the messages refused are exactly those emitted with a time not later than any time tried before |
| RipCurrent.EarliestDueFirst | blocks/mmq/mmpq.h:107-124 | the message handed over next is due, and no queued one is due before it |

## Left out

- HTTP itself, JSON, and schemas: a record is an opaque non-empty line without breaks, encoded injectively; the codec is a parameter.
- Liveness: that anything is ever delivered, retried or woken up. All results about concurrent runs are safety.
- More than one flip at a time in a group. A flip may be passed on along a chain of followers, but only one is started at a time, and its requester is blocked.
- `StopExposingViaHTTP`, the callbacks of a flip, and the endings of HTTP subscriptions.
- Following a stream outside of the group, and publishers taken from a stream by anyone but its controller.
- Two calls of `FollowRemoteStream` at once on one node: the source looks for a follower before it takes the lock, the model in the same step.
- The order in which C++ evaluates the arguments of the constructor in `FollowRemoteStream`: the publisher is taken first in the model.
- Wrap-around of 64-bit indexes, timestamps and delays. Integers are unbounded here, except in CompactTSV, where the widths of 8, 16 and 32 bits are modelled.
- The file persister: its raw lines are what the model renders.
- ServedRange.ServeDataViaHTTP: only `nowait` requests over a log that does not grow meanwhile; `tail=0` then means the end of the log.
- CompactTsv.CompactTSV.PackRow: the assertions on the shape of a row, which end the program, are preconditions.
- CompactTsv.Unpack: only the dispatcher that passes strings; little-endian byte order; a read outside of the bytes is a failure here, where the source reads on.
- Finalize and GetPackedString of CompactTSV, which only set and check a flag.
- NlpEval.EvalIsResults: the loop over split points calls itself for the next one, since its body is a continuation; the leaves are given by what they emit.
- The per-type caching of blocks in `SchemaBlock`, `AnnotateQuery`, and the macros that declare leaves.
- Profiler.PerThread.EnterScope: the stack holds the path of a scope where the source holds a pointer into the trie, and the map of subscopes is a list.
- The ratios in a profiler report, which are floating point, the order of its subscopes, its overhead counters, and threads other than one: threads share nothing but the moment of a reset.
- Transactions.Synchronous.Transaction: a failure to persist, which ends the process, is not modelled; the clock is strictly increasing. What the body reads is left open: any operations, followed by any ending.
- Two-step transactions, patches, and the containers other than the dictionary. Several fields are one dictionary whose keys carry the field.
- Storage over REST, master and following storages changing roles.
- RipCurrent.StepKeeps: the order in which messages are handled; the termination of the queue's thread.
- The combinators `|` and `+` of RipCurrent, and the routing of messages by type.
- Karl, Claire, FnCAS, the type system, and the other parts of the repository.
