# A recorder of exchange order books, modelled and proved

The repository records the public order books of a prediction market: it subscribes to a lossy, ordered
websocket, folds snapshots and deltas into in-memory books, writes everything it saw, and later rebuilds any
book offline. Its own acceptance criterion is that **the replayed book is the live book**. This project
models the recorder, the offline reader and the storage behind them, and proves that criterion and the
properties it rests on, over every input and every run.

`dafny verify dfyconfig.toml` checks the whole project with Dafny 4.11.

## What is modelled

| part | files | form |
|---|---|---|
| one book: contents, journal, hash, rewind | Values, Ordering, Arithmetic, CanonicalForm, MarketBooks | class over maps and a sequence |
| the capture protocol: sequence tracker, recovery machine, subscriptions, book manager, collector | SequenceTracker, RecoveryMachine, Subscriptions, SubscriptionRuns, BookManager, Collector | classes, each method tied to a specification function |
| whole runs of the recorder and the rows they leave | Capture, Recorder, LiveHistory, FaithfulRows | a step relation with a log of rows, and a method that drives the objects through it |
| the exchange on the other side | Exchange, StaleBook | a feed numbered consecutively and a channel that loses frames |
| offline reconstruction | Replay, Queries, ReplayEquality, ReplayAccounting, SequenceBound, StaleRows, RepeatedDeltas, VerifyReplay, Materializer, AsOf | the loops as methods over query answers |
| recordings on which a reader fails | OneMarketRun, RepeatedFrame, LateSnapshot | short legal runs, over any market |
| durability | BatchWriter, SpoolOrder, Statements, ArchiveParts, Archive, Restore | classes; databases and stores that may fail at any operation |
| views that must agree with the book | Validator, Ladder, LevelActivity | methods and classes |

A run is any sequence of subscriptions, bound sids, frames, markets joining or leaving the universe, timeouts,
full-book samples, disconnects and process restarts. A specification function such as `Handled` (one frame)
or `ReplayOf` (one replay) says what the imperative method computes; the method's `ensures` is the
connection, and the theorems are about those functions over whole runs.

## Assumptions, each stated where it is used

- Prices and sizes are exact multiples of one millionth, kept as integers (`Values.Levels`). A rewind and the
  ladder views ask for non-negative snapshot sizes (`MarketBooks.Positive`).
- Order-book messages arrive on a bound stream that carries their market, with an integer sequence number
  (`Capture.FrameAtHome`); stream ids are never reused (`Capture.Fresh`).
- The clock does not run back, one market's streams are apart in time and ranked by when they started, and two
  snapshots of one market at different positions never share a millisecond (`Queries.Spaced`). Most results on
  replay also ask that a stream's recorded numbers ascend (`Queries.Orderly`); where deltas may be repeated or
  come late, only what changed the book has to ascend (`StaleRows.OrderlyWithRepeats`).
- The exchange numbers each stream's messages consecutively, a snapshot tells the book as it is, and the
  channel may lose frames but keeps their order (`ExchangeAgreement.Truthful`, `Delivered`).
- `ExchangeAgreement.TrustedBooksAgree` alone assumes quiet recovery: a market restored while an episode is
  still open has no further delta sent before the episode closes (`RecoversQuietly`). Without it
  `TrustedBooksAgreeExactly` says when a trusted book is the exchange's.
- Disconnecting, subscribing a channel, adding markets and removing markets are one step each.
- A flush transaction and a spool append take effect entirely or not at all. Nothing enters a partition
  between its seal and its drop, and only the worker writes to the store.

## Where the code and its comments disagree

The model follows the code.

- Deltas for a market that already has its recovery snapshot are withheld until the whole episode closes,
  while its book stays `valid` (src/collector/collector.ts:545-559). `StaleAfterRecovery.TrustedButStale` is a
  run that ends so; `ExchangeAgreement.TrustedBooksAgreeExactly` is the condition, over every run: what was
  withheld cancels out.
- `toSeq` is described as an exact bound (src/replay/replay.ts:36-41). A delta past it ends the replay before
  snapshots within it are applied (`SequenceBounds.SnapshotWithinIsMissed`), and without such a delta nothing
  is bounded (`SnapshotPastIsApplied`). `SequenceBounds.BoundIsExactOnRuns` is the condition on the rows.
- The drain of trailing snapshots announces nothing (src/replay/replay.ts:511-543), so grid points between the
  last delta and such a snapshot are materialized with the later book: `LateSnapshot.RowHoldsALaterBook`.
  `AsOfSampling.AsOfExactlyWhere` is the condition on the rows.
- Deltas are placed by their number and snapshots by their receipt (src/replay/replay.ts:413-460). A repeated
  delta, skipped as not applied, still pulls every snapshot received before it, ahead of deltas with later
  numbers: `RepeatedFrame.RepeatIsReplayedTwice`. `RepeatedDeltas.RepeatsLeaveTheReplayLiveExactly` is the
  condition on what the queries return.
- A partition that is dropped and comes back with rows re-enters the pipeline (src/persistence/archive.ts:154-177)
  but its old manifests are still counted, so it is never verified again: `Archiving.DroppedDayComesBack` is
  such a pass, and `Archiving.ArchiveWorker.Run` says that nothing else keeps a partition from being verified.
- A failed spool puts its rows at the front of the buffer (src/persistence/batchWriter.ts:479-481). One is
  enough to reorder work, if something later was committed meanwhile: `SpoolOrdering.OneSpoolReorders`.
  `SpoolOrdering.OrderHoldsExactly` is the condition, over every run.
- A zero delta on a non-empty level is labelled an increase (src/book/book.ts:222-230):
  `MarketBooks.LabelsTellTheChange`.

## Model

| member | source | states |
|---|---|---|
| ReplayEquality.ReplayEqualsLive | src/replay/replay.ts:258-567 | over every legal run - snapshots, deltas, lost frames, gaps, recoveries, rejected deltas, market changes, reconnects, restarts - a replay of the recorded rows starts at a state the live book was in, then reaches exactly the (stream, seq, time, levels) positions the live book went through up to the end of the window, and never diverges |
| ReplayEquality.ReplayEndsWithTheLiveBook | src/replay/replay.ts:508-567 | a replay up to the present ends with the levels of the live book, whenever that book is valid |
| ReplayEquality.ReplayShowsTheRows | src/replay/replay.ts:398-543 | the merge of deltas (by stream start, then seq) with snapshots (by millisecond, then seq) reaches the recorded changes after the seed in the order they were written, though it orders them differently |
| RepeatedDeltas.RepeatsLeaveTheReplayLiveExactly | src/replay/replay.ts:413-506 | where the feed may repeat deltas or send them late: over every legal run the replay reaches exactly the live book's positions if and only if no delta recorded as not applied stands before one that was, yet was received after a snapshot the latter does not follow |
| RepeatedDeltas.StaleDeltasChangeNothingExactly | src/replay/replay.ts:413-506 | a replay shows what it would without the deltas recorded as not applied, and ends with the same book, under that same condition and no other |
| RepeatedFrame.RepeatIsReplayedTwice | src/replay/replay.ts:426-471 | of any market: a legal run of a snapshot, a delta, a snapshot and the delta again, whose replay may end with the delta folded twice while the live book holds it once |
| Queries.AnswersAreInWritingOrder | src/replay/replay.ts:258-308 | on an orderly recording the ORDER BY of both queries leaves no tie: any answer the database may give is the rows in the order they were written |
| LiveHistory.RowsTellTheLiveBook | src/book/bookManager.ts:152-253 | after any run a trusted book is exactly what the rows describe, and the rows' positions are, one for one, the states the live book went through |
| LiveHistory.UnreportedFramesKeepTheBook | src/book/bookManager.ts:152-253 | no frame changes the contents of a book without a row that says so |
| Recorders.Drive | src/collector/collector.ts:472-609 | the objects, driven through any events with stream ids that are new each time, return exactly the rows of a run |
| FaithfulRows.RowsAreFaithful | src/book/bookManager.ts:187-253 | in every legal run each applied delta row applies to the book the earlier rows describe, each sample repeats the last recorded position and book, and each hash is the hash of the levels beside it |
| Replaying.Replay | src/replay/replay.ts:310-567 | the seed skip, the sequence bound, the merge loop, epochs, counters, warnings and the final drain compute `ReplayOf` for any well-typed answers |
| Replaying.Reseed | src/replay/replay.ts:427-470 | a snapshot replaces the book, opens an epoch exactly when session or stream changed or a handoff, and is announced only inside the delta loop |
| Replaying.PlayDelta | src/replay/replay.ts:472-506 | a delta is skipped as recorded, folded, or reported as a divergence, which ends a strict replay |
| Replaying.NumberStreams | src/replay/replay.ts:321-328 | streams are numbered in order of first appearance among the deltas |
| ReplayAccounting.EveryDeltaIsAccountedFor | src/replay/replay.ts:472-506 | of any replay: deltas counted = applied + skipped + divergences reported, and the epochs add up to both totals |
| SequenceBounds.BoundIsExactOnRuns | src/replay/replay.ts:408-543 | over every legal run a replay bounded at (S, N) ends with the recorded book as of (S, N) if and only if its seed lies within the bound and either some delta of the window lies past it and every snapshot within it is followed by a delta within it, or none does and no change of the window lies past it; the book as of the bound was a state of the live book |
| SequenceBounds.SnapshotWithinIsMissed | src/replay/replay.ts:413-425 | of any market: snapshot 1, delta 2, snapshot 3, delta 4, bounded at 3, ends with the book of number 2 |
| SequenceBounds.SnapshotPastIsApplied | src/replay/replay.ts:508-543 | of any market: snapshot 1, delta 2, snapshot 3, bounded at 2, ends with the book of number 3 |
| ReplayAccounting.BoundStopsExactly | src/replay/replay.ts:413-425 | a bounded replay that does not diverge stops if and only if some delta the seed does not contain lies past the bound, and at the first such delta |
| ReplayAccounting.BoundWithoutLaterDeltaIsNone | src/replay/replay.ts:408-543 | where no delta of the window lies past it, a bound gives the very result of no bound |
| VerifyingReplay.VerifyReplayIsComplete | src/replay/replay.ts:600-668 | over an orderly legal run every sample in the window is checked exactly once and matches: checked = matched = number of targets, no mismatch, nothing unreached; a limit covering the samples covers them all |
| VerifyingReplay.VerifyReplay | src/replay/replay.ts:600-668 | the one-pass index over positions gives every target the same result as looking up its position in the whole replay |
| VerifyingReplay.EveryTargetCheckedOnce | src/replay/replay.ts:624-668 | whatever the replay did, checked = matched + mismatches = number of targets |
| ExchangeAgreement.TrustedBooksAgree | src/collector/collector.ts:530-570 | with quiet recoveries a valid book is the exchange's book as of its own last number, and on a healthy stream also as of the tracker's last number, with nothing arrived beyond it |
| ExchangeAgreement.LoneBooksAgree | src/integrity/sequenceTracker.ts:97-154 | the same for a market alone on its stream, with no assumption on recoveries |
| ExchangeAgreement.TrustedBooksAgreeExactly | src/collector/collector.ts:530-570 | over every legal run fed by a truthful exchange, however recoveries go: on a degraded stream a valid book is the exchange's as of its own number; on a healthy one it is the exchange's as of the tracker's number if and only if the deltas sent between the snapshot that restored it and the one that closed the episode cancel out |
| ExchangeAgreement.CompletionAgreesExactly | src/collector/collector.ts:794-839 | when the last awaited snapshot closes an episode at number q, a book restored at p agrees with the exchange at q if and only if the deltas numbered in (p, q] cancel out |
| StaleAfterRecovery.TrustedButStale | src/collector/collector.ts:545-559 | for any two markets, a legal run with a truthful exchange and one lost frame ends with a valid book on a healthy stream that is not the exchange's book |
| Capture.MachinesStayCoupled | src/integrity/recoveryStateMachine.ts:156-283 | in every reachable state the tracker is degraded iff the machine is not healthy; recovering iff an episode is open; its outstanding set is non-empty, within `affected`, and snapshotsReceived + outstanding = affected |
| Capture.NoDeltaWhileDegraded | src/collector/collector.ts:534-559 | in every reachable state a numbered delta on a degraded stream is recorded as not applied and changes no book |
| Capture.OneDiscontinuityOneEpisode | src/integrity/sequenceTracker.ts:113-153 | any two gap reports of one stream have a completed recovery between them, and a gap is only ever reported where no episode is open |
| Capture.RequestsNeverOutnumberGaps | src/collector/collector.ts:668-741 | in any run at all, gap-driven snapshot requests of a stream never outnumber its gap reports |
| SequenceTracking.AcceptedAreConsecutive | src/integrity/sequenceTracker.ts:97-154 | whatever numbers arrive, those let through are one unbroken run, at most one gap is reported until a recovery and exactly while degraded, and every message is counted under exactly one verdict |
| SequenceTracking.SequenceTracker.Register | src/integrity/sequenceTracker.ts:61-79 | a stream is created once; an existing one is untouched |
| SequenceTracking.SequenceTracker.Observe | src/integrity/sequenceTracker.ts:97-154 | result and new bookkeeping of one number, whose run-level meaning is AcceptedAreConsecutive |
| SequenceTracking.SequenceTracker.ResetAfterRecovery | src/integrity/sequenceTracker.ts:160-169 | re-baselines a known stream and returns what was skipped; the only step that lifts `degraded` |
| RecoveryMachine.StreamRecoveryMachine.OpenGap | src/integrity/recoveryStateMachine.ts:156-188 | opens one episode, or counts a withheld message when one is open |
| RecoveryMachine.StreamRecoveryMachine.MarkRecoveryRequested | src/integrity/recoveryStateMachine.ts:191-198 | moves a degraded stream with an episode to recovering, and nothing else |
| RecoveryMachine.StreamRecoveryMachine.MarkRecoveryUnavailable | src/integrity/recoveryStateMachine.ts:204-210 | drops the episode and leaves the stream degraded |
| RecoveryMachine.StreamRecoveryMachine.RecordSnapshot | src/integrity/recoveryStateMachine.ts:219-240 | an awaited snapshot shrinks the episode; the last one closes it and makes the stream healthy |
| RecoveryMachine.StreamRecoveryMachine.ReapTimeouts | src/integrity/recoveryStateMachine.ts:252-266 | exactly the timed-out episodes are removed and returned, in whatever order they are visited; their streams stay degraded |
| RecoveryMachine.StreamRecoveryMachine.Close | src/integrity/recoveryStateMachine.ts:277-283 | forgets the stream and hands back its open episode |
| Collecting.Collector.HandleFrame | src/collector/collector.ts:472-609 | classification, gating, gap handling and dispatch of one frame give the state and rows of `Handled` |
| Collecting.Collector.ClassifyFrame | src/collector/collector.ts:530-559 | the verdict decides what may pass, and the machine has the last word on deltas |
| Collecting.Collector.HandleSequenceGap | src/collector/collector.ts:668-741 | one episode per discontinuity: books of the stream invalidated, one integrity row, one request |
| Collecting.Collector.RequestRecovery | src/collector/collector.ts:720-741 | recovering if a request went out for at least one market, otherwise the episode is given up |
| Collecting.Collector.HandleSnapshot | src/collector/collector.ts:794-839 | applied whatever the verdict; re-baselines the stream only when the whole affected set is rebuilt |
| Collecting.Collector.HandleDelta | src/collector/collector.ts:842-906 | recorded either way, applied only where allowed and valid; a negative level adds an integrity row |
| Collecting.Collector.SubscribeChannel | src/collector/collector.ts:317-346 | each shard's stream is registered with tracker and machine and associated with its markets |
| Collecting.Collector.AddMarkets | src/collector/collector.ts:377-399 | nothing before the first subscription; new shards are registered, their markets not yet associated |
| Collecting.Collector.RemoveMarkets | src/collector/collector.ts:400-408 | markets leave their bound subscriptions on every channel, then their books are released |
| Collecting.Collector.HandleSubscribed | src/collector/collector.ts:618-632 | binds the server's sid to the awaiting subscription |
| Collecting.Collector.ReapStalledRecoveries | src/collector/collector.ts:213-247 | stalled episodes end, books and tracker untouched |
| Collecting.Collector.HandleDisconnect | src/collector/collector.ts:411-466 | every book invalid, no stream, subscription or episode left |
| BookManagement.BookManager.ApplySnapshot | src/book/bookManager.ts:152-178 | replaces and revalidates one book, associates it with the stream, and returns its row |
| BookManagement.BookManager.ApplyDelta | src/book/bookManager.ts:187-253 | folds only into a valid book that may be changed; the row says exactly what was sent and why it was or was not applied |
| BookManagement.BookManager.InvalidateStream | src/book/bookManager.ts:126-135 | exactly the books of the stream's markets become invalid, contents kept |
| BookManagement.BookManager.InvalidateAll | src/book/bookManager.ts:138-142 | every book becomes invalid, contents kept |
| BookManagement.BookManager.Associate | src/book/bookManager.ts:105-109 | adds the market to the stream once |
| BookManagement.BookManager.Remove | src/book/bookManager.ts:96-99 | the market's book and its place on every stream are gone |
| BookManagement.ForgettingIs | src/book/bookManager.ts:96-99 | removing markets leaves every other book and every other association as it was |
| BookManagement.BookManager.SnapshotRowOf | src/persistence/repositories/snapshots.ts:34-75 | the row of a book holds its canonical levels and the hash of exactly those |
| Collecting.Collector.Sample | src/sampling/bookSampler.ts:102-140 | a sample is the row of a book that is valid, and nothing otherwise; no book changes |
| Subscriptions.SubscriptionManager.Subscribe | src/collector/subscriptionManager.ts:75-107 | one subscription per chunk, indexed by market; an empty list still subscribes once |
| Subscriptions.SubscriptionManager.BindSid | src/collector/subscriptionManager.ts:110-133 | by command id, else the first unbound subscription of the channel |
| Subscriptions.SubscriptionManager.AddMarkets | src/collector/subscriptionManager.ts:139-166 | fills bound subscriptions in order up to the limit, then opens shards for the rest |
| Subscriptions.SubscriptionManager.RemoveMarkets | src/collector/subscriptionManager.ts:168-192 | afterwards a bound subscription of the channel carries none of the markets, and every other carrying is untouched |
| Subscriptions.SubscriptionManager.RequestSnapshots | src/collector/subscriptionManager.ts:198-220 | asks every bound carrier for every market, grouped by sid, and counts exactly that; with one carrier each and distinct markets, no market twice |
| Subscriptions.SubscriptionManager.Reset | src/collector/subscriptionManager.ts:223-230 | returns all streams and leaves nothing |
| SubscriptionRuns.IndexIsAlwaysInverse | src/collector/subscriptionManager.ts:232-244 | after any calls the index is exactly the inverse of the market sets with no empty entry, and no shard exceeds its limit |
| SubscriptionRuns.MarketsAreCarriedOnce | src/collector/subscriptionManager.ts:139-166 | after any calls naming markets once each and subscribing none already carried, every market has at most one carrier on the channel |
| Subscriptions.AddingCarriesOnce | src/collector/subscriptionManager.ts:139-166 | adding distinct markets leaves each requested one carried, by exactly one subscription, within the limit |
| Subscriptions.ChunksPartition | src/collector/subscriptionManager.ts:246-251 | chunks hold every item exactly once |
| MarketBooks.MarketBook.ReplaceWithSnapshot | src/book/book.ts:159-180 | the only way to valid: contents, position and times of the snapshot, history emptied |
| MarketBooks.MarketBook.ApplyDelta | src/book/book.ts:194-244 | folds and journals, or refuses below zero and invalidates; never clamps |
| MarketBooks.LabelsTellTheChange | src/book/book.ts:222-230 | the label of a change that applies says what became of its level if and only if the change is not zero; a zero change leaves the book as it was and is labelled an increase exactly where something rests, a deletion where nothing does |
| MarketBooks.MarketBook.TrimJournal | src/book/book.ts:246-254 | old entries drop from the front, then the oldest beyond the cap |
| MarketBooks.TrimKeepsCover | src/book/book.ts:246-254 | the journal stays a suffix of the changes since the last snapshot, missing only those too old or too far back |
| MarketBooks.MarketBook.HistoricalStates | src/book/book.ts:272-298 | entry i is the time, number and hash of the book after all but the last i changes; with non-negative snapshot sizes the rewind never stops early |
| MarketBooks.RewindIsComplete | src/book/book.ts:272-298 | with times in order, the window reaching back to `fromMs` and fewer changes since than states allowed, exactly the changes since `fromMs` are rewound |
| MarketBooks.UnapplyRestores | src/book/book.ts:281-287 | un-applying a change gives back the very level map it was applied to |
| MarketBooks.MarketBook.GetStateHash | src/book/book.ts:409-414 | the cached hash is always the hash of the present contents |
| MarketBooks.MarketBook.Clone | src/book/book.ts:417-432 | an independent book with the same state and no journal |
| MarketBooks.MarketBook.FromCanonical | src/book/book.ts:434-438 | loads serialized levels as a snapshot |
| MarketBooks.RebuildingGivesTheSameBook | src/book/book.ts:401-438 | serializing a book and rebuilding it gives the same level maps and the same hash |
| CanonicalForm.CanonicalLevels | src/book/hashing.ts:20-30 | whatever order the entries come in, the result is the one best-first list of the map |
| CanonicalForm.StateHashIdentifiesBook | src/book/hashing.ts:32-44 | two books of one ticker have equal hashes if and only if both level maps are equal |
| CanonicalForm.LevelsTextIsInjective | src/book/hashing.ts:32-34 | the serialized level list determines the levels |
| CanonicalForm.FixedTextRoundTrip | src/book/decimal.ts:39-45 | reading canonical text back gives the number it was written from, negative ones included |
| Validating.BookValidator.Compare | src/integrity/validator.ts:233-282 | a match is always with a state the book really held, and in a covered window it is a match if and only if the REST book is a state held since the window began |
| Validating.WindowDecides | src/integrity/validator.ts:252-268 | in a covered window the rewound states are exactly the states held in it |
| Validating.VerdictsAlternate | src/integrity/validator.ts:195-219 | over any run of checks the k-th failure in a row is transient for odd k, confirmed for even k, and escalates exactly when k is even and k/2 reaches the threshold |
| Validating.TrackingCountsFailures | src/integrity/validator.ts:195-219 | pending and streak are the parity and the half of the failures in a row |
| Validating.BookValidator.Validate | src/integrity/validator.ts:116-227 | the valid books an answered batch covers are each checked once, in order; recovery list, counts and escalation follow from the results |
| AsOfSampling.MaterializeIsAsOf | src/sampling/materializer.ts:77-172 | with a seed in time and no snapshot after the last delta, every grid point of the window appears once, in order, with the live book after exactly the changes received by then |
| AsOfSampling.MaterializeShowsLive | src/sampling/materializer.ts:122-160 | without that condition: a grid point before some change met in the delta loop is as of its time, a later one shows the book at the end of the window |
| LateSnapshot.RowHoldsALaterBook | src/replay/replay.ts:511-543 | of any market: a snapshot at 10 ms, a delta at 20 ms, a snapshot at 30 ms; the row for 20 ms holds the book of the snapshot |
| AsOfSampling.AsOfExactlyWhere | src/sampling/materializer.ts:122-160 | all rows are as of their time if and only if, wherever snapshots written after the last delta overtake a grid point not before any earlier change, the last of them restores the very book the first one replaced |
| AsOfSampling.EventRowsAreThePositions | src/sampling/materializer.ts:138-144 | event-time rows are the positions of the replay, one each |
| Materializing.Materialize | src/sampling/materializer.ts:77-172 | binding, the grid flush and the trailing loop compute `Materialized` |
| Materializing.Tick | src/sampling/materializer.ts:122-131 | through the production sampler every grid point yields exactly one row |
| Materializing.BookSampler.Sample | src/sampling/bookSampler.ts:72-107 | at most one row per interval, market and bucket |
| BatchWriting.WriterKeepsOrder | src/persistence/batchWriter.ts:184-325 | while no spool was begun, committed, in flight and buffered together are exactly what was handed over, in order, through retries and fatal requeues |
| BatchWriting.CommittedIsPrefix | src/persistence/batchWriter.ts:246-319 | what is committed is then a prefix of what was handed over |
| BatchWriting.NoSpoolNoReordering | src/persistence/batchWriter.ts:443-456 | where local disk is not durable, order holds in every run |
| BatchWriting.NothingIsLost | src/persistence/batchWriter.ts:443-485 | spools included, committed + in flight + spooling + spooled + buffered is everything handed over, none missing or doubled |
| BatchWriting.BufferedCountIsExact | src/persistence/batchWriter.ts:184-221 | the row count kept beside the buffer is always the number of rows in it |
| SpoolOrdering.OrderHoldsExactly | src/persistence/batchWriter.ts:184-485 | over every run with spools, committed, in flight and buffered stay in the order handed over at every step if and only if each spool that failed did so with nothing later committed or in flight and nothing earlier in the buffer |
| SpoolOrdering.TrailTellsTheRun | src/persistence/batchWriter.ts:184-485 | the numbers that order is stated over are those of the very units the writer holds and has committed |
| SpoolOrdering.OneSpoolReorders | src/persistence/batchWriter.ts:457-481 | one failed spool suffices: what was enqueued after it is committed before it comes back |
| BatchWriting.SpoolsMayReorder | src/persistence/batchWriter.ts:479-481 | two failed spools that return in order come back reversed, with nothing committed in between |
| BatchWriting.BatchWriter.Enqueue | src/persistence/batchWriter.ts:184-204 | buffers, and flushes or overflows at the thresholds |
| BatchWriting.BatchWriter.EnqueueDerived | src/persistence/batchWriter.ts:207-221 | the same for rows without provenance, which never overflow |
| BatchWriting.BatchWriter.Flush | src/persistence/batchWriter.ts:236-258 | swaps the buffer out once; a flush in flight is joined |
| BatchWriting.BatchWriter.OnWriteEnds | src/persistence/batchWriter.ts:267-303 | committed, retried in place, or requeued in front |
| BatchWriting.BatchWriter.HandleOverflow | src/persistence/batchWriter.ts:443-485 | a daemon spools its buffer, anything else keeps it and flushes |
| Statements.WriteUnits | src/persistence/batchWriter.ts:335-432 | raw rows and every table's rows are inserted exactly, in order, linked to their own raw event whatever order the ids come back in, parents first; refused only when the number of ids is wrong |
| Statements.RowsPointAtTheirOwnRawEvent | src/persistence/batchWriter.ts:386-413 | a linked row carries the id, receipt time and observation order of its own unit's raw event; every other column, and every unlinked row, is untouched |
| Statements.ChunkRows | src/persistence/batchWriter.ts:76-82 | chunks concatenate to the rows, all full but the last |
| Statements.MaxRowsPerStatement | src/persistence/batchWriter.ts:71-73 | the most rows that stay within 60,000 parameters, and at least one |
| Statements.AlignColumns | src/persistence/batchWriter.ts:541-547 | the columns are the union of the rows' columns, each once; a missing value is null |
| Statements.BuildValuesPlaceholder | src/persistence/batchWriter.ts:549-564 | placeholder (i, j) has number i * columns + j + 1, cast where the column is JSON |
| Statements.ParameterIsTheValue | src/persistence/batchWriter.ts:566-568 | parameter i * columns + j + 1 is row i's value for column j |
| Statements.OrderedTables | src/persistence/batchWriter.ts:534-539 | each table once, sample groups before samples |
| Archiving.Operate | src/persistence/archive.ts:134-211 | over any run of the worker, with crashes and failures at any operation and a store that may keep anything, every row a DROP destroyed lies in a stored part with its recorded digest |
| Archiving.ArchiveWorker.Run | src/persistence/archive.ts:134-211 | one pass keeps the record sound, drops all rows or none, and never touches a failed partition; over an unfinished partition, where every operation succeeds and the store returns what was stored, it ends verified, or past the retention floor dropped with every row proven, if and only if nothing of the partition was dropped before |
| Archiving.ArchiveWorker.Seal | src/persistence/archive.ts:231-248 | fixes the count of the rows that are there |
| Archiving.ArchiveWorker.Archive | src/persistence/archive.ts:251-339 | archived only when every part of every group is listed with its size and digest |
| Archiving.ArchiveWorker.ArchiveGroup | src/persistence/archive.ts:272-324 | the paging loop terminates and lists exactly the parts of the group |
| Archiving.ArchiveWorker.Verify | src/persistence/archive.ts:382-436 | verified only when every listed part was re-read with its digest and the counts sum to the sealed count; where operations succeed and every part reads back as stored, exactly when nothing was dropped before |
| Archiving.ArchiveWorker.TryDrop | src/persistence/archive.ts:445-475 | a drop happens only to a verified, proven partition past its retention floor, with retention enabled, and only once |
| Archiving.DroppedIsNeverProvenAgain | src/persistence/archive.ts:382-436 | once a row of a partition was dropped, nothing that arrives under its name later can pass verification |
| Archiving.DroppedDayComesBack | src/persistence/archive.ts:154-177 | a partition archived, verified and dropped comes back with one more row: a second pass in which nothing fails ends with verification failed |
| Archiving.CountsAddUp | src/persistence/archive.ts:382-436 | where nothing was dropped before, the manifests' counts sum to the sealed count |
| Archiving.DroppingIsSafe | src/persistence/archive.ts:445-475 | dropping a proven, detached table keeps every row in a stored part that no later upload overwrites |
| Archiving.PathIdentifiesPart | src/persistence/archive.ts:486-503 | two parts of a partition never share a path, even where a channel is named like the missing one |
| ArchiveParts.FetchPart | src/persistence/archive.ts:342-373 | fetching in small pages gives the part one large query would give |
| ArchiveParts.PartsHoldEveryRowOnce | src/persistence/archive.ts:257-327 | over all (channel, hour) groups the parts hold every row of the partition exactly once |
| ArchiveParts.PartsAscend | src/persistence/archive.ts:342-373 | each part is non-empty, of one group, by ascending id, within the part size |
| Restoring.ArchiveThenRestoreKeepsCapture | src/replay/restore.ts:162-200 | a partition archived over any grouping and read back in any order of parts gives each session its frames exactly as captured |
| Restoring.VerifiedPartitionRestores | src/replay/restore.ts:149-200 | of a partition the worker proved, every part its manifests name is readable, and reading them in any order gives each session its frames as captured, none missing or doubled |
| Restoring.DroppedPartitionRestores | src/replay/restore.ts:149-200 | the same after the drop, of the rows the drop destroyed |
| Restoring.RestoreSortIsCaptureOrder | src/replay/restore.ts:185-192 | whatever order rows were stored and read in, the sort gives each session its frames in capture order |
| Restoring.Restore | src/replay/restore.ts:149-200 | succeeds exactly when there are manifests and every part is present with its digest and count, stops at the first that is not, and groups the sorted rows by session |
| LadderDepth.DepthAheadAgreesWithTheBook | src/book/ladder.ts:87-124 | on bid and ask, the better size is the YES view's depth over exactly the better levels, and with our own level the depth through it |
| LadderDepth.GetDepth | src/book/book.ts:318-362 | sorting both sides and complementing the NO bids gives the depth of the best k levels of each side of the YES view |
| LadderDepth.YesAsksComplementNoBids | src/book/book.ts:331-335 | the YES asks are the NO bids at their complements, each once, the lowest ask first |
| LadderDepth.DepthAhead | src/book/ladder.ts:87-124 | only the ladder the order rests on counts, in whatever order both are listed |
| LadderDepth.ZeroTicksMeansNothingBetter | src/book/ladder.ts:132-144 | zero ticks iff no level is half a cent or more better; on the cent grid iff nothing is better; none iff the side is empty |
| LadderDepth.ComplementRoundTrip | src/book/ladder.ts:38-62 | the complement is its own inverse, and better for us is higher on the public ladder on either side |
| LevelTracking.LevelActivityConserves | src/research/calibration/levelActivity.ts:93-137 | over any interleaving of trades and changes, net displayed change = added - removed - (executed - unreconciled), with 0 <= unreconciled <= executed |
| LevelTracking.LevelActivityTracker.Follow | src/research/calibration/levelActivity.ts:93-137 | a level watched from the start of a run has seen exactly the events that hit it |
| LevelTracking.LevelActivityTracker.ReceiveDelta | src/research/calibration/levelActivity.ts:93-113 | a decrease is first explained by unreconciled trades; only the rest counts as removed |
| LevelTracking.LevelActivityTracker.ReceiveTrade | src/research/calibration/levelActivity.ts:123-136 | a print without a taker side changes nothing; otherwise it hits the opposite public ladder |
| LevelTracking.RecentActivityIsExact | src/research/calibration/levelActivity.ts:164-185 | for in-order instants the trimmed count equals the count over the full history |
| LevelTracking.RecentActivity.RecordBbo | src/research/calibration/levelActivity.ts:192-197 | a touch is recorded only when its prices moved |

## Left out

- Replaying.Replay: frames, the `sampleMs` buckets, capture gaps and the gaps listed for a window are omitted;
  the positions and books behind them are modelled.
- SequenceBounds.BoundIsExactOnRuns: the bound names its stream, as its description does; without one, every
  stream's numbers count against it.
- RepeatedDeltas.RepeatsLeaveTheReplayLiveExactly: a repeated snapshot is applied again by the live book and is
  outside this result, as it is outside every result that asks for ascending numbers.
- ReplayEquality.ReplayEqualsLive: recordings with repeated or late deltas are those of `RepeatedDeltas`.
- Collecting.Collector.HandleFrame: the raw unit, control frames, counters and the row of a frame that fails to
  parse are omitted. Such a frame advances the sequence while the book stays valid, so a run that has one is not
  fed truthfully (`ExchangeAgreement.TellsTruth` excludes it); replay equality covers it.
- Collecting.Collector.HandleSequenceGap: the row written when a recovery request throws is omitted, and gap ids.
- Collecting.Collector.HandleDelta: the snapshot request after a negative level, and its cooldown, send a command
  and change nothing modelled.
- Collecting.Collector.SubscribeChannel: one channel at a time, without the guard against subscribing twice.
- Collecting.Collector.AddMarkets: one channel at a time.
- Collecting.Collector.RemoveMarkets: markets leave every channel and the books in one step; frames already on
  their way for them are not part of a legal run.
- Collecting.Collector.ReapStalledRecoveries: the failure row of each stalled episode is omitted.
- Collecting.Collector.HandleDisconnect: the disconnect row and the closing of gap records are omitted.
- Collecting.Collector.Sample: one market at a time, at any time; intervals, buckets and hash suppression are
  omitted.
- Recorders.Drive: a subscription or addition given too few stream ids does nothing; the source makes its own ids.
- BookManagement.BookManager.SnapshotRowOf: the price columns derived from the levels are omitted.
- Subscriptions.SubscriptionManager.AddMarkets: the update commands sent to the server are omitted.
- Subscriptions.SubscriptionManager.RemoveMarkets: the delete commands sent to the server are omitted.
- Validating.BookValidator.Validate: the validation and integrity rows, and the book differences in them, are
  omitted; a REST response is what it returned, or that it failed.
- Materializing.Materialize: one market in one call; each row carries the book instead of the columns computed
  from it.
- Materializing.BookSampler.Sample: full-book intervals and hash suppression are omitted.
- AsOfSampling.AsOfExactlyWhere: for a window whose seed is in time.
- Statements.WriteUnits: conflict clauses and statement text are omitted: a statement is its columns, placeholders
  and parameters.
- Restoring.Restore: parsing, gzip and the byte form of a row are omitted: a digest is known by the rows it was
  taken over, and SHA-256 is taken to be injective.
- Archiving.ArchiveWorker.Run: one partition and one worker at a time; the order of manifests and of groups is left
  open, which is more than the source's ORDER BY allows.
- LadderDepth.GetDepth: imbalance, microprice and the other features computed from depth are not modelled.
- BatchWriting.BatchWriter.Flush: draining until nothing is buffered, timers and back-off are not modelled.
- Gap and stream rows, deferred database tasks, counters other than the tracker's, standby filtering.
- Session handoff snapshots: replay understands them, no modelled run writes them.
- Hook calls are replayed to the materializer and the verifier from a recorded trace in which each call
  carries the book as it stood, so that they see one mutable object is not captured.
- Records the source keeps as mutable objects inside maps (stream states, episodes, subscriptions, watched
  levels) are values in maps: their aliasing is not captured. One market's recent activity is one object.
- Ids are integers, of which only equality and order are used.
- Driving archived frames through a collector, and comparing the result.
- Ladder samples, calibration runs, transports, private feeds, trading, migrations, scripts and pages.
