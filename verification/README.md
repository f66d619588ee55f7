# PSTForge: verified model of splitting, recovery and PST coding

A Dafny model of the parts of PSTForge whose correctness spans several functions or a whole run, with proofs of
what they promise.

| file | what it models |
|---|---|
| `split_loop.dfy`, `split_stats.dfy`, `split_batches.dfy`, `split_spec.dfy` | the part loop that fills size-capped PST files in batches, with rollback and exact replay; its statistics; filling in batches as a function; and the one-message-at-a-time filling it is compared with |
| `part_writer.dfy` | the transactional writer of one part, kept to checkpoints, appends and lengths |
| `packing.dfy`, `canonical_order.dfy`, `greedy.dfy`, `ordering.dfy` | canonical order and greedy packing, and why greedy is optimal |
| `adaptive.dfy`, `whole_part.dfy` | the adaptive size model, its searches, and the retained retry loop |
| `canonical.dfy` | rebuilding the forest of embedded messages from flat durable records |
| `replay.dfy`, `accounting.dfy` | the supervisor's receive loop after a crash, and the counters that must agree with the ledger |
| `supervision.dfy` | the loop that isolates failing units and restarts the worker |
| `traversal.dfy` | folder addresses and the traversal that starts and ends recovery units |
| `framing.dfy` | the length framing of the worker protocol |
| `payload_stream.dfy`, `metadata_buffer.dfy`, `direct.dfy` | direct mode: splitting a stream into prefix and deferred chunks, buffering nested metadata, and joining both again on reading |
| `candidate_transfer.dfy` | the stages of direct mode composed, from the worker's native streams to the reader's bytes |
| `crc_tables.dfy`, `crc.dfy` | the MS-PST CRC ([MS-PST] section 5.3) with its eight tables |
| `encode.dfy` | the permutative and cyclic block codings ([MS-PST] sections 5.1 and 5.2) |
| `cfb_chain.dfy` | the bounded walk along a sector chain in a compound file |

Run `dafny verify dfyconfig.toml` in this directory.

Code that updates state is modelled as methods and classes over the same variables, proved against functions on
values; the lemmas are about those functions. Where the outside world decides (the sink, the native library, the
interrupt flag, short reads, a worker's behaviour) the model chooses freely, or takes the behaviour as a
parameter, so a theorem about a method holds for every such behaviour. Parameters also say what may go wrong
outside; each main operation is proved to fail only for that or for a cause in its input. Sizes of PST files are
arbitrary functions of the messages written; each theorem that needs more says so.

Five results show where a promise needs a condition. A run of the part loop gives the parts of
one-message-at-a-time filling exactly when every prefix of every published part was publishable
(`SplitLoop.Split`); projected files that never shrink are enough, and one that shrinks makes a run that differs
(`SplitBatches.ShrinkingFileSplitsDifferently`). The supervisor is sure to stop exactly when there is a limit on
how often the worker fails inside a unit it was told to skip (`Supervision.LimitedIffFewBreaches`), and each
such failure can cost one more attempt (`Supervision.SuperviseBreaching`). The adaptive searches are right because
prefixes of fitting selections fit, which the rounded prediction preserves. Assembly of embedded messages succeeds
exactly for valid records with valid contents and countable sizes (`Canonical.Assemble`). The final counter check
cannot tell which messages were miscounted, only that some were (`Accounting.ValidationDetectsMiscount`).

One observation about the code: registering a second identifier for a direct stream reports an error after the
first identifier has been replaced (`Direct.Source.RegisterStream`).

## Model

| member | source | states |
|---|---|---|
| SplitLoop.Split | crates/pstforge-core/src/split.rs:2104-2464 | Whole runs of the part loop: published parts are numbered consecutively in 32 bits, hold exactly the writable candidates of an initial stretch in order, and each is within the maximum or a single message, with statistics and folder tables that tell what it holds; the item keys of these messages are marked once, in order; every candidate looked at was rejected once or is writable; a completed run covers all candidates; the parts are those of filling in batches, and they are those of one-message-at-a-time filling exactly when every prefix of every part was publishable, as it is when projected files never shrink; with one size for all parts they are the packer's blocks and the fewest; a run that does not complete ends for a cause: an interruption or failure from outside, a size of zero, an unfit candidate, part numbers running out, or a file longer than projected |
| SplitStats.StatsAmountTo | crates/pstforge-core/src/split.rs:2291-2322 | The statistics kept message by message amount to the key lists of the messages in order, totals capped at 64 bits, whether any message is partial, and the omitted folders in part one only |
| PartWriter.TablesFiled | crates/pstforge-pst/src/writer.rs:4184-4262 | Each folder's tables hold its own messages and its associated ones, in the order they were appended |
| SplitLoop.PartsTold | crates/pstforge-core/src/split.rs:2357-2464 | The item keys marked for the published parts are those of their messages, each once, in order |
| SplitBatches.TargetScales | crates/pstforge-core/src/split.rs:1276-1283 | A batch may add a sixteenth of the maximum, which never leads past it, and a 256th within the last sixteenth |
| SplitLoop.PartLoop.Run | crates/pstforge-core/src/split.rs:2152-2356 | One part: the loop ends although the cursor moves back, takes exactly what filling in batches takes, with a publishable set of messages, and stops before a candidate only if that candidate does not fit beside them |
| SplitLoop.PartLoop.CloseBatch | crates/pstforge-core/src/split.rs:2161-2205 | Measuring a batch either accepts it and opens the next one, or restores the stream, statistics and cursor saved with the batch and switches to exact replay |
| SplitLoop.PartLoop.AppendCandidate | crates/pstforge-core/src/split.rs:2287-2356 | An appended message advances the cursor by one; a full part leaves the state untouched and can only be reported during exact replay of a non-empty part |
| SplitLoop.PartLoop.RejectCandidate | crates/pstforge-core/src/split.rs:2246-2286 | A candidate that cannot be translated is recorded as rejected once and passed |
| SplitLoop.PartLoop.Advance | crates/pstforge-core/src/split.rs:2206-2356 | One candidate: skipped when already terminal, appended, rejected, or found not to fit |
| SplitLoop.TerminalMeansRejected | crates/pstforge-core/src/split.rs:2209-2212 | With distinct keys, the terminal set holds a revisited candidate exactly when that candidate was rejected before, so no rejection is recorded twice |
| SplitLoop.GoodRollback | crates/pstforge-core/src/split.rs:2169-2192 | The cursor and statistics saved with a batch are those of the messages that remain after the rollback |
| SplitLoop.PublishPart | crates/pstforge-core/src/split.rs:2357-2464 | Finalizing a publishable part gives a well-published part; exceeding the maximum there needs a finalized length that differs from the projection |
| SplitLoop.OnePart | crates/pstforge-core/src/split.rs:2106-2464 | Each published part takes the next writable candidates, as filling in batches does, and ends before a message that does not fit; none is left when no part results |
| SplitBatches.SameAsGreedyExactly | crates/pstforge-core/src/split.rs:2152-2356 | A part the loop can publish is the one greedy filling takes exactly when every prefix of the part was publishable |
| SplitBatches.GreedyPartsThroughout | crates/pstforge-core/src/split.rs:2152-2356 | Every prefix of every part of one-message-at-a-time filling is publishable |
| SplitBatches.GrowingThroughout | crates/pstforge-core/src/split.rs:2161-2205 | With sizes that never shrink, a publishable part was publishable at every prefix |
| SplitBatches.ShrinkingFileSplitsDifferently | crates/pstforge-core/src/split.rs:2152-2205 | Where a file shrinks when a third message joins, a whole run of the loop publishes one part of three messages, while one-message-at-a-time filling stops after the first |
| SplitSpec.FillReachesThroughout | crates/pstforge-core/src/split.rs:2152-2205 | Greedy filling passes through every state all of whose prefixes are publishable |
| SplitSpec.GreedyPartsAreBlocks | crates/pstforge-core/src/split.rs:2152-2356 | Parts filled one message at a time are the packer's greedy blocks of the writable messages |
| SplitSpec.GreedyPartsFewest | crates/pstforge-core/src/split.rs:2152-2356 | No division of the writable messages into publishable parts uses fewer parts |
| PartWriter.Writer.RollbackBatch | crates/pstforge-pst/src/writer.rs:3879-3900 | From lengths alone the rollback restores the message stream and every folder table to the checkpoint; a checkpoint of another layout is refused and changes nothing |
| PartWriter.Writer.BeginBatch | crates/pstforge-pst/src/writer.rs:3866-3876 | The checkpoint describes the current stream and tables |
| PartWriter.Writer.AppendDeferred | crates/pstforge-pst/src/writer.rs:4184-4262 | An unmeasured append adds exactly the message to the stream and its folder's table; a failed one restores the tables, and the stream too unless undoing it fails |
| PartWriter.Writer.AppendMessage | crates/pstforge-pst/src/writer.rs:4349-4385 | `PartFull` is reported exactly when the projected length exceeds the maximum and the message is not alone, and then the writer is as before |
| PartWriter.Writer.ProjectedEof | crates/pstforge-pst/src/writer.rs:4263-4341 | An empty store has no projection; otherwise the projection of the stream is returned |
| PartWriter.SelectPrefix | crates/pstforge-pst/src/writer.rs:3893-3898 | Truncating the stream truncates every folder table to a prefix, so lengths determine the restored tables |
| WholePart.FillParts | crates/pstforge-core/src/split.rs:2742-2907 | The retained whole-part loop: parts concatenate to a prefix of the canonical order, all of it when completed; each is the file its attempt staged, within the maximum or of one candidate, led to by a true log on what the parts before it left, starting from the last file they observed; a division that does not complete stopped because what is left cannot be measured, because one candidate alone is too long only with the source's folders, or for an interruption that may come |
| WholePart.SettlePart | crates/pstforge-core/src/split.rs:2746-2907 | The retry loop ends, and its log tells, attempt by attempt, the selection that follows from the last file and whether its own file was refused; the completed part is the last file staged, and no longer selection below the refusals is predicted to fit |
| WholePart.FillPart | crates/pstforge-core/src/split.rs:2742-2907 | The first selection is the longest predicted to fit, or one candidate, and without any file to go by that is what the estimate itself allows; then the retry loop |
| WholePart.NeverRevisits | crates/pstforge-core/src/split.rs:2882-2904 | In a true log a refused length is never staged again: every later selection is shorter |
| WholePart.Extend | crates/pstforge-core/src/split.rs:2886-2904 | After a file that was not refused the selection grows to the longest below every refusal that the file lets one predict, or the part is settled |
| Adaptive.PredictIsCeiling | crates/pstforge-core/src/split.rs:3372-3384 | On 64-bit inputs the prediction is the exact ceiling of estimate times actual over observed, never overflows 128 bits, and fails exactly when it exceeds 64 bits |
| Adaptive.PredictUnobserved | crates/pstforge-core/src/split.rs:3372-3375 | With nothing observed the estimate itself is the prediction |
| Adaptive.PredictAtObservation | crates/pstforge-core/src/split.rs:3372-3394 | The prediction reproduces the observation |
| Adaptive.PredictMonotone | crates/pstforge-core/src/split.rs:3372-3384 | A smaller estimate never predicts a larger file, nor fails when the larger one does not |
| Adaptive.EstimateCandidates | crates/pstforge-core/src/split.rs:3519-3536 | The running, overflow-checked estimate equals the closed form: payload, a cost for each message, and a cost for each distinct folder prefix |
| Adaptive.LayoutMeaning | crates/pstforge-core/src/split.rs:3511-3536 | The estimate is one mebibyte, the payload, 64 kibibytes for each message, and 16 kibibytes for each folder on the way to one, however many share it |
| Adaptive.LayoutIsMonotone | crates/pstforge-core/src/split.rs:3511-3536 | The estimator never shrinks when a candidate is added at either end, so greedy packing with it is optimal |
| Adaptive.FitsPrefix | crates/pstforge-core/src/split.rs:3405-3408 | Every prefix of a fitting selection fits |
| Adaptive.Bisect | crates/pstforge-core/src/split.rs:3414-3422 | Halving finds the longest fitting length |
| Adaptive.Gallop | crates/pstforge-core/src/split.rs:3467-3483 | Doubling and then halving finds the longest fitting extension |
| Adaptive.FittingPrefixLength | crates/pstforge-core/src/split.rs:3397-3423 | The longest fitting prefix, or one candidate when not even that fits; zero only for no candidates |
| Adaptive.Queue.Take | crates/pstforge-core/src/split.rs:3425-3438 | Moves that prefix and loses or reorders nothing |
| Adaptive.Queue.ExtendToFit | crates/pstforge-core/src/split.rs:3440-3492 | Extends to the longest fitting length below any refused one; selected followed by remaining never changes |
| Adaptive.Queue.ShrinkToFit | crates/pstforge-core/src/split.rs:3494-3509 | Shrinks to the longest fitting proper prefix, or one candidate, keeping order |
| Packing.PackCandidates | crates/pstforge-core/src/packing.rs:58-120 | The packing loop computes the block-by-block specification, including every error |
| Packing.PackOrdered | crates/pstforge-core/src/packing.rs:91-119 | The loop over the ordered candidates is block-by-block assignment |
| Packing.FindRepeat | crates/pstforge-core/src/packing.rs:84-89 | The set-based scan finds the earliest repeated key |
| Packing.FirstRepeatExact | crates/pstforge-core/src/packing.rs:84-89 | No key is reported exactly when keys are distinct |
| Packing.PackIsWellPacked | crates/pstforge-core/src/packing.rs:58-139 | Parts concatenate to the canonical order, are non-empty, numbered from one, measured, fit or are marked oversize singletons, and none could have taken the next part's first candidate |
| Packing.CanonicalIsSorted | crates/pstforge-core/src/packing.rs:78-83 | The canonical order is a sorted permutation of the input |
| CanonicalOrder.CanonicalInOrder | crates/pstforge-core/src/packing.rs:78-83 | Candidates under the store root come first, then by folder path in dictionary order, then by key: provenance, source, recovery index, with an absent number first, and occurrence |
| CanonicalOrder.PackSucceeds | crates/pstforge-core/src/packing.rs:58-120 | With an estimator that answers and no more candidates than part numbers, packing succeeds exactly for a size that leaves room for the reserve, named folders, and keys that do not repeat |
| CanonicalOrder.PartsHaveNumbers | crates/pstforge-core/src/packing.rs:122-139 | There are never more parts than 32-bit numbers |
| CanonicalOrder.FirstRepeatIsEarliest | crates/pstforge-core/src/packing.rs:84-89 | The key reported is the first that repeats an earlier one |
| Packing.PackUsesFewestParts | crates/pstforge-core/src/packing.rs:91-119 | With a monotone estimator no contiguous division into emittable blocks has fewer parts |
| Packing.PackIgnoresDiscoveryOrder | crates/pstforge-core/src/packing.rs:58-120 | Permuting the input changes neither the parts nor the error |
| Packing.CanonicalIgnoresDiscoveryOrder | crates/pstforge-core/src/split.rs:3343-3364 | Two discovery orders of the same candidates report the same repeated key, and with distinct keys give one canonical order |
| Packing.CompareRankTotal | crates/pstforge-core/src/packing.rs:78-83 | Location, path and key compare as a total order |
| Greedy.BlocksFewest | crates/pstforge-core/src/packing.rs:91-119 | For any monotone size, greedy filling uses the fewest blocks of any division |
| Canonical.Assemble | crates/pstforge-core/src/canonical.rs:375-493 | Unless an interruption comes, assembly succeeds exactly when the records are valid, the events of every candidate are well ordered, every attachment is accounted for in a way its type allows, every child has its attachment, and no item's bytes with those of its descendants exceed 64 bits; a size overflow is reported only for such an item; then every writable candidate is in the forest exactly once, in the slot of its owning attachment and under the folder of its top ancestor, with the trees in candidate order; a cycle is never reported |
| Canonical.ContentsMeaning | crates/pstforge-core/src/canonical.rs:586-880 | What assembly checks slot by slot is what the records say: an embedded attachment is occupied by a candidate or an unwritable item, or ends as missing; a reference ends as one or as missing, anything else with a payload or as missing, and neither is occupied |
| Canonical.ReplayExactly | crates/pstforge-core/src/canonical.rs:608-803 | Events can be replayed exactly when each attachment starts once and ends at most once after it started, and replaying gives what each event says |
| Canonical.ForestFolders | crates/pstforge-core/src/canonical.rs:595-602 | Every message of the forest carries the folder recorded for the top of its own chain of parents |
| Canonical.ForestCoversOnce | crates/pstforge-core/src/canonical.rs:485-492 | The final count turns no-repeats into exactly-once |
| Canonical.CandidateInForest | crates/pstforge-core/src/canonical.rs:468-492 | With valid contents no candidate is missing from the forest, so the final count cannot fail |
| Canonical.CoverIsValid | crates/pstforge-core/src/canonical.rs:485-492 | A forest that passes the final count has every child in an attachment of its parent |
| Canonical.TreeHoldsChild | crates/pstforge-core/src/canonical.rs:804-890 | A tree that holds a message holds its children |
| Canonical.TreeKeysOnce | crates/pstforge-core/src/canonical.rs:561-917 | No item occurs twice in a tree: subtrees of different slots have diverging embedded paths |
| Canonical.ForestKeysOnce | crates/pstforge-core/src/canonical.rs:468-484 | No item occurs in two trees: each has its own top |
| Canonical.ValidateOwnership | crates/pstforge-core/src/canonical.rs:495-552 | Ownership is accepted exactly when it is well owned: no owner and an empty path of a top-level item, or a parent with the path extended by the attachment index, within the depth limit |
| Canonical.ValidateAll | crates/pstforge-core/src/canonical.rs:402-420 | Accepted ownerships are all well owned and no two claim one slot |
| Canonical.ChildrenAreExact | crates/pstforge-core/src/canonical.rs:421-447 | In the child table no candidate displaces another |
| Canonical.BuildMail | crates/pstforge-core/src/canonical.rs:561-584 | Recursion ends by embedded-path depth, and a cycle is reported only if an item being built is not strictly above the candidate |
| Canonical.BuildMailInner | crates/pstforge-core/src/canonical.rs:586-917 | The built tree holds the candidate's attachments in index order, each with its own child or none, and the bytes of all |
| Canonical.ReadEvents | crates/pstforge-core/src/canonical.rs:608-803 | Replaying the events gives exactly the attachments and terminal states of the event-by-event specification, and their bytes, or an error exactly when that has none or the bytes exceed 64 bits, told apart |
| Canonical.CoverSizesValid | crates/pstforge-core/src/canonical.rs:868-917 | When every item is in a built tree, no item's bytes with those of its descendants exceed 64 bits |
| Canonical.BuildRoots | crates/pstforge-core/src/canonical.rs:468-484 | Every tree built starts at a different top, in the folder recorded for it, and the trees stand in candidate order |
| Canonical.CountMail | crates/pstforge-core/src/canonical.rs:1166-1178 | The recursive count is the number of items in the forest |
| Crc.ComputeCrc | crates/pstforge-pst/src/crc.rs:288-339 | For every initial value, data and alignment, slicing by eight equals one table step for each byte |
| Crc.ChunkIsEightSteps | crates/pstforge-pst/src/crc.rs:313-331 | The eight table terms of a chunk are eight steps of the single table |
| Crc.Concatenation | crates/pstforge-pst/src/crc.rs:288-339 | The CRC of a concatenation is the CRC of the second piece started from that of the first |
| Crc.Split | crates/pstforge-pst/src/crc.rs:289-304 | Head and chunks fit in the data, the chunks start aligned, and fewer than eight bytes remain |
| Crc.BurstDetected | crates/pstforge-pst/src/crc.rs:288-339 | Changing any four consecutive bytes changes the CRC |
| Crc.StepIsShift | crates/pstforge-pst/src/crc.rs:7-40 | The single table is the reflected shift by polynomial 0xEDB88320, eight times |
| CrcTables.Offset88Shifts | crates/pstforge-pst/src/crc.rs:252-286 | The last table is the first one shifted through seven more bytes |
| Encode.PermuteRoundTrip | crates/pstforge-pst/src/encode/permute.rs:7-21 | Permutative encoding and decoding are mutual inverses |
| Encode.Permute | crates/pstforge-pst/src/encode/permute.rs:17-21 | Each byte is overwritten through the table |
| Encode.EncodeDecodeBlock | crates/pstforge-pst/src/encode/cyclic.rs:8-29 | The in-place loop codes each byte with the running key of its position |
| Encode.CycleRoundTrip | crates/pstforge-pst/src/encode/cyclic.rs:8-29 | Coding twice with any 32-bit key restores a block of any length, across wraps of the 16-bit running key |
| Encode.KeyTablesInvertible | crates/pstforge-pst/src/encode/mod.rs:4-52 | The transcribed tables R and I are inverse and S is an involution |
| CfbChain.ChainLength | crates/pstforge-core/src/attachment_mime.rs:550-591 | The walk with its visited set equals the bounded walk without it, and a length never exceeds the sector count |
| CfbChain.NextIsEntry | crates/pstforge-core/src/attachment_mime.rs:570-588 | The entry of a sector is the little-endian number at four times its number in the table sectors put together |
| CfbChain.WalkFindsLength | crates/pstforge-core/src/attachment_mime.rs:560-590 | A length is returned exactly when the chain ends after that many in-range sectors, within the bound |
| CfbChain.CycleNeverEnds | crates/pstforge-core/src/attachment_mime.rs:564-566 | A chain that returns to a visited sector has no length, so rejecting it early changes nothing |
| Framing.Output.WriteControl | crates/pstforge-core/src/worker.rs:2390-2402 | A frame is written with its big-endian length, or refused untouched when too long |
| Framing.BigEndianDigits | crates/pstforge-core/src/worker.rs:2390-2402 | The length is written most significant byte first |
| Framing.Input.ReadControl | crates/pstforge-core/src/worker.rs:2404-2418 | Reading equals parsing the front of the stream: zero and oversize lengths, short reads and undecodable frames are errors |
| Framing.ControlLimits | crates/pstforge-core/src/worker.rs:2404-2418 | A frame of no bytes or of more than 32 mebibytes is refused, whatever follows |
| Framing.Input.ReceiveAll | crates/pstforge-core/src/worker.rs:2404-2444 | Reading to the last frame insists that nothing follows |
| Framing.StreamRoundTrip | crates/pstforge-core/src/worker.rs:2390-2430 | Reading back any sequence of frames and payloads within the limits returns it |
| Framing.StreamTruncated | crates/pstforge-core/src/worker.rs:2404-2430 | No proper prefix of a stream is accepted as complete |
| Framing.StreamTrailing | crates/pstforge-core/src/worker.rs:2432-2444 | Any byte after the last frame is refused |
| Replay.Receive | crates/pstforge-core/src/worker.rs:1968-2168 | Every run, accepted or failed, is faithful: forwarded frames are the unmarked ones in order; while a dropped message is open every frame but those of units is dropped, up to its own end, and nothing else is; the dropped starts in order restart the replayed candidates one by one, with their identifiers, in provenance, recovery index, metadata and open unit; a start is forwarded only when no candidate it restarts is left; candidates are conserved; unit frames are never dropped; the result explains itself by the frame it stopped at, or by a fault that may come |
| Replay.FaithfulRematches | crates/pstforge-core/src/worker.rs:2063-2107 | Signature by signature means frame by frame: the matched start and candidate agree in provenance, recovery index, metadata and the unit open at the start |
| Replay.DiscardsMessages | crates/pstforge-core/src/worker.rs:2024-2062 | The dropped frames make up whole messages with their own ends, the last of them perhaps still open |
| Replay.TakeFrame | crates/pstforge-core/src/worker.rs:1991-2167 | One turn keeps all of this, or stops with a reason |
| Replay.StartFrame | crates/pstforge-core/src/worker.rs:2063-2107 | A message start takes a waiting candidate of its signature if there is one and is forwarded only if none is left |
| Replay.DiscardedFrame | crates/pstforge-core/src/worker.rs:2024-2062 | Inside a replayed message everything up to its own end is dropped; another start, completion or another identifier is refused |
| Replay.CollectBags | crates/pstforge-core/src/worker.rs:1977-1990 | Candidates are grouped by signature as a multiset |
| Replay.Pop | crates/pstforge-core/src/worker.rs:2080-2082 | Takes one candidate of the signature, or there is none left |
| Accounting.AcceptedConserves | crates/pstforge-core/src/worker.rs:2109-2117 | In an accepted run every candidate was observed again exactly once, and the messages started are those candidates plus the forwarded ones |
| Accounting.AccountIsolated | crates/pstforge-core/src/recovery.rs:1264-1302 | The checked loop adds the counts of the isolated candidates and fails exactly when a 64-bit counter would overflow |
| Accounting.ValidationDetectsMiscount | crates/pstforge-core/src/recovery.rs:1252-1262 | After an accepted run the final check passes exactly when the worker's counters are the counts of the messages it started, whatever was replayed, forwarded or isolated |
| Accounting.CompleteAttempt | crates/pstforge-core/src/recovery.rs:340-352 | An attempt ends with the error its run stopped with; after an accepted run it succeeds, with the counts of the ledger, exactly when the worker counted the messages it started and they fit 64 bits with the isolated ones, and is an integrity error otherwise |
| Supervision.Supervisor.Supervise | crates/pstforge-core/src/recovery.rs:285-527 | For every worker with a limit on its breaches (failures inside a unit it was told to skip) the run ends, at the first attempt that is not retryable or exhausts the budget, with the budget those attempts leave and the ending that attempt calls for; worker attempts are at most the units not initially skipped, plus MAX_WORKER_RETRIES + 1, plus the breaches |
| Supervision.Supervisor.Respawn | crates/pstforge-core/src/recovery.rs:466-524 | Starting again ends: each failed start uses the global budget, and every attempt in between was a failed start |
| Supervision.Supervisor.Charge | crates/pstforge-core/src/recovery.rs:413-454 | A failure inside a unit isolates it; any other uses the global budget |
| Supervision.EndsMeaning | crates/pstforge-core/src/recovery.rs:378-470 | The run goes on after a failed start or a retryable failure that the parser did not report outside every unit, while no more than three attempts have failed outside every unit |
| Supervision.BudgetMeaning | crates/pstforge-core/src/recovery.rs:438-454 | After any attempts the skipped units are the initial ones and those attempts failed in, and the global failures are those outside every unit |
| Supervision.FailureUsesBudget | crates/pstforge-core/src/recovery.rs:413-454 | A failure uses up the budget exactly when it does not repeat a unit that is skipped already |
| Supervision.AttemptsConserved | crates/pstforge-core/src/recovery.rs:334-527 | However a worker behaves, each attempt used the budget or was a breach |
| Supervision.LimitedIffFewBreaches | crates/pstforge-core/src/recovery.rs:334-527 | The supervisor's run is sure to end exactly when there is a limit on the worker's breaches |
| Supervision.SuperviseBreaching | crates/pstforge-core/src/recovery.rs:334-527 | For every n the supervisor starts a worker that fails n times inside one skipped unit n + 1 times, with its budget untouched |
| Supervision.BreachesForceAttempts | crates/pstforge-core/src/recovery.rs:413-454 | Such a worker ends the run at attempt n + 1 and at no other |
| Supervision.FailsForeverNeverEnds | crates/pstforge-core/src/recovery.rs:413-454 | A worker that always fails inside one skipped unit never ends the run |
| Traversal.Traverse | crates/libpff-sys/src/catalog.rs:444-751 | In every run over any folder graph, cyclic or not: no unit starts twice, only expected units start and no skipped one, units never nest and end as they started; a completed run has started exactly the units of every folder reachable past the skip list and failed reads, ended each, and met none of the limits; it terminates by the folder budget; a run that does not complete met its cause: an event the sink does not take, an unreadable root, more than 1,000,000 folders entered, a folder of more than 100,000,000 items or with a child index beyond 32 bits, or a limit inside a unit it started |
| Traversal.VisitFolder | crates/libpff-sys/src/catalog.rs:471-749 | One visit starts exactly the units expected of the folder, and queues exactly its readable, unskipped children, or ends for one of those causes |
| Traversal.EveryUnitStarted | crates/libpff-sys/src/catalog.rs:474-751 | With nothing left on the stack every unit that can be reached was started, by depth of the address |
| Traversal.VisitedComplete | crates/libpff-sys/src/catalog.rs:471-749 | A visit that passed all children, messages and associated contents leaves nothing of the folder out |
| Traversal.NoLimitMet | crates/libpff-sys/src/catalog.rs:502-560 | A traversal with nothing left entered no more folders, items or child indexes than it may, and no unit ran into a limit |
| Traversal.VisitChildren | crates/libpff-sys/src/catalog.rs:584-626 | Every child index is passed; children get addresses no visited folder has |
| Traversal.FolderAddress.Child | crates/libpff-sys/src/catalog.rs:70-83 | A child address extends the path by its index, down to the depth limit |
| Traversal.PathDetermines | crates/libpff-sys/src/catalog.rs:55-98 | An address is determined by its path |
| Traversal.ChildInjective | crates/libpff-sys/src/catalog.rs:70-83 | Equal child addresses have equal parents and indices |
| Traversal.ParentOfChild | crates/libpff-sys/src/catalog.rs:85-97 | Parent undoes child |
| Traversal.ChildOfParent | crates/libpff-sys/src/catalog.rs:70-97 | Child with the last index undoes parent |
| PayloadStream.StreamAttachment | crates/libpff-sys/src/catalog.rs:2640-2765 | Whatever the native reads return, up to a whole buffer for a shorter request, the emitted chunks are the stream's first bytes in order; success means exactly the limit; a mismatch means the stream is shorter, or longer when all was asked for, or a read was longer than asked |
| PayloadStream.StreamProperty | crates/libpff-sys/src/catalog.rs:2113-2201 | The same for a property and its caller's length check; a read longer than asked is emitted, up to the declared size, before the check refuses it |
| PayloadStream.StreamDeferred | crates/libpff-sys/src/catalog.rs:2203-2279 | The deferred chunks continue where the prefix stopped and complete the declared length, or the stream is too short, or a read was longer than asked |
| Direct.DeliverCandidate | crates/pstforge-core/src/worker.rs:1104-1280 | Opening any order-preserving subset of a candidate's streams and reading each to its end returns each one's exact bytes, whatever buffer sizes and short reads; the rest is discarded; finishing leaves the input just after the candidate |
| Direct.ReadBlob | crates/pstforge-core/src/worker.rs:1104-1280 | For an arbitrary input: the prefix alone when it is the whole stream, an error when it is too long, otherwise prefix and payload joined exactly when the payload is well formed and at least as long as declared |
| Direct.Source.OpenBlob | crates/pstforge-core/src/worker.rs:1104-1177 | The reader starts at the first data frame of the identifier; boundaries, unbound paths and overlong prefixes are errors |
| Direct.Reader.Read | crates/pstforge-core/src/worker.rs:1211-1279 | Each read delivers the next bytes of prefix, chunk or following chunk; at the end the foreign frame is pushed back |
| Direct.Reader.ReadToEnd | crates/pstforge-core/src/worker.rs:1211-1279 | Reading to the end gives everything left, exactly when at least the declared length is there |
| Direct.Source.FinishTopLevel | crates/pstforge-core/src/worker.rs:659-684 | Consumes up to the payload end and forgets identifiers, prefixes and paths |
| Direct.Source.RegisterStream | crates/pstforge-core/src/worker.rs:701-713 | A second identifier for a stream is refused, although it has replaced the first |
| Direct.SeekFindsBlob | crates/pstforge-core/src/worker.rs:1129-1179 | The search finds the first chunk of the wanted stream past all others, and draining from there gives its deferred bytes |
| Direct.DrainChunks | crates/pstforge-core/src/worker.rs:1211-1279 | From inside a chunk exactly the rest of the stream drains |
| Direct.FinishLeavesRest | crates/pstforge-core/src/worker.rs:659-684 | However much was left unread, finishing leaves what follows the candidate |
| MetadataBuffer.CollectMetadata | crates/pstforge-core/src/worker.rs:352-574 | The buffering loop computes the frame-by-frame specification |
| MetadataBuffer.Collector.Accept | crates/pstforge-core/src/worker.rs:352-574 | One frame: sent at once outside messages, otherwise charged, buffered, and its bytes added to its stream's prefix |
| MetadataBuffer.CandidateDelivered | crates/pstforge-core/src/worker.rs:260-280 | A balanced message tree is delivered whole: every frame once, each message in one piece with its frames in order, messages in the order they started, and every stream's prefix is the concatenation of its chunks |
| MetadataBuffer.EmitInPieces | crates/pstforge-core/src/worker.rs:270-279 | Emission is the pre-order of the tree, one message at a time |
| MetadataBuffer.EmitPermutes | crates/pstforge-core/src/worker.rs:270-279 | Emission is a permutation of the frames received |
| MetadataBuffer.EmitKeepsStarts | crates/pstforge-core/src/worker.rs:270-279 | Parents precede children and siblings keep their order |
| MetadataBuffer.AcceptedWithinBudget | crates/pstforge-core/src/worker.rs:230-258 | A balanced candidate is accepted exactly when its frames fit the memory budget |
| MetadataBuffer.CostMeaning | crates/pstforge-core/src/worker.rs:230-258 | A frame is charged its encoded size, its payload twice, and 256 bytes |
| MetadataBuffer.BindPrefixes | crates/pstforge-core/src/worker.rs:396-417 | Prefixes move from paths to item keys exactly when every path has one |
| CandidateTransfer.TransferCandidate | crates/libpff-sys/src/catalog.rs:930-956 | Direct mode from end to end, over any message tree: properties and attachments send their prefixes inside the metadata and the rest deferred, and whatever streams the reader picks in order arrive as exactly their declared bytes, with the sink given each message in one piece and the input left after the candidate; it fails only for a stream that is too short or whose reads may fail or return too much, or for metadata over the budget |
| CandidateTransfer.StreamPrefixes | crates/libpff-sys/src/catalog.rs:1695-1793 | After the first phase every native stream stands just after the prefix that was sent |
| CandidateTransfer.StreamDeferredPayloads | crates/libpff-sys/src/catalog.rs:1795-1845 | After the second phase prefix and deferred chunks of every stream are together its declared bytes |
| CandidateTransfer.AnnouncedReaches | crates/pstforge-core/src/worker.rs:260-280 | Data frames anywhere in a message tree, in the order they were streamed, collect to each stream's own prefix |
| CandidateTransfer.ReceiveMetadata | crates/pstforge-core/src/worker.rs:352-417 | Buffering and binding succeed exactly within the budget, and then each stream's durable key holds the prefix that was sent for it |
| CandidateTransfer.ReceivePayload | crates/pstforge-core/src/worker.rs:1104-1280 | Readers opened with those prefixes return the declared bytes of the picked streams |
| CandidateTransfer.IdsDistinct | crates/pstforge-core/src/worker.rs:701-713 | Registering distinct identifiers for distinct streams never conflicts and names each stream once |

## Left out

- PST page layout, B-trees and heaps: the writer is a sequence of messages with size functions; that real
  projections never shrink is an assumption named where it is used.
- SplitLoop.Split: translation of a candidate is a function of its durable key, and rejection covers the one
  candidate; rejections that also name embedded items, folder and reconstruction counters, reports and disk
  preflight are not modelled.
- SplitLoop.PublishPart: hashing, staging and renaming are choices that may fail; durability is not modelled.
- WholePart.FillParts: the baseline file without source folders is a free choice; part input validation is not
  modelled.
- The one-pass direct split and its finalization-overhead threshold: their size safety rests on estimates of the
  source that have no specification here.
- Packing.PackCandidates: the standard library's stable sort is modelled as stable insertion.
- Canonical.Assemble: durable keys of candidates are taken to be distinct, as the ledger's primary key makes them;
  events are reduced to attachments, their terminal states, children and spooled bytes;
  recipients, properties, folder location and display names are not modelled.
- Canonical.CountMail: overflow of the machine-word count is not modelled, since the items are in memory.
- Canonical.BuildMailInner: the set of items being built is passed as a value instead of being updated in place.
- Crc.ComputeCrc: the address of the data enters only as its remainder modulo four.
- Framing.StreamRoundTrip: the JSON codec is a parameter with a decoder that inverts its encoder.
- Replay.Receive: frames arrive decoded, with their payload; a failing payload read, a refusing sink and the end
  of the input are the only failures of the outside world. The progress flags for the active unit are not
  modelled.
- Accounting.ValidationDetectsMiscount: the sink is taken to commit every forwarded message; partial and
  complete counts are not modelled.
- Supervision.Supervisor.Supervise: a worker is how each of its attempts goes, spawning included; a retryable
  failure during an interruption counts as interrupted, a failing ledger as fatal; watchdogs and resuming with
  earlier counts are not modelled, and the 32-bit attempt counters are unbounded.
- Traversal.Traverse: recovered, orphan and fragment collections are not modelled, and what happens inside one
  message is events without structure, up to a limit of the catalog if the unit runs into one; the reads of a
  folder give the same answer throughout a run.
- PayloadStream.StreamAttachment: a native read beyond the whole buffer, which the code refuses, cannot occur;
  seeking and MIME probing before the first read are not modelled.
- CandidateTransfer.TransferCandidate: frames that carry no stream data are free; how the worker lays them out
  around the prefixes is a parameter, and keys and identifiers are given, one for each path and stream.
- Direct.DeliverCandidate: identifiers are taken to be distinct for distinct streams, as the job assigns them;
  message, attachment and property frames inside the payload phase and the two-pass binding of embedded
  messages are not modelled.
- Direct.Source.DiscardPayload: bytes are discarded one at a time instead of by buffers.
- MetadataBuffer.CollectMetadata: an empty metadata boundary is reported to the caller instead of being skipped;
  streams that are not balanced are covered only by the frame-by-frame specification.
- Integer widths are modelled where the code checks them (64-bit counters and sizes, 32-bit part numbers, the
  16-bit running key, bit-vector CRC); saturating diagnostics counters are unbounded.
