# Verification of the homelab applications' core logic

This project models the parts of the repository that carry state, arithmetic or a protocol, and proves what
they keep. It checks with `dafny verify dfyconfig.toml`.

| file | what it models |
|---|---|
| `Text.dfy` | strings, lines and joins as the markdown code handles them |
| `FenceTracker.dfy`, `GithubSlugger.dfy` | fenced code blocks; anchors and their de-duplication |
| `Sections.dfy`, `Paragraphs.dfy`, `HardSplit.dfy`, `Tables.dfy`, `Packing.dfy`, `Chunker.dfy`, `Headings.dfy`, `Lossless.dfy` | the markdown chunker: sections, paragraphs, oversized pieces, what a table is, packing with overlap, chunks, which heading each stands under, and that no text is lost on the way |
| `Embedding.dfy`, `IndexStore.dfy`, `Indexer.dfy`, `Convergence.dfy` | what a chunk is embedded as, the stored vectors, one index run, and runs that are interrupted and run again |
| `IndexingLoop.dfy` | the self-rescheduling loop with merged requests |
| `RankFusion.dfy`, `Search.dfy` | reciprocal rank fusion, and the search around it |
| `Notifications.dfy` | the paced notification queue |
| `Poller.dfy` | the device poller: back-off, tick life cycle, change detection |
| `DeviceClock.dfy`, `MiotDevice.dfy` | stamp arithmetic of a miIO device, and a command with its one retry |
| `Resilience.dfy`, `HttpReplay.dfy` | the retry loop, and replays of requests answered 401 |
| `Frontmatter.dfy`, `HeaderGrammar.dfy`, `Validation.dfy`, `NoteRender.dfy`, `NoteBody.dfy` | the YAML header split and what a header is, the path rules, the note printer both must accept, and what it prints |

Code that changes things step by step is a class or a method with loops, proved equal to a function of the
old state (`View() == After…(old(View()), …)`); the lemmas about those functions carry the properties.
Protocols are state machines: `Apply` is one event, `IsRun` a sequence of events each of which could happen,
and a main result speaks of every such sequence.

## Where the code and what is said of it differ

The model follows the code. Each difference is a lemma.

- A stored part can be longer than `maxChars`: a table row behind its repeated header
  (`HardSplit.TablePieceOverTheLimit`, under any limit from 15 on). It happens exactly when the body is split and one
  of its split paragraphs is a table with a row that does not fit behind the header
  (`HardSplit.PiecesExceedTheLimitIff`, `Chunker.PartsExceedTheLimitIff`); the part stays below 1.5 times the limit
  (`Chunker.PartsAreBounded`).
- Running an interrupted incremental index again need not converge when the source moved on and undid one of the
  applied changes (`Convergence.UndoneWriteStays`). Exactly when it does is `Convergence.MovedHeadConvergesIff`.
- Once `$onReady` has ended, the indexing loop keeps runs apart exactly when none was in progress then, or the loop
  is switched off or stopped (`IndexingLoop.ReadyIsSafeIff`, `IndexingLoop.EarlyTriggerOverlaps`).
- Chunk hashes under two titles decide the embedded text exactly when the titles are equal or neither is the other, a
  NUL and more (`Embedding.HashesDecideIff`). The indexer refuses documents that hold a NUL, so this does not occur and
  stored vectors are coherent.
- Stopping the poller before its subscriptions are loaded is lost (`Poller.StopIsFinalIff`).
- Dropping all subscriptions of an id clears every cached value whose key begins with that id and a colon. Property
  keys hold a colon, so the id that spells a device's id, a colon and the name of one of its services clears that
  device's values (`Poller.ServiceNameBreaksTheChain`); no handler looks whether the dropped id is a device. Events
  are chained in every run exactly when no id that may be dropped does this to another device and no two
  subscriptions share a key (`Poller.EventsAreChainedIff`).
- A reading restored while a packet is in flight can let the packet's echo move the device clock ahead
  (`Clocks.RestoringInFlightRebases`). For agreeing clocks it does exactly when the restored reading's next stamp is
  behind the packet's (`Clocks.RestoreIsSafeIff`).
- A header's first line may look like its closing line: it is read as the header
  (`Frontmatters.WrittenHeaderIsReadIff`).

## Assumptions

- Clocks are monotone and timers never fire early; nothing is assumed of how late they fire.
- `Sections.Rules.Sound`: the empty text counts as empty, and only white space does. The link stripper, the slug
  alphabet and Unicode folding are parameters of which nothing is assumed.
- The digest is injective and the embedder is a function of model and text.
- `Search.Backend.Sound`: a leg over some knowledge bases returns chunks of those only, vectors for embedded
  chunks only, and the fallback full-text leg of a model only chunks it has not embedded.
- `Clocks.Device`: the device ticks at local rate and answers without delay, with its clock or an echo. The wall
  clock may stray from the monotonic one by `skew`, which covers its whole milliseconds.
- Scores and device times are reals.
- A note's date given as text is taken as it is; today's date fills in only for none.

## Model

| member | source | states |
|---|---|---|
| `Fences.ClosesOnlyOnItsOwn` | apis/knowledge-base-api/src/markdown/FenceTracker.ts:3-39 | an open fence closes exactly on a line of at most three spaces, at least as many of its own mark, and blanks |
| `Fences.OpensOnThreeMarks` | apis/knowledge-base-api/src/markdown/FenceTracker.ts:3-39 | outside a fence one opens exactly on up to three spaces and three or more of one mark, whatever follows |
| `Fences.FenceTracker.Consume` | apis/knowledge-base-api/src/markdown/FenceTracker.ts:19-39 | the tracked fence after a line, and whether the line belongs to a fence |
| `Slugs.FirstFreeIsLeast` | apis/knowledge-base-api/src/markdown/GithubSlugger.ts:13-27 | the collision loop ends at the least number whose candidate is free |
| `Slugs.FirstFreeIsUnique` | apis/knowledge-base-api/src/markdown/GithubSlugger.ts:13-27 | that number is the only one free with all below it taken |
| `Slugs.SlugsAreDistinct` | apis/knowledge-base-api/src/markdown/GithubSlugger.ts:13-27 | no two slugs of any sequence of headings are equal |
| `Slugs.GithubSlugger.Slug` | apis/knowledge-base-api/src/markdown/GithubSlugger.ts:13-27 | the loop with its per-heading counters finds what the plain rule finds, whatever was taken before |
| `Sections.CutsOutsideFences` | apis/knowledge-base-api/src/services/MarkdownChunkerService.ts:125-169 | a section starts, and the title is dropped, only outside a fence |
| `Sections.SectionsHoldTheirLines` | apis/knowledge-base-api/src/services/MarkdownChunkerService.ts:125-169 | a section holds exactly the lines placed in it, in document order |
| `Sections.EveryLineLandsOnce` | apis/knowledge-base-api/src/services/MarkdownChunkerService.ts:125-169 | lines held, sections opened and the one dropped title add up to the lines of the document |
| `Sections.PlacesFollowTheDocument` | apis/knowledge-base-api/src/services/MarkdownChunkerService.ts:125-169 | later lines never land in earlier sections, each section is opened once, the title is one line |
| `Sections.FenceStatesAgree` | apis/knowledge-base-api/src/services/MarkdownChunkerService.ts:125-169 | the fence state started afresh in a section is the whole document's at each of its lines |
| `Sections.SectionSlugsAreDistinct` | apis/knowledge-base-api/src/services/MarkdownChunkerService.ts:125-169 | only the text before the first cut has no slug, and no two sections share one |
| `Headings.ParseHeadingIff` | apis/knowledge-base-api/src/services/MarkdownChunkerService.ts:40 | a line is a heading of a level and text exactly when it is so written: up to three spaces, one to six marks, blanks, and the shortest text before a closing run |
| `Headings.LinesLandByHeading` | apis/knowledge-base-api/src/services/MarkdownChunkerService.ts:125-169 | told by the headings alone: the title is the first of level one before any that cuts; a section starts at every other of level one or two, by sections at level three too; every other line is held by the current section |
| `Headings.SectionsAreNamedByHeadings` | apis/knowledge-base-api/src/services/MarkdownChunkerService.ts:125-169 | a section's path is its heading's text, at level three below that of the last section of level one or two; its slug is de-duplicated among all headings so far |
| `Headings.SectionHasStart` | apis/knowledge-base-api/src/services/MarkdownChunkerService.ts:125-169 | every section but the first starts at exactly one line |
| `Paragraphs.BodyIsCutFrom` | apis/knowledge-base-api/src/services/MarkdownChunkerService.ts:95-123 | a body is the section's lines less leading blank ones and trailing white space |
| `Paragraphs.BodyFenceAgrees` | apis/knowledge-base-api/src/services/MarkdownChunkerService.ts:201-224 | trimming a body changes no fence state |
| `Paragraphs.BlocksKeepEveryLine` | apis/knowledge-base-api/src/services/MarkdownChunkerService.ts:201-224 | paragraph cutting drops separating empty lines and nothing else; no paragraph is empty |
| `Paragraphs.ParagraphsAreMaximalRuns` | apis/knowledge-base-api/src/services/MarkdownChunkerService.ts:201-224 | a paragraph is a longest run of lines without an empty one outside a fence |
| `Paragraphs.BlocksCutOutsideFences` | apis/knowledge-base-api/src/services/MarkdownChunkerService.ts:201-224 | no paragraph is cut inside a fence |
| `Paragraphs.KeptFence` | apis/knowledge-base-api/src/services/MarkdownChunkerService.ts:201-224 | a dropped separator changes no fence state |
| `Paragraphs.ParagraphLines` | apis/knowledge-base-api/src/services/MarkdownChunkerService.ts:201-224 | a paragraph breaks back into the lines collected for it |
| `Paragraphs.CutParagraphs` | apis/knowledge-base-api/src/services/MarkdownChunkerService.ts:201-224 | the loop yields the paragraphs of the specification |
| `HardSplit.AllFragmentsRebuildTheLines` | apis/knowledge-base-api/src/services/MarkdownChunkerService.ts:231-259 | cutting lines into fragments loses no character |
| `HardSplit.PiecesKeepEveryFragment` | apis/knowledge-base-api/src/services/MarkdownChunkerService.ts:231-259 | the pieces' rows are the fragments in order, none lost or repeated |
| `HardSplit.FragmentsAreFull` | apis/knowledge-base-api/src/services/MarkdownChunkerService.ts:231-259 | every fragment of a line but its last is as long as the limit |
| `HardSplit.PiecesAreFilled` | apis/knowledge-base-api/src/services/MarkdownChunkerService.ts:231-259 | a piece is closed only where the next row would take it over the limit |
| `HardSplit.PiecesShowTheParagraph` | apis/knowledge-base-api/src/services/MarkdownChunkerService.ts:231-259 | with the repeated header taken off, the pieces show exactly the paragraph's non-empty text |
| `HardSplit.OversizedIsNeverDropped` | apis/knowledge-base-api/src/services/MarkdownChunkerService.ts:231-259 | an oversized paragraph yields at least one piece |
| `HardSplit.PiecesExceedTheLimitIff` | apis/knowledge-base-api/src/services/MarkdownChunkerService.ts:231-271 | a paragraph has a piece over the limit exactly when its header is repeated and some row of it does not fit behind the header |
| `HardSplit.PiecesAreBounded` | apis/knowledge-base-api/src/services/MarkdownChunkerService.ts:231-271 | a piece is within the limit, or a table row behind the table's header and below 1.5 times it |
| `HardSplit.OneRowTableStaysWhole` | apis/knowledge-base-api/src/services/MarkdownChunkerService.ts:231-271 | a table of one short row is never cut |
| `Tables.IsTableIff` | apis/knowledge-base-api/src/services/MarkdownChunkerService.ts:269-271 | lines are a table exactly when the first starts with a bar and the second is a row of cells of three or more dashes, colons allowed at their ends, bars between |
| `HardSplit.TablePieceOverTheLimit` | apis/knowledge-base-api/src/services/MarkdownChunkerService.ts:231-271 | under any limit from 15 on, a table that stays one piece of seven characters more |
| `HardSplit.Split` | apis/knowledge-base-api/src/services/MarkdownChunkerService.ts:231-259 | the nested loops yield the pieces of the specification, and end |
| `Packing.JoinedLengthIsLengthOfJoin` | apis/knowledge-base-api/src/services/MarkdownChunkerService.ts:273-274 | the length arithmetic is the length of the joined paragraphs |
| `Packing.TailIsTheLongestFit` | apis/knowledge-base-api/src/services/MarkdownChunkerService.ts:277-288 | the overlap fits its budget and no longer suffix does |
| `Packing.Tail` | apis/knowledge-base-api/src/services/MarkdownChunkerService.ts:277-288 | the backward loop finds that suffix |
| `Packing.PackingIsLossless` | apis/knowledge-base-api/src/services/MarkdownChunkerService.ts:171-198 | the new paragraphs of all parts are the input, in order |
| `Packing.PartsAreChained` | apis/knowledge-base-api/src/services/MarkdownChunkerService.ts:171-198 | every part has something new and was begun because its first new paragraph did not fit the one before |
| `Packing.OverlapIsProperSuffix` | apis/knowledge-base-api/src/services/MarkdownChunkerService.ts:171-198 | what a part repeats is a proper suffix of the part before it, within the overlap |
| `Packing.PartsStayWithinTheLimit` | apis/knowledge-base-api/src/services/MarkdownChunkerService.ts:171-198 | a part is within the limit or a single paragraph over it, repeating nothing |
| `Packing.PackParagraphs` | apis/knowledge-base-api/src/services/MarkdownChunkerService.ts:171-198 | the greedy loop yields the parts of the specification |
| `Chunker.SplitIsLossless` | apis/knowledge-base-api/src/services/MarkdownChunkerService.ts:171-198 | all of the above of a section's body: lossless, chained, the first part repeats nothing |
| `Chunker.PartsAreBounded` | apis/knowledge-base-api/src/services/MarkdownChunkerService.ts:171-271 | every stored part is within `maxChars`, or a lone table piece below 1.5 times it |
| `Chunker.PartsExceedTheLimitIff` | apis/knowledge-base-api/src/services/MarkdownChunkerService.ts:171-271 | a body has a part over `maxChars` exactly when it is split and holds a split table with a row that does not fit behind the header |
| `Losslessness.SectionTextIsKept` | apis/knowledge-base-api/src/services/MarkdownChunkerService.ts:95-271 | what is new in a section's parts, repeated headers counted once, is the section's text, white space aside |
| `Chunker.AnchorsAreDistinct` | apis/knowledge-base-api/src/services/MarkdownChunkerService.ts:95-169 | two sections of a document never share an anchor |
| `Chunker.ParagraphFenceIsDocumentFence` | apis/knowledge-base-api/src/services/MarkdownChunkerService.ts:125-224 | the fence state seen while cutting paragraphs is the whole document's at that line |
| `Chunker.ChunksAreParts` | apis/knowledge-base-api/src/services/MarkdownChunkerService.ts:95-123 | chunks are numbered in document order and each is one part of one section |
| `Chunker.PartsAreChunks` | apis/knowledge-base-api/src/services/MarkdownChunkerService.ts:95-123 | every part of every section is a chunk |
| `Chunker.MarkdownChunker.CutSections` | apis/knowledge-base-api/src/services/MarkdownChunkerService.ts:125-169 | the loop yields the sections of the specification, which `Headings` describes by the lines alone |
| `Chunker.MarkdownChunker.ChunkDocument` | apis/knowledge-base-api/src/services/MarkdownChunkerService.ts:95-123 | the document's chunks are those of its sections |
| `Headings.ChunksStandUnderHeadings` | apis/knowledge-base-api/src/services/MarkdownChunkerService.ts:95-169 | every chunk of a document is one part of one of its sections, headed by that section's path and anchored at its slug; by entries the part is the whole body |
| `Headings.SectionsAreStored` | apis/knowledge-base-api/src/services/MarkdownChunkerService.ts:95-169 | every part of every section is a chunk so headed, in document order |
| `Embedding.ExpansionIsOnePass` | apis/knowledge-base-api/src/services/EmbeddingService.ts:39-47 | placeholders inside a title or a text are never expanded |
| `Embedding.SlotsHoldTheirTexts` | apis/knowledge-base-api/src/services/EmbeddingService.ts:38-48 | the title, or `none`, fills the title slots; heading, a blank line and body fill the text slots |
| `Embedding.HashesDecideIff` | apis/knowledge-base-api/src/services/MarkdownChunkerService.ts:61-70 | under two titles equal hashes mean equal embedded texts, for all headings, bodies and templates, exactly when the titles are equal or neither is the other, a NUL and more |
| `Embedding.EqualHashesEmbedAlike` | apis/knowledge-base-api/src/services/MarkdownChunkerService.ts:61-70 | so equal hashes with NUL-free titles mean the same embedded text under every template |
| `Embedding.ChunksAreWellHashed` | apis/knowledge-base-api/src/services/MarkdownChunkerService.ts:61-123 | every chunk carries the hash of its own title, heading and body |
| `IndexStore.ReconcileKeepsIds` | apis/knowledge-base-api/src/storage/postgres/DocumentRepository.ts:105-149 | rewritten rows are the chunks in order, with distinct ids, each new or that of an old row of the chunk's hash |
| `IndexStore.ReuseIsMaximal` | apis/knowledge-base-api/src/storage/postgres/DocumentRepository.ts:105-149 | of every hash as many rows keep their id as there were rows or there are chunks with it, whichever is fewer |
| `IndexStore.StepKeepsCoherence` | apis/knowledge-base-api/src/storage/postgres/DocumentRepository.ts:31-149 | every write of every run keeps each stored vector the one of its own chunk |
| `IndexStore.CopyKeepsCoherence` | apis/knowledge-base-api/src/storage/postgres/EmbeddingRepository.ts:18-34 | copying vectors by hash gives each chunk its own vector |
| `IndexStore.InsertKeepsCoherence` | apis/knowledge-base-api/src/storage/postgres/EmbeddingRepository.ts:68-83 | so does inserting a batch embedded before other writes |
| `IndexStore.HistoryRowsAreCut` | apis/knowledge-base-api/src/storage/postgres/DocumentRepository.ts:31-149 | over any interleaving of runs, renames and duplicates included, a stored document's rows are the chunks of its own id, title and content, in order |
| `IndexStore.StoredRowsAreParts` | apis/knowledge-base-api/src/services/IndexerService.ts:215-232 | with the repository's chunker, every stored row is one part of one section of its document's text below the header, under that document's anchor, with its own hash |
| `IndexStore.CutIsWellHashed` | apis/knowledge-base-api/src/services/MarkdownChunkerService.ts:95-123 | each chunk so cut carries the hash of its title, heading and body |
| `IndexStore.EveryVectorIsItsChunksOwn` | apis/knowledge-base-api/src/services/IndexerService.ts:141-310 | over any interleaving of runs, a stored vector belongs to a stored chunk and is the embedder's for its input and model |
| `Convergence.FinishAt` | apis/knowledge-base-api/src/services/IndexerService.ts:106-163 | what a finished run leaves for each id |
| `Convergence.RunAppliesItsChanges` | apis/knowledge-base-api/src/services/IndexerService.ts:106-163 | the last storable report of an id is stored; an id not reported goes when the snapshot is complete or names it deleted, else stays; the cursor is the source's |
| `Convergence.RerunConverges` | apis/knowledge-base-api/src/services/IndexerService.ts:106-163 | interrupted after any write and run again on the same changes, a run ends where it would have |
| `Convergence.RerunsConverge` | apis/knowledge-base-api/src/services/IndexerService.ts:106-163 | so it does after any number of interruptions |
| `Convergence.CompleteReachesTheSnapshot` | apis/knowledge-base-api/src/services/IndexerService.ts:106-163 | a complete run leaves the source's snapshot whatever was stored |
| `Convergence.CompleteRunForgetsThePast` | apis/knowledge-base-api/src/services/IndexerService.ts:106-163 | two stores end the same after one complete run of storable documents |
| `Convergence.ReportedBothWaysSurvives` | apis/knowledge-base-api/src/services/IndexerService.ts:150-157 | an id reported changed and deleted is kept |
| `Convergence.UnstorableKeepsWhatIsStored` | apis/knowledge-base-api/src/services/IndexerService.ts:113-157 | a document holding a NUL keeps what was stored for its id |
| `Convergence.MovedHeadConvergesIff` | apis/knowledge-base-api/src/services/IndexerService.ts:106-163 | after other changes an interrupted run leaves no trace exactly when they decide every id it changed |
| `Convergence.LaterSnapshotConverges` | apis/knowledge-base-api/src/services/IndexerService.ts:106-163 | a later complete snapshot always converges |
| `Convergence.UndoneWriteStays` | apis/knowledge-base-api/src/services/IndexerService.ts:106-163 | an incremental rerun after an undone change does not |
| `Indexer.UpsertStoresTheDocument` | apis/knowledge-base-api/src/storage/postgres/DocumentRepository.ts:31-69 | rows rewritten or not, the stored document is the incoming one and no other changes |
| `Indexer.DeleteRemovesTheDocuments` | apis/knowledge-base-api/src/storage/postgres/DocumentRepository.ts:72-93 | a deletion leaves what the specification says, of this knowledge base only |
| `Indexer.IndexerService.Index` | apis/knowledge-base-api/src/services/IndexerService.ts:97-310 | a run stopped after any write, or aborted while it embeds, leaves what `Convergence` says, keeps vectors coherent, stored rows those of the chunker, and other knowledge bases as they are; past the copying, a chunk alike to one that had a vector in a document not written has that vector, also once that document is deleted; done, for distinct models: one is deferred exactly when the run is scheduled and its backlog is above the limit, failed exactly when it is behind otherwise, and then the embedder refused a batch; a model whose first batch was not answered has only copied vectors |
| `Indexer.IndexerService.CopyVectors` | apis/knowledge-base-api/src/services/IndexerService.ts:141-147 | for each model, what is still pending after the copy has no twin that had a vector |
| `Indexer.CopiesLast` | apis/knowledge-base-api/src/services/IndexerService.ts:141-157 | because vectors are copied before deletions, a chunk alike to one embedded before the run, in a document the run did not write, is never embedded again |
| `Indexer.IndexerService.ChunkOf` | apis/knowledge-base-api/src/services/IndexerService.ts:215-232 | a document is cut below its header, with its path's mode and its knowledge base's limits |
| `Indexer.IndexerService.EmbedPending` | apis/knowledge-base-api/src/services/IndexerService.ts:254-310 | embeds batch by batch until nothing is pending, the next batch is refused or the run is aborted; only answered batches change the store, and only for this model |
| `Indexer.IndexerService.EmbedNext` | apis/knowledge-base-api/src/services/IndexerService.ts:264-304 | one batch: what ends the loop, and that an ended one stores nothing |
| `Indexer.TreatedIsReported` | apis/knowledge-base-api/src/services/IndexerService.ts:170-193 | what became of each model is what the result says of it |
| `Indexer.EmbedBatch` | apis/knowledge-base-api/src/services/IndexerService.ts:264-304 | every row of a batch gets the embedder's vector for its own input |
| `IndexingLoop.MergeIsTheJoin` | apis/knowledge-base-api/src/services/IndexingLoopService.ts:289-295 | a merged request is the least that covers both |
| `IndexingLoop.RunsNeverOverlap` | apis/knowledge-base-api/src/services/IndexingLoopService.ts:91-264 | at most one run at any time, destroyed or not, as long as `$onReady` ends with none or arms nothing; enabled, ready and not destroyed, exactly one of run and timer |
| `IndexingLoop.QueuedRequestsAreCovered` | apis/knowledge-base-api/src/services/IndexingLoopService.ts:117-264 | a trigger met by a run in progress: no run starts before that one ends, its end starts one at once, and that covers the request |
| `IndexingLoop.StartsMergeTheQueued` | apis/knowledge-base-api/src/services/IndexingLoopService.ts:117-295 | as the events tell it, a run that starts with requests queued since the last start is exactly their merge |
| `IndexingLoop.LogTellsTheEvents` | apis/knowledge-base-api/src/services/IndexingLoopService.ts:117-264 | the log is exactly the triggers met by a run in progress and the runs that started, in order |
| `IndexingLoop.RunsAreWhatWasAsked` | apis/knowledge-base-api/src/services/IndexingLoopService.ts:117-264 | any other run is started by a trigger or the timer and is exactly what was asked |
| `IndexingLoop.ReadyIsSafeIff` | apis/knowledge-base-api/src/services/IndexingLoopService.ts:91-101 | after becoming ready no continuation has two runs in progress, exactly when none was in progress or the loop is switched off or stopped |
| `IndexingLoop.EarlyTriggerOverlaps` | apis/knowledge-base-api/src/services/IndexingLoopService.ts:91-133 | a trigger before that makes two runs overlap |
| `IndexingLoop.StoppedStaysQuiet` | apis/knowledge-base-api/src/services/IndexingLoopService.ts:103-133 | once destroyed, and until it becomes ready again, no timer is armed and only a trigger starts a run |
| `IndexingLoop.IndexingLoopService.Trigger` | apis/knowledge-base-api/src/services/IndexingLoopService.ts:117-133 | starts or queues a request as the state machine does |
| `IndexingLoop.IndexingLoopService.OnRunEnd` | apis/knowledge-base-api/src/services/IndexingLoopService.ts:238-264 | a finished run starts what is pending or arms the timer |
| `RankFusion.SumIsScore` | apis/knowledge-base-api/src/services/RankFusionService.ts:27-54 | reading the lists entry by entry adds up to the sum of weight over constant plus rank |
| `RankFusion.BestIsLeast` | apis/knowledge-base-api/src/services/RankFusionService.ts:27-54 | the best rank is the least rank of the id in any list |
| `RankFusion.HitsScoreTheirWorth` | apis/knowledge-base-api/src/services/RankFusionService.ts:27-54 | a hit scores the sum, over the lists that count, of weight over the constant, the different ids named before it, and one |
| `RankFusion.OrderIff` | apis/knowledge-base-api/src/services/RankFusionService.ts:45-54 | hits stand by score, then best rank, then first appearance |
| `RankFusion.SortedIsUnique` | apis/knowledge-base-api/src/services/RankFusionService.ts:27-54 | the comparison orders hits in one way only |
| `RankFusion.FusionIsUnique` | apis/knowledge-base-api/src/services/RankFusionService.ts:27-54 | the fused list is determined by the lists |
| `RankFusion.AheadEverywherePrecedes` | apis/knowledge-base-api/src/services/RankFusionService.ts:27-54 | an id ahead in every list that holds the other comes first |
| `RankFusion.OwnListKeepsItsOrder` | apis/knowledge-base-api/src/services/RankFusionService.ts:27-54 | a list that shares no id keeps its own order |
| `RankFusion.Fuse` | apis/knowledge-base-api/src/services/RankFusionService.ts:27-54 | every id of a positively weighted list once, with exact score, best rank and place, in order |
| `RankFusion.Sort` | apis/knowledge-base-api/src/services/RankFusionService.ts:45-54 | the hits, sorted |
| `Search.GroupsAreByModel` | apis/knowledge-base-api/src/services/SearchService.ts:159-175 | one group a model, holding exactly the knowledge bases that answer with it |
| `Search.ModelForIff` | apis/knowledge-base-api/src/services/SearchService.ts:159-175 | a model answers a knowledge base exactly when that is embedded with it and it is the one asked for, or none was and it is the first |
| `Search.RankingsIff` | apis/knowledge-base-api/src/services/SearchService.ts:83-135 | what is fused is exactly the vector legs, the fallback legs and the full-text leg, each at its weight |
| `Search.ModeTellsTheLegs` | apis/knowledge-base-api/src/services/SearchService.ts:83-156 | the mode reported says which kinds of leg answered |
| `Search.EveryKnowledgeBaseIsAnswered` | apis/knowledge-base-api/src/services/SearchService.ts:89-125 | each knowledge base has a vector leg or is in the full-text leg |
| `Search.VectorChunkIsNowhereElse` | apis/knowledge-base-api/src/services/SearchService.ts:89-125 | with full text weighted zero a chunk of a vector leg is in no other leg |
| `Search.EmbeddedChunksKeepTheVectorRanking` | apis/knowledge-base-api/src/services/SearchService.ts:89-148 | so embedded chunks are fused in the vector ranking |
| `Search.AnswersKeepTheVectorRanking` | apis/knowledge-base-api/src/services/SearchService.ts:89-156 | and answered in it after cut and demotion, demoted ones among themselves |
| `Search.DemotionIsStable` | apis/knowledge-base-api/src/services/SearchService.ts:140-156 | demotion drops nothing and keeps both groups' order |
| `Search.DetailedIff` | apis/knowledge-base-api/src/services/SearchService.ts:137-146 | a hit is answered with its fused score exactly when its details could be read |
| `Search.Find` | apis/knowledge-base-api/src/services/SearchService.ts:75-156 | the answer: fused, cut to the limit, detailed, demoted; which queries are refused; the mode reported |
| `Notifications.PublishesArePaced` | apis/miot-bridge-api/src/services/NotificationDispatchService.ts:73-179 | over any run a publish is at least the interval after every publish and reconnect before it |
| `Notifications.NothingIsPublishedOffline` | apis/miot-bridge-api/src/services/NotificationDispatchService.ts:140-179 | no publish starts while the client is offline |
| `Notifications.NothingIsLost` | apis/miot-bridge-api/src/services/NotificationDispatchService.ts:73-179 | until destroyed: the newest value the events brought of each property waits or was published last, keys are distinct, and a connected queue that holds anything has exactly one timer, set for the end of the interval and still to come |
| `Notifications.ReceivedIsHeard` | apis/miot-bridge-api/src/services/NotificationDispatchService.ts:94-109 | what is received is what the events bring, all of it when notifications are on, else nothing |
| `Notifications.NothingIsInvented` | apis/miot-bridge-api/src/services/NotificationDispatchService.ts:94-179 | only notes received are published |
| `Notifications.DestroyedPublishesNothing` | apis/miot-bridge-api/src/services/NotificationDispatchService.ts:115-123 | once destroyed nothing that waited is published, whatever the broker and the runtime do |
| `Notifications.RunExtendsLine` | apis/miot-bridge-api/src/services/NotificationDispatchService.ts:125-179 | what was published, then what waits, only grows at its end |
| `Notifications.WaitIsBounded` | apis/miot-bridge-api/src/services/NotificationDispatchService.ts:125-179 | a waiting property moves up by exactly the publishes since, and is published in its turn |
| `Notifications.TimerPublishesTheHead` | apis/miot-bridge-api/src/services/NotificationDispatchService.ts:162-179 | a timer firing online publishes what waited longest |
| `Notifications.NotificationDispatchService.Enqueue` | apis/miot-bridge-api/src/services/NotificationDispatchService.ts:125-138 | replaces a waiting value in place or appends it, then schedules |
| `Notifications.NotificationDispatchService.ScheduleTimer` | apis/miot-bridge-api/src/services/NotificationDispatchService.ts:140-153 | arms a timer for the rest of the interval, or publishes at once |
| `Notifications.NotificationDispatchService.PublishHead` | apis/miot-bridge-api/src/services/NotificationDispatchService.ts:162-179 | publishes the head when connected and schedules the next |
| `Notifications.NotificationDispatchService.OnReconnect` | apis/miot-bridge-api/src/services/NotificationDispatchService.ts:73-77 | whatever waits starts over, a full interval from now |
| `Notifications.NotificationDispatchService.OnDestroy` | apis/miot-bridge-api/src/services/NotificationDispatchService.ts:115-123 | stops listening, clears the timer and the queue |
| `Poller.OneTickPendingOrRunning` | apis/miot-bridge-api/src/services/DevicePropertyPollerService.ts:173-243 | started and not stopped, exactly one tick is armed or running, and none begins while one runs |
| `Poller.StopIsFinalIff` | apis/miot-bridge-api/src/services/DevicePropertyPollerService.ts:173-243 | after a stop no tick is ever armed or begun, exactly when the subscriptions had been loaded |
| `Poller.FailsInClosedForm` | apis/miot-bridge-api/src/services/DevicePropertyPollerService.ts:291-453 | errors, pause and polls of a device that always fails, after any number of ticks |
| `Poller.DeadDevicePolls` | apis/miot-bridge-api/src/services/DevicePropertyPollerService.ts:255-453 | in any run, such a device is read `M * (n / (M + S)) + min(n % (M + S), M)` times in `n` ticks |
| `Poller.HealthyDevicePolls` | apis/miot-bridge-api/src/services/DevicePropertyPollerService.ts:255-453 | a device that always answers is read once every tick |
| `Poller.ReadsTellOnTheirDevice` | apis/miot-bridge-api/src/services/DevicePropertyPollerService.ts:359-453 | a read changes the error count and pause of its device alone, and how |
| `Poller.ErrorCountsStayInRange` | apis/miot-bridge-api/src/services/DevicePropertyPollerService.ts:408-453 | a recorded error count is at least one and below the limit |
| `Poller.CachedValuesAreSubscribed` | apis/miot-bridge-api/src/services/DevicePropertyPollerService.ts:136-167 | however subscribing interleaves with reads, every cached value has a live subscription |
| `Poller.EventsAreChained` | apis/miot-bridge-api/src/services/DevicePropertyPollerService.ts:374-406 | in every run, as long as no two subscriptions share a key and dropping spares other devices' keys, an event's old value is the one emitted before it since it was last subscribed |
| `Poller.EventsAreChanges` | apis/miot-bridge-api/src/services/DevicePropertyPollerService.ts:374-406 | with dispatch on change every event's new value differs from its old one, in every run |
| `Poller.AnswersAreReported` | apis/miot-bridge-api/src/services/DevicePropertyPollerService.ts:359-412 | in any run, once an answer is in, every property not refused and still subscribed was last emitted with the value read; what was emitted reports such readings of that device only; a failed or late read reports nothing |
| `Poller.EveryReadingIsEmitted` | apis/miot-bridge-api/src/services/DevicePropertyPollerService.ts:374-406 | without dispatch on change every such reading is emitted |
| `Poller.SubscriptionsAreWanted` | apis/miot-bridge-api/src/services/DevicePropertyPollerService.ts:136-193 | a property is subscribed exactly when the events ask for it last |
| `Poller.DropsAreTold` | apis/miot-bridge-api/src/services/DevicePropertyPollerService.ts:147-167 | an emitted value is forgotten exactly when its subscription is dropped |
| `Poller.EventsAreChainedIff` | apis/miot-bridge-api/src/services/DevicePropertyPollerService.ts:136-167 | given the pairs that may be subscribed and the ids that may be dropped, every run is chained exactly when no two pairs share a key and no dropped id's prefix begins another device's key |
| `Poller.PlainIdsAreSeparate` | apis/miot-bridge-api/src/services/DevicePropertyPollerService.ts:136-167 | ids without a colon, dropped ones included, are enough, whatever the property keys |
| `Poller.DroppingAnotherBreaksTheChain` | apis/miot-bridge-api/src/services/DevicePropertyPollerService.ts:162-167 | a run in which dropping an id that is a prefix of another device's key forgets that device's value |
| `Poller.ServiceNameBreaksTheChain` | apis/miot-bridge-api/src/services/DevicePropertyPollerService.ts:162-167 | such an id is any device's id, a colon and the service of its property |
| `Poller.SharedKeyBreaksTheChain` | apis/miot-bridge-api/src/services/DevicePropertyPollerService.ts:374-406 | a run in which two subscriptions with one key take each other's old values |
| `Poller.DevicePropertyPollerService.DueDevices` | apis/miot-bridge-api/src/services/DevicePropertyPollerService.ts:291-307 | the subscribed devices not in back-off, each once; the others one cycle closer |
| `Poller.DevicePropertyPollerService.Tick` | apis/miot-bridge-api/src/services/DevicePropertyPollerService.ts:226-243 | a timer that fires begins one tick over the due devices |
| `Poller.DevicePropertyPollerService.ReadDevice` | apis/miot-bridge-api/src/services/DevicePropertyPollerService.ts:359-453 | the outcome of a read on cache, counters and schedule |
| `Poller.DevicePropertyPollerService.Notice` | apis/miot-bridge-api/src/services/DevicePropertyPollerService.ts:374-406 | the loop over one answer's properties |
| `Poller.DevicePropertyPollerService.AddSubscriptions` | apis/miot-bridge-api/src/services/DevicePropertyPollerService.ts:136-140 | adds properties to a device's set, an empty list too |
| `Poller.DevicePropertyPollerService.RemoveSubscription` | apis/miot-bridge-api/src/services/DevicePropertyPollerService.ts:147-156 | removes one subscription with its cached value, and the device with its last |
| `Poller.DevicePropertyPollerService.RemoveAllSubscriptions` | apis/miot-bridge-api/src/services/DevicePropertyPollerService.ts:162-167 | removes a device and every cached key under its prefix |
| `Poller.DevicePropertyPollerService.StopPolling` | apis/miot-bridge-api/src/services/DevicePropertyPollerService.ts:214-220 | forgets and clears the timer |
| `Clocks.NextIsInTime` | packages/miot-device/src/DeviceClock.ts:82-88 | the next stamp is the device's clock or one more, up to the skew of the clocks |
| `Clocks.RestoreIsTruthful` | packages/miot-device/src/DeviceClock.ts:68-74 | a restored reading is placed at the time it was taken, up to the skew |
| `Clocks.EchoIsIgnored` | packages/miot-device/src/DeviceClock.ts:55-59 | an echo of the packet in flight never re-bases the clock |
| `Clocks.AnswerKeeps` | packages/miot-device/src/DeviceClock.ts:55-59 | neither does the device's own clock when the clocks agree |
| `Clocks.EveryStampIsInTime` | packages/miot-device/src/DeviceClock.ts:43-88 | in any sequence of hellos, sends, answers, losses, restores and resets in which no hello or restore puts the clock behind a packet in flight, every stamp sent is the device's clock or one more |
| `Clocks.HelloIsNotBehind` | packages/miot-device/src/DeviceClock.ts:42-45 | when the clocks agree a hello never does |
| `Clocks.RestoreIsSafeIff` | packages/miot-device/src/DeviceClock.ts:55-88 | after a restore every careful continuation stays in time exactly when the restored reading's next stamp is not behind the packet in flight |
| `Clocks.RestoringInFlightRebases` | packages/miot-device/src/DeviceClock.ts:55-74 | a restore under a packet in flight breaks that |
| `Clocks.DeviceClock.Observe` | packages/miot-device/src/DeviceClock.ts:55-59 | takes only a stamp ahead of the next one |
| `Clocks.DeviceClock.Restore` | packages/miot-device/src/DeviceClock.ts:68-74 | ages a reading that has a time and ignores one that has none |
| `Clocks.DeviceClock.Next` | packages/miot-device/src/DeviceClock.ts:82-88 | the stamp to send, or an error without a reading |
| `MiotDevices.CommandStory` | packages/miot-device/src/MiotDevice.ts:167-247 | what a command does is a first attempt, a handshake, a second attempt and one persisting; which of them happen and what the outcome is are forced by connection, store, reading and answers |
| `MiotDevices.CommandIsBounded` | packages/miot-device/src/MiotDevice.ts:167-237 | a command makes at most one handshake and sends each packet at most twice |
| `MiotDevices.AcknowledgedIsLast` | packages/miot-device/src/MiotDevice.ts:167-247 | once all packets of a command were acknowledged in a row nothing more is sent, and the command has succeeded |
| `MiotDevices.PersistingNeverResends` | packages/miot-device/src/MiotDevice.ts:239-247 | a store that fails to persist changes neither outcome, clock nor packets |
| `MiotDevices.AfterHelloIsInTime` | packages/miot-device/src/MiotDevice.ts:200-237 | whatever the cached clock was, every packet after the handshake is in time |
| `MiotDevices.CommandIsInTime` | packages/miot-device/src/MiotDevice.ts:167-198 | with a reading of this device or none, every packet of a command is in time |
| `MiotDevices.CommandLeavesGenuine` | packages/miot-device/src/MiotDevice.ts:167-247 | and it leaves a reading of the device, or none, and persists no other |
| `MiotDevices.CommandsStayInTime` | packages/miot-device/src/MiotDevice.ts:167-247 | so do any number of commands in a row, each going on from the last one's clock and from what the store got |
| `MiotDevices.NewDeviceStaysInTime` | packages/miot-device/src/MiotDevice.ts:167-247 | from a new device with an empty store every packet ever sent is in time |
| `MiotDevices.MiotDevice.RunWithStamp` | packages/miot-device/src/MiotDevice.ts:167-198 | one command: load, send, drop the reading and retry once |
| `MiotDevices.MiotDevice.RunWithFreshStamp` | packages/miot-device/src/MiotDevice.ts:200-237 | handshake, then one attempt |
| `MiotDevices.MiotDevice.SendAll` | packages/miot-device/src/MiotTransport.ts:193-214 | packets in turn until one is not acknowledged |
| `MiotDevices.MiotDevice.SendCommand` | packages/miot-device/src/MiotTransport.ts:270-352 | one packet: its stamp, its answer, what the clock observes |
| `Resilience.LastAttemptIsFirstToStop` | packages/resilience/src/ResiliencePolicy.ts:261-297 | retrying stops at the first attempt that succeeds, may not be retried, or uses up the budget |
| `Resilience.GoesOnIff` | packages/http-provider/src/HttpProviderFactory.ts:51-60 | an attempt is followed by another exactly when one is left and it failed without a response or with a configured status |
| `Resilience.MayRetryIff` | packages/http-provider/src/HttpProviderFactory.ts:39-44 | the six methods are retried by default, whatever their case; the call's own choice wins |
| `Resilience.Execute` | packages/resilience/src/ResiliencePolicy.ts:261-297 | the loop makes exactly those attempts, and none once the caller gave up |
| `HttpReplay.EachGenerationIsInvalidatedOnce` | packages/http-provider/src/HttpProviderFactory.ts:276-322 | for any interleaving of requests, one 401 at most invalidates a credential generation |
| `HttpReplay.AdapterCallsAreBounded` | packages/http-provider/src/HttpProviderFactory.ts:228-322 | no request is replayed twice; at most `2 * (count + 1)` adapter calls, two when it may not be retried |
| `HttpReplay.ReplaysUseNewerCredentials` | packages/http-provider/src/HttpProviderFactory.ts:276-322 | a replay never goes out under the refused generation |
| `HttpReplay.FirstRefusalsInvalidate` | packages/http-provider/src/HttpProviderFactory.ts:276-322 | over any interleaving, credentials are dropped for exactly the generations under which some request met its first 401, each once, in the order of the first of those |
| `HttpReplay.CallersSeeTheSecondRefusal` | packages/http-provider/src/HttpProviderFactory.ts:276-322 | a caller gets a 401 exactly when its request was refused twice; refused once, it is replayed, and what it was refused for has been dropped |
| `HttpReplay.CallersGetTheLastResult` | packages/http-provider/src/HttpProviderFactory.ts:228-322 | a caller gets the result of the last attempt the events made, once that may not be retried; adapter calls and passes are those of the events; without usable credentials nothing is sent |
| `HttpReplay.RequestsCarryTheirGeneration` | packages/http-provider/src/HttpProviderFactory.ts:281-296 | a request carries the number of invalidations there had been when it was last sent off |
| `HttpReplay.Provider.OnAttempt` | packages/http-provider/src/HttpProviderFactory.ts:228-250 | one attempt under the policy, and what follows from it |
| `HttpReplay.Provider.OnSettled` | packages/http-provider/src/HttpProviderFactory.ts:276-322 | the response interceptor |
| `Frontmatters.FirstWhereIsFirst` | apis/knowledge-base-api/src/services/FrontmatterService.ts:15 | the header ends at the first line break a closing line follows |
| `HeaderGrammar.SplitHeaderIff` | apis/knowledge-base-api/src/services/FrontmatterService.ts:15-36 | a document has this header and this body exactly when it is so written: an opening line, the header, the first line break that a closing line follows |
| `Frontmatters.WrittenHeaderIsReadIff` | apis/knowledge-base-api/src/services/FrontmatterService.ts:15-36 | a written document is split at exactly its header when and only when no header line but the first closes it |
| `Frontmatters.BodyIsTheRest` | apis/knowledge-base-api/src/services/FrontmatterService.ts:29-36 | the header follows the opening line, the body runs to the end |
| `Validation.KebabIff` | apis/knowledge-base-api/src/services/DocumentValidationService.ts:10-13 | the scan accepts exactly words joined by single hyphens |
| `Validation.NoteIdIff` | apis/knowledge-base-api/src/services/DocumentValidationService.ts:123-138 | a note id is exactly a real date and a kebab-case slug |
| `Validation.PathsIff` | apis/knowledge-base-api/src/services/DocumentValidationService.ts:95-127 | written may be exactly a spec or plan of a real date; deleted exactly one of any date, or a note of a real date |
| `Validation.MonthsAreCommon` | apis/knowledge-base-api/src/services/DocumentValidationService.ts:130-138 | the days of each month |
| `Validation.LeapIff` | apis/knowledge-base-api/src/services/DocumentValidationService.ts:130-138 | which years leap |
| `Validation.WhatMayBeRewritten` | apis/knowledge-base-api/src/services/DocumentValidationService.ts:95-127 | whatever may be rewritten may be deleted; a note may only be deleted |
| `Notes.SlugIsKebab` | apis/knowledge-base-api/src/services/NoteRenderService.ts:104-120 | a slug is empty or kebab-case of at most 60 characters |
| `Notes.CutIsWholeWords` | apis/knowledge-base-api/src/services/NoteRenderService.ts:112-119 | a long slug keeps as many whole words as fit, or 60 characters of one word |
| `Notes.SlugKeepsLetters` | apis/knowledge-base-api/src/services/NoteRenderService.ts:104-120 | uncut, a slug has exactly the title's letters and digits in order |
| `Notes.ProblemsAreWhatBreaks` | apis/knowledge-base-api/src/services/NoteRenderService.ts:42-76 | a request is refused for exactly the rules it breaks |
| `Notes.Render` | apis/knowledge-base-api/src/services/NoteRenderService.ts:36-101 | the note, or every problem found |
| `Notes.HeaderIsReadBack` | apis/knowledge-base-api/src/services/NoteRenderService.ts:78-100 | whatever the free text holds, parsing an accepted note yields exactly its rendered header, field by field, and its body |
| `NoteBodies.HeaderSaysTheRequest` | apis/knowledge-base-api/src/services/NoteRenderService.ts:78-87 | each field of the header reads as it was given |
| `NoteBodies.AuthorIsReadBack` | apis/knowledge-base-api/src/services/NoteRenderService.ts:85 | an author is written as is or as a quoted string that reads as it |
| `NoteBodies.BodyShowsTheRequest` | apis/knowledge-base-api/src/services/NoteRenderService.ts:88-128 | the body, line by line: the title, then the sections asked for and no other, each below its own heading |
| `NoteBodies.ListLinesAreItems` | apis/knowledge-base-api/src/services/NoteRenderService.ts:126-127 | every line of a list starts with a dash or is moved in by two, whatever its items hold |
| `NoteBodies.AcceptedIff` | apis/knowledge-base-api/src/services/NoteRenderService.ts:42-76 | a request is accepted exactly when all its rules hold, each told by the request |
| `Notes.AcceptedIdIsValid` | apis/knowledge-base-api/src/services/NoteRenderService.ts:96-120 | an accepted note's id is a note id, can be deleted and never rewritten |

## Left out

- `extractTitle`, entries of glossaries beyond their cutting mode, and the work-document check beyond its path.
- Characters are single code units; a fragment may split a surrogate pair as the code's does, which is not shown.
- The section being filled is the last of a sequence instead of a shared object; bodies are cut before chunks are made.
- Regular expressions are scanners; `cleanHeading`, `slugify` and Unicode normalisation are parameters.
- The order in which the poller lists its subscriptions is left open, so every order is covered; nothing is said of
  which due device is read first.
- A listener that throws while a property change is emitted; tracing, sampling, metrics and logging everywhere.
- Indexer.IndexerService.Index: one writer while vectors are embedded, so the `inserted === 0` exit does not occur; runs
  that interleave are covered by the coherence of the store only.
- IndexStore.HistoryRowsAreCut: the chunker and its limits stay the same throughout; a document whose limits changed is
  only right again after its next write.
- The advisory lock's refusal, per-knowledge-base outcomes and retries of the indexing loop's run, and its status report.
- Sorting is an insertion sort where the code calls the library's sort; the result is unique, so no order is lost.
- Circuit breaker, timeouts and delays of the resilience policy: an attempt may be rejected by the policy at any time.
- Notifications.NothingIsLost: a publish counts when it starts; whether the broker accepts it is not modelled.
- `discover` and `connect` beyond the hello they give the clock, and the queue that runs a device's commands one at a
  time. An observed stamp is compared and stored at one moment.
- Which error a rejected device command carries, beyond whether its stamp was refreshed.
- The parsing of YAML, JSON bodies, tokens, UDP packets, SQL and HTTP.
- Clocks.EveryStampIsInTime: runs in which a hello or a restore puts the clock behind a packet in flight, where it
  fails; for clocks that differ by a skew only that such runs are outside is shown, not exactly which of them fail.
- The text of refused notes' messages, and unpaired surrogates in a quoted author.
