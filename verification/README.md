# Open Chords: a verified model

This project models the core of Open Chords in Dafny and proves what its parts promise each other. A
*timed project* holds tracks of half-open sample intervals (chords, bars, sections, keys), a tree of edit
transactions over them, lyrics aligned to time, and projections of both to other forms.

`dafny verify dfyconfig.toml` checks everything.

## How it is laid out

| Part | Files |
|---|---|
| Records and shared sequence facts | `Wrappers`, `Sequences`, `Schema` |
| Edit engine and validators | `Edits`, `BarEdits`, `BarSplit`, `Invariants`, `ProjectRules`, `History`, `Anchors`, `Projection`, `ProjectionAgreement`, `Renaming`, `EditMapping`, and what they come to: `EditMeaning`, `HistoryReading`, `ReviewMeaning`, `AnchorMeaning`, `ValidityMeaning` |
| Lead sheet | `TimeOrder`, `LeadSheetRows`, `LeadSheetLayout`, `LeadSheetTracks`, `LeadSheet`, `ChordsOverWords`, `SectionLayout`, `LeadSheetPage` |
| Lyrics files | `LyricsText`, `Lrc`, `LrcPrinting`, `LrcImport`, `LrcTimes`, `LrcRoundTrip`, `LyricsDocuments`, `SubtitleFile`, `SubtitleTimes`, `SubtitleClocks`, `LyricsImport`, `SubtitleText`, `LyricsSyntax`, `AddLyrics`, `CuePlacement` |
| Alignment chain | `AlignmentWorker`, `AlignmentWords`, `WordPlacement`, `AlignmentPublication` |
| Benchmark metrics | `MetricValue`, `EventMatching`, `IntervalSweep` |
| Step protocols | `AlignmentJobs`, `AlignmentJobSteps`, `Acquisition`, `AcquisitionSteps`, `CpuGate`, `CpuGateFates`, `SidecarSession`, `SidecarFrames` |
| Encodings | `CanonicalJson`, `CanonicalOrder`, `CanonicalText`, `JsonReading`, `CommandLine` |

Code that changes state step by step is a method or a class whose contract equates the new state with a
specification function; the promises are lemmas about those functions. Protocols are state machines: an
event for every step another party could see, and invariants over every run. What the specification
functions come to is stated again without them: of records by their ids, of samples, of characters, and of
the events of a run.

Assumptions stand in the contracts. The word pattern is any tokenizer that returns ordered, disjoint,
non-empty matches (`ProperTokenizer`); the speech aligner is any function that returns ordered intervals
(`ProperEngine`); rounding to samples is any monotone function (`Monotone`); numbers are written by any
injective function over the characters of JSON numbers (`ProperDigits`), and read by one that undoes it
(`ReadsDigits`). Where words land is said for any rounding to within half a sample (`Nearest`). Times are exact rationals. A text
is a sequence of UTF-16 code units. Identifiers are strings.

`MovedEditsCommute` renames all ids; the one-to-one mapping of a review always extends to such a renaming
(`BijectiveMappingsExtend`).

## What turned out otherwise than promised

* The F-measure is symmetric only if neither or both inputs are empty (`FMeasureIsSymmetric`).
* A printed LRC file is refused when a line has U+2028, U+2029 or an inner time tag, or when two lines come
  back at one sample (`PrintThenRead`, `CollidingFileIsRefused`). The latter cannot happen up to 50 samples a
  second, from 100 on, and at 51, 52, 55, 60 and 75, and can at every other rate (`RatesThatAlwaysIncrease`).
* Adding lyrics checks that the document id is free, but not the id it derives for the alignment
  (`AddingIsValidExactlyWhenTheAlignmentIdIsFree`, `AddingCanBreakAValidProject`).
* The rules for documents do not say that tokens come line by line (`ValidDocumentsMayCrossLines`), as they
  do in every imported document; ordered words always give ordered line timings exactly if they do
  (`OrderedWordsAlignExactlyLineByLine`).
* Reopening acquisition jobs after a program stopped, without a crash that settles the disk, trusts what it
  sees of the catalogue. A snapshot that was taken back can return beside a job recorded as failed
  (`TakenBackSnapshotCanReturn`). A snapshot whose rename was not yet synced can be lost although its job is
  recorded as succeeded, and for that no sync has to fail (`StoppedPublicationCanBeLost`). Reopening is safe
  from both exactly when what is seen is what a crash would leave (`ReopenIsSoundExactlyWhenSettled`).
* A success of an alignment job is shown as soon as its record is renamed into place. It is final exactly
  when a synced state file has shown it, by the write that recorded it or by a later one
  (`SuccessIsSafeExactlyWhenShownSynced`, `RecordedSuccessIsSafeExactlyWhenSynced`); if that sync failed, a
  crash can take the success back (`UnsyncedSuccessCanBeLost`).
* Empty arguments do not survive quoting (`QuotingRoundTripsExactlyWithoutEmptyArguments`).

## Model

| member | source | states |
|---|---|---|
| `EventMatching.MatchEvents` | tools/benchmark/metrics.ts:285-303 | The greedy two-pointer matcher returns the size of a largest one-to-one pairing within tolerance: one pairing has that size and none is larger. |
| `EventMatching.NothingLostByMatching` | tools/benchmark/metrics.ts:291-298 | Matching the two events at hand loses nothing: no pairing of the whole input beats the matches made plus some pairing of the rest (the exchange argument). |
| `EventMatching.FMeasure` | tools/benchmark/metrics.ts:304-312 | The score is 2n over the number of events, n the size of a largest pairing, and does not apply without reference events. |
| `EventMatching.FMeasureIsAFraction` | tools/benchmark/metrics.ts:304-312 | A score lies in [0, 1]. |
| `EventMatching.FMeasureIsSymmetric` | tools/benchmark/metrics.ts:304-312 | Exchanging the inputs keeps the score exactly when both or neither of them is empty. |
| `IntervalSweep.Sweep` | tools/benchmark/metrics.ts:187-207 | The forward-only sweep, expanded sample by sample, is every gold sample once and in order, with the predicted region that contains it or none; every piece is non-empty. |
| `IntervalSweep.EverySampleInItsPlace` | tools/benchmark/metrics.ts:187-207 | The expansion has every sample of every gold region in its place, with a predicted region that contains it, or none if no predicted region does. |
| `IntervalSweep.Agreement` | tools/benchmark/metrics.ts:208-221 | The ratio equals the count of correct over eligible gold samples, counted one sample at a time. |
| `IntervalSweep.CalibrationCells` | tools/benchmark/metrics.ts:423-436 | Cells and eligible samples spell out the calibration record of every gold sample. |
| `IntervalSweep.CalibratedExactly` | tools/benchmark/metrics.ts:423-436 | A gold sample counts with the confidence of a prediction that has one and has not abstained, as right exactly when the values agree. |
| `Invariants.ValidateUniqueIds` | packages/domain/src/invariants.ts:21-31 | Accepts exactly the lists without a repeated id. |
| `Invariants.ValidateCover` | packages/domain/src/invariants.ts:33-53 | Accepts exactly the tracks of non-empty intervals that tile the project from 0 to its duration. |
| `ValidityMeaning.CoversMeanPartitions` | packages/domain/src/invariants.ts:33-53 | A track covers the project exactly when its intervals are non-empty, in order, and hold every sample of the project, and no other, once. |
| `Invariants.ValidateOrdered` | packages/domain/src/invariants.ts:55-63 | Accepts exactly the tracks with strictly increasing starts. |
| `Invariants.ValidateSortedUnique` | packages/domain/src/invariants.ts:65-72 | Accepts exactly the strictly increasing component lists. |
| `ValidityMeaning.PrecedesMeans` | packages/domain/src/invariants.ts:65-72 | Components are ordered by the first character in which they differ, a beginning before what it begins. |
| `ValidityMeaning.ComponentsAscend` | packages/domain/src/invariants.ts:65-72 | Checked between neighbours, the order holds between any two components of a list, for all four lists of a chord. |
| `Invariants.ValidateBar` | packages/domain/src/invariants.ts:100-120 | Accepts exactly the bars with a downbeat at the start, ordinary beats in order inside, unique beat ids and a count that suits meter and status. |
| `Invariants.AnySortedOrderDecides` | packages/domain/src/invariants.ts:91-98 | Bars and unmetered regions tile the project in some order exactly when they do when sorted by start, whatever breaks ties. |
| `Invariants.ValidateTimeline` | packages/domain/src/invariants.ts:74-132 | Accepts exactly the valid timelines: ids, tracks, bars and chord components. |
| `ValidityMeaning.EverySampleOnce` | packages/domain/src/invariants.ts:74-132 | In a valid timeline every sample of the project has exactly one chord, one section and one key. |
| `ValidityMeaning.RecordsAreNamedApart` | packages/domain/src/invariants.ts:74-87 | In a valid timeline no two records of a kind share an id. |
| `ValidityMeaning.EverySampleIsMeteredOrNot` | packages/domain/src/invariants.ts:91-98 | In a valid timeline every sample is in a bar or in a region without meter. |
| `ValidityMeaning.NoSampleTwice` | packages/domain/src/invariants.ts:91-98 | ... and never in two of them, although the order in which they tile the project is not given. |
| `Invariants.ValidateTimingSequence` | packages/domain/src/invariants.ts:134-152 | One cursor decides whether all pairs of matched timings are ordered and disjoint, each non-empty and inside the project. |
| `Invariants.ValidateAlignment` | packages/domain/src/invariants.ts:154-189 | Accepts exactly the alignments that list every token and line once in document order with timings in order. |
| `ProjectRules.ValidateDocument` | packages/domain/src/invariants.ts:354-384 | Accepts exactly the documents with unique ids, ordered disjoint offsets, tokens of known lines, and tokens that read back from the text. |
| `ProjectRules.ValidateLayer` | packages/domain/src/invariants.ts:229-278 | Accepts exactly the layers with unique transactions, earlier parents, valid anchors at every position, and known lyrics targets. |
| `ValidityMeaning.KnownTargets` | packages/domain/src/invariants.ts:253-273 | A word or line can be retimed exactly if it is listed in an alignment of the revision the layer is for. |
| `ValidityMeaning.AlignmentsList` | packages/domain/src/invariants.ts:134-189 | An alignment is valid exactly when it lists the tokens and lines of its document in order, every timed one with time of its own in the project, and none sung before an earlier one is over. |
| `ProjectRules.ValidateProject` | packages/domain/src/invariants.ts:191-400 | Accepts exactly the valid projects: distinct ids and earlier identities, revisions in scope with valid timelines and known claims, valid layers, alignments and documents, recipes in scope with valid anchors, and a view whose records belong together. |
| `ValidityMeaning.ViewMeans` | packages/domain/src/invariants.ts:290-397 | A view is valid exactly when it selects a saved position of a layer on its revision, and either no lyrics or a document with an alignment of it to that revision. |
| `ValidityMeaning.RecipeScope` | packages/domain/src/invariants.ts:321-335 | A recipe is valid exactly when it was made for the alignment's document and revision, for this audio, for the project or one it was imported from, and from accepted anchors. |
| `ValidityMeaning.RevisionScope` | packages/domain/src/invariants.ts:213-219 | A revision is valid exactly when its timeline is, it belongs to the project or to one it was imported from, and it cites known claims. |
| `ValidityMeaning.RecordScope` | packages/domain/src/invariants.ts:321-352 | An alignment record is valid exactly when it is for a revision and a document of the project, is a valid alignment of that document, and its recipe, if any, is valid. |
| `History.ValidateParents` | packages/domain/src/invariants.ts:229-248 | Accepts exactly the histories in which every parent is an earlier transaction. |
| `History.WalkChain` | packages/domain/src/projection.ts:175-182 | Following parent pointers from a position terminates and gives a chain of transactions of the history: the first has no parent, each other names the one before it, the last is the selected one; their operations come in this order. A position out of range gives none. |
| `History.OneChainOfParents` | packages/domain/src/projection.ts:175-182 | There is only one such chain, so the walk finds exactly it. |
| `Anchors.ValidateAnchors` | packages/domain/src/invariants.ts:402-444 | Comparing neighbours in token order accepts exactly the anchor lists in which no two anchors of a document conflict, repeated ones included, and each is in scope. |
| `AnchorMeaning.AcceptedAnchors` | packages/domain/src/invariants.ts:402-444 | Accepted are exactly up to a thousand anchors of the revision, each for tokens of a document and with time in the project, if of any two for one document one has its tokens and its time before those of the other. |
| `Anchors.SortingDecides` | packages/domain/src/invariants.ts:425-442 | In token order, neighbours apart is the same as all pairs apart. |
| `Anchors.ValidateAnchorHistory` | packages/domain/src/invariants.ts:229-277 | Fills a table in which the entry of a transaction is that of its parent, or no anchors, with its own edits; accepts exactly when every removal finds its anchor and every entry is valid. |
| `Anchors.AcceptedHistories` | packages/domain/src/invariants.ts:229-277 | A history is accepted exactly when, after every transaction, all anchors removed by it had been there and those left are accepted, said of any table that follows the parents. |
| `Anchors.LastEditCounts` | packages/domain/src/alignment.ts:57-65 | After any edits an anchor is there exactly if the last edit of its id set it, or if none touched it and it was there before. |
| `Anchors.ResolveLyricsAnchors` | packages/domain/src/alignment.ts:46-73 | Returns the anchors of the chain's edits, folded from the root, that belong to the selected document and revision. |
| `HistoryReading.AnchorsSeen` | packages/domain/src/alignment.ts:46-73 | What a reader sees are the anchors of the selected document and revision left by the edits along the chain of parents, said of that chain and not of the walk. |
| `Anchors.AnchorsStayDistinct` | packages/domain/src/alignment.ts:59-65 | Whatever edits follow, anchor ids stay unique. |
| `Edits.MutableTimeline.MoveBeat` | packages/domain/src/projection.ts:82-87 | In-place search and move, equal to the specification of the edit; fails exactly when no bar has the beat. |
| `Edits.MutableTimeline.ReplaceChordSequence` | packages/domain/src/projection.ts:19-58 | Splices the redrawn events over the saved span, keeping the assertion of unchanged ones; fails exactly when the span, identities or outer boundaries do not fit. |
| `Edits.MutableTimeline.ReplaceChordValue` | packages/domain/src/projection.ts:59-64 | Replaces value and assertion of the named event. |
| `Edits.MutableTimeline.ReplaceSectionLabel` | packages/domain/src/projection.ts:65-70 | Replaces label and assertion of the named region. |
| `Edits.MutableTimeline.MoveChordBoundary` | packages/domain/src/projection.ts:71-81 | Moves the shared boundary of two adjacent events; fails exactly when they are not adjacent in this order. |
| `Edits.MutableTimeline.MoveBarBoundary` | packages/domain/src/projection.ts:88-101 | Moves the boundary and the right downbeat; fails exactly when the bars are not adjacent or the right one has no beats. |
| `Edits.MutableTimeline.SetBarMeter` | packages/domain/src/projection.ts:102-105 | Sets the meter of the named bar. |
| `Edits.MutableTimeline.SplitBar` | packages/domain/src/projection.ts:106-127 | Cuts the bar in two; fails exactly when it is missing or a beat stands at the cut. |
| `Edits.MutableTimeline.MergeBars` | packages/domain/src/projection.ts:128-141 | Joins two adjacent bars, the right downbeat becoming an ordinary beat. |
| `Edits.MutableAlignment.EditInPlace` | packages/domain/src/projection.ts:142-158 | Retimes one token or line of the named alignment and leaves other alignments alone. |
| `Edits.ApplyOperation` | packages/domain/src/projection.ts:14-159 | Carries out any of the thirteen operations in place with the specified result and the specified failures. |
| `EditMeaning.ReplacedValue` | packages/domain/src/projection.ts:59-64 | With distinct ids, the named chord has the given value, is the user's, and keeps its interval; every other record stays. |
| `EditMeaning.NoValueToReplace` | packages/domain/src/projection.ts:59-64 | Fails when there is no such chord. |
| `EditMeaning.RedrawnSequence` | packages/domain/src/projection.ts:19-58 | A redrawing of events that stand together succeeds exactly when its drafts are for these events, each once, and keep the outer boundaries. |
| `EditMeaning.RedrawnEvents` | packages/domain/src/projection.ts:19-58 | Then each event is as its draft says, an unchanged one keeps its assertion, and all others stay in place. |
| `EditMeaning.NoSequenceToRedraw` | packages/domain/src/projection.ts:19-58 | Fails when the named events do not stand together in this order, or none is named. |
| `EditMeaning.MovedChordBoundary` | packages/domain/src/projection.ts:71-81 | Of two neighbours the left ends and the right begins at the sample; nothing else changes. |
| `EditMeaning.NoChordBoundary` | packages/domain/src/projection.ts:71-81 | Fails when the named chords are no neighbours in this order. |
| `EditMeaning.MovedBeat` | packages/domain/src/projection.ts:82-87 | The named beat stands at the sample; nothing else changes. |
| `EditMeaning.NoBeatToMove` | packages/domain/src/projection.ts:82-87 | Fails when no bar has the beat. |
| `EditMeaning.MovedBarBoundary` | packages/domain/src/projection.ts:88-101 | The left bar ends and the right bar and its downbeat begin at the sample; nothing else changes. |
| `EditMeaning.NoBarBoundary` | packages/domain/src/projection.ts:88-141 | Moving a bar boundary and merging fail when the named bars are no neighbours in this order. |
| `EditMeaning.MeterIsSet` | packages/domain/src/projection.ts:102-105 | The named bar has the meter; nothing else changes. |
| `EditMeaning.NoBarToEdit` | packages/domain/src/projection.ts:102-127 | Setting a meter and splitting fail when there is no such bar. |
| `EditMeaning.BarIsSplit` | packages/domain/src/projection.ts:106-127 | The left half keeps id, meter and the beats before the cut; the right half has the new id, meter, status and downbeat and the beats behind it, as ordinary beats. |
| `EditMeaning.BeatAtTheCut` | packages/domain/src/projection.ts:106-127 | Fails when a beat stands at the cut. |
| `EditMeaning.ValidBarsCanBeCut` | packages/domain/src/projection.ts:106-127 | In a valid bar every other sample has all beats before it or behind it, each on one side. |
| `EditMeaning.BarsAreMerged` | packages/domain/src/projection.ts:128-141 | The merged bar has the left id, reaches to the end of the right bar, and has all beats, those of the right bar as ordinary beats. |
| `EditMeaning.ReplacedLabel` | packages/domain/src/projection.ts:65-70 | The named region has the label and is the user's; nothing else changes. |
| `EditMeaning.NoLabelToReplace` | packages/domain/src/projection.ts:65-70 | Fails when there is no such region. |
| `EditMeaning.RetimedToken` | packages/domain/src/projection.ts:142-150 | The named token of the named alignment has the timing; other tokens, lines and alignments stay. |
| `EditMeaning.RetimedLine` | packages/domain/src/projection.ts:151-158 | The same for a line. |
| `EditMeaning.NothingToRetime` | packages/domain/src/projection.ts:142-158 | Fails in the named alignment when it does not list the token or line. |
| `EditMeaning.OthersStay` | packages/domain/src/projection.ts:14-159 | An edit of one track leaves all other tracks as they were. |
| `EditMeaning.ValidTimelinesQualify` | packages/domain/src/projection.ts:14-159 | In a valid timeline ids are distinct, those of beats in all bars, so all of this holds there. |
| `BarEdits.NoBeatIsLost` | packages/domain/src/projection.ts:82-141 | Every edit keeps the beats, counted by id, and only a split adds one, with the new id. |
| `BarSplit.SplitIsValidExactlyWhenSplittable` | packages/domain/src/projection.ts:106-127 | On a valid timeline a split gives a valid one exactly when the point is strictly inside the bar, hits no beat, the new ids are fresh, and the beat counts suit statuses and meters. |
| `BarSplit.MergingTheHalves` | packages/domain/src/projection.ts:106-141 | Merging the two halves of a split gives back the bar with one extra ordinary beat at the cut, and the other bars as they were. |
| `Projection.MaterializeEffectiveTimeline` | packages/domain/src/projection.ts:161-204 | Returns the validated fold of the chain's operations over the revision and the selected alignment, or fails exactly when the specification does. |
| `HistoryReading.ReadingFollowsParents` | packages/domain/src/projection.ts:161-204 | What is read is the revision with the edits along the chain of parents up to the selected position, validated, said of that chain and not of the walk. |
| `Projection.CommitLayer` | packages/domain/src/projection.ts:211-254 | Fills a table in which the state of a transaction is that of its parent, or the revision with its alignments, with its own edits, and every state is valid; fails exactly when there is no such table. |
| `Projection.FollowingTableIsStored` | packages/domain/src/projection.ts:211-254 | Any table that follows the parents is the one that is filled. |
| `Projection.ValidateCommittedEditLayerProjections` | packages/domain/src/projection.ts:211-254 | Accepts exactly the projects in which every layer commits at every position. |
| `Projection.LayerCommitsOnItsRevision` | packages/domain/src/projection.ts:211-254 | A layer commits exactly when there is a table of states, each that of the parent, or of the layer's own revision, with the operations applied and found valid. |
| `ProjectionAgreement.ChainWalkAgreesWithMemo` | packages/domain/src/projection.ts:161-254 | On an accepted project, for every history position, the chain walk does not fail and gives the stored timeline with the stored copy of the selected alignment. |
| `ProjectionAgreement.EditIsSeen` | packages/domain/src/projection.ts:223-245 | One edit of all alignments of a state looks to a reader of one alignment like the edit of that one. |
| `ProjectionAgreement.EditFailsAsSeen` | packages/domain/src/projection.ts:223-245 | It fails exactly when the alignment it names is missing, or when it fails for a reader of that alignment. |
| `ProjectionAgreement.AnchorWalkAgreesWithMemo` | packages/domain/src/alignment.ts:46-73 | The anchors read along the chain are the selected ones of the validator's table entry, and that entry is valid. |
| `Renaming.EditCommutes` | packages/domain/src/edit-history.ts:73-115 | Renaming ids one-to-one commutes with any timeline edit, failures included. |
| `Renaming.ValidityRenamed` | packages/domain/src/invariants.ts:74-132 | A one-to-one renaming neither makes nor breaks a valid timeline. |
| `EditMapping.ReviewEditMapping` | packages/domain/src/edit-history.ts:24-120 | Reports exactly the ids that stand in the way: an unselectable source or a mapping that is not one-to-one, edits that cannot be moved, references without a fitting target, mapped ids nobody refers to. The operations are the renamed chain, and every referenced id is offered the target's ids of a kind it is used as. |
| `ReviewMeaning.ReportedExactly` | packages/domain/src/edit-history.ts:24-120 | An id is reported exactly when the pairs are not one-to-one, its transaction has an edit that cannot be moved, an edit on the chain of parents names it and the pairs lead it to no chord, beat, bar or section as the edit needs, or a pair is for it and no edit names it. |
| `ReviewMeaning.OfferedIds` | packages/domain/src/edit-history.ts:54-64 | An id that an edit names is offered exactly the ids of a track that some edit names it as a record of. |
| `ReviewMeaning.MovedEditsFindTheirRecords` | packages/domain/src/edit-history.ts:73-115 | After a review without conflicts every moved edit names records of the target that its track has. |
| `ReviewMeaning.WhatCanBeReviewed` | packages/domain/src/edit-history.ts:30-50 | An action can be reviewed exactly when it names a layer, one of its saved positions, and a revision other than the one the layer is based on. |
| `ReviewMeaning.SourceRevisionIsItsOwn` | apps/desktop/src/main/project-library.ts:1019-1038 | The layer under review is read on the revision it is based on. |
| `EditMapping.NothingReported` | packages/domain/src/edit-history.ts:24-120 | Nothing is reported exactly when the mapping is one-to-one, answers every reference of the chain's edits in the target, belongs to them, and every edit can be moved. |
| `EditMapping.ReportStrays` | packages/domain/src/edit-history.ts:116-119 | Adds a conflict for exactly the mapped ids that are not referred to. |
| `EditMapping.MovedEditsCommute` | apps/desktop/src/main/project-library.ts:1019-1038 | End to end: after a review without conflicts, and with the target timeline equal to the source timeline under a one-to-one renaming that extends the mapping, the new layer materializes as the saved position of the source layer does, up to the renaming; one is refused exactly when the other is. |
| `EditMapping.BijectiveMappingsExtend` | packages/domain/src/edit-history.ts:51-53 | The mapping of a review without conflicts always extends to a one-to-one renaming of all ids. |
| `LeadSheetRows.AnchorChords` | packages/domain/src/lead-sheet.ts:179-188 | The running floor gives the specified offset of every chord. |
| `LeadSheetRows.SegmentsKeepText` | packages/domain/src/lead-sheet.ts:189-197 | The segments of a lyric row, joined, are the text of its line, whatever the token offsets. |
| `LeadSheetRows.SegmentsKeepChords` | packages/domain/src/lead-sheet.ts:189-197 | The segments of a lyric row hold its chords, each once and in order. |
| `LeadSheetRows.RowChordsStandOverTheirWords` | packages/domain/src/lead-sheet.ts:179-188 | In a valid document every chord begins a segment at the last word that has started, or the first of its line: the floor never moves a chord. |
| `ChordsOverWords.ChordStandsOverItsWord` | packages/domain/src/lead-sheet.ts:179-197 | In the row of a line the segment of a chord comes behind the chords before it and the text up to its word: the last word of the line to have started by the chord, before that the first, and the start of a line without words. |
| `LeadSheetRows.MakeRow` | packages/domain/src/lead-sheet.ts:175-199 | The row of a line reads as its text, and over it stand the chords given to it, each once and in order. |
| `LeadSheetLayout.AnchorToLines` | packages/domain/src/lead-sheet.ts:205-212 | Gives each line exactly the chords that begin in it, in order, and leaves over exactly those outside every line. |
| `LeadSheetLayout.PlaceLyricSection` | packages/domain/src/lead-sheet.ts:201-232 | Places the section as specified: line rows and chord rows merged in time order, neighbouring free chords sharing a row. |
| `SectionLayout.LyricSectionIsLaidOut` | packages/domain/src/lead-sheet.ts:201-232 | A lyric section is exactly its lines, each with the chords that begin in it, and rows of the chords outside of lines, in time order; such chords share a row exactly as long as no line comes between them. |
| `LeadSheetLayout.LyricSectionKeepsChords` | packages/domain/src/lead-sheet.ts:201-232 | Read top to bottom, a lyric section is its chords, each once and in order. |
| `LeadSheetLayout.LyricSectionKeepsLines` | packages/domain/src/lead-sheet.ts:201-232 | Read top to bottom, a lyric section shows its lines with their texts, each once and in order. |
| `LeadSheetLayout.BeatsPartition` | packages/domain/src/lead-sheet.ts:252-261 | The beat cells of a bar, up to any beat, are the chords from the start of the bar to the end of that beat. |
| `LeadSheetLayout.PlaceGridSection` | packages/domain/src/lead-sheet.ts:234-275 | Places the section as specified: bars of one meter share a row until something comes between. |
| `SectionLayout.GridSectionIsLaidOut` | packages/domain/src/lead-sheet.ts:234-275 | A grid section is exactly the bars that begin in it, each beat with the chords from it to the next, and rows of the chords outside of these bars, in time order; bars share a row exactly as long as they have one meter and nothing comes between them. |
| `LeadSheetLayout.GridSectionKeepsChords` | packages/domain/src/lead-sheet.ts:234-275 | Read top to bottom through rows, bars and cells, a grid section is its chords, each once and in order. |
| `LeadSheetLayout.GridSectionKeepsBars` | packages/domain/src/lead-sheet.ts:234-275 | A grid section shows its bars, each once and in order, and no lyrics. |
| `LeadSheetTracks.CollectFollowers` | packages/domain/src/lead-sheet.ts:277-282 | Collects the unmatched lines under the timed line before them. |
| `LeadSheetTracks.FollowersCoverTheDocument` | packages/domain/src/lead-sheet.ts:277-282 | Leading lines, then every timed line with its followers, are all lines of the document in order. |
| `LeadSheetPage.TimedLinesAreMatched` | packages/domain/src/lead-sheet.ts:148-159 | The timed lines are the lines of the document with a matched timing. |
| `LeadSheetPage.CellsSayTheirChords` | packages/domain/src/lead-sheet.ts:124-141 | A chord is shown in its presented form, and as unknown where the analysis has abstained. |
| `LeadSheetPage.LinesHaveTheirTexts` | packages/domain/src/lead-sheet.ts:146-147 | The text shown for a line, timed or not, is that of the document between its offsets. |
| `LeadSheetPage.FollowersComeDirectly` | packages/domain/src/lead-sheet.ts:277-325 | Directly behind the row of a line come the rows of the lines without a time that follow it, and then the next row. |
| `LeadSheetTracks.TimelineBarsInOrder` | packages/domain/src/invariants.ts:74-132 | In a valid timeline bars are non-empty and disjoint, although bars and unmetered regions are only checked together. |
| `LeadSheet.SectionKeepsChords` | packages/domain/src/lead-sheet.ts:310-326 | A section shows exactly the chords that begin in it, also when bars or lines cross its borders. |
| `LeadSheet.SectionKeepsLines` | packages/domain/src/lead-sheet.ts:310-325 | A section shows the leading lines it is given and the timed lines that begin in it with their followers. |
| `LeadSheet.EveryChordOnce` | packages/domain/src/lead-sheet.ts:310-347 | Over all sections, every chord event is on the page once, in timeline order. |
| `LeadSheet.EveryLineOnce` | packages/domain/src/lead-sheet.ts:309-347 | Over all sections, if any line is timed, every document line is on the page once, in document order, with its text. |
| `LeadSheet.ProjectSections` | packages/domain/src/lead-sheet.ts:309-347 | Builds the specified sections, the leading lines going to the first one with lyrics. |
| `LeadSheetPage.SectionSaysItsRegion` | packages/domain/src/lead-sheet.ts:309-347 | There is a section for every region, with its label; it is laid out around lyrics exactly when a timed line begins in it, and otherwise as a grid; the lines before all timed ones go to the first section with lyrics. |
| `LeadSheet.ProjectLeadSheet` | packages/domain/src/lead-sheet.ts:102-373 | For a valid snapshot, with or without an alignment of its lyrics, the sheet's chords are all chord events in order; its lyrics are all lines in order if any is timed, and otherwise all lines are listed apart. |
| `Lrc.ProjectLrc` | packages/domain/src/lrc.ts:19-82 | Prints exactly the lines that are matched, not blank, safe, in range and strictly between the onsets around them, and is unavailable exactly without timed or without printable lines. |
| `LrcPrinting.PrintedExactly` | packages/domain/src/lrc.ts:35-60 | Printed are exactly the timed lines with words, without control characters or a leading bracket, in the first hundred minutes, whose hundredth of a second lies strictly between those of the timed lines around them. |
| `LrcPrinting.FileBegins` | packages/domain/src/lrc.ts:76-82 | A file begins with the title as its header if there is one, and ends with a line feed. |
| `LrcPrinting.TitlesArePrinted` | packages/domain/src/lrc.ts:75-75 | A title is printed without control characters and closing brackets, and with all others in order. |
| `Lrc.StampsIncrease` | packages/domain/src/lrc.ts:40-70 | Printed stamps strictly increase. |
| `LrcImport.ImportLrc` | packages/domain/src/lyrics.ts:118-141 | Reads a file as specified: skipped headers and blanks, stamps of one to three minute digits, refused inner times, spans up to the next cue. |
| `LrcTimes.StampIsRead` | packages/domain/src/lyrics.ts:121-125 | A time is read as what it says, with one to three digits of minutes and none to three of a fraction, after a dot or a colon. |
| `LrcTimes.OnlyTimesAreRead` | packages/domain/src/lyrics.ts:121-122 | Nothing else is taken for a time. |
| `LrcTimes.SampleIsNearest` | packages/domain/src/lyrics.ts:126-126 | A time stands for the nearest sample, and of two equally near for the later. |
| `LrcTimes.LineIsRead` | packages/domain/src/lyrics.ts:121-126 | A line with a time is read, if its words are plain, as these words from the nearest sample. |
| `LrcTimes.LineIsRefused` | packages/domain/src/lyrics.ts:121-124 | A line is refused exactly without a time, or with a break, a separator or another time behind it. |
| `LrcTimes.LrcFileIsRead` | packages/domain/src/lyrics.ts:118-141 | A file is accepted exactly when its cues start one after the other and only a blank one at the end; a cue with words lasts to the next cue, blank or not, and the last to the end. |
| `LyricsSyntax.InnerTimes` | packages/domain/src/lyrics.ts:123-124 | A line has an inner time exactly when one to three digits, a colon and two digits follow a bracket somewhere. |
| `LyricsSyntax.Headers` | packages/domain/src/lyrics.ts:120-120 | Skipped as headers are exactly the bracketed values with one of eight names. |
| `LyricsSyntax.WhiteSpaceIs` | packages/domain/src/lyrics.ts:120-120 | White space is what section 12 of ECMA-262 lists. |
| `LyricsText.SplitUndoesJoin` | packages/domain/src/lyrics.ts:119-138 | Splitting at LF, CR and CRLF undoes joining lines without breaks. |
| `LrcRoundTrip.StampReadsBack` | packages/domain/src/lrc.ts:12-17 | A printed stamp is read as the same time with the same text after it. |
| `LrcRoundTrip.LineReadsBack` | packages/domain/src/lyrics.ts:119-127 | A printed line reads back exactly when its text has no separator and no inner time tag. |
| `LrcRoundTrip.RereadIsClose` | packages/domain/src/lrc.ts:36-36 | A line comes back no later than it was, less than a hundredth of a second and half a sample earlier, and exactly as early as the rest of its start's division says. |
| `LrcRoundTrip.RereadIncreasesAtUsualRates` | packages/domain/src/lyrics.ts:125-136 | At 100 samples a second or more different stamps stay different samples, and at 50 or fewer every line comes back where it was. |
| `LrcRoundTrip.RatesThatAlwaysIncrease` | packages/domain/src/lyrics.ts:125-136 | No two printed lines ever come back at one sample exactly at rates up to 50, from 100 on, and at 51, 52, 55, 60 and 75. |
| `LrcRoundTrip.CollidingFileIsRefused` | packages/domain/src/lyrics.ts:125-136 | At 99 samples a second, a projection prints lines at samples 50 and 51, both come back at one sample, and the file is refused. |
| `LrcRoundTrip.PrintThenRead` | packages/domain/src/lrc.ts:60-82 | A printed file reads back as the emitted texts at the reread samples, each lasting to the next, exactly when the texts are plain and the reread samples increase; otherwise it is refused. |
| `LrcRoundTrip.DocumentReadsBack` | packages/domain/src/lrc.ts:19-82 | For a valid document and alignment at 100 samples a second or more, plain printed lines always read back. |
| `LyricsDocuments.PiecesSlice` | packages/domain/src/lyrics.ts:62-81 | Every line of a text is found back at its offset across LF, CR and CRLF. |
| `LyricsDocuments.DocumentLinesReadBack` | packages/domain/src/lyrics.ts:62-81 | The document's lines, read by offset, are exactly the non-blank lines of the text. |
| `LyricsDocuments.TokensInOrder` | packages/domain/src/lyrics.ts:67-76 | Every token lies in its line, reads back, and lies behind the token before it. |
| `LyricsDocuments.BuiltDocumentIsValid` | packages/domain/src/lyrics.ts:52-81 | A document built from any text satisfies the document rules, ids included. |
| `LyricsDocuments.BuildDocument` | packages/domain/src/lyrics.ts:62-81 | The loop with its running offset builds the specified document. |
| `LyricsSyntax.LinesAreNamed` | packages/domain/src/lyrics.ts:63-66 | Lines are named by the document and their number. |
| `LyricsSyntax.TokensAreWords` | packages/domain/src/lyrics.ts:67-76 | Every token is a word of a line, at its place in the text, named by the document and its number. |
| `LyricsSyntax.WordsAreTokens` | packages/domain/src/lyrics.ts:67-76 | Every word of every line is a token. |
| `LyricsImport.FileLinesAreInBlocks` | packages/domain/src/lyrics.ts:143-147 | Whatever the line breaks of a subtitle file, its lines with anything on them are those of its blocks, in order. |
| `LyricsSyntax.BlocksAreSeparated` | packages/domain/src/lyrics.ts:144-147 | A file is its blocks with two or more line feeds between any two; no block has an empty line inside. |
| `LyricsSyntax.WhatIsLeftOut` | packages/domain/src/lyrics.ts:156-156 | Left out are exactly the blank blocks and those that begin with the word for a file or a note. |
| `LyricsSyntax.Arrows` | packages/domain/src/lyrics.ts:158-158 | A line is taken for the time line exactly when it has an arrow between spaces. |
| `SubtitleFile.ParseBlock` | packages/domain/src/lyrics.ts:155-182 | Reads a block as specified: comments, headers and blanks are skipped, a line before the time line is dropped, and a time line and text are required. |
| `SubtitleTimes.TimesAreRead` | packages/domain/src/lyrics.ts:151-163 | A time line is read as the times it writes, with or without hours, after a dot or a comma, whatever settings follow. |
| `SubtitleClocks.TimeLinesAreRead` | packages/domain/src/lyrics.ts:151-163 | A line is read as two times exactly when it writes them, with any digits of hours, an arrow between and only settings behind. |
| `SubtitleTimes.CueIsRead` | packages/domain/src/lyrics.ts:155-182 | A block of a time line and lines of text, with or without a line before, is read as that cue. |
| `SubtitleFile.NoTagIsLeft` | packages/domain/src/lyrics.ts:175-177 | However tags are nested or left open, none is left in the text of a cue before entities are decoded. |
| `SubtitleFile.PlainTextStays` | packages/domain/src/lyrics.ts:175-182 | The text of a cue stays as it is exactly when it has no tag and no entity. |
| `SubtitleText.MarkedUpTextIsRead` | packages/domain/src/lyrics.ts:175-181 | Any words can be written with entities and with tags anywhere: what is read is the words. |
| `LyricsImport.ImportSubtitles` | packages/domain/src/lyrics.ts:143-195 | Reads a whole subtitle file as specified, from its byte order mark and line breaks to its cues, refusing malformed, blank, overlapping, empty or late ones. |
| `SubtitleText.ProperFilesAreRead` | packages/domain/src/lyrics.ts:155-195 | A file is accepted exactly when no block is malformed and its cues have words, are not empty, in order and in time; its texts are those of the cues. |
| `LyricsImport.SubtitleSpansInOrder` | packages/domain/src/lyrics.ts:166-191 | Accepted cue spans are non-empty, in order and inside the project. |
| `LyricsImport.JoinedCuesKeepTheirLines` | packages/domain/src/lyrics.ts:185-194 | The lines with words of the joined text are those of the cues, one cue after another. |
| `LyricsImport.SubtitlesLineUp` | packages/domain/src/lyrics.ts:185-194 | There are as many timings as lines with words. |
| `LyricsImport.CueSpanLandsOnItsFirstLine` | packages/domain/src/lyrics.ts:174-190 | Among the lines with words of the joined text, those of any cue stand together in their order; the span of the cue stands at the first of them and the others have none. |
| `LyricsImport.CueSpansInOrder` | packages/domain/src/lyrics.ts:129-140 | The spans of an accepted LRC file are non-empty, in order and inside the project. |
| `CuePlacement.LrcCueLandsOnItsLine` | packages/domain/src/lyrics.ts:42-141 | From file to alignment: for every cue with words, a line of the new document reads its text and is timed with its span, moved to the source offset. |
| `CuePlacement.SubtitleCueLandsOnItsLines` | packages/domain/src/lyrics.ts:42-195 | From file to alignment: every line with words of every cue is a line of the new document, the first of a cue timed with the cue's span and the others untimed. |
| `AddLyrics.ImportLines` | packages/domain/src/lyrics.ts:111-141 | Whatever the format, accepted spans are non-empty, in order and inside the limit; a timed file has as many timings as lines with words, plain text has none and is kept as it is. |
| `AddLyrics.TimingsMatchLines` | packages/domain/src/lyrics.ts:111-195 | A timed file supplies as many timings, possibly empty, as its text has lines with words. |
| `AddLyrics.ShiftKeepsOrder` | packages/domain/src/lyrics.ts:42-51 | Times moved to the source offset and cut to the project stay non-empty, in order and inside it. |
| `AddLyrics.SamplesAreMoved` | packages/domain/src/lyrics.ts:45-50 | A sample of the project is in a moved time exactly when the sample of the source it comes from is in the time. |
| `AddLyrics.LinesAreSungWhenTheFileSays` | packages/domain/src/lyrics.ts:42-102 | From file to alignment: a line is sung at a sample exactly when its time in the file holds the sample of the source that stands there; every other line and every token is untimed. |
| `AddLyrics.NewTimingsSayWhy` | packages/domain/src/lyrics.ts:84-102 | Every time of the new alignment is asserted with the supplied line timing as its reason, and every missing one says that there is no reference. |
| `AddLyrics.WhatCanBeAdded` | packages/domain/src/lyrics.ts:28-64 | Lyrics are added exactly to a project with an active view in which no document has the id, from a file that can be read up to the end of the project (with a source offset, up to the largest safe integer) and has words. |
| `AddLyrics.AddLyricsDocument` | packages/domain/src/lyrics.ts:21-109 | Fails exactly without an active view, for a taken id, a refused input or no words; otherwise it adds and selects a document and an alignment that meet their rules, and a valid project stays valid exactly when the derived alignment id was free. |
| `AddLyrics.AddedLyricsAreWellFormed` | packages/domain/src/lyrics.ts:42-102 | The project gains one document with the given id and one alignment for it at the selected revision, both well formed, also after the source-offset shift. |
| `AddLyrics.AddingIsValidExactlyWhenTheAlignmentIdIsFree` | packages/domain/src/lyrics.ts:34-36 | A valid project stays valid exactly when the id derived for the alignment is still free; the code checks only the document id. |
| `AddLyrics.AddingCanBreakAValidProject` | packages/domain/src/lyrics.ts:34-36 | There is a valid project and a one-letter text whose adding is accepted and leaves the project invalid. |
| `AlignmentWorker.CutWindows` | sidecar/alignment/worker.py:79-90 | Cuts windows as specified, reporting a conflict exactly when specified. |
| `AlignmentWorker.ConflictsAgree` | sidecar/alignment/worker.py:79-90 | The worker finds no conflict exactly when every anchor is proper in the document and no two anchors conflict: the rule the validator checks. |
| `AlignmentWorker.WindowsTile` | sidecar/alignment/worker.py:79-90 | Without a conflict the windows tile the tokens with ordered disjoint times, and each anchor has a window of its own. |
| `WordPlacement.WindowsFit` | sidecar/alignment/worker.py:79-90 | Every window is for the tokens and the time of an anchor, or for those between two anchors, before the first or behind the last. |
| `AlignmentWorker.AcceptedAnchorsTile` | sidecar/alignment/worker.py:79-90 | Anchors the validator accepts never conflict, so their windows tile and frame them. |
| `AlignmentWords.AlignWindows` | sidecar/alignment/worker.py:91-113 | Places words window by window, dropping short windows and misfits. |
| `AlignmentWords.EmitWords` | sidecar/alignment/worker.py:114-125 | Rounds, clamps and drops empty words as specified. |
| `WordPlacement.AlignedWordLands` | sidecar/alignment/worker.py:91-125 | End to end: a word starts at the start of its window or within half a sample of what the aligner says, whichever is later, and ends at its end or within half a sample, whichever is earlier; it is untimed exactly when that leaves nothing, or when it was not aligned. |
| `AlignmentWords.OutputIsInOrder` | sidecar/alignment/worker.py:91-125 | For ordered aligner intervals and any monotone rounding, timed words are non-empty, ordered, disjoint and inside the project. |
| `AlignmentWords.CheckAnchors` | apps/desktop/src/main/alignment-jobs.ts:366-381 | Accepts exactly the outputs in which every word respects every anchor. |
| `WordPlacement.RespectedAnchorsAreKept` | apps/desktop/src/main/alignment-jobs.ts:366-381 | An anchor is respected exactly when the words of its tokens lie in its time, and the words before and behind do not. |
| `WordPlacement.AlignedWordsKeepAnchors` | apps/desktop/src/main/alignment-jobs.ts:366-381 | End to end: whatever the aligner finds, the words it gives to the tokens of an anchor lie in the time of that anchor. |
| `AlignmentWords.FramedAnchorIsRespected` | apps/desktop/src/main/alignment-jobs.ts:366-381 | An anchor with a window of its own is never violated. |
| `AlignmentWords.OrderedWordsAlign` | apps/desktop/src/main/alignment-jobs.ts:393-443 | Ordered words of a document whose tokens come line by line give an alignment that meets all alignment rules, line timings included. |
| `WordPlacement.LineLasts` | apps/desktop/src/main/alignment-jobs.ts:413-440 | A line lasts from the start of its first timed word to the end of its last. |
| `WordPlacement.LineWithoutWords` | apps/desktop/src/main/alignment-jobs.ts:413-440 | A line without a timed word has no time. |
| `AlignmentWords.OrderedWordsAlignExactlyLineByLine` | apps/desktop/src/main/alignment-jobs.ts:393-443 | For a project of two samples or more, any ordered words of a document give a valid alignment exactly when its tokens come line by line. |
| `AlignmentWords.ValidDocumentsMayCrossLines` | packages/domain/src/invariants.ts:354-384 | A document that meets all rules without that order. |
| `AlignmentWords.ImportedDocumentsComeLineByLine` | packages/domain/src/lyrics.ts:62-81 | Documents made by the lyrics import have that order. |
| `AlignmentWords.Align` | sidecar/alignment/worker.py:78-125 | Succeeds exactly when the anchors are proper and apart; then there is a word for every token, timed words are ordered, disjoint and inside the project, and every anchor is respected. |
| `AlignmentWords.AcceptedAnchorsAlign` | apps/desktop/src/main/alignment-jobs.ts:359-443 | End to end: with accepted anchors the worker succeeds, and its output passes the anchor check and the alignment rules. |
| `AlignmentPublication.PublicationIsValid` | apps/desktop/src/main/alignment-jobs.ts:359-446 | End to end from the request: with the anchors a valid project shows, the worker succeeds and violates none of them, and the alignment with its recipe leaves any later valid version with the same document and revision valid exactly when its id is free. |
| `AlignmentWords.RecipeAnchorsAreAccepted` | apps/desktop/src/main/alignment-jobs.ts:537-540 | On a valid project, the anchors a recipe is built from are accepted for its document. |
| `AlignmentJobs.StepIsSound` | apps/desktop/src/main/alignment-jobs.ts:203-566 | Every step, with any luck in writing, keeps ids and keys unique, at most one job running, an alignment for every success, and loses no success. |
| `AlignmentJobSteps.RequestDoes` | apps/desktop/src/main/alignment-jobs.ts:513-563 | A request adds a job, queued or blocked, unless there is one for its recipe or there are a thousand. |
| `AlignmentJobSteps.ConfirmDoes` | apps/desktop/src/main/alignment-jobs.ts:213-235 | A job that neither runs, is in flight, nor has succeeded is queued, or blocked if it cannot run. |
| `AlignmentJobSteps.CancelDoes` | apps/desktop/src/main/alignment-jobs.ts:257-276 | A job is cancelled unless it has succeeded or is cancelled already. |
| `AlignmentJobSteps.RunDoes` | apps/desktop/src/main/alignment-jobs.ts:277-330 | A queued job is run if none is running: it succeeds at once when its alignment is in the library, is blocked when it cannot run, and otherwise runs, with the worker only if that was recorded. |
| `AlignmentJobSteps.InterruptDoes` | apps/desktop/src/main/alignment-jobs.ts:240-256 | Interrupting makes running jobs retryable and asks again for queued ones. |
| `AlignmentJobSteps.StoreDoes` | apps/desktop/src/main/alignment-jobs.ts:448-460 | The alignment of a job that still runs is stored, also when the library throws; otherwise the run fails. |
| `AlignmentJobSteps.RecordDoes` | apps/desktop/src/main/alignment-jobs.ts:459-466 | A stored alignment makes its job succeed; if that cannot be written, the run fails. |
| `AlignmentJobSteps.HandleFailureDoes` | apps/desktop/src/main/alignment-jobs.ts:469-505 | A failed run leaves its job cancelled if it was, blocked if the circuit opens, and retryable otherwise; a job that does not run any more is only touched when the worker could not clean up. |
| `AlignmentJobSteps.ReopenDoes` | apps/desktop/src/main/alignment-jobs.ts:173-182 | Reopening closes circuits, asks again for their jobs and for queued ones, and makes running jobs retryable; it writes only if a state changes. |
| `AlignmentJobSteps.UsersCanAsk` | apps/desktop/src/main/alignment-jobs.ts:141-152 | Users can ask for anything while the program is open, except between storing an alignment and recording it. |
| `AlignmentJobSteps.FlightsGoOn` | apps/desktop/src/main/alignment-jobs.ts:480-487 | A storage failure never opens the circuit, a failed cleanup or a bad output always does, and another may. |
| `AlignmentJobs.EveryRunIsSound` | apps/desktop/src/main/alignment-jobs.ts:113-566 | The same holds in every run from an empty store, crashes and reopenings included. |
| `AlignmentJobSteps.WhatEveryRunShows` | apps/desktop/src/main/alignment-jobs.ts:113-566 | In every run, of any two jobs ids and recipes differ and not both run, and what has succeeded is in the library. |
| `AlignmentJobs.ReopenIsSound` | apps/desktop/src/main/alignment-jobs.ts:173-182 | Reopening keeps all that and leaves no job running. |
| `AlignmentJobs.SuccessIsFinal` | apps/desktop/src/main/alignment-jobs.ts:213-303 | No step of a living process takes a success back, and no step at all takes back one that is in every file a crash may leave. |
| `AlignmentJobs.RecordedSuccessIsSafeExactlyWhenSynced` | apps/desktop/src/main/alignment-jobs.ts:459-466 | When a run records its success, the success is shown unless the write is lost, and no crash can take it away exactly when the write is synced. |
| `AlignmentJobs.PublishedRunIsSafeExactlyWhenSynced` | apps/desktop/src/main/alignment-jobs.ts:287-303 | The same when a run finds its alignment in the library. |
| `AlignmentJobs.SuccessIsSafeExactlyWhenShownSynced` | apps/desktop/src/main/alignment-jobs.ts:153-172 | In every run, no crash can take a success away exactly when, at some time, a synced state file has shown it. |
| `AlignmentJobs.PublishedRecipeNeedsNoWorker` | apps/desktop/src/main/alignment-jobs.ts:287-303 | Once an alignment is in the library, whatever stops and crashes follow, a run of its recipe succeeds without the worker. |
| `AlignmentJobs.PublicationHappensOnce` | apps/desktop/src/main/alignment-jobs.ts:287-460 | In every run, crashes and reopenings included, the alignment of a recipe is handed to the library once if the library has it, and otherwise never, also when the library stores it and then throws. |
| `AlignmentJobs.WorkerIsCalledOnlyBeforePublication` | apps/desktop/src/main/alignment-jobs.ts:277-320 | In every run the worker is called only for a recipe that was never published, with no other job running and no open circuit. |
| `AlignmentJobs.UnsyncedSuccessCanBeLost` | apps/desktop/src/main/alignment-jobs.ts:153-172 | A run whose write of a success fails to sync shows the success, and a crash loses it. |
| `Acquisition.EveryStepFits` | apps/desktop/src/main/acquisition-jobs.ts:286-581 | Every step, whatever fails, keeps ids fresh, the journal of a snapshot gone for good, and the attempt where its step says. |
| `AcquisitionSteps.AdmissionDoes` | apps/desktop/src/main/acquisition-jobs.ts:299-357 | A new job gets a fresh id; an attempt begins only if it could be recorded, and not after an incomplete cleanup. |
| `AcquisitionSteps.WorkspaceDoes` | apps/desktop/src/main/acquisition-jobs.ts:416-436 | The journal of an attempt may be seen, survive a crash, both or neither, until it is removed and that is synced. |
| `AcquisitionSteps.SyncJournalsDoes` | apps/desktop/src/main/acquisition-jobs.ts:416-429 | If removing the journal cannot be synced, the attempt fails and no other begins. |
| `AcquisitionSteps.FailDoes` | apps/desktop/src/main/acquisition-jobs.ts:521-550 | An attempt may fail before its journal is gone or after, when nothing is left to clean up. |
| `AcquisitionSteps.CleanUpDoes` | apps/desktop/src/main/acquisition-jobs.ts:535-556 | A failing attempt ends cancelled or failed; if its workspace cannot be cleaned up it ends failed and no other begins. |
| `AcquisitionSteps.RenameDoes` | apps/desktop/src/main/acquired-snapshots.ts:156-158 | Only once its journal is gone for good is a snapshot renamed into the catalogue. |
| `AcquisitionSteps.SyncCatalogueDoes` | apps/desktop/src/main/acquired-snapshots.ts:159-161 | A sync of the catalogue that fails may still have reached the disk. |
| `AcquisitionSteps.TakingBackDoes` | apps/desktop/src/main/acquired-snapshots.ts:162-167 | After a failed sync the rename is taken back, or no attempt begins before reopening. |
| `AcquisitionSteps.SyncTakenBackDoes` | apps/desktop/src/main/acquired-snapshots.ts:158-169 | A snapshot that was taken back leaves a failed attempt if that is synced; otherwise only reopening can tell. |
| `AcquisitionSteps.RecordDoes` | apps/desktop/src/main/acquisition-jobs.ts:556-580 | A published attempt succeeds and another ends as it should; after a failed write no attempt begins. |
| `AcquisitionSteps.RewriteDoes` | apps/desktop/src/main/acquisition-jobs.ts:376-385 | Only finished jobs that have not succeeded are dropped. |
| `AcquisitionSteps.ReopenDoes` | apps/desktop/src/main/acquisition-jobs.ts:242-285 | Reopening settles what was running by what it sees of the catalogue, removes the journals it sees, and opens only if it could write. |
| `AcquisitionSteps.ReopenFailsDoes` | apps/desktop/src/main/acquisition-jobs.ts:242-285 | Reopening may fail at any journal; some are then gone. |
| `Acquisition.EveryRunFits` | apps/desktop/src/main/acquisition-jobs.ts:242-581 | The same holds in every run, crashes, stops and failed syncs at any step included. |
| `Acquisition.StepKeeps` | apps/desktop/src/main/acquisition-jobs.ts:286-581 | Every step keeps each of two promises, for what the program knows, what the file shows and what any crash would leave: failed, cancelled and blocked jobs have no snapshot; succeeded jobs have theirs. Reopening keeps a promise if the catalogue is settled for it. |
| `Acquisition.PublicationKeeps` | apps/desktop/src/main/acquired-snapshots.ts:156-170 | Rename, sync, taking the rename back and syncing that keep both promises, whatever fails. |
| `Acquisition.ReopenKeepsExactlyWhenSettled` | apps/desktop/src/main/acquisition-jobs.ts:242-285 | Reopening keeps the promise about failed jobs exactly when every snapshot a crash may leave is seen, and the promise about succeeded jobs exactly when every snapshot that is seen survives a crash. |
| `Acquisition.ReopenIsSoundExactlyWhenSettled` | apps/desktop/src/main/acquisition-jobs.ts:242-285 | Reopening keeps the whole invariant exactly when what is seen of the catalogue is what a crash would leave. |
| `Acquisition.EveryRunKeeps` | apps/desktop/src/main/acquisition-jobs.ts:242-581 | Every run whose reopenings meet a catalogue settled for a promise keeps that promise. |
| `Acquisition.FailedJobsHaveNoSnapshot` | apps/desktop/src/main/acquisition-jobs.ts:242-581 | In every run in which no publication is taken back, failed, cancelled and blocked jobs have no snapshot, however the program stops and reopens. |
| `Acquisition.ReopeningDecides` | apps/desktop/src/main/acquisition-jobs.ts:242-285 | In every run, a job left running reopens as succeeded exactly when its snapshot is seen and as failed exactly when it is not; that is right after every crash exactly when a crash would leave what is seen. |
| `Acquisition.TakenBackSnapshotCanReturn` | apps/desktop/src/main/acquired-snapshots.ts:158-169 | A run in which a sync fails and the rename is taken back ends with a failed job that has its snapshot. |
| `Acquisition.StoppedPublicationCanBeLost` | apps/desktop/src/main/acquired-snapshots.ts:156-158 | A run in which no write or sync fails, but the program stops between rename and sync, ends with a succeeded job that has no snapshot. |
| `CpuGate.StepKeeps` | apps/desktop/src/main/cpu-work.ts:11-62 | Every step keeps: one running task, at most 32 waiting, none when idle or blocked, starts in arrival order, every task waiting, working or settled and never two of these. |
| `CpuGate.EveryRunIsSound` | apps/desktop/src/main/cpu-work.ts:11-62 | The same holds in every run. |
| `CpuGateFates.FatesComeFromEvents` | apps/desktop/src/main/cpu-work.ts:11-62 | In every run a task has a fate exactly when one of the events has settled it so: refused, aborted while waiting, blocked, cancelled before its operation, or as its operation ended. |
| `CpuGateFates.OutcomesDecide` | apps/desktop/src/main/cpu-work.ts:42-52 | In every run a task is resolved exactly when its operation succeeded, and rejected with its failure exactly when it failed. |
| `CpuGateFates.PhasesAreTold` | apps/desktop/src/main/cpu-work.ts:39-57 | Where a started task stands is told by its own events, which come in their order: it starts, is called or not, ends, and gives the gate back. |
| `CpuGateFates.WhatBlocks` | apps/desktop/src/main/cpu-work.ts:11-14 | In every run the gate is blocked exactly when it was told to be, or an operation could not clean up. |
| `CpuGateFates.WhatCanHappen` | apps/desktop/src/main/cpu-work.ts:16-62 | Tasks can be submitted and aborted at any time, and the task that holds the gate, and no other, can always take its next step. |
| `CpuGate.FatesAreFinal` | apps/desktop/src/main/cpu-work.ts:26-62 | A settled task keeps its outcome. |
| `CpuGate.NothingStartsAfterABlock` | apps/desktop/src/main/cpu-work.ts:11-19 | After a block no further task starts, in any run. |
| `CpuGate.Controller.WithCpuWork` | apps/desktop/src/main/cpu-work.ts:22-62 | Queues or refuses as specified, and keeps the state sound. |
| `CpuGate.Controller.Pump` | apps/desktop/src/main/cpu-work.ts:16-19 | Starts the longest waiting task if none is active. |
| `CpuGate.Controller.Cancel` | apps/desktop/src/main/cpu-work.ts:32-38 | Takes exactly the aborted task out of the queue. |
| `CpuGate.Controller.BlockAfterIncompleteCleanup` | apps/desktop/src/main/cpu-work.ts:11-14 | Refuses everything that waits. |
| `CpuGate.Controller.Settle` | apps/desktop/src/main/cpu-work.ts:43-52 | Settles the running task, blocking the gate after an incomplete cleanup. |
| `CpuGate.Controller.Finally` | apps/desktop/src/main/cpu-work.ts:53-56 | Gives the gate to the next task. |
| `SidecarSession.StepIsSound` | sidecar/open_chords_analysis/protocol.py:110-310 | Every step of any thread keeps: frames numbered without a gap, one terminal frame and it is last, no result beside an acknowledgement, and the loop's knowledge true to the decode's report. |
| `SidecarSession.EveryRunIsSound` | sidecar/open_chords_analysis/protocol.py:80-310 | The same holds however the threads interleave. |
| `SidecarFrames.EveryRunIsTold` | sidecar/open_chords_analysis/protocol.py:80-310 | In every run the last frame tells how the session went: a result that no cancellation was received for, a complete cleanup after a cancellation and a decode that did not fail in its own, or an error. |
| `SidecarFrames.LastFrameTells` | sidecar/open_chords_analysis/protocol.py:219-310 | A session raises exactly for a failed preload, a wrong message, or without a cancellation a result that is none. |
| `SidecarFrames.ControlIsAnswered` | sidecar/open_chords_analysis/protocol.py:232-252 | A fitting cancellation is acknowledged, and after the decode has ended followed by the outcome of the cleanups; anything else ends the session with nothing written. |
| `SidecarFrames.ResultIsTaken` | sidecar/open_chords_analysis/protocol.py:253-269 | A result is written if no cancellation was received or is on its way, waits behind one that is on its way, and is dropped after one. |
| `SidecarFrames.FailureIsTaken` | sidecar/open_chords_analysis/protocol.py:270-310 | A failure is written as an error unless a cancellation was received or is on its way. |
| `SidecarFrames.WaitingWrites` | sidecar/open_chords_analysis/protocol.py:221-231 | The loop beats while it waits, until a cancellation is received or the decode has ended. |
| `SidecarFrames.ControlDoes` | sidecar/open_chords_analysis/protocol.py:154-169 | Whatever the control thread reads but a clean end of input raises the flag before it is queued. |
| `SidecarSession.ResultNeedsNoCancellation` | sidecar/open_chords_analysis/protocol.py:253-269 | A result is written only by a step that finds no cancellation, received or on its way. |
| `SidecarSession.FailedCleanupIsReported` | sidecar/open_chords_analysis/protocol.py:270-284 | A decode that failed in its cleanup never leads to a complete cleanup. |
| `SidecarSession.CompleteCleanupIsClean` | sidecar/open_chords_analysis/protocol.py:270-284 | A complete cleanup is reported only by a step whose own cleanup succeeded, after a decode that ended and did not fail in its cleanup. |
| `SidecarSession.CleaningUpIsSound` | sidecar/open_chords_analysis/protocol.py:476-496 | The last frame after a cancellation reports a complete cleanup exactly when no failure is forced and the cleanup succeeded, and an error otherwise; the invariant is kept. |
| `SidecarSession.AcknowledgementAnswersACancel` | sidecar/open_chords_analysis/protocol.py:427-436 | An acknowledgement is written only by a step that takes a cancellation which names this session and a sequence number already written, and it is the next frame. |
| `SidecarSession.CancellationIsAcknowledgedOnce` | sidecar/open_chords_analysis/protocol.py:253-310 | However the threads interleave, at most one acknowledgement is written. |
| `CanonicalJson.CanonicalFormsDecide` | packages/domain/src/canonical.ts:1-24 | Two plain values have one canonical form exactly when they differ only in key order and the sign of zero. |
| `CanonicalOrder.CanonicalKeysAreListed` | packages/domain/src/canonical.ts:17-22 | In a canonical object array indices come first, by value, and the other keys follow by their code units. |
| `CanonicalOrder.IndicesAreNumbers` | packages/domain/src/canonical.ts:17-22 | The keys taken for indices are exactly the numbers from 0 to 2^32 - 2 as they are usually written. |
| `CanonicalOrder.PlainDataIsCanonical` | packages/domain/src/canonical.ts:1-24 | A value has a canonical form exactly when it is plain data at every level: no hole, no number that is not finite, nothing unsupported. |
| `CanonicalJson.CanonicalIsIdempotent` | packages/domain/src/canonical.ts:1-24 | A canonical form is its own canonical form. |
| `CanonicalText.StringsAreUnique` | packages/domain/src/canonical.ts:26-28 | An escaped string can be read back up to its closing quote. |
| `CanonicalText.ValuesAreUnique` | packages/domain/src/canonical.ts:26-28 | Canonical text can be read in only one way. |
| `CanonicalText.TextsDecide` | packages/domain/src/canonical.ts:26-28 | Two plain values serialize to one text exactly when they differ only in key order and the sign of zero. |
| `JsonReading.SerializedIsRead` | packages/domain/src/canonical.ts:26-28 | Read by RFC 8259, the text of a value is one value, its canonical form. |
| `JsonReading.StringIsRead` | packages/domain/src/canonical.ts:26-28 | A printed string is read as itself, whatever characters it has. |
| `JsonReading.UnitsArePrinted` | packages/domain/src/canonical.ts:26-28 | Nothing is escaped without need, control characters with letters of their own take these, and others four small hexadecimal digits. |
| `JsonReading.PrintedStringIsPaired` | packages/domain/src/canonical.ts:26-28 | The printed text of a string has no half of a surrogate pair on its own. |
| `CommandLine.Quote` | native/windows/containment-launcher.cpp:473-491 | The quoting loop writes the specified text. |
| `CommandLine.BuildTail` | native/windows/containment-launcher.cpp:673-679 | The command line is every argument quoted, each after a space. |
| `CommandLine.PlainArgumentsStay` | native/windows/containment-launcher.cpp:473-491 | An argument is written as it is exactly when it holds no space, tabulator or quote. |
| `CommandLine.SplittingUndoesQuoting` | native/windows/containment-launcher.cpp:473-491 | Splitting by the documented rules gives back every argument except the empty ones, in order. |
| `CommandLine.QuotingRoundTripsExactlyWithoutEmptyArguments` | native/windows/containment-launcher.cpp:673-679 | The arguments come back unchanged exactly when none of them is empty. |

## Left out

- Error texts, issue wording, and the order in which several violations are reported: validators are modelled by whether they accept.
- Extensions and practice state of projects, and the evidence behind support claims: the modelled rules speak of claims by id.
- EditMapping.ReviewEditMapping: gives the conflicts as a set of ids, without their texts, order and repetition, and does not say which of its kinds counts for an id that edits use as several.
- EventMatching.MatchEvents: takes the tolerance of its one caller, a distance limit, rather than any predicate.
- Lead-sheet directives, header, chord diagrams, credits and loss receipts; the symbol and spoken form of a chord are inputs.
- LeadSheetLayout.PlaceGridSection: compares meters, where the program compares their printed form, which tells the same meters apart.
- The order and wording of LRC losses; which line is omitted for which reason is merged into whether it is printed.
- Input limits of the lyrics schema (length of the text, language tags) and JavaScript's safe-integer checks.
- Floating point: sample positions computed in seconds are exact rationals here.
- AlignmentWords.Align: reads no files; the dictionary and the annotation pattern appear as which tokens are eligible, token ids as positions, and the likelihood is not modelled.
- AlignmentJobs.StepIsSound: the failure counter that opens the circuit is any choice the failure kind allows; stage reports and listing change no state that matters here.
- The project library beyond storing alignments by id and publishing snapshots; what it stores is taken to be durable.
- Acquisition.StepKeeps: the class of the program is modelled on values, as a state machine, because its fields change between asynchronous steps; retention, counters and the network appear only as steps that may happen; reading at most 1000 catalogue entries is not modelled.
- CpuGate.Controller.WithCpuWork: promises and listeners appear as the events they cause; that every operation eventually ends is not claimed.
- SidecarSession.StepIsSound: frames are written whole or not at all; decoding, the preload import and the workspace are outcomes.
- CanonicalJson.CanonicalFormsDecide: canonicalizes members before sorting them rather than after, which gives the same members; numbers are mantissa and exponent, not bits.
- CommandLine.BuildTail: starts after the program name, which is split by another rule.
- The remaining metrics of the benchmark (segmentation, boundaries, key and lyrics errors), which are folds over the same sweep or over lists.
- Hashing, encryption, signatures, process launch, sandboxing, IPC and all user interface code.
