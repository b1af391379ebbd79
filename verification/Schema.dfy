/** The records of a timed project. Samples are frames of Project Time; ids are stable strings. */
module Schema {
  import opened Wrappers
  import opened Sequences

  type Id = string

  // ----- assertions and musical values

  datatype Evidence = Evidence(name: string, scale: string, value: real)
  datatype AssertionState = Asserted | LowConfidence | Abstained
  datatype Assertion = Assertion(evidence: seq<Evidence>, reasonCodes: seq<string>, state: AssertionState)

  /** What an edit by the user leaves behind. */
  const UserAuthored: Assertion := Assertion([], ["user_authored"], Asserted)

  datatype ChordValue =
    | NoChord
    | Chord(root: string, bass: Option<string>, quality: string, additions: seq<string>,
            alterations: seq<string>, extensions: seq<string>, omissions: seq<string>)

  datatype SectionLabel =
    | Intro | Verse | PreChorus | Chorus | Bridge | Solo | Interlude | Outro | Neutral | UnknownLabel

  datatype KeyMode = Major | Minor | Dorian | Mixolydian | OtherMode
  datatype KeyValue = Key(mode: KeyMode, tonic: string) | UnknownKey

  // ----- timeline tracks

  datatype BeatRole = Downbeat | OrdinaryBeat
  datatype Beat = Beat(id: Id, atSample: nat, role: BeatRole)
  datatype Meter = Meter(numerator: nat, denominator: nat)
  datatype BarStatus = Complete | Pickup | Truncated
  datatype Bar = Bar(id: Id, startSample: nat, endSample: nat, beats: seq<Beat>, meter: Meter, status: BarStatus)
  datatype ChordEvent = ChordEvent(id: Id, startSample: nat, endSample: nat, value: ChordValue, assertion: Assertion)
  datatype SectionRegion = SectionRegion(id: Id, startSample: nat, endSample: nat, sectionLabel: SectionLabel,
                                         assertion: Assertion)
  datatype KeyRegion = KeyRegion(id: Id, startSample: nat, endSample: nat, value: KeyValue, assertion: Assertion)
  datatype UnmeteredRegion = UnmeteredRegion(id: Id, startSample: nat, endSample: nat, reasonCode: string)

  datatype Timeline = Timeline(
    bars: seq<Bar>,
    chordEvents: seq<ChordEvent>,
    keyRegions: seq<KeyRegion>,
    sectionRegions: seq<SectionRegion>,
    unmeteredRegions: seq<UnmeteredRegion>)

  function BarId(bar: Bar): Id { bar.id }
  function BeatId(beat: Beat): Id { beat.id }
  function ChordId(event: ChordEvent): Id { event.id }
  function SectionId(region: SectionRegion): Id { region.id }
  function KeyId(region: KeyRegion): Id { region.id }
  function UnmeteredId(region: UnmeteredRegion): Id { region.id }

  function BarIds(bars: seq<Bar>): seq<Id> { Map(BarId, bars) }
  function BeatIds(beats: seq<Beat>): seq<Id> { Map(BeatId, beats) }
  function ChordIds(events: seq<ChordEvent>): seq<Id> { Map(ChordId, events) }
  function SectionIds(regions: seq<SectionRegion>): seq<Id> { Map(SectionId, regions) }

  /** All beats, bar by bar. */
  function AllBeats(bars: seq<Bar>): seq<Beat> {
    if bars == [] then [] else bars[0].beats + AllBeats(bars[1..])
  }

  // ----- lyrics

  datatype Timing = Matched(startSample: nat, endSample: nat, assertion: Assertion) | Unmatched(reasonCode: string)
  /** The timing of one token or line occurrence. */
  datatype Occurrence = Occurrence(target: Id, timing: Timing)
  /** What an aligned result was made from. */
  datatype Recipe = Recipe(
    projectId: Id, lyricsDocumentId: Id, analysisRevisionId: Id,
    durationSamples: nat, sampleRate: nat, anchors: seq<LyricsAnchor>)

  datatype LyricsAlignment = LyricsAlignment(
    id: Id, lyricsDocumentId: Id, analysisRevisionId: Id,
    occurrences: seq<Occurrence>, lineOccurrences: seq<Occurrence>, recipe: Option<Recipe>)

  function Target(occurrence: Occurrence): Id { occurrence.target }
  function Targets(occurrences: seq<Occurrence>): seq<Id> { Map(Target, occurrences) }

  /** A UTF-16 code unit. */
  newtype CodeUnit = u: int | 0 <= u < 0x1_0000
  type Text = seq<CodeUnit>

  datatype LyricsLine = LyricsLine(id: Id, startOffset: nat, endOffset: nat)
  datatype LyricsToken = LyricsToken(id: Id, lineId: Id, text: Text, startOffset: nat, endOffset: nat)
  datatype LyricsDocument = LyricsDocument(id: Id, text: Text, lines: seq<LyricsLine>, tokens: seq<LyricsToken>)

  function LineId(line: LyricsLine): Id { line.id }
  function TokenId(token: LyricsToken): Id { token.id }
  function LineIds(lines: seq<LyricsLine>): seq<Id> { Map(LineId, lines) }
  function TokenIds(tokens: seq<LyricsToken>): seq<Id> { Map(TokenId, tokens) }

  /** A user's claim that a run of tokens lies inside an interval. */
  datatype LyricsAnchor = LyricsAnchor(
    id: Id, lyricsDocumentId: Id, analysisRevisionId: Id,
    firstTokenId: Id, lastTokenId: Id, startSample: nat, endSample: nat)

  // ----- edits

  /** The part of a chord event that an edit may rewrite. */
  datatype ChordDraft = ChordDraft(id: Id, startSample: nat, endSample: nat, value: ChordValue)

  function DraftId(draft: ChordDraft): Id { draft.id }
  function DraftIds(drafts: seq<ChordDraft>): seq<Id> { Map(DraftId, drafts) }

  datatype Operation =
    | SetLyricsAnchor(anchor: LyricsAnchor)
    | RemoveLyricsAnchor(anchorId: Id)
    | ReplaceChordSequence(targetEventIds: seq<Id>, events: seq<ChordDraft>)
    | ReplaceChordValue(eventId: Id, value: ChordValue)
    | MoveChordBoundary(leftEventId: Id, rightEventId: Id, atSample: nat)
    | MoveBeat(beatId: Id, atSample: nat)
    | MoveBarBoundary(leftBarId: Id, rightBarId: Id, atSample: nat)
    | SetBarMeter(barId: Id, meter: Meter)
    | SplitBar(barId: Id, atSample: nat, leftStatus: BarStatus, newBarId: Id, newDownbeatId: Id,
               rightMeter: Meter, rightStatus: BarStatus)
    | MergeBars(leftBarId: Id, rightBarId: Id, meter: Meter, status: BarStatus)
    | SetLyricsTiming(alignmentId: Id, tokenId: Id, timing: Timing)
    | SetLyricsLineTiming(alignmentId: Id, lineId: Id, timing: Timing)
    | ReplaceSectionLabel(regionId: Id, sectionLabel: SectionLabel)

  datatype Transaction = Transaction(id: Id, operations: seq<Operation>, parentTransactionId: Option<Id>)
  datatype EditLayer = EditLayer(id: Id, analysisRevisionId: Id, transactions: seq<Transaction>)
  datatype AnalysisRevision = AnalysisRevision(id: Id, projectId: Id, supportClaimIds: seq<Id>, timeline: Timeline)
  datatype ActiveView = ActiveView(
    analysisRevisionId: Id, editLayerId: Id, editHistoryPosition: nat,
    lyricsDocumentId: Option<Id>, lyricsAlignmentId: Option<Id>)

  /** The identities a project has had, and the claims its revisions may cite, are listed by id. */
  datatype Project = Project(
    id: Id,
    importOrigins: seq<Id>,
    supportClaims: seq<Id>,
    durationSamples: nat,
    sampleRate: nat,
    analysisRevisions: seq<AnalysisRevision>,
    editLayers: seq<EditLayer>,
    lyricsDocuments: seq<LyricsDocument>,
    lyricsAlignments: seq<LyricsAlignment>,
    activeView: Option<ActiveView>)

  function TransactionId(transaction: Transaction): Id { transaction.id }
  function TransactionIds(transactions: seq<Transaction>): seq<Id> { Map(TransactionId, transactions) }
  function RevisionId(revision: AnalysisRevision): Id { revision.id }
  function LayerId(layer: EditLayer): Id { layer.id }
  function DocumentId(document: LyricsDocument): Id { document.id }
  function AlignmentId(alignment: LyricsAlignment): Id { alignment.id }

  function RevisionIds(revisions: seq<AnalysisRevision>): seq<Id> { Map(RevisionId, revisions) }
  function LayerIds(layers: seq<EditLayer>): seq<Id> { Map(LayerId, layers) }
  function DocumentIds(documents: seq<LyricsDocument>): seq<Id> { Map(DocumentId, documents) }
  function AlignmentIds(alignments: seq<LyricsAlignment>): seq<Id> { Map(AlignmentId, alignments) }
}
