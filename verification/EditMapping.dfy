/**
 Moving the edits of one analysis revision to another: the review that renames them and reports
 conflicts, and what a review without conflicts guarantees.
*/
module EditMapping {
  import opened Wrappers
  import opened Sequences
  import opened Schema
  import opened Invariants
  import opened Edits
  import opened History
  import opened Projection
  import opened Renaming

  datatype Pair = Pair(sourceId: Id, targetId: Id)

  datatype MappingAction = MappingAction(
    sourceEditLayerId: Id, sourceHistoryPosition: nat, targetAnalysisRevisionId: Id, mappings: seq<Pair>)

  /** `conflicts` names what each conflict is about, `requirements` the ids that need a mapping and their candidates. */
  datatype Review = Review(conflicts: seq<Id>, operations: seq<Operation>, requirements: map<Id, seq<Id>>)

  // ----- what an operation refers to

  datatype Kind = ChordKind | BeatKind | BarKind | SectionKind
  datatype Reference = Reference(id: Id, kind: Kind)

  function Candidates(kind: Kind, timeline: Timeline): seq<Id> {
    match kind
    case ChordKind => ChordIds(timeline.chordEvents)
    case BeatKind => BeatIds(AllBeats(timeline.bars))
    case BarKind => BarIds(timeline.bars)
    case SectionKind => SectionIds(timeline.sectionRegions)
  }

  function ChordReference(id: Id): Reference { Reference(id, ChordKind) }

  function References(edit: Operation): seq<Reference> {
    match edit
    case ReplaceChordValue(eventId, _) => [Reference(eventId, ChordKind)]
    case ReplaceChordSequence(targets, events) => Map(ChordReference, targets) + Map(ChordReference, DraftIds(events))
    case MoveChordBoundary(left, right, _) => [Reference(left, ChordKind), Reference(right, ChordKind)]
    case MoveBeat(beatId, _) => [Reference(beatId, BeatKind)]
    case SetBarMeter(barId, _) => [Reference(barId, BarKind)]
    case MoveBarBoundary(left, right, _) => [Reference(left, BarKind), Reference(right, BarKind)]
    case ReplaceSectionLabel(regionId, _) => [Reference(regionId, SectionKind)]
    case _ => []
  }

  /** The table that a list of pairs makes: of pairs for one source, the last counts. */
  function Table(mappings: seq<Pair>): map<Id, Id> {
    if mappings == [] then map[]
    else
      var last := mappings[|mappings| - 1];
      Table(mappings[..|mappings| - 1])[last.sourceId := last.targetId]
  }

  /** Ids without a mapping stay as they are. */
  function Along(mapping: map<Id, Id>): Id -> Id {
    (id: Id) => if id in mapping then mapping[id] else id
  }

  predicate Resolved(reference: Reference, mapping: map<Id, Id>, timeline: Timeline) {
    reference.id in mapping && mapping[reference.id] in Candidates(reference.kind, timeline)
  }

  ghost predicate Answered(edit: Operation, mapping: map<Id, Id>, timeline: Timeline) {
    Movable(edit) && forall reference :: reference in References(edit) ==> Resolved(reference, mapping, timeline)
  }

  ghost predicate AllAnswered(edits: seq<Operation>, mapping: map<Id, Id>, timeline: Timeline) {
    forall edit :: edit in edits ==> Answered(edit, mapping, timeline)
  }

  ghost function IdsOf(references: seq<Reference>): set<Id> {
    if references == [] then {} else IdsOf(references[..|references| - 1]) + {references[|references| - 1].id}
  }

  ghost function ReferencedIds(edits: seq<Operation>): set<Id> {
    if edits == [] then {}
    else ReferencedIds(edits[..|edits| - 1]) + IdsOf(References(edits[|edits| - 1]))
  }

  // ----- what is reported

  ghost function Unresolved(references: seq<Reference>, mapping: map<Id, Id>, timeline: Timeline): set<Id> {
    if references == [] then {}
    else
      var last := references[|references| - 1];
      Unresolved(references[..|references| - 1], mapping, timeline)
        + if Resolved(last, mapping, timeline) then {} else {last.id}
  }

  /** An edit that cannot be moved is reported by its transaction, the others by the references they leave open. */
  ghost function EditConflicts(transactionId: Id, edit: Operation, mapping: map<Id, Id>, timeline: Timeline): set<Id> {
    if Movable(edit) then Unresolved(References(edit), mapping, timeline) else {transactionId}
  }

  ghost function EditsConflicts(transactionId: Id, edits: seq<Operation>, mapping: map<Id, Id>,
                                timeline: Timeline): set<Id> {
    if edits == [] then {}
    else
      EditsConflicts(transactionId, edits[..|edits| - 1], mapping, timeline)
      + EditConflicts(transactionId, edits[|edits| - 1], mapping, timeline)
  }

  ghost function ChainConflicts(chain: seq<Transaction>, mapping: map<Id, Id>, timeline: Timeline): set<Id> {
    if chain == [] then {}
    else
      var last := chain[|chain| - 1];
      ChainConflicts(chain[..|chain| - 1], mapping, timeline)
        + EditsConflicts(last.id, last.operations, mapping, timeline)
  }

  lemma {:induction false} NothingUnresolved(references: seq<Reference>, mapping: map<Id, Id>, timeline: Timeline)
    ensures Unresolved(references, mapping, timeline) == {}
            <==> forall reference :: reference in references ==> Resolved(reference, mapping, timeline)
  {
    if references != [] {
      assert references == references[..|references| - 1] + [references[|references| - 1]];
      NothingUnresolved(references[..|references| - 1], mapping, timeline);
    }
  }

  lemma {:induction false} NoEditConflicts(transactionId: Id, edits: seq<Operation>, mapping: map<Id, Id>,
                                           timeline: Timeline)
    ensures EditsConflicts(transactionId, edits, mapping, timeline) == {} <==> AllAnswered(edits, mapping, timeline)
  {
    if edits != [] {
      var init, last := edits[..|edits| - 1], edits[|edits| - 1];
      assert edits == init + [last];
      NoEditConflicts(transactionId, init, mapping, timeline);
      NothingUnresolved(References(last), mapping, timeline);
      AnsweredConcat(init, [last], mapping, timeline);
      assert AllAnswered([last], mapping, timeline) <==> Answered(last, mapping, timeline);
    }
  }

  lemma AnsweredConcat(a: seq<Operation>, b: seq<Operation>, mapping: map<Id, Id>, timeline: Timeline)
    ensures AllAnswered(a + b, mapping, timeline)
            <==> AllAnswered(a, mapping, timeline) && AllAnswered(b, mapping, timeline)
  {
    assert forall edit :: edit in a + b <==> edit in a || edit in b;
  }

  /** The edits of a chain, one transaction after another. */
  ghost function ChainEdits(chain: seq<Transaction>): seq<Operation> {
    if chain == [] then [] else ChainEdits(chain[..|chain| - 1]) + chain[|chain| - 1].operations
  }

  lemma {:induction false} ChainEditsAreOperations(transactions: seq<Transaction>, position: nat)
    requires WellFounded(transactions) && position <= |transactions|
    ensures ChainEdits(ChainTransactions(transactions, position)) == ChainOperations(transactions, position)
    decreases position
  {
    if position > 0 {
      var chain := ChainTransactions(transactions, position);
      ChainEditsAreOperations(transactions, ParentPosition(transactions, position));
      assert chain[..|chain| - 1] == ChainTransactions(transactions, ParentPosition(transactions, position));
    }
  }

  /** Nothing is reported of the edits exactly when all of them are answered. */
  lemma {:induction false} NoChainConflicts(chain: seq<Transaction>, n: nat, mapping: map<Id, Id>, timeline: Timeline)
    requires n <= |chain|
    ensures ChainConflicts(chain[..n], mapping, timeline) == {}
            <==> AllAnswered(ChainEdits(chain[..n]), mapping, timeline)
  {
    if n == 0 {
      assert chain[..0] == [];
    } else {
      NoChainConflicts(chain, n - 1, mapping, timeline);
      NoConflictsInNext(chain[..n - 1], chain[n - 1], mapping, timeline);
      assert chain[..n] == chain[..n - 1] + [chain[n - 1]];
    }
  }

  lemma NoConflictsInNext(chain: seq<Transaction>, last: Transaction, mapping: map<Id, Id>, timeline: Timeline)
    requires ChainConflicts(chain, mapping, timeline) == {} <==> AllAnswered(ChainEdits(chain), mapping, timeline)
    ensures ChainConflicts(chain + [last], mapping, timeline) == {}
            <==> AllAnswered(ChainEdits(chain + [last]), mapping, timeline)
  {
    assert (chain + [last])[..|chain|] == chain;
    NoEditConflicts(last.id, last.operations, mapping, timeline);
    AnsweredConcat(ChainEdits(chain), last.operations, mapping, timeline);
  }

  /** One target per source and one source per target. */
  ghost predicate Bijective(mappings: seq<Pair>) {
    |Table(mappings)| == |mappings| && |Table(mappings).Values| == |Table(mappings)|
  }

  /** A review without conflicts: a one-to-one mapping that answers every reference, and nothing else. */
  ghost predicate Clean(edits: seq<Operation>, mappings: seq<Pair>, timeline: Timeline) {
    && Bijective(mappings)
    && AllAnswered(edits, Table(mappings), timeline)
    && Table(mappings).Keys <= ReferencedIds(edits)
  }

  function RenameEdits(f: Id -> Id, edits: seq<Operation>): (r: seq<Operation>)
    ensures |r| == |edits|
    ensures forall i :: 0 <= i < |edits| ==> r[i] == RenameEdit(f, edits[i])
  {
    seq(|edits|, i requires 0 <= i < |edits| => RenameEdit(f, edits[i]))
  }

  // ----- the review

  function SourceLayer(project: Project, action: MappingAction): Option<EditLayer> {
    var index := Find(LayerIds(project.editLayers), action.sourceEditLayerId);
    if index < 0 then None else Some(project.editLayers[index])
  }

  function TargetRevision(project: Project, action: MappingAction): Option<AnalysisRevision> {
    var index := Find(RevisionIds(project.analysisRevisions), action.targetAnalysisRevisionId);
    if index < 0 then None else Some(project.analysisRevisions[index])
  }

  /** A saved position of a layer, and a revision other than the one that layer is based on. */
  predicate Selectable(project: Project, action: MappingAction) {
    var source, target := SourceLayer(project, action), TargetRevision(project, action);
    && source.Some? && target.Some?
    && source.value.analysisRevisionId != target.value.id
    && 1 <= action.sourceHistoryPosition <= |source.value.transactions|
  }

  /** The review finds nothing to report. */
  ghost predicate NoConflicts(project: Project, action: MappingAction)
    requires HistoriesWellFounded(project)
  {
    && Selectable(project, action)
    && Clean(SelectedEdits(project, action), action.mappings, TargetRevision(project, action).value.timeline)
  }

  /** The edits of the chain that leads to the saved position. */
  ghost function SelectedEdits(project: Project, action: MappingAction): seq<Operation>
    requires HistoriesWellFounded(project) && Selectable(project, action)
  {
    ChainOperations(SourceLayer(project, action).value.transactions, action.sourceHistoryPosition)
  }

  /** The edits as the review hands them on. */
  ghost function MovedEdits(project: Project, action: MappingAction): seq<Operation>
    requires HistoriesWellFounded(project) && Selectable(project, action)
  {
    RenameEdits(Along(Table(action.mappings)), SelectedEdits(project, action))
  }

  // ----- the review, as a fold

  function ReviewReference(review: Review, reference: Reference, mapping: map<Id, Id>, timeline: Timeline): Review {
    Review(review.conflicts + if Resolved(reference, mapping, timeline) then [] else [reference.id],
           review.operations, review.requirements[reference.id := Candidates(reference.kind, timeline)])
  }

  function ReviewReferences(review: Review, references: seq<Reference>, mapping: map<Id, Id>,
                            timeline: Timeline): Review {
    if references == [] then review
    else
      ReviewReference(ReviewReferences(review, references[..|references| - 1], mapping, timeline),
                      references[|references| - 1], mapping, timeline)
  }

  function ReviewEdit(review: Review, transactionId: Id, edit: Operation, mapping: map<Id, Id>,
                      timeline: Timeline): Review {
    var mapped := if Movable(edit) then ReviewReferences(review, References(edit), mapping, timeline)
                  else Review(review.conflicts + [transactionId], review.operations, review.requirements);
    Review(mapped.conflicts, mapped.operations + [RenameEdit(Along(mapping), edit)], mapped.requirements)
  }

  function ReviewEdits(review: Review, transactionId: Id, edits: seq<Operation>, mapping: map<Id, Id>,
                       timeline: Timeline): Review {
    if edits == [] then review
    else
      ReviewEdit(ReviewEdits(review, transactionId, edits[..|edits| - 1], mapping, timeline), transactionId,
                 edits[|edits| - 1], mapping, timeline)
  }

  function ReviewTransactions(review: Review, chain: seq<Transaction>, mapping: map<Id, Id>,
                              timeline: Timeline): Review {
    if chain == [] then review
    else
      var last := chain[|chain| - 1];
      ReviewEdits(ReviewTransactions(review, chain[..|chain| - 1], mapping, timeline), last.id, last.operations,
                  mapping, timeline)
  }

  /** Looks one reference up, records what it needs, and reports it when the mapping has no fitting target. */
  method MapReference(reference: Reference, mapping: map<Id, Id>, timeline: Timeline, review: Review)
    returns (after: Review)
    ensures after == ReviewReference(review, reference, mapping, timeline)
  {
    var targetIds := Candidates(reference.kind, timeline);
    after := review.(requirements := review.requirements[reference.id := targetIds]);
    if reference.id !in mapping || mapping[reference.id] !in targetIds {
      after := after.(conflicts := after.conflicts + [reference.id]);
    }
  }

  method MapReferences(references: seq<Reference>, mapping: map<Id, Id>, timeline: Timeline, review: Review)
    returns (after: Review)
    ensures after == ReviewReferences(review, references, mapping, timeline)
  {
    after := review;
    for n := 0 to |references|
      invariant after == ReviewReferences(review, references[..n], mapping, timeline)
    {
      assert references[..n + 1][..n] == references[..n];
      after := MapReference(references[n], mapping, timeline, after);
    }
    assert references[..|references|] == references;
  }

  method MapOperation(transactionId: Id, edit: Operation, mapping: map<Id, Id>, timeline: Timeline, review: Review)
    returns (after: Review)
    ensures after == ReviewEdit(review, transactionId, edit, mapping, timeline)
  {
    after := review;
    if Movable(edit) {
      after := MapReferences(References(edit), mapping, timeline, after);
    } else {
      after := after.(conflicts := after.conflicts + [transactionId]);
    }
    after := after.(operations := after.operations + [RenameEdit(Along(mapping), edit)]);
  }

  method MapChain(chain: seq<Transaction>, mapping: map<Id, Id>, timeline: Timeline, start: Review)
    returns (review: Review)
    ensures review == ReviewTransactions(start, chain, mapping, timeline)
  {
    review := start;
    for n := 0 to |chain|
      invariant review == ReviewTransactions(start, chain[..n], mapping, timeline)
    {
      assert chain[..n + 1][..n] == chain[..n];
      review := MapTransaction(chain[n], mapping, timeline, review);
    }
    assert chain[..|chain|] == chain;
  }

  lemma ReviewOneMore(start: Review, transactionId: Id, edits: seq<Operation>, n: nat, mapping: map<Id, Id>,
                      timeline: Timeline)
    requires n < |edits|
    ensures ReviewEdits(start, transactionId, edits[..n + 1], mapping, timeline)
            == ReviewEdit(ReviewEdits(start, transactionId, edits[..n], mapping, timeline), transactionId, edits[n],
                          mapping, timeline)
  {
    assert edits[..n + 1][..n] == edits[..n];
  }

  method MapTransaction(transaction: Transaction, mapping: map<Id, Id>, timeline: Timeline, start: Review)
    returns (review: Review)
    ensures review == ReviewEdits(start, transaction.id, transaction.operations, mapping, timeline)
  {
    review := start;
    var edits := transaction.operations;
    for n := 0 to |edits|
      invariant review == ReviewEdits(start, transaction.id, edits[..n], mapping, timeline)
    {
      ReviewOneMore(start, transaction.id, edits, n, mapping, timeline);
      review := MapOperation(transaction.id, edits[n], mapping, timeline, review);
    }
    assert edits[..|edits|] == edits;
  }

  // ----- what the fold has collected

  /** Everything a review adds: the edits it hands on, the ids to map, and the conflicts. */
  ghost predicate Adds(before: Review, after: Review, moved: seq<Operation>, ids: set<Id>, conflicts: set<Id>) {
    && after.operations == before.operations + moved
    && after.requirements.Keys == before.requirements.Keys + ids
    && Elements(after.conflicts) == Elements(before.conflicts) + conflicts
  }

  lemma AddsInTurn(before: Review, middle: Review, after: Review, a: seq<Operation>, b: seq<Operation>,
                   ids: set<Id>, more: set<Id>, conflicts: set<Id>, others: set<Id>)
    requires Adds(before, middle, a, ids, conflicts) && Adds(middle, after, b, more, others)
    ensures Adds(before, after, a + b, ids + more, conflicts + others)
  {
    Associate(before.operations, a, b);
  }

  lemma {:induction false} ReferencesAdd(review: Review, references: seq<Reference>, mapping: map<Id, Id>,
                                         timeline: Timeline)
    ensures var after := ReviewReferences(review, references, mapping, timeline);
            && after.operations == review.operations
            && after.requirements.Keys == review.requirements.Keys + IdsOf(references)
            && Elements(after.conflicts) == Elements(review.conflicts) + Unresolved(references, mapping, timeline)
  {
    if references != [] {
      var init, last := references[..|references| - 1], references[|references| - 1];
      ReferencesAdd(review, init, mapping, timeline);
      var before := ReviewReferences(review, init, mapping, timeline);
      assert Elements(before.conflicts + [last.id]) == Elements(before.conflicts) + {last.id};
      assert before.conflicts + [] == before.conflicts;
    }
  }

  lemma EditAdds(review: Review, transactionId: Id, edit: Operation, mapping: map<Id, Id>, timeline: Timeline)
    ensures Adds(review, ReviewEdit(review, transactionId, edit, mapping, timeline), [RenameEdit(Along(mapping), edit)],
                 IdsOf(References(edit)), EditConflicts(transactionId, edit, mapping, timeline))
  {
    ReferencesAdd(review, References(edit), mapping, timeline);
    assert Elements(review.conflicts + [transactionId]) == Elements(review.conflicts) + {transactionId};
  }

  lemma OneMoreEdit(transactionId: Id, edits: seq<Operation>, n: nat, mapping: map<Id, Id>, timeline: Timeline)
    requires n < |edits|
    ensures RenameEdits(Along(mapping), edits[..n + 1])
            == RenameEdits(Along(mapping), edits[..n]) + [RenameEdit(Along(mapping), edits[n])]
    ensures ReferencedIds(edits[..n + 1]) == ReferencedIds(edits[..n]) + IdsOf(References(edits[n]))
    ensures EditsConflicts(transactionId, edits[..n + 1], mapping, timeline)
            == EditsConflicts(transactionId, edits[..n], mapping, timeline)
              + EditConflicts(transactionId, edits[n], mapping, timeline)
  {
    assert edits[..n + 1][..n] == edits[..n];
  }

  lemma {:induction false} EditsAdd(review: Review, transactionId: Id, edits: seq<Operation>, n: nat,
                                    mapping: map<Id, Id>, timeline: Timeline)
    requires n <= |edits|
    ensures Adds(review, ReviewEdits(review, transactionId, edits[..n], mapping, timeline),
                 RenameEdits(Along(mapping), edits[..n]), ReferencedIds(edits[..n]),
                 EditsConflicts(transactionId, edits[..n], mapping, timeline))
  {
    if n == 0 {
      assert edits[..0] == [];
    } else {
      EditsAdd(review, transactionId, edits, n - 1, mapping, timeline);
      OneMoreEditAdds(review, transactionId, edits, n - 1, mapping, timeline,
                      RenameEdits(Along(mapping), edits[..n - 1]), ReferencedIds(edits[..n - 1]),
                      EditsConflicts(transactionId, edits[..n - 1], mapping, timeline));
      OneMoreEdit(transactionId, edits, n - 1, mapping, timeline);
    }
  }

  lemma OneMoreEditAdds(review: Review, transactionId: Id, edits: seq<Operation>, n: nat, mapping: map<Id, Id>,
                        timeline: Timeline, moved: seq<Operation>, ids: set<Id>, conflicts: set<Id>)
    requires n < |edits| && Adds(review, ReviewEdits(review, transactionId, edits[..n], mapping, timeline), moved, ids,
                                 conflicts)
    ensures Adds(review, ReviewEdits(review, transactionId, edits[..n + 1], mapping, timeline),
                 moved + [RenameEdit(Along(mapping), edits[n])], ids + IdsOf(References(edits[n])),
                 conflicts + EditConflicts(transactionId, edits[n], mapping, timeline))
  {
    ReviewOneMore(review, transactionId, edits, n, mapping, timeline);
    var before := ReviewEdits(review, transactionId, edits[..n], mapping, timeline);
    EditAdds(before, transactionId, edits[n], mapping, timeline);
    AddsInTurn(review, before, ReviewEdit(before, transactionId, edits[n], mapping, timeline), moved,
               [RenameEdit(Along(mapping), edits[n])], ids, IdsOf(References(edits[n])), conflicts,
               EditConflicts(transactionId, edits[n], mapping, timeline));
  }

  lemma OneMoreTransaction(start: Review, chain: seq<Transaction>, n: nat, mapping: map<Id, Id>, timeline: Timeline)
    requires n < |chain|
    ensures ReviewTransactions(start, chain[..n + 1], mapping, timeline)
            == ReviewEdits(ReviewTransactions(start, chain[..n], mapping, timeline), chain[n].id, chain[n].operations,
                           mapping, timeline)
  {
    assert chain[..n + 1][..n] == chain[..n];
  }

  lemma OneMoreChain(chain: seq<Transaction>, n: nat, mapping: map<Id, Id>, timeline: Timeline)
    requires n < |chain|
    ensures ChainConflicts(chain[..n + 1], mapping, timeline)
            == ChainConflicts(chain[..n], mapping, timeline)
               + EditsConflicts(chain[n].id, chain[n].operations, mapping, timeline)
    ensures ChainEdits(chain[..n + 1]) == ChainEdits(chain[..n]) + chain[n].operations
  {
    assert chain[..n + 1][..n] == chain[..n];
  }

  lemma OneMoreTransactionAdds(review: Review, before: Review, after: Review, transaction: Transaction,
                               moved: seq<Operation>, ids: set<Id>, conflicts: set<Id>, mapping: map<Id, Id>,
                               timeline: Timeline)
    requires Adds(review, before, moved, ids, conflicts)
    requires after == ReviewEdits(before, transaction.id, transaction.operations, mapping, timeline)
    ensures Adds(review, after, moved + RenameEdits(Along(mapping), transaction.operations),
                 ids + ReferencedIds(transaction.operations),
                 conflicts + EditsConflicts(transaction.id, transaction.operations, mapping, timeline))
  {
    var own := transaction.operations;
    EditsAdd(before, transaction.id, own, |own|, mapping, timeline);
    assert own[..|own|] == own;
    AddsInTurn(review, before, after, moved, RenameEdits(Along(mapping), own), ids, ReferencedIds(own), conflicts,
               EditsConflicts(transaction.id, own, mapping, timeline));
  }

  lemma MoreEditsAdd(review: Review, after: Review, edits: seq<Operation>, own: seq<Operation>, conflicts: set<Id>,
                     mapping: map<Id, Id>)
    requires Adds(review, after, RenameEdits(Along(mapping), edits) + RenameEdits(Along(mapping), own),
                  ReferencedIds(edits) + ReferencedIds(own), conflicts)
    ensures Adds(review, after, RenameEdits(Along(mapping), edits + own), ReferencedIds(edits + own), conflicts)
  {
    RenameEditsConcat(Along(mapping), edits, own);
    ReferencedIdsConcat(edits, own);
  }

  lemma NoTransactionAdds(review: Review, chain: seq<Transaction>, mapping: map<Id, Id>, timeline: Timeline)
    ensures Adds(review, ReviewTransactions(review, chain[..0], mapping, timeline),
                 RenameEdits(Along(mapping), ChainEdits(chain[..0])), ReferencedIds(ChainEdits(chain[..0])),
                 ChainConflicts(chain[..0], mapping, timeline))
  {
    assert chain[..0] == [];
  }

  lemma {:induction false} TransactionsAdd(review: Review, chain: seq<Transaction>, n: nat, mapping: map<Id, Id>,
                                           timeline: Timeline)
    requires n <= |chain|
    ensures Adds(review, ReviewTransactions(review, chain[..n], mapping, timeline),
                 RenameEdits(Along(mapping), ChainEdits(chain[..n])), ReferencedIds(ChainEdits(chain[..n])),
                 ChainConflicts(chain[..n], mapping, timeline))
  {
    if n == 0 {
      NoTransactionAdds(review, chain, mapping, timeline);
    } else {
      TransactionsAdd(review, chain, n - 1, mapping, timeline);
      OneMoreChain(chain, n - 1, mapping, timeline);
      NextTransactionAdds(review, chain, n - 1, mapping, timeline, ChainEdits(chain[..n - 1]),
                          ChainConflicts(chain[..n - 1], mapping, timeline), ChainEdits(chain[..n]),
                          ChainConflicts(chain[..n], mapping, timeline));
    }
  }

  lemma NextTransactionAdds(review: Review, chain: seq<Transaction>, n: nat, mapping: map<Id, Id>, timeline: Timeline,
                            edits: seq<Operation>, conflicts: set<Id>, all: seq<Operation>, total: set<Id>)
    requires n < |chain| && all == edits + chain[n].operations
    requires total == conflicts + EditsConflicts(chain[n].id, chain[n].operations, mapping, timeline)
    requires Adds(review, ReviewTransactions(review, chain[..n], mapping, timeline), RenameEdits(Along(mapping), edits),
                  ReferencedIds(edits), conflicts)
    ensures Adds(review, ReviewTransactions(review, chain[..n + 1], mapping, timeline),
                 RenameEdits(Along(mapping), all), ReferencedIds(all), total)
  {
    var before, after := ReviewTransactions(review, chain[..n], mapping, timeline),
      ReviewTransactions(review, chain[..n + 1], mapping, timeline);
    OneMoreTransaction(review, chain, n, mapping, timeline);
    OneMoreTransactionAdds(review, before, after, chain[n], RenameEdits(Along(mapping), edits), ReferencedIds(edits),
                           conflicts, mapping, timeline);
    MoreEditsAdd(review, after, edits, chain[n].operations, total, mapping);
  }

  // ----- candidates

  /** The candidates recorded for an id are those of the kind some edit refers to it as. */
  ghost predicate Needed(id: Id, candidates: seq<Id>, edits: seq<Operation>, timeline: Timeline) {
    exists edit, reference ::
      edit in edits && reference in References(edit) && reference.id == id
        && candidates == Candidates(reference.kind, timeline)
  }

  ghost predicate AllNeeded(requirements: map<Id, seq<Id>>, edits: seq<Operation>, timeline: Timeline) {
    forall id :: id in requirements ==> Needed(id, requirements[id], edits, timeline)
  }

  lemma {:induction false} ReferencesAreNeeded(review: Review, edit: Operation, references: seq<Reference>,
                                               mapping: map<Id, Id>, timeline: Timeline, edits: seq<Operation>)
    requires AllNeeded(review.requirements, edits, timeline) && edit in edits
             && forall reference :: reference in references ==> reference in References(edit)
    ensures AllNeeded(ReviewReferences(review, references, mapping, timeline).requirements, edits, timeline)
    decreases |references|
  {
    if references != [] {
      var init, last := references[..|references| - 1], references[|references| - 1];
      ReferencesAreNeeded(review, edit, init, mapping, timeline, edits);
      assert last in references;
      assert Needed(last.id, Candidates(last.kind, timeline), edits, timeline);
    }
  }

  lemma {:induction false} EditsAreNeeded(review: Review, transactionId: Id, own: seq<Operation>, mapping: map<Id, Id>,
                                          timeline: Timeline, edits: seq<Operation>)
    requires AllNeeded(review.requirements, edits, timeline) && forall edit :: edit in own ==> edit in edits
    ensures AllNeeded(ReviewEdits(review, transactionId, own, mapping, timeline).requirements, edits, timeline)
    decreases |own|
  {
    if own != [] {
      var init, last := own[..|own| - 1], own[|own| - 1];
      EditsAreNeeded(review, transactionId, init, mapping, timeline, edits);
      assert last in own;
      ReferencesAreNeeded(ReviewEdits(review, transactionId, init, mapping, timeline), last, References(last), mapping,
                          timeline, edits);
    }
  }

  lemma PartsAreAmong(a: seq<Operation>, b: seq<Operation>, edits: seq<Operation>)
    requires forall edit :: edit in a + b ==> edit in edits
    ensures forall edit :: edit in a ==> edit in edits
    ensures forall edit :: edit in b ==> edit in edits
  {
    assert forall edit :: edit in a || edit in b ==> edit in a + b;
  }

  lemma {:induction false} TransactionsAreNeeded(review: Review, chain: seq<Transaction>, n: nat, mapping: map<Id, Id>,
                                                 timeline: Timeline, edits: seq<Operation>)
    requires n <= |chain| && AllNeeded(review.requirements, edits, timeline)
    requires forall edit :: edit in ChainEdits(chain[..n]) ==> edit in edits
    ensures AllNeeded(ReviewTransactions(review, chain[..n], mapping, timeline).requirements, edits, timeline)
    decreases n
  {
    if n == 0 {
      assert chain[..0] == [];
    } else {
      OneMoreTransaction(review, chain, n - 1, mapping, timeline);
      OneMoreChain(chain, n - 1, mapping, timeline);
      PartsAreAmong(ChainEdits(chain[..n - 1]), chain[n - 1].operations, edits);
      TransactionsAreNeeded(review, chain, n - 1, mapping, timeline, edits);
      EditsAreNeeded(ReviewTransactions(review, chain[..n - 1], mapping, timeline), chain[n - 1].id,
                     chain[n - 1].operations, mapping, timeline, edits);
    }
  }

  lemma RenameEditsConcat(f: Id -> Id, a: seq<Operation>, b: seq<Operation>)
    ensures RenameEdits(f, a + b) == RenameEdits(f, a) + RenameEdits(f, b)
  {
  }

  lemma {:induction false} ReferencedIdsConcat(a: seq<Operation>, b: seq<Operation>)
    ensures ReferencedIds(a + b) == ReferencedIds(a) + ReferencedIds(b)
  {
    if b == [] {
      assert a + b == a;
    } else {
      assert (a + b)[..|a + b| - 1] == a + b[..|b| - 1];
      ReferencedIdsConcat(a, b[..|b| - 1]);
    }
  }

  /** Reports every mapped id that no reviewed edit refers to. */
  method ReportStrays(mapping: map<Id, Id>, review: Review) returns (after: Review)
    ensures after.operations == review.operations && after.requirements == review.requirements
    ensures Elements(after.conflicts) == Elements(review.conflicts) + (mapping.Keys - review.requirements.Keys)
  {
    after := review;
    var keys := mapping.Keys;
    while keys != {}
      invariant keys <= mapping.Keys
      invariant after.operations == review.operations && after.requirements == review.requirements
      invariant Elements(after.conflicts)
                == Elements(review.conflicts) + ((mapping.Keys - keys) - review.requirements.Keys)
      decreases keys
    {
      var sourceId :| sourceId in keys;
      StrayStep(after.conflicts, Elements(review.conflicts), mapping.Keys, keys, review.requirements.Keys, sourceId);
      if sourceId !in after.requirements {
        after := after.(conflicts := after.conflicts + [sourceId]);
      }
      keys := keys - {sourceId};
    }
  }

  lemma StrayStep(conflicts: seq<Id>, before: set<Id>, all: set<Id>, keys: set<Id>, known: set<Id>, id: Id)
    requires id in keys && keys <= all && Elements(conflicts) == before + ((all - keys) - known)
    ensures Elements(if id in known then conflicts else conflicts + [id]) == before + ((all - (keys - {id})) - known)
  {
    assert Elements(conflicts + [id]) == Elements(conflicts) + {id};
    assert (all - (keys - {id})) - known == ((all - keys) - known) + if id in known then {} else {id};
  }

  /** All that a review of a layer reports: the mapping itself, what it leaves open, and what it maps needlessly. */
  ghost function LayerConflicts(source: EditLayer, position: nat, mappings: seq<Pair>, timeline: Timeline): set<Id>
    requires WellFounded(source.transactions) && position <= |source.transactions|
  {
    (if Bijective(mappings) then {} else {source.id})
    + ChainConflicts(ChainTransactions(source.transactions, position), Table(mappings), timeline)
    + (Table(mappings).Keys - ReferencedIds(ChainOperations(source.transactions, position)))
  }

  /** A review reports nothing exactly when it is clean. */
  lemma NothingReported(source: EditLayer, position: nat, mappings: seq<Pair>, timeline: Timeline)
    requires WellFounded(source.transactions) && position <= |source.transactions|
    ensures LayerConflicts(source, position, mappings, timeline) == {}
            <==> Clean(ChainOperations(source.transactions, position), mappings, timeline)
  {
    var chain := ChainTransactions(source.transactions, position);
    NoChainConflicts(chain, |chain|, Table(mappings), timeline);
    assert chain[..|chain|] == chain;
    ChainEditsAreOperations(source.transactions, position);
  }

  method StartReview(sourceId: Id, mappings: seq<Pair>) returns (start: Review)
    ensures start.operations == [] && start.requirements == map[]
    ensures Elements(start.conflicts) == if Bijective(mappings) then {} else {sourceId}
  {
    var mapping := Table(mappings);
    start := Review(if |mapping| != |mappings| || |mapping.Values| != |mapping| then [sourceId] else [], [], map[]);
  }

  method SelectChain(source: EditLayer, position: nat) returns (chain: seq<Transaction>)
    requires WellFounded(source.transactions) && position <= |source.transactions|
    ensures chain == ChainTransactions(source.transactions, position)
    ensures ChainEdits(chain) == ChainOperations(source.transactions, position)
  {
    chain := WalkChain(source.transactions, position);
    ChainEditsAreOperations(source.transactions, position);
  }

  method ReviewLayer(source: EditLayer, position: nat, mappings: seq<Pair>, timeline: Timeline) returns (review: Review)
    requires WellFounded(source.transactions) && position <= |source.transactions|
    ensures review.operations == RenameEdits(Along(Table(mappings)), ChainOperations(source.transactions, position))
    ensures review.requirements.Keys == ReferencedIds(ChainOperations(source.transactions, position))
    ensures AllNeeded(review.requirements, ChainOperations(source.transactions, position), timeline)
    ensures Elements(review.conflicts) == LayerConflicts(source, position, mappings, timeline)
  {
    var start := StartReview(source.id, mappings);
    var chain := SelectChain(source, position);
    review := ReviewSelected(start, chain, Table(mappings), timeline);
  }

  method ReviewSelected(start: Review, chain: seq<Transaction>, mapping: map<Id, Id>, timeline: Timeline)
    returns (review: Review)
    requires start.operations == [] && start.requirements == map[]
    ensures review.operations == RenameEdits(Along(mapping), ChainEdits(chain))
    ensures review.requirements.Keys == ReferencedIds(ChainEdits(chain))
    ensures AllNeeded(review.requirements, ChainEdits(chain), timeline)
    ensures Elements(review.conflicts)
            == Elements(start.conflicts) + ChainConflicts(chain, mapping, timeline)
               + (mapping.Keys - ReferencedIds(ChainEdits(chain)))
  {
    var reviewed := ReviewChain(chain, mapping, timeline, start);
    review := ReportStrays(mapping, reviewed);
    CompleteReview(start, reviewed, review, RenameEdits(Along(mapping), ChainEdits(chain)),
                   ReferencedIds(ChainEdits(chain)), ChainConflicts(chain, mapping, timeline), mapping.Keys);
  }

  method ReviewChain(chain: seq<Transaction>, mapping: map<Id, Id>, timeline: Timeline, start: Review)
    returns (review: Review)
    requires start.requirements == map[]
    ensures Adds(start, review, RenameEdits(Along(mapping), ChainEdits(chain)), ReferencedIds(ChainEdits(chain)),
                 ChainConflicts(chain, mapping, timeline))
    ensures AllNeeded(review.requirements, ChainEdits(chain), timeline)
  {
    review := MapChain(chain, mapping, timeline, start);
    WholeChainAdds(start, review, chain, mapping, timeline);
  }

  lemma CompleteReview(start: Review, reviewed: Review, review: Review, moved: seq<Operation>, ids: set<Id>,
                       conflicts: set<Id>, keys: set<Id>)
    requires start.operations == [] && start.requirements == map[]
    requires Adds(start, reviewed, moved, ids, conflicts)
    requires review.operations == reviewed.operations && review.requirements == reviewed.requirements
    requires Elements(review.conflicts) == Elements(reviewed.conflicts) + (keys - reviewed.requirements.Keys)
    ensures review.operations == moved && review.requirements.Keys == ids
    ensures Elements(review.conflicts) == Elements(start.conflicts) + conflicts + (keys - ids)
  {
    assert [] + moved == moved;
  }

  lemma WholeChainAdds(start: Review, reviewed: Review, chain: seq<Transaction>, mapping: map<Id, Id>,
                       timeline: Timeline)
    requires start.requirements == map[] && reviewed == ReviewTransactions(start, chain, mapping, timeline)
    ensures Adds(start, reviewed, RenameEdits(Along(mapping), ChainEdits(chain)), ReferencedIds(ChainEdits(chain)),
                 ChainConflicts(chain, mapping, timeline))
    ensures AllNeeded(reviewed.requirements, ChainEdits(chain), timeline)
  {
    assert chain[..|chain|] == chain;
    TransactionsAdd(start, chain, |chain|, mapping, timeline);
    TransactionsAreNeeded(start, chain, |chain|, mapping, timeline, ChainEdits(chain));
  }

  lemma NothingMeansNone(ids: seq<Id>)
    ensures ids == [] <==> Elements(ids) == {}
  {
    if ids != [] {
      assert ids[0] in Elements(ids);
    }
  }

  /** Reports a conflict unless the mapping is clean; without conflicts the operations are the renamed chain. */
  method ReviewEditMapping(project: Project, action: MappingAction) returns (review: Review)
    requires HistoriesWellFounded(project)
    ensures review.conflicts == [] <==> NoConflicts(project, action)
    ensures !Selectable(project, action) ==> review.conflicts == [action.sourceEditLayerId] && review.operations == []
    ensures Selectable(project, action) ==>
              && review.operations == MovedEdits(project, action)
              && review.requirements.Keys == ReferencedIds(SelectedEdits(project, action))
              && AllNeeded(review.requirements, SelectedEdits(project, action),
                           TargetRevision(project, action).value.timeline)
              && Elements(review.conflicts)
                 == LayerConflicts(SourceLayer(project, action).value, action.sourceHistoryPosition, action.mappings,
                                   TargetRevision(project, action).value.timeline)
  {
    if !Selectable(project, action) {
      return Review([action.sourceEditLayerId], [], map[]);
    }
    var source, target := SourceLayer(project, action).value, TargetRevision(project, action).value;
    assert source in project.editLayers;
    review := ReviewLayer(source, action.sourceHistoryPosition, action.mappings, target.timeline);
    NothingReported(source, action.sourceHistoryPosition, action.mappings, target.timeline);
    NothingMeansNone(review.conflicts);
  }

  // ----- what a clean review guarantees

  lemma RenameAgrees(f: Id -> Id, g: Id -> Id, edit: Operation)
    requires forall reference :: reference in References(edit) ==> f(reference.id) == g(reference.id)
    ensures RenameEdit(f, edit) == RenameEdit(g, edit)
  {
    match edit {
      case ReplaceChordSequence(targets, events) => RenamedRedrawAgrees(f, g, targets, events);
      case ReplaceChordValue(_, _) => assert References(edit)[0] in References(edit);
      case MoveBeat(_, _) => assert References(edit)[0] in References(edit);
      case SetBarMeter(_, _) => assert References(edit)[0] in References(edit);
      case ReplaceSectionLabel(_, _) => assert References(edit)[0] in References(edit);
      case MoveChordBoundary(_, _, _) =>
        assert References(edit)[0] in References(edit) && References(edit)[1] in References(edit);
      case MoveBarBoundary(_, _, _) =>
        assert References(edit)[0] in References(edit) && References(edit)[1] in References(edit);
      case _ =>
    }
  }

  lemma RenamedRedrawAgrees(f: Id -> Id, g: Id -> Id, targets: seq<Id>, events: seq<ChordDraft>)
    requires forall reference :: reference in References(ReplaceChordSequence(targets, events)) ==>
               f(reference.id) == g(reference.id)
    ensures Map(f, targets) == Map(g, targets) && RenameDrafts(f, events) == RenameDrafts(g, events)
  {
    var references := References(ReplaceChordSequence(targets, events));
    forall i | 0 <= i < |targets|
      ensures f(targets[i]) == g(targets[i])
    {
      assert references[i] == ChordReference(targets[i]) && references[i] in references;
    }
    forall i | 0 <= i < |events|
      ensures f(events[i].id) == g(events[i].id)
    {
      assert references[|targets| + i] == ChordReference(events[i].id) && references[|targets| + i] in references;
    }
  }

  /** Operations one after another on a timeline alone. */
  ghost function EditTimelineAll(timeline: Timeline, edits: seq<Operation>): Result<Timeline> {
    if edits == [] then Ok(timeline)
    else
      var before := EditTimelineAll(timeline, edits[..|edits| - 1]);
      if before.Err? then Err else EditTimeline(before.value, edits[|edits| - 1])
  }

  lemma MovableLeavesLyrics(state: Effective, edit: Operation)
    requires Movable(edit)
    ensures Edit(state, edit) == var timeline := EditTimeline(state.timeline, edit);
                                 if timeline.Err? then Err else Ok(state.(timeline := timeline.value))
  {
    assert state.alignment.Some? ==> EditAlignment(state.alignment.value, edit) == Ok(state.alignment.value);
  }

  /** It is the timeline part of the edits that readers of a history apply. */
  lemma {:induction false} TimelineOfEdits(state: Effective, edits: seq<Operation>)
    requires forall edit :: edit in edits ==> Movable(edit)
    ensures EditAll(state, edits) == var timeline := EditTimelineAll(state.timeline, edits);
                                     if timeline.Err? then Err else Ok(state.(timeline := timeline.value))
  {
    if edits != [] {
      var init := edits[..|edits| - 1];
      TimelineOfEdits(state, init);
      var before := EditTimelineAll(state.timeline, init);
      if before.Ok? {
        MovableLeavesLyrics(state.(timeline := before.value), edits[|edits| - 1]);
      }
    }
  }

  /** A renaming that goes on where the mapping leaves off. */
  ghost predicate ExtendsMapping(f: Id -> Id, mapping: map<Id, Id>) {
    forall id :: id in mapping ==> f(id) == mapping[id]
  }

  lemma {:induction false} RenamedEditsCommute(f: Id -> Id, mapping: map<Id, Id>, timeline: Timeline, target: Timeline,
                                               edits: seq<Operation>)
    requires OneToOne(f) && ExtendsMapping(f, mapping)
    requires AllAnswered(edits, mapping, target)
    ensures EditTimelineAll(RenameTimeline(f, timeline), RenameEdits(Along(mapping), edits))
            == RenameResult(f, EditTimelineAll(timeline, edits))
  {
    if edits != [] {
      var init, last := edits[..|edits| - 1], edits[|edits| - 1];
      assert Answered(last, mapping, target);
      RenamedEditsCommute(f, mapping, timeline, target, init);
      assert RenameEdits(Along(mapping), edits)[..|edits| - 1] == RenameEdits(Along(mapping), init);
      assert forall reference :: reference in References(last) ==> Resolved(reference, mapping, target);
      RenameAgrees(Along(mapping), f, last);
      var before := EditTimelineAll(timeline, init);
      if before.Ok? {
        EditCommutes(f, before.value, last);
      }
    }
  }

  lemma MovedTimelines(f: Id -> Id, edits: seq<Operation>, mappings: seq<Pair>, source: Timeline, target: Timeline,
                       duration: nat)
    requires Clean(edits, mappings, target)
    requires OneToOne(f) && ExtendsMapping(f, Table(mappings)) && target == RenameTimeline(f, source)
    ensures var moved := EditTimelineAll(target, RenameEdits(Along(Table(mappings)), edits));
            var original := EditTimelineAll(source, edits);
            && moved == RenameResult(f, original)
            && (moved.Ok? && ValidTimeline(moved.value, duration)
                <==> original.Ok? && ValidTimeline(original.value, duration))
  {
    RenamedEditsCommute(f, Table(mappings), source, target, edits);
    var original := EditTimelineAll(source, edits);
    if original.Ok? {
      ValidityRenamed(f, original.value, duration);
    }
  }

  // ----- end to end

  /** The project with the saved position of the source layer selected, and no lyrics. */
  function SourceSelected(project: Project, action: MappingAction): Project
    requires Selectable(project, action)
  {
    project.(activeView := Some(ActiveView(SourceLayer(project, action).value.analysisRevisionId,
                                           action.sourceEditLayerId, action.sourceHistoryPosition, None, None)))
  }

  /** The project with a new layer of one transaction on the target revision, selected at its end, and no lyrics. */
  function EditsMoved(project: Project, action: MappingAction, edits: seq<Operation>, layerId: Id,
                      transactionId: Id): Project {
    project.(editLayers := project.editLayers
             + [EditLayer(layerId, action.targetAnalysisRevisionId, [Transaction(transactionId, edits, None)])],
             activeView := Some(ActiveView(action.targetAnalysisRevisionId, layerId, 1, None, None)))
  }

  function RenameEffective(f: Id -> Id, read: Result<Effective>): Result<Effective> {
    if read.Err? then Err else Ok(Effective(RenameTimeline(f, read.value.timeline), None))
  }

  /** What a reader gets who edits a timeline without lyrics. */
  ghost function Read(timeline: Timeline, edits: seq<Operation>, duration: nat): Result<Effective> {
    var edited := EditTimelineAll(timeline, edits);
    if edited.Err? || !ValidTimeline(edited.value, duration) then Err else Ok(Effective(edited.value, None))
  }

  lemma ReadWithoutLyrics(timeline: Timeline, edits: seq<Operation>, project: Project)
    requires forall edit :: edit in edits ==> Movable(edit)
    ensures var edited := EditAll(Effective(timeline, None), edits);
            (if edited.Err? || !ValidEffective(edited.value, project) then Err else edited)
              == Read(timeline, edits, project.durationSamples)
  {
    TimelineOfEdits(Effective(timeline, None), edits);
  }

  function SourceRevision(project: Project, action: MappingAction): Option<AnalysisRevision>
    requires Selectable(project, action)
  {
    var index := Find(RevisionIds(project.analysisRevisions), SourceLayer(project, action).value.analysisRevisionId);
    if index < 0 then None else Some(project.analysisRevisions[index])
  }

  lemma SourceIsRead(project: Project, action: MappingAction)
    requires HistoriesWellFounded(project) && Selectable(project, action) && SourceRevision(project, action).Some?
    requires forall edit :: edit in SelectedEdits(project, action) ==> Movable(edit)
    ensures HistoriesWellFounded(SourceSelected(project, action))
    ensures Materialized(SourceSelected(project, action))
            == Read(SourceRevision(project, action).value.timeline, SelectedEdits(project, action),
                    project.durationSamples)
  {
    ReadWithoutLyrics(SourceRevision(project, action).value.timeline, SelectedEdits(project, action),
                      SourceSelected(project, action));
  }

  lemma {:induction false} FindLast(ids: seq<Id>, last: Id)
    requires last !in ids
    ensures Find(ids + [last], last) == |ids|
  {
    if ids != [] {
      assert (ids + [last])[1..] == ids[1..] + [last];
      FindLast(ids[1..], last);
    }
  }

  lemma OneTransactionIsWellFounded(transactionId: Id, edits: seq<Operation>)
    ensures WellFounded([Transaction(transactionId, edits, None)])
    ensures ChainOperations([Transaction(transactionId, edits, None)], 1) == edits
  {
    assert ChainOperations([Transaction(transactionId, edits, None)], 0) == [];
  }

  lemma MovedIsRead(project: Project, action: MappingAction, edits: seq<Operation>, layerId: Id, transactionId: Id)
    requires HistoriesWellFounded(project) && Selectable(project, action) && layerId !in LayerIds(project.editLayers)
    requires forall edit :: edit in edits ==> Movable(edit)
    ensures HistoriesWellFounded(EditsMoved(project, action, edits, layerId, transactionId))
    ensures Materialized(EditsMoved(project, action, edits, layerId, transactionId))
            == Read(TargetRevision(project, action).value.timeline, edits, project.durationSamples)
  {
    var after := EditsMoved(project, action, edits, layerId, transactionId);
    OneTransactionIsWellFounded(transactionId, edits);
    assert LayerIds(after.editLayers) == LayerIds(project.editLayers) + [layerId];
    FindLast(LayerIds(project.editLayers), layerId);
    ReadWithoutLyrics(TargetRevision(project, action).value.timeline, edits, after);
  }

  lemma RenamedEditsAreMovable(f: Id -> Id, edits: seq<Operation>)
    requires forall edit :: edit in edits ==> Movable(edit)
    ensures forall edit :: edit in RenameEdits(f, edits) ==> Movable(edit)
  {
    forall i | 0 <= i < |edits|
      ensures Movable(RenameEdit(f, edits[i]))
    {
      assert Movable(edits[i]);
    }
  }

  lemma CleanEditsAreMovable(edits: seq<Operation>, mappings: seq<Pair>, timeline: Timeline)
    requires Clean(edits, mappings, timeline)
    ensures forall edit :: edit in edits ==> Movable(edit)
    ensures forall edit :: edit in RenameEdits(Along(Table(mappings)), edits) ==> Movable(edit)
  {
    assert forall edit :: edit in edits ==> Answered(edit, Table(mappings), timeline);
    RenamedEditsAreMovable(Along(Table(mappings)), edits);
  }

  /**
   When the review reports no conflict and the target timeline is the source timeline under a one-to-one
   renaming that extends the mapping, then the new layer reads as the saved position of the source layer
   does, up to that renaming; and it is refused exactly when that one is.
  */
  lemma MovedEditsCommute(project: Project, action: MappingAction, f: Id -> Id, layerId: Id, transactionId: Id)
    requires HistoriesWellFounded(project) && NoConflicts(project, action)
    requires SourceRevision(project, action).Some? && layerId !in LayerIds(project.editLayers)
    requires OneToOne(f) && ExtendsMapping(f, Table(action.mappings))
    requires TargetRevision(project, action).value.timeline
             == RenameTimeline(f, SourceRevision(project, action).value.timeline)
    ensures var source, moved := SourceSelected(project, action),
                EditsMoved(project, action, MovedEdits(project, action), layerId, transactionId);
            && HistoriesWellFounded(source) && HistoriesWellFounded(moved)
            && Materialized(moved) == RenameEffective(f, Materialized(source))
  {
    var edits := SelectedEdits(project, action);
    CleanEditsAreMovable(edits, action.mappings, TargetRevision(project, action).value.timeline);
    SourceIsRead(project, action);
    MovedIsRead(project, action, MovedEdits(project, action), layerId, transactionId);
    MovedTimelines(f, edits, action.mappings, SourceRevision(project, action).value.timeline,
                   TargetRevision(project, action).value.timeline, project.durationSamples);
  }

  // ----- there is always such a renaming

  function Swapped(f: Id -> Id, b: Id, c: Id): Id -> Id {
    (id: Id) => if f(id) == b then c else if f(id) == c then b else f(id)
  }

  ghost predicate InjectiveMap(mapping: map<Id, Id>) {
    forall a, b :: a in mapping && b in mapping && mapping[a] == mapping[b] ==> a == b
  }

  lemma SwappedIsOneToOne(f: Id -> Id, b: Id, c: Id)
    requires OneToOne(f)
    ensures OneToOne(Swapped(f, b, c))
  {
    forall x, y | Swapped(f, b, c)(x) == Swapped(f, b, c)(y)
      ensures x == y
    {
      assert f(x) == f(y);
    }
  }

  lemma SwappedExtends(g: Id -> Id, mapping: map<Id, Id>, a: Id)
    requires OneToOne(g) && InjectiveMap(mapping) && a in mapping && ExtendsMapping(g, mapping - {a})
    ensures ExtendsMapping(Swapped(g, mapping[a], g(a)), mapping)
  {
    forall id | id in mapping
      ensures Swapped(g, mapping[a], g(a))(id) == mapping[id]
    {
      if id != a {
        assert id in mapping - {a} && g(id) == mapping[id] != mapping[a] && g(id) != g(a);
      }
    }
  }

  /** A one-to-one renaming of finitely many ids goes on to one of all strings. */
  lemma {:induction false} MappingExtends(mapping: map<Id, Id>) returns (f: Id -> Id)
    requires InjectiveMap(mapping)
    ensures OneToOne(f) && ExtendsMapping(f, mapping)
    decreases |mapping|
  {
    if mapping == map[] {
      f := (id: Id) => id;
    } else {
      var a :| a in mapping;
      var rest := mapping - {a};
      assert rest.Keys == mapping.Keys - {a};
      var g := MappingExtends(rest);
      f := Swapped(g, mapping[a], g(a));
      SwappedIsOneToOne(g, mapping[a], g(a));
      SwappedExtends(g, mapping, a);
    }
  }

  lemma ValuesWithout(mapping: map<Id, Id>, a: Id)
    requires a in mapping
    ensures mapping.Values == (mapping - {a}).Values + {mapping[a]} && |mapping - {a}| == |mapping| - 1
  {
    var rest := mapping - {a};
    assert rest.Keys == mapping.Keys - {a};
    forall value | value in mapping.Values
      ensures value in rest.Values + {mapping[a]}
    {
      var key :| key in mapping && mapping[key] == value;
      assert key != a ==> key in rest && rest[key] == value;
    }
    assert forall value :: value in rest.Values ==> exists key :: key in rest && rest[key] == value && key in mapping;
  }

  lemma {:induction false} ValuesAreNoMore(mapping: map<Id, Id>)
    ensures |mapping.Values| <= |mapping|
    ensures |mapping.Values| == |mapping| ==> InjectiveMap(mapping)
    decreases |mapping|
  {
    if mapping != map[] {
      var a :| a in mapping;
      var rest := mapping - {a};
      ValuesWithout(mapping, a);
      ValuesAreNoMore(rest);
      if |mapping.Values| == |mapping| {
        assert mapping[a] !in rest.Values;
        assert forall b :: b in mapping && b != a ==> b in rest && rest[b] in rest.Values;
      }
    }
  }

  /** The mapping of a review without conflicts extends to a one-to-one renaming. */
  lemma BijectiveMappingsExtend(mappings: seq<Pair>) returns (f: Id -> Id)
    requires Bijective(mappings)
    ensures OneToOne(f) && ExtendsMapping(f, Table(mappings))
  {
    ValuesAreNoMore(Table(mappings));
    f := MappingExtends(Table(mappings));
  }
}
