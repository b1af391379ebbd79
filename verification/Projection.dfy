/**
 The two computations of an edited timeline: a walk down the chain of one history position, and a table
 with one entry per transaction, each built from the entry of its parent. On a valid project they agree.
*/
module Projection {
  import opened Wrappers
  import opened Sequences
  import opened Schema
  import opened Invariants
  import opened Edits
  import opened History

  // ----- the chain walk

  lemma {:induction false} EditAllConcat(state: Effective, a: seq<Operation>, b: seq<Operation>)
    ensures EditAll(state, a + b) == var first := EditAll(state, a);
                                     if first.Err? then Err else EditAll(first.value, b)
  {
    if b == [] {
      assert a + b == a;
    } else {
      assert (a + b)[..|a + b| - 1] == a + b[..|b| - 1];
      EditAllConcat(state, a, b[..|b| - 1]);
    }
  }

  ghost predicate ValidEffective(state: Effective, project: Project) {
    && ValidTimeline(state.timeline, project.durationSamples)
    && (state.alignment.Some? ==>
          var index := Find(DocumentIds(project.lyricsDocuments), state.alignment.value.lyricsDocumentId);
          && index >= 0
          && ValidAlignment(state.alignment.value, project.lyricsDocuments[index], project.durationSamples))
  }

  function SelectedAlignment(project: Project, view: ActiveView): Option<LyricsAlignment> {
    if view.lyricsAlignmentId == None then None
    else
      var index := Find(AlignmentIds(project.lyricsAlignments), view.lyricsAlignmentId.value);
      if index < 0 then None else Some(project.lyricsAlignments[index])
  }

  ghost predicate HistoriesWellFounded(project: Project) {
    forall layer :: layer in project.editLayers ==> WellFounded(layer.transactions)
  }

  ghost function ViewOperations(transactions: seq<Transaction>, position: nat): seq<Operation>
    requires WellFounded(transactions)
  {
    if position <= |transactions| then ChainOperations(transactions, position) else []
  }

  /** What a reader of the active view gets: an edited, validated state, or an exception. */
  ghost function Materialized(project: Project): Result<Effective>
    requires HistoriesWellFounded(project)
  {
    if project.activeView == None then Err
    else
      var view := project.activeView.value;
      var revision := Find(RevisionIds(project.analysisRevisions), view.analysisRevisionId);
      var layer := Find(LayerIds(project.editLayers), view.editLayerId);
      if revision < 0 || layer < 0 then Err
      else
        var start := Effective(project.analysisRevisions[revision].timeline, SelectedAlignment(project, view));
        var edited := EditAll(start, ViewOperations(project.editLayers[layer].transactions, view.editHistoryPosition));
        if edited.Err? || !ValidEffective(edited.value, project) then Err else edited
  }

  method ApplyAll(timeline: MutableTimeline, alignment: MutableAlignment?, edits: seq<Operation>) returns (ok: bool)
    modifies timeline, alignment
    ensures ok <==> EditAll(old(ValueOf(timeline, alignment)), edits).Ok?
    ensures ok ==> ValueOf(timeline, alignment) == EditAll(old(ValueOf(timeline, alignment)), edits).value
  {
    ghost var start := ValueOf(timeline, alignment);
    for n := 0 to |edits|
      invariant EditAll(start, edits[..n]) == Ok(ValueOf(timeline, alignment))
    {
      assert edits[..n + 1][..n] == edits[..n];
      var applied := ApplyOperation(timeline, alignment, edits[n]);
      if !applied {
        FailureIsFinal(start, edits, n + 1);
        return false;
      }
    }
    assert edits[..|edits|] == edits;
    return true;
  }

  lemma {:induction false} FailureIsFinal(state: Effective, edits: seq<Operation>, n: nat)
    requires n <= |edits| && EditAll(state, edits[..n]).Err?
    ensures EditAll(state, edits).Err?
  {
    assert edits == edits[..n] + edits[n..];
    EditAllConcat(state, edits[..n], edits[n..]);
  }

  method ValidateEffective(state: Effective, project: Project) returns (ok: bool)
    ensures ok <==> ValidEffective(state, project)
  {
    ok := ValidateTimeline(state.timeline, project.durationSamples);
    if state.alignment.Some? {
      var alignment := state.alignment.value;
      var document := Find(DocumentIds(project.lyricsDocuments), alignment.lyricsDocumentId);
      if document < 0 {
        return false;
      }
      var aligned := ValidateAlignment(alignment, project.lyricsDocuments[document], project.durationSamples);
      ok := ok && aligned;
    }
  }

  /** Edits a private copy of a revision's timeline and of the selected alignment. */
  method EditCopy(start: Effective, transactions: seq<Transaction>, position: nat) returns (result: Result<Effective>)
    requires WellFounded(transactions)
    ensures result == EditAll(start, ViewOperations(transactions, position))
  {
    var timeline := new MutableTimeline.Clone(start.timeline);
    var alignment: MutableAlignment? := null;
    if start.alignment.Some? {
      alignment := new MutableAlignment.Clone(start.alignment.value);
    }
    var chain := WalkChain(transactions, position);
    var ok := ApplyChain(timeline, alignment, chain);
    if !ok {
      return Err;
    }
    result := Ok(Effective(timeline.Value(), if alignment == null then None else Some(alignment.Value())));
  }

  method MaterializeEffectiveTimeline(project: Project) returns (result: Result<Effective>)
    requires HistoriesWellFounded(project)
    ensures result == Materialized(project)
  {
    if project.activeView == None {
      return Err;
    }
    var view := project.activeView.value;
    var revision := Find(RevisionIds(project.analysisRevisions), view.analysisRevisionId);
    var layer := Find(LayerIds(project.editLayers), view.editLayerId);
    if revision < 0 || layer < 0 {
      return Err;
    }
    var start := Effective(project.analysisRevisions[revision].timeline, SelectedAlignment(project, view));
    result := EditCopy(start, project.editLayers[layer].transactions, view.editHistoryPosition);
    if result.Ok? {
      var valid := ValidateEffective(result.value, project);
      if !valid {
        return Err;
      }
    }
  }

  method ApplyChain(timeline: MutableTimeline, alignment: MutableAlignment?, chain: seq<Transaction>) returns (ok: bool)
    modifies timeline, alignment
    ensures ok <==> EditAll(old(ValueOf(timeline, alignment)), OperationsOf(chain)).Ok?
    ensures ok ==> ValueOf(timeline, alignment) == EditAll(old(ValueOf(timeline, alignment)), OperationsOf(chain)).value
  {
    ghost var answer := EditAll(ValueOf(timeline, alignment), OperationsOf(chain));
    for n := 0 to |chain|
      invariant answer == EditAll(ValueOf(timeline, alignment), OperationsOf(chain[n..]))
    {
      assert chain[n..][1..] == chain[n + 1..];
      EditAllConcat(ValueOf(timeline, alignment), chain[n].operations, OperationsOf(chain[n + 1..]));
      var applied := ApplyAll(timeline, alignment, chain[n].operations);
      if !applied {
        return false;
      }
    }
    return true;
  }

  // ----- the memo table

  /** A revision's timeline with all of its alignments. */
  datatype Committed = Committed(timeline: Timeline, alignments: seq<LyricsAlignment>)

  ghost function EditCommitted(state: Committed, edit: Operation): Result<Committed> {
    if EditsLyrics(edit) then
      var index := Find(AlignmentIds(state.alignments), edit.alignmentId);
      if index < 0 then Err
      else
        var alignment := EditAlignment(state.alignments[index], edit);
        if alignment.Err? then Err else Ok(state.(alignments := state.alignments[index := alignment.value]))
    else
      var timeline := EditTimeline(state.timeline, edit);
      if timeline.Err? then Err else Ok(state.(timeline := timeline.value))
  }

  ghost function EditCommittedAll(state: Committed, edits: seq<Operation>): Result<Committed> {
    if edits == [] then Ok(state)
    else
      var before := EditCommittedAll(state, edits[..|edits| - 1]);
      if before.Err? then Err else EditCommitted(before.value, edits[|edits| - 1])
  }

  ghost predicate ValidCommitted(state: Committed, project: Project) {
    && ValidTimeline(state.timeline, project.durationSamples)
    && forall alignment :: alignment in state.alignments ==>
         var index := Find(DocumentIds(project.lyricsDocuments), alignment.lyricsDocumentId);
         index >= 0 && ValidAlignment(alignment, project.lyricsDocuments[index], project.durationSamples)
  }

  function AlignmentsOf(alignments: seq<LyricsAlignment>, revisionId: Id): seq<LyricsAlignment> {
    if alignments == [] then []
    else (if alignments[0].analysisRevisionId == revisionId then [alignments[0]] else [])
         + AlignmentsOf(alignments[1..], revisionId)
  }

  function Initial(project: Project, revision: AnalysisRevision): Committed {
    Committed(revision.timeline, AlignmentsOf(project.lyricsAlignments, revision.id))
  }

  /** The committed state at a position: the parent's, edited and found valid. */
  ghost function CommittedAt(project: Project, initial: Committed, transactions: seq<Transaction>,
                             position: nat): Result<Committed>
    requires WellFounded(transactions) && position <= |transactions|
  {
    if position == 0 then Ok(initial)
    else
      var parent := CommittedAt(project, initial, transactions, ParentPosition(transactions, position));
      if parent.Err? then Err
      else
        var edited := EditCommittedAll(parent.value, transactions[position - 1].operations);
        if edited.Err? || !ValidCommitted(edited.value, project) then Err else edited
  }

  ghost predicate CommitsThrough(project: Project, initial: Committed, transactions: seq<Transaction>, n: nat)
    requires WellFounded(transactions) && n <= |transactions|
  {
    forall position :: 0 < position <= n ==> CommittedAt(project, initial, transactions, position).Ok?
  }

  ghost predicate Stores(table: map<Id, Committed>, project: Project, initial: Committed,
                         transactions: seq<Transaction>, position: nat)
    requires WellFounded(transactions) && 0 < position <= |transactions|
  {
    var id := transactions[position - 1].id;
    id in table && CommittedAt(project, initial, transactions, position) == Ok(table[id])
  }

  /** One edit of a projection, on the timeline and on the alignment it names. */
  method EditProjectionOnce(timeline: MutableTimeline, alignments: seq<LyricsAlignment>, edit: Operation)
    returns (ok: bool, after: seq<LyricsAlignment>)
    modifies timeline
    ensures ok <==> EditCommitted(Committed(old(timeline.Value()), alignments), edit).Ok?
    ensures ok ==>
              EditCommitted(Committed(old(timeline.Value()), alignments), edit)
              == Ok(Committed(timeline.Value(), after))
  {
    after := alignments;
    if EditsLyrics(edit) {
      var index := Find(AlignmentIds(alignments), edit.alignmentId);
      if index < 0 {
        return false, alignments;
      }
      var alignment := new MutableAlignment.Clone(alignments[index]);
      ok := ApplyOperation(timeline, alignment, edit);
      after := alignments[index := alignment.Value()];
    } else {
      ok := ApplyOperation(timeline, null, edit);
    }
  }

  method EditProjection(state: Committed, edits: seq<Operation>) returns (result: Result<Committed>)
    ensures result == EditCommittedAll(state, edits)
  {
    var timeline := new MutableTimeline.Clone(state.timeline);
    var alignments := state.alignments;
    for n := 0 to |edits|
      invariant EditCommittedAll(state, edits[..n]) == Ok(Committed(timeline.Value(), alignments))
    {
      assert edits[..n + 1][..n] == edits[..n];
      var ok, after := EditProjectionOnce(timeline, alignments, edits[n]);
      if !ok {
        CommittedFailureIsFinal(state, edits, n + 1);
        return Err;
      }
      alignments := after;
    }
    assert edits[..|edits|] == edits;
    result := Ok(Committed(timeline.Value(), alignments));
  }

  lemma {:induction false} CommittedFailureIsFinal(state: Committed, edits: seq<Operation>, n: nat)
    requires n <= |edits| && EditCommittedAll(state, edits[..n]).Err?
    ensures EditCommittedAll(state, edits).Err?
    decreases |edits| - n
  {
    if n == |edits| {
      assert edits[..n] == edits;
    } else {
      assert edits[..n + 1][..n] == edits[..n];
      CommittedFailureIsFinal(state, edits, n + 1);
    }
  }

  method ValidateProjection(state: Committed, project: Project) returns (ok: bool)
    ensures ok <==> ValidCommitted(state, project)
  {
    ok := ValidateTimeline(state.timeline, project.durationSamples);
    ghost var timeline := ok;
    for n := 0 to |state.alignments|
      invariant ok <==> timeline && forall i :: 0 <= i < n ==>
                  var index := Find(DocumentIds(project.lyricsDocuments), state.alignments[i].lyricsDocumentId);
                  index >= 0 && ValidAlignment(state.alignments[i], project.lyricsDocuments[index],
                                               project.durationSamples)
    {
      var document := Find(DocumentIds(project.lyricsDocuments), state.alignments[n].lyricsDocumentId);
      if document < 0 {
        ok := false;
      } else {
        var valid := ValidateAlignment(state.alignments[n], project.lyricsDocuments[document], project.durationSamples);
        ok := ok && valid;
      }
    }
  }

  /** The table has the projections of the first history positions. */
  ghost predicate StoresUpTo(table: map<Id, Committed>, project: Project, initial: Committed,
                             transactions: seq<Transaction>, n: nat)
    requires WellFounded(transactions) && n <= |transactions|
  {
    forall position :: 0 < position <= n ==> Stores(table, project, initial, transactions, position)
  }

  /** A transaction has its operations applied to the entry of its parent, or to the initial state if it has none. */
  ghost predicate EntryFollows(table: map<Id, Committed>, project: Project, initial: Committed,
                               transaction: Transaction)
  {
    && transaction.id in table && ValidCommitted(table[transaction.id], project)
    && match transaction.parentTransactionId
       case None => EditCommittedAll(initial, transaction.operations) == Ok(table[transaction.id])
       case Some(parentId) =>
         parentId in table && EditCommittedAll(table[parentId], transaction.operations) == Ok(table[transaction.id])
  }

  ghost predicate FollowsParents(table: map<Id, Committed>, project: Project, initial: Committed,
                                 transactions: seq<Transaction>)
  {
    forall transaction :: transaction in transactions ==> EntryFollows(table, project, initial, transaction)
  }

  lemma StoredEntryFollows(table: map<Id, Committed>, project: Project, initial: Committed,
                           transactions: seq<Transaction>, n: nat, before: Committed)
    requires WellFounded(transactions) && n < |transactions| && Stores(table, project, initial, transactions, n + 1)
    requires CommittedAt(project, initial, transactions, ParentPosition(transactions, n + 1)) == Ok(before)
    requires IsBefore(before, table, initial, transactions[n])
    ensures EntryFollows(table, project, initial, transactions[n])
  {
    CommittedIsEdited(project, initial, transactions, n + 1, before, table[transactions[n].id]);
    EntryFollowsFrom(table, project, initial, transactions[n], before);
  }

  /** The state a transaction starts from. */
  ghost predicate IsBefore(before: Committed, table: map<Id, Committed>, initial: Committed, transaction: Transaction) {
    match transaction.parentTransactionId
    case None => before == initial
    case Some(parentId) => parentId in table && table[parentId] == before
  }

  lemma EntryFollowsFrom(table: map<Id, Committed>, project: Project, initial: Committed, transaction: Transaction,
                         before: Committed)
    requires IsBefore(before, table, initial, transaction)
    requires transaction.id in table && ValidCommitted(table[transaction.id], project)
    requires EditCommittedAll(before, transaction.operations) == Ok(table[transaction.id])
    ensures EntryFollows(table, project, initial, transaction)
  {
  }

  lemma CommittedIsEdited(project: Project, initial: Committed, transactions: seq<Transaction>, position: nat,
                          parent: Committed, state: Committed)
    requires WellFounded(transactions) && 0 < position <= |transactions|
    requires CommittedAt(project, initial, transactions, ParentPosition(transactions, position)) == Ok(parent)
    requires CommittedAt(project, initial, transactions, position) == Ok(state)
    ensures EditCommittedAll(parent, transactions[position - 1].operations) == Ok(state)
            && ValidCommitted(state, project)
  {
    CommittedFromParent(project, initial, transactions, position, parent);
  }

  lemma StoredBefore(table: map<Id, Committed>, project: Project, initial: Committed, transactions: seq<Transaction>,
                     n: nat)
    returns (before: Committed)
    requires WellFounded(transactions) && n < |transactions|
    requires var parent := ParentPosition(transactions, n + 1);
             parent > 0 ==> Stores(table, project, initial, transactions, parent)
    ensures CommittedAt(project, initial, transactions, ParentPosition(transactions, n + 1)) == Ok(before)
    ensures IsBefore(before, table, initial, transactions[n])
  {
    var parent := ParentPosition(transactions, n + 1);
    ParentIsNamed(transactions, n + 1);
    before := if parent == 0 then initial else table[transactions[parent - 1].id];
  }

  lemma CommittedFromParent(project: Project, initial: Committed, transactions: seq<Transaction>, position: nat,
                            parent: Committed)
    requires WellFounded(transactions) && 0 < position <= |transactions|
    requires CommittedAt(project, initial, transactions, ParentPosition(transactions, position)) == Ok(parent)
    ensures CommittedAt(project, initial, transactions, position)
            == var edited := EditCommittedAll(parent, transactions[position - 1].operations);
               if edited.Err? || !ValidCommitted(edited.value, project) then Err else edited
  {
  }

  lemma StoredEntriesFollow(table: map<Id, Committed>, project: Project, initial: Committed,
                            transactions: seq<Transaction>)
    requires WellFounded(transactions) && StoresUpTo(table, project, initial, transactions, |transactions|)
    ensures FollowsParents(table, project, initial, transactions)
  {
    forall n | 0 <= n < |transactions|
      ensures EntryFollows(table, project, initial, transactions[n])
    {
      assert Stores(table, project, initial, transactions, n + 1);
      var parent := ParentPosition(transactions, n + 1);
      assert parent > 0 ==> Stores(table, project, initial, transactions, parent);
      var before := StoredBefore(table, project, initial, transactions, n);
      StoredEntryFollows(table, project, initial, transactions, n, before);
    }
  }

  lemma {:induction false} FollowingEntryIsStored(table: map<Id, Committed>, project: Project, initial: Committed,
                                                  transactions: seq<Transaction>, position: nat)
    requires WellFounded(transactions) && FollowsParents(table, project, initial, transactions)
    requires 0 < position <= |transactions|
    ensures Stores(table, project, initial, transactions, position)
    decreases position
  {
    var parent := ParentPosition(transactions, position);
    ParentIsNamed(transactions, position);
    assert EntryFollows(table, project, initial, transactions[position - 1]);
    if parent > 0 {
      FollowingEntryIsStored(table, project, initial, transactions, parent);
      CommittedFromParent(project, initial, transactions, position, table[transactions[parent - 1].id]);
    } else {
      CommittedFromParent(project, initial, transactions, position, initial);
    }
  }

  /** Any table whose entries follow those of their parents is the one that is committed. */
  lemma FollowingTableIsStored(table: map<Id, Committed>, project: Project, initial: Committed,
                               transactions: seq<Transaction>)
    requires WellFounded(transactions) && FollowsParents(table, project, initial, transactions)
    ensures CommitsThrough(project, initial, transactions, |transactions|)
    ensures StoresUpTo(table, project, initial, transactions, |transactions|)
  {
    forall position | 0 < position <= |transactions|
      ensures Stores(table, project, initial, transactions, position)
      ensures CommittedAt(project, initial, transactions, position).Ok?
    {
      FollowingEntryIsStored(table, project, initial, transactions, position);
    }
  }

  method ParentProjection(projections: map<Id, Committed>, project: Project, initial: Committed,
                          transactions: seq<Transaction>, n: nat)
    returns (parent: Committed)
    requires WellFounded(transactions) && n < |transactions|
    requires StoresUpTo(projections, project, initial, transactions, n)
    ensures CommittedAt(project, initial, transactions, ParentPosition(transactions, n + 1)) == Ok(parent)
  {
    var parentId := transactions[n].parentTransactionId;
    if parentId == None {
      return initial;
    }
    ParentIsEarlier(transactions, n + 1);
    ghost var position := ParentPosition(transactions, n + 1);
    assert TransactionIds(transactions)[position - 1] == transactions[position - 1].id;
    assert Stores(projections, project, initial, transactions, position);
    return projections[parentId.value];
  }

  method CommitTransaction(project: Project, ghost initial: Committed, parent: Committed,
                           transactions: seq<Transaction>, n: nat)
    returns (committed: Result<Committed>)
    requires WellFounded(transactions) && n < |transactions|
    requires CommittedAt(project, initial, transactions, ParentPosition(transactions, n + 1)) == Ok(parent)
    ensures committed == CommittedAt(project, initial, transactions, n + 1)
  {
    var edited := EditProjection(parent, transactions[n].operations);
    if edited.Err? {
      return Err;
    }
    var valid := ValidateProjection(edited.value, project);
    committed := if valid then edited else Err;
  }

  lemma OneMoreCommits(project: Project, initial: Committed, transactions: seq<Transaction>, n: nat)
    requires WellFounded(transactions) && n < |transactions|
    ensures CommitsThrough(project, initial, transactions, n + 1)
            <==>
            CommitsThrough(project, initial, transactions, n) && CommittedAt(project, initial, transactions, n + 1).Ok?
  {
  }

  lemma FailureStops(project: Project, initial: Committed, transactions: seq<Transaction>, n: nat)
    requires WellFounded(transactions) && n < |transactions| && CommittedAt(project, initial, transactions, n + 1).Err?
    ensures !CommitsThrough(project, initial, transactions, |transactions|)
  {
  }

  method CommitAll(project: Project, initial: Committed, transactions: seq<Transaction>)
    returns (result: Result<map<Id, Committed>>)
    requires WellFounded(transactions)
    ensures result.Ok? <==> CommitsThrough(project, initial, transactions, |transactions|)
    ensures result.Ok? ==> StoresUpTo(result.value, project, initial, transactions, |transactions|)
  {
    var projections: map<Id, Committed> := map[];
    for n := 0 to |transactions|
      invariant CommitsThrough(project, initial, transactions, n)
      invariant StoresUpTo(projections, project, initial, transactions, n)
    {
      var parent := ParentProjection(projections, project, initial, transactions, n);
      var committed := CommitTransaction(project, initial, parent, transactions, n);
      OneMoreCommits(project, initial, transactions, n);
      if committed.Err? {
        FailureStops(project, initial, transactions, n);
        return Err;
      }
      NewEntryKeepsTable(projections, projections[transactions[n].id := committed.value], project, initial,
                         transactions, n);
      projections := projections[transactions[n].id := committed.value];
    }
    result := Ok(projections);
  }

  /** The memo table of one layer: it is complete exactly when every position commits. */
  method CommitLayer(project: Project, layer: EditLayer, revision: AnalysisRevision)
    returns (result: Result<map<Id, Committed>>)
    requires WellFounded(layer.transactions)
    ensures result.Ok? <==> CommitsThrough(project, Initial(project, revision), layer.transactions,
                                           |layer.transactions|)
    ensures result.Ok? ==> StoresUpTo(result.value, project, Initial(project, revision), layer.transactions,
                                      |layer.transactions|)
    ensures result.Ok? ==> FollowsParents(result.value, project, Initial(project, revision), layer.transactions)
    ensures result.Err? ==>
              forall table :: !FollowsParents(table, project, Initial(project, revision), layer.transactions)
  {
    result := CommitAll(project, Initial(project, revision), layer.transactions);
    if result.Ok? {
      StoredEntriesFollow(result.value, project, Initial(project, revision), layer.transactions);
    } else {
      forall table | FollowsParents(table, project, Initial(project, revision), layer.transactions)
        ensures false
      {
        FollowingTableIsStored(table, project, Initial(project, revision), layer.transactions);
      }
    }
  }

  lemma NewEntryKeepsTable(table: map<Id, Committed>, after: map<Id, Committed>, project: Project, initial: Committed,
                           transactions: seq<Transaction>, n: nat)
    requires WellFounded(transactions) && n < |transactions|
    requires StoresUpTo(table, project, initial, transactions, n)
    requires CommittedAt(project, initial, transactions, n + 1).Ok?
    requires after == table[transactions[n].id := CommittedAt(project, initial, transactions, n + 1).value]
    ensures StoresUpTo(after, project, initial, transactions, n + 1)
  {
    var ids := TransactionIds(transactions);
    forall position: nat | 0 < position <= n + 1
      ensures Stores(after, project, initial, transactions, position)
    {
      if position <= n {
        assert Stores(table, project, initial, transactions, position);
        assert ids[position - 1] != ids[n];
      }
    }
  }

  ghost predicate LayerCommits(project: Project, layer: EditLayer)
    requires WellFounded(layer.transactions)
  {
    var index := Find(RevisionIds(project.analysisRevisions), layer.analysisRevisionId);
    index >= 0 && CommitsThrough(project, Initial(project, project.analysisRevisions[index]), layer.transactions,
                                 |layer.transactions|)
  }

  lemma FindsItsPosition(transactions: seq<Transaction>, k: nat)
    requires WellFounded(transactions) && k < |transactions|
    ensures transactions[k].id in TransactionIds(transactions)
    ensures Find(TransactionIds(transactions), transactions[k].id) == k
  {
    assert TransactionIds(transactions)[k] == transactions[k].id;
    FindIsUnique(TransactionIds(transactions), k);
  }

  /** All states that are committed. */
  ghost function States(project: Project, initial: Committed, transactions: seq<Transaction>): map<Id, Committed>
    requires WellFounded(transactions) && CommitsThrough(project, initial, transactions, |transactions|)
  {
    map id | id in TransactionIds(transactions) ::
      CommittedAt(project, initial, transactions, Find(TransactionIds(transactions), id) + 1).value
  }

  lemma StateOf(project: Project, initial: Committed, transactions: seq<Transaction>, id: Id, position: nat)
    requires WellFounded(transactions) && CommitsThrough(project, initial, transactions, |transactions|)
    requires id in TransactionIds(transactions) && Find(TransactionIds(transactions), id) + 1 == position
    ensures var table := States(project, initial, transactions);
            id in table && CommittedAt(project, initial, transactions, position) == Ok(table[id])
  {
    assert CommittedAt(project, initial, transactions, position).Ok?;
  }

  lemma StatesAreStored(project: Project, initial: Committed, transactions: seq<Transaction>, position: nat)
    requires WellFounded(transactions) && CommitsThrough(project, initial, transactions, |transactions|)
    requires 0 < position <= |transactions|
    ensures Stores(States(project, initial, transactions), project, initial, transactions, position)
  {
    FindsItsPosition(transactions, position - 1);
    StateOf(project, initial, transactions, transactions[position - 1].id, position);
  }

  lemma StatesFollowParents(project: Project, initial: Committed, transactions: seq<Transaction>)
    requires WellFounded(transactions) && CommitsThrough(project, initial, transactions, |transactions|)
    ensures FollowsParents(States(project, initial, transactions), project, initial, transactions)
  {
    forall position | 0 < position <= |transactions|
      ensures Stores(States(project, initial, transactions), project, initial, transactions, position)
    {
      StatesAreStored(project, initial, transactions, position);
    }
    StoredEntriesFollow(States(project, initial, transactions), project, initial, transactions);
  }

  /**
   A layer commits on its own revision exactly when there are states for all its transactions, each that of
   the parent, or of the revision, with the operations applied and found valid.
  */
  lemma LayerCommitsOnItsRevision(project: Project, layer: EditLayer, revision: AnalysisRevision)
    requires WellFounded(layer.transactions) && Distinct(RevisionIds(project.analysisRevisions))
    requires revision in project.analysisRevisions && revision.id == layer.analysisRevisionId
    ensures LayerCommits(project, layer) <==>
            exists table :: FollowsParents(table, project, Initial(project, revision), layer.transactions)
  {
    var ids := RevisionIds(project.analysisRevisions);
    var k :| 0 <= k < |project.analysisRevisions| && project.analysisRevisions[k] == revision;
    assert ids[k] == revision.id;
    FindIsUnique(ids, k);
    if LayerCommits(project, layer) {
      StatesFollowParents(project, Initial(project, revision), layer.transactions);
    }
    if table :| FollowsParents(table, project, Initial(project, revision), layer.transactions) {
      FollowingTableIsStored(table, project, Initial(project, revision), layer.transactions);
    }
  }

  method ValidateCommittedEditLayerProjections(project: Project) returns (ok: bool)
    requires HistoriesWellFounded(project)
    ensures ok <==> forall layer :: layer in project.editLayers ==> LayerCommits(project, layer)
  {
    for n := 0 to |project.editLayers|
      invariant forall i :: 0 <= i < n ==> LayerCommits(project, project.editLayers[i])
    {
      var layer := project.editLayers[n];
      assert layer in project.editLayers;
      var index := Find(RevisionIds(project.analysisRevisions), layer.analysisRevisionId);
      if index < 0 {
        return false;
      }
      var table := CommitLayer(project, layer, project.analysisRevisions[index]);
      if table.Err? {
        return false;
      }
    }
    return true;
  }
}
