/** What each step of an acquisition does to the attempt, its journal, its snapshot and the jobs file. */
module AcquisitionSteps {
  import opened Wrappers
  import opened Acquisition

  /** An attempt of a job is at a step. */
  ghost predicate Stands(world: World, jobs: Jobs, poisoned: bool, id: Id, step: Step) {
    world.process == Open(jobs, poisoned, Some(Attempt(id, step)))
  }

  /** The jobs file is replaced: done and synced, not at all, or done but not synced. */
  ghost predicate WritesJobs(before: JobsFile, after: JobsFile, jobs: Jobs, write: Write) {
    && after.visible == (if write == Lost then before.visible else jobs)
    && after.left == (if write == Written then {jobs} else if write == Lost then before.left else before.left + {jobs})
  }

  ghost predicate DirectoriesStay(before: World, after: World) {
    after.journals == before.journals && after.catalogue == before.catalogue
  }

  /** Nothing changes but the program's own memory. */
  ghost predicate OnlyProcess(before: World, after: World, process: Process) {
    && DirectoriesStay(before, after) && after.next == before.next && after.file == before.file
    && after.process == process
  }

  ghost predicate JournalsBecome(before: World, after: World, visible: set<Id>, durable: set<Id>, process: Process) {
    && after.journals.visible == visible && after.journals.durable == durable && after.catalogue == before.catalogue
    && after.next == before.next && after.file == before.file && after.process == process
  }

  ghost predicate CatalogueBecomes(before: World, after: World, visible: set<Id>, durable: set<Id>,
                                   process: Process)
  {
    && after.catalogue.visible == visible && after.catalogue.durable == durable && after.journals == before.journals
    && after.next == before.next && after.file == before.file && after.process == process
  }

  // ----- admission and recording

  /** A new job gets a fresh id; an attempt begins only if it could be recorded, and not after an incomplete cleanup. */
  lemma AdmissionDoes(world: World, jobs: Jobs, poisoned: bool, write: Write)
    requires world.process == Open(jobs, poisoned, None)
    ensures Enabled(world, Begin(write)) <==> !poisoned
    ensures Enabled(world, Refuse(write))
    ensures !poisoned ==>
              var after := After(world, Begin(write));
              && after.next == world.next + 1 && DirectoriesStay(world, after)
              && WritesJobs(world.file, after.file, jobs[world.next := Running], write)
              && after.process == if write != Written then world.process
                                  else Open(jobs[world.next := Running], false, Some(Attempt(world.next, Acquiring)))
    ensures var after := After(world, Refuse(write));
            && after.next == world.next + 1 && DirectoriesStay(world, after)
            && WritesJobs(world.file, after.file, jobs[world.next := Blocked], write)
            && after.process == if write != Written then world.process
                                else Open(jobs[world.next := Blocked], poisoned, None)
  {
  }

  lemma OneAttemptAtATime(world: World, jobs: Jobs, poisoned: bool, attempt: Attempt, write: Write)
    requires world.process == Open(jobs, poisoned, Some(attempt))
    ensures !Enabled(world, Begin(write)) && !Enabled(world, Refuse(write))
  {
  }

  /** A published attempt succeeds and another ends as it should; after a failed write no attempt begins. */
  lemma RecordDoes(world: World, jobs: Jobs, poisoned: bool, id: Id, step: Step, write: Write)
    requires Stands(world, jobs, poisoned, id, step) && (step == Published || step.Recording?)
    ensures Enabled(world, Record(write))
    ensures var after := After(world, Record(write));
            var state := if step == Published then Succeeded else step.state;
            && after.next == world.next && DirectoriesStay(world, after)
            && WritesJobs(world.file, after.file, jobs[id := state], write)
            && after.process == if write == Written then Open(jobs[id := state], poisoned, None)
                                else Open(jobs, true, None)
  {
  }

  /** Only finished jobs that have not succeeded may be dropped. */
  lemma RewriteDoes(world: World, jobs: Jobs, poisoned: bool, active: Option<Attempt>, dropped: set<Id>, write: Write)
    requires world.process == Open(jobs, poisoned, active)
    ensures Enabled(world, Rewrite(dropped, write))
            <==> forall id :: id in dropped && id in jobs ==> jobs[id] in {Failed, Cancelled, Blocked}
    ensures Enabled(world, Rewrite(dropped, write)) ==>
              var after := After(world, Rewrite(dropped, write));
              && after.next == world.next && DirectoriesStay(world, after)
              && WritesJobs(world.file, after.file, jobs - dropped, write)
              && after.process == if write == Written then Open(jobs - dropped, poisoned, active) else world.process
  {
  }

  // ----- the workspace

  /**
   The journal of an attempt may be seen, survive a crash,
   both or neither, until it is removed and that is synced.
  */
  lemma WorkspaceDoes(world: World, jobs: Jobs, poisoned: bool, id: Id, seen: bool, synced: bool)
    requires Stands(world, jobs, poisoned, id, Acquiring)
    ensures Enabled(world, WriteJournal(seen, synced)) && Enabled(world, RemoveJournal)
    ensures JournalsBecome(world, After(world, WriteJournal(seen, synced)),
                           if seen then world.journals.visible + {id} else world.journals.visible,
                           if synced then world.journals.durable + {id} else world.journals.durable, world.process)
    ensures JournalsBecome(world, After(world, RemoveJournal), world.journals.visible - {id}, world.journals.durable,
                           Open(jobs, poisoned, Some(Attempt(id, JournalRemoved))))
  {
  }

  /** A failed sync of the removed journal makes the attempt fail, and no other begins before reopening. */
  lemma SyncJournalsDoes(world: World, jobs: Jobs, poisoned: bool, id: Id)
    requires Stands(world, jobs, poisoned, id, JournalRemoved)
    ensures Enabled(world, SyncJournals(true)) && Enabled(world, SyncJournals(false))
    ensures JournalsBecome(world, After(world, SyncJournals(true)), world.journals.visible, world.journals.visible,
                           Open(jobs, poisoned, Some(Attempt(id, Cleaned))))
    ensures OnlyProcess(world, After(world, SyncJournals(false)),
                        Open(jobs, true, Some(Attempt(id, Failing(false, false)))))
  {
  }

  /** An attempt may fail before its journal is gone, or after, when there is nothing left to clean up. */
  lemma FailDoes(world: World, jobs: Jobs, poisoned: bool, id: Id, step: Step, cancelled: bool)
    requires Stands(world, jobs, poisoned, id, step)
    ensures Enabled(world, Fail(cancelled)) <==> step == Acquiring || step == Cleaned
    ensures step == Acquiring || step == Cleaned ==>
              OnlyProcess(world, After(world, Fail(cancelled)),
                          Open(jobs, poisoned, Some(Attempt(id, Failing(cancelled, step == Cleaned)))))
  {
  }

  /**
   A failing attempt ends cancelled or failed. If its workspace cannot be cleaned up it ends failed,
   and no other begins.
  */
  lemma CleanUpDoes(world: World, jobs: Jobs, poisoned: bool, id: Id, cancelled: bool, cleaned: bool, ok: bool)
    requires Stands(world, jobs, poisoned, id, Failing(cancelled, cleaned))
    ensures Enabled(world, CleanUp(ok))
    ensures var after, state := After(world, CleanUp(ok)), if cancelled then Cancelled else Failed;
            if cleaned then OnlyProcess(world, after, Open(jobs, poisoned, Some(Attempt(id, Recording(state)))))
            else if ok then
              JournalsBecome(world, after, world.journals.visible - {id}, world.journals.visible - {id},
                             Open(jobs, poisoned, Some(Attempt(id, Recording(state)))))
            else OnlyProcess(world, after, Open(jobs, true, Some(Attempt(id, Recording(Failed)))))
  {
  }

  // ----- publication

  /** Once the journal is gone for good, the snapshot is renamed into the catalogue, and that is synced. */
  lemma RenameDoes(world: World, jobs: Jobs, poisoned: bool, id: Id, step: Step)
    requires Stands(world, jobs, poisoned, id, step)
    ensures Enabled(world, Rename) <==> step == Cleaned
    ensures step == Cleaned ==>
              CatalogueBecomes(world, After(world, Rename), world.catalogue.visible + {id}, world.catalogue.durable,
                               Open(jobs, poisoned, Some(Attempt(id, Renamed))))
  {
  }

  /** A sync that fails may still have reached the disk. */
  lemma SyncCatalogueDoes(world: World, jobs: Jobs, poisoned: bool, id: Id, ok: bool, reached: bool)
    requires Stands(world, jobs, poisoned, id, Renamed)
    ensures Enabled(world, SyncCatalogue(ok, reached))
    ensures CatalogueBecomes(world, After(world, SyncCatalogue(ok, reached)), world.catalogue.visible,
                             if ok || reached then world.catalogue.visible else world.catalogue.durable,
                             Open(jobs, poisoned, Some(Attempt(id, if ok then Published else SyncFailed))))
  {
  }

  /** After a failed sync the rename is taken back and that is synced; if either fails, only reopening can tell. */
  lemma TakingBackDoes(world: World, jobs: Jobs, poisoned: bool, id: Id)
    requires Stands(world, jobs, poisoned, id, SyncFailed)
    ensures Enabled(world, TakeBack) && Enabled(world, GiveUp)
    ensures CatalogueBecomes(world, After(world, TakeBack), world.catalogue.visible - {id}, world.catalogue.durable,
                             Open(jobs, poisoned, Some(Attempt(id, TakenBack))))
    ensures OnlyProcess(world, After(world, GiveUp), Open(jobs, true, None))
  {
  }

  lemma SyncTakenBackDoes(world: World, jobs: Jobs, poisoned: bool, id: Id, ok: bool, reached: bool, cancelled: bool)
    requires Stands(world, jobs, poisoned, id, TakenBack)
    ensures Enabled(world, SyncTakenBack(ok, reached, cancelled))
    ensures CatalogueBecomes(world, After(world, SyncTakenBack(ok, reached, cancelled)), world.catalogue.visible,
                             if ok || reached then world.catalogue.visible else world.catalogue.durable,
                             if ok then Open(jobs, poisoned, Some(Attempt(id, Failing(cancelled, true))))
                             else Open(jobs, true, None))
  {
  }

  // ----- stopping and reopening

  /** A crash leaves one of the contents the disk may have; a stop leaves what is seen and what would survive. */
  lemma StopsDo(world: World, catalogue: set<Id>, journals: set<Id>, jobs: Jobs)
    ensures world.process.Open? ==> Enabled(world, Exit) && OnlyProcess(world, After(world, Exit), Closed)
    ensures Enabled(world, Crash(catalogue, journals, jobs)) <==>
            && jobs in world.file.left
            && world.catalogue.visible * world.catalogue.durable <= catalogue
                 <= world.catalogue.visible + world.catalogue.durable
            && world.journals.visible * world.journals.durable <= journals
                 <= world.journals.visible + world.journals.durable
    ensures Enabled(world, Crash(catalogue, journals, jobs)) ==>
              var after := After(world, Crash(catalogue, journals, jobs));
              && after.next == world.next && after.file.visible == jobs && after.file.left == {jobs}
              && after.journals.visible == after.journals.durable == journals
              && after.catalogue.visible == after.catalogue.durable == catalogue && after.process == Closed
  {
  }

  /** Running jobs end as their snapshots are seen; all others stay as they are. */
  ghost predicate Settles(before: Jobs, after: Jobs, catalogue: set<Id>) {
    && after.Keys == before.Keys
    && forall id :: id in before ==>
         after[id] == if before[id] != Running then before[id] else if id in catalogue then Succeeded else Failed
  }

  /** Reopening settles what was running, removes the journals it sees, and opens only if it could write. */
  lemma ReopenDoes(world: World, write: Write) returns (jobs: Jobs)
    requires Enabled(world, Reopen(write))
    ensures world.process == Closed && Settles(world.file.visible, jobs, world.catalogue.visible)
    ensures var after := After(world, Reopen(write));
            && after.next == world.next && after.catalogue == world.catalogue
            && WritesJobs(world.file, after.file, jobs, write)
            && (world.journals.visible == {} ==> after.journals == world.journals)
            && (world.journals.visible != {} ==> after.journals.visible == after.journals.durable == {})
            && after.process == if write == Written then Open(jobs, false, None) else Closed
  {
    jobs := Recovered(world.file.visible, world.catalogue.visible);
  }

  /** Reopening may fail at any journal: some are gone, and either nothing was synced or what was seen after some. */
  lemma ReopenFailsDoes(world: World, left: set<Id>, kept: set<Id>)
    ensures Enabled(world, ReopenFails(left, kept)) <==>
            && world.process == Closed && left <= world.journals.visible
            && (kept == world.journals.durable || (left <= kept && kept <= world.journals.visible))
    ensures Enabled(world, ReopenFails(left, kept)) ==>
              JournalsBecome(world, After(world, ReopenFails(left, kept)), left, kept, Closed)
  {
  }
}
