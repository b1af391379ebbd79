/**
 Acquisition jobs and the snapshots they publish, as steps between which the program or the machine may
 stop. Every attempt has a journal while its workspace exists, and publishes by renaming a directory.
*/
module Acquisition {
  import opened Wrappers

  type Id = nat
  datatype JobState = Running | Succeeded | Failed | Cancelled | Blocked
  type Jobs = map<Id, JobState>

  /** A directory as programs see it, and as it would be found after a power cut. */
  datatype Directory = Directory(visible: set<Id>, durable: set<Id>)
  /** The jobs file as programs see it, and every content that a power cut may leave. */
  datatype JobsFile = JobsFile(visible: Jobs, left: set<Jobs>)

  /** How far the run of an attempt has come. */
  datatype Step =
    | Acquiring          // up to the staged snapshot
    | JournalRemoved     // the journal is gone, its directory not yet synced
    | Cleaned            // ... and synced: the snapshot may be published
    | Renamed            // published, the catalogue not yet synced
    | SyncFailed         // ... and the sync failed
    | TakenBack          // ... and the rename was undone, not yet synced
    | Published
    | Failing(cancelled: bool, cleaned: bool)
    | Recording(state: JobState)

  datatype Attempt = Attempt(job: Id, step: Step)
  datatype Process = Closed | Open(jobs: Jobs, poisoned: bool, active: Option<Attempt>)
  datatype World = World(next: Id, file: JobsFile, journals: Directory, catalogue: Directory, process: Process)

  const Empty := World(0, JobsFile(map[], {map[]}), Directory({}, {}), Directory({}, {}), Closed)

  /** Writing the jobs file: done, not done, or renamed into place without being synced. */
  datatype Write = Written | Lost | Torn

  function Stored(file: JobsFile, jobs: Jobs, write: Write): JobsFile {
    match write
    case Written => JobsFile(jobs, {jobs})
    case Lost => file
    case Torn => JobsFile(jobs, file.left + {jobs})
  }

  // ----- the steps

  datatype Event =
    | Begin(write: Write)
    | Refuse(write: Write)
    | WriteJournal(seen: bool, synced: bool)
    | Fail(cancelled: bool)
    | RemoveJournal
    | SyncJournals(ok: bool)
    | Rename
    | SyncCatalogue(ok: bool, reached: bool)
    | TakeBack
    | SyncTakenBack(ok: bool, reached: bool, cancelled: bool)
    | GiveUp
    | CleanUp(ok: bool)
    | Record(write: Write)
    | Rewrite(dropped: set<Id>, write: Write)
    | Exit
    | Crash(catalogue: set<Id>, journals: set<Id>, jobs: Jobs)
    | Reopen(write: Write)
    | ReopenFails(left: set<Id>, kept: set<Id>)

  predicate At(world: World, step: Step) {
    world.process.Open? && world.process.active.Some? && world.process.active.value.step == step
  }

  function Moved(process: Process, step: Step): Process
    requires process.Open? && process.active.Some?
  {
    Open(process.jobs, process.poisoned, Some(Attempt(process.active.value.job, step)))
  }

  function Poisoned(process: Process): Process
    requires process.Open?
  {
    Open(process.jobs, true, process.active)
  }

  function WithProcess(world: World, process: Process): World {
    World(world.next, world.file, world.journals, world.catalogue, process)
  }

  /** The state a crash may leave a directory in. */
  predicate MayRemain(directory: Directory, left: set<Id>) {
    directory.visible * directory.durable <= left <= directory.visible + directory.durable
  }

  predicate Finished(state: JobState) { state == Failed || state == Cancelled || state == Blocked }

  predicate Enabled(world: World, event: Event) {
    var process := world.process;
    match event
    case Begin(_) => process.Open? && process.active == None && !process.poisoned
    case Refuse(_) => process.Open? && process.active == None
    case WriteJournal(_, _) => At(world, Acquiring)
    case Fail(_) => At(world, Acquiring) || At(world, Cleaned)
    case RemoveJournal => At(world, Acquiring)
    case SyncJournals(_) => At(world, JournalRemoved)
    case Rename => At(world, Cleaned)
    case SyncCatalogue(_, _) => At(world, Renamed)
    case TakeBack => At(world, SyncFailed)
    case SyncTakenBack(_, _, _) => At(world, TakenBack)
    case GiveUp => At(world, SyncFailed)
    case CleanUp(_) => process.Open? && process.active.Some? && process.active.value.step.Failing?
    case Record(_) => process.Open? && process.active.Some?
      && (process.active.value.step.Recording? || At(world, Published))
    case Rewrite(dropped, _) =>
      process.Open? && forall id :: id in dropped && id in process.jobs ==> Finished(process.jobs[id])
    case Exit => process.Open?
    case Crash(catalogue, journals, jobs) =>
      MayRemain(world.catalogue, catalogue) && MayRemain(world.journals, journals) && jobs in world.file.left
    case Reopen(_) => process == Closed
    case ReopenFails(left, kept) =>
      process == Closed && left <= world.journals.visible
        && (kept == world.journals.durable || left <= kept <= world.journals.visible)
  }

  function ActiveJob(world: World): Id
    requires world.process.Open? && world.process.active.Some?
  {
    world.process.active.value.job
  }

  function Admitted(world: World, state: JobState, write: Write): World
    requires world.process.Open?
  {
    var process, id := world.process, world.next;
    var jobs := process.jobs[id := state];
    var file := Stored(world.file, jobs, write);
    if write != Written then World(id + 1, file, world.journals, world.catalogue, process)
    else World(id + 1, file, world.journals, world.catalogue,
               Open(jobs, process.poisoned, if state == Running then Some(Attempt(id, Acquiring)) else process.active))
  }

  /** The attempt ends with its job left running on disk: only reopening can tell what became of it. */
  function GivenUp(world: World, catalogue: Directory): World
    requires world.process.Open?
  {
    World(world.next, world.file, world.journals, catalogue, Open(world.process.jobs, true, None))
  }

  function Recorded(world: World, state: JobState, write: Write): World
    requires world.process.Open? && world.process.active.Some?
  {
    var process := world.process;
    var jobs := process.jobs[ActiveJob(world) := state];
    var file := Stored(world.file, jobs, write);
    World(world.next, file, world.journals, world.catalogue,
          if write == Written then Open(jobs, process.poisoned, None) else Open(process.jobs, true, None))
  }

  function RecoveredState(state: JobState, published: bool): JobState {
    if state != Running then state else if published then Succeeded else Failed
  }

  /** Running jobs become succeeded or failed, as their snapshot is in the catalogue or not. */
  function Recovered(jobs: Jobs, catalogue: set<Id>): (r: Jobs)
    ensures r.Keys == jobs.Keys && forall id :: id in jobs ==> r[id] == RecoveredState(jobs[id], id in catalogue)
  {
    map id | id in jobs :: RecoveredState(jobs[id], id in catalogue)
  }

  /** Reopening removes every journal it sees, syncing after each; it syncs nothing when it sees none. */
  function Swept(journals: Directory): Directory {
    if journals.visible == {} then journals else Directory({}, {})
  }

  function AfterPublication(world: World, event: Event): World
    requires Enabled(world, event)
    requires event.Rename? || event.SyncCatalogue? || event.TakeBack? || event.SyncTakenBack? || event.GiveUp?
  {
    var id, catalogue, process := ActiveJob(world), world.catalogue, world.process;
    match event
    case Rename =>
      World(world.next, world.file, world.journals, Directory(catalogue.visible + {id}, catalogue.durable),
            Moved(process, Renamed))
    case SyncCatalogue(ok, reached) =>
      World(world.next, world.file, world.journals,
            if ok || reached then Directory(catalogue.visible, catalogue.visible) else catalogue,
            Moved(process, if ok then Published else SyncFailed))
    case TakeBack =>
      World(world.next, world.file, world.journals, Directory(catalogue.visible - {id}, catalogue.durable),
            Moved(process, TakenBack))
    case SyncTakenBack(ok, reached, cancelled) =>
      var after := if ok || reached then Directory(catalogue.visible, catalogue.visible) else catalogue;
      if ok then World(world.next, world.file, world.journals, after, Moved(process, Failing(cancelled, true)))
      else GivenUp(world, after)
    case GiveUp => GivenUp(world, catalogue)
  }

  function AfterWorkspace(world: World, event: Event): World
    requires Enabled(world, event)
    requires event.WriteJournal? || event.Fail? || event.RemoveJournal? || event.SyncJournals? || event.CleanUp?
  {
    var id, journals, process := ActiveJob(world), world.journals, world.process;
    match event
    case WriteJournal(seen, synced) =>
      World(world.next, world.file,
            Directory(if seen then journals.visible + {id} else journals.visible,
                      if synced then journals.durable + {id} else journals.durable),
            world.catalogue, process)
    case Fail(cancelled) => WithProcess(world, Moved(process, Failing(cancelled, process.active.value.step == Cleaned)))
    case RemoveJournal =>
      World(world.next, world.file, Directory(journals.visible - {id}, journals.durable), world.catalogue,
            Moved(process, JournalRemoved))
    case SyncJournals(ok) =>
      if ok then World(world.next, world.file, Directory(journals.visible, journals.visible), world.catalogue,
                       Moved(process, Cleaned))
      else WithProcess(world, Poisoned(Moved(process, Failing(false, false))))
    case CleanUp(ok) =>
      var Failing(cancelled, cleaned) := process.active.value.step;
      var state := if cancelled then Cancelled else Failed;
      if cleaned then WithProcess(world, Moved(process, Recording(state)))
      else if ok then
        World(world.next, world.file, Directory(journals.visible - {id}, journals.visible - {id}), world.catalogue,
              Moved(process, Recording(state)))
      else WithProcess(world, Poisoned(Moved(process, Recording(Failed))))
  }

  function After(world: World, event: Event): World
    requires Enabled(world, event)
  {
    var process := world.process;
    match event
    case Begin(write) => Admitted(world, Running, write)
    case Refuse(write) => Admitted(world, Blocked, write)
    case Record(write) => Recorded(world, if At(world, Published) then Succeeded else process.active.value.step.state,
                                   write)
    case Rewrite(dropped, write) =>
      var jobs := process.jobs - dropped;
      World(world.next, Stored(world.file, jobs, write), world.journals, world.catalogue,
            if write == Written then Open(jobs, process.poisoned, process.active) else process)
    case Exit => WithProcess(world, Closed)
    case Crash(catalogue, journals, jobs) =>
      World(world.next, JobsFile(jobs, {jobs}), Directory(journals, journals), Directory(catalogue, catalogue), Closed)
    case Reopen(write) =>
      var jobs := Recovered(world.file.visible, world.catalogue.visible);
      World(world.next, Stored(world.file, jobs, write), Swept(world.journals), world.catalogue,
            if write == Written then Open(jobs, false, None) else Closed)
    case ReopenFails(left, kept) => World(world.next, world.file, Directory(left, kept), world.catalogue, Closed)
    case Rename => AfterPublication(world, event)
    case SyncCatalogue(_, _) => AfterPublication(world, event)
    case TakeBack => AfterPublication(world, event)
    case SyncTakenBack(_, _, _) => AfterPublication(world, event)
    case GiveUp => AfterPublication(world, event)
    case _ => AfterWorkspace(world, event)
  }

  // ----- what every step keeps

  function Entries(directory: Directory): set<Id> { directory.visible + directory.durable }
  predicate Somewhere(directory: Directory, id: Id) { id in Entries(directory) }
  predicate Everywhere(directory: Directory, id: Id) { id in directory.visible && id in directory.durable }

  /** What the jobs file promises about the catalogue. */
  datatype Promise =
    | NoFailedSnapshot   // a job that is unknown, failed, cancelled or blocked has no snapshot
    | NoLostSnapshot     // a succeeded job has its snapshot

  predicate JobAgrees(promise: Promise, jobs: Jobs, catalogue: Directory, id: Id) {
    match promise
    case NoFailedSnapshot => id !in jobs || Finished(jobs[id]) ==> !Somewhere(catalogue, id)
    case NoLostSnapshot => id in jobs && jobs[id] == Succeeded ==> Everywhere(catalogue, id)
  }

  ghost predicate Agrees(promise: Promise, jobs: Jobs, catalogue: Directory) {
    forall id: Id :: JobAgrees(promise, jobs, catalogue, id)
  }

  /** The jobs as the program knows them, and as a crash would leave them. */
  function Known(world: World): set<Jobs> {
    world.file.left + if world.process.Open? then {world.process.jobs} else {}
  }

  /**
   The promise holds of the jobs as the program knows them,
   as the file shows them, and as a crash would leave them.
  */
  ghost predicate Kept(promise: Promise, world: World) {
    forall jobs :: jobs in Known(world) ==> Agrees(promise, jobs, world.catalogue)
  }

  ghost predicate IdsAreOld(world: World) {
    && (forall jobs, id: Id :: jobs in Known(world) && id in jobs ==> id < world.next)
    && (forall id: Id :: id in Entries(world.catalogue) || id in Entries(world.journals) ==> id < world.next)
  }

  /** The journal of a published snapshot is gone for good. */
  predicate JournalsGone(world: World) {
    Entries(world.catalogue) !! Entries(world.journals)
  }

  predicate StepFits(step: Step, id: Id, journals: Directory, catalogue: Directory) {
    match step
    case Acquiring => !Somewhere(catalogue, id)
    case JournalRemoved => !Somewhere(catalogue, id) && id !in journals.visible
    case Cleaned => !Somewhere(catalogue, id) && !Somewhere(journals, id)
    case Renamed => !Somewhere(journals, id)
    case SyncFailed => !Somewhere(journals, id)
    case TakenBack => !Somewhere(journals, id) && id !in catalogue.visible
    case Published => !Somewhere(journals, id) && Everywhere(catalogue, id)
    case Failing(_, _) => !Somewhere(catalogue, id)
    case Recording(state) => !Somewhere(catalogue, id) && Finished(state)
  }

  predicate IsRunning(jobs: Jobs, id: Id) { id in jobs && jobs[id] == Running }

  ghost predicate ActiveFits(world: World) {
    world.process.Open? && world.process.active.Some? ==>
      var Attempt(id, step) := world.process.active.value;
      && (forall jobs :: jobs in Known(world) ==> IsRunning(jobs, id))
      && StepFits(step, id, world.journals, world.catalogue)
      && (step == Renamed ==> id in world.catalogue.visible)
  }

  /**
   What holds in every run, whatever fails: ids are fresh, journals
   of snapshots are gone, and the attempt is where its step says.
  */
  ghost predicate Fits(world: World) {
    world.file.visible in world.file.left && IdsAreOld(world) && JournalsGone(world) && ActiveFits(world)
  }

  ghost predicate Sound(world: World) {
    Fits(world) && Kept(NoFailedSnapshot, world) && Kept(NoLostSnapshot, world)
  }

  /**
   What reopening needs of the catalogue to keep a promise: that nothing that was taken back can return, or
   that nothing that is seen can be lost. A failed sync can break either; a program that merely stops between
   renaming a snapshot and syncing the catalogue breaks the second.
  */
  predicate SettledFor(promise: Promise, catalogue: Directory) {
    match promise
    case NoFailedSnapshot => catalogue.durable <= catalogue.visible
    case NoLostSnapshot => catalogue.visible <= catalogue.durable
  }

  predicate Settled(world: World) { world.catalogue.visible == world.catalogue.durable }

  // ----- the bookkeeping, in every step

  lemma PublicationFits(world: World, event: Event)
    requires Fits(world) && Enabled(world, event)
    requires event.Rename? || event.SyncCatalogue? || event.TakeBack? || event.SyncTakenBack? || event.GiveUp?
    ensures Fits(AfterPublication(world, event))
  {
    assert Known(AfterPublication(world, event)) <= Known(world);
  }

  lemma WorkspaceFits(world: World, event: Event)
    requires Fits(world) && Enabled(world, event)
    requires event.WriteJournal? || event.Fail? || event.RemoveJournal? || event.SyncJournals? || event.CleanUp?
    ensures Fits(AfterWorkspace(world, event))
  {
    assert Known(AfterWorkspace(world, event)) <= Known(world);
  }

  lemma AdmissionFits(world: World, state: JobState, write: Write)
    requires Fits(world) && world.process.Open? && world.process.active == None
    ensures Fits(Admitted(world, state, write))
  {
    assert world.process.jobs in Known(world);
    assert !Somewhere(world.catalogue, world.next) && !Somewhere(world.journals, world.next);
  }

  lemma EveryStepFits(world: World, event: Event)
    requires Fits(world) && Enabled(world, event)
    ensures Fits(After(world, event))
  {
    match event
    case Begin(write) => AdmissionFits(world, Running, write);
    case Refuse(write) => AdmissionFits(world, Blocked, write);
    case Record(_) =>
    case Rewrite(_, _) =>
    case Exit =>
    case Crash(_, _, _) =>
    case Reopen(_) =>
    case ReopenFails(_, _) =>
    case Rename => PublicationFits(world, event);
    case SyncCatalogue(_, _) => PublicationFits(world, event);
    case TakeBack => PublicationFits(world, event);
    case SyncTakenBack(_, _, _) => PublicationFits(world, event);
    case GiveUp => PublicationFits(world, event);
    case _ => WorkspaceFits(world, event);
  }

  // ----- the promises, in every step but reopening

  lemma AdmissionKeeps(promise: Promise, world: World, state: JobState, write: Write)
    requires Fits(world) && Kept(promise, world) && world.process.Open? && (state == Running || state == Blocked)
    ensures Kept(promise, Admitted(world, state, write))
  {
    var jobs := world.process.jobs[world.next := state];
    assert !Somewhere(world.catalogue, world.next);
    assert world.process.jobs in Known(world);
    forall id: Id
      ensures JobAgrees(promise, jobs, world.catalogue, id)
    {
      assert JobAgrees(promise, world.process.jobs, world.catalogue, id);
    }
  }

  lemma RecordKeeps(promise: Promise, world: World, state: JobState, write: Write)
    requires Kept(promise, world) && world.process.Open? && world.process.active.Some?
    requires if state == Succeeded then Everywhere(world.catalogue, ActiveJob(world))
             else Finished(state) && !Somewhere(world.catalogue, ActiveJob(world))
    ensures Kept(promise, Recorded(world, state, write))
  {
    var jobs := world.process.jobs[ActiveJob(world) := state];
    assert world.process.jobs in Known(world);
    forall id: Id
      ensures JobAgrees(promise, jobs, world.catalogue, id)
    {
      assert JobAgrees(promise, world.process.jobs, world.catalogue, id);
    }
  }

  lemma RewriteKeeps(promise: Promise, world: World, dropped: set<Id>, write: Write)
    requires Kept(promise, world) && Enabled(world, Rewrite(dropped, write))
    ensures Kept(promise, After(world, Rewrite(dropped, write)))
  {
    var jobs := world.process.jobs - dropped;
    assert world.process.jobs in Known(world);
    forall id: Id
      ensures JobAgrees(promise, jobs, world.catalogue, id)
    {
      assert JobAgrees(promise, world.process.jobs, world.catalogue, id);
    }
  }

  /** Moving the entry of a running job in or out of the catalogue contradicts no record. */
  lemma RunningMayMove(promise: Promise, jobs: Jobs, before: Directory, after: Directory, id: Id)
    requires Agrees(promise, jobs, before) && IsRunning(jobs, id)
    requires forall other: Id :: other != id ==> (other in after.visible <==> other in before.visible)
    requires after.durable == before.durable
    ensures Agrees(promise, jobs, after)
  {
    forall other: Id
      ensures JobAgrees(promise, jobs, after, other)
    {
      assert JobAgrees(promise, jobs, before, other);
    }
  }

  /** Neither does syncing the catalogue. */
  lemma SyncAgrees(promise: Promise, jobs: Jobs, catalogue: Directory)
    requires Agrees(promise, jobs, catalogue)
    ensures Agrees(promise, jobs, Directory(catalogue.visible, catalogue.visible))
  {
    forall id: Id
      ensures JobAgrees(promise, jobs, Directory(catalogue.visible, catalogue.visible), id)
    {
      assert JobAgrees(promise, jobs, catalogue, id);
    }
  }

  lemma CatalogueMoveKeeps(promise: Promise, world: World, after: Directory)
    requires Fits(world) && Kept(promise, world) && world.process.Open? && world.process.active.Some?
    requires forall other: Id :: other != ActiveJob(world) ==>
               (other in after.visible <==> other in world.catalogue.visible)
    requires after.durable == world.catalogue.durable
    ensures forall jobs :: jobs in Known(world) ==> Agrees(promise, jobs, after)
  {
    forall jobs | jobs in Known(world)
      ensures Agrees(promise, jobs, after)
    {
      RunningMayMove(promise, jobs, world.catalogue, after, ActiveJob(world));
    }
  }

  lemma CatalogueSyncKeeps(promise: Promise, world: World)
    requires Kept(promise, world) && world.process.Open?
    ensures var after := Directory(world.catalogue.visible, world.catalogue.visible);
            forall jobs :: jobs in Known(world) ==> Agrees(promise, jobs, after)
  {
    forall jobs | jobs in Known(world)
      ensures Agrees(promise, jobs, Directory(world.catalogue.visible, world.catalogue.visible))
    {
      SyncAgrees(promise, jobs, world.catalogue);
    }
  }

  lemma PublicationKeeps(promise: Promise, world: World, event: Event)
    requires Fits(world) && Kept(promise, world) && Enabled(world, event)
    requires event.Rename? || event.SyncCatalogue? || event.TakeBack? || event.SyncTakenBack? || event.GiveUp?
    ensures Kept(promise, AfterPublication(world, event))
  {
    var after := AfterPublication(world, event);
    match event
    case Rename => CatalogueMoveKeeps(promise, world, after.catalogue);
    case SyncCatalogue(_, _) => CatalogueSyncKeeps(promise, world);
    case TakeBack => CatalogueMoveKeeps(promise, world, after.catalogue);
    case SyncTakenBack(_, _, _) => CatalogueSyncKeeps(promise, world);
    case GiveUp =>
  }

  lemma CrashKeeps(promise: Promise, world: World, event: Event)
    requires Kept(promise, world) && event.Crash? && Enabled(world, event)
    ensures Kept(promise, After(world, event)) && Settled(After(world, event))
  {
    assert event.jobs in Known(world);
    forall id: Id
      ensures JobAgrees(promise, event.jobs, Directory(event.catalogue, event.catalogue), id)
    {
      assert JobAgrees(promise, event.jobs, world.catalogue, id);
    }
  }

  lemma ReopenKeeps(promise: Promise, world: World, write: Write)
    requires Kept(promise, world) && world.file.visible in world.file.left && world.process == Closed
             && SettledFor(promise, world.catalogue)
    ensures Kept(promise, After(world, Reopen(write)))
  {
    var jobs := Recovered(world.file.visible, world.catalogue.visible);
    assert world.file.visible in Known(world);
    forall id: Id
      ensures JobAgrees(promise, jobs, world.catalogue, id)
    {
      assert JobAgrees(promise, world.file.visible, world.catalogue, id);
    }
  }

  lemma StepKeeps(promise: Promise, world: World, event: Event)
    requires Fits(world) && Kept(promise, world) && Enabled(world, event)
    requires event.Reopen? ==> SettledFor(promise, world.catalogue)
    ensures Kept(promise, After(world, event))
  {
    match event
    case Begin(write) => AdmissionKeeps(promise, world, Running, write);
    case Refuse(write) => AdmissionKeeps(promise, world, Blocked, write);
    case Record(write) =>
      RecordKeeps(promise, world, if At(world, Published) then Succeeded else world.process.active.value.step.state,
                  write);
    case Rewrite(dropped, write) => RewriteKeeps(promise, world, dropped, write);
    case Exit =>
    case Crash(_, _, _) => CrashKeeps(promise, world, event);
    case Reopen(write) => ReopenKeeps(promise, world, write);
    case ReopenFails(_, _) =>
    case Rename => PublicationKeeps(promise, world, event);
    case SyncCatalogue(_, _) => PublicationKeeps(promise, world, event);
    case TakeBack => PublicationKeeps(promise, world, event);
    case SyncTakenBack(_, _, _) => PublicationKeeps(promise, world, event);
    case GiveUp => PublicationKeeps(promise, world, event);
    case _ =>
  }

  /**
   Of all steps only reopening can break a promise, and it
   breaks it exactly when the catalogue is not settled for it.
  */
  lemma ReopenKeepsExactlyWhenSettled(promise: Promise, world: World, write: Write)
    requires Sound(world) && world.process == Closed && write != Lost
    ensures Kept(promise, After(world, Reopen(write))) <==> SettledFor(promise, world.catalogue)
  {
    var after := After(world, Reopen(write));
    if SettledFor(promise, world.catalogue) {
      ReopenKeeps(promise, world, write);
    } else {
      var id :| if promise == NoFailedSnapshot then id in world.catalogue.durable && id !in world.catalogue.visible
                else id in world.catalogue.visible && id !in world.catalogue.durable;
      assert world.file.visible in Known(world) && after.file.visible in Known(after);
      assert JobAgrees(NoFailedSnapshot, world.file.visible, world.catalogue, id);
      assert JobAgrees(NoLostSnapshot, world.file.visible, world.catalogue, id);
      assert after.file.visible[id] == if promise == NoFailedSnapshot then Failed else Succeeded;
      assert !JobAgrees(promise, after.file.visible, after.catalogue, id);
    }
  }

  lemma ReopenIsSoundExactlyWhenSettled(world: World, write: Write)
    requires Sound(world) && world.process == Closed && write != Lost
    ensures Sound(After(world, Reopen(write))) <==> Settled(world)
  {
    EveryStepFits(world, Reopen(write));
    ReopenKeepsExactlyWhenSettled(NoFailedSnapshot, world, write);
    ReopenKeepsExactlyWhenSettled(NoLostSnapshot, world, write);
  }

  // ----- whole runs

  /** The worlds of a run, each a step after the one before. */
  ghost predicate Run(worlds: seq<World>, events: seq<Event>) {
    && |worlds| == |events| + 1 && worlds[0] == Empty
    && forall n :: 0 <= n < |events| ==> Enabled(worlds[n], events[n]) && worlds[n + 1] == After(worlds[n], events[n])
  }

  /** Whenever the program is reopened, the catalogue is settled for the promise. */
  ghost predicate ReopensSettledFor(promise: Promise, worlds: seq<World>, events: seq<Event>) {
    forall n :: 0 <= n < |events| && n < |worlds| && events[n].Reopen? ==> SettledFor(promise, worlds[n].catalogue)
  }

  /** In every run, without any condition: the journal of a published snapshot is gone, for good. */
  lemma {:induction false} EveryRunFits(worlds: seq<World>, events: seq<Event>, n: nat)
    requires Run(worlds, events) && n < |worlds|
    ensures Fits(worlds[n])
  {
    if n > 0 {
      EveryRunFits(worlds, events, n - 1);
      EveryStepFits(worlds[n - 1], events[n - 1]);
      assert worlds[n - 1 + 1] == After(worlds[n - 1], events[n - 1]);
    }
  }

  lemma {:induction false} EveryRunKeeps(promise: Promise, worlds: seq<World>, events: seq<Event>, n: nat)
    requires Run(worlds, events) && ReopensSettledFor(promise, worlds, events) && n < |worlds|
    ensures Kept(promise, worlds[n])
  {
    if n > 0 {
      EveryRunKeeps(promise, worlds, events, n - 1);
      EveryRunFits(worlds, events, n - 1);
      StepKeeps(promise, worlds[n - 1], events[n - 1]);
      assert worlds[n - 1 + 1] == After(worlds[n - 1], events[n - 1]);
    }
  }

  lemma {:induction false} NothingReturnsUnlessTakenBack(worlds: seq<World>, events: seq<Event>, n: nat)
    requires Run(worlds, events) && n < |worlds|
    requires forall k :: 0 <= k < |events| ==> !events[k].TakeBack?
    ensures SettledFor(NoFailedSnapshot, worlds[n].catalogue) && !At(worlds[n], TakenBack)
  {
    if n > 0 {
      NothingReturnsUnlessTakenBack(worlds, events, n - 1);
      assert worlds[n - 1 + 1] == After(worlds[n - 1], events[n - 1]);
    }
  }

  /**
   As long as no publication is taken back, no job that is recorded failed, cancelled or blocked has a snapshot,
   in any run, however the program stops and wherever it reopens.
  */
  lemma FailedJobsHaveNoSnapshot(worlds: seq<World>, events: seq<Event>, n: nat)
    requires Run(worlds, events) && n < |worlds|
    requires forall k :: 0 <= k < |events| ==> !events[k].TakeBack?
    ensures Kept(NoFailedSnapshot, worlds[n])
  {
    forall k | 0 <= k < |events| && events[k].Reopen?
      ensures SettledFor(NoFailedSnapshot, worlds[k].catalogue)
    {
      NothingReturnsUnlessTakenBack(worlds, events, k);
    }
    EveryRunKeeps(NoFailedSnapshot, worlds, events, n);
  }

  /**
   A job left running reopens as succeeded exactly when its snapshot is seen, and no job stays running. The
   record is right for every crash to come exactly when the snapshot is both seen and synced or neither.
  */
  lemma ReopeningDecides(worlds: seq<World>, events: seq<Event>, n: nat, id: Id)
    requires Run(worlds, events) && n < |events|
    requires events[n] == Reopen(Written) && id in worlds[n].file.visible
    ensures var before, after := worlds[n], worlds[n + 1];
            && after.process.Open? && id in after.process.jobs && after.file.left == {after.process.jobs}
            && after.process.jobs[id] != Running
            && (before.file.visible[id] == Running ==>
                  && (after.process.jobs[id] == Succeeded <==> id in after.catalogue.visible)
                  && (after.process.jobs[id] == Failed <==> id !in after.catalogue.visible)
                  && ((forall promise: Promise :: JobAgrees(promise, after.process.jobs, after.catalogue, id))
                      <==> (id in before.catalogue.visible <==> id in before.catalogue.durable)))
  {
    assert worlds[n + 1] == After(worlds[n], events[n]);
    ghost var jobs, catalogue := worlds[n + 1].process.jobs, worlds[n + 1].catalogue;
    if forall promise: Promise :: JobAgrees(promise, jobs, catalogue, id) {
      assert JobAgrees(NoFailedSnapshot, jobs, catalogue, id) && JobAgrees(NoLostSnapshot, jobs, catalogue, id);
    }
  }

  // ----- both conditions are needed

  function Plain(visible: set<Id>, durable: set<Id>, process: Process): World {
    World(1, JobsFile(map[0 := Running], {map[0 := Running]}), Directory({}, {}), Directory(visible, durable), process)
  }

  function Working(step: Step): Process { Open(map[0 := Running], false, Some(Attempt(0, step))) }

  function EmptyOpen(): World {
    World(0, JobsFile(map[], {map[]}), Directory({}, {}), Directory({}, {}), Open(map[], false, None))
  }

  function Told(state: JobState, visible: set<Id>, durable: set<Id>, process: Process): World {
    World(1, JobsFile(map[0 := state], {map[0 := state]}), Directory({}, {}), Directory(visible, durable), process)
  }

  lemma PublicationSteps()
    ensures Enabled(Empty, Reopen(Written)) && After(Empty, Reopen(Written)) == EmptyOpen()
    ensures Enabled(EmptyOpen(), Begin(Written))
            && After(EmptyOpen(), Begin(Written)) == Plain({}, {}, Working(Acquiring))
    ensures After(Plain({}, {}, Working(Acquiring)), RemoveJournal) == Plain({}, {}, Working(JournalRemoved))
    ensures After(Plain({}, {}, Working(JournalRemoved)), SyncJournals(true)) == Plain({}, {}, Working(Cleaned))
    ensures After(Plain({}, {}, Working(Cleaned)), Rename) == Plain({0}, {}, Working(Renamed))
  {
    assert Directory({} - {0}, {}) == Directory({}, {});
    assert Directory({} + {0}, {}) == Directory({0}, {});
  }

  lemma TakingBackGoesWrong()
    ensures After(Plain({0}, {}, Working(Renamed)), SyncCatalogue(false, true)) == Plain({0}, {0}, Working(SyncFailed))
    ensures After(Plain({0}, {0}, Working(SyncFailed)), TakeBack) == Plain({}, {0}, Working(TakenBack))
    ensures After(Plain({}, {0}, Working(TakenBack)), SyncTakenBack(false, false, false))
            == Plain({}, {0}, Open(map[0 := Running], true, None))
    ensures After(Plain({}, {0}, Open(map[0 := Running], true, None)), Exit) == Plain({}, {0}, Closed)
  {
    assert {0} - {0} == {};
  }

  lemma ReopeningGoesWrong(state: JobState, visible: set<Id>, durable: set<Id>)
    requires (visible == {} && durable == {0} && state == Failed)
             || (visible == {0} && durable == {} && state == Succeeded)
    ensures After(Plain(visible, durable, Closed), Reopen(Written))
            == Told(state, visible, durable, Open(map[0 := state], false, None))
    ensures var world, crash := Told(state, visible, durable, Open(map[0 := state], false, None)),
                Crash(durable, {}, map[0 := state]);
            Enabled(world, crash) && After(world, crash) == Told(state, durable, durable, Closed)
  {
    assert Recovered(map[0 := Running], visible) == map[0 := state];
  }

  lemma Extended(worlds: seq<World>, events: seq<Event>, event: Event, next: World)
    returns (longer: seq<World>, steps: seq<Event>)
    requires Run(worlds, events) && Enabled(worlds[|events|], event) && After(worlds[|events|], event) == next
    ensures Run(longer, steps) && longer[|steps|] == next && steps == events + [event]
  {
    longer, steps := worlds + [next], events + [event];
  }

  ghost predicate NothingFails(events: seq<Event>) {
    forall event :: event in events ==>
      !event.TakeBack? && (event.SyncCatalogue? ==> event.ok) && (event.SyncJournals? ==> event.ok)
  }

  lemma Admission() returns (worlds: seq<World>, events: seq<Event>)
    ensures Run(worlds, events) && worlds[|events|] == Plain({}, {}, Working(Acquiring)) && NothingFails(events)
  {
    PublicationSteps();
    worlds, events := [Empty], [];
    worlds, events := Extended(worlds, events, Reopen(Written), EmptyOpen());
    worlds, events := Extended(worlds, events, Begin(Written), Plain({}, {}, Working(Acquiring)));
  }

  lemma Publication() returns (worlds: seq<World>, events: seq<Event>)
    ensures Run(worlds, events) && worlds[|events|] == Plain({0}, {}, Working(Renamed)) && NothingFails(events)
  {
    worlds, events := Admission();
    PublicationSteps();
    worlds, events := Extended(worlds, events, RemoveJournal, Plain({}, {}, Working(JournalRemoved)));
    worlds, events := Extended(worlds, events, SyncJournals(true), Plain({}, {}, Working(Cleaned)));
    worlds, events := Extended(worlds, events, Rename, Plain({0}, {}, Working(Renamed)));
  }

  lemma UncertainPublication() returns (worlds: seq<World>, events: seq<Event>)
    ensures Run(worlds, events) && worlds[|events|] == Plain({}, {0}, Closed)
  {
    worlds, events := Publication();
    TakingBackGoesWrong();
    worlds, events := Extended(worlds, events, SyncCatalogue(false, true), Plain({0}, {0}, Working(SyncFailed)));
    worlds, events := Extended(worlds, events, TakeBack, Plain({}, {0}, Working(TakenBack)));
    worlds, events := Extended(worlds, events, SyncTakenBack(false, false, false),
                               Plain({}, {0}, Open(map[0 := Running], true, None)));
    worlds, events := Extended(worlds, events, Exit, Plain({}, {0}, Closed));
  }

  /** Reopened, and stopped by a crash after that: the run goes on to a record that the catalogue contradicts. */
  lemma ReopenedAndCrashed(worlds: seq<World>, events: seq<Event>, state: JobState, visible: set<Id>, durable: set<Id>)
    returns (longer: seq<World>, steps: seq<Event>)
    requires Run(worlds, events) && worlds[|events|] == Plain(visible, durable, Closed)
    requires (visible == {} && durable == {0} && state == Failed)
             || (visible == {0} && durable == {} && state == Succeeded)
    ensures Run(longer, steps) && longer[|steps|] == Told(state, durable, durable, Closed)
    ensures steps == events + [Reopen(Written), Crash(durable, {}, map[0 := state])]
  {
    ReopeningGoesWrong(state, visible, durable);
    longer, steps := Extended(worlds, events, Reopen(Written),
                              Told(state, visible, durable, Open(map[0 := state], false, None)));
    longer, steps := Extended(longer, steps, Crash(durable, {}, map[0 := state]),
                              Told(state, durable, durable, Closed));
    assert steps == events + [Reopen(Written), Crash(durable, {}, map[0 := state])];
  }

  /**
   The catalogue sync reaches the disk but reports failure, the rename is undone and its sync fails as
   well; the program is stopped and reopened without a crash in between, and records the job as failed.
   Then a crash brings the snapshot back.
  */
  lemma TakenBackSnapshotCanReturn() returns (worlds: seq<World>, events: seq<Event>)
    ensures Run(worlds, events)
    ensures var last := worlds[|events|];
            last.file.left == {map[0 := Failed]} && Everywhere(last.catalogue, 0)
  {
    worlds, events := UncertainPublication();
    worlds, events := ReopenedAndCrashed(worlds, events, Failed, {}, {0});
  }

  /**
   The program stops between renaming the snapshot and syncing the catalogue; no sync fails. It is reopened
   without a crash in between, and records the job as succeeded. Then a crash takes the snapshot away.
  */
  lemma StoppedPublicationCanBeLost() returns (worlds: seq<World>, events: seq<Event>)
    ensures Run(worlds, events) && NothingFails(events)
    ensures var last := worlds[|events|];
            last.file.left == {map[0 := Succeeded]} && !Somewhere(last.catalogue, 0)
  {
    worlds, events := Publication();
    assert After(Plain({0}, {}, Working(Renamed)), Exit) == Plain({0}, {}, Closed);
    worlds, events := Extended(worlds, events, Exit, Plain({0}, {}, Closed));
    worlds, events := ReopenedAndCrashed(worlds, events, Succeeded, {0}, {});
  }
}
