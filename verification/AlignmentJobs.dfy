/**
 Alignment jobs: requested, confirmed, run, cancelled and recovered over a state file, with one worker at
 a time and a project library that keeps what is published.
*/
module AlignmentJobs {
  import opened Wrappers
  import opened Sequences

  type Name = string
  /** A recipe is known by its hash, and so is the alignment made from it. */
  type Key = string

  datatype State = AwaitingConfirmation | Queued | Running | Succeeded | Retryable | Cancelled | BlockedJob
  datatype Job = Job(id: Name, key: Key, runtime: Name, state: State, circuitOpen: bool)

  function JobId(job: Job): Name { job.id }
  function JobKey(job: Job): Key { job.key }
  function JobIds(jobs: seq<Job>): seq<Name> { Map(JobId, jobs) }
  function JobKeys(jobs: seq<Job>): seq<Key> { Map(JobKey, jobs) }

  datatype Kind = Storage | Worker | Cleanup | Integrity
  /** A run in flight: working, its alignment stored in the library but not yet in the job, or failing. */
  datatype Flight = Working | Stored | Failing(kind: Kind)

  datatype Process = Closed | Open(flight: Option<(Name, Flight)>)

  /**
   The state file as programs see it, which while open is also the memory, and every file that a crash may
   leave: the last one synced and those renamed into place since.
  */
  datatype World = World(jobs: seq<Job>, left: set<seq<Job>>, library: set<Key>, process: Process)

  const Empty := World([], {[]}, {}, Closed)

  /** Replacing the state file: done, failed before, or renamed into place without being synced. */
  datatype Write = Written | Lost | Torn

  function Persisted(world: World, jobs: seq<Job>, write: Write): World {
    match write
    case Written => World(jobs, {jobs}, world.library, world.process)
    case Lost => world
    case Torn => World(jobs, world.left + {jobs}, world.library, world.process)
  }

  function InFlight(world: World, flight: Option<(Name, Flight)>): World {
    World(world.jobs, world.left, world.library, Open(flight))
  }

  function InState(job: Job, state: State): Job { Job(job.id, job.key, job.runtime, state, job.circuitOpen) }

  // ----- operations

  predicate CircuitOpen(jobs: seq<Job>, runtime: Name) {
    exists i :: 0 <= i < |jobs| && jobs[i].circuitOpen && jobs[i].runtime == runtime
  }

  function NewJob(jobs: seq<Job>, job: Job): Job {
    InState(job, if job.state == BlockedJob || CircuitOpen(jobs, job.runtime) then BlockedJob else Queued)
  }

  function Requested(world: World, job: Job, write: Write): World {
    if job.key in JobKeys(world.jobs) || |world.jobs| >= 1000 then world
    else Persisted(world, world.jobs + [NewJob(world.jobs, job)], write)
  }

  predicate Flying(world: World, id: Name) {
    world.process.Open? && world.process.flight.Some? && world.process.flight.value.0 == id
  }

  function Confirmed(world: World, id: Name, otherReasons: bool, write: Write): World {
    var i := Find(JobIds(world.jobs), id);
    if i < 0 || Flying(world, id) || world.jobs[i].state == Running || world.jobs[i].state == Succeeded then world
    else
      var job := world.jobs[i];
      var state := if otherReasons || CircuitOpen(world.jobs, job.runtime) then BlockedJob else Queued;
      Persisted(world, world.jobs[i := InState(job, state)], write)
  }

  function StateInterrupted(state: State): State {
    if state == Running then Retryable else if state == Queued then AwaitingConfirmation else state
  }

  function AllInterrupted(jobs: seq<Job>): (r: seq<Job>)
    ensures |r| == |jobs| && forall i :: 0 <= i < |r| ==> r[i] == InState(jobs[i], StateInterrupted(jobs[i].state))
  {
    seq(|jobs|, i requires 0 <= i < |jobs| => InState(jobs[i], StateInterrupted(jobs[i].state)))
  }

  function CancelledJob(world: World, id: Name, write: Write): World {
    var i := Find(JobIds(world.jobs), id);
    if i < 0 || world.jobs[i].state == Succeeded || world.jobs[i].state == Cancelled then world
    else Persisted(world, world.jobs[i := InState(world.jobs[i], Cancelled)], write)
  }

  predicate SomeRunning(jobs: seq<Job>) { exists i :: 0 <= i < |jobs| && jobs[i].state == Running }

  predicate Runnable(world: World, id: Name) {
    var i := Find(JobIds(world.jobs), id);
    i >= 0 && world.jobs[i].state == Queued && world.process == Open(None) && !SomeRunning(world.jobs)
  }

  /** A job whose alignment is already published succeeds at once; the worker is called only for the others. */
  function RunStarted(world: World, id: Name, otherReasons: bool, write: Write): World {
    if !Runnable(world, id) then world
    else
      var i := Find(JobIds(world.jobs), id);
      var job := world.jobs[i];
      if job.key in world.library then Persisted(world, world.jobs[i := InState(job, Succeeded)], write)
      else if otherReasons || CircuitOpen(world.jobs, job.runtime) then
        Persisted(world, world.jobs[i := InState(job, BlockedJob)], write)
      else
        var after := Persisted(world, world.jobs[i := InState(job, Running)], write);
        if write == Written then InFlight(after, Some((id, Working))) else after
  }

  predicate CallsWorker(world: World, event: Event) {
    event.Run? && Enabled(world, event) && After(world, event).process != world.process
  }

  /**
   Publication goes ahead only if the job is still running; the library stores by the recipe's key. It may
   store and still throw, when cleaning up after the new revision fails.
  */
  function StoredInLibrary(world: World, id: Name, throws: bool): World
    requires Flying(world, id)
  {
    var i := Find(JobIds(world.jobs), id);
    if i < 0 || world.jobs[i].state != Running then InFlight(world, Some((id, Failing(Storage))))
    else
      World(world.jobs, world.left, world.library + {world.jobs[i].key},
            Open(Some((id, if throws then Failing(Storage) else Stored))))
  }

  /** A lost write ends in the failure handler; a torn one is already in memory. */
  function SuccessRecorded(world: World, id: Name, write: Write): World
    requires Flying(world, id)
  {
    var i := Find(JobIds(world.jobs), id);
    if i < 0 then InFlight(world, None)
    else if write == Lost then InFlight(world, Some((id, Failing(Storage))))
    else InFlight(Persisted(world, world.jobs[i := InState(world.jobs[i], Succeeded)], write), None)
  }

  function FailureHandled(world: World, id: Name, kind: Kind, opens: bool, write: Write): World {
    var i := Find(JobIds(world.jobs), id);
    if i < 0 || (world.jobs[i].state != Running && kind != Cleanup) then InFlight(world, None)
    else
      var job := world.jobs[i];
      var state := if job.state == Cancelled then Cancelled else if opens then BlockedJob else Retryable;
      InFlight(Persisted(world, world.jobs[i := Job(job.id, job.key, job.runtime, state, opens)], write), None)
  }

  function RecoveredJob(job: Job): Job {
    if job.circuitOpen then Job(job.id, job.key, job.runtime, AwaitingConfirmation, false)
    else if job.state == Running then InState(job, Retryable)
    else if job.state == Queued then InState(job, AwaitingConfirmation)
    else job
  }

  function Recovered(jobs: seq<Job>): (r: seq<Job>)
    ensures |r| == |jobs| && forall i :: 0 <= i < |r| ==> r[i] == RecoveredJob(jobs[i])
  {
    seq(|jobs|, i requires 0 <= i < |jobs| => RecoveredJob(jobs[i]))
  }

  function Reopened(world: World, write: Write): World {
    var recovered := Recovered(world.jobs);
    if forall i :: 0 <= i < |recovered| ==> recovered[i].state == world.jobs[i].state then InFlight(world, None)
    else
      var after := Persisted(world, recovered, write);
      if write == Written then InFlight(after, None) else after
  }

  datatype Event =
    | Request(job: Job, write: Write)
    | Confirm(id: Name, otherReasons: bool, write: Write)
    | Interrupt(write: Write)
    | Cancel(id: Name, write: Write)
    | Run(id: Name, otherReasons: bool, write: Write)
    | StoreInLibrary(throws: bool)
    | RecordSuccess(write: Write)
    | Fail(kind: Kind)
    | HandleFailure(opens: bool, write: Write)
    | Exit
    | Crash(kept: seq<Job>)
    | Reopen(write: Write)

  /** Storing an alignment and recording it is one serialized operation: only a stop comes between. */
  predicate Serves(world: World) {
    world.process.Open? && (world.process.flight == None || world.process.flight.value.1 != Stored)
  }

  predicate OpensCircuit(kind: Kind, opens: bool) {
    (kind == Storage ==> !opens) && (kind == Cleanup || kind == Integrity ==> opens)
  }

  predicate Enabled(world: World, event: Event) {
    var process := world.process;
    match event
    case Request(job, _) => Serves(world) && job.id !in JobIds(world.jobs) && !job.circuitOpen
    case Confirm(_, _, _) => Serves(world)
    case Interrupt(_) => Serves(world)
    case Cancel(_, _) => Serves(world)
    case Run(_, _, _) => Serves(world)
    case StoreInLibrary(_) => process.Open? && process.flight.Some? && process.flight.value.1 == Working
    case RecordSuccess(_) => process.Open? && process.flight.Some? && process.flight.value.1 == Stored
    case Fail(_) => process.Open? && process.flight.Some? && process.flight.value.1 == Working
    case HandleFailure(opens, _) =>
      process.Open? && process.flight.Some? && process.flight.value.1.Failing?
        && OpensCircuit(process.flight.value.1.kind, opens)
    case Exit => process.Open?
    case Crash(kept) => kept in world.left
    case Reopen(_) => process == Closed
  }

  function After(world: World, event: Event): World
    requires Enabled(world, event)
  {
    match event
    case Request(job, write) => Requested(world, job, write)
    case Confirm(id, otherReasons, write) => Confirmed(world, id, otherReasons, write)
    case Interrupt(write) => Persisted(world, AllInterrupted(world.jobs), write)
    case Cancel(id, write) => CancelledJob(world, id, write)
    case Run(id, otherReasons, write) => RunStarted(world, id, otherReasons, write)
    case StoreInLibrary(throws) => StoredInLibrary(world, world.process.flight.value.0, throws)
    case RecordSuccess(write) => SuccessRecorded(world, world.process.flight.value.0, write)
    case Fail(kind) => InFlight(world, Some((world.process.flight.value.0, Failing(kind))))
    case HandleFailure(opens, write) =>
      FailureHandled(world, world.process.flight.value.0, world.process.flight.value.1.kind, opens, write)
    case Exit => World(world.jobs, world.left, world.library, Closed)
    case Crash(kept) => World(kept, {kept}, world.library, Closed)
    case Reopen(write) => Reopened(world, write)
  }

  // ----- what every step keeps

  predicate JobFits(job: Job, library: set<Key>) {
    && (job.state == Succeeded ==> job.key in library)
    && (job.state == Queued || job.state == Running || job.state == Succeeded ==> !job.circuitOpen)
  }

  ghost predicate OneRunning(jobs: seq<Job>) {
    forall i, j :: 0 <= i < |jobs| && 0 <= j < |jobs| && jobs[i].state == Running && jobs[j].state == Running ==> i == j
  }

  /** A proper state file: unique ids and keys, one running job, and an alignment for every success. */
  ghost predicate ProperJobs(jobs: seq<Job>, library: set<Key>) {
    && Distinct(JobIds(jobs)) && Distinct(JobKeys(jobs)) && OneRunning(jobs)
    && forall i :: 0 <= i < |jobs| ==> JobFits(jobs[i], library)
  }

  /** What is recorded as succeeded in one file is so in the other. */
  ghost predicate KeepsSuccess(before: seq<Job>, after: seq<Job>) {
    |before| <= |after| &&
    forall i :: 0 <= i < |before| ==>
      before[i].id == after[i].id && before[i].key == after[i].key
        && (before[i].state == Succeeded ==> after[i].state == Succeeded)
  }

  /** A job in flight has not been queued again, no other job runs beside it, and what it works for is not there yet. */
  ghost predicate FlightFits(world: World) {
    world.process.Open? && world.process.flight.Some? ==>
      var (id, flight) := world.process.flight.value;
      var i := Find(JobIds(world.jobs), id);
      && i >= 0
      && (world.jobs[i].state == Running || world.jobs[i].state == Retryable || world.jobs[i].state == Cancelled)
      && (forall j :: 0 <= j < |world.jobs| && world.jobs[j].state == Running ==> j == i)
      && (flight == Working ==> world.jobs[i].key !in world.library)
      && (flight == Stored ==> world.jobs[i].state == Running && world.jobs[i].key in world.library)
  }

  ghost predicate AllProper(world: World) {
    world.jobs in world.left && forall kept :: kept in world.left ==> ProperJobs(kept, world.library)
  }

  ghost predicate Sound(world: World) {
    AllProper(world) && FlightFits(world)
  }

  /** No success is lost, and a file that a crash may newly leave has all that was seen before. */
  ghost predicate Keeps(world: World, after: World) {
    && KeepsSuccess(world.jobs, after.jobs)
    && forall kept :: kept in after.left ==> kept in world.left || KeepsSuccess(world.jobs, kept)
  }

  /** A new proper file in which no success is lost may be written with any luck. */
  lemma PersistedIsProper(world: World, jobs: seq<Job>, write: Write)
    requires Sound(world) && ProperJobs(jobs, world.library) && KeepsSuccess(world.jobs, jobs)
    ensures var after := Persisted(world, jobs, write); AllProper(after) && Keeps(world, after)
  {
  }

  lemma SameIdentities(jobs: seq<Job>, after: seq<Job>)
    requires |after| == |jobs|
             && forall i :: 0 <= i < |jobs| ==> after[i].id == jobs[i].id && after[i].key == jobs[i].key
    ensures JobIds(after) == JobIds(jobs) && JobKeys(after) == JobKeys(jobs)
  {
  }

  /** Changing one job that has not succeeded, with no second one running. */
  lemma ChangedIsProper(jobs: seq<Job>, i: nat, job: Job, library: set<Key>)
    requires ProperJobs(jobs, library) && i < |jobs| && job.id == jobs[i].id && job.key == jobs[i].key
    requires JobFits(job, library) && (jobs[i].state == Succeeded ==> job.state == Succeeded)
    requires job.state == Running ==> !SomeRunning(jobs) || jobs[i].state == Running
    ensures ProperJobs(jobs[i := job], library) && KeepsSuccess(jobs, jobs[i := job])
    ensures Find(JobIds(jobs[i := job]), job.id) == i
  {
    SameIdentities(jobs, jobs[i := job]);
    FindIsUnique(JobIds(jobs[i := job]), i);
  }

  lemma RequestIsSound(world: World, job: Job, write: Write)
    requires Sound(world) && Enabled(world, Request(job, write))
    ensures Sound(Requested(world, job, write)) && Keeps(world, Requested(world, job, write))
  {
    if job.key !in JobKeys(world.jobs) && |world.jobs| < 1000 {
      var added := NewJob(world.jobs, job);
      AppendedIsProper(world.jobs, added, world.library);
      PersistedIsProper(world, world.jobs + [added], write);
      FlightFitsBesideNew(world, added, write);
    }
  }

  lemma FlightFitsBesideNew(world: World, job: Job, write: Write)
    requires Sound(world) && Distinct(JobIds(world.jobs + [job])) && job.state != Running
    ensures FlightFits(Persisted(world, world.jobs + [job], write))
  {
    if world.process.Open? && world.process.flight.Some? {
      FindAppended(world.jobs, job, world.process.flight.value.0);
    }
  }

  lemma FindAppended(jobs: seq<Job>, job: Job, id: Name)
    requires Distinct(JobIds(jobs + [job])) && id in JobIds(jobs)
    ensures Find(JobIds(jobs + [job]), id) == Find(JobIds(jobs), id)
  {
    var i := Find(JobIds(jobs), id);
    assert JobIds(jobs + [job])[i] == id;
    FindIsUnique(JobIds(jobs + [job]), i);
  }

  lemma AppendedIsProper(jobs: seq<Job>, job: Job, library: set<Key>)
    requires ProperJobs(jobs, library) && JobFits(job, library) && job.state != Running
    requires job.id !in JobIds(jobs) && job.key !in JobKeys(jobs)
    ensures ProperJobs(jobs + [job], library) && KeepsSuccess(jobs, jobs + [job])
  {
    assert JobIds(jobs + [job]) == JobIds(jobs) + [job.id];
    assert JobKeys(jobs + [job]) == JobKeys(jobs) + [job.key];
  }

  lemma CircuitIsClosed(jobs: seq<Job>, i: nat)
    requires i < |jobs| && !CircuitOpen(jobs, jobs[i].runtime)
    ensures !jobs[i].circuitOpen
  {
  }

  lemma ConfirmIsSound(world: World, id: Name, otherReasons: bool, write: Write)
    requires Sound(world) && Serves(world)
    ensures Sound(Confirmed(world, id, otherReasons, write)) && Keeps(world, Confirmed(world, id, otherReasons, write))
  {
    var i := Find(JobIds(world.jobs), id);
    if i >= 0 && !Flying(world, id) && world.jobs[i].state != Running && world.jobs[i].state != Succeeded {
      var job := world.jobs[i];
      var state := if otherReasons || CircuitOpen(world.jobs, job.runtime) then BlockedJob else Queued;
      if state == Queued {
        CircuitIsClosed(world.jobs, i);
      }
      ChangeBesideFlight(world, i, InState(job, state), write);
    }
  }

  /** A job that is not in flight may change, as long as it does not come to run. */
  lemma ChangeBesideFlight(world: World, i: nat, job: Job, write: Write)
    requires Sound(world) && i < |world.jobs| && job.id == world.jobs[i].id && job.key == world.jobs[i].key
    requires Serves(world) && (Flying(world, job.id) ==> job.state == Cancelled)
    requires JobFits(job, world.library) && world.jobs[i].state != Succeeded && job.state != Running
    ensures var after := Persisted(world, world.jobs[i := job], write); Sound(after) && Keeps(world, after)
  {
    ChangedIsProper(world.jobs, i, job, world.library);
    PersistedIsProper(world, world.jobs[i := job], write);
    SameIdentities(world.jobs, world.jobs[i := job]);
  }

  lemma InterruptedIsProper(jobs: seq<Job>, library: set<Key>)
    requires ProperJobs(jobs, library)
    ensures ProperJobs(AllInterrupted(jobs), library) && KeepsSuccess(jobs, AllInterrupted(jobs))
    ensures JobIds(AllInterrupted(jobs)) == JobIds(jobs)
  {
    SameIdentities(jobs, AllInterrupted(jobs));
  }

  lemma CancelIsSound(world: World, id: Name, write: Write)
    requires Sound(world) && Serves(world)
    ensures Sound(CancelledJob(world, id, write)) && Keeps(world, CancelledJob(world, id, write))
  {
    var i := Find(JobIds(world.jobs), id);
    if i >= 0 && world.jobs[i].state != Succeeded && world.jobs[i].state != Cancelled {
      ChangeBesideFlight(world, i, InState(world.jobs[i], Cancelled), write);
    }
  }

  lemma RunIsSound(world: World, id: Name, otherReasons: bool, write: Write)
    requires Sound(world) && Serves(world)
    ensures Sound(RunStarted(world, id, otherReasons, write))
            && Keeps(world, RunStarted(world, id, otherReasons, write))
  {
    if Runnable(world, id) {
      var i := Find(JobIds(world.jobs), id);
      var job := world.jobs[i];
      var state := if job.key in world.library then Succeeded
                   else if otherReasons || CircuitOpen(world.jobs, job.runtime) then BlockedJob else Running;
      ChangedIsProper(world.jobs, i, InState(job, state), world.library);
      PersistedIsProper(world, world.jobs[i := InState(job, state)], write);
    }
  }

  lemma LibraryGrows(jobs: seq<Job>, library: set<Key>, key: Key)
    requires ProperJobs(jobs, library)
    ensures ProperJobs(jobs, library + {key})
  {
    forall i | 0 <= i < |jobs|
      ensures JobFits(jobs[i], library + {key})
    {
      assert JobFits(jobs[i], library);
    }
  }

  lemma StoringIsSound(world: World, throws: bool)
    requires Sound(world) && Enabled(world, StoreInLibrary(throws))
    ensures Sound(After(world, StoreInLibrary(throws))) && Keeps(world, After(world, StoreInLibrary(throws)))
  {
    var i := Find(JobIds(world.jobs), world.process.flight.value.0);
    forall kept | kept in world.left
      ensures ProperJobs(kept, world.library + {world.jobs[i].key})
    {
      LibraryGrows(kept, world.library, world.jobs[i].key);
    }
  }

  lemma RecordingIsSound(world: World, write: Write)
    requires Sound(world) && Enabled(world, RecordSuccess(write))
    ensures Sound(After(world, RecordSuccess(write))) && Keeps(world, After(world, RecordSuccess(write)))
  {
    var i := Find(JobIds(world.jobs), world.process.flight.value.0);
    var job := InState(world.jobs[i], Succeeded);
    ChangedIsProper(world.jobs, i, job, world.library);
    PersistedIsProper(world, world.jobs[i := job], write);
  }

  lemma HandlingIsSound(world: World, opens: bool, write: Write)
    requires Sound(world) && Enabled(world, HandleFailure(opens, write))
    ensures Sound(After(world, HandleFailure(opens, write))) && Keeps(world, After(world, HandleFailure(opens, write)))
  {
    var (id, flight) := world.process.flight.value;
    var i := Find(JobIds(world.jobs), id);
    var job := world.jobs[i];
    if job.state == Running || flight.kind == Cleanup {
      var state := if job.state == Cancelled then Cancelled else if opens then BlockedJob else Retryable;
      var after := Job(job.id, job.key, job.runtime, state, opens);
      ChangedIsProper(world.jobs, i, after, world.library);
      PersistedIsProper(world, world.jobs[i := after], write);
    }
  }

  lemma RecoveredIsProper(jobs: seq<Job>, library: set<Key>)
    requires ProperJobs(jobs, library)
    ensures ProperJobs(Recovered(jobs), library) && KeepsSuccess(jobs, Recovered(jobs))
    ensures !SomeRunning(Recovered(jobs))
  {
    SameIdentities(jobs, Recovered(jobs));
    assert forall i :: 0 <= i < |jobs| ==> JobFits(jobs[i], library);
  }

  lemma ReopenIsSound(world: World, write: Write)
    requires Sound(world) && world.process == Closed
    ensures Sound(Reopened(world, write)) && Keeps(world, Reopened(world, write))
    ensures Reopened(world, write).process.Open? ==> !SomeRunning(Reopened(world, write).jobs)
  {
    RecoveredIsProper(world.jobs, world.library);
    PersistedIsProper(world, Recovered(world.jobs), write);
    if i :| 0 <= i < |world.jobs| && world.jobs[i].state == Running {
      assert Recovered(world.jobs)[i].state != world.jobs[i].state;
    }
  }

  lemma InterruptIsSound(world: World, write: Write)
    requires Sound(world) && Serves(world)
    ensures Sound(Persisted(world, AllInterrupted(world.jobs), write))
            && Keeps(world, Persisted(world, AllInterrupted(world.jobs), write))
  {
    InterruptedIsProper(world.jobs, world.library);
    PersistedIsProper(world, AllInterrupted(world.jobs), write);
  }

  lemma StepIsSound(world: World, event: Event)
    requires Sound(world) && Enabled(world, event)
    ensures Sound(After(world, event))
    ensures if event.Crash? then After(world, event).left <= world.left else Keeps(world, After(world, event))
  {
    match event
    case Request(job, write) => RequestIsSound(world, job, write);
    case Confirm(id, otherReasons, write) => ConfirmIsSound(world, id, otherReasons, write);
    case Interrupt(write) => InterruptIsSound(world, write);
    case Cancel(id, write) => CancelIsSound(world, id, write);
    case Run(id, otherReasons, write) => RunIsSound(world, id, otherReasons, write);
    case StoreInLibrary(throws) => StoringIsSound(world, throws);
    case RecordSuccess(write) => RecordingIsSound(world, write);
    case Fail(_) =>
    case HandleFailure(opens, write) => HandlingIsSound(world, opens, write);
    case Exit =>
    case Crash(_) =>
    case Reopen(write) => ReopenIsSound(world, write);
  }

  // ----- whole runs

  function Replay(world: World, events: seq<Event>): World
    requires Possible(world, events)
    decreases |events|, 1
  {
    if events == [] then world else After(Replay(world, events[..|events| - 1]), events[|events| - 1])
  }

  predicate Possible(world: World, events: seq<Event>)
    decreases |events|, 0
  {
    events == [] || (Possible(world, events[..|events| - 1])
                     && Enabled(Replay(world, events[..|events| - 1]), events[|events| - 1]))
  }

  /** In every run keys and ids stay unique, at most one job runs, and a succeeded job has its alignment. */
  lemma {:induction false} EveryRunIsSound(events: seq<Event>)
    requires Possible(Empty, events)
    ensures Sound(Replay(Empty, events))
  {
    if events != [] {
      EveryRunIsSound(events[..|events| - 1]);
      StepIsSound(Replay(Empty, events[..|events| - 1]), events[|events| - 1]);
    }
  }

  ghost predicate SucceededIn(jobs: seq<Job>, id: Name) {
    exists i :: 0 <= i < |jobs| && jobs[i].id == id && jobs[i].state == Succeeded
  }

  /** No crash takes the success of a job away: it is in every file that a crash may leave. */
  ghost predicate SafelySucceeded(world: World, id: Name) {
    forall kept :: kept in world.left ==> SucceededIn(kept, id)
  }

  /** No step of a living process takes a success back, and no step at all takes back one that every crash leaves. */
  lemma SuccessIsFinal(world: World, event: Event, id: Name)
    requires Sound(world) && Enabled(world, event)
    ensures SucceededIn(world.jobs, id) && !event.Crash? ==> SucceededIn(After(world, event).jobs, id)
    ensures SafelySucceeded(world, id) ==> SafelySucceeded(After(world, event), id)
  {
    StepIsSound(world, event);
    if SucceededIn(world.jobs, id) && !event.Crash? {
      SuccessTravels(world.jobs, After(world, event).jobs, id);
      forall kept | kept in After(world, event).left && kept !in world.left
        ensures SucceededIn(kept, id)
      {
        SuccessTravels(world.jobs, kept, id);
      }
    }
  }

  lemma SuccessTravels(before: seq<Job>, after: seq<Job>, id: Name)
    requires KeepsSuccess(before, after) && SucceededIn(before, id)
    ensures SucceededIn(after, id)
  {
    var i :| 0 <= i < |before| && before[i].id == id && before[i].state == Succeeded;
    assert after[i].id == id && after[i].state == Succeeded;
  }

  // ----- which successes are safe

  /** A crash would leave what is seen. */
  ghost predicate Synced(world: World) { world.left == {world.jobs} }

  /**
   Only a write that is synced, or a crash, settles what a
   crash would leave; otherwise nothing left before is gone.
  */
  lemma StepSyncsOrGrows(world: World, event: Event)
    requires Enabled(world, event)
    ensures Synced(After(world, event)) || world.left <= After(world, event).left
  {
  }

  lemma NotYetSucceeded(jobs: seq<Job>, i: nat)
    requires Distinct(JobIds(jobs)) && i < |jobs| && jobs[i].state != Succeeded
    ensures !SucceededIn(jobs, jobs[i].id)
  {
    forall j | 0 <= j < |jobs| && jobs[j].id == jobs[i].id
      ensures j == i
    {
      assert JobIds(jobs)[j] == JobIds(jobs)[i];
    }
  }

  /** Writing a success down: it is seen unless the write is lost, and safe exactly when the write is synced. */
  lemma WritingASuccess(world: World, i: nat, write: Write)
    requires Sound(world) && i < |world.jobs| && world.jobs[i].state != Succeeded
    ensures var after, id := Persisted(world, world.jobs[i := InState(world.jobs[i], Succeeded)], write),
                world.jobs[i].id;
            && (SucceededIn(after.jobs, id) <==> write != Lost)
            && (SafelySucceeded(after, id) <==> write == Written)
  {
    var id, next := world.jobs[i].id, world.jobs[i := InState(world.jobs[i], Succeeded)];
    NotYetSucceeded(world.jobs, i);
    assert next[i].id == id && next[i].state == Succeeded && SucceededIn(next, id);
  }

  /** When a finished run records its success. */
  lemma RecordedSuccessIsSafeExactlyWhenSynced(world: World, write: Write)
    requires Sound(world) && Enabled(world, RecordSuccess(write))
    ensures var after, id := After(world, RecordSuccess(write)), world.process.flight.value.0;
            && (SucceededIn(after.jobs, id) <==> write != Lost)
            && (SafelySucceeded(after, id) <==> write == Written)
  {
    var i := Find(JobIds(world.jobs), world.process.flight.value.0);
    WritingASuccess(world, i, write);
    NotYetSucceeded(world.jobs, i);
  }

  /** When a run finds the alignment of its recipe in the library. */
  lemma PublishedRunIsSafeExactlyWhenSynced(world: World, id: Name, otherReasons: bool, write: Write)
    requires Sound(world) && Runnable(world, id) && world.jobs[Find(JobIds(world.jobs), id)].key in world.library
    ensures var after := After(world, Run(id, otherReasons, write));
            && (SucceededIn(after.jobs, id) <==> write != Lost)
            && (SafelySucceeded(after, id) <==> write == Written)
  {
    WritingASuccess(world, Find(JobIds(world.jobs), id), write);
  }

  /** The world after the first steps of a run. */
  ghost function WorldAt(world: World, events: seq<Event>, n: nat): World
    requires Possible(world, events) && n <= |events|
    decreases |events|
  {
    if n == |events| then Replay(world, events) else WorldAt(world, events[..|events| - 1], n)
  }

  /** At some time the success was seen in a file that was synced. */
  ghost predicate ShownSynced(events: seq<Event>, id: Name)
    requires Possible(Empty, events)
  {
    exists n: nat :: n <= |events| && ShownSyncedAt(WorldAt(Empty, events, n), id)
  }

  ghost predicate ShownSyncedAt(world: World, id: Name) { Synced(world) && SucceededIn(world.jobs, id) }

  lemma ShownSyncedSnoc(events: seq<Event>, id: Name)
    requires events != [] && Possible(Empty, events)
    ensures ShownSynced(events, id)
            <==> ShownSynced(events[..|events| - 1], id) || ShownSyncedAt(Replay(Empty, events), id)
  {
    var before := events[..|events| - 1];
    if ShownSynced(before, id) {
      var n: nat :| n <= |before| && ShownSyncedAt(WorldAt(Empty, before, n), id);
      assert WorldAt(Empty, events, n) == WorldAt(Empty, before, n);
    }
    if ShownSynced(events, id) {
      var n: nat :| n <= |events| && ShownSyncedAt(WorldAt(Empty, events, n), id);
      assert n < |events| ==> WorldAt(Empty, events, n) == WorldAt(Empty, before, n);
    }
    assert WorldAt(Empty, events, |events|) == Replay(Empty, events);
  }

  /** In every run, a success is safe exactly when a synced file has shown it: no torn write makes one safe. */
  lemma {:induction false} SuccessIsSafeExactlyWhenShownSynced(events: seq<Event>, id: Name)
    requires Possible(Empty, events)
    ensures SafelySucceeded(Replay(Empty, events), id) <==> ShownSynced(events, id)
  {
    var world := Replay(Empty, events);
    EveryRunIsSound(events);
    assert SafelySucceeded(world, id) ==> SucceededIn(world.jobs, id);
    if events == [] {
      assert WorldAt(Empty, events, 0) == Empty;
    } else {
      var init, last := events[..|events| - 1], events[|events| - 1];
      SuccessIsSafeExactlyWhenShownSynced(init, id);
      ShownSyncedSnoc(events, id);
      EveryRunIsSound(init);
      SuccessIsFinal(Replay(Empty, init), last, id);
      StepSyncsOrGrows(Replay(Empty, init), last);
    }
  }

  // ----- publication happens once

  /** What the library has, it keeps. */
  lemma {:induction false} LibraryOnlyGrows(world: World, events: seq<Event>)
    requires Possible(world, events)
    ensures world.library <= Replay(world, events).library
  {
    if events != [] {
      LibraryOnlyGrows(world, events[..|events| - 1]);
      StepKeepsLibrary(Replay(world, events[..|events| - 1]), events[|events| - 1]);
    }
  }

  lemma StepKeepsLibrary(world: World, event: Event)
    requires Enabled(world, event)
    ensures world.library <= After(world, event).library
  {
  }

  /**
   Once an alignment is in the library, no run of its recipe calls the worker again, whatever stops and
   crashes come between: a run that can start records the success straight away.
  */
  lemma PublishedRecipeNeedsNoWorker(world: World, events: seq<Event>, id: Name, otherReasons: bool, write: Write)
    requires Possible(world, events)
    requires var later := Replay(world, events);
             Runnable(later, id) && later.jobs[Find(JobIds(later.jobs), id)].key in world.library
    ensures var later := Replay(world, events);
            var after := RunStarted(later, id, otherReasons, write);
            && after.process == later.process && after.library == later.library
            && (write != Lost ==> after.jobs[Find(JobIds(later.jobs), id)].state == Succeeded)
  {
    LibraryOnlyGrows(world, events);
  }

  /** The key of the alignment that a step hands to the library, if it does. */
  function Published(world: World, event: Event): Option<Key>
    requires Enabled(world, event)
  {
    if !event.StoreInLibrary? then None
    else
      var i := Find(JobIds(world.jobs), world.process.flight.value.0);
      if i < 0 || world.jobs[i].state != Running then None else Some(world.jobs[i].key)
  }

  /** How often a run hands the alignment of a recipe to the library. */
  function Publications(world: World, events: seq<Event>, key: Key): nat
    requires Possible(world, events)
  {
    if events == [] then 0
    else
      var before := events[..|events| - 1];
      Publications(world, before, key) + if Published(Replay(world, before), events[|events| - 1]) == Some(key) then 1
        else 0
  }

  lemma PublishingIsNew(world: World, event: Event)
    requires Sound(world) && Enabled(world, event)
    ensures Published(world, event) == None ==> After(world, event).library == world.library
    ensures Published(world, event).Some? ==>
              && Published(world, event).value !in world.library
              && After(world, event).library == world.library + {Published(world, event).value}
  {
  }

  /** In every run, crashes included, an alignment is published once if it is in the library, and never otherwise. */
  lemma {:induction false} PublicationHappensOnce(events: seq<Event>, key: Key)
    requires Possible(Empty, events)
    ensures Publications(Empty, events, key) == if key in Replay(Empty, events).library then 1 else 0
  {
    if events != [] {
      var before := events[..|events| - 1];
      PublicationHappensOnce(before, key);
      EveryRunIsSound(before);
      PublishingIsNew(Replay(Empty, before), events[|events| - 1]);
    }
  }

  /** In every run the worker is called only for a recipe that was never published, with no other job running. */
  lemma WorkerIsCalledOnlyBeforePublication(events: seq<Event>, event: Event)
    requires Possible(Empty, events) && CallsWorker(Replay(Empty, events), event)
    ensures var world := Replay(Empty, events);
            var i := Find(JobIds(world.jobs), event.id);
            && i >= 0 && !SomeRunning(world.jobs) && !CircuitOpen(world.jobs, world.jobs[i].runtime)
            && Publications(Empty, events, world.jobs[i].key) == 0
            && After(world, event).process == Open(Some((event.id, Working)))
  {
    var world := Replay(Empty, events);
    PublicationHappensOnce(events, world.jobs[Find(JobIds(world.jobs), event.id)].key);
  }

  // ----- a success that was not synced

  const Sample := Job("job", "recipe", "runtime", Queued, false)

  function Only(state: State): seq<Job> { [InState(Sample, state)] }

  function OneJob(state: State, library: set<Key>, process: Process): World {
    World(Only(state), {Only(state)}, library, process)
  }

  lemma OnlyJobIsFirst(state: State)
    ensures Find(JobIds(Only(state)), "job") == 0
  {
    assert JobIds(Only(state))[0] == "job";
  }

  lemma SampleSteps()
    ensures After(Empty, Reopen(Written)) == World([], {[]}, {}, Open(None))
    ensures Requested(World([], {[]}, {}, Open(None)), Sample, Written) == OneJob(Queued, {}, Open(None))
  {
    assert [] + [Sample] == [Sample];
  }

  lemma SampleRun()
    ensures RunStarted(OneJob(Queued, {}, Open(None)), "job", false, Written)
            == OneJob(Running, {}, Open(Some(("job", Working))))
    ensures StoredInLibrary(OneJob(Running, {}, Open(Some(("job", Working)))), "job", false)
            == OneJob(Running, {"recipe"}, Open(Some(("job", Stored))))
    ensures SuccessRecorded(OneJob(Running, {"recipe"}, Open(Some(("job", Stored)))), "job", Torn)
            == World(Only(Succeeded), {Only(Running), Only(Succeeded)}, {"recipe"}, Open(None))
  {
    OnlyJobIsFirst(Queued);
    OnlyJobIsFirst(Running);
    assert Only(Queued)[0 := InState(Sample, Running)] == Only(Running);
    assert Only(Running)[0 := InState(Sample, Succeeded)] == Only(Succeeded);
    assert {} + {"recipe"} == {"recipe"};
  }

  lemma PossibleSnoc(world: World, events: seq<Event>, event: Event)
    requires Possible(world, events) && Enabled(Replay(world, events), event)
    ensures Possible(world, events + [event]) && Replay(world, events + [event]) == After(Replay(world, events), event)
  {
    assert (events + [event])[..|events|] == events;
  }

  lemma RunningSample() returns (events: seq<Event>)
    ensures Possible(Empty, events)
    ensures Replay(Empty, events) == OneJob(Running, {}, Open(Some(("job", Working))))
  {
    SampleSteps();
    SampleRun();
    events := [];
    PossibleSnoc(Empty, events, Reopen(Written));
    events := events + [Reopen(Written)];
    PossibleSnoc(Empty, events, Request(Sample, Written));
    events := events + [Request(Sample, Written)];
    PossibleSnoc(Empty, events, Run("job", false, Written));
    events := events + [Run("job", false, Written)];
  }

  /** A success whose write was not synced is seen, and can still be lost to a crash. */
  lemma UnsyncedSuccessCanBeLost() returns (events: seq<Event>)
    ensures Possible(Empty, events) && SucceededIn(Replay(Empty, events).jobs, "job")
    ensures var crash := Crash(Only(Running));
            Enabled(Replay(Empty, events), crash) && !SucceededIn(After(Replay(Empty, events), crash).jobs, "job")
  {
    SampleRun();
    events := RunningSample();
    PossibleSnoc(Empty, events, StoreInLibrary(false));
    events := events + [StoreInLibrary(false)];
    PossibleSnoc(Empty, events, RecordSuccess(Torn));
    events := events + [RecordSuccess(Torn)];
    assert Replay(Empty, events) == World(Only(Succeeded), {Only(Running), Only(Succeeded)}, {"recipe"}, Open(None));
    assert Replay(Empty, events).jobs[0].id == "job" && Replay(Empty, events).jobs[0].state == Succeeded;
  }
}
