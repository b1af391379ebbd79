/** What each step of the alignment jobs does to the job it is about, said of the jobs by their place and id. */
module AlignmentJobSteps {
  import opened Wrappers
  import opened Sequences
  import opened AlignmentJobs

  ghost predicate Is(world: World, i: nat, id: Name) { i < |world.jobs| && world.jobs[i].id == id }

  ghost predicate NoSuchJob(world: World, id: Name) { forall i :: 0 <= i < |world.jobs| ==> world.jobs[i].id != id }

  lemma FoundJob(world: World, i: nat, id: Name)
    requires Sound(world) && Is(world, i, id)
    ensures Find(JobIds(world.jobs), id) == i
  {
    assert ProperJobs(world.jobs, world.library);
    FindIsUnique(JobIds(world.jobs), i);
  }

  /** The state file is replaced: done and synced, not at all, or done but not synced. */
  ghost predicate Writes(before: World, after: World, jobs: seq<Job>, write: Write) {
    && after.library == before.library
    && after.jobs == (if write == Lost then before.jobs else jobs)
    && after.left == (if write == Written then {jobs} else if write == Lost then before.left else before.left + {jobs})
  }

  /** One job changes its state and its circuit; it keeps its id, recipe and runtime, and all others stay. */
  ghost predicate Changes(before: World, after: World, i: nat, state: State, circuitOpen: bool, write: Write)
    requires i < |before.jobs|
  {
    var job := before.jobs[i];
    Writes(before, after, before.jobs[i := Job(job.id, job.key, job.runtime, state, circuitOpen)], write)
  }

  ghost predicate OnlyProcess(before: World, after: World, process: Process) {
    after == World(before.jobs, before.left, before.library, process)
  }

  ghost predicate RuntimeBlocked(world: World, runtime: Name) {
    exists j :: 0 <= j < |world.jobs| && world.jobs[j].runtime == runtime && world.jobs[j].circuitOpen
  }

  /** A job is cancelled unless it has succeeded or is cancelled already, also while it runs. */
  lemma CancelDoes(world: World, id: Name, write: Write, i: nat)
    requires Sound(world) && Enabled(world, Cancel(id, write)) && Is(world, i, id)
    ensures var job, after := world.jobs[i], After(world, Cancel(id, write));
            if job.state == Succeeded || job.state == Cancelled then after == world
            else Changes(world, after, i, Cancelled, job.circuitOpen, write) && after.process == world.process
  {
    FoundJob(world, i, id);
  }

  /** A job that neither runs, is in flight, nor has succeeded is queued, or blocked if it cannot run. */
  lemma ConfirmDoes(world: World, id: Name, otherReasons: bool, write: Write, i: nat)
    requires Sound(world) && Enabled(world, Confirm(id, otherReasons, write)) && Is(world, i, id)
    ensures var job, after := world.jobs[i], After(world, Confirm(id, otherReasons, write));
            if job.state == Running || job.state == Succeeded
               || (exists flight :: world.process == Open(Some((id, flight)))) then after == world
            else
              && after.process == world.process
              && Changes(world, after, i,
                         if otherReasons || RuntimeBlocked(world, job.runtime) then BlockedJob else Queued,
                         job.circuitOpen, write)
  {
    FoundJob(world, i, id);
    if Flying(world, id) {
      assert world.process == Open(Some((id, world.process.flight.value.1)));
    }
  }

  ghost predicate Idle(world: World) {
    world.process == Open(None) && forall j :: 0 <= j < |world.jobs| ==> world.jobs[j].state != Running
  }

  /**
   A queued job is run if none is running: it succeeds at once when its alignment is in the library, is blocked
   when it cannot run, and otherwise runs, with the worker only if that could be recorded.
  */
  lemma RunDoes(world: World, id: Name, otherReasons: bool, write: Write, i: nat)
    requires Sound(world) && Enabled(world, Run(id, otherReasons, write)) && Is(world, i, id)
    ensures var job, after := world.jobs[i], After(world, Run(id, otherReasons, write));
            if job.state != Queued || !Idle(world) then after == world
            else if job.key in world.library then
              Changes(world, after, i, Succeeded, job.circuitOpen, write) && after.process == world.process
            else if otherReasons || RuntimeBlocked(world, job.runtime) then
              Changes(world, after, i, BlockedJob, job.circuitOpen, write) && after.process == world.process
            else
              && Changes(world, after, i, Running, job.circuitOpen, write)
              && after.process == if write == Written then Open(Some((id, Working))) else Open(None)
  {
    FoundJob(world, i, id);
  }

  lemma NothingToDo(world: World, id: Name, otherReasons: bool, write: Write)
    requires NoSuchJob(world, id) && Enabled(world, Cancel(id, write))
    ensures After(world, Cancel(id, write)) == After(world, Confirm(id, otherReasons, write))
            == After(world, Run(id, otherReasons, write)) == world
  {
  }

  /** A request adds a job, queued or blocked, unless there is one for the recipe or there are a thousand. */
  lemma RequestDoes(world: World, job: Job, write: Write)
    requires Sound(world) && Enabled(world, Request(job, write))
    ensures var after := After(world, Request(job, write));
            if (exists j :: 0 <= j < |world.jobs| && world.jobs[j].key == job.key) || |world.jobs| >= 1000 then
              after == world
            else
              var state := if job.state == BlockedJob || RuntimeBlocked(world, job.runtime) then BlockedJob else Queued;
              && after.process == world.process
              && Writes(world, after, world.jobs + [Job(job.id, job.key, job.runtime, state, false)], write)
  {
    assert job.key in JobKeys(world.jobs) <==> exists j :: 0 <= j < |world.jobs| && world.jobs[j].key == job.key by {
      if j :| 0 <= j < |world.jobs| && world.jobs[j].key == job.key {
        assert JobKeys(world.jobs)[j] == job.key;
      }
    }
  }

  /** Jobs in the same places, each in the state that a rule gives it. */
  ghost predicate Each(before: seq<Job>, after: seq<Job>, rule: (Job, Job) -> bool) {
    && |after| == |before|
    && forall i :: 0 <= i < |before| ==>
         && after[i].id == before[i].id && after[i].key == before[i].key && after[i].runtime == before[i].runtime
         && rule(before[i], after[i])
  }

  predicate InterruptRule(before: Job, after: Job) {
    && after.circuitOpen == before.circuitOpen
    && (before.state == Running ==> after.state == Retryable)
    && (before.state == Queued ==> after.state == AwaitingConfirmation)
    && (before.state != Running && before.state != Queued ==> after.state == before.state)
  }

  /** Interrupting makes running jobs retryable and asks again for queued ones; what is in flight goes on. */
  lemma InterruptDoes(world: World, write: Write) returns (jobs: seq<Job>)
    requires Enabled(world, Interrupt(write))
    ensures Each(world.jobs, jobs, InterruptRule)
    ensures var after := After(world, Interrupt(write));
            Writes(world, after, jobs, write) && after.process == world.process
  {
    jobs := AllInterrupted(world.jobs);
  }

  predicate RecoveryRule(before: Job, after: Job) {
    && !after.circuitOpen
    && (before.circuitOpen || before.state == Queued ==> after.state == AwaitingConfirmation)
    && (!before.circuitOpen && before.state == Running ==> after.state == Retryable)
    && (!before.circuitOpen && before.state != Running && before.state != Queued ==> after.state == before.state)
  }

  /**
   Reopening closes circuits and asks again for their jobs and for queued ones, and makes running jobs
   retryable. It writes only if a state changes, and opens only if it could write.
  */
  lemma ReopenDoes(world: World, write: Write) returns (jobs: seq<Job>)
    requires Enabled(world, Reopen(write))
    ensures Each(world.jobs, jobs, RecoveryRule)
    ensures var after := After(world, Reopen(write));
            if forall i :: 0 <= i < |jobs| ==> jobs[i].state == world.jobs[i].state then
              OnlyProcess(world, after, Open(None))
            else
              && Writes(world, after, jobs, write)
              && after.process == if write == Written then Open(None) else Closed
  {
    jobs := Recovered(world.jobs);
  }

  // ----- a job in flight

  ghost predicate InFlightAs(world: World, i: nat, id: Name, flight: Flight) {
    world.process == Open(Some((id, flight))) && Is(world, i, id)
  }

  /** The alignment of a job that still runs is stored, also when the library throws; otherwise the run fails. */
  lemma StoreDoes(world: World, throws: bool, i: nat, id: Name)
    requires Sound(world) && InFlightAs(world, i, id, Working)
    ensures var job, after := world.jobs[i], After(world, StoreInLibrary(throws));
            && after.jobs == world.jobs && after.left == world.left
            && after.library == (if job.state == Running then world.library + {job.key} else world.library)
            && after.process == Open(Some((id, if job.state == Running && !throws then Stored else Failing(Storage))))
  {
    FoundJob(world, i, id);
  }

  /** A stored alignment makes its job succeed; if that cannot be written, the run fails. */
  lemma RecordDoes(world: World, write: Write, i: nat, id: Name)
    requires Sound(world) && InFlightAs(world, i, id, Stored)
    ensures var job, after := world.jobs[i], After(world, RecordSuccess(write));
            if write == Lost then OnlyProcess(world, after, Open(Some((id, Failing(Storage)))))
            else Changes(world, after, i, Succeeded, job.circuitOpen, write) && after.process == Open(None)
  {
    FoundJob(world, i, id);
  }

  /**
   A failed run leaves its job cancelled if it was, blocked if the circuit opens, and retryable otherwise; a job that
   does not run any more is only touched when the worker could not clean up.
  */
  lemma HandleFailureDoes(world: World, opens: bool, write: Write, i: nat, id: Name, kind: Kind)
    requires Sound(world) && InFlightAs(world, i, id, Failing(kind)) && Enabled(world, HandleFailure(opens, write))
    ensures var job, after := world.jobs[i], After(world, HandleFailure(opens, write));
            if job.state == Running || kind == Cleanup then
              && after.process == Open(None)
              && Changes(world, after, i,
                         if job.state == Cancelled then Cancelled else if opens then BlockedJob else Retryable, opens,
                         write)
            else OnlyProcess(world, after, Open(None))
  {
    FoundJob(world, i, id);
  }

  /** A failure is of any kind; a stop keeps the state file as seen, and a crash leaves any that may be left. */
  lemma StopsDo(world: World, kind: Kind, kept: seq<Job>, id: Name)
    ensures world.process == Open(Some((id, Working))) ==>
              && Enabled(world, Fail(kind))
              && OnlyProcess(world, After(world, Fail(kind)), Open(Some((id, Failing(kind)))))
    ensures world.process.Open? ==> Enabled(world, Exit) && OnlyProcess(world, After(world, Exit), Closed)
    ensures kept in world.left ==>
              Enabled(world, Crash(kept)) && After(world, Crash(kept)) == World(kept, {kept}, world.library, Closed)
  {
  }

  // ----- what can happen

  ghost predicate Waiting(world: World) {
    world.process.Open? && forall id :: world.process != Open(Some((id, Stored)))
  }

  /** Users can ask for anything while the program is open, except between storing an alignment and recording it. */
  lemma UsersCanAsk(world: World, id: Name, job: Job, otherReasons: bool, write: Write)
    ensures Enabled(world, Confirm(id, otherReasons, write)) <==> Waiting(world)
    ensures Enabled(world, Cancel(id, write)) <==> Waiting(world)
    ensures Enabled(world, Run(id, otherReasons, write)) <==> Waiting(world)
    ensures Enabled(world, Interrupt(write)) <==> Waiting(world)
    ensures Enabled(world, Request(job, write))
            <==> Waiting(world) && NoSuchJob(world, job.id) && !job.circuitOpen
  {
    if world.process.Open? && world.process.flight.Some? {
      var (flying, flight) := world.process.flight.value;
      assert flight == Stored ==> world.process == Open(Some((flying, Stored)));
    }
    if NoSuchJob(world, job.id) {
      assert job.id !in JobIds(world.jobs);
    }
    if job.id !in JobIds(world.jobs) {
      assert forall i :: 0 <= i < |world.jobs| ==> JobIds(world.jobs)[i] != job.id;
    }
  }

  /** A storage failure never opens the circuit, a failed cleanup or a bad output always does, and another may. */
  lemma FlightsGoOn(world: World, opens: bool, throws: bool, write: Write, id: Name, kind: Kind)
    ensures world.process == Open(Some((id, Working))) ==> Enabled(world, StoreInLibrary(throws))
    ensures world.process == Open(Some((id, Stored))) ==> Enabled(world, RecordSuccess(write))
    ensures world.process == Open(Some((id, Failing(kind)))) ==>
              (Enabled(world, HandleFailure(opens, write)) <==>
                 match kind
                 case Storage => !opens
                 case Worker => true
                 case Cleanup => opens
                 case Integrity => opens)
    ensures Enabled(world, Reopen(write)) <==> world.process == Closed
  {
  }

  /** In every run: ids and recipes are unique, one job runs at most, and what has succeeded is in the library. */
  lemma WhatEveryRunShows(events: seq<Event>, i: nat, j: nat)
    requires Possible(Empty, events)
    ensures var world := Replay(Empty, events);
            && (i < j < |world.jobs| ==>
                  && world.jobs[i].id != world.jobs[j].id && world.jobs[i].key != world.jobs[j].key
                  && !(world.jobs[i].state == Running && world.jobs[j].state == Running))
            && (i < |world.jobs| && world.jobs[i].state == Succeeded ==> world.jobs[i].key in world.library)
            && (i < |world.jobs| && world.jobs[i].circuitOpen ==>
                  world.jobs[i].state !in {Queued, Running, Succeeded})
  {
    EveryRunIsSound(events);
    var world := Replay(Empty, events);
    assert ProperJobs(world.jobs, world.library);
    if i < j < |world.jobs| {
      assert JobIds(world.jobs)[i] != JobIds(world.jobs)[j] && JobKeys(world.jobs)[i] != JobKeys(world.jobs)[j];
    }
    if i < |world.jobs| {
      assert JobFits(world.jobs[i], world.library);
    }
  }
}
