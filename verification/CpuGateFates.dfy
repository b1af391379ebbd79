/** What becomes of a task at the CPU gate, told by what has happened. */
module CpuGateFates {
  import opened CpuGate

  ghost predicate HasFate(gate: Gate, ticket: Ticket, fate: Fate) {
    ticket in gate.fates && gate.fates[ticket] == fate
  }

  /** The tasks whose promises are settled by an event, and how. */
  ghost predicate Settles(gate: Gate, event: Event, ticket: Ticket, fate: Fate) {
    match event
    case Submit(aborted) =>
      && ticket == gate.next
      && ((gate.blocked && fate == Rejected(CleanupIncomplete))
          || (!gate.blocked && aborted && fate == Rejected(Cancelled))
          || (!gate.blocked && !aborted && |gate.waiting| == 32 && fate == Rejected(QueueFull)))
    case Abort(aborted) => ticket == aborted && ticket in gate.waiting && fate == Rejected(Cancelled)
    case Block => ticket in gate.waiting && fate == Rejected(CleanupIncomplete)
    case Begin(begun, abortedSince) => ticket == begun && abortedSince && fate == Rejected(Cancelled)
    case Complete(done, outcome) =>
      || (outcome == Succeeded && ticket == done && fate == Resolved)
      || (outcome == Failed && ticket == done && fate == Rejected(OperationFailed))
      || (outcome == CleanupFailed && (ticket == done || ticket in gate.waiting) && fate == Rejected(CleanupIncomplete))
    case Release(_) => false
  }

  lemma StepSettles(gate: Gate, event: Event, ticket: Ticket, fate: Fate)
    requires Sound(gate) && Enabled(gate, event)
    ensures HasFate(After(gate, event), ticket, fate)
            <==> HasFate(gate, ticket, fate) || Settles(gate, event, ticket, fate)
  {
    assert Waits(gate, ticket) || Works(gate, ticket) || Done(gate, ticket) <==> ticket < gate.next;
    assert Waits(gate, ticket) ==> !Works(gate, ticket) && !Done(gate, ticket);
    assert Works(gate, ticket) ==> !Done(gate, ticket);
  }

  ghost predicate SettlesAt(events: seq<Event>, n: nat, ticket: Ticket, fate: Fate) {
    n < |events| && Settles(Replay(Fresh, events[..n]), events[n], ticket, fate)
  }

  /** In every run, a task has a fate exactly when one of the events has settled it so. */
  lemma {:induction false} FatesComeFromEvents(events: seq<Event>, ticket: Ticket, fate: Fate)
    requires Run(Fresh, events)
    ensures HasFate(Replay(Fresh, events), ticket, fate) <==> exists n: nat :: SettlesAt(events, n, ticket, fate)
  {
    if events != [] {
      var init, last := events[..|events| - 1], events[|events| - 1];
      FatesComeFromEvents(init, ticket, fate);
      EveryRunIsSound(init);
      StepSettles(Replay(Fresh, init), last, ticket, fate);
      OneMoreSettles(events, ticket, fate);
    }
  }

  lemma OneMoreSettles(events: seq<Event>, ticket: Ticket, fate: Fate)
    requires events != []
    ensures var init := events[..|events| - 1];
            (exists n: nat :: SettlesAt(events, n, ticket, fate)) <==>
            || (exists n: nat :: SettlesAt(init, n, ticket, fate))
            || Settles(Replay(Fresh, init), events[|events| - 1], ticket, fate)
  {
    var last := |events| - 1;
    var init := events[..last];
    assert forall n: nat :: n < last ==> init[..n] == events[..n];
    if n: nat :| SettlesAt(init, n, ticket, fate) {
      assert SettlesAt(events, n, ticket, fate);
    }
    if Settles(Replay(Fresh, init), events[last], ticket, fate) {
      assert SettlesAt(events, last, ticket, fate);
    }
    if n: nat :| SettlesAt(events, n, ticket, fate) {
      assert n < last ==> SettlesAt(init, n, ticket, fate);
    }
  }

  /** In every run, a task is resolved exactly when its operation succeeded, and rejected as failed when it failed. */
  lemma OutcomesDecide(events: seq<Event>, ticket: Ticket)
    requires Run(Fresh, events)
    ensures HasFate(Replay(Fresh, events), ticket, Resolved) <==> Complete(ticket, Succeeded) in events
    ensures HasFate(Replay(Fresh, events), ticket, Rejected(OperationFailed)) <==> Complete(ticket, Failed) in events
    ensures Complete(ticket, CleanupFailed) in events ==>
              HasFate(Replay(Fresh, events), ticket, Rejected(CleanupIncomplete))
    ensures Begin(ticket, true) in events ==> HasFate(Replay(Fresh, events), ticket, Rejected(Cancelled))
  {
    FatesComeFromEvents(events, ticket, Resolved);
    FatesComeFromEvents(events, ticket, Rejected(OperationFailed));
    FatesComeFromEvents(events, ticket, Rejected(CleanupIncomplete));
    FatesComeFromEvents(events, ticket, Rejected(Cancelled));
    forall n: nat | n < |events|
      ensures events[n] == Complete(ticket, Succeeded) ==> SettlesAt(events, n, ticket, Resolved)
      ensures events[n] == Complete(ticket, Failed) ==> SettlesAt(events, n, ticket, Rejected(OperationFailed))
      ensures events[n] == Complete(ticket, CleanupFailed) ==>
                SettlesAt(events, n, ticket, Rejected(CleanupIncomplete))
      ensures events[n] == Begin(ticket, true) ==> SettlesAt(events, n, ticket, Rejected(Cancelled))
    {
    }
  }

  ghost predicate FailedCleanup(events: seq<Event>) { exists ticket :: Complete(ticket, CleanupFailed) in events }

  lemma StepBlocks(gate: Gate, event: Event)
    ensures After(gate, event).blocked
            <==> gate.blocked || event == Block || (event.Complete? && event.outcome == CleanupFailed)
  {
  }

  lemma OneMoreCleanup(events: seq<Event>, event: Event)
    ensures FailedCleanup(events + [event])
            <==> FailedCleanup(events) || (event.Complete? && event.outcome == CleanupFailed)
  {
    assert forall ticket :: Complete(ticket, CleanupFailed) in events + [event]
             <==> Complete(ticket, CleanupFailed) in events || event == Complete(ticket, CleanupFailed);
    if event.Complete? && event.outcome == CleanupFailed {
      assert Complete(event.ticket, CleanupFailed) in events + [event];
    }
  }

  /** The gate is blocked exactly when it was told to be, or an operation could not clean up. */
  lemma {:induction false} WhatBlocks(events: seq<Event>)
    requires Run(Fresh, events)
    ensures Replay(Fresh, events).blocked <==> Block in events || FailedCleanup(events)
  {
    if events != [] {
      var init, last := events[..|events| - 1], events[|events| - 1];
      assert events == init + [last];
      WhatBlocks(init);
      StepBlocks(Replay(Fresh, init), last);
      OneMoreCleanup(init, last);
    }
  }

  predicate BegunIn(events: seq<Event>, ticket: Ticket) {
    Begin(ticket, false) in events || Begin(ticket, true) in events
  }

  predicate CompletedIn(events: seq<Event>, ticket: Ticket) {
    || Complete(ticket, Succeeded) in events || Complete(ticket, Failed) in events
    || Complete(ticket, CleanupFailed) in events
  }

  predicate InPhase(gate: Gate, ticket: Ticket, phase: Phase) {
    ticket in gate.running && gate.running[ticket] == phase
  }

  /** Where a task that was started stands is told by its own events, which come in their order. */
  ghost predicate Told(gate: Gate, events: seq<Event>, ticket: Ticket) {
    && (BegunIn(events, ticket) ==> ticket in gate.started)
    && (CompletedIn(events, ticket) ==> Begin(ticket, false) in events)
    && (Release(ticket) in events ==> CompletedIn(events, ticket) || Begin(ticket, true) in events)
    && !(Begin(ticket, false) in events && Begin(ticket, true) in events)
    && (InPhase(gate, ticket, Starting) <==> ticket in gate.started && !BegunIn(events, ticket))
    && (InPhase(gate, ticket, Operating) <==> Begin(ticket, false) in events && !CompletedIn(events, ticket))
    && (InPhase(gate, ticket, Settling) <==>
          (CompletedIn(events, ticket) || Begin(ticket, true) in events) && Release(ticket) !in events)
  }

  lemma {:induction false} PhasesAreTold(events: seq<Event>, ticket: Ticket)
    requires Run(Fresh, events)
    ensures Told(Replay(Fresh, events), events, ticket)
  {
    if events != [] {
      var init, last := events[..|events| - 1], events[|events| - 1];
      assert events == init + [last];
      assert forall event :: event in events <==> event in init || event == last;
      PhasesAreTold(init, ticket);
      EveryRunIsSound(init);
      StepTells(Replay(Fresh, init), init, last, ticket);
    }
  }

  predicate Begins(event: Event, ticket: Ticket) { event == Begin(ticket, false) || event == Begin(ticket, true) }

  predicate Completes(event: Event, ticket: Ticket) {
    event == Complete(ticket, Succeeded) || event == Complete(ticket, Failed)
      || event == Complete(ticket, CleanupFailed)
  }

  /** A task moves on by its own events, and starts when it gets the gate. */
  lemma PhasesMove(gate: Gate, event: Event, ticket: Ticket)
    requires Sound(gate) && Enabled(gate, event)
    ensures var after := After(gate, event);
            && (ticket in gate.started ==> ticket in after.started)
            && (InPhase(after, ticket, Starting) <==>
                  || (InPhase(gate, ticket, Starting) && !Begins(event, ticket))
                  || (ticket in after.started && ticket !in gate.started))
            && (InPhase(after, ticket, Operating) <==>
                  (InPhase(gate, ticket, Operating) && !Completes(event, ticket)) || event == Begin(ticket, false))
            && (InPhase(after, ticket, Settling) <==>
                  || (InPhase(gate, ticket, Settling) && event != Release(ticket))
                  || event == Begin(ticket, true) || Completes(event, ticket))
  {
    StartsFromQueue(gate, ticket);
    assert ticket == gate.next ==> !Waits(gate, ticket) && !Works(gate, ticket) && !Done(gate, ticket);
  }

  lemma StepTells(gate: Gate, events: seq<Event>, event: Event, ticket: Ticket)
    requires Sound(gate) && Enabled(gate, event) && Told(gate, events, ticket)
    ensures Told(After(gate, event), events + [event], ticket)
  {
    PhasesMove(gate, event, ticket);
    StartsFromQueue(gate, ticket);
    OnlyInPhase(gate, event, ticket);
    assert forall other :: other in events + [event] <==> other in events || other == event;
  }

  lemma OnlyInPhase(gate: Gate, event: Event, ticket: Ticket)
    requires Enabled(gate, event)
    ensures Begins(event, ticket) ==> InPhase(gate, ticket, Starting)
    ensures Completes(event, ticket) ==> InPhase(gate, ticket, Operating)
    ensures event == Release(ticket) ==> InPhase(gate, ticket, Settling)
  {
  }

  lemma StartsFromQueue(gate: Gate, ticket: Ticket)
    requires Sound(gate)
    ensures ticket in gate.started ==> ticket !in gate.waiting && ticket < gate.next
    ensures ticket in gate.running ==> ticket in gate.started
  {
    RisingParts(gate.started, gate.waiting, gate.next, ticket);
  }

  /**
   Tasks can be submitted and aborted and the gate blocked at any time. The task that holds the
   gate can always take its next step, whatever its signal or its operation does, and no other.
  */
  lemma WhatCanHappen(gate: Gate, ticket: Ticket, flag: bool, outcome: Outcome)
    requires Sound(gate)
    ensures Enabled(gate, Submit(flag)) && Enabled(gate, Abort(ticket)) && Enabled(gate, Block)
    ensures Enabled(gate, Begin(ticket, flag)) <==> InPhase(gate, ticket, Starting)
    ensures Enabled(gate, Complete(ticket, outcome)) <==> InPhase(gate, ticket, Operating)
    ensures Enabled(gate, Release(ticket)) <==> InPhase(gate, ticket, Settling)
    ensures gate.active ==>
              gate.started != []
              && (ticket == gate.started[|gate.started| - 1] <==>
                    Enabled(gate, Begin(ticket, flag)) || Enabled(gate, Complete(ticket, outcome))
                    || Enabled(gate, Release(ticket)))
  {
    assert ticket in gate.running.Keys <==> ticket in gate.running;
  }
}
