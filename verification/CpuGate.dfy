/** The gate that lets one CPU-heavy operation run at a time, with a bounded queue and a permanent block. */
module CpuGate {
  import opened Sequences

  const CAPACITY := 32

  type Ticket = nat
  datatype Phase = Starting | Operating | Settling
  datatype Reason = CleanupIncomplete | Cancelled | QueueFull | OperationFailed
  datatype Fate = Resolved | Rejected(reason: Reason)

  /**
   The queue and the two flags of the program, and beside them what has become of every task: `running`
   has the tasks that were started and have not given the gate back.
  */
  datatype Gate = Gate(
    waiting: seq<Ticket>, active: bool, blocked: bool,
    next: Ticket, started: seq<Ticket>, running: map<Ticket, Phase>, fates: map<Ticket, Fate>)

  const Fresh := Gate([], false, false, 0, [], map[], map[])

  // ----- steps

  function Pumped(gate: Gate): Gate {
    if gate.active || gate.waiting == [] then gate
    else
      var ticket := gate.waiting[0];
      Gate(gate.waiting[1..], true, gate.blocked, gate.next, gate.started + [ticket], gate.running[ticket := Starting],
           gate.fates)
  }

  function Refused(gate: Gate, reason: Reason): Gate {
    Gate(gate.waiting, gate.active, gate.blocked, gate.next + 1, gate.started, gate.running,
         gate.fates[gate.next := Rejected(reason)])
  }

  function Enqueued(gate: Gate): Gate {
    Gate(gate.waiting + [gate.next], gate.active, gate.blocked, gate.next + 1, gate.started, gate.running, gate.fates)
  }

  function Submitted(gate: Gate, aborted: bool): Gate {
    if gate.blocked then Refused(gate, CleanupIncomplete)
    else if aborted then Refused(gate, Cancelled)
    else if |gate.waiting| >= CAPACITY then Refused(gate, QueueFull)
    else Pumped(Enqueued(gate))
  }

  /** An abort while a task waits takes it out of the queue. */
  function Aborted(gate: Gate, ticket: Ticket): Gate {
    var index := Find(gate.waiting, ticket);
    if index < 0 then gate
    else Gate(gate.waiting[..index] + gate.waiting[index + 1..], gate.active, gate.blocked, gate.next, gate.started,
              gate.running, gate.fates[ticket := Rejected(Cancelled)])
  }

  function BlockedFates(waiting: seq<Ticket>): map<Ticket, Fate> {
    map ticket | ticket in waiting :: Rejected(CleanupIncomplete)
  }

  function Blocked(gate: Gate): Gate {
    Gate([], gate.active, true, gate.next, gate.started, gate.running, gate.fates + BlockedFates(gate.waiting))
  }

  function Settled(gate: Gate, ticket: Ticket, fate: Fate): Gate {
    Gate(gate.waiting, gate.active, gate.blocked, gate.next, gate.started, gate.running[ticket := Settling],
         gate.fates[ticket := fate])
  }

  /** The operation is called, unless its signal was aborted since it was started. */
  function Begun(gate: Gate, ticket: Ticket, aborted: bool): Gate {
    if aborted then Settled(gate, ticket, Rejected(Cancelled))
    else Gate(gate.waiting, gate.active, gate.blocked, gate.next, gate.started, gate.running[ticket := Operating],
              gate.fates)
  }

  datatype Outcome = Succeeded | Failed | CleanupFailed

  function Completed(gate: Gate, ticket: Ticket, outcome: Outcome): Gate {
    match outcome
    case Succeeded => Settled(gate, ticket, Resolved)
    case Failed => Settled(gate, ticket, Rejected(OperationFailed))
    case CleanupFailed => Settled(Blocked(gate), ticket, Rejected(CleanupIncomplete))
  }

  function Released(gate: Gate, ticket: Ticket): Gate {
    Pumped(Gate(gate.waiting, false, gate.blocked, gate.next, gate.started, gate.running - {ticket}, gate.fates))
  }

  datatype Event =
    | Submit(aborted: bool) | Abort(ticket: Ticket) | Block
    | Begin(ticket: Ticket, abortedSince: bool) | Complete(ticket: Ticket, outcome: Outcome) | Release(ticket: Ticket)

  predicate Enabled(gate: Gate, event: Event) {
    match event
    case Submit(_) => true
    case Abort(_) => true
    case Block => true
    case Begin(ticket, _) => ticket in gate.running && gate.running[ticket] == Starting
    case Complete(ticket, _) => ticket in gate.running && gate.running[ticket] == Operating
    case Release(ticket) => ticket in gate.running && gate.running[ticket] == Settling
  }

  function After(gate: Gate, event: Event): Gate {
    match event
    case Submit(aborted) => Submitted(gate, aborted)
    case Abort(ticket) => Aborted(gate, ticket)
    case Block => Blocked(gate)
    case Begin(ticket, aborted) => Begun(gate, ticket, aborted)
    case Complete(ticket, outcome) => Completed(gate, ticket, outcome)
    case Release(ticket) => Released(gate, ticket)
  }

  // ----- what every step keeps

  ghost predicate Rising(s: seq<Ticket>, below: Ticket) {
    && (forall i, j :: 0 <= i < j < |s| ==> s[i] < s[j])
    && (forall i :: 0 <= i < |s| ==> s[i] < below)
  }

  /** At most one task holds the gate, and it is the one started last. */
  ghost predicate OneRunning(gate: Gate) {
    if gate.active then gate.started != [] && gate.running.Keys == {gate.started[|gate.started| - 1]}
    else gate.running == map[]
  }

  predicate Waits(gate: Gate, ticket: Ticket) { ticket in gate.waiting }
  predicate Works(gate: Gate, ticket: Ticket) { ticket in gate.running && gate.running[ticket] != Settling }
  predicate Done(gate: Gate, ticket: Ticket) { ticket in gate.fates }

  /** Every submitted task waits, works or has its fate, and never two of these. */
  ghost predicate Accounted(gate: Gate) {
    forall ticket: Ticket {:trigger Waits(gate, ticket)} {:trigger Works(gate, ticket)} {:trigger Done(gate, ticket)} ::
      && (ticket < gate.next ==> Waits(gate, ticket) || Works(gate, ticket) || Done(gate, ticket))
      && (Waits(gate, ticket) || Works(gate, ticket) || Done(gate, ticket) ==> ticket < gate.next)
      && !(Waits(gate, ticket) && Works(gate, ticket)) && !(Waits(gate, ticket) && Done(gate, ticket))
      && !(Works(gate, ticket) && Done(gate, ticket))
  }

  ghost predicate Sound(gate: Gate) {
    && |gate.waiting| <= CAPACITY
    && (gate.blocked || !gate.active ==> gate.waiting == [])
    && Rising(gate.started + gate.waiting, gate.next)
    && OneRunning(gate)
    && Accounted(gate)
  }

  lemma RisingParts(a: seq<Ticket>, b: seq<Ticket>, below: Ticket, ticket: Ticket)
    requires Rising(a + b, below)
    ensures ticket in b ==> ticket !in a && ticket < below
    ensures Rising(a, below) && Rising(b, below)
  {
    var all := a + b;
    assert forall i :: 0 <= i < |a| ==> all[i] == a[i];
    assert forall i :: 0 <= i < |b| ==> all[|a| + i] == b[i];
  }

  /** A sound gate, except that it may be idle with tasks waiting. */
  ghost predicate Unpumped(gate: Gate) {
    && |gate.waiting| <= CAPACITY
    && (gate.blocked ==> gate.waiting == [])
    && Rising(gate.started + gate.waiting, gate.next)
    && OneRunning(gate)
    && Accounted(gate)
  }

  lemma HeadIsNotBehind(gate: Gate, ticket: Ticket)
    requires Rising(gate.started + gate.waiting, gate.next) && gate.waiting != []
    ensures Waits(gate, ticket) <==> ticket == gate.waiting[0] || ticket in gate.waiting[1..]
    ensures gate.waiting[0] !in gate.waiting[1..]
  {
    RisingParts(gate.started, gate.waiting, gate.next, ticket);
    assert gate.waiting == [gate.waiting[0]] + gate.waiting[1..];
    RisingParts([gate.waiting[0]], gate.waiting[1..], gate.next, gate.waiting[0]);
  }

  lemma PumpingIsSound(gate: Gate)
    requires Unpumped(gate)
    ensures Sound(Pumped(gate))
  {
    if !gate.active && gate.waiting != [] {
      var after, head := Pumped(gate), gate.waiting[0];
      assert after.started + after.waiting == gate.started + gate.waiting;
      forall ticket: Ticket
        ensures Waits(after, ticket) <==> Waits(gate, ticket) && ticket != head
        ensures Works(after, ticket) <==> Works(gate, ticket) || ticket == head
      {
        HeadIsNotBehind(gate, ticket);
      }
      assert Waits(gate, head);
      assert forall ticket: Ticket :: Done(after, ticket) <==> Done(gate, ticket);
    }
  }

  lemma QueueingIsUnpumped(gate: Gate)
    requires Sound(gate) && !gate.blocked && |gate.waiting| < CAPACITY
    ensures Unpumped(Enqueued(gate))
  {
    var queued := Enqueued(gate);
    assert queued.started + queued.waiting == gate.started + gate.waiting + [gate.next];
    assert forall ticket: Ticket :: Waits(queued, ticket) <==> Waits(gate, ticket) || ticket == gate.next;
    assert !Waits(gate, gate.next) && !Works(gate, gate.next) && !Done(gate, gate.next);
    assert forall ticket: Ticket :: Works(queued, ticket) == Works(gate, ticket)
             && Done(queued, ticket) == Done(gate, ticket);
  }

  lemma SubmitKeeps(gate: Gate, aborted: bool)
    requires Sound(gate)
    ensures Sound(Submitted(gate, aborted))
  {
    if gate.blocked || aborted || |gate.waiting| >= CAPACITY {
      RefusalKeeps(gate, if gate.blocked then CleanupIncomplete else if aborted then Cancelled else QueueFull);
    } else {
      QueueingIsUnpumped(gate);
      PumpingIsSound(Enqueued(gate));
    }
  }

  lemma RefusalKeeps(gate: Gate, reason: Reason)
    requires Sound(gate)
    ensures Sound(Refused(gate, reason))
  {
    var after := Refused(gate, reason);
    assert !Waits(gate, gate.next) && !Works(gate, gate.next) && !Done(gate, gate.next);
    assert forall ticket: Ticket :: Waits(after, ticket) == Waits(gate, ticket)
             && Works(after, ticket) == Works(gate, ticket);
    assert forall ticket: Ticket :: Done(after, ticket) <==> Done(gate, ticket) || ticket == gate.next;
  }

  lemma WithoutOne(started: seq<Ticket>, waiting: seq<Ticket>, index: nat, below: Ticket, ticket: Ticket)
    requires Rising(started + waiting, below) && index < |waiting|
    ensures var left := waiting[..index] + waiting[index + 1..];
            Rising(started + left, below) && (ticket in left <==> ticket in waiting && ticket != waiting[index])
  {
    var left, all := waiting[..index] + waiting[index + 1..], started + waiting;
    SplitAround(waiting, index);
    RisingParts(started, waiting, below, ticket);
    forall i, j | 0 <= i < j < |started + left|
      ensures (started + left)[i] < (started + left)[j]
    {
      var p := if i < |started| + index then i else i + 1;
      var q := if j < |started| + index then j else j + 1;
      assert (started + left)[i] == all[p] && (started + left)[j] == all[q];
    }
    forall i | 0 <= i < |started + left|
      ensures (started + left)[i] < below
    {
      assert (started + left)[i] == all[if i < |started| + index then i else i + 1];
    }
  }

  lemma AbortKeeps(gate: Gate, ticket: Ticket)
    requires Sound(gate)
    ensures Sound(Aborted(gate, ticket))
  {
    var index := Find(gate.waiting, ticket);
    if index >= 0 {
      var after := Aborted(gate, ticket);
      forall other: Ticket
        ensures Waits(after, other) <==> Waits(gate, other) && other != ticket
      {
        WithoutOne(gate.started, gate.waiting, index, gate.next, other);
      }
      WithoutOne(gate.started, gate.waiting, index, gate.next, ticket);
      assert Waits(gate, ticket);
      assert forall other: Ticket :: Works(after, other) == Works(gate, other);
      assert forall other: Ticket :: Done(after, other) <==> Done(gate, other) || other == ticket;
    }
  }

  lemma BlockKeeps(gate: Gate)
    requires Sound(gate)
    ensures Sound(Blocked(gate))
  {
    var after := Blocked(gate);
    RisingParts(gate.started, gate.waiting, gate.next, 0);
    assert gate.started + [] == gate.started;
    assert forall ticket: Ticket :: !Waits(after, ticket) && Works(after, ticket) == Works(gate, ticket);
    assert forall ticket: Ticket :: Done(after, ticket) <==> Done(gate, ticket) || Waits(gate, ticket);
  }

  lemma SettlingKeeps(gate: Gate, ticket: Ticket, fate: Fate)
    requires Sound(gate) && Works(gate, ticket)
    ensures Sound(Settled(gate, ticket, fate))
  {
    var after := Settled(gate, ticket, fate);
    assert after.running.Keys == gate.running.Keys;
    assert forall other: Ticket :: Waits(after, other) == Waits(gate, other);
    assert forall other: Ticket :: Works(after, other) <==> Works(gate, other) && other != ticket;
    assert forall other: Ticket :: Done(after, other) <==> Done(gate, other) || other == ticket;
  }

  lemma BeginKeeps(gate: Gate, ticket: Ticket, aborted: bool)
    requires Sound(gate) && ticket in gate.running && gate.running[ticket] == Starting
    ensures Sound(Begun(gate, ticket, aborted))
  {
    if aborted {
      SettlingKeeps(gate, ticket, Rejected(Cancelled));
    } else {
      var after := Begun(gate, ticket, aborted);
      assert after.running.Keys == gate.running.Keys;
      assert forall other: Ticket ::
        Waits(after, other) == Waits(gate, other) && Works(after, other) == Works(gate, other)
          && Done(after, other) == Done(gate, other);
    }
  }

  lemma CompleteKeeps(gate: Gate, ticket: Ticket, outcome: Outcome)
    requires Sound(gate) && ticket in gate.running && gate.running[ticket] == Operating
    ensures Sound(Completed(gate, ticket, outcome))
  {
    if outcome == CleanupFailed {
      BlockKeeps(gate);
      SettlingKeeps(Blocked(gate), ticket, Rejected(CleanupIncomplete));
    } else {
      SettlingKeeps(gate, ticket, if outcome == Succeeded then Resolved else Rejected(OperationFailed));
    }
  }

  lemma ReleasingIsUnpumped(gate: Gate, ticket: Ticket)
    requires Sound(gate) && ticket in gate.running && gate.running[ticket] == Settling
    ensures Unpumped(Gate(gate.waiting, false, gate.blocked, gate.next, gate.started, gate.running - {ticket},
                          gate.fates))
  {
    var idle := Gate(gate.waiting, false, gate.blocked, gate.next, gate.started, gate.running - {ticket}, gate.fates);
    assert ticket in gate.running.Keys;
    assert idle.running == map[];
    assert forall other: Ticket ::
      Waits(idle, other) == Waits(gate, other) && Works(idle, other) == Works(gate, other)
        && Done(idle, other) == Done(gate, other);
  }

  lemma ReleaseKeeps(gate: Gate, ticket: Ticket)
    requires Sound(gate) && ticket in gate.running && gate.running[ticket] == Settling
    ensures Sound(Released(gate, ticket))
  {
    ReleasingIsUnpumped(gate, ticket);
    PumpingIsSound(Gate(gate.waiting, false, gate.blocked, gate.next, gate.started, gate.running - {ticket},
                        gate.fates));
  }

  lemma StepKeeps(gate: Gate, event: Event)
    requires Sound(gate) && Enabled(gate, event)
    ensures Sound(After(gate, event))
  {
    match event
    case Submit(aborted) => SubmitKeeps(gate, aborted);
    case Abort(ticket) => AbortKeeps(gate, ticket);
    case Block => BlockKeeps(gate);
    case Begin(ticket, aborted) => BeginKeeps(gate, ticket, aborted);
    case Complete(ticket, outcome) => CompleteKeeps(gate, ticket, outcome);
    case Release(ticket) => ReleaseKeeps(gate, ticket);
  }

  // ----- whole runs

  function Replay(gate: Gate, events: seq<Event>): Gate {
    if events == [] then gate else After(Replay(gate, events[..|events| - 1]), events[|events| - 1])
  }

  /** Every event can happen when its turn comes. */
  ghost predicate Run(gate: Gate, events: seq<Event>) {
    events == [] || (Run(gate, events[..|events| - 1])
                     && Enabled(Replay(gate, events[..|events| - 1]), events[|events| - 1]))
  }

  /**
   In every run: one task at a time, a bounded queue, an idle
   gate with none, every task accounted for, starts in order.
  */
  lemma {:induction false} EveryRunIsSound(events: seq<Event>)
    requires Run(Fresh, events)
    ensures Sound(Replay(Fresh, events))
  {
    if events != [] {
      EveryRunIsSound(events[..|events| - 1]);
      StepKeeps(Replay(Fresh, events[..|events| - 1]), events[|events| - 1]);
    }
  }

  /** A fate is final, and what has started stays started, in this order. */
  lemma {:induction false} FatesAreFinal(gate: Gate, events: seq<Event>, ticket: Ticket)
    requires Sound(gate) && Run(gate, events) && ticket in gate.fates
    ensures Sound(Replay(gate, events))
    ensures ticket in Replay(gate, events).fates && Replay(gate, events).fates[ticket] == gate.fates[ticket]
  {
    if events != [] {
      var before, event := Replay(gate, events[..|events| - 1]), events[|events| - 1];
      FatesAreFinal(gate, events[..|events| - 1], ticket);
      StepKeeps(before, event);
      FateIsKept(before, event, ticket);
    }
  }

  lemma FateIsKept(gate: Gate, event: Event, ticket: Ticket)
    requires Sound(gate) && Enabled(gate, event) && ticket in gate.fates
    ensures ticket in After(gate, event).fates && After(gate, event).fates[ticket] == gate.fates[ticket]
  {
    assert Done(gate, ticket) && ticket < gate.next && !Waits(gate, ticket) && !Works(gate, ticket);
    match event
    case Begin(other, _) => assert Works(gate, other);
    case Complete(other, _) => assert Works(gate, other);
    case _ =>
  }

  /** Once the gate is blocked, it stays blocked and no further task starts. */
  lemma {:induction false} NothingStartsAfterABlock(gate: Gate, events: seq<Event>)
    requires Sound(gate) && gate.blocked && Run(gate, events)
    ensures Sound(Replay(gate, events)) && Replay(gate, events).blocked
    ensures Replay(gate, events).started == gate.started
  {
    if events != [] {
      var before, event := Replay(gate, events[..|events| - 1]), events[|events| - 1];
      NothingStartsAfterABlock(gate, events[..|events| - 1]);
      StepKeeps(before, event);
      assert before.waiting == [];
    }
  }

  // ----- the program's state

  class Controller {
    var waiting: seq<Ticket>
    var active: bool
    var blocked: bool
    /** What the tasks' promises and the event loop hold. */
    ghost var gate: Gate

    ghost predicate Valid() reads this {
      Sound(gate) && waiting == gate.waiting && active == gate.active && blocked == gate.blocked
    }

    constructor ()
      ensures Valid() && gate == Fresh
    {
      waiting, active, blocked := [], false, false;
      gate := Fresh;
      new;
      EveryRunIsSound([]);
    }

    method BlockAfterIncompleteCleanup()
      requires Valid()
      modifies this
      ensures Valid() && gate == Blocked(old(gate))
    {
      BlockKeeps(gate);
      blocked := true;
      waiting := [];
      gate := Blocked(gate);
    }

    method Pump()
      requires Unpumped(gate) && waiting == gate.waiting && active == gate.active && blocked == gate.blocked
      modifies this
      ensures Valid() && gate == Pumped(old(gate))
    {
      PumpingIsSound(gate);
      if !active && waiting != [] {
        waiting := waiting[1..];
        active := true;
      }
      gate := Pumped(gate);
    }

    /** Returns whether the task was queued; a refused task has its fate at once. */
    method WithCpuWork(ticket: Ticket, aborted: bool) returns (queued: bool)
      requires Valid() && ticket == gate.next
      modifies this
      ensures Valid() && gate == Submitted(old(gate), aborted)
      ensures queued <==> !old(blocked) && !aborted && |old(waiting)| < CAPACITY
    {
      SubmitKeeps(gate, aborted);
      queued := !blocked && !aborted && |waiting| < CAPACITY;
      if !queued {
        gate := Submitted(gate, aborted);
      } else {
        Enqueue(ticket);
        Pump();
      }
    }

    method Enqueue(ticket: Ticket)
      requires Valid() && !blocked && |waiting| < CAPACITY && ticket == gate.next
      modifies this
      ensures Unpumped(gate) && waiting == gate.waiting && active == gate.active && blocked == gate.blocked
      ensures gate == Enqueued(old(gate))
    {
      QueueingIsUnpumped(gate);
      waiting := waiting + [ticket];
      gate := Enqueued(gate);
    }

    method Cancel(ticket: Ticket)
      requires Valid()
      modifies this
      ensures Valid() && gate == Aborted(old(gate), ticket)
    {
      AbortKeeps(gate, ticket);
      ghost var after := Aborted(gate, ticket);
      assert gate.waiting == waiting;
      var index := Find(waiting, ticket);
      if index < 0 {
        return;
      }
      waiting := waiting[..index] + waiting[index + 1..];
      gate := after;
    }

    /** The microtask of a started task: the operation is called, or its promise rejected. */
    method Begin(ticket: Ticket, aborted: bool) returns (called: bool)
      requires Valid() && ticket in gate.running && gate.running[ticket] == Starting
      modifies this
      ensures Valid() && gate == Begun(old(gate), ticket, aborted) && called == !aborted
    {
      BeginKeeps(gate, ticket, aborted);
      gate := Begun(gate, ticket, aborted);
      called := !aborted;
    }

    method Settle(ticket: Ticket, outcome: Outcome)
      requires Valid() && ticket in gate.running && gate.running[ticket] == Operating
      modifies this
      ensures Valid() && gate == Completed(old(gate), ticket, outcome)
    {
      CompleteKeeps(gate, ticket, outcome);
      ghost var after := Completed(gate, ticket, outcome);
      if outcome == CleanupFailed {
        BlockAfterIncompleteCleanup();
      }
      gate := after;
    }

    method Finally(ticket: Ticket)
      requires Valid() && ticket in gate.running && gate.running[ticket] == Settling
      modifies this
      ensures Valid() && gate == Released(old(gate), ticket)
    {
      ReleasingIsUnpumped(gate, ticket);
      active := false;
      gate := Gate(waiting, false, blocked, gate.next, gate.started, gate.running - {ticket}, gate.fates);
      Pump();
    }
  }
}
