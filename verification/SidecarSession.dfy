/**
 A sidecar session: one thread reads a cancellation from the host, one decodes, and the main loop writes
 numbered frames. The steps of the three interleave in every possible way.
*/
module SidecarSession {
  import opened Wrappers

  datatype Kind = Handshake | Heartbeat | CancelAck | ResultFrame | ErrorFrame | CleanupComplete
  datatype Frame = Frame(sequence: nat, kind: Kind)

  predicate Terminal(kind: Kind) { kind == ResultFrame || kind == ErrorFrame || kind == CleanupComplete }

  /** What the decode thread reports, once. */
  datatype Outcome = Decoded(valid: bool) | DecodeCancelled | DecodeFailed(inCleanup: bool) | AnalysisFailed

  /** What the control thread reads: the end of its input, a malformed frame, or a cancellation. */
  datatype Message = CleanEnd | Malformed | Cancel(identityMatches: bool, sequence: int)

  datatype Event = FromControl(message: Message) | FromDecode(outcome: Outcome)

  /** The control thread sets the cancellation flag before it queues what it has read. */
  datatype Control = Reading | Flagged(message: Message) | Quiet
  datatype Phase = Starting | Preloading | Serving | Returned | Raised

  datatype Session = Session(
    phase: Phase,
    control: Control, cancellation: bool, outcome: Option<Outcome>, queue: seq<Event>,
    sequence: nat, cancelReceived: bool, decodeFinished: bool, cleanupFailed: bool,
    frames: seq<Frame>)

  const Fresh := Session(Starting, Reading, false, None, [], 0, false, false, false, [])

  // ----- writing

  function Wrote(session: Session, kind: Kind): Session {
    session.(frames := session.frames + [Frame(session.sequence, kind)], sequence := session.sequence + 1)
  }

  function Ended(session: Session, phase: Phase): Session { session.(phase := phase) }

  /** The last frame after a cancellation: complete only if nothing about the cleanup failed. */
  function CleanedUp(session: Session, forceFailure: bool, cleaned: bool): Session {
    Ended(Wrote(session, if forceFailure || !cleaned then ErrorFrame else CleanupComplete), Returned)
  }

  // ----- the main loop

  predicate CancelMatches(message: Message, sequence: nat) {
    message.Cancel? && message.identityMatches && 1 <= message.sequence <= sequence
  }

  function TakeControl(session: Session, message: Message, cleaned: bool): Session {
    if !CancelMatches(message, session.sequence) then Ended(session, Raised)
    else
      var acknowledged := Wrote(session.(cancelReceived := true), CancelAck);
      if session.decodeFinished then CleanedUp(acknowledged, session.cleanupFailed, cleaned) else acknowledged
  }

  /** A result is put back while a cancellation is on its way, and written only if there is none. */
  function TakeResult(session: Session, outcome: Outcome, cleaned: bool): Session
    requires outcome.Decoded?
  {
    var finished := session.(decodeFinished := true);
    if !session.cancelReceived && session.cancellation then finished.(queue := session.queue + [FromDecode(outcome)])
    else if session.cancelReceived then CleanedUp(finished, false, cleaned)
    else if !outcome.valid then Ended(finished, Raised)
    else Ended(Wrote(finished, ResultFrame), Returned)
  }

  function TakeFailure(session: Session, outcome: Outcome, cleaned: bool): Session {
    var failed := outcome.DecodeFailed? && outcome.inCleanup;
    var finished := session.(decodeFinished := true, cleanupFailed := failed);
    if session.cancelReceived then CleanedUp(finished, failed, cleaned)
    else if session.cancellation then finished
    else Ended(Wrote(finished, ErrorFrame), Returned)
  }

  function Take(session: Session, cleaned: bool): Session
    requires session.queue != []
  {
    var rest := session.(queue := session.queue[1..]);
    match session.queue[0]
    case FromControl(message) => TakeControl(rest, message, cleaned)
    case FromDecode(outcome) =>
      if outcome.Decoded? then TakeResult(rest, outcome, cleaned) else TakeFailure(rest, outcome, cleaned)
  }

  function TimedOut(session: Session): Session {
    if !session.cancelReceived && !session.decodeFinished then Wrote(session, Heartbeat) else session
  }

  // ----- steps of the three threads

  datatype Step =
    | Start(hashMatches: bool, preload: bool)
    | PreloadHeartbeat
    | Preloaded(written: bool)
    | ControlReads(message: Message)
    | ControlQueues
    | DecodeEnds(outcome: Outcome)
    | MainTimesOut
    | MainTakes(cleaned: bool)

  predicate Enabled(session: Session, step: Step) {
    match step
    case Start(_, _) => session.phase == Starting
    case PreloadHeartbeat => session.phase == Preloading
    case Preloaded(_) => session.phase == Preloading
    case ControlReads(_) => session.phase == Serving && session.control == Reading
    case ControlQueues => session.phase == Serving && session.control.Flagged?
    case DecodeEnds(_) => session.phase == Serving && session.outcome == None
    case MainTimesOut => session.phase == Serving && session.queue == []
    case MainTakes(_) => session.phase == Serving && session.queue != []
  }

  function After(session: Session, step: Step): Session
    requires Enabled(session, step)
  {
    match step
    case Start(hashMatches, preload) =>
      Ended(Wrote(session, Handshake), if !hashMatches then Returned else if preload then Preloading else Serving)
    case PreloadHeartbeat => Wrote(session, Heartbeat)
    case Preloaded(written) => Ended(session, if written then Serving else Raised)
    case ControlReads(message) =>
      if message == CleanEnd then session.(control := Quiet)
        else session.(control := Flagged(message), cancellation := true)
    case ControlQueues => session.(control := Quiet, queue := session.queue + [FromControl(session.control.message)])
    case DecodeEnds(outcome) => session.(outcome := Some(outcome), queue := session.queue + [FromDecode(outcome)])
    case MainTimesOut => TimedOut(session)
    case MainTakes(cleaned) => Take(session, cleaned)
  }

  // ----- what every step keeps

  /** Frames are numbered from zero without a gap. */
  ghost predicate Numbered(session: Session) {
    session.sequence == |session.frames| && forall i :: 0 <= i < |session.frames| ==> session.frames[i].sequence == i
  }

  /** Only the last frame may be terminal, and then the session is over. */
  ghost predicate TerminalIsLast(session: Session) {
    && (forall i :: 0 <= i < |session.frames| - 1 ==> !Terminal(session.frames[i].kind))
    && (session.frames != [] && Terminal(session.frames[|session.frames| - 1].kind) ==> session.phase == Returned)
  }

  ghost predicate Shows(frames: seq<Frame>, kind: Kind) { exists i :: 0 <= i < |frames| && frames[i].kind == kind }

  /** An acknowledgement and a result exclude each other; nothing beats while a cancellation is being served. */
  ghost predicate AckFits(session: Session) {
    && (session.cancelReceived <==> Shows(session.frames, CancelAck))
    && (session.cancelReceived ==> !Shows(session.frames, ResultFrame))
    && (session.cancelReceived ==> session.cancellation)
  }

  predicate InCleanup(outcome: Option<Outcome>) {
    outcome.Some? && outcome.value.DecodeFailed? && outcome.value.inCleanup
  }

  /** What the loop knows about the decode is what the decode reported. */
  ghost predicate OutcomeFits(session: Session) {
    && (session.decodeFinished ==> session.outcome.Some?)
    && session.cleanupFailed == (session.decodeFinished && InCleanup(session.outcome))
    && (forall i :: 0 <= i < |session.queue| && session.queue[i].FromDecode? ==>
          session.outcome == Some(session.queue[i].outcome))
    && (InCleanup(session.outcome) ==> !Shows(session.frames, CleanupComplete))
    && (Shows(session.frames, CleanupComplete) ==> session.cancelReceived)
  }

  ghost predicate FlagFits(session: Session) {
    && (session.control.Flagged? ==> session.cancellation)
    && (forall i :: 0 <= i < |session.queue| && session.queue[i].FromControl? ==> session.cancellation)
    && (session.phase == Starting ==> session == Fresh)
    && (session.phase == Preloading ==> session.outcome == None && session.queue == [])
  }

  ghost predicate Sound(session: Session) {
    && Numbered(session) && TerminalIsLast(session) && AckFits(session) && OutcomeFits(session) && FlagFits(session)
  }

  lemma ShowsOneMore(frames: seq<Frame>, frame: Frame, kind: Kind)
    ensures Shows(frames + [frame], kind) <==> Shows(frames, kind) || frame.kind == kind
  {
    var all := frames + [frame];
    if Shows(frames, kind) {
      var i :| 0 <= i < |frames| && frames[i].kind == kind;
      assert all[i].kind == kind;
    }
    if frame.kind == kind {
      assert all[|frames|].kind == kind;
    }
  }

  /** Writing keeps numbers in order; what else must hold depends on the frame. */
  lemma WritingKeeps(session: Session, kind: Kind)
    requires Numbered(session) && TerminalIsLast(session) && session.phase != Returned
    ensures Numbered(Wrote(session, kind))
    ensures forall i :: 0 <= i < |session.frames| ==> !Terminal(session.frames[i].kind)
    ensures forall other :: Shows(Wrote(session, kind).frames, other) <==> Shows(session.frames, other) || kind == other
  {
    forall other
      ensures Shows(Wrote(session, kind).frames, other) <==> Shows(session.frames, other) || kind == other
    {
      ShowsOneMore(session.frames, Frame(session.sequence, kind), other);
    }
  }

  lemma NoTerminalYet(session: Session)
    requires TerminalIsLast(session) && session.phase != Returned
    ensures !Shows(session.frames, ResultFrame) && !Shows(session.frames, CleanupComplete)
  {
  }

  lemma TakingControlIsSound(session: Session, message: Message, cleaned: bool)
    requires Sound(session) && session.phase == Serving && session.cancellation
    ensures Sound(TakeControl(session, message, cleaned))
  {
    NoTerminalYet(session);
    if CancelMatches(message, session.sequence) {
      var received := session.(cancelReceived := true);
      var acknowledged := Wrote(received, CancelAck);
      WritingKeeps(received, CancelAck);
      if session.decodeFinished {
        WritingKeeps(acknowledged, if session.cleanupFailed || !cleaned then ErrorFrame else CleanupComplete);
      }
    }
  }

  lemma CleaningUpIsSound(session: Session, forceFailure: bool, cleaned: bool)
    requires Sound(session) && session.phase == Serving && session.cancelReceived
             && (InCleanup(session.outcome) ==> forceFailure)
    ensures Sound(CleanedUp(session, forceFailure, cleaned))
    ensures var after := CleanedUp(session, forceFailure, cleaned);
            && after.phase == Returned && Shows(after.frames, CleanupComplete) == (!forceFailure && cleaned)
            && after.frames == session.frames
                 + [Frame(|session.frames|, if forceFailure || !cleaned then ErrorFrame else CleanupComplete)]
  {
    NoTerminalYet(session);
    WritingKeeps(session, if forceFailure || !cleaned then ErrorFrame else CleanupComplete);
  }

  lemma TakingResultIsSound(session: Session, outcome: Outcome, cleaned: bool)
    requires Sound(session) && session.phase == Serving && outcome.Decoded? && session.outcome == Some(outcome)
    ensures Sound(TakeResult(session, outcome, cleaned))
  {
    var finished := session.(decodeFinished := true);
    NoTerminalYet(session);
    if session.cancelReceived {
      CleaningUpIsSound(finished, false, cleaned);
    } else if !session.cancellation && outcome.valid {
      WritingKeeps(finished, ResultFrame);
    }
  }

  lemma TakingFailureIsSound(session: Session, outcome: Outcome, cleaned: bool)
    requires Sound(session) && session.phase == Serving && !outcome.Decoded? && session.outcome == Some(outcome)
    ensures Sound(TakeFailure(session, outcome, cleaned))
  {
    var failed := outcome.DecodeFailed? && outcome.inCleanup;
    var finished := session.(decodeFinished := true, cleanupFailed := failed);
    NoTerminalYet(session);
    if session.cancelReceived {
      CleaningUpIsSound(finished, failed, cleaned);
    } else if !session.cancellation {
      WritingKeeps(finished, ErrorFrame);
    }
  }

  lemma TakingIsSound(session: Session, cleaned: bool)
    requires Sound(session) && session.phase == Serving && session.queue != []
    ensures Sound(Take(session, cleaned))
  {
    var rest := session.(queue := session.queue[1..]);
    assert forall i :: 0 <= i < |rest.queue| ==> rest.queue[i] == session.queue[i + 1];
    match session.queue[0]
    case FromControl(message) => TakingControlIsSound(rest, message, cleaned);
    case FromDecode(outcome) =>
      if outcome.Decoded? {
        TakingResultIsSound(rest, outcome, cleaned);
      } else {
        TakingFailureIsSound(rest, outcome, cleaned);
      }
  }

  lemma StepIsSound(session: Session, step: Step)
    requires Sound(session) && Enabled(session, step)
    ensures Sound(After(session, step))
  {
    match step
    case Start(_, _) => WritingKeeps(session, Handshake);
    case PreloadHeartbeat => WritingKeeps(session, Heartbeat);
    case MainTimesOut => WritingKeeps(session, Heartbeat);
    case MainTakes(cleaned) => TakingIsSound(session, cleaned);
    case Preloaded(_) =>
    case DecodeEnds(outcome) => DecodeStepIsSound(session, outcome);
    case _ => ControlStepIsSound(session, step);
  }

  lemma ControlStepIsSound(session: Session, step: Step)
    requires Sound(session) && Enabled(session, step) && (step.ControlReads? || step.ControlQueues?)
    ensures Sound(After(session, step))
  {
  }

  lemma DecodeStepIsSound(session: Session, outcome: Outcome)
    requires Sound(session) && Enabled(session, DecodeEnds(outcome))
    ensures Sound(After(session, DecodeEnds(outcome)))
  {
    NoTerminalYet(session);
  }

  // ----- whole sessions

  /** The sessions of a run, each a step of some thread after the one before. */
  ghost predicate Run(sessions: seq<Session>, steps: seq<Step>) {
    && |sessions| == |steps| + 1 && sessions[0] == Fresh
    && forall n :: 0 <= n < |steps| ==>
         Enabled(sessions[n], steps[n]) && sessions[n + 1] == After(sessions[n], steps[n])
  }

  /**
   However the threads interleave: numbered frames, one terminal
   frame at the end, no result after an acknowledgement.
  */
  lemma {:induction false} EveryRunIsSound(sessions: seq<Session>, steps: seq<Step>, n: nat)
    requires Run(sessions, steps) && n < |sessions|
    ensures Sound(sessions[n])
  {
    if n > 0 {
      EveryRunIsSound(sessions, steps, n - 1);
      StepIsSound(sessions[n - 1], steps[n - 1]);
      assert sessions[n - 1 + 1] == After(sessions[n - 1], steps[n - 1]);
    }
  }

  // ----- what the frames of a kind tell

  /** No frame of the kind is new. */
  ghost predicate AddsNo(kind: Kind, before: Session, after: Session) {
    Shows(after.frames, kind) ==> Shows(before.frames, kind)
  }

  lemma WritingAddsNo(kind: Kind, before: Session, session: Session, other: Kind)
    requires other != kind && AddsNo(kind, before, session)
    ensures AddsNo(kind, before, Wrote(session, other))
  {
    ShowsOneMore(session.frames, Frame(session.sequence, other), kind);
  }

  /** Steps other than the main loop taking an event write a handshake or a heartbeat, if anything. */
  lemma OnlyTakingAdds(kind: Kind, session: Session, step: Step)
    requires Enabled(session, step) && !step.MainTakes? && kind != Handshake && kind != Heartbeat
    ensures AddsNo(kind, session, After(session, step))
  {
    match step
    case Start(_, _) => WritingAddsNo(kind, session, session, Handshake);
    case PreloadHeartbeat => WritingAddsNo(kind, session, session, Heartbeat);
    case MainTimesOut => WritingAddsNo(kind, session, session, Heartbeat);
    case _ =>
  }

  lemma CleaningUpAddsNo(kind: Kind, before: Session, session: Session, forceFailure: bool, cleaned: bool)
    requires AddsNo(kind, before, session) && kind != ErrorFrame
             && (kind == CleanupComplete ==> forceFailure || !cleaned)
    ensures AddsNo(kind, before, CleanedUp(session, forceFailure, cleaned))
  {
    WritingAddsNo(kind, before, session, if forceFailure || !cleaned then ErrorFrame else CleanupComplete);
  }

  lemma TakingControlAddsNo(kind: Kind, session: Session, cleaned: bool)
    requires session.queue != [] && session.queue[0].FromControl? && kind != CancelAck && kind != ErrorFrame
    requires kind == CleanupComplete ==> session.cleanupFailed || !cleaned
    ensures AddsNo(kind, session, Take(session, cleaned))
  {
    var rest := session.(queue := session.queue[1..]);
    var received := rest.(cancelReceived := true);
    WritingAddsNo(kind, session, received, CancelAck);
    CleaningUpAddsNo(kind, session, Wrote(received, CancelAck), rest.cleanupFailed, cleaned);
  }

  lemma TakingDecodeAddsNo(kind: Kind, session: Session, cleaned: bool)
    requires session.queue != [] && session.queue[0].FromDecode? && kind != ErrorFrame
    requires kind == ResultFrame ==> session.cancellation || session.cancelReceived
    requires kind == CleanupComplete ==> InCleanup(Some(session.queue[0].outcome)) || !cleaned
    ensures AddsNo(kind, session, Take(session, cleaned))
  {
    var rest, outcome := session.(queue := session.queue[1..]), session.queue[0].outcome;
    if outcome.Decoded? {
      CleaningUpAddsNo(kind, session, rest.(decodeFinished := true), false, cleaned);
      if kind != ResultFrame {
        WritingAddsNo(kind, session, rest.(decodeFinished := true), ResultFrame);
      }
    } else {
      var failed := InCleanup(Some(outcome));
      CleaningUpAddsNo(kind, session, rest.(decodeFinished := true, cleanupFailed := failed), failed, cleaned);
      WritingAddsNo(kind, session, rest.(decodeFinished := true, cleanupFailed := failed), ErrorFrame);
    }
  }

  /** A result is written only by a step that finds no cancellation, neither received nor on its way. */
  lemma ResultNeedsNoCancellation(session: Session, step: Step)
    requires Enabled(session, step)
    requires Shows(After(session, step).frames, ResultFrame) && !Shows(session.frames, ResultFrame)
    ensures step.MainTakes? && !session.cancellation && !session.cancelReceived
  {
    if !step.MainTakes? {
      OnlyTakingAdds(ResultFrame, session, step);
    } else if session.queue[0].FromControl? {
      TakingControlAddsNo(ResultFrame, session, step.cleaned);
    } else if session.cancellation || session.cancelReceived {
      TakingDecodeAddsNo(ResultFrame, session, step.cleaned);
    }
  }

  /**
   A complete cleanup is written only by a step that has removed
   the artifacts, after a decode whose own cleanup did not fail.
  */
  lemma CompleteCleanupIsClean(session: Session, step: Step)
    requires Sound(session) && Enabled(session, step)
    requires Shows(After(session, step).frames, CleanupComplete) && !Shows(session.frames, CleanupComplete)
    ensures step == MainTakes(true) && session.outcome.Some? && !InCleanup(session.outcome)
  {
    if !step.MainTakes? {
      OnlyTakingAdds(CleanupComplete, session, step);
    } else if session.queue[0].FromControl? {
      if session.cleanupFailed || !step.cleaned {
        TakingControlAddsNo(CleanupComplete, session, step.cleaned);
      } else if !session.decodeFinished {
        var received := session.(queue := session.queue[1..], cancelReceived := true);
        WritingAddsNo(CleanupComplete, session, received, CancelAck);
      }
    } else {
      assert session.outcome == Some(session.queue[0].outcome);
      if InCleanup(session.outcome) || !step.cleaned {
        TakingDecodeAddsNo(CleanupComplete, session, step.cleaned);
      }
    }
  }

  /** A decode that failed in its cleanup never leads to a complete cleanup. */
  lemma FailedCleanupIsReported(sessions: seq<Session>, steps: seq<Step>, n: nat)
    requires Run(sessions, steps) && n < |sessions| && InCleanup(sessions[n].outcome)
    ensures !Shows(sessions[n].frames, CleanupComplete)
  {
    EveryRunIsSound(sessions, steps, n);
  }

  /**
   An acknowledgement answers a cancellation of this session that names the number after a frame already
   written, which the host can have read; it is the very next frame.
  */
  lemma AcknowledgementAnswersACancel(session: Session, step: Step)
    requires Sound(session) && Enabled(session, step)
    requires Shows(After(session, step).frames, CancelAck) && !Shows(session.frames, CancelAck)
    ensures step.MainTakes? && session.queue[0].FromControl?
    ensures var message := session.queue[0].message;
            && message.Cancel? && message.identityMatches && 1 <= message.sequence <= |session.frames|
            && session.frames[message.sequence - 1].sequence == message.sequence - 1
    ensures |After(session, step).frames| > |session.frames|
    ensures After(session, step).frames[|session.frames|] == Frame(|session.frames|, CancelAck)
  {
    if !step.MainTakes? {
      OnlyTakingAdds(CancelAck, session, step);
    } else if session.queue[0].FromDecode? {
      TakingDecodeAddsNo(CancelAck, session, step.cleaned);
    }
  }

  // ----- a cancellation is acknowledged once

  ghost predicate OneFromControl(queue: seq<Event>) {
    forall i, j :: 0 <= i < |queue| && 0 <= j < |queue| && queue[i].FromControl? && queue[j].FromControl? ==> i == j
  }

  predicate NoneFromControl(queue: seq<Event>) { forall i :: 0 <= i < |queue| ==> !queue[i].FromControl? }

  /** The control thread queues one message in all: it is still to come, or waits, or has been taken. */
  ghost predicate OneMessage(session: Session) {
    && (session.control != Quiet ==> !session.cancelReceived && NoneFromControl(session.queue))
    && OneFromControl(session.queue)
    && (session.cancelReceived ==> NoneFromControl(session.queue))
  }

  lemma OneInTheRest(queue: seq<Event>)
    requires queue != [] && OneFromControl(queue)
    ensures OneFromControl(queue[1..])
    ensures queue[0].FromControl? || NoneFromControl(queue) ==> NoneFromControl(queue[1..])
  {
    assert forall i :: 0 <= i < |queue[1..]| ==> queue[1..][i] == queue[i + 1];
  }

  lemma PutBackIsNoMessage(queue: seq<Event>, outcome: Outcome)
    ensures OneFromControl(queue) ==> OneFromControl(queue + [FromDecode(outcome)])
    ensures NoneFromControl(queue) ==> NoneFromControl(queue + [FromDecode(outcome)])
  {
  }

  /** What taking an event does to the queue and to what the control thread has done. */
  lemma TakenFromTheQueue(session: Session, cleaned: bool)
    requires session.queue != []
    ensures var head, after := session.queue[0], Take(session, cleaned);
            && after.control == session.control && (head.FromDecode? ==> after.cancelReceived == session.cancelReceived)
            && (after.queue == session.queue[1..] || (head.FromDecode? && after.queue == session.queue[1..] + [head]))
  {
  }

  lemma TakingKeepsOneMessage(session: Session, cleaned: bool)
    requires session.queue != [] && OneMessage(session)
    ensures OneMessage(Take(session, cleaned))
  {
    var head := session.queue[0];
    TakenFromTheQueue(session, cleaned);
    OneInTheRest(session.queue);
    if head.FromDecode? {
      PutBackIsNoMessage(session.queue[1..], head.outcome);
    }
  }

  lemma OneMessageStays(session: Session, step: Step)
    requires Sound(session) && Enabled(session, step) && OneMessage(session)
    ensures OneMessage(After(session, step))
  {
    if step.MainTakes? {
      TakingKeepsOneMessage(session, step.cleaned);
    }
  }

  ghost predicate AtMostOnce(frames: seq<Frame>, kind: Kind) {
    forall i, j :: 0 <= i < |frames| && 0 <= j < |frames| && frames[i].kind == kind && frames[j].kind == kind ==> i == j
  }

  /** Writing another kind of frame, or the first of the kind. */
  lemma WritingStaysSingle(session: Session, kind: Kind)
    requires AtMostOnce(session.frames, CancelAck) && (kind == CancelAck ==> !Shows(session.frames, CancelAck))
    ensures AtMostOnce(Wrote(session, kind).frames, CancelAck)
  {
  }

  lemma CleaningUpStaysSingle(session: Session, forceFailure: bool, cleaned: bool)
    requires AtMostOnce(session.frames, CancelAck)
    ensures AtMostOnce(CleanedUp(session, forceFailure, cleaned).frames, CancelAck)
  {
    WritingStaysSingle(session, if forceFailure || !cleaned then ErrorFrame else CleanupComplete);
  }

  lemma TakingStaysSingle(session: Session, cleaned: bool)
    requires session.queue != [] && AtMostOnce(session.frames, CancelAck)
    requires session.queue[0].FromControl? ==> !Shows(session.frames, CancelAck)
    ensures AtMostOnce(Take(session, cleaned).frames, CancelAck)
  {
    var rest := session.(queue := session.queue[1..]);
    match session.queue[0]
    case FromControl(message) =>
      var received := rest.(cancelReceived := true);
      WritingStaysSingle(received, CancelAck);
      CleaningUpStaysSingle(Wrote(received, CancelAck), rest.cleanupFailed, cleaned);
    case FromDecode(outcome) =>
      var failed := InCleanup(Some(outcome));
      var finished := rest.(decodeFinished := true);
      CleaningUpStaysSingle(finished, false, cleaned);
      WritingStaysSingle(finished, ResultFrame);
      CleaningUpStaysSingle(finished.(cleanupFailed := failed), failed, cleaned);
      WritingStaysSingle(finished.(cleanupFailed := failed), ErrorFrame);
  }

  /** A step writes at most one acknowledgement, and none after one. */
  lemma AcknowledgementStaysSingle(session: Session, step: Step)
    requires Sound(session) && Enabled(session, step) && OneMessage(session) && AtMostOnce(session.frames, CancelAck)
    ensures AtMostOnce(After(session, step).frames, CancelAck)
  {
    match step
    case Start(_, _) => WritingStaysSingle(session, Handshake);
    case PreloadHeartbeat => WritingStaysSingle(session, Heartbeat);
    case MainTimesOut => WritingStaysSingle(session, Heartbeat);
    case MainTakes(cleaned) => TakingStaysSingle(session, cleaned);
    case _ =>
  }

  lemma {:induction false} CancellationIsAcknowledgedOnce(sessions: seq<Session>, steps: seq<Step>, n: nat)
    requires Run(sessions, steps) && n < |sessions|
    ensures AtMostOnce(sessions[n].frames, CancelAck) && OneMessage(sessions[n])
  {
    if n > 0 {
      CancellationIsAcknowledgedOnce(sessions, steps, n - 1);
      EveryRunIsSound(sessions, steps, n - 1);
      assert sessions[n - 1 + 1] == After(sessions[n - 1], steps[n - 1]);
      OneMessageStays(sessions[n - 1], steps[n - 1]);
      AcknowledgementStaysSingle(sessions[n - 1], steps[n - 1]);
    }
  }
}
