/** What each step of a session writes, and what the last frame of a session says about how it went. */
module SidecarFrames {
  import opened Wrappers
  import opened SidecarSession

  /** The next frame, numbered after those before it. */
  ghost predicate Writes(before: Session, after: Session, kinds: seq<Kind>) {
    && |after.frames| == |before.frames| + |kinds| && after.frames[..|before.frames|] == before.frames
    && forall k :: 0 <= k < |kinds| ==> after.frames[|before.frames| + k] == Frame(|before.frames| + k, kinds[k])
  }

  /** A cancellation that names this session and a frame it has written. */
  ghost predicate Names(message: Message, session: Session) {
    message.Cancel? && message.identityMatches && 1 <= message.sequence <= |session.frames|
  }

  // ----- the threads beside the main loop

  lemma OpeningWrites(session: Session, hashMatches: bool, preload: bool)
    requires Sound(session) && session.phase == Starting
    ensures var after := After(session, Start(hashMatches, preload));
            && Writes(session, after, [Handshake])
            && after.phase == if !hashMatches then Returned else if preload then Preloading else Serving
  {
  }

  lemma PreloadWrites(session: Session, written: bool)
    requires Sound(session) && session.phase == Preloading
    ensures var after := After(session, PreloadHeartbeat);
            Writes(session, after, [Heartbeat]) && after.phase == Preloading
    ensures var after := After(session, Preloaded(written));
            Writes(session, after, []) && after.phase == (if written then Serving else Raised)
  {
  }

  /** Whatever the control thread reads but a clean end of input raises the flag at once, and is queued later. */
  lemma ControlDoes(session: Session, message: Message)
    requires Sound(session) && session.phase == Serving
    ensures session.control == Reading ==>
              var after := After(session, ControlReads(message));
              && Writes(session, after, []) && after.queue == session.queue && after.phase == Serving
              && (message == CleanEnd ==> after.control == Quiet && after.cancellation == session.cancellation)
              && (message != CleanEnd ==> after.control == Flagged(message) && after.cancellation)
    ensures session.control == Flagged(message) ==>
              var after := After(session, ControlQueues);
              && Writes(session, after, []) && after.queue == session.queue + [FromControl(message)]
              && after.control == Quiet && after.cancellation == session.cancellation
  {
  }

  lemma DecodeDoes(session: Session, outcome: Outcome)
    requires Sound(session) && session.phase == Serving && session.outcome == None
    ensures var after := After(session, DecodeEnds(outcome));
            && Writes(session, after, []) && after.queue == session.queue + [FromDecode(outcome)]
            && after.outcome == Some(outcome)
  {
  }

  // ----- the main loop

  /** The loop beats while it waits, until a cancellation is received or the decode has ended. */
  lemma WaitingWrites(session: Session)
    requires Sound(session) && session.phase == Serving && session.queue == []
    ensures var after := After(session, MainTimesOut);
            && Writes(session, after, if session.cancelReceived || session.decodeFinished then [] else [Heartbeat])
            && after.phase == Serving
  {
  }

  ghost predicate GoesOn(session: Session, after: Session)
    requires session.queue != []
  {
    after.phase == Serving && after.queue == session.queue[1..] && after.outcome == session.outcome
  }

  /**
   A fitting cancellation is acknowledged. If the decode has ended already, the workspace is cleaned up and the session
   ends: complete only if both cleanups succeeded. Anything else from the host ends the session with nothing written.
  */
  lemma ControlIsAnswered(session: Session, message: Message, cleaned: bool)
    requires Sound(session) && session.phase == Serving && session.queue != []
    requires session.queue[0] == FromControl(message)
    ensures var after := After(session, MainTakes(cleaned));
            if !Names(message, session) then Writes(session, after, []) && after.phase == Raised
            else if session.decodeFinished then
              && after.phase == Returned
              && Writes(session, after,
                        [CancelAck, if cleaned && !session.cleanupFailed then CleanupComplete else ErrorFrame])
            else Writes(session, after, [CancelAck]) && GoesOn(session, after) && after.cancelReceived
  {
  }

  /**
   A result is written if no cancellation was received or is on its way. While one is on its way the result
   waits behind it; after one it is dropped and the workspace cleaned up.
  */
  lemma ResultIsTaken(session: Session, valid: bool, cleaned: bool)
    requires Sound(session) && session.phase == Serving && session.queue != []
    requires session.queue[0] == FromDecode(Decoded(valid))
    ensures var after := After(session, MainTakes(cleaned));
            && after.decodeFinished
            && if session.cancelReceived then
                 && Writes(session, after, [if cleaned then CleanupComplete else ErrorFrame])
                 && after.phase == Returned
               else if session.cancellation then
                 && Writes(session, after, []) && after.phase == Serving
                 && after.queue == session.queue[1..] + [FromDecode(Decoded(valid))]
               else if valid then Writes(session, after, [ResultFrame]) && after.phase == Returned
               else Writes(session, after, []) && after.phase == Raised
  {
  }

  /** A failure is written as an error unless a cancellation was received or is on its way. */
  lemma FailureIsTaken(session: Session, outcome: Outcome, cleaned: bool)
    requires Sound(session) && session.phase == Serving && session.queue != []
    requires session.queue[0] == FromDecode(outcome) && !outcome.Decoded?
    ensures var after, inCleanup := After(session, MainTakes(cleaned)), outcome == DecodeFailed(true);
            && after.decodeFinished && after.cleanupFailed == inCleanup
            && if session.cancelReceived then
                 && Writes(session, after, [if cleaned && !inCleanup then CleanupComplete else ErrorFrame])
                 && after.phase == Returned
               else if session.cancellation then Writes(session, after, []) && GoesOn(session, after)
               else Writes(session, after, [ErrorFrame]) && after.phase == Returned
  {
  }

  // ----- what can happen

  lemma ThreadsTakeTurns(session: Session, message: Message, outcome: Outcome, cleaned: bool)
    requires session.phase == Serving
    ensures Enabled(session, ControlReads(message)) <==> session.control == Reading
    ensures Enabled(session, ControlQueues) <==> session.control.Flagged?
    ensures Enabled(session, DecodeEnds(outcome)) <==> session.outcome == None
    ensures Enabled(session, MainTimesOut) <==> session.queue == []
    ensures Enabled(session, MainTakes(cleaned)) <==> session.queue != []
  {
  }

  // ----- how a session went

  ghost predicate LastIs(session: Session, kind: Kind) {
    session.frames != [] && session.frames[|session.frames| - 1].kind == kind
  }

  /** How a session that has returned can have gone, by its last frame. */
  ghost predicate Told(session: Session) {
    session.phase == Returned ==>
      || (LastIs(session, Handshake) && |session.frames| == 1)
      || (LastIs(session, ResultFrame) && !session.cancelReceived && session.outcome == Some(Decoded(true)))
      || (LastIs(session, CleanupComplete) && session.cancelReceived && session.outcome.Some?
          && session.outcome != Some(DecodeFailed(true)))
      || (LastIs(session, ErrorFrame) && session.outcome.Some?
          && (session.cancelReceived || !session.outcome.value.Decoded?))
  }

  /** What makes a session raise: a failed preload, a wrong message, or without a cancellation a result that is none. */
  ghost predicate RaisedFor(before: Session, step: Step) {
    || step == Preloaded(false)
    || (step.MainTakes? && before.queue != [] && before.queue[0] == FromDecode(Decoded(false))
        && !before.cancellation)
    || (step.MainTakes? && before.queue != [] && before.queue[0].FromControl?
        && !Names(before.queue[0].message, before))
  }

  /**
   However the threads interleave, the last frame of a session tells how it went: a result that no cancellation was
   received for, a cleanup that is complete after a cancellation and a decode that cleaned up, or an error.
  */
  lemma LastFrameTells(session: Session, step: Step)
    requires Sound(session) && Enabled(session, step)
    ensures var after := After(session, step); session.phase != Returned && Told(after)
    ensures After(session, step).phase == Raised <==> RaisedFor(session, step)
  {
    match step
    case MainTakes(cleaned) => TakenIsTold(session, cleaned);
    case Start(hashMatches, preload) => OpeningWrites(session, hashMatches, preload);
    case Preloaded(written) => PreloadWrites(session, written);
    case _ =>
  }

  lemma TakenIsTold(session: Session, cleaned: bool)
    requires Sound(session) && Enabled(session, MainTakes(cleaned))
    ensures Told(After(session, MainTakes(cleaned)))
    ensures After(session, MainTakes(cleaned)).phase == Raised <==> RaisedFor(session, MainTakes(cleaned))
  {
    match session.queue[0]
    case FromControl(message) => ControlIsAnswered(session, message, cleaned);
    case FromDecode(outcome) =>
      assert session.outcome == Some(outcome);
      if outcome.Decoded? {
        ResultIsTaken(session, outcome.valid, cleaned);
      } else {
        FailureIsTaken(session, outcome, cleaned);
      }
  }

  lemma EveryRunIsTold(sessions: seq<Session>, steps: seq<Step>, n: nat)
    requires Run(sessions, steps) && n < |sessions|
    ensures Told(sessions[n])
  {
    if n > 0 {
      EveryRunIsSound(sessions, steps, n - 1);
      assert Enabled(sessions[n - 1], steps[n - 1]) && sessions[n - 1 + 1] == After(sessions[n - 1], steps[n - 1]);
      LastFrameTells(sessions[n - 1], steps[n - 1]);
    }
  }
}
