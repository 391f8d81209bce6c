/**
 The fields of a Playing session that its lock sections update, and those sections as methods. Each
 method is tied to the rule (SessionRules) that the transition system takes for the same section.
 */
module PlayingSessions {
  import opened Common
  import opened SessionRules

  /** Milliseconds. */
  const LONG_PAUSE_RELOAD: nat := 30_000

  class PlayingSession {
    var paused: bool
    var playbackPaused: bool         // lock-free mirror of `paused`
    var pausedAt: Option<nat>
    var flushReloadRequested: nat
    var flushReloadDone: nat
    var stallReloadOwed: bool
    var sessionAlive: bool
    var lateStopAllowed: bool

    ghost predicate Valid()
      reads this
    {
      && playbackPaused == paused && (paused <==> pausedAt.Some?)
      && flushReloadDone <= flushReloadRequested
    }

    function View(): Ledger
      reads this
    {
      Ledger(paused, flushReloadRequested, flushReloadDone, stallReloadOwed)
    }

    predicate LongPause(now: nat)
      reads this
    {
      pausedAt.Some? && now - pausedAt.value >= LONG_PAUSE_RELOAD
    }

    constructor ()
      ensures Valid() && View() == Ledger(false, 0, 0, false)
      ensures sessionAlive && lateStopAllowed
    {
      paused, playbackPaused, pausedAt := false, false, None;
      flushReloadRequested, flushReloadDone, stallReloadOwed := 0, 0, false;
      sessionAlive, lateStopAllowed := true, true;
    }

    /** `spawn`: a Cast PAUSE task starts in this section. */
    method HandlePause(now: nat) returns (spawn: bool)
      requires Valid()
      modifies this
      ensures Valid() && spawn == !old(paused)
      ensures View() == old(View()).(paused := true)
      ensures spawn ==> pausedAt == Some(now)
      ensures !spawn ==> pausedAt == old(pausedAt)
      ensures unchanged(`sessionAlive, `lateStopAllowed)
    {
      if paused {
        return false;
      }
      paused, playbackPaused, pausedAt := true, true, Some(now);
      spawn := true;
    }

    /** Cast paused itself. `forward`: the sender is told to pause; no Cast command goes out. */
    method PauseLocally(now: nat) returns (forward: bool)
      requires Valid()
      modifies this
      ensures Valid() && forward == !old(paused)
      ensures View() == old(View()).(paused := true)
      ensures pausedAt == if forward then Some(now) else old(pausedAt)
      ensures unchanged(`sessionAlive, `lateStopAllowed)
    {
      if paused {
        return false;
      }
      paused, playbackPaused, pausedAt := true, true, Some(now);
      forward := true;
    }

    /** PLAY goes out only when every flush is covered; else the re-LOAD is for all flushes so far. */
    method PlanResume(now: nat) returns (action: Resume)
      requires Valid()
      modifies this
      ensures Valid() && action == old(ResumeDecision(View(), LongPause(now)))
      ensures View() == Resumed(old(View()))
      ensures action.Play? || action.Nothing? ==> flushReloadDone == flushReloadRequested && !stallReloadOwed
      ensures action.Nothing? ==> !old(paused)
      ensures action.Reload? && action.request.Some? ==> flushReloadDone < action.request.value == flushReloadRequested
      ensures unchanged(`sessionAlive, `lateStopAllowed)
    {
      var longPause := pausedAt.Some? && now - pausedAt.value >= LONG_PAUSE_RELOAD;
      if flushReloadRequested > flushReloadDone {
        action := Reload(Some(flushReloadRequested));
      } else if stallReloadOwed {
        action := Reload(None);
      } else if paused {
        action := if longPause then Reload(None) else Play;
      } else {
        action := Nothing;
      }
      paused, playbackPaused, pausedAt := false, false, None;
    }

    method HandleFlush() returns (request: nat)
      requires Valid()
      modifies this
      ensures Valid() && View() == Flushed(old(View())) && request == flushReloadRequested
      ensures unchanged(`sessionAlive, `lateStopAllowed, `pausedAt)
    {
      flushReloadRequested := flushReloadRequested + 1;
      request := flushReloadRequested;
    }

    method CheckGate(current: bool, request: Option<nat>) returns (gate: Gate)
      ensures gate == ReloadGate(current, sessionAlive, View(), request)
    {
      if !current || !sessionAlive {
        gate := Abort;
      } else if paused {
        gate := Wait;
      } else if request.Some? && flushReloadDone >= request.value {
        gate := AlreadySatisfied;
      } else {
        gate := Proceed(flushReloadRequested);
      }
    }

    /**
     A wire-successful re-LOAD of the live generation counts; one that lost a race changes nothing.
     `covers` was read at the gate, so it is at most the requests so far; when no flush came since,
     the session owes nothing any more.
     */
    method AcceptReload(current: bool, covers: nat) returns (validity: Validity)
      requires Valid() && covers <= flushReloadRequested
      modifies this
      ensures Valid() && validity == ReloadValidity(current, sessionAlive, paused)
      ensures View() == if validity.Valid? then Accepted(old(View()), covers) else old(View())
      ensures validity.Valid? && covers == flushReloadRequested ==>
                forall longPause :: ResumeDecision(View(), longPause) == Nothing
      ensures unchanged(`sessionAlive, `lateStopAllowed, `pausedAt)
    {
      validity := ReloadValidity(current, sessionAlive, paused);
      if validity.Valid? {
        if flushReloadDone < covers {
          flushReloadDone := covers;
        }
        stallReloadOwed := false;
      }
    }

    /** A pause abandoned a stall re-LOAD. `reload`: the pause is already over, so re-LOAD now. */
    method OweStallReload(current: bool) returns (reload: bool)
      requires Valid()
      modifies this
      ensures Valid() && reload == (current && sessionAlive && !paused)
      ensures View() == if current && sessionAlive then old(View()).(stallOwed := true) else old(View())
      ensures unchanged(`sessionAlive, `lateStopAllowed, `pausedAt)
    {
      if !current || !sessionAlive {
        return false;
      }
      stallReloadOwed := true;
      reload := !paused;
    }

    /** The first store of a teardown: after a replace no reader stops a late LOAD, alive or dead. */
    method ForbidLateStop(policy: Policy)
      modifies this`lateStopAllowed
      ensures lateStopAllowed == (old(lateStopAllowed) && !ReplaceSkipsCastStop(policy))
      ensures ReplaceSkipsCastStop(policy) ==> forall alive :: !LateLoadShouldStop(alive, lateStopAllowed)
    {
      if ReplaceSkipsCastStop(policy) {
        lateStopAllowed := false;
      }
    }

    /** The second store. From here on a full end stops every late LOAD, and a replace none. */
    method ClearAlive()
      modifies this`sessionAlive
      ensures !sessionAlive && (LateLoadShouldStop(sessionAlive, lateStopAllowed) <==> lateStopAllowed)
    {
      sessionAlive := false;
    }

    method MarkDead(policy: Policy)
      modifies this`lateStopAllowed, this`sessionAlive
      ensures !sessionAlive
      ensures lateStopAllowed == (old(lateStopAllowed) && !ReplaceSkipsCastStop(policy))
    {
      ForbidLateStop(policy);
      ClearAlive();
    }
  }
}
