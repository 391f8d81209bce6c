/**
 The decisions a bridge session takes inside one lock section, as functions on the fields that the
 section reads. The transition system (SessionModel) and the PlayingSession class both use them.
 */
module SessionRules {
  import opened Common

  /** The pause flag, the flush ledger and the owed stall re-LOAD of one Playing generation. */
  datatype Ledger = Ledger(
    paused: bool,
    requested: nat,   // flushes so far; each one owes a re-LOAD
    done: nat,        // highest flush number an accepted re-LOAD covers
    stallOwed: bool
  )

  predicate FlushOwed(l: Ledger) {
    l.requested > l.done
  }

  datatype Validity = Valid | Held | Stale

  /** Whether a detached re-LOAD may still run; `current` says its generation is the live one. */
  function ReloadValidity(current: bool, alive: bool, paused: bool): Validity {
    if !current || !alive then Stale else if paused then Held else Valid
  }

  datatype Gate = Abort | Wait | AlreadySatisfied | Proceed(covers: nat)

  function ReloadGate(current: bool, alive: bool, l: Ledger, request: Option<nat>): Gate {
    match ReloadValidity(current, alive, l.paused)
    case Stale => Abort
    case Held => Wait
    case Valid =>
      if request.Some? && l.done >= request.value then AlreadySatisfied else Proceed(l.requested)
  }

  /** The ledger after a wire-successful re-LOAD that covers `covers` flushes was accepted. */
  function Accepted(l: Ledger, covers: nat): Ledger {
    l.(done := Max(l.done, covers), stallOwed := false)
  }

  /**
   What the gate's answer means for a re-LOAD that a flush asked for: one that proceeds pays every
   flush if it is accepted, one that is skipped has its flush covered, and one that a pause holds back
   comes again with the next resume, for that flush and all later ones. Only a stale one is dropped.
   */
  lemma GateServesRequest(current: bool, alive: bool, l: Ledger, request: Option<nat>, longPause: bool)
    requires l.done <= l.requested && (request.Some? ==> request.value <= l.requested)
    ensures var g := ReloadGate(current, alive, l, request);
            && (g.Proceed? ==> ResumeDecision(Accepted(l, g.covers), longPause) == Nothing)
            && (g.Proceed? && request.Some? ==> l.done < request.value <= g.covers)
            && (g.AlreadySatisfied? <==> current && alive && !l.paused && request.Some? && request.value <= l.done)
            && (g.Wait? && request.Some? && request.value > l.done ==>
                  ResumeDecision(l, longPause) == Reload(Some(l.requested)))
            && (g.Abort? <==> !current || !alive)
  {
  }

  datatype Resume = Nothing | Play | Reload(request: Option<nat>)

  /** An owed re-LOAD outranks PLAY, and a flush outranks a stall. */
  function ResumeDecision(l: Ledger, longPause: bool): Resume {
    if FlushOwed(l) then Reload(Some(l.requested))
    else if l.stallOwed then Reload(None)
    else if l.paused && longPause then Reload(None)
    else if l.paused then Play
    else Nothing
  }

  function Resumed(l: Ledger): Ledger {
    l.(paused := false)
  }

  function Flushed(l: Ledger): Ledger {
    l.(requested := l.requested + 1)
  }

  predicate LateLoadShouldStop(alive: bool, lateStopAllowed: bool) {
    !alive && lateStopAllowed
  }

  predicate DiscardShouldStop(paused: bool, alive: bool, lateStopAllowed: bool) {
    paused || LateLoadShouldStop(alive, lateStopAllowed)
  }

  datatype Policy = StopBestEffort | SkipStopForReplace

  predicate ReplaceSkipsCastStop(p: Policy) {
    p.SkipStopForReplace?
  }
}
