/**
 What the ownership probe decides, in terms of what Cast answered, and what that comes to over whole
 runs: a session that another app took is reported lost once, and a healthy one never.
 */
module Ownership {
  import opened Common
  import opened CastWorker

  // ----- one probe --------------------------------------------------------------------------------

  /** The player is idle for a reason a re-LOAD can mend, or has been buffering for too long. */
  predicate Troubled(p: Probe, streak: nat) {
    p.idle == Some(Recoverable) || (p.idle.None? && p.buffering && streak >= 3)
  }

  /** Another sender took the player, or our session is gone from a receiver that answered. */
  predicate Stolen(p: Probe, streak: nat) {
    || p.idle == Some(Interrupted)
    || (!Troubled(p, streak) && (if p.present.Some? then !p.present.value else !p.listed))
  }

  /** Exactly when each verdict is given. */
  lemma VerdictIff(p: Probe, streak: nat, tried: bool, guarded: bool)
    ensures var v := OwnershipAction(p, streak, tried, guarded);
            && (v.SuspectReconnect? <==> p.failure == Some(Transport))
            && (v.AttemptReload? <==> p.failure.None? && Troubled(p, streak) && !guarded && !tried)
            && (v.LostSignal? <==>
                  p.failure.None? && (Stolen(p, streak) || (Troubled(p, streak) && !guarded && tried)))
            && (v.Owned? <==> p.failure.None? && !Troubled(p, streak) && !Stolen(p, streak))
            && (v.Inconclusive? <==>
                  p.failure == Some(Parse) || (p.failure.None? && Troubled(p, streak) && guarded))
  {
    assert p.idle.Some? ==> p.idle.value.Interrupted? || p.idle.value.Recoverable?;
    if p.present.Some? {
      var there := p.present.value;
      assert there ==> p.present == Some(true);
      assert !there ==> p.present == Some(false);
    }
  }

  /** An idle tick that asks Cast about a session that is tracked for at least three seconds. */
  predicate AsksCast(v: View, t: Tick) {
    && v.connected && t.later >= v.nextProbeAt && v.active.Some? && !v.standDown && t.later - v.since >= 3_000
    && !(t.now >= v.nextPingAt && !t.pingOk && !t.reconnect)
  }

  lemma TickProbesIff(v: View, t: Tick)
    ensures TickProbes(v, t) <==> AsksCast(v, t)
    ensures AsksCast(v, t) ==> var u := AfterPing(v, t);
              u.lossStreak == v.lossStreak && u.bufferingStreak == v.bufferingStreak && u.lastLoadAt == v.lastLoadAt
              && u.reloadAttempted == v.reloadAttempted && u.lastLoad == v.lastLoad && u.active == v.active
  {
  }

  /** Buffering probes in a row, with this one. */
  function BufferingNow(v: View, p: Probe): nat {
    if !p.buffering then 0 else if v.bufferingStreak < 255 then v.bufferingStreak + 1 else 255
  }

  predicate GuardedAt(v: View, now: int) {
    v.lastLoadAt.Some? && now - v.lastLoadAt.value < 10_000
  }

  lemma TickVerdictIs(v: View, t: Tick)
    requires AsksCast(v, t)
    ensures TickVerdict(v, t)
            == OwnershipAction(t.probe, BufferingNow(v, t.probe), v.reloadAttempted, GuardedAt(v, t.later))
  {
    TickProbesIff(v, t);
  }

  // ----- a session that another app took ------------------------------------------------------------

  predicate SeesTheft(v: View, a: Action) {
    && a.IdleTick? && AsksCast(v, a.tick)
    && a.tick.probe.failure.None? && Stolen(a.tick.probe, BufferingNow(v, a.tick.probe))
  }

  lemma TheftIsASignal(v: View, a: Action)
    requires SeesTheft(v, a)
    ensures LossSignal(v, a) && !ForgetsSignals(v, a)
  {
    var t := a.tick;
    TickProbesIff(v, t);
    TickVerdictIs(v, t);
    VerdictIff(t.probe, BufferingNow(v, t.probe), v.reloadAttempted, GuardedAt(v, t.later));
  }

  lemma LossesOfStep(v: View, a: Action)
    requires StreakInv(v)
    ensures v.lost <= Apply(v, a).lost <= v.lost + 1
  {
    match a
    case IdleTick(t) => LossesOfTick(v, t);
    case Load(request, now, w, flag, _, _) => LoadLeavesStreak(v, request, now, w, flag);
    case _ =>
  }

  lemma LossesOfTick(v: View, t: Tick)
    requires StreakInv(v)
    ensures v.lost <= IdleTicked(v, t).lost <= v.lost + 1
  {
    LossesOfPing(v, t);
    if v.connected && ProbeDue(v, t) {
      LossesOfProbe(AfterPing(v, t), t);
    }
  }

  lemma LossesOfPing(v: View, t: Tick)
    requires StreakInv(v)
    ensures var u := AfterPing(v, t);
            StreakInv(u) && (u.lost == v.lost || (u.lost == v.lost + 1 && u.active.None?))
  {
  }

  lemma LossesOfProbe(v: View, t: Tick)
    requires StreakInv(v)
    ensures v.lost <= Probed(v, t).lost <= v.lost + 1 && (v.active.None? ==> Probed(v, t).lost == v.lost)
  {
    var u := CountBuffering(v.(nextProbeAt := t.later + HEARTBEAT_INTERVAL), t.probe);
    if v.lastLoad.Some? {
      LoadLeavesStreak(u, v.lastLoad.value, t.later, t.wire, NEVER);
    }
  }

  lemma LossesOfRunStep(states: seq<View>, acts: seq<Action>, k: nat)
    requires Run(states, acts) && k < |acts|
    ensures states[k].lost <= states[k + 1].lost <= states[k].lost + 1
    ensures SendsLost(states[k], acts[k]) <==> states[k + 1].lost > states[k].lost
  {
    StreakIsBounded(states, acts, k);
    LossesOfStep(states[k], acts[k]);
  }

  lemma {:induction false} Unchanged(counts: seq<nat>, i: nat, n: nat)
    requires i <= n < |counts| && forall k :: i <= k < n ==> counts[k + 1] == counts[k]
    ensures counts[n] == counts[i]
    decreases n - i
  {
    if i < n {
      Unchanged(counts, i, n - 1);
      assert counts[n - 1 + 1] == counts[n - 1];
    }
  }

  lemma LossesBetween(states: seq<View>, acts: seq<Action>, i: nat, n: nat)
    requires Run(states, acts) && i <= n < |states|
    requires forall k :: i <= k < n ==> !SendsLost(states[k], acts[k])
    ensures states[n].lost == states[i].lost
  {
    var counts := seq(|states|, k requires 0 <= k < |states| => states[k].lost);
    forall k | i <= k < n
      ensures counts[k + 1] == counts[k]
    {
      LossesOfRunStep(states, acts, k);
    }
    Unchanged(counts, i, n);
  }

  /**
   A stolen session is reported lost exactly once: two probes that see the theft, with nothing between
   them that speaks for the session, send one loss, at the second one.
   */
  lemma StolenSessionIsLost(states: seq<View>, acts: seq<Action>, i: nat, n: nat)
    requires Run(states, acts) && i < n < |acts| && SeesTheft(states[i], acts[i]) && SeesTheft(states[n], acts[n])
    requires forall k :: i < k < n ==> !ForgetsSignals(states[k], acts[k])
    ensures SendsLost(states[n], acts[n]) && states[n + 1].active.None?
    ensures states[n].lost == states[i].lost && states[n + 1].lost == states[i].lost + 1
  {
    TheftIsASignal(states[i], acts[i]);
    TheftIsASignal(states[n], acts[n]);
    assert StandsUntil(states, acts, i, n);
    LossIsEvidenced(states, acts, n);
    LossStepOfRun(states, acts, n);
    LossesOfRunStep(states, acts, n);
    forall k | i <= k < n
      ensures !SendsLost(states[k], acts[k])
    {
      OneLossPerSession(states, acts, k, n);
      if j :| k < j < n && Installs(states[j], acts[j]) {
        LossStepOfRun(states, acts, j);
      }
    }
    LossesBetween(states, acts, i, n);
  }

  /** A probe that finds the session there, and not in trouble, clears the count and sends no loss. */
  lemma HealthySessionIsKept(v: View, t: Tick)
    requires StreakInv(v) && AsksCast(v, t) && t.probe.failure.None?
    requires !Troubled(t.probe, BufferingNow(v, t.probe)) && !Stolen(t.probe, BufferingNow(v, t.probe))
    ensures var u := Apply(v, IdleTick(t));
            u.lost == v.lost && u.active == v.active && u.lossStreak == 0 && !u.reloadAttempted
  {
    TickProbesIff(v, t);
    TickVerdictIs(v, t);
    VerdictIff(t.probe, BufferingNow(v, t.probe), v.reloadAttempted, GuardedAt(v, t.later));
    LossStep(v, IdleTick(t));
    LossesOfTick(v, t);
    HealthyProbe(AfterPing(v, t), t);
  }

  /** A probe that the transport fails costs the link, not the session: it reconnects and decides nothing. */
  lemma FailedProbeReconnects(v: View, t: Tick)
    requires AsksCast(v, t) && t.probe.failure == Some(Transport)
    ensures var u := Apply(v, IdleTick(t));
            && u.connected == t.wire.reconnect && (t.wire.reconnect ==> u.nextPingAt == t.later + 4_000)
            && u.active == v.active && u.since == v.since && u.lost == v.lost && u.lossStreak == v.lossStreak
  {
    TickProbesIff(v, t);
    TickVerdictIs(v, t);
  }

  lemma HealthyProbe(v: View, t: Tick)
    requires Probes(v, t.later) && ProbeVerdict(v, t.probe, t.later).Owned?
    ensures var u := Probed(v, t); u.active == v.active && u.lost == v.lost && u.lossStreak == 0 && !u.reloadAttempted
  {
  }
}
