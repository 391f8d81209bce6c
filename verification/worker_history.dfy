/**
 What the Cast worker remembers between commands, as an exact history: which session it tracks and
 since when, whether the bridge has ended it, whether a re-LOAD was tried, and what it would re-LOAD.
 */
module WorkerHistory {
  import opened Common
  import opened CastWorker
  import opened Ownership

  // ----- what a step is to the session ------------------------------------------------------------

  /** A LOAD command whose caller gets the session: it succeeded and nobody gave up. */
  predicate LoadDelivers(v: View, a: Action, s: Session) {
    a.Load? && Loaded(v, a.wire, a.flag) == Some(s) && a.flag > 4 && a.open
  }

  /** A probe finds trouble, and it is time for the one internal re-LOAD. */
  predicate TriesReload(v: View, a: Action) {
    && a.IdleTick? && AsksCast(v, a.tick) && a.tick.probe.failure.None?
    && Troubled(a.tick.probe, BufferingNow(v, a.tick.probe)) && !GuardedAt(v, a.tick.later) && !v.reloadAttempted
  }

  /** The session that the internal re-LOAD brings back, if it does. */
  function Recovered(v: View, a: Action): Option<Session>
    requires a.IdleTick?
  {
    if v.lastLoad.None? then None
    else if a.tick.wire.first.Some? then a.tick.wire.first
    else if a.tick.wire.reconnect then a.tick.wire.retry
    else None
  }

  predicate Recovers(v: View, a: Action) {
    TriesReload(v, a) && Recovered(v, a).Some?
  }

  predicate TakesOver(v: View, a: Action) {
    a.Adopt? && (v.connected || a.reconnect) && a.session.Some?
  }

  /** The worker lets go of the session it tracks. */
  predicate LetsGo(v: View, a: Action) {
    match a
    case Load(_, _, w, flag, _, open) => Loaded(v, w, flag).Some? || flag <= 4 || !open
    case Stop(_) => true
    case TakeSession => true
    case Adopt(_, _, _, _) => v.connected || a.reconnect
    case IdleTick(_) => SendsLost(v, a) || Recovers(v, a)
    case DropDevice(_, _) => true
    case _ => false
  }

  /** A session is installed, if only to be stopped at once. */
  predicate Reinstates(v: View, a: Action) {
    || (a.Load? && Loaded(v, a.wire, a.flag).Some? && a.flag > 2)
    || Recovers(v, a) || TakesOver(v, a)
  }

  lemma TriesReloadIff(v: View, a: Action)
    requires a.IdleTick?
    ensures TriesReload(v, a) <==> TickProbes(v, a.tick) && TickVerdict(v, a.tick).AttemptReload?
    ensures TriesReload(v, a) ==>
              Recovered(v, a)
              == InternalReload(CountBuffering(AfterPing(v, a.tick), a.tick.probe), a.tick.later, a.tick.wire).session
    ensures Recovers(v, a) <==> ReloadRecovers(v, a)
  {
    TickProbesIff(v, a.tick);
    if AsksCast(v, a.tick) {
      TickVerdictIs(v, a.tick);
      VerdictIff(a.tick.probe, BufferingNow(v, a.tick.probe), v.reloadAttempted, GuardedAt(v, a.tick.later));
    }
  }

  // ----- facts ------------------------------------------------------------------------------------------

  datatype Fact =
    | IsTracked(session: Session, since: int)
    | IsEnded                                   // by the bridge, or handed to another worker
    | WasTried                                  // one internal re-LOAD for this trouble
    | IsRemembered(request: Request)            // what an internal re-LOAD would send

  predicate Holds(v: View, f: Fact) {
    match f
    case IsTracked(s, since) => v.active == Some(s) && v.since == since
    case IsEnded => v.standDown
    case WasTried => v.reloadAttempted
    case IsRemembered(request) => v.lastLoad == Some(request)
  }

  predicate Makes(v: View, a: Action, f: Fact) {
    match f
    case IsTracked(s, since) =>
      || (LoadDelivers(v, a, s) && a.now == since)
      || (TakesOver(v, a) && a.session == Some(s) && a.now == since)
      || (a.IdleTick? && TriesReload(v, a) && Recovered(v, a) == Some(s) && a.tick.later == since)
    case IsEnded => a.BridgeEnded? || (a.TakeSession? && v.active.Some?)
    case WasTried => a.IdleTick? && TriesReload(v, a) && Recovered(v, a).None? && v.lossStreak == 0
    case IsRemembered(request) =>
      (a.Load? && a.request == request) || (TakesOver(v, a) && a.load == Some(request))
  }

  predicate Undoes(v: View, a: Action, f: Fact) {
    match f
    case IsTracked(_, _) => LetsGo(v, a)
    case IsEnded => Reinstates(v, a)
    case WasTried => LetsGo(v, a) || (a.IdleTick? && ProbedOwned(v, a))
    case IsRemembered(_) => a.Load? || TakesOver(v, a)
  }

  ghost predicate Tracks(v: View, a: Action, f: Fact) {
    Holds(Apply(v, a), f) == (Makes(v, a, f) || (Holds(v, f) && !Undoes(v, a, f)))
  }

  /** Without a session there is nothing to count. */
  predicate Consistent(v: View) {
    StreakInv(v) && (v.active.None? ==> !v.reloadAttempted && v.bufferingStreak == 0)
  }

  lemma ConsistentStep(v: View, a: Action)
    requires Consistent(v)
    ensures Consistent(Apply(v, a))
  {
    LossStep(v, a);
    if a.IdleTick? {
      ConsistentTick(v, a.tick);
    } else if a.Load? {
      ConsistentLoad(v, a);
    }
  }

  lemma ConsistentTick(v: View, t: Tick)
    requires Consistent(v)
    ensures var u := IdleTicked(v, t); u.active.None? ==> !u.reloadAttempted && u.bufferingStreak == 0
  {
    var u := AfterPing(v, t).(nextProbeAt := t.later + HEARTBEAT_INTERVAL);
    PingCountsSignals(v, t);
    if u.lastLoad.Some? {
      LoadLeavesStreak(CountBuffering(u, t.probe), u.lastLoad.value, t.later, t.wire, NEVER);
    }
  }

  lemma ConsistentLoad(v: View, a: Action)
    requires Consistent(v) && a.Load?
    ensures var u := Apply(v, a); u.active.None? ==> !u.reloadAttempted && u.bufferingStreak == 0
  {
    HandledLoadFields(v, a.request, a.now, a.wire, a.flag);
  }

  // ----- one step -----------------------------------------------------------------------------------------

  lemma HandledLoadFields(v: View, request: Request, now: int, w: Wire, flag: nat)
    ensures var u, got := HandleLoad(v, request, now, w, flag).view, Loaded(v, w, flag);
            && u.lastLoad == Some(request)
            && (got.None? ==>
                  u.active == v.active && u.since == v.since && u.reloadAttempted == v.reloadAttempted
                  && u.standDown == v.standDown && u.bufferingStreak == v.bufferingStreak)
            && (got.Some? ==>
                  && u.bufferingStreak == 0
                  && u.active == (if flag > 3 then got else None) && !u.reloadAttempted && (flag > 3 ==> u.since == now)
                  && u.standDown == (v.standDown && flag <= 2))
  {
  }

  /** The fields after a LOAD command. */
  lemma LoadFields(v: View, a: Action)
    requires a.Load?
    ensures var u, got := Apply(v, a), Loaded(v, a.wire, a.flag);
            var gone := a.flag <= 4 || !a.open;
            && u.active == (if gone then None else if got.Some? then got else v.active)
            && (got.Some? && !gone ==> u.since == a.now)
            && (got.None? && !gone ==> u.since == v.since && u.reloadAttempted == v.reloadAttempted)
            && u.standDown == (v.standDown && (got.None? || a.flag <= 2))
            && (got.Some? ==> !u.reloadAttempted) && u.lastLoad == Some(a.request)
  {
    HandledLoadFields(v, a.request, a.now, a.wire, a.flag);
  }

  lemma LoadTracks(v: View, a: Action, f: Fact)
    requires Consistent(v) && a.Load?
    ensures Tracks(v, a, f)
  {
    LoadFields(v, a);
    ConsistentLoad(v, a);
  }

  lemma CommandTracks(v: View, a: Action, f: Fact)
    requires Consistent(v) && !a.Load? && !a.IdleTick?
    ensures Tracks(v, a, f)
  {
  }

  /** A tick that tries no re-LOAD changes none of the fields by itself, but by a loss or a healthy probe. */
  lemma QuietTickFields(v: View, a: Action)
    requires Consistent(v) && a.IdleTick? && !TriesReload(v, a)
    ensures var u := Apply(v, a);
            && u.standDown == v.standDown && u.lastLoad == v.lastLoad
            && (!SendsLost(v, a) ==> u.active == v.active && u.since == v.since)
            && u.reloadAttempted == (v.reloadAttempted && !SendsLost(v, a) && !ProbedOwned(v, a))
            && (SendsLost(v, a) ==> u.active.None?)
  {
    TriesReloadIff(v, a);
    PingCountsSignals(v, a.tick);
    if ProbeDue(v, a.tick) {
      QuietProbeFields(AfterPing(v, a.tick), a.tick);
    }
    LossStep(v, a);
  }

  lemma QuietProbeFields(v: View, t: Tick)
    requires StreakInv(v) && !(Probes(v, t.later) && ProbeVerdict(v, t.probe, t.later).AttemptReload?)
    ensures var u := Probed(v, t);
            && u.standDown == v.standDown && u.lastLoad == v.lastLoad && u.lost >= v.lost
            && (u.lost == v.lost ==> u.active == v.active && u.since == v.since)
            && (u.lost > v.lost ==> u.active.None? && !u.reloadAttempted)
            && (u.lost == v.lost ==>
                  u.reloadAttempted
                  == (v.reloadAttempted && !(Probes(v, t.later) && ProbeVerdict(v, t.probe, t.later).Owned?)))
  {
    SameProbe(v, t);
  }

  /** A tick that tries the re-LOAD. */
  lemma ReloadTickFields(v: View, a: Action)
    requires Consistent(v) && a.IdleTick? && TriesReload(v, a)
    ensures var u, got := Apply(v, a), Recovered(v, a);
            && (got.Some? ==>
                  u.active == got && u.since == a.tick.later && !u.standDown && !u.reloadAttempted && !SendsLost(v, a))
            && (got.None? ==>
                  && u.standDown == v.standDown && (SendsLost(v, a) <==> v.lossStreak == 1)
                  && (if v.lossStreak == 1 then u.active.None? && !u.reloadAttempted
                      else u.active == v.active && u.since == v.since && u.reloadAttempted))
            && u.lastLoad == v.lastLoad && !ProbedOwned(v, a)
  {
    TriesReloadIff(v, a);
    PingKeepsLoad(v, a.tick);
    SameProbe(AfterPing(v, a.tick), a.tick);
    RecoveryFields(AfterPing(v, a.tick).(nextProbeAt := a.tick.later + HEARTBEAT_INTERVAL), a.tick);
    TickProbesIff(v, a.tick);
  }

  lemma RecoveryFields(v: View, t: Tick)
    requires StreakInv(v) && v.connected
    ensures var u, r := CountBuffering(v, t.probe), Recovery(CountBuffering(v, t.probe), t.later, t.wire);
            var got := if v.lastLoad.None? then None else Loaded(v, t.wire, NEVER);
            && (got.Some? ==>
                  r.active == got && r.since == t.later && !r.standDown && !r.reloadAttempted && r.lost == v.lost)
            && (got.None? ==>
                  && r.standDown == v.standDown
                  && (if v.lossStreak == 1 then r.active.None? && !r.reloadAttempted && r.lost == v.lost + 1
                      else r.active == v.active && r.since == v.since && r.reloadAttempted && r.lost == v.lost))
            && r.lastLoad == v.lastLoad
  {
    if v.lastLoad.Some? {
      HandledLoadFields(CountBuffering(v, t.probe), v.lastLoad.value, t.later, t.wire, NEVER);
      LoadLeavesStreak(CountBuffering(v, t.probe), v.lastLoad.value, t.later, t.wire, NEVER);
    }
  }

  lemma TickTracks(v: View, a: Action, f: Fact)
    requires Consistent(v) && a.IdleTick?
    ensures Tracks(v, a, f)
  {
    if TriesReload(v, a) {
      ReloadTickFields(v, a);
    } else {
      QuietTickFields(v, a);
    }
  }

  lemma StepTracks(v: View, a: Action, f: Fact)
    requires Consistent(v)
    ensures Tracks(v, a, f)
  {
    if a.Load? {
      LoadTracks(v, a, f);
    } else if !a.IdleTick? {
      CommandTracks(v, a, f);
    } else {
      TickTracks(v, a, f);
    }
  }

  // ----- whole runs -----------------------------------------------------------------------------------------

  lemma {:induction false} RunIsConsistent(states: seq<View>, acts: seq<Action>, n: nat)
    requires Run(states, acts) && n < |states|
    ensures Consistent(states[n])
  {
    if n > 0 {
      RunIsConsistent(states, acts, n - 1);
      ConsistentStep(states[n - 1], acts[n - 1]);
    }
  }

  ghost function HoldsOf(f: Fact): View -> bool {
    v => Holds(v, f)
  }

  ghost function MakesOf(f: Fact): (View, Action) -> bool {
    (v, a) => Makes(v, a, f)
  }

  ghost function UndoesOf(f: Fact): (View, Action) -> bool {
    (v, a) => Undoes(v, a, f)
  }

  lemma TrackedStep(states: seq<View>, acts: seq<Action>, k: nat, f: Fact)
    requires Run(states, acts) && k < |acts|
    ensures HoldsOf(f)(states[k + 1])
            == (MakesOf(f)(states[k], acts[k]) || (HoldsOf(f)(states[k]) && !UndoesOf(f)(states[k], acts[k])))
  {
    RunIsConsistent(states, acts, k);
    StepTracks(states[k], acts[k], f);
  }

  /**
   Exactly what the worker remembers after any run: a fact holds if and only if some step made it and no
   later step has undone it.
   */
  lemma FactHoldsIff(states: seq<View>, acts: seq<Action>, n: nat, f: Fact)
    requires Run(states, acts) && n < |states|
    ensures Holds(states[n], f) <==>
              exists i :: 0 <= i < n && Makes(states[i], acts[i], f)
                          && forall k :: i < k < n ==> !Undoes(states[k], acts[k], f)
  {
    forall k | 0 <= k < |acts|
      ensures HoldsOf(f)(states[k + 1])
              == (MakesOf(f)(states[k], acts[k]) || (HoldsOf(f)(states[k]) && !UndoesOf(f)(states[k], acts[k])))
    {
      TrackedStep(states, acts, k, f);
    }
    SetUntilCleared(states, acts, n, HoldsOf(f), MakesOf(f), UndoesOf(f));
  }

  // ----- the link ---------------------------------------------------------------------------------------------

  /** A LOAD command leaves the link up: a try went through or a reconnect did, in time, and any STOP it needed. */
  predicate LoadLeavesLink(v: View, a: Action)
    requires a.Load?
  {
    && (if v.connected && a.wire.first.Some? then true else if a.flag == 0 then v.connected else a.wire.reconnect)
    && !a.fired
    && (a.wire.stopOk || (a.flag > 4 && a.open) || (Loaded(v, a.wire, a.flag).None? && v.active.None?))
  }

  /** The tick finds the link dead: its PING or its probe failed, or the re-LOAD did, and so did the reconnect. */
  predicate TickDropsLink(v: View, t: Tick) {
    || (v.connected && t.now >= v.nextPingAt && !t.pingOk && !t.reconnect)
    || (AsksCast(v, t) && t.probe.failure == Some(Transport) && !t.wire.reconnect)
    || (TriesReload(v, IdleTick(t)) && v.lastLoad.Some? && t.wire.first.None? && !t.wire.reconnect)
  }

  predicate OpensLink(v: View, a: Action) {
    match a
    case Load(_, _, _, _, _, _) => LoadLeavesLink(v, a)
    case Adopt(session, _, _, reconnect) => !v.connected && reconnect && session.Some?
    case IdleTick(t) => !v.connected && t.reconnect
    case DropDevice(reconnect, _) => reconnect
    case Reconnect(ok, _) => ok
    case _ => false
  }

  predicate DropsLink(v: View, a: Action) {
    match a
    case Load(_, _, _, _, _, _) => !LoadLeavesLink(v, a)
    case Stop(ok) => v.active.Some? && !ok
    case Adopt(session, _, _, _) => session.None?
    case IdleTick(t) => TickDropsLink(v, t)
    case DropDevice(reconnect, _) => !reconnect
    case LinkDown => true
    case _ => false
  }

  lemma LinkAfterLoad(v: View, a: Action)
    requires a.Load?
    ensures Apply(v, a).connected == LoadLeavesLink(v, a)
  {
  }

  lemma LinkAfterTick(v: View, t: Tick)
    ensures IdleTicked(v, t).connected == if v.connected then !TickDropsLink(v, t) else t.reconnect
  {
    TickProbesIff(v, t);
    TriesReloadIff(v, IdleTick(t));
    if AsksCast(v, t) {
      TickVerdictIs(v, t);
      VerdictIff(t.probe, BufferingNow(v, t.probe), v.reloadAttempted, GuardedAt(v, t.later));
      LinkAfterProbe(AfterPing(v, t).(nextProbeAt := t.later + HEARTBEAT_INTERVAL), t);
    }
  }

  lemma LinkAfterProbe(v: View, t: Tick)
    requires Probes(v, t.later)
    ensures CheckOwnership(v, t.probe, t.later, t.wire).connected
            == match ProbeVerdict(v, t.probe, t.later)
               case SuspectReconnect => t.wire.reconnect
               case AttemptReload => v.lastLoad.None? || t.wire.first.Some? || t.wire.reconnect
               case _ => true
  {
  }

  lemma LinkStep(v: View, a: Action)
    ensures Apply(v, a).connected == (OpensLink(v, a) || (v.connected && !DropsLink(v, a)))
  {
    if a.Load? {
      LinkAfterLoad(v, a);
    } else if a.IdleTick? {
      LinkAfterTick(v, a.tick);
    }
  }

  /** Exactly when the worker has its link to Cast. */
  lemma LinkIff(states: seq<View>, acts: seq<Action>, n: nat)
    requires Run(states, acts) && n < |states|
    ensures states[n].connected <==>
              || (states[0].connected && forall k :: 0 <= k < n ==> !DropsLink(states[k], acts[k]))
              || exists i :: 0 <= i < n && OpensLink(states[i], acts[i])
                             && forall k :: i < k < n ==> !DropsLink(states[k], acts[k])
  {
    forall k | 0 <= k < |acts|
      ensures states[k + 1].connected
              == (OpensLink(states[k], acts[k]) || (states[k].connected && !DropsLink(states[k], acts[k])))
    {
      LinkStep(states[k], acts[k]);
    }
    SetOrKept(states, acts, n, (v: View) => v.connected, (v, a) => OpensLink(v, a), (v, a) => DropsLink(v, a));
  }

  // ----- stuck buffering ------------------------------------------------------------------------------------

  /** A probe that sees the player buffer, and is not the one that ends the count. */
  predicate Buffers(v: View, a: Action) {
    a.IdleTick? && AsksCast(v, a.tick) && a.tick.probe.buffering
  }

  /** The count of buffering probes starts again. */
  predicate Restarts(v: View, a: Action) {
    || LetsGo(v, a)
    || (a.IdleTick? && v.connected && a.tick.later >= v.nextProbeAt && (v.active.None? || v.standDown))
    || (a.IdleTick? && AsksCast(v, a.tick) && !a.tick.probe.buffering)
  }

  lemma BufferingStep(v: View, a: Action)
    requires Consistent(v)
    ensures Apply(v, a).bufferingStreak
            == if Restarts(v, a) then 0
               else if Buffers(v, a) then BufferingNow(v, a.tick.probe)
               else v.bufferingStreak
  {
    if a.IdleTick? {
      BufferingTick(v, a);
    } else if a.Load? {
      HandledLoadFields(v, a.request, a.now, a.wire, a.flag);
    }
  }

  lemma BufferingTick(v: View, a: Action)
    requires Consistent(v) && a.IdleTick?
    ensures Apply(v, a).bufferingStreak
            == if Restarts(v, a) then 0
               else if Buffers(v, a) then BufferingNow(v, a.tick.probe)
               else v.bufferingStreak
  {
    TriesReloadIff(v, a);
    TickProbesIff(v, a.tick);
    PingCountsSignals(v, a.tick);
    LossStep(v, a);
    if ProbeDue(v, a.tick) {
      SameProbe(AfterPing(v, a.tick), a.tick);
      BufferingProbe(AfterPing(v, a.tick).(nextProbeAt := a.tick.later + HEARTBEAT_INTERVAL), a.tick);
    }
  }

  lemma BufferingProbe(v: View, t: Tick)
    requires StreakInv(v)
    ensures var u, probes := CheckOwnership(v, t.probe, t.later, t.wire), Probes(v, t.later);
            var recovers := probes && ProbeVerdict(v, t.probe, t.later).AttemptReload? && !ReloadFails(v, t);
            u.bufferingStreak
            == if v.active.None? || v.standDown || u.lost > v.lost || recovers then 0
               else if probes then BufferingNow(v, t.probe)
               else v.bufferingStreak
  {
    if v.lastLoad.Some? {
      HandledLoadFields(CountBuffering(v, t.probe), v.lastLoad.value, t.later, t.wire, NEVER);
      LoadLeavesStreak(CountBuffering(v, t.probe), v.lastLoad.value, t.later, t.wire, NEVER);
    }
  }

  /** Some earlier probe saw the player buffer, and the count has not started again since. */
  ghost predicate BufferedBefore(states: seq<View>, acts: seq<Action>, i: nat, n: nat) {
    i < n <= |acts| < |states| && Buffers(states[i], acts[i]) && forall k :: i <= k < n ==> !Restarts(states[k], acts[k])
  }

  function AtLeast(m: nat): View -> bool {
    (v: View) => v.bufferingStreak >= m
  }

  function CountsOn(m: nat): (View, Action) -> bool {
    (v: View, a: Action) => Buffers(v, a) && !Restarts(v, a) && v.bufferingStreak + 1 >= m
  }

  function CountsAnew(): (View, Action) -> bool {
    (v: View, a: Action) => Restarts(v, a)
  }

  lemma StreakToggles(states: seq<View>, acts: seq<Action>, m: nat)
    requires Run(states, acts) && 1 <= m <= 2
    ensures Toggles(states, acts, AtLeast(m), CountsOn(m), CountsAnew())
  {
    forall k | 0 <= k < |acts|
      ensures AtLeast(m)(states[k + 1])
              == (CountsOn(m)(states[k], acts[k]) || (AtLeast(m)(states[k]) && !CountsAnew()(states[k], acts[k])))
    {
      StreakToggleStep(states, acts, k, m);
    }
  }

  lemma StreakToggleStep(states: seq<View>, acts: seq<Action>, k: nat, m: nat)
    requires Run(states, acts) && k < |acts| && 1 <= m <= 2
    ensures states[k + 1].bufferingStreak >= m
            <==> (Buffers(states[k], acts[k]) && !Restarts(states[k], acts[k]) && states[k].bufferingStreak + 1 >= m)
                 || (states[k].bufferingStreak >= m && !Restarts(states[k], acts[k]))
  {
    RunIsConsistent(states, acts, k);
    BufferingStep(states[k], acts[k]);
  }

  lemma BufferedOnce(states: seq<View>, acts: seq<Action>, n: nat)
    requires Run(states, acts) && n < |states|
    ensures states[n].bufferingStreak >= 1 <==> exists i: nat :: BufferedBefore(states, acts, i, n)
  {
    StreakToggles(states, acts, 1);
    SetUntilCleared(states, acts, n, AtLeast(1), CountsOn(1), CountsAnew());
    if states[n].bufferingStreak >= 1 {
      var i: nat :| i < n && CountsOn(1)(states[i], acts[i]) && forall k :: i < k < n ==> !CountsAnew()(states[k], acts[k]);
      assert BufferedBefore(states, acts, i, n);
    }
    if i: nat :| BufferedBefore(states, acts, i, n) {
      assert CountsOn(1)(states[i], acts[i]);
    }
  }

  lemma BufferedTwice(states: seq<View>, acts: seq<Action>, n: nat)
    requires Run(states, acts) && n < |states|
    ensures states[n].bufferingStreak >= 2
            <==> exists i: nat, j: nat :: BufferedBefore(states, acts, i, j) && BufferedBefore(states, acts, j, n)
  {
    StreakToggles(states, acts, 2);
    SetUntilCleared(states, acts, n, AtLeast(2), CountsOn(2), CountsAnew());
    if states[n].bufferingStreak >= 2 {
      var j :| 0 <= j < n && CountsOn(2)(states[j], acts[j]) && forall k :: j < k < n ==> !CountsAnew()(states[k], acts[k]);
      BufferedOnce(states, acts, j);
      var i: nat :| BufferedBefore(states, acts, i, j);
      assert BufferedBefore(states, acts, j, n);
    }
    if i: nat, j: nat :| BufferedBefore(states, acts, i, j) && BufferedBefore(states, acts, j, n) {
      BufferedOnce(states, acts, j);
      assert CountsOn(2)(states[j], acts[j]);
    }
  }

  /** Exactly when buffering counts as stuck: at the third probe in a row that sees it. */
  lemma StuckIff(states: seq<View>, acts: seq<Action>, n: nat)
    requires Run(states, acts) && n < |acts| && Buffers(states[n], acts[n]) && acts[n].tick.probe.idle.None?
    ensures Troubled(acts[n].tick.probe, BufferingNow(states[n], acts[n].tick.probe))
            <==> exists i: nat, j: nat :: BufferedBefore(states, acts, i, j) && BufferedBefore(states, acts, j, n)
  {
    BufferedTwice(states, acts, n);
  }
}
