/**
 Which LOADs a teardown waits for before its STOP. Every published LOAD is within its reach, but for
 one whose handle a WAV rollover had taken and dropped when it was aborted while joining it; such a
 LOAD can be on the wire at the STOP, and no other can.
 */
module TeardownJoins {
  import opened Common
  import opened SessionModel
  import opened SessionLocks
  import opened PausedSafety
  import opened StopDiscipline

  // ----- invariant ----------------------------------------------------------------------------

  /** Past the gates, before the LOAD is in the slot. */
  predicate BeforePublish(p: FlowPhase) {
    p.TakePrior? || p.WaitLead? || p.SecondGate? || p.RecheckAlive? || p.LockSlot? || UsesSlot(p)
  }

  predicate RolloverPhase(p: FlowPhase) {
    p.WaitFlight? || p.TakePrior? || p.JoinPrior? || p.RecheckAlive? || p.LockSlot? || p.PublishReadAlive?
    || p.Publish? || p.AwaitLoad? || p.TakeOwn? || p.Settle?
  }

  /** Only rollovers join a LOAD that is not their own; the teardown aborts and joins rollovers. */
  predicate Shaped(f: Flow) {
    if f.rollover then f.owned && RolloverPhase(f.phase) else !f.phase.JoinPrior? && !f.phase.RecheckAlive?
  }

  /** The flow has checked that the in-flight slot is empty, or emptied it. */
  predicate FoundEmpty(f: Flow) {
    f.phase.JoinPrior? || (BeforePublish(f.phase) && !(f.rollover && f.phase.TakePrior?))
  }

  predicate OwnsSlot(p: FlowPhase) {
    p.AwaitLoad? || p.TakeOwn?
  }

  /** The tasks of the session are joined. */
  predicate TasksJoined(t: Teardown) {
    t.TakeInflight? || InflightTaken(t)
  }

  ghost predicate SlotInv(td: Teardown, r: Reloads) {
    && (forall t :: t in r.flows ==> Shaped(r.flows[t]) && !(TasksJoined(td) && r.flows[t].rollover))
    && (forall t :: t in r.flows && FoundEmpty(r.flows[t]) ==> r.inflight.None?)
    && (forall t :: t in r.flows && OwnsSlot(r.flows[t].phase) ==>
          InflightTaken(td) || r.inflight == Some(r.flows[t].phase.load))
    && (forall t :: t in r.flows && r.flows[t].phase.TakeOwn? ==> LoadFinished(r, r.flows[t].phase.load))
    && (td.NotStarted? && r.inflight.Some? ==>
          r.flight.Some? && r.flight.value in r.flows && OwnsSlot(r.flows[r.flight.value].phase))
  }

  predicate Handle(td: Teardown, h: LoadId) {
    td.JoinInflight? && td.handle == Some(h)
  }

  predicate Joined(r: Reloads, h: LoadId) {
    r.flight.Some? && r.flight.value in r.flows && r.flows[r.flight.value].phase == JoinPrior(h)
  }

  /** Every LOAD task still running is in the slot, held by the teardown, being joined, or dropped. */
  ghost predicate Reachable(td: Teardown, r: Reloads) {
    forall h :: h in r.loads && !r.loads[h].phase.Finished? ==>
      r.inflight == Some(h) || Handle(td, h) || Joined(r, h) || h in r.dropped
  }

  /** A dropped LOAD is in nobody's reach again. */
  ghost predicate Apart(td: Teardown, r: Reloads) {
    && (r.inflight.Some? ==> r.inflight.value in r.loads)
    && (td.JoinInflight? && td.handle.Some? ==> td.handle.value in r.loads)
    && (forall t :: t in r.flows && r.flows[t].phase.JoinPrior? ==>
          r.flows[t].phase.prior in r.loads && r.flows[t].phase.prior !in r.dropped)
    && (forall h :: h in r.dropped ==> h in r.loads && r.inflight != Some(h) && !Handle(td, h))
  }

  ghost predicate JoinInv(td: Teardown, r: Reloads) {
    SlotInv(td, r) && Reachable(td, r) && Apart(td, r)
  }

  // ----- the invariant is kept ----------------------------------------------------------------

  /** Phases of a flow that neither owns the slot nor joins a LOAD. */
  predicate Idle(p: FlowPhase) {
    !OwnsSlot(p) && !p.JoinPrior?
  }

  lemma EndKeepsJoin(td: Teardown, r: Reloads, t: TaskId)
    requires FlightExclusive(r) && JoinInv(td, r) && t in r.flows && Idle(r.flows[t].phase)
    ensures JoinInv(td, EndFlow(r, t))
  {
  }

  lemma MoveKeepsJoin(td: Teardown, r: Reloads, t: TaskId, f: Flow)
    requires FlightExclusive(r) && JoinInv(td, r) && t in r.flows && Idle(r.flows[t].phase) && Idle(f.phase)
    requires Shaped(f) && f.rollover == r.flows[t].rollover
    requires FoundEmpty(f) ==> r.inflight.None?
    ensures JoinInv(td, r.(flows := r.flows[t := f]))
  {
  }

  lemma AcquireKeepsSlot(td: Teardown, r: Reloads, t: TaskId)
    requires SlotInv(td, r) && t in r.flows && r.flows[t].phase.WaitFlight? && r.flight.None?
    ensures SlotInv(td, SetFlow(r, t, if r.flows[t].rollover then TakePrior else FirstGate).(flight := Some(t)))
  {
  }

  lemma AcquireKeepsJoin(td: Teardown, r: Reloads, t: TaskId)
    requires JoinInv(td, r) && t in r.flows && r.flows[t].phase.WaitFlight? && r.flight.None?
    ensures JoinInv(td, SetFlow(r, t, if r.flows[t].rollover then TakePrior else FirstGate).(flight := Some(t)))
  {
    AcquireKeepsSlot(td, r, t);
  }

  lemma FirstGateKeepsJoin(s: Session, t: TaskId)
    requires Structure(s) && JoinInv(s.gen.teardown, s.re) && t in s.re.flows && s.re.flows[t].phase.FirstGate?
    ensures JoinInv(s.gen.teardown, GateStage(s.gen, s.re, t))
  {
    var td, f := s.gen.teardown, s.re.flows[t];
    if s.gen.live {
      assert s.re.flight == Some(t) && s.re.inflight.None?;
      MoveKeepsJoin(td, s.re, t, f.(phase := TakePrior));
    }
    EndKeepsJoin(td, s.re, t);
  }

  lemma GateKeepsJoin(s: Session, t: TaskId, h: LoadId)
    requires Structure(s) && JoinInv(s.gen.teardown, s.re) && FlowReady(s.re, t, h) && Gated(s.re.flows[t].phase)
    ensures JoinInv(s.gen.teardown, GateStage(s.gen, s.re, t))
  {
    var td, f, r := s.gen.teardown, s.re.flows[t], GateStage(s.gen, s.re, t);
    if f.phase.WaitFlight? {
      AcquireKeepsJoin(td, s.re, t);
    } else if f.phase.FirstGate? {
      FirstGateKeepsJoin(s, t);
    } else if t in r.flows {
      MoveKeepsJoin(td, s.re, t, r.flows[t]);
    } else {
      EndKeepsJoin(td, s.re, t);
    }
  }

  /** The flow of a rollover takes handle `h` out of the slot and joins it. */
  function TakenOver(r: Reloads, t: TaskId, h: LoadId): Reloads
    requires t in r.flows
  {
    SetFlow(r, t, JoinPrior(h)).(inflight := None)
  }

  lemma TakeOverKeepsSlot(td: Teardown, r: Reloads, t: TaskId, h: LoadId)
    requires FlightExclusive(r) && SlotInv(td, r) && t in r.flows && r.flows[t].phase.TakePrior? && r.inflight == Some(h)
    ensures SlotInv(td, TakenOver(r, t, h)) && r.flight == Some(t)
  {
  }

  lemma TakeOverKeepsReach(td: Teardown, r: Reloads, t: TaskId, h: LoadId)
    requires FlightExclusive(r) && Reachable(td, r) && Apart(td, r)
    requires t in r.flows && r.flows[t].phase.TakePrior? && r.inflight == Some(h) && r.flight == Some(t)
    ensures Reachable(td, TakenOver(r, t, h)) && Apart(td, TakenOver(r, t, h))
  {
  }

  lemma AbortedLoadKeepsJoin(td: Teardown, r: Reloads, h: LoadId)
    requires JoinInv(td, r)
    ensures JoinInv(td, AbortLoad(r, h))
  {
  }

  lemma TakePriorKeepsJoin(td: Teardown, r: Reloads, t: TaskId)
    requires FlightExclusive(r) && JoinInv(td, r) && t in r.flows && r.flows[t].phase.TakePrior?
    ensures JoinInv(td, JoinStage(r, t))
  {
    if r.inflight.None? {
      MoveKeepsJoin(td, r, t, r.flows[t].(phase := AfterPrior(r.flows[t].rollover)));
    } else {
      var h := r.inflight.value;
      TakeOverKeepsSlot(td, r, t, h);
      TakeOverKeepsReach(td, r, t, h);
      AbortedLoadKeepsJoin(td, TakenOver(r, t, h), h);
    }
  }

  lemma JoinKeepsJoin(s: Session, t: TaskId, h: LoadId)
    requires Structure(s) && PublishInv(s) && JoinInv(s.gen.teardown, s.re)
    requires FlowReady(s.re, t, h) && Joining(s.re.flows[t].phase)
    ensures JoinInv(s.gen.teardown, JoinStage(s.re, t))
  {
    if s.re.flows[t].phase.TakePrior? {
      TakePriorKeepsJoin(s.gen.teardown, s.re, t);
    }
  }

  lemma PublishKeepsJoin(s: Session, t: TaskId, h: LoadId)
    requires Structure(s) && PublishInv(s) && JoinInv(s.gen.teardown, s.re)
    requires FlowReady(s.re, t, h) && Publishing(s.re.flows[t].phase)
    ensures JoinInv(s.gen.teardown, PublishStage(s.gen, s.re, t, h))
  {
    var td, r, f := s.gen.teardown, s.re, s.re.flows[t];
    EndKeepsJoin(td, r, t);
    match f.phase
    case LockSlot(c) => MoveKeepsJoin(td, r, t, f.(phase := PublishReadAlive(c)));
    case PublishReadAlive(c) =>
      MoveKeepsJoin(td, r, t, f.(phase := if f.rollover then Publish(c) else PublishReadPaused(c)));
    case PublishReadPaused(c) => MoveKeepsJoin(td, r, t, f.(phase := Publish(c)));
    case Publish(c) =>
      NewLoadKeepsSlot(td, r, t, h, Load(f.rollover, c, 0, Spawned));
      NewLoadKeepsReach(td, r, t, h, Load(f.rollover, c, 0, Spawned));
  }

  function WithLoad(r: Reloads, t: TaskId, h: LoadId, l: Load): Reloads
    requires t in r.flows
  {
    SetFlow(r, t, AwaitLoad(h)).(inflight := Some(h), slotLock := None, loads := r.loads[h := l])
  }

  lemma NewLoadKeepsSlot(td: Teardown, r: Reloads, t: TaskId, h: LoadId, l: Load)
    requires FlightExclusive(r) && SlotInv(td, r) && t in r.flows && r.flows[t].phase.Publish? && h !in r.loads
    requires !InflightTaken(td)
    ensures SlotInv(td, WithLoad(r, t, h, l)) && r.inflight.None? && r.flight == Some(t)
  {
  }

  lemma NewLoadKeepsReach(td: Teardown, r: Reloads, t: TaskId, h: LoadId, l: Load)
    requires Reachable(td, r) && Apart(td, r) && t in r.flows && r.flows[t].phase.Publish? && h !in r.loads
    requires r.inflight.None? && r.flight == Some(t)
    ensures Reachable(td, WithLoad(r, t, h, l)) && Apart(td, WithLoad(r, t, h, l))
  {
  }

  lemma SettleStageKeepsJoin(s: Session, t: TaskId)
    requires Structure(s) && JoinInv(s.gen.teardown, s.re) && t in s.re.flows && s.re.flows[t].phase.Settle?
    ensures JoinInv(s.gen.teardown, SettleStage(s, t).re)
  {
    var td, f := s.gen.teardown, s.re.flows[t];
    EndKeepsJoin(td, s.re, t);
    if !f.rollover {
      MoveKeepsJoin(td, s.re, t, f.(phase := DiscardReadPaused));
    }
  }

  lemma SettleKeepsJoin(s: Session, t: TaskId, h: LoadId)
    requires Structure(s) && JoinInv(s.gen.teardown, s.re) && FlowReady(s.re, t, h)
    requires var p := s.re.flows[t].phase; !Gated(p) && !Joining(p) && !Publishing(p)
    ensures JoinInv(FlowStep(s, t, h).gen.teardown, FlowStep(s, t, h).re)
  {
    var td, f := s.gen.teardown, s.re.flows[t];
    EndKeepsJoin(td, s.re, t);
    match f.phase
    case Settle(_, _) => SettleStageKeepsJoin(s, t);
    case DiscardReadPaused => MoveKeepsJoin(td, s.re, t, f.(phase := DiscardReadAlive(s.gen.ledger.paused)));
    case DiscardReadAlive(q) => MoveKeepsJoin(td, s.re, t, f.(phase := DiscardReadAllowed(q, s.gen.alive)));
    case DiscardReadAllowed(q, _) => MoveKeepsJoin(td, s.re, t, f.(phase := DiscardStop(q)));
    case DiscardStop(_) =>
  }

  lemma FlowRunKeepsJoin(s: Session, t: TaskId, h: LoadId)
    requires Structure(s) && PublishInv(s) && JoinInv(s.gen.teardown, s.re) && FlowReady(s.re, t, h)
    ensures JoinInv(FlowStep(s, t, h).gen.teardown, FlowStep(s, t, h).re)
  {
    var p := s.re.flows[t].phase;
    if Gated(p) {
      GateKeepsJoin(s, t, h);
    } else if Joining(p) {
      JoinKeepsJoin(s, t, h);
    } else if Publishing(p) {
      PublishKeepsJoin(s, t, h);
    } else {
      SettleKeepsJoin(s, t, h);
    }
  }

  lemma LoadRunKeepsJoin(s: Session, h: LoadId, ok: bool)
    requires JoinInv(s.gen.teardown, s.re) && h in s.re.loads && !s.re.loads[h].phase.Finished?
    ensures JoinInv(s.gen.teardown, LoadStep(s, h, ok).re)
  {
    var r := LoadStep(s, h, ok).re;
    assert r == s.re.(loads := s.re.loads[h := r.loads[h]]);
    LoadUpdateKeepsJoin(s.gen.teardown, s.re, h, r.loads[h]);
  }

  lemma LoadUpdateKeepsJoin(td: Teardown, r: Reloads, h: LoadId, l: Load)
    requires JoinInv(td, r) && h in r.loads && !r.loads[h].phase.Finished?
    ensures JoinInv(td, r.(loads := r.loads[h := l]))
  {
  }

  lemma TeardownKeepsJoin(s: Session)
    requires Structure(s) && PublishInv(s) && JoinInv(s.gen.teardown, s.re) && TeardownReady(s)
    ensures JoinInv(TeardownStep(s).gen.teardown, TeardownStep(s).re)
  {
  }

  lemma DropKeepsJoin(td: Teardown, r: Reloads, t: TaskId)
    requires FlightExclusive(r) && JoinInv(td, r) && t in r.flows && r.flows[t].phase.JoinPrior?
    ensures JoinInv(td, AbortFlow(r, t))
  {
    assert r.flight == Some(t);
  }

  lemma LeaveLoadKeepsJoin(td: Teardown, r: Reloads, t: TaskId)
    requires FlightExclusive(r) && JoinInv(td, r) && t in r.flows && r.flows[t].phase.AwaitLoad? && !td.NotStarted?
    ensures JoinInv(td, AbortFlow(r, t))
  {
    assert r.flight == Some(t);
  }

  lemma DetachStopKeepsJoin(td: Teardown, r: Reloads, t: TaskId)
    requires FlightExclusive(r) && JoinInv(td, r) && t in r.flows && r.flows[t].phase.DiscardStop?
    ensures JoinInv(td, AbortFlow(r, t))
  {
    assert r.flight == Some(t) ==> !exists h :: Joined(r, h);
  }

  lemma AbortKeepsJoin(s: Session, t: TaskId)
    requires Structure(s) && JoinInv(s.gen.teardown, s.re) && Enabled(s, FlowAbort(t))
    ensures JoinInv(s.gen.teardown, AbortFlow(s.re, t))
  {
    match s.re.flows[t].phase
    case JoinPrior(_) => DropKeepsJoin(s.gen.teardown, s.re, t);
    case AwaitLoad(_) => LeaveLoadKeepsJoin(s.gen.teardown, s.re, t);
    case DiscardStop(_) => DetachStopKeepsJoin(s.gen.teardown, s.re, t);
    case _ => EndKeepsJoin(s.gen.teardown, s.re, t);
  }

  lemma StartKeepsJoin(td: Teardown, r: Reloads, t: TaskId, f: Flow)
    requires JoinInv(td, r) && t !in r.flows && Shaped(f) && !(TasksJoined(td) && f.rollover)
    requires f.phase.Unspawned? || f.phase.Planning? || f.phase.WaitFlight?
    requires r.flight.Some? ==> r.flight.value in r.flows
    ensures JoinInv(td, r.(flows := r.flows[t := f]))
  {
  }

  lemma StepKeepsJoin(s: Session, a: Action)
    requires Structure(s) && PublishInv(s) && JoinInv(s.gen.teardown, s.re) && Enabled(s, a)
    ensures JoinInv(Apply(s, a).gen.teardown, Apply(s, a).re)
  {
    match a
    case FlowRun(t, h) => FlowRunKeepsJoin(s, t, h);
    case LoadRun(h, ok) => LoadRunKeepsJoin(s, h, ok);
    case TeardownRun => TeardownKeepsJoin(s);
    case FlowAbort(t) => AbortKeepsJoin(s, t);
    case ResumeSpawn(t) =>
      if s.gen.worker.SpawnReload? {
        StartKeepsJoin(s.gen.teardown, s.re, t, Flow(true, false, s.gen.worker.request, Planning));
      }
    case PlayFailed(_, f) => StartKeepsJoin(s.gen.teardown, s.re, f, Flow(true, false, None, Planning));
    case StartReload(t, owned) => StartKeepsJoin(s.gen.teardown, s.re, t, Flow(owned, false, None, Planning));
    case OweStall(t) => StartKeepsJoin(s.gen.teardown, s.re, t, Flow(false, false, None, Unspawned));
    case StartRollover(t) => StartKeepsJoin(s.gen.teardown, s.re, t, Flow(true, true, None, WaitFlight));
    case _ =>
  }

  lemma {:induction false} RunKeepsJoin(states: seq<Session>, acts: seq<Action>, n: nat)
    requires Run(states, acts) && n < |states|
    ensures JoinInv(states[n].gen.teardown, states[n].re)
  {
    if n > 0 {
      RunHasStructure(states, acts, n - 1);
      RunKeepsJoin(states, acts, n - 1);
      RunKeepsPublish(states, acts, n - 1);
      StepKeepsJoin(states[n - 1], acts[n - 1]);
    }
  }

  // ----- what the teardown misses is what was dropped -------------------------------------------

  ghost predicate Sound(s: Session) {
    Structure(s) && PublishInv(s) && JoinInv(s.gen.teardown, s.re)
  }

  lemma StepKeepsSound(s: Session, a: Action)
    requires Sound(s) && Enabled(s, a)
    ensures Sound(Apply(s, a))
  {
    StepKeepsStructure(s, a);
    StepKeepsPublish(s, a);
    StepKeepsJoin(s, a);
  }

  lemma RunIsSound(states: seq<Session>, acts: seq<Action>, n: nat)
    requires Run(states, acts) && n < |states|
    ensures Sound(states[n])
  {
    RunHasStructure(states, acts, n);
    RunKeepsPublish(states, acts, n);
    RunKeepsJoin(states, acts, n);
  }

  predicate Unfinished(r: Reloads, h: LoadId) {
    h in r.loads && !r.loads[h].phase.Finished?
  }

  predicate AtStop(t: Teardown) {
    t.StopCast? || t.Over?
  }

  lemma MissedIsDropped(s: Session, h: LoadId)
    requires Sound(s) && AtStop(s.gen.teardown) && Unfinished(s.re, h)
    ensures h in s.re.dropped
  {
  }

  /** Step `i` aborts a rollover while it joins LOAD `h`. */
  predicate AbortsJoin(s: Session, a: Action, h: LoadId) {
    a.FlowAbort? && a.t in s.re.flows && s.re.flows[a.t].rollover && s.re.flows[a.t].phase == JoinPrior(h)
  }

  lemma DroppedStep(s: Session, a: Action, h: LoadId)
    requires Sound(s) && Enabled(s, a)
    ensures h in Apply(s, a).re.dropped <==> h in s.re.dropped || AbortsJoin(s, a, h)
  {
    match a
    case FlowRun(t, k) => FlowDropsNothing(s, t, k);
    case FlowAbort(t) => assert Shaped(s.re.flows[t]);
    case _ =>
  }

  lemma DroppedStepOfRun(states: seq<Session>, acts: seq<Action>, n: nat, h: LoadId)
    requires Run(states, acts) && n < |acts|
    ensures h in states[n + 1].re.dropped <==> h in states[n].re.dropped || AbortsJoin(states[n], acts[n], h)
  {
    RunIsSound(states, acts, n);
    DroppedStep(states[n], acts[n], h);
  }

  /** A LOAD is dropped exactly by the abort of a rollover that joins it. */
  lemma DroppedIffAborted(states: seq<Session>, acts: seq<Action>, n: nat, h: LoadId)
    requires Run(states, acts) && n < |states|
    ensures h in states[n].re.dropped <==> exists i :: 0 <= i < n && AbortsJoin(states[i], acts[i], h)
  {
    var flags := seq(|states|, k requires 0 <= k < |states| => h in states[k].re.dropped);
    var sets := seq(|acts|, k requires 0 <= k < |acts| => AbortsJoin(states[k], acts[k], h));
    forall k | 0 <= k < |acts|
      ensures flags[k + 1] == (flags[k] || sets[k])
    {
      DroppedStepOfRun(states, acts, k, h);
    }
    LatchIff(flags, sets, n);
    assert forall i :: 0 <= i < n ==> (sets[i] <==> AbortsJoin(states[i], acts[i], h));
    assert flags[n] <==> h in states[n].re.dropped;
  }

  /**
   Of every session: when the teardown sends its STOP, or is over, a LOAD task can only be running if
   a rollover was aborted while it joined that LOAD.
   */
  lemma UnjoinedLoadWasDropped(states: seq<Session>, acts: seq<Action>, n: nat, h: LoadId)
    requires Run(states, acts) && n < |states| && AtStop(states[n].gen.teardown) && Unfinished(states[n].re, h)
    ensures exists i :: 0 <= i < n && AbortsJoin(states[i], acts[i], h)
  {
    RunIsSound(states, acts, n);
    MissedIsDropped(states[n], h);
    DroppedIffAborted(states, acts, n, h);
  }

  /** A FLAC session has no rollovers, so nothing is dropped. */
  ghost predicate NothingDropped(s: Session) {
    !s.gen.wav ==> s.re.dropped == {}
  }

  lemma StepDropsNothing(s: Session, a: Action)
    requires Sound(s) && NoRollover(s) && NothingDropped(s) && Enabled(s, a)
    ensures NothingDropped(Apply(s, a))
  {
    match a
    case FlowRun(t, h) => FlowDropsNothing(s, t, h);
    case FlowAbort(t) => assert Shaped(s.re.flows[t]);
    case _ =>
  }

  lemma FlowDropsNothing(s: Session, t: TaskId, h: LoadId)
    requires FlowReady(s.re, t, h)
    ensures var r := FlowStep(s, t, h);
            r.re.dropped == s.re.dropped && r.gen.wav == s.gen.wav && r.gen.teardown == s.gen.teardown
  {
  }

  lemma {:induction false} RunDropsNothing(states: seq<Session>, acts: seq<Action>, n: nat)
    requires Run(states, acts) && n < |states|
    ensures NothingDropped(states[n])
  {
    if n > 0 {
      RunDropsNothing(states, acts, n - 1);
      RunIsSound(states, acts, n - 1);
      RunKeepsNoRollover(states, acts, n - 1);
      StepDropsNothing(states[n - 1], acts[n - 1]);
    }
  }

  /** A FLAC session's teardown sends its STOP, or ends, only after every LOAD task has finished. */
  lemma FlacTeardownJoinsEveryLoad(states: seq<Session>, acts: seq<Action>, n: nat)
    requires Run(states, acts) && n < |states| && !states[n].gen.wav && AtStop(states[n].gen.teardown)
    ensures forall h :: h in states[n].re.loads ==> states[n].re.loads[h].phase.Finished?
  {
    RunIsSound(states, acts, n);
    RunDropsNothing(states, acts, n);
    forall h | Unfinished(states[n].re, h)
      ensures false
    {
      MissedIsDropped(states[n], h);
    }
  }

  // ----- and what was dropped can be missed ------------------------------------------------------

  /** Some continuation finishes the teardown while LOAD `h` still runs. */
  ghost predicate CanMiss(s: Session, h: LoadId) {
    exists acts :: Execute(s, acts).Some? && Execute(s, acts).value.gen.teardown.Over?
                   && Unfinished(Execute(s, acts).value.re, h)
  }

  lemma LateStep(s: Session, a: Action, h: LoadId)
    requires Sound(s) && TasksJoined(s.gen.teardown) && Enabled(s, a)
    ensures TasksJoined(Apply(s, a).gen.teardown) && Apply(s, a).re.dropped == s.re.dropped
    ensures h in s.re.loads && Unfinished(Apply(s, a).re, h) ==> Unfinished(s.re, h)
    ensures h in s.re.loads ==> h in Apply(s, a).re.loads
  {
    if a.FlowRun? {
      FlowStepLoads(s, a.t, a.h);
      FlowDropsNothing(s, a.t, a.h);
    }
  }

  lemma {:induction false} MissMeansDropped(s: Session, acts: seq<Action>, h: LoadId)
    requires Sound(s) && TasksJoined(s.gen.teardown) && h in s.re.loads
    requires Execute(s, acts).Some? && Execute(s, acts).value.gen.teardown.Over?
    requires Unfinished(Execute(s, acts).value.re, h)
    ensures h in s.re.dropped && Unfinished(s.re, h)
    decreases |acts|
  {
    if acts == [] {
      MissedIsDropped(s, h);
    } else {
      StepKeepsSound(s, acts[0]);
      LateStep(s, acts[0], h);
      MissMeansDropped(Apply(s, acts[0]), acts[1..], h);
    }
  }

  /** How far the teardown is from its end, counting what it may have to wait for. */
  function TeardownDistance(s: Session): nat {
    match s.gen.teardown
    case TakeInflight(_) => 20 + SlotDistance(s.re)
    case JoinInflight(_, handle) =>
      10 + if handle.Some? && handle.value in s.re.loads then TaskDistance(s.re.loads[handle.value].phase) else 0
    case StopCast(_) => 1
    case _ => 0
  }

  function SlotDistance(r: Reloads): nat {
    if r.slotLock.None? || r.slotLock.value !in r.flows then 0
    else match r.flows[r.slotLock.value].phase
      case PublishReadAlive(_) => 3
      case PublishReadPaused(_) => 2
      case _ => 1
  }

  function TaskDistance(p: LoadPhase): nat {
    match p
    case Spawned => 7
    case FirstPausedCheck => 6
    case OnWire => 5
    case SecondPausedCheck(_) => 4
    case LateReadAlive(_) => 3
    case LateReadAllowed(_, _) => 2
    case Stopping(_, _) => 1
    case Finished(_) => 0
  }

  /** The next step of a teardown that leaves LOAD `h` alone. */
  lemma TeardownStepPast(s: Session, h: LoadId) returns (a: Action)
    requires Sound(s) && TasksJoined(s.gen.teardown) && !s.gen.teardown.Over?
    requires h in s.re.dropped && Unfinished(s.re, h)
    ensures Enabled(s, a) && h in Apply(s, a).re.loads && Apply(s, a).re.loads[h] == s.re.loads[h]
    ensures TeardownDistance(Apply(s, a)) < TeardownDistance(s)
  {
    var td := s.gen.teardown;
    if td.TakeInflight? && s.re.slotLock.Some? {
      a := SlotStepPast(s, h);
    } else if td.JoinInflight? && td.handle.Some? && !LoadFinished(s.re, td.handle.value) {
      a := LoadStepPast(s, h);
    } else {
      a := TeardownRun;
      assert TeardownReady(s) && TeardownStep(s).re.loads == s.re.loads;
    }
  }

  lemma LoadStepPast(s: Session, h: LoadId) returns (a: Action)
    requires Sound(s) && s.gen.teardown.JoinInflight? && s.gen.teardown.handle.Some?
    requires !LoadFinished(s.re, s.gen.teardown.handle.value) && h in s.re.dropped && h in s.re.loads
    ensures Enabled(s, a) && h in Apply(s, a).re.loads && Apply(s, a).re.loads[h] == s.re.loads[h]
    ensures TeardownDistance(Apply(s, a)) < TeardownDistance(s)
  {
    var k := s.gen.teardown.handle.value;
    a := LoadRun(k, true);
    assert Apply(s, a) == LoadStep(s, k, true) && Apply(s, a).gen == s.gen;
  }

  /** The holder of the slot lock is about to leave it. */
  lemma SlotStepPast(s: Session, h: LoadId) returns (a: Action)
    requires Sound(s) && s.gen.teardown.TakeInflight? && s.re.slotLock.Some? && h in s.re.loads
    ensures Enabled(s, a) && h in Apply(s, a).re.loads && Apply(s, a).re.loads[h] == s.re.loads[h]
    ensures TeardownDistance(Apply(s, a)) < TeardownDistance(s)
  {
    var t := s.re.slotLock.value;
    var k := NewNumber(s.re.loads.Keys);
    a := FlowRun(t, k);
    assert Apply(s, a) == s.(re := PublishStage(s.gen, s.re, t, k));
  }

  lemma {:induction false} DroppedCanBeMissed(s: Session, h: LoadId) returns (acts: seq<Action>)
    requires Sound(s) && TasksJoined(s.gen.teardown) && h in s.re.dropped && Unfinished(s.re, h)
    ensures Execute(s, acts).Some? && Execute(s, acts).value.gen.teardown.Over?
    ensures Unfinished(Execute(s, acts).value.re, h)
    decreases TeardownDistance(s)
  {
    if s.gen.teardown.Over? {
      acts := [];
    } else {
      var a := TeardownStepPast(s, h);
      StepKeepsSound(s, a);
      LateStep(s, a, h);
      var rest := DroppedCanBeMissed(Apply(s, a), h);
      StepThenExecute(s, a, rest);
      acts := [a] + rest;
    }
  }

  /**
   Exactly which LOADs a teardown can miss, once it has joined its tasks: some continuation sends the
   STOP and ends with LOAD `h` running if and only if `h` runs now and its handle was dropped.
   */
  lemma MissedIffDropped(states: seq<Session>, acts: seq<Action>, h: LoadId)
    requires Run(states, acts) && TasksJoined(states[|acts|].gen.teardown) && h in states[|acts|].re.loads
    ensures CanMiss(states[|acts|], h)
            <==> Unfinished(states[|acts|].re, h) && exists i :: 0 <= i < |acts| && AbortsJoin(states[i], acts[i], h)
  {
    var s := states[|acts|];
    RunIsSound(states, acts, |acts|);
    DroppedIffAborted(states, acts, |acts|, h);
    if CanMiss(s, h) {
      var more :| Execute(s, more).Some? && Execute(s, more).value.gen.teardown.Over?
                  && Unfinished(Execute(s, more).value.re, h);
      MissMeansDropped(s, more, h);
    }
    if Unfinished(s.re, h) && h in s.re.dropped {
      var more := DroppedCanBeMissed(s, h);
    }
  }
}
