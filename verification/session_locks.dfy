/**
 What the locks, the two atomics and the teardown order guarantee in every reachable state. The
 other session invariants are proved on top of this one.
 */
module SessionLocks {
  import opened Common
  import opened SessionModel

  /** The write order of the teardown: late_stop_allowed first (replace only), session_alive second. */
  predicate Atomics(g: Generation) {
    && (g.live <==> g.teardown.NotStarted?)
    && (g.alive <==> g.teardown.NotStarted? || g.teardown.Mark? || g.teardown.ClearAlive?)
    && (g.lateStopAllowed <==> g.teardown.NotStarted? || g.teardown.Mark? || g.teardown.policy.StopBestEffort?)
  }

  predicate UsesTransport(p: TransportPhase) {
    !p.Queued? && !p.Respawn?
  }

  ghost predicate TransportExclusive(c: Transports) {
    && (forall t :: t in c.tasks && UsesTransport(c.tasks[t].phase) ==> c.lock == Some(t))
    && (c.lock.Some? ==> c.lock.value in c.tasks && UsesTransport(c.tasks[c.lock.value].phase))
    && (forall t :: t in c.tasks && c.tasks[t].phase.Respawn? ==> c.tasks[t].play)
  }

  /** Phases in which a flow holds the flight lock (a detached discard STOP no longer does). */
  predicate UsesFlight(p: FlowPhase) {
    !p.Unspawned? && !p.Planning? && !p.WaitFlight? && !p.DiscardStop?
  }

  predicate UsesSlot(p: FlowPhase) {
    p.PublishReadAlive? || p.PublishReadPaused? || p.Publish?
  }

  ghost predicate FlightExclusive(r: Reloads) {
    && (forall t :: t in r.flows && UsesFlight(r.flows[t].phase) ==> r.flight == Some(t))
    && (r.flight.Some? ==> r.flight.value in r.flows)
    && (forall t :: t in r.flows && UsesSlot(r.flows[t].phase) ==> r.slotLock == Some(t))
    && (r.slotLock.Some? ==> r.slotLock.value in r.flows && UsesSlot(r.flows[r.slotLock.value].phase))
  }

  /** A flow step touches no other flow, and of the LOADs only a new one or one it cancels. */
  lemma FlowStepFrame(s: Session, t: TaskId, h: LoadId)
    requires FlowReady(s.re, t, h)
    ensures var r := FlowStep(s, t, h).re;
            && (forall u :: u in r.flows && u != t ==> u in s.re.flows && r.flows[u] == s.re.flows[u])
            && (forall u :: u in s.re.flows && u != t ==> u in r.flows)
            && (t in r.flows ==> r.flows[t] == s.re.flows[t].(owned := r.flows[t].owned, phase := r.flows[t].phase))
  {
  }

  lemma FlowStepLoads(s: Session, t: TaskId, h: LoadId)
    requires FlowReady(s.re, t, h)
    ensures var r := FlowStep(s, t, h).re;
            && (forall k :: k in r.loads && k !in s.re.loads ==>
                  r.loads[k].phase.Spawned? && r.loads[k].rollover == s.re.flows[t].rollover)
            && (forall k :: k in s.re.loads ==>
                  && k in r.loads
                  && (r.loads[k] == s.re.loads[k] ||
                      (s.re.loads[k].phase.Spawned? && r.loads[k] == s.re.loads[k].(phase := Finished(Cancelled)))))
  {
  }

  ghost predicate Structure(s: Session) {
    && Atomics(s.gen)
    && TransportExclusive(s.cmds)
    && FlightExclusive(s.re)
  }

  lemma GateKeepsFlight(g: Generation, r: Reloads, t: TaskId, h: LoadId)
    requires FlightExclusive(r) && FlowReady(r, t, h) && Gated(r.flows[t].phase)
    ensures FlightExclusive(GateStage(g, r, t))
  {
  }

  lemma JoinKeepsFlight(r: Reloads, t: TaskId, h: LoadId)
    requires FlightExclusive(r) && FlowReady(r, t, h) && Joining(r.flows[t].phase)
    ensures FlightExclusive(JoinStage(r, t))
  {
  }

  lemma PublishKeepsFlight(g: Generation, r: Reloads, t: TaskId, h: LoadId)
    requires FlightExclusive(r) && FlowReady(r, t, h) && Publishing(r.flows[t].phase)
    ensures FlightExclusive(PublishStage(g, r, t, h))
  {
  }

  lemma FlowRunKeepsFlight(s: Session, t: TaskId, h: LoadId)
    requires FlightExclusive(s.re) && FlowReady(s.re, t, h)
    ensures FlightExclusive(FlowStep(s, t, h).re)
  {
    var p := s.re.flows[t].phase;
    if Gated(p) {
      GateKeepsFlight(s.gen, s.re, t, h);
    } else if Joining(p) {
      JoinKeepsFlight(s.re, t, h);
    } else if Publishing(p) {
      PublishKeepsFlight(s.gen, s.re, t, h);
    }
  }

  lemma StepKeepsFlight(s: Session, a: Action)
    requires FlightExclusive(s.re) && Enabled(s, a)
    ensures FlightExclusive(Apply(s, a).re)
  {
    if a.FlowRun? {
      FlowRunKeepsFlight(s, a.t, a.h);
    } else {
      OtherStepKeepsFlight(s, a);
    }
  }

  lemma OtherStepKeepsFlight(s: Session, a: Action)
    requires FlightExclusive(s.re) && Enabled(s, a) && !a.FlowRun?
    ensures FlightExclusive(Apply(s, a).re)
  {
  }

  lemma StepKeepsTransport(s: Session, a: Action)
    requires TransportExclusive(s.cmds) && Enabled(s, a)
    ensures TransportExclusive(Apply(s, a).cmds)
  {
  }

  lemma StepKeepsAtomics(s: Session, a: Action)
    requires Atomics(s.gen) && Enabled(s, a)
    ensures Atomics(Apply(s, a).gen)
  {
  }

  lemma StepKeepsStructure(s: Session, a: Action)
    requires Structure(s) && Enabled(s, a)
    ensures Structure(Apply(s, a))
  {
    StepKeepsFlight(s, a);
    StepKeepsTransport(s, a);
    StepKeepsAtomics(s, a);
  }

  lemma {:induction false} RunHasStructure(states: seq<Session>, acts: seq<Action>, n: nat)
    requires Run(states, acts) && n < |states|
    ensures Structure(states[n])
  {
    if n > 0 {
      RunHasStructure(states, acts, n - 1);
      StepKeepsStructure(states[n - 1], acts[n - 1]);
    }
  }

  /**
   A generation that lost its slot is frozen: no step writes its ledger, accepts a LOAD for it or
   gives it a new PAUSE or PLAY task.
   */
  lemma DeadGenerationIsFrozen(s: Session, a: Action)
    requires Structure(s) && Enabled(s, a) && !s.gen.live
    ensures !Apply(s, a).gen.live && Apply(s, a).gen.ledger == s.gen.ledger
    ensures Apply(s, a).re.accepted == s.re.accepted
    ensures Apply(s, a).cmds.tasks.Keys <= s.cmds.tasks.Keys
  {
    if a.FlowRun? {
      DeadFlowAcceptsNothing(s, a.t, a.h);
    }
  }

  /** Along a run: from the moment the slot is lost nothing of the generation changes any more. */
  lemma {:induction false} DeadGenerationStaysFrozen(states: seq<Session>, acts: seq<Action>, i: nat, j: nat)
    requires Run(states, acts) && i <= j < |states| && !states[i].gen.live
    ensures !states[j].gen.live && states[j].gen.ledger == states[i].gen.ledger
    ensures states[j].re.accepted == states[i].re.accepted
    ensures states[j].cmds.tasks.Keys <= states[i].cmds.tasks.Keys
    decreases j - i
  {
    if i < j {
      DeadGenerationStaysFrozen(states, acts, i, j - 1);
      RunHasStructure(states, acts, j - 1);
      DeadGenerationIsFrozen(states[j - 1], acts[j - 1]);
    }
  }

  lemma DeadFlowAcceptsNothing(s: Session, t: TaskId, h: LoadId)
    requires FlowReady(s.re, t, h) && !s.gen.live
    ensures var r := FlowStep(s, t, h);
            r.gen == s.gen && r.re.accepted == s.re.accepted && r.cmds == s.cmds
  {
  }
}
