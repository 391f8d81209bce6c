/**
 What holds while a generation has its slot: at most one LOAD runs, and the flow that waits for it
 holds the flight lock. Draining runs only finish what was started, with commands that Cast accepts.
 */
module LiveSession {
  import opened Common
  import opened SessionModel
  import opened SessionLocks
  import opened FlushLedger
  import opened ReplaceStop
  import opened TeardownJoins

  // ----- invariant ----------------------------------------------------------------------------

  predicate HoldsFlight(p: FlowPhase) {
    UsesFlight(p) || p.DiscardStop?
  }

  /** A rollover LOAD has no pause checks, and a LOAD task stops Cast for a pause or because it is late. */
  predicate LoadShaped(l: Load) {
    && (l.phase.FirstPausedCheck? || l.phase.SecondPausedCheck? ==> !l.rollover)
    && (l.phase.Stopping? ==>
          l.phase.cause.LateLoad? || (l.phase.cause.PausedDuringLoad? && l.phase.result.PausedLoad?))
  }

  ghost predicate FlightInv(td: Teardown, r: Reloads) {
    && (forall h :: h in r.loads ==> LoadShaped(r.loads[h]))
    && (r.flight.Some? ==> r.flight.value in r.flows && HoldsFlight(r.flows[r.flight.value].phase))
    && (td.NotStarted? ==>
          && r.dropped == {}
          && forall t :: t in r.flows ==>
               !r.flows[t].phase.JoinPrior? && (HoldsFlight(r.flows[t].phase) ==> r.flight == Some(t)))
  }

  lemma EndKeepsFlightInv(td: Teardown, r: Reloads, t: TaskId)
    requires FlightExclusive(r) && FlightInv(td, r) && t in r.flows
    ensures FlightInv(td, EndFlow(r, t))
  {
  }

  lemma MoveKeepsFlightInv(td: Teardown, r: Reloads, t: TaskId, f: Flow)
    requires FlightInv(td, r) && t in r.flows && !f.phase.JoinPrior?
    requires HoldsFlight(f.phase) == HoldsFlight(r.flows[t].phase)
    ensures FlightInv(td, r.(flows := r.flows[t := f]))
  {
  }

  lemma AcquireKeepsFlightInv(td: Teardown, r: Reloads, t: TaskId, p: FlowPhase)
    requires FlightExclusive(r) && FlightInv(td, r) && t in r.flows && r.flight.None? && UsesFlight(p) && !p.JoinPrior?
    ensures FlightInv(td, SetFlow(r, t, p).(flight := Some(t)))
  {
  }

  lemma GateKeepsFlightInv(s: Session, t: TaskId, h: LoadId)
    requires FlightExclusive(s.re) && FlightInv(s.gen.teardown, s.re)
    requires FlowReady(s.re, t, h) && Gated(s.re.flows[t].phase)
    ensures FlightInv(s.gen.teardown, GateStage(s.gen, s.re, t))
  {
    var td, f, r := s.gen.teardown, s.re.flows[t], GateStage(s.gen, s.re, t);
    if f.phase.WaitFlight? {
      AcquireKeepsFlightInv(td, s.re, t, if f.rollover then TakePrior else FirstGate);
    } else if t in r.flows {
      MoveKeepsFlightInv(td, s.re, t, r.flows[t]);
    } else {
      EndKeepsFlightInv(td, s.re, t);
    }
  }

  lemma TakePriorKeepsFlightInv(s: Session, t: TaskId)
    requires FlightExclusive(s.re) && FlightInv(s.gen.teardown, s.re)
    requires t in s.re.flows && s.re.flows[t].phase.TakePrior?
    requires s.gen.teardown.NotStarted? ==> s.re.inflight.None?
    ensures FlightInv(s.gen.teardown, JoinStage(s.re, t))
  {
  }

  lemma JoinKeepsFlightInv(s: Session, t: TaskId, h: LoadId)
    requires FlightExclusive(s.re) && SlotInv(s.gen.teardown, s.re) && FlightInv(s.gen.teardown, s.re)
    requires FlowReady(s.re, t, h) && Joining(s.re.flows[t].phase)
    ensures FlightInv(s.gen.teardown, JoinStage(s.re, t))
  {
    if s.re.flows[t].phase.TakePrior? {
      TakePriorKeepsFlightInv(s, t);
    } else {
      AwaitKeepsFlightInv(s.gen.teardown, s.re, t);
    }
  }

  lemma AwaitKeepsFlightInv(td: Teardown, r: Reloads, t: TaskId)
    requires FlightExclusive(r) && FlightInv(td, r)
    requires t in r.flows && Joining(r.flows[t].phase) && !r.flows[t].phase.TakePrior?
    ensures FlightInv(td, JoinStage(r, t))
  {
  }

  lemma PublishKeepsFlightInv(s: Session, t: TaskId, h: LoadId)
    requires FlightExclusive(s.re) && FlightInv(s.gen.teardown, s.re) && FlowReady(s.re, t, h)
    requires Publishing(s.re.flows[t].phase)
    ensures FlightInv(s.gen.teardown, PublishStage(s.gen, s.re, t, h))
  {
  }

  lemma LaterKeepsFlightInv(s: Session, t: TaskId, h: LoadId)
    requires FlightExclusive(s.re) && FlightInv(s.gen.teardown, s.re) && FlowReady(s.re, t, h)
    requires var p := s.re.flows[t].phase; !Gated(p) && !Joining(p) && !Publishing(p)
    ensures FlightInv(s.gen.teardown, FlowStep(s, t, h).re)
  {
    var td, r := s.gen.teardown, FlowStep(s, t, h).re;
    LaterMoves(s, t, h);
    if t in r.flows {
      MoveKeepsFlightInv(td, s.re, t, r.flows[t]);
    } else {
      EndKeepsFlightInv(td, s.re, t);
    }
  }

  /** The result of a LOAD is settled without another flow or LOAD being touched. */
  lemma LaterMoves(s: Session, t: TaskId, h: LoadId)
    requires FlowReady(s.re, t, h)
    requires var p := s.re.flows[t].phase; !Gated(p) && !Joining(p) && !Publishing(p)
    ensures var r := FlowStep(s, t, h).re;
            && (t in r.flows ==>
                  && r == s.re.(flows := s.re.flows[t := r.flows[t]])
                  && HoldsFlight(r.flows[t].phase) && !r.flows[t].phase.JoinPrior?)
            && (t !in r.flows ==> r == EndFlow(s.re, t).(accepted := r.accepted))
  {
  }

  lemma FlowRunKeepsFlightInv(s: Session, t: TaskId, h: LoadId)
    requires Sound(s) && FlightInv(s.gen.teardown, s.re) && FlowReady(s.re, t, h)
    ensures FlightInv(FlowStep(s, t, h).gen.teardown, FlowStep(s, t, h).re)
  {
    FlowDropsNothing(s, t, h);
    var p := s.re.flows[t].phase;
    if Gated(p) {
      GateKeepsFlightInv(s, t, h);
    } else if Joining(p) {
      JoinKeepsFlightInv(s, t, h);
    } else if Publishing(p) {
      PublishKeepsFlightInv(s, t, h);
    } else {
      LaterKeepsFlightInv(s, t, h);
    }
  }

  lemma LoadRunKeepsFlightInv(s: Session, h: LoadId, ok: bool)
    requires FlightInv(s.gen.teardown, s.re) && h in s.re.loads && !s.re.loads[h].phase.Finished?
    ensures FlightInv(s.gen.teardown, LoadStep(s, h, ok).re)
  {
  }

  lemma StepKeepsFlightInv(s: Session, a: Action)
    requires Sound(s) && FlightInv(s.gen.teardown, s.re) && Enabled(s, a)
    ensures FlightInv(Apply(s, a).gen.teardown, Apply(s, a).re)
  {
    match a
    case FlowRun(t, h) => FlowRunKeepsFlightInv(s, t, h);
    case LoadRun(h, ok) => LoadRunKeepsFlightInv(s, h, ok);
    case _ => OtherKeepsFlightInv(s, a);
  }

  lemma OtherKeepsFlightInv(s: Session, a: Action)
    requires Atomics(s.gen) && FlightInv(s.gen.teardown, s.re) && Enabled(s, a) && !a.FlowRun? && !a.LoadRun?
    ensures FlightInv(Apply(s, a).gen.teardown, Apply(s, a).re)
  {
    if a.FlowAbort? {
      AbortKeepsFlightInv(s, a.t);
    } else {
      QuietKeepsFlightInv(s, a);
    }
  }

  lemma AbortKeepsFlightInv(s: Session, t: TaskId)
    requires FlightInv(s.gen.teardown, s.re) && Enabled(s, FlowAbort(t))
    ensures FlightInv(s.gen.teardown, AbortFlow(s.re, t))
  {
  }

  lemma QuietKeepsFlightInv(s: Session, a: Action)
    requires Atomics(s.gen) && FlightInv(s.gen.teardown, s.re) && Enabled(s, a)
    requires !a.FlowRun? && !a.LoadRun? && !a.FlowAbort?
    ensures FlightInv(Apply(s, a).gen.teardown, Apply(s, a).re)
  {
  }

  lemma {:induction false} RunKeepsFlightInv(states: seq<Session>, acts: seq<Action>, n: nat)
    requires Run(states, acts) && n < |states|
    ensures FlightInv(states[n].gen.teardown, states[n].re)
  {
    if n > 0 {
      RunKeepsFlightInv(states, acts, n - 1);
      RunIsSound(states, acts, n - 1);
      StepKeepsFlightInv(states[n - 1], acts[n - 1]);
    }
  }

  // ----- a live session -------------------------------------------------------------------------

  ghost predicate Live(s: Session) {
    s.gen.live && Sound(s) && FlightInv(s.gen.teardown, s.re) && CauseInv(s) && LedgerInv(s)
  }

  lemma RunIsLive(states: seq<Session>, acts: seq<Action>, n: nat)
    requires Run(states, acts) && n < |states| && states[n].gen.live
    ensures Live(states[n])
  {
    RunIsSound(states, acts, n);
    RunKeepsFlightInv(states, acts, n);
    RunKeepsCause(states, acts, n);
    RunKeepsLedger(states, acts, n);
  }

  lemma LiveFacts(s: Session)
    requires Live(s)
    ensures s.gen.alive && s.gen.teardown.NotStarted?
    ensures forall h :: Unfinished(s.re, h) ==>
              s.re.flight.Some? && s.re.flight.value in s.re.flows
              && s.re.flows[s.re.flight.value].phase == AwaitLoad(h)
    ensures forall t :: t in s.re.flows && s.re.flight != Some(t) ==>
              var p := s.re.flows[t].phase; p.Unspawned? || p.Planning? || p.WaitFlight?
    ensures forall h :: h in s.re.loads && s.re.loads[h].phase.LateReadAllowed? ==> s.re.loads[h].phase.sawAlive
    ensures forall h :: h in s.re.loads && s.re.loads[h].phase.Stopping? ==> s.re.loads[h].phase.result.PausedLoad?
    ensures forall t :: t in s.re.flows && s.re.flows[t].phase.DiscardReadAllowed? ==> s.re.flows[t].phase.sawAlive
    ensures forall t :: t in s.re.flows && s.re.flows[t].phase.DiscardStop? ==> s.re.flows[t].phase.sawPaused
  {
    forall h: LoadId | Unfinished(s.re, h)
      ensures s.re.flight.Some? && s.re.flight.value in s.re.flows
              && s.re.flows[s.re.flight.value].phase == AwaitLoad(h)
    {
      assert s.re.inflight == Some(h);
    }
    forall h | h in s.re.loads
      ensures s.re.loads[h].phase.LateReadAllowed? ==> s.re.loads[h].phase.sawAlive
      ensures s.re.loads[h].phase.Stopping? ==> s.re.loads[h].phase.result.PausedLoad?
    {
      assert LoadCause(s.gen, s.cast.everPaused, s.re.loads[h].phase);
      assert LoadShaped(s.re.loads[h]);
    }
    forall t | t in s.re.flows
      ensures s.re.flows[t].phase.DiscardReadAllowed? ==> s.re.flows[t].phase.sawAlive
      ensures s.re.flows[t].phase.DiscardStop? ==> s.re.flows[t].phase.sawPaused
    {
      assert FlowCause(s.gen, s.cast.everPaused, s.re.flows[t].phase);
    }
  }

  // ----- draining -----------------------------------------------------------------------------

  /** Steps that finish what was started; Cast accepts every command. */
  predicate Drains(a: Action) {
    match a
    case ResumeSpawn(_) => true
    case TransportRun(_) => true
    case TransportAnswer(_, ok) => ok
    case PlayFailed(_, _) => true
    case FlowRun(_, _) => true
    case LoadRun(_, ok) => ok
    case _ => false
  }

  lemma DrainKeepsLive(s: Session, a: Action)
    requires Live(s) && Enabled(s, a) && Drains(a)
    ensures Live(Apply(s, a)) && Apply(s, a).gen.ledger.paused == s.gen.ledger.paused
  {
    StepKeepsSound(s, a);
    StepKeepsFlightInv(s, a);
    StepKeepsCause(s, a);
    StepKeepsLedger(s, a);
    DrainKeepsFlag(s, a);
  }

  lemma DrainKeepsFlag(s: Session, a: Action)
    requires Enabled(s, a) && Drains(a)
    ensures Apply(s, a).gen.live == s.gen.live && Apply(s, a).gen.ledger.paused == s.gen.ledger.paused
  {
  }

  /** No task, no flow and no LOAD is left. */
  ghost predicate Quiet(s: Session) {
    && s.gen.worker.Ready? && s.cmds.tasks == map[] && s.re.flows == map[]
    && forall h :: h in s.re.loads ==> s.re.loads[h].phase.Finished?
  }
}
