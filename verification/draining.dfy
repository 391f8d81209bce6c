/**
 What the steps of a draining run do to the LOADs and STOPs that are still ahead: only a LOAD or STOP
 command changes them.
 */
module Draining {
  import opened Common
  import opened SessionModel
  import opened SessionLocks
  import opened FlushLedger
  import opened ReplaceStop
  import opened TeardownJoins
  import opened LiveSession

  // ----- LOADs ahead ----------------------------------------------------------------------------

  /** The LOAD succeeded and will end with success, unless it sees the pause flag. */
  predicate Succeeding(p: LoadPhase) {
    (p.SecondPausedCheck? && p.ok) || Succeeded(p)
  }

  /** How many flushes will be covered by the re-LOAD that holds the flight lock, if it is accepted. */
  function CoversAhead(r: Reloads): nat {
    if r.flight.None? || r.flight.value !in r.flows || r.flows[r.flight.value].rollover then 0
    else match r.flows[r.flight.value].phase
      case AwaitLoad(h) => if h in r.loads && Succeeding(r.loads[h].phase) then r.loads[h].covers else 0
      case TakeOwn(h, result) => if h in r.loads && result == Done(true) then r.loads[h].covers else 0
      case Settle(h, result) => if h in r.loads && result == Done(true) then r.loads[h].covers else 0
      case _ => 0
  }

  function DoneAhead(s: Session): nat {
    Max(s.gen.ledger.done, CoversAhead(s.re))
  }

  /** A re-LOAD for `request` still has to load something when `done` flushes are covered. */
  predicate Unmet(request: Option<nat>, done: nat) {
    request.None? || request.value > done
  }

  /** The flow will publish a LOAD, while the session stays live and unpaused. */
  predicate FlowLoads(f: Flow, done: nat) {
    match f.phase
    case Unspawned => f.rollover || Unmet(f.request, done)
    case Planning => f.rollover || Unmet(f.request, done)
    case WaitFlight => f.rollover || Unmet(f.request, done)
    case FirstGate => f.rollover || Unmet(f.request, done)
    case TakePrior => f.rollover || Unmet(f.request, done)
    case WaitLead => f.rollover || Unmet(f.request, done)
    case SecondGate => f.rollover || Unmet(f.request, done)
    case RecheckAlive => true
    case LockSlot(_) => true
    case PublishReadAlive(_) => true
    case PublishReadPaused(_) => true
    case Publish(_) => true
    case _ => false
  }

  predicate BeforeWire(p: LoadPhase) {
    p.Spawned? || p.FirstPausedCheck? || p.OnWire?
  }

  /** A LOAD command is still to come. */
  ghost predicate LoadAhead(s: Session) {
    || (s.gen.worker.SpawnReload? && Unmet(s.gen.worker.request, DoneAhead(s)))
    || (exists t :: t in s.cmds.tasks && s.cmds.tasks[t].phase.Respawn?)
    || FlowLoadAhead(s.re, DoneAhead(s))
  }

  ghost predicate FlowLoadAhead(r: Reloads, done: nat) {
    || (exists t :: t in r.flows && FlowLoads(r.flows[t], done))
    || (exists h :: h in r.loads && BeforeWire(r.loads[h].phase))
  }

  // ----- the kinds of steps ---------------------------------------------------------------------

  /** A step of a flow or a LOAD that sends nothing to Cast. */
  predicate Silent(s: Session, a: Action) {
    match a
    case FlowRun(t, _) => t in s.re.flows && !s.re.flows[t].phase.DiscardStop?
    case LoadRun(h, _) => h in s.re.loads && !s.re.loads[h].phase.OnWire? && !s.re.loads[h].phase.Stopping?
    case _ => false
  }

  predicate SendsStop(s: Session, a: Action) {
    match a
    case FlowRun(t, _) => t in s.re.flows && s.re.flows[t].phase.DiscardStop?
    case LoadRun(h, _) => h in s.re.loads && s.re.loads[h].phase.Stopping?
    case _ => false
  }

  // ----- unpaused: what a flow step does to the LOADs ahead ---------------------------------------

  ghost predicate Unpaused(s: Session) {
    Live(s) && !s.gen.ledger.paused
  }

  /** What the invariants say of one flow of a live session. */
  ghost predicate FlowFacts(s: Session, t: TaskId) {
    t in s.re.flows && s.gen.live && s.gen.alive &&
    var f := s.re.flows[t];
    && Shaped(f) && OwnLoad(f, s.re.loads)
    && (if HoldsFlight(f.phase) then s.re.flight == Some(t) else s.re.flight != Some(t))
    && !f.phase.JoinPrior?
    && (f.phase.TakePrior? ==> s.re.inflight.None?)
    && (f.phase.DiscardReadAllowed? ==> f.phase.sawAlive)
    && (f.phase.DiscardStop? ==> f.phase.sawPaused)
  }

  lemma LiveFlowFacts(s: Session, t: TaskId)
    requires Live(s) && t in s.re.flows
    ensures FlowFacts(s, t)
  {
    LiveFacts(s);
    assert OwnLoad(s.re.flows[t], s.re.loads);
  }

  lemma GateCovers(s: Session, t: TaskId, h: LoadId)
    requires FlowFacts(s, t) && !s.gen.ledger.paused && FlowReady(s.re, t, h) && Gated(s.re.flows[t].phase)
    ensures CoversAhead(GateStage(s.gen, s.re, t)) == CoversAhead(s.re)
  {
  }

  lemma JoinCovers(s: Session, t: TaskId, h: LoadId)
    requires FlowFacts(s, t) && FlowReady(s.re, t, h) && Joining(s.re.flows[t].phase)
    ensures CoversAhead(JoinStage(s.re, t)) == CoversAhead(s.re)
  {
  }

  lemma PublishCovers(s: Session, t: TaskId, h: LoadId)
    requires FlowFacts(s, t) && FlowReady(s.re, t, h) && Publishing(s.re.flows[t].phase)
    ensures CoversAhead(PublishStage(s.gen, s.re, t, h)) == CoversAhead(s.re)
  {
  }

  lemma SettleCovers(s: Session, t: TaskId, h: LoadId)
    requires FlowFacts(s, t) && !s.gen.ledger.paused && FlowReady(s.re, t, h)
    requires var p := s.re.flows[t].phase; !Gated(p) && !Joining(p) && !Publishing(p)
    ensures DoneAhead(FlowStep(s, t, h)) == DoneAhead(s)
  {
  }

  lemma FlowKeepsDoneAhead(s: Session, t: TaskId, h: LoadId)
    requires FlowFacts(s, t) && !s.gen.ledger.paused && FlowReady(s.re, t, h)
    ensures DoneAhead(FlowStep(s, t, h)) == DoneAhead(s)
  {
    var p := s.re.flows[t].phase;
    if Gated(p) {
      GateCovers(s, t, h);
    } else if Joining(p) {
      JoinCovers(s, t, h);
    } else if Publishing(p) {
      PublishCovers(s, t, h);
    } else {
      SettleCovers(s, t, h);
    }
  }

  lemma LoadKeepsDoneAhead(s: Session, h: LoadId)
    requires s.gen.alive && !s.gen.ledger.paused && Enabled(s, LoadRun(h, true)) && !s.re.loads[h].phase.OnWire?
    requires LiveLoad(s.re.loads[h].phase)
    ensures DoneAhead(LoadStep(s, h, true)) == DoneAhead(s)
  {
    var r := LoadStep(s, h, true).re;
    assert r.flows == s.re.flows && r.flight == s.re.flight && r.loads == s.re.loads[h := r.loads[h]];
    assert Succeeding(r.loads[h].phase) <==> Succeeding(s.re.loads[h].phase);
  }

  /** A LOAD of a live session saw it alive, and is stopped only for a pause. */
  predicate LiveLoad(p: LoadPhase) {
    (p.LateReadAllowed? ==> p.sawAlive) && (p.Stopping? ==> p.result.PausedLoad?)
  }

  lemma LiveLoads(s: Session, h: LoadId)
    requires Live(s) && h in s.re.loads
    ensures s.gen.alive && LiveLoad(s.re.loads[h].phase)
  {
    LiveFacts(s);
  }

  /** The flow will still publish a LOAD, or it just did. */
  predicate StillLoads(r: Reloads, t: TaskId, h: LoadId, done: nat) {
    (t in r.flows && FlowLoads(r.flows[t], done)) || (h in r.loads && r.loads[h].phase.Spawned?)
  }

  lemma GateMovesLoads(s: Session, t: TaskId, h: LoadId)
    requires FlowFacts(s, t) && !s.gen.ledger.paused && FlowReady(s.re, t, h) && Gated(s.re.flows[t].phase)
    ensures var r, d := GateStage(s.gen, s.re, t), DoneAhead(s);
            FlowLoads(s.re.flows[t], d) <==> t in r.flows && FlowLoads(r.flows[t], d)
  {
  }

  /** The flow itself will load after the step exactly if it would before, or its LOAD is on the way. */
  lemma MovedFlowLoads(s: Session, t: TaskId, h: LoadId)
    requires FlowFacts(s, t) && !s.gen.ledger.paused && FlowReady(s.re, t, h)
    ensures var r, d := FlowStep(s, t, h).re, DoneAhead(s);
            && (t in r.flows && FlowLoads(r.flows[t], d) ==> FlowLoads(s.re.flows[t], d))
            && (FlowLoads(s.re.flows[t], d) ==> StillLoads(r, t, h, d))
  {
    if Gated(s.re.flows[t].phase) {
      GateMovesLoads(s, t, h);
    } else {
      PastGatesMovesLoads(s, t, h);
    }
  }

  lemma PastGatesMovesLoads(s: Session, t: TaskId, h: LoadId)
    requires FlowFacts(s, t) && !s.gen.ledger.paused && FlowReady(s.re, t, h) && !Gated(s.re.flows[t].phase)
    ensures var r, d := FlowStep(s, t, h).re, DoneAhead(s);
            && (t in r.flows && FlowLoads(r.flows[t], d) ==> FlowLoads(s.re.flows[t], d))
            && (FlowLoads(s.re.flows[t], d) ==> StillLoads(r, t, h, d))
  {
  }

  /** While the session is live a flow cancels no LOAD, and adds one only when it publishes it. */
  lemma LiveFlowLoads(s: Session, t: TaskId, h: LoadId)
    requires FlowFacts(s, t) && FlowReady(s.re, t, h)
    ensures FlowStep(s, t, h).re.loads
            == if s.re.flows[t].phase.Publish?
               then s.re.loads[h := Load(s.re.flows[t].rollover, s.re.flows[t].phase.covers, 0, Spawned)]
               else s.re.loads
  {
  }

  lemma FlowStepAddsNoLoadAhead(s: Session, t: TaskId, h: LoadId)
    requires FlowFacts(s, t) && !s.gen.ledger.paused && FlowReady(s.re, t, h)
    requires FlowLoadAhead(FlowStep(s, t, h).re, DoneAhead(s))
    ensures FlowLoadAhead(s.re, DoneAhead(s))
  {
    var r, d := FlowStep(s, t, h).re, DoneAhead(s);
    FlowStepFrame(s, t, h);
    LiveFlowLoads(s, t, h);
    MovedFlowLoads(s, t, h);
    if u :| u in r.flows && FlowLoads(r.flows[u], d) {
      assert u in s.re.flows && FlowLoads(s.re.flows[u], d);
    } else {
      var k :| k in r.loads && BeforeWire(r.loads[k].phase);
      if k in s.re.loads && BeforeWire(s.re.loads[k].phase) {
      } else {
        assert FlowLoads(s.re.flows[t], d);
      }
    }
  }

  lemma FlowStepLosesNoLoadAhead(s: Session, t: TaskId, h: LoadId)
    requires FlowFacts(s, t) && !s.gen.ledger.paused && FlowReady(s.re, t, h)
    requires FlowLoadAhead(s.re, DoneAhead(s))
    ensures FlowLoadAhead(FlowStep(s, t, h).re, DoneAhead(s))
  {
    var r, d := FlowStep(s, t, h).re, DoneAhead(s);
    FlowStepFrame(s, t, h);
    LiveFlowLoads(s, t, h);
    MovedFlowLoads(s, t, h);
    if u :| u in s.re.flows && FlowLoads(s.re.flows[u], d) {
      if u != t {
        assert FlowLoads(r.flows[u], d);
      } else if h in r.loads && r.loads[h].phase.Spawned? {
        assert BeforeWire(r.loads[h].phase);
      }
    } else {
      var k :| k in s.re.loads && BeforeWire(s.re.loads[k].phase);
      assert k in r.loads && BeforeWire(r.loads[k].phase);
    }
  }

  lemma FlowKeepsFlowLoadAhead(s: Session, t: TaskId, h: LoadId)
    requires FlowFacts(s, t) && !s.gen.ledger.paused && FlowReady(s.re, t, h)
    ensures FlowLoadAhead(FlowStep(s, t, h).re, DoneAhead(s)) <==> FlowLoadAhead(s.re, DoneAhead(s))
  {
    if FlowLoadAhead(s.re, DoneAhead(s)) {
      FlowStepLosesNoLoadAhead(s, t, h);
    }
    if FlowLoadAhead(FlowStep(s, t, h).re, DoneAhead(s)) {
      FlowStepAddsNoLoadAhead(s, t, h);
    }
  }

  lemma LoadKeepsFlowLoadAhead(s: Session, h: LoadId)
    requires s.gen.alive && !s.gen.ledger.paused && Enabled(s, LoadRun(h, true)) && !s.re.loads[h].phase.OnWire?
    ensures FlowLoadAhead(LoadStep(s, h, true).re, DoneAhead(s)) <==> FlowLoadAhead(s.re, DoneAhead(s))
  {
    var r, d := LoadStep(s, h, true).re, DoneAhead(s);
    assert r.flows == s.re.flows && r.loads == s.re.loads[h := r.loads[h]];
    assert BeforeWire(r.loads[h].phase) <==> BeforeWire(s.re.loads[h].phase);
    if k :| k in s.re.loads && BeforeWire(s.re.loads[k].phase) {
      assert BeforeWire(r.loads[k].phase);
    }
    if k :| k in r.loads && BeforeWire(r.loads[k].phase) {
      assert BeforeWire(s.re.loads[k].phase);
    }
  }

  lemma FlowStepKeepsRest(s: Session, t: TaskId, h: LoadId)
    requires FlowReady(s.re, t, h)
    ensures FlowStep(s, t, h).cmds == s.cmds && FlowStep(s, t, h).gen.worker == s.gen.worker
    ensures !s.re.flows[t].phase.DiscardStop? ==> FlowStep(s, t, h).cast == s.cast
    ensures s.re.flows[t].phase.DiscardStop? ==> !FlowStep(s, t, h).cast.playing
  {
  }

  /** Unpaused: only a LOAD command changes whether LOADs are ahead. */
  lemma LoadAheadStays(s: Session, a: Action)
    requires Unpaused(s) && Enabled(s, a) && Drains(a) && (Silent(s, a) || SendsStop(s, a))
    ensures LoadAhead(Apply(s, a)) <==> LoadAhead(s)
  {
    match a
    case FlowRun(t, h) =>
      LiveFlowFacts(s, t);
      FlowKeepsDoneAhead(s, t, h);
      FlowKeepsFlowLoadAhead(s, t, h);
      FlowStepKeepsRest(s, t, h);
      SameTasks(s, Apply(s, a));
    case LoadRun(h, _) =>
      LiveLoads(s, h);
      LoadKeepsDoneAhead(s, h);
      LoadKeepsFlowLoadAhead(s, h);
      SameTasks(s, Apply(s, a));
  }

  /** With the same tasks and worker, LOADs are ahead as before if they are in the flows. */
  lemma SameTasks(s: Session, r: Session)
    requires r.cmds == s.cmds && r.gen.worker == s.gen.worker && DoneAhead(r) == DoneAhead(s)
    requires FlowLoadAhead(r.re, DoneAhead(s)) <==> FlowLoadAhead(s.re, DoneAhead(s))
    ensures LoadAhead(r) <==> LoadAhead(s)
  {
  }

  // ----- STOPs ahead ----------------------------------------------------------------------------

  lemma EarlyFlowStops(s: Session, t: TaskId, h: LoadId)
    requires FlowFacts(s, t) && FlowReady(s.re, t, h)
    requires var p := s.re.flows[t].phase; Gated(p) || Publishing(p)
    ensures var r := FlowStep(s, t, h).re;
            (t in r.flows && FlowWillStop(s.gen.ledger.paused, r.flows[t], r.loads))
            <==> FlowWillStop(s.gen.ledger.paused, s.re.flows[t], s.re.loads)
  {
  }

  lemma JoinStops(s: Session, t: TaskId, h: LoadId)
    requires FlowFacts(s, t) && FlowReady(s.re, t, h) && Joining(s.re.flows[t].phase)
    ensures var r := JoinStage(s.re, t);
            (t in r.flows && FlowWillStop(s.gen.ledger.paused, r.flows[t], r.loads))
            <==> FlowWillStop(s.gen.ledger.paused, s.re.flows[t], s.re.loads)
  {
  }

  lemma LateFlowStops(s: Session, t: TaskId, h: LoadId)
    requires FlowFacts(s, t) && FlowReady(s.re, t, h) && !s.re.flows[t].phase.DiscardStop?
    requires var p := s.re.flows[t].phase; !Gated(p) && !Joining(p) && !Publishing(p)
    ensures var r := FlowStep(s, t, h).re;
            (t in r.flows && FlowWillStop(s.gen.ledger.paused, r.flows[t], r.loads))
            <==> FlowWillStop(s.gen.ledger.paused, s.re.flows[t], s.re.loads)
  {
  }

  lemma MovedFlowStops(s: Session, t: TaskId, h: LoadId)
    requires FlowFacts(s, t) && FlowReady(s.re, t, h) && !s.re.flows[t].phase.DiscardStop?
    ensures var r := FlowStep(s, t, h).re;
            (t in r.flows && FlowWillStop(s.gen.ledger.paused, r.flows[t], r.loads))
            <==> FlowWillStop(s.gen.ledger.paused, s.re.flows[t], s.re.loads)
  {
    var p := s.re.flows[t].phase;
    if Gated(p) || Publishing(p) {
      EarlyFlowStops(s, t, h);
    } else if Joining(p) {
      JoinStops(s, t, h);
    } else {
      LateFlowStops(s, t, h);
    }
  }

  /** What a step does to the STOPs of one flow and one LOAD at a time. */
  ghost predicate SameStops(paused: bool, r: Reloads, q: Reloads) {
    && (forall u :: u in r.flows && FlowWillStop(paused, r.flows[u], r.loads) ==>
          u in q.flows && FlowWillStop(paused, q.flows[u], q.loads))
    && (forall k :: k in r.loads && LoadWillStop(paused, r.loads[k]) ==>
          k in q.loads && LoadWillStop(paused, q.loads[k]))
  }

  lemma SameStopsPending(s: Session, r: Session)
    requires s.gen.ledger.paused == r.gen.ledger.paused && SameStops(s.gen.ledger.paused, s.re, r.re)
    requires PausedLoadPending(s)
    ensures PausedLoadPending(r)
  {
    var p := s.gen.ledger.paused;
    if u :| u in s.re.flows && FlowWillStop(p, s.re.flows[u], s.re.loads) {
      assert FlowWillStop(p, r.re.flows[u], r.re.loads);
    } else {
      var k :| k in s.re.loads && LoadWillStop(p, s.re.loads[k]);
      assert LoadWillStop(p, r.re.loads[k]);
    }
  }

  /** A new LOAD in another slot, or one that has not succeeded yet, is not what a flow refuses. */
  lemma SameFlowStops(paused: bool, f: Flow, loads: map<LoadId, Load>, more: map<LoadId, Load>)
    requires OwnLoad(f, loads) && forall k :: k in loads ==> k in more && more[k] == loads[k]
    ensures FlowWillStop(paused, f, more) <==> FlowWillStop(paused, f, loads)
  {
  }

  lemma FlowKeepsStops(s: Session, t: TaskId, h: LoadId)
    requires Live(s) && FlowReady(s.re, t, h) && !s.re.flows[t].phase.DiscardStop?
    ensures PausedLoadPending(FlowStep(s, t, h)) <==> PausedLoadPending(s)
  {
    var r := FlowStep(s, t, h);
    LiveFlowFacts(s, t);
    DrainKeepsFlag(s, FlowRun(t, h));
    FlowKeepsEachStop(s, t, h);
    if PausedLoadPending(s) {
      SameStopsPending(s, r);
    }
    if PausedLoadPending(r) {
      SameStopsPending(r, s);
    }
  }

  lemma FlowKeepsEachStop(s: Session, t: TaskId, h: LoadId)
    requires FlowFacts(s, t) && ResultsFaithful(s.re) && FlowReady(s.re, t, h)
    requires !s.re.flows[t].phase.DiscardStop?
    ensures SameStops(s.gen.ledger.paused, s.re, FlowStep(s, t, h).re)
    ensures SameStops(s.gen.ledger.paused, FlowStep(s, t, h).re, s.re)
  {
    var r := FlowStep(s, t, h).re;
    FlowStepFrame(s, t, h);
    LiveFlowLoads(s, t, h);
    MovedFlowStops(s, t, h);
    forall u | u in s.re.flows
      ensures FlowWillStop(s.gen.ledger.paused, s.re.flows[u], r.loads)
              <==> FlowWillStop(s.gen.ledger.paused, s.re.flows[u], s.re.loads)
    {
      assert OwnLoad(s.re.flows[u], s.re.loads);
      SameFlowStops(s.gen.ledger.paused, s.re.flows[u], s.re.loads, r.loads);
    }
  }

  lemma LoadStops(g: Generation, l: Load)
    requires g.alive && LiveLoad(l.phase) && !l.phase.OnWire? && !l.phase.Stopping? && !l.phase.Finished?
    ensures var m := l.(phase := LoadCheck(g, l));
            && (LoadWillStop(g.ledger.paused, m) <==> LoadWillStop(g.ledger.paused, l))
            && (g.ledger.paused ==> (Succeeded(m.phase) <==> Succeeded(l.phase)))
  {
  }

  lemma LoadKeepsStops(s: Session, h: LoadId)
    requires Live(s) && Enabled(s, LoadRun(h, true))
    requires !s.re.loads[h].phase.OnWire? && !s.re.loads[h].phase.Stopping?
    ensures PausedLoadPending(LoadStep(s, h, true)) <==> PausedLoadPending(s)
  {
    var p, r := s.gen.ledger.paused, LoadStep(s, h, true);
    LiveLoads(s, h);
    LoadStops(s.gen, s.re.loads[h]);
    LoadKeepsEachStop(p, s.re, h, r.re.loads[h]);
    assert r.re == s.re.(loads := s.re.loads[h := r.re.loads[h]]) && r.gen == s.gen;
    if PausedLoadPending(s) {
      SameStopsPending(s, r);
    }
    if PausedLoadPending(r) {
      SameStopsPending(r, s);
    }
  }

  lemma LoadKeepsEachStop(paused: bool, r: Reloads, h: LoadId, m: Load)
    requires h in r.loads && m.rollover == r.loads[h].rollover
    requires LoadWillStop(paused, m) <==> LoadWillStop(paused, r.loads[h])
    requires paused ==> (Succeeded(m.phase) <==> Succeeded(r.loads[h].phase))
    ensures var q := r.(loads := r.loads[h := m]); SameStops(paused, r, q) && SameStops(paused, q, r)
  {
  }

  /** A silent step changes neither what Cast does nor the STOPs ahead. */
  lemma SilentKeepsStops(s: Session, a: Action)
    requires Live(s) && Enabled(s, a) && Drains(a) && Silent(s, a)
    ensures PausedLoadPending(Apply(s, a)) <==> PausedLoadPending(s)
    ensures Apply(s, a).cast == s.cast && Apply(s, a).cmds == s.cmds && Apply(s, a).gen.worker == s.gen.worker
  {
    match a
    case FlowRun(t, h) =>
      FlowKeepsStops(s, t, h);
      FlowStepKeepsRest(s, t, h);
    case LoadRun(h, _) => LoadKeepsStops(s, h);
  }

  lemma StopWasPending(s: Session, a: Action)
    requires Live(s) && Enabled(s, a) && Drains(a) && SendsStop(s, a)
    ensures PausedLoadPending(s) && !Apply(s, a).cast.playing
    ensures Apply(s, a).cmds == s.cmds && Apply(s, a).gen.worker == s.gen.worker
  {
    match a
    case FlowRun(t, h) =>
      FlowStepKeepsRest(s, t, h);
      assert FlowWillStop(s.gen.ledger.paused, s.re.flows[t], s.re.loads);
    case LoadRun(h, _) => assert LoadWillStop(s.gen.ledger.paused, s.re.loads[h]);
  }

  /** After a LOAD that no pause will stop, no other STOP is ahead: its flow holds the flight lock. */
  lemma LoadCommandLeavesNoStop(s: Session, h: LoadId)
    requires Live(s) && Enabled(s, LoadRun(h, true)) && s.re.loads[h].phase.OnWire?
    requires s.gen.ledger.paused ==> s.re.loads[h].rollover
    ensures !PausedLoadPending(LoadStep(s, h, true)) && LoadStep(s, h, true).cast.playing
  {
    var p, r := s.gen.ledger.paused, LoadStep(s, h, true);
    LiveFacts(s);
    assert r.re.flows == s.re.flows && r.re.loads == s.re.loads[h := r.re.loads[h]] && r.gen == s.gen;
    assert s.re.flows[s.re.flight.value].phase == AwaitLoad(h);
    forall k | k in r.re.loads
      ensures !LoadWillStop(p, r.re.loads[k])
    {
      if k != h {
        assert !Unfinished(s.re, k);
      }
    }
    forall u | u in r.re.flows
      ensures !FlowWillStop(p, r.re.flows[u], r.re.loads)
    {
      assert OwnLoad(s.re.flows[u], s.re.loads);
    }
  }
}
