/**
 A resume pays its debts: when everything it started has finished, no flush and no stalled re-LOAD is
 owed any more, whatever order the tasks, the flows and the LOADs finish in.
 */
module Paying {
  import opened Common
  import opened SessionRules
  import opened SessionModel
  import opened SessionLocks
  import opened LiveSession
  import opened Draining
  import opened Settling
  import opened SessionEffects

  /** The re-LOAD is still due when `done` flushes are covered, and is for flush `k` or a later one. */
  predicate Asks(request: Option<nat>, done: nat, k: nat) {
    request.None? || (request.value > done && request.value >= k)
  }

  /** The flow gets a LOAD accepted that covers `k` flushes, while the session stays live and unpaused. */
  predicate FlowPays(f: Flow, loads: map<LoadId, Load>, done: nat, k: nat) {
    !f.rollover &&
    match f.phase
    case Unspawned => Asks(f.request, done, k)
    case Planning => Asks(f.request, done, k)
    case WaitFlight => Asks(f.request, done, k)
    case FirstGate => Asks(f.request, done, k)
    case TakePrior => Asks(f.request, done, k)
    case WaitLead => Asks(f.request, done, k)
    case SecondGate => Asks(f.request, done, k)
    case LockSlot(c) => c >= k
    case PublishReadAlive(c) => c >= k
    case PublishReadPaused(c) => c >= k
    case Publish(c) => c >= k
    case AwaitLoad(h) =>
      h in loads && loads[h].covers >= k && !loads[h].rollover
      && (BeforeWire(loads[h].phase) || Succeeding(loads[h].phase))
    case TakeOwn(h, result) => h in loads && loads[h].covers >= k && result == Done(true)
    case Settle(h, result) => h in loads && loads[h].covers >= k && result == Done(true)
    case _ => false
  }

  predicate Paid(l: Ledger, k: nat) {
    l.done >= k && !l.stallOwed
  }

  ghost predicate FlowsPay(s: Session, k: nat) {
    exists t :: t in s.re.flows && FlowPays(s.re.flows[t], s.re.loads, s.gen.ledger.done, k)
  }

  /** `k` flushes and the stall are paid, or a re-LOAD is under way that pays them. */
  ghost predicate Pays(s: Session, k: nat) {
    && k <= s.gen.ledger.requested
    && (|| Paid(s.gen.ledger, k)
        || (s.gen.worker.SpawnReload? && Asks(s.gen.worker.request, s.gen.ledger.done, k))
        || FlowsPay(s, k))
  }

  // ----- steps of the flow itself -------------------------------------------------------------------

  lemma GatePays(s: Session, t: TaskId, h: LoadId, k: nat)
    requires FlowFacts(s, t) && !s.gen.ledger.paused && FlowReady(s.re, t, h) && Gated(s.re.flows[t].phase)
    requires FlowPays(s.re.flows[t], s.re.loads, s.gen.ledger.done, k) && k <= s.gen.ledger.requested
    ensures var r := GateStage(s.gen, s.re, t);
            t in r.flows && FlowPays(r.flows[t], r.loads, s.gen.ledger.done, k)
  {
  }

  lemma JoinPays(s: Session, t: TaskId, h: LoadId, k: nat)
    requires FlowFacts(s, t) && FlowReady(s.re, t, h) && Joining(s.re.flows[t].phase)
    requires FlowPays(s.re.flows[t], s.re.loads, s.gen.ledger.done, k)
    ensures var r := JoinStage(s.re, t);
            t in r.flows && FlowPays(r.flows[t], r.loads, s.gen.ledger.done, k)
  {
  }

  lemma PublishPays(s: Session, t: TaskId, h: LoadId, k: nat)
    requires FlowFacts(s, t) && !s.gen.ledger.paused && FlowReady(s.re, t, h) && Publishing(s.re.flows[t].phase)
    requires FlowPays(s.re.flows[t], s.re.loads, s.gen.ledger.done, k)
    ensures var r := PublishStage(s.gen, s.re, t, h);
            t in r.flows && FlowPays(r.flows[t], r.loads, s.gen.ledger.done, k)
  {
  }

  lemma SettlePays(s: Session, t: TaskId, k: nat)
    requires FlowFacts(s, t) && !s.gen.ledger.paused && s.re.flows[t].phase.Settle?
    requires FlowPays(s.re.flows[t], s.re.loads, s.gen.ledger.done, k)
    ensures Paid(SettleStage(s, t).gen.ledger, k)
  {
  }

  lemma MovedFlowPays(s: Session, t: TaskId, h: LoadId, k: nat)
    requires FlowFacts(s, t) && !s.gen.ledger.paused && FlowReady(s.re, t, h) && k <= s.gen.ledger.requested
    requires FlowPays(s.re.flows[t], s.re.loads, s.gen.ledger.done, k)
    ensures var r := FlowStep(s, t, h);
            || Paid(r.gen.ledger, k)
            || (t in r.re.flows && r.gen.ledger == s.gen.ledger
                && FlowPays(r.re.flows[t], r.re.loads, s.gen.ledger.done, k))
  {
    var p := s.re.flows[t].phase;
    if Gated(p) {
      GatePays(s, t, h, k);
    } else if Joining(p) {
      JoinPays(s, t, h, k);
    } else if Publishing(p) {
      PublishPays(s, t, h, k);
    } else {
      SettlePays(s, t, k);
    }
  }

  /** The ledger changes only when a LOAD is accepted, which also settles the stall. */
  lemma FlowStepLedger(s: Session, t: TaskId, h: LoadId)
    requires FlowReady(s.re, t, h)
    ensures var l, m := s.gen.ledger, FlowStep(s, t, h).gen.ledger;
            m.requested == l.requested && l.done <= m.done && (m == l || !m.stallOwed)
    ensures FlowStep(s, t, h).gen.worker == s.gen.worker && FlowStep(s, t, h).cmds == s.cmds
  {
  }

  /** Another re-LOAD is still due after an acceptance, or was paid by it. */
  lemma OtherFlowPays(f: Flow, loads: map<LoadId, Load>, more: map<LoadId, Load>, l: Ledger, m: Ledger, k: nat)
    requires FlowPays(f, loads, l.done, k) && l.done <= m.done && (m == l || !m.stallOwed)
    requires forall h :: h in loads ==> h in more && more[h] == loads[h]
    ensures FlowPays(f, more, m.done, k) || Paid(m, k)
  {
  }

  lemma FlowRunPays(s: Session, t: TaskId, h: LoadId, k: nat)
    requires Unpaused(s) && FlowReady(s.re, t, h) && Pays(s, k)
    ensures Pays(FlowStep(s, t, h), k)
  {
    var r := FlowStep(s, t, h);
    LiveFlowFacts(s, t);
    LiveFlowLoads(s, t, h);
    FlowStepLedger(s, t, h);
    FlowStepFrame(s, t, h);
    if !Paid(r.gen.ledger, k) && FlowsPay(s, k) {
      var u :| u in s.re.flows && FlowPays(s.re.flows[u], s.re.loads, s.gen.ledger.done, k);
      if u == t {
        MovedFlowPays(s, t, h, k);
      } else {
        OtherFlowPays(s.re.flows[u], s.re.loads, r.re.loads, s.gen.ledger, r.gen.ledger, k);
        assert FlowPays(r.re.flows[u], r.re.loads, r.gen.ledger.done, k);
      }
    }
  }

  // ----- the other draining steps ---------------------------------------------------------------------

  lemma LoadMovesOn(g: Generation, l: Load)
    requires g.alive && !g.ledger.paused && LiveLoad(l.phase) && !l.rollover && !l.phase.Finished? && !l.phase.OnWire?
    requires BeforeWire(l.phase) || Succeeding(l.phase)
    ensures BeforeWire(LoadCheck(g, l)) || Succeeding(LoadCheck(g, l))
  {
  }

  lemma AwaitedLoadPays(s: Session, h: LoadId, f: Flow, k: nat)
    requires Unpaused(s) && Enabled(s, LoadRun(h, true)) && LiveLoad(s.re.loads[h].phase)
    requires FlowPays(f, s.re.loads, s.gen.ledger.done, k)
    ensures FlowPays(f, LoadStep(s, h, true).re.loads, s.gen.ledger.done, k)
  {
    var l := s.re.loads[h];
    if f.phase == AwaitLoad(h) && !l.phase.OnWire? {
      LoadMovesOn(s.gen, l);
    }
    assert LoadStep(s, h, true).re.loads
        == s.re.loads[h := l.(issued := LoadStep(s, h, true).re.loads[h].issued,
                              phase := LoadStep(s, h, true).re.loads[h].phase)];
  }

  lemma LoadRunPays(s: Session, h: LoadId, k: nat)
    requires Unpaused(s) && Enabled(s, LoadRun(h, true)) && Pays(s, k)
    ensures Pays(LoadStep(s, h, true), k)
  {
    var r := LoadStep(s, h, true);
    LiveLoads(s, h);
    assert r.re.flows == s.re.flows && r.gen == s.gen;
    if FlowsPay(s, k) {
      var u :| u in s.re.flows && FlowPays(s.re.flows[u], s.re.loads, s.gen.ledger.done, k);
      AwaitedLoadPays(s, h, s.re.flows[u], k);
    }
  }

  lemma TaskStepPays(s: Session, a: Action, k: nat)
    requires Unpaused(s) && Enabled(s, a) && IsTaskStep(a) && Pays(s, k)
    ensures Pays(Apply(s, a), k)
  {
    var r := Apply(s, a);
    assert r.gen.ledger == s.gen.ledger && r.re.loads == s.re.loads;
    if FlowsPay(s, k) {
      var u :| u in s.re.flows && FlowPays(s.re.flows[u], s.re.loads, s.gen.ledger.done, k);
      assert u in r.re.flows && FlowPays(r.re.flows[u], r.re.loads, r.gen.ledger.done, k);
    }
    if a.ResumeSpawn? && s.gen.worker.SpawnReload? && Asks(s.gen.worker.request, s.gen.ledger.done, k) {
      assert FlowPays(r.re.flows[a.t], r.re.loads, r.gen.ledger.done, k);
    }
  }

  lemma DrainPays(s: Session, a: Action, k: nat)
    requires Unpaused(s) && Enabled(s, a) && Drains(a) && Pays(s, k)
    ensures Pays(Apply(s, a), k)
  {
    match a
    case FlowRun(t, h) => FlowRunPays(s, t, h, k);
    case LoadRun(h, _) => LoadRunPays(s, h, k);
    case _ => TaskStepPays(s, a, k);
  }

  lemma {:induction false} DrainingPays(s: Session, acts: seq<Action>, r: Session, k: nat)
    requires Unpaused(s) && Pays(s, k) && DrainsTo(s, acts, r)
    ensures Pays(r, k)
    decreases |acts|
  {
    if acts != [] {
      DrainPays(s, acts[0], k);
      DrainKeepsLive(s, acts[0]);
      DrainingPays(Apply(s, acts[0]), acts[1..], r, k);
    }
  }

  lemma QuietIsPaid(s: Session, k: nat)
    requires Quiet(s) && Pays(s, k)
    ensures Paid(s.gen.ledger, k)
  {
  }

  // ----- the claim --------------------------------------------------------------------------------------

  /**
   A resume that owes anything pays it: in whatever order everything finishes, every flush so far is
   covered by an accepted LOAD and no stalled re-LOAD is owed at the end.
   */
  lemma ResumePaysAll(states: seq<Session>, acts: seq<Action>, n: nat, longPause: bool, more: seq<Action>, r: Session)
    requires Run(states, acts) && n < |states| && Enabled(states[n], ResumeStart(longPause))
    requires var l := states[n].gen.ledger; l.requested > l.done || l.stallOwed
    requires DrainsTo(Apply(states[n], ResumeStart(longPause)), more, r) && Quiet(r)
    ensures r.gen.ledger.done >= states[n].gen.ledger.requested && !r.gen.ledger.stallOwed
  {
    RunIsLive(states, acts, n);
    ResumedWorker(states[n], longPause);
    var m := Apply(states[n], ResumeStart(longPause));
    DrainingPays(m, more, r, states[n].gen.ledger.requested);
    QuietIsPaid(r, states[n].gen.ledger.requested);
  }

  /** So does a re-LOAD of an unpaused session, also the one after an abandoned stall re-LOAD. */
  lemma ReloadPaysAll(states: seq<Session>, acts: seq<Action>, n: nat, a: Action, more: seq<Action>, r: Session)
    requires Run(states, acts) && n < |states| && states[n].gen.live && Enabled(states[n], a)
    requires (a.StartReload? || a.OweStall?) && !states[n].gen.ledger.paused
    requires DrainsTo(Apply(states[n], a), more, r) && Quiet(r)
    ensures r.gen.ledger.done >= states[n].gen.ledger.requested && !r.gen.ledger.stallOwed
  {
    RunIsLive(states, acts, n);
    LiveStep(states[n], a);
    var m, k := Apply(states[n], a), states[n].gen.ledger.requested;
    assert FlowPays(m.re.flows[a.t], m.re.loads, m.gen.ledger.done, k);
    DrainingPays(m, more, r, k);
    QuietIsPaid(r, k);
  }
}
