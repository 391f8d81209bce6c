/**
 The flush ledger: a flush stays owed until a LOAD whose command went out after that flush has been
 accepted, over all interleavings of flushes, pauses, resumes, stalls and competing re-LOADs.
 */
module FlushLedger {
  import opened Common
  import opened SessionRules
  import opened SessionModel

  // ----- invariant ----------------------------------------------------------------------------

  /** The LOAD command has been sent. */
  predicate WentOut(p: LoadPhase) {
    p.SecondPausedCheck? || p.LateReadAlive? || p.LateReadAllowed? || p.Stopping? ||
    (p.Finished? && p.result.Done?)
  }

  /** The flush count a flow carries from its second gate to the publication of its LOAD. */
  function PlannedCovers(p: FlowPhase): nat {
    match p
    case LockSlot(c) => c
    case PublishReadAlive(c) => c
    case PublishReadPaused(c) => c
    case Publish(c) => c
    case _ => 0
  }

  ghost predicate CoversBounded(requested: nat, r: Reloads) {
    && (forall t :: t in r.flows ==> PlannedCovers(r.flows[t].phase) <= requested)
    && (forall h :: h in r.loads ==> r.loads[h].covers <= requested)
    && (forall h :: h in r.loads && WentOut(r.loads[h].phase) ==> r.loads[h].covers <= r.loads[h].issued)
  }

  /** A flow waits for a LOAD of its own kind, and carries the result that LOAD ended with. */
  predicate OwnLoad(f: Flow, loads: map<LoadId, Load>) {
    match f.phase
    case AwaitLoad(h) => h in loads && loads[h].rollover == f.rollover
    case TakeOwn(h, r) => h in loads && loads[h].phase == Finished(r)
    case Settle(h, r) => h in loads && loads[h].phase == Finished(r)
    case _ => true
  }

  ghost predicate ResultsFaithful(r: Reloads) {
    forall t :: t in r.flows ==> OwnLoad(r.flows[t], r.loads)
  }

  ghost predicate AcceptedFaithful(done: nat, r: Reloads) {
    && (forall h :: h in r.accepted ==>
          h in r.loads && r.loads[h].phase == Finished(Done(true)) && r.loads[h].covers <= done)
    && (done > 0 ==> exists h :: h in r.accepted && r.loads[h].covers == done)
  }

  ghost predicate LedgerInv(s: Session) {
    && s.gen.ledger.done <= s.gen.ledger.requested
    && CoversBounded(s.gen.ledger.requested, s.re)
    && ResultsFaithful(s.re)
    && AcceptedFaithful(s.gen.ledger.done, s.re)
  }

  /** Flush number `k` is covered: an accepted LOAD whose command went out after flush `k`. */
  ghost predicate Covered(r: Reloads, k: nat) {
    exists h :: h in r.accepted && h in r.loads && r.loads[h].phase == Finished(Done(true)) && r.loads[h].issued >= k
  }

  lemma LedgerInvCovers(s: Session, k: nat)
    requires LedgerInv(s) && 1 <= k <= s.gen.ledger.done
    ensures Covered(s.re, k)
  {
    var h :| h in s.re.accepted && s.re.loads[h].covers == s.gen.ledger.done;
    assert WentOut(s.re.loads[h].phase);
  }

  // ----- the invariant is kept ----------------------------------------------------------------

  lemma GateKeepsLedger(s: Session, t: TaskId, h: LoadId)
    requires LedgerInv(s) && FlowReady(s.re, t, h) && Gated(s.re.flows[t].phase)
    ensures LedgerInv(s.(re := GateStage(s.gen, s.re, t)))
  {
    var r := GateStage(s.gen, s.re, t);
    assert r.loads == s.re.loads && r.accepted == s.re.accepted;
    assert AcceptedFaithful(s.gen.ledger.done, r);
  }

  lemma JoinKeepsResults(r: Reloads, t: TaskId)
    requires ResultsFaithful(r) && t in r.flows && Joining(r.flows[t].phase)
    ensures ResultsFaithful(JoinStage(r, t))
  {
  }

  lemma JoinKeepsAccepted(done: nat, r: Reloads, t: TaskId)
    requires AcceptedFaithful(done, r) && t in r.flows && Joining(r.flows[t].phase)
    ensures AcceptedFaithful(done, JoinStage(r, t))
  {
    var q := JoinStage(r, t);
    if done > 0 {
      var l :| l in r.accepted && r.loads[l].covers == done;
      assert l in q.accepted && q.loads[l].covers == done;
    }
  }

  lemma JoinKeepsLedger(s: Session, t: TaskId, h: LoadId)
    requires LedgerInv(s) && FlowReady(s.re, t, h) && Joining(s.re.flows[t].phase)
    ensures LedgerInv(s.(re := JoinStage(s.re, t)))
  {
    JoinKeepsResults(s.re, t);
    JoinKeepsAccepted(s.gen.ledger.done, s.re, t);
    assert CoversBounded(s.gen.ledger.requested, JoinStage(s.re, t));
  }

  lemma PublishKeepsLedger(s: Session, t: TaskId, h: LoadId)
    requires LedgerInv(s) && FlowReady(s.re, t, h) && Publishing(s.re.flows[t].phase)
    ensures LedgerInv(s.(re := PublishStage(s.gen, s.re, t, h)))
  {
  }

  lemma SettleKeepsLedger(s: Session, t: TaskId, h: LoadId)
    requires LedgerInv(s) && FlowReady(s.re, t, h) && s.re.flows[t].phase.Settle?
    ensures LedgerInv(SettleStage(s, t))
  {
    var l := s.re.flows[t].phase.load;
    var r := SettleStage(s, t);
    if r.gen.ledger.done > s.gen.ledger.done {
      assert l in r.re.accepted && r.re.loads[l].covers == r.gen.ledger.done;
    } else if s.gen.ledger.done > 0 {
      var h :| h in s.re.accepted && s.re.loads[h].covers == s.gen.ledger.done;
      assert h in r.re.accepted && r.re.loads[h].covers == r.gen.ledger.done;
    }
  }

  lemma FlowRunKeepsLedger(s: Session, t: TaskId, h: LoadId)
    requires LedgerInv(s) && FlowReady(s.re, t, h)
    ensures LedgerInv(FlowStep(s, t, h))
  {
    var p := s.re.flows[t].phase;
    if Gated(p) {
      GateKeepsLedger(s, t, h);
    } else if Joining(p) {
      JoinKeepsLedger(s, t, h);
    } else if Publishing(p) {
      PublishKeepsLedger(s, t, h);
    } else if p.Settle? {
      SettleKeepsLedger(s, t, h);
    }
  }

  lemma LoadRunKeepsResults(s: Session, h: LoadId, ok: bool)
    requires ResultsFaithful(s.re) && h in s.re.loads && !s.re.loads[h].phase.Finished?
    ensures ResultsFaithful(LoadStep(s, h, ok).re)
  {
    var r := LoadStep(s, h, ok).re;
    forall t | t in r.flows
      ensures OwnLoad(r.flows[t], r.loads)
    {
      assert OwnLoad(s.re.flows[t], s.re.loads);
    }
  }

  lemma LoadRunKeepsLedger(s: Session, h: LoadId, ok: bool)
    requires LedgerInv(s) && h in s.re.loads && !s.re.loads[h].phase.Finished?
    ensures LedgerInv(LoadStep(s, h, ok))
  {
    var r := LoadStep(s, h, ok);
    LoadRunKeepsResults(s, h, ok);
    assert h !in s.re.accepted;
    if s.gen.ledger.done > 0 {
      var k :| k in s.re.accepted && s.re.loads[k].covers == s.gen.ledger.done;
      assert k in r.re.accepted && r.re.loads[k].covers == r.gen.ledger.done;
    }
  }

  /** Steps that accept nothing, run no LOAD and at most start or drop flows. */
  lemma OtherStepKeepsLedger(s: Session, a: Action)
    requires LedgerInv(s) && Enabled(s, a) && !a.FlowRun? && !a.LoadRun?
    ensures LedgerInv(Apply(s, a))
  {
    var r := Apply(s, a);
    assert r.re.loads == s.re.loads && r.re.accepted == s.re.accepted;
    assert r.gen.ledger.done == s.gen.ledger.done && r.gen.ledger.requested >= s.gen.ledger.requested;
    assert AcceptedFaithful(r.gen.ledger.done, r.re);
  }

  lemma StepKeepsLedger(s: Session, a: Action)
    requires LedgerInv(s) && Enabled(s, a)
    ensures LedgerInv(Apply(s, a))
  {
    match a
    case FlowRun(t, h) => FlowRunKeepsLedger(s, t, h);
    case LoadRun(h, ok) => LoadRunKeepsLedger(s, h, ok);
    case _ => OtherStepKeepsLedger(s, a);
  }

  lemma {:induction false} RunKeepsLedger(states: seq<Session>, acts: seq<Action>, n: nat)
    requires Run(states, acts) && n < |states|
    ensures LedgerInv(states[n])
  {
    if n > 0 {
      RunKeepsLedger(states, acts, n - 1);
      StepKeepsLedger(states[n - 1], acts[n - 1]);
    }
  }

  // ----- theorems -----------------------------------------------------------------------------

  /**
   Over every run: the ledger never claims more than was requested, and whatever it claims is
   covered by an accepted LOAD that went out after the flush.
   */
  lemma CoverageIsReal(states: seq<Session>, acts: seq<Action>, n: nat, k: nat)
    requires Run(states, acts) && n < |states|
    requires 1 <= k <= states[n].gen.ledger.done
    ensures k <= states[n].gen.ledger.requested
    ensures Covered(states[n].re, k)
  {
    RunKeepsLedger(states, acts, n);
    LedgerInvCovers(states[n], k);
  }

  predicate SendsLoad(s: Session, a: Action, h: LoadId) {
    a.LoadRun? && a.h == h && h in s.re.loads && s.re.loads[h].phase.OnWire?
  }

  /** Where in the run the command of a LOAD went out. */
  lemma {:induction false} LoadWentOutAt(states: seq<Session>, acts: seq<Action>, n: nat, h: LoadId) returns (j: nat)
    requires Run(states, acts) && n < |states|
    requires h in states[n].re.loads && WentOut(states[n].re.loads[h].phase)
    ensures j < n && SendsLoad(states[j], acts[j], h)
    ensures states[j].gen.ledger.requested == states[n].re.loads[h].issued
  {
    assert n > 0;
    var s, a := states[n - 1], acts[n - 1];
    if SendsLoad(s, a, h) {
      j := n - 1;
    } else {
      LoadStepsKeepIssued(s, a, h);
      j := LoadWentOutAt(states, acts, n - 1, h);
    }
  }

  lemma LoadStepsKeepIssued(s: Session, a: Action, h: LoadId)
    requires Enabled(s, a) && !SendsLoad(s, a, h)
    requires h in Apply(s, a).re.loads && WentOut(Apply(s, a).re.loads[h].phase)
    ensures h in s.re.loads && WentOut(s.re.loads[h].phase)
    ensures s.re.loads[h].issued == Apply(s, a).re.loads[h].issued
  {
    match a
    case FlowRun(t, _) =>
      var p := s.re.flows[t].phase;
      assert Gated(p) || Joining(p) || Publishing(p) || p.Settle? || p.DiscardStop? || p.DiscardReadPaused?
             || p.DiscardReadAlive? || p.DiscardReadAllowed?;
    case _ =>
  }

  /** Where in the run flush number `k` was handled. */
  lemma {:induction false} FlushHappenedAt(states: seq<Session>, acts: seq<Action>, n: nat, k: nat) returns (i: nat)
    requires Run(states, acts) && n < |states|
    requires 1 <= k <= states[n].gen.ledger.requested
    ensures i < n && acts[i].Flush? && states[i].gen.ledger.requested == k - 1
  {
    assert n > 0;
    RequestedGrowsByFlush(states[n - 1], acts[n - 1]);
    if states[n - 1].gen.ledger.requested < k {
      i := n - 1;
    } else {
      i := FlushHappenedAt(states, acts, n - 1, k);
    }
  }

  lemma RequestedGrowsByFlush(s: Session, a: Action)
    requires Enabled(s, a)
    ensures Apply(s, a).gen.ledger.requested == s.gen.ledger.requested + (if a.Flush? then 1 else 0)
  {
  }

  /**
   The order behind the coverage: for a flush the ledger calls done, the flush came first (step i),
   then the command of a LOAD (step j), and that LOAD is among the accepted ones.
   */
  lemma FlushPrecedesItsLoad(states: seq<Session>, acts: seq<Action>, n: nat, k: nat)
    returns (i: nat, j: nat, h: LoadId)
    requires Run(states, acts) && n < |states|
    requires 1 <= k <= states[n].gen.ledger.done
    ensures i < j < n
    ensures acts[i].Flush? && states[i].gen.ledger.requested == k - 1
    ensures SendsLoad(states[j], acts[j], h) && h in states[n].re.accepted
  {
    CoverageIsReal(states, acts, n, k);
    h :| h in states[n].re.accepted && h in states[n].re.loads &&
         states[n].re.loads[h].phase == Finished(Done(true)) && states[n].re.loads[h].issued >= k;
    j := LoadWentOutAt(states, acts, n, h);
    i := FlushHappenedAt(states, acts, j, k);
  }

  /**
   An owed flush survives every step but one: the acceptance, by a live and unpaused generation,
   of a LOAD that went out after it. Pauses, failures and older LOADs do not clear it.
   */
  lemma OwedFlushSurvives(s: Session, a: Action, k: nat)
    requires LedgerInv(s) && Enabled(s, a)
    requires s.gen.ledger.done < k <= Apply(s, a).gen.ledger.done
    ensures a.FlowRun? && s.re.flows[a.t].phase.Settle? && s.re.flows[a.t].phase.result == Done(true)
    ensures s.gen.live && s.gen.alive && !s.gen.ledger.paused
    ensures var h := s.re.flows[a.t].phase.load;
            h in s.re.loads && s.re.loads[h].issued >= k && Apply(s, a).re.accepted == s.re.accepted + {h}
  {
    match a
    case FlowRun(t, h) =>
      var p := s.re.flows[t].phase;
      if p.Settle? && p.load in s.re.loads {
        assert WentOut(s.re.loads[p.load].phase);
      }
    case _ =>
  }

  function Dones(states: seq<Session>): (d: seq<nat>)
    ensures |d| == |states| && forall n :: 0 <= n < |d| ==> d[n] == states[n].gen.ledger.done
  {
    seq(|states|, n requires 0 <= n < |states| => states[n].gen.ledger.done)
  }

  /** Step `m` is the acceptance, by a live and unpaused generation, of LOAD `h` sent after flush `k`. */
  ghost predicate PaysFlush(states: seq<Session>, acts: seq<Action>, m: nat, h: LoadId, k: nat)
    requires m + 1 < |states| && m < |acts|
  {
    var s, a := states[m], acts[m];
    && s.gen.live && s.gen.alive && !s.gen.ledger.paused
    && a.FlowRun? && a.t in s.re.flows && s.re.flows[a.t].phase == Settle(h, Done(true))
    && h in s.re.loads && s.re.loads[h].issued >= k && h in states[m + 1].re.accepted
  }

  lemma CrossingStepPays(states: seq<Session>, acts: seq<Action>, m: nat, k: nat) returns (h: LoadId)
    requires Run(states, acts) && m < |acts|
    requires states[m].gen.ledger.done < k <= states[m + 1].gen.ledger.done
    ensures PaysFlush(states, acts, m, h, k)
  {
    RunKeepsLedger(states, acts, m);
    OwedFlushSurvives(states[m], acts[m], k);
    h := states[m].re.flows[acts[m].t].phase.load;
  }

  /**
   Along a run: between a moment at which flush `k` is owed and one at which the ledger calls it done,
   a LOAD that went out after that flush was accepted.
   */
  lemma OwedFlushIsPaidByItsLoad(states: seq<Session>, acts: seq<Action>, i: nat, j: nat, k: nat)
    returns (m: nat, h: LoadId)
    requires Run(states, acts) && i <= j < |states|
    requires states[i].gen.ledger.done < k <= states[j].gen.ledger.done
    ensures i <= m < j && PaysFlush(states, acts, m, h, k)
  {
    m := CrossingPoint(Dones(states), i, j, k);
    h := CrossingStepPays(states, acts, m, k);
  }

  /** Coverage is never taken back. */
  lemma CoverageIsKept(states: seq<Session>, acts: seq<Action>, i: nat, j: nat, k: nat)
    requires Run(states, acts) && i <= j < |states|
    ensures states[i].gen.ledger.done <= states[j].gen.ledger.done
    ensures 1 <= k <= states[i].gen.ledger.done ==> Covered(states[j].re, k)
  {
    forall n | 0 <= n < |states| - 1
      ensures Dones(states)[n] <= Dones(states)[n + 1]
    {
      DoneMonotone(states[n], acts[n]);
    }
    Ascending(Dones(states), i, j);
    if 1 <= k <= states[i].gen.ledger.done {
      CoverageIsReal(states, acts, j, k);
    }
  }

  lemma DoneMonotone(s: Session, a: Action)
    requires Enabled(s, a)
    ensures s.gen.ledger.done <= Apply(s, a).gen.ledger.done
    ensures s.re.accepted <= Apply(s, a).re.accepted
  {
    if a.FlowRun? {
      FlowDoneMonotone(s, a.t, a.h);
    }
  }

  lemma FlowDoneMonotone(s: Session, t: TaskId, h: LoadId)
    requires FlowReady(s.re, t, h)
    ensures s.gen.ledger.done <= FlowStep(s, t, h).gen.ledger.done
    ensures s.re.accepted <= FlowStep(s, t, h).re.accepted
  {
  }

  /** A flow that returns at a gate because its flush is already satisfied really is covered. */
  lemma SkippedReloadIsCovered(states: seq<Session>, acts: seq<Action>, n: nat, t: TaskId)
    requires Run(states, acts) && n < |states| && t in states[n].re.flows
    requires var s := states[n];
             ReloadGate(s.gen.live, s.gen.alive, s.gen.ledger, s.re.flows[t].request).AlreadySatisfied?
    ensures var request := states[n].re.flows[t].request;
            request.Some? && (request.value >= 1 ==> Covered(states[n].re, request.value))
  {
    var request := states[n].re.flows[t].request;
    if request.value >= 1 {
      CoverageIsReal(states, acts, n, request.value);
    }
  }

  /**
   A resume sends PLAY only when nothing is owed, so that every flush so far is covered; with a
   flush owed it starts a re-LOAD for all of them.
   */
  lemma ResumePlaysOnlyCoveredMedia(states: seq<Session>, acts: seq<Action>, n: nat, longPause: bool)
    requires Run(states, acts) && n < |states|
    ensures var l := states[n].gen.ledger;
            ResumeDecision(l, longPause).Play? ==>
              l.paused && !longPause && !l.stallOwed && forall k :: 1 <= k <= l.requested ==> Covered(states[n].re, k)
    ensures var l := states[n].gen.ledger;
            FlushOwed(l) <==> ResumeDecision(l, longPause) == Reload(Some(l.requested))
  {
    var l := states[n].gen.ledger;
    if ResumeDecision(l, longPause).Play? {
      forall k | 1 <= k <= l.requested
        ensures Covered(states[n].re, k)
      {
        CoverageIsReal(states, acts, n, k);
      }
    }
  }
}
