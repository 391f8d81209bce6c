/**
 What became of every LOAD, as an exact history: who waits for it, what Cast answered, how its task ended,
 which STOP it sends, and what its re-LOAD does with the result.
 */
module LoadHistory {
  import opened Common
  import opened SessionModel
  import opened SessionHistory

  // ----- what a step is to a LOAD -----------------------------------------------------------------------

  /** The re-LOAD `t` runs a section in this phase. */
  predicate RunsIn(s: Session, a: Action, t: TaskId, p: FlowPhase) {
    a.FlowRun? && a.t == t && t in s.re.flows && s.re.flows[t].phase == p
  }

  /** The LOAD task `h` runs a section in this phase. */
  predicate LoadRunsIn(s: Session, a: Action, h: LoadId, p: LoadPhase) {
    a.LoadRun? && a.h == h && h in s.re.loads && s.re.loads[h].phase == p
  }

  /** A re-LOAD, or a rollover, takes the LOAD from the in-flight slot to join it. */
  predicate TakesPrior(s: Session, a: Action, t: TaskId, h: LoadId) {
    RunsIn(s, a, t, TakePrior) && s.re.inflight == Some(h)
  }

  predicate Runs(a: Action, t: TaskId) {
    a.FlowRun? && a.t == t
  }

  // ----- facts --------------------------------------------------------------------------------------------

  datatype Fact =
    | WillCover(t: TaskId, k: nat)                  // the flushes that the LOAD to be published is for
    | Joins(t: TaskId, h: LoadId)                   // the re-LOAD joins the LOAD before it
    | Awaits(t: TaskId, h: LoadId)                  // the re-LOAD waits for its own LOAD, or settles it
    | Discards(t: TaskId)                           // its LOAD was refused, and may have to be stopped
    | IsAccepted(h: LoadId)
    | IsDropped(h: LoadId)                          // an abort dropped the handle while it was joined
    | WasAnswered(h: LoadId, ok: bool)              // by Cast, and no pause was seen since
    | FoundAlive(h: LoadId, alive: bool)            // the first of the two reads after the answer
    | SendsStop(h: LoadId, cause: StopCause)
    | EndedAs(h: LoadId, result: LoadResult)

  function PhaseOf(r: Reloads, h: LoadId): LoadPhase {
    if h in r.loads then r.loads[h].phase else Spawned
  }

  predicate Holds(r: Reloads, f: Fact) {
    match f
    case WillCover(t, k) =>
      t in r.flows &&
      (match r.flows[t].phase
       case LockSlot(c) => c == k
       case PublishReadAlive(c) => c == k
       case PublishReadPaused(c) => c == k
       case Publish(c) => c == k
       case _ => false)
    case Joins(t, h) => t in r.flows && r.flows[t].phase == JoinPrior(h)
    case Awaits(t, h) =>
      t in r.flows &&
      (match r.flows[t].phase
       case AwaitLoad(l) => l == h
       case TakeOwn(l, _) => l == h
       case Settle(l, _) => l == h
       case _ => false)
    case Discards(t) =>
      t in r.flows &&
      (match r.flows[t].phase
       case DiscardReadPaused => true
       case DiscardReadAlive(_) => true
       case DiscardReadAllowed(_, _) => true
       case DiscardStop(_) => true
       case _ => false)
    case IsAccepted(h) => h in r.accepted
    case IsDropped(h) => h in r.dropped
    case WasAnswered(h, ok) =>
      (match PhaseOf(r, h)
       case SecondPausedCheck(b) => b == ok
       case LateReadAlive(b) => b == ok
       case LateReadAllowed(b, _) => b == ok
       case Stopping(result, _) => result == Done(ok)
       case Finished(result) => result == Done(ok)
       case _ => false)
    case FoundAlive(h, alive) => PhaseOf(r, h).LateReadAllowed? && PhaseOf(r, h).sawAlive == alive
    case SendsStop(h, cause) => PhaseOf(r, h).Stopping? && PhaseOf(r, h).cause == cause
    case EndedAs(h, result) => PhaseOf(r, h) == Finished(result)
  }

  predicate Makes(s: Session, a: Action, f: Fact) {
    var g := s.gen;
    match f
    case WillCover(t, k) =>
      || (RunsIn(s, a, t, SecondGate) && !Returns(s, t) && k == g.ledger.requested)
      || (RunsIn(s, a, t, RecheckAlive) && !Returns(s, t) && k == 0)
    case Joins(t, h) => TakesPrior(s, a, t, h)
    case Awaits(t, h) => a.FlowRun? && a.t == t && a.h == h && t in s.re.flows && s.re.flows[t].phase.Publish?
    case Discards(t) => a.FlowRun? && a.t == t && t in s.re.flows && s.re.flows[t].phase.Settle? && !Returns(s, t)
    case IsAccepted(h) => Accepts(s, a) && s.re.flows[a.t].phase.load == h
    case IsDropped(h) => a.FlowAbort? && a.t in s.re.flows && s.re.flows[a.t].phase == JoinPrior(h)
    case WasAnswered(h, ok) => LoadRunsIn(s, a, h, OnWire) && a.ok == ok
    case FoundAlive(h, alive) =>
      a.LoadRun? && a.h == h && h in s.re.loads && s.re.loads[h].phase.LateReadAlive? && g.alive == alive
    case SendsStop(h, cause) =>
      a.LoadRun? && a.h == h && h in s.re.loads &&
      (match s.re.loads[h].phase
       case SecondPausedCheck(_) => g.ledger.paused && cause == PausedDuringLoad
       case LateReadAllowed(_, sawAlive) => !sawAlive && g.lateStopAllowed && cause == LateLoad
       case _ => false)
    case EndedAs(h, result) =>
      || (a.FlowRun? && a.t in s.re.flows && TakesPrior(s, a, a.t, h) && PhaseOf(s.re, h).Spawned? && h in s.re.loads
          && result == Cancelled)
      || (a.LoadRun? && a.h == h && h in s.re.loads &&
          match s.re.loads[h].phase
          case Spawned => !s.re.loads[h].rollover && !g.alive && result == EndedLoad
          case FirstPausedCheck => g.ledger.paused && result == PausedLoad
          case LateReadAllowed(ok, sawAlive) => (sawAlive || !g.lateStopAllowed) && result == Done(ok)
          case Stopping(r, _) => result == r
          case _ => false)
  }

  predicate Undoes(s: Session, a: Action, f: Fact) {
    match f
    case WillCover(t, _) => Runs(a, t) && t in s.re.flows && (s.re.flows[t].phase.Publish? || Returns(s, t))
    case Joins(t, _) => Runs(a, t) || a == FlowAbort(t)
    case Awaits(t, _) => (Runs(a, t) && t in s.re.flows && s.re.flows[t].phase.Settle?) || a == FlowAbort(t)
    case Discards(t) => Runs(a, t) && t in s.re.flows && Returns(s, t)
    case WasAnswered(h, _) =>
      a.LoadRun? && a.h == h && h in s.re.loads && s.re.loads[h].phase.SecondPausedCheck? && s.gen.ledger.paused
    case FoundAlive(h, _) => a.LoadRun? && a.h == h
    case SendsStop(h, _) => a.LoadRun? && a.h == h
    case _ => false
  }

  /** The fact is as it should be after the step `a` in state `s`, which leaves the re-LOADs as `r`. */
  ghost predicate Tracks(s: Session, a: Action, r: Reloads, f: Fact) {
    Holds(r, f) == (Makes(s, a, f) || (Holds(s.re, f) && !Undoes(s, a, f)))
  }

  // ----- one step -----------------------------------------------------------------------------------------

  predicate OfFlow(f: Fact) {
    f.WillCover? || f.Joins? || f.Awaits? || f.Discards? || f.IsAccepted? || f.IsDropped?
  }

  /** Of the LOAD tasks, a re-LOAD changes only one it publishes or cancels. */
  lemma FlowChangesLoads(s: Session, a: Action, h: LoadId)
    requires Enabled(s, a) && a.FlowRun?
    ensures PhaseOf(FlowStep(s, a.t, a.h).re, h)
            == if h in s.re.loads && s.re.loads[h].phase.Spawned? && TakesPrior(s, a, a.t, h) then Finished(Cancelled)
               else PhaseOf(s.re, h)
  {
  }

  lemma LastGateTracks(s: Session, a: Action, f: Fact)
    requires Enabled(s, a) && OfFlow(f)
    requires a.FlowRun? && Gated(s.re.flows[a.t].phase)
    requires s.re.flows[a.t].phase.SecondGate? || s.re.flows[a.t].phase.RecheckAlive?
    ensures Tracks(s, a, GateStage(s.gen, s.re, a.t), f)
  {
  }

  lemma GateTracks(s: Session, a: Action, f: Fact)
    requires Enabled(s, a) && OfFlow(f)
    requires a.FlowRun? && Gated(s.re.flows[a.t].phase)
    requires !s.re.flows[a.t].phase.SecondGate? && !s.re.flows[a.t].phase.RecheckAlive?
    ensures Tracks(s, a, GateStage(s.gen, s.re, a.t), f)
  {
  }

  lemma TakePriorTracks(s: Session, a: Action, f: Fact)
    requires Enabled(s, a) && OfFlow(f)
    requires a.FlowRun? && Joining(s.re.flows[a.t].phase)
    requires s.re.flows[a.t].phase.TakePrior?
    requires s.re.inflight.Some?
    ensures Tracks(s, a, JoinStage(s.re, a.t), f)
  {
  }

  lemma NoPriorTracks(s: Session, a: Action, f: Fact)
    requires Enabled(s, a) && OfFlow(f)
    requires a.FlowRun? && Joining(s.re.flows[a.t].phase)
    requires s.re.flows[a.t].phase.TakePrior?
    requires s.re.inflight.None?
    ensures Tracks(s, a, JoinStage(s.re, a.t), f)
  {
  }

  lemma JoinTracks(s: Session, a: Action, f: Fact)
    requires Enabled(s, a) && OfFlow(f)
    requires a.FlowRun? && Joining(s.re.flows[a.t].phase)
    requires !s.re.flows[a.t].phase.TakePrior?
    ensures Tracks(s, a, JoinStage(s.re, a.t), f)
  {
  }

  lemma PublishTracks(s: Session, a: Action, f: Fact)
    requires Enabled(s, a) && OfFlow(f)
    requires a.FlowRun? && Publishing(s.re.flows[a.t].phase)
    requires s.re.flows[a.t].phase.Publish?
    ensures Tracks(s, a, PublishStage(s.gen, s.re, a.t, a.h), f)
  {
  }

  lemma LockTracks(s: Session, a: Action, f: Fact)
    requires Enabled(s, a) && OfFlow(f)
    requires a.FlowRun? && Publishing(s.re.flows[a.t].phase)
    requires !s.re.flows[a.t].phase.Publish?
    ensures Tracks(s, a, PublishStage(s.gen, s.re, a.t, a.h), f)
  {
  }

  lemma SettleTracks(s: Session, a: Action, f: Fact)
    requires Enabled(s, a) && OfFlow(f)
    requires a.FlowRun? && s.re.flows[a.t].phase.Settle?
    ensures Tracks(s, a, SettleStage(s, a.t).re, f)
  {
  }

  lemma DiscardTracks(s: Session, a: Action, f: Fact)
    requires Enabled(s, a) && OfFlow(f)
    requires a.FlowRun? && var p := s.re.flows[a.t].phase; !Gated(p) && !Joining(p) && !Publishing(p) && !p.Settle?
    ensures Tracks(s, a, FlowStep(s, a.t, a.h).re, f)
  {
  }

  lemma FlowTracks(s: Session, a: Action, f: Fact)
    requires Enabled(s, a) && OfFlow(f)
    requires a.FlowRun?
    ensures Tracks(s, a, FlowStep(s, a.t, a.h).re, f)
  {
    var p := s.re.flows[a.t].phase;
    if p.SecondGate? || p.RecheckAlive? {
      LastGateTracks(s, a, f);
    } else if Gated(p) {
      GateTracks(s, a, f);
    } else if p.TakePrior? {
      if s.re.inflight.Some? {
        TakePriorTracks(s, a, f);
      } else {
        NoPriorTracks(s, a, f);
      }
    } else if Joining(p) {
      JoinTracks(s, a, f);
    } else if p.Publish? {
      PublishTracks(s, a, f);
    } else if Publishing(p) {
      LockTracks(s, a, f);
    } else if p.Settle? {
      SettleTracks(s, a, f);
    } else {
      DiscardTracks(s, a, f);
    }
  }

  lemma FlowLeavesLoad(s: Session, a: Action, f: Fact)
    requires Enabled(s, a) && !OfFlow(f)
    requires a.FlowRun?
    ensures Tracks(s, a, FlowStep(s, a.t, a.h).re, f)
  {
    FlowChangesLoads(s, a, f.h);
  }

  predicate BeforeWire(p: LoadPhase) {
    p.Spawned? || p.FirstPausedCheck? || p.OnWire?
  }

  lemma EarlyLoadTracks(s: Session, a: Action, f: Fact)
    requires Enabled(s, a) && !OfFlow(f)
    requires a.LoadRun?
    requires BeforeWire(s.re.loads[a.h].phase)
    ensures Tracks(s, a, LoadStep(s, a.h, a.ok).re, f)
  {
  }

  lemma LateLoadTracks(s: Session, a: Action, f: Fact)
    requires Enabled(s, a) && !OfFlow(f)
    requires a.LoadRun?
    requires !BeforeWire(s.re.loads[a.h].phase)
    ensures Tracks(s, a, LoadStep(s, a.h, a.ok).re, f)
  {
  }

  lemma LoadLeavesFlow(s: Session, a: Action, f: Fact)
    requires Enabled(s, a) && OfFlow(f)
    requires a.LoadRun?
    ensures Tracks(s, a, LoadStep(s, a.h, a.ok).re, f)
  {
  }

  /** The step starts a re-LOAD, in a phase before any LOAD of its own. */
  predicate OnlyStarts(q: Reloads, r: Reloads, t: TaskId) {
    && (r == q || (t !in q.flows && t in r.flows && r == q.(flows := q.flows[t := r.flows[t]])
                   && (Gated(r.flows[t].phase) || r.flows[t].phase.TakePrior?)))
  }

  lemma StartsOnly(s: Session, a: Action) returns (t: TaskId)
    requires Enabled(s, a) && StartsFlow(a)
    ensures OnlyStarts(s.re, Apply(s, a).re, t)
  {
    t := if a.PlayFailed? then a.f else a.t;
  }

  lemma StartTracks(s: Session, a: Action, r: Reloads, t: TaskId, f: Fact)
    requires StartsFlow(a) && OnlyStarts(s.re, r, t)
    ensures Tracks(s, a, r, f)
  {
  }

  lemma AbortTracks(s: Session, a: Action, f: Fact)
    requires Enabled(s, a)
    requires a.FlowAbort?
    ensures Tracks(s, a, AbortFlow(s.re, a.t), f)
  {
  }

  /** All other steps leave the re-LOADs alone, but for the in-flight slot. */
  lemma OtherTracks(s: Session, a: Action, f: Fact)
    requires Enabled(s, a) && !a.FlowRun? && !a.LoadRun? && !StartsFlow(a) && !a.FlowAbort?
    ensures Apply(s, a).re == s.re.(inflight := Apply(s, a).re.inflight)
    ensures Tracks(s, a, s.re.(inflight := Apply(s, a).re.inflight), f)
  {
  }

  lemma StepTracks(s: Session, a: Action, f: Fact)
    requires Enabled(s, a)
    ensures Tracks(s, a, Apply(s, a).re, f)
  {
    match a
    case FlowRun(_, _) =>
      if OfFlow(f) {
        FlowTracks(s, a, f);
      } else {
        FlowLeavesLoad(s, a, f);
      }
    case LoadRun(_, _) =>
      if OfFlow(f) {
        LoadLeavesFlow(s, a, f);
      } else if BeforeWire(s.re.loads[a.h].phase) {
        EarlyLoadTracks(s, a, f);
      } else {
        LateLoadTracks(s, a, f);
      }
    case FlowAbort(_) => AbortTracks(s, a, f);
    case _ =>
      if StartsFlow(a) {
        var t := StartsOnly(s, a);
        StartTracks(s, a, Apply(s, a).re, t, f);
      } else {
        OtherTracks(s, a, f);
      }
  }

  // ----- whole runs -----------------------------------------------------------------------------------------

  lemma TrackedStep(states: seq<Session>, acts: seq<Action>, k: nat, f: Fact)
    requires Run(states, acts) && k < |acts|
    ensures Holds(states[k + 1].re, f)
            == (Makes(states[k], acts[k], f) || (Holds(states[k].re, f) && !Undoes(states[k], acts[k], f)))
  {
    StepTracks(states[k], acts[k], f);
  }

  /**
   Exactly what became of every LOAD after any run: a fact holds if and only if some step made it and no
   later step has undone it.
   */
  lemma FactHoldsIff(states: seq<Session>, acts: seq<Action>, n: nat, f: Fact)
    requires Run(states, acts) && n < |states|
    ensures Holds(states[n].re, f) <==>
              exists i :: 0 <= i < n && Makes(states[i], acts[i], f)
                          && forall k :: i < k < n ==> !Undoes(states[k], acts[k], f)
  {
    forall k | 0 <= k < |acts|
      ensures Holds(states[k + 1].re, f)
              == (Makes(states[k], acts[k], f) || (Holds(states[k].re, f) && !Undoes(states[k], acts[k], f)))
    {
      TrackedStep(states, acts, k, f);
    }
    SetUntilCleared(states, acts, n, (s: Session) => Holds(s.re, f), (s, a) => Makes(s, a, f), (s, a) => Undoes(s, a, f));
  }
}
