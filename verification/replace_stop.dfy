/**
 STOPs of a generation that a replacement start moved out. The write order of the teardown
 (late_stop_allowed, then session_alive) and the read order of the LOAD task rule out a late STOP.
 Only a LOAD that saw the pause flag can still stop Cast, and `ReplacedStopIffPausedLoad` says
 exactly when one can.
 */
module ReplaceStop {
  import opened SessionModel
  import opened SessionLocks
  import opened FlushLedger

  /** Causes that do not depend on the pause flag. */
  predicate Unpaused(c: StopCause) {
    c.LateLoad? || c.DiscardedLate? || c.TeardownStop?
  }

  predicate EndsForGood(t: Teardown) {
    !t.NotStarted? && t.policy.StopBestEffort?
  }

  /** A dead reading is only made of a dead generation; a paused one only after a pause. */
  predicate LoadCause(g: Generation, everPaused: bool, p: LoadPhase) {
    && (p.LateReadAllowed? && !p.sawAlive ==> !g.alive)
    && (p.Stopping? ==> StopCaused(g, everPaused, p.cause))
  }

  predicate FlowCause(g: Generation, everPaused: bool, p: FlowPhase) {
    match p
    case DiscardReadAlive(sawPaused) => sawPaused ==> everPaused
    case DiscardReadAllowed(sawPaused, sawAlive) => (sawPaused ==> everPaused) && (!sawAlive ==> !g.alive)
    case DiscardStop(sawPaused) => if sawPaused then everPaused else EndsForGood(g.teardown)
    case _ => true
  }

  predicate StopCaused(g: Generation, everPaused: bool, c: StopCause) {
    if Unpaused(c) then EndsForGood(g.teardown) else everPaused
  }

  ghost predicate LogCaused(g: Generation, c: Cast) {
    forall i :: 0 <= i < |c.log| && c.log[i].StopCmd? ==> StopCaused(g, c.everPaused, c.log[i].cause)
  }

  ghost predicate CauseInv(s: Session) {
    && (s.gen.ledger.paused ==> s.cast.everPaused)
    && (forall h :: h in s.re.loads ==> LoadCause(s.gen, s.cast.everPaused, s.re.loads[h].phase))
    && (forall t :: t in s.re.flows ==> FlowCause(s.gen, s.cast.everPaused, s.re.flows[t].phase))
    && LogCaused(s.gen, s.cast)
  }

  lemma MovedFlowCaused(s: Session, t: TaskId, h: LoadId)
    requires Atomics(s.gen) && CauseInv(s) && FlowReady(s.re, t, h)
    ensures var r := FlowStep(s, t, h);
            t in r.re.flows ==> FlowCause(s.gen, s.cast.everPaused, r.re.flows[t].phase)
    ensures LogCaused(s.gen, FlowStep(s, t, h).cast) && FlowStep(s, t, h).cast.everPaused == s.cast.everPaused
  {
    assert FlowCause(s.gen, s.cast.everPaused, s.re.flows[t].phase);
  }

  lemma FlowRunKeepsCause(s: Session, t: TaskId, h: LoadId)
    requires Atomics(s.gen) && CauseInv(s) && FlowReady(s.re, t, h)
    ensures CauseInv(FlowStep(s, t, h))
  {
    FlowStepFrame(s, t, h);
    FlowStepLoads(s, t, h);
    MovedFlowCaused(s, t, h);
    var r := FlowStep(s, t, h);
    assert r.gen == s.gen.(ledger := r.gen.ledger) && r.gen.ledger.paused == s.gen.ledger.paused;
    forall u | u in r.re.flows
      ensures FlowCause(r.gen, r.cast.everPaused, r.re.flows[u].phase)
    {
    }
  }

  lemma LoadRunKeepsCause(s: Session, h: LoadId, ok: bool)
    requires Atomics(s.gen) && CauseInv(s) && h in s.re.loads && !s.re.loads[h].phase.Finished?
    ensures CauseInv(LoadStep(s, h, ok))
  {
  }

  lemma TeardownKeepsCause(s: Session)
    requires Atomics(s.gen) && CauseInv(s) && TeardownReady(s)
    ensures CauseInv(TeardownStep(s))
  {
  }

  lemma StepKeepsCause(s: Session, a: Action)
    requires Atomics(s.gen) && CauseInv(s) && Enabled(s, a)
    ensures CauseInv(Apply(s, a))
  {
    match a
    case FlowRun(t, h) => FlowRunKeepsCause(s, t, h);
    case LoadRun(h, ok) => LoadRunKeepsCause(s, h, ok);
    case TeardownRun => TeardownKeepsCause(s);
    case _ =>
  }

  lemma {:induction false} RunKeepsCause(states: seq<Session>, acts: seq<Action>, n: nat)
    requires Run(states, acts) && n < |states|
    ensures CauseInv(states[n])
  {
    if n > 0 {
      RunKeepsCause(states, acts, n - 1);
      RunHasStructure(states, acts, n - 1);
      StepKeepsCause(states[n - 1], acts[n - 1]);
    }
  }

  lemma {:induction false} EverPausedByPause(states: seq<Session>, acts: seq<Action>, n: nat)
    requires Run(states, acts) && n < |states|
    requires forall i :: 0 <= i < n ==> !acts[i].Pause? && !acts[i].RemotePause?
    ensures !states[n].cast.everPaused
  {
    if n > 0 {
      EverPausedByPause(states, acts, n - 1);
      assert !acts[n - 1].Pause? && !acts[n - 1].RemotePause?;
    }
  }

  /**
   While the generation plays or is being replaced, every STOP it sends is one of a LOAD that saw the
   pause flag; a generation that was never paused sends none.
   */
  lemma ReplacedGenerationNeverLateStops(states: seq<Session>, acts: seq<Action>, n: nat)
    requires Run(states, acts) && n < |states| && !EndsForGood(states[n].gen.teardown)
    ensures forall i :: 0 <= i < |states[n].cast.log| && states[n].cast.log[i].StopCmd? ==>
              states[n].cast.log[i].cause.PausedDuringLoad? || states[n].cast.log[i].cause.DiscardedPaused?
    ensures (forall i :: 0 <= i < n ==> !acts[i].Pause? && !acts[i].RemotePause?) ==>
              forall i :: 0 <= i < |states[n].cast.log| ==> !states[n].cast.log[i].StopCmd?
  {
    RunKeepsCause(states, acts, n);
    if forall i :: 0 <= i < n ==> !acts[i].Pause? && !acts[i].RemotePause? {
      EverPausedByPause(states, acts, n);
    }
  }

  // ----- the exact condition after a replace ---------------------------------------------------

  function Stops(log: seq<Command>): nat
    decreases |log|
  {
    if |log| == 0 then 0
    else Stops(log[..|log| - 1]) + (if log[|log| - 1].StopCmd? then 1 else 0)
  }

  lemma StopsAfter(log: seq<Command>, c: Command)
    ensures Stops(log + [c]) == Stops(log) + (if c.StopCmd? then 1 else 0)
  {
    assert (log + [c])[..|log|] == log;
  }

  /** This LOAD task stops Cast, or will when it reads the pause flag as it is now. */
  predicate LoadWillStop(paused: bool, l: Load) {
    l.phase.Stopping? || (paused && (l.phase.SecondPausedCheck? || (l.phase.OnWire? && !l.rollover)))
  }

  /** The LOAD succeeded on the wire and passed its own pause check. */
  predicate Succeeded(p: LoadPhase) {
    (p.LateReadAlive? && p.ok) || (p.LateReadAllowed? && p.ok) || p == Finished(Done(true))
  }

  /** This flow refuses a successful LOAD and stops Cast because of the pause flag. */
  predicate FlowWillStop(paused: bool, f: Flow, loads: map<LoadId, Load>) {
    match f.phase
    case DiscardStop(_) => true
    case DiscardReadAllowed(p, _) => p
    case DiscardReadAlive(p) => p
    case DiscardReadPaused => paused
    case Settle(h, r) => paused && !f.rollover && r == Done(true) && h in loads
    case TakeOwn(h, r) => paused && !f.rollover && r == Done(true) && h in loads
    case AwaitLoad(h) => paused && !f.rollover && h in loads && Succeeded(loads[h].phase)
    case _ => false
  }

  ghost predicate PausedLoadPending(s: Session) {
    || (exists h :: h in s.re.loads && LoadWillStop(s.gen.ledger.paused, s.re.loads[h]))
    || (exists t :: t in s.re.flows && FlowWillStop(s.gen.ledger.paused, s.re.flows[t], s.re.loads))
  }

  /** Some continuation of the run sends one more STOP. */
  ghost predicate CanStillStop(s: Session) {
    exists acts :: Execute(s, acts).Some? && Stops(Execute(s, acts).value.cast.log) > Stops(s.cast.log)
  }

  predicate MovedOut(g: Generation) {
    !g.live && !g.teardown.NotStarted? && g.teardown.policy.SkipStopForReplace?
  }

  ghost predicate ReplacedInv(s: Session) {
    Structure(s) && CauseInv(s) && LedgerInv(s) && MovedOut(s.gen)
  }

  // ----- no pending paused LOAD: no STOP follows -----------------------------------------------

  lemma MovedFlowStaysQuiet(s: Session, t: TaskId, h: LoadId)
    requires ReplacedInv(s) && FlowReady(s.re, t, h)
    requires !FlowWillStop(s.gen.ledger.paused, s.re.flows[t], s.re.loads)
    ensures var r := FlowStep(s, t, h);
            t in r.re.flows ==> !FlowWillStop(s.gen.ledger.paused, r.re.flows[t], r.re.loads)
    ensures FlowStep(s, t, h).cast == s.cast
  {
    assert FlowCause(s.gen, s.cast.everPaused, s.re.flows[t].phase);
    assert OwnLoad(s.re.flows[t], s.re.loads);
  }

  lemma FlowRunStaysQuiet(s: Session, t: TaskId, h: LoadId)
    requires ReplacedInv(s) && !PausedLoadPending(s) && FlowReady(s.re, t, h)
    ensures !PausedLoadPending(FlowStep(s, t, h))
    ensures FlowStep(s, t, h).cast == s.cast
  {
    var r := FlowStep(s, t, h);
    FlowStepFrame(s, t, h);
    FlowStepLoads(s, t, h);
    MovedFlowStaysQuiet(s, t, h);
    assert r.gen.ledger.paused == s.gen.ledger.paused;
    forall u | u in r.re.flows && u != t
      ensures !FlowWillStop(r.gen.ledger.paused, r.re.flows[u], r.re.loads)
    {
      assert !FlowWillStop(s.gen.ledger.paused, s.re.flows[u], s.re.loads);
      assert OwnLoad(s.re.flows[u], s.re.loads);
    }
  }

  lemma LoadCheckStaysQuiet(g: Generation, everPaused: bool, l: Load)
    requires Atomics(g) && MovedOut(g) && LoadCause(g, everPaused, l.phase)
    requires !LoadWillStop(g.ledger.paused, l) && !l.phase.OnWire?
    ensures !LoadWillStop(g.ledger.paused, l.(phase := LoadCheck(g, l)))
    ensures Succeeded(LoadCheck(g, l)) && g.ledger.paused ==> Succeeded(l.phase)
  {
  }

  lemma LoadRunStopsNothing(s: Session, h: LoadId, ok: bool)
    requires ReplacedInv(s) && h in s.re.loads && !LoadWillStop(s.gen.ledger.paused, s.re.loads[h])
    ensures var r := LoadStep(s, h, ok);
            && r.gen == s.gen && r.re.flows == s.re.flows
            && r.re.loads == s.re.loads[h := r.re.loads[h]] && !LoadWillStop(s.gen.ledger.paused, r.re.loads[h])
            && (Succeeded(r.re.loads[h].phase) && !r.re.loads[h].rollover && s.gen.ledger.paused ==>
                  Succeeded(s.re.loads[h].phase))
            && Stops(r.cast.log) == Stops(s.cast.log)
  {
    var l := s.re.loads[h];
    assert LoadCause(s.gen, s.cast.everPaused, l.phase);
    if l.phase.OnWire? {
      StopsAfter(s.cast.log, LoadCmd);
    } else {
      LoadCheckStaysQuiet(s.gen, s.cast.everPaused, l);
    }
  }

  lemma LoadRunStaysQuiet(s: Session, h: LoadId, ok: bool)
    requires ReplacedInv(s) && !PausedLoadPending(s) && h in s.re.loads && !s.re.loads[h].phase.Finished?
    ensures !PausedLoadPending(LoadStep(s, h, ok))
    ensures Stops(LoadStep(s, h, ok).cast.log) == Stops(s.cast.log)
  {
    LoadRunStopsNothing(s, h, ok);
    var r := LoadStep(s, h, ok);
    forall u | u in r.re.flows
      ensures !FlowWillStop(r.gen.ledger.paused, r.re.flows[u], r.re.loads)
    {
      assert !FlowWillStop(s.gen.ledger.paused, s.re.flows[u], s.re.loads);
      assert OwnLoad(s.re.flows[u], s.re.loads);
    }
  }

  /** A new flow has no LOAD, and losing a flow or its guards starts no STOP. */
  lemma QuietFlows(s: Session, r: Session)
    requires !PausedLoadPending(s)
    requires r.gen.ledger.paused == s.gen.ledger.paused && r.re.loads == s.re.loads
    requires forall t :: t in r.re.flows ==>
               r.re.flows[t].phase.Planning? || r.re.flows[t].phase.WaitFlight?
               || (t in s.re.flows && r.re.flows[t].phase == s.re.flows[t].phase
                   && r.re.flows[t].rollover == s.re.flows[t].rollover)
    ensures !PausedLoadPending(r)
  {
    forall t | t in r.re.flows
      ensures !FlowWillStop(r.gen.ledger.paused, r.re.flows[t], r.re.loads)
    {
      if t in s.re.flows {
        assert !FlowWillStop(s.gen.ledger.paused, s.re.flows[t], s.re.loads);
      }
    }
  }

  /** The steps of the worker, the tasks and the teardown of a generation that was moved out. */
  lemma OtherStepStaysQuiet(s: Session, a: Action)
    requires ReplacedInv(s) && !PausedLoadPending(s) && Enabled(s, a) && !a.FlowRun? && !a.LoadRun?
    ensures !PausedLoadPending(Apply(s, a))
    ensures Stops(Apply(s, a).cast.log) == Stops(s.cast.log)
  {
    if a.TransportAnswer? {
      StopsAfter(s.cast.log, if s.cmds.tasks[a.t].play then PlayCmd else PauseCmd);
    }
    QuietFlows(s, Apply(s, a));
  }

  lemma StepStaysQuiet(s: Session, a: Action)
    requires ReplacedInv(s) && !PausedLoadPending(s) && Enabled(s, a)
    ensures !PausedLoadPending(Apply(s, a))
    ensures Stops(Apply(s, a).cast.log) == Stops(s.cast.log)
  {
    match a
    case FlowRun(t, h) => FlowRunStaysQuiet(s, t, h);
    case LoadRun(h, ok) => LoadRunStaysQuiet(s, h, ok);
    case _ => OtherStepStaysQuiet(s, a);
  }

  lemma StepKeepsReplaced(s: Session, a: Action)
    requires ReplacedInv(s) && Enabled(s, a)
    ensures ReplacedInv(Apply(s, a))
  {
    StepKeepsStructure(s, a);
    StepKeepsCause(s, a);
    StepKeepsLedger(s, a);
    MovedOutStays(s, a);
  }

  lemma MovedOutStays(s: Session, a: Action)
    requires MovedOut(s.gen) && Enabled(s, a)
    ensures MovedOut(Apply(s, a).gen)
  {
  }

  lemma {:induction false} NoStopFollows(s: Session, acts: seq<Action>)
    requires ReplacedInv(s) && !PausedLoadPending(s) && Execute(s, acts).Some?
    ensures Stops(Execute(s, acts).value.cast.log) == Stops(s.cast.log)
    decreases |acts|
  {
    if acts != [] {
      StepKeepsReplaced(s, acts[0]);
      StepStaysQuiet(s, acts[0]);
      NoStopFollows(Apply(s, acts[0]), acts[1..]);
    }
  }

  // ----- a pending paused LOAD: a STOP can follow ----------------------------------------------

  function LoadDistance(p: LoadPhase): nat {
    match p
    case Stopping(_, _) => 1
    case SecondPausedCheck(_) => 2
    case OnWire => 3
    case _ => 0
  }

  function FlowDistance(f: Flow, loads: map<LoadId, Load>): nat {
    match f.phase
    case DiscardStop(_) => 1
    case DiscardReadAllowed(_, _) => 2
    case DiscardReadAlive(_) => 3
    case DiscardReadPaused => 4
    case Settle(_, _) => 5
    case TakeOwn(_, _) => 6
    case AwaitLoad(h) =>
      if h !in loads || loads[h].phase.Finished? then 7 else if loads[h].phase.LateReadAllowed? then 8 else 9
    case _ => 0
  }

  lemma {:induction false} LoadStopFollows(s: Session, h: LoadId) returns (acts: seq<Action>)
    requires h in s.re.loads && LoadWillStop(s.gen.ledger.paused, s.re.loads[h])
    ensures Execute(s, acts).Some? && Stops(Execute(s, acts).value.cast.log) > Stops(s.cast.log)
    decreases LoadDistance(s.re.loads[h].phase)
  {
    var a := LoadRun(h, true);
    var p := s.re.loads[h].phase;
    var rest: seq<Action> := [];
    if p.Stopping? {
      StopsAfter(s.cast.log, StopCmd(p.cause));
    } else {
      StopsAfter(s.cast.log, LoadCmd);
      rest := LoadStopFollows(Apply(s, a), h);
    }
    StepThenExecute(s, a, rest);
    acts := [a] + rest;
  }

  /** One step of the flow itself brings the STOP nearer. */
  lemma FlowNearsStop(s: Session, t: TaskId)
    requires ReplacedInv(s) && t in s.re.flows && FlowWillStop(s.gen.ledger.paused, s.re.flows[t], s.re.loads)
    requires !s.re.flows[t].phase.DiscardStop?
    requires s.re.flows[t].phase.AwaitLoad? ==> s.re.loads[s.re.flows[t].phase.load].phase.Finished?
    ensures FlowReady(s.re, t, 0)
    ensures var r := FlowStep(s, t, 0);
            && r.gen == s.gen && r.cast == s.cast && r.re.loads == s.re.loads && t in r.re.flows
            && FlowWillStop(s.gen.ledger.paused, r.re.flows[t], r.re.loads)
            && FlowDistance(r.re.flows[t], r.re.loads) < FlowDistance(s.re.flows[t], s.re.loads)
  {
    assert OwnLoad(s.re.flows[t], s.re.loads);
  }

  lemma {:induction false} FlowStopFollows(s: Session, t: TaskId) returns (acts: seq<Action>)
    requires ReplacedInv(s) && t in s.re.flows && FlowWillStop(s.gen.ledger.paused, s.re.flows[t], s.re.loads)
    ensures Execute(s, acts).Some? && Stops(Execute(s, acts).value.cast.log) > Stops(s.cast.log)
    decreases FlowDistance(s.re.flows[t], s.re.loads)
  {
    var p := s.re.flows[t].phase;
    var a := FlowRun(t, 0);
    var rest: seq<Action> := [];
    if p.DiscardStop? {
      StopsAfter(s.cast.log, if p.sawPaused then StopCmd(DiscardedPaused) else StopCmd(DiscardedLate));
    } else if p.AwaitLoad? && !s.re.loads[p.load].phase.Finished? {
      a := LoadRun(p.load, true);
      StepKeepsReplaced(s, a);
      rest := AwaitedStopFollows(s, t);
    } else {
      FlowNearsStop(s, t);
      StepKeepsReplaced(s, a);
      rest := FlowStopFollows(Apply(s, a), t);
    }
    StepThenExecute(s, a, rest);
    acts := [a] + rest;
  }

  /** The flow waits for a LOAD that succeeded and is about to finish. */
  lemma {:induction false} AwaitedStopFollows(s: Session, t: TaskId) returns (acts: seq<Action>)
    requires ReplacedInv(s) && t in s.re.flows && FlowWillStop(s.gen.ledger.paused, s.re.flows[t], s.re.loads)
    requires s.re.flows[t].phase.AwaitLoad? && !s.re.loads[s.re.flows[t].phase.load].phase.Finished?
    ensures var r := LoadStep(s, s.re.flows[t].phase.load, true);
            Execute(r, acts).Some? && Stops(Execute(r, acts).value.cast.log) > Stops(s.cast.log)
    decreases FlowDistance(s.re.flows[t], s.re.loads), 0
  {
    var h := s.re.flows[t].phase.load;
    var r := LoadStep(s, h, true);
    assert r.cast == s.cast && r.re.flows == s.re.flows;
    StepKeepsReplaced(s, LoadRun(h, true));
    if r.re.loads[h].phase.Stopping? {
      acts := LoadStopFollows(r, h);
    } else {
      acts := FlowStopFollows(r, t);
    }
  }

  /**
   Exactly when a replaced generation can still stop Cast, and so possibly the session that replaced
   it: when a LOAD or a refused re-LOAD is about to act on the pause flag as it was at the replace.
   */
  lemma ReplacedStopIffPausedLoad(states: seq<Session>, acts: seq<Action>)
    requires Run(states, acts)
    requires MovedOut(states[|acts|].gen)
    ensures CanStillStop(states[|acts|]) <==> PausedLoadPending(states[|acts|])
  {
    var s := states[|acts|];
    RunHasStructure(states, acts, |acts|);
    RunKeepsCause(states, acts, |acts|);
    RunKeepsLedger(states, acts, |acts|);
    if PausedLoadPending(s) {
      if h :| h in s.re.loads && LoadWillStop(s.gen.ledger.paused, s.re.loads[h]) {
        var more := LoadStopFollows(s, h);
      } else {
        var t :| t in s.re.flows && FlowWillStop(s.gen.ledger.paused, s.re.flows[t], s.re.loads);
        var more := FlowStopFollows(s, t);
      }
    } else if CanStillStop(s) {
      var more :| Execute(s, more).Some? && Stops(Execute(s, more).value.cast.log) > Stops(s.cast.log);
      NoStopFollows(s, more);
    }
  }
}
