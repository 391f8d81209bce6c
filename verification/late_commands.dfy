/**
 PAUSE and PLAY of a generation that lost its slot. The checks under the transport lock keep a dead
 generation's command off the session that replaced it, but for a task that had passed them before.
 */
module LateCommands {
  import opened SessionModel
  import opened SessionLocks

  /** PAUSE and PLAY commands in a log. */
  function Controls(log: seq<Command>): nat
    decreases |log|
  {
    if |log| == 0 then 0
    else Controls(log[..|log| - 1]) + (if log[|log| - 1].PauseCmd? || log[|log| - 1].PlayCmd? then 1 else 0)
  }

  lemma ControlsAfter(log: seq<Command>, c: Command)
    ensures Controls(log + [c]) == Controls(log) + (if c.PauseCmd? || c.PlayCmd? then 1 else 0)
  {
    assert (log + [c])[..|log|] == log;
  }

  /** The slot is lost; `session_alive` may not be stored yet. */
  ghost predicate Dead(s: Session) {
    Structure(s) && !s.gen.live
  }

  /** The task passed the generation check, will pass the next ones, and the flag wants its command. */
  predicate PassedChecks(g: Generation, x: Transport) {
    || x.phase.Wire?
    || (g.ledger.paused != x.play && (x.phase.CheckPaused? || (x.phase.CheckAlive? && g.alive)))
  }

  ghost predicate ControlPending(s: Session) {
    exists t :: t in s.cmds.tasks && PassedChecks(s.gen, s.cmds.tasks[t])
  }

  ghost predicate CanStillControl(s: Session) {
    exists acts :: Execute(s, acts).Some? && Controls(Execute(s, acts).value.cast.log) > Controls(s.cast.log)
  }

  // ----- no task past the checks: no command follows -------------------------------------------

  lemma TransportStaysOff(s: Session, t: TaskId)
    requires Dead(s) && !ControlPending(s) && Enabled(s, TransportRun(t))
    ensures !ControlPending(Apply(s, TransportRun(t)))
  {
    assert !PassedChecks(s.gen, s.cmds.tasks[t]);
    var c := TransportCheck(s.gen, s.cmds, t);
    forall u | u in c.tasks
      ensures !PassedChecks(s.gen, c.tasks[u])
    {
      if u != t {
        assert c.tasks[u] == s.cmds.tasks[u];
      }
    }
  }

  lemma StopIsNoControl(c: Cast, cause: StopCause)
    ensures Controls(Stopped(c, cause).log) == Controls(c.log)
  {
    ControlsAfter(c.log, StopCmd(cause));
  }

  lemma FlowSendsNoControl(s: Session, t: TaskId, h: LoadId)
    requires FlowReady(s.re, t, h)
    ensures Controls(FlowStep(s, t, h).cast.log) == Controls(s.cast.log)
  {
    StopIsNoControl(s.cast, DiscardedPaused);
    StopIsNoControl(s.cast, DiscardedLate);
  }

  lemma LoadSendsNoControl(s: Session, h: LoadId, ok: bool)
    requires h in s.re.loads
    ensures Controls(LoadStep(s, h, ok).cast.log) == Controls(s.cast.log)
  {
    ControlsAfter(s.cast.log, LoadCmd);
    if s.re.loads[h].phase.Stopping? {
      StopIsNoControl(s.cast, s.re.loads[h].phase.cause);
    }
  }

  lemma OtherStepSendsNoControl(s: Session, a: Action)
    requires Dead(s) && Enabled(s, a) && !a.TransportRun? && !a.TransportAnswer?
    ensures Controls(Apply(s, a).cast.log) == Controls(s.cast.log)
  {
    match a
    case FlowRun(t, h) => FlowSendsNoControl(s, t, h);
    case LoadRun(h, ok) => LoadSendsNoControl(s, h, ok);
    case TeardownRun => StopIsNoControl(s.cast, TeardownStop);
    case _ =>
  }

  lemma NoNewTask(s: Session, a: Action)
    requires Dead(s) && Enabled(s, a) && !a.TransportRun? && !a.TransportAnswer?
    ensures Apply(s, a).gen.ledger.paused == s.gen.ledger.paused && (Apply(s, a).gen.alive ==> s.gen.alive)
    ensures forall t :: t in Apply(s, a).cmds.tasks ==>
              t in s.cmds.tasks && Apply(s, a).cmds.tasks[t] == s.cmds.tasks[t]
  {
  }

  lemma StepStaysOff(s: Session, a: Action)
    requires Dead(s) && !ControlPending(s) && Enabled(s, a)
    ensures Dead(Apply(s, a)) && !ControlPending(Apply(s, a))
    ensures Controls(Apply(s, a).cast.log) == Controls(s.cast.log)
  {
    StepKeepsStructure(s, a);
    StaysDead(s, a);
    match a
    case TransportRun(t) => TransportStaysOff(s, t);
    case TransportAnswer(_, _) => assert false;
    case _ =>
      OtherStepSendsNoControl(s, a);
      NoNewTask(s, a);
  }

  lemma StaysDead(s: Session, a: Action)
    requires Dead(s) && Enabled(s, a)
    ensures !Apply(s, a).gen.live
  {
  }

  lemma {:induction false} NoControlFollows(s: Session, acts: seq<Action>)
    requires Dead(s) && !ControlPending(s) && Execute(s, acts).Some?
    ensures Controls(Execute(s, acts).value.cast.log) == Controls(s.cast.log)
    decreases |acts|
  {
    if acts != [] {
      StepStaysOff(s, acts[0]);
      NoControlFollows(Apply(s, acts[0]), acts[1..]);
    }
  }

  // ----- a task past the checks: its command can follow ----------------------------------------

  lemma WireFollows(s: Session, t: TaskId)
    requires t in s.cmds.tasks && s.cmds.tasks[t].phase.Wire?
    ensures var acts := [TransportAnswer(t, true)];
            Execute(s, acts).Some? && Controls(Execute(s, acts).value.cast.log) == Controls(s.cast.log) + 1
  {
    ControlsAfter(s.cast.log, PlayCmd);
    ControlsAfter(s.cast.log, PauseCmd);
    StepThenExecute(s, TransportAnswer(t, true), []);
    assert [TransportAnswer(t, true)] + [] == [TransportAnswer(t, true)];
  }

  function ChecksLeft(p: TransportPhase): nat {
    match p
    case Wire => 0
    case CheckPaused => 1
    case _ => 2
  }

  lemma {:induction false} ControlFollows(s: Session, t: TaskId) returns (acts: seq<Action>)
    requires t in s.cmds.tasks && PassedChecks(s.gen, s.cmds.tasks[t])
    ensures Execute(s, acts).Some? && Controls(Execute(s, acts).value.cast.log) > Controls(s.cast.log)
    decreases ChecksLeft(s.cmds.tasks[t].phase)
  {
    if s.cmds.tasks[t].phase.Wire? {
      WireFollows(s, t);
      acts := [TransportAnswer(t, true)];
    } else {
      var r := Apply(s, TransportRun(t));
      assert r.gen == s.gen && r.cast == s.cast && PassedChecks(r.gen, r.cmds.tasks[t]);
      var rest := ControlFollows(r, t);
      StepThenExecute(s, TransportRun(t), rest);
      acts := [TransportRun(t)] + rest;
    }
  }

  /**
   Exactly when a generation that lost its slot can still PAUSE or PLAY: when a task had passed the
   generation check before, will pass the liveness check if it is still to come, and the pause flag,
   frozen since, wants its command.
   */
  lemma DeadGenerationControlsIffPassed(states: seq<Session>, acts: seq<Action>)
    requires Run(states, acts) && !states[|acts|].gen.live
    ensures CanStillControl(states[|acts|]) <==> ControlPending(states[|acts|])
  {
    var s := states[|acts|];
    RunHasStructure(states, acts, |acts|);
    if ControlPending(s) {
      var t :| t in s.cmds.tasks && PassedChecks(s.gen, s.cmds.tasks[t]);
      var more := ControlFollows(s, t);
    } else if CanStillControl(s) {
      var more :| Execute(s, more).Some? && Controls(Execute(s, more).value.cast.log) > Controls(s.cast.log);
      NoControlFollows(s, more);
    }
  }
}
