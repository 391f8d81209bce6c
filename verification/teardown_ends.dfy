/**
 No deadlock: from every reachable state the teardown of a generation can be run to its end, and nobody who
 may start something in a session is held up.
 */
module TeardownEnds {
  import opened Common
  import opened SessionRules
  import opened SessionModel
  import opened SessionLocks
  import opened TeardownJoins
  import S = Settling

  // ----- flows that the teardown waits for --------------------------------------------------------------

  ghost function Owned(r: Reloads): set<TaskId> {
    set t | t in r.flows && r.flows[t].owned
  }

  /** The re-LOAD ended, or it is nearer to a point at which it can be aborted. */
  predicate Closer(r: Reloads, q: Reloads, t: TaskId)
    requires t in r.flows
  {
    t in q.flows ==>
      q.flows[t].owned && S.EndDistance(q.flows[t].phase, q.loads) < S.EndDistance(r.flows[t].phase, r.loads)
  }

  lemma GateIsCloser(s: Session, t: TaskId)
    requires t in s.re.flows && s.re.flows[t].owned && Gated(s.re.flows[t].phase)
    ensures Closer(s.re, GateStage(s.gen, s.re, t), t)
  {
  }

  lemma JoinIsCloser(s: Session, t: TaskId)
    requires t in s.re.flows && s.re.flows[t].owned && (s.re.flows[t].phase.TakePrior? || s.re.flows[t].phase.TakeOwn?)
    ensures Closer(s.re, JoinStage(s.re, t), t)
  {
  }

  lemma PublishIsCloser(s: Session, t: TaskId, h: LoadId)
    requires t in s.re.flows && s.re.flows[t].owned && Publishing(s.re.flows[t].phase)
    ensures Closer(s.re, PublishStage(s.gen, s.re, t, h), t)
  {
  }

  lemma DiscardIsCloser(s: Session, t: TaskId)
    requires t in s.re.flows && s.re.flows[t].owned
    requires var p := s.re.flows[t].phase; p.DiscardReadPaused? || p.DiscardReadAlive? || p.DiscardReadAllowed?
    ensures Closer(s.re, DiscardStage(s.gen, s.re, t), t)
  {
  }

  /** A flow that is not suspended can run on; it holds the locks it needs. */
  lemma RunningFlowMoves(s: Session, t: TaskId) returns (h: LoadId)
    requires Structure(s) && t in s.re.flows && s.re.flows[t].owned && !AtAwait(s.re.flows[t].phase)
    ensures FlowReady(s.re, t, h) && FlowStep(s, t, h).gen == s.gen
    ensures Closer(s.re, FlowStep(s, t, h).re, t)
  {
    h := NewNumber(s.re.loads.Keys);
    var p := s.re.flows[t].phase;
    if Gated(p) {
      GateIsCloser(s, t);
    } else if Joining(p) {
      JoinIsCloser(s, t);
    } else if Publishing(p) {
      PublishIsCloser(s, t, h);
    } else {
      DiscardIsCloser(s, t);
    }
  }

  lemma AbortFrees(s: Session, t: TaskId)
    requires t in Owned(s.re) && s.gen.teardown.AbortTasks? && AtAwait(s.re.flows[t].phase)
    ensures Enabled(s, FlowAbort(t)) && Apply(s, FlowAbort(t)) == s.(re := AbortFlow(s.re, t))
    ensures Owned(AbortFlow(s.re, t)) == Owned(s.re) - {t}
  {
    assert AbortFlow(s.re, t).flows == if s.re.flows[t].phase.DiscardStop? then s.re.flows[t := s.re.flows[t].(owned := false)]
                                       else s.re.flows - {t};
  }

  lemma RunLeavesOthers(s: Session, t: TaskId, h: LoadId)
    requires t in Owned(s.re) && FlowReady(s.re, t, h)
    ensures Owned(FlowStep(s, t, h).re) - {t} == Owned(s.re) - {t}
  {
    FlowStepFrame(s, t, h);
  }

  /** The next step that frees the teardown from the flow `t`. */
  lemma FreeStep(s: Session, t: TaskId) returns (a: Action)
    requires Structure(s) && s.gen.teardown.AbortTasks? && t in Owned(s.re)
    ensures Enabled(s, a) && Apply(s, a).gen == s.gen && Owned(Apply(s, a).re) - {t} == Owned(s.re) - {t}
    ensures t in Owned(Apply(s, a).re) ==> Closer(s.re, Apply(s, a).re, t)
  {
    if AtAwait(s.re.flows[t].phase) {
      a := FlowAbort(t);
      AbortFrees(s, t);
    } else {
      var h := RunningFlowMoves(s, t);
      RunLeavesOthers(s, t, h);
      a := FlowRun(t, h);
    }
  }

  /** An owned re-LOAD ends, is aborted, or leaves its STOP behind; the other owned ones stay. */
  lemma {:induction false} FreeFlow(s: Session, t: TaskId) returns (acts: seq<Action>, r: Session)
    requires Sound(s) && s.gen.teardown.AbortTasks? && t in Owned(s.re)
    ensures Execute(s, acts) == Some(r) && Sound(r) && r.gen == s.gen && Owned(r.re) == Owned(s.re) - {t}
    decreases S.EndDistance(s.re.flows[t].phase, s.re.loads)
  {
    var a := FreeStep(s, t);
    StepKeepsSound(s, a);
    acts, r := [], Apply(s, a);
    if t in Owned(r.re) {
      acts, r := FreeFlow(r, t);
    }
    StepThenExecute(s, a, acts);
    acts := [a] + acts;
  }

  lemma {:induction false} FreeFlows(s: Session) returns (acts: seq<Action>, r: Session)
    requires Sound(s) && s.gen.teardown.AbortTasks?
    ensures Execute(s, acts) == Some(r) && Sound(r) && r.gen == s.gen && NoOwnedFlows(r.re)
    decreases Owned(s.re)
  {
    if Owned(s.re) == {} {
      acts, r := [], s;
      forall t | t in s.re.flows
        ensures !s.re.flows[t].owned
      {
        assert t !in Owned(s.re);
      }
    } else {
      var t :| t in Owned(s.re);
      var one, m := FreeFlow(s, t);
      var rest, e := FreeFlows(m);
      ExecuteConcat(s, one, rest);
      acts, r := one + rest, e;
    }
  }

  // ----- the teardown itself ----------------------------------------------------------------------------

  lemma SlotHolderMoves(s: Session) returns (a: Action)
    requires Sound(s) && s.gen.teardown.TakeInflight? && s.re.slotLock.Some?
    ensures Enabled(s, a) && Apply(s, a).gen == s.gen && TeardownDistance(Apply(s, a)) < TeardownDistance(s)
  {
    var t := s.re.slotLock.value;
    var h := NewNumber(s.re.loads.Keys);
    a := FlowRun(t, h);
    assert Apply(s, a) == s.(re := PublishStage(s.gen, s.re, t, h));
  }

  /** Once the tasks are joined: the slot lock is freed, the LOAD in the slot finishes, or the teardown goes on. */
  lemma LateNext(s: Session) returns (a: Action)
    requires Sound(s) && TasksJoined(s.gen.teardown) && !s.gen.teardown.Over?
    ensures Enabled(s, a) && TeardownDistance(Apply(s, a)) < TeardownDistance(s)
    ensures TasksJoined(Apply(s, a).gen.teardown)
  {
    var td := s.gen.teardown;
    if td.TakeInflight? && s.re.slotLock.Some? {
      a := SlotHolderMoves(s);
    } else if td.JoinInflight? && td.handle.Some? && !LoadFinished(s.re, td.handle.value) {
      a := LoadRun(td.handle.value, true);
      assert Apply(s, a).gen == s.gen;
    } else {
      a := TeardownRun;
      assert TeardownReady(s);
    }
  }

  lemma {:induction false} LateTeardownEnds(s: Session) returns (acts: seq<Action>, r: Session)
    requires Sound(s) && TasksJoined(s.gen.teardown)
    ensures Execute(s, acts) == Some(r) && r.gen.teardown.Over?
    decreases TeardownDistance(s)
  {
    if s.gen.teardown.Over? {
      acts, r := [], s;
    } else {
      var a := LateNext(s);
      StepKeepsSound(s, a);
      acts, r := LateTeardownEnds(Apply(s, a));
      StepThenExecute(s, a, acts);
      acts := [a] + acts;
    }
  }

  lemma AbortingTeardownEnds(s: Session) returns (acts: seq<Action>, r: Session)
    requires Sound(s) && s.gen.teardown.AbortTasks?
    ensures Execute(s, acts) == Some(r) && r.gen.teardown.Over?
  {
    var first, m := FreeFlows(s);
    assert TeardownReady(m);
    StepKeepsSound(m, TeardownRun);
    acts, r := LateTeardownEnds(Apply(m, TeardownRun));
    StepThenExecute(m, TeardownRun, acts);
    ExecuteConcat(s, first, [TeardownRun] + acts);
    acts := first + ([TeardownRun] + acts);
  }

  lemma {:induction false} StartedTeardownEnds(s: Session) returns (acts: seq<Action>, r: Session)
    requires Sound(s) && !s.gen.live
    ensures Execute(s, acts) == Some(r) && r.gen.teardown.Over?
    decreases if s.gen.teardown.Mark? then 1 else 0
  {
    var td := s.gen.teardown;
    if td.Mark? {
      StepKeepsSound(s, TeardownRun);
      acts, r := StartedTeardownEnds(Apply(s, TeardownRun));
      StepThenExecute(s, TeardownRun, acts);
      acts := [TeardownRun] + acts;
    } else if td.ClearAlive? {
      StepKeepsSound(s, TeardownRun);
      acts, r := AbortingTeardownEnds(Apply(s, TeardownRun));
      StepThenExecute(s, TeardownRun, acts);
      acts := [TeardownRun] + acts;
    } else if td.AbortTasks? {
      acts, r := AbortingTeardownEnds(s);
    } else {
      acts, r := LateTeardownEnds(s);
    }
  }

  /**
   A generation can be ended at any time, and its teardown can be run to its end, whatever tasks, re-LOADs,
   rollovers and LOADs are under way and whichever locks they hold.
   */
  lemma EveryTeardownCanEnd(states: seq<Session>, acts: seq<Action>, n: nat, policy: Policy)
    returns (more: seq<Action>, end: Session)
    requires Run(states, acts) && n < |states|
    ensures Execute(states[n], more) == Some(end) && end.gen.teardown.Over?
    ensures states[n].gen.live ==> more != [] && more[0] == Take(policy)
  {
    var s := states[n];
    RunIsSound(states, acts, n);
    if s.gen.live {
      StepKeepsSound(s, Take(policy));
      more, end := StartedTeardownEnds(Apply(s, Take(policy)));
      StepThenExecute(s, Take(policy), more);
      more := [Take(policy)] + more;
    } else {
      more, end := StartedTeardownEnds(s);
    }
  }

  // ----- nobody is held up ------------------------------------------------------------------------------

  /** The sender's commands reach a live session, at the latest after the second section of a resume. */
  lemma SenderIsHeard(s: Session) returns (t: TaskId)
    requires s.gen.live
    ensures !s.gen.worker.Ready? ==> Enabled(s, ResumeSpawn(t)) && Apply(s, ResumeSpawn(t)).gen.worker.Ready?
    ensures s.gen.worker.Ready? ==> Enabled(s, Pause(t)) && Enabled(s, Flush)
    ensures s.gen.worker.Ready? ==> forall longPause :: Enabled(s, ResumeStart(longPause))
  {
    t := NewNumber(s.cmds.tasks.Keys + s.re.flows.Keys);
  }

  /** Re-LOADs and rollovers start whenever their loop runs, the WAV switch once, reports are handled. */
  lemma LoopsAreFree(s: Session) returns (t: TaskId)
    ensures Enabled(s, StartReload(t, false)) && (LoopsRunning(s.gen.teardown) ==> Enabled(s, StartReload(t, true)))
    ensures s.gen.live && s.gen.alive ==> Enabled(s, OweStall(t))
    ensures s.gen.wav && s.gen.alive && LoopsRunning(s.gen.teardown) ==> Enabled(s, StartRollover(t))
    ensures s.gen.live && !s.gen.wav ==> Enabled(s, SwitchToWav)
    ensures HasReport(s.cast.reports) ==> Enabled(s, RemotePause)
    ensures forall reported :: Enabled(s, CastPauses(reported)) || Enabled(s, CastPlays)
    ensures Enabled(s, CastPlays) <==> !s.cast.playing
  {
    t := NewNumber(s.re.flows.Keys);
  }
}
