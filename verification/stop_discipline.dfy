/**
 Which Cast STOPs a dying generation sends: always one after its last LOAD when it ended for good,
 never one when a replacement start took over, unless it was paused.
 */
module StopDiscipline {
  import opened SessionModel
  import opened SessionLocks

  // ----- full end: a STOP follows the last LOAD ------------------------------------------------

  /** No LOAD was sent after the last STOP. */
  predicate Quiet(log: seq<Command>)
    decreases |log|
  {
    |log| == 0 ||
    (var c := log[|log| - 1]; !c.LoadCmd? && (c.StopCmd? || Quiet(log[..|log| - 1])))
  }

  /** What `Quiet` says, by position. */
  lemma {:induction false} QuietMeansStopAfterLoads(log: seq<Command>)
    ensures Quiet(log) <==>
            forall i :: 0 <= i < |log| && log[i].LoadCmd? ==> exists j :: i < j < |log| && log[j].StopCmd?
    decreases |log|
  {
    if |log| > 0 {
      var n := |log| - 1;
      var init := log[..n];
      QuietMeansStopAfterLoads(init);
      if log[n].LoadCmd? {
        assert log[n].LoadCmd? && n == |log| - 1;
      } else if log[n].StopCmd? {
        assert forall i :: 0 <= i < |log| && log[i].LoadCmd? ==> i < n < |log| && log[n].StopCmd?;
      } else {
        assert forall i :: 0 <= i < n ==> init[i] == log[i];
        forall i | 0 <= i < n && log[i].LoadCmd?
          ensures (exists j :: i < j < |log| && log[j].StopCmd?) <==> exists j :: i < j < n && init[j].StopCmd?
        {
          if j :| i < j < |log| && log[j].StopCmd? {
            assert j < n && init[j].StopCmd?;
          }
          if j :| i < j < n && init[j].StopCmd? {
            assert log[j].StopCmd?;
          }
        }
      }
    }
  }

  lemma QuietAfter(log: seq<Command>, c: Command)
    ensures Quiet(log + [c]) <==> !c.LoadCmd? && (c.StopCmd? || Quiet(log))
  {
    assert (log + [c])[..|log|] == log;
  }

  /** A LOAD task that went out and will find the dead generation, or is already stopping Cast. */
  predicate WillStop(p: LoadPhase) {
    p.SecondPausedCheck? || p.LateReadAlive? || (p.LateReadAllowed? && !p.sawAlive) || p.Stopping?
  }

  predicate EndedForGood(t: Teardown) {
    t.Over? && t.policy.StopBestEffort?
  }

  ghost predicate EndInv(s: Session) {
    EndedForGood(s.gen.teardown) && !Quiet(s.cast.log) ==>
      exists h :: h in s.re.loads && WillStop(s.re.loads[h].phase)
  }

  lemma LoadRunKeepsEnd(s: Session, h: LoadId, ok: bool)
    requires Atomics(s.gen) && EndInv(s) && h in s.re.loads && !s.re.loads[h].phase.Finished?
    ensures EndInv(LoadStep(s, h, ok))
  {
    var r := LoadStep(s, h, ok);
    if EndedForGood(s.gen.teardown) && !Quiet(r.cast.log) {
      var p := s.re.loads[h].phase;
      if p.OnWire? {
        assert WillStop(r.re.loads[h].phase);
      } else if p.Stopping? {
        QuietAfter(s.cast.log, StopCmd(p.cause));
      } else {
        var k :| k in s.re.loads && WillStop(s.re.loads[k].phase);
        assert WillStop(r.re.loads[k].phase);
      }
    }
  }

  lemma FlowRunKeepsEnd(s: Session, t: TaskId, h: LoadId)
    requires Atomics(s.gen) && EndInv(s) && FlowReady(s.re, t, h)
    ensures EndInv(FlowStep(s, t, h))
  {
    var r := FlowStep(s, t, h);
    if EndedForGood(s.gen.teardown) && !Quiet(r.cast.log) {
      var p := s.re.flows[t].phase;
      if p.DiscardStop? {
        QuietAfter(s.cast.log, if p.sawPaused then StopCmd(DiscardedPaused) else StopCmd(DiscardedLate));
      }
      var k :| k in s.re.loads && WillStop(s.re.loads[k].phase);
      assert r.re.loads[k] == s.re.loads[k];
    }
  }

  lemma TeardownKeepsEnd(s: Session)
    requires Atomics(s.gen) && EndInv(s) && TeardownReady(s)
    ensures EndInv(TeardownStep(s))
  {
    if s.gen.teardown.StopCast? {
      QuietAfter(s.cast.log, StopCmd(TeardownStop));
    }
  }

  lemma StepKeepsEnd(s: Session, a: Action)
    requires Atomics(s.gen) && EndInv(s) && Enabled(s, a)
    ensures EndInv(Apply(s, a))
  {
    match a
    case FlowRun(t, h) => FlowRunKeepsEnd(s, t, h);
    case LoadRun(h, ok) => LoadRunKeepsEnd(s, h, ok);
    case TeardownRun => TeardownKeepsEnd(s);
    case TransportAnswer(t, ok) =>
      QuietAfter(s.cast.log, PlayCmd);
      QuietAfter(s.cast.log, PauseCmd);
    case _ =>
  }

  lemma {:induction false} RunKeepsEnd(states: seq<Session>, acts: seq<Action>, n: nat)
    requires Run(states, acts) && n < |states|
    ensures EndInv(states[n])
  {
    if n > 0 {
      RunKeepsEnd(states, acts, n - 1);
      RunHasStructure(states, acts, n - 1);
      StepKeepsEnd(states[n - 1], acts[n - 1]);
    }
  }

  /**
   Full end: once the teardown is over and no LOAD task is left running, every LOAD this
   generation ever sent, its initial one included, has a later STOP. This holds for every
   interleaving, also for LOADs that outlive the teardown.
   */
  lemma FullEndStopsAfterLastLoad(states: seq<Session>, acts: seq<Action>, n: nat)
    requires Run(states, acts) && n < |states|
    requires EndedForGood(states[n].gen.teardown)
    requires forall h :: h in states[n].re.loads ==> states[n].re.loads[h].phase.Finished?
    ensures var log := states[n].cast.log;
            forall i :: 0 <= i < |log| && log[i].LoadCmd? ==> exists j :: i < j < |log| && log[j].StopCmd?
  {
    RunKeepsEnd(states, acts, n);
    QuietMeansStopAfterLoads(states[n].cast.log);
  }

  // ----- no LOAD is published once the slot was taken -------------------------------------------

  predicate InflightTaken(t: Teardown) {
    t.JoinInflight? || t.StopCast? || t.Over?
  }

  predicate WillPublish(p: FlowPhase) {
    p.Publish? || p.PublishReadPaused?
  }

  /** Of every session: a flow that saw the generation alive under the slot lock keeps the teardown out. */
  ghost predicate PublishInv(s: Session) {
    InflightTaken(s.gen.teardown) ==>
      s.re.inflight.None? && forall t :: t in s.re.flows ==> !WillPublish(s.re.flows[t].phase)
  }

  lemma FlowRunKeepsPublish(s: Session, t: TaskId, h: LoadId)
    requires Structure(s) && PublishInv(s) && FlowReady(s.re, t, h)
    ensures PublishInv(FlowStep(s, t, h))
    ensures InflightTaken(s.gen.teardown) ==> FlowStep(s, t, h).re.loads.Keys == s.re.loads.Keys
  {
    if InflightTaken(s.gen.teardown) {
      TakenSlotStaysEmpty(s, t, h);
      FlowStepFrame(s, t, h);
      FlowStepLoads(s, t, h);
    }
  }

  lemma TakenSlotStaysEmpty(s: Session, t: TaskId, h: LoadId)
    requires Structure(s) && PublishInv(s) && FlowReady(s.re, t, h) && InflightTaken(s.gen.teardown)
    ensures var r := FlowStep(s, t, h);
            && r.gen.teardown == s.gen.teardown && r.re.inflight.None? && r.re.loads.Keys == s.re.loads.Keys
            && (t in r.re.flows ==> !WillPublish(r.re.flows[t].phase))
  {
  }

  lemma StepKeepsPublish(s: Session, a: Action)
    requires Structure(s) && PublishInv(s) && Enabled(s, a)
    ensures PublishInv(Apply(s, a))
    ensures InflightTaken(s.gen.teardown) ==> Apply(s, a).re.loads.Keys == s.re.loads.Keys
  {
    match a
    case FlowRun(t, h) => FlowRunKeepsPublish(s, t, h);
    case FlowAbort(t) => AbortKeepsPublish(s, t);
    case _ => OtherKeepsPublish(s, a);
  }

  lemma AbortKeepsPublish(s: Session, t: TaskId)
    requires PublishInv(s) && Enabled(s, FlowAbort(t))
    ensures PublishInv(Apply(s, FlowAbort(t)))
  {
  }

  lemma OtherKeepsPublish(s: Session, a: Action)
    requires Structure(s) && PublishInv(s) && Enabled(s, a) && !a.FlowRun? && !a.FlowAbort?
    ensures PublishInv(Apply(s, a))
    ensures InflightTaken(s.gen.teardown) ==> Apply(s, a).re.loads.Keys == s.re.loads.Keys
  {
  }

  lemma {:induction false} RunKeepsPublish(states: seq<Session>, acts: seq<Action>, n: nat)
    requires Run(states, acts) && n < |states|
    ensures PublishInv(states[n])
  {
    if n > 0 {
      RunKeepsPublish(states, acts, n - 1);
      RunHasStructure(states, acts, n - 1);
      StepKeepsPublish(states[n - 1], acts[n - 1]);
    }
  }

  /** Once the teardown took the in-flight slot, no LOAD of this generation is published any more. */
  lemma {:induction false} NoLoadPublishedAfterTake(states: seq<Session>, acts: seq<Action>, i: nat, j: nat)
    requires Run(states, acts) && i <= j < |states| && InflightTaken(states[i].gen.teardown)
    ensures InflightTaken(states[j].gen.teardown)
    ensures states[j].re.loads.Keys == states[i].re.loads.Keys
    decreases j - i
  {
    if i < j {
      NoLoadPublishedAfterTake(states, acts, i, j - 1);
      RunKeepsPublish(states, acts, j - 1);
      RunHasStructure(states, acts, j - 1);
      StepKeepsPublish(states[j - 1], acts[j - 1]);
      TeardownOnlyAdvances(states[j - 1], acts[j - 1]);
    }
  }

  lemma TeardownOnlyAdvances(s: Session, a: Action)
    requires Structure(s) && Enabled(s, a)
    ensures InflightTaken(s.gen.teardown) ==> InflightTaken(Apply(s, a).gen.teardown)
    ensures s.gen.wav ==> Apply(s, a).gen.wav
  {
  }
}
