/**
 What one event of a live session brings about: a pause that silences Cast, a resume or a re-LOAD that
 makes it play, and a failed PLAY that falls back to a re-LOAD. Each is said of every reachable state,
 and of where everything that is then under way can come to rest.
 */
module SessionEffects {
  import opened Common
  import opened SessionModel
  import opened FlushLedger
  import R = ReplaceStop
  import opened TeardownJoins
  import opened LiveSession
  import opened Draining
  import opened Settling

  lemma LiveStep(s: Session, a: Action)
    requires Live(s) && Enabled(s, a) && Apply(s, a).gen.live
    ensures Live(Apply(s, a))
  {
    StepKeepsSound(s, a);
    StepKeepsFlightInv(s, a);
    R.StepKeepsCause(s, a);
    StepKeepsLedger(s, a);
  }

  lemma LiveEnds(s: Session, b: bool)
    requires Live(s)
    ensures Ends(s, b) <==> CanEnd(s, b)
  {
    if CanEnd(s, b) {
      PossibleEndFollows(s, b);
    }
    if Ends(s, b) {
      var more, r :| DrainsTo(s, more, r) && Quiet(r) && r.cast.playing == b;
      EndWasPossible(s, more, r);
    }
  }

  // ----- a failed PLAY ------------------------------------------------------------------------------

  /** The task stays and has its re-LOAD to start; the transport lock is free. */
  lemma FailedPlayStays(s: Session, t: TaskId)
    requires Live(s) && t in s.cmds.tasks && s.cmds.tasks[t] == Transport(true, Wire)
    ensures var r := Apply(s, TransportAnswer(t, false));
            && r.cmds.lock.None? && r.cast == s.cast && r.gen == s.gen && Live(r)
            && t in r.cmds.tasks && r.cmds.tasks[t].phase.Respawn? && LoadAhead(r)
  {
    LiveStep(s, TransportAnswer(t, false));
  }

  /**
   A PLAY that Cast refuses falls back to a re-LOAD: the transport lock is free again, the task starts
   an owned re-LOAD for no particular flush, and while the flag stays clear Cast can end playing.
   */
  lemma FailedPlayReloads(states: seq<Session>, acts: seq<Action>, n: nat, t: TaskId, f: TaskId)
    requires Run(states, acts) && n < |states| && states[n].gen.live
    requires t in states[n].cmds.tasks && states[n].cmds.tasks[t] == Transport(true, Wire) && f !in states[n].re.flows
    ensures var r := Apply(states[n], TransportAnswer(t, false));
            && r.cmds.lock.None? && LoadAhead(r) && Enabled(r, PlayFailed(t, f))
            && var q := Apply(r, PlayFailed(t, f));
               t !in q.cmds.tasks && f in q.re.flows && q.re.flows[f] == Flow(true, false, None, Planning)
    ensures !states[n].gen.ledger.paused ==> Ends(Apply(states[n], TransportAnswer(t, false)), true)
  {
    RunIsLive(states, acts, n);
    FailedPlayStays(states[n], t);
    LiveEnds(Apply(states[n], TransportAnswer(t, false)), true);
  }

  // ----- a pause ----------------------------------------------------------------------------------------

  /**
   A pause sets the flag and always can silence Cast; Cast can go on playing only when a rollover LOAD,
   which looks at no flag, is ahead.
   */
  lemma PauseSilences(states: seq<Session>, acts: seq<Action>, n: nat, t: TaskId)
    requires Run(states, acts) && n < |states| && Enabled(states[n], Pause(t)) && !states[n].gen.ledger.paused
    ensures var r := Apply(states[n], Pause(t));
            && r.gen.ledger == states[n].gen.ledger.(paused := true)
            && Ends(r, false) && (Ends(r, true) <==> RolloverAhead(states[n].re))
  {
    var r := Apply(states[n], Pause(t));
    RunIsLive(states, acts, n);
    LiveStep(states[n], Pause(t));
    LiveEnds(r, false);
    LiveEnds(r, true);
    assert r.cmds.tasks[t] == Transport(false, Queued);
    assert CommandAhead(r.cmds, false);
    assert r.re == states[n].re;
  }

  // ----- a resume ---------------------------------------------------------------------------------------

  /** The worker's PLAY or re-LOAD is ahead. */
  lemma ResumedWorker(s: Session, longPause: bool)
    requires Live(s) && Enabled(s, ResumeStart(longPause))
    ensures var r := Apply(s, ResumeStart(longPause));
            && Live(r) && !r.gen.ledger.paused && r.cmds == s.cmds && r.re == s.re && r.cast == s.cast
            && DoneAhead(r) == DoneAhead(s)
  {
    LiveStep(s, ResumeStart(longPause));
  }

  /**
   A resume of a paused session, or of one that owes a re-LOAD, clears the flag and can end with Cast
   playing, unless a flush is owed that a re-LOAD already under way will cover: then it adds nothing.
   */
  lemma ResumePlays(states: seq<Session>, acts: seq<Action>, n: nat, longPause: bool)
    requires Run(states, acts) && n < |states| && Enabled(states[n], ResumeStart(longPause))
    requires var l := states[n].gen.ledger; l.paused || l.stallOwed || l.requested > l.done
    requires states[n].gen.ledger.requested > states[n].gen.ledger.done ==>
               DoneAhead(states[n]) < states[n].gen.ledger.requested
    ensures var r := Apply(states[n], ResumeStart(longPause)); !r.gen.ledger.paused && Ends(r, true)
  {
    RunIsLive(states, acts, n);
    ResumedWorker(states[n], longPause);
    LiveEnds(Apply(states[n], ResumeStart(longPause)), true);
  }

  // ----- re-LOADs from elsewhere --------------------------------------------------------------------------

  lemma NewFlowLoadsAhead(s: Session, t: TaskId)
    requires t in s.re.flows && FlowLoads(s.re.flows[t], DoneAhead(s))
    ensures LoadAhead(s)
  {
  }

  /** Any re-LOAD of an unpaused session can end with Cast playing; a rollover of any session can. */
  lemma ReloadPlays(states: seq<Session>, acts: seq<Action>, n: nat, a: Action)
    requires Run(states, acts) && n < |states| && states[n].gen.live && Enabled(states[n], a)
    requires a.StartRollover? || ((a.StartReload? || a.OweStall?) && !states[n].gen.ledger.paused)
    ensures Ends(Apply(states[n], a), true)
  {
    var r := Apply(states[n], a);
    RunIsLive(states, acts, n);
    LiveStep(states[n], a);
    LiveEnds(r, true);
    assert a.t in r.re.flows;
    NewFlowLoadsAhead(r, a.t);
    assert a.StartRollover? ==> RolloverLoads(r.re.flows[a.t]);
  }
}
