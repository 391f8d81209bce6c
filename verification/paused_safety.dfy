/**
 Pause and resume: a live session that is flagged paused while Cast still plays always has the step
 ahead of it that silences Cast, and short pauses settle on the flag whatever order the tasks run in.
 */
module PausedSafety {
  import opened Common
  import opened SessionModel
  import opened SessionLocks

  // ----- paused but still playing -------------------------------------------------------------

  ghost predicate TaskPending(c: Transports, play: bool) {
    exists t :: t in c.tasks && c.tasks[t].play == play && !c.tasks[t].phase.Respawn?
  }

  ghost predicate TaskQueued(c: Transports, play: bool) {
    exists t :: t in c.tasks && c.tasks[t].play == play && c.tasks[t].phase.Queued?
  }

  /** Between the wire success of a LOAD and the check that stops it, or already stopping it. */
  predicate ChecksPause(p: LoadPhase) {
    p.SecondPausedCheck? || p.Stopping?
  }

  ghost predicate LoadChecking(r: Reloads) {
    exists h :: h in r.loads && ChecksPause(r.loads[h].phase)
  }

  /** The task that holds the transport lock is about to send a command the flag no longer wants. */
  ghost predicate WrongCommandAhead(s: Session, play: bool) {
    exists t :: t in s.cmds.tasks && s.cmds.tasks[t] == Transport(play, Wire)
  }

  /** The ways a paused session can be left playing: all of them happened since the flag was set. */
  predicate Excused(since: Since) {
    since.pauseFailed || since.rolledOver || since.selfPlayed || since.origin == FromCast(true)
  }

  ghost predicate PausedInv(s: Session) {
    && (s.cast.reports.recent > 0 ==> !s.cast.playing)
    && (s.gen.live && s.gen.ledger.paused ==>
          && (s.cast.playing ==> Excused(s.cast.since) || TaskPending(s.cmds, false) || LoadChecking(s.re))
          && (s.cast.since.origin == FromCast(false) ==> !s.cast.playing)
          && (s.cast.since.origin.FromSender? && WrongCommandAhead(s, true) ==> TaskQueued(s.cmds, false)))
  }

  lemma TransportRunKeepsPaused(s: Session, t: TaskId)
    requires Structure(s) && PausedInv(s) && Enabled(s, TransportRun(t))
    ensures PausedInv(Apply(s, TransportRun(t)))
  {
    var c, d := s.cmds, TransportCheck(s.gen, s.cmds, t);
    if s.gen.live && s.gen.ledger.paused {
      if TaskPending(c, false) {
        var u :| u in c.tasks && c.tasks[u].play == false && !c.tasks[u].phase.Respawn?;
        assert u in d.tasks && d.tasks[u].play == false && !d.tasks[u].phase.Respawn?;
      }
    }
  }

  lemma TransportAnswerKeepsPaused(s: Session, t: TaskId, ok: bool)
    requires Structure(s) && PausedInv(s) && Enabled(s, TransportAnswer(t, ok))
    ensures PausedInv(Apply(s, TransportAnswer(t, ok)))
  {
    var r := TransportCommand(s, t, ok);
    if s.gen.live && s.gen.ledger.paused {
      assert forall u :: u in s.cmds.tasks && UsesTransport(s.cmds.tasks[u].phase) ==> u == t;
      if s.cmds.tasks[t].play && s.cast.since.origin.FromSender? {
        assert s.cmds.tasks[t] == Transport(true, Wire);
        var u :| u in s.cmds.tasks && s.cmds.tasks[u].play == false && s.cmds.tasks[u].phase.Queued?;
        assert u in r.cmds.tasks && r.cmds.tasks[u] == s.cmds.tasks[u];
      }
    }
  }

  lemma LoadRunKeepsPaused(s: Session, h: LoadId, ok: bool)
    requires PausedInv(s) && h in s.re.loads && !s.re.loads[h].phase.Finished?
    ensures PausedInv(LoadStep(s, h, ok))
  {
    var r := LoadStep(s, h, ok);
    if s.gen.live && s.gen.ledger.paused && r.cast.playing {
      if ChecksPause(r.re.loads[h].phase) {
        assert LoadChecking(r.re);
      } else if LoadChecking(s.re) {
        var k :| k in s.re.loads && ChecksPause(s.re.loads[k].phase);
        assert k != h ==> ChecksPause(r.re.loads[k].phase);
      }
    }
  }

  lemma FlowRunKeepsPaused(s: Session, t: TaskId, h: LoadId)
    requires PausedInv(s) && FlowReady(s.re, t, h)
    ensures PausedInv(FlowStep(s, t, h))
  {
    var r := FlowStep(s, t, h);
    FlowStepLoads(s, t, h);
    if s.gen.live && s.gen.ledger.paused && LoadChecking(s.re) {
      var k :| k in s.re.loads && ChecksPause(s.re.loads[k].phase);
      assert k in r.re.loads && ChecksPause(r.re.loads[k].phase);
    }
  }

  /** Steps of the worker add tasks, and a pause brings its own PAUSE task. */
  lemma WorkerKeepsPaused(s: Session, a: Action)
    requires Structure(s) && PausedInv(s) && Enabled(s, a)
    requires a.Pause? || a.ResumeStart? || a.ResumeSpawn? || a.Flush?
    ensures PausedInv(Apply(s, a))
  {
    var r := Apply(s, a);
    if r.gen.live && r.gen.ledger.paused {
      if a.Pause? && !s.gen.ledger.paused {
        assert r.cmds.tasks[a.t] == Transport(false, Queued);
      }
      if TaskPending(s.cmds, false) {
        var u :| u in s.cmds.tasks && s.cmds.tasks[u].play == false && !s.cmds.tasks[u].phase.Respawn?;
        assert u in r.cmds.tasks && r.cmds.tasks[u] == s.cmds.tasks[u];
      }
      if TaskQueued(s.cmds, false) {
        var u :| u in s.cmds.tasks && s.cmds.tasks[u].play == false && s.cmds.tasks[u].phase.Queued?;
        assert u in r.cmds.tasks && r.cmds.tasks[u] == s.cmds.tasks[u];
      }
    }
  }

  lemma PlayFailedKeepsPaused(s: Session, t: TaskId, f: TaskId)
    requires Structure(s) && PausedInv(s) && Enabled(s, PlayFailed(t, f))
    ensures PausedInv(Apply(s, PlayFailed(t, f)))
  {
    var r := Apply(s, PlayFailed(t, f));
    if TaskPending(s.cmds, false) {
      var u :| u in s.cmds.tasks && s.cmds.tasks[u].play == false && !s.cmds.tasks[u].phase.Respawn?;
      assert u in r.cmds.tasks && r.cmds.tasks[u] == s.cmds.tasks[u];
    }
    if TaskQueued(s.cmds, false) {
      var u :| u in s.cmds.tasks && s.cmds.tasks[u].play == false && s.cmds.tasks[u].phase.Queued?;
      assert u in r.cmds.tasks && r.cmds.tasks[u] == s.cmds.tasks[u];
    }
  }

  lemma StepKeepsPaused(s: Session, a: Action)
    requires Structure(s) && PausedInv(s) && Enabled(s, a)
    ensures PausedInv(Apply(s, a))
  {
    match a
    case TransportRun(t) => TransportRunKeepsPaused(s, t);
    case TransportAnswer(t, ok) => TransportAnswerKeepsPaused(s, t, ok);
    case PlayFailed(t, f) => PlayFailedKeepsPaused(s, t, f);
    case FlowRun(t, h) => FlowRunKeepsPaused(s, t, h);
    case LoadRun(h, ok) => LoadRunKeepsPaused(s, h, ok);
    case Pause(_) => WorkerKeepsPaused(s, a);
    case ResumeStart(_) => WorkerKeepsPaused(s, a);
    case ResumeSpawn(_) => WorkerKeepsPaused(s, a);
    case Flush => WorkerKeepsPaused(s, a);
    case _ => OtherKeepsPaused(s, a);
  }

  /** Steps of the device, the teardown and new flows leave the tasks and the LOADs alone. */
  lemma OtherKeepsPaused(s: Session, a: Action)
    requires PausedInv(s) && Enabled(s, a)
    requires a.CastPauses? || a.CastPlays? || a.RemotePause? || a.StartReload? || a.OweStall? || a.SwitchToWav?
             || a.StartRollover? || a.FlowAbort? || a.Take? || a.TeardownRun?
    ensures PausedInv(Apply(s, a))
  {
    var r := Apply(s, a);
    assert r.cmds == s.cmds && r.re.loads == s.re.loads;
  }

  lemma {:induction false} RunKeepsPaused(states: seq<Session>, acts: seq<Action>, n: nat)
    requires Run(states, acts) && n < |states|
    ensures PausedInv(states[n])
  {
    if n > 0 {
      RunKeepsPaused(states, acts, n - 1);
      RunHasStructure(states, acts, n - 1);
      StepKeepsPaused(states[n - 1], acts[n - 1]);
    }
  }

  /** A FLAC session has no rollover iterations. */
  ghost predicate NoRollover(s: Session) {
    !s.gen.wav ==>
      && !s.cast.since.rolledOver
      && (forall t :: t in s.re.flows ==> !s.re.flows[t].rollover)
      && (forall h :: h in s.re.loads ==> !s.re.loads[h].rollover)
  }

  lemma StepKeepsNoRollover(s: Session, a: Action)
    requires NoRollover(s) && Enabled(s, a)
    ensures NoRollover(Apply(s, a))
  {
    match a
    case FlowRun(t, h) =>
      FlowStepFrame(s, t, h);
      FlowStepLoads(s, t, h);
      var r := FlowStep(s, t, h);
      assert r.gen.wav == s.gen.wav && r.cast.since == s.cast.since;
    case _ =>
  }

  lemma {:induction false} RunKeepsNoRollover(states: seq<Session>, acts: seq<Action>, n: nat)
    requires Run(states, acts) && n < |states|
    ensures NoRollover(states[n])
  {
    if n > 0 {
      RunKeepsNoRollover(states, acts, n - 1);
      StepKeepsNoRollover(states[n - 1], acts[n - 1]);
    }
  }

  /**
   In every reachable state: if the live session is flagged paused and Cast still plays, then a
   PAUSE task is queued or running, or a LOAD is before the pause check that stops it, unless since
   the flag was set the PAUSE failed, the user started Cast on the device, a rollover LOAD of a WAV
   session started it, or the flag was set for a pause on the device that a start had overtaken.
   */
  lemma PausedSessionIsBeingSilenced(states: seq<Session>, acts: seq<Action>, n: nat)
    requires Run(states, acts) && n < |states|
    requires states[n].gen.live && states[n].gen.ledger.paused && states[n].cast.playing
    ensures TaskPending(states[n].cmds, false) || LoadChecking(states[n].re)
            || states[n].cast.since.pauseFailed || states[n].cast.since.selfPlayed
            || (states[n].gen.wav && states[n].cast.since.rolledOver)
            || states[n].cast.since.origin == FromCast(true)
  {
    RunKeepsPaused(states, acts, n);
    RunKeepsNoRollover(states, acts, n);
  }

  // ----- short pauses settle on the flag -------------------------------------------------------

  /** A pause, a short resume, and the PAUSE / PLAY tasks with commands that Cast accepts. */
  predicate Calm(a: Action) {
    a.Pause? || (a.ResumeStart? && !a.longPause) || a.ResumeSpawn? || a.TransportRun? || (a.TransportAnswer? && a.ok)
  }

  /** Nothing is running and Cast agrees with the flag. */
  predicate Settled(s: Session) {
    && s.gen.live
    && s.gen.ledger.requested == s.gen.ledger.done && !s.gen.ledger.stallOwed
    && s.gen.worker.Ready? && s.cmds == Transports(map[], None)
    && (s.cast.playing <==> !s.gen.ledger.paused)
  }

  ghost predicate PlayAhead(s: Session) {
    s.gen.worker.SpawnPlay? || TaskQueued(s.cmds, true)
  }

  ghost predicate CalmInv(s: Session) {
    && s.gen.live
    && s.gen.ledger.requested == s.gen.ledger.done && !s.gen.ledger.stallOwed
    && !s.gen.worker.SpawnReload?
    && (s.gen.worker.SpawnPlay? ==> !s.gen.ledger.paused)
    && (forall t :: t in s.cmds.tasks ==> !s.cmds.tasks[t].phase.Respawn?)
    && (s.gen.ledger.paused ==>
          && (s.cast.playing ==> TaskPending(s.cmds, false))
          && (WrongCommandAhead(s, true) ==> TaskQueued(s.cmds, false)))
    && (!s.gen.ledger.paused ==>
          && (!s.cast.playing ==> s.gen.worker.SpawnPlay? || TaskPending(s.cmds, true))
          && (WrongCommandAhead(s, false) ==> PlayAhead(s)))
  }

  lemma TransportRunKeepsCalm(s: Session, t: TaskId)
    requires Structure(s) && CalmInv(s) && Enabled(s, TransportRun(t))
    ensures CalmInv(Apply(s, TransportRun(t)))
  {
    var c, d := s.cmds, TransportCheck(s.gen, s.cmds, t);
    var wanted := !s.gen.ledger.paused;
    if TaskPending(c, wanted) {
      var u :| u in c.tasks && c.tasks[u].play == wanted && !c.tasks[u].phase.Respawn?;
      assert u in d.tasks && d.tasks[u].play == wanted && !d.tasks[u].phase.Respawn?;
    }
    assert forall u :: u in c.tasks && UsesTransport(c.tasks[u].phase) ==> c.lock == Some(u);
  }

  lemma TransportAnswerKeepsCalm(s: Session, t: TaskId)
    requires Structure(s) && CalmInv(s) && Enabled(s, TransportAnswer(t, true))
    ensures CalmInv(Apply(s, TransportAnswer(t, true)))
  {
    var r := TransportCommand(s, t, true);
    assert s.cmds.tasks[t] == Transport(s.cmds.tasks[t].play, Wire);
    assert forall u :: u in s.cmds.tasks && UsesTransport(s.cmds.tasks[u].phase) ==> u == t;
    var wanted := !s.gen.ledger.paused;
    if s.cmds.tasks[t].play != wanted && TaskQueued(s.cmds, wanted) {
      var u :| u in s.cmds.tasks && s.cmds.tasks[u].play == wanted && s.cmds.tasks[u].phase.Queued?;
      assert u in r.cmds.tasks && r.cmds.tasks[u] == s.cmds.tasks[u];
    }
  }

  lemma WorkerKeepsCalm(s: Session, a: Action)
    requires Structure(s) && CalmInv(s) && Enabled(s, a) && Calm(a)
    requires a.Pause? || a.ResumeStart? || a.ResumeSpawn?
    ensures CalmInv(Apply(s, a))
  {
    var r := Apply(s, a);
    assert forall u :: u in s.cmds.tasks ==> u in r.cmds.tasks && r.cmds.tasks[u] == s.cmds.tasks[u];
    if a.Pause? && !s.gen.ledger.paused {
      assert r.cmds.tasks[a.t] == Transport(false, Queued);
    }
    if a.ResumeSpawn? {
      assert r.cmds.tasks[a.t] == Transport(true, Queued);
    }
  }

  lemma StepKeepsCalm(s: Session, a: Action)
    requires Structure(s) && CalmInv(s) && Enabled(s, a) && Calm(a)
    ensures CalmInv(Apply(s, a))
  {
    match a
    case TransportRun(t) => TransportRunKeepsCalm(s, t);
    case TransportAnswer(t, _) => TransportAnswerKeepsCalm(s, t);
    case _ => WorkerKeepsCalm(s, a);
  }

  lemma {:induction false} CalmRun(states: seq<Session>, acts: seq<Action>, m: nat, n: nat)
    requires Run(states, acts) && m <= n < |states| && Settled(states[m])
    requires forall i :: m <= i < n ==> Calm(acts[i])
    ensures CalmInv(states[n])
    decreases n - m
  {
    if n > m {
      CalmRun(states, acts, m, n - 1);
      RunHasStructure(states, acts, n - 1);
      StepKeepsCalm(states[n - 1], acts[n - 1]);
    }
  }

  /**
   Short pauses and resumes with nothing owed: once the tasks drain, Cast is paused exactly when the
   flag is set, in whatever order the tasks got the transport lock.
   */
  lemma ShortPausesSettleOnTheFlag(states: seq<Session>, acts: seq<Action>, m: nat, n: nat)
    requires Run(states, acts) && m <= n < |states| && Settled(states[m])
    requires forall i :: m <= i < n ==> Calm(acts[i])
    requires states[n].gen.worker.Ready? && states[n].cmds.tasks == map[]
    ensures states[n].cast.playing <==> !states[n].gen.ledger.paused
  {
    CalmRun(states, acts, m, n);
  }
}
