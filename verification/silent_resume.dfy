/**
 Three reachable states in which Cast and the pause flag part for good: the sender resumes and Cast
 may end, or must end, silent; and the flag is set for a pause on the device that a LOAD has undone.
 */
module SilentResume {
  import opened Common
  import opened SessionRules
  import opened SessionModel
  import opened LiveSession
  import opened Settling
  import opened SessionExamples
  import D = Draining
  import R = ReplaceStop

  // ----- a short resume before the STOP of a paused LOAD ----------------------------------------

  function Paused(b: Session): Session {
    b.(gen := b.gen.(ledger := b.gen.ledger.(paused := true)),
       cmds := Transports(map[7 := Transport(false, Queued)], None),
       cast := b.cast.(since := Unset(), everPaused := true))
  }

  function Resuming(b: Session, w: Worker): Session {
    b.(gen := b.gen.(ledger := Resumed(b.gen.ledger), worker := w))
  }

  function Loaded(c: Cast): Cast {
    Started(c).(log := c.log + [LoadCmd])
  }

  /** The LOAD is on the wire, the sender pauses, the LOAD succeeds and sees the flag. */
  lemma PausedLoadDecidesToStop() returns (b: Session)
    ensures b == Paused(Fresh(false)).(cast := Loaded(Paused(Fresh(false)).cast))
    ensures Reaches(Fresh(false),
                    OneLoad(b, None, AwaitLoad(0), Load(false, 0, 0, Stopping(PausedLoad, PausedDuringLoad))))
  {
    var l := Load(false, 0, 0, OnWire);
    b := Paused(Fresh(false));
    FreshLoads(false);
    ReachesNext(Fresh(false), Loading(false), Pause(7));
    assert HandlePause(Loading(false), 7) == OneLoad(b, None, AwaitLoad(0), l);
    LoadSucceeds(Fresh(false), b, None, l);
    b := b.(cast := Loaded(b.cast));
    LoadMoves(Fresh(false), b, None, l.(phase := SecondPausedCheck(true)), Stopping(PausedLoad, PausedDuringLoad));
  }

  /**
   The sender resumed after a short pause and nothing is owed; yet draining can end with Cast silent,
   because the STOP of the LOAD that saw the flag may come after the PLAY. The other order ends well.
   */
  lemma ResumedSessionCanBeSilent()
    ensures exists r :: Reaches(Fresh(false), r) && r.gen.live && !r.gen.ledger.paused && r.gen.worker.SpawnPlay?
                        && ResumeDecision(r.gen.ledger, false) == Nothing && Ends(r, false) && Ends(r, true)
  {
    var b := PausedLoadDecidesToStop();
    var l := Load(false, 0, 0, Stopping(PausedLoad, PausedDuringLoad));
    ReachesNext(Fresh(false), OneLoad(b, None, AwaitLoad(0), l), ResumeStart(false));
    var r := OneLoad(Resuming(b, SpawnPlay), None, AwaitLoad(0), l);
    assert Apply(OneLoad(b, None, AwaitLoad(0), l), ResumeStart(false)) == r;
    var states, acts := ReachedByRun(Fresh(false), r);
    StopIsLast(r);
    EndsIff(states, acts, |acts|, false);
    EndsIff(states, acts, |acts|, true);
  }

  lemma StopIsLast(r: Session)
    requires r == OneLoad(Resuming(Paused(Fresh(false)).(cast := r.cast), SpawnPlay), None, AwaitLoad(0),
                          Load(false, 0, 0, Stopping(PausedLoad, PausedDuringLoad)))
    ensures TasksEnd(r) == Some(true) && ReloadsEnd(r) == Some(false)
  {
    assert R.LoadWillStop(false, r.re.loads[0]);
    assert r.cmds.tasks == map[7 := Transport(false, Queued)];
    assert r.re.flows == map[1 := Flow(true, false, None, AwaitLoad(0))];
    assert !D.FlowLoadAhead(r.re, D.DoneAhead(r));
  }

  // ----- a resume that trusts a re-LOAD which a PAUSE silenced -----------------------------------

  /** A flush and the resume that re-LOADs for it. */
  function Flush1(): Session {
    Fresh(false).(gen := Fresh(false).gen.(ledger := Ledger(false, 1, 0, false)))
  }

  lemma FlushReloads()
    ensures Reaches(Fresh(false), OneFlow(Flush1(), Some(1), Planning))
  {
    var f := Fresh(false);
    ReachesSelf(f);
    ReachesNext(f, f, Flush);
    assert Apply(f, Flush) == Flush1();
    ReachesNext(f, Flush1(), ResumeStart(false));
    var s := Flush1().(gen := Flush1().gen.(worker := SpawnReload(Some(1))));
    assert Apply(Flush1(), ResumeStart(false)) == s;
    ReachesNext(f, s, ResumeSpawn(1));
    assert Apply(s, ResumeSpawn(1)) == OneFlow(Flush1(), Some(1), Planning);
  }

  function FlushLoaded(): Load {
    Load(false, 1, 1, LateReadAlive(true))
  }

  /** Its LOAD succeeds and passes the pause check after it. */
  lemma FlushLoadSucceeds()
    ensures Reaches(Fresh(false),
                    OneLoad(Flush1().(cast := Loaded(Fresh(false).cast)), Some(1), AwaitLoad(0), FlushLoaded()))
  {
    var f, l := Fresh(false), Load(false, 1, 0, OnWire);
    FlushReloads();
    LoadReachesWire(f, Flush1(), Some(1));
    LoadSucceeds(f, Flush1(), Some(1), l);
    LoadMoves(f, Flush1().(cast := Loaded(f.cast)), Some(1), l.(issued := 1, phase := SecondPausedCheck(true)),
              LateReadAlive(true));
  }

  /** The sender has paused again and the PAUSE task has reached phase `p`. */
  function Pausing(p: TransportPhase): Session {
    Paused(Flush1().(cast := Loaded(Fresh(false).cast))).(
      cmds := Transports(map[7 := Transport(false, p)], if p.Queued? then None else Some(7)))
  }

  lemma SenderPauses()
    ensures Reaches(Fresh(false), OneLoad(Pausing(Queued), Some(1), AwaitLoad(0), FlushLoaded()))
  {
    var x := OneLoad(Flush1().(cast := Loaded(Fresh(false).cast)), Some(1), AwaitLoad(0), FlushLoaded());
    FlushLoadSucceeds();
    ReachesNext(Fresh(false), x, Pause(7));
    assert HandlePause(x, 7) == OneLoad(Pausing(Queued), Some(1), AwaitLoad(0), FlushLoaded());
  }

  lemma PauseMoves(p: TransportPhase, q: TransportPhase)
    requires Reaches(Fresh(false), OneLoad(Pausing(p), Some(1), AwaitLoad(0), FlushLoaded()))
    requires (p.Queued? && q.CheckGeneration?) || (p.CheckGeneration? && q.CheckAlive?)
             || (p.CheckAlive? && q.CheckPaused?) || (p.CheckPaused? && q.Wire?)
    ensures Reaches(Fresh(false), OneLoad(Pausing(q), Some(1), AwaitLoad(0), FlushLoaded()))
  {
    var x := OneLoad(Pausing(p), Some(1), AwaitLoad(0), FlushLoaded());
    ReachesNext(Fresh(false), x, TransportRun(7));
    assert TransportCheck(x.gen, x.cmds, 7) == Pausing(q).cmds;
  }

  lemma PauseReachesWire()
    ensures Reaches(Fresh(false), OneLoad(Pausing(Wire), Some(1), AwaitLoad(0), FlushLoaded()))
  {
    SenderPauses();
    PauseMoves(Queued, CheckGeneration);
    PauseMoves(CheckGeneration, CheckAlive);
    PauseMoves(CheckAlive, CheckPaused);
    PauseMoves(CheckPaused, Wire);
  }

  /**
   The sender resumes while the flush is still owed: the resume sends no PLAY and trusts a re-LOAD,
   which finds the flush already covered. In whatever order everything finishes, Cast ends silent.
   */
  lemma CoveredResumeEndsSilent()
    ensures exists r :: Reaches(Fresh(false), r) && r.gen.live && !r.gen.ledger.paused
                        && r.gen.worker == SpawnReload(Some(1)) && Ends(r, false) && !Ends(r, true)
  {
    var x := OneLoad(Pausing(Wire), Some(1), AwaitLoad(0), FlushLoaded());
    var r := OneLoad(Resuming(Pausing(Wire), SpawnReload(Some(1))), Some(1), AwaitLoad(0), FlushLoaded());
    PauseReachesWire();
    ReachesNext(Fresh(false), x, ResumeStart(false));
    assert Apply(x, ResumeStart(false)) == r;
    var states, acts := ReachedByRun(Fresh(false), r);
    PauseIsLast(r);
    EndsIff(states, acts, |acts|, false);
    EndsIff(states, acts, |acts|, true);
  }

  lemma PauseIsLast(r: Session)
    requires r == OneLoad(Resuming(Pausing(Wire), SpawnReload(Some(1))), Some(1), AwaitLoad(0), FlushLoaded())
    ensures TasksEnd(r) == Some(false) && ReloadsEnd(r).None?
  {
    assert r.cmds.tasks == map[7 := Transport(false, Wire)];
    assert r.cmds.tasks[7] == Transport(false, Wire);
    assert r.re.flows == map[1 := Flow(true, false, Some(1), AwaitLoad(0))];
    assert r.re.loads == map[0 := FlushLoaded()];
    assert D.DoneAhead(r) == 1;
    assert !D.FlowLoadAhead(r.re, 1);
  }

  // ----- a pause on the device that a LOAD has undone ---------------------------------------------

  /** The user paused on the device; the re-LOAD on the wire then starts Cast. */
  function DevicePaused(): Session {
    Fresh(false).(cast := Cast(false, Reports(0, 1), Unset(), false, [LoadCmd]))
  }

  function Restarted(): Session {
    Fresh(false).(cast := Cast(true, Reports(1, 0), Unset(), false, [LoadCmd, LoadCmd]))
  }

  lemma DevicePauseIsOvertaken()
    ensures Reaches(Fresh(false), OneLoad(Restarted(), None, AwaitLoad(0), Load(false, 0, 0, SecondPausedCheck(true))))
  {
    var l := Load(false, 0, 0, OnWire);
    FreshLoads(false);
    ReachesNext(Fresh(false), Loading(false), CastPauses(true));
    assert Apply(Loading(false), CastPauses(true)) == OneLoad(DevicePaused(), None, AwaitLoad(0), l);
    LoadSucceeds(Fresh(false), DevicePaused(), None, l);
    assert DevicePaused().(cast := Loaded(DevicePaused().cast)) == Restarted();
  }

  function Succeeded(): Load {
    Load(false, 0, 0, Finished(Done(true)))
  }

  lemma RestartFinishes()
    ensures Reaches(Fresh(false), OneLoad(Restarted(), None, AwaitLoad(0), Succeeded()))
  {
    var f, b, l := Fresh(false), Restarted(), Succeeded();
    DevicePauseIsOvertaken();
    LoadMoves(f, b, None, l.(phase := SecondPausedCheck(true)), LateReadAlive(true));
    LoadMoves(f, b, None, l.(phase := LateReadAlive(true)), LateReadAllowed(true, true));
    LoadMoves(f, b, None, l.(phase := LateReadAllowed(true, true)), Finished(Done(true)));
  }

  lemma RestartJoins(p: FlowPhase, q: FlowPhase)
    requires Reaches(Fresh(false), OneLoad(Restarted(), None, p, Succeeded()))
    requires (p == AwaitLoad(0) && q == TakeOwn(0, Done(true))) || (p == TakeOwn(0, Done(true)) && q == Settle(0, Done(true)))
    ensures Reaches(Fresh(false), OneLoad(Restarted(), None, q, Succeeded()))
  {
    var x := OneLoad(Restarted(), None, p, Succeeded());
    ReachesNext(Fresh(false), x, FlowRun(1, 0));
    assert JoinStage(x.re, 1) == OneLoad(Restarted(), None, q, Succeeded()).re;
  }

  function Accepted0(): Session {
    Restarted().(re := Reloads(map[], None, None, None, map[0 := Succeeded()], {0}, {}))
  }

  lemma RestartIsJoined()
    ensures Reaches(Fresh(false), OneLoad(Restarted(), None, Settle(0, Done(true)), Succeeded()))
  {
    RestartFinishes();
    RestartJoins(AwaitLoad(0), TakeOwn(0, Done(true)));
    RestartJoins(TakeOwn(0, Done(true)), Settle(0, Done(true)));
  }

  lemma RestartIsAccepted()
    ensures Reaches(Fresh(false), Accepted0())
  {
    var x := OneLoad(Restarted(), None, Settle(0, Done(true)), Succeeded());
    RestartIsJoined();
    ReachesNext(Fresh(false), x, FlowRun(1, 0));
    assert SettleStage(x, 1) == Accepted0();
  }

  /**
   The report is handled after the LOAD: nothing runs any more, the flag is set and Cast plays. A
   pause by the sender now changes nothing.
   */
  lemma OvertakenDevicePausePlays()
    ensures exists r :: Reaches(Fresh(false), r) && !r.gen.wav && r.gen.live && r.gen.ledger.paused && r.cast.playing
                        && Quiet(r) && r.cast.since == Unset().(origin := FromCast(true))
                        && forall t :: HandlePause(r, t) == r
  {
    RestartIsAccepted();
    ReachesNext(Fresh(false), Accepted0(), RemotePause);
    var r := Apply(Accepted0(), RemotePause);
    assert r.re == Accepted0().re && r.cmds == Fresh(false).cmds;
  }
}
