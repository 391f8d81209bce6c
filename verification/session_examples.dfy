/**
 Concrete runs that separate what the session protocol guarantees from what it does not.
 */
module SessionExamples {
  import opened Common
  import opened SessionRules
  import opened SessionModel
  import opened SessionLocks
  import opened ReplaceStop

  ghost predicate Reaches(s: Session, r: Session) {
    exists acts :: Execute(s, acts) == Some(r)
  }

  lemma ReachesNext(s: Session, m: Session, a: Action)
    requires Reaches(s, m) && Enabled(m, a)
    ensures Reaches(s, Apply(m, a))
  {
    var acts :| Execute(s, acts) == Some(m);
    StepThenExecute(m, a, []);
    assert [a] + [] == [a];
    ExecuteConcat(s, acts, [a]);
  }

  lemma ReachesSelf(s: Session)
    ensures Reaches(s, s)
  {
    assert Execute(s, []) == Some(s);
  }

  /** What executes from a fresh session is the end of a run. */
  lemma {:induction false} ExecutionIsRun(s: Session, acts: seq<Action>) returns (states: seq<Session>)
    requires Execute(s, acts).Some?
    ensures |states| == |acts| + 1 && states[0] == s && states[|acts|] == Execute(s, acts).value
    ensures forall i :: 0 <= i < |acts| ==> Enabled(states[i], acts[i]) && states[i + 1] == Apply(states[i], acts[i])
    decreases |acts|
  {
    if acts == [] {
      states := [s];
    } else {
      var rest := ExecutionIsRun(Apply(s, acts[0]), acts[1..]);
      states := [s] + rest;
      forall i | 0 <= i < |acts|
        ensures Enabled(states[i], acts[i]) && states[i + 1] == Apply(states[i], acts[i])
      {
        if i > 0 {
          assert states[i] == rest[i - 1] && acts[i] == acts[1..][i - 1];
        }
      }
    }
  }

  function Fresh(wav: bool): Session {
    Session(
      Generation(true, true, true, wav, Ledger(false, 0, 0, false), Ready, NotStarted),
      Transports(map[], None),
      Reloads(map[], None, None, None, map[], {}, {}),
      Cast(true, Reports(0, 0), Unset(), false, [LoadCmd]))
  }

  /** `b` with one owned re-LOAD flow, number 1, for request `q` in phase `p`. */
  function OneFlow(b: Session, q: Option<nat>, p: FlowPhase): Session {
    b.(re := Reloads(
      map[1 := Flow(true, false, q, p)],
      if UsesFlight(p) then Some(1) else None,
      None,
      if UsesSlot(p) then Some(1) else None,
      map[], {}, {}))
  }

  /** `b` with that flow, now in phase `p`, and LOAD number 0, which it published. */
  function OneLoad(b: Session, q: Option<nat>, p: FlowPhase, l: Load): Session {
    b.(re := Reloads(
      map[1 := Flow(true, false, q, p)], Some(1), if p.Settle? then None else Some(0), None, map[0 := l], {}, {}))
  }

  predicate LetsLoad(g: Generation, q: Option<nat>) {
    g.live && g.alive && !g.ledger.paused && (q.Some? ==> q.value > g.ledger.done)
  }

  /** Where a flow goes when nothing disturbs it. */
  function Undisturbed(p: FlowPhase, covers: nat): FlowPhase {
    match p
    case Planning => WaitFlight
    case WaitFlight => FirstGate
    case FirstGate => TakePrior
    case TakePrior => WaitLead
    case WaitLead => SecondGate
    case SecondGate => LockSlot(covers)
    case LockSlot(c) => PublishReadAlive(c)
    case PublishReadAlive(c) => PublishReadPaused(c)
    case PublishReadPaused(c) => Publish(c)
    case _ => p
  }

  lemma GateStagePasses(b: Session, q: Option<nat>, p: FlowPhase)
    requires LetsLoad(b.gen, q) && Gated(p) && !p.RecheckAlive? && !p.Unspawned?
    ensures GateStage(b.gen, OneFlow(b, q, p).re, 1) == OneFlow(b, q, Undisturbed(p, b.gen.ledger.requested)).re
  {
  }

  lemma FlowPassesGates(s: Session, b: Session, q: Option<nat>, p: FlowPhase)
    requires LetsLoad(b.gen, q) && Reaches(s, OneFlow(b, q, p)) && Gated(p) && !p.RecheckAlive? && !p.Unspawned?
    ensures Reaches(s, OneFlow(b, q, Undisturbed(p, b.gen.ledger.requested)))
  {
    GateStagePasses(b, q, p);
    ReachesNext(s, OneFlow(b, q, p), FlowRun(1, 0));
  }

  lemma FlowFindsSlotFree(s: Session, b: Session, q: Option<nat>, p: FlowPhase)
    requires LetsLoad(b.gen, q) && Reaches(s, OneFlow(b, q, p)) && (p.TakePrior? || Publishing(p)) && !p.Publish?
    ensures Reaches(s, OneFlow(b, q, Undisturbed(p, b.gen.ledger.requested)))
  {
    ReachesNext(s, OneFlow(b, q, p), FlowRun(1, 0));
    assert FlowStep(OneFlow(b, q, p), 1, 0).re == OneFlow(b, q, Undisturbed(p, b.gen.ledger.requested)).re;
  }

  lemma FlowReachesPrior(s: Session, b: Session, q: Option<nat>)
    requires LetsLoad(b.gen, q) && Reaches(s, OneFlow(b, q, Planning))
    ensures Reaches(s, OneFlow(b, q, TakePrior))
  {
    FlowPassesGates(s, b, q, Planning);
    FlowPassesGates(s, b, q, WaitFlight);
    FlowPassesGates(s, b, q, FirstGate);
  }

  lemma FlowReachesLock(s: Session, b: Session, q: Option<nat>)
    requires LetsLoad(b.gen, q) && Reaches(s, OneFlow(b, q, Planning))
    ensures Reaches(s, OneFlow(b, q, LockSlot(b.gen.ledger.requested)))
  {
    FlowReachesPrior(s, b, q);
    FlowFindsSlotFree(s, b, q, TakePrior);
    FlowPassesGates(s, b, q, WaitLead);
    FlowPassesGates(s, b, q, SecondGate);
  }

  lemma FlowReachesPublish(s: Session, b: Session, q: Option<nat>)
    requires LetsLoad(b.gen, q) && Reaches(s, OneFlow(b, q, Planning))
    ensures Reaches(s, OneFlow(b, q, Publish(b.gen.ledger.requested)))
  {
    var c := b.gen.ledger.requested;
    FlowReachesLock(s, b, q);
    FlowFindsSlotFree(s, b, q, LockSlot(c));
    FlowFindsSlotFree(s, b, q, PublishReadAlive(c));
    FlowFindsSlotFree(s, b, q, PublishReadPaused(c));
  }

  /** One silent step of the LOAD while its flow waits. */
  lemma LoadMoves(s: Session, b: Session, q: Option<nat>, l: Load, p: LoadPhase)
    requires Reaches(s, OneLoad(b, q, AwaitLoad(0), l)) && LoadCheck(b.gen, l) == p
    requires !l.phase.OnWire? && !l.phase.Stopping? && !l.phase.Finished?
    ensures Reaches(s, OneLoad(b, q, AwaitLoad(0), l.(phase := p)))
  {
    var x := OneLoad(b, q, AwaitLoad(0), l);
    ReachesNext(s, x, LoadRun(0, true));
    assert LoadStep(x, 0, true) == OneLoad(b, q, AwaitLoad(0), l.(phase := p));
  }

  /** An undisturbed re-LOAD gets its command on the wire. */
  lemma LoadReachesWire(s: Session, b: Session, q: Option<nat>)
    requires LetsLoad(b.gen, q) && Reaches(s, OneFlow(b, q, Planning))
    ensures Reaches(s, OneLoad(b, q, AwaitLoad(0), Load(false, b.gen.ledger.requested, 0, OnWire)))
  {
    var c := b.gen.ledger.requested;
    FlowReachesPublish(s, b, q);
    ReachesNext(s, OneFlow(b, q, Publish(c)), FlowRun(1, 0));
    assert FlowStep(OneFlow(b, q, Publish(c)), 1, 0) == OneLoad(b, q, AwaitLoad(0), Load(false, c, 0, Spawned));
    LoadMoves(s, b, q, Load(false, c, 0, Spawned), FirstPausedCheck);
    LoadMoves(s, b, q, Load(false, c, 0, FirstPausedCheck), OnWire);
  }

  /** The LOAD command succeeds. */
  lemma LoadSucceeds(s: Session, b: Session, q: Option<nat>, l: Load)
    requires Reaches(s, OneLoad(b, q, AwaitLoad(0), l)) && l.phase.OnWire? && !l.rollover
    ensures Reaches(s, OneLoad(b.(cast := Started(b.cast).(log := b.cast.log + [LoadCmd])), q, AwaitLoad(0),
                               l.(issued := b.gen.ledger.requested, phase := SecondPausedCheck(true))))
  {
    var x := OneLoad(b, q, AwaitLoad(0), l);
    ReachesNext(s, x, LoadRun(0, true));
    assert LoadStep(x, 0, true)
        == OneLoad(b.(cast := Started(b.cast).(log := b.cast.log + [LoadCmd])), q, AwaitLoad(0),
                   l.(issued := b.gen.ledger.requested, phase := SecondPausedCheck(true)));
  }

  /** A fresh session whose re-LOAD is on the wire. */
  function Loading(wav: bool): Session {
    OneLoad(Fresh(wav), None, AwaitLoad(0), Load(false, 0, 0, OnWire))
  }

  lemma FreshLoads(wav: bool)
    ensures Reaches(Fresh(wav), Loading(wav))
  {
    ReachesSelf(Fresh(wav));
    ReachesNext(Fresh(wav), Fresh(wav), StartReload(1, true));
    assert Apply(Fresh(wav), StartReload(1, true)) == OneFlow(Fresh(wav), None, Planning);
    LoadReachesWire(Fresh(wav), Fresh(wav), None);
  }

  lemma ReachedByRun(s: Session, r: Session) returns (states: seq<Session>, acts: seq<Action>)
    requires Init(s) && Reaches(s, r)
    ensures Run(states, acts) && states[|acts|] == r
  {
    acts :| Execute(s, acts) == Some(r);
    states := ExecutionIsRun(s, acts);
  }

  // ----- a replaced generation ------------------------------------------------------------------

  /**
   A generation that is paused while its re-LOAD is on the wire and then replaced can still send
   Cast STOP, although `late_stop_allowed` was cleared for the replacement.
   */
  lemma ReplacedGenerationCanStop()
    ensures exists r :: Reaches(Fresh(false), r) && MovedOut(r.gen) && CanStillStop(r)
  {
    FreshLoads(false);
    var s0 := Loading(false);
    ReachesNext(Fresh(false), s0, Pause(7));
    var s1 := Apply(s0, Pause(7));
    ReachesNext(Fresh(false), s1, Take(SkipStopForReplace));
    var s2 := Apply(s1, Take(SkipStopForReplace));
    var states, acts := ReachedByRun(Fresh(false), s2);
    assert LoadWillStop(s2.gen.ledger.paused, s2.re.loads[0]);
    ReplacedStopIffPausedLoad(states, acts);
  }

  // ----- WAV: a LOAD that the teardown does not join -------------------------------------------

  /** A WAV session taken for a full end while LOAD 0 is on the wire and a rollover waits for the flight. */
  function WavDying(flows: map<TaskId, Flow>, flight: Option<TaskId>, inflight: Option<LoadId>, dropped: set<LoadId>, td: Teardown)
    : Session
  {
    Session(
      Generation(false, td.Mark? || td.ClearAlive?, true, true, Ledger(false, 0, 0, false), Ready, td),
      Transports(map[], None),
      Reloads(flows, flight, inflight, None, map[0 := Load(false, 0, 0, OnWire)], {}, dropped),
      Cast(!td.Over?, Reports(0, 0), Unset(), false, if td.Over? then [LoadCmd, StopCmd(TeardownStop)] else [LoadCmd]))
  }

  lemma WavIsTaken()
    ensures Reaches(Fresh(true),
                    WavDying(map[1 := Flow(true, false, None, AwaitLoad(0)), 2 := Flow(true, true, None, WaitFlight)],
                             Some(1), Some(0), {}, Mark(StopBestEffort)))
  {
    var flows := map[1 := Flow(true, false, None, AwaitLoad(0)), 2 := Flow(true, true, None, WaitFlight)];
    FreshLoads(true);
    var s0 := Loading(true);
    ReachesNext(Fresh(true), s0, StartRollover(2));
    var s1 := s0.(re := StartFlow(s0.re, 2, true, true, None));
    assert s1.re.flows == flows;
    ReachesNext(Fresh(true), s1, Take(StopBestEffort));
    assert Apply(s1, Take(StopBestEffort)) == WavDying(flows, Some(1), Some(0), {}, Mark(StopBestEffort));
  }

  lemma WavReachesAbort()
    ensures Reaches(Fresh(true),
                    WavDying(map[1 := Flow(true, false, None, AwaitLoad(0)), 2 := Flow(true, true, None, WaitFlight)],
                             Some(1), Some(0), {}, AbortTasks(StopBestEffort)))
  {
    var full := StopBestEffort;
    var flows := map[1 := Flow(true, false, None, AwaitLoad(0)), 2 := Flow(true, true, None, WaitFlight)];
    WavIsTaken();
    ReachesNext(Fresh(true), WavDying(flows, Some(1), Some(0), {}, Mark(full)), TeardownRun);
    ReachesNext(Fresh(true), WavDying(flows, Some(1), Some(0), {}, ClearAlive(full)), TeardownRun);
  }

  lemma WavReloadAborted()
    ensures Reaches(Fresh(true),
                    WavDying(map[2 := Flow(true, true, None, WaitFlight)], None, Some(0), {}, AbortTasks(StopBestEffort)))
  {
    var td := AbortTasks(StopBestEffort);
    WavReachesAbort();
    var s0 := WavDying(map[1 := Flow(true, false, None, AwaitLoad(0)), 2 := Flow(true, true, None, WaitFlight)],
                       Some(1), Some(0), {}, td);
    ReachesNext(Fresh(true), s0, FlowAbort(1));
    assert Apply(s0, FlowAbort(1)) == WavDying(map[2 := Flow(true, true, None, WaitFlight)], None, Some(0), {}, td);
  }

  lemma WavRolloverHasFlight()
    ensures Reaches(Fresh(true),
                    WavDying(map[2 := Flow(true, true, None, TakePrior)], Some(2), Some(0), {}, AbortTasks(StopBestEffort)))
  {
    var td := AbortTasks(StopBestEffort);
    WavReloadAborted();
    var s1 := WavDying(map[2 := Flow(true, true, None, WaitFlight)], None, Some(0), {}, td);
    ReachesNext(Fresh(true), s1, FlowRun(2, 0));
    assert Apply(s1, FlowRun(2, 0)) == WavDying(map[2 := Flow(true, true, None, TakePrior)], Some(2), Some(0), {}, td);
  }

  lemma WavRolloverTakesHandle()
    ensures Reaches(Fresh(true),
                    WavDying(map[2 := Flow(true, true, None, JoinPrior(0))], Some(2), None, {}, AbortTasks(StopBestEffort)))
  {
    var td := AbortTasks(StopBestEffort);
    WavRolloverHasFlight();
    var s2 := WavDying(map[2 := Flow(true, true, None, TakePrior)], Some(2), Some(0), {}, td);
    ReachesNext(Fresh(true), s2, FlowRun(2, 0));
    var s3 := WavDying(map[2 := Flow(true, true, None, JoinPrior(0))], Some(2), None, {}, td);
    assert Apply(s2, FlowRun(2, 0)) == s3;
  }

  lemma WavDropsHandle()
    ensures Reaches(Fresh(true), WavDying(map[], None, None, {0}, TakeInflight(StopBestEffort)))
  {
    var full := StopBestEffort;
    WavRolloverTakesHandle();
    var s3 := WavDying(map[2 := Flow(true, true, None, JoinPrior(0))], Some(2), None, {}, AbortTasks(full));
    ReachesNext(Fresh(true), s3, FlowAbort(2));
    assert Apply(s3, FlowAbort(2)) == WavDying(map[], None, None, {0}, AbortTasks(full));
    ReachesNext(Fresh(true), WavDying(map[], None, None, {0}, AbortTasks(full)), TeardownRun);
  }

  /** With nothing left to join the teardown goes on. */
  lemma WavTearsDown(td: Teardown, next: Teardown)
    requires Reaches(Fresh(true), WavDying(map[], None, None, {0}, td))
    requires var full := StopBestEffort;
             (td == TakeInflight(full) && next == JoinInflight(full, None))
             || (td == JoinInflight(full, None) && next == StopCast(full)) || (td == StopCast(full) && next == Over(full))
    ensures Reaches(Fresh(true), WavDying(map[], None, None, {0}, next))
  {
    var x := WavDying(map[], None, None, {0}, td);
    ReachesNext(Fresh(true), x, TeardownRun);
    assert TeardownStep(x) == WavDying(map[], None, None, {0}, next);
  }

  /**
   The teardown of a WAV session can send its STOP while a LOAD is still on the wire: a rollover
   iteration took the handle of the aborted re-LOAD and was aborted while joining it.
   */
  lemma WavTeardownCanMissALoad()
    ensures exists r :: Reaches(Fresh(true), r) && r.gen.teardown == Over(StopBestEffort)
                        && 0 in r.re.loads && r.re.loads[0].phase.OnWire?
  {
    var full := StopBestEffort;
    WavDropsHandle();
    WavTearsDown(TakeInflight(full), JoinInflight(full, None));
    WavTearsDown(JoinInflight(full, None), StopCast(full));
    WavTearsDown(StopCast(full), Over(full));
  }
}
