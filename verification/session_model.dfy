/**
 One Playing generation as a transition system. Every step is one lock section, one atomic access,
 one lock or queue operation, or one Cast command, so a run is an arbitrary interleaving of

 - the device worker (pause, resume, flush),
 - the detached PAUSE / PLAY tasks behind the transport lock,
 - the re-LOAD flows behind the flight lock, and the WAV rollover iterations,
 - the blocking LOAD tasks those flows publish in the in-flight slot,
 - the teardown of the generation, for a full end or for a replacement start,
 - the Cast device itself: a user may pause or play there, and a pause is reported to the bridge.

 Cast answers are chosen by the environment. History variables (`since`, `everPaused`, `log`,
 `accepted`, `dropped`, and `issued` of a LOAD) are written by steps and read by no guard.
 */
module SessionModel {
  import opened Common
  import opened SessionRules

  type TaskId = nat
  type LoadId = nat

  // ----- state --------------------------------------------------------------------------------

  /** The device worker is between the two lock sections of a resume, or free. */
  datatype Worker = Ready | SpawnPlay | SpawnReload(request: Option<nat>)

  datatype Teardown =
    | NotStarted
    | Mark(policy: Policy)
    | ClearAlive(policy: Policy)
    | AbortTasks(policy: Policy)
    | TakeInflight(policy: Policy)
    | JoinInflight(policy: Policy, handle: Option<LoadId>)
    | StopCast(policy: Policy)
    | Over(policy: Policy)

  /** The generation itself: slot membership, atomics, fields under the slot lock, teardown. */
  datatype Generation = Generation(
    live: bool,              // the device slot still holds this generation
    alive: bool,             // session_alive
    lateStopAllowed: bool,   // late_stop_allowed
    wav: bool,
    ledger: Ledger,          // `paused` has an atomic mirror for lock-free readers
    worker: Worker,
    teardown: Teardown
  )

  datatype TransportPhase = Queued | CheckGeneration | CheckAlive | CheckPaused | Wire | Respawn
  datatype Transport = Transport(play: bool, phase: TransportPhase)
  datatype Transports = Transports(tasks: map<TaskId, Transport>, lock: Option<TaskId>)

  datatype LoadResult = Done(ok: bool) | PausedLoad | EndedLoad | Cancelled

  datatype StopCause = PausedDuringLoad | LateLoad | DiscardedPaused | DiscardedLate | TeardownStop

  datatype LoadPhase =
    | Spawned
    | FirstPausedCheck
    | OnWire
    | SecondPausedCheck(ok: bool)
    | LateReadAlive(ok: bool)
    | LateReadAllowed(ok: bool, sawAlive: bool)
    | Stopping(result: LoadResult, cause: StopCause)
    | Finished(result: LoadResult)

  /** One blocking LOAD. `issued` is the number of flushes at the moment its command went out. */
  datatype Load = Load(rollover: bool, covers: nat, issued: nat, phase: LoadPhase)

  datatype FlowPhase =
    | Unspawned                  // spawn_session_task comes next
    | Planning
    | WaitFlight
    | FirstGate
    | TakePrior
    | JoinPrior(prior: LoadId)
    | WaitLead
    | SecondGate
    | RecheckAlive
    | LockSlot(covers: nat)
    | PublishReadAlive(covers: nat)
    | PublishReadPaused(covers: nat)
    | Publish(covers: nat)
    | AwaitLoad(load: LoadId)
    | TakeOwn(load: LoadId, result: LoadResult)
    | Settle(load: LoadId, result: LoadResult)
    | DiscardReadPaused
    | DiscardReadAlive(sawPaused: bool)
    | DiscardReadAllowed(sawPaused: bool, sawAlive: bool)
    | DiscardStop(sawPaused: bool)

  /**
   One re-LOAD flow, or one iteration of the WAV rollover loop. `owned` flows belong to the
   generation (session task set, watchdog, rollover task): its teardown aborts and joins them.
   */
  datatype Flow = Flow(owned: bool, rollover: bool, request: Option<nat>, phase: FlowPhase)

  datatype Reloads = Reloads(
    flows: map<TaskId, Flow>,
    flight: Option<TaskId>,      // reload_flight
    inflight: Option<LoadId>,    // inflight_load
    slotLock: Option<TaskId>,    // the lock around inflight_load
    loads: map<LoadId, Load>,
    accepted: set<LoadId>,       // LOADs that accept_reload accepted
    dropped: set<LoadId>         // LOADs whose handle was dropped by an abort while it was joined
  )

  datatype Command = LoadCmd | StopCmd(cause: StopCause) | PauseCmd | PlayCmd

  /** Pauses on the device that the bridge has not handled; `overtaken`: Cast was started again since. */
  datatype Reports = Reports(overtaken: nat, recent: nat)

  /** Who set the pause flag; for a report from Cast, whether Cast was started since that report. */
  datatype PauseOrigin = FromSender | FromCast(started: bool)

  /** What happened since the pause flag was last set. */
  datatype Since = Since(
    origin: PauseOrigin,
    pauseFailed: bool,    // a PAUSE failed
    rolledOver: bool,     // a rollover LOAD succeeded
    selfPlayed: bool      // the user started Cast on the device
  )

  datatype Cast = Cast(
    playing: bool,        // the device plays our media
    reports: Reports,
    since: Since,
    everPaused: bool,
    log: seq<Command>     // commands in the order the Cast worker ran them
  )

  datatype Session = Session(gen: Generation, cmds: Transports, re: Reloads, cast: Cast)

  /**
   Playing was just installed: the initial LOAD is out and nothing else happened. Reports of pauses
   from before that LOAD may still be queued.
   */
  predicate Init(s: Session) {
    && s.gen == Generation(true, true, true, s.gen.wav, Ledger(false, 0, 0, false), Ready, NotStarted)
    && s.cmds == Transports(map[], None)
    && s.re == Reloads(map[], None, None, None, map[], {}, {})
    && s.cast == Cast(true, Reports(s.cast.reports.overtaken, 0), Unset(), false, [LoadCmd])
  }

  function Unset(): Since {
    Since(FromSender, false, false, false)
  }

  function Drop<V>(m: map<nat, V>, k: nat): map<nat, V> {
    m - {k}
  }

  function Release(lock: Option<TaskId>, t: TaskId): Option<TaskId> {
    if lock == Some(t) then None else lock
  }

  // ----- device worker ------------------------------------------------------------------------

  function HandlePause(s: Session, t: TaskId): Session {
    if s.gen.ledger.paused then s
    else s.(
      gen := s.gen.(ledger := s.gen.ledger.(paused := true)),
      cmds := s.cmds.(tasks := s.cmds.tasks[t := Transport(false, Queued)]),
      cast := s.cast.(since := Unset(), everPaused := true))
  }

  // ----- the Cast device ------------------------------------------------------------------------

  /** Cast plays from now on: every pause reported so far is overtaken. */
  function Started(c: Cast): Cast {
    c.(
      playing := true,
      reports := Reports(c.reports.overtaken + c.reports.recent, 0),
      since := c.since.(origin := if c.since.origin.FromCast? then FromCast(true) else FromSender))
  }

  /** The user pauses on the device; `reported`: the Cast worker noticed and told the bridge. */
  function PausedItself(c: Cast, reported: bool): Cast {
    c.(playing := false, reports := if reported then c.reports.(recent := c.reports.recent + 1) else c.reports)
  }

  function PlayedItself(c: Cast): Cast {
    var d := Started(c);
    d.(since := d.since.(selfPlayed := true))
  }

  predicate HasReport(r: Reports) {
    r.overtaken + r.recent > 0
  }

  /** pause_locally_for_cast handles the oldest report: it sets the flag and starts no PAUSE task. */
  function HandleReport(s: Session): Session
    requires HasReport(s.cast.reports)
  {
    var r := s.cast.reports;
    var overtaken := r.overtaken > 0;
    var c := s.cast.(
      reports := if overtaken then r.(overtaken := r.overtaken - 1) else r.(recent := r.recent - 1));
    if !s.gen.live || s.gen.ledger.paused then s.(cast := c)
    else s.(
      gen := s.gen.(ledger := s.gen.ledger.(paused := true)),
      cast := c.(since := Unset().(origin := FromCast(overtaken)), everPaused := true))
  }

  // ----- resume -------------------------------------------------------------------------------

  function WorkerAfter(r: Resume): Worker {
    match r
    case Nothing => Ready
    case Play => SpawnPlay
    case Reload(request) => SpawnReload(request)
  }

  /** The first lock section of a resume; the second one is `SpawnResumed`. */
  function HandleResume(g: Generation, longPause: bool): Generation {
    g.(ledger := Resumed(g.ledger), worker := WorkerAfter(ResumeDecision(g.ledger, longPause)))
  }

  /** spawn_session_task: a generation that is no longer live drops the task unrun. */
  function SpawnResumed(s: Session, t: TaskId): Session {
    var r := s.(gen := s.gen.(worker := Ready));
    if !s.gen.live || s.gen.worker.Ready? then r
    else if s.gen.worker.SpawnPlay? then r.(cmds := s.cmds.(tasks := s.cmds.tasks[t := Transport(true, Queued)]))
    else r.(re := StartFlow(s.re, t, true, false, s.gen.worker.request))
  }

  // ----- PAUSE / PLAY tasks -------------------------------------------------------------------

  function SetTransport(c: Transports, t: TaskId, p: TransportPhase): Transports
    requires t in c.tasks
  {
    c.(tasks := c.tasks[t := c.tasks[t].(phase := p)])
  }

  function EndTransport(c: Transports, t: TaskId): Transports {
    Transports(Drop(c.tasks, t), Release(c.lock, t))
  }

  /** The steps of a task up to its Cast command, each under the transport lock. */
  function TransportCheck(g: Generation, c: Transports, t: TaskId): Transports
    requires t in c.tasks
  {
    var x := c.tasks[t];
    match x.phase
    case Queued => SetTransport(c, t, CheckGeneration).(lock := Some(t))
    case CheckGeneration => if g.live then SetTransport(c, t, CheckAlive) else EndTransport(c, t)
    case CheckAlive => if g.alive then SetTransport(c, t, CheckPaused) else EndTransport(c, t)
    case CheckPaused => if g.ledger.paused == x.play then EndTransport(c, t) else SetTransport(c, t, Wire)
    case _ => c
  }

  /** The command of task `t` and its answer `ok`; a failed PLAY goes on to start a re-LOAD. */
  function TransportCommand(s: Session, t: TaskId, ok: bool): Session
    requires t in s.cmds.tasks
  {
    var play := s.cmds.tasks[t].play;
    var ended := s.(cmds := EndTransport(s.cmds, t));
    if ok && play then ended.(cast := Started(s.cast).(log := s.cast.log + [PlayCmd]))
    else if ok then ended.(cast := s.cast.(playing := false, log := s.cast.log + [PauseCmd]))
    else if play then s.(cmds := SetTransport(s.cmds, t, Respawn).(lock := None))
    else ended.(cast := s.cast.(since := s.cast.since.(pauseFailed := true)))
  }

  /** The re-LOAD after a failed PLAY; `f` is the id of its flow. */
  function TransportRespawn(s: Session, t: TaskId, f: TaskId): Session {
    var r := s.(cmds := s.cmds.(tasks := Drop(s.cmds.tasks, t)));
    if s.gen.live then r.(re := StartFlow(s.re, f, true, false, None)) else r
  }

  // ----- re-LOAD flows ------------------------------------------------------------------------

  function StartFlow(r: Reloads, t: TaskId, owned: bool, rollover: bool, request: Option<nat>): Reloads {
    r.(flows := r.flows[t := Flow(owned, rollover, request, if rollover then WaitFlight else Planning)])
  }

  function SetFlow(r: Reloads, t: TaskId, p: FlowPhase): Reloads
    requires t in r.flows
  {
    r.(flows := r.flows[t := r.flows[t].(phase := p)])
  }

  /** The flow returns: its flight guard is dropped with it. */
  function EndFlow(r: Reloads, t: TaskId): Reloads {
    r.(flows := Drop(r.flows, t), flight := Release(r.flight, t))
  }

  predicate LoadFinished(r: Reloads, h: LoadId) {
    h in r.loads && r.loads[h].phase.Finished?
  }

  function SetLoad(r: Reloads, h: LoadId, p: LoadPhase): Reloads
    requires h in r.loads
  {
    r.(loads := r.loads[h := r.loads[h].(phase := p)])
  }

  /** abort() on a blocking task: only one that has not started yet is cancelled. */
  function AbortLoad(r: Reloads, h: LoadId): Reloads {
    if h in r.loads && r.loads[h].phase.Spawned? then SetLoad(r, h, Finished(Cancelled)) else r
  }

  function AfterPrior(rollover: bool): FlowPhase {
    if rollover then RecheckAlive else WaitLead
  }

  predicate Gated(p: FlowPhase) {
    p.Unspawned? || p.Planning? || p.WaitFlight? || p.FirstGate? || p.WaitLead? || p.SecondGate? || p.RecheckAlive?
  }

  function GateStep(g: Generation, r: Reloads, t: TaskId, onProceed: FlowPhase): Reloads
    requires t in r.flows
  {
    if ReloadGate(g.live, g.alive, g.ledger, r.flows[t].request).Proceed? then SetFlow(r, t, onProceed)
    else EndFlow(r, t)
  }

  /** From the first slot-lock read to the point where the LOAD may be published. */
  function GateStage(g: Generation, r: Reloads, t: TaskId): Reloads
    requires t in r.flows
  {
    match r.flows[t].phase
    case Unspawned =>
      if g.live then r.(flows := r.flows[t := r.flows[t].(owned := true, phase := Planning)]) else EndFlow(r, t)
    case Planning =>
      if ReloadValidity(g.live, g.alive, g.ledger.paused).Valid? then SetFlow(r, t, WaitFlight) else EndFlow(r, t)
    case WaitFlight => SetFlow(r, t, if r.flows[t].rollover then TakePrior else FirstGate).(flight := Some(t))
    case FirstGate => GateStep(g, r, t, TakePrior)
    case WaitLead => SetFlow(r, t, SecondGate)
    case SecondGate => GateStep(g, r, t, LockSlot(g.ledger.requested))
    case RecheckAlive => if g.alive then SetFlow(r, t, LockSlot(0)) else EndFlow(r, t)
    case _ => r
  }

  predicate Joining(p: FlowPhase) {
    p.TakePrior? || p.JoinPrior? || p.AwaitLoad? || p.TakeOwn?
  }

  /** Taking, aborting and awaiting LOAD handles. */
  function JoinStage(r: Reloads, t: TaskId): Reloads
    requires t in r.flows
  {
    match r.flows[t].phase
    case TakePrior =>
      if r.inflight.None? then SetFlow(r, t, AfterPrior(r.flows[t].rollover))
      else AbortLoad(SetFlow(r, t, JoinPrior(r.inflight.value)).(inflight := None), r.inflight.value)
    case JoinPrior(_) => SetFlow(r, t, AfterPrior(r.flows[t].rollover))
    case AwaitLoad(l) => if LoadFinished(r, l) then SetFlow(r, t, TakeOwn(l, r.loads[l].phase.result)) else r
    case TakeOwn(l, result) => SetFlow(r, t, Settle(l, result)).(inflight := None)
    case _ => r
  }

  predicate Publishing(p: FlowPhase) {
    p.LockSlot? || p.PublishReadAlive? || p.PublishReadPaused? || p.Publish?
  }

  /** The section under the in-flight lock; `h` names the LOAD it publishes. */
  function PublishStage(g: Generation, r: Reloads, t: TaskId, h: LoadId): Reloads
    requires t in r.flows
  {
    match r.flows[t].phase
    case LockSlot(c) => SetFlow(r, t, PublishReadAlive(c)).(slotLock := Some(t))
    case PublishReadAlive(c) =>
      if !g.alive then EndFlow(r, t).(slotLock := None)
      else SetFlow(r, t, if r.flows[t].rollover then Publish(c) else PublishReadPaused(c))
    case PublishReadPaused(c) =>
      if g.ledger.paused then EndFlow(r, t).(slotLock := None) else SetFlow(r, t, Publish(c))
    case Publish(c) =>
      SetFlow(r, t, AwaitLoad(h)).(
        inflight := Some(h),
        slotLock := None,
        loads := r.loads[h := Load(r.flows[t].rollover, c, 0, Spawned)])
    case _ => r
  }

  /** What a flow does with the result of its own LOAD; accept_reload is one slot-lock section. */
  function SettleStage(s: Session, t: TaskId): Session
    requires t in s.re.flows && s.re.flows[t].phase.Settle?
  {
    var h, result := s.re.flows[t].phase.load, s.re.flows[t].phase.result;
    if s.re.flows[t].rollover || result != Done(true) || h !in s.re.loads then s.(re := EndFlow(s.re, t))
    else if ReloadValidity(s.gen.live, s.gen.alive, s.gen.ledger.paused).Valid? then
      s.(
        gen := s.gen.(ledger := Accepted(s.gen.ledger, s.re.loads[h].covers)),
        re := EndFlow(s.re, t).(accepted := s.re.accepted + {h}))
    else s.(re := SetFlow(s.re, t, DiscardReadPaused))
  }

  /** The reads that decide whether a refused LOAD is stopped. */
  function DiscardStage(g: Generation, r: Reloads, t: TaskId): Reloads
    requires t in r.flows
  {
    match r.flows[t].phase
    case DiscardReadPaused => SetFlow(r, t, DiscardReadAlive(g.ledger.paused))
    case DiscardReadAlive(p) => SetFlow(r, t, DiscardReadAllowed(p, g.alive))
    case DiscardReadAllowed(p, a) =>
      if DiscardShouldStop(p, a, g.lateStopAllowed) then SetFlow(r, t, DiscardStop(p)) else EndFlow(r, t)
    case _ => r
  }

  function Stopped(c: Cast, cause: StopCause): Cast {
    c.(playing := false, log := c.log + [StopCmd(cause)])
  }

  function FlowStep(s: Session, t: TaskId, h: LoadId): Session
    requires t in s.re.flows
  {
    var p := s.re.flows[t].phase;
    if Gated(p) then s.(re := GateStage(s.gen, s.re, t))
    else if Joining(p) then s.(re := JoinStage(s.re, t))
    else if Publishing(p) then s.(re := PublishStage(s.gen, s.re, t, h))
    else if p.Settle? then SettleStage(s, t)
    else if p.DiscardStop? then
      s.(re := EndFlow(s.re, t), cast := Stopped(s.cast, if p.sawPaused then DiscardedPaused else DiscardedLate))
    else s.(re := DiscardStage(s.gen, s.re, t))
  }

  /** A flow waiting for a lock or a LOAD cannot move until it is there. */
  predicate FlowReady(r: Reloads, t: TaskId, h: LoadId) {
    t in r.flows &&
    match r.flows[t].phase
    case WaitFlight => r.flight.None?
    case TakePrior => r.slotLock.None?
    case LockSlot(_) => r.slotLock.None?
    case TakeOwn(_, _) => r.slotLock.None?
    case JoinPrior(prior) => LoadFinished(r, prior)
    case AwaitLoad(l) => LoadFinished(r, l)
    case Publish(_) => h !in r.loads
    case _ => true
  }

  /** Phases in which the flow is suspended, so that an abort can drop it. */
  predicate AtAwait(p: FlowPhase) {
    p.Planning? || p.WaitFlight? || p.JoinPrior? || p.WaitLead? || p.AwaitLoad? || p.Settle? || p.DiscardStop?
  }

  /**
   Dropping a flow drops its guards, and the LOAD handle it is joining; a STOP already handed to a
   blocking thread still runs.
   */
  function AbortFlow(r: Reloads, t: TaskId): Reloads
    requires t in r.flows
  {
    if r.flows[t].phase.DiscardStop? then
      r.(flows := r.flows[t := r.flows[t].(owned := false)], flight := Release(r.flight, t))
    else if r.flows[t].phase.JoinPrior? then EndFlow(r, t).(dropped := r.dropped + {r.flows[t].phase.prior})
    else EndFlow(r, t)
  }

  // ----- blocking LOAD tasks ------------------------------------------------------------------

  /** The steps of a LOAD task without a Cast command. A rollover LOAD has no paused checks. */
  function LoadCheck(g: Generation, l: Load): LoadPhase {
    match l.phase
    case Spawned => if l.rollover then OnWire else if g.alive then FirstPausedCheck else Finished(EndedLoad)
    case FirstPausedCheck => if g.ledger.paused then Finished(PausedLoad) else OnWire
    case SecondPausedCheck(ok) => if g.ledger.paused then Stopping(PausedLoad, PausedDuringLoad) else LateReadAlive(ok)
    case LateReadAlive(ok) => LateReadAllowed(ok, g.alive)
    case LateReadAllowed(ok, sawAlive) =>
      if LateLoadShouldStop(sawAlive, g.lateStopAllowed) then Stopping(Done(ok), LateLoad) else Finished(Done(ok))
    case _ => l.phase
  }

  /** The LOAD command with answer `ok`. */
  function LoadWire(s: Session, h: LoadId, ok: bool): Session
    requires h in s.re.loads
  {
    var l := s.re.loads[h];
    var next := if l.rollover then LateReadAlive(ok) else SecondPausedCheck(ok);
    s.(
      re := s.re.(loads := s.re.loads[h := l.(issued := s.gen.ledger.requested, phase := next)]),
      cast := LoadAnswered(s.cast, ok, l.rollover).(log := s.cast.log + [LoadCmd]))
  }

  function LoadAnswered(c: Cast, ok: bool, rollover: bool): Cast {
    if !ok then c
    else
      var d := Started(c);
      if rollover then d.(since := d.since.(rolledOver := true)) else d
  }

  function LoadStep(s: Session, h: LoadId, ok: bool): Session
    requires h in s.re.loads
  {
    var l := s.re.loads[h];
    match l.phase
    case OnWire => LoadWire(s, h, ok)
    case Stopping(result, cause) => s.(re := SetLoad(s.re, h, Finished(result)), cast := Stopped(s.cast, cause))
    case _ => s.(re := SetLoad(s.re, h, LoadCheck(s.gen, l)))
  }

  // ----- teardown -----------------------------------------------------------------------------

  predicate NoOwnedFlows(r: Reloads) {
    forall t :: t in r.flows ==> !r.flows[t].owned
  }

  function TeardownStep(s: Session): Session {
    match s.gen.teardown
    case NotStarted => s
    case Mark(p) =>
      s.(gen := s.gen.(
        lateStopAllowed := s.gen.lateStopAllowed && !ReplaceSkipsCastStop(p),
        teardown := ClearAlive(p)))
    case ClearAlive(p) => s.(gen := s.gen.(alive := false, teardown := AbortTasks(p)))
    case AbortTasks(p) => s.(gen := s.gen.(teardown := TakeInflight(p)))
    case TakeInflight(p) =>
      s.(gen := s.gen.(teardown := JoinInflight(p, s.re.inflight)), re := s.re.(inflight := None))
    case JoinInflight(p, _) => s.(gen := s.gen.(teardown := StopCast(p)))
    case StopCast(p) =>
      s.(
        gen := s.gen.(teardown := Over(p)),
        cast := if ReplaceSkipsCastStop(p) then s.cast else Stopped(s.cast, TeardownStop))
    case Over(_) => s
  }

  predicate TeardownReady(s: Session) {
    match s.gen.teardown
    case NotStarted => false
    case AbortTasks(_) => NoOwnedFlows(s.re)
    case TakeInflight(_) => s.re.slotLock.None?
    case JoinInflight(_, handle) => handle.Some? ==> LoadFinished(s.re, handle.value)
    case Over(_) => false
    case _ => true
  }

  /** The watchdog and the rollover loop still run: their teardown joins have not returned. */
  predicate LoopsRunning(t: Teardown) {
    t.NotStarted? || t.Mark? || t.ClearAlive? || t.AbortTasks?
  }

  // ----- steps and runs -----------------------------------------------------------------------

  datatype Action =
    | Pause(t: TaskId)
    | CastPauses(reported: bool)              // by the user, on the device
    | CastPlays                               // by the user, on the device
    | RemotePause                             // the bridge handles a report of a pause on the device
    | ResumeStart(longPause: bool)
    | ResumeSpawn(t: TaskId)
    | Flush
    | TransportRun(t: TaskId)
    | TransportAnswer(t: TaskId, ok: bool)
    | PlayFailed(t: TaskId, f: TaskId)
    | StartReload(t: TaskId, owned: bool)     // stall watchdog, FLAC to WAV switch, group move, media recovery
    | OweStall(t: TaskId)                     // a stall re-LOAD that a pause abandoned; `t` re-LOADs now
    | SwitchToWav
    | StartRollover(t: TaskId)
    | FlowRun(t: TaskId, h: LoadId)
    | FlowAbort(t: TaskId)
    | LoadRun(h: LoadId, ok: bool)
    | Take(policy: Policy)                    // an end takes the session, or a replacement start moves it out
    | TeardownRun

  predicate Enabled(s: Session, a: Action) {
    match a
    case Pause(t) => s.gen.live && s.gen.worker.Ready? && t !in s.cmds.tasks
    case CastPauses(_) => s.cast.playing
    case CastPlays => !s.cast.playing
    case RemotePause => HasReport(s.cast.reports)
    case ResumeStart(_) => s.gen.live && s.gen.worker.Ready?
    case ResumeSpawn(t) => !s.gen.worker.Ready? && t !in s.cmds.tasks && t !in s.re.flows
    case Flush => s.gen.live && s.gen.worker.Ready?
    case TransportRun(t) =>
      t in s.cmds.tasks && !s.cmds.tasks[t].phase.Wire? && !s.cmds.tasks[t].phase.Respawn? &&
      (s.cmds.tasks[t].phase.Queued? ==> s.cmds.lock.None?)
    case TransportAnswer(t, _) => t in s.cmds.tasks && s.cmds.tasks[t].phase.Wire?
    case PlayFailed(t, f) => t in s.cmds.tasks && s.cmds.tasks[t].phase.Respawn? && f !in s.re.flows
    case StartReload(t, owned) => t !in s.re.flows && (owned ==> LoopsRunning(s.gen.teardown))
    case OweStall(t) => s.gen.live && s.gen.alive && t !in s.re.flows
    case SwitchToWav => s.gen.live && !s.gen.wav
    case StartRollover(t) => s.gen.wav && s.gen.alive && LoopsRunning(s.gen.teardown) && t !in s.re.flows
    case FlowRun(t, h) => FlowReady(s.re, t, h)
    case FlowAbort(t) =>
      t in s.re.flows && s.re.flows[t].owned && s.gen.teardown.AbortTasks? && AtAwait(s.re.flows[t].phase)
    case LoadRun(h, _) => h in s.re.loads && !s.re.loads[h].phase.Finished?
    case Take(_) => s.gen.live
    case TeardownRun => TeardownReady(s)
  }

  function Apply(s: Session, a: Action): Session
    requires Enabled(s, a)
  {
    match a
    case Pause(t) => HandlePause(s, t)
    case CastPauses(reported) => s.(cast := PausedItself(s.cast, reported))
    case CastPlays => s.(cast := PlayedItself(s.cast))
    case RemotePause => HandleReport(s)
    case ResumeStart(longPause) => s.(gen := HandleResume(s.gen, longPause))
    case ResumeSpawn(t) => SpawnResumed(s, t)
    case Flush => s.(gen := s.gen.(ledger := Flushed(s.gen.ledger)))
    case TransportRun(t) => s.(cmds := TransportCheck(s.gen, s.cmds, t))
    case TransportAnswer(t, ok) => TransportCommand(s, t, ok)
    case PlayFailed(t, f) => TransportRespawn(s, t, f)
    case StartReload(t, owned) => s.(re := StartFlow(s.re, t, owned, false, None))
    case OweStall(t) =>
      var r := s.(gen := s.gen.(ledger := s.gen.ledger.(stallOwed := true)));
      if s.gen.ledger.paused then r
      else r.(re := s.re.(flows := s.re.flows[t := Flow(false, false, None, Unspawned)]))
    case SwitchToWav => s.(gen := s.gen.(wav := true))
    case StartRollover(t) => s.(re := StartFlow(s.re, t, true, true, None))
    case FlowRun(t, h) => FlowStep(s, t, h)
    case FlowAbort(t) => s.(re := AbortFlow(s.re, t))
    case LoadRun(h, ok) => LoadStep(s, h, ok)
    case Take(p) => s.(gen := s.gen.(live := false, teardown := Mark(p)))
    case TeardownRun => TeardownStep(s)
  }

  /** A finite run: it starts with a fresh session and each state follows from the one before. */
  ghost predicate Run(states: seq<Session>, acts: seq<Action>) {
    && |states| == |acts| + 1
    && Init(states[0])
    && forall i :: 0 <= i < |acts| ==> Enabled(states[i], acts[i]) && states[i + 1] == Apply(states[i], acts[i])
  }

  /** Executes `acts` from `s`; None when one of them is not enabled. */
  function Execute(s: Session, acts: seq<Action>): Option<Session>
    decreases |acts|
  {
    if acts == [] then Some(s)
    else if Enabled(s, acts[0]) then Execute(Apply(s, acts[0]), acts[1..])
    else None
  }

  lemma StepThenExecute(s: Session, a: Action, rest: seq<Action>)
    requires Enabled(s, a)
    ensures Execute(s, [a] + rest) == Execute(Apply(s, a), rest)
  {
    assert ([a] + rest)[1..] == rest;
  }

  lemma {:induction false} ExecuteConcat(s: Session, a: seq<Action>, b: seq<Action>)
    requires Execute(s, a).Some?
    ensures Execute(s, a + b) == Execute(Execute(s, a).value, b)
    decreases |a|
  {
    if a == [] {
      assert a + b == b;
    } else {
      assert (a + b)[1..] == a[1..] + b;
      ExecuteConcat(Apply(s, a[0]), a[1..], b);
    }
  }
}
