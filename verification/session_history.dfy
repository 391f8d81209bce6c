/**
 What a session's fields say of its past: an exact history of the pause flag, of what is owed and covered,
 of the worker's decision, of every PAUSE / PLAY task, every re-LOAD and every LOAD, and of the teardown.
 */
module SessionHistory {
  import opened Common
  import opened SessionRules
  import opened SessionModel
  import opened SessionLocks

  // ----- what a step is to the session ----------------------------------------------------------------

  /** The generation plays, is not dying and is not paused. */
  predicate Playable(g: Generation) {
    g.live && g.alive && !g.ledger.paused
  }

  /** A re-LOAD whose LOAD succeeded comes to the section that accepts it. */
  predicate Accepts(s: Session, a: Action) {
    && a.FlowRun? && a.t in s.re.flows && s.re.flows[a.t].phase.Settle? && !s.re.flows[a.t].rollover
    && s.re.flows[a.t].phase.result == Done(true) && s.re.flows[a.t].phase.load in s.re.loads && Playable(s.gen)
  }

  /** A re-LOAD ends at this step: it is refused, covered, settled, or has sent its STOP. */
  predicate Returns(s: Session, t: TaskId)
    requires t in s.re.flows
  {
    var f, g := s.re.flows[t], s.gen;
    match f.phase
    case Unspawned => !g.live
    case Planning => !Playable(g)
    case FirstGate => !Playable(g) || (f.request.Some? && f.request.value <= g.ledger.done)
    case SecondGate => !Playable(g) || (f.request.Some? && f.request.value <= g.ledger.done)
    case RecheckAlive => !g.alive
    case PublishReadAlive(_) => !g.alive
    case PublishReadPaused(_) => g.ledger.paused
    case Settle(h, result) => f.rollover || result != Done(true) || h !in s.re.loads || Playable(g)
    case DiscardReadAllowed(sawPaused, sawAlive) => !sawPaused && (sawAlive || !g.lateStopAllowed)
    case DiscardStop(_) => true
    case _ => false
  }

  /** The task finds that its command is not wanted any more. */
  predicate Unwanted(s: Session, t: TaskId)
    requires t in s.cmds.tasks
  {
    var x := s.cmds.tasks[t];
    || (x.phase.CheckGeneration? && !s.gen.live)
    || (x.phase.CheckAlive? && !s.gen.alive)
    || (x.phase.CheckPaused? && s.gen.ledger.paused == x.play)
  }

  /** The task is over, or a failed PLAY is about to start its re-LOAD. */
  predicate LeavesLock(s: Session, a: Action, t: TaskId) {
    || (a == TransportRun(t) && t in s.cmds.tasks && Unwanted(s, t))
    || (a.TransportAnswer? && a.t == t)
  }

  // ----- facts ----------------------------------------------------------------------------------------

  datatype Fact =
    | IsPaused
    | StallIsOwed
    | IsCovered(k: nat)                                               // `k` flushes
    | IsWav
    | WillPlay                                                        // the worker, after a resume
    | WillReload(request: Option<nat>)
    | HasCommand(t: TaskId, play: bool)
    | HasLock(t: TaskId)
    | HasFlow(t: TaskId, rollover: bool, request: Option<nat>)
    | HasLoad(h: LoadId, rollover: bool, covers: nat)
    | HasFlight(t: TaskId)
    | HasSlot(t: TaskId)                                              // the lock around the in-flight LOAD
    | IsInflight(h: LoadId)
    | IsTaken
    | IsDying                                                         // session_alive is clear
    | LateStopForbidden

  predicate Holds(s: Session, f: Fact) {
    match f
    case IsPaused => s.gen.ledger.paused
    case StallIsOwed => s.gen.ledger.stallOwed
    case IsCovered(k) => s.gen.ledger.done >= k
    case IsWav => s.gen.wav
    case WillPlay => s.gen.worker.SpawnPlay?
    case WillReload(request) => s.gen.worker == SpawnReload(request)
    case HasCommand(t, play) => t in s.cmds.tasks && s.cmds.tasks[t].play == play
    case HasLock(t) => s.cmds.lock == Some(t)
    case HasFlow(t, rollover, request) =>
      t in s.re.flows && s.re.flows[t].rollover == rollover && s.re.flows[t].request == request
    case HasLoad(h, rollover, covers) =>
      h in s.re.loads && s.re.loads[h].rollover == rollover && s.re.loads[h].covers == covers
    case HasFlight(t) => s.re.flight == Some(t)
    case HasSlot(t) => s.re.slotLock == Some(t)
    case IsInflight(h) => s.re.inflight == Some(h)
    case IsTaken => !s.gen.live
    case IsDying => !s.gen.alive
    case LateStopForbidden => !s.gen.lateStopAllowed
  }

  predicate Makes(s: Session, a: Action, f: Fact) {
    var l := s.gen.ledger;
    var owed := l.requested > l.done;
    match f
    case IsPaused => a.Pause? || (a.RemotePause? && s.gen.live)
    case StallIsOwed => a.OweStall?
    case IsCovered(k) => Accepts(s, a) && s.re.loads[s.re.flows[a.t].phase.load].covers >= k
    case IsWav => a.SwitchToWav?
    case WillPlay => a.ResumeStart? && !owed && !l.stallOwed && l.paused && !a.longPause
    case WillReload(request) =>
      a.ResumeStart? && (if owed then request == Some(l.requested)
                         else request.None? && (l.stallOwed || (l.paused && a.longPause)))
    case HasCommand(t, play) =>
      || (a == Pause(t) && !l.paused && !play)
      || (a == ResumeSpawn(t) && s.gen.live && s.gen.worker.SpawnPlay? && play)
    case HasLock(t) => a == TransportRun(t) && t in s.cmds.tasks && s.cmds.tasks[t].phase.Queued?
    case HasFlow(t, rollover, request) =>
      || (a == ResumeSpawn(t) && s.gen.live && s.gen.worker == SpawnReload(request) && !rollover)
      || (a.PlayFailed? && a.f == t && s.gen.live && request.None? && !rollover)
      || (a.StartReload? && a.t == t && request.None? && !rollover)
      || (a == OweStall(t) && !l.paused && request.None? && !rollover)
      || (a == StartRollover(t) && request.None? && rollover)
    case HasLoad(h, rollover, covers) =>
      a.FlowRun? && a.h == h && a.t in s.re.flows && s.re.flows[a.t].phase == Publish(covers)
      && s.re.flows[a.t].rollover == rollover
    case HasFlight(t) => a.FlowRun? && a.t == t && t in s.re.flows && s.re.flows[t].phase.WaitFlight?
    case HasSlot(t) => a.FlowRun? && a.t == t && t in s.re.flows && s.re.flows[t].phase.LockSlot?
    case IsInflight(h) => a.FlowRun? && a.h == h && a.t in s.re.flows && s.re.flows[a.t].phase.Publish?
    case IsTaken => a.Take?
    case IsDying => a.TeardownRun? && s.gen.teardown.ClearAlive?
    case LateStopForbidden => a.TeardownRun? && s.gen.teardown == Mark(SkipStopForReplace)
  }

  predicate Undoes(s: Session, a: Action, f: Fact) {
    match f
    case IsPaused => a.ResumeStart?
    case StallIsOwed => Accepts(s, a)
    case WillPlay => a.ResumeSpawn?
    case WillReload(_) => a.ResumeSpawn?
    case HasCommand(t, play) =>
      || (a == TransportRun(t) && t in s.cmds.tasks && Unwanted(s, t))
      || a == TransportAnswer(t, true) || (a == TransportAnswer(t, false) && !play)
      || (a.PlayFailed? && a.t == t)
    case HasLock(t) => LeavesLock(s, a, t)
    case HasFlow(t, _, _) =>
      || (a.FlowRun? && a.t == t && t in s.re.flows && Returns(s, t))
      || (a == FlowAbort(t) && t in s.re.flows && !s.re.flows[t].phase.DiscardStop?)
    case HasFlight(t) => (a.FlowRun? && a.t == t && t in s.re.flows && Returns(s, t)) || a == FlowAbort(t)
    case HasSlot(t) =>
      a.FlowRun? && a.t == t && t in s.re.flows && UsesSlot(s.re.flows[t].phase)
      && (s.re.flows[t].phase.Publish? || Returns(s, t))
    case IsInflight(h) =>
      || (a.FlowRun? && a.t in s.re.flows
          && (s.re.flows[a.t].phase.TakePrior? || s.re.flows[a.t].phase.TakeOwn? || s.re.flows[a.t].phase.Publish?))
      || (a.TeardownRun? && s.gen.teardown.TakeInflight?)
    case _ => false
  }

  /** The fact is as it should be after the step `a` from state `s` to state `r`. */
  ghost predicate Tracks(s: Session, a: Action, r: Session, f: Fact) {
    Holds(r, f) == (Makes(s, a, f) || (Holds(s, f) && !Undoes(s, a, f)))
  }

  // ----- one step -------------------------------------------------------------------------------------

  predicate OfCommands(f: Fact) {
    f.HasCommand? || f.HasLock?
  }

  predicate OfFlows(f: Fact) {
    f.HasFlow? || f.HasFlight? || f.HasSlot?
  }

  predicate OfLoads(f: Fact) {
    f.HasLoad? || f.IsInflight?
  }

  predicate OfGeneration(f: Fact) {
    !OfCommands(f) && !OfFlows(f) && !OfLoads(f)
  }

  predicate TransportAction(a: Action) {
    a.TransportRun? || a.TransportAnswer? || a.PlayFailed?
  }

  predicate OfWorker(a: Action) {
    a.Pause? || a.RemotePause? || a.ResumeStart? || a.ResumeSpawn? || a.Flush?
  }

  predicate StartsFlow(a: Action) {
    a.ResumeSpawn? || a.PlayFailed? || a.StartReload? || a.OweStall? || a.StartRollover?
  }

  /** Of the generation and the commands, a re-LOAD changes only the ledger, and only when it is accepted. */
  lemma FlowChanges(s: Session, a: Action)
    requires Enabled(s, a) && a.FlowRun?
    ensures var r, l := FlowStep(s, a.t, a.h), s.gen.ledger;
            && r.cmds == s.cmds
            && (!Accepts(s, a) ==> r.gen == s.gen)
            && (Accepts(s, a) ==>
                  var covers := s.re.loads[s.re.flows[a.t].phase.load].covers;
                  r.gen == s.gen.(ledger := l.(done := Max(l.done, covers), stallOwed := false)))
  {
  }

  lemma WorkerTracks(s: Session, a: Action, f: Fact)
    requires Enabled(s, a) && OfGeneration(f)
    requires OfWorker(a)
    ensures Tracks(s, a, Apply(s, a), f)
  {
  }

  lemma EndTracks(s: Session, a: Action, f: Fact)
    requires Enabled(s, a) && OfGeneration(f)
    requires a.Take? || a.TeardownRun?
    ensures Tracks(s, a, Apply(s, a), f)
  {
  }

  lemma GenerationTracks(s: Session, a: Action, f: Fact)
    requires Enabled(s, a) && OfGeneration(f)
    requires !OfWorker(a) && !a.FlowRun? && !a.Take? && !a.TeardownRun?
    ensures Tracks(s, a, Apply(s, a), f)
  {
  }

  lemma AcceptTracks(s: Session, a: Action, f: Fact)
    requires Enabled(s, a) && (OfGeneration(f) || OfCommands(f))
    requires a.FlowRun?
    ensures Tracks(s, a, FlowStep(s, a.t, a.h), f)
  {
    FlowChanges(s, a);
  }

  lemma TransportTracks(s: Session, a: Action, f: Fact)
    requires TransportExclusive(s.cmds) && Enabled(s, a) && OfCommands(f)
    requires TransportAction(a)
    ensures Tracks(s, a, Apply(s, a), f)
  {
  }

  lemma OtherCommandTracks(s: Session, a: Action, f: Fact)
    requires Enabled(s, a) && OfCommands(f)
    requires !TransportAction(a) && !a.FlowRun?
    ensures Tracks(s, a, Apply(s, a), f)
  {
  }

  lemma GateTracks(s: Session, a: Action, f: Fact)
    requires Enabled(s, a) && (OfFlows(f) || OfLoads(f))
    requires a.FlowRun? && Gated(s.re.flows[a.t].phase)
    ensures Tracks(s, a, s.(re := GateStage(s.gen, s.re, a.t)), f)
  {
  }

  lemma JoinTracks(s: Session, a: Action, f: Fact)
    requires Enabled(s, a) && (OfFlows(f) || OfLoads(f))
    requires a.FlowRun? && Joining(s.re.flows[a.t].phase)
    ensures Tracks(s, a, s.(re := JoinStage(s.re, a.t)), f)
  {
  }

  lemma PublishTracks(s: Session, a: Action, f: Fact)
    requires FlightExclusive(s.re) && Enabled(s, a) && (OfFlows(f) || OfLoads(f))
    requires a.FlowRun? && Publishing(s.re.flows[a.t].phase)
    ensures Tracks(s, a, s.(re := PublishStage(s.gen, s.re, a.t, a.h)), f)
  {
  }

  lemma SettleTracks(s: Session, a: Action, f: Fact)
    requires Enabled(s, a) && (OfFlows(f) || OfLoads(f))
    requires a.FlowRun? && s.re.flows[a.t].phase.Settle?
    ensures Tracks(s, a, SettleStage(s, a.t), f)
  {
  }

  lemma DiscardTracks(s: Session, a: Action, f: Fact)
    requires Enabled(s, a) && (OfFlows(f) || OfLoads(f))
    requires a.FlowRun? && var p := s.re.flows[a.t].phase; !Gated(p) && !Joining(p) && !Publishing(p) && !p.Settle?
    ensures Tracks(s, a, FlowStep(s, a.t, a.h), f)
  {
  }

  lemma StartTracks(s: Session, a: Action, f: Fact)
    requires Enabled(s, a) && (OfFlows(f) || OfLoads(f))
    requires StartsFlow(a)
    ensures Tracks(s, a, Apply(s, a), f)
  {
  }

  lemma OtherFlowTracks(s: Session, a: Action, f: Fact)
    requires Enabled(s, a) && OfFlows(f)
    requires !StartsFlow(a) && !a.FlowRun?
    ensures Tracks(s, a, Apply(s, a), f)
  {
  }

  lemma OtherLoadTracks(s: Session, a: Action, f: Fact)
    requires Enabled(s, a) && OfLoads(f)
    requires !StartsFlow(a) && !a.FlowRun?
    ensures Tracks(s, a, Apply(s, a), f)
  {
  }

  lemma FlowTracks(s: Session, a: Action, f: Fact)
    requires Structure(s) && Enabled(s, a) && a.FlowRun?
    ensures Tracks(s, a, FlowStep(s, a.t, a.h), f)
  {
    var p := s.re.flows[a.t].phase;
    if OfGeneration(f) || OfCommands(f) {
      AcceptTracks(s, a, f);
    } else if Gated(p) {
      GateTracks(s, a, f);
    } else if Joining(p) {
      JoinTracks(s, a, f);
    } else if Publishing(p) {
      PublishTracks(s, a, f);
    } else if p.Settle? {
      SettleTracks(s, a, f);
    } else {
      DiscardTracks(s, a, f);
    }
  }

  lemma StepTracks(s: Session, a: Action, f: Fact)
    requires Structure(s) && Enabled(s, a)
    ensures Tracks(s, a, Apply(s, a), f)
  {
    if a.FlowRun? {
      FlowTracks(s, a, f);
    } else if OfGeneration(f) {
      if OfWorker(a) {
        WorkerTracks(s, a, f);
      } else if a.Take? || a.TeardownRun? {
        EndTracks(s, a, f);
      } else {
        GenerationTracks(s, a, f);
      }
    } else if OfCommands(f) {
      if TransportAction(a) {
        TransportTracks(s, a, f);
      } else {
        OtherCommandTracks(s, a, f);
      }
    } else if StartsFlow(a) {
      StartTracks(s, a, f);
    } else if OfFlows(f) {
      OtherFlowTracks(s, a, f);
    } else {
      OtherLoadTracks(s, a, f);
    }
  }

  // ----- whole runs -------------------------------------------------------------------------------------

  lemma TrackedStep(states: seq<Session>, acts: seq<Action>, k: nat, f: Fact)
    requires Run(states, acts) && k < |acts|
    ensures Holds(states[k + 1], f)
            == (Makes(states[k], acts[k], f) || (Holds(states[k], f) && !Undoes(states[k], acts[k], f)))
  {
    RunHasStructure(states, acts, k);
    StepTracks(states[k], acts[k], f);
  }

  /**
   Exactly what holds of a session after any run: a fact holds if and only if some step made it, or it held
   from the start, and no later step has undone it.
   */
  lemma FactHoldsIff(states: seq<Session>, acts: seq<Action>, n: nat, f: Fact)
    requires Run(states, acts) && n < |states|
    ensures Holds(states[n], f) <==>
              || (Holds(states[0], f) && forall k :: 0 <= k < n ==> !Undoes(states[k], acts[k], f))
              || exists i :: 0 <= i < n && Makes(states[i], acts[i], f)
                             && forall k :: i < k < n ==> !Undoes(states[k], acts[k], f)
  {
    forall k | 0 <= k < |acts|
      ensures Holds(states[k + 1], f)
              == (Makes(states[k], acts[k], f) || (Holds(states[k], f) && !Undoes(states[k], acts[k], f)))
    {
      TrackedStep(states, acts, k, f);
    }
    SetOrKept(states, acts, n, (s: Session) => Holds(s, f), (s, a) => Makes(s, a, f), (s, a) => Undoes(s, a, f));
  }

  /** At the start nothing holds but the stream's kind, and that no flush is covered. */
  lemma FactsAtFirst(s: Session, f: Fact)
    requires Init(s)
    ensures Holds(s, f) <==> (f.IsWav? && s.gen.wav) || f == IsCovered(0)
  {
  }

  function Flushes(acts: seq<Action>): nat {
    if acts == [] then 0 else Flushes(acts[..|acts| - 1]) + if acts[|acts| - 1].Flush? then 1 else 0
  }

  lemma OnlyFlushAsks(s: Session, a: Action)
    requires Enabled(s, a)
    ensures Apply(s, a).gen.ledger.requested == s.gen.ledger.requested + if a.Flush? then 1 else 0
  {
  }

  /** The number of the last flush is the number of flushes. */
  lemma {:induction false} FlushesAreCounted(states: seq<Session>, acts: seq<Action>, n: nat)
    requires Run(states, acts) && n < |states|
    ensures states[n].gen.ledger.requested == Flushes(acts[..n])
  {
    if n > 0 {
      FlushesAreCounted(states, acts, n - 1);
      OnlyFlushAsks(states[n - 1], acts[n - 1]);
      assert acts[..n][..n - 1] == acts[..n - 1] && acts[..n][n - 1] == acts[n - 1];
    }
  }
}
