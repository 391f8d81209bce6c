/**
 Where a live session comes to rest. Whatever order its tasks, flows and LOADs finish in, the last
 PAUSE or PLAY and the last LOAD or STOP ahead decide whether Cast plays in the end, and each of the
 two can be the very last command: `EndsIff` says exactly which ends are possible.
 */
module Settling {
  import opened Common
  import opened SessionModel
  import opened SessionLocks
  import R = ReplaceStop
  import opened TeardownJoins
  import opened LiveSession
  import opened Draining

  // ----- the last command of the tasks ------------------------------------------------------------

  ghost predicate CommandAhead(c: Transports, play: bool) {
    exists t :: t in c.tasks && c.tasks[t].play == play && !c.tasks[t].phase.Respawn?
  }

  ghost predicate CommandOnWire(c: Transports, play: bool) {
    exists t :: t in c.tasks && c.tasks[t] == Transport(play, Wire)
  }

  /** A task that wants what the flag wants will send its command; any other gives up before the wire. */
  ghost predicate WantedAhead(s: Session) {
    CommandAhead(s.cmds, !s.gen.ledger.paused) || (!s.gen.ledger.paused && s.gen.worker.SpawnPlay?)
  }

  /** The last PAUSE (`Some(false)`) or PLAY (`Some(true)`) that Cast will get from the tasks. */
  ghost function TasksEnd(s: Session): Option<bool> {
    if WantedAhead(s) then Some(!s.gen.ledger.paused)
    else if CommandOnWire(s.cmds, s.gen.ledger.paused) then Some(s.gen.ledger.paused)
    else None
  }

  // ----- the last command of the re-LOADs ---------------------------------------------------------

  predicate RolloverLoads(f: Flow) {
    f.rollover && FlowLoads(f, 0)
  }

  predicate RolloverWaits(l: Load) {
    l.rollover && BeforeWire(l.phase)
  }

  /** A rollover LOAD is still to come; it has no pause checks. */
  ghost predicate RolloverAhead(r: Reloads) {
    || (exists t :: t in r.flows && RolloverLoads(r.flows[t]))
    || (exists h :: h in r.loads && RolloverWaits(r.loads[h]))
  }

  /** A LOAD is still to come that no pause check stops. */
  ghost predicate LastingLoadAhead(s: Session) {
    if s.gen.ledger.paused then RolloverAhead(s.re) else LoadAhead(s)
  }

  /** The last LOAD that stays (`Some(true)`) or STOP (`Some(false)`) that Cast will get. */
  ghost function ReloadsEnd(s: Session): Option<bool> {
    if LastingLoadAhead(s) then Some(true) else if R.PausedLoadPending(s) then Some(false) else None
  }

  /** Cast can end playing (`b`) or silent (`!b`). */
  ghost predicate CanEnd(s: Session, b: bool) {
    || TasksEnd(s) == Some(b)
    || ReloadsEnd(s) == Some(b)
    || (TasksEnd(s).None? && ReloadsEnd(s).None? && s.cast.playing == b)
  }

  // ----- steps of the tasks -----------------------------------------------------------------------

  predicate IsTaskStep(a: Action) {
    match a
    case ResumeSpawn(_) => true
    case TransportRun(_) => true
    case TransportAnswer(_, ok) => ok
    case PlayFailed(_, _) => true
    case _ => false
  }

  /** What `TasksEnd` and `ReloadsEnd` become when a step sends one of the commands they are about. */
  predicate SentOrSame(before: Option<bool>, after: Option<bool>, playing: bool) {
    after == before || (after == None && before == Some(playing))
  }

  /** Task `t` goes from `c` to `d`, and no other task does. */
  predicate OthersSame(c: Transports, d: Transports, t: TaskId) {
    && (forall u :: u in c.tasks && u != t ==> u in d.tasks && d.tasks[u] == c.tasks[u])
    && (forall u :: u in d.tasks && u != t ==> u in c.tasks)
  }

  lemma CheckKeepsTasks(g: Generation, c: Transports, t: TaskId)
    requires g.live && g.alive && t in c.tasks && !c.tasks[t].phase.Wire? && !c.tasks[t].phase.Respawn?
    ensures var d := TransportCheck(g, c, t);
            && OthersSame(c, d, t)
            && (c.tasks[t].play != g.ledger.paused ==> t in d.tasks && !d.tasks[t].phase.Respawn?)
            && (t in d.tasks ==> d.tasks[t].play == c.tasks[t].play && !d.tasks[t].phase.Respawn?)
            && (t in d.tasks && d.tasks[t].phase.Wire? ==> d.tasks[t].play != g.ledger.paused)
  {
  }

  lemma CheckKeepsCommands(g: Generation, c: Transports, t: TaskId)
    requires g.live && g.alive && t in c.tasks && !c.tasks[t].phase.Wire? && !c.tasks[t].phase.Respawn?
    ensures var d := TransportCheck(g, c, t);
            && (CommandAhead(d, !g.ledger.paused) <==> CommandAhead(c, !g.ledger.paused))
            && (CommandOnWire(d, g.ledger.paused) <==> CommandOnWire(c, g.ledger.paused))
  {
    var d := TransportCheck(g, c, t);
    CheckKeepsTasks(g, c, t);
    if u :| u in c.tasks && c.tasks[u].play != g.ledger.paused && !c.tasks[u].phase.Respawn? {
      assert u in d.tasks && d.tasks[u].play != g.ledger.paused && !d.tasks[u].phase.Respawn?;
    }
    if u :| u in d.tasks && d.tasks[u].play != g.ledger.paused && !d.tasks[u].phase.Respawn? {
      assert u in c.tasks && c.tasks[u].play != g.ledger.paused && !c.tasks[u].phase.Respawn?;
    }
    if u :| u in c.tasks && c.tasks[u] == Transport(g.ledger.paused, Wire) {
      assert d.tasks[u] == Transport(g.ledger.paused, Wire);
    }
    if u :| u in d.tasks && d.tasks[u] == Transport(g.ledger.paused, Wire) {
      assert c.tasks[u] == Transport(g.ledger.paused, Wire);
    }
  }

  lemma AnswerSends(s: Session, t: TaskId)
    requires TransportExclusive(s.cmds) && Enabled(s, TransportAnswer(t, true))
    ensures var r := TransportCommand(s, t, true);
            SentOrSame(TasksEnd(s), TasksEnd(r), r.cast.playing)
  {
    var r, wanted := TransportCommand(s, t, true), !s.gen.ledger.paused;
    assert r.cmds.tasks == Drop(s.cmds.tasks, t) && r.gen == s.gen && r.cast.playing == s.cmds.tasks[t].play;
    assert !CommandOnWire(r.cmds, !wanted);
    if s.cmds.tasks[t].play == wanted {
      assert CommandAhead(s.cmds, wanted);
    } else {
      assert s.cmds.tasks[t] == Transport(!wanted, Wire);
      if u :| u in s.cmds.tasks && s.cmds.tasks[u].play == wanted && !s.cmds.tasks[u].phase.Respawn? {
        assert r.cmds.tasks[u] == s.cmds.tasks[u];
      }
    }
  }

  /** A resumed PLAY becomes a task, and the re-LOAD after a failed PLAY is none. */
  lemma SpawnKeepsTasksEnd(s: Session, a: Action)
    requires s.gen.live && Enabled(s, a) && (a.ResumeSpawn? || a.PlayFailed?)
    ensures TasksEnd(Apply(s, a)) == TasksEnd(s)
  {
    var r, wanted := Apply(s, a), !s.gen.ledger.paused;
    if u :| u in s.cmds.tasks && s.cmds.tasks[u].play == wanted && !s.cmds.tasks[u].phase.Respawn? {
      assert r.cmds.tasks[u] == s.cmds.tasks[u];
    }
    if u :| u in s.cmds.tasks && s.cmds.tasks[u] == Transport(!wanted, Wire) {
      assert r.cmds.tasks[u] == s.cmds.tasks[u];
    }
    if a.ResumeSpawn? && s.gen.worker.SpawnPlay? {
      assert r.cmds.tasks[a.t] == Transport(true, Queued);
    }
  }

  lemma TaskStepTasks(s: Session, a: Action)
    requires Live(s) && Enabled(s, a) && IsTaskStep(a)
    ensures SentOrSame(TasksEnd(s), TasksEnd(Apply(s, a)), Apply(s, a).cast.playing)
    ensures Apply(s, a).cast.playing != s.cast.playing ==> TasksEnd(s).Some?
  {
    match a
    case TransportRun(t) =>
      CheckKeepsCommands(s.gen, s.cmds, t);
    case TransportAnswer(t, _) =>
      AnswerSends(s, t);
      assert s.cmds.tasks[t] == Transport(s.cmds.tasks[t].play, Wire);
    case _ => SpawnKeepsTasksEnd(s, a);
  }

  /** `r` has one flow more than `q`, which has no LOAD yet and is no rollover. */
  predicate OneMoreFlow(q: Reloads, r: Reloads, t: TaskId) {
    && t !in q.flows && t in r.flows && r == q.(flows := q.flows[t := r.flows[t]])
    && r.flows[t].phase.Planning? && !r.flows[t].rollover
  }

  lemma NewFlowStops(paused: bool, q: Reloads, r: Reloads, t: TaskId)
    requires OneMoreFlow(q, r, t)
    ensures SameStops(paused, q, r) && SameStops(paused, r, q)
  {
  }

  lemma NewFlowRollover(q: Reloads, r: Reloads, t: TaskId)
    requires OneMoreFlow(q, r, t)
    ensures RolloverAhead(r) <==> RolloverAhead(q)
  {
    if u :| u in q.flows && RolloverLoads(q.flows[u]) {
      assert RolloverLoads(r.flows[u]);
    }
    if u :| u in r.flows && RolloverLoads(r.flows[u]) {
      assert RolloverLoads(q.flows[u]);
    }
  }

  lemma NewFlowLoads(q: Reloads, r: Reloads, t: TaskId, done: nat)
    requires OneMoreFlow(q, r, t)
    ensures FlowLoadAhead(r, done) <==> FlowLoadAhead(q, done) || Unmet(r.flows[t].request, done)
  {
    if u :| u in q.flows && FlowLoads(q.flows[u], done) {
      assert FlowLoads(r.flows[u], done);
    }
    if u :| u in r.flows && FlowLoads(r.flows[u], done) {
      assert u != t ==> FlowLoads(q.flows[u], done);
    }
    if Unmet(r.flows[t].request, done) {
      assert FlowLoads(r.flows[t], done);
    }
  }

  /** A new flow never holds the flight lock. */
  lemma NewFlowCovers(s: Session, r: Session, t: TaskId)
    requires FlightExclusive(s.re) && OneMoreFlow(s.re, r.re, t) && r.gen.ledger == s.gen.ledger
    ensures DoneAhead(r) == DoneAhead(s)
  {
    assert s.re.flight.Some? ==> r.re.flows[s.re.flight.value] == s.re.flows[s.re.flight.value];
  }

  lemma StopsStay(s: Session, r: Session)
    requires r.gen.ledger == s.gen.ledger
    requires SameStops(s.gen.ledger.paused, s.re, r.re) && SameStops(s.gen.ledger.paused, r.re, s.re)
    ensures R.PausedLoadPending(r) <==> R.PausedLoadPending(s)
  {
    if R.PausedLoadPending(s) {
      SameStopsPending(s, r);
    }
    if R.PausedLoadPending(r) {
      SameStopsPending(r, s);
    }
  }

  lemma SpawnedFlow(s: Session, a: Action, t: TaskId)
    requires Live(s) && Enabled(s, a)
    requires (a.ResumeSpawn? && s.gen.worker.SpawnReload? && t == a.t) || (a.PlayFailed? && t == a.f)
    ensures var r := Apply(s, a);
            && OneMoreFlow(s.re, r.re, t) && r.gen.ledger == s.gen.ledger
            && r.re.flows[t].request == (if a.ResumeSpawn? then s.gen.worker.request else None)
  {
  }

  /** The re-LOAD of a resume is ahead as before, now as a flow. */
  lemma ResumedReloadAhead(s: Session, t: TaskId)
    requires Live(s) && Enabled(s, ResumeSpawn(t)) && s.gen.worker.SpawnReload?
    ensures LoadAhead(Apply(s, ResumeSpawn(t))) <==> LoadAhead(s)
  {
    var r := Apply(s, ResumeSpawn(t));
    SpawnedFlow(s, ResumeSpawn(t), t);
    NewFlowCovers(s, r, t);
    NewFlowLoads(s.re, r.re, t, DoneAhead(s));
    assert r.cmds == s.cmds && r.gen.worker.Ready?;
  }

  lemma FailedPlayAhead(s: Session, t: TaskId, f: TaskId)
    requires Live(s) && Enabled(s, PlayFailed(t, f))
    ensures LoadAhead(s) && LoadAhead(Apply(s, PlayFailed(t, f)))
  {
    var r := Apply(s, PlayFailed(t, f));
    SpawnedFlow(s, PlayFailed(t, f), f);
    NewFlowCovers(s, r, f);
    NewFlowLoads(s.re, r.re, f, DoneAhead(s));
  }

  lemma SpawnKeepsReloads(s: Session, a: Action, t: TaskId)
    requires Live(s) && Enabled(s, a)
    requires (a.ResumeSpawn? && s.gen.worker.SpawnReload? && t == a.t) || (a.PlayFailed? && t == a.f)
    ensures ReloadsEnd(Apply(s, a)) == ReloadsEnd(s)
  {
    var r := Apply(s, a);
    SpawnedFlow(s, a, t);
    NewFlowStops(s.gen.ledger.paused, s.re, r.re, t);
    StopsStay(s, r);
    NewFlowRollover(s.re, r.re, t);
    if a.ResumeSpawn? {
      ResumedReloadAhead(s, t);
    } else {
      FailedPlayAhead(s, a.t, t);
    }
  }

  lemma CommandKeepsFailedPlays(g: Generation, c: Transports, t: TaskId, p: bool)
    requires t in c.tasks && !c.tasks[t].phase.Respawn?
    ensures var d := if p then EndTransport(c, t) else TransportCheck(g, c, t);
            (exists u :: u in d.tasks && d.tasks[u].phase.Respawn?)
            <==> exists u :: u in c.tasks && c.tasks[u].phase.Respawn?
  {
    var d := if p then EndTransport(c, t) else TransportCheck(g, c, t);
    if u :| u in c.tasks && c.tasks[u].phase.Respawn? {
      assert d.tasks[u] == c.tasks[u];
    }
    if u :| u in d.tasks && d.tasks[u].phase.Respawn? {
      assert c.tasks[u] == d.tasks[u];
    }
  }

  /** The tasks, the LOADs and the ledger decide which LOADs and STOPs are ahead. */
  lemma SameReloadsEnd(s: Session, r: Session)
    requires r.re == s.re && r.gen.ledger == s.gen.ledger
    requires r.gen.worker.SpawnReload? || s.gen.worker.SpawnReload? ==> r.gen.worker == s.gen.worker
    requires (exists u :: u in r.cmds.tasks && r.cmds.tasks[u].phase.Respawn?)
             <==> exists u :: u in s.cmds.tasks && s.cmds.tasks[u].phase.Respawn?
    ensures ReloadsEnd(r) == ReloadsEnd(s)
  {
  }

  lemma CommandKeepsReloads(s: Session, a: Action)
    requires Enabled(s, a) && (a.TransportRun? || (a.TransportAnswer? && a.ok))
    ensures ReloadsEnd(Apply(s, a)) == ReloadsEnd(s)
  {
    CommandKeepsFailedPlays(s.gen, s.cmds, a.t, a.TransportAnswer?);
    SameReloadsEnd(s, Apply(s, a));
  }

  lemma PlaySpawnKeepsReloads(s: Session, t: TaskId)
    requires Enabled(s, ResumeSpawn(t)) && s.gen.live && s.gen.worker.SpawnPlay?
    ensures ReloadsEnd(Apply(s, ResumeSpawn(t))) == ReloadsEnd(s)
  {
    var r := Apply(s, ResumeSpawn(t));
    if u :| u in s.cmds.tasks && s.cmds.tasks[u].phase.Respawn? {
      assert r.cmds.tasks[u] == s.cmds.tasks[u];
    }
    SameReloadsEnd(s, r);
  }

  lemma TaskStepReloads(s: Session, a: Action)
    requires Live(s) && Enabled(s, a) && IsTaskStep(a)
    ensures ReloadsEnd(Apply(s, a)) == ReloadsEnd(s)
  {
    if a.ResumeSpawn? && s.gen.worker.SpawnReload? {
      SpawnKeepsReloads(s, a, a.t);
    } else if a.PlayFailed? {
      SpawnKeepsReloads(s, a, a.f);
    } else if a.ResumeSpawn? {
      PlaySpawnKeepsReloads(s, a.t);
    } else {
      CommandKeepsReloads(s, a);
    }
  }

  // ----- steps of the flows and the LOADs -----------------------------------------------------------

  predicate IsReloadStep(a: Action) {
    match a
    case FlowRun(_, _) => true
    case LoadRun(_, ok) => ok
    case _ => false
  }

  lemma ReloadStepTasks(s: Session, a: Action)
    requires Enabled(s, a) && IsReloadStep(a)
    ensures var r := Apply(s, a); r.cmds == s.cmds && r.gen.worker == s.gen.worker && r.gen.ledger.paused == s.gen.ledger.paused
    ensures TasksEnd(Apply(s, a)) == TasksEnd(s)
  {
    if a.FlowRun? {
      FlowStepKeepsRest(s, a.t, a.h);
    }
  }

  lemma GateMovesRollover(s: Session, t: TaskId, h: LoadId)
    requires FlowFacts(s, t) && FlowReady(s.re, t, h) && Gated(s.re.flows[t].phase)
    ensures var r := GateStage(s.gen, s.re, t);
            RolloverLoads(s.re.flows[t]) <==> t in r.flows && RolloverLoads(r.flows[t])
  {
  }

  lemma PastGatesMovesRollover(s: Session, t: TaskId, h: LoadId)
    requires FlowFacts(s, t) && FlowReady(s.re, t, h) && !Gated(s.re.flows[t].phase)
    ensures var r := FlowStep(s, t, h).re;
            && (t in r.flows && RolloverLoads(r.flows[t]) ==> RolloverLoads(s.re.flows[t]))
            && (RolloverLoads(s.re.flows[t]) ==>
                  (t in r.flows && RolloverLoads(r.flows[t])) || (h in r.loads && RolloverWaits(r.loads[h])))
  {
  }

  lemma MovedRollover(s: Session, t: TaskId, h: LoadId)
    requires FlowFacts(s, t) && FlowReady(s.re, t, h)
    ensures var r := FlowStep(s, t, h).re;
            && (t in r.flows && RolloverLoads(r.flows[t]) ==> RolloverLoads(s.re.flows[t]))
            && (RolloverLoads(s.re.flows[t]) ==>
                  (t in r.flows && RolloverLoads(r.flows[t])) || (h in r.loads && RolloverWaits(r.loads[h])))
  {
    if Gated(s.re.flows[t].phase) {
      GateMovesRollover(s, t, h);
    } else {
      PastGatesMovesRollover(s, t, h);
    }
  }

  lemma PublishedRollover(s: Session, t: TaskId, h: LoadId, k: LoadId)
    requires FlowFacts(s, t) && FlowReady(s.re, t, h)
    ensures var r := FlowStep(s, t, h).re;
            k in r.loads && RolloverWaits(r.loads[k]) ==>
              (k in s.re.loads && RolloverWaits(s.re.loads[k])) || RolloverLoads(s.re.flows[t])
    ensures k in s.re.loads ==> k in FlowStep(s, t, h).re.loads && FlowStep(s, t, h).re.loads[k] == s.re.loads[k]
  {
    LiveFlowLoads(s, t, h);
  }

  lemma FlowKeepsRollover(s: Session, t: TaskId, h: LoadId)
    requires FlowFacts(s, t) && FlowReady(s.re, t, h)
    ensures RolloverAhead(FlowStep(s, t, h).re) <==> RolloverAhead(s.re)
  {
    var r := FlowStep(s, t, h).re;
    FlowStepFrame(s, t, h);
    MovedRollover(s, t, h);
    if u :| u in r.flows && RolloverLoads(r.flows[u]) {
      assert u in s.re.flows && RolloverLoads(s.re.flows[u]);
    }
    if k :| k in r.loads && RolloverWaits(r.loads[k]) {
      PublishedRollover(s, t, h, k);
    }
    if u :| u in s.re.flows && RolloverLoads(s.re.flows[u]) {
      assert u != t ==> RolloverLoads(r.flows[u]);
    }
    if k :| k in s.re.loads && RolloverWaits(s.re.loads[k]) {
      PublishedRollover(s, t, h, k);
      assert RolloverWaits(r.loads[k]);
    }
  }

  lemma LoadKeepsRollover(s: Session, h: LoadId)
    requires Enabled(s, LoadRun(h, true)) && !(s.re.loads[h].phase.OnWire? && s.re.loads[h].rollover)
    requires s.gen.alive && LoadShaped(s.re.loads[h])
    ensures RolloverAhead(LoadStep(s, h, true).re) <==> RolloverAhead(s.re)
  {
    var r := LoadStep(s, h, true).re;
    assert r.flows == s.re.flows && r.loads == s.re.loads[h := r.loads[h]];
    assert RolloverWaits(r.loads[h]) <==> RolloverWaits(s.re.loads[h]);
    if k :| k in s.re.loads && RolloverWaits(s.re.loads[k]) {
      assert RolloverWaits(r.loads[k]);
    }
    if k :| k in r.loads && RolloverWaits(r.loads[k]) {
      assert RolloverWaits(s.re.loads[k]);
    }
  }

  /** A step that sends no LOAD leaves the LOADs ahead that no pause check stops. */
  lemma LastingLoadsStay(s: Session, a: Action)
    requires Live(s) && Enabled(s, a) && IsReloadStep(a) && (Silent(s, a) || SendsStop(s, a))
    ensures LastingLoadAhead(Apply(s, a)) <==> LastingLoadAhead(s)
  {
    DrainKeepsFlag(s, a);
    if !s.gen.ledger.paused {
      LoadAheadStays(s, a);
    } else if a.FlowRun? {
      LiveFlowFacts(s, a.t);
      FlowKeepsRollover(s, a.t, a.h);
    } else {
      LiveFacts(s);
      LoadKeepsRollover(s, a.h);
    }
  }

  lemma LoadCommandSends(s: Session, h: LoadId)
    requires Live(s) && Enabled(s, LoadRun(h, true)) && s.re.loads[h].phase.OnWire?
    ensures var r := LoadStep(s, h, true);
            r.cast.playing && SentOrSame(ReloadsEnd(s), ReloadsEnd(r), true) && ReloadsEnd(s).Some?
  {
    var r := LoadStep(s, h, true);
    LiveFacts(s);
    if s.gen.ledger.paused && !s.re.loads[h].rollover {
      LoadKeepsRollover(s, h);
      assert R.LoadWillStop(true, s.re.loads[h]) && R.LoadWillStop(true, r.re.loads[h]);
    } else {
      LoadCommandLeavesNoStop(s, h);
      assert BeforeWire(s.re.loads[h].phase);
      assert s.gen.ledger.paused ==> RolloverWaits(s.re.loads[h]);
    }
  }

  lemma ReloadStepReloads(s: Session, a: Action)
    requires Live(s) && Enabled(s, a) && IsReloadStep(a)
    ensures SentOrSame(ReloadsEnd(s), ReloadsEnd(Apply(s, a)), Apply(s, a).cast.playing)
    ensures Apply(s, a).cast.playing != s.cast.playing ==> ReloadsEnd(s).Some?
  {
    if Silent(s, a) {
      LastingLoadsStay(s, a);
      SilentKeepsStops(s, a);
    } else if SendsStop(s, a) {
      LastingLoadsStay(s, a);
      StopWasPending(s, a);
    } else {
      LoadCommandSends(s, a.h);
    }
  }

  // ----- the possible ends only get fewer -----------------------------------------------------------

  lemma DrainShrinksEnds(s: Session, a: Action, b: bool)
    requires Live(s) && Enabled(s, a) && Drains(a) && CanEnd(Apply(s, a), b)
    ensures CanEnd(s, b)
  {
    if IsTaskStep(a) {
      TaskStepTasks(s, a);
      TaskStepReloads(s, a);
    } else {
      ReloadStepTasks(s, a);
      ReloadStepReloads(s, a);
    }
  }

  lemma {:induction false} DrainingShrinksEnds(s: Session, acts: seq<Action>, b: bool)
    requires Live(s) && Execute(s, acts).Some? && forall i :: 0 <= i < |acts| ==> Drains(acts[i])
    requires CanEnd(Execute(s, acts).value, b)
    ensures CanEnd(s, b)
    decreases |acts|
  {
    if acts != [] {
      DrainKeepsLive(s, acts[0]);
      DrainingShrinksEnds(Apply(s, acts[0]), acts[1..], b);
      DrainShrinksEnds(s, acts[0], b);
    }
  }

  lemma QuietEnd(s: Session)
    requires Live(s) && Quiet(s)
    ensures TasksEnd(s).None? && ReloadsEnd(s).None?
  {
  }

  // ----- draining can always be finished --------------------------------------------------------------

  ghost predicate DrainsTo(s: Session, acts: seq<Action>, r: Session) {
    Execute(s, acts) == Some(r) && forall i :: 0 <= i < |acts| ==> Drains(acts[i])
  }

  lemma StepDrains(s: Session, a: Action, acts: seq<Action>, r: Session)
    requires Enabled(s, a) && Drains(a) && DrainsTo(Apply(s, a), acts, r)
    ensures DrainsTo(s, [a] + acts, r)
  {
    StepThenExecute(s, a, acts);
  }

  lemma DrainConcat(s: Session, a: seq<Action>, m: Session, b: seq<Action>, r: Session)
    requires DrainsTo(s, a, m) && DrainsTo(m, b, r)
    ensures DrainsTo(s, a + b, r)
  {
    ExecuteConcat(s, a, b);
  }

  lemma {:induction false} DrainingStaysLive(s: Session, acts: seq<Action>, r: Session)
    requires Live(s) && DrainsTo(s, acts, r)
    ensures Live(r)
    decreases |acts|
  {
    if acts != [] {
      DrainKeepsLive(s, acts[0]);
      DrainingStaysLive(Apply(s, acts[0]), acts[1..], r);
    }
  }

  function TaskDistance(p: LoadPhase): nat {
    match p
    case Spawned => 7
    case FirstPausedCheck => 6
    case OnWire => 5
    case SecondPausedCheck(_) => 4
    case LateReadAlive(_) => 3
    case LateReadAllowed(_, _) => 2
    case Stopping(_, _) => 1
    case Finished(_) => 0
  }

  function EndDistance(p: FlowPhase, loads: map<LoadId, Load>): nat {
    match p
    case Unspawned => 25
    case Planning => 24
    case WaitFlight => 23
    case FirstGate => 22
    case TakePrior => 21
    case WaitLead => 20
    case SecondGate => 19
    case RecheckAlive => 19
    case LockSlot(_) => 18
    case PublishReadAlive(_) => 17
    case PublishReadPaused(_) => 16
    case Publish(_) => 15
    case AwaitLoad(h) => 7 + if h in loads then TaskDistance(loads[h].phase) else 0
    case TakeOwn(_, _) => 6
    case Settle(_, _) => 5
    case DiscardReadPaused => 4
    case DiscardReadAlive(_) => 3
    case DiscardReadAllowed(_, _) => 2
    case _ => 1
  }

  /** Flow `t` holds the flight lock, or can take it. */
  predicate FlightFor(r: Reloads, t: TaskId) {
    t in r.flows && (r.flight.None? || r.flight == Some(t))
  }

  /** The next step of flow `t`, or of the LOAD it waits for; `free` names a new LOAD. */
  function NextOf(r: Reloads, t: TaskId, free: LoadId): Action
    requires t in r.flows
  {
    var p := r.flows[t].phase;
    if p.AwaitLoad? && p.load in r.loads && !r.loads[p.load].phase.Finished? then LoadRun(p.load, true)
    else FlowRun(t, free)
  }

  lemma NextIsEnabled(s: Session, t: TaskId, free: LoadId)
    requires Live(s) && FlightFor(s.re, t) && free !in s.re.loads
    ensures var a := NextOf(s.re, t, free); Enabled(s, a) && IsReloadStep(a)
  {
    LiveFlowFacts(s, t);
  }

  /** The flow ended, or it is nearer to its end and still has the flight lock. */
  predicate Nearer(r: Reloads, q: Reloads, t: TaskId)
    requires t in r.flows
  {
    if t in q.flows then
      q.flows.Keys == r.flows.Keys && FlightFor(q, t)
      && EndDistance(q.flows[t].phase, q.loads) < EndDistance(r.flows[t].phase, r.loads)
    else q.flows.Keys == r.flows.Keys - {t}
  }

  lemma GateIsNearer(s: Session, t: TaskId, h: LoadId)
    requires FlightFor(s.re, t) && FlowReady(s.re, t, h) && Gated(s.re.flows[t].phase)
    ensures Nearer(s.re, GateStage(s.gen, s.re, t), t)
  {
  }

  lemma JoinIsNearer(s: Session, t: TaskId, h: LoadId)
    requires FlowFacts(s, t) && FlightFor(s.re, t) && FlowReady(s.re, t, h) && Joining(s.re.flows[t].phase)
    ensures Nearer(s.re, JoinStage(s.re, t), t)
  {
  }

  lemma PublishIsNearer(s: Session, t: TaskId, h: LoadId)
    requires FlightFor(s.re, t) && FlowReady(s.re, t, h) && Publishing(s.re.flows[t].phase)
    ensures Nearer(s.re, PublishStage(s.gen, s.re, t, h), t)
  {
  }

  lemma LaterIsNearer(s: Session, t: TaskId, h: LoadId)
    requires FlightFor(s.re, t) && FlowReady(s.re, t, h)
    requires var p := s.re.flows[t].phase; !Gated(p) && !Joining(p) && !Publishing(p)
    ensures Nearer(s.re, FlowStep(s, t, h).re, t)
  {
  }

  lemma FlowRunIsNearer(s: Session, t: TaskId, h: LoadId)
    requires FlowFacts(s, t) && FlightFor(s.re, t) && FlowReady(s.re, t, h)
    ensures Nearer(s.re, FlowStep(s, t, h).re, t)
  {
    var p := s.re.flows[t].phase;
    if Gated(p) {
      GateIsNearer(s, t, h);
    } else if Joining(p) {
      JoinIsNearer(s, t, h);
    } else if Publishing(p) {
      PublishIsNearer(s, t, h);
    } else {
      LaterIsNearer(s, t, h);
    }
  }

  lemma LoadRunIsNearer(s: Session, t: TaskId, h: LoadId)
    requires FlightFor(s.re, t) && s.re.flows[t].phase == AwaitLoad(h)
    requires h in s.re.loads && !s.re.loads[h].phase.Finished?
    ensures Nearer(s.re, LoadStep(s, h, true).re, t)
  {
  }

  lemma NextIsNearer(s: Session, t: TaskId, free: LoadId)
    requires Live(s) && FlightFor(s.re, t) && free !in s.re.loads
    requires Enabled(s, NextOf(s.re, t, free))
    ensures Nearer(s.re, Apply(s, NextOf(s.re, t, free)).re, t)
  {
    match NextOf(s.re, t, free)
    case FlowRun(_, _) =>
      LiveFlowFacts(s, t);
      FlowRunIsNearer(s, t, free);
    case LoadRun(h, _) => LoadRunIsNearer(s, t, h);
  }

  lemma {:induction false} FinishFlow(s: Session, t: TaskId) returns (acts: seq<Action>, r: Session)
    requires Live(s) && FlightFor(s.re, t)
    ensures DrainsTo(s, acts, r) && Live(r) && r.re.flows.Keys == s.re.flows.Keys - {t}
    ensures r.cmds == s.cmds && r.gen.worker == s.gen.worker && TasksEnd(r) == TasksEnd(s)
    decreases EndDistance(s.re.flows[t].phase, s.re.loads)
  {
    var free := NewNumber(s.re.loads.Keys);
    var a := NextOf(s.re, t, free);
    NextIsEnabled(s, t, free);
    NextIsNearer(s, t, free);
    DrainKeepsLive(s, a);
    ReloadStepTasks(s, a);
    var m := Apply(s, a);
    if t in m.re.flows {
      acts, r := FinishFlow(m, t);
    } else {
      acts, r := [], m;
    }
    StepDrains(s, a, acts, r);
    acts := [a] + acts;
  }

  lemma {:induction false} FinishFlows(s: Session) returns (acts: seq<Action>, r: Session)
    requires Live(s)
    ensures DrainsTo(s, acts, r) && Live(r) && r.re.flows == map[]
    ensures r.cmds == s.cmds && r.gen.worker == s.gen.worker && TasksEnd(r) == TasksEnd(s)
    decreases s.re.flows.Keys
  {
    if s.re.flows == map[] {
      acts, r := [], s;
    } else {
      var t: TaskId :| t in s.re.flows && (s.re.flight.Some? ==> t == s.re.flight.value);
      var one, m := FinishFlow(s, t);
      var rest, e := FinishFlows(m);
      DrainConcat(s, one, m, rest, e);
      acts, r := one + rest, e;
    }
  }

  // ----- tasks --------------------------------------------------------------------------------------

  function SendDistance(p: TransportPhase): nat {
    match p
    case Queued => 5
    case CheckGeneration => 4
    case CheckAlive => 3
    case CheckPaused => 2
    case _ => 1
  }

  predicate LockFor(c: Transports, t: TaskId) {
    t in c.tasks && (c.lock.None? || c.lock == Some(t) || c.tasks[t].phase.Respawn?)
  }

  function NextTask(c: Transports, t: TaskId, free: TaskId): Action
    requires t in c.tasks
  {
    match c.tasks[t].phase
    case Respawn => PlayFailed(t, free)
    case Wire => TransportAnswer(t, true)
    case _ => TransportRun(t)
  }

  lemma NextTaskIsNearer(s: Session, t: TaskId, free: TaskId)
    requires Live(s) && LockFor(s.cmds, t) && free !in s.re.flows
    ensures var a := NextTask(s.cmds, t, free);
            && Enabled(s, a) && Drains(a)
            && var c := Apply(s, a).cmds;
               if t in c.tasks then
                 c.tasks.Keys == s.cmds.tasks.Keys && LockFor(c, t)
                 && SendDistance(c.tasks[t].phase) < SendDistance(s.cmds.tasks[t].phase)
               else c.tasks.Keys == s.cmds.tasks.Keys - {t}
    ensures Apply(s, NextTask(s.cmds, t, free)).gen.worker == s.gen.worker
  {
  }

  lemma {:induction false} FinishTask(s: Session, t: TaskId) returns (acts: seq<Action>, r: Session)
    requires Live(s) && LockFor(s.cmds, t) && s.gen.worker.Ready?
    ensures DrainsTo(s, acts, r) && Live(r) && r.gen.worker.Ready? && r.cmds.tasks.Keys == s.cmds.tasks.Keys - {t}
    ensures ReloadsEnd(r) == ReloadsEnd(s)
    decreases SendDistance(s.cmds.tasks[t].phase)
  {
    var free := NewNumber(s.re.flows.Keys);
    var a := NextTask(s.cmds, t, free);
    NextTaskIsNearer(s, t, free);
    DrainKeepsLive(s, a);
    TaskStepReloads(s, a);
    var m := Apply(s, a);
    if t in m.cmds.tasks {
      acts, r := FinishTask(m, t);
    } else {
      acts, r := [], m;
    }
    StepDrains(s, a, acts, r);
    acts := [a] + acts;
  }

  lemma {:induction false} FinishTasks(s: Session) returns (acts: seq<Action>, r: Session)
    requires Live(s) && s.gen.worker.Ready?
    ensures DrainsTo(s, acts, r) && Live(r) && r.gen.worker.Ready? && r.cmds.tasks == map[]
    ensures ReloadsEnd(r) == ReloadsEnd(s)
    decreases s.cmds.tasks.Keys
  {
    if s.cmds.tasks == map[] {
      acts, r := [], s;
    } else {
      var t: TaskId :| t in s.cmds.tasks && (s.cmds.lock.Some? ==> t == s.cmds.lock.value);
      var one, m := FinishTask(s, t);
      var rest, e := FinishTasks(m);
      DrainConcat(s, one, m, rest, e);
      acts, r := one + rest, e;
    }
  }

  lemma FinishWorker(s: Session) returns (acts: seq<Action>, r: Session)
    requires Live(s)
    ensures DrainsTo(s, acts, r) && Live(r) && r.gen.worker.Ready?
    ensures TasksEnd(r) == TasksEnd(s) && ReloadsEnd(r) == ReloadsEnd(s)
  {
    if s.gen.worker.Ready? {
      acts, r := [], s;
    } else {
      var t := NewNumber(s.cmds.tasks.Keys + s.re.flows.Keys);
      var a := ResumeSpawn(t);
      DrainKeepsLive(s, a);
      SpawnKeepsTasksEnd(s, a);
      TaskStepReloads(s, a);
      StepDrains(s, a, [], Apply(s, a));
      acts, r := [a] + [], Apply(s, a);
    }
  }

  /** Every failed PLAY starts its re-LOAD. */
  lemma {:induction false} FinishFailedPlays(s: Session) returns (acts: seq<Action>, r: Session)
    requires Live(s) && s.gen.worker.Ready?
    ensures DrainsTo(s, acts, r) && Live(r) && r.gen.worker.Ready? && TasksEnd(r) == TasksEnd(s)
    ensures forall t :: t in r.cmds.tasks ==> !r.cmds.tasks[t].phase.Respawn?
    decreases s.cmds.tasks.Keys
  {
    if t :| t in s.cmds.tasks && s.cmds.tasks[t].phase.Respawn? {
      var free := NewNumber(s.re.flows.Keys);
      var a := PlayFailed(t, free);
      NextTaskIsNearer(s, t, free);
      DrainKeepsLive(s, a);
      SpawnKeepsTasksEnd(s, a);
      acts, r := FinishFailedPlays(Apply(s, a));
      StepDrains(s, a, acts, r);
      acts := [a] + acts;
    } else {
      acts, r := [], s;
    }
  }

  /** All tasks first, then all flows. */
  lemma FinishAll(s: Session) returns (acts: seq<Action>, r: Session)
    requires Live(s)
    ensures DrainsTo(s, acts, r) && Live(r) && Quiet(r)
  {
    var a, m := FinishWorker(s);
    var b, n := FinishTasks(m);
    var c, e := FinishFlows(n);
    DrainConcat(s, a, m, b, n);
    DrainConcat(s, a + b, n, c, e);
    NothingUnfinished(e);
    acts, r := a + b + c, e;
  }

  /** Without flows no LOAD is left. */
  lemma NothingUnfinished(s: Session)
    requires Live(s) && s.re.flows == map[]
    ensures forall h :: h in s.re.loads ==> s.re.loads[h].phase.Finished?
  {
    LiveFacts(s);
    forall h | h in s.re.loads
      ensures s.re.loads[h].phase.Finished?
    {
      assert !Unfinished(s.re, h);
    }
  }

  // ----- exactly the possible ends --------------------------------------------------------------------

  /** Some draining run from `s` comes to rest with Cast playing (`b`) or silent (`!b`). */
  ghost predicate Ends(s: Session, b: bool) {
    exists acts, r :: DrainsTo(s, acts, r) && Quiet(r) && r.cast.playing == b
  }

  lemma EndWasPossible(s: Session, acts: seq<Action>, r: Session)
    requires Live(s) && DrainsTo(s, acts, r) && Quiet(r)
    ensures CanEnd(s, r.cast.playing)
  {
    DrainingStaysLive(s, acts, r);
    QuietEnd(r);
    DrainingShrinksEnds(s, acts, r.cast.playing);
  }

  lemma OnlyEndFollows(s: Session, b: bool) returns (acts: seq<Action>, r: Session)
    requires Live(s) && !CanEnd(s, !b)
    ensures DrainsTo(s, acts, r) && Quiet(r) && r.cast.playing == b
  {
    acts, r := FinishAll(s);
    EndWasPossible(s, acts, r);
  }

  /** No re-LOAD is left when the worker, the failed PLAYs and the flows are finished. */
  lemma ReloadsFinished(s: Session)
    requires Live(s) && s.gen.worker.Ready? && s.re.flows == map[]
    requires forall t :: t in s.cmds.tasks ==> !s.cmds.tasks[t].phase.Respawn?
    ensures ReloadsEnd(s).None?
  {
    NothingUnfinished(s);
  }

  lemma FinishReloads(s: Session) returns (acts: seq<Action>, r: Session)
    requires Live(s)
    ensures DrainsTo(s, acts, r) && Live(r) && TasksEnd(r) == TasksEnd(s) && ReloadsEnd(r).None?
  {
    var x, l := FinishWorker(s);
    var y, m := FinishFailedPlays(l);
    var z, n := FinishFlows(m);
    ReloadsFinished(n);
    DrainConcat(s, x, l, y, m);
    DrainConcat(s, x + y, m, z, n);
    acts, r := x + y + z, n;
  }

  /** The last PAUSE or PLAY comes last when the flows go first. */
  lemma TasksCanBeLast(s: Session, b: bool) returns (acts: seq<Action>, r: Session)
    requires Live(s) && TasksEnd(s) == Some(b)
    ensures DrainsTo(s, acts, r) && Quiet(r) && r.cast.playing == b
  {
    var x, m := FinishReloads(s);
    var y, e := OnlyEndFollows(m, b);
    DrainConcat(s, x, m, y, e);
    acts, r := x + y, e;
  }

  lemma FinishCommands(s: Session) returns (acts: seq<Action>, r: Session)
    requires Live(s)
    ensures DrainsTo(s, acts, r) && Live(r) && ReloadsEnd(r) == ReloadsEnd(s) && TasksEnd(r).None?
  {
    var x, l := FinishWorker(s);
    var y, m := FinishTasks(l);
    DrainConcat(s, x, l, y, m);
    acts, r := x + y, m;
  }

  /** The last LOAD or STOP comes last when the tasks go first. */
  lemma ReloadsCanBeLast(s: Session, b: bool) returns (acts: seq<Action>, r: Session)
    requires Live(s) && ReloadsEnd(s) == Some(b)
    ensures DrainsTo(s, acts, r) && Quiet(r) && r.cast.playing == b
  {
    var x, m := FinishCommands(s);
    var y, e := OnlyEndFollows(m, b);
    DrainConcat(s, x, m, y, e);
    acts, r := x + y, e;
  }

  lemma PossibleEndFollows(s: Session, b: bool)
    requires Live(s) && CanEnd(s, b)
    ensures Ends(s, b)
  {
    if TasksEnd(s) == Some(b) {
      var acts, r := TasksCanBeLast(s, b);
    } else if ReloadsEnd(s) == Some(b) {
      var acts, r := ReloadsCanBeLast(s, b);
    } else {
      var acts, r := OnlyEndFollows(s, b);
    }
  }

  /**
   In every reachable state of a live session: draining can end with Cast playing, or silent, exactly
   when the last PAUSE or PLAY ahead does that, or the last LOAD or STOP ahead does, or none is ahead
   and Cast does that already.
   */
  lemma EndsIff(states: seq<Session>, acts: seq<Action>, n: nat, b: bool)
    requires Run(states, acts) && n < |states| && states[n].gen.live
    ensures Ends(states[n], b) <==> CanEnd(states[n], b)
  {
    var s := states[n];
    RunIsLive(states, acts, n);
    if CanEnd(s, b) {
      PossibleEndFollows(s, b);
    }
    if Ends(s, b) {
      var more, r :| DrainsTo(s, more, r) && Quiet(r) && r.cast.playing == b;
      EndWasPossible(s, more, r);
    }
  }

  /** Cast ends as the flag says in whatever order everything finishes. */
  ghost predicate SettlesOnFlag(s: Session) {
    forall acts, r :: DrainsTo(s, acts, r) && Quiet(r) ==> (r.cast.playing <==> !s.gen.ledger.paused)
  }

  /**
   A resumed session (flag clear) may stay silent exactly when a PAUSE is on the wire and no PLAY is
   ahead, or a LOAD that saw the flag still has its STOP to send and no LOAD is ahead, or Cast is
   silent with neither a PLAY nor a LOAD ahead.
   */
  lemma ResumedSettlesIff(states: seq<Session>, acts: seq<Action>, n: nat)
    requires Run(states, acts) && n < |states| && states[n].gen.live && !states[n].gen.ledger.paused
    ensures var s := states[n];
            var plays := CommandAhead(s.cmds, true) || s.gen.worker.SpawnPlay?;
            !SettlesOnFlag(s) <==>
              || (CommandOnWire(s.cmds, false) && !plays)
              || (R.PausedLoadPending(s) && !LoadAhead(s))
              || (!s.cast.playing && !plays && !LoadAhead(s))
  {
    EndsIff(states, acts, n, false);
  }

  /**
   A paused session may go on playing exactly when a PLAY is on the wire and no PAUSE is ahead, or a
   rollover LOAD is ahead, or Cast plays and neither a PAUSE nor the STOP of a paused LOAD is ahead.
   */
  lemma PausedSettlesIff(states: seq<Session>, acts: seq<Action>, n: nat)
    requires Run(states, acts) && n < |states| && states[n].gen.live && states[n].gen.ledger.paused
    ensures var s := states[n];
            !SettlesOnFlag(s) <==>
              || (CommandOnWire(s.cmds, true) && !CommandAhead(s.cmds, false))
              || RolloverAhead(s.re)
              || (s.cast.playing && !CommandAhead(s.cmds, false) && !R.PausedLoadPending(s))
  {
    EndsIff(states, acts, n, true);
  }
}
