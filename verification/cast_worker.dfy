/**
 The warm Cast worker of one device: the media session it tracks, the ownership probe with its loss
 streak, the heartbeat PING, and LOADs that their caller may abandon. What the wire answers is a
 parameter of each operation; times are milliseconds.
 */
module CastWorker {
  import opened Common

  /** A media session on the device (transport, application session and media session id). */
  type Session = nat
  type Request = string

  const OWNERSHIP_GRACE := 3_000
  const OWNERSHIP_LOSS_CONFIRMATIONS := 2
  const BUFFERING_STUCK_PROBES := 3
  const RECENT_LOAD_GUARD := 10_000
  const HEARTBEAT_INTERVAL := 4_000
  const U8_MAX := 255

  function SaturatingAdd1(x: nat): nat {
    if x < U8_MAX then x + 1 else U8_MAX
  }

  /** The fields of the worker, and what it sent: ownership losses to the bridge, STOPs to Cast. */
  datatype View = View(
    active: Option<Session>,
    since: int,
    lossStreak: nat,
    bufferingStreak: nat,
    reloadAttempted: bool,
    standDown: bool,
    connected: bool,
    lastLoad: Option<Request>,
    lastLoadAt: Option<int>,
    nextPingAt: int,
    nextProbeAt: int,
    lost: nat,
    stops: seq<Session>
  )

  predicate Init(v: View) {
    && v.active.None? && v.lossStreak == 0 && v.bufferingStreak == 0 && !v.reloadAttempted && !v.standDown
    && v.lastLoad.None? && v.lastLoadAt.None? && v.lost == 0 && v.stops == []
  }

  // ----- ownership policy ---------------------------------------------------------------------

  datatype Failure = Transport | Parse
  datatype IdleReason = Interrupted | Recoverable

  /** Answers of the receiver and media status queries of one probe. */
  datatype Probe = Probe(
    listed: bool, present: Option<bool>, idle: Option<IdleReason>, buffering: bool, failure: Option<Failure>)

  datatype Verdict = Owned | LostSignal | Inconclusive | SuspectReconnect | AttemptReload

  function RecoverableOrLost(reloadAttempted: bool, loadWithinGuard: bool): Verdict {
    if loadWithinGuard then Inconclusive else if reloadAttempted then LostSignal else AttemptReload
  }

  function OwnershipAction(p: Probe, bufferingStreak: nat, reloadAttempted: bool, loadWithinGuard: bool): Verdict {
    match p.failure
    case Some(Parse) => Inconclusive
    case Some(Transport) => SuspectReconnect
    case None =>
      if p.idle == Some(Interrupted) then LostSignal
      else if p.idle == Some(Recoverable) then RecoverableOrLost(reloadAttempted, loadWithinGuard)
      else if p.buffering && bufferingStreak >= BUFFERING_STUCK_PROBES then
        RecoverableOrLost(reloadAttempted, loadWithinGuard)
      else if p.present == Some(false) then LostSignal
      else if p.present == Some(true) || p.listed then Owned
      else LostSignal
  }

  // ----- the worker's operations on its view ---------------------------------------------------

  function ClearActive(v: View): View {
    v.(active := None, lossStreak := 0, bufferingStreak := 0, reloadAttempted := false)
  }

  function SetActive(v: View, s: Session, now: int): View {
    v.(active := Some(s), since := now, lossStreak := 0, bufferingStreak := 0, reloadAttempted := false,
       standDown := false)
  }

  /** ensure_connected without a connection; a new connection has just sent a PING. */
  function Reconnected(v: View, ok: bool, now: int): View {
    if ok then v.(connected := true, nextPingAt := now + HEARTBEAT_INTERVAL) else v.(connected := false)
  }

  /** handle_stop; `ok`: the connections the STOP needs could be opened. */
  function Stopped(v: View, ok: bool): View {
    var cleared := ClearActive(v);
    if v.active.None? || !v.connected then cleared
    else if ok then cleared.(stops := v.stops + [v.active.value])
    else cleared.(connected := false)
  }

  function DeclareLost(v: View): View {
    ClearActive(v).(lost := v.lost + 1)
  }

  function NoteLost(v: View): View {
    var u := v.(lossStreak := SaturatingAdd1(v.lossStreak));
    if u.lossStreak < OWNERSHIP_LOSS_CONFIRMATIONS then u else DeclareLost(u)
  }

  /** What Cast does with a LOAD: the first try, one reconnect, the retry. */
  datatype Wire = Wire(first: Option<Session>, reconnect: bool, retry: Option<Session>, stopOk: bool)

  datatype LoadOutcome = LoadOutcome(view: View, session: Option<Session>)

  /**
   The caller sets the abandon flag once, at any time; `flag` is the number of the first read that
   sees it: 0 after a failed try, 1 before the retry, 2 before and 3 after the session is installed,
   4 when the answer is delivered.
   */
  function CommitLoad(v: View, s: Session, now: int, flag: nat, stopOk: bool): LoadOutcome {
    if flag <= 2 then LoadOutcome(Stopped(v.(active := Some(s)), stopOk), None)
    else if flag <= 3 then LoadOutcome(Stopped(SetActive(v, s, now), stopOk), None)
    else LoadOutcome(SetActive(v, s, now), Some(s))
  }

  function HandleLoad(v0: View, request: Request, now: int, w: Wire, flag: nat): LoadOutcome {
    var v := v0.(lastLoad := Some(request), lastLoadAt := Some(now));
    if v.connected && w.first.Some? then CommitLoad(v, w.first.value, now, flag, w.stopOk)
    else if flag <= 0 then LoadOutcome(v, None)
    else
      var u := Reconnected(v, w.reconnect, now);
      if !w.reconnect || flag <= 1 || w.retry.None? then LoadOutcome(u, None)
      else CommitLoad(u, w.retry.value, now, flag, w.stopOk)
  }

  /** The Load command: `fired` is the hard deadline, `open` the caller's reply channel. */
  function LoadCommand(v: View, request: Request, now: int, w: Wire, flag: nat, fired: bool, open: bool): LoadOutcome {
    var h := HandleLoad(v, request, now, w, flag);
    var u := if fired then h.view.(connected := false) else h.view;
    if (flag <= 4 || !open) && u.active.Some? then LoadOutcome(Stopped(u, w.stopOk), None)
    else LoadOutcome(u, if flag <= 4 || !open then None else h.session)
  }

  const NEVER: nat := 5

  /** try_internal_reload: the last LOAD again; nobody can abandon it. */
  function InternalReload(v: View, now: int, w: Wire): LoadOutcome {
    if v.lastLoad.None? then LoadOutcome(v, None) else HandleLoad(v, v.lastLoad.value, now, w, NEVER)
  }

  /** One internal re-LOAD for recoverable trouble; a failure counts as a loss signal. */
  function Recovery(v: View, now: int, w: Wire): View {
    var r := InternalReload(v, now, w);
    if r.session.Some? then r.view.(reloadAttempted := false, lossStreak := 0, bufferingStreak := 0)
    else NoteLost(r.view.(reloadAttempted := true))
  }

  predicate LoadWithinGuard(v: View, now: int) {
    v.lastLoadAt.Some? && now - v.lastLoadAt.value < RECENT_LOAD_GUARD
  }

  predicate Probes(v: View, now: int) {
    v.active.Some? && !v.standDown && now - v.since >= OWNERSHIP_GRACE && v.connected
  }

  function CountBuffering(v: View, p: Probe): View {
    v.(bufferingStreak := if p.buffering then SaturatingAdd1(v.bufferingStreak) else 0)
  }

  function ProbeVerdict(v: View, p: Probe, now: int): Verdict {
    OwnershipAction(p, CountBuffering(v, p).bufferingStreak, v.reloadAttempted, LoadWithinGuard(v, now))
  }

  function CheckOwnership(v: View, p: Probe, now: int, w: Wire): View {
    if v.active.None? || v.standDown then v.(lossStreak := 0, bufferingStreak := 0)
    else if !Probes(v, now) then v
    else
      var u := CountBuffering(v, p);
      match ProbeVerdict(v, p, now)
      case Owned => u.(lossStreak := 0, reloadAttempted := false)
      case Inconclusive => u
      case SuspectReconnect => Reconnected(u, w.reconnect, now)
      case LostSignal => NoteLost(u)
      case AttemptReload => Recovery(u, now, w)
  }

  /**
   One idle tick: `now` is its first look at the clock and `later` the one before the probe; the PING
   is answered or not, and a reconnect succeeds or not.
   */
  datatype Tick = Tick(now: int, pingOk: bool, reconnect: bool, later: int, probe: Probe, wire: Wire)

  /** A PING that fails is a loss signal only when the reconnect fails too. */
  function HeartbeatPing(v0: View, t: Tick): View {
    var v := v0.(nextPingAt := t.now + HEARTBEAT_INTERVAL);
    if !v.connected || t.pingOk then v
    else if t.reconnect || v.active.None? then Reconnected(v, t.reconnect, t.later)
    else NoteLost(v.(connected := false))
  }

  predicate PingDue(v: View, t: Tick) {
    v.connected && t.now >= v.nextPingAt
  }

  predicate ProbeDue(v: View, t: Tick) {
    v.connected && t.later >= v.nextProbeAt
  }

  function AfterPing(v: View, t: Tick): View {
    if PingDue(v, t) then HeartbeatPing(v, t) else v
  }

  function Probed(v: View, t: Tick): View {
    CheckOwnership(v.(nextProbeAt := t.later + HEARTBEAT_INTERVAL), t.probe, t.later, t.wire)
  }

  /** on_idle_tick: a disconnected worker only tries to reconnect; else the PING, then the probe. */
  function IdleTicked(v: View, t: Tick): View {
    if !v.connected then Reconnected(v, t.reconnect, t.now)
    else if ProbeDue(v, t) then Probed(AfterPing(v, t), t)
    else AfterPing(v, t)
  }

  /** handle_adopt: a failed read drops the connection, a failed connect changes nothing else. */
  function Adopted(v: View, session: Option<Session>, load: Option<Request>, now: int, reconnect: bool): View {
    var u := if v.connected then v else Reconnected(v, reconnect, now);
    if !u.connected then u
    else if session.None? then ClearActive(u).(connected := false)
    else SetActive(u.(lastLoad := load, lastLoadAt := Some(now)), session.value, now)
  }

  // ----- runs ---------------------------------------------------------------------------------

  datatype Action =
    | Load(request: Request, now: int, wire: Wire, flag: nat, fired: bool, open: bool)
    | Stop(ok: bool)                          // STOP, also best effort
    | TakeSession
    | Adopt(session: Option<Session>, load: Option<Request>, now: int, reconnect: bool)
    | IdleTick(tick: Tick)
    | DropDevice(reconnect: bool, now: int)   // endpoint update, shutdown
    | Reconnect(ok: bool, now: int)           // by a command that needs the link
    | LinkDown                                // hard deadline, failed command
    | BridgeEnded                             // ownership_stand_down, set by the bridge

  function Apply(v: View, a: Action): View {
    match a
    case Load(request, now, w, flag, fired, open) => LoadCommand(v, request, now, w, flag, fired, open).view
    case Stop(ok) => Stopped(v, ok)
    case TakeSession => if v.active.None? then v else ClearActive(v).(standDown := true)
    case Adopt(session, load, now, reconnect) => Adopted(v, session, load, now, reconnect)
    case IdleTick(t) => IdleTicked(v, t)
    case DropDevice(reconnect, now) => Reconnected(ClearActive(v), reconnect, now)
    case Reconnect(ok, now) => if v.connected then v else Reconnected(v, ok, now)
    case LinkDown => v.(connected := false)
    case BridgeEnded => v.(standDown := true)
  }

  ghost predicate Run(states: seq<View>, acts: seq<Action>) {
    && |states| == |acts| + 1
    && Init(states[0])
    && forall i :: 0 <= i < |acts| ==> states[i + 1] == Apply(states[i], acts[i])
  }

  // ----- ownership loss is evidenced -----------------------------------------------------------

  predicate ReloadFails(v: View, t: Tick) {
    && ProbeVerdict(v, t.probe, t.later).AttemptReload?
    && InternalReload(CountBuffering(v, t.probe), t.later, t.wire).session.None?
  }

  predicate DeadPing(v: View, t: Tick) {
    PingDue(v, t) && v.active.Some? && !t.pingOk && !t.reconnect
  }

  /** The probe of this tick asks Cast about the session. */
  predicate TickProbes(v: View, t: Tick) {
    ProbeDue(v, t) && Probes(AfterPing(v, t), t.later)
  }

  function TickVerdict(v: View, t: Tick): Verdict {
    ProbeVerdict(AfterPing(v, t), t.probe, t.later)
  }

  predicate ProbeSignals(v: View, t: Tick) {
    TickProbes(v, t) && (TickVerdict(v, t).LostSignal? || ReloadFails(AfterPing(v, t), t))
  }

  /** A step that is evidence of a loss: a dead link, a lost probe, a failed internal re-LOAD. */
  predicate LossSignal(v: View, a: Action) {
    a.IdleTick? && (DeadPing(v, a.tick) || ProbeSignals(v, a.tick))
  }

  predicate ProbedOwned(v: View, a: Action) {
    a.IdleTick? && TickProbes(v, a.tick) && TickVerdict(v, a.tick).Owned?
  }

  predicate LoadSucceeds(v: View, a: Action) {
    a.Load? && HandleLoad(v, a.request, a.now, a.wire, a.flag).session.Some?
  }

  predicate ReloadRecovers(v: View, a: Action) {
    && a.IdleTick? && TickProbes(v, a.tick) && TickVerdict(v, a.tick).AttemptReload?
    && !ReloadFails(AfterPing(v, a.tick), a.tick)
  }

  predicate Adopts(v: View, a: Action) {
    a.Adopt? && (v.connected || a.reconnect)
  }

  /** A session is installed: a LOAD, a recovered re-LOAD, or one taken over from another host. */
  predicate Installs(v: View, a: Action) {
    LoadSucceeds(v, a) || ReloadRecovers(v, a) || (Adopts(v, a) && a.session.Some?)
  }

  /** The session the wire reported as loaded, if the LOAD got that far. */
  function Loaded(v: View, w: Wire, flag: nat): Option<Session> {
    if v.connected && w.first.Some? then w.first
    else if flag >= 2 && w.reconnect then w.retry
    else None
  }

  /** The probe of the tick finds nothing to guard: no session, or one the bridge has ended. */
  predicate StandsDown(v: View, t: Tick) {
    ProbeDue(v, t) && (AfterPing(v, t).active.None? || v.standDown)
  }

  /** A step that forgets earlier signals: the session goes, a new one comes, or it is not in dispute. */
  predicate ForgetsSignals(v: View, a: Action) {
    match a
    case Load(_, _, w, flag, _, open) => Loaded(v, w, flag).Some? || flag <= 4 || !open
    case Stop(_) => true
    case TakeSession => true
    case Adopt(_, _, _, _) => Adopts(v, a)
    case IdleTick(t) => StandsDown(v, t) || ProbedOwned(v, a) || ReloadRecovers(v, a)
    case DropDevice(_, _) => true
    case _ => false
  }

  predicate SendsLost(v: View, a: Action) {
    Apply(v, a).lost > v.lost
  }

  predicate StreakInv(v: View) {
    v.lossStreak <= 1 && (v.lossStreak == 1 ==> v.active.Some?)
  }

  /** What one step does to the streak: a loss is sent exactly by the second signal. */
  ghost predicate CountsSignals(v: View, a: Action) {
    var u := Apply(v, a);
    && StreakInv(u)
    && (SendsLost(v, a) <==> LossSignal(v, a) && v.lossStreak == 1)
    && (SendsLost(v, a) ==> u.active.None?)
    && (u.lossStreak == 1 <==> !ForgetsSignals(v, a) && (LossSignal(v, a) <==> v.lossStreak == 0))
    && (LossSignal(v, a) ==> v.active.Some?)
    && (u.lossStreak == 1 ==> u.active == v.active)
    && (u.active.Some? && v.active.None? ==> Installs(v, a))
    && (Installs(v, a) ==> ForgetsSignals(v, a))
  }

  lemma LoadLeavesStreak(v: View, request: Request, now: int, w: Wire, flag: nat)
    ensures var r := HandleLoad(v, request, now, w, flag);
            && r.view.lost == v.lost
            && (r.session.Some? ==> r.view.active == r.session && r.view.lossStreak == 0)
            && (r.view.active.None? ==> r.view.lossStreak == 0 || v.active.None?)
            && (r.session.None? && r.view.active.Some? ==>
                  r.view.active == v.active && r.view.lossStreak == v.lossStreak)
            && (flag >= NEVER ==> r.session.Some? || (r.view.active == v.active && r.view.lossStreak == v.lossStreak))
  {
  }

  /** The probe part of a tick. */
  lemma ProbeCountsSignals(v: View, t: Tick)
    requires StreakInv(v)
    ensures var u := CheckOwnership(v, t.probe, t.later, t.wire);
            var probes, verdict := Probes(v, t.later), ProbeVerdict(v, t.probe, t.later);
            var signal := probes && (verdict.LostSignal? || ReloadFails(v, t));
            var recovers := probes && verdict.AttemptReload? && !ReloadFails(v, t);
            var forgets := v.active.None? || v.standDown || (probes && verdict.Owned?) || recovers;
            && StreakInv(u)
            && (u.lost > v.lost <==> signal && v.lossStreak == 1)
            && (u.lost > v.lost ==> u.active.None?)
            && (u.lossStreak == 1 <==> !forgets && (signal <==> v.lossStreak == 0))
            && (u.lossStreak == 1 ==> u.active == v.active)
            && (u.active.Some? && v.active.None? ==> recovers)
            && u.lost >= v.lost
  {
    var u := CountBuffering(v, t.probe);
    if Probes(v, t.later) && ProbeVerdict(v, t.probe, t.later).AttemptReload? && v.lastLoad.Some? {
      LoadLeavesStreak(u, v.lastLoad.value, t.later, t.wire, NEVER);
    }
  }

  /** The PING part of a tick. */
  lemma PingCountsSignals(v: View, t: Tick)
    requires StreakInv(v)
    ensures var u := AfterPing(v, t);
            && StreakInv(u) && u.standDown == v.standDown && u.nextProbeAt == v.nextProbeAt && u.lost >= v.lost
            && (u.lost > v.lost <==> DeadPing(v, t) && v.lossStreak == 1)
            && (u.lost > v.lost ==> u.active.None?) && (u.lost == v.lost ==> u.active == v.active)
            && (u.lossStreak == 1 <==> (DeadPing(v, t) <==> v.lossStreak == 0))
            && (DeadPing(v, t) ==> !u.connected)
  {
  }

  lemma ProbingTickCountsSignals(v: View, a: Action)
    requires StreakInv(v) && a.IdleTick? && ProbeDue(v, a.tick)
    ensures CountsSignals(v, a)
  {
    var t := a.tick;
    var u := AfterPing(v, t);
    PingCountsSignals(v, t);
    SameProbe(u, t);
    ProbeCountsSignals(u.(nextProbeAt := t.later + HEARTBEAT_INTERVAL), t);
    var r := CheckOwnership(u.(nextProbeAt := t.later + HEARTBEAT_INTERVAL), t.probe, t.later, t.wire);
    assert Apply(v, a) == r;
    assert LossSignal(v, a) <==> DeadPing(v, t) || ProbeSignals(v, t);
    assert ForgetsSignals(v, a) <==> StandsDown(v, t) || ProbedOwned(v, a) || ReloadRecovers(v, a);
  }

  lemma TickCountsSignals(v: View, a: Action)
    requires StreakInv(v) && a.IdleTick?
    ensures CountsSignals(v, a)
  {
    if ProbeDue(v, a.tick) {
      ProbingTickCountsSignals(v, a);
    } else {
      PingCountsSignals(v, a.tick);
    }
  }

  /** The next probe time matters to no part of the probe itself. */
  lemma SameProbe(v: View, t: Tick)
    ensures var u := v.(nextProbeAt := t.later + HEARTBEAT_INTERVAL);
            && Probes(u, t.later) == Probes(v, t.later)
            && ProbeVerdict(u, t.probe, t.later) == ProbeVerdict(v, t.probe, t.later)
            && ReloadFails(u, t) == ReloadFails(v, t)
  {
  }

  lemma LoadCountsSignals(v: View, a: Action)
    requires StreakInv(v) && a.Load?
    ensures CountsSignals(v, a)
  {
    LoadLeavesStreak(v, a.request, a.now, a.wire, a.flag);
    var h := HandleLoad(v, a.request, a.now, a.wire, a.flag);
    var u := LoadCommand(v, a.request, a.now, a.wire, a.flag, a.fired, a.open).view;
    assert u.lost == v.lost && (u.active.Some? ==> u.active == h.view.active && u.lossStreak == h.view.lossStreak);
  }

  lemma CommandCountsSignals(v: View, a: Action)
    requires StreakInv(v) && !a.IdleTick? && !a.Load?
    ensures CountsSignals(v, a)
  {
  }

  lemma LossStep(v: View, a: Action)
    requires StreakInv(v)
    ensures CountsSignals(v, a)
  {
    if a.IdleTick? {
      TickCountsSignals(v, a);
    } else if a.Load? {
      LoadCountsSignals(v, a);
    } else {
      CommandCountsSignals(v, a);
    }
  }

  lemma {:induction false} StreakIsBounded(states: seq<View>, acts: seq<Action>, n: nat)
    requires Run(states, acts) && n < |states|
    ensures StreakInv(states[n])
  {
    if n > 0 {
      StreakIsBounded(states, acts, n - 1);
      LossStep(states[n - 1], acts[n - 1]);
    }
  }

  lemma LossStepOfRun(states: seq<View>, acts: seq<Action>, n: nat)
    requires Run(states, acts) && n < |acts|
    ensures CountsSignals(states[n], acts[n]) && states[n + 1] == Apply(states[n], acts[n]) && StreakInv(states[n])
  {
    StreakIsBounded(states, acts, n);
    LossStep(states[n], acts[n]);
  }

  /** What the count of signals depends on, before one step. */
  datatype Mark = Mark(streak: nat, active: Option<Session>, signal: bool, forgets: bool, installs: bool)

  function MarkOf(v: View, a: Action): Mark {
    Mark(v.lossStreak, v.active, LossSignal(v, a), ForgetsSignals(v, a), Installs(v, a))
  }

  predicate MarkStep(m: Mark, n: Mark) {
    && (n.streak == 1 <==> !m.forgets && (m.signal <==> m.streak == 0))
    && n.streak <= 1 && (n.streak == 1 ==> n.active == m.active && n.active.Some?)
    && (m.signal && m.streak == 1 ==> n.active.None?)
    && (n.active.Some? && m.active.None? ==> m.installs)
    && (m.installs ==> m.forgets)
  }

  ghost predicate Trace(t: seq<Mark>) {
    && (t != [] ==> t[0].streak == 0)
    && forall k :: 0 <= k < |t| - 1 ==> MarkStep(t[k], t[k + 1])
  }

  lemma TraceOf(states: seq<View>, acts: seq<Action>) returns (t: seq<Mark>)
    requires Run(states, acts)
    ensures |t| == |acts| && Trace(t) && forall k :: 0 <= k < |acts| ==> t[k] == MarkOf(states[k], acts[k])
  {
    t := seq(|acts|, k requires 0 <= k < |acts| => MarkOf(states[k], acts[k]));
    forall k | 0 <= k < |t| - 1
      ensures MarkStep(t[k], t[k + 1])
    {
      MarksOfStep(states, acts, k);
    }
  }

  lemma MarksOfStep(states: seq<View>, acts: seq<Action>, k: nat)
    requires Run(states, acts) && k + 1 < |acts|
    ensures MarkStep(MarkOf(states[k], acts[k]), MarkOf(states[k + 1], acts[k + 1]))
  {
    LossStepOfRun(states, acts, k);
  }

  lemma {:induction false} NoSessionUninstalled(t: seq<Mark>, i: nat, j: nat)
    requires Trace(t) && i <= j < |t| && t[i].active.None? && forall k :: i <= k < j ==> !t[k].installs
    ensures t[j].active.None?
    decreases j - i
  {
    if i < j {
      NoSessionUninstalled(t, i, j - 1);
      assert MarkStep(t[j - 1], t[j - 1 + 1]);
    }
  }

  lemma StreakOfTrace(t: seq<Mark>, i: nat)
    requires Trace(t) && i < |t|
    ensures t[i].streak <= 1
  {
    if i > 0 {
      assert MarkStep(t[i - 1], t[i - 1 + 1]);
    }
  }

  lemma {:induction false} FirstSignal(t: seq<Mark>, n: nat) returns (i: nat)
    requires Trace(t) && n < |t| && t[n].streak == 1
    ensures i < n && t[i].signal && forall k :: i <= k < n ==> !t[k].forgets
    ensures forall k :: i <= k <= n ==> t[k].active == t[n].active
  {
    StreakOfTrace(t, n - 1);
    assert MarkStep(t[n - 1], t[n - 1 + 1]);
    if t[n - 1].signal {
      i := n - 1;
    } else {
      i := FirstSignal(t, n - 1);
    }
  }

  /** A standing signal is counted, unless a loss was sent for it and no session came since. */
  lemma {:induction false} StandingIsCounted(t: seq<Mark>, i: nat, n: nat)
    requires Trace(t) && i < n < |t| && t[i].signal && forall k :: i <= k < n ==> !t[k].forgets
    ensures t[n].streak == 1 || t[n].active.None?
    decreases n
  {
    assert MarkStep(t[n - 1], t[n - 1 + 1]);
    if i < n - 1 {
      StandingIsCounted(t, i, n - 1);
    } else {
      StreakOfTrace(t, i);
    }
  }

  /** A signal at `i` that no step from `i` up to `n` forgets. */
  ghost predicate StandsUntil(states: seq<View>, acts: seq<Action>, i: nat, n: nat)
    requires |states| == |acts| + 1 && n < |states|
  {
    i < n && LossSignal(states[i], acts[i]) && forall k :: i <= k < n ==> !ForgetsSignals(states[k], acts[k])
  }

  /**
   Exactly when a loss is sent: by a loss signal, when an earlier signal still stands; and then the
   same session was tracked from that signal on.
   */
  lemma LossIsEvidenced(states: seq<View>, acts: seq<Action>, n: nat)
    requires Run(states, acts) && n < |acts|
    ensures SendsLost(states[n], acts[n])
            <==> LossSignal(states[n], acts[n]) && exists i :: StandsUntil(states, acts, i, n)
    ensures SendsLost(states[n], acts[n]) ==>
              states[n].active.Some? &&
              exists i: nat :: StandsUntil(states, acts, i, n)
                               && forall k :: i <= k <= n ==> states[k].active == states[n].active
  {
    LossStepOfRun(states, acts, n);
    var t := TraceOf(states, acts);
    assert t[n] == MarkOf(states[n], acts[n]);
    if SendsLost(states[n], acts[n]) {
      var i := FirstSignal(t, n);
      SignalOfTrace(states, acts, t, i, n);
    }
    if i: nat :| LossSignal(states[n], acts[n]) && StandsUntil(states, acts, i, n) {
      SignalOfTrace(states, acts, t, i, n);
      StandingIsCounted(t, i, n);
    }
  }

  lemma SignalOfTrace(states: seq<View>, acts: seq<Action>, t: seq<Mark>, i: nat, n: nat)
    requires |states| == |acts| + 1 == |t| + 1 && i < n < |acts|
    requires forall k :: 0 <= k < |acts| ==> t[k] == MarkOf(states[k], acts[k])
    ensures StandsUntil(states, acts, i, n) <==> t[i].signal && forall k :: i <= k < n ==> !t[k].forgets
    ensures forall k :: i <= k <= n ==> t[k].active == states[k].active
  {
  }

  /** ... and unique: between two losses a session was installed. */
  lemma OneLossPerSession(states: seq<View>, acts: seq<Action>, m: nat, n: nat)
    requires Run(states, acts) && m < n < |acts|
    ensures SendsLost(states[m], acts[m]) && SendsLost(states[n], acts[n]) ==>
              exists k :: m < k < n && Installs(states[k], acts[k])
  {
    LossStepOfRun(states, acts, m);
    LossStepOfRun(states, acts, n);
    var t := TraceOf(states, acts);
    assert t[m + 1] == MarkOf(states[m + 1], acts[m + 1]) && t[n] == MarkOf(states[n], acts[n]);
    if SendsLost(states[m], acts[m]) && forall k :: m + 1 <= k < n ==> !t[k].installs {
      NoSessionUninstalled(t, m + 1, n);
      assert !SendsLost(states[n], acts[n]);
    }
    assert forall k :: m < k < n ==> t[k].installs == Installs(states[k], acts[k]);
  }

  // ----- a session the bridge has ended ---------------------------------------------------------

  /**
   Exactly when a session that the bridge has ended is still reported as lost: a PING and the
   reconnect after it fail, and an earlier signal still stands. While the session is ended only dead
   PINGs are signals, and every tick that is due to probe forgets them, its own dead PING included.
   */
  lemma EndedSessionIsLostIff(states: seq<View>, acts: seq<Action>, m: nat, n: nat)
    requires Run(states, acts) && m <= n < |acts| && forall k :: m <= k <= n ==> states[k].standDown
    ensures SendsLost(states[n], acts[n])
            <==> acts[n].IdleTick? && DeadPing(states[n], acts[n].tick) && exists i :: StandsUntil(states, acts, i, n)
    ensures forall k :: m <= k <= n ==>
              (LossSignal(states[k], acts[k]) <==> acts[k].IdleTick? && DeadPing(states[k], acts[k].tick))
    ensures forall k :: m <= k <= n && acts[k].IdleTick? ==>
              (ForgetsSignals(states[k], acts[k]) <==> ProbeDue(states[k], acts[k].tick))
  {
    LossIsEvidenced(states, acts, n);
    forall k | m <= k <= n && acts[k].IdleTick?
      ensures LossSignal(states[k], acts[k]) <==> DeadPing(states[k], acts[k].tick)
      ensures ForgetsSignals(states[k], acts[k]) <==> ProbeDue(states[k], acts[k].tick)
    {
      assert AfterPing(states[k], acts[k].tick).standDown;
    }
  }

  function Silence(now: int, reconnect: bool): Action {
    IdleTick(Tick(now, false, reconnect, now, Probe(false, None, None, false, None), Wire(None, false, None, false)))
  }

  /** Session 1, loaded at time 0 by a worker that connected at time 0. */
  function Tracking(streak: nat, ended: bool, up: bool, nextPing: int, nextProbe: int): View {
    View(Some(1), 0, streak, 0, false, ended, up, Some("song"), Some(0), nextPing, nextProbe, 0, [])
  }

  function LoadSong(): Action {
    Load("song", 0, Wire(Some(1), false, None, false), NEVER, false, true)
  }

  function Connected0(): View {
    View(None, 0, 0, 0, false, false, true, None, None, 4_000, 0, 0, [])
  }

  /** The tracked session is gone, and its loss was sent. */
  function LostSong(): View {
    ClearActive(Tracking(1, true, false, 12_050, 12_050)).(lost := 1)
  }

  lemma SongIsTracked()
    ensures Apply(Connected0(), LoadSong()) == Tracking(0, false, true, 4_000, 0)
    ensures Apply(Tracking(0, false, true, 4_000, 0), Silence(100, false)) == Tracking(0, false, true, 4_000, 4_100)
  {
  }

  lemma FirstPingDies()
    ensures Apply(Tracking(0, true, true, 4_000, 4_100), Silence(4_000, false)) == Tracking(1, true, false, 8_000, 4_100)
    ensures Apply(Tracking(1, true, false, 8_000, 4_100), Silence(4_050, true)) == Tracking(1, true, true, 8_050, 4_100)
  {
  }

  lemma SecondPingDies()
    ensures Apply(Tracking(1, true, true, 8_050, 4_100), Silence(8_050, false)) == LostSong()
    ensures SendsLost(Tracking(1, true, true, 8_050, 4_100), Silence(8_050, false))
  {
  }

  /** Every step after `m` is an idle tick of a stood-down worker, and the last one sends a loss. */
  ghost predicate LosesAfterEnd(states: seq<View>, acts: seq<Action>, m: nat) {
    && |states| == |acts| + 1 && m < |acts| - 1 && acts[m] == BridgeEnded
    && (forall k :: m < k < |acts| ==> states[k].standDown && acts[k].IdleTick?)
    && SendsLost(states[|acts| - 1], acts[|acts| - 1])
  }

  /**
   A loss of an ended session: the PING at 4 s dies just before the probe is due, the worker
   reconnects at once, and then runs no tick until the next PING, which dies as well.
   */
  lemma EndedSessionCanBeLost()
    ensures exists states: seq<View>, acts: seq<Action>, m: nat :: Run(states, acts) && LosesAfterEnd(states, acts, m)
  {
    var acts := [LoadSong(), Silence(100, false), BridgeEnded, Silence(4_000, false), Silence(4_050, true),
                 Silence(8_050, false)];
    var states := [Connected0(), Tracking(0, false, true, 4_000, 0), Tracking(0, false, true, 4_000, 4_100),
                   Tracking(0, true, true, 4_000, 4_100), Tracking(1, true, false, 8_000, 4_100),
                   Tracking(1, true, true, 8_050, 4_100), LostSong()];
    RunOfLostSong(states, acts);
    SecondPingDies();
    assert LosesAfterEnd(states, acts, 2);
  }

  lemma RunOfLostSong(states: seq<View>, acts: seq<Action>)
    requires acts == [LoadSong(), Silence(100, false), BridgeEnded, Silence(4_000, false), Silence(4_050, true),
                      Silence(8_050, false)]
    requires states == [Connected0(), Tracking(0, false, true, 4_000, 0), Tracking(0, false, true, 4_000, 4_100),
                        Tracking(0, true, true, 4_000, 4_100), Tracking(1, true, false, 8_000, 4_100),
                        Tracking(1, true, true, 8_050, 4_100), LostSong()]
    ensures Run(states, acts)
  {
    forall i | 0 <= i < |acts|
      ensures states[i + 1] == Apply(states[i], acts[i])
    {
      SongIsTracked();
      FirstPingDies();
      SecondPingDies();
      SongEnds();
      assert i == 0 || i == 1 || i == 2 || i == 3 || i == 4 || i == 5;
    }
  }

  lemma SongEnds()
    ensures Apply(Tracking(0, false, true, 4_000, 4_100), BridgeEnded) == Tracking(0, true, true, 4_000, 4_100)
  {
  }

  // ----- internal re-LOADs keep their distance --------------------------------------------------

  predicate InternalLoad(v: View, a: Action) {
    a.IdleTick? && TickProbes(v, a.tick) && TickVerdict(v, a.tick).AttemptReload? && v.lastLoad.Some?
  }

  predicate SendsLoad(v: View, a: Action) {
    a.Load? || InternalLoad(v, a) || (Adopts(v, a) && a.session.Some?)
  }

  predicate Timed(a: Action) {
    a.Load? || a.IdleTick? || a.Adopt?
  }

  function Begin(a: Action): int
    requires Timed(a)
  {
    if a.IdleTick? then a.tick.now else a.now
  }

  /** When the step sends its LOAD, if it does. */
  function SendTime(a: Action): int
    requires Timed(a)
  {
    if a.IdleTick? then a.tick.later else a.now
  }

  /** The clock never goes back. */
  ghost predicate Monotone(acts: seq<Action>) {
    && (forall i :: 0 <= i < |acts| && Timed(acts[i]) ==> Begin(acts[i]) <= SendTime(acts[i]))
    && (forall i, j :: 0 <= i < j < |acts| && Timed(acts[i]) && Timed(acts[j]) ==> SendTime(acts[i]) <= Begin(acts[j]))
  }

  /** When the last LOAD was sent, after the step. */
  function LoadTime(v: View, a: Action): Option<int> {
    if SendsLoad(v, a) then Some(SendTime(a)) else v.lastLoadAt
  }

  lemma LoadSetsTime(v: View, request: Request, now: int, w: Wire, flag: nat)
    ensures HandleLoad(v, request, now, w, flag).view.lastLoadAt == Some(now)
  {
  }

  lemma LoadLoadTime(v: View, a: Action)
    requires a.Load?
    ensures Apply(v, a).lastLoadAt == Some(a.now)
  {
    LoadSetsTime(v, a.request, a.now, a.wire, a.flag);
  }

  lemma ProbedLoadTime(v: View, t: Tick)
    ensures Probed(v, t).lastLoadAt
            == if Probes(v, t.later) && ProbeVerdict(v, t.probe, t.later).AttemptReload? && v.lastLoad.Some?
               then Some(t.later) else v.lastLoadAt
  {
    var u := CountBuffering(v.(nextProbeAt := t.later + HEARTBEAT_INTERVAL), t.probe);
    if v.lastLoad.Some? {
      LoadSetsTime(u, v.lastLoad.value, t.later, t.wire, NEVER);
    }
  }

  lemma PingKeepsLoad(v: View, t: Tick)
    ensures AfterPing(v, t).lastLoad == v.lastLoad && AfterPing(v, t).lastLoadAt == v.lastLoadAt
  {
  }

  lemma TickLoadTime(v: View, a: Action)
    requires a.IdleTick?
    ensures IdleTicked(v, a.tick).lastLoadAt == LoadTime(v, a)
  {
    PingKeepsLoad(v, a.tick);
    if ProbeDue(v, a.tick) {
      ProbedLoadTime(AfterPing(v, a.tick), a.tick);
    }
  }

  lemma LoadTimeStep(v: View, a: Action)
    ensures Apply(v, a).lastLoadAt == LoadTime(v, a)
  {
    if a.IdleTick? {
      TickLoadTime(v, a);
    } else if a.Load? {
      LoadLoadTime(v, a);
    }
  }

  ghost predicate LoadTimes(states: seq<View>, acts: seq<Action>) {
    && |states| == |acts| + 1
    && forall k :: 0 <= k < |acts| ==> states[k + 1].lastLoadAt == LoadTime(states[k], acts[k])
  }

  lemma RunHasLoadTimes(states: seq<View>, acts: seq<Action>)
    requires Run(states, acts)
    ensures LoadTimes(states, acts)
  {
    forall k | 0 <= k < |acts|
      ensures states[k + 1].lastLoadAt == LoadTime(states[k], acts[k])
    {
      LoadTimeStep(states[k], acts[k]);
    }
  }

  lemma {:induction false} LastLoadIsNoOlder(states: seq<View>, acts: seq<Action>, i: nat, j: nat)
    requires LoadTimes(states, acts) && Monotone(acts) && i < j < |states| && SendsLoad(states[i], acts[i])
    ensures states[j].lastLoadAt.Some? && states[j].lastLoadAt.value >= SendTime(acts[i])
    decreases j - i
  {
    assert states[j - 1 + 1].lastLoadAt == LoadTime(states[j - 1], acts[j - 1]);
    if i < j - 1 {
      LastLoadIsNoOlder(states, acts, i, j - 1);
    }
  }

  /** The worker never fights the bridge: no internal re-LOAD within the guard after any other LOAD. */
  lemma InternalLoadKeepsDistance(states: seq<View>, acts: seq<Action>, i: nat, j: nat)
    requires Run(states, acts) && Monotone(acts) && i < j < |acts|
    requires SendsLoad(states[i], acts[i]) && InternalLoad(states[j], acts[j])
    ensures SendTime(acts[j]) - SendTime(acts[i]) >= RECENT_LOAD_GUARD
  {
    RunHasLoadTimes(states, acts);
    LastLoadIsNoOlder(states, acts, i, j);
  }

  // ----- abandoned LOAD -----------------------------------------------------------------------

  /**
   A session is delivered exactly when the LOAD succeeded, the flag was not set before the last
   check and the caller still listens; then it is the active one. Otherwise, if the flag was set or
   the caller left, no session is active, neither the new one nor the one before.
   */
  lemma AbandonedLoadLeavesNoSession(
      v: View, request: Request, now: int, w: Wire, flag: nat, fired: bool, open: bool)
    ensures var r := LoadCommand(v, request, now, w, flag, fired, open);
            && (r.session.Some? <==> Loaded(v, w, flag).Some? && flag > 4 && open)
            && (r.session.Some? ==> r.session == Loaded(v, w, flag) && r.view.active == r.session)
            && (flag <= 4 || !open ==> r.view.active.None?)
            && (flag > 4 && open && r.session.None? ==> r.view.active == v.active)
  {
  }

  /** A LOAD that succeeded late is stopped, and nothing else is, unless the connection is gone. */
  lemma LateSuccessIsStopped(v: View, request: Request, now: int, w: Wire, flag: nat, fired: bool, open: bool)
    requires Loaded(v, w, flag).Some?
    ensures var r := LoadCommand(v, request, now, w, flag, fired, open);
            && (r.session.Some? ==> r.view.stops == v.stops)
            && (r.session.None? ==>
                  if !w.stopOk || (fired && flag > 3) then !r.view.connected && r.view.stops == v.stops
                  else r.view.stops == v.stops + [Loaded(v, w, flag).value])
  {
  }

  /** The step hands session `s` to a caller, takes it over, or recovers it from trouble. */
  predicate Acknowledges(v: View, a: Action, s: Session) {
    match a
    case Load(request, now, w, flag, fired, open) => LoadCommand(v, request, now, w, flag, fired, open).session == Some(s)
    case Adopt(session, _, _, _) => Adopts(v, a) && session == Some(s)
    case IdleTick(t) =>
      ReloadRecovers(v, a) &&
      InternalReload(CountBuffering(AfterPing(v, t), t.probe), t.later, t.wire).session == Some(s)
    case _ => false
  }

  /** A probe leaves the session alone, lets it go, or brings one back. */
  lemma ProbeTracks(v: View, t: Tick)
    requires StreakInv(v)
    ensures var u := CheckOwnership(v, t.probe, t.later, t.wire);
            || u.active == v.active || u.active.None?
            || (&& Probes(v, t.later) && ProbeVerdict(v, t.probe, t.later).AttemptReload? && !ReloadFails(v, t)
                && u.active == InternalReload(CountBuffering(v, t.probe), t.later, t.wire).session)
  {
    if v.lastLoad.Some? {
      LoadLeavesStreak(CountBuffering(v, t.probe), v.lastLoad.value, t.later, t.wire, NEVER);
    }
  }

  lemma PingTracks(v: View, t: Tick)
    requires StreakInv(v)
    ensures StreakInv(AfterPing(v, t)) && (AfterPing(v, t).active == v.active || AfterPing(v, t).active.None?)
  {
  }

  lemma TickTracksAcknowledged(v: View, a: Action)
    requires StreakInv(v) && a.IdleTick? && Apply(v, a).active.Some?
    ensures Acknowledges(v, a, Apply(v, a).active.value) || Apply(v, a).active == v.active
  {
    var t := a.tick;
    PingTracks(v, t);
    if v.connected && ProbeDue(v, t) {
      ProbedTracks(AfterPing(v, t), t);
    }
  }

  lemma ProbedTracks(v: View, t: Tick)
    requires StreakInv(v)
    ensures var u := Probed(v, t);
            || u.active == v.active || u.active.None?
            || (&& Probes(v, t.later) && ProbeVerdict(v, t.probe, t.later).AttemptReload? && !ReloadFails(v, t)
                && u.active == InternalReload(CountBuffering(v, t.probe), t.later, t.wire).session)
  {
    SameProbe(v, t);
    SameReload(v, t);
    ProbeTracks(v.(nextProbeAt := t.later + HEARTBEAT_INTERVAL), t);
  }

  lemma SameReload(v: View, t: Tick)
    ensures InternalReload(CountBuffering(v.(nextProbeAt := t.later + HEARTBEAT_INTERVAL), t.probe), t.later, t.wire).session
            == InternalReload(CountBuffering(v, t.probe), t.later, t.wire).session
  {
  }

  lemma StepTracksAcknowledged(v: View, a: Action)
    requires StreakInv(v) && Apply(v, a).active.Some?
    ensures Acknowledges(v, a, Apply(v, a).active.value) || Apply(v, a).active == v.active
  {
    match a
    case IdleTick(_) => TickTracksAcknowledged(v, a);
    case Load(request, now, w, flag, fired, open) =>
      AbandonedLoadLeavesNoSession(v, request, now, w, flag, fired, open);
    case _ =>
  }

  /**
   In every run the worker never tracks a session nobody knows of: the active session was delivered to
   the caller of its LOAD, taken over, or recovered, and has been active ever since.
   */
  lemma {:induction false} ActiveSessionIsAcknowledged(states: seq<View>, acts: seq<Action>, n: nat) returns (i: nat)
    requires Run(states, acts) && n < |states| && states[n].active.Some?
    ensures i < n && Acknowledges(states[i], acts[i], states[n].active.value)
    ensures forall k :: i < k <= n ==> states[k].active == states[n].active
  {
    StreakIsBounded(states, acts, n - 1);
    StepTracksAcknowledged(states[n - 1], acts[n - 1]);
    if Acknowledges(states[n - 1], acts[n - 1], states[n].active.value) {
      i := n - 1;
    } else {
      i := ActiveSessionIsAcknowledged(states, acts, n - 1);
    }
  }

  // ----- the worker as it is updated in place ---------------------------------------------------

  class WorkerState {
    var active: Option<Session>
    var since: int
    var lossStreak: nat
    var bufferingStreak: nat
    var reloadAttempted: bool
    var standDown: bool
    var connected: bool
    var lastLoad: Option<Request>
    var lastLoadAt: Option<int>
    var nextPingAt: int
    var nextProbeAt: int
    var lost: nat
    var stops: seq<Session>

    function Fields(): View
      reads this
    {
      View(active, since, lossStreak, bufferingStreak, reloadAttempted, standDown, connected, lastLoad, lastLoadAt,
           nextPingAt, nextProbeAt, lost, stops)
    }

    constructor (up: bool, now: int)
      ensures Init(Fields()) && connected == up && nextPingAt >= now && nextProbeAt == now
    {
      active, since, lossStreak, bufferingStreak := None, 0, 0, 0;
      reloadAttempted, standDown, connected := false, false, up;
      lastLoad, lastLoadAt, lost, stops := None, None, 0, [];
      nextPingAt, nextProbeAt := if up then now + HEARTBEAT_INTERVAL else now, now;
    }

    method ClearActiveSession()
      modifies this
      ensures Fields() == ClearActive(old(Fields()))
    {
      active, lossStreak, bufferingStreak, reloadAttempted := None, 0, 0, false;
    }

    method SetActiveSession(session: Session, now: int)
      modifies this
      ensures Fields() == SetActive(old(Fields()), session, now)
    {
      active, since, lossStreak, bufferingStreak := Some(session), now, 0, 0;
      reloadAttempted, standDown := false, false;
    }

    method EnsureConnected(ok: bool, now: int)
      modifies this
      ensures Fields() == if old(connected) then old(Fields()) else Reconnected(old(Fields()), ok, now)
    {
      if connected {
        return;
      }
      connected := ok;
      if ok {
        nextPingAt := now + HEARTBEAT_INTERVAL;
      }
    }

    method HandleStop(ok: bool)
      modifies this
      ensures Fields() == Stopped(old(Fields()), ok)
    {
      var stopped := active;
      ClearActiveSession();
      if stopped.None? || !connected {
        return;
      }
      if ok {
        stops := stops + [stopped.value];
      } else {
        connected := false;
      }
    }

    method NoteLostSignal()
      modifies this
      ensures Fields() == NoteLost(old(Fields()))
    {
      lossStreak := SaturatingAdd1(lossStreak);
      if lossStreak >= OWNERSHIP_LOSS_CONFIRMATIONS {
        ClearActiveSession();
        lost := lost + 1;
      }
    }

    method CommitLoadSession(session: Session, now: int, flag: nat, stopOk: bool) returns (result: Option<Session>)
      modifies this
      ensures LoadOutcome(Fields(), result) == CommitLoad(old(Fields()), session, now, flag, stopOk)
    {
      if flag <= 2 {
        active := Some(session);
        HandleStop(stopOk);
        return None;
      }
      SetActiveSession(session, now);
      if flag <= 3 {
        HandleStop(stopOk);
        return None;
      }
      result := Some(session);
    }

    method Load(request: Request, now: int, w: Wire, flag: nat) returns (result: Option<Session>)
      modifies this
      ensures LoadOutcome(Fields(), result) == HandleLoad(old(Fields()), request, now, w, flag)
    {
      lastLoad, lastLoadAt := Some(request), Some(now);
      if connected && w.first.Some? {
        result := CommitLoadSession(w.first.value, now, flag, w.stopOk);
        return;
      }
      if flag <= 0 {
        return None;
      }
      connected := false;
      EnsureConnected(w.reconnect, now);
      if !connected || flag <= 1 || w.retry.None? {
        return None;
      }
      result := CommitLoadSession(w.retry.value, now, flag, w.stopOk);
    }

    /** The command loop's part: a late or unheard success is stopped before the next command. */
    method RunLoadCommand(request: Request, now: int, w: Wire, flag: nat, fired: bool, open: bool)
      returns (delivered: Option<Session>)
      modifies this
      ensures LoadOutcome(Fields(), delivered) == LoadCommand(old(Fields()), request, now, w, flag, fired, open)
    {
      delivered := Load(request, now, w, flag);
      if fired {
        connected := false;
      }
      if flag <= 4 {
        if active.Some? {
          HandleStop(w.stopOk);
        }
        delivered := None;
      }
      if !open {
        if active.Some? {
          HandleStop(w.stopOk);
        }
        delivered := None;
      }
    }

    method PingHeartbeat(t: Tick)
      modifies this
      ensures Fields() == HeartbeatPing(old(Fields()), t)
    {
      nextPingAt := t.now + HEARTBEAT_INTERVAL;
      if !connected || t.pingOk {
        return;
      }
      connected := false;
      EnsureConnected(t.reconnect, t.later);
      if !connected && active.Some? {
        NoteLostSignal();
      }
    }

    method Recover(now: int, w: Wire)
      modifies this
      ensures Fields() == Recovery(old(Fields()), now, w)
    {
      var recovered := None;
      if lastLoad.Some? {
        recovered := Load(lastLoad.value, now, w, NEVER);
      }
      reloadAttempted := recovered.None?;
      if recovered.Some? {
        lossStreak, bufferingStreak := 0, 0;
      } else {
        NoteLostSignal();
      }
    }

    method Check(p: Probe, now: int, w: Wire)
      modifies this
      ensures Fields() == CheckOwnership(old(Fields()), p, now, w)
    {
      if active.None? || standDown {
        lossStreak, bufferingStreak := 0, 0;
        return;
      }
      if now - since < OWNERSHIP_GRACE || !connected {
        return;
      }
      bufferingStreak := if p.buffering then SaturatingAdd1(bufferingStreak) else 0;
      var recent := lastLoadAt.Some? && now - lastLoadAt.value < RECENT_LOAD_GUARD;
      match OwnershipAction(p, bufferingStreak, reloadAttempted, recent)
      case Owned =>
        lossStreak, reloadAttempted := 0, false;
      case Inconclusive =>
      case SuspectReconnect =>
        connected := false;
        EnsureConnected(w.reconnect, now);
      case LostSignal =>
        NoteLostSignal();
      case AttemptReload =>
        Recover(now, w);
    }

    method PingIfDue(t: Tick)
      requires connected
      modifies this
      ensures Fields() == AfterPing(old(Fields()), t)
    {
      if t.now >= nextPingAt {
        PingHeartbeat(t);
      }
    }

    method ProbeIfDue(t: Tick)
      modifies this
      ensures Fields() == if t.later >= old(nextProbeAt) then Probed(old(Fields()), t) else old(Fields())
    {
      if t.later >= nextProbeAt {
        nextProbeAt := t.later + HEARTBEAT_INTERVAL;
        Check(t.probe, t.later, t.wire);
      }
    }

    method OnIdleTick(t: Tick)
      modifies this
      ensures Fields() == IdleTicked(old(Fields()), t)
    {
      if !connected {
        EnsureConnected(t.reconnect, t.now);
        return;
      }
      PingIfDue(t);
      ProbeIfDue(t);
    }
  }
}
