/**
 One ungrouped AirPlay receiver, its event queue and its device worker. Ring slot updates, event
 sends, slot lock sections and ring lookups are single steps; audio sessions may be dropped, and the
 bridge session may be ended from outside, between any two of them.
 */
module Receiver {
  import opened Common
  import opened Slots

  /** Identity of a PCM ring; every ring the receiver installs is a new one. */
  type RingId = nat

  datatype Event = Started(ring: RingId) | Ended

  /** Where the device worker is in the handling of one event. */
  datatype Handler =
    | Free
    | CheckCurrent(ring: RingId)
    | Accepting(ring: RingId)
    | Prebuffering(ring: RingId, generation: nat)
    | CheckRing(ring: RingId, generation: nat)
    | CheckStarting(ring: RingId, generation: nat)
    | Loading(ring: RingId, generation: nat)
    | Recheck(ring: RingId, generation: nat)
    | Installing(ring: RingId, generation: nat)
    | Clearing(generation: nat)
    | DecideEnd
    | TakeEnded(generation: nat)

  datatype World = World(
    ring: RingId,               // the receiver's ring slot
    nextRing: RingId,           // next unused ring identity
    init: Option<RingId>,       // audio_init has replaced the ring and not yet sent Started
    open: set<RingId>,          // audio sessions not dropped yet
    sent: set<RingId>,          // rings whose Started was sent
    queue: seq<Event>,
    slot: Slot<RingId, ()>,
    handler: Handler
  )

  predicate Init(w: World) {
    w == World(0, 1, None, {}, {}, [], Empty(), Free)
  }

  // ----- receiver -----------------------------------------------------------------------------

  /** replace_ring: the first half of audio_init. */
  function ReplaceRing(w: World): World {
    w.(ring := w.nextRing, nextRing := w.nextRing + 1, init := Some(w.nextRing))
  }

  function SendStarted(w: World): World
    requires w.init.Some?
  {
    var r := w.init.value;
    w.(init := None, queue := w.queue + [Started(r)], open := w.open + {r}, sent := w.sent + {r})
  }

  /** Drop of an audio session: end_if_current decides and sends Ended under the ring slot lock. */
  function DropSession(w: World, r: RingId): World {
    var d := w.(open := w.open - {r});
    if w.ring == r then d.(ring := w.nextRing, nextRing := w.nextRing + 1, queue := w.queue + [Ended]) else d
  }

  // ----- device worker ------------------------------------------------------------------------

  function Pop(w: World): World
    requires w.queue != []
  {
    var next := match w.queue[0] case Started(r) => CheckCurrent(r) case Ended => DecideEnd;
    w.(queue := w.queue[1..], handler := next)
  }

  predicate StartingStill(w: World, g: nat) {
    w.slot.state == Starting(g)
  }

  /** `ok`: whether the wait, the lookup or the LOAD of this step succeeds. */
  function HandlerStep(w: World, ok: bool): World {
    match w.handler
    case Free => w
    case CheckCurrent(r) => w.(handler := if r == w.ring then Accepting(r) else Free)
    case Accepting(r) =>
      var s := AcceptStart(w.slot);
      w.(slot := s, handler := Prebuffering(r, s.generation))
    case Prebuffering(r, g) => w.(handler := if r == w.ring && ok then CheckRing(r, g) else Clearing(g))
    case CheckRing(r, g) => w.(handler := if r == w.ring then CheckStarting(r, g) else Clearing(g))
    case CheckStarting(r, g) => w.(handler := if StartingStill(w, g) then Loading(r, g) else Clearing(g))
    case Loading(r, g) => w.(handler := if ok then Recheck(r, g) else Clearing(g))
    case Recheck(r, g) => w.(handler := if StartingStill(w, g) then Installing(r, g) else Clearing(g))
    case Installing(r, g) => w.(slot := InstallPlaying(w.slot, g, r), handler := Free)
    case Clearing(g) => w.(slot := ClearStartingIf(w.slot, g), handler := Free)
    case DecideEnd =>
      w.(handler :=
           match w.slot.state
           case Playing(g, r) => if r == w.ring then Free else TakeEnded(g)
           case Starting(g) => Clearing(g)
           case _ => Free)
    case TakeEnded(g) => w.(slot := TakePlayingIf(w.slot, g), handler := Free)
  }

  datatype Action =
    | InitReplace
    | InitSend
    | Close(ring: RingId)
    | Receive
    | Handle(ok: bool)
    | ExternalEnd          // ownership lost, terminal stall, shutdown: take_live_session

  predicate Enabled(w: World, a: Action) {
    match a
    case InitReplace => w.init.None?
    case InitSend => w.init.Some?
    case Close(r) => r in w.open
    case Receive => w.handler.Free? && w.queue != []
    case Handle(_) => !w.handler.Free?
    case ExternalEnd => true
  }

  function Apply(w: World, a: Action): World
    requires Enabled(w, a)
  {
    match a
    case InitReplace => ReplaceRing(w)
    case InitSend => SendStarted(w)
    case Close(r) => DropSession(w, r)
    case Receive => Pop(w)
    case Handle(ok) => HandlerStep(w, ok)
    case ExternalEnd => w.(slot := TakeLive(w.slot))
  }

  ghost predicate Run(states: seq<World>, acts: seq<Action>) {
    && |states| == |acts| + 1
    && Init(states[0])
    && forall i :: 0 <= i < |acts| ==> Enabled(states[i], acts[i]) && states[i + 1] == Apply(states[i], acts[i])
  }

  // ----- invariant ----------------------------------------------------------------------------

  /** The ring a start in progress will install. */
  function StartRing(h: Handler): Option<RingId> {
    match h
    case Accepting(r) => Some(r)
    case Prebuffering(r, _) => Some(r)
    case CheckRing(r, _) => Some(r)
    case CheckStarting(r, _) => Some(r)
    case Loading(r, _) => Some(r)
    case Recheck(r, _) => Some(r)
    case Installing(r, _) => Some(r)
    case _ => None
  }

  /** The generation of the start (or of the clearing of one) in progress. */
  function StartGeneration(h: Handler): Option<nat> {
    match h
    case Prebuffering(_, g) => Some(g)
    case CheckRing(_, g) => Some(g)
    case CheckStarting(_, g) => Some(g)
    case Loading(_, g) => Some(g)
    case Recheck(_, g) => Some(g)
    case Installing(_, g) => Some(g)
    case Clearing(g) => Some(g)
    case _ => None
  }

  /** An event that will end or replace whatever is not on the current ring is still ahead. */
  predicate EventAhead(w: World) {
    Ended in w.queue || Started(w.ring) in w.queue || w.init == Some(w.ring)
  }

  /** The worker holds such an event and has not acted on it yet. */
  predicate EventInHand(w: World) {
    w.handler == CheckCurrent(w.ring) || w.handler.Accepting? || w.handler.DecideEnd? || w.handler.TakeEnded?
  }

  ghost predicate Inv(w: World) {
    && w.ring < w.nextRing
    && (forall r :: r in w.sent ==> r < w.nextRing)
    && w.open <= w.sent
    && (w.init.Some? ==> w.init.value == w.ring && w.ring !in w.sent)
    && (w.ring in w.sent ==> w.ring in w.open)
    && (forall r :: Started(r) in w.queue ==> r in w.sent)
    && (w.handler.CheckCurrent? ==> w.handler.ring in w.sent)
    && (StartRing(w.handler).Some? ==>
          StartRing(w.handler).value in w.sent && (StartRing(w.handler).value == w.ring || EventAhead(w)))
    && Stamped(w.slot)
    && (w.slot.state.Playing? ==>
          w.slot.state.session in w.sent && (w.slot.state.session == w.ring || EventAhead(w) || EventInHand(w)))
    && (w.slot.state.Starting? ==> StartGeneration(w.handler) == Some(w.slot.generation))
    && (w.handler.TakeEnded? && w.slot.state.Playing? ==> w.handler.generation == w.slot.generation)
    && !w.slot.state.Following?
    && (StartGeneration(w.handler).Some? ==>
          StartGeneration(w.handler).value == w.slot.generation && !w.slot.state.Playing?)
  }

  lemma HandlerKeepsInv(w: World, ok: bool)
    requires Inv(w) && !w.handler.Free?
    ensures Inv(HandlerStep(w, ok))
  {
  }

  lemma PopKeepsInv(w: World)
    requires Inv(w) && w.handler.Free? && w.queue != []
    ensures Inv(Pop(w))
  {
    var r := Pop(w);
    assert w.queue == [w.queue[0]] + r.queue;
    assert forall e :: e in w.queue <==> e == w.queue[0] || e in r.queue;
  }

  lemma StepKeepsInv(w: World, a: Action)
    requires Inv(w) && Enabled(w, a)
    ensures Inv(Apply(w, a))
  {
    match a
    case Handle(ok) => HandlerKeepsInv(w, ok);
    case Receive => PopKeepsInv(w);
    case _ =>
  }

  lemma {:induction false} RunKeepsInv(states: seq<World>, acts: seq<Action>, n: nat)
    requires Run(states, acts) && n < |states|
    ensures Inv(states[n])
  {
    if n > 0 {
      RunKeepsInv(states, acts, n - 1);
      StepKeepsInv(states[n - 1], acts[n - 1]);
    }
  }

  // ----- theorems -----------------------------------------------------------------------------

  predicate Quiescent(w: World) {
    w.queue == [] && w.handler.Free? && w.init.None?
  }

  /**
   No zombie: when nothing is queued or being handled, a live slot plays the receiver's current
   ring, and the audio session that feeds that ring is still open.
   */
  lemma NoZombieSession(states: seq<World>, acts: seq<Action>, n: nat)
    requires Run(states, acts) && n < |states| && Quiescent(states[n])
    ensures var s := states[n].slot.state;
            s.Idle? || (s.Playing? && s.session == states[n].ring && s.session in states[n].open)
  {
    RunKeepsInv(states, acts, n);
  }

  /** A superseded ring is never left behind: an event that removes it is queued, being sent or in hand. */
  lemma SupersededRingHasEventAhead(states: seq<World>, acts: seq<Action>, n: nat)
    requires Run(states, acts) && n < |states|
    requires states[n].slot.state.Playing? && states[n].slot.state.session != states[n].ring
    ensures EventAhead(states[n]) || EventInHand(states[n])
  {
    RunKeepsInv(states, acts, n);
  }

  // ----- a stream that is still open is not ended ----------------------------------------------

  /** No Ended is queued behind the Started of the current ring, nor ahead of a session that plays it. */
  ghost predicate NoStaleEnded(w: World) {
    && (forall i, j :: 0 <= i < j < |w.queue| && w.queue[i] == Started(w.ring) ==> w.queue[j] != Ended)
    && (w.handler == CheckCurrent(w.ring) || StartRing(w.handler) == Some(w.ring) ==> Ended !in w.queue)
    && (w.slot.state.Playing? && w.slot.state.session == w.ring ==> Ended !in w.queue && !w.handler.DecideEnd?)
  }

  lemma StepKeepsNoStaleEnded(w: World, a: Action)
    requires Inv(w) && NoStaleEnded(w) && Enabled(w, a)
    ensures NoStaleEnded(Apply(w, a))
  {
    var r := Apply(w, a);
    match a
    case Receive =>
      assert forall i :: 0 <= i < |r.queue| ==> r.queue[i] == w.queue[i + 1];
    case InitSend =>
      assert forall j :: 0 <= j < |w.queue| ==> w.queue[j] != Started(w.ring);
    case Close(ring) =>
      if ring == w.ring {
        assert Started(r.ring) !in r.queue;
      }
    case InitReplace => assert Started(r.ring) !in r.queue;
    case _ =>
  }

  lemma {:induction false} RunKeepsNoStaleEnded(states: seq<World>, acts: seq<Action>, n: nat)
    requires Run(states, acts) && n < |states|
    ensures NoStaleEnded(states[n])
  {
    if n > 0 {
      RunKeepsNoStaleEnded(states, acts, n - 1);
      RunKeepsInv(states, acts, n - 1);
      StepKeepsNoStaleEnded(states[n - 1], acts[n - 1]);
    }
  }

  /**
   The event order that the ring slot lock buys: while a session plays, or a start works on, the
   receiver's current ring, no Ended is queued or in hand that could end it.
   */
  lemma OpenStreamIsNeverEnded(states: seq<World>, acts: seq<Action>, n: nat)
    requires Run(states, acts) && n < |states|
    requires var w := states[n];
             StartRing(w.handler) == Some(w.ring) || (w.slot.state.Playing? && w.slot.state.session == w.ring)
    ensures Ended !in states[n].queue && !states[n].handler.DecideEnd?
  {
    RunKeepsNoStaleEnded(states, acts, n);
  }

  // ----- which starts end in Playing --------------------------------------------------------------

  /** Steps of the worker between `i` and `k`. */
  function Handled(acts: seq<Action>, i: nat, k: nat): nat
    requires k <= |acts|
    decreases k
  {
    if k <= i + 1 then 0 else Handled(acts, i, k - 1) + if acts[k - 1].Handle? then 1 else 0
  }

  /**
   What step number `c` of a start needs: the ring is current at three checks, the prebuffer wait and
   the LOAD succeed, and the slot is still this start's own Starting before and after the LOAD and
   when Playing is installed.
   */
  predicate Good(c: nat, w: World, ok: bool, ring: RingId, g: nat) {
    && (c == 0 || c == 2 || c == 3 ==> w.ring == ring)
    && (c == 2 || c == 5 ==> ok)
    && (c == 4 || c == 6 || c == 7 ==> w.slot.state == Starting(g))
  }

  ghost predicate GoodSoFar(states: seq<World>, acts: seq<Action>, i: nat, k: nat, ring: RingId)
    requires |states| == |acts| + 1 && i < k <= |acts|
  {
    forall m :: i < m < k && acts[m].Handle? ==>
      Good(Handled(acts, i, m), states[m], acts[m].ok, ring, states[i].slot.generation + 1)
  }

  /** The worker takes the Started of `ring` at `i` and is busy with it up to `k`. */
  ghost predicate StartsAt(states: seq<World>, acts: seq<Action>, i: nat, k: nat, ring: RingId)
    requires |states| == |acts| + 1 && i < k <= |acts|
  {
    && acts[i].Receive? && states[i].queue != [] && states[i].queue[0] == Started(ring)
    && forall m :: i < m < k ==> !states[m].handler.Free?
  }

  function Stage(c: nat, ring: RingId, g: nat): Handler {
    if c == 0 then CheckCurrent(ring)
    else if c == 1 then Accepting(ring)
    else if c == 2 then Prebuffering(ring, g)
    else if c == 3 then CheckRing(ring, g)
    else if c == 4 then CheckStarting(ring, g)
    else if c == 5 then Loading(ring, g)
    else if c == 6 then Recheck(ring, g)
    else Installing(ring, g)
  }

  /** A start that every step so far was good for, after `c` of its steps. */
  predicate OnTrack(w: World, c: nat, ring: RingId, g: nat) {
    && c <= 8
    && w.slot.generation + (if c < 2 then 1 else 0) == g
    && (c < 8 ==> w.handler == Stage(c, ring, g))
    && (c == 8 ==> w.handler.Free? && w.slot.state == Playing(g, ring))
  }

  /** A start that failed: it is being cleared, or is over. */
  predicate OffTrack(w: World, ring: RingId, g: nat) {
    && (w.handler == Clearing(g) || w.handler.Free?)
    && w.slot.state != Playing(g, ring)
  }

  lemma GoodStepStaysOnTrack(w: World, ok: bool, c: nat, ring: RingId, g: nat)
    requires Inv(w) && OnTrack(w, c, ring, g) && c < 8
    ensures Good(c, w, ok, ring, g) ==> OnTrack(Apply(w, Handle(ok)), c + 1, ring, g)
    ensures !Good(c, w, ok, ring, g) ==> OffTrack(Apply(w, Handle(ok)), ring, g)
  {
  }

  lemma OtherStepKeepsTrack(w: World, a: Action, c: nat, ring: RingId, g: nat)
    requires Inv(w) && Enabled(w, a) && !a.Handle? && !w.handler.Free?
    ensures OnTrack(w, c, ring, g) ==> OnTrack(Apply(w, a), c, ring, g)
    ensures OffTrack(w, ring, g) ==> OffTrack(Apply(w, a), ring, g)
  {
  }

  lemma {:induction false} StartStaysOnTrack(states: seq<World>, acts: seq<Action>, i: nat, k: nat, ring: RingId)
    requires Run(states, acts) && i < k <= |acts| && StartsAt(states, acts, i, k, ring)
    ensures var g := states[i].slot.generation + 1;
            if GoodSoFar(states, acts, i, k, ring) then OnTrack(states[k], Handled(acts, i, k), ring, g)
            else OffTrack(states[k], ring, g)
    decreases k
  {
    var g := states[i].slot.generation + 1;
    RunKeepsInv(states, acts, k - 1);
    assert states[k - 1 + 1] == Apply(states[k - 1], acts[k - 1]);
    if k > i + 1 {
      StartStaysOnTrack(states, acts, i, k - 1, ring);
      assert GoodSoFar(states, acts, i, k, ring) ==> GoodSoFar(states, acts, i, k - 1, ring);
      var c := Handled(acts, i, k - 1);
      if acts[k - 1].Handle? {
        if GoodSoFar(states, acts, i, k - 1, ring) {
          GoodStepStaysOnTrack(states[k - 1], acts[k - 1].ok, c, ring, g);
        } else {
          ClearingEnds(states[k - 1], acts[k - 1].ok, ring, g);
        }
      } else {
        OtherStepKeepsTrack(states[k - 1], acts[k - 1], c, ring, g);
      }
    }
  }

  lemma ClearingEnds(w: World, ok: bool, ring: RingId, g: nat)
    requires Inv(w) && OffTrack(w, ring, g) && !w.handler.Free?
    ensures OffTrack(Apply(w, Handle(ok)), ring, g)
  {
  }

  /**
   Exactly which starts end in Playing: those whose every step was good. Then it took eight steps, and
   the slot plays the ring in the next generation.
   */
  lemma StartPlaysIff(states: seq<World>, acts: seq<Action>, i: nat, j: nat, ring: RingId)
    requires Run(states, acts) && i < j <= |acts| && StartsAt(states, acts, i, j, ring) && states[j].handler.Free?
    ensures states[j].slot.state == Playing(states[i].slot.generation + 1, ring) <==> GoodSoFar(states, acts, i, j, ring)
    ensures GoodSoFar(states, acts, i, j, ring) ==> Handled(acts, i, j) == 8
  {
    StartStaysOnTrack(states, acts, i, j, ring);
  }

  /** The LOAD goes out exactly after five good steps. */
  lemma StartLoadsIff(states: seq<World>, acts: seq<Action>, i: nat, k: nat, ring: RingId)
    requires Run(states, acts) && i < k <= |acts| && StartsAt(states, acts, i, k, ring)
    ensures states[k].handler.Loading? <==> GoodSoFar(states, acts, i, k, ring) && Handled(acts, i, k) == 5
  {
    StartStaysOnTrack(states, acts, i, k, ring);
  }

  /** A step of another party that neither replaces the ring nor takes the slot. */
  predicate Disturbs(a: Action) {
    a.InitReplace? || a.Close? || a.ExternalEnd?
  }

  /** The slot is this start's own Starting between the accept and the install. */
  predicate Owned(w: World, c: nat, g: nat) {
    2 <= c < 8 ==> w.slot.state == Starting(g)
  }

  lemma UndisturbedStep(w: World, a: Action, c: nat, ring: RingId, g: nat)
    requires Enabled(w, a) && !Disturbs(a) && (a.Handle? ==> a.ok) && !w.handler.Free?
    requires OnTrack(w, c, ring, g) && Owned(w, c, g) && w.ring == ring && c < 8
    ensures a.Handle? ==> Good(c, w, true, ring, g)
    ensures Apply(w, a).ring == ring && Owned(Apply(w, a), c + if a.Handle? then 1 else 0, g)
  {
  }

  lemma GoodOneMore(states: seq<World>, acts: seq<Action>, i: nat, k: nat, ring: RingId)
    requires |states| == |acts| + 1 && i < k < |acts| && GoodSoFar(states, acts, i, k, ring)
    requires acts[k].Handle? ==>
               Good(Handled(acts, i, k), states[k], acts[k].ok, ring, states[i].slot.generation + 1)
    ensures GoodSoFar(states, acts, i, k + 1, ring)
  {
  }

  lemma {:induction false} UndisturbedIsGood(states: seq<World>, acts: seq<Action>, i: nat, k: nat, ring: RingId)
    requires Run(states, acts) && i < k <= |acts| && StartsAt(states, acts, i, k, ring) && states[i].ring == ring
    requires forall m :: i < m < k ==> !Disturbs(acts[m]) && (acts[m].Handle? ==> acts[m].ok)
    ensures GoodSoFar(states, acts, i, k, ring) && states[k].ring == ring
    ensures Owned(states[k], Handled(acts, i, k), states[i].slot.generation + 1)
    decreases k
  {
    assert states[k - 1 + 1] == Apply(states[k - 1], acts[k - 1]);
    if k > i + 1 {
      var c, g := Handled(acts, i, k - 1), states[i].slot.generation + 1;
      UndisturbedIsGood(states, acts, i, k - 1, ring);
      StartStaysOnTrack(states, acts, i, k - 1, ring);
      UndisturbedStep(states[k - 1], acts[k - 1], c, ring, g);
      GoodOneMore(states, acts, i, k - 1, ring);
    }
  }

  /**
   A stream that nobody disturbs plays: once the worker is done with its Started, the slot plays its
   ring in the next generation.
   */
  lemma UndisturbedStartPlays(states: seq<World>, acts: seq<Action>, i: nat, j: nat, ring: RingId)
    requires Run(states, acts) && i < j <= |acts| && StartsAt(states, acts, i, j, ring) && states[i].ring == ring
    requires forall m :: i < m < j ==> !Disturbs(acts[m]) && (acts[m].Handle? ==> acts[m].ok)
    requires states[j].handler.Free? || Handled(acts, i, j) == 8
    ensures states[j].handler.Free? && states[j].slot.state == Playing(states[i].slot.generation + 1, ring)
  {
    UndisturbedIsGood(states, acts, i, j, ring);
    StartStaysOnTrack(states, acts, i, j, ring);
  }

  // ----- how long a session plays -------------------------------------------------------------------

  predicate Plays(w: World, g: nat, ring: RingId) {
    w.slot.state == Playing(g, ring)
  }

  predicate Installs(w: World, a: Action, g: nat, ring: RingId) {
    a.Handle? && w.handler == Installing(ring, g) && w.slot.state == Starting(g)
  }

  /** A newer start is accepted, the slot is taken from outside, or an Ended takes this generation. */
  predicate Removes(w: World, a: Action, g: nat) {
    a.ExternalEnd? || (a.Handle? && (w.handler.Accepting? || w.handler == TakeEnded(g)))
  }

  lemma PlaysStep(w: World, a: Action, g: nat, ring: RingId)
    requires Enabled(w, a)
    ensures Plays(Apply(w, a), g, ring) == (Installs(w, a, g, ring) || (Plays(w, g, ring) && !Removes(w, a, g)))
  {
  }

  predicate Accepts(w: World, a: Action, g: nat) {
    a.Handle? && w.handler.Accepting? && w.slot.generation + 1 == g
  }

  /** The start gives up or installs Playing, a newer one is accepted, or the slot is taken from outside. */
  predicate EndsStart(w: World, a: Action, g: nat) {
    a.ExternalEnd? ||
    (a.Handle? && (w.handler.Accepting? || w.handler == Clearing(g) || (w.handler.Installing? && w.handler.generation == g)))
  }

  lemma StartingStep(w: World, a: Action, g: nat)
    requires Enabled(w, a)
    ensures StartingStill(Apply(w, a), g) == (Accepts(w, a, g) || (StartingStill(w, g) && !EndsStart(w, a, g)))
  {
  }

  /** A ring plays exactly from its install until a newer start, an end from outside or its Ended. */
  lemma PlaysIffInstalled(states: seq<World>, acts: seq<Action>, n: nat, g: nat, ring: RingId)
    requires Run(states, acts) && n < |states|
    ensures Plays(states[n], g, ring) <==>
              exists i :: 0 <= i < n && Installs(states[i], acts[i], g, ring)
                          && forall k :: i < k < n ==> !Removes(states[k], acts[k], g)
  {
    forall k | 0 <= k < |acts|
      ensures Plays(states[k + 1], g, ring)
              == (Installs(states[k], acts[k], g, ring) || (Plays(states[k], g, ring) && !Removes(states[k], acts[k], g)))
    {
      PlaysStep(states[k], acts[k], g, ring);
    }
    SetUntilCleared(
      states, acts, n, w => Plays(w, g, ring), (w, a) => Installs(w, a, g, ring), (w, a) => Removes(w, a, g));
  }

  /** A slot is starting exactly from the accept of a start until it is over. */
  lemma StartingIffAccepted(states: seq<World>, acts: seq<Action>, n: nat, g: nat)
    requires Run(states, acts) && n < |states|
    ensures states[n].slot.state == Starting(g) <==>
              exists i :: 0 <= i < n && Accepts(states[i], acts[i], g)
                          && forall k :: i < k < n ==> !EndsStart(states[k], acts[k], g)
  {
    forall k | 0 <= k < |acts|
      ensures StartingStill(states[k + 1], g)
              == (Accepts(states[k], acts[k], g) || (StartingStill(states[k], g) && !EndsStart(states[k], acts[k], g)))
    {
      StartingStep(states[k], acts[k], g);
    }
    SetUntilCleared(
      states, acts, n, w => StartingStill(w, g), (w, a) => Accepts(w, a, g), (w, a) => EndsStart(w, a, g));
  }

  // ----- a new stream can always play ---------------------------------------------------------------

  function Execute(w: World, acts: seq<Action>): Option<World>
    decreases |acts|
  {
    if acts == [] then Some(w)
    else if Enabled(w, acts[0]) then Execute(Apply(w, acts[0]), acts[1..])
    else None
  }

  lemma {:induction false} ExecuteBoth(w: World, a: seq<Action>, b: seq<Action>)
    requires Execute(w, a).Some?
    ensures Execute(w, a + b) == Execute(Execute(w, a).value, b)
    decreases |a|
  {
    if a == [] {
      assert a + b == b;
    } else {
      assert (a + b)[1..] == a[1..] + b;
      ExecuteBoth(Apply(w, a[0]), a[1..], b);
    }
  }

  lemma ExecuteFirst(w: World, a: Action, rest: seq<Action>)
    requires Enabled(w, a)
    ensures Execute(w, [a] + rest) == Execute(Apply(w, a), rest)
  {
    assert ([a] + rest)[1..] == rest;
  }

  /** Sections until the worker is done with its event, when nothing more succeeds. */
  function SectionsLeft(h: Handler): nat {
    match h
    case Free => 0
    case CheckCurrent(_) => 4
    case Accepting(_) => 3
    case Prebuffering(_, _) => 2
    case CheckRing(_, _) => 4
    case CheckStarting(_, _) => 3
    case Loading(_, _) => 2
    case Recheck(_, _) => 2
    case DecideEnd => 2
    case _ => 1
  }

  lemma {:induction false} FinishEvent(w: World) returns (acts: seq<Action>, v: World)
    ensures Execute(w, acts) == Some(v) && v.handler.Free? && v.queue == w.queue && v.init == w.init
    decreases SectionsLeft(w.handler)
  {
    if w.handler.Free? {
      acts, v := [], w;
    } else {
      acts, v := FinishEvent(Apply(w, Handle(false)));
      ExecuteFirst(w, Handle(false), acts);
      acts := [Handle(false)] + acts;
    }
  }

  lemma {:induction false} DrainQueue(w: World) returns (acts: seq<Action>, v: World)
    requires w.handler.Free?
    ensures Execute(w, acts) == Some(v) && v.handler.Free? && v.queue == [] && v.init == w.init
    decreases |w.queue|
  {
    if w.queue == [] {
      acts, v := [], w;
    } else {
      var first, u := FinishEvent(Apply(w, Receive));
      var rest;
      rest, v := DrainQueue(u);
      ExecuteFirst(w, Receive, first);
      ExecuteBoth(w, [Receive] + first, rest);
      acts := [Receive] + first + rest;
    }
  }

  /** From a moment of rest: audio_init, its Started, and the eight sections of the start. */
  lemma NewStreamPlays(w: World) returns (acts: seq<Action>, v: World)
    requires w.handler.Free? && w.queue == [] && w.init.None?
    ensures Execute(w, acts) == Some(v) && v.handler.Free? && v.queue == []
    ensures v.ring == w.nextRing && v.ring in v.open && v.slot.state == Playing(w.slot.generation + 1, v.ring)
  {
    var start := Apply(Apply(Apply(w, InitReplace), InitSend), Receive);
    assert start.handler == CheckCurrent(w.nextRing);
    var u;
    acts, u := HalfOfStart(start);
    var more;
    more, v := HalfOfStart(u);
    ExecuteBoth(start, acts, more);
    acts := acts + more;
    ExecuteFirst(Apply(Apply(w, InitReplace), InitSend), Receive, acts);
    ExecuteFirst(Apply(w, InitReplace), InitSend, [Receive] + acts);
    ExecuteFirst(w, InitReplace, [InitSend] + ([Receive] + acts));
    acts := [InitReplace] + ([InitSend] + ([Receive] + acts));
  }

  /** Half of a start: its first four sections, or its last four. */
  lemma HalfOfStart(w: World) returns (acts: seq<Action>, v: World)
    requires w.handler == CheckCurrent(w.ring) || (w.handler.CheckStarting? && StartingStill(w, w.handler.generation))
    ensures Execute(w, acts) == Some(v) && v == w.(slot := v.slot, handler := v.handler)
    ensures w.handler.CheckCurrent? ==>
              v.slot == AcceptStart(w.slot) && v.handler == CheckStarting(w.ring, v.slot.generation)
    ensures w.handler.CheckStarting? ==>
              v.handler.Free? && v.slot == w.slot.(state := Playing(w.handler.generation, w.handler.ring))
  {
    var w1 := Apply(w, Handle(true));
    var w2 := Apply(w1, Handle(true));
    var w3 := Apply(w2, Handle(true));
    v := Apply(w3, Handle(true));
    ExecuteFirst(w3, Handle(true), []);
    ExecuteFirst(w2, Handle(true), [Handle(true)]);
    ExecuteFirst(w1, Handle(true), [Handle(true)] + [Handle(true)]);
    ExecuteFirst(w, Handle(true), [Handle(true)] + ([Handle(true)] + [Handle(true)]));
    acts := [Handle(true)] + ([Handle(true)] + ([Handle(true)] + [Handle(true)]));
  }

  /**
   No deadlock: from every state, whatever is queued, in hand or half announced, the receiver and its
   worker can be run until a new stream plays.
   */
  lemma EveryStateCanPlay(w: World) returns (acts: seq<Action>, v: World)
    ensures Execute(w, acts) == Some(v) && v.handler.Free? && v.queue == []
    ensures v.ring in v.open && v.slot.state.Playing? && v.slot.state.session == v.ring
  {
    var announced := if w.init.Some? then [InitSend] else [];
    var w1 := if w.init.Some? then Apply(w, InitSend) else w;
    var event, w2 := FinishEvent(w1);
    var drain, w3 := DrainQueue(w2);
    var play;
    play, v := NewStreamPlays(w3);
    assert Execute(w, announced) == Some(w1) by {
      if w.init.Some? {
        ExecuteFirst(w, InitSend, []);
        assert [InitSend] + [] == [InitSend];
      }
    }
    ExecuteBoth(w, announced, event);
    ExecuteBoth(w, announced + event, drain);
    ExecuteBoth(w, announced + event + drain, play);
    acts := announced + event + drain + play;
  }

  /** A stream that is closed ends its session, once the worker has handled what is queued; an end from outside does at once. */
  lemma ClosedStreamEnds(states: seq<World>, acts: seq<Action>, n: nat, g: nat)
    requires Run(states, acts) && n < |states|
    requires var w := states[n];
             w.handler.Free? && w.queue == [] && w.slot.state == Playing(g, w.ring) && w.ring in w.open
    ensures var w := states[n];
            var r := Execute(w, [Close(w.ring), Receive, Handle(true), Handle(true)]);
            r.Some? && r.value.slot.state.Idle? && r.value.handler.Free? && r.value.queue == []
            && r.value.slot.generation == w.slot.generation
    ensures var w := states[n];
            var r := Execute(w, [ExternalEnd]); r.Some? && r.value == w.(slot := w.slot.(state := Idle))
  {
    RunKeepsInv(states, acts, n);
    var w := states[n];
    var closed := Apply(w, Close(w.ring));
    var taken := Apply(closed, Receive);
    var decided := Apply(taken, Handle(true));
    ExecuteFirst(decided, Handle(true), []);
    ExecuteFirst(taken, Handle(true), [Handle(true)]);
    ExecuteFirst(closed, Receive, [Handle(true), Handle(true)]);
    ExecuteFirst(w, Close(w.ring), [Receive, Handle(true), Handle(true)]);
    assert [Handle(true)] + [Handle(true)] == [Handle(true), Handle(true)];
    assert [Receive] + [Handle(true), Handle(true)] == [Receive, Handle(true), Handle(true)];
    assert [Close(w.ring)] + [Receive, Handle(true), Handle(true)] == [Close(w.ring), Receive, Handle(true), Handle(true)];
    assert [Handle(true)] + [] == [Handle(true)];
    ExecuteFirst(w, ExternalEnd, []);
    assert [ExternalEnd] + [] == [ExternalEnd];
  }

  // ----- the receiver's audio state as it is updated in place ----------------------------------

  class DeviceAudioState {
    var ringSlot: RingId
    var nextRing: RingId
    var init: Option<RingId>
    var open: set<RingId>
    var sent: set<RingId>
    var events: seq<Event>

    function View(slot: Slot<RingId, ()>, handler: Handler): World
      reads this
    {
      World(ringSlot, nextRing, init, open, sent, events, slot, handler)
    }

    constructor ()
      ensures Init(View(Empty(), Free))
    {
      ringSlot, nextRing, init, open, sent, events := 0, 1, None, {}, {}, [];
    }

    /** First half of audio_init: a new ring takes the slot. */
    method Replace() returns (ring: RingId)
      modifies this
      ensures forall s, h :: View(s, h) == ReplaceRing(old(View(s, h)))
      ensures ring == ringSlot
    {
      ring := nextRing;
      ringSlot, nextRing, init := ring, ring + 1, Some(ring);
    }

    /** Second half of audio_init: Started carries the ring it installed. */
    method Announce()
      requires init.Some?
      modifies this
      ensures forall s, h :: View(s, h) == SendStarted(old(View(s, h)))
    {
      var ring := init.value;
      events := events + [Started(ring)];
      open, sent, init := open + {ring}, sent + {ring}, None;
    }

    /** Whether this audio session owned the slot: only then a placeholder is installed and Ended sent. */
    method EndIfCurrent(ring: RingId) returns (owned: bool)
      modifies this
      ensures forall s, h :: View(s, h) == DropSession(old(View(s, h)), ring)
      ensures owned <==> old(ringSlot) == ring
    {
      open := open - {ring};
      if ringSlot != ring {
        return false;
      }
      ringSlot, nextRing := nextRing, nextRing + 1;
      events := events + [Ended];
      owned := true;
    }
  }
}
