/**
 The generation-stamped slot of one device. `P` is what a Playing session carries, `F` what a group
 follower carries.
 */
module Slots {
  import opened Common
  import opened SessionRules

  datatype State<P, F> =
    | Idle
    | Starting(generation: nat)
    | Playing(generation: nat, session: P)
    | Following(generation: nat, follower: F)

  /** `generation` is the last one an accepted start was stamped with (0: never). */
  datatype Slot<P, F> = Slot(generation: nat, state: State<P, F>)

  function Empty<P, F>(): Slot<P, F> {
    Slot(0, Idle)
  }

  function LiveGeneration<P, F>(s: Slot<P, F>): Option<nat> {
    if s.state.Idle? then None else Some(s.state.generation)
  }

  function AcceptStart<P, F>(s: Slot<P, F>): Slot<P, F> {
    Slot(s.generation + 1, Starting(s.generation + 1))
  }

  function AcceptFollower<P, F>(s: Slot<P, F>, f: F): Slot<P, F> {
    Slot(s.generation + 1, Following(s.generation + 1, f))
  }

  function ClearStartingIf<P, F>(s: Slot<P, F>, g: nat): Slot<P, F> {
    if s.state.Starting? && s.state.generation == g then s.(state := Idle) else s
  }

  /** Playing is installed only over the Starting of the same generation. */
  function InstallPlaying<P, F>(s: Slot<P, F>, g: nat, p: P): Slot<P, F> {
    if s.state.Starting? && s.state.generation == g then s.(state := Playing(g, p)) else s
  }

  function TakeLive<P, F>(s: Slot<P, F>): Slot<P, F> {
    s.(state := Idle)
  }

  function TakePlayingIf<P, F>(s: Slot<P, F>, g: nat): Slot<P, F> {
    if s.state.Playing? && s.state.generation == g then s.(state := Idle) else s
  }

  function TakeFollowingIf<P, F>(s: Slot<P, F>, g: nat): Slot<P, F> {
    if s.state.Following? && s.state.generation == g then s.(state := Idle) else s
  }

  /** A live slot carries the generation of its counter. */
  predicate Stamped<P, F>(s: Slot<P, F>) {
    s.state.Idle? || s.state.generation == s.generation
  }

  /** Nothing stamped with an older generation changes what a newer one has installed. */
  lemma StaleGenerationChangesNothing<P, F>(s: Slot<P, F>, g: nat, p: P)
    requires Stamped(s) && g < s.generation
    ensures ClearStartingIf(s, g) == s && InstallPlaying(s, g, p) == s
    ensures TakePlayingIf(s, g) == s && TakeFollowingIf(s, g) == s
  {
  }

  /** A slot as the code holds it: two fields updated under the devices lock. */
  class DeviceSlot<P, F> {
    var generation: nat
    var state: State<P, F>

    function View(): Slot<P, F>
      reads this
    {
      Slot(generation, state)
    }

    constructor ()
      ensures View() == Empty<P, F>()
    {
      generation, state := 0, Idle;
    }

    /** `prior`: the Playing session this start displaced, which its caller must tear down. */
    method Accept() returns (started: nat, prior: Option<P>)
      modifies this
      ensures View() == AcceptStart(old(View()))
      ensures started == generation == old(generation) + 1
      ensures prior == if old(state).Playing? then Some(old(state).session) else None
    {
      generation := generation + 1;
      started := generation;
      prior := if state.Playing? then Some(state.session) else None;
      state := Starting(started);
    }

    method Follow(f: F) returns (prior: Option<P>)
      modifies this
      ensures View() == AcceptFollower(old(View()), f)
      ensures prior == if old(state).Playing? then Some(old(state).session) else None
    {
      generation := generation + 1;
      prior := if state.Playing? then Some(state.session) else None;
      state := Following(generation, f);
    }

    method ClearStarting(g: nat)
      modifies this
      ensures View() == ClearStartingIf(old(View()), g)
    {
      if state.Starting? && state.generation == g {
        state := Idle;
      }
    }

    /**
     `orphan`: Playing is not installed, and the caller tears the session down with this policy. Under
     a newer start it must not send STOP, which could reach the newer session.
     */
    method Install(g: nat, p: P) returns (orphan: Option<Policy>)
      modifies this
      ensures View() == InstallPlaying(old(View()), g, p)
      ensures orphan.None? <==> old(state) == Starting(g)
      ensures orphan.None? ==> state == Playing(g, p)
      ensures orphan == Some(SkipStopForReplace)
              <==> old(state) != Starting(g) && (old(state).Starting? || old(state).Playing?)
      ensures orphan == Some(SkipStopForReplace) && Stamped(old(View())) && g <= old(generation) ==>
                old(state).Playing? || g < old(generation)
    {
      orphan := None;
      if state.Starting? && state.generation == g {
        state := Playing(g, p);
      } else if state.Starting? || state.Playing? {
        orphan := Some(SkipStopForReplace);
      } else {
        orphan := Some(StopBestEffort);
      }
    }

    method Take() returns (session: Option<P>)
      modifies this
      ensures View() == TakeLive(old(View()))
      ensures session == if old(state).Playing? then Some(old(state).session) else None
    {
      session := if state.Playing? then Some(state.session) else None;
      state := Idle;
    }

    method TakeIfGeneration(g: nat) returns (session: Option<P>)
      modifies this
      ensures View() == TakePlayingIf(old(View()), g)
      ensures session == if old(state).Playing? && old(state).generation == g then Some(old(state).session) else None
    {
      session := None;
      if state.Playing? && state.generation == g {
        session := Some(state.session);
        state := Idle;
      }
    }
  }
}
