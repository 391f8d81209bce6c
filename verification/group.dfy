/**
 AirPlay multi-select groups over the device slots: owner election, followers, hand-over, promotion
 and the answers of Cast. A step is a lock section; sections that hold the devices and the groups
 lock together are one step. Any device may receive a Started for any group at any time.
 */
module Groups {
  import opened Common
  import opened Slots

  type DeviceId = string
  type GroupId = string

  /** Stream format a media server encodes; a hand-over needs the owner's. */
  datatype Format = Format(channels: nat, rate: nat)

  datatype Session = Session(group: Option<GroupId>, format: Format)
  datatype Follower = Follower(group: GroupId, format: Format)

  type DevSlot = Slot<Session, Follower>

  datatype Group = Group(
    owner: Option<DeviceId>,
    followers: seq<DeviceId>,
    castMembers: seq<DeviceId>,
    excluded: set<DeviceId>,
    promoting: Option<DeviceId>
  )

  /** What a device's worker is doing: events of one device are handled one after the other. */
  datatype Work =
    | Waiting
    | Start(generation: nat, group: Option<GroupId>, format: Format)   // handle_session_start after the accept
    | Standalone(format: Format)                                         // enter_group refused, accept comes next
    | CheckingOwner                                                      // group_check_owner found the device dead

  datatype Bridge = Bridge(
    slots: map<DeviceId, DevSlot>,
    groups: map<GroupId, Group>,
    work: map<DeviceId, Work>
  )

  function SlotOf(b: Bridge, d: DeviceId): DevSlot {
    if d in b.slots then b.slots[d] else Empty()
  }

  function WorkOf(b: Bridge, d: DeviceId): Work {
    if d in b.work then b.work[d] else Waiting
  }

  function GroupOf(b: Bridge, g: GroupId): Group {
    if g in b.groups then b.groups[g] else Group(None, [], [], {}, None)
  }

  function Without(s: seq<DeviceId>, gone: set<DeviceId>): seq<DeviceId> {
    Filter(s, d => d !in gone)
  }

  predicate Init(b: Bridge) {
    b == Bridge(map[], map[], map[])
  }

  // ----- lock sections ------------------------------------------------------------------------

  /** The slot feeds Cast: a start in progress or a playing session. */
  predicate StartingOrPlaying(s: DevSlot) {
    s.state.Starting? || s.state.Playing?
  }

  predicate OwnerLive(b: Bridge, d: DeviceId, g: GroupId) {
    var owner := GroupOf(b, g).owner;
    owner.Some? && owner.value != d && StartingOrPlaying(SlotOf(b, owner.value))
  }

  /** enter_group: role and slot state are decided under both locks. */
  function EnterGroup(b: Bridge, d: DeviceId, g: GroupId, f: Format): Bridge {
    var grp := GroupOf(b, g);
    if d in grp.excluded then
      b.(work := b.work[d := Standalone(f)])
    else if OwnerLive(b, d, g) then
      b.(
        groups := b.groups[g := grp.(followers := if d in grp.followers then grp.followers else grp.followers + [d])],
        slots := b.slots[d := AcceptFollower(SlotOf(b, d), Follower(g, f))])
    else
      var s := AcceptStart(SlotOf(b, d));
      b.(
        groups := b.groups[g := grp.(
          owner := Some(d),
          castMembers := if grp.owner == Some(d) then grp.castMembers else [],
          followers := Without(grp.followers, {d}),
          promoting := if grp.promoting == Some(d) then None else grp.promoting)],
        slots := b.slots[d := s],
        work := b.work[d := Start(s.generation, Some(g), f)])
  }

  /** accept_start for a device without a group, or one its group excluded. */
  function StartAlone(b: Bridge, d: DeviceId, f: Format): Bridge {
    var s := AcceptStart(SlotOf(b, d));
    b.(slots := b.slots[d := s], work := b.work[d := Start(s.generation, None, f)])
  }

  function InstallSession(b: Bridge, d: DeviceId): Bridge
    requires WorkOf(b, d).Start?
  {
    var w := WorkOf(b, d);
    b.(
      slots := b.slots[d := InstallPlaying(SlotOf(b, d), w.generation, Session(w.group, w.format))],
      work := b.work[d := Waiting])
  }

  function ClearStart(b: Bridge, d: DeviceId): Bridge
    requires WorkOf(b, d).Start?
  {
    b.(slots := b.slots[d := ClearStartingIf(SlotOf(b, d), WorkOf(b, d).generation)], work := b.work[d := Waiting])
  }

  function ConfirmOwner(b: Bridge, d: DeviceId, g: GroupId): Bridge {
    if g in b.groups && b.groups[g].owner == Some(d) && b.groups[g].castMembers == [] then
      b.(groups := b.groups[g := b.groups[g].(castMembers := [d])])
    else b
  }

  /** A member the owner can hand its session to: in the Cast session, following, same format. */
  predicate CanSurvive(b: Bridge, grp: Group, d: DeviceId, f: Format) {
    && d in grp.followers && d in grp.castMembers
    && SlotOf(b, d).state.Following? && SlotOf(b, d).state.follower.format == f
  }

  /** group_owner_left with survivor `m`: the session object moves into the survivor's slot. */
  function HandOver(b: Bridge, d: DeviceId, m: DeviceId): Bridge
    requires SlotOf(b, d).state.Playing? && SlotOf(b, m).state.Following? && SlotOf(b, d).state.session.group.Some?
  {
    var session := SlotOf(b, d).state.session;
    var g := session.group.value;
    var survivor := SlotOf(b, m);
    b.(
      slots := b.slots[d := TakeLive(SlotOf(b, d))][m := survivor.(state := Playing(survivor.state.generation, session))],
      groups := b.groups[g := GroupOf(b, g).(owner := Some(m), followers := Without(GroupOf(b, g).followers, {m}))])
  }

  predicate HandOverReady(b: Bridge, d: DeviceId, m: DeviceId) {
    && SlotOf(b, d).state.Playing? && SlotOf(b, d).state.session.group.Some?
    && var g := SlotOf(b, d).state.session.group.value;
       g in b.groups && b.groups[g].owner == Some(d) && CanSurvive(b, b.groups[g], m, SlotOf(b, d).state.session.format)
  }

  predicate EmptyGroup(g: Group) {
    g.owner.None? && g.followers == [] && g.excluded == {}
  }

  function Orphaned(grp: Group, d: DeviceId): Group {
    var kept := grp.(excluded := grp.excluded - {d});
    if grp.owner == Some(d) then kept.(owner := None, castMembers := []) else kept
  }

  /** The groups section of group_check_owner for a device that was found dead. */
  function CheckOwner(b: Bridge, d: DeviceId): Bridge {
    b.(
      groups := map g | g in b.groups && !EmptyGroup(Orphaned(b.groups[g], d)) :: Orphaned(b.groups[g], d),
      work := b.work[d := Waiting])
  }

  /** promote_if_ownerless: the first follower is told to start. */
  function Promote(b: Bridge, g: GroupId): Bridge {
    if g !in b.groups || b.groups[g].owner.Some? then b
    else
      var grp := b.groups[g];
      if grp.promoting.Some? && grp.promoting.value in grp.followers then b
      else if grp.followers != [] then b.(groups := b.groups[g := grp.(promoting := Some(grp.followers[0]))])
      else if EmptyGroup(grp) then b.(groups := b.groups - {g})
      else b
  }

  /** The answer to SET_PLAYBACK_DEVICES: what Cast confirmed and whom it could not add. */
  function CastAnswer(b: Bridge, g: GroupId, confirmed: seq<DeviceId>, failed: set<DeviceId>): Bridge {
    if g !in b.groups then b
    else
      var grp := b.groups[g];
      b.(groups := b.groups[g := grp.(
        castMembers := confirmed,
        followers := Without(grp.followers, failed),
        excluded := grp.excluded + failed)])
  }

  /** end_group alone: the group is forgotten and its followers stop. */
  function EndGroup(b: Bridge, g: GroupId): Bridge {
    if g !in b.groups then b
    else
      var members := b.groups[g].followers;
      Bridge(
        map d | d in b.slots :: if d in members && FollowsGroup(b.slots[d], g) then TakeLive(b.slots[d]) else b.slots[d],
        b.groups - {g},
        b.work)
  }

  predicate FollowsGroup(s: DevSlot, g: GroupId) {
    s.state.Following? && s.state.follower.group == g
  }

  /** An end that takes the playing owner's session and its whole group. */
  function EndOwnerWithGroup(b: Bridge, d: DeviceId): Bridge
    requires SlotOf(b, d).state.Playing? && SlotOf(b, d).state.session.group.Some?
  {
    EndGroup(b.(slots := b.slots[d := TakeLive(SlotOf(b, d))]), SlotOf(b, d).state.session.group.value)
  }

  // ----- steps --------------------------------------------------------------------------------

  datatype Action =
    | Enter(d: DeviceId, g: GroupId, f: Format)
    | Alone(d: DeviceId, f: Format)
    | Install(d: DeviceId)
    | Clear(d: DeviceId)
    | Confirm(d: DeviceId, g: GroupId)
    | TakeSession(d: DeviceId)                 // take_live_session, from anywhere
    | TakePlaying(d: DeviceId, gen: nat)       // take_live_session_if_gen
    | TakeFollowing(d: DeviceId, gen: nat)     // the slot section of end_following
    | ForgetFollower(d: DeviceId, g: GroupId)  // its groups section
    | OwnerLeft(d: DeviceId, survivor: DeviceId)
    | FindDead(d: DeviceId)                    // the devices section of group_check_owner
    | OwnerGone(d: DeviceId)                   // its groups section
    | PromoteMember(g: GroupId)
    | Answer(g: GroupId, confirmed: seq<DeviceId>, failed: set<DeviceId>)
    | MoveFailed(g: GroupId)
    | EndAll(d: DeviceId)

  predicate Enabled(b: Bridge, a: Action) {
    match a
    case Enter(d, _, _) => WorkOf(b, d).Waiting?
    case Alone(d, f) => WorkOf(b, d).Waiting? || WorkOf(b, d) == Standalone(f)
    case Install(d) => WorkOf(b, d).Start?
    case Clear(d) => WorkOf(b, d).Start?
    case OwnerLeft(d, m) => WorkOf(b, d).Waiting? && HandOverReady(b, d, m)
    case FindDead(d) => WorkOf(b, d).Waiting? && SlotOf(b, d).state.Idle?
    case OwnerGone(d) => WorkOf(b, d).CheckingOwner?
    case EndAll(d) => SlotOf(b, d).state.Playing? && SlotOf(b, d).state.session.group.Some?
    case _ => true
  }

  function Apply(b: Bridge, a: Action): Bridge
    requires Enabled(b, a)
  {
    match a
    case Enter(d, g, f) => EnterGroup(b, d, g, f)
    case Alone(d, f) => StartAlone(b, d, f)
    case Install(d) => InstallSession(b, d)
    case Clear(d) => ClearStart(b, d)
    case Confirm(d, g) => ConfirmOwner(b, d, g)
    case TakeSession(d) => b.(slots := b.slots[d := TakeLive(SlotOf(b, d))])
    case TakePlaying(d, g) => b.(slots := b.slots[d := TakePlayingIf(SlotOf(b, d), g)])
    case TakeFollowing(d, g) => b.(slots := b.slots[d := TakeFollowingIf(SlotOf(b, d), g)])
    case ForgetFollower(d, g) =>
      if g in b.groups then b.(groups := b.groups[g := b.groups[g].(followers := Without(b.groups[g].followers, {d}))])
      else b
    case OwnerLeft(d, m) => HandOver(b, d, m)
    case FindDead(d) => b.(work := b.work[d := CheckingOwner])
    case OwnerGone(d) => CheckOwner(b, d)
    case PromoteMember(g) => Promote(b, g)
    case Answer(g, confirmed, failed) => CastAnswer(b, g, confirmed, failed)
    case MoveFailed(g) =>
      if g in b.groups then b.(groups := b.groups[g := b.groups[g].(castMembers := [])]) else b
    case EndAll(d) => EndOwnerWithGroup(b, d)
  }

  ghost predicate Run(states: seq<Bridge>, acts: seq<Action>) {
    && |states| == |acts| + 1
    && Init(states[0])
    && forall i :: 0 <= i < |acts| ==> Enabled(states[i], acts[i]) && states[i + 1] == Apply(states[i], acts[i])
  }

  // ----- single feeder ------------------------------------------------------------------------

  /** `d` is starting as owner, or playing, for group `g`. */
  predicate Feeds(b: Bridge, d: DeviceId, g: GroupId) {
    var s := SlotOf(b, d).state;
    var w := WorkOf(b, d);
    || (s.Playing? && s.session.group == Some(g))
    || (s.Starting? && w.Start? && w.generation == s.generation && w.group == Some(g))
  }

  ghost predicate SingleFeeder(b: Bridge) {
    forall d, g :: Feeds(b, d, g) ==> g in b.groups && b.groups[g].owner == Some(d)
  }

  /** Slots and their counters agree, and a worker's start is never newer than its slot. */
  ghost predicate SlotsInv(b: Bridge) {
    && (forall d :: d in b.slots ==> Stamped(b.slots[d]))
    && (forall d :: d in b.work && b.work[d].Start? ==> b.work[d].generation <= SlotOf(b, d).generation)
    && (forall d :: d in b.slots && b.slots[d].state.Starting? ==>
          WorkOf(b, d).Start? && WorkOf(b, d).generation == b.slots[d].generation)
    && (forall d :: d in b.work && b.work[d].CheckingOwner? ==> SlotOf(b, d).state.Idle?)
  }

  ghost predicate Inv(b: Bridge) {
    SlotsInv(b) && SingleFeeder(b)
  }

  /** A device whose slot and worker are as before feeds what it fed before. */
  lemma SameFeeder(b: Bridge, c: Bridge, d: DeviceId, g: GroupId)
    requires SlotOf(c, d) == SlotOf(b, d) && WorkOf(c, d) == WorkOf(b, d)
    ensures Feeds(c, d, g) == Feeds(b, d, g)
  {
  }

  lemma EnterKeepsInv(b: Bridge, d: DeviceId, g: GroupId, f: Format)
    requires Inv(b) && WorkOf(b, d).Waiting?
    ensures Inv(EnterGroup(b, d, g, f))
  {
    var c := EnterGroup(b, d, g, f);
    forall e, h | Feeds(c, e, h)
      ensures h in c.groups && c.groups[h].owner == Some(e)
    {
      if e == d {
        assert Feeds(c, d, h) ==> h == g || Feeds(b, d, h);
      } else {
        SameFeeder(b, c, e, h);
        assert b.groups[h].owner == Some(e);
        assert StartingOrPlaying(SlotOf(b, e));
      }
    }
  }

  lemma CheckOwnerKeepsInv(b: Bridge, d: DeviceId)
    requires Inv(b) && WorkOf(b, d).CheckingOwner?
    ensures Inv(CheckOwner(b, d))
  {
    var c := CheckOwner(b, d);
    forall e, h | Feeds(c, e, h)
      ensures h in c.groups && c.groups[h].owner == Some(e)
    {
      assert e != d;
      SameFeeder(b, c, e, h);
      assert b.groups[h].owner == Some(e);
    }
  }

  lemma HandOverKeepsInv(b: Bridge, d: DeviceId, m: DeviceId)
    requires Inv(b) && HandOverReady(b, d, m)
    ensures Inv(HandOver(b, d, m))
  {
    var c := HandOver(b, d, m);
    forall e, h | Feeds(c, e, h)
      ensures h in c.groups && c.groups[h].owner == Some(e)
    {
      if e != m {
        assert e != d;
        SameFeeder(b, c, e, h);
        assert b.groups[h].owner == Some(e);
      }
    }
  }

  lemma EndAllKeepsInv(b: Bridge, d: DeviceId)
    requires Inv(b) && SlotOf(b, d).state.Playing? && SlotOf(b, d).state.session.group.Some?
    ensures Inv(EndOwnerWithGroup(b, d))
  {
    var g := SlotOf(b, d).state.session.group.value;
    assert Feeds(b, d, g);
    var c := EndOwnerWithGroup(b, d);
    forall e, h | Feeds(c, e, h)
      ensures h in c.groups && c.groups[h].owner == Some(e)
    {
      assert e != d;
      assert Feeds(b, e, h);
    }
  }

  lemma PromoteKeepsInv(b: Bridge, g: GroupId)
    requires Inv(b)
    ensures Inv(Promote(b, g))
  {
    var c := Promote(b, g);
    forall e, h | Feeds(c, e, h)
      ensures h in c.groups && c.groups[h].owner == Some(e)
    {
      SameFeeder(b, c, e, h);
    }
  }

  /** Sections that only touch the groups without an owner change. */
  lemma GroupSectionKeepsInv(b: Bridge, a: Action)
    requires Inv(b) && (a.Confirm? || a.ForgetFollower? || a.Answer? || a.MoveFailed?)
    ensures Inv(Apply(b, a))
  {
    var c := Apply(b, a);
    forall e, h | Feeds(c, e, h)
      ensures h in c.groups && c.groups[h].owner == Some(e)
    {
      SameFeeder(b, c, e, h);
      assert b.groups[h].owner == Some(e);
    }
  }

  /** Sections of one device's start: its slot and its worker change, no group does. */
  lemma StartSectionKeepsInv(b: Bridge, a: Action)
    requires Inv(b) && Enabled(b, a) && (a.Alone? || a.Install? || a.Clear?)
    ensures Inv(Apply(b, a))
  {
    var c := Apply(b, a);
    forall e, h | Feeds(c, e, h)
      ensures h in c.groups && c.groups[h].owner == Some(e)
    {
      if e != a.d {
        SameFeeder(b, c, e, h);
      }
      assert Feeds(b, e, h);
    }
  }

  /** Sections that take a device's session or look at it. */
  lemma TakeSectionKeepsInv(b: Bridge, a: Action)
    requires Inv(b) && Enabled(b, a) && (a.TakeSession? || a.TakePlaying? || a.TakeFollowing? || a.FindDead?)
    ensures Inv(Apply(b, a))
  {
    var c := Apply(b, a);
    forall e, h | Feeds(c, e, h)
      ensures h in c.groups && c.groups[h].owner == Some(e)
    {
      if e != a.d {
        SameFeeder(b, c, e, h);
      }
      assert Feeds(b, e, h);
    }
  }

  lemma StepKeepsInv(b: Bridge, a: Action)
    requires Inv(b) && Enabled(b, a)
    ensures Inv(Apply(b, a))
  {
    match a
    case Enter(d, g, f) => EnterKeepsInv(b, d, g, f);
    case OwnerGone(d) => CheckOwnerKeepsInv(b, d);
    case OwnerLeft(d, m) => HandOverKeepsInv(b, d, m);
    case EndAll(d) => EndAllKeepsInv(b, d);
    case PromoteMember(g) => PromoteKeepsInv(b, g);
    case Confirm(_, _) => GroupSectionKeepsInv(b, a);
    case ForgetFollower(_, _) => GroupSectionKeepsInv(b, a);
    case Answer(_, _, _) => GroupSectionKeepsInv(b, a);
    case MoveFailed(_) => GroupSectionKeepsInv(b, a);
    case Alone(_, _) => StartSectionKeepsInv(b, a);
    case Install(_) => StartSectionKeepsInv(b, a);
    case Clear(_) => StartSectionKeepsInv(b, a);
    case _ => TakeSectionKeepsInv(b, a);
  }

  lemma {:induction false} RunKeepsInv(states: seq<Bridge>, acts: seq<Action>, n: nat)
    requires Run(states, acts) && n < |states|
    ensures Inv(states[n])
  {
    if n > 0 {
      RunKeepsInv(states, acts, n - 1);
      StepKeepsInv(states[n - 1], acts[n - 1]);
    }
  }

  /** At every moment at most one device feeds a group's Cast session, and it is the group's owner. */
  lemma AtMostOneFeeder(states: seq<Bridge>, acts: seq<Action>, n: nat, g: GroupId, d: DeviceId, e: DeviceId)
    requires Run(states, acts) && n < |states|
    requires Feeds(states[n], d, g)
    ensures g in states[n].groups && states[n].groups[g].owner == Some(d)
    ensures Feeds(states[n], e, g) ==> e == d
  {
    RunKeepsInv(states, acts, n);
  }

  // ----- ending a group without its owner ------------------------------------------------------

  /** end_group on its own keeps the claim exactly when nobody feeds the group at that moment. */
  lemma EndGroupAloneIffNoFeeder(b: Bridge, g: GroupId)
    requires Inv(b) && g in b.groups
    ensures SingleFeeder(EndGroup(b, g)) <==> forall d :: !Feeds(b, d, g)
  {
    var c := EndGroup(b, g);
    forall d, h
      ensures Feeds(c, d, h) <==> Feeds(b, d, h)
    {
    }
    if forall d :: !Feeds(b, d, g) {
      forall d, h | Feeds(c, d, h)
        ensures h in c.groups && c.groups[h].owner == Some(d)
      {
        assert Feeds(b, d, h);
      }
    }
  }

  /**
   Taking the owner's session and ending its group are separate lock sections in the code. A member
   that starts between them is forgotten with the group, and the next member starts a second feeder.
   */
  lemma SplitEndLetsTwoFeed(f: Format)
    ensures var b0 := Bridge(map[], map[], map[]);
            var playing := InstallSession(EnterGroup(b0, "a", "g", f), "a");
            var taken := Apply(playing, TakeSession("a"));
            var joined := EnterGroup(taken, "b", "g", f);
            var ended := EndGroup(joined, "g");
            var again := EnterGroup(ended, "c", "g", f);
            Init(b0) && Feeds(playing, "a", "g") && Feeds(again, "b", "g") && Feeds(again, "c", "g")
  {
    var b0 := Bridge(map[], map[], map[]);
    var playing := InstallSession(EnterGroup(b0, "a", "g", f), "a");
    assert SlotOf(playing, "a") == Slot(1, Playing(1, Session(Some("g"), f)));
    var joined := EnterGroup(Apply(playing, TakeSession("a")), "b", "g", f);
    assert SlotOf(joined, "b") == Slot(1, Starting(1)) && WorkOf(joined, "b") == Start(1, Some("g"), f);
    var ended := EndGroup(joined, "g");
    assert SlotOf(ended, "b") == SlotOf(joined, "b") && "g" !in ended.groups;
  }

  // ----- generation fencing -------------------------------------------------------------------

  predicate Accepts(b: Bridge, a: Action, d: DeviceId) {
    (a.Enter? || a.Alone?) && a.d == d && !(a.Enter? && d in GroupOf(b, a.g).excluded)
  }

  lemma GenerationStep(b: Bridge, a: Action, d: DeviceId)
    requires Enabled(b, a)
    ensures SlotOf(Apply(b, a), d).generation == SlotOf(b, d).generation + (if Accepts(b, a, d) then 1 else 0)
    ensures Accepts(b, a, d) ==> LiveGeneration(SlotOf(Apply(b, a), d)) == Some(SlotOf(b, d).generation + 1)
  {
  }

  function Counter(b: Bridge, d: DeviceId): nat {
    SlotOf(b, d).generation
  }

  lemma CounterStep(b: Bridge, a: Action, c: Bridge, d: DeviceId)
    requires Enabled(b, a) && c == Apply(b, a)
    ensures Counter(b, d) <= Counter(c, d)
  {
    GenerationStep(b, a, d);
  }

  lemma GenerationsOnlyGrow(states: seq<Bridge>, acts: seq<Action>, i: nat, j: nat, d: DeviceId)
    requires Run(states, acts) && i <= j < |states|
    ensures Counter(states[i], d) <= Counter(states[j], d)
  {
    var counters := seq(|states|, k requires 0 <= k < |states| => Counter(states[k], d));
    forall k | 0 <= k < |counters| - 1
      ensures counters[k] <= counters[k + 1]
    {
      CounterStep(states[k], acts[k], states[k + 1], d);
    }
    Ascending(counters, i, j);
  }

  /** Generations accepted for one device strictly increase along a run. */
  lemma AcceptedGenerationsIncrease(states: seq<Bridge>, acts: seq<Action>, i: nat, j: nat, d: DeviceId)
    requires Run(states, acts) && i < j < |acts|
    requires Accepts(states[i], acts[i], d) && Accepts(states[j], acts[j], d)
    ensures LiveGeneration(SlotOf(states[i + 1], d)).Some? && LiveGeneration(SlotOf(states[j + 1], d)).Some?
    ensures LiveGeneration(SlotOf(states[i + 1], d)).value < LiveGeneration(SlotOf(states[j + 1], d)).value
  {
    GenerationStep(states[i], acts[i], d);
    GenerationStep(states[j], acts[j], d);
    GenerationsOnlyGrow(states, acts, i + 1, j, d);
  }

  /** A live slot always carries its counter, also after a hand-over moved a session into it. */
  lemma LiveGenerationIsCounter(states: seq<Bridge>, acts: seq<Action>, n: nat, d: DeviceId)
    requires Run(states, acts) && n < |states|
    ensures LiveGeneration(SlotOf(states[n], d)).Some? ==>
              LiveGeneration(SlotOf(states[n], d)).value == SlotOf(states[n], d).generation
  {
    RunKeepsInv(states, acts, n);
  }

  /** The generation a step acts for, when it acts for one. */
  function Token(b: Bridge, a: Action): Option<(DeviceId, nat)> {
    match a
    case Install(d) => if WorkOf(b, d).Start? then Some((d, WorkOf(b, d).generation)) else None
    case Clear(d) => if WorkOf(b, d).Start? then Some((d, WorkOf(b, d).generation)) else None
    case TakePlaying(d, gen) => Some((d, gen))
    case TakeFollowing(d, gen) => Some((d, gen))
    case _ => None
  }

  /** A step that acts for a generation other than the slot's live one leaves every slot as it is. */
  lemma StaleStepChangesNoSlot(states: seq<Bridge>, acts: seq<Action>, n: nat, d: DeviceId)
    requires Run(states, acts) && n < |acts|
    requires Token(states[n], acts[n]).Some?
    requires var (owner, gen) := Token(states[n], acts[n]).value; LiveGeneration(SlotOf(states[n], owner)) != Some(gen)
    ensures SlotOf(states[n + 1], d) == SlotOf(states[n], d)
  {
  }
}
