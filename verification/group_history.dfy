/**
 What the group tables and the slots hold, as an exact history: a fact about them is true if and only
 if some step made it true and no step has undone it since. Steps are described by what arrives (a
 Started, an answer of Cast, an end) and by who owned the group then.
 */
module GroupHistory {
  import opened Common
  import opened Slots
  import opened Groups
  import M = Membership

  // ----- what a step is to a group ------------------------------------------------------------------

  predicate Listed(b: Bridge, d: DeviceId, g: GroupId) {
    g in b.groups && d in b.groups[g].followers
  }

  predicate Barred(b: Bridge, d: DeviceId, g: GroupId) {
    g in b.groups && d in b.groups[g].excluded
  }

  predicate Owns(b: Bridge, d: DeviceId, g: GroupId) {
    g in b.groups && b.groups[g].owner == Some(d)
  }

  /** Another device owns the group and feeds it, or is about to. */
  ghost predicate LedByOther(b: Bridge, d: DeviceId, g: GroupId) {
    exists o :: o != d && Owns(b, o, g) && StartingOrPlaying(SlotOf(b, o))
  }

  /** A Started of `d` for group `g`: it joins the group of a live owner, */
  ghost predicate Joins(b: Bridge, a: Action, d: DeviceId, g: GroupId) {
    a.Enter? && a.d == d && a.g == g && !Barred(b, d, g) && LedByOther(b, d, g)
  }

  /** or becomes the owner itself, */
  ghost predicate Leads(b: Bridge, a: Action, d: DeviceId, g: GroupId) {
    a.Enter? && a.d == d && a.g == g && !Barred(b, d, g) && !LedByOther(b, d, g)
  }

  /** or starts without the group, because Cast could not add it. */
  predicate Refused(b: Bridge, a: Action, d: DeviceId) {
    a.Enter? && a.d == d && Barred(b, d, a.g)
  }

  /** The session that `d` plays, when it plays for group `g`. */
  predicate PlaysFor(b: Bridge, d: DeviceId, g: GroupId) {
    SlotOf(b, d).state.Playing? && SlotOf(b, d).state.session.group == Some(g)
  }

  /** The owner left, and its session is handed to `m`. */
  predicate Inherits(b: Bridge, a: Action, m: DeviceId, g: GroupId) {
    a.OwnerLeft? && a.survivor == m && PlaysFor(b, a.d, g)
  }

  /** The owner's session ends and the group with it. */
  predicate Ends(b: Bridge, a: Action, g: GroupId) {
    a.EndAll? && PlaysFor(b, a.d, g)
  }

  /** A device is found dead, or nobody can be promoted, and the group has nothing left. */
  predicate Empties(b: Bridge, a: Action, g: GroupId) {
    && g in b.groups && b.groups[g].followers == []
    && ((a.PromoteMember? && a.g == g && b.groups[g].owner.None? && b.groups[g].excluded == {})
        || (a.OwnerGone? && (b.groups[g].owner.None? || Owns(b, a.d, g)) && b.groups[g].excluded <= {a.d}))
  }

  /** The device gets a new generation in its slot. */
  ghost predicate Accepted(b: Bridge, a: Action, d: DeviceId) {
    (a.Enter? && a.d == d && !Barred(b, d, a.g)) || (a.Alone? && a.d == d)
  }

  // ----- facts ----------------------------------------------------------------------------------------

  datatype Fact =
    | IsFollower(d: DeviceId, g: GroupId)
    | IsBarred(d: DeviceId, g: GroupId)
    | IsOwner(d: DeviceId, g: GroupId)
    | CastHas(g: GroupId, members: seq<DeviceId>)    // what Cast confirmed last, when it is not empty
    | IsPromoted(d: DeviceId, g: GroupId)
    | IsStarting(d: DeviceId, gen: nat)
    | IsPlaying(d: DeviceId, gen: nat, session: Session)
    | IsFollowing(d: DeviceId, gen: nat, follower: Follower)
    | IsBusy(d: DeviceId, work: Work)                     // the worker is not Waiting

  predicate Holds(b: Bridge, f: Fact) {
    match f
    case IsFollower(d, g) => Listed(b, d, g)
    case IsBarred(d, g) => Barred(b, d, g)
    case IsOwner(d, g) => Owns(b, d, g)
    case CastHas(g, members) => g in b.groups && b.groups[g].castMembers == members != []
    case IsPromoted(d, g) => g in b.groups && b.groups[g].promoting == Some(d)
    case IsStarting(d, gen) => SlotOf(b, d).state == State.Starting(gen)
    case IsPlaying(d, gen, session) => SlotOf(b, d).state == State.Playing(gen, session)
    case IsFollowing(d, gen, follower) => SlotOf(b, d).state == State.Following(gen, follower)
    case IsBusy(d, work) => WorkOf(b, d) == work && !work.Waiting?
  }

  ghost predicate Makes(b: Bridge, a: Action, f: Fact) {
    match f
    case IsFollower(d, g) => Joins(b, a, d, g)
    case IsBarred(d, g) => a.Answer? && a.g == g && g in b.groups && d in a.failed
    case IsOwner(d, g) => Leads(b, a, d, g) || Inherits(b, a, d, g)
    case CastHas(g, members) =>
      members != [] && g in b.groups &&
      ((a.Answer? && a.g == g && a.confirmed == members)
       || (a.Confirm? && a.g == g && Owns(b, a.d, g) && b.groups[g].castMembers == [] && members == [a.d]))
    case IsPromoted(d, g) =>
      && a.PromoteMember? && a.g == g && g in b.groups && b.groups[g].owner.None?
      && b.groups[g].followers != [] && b.groups[g].followers[0] == d
      && (b.groups[g].promoting.Some? ==> !Listed(b, b.groups[g].promoting.value, g))
    case IsStarting(d, gen) =>
      gen == SlotOf(b, d).generation + 1 && Accepted(b, a, d) && (a.Enter? ==> Leads(b, a, d, a.g))
    case IsPlaying(d, gen, session) =>
      || (a.Install? && a.d == d && WorkOf(b, d) == Start(gen, session.group, session.format)
          && SlotOf(b, d).state == State.Starting(gen))
      || (a.OwnerLeft? && a.survivor == d && SlotOf(b, d).state.Following? && SlotOf(b, d).state.generation == gen
          && SlotOf(b, a.d).state.Playing? && SlotOf(b, a.d).state.session == session)
    case IsFollowing(d, gen, follower) =>
      Joins(b, a, d, follower.group) && a.f == follower.format && gen == SlotOf(b, d).generation + 1
    case IsBusy(d, work) =>
      (match work
      case Waiting => false
      case Start(gen, group, format) =>
        && gen == SlotOf(b, d).generation + 1 && Accepted(b, a, d) && a.f == format
        && (if a.Enter? then Leads(b, a, d, a.g) && group == Some(a.g) else group.None?)
      case Standalone(format) => Refused(b, a, d) && a.f == format
      case CheckingOwner => a.FindDead? && a.d == d)
  }

  ghost predicate Undoes(b: Bridge, a: Action, f: Fact) {
    match f
    case IsFollower(d, g) =>
      || (a.ForgetFollower? && a.d == d && a.g == g) || (a.Answer? && a.g == g && d in a.failed)
      || Leads(b, a, d, g) || Inherits(b, a, d, g) || Ends(b, a, g)
    case IsBarred(d, g) => (a.OwnerGone? && a.d == d) || Ends(b, a, g)
    case IsOwner(d, g) =>
      || (a.OwnerGone? && a.d == d) || Ends(b, a, g)
      || (a.Enter? && Leads(b, a, a.d, g)) || (a.OwnerLeft? && Inherits(b, a, a.survivor, g))
    case CastHas(g, _) =>
      || (a.Answer? && a.g == g) || (a.MoveFailed? && a.g == g) || Ends(b, a, g) || Empties(b, a, g)
      || (a.Enter? && Leads(b, a, a.d, g) && !Owns(b, a.d, g)) || (a.OwnerGone? && Owns(b, a.d, g))
    case IsPromoted(d, g) =>
      || Leads(b, a, d, g) || Ends(b, a, g) || Empties(b, a, g)
      || (a.PromoteMember? && a.g == g && g in b.groups && b.groups[g].owner.None?
          && b.groups[g].followers != [] && !Listed(b, d, g))
    case IsStarting(d, gen) =>
      || Accepted(b, a, d) || (a.TakeSession? && a.d == d)
      || ((a.Install? || a.Clear?) && a.d == d && WorkOf(b, d).Start? && WorkOf(b, d).generation == gen)
    case IsPlaying(d, gen, _) =>
      || Accepted(b, a, d) || (a.TakeSession? && a.d == d) || (a.TakePlaying? && a.d == d && a.gen == gen)
      || (a.OwnerLeft? && a.d == d) || (a.EndAll? && a.d == d)
    case IsFollowing(d, gen, follower) =>
      || Accepted(b, a, d) || (a.TakeSession? && a.d == d) || (a.TakeFollowing? && a.d == d && a.gen == gen)
      || (a.OwnerLeft? && a.survivor == d) || (Ends(b, a, follower.group) && Listed(b, d, follower.group))
    case IsBusy(d, _) => (a.Install? || a.Clear? || a.Alone? || a.OwnerGone?) && a.d == d
  }

  // ----- one step -------------------------------------------------------------------------------------

  lemma EnterCases(b: Bridge, d: DeviceId, g: GroupId)
    ensures OwnerLive(b, d, g) <==> LedByOther(b, d, g)
    ensures d in GroupOf(b, g).excluded <==> Barred(b, d, g)
  {
    if OwnerLive(b, d, g) {
      assert Owns(b, GroupOf(b, g).owner.value, g);
    }
  }

  /** The fact after the step is as its history says. */
  ghost predicate Tracks(b: Bridge, a: Action, f: Fact)
    requires Enabled(b, a)
  {
    Holds(Apply(b, a), f) == (Makes(b, a, f) || (Holds(b, f) && !Undoes(b, a, f)))
  }

  lemma EnterIsFollower(b: Bridge, a: Action, f: Fact)
    requires Enabled(b, a) && a.Enter? && f.IsFollower?
    ensures Tracks(b, a, f)
  {
    EnterCases(b, a.d, a.g);
  }

  lemma OtherIsFollower(b: Bridge, a: Action, f: Fact)
    requires Enabled(b, a) && !a.Enter? && f.IsFollower?
    ensures Tracks(b, a, f)
  {
  }

  lemma EnterIsBarred(b: Bridge, a: Action, f: Fact)
    requires Enabled(b, a) && a.Enter? && f.IsBarred?
    ensures Tracks(b, a, f)
  {
    EnterCases(b, a.d, a.g);
  }

  lemma OtherIsBarred(b: Bridge, a: Action, f: Fact)
    requires Enabled(b, a) && !a.Enter? && f.IsBarred?
    ensures Tracks(b, a, f)
  {
  }

  lemma EnterIsOwner(b: Bridge, a: Action, f: Fact)
    requires Enabled(b, a) && a.Enter? && f.IsOwner?
    ensures Tracks(b, a, f)
  {
    EnterCases(b, a.d, a.g);
  }

  lemma OtherIsOwner(b: Bridge, a: Action, f: Fact)
    requires Enabled(b, a) && !a.Enter? && f.IsOwner?
    ensures Tracks(b, a, f)
  {
  }

  lemma EnterCastHas(b: Bridge, a: Action, f: Fact)
    requires Enabled(b, a) && a.Enter? && f.CastHas?
    ensures Tracks(b, a, f)
  {
    EnterCases(b, a.d, a.g);
  }

  lemma OtherCastHas(b: Bridge, a: Action, f: Fact)
    requires Enabled(b, a) && !a.Enter? && f.CastHas?
    ensures Tracks(b, a, f)
  {
  }

  lemma EnterIsPromoted(b: Bridge, a: Action, f: Fact)
    requires Enabled(b, a) && a.Enter? && f.IsPromoted?
    ensures Tracks(b, a, f)
  {
    EnterCases(b, a.d, a.g);
  }

  lemma OtherIsPromoted(b: Bridge, a: Action, f: Fact)
    requires Enabled(b, a) && !a.Enter? && f.IsPromoted?
    ensures Tracks(b, a, f)
  {
  }

  lemma EnterIsStarting(b: Bridge, a: Action, f: Fact)
    requires Enabled(b, a) && a.Enter? && f.IsStarting?
    ensures Tracks(b, a, f)
  {
    EnterCases(b, a.d, a.g);
  }

  lemma OtherIsStarting(b: Bridge, a: Action, f: Fact)
    requires Enabled(b, a) && !a.Enter? && f.IsStarting?
    ensures Tracks(b, a, f)
  {
  }

  lemma EnterIsPlaying(b: Bridge, a: Action, f: Fact)
    requires Enabled(b, a) && a.Enter? && f.IsPlaying?
    ensures Tracks(b, a, f)
  {
    EnterCases(b, a.d, a.g);
  }

  lemma OtherIsPlaying(b: Bridge, a: Action, f: Fact)
    requires Enabled(b, a) && !a.Enter? && f.IsPlaying?
    ensures Tracks(b, a, f)
  {
  }

  lemma EnterIsFollowing(b: Bridge, a: Action, f: Fact)
    requires Enabled(b, a) && a.Enter? && f.IsFollowing?
    ensures Tracks(b, a, f)
  {
    EnterCases(b, a.d, a.g);
  }

  lemma OtherIsFollowing(b: Bridge, a: Action, f: Fact)
    requires Enabled(b, a) && !a.Enter? && f.IsFollowing?
    ensures Tracks(b, a, f)
  {
  }

  lemma EnterIsBusy(b: Bridge, a: Action, f: Fact)
    requires Enabled(b, a) && a.Enter? && f.IsBusy?
    ensures Tracks(b, a, f)
  {
    EnterCases(b, a.d, a.g);
  }

  lemma OtherIsBusy(b: Bridge, a: Action, f: Fact)
    requires Enabled(b, a) && !a.Enter? && f.IsBusy?
    ensures Tracks(b, a, f)
  {
  }
  lemma StepTracks(b: Bridge, a: Action, f: Fact)
    requires Enabled(b, a)
    ensures Tracks(b, a, f)
  {
    match f
    case IsFollower(_, _) => if a.Enter? { EnterIsFollower(b, a, f); } else { OtherIsFollower(b, a, f); }
    case IsBarred(_, _) => if a.Enter? { EnterIsBarred(b, a, f); } else { OtherIsBarred(b, a, f); }
    case IsOwner(_, _) => if a.Enter? { EnterIsOwner(b, a, f); } else { OtherIsOwner(b, a, f); }
    case CastHas(_, _) => if a.Enter? { EnterCastHas(b, a, f); } else { OtherCastHas(b, a, f); }
    case IsPromoted(_, _) => if a.Enter? { EnterIsPromoted(b, a, f); } else { OtherIsPromoted(b, a, f); }
    case IsStarting(_, _) => if a.Enter? { EnterIsStarting(b, a, f); } else { OtherIsStarting(b, a, f); }
    case IsPlaying(_, _, _) => if a.Enter? { EnterIsPlaying(b, a, f); } else { OtherIsPlaying(b, a, f); }
    case IsFollowing(_, _, _) => if a.Enter? { EnterIsFollowing(b, a, f); } else { OtherIsFollowing(b, a, f); }
    case IsBusy(_, _) => if a.Enter? { EnterIsBusy(b, a, f); } else { OtherIsBusy(b, a, f); }
  }

  // ----- whole runs -------------------------------------------------------------------------------------

  ghost function HoldsOf(f: Fact): Bridge -> bool {
    b => Holds(b, f)
  }

  ghost function MakesOf(f: Fact): (Bridge, Action) -> bool {
    (b, a) => Makes(b, a, f)
  }

  ghost function UndoesOf(f: Fact): (Bridge, Action) -> bool {
    (b, a) => Undoes(b, a, f)
  }

  lemma TrackedStep(states: seq<Bridge>, acts: seq<Action>, k: nat, f: Fact)
    requires Run(states, acts) && k < |acts|
    ensures HoldsOf(f)(states[k + 1])
            == (MakesOf(f)(states[k], acts[k]) || (HoldsOf(f)(states[k]) && !UndoesOf(f)(states[k], acts[k])))
  {
    StepTracks(states[k], acts[k], f);
  }

  lemma NothingAtFirst(states: seq<Bridge>, acts: seq<Action>, f: Fact)
    requires Run(states, acts)
    ensures !Holds(states[0], f)
  {
  }

  /**
   Exactly what holds after any run: a fact holds if and only if some step made it and no later step has
   undone it.
   */
  lemma FactHoldsIff(states: seq<Bridge>, acts: seq<Action>, n: nat, f: Fact)
    requires Run(states, acts) && n < |states|
    ensures Holds(states[n], f) <==>
              exists i :: 0 <= i < n && Makes(states[i], acts[i], f)
                          && forall k :: i < k < n ==> !Undoes(states[k], acts[k], f)
  {
    NothingAtFirst(states, acts, f);
    forall k | 0 <= k < |acts|
      ensures HoldsOf(f)(states[k + 1])
              == (MakesOf(f)(states[k], acts[k]) || (HoldsOf(f)(states[k]) && !UndoesOf(f)(states[k], acts[k])))
    {
      TrackedStep(states, acts, k, f);
    }
    SetUntilCleared(states, acts, n, HoldsOf(f), MakesOf(f), UndoesOf(f));
  }

  /** A device that joined a group is on the list that goes to Cast until a step drops it. */
  lemma FollowerIsDesired(states: seq<Bridge>, acts: seq<Action>, i: nat, n: nat, d: DeviceId, g: GroupId)
    requires Run(states, acts) && i < n < |states| && Joins(states[i], acts[i], d, g)
    requires forall k :: i < k < n ==> !Undoes(states[k], acts[k], IsFollower(d, g))
    ensures Listed(states[n], d, g)
    ensures var grp := states[n].groups[g];
            grp.owner.Some? ==> d in M.Desired(grp.castMembers, grp.owner.value, grp.followers)
  {
    FactHoldsIff(states, acts, n, IsFollower(d, g));
  }

  // ----- join order -------------------------------------------------------------------------------------

  /** `x` stands before `y` in `s`. */
  ghost predicate Ahead(s: seq<DeviceId>, x: DeviceId, y: DeviceId) {
    exists i, j :: 0 <= i < j < |s| && s[i] == x && s[j] == y
  }

  lemma {:induction false} FilterKeepsOrder(s: seq<DeviceId>, keep: DeviceId -> bool, x: DeviceId, y: DeviceId)
    ensures Ahead(Filter(s, keep), x, y) <==> Ahead(s, x, y) && keep(x) && keep(y)
  {
    if s != [] {
      var init, last := s[..|s| - 1], s[|s| - 1];
      FilterKeepsOrder(init, keep, x, y);
      AheadOfOneMore(init, last, x, y);
      AheadOfOneMore(Filter(init, keep), last, x, y);
      assert s == init + [last];
      assert Filter(s, keep) == if keep(last) then Filter(init, keep) + [last] else Filter(init, keep);
      AheadIsListed(Filter(init, keep), x, y);
      AheadIsListed(init, x, y);
    }
  }

  lemma AheadIsListed(s: seq<DeviceId>, x: DeviceId, y: DeviceId)
    ensures Ahead(s, x, y) ==> x in s && y in s
  {
  }

  lemma AheadOfOneMore(s: seq<DeviceId>, last: DeviceId, x: DeviceId, y: DeviceId)
    ensures Ahead(s + [last], x, y) <==> Ahead(s, x, y) || (x in s && y == last)
  {
    if Ahead(s, x, y) {
      var i, j :| 0 <= i < j < |s| && s[i] == x && s[j] == y;
      assert (s + [last])[i] == x && (s + [last])[j] == y;
    }
    if x in s && y == last {
      var i :| 0 <= i < |s| && s[i] == x;
      assert (s + [last])[i] == x && (s + [last])[|s|] == y;
    }
  }

  ghost predicate ListedAhead(b: Bridge, x: DeviceId, y: DeviceId, g: GroupId) {
    g in b.groups && Ahead(b.groups[g].followers, x, y)
  }

  /** The followers after a step: as they were, one more at the end, or some of them left out. */
  lemma FollowersStep(b: Bridge, a: Action, g: GroupId)
    requires Enabled(b, a) && g in Apply(b, a).groups
    ensures var was, now := GroupOf(b, g).followers, Apply(b, a).groups[g].followers;
            || now == was || (a.Enter? && now == was + [a.d] && a.d !in was)
            || exists gone :: now == Without(was, gone)
  {
    match a
    case Enter(d, _, _) => assert Without(GroupOf(b, g).followers, {d}) == Without(GroupOf(b, g).followers, {d});
    case ForgetFollower(d, _) => assert Without(GroupOf(b, g).followers, {d}) == Without(GroupOf(b, g).followers, {d});
    case OwnerLeft(_, m) => assert Without(GroupOf(b, g).followers, {m}) == Without(GroupOf(b, g).followers, {m});
    case Answer(_, _, failed) => assert Without(GroupOf(b, g).followers, failed) == Without(GroupOf(b, g).followers, failed);
    case _ =>
  }

  /** Followers keep their order: of two that stay listed, the one that was ahead stays ahead. */
  lemma JoinOrderIsKept(b: Bridge, a: Action, x: DeviceId, y: DeviceId, g: GroupId)
    requires Enabled(b, a) && Listed(b, x, g) && Listed(Apply(b, a), x, g) && Listed(Apply(b, a), y, g) && x != y
    ensures ListedAhead(Apply(b, a), x, y, g) <==> ListedAhead(b, x, y, g) || !Listed(b, y, g)
  {
    FollowersStep(b, a, g);
    var was, now := b.groups[g].followers, Apply(b, a).groups[g].followers;
    if a.Enter? && now == was + [a.d] && a.d !in was {
      AheadOfOneMore(was, a.d, x, y);
    } else if now != was {
      var gone :| now == Without(was, gone);
      FilterKeepsOrder(was, d => d !in gone, x, y);
    }
  }

  /** Exactly who can be handed the session of the owner `d`: a confirmed follower with its format. */
  lemma HeirIff(b: Bridge, d: DeviceId, m: DeviceId)
    ensures Enabled(b, OwnerLeft(d, m)) <==>
              && WorkOf(b, d).Waiting? && SlotOf(b, d).state.Playing? && SlotOf(b, d).state.session.group.Some?
              && var g := SlotOf(b, d).state.session.group.value;
                 && Owns(b, d, g) && Listed(b, m, g) && m in b.groups[g].castMembers
                 && SlotOf(b, m).state.Following? && SlotOf(b, m).state.follower.format == SlotOf(b, d).state.session.format
  {
  }

  // ----- what can be done next ------------------------------------------------------------------------------

  function Execute(b: Bridge, acts: seq<Action>): Option<Bridge>
    decreases |acts|
  {
    if acts == [] then Some(b)
    else if Enabled(b, acts[0]) then Execute(Apply(b, acts[0]), acts[1..])
    else None
  }

  /** The sections that end what the worker of `d` is busy with. */
  function FinishWork(b: Bridge, d: DeviceId): seq<Action> {
    match WorkOf(b, d)
    case Waiting => []
    case Start(_, _, _) => [Clear(d)]
    case Standalone(f) => [Alone(d, f), Clear(d)]
    case CheckingOwner => [OwnerGone(d)]
  }

  lemma WorkCanFinish(b: Bridge, d: DeviceId)
    ensures var r := Execute(b, FinishWork(b, d)); r.Some? && WorkOf(r.value, d).Waiting?
  {
    match WorkOf(b, d)
    case Standalone(f) =>
      var u := Apply(b, Alone(d, f));
      assert Execute(u, [Clear(d)]) == Some(Apply(u, Clear(d)));
    case _ =>
  }

  /** What a member does with a Started: it takes its role in the group, and plays if it is not to follow. */
  function JoinAndPlay(b: Bridge, d: DeviceId, g: GroupId, f: Format): seq<Action>
    requires WorkOf(b, d).Waiting?
  {
    [Enter(d, g, f)] +
    match WorkOf(EnterGroup(b, d, g, f), d)
    case Waiting => []
    case Standalone(_) => [Alone(d, f), Install(d)]
    case _ => [Install(d)]
  }

  /**
   A device that takes part comes to play: barred members play alone, a member of a group with a live
   owner follows it, and any other plays for the group as its owner.
   */
  lemma MemberComesToPlay(b: Bridge, d: DeviceId, g: GroupId, f: Format)
    requires WorkOf(b, d).Waiting?
    ensures var r := Execute(b, JoinAndPlay(b, d, g, f));
            && r.Some? && WorkOf(r.value, d).Waiting?
            && var gen, state := SlotOf(b, d).generation + 1, SlotOf(r.value, d).state;
               if Barred(b, d, g) then state == State.Playing(gen, Session(None, f))
               else if LedByOther(b, d, g) then state == State.Following(gen, Follower(g, f)) && Listed(r.value, d, g)
               else state == State.Playing(gen, Session(Some(g), f)) && Owns(r.value, d, g)
  {
    var u := Apply(b, Enter(d, g, f));
    if WorkOf(u, d).Standalone? {
      var v := Apply(u, Alone(d, f));
      assert Execute(v, [Install(d)]) == Some(Apply(v, Install(d)));
      assert Execute(u, [Alone(d, f), Install(d)]) == Some(Apply(v, Install(d)));
      assert ([Enter(d, g, f)] + [Alone(d, f), Install(d)])[1..] == [Alone(d, f), Install(d)];
    } else if WorkOf(u, d).Start? {
      assert Execute(u, [Install(d)]) == Some(Apply(u, Install(d)));
      assert ([Enter(d, g, f)] + [Install(d)])[1..] == [Install(d)];
    } else {
      assert [Enter(d, g, f)] + [] == [Enter(d, g, f)];
    }
  }

  /** A group whose owner is found dead asks its first follower to start, unless one is asked already. */
  lemma DeadOwnerIsReplaced(b: Bridge, d: DeviceId, g: GroupId)
    requires g in b.groups && Owns(b, d, g) && b.groups[g].followers != []
    requires WorkOf(b, d).Waiting? && SlotOf(b, d).state.Idle?
    ensures var r := Execute(b, [FindDead(d), OwnerGone(d), PromoteMember(g)]);
            && r.Some? && g in r.value.groups && r.value.groups[g].owner.None?
            && r.value.groups[g].followers == b.groups[g].followers
            && var asked := r.value.groups[g].promoting;
               asked.Some? && asked.value in b.groups[g].followers
               && (asked == b.groups[g].promoting || asked.value == b.groups[g].followers[0])
  {
    var u := Apply(b, FindDead(d));
    var v := Apply(u, OwnerGone(d));
    assert g in v.groups && v.groups[g].followers == b.groups[g].followers;
    assert Execute(v, [PromoteMember(g)]) == Some(Apply(v, PromoteMember(g)));
    assert Execute(u, [OwnerGone(d), PromoteMember(g)]) == Some(Apply(v, PromoteMember(g)));
  }

  /** A device without a group plays alone. */
  lemma DeviceComesToPlayAlone(b: Bridge, d: DeviceId, f: Format)
    requires WorkOf(b, d).Waiting?
    ensures var r := Execute(b, [Alone(d, f), Install(d)]);
            && r.Some? && WorkOf(r.value, d).Waiting?
            && SlotOf(r.value, d).state == State.Playing(SlotOf(b, d).generation + 1, Session(None, f))
  {
    var u := Apply(b, Alone(d, f));
    assert Execute(u, [Install(d)]) == Some(Apply(u, Install(d)));
  }

  /** The end of a session that plays for a group stops it and all its followers, and forgets the group. */
  lemma GroupEnds(b: Bridge, d: DeviceId, g: GroupId, m: DeviceId)
    requires PlaysFor(b, d, g) && Owns(b, d, g)
    ensures Enabled(b, EndAll(d)) && g !in Apply(b, EndAll(d)).groups
    ensures var r := Apply(b, EndAll(d));
            && SlotOf(r, d).state.Idle?
            && (Listed(b, m, g) && SlotOf(b, m).state.Following? && SlotOf(b, m).state.follower.group == g ==>
                  SlotOf(r, m).state.Idle?)
  {
  }
}
