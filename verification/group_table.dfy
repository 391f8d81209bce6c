/**
 The devices and groups tables as the group operations update them in place. Each method is one
 section under the locks, proved to be the step of the same name in Groups.
 */
module GroupTables {
  import opened Common
  import opened Slots
  import G = Groups

  type DeviceId = G.DeviceId
  type GroupId = G.GroupId

  datatype Role = Owner(generation: nat) | Follows | Alone

  class GroupTable {
    var slots: map<DeviceId, G.DevSlot>
    var groups: map<GroupId, G.Group>
    var work: map<DeviceId, G.Work>

    function View(): G.Bridge
      reads this
    {
      G.Bridge(slots, groups, work)
    }

    constructor ()
      ensures G.Init(View())
    {
      slots, groups, work := map[], map[], map[];
    }

    /** enter_group: the role is decided and the slot installed under both locks. */
    method EnterGroup(d: DeviceId, g: GroupId, f: G.Format) returns (role: Role)
      modifies this
      ensures View() == G.EnterGroup(old(View()), d, g, f)
      ensures role.Follows? <==> d !in G.GroupOf(old(View()), g).excluded && G.OwnerLive(old(View()), d, g)
      ensures role.Alone? <==> d in G.GroupOf(old(View()), g).excluded
      ensures role.Alone? ==> slots == old(slots) && groups == old(groups)
      ensures role.Follows? ==>
                var was := G.GroupOf(old(View()), g);
                && g in groups && groups[g].owner == was.owner && groups[g].castMembers == was.castMembers
                && (forall x :: x in groups[g].followers <==> x in was.followers || x == d) && was.followers <= groups[g].followers
                && var gen := G.SlotOf(old(View()), d).generation + 1;
                   d in slots && slots[d] == Slot(gen, Following(gen, G.Follower(g, f)))
      ensures role.Owner? ==>
                var was := G.GroupOf(old(View()), g);
                && g in groups && groups[g].owner == Some(d)
                && (forall x :: x in groups[g].followers <==> x in was.followers && x != d)
                && role.generation == G.SlotOf(old(View()), d).generation + 1
                && d in slots && slots[d] == Slot(role.generation, Starting(role.generation))
    {
      var grp := G.GroupOf(View(), g);
      if d in grp.excluded {
        work := work[d := G.Standalone(f)];
        return Alone;
      }
      var slot := G.SlotOf(View(), d);
      if G.OwnerLive(View(), d, g) {
        if d !in grp.followers {
          grp := grp.(followers := grp.followers + [d]);
        }
        groups := groups[g := grp];
        slots := slots[d := AcceptFollower(slot, G.Follower(g, f))];
        return Follows;
      }
      if grp.owner != Some(d) {
        grp := grp.(castMembers := []);
      }
      grp := grp.(owner := Some(d), followers := G.Without(grp.followers, {d}));
      if grp.promoting == Some(d) {
        grp := grp.(promoting := None);
      }
      groups := groups[g := grp];
      slot := AcceptStart(slot);
      slots := slots[d := slot];
      work := work[d := G.Start(slot.generation, Some(g), f)];
      role := Owner(slot.generation);
    }

    /** The first follower in join order the owner's session can be handed to. */
    method FindSurvivor(grp: G.Group, f: G.Format) returns (survivor: Option<DeviceId>)
      ensures survivor.Some? ==>
                exists k :: 0 <= k < |grp.followers| && grp.followers[k] == survivor.value
                            && G.CanSurvive(View(), grp, survivor.value, f)
                            && forall j :: 0 <= j < k ==> !G.CanSurvive(View(), grp, grp.followers[j], f)
      ensures survivor.None? <==> forall m :: m in grp.followers ==> !G.CanSurvive(View(), grp, m, f)
    {
      for i := 0 to |grp.followers|
        invariant forall k :: 0 <= k < i ==> !G.CanSurvive(View(), grp, grp.followers[k], f)
      {
        if G.CanSurvive(View(), grp, grp.followers[i], f) {
          return Some(grp.followers[i]);
        }
      }
      survivor := None;
    }

    /** group_owner_left: hands the session over exactly when some member can take it. */
    method OwnerLeft(d: DeviceId, generation: nat) returns (survivor: Option<DeviceId>)
      modifies this
      ensures survivor.Some? ==>
                && G.HandOverReady(old(View()), d, survivor.value)
                && View() == G.HandOver(old(View()), d, survivor.value)
                && var (was, now) := (G.SlotOf(old(View()), survivor.value), G.SlotOf(View(), survivor.value));
                   && now == Slot(was.generation, Playing(was.state.generation, G.SlotOf(old(View()), d).state.session))
                   && G.SlotOf(View(), d).state.Idle?
      ensures survivor.None? ==> View() == old(View())
      ensures survivor.None? <==>
                || !G.SlotOf(old(View()), d).state.Playing?
                || G.SlotOf(old(View()), d).state.generation != generation
                || forall m :: !G.HandOverReady(old(View()), d, m)
    {
      survivor := None;
      var state := G.SlotOf(View(), d).state;
      if !state.Playing? || state.generation != generation || state.session.group.None? {
        return;
      }
      var g := state.session.group.value;
      if g !in groups || groups[g].owner != Some(d) {
        return;
      }
      survivor := FindSurvivor(groups[g], state.session.format);
      if survivor.None? {
        return;
      }
      var m := survivor.value;
      ghost var before := View();
      assert before == old(View()) && G.HandOverReady(before, d, m);
      var following := slots[m];
      slots := slots[d := TakeLive(slots[d])];
      slots := slots[m := following.(state := Playing(following.state.generation, state.session))];
      groups := groups[g := groups[g].(owner := Some(m), followers := G.Without(groups[g].followers, {m}))];
    }

    /** The groups section of group_check_owner: every group the dead device owned or was barred from. */
    method CheckOwner(d: DeviceId)
      modifies this
      ensures View() == G.CheckOwner(old(View()), d)
      ensures forall g :: g in groups ==> groups[g].owner != Some(d) && d !in groups[g].excluded
    {
      var todo := groups.Keys;
      while todo != {}
        invariant todo <= groups.Keys == old(groups).Keys
        invariant forall g :: g in groups ==>
                    groups[g] == if g in todo then old(groups)[g] else G.Orphaned(old(groups)[g], d)
        invariant slots == old(slots) && work == old(work)
        decreases |todo|
      {
        var g :| g in todo;
        groups := groups[g := G.Orphaned(groups[g], d)];
        todo := todo - {g};
      }
      groups := map g | g in groups && !G.EmptyGroup(groups[g]) :: groups[g];
      work := work[d := G.Waiting];
    }

    /** end_group: forgets the group and stops the followers that still follow it. */
    method EndGroup(g: GroupId) returns (ended: seq<DeviceId>)
      modifies this
      ensures View() == G.EndGroup(old(View()), g)
      ensures forall d :: d in ended <==>
                g in old(groups) && d in old(groups)[g].followers && d in old(slots) && G.FollowsGroup(old(slots)[d], g)
    {
      ended := [];
      if g !in groups {
        return;
      }
      var members := groups[g].followers;
      groups := groups - {g};
      for i := 0 to |members|
        invariant groups == old(groups) - {g} && work == old(work)
        invariant slots.Keys == old(slots).Keys
        invariant forall d :: d in slots ==>
                    slots[d] == if d in members[..i] && G.FollowsGroup(old(slots)[d], g) then TakeLive(old(slots)[d])
                                else old(slots)[d]
        invariant forall d :: d in ended <==> d in members[..i] && d in old(slots) && G.FollowsGroup(old(slots)[d], g)
      {
        var d := members[i];
        assert members[..i + 1] == members[..i] + [d];
        if d in slots && G.FollowsGroup(slots[d], g) {
          slots := slots[d := TakeLive(slots[d])];
          ended := ended + [d];
        }
      }
      assert members[..|members|] == members;
    }
  }
}
