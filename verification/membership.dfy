/**
 The speaker list a reconcile pass sends to Cast, and what its answer leaves behind.
 */
module Membership {
  import opened Common

  type DeviceId = string

  function Wanted(owner: DeviceId, followers: seq<DeviceId>): DeviceId -> bool {
    id => id == owner || id in followers
  }

  /** `s` followed by the elements of `more` it does not list yet. */
  function Joined(s: seq<DeviceId>, more: seq<DeviceId>): (r: seq<DeviceId>)
    ensures forall x :: x in r <==> x in s || x in more
  {
    if more == [] then s
    else
      var r := Joined(s, more[..|more| - 1]);
      if more[|more| - 1] in r then r else r + [more[|more| - 1]]
  }

  function Desired(castMembers: seq<DeviceId>, owner: DeviceId, followers: seq<DeviceId>): seq<DeviceId> {
    Joined(Filter(castMembers, Wanted(owner, followers)), [owner] + followers)
  }

  /** Confirmed members that stay keep their order; then the owner and followers in join order. */
  method DesiredMembers(castMembers: seq<DeviceId>, owner: DeviceId, followers: seq<DeviceId>)
    returns (desired: seq<DeviceId>)
    ensures desired == Desired(castMembers, owner, followers)
  {
    desired := [];
    for i := 0 to |castMembers|
      invariant desired == Filter(castMembers[..i], Wanted(owner, followers))
    {
      assert castMembers[..i + 1][..i] == castMembers[..i];
      if castMembers[i] == owner || castMembers[i] in followers {
        desired := desired + [castMembers[i]];
      }
    }
    assert castMembers[..|castMembers|] == castMembers;
    ghost var kept := desired;
    var joining := [owner] + followers;
    for i := 0 to |joining|
      invariant desired == Joined(kept, joining[..i])
    {
      assert joining[..i + 1][..i] == joining[..i];
      if joining[i] !in desired {
        desired := desired + [joining[i]];
      }
    }
    assert joining[..|joining|] == joining;
  }

  ghost predicate Distinct(s: seq<DeviceId>) {
    forall i, j :: 0 <= i < j < |s| ==> s[i] != s[j]
  }

  lemma {:induction false} FilterKeepsDistinct(s: seq<DeviceId>, keep: DeviceId -> bool)
    requires Distinct(s)
    ensures Distinct(Filter(s, keep))
  {
    if s != [] {
      FilterKeepsDistinct(s[..|s| - 1], keep);
    }
  }

  lemma {:induction false} JoinedKeepsDistinct(s: seq<DeviceId>, more: seq<DeviceId>)
    requires Distinct(s)
    ensures Distinct(Joined(s, more))
    ensures s <= Joined(s, more)
  {
    if more != [] {
      JoinedKeepsDistinct(s, more[..|more| - 1]);
    }
  }

  lemma {:induction false} JoinedOfListed(s: seq<DeviceId>, more: seq<DeviceId>)
    requires forall x :: x in more ==> x in s
    ensures Joined(s, more) == s
  {
    if more != [] {
      JoinedOfListed(s, more[..|more| - 1]);
    }
  }

  lemma {:induction false} FilterOfKept(s: seq<DeviceId>, keep: DeviceId -> bool)
    requires forall x :: x in s ==> keep(x)
    ensures Filter(s, keep) == s
  {
    if s != [] {
      assert s[|s| - 1] in s && s == s[..|s| - 1] + [s[|s| - 1]];
      FilterOfKept(s[..|s| - 1], keep);
    }
  }

  /** The list names exactly the owner and the followers, each once, the stayers first. */
  lemma DesiredIsMembership(castMembers: seq<DeviceId>, owner: DeviceId, followers: seq<DeviceId>)
    requires Distinct(castMembers)
    ensures var d := Desired(castMembers, owner, followers);
            && (forall x :: x in d <==> x == owner || x in followers)
            && Distinct(d)
            && Filter(castMembers, Wanted(owner, followers)) <= d
  {
    FilterKeepsDistinct(castMembers, Wanted(owner, followers));
    JoinedKeepsDistinct(Filter(castMembers, Wanted(owner, followers)), [owner] + followers);
  }

  lemma {:induction false} JoinedIs(s: seq<DeviceId>, more: seq<DeviceId>, before: seq<DeviceId>)
    requires Distinct(more) && forall x :: x in more ==> (x in s <==> x in before)
    ensures Joined(s, more) == s + Filter(more, x => x !in before)
  {
    if more != [] {
      JoinedIs(s, more[..|more| - 1], before);
    }
  }

  /** After the stayers come the owner and the followers that Cast does not have yet, in join order. */
  lemma JoinersComeInOrder(castMembers: seq<DeviceId>, owner: DeviceId, followers: seq<DeviceId>)
    requires Distinct([owner] + followers)
    ensures Desired(castMembers, owner, followers)
            == Filter(castMembers, Wanted(owner, followers)) + Filter([owner] + followers, x => x !in castMembers)
  {
    JoinedIs(Filter(castMembers, Wanted(owner, followers)), [owner] + followers, castMembers);
  }

  /**
   Reconciliation converges: once Cast answered a plan, with `failed` members it could not add, the
   confirmed list is already the desired one for the remaining followers, so no second plan is due.
   */
  lemma AnsweredPlanIsSettled(
      castMembers: seq<DeviceId>, owner: DeviceId, followers: seq<DeviceId>, failed: set<DeviceId>)
    requires owner !in failed
    ensures var confirmed := Filter(Desired(castMembers, owner, followers), d => d !in failed);
            var remaining := Filter(followers, d => d !in failed);
            Desired(confirmed, owner, remaining) == confirmed
  {
    var confirmed := Filter(Desired(castMembers, owner, followers), d => d !in failed);
    var remaining := Filter(followers, d => d !in failed);
    FilterOfKept(confirmed, Wanted(owner, remaining));
    JoinedOfListed(confirmed, [owner] + remaining);
  }
}
