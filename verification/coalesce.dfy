/**
 The command loop of the Cast worker: consecutive volume commands that are already queued become one,
 consecutive metadata updates too, and the first other command a drain meets waits in `pending`.
 `visible` is the race with the senders: how many queued commands a drain that starts with a given
 number of commands left still finds.
 */
module Coalesce {
  import opened Common

  type Level = real
  type Track = string
  type ReplyId = nat

  datatype Command =
    | SetVolume(level: Level, reply: ReplyId)
    | UpdateMetadata(track: Track)
    | Other(id: nat, reply: ReplyId)

  /** One pass of the command loop. */
  datatype Pass =
    | Volume(level: Level, replies: seq<ReplyId>)
    | Metadata(track: Track)
    | Ran(id: nat, reply: ReplyId)

  // ----- what the loop does -------------------------------------------------------------------

  predicate SameKind(a: Command, b: Command) {
    (a.SetVolume? && b.SetVolume?) || (a.UpdateMetadata? && b.UpdateMetadata?)
  }

  /** How many of the first `n` commands a drain that started with `first` takes. */
  function Drained(first: Command, q: seq<Command>, n: nat): (k: nat)
    ensures k <= |q|
    ensures forall i :: 0 <= i < k ==> SameKind(first, q[i])
  {
    if n == 0 || q == [] || !SameKind(first, q[0]) then 0 else 1 + Drained(first, q[1..], n - 1)
  }

  function Replies(cs: seq<Command>): seq<ReplyId> {
    if cs == [] then []
    else (if cs[0].UpdateMetadata? then [] else [cs[0].reply]) + Replies(cs[1..])
  }

  /** The pass for a burst of one kind: the last command decides. */
  function PassOf(burst: seq<Command>): Pass
    requires burst != []
  {
    match burst[|burst| - 1]
    case SetVolume(level, _) => Volume(level, Replies(burst))
    case UpdateMetadata(track) => Metadata(track)
    case Other(id, reply) => Ran(id, reply)
  }

  function Passes(q: seq<Command>, visible: nat -> nat): seq<Pass>
    decreases |q|
  {
    if q == [] then []
    else
      var k := 1 + Drained(q[0], q[1..], visible(|q|));
      [PassOf(q[..k])] + Passes(q[k..], visible)
  }

  // ----- the loop itself ----------------------------------------------------------------------

  /** The command that waits in `pending` is ahead of the channel. */
  function Front(pending: Option<Command>): seq<Command> {
    if pending.Some? then [pending.value] else []
  }

  /** coalesce_set_volume; `rest` is what stays in the channel. */
  method CoalesceSetVolume(level: Level, reply: ReplyId, queue: seq<Command>, sees: nat)
    returns (final: Level, replies: seq<ReplyId>, pending: Option<Command>, rest: seq<Command>)
    ensures var k := Drained(SetVolume(level, reply), queue, sees);
            && Volume(final, replies) == PassOf([SetVolume(level, reply)] + queue[..k])
            && Front(pending) + rest == queue[k..]
  {
    ghost var first := SetVolume(level, reply);
    ghost var burst := [first];
    final, replies, rest := level, [reply], queue;
    var left := sees;
    assert Replies([first]) == [reply];
    while left > 0 && rest != []
      invariant burst != [] && burst + rest == [first] + queue
      invariant |burst| - 1 + Drained(first, rest, left) == Drained(first, queue, sees)
      invariant PassOf(burst) == Volume(final, replies)
    {
      var next := rest[0];
      if !next.SetVolume? {
        SplitOfBurst(first, queue, burst, rest);
        return final, replies, Some(next), rest[1..];
      }
      OneMoreVolume(burst, next);
      burst, rest := burst + [next], rest[1..];
      final, replies, left := next.level, replies + [next.reply], left - 1;
    }
    SplitOfBurst(first, queue, burst, rest);
    pending := None;
  }

  lemma OneMoreVolume(burst: seq<Command>, next: Command)
    requires burst != [] && PassOf(burst).Volume? && next.SetVolume?
    ensures PassOf(burst + [next]) == Volume(next.level, PassOf(burst).replies + [next.reply])
  {
    RepliesOfOneMore(burst, next);
    assert Replies([next]) == [next.reply];
  }

  lemma SplitOfBurst(first: Command, queue: seq<Command>, burst: seq<Command>, rest: seq<Command>)
    requires burst != [] && burst + rest == [first] + queue
    ensures |burst| - 1 <= |queue| && burst == [first] + queue[..|burst| - 1] && rest == queue[|burst| - 1..]
  {
    assert ([first] + queue)[..|burst|] == burst && ([first] + queue)[|burst|..] == rest;
  }

  method CoalesceMetadata(track: Track, queue: seq<Command>, sees: nat)
    returns (latest: Track, pending: Option<Command>, rest: seq<Command>)
    ensures var k := Drained(UpdateMetadata(track), queue, sees);
            && Metadata(latest) == PassOf([UpdateMetadata(track)] + queue[..k])
            && Front(pending) + rest == queue[k..]
  {
    ghost var first := UpdateMetadata(track);
    ghost var burst := [first];
    latest, rest := track, queue;
    var left := sees;
    while left > 0 && rest != []
      invariant burst != [] && burst + rest == [first] + queue
      invariant |burst| - 1 + Drained(first, rest, left) == Drained(first, queue, sees)
      invariant PassOf(burst) == Metadata(latest)
    {
      var next := rest[0];
      if !next.UpdateMetadata? {
        SplitOfBurst(first, queue, burst, rest);
        return latest, Some(next), rest[1..];
      }
      burst, rest := burst + [next], rest[1..];
      latest, left := next.track, left - 1;
    }
    SplitOfBurst(first, queue, burst, rest);
    pending := None;
  }

  /** One pass: `queue` is the channel behind `cmd`. */
  method RunOne(cmd: Command, queue: seq<Command>, sees: nat)
    returns (pass: Pass, pending: Option<Command>, rest: seq<Command>)
    ensures var k := Drained(cmd, queue, sees);
            pass == PassOf([cmd] + queue[..k]) && Front(pending) + rest == queue[k..]
  {
    match cmd
    case SetVolume(level, reply) =>
      var final, replies;
      final, replies, pending, rest := CoalesceSetVolume(level, reply, queue, sees);
      pass := Volume(final, replies);
    case UpdateMetadata(track) =>
      var latest;
      latest, pending, rest := CoalesceMetadata(track, queue, sees);
      pass := Metadata(latest);
    case Other(id, reply) =>
      pass, pending, rest := Ran(id, reply), None, queue;
      assert [cmd] + queue[..0] == [cmd];
  }

  /** Takes the next command, from `waiting` first, and runs it with what it drains. */
  method RunNext(waiting: Option<Command>, queue: seq<Command>, visible: nat -> nat)
    returns (pass: Pass, pending: Option<Command>, rest: seq<Command>)
    requires waiting.Some? || queue != []
    ensures Passes(Front(waiting) + queue, visible) == [pass] + Passes(Front(pending) + rest, visible)
    ensures |Front(pending) + rest| < |Front(waiting) + queue|
  {
    var cmd := if waiting.Some? then waiting.value else queue[0];
    var behind := if waiting.Some? then queue else queue[1..];
    assert Front(waiting) + queue == [cmd] + behind;
    PassesOfNext(cmd, behind, visible);
    pass, pending, rest := RunOne(cmd, behind, visible(|behind| + 1));
  }

  lemma PassesOfNext(cmd: Command, behind: seq<Command>, visible: nat -> nat)
    ensures var k := Drained(cmd, behind, visible(|behind| + 1));
            Passes([cmd] + behind, visible) == [PassOf([cmd] + behind[..k])] + Passes(behind[k..], visible)
  {
    var all := [cmd] + behind;
    assert all[1..] == behind && all[0] == cmd && |all| == |behind| + 1;
    var k := Drained(cmd, behind, visible(|behind| + 1));
    assert all[..k + 1] == [cmd] + behind[..k] && all[k + 1..] == behind[k..];
  }

  /** The loop of worker_main over all the commands that are ever sent. */
  method WorkerLoop(queue: seq<Command>, visible: nat -> nat) returns (passes: seq<Pass>)
    ensures passes == Passes(queue, visible)
  {
    passes := [];
    var pending, rest := None, queue;
    assert Front(pending) + rest == queue;
    while pending.Some? || rest != []
      invariant passes + Passes(Front(pending) + rest, visible) == Passes(queue, visible)
      decreases |Front(pending) + rest|
    {
      var pass;
      pass, pending, rest := RunNext(pending, rest, visible);
      passes := passes + [pass];
    }
  }

  /** The passes for `q` are one for its first burst of `k` commands, then those for the others. */
  lemma FirstPass(q: seq<Command>, visible: nat -> nat) returns (k: nat)
    requires q != []
    ensures k == 1 + Drained(q[0], q[1..], visible(|q|)) <= |q|
    ensures Passes(q, visible) == [PassOf(q[..k])] + Passes(q[k..], visible)
    ensures q == q[..k] + q[k..]
    ensures forall c :: c in q[..k] ==> c == q[0] || SameKind(q[0], c)
    ensures q[0].Other? ==> q[..k] == [q[0]]
  {
    k := 1 + Drained(q[0], q[1..], visible(|q|));
    BurstKind(q, k);
  }

  lemma BurstKind(q: seq<Command>, k: nat)
    requires 0 < k <= |q| && forall i :: 0 <= i < k - 1 ==> SameKind(q[0], q[1..][i])
    ensures forall c :: c in q[..k] ==> c == q[0] || SameKind(q[0], c)
    ensures q[0].Other? ==> q[..k] == [q[0]]
  {
    assert forall i :: 0 < i < k ==> q[..k][i] == q[1..][i - 1];
    if k > 1 {
      assert SameKind(q[0], q[1..][0]);
    }
  }

  // ----- every reply once, other commands in order -----------------------------------------------

  lemma {:induction false} RepliesOfOneMore(cs: seq<Command>, c: Command)
    ensures Replies(cs + [c]) == Replies(cs) + Replies([c])
  {
    if cs != [] {
      assert (cs + [c])[1..] == cs[1..] + [c];
      RepliesOfOneMore(cs[1..], c);
    }
  }

  lemma {:induction false} RepliesOfParts(a: seq<Command>, b: seq<Command>)
    ensures Replies(a + b) == Replies(a) + Replies(b)
  {
    if a == [] {
      assert a + b == b;
    } else {
      RepliesOfParts(a[1..], b);
      assert (a + b)[1..] == a[1..] + b && (a + b)[0] == a[0];
      ghost var first := if a[0].UpdateMetadata? then [] else [a[0].reply];
      assert first + (Replies(a[1..]) + Replies(b)) == first + Replies(a[1..]) + Replies(b);
    }
  }

  function Answered(ps: seq<Pass>): seq<ReplyId> {
    if ps == [] then []
    else
      (match ps[0] case Volume(_, replies) => replies case Metadata(_) => [] case Ran(_, reply) => [reply])
      + Answered(ps[1..])
  }

  lemma {:induction false} MetadataHasNoReplies(cs: seq<Command>)
    requires forall c :: c in cs ==> c.UpdateMetadata?
    ensures Replies(cs) == []
  {
    if cs != [] {
      MetadataHasNoReplies(cs[1..]);
    }
  }

  /** Every caller is answered exactly once, in the order of the commands. */
  lemma {:induction false} EveryReplyOnce(q: seq<Command>, visible: nat -> nat)
    ensures Answered(Passes(q, visible)) == Replies(q)
    decreases |q|
  {
    if q != [] {
      var k := FirstPass(q, visible);
      EveryReplyOnce(q[k..], visible);
      RepliesOfParts(q[..k], q[k..]);
      if q[0].UpdateMetadata? {
        MetadataHasNoReplies(q[..k]);
      }
      assert PassOf(q[..k]).Metadata? <==> q[0].UpdateMetadata?;
    }
  }

  function Others(cs: seq<Command>): seq<nat> {
    if cs == [] then [] else (if cs[0].Other? then [cs[0].id] else []) + Others(cs[1..])
  }

  function OthersRan(ps: seq<Pass>): seq<nat> {
    if ps == [] then [] else (if ps[0].Ran? then [ps[0].id] else []) + OthersRan(ps[1..])
  }

  lemma {:induction false} OthersOfParts(a: seq<Command>, b: seq<Command>)
    ensures Others(a + b) == Others(a) + Others(b)
  {
    if a == [] {
      assert a + b == b;
    } else {
      OthersOfParts(a[1..], b);
      assert (a + b)[1..] == a[1..] + b && (a + b)[0] == a[0];
      ghost var first := if a[0].Other? then [a[0].id] else [];
      assert first + (Others(a[1..]) + Others(b)) == first + Others(a[1..]) + Others(b);
    }
  }

  lemma {:induction false} BurstHasNoOthers(cs: seq<Command>)
    requires forall c :: c in cs ==> !c.Other?
    ensures Others(cs) == []
  {
    if cs != [] {
      BurstHasNoOthers(cs[1..]);
    }
  }

  /** The other commands run all, once and in order, also those that waited in `pending`. */
  lemma {:induction false} OthersInOrder(q: seq<Command>, visible: nat -> nat)
    ensures OthersRan(Passes(q, visible)) == Others(q)
    decreases |q|
  {
    if q != [] {
      var k := FirstPass(q, visible);
      OthersInOrder(q[k..], visible);
      OthersOfParts(q[..k], q[k..]);
      if !q[0].Other? {
        BurstHasNoOthers(q[..k]);
      }
      assert PassOf(q[..k]).Ran? <==> q[0].Other?;
    }
  }

  // ----- meaning --------------------------------------------------------------------------------

  /** The receiver's volume, the track of the worker's LOAD, and what every other command found there. */
  datatype Receiver = Receiver(volume: Level, track: Track, log: seq<(nat, Level, Track)>)

  function Clamped(level: Level): Level {
    if level < 0.0 then 0.0 else if level > 1.0 then 1.0 else level
  }

  /** handle_set_volume for the command with this reply: whether it succeeds is up to the link by then. */
  function SetTo(r: Receiver, level: Level, reply: ReplyId, accepts: ReplyId -> bool): Receiver {
    if accepts(reply) then r.(volume := Clamped(level)) else r
  }

  function RunCommand(r: Receiver, c: Command, accepts: ReplyId -> bool): Receiver {
    match c
    case SetVolume(level, reply) => SetTo(r, level, reply, accepts)
    case UpdateMetadata(track) => r.(track := track)
    case Other(id, _) => r.(log := r.log + [(id, r.volume, r.track)])
  }

  function OneByOne(r: Receiver, cs: seq<Command>, accepts: ReplyId -> bool): Receiver {
    if cs == [] then r else RunCommand(OneByOne(r, cs[..|cs| - 1], accepts), cs[|cs| - 1], accepts)
  }

  /** The one attempt for a burst takes the place of its last command. */
  function RunPass(r: Receiver, p: Pass, accepts: ReplyId -> bool): Receiver {
    match p
    case Volume(level, replies) => if replies == [] then r else SetTo(r, level, replies[|replies| - 1], accepts)
    case Metadata(track) => r.(track := track)
    case Ran(id, _) => r.(log := r.log + [(id, r.volume, r.track)])
  }

  function RunPasses(r: Receiver, ps: seq<Pass>, accepts: ReplyId -> bool): Receiver
    decreases |ps|
  {
    if ps == [] then r else RunPasses(RunPass(r, ps[0], accepts), ps[1..], accepts)
  }

  lemma {:induction false} OneByOneOfParts(r: Receiver, a: seq<Command>, b: seq<Command>, accepts: ReplyId -> bool)
    ensures OneByOne(r, a + b, accepts) == OneByOne(OneByOne(r, a, accepts), b, accepts)
  {
    if b == [] {
      assert a + b == a;
    } else {
      assert (a + b)[..|a + b| - 1] == a + b[..|b| - 1];
      OneByOneOfParts(r, a, b[..|b| - 1], accepts);
    }
  }

  /** The level of the last command of a volume burst that succeeds, or the volume before it. */
  function LastAccepted(before: Level, burst: seq<Command>, accepts: ReplyId -> bool): Level
    requires forall c :: c in burst ==> c.SetVolume?
  {
    if burst == [] then before
    else if accepts(burst[|burst| - 1].reply) then Clamped(burst[|burst| - 1].level)
    else LastAccepted(before, burst[..|burst| - 1], accepts)
  }

  lemma {:induction false} VolumeBurst(r: Receiver, burst: seq<Command>, accepts: ReplyId -> bool)
    requires forall c :: c in burst ==> c.SetVolume?
    ensures OneByOne(r, burst, accepts) == r.(volume := LastAccepted(r.volume, burst, accepts))
  {
    if burst != [] {
      assert burst[|burst| - 1] in burst;
      VolumeBurst(r, burst[..|burst| - 1], accepts);
    }
  }

  lemma LastReplyOfBurst(burst: seq<Command>)
    requires burst != [] && burst[|burst| - 1].SetVolume?
    ensures var p := PassOf(burst); p.Volume? && p.replies != [] && p.replies[|p.replies| - 1] == burst[|burst| - 1].reply
  {
    var before, last := burst[..|burst| - 1], burst[|burst| - 1];
    assert burst == before + [last];
    RepliesOfOneMore(before, last);
    assert Replies([last]) == [last.reply];
  }

  lemma VolumePass(r: Receiver, burst: seq<Command>, accepts: ReplyId -> bool)
    requires burst != [] && forall c :: c in burst ==> c.SetVolume?
    ensures RunPass(r, PassOf(burst), accepts)
            == SetTo(r, burst[|burst| - 1].level, burst[|burst| - 1].reply, accepts)
  {
    assert burst[|burst| - 1] in burst;
    LastReplyOfBurst(burst);
  }

  /**
   Coalescing a burst gives the volume of running it one by one exactly when the attempt for its last
   command succeeds, or the last command that would have succeeded sets the volume the burst began at.
   */
  lemma CoalescedBurstIff(r: Receiver, burst: seq<Command>, accepts: ReplyId -> bool)
    requires burst != [] && forall c :: c in burst ==> c.SetVolume?
    ensures RunPass(r, PassOf(burst), accepts) == OneByOne(r, burst, accepts)
            <==> accepts(burst[|burst| - 1].reply) || LastAccepted(r.volume, burst, accepts) == r.volume
  {
    VolumeBurst(r, burst, accepts);
    VolumePass(r, burst, accepts);
  }

  lemma {:induction false} MetadataBurst(r: Receiver, burst: seq<Command>, accepts: ReplyId -> bool)
    requires burst != [] && forall c :: c in burst ==> c.UpdateMetadata?
    ensures OneByOne(r, burst, accepts) == r.(track := burst[|burst| - 1].track)
  {
    var last, before := burst[|burst| - 1], burst[..|burst| - 1];
    assert last in burst;
    assert OneByOne(r, burst, accepts) == RunCommand(OneByOne(r, before, accepts), last, accepts);
    if before != [] {
      MetadataBurst(r, before, accepts);
    }
  }

  lemma BurstRunsAsOne(r: Receiver, burst: seq<Command>, accepts: ReplyId -> bool)
    requires burst != [] && forall c :: c in burst ==> c == burst[0] || SameKind(burst[0], c)
    requires burst[0].Other? ==> |burst| == 1
    requires burst[|burst| - 1].SetVolume? ==> accepts(burst[|burst| - 1].reply)
    ensures RunPass(r, PassOf(burst), accepts) == OneByOne(r, burst, accepts)
  {
    match burst[0]
    case SetVolume(_, _) => CoalescedBurstIff(r, burst, accepts);
    case UpdateMetadata(_) => MetadataBurst(r, burst, accepts);
    case Other(_, _) => assert burst[..0] == [];
  }

  /** The attempt for every volume burst that the loop forms succeeds. */
  ghost predicate BurstsEndAccepted(q: seq<Command>, visible: nat -> nat, accepts: ReplyId -> bool) {
    forall p :: p in Passes(q, visible) && p.Volume? && p.replies != [] ==> accepts(p.replies[|p.replies| - 1])
  }

  /**
   Coalescing preserves meaning: when the attempts that the loop does make succeed, the receiver ends
   as if every command had run on its own, and each other command ran at the same volume and track.
   */
  lemma {:induction false} CoalescingPreservesMeaning(
      r: Receiver, q: seq<Command>, visible: nat -> nat, accepts: ReplyId -> bool)
    requires BurstsEndAccepted(q, visible, accepts)
    ensures RunPasses(r, Passes(q, visible), accepts) == OneByOne(r, q, accepts)
    decreases |q|
  {
    if q != [] {
      var k := FirstPass(q, visible);
      var ps := Passes(q, visible);
      assert ps[0] in ps && ps[1..] == Passes(q[k..], visible) && forall p :: p in ps[1..] ==> p in ps;
      CoalescingPreservesMeaning(RunPass(r, ps[0], accepts), q[k..], visible, accepts);
      OneByOneOfParts(r, q[..k], q[k..], accepts);
      if q[..k][k - 1].SetVolume? {
        LastReplyOfBurst(q[..k]);
      }
      BurstRunsAsOne(r, q[..k], accepts);
    }
  }
}
