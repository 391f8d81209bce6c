/**
 The tracker that tells a user's change on the Cast device from the echo of our own commands. Levels
 are reals, times milliseconds on a clock that does not go back.
 */
module EchoTracker {
  import opened Common

  const OWN_COMMAND_SETTLE := 1_500
  const VOLUME_MATCH_EPSILON := 0.005
  const VOLUME_ECHO_WINDOW := 10_000
  const VOLUME_ECHO_HISTORY := 128

  datatype Intent = Playing | Paused
  datatype PlayerState = PlayingNow | PausedNow | Idle | Buffering
  datatype Commanded = Commanded(level: real, at: int)
  datatype Report = PlayerReport(to: Intent) | VolumeReport(level: real, muted: bool)

  datatype Tracker = Tracker(
    intent: Option<Intent>,
    playerSettle: Option<int>,
    volume: Option<(real, bool)>,
    volumeSettle: Option<int>,
    levels: seq<Commanded>
  )

  function Clamped(level: real): real {
    if level < 0.0 then 0.0 else if level > 1.0 then 1.0 else level
  }

  predicate Matches(a: real, b: real) {
    -VOLUME_MATCH_EPSILON < a - b < VOLUME_MATCH_EPSILON
  }

  predicate Settling(until: Option<int>, now: int) {
    until.Some? && now < until.value
  }

  predicate Expired(c: Commanded, now: int) {
    now - c.at > VOLUME_ECHO_WINDOW
  }

  // ----- operations on the tracker's value -----------------------------------------------------

  function ExpectPlayer(t: Tracker, intent: Intent, now: int): Tracker {
    t.(intent := Some(intent), playerSettle := Some(now + OWN_COMMAND_SETTLE))
  }

  function ClearPlayer(t: Tracker): Tracker {
    t.(intent := None, playerSettle := None)
  }

  function Observed(s: PlayerState): Option<Intent> {
    match s
    case PlayingNow => Some(Playing)
    case PausedNow => Some(Paused)
    case _ => None
  }

  /** The user change a player status shows, if any. */
  function PlayerChange(t: Tracker, s: PlayerState, now: int): Option<Report> {
    if Observed(s).None? || t.intent.None? || Settling(t.playerSettle, now) || Observed(s) == t.intent then None
    else Some(PlayerReport(Observed(s).value))
  }

  function ObservePlayer(t: Tracker, s: PlayerState, now: int): Tracker {
    if PlayerChange(t, s, now).Some? then t.(intent := Observed(s)) else t
  }

  /** A full history forgets its oldest entry. */
  function Remember(levels: seq<Commanded>, c: Commanded): seq<Commanded> {
    (if |levels| == VOLUME_ECHO_HISTORY then levels[1..] else levels) + [c]
  }

  function ExpectVolume(t: Tracker, level: real, now: int): Tracker {
    t.(volumeSettle := Some(now + OWN_COMMAND_SETTLE), levels := Remember(t.levels, Commanded(Clamped(level), now)))
  }

  function NoteVolume(t: Tracker, level: real, muted: bool): Tracker {
    t.(volume := Some((Clamped(level), muted)))
  }

  /** Expired entries leave from the front, up to the first that is not. */
  function DropExpired(levels: seq<Commanded>, now: int): seq<Commanded> {
    if levels == [] || !Expired(levels[0], now) then levels else DropExpired(levels[1..], now)
  }

  predicate Echoes(levels: seq<Commanded>, level: real, now: int) {
    exists c :: c in DropExpired(levels, now) && Matches(c.level, level)
  }

  /** Whether the echo history decides: the mute state is known and unchanged, the level is not. */
  predicate AsksHistory(t: Tracker, level: real, muted: bool, now: int) {
    && !Settling(t.volumeSettle, now) && t.volume.Some?
    && t.volume.value.1 == muted && !Matches(t.volume.value.0, Clamped(level))
  }

  function VolumeChange(t: Tracker, level: real, muted: bool, now: int): Option<Report> {
    if Settling(t.volumeSettle, now) || t.volume.None? then None
    else if t.volume.value.1 != muted || (AsksHistory(t, level, muted, now) && !Echoes(t.levels, Clamped(level), now))
    then Some(VolumeReport(Clamped(level), muted))
    else None
  }

  function ObserveVolume(t: Tracker, level: real, muted: bool, now: int): Tracker {
    if Settling(t.volumeSettle, now) then t
    else
      t.(volume := Some((Clamped(level), muted)),
         levels := if AsksHistory(t, level, muted, now) then DropExpired(t.levels, now) else t.levels)
  }

  // ----- runs ---------------------------------------------------------------------------------

  datatype Action =
    | CommandPlayer(intent: Intent, now: int)
    | SessionEnds
    | PlayerStatus(state: PlayerState, now: int)
    | CommandVolume(level: real, now: int)
    | OwnVolume(level: real, muted: bool)
    | VolumeStatus(level: real, muted: bool, now: int)

  function Apply(t: Tracker, a: Action): Tracker {
    match a
    case CommandPlayer(intent, now) => ExpectPlayer(t, intent, now)
    case SessionEnds => ClearPlayer(t)
    case PlayerStatus(s, now) => ObservePlayer(t, s, now)
    case CommandVolume(level, now) => ExpectVolume(t, level, now)
    case OwnVolume(level, muted) => NoteVolume(t, level, muted)
    case VolumeStatus(level, muted, now) => ObserveVolume(t, level, muted, now)
  }

  function Reported(t: Tracker, a: Action): Option<Report> {
    match a
    case PlayerStatus(s, now) => PlayerChange(t, s, now)
    case VolumeStatus(level, muted, now) => VolumeChange(t, level, muted, now)
    case _ => None
  }

  ghost predicate Run(states: seq<Tracker>, acts: seq<Action>) {
    && |states| == |acts| + 1
    && states[0] == Tracker(None, None, None, None, [])
    && forall i :: 0 <= i < |acts| ==> states[i + 1] == Apply(states[i], acts[i])
  }

  // ----- player reports alternate --------------------------------------------------------------

  predicate ReportsPlayer(t: Tracker, a: Action) {
    a.PlayerStatus? && Reported(t, a).Some?
  }

  predicate PlayerCommand(a: Action) {
    a.CommandPlayer? || a.SessionEnds?
  }

  lemma {:induction false} IntentIsKept(states: seq<Tracker>, acts: seq<Action>, i: nat, j: nat)
    requires Run(states, acts) && i <= j < |states|
    requires forall k :: i <= k < j ==> !PlayerCommand(acts[k]) && !ReportsPlayer(states[k], acts[k])
    ensures states[j].intent == states[i].intent
    decreases j - i
  {
    if i < j {
      IntentIsKept(states, acts, i, j - 1);
      assert states[j - 1 + 1] == Apply(states[j - 1], acts[j - 1]);
    }
  }

  /** Consecutive player reports with no command or session end between them alternate. */
  lemma PlayerReportsAlternate(states: seq<Tracker>, acts: seq<Action>, i: nat, j: nat)
    requires Run(states, acts) && i < j < |acts|
    requires ReportsPlayer(states[i], acts[i]) && ReportsPlayer(states[j], acts[j])
    requires forall k :: i < k < j ==> !PlayerCommand(acts[k]) && !ReportsPlayer(states[k], acts[k])
    ensures Reported(states[i], acts[i]).value.to != Reported(states[j], acts[j]).value.to
  {
    assert states[i + 1] == Apply(states[i], acts[i]);
    IntentIsKept(states, acts, i + 1, j);
  }

  /** The first report after a command is the opposite of what was commanded. */
  lemma FirstReportContradictsCommand(states: seq<Tracker>, acts: seq<Action>, i: nat, j: nat)
    requires Run(states, acts) && i < j < |acts|
    requires acts[i].CommandPlayer? && ReportsPlayer(states[j], acts[j])
    requires forall k :: i < k < j ==> !PlayerCommand(acts[k]) && !ReportsPlayer(states[k], acts[k])
    ensures Reported(states[j], acts[j]).value.to != acts[i].intent
  {
    assert states[i + 1] == Apply(states[i], acts[i]);
    IntentIsKept(states, acts, i + 1, j);
  }

  // ----- the deque refines the whole history ----------------------------------------------------

  function Added(a: Action): seq<Commanded> {
    if a.CommandVolume? then [Commanded(Clamped(a.level), a.now)] else []
  }

  /** Every level ever commanded, oldest first. */
  function History(acts: seq<Action>): seq<Commanded> {
    if acts == [] then []
    else
      var last := acts[|acts| - 1];
      History(acts[..|acts| - 1]) + Added(last)
  }

  predicate Timed(a: Action) {
    a.CommandPlayer? || a.PlayerStatus? || a.CommandVolume? || a.VolumeStatus?
  }

  /** The clock never goes back, and shows at most `now`. */
  ghost predicate Monotone(acts: seq<Action>, now: int) {
    && (forall i, j :: 0 <= i < j < |acts| && Timed(acts[i]) && Timed(acts[j]) ==> acts[i].now <= acts[j].now)
    && (forall i :: 0 <= i < |acts| && Timed(acts[i]) ==> acts[i].now <= now)
  }

  ghost predicate Sorted(h: seq<Commanded>, now: int) {
    && (forall i, j :: 0 <= i < j < |h| ==> h[i].at <= h[j].at)
    && (forall i :: 0 <= i < |h| ==> h[i].at <= now)
  }

  /** The deque is what is left of the history when `gone` entries, all too old or too many, left. */
  ghost predicate IsTail(levels: seq<Commanded>, h: seq<Commanded>, gone: nat, now: int) {
    && gone <= |h| && levels == h[gone..] && |levels| <= VOLUME_ECHO_HISTORY
    && forall i :: 0 <= i < gone ==> i < |h| - VOLUME_ECHO_HISTORY || Expired(h[i], now)
  }

  lemma {:induction false} DropExpiredIsTail(levels: seq<Commanded>, h: seq<Commanded>, gone: nat, now: int)
    returns (more: nat)
    requires IsTail(levels, h, gone, now)
    ensures IsTail(DropExpired(levels, now), h, more, now)
    ensures DropExpired(levels, now) != [] ==> !Expired(DropExpired(levels, now)[0], now)
    decreases |levels|
  {
    if levels == [] || !Expired(levels[0], now) {
      more := gone;
    } else {
      more := DropExpiredIsTail(levels[1..], h, gone + 1, now);
    }
  }

  lemma RememberIsTail(levels: seq<Commanded>, h: seq<Commanded>, gone: nat, c: Commanded, now: int)
    returns (more: nat)
    requires IsTail(levels, h, gone, now)
    ensures IsTail(Remember(levels, c), h + [c], more, now)
  {
    more := gone + if |levels| == VOLUME_ECHO_HISTORY then 1 else 0;
    assert forall i :: 0 <= i < |h| ==> (h + [c])[i] == h[i];
  }

  /** An index of the history that every later reading of the clock finds expired stays so. */
  lemma TailStaysTail(levels: seq<Commanded>, h: seq<Commanded>, gone: nat, before: int, now: int)
    requires IsTail(levels, h, gone, before) && before <= now
    ensures IsTail(levels, h, gone, now)
  {
  }

  lemma {:induction false} HistoryIsSorted(acts: seq<Action>, now: int)
    requires Monotone(acts, now)
    ensures Sorted(History(acts), now)
  {
    if acts != [] {
      var last := acts[|acts| - 1];
      HistoryIsSorted(acts[..|acts| - 1], if Timed(last) then last.now else now);
    }
  }

  lemma StepKeepsTail(t: Tracker, a: Action, h: seq<Commanded>, gone: nat, at: int) returns (more: nat)
    requires IsTail(t.levels, h, gone, at) && (Timed(a) ==> at == a.now)
    ensures IsTail(Apply(t, a).levels, h + Added(a), more, at)
  {
    if a.CommandVolume? {
      more := RememberIsTail(t.levels, h, gone, Commanded(Clamped(a.level), a.now), at);
    } else {
      assert h + Added(a) == h;
      more := gone;
      if a.VolumeStatus? && Apply(t, a).levels != t.levels {
        more := DropExpiredIsTail(t.levels, h, gone, at);
      }
    }
  }

  lemma HistoryOfNext(acts: seq<Action>, n: nat, now: int) returns (at: int)
    requires 0 < n <= |acts| && Monotone(acts[..n], now)
    ensures at <= now && Monotone(acts[..n - 1], at) && (Timed(acts[n - 1]) ==> at == acts[n - 1].now)
    ensures History(acts[..n]) == History(acts[..n - 1]) + Added(acts[n - 1])
  {
    var a := acts[n - 1];
    at := if Timed(a) then a.now else now;
    assert acts[..n][..n - 1] == acts[..n - 1] && acts[..n][n - 1] == a;
    assert forall i :: 0 <= i < n - 1 ==> acts[..n - 1][i] == acts[..n][i];
  }

  lemma {:induction false} DequeIsTail(states: seq<Tracker>, acts: seq<Action>, n: nat, now: int) returns (gone: nat)
    requires Run(states, acts) && n < |states| && Monotone(acts[..n], now)
    ensures IsTail(states[n].levels, History(acts[..n]), gone, now)
  {
    if n == 0 {
      gone := 0;
    } else {
      var at := HistoryOfNext(acts, n, now);
      var before := DequeIsTail(states, acts, n - 1, at);
      gone := StepKeepsTail(states[n - 1], acts[n - 1], History(acts[..n - 1]), before, at);
      TailStaysTail(states[n].levels, History(acts[..n]), gone, at, now);
    }
  }

  /** Levels less than half a percent apart count as the same. */
  predicate Near(a: real, b: real) {
    b - 0.005 < a < b + 0.005
  }

  /** What the echo check is for: one of the last 128 commanded levels, at most 10 s old, matches. */
  ghost predicate RecentlyCommanded(h: seq<Commanded>, level: real, now: int) {
    exists i :: 0 <= i < |h| && i >= |h| - 128 && now - h[i].at <= 10_000 && Near(h[i].level, level)
  }

  lemma TailAt(levels: seq<Commanded>, h: seq<Commanded>, gone: nat, now: int, k: nat)
    requires Sorted(h, now) && IsTail(levels, h, gone, now) && k < |levels| && !Expired(levels[0], now)
    ensures h[gone + k] == levels[k] && gone + k >= |h| - 128 && now - h[gone + k].at <= 10_000
  {
    assert levels[0] == h[gone] && h[gone].at <= h[gone + k].at;
  }

  lemma TailEchoIsRecent(levels: seq<Commanded>, h: seq<Commanded>, gone: nat, level: real, now: int)
    requires Sorted(h, now) && IsTail(levels, h, gone, now) && Echoes(levels, level, now)
    ensures RecentlyCommanded(h, level, now)
  {
    var left := DropExpired(levels, now);
    var more := DropExpiredIsTail(levels, h, gone, now);
    var c :| c in left && Matches(c.level, level);
    var k :| 0 <= k < |left| && left[k] == c;
    TailAt(left, h, more, now, k);
    assert Near(h[more + k].level, level);
  }

  lemma RecentEchoesInTail(levels: seq<Commanded>, h: seq<Commanded>, gone: nat, level: real, now: int)
    requires IsTail(levels, h, gone, now) && RecentlyCommanded(h, level, now)
    ensures Echoes(levels, level, now)
  {
    var left := DropExpired(levels, now);
    var more := DropExpiredIsTail(levels, h, gone, now);
    var i :| 0 <= i < |h| && i >= |h| - 128 && now - h[i].at <= 10_000 && Near(h[i].level, level);
    assert i >= more;
    assert left[i - more] == h[i] && h[i] in left;
  }

  /**
   Although entries leave only from the front and the deque holds 128, the echo check answers
   exactly for the whole history of commanded levels.
   */
  lemma EchoRefinesHistory(states: seq<Tracker>, acts: seq<Action>, n: nat, level: real, now: int)
    requires Run(states, acts) && n < |states| && Monotone(acts[..n], now)
    ensures Echoes(states[n].levels, level, now) <==> RecentlyCommanded(History(acts[..n]), level, now)
  {
    var gone := DequeIsTail(states, acts, n, now);
    HistoryIsSorted(acts[..n], now);
    var levels, h := states[n].levels, History(acts[..n]);
    if Echoes(levels, level, now) {
      TailEchoIsRecent(levels, h, gone, level, now);
    }
    if RecentlyCommanded(h, level, now) {
      RecentEchoesInTail(levels, h, gone, level, now);
    }
  }

  // ----- what is reported, by the history of commands and statuses -------------------------------

  function Other(x: Intent): Intent {
    if x == Playing then Paused else Playing
  }

  /** The sender is known to want `x`: it said so, or was told that the user did. */
  predicate Tells(t: Tracker, a: Action, x: Intent) {
    (a.CommandPlayer? && a.intent == x) || Reported(t, a) == Some(PlayerReport(x))
  }

  predicate Untells(t: Tracker, a: Action, x: Intent) {
    a.SessionEnds? || Tells(t, a, Other(x))
  }

  /** The last that was told of the session is that it is to be in `x`. */
  ghost predicate LastTold(states: seq<Tracker>, acts: seq<Action>, n: nat, x: Intent)
    requires n <= |acts| <= |states|
  {
    exists i :: 0 <= i < n && Tells(states[i], acts[i], x) && forall k :: i < k < n ==> !Untells(states[k], acts[k], x)
  }

  lemma IntentIff(states: seq<Tracker>, acts: seq<Action>, n: nat, x: Intent)
    requires Run(states, acts) && n < |states|
    ensures states[n].intent == Some(x) <==> LastTold(states, acts, n, x)
  {
    SetUntilCleared(states, acts, n, (t: Tracker) => t.intent == Some(x),
                    (t, a) => Tells(t, a, x), (t, a) => Untells(t, a, x));
  }

  /** The command keeps player statuses unheard for a second and a half. */
  predicate Unsettles(a: Action, now: int) {
    a.CommandPlayer? && now < a.now + 1_500
  }

  /** A command of the session that was not ended since does. */
  ghost predicate PlayerUnsettled(acts: seq<Action>, n: nat, now: int)
    requires n <= |acts|
  {
    exists i :: 0 <= i < n && Unsettles(acts[i], now) && forall k :: i < k < n ==> !acts[k].SessionEnds?
  }

  lemma PlayerSettlingIff(states: seq<Tracker>, acts: seq<Action>, n: nat, now: int)
    requires Run(states, acts) && n < |states| && Monotone(acts[..n], now)
    ensures Settling(states[n].playerSettle, now) <==> PlayerUnsettled(acts, n, now)
  {
    SetUntilCleared(states, acts, n, (t: Tracker) => Settling(t.playerSettle, now),
                    (t, a) => Unsettles(a, now),
                    (t, a: Action) => a.SessionEnds? || (a.CommandPlayer? && !Unsettles(a, now)));
    if i :| 0 <= i < n && Unsettles(acts[i], now) && forall k :: i < k < n ==> !acts[k].SessionEnds? {
      forall k | i < k < n && acts[k].CommandPlayer?
        ensures Unsettles(acts[k], now)
      {
        assert acts[..n][i] == acts[i] && acts[..n][k] == acts[k];
      }
    }
  }

  lemma PlayerChangeIs(t: Tracker, s: PlayerState, now: int, x: Intent)
    ensures PlayerChange(t, s, now) == Some(PlayerReport(x)) <==>
              s == (if x == Playing then PlayingNow else PausedNow)
              && t.intent == Some(Other(x)) && !Settling(t.playerSettle, now)
  {
    assert t.intent.Some? ==> t.intent.value == x || t.intent.value == Other(x);
  }

  /** Exactly when a player status becomes a report, and which. */
  lemma PlayerReportIff(states: seq<Tracker>, acts: seq<Action>, n: nat, x: Intent)
    requires Run(states, acts) && n < |acts| && acts[n].PlayerStatus? && Monotone(acts[..n], acts[n].now)
    ensures Reported(states[n], acts[n]) == Some(PlayerReport(x)) <==>
              && acts[n].state == (if x == Playing then PlayingNow else PausedNow)
              && LastTold(states, acts, n, Other(x)) && !PlayerUnsettled(acts, n, acts[n].now)
  {
    PlayerChangeIs(states[n], acts[n].state, acts[n].now, x);
    IntentIff(states, acts, n, Other(x));
    PlayerSettlingIff(states, acts, n, acts[n].now);
  }

  /** A volume command of the last second and a half keeps volume statuses unheard. */
  ghost predicate VolumeUnsettled(acts: seq<Action>, n: nat, now: int)
    requires n <= |acts|
  {
    exists i :: 0 <= i < n && acts[i].CommandVolume? && now < acts[i].now + 1_500
  }

  lemma VolumeSettlingIff(states: seq<Tracker>, acts: seq<Action>, n: nat, now: int)
    requires Run(states, acts) && n < |states| && Monotone(acts[..n], now)
    ensures Settling(states[n].volumeSettle, now) <==> VolumeUnsettled(acts, n, now)
  {
    SetUntilCleared(states, acts, n, (t: Tracker) => Settling(t.volumeSettle, now),
                    (t, a: Action) => a.CommandVolume? && now < a.now + 1_500,
                    (t, a: Action) => a.CommandVolume? && now >= a.now + 1_500);
    if i :| 0 <= i < n && acts[i].CommandVolume? && now < acts[i].now + 1_500 {
      forall k | i < k < n && acts[k].CommandVolume?
        ensures now < acts[k].now + 1_500
      {
        assert acts[..n][i] == acts[i] && acts[..n][k] == acts[k];
      }
    }
  }

  /** A level that the tracker takes as the one now set: our own, or a status that is heard. */
  ghost predicate Heard(acts: seq<Action>, i: nat)
    requires i < |acts|
  {
    acts[i].OwnVolume? || (acts[i].VolumeStatus? && !VolumeUnsettled(acts, i, acts[i].now))
  }

  /** The last level heard. */
  ghost predicate LastHeard(acts: seq<Action>, n: nat, level: real, muted: bool)
    requires n <= |acts|
  {
    exists i :: 0 <= i < n && Heard(acts, i) && Clamped(acts[i].level) == level && acts[i].muted == muted
                && forall k :: i < k < n ==> !Heard(acts, k)
  }

  lemma LastHeardNext(acts: seq<Action>, n: nat, level: real, muted: bool)
    requires 0 < n <= |acts|
    ensures LastHeard(acts, n, level, muted)
            <==> if Heard(acts, n - 1) then Clamped(acts[n - 1].level) == level && acts[n - 1].muted == muted
                 else LastHeard(acts, n - 1, level, muted)
  {
    if i :| 0 <= i < n && Heard(acts, i) && Clamped(acts[i].level) == level && acts[i].muted == muted
            && forall k :: i < k < n ==> !Heard(acts, k) {
      assert i < n - 1 ==> !Heard(acts, n - 1);
    }
  }

  lemma VolumeNext(t: Tracker, acts: seq<Action>, i: nat, now: int)
    requires i < |acts| && (Timed(acts[i]) ==> now == acts[i].now)
    requires Settling(t.volumeSettle, now) <==> VolumeUnsettled(acts, i, now)
    ensures Apply(t, acts[i]).volume == if Heard(acts, i) then Some((Clamped(acts[i].level), acts[i].muted)) else t.volume
  {
  }

  lemma {:induction false} VolumeIff(states: seq<Tracker>, acts: seq<Action>, n: nat, now: int, level: real, muted: bool)
    requires Run(states, acts) && n < |states| && Monotone(acts[..n], now)
    ensures states[n].volume == Some((level, muted)) <==> LastHeard(acts, n, level, muted)
  {
    if n > 0 {
      var at := HistoryOfNext(acts, n, now);
      VolumeIff(states, acts, n - 1, at, level, muted);
      VolumeSettlingIff(states, acts, n - 1, at);
      VolumeNext(states[n - 1], acts, n - 1, at);
      LastHeardNext(acts, n, level, muted);
      assert states[n - 1 + 1] == Apply(states[n - 1], acts[n - 1]);
    }
  }

  /** Exactly when a volume status becomes a report to the sender, and which. */
  lemma VolumeReportIff(states: seq<Tracker>, acts: seq<Action>, n: nat, r: Report)
    requires Run(states, acts) && n < |acts| && acts[n].VolumeStatus? && Monotone(acts[..n], acts[n].now)
    ensures var a, level := acts[n], Clamped(acts[n].level);
            Reported(states[n], a) == Some(r) <==>
              && r == VolumeReport(level, a.muted) && !VolumeUnsettled(acts, n, a.now)
              && exists before, muted :: LastHeard(acts, n, before, muted)
                   && (|| muted != a.muted
                       || (!Near(before, level) && !RecentlyCommanded(History(acts[..n]), level, a.now)))
    ensures 0.0 <= Clamped(acts[n].level) <= 1.0
    ensures 0.0 <= acts[n].level <= 1.0 ==> Clamped(acts[n].level) == acts[n].level
  {
    var t, a := states[n], acts[n];
    EchoRefinesHistory(states, acts, n, Clamped(a.level), a.now);
    VolumeSettlingIff(states, acts, n, a.now);
    forall before, muted
      ensures t.volume == Some((before, muted)) <==> LastHeard(acts, n, before, muted)
    {
      VolumeIff(states, acts, n, a.now, before, muted);
    }
    if t.volume.Some? {
      assert LastHeard(acts, n, t.volume.value.0, t.volume.value.1);
    }
  }

  // ----- the tracker as it is updated in place ---------------------------------------------------

  class RemoteTracker {
    var intent: Option<Intent>
    var playerSettle: Option<int>
    var volume: Option<(real, bool)>
    var volumeSettle: Option<int>
    var levels: seq<Commanded>

    function View(): Tracker
      reads this
    {
      Tracker(intent, playerSettle, volume, volumeSettle, levels)
    }

    constructor ()
      ensures View() == Tracker(None, None, None, None, [])
    {
      intent, playerSettle, volume, volumeSettle, levels := None, None, None, None, [];
    }

    method Expect(want: Intent, now: int)
      modifies this
      ensures View() == ExpectPlayer(old(View()), want, now)
    {
      intent, playerSettle := Some(want), Some(now + OWN_COMMAND_SETTLE);
    }

    method SeePlayer(s: PlayerState, now: int) returns (report: Option<Report>)
      modifies this
      ensures View() == ObservePlayer(old(View()), s, now)
      ensures report == PlayerChange(old(View()), s, now)
    {
      var observed;
      match s {
        case PlayingNow => observed := Playing;
        case PausedNow => observed := Paused;
        case _ => return None;
      }
      if intent.None? {
        return None;
      }
      if (playerSettle.Some? && now < playerSettle.value) || observed == intent.value {
        return None;
      }
      intent := Some(observed);
      report := Some(PlayerReport(observed));
    }

    method ExpectLevel(level: real, now: int)
      modifies this
      ensures View() == ExpectVolume(old(View()), level, now)
    {
      volumeSettle := Some(now + OWN_COMMAND_SETTLE);
      if |levels| == VOLUME_ECHO_HISTORY {
        levels := levels[1..];
      }
      levels := levels + [Commanded(Clamped(level), now)];
    }

    method IsVolumeEcho(level: real, now: int) returns (echo: bool)
      modifies this
      ensures View() == old(View()).(levels := DropExpired(old(levels), now))
      ensures echo == Echoes(old(levels), level, now)
    {
      while levels != [] && Expired(levels[0], now)
        invariant DropExpired(levels, now) == DropExpired(old(levels), now)
        invariant View() == old(View()).(levels := levels)
        decreases |levels|
      {
        levels := levels[1..];
      }
      echo := false;
      for i := 0 to |levels|
        invariant echo <==> exists k :: 0 <= k < i && Matches(levels[k].level, level)
      {
        if Matches(levels[i].level, level) {
          echo := true;
        }
      }
    }

    method SeeVolume(reported: real, muted: bool, now: int) returns (report: Option<Report>)
      modifies this
      ensures View() == ObserveVolume(old(View()), reported, muted, now)
      ensures report == VolumeChange(old(View()), reported, muted, now)
    {
      if volumeSettle.Some? && now < volumeSettle.value {
        return None;
      }
      var level, previous := Clamped(reported), volume;
      volume := Some((level, muted));
      if previous.None? || (Matches(previous.value.0, level) && previous.value.1 == muted) {
        return None;
      }
      if previous.value.1 == muted {
        var echo := IsVolumeEcho(level, now);
        if echo {
          return None;
        }
      }
      report := Some(VolumeReport(level, muted));
    }
  }
}
