/**
 A pause on the Cast device and its report to the bridge. The report sets the pause flag without a
 PAUSE task, because Cast already paused itself; when a LOAD or PLAY has overtaken the report, the
 session is flagged paused while Cast plays.
 */
module DevicePauses {
  import opened SessionModel
  import opened PausedSafety

  // ----- what makes Cast play and what silences it ----------------------------------------------

  /** A LOAD or PLAY takes effect, or the user starts Cast. */
  predicate Starts(s: Session, a: Action) {
    match a
    case TransportAnswer(t, ok) => ok && t in s.cmds.tasks && s.cmds.tasks[t].play
    case LoadRun(h, ok) => ok && h in s.re.loads && s.re.loads[h].phase.OnWire?
    case CastPlays => true
    case _ => false
  }

  predicate Silences(s: Session, a: Action) {
    match a
    case TransportAnswer(t, ok) => ok && t in s.cmds.tasks && !s.cmds.tasks[t].play
    case LoadRun(h, _) => h in s.re.loads && s.re.loads[h].phase.Stopping?
    case FlowRun(t, _) => t in s.re.flows && s.re.flows[t].phase.DiscardStop?
    case TeardownRun => s.gen.teardown.StopCast? && s.gen.teardown.policy.StopBestEffort?
    case CastPauses(_) => true
    case _ => false
  }

  lemma PlayingStep(s: Session, a: Action)
    requires Enabled(s, a)
    ensures Apply(s, a).cast.playing == (Starts(s, a) || (s.cast.playing && !Silences(s, a)))
  {
  }

  lemma PlayingStepOfRun(states: seq<Session>, acts: seq<Action>, n: nat)
    requires Run(states, acts) && n < |acts|
    ensures states[n + 1].cast.playing
            == (Starts(states[n], acts[n]) || (states[n].cast.playing && !Silences(states[n], acts[n])))
  {
    PlayingStep(states[n], acts[n]);
  }

  /** Step `k` started Cast and nothing silenced it before `n`. */
  ghost predicate LastStart(states: seq<Session>, acts: seq<Action>, k: nat, n: nat)
    requires |states| == |acts| + 1 && n < |states|
  {
    k < n && Starts(states[k], acts[k]) && forall j :: k < j < n ==> !Silences(states[j], acts[j])
  }

  ghost predicate PlayingSteps(states: seq<Session>, acts: seq<Action>) {
    && |states| == |acts| + 1
    && forall n :: 0 <= n < |acts| ==>
         states[n + 1].cast.playing
         == (Starts(states[n], acts[n]) || (states[n].cast.playing && !Silences(states[n], acts[n])))
  }

  lemma {:induction false} PlayingSince(states: seq<Session>, acts: seq<Action>, i: nat, n: nat)
    requires PlayingSteps(states, acts) && i <= n < |states| && !states[i].cast.playing
    ensures states[n].cast.playing <==> exists k :: i <= k < n && LastStart(states, acts, k, n)
    decreases n - i
  {
    if i < n {
      PlayingSince(states, acts, i, n - 1);
      assert states[n - 1 + 1].cast.playing
          == (Starts(states[n - 1], acts[n - 1]) || (states[n - 1].cast.playing && !Silences(states[n - 1], acts[n - 1])));
      if Starts(states[n - 1], acts[n - 1]) {
        assert LastStart(states, acts, n - 1, n);
      } else if states[n].cast.playing {
        var k :| i <= k < n - 1 && LastStart(states, acts, k, n - 1);
        assert LastStart(states, acts, k, n);
      }
      if k :| i <= k < n && LastStart(states, acts, k, n) {
        assert k < n - 1 ==> LastStart(states, acts, k, n - 1);
      }
    }
  }

  /** From a silent moment on, Cast plays exactly when something started it and nothing silenced it since. */
  lemma PlaysIffStarted(states: seq<Session>, acts: seq<Action>, i: nat, n: nat)
    requires Run(states, acts) && i <= n < |states| && !states[i].cast.playing
    ensures states[n].cast.playing <==> exists k :: i <= k < n && LastStart(states, acts, k, n)
  {
    forall k | 0 <= k < |acts|
      ensures states[k + 1].cast.playing
              == (Starts(states[k], acts[k]) || (states[k].cast.playing && !Silences(states[k], acts[k])))
    {
      PlayingStepOfRun(states, acts, k);
    }
    PlayingSince(states, acts, i, n);
  }

  // ----- reports are handled in order -----------------------------------------------------------

  predicate IsReport(a: Action) {
    a == CastPauses(true)
  }

  /** Reports queued after `acts`, `first` of which are from before the session. */
  function Emitted(first: nat, acts: seq<Action>): nat {
    if acts == [] then first
    else Emitted(first, acts[..|acts| - 1]) + if IsReport(acts[|acts| - 1]) then 1 else 0
  }

  function Handled(acts: seq<Action>): nat {
    if acts == [] then 0 else Handled(acts[..|acts| - 1]) + if acts[|acts| - 1].RemotePause? then 1 else 0
  }

  function First(states: seq<Session>): nat
    requires states != []
  {
    states[0].cast.reports.overtaken
  }

  /** Reports that were queued before Cast was last started. */
  function EmittedAtStart(states: seq<Session>, acts: seq<Action>, n: nat): nat
    requires |states| == |acts| + 1 && n < |states|
  {
    if n == 0 then First(states)
    else if Starts(states[n - 1], acts[n - 1]) then Emitted(First(states), acts[..n - 1])
    else EmittedAtStart(states, acts, n - 1)
  }

  /** Report number `i` is from before the session's first LOAD or was queued before a start. */
  ghost predicate Overtaken(states: seq<Session>, acts: seq<Action>, i: nat, n: nat)
    requires |states| == |acts| + 1 && n < |states|
  {
    i < First(states) || exists k :: 0 <= k < n && Starts(states[k], acts[k]) && i < Emitted(First(states), acts[..k])
  }

  /** The queue, in terms of how many reports were queued, handled, and queued before the last start. */
  predicate QueueIs(q: Reports, start: nat, emitted: nat, handled: nat) {
    && start <= emitted && handled <= emitted
    && q.overtaken == (if start > handled then start - handled else 0)
    && q.overtaken + q.recent == emitted - handled
  }

  lemma QueueStep(s: Session, a: Action, start: nat, emitted: nat, handled: nat)
    requires Enabled(s, a) && QueueIs(s.cast.reports, start, emitted, handled)
    ensures QueueIs(Apply(s, a).cast.reports, if Starts(s, a) then emitted else start,
                    emitted + (if IsReport(a) then 1 else 0), handled + (if a.RemotePause? then 1 else 0))
  {
  }

  lemma PrefixOfNext(acts: seq<Action>, n: nat)
    requires 0 < n <= |acts|
    ensures acts[..n][..n - 1] == acts[..n - 1] && acts[..n][n - 1] == acts[n - 1]
  {
  }

  lemma QueueStepOfRun(states: seq<Session>, acts: seq<Action>, n: nat)
    requires Run(states, acts) && 0 < n < |states|
    requires QueueIs(states[n - 1].cast.reports, EmittedAtStart(states, acts, n - 1),
                     Emitted(First(states), acts[..n - 1]), Handled(acts[..n - 1]))
    ensures QueueIs(states[n].cast.reports, EmittedAtStart(states, acts, n), Emitted(First(states), acts[..n]),
                    Handled(acts[..n]))
  {
    PrefixOfNext(acts, n);
    QueueStep(states[n - 1], acts[n - 1], EmittedAtStart(states, acts, n - 1), Emitted(First(states), acts[..n - 1]),
              Handled(acts[..n - 1]));
  }

  lemma {:induction false} QueueOfRun(states: seq<Session>, acts: seq<Action>, n: nat)
    requires Run(states, acts) && n < |states|
    ensures QueueIs(states[n].cast.reports, EmittedAtStart(states, acts, n), Emitted(First(states), acts[..n]),
                    Handled(acts[..n]))
  {
    if n == 0 {
      assert acts[..0] == [];
    } else {
      QueueOfRun(states, acts, n - 1);
      QueueStepOfRun(states, acts, n);
    }
  }

  lemma {:induction false} EmittedGrows(first: nat, acts: seq<Action>, i: nat, j: nat)
    requires i <= j <= |acts|
    ensures first <= Emitted(first, acts[..i]) <= Emitted(first, acts[..j])
    decreases j
  {
    if i < j {
      EmittedGrows(first, acts, i, j - 1);
      PrefixOfNext(acts, j);
    } else if 0 < i {
      EmittedGrows(first, acts, i - 1, i - 1);
      PrefixOfNext(acts, i);
    } else {
      assert acts[..0] == [];
    }
  }

  lemma {:induction false} OvertakenIffBeforeStart(states: seq<Session>, acts: seq<Action>, i: nat, n: nat)
    requires |states| == |acts| + 1 && n < |states|
    ensures Overtaken(states, acts, i, n) <==> i < EmittedAtStart(states, acts, n)
  {
    if n > 0 {
      OvertakenIffBeforeStart(states, acts, i, n - 1);
      EmittedGrows(First(states), acts, n - 1, n - 1);
      if k :| 0 <= k < n && Starts(states[k], acts[k]) && i < Emitted(First(states), acts[..k]) {
        EmittedGrows(First(states), acts, k, n - 1);
      }
    }
  }

  // ----- a session paused for the device ---------------------------------------------------------

  /** The report sets the pause flag. */
  predicate SetsFlag(s: Session, a: Action) {
    a.RemotePause? && s.gen.live && !s.gen.ledger.paused
  }

  ghost predicate StaysPaused(states: seq<Session>, m: nat, n: nat)
    requires n < |states|
  {
    forall k :: m <= k <= n ==> states[k].gen.live && states[k].gen.ledger.paused
  }

  lemma FlowKeepsOrigin(s: Session, t: TaskId, h: LoadId)
    requires FlowReady(s.re, t, h)
    ensures FlowStep(s, t, h).cast.since == s.cast.since
  {
  }

  lemma OriginStep(s: Session, a: Action)
    requires Enabled(s, a) && s.gen.live && s.gen.ledger.paused && Apply(s, a).gen.ledger.paused
    requires s.cast.since.origin.FromCast?
    ensures Apply(s, a).cast.since.origin == FromCast(s.cast.since.origin.started || Starts(s, a))
  {
    if a.FlowRun? {
      FlowKeepsOrigin(s, a.t, a.h);
    } else {
      OtherOriginStep(s, a);
    }
  }

  lemma OtherOriginStep(s: Session, a: Action)
    requires Enabled(s, a) && s.gen.live && s.gen.ledger.paused && Apply(s, a).gen.ledger.paused && !a.FlowRun?
    requires s.cast.since.origin.FromCast?
    ensures Apply(s, a).cast.since.origin == FromCast(s.cast.since.origin.started || Starts(s, a))
  {
    if Starts(s, a) {
      StartMarksOrigin(s, a);
    } else {
      NoStartKeepsOrigin(s, a);
    }
  }

  lemma StartMarksOrigin(s: Session, a: Action)
    requires Enabled(s, a) && Starts(s, a) && s.cast.since.origin.FromCast?
    ensures Apply(s, a).cast.since.origin == FromCast(true)
  {
  }

  lemma NoStartKeepsOrigin(s: Session, a: Action)
    requires Enabled(s, a) && !Starts(s, a) && !a.FlowRun? && s.gen.ledger.paused
    ensures Apply(s, a).cast.since.origin == s.cast.since.origin
  {
  }

  lemma OriginStepOfRun(states: seq<Session>, acts: seq<Action>, n: nat)
    requires Run(states, acts) && n < |acts|
    requires states[n].gen.live && states[n].gen.ledger.paused && states[n + 1].gen.ledger.paused
    ensures states[n].cast.since.origin.FromCast? ==>
              states[n + 1].cast.since.origin
              == FromCast(states[n].cast.since.origin.started || Starts(states[n], acts[n]))
  {
    if states[n].cast.since.origin.FromCast? {
      OriginStep(states[n], acts[n]);
    }
  }

  ghost predicate OriginSteps(states: seq<Session>, acts: seq<Action>, m: nat, n: nat)
    requires |states| == |acts| + 1 && n < |states|
  {
    forall k :: m < k < n && states[k].cast.since.origin.FromCast? ==>
      states[k + 1].cast.since.origin == FromCast(states[k].cast.since.origin.started || Starts(states[k], acts[k]))
  }

  lemma {:induction false} OriginSince(states: seq<Session>, acts: seq<Action>, m: nat, n: nat)
    requires |states| == |acts| + 1 && m < n < |states| && OriginSteps(states, acts, m, n)
    requires states[m + 1].cast.since.origin.FromCast?
    ensures states[n].cast.since.origin
            == FromCast(states[m + 1].cast.since.origin.started || exists k :: m < k < n && Starts(states[k], acts[k]))
  {
    if m + 1 < n {
      OriginSince(states, acts, m, n - 1);
      assert states[n - 1].cast.since.origin.FromCast?;
      assert states[n - 1 + 1].cast.since.origin
          == FromCast(states[n - 1].cast.since.origin.started || Starts(states[n - 1], acts[n - 1]));
    }
  }

  lemma ReportAtSection(states: seq<Session>, acts: seq<Action>, m: nat)
    requires Run(states, acts) && m < |acts| && SetsFlag(states[m], acts[m])
    ensures HasReport(states[m].cast.reports) && !Starts(states[m], acts[m])
    ensures states[m + 1].cast.since.origin == FromCast(states[m].cast.reports.overtaken > 0)
  {
  }

  lemma OvertakenFrom(states: seq<Session>, acts: seq<Action>, i: nat, m: nat, n: nat)
    requires |states| == |acts| + 1 && m < n < |states| && !Starts(states[m], acts[m])
    requires i < Emitted(First(states), acts[..m])
    ensures Overtaken(states, acts, i, n)
            <==> Overtaken(states, acts, i, m) || exists k :: m < k < n && Starts(states[k], acts[k])
  {
    forall k | m < k < n && Starts(states[k], acts[k])
      ensures i < Emitted(First(states), acts[..k])
    {
      EmittedGrows(First(states), acts, m, k);
    }
  }

  /** The flag remembers whether Cast was started since the report that set it was queued. */
  lemma OriginOfRun(states: seq<Session>, acts: seq<Action>, m: nat, n: nat)
    requires Run(states, acts) && m < n < |states| && SetsFlag(states[m], acts[m]) && StaysPaused(states, m + 1, n)
    ensures states[n].cast.since.origin == FromCast(Overtaken(states, acts, Handled(acts[..m]), n))
  {
    var i := Handled(acts[..m]);
    ReportAtSection(states, acts, m);
    QueueOfRun(states, acts, m);
    OvertakenIffBeforeStart(states, acts, i, m);
    OvertakenFrom(states, acts, i, m, n);
    forall k | m < k < n
      ensures states[k].cast.since.origin.FromCast? ==>
                states[k + 1].cast.since.origin
                == FromCast(states[k].cast.since.origin.started || Starts(states[k], acts[k]))
    {
      OriginStepOfRun(states, acts, k);
    }
    OriginSince(states, acts, m, n);
  }

  /**
   A session paused for a report from the device plays only if a LOAD or PLAY took effect, or the user
   started Cast, after that report was queued, between the report and its section or later.
   */
  lemma DevicePauseIsSilentUnlessOvertaken(states: seq<Session>, acts: seq<Action>, m: nat, n: nat)
    requires Run(states, acts) && m < n < |states| && SetsFlag(states[m], acts[m]) && StaysPaused(states, m + 1, n)
    ensures states[n].cast.playing ==> Overtaken(states, acts, Handled(acts[..m]), n)
  {
    OriginOfRun(states, acts, m, n);
    RunKeepsPaused(states, acts, n);
  }

  /**
   Exactly when: for the report queued at step `r` and handled at step `m`, Cast plays later if and
   only if something started it after the report and nothing silenced it since.
   */
  lemma DevicePausePlaysIff(states: seq<Session>, acts: seq<Action>, r: nat, m: nat, n: nat)
    requires Run(states, acts) && r < m < n < |states| && IsReport(acts[r])
    requires SetsFlag(states[m], acts[m]) && Emitted(First(states), acts[..r]) == Handled(acts[..m])
    requires StaysPaused(states, m + 1, n)
    ensures states[n].cast.playing <==> exists k :: r < k < n && LastStart(states, acts, k, n)
    ensures states[n].cast.since.origin == FromCast(exists k :: r < k < n && Starts(states[k], acts[k]))
  {
    assert states[r + 1] == Apply(states[r], acts[r]);
    PlaysIffStarted(states, acts, r + 1, n);
    OriginOfRun(states, acts, m, n);
    var first := First(states);
    EmittedGrows(first, acts, r, r);
    forall k | 0 <= k < n && Starts(states[k], acts[k])
      ensures Handled(acts[..m]) < Emitted(first, acts[..k]) <==> r < k
    {
      if k <= r {
        EmittedGrows(first, acts, k, r);
      } else {
        PrefixOfNext(acts, r + 1);
        EmittedGrows(first, acts, r + 1, k);
      }
    }
    assert Overtaken(states, acts, Handled(acts[..m]), n) <==> exists k :: r < k < n && Starts(states[k], acts[k]);
  }
}
