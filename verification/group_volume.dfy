/**
 Volume of a Google Home speaker group whose session plays elsewhere: one task per group applies the
 latest queued target to the member speakers, then the next one, never a backlog.
 */
module GroupVolumes {
  import opened Common

  type TaskId = nat
  type Level = real

  const SILENT_MEAN := 0.001

  // ----- the apply task -----------------------------------------------------------------------

  datatype Entry = Entry(target: Option<Level>, running: bool)
  datatype Phase = Taking | Applying(level: Level)

  /** `queued` and `taken` are the histories of targets; `taken` holds positions in `queued`. */
  datatype State = State(entry: Entry, tasks: map<TaskId, Phase>, queued: seq<Level>, taken: seq<nat>)

  predicate Init(s: State) {
    s == State(Entry(None, false), map[], [], [])
  }

  function Queued(e: Entry, level: Level): Entry {
    Entry(Some(level), true)
  }

  /** One pass of the loop takes the target, or ends the task when there is none. */
  function Taken(e: Entry): Entry {
    if e.target.None? then e.(running := false) else e.(target := None)
  }

  datatype Action = Queue(level: Level, t: TaskId) | Take(t: TaskId) | Applied(t: TaskId)

  predicate Enabled(s: State, a: Action) {
    match a
    case Queue(_, t) => t !in s.tasks
    case Take(t) => t in s.tasks && s.tasks[t].Taking?
    case Applied(t) => t in s.tasks && s.tasks[t].Applying?
  }

  function Apply(s: State, a: Action): State
    requires Enabled(s, a)
  {
    match a
    case Queue(level, t) =>
      s.(entry := Queued(s.entry, level), queued := s.queued + [level],
         tasks := if s.entry.running then s.tasks else s.tasks[t := Taking])
    case Take(t) =>
      if s.entry.target.None? then s.(entry := Taken(s.entry), tasks := s.tasks - {t})
      else
        s.(entry := Taken(s.entry), tasks := s.tasks[t := Applying(s.entry.target.value)],
           taken := s.taken + [if s.queued == [] then 0 else |s.queued| - 1])
    case Applied(t) => s.(tasks := s.tasks[t := Taking])
  }

  ghost predicate Run(states: seq<State>, acts: seq<Action>) {
    && |states| == |acts| + 1
    && Init(states[0])
    && forall i :: 0 <= i < |acts| ==> Enabled(states[i], acts[i]) && states[i + 1] == Apply(states[i], acts[i])
  }

  /** Taken targets are ever later queued ones, and what a task applies is the last of them. */
  ghost predicate Inv(s: State) {
    && (s.entry.target.Some? ==> s.entry.running)
    && (s.entry.running <==> s.tasks != map[])
    && (forall t, u :: t in s.tasks && u in s.tasks ==> t == u)
    && (forall i :: 0 <= i < |s.taken| ==> s.taken[i] < |s.queued|)
    && (forall i, j :: 0 <= i < j < |s.taken| ==> s.taken[i] < s.taken[j])
    && (s.entry.target.Some? ==>
          && s.queued != [] && s.entry.target.value == s.queued[|s.queued| - 1]
          && |s.queued| - 1 !in s.taken)
    && (s.entry.target.None? && s.queued != [] ==> s.taken != [] && s.taken[|s.taken| - 1] == |s.queued| - 1)
    && (forall t :: t in s.tasks && s.tasks[t].Applying? ==>
          s.taken != [] && s.tasks[t].level == s.queued[s.taken[|s.taken| - 1]])
  }

  lemma QueueKeepsInv(s: State, level: Level, t: TaskId)
    requires Inv(s) && t !in s.tasks
    ensures Inv(Apply(s, Queue(level, t)))
  {
    var r := Apply(s, Queue(level, t));
    if !s.entry.running {
      assert t in r.tasks;
    }
  }

  lemma TaskKeepsInv(s: State, a: Action)
    requires Inv(s) && Enabled(s, a) && !a.Queue?
    ensures Inv(Apply(s, a))
  {
    var r := Apply(s, a);
    if a.t in r.tasks {
      assert r.tasks != map[];
    } else {
      assert r.tasks == map[];
    }
  }

  lemma {:induction false} RunKeepsInv(states: seq<State>, acts: seq<Action>, n: nat)
    requires Run(states, acts) && n < |states|
    ensures Inv(states[n])
  {
    if n > 0 {
      RunKeepsInv(states, acts, n - 1);
      match acts[n - 1]
      case Queue(level, t) => QueueKeepsInv(states[n - 1], level, t);
      case _ => TaskKeepsInv(states[n - 1], acts[n - 1]);
    }
  }

  /** A pending target has a task that will take it, and there is never a second task. */
  lemma PendingTargetHasOneTask(states: seq<State>, acts: seq<Action>, n: nat)
    requires Run(states, acts) && n < |states|
    ensures states[n].entry.target.Some? ==> exists t :: t in states[n].tasks
    ensures forall t, u :: t in states[n].tasks && u in states[n].tasks ==> t == u
  {
    RunKeepsInv(states, acts, n);
    if states[n].entry.target.Some? {
      var t :| t in states[n].tasks.Keys;
    }
  }

  /** Latest wins: targets are taken in order, and once no task is left the last one queued was. */
  lemma GroupVolumeLatestWins(states: seq<State>, acts: seq<Action>, n: nat)
    requires Run(states, acts) && n < |states|
    ensures var s := states[n];
            && (forall i, j :: 0 <= i < j < |s.taken| ==> s.taken[i] < s.taken[j] < |s.queued|)
            && (s.tasks == map[] && s.queued != [] ==>
                  s.taken != [] && s.taken[|s.taken| - 1] == |s.queued| - 1)
  {
    RunKeepsInv(states, acts, n);
  }

  function Execute(s: State, acts: seq<Action>): Option<State>
    decreases |acts|
  {
    if acts == [] then Some(s)
    else if Enabled(s, acts[0]) then Execute(Apply(s, acts[0]), acts[1..])
    else None
  }

  /** What the only task does: end the level it applies, take the target, apply it, find no other. */
  function TaskSteps(s: State, t: TaskId): seq<Action>
    requires t in s.tasks
  {
    if s.tasks[t].Applying? then [Applied(t)] + TakeSteps(t) else TakeSteps(t)
  }

  function TakeSteps(t: TaskId): seq<Action> {
    [Take(t), Applied(t), Take(t)]
  }

  /** A target that is queued is applied: left alone the task takes it, applies it and ends. */
  lemma QueuedTargetIsTaken(states: seq<State>, acts: seq<Action>, n: nat, level: Level) returns (t: TaskId, u: TaskId)
    requires Run(states, acts) && n < |states|
    ensures Enabled(states[n], Queue(level, t))
    ensures var s := Apply(states[n], Queue(level, t));
            && u in s.tasks
            && var end := Execute(s, TaskSteps(s, u));
               && end.Some? && end.value.tasks == map[] && end.value.queued == states[n].queued + [level]
               && end.value.taken == states[n].taken + [|states[n].queued|]
  {
    RunKeepsInv(states, acts, n);
    t := NewNumber(states[n].tasks.Keys);
    var s := Apply(states[n], Queue(level, t));
    QueueKeepsInv(states[n], level, t);
    u :| u in s.tasks;
    TaskTakes(s, u);
  }

  lemma FreeTaskTakes(s: State, t: TaskId)
    requires Inv(s) && t in s.tasks && s.tasks[t].Taking? && s.entry.target.Some?
    ensures var end := Execute(s, TakeSteps(t));
            end.Some? && end.value.tasks == map[] && end.value.queued == s.queued
            && end.value.taken == s.taken + [|s.queued| - 1]
  {
    var taken := Apply(s, Take(t));
    var applied := Apply(taken, Applied(t));
    var end := Apply(applied, Take(t));
    assert end.tasks == map[];
    assert Execute(applied, [Take(t)]) == Some(end) by {
      assert [Take(t)][1..] == [];
    }
    assert Execute(taken, [Applied(t), Take(t)]) == Some(end) by {
      assert [Applied(t), Take(t)][1..] == [Take(t)];
    }
    assert TakeSteps(t)[1..] == [Applied(t), Take(t)];
  }

  lemma TaskTakes(s: State, t: TaskId)
    requires Inv(s) && t in s.tasks && s.entry.target.Some?
    ensures var end := Execute(s, TaskSteps(s, t));
            end.Some? && end.value.tasks == map[] && end.value.queued == s.queued
            && end.value.taken == s.taken + [|s.queued| - 1]
  {
    if s.tasks[t].Applying? {
      TaskKeepsInv(s, Applied(t));
      FreeTaskTakes(Apply(s, Applied(t)), t);
      assert ([Applied(t)] + TakeSteps(t))[1..] == TakeSteps(t);
    } else {
      FreeTaskTakes(s, t);
    }
  }

  // ----- the entry as it is updated in place -----------------------------------------------------

  class GroupVolume {
    var target: Option<Level>
    var running: bool

    function View(): Entry
      reads this
    {
      Entry(target, running)
    }

    constructor ()
      ensures View() == Entry(None, false)
    {
      target, running := None, false;
    }

    /** `start`: the caller has to spawn the apply task. */
    method QueueLevel(level: Level) returns (start: bool)
      modifies this
      ensures View() == Queued(old(View()), level)
      ensures start <==> !old(running)
    {
      target := Some(level);
      start := !running;
      running := true;
    }

    method TakeTarget() returns (next: Option<Level>)
      modifies this
      ensures View() == Taken(old(View()))
      ensures next == old(target)
    {
      next := target;
      if target.None? {
        running := false;
      } else {
        target := None;
      }
    }
  }

  // ----- member levels --------------------------------------------------------------------------

  function Clamped(level: Level): Level {
    if level < 0.0 then 0.0 else if level > 1.0 then 1.0 else level
  }

  function Sum(levels: seq<Level>): Level {
    if levels == [] then 0.0 else Sum(levels[..|levels| - 1]) + levels[|levels| - 1]
  }

  function Mean(levels: seq<Level>): Level
    requires levels != []
  {
    Sum(levels) / (|levels| as real)
  }

  function Times(levels: seq<Level>, factor: Level): (r: seq<Level>)
    ensures |r| == |levels|
  {
    if levels == [] then [] else Times(levels[..|levels| - 1], factor) + [levels[|levels| - 1] * factor]
  }

  function AllClamped(levels: seq<Level>): (r: seq<Level>)
    ensures |r| == |levels|
    ensures forall i :: 0 <= i < |r| ==> r[i] == Clamped(levels[i])
  {
    if levels == [] then [] else AllClamped(levels[..|levels| - 1]) + [Clamped(levels[|levels| - 1])]
  }

  function Factor(levels: seq<Level>, target: Level): Level
    requires levels != [] && Mean(levels) > SILENT_MEAN
  {
    Clamped(target) / Mean(levels)
  }

  function ScaledMemberLevels(levels: seq<Level>, target: Level): (r: seq<Level>)
    ensures |r| == |levels|
    ensures forall i :: 0 <= i < |r| ==> 0.0 <= r[i] <= 1.0
  {
    if levels == [] then []
    else if Mean(levels) <= SILENT_MEAN then seq(|levels|, _ => Clamped(target))
    else AllClamped(Times(levels, Factor(levels, target)))
  }

  /** No level is negative, as Cast reports them. */
  ghost predicate NonNegative(levels: seq<Level>) {
    forall i :: 0 <= i < |levels| ==> levels[i] >= 0.0
  }

  /** No member would have to be louder than full. */
  ghost predicate NobodyClips(levels: seq<Level>) {
    forall i :: 0 <= i < |levels| ==> levels[i] <= 1.0
  }

  lemma SumOfOneMore(levels: seq<Level>, level: Level)
    ensures Sum(levels + [level]) == Sum(levels) + level
  {
    assert (levels + [level])[..|levels|] == levels;
  }

  lemma {:induction false} SumOfTimes(levels: seq<Level>, factor: Level)
    ensures Sum(Times(levels, factor)) == Sum(levels) * factor
  {
    if levels != [] {
      var init, last := levels[..|levels| - 1], levels[|levels| - 1];
      SumOfTimes(init, factor);
      SumOfOneMore(Times(init, factor), last * factor);
      Distribute(Sum(init), last, factor);
    }
  }

  lemma Distribute(a: Level, b: Level, factor: Level)
    ensures (a + b) * factor == a * factor + b * factor
  {
  }

  /** Clamping loses exactly what the members above full level would have had more. */
  lemma {:induction false} SumOfClamped(levels: seq<Level>)
    requires NonNegative(levels)
    ensures Sum(AllClamped(levels)) <= Sum(levels)
    ensures Sum(AllClamped(levels)) == Sum(levels) <==> NobodyClips(levels)
  {
    if levels != [] {
      ClampedAll(levels);
      SumOfClamped(levels[..|levels| - 1]);
      LastClips(levels);
    }
  }

  lemma LastClips(levels: seq<Level>)
    requires levels != []
    ensures NobodyClips(levels) <==> NobodyClips(levels[..|levels| - 1]) && levels[|levels| - 1] <= 1.0
  {
    assert levels == levels[..|levels| - 1] + [levels[|levels| - 1]];
  }

  lemma ClampedAll(levels: seq<Level>)
    requires levels != [] && NonNegative(levels)
    ensures var init, last := levels[..|levels| - 1], levels[|levels| - 1];
            NonNegative(init) && Sum(AllClamped(levels)) == Sum(AllClamped(init)) + if last > 1.0 then 1.0 else last
  {
    assert AllClamped(levels)[..|levels| - 1] == AllClamped(levels[..|levels| - 1]);
  }

  lemma {:induction false} SumOfEqual(levels: seq<Level>, level: Level)
    requires forall i :: 0 <= i < |levels| ==> levels[i] == level
    ensures Sum(levels) == (|levels| as real) * level
  {
    if levels != [] {
      SumOfEqual(levels[..|levels| - 1], level);
    }
  }

  lemma {:induction false} TimesAt(levels: seq<Level>, factor: Level, i: nat)
    requires i < |levels|
    ensures Times(levels, factor)[i] == levels[i] * factor
  {
    if i < |levels| - 1 {
      TimesAt(levels[..|levels| - 1], factor, i);
    }
  }

  lemma MeanAgainst(levels: seq<Level>, mean: Level)
    requires levels != []
    ensures Sum(levels) <= mean * (|levels| as real) <==> Mean(levels) <= mean
    ensures Sum(levels) == mean * (|levels| as real) <==> Mean(levels) == mean
  {
    var n := |levels| as real;
    ProductDividesBack(mean, n);
    QuotientsCompare(Sum(levels), mean * n, n);
  }

  lemma ProductDividesBack(a: Level, n: Level)
    requires n > 0.0
    ensures a * n / n == a
  {
  }

  lemma ProductNonNegative(a: Level, b: Level)
    requires a >= 0.0 && b >= 0.0
    ensures a * b >= 0.0
  {
  }

  lemma FactorScalesSum(sum: Level, n: Level, mean: Level, target: Level, factor: Level)
    requires n > 0.0 && mean == sum / n && mean > 0.0 && target >= 0.0 && factor == target / mean
    ensures factor >= 0.0 && sum * factor == target * n
  {
    assert sum == mean * n && target == factor * mean;
    assert sum * factor == (mean * factor) * n;
  }

  lemma FactorOf(levels: seq<Level>, target: Level)
    requires levels != [] && Mean(levels) > SILENT_MEAN
    ensures Factor(levels, target) >= 0.0
    ensures Sum(levels) * Factor(levels, target) == Clamped(target) * (|levels| as real)
  {
    FactorScalesSum(Sum(levels), |levels| as real, Mean(levels), Clamped(target), Factor(levels, target));
  }

  lemma TimesNonNegative(levels: seq<Level>, factor: Level)
    requires NonNegative(levels) && factor >= 0.0
    ensures NonNegative(Times(levels, factor))
  {
    forall i | 0 <= i < |levels|
      ensures Times(levels, factor)[i] >= 0.0
    {
      TimesAt(levels, factor, i);
      ProductNonNegative(levels[i], factor);
    }
  }

  lemma MeanOfClamped(scaled: seq<Level>, mean: Level)
    requires scaled != [] && NonNegative(scaled) && Mean(scaled) == mean
    ensures Mean(AllClamped(scaled)) <= mean
    ensures Mean(AllClamped(scaled)) == mean <==> NobodyClips(scaled)
  {
    SumOfClamped(scaled);
    QuotientsCompare(Sum(AllClamped(scaled)), Sum(scaled), |scaled| as real);
  }

  lemma QuotientsCompare(a: Level, b: Level, n: Level)
    requires n > 0.0
    ensures a <= b <==> a / n <= b / n
    ensures a == b <==> a / n == b / n
  {
    assert a == a / n * n && b == b / n * n;
    if a <= b {
      assert b - a == (b / n - a / n) * n;
    } else {
      assert a - b == (a / n - b / n) * n;
    }
  }

  lemma MeanOfTimes(levels: seq<Level>, factor: Level, mean: Level)
    requires levels != [] && Sum(levels) * factor == mean * (|levels| as real)
    ensures Mean(Times(levels, factor)) == mean
  {
    SumOfTimes(levels, factor);
    MeanAgainst(Times(levels, factor), mean);
  }

  lemma EqualMean(levels: seq<Level>, level: Level)
    requires levels != [] && forall i :: 0 <= i < |levels| ==> levels[i] == level
    ensures Mean(levels) == level
  {
    SumOfEqual(levels, level);
    MeanAgainst(levels, level);
  }

  /** The target becomes the members' mean exactly when no member would have to be louder than full. */
  lemma MeanBecomesTargetIff(levels: seq<Level>, target: Level)
    requires levels != [] && NonNegative(levels)
    ensures Mean(ScaledMemberLevels(levels, target)) <= Clamped(target)
    ensures Mean(ScaledMemberLevels(levels, target)) == Clamped(target)
            <==> Mean(levels) <= SILENT_MEAN || NobodyClips(Times(levels, Factor(levels, target)))
  {
    if Mean(levels) <= SILENT_MEAN {
      EqualMean(ScaledMemberLevels(levels, target), Clamped(target));
    } else {
      FactorOf(levels, target);
      TimesNonNegative(levels, Factor(levels, target));
      MeanOfTimes(levels, Factor(levels, target), Clamped(target));
      MeanOfClamped(Times(levels, Factor(levels, target)), Clamped(target));
    }
  }

  lemma FactorIs(levels: seq<Level>, target: Level, factor: Level)
    requires levels != [] && Mean(levels) > SILENT_MEAN && factor * Mean(levels) == Clamped(target)
    ensures Factor(levels, target) == factor
  {
    ProductDividesBack(factor, Mean(levels));
  }

  /** Every member is scaled by the same factor, the one that takes the mean to the target. */
  lemma ScaledLevelIs(levels: seq<Level>, target: Level, factor: Level, i: nat)
    requires i < |levels| && Mean(levels) > SILENT_MEAN && factor * Mean(levels) == Clamped(target)
    ensures ScaledMemberLevels(levels, target)[i] == Clamped(levels[i] * factor)
  {
    FactorIs(levels, target, factor);
    TimesAt(levels, factor, i);
  }

  /** A group that is about silent is set to the target level by level. */
  lemma SilentLevelIs(levels: seq<Level>, target: Level, i: nat)
    requires i < |levels| && Mean(levels) <= SILENT_MEAN
    ensures ScaledMemberLevels(levels, target)[i] == Clamped(target)
  {
  }

  lemma ProductsAgree(a: Level, b: Level, factor: Level)
    ensures a * factor * b == b * factor * a
  {
  }

  lemma UnclippedLevelIs(levels: seq<Level>, target: Level, factor: Level, i: nat)
    requires i < |levels| && NonNegative(levels) && Mean(levels) > SILENT_MEAN
    requires factor * Mean(levels) == Clamped(target) && levels[i] * factor <= 1.0
    ensures ScaledMemberLevels(levels, target)[i] == levels[i] * factor
  {
    ScaledLevelIs(levels, target, factor, i);
    FactorIs(levels, target, factor);
    FactorOf(levels, target);
    ProductNonNegative(levels[i], factor);
  }

  /** The balance of two members is kept, unless one of them would have to be louder than full. */
  lemma BalanceIsKept(levels: seq<Level>, target: Level, factor: Level, i: nat, j: nat)
    requires i < |levels| && j < |levels| && NonNegative(levels) && Mean(levels) > SILENT_MEAN
    requires factor * Mean(levels) == Clamped(target) && levels[i] * factor <= 1.0 && levels[j] * factor <= 1.0
    ensures var r := ScaledMemberLevels(levels, target); r[i] * levels[j] == r[j] * levels[i]
  {
    UnclippedLevelIs(levels, target, factor, i);
    UnclippedLevelIs(levels, target, factor, j);
    ProductsAgree(levels[i], levels[j], factor);
  }
}
