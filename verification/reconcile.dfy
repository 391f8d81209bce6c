/**
 Group membership changes reach Cast through a debounced reconcile task. A group keeps two flags:
 `running` says a task was spawned for it, `dirty` that membership changed while one was busy. A
 group can be removed and created again under the same name while an old task still runs.
 */
module Reconcile {
  import opened Common

  type TaskId = nat

  /** Flags of one group, and which of its membership changes were scheduled and seen by a plan. */
  datatype Flags = Flags(running: bool, dirty: bool)
  datatype Group = Group(flags: Flags, changes: nat, scheduled: nat, seen: nat)

  /** The part of one reconcile pass a task does next. */
  datatype Pass = Debounce | Snapshot | Send | Finish

  datatype State = State(group: Option<Group>, tasks: map<TaskId, Pass>)

  predicate Init(s: State) {
    s == State(None, map[])
  }

  // ----- sections of the groups lock ----------------------------------------------------------

  /** schedule_group_reconcile: a busy task is told, else a new one is needed. */
  function Scheduled(f: Flags): Flags {
    if f.running then f.(dirty := true) else Flags(true, false)
  }

  function Finished(f: Flags): Flags {
    if f.dirty then f else f.(running := false)
  }

  function ScheduleStep(s: State, t: TaskId): State {
    match s.group
    case None => s
    case Some(g) =>
      State(
        Some(g.(flags := Scheduled(g.flags), scheduled := g.changes)),
        if g.flags.running then s.tasks else s.tasks[t := Debounce])
  }

  /** One section of task `t`; a task that finds its group gone ends, or has nothing to send. */
  function TaskStep(s: State, t: TaskId): State
    requires t in s.tasks
  {
    match s.tasks[t]
    case Debounce =>
      (match s.group
       case None => s.(tasks := s.tasks - {t})
       case Some(g) => State(Some(g.(flags := g.flags.(dirty := false))), s.tasks[t := Snapshot]))
    case Snapshot =>
      (match s.group
       case None => s.(tasks := s.tasks[t := Finish])
       case Some(g) => State(Some(g.(seen := g.changes)), s.tasks[t := Send]))
    case Send => s.(tasks := s.tasks[t := Finish])
    case Finish =>
      (match s.group
       case None => s.(tasks := s.tasks - {t})
       case Some(g) =>
         State(
           Some(g.(flags := Finished(g.flags))),
           if g.flags.dirty then s.tasks[t := Debounce] else s.tasks - {t}))
  }

  // ----- steps --------------------------------------------------------------------------------

  datatype Action =
    | Create
    | Remove
    | Change                  // followers, owner, excluded or Cast members change
    | Schedule(t: TaskId)     // `t` names the task, if one is spawned
    | Work(t: TaskId)

  predicate Enabled(s: State, a: Action) {
    match a
    case Create => s.group.None?
    case Remove => s.group.Some?
    case Change => s.group.Some?
    case Schedule(t) => t !in s.tasks
    case Work(t) => t in s.tasks
  }

  function Apply(s: State, a: Action): State
    requires Enabled(s, a)
  {
    match a
    case Create => s.(group := Some(Group(Flags(false, false), 0, 0, 0)))
    case Remove => s.(group := None)
    case Change => s.(group := Some(s.group.value.(changes := s.group.value.changes + 1)))
    case Schedule(t) => ScheduleStep(s, t)
    case Work(t) => TaskStep(s, t)
  }

  ghost predicate Run(states: seq<State>, acts: seq<Action>) {
    && |states| == |acts| + 1
    && Init(states[0])
    && forall i :: 0 <= i < |acts| ==> Enabled(states[i], acts[i]) && states[i + 1] == Apply(states[i], acts[i])
  }

  // ----- no lost membership change ------------------------------------------------------------

  predicate BeforeSnapshot(p: Pass) {
    p.Debounce? || p.Snapshot?
  }

  ghost predicate SnapshotAhead(s: State) {
    exists t :: t in s.tasks && BeforeSnapshot(s.tasks[t])
  }

  ghost predicate Inv(s: State) {
    s.group.Some? ==>
      var g := s.group.value;
      && g.scheduled <= g.changes && g.seen <= g.changes
      && (g.flags.running ==> s.tasks != map[])
      && (g.flags.dirty ==> s.tasks != map[])
      && (g.seen < g.scheduled ==> SnapshotAhead(s) || g.flags.dirty)
  }

  lemma WorkKeepsInv(s: State, t: TaskId)
    requires Inv(s) && t in s.tasks
    ensures Inv(TaskStep(s, t))
  {
    var r := TaskStep(s, t);
    if s.group.Some? {
      var g := s.group.value;
      if s.tasks[t].Debounce? || (s.tasks[t].Finish? && g.flags.dirty) {
        assert BeforeSnapshot(r.tasks[t]);
      } else if SnapshotAhead(s) && !s.tasks[t].Snapshot? {
        var u :| u in s.tasks && BeforeSnapshot(s.tasks[u]);
        assert u != t && BeforeSnapshot(r.tasks[u]);
      }
      if t in r.tasks {
        assert r.tasks != map[];
      }
    }
  }

  lemma StepKeepsInv(s: State, a: Action)
    requires Inv(s) && Enabled(s, a)
    ensures Inv(Apply(s, a))
  {
    match a
    case Work(t) => WorkKeepsInv(s, t);
    case Schedule(t) =>
      if s.group.Some? && !s.group.value.flags.running {
        assert BeforeSnapshot(Apply(s, a).tasks[t]);
      }
    case Change =>
      if SnapshotAhead(s) {
        assert Apply(s, a).tasks == s.tasks;
      }
    case _ =>
  }

  lemma {:induction false} RunKeepsInv(states: seq<State>, acts: seq<Action>, n: nat)
    requires Run(states, acts) && n < |states|
    ensures Inv(states[n])
  {
    if n > 0 {
      RunKeepsInv(states, acts, n - 1);
      StepKeepsInv(states[n - 1], acts[n - 1]);
    }
  }

  /** An unseen scheduled change always has a task that is before its snapshot, or that will loop. */
  lemma UnseenChangeHasATask(states: seq<State>, acts: seq<Action>, n: nat)
    requires Run(states, acts) && n < |states| && states[n].group.Some?
    requires states[n].group.value.seen < states[n].group.value.scheduled
    ensures SnapshotAhead(states[n]) || (states[n].group.value.flags.dirty && states[n].tasks != map[])
  {
    RunKeepsInv(states, acts, n);
  }

  /** The group lives through all of the steps from `i` up to `j`. */
  ghost predicate Kept(states: seq<State>, i: nat, j: nat)
    requires j < |states|
  {
    forall k :: i <= k <= j ==> states[k].group.Some?
  }

  predicate TakesSnapshot(s: State, a: Action) {
    a.Work? && a.t in s.tasks && s.tasks[a.t].Snapshot?
  }

  /** Counters of a group that is kept only grow, and `seen` only moves with a snapshot. */
  lemma {:induction false} CountersOfKeptGroup(states: seq<State>, acts: seq<Action>, i: nat, j: nat)
    requires Run(states, acts) && i <= j < |states| && Kept(states, i, j)
    ensures states[i].group.value.changes <= states[j].group.value.changes
    ensures states[i].group.value.scheduled <= states[j].group.value.scheduled
    ensures (forall m :: i <= m < j ==> !TakesSnapshot(states[m], acts[m])) ==>
              states[j].group.value.seen == states[i].group.value.seen
    decreases j - i
  {
    if i < j {
      CountersOfKeptGroup(states, acts, i, j - 1);
      RunKeepsInv(states, acts, j - 1);
      assert states[j - 1 + 1] == Apply(states[j - 1], acts[j - 1]);
    }
  }

  /**
   No lost change: membership changed at step `i`, a reconcile was scheduled at the later step `j`,
   the group was kept, and at `n` no task is left. Then a plan was taken after the change.
   */
  lemma ScheduledChangeIsSeen(states: seq<State>, acts: seq<Action>, i: nat, j: nat, n: nat)
    requires Run(states, acts) && i < j < n < |states| && Kept(states, i, n)
    requires acts[i].Change? && acts[j].Schedule? && states[n].tasks == map[]
    ensures exists m :: i < m < n && TakesSnapshot(states[m], acts[m])
  {
    if forall m :: i < m < n ==> !TakesSnapshot(states[m], acts[m]) {
      RunKeepsInv(states, acts, i);
      RunKeepsInv(states, acts, n);
      assert states[i + 1] == Apply(states[i], acts[i]) && states[j + 1] == Apply(states[j], acts[j]);
      CountersOfKeptGroup(states, acts, i + 1, j);
      CountersOfKeptGroup(states, acts, j + 1, n);
      CountersOfKeptGroup(states, acts, i + 1, n);
      assert false;
    }
  }

  // ----- one task at a time -------------------------------------------------------------------

  ghost predicate OneTask(s: State) {
    && (forall t, u :: t in s.tasks && u in s.tasks ==> t == u)
    && (s.group.Some? ==> (s.group.value.flags.running <==> s.tasks != map[]))
    && (s.group.None? ==> s.tasks == map[])
  }

  lemma StepKeepsOneTask(s: State, a: Action)
    requires OneTask(s) && Enabled(s, a) && (a.Remove? ==> s.tasks == map[])
    ensures OneTask(Apply(s, a))
  {
    if a.Work? {
      var r := Apply(s, a);
      if a.t in r.tasks {
        assert r.tasks != map[];
      } else {
        assert r.tasks == map[];
      }
    } else if a.Schedule? && s.group.Some? && !s.group.value.flags.running {
      assert a.t in Apply(s, a).tasks;
    }
  }

  /** While the group is only removed when no task runs, its requests go out one at a time. */
  lemma {:induction false} AtMostOneTask(states: seq<State>, acts: seq<Action>, n: nat)
    requires Run(states, acts) && n < |states|
    requires forall k :: 0 <= k < n && acts[k].Remove? ==> states[k].tasks == map[]
    ensures OneTask(states[n])
  {
    if n > 0 {
      AtMostOneTask(states, acts, n - 1);
      StepKeepsOneTask(states[n - 1], acts[n - 1]);
    }
  }

  function Execute(s: State, acts: seq<Action>): Option<State>
    decreases |acts|
  {
    if acts == [] then Some(s)
    else if Enabled(s, acts[0]) then Execute(Apply(s, acts[0]), acts[1..])
    else None
  }

  /** `acts` can be executed, and removes the group only when no task runs. */
  predicate Careful(s: State, acts: seq<Action>)
    decreases |acts|
  {
    acts == [] ||
    (Enabled(s, acts[0]) && (acts[0].Remove? ==> s.tasks == map[]) && Careful(Apply(s, acts[0]), acts[1..]))
  }

  lemma {:induction false} CarefulExecutes(s: State, acts: seq<Action>)
    requires Careful(s, acts)
    ensures Execute(s, acts).Some?
    ensures OneTask(s) ==> OneTask(Execute(s, acts).value)
    decreases |acts|
  {
    if acts != [] {
      if OneTask(s) {
        StepKeepsOneTask(s, acts[0]);
      }
      CarefulExecutes(Apply(s, acts[0]), acts[1..]);
    }
  }

  /** Two tasks of the group run side by side after some careful continuation. */
  ghost predicate CanDouble(s: State) {
    exists acts :: Careful(s, acts) && Execute(s, acts).Some? && Doubled(Execute(s, acts).value)
  }

  ghost predicate Doubled(s: State) {
    exists t, u :: t in s.tasks && u in s.tasks && t != u
  }

  /** The group comes back and is scheduled while its old task still runs. */
  lemma RecreatedGroupDoubles(s: State, t: TaskId)
    requires s.group.None? && t in s.tasks
    ensures CanDouble(s)
  {
    var u := NewNumber(s.tasks.Keys);
    var s1 := Apply(s, Create);
    var s2 := Apply(s1, Schedule(u));
    var acts := [Create, Schedule(u)];
    assert acts[1..] == [Schedule(u)];
    assert Execute(s1, [Schedule(u)]) == Some(s2) && Careful(s1, [Schedule(u)]);
    assert Execute(s, acts) == Some(s2) && Careful(s, acts);
    assert t in s2.tasks && u in s2.tasks && t != u;
  }

  /** Exactly the removals with a task still running let a second task run beside the first. */
  lemma RemovalDoublesIff(states: seq<State>, acts: seq<Action>, n: nat)
    requires Run(states, acts) && n < |acts| && acts[n].Remove?
    requires forall k :: 0 <= k < n && acts[k].Remove? ==> states[k].tasks == map[]
    ensures CanDouble(states[n + 1]) <==> states[n].tasks != map[]
  {
    var s := states[n];
    AtMostOneTask(states, acts, n);
    if s.tasks != map[] {
      var t :| t in s.tasks;
      RecreatedGroupDoubles(states[n + 1], t);
    } else if CanDouble(states[n + 1]) {
      StepKeepsOneTask(s, Remove);
      var more :| Careful(states[n + 1], more) && Execute(states[n + 1], more).Some?
                  && Doubled(Execute(states[n + 1], more).value);
      CarefulExecutes(states[n + 1], more);
    }
  }

  /** A group removed and created again while its task sleeps gets a second task beside it. */
  lemma RecreatedGroupHasTwoTasks()
    ensures var end := Execute(State(None, map[]), [Create, Schedule(1), Remove, Create, Schedule(2)]);
            end.Some? && end.value.tasks == map[1 := Debounce, 2 := Debounce]
  {
    var s1 := Apply(State(None, map[]), Create);
    var s2 := Apply(s1, Schedule(1));
    var s3 := Apply(Apply(s2, Remove), Create);
    var s4 := Apply(s3, Schedule(2));
    assert Execute(s3, [Schedule(2)]) == Some(s4);
    assert Execute(Apply(s2, Remove), [Create, Schedule(2)]) == Some(s4);
    assert Execute(s2, [Remove, Create, Schedule(2)]) == Some(s4);
    assert Execute(s1, [Schedule(1), Remove, Create, Schedule(2)]) == Some(s4);
  }

  // ----- a task that is left alone ends ---------------------------------------------------------

  /** How many sections are left for task `t`, when nothing is scheduled any more. */
  function SectionsLeft(s: State, t: TaskId): nat
    requires t in s.tasks
  {
    var again := if s.group.Some? && s.group.value.flags.dirty then 4 else 0;
    match s.tasks[t]
    case Debounce => 4
    case Snapshot => 3 + again
    case Send => 2 + again
    case Finish => 1 + again
  }

  /** Each section of the task brings its end nearer, by exactly one unless its group is gone. */
  lemma WorkNearsEnd(s: State, t: TaskId)
    requires t in s.tasks
    ensures var r := Apply(s, Work(t));
            && (t in r.tasks ==> SectionsLeft(r, t) < SectionsLeft(s, t))
            && (s.group.Some? ==> (t in r.tasks <==> SectionsLeft(s, t) > 1))
            && (s.group.Some? && t in r.tasks ==> SectionsLeft(r, t) == SectionsLeft(s, t) - 1)
  {
  }

  function Works(t: TaskId, n: nat): seq<Action> {
    if n == 0 then [] else [Work(t)] + Works(t, n - 1)
  }

  /** A task that is left alone ends after the sections it has left, and then its plan is the last word. */
  lemma {:induction false} TaskEnds(s: State, t: TaskId)
    requires t in s.tasks && s.group.Some?
    ensures var end := Execute(s, Works(t, SectionsLeft(s, t)));
            && end.Some? && t !in end.value.tasks && end.value.group.Some?
            && !end.value.group.value.flags.running && !end.value.group.value.flags.dirty
            && end.value.group.value.changes == s.group.value.changes
            && (s.tasks[t].Debounce? || s.tasks[t].Snapshot? || s.group.value.flags.dirty ==>
                  end.value.group.value.seen == s.group.value.changes)
            && (s.group.value.seen == s.group.value.changes ==> end.value.group.value.seen == s.group.value.changes)
    decreases SectionsLeft(s, t)
  {
    WorkNearsEnd(s, t);
    var r := Apply(s, Work(t));
    assert Works(t, SectionsLeft(s, t))[1..] == Works(t, SectionsLeft(s, t) - 1);
    if t in r.tasks {
      TaskEnds(r, t);
    } else {
      assert Works(t, 0) == [];
    }
  }

  /** Any change of a group can be brought to Cast: scheduled, it ends with a plan of the newest membership. */
  lemma ChangeComesToBeSeen(states: seq<State>, acts: seq<Action>, n: nat) returns (t: TaskId, u: TaskId, end: State)
    requires Run(states, acts) && n < |states| && states[n].group.Some?
    ensures Enabled(states[n], Change) && Enabled(Apply(states[n], Change), Schedule(t))
    ensures var s := Apply(Apply(states[n], Change), Schedule(t));
            u in s.tasks && Execute(s, Works(u, SectionsLeft(s, u))) == Some(end)
    ensures end.group.Some? && end.group.value.seen == end.group.value.changes == states[n].group.value.changes + 1
  {
    RunKeepsInv(states, acts, n);
    t := NewNumber(states[n].tasks.Keys);
    var s := Apply(Apply(states[n], Change), Schedule(t));
    if states[n].group.value.flags.running {
      u :| u in states[n].tasks;
    } else {
      u := t;
    }
    TaskEnds(s, u);
    end := Execute(s, Works(u, SectionsLeft(s, u))).value;
  }

  // ----- the flags as they are updated in place ------------------------------------------------

  class ReconcileFlags {
    var running: bool
    var dirty: bool

    function View(): Flags
      reads this
    {
      Flags(running, dirty)
    }

    constructor ()
      ensures View() == Flags(false, false)
    {
      running, dirty := false, false;
    }

    /** `spawn`: the caller has to start the task. */
    method Schedule() returns (spawn: bool)
      modifies this
      ensures View() == Scheduled(old(View()))
      ensures spawn <==> !old(running)
    {
      if running {
        dirty := true;
        return false;
      }
      running, dirty := true, false;
      spawn := true;
    }

    method FinishPass() returns (ends: bool)
      modifies this
      ensures View() == Finished(old(View()))
      ensures ends <==> !old(dirty)
    {
      if dirty {
        return false;
      }
      running := false;
      ends := true;
    }
  }
}
