/** Small datatypes shared by the models. */
module Common {

  datatype Option<+T> = None | Some(value: T)

  function Max(a: nat, b: nat): nat {
    if a < b then b else a
  }

  /** The elements of `s` that satisfy `keep`, in order. */
  function Filter<T(!new)>(s: seq<T>, keep: T -> bool): (r: seq<T>)
    ensures forall x :: x in r <==> x in s && keep(x)
    ensures |r| <= |s|
  {
    if s == [] then []
    else Filter(s[..|s| - 1], keep) + if keep(s[|s| - 1]) then [s[|s| - 1]] else []
  }

  /** Counters that no step lowers. */
  lemma {:induction false} Ascending(counters: seq<nat>, i: nat, j: nat)
    requires i <= j < |counters|
    requires forall k :: 0 <= k < |counters| - 1 ==> counters[k] <= counters[k + 1]
    ensures counters[i] <= counters[j]
    decreases j - i
  {
    if i < j {
      Ascending(counters, i, j - 1);
      assert counters[j - 1] <= counters[j - 1 + 1];
    }
  }

  /** Where counters that end at or above `k` first reach it. */
  lemma {:induction false} CrossingPoint(counters: seq<nat>, i: nat, j: nat, k: nat) returns (m: nat)
    requires i <= j < |counters| && counters[i] < k <= counters[j]
    ensures i <= m < j && counters[m] < k <= counters[m + 1]
    decreases j - i
  {
    if counters[j - 1] < k {
      m := j - 1;
    } else {
      m := CrossingPoint(counters, i, j - 1, k);
    }
  }

  /** A flag that nothing clears is up exactly when it was set before. */
  lemma {:induction false} LatchIff(flags: seq<bool>, sets: seq<bool>, n: nat)
    requires |flags| == |sets| + 1 && n < |flags| && !flags[0]
    requires forall k :: 0 <= k < |sets| ==> flags[k + 1] == (flags[k] || sets[k])
    ensures flags[n] <==> exists i :: 0 <= i < n && sets[i]
  {
    if n > 0 {
      LatchIff(flags, sets, n - 1);
      assert flags[n - 1 + 1] == (flags[n - 1] || sets[n - 1]);
    }
  }

  /** The flag goes up with a step that sets it, and down with one that clears it. */
  ghost predicate Toggles<S(!new), A(!new)>(
      states: seq<S>, acts: seq<A>, flag: S -> bool, sets: (S, A) -> bool, clears: (S, A) -> bool)
  {
    && |states| == |acts| + 1
    && forall k :: 0 <= k < |acts| ==>
         flag(states[k + 1]) == (sets(states[k], acts[k]) || (flag(states[k]) && !clears(states[k], acts[k])))
  }

  /** Then it is up exactly when some step set it and none has cleared it since, or it was up all along. */
  lemma {:induction false} SetOrKept<S(!new), A(!new)>(
      states: seq<S>, acts: seq<A>, n: nat, flag: S -> bool, sets: (S, A) -> bool, clears: (S, A) -> bool)
    requires Toggles(states, acts, flag, sets, clears) && n < |states|
    ensures flag(states[n]) <==>
              || (flag(states[0]) && forall k :: 0 <= k < n ==> !clears(states[k], acts[k]))
              || exists i :: 0 <= i < n && sets(states[i], acts[i]) && forall k :: i < k < n ==> !clears(states[k], acts[k])
  {
    if n > 0 {
      SetOrKept(states, acts, n - 1, flag, sets, clears);
      assert flag(states[n - 1 + 1])
          == (sets(states[n - 1], acts[n - 1]) || (flag(states[n - 1]) && !clears(states[n - 1], acts[n - 1])));
      if i :| 0 <= i < n && sets(states[i], acts[i]) && forall k :: i < k < n ==> !clears(states[k], acts[k]) {
        assert i < n - 1 ==> forall k :: i < k < n - 1 ==> !clears(states[k], acts[k]);
      }
    }
  }

  /** A flag that is down at first is up exactly when some step set it and none has cleared it since. */
  lemma SetUntilCleared<S(!new), A(!new)>(
      states: seq<S>, acts: seq<A>, n: nat, flag: S -> bool, sets: (S, A) -> bool, clears: (S, A) -> bool)
    requires Toggles(states, acts, flag, sets, clears) && n < |states| && !flag(states[0])
    ensures flag(states[n]) <==>
              exists i :: 0 <= i < n && sets(states[i], acts[i]) && forall k :: i < k < n ==> !clears(states[k], acts[k])
  {
    SetOrKept(states, acts, n, flag, sets, clears);
  }

  /** A number above all of `keys`. */
  lemma {:induction false} NewNumber(keys: set<nat>) returns (n: nat)
    ensures n !in keys && forall k :: k in keys ==> k < n
    decreases |keys|
  {
    if keys == {} {
      n := 0;
    } else {
      var k :| k in keys;
      var m := NewNumber(keys - {k});
      n := if m <= k then k + 1 else m;
      assert keys == (keys - {k}) + {k};
    }
  }
}
