/**
 AirPlay names for the visible Cast devices. `key` is how Bonjour compares names (trimmed and lower
 case); models are given trimmed; device ids are distinct. The names are first described as a
 function of the set of devices, then computed as the program does, in whatever order the devices
 come and the name groups are visited.
 */
module Names {
  import opened Common

  const MIN_ID_SUFFIX_LEN := 4

  type Id = string

  /** One visible device: `fixed` is a Home name or a config rename, never suffixed. */
  datatype Candidate = Candidate(id: Id, model: string, fixed: bool, name: string)

  // ----- id suffixes --------------------------------------------------------------------------

  function LowerAlnum(c: char): Option<char> {
    if 'a' <= c <= 'z' || '0' <= c <= '9' then Some(c)
    else if 'A' <= c <= 'Z' then Some((c as int + 32) as char)
    else None
  }

  predicate IsIdChar(c: char) {
    'a' <= c <= 'z' || '0' <= c <= '9'
  }

  ghost predicate IsIdSuffix(s: string) {
    forall i :: 0 <= i < |s| ==> IsIdChar(s[i])
  }

  /** Lower-case alphanumerics of an id: UUIDs with and without dashes are the same. */
  function IdChars(id: Id): (r: string)
    ensures IsIdSuffix(r)
  {
    if id == "" then ""
    else
      var c := LowerAlnum(id[|id| - 1]);
      IdChars(id[..|id| - 1]) + if c.Some? then [c.value] else []
  }

  /** Some other id of the group starts with `prefix`. */
  ghost predicate Clash(id: Id, ids: set<Id>, prefix: string) {
    exists other :: other in ids && other != id && prefix <= IdChars(other)
  }

  function Min(a: nat, b: nat): nat {
    if a < b then a else b
  }

  /** The shortest prefix from `len` on that no other id starts with, or the whole. */
  ghost function UniquePrefix(id: Id, ids: set<Id>, len: nat): (n: nat)
    requires len <= |IdChars(id)|
    ensures len <= n <= |IdChars(id)|
    ensures n == |IdChars(id)| || !Clash(id, ids, IdChars(id)[..n])
    ensures forall m :: len <= m < n ==> Clash(id, ids, IdChars(id)[..m])
    decreases |IdChars(id)| - len
  {
    if len == |IdChars(id)| || !Clash(id, ids, IdChars(id)[..len]) then len else UniquePrefix(id, ids, len + 1)
  }

  ghost function SuffixOf(id: Id, ids: set<Id>): (s: string)
    ensures s <= IdChars(id) && IsIdSuffix(s)
  {
    IdChars(id)[..UniquePrefix(id, ids, Min(MIN_ID_SUFFIX_LEN, |IdChars(id)|))]
  }

  method IdSuffix(id: Id, group: seq<Id>) returns (suffix: string)
    ensures suffix == SuffixOf(id, set o | o in group)
  {
    var mine := IdChars(id);
    var others := [];
    for i := 0 to |group|
      invariant forall o :: o in others <==> exists k :: 0 <= k < i && group[k] != id && o == IdChars(group[k])
    {
      if group[i] != id {
        others := others + [IdChars(group[i])];
      }
    }
    ghost var ids := set o | o in group;
    var len := Min(MIN_ID_SUFFIX_LEN, |mine|);
    while true
      invariant len <= |mine|
      invariant UniquePrefix(id, ids, len) == UniquePrefix(id, ids, Min(MIN_ID_SUFFIX_LEN, |mine|))
      decreases |mine| - len
    {
      var prefix := mine[..len];
      var clashes := false;
      for i := 0 to |others|
        invariant clashes <==> exists k :: 0 <= k < i && prefix <= others[k]
      {
        if prefix <= others[i] {
          clashes := true;
        }
      }
      assert clashes <==> Clash(id, ids, prefix) by {
        if clashes {
          var k :| 0 <= k < |others| && prefix <= others[k];
          assert others[k] in others;
        }
        if Clash(id, ids, prefix) {
          var o :| o in ids && o != id && prefix <= IdChars(o);
          assert IdChars(o) in others;
        }
      }
      if !clashes || len >= |mine| {
        return prefix;
      }
      len := len + 1;
    }
  }

  /** Ids whose alphanumerics differ get different suffixes. */
  lemma SuffixesDiffer(a: Id, b: Id, ids: set<Id>)
    requires a in ids && b in ids && IdChars(a) != IdChars(b)
    ensures SuffixOf(a, ids) != SuffixOf(b, ids)
  {
    var s := SuffixOf(a, ids);
    assert s <= IdChars(b) ==> Clash(a, ids, s);
    assert SuffixOf(b, ids) <= IdChars(a) ==> Clash(b, ids, SuffixOf(b, ids));
  }

  // ----- the names as a function of the set of devices -------------------------------------------

  ghost predicate DistinctIds(cs: set<Candidate>) {
    forall c, d :: c in cs && d in cs && c.id == d.id ==> c == d
  }

  /** Auto-named devices whose name collides with `c`'s, `c` among them if it is auto-named. */
  ghost function Rivals(key: string -> string, cs: set<Candidate>, c: Candidate): set<Candidate> {
    set d | d in cs && !d.fixed && key(d.name) == key(c.name)
  }

  ghost predicate Alone(key: string -> string, cs: set<Candidate>, c: Candidate) {
    forall d :: d in cs && key(d.name) == key(c.name) ==> d == c
  }

  ghost function Ids(cs: set<Candidate>): set<Id> {
    set d | d in cs :: d.id
  }

  predicate ModelTellsName(key: string -> string, c: Candidate) {
    c.model != "" && key(c.model) != key(c.name)
  }

  ghost predicate ModelUnique(key: string -> string, rivals: set<Candidate>, c: Candidate) {
    && ModelTellsName(key, c)
    && forall d :: d in rivals && key(d.model) == key(c.model) ==> d == c
  }

  function Suffixed(name: string, suffix: string): (r: string)
    ensures |r| > |name|
  {
    name + " (" + suffix + ")"
  }

  ghost function Disambiguated(key: string -> string, rivals: set<Candidate>, c: Candidate): string {
    Suffixed(c.name, if ModelUnique(key, rivals, c) then c.model else SuffixOf(c.id, Ids(rivals)))
  }

  /** The name before clashes of generated names are resolved. */
  ghost function FirstName(key: string -> string, cs: set<Candidate>, c: Candidate): string {
    if c.fixed || Alone(key, cs, c) then c.name else Disambiguated(key, Rivals(key, cs, c), c)
  }

  /** A generated name that another device has too. */
  ghost predicate Replaced(key: string -> string, cs: set<Candidate>, c: Candidate) {
    && !c.fixed && FirstName(key, cs, c) != c.name
    && exists d :: d in cs && d != c && key(FirstName(key, cs, d)) == key(FirstName(key, cs, c))
  }

  ghost function FinalName(key: string -> string, cs: set<Candidate>, c: Candidate): string {
    if Replaced(key, cs, c) then Suffixed(c.name, SuffixOf(c.id, Ids(cs))) else FirstName(key, cs, c)
  }

  // ----- computing them -------------------------------------------------------------------------

  ghost function Set(cs: seq<Candidate>): set<Candidate> {
    set c | c in cs
  }

  ghost predicate Distinct(cs: seq<Candidate>) {
    forall i, j :: 0 <= i < j < |cs| ==> cs[i].id != cs[j].id
  }

  /** How many candidates an attribute of `c` is shared by, `c` included. */
  method CountModel(key: string -> string, auto: seq<Candidate>, c: Candidate) returns (n: nat)
    requires Distinct(auto) && c in auto
    ensures n == 1 <==> forall d :: d in auto && key(d.model) == key(c.model) ==> d == c
  {
    n := 0;
    ghost var first, second := -1, -1;
    for i := 0 to |auto|
      invariant n == 0 ==> forall k :: 0 <= k < i ==> key(auto[k].model) != key(c.model)
      invariant n == 1 ==> 0 <= first < i && key(auto[first].model) == key(c.model)
                           && forall k :: 0 <= k < i && key(auto[k].model) == key(c.model) ==> k == first
      invariant n >= 2 ==> 0 <= first < second < i && key(auto[first].model) == key(c.model)
                           && key(auto[second].model) == key(c.model)
    {
      if key(auto[i].model) == key(c.model) {
        if n == 0 {
          first := i;
        } else if n == 1 {
          second := i;
        }
        n := n + 1;
      }
    }
    var at :| 0 <= at < |auto| && auto[at] == c;
    if n >= 2 {
      assert auto[first] in auto && auto[second] in auto && auto[first] != auto[second];
    }
  }

  method Disambiguate(key: string -> string, auto: seq<Candidate>) returns (out: seq<string>)
    requires Distinct(auto)
    ensures |out| == |auto|
    ensures forall i :: 0 <= i < |auto| ==> out[i] == Disambiguated(key, Set(auto), auto[i])
  {
    var ids := [];
    for i := 0 to |auto|
      invariant forall o :: o in ids <==> exists k :: 0 <= k < i && o == auto[k].id
    {
      ids := ids + [auto[i].id];
    }
    assert (set o | o in ids) == Ids(Set(auto));
    out := [];
    for i := 0 to |auto|
      invariant |out| == i
      invariant forall k :: 0 <= k < i ==> out[k] == Disambiguated(key, Set(auto), auto[k])
    {
      var c := auto[i];
      var count := CountModel(key, auto, c);
      var suffix;
      if ModelTellsName(key, c) && count == 1 {
        suffix := c.model;
      } else {
        suffix := IdSuffix(c.id, ids);
      }
      out := out + [Suffixed(c.name, suffix)];
    }
  }

  /** Exactly the candidates of `which` have their first name. */
  ghost predicate Named(key: string -> string, cs: set<Candidate>, which: set<Candidate>, names: map<Id, string>) {
    && names.Keys == Ids(which)
    && forall c :: c in which ==> names[c.id] == FirstName(key, cs, c)
  }

  lemma NameOneMore(
      key: string -> string, cs: set<Candidate>, which: set<Candidate>, names: map<Id, string>, c: Candidate)
    requires Named(key, cs, which, names) && DistinctIds(cs) && which <= cs && c in cs
    ensures Named(key, cs, which + {c}, names[c.id := FirstName(key, cs, c)])
  {
  }

  /** `groups` lists the candidates of `seen` by the key of their name. */
  ghost predicate Grouped(key: string -> string, seen: seq<Candidate>, groups: map<string, seq<Candidate>>) {
    && (forall c :: c in seen ==> key(c.name) in groups)
    && (forall k :: k in groups ==> groups[k] != [] && Distinct(groups[k]))
    && (forall k, c :: k in groups ==> (c in groups[k] <==> c in seen && key(c.name) == k))
  }

  lemma GroupOneMore(
      key: string -> string, seen: seq<Candidate>, groups: map<string, seq<Candidate>>, c: Candidate, k: string)
    requires Grouped(key, seen, groups) && k == key(c.name)
    requires forall d :: d in seen ==> d.id != c.id
    ensures Grouped(key, seen + [c], groups[k := (if k in groups then groups[k] else []) + [c]])
  {
    var before := if k in groups then groups[k] else [];
    assert forall d :: d in before <==> d in seen && key(d.name) == k;
    assert forall d :: d in before + [c] <==> d in before || d == c;
    assert forall d :: d in seen + [c] <==> d in seen || d == c;
    assert Distinct(before + [c]);
  }

  method GroupByName(key: string -> string, visible: seq<Candidate>) returns (groups: map<string, seq<Candidate>>)
    requires Distinct(visible)
    ensures Grouped(key, visible, groups)
  {
    groups := map[];
    for i := 0 to |visible|
      invariant Grouped(key, visible[..i], groups)
    {
      var k := key(visible[i].name);
      assert visible[..i + 1] == visible[..i] + [visible[i]];
      GroupOneMore(key, visible[..i], groups, visible[i], k);
      groups := groups[k := (if k in groups then groups[k] else []) + [visible[i]]];
    }
    assert visible[..|visible|] == visible;
  }

  method AutoNamed(members: seq<Candidate>) returns (auto: seq<Candidate>)
    requires Distinct(members)
    ensures Distinct(auto) && forall c :: c in auto <==> c in members && !c.fixed
  {
    auto := [];
    for i := 0 to |members|
      invariant Distinct(auto)
      invariant forall c :: c in auto <==> c in members[..i] && !c.fixed
    {
      assert members[..i + 1] == members[..i] + [members[i]];
      assert forall d :: d in members[..i] ==> d.id != members[i].id;
      if !members[i].fixed {
        auto := auto + [members[i]];
      }
    }
    assert members[..|members|] == members;
  }

  /** `given` are the first names of the devices in `auto`. */
  ghost predicate GivesFirst(key: string -> string, cs: set<Candidate>, auto: seq<Candidate>, given: seq<string>) {
    |given| == |auto| && forall i :: 0 <= i < |auto| ==> given[i] == FirstName(key, cs, auto[i])
  }

  /** The names of one group's auto-named devices. */
  method NamesOfGroup(
      key: string -> string, members: seq<Candidate>, auto: seq<Candidate>, ghost cs: set<Candidate>, ghost k: string)
    returns (given: seq<string>)
    requires DistinctIds(cs) && Distinct(auto)
    requires forall c :: c in members <==> c in cs && key(c.name) == k
    requires Distinct(members)
    requires forall c :: c in auto <==> c in members && !c.fixed
    ensures GivesFirst(key, cs, auto, given)
  {
    if |members| < 2 {
      given := [];
      for i := 0 to |auto|
        invariant |given| == i && forall j :: 0 <= j < i ==> given[j] == FirstName(key, cs, auto[j])
      {
        assert auto[i] in auto && auto[i] == members[0] && Alone(key, cs, auto[i]);
        given := given + [auto[i].name];
      }
    } else {
      given := Disambiguate(key, auto);
      assert members[0] in members && members[1] in members;
      forall i | 0 <= i < |auto|
        ensures given[i] == FirstName(key, cs, auto[i])
      {
        assert auto[i] in auto && !Alone(key, cs, auto[i]);
        assert Set(auto) == Rivals(key, cs, auto[i]);
      }
    }
  }

  /** names.insert for each device of `auto`. */
  method Insert(
      key: string -> string, auto: seq<Candidate>, given: seq<string>, names: map<Id, string>,
      ghost cs: set<Candidate>, ghost done: set<Candidate>)
    returns (more: map<Id, string>)
    requires DistinctIds(cs) && done <= cs && Named(key, cs, done, names)
    requires Set(auto) <= cs && GivesFirst(key, cs, auto, given)
    ensures Named(key, cs, done + Set(auto), more)
  {
    more := names;
    ghost var reached := done;
    for i := 0 to |auto|
      invariant reached <= cs && Named(key, cs, reached, more)
      invariant forall c :: c in reached <==> c in done || c in auto[..i]
    {
      assert auto[i] in Set(auto);
      assert auto[..i + 1] == auto[..i] + [auto[i]];
      NameOneMore(key, cs, reached, more, auto[i]);
      reached := reached + {auto[i]};
      more := more[auto[i].id := given[i]];
    }
    assert auto[..|auto|] == auto;
    assert reached == done + Set(auto);
  }

  ghost function AutoDone(key: string -> string, cs: set<Candidate>, todo: set<string>): set<Candidate> {
    set c | c in cs && !c.fixed && key(c.name) !in todo
  }

  lemma GroupDone(key: string -> string, cs: set<Candidate>, todo: set<string>, k: string, auto: seq<Candidate>)
    requires k in todo && forall c :: c in auto <==> c in cs && key(c.name) == k && !c.fixed
    ensures AutoDone(key, cs, todo - {k}) == AutoDone(key, cs, todo) + Set(auto)
  {
  }

  /** The name groups are visited in any order. */
  method AutoNames(key: string -> string, visible: seq<Candidate>) returns (names: map<Id, string>)
    requires Distinct(visible)
    ensures Named(key, Set(visible), AutoDone(key, Set(visible), {}), names)
  {
    ghost var cs := Set(visible);
    var groups := GroupByName(key, visible);
    var todo := groups.Keys;
    names := map[];
    assert AutoDone(key, cs, todo) == {};
    while todo != {}
      invariant todo <= groups.Keys
      invariant Named(key, cs, AutoDone(key, cs, todo), names)
      decreases |todo|
    {
      var k :| k in todo;
      var auto := AutoNamed(groups[k]);
      var given := NamesOfGroup(key, groups[k], auto, cs, k);
      names := Insert(key, auto, given, names, cs, AutoDone(key, cs, todo));
      GroupDone(key, cs, todo, k, auto);
      todo := todo - {k};
    }
  }

  method FirstNames(key: string -> string, visible: seq<Candidate>) returns (names: map<Id, string>)
    requires Distinct(visible)
    ensures Named(key, Set(visible), Set(visible), names)
  {
    ghost var cs := Set(visible);
    names := AutoNames(key, visible);
    ghost var done := AutoDone(key, cs, {});
    for i := 0 to |visible|
      invariant done == set c | c in cs && (!c.fixed || c in visible[..i])
      invariant Named(key, cs, done, names)
    {
      assert visible[..i + 1] == visible[..i] + [visible[i]];
      if visible[i].fixed {
        NameOneMore(key, cs, done, names, visible[i]);
        done := done + {visible[i]};
        names := names[visible[i].id := visible[i].name];
      }
    }
    assert done == cs;
  }

  // ----- clashes of generated names -------------------------------------------------------------

  ghost function WithKey(key: string -> string, names: map<Id, string>, ids: set<Id>, k: string): set<Id> {
    set id | id in ids && id in names && key(names[id]) == k
  }

  method CountNames(key: string -> string, names: map<Id, string>) returns (counts: map<string, nat>)
    ensures forall k :: (if k in counts then counts[k] else 0) == |WithKey(key, names, names.Keys, k)|
  {
    counts := map[];
    var todo := names.Keys;
    while todo != {}
      invariant todo <= names.Keys
      invariant forall k :: (if k in counts then counts[k] else 0) == |WithKey(key, names, names.Keys - todo, k)|
      decreases |todo|
    {
      var id :| id in todo;
      var k := key(names[id]);
      ghost var before := names.Keys - todo;
      assert names.Keys - (todo - {id}) == before + {id};
      forall j {
        CountOneMore(key, names, before, id, j);
      }
      counts := counts[k := (if k in counts then counts[k] else 0) + 1];
      todo := todo - {id};
    }
    assert names.Keys - todo == names.Keys;
  }

  lemma CountOneMore(key: string -> string, names: map<Id, string>, ids: set<Id>, id: Id, k: string)
    requires id in names && id !in ids
    ensures |WithKey(key, names, ids + {id}, k)| == |WithKey(key, names, ids, k)| + if key(names[id]) == k then 1 else 0
  {
    assert WithKey(key, names, ids + {id}, k)
        == WithKey(key, names, ids, k) + if key(names[id]) == k then {id} else {};
  }

  lemma TwoElements(s: set<Id>, a: Id)
    requires a in s
    ensures |s| >= 2 <==> exists b :: b in s && b != a
  {
    assert s == {a} + (s - {a});
    if |s| >= 2 {
      var b :| b in s - {a};
    }
  }

  /** The count of a name says whether another device has it. */
  lemma CountFindsClash(key: string -> string, cs: set<Candidate>, names: map<Id, string>, c: Candidate)
    requires DistinctIds(cs) && Named(key, cs, cs, names) && c in cs
    ensures |WithKey(key, names, names.Keys, key(names[c.id]))| >= 2
            <==> exists d :: d in cs && d != c && key(FirstName(key, cs, d)) == key(FirstName(key, cs, c))
  {
    var s := WithKey(key, names, names.Keys, key(names[c.id]));
    TwoElements(s, c.id);
    if b :| b in s && b != c.id {
      var d :| d in cs && d.id == b;
      assert d != c && key(FirstName(key, cs, d)) == key(FirstName(key, cs, c));
    }
    if d :| d in cs && d != c && key(FirstName(key, cs, d)) == key(FirstName(key, cs, c)) {
      assert d.id in s && d.id != c.id;
    }
  }

  ghost predicate IsNaming(key: string -> string, cs: set<Candidate>, names: map<Id, string>) {
    && names.Keys == Ids(cs)
    && forall c :: c in cs ==> names[c.id] == FinalName(key, cs, c)
  }

  /** The name of `c` after resolution, given its first name and how many devices have that. */
  method Resolved(key: string -> string, c: Candidate, current: string, count: nat, ids: seq<Id>,
                  ghost cs: set<Candidate>)
    returns (name: string)
    requires c in cs && current == FirstName(key, cs, c) && (set o | o in ids) == Ids(cs)
    requires count >= 2 <==> exists d :: d in cs && d != c && key(FirstName(key, cs, d)) == key(current)
    ensures name == FinalName(key, cs, c)
  {
    name := current;
    if !c.fixed && current != c.name && count >= 2 {
      var suffix := IdSuffix(c.id, ids);
      name := Suffixed(c.name, suffix);
    }
  }

  method IdsOf(visible: seq<Candidate>) returns (ids: seq<Id>)
    ensures (set o | o in ids) == Ids(Set(visible))
  {
    ids := [];
    for i := 0 to |visible|
      invariant forall o :: o in ids <==> exists k :: 0 <= k < i && o == visible[k].id
    {
      ids := ids + [visible[i].id];
    }
  }

  /** The first `n` devices have their final name, the others still their first one. */
  ghost predicate Resolving(
      key: string -> string, cs: set<Candidate>, visible: seq<Candidate>, names: map<Id, string>, n: nat)
    requires Set(visible) == cs
  {
    && names.Keys == Ids(cs)
    && forall k :: 0 <= k < |visible| ==>
         visible[k].id in names
         && names[visible[k].id] == if k < n then FinalName(key, cs, visible[k]) else FirstName(key, cs, visible[k])
  }

  lemma ResolveOneMore(
      key: string -> string, cs: set<Candidate>, visible: seq<Candidate>, names: map<Id, string>, n: nat)
    requires Set(visible) == cs && Distinct(visible) && n < |visible|
    requires Resolving(key, cs, visible, names, n)
    ensures Resolving(key, cs, visible, names[visible[n].id := FinalName(key, cs, visible[n])], n + 1)
  {
    var final := FinalName(key, cs, visible[n]);
    var more := names[visible[n].id := final];
    assert visible[n].id in names;
    assert more.Keys == names.Keys;
    forall k | 0 <= k < |visible|
      ensures visible[k].id in more
      ensures k != n ==> more[visible[k].id] == names[visible[k].id]
    {
    }
  }

  lemma FirstIsUnresolved(key: string -> string, cs: set<Candidate>, visible: seq<Candidate>, first: map<Id, string>)
    requires Set(visible) == cs && Named(key, cs, cs, first)
    ensures Resolving(key, cs, visible, first, 0)
  {
    assert forall k :: 0 <= k < |visible| ==> visible[k] in cs;
  }

  lemma AllResolved(key: string -> string, cs: set<Candidate>, visible: seq<Candidate>, names: map<Id, string>)
    requires Set(visible) == cs && Resolving(key, cs, visible, names, |visible|)
    ensures IsNaming(key, cs, names)
  {
  }

  method ResolveSuffixClashes(key: string -> string, visible: seq<Candidate>, first: map<Id, string>)
    returns (names: map<Id, string>)
    requires Distinct(visible) && Named(key, Set(visible), Set(visible), first)
    ensures IsNaming(key, Set(visible), names)
  {
    ghost var cs := Set(visible);
    var counts := CountNames(key, first);
    var ids := IdsOf(visible);
    names := first;
    FirstIsUnresolved(key, cs, visible, first);
    for i := 0 to |visible|
      invariant Resolving(key, cs, visible, names, i)
    {
      var c := visible[i];
      var current := names[c.id];
      CountFindsClash(key, cs, first, c);
      var name := Resolved(key, c, current, if key(current) in counts then counts[key(current)] else 0, ids, cs);
      ResolveOneMore(key, cs, visible, names, i);
      names := names[c.id := name];
    }
    AllResolved(key, cs, visible, names);
  }

  // ----- airplay_names ---------------------------------------------------------------------------

  datatype Device = Device(id: Id, name: string, model: string)

  /** The configuration for a device: hidden, and its display name, maybe a rename. */
  datatype Override = Override(hidden: bool, renamed: bool, displayName: string)

  function CandidateOf(d: Device, o: Override, home: map<Id, string>): Candidate {
    Candidate(d.id, d.model, o.renamed || d.id in home, if d.id in home then home[d.id] else o.displayName)
  }

  ghost function VisibleOf(devices: set<Device>, config: Device -> Override, home: map<Id, string>): set<Candidate> {
    set d | d in devices && !config(d).hidden :: CandidateOf(d, config(d), home)
  }

  /**
   The names depend on nothing but the set of devices, configuration and Home names: not on the
   order of the devices, nor on the order in which the name groups are visited.
   */
  method AirplayNames(key: string -> string, devices: seq<Device>, config: Device -> Override, home: map<Id, string>)
    returns (names: map<Id, string>)
    requires forall i, j :: 0 <= i < j < |devices| ==> devices[i].id != devices[j].id
    ensures IsNaming(key, VisibleOf((set d | d in devices), config, home), names)
  {
    var visible := [];
    for i := 0 to |devices|
      invariant Distinct(visible)
      invariant forall c :: c in visible <==>
                  exists k :: 0 <= k < i && !config(devices[k]).hidden
                              && c == CandidateOf(devices[k], config(devices[k]), home)
    {
      var over := config(devices[i]);
      if !over.hidden {
        var c := CandidateOf(devices[i], over, home);
        assert forall d :: d in visible ==> d.id != c.id;
        visible := visible + [c];
      }
    }
    assert Set(visible) == VisibleOf((set d | d in devices), config, home);
    var first := FirstNames(key, visible);
    names := ResolveSuffixClashes(key, visible, first);
  }

  /** Two namings of the same devices are the same map. */
  lemma NamingIsUnique(key: string -> string, cs: set<Candidate>, a: map<Id, string>, b: map<Id, string>)
    requires IsNaming(key, cs, a) && IsNaming(key, cs, b)
    ensures a == b
  {
    forall id | id in a
      ensures id in b && a[id] == b[id]
    {
      var c :| c in cs && c.id == id;
    }
  }

  /** Keys are exactly the ids of the devices that are not hidden; fixed names come out verbatim. */
  lemma KeysAndFixedNames(
      key: string -> string, devices: set<Device>, config: Device -> Override, home: map<Id, string>,
      names: map<Id, string>, d: Device)
    requires IsNaming(key, VisibleOf(devices, config, home), names)
    requires forall e, f :: e in devices && f in devices && e.id == f.id ==> e == f
    requires d in devices
    ensures d.id in names <==> !config(d).hidden
    ensures !config(d).hidden && d.id in home ==> names[d.id] == home[d.id]
    ensures !config(d).hidden && d.id !in home && config(d).renamed ==> names[d.id] == config(d).displayName
  {
    var cs := VisibleOf(devices, config, home);
    if !config(d).hidden {
      assert CandidateOf(d, config(d), home) in cs;
    }
  }

  // ----- which name a device is given ---------------------------------------------------------------

  /** Another device has the name too, and `c` is auto-named. */
  ghost predicate Collides(key: string -> string, cs: set<Candidate>, c: Candidate) {
    !c.fixed && exists d :: d in cs && d != c && key(d.name) == key(c.name)
  }

  /** `c` has a model, other than its name, that no other auto-named device of that name has. */
  ghost predicate ToldByModel(key: string -> string, cs: set<Candidate>, c: Candidate) {
    && c.model != "" && key(c.model) != key(c.name)
    && forall d :: d in cs && d != c && !d.fixed && key(d.name) == key(c.name) ==> key(d.model) != key(c.model)
  }

  /** `s` is the shortest beginning of the id, of four characters or more, that no other of the ids has. */
  ghost predicate ShortestTelling(id: Id, ids: set<Id>, s: string) {
    && s <= IdChars(id) && (|s| >= 4 || s == IdChars(id))
    && (s == IdChars(id) || !exists o :: o in ids && o != id && s <= IdChars(o))
    && forall n :: 4 <= n < |s| ==> exists o :: o in ids && o != id && IdChars(id)[..n] <= IdChars(o)
  }

  /** The name that `c` is to have when no other device is called so. */
  ghost predicate Wants(key: string -> string, cs: set<Candidate>, c: Candidate, name: string) {
    if !Collides(key, cs, c) then name == c.name
    else if ToldByModel(key, cs, c) then name == c.name + " (" + c.model + ")"
    else exists s :: name == c.name + " (" + s + ")"
                     && ShortestTelling(c.id, set d | d in cs && !d.fixed && key(d.name) == key(c.name) :: d.id, s)
  }

  lemma SuffixIsShortest(id: Id, ids: set<Id>, s: string)
    ensures ShortestTelling(id, ids, s) <==> s == SuffixOf(id, ids)
  {
    var mine := IdChars(id);
    var least := Min(MIN_ID_SUFFIX_LEN, |mine|);
    var n := UniquePrefix(id, ids, least);
    assert SuffixOf(id, ids) == mine[..n];
    assert mine[..|mine|] == mine;
    forall m | 4 <= m < n
      ensures exists o :: o in ids && o != id && mine[..m] <= IdChars(o)
    {
      assert Clash(id, ids, mine[..m]);
    }
    if ShortestTelling(id, ids, s) {
      assert s == mine[..|s|] && |s| == n;
    }
  }

  lemma WantsFirst(key: string -> string, cs: set<Candidate>, c: Candidate, name: string)
    requires c in cs
    ensures Wants(key, cs, c, name) <==> name == FirstName(key, cs, c)
  {
    var rivals := Rivals(key, cs, c);
    assert Ids(rivals) == set d | d in cs && !d.fixed && key(d.name) == key(c.name) :: d.id;
    SuffixIsShortest(c.id, Ids(rivals), SuffixOf(c.id, Ids(rivals)));
    if Collides(key, cs, c) {
      assert ToldByModel(key, cs, c) <==> ModelUnique(key, rivals, c);
      if Wants(key, cs, c, name) && !ToldByModel(key, cs, c) {
        var s :| name == c.name + " (" + s + ")" && ShortestTelling(c.id, Ids(rivals), s);
        SuffixIsShortest(c.id, Ids(rivals), s);
      }
    }
  }

  /** Another device wants to be called so. */
  ghost predicate AlsoWanted(key: string -> string, cs: set<Candidate>, c: Candidate, name: string) {
    exists d, other :: d in cs && d != c && Wants(key, cs, d, other) && key(other) == key(name)
  }

  lemma AlsoWantedIff(key: string -> string, cs: set<Candidate>, c: Candidate, name: string)
    ensures AlsoWanted(key, cs, c, name) <==> exists d :: d in cs && d != c && key(FirstName(key, cs, d)) == key(name)
  {
    if d, other :| d in cs && d != c && Wants(key, cs, d, other) && key(other) == key(name) {
      WantsFirst(key, cs, d, other);
    }
    if d :| d in cs && d != c && key(FirstName(key, cs, d)) == key(name) {
      WantsFirst(key, cs, d, FirstName(key, cs, d));
    }
  }

  lemma CollidesIff(key: string -> string, cs: set<Candidate>, c: Candidate)
    requires c in cs
    ensures Collides(key, cs, c) <==> !c.fixed && FirstName(key, cs, c) != c.name
  {
  }

  /**
   Which name a device is given: the one it wants, but a colliding device that wants what another
   wants is told by its id among all devices.
   */
  lemma GivenNameIs(
      key: string -> string, cs: set<Candidate>, names: map<Id, string>, c: Candidate, name: string)
    requires IsNaming(key, cs, names) && c in cs && Wants(key, cs, c, name)
    ensures if Collides(key, cs, c) && AlsoWanted(key, cs, c, name)
            then exists s :: names[c.id] == c.name + " (" + s + ")" && ShortestTelling(c.id, Ids(cs), s)
            else names[c.id] == name
  {
    WantsFirst(key, cs, c, name);
    AlsoWantedIff(key, cs, c, name);
    CollidesIff(key, cs, c);
    SuffixIsShortest(c.id, Ids(cs), SuffixOf(c.id, Ids(cs)));
  }

  /** Of two devices of one name, one with a model that tells it from the other is called by that. */
  lemma ToldByModelIsNamed(
      key: string -> string, cs: set<Candidate>, names: map<Id, string>, c: Candidate, d: Candidate, other: string)
    requires cs == {c, d} && IsNaming(key, cs, names) && c != d && !c.fixed && key(c.name) == key(d.name)
    requires c.model != "" && key(c.model) != key(c.name) && key(c.model) != key(d.model)
    requires Wants(key, cs, d, other) && key(other) != key(c.name + " (" + c.model + ")")
    ensures names[c.id] == c.name + " (" + c.model + ")"
  {
    ToldByModelWants(key, cs, c, d);
    WantsFirst(key, cs, d, other);
    FirstIsFinal(key, cs, c);
  }

  lemma FirstIsFinal(key: string -> string, cs: set<Candidate>, c: Candidate)
    requires forall d :: d in cs && d != c ==> key(FirstName(key, cs, d)) != key(FirstName(key, cs, c))
    ensures FinalName(key, cs, c) == FirstName(key, cs, c)
  {
  }

  lemma ToldByModelWants(key: string -> string, cs: set<Candidate>, c: Candidate, d: Candidate)
    requires c in cs && d in cs && c != d && !c.fixed && key(c.name) == key(d.name) && c.model != ""
    requires key(c.model) != key(c.name) && forall e :: e in cs && e != c ==> key(e.model) != key(c.model)
    ensures FirstName(key, cs, c) == c.name + " (" + c.model + ")"
  {
    assert Collides(key, cs, c) && ToldByModel(key, cs, c);
    WantsFirst(key, cs, c, c.name + " (" + c.model + ")");
  }

  // ----- are the names distinct? ------------------------------------------------------------------

  /** Comparing names compares an id suffix and the name before it. */
  ghost predicate KeepsSuffix(key: string -> string) {
    forall n, s, m, t {:trigger SameSuffixed(key, n, s, m, t)} ::
      SameSuffixed(key, n, s, m, t) && IsIdSuffix(s) && IsIdSuffix(t) ==> s == t && key(n) == key(m)
  }

  predicate SameSuffixed(key: string -> string, n: string, s: string, m: string, t: string) {
    key(Suffixed(n, s)) == key(Suffixed(m, t))
  }

  /** ASCII names in lower case are compared like that. */
  function Lowered(s: string): (r: string)
    ensures |r| == |s|
    ensures forall i :: 0 <= i < |s| ==> r[i] == if 'A' <= s[i] <= 'Z' then (s[i] as int + 32) as char else s[i]
  {
    if s == "" then ""
    else
      var c := s[|s| - 1];
      Lowered(s[..|s| - 1]) + [if 'A' <= c <= 'Z' then (c as int + 32) as char else c]
  }

  /** `x` ends with `s` in parentheses. */
  ghost predicate EndsWith(x: string, s: string) {
    && |x| >= |s| + 2 && x[|x| - |s| - 2] == '(' && x[|x| - 1] == ')'
    && forall i :: 0 <= i < |s| ==> x[|x| - |s| - 1 + i] == s[i]
  }

  lemma SuffixIsLowered(x: string, n: string, s: string)
    requires IsIdSuffix(s)
    requires var y := Suffixed(n, s); |x| == |y| && forall i :: 0 <= i < |y| && !('A' <= y[i] <= 'Z') ==> x[i] == y[i]
    ensures EndsWith(x, s)
  {
    var y := Suffixed(n, s);
    var p := |n| + 1;
    assert |y| == p + |s| + 2 && y[p] == '(' && y[p + |s| + 1] == ')';
    forall i | 0 <= i < |s|
      ensures x[|x| - |s| - 1 + i] == s[i]
    {
      assert y[p + 1 + i] == s[i] && IsIdChar(s[i]);
    }
  }

  lemma LoweredSuffix(n: string, s: string)
    requires IsIdSuffix(s)
    ensures EndsWith(Lowered(Suffixed(n, s)), s)
  {
    SuffixIsLowered(Lowered(Suffixed(n, s)), n, s);
  }

  ghost function LastOpen(x: string): int {
    if x == "" then -1 else if x[|x| - 1] == '(' then |x| - 1 else LastOpen(x[..|x| - 1])
  }

  lemma {:induction false} LastOpenAt(x: string, p: nat)
    requires p < |x| && x[p] == '(' && forall i :: p < i < |x| ==> x[i] != '('
    ensures LastOpen(x) == p
  {
    if p < |x| - 1 {
      LastOpenAt(x[..|x| - 1], p);
    }
  }

  lemma SuffixStart(x: string, s: string)
    requires EndsWith(x, s) && IsIdSuffix(s)
    ensures LastOpen(x) == |x| - |s| - 2
    ensures s == x[|x| - |s| - 1..|x| - 1]
  {
    forall i | |x| - |s| - 2 < i < |x| - 1
      ensures x[i] != '('
    {
      assert x[i] == x[|x| - |s| - 1 + (i - (|x| - |s| - 1))] == s[i - (|x| - |s| - 1)];
    }
    LastOpenAt(x, |x| - |s| - 2);
  }

  lemma {:induction false} LoweredConcat(n: string, m: string)
    ensures Lowered(n + m) == Lowered(n) + Lowered(m)
    decreases |m|
  {
    if m == "" {
      assert n + m == n;
    } else {
      assert (n + m)[..|n + m| - 1] == n + m[..|m| - 1];
      LoweredConcat(n, m[..|m| - 1]);
    }
  }

  lemma LoweredPrefix(n: string, x: string, m: string, y: string)
    requires |n| == |m| && Lowered(n + x) == Lowered(m + y)
    ensures Lowered(n) == Lowered(m)
  {
    LoweredConcat(n, x);
    LoweredConcat(m, y);
    assert (Lowered(n) + Lowered(x))[..|n|] == Lowered(n);
    assert (Lowered(m) + Lowered(y))[..|n|] == Lowered(m);
  }

  function InParentheses(s: string): string {
    " (" + s + ")"
  }

  lemma SuffixedIs(n: string, s: string)
    ensures Suffixed(n, s) == n + InParentheses(s)
  {
  }

  lemma LoweredSuffixes(n: string, s: string, m: string, t: string)
    requires SameSuffixed(Lowered, n, s, m, t) && IsIdSuffix(s) && IsIdSuffix(t)
    ensures s == t && |n| == |m|
  {
    LoweredSuffix(n, s);
    LoweredSuffix(m, t);
    SuffixStart(Lowered(Suffixed(n, s)), s);
    SuffixStart(Lowered(Suffixed(n, s)), t);
  }

  lemma LoweredSame(n: string, s: string, m: string, t: string)
    requires SameSuffixed(Lowered, n, s, m, t) && IsIdSuffix(s) && IsIdSuffix(t)
    ensures s == t && Lowered(n) == Lowered(m)
  {
    LoweredSuffixes(n, s, m, t);
    SuffixedIs(n, s);
    SuffixedIs(m, t);
    LoweredPrefix(n, InParentheses(s), m, InParentheses(t));
  }

  lemma LoweredKeepsSuffix()
    ensures KeepsSuffix(Lowered)
  {
    forall n, s, m, t | SameSuffixed(Lowered, n, s, m, t) && IsIdSuffix(s) && IsIdSuffix(t)
      ensures s == t && Lowered(n) == Lowered(m)
    {
      LoweredSame(n, s, m, t);
    }
  }

  ghost predicate DistinctAlnum(cs: set<Candidate>) {
    forall c, d :: c in cs && d in cs && c != d ==> IdChars(c.id) != IdChars(d.id)
  }

  lemma IdSuffixesDiffer(key: string -> string, ids: set<Id>, a: Candidate, b: Candidate)
    requires KeepsSuffix(key) && a.id in ids && b.id in ids && IdChars(a.id) != IdChars(b.id)
    ensures key(Suffixed(a.name, SuffixOf(a.id, ids))) != key(Suffixed(b.name, SuffixOf(b.id, ids)))
  {
    SuffixesDiffer(a.id, b.id, ids);
    assert !SameSuffixed(key, a.name, SuffixOf(a.id, ids), b.name, SuffixOf(b.id, ids));
  }

  /** Id-suffixed devices of one collision group get different names. */
  lemma IdSuffixedRivalsDiffer(key: string -> string, rivals: set<Candidate>, a: Candidate, b: Candidate)
    requires KeepsSuffix(key) && DistinctAlnum(rivals) && a in rivals && b in rivals && a != b
    requires !ModelUnique(key, rivals, a) && !ModelUnique(key, rivals, b)
    ensures key(Disambiguated(key, rivals, a)) != key(Disambiguated(key, rivals, b))
  {
    IdSuffixesDiffer(key, Ids(rivals), a, b);
  }

  ghost predicate AllNamesDiffer(key: string -> string, cs: set<Candidate>) {
    forall c, d :: c in cs && d in cs && c != d ==> key(FinalName(key, cs, c)) != key(FinalName(key, cs, d))
  }

  ghost predicate FixedNamesDiffer(key: string -> string, cs: set<Candidate>) {
    forall c, d :: c in cs && d in cs && c != d && c.fixed && d.fixed ==> key(c.name) != key(d.name)
  }

  /** With the id suffix that tells it from all devices. */
  ghost function Fallback(cs: set<Candidate>, c: Candidate): string {
    Suffixed(c.name, SuffixOf(c.id, Ids(cs)))
  }

  /** Device `c` falls back to the name that `d` keeps. */
  ghost predicate LandsOn(key: string -> string, cs: set<Candidate>, c: Candidate, d: Candidate) {
    Replaced(key, cs, c) && !Replaced(key, cs, d) && key(Fallback(cs, c)) == key(FirstName(key, cs, d))
  }

  ghost predicate FallbacksAreFree(key: string -> string, cs: set<Candidate>) {
    forall c, d :: c in cs && d in cs && c != d ==> !LandsOn(key, cs, c, d)
  }

  lemma StayingNamesDiffer(key: string -> string, cs: set<Candidate>, c: Candidate, d: Candidate)
    requires FixedNamesDiffer(key, cs) && c in cs && d in cs && c != d
    requires !Replaced(key, cs, c) && !Replaced(key, cs, d)
    ensures key(FirstName(key, cs, c)) != key(FirstName(key, cs, d))
  {
  }

  lemma LandingClashes(key: string -> string, cs: set<Candidate>, c: Candidate, d: Candidate)
    requires LandsOn(key, cs, c, d)
    ensures key(FinalName(key, cs, c)) == key(FinalName(key, cs, d))
  {
  }

  lemma FallingNamesDiffer(key: string -> string, cs: set<Candidate>, c: Candidate, d: Candidate)
    requires KeepsSuffix(key) && DistinctAlnum(cs) && c in cs && d in cs && c != d
    requires Replaced(key, cs, c) && Replaced(key, cs, d)
    ensures key(FinalName(key, cs, c)) != key(FinalName(key, cs, d))
  {
    IdSuffixesDiffer(key, Ids(cs), c, d);
  }

  lemma FreeNamesDiffer(key: string -> string, cs: set<Candidate>, c: Candidate, d: Candidate)
    requires KeepsSuffix(key) && DistinctAlnum(cs) && c in cs && d in cs && c != d
    requires FixedNamesDiffer(key, cs) && !LandsOn(key, cs, c, d) && !LandsOn(key, cs, d, c)
    ensures key(FinalName(key, cs, c)) != key(FinalName(key, cs, d))
  {
    if Replaced(key, cs, c) && Replaced(key, cs, d) {
      FallingNamesDiffer(key, cs, c, d);
    } else if !Replaced(key, cs, c) && !Replaced(key, cs, d) {
      StayingNamesDiffer(key, cs, c, d);
    }
  }

  lemma NamesDifferThenFree(key: string -> string, cs: set<Candidate>)
    requires AllNamesDiffer(key, cs)
    ensures FixedNamesDiffer(key, cs) && FallbacksAreFree(key, cs)
  {
    forall c, d | c in cs && d in cs && c != d && c.fixed && d.fixed
      ensures key(c.name) != key(d.name)
    {
      assert FinalName(key, cs, c) == c.name && FinalName(key, cs, d) == d.name;
    }
    forall c, d | c in cs && d in cs && c != d
      ensures !LandsOn(key, cs, c, d)
    {
      if LandsOn(key, cs, c, d) {
        LandingClashes(key, cs, c, d);
      }
    }
  }

  lemma NamesDifferIfFree(key: string -> string, cs: set<Candidate>)
    requires KeepsSuffix(key) && DistinctAlnum(cs)
    ensures AllNamesDiffer(key, cs) <==> FixedNamesDiffer(key, cs) && FallbacksAreFree(key, cs)
  {
    if FixedNamesDiffer(key, cs) && FallbacksAreFree(key, cs) {
      forall c, d | c in cs && d in cs && c != d
        ensures key(FinalName(key, cs, c)) != key(FinalName(key, cs, d))
      {
        FreeNamesDiffer(key, cs, c, d);
      }
    }
    if AllNamesDiffer(key, cs) {
      NamesDifferThenFree(key, cs);
    }
  }

  // ----- the condition on the devices themselves ---------------------------------------------------

  /** The device keeps its name: a Home name, a rename, or one that no other device has. */
  ghost predicate KeepsName(key: string -> string, cs: set<Candidate>, c: Candidate) {
    c.fixed || Alone(key, cs, c)
  }

  /** Its name collides, and its model tells it apart from its rivals. */
  ghost predicate ByModel(key: string -> string, cs: set<Candidate>, c: Candidate) {
    !KeepsName(key, cs, c) && ModelUnique(key, Rivals(key, cs, c), c)
  }

  ghost predicate ById(key: string -> string, cs: set<Candidate>, c: Candidate) {
    !KeepsName(key, cs, c) && !ModelUnique(key, Rivals(key, cs, c), c)
  }

  /** Without an id suffix the device is called `k`: by its own name, or that with its model. */
  ghost predicate Shows(key: string -> string, cs: set<Candidate>, c: Candidate, k: string) {
    || (KeepsName(key, cs, c) && key(c.name) == k)
    || (ByModel(key, cs, c) && key(Suffixed(c.name, c.model)) == k)
  }

  /** The name with the shortest id prefix that tells the device from its rivals. */
  ghost function RivalName(key: string -> string, cs: set<Candidate>, c: Candidate): string {
    Suffixed(c.name, SuffixOf(c.id, Ids(Rivals(key, cs, c))))
  }

  /** The suffixed name of a colliding device is also what another device is called. */
  ghost predicate Taken(key: string -> string, cs: set<Candidate>, c: Candidate) {
    exists d :: d in cs && d != c && TakenBy(key, cs, c, d)
  }

  ghost predicate TakenBy(key: string -> string, cs: set<Candidate>, c: Candidate, d: Candidate) {
    || (ById(key, cs, c) && Shows(key, cs, d, key(RivalName(key, cs, c))))
    || (ByModel(key, cs, c) && Shows(key, cs, d, key(Suffixed(c.name, c.model))))
    || (ByModel(key, cs, c) && ById(key, cs, d) && key(RivalName(key, cs, d)) == key(Suffixed(c.name, c.model)))
  }

  /** Id-suffixed names never clash with one another, nor with a fallback of another device. */
  lemma RivalNamesDiffer(key: string -> string, cs: set<Candidate>, c: Candidate, d: Candidate)
    requires KeepsSuffix(key) && DistinctAlnum(cs) && c in cs && d in cs && c != d && !c.fixed && !d.fixed
    ensures IdNamesApart(key, cs, c, d)
  {
    var mine, rivals := Rivals(key, cs, c), Rivals(key, cs, d);
    if SameSuffixed(key, c.name, SuffixOf(c.id, Ids(mine)), d.name, SuffixOf(d.id, Ids(rivals))) {
      assert c in rivals && d in rivals && mine == rivals;
      SuffixesDiffer(c.id, d.id, Ids(rivals));
      assert false;
    }
    if SameSuffixed(key, c.name, SuffixOf(c.id, Ids(cs)), d.name, SuffixOf(d.id, Ids(rivals))) {
      assert c in rivals && d in rivals;
      FallbackIsNoRival(c.id, d.id, Ids(cs), Ids(rivals));
      assert false;
    }
  }

  lemma FallbackIsNoRival(c: Id, d: Id, ids: set<Id>, rivals: set<Id>)
    requires c in ids && d in ids && c in rivals && d in rivals && IdChars(c) != IdChars(d)
    ensures SuffixOf(c, ids) != SuffixOf(d, rivals)
  {
    var s := SuffixOf(c, ids);
    assert s <= IdChars(d) ==> Clash(c, ids, s);
    assert SuffixOf(d, rivals) <= IdChars(c) ==> Clash(d, rivals, SuffixOf(d, rivals));
  }

  ghost predicate IdNamesDiffer(key: string -> string, cs: set<Candidate>) {
    forall c, d :: c in cs && d in cs && c != d && !c.fixed && !d.fixed ==> IdNamesApart(key, cs, c, d)
  }

  ghost predicate IdNamesApart(key: string -> string, cs: set<Candidate>, c: Candidate, d: Candidate) {
    && key(RivalName(key, cs, c)) != key(RivalName(key, cs, d))
    && key(Fallback(cs, c)) != key(RivalName(key, cs, d))
  }

  lemma AllIdNamesDiffer(key: string -> string, cs: set<Candidate>)
    requires KeepsSuffix(key) && DistinctAlnum(cs)
    ensures IdNamesDiffer(key, cs)
  {
    forall c, d | c in cs && d in cs && c != d && !c.fixed && !d.fixed
      ensures IdNamesApart(key, cs, c, d)
    {
      RivalNamesDiffer(key, cs, c, d);
    }
  }

  lemma FirstNameIs(key: string -> string, cs: set<Candidate>, c: Candidate)
    ensures FirstName(key, cs, c)
            == if KeepsName(key, cs, c) then c.name
               else if ByModel(key, cs, c) then Suffixed(c.name, c.model)
               else RivalName(key, cs, c)
  {
  }

  lemma TakenIffSame(key: string -> string, cs: set<Candidate>, c: Candidate, d: Candidate)
    requires IdNamesDiffer(key, cs) && c in cs && d in cs && c != d && !KeepsName(key, cs, c)
    ensures key(FirstName(key, cs, d)) == key(FirstName(key, cs, c)) <==> TakenBy(key, cs, c, d)
  {
    FirstNameIs(key, cs, c);
    FirstNameIs(key, cs, d);
  }

  /** Which devices fall back to the id suffix among all devices. */
  lemma ReplacedIffTaken(key: string -> string, cs: set<Candidate>, c: Candidate)
    requires IdNamesDiffer(key, cs) && c in cs
    ensures Replaced(key, cs, c) <==> !KeepsName(key, cs, c) && Taken(key, cs, c)
  {
    if !KeepsName(key, cs, c) {
      forall d | d in cs && d != c
        ensures key(FirstName(key, cs, d)) == key(FirstName(key, cs, c)) <==> TakenBy(key, cs, c, d)
      {
        TakenIffSame(key, cs, c, d);
      }
      FirstNameIs(key, cs, c);
    }
  }

  /** Device `c` falls back to a name by which `d` is called, and `d` does not fall back itself. */
  ghost predicate FallsOnto(key: string -> string, cs: set<Candidate>, c: Candidate, d: Candidate) {
    && !KeepsName(key, cs, c) && Taken(key, cs, c)
    && Shows(key, cs, d, key(Fallback(cs, c))) && !(ByModel(key, cs, d) && Taken(key, cs, d))
  }

  lemma FallsOntoIff(key: string -> string, cs: set<Candidate>, c: Candidate, d: Candidate)
    requires Replaced(key, cs, c) <==> !KeepsName(key, cs, c) && Taken(key, cs, c)
    requires Replaced(key, cs, d) <==> !KeepsName(key, cs, d) && Taken(key, cs, d)
    requires !c.fixed && !d.fixed ==> key(Fallback(cs, c)) != key(RivalName(key, cs, d))
    ensures FallsOnto(key, cs, c, d) <==> LandsOn(key, cs, c, d)
  {
    FirstNameIs(key, cs, d);
  }

  ghost predicate NoneFallsOnto(key: string -> string, cs: set<Candidate>) {
    forall c, d :: c in cs && d in cs && c != d ==> !FallsOnto(key, cs, c, d)
  }

  lemma FreeIffNoneFallsOnto(key: string -> string, cs: set<Candidate>)
    requires IdNamesDiffer(key, cs)
    ensures FallbacksAreFree(key, cs) <==> NoneFallsOnto(key, cs)
  {
    forall c, d | c in cs && d in cs && c != d
      ensures FallsOnto(key, cs, c, d) <==> LandsOn(key, cs, c, d)
    {
      ReplacedIffTaken(key, cs, c);
      ReplacedIffTaken(key, cs, d);
      assert !c.fixed && !d.fixed ==> IdNamesApart(key, cs, c, d);
      FallsOntoIff(key, cs, c, d);
    }
  }

  /**
   Exactly when all advertised names differ: the Home names and renames do, and no device falls back
   to a name by which another device is called. The program does not check the second.
   */
  lemma NamesDifferIff(key: string -> string, cs: set<Candidate>)
    requires KeepsSuffix(key) && DistinctIds(cs) && DistinctAlnum(cs)
    ensures AllNamesDiffer(key, cs) <==> FixedNamesDiffer(key, cs) && NoneFallsOnto(key, cs)
  {
    NamesDifferIfFree(key, cs);
    AllIdNamesDiffer(key, cs);
    FreeIffNoneFallsOnto(key, cs);
  }

  /** No device is called like a colliding auto-named one with its fallback suffix. */
  ghost predicate NoNameLooksGenerated(key: string -> string, cs: set<Candidate>) {
    forall c, d :: c in cs && d in cs && c != d && !KeepsName(key, cs, c) ==> !Shows(key, cs, d, key(Fallback(cs, c)))
  }

  /** Then only Home names and renames can be advertised twice. */
  lemma OrdinaryNamesDifferIff(key: string -> string, cs: set<Candidate>)
    requires KeepsSuffix(key) && DistinctIds(cs) && DistinctAlnum(cs) && NoNameLooksGenerated(key, cs)
    ensures AllNamesDiffer(key, cs) <==> FixedNamesDiffer(key, cs)
  {
    NamesDifferIff(key, cs);
    NoneFallsOntoThen(key, cs);
  }

  lemma NoneFallsOntoThen(key: string -> string, cs: set<Candidate>)
    requires NoNameLooksGenerated(key, cs)
    ensures NoneFallsOnto(key, cs)
  {
  }

  lemma {:induction false} AlnumStays(id: Id)
    requires IsIdSuffix(id)
    ensures IdChars(id) == id
  {
    if id != "" {
      var c := id[|id| - 1];
      assert IsIdChar(c) && LowerAlnum(c) == Some(c);
      AlnumStays(id[..|id| - 1]);
      assert id == id[..|id| - 1] + [c];
    }
  }

  lemma {:induction false} IdCharsOfBoth(a: Id, b: Id)
    ensures IdChars(a + b) == IdChars(a) + IdChars(b)
    decreases |b|
  {
    if b == "" {
      assert a + b == a;
    } else {
      assert (a + b)[..|a + b| - 1] == a + b[..|b| - 1];
      IdCharsOfBoth(a, b[..|b| - 1]);
    }
  }

  /** What is no ASCII letter or digit does not count, such as the dashes of a UUID, nor does case. */
  lemma DashesAndCaseDoNotCount(a: Id, c: char, b: Id)
    ensures !('a' <= c <= 'z') && !('A' <= c <= 'Z') && !('0' <= c <= '9') ==> IdChars(a + [c] + b) == IdChars(a + b)
    ensures 'A' <= c <= 'Z' ==> IdChars(a + [c] + b) == IdChars(a + [(c as int - 'A' as int + 'a' as int) as char] + b)
  {
    IdCharsOfBoth(a, b);
    OneIdChar(a, c, b);
    if 'A' <= c <= 'Z' {
      OneIdChar(a, (c as int - 'A' as int + 'a' as int) as char, b);
    }
  }

  lemma OneIdChar(a: Id, c: char, b: Id)
    ensures IdChars(a + [c] + b) == IdChars(a) + (if LowerAlnum(c).Some? then [LowerAlnum(c).value] else []) + IdChars(b)
  {
    IdCharsOfBoth(a + [c], b);
    assert (a + [c])[..|a|] == a;
  }

  /** Four characters do when no other id starts with them. */
  lemma FourCharacters(id: Id, ids: set<Id>)
    requires |id| >= 4 && IsIdSuffix(id) && forall o :: o in ids ==> IsIdSuffix(o)
    requires forall o :: o in ids && o != id ==> !(id[..4] <= o)
    ensures SuffixOf(id, ids) == id[..4]
  {
    AlnumStays(id);
    forall o | o in ids {
      AlnumStays(o);
    }
  }

  /**
   A Home name that looks like a generated one is advertised twice: `a` and `b` share a name, and the
   Home name of a third device is that name with `a`'s id suffix.
   */
  lemma HomeNameCanClash(a: Candidate, b: Candidate, home: Candidate)
    requires !a.fixed && !b.fixed && home.fixed && Lowered(a.name) == Lowered(b.name) && a.model == ""
    requires |a.id| >= 4 && IsIdSuffix(a.id) && IsIdSuffix(b.id) && IsIdSuffix(home.id) && b.id != home.id
    requires !(a.id[..4] <= b.id) && !(a.id[..4] <= home.id)
    requires home.name == Suffixed(a.name, a.id[..4])
    ensures DistinctIds({a, b, home}) && DistinctAlnum({a, b, home}) && FixedNamesDiffer(Lowered, {a, b, home})
    ensures !AllNamesDiffer(Lowered, {a, b, home})
  {
    FallbackSuffix(a.id, b.id, home.id);
    assert a != b;
    ClashOfFallback(Lowered, a, b, home);
    OrdinaryDevices(a, b, home);
  }

  lemma OrdinaryDevices(a: Candidate, b: Candidate, home: Candidate)
    requires IsIdSuffix(a.id) && IsIdSuffix(b.id) && IsIdSuffix(home.id)
    requires a.id != b.id && b.id != home.id && home.id != a.id
    requires !a.fixed && !b.fixed
    ensures DistinctIds({a, b, home}) && DistinctAlnum({a, b, home}) && FixedNamesDiffer(Lowered, {a, b, home})
  {
    ThreeIds(a, b, home);
    AlnumIdsAreDistinct({a, b, home});
    OneFixedName(Lowered, {a, b, home}, home);
  }

  lemma ThreeIds(a: Candidate, b: Candidate, c: Candidate)
    requires a.id != b.id && b.id != c.id && c.id != a.id
    ensures DistinctIds({a, b, c})
  {
  }

  lemma OneFixedName(key: string -> string, cs: set<Candidate>, home: Candidate)
    requires forall c :: c in cs && c.fixed ==> c == home
    ensures FixedNamesDiffer(key, cs)
  {
  }

  lemma AlnumIdsAreDistinct(cs: set<Candidate>)
    requires DistinctIds(cs) && forall c :: c in cs ==> IsIdSuffix(c.id)
    ensures DistinctAlnum(cs)
  {
    forall c, d | c in cs && d in cs && c != d
      ensures IdChars(c.id) != IdChars(d.id)
    {
      AlnumStays(c.id);
      AlnumStays(d.id);
    }
  }

  lemma FallbackSuffix(a: Id, b: Id, home: Id)
    requires |a| >= 4 && IsIdSuffix(a) && IsIdSuffix(b) && IsIdSuffix(home)
    requires !(a[..4] <= b) && !(a[..4] <= home)
    ensures SuffixOf(a, {a, b}) == a[..4] == SuffixOf(a, {a, b, home})
  {
    FourCharacters(a, {a, b});
    FourCharacters(a, {a, b, home});
  }

  /** Three devices as in HomeNameCanClash. */
  lemma ClashingDevices() returns (a: Candidate, b: Candidate, home: Candidate)
    ensures !AllNamesDiffer(Lowered, {a, b, home})
    ensures a == Candidate("abcd1", "", false, "Den") && b == Candidate("efgh1", "", false, "Den")
    ensures home == Candidate("zzzz1", "", true, "Den (abcd)")
  {
    a, b, home := Candidate("abcd1", "", false, "Den"), Candidate("efgh1", "", false, "Den"),
                  Candidate("zzzz1", "", true, "Den (abcd)");
    var ida, idb, idh := a.id, b.id, home.id;
    assert ida[0] == 'a' && idb[0] == 'e' && idh[0] == 'z' && ida[..4] == "abcd";
    HomeNameCanClash(a, b, home);
  }

  lemma ClashOfFallback(key: string -> string, a: Candidate, b: Candidate, home: Candidate)
    requires !a.fixed && !b.fixed && home.fixed && key(a.name) == key(b.name) && a != b
    requires a.model == "" && SuffixOf(a.id, {a.id, b.id}) == SuffixOf(a.id, {a.id, b.id, home.id})
    requires home.name == Suffixed(a.name, SuffixOf(a.id, {a.id, b.id}))
    ensures !AllNamesDiffer(key, {a, b, home})
  {
    var cs := {a, b, home};
    assert b in cs && !Alone(key, cs, a);
    assert Rivals(key, cs, a) == {a, b};
    assert Ids({a, b}) == {a.id, b.id} && Ids(cs) == {a.id, b.id, home.id};
    assert FirstName(key, cs, a) == home.name == FinalName(key, cs, home);
    assert FinalName(key, cs, a) == home.name;
  }
}
