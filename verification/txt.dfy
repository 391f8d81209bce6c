/**
 DNS-SD TXT blobs as `key=value` parts (section 6.3 of RFC 6763): split at unescaped whitespace, values
 unescaped. `space` says which characters are whitespace.
 */
module TxtBlob {

  /** A blank is whitespace; the backslash and the equals sign are not. */
  ghost predicate Whitespace(space: char -> bool) {
    space(' ') && !space('\\') && !space('=')
  }

  // ----- split, unescape, parse ------------------------------------------------------------------

  function Flush(cur: string): seq<string> {
    if cur == "" then [] else [cur]
  }

  /** The parts of `s` when `cur` of the next one was read already. */
  function SplitFrom(space: char -> bool, cur: string, s: string): seq<string>
    decreases |s|
  {
    if s == "" then Flush(cur)
    else if s == "\\" then Flush(cur + "\\")
    else if s[0] == '\\' then SplitFrom(space, cur + s[..2], s[2..])
    else if space(s[0]) then Flush(cur) + SplitFrom(space, "", s[1..])
    else SplitFrom(space, cur + s[..1], s[1..])
  }

  lemma Regroup(a: string, b: string, c: string)
    ensures a + b + c == a + (b + c)
  {
  }

  method SplitTxtParts(space: char -> bool, s: string) returns (parts: seq<string>)
    ensures parts == SplitFrom(space, "", s)
  {
    parts := [];
    var cur, rest := "", s;
    while rest != ""
      invariant parts + SplitFrom(space, cur, rest) == SplitFrom(space, "", s)
      decreases |rest|
    {
      var c, left := rest[0], rest[1..];
      if c == '\\' {
        if left != "" {
          assert cur + "\\" + [left[0]] == cur + rest[..2];
          cur := cur + "\\";
          cur := cur + [left[0]];
          left := left[1..];
        } else {
          assert rest == "\\";
          cur := cur + "\\";
        }
      } else if space(c) {
        assert parts + (Flush(cur) + SplitFrom(space, "", left)) == parts + Flush(cur) + SplitFrom(space, "", left);
        if cur != "" {
          parts := parts + [cur];
          cur := "";
        }
      } else {
        assert rest[..1] == [c];
        cur := cur + [c];
      }
      rest := left;
    }
    if cur != "" {
      parts := parts + [cur];
    }
  }

  function Unescaped(s: string): string {
    if s == "" || s == "\\" then ""
    else if s[0] == '\\' then [s[1]] + Unescaped(s[2..])
    else [s[0]] + Unescaped(s[1..])
  }

  method UnescapeDnsSd(s: string) returns (out: string)
    ensures out == Unescaped(s)
  {
    out := "";
    var rest := s;
    while rest != ""
      invariant out + Unescaped(rest) == Unescaped(s)
      decreases |rest|
    {
      ghost var before := rest;
      var c := rest[0];
      rest := rest[1..];
      if c == '\\' {
        if rest != "" {
          Regroup(out, [rest[0]], Unescaped(before[2..]));
          out := out + [rest[0]];
          rest := rest[1..];
        } else {
          assert before == "\\";
        }
      } else {
        Regroup(out, [c], Unescaped(before[1..]));
        out := out + [c];
      }
    }
  }

  /** Position of the first equals sign, or the length. */
  function FirstEquals(s: string): (n: nat)
    ensures n <= |s|
    ensures n < |s| ==> s[n] == '='
    ensures forall i :: 0 <= i < n ==> s[i] != '='
  {
    if s == "" || s[0] == '=' then 0 else 1 + FirstEquals(s[1..])
  }

  /** A part without an equals sign says nothing; of parts with the same key the last one counts. */
  function Inserted(m: map<string, string>, part: string): map<string, string> {
    var n := FirstEquals(part);
    if n == |part| then m else m[part[..n] := Unescaped(part[n + 1..])]
  }

  function Collected(parts: seq<string>): map<string, string> {
    if parts == [] then map[] else Inserted(Collected(parts[..|parts| - 1]), parts[|parts| - 1])
  }

  method ParseTxtBlob(space: char -> bool, txt: string) returns (attributes: map<string, string>)
    ensures attributes == Collected(SplitFrom(space, "", txt))
  {
    attributes := map[];
    var parts := SplitTxtParts(space, txt);
    for i := 0 to |parts|
      invariant attributes == Collected(parts[..i])
    {
      assert parts[..i + 1][..i] == parts[..i];
      var n := FirstEquals(parts[i]);
      if n < |parts[i]| {
        var value := UnescapeDnsSd(parts[i][n + 1..]);
        attributes := attributes[parts[i][..n] := value];
      }
    }
    assert parts[..|parts|] == parts;
  }

  // ----- what is kept of any blob ---------------------------------------------------------------

  /** The blob without its unescaped whitespace. */
  function Kept(space: char -> bool, s: string): string {
    if s == "" then ""
    else if s[0] == '\\' && |s| > 1 then s[..2] + Kept(space, s[2..])
    else (if space(s[0]) && s[0] != '\\' then "" else s[..1]) + Kept(space, s[1..])
  }

  function Concat(parts: seq<string>): string {
    if parts == [] then "" else parts[0] + Concat(parts[1..])
  }

  lemma ConcatFlush(cur: string, parts: seq<string>)
    ensures Concat(Flush(cur) + parts) == cur + Concat(parts)
  {
    if cur != "" {
      assert (Flush(cur) + parts)[1..] == parts;
    } else {
      assert Flush(cur) + parts == parts && cur + Concat(parts) == Concat(parts);
    }
  }

  lemma {:induction false} NoPartIsEmpty(space: char -> bool, cur: string, s: string)
    ensures "" !in SplitFrom(space, cur, s)
    decreases |s|
  {
    if s != "" && s != "\\" {
      if s[0] == '\\' {
        NoPartIsEmpty(space, cur + s[..2], s[2..]);
      } else {
        NoPartIsEmpty(space, if space(s[0]) then "" else cur + s[..1], s[1..]);
      }
    }
  }

  /** Splitting loses nothing of any blob but the whitespace between the parts. */
  lemma {:induction false} SplitKeepsEverything(space: char -> bool, cur: string, s: string)
    ensures Concat(SplitFrom(space, cur, s)) == cur + Kept(space, s)
    decreases |s|
  {
    if s == "" || s == "\\" {
      SplitOfEnd(space, cur, s);
    } else {
      var n := if s[0] == '\\' then 2 else 1;
      if s[0] != '\\' && space(s[0]) {
        SplitKeepsEverything(space, "", s[1..]);
        ConcatFlush(cur, SplitFrom(space, "", s[1..]));
        NothingBefore(Kept(space, s[1..]));
      } else {
        SplitKeepsEverything(space, cur + s[..n], s[n..]);
        Regroup(cur, s[..n], Kept(space, s[n..]));
      }
    }
  }

  lemma NothingBefore(a: string)
    ensures "" + a == a
  {
  }

  lemma SplitOfEnd(space: char -> bool, cur: string, s: string)
    requires s == "" || s == "\\"
    ensures Concat(SplitFrom(space, cur, s)) == cur + Kept(space, s)
  {
    ConcatFlush(cur + s, []);
    assert SplitFrom(space, cur, s) == Flush(cur + s) + [] by {
      assert cur + "" == cur;
    }
    assert s != "" ==> s[..1] == s && s[1..] == "";
  }

  /** The part tells the value of `key`: all before its first equals sign is the key. */
  ghost predicate Tells(part: string, key: string) {
    |key| < |part| && part[..|key|] == key && part[|key|] == '=' && '=' !in key
  }

  lemma TellsIff(part: string, key: string)
    ensures Tells(part, key) <==> FirstEquals(part) < |part| && part[..FirstEquals(part)] == key
  {
    var n := FirstEquals(part);
    if Tells(part, key) {
      assert forall i :: 0 <= i < |key| ==> part[i] == key[i] && key[i] in key;
      assert n == |key|;
    }
  }

  /** A key is found exactly when some part tells it, and its value is that of the last such part. */
  lemma {:induction false} CollectedIff(parts: seq<string>, key: string)
    ensures key in Collected(parts) <==> exists i :: 0 <= i < |parts| && Tells(parts[i], key)
    ensures forall i :: 0 <= i < |parts| && Tells(parts[i], key)
                        && (forall k :: i < k < |parts| ==> !Tells(parts[k], key)) ==>
              key in Collected(parts) && Collected(parts)[key] == Unescaped(parts[i][|key| + 1..])
  {
    if parts != [] {
      var init, last := parts[..|parts| - 1], parts[|parts| - 1];
      CollectedIff(init, key);
      TellsIff(last, key);
      assert forall i :: 0 <= i < |init| ==> init[i] == parts[i];
      if !Tells(last, key) {
        assert key in Collected(parts) <==> key in Collected(init);
      }
    }
  }

  lemma UnescapedChar(c: char, rest: string)
    ensures Unescaped(['\\', c] + rest) == [c] + Unescaped(rest)
    ensures c != '\\' ==> Unescaped([c] + rest) == [c] + Unescaped(rest)
  {
    assert (['\\', c] + rest)[2..] == rest && ([c] + rest)[1..] == rest;
  }

  /** Unescaping reads the first escaped character as one. */
  lemma UnescapeReadsOne(space: char -> bool, v: string, rest: string)
    requires v != ""
    ensures Unescaped(Escaped(space, v) + rest) == [v[0]] + Unescaped(Escaped(space, v[1..]) + rest)
  {
    var head := if v[0] == '\\' || space(v[0]) then ['\\', v[0]] else [v[0]];
    Regroup(head, Escaped(space, v[1..]), rest);
    UnescapedChar(v[0], Escaped(space, v[1..]) + rest);
  }

  /** A backslash that nothing follows is dropped from a value. */
  lemma {:induction false} LoneBackslashIsDropped(space: char -> bool, v: string)
    ensures Unescaped(Escaped(space, v) + "\\") == v
  {
    if v == "" {
      assert Escaped(space, v) + "\\" == "\\";
    } else {
      LoneBackslashIsDropped(space, v[1..]);
      UnescapeReadsOne(space, v, "\\");
      assert [v[0]] + v[1..] == v;
    }
  }

  // ----- round trip -----------------------------------------------------------------------------

  function Escaped(space: char -> bool, v: string): string {
    if v == "" then ""
    else (if v[0] == '\\' || space(v[0]) then ['\\', v[0]] else [v[0]]) + Escaped(space, v[1..])
  }

  datatype Attribute = Attribute(key: string, value: string)

  function Part(space: char -> bool, a: Attribute): string {
    a.key + "=" + Escaped(space, a.value)
  }

  function Joined(space: char -> bool, attrs: seq<Attribute>): string {
    if attrs == [] then ""
    else if |attrs| == 1 then Part(space, attrs[0])
    else Part(space, attrs[0]) + " " + Joined(space, attrs[1..])
  }

  ghost predicate Plain(space: char -> bool, key: string) {
    forall i :: 0 <= i < |key| ==> key[i] != '=' && key[i] != '\\' && !space(key[i])
  }

  ghost predicate WellFormed(space: char -> bool, attrs: seq<Attribute>) {
    && (forall i :: 0 <= i < |attrs| ==> Plain(space, attrs[i].key))
    && (forall i, j :: 0 <= i < j < |attrs| ==> attrs[i].key != attrs[j].key)
  }

  lemma {:induction false} UnescapeUndoesEscape(space: char -> bool, v: string)
    ensures Unescaped(Escaped(space, v)) == v
  {
    if v != "" {
      UnescapeUndoesEscape(space, v[1..]);
      UnescapeReadsOne(space, v, "");
      assert Escaped(space, v) + "" == Escaped(space, v) && Escaped(space, v[1..]) + "" == Escaped(space, v[1..]);
      assert [v[0]] + v[1..] == v;
    }
  }

  lemma {:induction false} SplitReadsPlain(space: char -> bool, cur: string, p: string, rest: string)
    requires forall i :: 0 <= i < |p| ==> p[i] != '\\' && !space(p[i])
    ensures SplitFrom(space, cur, p + rest) == SplitFrom(space, cur + p, rest)
    decreases |p|
  {
    if p == "" {
      assert p + rest == rest && cur + p == cur;
    } else {
      SplitReadsPlain(space, cur + p[..1], p[1..], rest);
      assert (p + rest)[1..] == p[1..] + rest && (p + rest)[..1] == p[..1];
      assert cur + p[..1] + p[1..] == cur + p;
    }
  }

  lemma {:induction false} SplitReadsEscaped(space: char -> bool, cur: string, v: string, rest: string)
    ensures SplitFrom(space, cur, Escaped(space, v) + rest) == SplitFrom(space, cur + Escaped(space, v), rest)
    decreases |v|
  {
    var e := Escaped(space, v);
    if v == "" {
      assert e + rest == rest && cur + e == cur;
    } else {
      var n := if v[0] == '\\' || space(v[0]) then 2 else 1;
      var tail := Escaped(space, v[1..]);
      SplitReadsEscaped(space, cur + e[..n], v[1..], rest);
      assert e == e[..n] + tail;
      assert (e + rest)[n..] == tail + rest && (e + rest)[..n] == e[..n];
      assert cur + e[..n] + tail == cur + e;
    }
  }

  lemma SplitReadsPart(space: char -> bool, a: Attribute, rest: string)
    requires Whitespace(space) && Plain(space, a.key)
    ensures SplitFrom(space, "", Part(space, a) + rest) == SplitFrom(space, Part(space, a), rest)
  {
    var head := a.key + "=";
    var e := Escaped(space, a.value);
    assert Part(space, a) + rest == head + (e + rest) && "" + head == head;
    SplitReadsPlain(space, "", head, e + rest);
    SplitReadsEscaped(space, head, a.value, rest);
  }

  function Parts(space: char -> bool, attrs: seq<Attribute>): seq<string> {
    seq(|attrs|, i requires 0 <= i < |attrs| => Part(space, attrs[i]))
  }

  lemma {:induction false} SplitUndoesJoin(space: char -> bool, attrs: seq<Attribute>)
    requires Whitespace(space) && WellFormed(space, attrs)
    ensures SplitFrom(space, "", Joined(space, attrs)) == Parts(space, attrs)
  {
    if |attrs| == 1 {
      assert Joined(space, attrs) == Part(space, attrs[0]) + "";
      SplitReadsPart(space, attrs[0], "");
    } else if |attrs| > 1 {
      var rest := " " + Joined(space, attrs[1..]);
      assert Joined(space, attrs) == Part(space, attrs[0]) + rest;
      SplitReadsPart(space, attrs[0], rest);
      assert rest[1..] == Joined(space, attrs[1..]);
      SplitUndoesJoin(space, attrs[1..]);
      assert Parts(space, attrs) == [Part(space, attrs[0])] + Parts(space, attrs[1..]);
    }
  }

  lemma PartIsInserted(space: char -> bool, a: Attribute, m: map<string, string>)
    requires Plain(space, a.key)
    ensures Inserted(m, Part(space, a)) == m[a.key := a.value]
  {
    var part := Part(space, a);
    assert part[|a.key|] == '=' && forall i :: 0 <= i < |a.key| ==> part[i] == a.key[i];
    assert FirstEquals(part) == |a.key|;
    assert part[..|a.key|] == a.key && part[|a.key| + 1..] == Escaped(space, a.value);
    UnescapeUndoesEscape(space, a.value);
  }

  function AsMap(attrs: seq<Attribute>): map<string, string> {
    if attrs == [] then map[] else AsMap(attrs[..|attrs| - 1])[attrs[|attrs| - 1].key := attrs[|attrs| - 1].value]
  }

  lemma {:induction false} CollectedParts(space: char -> bool, attrs: seq<Attribute>)
    requires WellFormed(space, attrs)
    ensures Collected(Parts(space, attrs)) == AsMap(attrs)
  {
    if attrs != [] {
      var init := attrs[..|attrs| - 1];
      CollectedParts(space, init);
      assert Parts(space, attrs)[..|attrs| - 1] == Parts(space, init);
      PartIsInserted(space, attrs[|attrs| - 1], AsMap(init));
    }
  }

  lemma {:induction false} AsMapHasAll(space: char -> bool, attrs: seq<Attribute>)
    requires WellFormed(space, attrs)
    ensures AsMap(attrs).Keys == set a | a in attrs :: a.key
    ensures forall a :: a in attrs ==> AsMap(attrs)[a.key] == a.value
  {
    if attrs != [] {
      AsMapHasAll(space, attrs[..|attrs| - 1]);
    }
  }

  /**
   Round trip: attributes with distinct plain keys and any values, joined with blanks after escaping
   whitespace and backslashes in the values, are parsed back exactly.
   */
  lemma ParseUndoesJoin(space: char -> bool, attrs: seq<Attribute>)
    requires Whitespace(space) && WellFormed(space, attrs)
    ensures var m := Collected(SplitFrom(space, "", Joined(space, attrs)));
            && m.Keys == (set a | a in attrs :: a.key)
            && forall a :: a in attrs ==> m[a.key] == a.value
  {
    SplitUndoesJoin(space, attrs);
    CollectedParts(space, attrs);
    AsMapHasAll(space, attrs);
  }
}
