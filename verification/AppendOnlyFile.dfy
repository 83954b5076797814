// go/cmd/gcsobjtable/main.go, WriteObjectLocationsToAOF: the text form of the
// location map.
module AppendOnlyFile {
  import opened Types
  import opened Collections

  function Digit(d: nat): char
    requires d < 10
  {
    '0' + d as char
  }

  // strconv.FormatUint(n, 10)
  function FormatUint(n: nat): string
    decreases n
  {
    if n < 10 then [Digit(n)] else FormatUint(n / 10) + [Digit(n % 10)]
  }

  function ParseUint(s: string): int {
    if s == [] then 0 else ParseUint(s[..|s| - 1]) * 10 + (s[|s| - 1] as int - '0' as int)
  }

  predicate IsNumeral(s: string) {
    s != [] && forall i :: 0 <= i < |s| ==> '0' <= s[i] <= '9'
  }

  lemma {:induction false} FormatThenParse(n: nat)
    ensures IsNumeral(FormatUint(n)) && ParseUint(FormatUint(n)) == n
  {
    if n >= 10 {
      FormatThenParse(n / 10);
      assert FormatUint(n)[..|FormatUint(n)| - 1] == FormatUint(n / 10);
    } else {
      assert FormatUint(n)[..0] == [];
    }
  }

  // No numeral starts with a zero but that of zero.
  lemma {:induction false} NoLeadingZero(n: nat)
    requires n > 0
    ensures FormatUint(n) != [] && FormatUint(n)[0] != '0'
  {
    if n >= 10 {
      NoLeadingZero(n / 10);
    }
  }

  function ValuesStr(values: seq<NodeId>): string {
    if values == [] then ""
    else if |values| == 1 then FormatUint(values[0])
    else ValuesStr(values[..|values| - 1]) + "," + FormatUint(values[|values| - 1])
  }

  // Lists are joined by commas: nothing else comes between two values, before the
  // first or after the last.
  lemma {:induction false} ValuesAreJoined(v: seq<NodeId>, w: seq<NodeId>)
    requires v != [] && w != []
    ensures ValuesStr(v + w) == ValuesStr(v) + "," + ValuesStr(w)
    ensures ValuesStr([v[0]]) == FormatUint(v[0]) && ValuesStr([]) == ""
  {
    var all := v + w;
    assert all[..|all| - 1] == v + w[..|w| - 1];
    if |w| == 1 {
      assert w[..0] == [] && v + [] == v;
    } else {
      ValuesAreJoined(v, w[..|w| - 1]);
    }
  }

  function Line(key: Uid, values: seq<NodeId>): string {
    FormatUint(key) + ": [" + ValuesStr(values) + "]\n"
  }

  function Text(m: map<Uid, seq<NodeId>>, order: seq<Uid>): string
    requires forall i :: 0 <= i < |order| ==> order[i] in m
  {
    if order == [] then "" else Line(order[0], m[order[0]]) + Text(m, order[1..])
  }

  // What a line looks like.
  lemma LineLooksLike()
    ensures Line(12, [3, 40]) == "12: [3,40]\n" && Line(7, []) == "7: []\n"
  {
    assert FormatUint(12) == FormatUint(1) + "2" && FormatUint(40) == FormatUint(4) + "0";
    assert FormatUint(1) == "1" && FormatUint(4) == "4" && FormatUint(3) == "3";
    ValuesAreJoined([3], [40]);
    ValuesAreJoined([40], [40]);
    assert [3] + [40] == [3, 40];
    assert ValuesStr([3]) == "3" && ValuesStr([40]) == "40";
  }

  // A walk over the keys of a map, each once.
  ghost predicate Walks(m: map<Uid, seq<NodeId>>, order: seq<Uid>) {
    Elements(order) == m.Keys && NoDuplicates(order)
  }

  ghost predicate IsTextInOrder(m: map<Uid, seq<NodeId>>, order: seq<Uid>, text: string) {
    Walks(m, order) && (forall i :: 0 <= i < |order| ==> order[i] in m) && text == Text(m, order)
  }

  // One of the texts that a map can be printed as.
  ghost predicate IsTextOf(m: map<Uid, seq<NodeId>>, text: string) {
    exists order: seq<Uid> :: IsTextInOrder(m, order, text)
  }

  // ---------------------------------------------------------- unique readings

  function FirstIndex(s: string, sep: char): nat {
    if s == [] || s[0] == sep then 0 else 1 + FirstIndex(s[1..], sep)
  }

  function LastIndex(s: string, sep: char): int {
    if s == [] then -1 else if s[|s| - 1] == sep then |s| - 1 else LastIndex(s[..|s| - 1], sep)
  }

  lemma {:induction false} FirstIndexIs(a: string, x: string, sep: char)
    requires sep !in a
    ensures FirstIndex(a + [sep] + x, sep) == |a|
  {
    if a != [] {
      assert (a + [sep] + x)[1..] == a[1..] + [sep] + x;
      FirstIndexIs(a[1..], x, sep);
    }
  }

  lemma {:induction false} LastIndexIs(a: string, x: string, sep: char)
    requires sep !in x
    ensures LastIndex(a + [sep] + x, sep) == |a|
  {
    if x != [] {
      assert (a + [sep] + x)[..|a| + |x|] == a + [sep] + x[..|x| - 1];
      LastIndexIs(a, x[..|x| - 1], sep);
    }
  }

  lemma CutAt(a: string, x: string, b: string, y: string, sep: char)
    requires |a| == |b| && a + [sep] + x == b + [sep] + y
    ensures a == b && x == y
  {
    var s, t := a + [sep] + x, b + [sep] + y;
    assert a == s[..|a|] && b == t[..|b|];
    assert x == s[|a| + 1..] && y == t[|b| + 1..];
  }

  // A text can be cut at the first occurrence of a character in one way only.
  lemma CutAtFirst(a: string, x: string, b: string, y: string, sep: char)
    requires sep !in a && sep !in b && a + [sep] + x == b + [sep] + y
    ensures a == b && x == y
  {
    FirstIndexIs(a, x, sep);
    FirstIndexIs(b, y, sep);
    CutAt(a, x, b, y, sep);
  }

  // And at the last.
  lemma CutAtLast(a: string, x: string, b: string, y: string, sep: char)
    requires sep !in x && sep !in y && a + [sep] + x == b + [sep] + y
    ensures a == b && x == y
  {
    LastIndexIs(a, x, sep);
    LastIndexIs(b, y, sep);
    CutAt(a, x, b, y, sep);
  }

  lemma {:induction false} ValuesAlphabet(values: seq<NodeId>)
    ensures forall i :: 0 <= i < |ValuesStr(values)| ==> '0' <= ValuesStr(values)[i] <= '9' || ValuesStr(values)[i] == ','
    ensures ValuesStr(values) == "" <==> values == []
    ensures |values| == 1 ==> ',' !in ValuesStr(values)
    ensures |values| > 1 ==> ',' in ValuesStr(values)
  {
    if |values| == 1 {
      FormatThenParse(values[0]);
    } else if |values| > 1 {
      var f := values[..|values| - 1];
      ValuesAlphabet(f);
      FormatThenParse(values[|values| - 1]);
      assert ValuesStr(values)[|ValuesStr(f)|] == ',';
    }
  }

  lemma {:induction false} ValuesUnique(v: seq<NodeId>, w: seq<NodeId>)
    requires ValuesStr(v) == ValuesStr(w)
    ensures v == w
  {
    ValuesAlphabet(v);
    ValuesAlphabet(w);
    if |v| == 1 {
      FormatThenParse(v[0]);
      FormatThenParse(w[0]);
    } else if |v| > 1 {
      var fv, fw, lv, lw := v[..|v| - 1], w[..|w| - 1], v[|v| - 1], w[|w| - 1];
      FormatThenParse(lv);
      FormatThenParse(lw);
      CutAtLast(ValuesStr(fv), FormatUint(lv), ValuesStr(fw), FormatUint(lw), ',');
      ValuesUnique(fv, fw);
      assert v == fv + [lv] && w == fw + [lw];
    }
  }

  // One line, without its line break.
  function Body(key: Uid, values: seq<NodeId>): string {
    FormatUint(key) + ": [" + ValuesStr(values) + "]"
  }

  lemma BodyUnique(k: Uid, v: seq<NodeId>, l: Uid, w: seq<NodeId>)
    requires Body(k, v) == Body(l, w)
    ensures k == l && v == w
  {
    FormatThenParse(k);
    FormatThenParse(l);
    var x, y := " [" + ValuesStr(v) + "]", " [" + ValuesStr(w) + "]";
    assert Body(k, v) == FormatUint(k) + [':'] + x && Body(l, w) == FormatUint(l) + [':'] + y;
    CutAtFirst(FormatUint(k), x, FormatUint(l), y, ':');
    assert ValuesStr(v) == x[2..|x| - 1] && ValuesStr(w) == y[2..|y| - 1];
    ValuesUnique(v, w);
  }

  lemma BodyHasNoLineBreak(k: Uid, v: seq<NodeId>)
    ensures '\n' !in Body(k, v) && Line(k, v) == Body(k, v) + ['\n']
  {
    FormatThenParse(k);
    ValuesAlphabet(v);
  }

  // ------------------------------------------------------------------ main results

  lemma {:induction false} SameTextSameWalk(m: map<Uid, seq<NodeId>>, o: seq<Uid>, m': map<Uid, seq<NodeId>>, o': seq<Uid>)
    requires forall i :: 0 <= i < |o| ==> o[i] in m
    requires forall i :: 0 <= i < |o'| ==> o'[i] in m'
    requires Text(m, o) == Text(m', o')
    ensures o == o' && forall i :: 0 <= i < |o| ==> m[o[i]] == m'[o[i]]
  {
    if o != [] && o' != [] {
      BodyHasNoLineBreak(o[0], m[o[0]]);
      BodyHasNoLineBreak(o'[0], m'[o'[0]]);
      CutAtFirst(Body(o[0], m[o[0]]), Text(m, o[1..]), Body(o'[0], m'[o'[0]]), Text(m', o'[1..]), '\n');
      BodyUnique(o[0], m[o[0]], o'[0], m'[o'[0]]);
      SameTextSameWalk(m, o[1..], m', o'[1..]);
      assert o == [o[0]] + o[1..] && o' == [o'[0]] + o'[1..];
    }
  }

  lemma SameTextSameMap(m: map<Uid, seq<NodeId>>, o: seq<Uid>, m': map<Uid, seq<NodeId>>, o': seq<Uid>, text: string)
    requires IsTextInOrder(m, o, text) && IsTextInOrder(m', o', text)
    ensures m == m'
  {
    SameTextSameWalk(m, o, m', o');
    forall u | u in m ensures m[u] == m'[u] {
      assert u in Elements(o);
      var i :| 0 <= i < |o| && o[i] == u;
    }
  }

  // Two maps that can print the same text, walked in whatever orders, are equal.
  lemma TextIsUnambiguous(m: map<Uid, seq<NodeId>>, m': map<Uid, seq<NodeId>>, text: string)
    requires IsTextOf(m, text) && IsTextOf(m', text)
    ensures m == m'
  {
    var o: seq<Uid> :| IsTextInOrder(m, o, text);
    var o': seq<Uid> :| IsTextInOrder(m', o', text);
    SameTextSameMap(m, o, m', o', text);
  }

  function Lines(m: map<Uid, seq<NodeId>>): set<string> {
    set u | u in m :: Line(u, m[u])
  }

  // So are two maps that print the same lines in different orders.
  lemma LinesAreUnambiguous(m: map<Uid, seq<NodeId>>, m': map<Uid, seq<NodeId>>)
    requires Lines(m) == Lines(m')
    ensures m == m'
  {
    LinesWithin(m, m');
    LinesWithin(m', m);
  }

  lemma LinesWithin(m: map<Uid, seq<NodeId>>, m': map<Uid, seq<NodeId>>)
    requires Lines(m) <= Lines(m')
    ensures forall u :: u in m ==> u in m' && m'[u] == m[u]
  {
    forall u | u in m ensures u in m' && m'[u] == m[u] {
      assert Line(u, m[u]) in Lines(m);
      var w :| w in m' && Line(w, m'[w]) == Line(u, m[u]);
      BodyHasNoLineBreak(u, m[u]);
      BodyHasNoLineBreak(w, m'[w]);
      CutAtFirst(Body(u, m[u]), "", Body(w, m'[w]), "", '\n');
      BodyUnique(u, m[u], w, m'[w]);
    }
  }

  // Appends one line per key, in the order in which the map is walked.
  method WriteObjectLocationsToAOF(file: string, objectLocations: map<Uid, seq<NodeId>>) returns (appended: string)
    ensures file <= appended && IsTextOf(objectLocations, appended[|file|..])
  {
    appended := file;
    ghost var order: seq<Uid> := [];
    var todo := objectLocations.Keys;
    while todo != {}
      invariant todo <= objectLocations.Keys
      invariant Elements(order) == objectLocations.Keys - todo && NoDuplicates(order)
      invariant forall i :: 0 <= i < |order| ==> order[i] in objectLocations
      invariant appended == file + Text(objectLocations, order)
    {
      var key :| key in todo;
      var valuesStr := JoinValues(objectLocations[key]);
      TextAppend(objectLocations, order, key);
      WalkOn(order, key);
      var line := FormatUint(key) + ": [" + valuesStr + "]\n";
      assert (file + Text(objectLocations, order)) + line == file + (Text(objectLocations, order) + line);
      appended := appended + line;
      order := order + [key];
      todo := todo - {key};
    }
    assert IsTextInOrder(objectLocations, order, appended[|file|..]);
  }

  // A walk goes on to a key that it has not passed.
  lemma WalkOn(order: seq<Uid>, key: Uid)
    requires NoDuplicates(order) && key !in Elements(order)
    ensures NoDuplicates(order + [key]) && Elements(order + [key]) == Elements(order) + {key}
  {
    NoDuplicatesAppend(order, [key]);
  }

  method JoinValues(values: seq<NodeId>) returns (valuesStr: string)
    ensures valuesStr == ValuesStr(values)
  {
    valuesStr := "";
    for i := 0 to |values|
      invariant valuesStr == ValuesStr(values[..i])
    {
      assert values[..i + 1][..i] == values[..i];
      if i > 0 {
        valuesStr := valuesStr + ",";
      }
      valuesStr := valuesStr + FormatUint(values[i]);
    }
    assert values[..|values|] == values;
  }

  lemma {:induction false} TextAppend(m: map<Uid, seq<NodeId>>, o: seq<Uid>, u: Uid)
    requires u in m && forall i :: 0 <= i < |o| ==> o[i] in m
    ensures forall i :: 0 <= i < |o + [u]| ==> (o + [u])[i] in m
    ensures Text(m, o + [u]) == Text(m, o) + Line(u, m[u])
  {
    if o == [] {
      assert (o + [u])[1..] == [];
    } else {
      TextAppend(m, o[1..], u);
      assert (o + [u])[1..] == o[1..] + [u];
    }
  }
}
