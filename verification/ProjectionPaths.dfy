/** Paths into JSON payloads: reading, setting, and when the declared paths of a resource may be set in any order. */
module ProjectionPaths {
  import opened Common

  datatype Value =
    | Null
    | Bool(b: bool)
    | Num(n: int)
    | Str(s: string)
    | Arr(items: seq<Value>)
    | Obj(members: map<string, Value>)

  type Path = seq<string>

  predicate Letter(c: char) {
    'A' <= c <= 'Z' || 'a' <= c <= 'z' || c == '_'
  }

  predicate ValidSegment(s: string) {
    |s| > 0 && Letter(s[0]) && forall i | 0 <= i < |s| :: Letter(s[i]) || '0' <= s[i] <= '9'
  }

  predicate ValidPath(p: Path) {
    |p| > 0 && forall i | 0 <= i < |p| :: ValidSegment(p[i])
  }

  const UPPER: string := "ABCDEFGHIJKLMNOPQRSTUVWXYZ"
  const LOWER: string := "abcdefghijklmnopqrstuvwxyz"
  const DIGITS: string := "0123456789"

  lemma UpperIs(c: char)
    ensures 'A' <= c <= 'Z' <==> c in UPPER
  {
    if 'A' <= c <= 'Z' {
      var i := c as int - 'A' as int;
      assert UPPER[i] as int == 'A' as int + i;
    }
  }

  lemma LowerIs(c: char)
    ensures 'a' <= c <= 'z' <==> c in LOWER
  {
    if 'a' <= c <= 'z' {
      var i := c as int - 'a' as int;
      assert LOWER[i] as int == 'a' as int + i;
    }
  }

  // A character that may start a segment.
  predicate Initial(c: char) {
    c in UPPER || c in LOWER || c == '_'
  }

  lemma DigitIs(c: char)
    ensures '0' <= c <= '9' <==> c in DIGITS
  {
    if '0' <= c <= '9' {
      var i := c as int - '0' as int;
      assert DIGITS[i] as int == '0' as int + i;
    }
  }

  /** A segment is a letter or an underscore, followed by letters, underscores and digits. */
  lemma SegmentIs(s: string)
    ensures ValidSegment(s) <==>
              |s| > 0 && Initial(s[0]) && forall i | 0 <= i < |s| :: Initial(s[i]) || s[i] in DIGITS
  {
    forall i | 0 <= i < |s| ensures (Initial(s[i]) <==> Letter(s[i])) && (s[i] in DIGITS <==> '0' <= s[i] <= '9') {
      UpperIs(s[i]);
      LowerIs(s[i]);
      DigitIs(s[i]);
    }
    hide Initial, Letter;
  }

  /*** Reading and setting ***/

  /** The value a path leads to; none stands for undefined. */
  function GetIn(v: Value, path: Path): Option<Value>
    decreases |path|
  {
    if path == [] then Some(v)
    else if v.Obj? && path[0] in v.members then GetIn(v.members[path[0]], path[1..])
    else None
  }

  // The members below a key that is to hold an object.
  function Child(m: map<string, Value>, key: string): map<string, Value> {
    if key in m && m[key].Obj? then m[key].members else map[]
  }

  /** Sets a path; anything on the way that is not an object is replaced by one. */
  function SetIn(m: map<string, Value>, path: Path, v: Value): map<string, Value>
    requires path != []
    decreases |path|
  {
    if |path| == 1 then m[path[0] := v] else m[path[0] := Obj(SetIn(Child(m, path[0]), path[1..], v))]
  }

  /** Reading with a cursor. */
  method GetProjectionPathValue(payload: Value, path: Path) returns (result: Option<Value>)
    ensures result == GetIn(payload, path)
  {
    var current := payload;
    for i := 0 to |path|
      invariant GetIn(payload, path) == GetIn(current, path[i..])
    {
      if !current.Obj? || path[i] !in current.members {
        return None;
      }
      assert path[i..][0] == path[i] && path[i..][1..] == path[i + 1..];
      current := current.members[path[i]];
    }
    return Some(current);
  }

  /*** Overlap ***/

  function Shorter(p: Path, q: Path): nat {
    if |p| < |q| then |p| else |q|
  }

  predicate PathsOverlap(p: Path, q: Path) {
    forall i | 0 <= i < Shorter(p, q) :: p[i] == q[i]
  }

  lemma OverlapStep(p: Path, q: Path)
    requires p != [] && q != []
    ensures PathsOverlap(p, q) <==> p[0] == q[0] && PathsOverlap(p[1..], q[1..])
  {
    if p[0] == q[0] && PathsOverlap(p[1..], q[1..]) {
      forall i | 0 <= i < Shorter(p, q) ensures p[i] == q[i] {
        if i > 0 {
          assert p[1..][i - 1] == q[1..][i - 1];
        }
      }
    }
    if PathsOverlap(p, q) {
      forall i | 0 <= i < Shorter(p[1..], q[1..]) ensures p[1..][i] == q[1..][i] {
        assert p[i + 1] == q[i + 1];
      }
    }
  }

  lemma {:induction false} ReadBack(m: map<string, Value>, p: Path, v: Value)
    requires p != []
    ensures GetIn(Obj(SetIn(m, p, v)), p) == Some(v)
    decreases |p|
  {
    if |p| > 1 {
      ReadBack(Child(m, p[0]), p[1..], v);
    }
  }

  /** Setting one path leaves every path that does not overlap it alone, also below replaced scalars and arrays. */
  lemma {:induction false} SetFrame(m: map<string, Value>, p: Path, q: Path, v: Value)
    requires p != [] && q != [] && !PathsOverlap(p, q)
    ensures GetIn(Obj(SetIn(m, p, v)), q) == GetIn(Obj(m), q)
    decreases |p|
  {
    OverlapStep(p, q);
    if p[0] == q[0] {
      assert |p| > 1 && |q| > 1;
      SetFrame(Child(m, p[0]), p[1..], q[1..], v);
      assert GetIn(Obj(map[]), q[1..]) == None;
    }
  }

  // What a setting puts under the first key of its path.
  function Slot(child: map<string, Value>, path: Path, v: Value): Value
    requires path != []
  {
    if |path| == 1 then v else Obj(SetIn(child, path[1..], v))
  }

  lemma SetTop(m: map<string, Value>, path: Path, v: Value)
    requires path != []
    ensures SetIn(m, path, v) == m[path[0] := Slot(Child(m, path[0]), path, v)]
  {
  }

  lemma ChildOfSet(m: map<string, Value>, k: string, x: Value, other: string)
    ensures other != k ==> Child(m[k := x], other) == Child(m, other)
    ensures x.Obj? ==> Child(m[k := x], k) == x.members
  {
  }

  lemma PutTwice(m: map<string, Value>, k: string, x: Value, l: string, y: Value)
    ensures k == l ==> m[k := x][l := y] == m[l := y]
    ensures k != l ==> m[k := x][l := y] == m[l := y][k := x]
  {
  }

  // Setting q after p, below the first key of q.
  lemma SetTwice(m: map<string, Value>, p: Path, v: Value, q: Path, w: Value)
    requires p != [] && q != []
    ensures p[0] != q[0] ==>
              SetIn(SetIn(m, p, v), q, w)
              == m[p[0] := Slot(Child(m, p[0]), p, v)][q[0] := Slot(Child(m, q[0]), q, w)]
    ensures p[0] == q[0] && |p| > 1 && |q| > 1 ==>
              SetIn(SetIn(m, p, v), q, w)
              == m[q[0] := Obj(SetIn(SetIn(Child(m, p[0]), p[1..], v), q[1..], w))]
  {
    hide SetIn, Child;
    SetTop(m, p, v);
    SetTop(SetIn(m, p, v), q, w);
    var x := Slot(Child(m, p[0]), p, v);
    ChildOfSet(m, p[0], x, q[0]);
    if p[0] == q[0] {
      PutTwice(m, p[0], x, q[0], Slot(Child(m[p[0] := x], q[0]), q, w));
    }
  }

  lemma {:induction false} SetsCommute(m: map<string, Value>, p: Path, v: Value, q: Path, w: Value)
    requires p != [] && q != [] && !PathsOverlap(p, q)
    ensures SetIn(SetIn(m, p, v), q, w) == SetIn(SetIn(m, q, w), p, v)
    decreases |p|
  {
    hide SetIn, Child, Slot;
    OverlapStep(p, q);
    SetTwice(m, p, v, q, w);
    SetTwice(m, q, w, p, v);
    if p[0] == q[0] {
      assert |p| > 1 && |q| > 1;
      hide PathsOverlap;
      SetsCommute(Child(m, p[0]), p[1..], v, q[1..], w);
    } else {
      PutTwice(m, p[0], Slot(Child(m, p[0]), p, v), q[0], Slot(Child(m, q[0]), q, w));
    }
  }

  lemma {:induction false} ReadOnTheWay(m: map<string, Value>, p: Path, q: Path, w: Value)
    requires p != [] && |p| <= |q| && PathsOverlap(p, q)
    ensures GetIn(Obj(SetIn(m, q, w)), p) == Some(if |p| == |q| then w else Obj(SetIn(
              ChildAt(m, p), q[|p|..], w)))
    decreases |p|
  {
    OverlapStep(p, q);
    if |p| > 1 {
      ReadOnTheWay(Child(m, p[0]), p[1..], q[1..], w);
      assert q[1..][|p[1..]|..] == q[|p|..];
    } else {
      assert p == [p[0]];
      assert q[1..] == q[|p|..];
    }
  }

  // The members of the object at a path, none if there is no object.
  function ChildAt(m: map<string, Value>, p: Path): map<string, Value>
    decreases |p|
  {
    if p == [] then m else ChildAt(Child(m, p[0]), p[1..])
  }

  /** The overlap test is exact: the order of two settings never matters if and only if the paths do not overlap. */
  lemma OverlapIsExact(p: Path, q: Path)
    requires p != [] && q != []
    ensures !PathsOverlap(p, q) <==>
            forall m: map<string, Value>, v: Value, w: Value ::
              SetIn(SetIn(m, p, v), q, w) == SetIn(SetIn(m, q, w), p, v)
  {
    if PathsOverlap(p, q) {
      var m: map<string, Value> := map[];
      if |p| <= |q| {
        Disagree(m, p, q);
      } else {
        assert PathsOverlap(q, p);
        Disagree(m, q, p);
      }
    } else {
      forall m: map<string, Value>, v: Value, w: Value
        ensures SetIn(SetIn(m, p, v), q, w) == SetIn(SetIn(m, q, w), p, v)
      {
        SetsCommute(m, p, v, q, w);
      }
    }
  }

  lemma Disagree(m: map<string, Value>, p: Path, q: Path)
    requires p != [] && |p| <= |q| && PathsOverlap(p, q)
    ensures SetIn(SetIn(m, p, Null), q, Bool(true)) != SetIn(SetIn(m, q, Bool(true)), p, Null)
  {
    ReadBack(SetIn(m, q, Bool(true)), p, Null);
    ReadOnTheWay(SetIn(m, p, Null), p, q, Bool(true));
  }

  /*** Patches ***/

  datatype Change = Change(path: Path, value: Value)

  predicate Paths(changes: seq<Change>) {
    forall i | 0 <= i < |changes| :: changes[i].path != []
  }

  predicate Apart(changes: seq<Change>) {
    Paths(changes)
    && forall i, j | 0 <= i < |changes| && 0 <= j < |changes| && i != j ::
         !PathsOverlap(changes[i].path, changes[j].path)
  }

  /** Applying the changes one after the other. */
  function Fold(m: map<string, Value>, changes: seq<Change>): map<string, Value>
    requires Paths(changes)
  {
    if changes == [] then m
    else SetIn(Fold(m, changes[..|changes| - 1]), changes[|changes| - 1].path, changes[|changes| - 1].value)
  }

  lemma ApartPart(changes: seq<Change>, n: nat)
    requires n <= |changes| && Apart(changes)
    ensures Apart(changes[..n])
  {
  }

  /** A field outside the patch reads back unchanged. */
  lemma {:induction false} PatchFrame(m: map<string, Value>, changes: seq<Change>, q: Path)
    requires Paths(changes) && q != []
    requires forall i | 0 <= i < |changes| :: !PathsOverlap(changes[i].path, q)
    ensures GetIn(Obj(Fold(m, changes)), q) == GetIn(Obj(m), q)
  {
    if changes != [] {
      var n := |changes| - 1;
      PatchFrame(m, changes[..n], q);
      SetFrame(Fold(m, changes[..n]), changes[n].path, q, changes[n].value);
    }
  }

  /** Every patched field reads back its new value. */
  lemma {:induction false} PatchReadsBack(m: map<string, Value>, changes: seq<Change>, i: nat)
    requires Apart(changes) && i < |changes|
    ensures GetIn(Obj(Fold(m, changes)), changes[i].path) == Some(changes[i].value)
  {
    var n := |changes| - 1;
    if i == n {
      ReadBack(Fold(m, changes[..n]), changes[n].path, changes[n].value);
    } else {
      ApartPart(changes, n);
      PatchReadsBack(m, changes[..n], i);
      SetFrame(Fold(m, changes[..n]), changes[n].path, changes[i].path, changes[n].value);
    }
  }

  function Without(changes: seq<Change>, i: nat): seq<Change>
    requires i < |changes|
  {
    changes[..i] + changes[i + 1..]
  }

  lemma ApartWithout(changes: seq<Change>, i: nat)
    requires i < |changes| && Apart(changes)
    ensures Apart(Without(changes, i))
  {
    var rest := Without(changes, i);
    assert forall j | 0 <= j < |rest| :: rest[j] == changes[if j < i then j else j + 1];
  }

  lemma FoldStep(m: map<string, Value>, changes: seq<Change>)
    requires changes != [] && Paths(changes)
    ensures var n := |changes| - 1;
            Fold(m, changes) == SetIn(Fold(m, changes[..n]), changes[n].path, changes[n].value)
  {
    hide SetIn;
  }

  lemma ApartPair(changes: seq<Change>, i: nat, j: nat)
    requires Apart(changes) && i < |changes| && j < |changes| && i != j
    ensures !PathsOverlap(changes[i].path, changes[j].path)
    ensures changes[i].path != [] && changes[j].path != []
  {
    hide PathsOverlap;
  }

  // A change may be moved to the end.
  lemma {:induction false} MoveLast(m: map<string, Value>, changes: seq<Change>, i: nat)
    requires i < |changes| && Apart(changes)
    ensures Apart(Without(changes, i))
    ensures Fold(m, changes) == SetIn(Fold(m, Without(changes, i)), changes[i].path, changes[i].value)
  {
    hide SetIn, PathsOverlap, Fold;
    ApartWithout(changes, i);
    var n := |changes| - 1;
    FoldStep(m, changes);
    if i == n {
      assert Without(changes, i) == changes[..n];
    } else {
      ApartPart(changes, n);
      MoveLast(m, changes[..n], i);
      var rest := Without(changes, i);
      assert rest[..|rest| - 1] == Without(changes[..n], i);
      assert rest[|rest| - 1] == changes[n];
      FoldStep(m, rest);
      ApartPair(changes, i, n);
      SetsCommute(Fold(m, Without(changes[..n], i)), changes[i].path, changes[i].value, changes[n].path,
                  changes[n].value);
    }
  }

  lemma SameWithoutLast(xs: seq<Change>, ys: seq<Change>, i: nat)
    requires xs != [] && multiset(xs) == multiset(ys) && i < |ys| && ys[i] == xs[|xs| - 1]
    ensures multiset(xs[..|xs| - 1]) == multiset(Without(ys, i))
  {
    var n := |xs| - 1;
    WithoutOne(xs, n);
    assert xs[..n] + xs[n + 1..] == xs[..n];
    WithoutOne(ys, i);
  }

  lemma WithoutOne(xs: seq<Change>, i: nat)
    requires i < |xs|
    ensures multiset(Without(xs, i)) == multiset(xs) - multiset{xs[i]}
  {
    assert xs == xs[..i] + [xs[i]] + xs[i + 1..];
    assert multiset(xs) == multiset(xs[..i]) + multiset{xs[i]} + multiset(xs[i + 1..]);
  }

  /** A patch of fields that do not overlap gives the same payload in every order of its changes. */
  lemma {:induction false} AnyOrder(m: map<string, Value>, xs: seq<Change>, ys: seq<Change>)
    requires Apart(xs) && Apart(ys) && multiset(xs) == multiset(ys)
    ensures Fold(m, xs) == Fold(m, ys)
    decreases |xs|
  {
    hide SetIn, PathsOverlap, Fold, Apart, Without;
    if xs == [] {
      assert |multiset(ys)| == 0;
      assert ys == [];
    } else {
      var n := |xs| - 1;
      assert xs[n] in multiset(xs);
      var i :| 0 <= i < |ys| && ys[i] == xs[n];
      MoveLast(m, ys, i);
      ApartPart(xs, n);
      SameWithoutLast(xs, ys, i);
      AnyOrder(m, xs[..n], Without(ys, i));
      PathsOf(xs);
      FoldStep(m, xs);
    }
  }

  lemma PathsOf(changes: seq<Change>)
    requires Apart(changes)
    ensures Paths(changes)
  {
    hide PathsOverlap;
  }

  /*** The definition check ***/

  datatype Storage = InColumn(column: string) | InJson(path: Path)

  datatype FieldSpec = FieldSpec(name: string, storage: Storage)

  // The JSON fields among the declared ones, in order.
  function JsonFields(fields: seq<FieldSpec>): seq<FieldSpec> {
    if fields == [] then []
    else
      JsonFields(fields[..|fields| - 1])
      + (if fields[|fields| - 1].storage.InJson? then [fields[|fields| - 1]] else [])
  }

  predicate JsonOnly(fields: seq<FieldSpec>) {
    forall i | 0 <= i < |fields| :: fields[i].storage.InJson?
  }

  predicate PathsApart(json: seq<FieldSpec>)
    requires JsonOnly(json)
  {
    && (forall i | 0 <= i < |json| :: ValidPath(json[i].storage.path))
    && (forall i, j | 0 <= i < j < |json| :: !PathsOverlap(json[i].storage.path, json[j].storage.path))
  }

  lemma {:induction false} JsonFieldsAreJson(fields: seq<FieldSpec>)
    ensures JsonOnly(JsonFields(fields))
    ensures forall f | f in fields && f.storage.InJson? :: f in JsonFields(fields)
    ensures forall f | f in JsonFields(fields) :: f in fields
  {
    if fields != [] {
      JsonFieldsAreJson(fields[..|fields| - 1]);
      assert fields == fields[..|fields| - 1] + [fields[|fields| - 1]];
    }
  }

  predicate NamesApart(fields: seq<FieldSpec>) {
    forall i, j | 0 <= i < j < |fields| :: fields[i].name != fields[j].name
  }

  ghost predicate Accepted(fields: seq<FieldSpec>) {
    JsonFieldsAreJson(fields);
    NamesApart(fields) && PathsApart(JsonFields(fields))
  }

  // The declared paths seen so far do not overlap the new one.
  method OverlapsNone(json: seq<FieldSpec>, path: Path) returns (ok: bool)
    requires JsonOnly(json)
    ensures ok <==> forall j | 0 <= j < |json| :: !PathsOverlap(json[j].storage.path, path)
  {
    for k := 0 to |json|
      invariant forall j | 0 <= j < k :: !PathsOverlap(json[j].storage.path, path)
    {
      if PathsOverlap(json[k].storage.path, path) {
        return false;
      }
    }
    return true;
  }

  // One more field is fine exactly if its name is new and its path, if it has one, is valid and overlaps none.
  lemma AcceptsOneMore(fields: seq<FieldSpec>, i: nat)
    requires i < |fields| && Accepted(fields[..i])
    ensures var json, field := JsonFields(fields[..i]), fields[i];
            && JsonOnly(json)
            && (Accepted(fields[..i + 1]) <==>
                  && (forall k | 0 <= k < i :: fields[k].name != field.name)
                  && (field.storage.InJson? ==>
                        && ValidPath(field.storage.path)
                        && forall j | 0 <= j < |json| :: !PathsOverlap(json[j].storage.path, field.storage.path)))
            && JsonFields(fields[..i + 1]) == json + (if field.storage.InJson? then [field] else [])
  {
    hide PathsOverlap, ValidPath;
    JsonFieldsAreJson(fields[..i]);
    JsonFieldsAreJson(fields[..i + 1]);
    assert fields[..i + 1][..i] == fields[..i];
    var json, more := JsonFields(fields[..i]), JsonFields(fields[..i + 1]);
    if fields[i].storage.InJson? {
      assert more[|json|] == fields[i];
      assert forall j | 0 <= j < |json| :: more[j] == json[j];
    }
    assert forall k | 0 <= k < i :: fields[..i + 1][k] == fields[..i][k];
    assert fields[..i + 1][i] == fields[i];
  }

  /** The loop over the declared fields accepts exactly distinct names and valid, pairwise non-overlapping paths. */
  method CheckFields(fields: seq<FieldSpec>) returns (ok: bool)
    ensures ok <==> Accepted(fields)
  {
    hide Accepted, PathsOverlap, ValidPath, PathsApart, NamesApart;
    var names: set<string> := {};
    var json: seq<FieldSpec> := [];
    AcceptsNone();
    assert fields[..0] == [];
    for i := 0 to |fields|
      invariant forall f :: f in names <==> exists k | 0 <= k < i :: fields[k].name == f
      invariant Accepted(fields[..i])
      invariant json == JsonFields(fields[..i]) && JsonOnly(json)
    {
      var field := fields[i];
      AcceptsOneMore(fields, i);
      if field.name in names {
        RejectedPart(fields, i + 1);
        return false;
      }
      if field.storage.InJson? {
        var apart := OverlapsNone(json, field.storage.path);
        if !ValidPath(field.storage.path) || !apart {
          RejectedPart(fields, i + 1);
          return false;
        }
        json := json + [field];
      }
      names := names + {field.name};
    }
    assert fields[..|fields|] == fields;
    return true;
  }

  lemma AcceptsNone()
    ensures Accepted([])
  {
  }

  lemma {:induction false} JsonFieldsPrefix(fields: seq<FieldSpec>, n: nat)
    requires n <= |fields|
    ensures JsonFields(fields[..n]) <= JsonFields(fields)
  {
    if n < |fields| {
      JsonFieldsPrefix(fields[..|fields| - 1], n);
      assert fields[..|fields| - 1][..n] == fields[..n];
    } else {
      assert fields[..n] == fields;
    }
  }

  lemma RejectedPart(fields: seq<FieldSpec>, n: nat)
    requires n <= |fields| && !Accepted(fields[..n])
    ensures !Accepted(fields)
  {
    JsonFieldsPrefix(fields, n);
    JsonFieldsAreJson(fields);
    JsonFieldsAreJson(fields[..n]);
    if Accepted(fields) {
      var part, all := JsonFields(fields[..n]), JsonFields(fields);
      assert forall i | 0 <= i < |part| :: part[i] == all[i];
      assert NamesApart(fields[..n]);
      assert false;
    }
  }

  /*** Patches by declared name ***/

  datatype NamedChange = NamedChange(name: string, value: Value)

  function Declared(fields: seq<FieldSpec>, name: string): Option<FieldSpec> {
    if fields == [] then None
    else if fields[0].name == name then Some(fields[0])
    else Declared(fields[1..], name)
  }

  /** Every change is resolved by the name of its field; columns and unknown names are refused. */
  function Normalized(fields: seq<FieldSpec>, changes: seq<NamedChange>): Option<seq<Change>> {
    if changes == [] then Some([])
    else
      var field := Declared(fields, changes[0].name);
      if field.None? || !field.value.storage.InJson? then None
      else
        var rest := Normalized(fields, changes[1..]);
        if rest.None? then None else Some([Change(field.value.storage.path, changes[0].value)] + rest.value)
  }

  lemma {:induction false} DeclaredIs(fields: seq<FieldSpec>, name: string)
    requires Declared(fields, name).Some?
    ensures Declared(fields, name).value in fields && Declared(fields, name).value.name == name
  {
    if fields[0].name != name {
      DeclaredIs(fields[1..], name);
    }
  }

  lemma {:induction false} NormalizedAt(fields: seq<FieldSpec>, changes: seq<NamedChange>, i: nat)
    requires Normalized(fields, changes).Some? && i < |changes|
    ensures var out := Normalized(fields, changes).value;
            && |out| == |changes| && out[i].value == changes[i].value
            && Declared(fields, changes[i].name).Some?
            && Declared(fields, changes[i].name).value.storage == InJson(out[i].path)
  {
    if |changes| > 1 {
      NormalizedAt(fields, changes[1..], if i > 0 then i - 1 else 0);
    } else {
      assert changes[1..] == [];
    }
  }

  lemma DeclaredApart(fields: seq<FieldSpec>, a: FieldSpec, b: FieldSpec)
    requires Accepted(fields) && a in fields && b in fields && a.name != b.name
    requires a.storage.InJson? && b.storage.InJson?
    ensures ValidPath(a.storage.path) && ValidPath(b.storage.path) && !PathsOverlap(a.storage.path, b.storage.path)
  {
    JsonFieldsAreJson(fields);
    var json := JsonFields(fields);
    var i :| 0 <= i < |json| && json[i] == a;
    var j :| 0 <= j < |json| && json[j] == b;
  }

  // Two positions of a resolved patch: one field, or paths that do not overlap.
  lemma NormalizedPair(fields: seq<FieldSpec>, changes: seq<NamedChange>, i: nat, j: nat)
    requires Accepted(fields) && Normalized(fields, changes).Some? && i < |changes| && j < |changes|
    ensures var out := Normalized(fields, changes).value;
            && |out| == |changes| && ValidPath(out[i].path) && ValidPath(out[j].path)
            && (if changes[i].name == changes[j].name then out[i].path == out[j].path
                else !PathsOverlap(out[i].path, out[j].path))
  {
    hide Accepted, PathsOverlap, ValidPath;
    NormalizedAt(fields, changes, i);
    NormalizedAt(fields, changes, j);
    DeclaredIs(fields, changes[i].name);
    DeclaredIs(fields, changes[j].name);
    var a, b := Declared(fields, changes[i].name).value, Declared(fields, changes[j].name).value;
    DeclaredValid(fields, a);
    DeclaredValid(fields, b);
    if changes[i].name != changes[j].name {
      DeclaredApart(fields, a, b);
    }
  }

  predicate AllValid(changes: seq<Change>) {
    Paths(changes) && forall i | 0 <= i < |changes| :: ValidPath(changes[i].path)
  }

  // Changes of the same path, or of paths that do not overlap.
  predicate Compatible(changes: seq<Change>) {
    Paths(changes)
    && forall i, j | 0 <= i < |changes| && 0 <= j < |changes| ::
         changes[i].path == changes[j].path || !PathsOverlap(changes[i].path, changes[j].path)
  }

  /** A patch of declared fields has valid, compatible paths, and distinct fields have paths that do not overlap. */
  lemma NormalizedPaths(fields: seq<FieldSpec>, changes: seq<NamedChange>)
    requires Accepted(fields) && Normalized(fields, changes).Some?
    ensures var out := Normalized(fields, changes).value;
            && |out| == |changes| && AllValid(out) && Compatible(out)
            && ((forall i, j | 0 <= i < j < |changes| :: changes[i].name != changes[j].name) ==> Apart(out))
  {
    hide Accepted, PathsOverlap, Normalized;
    var out := Normalized(fields, changes).value;
    SameLength(fields, changes);
    forall i, j | 0 <= i < |out| && 0 <= j < |out|
      ensures ValidPath(out[i].path)
      ensures if changes[i].name == changes[j].name then out[i].path == out[j].path
              else !PathsOverlap(out[i].path, out[j].path)
    {
      NormalizedPair(fields, changes, i, j);
    }
  }

  lemma SameLength(fields: seq<FieldSpec>, changes: seq<NamedChange>)
    requires Normalized(fields, changes).Some?
    ensures |Normalized(fields, changes).value| == |changes|
  {
    if changes != [] {
      NormalizedAt(fields, changes, 0);
    }
  }

  /** Every path of a patch leads to a value after the patch. */
  lemma {:induction false} PatchFinds(m: map<string, Value>, changes: seq<Change>, i: nat)
    requires Compatible(changes) && i < |changes|
    ensures GetIn(Obj(Fold(m, changes)), changes[i].path).Some?
  {
    var n := |changes| - 1;
    if changes[i].path == changes[n].path {
      ReadBack(Fold(m, changes[..n]), changes[n].path, changes[n].value);
    } else {
      PatchFinds(m, changes[..n], i);
      SetFrame(Fold(m, changes[..n]), changes[n].path, changes[i].path, changes[n].value);
    }
  }

  lemma DeclaredValid(fields: seq<FieldSpec>, a: FieldSpec)
    requires Accepted(fields) && a in fields && a.storage.InJson?
    ensures ValidPath(a.storage.path)
  {
    JsonFieldsAreJson(fields);
    var json := JsonFields(fields);
    var i :| 0 <= i < |json| && json[i] == a;
  }

  /*** Fields by their names ***/

  // Some declared field of this name is stored as JSON.
  ghost predicate NamesJson(fields: seq<FieldSpec>, name: string) {
    exists f | f in fields :: f.name == name && f.storage.InJson?
  }

  lemma {:induction false} DeclaredFinds(fields: seq<FieldSpec>, f: FieldSpec)
    requires NamesApart(fields) && f in fields
    ensures Declared(fields, f.name) == Some(f)
  {
    if fields[0].name == f.name {
      var i :| 0 <= i < |fields| && fields[i] == f;
      assert i == 0;
    } else {
      assert fields == [fields[0]] + fields[1..];
      assert forall i | 0 <= i < |fields[1..]| :: fields[1..][i] == fields[i + 1];
      DeclaredFinds(fields[1..], f);
    }
  }

  lemma DeclaredJson(fields: seq<FieldSpec>, name: string)
    requires NamesApart(fields)
    ensures Declared(fields, name).Some? && Declared(fields, name).value.storage.InJson? <==> NamesJson(fields, name)
  {
    hide Declared;
    if f :| f in fields && f.name == name && f.storage.InJson? {
      DeclaredFinds(fields, f);
    }
    if Declared(fields, name).Some? {
      DeclaredIs(fields, name);
    }
  }

  lemma {:induction false} ResolvedIff(fields: seq<FieldSpec>, changes: seq<NamedChange>)
    requires NamesApart(fields)
    ensures Normalized(fields, changes).Some? <==> forall i | 0 <= i < |changes| :: NamesJson(fields, changes[i].name)
  {
    hide Declared, NamesJson, NamesApart;
    if changes != [] {
      DeclaredJson(fields, changes[0].name);
      ResolvedIff(fields, changes[1..]);
      assert forall i | 0 < i < |changes| :: changes[i] == changes[1..][i - 1];
      assert forall i | 0 <= i < |changes[1..]| :: changes[1..][i] == changes[i + 1];
    }
  }

  /**
   A patch of an accepted definition is resolved exactly when every change names a declared field that is stored as
   JSON, and then every change goes to the path of the field it names.
   */
  lemma PatchResolvesIff(fields: seq<FieldSpec>, changes: seq<NamedChange>)
    requires Accepted(fields)
    ensures Normalized(fields, changes).Some? <==>
              forall i | 0 <= i < |changes| :: exists f | f in fields :: f.name == changes[i].name && f.storage.InJson?
    ensures Normalized(fields, changes).Some? ==>
              var out := Normalized(fields, changes).value;
              && |out| == |changes|
              && forall i, f | 0 <= i < |changes| && f in fields && f.name == changes[i].name ::
                   f.storage == InJson(out[i].path) && out[i].value == changes[i].value
  {
    ResolvedIff(fields, changes);
    assert forall i | 0 <= i < |changes| :: NamesJson(fields, changes[i].name)
             <==> exists f | f in fields :: f.name == changes[i].name && f.storage.InJson?;
    if Normalized(fields, changes).Some? {
      SameLength(fields, changes);
      forall i, f | 0 <= i < |changes| && f in fields && f.name == changes[i].name
        ensures f.storage == InJson(Normalized(fields, changes).value[i].path)
        ensures Normalized(fields, changes).value[i].value == changes[i].value
      {
        NormalizedAt(fields, changes, i);
        DeclaredFinds(fields, f);
      }
    }
  }

  // The value the last change of a name gives it.
  function LastChange(changes: seq<NamedChange>, name: string): Option<Value> {
    if changes == [] then None
    else if changes[|changes| - 1].name == name then Some(changes[|changes| - 1].value)
    else LastChange(changes[..|changes| - 1], name)
  }

  lemma {:induction false} LastChangeWins(m: map<string, Value>, out: seq<Change>, changes: seq<NamedChange>,
                                          name: string, path: Path)
    requires Paths(out) && |out| == |changes| && path != []
    requires forall i | 0 <= i < |out| ::
               && out[i].value == changes[i].value
               && (if changes[i].name == name then out[i].path == path else !PathsOverlap(out[i].path, path))
    ensures GetIn(Obj(Fold(m, out)), path)
            == if LastChange(changes, name).Some? then LastChange(changes, name) else GetIn(Obj(m), path)
    decreases |out|
  {
    hide PathsOverlap, SetIn, GetIn;
    if out != [] {
      var n := |out| - 1;
      if changes[n].name == name {
        ReadBack(Fold(m, out[..n]), path, out[n].value);
      } else {
        LastChangeWins(m, out[..n], changes[..n], name, path);
        SetFrame(Fold(m, out[..n]), out[n].path, path, out[n].value);
      }
    }
  }

  /**
   A patch of an accepted definition gives every JSON field the value of the last change that names it, and leaves
   the fields it does not name as they were.
   */
  lemma PatchOfFields(fields: seq<FieldSpec>, changes: seq<NamedChange>, m: map<string, Value>, f: FieldSpec)
    requires Accepted(fields) && Normalized(fields, changes).Some? && f in fields && f.storage.InJson?
    ensures Paths(Normalized(fields, changes).value)
    ensures GetIn(Obj(Fold(m, Normalized(fields, changes).value)), f.storage.path)
            == if LastChange(changes, f.name).Some? then LastChange(changes, f.name)
               else GetIn(Obj(m), f.storage.path)
  {
    hide Accepted, PathsOverlap, Normalized, LastChange, Declared, GetIn, Fold, ValidPath;
    var out := Normalized(fields, changes).value;
    NormalizedPaths(fields, changes);
    DeclaredValid(fields, f);
    ValidIsNonempty(f.storage.path);
    forall i | 0 <= i < |out|
      ensures out[i].value == changes[i].value
      ensures if changes[i].name == f.name then out[i].path == f.storage.path
              else !PathsOverlap(out[i].path, f.storage.path)
    {
      ChangeOfField(fields, changes, i, f);
    }
    LastChangeWins(m, out, changes, f.name, f.storage.path);
  }

  lemma ValidIsNonempty(path: Path)
    requires ValidPath(path)
    ensures path != []
  {
  }

  lemma AcceptedNames(fields: seq<FieldSpec>)
    requires Accepted(fields)
    ensures NamesApart(fields)
  {
  }

  lemma ChangeOfField(fields: seq<FieldSpec>, changes: seq<NamedChange>, i: nat, f: FieldSpec)
    requires Accepted(fields) && Normalized(fields, changes).Some? && i < |changes|
    requires f in fields && f.storage.InJson?
    ensures var out := Normalized(fields, changes).value;
            && |out| == |changes| && out[i].value == changes[i].value
            && (if changes[i].name == f.name then out[i].path == f.storage.path
                else !PathsOverlap(out[i].path, f.storage.path))
  {
    hide Accepted, PathsOverlap, Normalized, Declared, ValidPath;
    AcceptedNames(fields);
    NormalizedAt(fields, changes, i);
    DeclaredIs(fields, changes[i].name);
    var g := Declared(fields, changes[i].name).value;
    if changes[i].name == f.name {
      DeclaredFinds(fields, f);
    } else {
      DeclaredApart(fields, g, f);
    }
  }
}
