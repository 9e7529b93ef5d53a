/** The SQL expressions the two dialects compile a patch to, and what the databases make of them. */
module ProjectionDialect {
  import opened Common
  import opened ProjectionPaths

  /*** Path literals ***/

  function Join(path: Path, separator: char): string {
    if path == [] then ""
    else if |path| == 1 then path[0]
    else path[0] + [separator] + Join(path[1..], separator)
  }

  // Splitting a text at a separator; current is the segment read so far.
  function Split(text: string, separator: char, current: string): Path
    decreases |text|
  {
    if text == "" then [current]
    else if text[0] == separator then [current] + Split(text[1..], separator, "")
    else Split(text[1..], separator, current + [text[0]])
  }

  predicate FreeOf(s: string, c: char) {
    forall i | 0 <= i < |s| :: s[i] != c
  }

  lemma {:induction false} SplitSegment(s: string, rest: string, separator: char, current: string)
    requires FreeOf(s, separator)
    ensures Split(s + rest, separator, current) == Split(rest, separator, current + s)
    decreases |s|
  {
    if s == "" {
      assert s + rest == rest && current + s == current;
    } else {
      assert (s + rest)[1..] == s[1..] + rest;
      assert current + s == current + [s[0]] + s[1..];
      SplitSegment(s[1..], rest, separator, current + [s[0]]);
    }
  }

  /** Splitting undoes joining when no segment holds the separator. */
  lemma {:induction false} SplitJoin(path: Path, separator: char)
    requires path != [] && forall i | 0 <= i < |path| :: FreeOf(path[i], separator)
    ensures Split(Join(path, separator), separator, "") == path
    decreases |path|
  {
    if |path| == 1 {
      assert path[0] + "" == path[0] && "" + path[0] == path[0];
      SplitSegment(path[0], "", separator, "");
    } else {
      var rest := [separator] + Join(path[1..], separator);
      assert path[0] + [separator] + Join(path[1..], separator) == path[0] + rest;
      assert "" + path[0] == path[0] && rest[1..] == Join(path[1..], separator);
      SplitSegment(path[0], rest, separator, "");
      SplitJoin(path[1..], separator);
      assert path == [path[0]] + path[1..];
    }
  }

  function PostgresPath(path: Path): string {
    "{" + Join(path, ',') + "}"
  }

  function SqlitePath(path: Path): string {
    "$." + Join(path, '.')
  }

  // The word null in any case, which an array literal reads as SQL NULL.
  predicate NullWord(s: string) {
    |s| == 4 && s[0] in "nN" && s[1] in "uU" && s[2] in "lL" && s[3] in "lL"
  }

  // A PostgreSQL text array literal of unquoted elements.
  function ReadPostgres(literal: string): Option<seq<Option<string>>> {
    if |literal| < 2 || literal[0] != '{' || literal[|literal| - 1] != '}' then None
    else
      var parts := Split(literal[1..|literal| - 1], ',', "");
      Some(Elements(parts))
  }

  function Elements(path: Path): (es: seq<Option<string>>)
    ensures |es| == |path|
    ensures forall i | 0 <= i < |path| :: es[i] == if NullWord(path[i]) then None else Some(path[i])
  {
    if path == [] then [] else [if NullWord(path[0]) then None else Some(path[0])] + Elements(path[1..])
  }

  function ReadSqlite(literal: string): Option<Path> {
    if |literal| < 2 || literal[0] != '$' || literal[1] != '.' then None else Some(Split(literal[2..], '.', ""))
  }

  lemma ValidFree(path: Path)
    requires ValidPath(path)
    ensures forall i | 0 <= i < |path| :: FreeOf(path[i], ',') && FreeOf(path[i], '.')
  {
    forall i | 0 <= i < |path| ensures FreeOf(path[i], ',') && FreeOf(path[i], '.') {
      assert ValidSegment(path[i]);
    }
  }

  /** The databases read the path literals back segment by segment; only the word null is lost. */
  lemma LiteralsReadBack(path: Path)
    requires ValidPath(path)
    ensures ReadPostgres(PostgresPath(path)) == Some(Elements(path))
    ensures ReadSqlite(SqlitePath(path)) == Some(path)
  {
    ValidFree(path);
    SplitJoin(path, ',');
    SplitJoin(path, '.');
    var literal := PostgresPath(path);
    assert literal[1..|literal| - 1] == Join(path, ',');
    assert SqlitePath(path)[2..] == Join(path, '.');
  }

  /*** SQL expressions ***/

  datatype Sql =
    | Column
    | EmptyObject
    | Param(index: nat)
    | Coalesce(first: Sql, second: Sql)
    | WhenObject(subject: Sql, yes: Sql, no: Sql)
    | Extract(doc: Sql, path: string)
    | JsonbSet(doc: Sql, path: string, value: Sql)
    | JsonSet(doc: Sql, path: string, value: Sql)

  datatype Outcome = SqlNull | Val(value: Value) | Failed

  type Params = map<nat, Value>

  /*** PostgreSQL ***/

  // The operator #>; identifiers are not array positions, so arrays lead nowhere.
  function PgGet(v: Value, path: seq<Option<string>>): Outcome
    decreases |path|
  {
    if path == [] then Val(v)
    else if path[0].Some? && v.Obj? && path[0].value in v.members then PgGet(v.members[path[0].value], path[1..])
    else SqlNull
  }

  // jsonb_set below the root: a NULL element and a name for an array position are errors, scalars stay.
  function PgPut(v: Value, path: seq<Option<string>>, n: Value): Outcome
    decreases |path|
  {
    if path == [] then Val(v)
    else if path[0].None? then Failed
    else
      match v
      case Obj(m) =>
        if |path| == 1 then Val(Obj(m[path[0].value := n]))
        else if path[0].value !in m then Val(v)
        else
          (match PgPut(m[path[0].value], path[1..], n)
           case Val(w) => Val(Obj(m[path[0].value := w]))
           case other => other)
      case Arr(_) => Failed
      case _ => Val(v)
  }

  function PgSet(doc: Outcome, path: seq<Option<string>>, n: Outcome): Outcome {
    match (doc, n)
    case (Failed, _) => Failed
    case (_, Failed) => Failed
    case (SqlNull, _) => SqlNull
    case (_, SqlNull) => SqlNull
    case (Val(v), Val(w)) => if v.Obj? || v.Arr? then PgPut(v, path, w) else Failed
  }

  function EvalPg(e: Sql, payload: Option<Value>, params: Params): Outcome {
    match e
    case Column => if payload.Some? then Val(payload.value) else SqlNull
    case EmptyObject => Val(Obj(map[]))
    case Param(i) => if i in params then Val(params[i]) else Failed
    case Coalesce(a, b) =>
      if EvalPg(a, payload, params).SqlNull? then EvalPg(b, payload, params) else EvalPg(a, payload, params)
    case WhenObject(subject, yes, no) =>
      (match EvalPg(subject, payload, params)
       case Failed => Failed
       case SqlNull => EvalPg(no, payload, params)
       case Val(v) => if v.Obj? then EvalPg(yes, payload, params) else EvalPg(no, payload, params))
    case Extract(doc, literal) =>
      (match (EvalPg(doc, payload, params), ReadPostgres(literal))
       case (Failed, _) => Failed
       case (_, None) => Failed
       case (SqlNull, _) => SqlNull
       case (Val(v), Some(path)) => if None in path then SqlNull else PgGet(v, path))
    case JsonbSet(doc, literal, value) =>
      var path := ReadPostgres(literal);
      if path.None? then Failed else PgSet(EvalPg(doc, payload, params), path.value, EvalPg(value, payload, params))
    case JsonSet(_, _, _) => Failed
  }

  /*** SQLite ***/

  // json_set creates what is missing on the way and leaves paths alone that a scalar or an array blocks.
  function LitePut(v: Value, path: Path, n: Value): Value
    decreases |path|
  {
    if path == [] then n
    else if !v.Obj? then v
    else if |path| == 1 then Obj(v.members[path[0] := n])
    else if path[0] in v.members then Obj(v.members[path[0] := LitePut(v.members[path[0]], path[1..], n)])
    else Obj(v.members[path[0] := Obj(SetIn(map[], path[1..], n))])
  }

  function EvalLite(e: Sql, payload: Option<Value>, params: Params): Outcome {
    match e
    case Column => if payload.Some? then Val(payload.value) else SqlNull
    case EmptyObject => Val(Obj(map[]))
    case Param(i) => if i in params then Val(params[i]) else Failed
    case Coalesce(a, b) =>
      if EvalLite(a, payload, params).SqlNull? then EvalLite(b, payload, params) else EvalLite(a, payload, params)
    case JsonSet(doc, literal, value) =>
      (match (EvalLite(doc, payload, params), ReadSqlite(literal), EvalLite(value, payload, params))
       case (Failed, _, _) => Failed
       case (_, None, _) => Failed
       case (_, _, Failed) => Failed
       case (SqlNull, _, _) => SqlNull
       case (Val(v), Some(path), SqlNull) => Val(LitePut(v, path, Null))
       case (Val(v), Some(path), Val(w)) => Val(LitePut(v, path, w)))
    case _ => Failed
  }

  /*** The compiled expressions ***/

  function ObjectAt(e: Sql, path: Path): Sql {
    var literal := PostgresPath(path);
    JsonbSet(e, literal, WhenObject(Extract(e, literal), Extract(e, literal), EmptyObject))
  }

  // The proper prefixes of lengths 1 to depth made objects.
  function Prepared(e: Sql, path: Path, depth: nat): Sql
    requires depth <= |path|
  {
    if depth == 0 then e else ObjectAt(Prepared(e, path, depth - 1), path[..depth])
  }

  function PgStep(e: Sql, path: Path, index: nat): Sql
    requires path != []
  {
    JsonbSet(Prepared(e, path, |path| - 1), PostgresPath(path), Param(index))
  }

  const PG_START: Sql := WhenObject(Coalesce(Column, EmptyObject), Coalesce(Column, EmptyObject), EmptyObject)

  function PgExpression(changes: seq<Change>): Sql
    requires Paths(changes)
  {
    if changes == [] then PG_START
    else
      var n := |changes| - 1;
      PgStep(PgExpression(changes[..n]), changes[n].path, n)
  }

  function LiteExpression(changes: seq<Change>): Sql {
    if changes == [] then Coalesce(Column, EmptyObject)
    else
      var n := |changes| - 1;
      JsonSet(LiteExpression(changes[..n]), SqlitePath(changes[n].path), Param(n))
  }

  // Parameter i holds the value of change i.
  ghost predicate Bound(params: Params, changes: seq<Change>) {
    forall i | 0 <= i < |changes| :: i in params && params[i] == changes[i].value
  }

  method CompilePostgres(changes: seq<Change>) returns (expression: Sql, parameters: Params)
    requires AllValid(changes)
    ensures expression == PgExpression(changes) && Bound(parameters, changes)
    ensures forall payload: Option<Value> :: EvalPg(expression, payload, parameters) == PgMeaning(payload, changes)
  {
    hide EvalPg, PgMeaning, ValidPath, ObjectAt;
    expression := Coalesce(Column, EmptyObject);
    expression := WhenObject(expression, expression, EmptyObject);
    parameters := map[];
    for index := 0 to |changes|
      invariant expression == PgExpression(changes[..index])
      invariant Bound(parameters, changes[..index]) && forall k | k in parameters :: k < index
    {
      parameters := parameters[index := changes[index].value];
      var path := changes[index].path;
      ghost var before := expression;
      for depth := 1 to |path|
        invariant expression == Prepared(before, path, depth - 1)
      {
        expression := ObjectAt(expression, path[..depth]);
      }
      expression := JsonbSet(expression, PostgresPath(path), Param(index));
      assert changes[..index + 1][..index] == changes[..index];
    }
    assert changes[..|changes|] == changes;
    forall payload: Option<Value> ensures EvalPg(expression, payload, parameters) == PgMeaning(payload, changes) {
      PostgresPreservesMeaning(payload, changes, parameters);
    }
  }

  method CompileSqlite(changes: seq<Change>) returns (expression: Sql, parameters: Params)
    requires AllValid(changes)
    ensures expression == LiteExpression(changes) && Bound(parameters, changes)
    ensures forall payload: Option<Value> ::
              EvalLite(expression, payload, parameters) == Val(LiteFold(LiteStart(payload), changes))
  {
    hide EvalLite, LiteFold, ValidPath, SqlitePath;
    expression := Coalesce(Column, EmptyObject);
    parameters := map[];
    for index := 0 to |changes|
      invariant expression == LiteExpression(changes[..index])
      invariant Bound(parameters, changes[..index]) && forall k | k in parameters :: k < index
    {
      parameters := parameters[index := changes[index].value];
      expression := JsonSet(expression, SqlitePath(changes[index].path), Param(index));
      assert changes[..index + 1][..index] == changes[..index];
    }
    assert changes[..|changes|] == changes;
    forall payload: Option<Value>
      ensures EvalLite(expression, payload, parameters) == Val(LiteFold(LiteStart(payload), changes))
    {
      SqliteMeans(payload, changes, parameters);
    }
  }

  /*** The PostgreSQL expression preserves meaning ***/

  // NULL and everything that is not an object count as the empty object.
  function Start(payload: Option<Value>): map<string, Value> {
    if payload.Some? && payload.value.Obj? then payload.value.members else map[]
  }

  predicate NullLike(path: Path) {
    exists i | 0 <= i < |path| :: NullWord(path[i])
  }

  predicate SomeNullLike(changes: seq<Change>) {
    exists i | 0 <= i < |changes| :: NullLike(changes[i].path)
  }

  function PgMeaning(payload: Option<Value>, changes: seq<Change>): Outcome
    requires Paths(changes)
  {
    if SomeNullLike(changes) then Failed else Val(Obj(Fold(Start(payload), changes)))
  }

  // Every proper prefix of the path is an object.
  predicate Reaches(m: map<string, Value>, path: Path)
    decreases |path|
  {
    |path| <= 1 || (path[0] in m && m[path[0]].Obj? && Reaches(m[path[0]].members, path[1..]))
  }

  lemma ElementsRest(path: Path)
    requires path != []
    ensures Elements(path)[1..] == Elements(path[1..])
    ensures Elements(path)[0] == if NullWord(path[0]) then None else Some(path[0])
  {
  }

  lemma NullLikeRest(path: Path)
    requires path != []
    ensures NullLike(path) <==> NullWord(path[0]) || NullLike(path[1..])
  {
    if NullLike(path[1..]) {
      var i :| 0 <= i < |path[1..]| && NullWord(path[1..][i]);
      assert NullWord(path[i + 1]);
    }
    if NullLike(path) && !NullWord(path[0]) {
      var i :| 0 <= i < |path| && NullWord(path[i]);
      assert NullWord(path[1..][i - 1]);
    }
  }

  lemma {:induction false} PutReaches(m: map<string, Value>, path: Path, n: Value)
    requires path != [] && Reaches(m, path)
    ensures PgPut(Obj(m), Elements(path), n) == if NullLike(path) then Failed else Val(Obj(SetIn(m, path, n)))
    decreases |path|
  {
    ElementsRest(path);
    NullLikeRest(path);
    if |path| == 1 {
      assert !NullLike(path[1..]);
    } else if !NullWord(path[0]) {
      PutReaches(m[path[0]].members, path[1..], n);
    }
  }

  lemma {:induction false} GetReaches(v: Value, path: Path)
    requires !NullLike(path)
    ensures None !in Elements(path)
    ensures PgGet(v, Elements(path)) == if GetIn(v, path).Some? then Val(GetIn(v, path).value) else SqlNull
    decreases |path|
  {
    if path != [] {
      ElementsRest(path);
      NullLikeRest(path);
      if v.Obj? && path[0] in v.members {
        GetReaches(v.members[path[0]], path[1..]);
      } else {
        GetReaches(v, path[1..]);
      }
    }
  }

  // The members at a prefix after it has been made an object.
  function Ensured(m: map<string, Value>, path: Path): map<string, Value>
    requires path != []
  {
    var found := GetIn(Obj(m), path);
    SetIn(m, path, if found.Some? && found.value.Obj? then found.value else Obj(map[]))
  }

  function EnsuredTo(m: map<string, Value>, path: Path, depth: nat): map<string, Value>
    requires depth <= |path|
  {
    if depth == 0 then m else Ensured(EnsuredTo(m, path, depth - 1), path[..depth])
  }

  lemma {:induction false} EnsuredReaches(m: map<string, Value>, path: Path, depth: nat)
    requires 0 < depth < |path| && Reaches(m, path[..depth])
    ensures Reaches(Ensured(m, path[..depth]), path[..depth + 1])
    decreases |path|
  {
    var p := path[..depth];
    if depth > 1 {
      var child := m[path[0]].members;
      assert p[0] == path[0] && p[1..] == path[1..][..depth - 1];
      assert path[..depth + 1][1..] == path[1..][..depth];
      EnsuredReaches(child, path[1..], depth - 1);
      assert GetIn(Obj(m), p) == GetIn(Obj(child), p[1..]);
      assert Child(m, path[0]) == child;
      assert Ensured(m, p) == m[path[0] := Obj(Ensured(child, p[1..]))];
    } else {
      assert p == [path[0]] && path[..2] == [path[0], path[1]];
      assert GetIn(Obj(m), p) == if path[0] in m then Some(m[path[0]]) else None;
    }
  }

  /** Making a proper prefix an object does not change what setting the whole path gives. */
  lemma {:induction false} EnsuredSets(m: map<string, Value>, path: Path, depth: nat, v: Value)
    requires 0 < depth < |path|
    ensures SetIn(Ensured(m, path[..depth]), path, v) == SetIn(m, path, v)
    decreases |path|
  {
    hide SetIn, Ensured, Child, GetIn, Slot;
    var p := path[..depth];
    var k := path[0];
    SetTop(m, path, v);
    SetTop(Ensured(m, p), path, v);
    if depth > 1 {
      assert p[1..] == path[1..][..depth - 1];
      EnsuredSets(Child(m, k), path[1..], depth - 1, v);
      EnsuredBelow(m, p);
      SlotBelow(Child(m, k), path, v);
      var x := Obj(Ensured(Child(m, k), p[1..]));
      ChildOfSet(m, k, x, k);
      SlotBelow(Child(m[k := x], k), path, v);
      PutTwice(m, k, x, k, Slot(Child(m, k), path, v));
    } else {
      assert p == [k];
      EnsuredTop(m, k);
      ChildOfSet(m, k, Obj(Child(m, k)), k);
      PutTwice(m, k, Obj(Child(m, k)), k, Slot(Child(m, k), path, v));
    }
  }

  lemma SlotBelow(child: map<string, Value>, path: Path, v: Value)
    requires |path| > 1
    ensures Slot(child, path, v) == Obj(SetIn(child, path[1..], v))
  {
  }

  lemma EnsuredTop(m: map<string, Value>, k: string)
    ensures Ensured(m, [k]) == m[k := Obj(Child(m, k))]
  {
    assert GetIn(Obj(m), [k]) == if k in m then Some(m[k]) else None;
  }

  lemma EnsuredBelow(m: map<string, Value>, p: Path)
    requires |p| > 1
    ensures Ensured(m, p) == m[p[0] := Obj(Ensured(Child(m, p[0]), p[1..]))]
  {
    var child := Child(m, p[0]);
    if p[0] in m && m[p[0]].Obj? {
      assert GetIn(Obj(m), p) == GetIn(Obj(child), p[1..]);
    } else {
      assert GetIn(Obj(m), p) == None;
      assert GetIn(Obj(child), p[1..]) == None;
    }
  }

  lemma ReachesLess(m: map<string, Value>, path: Path)
    ensures |path| <= 1 ==> Reaches(m, path)
  {
  }

  // One jsonObjectAtPath, given that the shorter prefixes are objects.
  lemma ObjectAtMeans(e: Sql, payload: Option<Value>, params: Params, m: map<string, Value>, path: Path)
    requires ValidPath(path) && Reaches(m, path) && EvalPg(e, payload, params) == Val(Obj(m))
    ensures EvalPg(ObjectAt(e, path), payload, params) == if NullLike(path) then Failed else Val(Obj(Ensured(m, path)))
  {
    hide ReadPostgres, PostgresPath, Elements, PgPut, PgGet, NullLike;
    var literal := PostgresPath(path);
    LiteralsReadBack(path);
    var existing := Extract(e, literal);
    var made := WhenObject(existing, existing, EmptyObject);
    if NullLike(path) {
      NoneInElements(path);
      assert EvalPg(existing, payload, params) == SqlNull;
      assert EvalPg(EmptyObject, payload, params) == Val(Obj(map[]));
      assert EvalPg(made, payload, params) == Val(Obj(map[]));
      PutReaches(m, path, Obj(map[]));
    } else {
      GetReaches(Obj(m), path);
      var found := GetIn(Obj(m), path);
      var n := if found.Some? && found.value.Obj? then found.value else Obj(map[]);
      assert EvalPg(made, payload, params) == Val(n);
      PutReaches(m, path, n);
    }
  }

  lemma NoneInElements(path: Path)
    requires NullLike(path)
    ensures None in Elements(path)
  {
    var i :| 0 <= i < |path| && NullWord(path[i]);
    assert Elements(path)[i] == None;
  }

  lemma FailedStays(e: Sql, payload: Option<Value>, params: Params, path: Path)
    requires EvalPg(e, payload, params) == Failed
    ensures EvalPg(ObjectAt(e, path), payload, params) == Failed
  {
    hide ReadPostgres, PostgresPath, PgPut, PgGet;
  }

  lemma NullLikePrefix(path: Path, depth: nat)
    requires 0 < depth <= |path|
    ensures NullLike(path[..depth]) <==> NullLike(path[..depth - 1]) || NullWord(path[depth - 1])
  {
    if NullLike(path[..depth - 1]) {
      var i :| 0 <= i < depth - 1 && NullWord(path[..depth - 1][i]);
      assert NullWord(path[..depth][i]);
    }
    if NullWord(path[depth - 1]) {
      assert NullWord(path[..depth][depth - 1]);
    }
    if NullLike(path[..depth]) && !NullWord(path[depth - 1]) {
      var i :| 0 <= i < depth && NullWord(path[..depth][i]);
      assert NullWord(path[..depth - 1][i]);
    }
  }

  lemma {:induction false} PreparedMeans(e: Sql, payload: Option<Value>, params: Params, m: map<string, Value>,
                                         path: Path, depth: nat)
    requires ValidPath(path) && depth < |path| && EvalPg(e, payload, params) == Val(Obj(m))
    ensures EvalPg(Prepared(e, path, depth), payload, params)
            == if NullLike(path[..depth]) then Failed else Val(Obj(EnsuredTo(m, path, depth)))
    ensures Reaches(EnsuredTo(m, path, depth), path[..depth + 1])
    decreases depth
  {
    hide EvalPg, Ensured, NullLike, Reaches, ObjectAt;
    if depth == 0 {
      NoNullLike(path);
      ReachesLess(m, path[..1]);
    } else {
      PreparedMeans(e, payload, params, m, path, depth - 1);
      var f, before := Prepared(e, path, depth - 1), EnsuredTo(m, path, depth - 1);
      NullLikePrefix(path, depth);
      EnsuredReaches(before, path, depth);
      if NullLike(path[..depth - 1]) {
        FailedStays(f, payload, params, path[..depth]);
      } else {
        ObjectAtMeans(f, payload, params, before, path[..depth]);
      }
    }
  }

  lemma NoNullLike(path: Path)
    ensures !NullLike(path[..0])
  {
  }

  lemma {:induction false} EnsuredToSets(m: map<string, Value>, path: Path, depth: nat, v: Value)
    requires depth < |path|
    ensures SetIn(EnsuredTo(m, path, depth), path, v) == SetIn(m, path, v)
    decreases depth
  {
    hide SetIn, Ensured;
    if depth > 0 {
      EnsuredToSets(m, path, depth - 1, v);
      EnsuredSets(EnsuredTo(m, path, depth - 1), path, depth, v);
    }
  }

  /** One change: all proper prefixes made objects, then the value set. */
  lemma StepMeans(e: Sql, payload: Option<Value>, params: Params, m: map<string, Value>, path: Path, index: nat)
    requires ValidPath(path) && EvalPg(e, payload, params) == Val(Obj(m)) && index in params
    ensures EvalPg(PgStep(e, path, index), payload, params)
            == if NullLike(path) then Failed else Val(Obj(SetIn(m, path, params[index])))
  {
    hide SetIn, Ensured, NullLike, Reaches, Prepared, PgPut, PgGet, ReadPostgres, PostgresPath, Elements;
    var depth := |path| - 1;
    PreparedMeans(e, payload, params, m, path, depth);
    EnsuredToSets(m, path, depth, params[index]);
    LiteralsReadBack(path);
    NullLikePrefix(path, |path|);
    assert path[..|path|] == path;
    PutReaches(EnsuredTo(m, path, depth), path, params[index]);
  }

  lemma {:induction false} PreparedFails(e: Sql, payload: Option<Value>, params: Params, path: Path, depth: nat)
    requires depth <= |path| && EvalPg(e, payload, params) == Failed
    ensures EvalPg(Prepared(e, path, depth), payload, params) == Failed
    decreases depth
  {
    hide EvalPg, ObjectAt;
    if depth > 0 {
      PreparedFails(e, payload, params, path, depth - 1);
      FailedStays(Prepared(e, path, depth - 1), payload, params, path[..depth]);
    }
  }

  lemma StartMeans(payload: Option<Value>, params: Params)
    ensures EvalPg(PG_START, payload, params) == Val(Obj(Start(payload)))
  {
    var column := Coalesce(Column, EmptyObject);
    assert EvalPg(EmptyObject, payload, params) == Val(Obj(map[]));
    assert EvalPg(column, payload, params) == Val(if payload.Some? then payload.value else Obj(map[]));
    assert PG_START == WhenObject(column, column, EmptyObject);
  }

  lemma SomeNullLikeStep(changes: seq<Change>)
    requires changes != []
    ensures SomeNullLike(changes) <==>
              SomeNullLike(changes[..|changes| - 1]) || NullLike(changes[|changes| - 1].path)
  {
    hide NullLike;
    var n := |changes| - 1;
    if SomeNullLike(changes[..n]) {
      var i :| 0 <= i < n && NullLike(changes[..n][i].path);
      assert NullLike(changes[i].path);
    }
    if SomeNullLike(changes) && !NullLike(changes[n].path) {
      var i :| 0 <= i < |changes| && NullLike(changes[i].path);
      assert NullLike(changes[..n][i].path);
    }
  }

  /**
   For every payload and every list of changes the expression means the fold of the changes over the payload's
   members, unless a segment is the word null, which makes the statement fail.
   */
  lemma {:induction false} PostgresPreservesMeaning(payload: Option<Value>, changes: seq<Change>, params: Params)
    requires AllValid(changes)
    requires Bound(params, changes)
    ensures EvalPg(PgExpression(changes), payload, params) == PgMeaning(payload, changes)
    decreases |changes|
  {
    hide EvalPg, SomeNullLike, PgStep, ValidPath, SetIn, Start;
    if changes == [] {
      StartMeans(payload, params);
      assert !SomeNullLike([]) by {
        NoChanges();
      }
    } else {
      var n := |changes| - 1;
      PostgresPreservesMeaning(payload, changes[..n], params);
      SomeNullLikeStep(changes);
      var e := PgExpression(changes[..n]);
      assert n in params && params[n] == changes[n].value;
      if SomeNullLike(changes[..n]) {
        StepFails(e, payload, params, changes[n].path, n);
      } else {
        StepMeans(e, payload, params, Fold(Start(payload), changes[..n]), changes[n].path, n);
      }
    }
  }

  lemma NoChanges()
    ensures !SomeNullLike([])
  {
  }

  lemma StepFails(e: Sql, payload: Option<Value>, params: Params, path: Path, index: nat)
    requires path != [] && EvalPg(e, payload, params) == Failed
    ensures EvalPg(PgStep(e, path, index), payload, params) == Failed
  {
    hide Prepared, PgPut, ReadPostgres, PostgresPath;
    PreparedFails(e, payload, params, path, |path| - 1);
  }

  /*** The SQLite expression ***/

  function LiteStart(payload: Option<Value>): Value {
    if payload.Some? then payload.value else Obj(map[])
  }

  function LiteFold(v: Value, changes: seq<Change>): Value {
    if changes == [] then v
    else LitePut(LiteFold(v, changes[..|changes| - 1]), changes[|changes| - 1].path, changes[|changes| - 1].value)
  }

  lemma {:induction false} SqliteMeans(payload: Option<Value>, changes: seq<Change>, params: Params)
    requires AllValid(changes)
    requires Bound(params, changes)
    ensures EvalLite(LiteExpression(changes), payload, params) == Val(LiteFold(LiteStart(payload), changes))
    decreases |changes|
  {
    hide LitePut, ReadSqlite, SqlitePath, ValidPath;
    if changes != [] {
      var n := |changes| - 1;
      SqliteMeans(payload, changes[..n], params);
      LiteralsReadBack(changes[n].path);
    }
  }

  // Every proper prefix of the path is absent or an object.
  predicate Clear(m: map<string, Value>, path: Path)
    decreases |path|
  {
    |path| <= 1 || path[0] !in m || (m[path[0]].Obj? && Clear(m[path[0]].members, path[1..]))
  }

  lemma {:induction false} PutClear(m: map<string, Value>, path: Path, n: Value)
    requires path != []
    ensures LitePut(Obj(m), path, n) == Obj(if Clear(m, path) then SetIn(m, path, n) else m)
    decreases |path|
  {
    if |path| > 1 && path[0] in m {
      if m[path[0]].Obj? {
        PutClear(m[path[0]].members, path[1..], n);
        assert m[path[0] := m[path[0]]] == m;
      } else {
        assert m[path[0] := m[path[0]]] == m;
      }
    }
  }

  /** A setting that was not blocked neither blocks nor clears another path. */
  lemma {:induction false} ClearStays(m: map<string, Value>, p: Path, v: Value, q: Path)
    requires p != [] && q != [] && !PathsOverlap(p, q) && Clear(m, p)
    ensures Clear(SetIn(m, p, v), q) <==> Clear(m, q)
    decreases |p|
  {
    OverlapStep(p, q);
    if p[0] == q[0] {
      assert |p| > 1 && |q| > 1;
      ClearStays(Child(m, p[0]), p[1..], v, q[1..]);
      ClearEmpty(q[1..]);
    }
  }

  lemma ClearEmpty(q: Path)
    ensures Clear(map[], q)
  {
  }

  lemma {:induction false} FoundIsClear(m: map<string, Value>, q: Path)
    requires q != [] && GetIn(Obj(m), q).Some?
    ensures Clear(m, q)
    decreases |q|
  {
    if |q| > 1 {
      assert m[q[0]].Obj?;
      FoundIsClear(m[q[0]].members, q[1..]);
    }
  }

  predicate AllClear(m: map<string, Value>, changes: seq<Change>) {
    forall i | 0 <= i < |changes| :: Clear(m, changes[i].path)
  }

  lemma {:induction false} OwnPathClear(m: map<string, Value>, p: Path, v: Value)
    requires p != []
    ensures Clear(SetIn(m, p, v), p)
    decreases |p|
  {
    if |p| > 1 {
      OwnPathClear(Child(m, p[0]), p[1..], v);
    }
  }

  /** The SQLite steps keep every path as clear or as blocked as it was. */
  lemma {:induction false} LiteFoldClear(m: map<string, Value>, changes: seq<Change>, q: Path)
    requires q != [] && Paths(changes)
    requires forall i | 0 <= i < |changes| :: changes[i].path == q || !PathsOverlap(changes[i].path, q)
    ensures LiteFold(Obj(m), changes).Obj?
    ensures Clear(LiteFold(Obj(m), changes).members, q) <==> Clear(m, q)
    decreases |changes|
  {
    hide LitePut, Clear, PathsOverlap, SetIn;
    if changes != [] {
      var n := |changes| - 1;
      LiteFoldClear(m, changes[..n], q);
      var before := LiteFold(Obj(m), changes[..n]).members;
      PutClear(before, changes[n].path, changes[n].value);
      if changes[n].path == q {
        OwnPathClear(before, q, changes[n].value);
      } else if Clear(before, changes[n].path) {
        ClearStays(before, changes[n].path, changes[n].value, q);
      }
    }
  }

  lemma {:induction false} LiteFoldAgrees(m: map<string, Value>, changes: seq<Change>)
    requires Compatible(changes) && AllClear(m, changes)
    ensures LiteFold(Obj(m), changes) == Obj(Fold(m, changes))
    decreases |changes|
  {
    hide LitePut, Clear, PathsOverlap, SetIn;
    if changes != [] {
      var n := |changes| - 1;
      LiteFoldAgrees(m, changes[..n]);
      LiteFoldClear(m, changes[..n], changes[n].path);
      PutClear(LiteFold(Obj(m), changes[..n]).members, changes[n].path, changes[n].value);
    }
  }

  lemma {:induction false} LiteFoldRoot(v: Value, changes: seq<Change>)
    requires Paths(changes) && !v.Obj?
    ensures LiteFold(v, changes) == v
    decreases |changes|
  {
    if changes != [] {
      LiteFoldRoot(v, changes[..|changes| - 1]);
    }
  }

  /**
   The SQLite expression means the same fold exactly when the payload is NULL or an object in which every proper
   prefix of a changed path is absent or an object.
   */
  lemma SqlitePreservesMeaningIff(payload: Option<Value>, changes: seq<Change>, params: Params)
    requires changes != [] && Compatible(changes) && Bound(params, changes)
    requires AllValid(changes)
    ensures EvalLite(LiteExpression(changes), payload, params) == Val(Obj(Fold(Start(payload), changes)))
            <==> (payload.None? || payload.value.Obj?) && AllClear(Start(payload), changes)
  {
    hide EvalLite, LiteExpression, LitePut, Clear, PathsOverlap, ValidPath, SetIn, LiteFold, Fold;
    SqliteMeans(payload, changes, params);
    if payload.Some? && !payload.value.Obj? {
      LiteFoldRoot(payload.value, changes);
    } else if AllClear(Start(payload), changes) {
      LiteFoldAgrees(Start(payload), changes);
    } else {
      var i :| 0 <= i < |changes| && !Clear(Start(payload), changes[i].path);
      LiteFoldClear(Start(payload), changes, changes[i].path);
      PatchFinds(Start(payload), changes, i);
      FoundIsClear(Fold(Start(payload), changes), changes[i].path);
    }
  }

  /*** A patch of a declared resource ***/

  /**
   For an accepted definition and any patch of its JSON fields, PostgreSQL computes the fold or fails on the word
   null, and the two databases compute the same payload exactly when no segment is that word and no changed path is
   blocked in the payload.
   */
  lemma DialectsAgree(fields: seq<FieldSpec>, named: seq<NamedChange>, payload: Option<Value>, params: Params)
    requires Accepted(fields) && Normalized(fields, named).Some? && named != []
    requires Bound(params, Normalized(fields, named).value)
    ensures var changes := Normalized(fields, named).value;
            && AllValid(changes)
            && EvalPg(PgExpression(changes), payload, params)
               == (if SomeNullLike(changes) then Failed else Val(Obj(Fold(Start(payload), changes))))
            && (EvalLite(LiteExpression(changes), payload, params) == EvalPg(PgExpression(changes), payload, params)
                <==> && !SomeNullLike(changes)
                     && (payload.None? || payload.value.Obj?) && AllClear(Start(payload), changes))
  {
    hide EvalPg, EvalLite, PgExpression, LiteExpression, Accepted, PathsOverlap, ValidPath, AllClear, SomeNullLike,
         Fold, Bound, Normalized, Start, LiteFold;
    NormalizedPaths(fields, named);
    var changes := Normalized(fields, named).value;
    PostgresPreservesMeaning(payload, changes, params);
    SqliteMeans(payload, changes, params);
    SqlitePreservesMeaningIff(payload, changes, params);
  }

  /*** Inputs on which the databases part ways ***/

  // A resource with one JSON field.
  function OneField(path: Path): seq<FieldSpec> {
    [FieldSpec("f", InJson(path))]
  }

  lemma OneFieldAccepted(path: Path, v: Value)
    requires ValidPath(path)
    ensures Accepted(OneField(path))
    ensures Normalized(OneField(path), [NamedChange("f", v)]) == Some([Change(path, v)])
  {
    var fields, named := OneField(path), [NamedChange("f", v)];
    assert fields[..0] == [] && JsonFields(fields[..0]) == [];
    assert JsonFields(fields) == [fields[0]];
    var field := Declared(fields, named[0].name);
    assert field == Some(fields[0]);
    assert Normalized(fields, named[1..]) == Some([]) && [Change(path, v)] + [] == [Change(path, v)];
    assert Normalized(fields, named)
           == Some([Change(field.value.storage.path, named[0].value)] + Normalized(fields, named[1..]).value);
  }

  /** An accepted resource whose field lies at `null` cannot be patched in PostgreSQL, whatever its payload. */
  lemma NullSegmentExample(payload: Option<Value>, v: Value)
    ensures var fields, named := OneField(["null"]), [NamedChange("f", v)];
            && Accepted(fields) && Normalized(fields, named) == Some([Change(["null"], v)])
            && AllValid([Change(["null"], v)])
            && EvalPg(PgExpression([Change(["null"], v)]), payload, map[0 := v]) == Failed
  {
    hide EvalPg, PgExpression, Accepted, Normalized, Fold, Start;
    OneFieldAccepted(["null"], v);
    var changes := [Change(["null"], v)];
    assert changes[0].path[0] == "null" && NullWord(changes[0].path[0]);
    assert NullLike(changes[0].path);
    PostgresPreservesMeaning(payload, changes, map[0 := v]);
  }

  /** A number stored at `a` blocks a change of `a.b` in SQLite, where PostgreSQL replaces it by an object. */
  lemma BlockedPathExample(v: Value)
    ensures var changes, payload, params := [Change(["a", "b"], v)], Obj(map["a" := Num(1)]), map[0 := v];
            && Accepted(OneField(["a", "b"]))
            && Normalized(OneField(["a", "b"]), [NamedChange("f", v)]) == Some(changes)
            && AllValid(changes)
            && EvalLite(LiteExpression(changes), Some(payload), params) == Val(payload)
            && EvalPg(PgExpression(changes), Some(payload), params) == Val(Obj(map["a" := Obj(map["b" := v])]))
  {
    hide EvalPg, EvalLite, PgExpression, LiteExpression, Accepted, Normalized, ReadPostgres, ReadSqlite;
    OneFieldAccepted(["a", "b"], v);
    var changes := [Change(["a", "b"], v)];
    var m: map<string, Value> := map["a" := Num(1)];
    var payload := Obj(m);
    assert changes[..0] == [] && Fold(m, changes[..0]) == m && LiteFold(payload, changes[..0]) == payload;
    assert ["a", "b"][1..] == ["b"];
    PutClear(m, ["a", "b"], v);
    assert !Clear(m, ["a", "b"]);
    assert SetIn(map[], ["b"], v) == map["b" := v];
    assert m["a" := Obj(map["b" := v])] == map["a" := Obj(map["b" := v])];
    assert !NullLike(["a", "b"]);
    PostgresPreservesMeaning(Some(payload), changes, map[0 := v]);
    SqliteMeans(Some(payload), changes, map[0 := v]);
  }
}
