/** Printing a where tree as SQL text, and reading the text back with the AND/OR/parenthesis grammar. */
module WhereSql {
  import opened Common

  datatype Operator = And | Or

  // An opaque condition; a combined filter is two of them; everything else is refused.
  datatype Filter = Single(atom: nat) | Combined(first: nat, operator: Operator, second: nat) | Unsupported

  datatype Where = Where(operator: Option<Operator>, filters: Option<seq<Filter>>, children: seq<Where>)

  function OperatorOf(w: Where): Operator {
    if w.operator.Some? then w.operator.value else And
  }

  /*** The tree without its empty groups ***/

  datatype Expr = Leaf(atom: nat) | Group(operator: Operator, members: seq<Expr>)

  function FilterExpr(f: Filter): Expr {
    match f
    case Single(atom) => Leaf(atom)
    case Combined(a, op, b) => Group(op, [Leaf(a), Leaf(b)])
    case Unsupported => Group(And, [])
  }

  function FilterExprs(fs: seq<Filter>): seq<Expr> {
    if fs == [] then [] else FilterExprs(fs[..|fs| - 1]) + [FilterExpr(fs[|fs| - 1])]
  }

  // A node without filters prints as nothing, whatever its children are.
  function Prune(w: Where): Option<Expr>
    decreases w, 1, 0
  {
    if w.filters.None? then None
    else
      var members := FilterExprs(w.filters.value) + PruneAll(w, w.children);
      if members == [] then None else Some(Group(OperatorOf(w), members))
  }

  function PruneAll(ghost parent: Where, ws: seq<Where>): seq<Expr>
    requires forall i | 0 <= i < |ws| :: ws[i] < parent
    decreases parent, 0, |ws|
  {
    if ws == [] then []
    else
      var n := |ws| - 1;
      PruneAll(parent, ws[..n]) + (if Prune(ws[n]).Some? then [Prune(ws[n]).value] else [])
  }

  // What the printer can print; it does not look below a node without filters.
  predicate Supported(w: Where)
    decreases w
  {
    w.filters.Some? ==>
      && (forall i | 0 <= i < |w.filters.value| :: !w.filters.value[i].Unsupported?)
      && (forall i | 0 <= i < |w.children| :: Supported(w.children[i]))
  }

  /*** Texts ***/

  datatype Token = Open | Close | Op(operator: Operator) | Atom(atom: nat)

  function Word(op: Operator): string {
    match op case And => "AND" case Or => "OR"
  }

  function TokenText(t: Token, spell: nat -> string): string {
    match t
    case Open => "("
    case Close => ")"
    case Op(op) => " " + Word(op) + " "
    case Atom(a) => spell(a)
  }

  function Text(ts: seq<Token>, spell: nat -> string): string {
    if ts == [] then "" else TokenText(ts[0], spell) + Text(ts[1..], spell)
  }

  lemma {:induction false} TextAppend(s: seq<Token>, t: seq<Token>, spell: nat -> string)
    ensures Text(s + t, spell) == Text(s, spell) + Text(t, spell)
  {
    if s == [] {
      assert s + t == t;
    } else {
      assert (s + t)[1..] == s[1..] + t;
      TextAppend(s[1..], t, spell);
    }
  }

  // An expression as a factor: an atom or a group in parentheses.
  function Factor(e: Expr): seq<Token>
    decreases e, 2, 0
  {
    match e
    case Leaf(a) => [Atom(a)]
    case Group(op, members) => [Open] + Tokens(e) + [Close]
  }

  // A group without parentheses: its factors with the operator between them.
  function Tokens(e: Expr): seq<Token>
    decreases e, 1, 0
  {
    match e
    case Leaf(a) => [Atom(a)]
    case Group(op, members) => Joined(e, op, members)
  }

  function Joined(ghost parent: Expr, op: Operator, members: seq<Expr>): seq<Token>
    requires forall i | 0 <= i < |members| :: members[i] < parent
    decreases parent, 0, |members|
  {
    if members == [] then []
    else
      var n := |members| - 1;
      (if n == 0 then [] else Joined(parent, op, members[..n]) + [Op(op)]) + Factor(members[n])
  }

  function PrunedTokens(w: Where): seq<Token> {
    if Prune(w).Some? then Tokens(Prune(w).value) else []
  }

  // What the loops have appended: every factor followed by the operator.
  function Trail(op: Operator, members: seq<Expr>): seq<Token> {
    if members == [] then []
    else Trail(op, members[..|members| - 1]) + Factor(members[|members| - 1]) + [Op(op)]
  }

  lemma {:induction false} TrailIsJoined(e: Expr, op: Operator, members: seq<Expr>)
    requires members != [] && forall i | 0 <= i < |members| :: members[i] < e
    ensures Trail(op, members) == Joined(e, op, members) + [Op(op)]
    decreases |members|
  {
    var n := |members| - 1;
    if n > 0 {
      TrailIsJoined(e, op, members[..n]);
    } else {
      assert members[..0] == [];
    }
  }

  /*** Cutting the trailing operator ***/

  predicate OccursAt(s: string, t: string, i: nat)
    requires i + |t| <= |s|
  {
    s[i..i + |t|] == t
  }

  /** The last position up to end at which t occurs, or -1. */
  function LastIndexOf(s: string, t: string, end: int): (r: int)
    requires -1 <= end <= |s| - |t|
    ensures -1 <= r <= end
    ensures r >= 0 ==> OccursAt(s, t, r)
    ensures forall i | r < i <= end :: !OccursAt(s, t, i)
    decreases end + 1
  {
    if end == -1 || OccursAt(s, t, end) then end else LastIndexOf(s, t, end - 1)
  }

  // s.substring(0, s.lastIndexOf(t))
  function CutAtLast(s: string, t: string): string {
    if |s| < |t| then ""
    else
      var i := LastIndexOf(s, t, |s| - |t|);
      if i < 0 then "" else s[..i]
  }

  /** Whatever text precedes it, the two cuts remove exactly the trailing operator and the spaces around it. */
  lemma CutsRemoveTrailingOperator(q: string, op: Operator)
    ensures CutAtLast(CutAtLast(q + " " + Word(op) + " ", Word(op)), " ") == q
  {
    var w := Word(op);
    var s := q + " " + w + " ";
    var at := |q| + 1;
    assert OccursAt(s, w, at);
    assert |s| - |w| == at + 1;
    assert s[at + 1..at + 1 + |w|][|w| - 1] == s[|s| - 1] == ' ' != w[|w| - 1];
    assert !OccursAt(s, w, at + 1);
    assert LastIndexOf(s, w, |s| - |w|) == at;
    assert s[..at] == q + " ";
    var p := q + " ";
    assert OccursAt(p, " ", |q|);
    assert LastIndexOf(p, " ", |p| - 1) == |q|;
    assert p[..|q|] == q;
  }

  lemma CutsOfNothing(op: Operator)
    ensures CutAtLast(CutAtLast("", Word(op)), " ") == ""
  {
  }

  /*** The printer ***/

  lemma PairTokens(e: Expr, op: Operator, a: nat, b: nat)
    requires e == Group(op, [Leaf(a), Leaf(b)])
    ensures Factor(e) == [Open, Atom(a), Op(op), Atom(b), Close]
  {
    var members := [Leaf(a), Leaf(b)];
    assert members[..1] == [Leaf(a)];
    assert Joined(e, op, [Leaf(a)]) == [Atom(a)];
    assert Joined(e, op, members) == [Atom(a)] + [Op(op)] + [Atom(b)];
  }

  lemma FilterText(f: Filter, spell: nat -> string)
    requires !f.Unsupported?
    ensures f.Single? ==> Text(Factor(FilterExpr(f)), spell) == spell(f.atom)
    ensures f.Combined? ==>
              Text(Factor(FilterExpr(f)), spell)
              == "(" + spell(f.first) + " " + Word(f.operator) + " " + spell(f.second) + ")"
  {
    if f.Combined? {
      PairTokens(FilterExpr(f), f.operator, f.first, f.second);
      var t := [Op(f.operator), Atom(f.second), Close];
      assert t[1..] == [Atom(f.second), Close] && t[1..][1..] == [Close] && [Close][1..] == [];
      var s := [Open, Atom(f.first)] + t;
      assert s[1..] == [Atom(f.first)] + t && s[1..][1..] == t;
      assert Factor(FilterExpr(f)) == s;
      assert Text([Close], spell) == ")";
      assert Text(t[1..], spell) == spell(f.second) + ")";
      assert Text(t, spell) == " " + Word(f.operator) + " " + (spell(f.second) + ")");
      assert Text(s[1..], spell) == spell(f.first) + Text(t, spell);
    }
  }

  // Appending one factor and the operator.
  lemma TrailText(op: Operator, members: seq<Expr>, e: Expr, spell: nat -> string)
    ensures Text(Trail(op, members + [e]), spell)
            == Text(Trail(op, members), spell) + Text(Factor(e), spell) + " " + Word(op) + " "
  {
    var all := members + [e];
    assert all[..|all| - 1] == members;
    TextAppend(Trail(op, members) + Factor(e), [Op(op)], spell);
    TextAppend(Trail(op, members), Factor(e), spell);
    assert Text([Op(op)], spell) == " " + Word(op) + " " + Text([Op(op)][1..], spell);
  }

  lemma GroupText(e: Expr, spell: nat -> string)
    requires e.Group?
    ensures Text(Factor(e), spell) == "(" + Text(Tokens(e), spell) + ")"
  {
    TextAppend([Open] + Tokens(e), [Close], spell);
    TextAppend([Open], Tokens(e), spell);
    assert Text([Open], spell) == "(" && Text([Close], spell) == ")";
  }

  // Rendered conditions are never empty, so neither is a printed group.
  lemma TextNonempty(e: Expr, spell: nat -> string)
    requires e.Group? && e.members != [] && forall a :: spell(a) != ""
    ensures Text(Tokens(e), spell) != ""
  {
    var n := |e.members| - 1;
    var last := e.members[n];
    TextAppend(if n == 0 then [] else Joined(e, e.operator, e.members[..n]) + [Op(e.operator)], Factor(last), spell);
    if last.Group? {
      GroupText(last, spell);
    } else {
      assert Text([Atom(last.atom)], spell) == spell(last.atom) + Text([Atom(last.atom)][1..], spell);
    }
  }

  lemma CutTrail(w: Where, members: seq<Expr>, spell: nat -> string)
    requires w.filters.Some? && members == FilterExprs(w.filters.value) + PruneAll(w, w.children)
    ensures CutAtLast(CutAtLast(Text(Trail(OperatorOf(w), members), spell), Word(OperatorOf(w))), " ")
            == Text(PrunedTokens(w), spell)
  {
    hide Text, CutAtLast, Joined, Trail;
    var op := OperatorOf(w);
    if members == [] {
      CutsOfNothing(op);
      NoText(op, spell);
    } else {
      var e := Group(op, members);
      TrailIsJoined(e, op, members);
      TextAppend(Joined(e, op, members), [Op(op)], spell);
      OperatorText(op, spell);
      var q := Text(Tokens(e), spell);
      CutsRemoveTrailingOperator(q, op);
      assert q + (" " + Word(op) + " ") == q + " " + Word(op) + " ";
    }
  }

  lemma NoText(op: Operator, spell: nat -> string)
    ensures Text(Trail(op, []), spell) == "" == Text([], spell)
  {
  }

  lemma OperatorText(op: Operator, spell: nat -> string)
    ensures Text([Op(op)], spell) == " " + Word(op) + " "
  {
    assert Text([Op(op)], spell) == " " + Word(op) + " " + Text([Op(op)][1..], spell);
  }

  lemma PrunedGroup(w: Where)
    requires Prune(w).Some?
    ensures Prune(w).value.Group? && Prune(w).value.members != []
  {
  }

  // The text of one supported filter.
  function FilterPiece(f: Filter, spell: nat -> string): string {
    match f
    case Single(a) => spell(a)
    case Combined(a, op, b) => "(" + spell(a) + " " + Word(op) + " " + spell(b) + ")"
    case Unsupported => ""
  }

  lemma FilterAppends(op: Operator, filters: seq<Filter>, i: nat, spell: nat -> string)
    requires i < |filters| && !filters[i].Unsupported?
    ensures Text(Trail(op, FilterExprs(filters[..i + 1])), spell)
            == Text(Trail(op, FilterExprs(filters[..i])), spell) + FilterPiece(filters[i], spell) + " " + Word(op) + " "
  {
    assert filters[..i + 1][..i] == filters[..i];
    hide Text, Trail, Factor;
    FilterText(filters[i], spell);
    TrailText(op, FilterExprs(filters[..i]), FilterExpr(filters[i]), spell);
  }

  // The members the loops have appended when i children are done.
  function Appended(w: Where, i: nat): seq<Expr>
    requires w.filters.Some? && i <= |w.children|
  {
    FilterExprs(w.filters.value) + PruneAll(w, w.children[..i])
  }

  lemma ChildAppends(w: Where, i: nat, spell: nat -> string)
    requires w.filters.Some? && i < |w.children| && forall a :: spell(a) != ""
    ensures var op, generated := OperatorOf(w), Text(PrunedTokens(w.children[i]), spell);
            Text(Trail(op, Appended(w, i + 1)), spell)
            == Text(Trail(op, Appended(w, i)), spell)
               + (if generated == "" then "" else "(" + generated + ")" + " " + Word(op) + " ")
  {
    var child := w.children[i];
    assert w.children[..i + 1][..i] == w.children[..i];
    if Prune(child).Some? {
      PrunedGroup(child);
      var e := Prune(child).value;
      TextNonempty(e, spell);
      GroupText(e, spell);
      TrailText(OperatorOf(w), Appended(w, i), e, spell);
      assert Appended(w, i + 1) == Appended(w, i) + [e];
    } else {
      assert Appended(w, i + 1) == Appended(w, i);
    }
  }

  // The start of the loops, their end, and what they check.
  lemma LoopBounds(w: Where, spell: nat -> string)
    ensures w.filters.None? ==> Supported(w) && Text(PrunedTokens(w), spell) == ""
    ensures w.filters.Some? ==>
              && (Supported(w) <==>
                    && (forall i | 0 <= i < |w.filters.value| :: !w.filters.value[i].Unsupported?)
                    && (forall i | 0 <= i < |w.children| :: Supported(w.children[i])))
              && Text(Trail(OperatorOf(w), FilterExprs(w.filters.value[..0])), spell) == ""
              && Appended(w, 0) == FilterExprs(w.filters.value[..|w.filters.value|])
              && Appended(w, |w.children|) == FilterExprs(w.filters.value) + PruneAll(w, w.children)
  {
    if w.filters.Some? {
      assert w.children[..|w.children|] == w.children;
      assert w.filters.value[..|w.filters.value|] == w.filters.value;
    }
  }

  /**
   The two loops and the two cuts. For every spelling of the conditions the result is the text of the tree without
   its empty groups, and reads back with its truth value; it fails exactly when a filter it comes across is not
   supported.
   */
  method WhereObjectToSqlString(w: Where, spell: nat -> string) returns (sql: Option<string>)
    requires forall a :: spell(a) != ""
    ensures sql.Some? <==> Supported(w)
    ensures sql.Some? ==> sql.value == Text(PrunedTokens(w), spell)
    ensures sql.Some? ==> forall recog, env :: Recognises(recog, spell) ==> Means(sql.value, recog, w, env)
    decreases w
  {
    hide *;
    LoopBounds(w, spell);
    var text := "";
    var op := OperatorOf(w);
    if Supported(w) {
      PrintedMeans(w, spell);
    }
    if w.filters.None? {
      return Some(text);
    }
    var filters := w.filters.value;
    for i := 0 to |filters|
      invariant forall k | 0 <= k < i :: !filters[k].Unsupported?
      invariant text == Text(Trail(op, FilterExprs(filters[..i])), spell)
    {
      if filters[i].Unsupported? {
        return None;
      }
      FilterAppends(op, filters, i, spell);
      text := text + FilterPiece(filters[i], spell) + " " + Word(op) + " ";
    }
    for i := 0 to |w.children|
      invariant forall k | 0 <= k < i :: Supported(w.children[k])
      invariant text == Text(Trail(op, Appended(w, i)), spell)
    {
      var generated := WhereObjectToSqlString(w.children[i], spell);
      if generated.None? {
        return None;
      }
      ChildAppends(w, i, spell);
      if generated.value != "" {
        text := text + ("(" + generated.value + ")" + " " + Word(op) + " ");
      }
    }
    CutTrail(w, Appended(w, |w.children|), spell);
    text := CutAtLast(text, Word(op));
    text := CutAtLast(text, " ");
    return Some(text);
  }

  /*** Reading the text back ***/

  datatype Formula = Lit(atom: nat) | Both(Formula, Formula) | Either(Formula, Formula)

  predicate Eval(f: Formula, env: nat -> bool) {
    match f
    case Lit(a) => env(a)
    case Both(x, y) => Eval(x, env) && Eval(y, env)
    case Either(x, y) => Eval(x, env) || Eval(y, env)
  }

  type Parsed = Option<(Formula, seq<Token>)>

  // factor: an atom or a disjunction in parentheses.
  function ParseFactor(ts: seq<Token>): (r: Parsed)
    ensures r.Some? ==> |r.value.1| < |ts|
    decreases |ts|, 0
  {
    if ts == [] then None
    else if ts[0].Atom? then Some((Lit(ts[0].atom), ts[1..]))
    else if ts[0].Open? then
      var inner := ParseOr(ts[1..]);
      if inner.None? || inner.value.1 == [] || !inner.value.1[0].Close? then None
      else Some((inner.value.0, inner.value.1[1..]))
    else None
  }

  // conjunction: factors joined by AND.
  function ParseAnd(ts: seq<Token>): (r: Parsed)
    ensures r.Some? ==> |r.value.1| < |ts|
    decreases |ts|, 2
  {
    var first := ParseFactor(ts);
    if first.None? then None else MoreAnd(first.value.0, first.value.1)
  }

  function MoreAnd(f: Formula, ts: seq<Token>): (r: Parsed)
    ensures r.Some? ==> |r.value.1| <= |ts|
    decreases |ts|, 1
  {
    if ts == [] || ts[0] != Op(And) then Some((f, ts))
    else
      var next := ParseFactor(ts[1..]);
      if next.None? then None else MoreAnd(Both(f, next.value.0), next.value.1)
  }

  // disjunction: conjunctions joined by OR.
  function ParseOr(ts: seq<Token>): (r: Parsed)
    ensures r.Some? ==> |r.value.1| < |ts|
    decreases |ts|, 4
  {
    var first := ParseAnd(ts);
    if first.None? then None else MoreOr(first.value.0, first.value.1)
  }

  function MoreOr(f: Formula, ts: seq<Token>): (r: Parsed)
    ensures r.Some? ==> |r.value.1| <= |ts|
    decreases |ts|, 3
  {
    if ts == [] || ts[0] != Op(Or) then Some((f, ts))
    else
      var next := ParseAnd(ts[1..]);
      if next.None? then None else MoreOr(Either(f, next.value.0), next.value.1)
  }

  /*** The text means the tree ***/

  // The truth of an expression; groups are never empty.
  predicate Truth(e: Expr, env: nat -> bool) {
    match e
    case Leaf(a) => env(a)
    case Group(And, members) => forall i | 0 <= i < |members| :: Truth(members[i], env)
    case Group(Or, members) => exists i | 0 <= i < |members| :: Truth(members[i], env)
  }

  predicate NonemptyGroups(e: Expr) {
    e.Group? ==> e.members != [] && forall i | 0 <= i < |e.members| :: NonemptyGroups(e.members[i])
  }

  // The formula of a group: its factors nested to the left.
  function Meaning(e: Expr): Formula
    requires NonemptyGroups(e)
    decreases e, 1, 0
  {
    match e
    case Leaf(a) => Lit(a)
    case Group(op, members) => Nested(e, op, members)
  }

  function Nested(ghost parent: Expr, op: Operator, members: seq<Expr>): Formula
    requires members != [] && forall i | 0 <= i < |members| :: members[i] < parent && NonemptyGroups(members[i])
    decreases parent, 0, |members|
  {
    var n := |members| - 1;
    var last := Meaning(members[n]);
    if n == 0 then last
    else if op == And then Both(Nested(parent, op, members[..n]), last)
    else Either(Nested(parent, op, members[..n]), last)
  }

  lemma {:induction false} MeaningIsTruth(e: Expr, env: nat -> bool)
    requires NonemptyGroups(e)
    ensures Eval(Meaning(e), env) == Truth(e, env)
    decreases e, 1, 0
  {
    if e.Group? {
      NestedIsTruth(e, e.operator, e.members, env);
      assert Truth(e, env) == if e.operator == And then forall i | 0 <= i < |e.members| :: Truth(e.members[i], env)
                              else exists i | 0 <= i < |e.members| :: Truth(e.members[i], env);
    }
  }

  lemma {:induction false} NestedIsTruth(parent: Expr, op: Operator, members: seq<Expr>, env: nat -> bool)
    requires members != [] && forall i | 0 <= i < |members| :: members[i] < parent && NonemptyGroups(members[i])
    ensures op == And ==> (Eval(Nested(parent, op, members), env) <==>
                             forall i | 0 <= i < |members| :: Truth(members[i], env))
    ensures op == Or ==> (Eval(Nested(parent, op, members), env) <==>
                            exists i | 0 <= i < |members| :: Truth(members[i], env))
    decreases parent, 0, |members|
  {
    hide Truth;
    var n := |members| - 1;
    MeaningIsTruth(members[n], env);
    if n > 0 {
      NestedIsTruth(parent, op, members[..n], env);
      assert forall i | 0 <= i < n :: members[..n][i] == members[i];
    }
  }

  // What may follow a group: the end or a closing parenthesis.
  predicate Ends(rest: seq<Token>) {
    rest == [] || rest[0].Close?
  }

  lemma {:induction false} FactorParses(e: Expr, rest: seq<Token>)
    requires NonemptyGroups(e)
    ensures ParseFactor(Factor(e) + rest) == Some((Meaning(e), rest))
    decreases e, 2, 0
  {
    var ts := Factor(e) + rest;
    match e
    case Leaf(a) =>
      assert ts[1..] == rest;
    case Group(op, members) =>
      assert ts[1..] == Tokens(e) + ([Close] + rest);
      GroupParses(e, [Close] + rest);
      assert ([Close] + rest)[1..] == rest;
  }

  // Joining one more member.
  lemma JoinedStep(e: Expr, op: Operator, members: seq<Expr>, rest: seq<Token>)
    requires |members| > 1 && forall i | 0 <= i < |members| :: members[i] < e
    ensures var n := |members| - 1;
            Joined(e, op, members) + rest
            == Joined(e, op, members[..n]) + ([Op(op)] + (Factor(members[n]) + rest))
  {
  }

  lemma {:induction false} AndParses(e: Expr, members: seq<Expr>, rest: seq<Token>)
    requires members != [] && forall i | 0 <= i < |members| :: members[i] < e && NonemptyGroups(members[i])
    ensures ParseAnd(Joined(e, And, members) + rest) == MoreAnd(Nested(e, And, members), rest)
    decreases e, 0, |members|
  {
    hide ParseFactor, Factor, Tokens;
    var n := |members| - 1;
    FactorParses(members[n], rest);
    if n == 0 {
      assert Joined(e, And, members) == [] + Factor(members[0]);
      assert Joined(e, And, members) + rest == Factor(members[0]) + rest;
    } else {
      JoinedStep(e, And, members, rest);
      var tail := [Op(And)] + (Factor(members[n]) + rest);
      AndParses(e, members[..n], tail);
      assert tail[1..] == Factor(members[n]) + rest;
    }
  }

  lemma {:induction false} OrParses(e: Expr, members: seq<Expr>, rest: seq<Token>)
    requires members != [] && forall i | 0 <= i < |members| :: members[i] < e && NonemptyGroups(members[i])
    requires rest != [] ==> rest[0] != Op(And)
    ensures ParseOr(Joined(e, Or, members) + rest) == MoreOr(Nested(e, Or, members), rest)
    decreases e, 0, |members|
  {
    hide ParseFactor, Factor, Tokens;
    var n := |members| - 1;
    FactorParses(members[n], rest);
    assert ParseAnd(Factor(members[n]) + rest) == Some((Meaning(members[n]), rest));
    if n == 0 {
      assert Joined(e, Or, members) == [] + Factor(members[0]);
      assert Joined(e, Or, members) + rest == Factor(members[0]) + rest;
    } else {
      JoinedStep(e, Or, members, rest);
      var tail := [Op(Or)] + (Factor(members[n]) + rest);
      OrParses(e, members[..n], tail);
      assert tail[1..] == Factor(members[n]) + rest;
    }
  }

  /** A printed group reads back as the formula of its members. */
  lemma {:induction false} GroupParses(e: Expr, rest: seq<Token>)
    requires e.Group? && NonemptyGroups(e) && Ends(rest)
    ensures ParseOr(Tokens(e) + rest) == Some((Meaning(e), rest))
    decreases e, 1, 0
  {
    hide ParseFactor;
    if e.operator == And {
      AndParses(e, e.members, rest);
    } else {
      OrParses(e, e.members, rest);
    }
  }

  lemma {:induction false} FilterExprsNonempty(fs: seq<Filter>)
    requires forall i | 0 <= i < |fs| :: !fs[i].Unsupported?
    ensures forall i | 0 <= i < |FilterExprs(fs)| :: NonemptyGroups(FilterExprs(fs)[i])
  {
    if fs != [] {
      FilterExprsNonempty(fs[..|fs| - 1]);
    }
  }

  lemma {:induction false} PruneNonempty(w: Where)
    requires Supported(w) && Prune(w).Some?
    ensures Prune(w).value.Group? && NonemptyGroups(Prune(w).value)
    decreases w, 1, 0
  {
    FilterExprsNonempty(w.filters.value);
    PruneAllNonempty(w, w.children);
  }

  lemma {:induction false} PruneAllNonempty(parent: Where, ws: seq<Where>)
    requires forall i | 0 <= i < |ws| :: ws[i] < parent && Supported(ws[i])
    ensures forall i | 0 <= i < |PruneAll(parent, ws)| :: NonemptyGroups(PruneAll(parent, ws)[i])
    decreases parent, 0, |ws|
  {
    if ws != [] {
      var n := |ws| - 1;
      PruneAllNonempty(parent, ws[..n]);
      if Prune(ws[n]).Some? {
        PruneNonempty(ws[n]);
      }
    }
  }

  // The printed tokens read back as one formula, with nothing left over, that has the tree's truth value.
  lemma TokensPreserveMeaning(w: Where, env: nat -> bool)
    requires Supported(w) && Prune(w).Some?
    ensures ParseOr(PrunedTokens(w)).Some? && ParseOr(PrunedTokens(w)).value.1 == []
    ensures Eval(ParseOr(PrunedTokens(w)).value.0, env) == Truth(Prune(w).value, env)
  {
    var e := Prune(w).value;
    PruneNonempty(w);
    GroupParses(e, []);
    assert Tokens(e) + [] == Tokens(e);
    MeaningIsTruth(e, env);
  }

  /*** Reading a string ***/

  // How a reader recognises the condition a text starts with, and what is left after it.
  type Recogniser = string -> Option<(nat, string)>

  // What may follow a condition.
  predicate Delimits(s: string) {
    s == "" || s[0] == ')' || " AND " <= s || " OR " <= s
  }

  // Conditions are told apart wherever they stand, and none looks like the start of a group.
  ghost predicate Recognises(recog: Recogniser, spell: nat -> string) {
    forall a: nat, rest: string | Delimits(rest) ::
      spell(a) != "" && spell(a)[0] != '(' && recog(spell(a) + rest) == Some((a, rest))
  }

  function After(t: Token, rest: Option<seq<Token>>): Option<seq<Token>> {
    if rest.None? then None else Some([t] + rest.value)
  }

  // The tokens of a text: where an operand is due, a group or a condition; elsewhere an operator or an end.
  function Lex(s: string, operand: bool, recog: Recogniser): Option<seq<Token>>
    decreases |s|
  {
    if s == "" then if operand then None else Some([])
    else if operand then
      if s[0] == '(' then After(Open, Lex(s[1..], true, recog))
      else if recog(s).Some? && |recog(s).value.1| < |s|
      then After(Atom(recog(s).value.0), Lex(recog(s).value.1, false, recog))
      else None
    else if s[0] == ')' then After(Close, Lex(s[1..], false, recog))
    else if " AND " <= s then After(Op(And), Lex(s[5..], true, recog))
    else if " OR " <= s then After(Op(Or), Lex(s[4..], true, recog))
    else None
  }

  /** The formula a text means to the grammar, if it is one. */
  function Read(s: string, recog: Recogniser): Option<Formula> {
    var ts := Lex(s, true, recog);
    if ts.None? then None
    else
      var parsed := ParseOr(ts.value);
      if parsed.Some? && parsed.value.1 == [] then Some(parsed.value.0) else None
  }

  // Operands stand where they are due.
  predicate Placed(ts: seq<Token>, operand: bool) {
    if ts == [] then !operand
    else
      match ts[0]
      case Open => operand && Placed(ts[1..], true)
      case Atom(_) => operand && Placed(ts[1..], false)
      case Op(_) => !operand && Placed(ts[1..], true)
      case Close => !operand && Placed(ts[1..], false)
  }

  lemma PlacedDelimits(ts: seq<Token>, spell: nat -> string)
    requires Placed(ts, false)
    ensures Delimits(Text(ts, spell))
  {
    if ts != [] && ts[0].Op? {
      assert Text(ts, spell) == (" " + Word(ts[0].operator) + " ") + Text(ts[1..], spell);
    }
  }

  lemma LexOperator(op: Operator, rest: string, recog: Recogniser)
    ensures Lex(" " + Word(op) + " " + rest, false, recog) == After(Op(op), Lex(rest, true, recog))
  {
    var s := " " + Word(op) + " " + rest;
    if op == And {
      assert s == " AND " + rest && s[5..] == rest;
    } else {
      assert s == " OR " + rest && s[4..] == rest && s[1] == 'O';
    }
  }

  lemma LexAtom(a: nat, rest: string, spell: nat -> string, recog: Recogniser)
    requires Recognises(recog, spell) && Delimits(rest)
    ensures Lex(spell(a) + rest, true, recog) == After(Atom(a), Lex(rest, false, recog))
  {
    var s := spell(a) + rest;
    assert s[0] == spell(a)[0];
  }

  /** A text of well placed tokens is read back token by token. */
  lemma {:induction false} LexText(ts: seq<Token>, operand: bool, spell: nat -> string, recog: Recogniser)
    requires Recognises(recog, spell) && Placed(ts, operand)
    ensures Lex(Text(ts, spell), operand, recog) == Some(ts)
    decreases |ts|
  {
    if ts != [] {
      var rest := Text(ts[1..], spell);
      assert ts == [ts[0]] + ts[1..];
      match ts[0]
      case Open =>
        LexText(ts[1..], true, spell, recog);
        assert ("(" + rest)[1..] == rest;
      case Close =>
        LexText(ts[1..], false, spell, recog);
        assert (")" + rest)[1..] == rest;
      case Op(op) =>
        LexText(ts[1..], true, spell, recog);
        LexOperator(op, rest, recog);
      case Atom(a) =>
        LexText(ts[1..], false, spell, recog);
        PlacedDelimits(ts[1..], spell);
        LexAtom(a, rest, spell, recog);
    }
  }

  lemma {:induction false} FactorPlaced(e: Expr, rest: seq<Token>)
    requires NonemptyGroups(e) && Placed(rest, false)
    ensures Placed(Factor(e) + rest, true)
    decreases e, 2, 0
  {
    var ts := Factor(e) + rest;
    match e
    case Leaf(a) =>
      assert ts[1..] == rest;
    case Group(op, members) =>
      assert ([Close] + rest)[1..] == rest;
      JoinedPlaced(e, op, members, [Close] + rest);
      assert Tokens(e) == Joined(e, op, members);
      assert ts[1..] == Tokens(e) + ([Close] + rest);
  }

  lemma {:induction false} JoinedPlaced(e: Expr, op: Operator, members: seq<Expr>, rest: seq<Token>)
    requires members != [] && forall i | 0 <= i < |members| :: members[i] < e && NonemptyGroups(members[i])
    requires Placed(rest, false)
    ensures Placed(Joined(e, op, members) + rest, true)
    decreases e, 0, |members|
  {
    hide Placed, Factor;
    var n := |members| - 1;
    FactorPlaced(members[n], rest);
    if n == 0 {
      assert Joined(e, op, members) == [] + Factor(members[0]);
      assert Joined(e, op, members) + rest == Factor(members[0]) + rest;
    } else {
      JoinedStep(e, op, members, rest);
      OperatorPlaced(op, Factor(members[n]) + rest);
      JoinedPlaced(e, op, members[..n], [Op(op)] + (Factor(members[n]) + rest));
    }
  }

  lemma OperatorPlaced(op: Operator, ts: seq<Token>)
    requires Placed(ts, true)
    ensures Placed([Op(op)] + ts, false)
  {
    assert ([Op(op)] + ts)[1..] == ts;
  }

  lemma PrunedPlaced(w: Where)
    requires Supported(w) && Prune(w).Some?
    ensures Placed(PrunedTokens(w), true)
  {
    hide Placed, Prune;
    PruneNonempty(w);
    var e := Prune(w).value;
    NothingPlaced();
    JoinedPlaced(e, e.operator, e.members, []);
    assert Joined(e, e.operator, e.members) + [] == Joined(e, e.operator, e.members);
  }

  lemma NothingPlaced()
    ensures Placed([], false)
  {
  }

  /**
   The printed string reads back as one formula that has the truth value of the tree without its empty groups under
   every assignment to the conditions, for every spelling that tells the conditions apart.
   */
  lemma PrintingPreservesMeaning(w: Where, spell: nat -> string, recog: Recogniser, env: nat -> bool)
    requires Supported(w) && Prune(w).Some? && Recognises(recog, spell)
    ensures Read(Text(PrunedTokens(w), spell), recog).Some?
    ensures Eval(Read(Text(PrunedTokens(w), spell), recog).value, env) == Truth(Prune(w).value, env)
  {
    hide Lex, Text, PrunedTokens, ParseOr, Eval, Truth, Prune, Supported, Recognises;
    TokensPreserveMeaning(w, env);
    PrunedPlaced(w);
    LexText(PrunedTokens(w), true, spell, recog);
  }

  // What a printed string says of its tree: nothing if no condition is left, and the tree's truth value otherwise.
  predicate Means(sql: string, recog: Recogniser, w: Where, env: nat -> bool) {
    if Prune(w).None? then sql == ""
    else Read(sql, recog).Some? && Eval(Read(sql, recog).value, env) == Truth(Prune(w).value, env)
  }

  lemma PrintedMeans(w: Where, spell: nat -> string)
    requires Supported(w)
    ensures forall recog, env :: Recognises(recog, spell) ==> Means(Text(PrunedTokens(w), spell), recog, w, env)
  {
    forall recog, env | Recognises(recog, spell) ensures Means(Text(PrunedTokens(w), spell), recog, w, env) {
      hide Recognises, Read, Supported;
      if Prune(w).Some? {
        PrintingPreservesMeaning(w, spell, recog, env);
      }
    }
  }

  // A spelling that every reader of it tells apart: one letter for each number, and an end mark.
  function Tally(a: nat): string {
    if a == 0 then ['='] else ['c'] + Tally(a - 1)
  }

  function ReadTally(s: string): Option<(nat, string)> {
    if s == "" then None
    else if s[0] == '=' then Some((0, s[1..]))
    else if s[0] == 'c' then
      var more := ReadTally(s[1..]);
      if more.None? then None else Some((more.value.0 + 1, more.value.1))
    else None
  }

  lemma MarkReads(s: string)
    ensures ReadTally(['='] + s) == Some((0, s))
  {
    assert (['='] + s)[1..] == s;
  }

  lemma CountReads(s: string)
    requires ReadTally(s).Some?
    ensures ReadTally(['c'] + s) == Some((ReadTally(s).value.0 + 1, ReadTally(s).value.1))
  {
    assert (['c'] + s)[1..] == s;
  }

  lemma {:induction false} TallyReads(a: nat, rest: string)
    ensures ReadTally(Tally(a) + rest) == Some((a, rest))
  {
    hide ReadTally;
    if a == 0 {
      MarkReads(rest);
    } else {
      TallyReads(a - 1, rest);
      CountReads(Tally(a - 1) + rest);
      assert Tally(a) + rest == ['c'] + (Tally(a - 1) + rest);
    }
  }

  lemma TallyRecognised()
    ensures Recognises(ReadTally, Tally)
  {
    forall a: nat, rest: string | Delimits(rest)
      ensures Tally(a) != "" && Tally(a)[0] != '(' && ReadTally(Tally(a) + rest) == Some((a, rest))
    {
      TallyReads(a, rest);
    }
  }

  /*** Nodes without filters ***/

  // The tree with every group that holds a condition, whether its node declares filters or not.
  function Intended(w: Where): Option<Expr>
    decreases w, 1, 0
  {
    var members := (if w.filters.Some? then FilterExprs(w.filters.value) else []) + IntendedAll(w, w.children);
    if members == [] then None else Some(Group(OperatorOf(w), members))
  }

  function IntendedAll(ghost parent: Where, ws: seq<Where>): seq<Expr>
    requires forall i | 0 <= i < |ws| :: ws[i] < parent
    decreases parent, 0, |ws|
  {
    if ws == [] then []
    else
      var n := |ws| - 1;
      IntendedAll(parent, ws[..n]) + (if Intended(ws[n]).Some? then [Intended(ws[n]).value] else [])
  }

  // Every node that is looked at and has conditions below it declares filters.
  predicate Declares(w: Where)
    decreases w
  {
    if w.filters.None? then Intended(w).None?
    else forall i | 0 <= i < |w.children| :: Declares(w.children[i])
  }

  lemma {:induction false} IntendedAllPrefix(parent: Where, ws: seq<Where>)
    requires forall i | 0 <= i < |ws| :: ws[i] < parent
    ensures |PruneAll(parent, ws)| <= |IntendedAll(parent, ws)|
    decreases parent, 0, |ws|
  {
    if ws != [] {
      var n := |ws| - 1;
      IntendedAllPrefix(parent, ws[..n]);
      PrunedIsIntended(ws[n]);
    }
  }

  lemma {:induction false} PrunedIsIntended(w: Where)
    ensures Prune(w).Some? ==> Intended(w).Some?
    decreases w, 1, 0
  {
    IntendedAllPrefix(w, w.children);
  }

  lemma {:induction false} NothingLostIff(w: Where)
    ensures Prune(w) == Intended(w) <==> Declares(w)
    decreases w, 1, 0
  {
    if w.filters.Some? {
      NothingLostAll(w, w.children);
      var own := FilterExprs(w.filters.value);
      var p, q := PruneAll(w, w.children), IntendedAll(w, w.children);
      assert (own + p)[|own|..] == p && (own + q)[|own|..] == q;
    }
  }

  lemma {:induction false} NothingLostAll(parent: Where, ws: seq<Where>)
    requires forall i | 0 <= i < |ws| :: ws[i] < parent
    ensures PruneAll(parent, ws) == IntendedAll(parent, ws) <==> forall i | 0 <= i < |ws| :: Declares(ws[i])
    decreases parent, 0, |ws|
  {
    if ws != [] {
      var n := |ws| - 1;
      var p, q := PruneAll(parent, ws[..n]), IntendedAll(parent, ws[..n]);
      NothingLostAll(parent, ws[..n]);
      NothingLostIff(ws[n]);
      PrunedIsIntended(ws[n]);
      IntendedAllPrefix(parent, ws[..n]);
      SameAppended(p, q, Prune(ws[n]), Intended(ws[n]));
      AllDeclare(ws, ws[..n]);
    }
  }

  lemma SameAppended(p: seq<Expr>, q: seq<Expr>, x: Option<Expr>, y: Option<Expr>)
    requires |p| <= |q| && (x.Some? ==> y.Some?)
    ensures p + (if x.Some? then [x.value] else []) == q + (if y.Some? then [y.value] else [])
            <==> p == q && x == y
  {
    if x.Some? && p + [x.value] == q + [y.value] {
      assert (p + [x.value])[|p|] == x.value && (q + [y.value])[|q|] == y.value;
      assert (p + [x.value])[..|p|] == p && (q + [y.value])[..|q|] == q;
    }
    if x.None? {
      assert p + [] == p && q + [] == q;
      if y.Some? {
        assert |q + [y.value]| > |p|;
      }
    }
  }

  lemma AllDeclare(ws: seq<Where>, front: seq<Where>)
    requires ws != [] && front == ws[..|ws| - 1]
    ensures (forall i | 0 <= i < |ws| :: Declares(ws[i]))
            <==> (forall i | 0 <= i < |front| :: Declares(front[i])) && Declares(ws[|ws| - 1])
  {
    hide Declares;
    if (forall i | 0 <= i < |front| :: Declares(front[i])) && Declares(ws[|ws| - 1]) {
      forall i | 0 <= i < |ws| ensures Declares(ws[i]) {
        assert i < |front| ==> front[i] == ws[i];
      }
    }
  }

  /**
   A where tree keeps all its conditions exactly when no node that carries conditions below it lacks filters;
   otherwise the conditions under such a node are dropped from the text.
   */
  lemma ConditionsKeptIff(w: Where)
    ensures Prune(w) == Intended(w) <==> Declares(w)
    ensures w.filters.None? ==> PrunedTokens(w) == []
  {
    NothingLostIff(w);
  }

  /*** The text means the tree as it was given ***/

  predicate FilterHolds(f: Filter, env: nat -> bool) {
    match f
    case Single(a) => env(a)
    case Combined(a, And, b) => env(a) && env(b)
    case Combined(a, Or, b) => env(a) || env(b)
    case Unsupported => true
  }

  // The node or a node below it has a filter.
  predicate Conditioned(w: Where)
    decreases w
  {
    || (w.filters.Some? && w.filters.value != [])
    || exists i | 0 <= i < |w.children| :: Conditioned(w.children[i])
  }

  // What the tree asks for: all of its filters and of its children that have conditions, or one of them if the node
  // says so.
  predicate Holds(w: Where, env: nat -> bool)
    decreases w
  {
    if w.operator == Some(Or) then
      || (w.filters.Some? && exists i | 0 <= i < |w.filters.value| :: FilterHolds(w.filters.value[i], env))
      || exists i | 0 <= i < |w.children| :: Conditioned(w.children[i]) && Holds(w.children[i], env)
    else
      && (w.filters.Some? ==> forall i | 0 <= i < |w.filters.value| :: FilterHolds(w.filters.value[i], env))
      && forall i | 0 <= i < |w.children| :: Conditioned(w.children[i]) ==> Holds(w.children[i], env)
  }

  predicate AllTrue(es: seq<Expr>, env: nat -> bool) {
    forall i | 0 <= i < |es| :: Truth(es[i], env)
  }

  predicate SomeTrue(es: seq<Expr>, env: nat -> bool) {
    exists i | 0 <= i < |es| :: Truth(es[i], env)
  }

  lemma GroupTruth(op: Operator, es: seq<Expr>, env: nat -> bool)
    ensures Truth(Group(op, es), env) <==> if op == And then AllTrue(es, env) else SomeTrue(es, env)
  {
  }

  lemma JoinedTruth(es: seq<Expr>, fs: seq<Expr>, env: nat -> bool)
    ensures AllTrue(es + fs, env) <==> AllTrue(es, env) && AllTrue(fs, env)
    ensures SomeTrue(es + fs, env) <==> SomeTrue(es, env) || SomeTrue(fs, env)
  {
    hide Truth;
    var all := es + fs;
    assert forall i | 0 <= i < |es| :: all[i] == es[i];
    assert forall i | 0 <= i < |fs| :: all[|es| + i] == fs[i];
    if AllTrue(all, env) {
      forall i | 0 <= i < |fs| ensures Truth(fs[i], env) {
        assert all[|es| + i] == fs[i];
      }
    }
    if i :| 0 <= i < |fs| && Truth(fs[i], env) {
      assert Truth(all[|es| + i], env);
    }
    if i :| 0 <= i < |all| && Truth(all[i], env) {
      assert if i < |es| then all[i] == es[i] else all[i] == fs[i - |es|];
    }
  }

  lemma OneOf(e: Expr, env: nat -> bool)
    ensures AllTrue([e], env) == SomeTrue([e], env) == Truth(e, env)
    ensures AllTrue([], env) && !SomeTrue([], env)
  {
    assert [e][0] == e;
  }

  lemma FilterTruth(f: Filter, env: nat -> bool)
    ensures Truth(FilterExpr(f), env) == FilterHolds(f, env)
  {
    match f
    case Single(a) =>
    case Combined(a, op, b) =>
      GroupTruth(op, [Leaf(a), Leaf(b)], env);
      JoinedTruth([Leaf(a)], [Leaf(b)], env);
      OneOf(Leaf(a), env);
      OneOf(Leaf(b), env);
      assert [Leaf(a), Leaf(b)] == [Leaf(a)] + [Leaf(b)];
    case Unsupported =>
  }

  lemma {:induction false} FiltersTruth(fs: seq<Filter>, env: nat -> bool)
    ensures |FilterExprs(fs)| == |fs|
    ensures AllTrue(FilterExprs(fs), env) <==> forall i | 0 <= i < |fs| :: FilterHolds(fs[i], env)
    ensures SomeTrue(FilterExprs(fs), env) <==> exists i | 0 <= i < |fs| :: FilterHolds(fs[i], env)
  {
    hide AllTrue, SomeTrue, Truth, FilterHolds, FilterExpr;
    if fs == [] {
      OneOf(Leaf(0), env);
    } else {
      var n := |fs| - 1;
      FiltersTruth(fs[..n], env);
      FilterTruth(fs[n], env);
      JoinedTruth(FilterExprs(fs[..n]), [FilterExpr(fs[n])], env);
      OneOf(FilterExpr(fs[n]), env);
      assert forall i | 0 <= i < n :: fs[..n][i] == fs[i];
      assert FilterHolds(fs[n], env) ==> exists i | 0 <= i < |fs| :: FilterHolds(fs[i], env);
      if i :| 0 <= i < n && FilterHolds(fs[..n][i], env) {
        assert FilterHolds(fs[i], env);
      }
    }
  }

  lemma {:induction false} IntendedHolds(w: Where, env: nat -> bool)
    ensures Intended(w).Some? <==> Conditioned(w)
    ensures Intended(w).Some? ==> Truth(Intended(w).value, env) == Holds(w, env)
    decreases w, 1, 0
  {
    hide Truth, AllTrue, SomeTrue, FilterHolds;
    IntendedAllHolds(w, w.children, env);
    var own := if w.filters.Some? then FilterExprs(w.filters.value) else [];
    var below := IntendedAll(w, w.children);
    JoinedTruth(own, below, env);
    GroupTruth(OperatorOf(w), own + below, env);
    OneOf(Leaf(0), env);
    if w.filters.Some? {
      FiltersTruth(w.filters.value, env);
    }
  }

  lemma {:induction false} IntendedAllHolds(parent: Where, ws: seq<Where>, env: nat -> bool)
    requires forall i | 0 <= i < |ws| :: ws[i] < parent
    ensures IntendedAll(parent, ws) != [] <==> exists i | 0 <= i < |ws| :: Conditioned(ws[i])
    ensures AllTrue(IntendedAll(parent, ws), env) <==>
              forall i | 0 <= i < |ws| :: Conditioned(ws[i]) ==> Holds(ws[i], env)
    ensures SomeTrue(IntendedAll(parent, ws), env) <==>
              exists i | 0 <= i < |ws| :: Conditioned(ws[i]) && Holds(ws[i], env)
    decreases parent, 0, |ws|
  {
    hide Truth, AllTrue, SomeTrue, Holds, Conditioned, Intended;
    if ws == [] {
      OneOf(Leaf(0), env);
    } else {
      var n := |ws| - 1;
      var front, last := IntendedAll(parent, ws[..n]), Intended(ws[n]);
      IntendedAllHolds(parent, ws[..n], env);
      IntendedHolds(ws[n], env);
      var tail := if last.Some? then [last.value] else [];
      JoinedTruth(front, tail, env);
      OneOf(if last.Some? then last.value else Leaf(0), env);
      assert IntendedAll(parent, ws) == front + tail;
      assert forall i | 0 <= i < n :: ws[..n][i] == ws[i];
      if i :| 0 <= i < n && Conditioned(ws[..n][i]) {
        assert Conditioned(ws[i]);
      }
      if i :| 0 <= i < n && Conditioned(ws[..n][i]) && Holds(ws[..n][i], env) {
        assert Conditioned(ws[i]) && Holds(ws[i], env);
      }
      if i :| 0 <= i < |ws| && Conditioned(ws[i]) {
        assert i < n ==> Conditioned(ws[..n][i]);
      }
    }
  }

  /**
   The printed string of a tree whose nodes declare their filters asks for exactly what the tree asks for, and it is
   empty exactly when the tree has no condition.
   */
  lemma TextMeansTree(w: Where, spell: nat -> string, recog: Recogniser, env: nat -> bool)
    requires Supported(w) && Declares(w) && Recognises(recog, spell)
    ensures Conditioned(w) ==>
              && Read(Text(PrunedTokens(w), spell), recog).Some?
              && Eval(Read(Text(PrunedTokens(w), spell), recog).value, env) == Holds(w, env)
    ensures !Conditioned(w) ==> Text(PrunedTokens(w), spell) == ""
  {
    hide Holds, Conditioned, Truth, Eval, Read, Text, Declares, Supported, Recognises, Prune, Intended;
    NothingLostIff(w);
    IntendedHolds(w, env);
    if Prune(w).Some? {
      PrintingPreservesMeaning(w, spell, recog, env);
    } else {
      NoText(And, spell);
    }
  }

  /** Condition 0 below a node without filters is dropped: the tree holds only if it does, the text says nothing. */
  lemma DroppedConditionExample(spell: nat -> string, env: nat -> bool)
    ensures var lost := Where(None, None, [Where(None, Some([Single(0)]), [])]);
            var w := Where(None, Some([Single(1)]), [lost]);
            && Supported(w) && Prune(w) == Some(Group(And, [Leaf(1)]))
            && Text(PrunedTokens(w), spell) == spell(1)
            && Intended(w) == Some(Group(And, [Leaf(1), Group(And, [Group(And, [Leaf(0)])])]))
            && (Truth(Prune(w).value, env) <==> env(1))
            && (Truth(Intended(w).value, env) <==> env(1) && env(0))
  {
    var inner := Where(None, Some([Single(0)]), []);
    var lost := Where(None, None, [inner]);
    var w := Where(None, Some([Single(1)]), [lost]);
    OneFilter(0);
    OneFilter(1);
    LostTree(inner, lost, w);
    OneTruth(Leaf(0), env);
    OneTruth(Leaf(1), env);
    var g := Group(And, [Leaf(0)]);
    OneTruth(g, env);
    OneTruth(Group(And, [g]), env);
    TwoTruths(Leaf(1), Group(And, [g]), env);
    assert Tokens(Group(And, [Leaf(1)])) == [Atom(1)];
    assert [Atom(1)][1..] == [] && spell(1) + "" == spell(1);
  }

  lemma OneFilter(a: nat)
    ensures FilterExprs([Single(a)]) == [Leaf(a)]
  {
    assert [Single(a)][..0] == [];
    assert FilterExprs([]) == [];
  }

  lemma OneTruth(e: Expr, env: nat -> bool)
    ensures Truth(Group(And, [e]), env) <==> Truth(e, env)
  {
    assert [e][0] == e;
  }

  lemma TwoTruths(d: Expr, e: Expr, env: nat -> bool)
    ensures Truth(Group(And, [d, e]), env) <==> Truth(d, env) && Truth(e, env)
  {
    assert [d, e][0] == d && [d, e][1] == e;
  }

  lemma OnlyFilter(w: Where, a: nat)
    requires w == Where(None, Some([Single(a)]), w.children)
    ensures Supported(w) <==> forall i | 0 <= i < |w.children| :: Supported(w.children[i])
    ensures Prune(w) == Some(Group(And, [Leaf(a)] + PruneAll(w, w.children)))
    ensures Intended(w) == Some(Group(And, [Leaf(a)] + IntendedAll(w, w.children)))
  {
    OneFilter(a);
    assert FilterExprs(w.filters.value) == [Leaf(a)];
    assert [Leaf(a)] + PruneAll(w, w.children) != [] && [Leaf(a)] + IntendedAll(w, w.children) != [];
  }

  lemma OnlyChild(w: Where, child: Where)
    requires w == Where(None, None, [child])
    ensures Supported(w) && Prune(w).None?
    ensures Intended(child).Some? ==> Intended(w) == Some(Group(And, [Intended(child).value]))
  {
    assert IntendedAll(w, [child][..0]) == [];
    var below := if Intended(child).Some? then [Intended(child).value] else [];
    assert IntendedAll(w, w.children) == [] + below && [] + IntendedAll(w, w.children) == below;
  }

  lemma LostTree(inner: Where, lost: Where, w: Where)
    requires inner == Where(None, Some([Single(0)]), []) && lost == Where(None, None, [inner])
    requires w == Where(None, Some([Single(1)]), [lost])
    ensures Supported(w) && Prune(w) == Some(Group(And, [Leaf(1)]))
    ensures Intended(w) == Some(Group(And, [Leaf(1), Group(And, [Group(And, [Leaf(0)])])]))
  {
    hide Intended, Prune, Supported;
    OnlyFilter(inner, 0);
    assert IntendedAll(inner, []) == [] && [Leaf(0)] + [] == [Leaf(0)];
    OnlyChild(lost, inner);
    OnlyFilter(w, 1);
    assert [lost][..0] == [];
    assert PruneAll(w, [lost]) == PruneAll(w, [lost][..0]) + [] == [];
    assert [Leaf(1)] + [] == [Leaf(1)];
    var g := Group(And, [Group(And, [Leaf(0)])]);
    assert IntendedAll(w, [lost]) == IntendedAll(w, [lost][..0]) + [g] == [g];
    assert [Leaf(1)] + [g] == [Leaf(1), g];
  }
}
