/** The read-model query compiler: from a `Filter` tree to SQL text and its parameters. */
module Query {
  import opened Wrappers
  import opened Json
  import opened Sql

  datatype Filter =
    | Eq(field: string, value: Json)
    | In(field: string, values: seq<Json>)
    | Like(field: string, pattern: string)
    | Gt(field: string, value: Json)
    | Gte(field: string, value: Json)
    | Lt(field: string, value: Json)
    | Lte(field: string, value: Json)
    | Not(inner: Filter)
    | And(filters: seq<Filter>)
    | Or(filters: seq<Filter>)

  /** A raw fragment: its text as tokens, and the values of its placeholders in order. */
  datatype RawWhere = RawWhere(sql: seq<Tok>, params: seq<Json>)

  datatype Order = Asc | Desc

  datatype After = After(orderValue: Json, stream: string)

  datatype Query = Query(
    filter: Option<Filter>, raw: Option<RawWhere>, orderBy: Option<(string, Order)>, after: Option<After>,
    limit: nat, offset: nat, includeDead: bool)

  type Encoder = Json -> SqlVal

  // ---- field paths ----------------------------------------------------------------

  predicate FieldChar(c: char) {
    'a' <= c <= 'z' || 'A' <= c <= 'Z' || '0' <= c <= '9' || c == '_' || c == '.'
  }

  predicate FieldOk(field: string) {
    && field != "" && (forall i :: 0 <= i < |field| ==> FieldChar(field[i]))
    && field[0] != '.' && field[|field| - 1] != '.'
    && forall i :: 0 <= i < |field| - 1 ==> !(field[i] == '.' && field[i + 1] == '.')
  }

  /** A letter, a digit or an underscore. */
  predicate NameChar(c: char) {
    'a' <= c <= 'z' || 'A' <= c <= 'Z' || '0' <= c <= '9' || c == '_'
  }

  predicate Name(s: string) {
    s != "" && forall i :: 0 <= i < |s| ==> NameChar(s[i])
  }

  /** Names with dots between them. */
  function Dotted(names: seq<string>): string
    requires names != []
  {
    if |names| == 1 then names[0] else names[0] + "." + Dotted(names[1..])
  }

  ghost predicate Spells(names: seq<string>, field: string) {
    names != [] && (forall i :: 0 <= i < |names| ==> Name(names[i])) && Dotted(names) == field
  }

  /** The fields that pass are exactly the dotted paths of names. */
  lemma FieldIsPath(field: string)
    ensures FieldOk(field) <==> exists names :: Spells(names, field)
  {
    if FieldOk(field) {
      var names := NamesOf(field);
    }
    if names :| Spells(names, field) {
      PathOk(names);
    }
  }

  lemma {:induction false} PathOk(names: seq<string>)
    requires names != [] && forall i :: 0 <= i < |names| ==> Name(names[i])
    ensures FieldOk(Dotted(names))
    decreases |names|
  {
    if |names| > 1 {
      PathOk(names[1..]);
      var rest := Dotted(names[1..]);
      var field := Dotted(names);
      assert field == names[0] + "." + rest;
      assert forall i :: 0 <= i < |names[0]| ==> field[i] == names[0][i];
      assert field[|names[0]|] == '.';
      assert forall i :: 0 <= i < |rest| ==> field[|names[0]| + 1 + i] == rest[i];
      forall i | 0 <= i < |field| ensures FieldChar(field[i]) {
        if i > |names[0]| { assert field[i] == rest[i - |names[0]| - 1]; }
      }
      forall i | 0 <= i < |field| - 1 ensures !(field[i] == '.' && field[i + 1] == '.') {
        if i > |names[0]| { assert field[i] == rest[i - |names[0]| - 1] && field[i + 1] == rest[i - |names[0]|]; }
      }
    }
  }

  lemma {:induction false} NamesOf(field: string) returns (names: seq<string>)
    requires FieldOk(field)
    ensures Spells(names, field)
    decreases |field|
  {
    if forall i :: 0 <= i < |field| ==> field[i] != '.' {
      names := [field];
    } else {
      var n := FirstDot(field);
      var rest := field[n + 1..];
      assert FieldOk(rest) by {
        assert forall i :: 0 <= i < |rest| ==> rest[i] == field[n + 1 + i];
      }
      var more := NamesOf(rest);
      names := [field[..n]] + more;
      assert names[1..] == more && field == field[..n] + "." + rest;
    }
  }

  lemma {:induction false} FirstDot(field: string) returns (n: nat)
    requires exists i :: 0 <= i < |field| && field[i] == '.'
    ensures n < |field| && field[n] == '.' && forall i :: 0 <= i < n ==> field[i] != '.'
    decreases |field|
  {
    if field[0] == '.' {
      n := 0;
    } else {
      var m := FirstDot(field[1..]);
      n := m + 1;
    }
  }

  /** An empty `In` compiles to a constant before its field is looked at. */
  predicate FieldsOk(f: Filter) {
    match f
    case In(field, values) => values == [] || FieldOk(field)
    case Not(g) => FieldsOk(g)
    case And(fs) => forall i :: 0 <= i < |fs| ==> FieldsOk(fs[i])
    case Or(fs) => forall i :: 0 <= i < |fs| ==> FieldsOk(fs[i])
    case _ => FieldOk(f.field)
  }

  function Path(field: string): SqlVal {
    SqlText("$." + field)
  }

  // ---- what a filter means ------------------------------------------------------------

  function All3(ts: seq<Tri>): Tri {
    if False in ts then False else if Unknown in ts then Unknown else True
  }

  function Any3(ts: seq<Tri>): Tri {
    if True in ts then True else if Unknown in ts then Unknown else False
  }

  function FieldIs(sem: Sem, row: Row, field: string, value: Json): Tri {
    if value.Null? then sem.compare(RelOp.Eq, sem.jsonType(row.state, Path(field)), SqlText("null"))
    else sem.compare(RelOp.Eq, sem.extract(row.state, Path(field)), sem.unwrap(sem.encode(value)))
  }

  function Compares(sem: Sem, row: Row, op: RelOp, field: string, value: Json): Tri {
    sem.compare(op, sem.extract(row.state, Path(field)), sem.unwrap(sem.encode(value)))
  }

  /** The filter's own meaning on a row, in three-valued logic, with no SQL text in sight. */
  function Meaning(sem: Sem, row: Row, f: Filter): Tri
    decreases f
  {
    match f
    case Eq(field, value) => FieldIs(sem, row, field, value)
    case In(field, values) =>
      Any3(seq(|values|, i requires 0 <= i < |values| => FieldIs(sem, row, field, values[i])))
    case Like(field, pattern) => sem.compare(RelOp.Like, sem.extract(row.state, Path(field)), SqlText(pattern))
    case Gt(field, value) => Compares(sem, row, RelOp.Gt, field, value)
    case Gte(field, value) => Compares(sem, row, RelOp.Ge, field, value)
    case Lt(field, value) => Compares(sem, row, RelOp.Lt, field, value)
    case Lte(field, value) => Compares(sem, row, RelOp.Le, field, value)
    case Not(g) => Not3(Meaning(sem, row, g))
    case And(fs) => All3(seq(|fs|, i requires 0 <= i < |fs| => Meaning(sem, row, fs[i])))
    case Or(fs) => Any3(seq(|fs|, i requires 0 <= i < |fs| => Meaning(sem, row, fs[i])))
  }

  // ---- compilation ----------------------------------------------------------------------

  function Leaf(a: Atom, params: seq<SqlVal>): Piece {
    Piece([A(a)], params, Term(a, 0))
  }

  function EqPiece(enc: Encoder, field: string, value: Json): Piece {
    if value.Null? then Pair(Rel(RelOp.Eq), Leaf(TypeAt, [Path(field)]), Leaf(TextLit("null"), []))
    else RangePiece(enc, RelOp.Eq, field, value)
  }

  function RangePiece(enc: Encoder, op: RelOp, field: string, value: Json): Piece {
    Pair(Rel(op), Leaf(FieldAt, [Path(field)]), Leaf(ValueOf, [enc(value)]))
  }

  function Join(op: Tok, ps: seq<Piece>): Piece
    requires ps != []
  {
    if |ps| == 1 then ps[0] else Pair(op, Join(op, ps[..|ps| - 1]), ps[|ps| - 1])
  }

  function EqPieces(enc: Encoder, field: string, values: seq<Json>): seq<Piece> {
    seq(|values|, i requires 0 <= i < |values| => EqPiece(enc, field, values[i]))
  }

  function Build(enc: Encoder, f: Filter): Piece
    decreases f, 1
  {
    match f
    case Eq(field, value) => EqPiece(enc, field, value)
    case In(field, values) =>
      if values == [] then Leaf(IntLit(0), []) else Parens(Join(OrT, EqPieces(enc, field, values)))
    case Like(field, pattern) => Pair(Rel(RelOp.Like), Leaf(FieldAt, [Path(field)]), Leaf(Bound, [SqlText(pattern)]))
    case Gt(field, value) => RangePiece(enc, RelOp.Gt, field, value)
    case Gte(field, value) => RangePiece(enc, RelOp.Ge, field, value)
    case Lt(field, value) => RangePiece(enc, RelOp.Lt, field, value)
    case Lte(field, value) => RangePiece(enc, RelOp.Le, field, value)
    case Not(g) =>
      var p := Parens(Build(enc, g));
      Piece([NotT] + p.toks, p.params, Expr.Not(p.expr))
    case And(fs) => if fs == [] then Leaf(IntLit(1), []) else Join(AndT, Builds(enc, fs))
    case Or(fs) => if fs == [] then Leaf(IntLit(0), []) else Join(OrT, Builds(enc, fs))
  }

  function Builds(enc: Encoder, fs: seq<Filter>): (ps: seq<Piece>)
    ensures |ps| == |fs|
    ensures forall i :: 0 <= i < |fs| ==> ps[i] == Parens(Build(enc, fs[i]))
    decreases fs, 0
  {
    seq(|fs|, i requires 0 <= i < |fs| => Parens(Build(enc, fs[i])))
  }

  // ---- compiled text parses as meant -------------------------------------------------------

  lemma LeafGood(a: Atom, params: seq<SqlVal>)
    requires |params| == Placeholders(a)
    ensures Good(Leaf(a, params), PRIMARY)
  {
    forall rest: seq<Tok>, k: nat ensures Parse(PRIMARY, [A(a)] + rest, k) == Done(Term(a, k), rest, k + |params|) {
      assert ([A(a)] + rest)[1..] == rest;
    }
  }

  lemma RelGood(op: RelOp, a: Piece, b: Piece)
    requires Good(a, PRIMARY) && Good(b, PRIMARY)
    ensures Good(Pair(Rel(op), a, b), EQUALITY)
  {
    var level := if op.Eq? || op.Like? then EQUALITY else ORDERING;
    GoodLooser(a, PRIMARY, level + 1);
    GoodLooser(b, PRIMARY, level + 1);
    GoodLeads(a, level);
    PairLeads(level, Rel(op), a, b);
    LeadsGood(Pair(Rel(op), a, b), level);
    GoodLooser(Pair(Rel(op), a, b), level, EQUALITY);
  }

  lemma EqGood(enc: Encoder, field: string, value: Json)
    ensures Good(EqPiece(enc, field, value), EQUALITY)
  {
    LeafGood(TypeAt, [Path(field)]);
    LeafGood(TextLit("null"), []);
    RelGood(RelOp.Eq, Leaf(TypeAt, [Path(field)]), Leaf(TextLit("null"), []));
    RangeGood(enc, RelOp.Eq, field, value);
  }

  lemma RangeGood(enc: Encoder, op: RelOp, field: string, value: Json)
    ensures Good(RangePiece(enc, op, field, value), EQUALITY)
  {
    LeafGood(FieldAt, [Path(field)]);
    LeafGood(ValueOf, [enc(value)]);
    RelGood(op, Leaf(FieldAt, [Path(field)]), Leaf(ValueOf, [enc(value)]));
  }

  lemma {:induction false} JoinLeads(level: nat, op: Tok, ps: seq<Piece>)
    requires ps != [] && level < NOT && Binds(op) == Some(level)
    requires forall i :: 0 <= i < |ps| ==> Good(ps[i], level + 1)
    ensures Leads(Join(op, ps), level)
    decreases |ps|
  {
    if |ps| == 1 {
      GoodLeads(ps[0], level);
    } else {
      JoinLeads(level, op, ps[..|ps| - 1]);
      PairLeads(level, op, Join(op, ps[..|ps| - 1]), ps[|ps| - 1]);
    }
  }

  /** How tightly the compiled text of a filter binds. */
  function Level(f: Filter): nat {
    match f
    case In(_, _) => PRIMARY
    case Not(_) => NOT
    case And(fs) => if |fs| <= 1 then PRIMARY else AND
    case Or(fs) => if |fs| <= 1 then PRIMARY else OR
    case _ => EQUALITY
  }

  lemma {:induction false} BuildGood(enc: Encoder, f: Filter)
    ensures Good(Build(enc, f), Level(f))
    decreases f, 1
  {
    match f {
      case Eq(field, value) => EqGood(enc, field, value);
      case In(field, values) =>
        if values == [] {
          LeafGood(IntLit(0), []);
        } else {
          InGood(enc, field, values);
        }
      case Like(field, pattern) =>
        LeafGood(FieldAt, [Path(field)]);
        LeafGood(Bound, [SqlText(pattern)]);
        RelGood(RelOp.Like, Leaf(FieldAt, [Path(field)]), Leaf(Bound, [SqlText(pattern)]));
      case Gt(field, value) => RangeGood(enc, RelOp.Gt, field, value);
      case Gte(field, value) => RangeGood(enc, RelOp.Ge, field, value);
      case Lt(field, value) => RangeGood(enc, RelOp.Lt, field, value);
      case Lte(field, value) => RangeGood(enc, RelOp.Le, field, value);
      case Not(g) => NotGood(enc, g);
      case And(fs) =>
        LeafGood(IntLit(1), []);
        if fs != [] { BuildsGood(enc, fs); JoinGood(AND, AndT, Builds(enc, fs)); }
      case Or(fs) =>
        LeafGood(IntLit(0), []);
        if fs != [] { BuildsGood(enc, fs); JoinGood(OR, OrT, Builds(enc, fs)); }
    }
  }

  lemma {:induction false} InGood(enc: Encoder, field: string, values: seq<Json>)
    requires values != []
    ensures Good(Parens(Join(OrT, EqPieces(enc, field, values))), PRIMARY)
  {
    var ps := EqPieces(enc, field, values);
    forall i | 0 <= i < |ps| ensures Good(ps[i], AND) {
      EqGood(enc, field, values[i]);
      GoodLooser(ps[i], EQUALITY, AND);
    }
    JoinLeads(OR, OrT, ps);
    LeadsGood(Join(OrT, ps), OR);
    ParensGood(Join(OrT, ps));
  }

  lemma {:induction false} NotGood(enc: Encoder, g: Filter)
    ensures Good(Build(enc, Filter.Not(g)), NOT)
    decreases g, 2
  {
    BuildGood(enc, g);
    GoodLooser(Build(enc, g), Level(g), OR);
    var p := Parens(Build(enc, g));
    ParensGood(Build(enc, g));
    GoodLooser(p, PRIMARY, NOT);
    forall rest: seq<Tok>, k: nat | Stops(rest, NOT)
      ensures Parse(NOT, [NotT] + p.toks + rest, k) == Done(Shift(Expr.Not(p.expr), k), rest, k + |p.params|)
    {
      assert ([NotT] + p.toks + rest)[1..] == p.toks + rest;
    }
  }

  lemma {:induction false} BuildsGood(enc: Encoder, fs: seq<Filter>)
    ensures forall i :: 0 <= i < |fs| ==> Good(Builds(enc, fs)[i], PRIMARY)
    decreases fs, 0
  {
    forall i | 0 <= i < |fs| ensures Good(Builds(enc, fs)[i], PRIMARY) {
      BuildGood(enc, fs[i]);
      GoodLooser(Build(enc, fs[i]), Level(fs[i]), OR);
      ParensGood(Build(enc, fs[i]));
    }
  }

  lemma JoinGood(level: nat, op: Tok, ps: seq<Piece>)
    requires ps != [] && level < NOT && Binds(op) == Some(level)
    requires forall i :: 0 <= i < |ps| ==> Good(ps[i], PRIMARY)
    ensures Good(Join(op, ps), if |ps| == 1 then PRIMARY else level)
  {
    forall i | 0 <= i < |ps| ensures Good(ps[i], level + 1) {
      GoodLooser(ps[i], PRIMARY, level + 1);
    }
    JoinLeads(level, op, ps);
    LeadsGood(Join(op, ps), level);
  }

  // ---- and evaluates to the filter's meaning ------------------------------------------------

  /** With the piece's parameters bound first, it is true, false or unknown as `t` says. */
  ghost predicate Evals(sem: Sem, row: Row, p: Piece, t: Tri) {
    forall ps: seq<SqlVal> :: p.params <= ps ==> Verdict(sem, row, ps, p.expr) == t
  }

  lemma PairRight(sem: Sem, row: Row, p: Piece, q: Piece, ps: seq<SqlVal>)
    requires p.params + q.params <= ps
    ensures p.params <= ps && q.params <= ps[|p.params|..]
    ensures Eval(sem, row, ps, Shift(q.expr, |p.params|)) == Eval(sem, row, ps[|p.params|..], q.expr)
  {
    assert ps[..|p.params + q.params|] == p.params + q.params;
    assert ps[|p.params|..][..|q.params|] == q.params;
    EvalShift(sem, row, ps, q.expr, |p.params|);
  }

  lemma PairEvals(sem: Sem, row: Row, op: Tok, p: Piece, q: Piece, s: Tri, t: Tri)
    requires (op.AndT? || op.OrT?) && Evals(sem, row, p, s) && Evals(sem, row, q, t)
    ensures Evals(sem, row, Pair(op, p, q), if op.AndT? then And3(s, t) else Or3(s, t))
  {
    forall ps: seq<SqlVal> | Pair(op, p, q).params <= ps
      ensures Verdict(sem, row, ps, Pair(op, p, q).expr) == if op.AndT? then And3(s, t) else Or3(s, t)
    {
      PairRight(sem, row, p, q, ps);
      assert Verdict(sem, row, ps[|p.params|..], q.expr) == t;
      assert Verdict(sem, row, ps, p.expr) == s;
    }
  }

  lemma {:induction false} JoinEvals(sem: Sem, row: Row, op: Tok, ps: seq<Piece>, ts: seq<Tri>)
    requires ps != [] && |ts| == |ps| && (op.AndT? || op.OrT?)
    requires forall i :: 0 <= i < |ps| ==> Evals(sem, row, ps[i], ts[i])
    ensures Evals(sem, row, Join(op, ps), if op.AndT? then All3(ts) else Any3(ts))
    decreases |ps|
  {
    var last := |ps| - 1;
    assert ts == ts[..last] + [ts[last]];
    if last > 0 {
      JoinEvals(sem, row, op, ps[..last], ts[..last]);
      PairEvals(sem, row, op, Join(op, ps[..last]), ps[last],
                if op.AndT? then All3(ts[..last]) else Any3(ts[..last]), ts[last]);
    }
  }

  lemma RelEvals(sem: Sem, row: Row, op: RelOp, a: Atom, as': seq<SqlVal>, b: Atom, bs: seq<SqlVal>)
    requires Placeholders(a) == |as'| <= 1 && Placeholders(b) == |bs| <= 1
    ensures Evals(sem, row, Pair(Rel(op), Leaf(a, as'), Leaf(b, bs)),
                  sem.compare(op, EvalAtom(sem, row, as', a, 0), EvalAtom(sem, row, bs, b, 0)))
  {
    var p := Pair(Rel(op), Leaf(a, as'), Leaf(b, bs));
    forall ps: seq<SqlVal> | p.params <= ps
      ensures Eval(sem, row, ps, p.expr)
           == ToVal(sem.compare(op, EvalAtom(sem, row, as', a, 0), EvalAtom(sem, row, bs, b, 0)))
    {
      PairRight(sem, row, Leaf(a, as'), Leaf(b, bs), ps);
      LeafEval(sem, row, a, as', ps);
      LeafEval(sem, row, b, bs, ps[|as'|..]);
    }
  }

  lemma LeafEval(sem: Sem, row: Row, a: Atom, own: seq<SqlVal>, ps: seq<SqlVal>)
    requires Placeholders(a) == |own| && own <= ps
    ensures EvalAtom(sem, row, ps, a, 0) == EvalAtom(sem, row, own, a, 0)
  {
    assert forall i :: 0 <= i < |own| ==> Bind(ps, i) == Bind(own, i);
    if a.Other? {
      assert BindAll(ps, 0, a.params) == BindAll(own, 0, a.params);
    }
  }

  lemma EqEvals(sem: Sem, row: Row, field: string, value: Json)
    ensures Evals(sem, row, EqPiece(sem.encode, field, value), FieldIs(sem, row, field, value))
  {
    RelEvals(sem, row, RelOp.Eq, TypeAt, [Path(field)], TextLit("null"), []);
    RelEvals(sem, row, RelOp.Eq, FieldAt, [Path(field)], ValueOf, [sem.encode(value)]);
  }

  lemma {:induction false} BuildEvals(sem: Sem, row: Row, f: Filter)
    ensures Evals(sem, row, Build(sem.encode, f), Meaning(sem, row, f))
    decreases f, 1
  {
    match f {
      case Eq(field, value) => EqEvals(sem, row, field, value);
      case In(field, values) => if values != [] { InEvals(sem, row, field, values); }
      case Like(field, pattern) => RelEvals(sem, row, RelOp.Like, FieldAt, [Path(field)], Bound, [SqlText(pattern)]);
      case Gt(field, value) => RelEvals(sem, row, RelOp.Gt, FieldAt, [Path(field)], ValueOf, [sem.encode(value)]);
      case Gte(field, value) => RelEvals(sem, row, RelOp.Ge, FieldAt, [Path(field)], ValueOf, [sem.encode(value)]);
      case Lt(field, value) => RelEvals(sem, row, RelOp.Lt, FieldAt, [Path(field)], ValueOf, [sem.encode(value)]);
      case Lte(field, value) => RelEvals(sem, row, RelOp.Le, FieldAt, [Path(field)], ValueOf, [sem.encode(value)]);
      case Not(g) =>
        BuildEvals(sem, row, g);
        var p, t := Build(sem.encode, g), Meaning(sem, row, g);
        forall ps: seq<SqlVal> | p.params <= ps ensures Verdict(sem, row, ps, Expr.Not(p.expr)) == Not3(t) {
          assert Verdict(sem, row, ps, p.expr) == t;
        }
      case And(fs) => if fs != [] { ListEvals(sem, row, AndT, fs); }
      case Or(fs) => if fs != [] { ListEvals(sem, row, OrT, fs); }
    }
  }

  lemma {:induction false} InEvals(sem: Sem, row: Row, field: string, values: seq<Json>)
    requires values != []
    ensures Evals(sem, row, Build(sem.encode, In(field, values)), Meaning(sem, row, In(field, values)))
  {
    var ps := EqPieces(sem.encode, field, values);
    var ts := seq(|values|, i requires 0 <= i < |values| => FieldIs(sem, row, field, values[i]));
    forall i | 0 <= i < |ps| ensures Evals(sem, row, ps[i], ts[i]) {
      EqEvals(sem, row, field, values[i]);
    }
    JoinEvals(sem, row, OrT, ps, ts);
  }

  function Meanings(sem: Sem, row: Row, fs: seq<Filter>): seq<Tri> {
    seq(|fs|, i requires 0 <= i < |fs| => Meaning(sem, row, fs[i]))
  }

  lemma {:induction false} PartsEval(sem: Sem, row: Row, fs: seq<Filter>)
    ensures forall i :: 0 <= i < |fs| ==> Evals(sem, row, Builds(sem.encode, fs)[i], Meanings(sem, row, fs)[i])
    decreases fs, 0
  {
    forall i | 0 <= i < |fs| ensures Evals(sem, row, Builds(sem.encode, fs)[i], Meanings(sem, row, fs)[i]) {
      BuildEvals(sem, row, fs[i]);
    }
  }

  lemma {:induction false} ListEvals(sem: Sem, row: Row, op: Tok, fs: seq<Filter>)
    requires fs != [] && (op.AndT? || op.OrT?)
    ensures Evals(sem, row, Join(op, Builds(sem.encode, fs)),
                  if op.AndT? then All3(Meanings(sem, row, fs)) else Any3(Meanings(sem, row, fs)))
    decreases fs, 1
  {
    PartsEval(sem, row, fs);
    JoinEvals(sem, row, op, Builds(sem.encode, fs), Meanings(sem, row, fs));
  }

  /**
   * Filter compilation preserves meaning, at any depth: the text, parsed under
   * SQL precedence with its k-th placeholder bound to its k-th parameter,
   * evaluates to the filter's own three-valued meaning on every row.
   */
  lemma CompiledFilterMeans(sem: Sem, row: Row, f: Filter)
    ensures var p := Build(sem.encode, f);
            && Parse(OR, p.toks, 0) == Done(p.expr, [], |p.params|)
            && Verdict(sem, row, p.params, p.expr) == Meaning(sem, row, f)
  {
    var p := Build(sem.encode, f);
    BuildGood(sem.encode, f);
    GoodLooser(p, Level(f), OR);
    GoodWhole(p);
    BuildEvals(sem, row, f);
  }

  lemma {:induction false} ShiftNone(e: Expr)
    ensures Shift(e, 0) == e
  {
    match e {
      case Term(_, _) =>
      case Not(x) => ShiftNone(x);
      case Bin(_, l, r) => ShiftNone(l); ShiftNone(r);
    }
  }

  lemma GoodWhole(p: Piece)
    requires Good(p, OR)
    ensures Parse(OR, p.toks, 0) == Done(p.expr, [], |p.params|)
  {
    ShiftNone(p.expr);
    assert p.toks + [] == p.toks;
    assert Parse(OR, p.toks + [], 0) == Done(Shift(p.expr, 0), [], 0 + |p.params|);
  }
}
