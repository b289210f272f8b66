/** The compiler as the code runs it: text built left to right, values pushed onto one list. */
module Builder {
  import opened Wrappers
  import opened Json
  import opened Events
  import opened Sql
  import opened Query
  import opened Assembly

  class ParamList {
    var items: seq<SqlVal>

    constructor ()
      ensures items == []
    {
      items := [];
    }

    method Push(value: SqlVal)
      modifies this
      ensures items == old(items) + [value]
    {
      items := items + [value];
    }
  }

  datatype Compiled = Compiled(where: seq<Tok>, orderBy: Atom, direction: Order)

  lemma RelText(a: Atom, own: seq<SqlVal>, op: RelOp, b: Atom, other: seq<SqlVal>)
    ensures Pair(Rel(op), Leaf(a, own), Leaf(b, other)).toks == [A(a), Rel(op), A(b)]
    ensures Pair(Rel(op), Leaf(a, own), Leaf(b, other)).params == own + other
  {
  }

  method BuildCompare(enc: Encoder, field: string, value: Json, op: RelOp, params: ParamList) returns (r: Result<seq<Tok>>)
    modifies params
    ensures FieldOk(field) ==>
              && r == Ok(RangePiece(enc, op, field, value).toks)
              && params.items == old(params.items) + RangePiece(enc, op, field, value).params
    ensures !FieldOk(field) ==> r == Err(InvalidFieldPath)
  {
    if !FieldOk(field) { return Err(InvalidFieldPath); }
    params.Push(Path(field));
    params.Push(enc(value));
    RelText(FieldAt, [Path(field)], op, ValueOf, [enc(value)]);
    return Ok([A(FieldAt), Rel(op), A(ValueOf)]);
  }

  method BuildFilter(enc: Encoder, f: Filter, params: ParamList) returns (r: Result<seq<Tok>>)
    modifies params
    ensures FieldsOk(f) ==> r == Ok(Build(enc, f).toks) && params.items == old(params.items) + Build(enc, f).params
    ensures !FieldsOk(f) ==> r == Err(InvalidFieldPath)
    decreases f, 1
  {
    match f {
      case Eq(field, value) => r := BuildEq(enc, field, value, params);
      case In(field, values) =>
        if values == [] { return Ok([A(IntLit(0))]); }
        r := BuildIn(enc, field, values, params);
      case Like(field, pattern) =>
        if !FieldOk(field) { return Err(InvalidFieldPath); }
        params.Push(Path(field));
        params.Push(SqlText(pattern));
        RelText(FieldAt, [Path(field)], RelOp.Like, Bound, [SqlText(pattern)]);
        return Ok([A(FieldAt), Rel(RelOp.Like), A(Bound)]);
      case Gt(field, value) => r := BuildCompare(enc, field, value, RelOp.Gt, params);
      case Gte(field, value) => r := BuildCompare(enc, field, value, RelOp.Ge, params);
      case Lt(field, value) => r := BuildCompare(enc, field, value, RelOp.Lt, params);
      case Lte(field, value) => r := BuildCompare(enc, field, value, RelOp.Le, params);
      case Not(g) =>
        r := BuildFilter(enc, g, params);
        if r.Ok? { r := Ok([NotT] + ([LPar] + r.value + [RPar])); }
      case And(fs) =>
        if fs == [] { return Ok([A(IntLit(1))]); }
        r := BuildList(enc, AndT, fs, params);
        if r.Ok? { WrittenAll(AndT, Builds(enc, fs), r.value, old(params.items), params.items); }
      case Or(fs) =>
        if fs == [] { return Ok([A(IntLit(0))]); }
        r := BuildList(enc, OrT, fs, params);
        if r.Ok? { WrittenAll(OrT, Builds(enc, fs), r.value, old(params.items), params.items); }
    }
  }

  method BuildEq(enc: Encoder, field: string, value: Json, params: ParamList) returns (r: Result<seq<Tok>>)
    modifies params
    ensures FieldOk(field) ==>
              && r == Ok(EqPiece(enc, field, value).toks)
              && params.items == old(params.items) + EqPiece(enc, field, value).params
    ensures !FieldOk(field) ==> r == Err(InvalidFieldPath)
  {
    if !FieldOk(field) { return Err(InvalidFieldPath); }
    params.Push(Path(field));
    RelText(TypeAt, [Path(field)], RelOp.Eq, TextLit("null"), []);
    RelText(FieldAt, [Path(field)], RelOp.Eq, ValueOf, [enc(value)]);
    if value.Null? { return Ok([A(TypeAt), Rel(RelOp.Eq), A(TextLit("null"))]); }
    params.Push(enc(value));
    return Ok([A(FieldAt), Rel(RelOp.Eq), A(ValueOf)]);
  }

  /** The loop of `In`: one equality a value, joined by OR, in parentheses. */
  method BuildIn(enc: Encoder, field: string, values: seq<Json>, params: ParamList) returns (r: Result<seq<Tok>>)
    requires values != []
    modifies params
    ensures FieldOk(field) ==>
              && r == Ok(Build(enc, In(field, values)).toks)
              && params.items == old(params.items) + Build(enc, In(field, values)).params
    ensures !FieldOk(field) ==> r == Err(InvalidFieldPath)
  {
    ghost var ps := EqPieces(enc, field, values);
    ghost var before := params.items;
    var text: seq<Tok> := [];
    for n := 0 to |values|
      invariant n > 0 ==> FieldOk(field)
      invariant Written(OrT, ps, n, text, before, params.items)
    {
      ghost var mid := params.items;
      var part := BuildEq(enc, field, values[n], params);
      if part.Err? { return part; }
      ghost var was := text;
      text := if n == 0 then part.value else text + [OrT] + part.value;
      WrittenNext(OrT, ps, n, was, before, mid);
    }
    assert ps[..|ps|] == ps;
    return Ok([LPar] + text + [RPar]);
  }

  method BuildPart(enc: Encoder, f: Filter, params: ParamList) returns (r: Result<seq<Tok>>)
    modifies params
    ensures r.Ok? ==>
              && FieldsOk(f) && r.value == Parens(Build(enc, f)).toks
              && params.items == old(params.items) + Parens(Build(enc, f)).params
    ensures r.Err? ==> r.error == InvalidFieldPath && !FieldsOk(f)
    decreases f, 2
  {
    r := BuildFilter(enc, f, params);
    if r.Ok? { r := Ok([LPar] + r.value + [RPar]); }
  }

  /** The loops of `And` and `Or`: every part in parentheses, joined by the operator. */
  method BuildList(enc: Encoder, op: Tok, fs: seq<Filter>, params: ParamList) returns (r: Result<seq<Tok>>)
    requires fs != []
    modifies params
    ensures r.Ok? ==> forall i :: 0 <= i < |fs| ==> FieldsOk(fs[i])
    ensures r.Ok? ==> Written(op, Builds(enc, fs), |fs|, r.value, old(params.items), params.items)
    ensures r.Err? ==> r.error == InvalidFieldPath && exists i :: 0 <= i < |fs| && !FieldsOk(fs[i])
    decreases fs, 0
  {
    hide Build, Join, FieldsOk, FieldOk;
    ghost var ps := Builds(enc, fs);
    ghost var before := params.items;
    var text: seq<Tok> := [];
    for n := 0 to |fs|
      invariant forall i :: 0 <= i < n ==> FieldsOk(fs[i])
      invariant Written(op, ps, n, text, before, params.items)
    {
      ghost var mid := params.items;
      var part := BuildPart(enc, fs[n], params);
      if part.Err? { return part; }
      var wrapped := part.value;
      WrittenNext(op, ps, n, text, before, mid);
      text := if n == 0 then wrapped else text + [op] + wrapped;
    }
    return Ok(text);
  }

  lemma WrittenAll(op: Tok, ps: seq<Piece>, text: seq<Tok>, before: seq<SqlVal>, items: seq<SqlVal>)
    requires ps != [] && Written(op, ps, |ps|, text, before, items)
    ensures text == Join(op, ps).toks && items == before + Join(op, ps).params
  {
    assert ps[..|ps|] == ps;
  }

  /** The first `n` parts have been written and their values pushed. */
  ghost predicate Written(op: Tok, ps: seq<Piece>, n: nat, text: seq<Tok>, before: seq<SqlVal>, items: seq<SqlVal>) {
    n <= |ps| &&
    if n == 0 then items == before
    else text == Join(op, ps[..n]).toks && items == before + Join(op, ps[..n]).params
  }

  lemma WrittenNext(op: Tok, ps: seq<Piece>, n: nat, text: seq<Tok>, before: seq<SqlVal>, items: seq<SqlVal>)
    requires n < |ps| && Written(op, ps, n, text, before, items)
    ensures Written(op, ps, n + 1, if n == 0 then ps[n].toks else text + [op] + ps[n].toks, before, items + ps[n].params)
  {
    assert ps[..n + 1][..n] == ps[..n];
  }

  method BuildWhere(enc: Encoder, filter: Option<Filter>, raw: Option<RawWhere>, includeDead: bool, params: ParamList)
    returns (r: Result<seq<Tok>>)
    modifies params
    ensures (filter.Some? ==> FieldsOk(filter.value)) ==>
              r.Ok? && Emits(Where(enc, filter, raw, includeDead), r.value, old(params.items), params.items)
    ensures filter.Some? && !FieldsOk(filter.value) ==> r == Err(InvalidFieldPath)
  {
    hide Build, FieldsOk, FieldOk, Encoded;
    var text := [A(IntLit(1))];
    if filter.Some? {
      r := BuildFilter(enc, filter.value, params);
      if r.Err? { return; }
      text := r.value;
    }
    assert text == FilterPiece(enc, filter).toks && params.items == old(params.items) + FilterPiece(enc, filter).params;
    if raw.Some? {
      PushAll(enc, raw.value.params, params);
      text := ([LPar] + text + [RPar]) + [AndT] + ([LPar] + raw.value.sql + [RPar]);
    }
    assert text == WithRaw(enc, filter, raw).toks && params.items == old(params.items) + WithRaw(enc, filter, raw).params;
    if !includeDead {
      RelText(Column("live"), [], RelOp.Eq, IntLit(1), []);
      text := ([LPar] + text + [RPar]) + [AndT] + [A(Column("live")), Rel(RelOp.Eq), A(IntLit(1))];
    }
    r := Ok(text);
  }

  method PushAll(enc: Encoder, values: seq<Json>, params: ParamList)
    modifies params
    ensures params.items == old(params.items) + Encoded(enc, values)
  {
    ghost var all := Encoded(enc, values);
    for i := 0 to |values|
      invariant params.items == old(params.items) + all[..i]
    {
      params.Push(enc(values[i]));
      assert all[..i + 1] == all[..i] + [enc(values[i])];
    }
    assert all[..|values|] == all;
  }

  predicate OrderOk(orderBy: Option<(string, Order)>) {
    orderBy.Some? ==> FieldOk(orderBy.value.0)
  }

  /** Same text and values as `KeyPiece`, written flat as the format string has them. */
  lemma KeyText(enc: Encoder, after: After, orderBy: Option<(string, Order)>)
    ensures var (term, order) := OrderTerm(orderBy);
            var key := [LPar] + [A(term)] + [RPar];
            var later := [A(Column("stream"))] + [Rel(Cmp(order))] + [A(Bound)];
            var tie := [LPar] + ((key + [Rel(RelOp.Eq)] + [A(ValueOf)]) + [AndT] + later) + [RPar];
            KeyPiece(enc, after, orderBy).toks == [LPar] + ((key + [Rel(Cmp(order))] + [A(ValueOf)]) + [OrT] + tie) + [RPar]
    ensures KeyPiece(enc, after, orderBy).params == [enc(after.orderValue), enc(after.orderValue), SqlText(after.stream)]
  {
  }

  method ApplyKeyset(enc: Encoder, after: Option<After>, orderBy: Option<(string, Order)>, where: seq<Tok>, params: ParamList)
    returns (r: Result<seq<Tok>>)
    modifies params
    ensures after.None? ==> r == Ok(where) && params.items == old(params.items)
    ensures after.Some? && OrderOk(orderBy) ==>
              && r == Ok(where + [AndT] + KeyPiece(enc, after.value, orderBy).toks)
              && params.items == old(params.items) + KeyPiece(enc, after.value, orderBy).params
    ensures after.Some? && !OrderOk(orderBy) ==> r == Err(InvalidFieldPath)
  {
    if after.None? { return Ok(where); }
    if !OrderOk(orderBy) { return Err(InvalidFieldPath); }
    var (term, order) := OrderTerm(orderBy);
    var value := enc(after.value.orderValue);
    params.Push(value);
    params.Push(value);
    params.Push(SqlText(after.value.stream));
    KeyText(enc, after.value, orderBy);
    var key := [LPar] + [A(term)] + [RPar];
    var later := [A(Column("stream"))] + [Rel(Cmp(order))] + [A(Bound)];
    var tie := [LPar] + ((key + [Rel(RelOp.Eq)] + [A(ValueOf)]) + [AndT] + later) + [RPar];
    return Ok(where + [AndT] + ([LPar] + ((key + [Rel(Cmp(order))] + [A(ValueOf)]) + [OrT] + tie) + [RPar]));
  }

  predicate QueryOk(q: Query) {
    (q.filter.Some? ==> FieldsOk(q.filter.value)) && OrderOk(q.orderBy)
  }

  /** The whole query: the two last placeholders, LIMIT and OFFSET, come after all of WHERE's. */
  method BuildQuery(enc: Encoder, q: Query) returns (r: Result<Compiled>, params: ParamList)
    ensures QueryOk(q) ==>
              && r == Ok(Compiled(Paged(enc, q).toks, OrderTerm(q.orderBy).0, OrderTerm(q.orderBy).1))
              && params.items == Paged(enc, q).params + [SqlInt(q.limit), SqlInt(q.offset)]
              && r.value.direction == Direction(q.orderBy)
              && forall sem: Sem, row: Row :: EvalAtom(sem, row, [], r.value.orderBy, 0) == SortKey(sem, q.orderBy, row)
    ensures r.Ok? <==> (q.filter.Some? ==> FieldsOk(q.filter.value)) && (q.orderBy.Some? ==> FieldOk(q.orderBy.value.0))
    ensures r.Err? ==> r == Err(InvalidFieldPath)
  {
    hide Paged, FieldsOk, FieldOk, OrderTerm;
    params := new ParamList();
    var paged := BuildPaged(enc, q, params);
    if paged.Err? { return Err(paged.error), params; }
    if !OrderOk(q.orderBy) { return Err(InvalidFieldPath), params; }
    params.Push(SqlInt(q.limit));
    params.Push(SqlInt(q.offset));
    var (term, order) := OrderTerm(q.orderBy);
    r := Ok(Compiled(paged.value, term, order));
    DirectionIs(q.orderBy);
    forall sem: Sem, row: Row ensures EvalAtom(sem, row, [], term, 0) == SortKey(sem, q.orderBy, row) {
      OrderTermIs(sem, row, q.orderBy);
    }
  }

  ghost predicate Emits(p: Piece, text: seq<Tok>, before: seq<SqlVal>, items: seq<SqlVal>) {
    text == p.toks && items == before + p.params
  }

  lemma EmitsPair(p: Piece, q: Piece, text: seq<Tok>, before: seq<SqlVal>, mid: seq<SqlVal>, items: seq<SqlVal>)
    requires Emits(p, text, before, mid) && items == mid + q.params
    ensures Emits(Pair(AndT, p, q), text + [AndT] + q.toks, before, items)
  {
  }

  method BuildPaged(enc: Encoder, q: Query, params: ParamList) returns (r: Result<seq<Tok>>)
    modifies params
    ensures QueryOk(q) ==> r.Ok? && Emits(Paged(enc, q), r.value, old(params.items), params.items)
    ensures r.Err? ==> r.error == InvalidFieldPath
    ensures q.filter.Some? && !FieldsOk(q.filter.value) ==> r.Err?
  {
    hide Where, KeyPiece, FieldsOk, FieldOk;
    var where := BuildWhere(enc, q.filter, q.raw, q.includeDead, params);
    if where.Err? { return where; }
    ghost var mid := params.items;
    r := ApplyKeyset(enc, q.after, q.orderBy, where.value, params);
    if q.after.Some? && OrderOk(q.orderBy) {
      EmitsPair(Where(enc, q.filter, q.raw, q.includeDead), KeyPiece(enc, q.after.value, q.orderBy),
                where.value, old(params.items), mid, params.items);
    }
  }
}
