/**
 * Assembling a whole read-model query: filter, raw fragment, live constraint,
 * keyset cursor, LIMIT and OFFSET; and the methods that build it by pushing
 * onto one parameter list.
 */
module Assembly {
  import opened Wrappers
  import opened Json
  import opened Sql
  import opened Query

  // ---- the WHERE body ---------------------------------------------------------------

  /** A raw fragment that is an expression by itself and owns as many values as it has placeholders. */
  predicate RawOk(raw: RawWhere) {
    var parsed := Parse(OR, raw.sql, 0);
    parsed.Done? && parsed.rest == [] && parsed.next == |raw.params|
  }

  function Encoded(enc: Encoder, values: seq<Json>): (r: seq<SqlVal>)
    ensures |r| == |values|
    ensures forall i :: 0 <= i < |r| ==> r[i] == enc(values[i])
  {
    seq(|values|, i requires 0 <= i < |values| => enc(values[i]))
  }

  /** How the fragment parses alone; of no account when it does not. */
  function RawExpr(raw: RawWhere): Expr {
    match Parse(OR, raw.sql, 0) case Fail => Term(IntLit(0), 0) case Done(e, _, _) => e
  }

  function RawPiece(enc: Encoder, raw: RawWhere): Piece {
    Piece(raw.sql, Encoded(enc, raw.params), RawExpr(raw))
  }

  function FilterPiece(enc: Encoder, filter: Option<Filter>): Piece {
    match filter case None => Leaf(IntLit(1), []) case Some(f) => Build(enc, f)
  }

  function LivePiece(): Piece {
    Pair(Rel(RelOp.Eq), Leaf(Column("live"), []), Leaf(IntLit(1), []))
  }

  function WithRaw(enc: Encoder, filter: Option<Filter>, raw: Option<RawWhere>): Piece {
    if raw.None? then FilterPiece(enc, filter)
    else Pair(AndT, Parens(FilterPiece(enc, filter)), Parens(RawPiece(enc, raw.value)))
  }

  function Where(enc: Encoder, filter: Option<Filter>, raw: Option<RawWhere>, includeDead: bool): Piece {
    if includeDead then WithRaw(enc, filter, raw)
    else Pair(AndT, Parens(WithRaw(enc, filter, raw)), LivePiece())
  }

  /** The one shape whose text binds more loosely than AND. */
  predicate BareOr(filter: Option<Filter>, raw: Option<RawWhere>, includeDead: bool) {
    includeDead && raw.None? && filter.Some? && filter.value.Or? && |filter.value.filters| > 1
  }

  function FilterMeaning(sem: Sem, row: Row, filter: Option<Filter>): Tri {
    match filter case None => True case Some(f) => Meaning(sem, row, f)
  }

  /** What the raw fragment says of a row, standing alone with its own values bound. */
  function RawMeaning(sem: Sem, row: Row, raw: Option<RawWhere>): Tri {
    if raw.None? then True
    else Verdict(sem, row, Encoded(sem.encode, raw.value.params), RawExpr(raw.value))
  }

  function LiveMeaning(sem: Sem, row: Row, includeDead: bool): Tri {
    if includeDead then True else sem.compare(RelOp.Eq, SqlInt(if row.live then 1 else 0), SqlInt(1))
  }

  function WhereMeaning(sem: Sem, row: Row, filter: Option<Filter>, raw: Option<RawWhere>, includeDead: bool): Tri {
    And3(And3(FilterMeaning(sem, row, filter), RawMeaning(sem, row, raw)), LiveMeaning(sem, row, includeDead))
  }

  // Every placeholder of a parsed text is numbered below the count the parser returns.

  ghost predicate Within(e: Expr, n: nat) {
    match e
    case Term(a, k) => k + Placeholders(a) <= n
    case Not(x) => Within(x, n)
    case Bin(_, l, r) => Within(l, n) && Within(r, n)
  }

  lemma {:induction false} WithinMore(e: Expr, n: nat, m: nat)
    requires Within(e, n) && n <= m
    ensures Within(e, m)
  {
    match e {
      case Term(_, _) =>
      case Not(x) => WithinMore(x, n, m);
      case Bin(_, l, r) => WithinMore(l, n, m); WithinMore(r, n, m);
    }
  }

  lemma {:induction false} ParseWithin(level: nat, ts: seq<Tok>, k: nat)
    requires level <= PRIMARY && Parse(level, ts, k).Done?
    ensures k <= Parse(level, ts, k).next && Within(Parse(level, ts, k).expr, Parse(level, ts, k).next)
    decreases |ts|, 1 + PRIMARY - level
  {
    if level == PRIMARY {
      if ts[0].LPar? { ParseWithin(OR, ts[1..], k); }
    } else if level == NOT {
      if ts[0].NotT? { ParseWithin(NOT, ts[1..], k); } else { ParseWithin(EQUALITY, ts, k); }
    } else {
      ParseWithin(level + 1, ts, k);
      var Done(e, rest, next) := Parse(level + 1, ts, k);
      ChainWithin(level, e, rest, next);
    }
  }

  lemma {:induction false} ChainWithin(level: nat, left: Expr, ts: seq<Tok>, k: nat)
    requires level < PRIMARY && level != NOT && Chain(level, left, ts, k).Done? && Within(left, k)
    ensures k <= Chain(level, left, ts, k).next && Within(Chain(level, left, ts, k).expr, Chain(level, left, ts, k).next)
    decreases |ts|, 1 + PRIMARY - level
  {
    if ts != [] && Binds(ts[0]) == Some(level) {
      ParseWithin(level + 1, ts[1..], k);
      var Done(e, rest, next) := Parse(level + 1, ts[1..], k);
      WithinMore(left, k, next);
      ChainWithin(level, Bin(ts[0], left, e), rest, next);
    }
  }

  lemma {:induction false} EvalWithin(sem: Sem, row: Row, ps: seq<SqlVal>, own: seq<SqlVal>, e: Expr)
    requires own <= ps && Within(e, |own|)
    ensures Eval(sem, row, ps, e) == Eval(sem, row, own, e)
  {
    match e {
      case Term(a, k) =>
        if a.Other? {
          assert BindAll(ps, k, a.params) == BindAll(own, k, a.params);
        }
      case Not(x) => EvalWithin(sem, row, ps, own, x);
      case Bin(_, l, r) =>
        EvalWithin(sem, row, ps, own, l);
        EvalWithin(sem, row, ps, own, r);
    }
  }

  lemma RawEvals(sem: Sem, row: Row, raw: RawWhere)
    requires RawOk(raw)
    ensures Good(RawPiece(sem.encode, raw), OR)
    ensures Evals(sem, row, RawPiece(sem.encode, raw), RawMeaning(sem, row, Some(raw)))
  {
    var p := RawPiece(sem.encode, raw);
    WholeIsGood(p);
    ParseWithin(OR, raw.sql, 0);
    forall ps: seq<SqlVal> | p.params <= ps ensures Verdict(sem, row, ps, p.expr) == RawMeaning(sem, row, Some(raw)) {
      EvalWithin(sem, row, ps, p.params, p.expr);
    }
  }

  lemma FilterEvals(sem: Sem, row: Row, filter: Option<Filter>)
    ensures Good(FilterPiece(sem.encode, filter), OR)
    ensures Evals(sem, row, FilterPiece(sem.encode, filter), FilterMeaning(sem, row, filter))
  {
    match filter {
      case None => LeafGood(IntLit(1), []); GoodLooser(Leaf(IntLit(1), []), PRIMARY, OR);
      case Some(f) =>
        BuildGood(sem.encode, f);
        GoodLooser(Build(sem.encode, f), Level(f), OR);
        BuildEvals(sem, row, f);
    }
  }

  lemma ParensEvals(sem: Sem, row: Row, p: Piece, t: Tri)
    requires Evals(sem, row, p, t)
    ensures Evals(sem, row, Parens(p), t)
  {
    assert Parens(p).params == p.params && Parens(p).expr == p.expr;
  }

  /** Two parts, the left in parentheses, joined by AND. */
  lemma AndPair(sem: Sem, row: Row, p: Piece, q: Piece, s: Tri, t: Tri)
    requires Good(p, PRIMARY) && Good(q, NOT) && Evals(sem, row, p, s) && Evals(sem, row, q, t)
    ensures Good(Pair(AndT, p, q), AND) && Leads(Pair(AndT, p, q), AND)
    ensures Evals(sem, row, Pair(AndT, p, q), And3(s, t))
  {
    GoodLooser(p, PRIMARY, NOT);
    GoodLeads(p, AND);
    PairLeads(AND, AndT, p, q);
    LeadsGood(Pair(AndT, p, q), AND);
    PairEvals(sem, row, AndT, p, q, s, t);
  }

  lemma WithRawEvals(sem: Sem, row: Row, filter: Option<Filter>, raw: Option<RawWhere>)
    requires raw.Some? ==> RawOk(raw.value)
    ensures var p := WithRaw(sem.encode, filter, raw);
            && Good(p, OR) && (raw.Some? ==> Leads(p, AND))
            && Evals(sem, row, p, And3(FilterMeaning(sem, row, filter), RawMeaning(sem, row, raw)))
  {
    FilterEvals(sem, row, filter);
    if raw.Some? {
      RawEvals(sem, row, raw.value);
      var f, r := FilterPiece(sem.encode, filter), RawPiece(sem.encode, raw.value);
      ParensGood(f);
      ParensGood(r);
      GoodLooser(Parens(r), PRIMARY, NOT);
      ParensEvals(sem, row, f, FilterMeaning(sem, row, filter));
      ParensEvals(sem, row, r, RawMeaning(sem, row, raw));
      AndPair(sem, row, Parens(f), Parens(r), FilterMeaning(sem, row, filter), RawMeaning(sem, row, raw));
      GoodLooser(Pair(AndT, Parens(f), Parens(r)), AND, OR);
    }
  }

  lemma LiveEvals(sem: Sem, row: Row)
    ensures Good(LivePiece(), EQUALITY) && Evals(sem, row, LivePiece(), LiveMeaning(sem, row, false))
  {
    LeafGood(Column("live"), []);
    LeafGood(IntLit(1), []);
    RelGood(RelOp.Eq, Leaf(Column("live"), []), Leaf(IntLit(1), []));
    RelEvals(sem, row, RelOp.Eq, Column("live"), [], IntLit(1), []);
  }

  lemma WhereEvals(sem: Sem, row: Row, filter: Option<Filter>, raw: Option<RawWhere>, includeDead: bool)
    requires raw.Some? ==> RawOk(raw.value)
    ensures var p := Where(sem.encode, filter, raw, includeDead);
            && Good(p, OR) && (!BareOr(filter, raw, includeDead) ==> Leads(p, AND))
            && Evals(sem, row, p, WhereMeaning(sem, row, filter, raw, includeDead))
  {
    WithRawEvals(sem, row, filter, raw);
    var inner := WithRaw(sem.encode, filter, raw);
    if !includeDead {
      ParensGood(inner);
      LiveEvals(sem, row);
      GoodLooser(LivePiece(), EQUALITY, NOT);
      var t := And3(FilterMeaning(sem, row, filter), RawMeaning(sem, row, raw));
      ParensEvals(sem, row, inner, t);
      AndPair(sem, row, Parens(inner), LivePiece(), t, LiveMeaning(sem, row, false));
      GoodLooser(Pair(AndT, Parens(inner), LivePiece()), AND, OR);
    } else if raw.None? && !BareOr(filter, raw, includeDead) {
      AloneLeads(sem.encode, filter);
    }
  }

  lemma AloneLeads(enc: Encoder, filter: Option<Filter>)
    requires filter.Some? && filter.value.Or? ==> |filter.value.filters| <= 1
    ensures Leads(FilterPiece(enc, filter), AND)
  {
    match filter {
      case None =>
        LeafGood(IntLit(1), []);
        GoodLooser(Leaf(IntLit(1), []), PRIMARY, NOT);
        GoodLeads(Leaf(IntLit(1), []), AND);
      case Some(f) =>
        if f.And? && |f.filters| > 1 {
          BuildsGood(enc, f.filters);
          var ps := Builds(enc, f.filters);
          forall i | 0 <= i < |ps| ensures Good(ps[i], NOT) {
            GoodLooser(ps[i], PRIMARY, NOT);
          }
          JoinLeads(AND, AndT, ps);
        } else {
          BuildGood(enc, f);
          GoodLooser(Build(enc, f), Level(f), NOT);
          GoodLeads(Build(enc, f), AND);
        }
    }
  }

  /** The compiled WHERE body, without a cursor, is right for every row and every kind of filter. */
  lemma CompiledWhereMeans(sem: Sem, row: Row, filter: Option<Filter>, raw: Option<RawWhere>, includeDead: bool)
    requires raw.Some? ==> RawOk(raw.value)
    ensures var p := Where(sem.encode, filter, raw, includeDead);
            && Parse(OR, p.toks, 0) == Done(p.expr, [], |p.params|)
            && Verdict(sem, row, p.params, p.expr) == WhereMeaning(sem, row, filter, raw, includeDead)
  {
    WhereEvals(sem, row, filter, raw, includeDead);
    GoodWhole(Where(sem.encode, filter, raw, includeDead));
  }

  // ---- the keyset cursor -----------------------------------------------------------------

  function OrderTerm(orderBy: Option<(string, Order)>): (Atom, Order) {
    match orderBy
    case None => (Column("updated_at"), Desc)
    case Some((field, order)) =>
      if field == "updated_at" || field == "last_seq" || field == "stream" || field == "live"
      then (Column(field), order) else (FieldLit("$." + field), order)
  }

  function Cmp(order: Order): RelOp {
    match order case Asc => RelOp.Gt case Desc => RelOp.Lt
  }

  function KeyPiece(enc: Encoder, after: After, orderBy: Option<(string, Order)>): Piece {
    var (term, order) := OrderTerm(orderBy);
    var key := Parens(Leaf(term, []));
    var value := Leaf(ValueOf, [enc(after.orderValue)]);
    var strictly := Pair(Rel(Cmp(order)), key, value);
    var tie := Pair(Rel(RelOp.Eq), key, value);
    var later := Pair(Rel(Cmp(order)), Leaf(Column("stream"), []), Leaf(Bound, [SqlText(after.stream)]));
    Parens(Pair(OrT, strictly, Parens(Pair(AndT, tie, later))))
  }

  // ---- the order asked for, with no SQL text in sight --------------------------------------

  /** Newest first unless the query says otherwise. */
  function Direction(orderBy: Option<(string, Order)>): Order {
    if orderBy.None? then Desc else orderBy.value.1
  }

  /** What rows are sorted by: the time of the last event, a column of the table, or a member of the state. */
  function SortKey(sem: Sem, orderBy: Option<(string, Order)>, row: Row): SqlVal {
    match orderBy
    case None => SqlInt(row.updatedAt)
    case Some((field, _)) =>
      if field == "updated_at" then SqlInt(row.updatedAt)
      else if field == "last_seq" then SqlInt(row.lastSeq)
      else if field == "stream" then SqlText(row.stream)
      else if field == "live" then SqlInt(if row.live then 1 else 0)
      else sem.extract(row.state, Path(field))
  }

  /** The compiled sort key and direction are these. */
  lemma OrderTermIs(sem: Sem, row: Row, orderBy: Option<(string, Order)>)
    ensures EvalAtom(sem, row, [], OrderTerm(orderBy).0, 0) == SortKey(sem, orderBy, row)
  {
  }

  lemma DirectionIs(orderBy: Option<(string, Order)>)
    ensures OrderTerm(orderBy).1 == Direction(orderBy)
  {
  }

  /** Does `x` lie strictly further on than `y`: above it going up, below it going down? */
  function Beyond(sem: Sem, order: Order, x: SqlVal, y: SqlVal): Tri {
    match order
    case Asc => sem.compare(RelOp.Gt, x, y)
    case Desc => sem.compare(RelOp.Lt, x, y)
  }

  /** Where the row stands, in sort order, relative to the cursor. */
  function KeyMeaning(sem: Sem, row: Row, after: After, orderBy: Option<(string, Order)>): Tri {
    var order, key, value := Direction(orderBy), SortKey(sem, orderBy, row), sem.unwrap(sem.encode(after.orderValue));
    Or3(Beyond(sem, order, key, value),
        And3(sem.compare(RelOp.Eq, key, value), Beyond(sem, order, SqlText(row.stream), SqlText(after.stream))))
  }

  lemma RelPieceEvals(sem: Sem, row: Row, op: RelOp, p: Piece, a: Atom, b: Atom, bs: seq<SqlVal>)
    requires Placeholders(a) == 0 && Placeholders(b) == |bs| <= 1
    requires p == Parens(Leaf(a, [])) || p == Leaf(a, [])
    ensures Good(Pair(Rel(op), p, Leaf(b, bs)), EQUALITY)
    ensures Evals(sem, row, Pair(Rel(op), p, Leaf(b, bs)),
                  sem.compare(op, EvalAtom(sem, row, [], a, 0), EvalAtom(sem, row, bs, b, 0)))
  {
    LeafGood(a, []);
    LeafGood(b, bs);
    GoodLooser(Leaf(a, []), PRIMARY, OR);
    ParensGood(Leaf(a, []));
    RelGood(op, p, Leaf(b, bs));
    RelEvals(sem, row, op, a, [], b, bs);
    var plain := Pair(Rel(op), Leaf(a, []), Leaf(b, bs));
    assert Pair(Rel(op), p, Leaf(b, bs)).params == plain.params && Pair(Rel(op), p, Leaf(b, bs)).expr == plain.expr;
  }

  lemma KeyEvals(sem: Sem, row: Row, after: After, orderBy: Option<(string, Order)>)
    ensures Good(KeyPiece(sem.encode, after, orderBy), PRIMARY)
    ensures Evals(sem, row, KeyPiece(sem.encode, after, orderBy), KeyMeaning(sem, row, after, orderBy))
  {
    var (term, order) := OrderTerm(orderBy);
    var key := Parens(Leaf(term, []));
    var v := [sem.encode(after.orderValue)];
    var x, y := EvalAtom(sem, row, [], term, 0), sem.unwrap(sem.encode(after.orderValue));
    OrderTermIs(sem, row, orderBy);
    DirectionIs(orderBy);
    var strictly := Pair(Rel(Cmp(order)), key, Leaf(ValueOf, v));
    var tie := Pair(Rel(RelOp.Eq), key, Leaf(ValueOf, v));
    var later := Pair(Rel(Cmp(order)), Leaf(Column("stream"), []), Leaf(Bound, [SqlText(after.stream)]));
    RelPieceEvals(sem, row, Cmp(order), key, term, ValueOf, v);
    RelPieceEvals(sem, row, RelOp.Eq, key, term, ValueOf, v);
    RelPieceEvals(sem, row, Cmp(order), Leaf(Column("stream"), []), Column("stream"), Bound, [SqlText(after.stream)]);
    var s, t, u := sem.compare(Cmp(order), x, y), sem.compare(RelOp.Eq, x, y), sem.compare(Cmp(order), SqlText(row.stream),
        SqlText(after.stream));
    OrOfAnd(sem, row, strictly, tie, later, s, t, u);
  }

  lemma OrOfAnd(sem: Sem, row: Row, p: Piece, q: Piece, r: Piece, s: Tri, t: Tri, u: Tri)
    requires Good(p, EQUALITY) && Good(q, EQUALITY) && Good(r, EQUALITY)
    requires Evals(sem, row, p, s) && Evals(sem, row, q, t) && Evals(sem, row, r, u)
    ensures var whole := Parens(Pair(OrT, p, Parens(Pair(AndT, q, r))));
            Good(whole, PRIMARY) && Evals(sem, row, whole, Or3(s, And3(t, u)))
  {
    var both := Pair(AndT, q, r);
    GoodLooser(q, EQUALITY, NOT);
    GoodLooser(r, EQUALITY, NOT);
    GoodLeads(q, AND);
    PairLeads(AND, AndT, q, r);
    LeadsGood(both, AND);
    GoodLooser(both, AND, OR);
    ParensGood(both);
    PairEvals(sem, row, AndT, q, r, t, u);
    ParensEvals(sem, row, both, And3(t, u));
    GoodLooser(p, EQUALITY, AND);
    GoodLooser(Parens(both), PRIMARY, AND);
    GoodLeads(p, OR);
    PairLeads(OR, OrT, p, Parens(both));
    LeadsGood(Pair(OrT, p, Parens(both)), OR);
    ParensGood(Pair(OrT, p, Parens(both)));
    PairEvals(sem, row, OrT, p, Parens(both), s, And3(t, u));
    ParensEvals(sem, row, Pair(OrT, p, Parens(both)), Or3(s, And3(t, u)));
  }

  /** The WHERE text with the cursor predicate appended after " AND ". */
  function Paged(enc: Encoder, q: Query): Piece {
    var where := Where(enc, q.filter, q.raw, q.includeDead);
    if q.after.None? then where else Pair(AndT, where, KeyPiece(enc, q.after.value, q.orderBy))
  }

  function PagedMeaning(sem: Sem, row: Row, q: Query): Tri {
    var where := WhereMeaning(sem, row, q.filter, q.raw, q.includeDead);
    if q.after.None? then where else And3(where, KeyMeaning(sem, row, q.after.value, q.orderBy))
  }

  /** The value SQLite gives the whole WHERE text for a row. */
  function Selected(sem: Sem, row: Row, toks: seq<Tok>, params: seq<SqlVal>): Tri {
    match Parse(OR, toks, 0)
    case Fail => Unknown
    case Done(e, rest, _) => if rest == [] then Verdict(sem, row, params, e) else Unknown
  }

  lemma SelectedIs(sem: Sem, row: Row, p: Piece, t: Tri, more: seq<SqlVal>)
    requires Good(p, OR) && Evals(sem, row, p, t)
    ensures Parse(OR, p.toks, 0) == Done(p.expr, [], |p.params|)
    ensures Selected(sem, row, p.toks, p.params + more) == t
  {
    GoodWhole(p);
    assert p.params <= p.params + more;
  }

  lemma PagedEvals(sem: Sem, row: Row, q: Query)
    requires q.raw.Some? ==> RawOk(q.raw.value)
    requires q.after.None? || !BareOr(q.filter, q.raw, q.includeDead)
    ensures Good(Paged(sem.encode, q), OR) && Evals(sem, row, Paged(sem.encode, q), PagedMeaning(sem, row, q))
  {
    WhereEvals(sem, row, q.filter, q.raw, q.includeDead);
    if q.after.Some? {
      var where, key := Where(sem.encode, q.filter, q.raw, q.includeDead), KeyPiece(sem.encode, q.after.value, q.orderBy);
      KeyEvals(sem, row, q.after.value, q.orderBy);
      CursorPair(sem, row, where, key, WhereMeaning(sem, row, q.filter, q.raw, q.includeDead),
                 KeyMeaning(sem, row, q.after.value, q.orderBy));
    }
  }

  lemma CursorPair(sem: Sem, row: Row, where: Piece, key: Piece, s: Tri, t: Tri)
    requires Leads(where, AND) && Good(key, PRIMARY) && Evals(sem, row, where, s) && Evals(sem, row, key, t)
    ensures Good(Pair(AndT, where, key), OR) && Evals(sem, row, Pair(AndT, where, key), And3(s, t))
  {
    GoodLooser(key, PRIMARY, NOT);
    PairLeads(AND, AndT, where, key);
    LeadsGood(Pair(AndT, where, key), AND);
    GoodLooser(Pair(AndT, where, key), AND, OR);
    PairEvals(sem, row, AndT, where, key, s, t);
  }

  /** Unless the WHERE body is a bare OR under a cursor, the assembled text means filter AND raw AND live AND cursor. */
  lemma CompiledQueryMeans(sem: Sem, row: Row, q: Query, more: seq<SqlVal>)
    requires q.raw.Some? ==> RawOk(q.raw.value)
    requires q.after.None? || !BareOr(q.filter, q.raw, q.includeDead)
    ensures var p := Paged(sem.encode, q);
            && Parse(OR, p.toks, 0) == Done(p.expr, [], |p.params|)
            && Selected(sem, row, p.toks, p.params + more) == PagedMeaning(sem, row, q)
  {
    PagedEvals(sem, row, q);
    SelectedIs(sem, row, Paged(sem.encode, q), PagedMeaning(sem, row, q), more);
  }

  /** How the text of a bare OR with a cursor after it really parses. */
  function Misread(ps: seq<Piece>, key: Piece): Piece
    requires |ps| > 1
  {
    Join(OrT, ps[..|ps| - 1] + [Pair(AndT, ps[|ps| - 1], key)])
  }

  lemma SameText(ps: seq<Piece>, key: Piece)
    requires |ps| > 1
    ensures Pair(AndT, Join(OrT, ps), key).toks == Misread(ps, key).toks
    ensures Pair(AndT, Join(OrT, ps), key).params == Misread(ps, key).params
  {
    var n := |ps| - 1;
    assert (ps[..n] + [Pair(AndT, ps[n], key)])[..n] == ps[..n];
    PairAssociates(Join(OrT, ps[..n]), ps[n], key);
  }

  lemma PairAssociates(p: Piece, q: Piece, r: Piece)
    ensures Pair(AndT, Pair(OrT, p, q), r).toks == Pair(OrT, p, Pair(AndT, q, r)).toks
    ensures Pair(AndT, Pair(OrT, p, q), r).params == Pair(OrT, p, Pair(AndT, q, r)).params
  {
    Concat5(p.toks, [OrT], q.toks, [AndT], r.toks);
    assert (p.params + q.params) + r.params == p.params + (q.params + r.params);
  }

  lemma Concat5<T>(a: seq<T>, b: seq<T>, c: seq<T>, d: seq<T>, e: seq<T>)
    ensures (a + b + c) + d + e == a + b + (c + d + e)
  {
  }

  lemma MisreadEvals(sem: Sem, row: Row, ps: seq<Piece>, ms: seq<Tri>, key: Piece, k: Tri)
    requires |ps| == |ms| > 1 && Good(key, PRIMARY) && Evals(sem, row, key, k)
    requires forall i :: 0 <= i < |ps| ==> Good(ps[i], PRIMARY) && Evals(sem, row, ps[i], ms[i])
    ensures Good(Misread(ps, key), OR)
    ensures Evals(sem, row, Misread(ps, key), Any3(ms[..|ms| - 1] + [And3(ms[|ms| - 1], k)]))
  {
    var n := |ps| - 1;
    GoodLooser(key, PRIMARY, NOT);
    AndPair(sem, row, ps[n], key, ms[n], k);
    var parts := ps[..n] + [Pair(AndT, ps[n], key)];
    var ts := ms[..n] + [And3(ms[n], k)];
    forall i | 0 <= i < |parts| ensures Good(parts[i], AND) && Evals(sem, row, parts[i], ts[i]) {
      if i < n { GoodLooser(ps[i], PRIMARY, AND); }
    }
    JoinLeads(OR, OrT, parts);
    LeadsGood(Join(OrT, parts), OR);
    JoinEvals(sem, row, OrT, parts, ts);
  }

  lemma WrongRows(ms: seq<Tri>, k: Tri)
    requires |ms| > 1
    ensures ((Any3(ms[..|ms| - 1] + [And3(ms[|ms| - 1], k)]) == True) != (And3(Any3(ms), k) == True)) <==>
            (True in ms[..|ms| - 1] && k != True)
  {
    var n := |ms| - 1;
    assert ms == ms[..n] + [ms[n]];
  }

  lemma BareOrText(sem: Sem, row: Row, q: Query)
    requires q.after.Some? && BareOr(q.filter, q.raw, q.includeDead)
    ensures var ps := Builds(sem.encode, q.filter.value.filters);
            var key := KeyPiece(sem.encode, q.after.value, q.orderBy);
            Paged(sem.encode, q).toks == Misread(ps, key).toks && Paged(sem.encode, q).params == Misread(ps, key).params
    ensures PagedMeaning(sem, row, q) ==
            And3(Any3(Meanings(sem, row, q.filter.value.filters)), KeyMeaning(sem, row, q.after.value, q.orderBy))
  {
    BareOrWhere(sem, row, q.filter.value);
    SameText(Builds(sem.encode, q.filter.value.filters), KeyPiece(sem.encode, q.after.value, q.orderBy));
  }

  lemma BareOrWhere(sem: Sem, row: Row, f: Filter)
    requires f.Or? && |f.filters| > 1
    ensures Where(sem.encode, Some(f), None, true) == Join(OrT, Builds(sem.encode, f.filters))
    ensures WhereMeaning(sem, row, Some(f), None, true) == Any3(Meanings(sem, row, f.filters))
  {
  }

  /**
   * The bare OR: the cursor binds to the last disjunct only. The text then
   * selects a row it should not exactly when the row satisfies an earlier
   * disjunct and does not lie past the cursor.
   */
  lemma BareOrUnderCursor(sem: Sem, row: Row, q: Query, more: seq<SqlVal>)
    requires q.after.Some? && BareOr(q.filter, q.raw, q.includeDead)
    ensures var p := Paged(sem.encode, q);
            var ms := Meanings(sem, row, q.filter.value.filters);
            var key := KeyMeaning(sem, row, q.after.value, q.orderBy);
            ((Selected(sem, row, p.toks, p.params + more) == True) != (PagedMeaning(sem, row, q) == True))
            <==> (True in ms[..|ms| - 1] && key != True)
  {
    var fs := q.filter.value.filters;
    var ps, ms := Builds(sem.encode, fs), Meanings(sem, row, fs);
    var key, k := KeyPiece(sem.encode, q.after.value, q.orderBy), KeyMeaning(sem, row, q.after.value, q.orderBy);
    BuildsGood(sem.encode, fs);
    PartsEval(sem, row, fs);
    KeyEvals(sem, row, q.after.value, q.orderBy);
    MisreadEvals(sem, row, ps, ms, key, k);
    SelectedIs(sem, row, Misread(ps, key), Any3(ms[..|ms| - 1] + [And3(ms[|ms| - 1], k)]), more);
    BareOrText(sem, row, q);
    WrongRows(ms, k);
  }

  /** Such a row: it satisfies the first of two disjuncts, stands on the cursor itself, and is selected again. */
  lemma BareOrMisreads(row: Row, q: Query, more: seq<SqlVal>)
    requires row == Row("s", Object(map["kind" := Text("a")]), 1, 7, true)
    requires q == Query(Some(Filter.Or([Filter.Eq("kind", Text("a")), Filter.Eq("kind", Text("b"))])), None, None,
                        Some(After(Number(7), "s")), 10, 0, true)
    ensures var p := Paged(PLAIN.encode, q);
            Selected(PLAIN, row, p.toks, p.params + more) == True && PagedMeaning(PLAIN, row, q) == False
  {
    hide Paged, Selected, PagedMeaning, KeyMeaning, Meaning;
    FirstHolds(row, q);
    OnTheCursor(row, q);
    BareOrUnderCursor(PLAIN, row, q, more);
    BareOrText(PLAIN, row, q);
    var ms := Meanings(PLAIN, row, q.filter.value.filters);
    assert ms[..|ms| - 1][0] == True;
  }

  lemma FirstHolds(row: Row, q: Query)
    requires row.state == Object(map["kind" := Text("a")])
    ensures Meaning(PLAIN, row, Filter.Eq("kind", Text("a"))) == True
  {
    assert ("$." + "kind")[2..] == "kind";
  }

  lemma OnTheCursor(row: Row, q: Query)
    requires q.after == Some(After(Number(row.updatedAt), row.stream)) && q.orderBy == None
    ensures KeyMeaning(PLAIN, row, q.after.value, q.orderBy) == False
  {
    TextOrder(row.stream, row.stream, row.stream);
  }
}
