/**
 * The part of SQL a compiled read-model query uses: its tokens, its grammar
 * with SQLite's operator precedence (OR < AND < NOT < = LIKE < comparisons),
 * numbered placeholders, and evaluation in three-valued logic.
 *
 * What SQLite's own functions compute (`json_extract`, `json_type`, LIKE and
 * value comparison) is a parameter `Sem`: nothing is assumed of it here.
 */
module Sql {
  import opened Wrappers
  import opened Json

  datatype SqlVal = SqlNull | SqlInt(n: int) | SqlText(s: string)

  datatype RelOp = Eq | Like | Lt | Le | Gt | Ge

  datatype Atom =
    | FieldAt              // json_extract(state, ?)
    | TypeAt               // json_type(state, ?)
    | ValueOf              // json_extract(?, '$')
    | Bound                // ?
    | FieldLit(path: string)   // json_extract(state, '<path>')
    | Column(name: string)
    | IntLit(n: int)
    | TextLit(s: string)
    | Other(id: nat, params: nat)   // any other term of a raw fragment, with its placeholders

  datatype Tok = LPar | RPar | OrT | AndT | NotT | Rel(op: RelOp) | A(atom: Atom)

  datatype Expr =
    | Term(atom: Atom, first: nat)      // its placeholders are numbered from `first`
    | Not(e: Expr)
    | Bin(op: Tok, l: Expr, r: Expr)

  function Placeholders(a: Atom): nat {
    match a
    case FieldAt | TypeAt | ValueOf | Bound => 1
    case Other(_, n) => n
    case _ => 0
  }

  // ---- parsing -----------------------------------------------------------------

  const OR: nat := 0
  const AND: nat := 1
  const NOT: nat := 2
  const EQUALITY: nat := 3
  const ORDERING: nat := 4
  const PRIMARY: nat := 5

  /** The level a binary operator binds at. */
  function Binds(t: Tok): Option<nat> {
    match t
    case OrT => Some(OR)
    case AndT => Some(AND)
    case Rel(op) => Some(if op.Eq? || op.Like? then EQUALITY else ORDERING)
    case _ => None
  }

  datatype Parsed = Fail | Done(expr: Expr, rest: seq<Tok>, next: nat)

  /**
   * Parses an expression of operators binding at `level` or tighter; `k` is the
   * number of the next placeholder. Binary operators associate to the left.
   */
  function Parse(level: nat, ts: seq<Tok>, k: nat): (r: Parsed)
    requires level <= PRIMARY
    ensures r.Done? ==> |r.rest| < |ts|
    decreases |ts|, 1 + PRIMARY - level
  {
    if level == PRIMARY then
      if ts == [] then Fail
      else if ts[0].A? then Done(Term(ts[0].atom, k), ts[1..], k + Placeholders(ts[0].atom))
      else if ts[0].LPar? then
        match Parse(OR, ts[1..], k)
        case Fail => Fail
        case Done(e, rest, next) => if rest != [] && rest[0].RPar? then Done(e, rest[1..], next) else Fail
      else Fail
    else if level == NOT then
      if ts != [] && ts[0].NotT? then
        match Parse(NOT, ts[1..], k)
        case Fail => Fail
        case Done(e, rest, next) => Done(Not(e), rest, next)
      else Parse(EQUALITY, ts, k)
    else
      match Parse(level + 1, ts, k)
      case Fail => Fail
      case Done(e, rest, next) => Chain(level, e, rest, next)
  }

  function Chain(level: nat, left: Expr, ts: seq<Tok>, k: nat): (r: Parsed)
    requires level < PRIMARY && level != NOT
    ensures r.Done? ==> |r.rest| <= |ts|
    decreases |ts|, 1 + PRIMARY - level
  {
    if ts == [] || Binds(ts[0]) != Some(level) then Done(left, ts, k)
    else
      match Parse(level + 1, ts[1..], k)
      case Fail => Fail
      case Done(e, rest, next) => Chain(level, Bin(ts[0], left, e), rest, next)
  }

  // ---- evaluation --------------------------------------------------------------

  datatype Tri = True | False | Unknown

  function Not3(a: Tri): Tri {
    match a case True => False case False => True case Unknown => Unknown
  }

  function And3(a: Tri, b: Tri): Tri {
    if a.False? || b.False? then False else if a.True? && b.True? then True else Unknown
  }

  function Or3(a: Tri, b: Tri): Tri {
    if a.True? || b.True? then True else if a.False? && b.False? then False else Unknown
  }

  function Rank(t: Tri): nat {
    match t case False => 0 case Unknown => 1 case True => 2
  }

  /** SQL's three values are ordered false, unknown, true; AND is the lesser, OR the greater, NOT the mirror image. */
  lemma Kleene(a: Tri, b: Tri)
    ensures Rank(And3(a, b)) == if Rank(a) < Rank(b) then Rank(a) else Rank(b)
    ensures Rank(Or3(a, b)) == if Rank(a) < Rank(b) then Rank(b) else Rank(a)
    ensures Rank(Not3(a)) == 2 - Rank(a)
  {
  }

  datatype Row = Row(stream: string, state: Json, lastSeq: int, updatedAt: int, live: bool)

  datatype Sem = Sem(
    extract: (Json, SqlVal) -> SqlVal, jsonType: (Json, SqlVal) -> SqlVal, unwrap: SqlVal -> SqlVal,
    encode: Json -> SqlVal, compare: (RelOp, SqlVal, SqlVal) -> Tri, textTruth: string -> Tri,
    other: (nat, Row, seq<SqlVal>) -> SqlVal)

  function Truth3(sem: Sem, v: SqlVal): Tri {
    match v
    case SqlNull => Unknown
    case SqlInt(n) => if n == 0 then False else True
    case SqlText(s) => sem.textTruth(s)
  }

  function ToVal(t: Tri): SqlVal {
    match t case True => SqlInt(1) case False => SqlInt(0) case Unknown => SqlNull
  }

  function ColumnOf(row: Row, name: string): SqlVal {
    if name == "stream" then SqlText(row.stream)
    else if name == "last_seq" then SqlInt(row.lastSeq)
    else if name == "updated_at" then SqlInt(row.updatedAt)
    else if name == "live" then SqlInt(if row.live then 1 else 0)
    else SqlNull
  }

  /** The `i`-th bound parameter; SQLite reads an unbound one as NULL. */
  function Bind(ps: seq<SqlVal>, i: nat): SqlVal {
    if i < |ps| then ps[i] else SqlNull
  }

  function BindAll(ps: seq<SqlVal>, k: nat, n: nat): (r: seq<SqlVal>)
    ensures |r| == n && forall i :: 0 <= i < n ==> r[i] == Bind(ps, k + i)
  {
    seq(n, i requires 0 <= i < n => Bind(ps, k + i))
  }

  function EvalAtom(sem: Sem, row: Row, ps: seq<SqlVal>, a: Atom, k: nat): SqlVal {
    match a
    case FieldAt => sem.extract(row.state, Bind(ps, k))
    case TypeAt => sem.jsonType(row.state, Bind(ps, k))
    case ValueOf => sem.unwrap(Bind(ps, k))
    case Bound => Bind(ps, k)
    case FieldLit(path) => sem.extract(row.state, SqlText(path))
    case Column(name) => ColumnOf(row, name)
    case IntLit(n) => SqlInt(n)
    case TextLit(s) => SqlText(s)
    case Other(id, n) => sem.other(id, row, BindAll(ps, k, n))
  }

  function Eval(sem: Sem, row: Row, ps: seq<SqlVal>, e: Expr): SqlVal {
    match e
    case Term(a, k) => EvalAtom(sem, row, ps, a, k)
    case Not(x) => ToVal(Not3(Truth3(sem, Eval(sem, row, ps, x))))
    case Bin(op, l, r) =>
      var a, b := Eval(sem, row, ps, l), Eval(sem, row, ps, r);
      match op
      case AndT => ToVal(And3(Truth3(sem, a), Truth3(sem, b)))
      case OrT => ToVal(Or3(Truth3(sem, a), Truth3(sem, b)))
      case Rel(rel) => ToVal(sem.compare(rel, a, b))
      case _ => SqlNull
  }

  /** A WHERE clause keeps a row when it is true of it, not when it is unknown. */
  function Verdict(sem: Sem, row: Row, ps: seq<SqlVal>, e: Expr): Tri {
    Truth3(sem, Eval(sem, row, ps, e))
  }

  /** The same expression, its placeholders numbered from `d` on. */
  function Shift(e: Expr, d: nat): Expr {
    match e
    case Term(a, k) => Term(a, k + d)
    case Not(x) => Not(Shift(x, d))
    case Bin(op, l, r) => Bin(op, Shift(l, d), Shift(r, d))
  }

  lemma {:induction false} EvalShift(sem: Sem, row: Row, ps: seq<SqlVal>, e: Expr, d: nat)
    requires d <= |ps|
    ensures Eval(sem, row, ps, Shift(e, d)) == Eval(sem, row, ps[d..], e)
  {
    match e {
      case Term(a, k) =>
        assert Bind(ps, k + d) == Bind(ps[d..], k);
        if a.Other? {
          assert BindAll(ps, k + d, a.params) == BindAll(ps[d..], k, a.params);
        }
      case Not(x) => EvalShift(sem, row, ps, x, d);
      case Bin(op, l, r) =>
        EvalShift(sem, row, ps, l, d);
        EvalShift(sem, row, ps, r, d);
    }
  }

  lemma {:induction false} ShiftShift(e: Expr, d: nat, d': nat)
    ensures Shift(Shift(e, d), d') == Shift(e, d + d')
  {
    match e {
      case Term(_, _) =>
      case Not(x) => ShiftShift(x, d, d');
      case Bin(_, l, r) => ShiftShift(l, d, d'); ShiftShift(r, d, d');
    }
  }

  // ---- text composed of pieces ----------------------------------------------------

  /** A fragment: its text, its parameters in order, and how it is meant to parse. */
  datatype Piece = Piece(toks: seq<Tok>, params: seq<SqlVal>, expr: Expr)

  /** What follows does not continue an expression at `level`. */
  predicate Stops(rest: seq<Tok>, level: nat) {
    rest == [] || Binds(rest[0]) == None || Binds(rest[0]).value < level
  }

  /** In any context that stops it, the piece parses at `level` as it is meant to. */
  ghost predicate Good(p: Piece, level: nat)
    requires level <= PRIMARY
  {
    forall rest: seq<Tok>, k: nat :: Stops(rest, level) ==>
      Parse(level, p.toks + rest, k) == Done(Shift(p.expr, k), rest, k + |p.params|)
  }

  /** As the left part of a chain at `level`. */
  ghost predicate Leads(p: Piece, level: nat)
    requires level < PRIMARY && level != NOT
  {
    forall rest: seq<Tok>, k: nat :: Stops(rest, level + 1) ==>
      Parse(level, p.toks + rest, k) == Chain(level, Shift(p.expr, k), rest, k + |p.params|)
  }

  lemma NotNot(level: nat, ts: seq<Tok>, k: nat)
    requires NOT < level <= PRIMARY && Parse(level, ts, k).Done?
    ensures ts != [] && !ts[0].NotT?
    decreases PRIMARY - level
  {
    if level < PRIMARY {
      NotNot(level + 1, ts, k);
    }
  }

  lemma GoodLeads(p: Piece, level: nat)
    requires level < PRIMARY && level != NOT && Good(p, level + 1)
    ensures Leads(p, level)
  {
  }

  lemma LeadsGood(p: Piece, level: nat)
    requires level < PRIMARY && level != NOT && Leads(p, level)
    ensures Good(p, level)
  {
    forall rest: seq<Tok>, k: nat | Stops(rest, level)
      ensures Parse(level, p.toks + rest, k) == Done(Shift(p.expr, k), rest, k + |p.params|)
    {
      assert Stops(rest, level + 1);
    }
  }

  /** A piece that binds tightly may stand wherever a looser one may. */
  lemma {:induction false} GoodLooser(p: Piece, level: nat, looser: nat)
    requires looser <= level <= PRIMARY && Good(p, level)
    ensures Good(p, looser)
    decreases level - looser
  {
    if looser < level {
      GoodLooser(p, level, looser + 1);
      if looser == NOT {
        forall rest: seq<Tok>, k: nat | Stops(rest, NOT)
          ensures Parse(NOT, p.toks + rest, k) == Done(Shift(p.expr, k), rest, k + |p.params|)
        {
          assert Parse(EQUALITY, p.toks + rest, k) == Done(Shift(p.expr, k), rest, k + |p.params|);
          NotNot(EQUALITY, p.toks + rest, k);
        }
      } else {
        GoodLeads(p, looser);
        LeadsGood(p, looser);
      }
    }
  }

  function Parens(p: Piece): Piece {
    Piece([LPar] + p.toks + [RPar], p.params, p.expr)
  }

  lemma ParensGood(p: Piece)
    requires Good(p, OR)
    ensures Good(Parens(p), PRIMARY)
  {
    forall rest: seq<Tok>, k: nat
      ensures Parse(PRIMARY, Parens(p).toks + rest, k) == Done(Shift(p.expr, k), rest, k + |p.params|)
    {
      var ts := Parens(p).toks + rest;
      assert ts[1..] == p.toks + ([RPar] + rest);
      assert Stops([RPar] + rest, OR);
      assert ([RPar] + rest)[1..] == rest;
    }
  }

  /** Pieces written one after another with the same operator between them. */
  function Pair(op: Tok, p: Piece, q: Piece): Piece {
    Piece(p.toks + [op] + q.toks, p.params + q.params, Bin(op, p.expr, Shift(q.expr, |p.params|)))
  }

  lemma PairLeads(level: nat, op: Tok, p: Piece, q: Piece)
    requires level < PRIMARY && level != NOT && Binds(op) == Some(level)
    requires Leads(p, level) && Good(q, level + 1)
    ensures Leads(Pair(op, p, q), level)
  {
    hide Parse, Chain;
    forall rest: seq<Tok>, k: nat | Stops(rest, level + 1)
      ensures Parse(level, Pair(op, p, q).toks + rest, k)
           == Chain(level, Shift(Pair(op, p, q).expr, k), rest, k + |Pair(op, p, q).params|)
    {
      var tail := [op] + (q.toks + rest);
      assert Pair(op, p, q).toks + rest == p.toks + tail;
      assert Parse(level, p.toks + tail, k) == Chain(level, Shift(p.expr, k), tail, k + |p.params|);
      var k' := k + |p.params|;
      assert Parse(level + 1, q.toks + rest, k') == Done(Shift(q.expr, k'), rest, k' + |q.params|);
      ChainOnce(level, Shift(p.expr, k), op, q.toks + rest, k');
      ShiftShift(q.expr, |p.params|, k);
    }
  }

  lemma ChainOnce(level: nat, left: Expr, op: Tok, ts: seq<Tok>, k: nat)
    requires level < PRIMARY && level != NOT && Binds(op) == Some(level) && Parse(level + 1, ts, k).Done?
    ensures var Done(e, rest, next) := Parse(level + 1, ts, k);
            Chain(level, left, [op] + ts, k) == Chain(level, Bin(op, left, e), rest, next)
  {
    assert ([op] + ts)[1..] == ts;
  }

  // ---- a fragment written by somebody else ------------------------------------------

  /**
   * A text that parses on its own parses the same way, renumbered, in any
   * context that does not continue it.
   */
  lemma {:induction false} ParseExtends(level: nat, ts: seq<Tok>, k: nat, more: seq<Tok>, d: nat)
    requires level <= PRIMARY && Parse(level, ts, k).Done?
    requires Parse(level, ts, k).rest == [] ==> Stops(more, level)
    ensures var Done(e, rest, next) := Parse(level, ts, k);
            Parse(level, ts + more, k + d) == Done(Shift(e, d), rest + more, next + d)
    decreases |ts|, 1 + PRIMARY - level
  {
    hide Chain;
    assert ts != [] && (ts + more)[1..] == ts[1..] + more;
    if level == PRIMARY {
      if ts[0].LPar? {
        ParseExtends(OR, ts[1..], k, more, d);
        var rest := Parse(OR, ts[1..], k).rest;
        assert (rest + more)[1..] == rest[1..] + more;
      }
    } else if level == NOT {
      if ts[0].NotT? {
        ParseExtends(NOT, ts[1..], k, more, d);
      } else {
        ParseExtends(EQUALITY, ts, k, more, d);
      }
    } else {
      var Done(e, rest, next) := Parse(level + 1, ts, k);
      ParseExtends(level + 1, ts, k, more, d);
      ChainExtends(level, e, rest, next, more, d);
    }
  }

  lemma {:induction false} ChainExtends(level: nat, left: Expr, ts: seq<Tok>, k: nat, more: seq<Tok>, d: nat)
    requires level < PRIMARY && level != NOT && Chain(level, left, ts, k).Done?
    requires Chain(level, left, ts, k).rest == [] ==> Stops(more, level)
    ensures var Done(e, rest, next) := Chain(level, left, ts, k);
            Chain(level, Shift(left, d), ts + more, k + d) == Done(Shift(e, d), rest + more, next + d)
    decreases |ts|, 1 + PRIMARY - level
  {
    if ts == [] {
      assert ts + more == more;
    } else if Binds(ts[0]) == Some(level) {
      var Done(e, rest, next) := Parse(level + 1, ts[1..], k);
      assert (ts + more)[1..] == ts[1..] + more;
      ParseExtends(level + 1, ts[1..], k, more, d);
      ChainExtends(level, Bin(ts[0], left, e), rest, next, more, d);
    }
  }

  lemma WholeIsGood(p: Piece)
    requires Parse(OR, p.toks, 0) == Done(p.expr, [], |p.params|)
    ensures Good(p, OR)
  {
    forall rest: seq<Tok>, k: nat | Stops(rest, OR)
      ensures Parse(OR, p.toks + rest, k) == Done(Shift(p.expr, k), rest, k + |p.params|)
    {
      ParseExtends(OR, p.toks, 0, rest, k);
      assert [] + rest == rest;
    }
  }

  // ---- one such SQLite -------------------------------------------------------------

  predicate TextBefore(a: string, b: string) {
    b != [] && (a == [] || a[0] < b[0] || (a[0] == b[0] && TextBefore(a[1..], b[1..])))
  }

  /** Numbers before texts, as SQLite's storage classes are ordered. */
  predicate ValBefore(a: SqlVal, b: SqlVal) {
    match (a, b)
    case (SqlInt(m), SqlInt(n)) => m < n
    case (SqlInt(_), SqlText(_)) => true
    case (SqlText(s), SqlText(t)) => TextBefore(s, t)
    case _ => false
  }

  function Compared(op: RelOp, a: SqlVal, b: SqlVal): Tri {
    if a.SqlNull? || b.SqlNull? then Unknown
    else
      var holds := match op
                   case Eq => a == b
                   case Lt => ValBefore(a, b)
                   case Gt => ValBefore(b, a)
                   case Le => !ValBefore(b, a)
                   case Ge => !ValBefore(a, b)
                   case Like => a == b;
      if holds then True else False
  }

  function ScalarOf(j: Json): SqlVal {
    match j case Number(n) => SqlInt(n) case Text(s) => SqlText(s) case _ => SqlNull
  }

  /** The member a path `$.name` points to. */
  function MemberAt(state: Json, path: SqlVal): SqlVal {
    if path.SqlText? && |path.s| > 2 && state.Object? && path.s[2..] in state.fields then ScalarOf(state.fields[path.s[2..]])
    else SqlNull
  }

  /** SQLite on top-level members that are numbers or texts, without LIKE patterns. */
  const PLAIN := Sem((j: Json, v: SqlVal) => MemberAt(j, v), (j: Json, v: SqlVal) => SqlNull, (v: SqlVal) => v,
                     (j: Json) => ScalarOf(j), (op: RelOp, a: SqlVal, b: SqlVal) => Compared(op, a, b), (s: string) => False,
                     (id: nat, row: Row, ps: seq<SqlVal>) => SqlNull)

  lemma {:induction false} TextOrder(a: string, b: string, c: string)
    ensures !(TextBefore(a, b) && TextBefore(b, a))
    ensures a == b || TextBefore(a, b) || TextBefore(b, a)
    ensures TextBefore(a, b) && TextBefore(b, c) ==> TextBefore(a, c)
    decreases |a|
  {
    if a != [] && b != [] {
      TextOrder(a[1..], b[1..], if c == [] then [] else c[1..]);
      assert a == [a[0]] + a[1..] && b == [b[0]] + b[1..];
    }
  }
}
