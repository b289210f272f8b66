/** What every other module shares: Option, and one fact about maps. */
module Wrappers {
  datatype Option<+T> = None | Some(value: T)

  /** Maps that agree but for one key agree on every other key. */
  lemma OtherKey<K, T>(a: map<K, T>, b: map<K, T>, key: K, other: K)
    requires a - {key} == b - {key} && other != key
    ensures (other in a <==> other in b) && (other in a ==> a[other] == b[other])
  {
    assert other in a <==> other in a - {key};
    assert other in b <==> other in b - {key};
  }
}

/**
 * JSON documents and JSON Patch, as far as the store depends on them.
 *
 * A patch is applied all-or-nothing: `Apply` is a partial function. `add` with
 * the empty pointer replaces the whole document (section 4.1 of RFC 6902).
 */
module Json {
  import opened Wrappers

  datatype Json = Null | Number(number: int) | Text(text: string) | Object(fields: map<string, Json>)

  /** A pointer is its list of reference tokens (section 3 of RFC 6901). */
  type Pointer = seq<string>

  datatype Op =
    | Add(path: Pointer, value: Json)
    | Replace(path: Pointer, value: Json)
    | Remove(path: Pointer)

  type Patch = seq<Op>

  function ApplyOp(doc: Json, op: Op): Option<Json>
    decreases |op.path|
  {
    if op.path == [] then
      if op.Remove? then None else Some(op.value)
    else if !doc.Object? then None
    else
      var key := op.path[0];
      if |op.path| == 1 && op.Add? then Some(Object(doc.fields[key := op.value]))
      else if key !in doc.fields then None
      else if |op.path| == 1 && op.Remove? then Some(Object(doc.fields - {key}))
      else
        match ApplyOp(doc.fields[key], op.(path := op.path[1..]))
        case None => None
        case Some(child) => Some(Object(doc.fields[key := child]))
  }

  // ---- what an operation does, by the members a pointer names -----------------------

  /** The member a pointer names, if the document has it (section 4 of RFC 6901). */
  function At(doc: Json, path: Pointer): Option<Json>
    decreases |path|
  {
    if path == [] then Some(doc)
    else if doc.Object? && path[0] in doc.fields then At(doc.fields[path[0]], path[1..])
    else None
  }

  /** Neither pointer leads through the other. */
  predicate Apart(p: Pointer, q: Pointer) {
    !(p <= q) && !(q <= p)
  }

  /**
   * `add` works where there is an object to take the member, or at the root;
   * `replace` only on a member that is there; `remove` only on one, and not on the
   * root (section 4 of RFC 6902).
   */
  lemma {:induction false} OpWorks(doc: Json, op: Op)
    ensures ApplyOp(doc, op).Some? <==>
              match op
              case Add(path, _) =>
                path == [] || (At(doc, path[..|path| - 1]).Some? && At(doc, path[..|path| - 1]).value.Object?)
              case Replace(path, _) => At(doc, path).Some?
              case Remove(path) => path != [] && At(doc, path).Some?
    decreases |op.path|
  {
    if op.path != [] && doc.Object? && op.path[0] in doc.fields && |op.path| > 1 {
      var lower := op.(path := op.path[1..]);
      OpWorks(doc.fields[op.path[0]], lower);
      assert op.path[..|op.path| - 1][1..] == lower.path[..|lower.path| - 1];
    }
  }

  /** Afterwards the member has the value, or is gone, and every member apart from it is as it was. */
  lemma {:induction false} OpDoes(doc: Json, op: Op, other: Pointer)
    requires ApplyOp(doc, op).Some?
    ensures At(ApplyOp(doc, op).value, op.path) == if op.Remove? then None else Some(op.value)
    ensures Apart(op.path, other) ==> At(ApplyOp(doc, op).value, other) == At(doc, other)
    decreases |op.path|
  {
    if |op.path| > 1 {
      var lower := op.(path := op.path[1..]);
      OpDoes(doc.fields[op.path[0]], lower, if other == [] then [] else other[1..]);
      if other != [] && other[0] == op.path[0] { ApartBelow(op.path[0], lower.path, other[1..]); }
      assert op.path == [op.path[0]] + lower.path && (other != [] ==> other == [other[0]] + other[1..]);
    }
  }

  lemma ApartBelow(key: string, p: Pointer, q: Pointer)
    ensures Apart([key] + p, [key] + q) ==> Apart(p, q)
  {
    if p <= q {
      assert q == p + q[|p|..] && [key] + q == ([key] + p) + q[|p|..];
    }
    if q <= p {
      assert p == q + p[|q|..] && [key] + p == ([key] + q) + p[|q|..];
    }
  }

  function Apply(doc: Json, patch: Patch): Option<Json>
    decreases |patch|
  {
    if patch == [] then Some(doc)
    else
      match ApplyOp(doc, patch[0])
      case None => None
      case Some(next) => Apply(next, patch[1..])
  }

  lemma {:induction false} ApplyAppend(doc: Json, p: Patch, q: Patch)
    ensures Apply(doc, p + q) == match Apply(doc, p) case None => None case Some(mid) => Apply(mid, q)
    decreases |p|
  {
    if p == [] {
      assert p + q == q;
    } else {
      assert (p + q)[1..] == p[1..] + q;
      match ApplyOp(doc, p[0]) {
        case None =>
        case Some(next) => ApplyAppend(next, p[1..], q);
      }
    }
  }

  /** The patch that does to member `key` what `patch` does to a whole document. */
  function Under(key: string, patch: Patch): (r: Patch)
    ensures |r| == |patch|
  {
    seq(|patch|, i requires 0 <= i < |patch| => patch[i].(path := [key] + patch[i].path))
  }

  predicate KeepsRoot(patch: Patch) {
    forall i :: 0 <= i < |patch| ==> !(patch[i].Remove? && patch[i].path == [])
  }

  lemma {:induction false} ApplyUnder(fields: map<string, Json>, key: string, patch: Patch)
    requires key in fields && KeepsRoot(patch)
    ensures Apply(Object(fields), Under(key, patch)) ==
            match Apply(fields[key], patch)
            case None => None
            case Some(child) => Some(Object(fields[key := child]))
    decreases |patch|
  {
    if patch == [] {
      assert fields[key := fields[key]] == fields;
    } else {
      var op := patch[0];
      var lifted := op.(path := [key] + op.path);
      assert Under(key, patch)[0] == lifted && lifted.path[1..] == op.path;
      assert Under(key, patch)[1..] == Under(key, patch[1..]);
      assert ApplyOp(Object(fields), lifted) ==
             match ApplyOp(fields[key], op) case None => None case Some(c) => Some(Object(fields[key := c])) by {
        assert lifted.(path := lifted.path[1..]) == op;
      }
      match ApplyOp(fields[key], op) {
        case None =>
        case Some(child) =>
          ApplyUnder(fields[key := child], key, patch[1..]);
          match Apply(child, patch[1..]) {
            case None =>
            case Some(last) => assert fields[key := child][key := last] == fields[key := last];
          }
      }
    }
  }

  /** `from` on the members still to do, `to` on the others. */
  ghost function Mixed(from: map<string, Json>, to: map<string, Json>, todo: set<string>): map<string, Json> {
    map k | k in from.Keys + to.Keys && (if k in todo then k in from else k in to)
      :: if k in todo then from[k] else to[k]
  }

  /** A patch that turns `a` into `b`. Which one, among several, is left open. */
  method Diff(a: Json, b: Json) returns (patch: Patch)
    ensures Apply(a, patch) == Some(b)
    ensures KeepsRoot(patch)
    decreases a
  {
    if a == b { return []; }
    if !a.Object? || !b.Object? { return [Replace([], b)]; }
    var from, to := a.fields, b.fields;
    var todo := from.Keys + to.Keys;
    patch := [];
    assert Mixed(from, to, todo) == from;
    while todo != {}
      invariant todo <= from.Keys + to.Keys
      invariant KeepsRoot(patch)
      invariant Apply(a, patch) == Some(Object(Mixed(from, to, todo)))
    {
      var key :| key in todo;
      var step: Patch;
      ghost var now := Mixed(from, to, todo);
      if key !in to {
        step := [Remove([key])];
        assert Mixed(from, to, todo - {key}) == now - {key};
      } else if key !in from {
        step := [Add([key], to[key])];
        assert Mixed(from, to, todo - {key}) == now[key := to[key]];
      } else {
        var inner := Diff(from[key], to[key]);
        step := Under(key, inner);
        ApplyUnder(now, key, inner);
        assert Mixed(from, to, todo - {key}) == now[key := to[key]];
      }
      assert Apply(Object(now), step) == Some(Object(Mixed(from, to, todo - {key})));
      ApplyAppend(a, patch, step);
      patch := patch + step;
      todo := todo - {key};
    }
    assert Mixed(from, to, {}) == to;
  }
}
