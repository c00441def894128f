/**
 * JavaScript values as they occur in a drawing's form payload, with the
 * few operations of the language the core relies on: truthiness, `== null`,
 * `a || b`, property reads and path reads and writes.
 *
 * Objects are values here: a payload is a tree, so two paths never share a
 * sub-object.
 */
module JsValue {

  datatype Value =
    | Undefined
    | Null
    | Bool(b: bool)
    | Num(x: real)
    | NaN
    | Str(s: string)
    | Arr(items: seq<Value>)
    | Obj(fields: map<string, Value>)

  /** `!!v`: false for undefined, null, false, 0, NaN and "". */
  predicate Truthy(v: Value) {
    match v
    case Undefined | Null | NaN => false
    case Bool(b) => b
    case Num(x) => x != 0.0
    case Str(s) => s != ""
    case Arr(_) | Obj(_) => true
  }

  /** `v == null`, which holds for null and undefined alone. */
  predicate IsNullish(v: Value) {
    v.Undefined? || v.Null?
  }

  /** A value that a property assignment cannot be made on without a TypeError
      (strict mode), and that `x || {}` keeps. */
  predicate Blocks(v: Value) {
    Truthy(v) && !v.Obj?
  }

  /** `a || b`. */
  function Or(a: Value, b: Value): Value {
    if Truthy(a) then a else b
  }

  /** `o[k]` on a plain object: an absent key reads as undefined. */
  function Prop(o: map<string, Value>, k: string): Value {
    if k in o then o[k] else Undefined
  }

  /** The value found at path `q` below `v`; undefined as soon as a step does
      not start from an object. */
  function Lookup(v: Value, q: seq<string>): Value
    decreases |q|
  {
    if q == [] then v
    else match v
      case Obj(f) => Lookup(Prop(f, q[0]), q[1..])
      case _ => Undefined
  }

  /** Every strict prefix of `q` leads from `v` to an object, so the entry at
      `q` can be assigned. */
  predicate IsPathTo(v: Value, q: seq<string>)
    decreases |q|
  {
    q == [] || (v.Obj? && IsPathTo(Prop(v.fields, q[0]), q[1..]))
  }

  /** `v` with the entry at path `q` set to `w`. */
  function PutAt(v: Value, q: seq<string>, w: Value): Value
    requires IsPathTo(v, q)
    decreases |q|
  {
    if q == [] then w
    else Obj(v.fields[q[0] := PutAt(Prop(v.fields, q[0]), q[1..], w)])
  }

  /** Paths `p` and `q` part at some position where both still have a segment:
      neither is a prefix of the other. */
  predicate Diverge(p: seq<string>, q: seq<string>)
    decreases |p|
  {
    p != [] && q != [] && (p[0] != q[0] || Diverge(p[1..], q[1..]))
  }

  lemma {:induction false} DivergeSymmetric(p: seq<string>, q: seq<string>)
    requires Diverge(p, q)
    ensures Diverge(q, p)
  {
    if p[0] == q[0] {
      DivergeSymmetric(p[1..], q[1..]);
    }
  }

  /** A common prefix keeps paths apart. */
  lemma {:induction false} DivergeUnderPrefix(pre: seq<string>, p: seq<string>, q: seq<string>)
    requires Diverge(p, q)
    ensures Diverge(pre + p, pre + q)
    decreases |pre|
  {
    if pre != [] {
      DivergeUnderPrefix(pre[1..], p, q);
      assert (pre + p)[0] == pre[0] == (pre + q)[0];
      assert (pre + p)[1..] == pre[1..] + p;
      assert (pre + q)[1..] == pre[1..] + q;
    } else {
      assert pre + p == p && pre + q == q;
    }
  }

  /** Nothing lies below undefined. */
  lemma {:induction false} LookupUndefined(q: seq<string>)
    ensures Lookup(Undefined, q) == Undefined
  {
  }

  /** Reading `q + r` is reading `r` below the value at `q`. */
  lemma {:induction false} LookupAppend(v: Value, q: seq<string>, r: seq<string>)
    ensures Lookup(v, q + r) == Lookup(Lookup(v, q), r)
    decreases |q|
  {
    if q == [] {
      assert q + r == r;
    } else {
      assert (q + r)[0] == q[0];
      assert (q + r)[1..] == q[1..] + r;
      match v
      case Obj(f) => LookupAppend(Prop(f, q[0]), q[1..], r);
      case _ => LookupUndefined(r);
    }
  }

  /** A defined value at `q` means every step of `q` went through an object. */
  lemma {:induction false} LookupDefinedIsPath(v: Value, q: seq<string>)
    requires Lookup(v, q) != Undefined
    ensures IsPathTo(v, q)
    decreases |q|
  {
    if q != [] {
      LookupDefinedIsPath(Prop(v.fields, q[0]), q[1..]);
    }
  }

  /** An object at `q` extends the path by one segment. */
  lemma {:induction false} IsPathToExtend(v: Value, q: seq<string>, k: string)
    requires IsPathTo(v, q) && Lookup(v, q).Obj?
    ensures IsPathTo(v, q + [k])
    decreases |q|
  {
    if q == [] {
      assert q + [k] == [k];
    } else {
      assert (q + [k])[0] == q[0];
      assert (q + [k])[1..] == q[1..] + [k];
      IsPathToExtend(Prop(v.fields, q[0]), q[1..], k);
    }
  }

  /** A write can be read back. */
  lemma {:induction false} PutAtLookup(v: Value, q: seq<string>, w: Value)
    requires IsPathTo(v, q)
    ensures Lookup(PutAt(v, q, w), q) == w
    decreases |q|
  {
    if q != [] {
      PutAtLookup(Prop(v.fields, q[0]), q[1..], w);
    }
  }

  /** A write keeps the path to the written entry. */
  lemma {:induction false} PutAtKeepsPath(v: Value, q: seq<string>, w: Value)
    requires IsPathTo(v, q)
    ensures IsPathTo(PutAt(v, q, w), q)
    decreases |q|
  {
    if q != [] {
      PutAtKeepsPath(Prop(v.fields, q[0]), q[1..], w);
    }
  }

  /** A second write to the same path replaces the first. */
  lemma {:induction false} PutAtOverwrite(v: Value, q: seq<string>, w1: Value, w2: Value)
    requires IsPathTo(v, q)
    ensures IsPathTo(PutAt(v, q, w1), q)
    ensures PutAt(PutAt(v, q, w1), q, w2) == PutAt(v, q, w2)
    decreases |q|
  {
    PutAtKeepsPath(v, q, w1);
    if q != [] {
      var k, child := q[0], Prop(v.fields, q[0]);
      var x := PutAt(child, q[1..], w1);
      PutAtOverwrite(child, q[1..], w1, w2);
      assert Prop(v.fields[k := x], k) == x;
      assert v.fields[k := x][k := PutAt(child, q[1..], w2)] == v.fields[k := PutAt(child, q[1..], w2)];
    }
  }

  /** Writing entry `k` of the object at `q` is writing that object with `k`
      updated. */
  lemma {:induction false} PutAtSnoc(v: Value, q: seq<string>, k: string, w: Value)
    requires IsPathTo(v, q) && Lookup(v, q).Obj?
    ensures IsPathTo(v, q + [k])
    ensures PutAt(v, q + [k], w) == PutAt(v, q, Obj(Lookup(v, q).fields[k := w]))
    decreases |q|
  {
    IsPathToExtend(v, q, k);
    if q == [] {
      assert q + [k] == [k];
    } else {
      assert (q + [k])[0] == q[0];
      assert (q + [k])[1..] == q[1..] + [k];
      PutAtSnoc(Prop(v.fields, q[0]), q[1..], k, w);
    }
  }

  /** A write leaves every path that diverges from it as it was. */
  lemma {:induction false} PutAtElsewhere(v: Value, q: seq<string>, w: Value, p: seq<string>)
    requires IsPathTo(v, q) && Diverge(p, q)
    ensures Lookup(PutAt(v, q, w), p) == Lookup(v, p)
    decreases |q|
  {
    if p[0] == q[0] {
      PutAtElsewhere(Prop(v.fields, q[0]), q[1..], w, p[1..]);
    }
  }
}
