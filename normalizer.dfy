/**
 * The traversal shared by `processValue`, `processStringArray`,
 * `processNumberArray` and the dash step: walk a field path, turning each
 * container slot `x` on the way into `x || {}`, then overwrite the leaf.
 *
 * `Apply` states the effect on a slot of the payload tree recursively; the
 * loop that does it step by step is `SubmitData.Payload.SetLeaf`.
 */
module Normalizer {
  import opened Wrappers
  import opened JsValue

  /** Slot `v` after walking `keys` below it and replacing the leaf by `leaf`
      of its old value. Every slot above the leaf becomes `v || {}`, which
      must be an object: assigning a property on any other value raises a
      TypeError in strict mode, which is None here. */
  function Apply(v: Value, keys: seq<string>, leaf: Value -> Value): Option<Value>
    decreases |keys|
  {
    if keys == [] then Some(leaf(v))
    else match Or(v, Obj(map[]))
      case Obj(f) =>
        (match Apply(Prop(f, keys[0]), keys[1..], leaf)
         case Some(w) => Some(Obj(f[keys[0] := w]))
         case None => None)
      case _ => None
  }

  /** Run `Apply` on the result of an earlier step. */
  function Then(r: Option<Value>, keys: seq<string>, leaf: Value -> Value): Option<Value> {
    match r
    case None => None
    case Some(v) => Apply(v, keys, leaf)
  }

  /** The keys of `v` if it is an object, none otherwise. */
  function KeysOf(v: Value): set<string> {
    if v.Obj? then v.fields.Keys else {}
  }

  /** Walking a path below a slot reads the slot only as `v || {}`. */
  lemma ApplyVivified(v: Value, keys: seq<string>, leaf: Value -> Value)
    requires keys != []
    ensures Apply(v, keys, leaf) == Apply(Or(v, Obj(map[])), keys, leaf)
  {
  }

  /** The leaf ends as the rule applied to what was found there before
      (undefined when a container on the way was missing or falsy). */
  lemma {:induction false} ApplySetsLeaf(v: Value, keys: seq<string>, leaf: Value -> Value)
    requires Apply(v, keys, leaf).Some?
    ensures Lookup(Apply(v, keys, leaf).value, keys) == leaf(Lookup(v, keys))
    decreases |keys|
  {
    if keys != [] {
      var f := Or(v, Obj(map[])).fields;
      ApplySetsLeaf(Prop(f, keys[0]), keys[1..], leaf);
      if !v.Obj? {
        LookupUndefined(keys[1..]);
      }
    }
  }

  /** Every path that diverges from `keys`, sibling keys included, reads the
      same value afterwards. */
  lemma {:induction false} ApplyElsewhere(v: Value, keys: seq<string>, leaf: Value -> Value, q: seq<string>)
    requires Apply(v, keys, leaf).Some? && Diverge(q, keys)
    ensures Lookup(Apply(v, keys, leaf).value, q) == Lookup(v, q)
    decreases |keys|
  {
    var f := Or(v, Obj(map[])).fields;
    if q[0] == keys[0] {
      ApplyElsewhere(Prop(f, keys[0]), keys[1..], leaf, q[1..]);
    }
    if !v.Obj? {
      LookupUndefined(q[1..]);
    }
  }

  /** Each container on the path is an object afterwards: an object that was
      there keeps its keys and gains the next segment, a missing or falsy
      slot becomes an object holding that segment alone. */
  lemma {:induction false} ApplyContainers(v: Value, keys: seq<string>, leaf: Value -> Value, j: nat)
    requires Apply(v, keys, leaf).Some? && j < |keys|
    ensures Lookup(Apply(v, keys, leaf).value, keys[..j]).Obj?
    ensures Lookup(Apply(v, keys, leaf).value, keys[..j]).fields.Keys
         == KeysOf(Lookup(v, keys[..j])) + {keys[j]}
    decreases |keys|
  {
    var f := Or(v, Obj(map[])).fields;
    if j > 0 {
      assert keys[..j][0] == keys[0];
      assert keys[..j][1..] == keys[1..][..j - 1];
      assert keys[1..][j - 1] == keys[j];
      ApplyContainers(Prop(f, keys[0]), keys[1..], leaf, j - 1);
      if !v.Obj? {
        LookupUndefined(keys[1..][..j - 1]);
      }
    }
  }

  /** The walk fails exactly when some container slot on the path, the start
      included, holds a truthy non-object. */
  lemma {:induction false} ApplyFailsIff(v: Value, keys: seq<string>, leaf: Value -> Value)
    ensures Apply(v, keys, leaf).None?
        <==> exists j :: 0 <= j < |keys| && Blocks(Lookup(v, keys[..j]))
    decreases |keys|
  {
    if keys != [] {
      var ks := keys[1..];
      assert keys[..0] == [];
      var slot := Or(v, Obj(map[]));
      if !slot.Obj? {
        assert Blocks(Lookup(v, keys[..0]));
      } else {
        var c := Prop(slot.fields, keys[0]);
        ApplyFailsIff(c, ks, leaf);
        forall j | 1 <= j < |keys|
          ensures Lookup(v, keys[..j]) == Lookup(c, ks[..j - 1])
        {
          assert keys[..j][0] == keys[0];
          assert keys[..j][1..] == ks[..j - 1];
          if !v.Obj? {
            LookupUndefined(ks[..j - 1]);
          }
        }
        if Apply(v, keys, leaf).None? {
          var j' :| 0 <= j' < |ks| && Blocks(Lookup(c, ks[..j']));
          assert Blocks(Lookup(v, keys[..j' + 1]));
        }
        if exists j :: 0 <= j < |keys| && Blocks(Lookup(v, keys[..j])) {
          var j :| 0 <= j < |keys| && Blocks(Lookup(v, keys[..j]));
          assert j != 0;
          assert Blocks(Lookup(c, ks[..j - 1]));
        }
      }
    }
  }

  /** Walks that leave the same object by different entries can be run in
      either order. */
  lemma ApplyCommutesApart(v: Value, p: seq<string>, f1: Value -> Value, q: seq<string>, f2: Value -> Value)
    requires p != [] && q != [] && p[0] != q[0]
    ensures Then(Apply(v, p, f1), q, f2) == Then(Apply(v, q, f2), p, f1)
  {
    var slot := Or(v, Obj(map[]));
    if slot.Obj? {
      var f := slot.fields;
      var a, b := Prop(f, p[0]), Prop(f, q[0]);
      var r1, r2 := Apply(a, p[1..], f1), Apply(b, q[1..], f2);
      if r1.Some? {
        assert Prop(f[p[0] := r1.value], q[0]) == b;
      }
      if r2.Some? {
        assert Prop(f[q[0] := r2.value], p[0]) == a;
      }
      if r1.Some? && r2.Some? {
        assert f[p[0] := r1.value][q[0] := r2.value] == f[q[0] := r2.value][p[0] := r1.value];
      }
    }
  }

  /** Entry `k` of the object `f` replaced by the outcome `r` of a sub-walk. */
  function Store(f: map<string, Value>, k: string, r: Option<Value>): Option<Value> {
    if r.Some? then Some(Obj(f[k := r.value])) else None
  }

  /** One step of a walk from a slot that is (or becomes) an object. */
  lemma ApplyStep(v: Value, keys: seq<string>, leaf: Value -> Value)
    requires keys != [] && Or(v, Obj(map[])).Obj?
    ensures var f := Or(v, Obj(map[])).fields;
      Apply(v, keys, leaf) == Store(f, keys[0], Apply(Prop(f, keys[0]), keys[1..], leaf))
  {
  }

  /** A second walk entering the entry the first one stored into. */
  lemma ThenStore(f: map<string, Value>, k: string, r: Option<Value>, q: seq<string>, leaf: Value -> Value)
    requires q != [] && q[0] == k
    ensures Then(Store(f, k, r), q, leaf) == Store(f, k, Then(r, q[1..], leaf))
  {
    if r.Some? {
      var g := f[k := r.value];
      ApplyStep(Obj(g), q, leaf);
      assert Prop(g, k) == r.value;
      var x := Apply(r.value, q[1..], leaf);
      if x.Some? {
        assert g[k := x.value] == f[k := x.value];
      }
    }
  }

  /** Walks along diverging paths can be run in either order. */
  lemma {:induction false} ApplyCommutes(v: Value, p: seq<string>, f1: Value -> Value, q: seq<string>, f2: Value -> Value)
    requires Diverge(p, q)
    ensures Then(Apply(v, p, f1), q, f2) == Then(Apply(v, q, f2), p, f1)
    decreases |p|
  {
    if p[0] != q[0] {
      ApplyCommutesApart(v, p, f1, q, f2);
    } else if Or(v, Obj(map[])).Obj? {
      var f, k := Or(v, Obj(map[])).fields, p[0];
      var r1, r2 := Apply(Prop(f, k), p[1..], f1), Apply(Prop(f, k), q[1..], f2);
      ApplyStep(v, p, f1);
      ApplyStep(v, q, f2);
      ThenStore(f, k, r1, q, f2);
      ThenStore(f, k, r2, p, f1);
      ApplyCommutes(Prop(f, k), p[1..], f1, q[1..], f2);
    }
  }
}
