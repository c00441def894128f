/**
 * The `_prepareSubmitData` wrapper of a drawing's configuration sheet: the
 * dash step and the nine field normalisations run on the payload that the
 * host's own `_prepareSubmitData` produced.
 */
module SubmitData {
  import opened Wrappers
  import opened JsValue
  import opened DottedPath
  import opened LeafRules
  import opened Normalizer

  /** The package id under which the drawing's flags are stored. */
  const MODULE_ID: string := "advanced-drawing-tools"

  /** `flags.<MODULE_ID>.` followed by `rest`, as segments. */
  function FlagKeys(rest: seq<string>): seq<string> {
    ["flags", MODULE_ID] + rest
  }

  /** The same path as the dotted string the helpers are called with. */
  function FlagPath(rest: seq<string>): string {
    Join(FlagKeys(rest), '.')
  }

  /** A field the wrapper normalises, with the helper it is given to. */
  datatype Field = Field(keys: seq<string>, policy: Policy)

  const DashKeys: seq<string> := FlagKeys(["lineStyle", "dash"])
  const TextFillKeys: seq<string> := FlagKeys(["textStyle", "fill"])
  const GradientStopsKeys: seq<string> := FlagKeys(["textStyle", "fillGradientStops"])

  /** The fields in the order the wrapper processes them. */
  const Fields: seq<Field> := [
    Field(FlagKeys(["fillStyle", "texture", "width"]), SaveValue),
    Field(FlagKeys(["fillStyle", "texture", "height"]), SaveValue),
    Field(FlagKeys(["fillStyle", "transform", "position", "x"]), SaveValue),
    Field(FlagKeys(["fillStyle", "transform", "position", "y"]), SaveValue),
    Field(FlagKeys(["fillStyle", "transform", "pivot", "x"]), SaveValue),
    Field(FlagKeys(["fillStyle", "transform", "pivot", "y"]), SaveValue),
    Field(FlagKeys(["textStyle", "wordWrapWidth"]), SaveValue),
    Field(TextFillKeys, StringArray),
    Field(GradientStopsKeys, NumberArray)
  ]

  function Rule(f: Field, save: Value -> Value): Value -> Value {
    LeafRule(f.policy, save)
  }

  /** The fields of `fs` normalised one after the other. */
  function ApplyAll(v: Value, fs: seq<Field>, save: Value -> Value): Option<Value>
    decreases |fs|
  {
    if fs == [] then Some(v)
    else match Apply(v, fs[0].keys, Rule(fs[0], save))
      case None => None
      case Some(w) => ApplyAll(w, fs[1..], save)
  }

  /** The payload the wrapper returns; None when it raises a TypeError. A
      payload of any other document than a Drawing passes unchanged. */
  function Prepared(data: map<string, Value>, isDrawing: bool, dashChecked: bool,
                    number: Value -> Option<real>, save: Value -> Value): Option<map<string, Value>>
  {
    if !isDrawing then Some(data)
    else
      var d := Apply(Obj(data), DashKeys, DashRule(dashChecked, number));
      var r := if d.Some? then ApplyAll(d.value, Fields, save) else None;
      if r.Some? && r.value.Obj? then Some(r.value.fields) else None
  }

  predicate PairwiseDiverge(fs: seq<Field>) {
    forall i, j :: 0 <= i < j < |fs| ==> Diverge(fs[i].keys, fs[j].keys)
  }

  // ---------------------------------------------------------------------
  // The fixed field list

  lemma NoDotInFlagKeys(rest: seq<string>)
    requires forall i :: 0 <= i < |rest| ==> '.' !in rest[i]
    ensures forall i :: 0 <= i < |FlagKeys(rest)| ==> '.' !in FlagKeys(rest)[i]
  {
    assert '.' !in MODULE_ID;
  }

  /** The dotted path the source writes splits into the field's segments. */
  lemma FlagPathSplits(rest: seq<string>)
    requires forall i :: 0 <= i < |rest| ==> '.' !in rest[i]
    ensures Split(FlagPath(rest), '.') == FlagKeys(rest)
  {
    NoDotInFlagKeys(rest);
    SplitJoin(FlagKeys(rest), '.');
  }

  /** The dash path parts from every field path. */
  lemma DashDiverges()
    ensures forall j :: 0 <= j < |Fields| ==> Diverge(DashKeys, Fields[j].keys)
  {
    var pre := ["flags", MODULE_ID];
    DivergeUnderPrefix(pre, ["lineStyle", "dash"], ["fillStyle", "texture", "width"]);
    DivergeUnderPrefix(pre, ["lineStyle", "dash"], ["fillStyle", "texture", "height"]);
    DivergeUnderPrefix(pre, ["lineStyle", "dash"], ["fillStyle", "transform", "position", "x"]);
    DivergeUnderPrefix(pre, ["lineStyle", "dash"], ["fillStyle", "transform", "position", "y"]);
    DivergeUnderPrefix(pre, ["lineStyle", "dash"], ["fillStyle", "transform", "pivot", "x"]);
    DivergeUnderPrefix(pre, ["lineStyle", "dash"], ["fillStyle", "transform", "pivot", "y"]);
    DivergeUnderPrefix(pre, ["lineStyle", "dash"], ["textStyle", "wordWrapWidth"]);
    DivergeUnderPrefix(pre, ["lineStyle", "dash"], ["textStyle", "fill"]);
    DivergeUnderPrefix(pre, ["lineStyle", "dash"], ["textStyle", "fillGradientStops"]);
  }

  lemma FieldDiverges0()
    ensures forall j :: 0 < j < |Fields| ==> Diverge(Fields[0].keys, Fields[j].keys)
  {
    var pre := ["flags", MODULE_ID];
    DivergeUnderPrefix(pre, ["fillStyle", "texture", "width"], ["fillStyle", "texture", "height"]);
    DivergeUnderPrefix(pre, ["fillStyle", "texture", "width"], ["fillStyle", "transform", "position", "x"]);
    DivergeUnderPrefix(pre, ["fillStyle", "texture", "width"], ["fillStyle", "transform", "position", "y"]);
    DivergeUnderPrefix(pre, ["fillStyle", "texture", "width"], ["fillStyle", "transform", "pivot", "x"]);
    DivergeUnderPrefix(pre, ["fillStyle", "texture", "width"], ["fillStyle", "transform", "pivot", "y"]);
    DivergeUnderPrefix(pre, ["fillStyle", "texture", "width"], ["textStyle", "wordWrapWidth"]);
    DivergeUnderPrefix(pre, ["fillStyle", "texture", "width"], ["textStyle", "fill"]);
    DivergeUnderPrefix(pre, ["fillStyle", "texture", "width"], ["textStyle", "fillGradientStops"]);
  }

  lemma FieldDiverges1()
    ensures forall j :: 1 < j < |Fields| ==> Diverge(Fields[1].keys, Fields[j].keys)
  {
    var pre := ["flags", MODULE_ID];
    DivergeUnderPrefix(pre, ["fillStyle", "texture", "height"], ["fillStyle", "transform", "position", "x"]);
    DivergeUnderPrefix(pre, ["fillStyle", "texture", "height"], ["fillStyle", "transform", "position", "y"]);
    DivergeUnderPrefix(pre, ["fillStyle", "texture", "height"], ["fillStyle", "transform", "pivot", "x"]);
    DivergeUnderPrefix(pre, ["fillStyle", "texture", "height"], ["fillStyle", "transform", "pivot", "y"]);
    DivergeUnderPrefix(pre, ["fillStyle", "texture", "height"], ["textStyle", "wordWrapWidth"]);
    DivergeUnderPrefix(pre, ["fillStyle", "texture", "height"], ["textStyle", "fill"]);
    DivergeUnderPrefix(pre, ["fillStyle", "texture", "height"], ["textStyle", "fillGradientStops"]);
  }

  lemma FieldDiverges2()
    ensures forall j :: 2 < j < |Fields| ==> Diverge(Fields[2].keys, Fields[j].keys)
  {
    var pre := ["flags", MODULE_ID];
    DivergeUnderPrefix(pre, ["fillStyle", "transform", "position", "x"], ["fillStyle", "transform", "position", "y"]);
    DivergeUnderPrefix(pre, ["fillStyle", "transform", "position", "x"], ["fillStyle", "transform", "pivot", "x"]);
    DivergeUnderPrefix(pre, ["fillStyle", "transform", "position", "x"], ["fillStyle", "transform", "pivot", "y"]);
    DivergeUnderPrefix(pre, ["fillStyle", "transform", "position", "x"], ["textStyle", "wordWrapWidth"]);
    DivergeUnderPrefix(pre, ["fillStyle", "transform", "position", "x"], ["textStyle", "fill"]);
    DivergeUnderPrefix(pre, ["fillStyle", "transform", "position", "x"], ["textStyle", "fillGradientStops"]);
  }

  lemma FieldDiverges3()
    ensures forall j :: 3 < j < |Fields| ==> Diverge(Fields[3].keys, Fields[j].keys)
  {
    var pre := ["flags", MODULE_ID];
    DivergeUnderPrefix(pre, ["fillStyle", "transform", "position", "y"], ["fillStyle", "transform", "pivot", "x"]);
    DivergeUnderPrefix(pre, ["fillStyle", "transform", "position", "y"], ["fillStyle", "transform", "pivot", "y"]);
    DivergeUnderPrefix(pre, ["fillStyle", "transform", "position", "y"], ["textStyle", "wordWrapWidth"]);
    DivergeUnderPrefix(pre, ["fillStyle", "transform", "position", "y"], ["textStyle", "fill"]);
    DivergeUnderPrefix(pre, ["fillStyle", "transform", "position", "y"], ["textStyle", "fillGradientStops"]);
  }

  lemma FieldDiverges4()
    ensures forall j :: 4 < j < |Fields| ==> Diverge(Fields[4].keys, Fields[j].keys)
  {
    var pre := ["flags", MODULE_ID];
    DivergeUnderPrefix(pre, ["fillStyle", "transform", "pivot", "x"], ["fillStyle", "transform", "pivot", "y"]);
    DivergeUnderPrefix(pre, ["fillStyle", "transform", "pivot", "x"], ["textStyle", "wordWrapWidth"]);
    DivergeUnderPrefix(pre, ["fillStyle", "transform", "pivot", "x"], ["textStyle", "fill"]);
    DivergeUnderPrefix(pre, ["fillStyle", "transform", "pivot", "x"], ["textStyle", "fillGradientStops"]);
  }

  lemma FieldDiverges5()
    ensures forall j :: 5 < j < |Fields| ==> Diverge(Fields[5].keys, Fields[j].keys)
  {
    var pre := ["flags", MODULE_ID];
    DivergeUnderPrefix(pre, ["fillStyle", "transform", "pivot", "y"], ["textStyle", "wordWrapWidth"]);
    DivergeUnderPrefix(pre, ["fillStyle", "transform", "pivot", "y"], ["textStyle", "fill"]);
    DivergeUnderPrefix(pre, ["fillStyle", "transform", "pivot", "y"], ["textStyle", "fillGradientStops"]);
  }

  lemma FieldDiverges6()
    ensures forall j :: 6 < j < |Fields| ==> Diverge(Fields[6].keys, Fields[j].keys)
  {
    var pre := ["flags", MODULE_ID];
    DivergeUnderPrefix(pre, ["textStyle", "wordWrapWidth"], ["textStyle", "fill"]);
    DivergeUnderPrefix(pre, ["textStyle", "wordWrapWidth"], ["textStyle", "fillGradientStops"]);
  }

  lemma FieldDiverges7()
    ensures forall j :: 7 < j < |Fields| ==> Diverge(Fields[7].keys, Fields[j].keys)
  {
    var pre := ["flags", MODULE_ID];
    DivergeUnderPrefix(pre, ["textStyle", "fill"], ["textStyle", "fillGradientStops"]);
  }

  /** No two of the ten paths the wrapper writes are prefixes of one
      another. */
  lemma FieldsDiverge()
    ensures PairwiseDiverge(Fields)
    ensures forall j :: 0 <= j < |Fields| ==> Diverge(DashKeys, Fields[j].keys)
  {
    DashDiverges();
    FieldDiverges0();
    FieldDiverges1();
    FieldDiverges2();
    FieldDiverges3();
    FieldDiverges4();
    FieldDiverges5();
    FieldDiverges6();
    FieldDiverges7();
  }

  /** No segment of a field path holds the separator, so the dotted path
      of every field splits back into its segments. */
  lemma FieldSegmentsHaveNoDots()
    ensures forall k, i :: 0 <= k < |Fields| && 0 <= i < |Fields[k].keys| ==> '.' !in Fields[k].keys[i]
  {
    NoDotInFlagKeys(["fillStyle", "texture", "width"]);
    NoDotInFlagKeys(["fillStyle", "texture", "height"]);
    NoDotInFlagKeys(["fillStyle", "transform", "position", "x"]);
    NoDotInFlagKeys(["fillStyle", "transform", "position", "y"]);
    NoDotInFlagKeys(["fillStyle", "transform", "pivot", "x"]);
    NoDotInFlagKeys(["fillStyle", "transform", "pivot", "y"]);
    NoDotInFlagKeys(["textStyle", "wordWrapWidth"]);
    NoDotInFlagKeys(["textStyle", "fill"]);
    NoDotInFlagKeys(["textStyle", "fillGradientStops"]);
  }

  // ---------------------------------------------------------------------
  // Order of the field list

  /** A field whose path parts from those of `a` can be moved in front of
      them. */
  lemma {:induction false} MoveToFront(v: Value, a: seq<Field>, x: Field, b: seq<Field>, save: Value -> Value)
    requires forall i :: 0 <= i < |a| ==> Diverge(a[i].keys, x.keys)
    ensures ApplyAll(v, a + [x] + b, save) == ApplyAll(v, [x] + a + b, save)
    decreases |a|
  {
    if a != [] {
      var y, a' := a[0], a[1..];
      var xs, ys := a + [x] + b, [x] + a + b;
      assert xs[0] == y && xs[1..] == a' + [x] + b;
      assert ys[0] == x && ys[1..] == [y] + (a' + b);
      assert ([y] + (a' + b))[0] == y && ([y] + (a' + b))[1..] == a' + b;
      assert ([x] + a' + b)[0] == x && ([x] + a' + b)[1..] == a' + b;
      ApplyCommutes(v, y.keys, Rule(y, save), x.keys, Rule(x, save));
      var r := Apply(v, y.keys, Rule(y, save));
      if r.Some? {
        MoveToFront(r.value, a', x, b, save);
      }
    }
  }

  /** Dropping one field keeps the paths apart. */
  lemma PairwiseDivergeRemove(fs: seq<Field>, j: nat)
    requires PairwiseDiverge(fs) && j < |fs|
    ensures PairwiseDiverge(fs[..j] + fs[j + 1..])
  {
    var rest := fs[..j] + fs[j + 1..];
    forall i, k | 0 <= i < k < |rest|
      ensures Diverge(rest[i].keys, rest[k].keys)
    {
      var i' := if i < j then i else i + 1;
      var k' := if k < j then k else k + 1;
      assert rest[i] == fs[i'] && rest[k] == fs[k'];
    }
  }

  /** Taking the same element out of two lists with equal multisets. */
  lemma MultisetRemove(fs: seq<Field>, gs: seq<Field>, j: nat)
    requires multiset(fs) == multiset(gs) && gs != [] && j < |fs| && fs[j] == gs[0]
    ensures multiset(fs[..j] + fs[j + 1..]) == multiset(gs[1..])
  {
    var a, b := fs[..j], fs[j + 1..];
    assert fs == a + [fs[j]] + b;
    assert multiset(fs) == multiset(a) + multiset([fs[j]]) + multiset(b);
    assert gs == [gs[0]] + gs[1..];
    assert multiset(gs) == multiset([gs[0]]) + multiset(gs[1..]);
    assert multiset(a + b) == multiset(a) + multiset(b);
    assert multiset(a + b) == multiset(fs) - multiset{fs[j]};
    assert multiset(gs[1..]) == multiset(gs) - multiset{gs[0]};
  }

  /** The first field of `gs` occurs in a list with the same multiset. */
  lemma FindFirst(fs: seq<Field>, gs: seq<Field>) returns (j: nat)
    requires multiset(fs) == multiset(gs) && gs != []
    ensures j < |fs| && fs[j] == gs[0]
  {
    assert gs[0] in multiset(gs);
    assert gs[0] in fs;
    j :| 0 <= j < |fs| && fs[j] == gs[0];
  }

  /** Among fields whose paths pairwise diverge, any one can run first. */
  lemma BringToFront(v: Value, fs: seq<Field>, j: nat, save: Value -> Value)
    requires PairwiseDiverge(fs) && j < |fs|
    ensures ApplyAll(v, fs, save) == ApplyAll(v, [fs[j]] + (fs[..j] + fs[j + 1..]), save)
  {
    var a, x, b := fs[..j], fs[j], fs[j + 1..];
    assert fs == a + [x] + b;
    forall i | 0 <= i < |a|
      ensures Diverge(a[i].keys, x.keys)
    {
      assert a[i] == fs[i];
    }
    MoveToFront(v, a, x, b, save);
    assert [x] + a + b == [x] + (a + b);
  }

  /** For fields whose paths pairwise diverge, every order of the list gives
      the same payload. */
  lemma {:induction false} ApplyAllOrderIndependent(v: Value, fs: seq<Field>, gs: seq<Field>, save: Value -> Value)
    requires PairwiseDiverge(fs) && multiset(fs) == multiset(gs)
    ensures ApplyAll(v, fs, save) == ApplyAll(v, gs, save)
    decreases |fs|
  {
    if fs == [] {
      assert |gs| == |multiset(gs)| == 0;
    } else {
      assert |gs| == |multiset(gs)| == |fs| > 0;
      var j := FindFirst(fs, gs);
      var rest := fs[..j] + fs[j + 1..];
      BringToFront(v, fs, j, save);
      PairwiseDivergeRemove(fs, j);
      MultisetRemove(fs, gs, j);
      assert ([gs[0]] + rest)[1..] == rest;
      match Apply(v, gs[0].keys, Rule(gs[0], save))
      case None =>
      case Some(w) =>
        ApplyAllOrderIndependent(w, rest, gs[1..], save);
    }
  }

  /** Paths that part from every field read the same after the list ran. */
  lemma {:induction false} ApplyAllElsewhere(v: Value, fs: seq<Field>, save: Value -> Value, q: seq<string>)
    requires ApplyAll(v, fs, save).Some?
    requires forall i :: 0 <= i < |fs| ==> Diverge(q, fs[i].keys)
    ensures Lookup(ApplyAll(v, fs, save).value, q) == Lookup(v, q)
    decreases |fs|
  {
    if fs != [] {
      var w := Apply(v, fs[0].keys, Rule(fs[0], save)).value;
      ApplyElsewhere(v, fs[0].keys, Rule(fs[0], save), q);
      ApplyAllElsewhere(w, fs[1..], save, q);
    }
  }

  /** Each field of the list ends as its rule applied to the value it had
      before the list ran. */
  lemma {:induction false} ApplyAllSetsLeaf(v: Value, fs: seq<Field>, save: Value -> Value, j: nat)
    requires ApplyAll(v, fs, save).Some? && PairwiseDiverge(fs) && j < |fs|
    ensures Lookup(ApplyAll(v, fs, save).value, fs[j].keys) == Rule(fs[j], save)(Lookup(v, fs[j].keys))
    decreases |fs|
  {
    var w := Apply(v, fs[0].keys, Rule(fs[0], save)).value;
    if j == 0 {
      ApplySetsLeaf(v, fs[0].keys, Rule(fs[0], save));
      forall i | 0 <= i < |fs[1..]|
        ensures Diverge(fs[0].keys, fs[1..][i].keys)
      {
        assert fs[1..][i] == fs[i + 1];
      }
      ApplyAllElsewhere(w, fs[1..], save, fs[0].keys);
    } else {
      assert PairwiseDiverge(fs[1..]) by {
        forall i, k | 0 <= i < k < |fs[1..]|
          ensures Diverge(fs[1..][i].keys, fs[1..][k].keys)
        {
          assert fs[1..][i] == fs[i + 1] && fs[1..][k] == fs[k + 1];
        }
      }
      ApplyAllSetsLeaf(w, fs[1..], save, j - 1);
      assert fs[1..][j - 1] == fs[j];
      DivergeSymmetric(fs[0].keys, fs[j].keys);
      ApplyElsewhere(v, fs[0].keys, Rule(fs[0], save), fs[j].keys);
    }
  }

  // ---------------------------------------------------------------------
  // What the wrapper guarantees

  /** Running the nine fields in any order gives the same payload. */
  lemma FieldOrderIrrelevant(v: Value, gs: seq<Field>, save: Value -> Value)
    requires multiset(gs) == multiset(Fields)
    ensures ApplyAll(v, gs, save) == ApplyAll(v, Fields, save)
  {
    FieldsDiverge();
    ApplyAllOrderIndependent(v, Fields, gs, save);
  }

  /** A payload of a document that is not a Drawing comes back unchanged. */
  lemma NotDrawingUnchanged(data: map<string, Value>, dashChecked: bool,
                            number: Value -> Option<real>, save: Value -> Value)
    ensures Prepared(data, false, dashChecked, number, save) == Some(data)
  {
  }

  /** For a Drawing, the payload is the dash step followed by the field
      list. */
  lemma PreparedSteps(data: map<string, Value>, dashChecked: bool,
                      number: Value -> Option<real>, save: Value -> Value)
    requires Prepared(data, true, dashChecked, number, save).Some?
    ensures Apply(Obj(data), DashKeys, DashRule(dashChecked, number)).Some?
    ensures var d := Apply(Obj(data), DashKeys, DashRule(dashChecked, number)).value;
      ApplyAll(d, Fields, save) == Some(Obj(Prepared(data, true, dashChecked, number, save).value))
  {
  }

  /** For a Drawing: the dash leaf is the dash pair of its old value. */
  lemma PreparedDash(data: map<string, Value>, dashChecked: bool,
                     number: Value -> Option<real>, save: Value -> Value)
    requires Prepared(data, true, dashChecked, number, save).Some?
    ensures var r := Obj(Prepared(data, true, dashChecked, number, save).value);
      Lookup(r, DashKeys) == DashLeaf(dashChecked, number, Lookup(Obj(data), DashKeys))
  {
    PreparedSteps(data, dashChecked, number, save);
    FieldsDiverge();
    var dash := DashRule(dashChecked, number);
    var d := Apply(Obj(data), DashKeys, dash).value;
    ApplySetsLeaf(Obj(data), DashKeys, dash);
    forall j | 0 <= j < |Fields|
      ensures Diverge(DashKeys, Fields[j].keys)
    {
    }
    ApplyAllElsewhere(d, Fields, save, DashKeys);
  }

  /** For a Drawing: each field is its rule applied to its old value. */
  lemma PreparedFields(data: map<string, Value>, dashChecked: bool,
                       number: Value -> Option<real>, save: Value -> Value)
    requires Prepared(data, true, dashChecked, number, save).Some?
    ensures var r := Obj(Prepared(data, true, dashChecked, number, save).value);
      forall j :: 0 <= j < |Fields| ==>
        Lookup(r, Fields[j].keys) == Rule(Fields[j], save)(Lookup(Obj(data), Fields[j].keys))
  {
    PreparedSteps(data, dashChecked, number, save);
    FieldsDiverge();
    var dash := DashRule(dashChecked, number);
    var d := Apply(Obj(data), DashKeys, dash).value;
    forall j | 0 <= j < |Fields|
      ensures Lookup(ApplyAll(d, Fields, save).value, Fields[j].keys) == Rule(Fields[j], save)(Lookup(Obj(data), Fields[j].keys))
    {
      ApplyAllSetsLeaf(d, Fields, save, j);
      DivergeSymmetric(DashKeys, Fields[j].keys);
      ApplyElsewhere(Obj(data), DashKeys, dash, Fields[j].keys);
    }
  }

  /** For a Drawing: everything off the ten paths is as it was. */
  lemma PreparedElsewhere(data: map<string, Value>, dashChecked: bool,
                          number: Value -> Option<real>, save: Value -> Value, q: seq<string>)
    requires Prepared(data, true, dashChecked, number, save).Some?
    requires Diverge(q, DashKeys) && forall j :: 0 <= j < |Fields| ==> Diverge(q, Fields[j].keys)
    ensures Lookup(Obj(Prepared(data, true, dashChecked, number, save).value), q) == Lookup(Obj(data), q)
  {
    PreparedSteps(data, dashChecked, number, save);
    var dash := DashRule(dashChecked, number);
    var d := Apply(Obj(data), DashKeys, dash).value;
    ApplyElsewhere(Obj(data), DashKeys, dash, q);
    ApplyAllElsewhere(d, Fields, save, q);
  }

  /** After the wrapper, `textStyle.fill` and `textStyle.fillGradientStops`
      are each null or a non-empty array, never a bare scalar. */
  lemma PreparedArrayShapes(data: map<string, Value>, dashChecked: bool,
                            number: Value -> Option<real>, save: Value -> Value)
    requires Prepared(data, true, dashChecked, number, save).Some?
    ensures var fill := Lookup(Obj(Prepared(data, true, dashChecked, number, save).value), TextFillKeys);
      fill.Null? || (fill.Arr? && |fill.items| > 0)
    ensures var stops := Lookup(Obj(Prepared(data, true, dashChecked, number, save).value), GradientStopsKeys);
      stops.Null? || (stops.Arr? && |stops.items| > 0)
  {
    var r := Obj(Prepared(data, true, dashChecked, number, save).value);
    PreparedFields(data, dashChecked, number, save);
    assert Fields[7] == Field(TextFillKeys, StringArray);
    assert Lookup(r, TextFillKeys) == StringArrayLeaf(Lookup(Obj(data), TextFillKeys)) by {
      assert Lookup(r, Fields[7].keys) == Rule(Fields[7], save)(Lookup(Obj(data), Fields[7].keys));
    }
    assert Fields[8] == Field(GradientStopsKeys, NumberArray);
    assert Lookup(r, GradientStopsKeys) == NumberArrayLeaf(Lookup(Obj(data), GradientStopsKeys)) by {
      assert Lookup(r, Fields[8].keys) == Rule(Fields[8], save)(Lookup(Obj(data), Fields[8].keys));
    }
  }

  /** After the wrapper, `lineStyle.dash` is null exactly when the checkbox
      is unticked, and a pair of non-zero numbers otherwise. */
  lemma PreparedDashShape(data: map<string, Value>, dashChecked: bool,
                          number: Value -> Option<real>, save: Value -> Value)
    requires Prepared(data, true, dashChecked, number, save).Some?
    ensures var dash := Lookup(Obj(Prepared(data, true, dashChecked, number, save).value), DashKeys);
      (dash.Null? <==> !dashChecked) &&
      (dashChecked ==> (dash.Arr? && |dash.items| == 2 &&
         forall i :: 0 <= i < 2 ==> dash.items[i].Num? && dash.items[i].x != 0.0))
  {
    PreparedDash(data, dashChecked, number, save);
    var dash := DashLeaf(dashChecked, number, Lookup(Obj(data), DashKeys));
    if dashChecked {
      assert dash.items[0].Num? && dash.items[1].Num?;
    }
  }

  /** Ticking the box on a drawing whose dash is absent, or is not an array,
      stores the default pair `[8, 5]`. */
  lemma PreparedDashDefault(data: map<string, Value>, number: Value -> Option<real>, save: Value -> Value)
    requires NumberFacts(number)
    requires !Lookup(Obj(data), DashKeys).Arr?
    requires Prepared(data, true, true, number, save).Some?
    ensures Lookup(Obj(Prepared(data, true, true, number, save).value), DashKeys) == Arr([Num(8.0), Num(5.0)])
  {
    PreparedDash(data, true, number, save);
    DashDefaults(number, Lookup(Obj(data), DashKeys));
  }

  // ---------------------------------------------------------------------
  // The wrapper as it runs: a cursor walking the payload in place

  /** The whole payload once the sub-walk below cursor `q` has produced `r`. */
  function Plug(v: Value, q: seq<string>, r: Option<Value>): Option<Value>
    requires IsPathTo(v, q)
  {
    match r
    case None => None
    case Some(w) => Some(PutAt(v, q, w))
  }

  /** One turn of the helpers' loop, `current[k] = current[k] || {}` followed
      by `current = current[k]`, leaves the same work to do. */
  lemma CursorStep(d: Value, q: seq<string>, k: string, rest: seq<string>, leaf: Value -> Value)
    requires IsPathTo(d, q) && Lookup(d, q).Obj? && rest != []
    ensures var next := Or(Prop(Lookup(d, q).fields, k), Obj(map[]));
      !next.Obj? ==> Apply(Lookup(d, q), [k] + rest, leaf).None?
    ensures var next := Or(Prop(Lookup(d, q).fields, k), Obj(map[]));
      next.Obj? ==>
        IsPathTo(d, q + [k]) &&
        IsPathTo(PutAt(d, q + [k], next), q + [k]) &&
        Lookup(PutAt(d, q + [k], next), q + [k]) == next &&
        Plug(d, q, Apply(Lookup(d, q), [k] + rest, leaf))
          == Plug(PutAt(d, q + [k], next), q + [k], Apply(next, rest, leaf))
  {
    var current := Lookup(d, q).fields;
    var next := Or(Prop(current, k), Obj(map[]));
    assert ([k] + rest)[0] == k && ([k] + rest)[1..] == rest;
    ApplyVivified(Prop(current, k), rest, leaf);
    if next.Obj? {
      PutAtSnoc(d, q, k, next);
      PutAtKeepsPath(d, q + [k], next);
      PutAtLookup(d, q + [k], next);
      match Apply(next, rest, leaf)
      case None =>
      case Some(w) =>
        PutAtOverwrite(d, q + [k], next, w);
        PutAtSnoc(d, q, k, w);
    }
  }

  /** The last statement of the helpers, `current[lastKey] = rule(current[lastKey])`,
      finishes the work. */
  lemma CursorLeaf(d: Value, q: seq<string>, k: string, leaf: Value -> Value)
    requires IsPathTo(d, q) && Lookup(d, q).Obj?
    ensures IsPathTo(d, q + [k])
    ensures Plug(d, q, Apply(Lookup(d, q), [k], leaf))
         == Some(PutAt(d, q + [k], leaf(Lookup(d, q + [k]))))
  {
    LookupAppend(d, q, [k]);
    PutAtSnoc(d, q, k, leaf(Lookup(d, q + [k])));
    assert [k][1..] == [];
  }

  /** The payload being prepared for submission, updated in place. */
  class Payload {
    var data: map<string, Value>

    constructor (data: map<string, Value>)
      ensures this.data == data
    {
      this.data := data;
    }

    /** The loop the three helpers share: walk `keys` with a cursor, turning
        every container slot into `slot || {}`, then overwrite the leaf. The
        cursor is the prefix `keys[..i]`; false is the TypeError raised when
        the cursor lands on a truthy non-object. */
    method SetLeaf(keys: seq<string>, leaf: Value -> Value) returns (ok: bool)
      requires |keys| >= 1
      modifies this
      ensures ok == Apply(Obj(old(data)), keys, leaf).Some?
      ensures ok ==> Obj(data) == Apply(Obj(old(data)), keys, leaf).value
    {
      ghost var goal := Apply(Obj(data), keys, leaf);
      var i := 0;
      while i < |keys| - 1
        invariant 0 <= i <= |keys| - 1
        invariant IsPathTo(Obj(data), keys[..i]) && Lookup(Obj(data), keys[..i]).Obj?
        invariant goal == Plug(Obj(data), keys[..i], Apply(Lookup(Obj(data), keys[..i]), keys[i..], leaf))
      {
        var current := Lookup(Obj(data), keys[..i]).fields;
        var next := Or(Prop(current, keys[i]), Obj(map[]));
        assert keys[i..] == [keys[i]] + keys[i + 1..];
        assert keys[..i + 1] == keys[..i] + [keys[i]];
        CursorStep(Obj(data), keys[..i], keys[i], keys[i + 1..], leaf);
        if !next.Obj? {
          return false;
        }
        data := PutAt(Obj(data), keys[..i + 1], next).fields;
        i := i + 1;
      }
      assert keys == keys[..i] + [keys[i]] && keys[i..] == [keys[i]];
      CursorLeaf(Obj(data), keys[..i], keys[i], leaf);
      data := PutAt(Obj(data), keys, leaf(Lookup(Obj(data), keys))).fields;
      ok := true;
    }

    /** `processValue`, `processStringArray` or `processNumberArray` on the
        dotted `path`. */
    method Process(path: string, policy: Policy, save: Value -> Value) returns (ok: bool)
      modifies this
      ensures ok == Apply(Obj(old(data)), Split(path, '.'), LeafRule(policy, save)).Some?
      ensures ok ==> Obj(data) == Apply(Obj(old(data)), Split(path, '.'), LeafRule(policy, save)).value
    {
      var keys := Split(path, '.');
      ok := SetLeaf(keys, LeafRule(policy, save));
    }

    /** The dash step: `flags.<id>.lineStyle` made to exist by the same
        `x = x || {}` chain, then `dash` set to the checked pair or null. */
    method CoerceDash(dashChecked: bool, number: Value -> Option<real>) returns (ok: bool)
      modifies this
      ensures ok == Apply(Obj(old(data)), DashKeys, DashRule(dashChecked, number)).Some?
      ensures ok ==> Obj(data) == Apply(Obj(old(data)), DashKeys, DashRule(dashChecked, number)).value
    {
      ok := SetLeaf(DashKeys, DashRule(dashChecked, number));
    }

    /** Normalise field `k` of the list: its helper called with its dotted
        path `flags.<id>.<...>`. */
    method ProcessField(k: nat, save: Value -> Value) returns (ok: bool)
      requires k < |Fields|
      modifies this
      ensures ok ==> ApplyAll(Obj(old(data)), Fields[k..], save) == ApplyAll(Obj(data), Fields[k + 1..], save)
      ensures !ok ==> ApplyAll(Obj(old(data)), Fields[k..], save) == None
    {
      FieldSegmentsHaveNoDots();
      SplitJoin(Fields[k].keys, '.');
      assert Fields[k..][0] == Fields[k] && Fields[k..][1..] == Fields[k + 1..];
      ok := Process(Join(Fields[k].keys, '.'), Fields[k].policy, save);
    }

    /** The nine helper calls of the wrapper, in the order of the source. */
    method ProcessFields(save: Value -> Value) returns (ok: bool)
      modifies this
      ensures ok ==> ApplyAll(Obj(old(data)), Fields, save) == Some(Obj(data))
      ensures !ok ==> ApplyAll(Obj(old(data)), Fields, save) == None
    {
      ok := ProcessNumericValues(save);
      if !ok { return; }
      ok := ProcessFormArrays(save);
    }

    /** The seven `processValue` calls: fields 0 to 6 of the list, numeric-ish
        values coerced through `save`; `k` is the position in the list of the
        field being normalised. */
    method ProcessNumericValues(save: Value -> Value) returns (ok: bool)
      modifies this
      ensures ok ==> ApplyAll(Obj(old(data)), Fields, save) == ApplyAll(Obj(data), Fields[7..], save)
      ensures !ok ==> ApplyAll(Obj(old(data)), Fields, save) == None
    {
      assert Fields[0..] == Fields;
      var k := 0;
      ok := ProcessField(k, save);
      if !ok { return; }
      k := k + 1;
      ok := ProcessField(k, save);
      if !ok { return; }
      k := k + 1;
      ok := ProcessField(k, save);
      if !ok { return; }
      k := k + 1;
      ok := ProcessField(k, save);
      if !ok { return; }
      k := k + 1;
      ok := ProcessField(k, save);
      if !ok { return; }
      k := k + 1;
      ok := ProcessField(k, save);
      if !ok { return; }
      k := k + 1;
      ok := ProcessField(k, save);
      if !ok { return; }
    }

    /** The `processStringArray` and `processNumberArray` calls: fields 7 and
        8 of the list, arrays from form inputs. */
    method ProcessFormArrays(save: Value -> Value) returns (ok: bool)
      modifies this
      ensures ok ==> ApplyAll(Obj(old(data)), Fields[7..], save) == Some(Obj(data))
      ensures !ok ==> ApplyAll(Obj(old(data)), Fields[7..], save) == None
    {
      var k := 7;
      ok := ProcessField(k, save);
      if !ok { return; }
      ok := ProcessField(k + 1, save);
      assert Fields[9..] == [];
    }

    /** The wrapper's body after the host's `_prepareSubmitData` returned the
        payload: nothing for other documents, else the dash step and then the
        nine fields. */
    method PrepareSubmitData(isDrawing: bool, dashChecked: bool,
                             number: Value -> Option<real>, save: Value -> Value) returns (ok: bool)
      modifies this
      ensures ok == Prepared(old(data), isDrawing, dashChecked, number, save).Some?
      ensures ok ==> data == Prepared(old(data), isDrawing, dashChecked, number, save).value
    {
      if !isDrawing {
        return true;
      }
      ok := CoerceDash(dashChecked, number);
      if !ok {
        return;
      }
      ok := ProcessFields(save);
    }
  }
}
