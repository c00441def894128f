/**
 * The small pieces of the package's entry module: the grid precision the
 * drawings layer snaps to, the `preProcess` step run on drawing data before
 * it is created or updated, and the condition under which an updated drawing
 * is redrawn.
 */
module DrawingHooks {
  import opened JsValue
  import opened SubmitData

  // ---------------------------------------------------------------------
  // Grid precision

  /** The host's `GRID_TYPES.SQUARE`; gridless is 0, the hexagonal types are
      larger. */
  const GRID_SQUARE: int := 1

  /** The snapping precision of the drawings layer: with snapping forced, 2 on
      gridless and square grids and 5 on hexagonal ones; otherwise a step
      function of the grid size in pixels. */
  function GridPrecision(forceSnap: bool, gridType: int, size: int): (p: int)
    ensures forceSnap ==> (p == 2 <==> gridType <= GRID_SQUARE) && (p == 5 <==> gridType > GRID_SQUARE)
    ensures !forceSnap ==> p in {1, 4, 8, 16}
    ensures !forceSnap ==> (p == 1 <==> size < 32)
    ensures !forceSnap && p > 1 ==> 8 * p <= size && (p < 16 ==> size < 16 * p)
  {
    if forceSnap then (if gridType <= GRID_SQUARE then 2 else 5)
    else if size >= 128 then 16
    else if size >= 64 then 8
    else if size >= 32 then 4
    else 1
  }

  /** A larger grid never snaps more coarsely. */
  lemma GridPrecisionMonotone(gridType: int, size1: int, size2: int)
    requires size1 <= size2
    ensures GridPrecision(false, gridType, size1) <= GridPrecision(false, gridType, size2)
  {
  }

  /** With snapping forced the grid size plays no part. */
  lemma ForcedPrecisionIgnoresSize(gridType: int, size1: int, size2: int)
    ensures GridPrecision(true, gridType, size1) == GridPrecision(true, gridType, size2)
  {
  }

  // ---------------------------------------------------------------------
  // preProcess

  /** `foundry.utils.getProperty` of `flags.<id>.textStyle.fill`. */
  function TextFill(data: map<string, Value>): Value {
    Lookup(Obj(data), TextFillKeys)
  }

  /** A text fill that is neither null, undefined nor an array is wrapped into
      a one-element array; any other data is returned as it was. */
  function PreProcess(data: map<string, Value>): (r: map<string, Value>)
    ensures IsNullish(TextFill(data)) || TextFill(data).Arr? ==> r == data
    ensures !IsNullish(TextFill(data)) && !TextFill(data).Arr? ==> TextFill(r) == Arr([TextFill(data)])
    ensures IsNullish(TextFill(r)) || TextFill(r).Arr?
  {
    var fill := TextFill(data);
    if fill != Null && fill != Undefined && !fill.Arr? then
      LookupDefinedIsPath(Obj(data), TextFillKeys);
      PutAtLookup(Obj(data), TextFillKeys, Arr([fill]));
      PutAt(Obj(data), TextFillKeys, Arr([fill])).fields
    else data
  }

  /** `preProcess` changes nothing off the fill path. */
  lemma PreProcessElsewhere(data: map<string, Value>, q: seq<string>)
    requires Diverge(q, TextFillKeys)
    ensures Lookup(Obj(PreProcess(data)), q) == Lookup(Obj(data), q)
  {
    var fill := TextFill(data);
    if fill != Null && fill != Undefined && !fill.Arr? {
      LookupDefinedIsPath(Obj(data), TextFillKeys);
      PutAtElsewhere(Obj(data), TextFillKeys, Arr([fill]), q);
    }
  }

  /** Running `preProcess` again changes nothing. */
  lemma PreProcessIdempotent(data: map<string, Value>)
    ensures PreProcess(PreProcess(data)) == PreProcess(data)
  {
  }

  // ---------------------------------------------------------------------
  // Refresh on update

  /** The prefix of a flag scope's deletion key in an update. */
  const DELETION_PREFIX: string := "-="

  /** Reading property `k` of a truthy value: an object's entry, undefined for
      anything else. */
  function Member(v: Value, k: string): Value {
    if v.Obj? then Prop(v.fields, k) else Undefined
  }

  /** Reading `changes.a.b` as a path. */
  lemma LookupTwoSteps(changes: map<string, Value>, a: string, b: string)
    ensures Lookup(Obj(changes), [a, b]) == Member(Prop(changes, a), b)
  {
    var q := [a, b];
    assert q[0] == a && q[1..] == [b];
    assert Lookup(Obj(changes), q) == Lookup(Prop(changes, a), [b]);
    var v := Prop(changes, a);
    if v.Obj? {
      assert [b][0] == b && [b][1..] == [];
      assert Lookup(v, [b]) == Lookup(Prop(v.fields, b), []);
    }
  }

  /** How many times the `updateDrawing` hook calls `refresh()`: never for a
      drawing that is not rendered, once when the module's flags (or their
      deletion) are in the changes, and once more when `text` is. */
  function RefreshCalls(rendered: bool, changes: map<string, Value>): (n: nat)
    ensures n <= 2
    ensures n > 0 <==>
      rendered &&
      (Lookup(Obj(changes), ["flags", MODULE_ID]) != Undefined ||
       Lookup(Obj(changes), ["flags", DELETION_PREFIX + MODULE_ID]) != Undefined ||
       Prop(changes, "text") != Undefined)
  {
    if !rendered then 0
    else
      var flags := Prop(changes, "flags");
      LookupTwoSteps(changes, "flags", MODULE_ID);
      LookupTwoSteps(changes, "flags", DELETION_PREFIX + MODULE_ID);
      var flagsChanged := Truthy(flags) &&
        (Member(flags, MODULE_ID) != Undefined || Member(flags, DELETION_PREFIX + MODULE_ID) != Undefined);
      (if flagsChanged then 1 else 0) + (if Prop(changes, "text") != Undefined then 1 else 0)
  }
}
