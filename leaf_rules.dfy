/**
 * What `_prepareSubmitData` does to the value at the end of a field path:
 * the dash pair of `lineStyle.dash`, and the three leaf policies of its
 * helpers `processValue`, `processStringArray` and `processNumberArray`.
 */
module LeafRules {
  import opened Wrappers
  import opened JsValue

  /** The three helpers differ only in what they do to the leaf. */
  datatype Policy = SaveValue | StringArray | NumberArray

  /** The shape step both array helpers begin with: null or undefined becomes
      `[]`, an array stays, anything else becomes `[v]`. */
  function Wrapped(v: Value): seq<Value> {
    if IsNullish(v) then [] else if v.Arr? then v.items else [v]
  }

  /** `a.every(v => !v)`. */
  predicate AllFalsy(a: seq<Value>) {
    forall i :: 0 <= i < |a| ==> !Truthy(a[i])
  }

  /** `a.every(v => v === null)`. */
  predicate AllNull(a: seq<Value>) {
    forall i :: 0 <= i < |a| ==> a[i].Null?
  }

  /** The leaf rule of `processStringArray`. */
  function StringArrayLeaf(v: Value): (r: Value)
    ensures IsNullish(v) ==> r == Null
    ensures v.Arr? ==> (r == Null <==> forall i :: 0 <= i < |v.items| ==> !Truthy(v.items[i]))
    ensures v.Arr? && r != Null ==> r == v
    ensures !IsNullish(v) && !v.Arr? ==> r == (if Truthy(v) then Arr([v]) else Null)
    ensures r == Null || (r.Arr? && |r.items| > 0)
  {
    var a := Wrapped(v);
    assert |a| == 1 ==> (AllFalsy(a) <==> !Truthy(a[0]));
    if AllFalsy(a) then Null else Arr(a)
  }

  /** The leaf rule of `processNumberArray`: the same shape, but only strict
      nulls count as empty, so a zero keeps its array. */
  function NumberArrayLeaf(v: Value): (r: Value)
    ensures IsNullish(v) ==> r == Null
    ensures v.Arr? ==> (r == Null <==> forall i :: 0 <= i < |v.items| ==> v.items[i] == Null)
    ensures v.Arr? && r != Null ==> r == v
    ensures !IsNullish(v) && !v.Arr? ==> r == Arr([v])
    ensures r == Null || (r.Arr? && |r.items| > 0)
  {
    var a := Wrapped(v);
    assert |a| == 1 ==> (AllNull(a) <==> a[0].Null?);
    if AllNull(a) then Null else Arr(a)
  }

  lemma StringArrayIdempotent(v: Value)
    ensures StringArrayLeaf(StringArrayLeaf(v)) == StringArrayLeaf(v)
  {
  }

  lemma NumberArrayIdempotent(v: Value)
    ensures NumberArrayLeaf(NumberArrayLeaf(v)) == NumberArrayLeaf(v)
  {
  }

  /** The two array rules part exactly on arrays of falsy values that are not
      all null, such as `[0, null]` or `[""]`. */
  lemma ArrayRulesDiffer(items: seq<Value>)
    ensures StringArrayLeaf(Arr(items)) != NumberArrayLeaf(Arr(items))
        <==> AllFalsy(items) && !AllNull(items)
  {
  }

  /** The cases the number-array rule is written for: `[0, null]` is kept,
      `[null, null]` and an absent leaf collapse to null, a bare number is
      wrapped. */
  lemma NumberArrayExamples()
    ensures NumberArrayLeaf(Arr([Num(0.0), Null])) == Arr([Num(0.0), Null])
    ensures NumberArrayLeaf(Arr([Null, Null])) == Null
    ensures NumberArrayLeaf(Undefined) == Null
    ensures NumberArrayLeaf(Num(3.0)) == Arr([Num(3.0)])
  {
    var kept := Arr([Num(0.0), Null]);
    assert !kept.items[0].Null?;
  }

  /** The same inputs under the string-array rule: `[0, null]` collapses too,
      a bare string is wrapped, an empty string collapses. */
  lemma StringArrayExamples()
    ensures StringArrayLeaf(Arr([Num(0.0), Null])) == Null
    ensures StringArrayLeaf(Str("#ff0000")) == Arr([Str("#ff0000")])
    ensures StringArrayLeaf(Str("")) == Null
    ensures StringArrayLeaf(Null) == Null
  {
  }

  /** The leaf rule of each helper; `save` is `saveValue` of `utils.js`. */
  function LeafRule(p: Policy, save: Value -> Value): Value -> Value {
    match p
    case SaveValue => save
    case StringArray => StringArrayLeaf
    case NumberArray => NumberArrayLeaf
  }

  /** `a[i]` guarded by `Array.isArray(a)`: undefined for a non-array or a
      missing entry. */
  function Element(a: Value, i: nat): Value {
    if a.Arr? && i < |a.items| then a.items[i] else Undefined
  }

  /** `Number(d) || fallback`, where `number` is JavaScript's `Number`
      conversion with None for NaN. */
  function DashLength(number: Value -> Option<real>, d: Value, fallback: real): (r: Value)
    requires fallback != 0.0
    ensures r.Num? && r.x != 0.0
    ensures number(d) == Some(r.x) || (r.x == fallback && number(d) in {None, Some(0.0)})
  {
    match number(d)
    case Some(x) => if x != 0.0 then Num(x) else Num(fallback)
    case None => Num(fallback)
  }

  /** The new `lineStyle.dash`: null when the dash checkbox is unticked, else
      the numeric pair read from the old value with defaults 8 and 5. */
  function DashLeaf(checked: bool, number: Value -> Option<real>, a: Value): (r: Value)
    ensures r.Null? <==> !checked
    ensures checked ==>
      (r.Arr? && |r.items| == 2 && forall i :: 0 <= i < 2 ==> r.items[i].Num? && r.items[i].x != 0.0)
  {
    if checked then Arr([DashLength(number, Element(a, 0), 8.0), DashLength(number, Element(a, 1), 5.0)])
    else Null
  }

  /** What JavaScript's `Number` is known to do on the values the dash step
      can meet without parsing a string: `Number(undefined)` and `Number(NaN)`
      are NaN, `Number(null)` and `Number(false)` are 0, `Number(true)` is 1,
      and a number converts to itself. */
  ghost predicate NumberFacts(number: Value -> Option<real>) {
    number(Undefined) == None && number(NaN) == None && number(Null) == Some(0.0) &&
    number(Bool(false)) == Some(0.0) && number(Bool(true)) == Some(1.0) &&
    forall x: real :: number(Num(x)) == Some(x)
  }

  /** Ticking the box on a dash that is absent or not an array, or an array
      with no entries, gives the default pair `[8, 5]`. */
  lemma DashDefaults(number: Value -> Option<real>, a: Value)
    requires NumberFacts(number)
    requires !a.Arr? || a.items == []
    ensures DashLeaf(true, number, a) == Arr([Num(8.0), Num(5.0)])
  {
  }

  /** Non-zero numbers in the first two entries are kept, zeros and nulls
      fall back to the defaults, and entries past the second are dropped. */
  lemma DashKeepsNumbers(number: Value -> Option<real>, x: Value, y: Value, rest: seq<Value>)
    requires NumberFacts(number)
    requires x.Num? || x.Null?
    requires y.Num? || y.Null?
    ensures DashLeaf(true, number, Arr([x, y] + rest)) ==
      Arr([if x.Num? && x.x != 0.0 then x else Num(8.0), if y.Num? && y.x != 0.0 then y else Num(5.0)])
  {
    var a := Arr([x, y] + rest);
    assert Element(a, 0) == x && Element(a, 1) == y;
  }

  /** Only the array's first two entries are read, and every value that is
      not an array is read as no entries at all. */
  lemma DashLeafReads(checked: bool, number: Value -> Option<real>, a: Value)
    ensures !a.Arr? ==> DashLeaf(checked, number, a) == DashLeaf(checked, number, Arr([]))
    ensures a.Arr? && |a.items| >= 2 ==>
      DashLeaf(checked, number, a) == DashLeaf(checked, number, Arr(a.items[..2]))
  {
    if a.Arr? && |a.items| >= 2 {
      assert Element(a, 0) == Element(Arr(a.items[..2]), 0);
      assert Element(a, 1) == Element(Arr(a.items[..2]), 1);
    }
  }

  /** The dash pair as a leaf rule. */
  function DashRule(checked: bool, number: Value -> Option<real>): Value -> Value {
    v => DashLeaf(checked, number, v)
  }
}
