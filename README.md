# advanced-drawing-tools: a Dafny model of the drawing data transforms

This project models, in Dafny, the data transforms of the Foundry VTT package
*advanced-drawing-tools* and proves its properties. These transforms sit
inside the package's host hooks:

- **The `_prepareSubmitData` wrapper** of a drawing's configuration sheet (`scripts/config.js`).
  - It returns the payload of any document other than a Drawing unchanged.
  - For a Drawing, it first makes `flags.<id>.lineStyle` exist. Then it sets
    `dash` to `null` or to a pair of non-zero numbers with defaults 8 and 5.
  - It then runs three helpers over nine fixed field paths: `processValue`,
    `processStringArray` and `processNumberArray`.
  - Each helper walks a dotted path with a `current` cursor and replaces every
    container slot `x` on the way by `x || {}`. It then rewrites the leaf.
- **The flip buttons** of a polygon drawing's HUD (`scripts/hud.js`).
  - They do nothing while the drawing is still locked.
  - Otherwise they clone the flat point list `x0, y0, x1, y1, ...`. They reflect
    every x in `|width|`, or every y in `|height|`, with a stride-2 loop.
- **The entry module's small pieces** (`scripts/index.js`):
  - the `gridPrecision` override;
  - `preProcess`, which wraps a scalar `textStyle.fill` into an array;
  - the condition under which the `updateDrawing` hook refreshes a drawing.

## How the model is built

- `js_value.dfy` (module `JsValue`): JavaScript values as a tree. It has
  `Value`, truthiness, `== null`, `||`, property reads, and path reads and
  writes (`Lookup`, `PutAt`). It also defines when two paths diverge. A
  payload is a tree, so no two paths share a sub-object.
- `dotted_path.dfy`: `split('.')` and `join('.')` on field paths, as
  sequence functions.
- `leaf_rules.dfy`: the leaf rules are the dash pair and the three policies
  `SaveValue`, `StringArray` and `NumberArray`.
  - The three helpers of the source repeat one traversal. The model writes
    that traversal once and gives it a `Policy`.
- `normalizer.dfy`: the traversal as a recursive specification `Apply`
  on values.
  - `None` is the `TypeError` that strict-mode JavaScript raises when a
    property is assigned on a truthy primitive. This happens when a slot on
    the path holds, say, a string: `x || {}` keeps the string, and the next
    assignment into it throws.
- `submit_data.dfy`: the wrapper. It holds:
  - the field list, `Fields`, in source order;
  - its specification `Prepared`;
  - the theorems about it;
  - the class `Payload`, which holds the payload as a mutable field `data`.
    `Payload.SetLeaf` is the helpers' loop. Its cursor is the path prefix
    `keys[..i]`, and it is proved against `Apply`. `Payload.PrepareSubmitData`
    runs the dash step and the nine helper calls in the source's order. It is
    proved equal to `Prepared`.
- `hud.dfy`: the flip as a specification `Reflected` on sequences. The
  in-place stride-2 loop over an `array<int>` clone is proved against it. The
  handler `OnFlip` covers both buttons through an `Axis`.
- `drawing_hooks.dfy`: `GridPrecision`, `PreProcess` and `RefreshCalls` as
  functions.

Some inputs come from the host, or from `scripts/utils.js` and `scripts/const.js`, which are not part of this model. They are parameters:

| Input | Parameter |
|---|---|
| `saveValue` of `utils.js` | a function `save: Value -> Value` |
| JavaScript's `Number(...)` | `number: Value -> Option<real>`, with `None` standing for NaN. Where a lemma needs the language's fixed conversions (`Number(undefined)` is NaN, `Number(null)` is 0, a number converts to itself), it requires `LeafRules.NumberFacts` |
| the dash checkbox | a boolean |
| the document's type (a Drawing or another document) | a boolean |
| the lock state after the unlock dialog | the `locked` field of `Hud.Drawing` |
| whether the drawing is rendered | a boolean |
| `canvas.grid.type` and `canvas.dimensions.size` | integers |

Two behaviours of the code are worth stating, because they are easy to
misread:

- The submit wrapper does not call `cleanData`. Only the `preCreateDrawing`
  and `preUpdateDrawing` hooks do (`scripts/index.js:61-67`). The wrapper
  returns the payload as the helpers left it.
- Only falsy slots on a path are replaced. `x || {}` keeps a truthy
  non-object, and the next assignment into it throws. The model's
  `Apply`/`SetLeaf` return the error in that case
  (`Normalizer.ApplyFailsIff` states exactly when).

## Model

| member | source | states |
|---|---|---|
| DottedPath.Split | scripts/config.js:41 | `path.split('.')` yields at least one part. No part holds the separator. Joining the parts restores the path. |
| DottedPath.SplitJoin | scripts/config.js:90-100 | Splitting the join of separator-free segments gives back exactly those segments. |
| SubmitData.FlagPathSplits | scripts/config.js:90-100 | The template path `flags.${MODULE_ID}.<rest>` splits into `["flags", MODULE_ID] + rest`. |
| SubmitData.FieldSegmentsHaveNoDots | scripts/config.js:90-100 | No segment of the nine field paths contains a dot. So each dotted path splits back into its segments. |
| LeafRules.StringArrayLeaf | scripts/config.js:58-67 | A nullish leaf ends as `null`. An array ends as `null` iff every element is falsy, and is otherwise kept as is. A scalar becomes `[v]` if truthy and `null` otherwise. The result is always `null` or a non-empty array. |
| LeafRules.NumberArrayLeaf | scripts/config.js:77-86 | A nullish leaf ends as `null`. An array ends as `null` iff every element is strictly `null`, and is otherwise kept. A scalar always becomes `[v]`. The result is `null` or a non-empty array. |
| LeafRules.StringArrayIdempotent | scripts/config.js:60-66 | Applying the string-array rule twice gives the same leaf as applying it once. |
| LeafRules.NumberArrayIdempotent | scripts/config.js:79-86 | Applying the number-array rule twice gives the same leaf as applying it once. |
| LeafRules.ArrayRulesDiffer | scripts/config.js:65-85 | On an array, the two rules differ exactly when every element is falsy but not every element is `null`. |
| LeafRules.NumberArrayExamples | scripts/config.js:79-86 | `[0, null]` is kept. `[null, null]` and `undefined` collapse to `null`. A bare number is wrapped. |
| LeafRules.StringArrayExamples | scripts/config.js:60-66 | `[0, null]` and `""` collapse to `null`. A colour string is wrapped. `null` stays `null`. |
| LeafRules.DashLength | scripts/config.js:32-33 | `Number(d) \|\| fallback` is a non-zero number. It is `Number(d)`, or the fallback exactly when the conversion gives NaN or 0. |
| LeafRules.DashLeaf | scripts/config.js:26-37 | The new dash is `null` exactly when the box is unticked. When ticked, it is a pair of non-zero numbers. |
| LeafRules.DashDefaults | scripts/config.js:28-33 | Given the language's conversions, a ticked box over an absent dash, a non-array dash or an empty array gives `[8, 5]`. |
| LeafRules.DashKeepsNumbers | scripts/config.js:28-33 | Given the language's conversions, non-zero numbers in the first two entries are kept. A zero or `null` entry falls back to 8 or 5. Entries after the second are dropped. |
| LeafRules.DashLeafReads | scripts/config.js:28-30 | The dash step reads only `a[0]` and `a[1]`. A value that is not an array reads like an empty array. |
| Normalizer.ApplyVivified | scripts/config.js:43-46 | A slot on the path is read only as `slot \|\| {}`. |
| Normalizer.ApplySetsLeaf | scripts/config.js:47-48 | After the walk, the leaf holds the rule applied to the value found there before. That value is `undefined` when a container on the way was missing or falsy. |
| Normalizer.ApplyElsewhere | scripts/config.js:43-48 | Every path that diverges from the walked path reads the same afterwards, sibling keys included. |
| Normalizer.ApplyContainers | scripts/config.js:43-46 | Every container on the path is an object afterwards. An existing object keeps its keys and gains the next segment. A missing or falsy slot becomes an object holding that segment alone. |
| Normalizer.ApplyFailsIff | scripts/config.js:43-46 | The walk raises a TypeError exactly when some container slot on the path holds a truthy non-object. |
| Normalizer.ApplyCommutesApart | scripts/config.js:90-100 | Two walks that leave one object by different entries give the same result in either order. |
| Normalizer.ApplyCommutes | scripts/config.js:90-100 | Two walks along diverging paths give the same result, or the same error, in either order. |
| SubmitData.FieldsDiverge | scripts/config.js:90-100 | The dash path and the nine field paths diverge pairwise. |
| SubmitData.ApplyAllOrderIndependent | scripts/config.js:90-100 | For fields whose paths diverge pairwise, every permutation of the list (equal as multisets) gives the same payload. |
| SubmitData.FieldOrderIrrelevant | scripts/config.js:90-100 | Running the wrapper's nine fields in any order gives the same payload, or the same error. |
| SubmitData.ApplyAllElsewhere | scripts/config.js:90-100 | Paths that diverge from every field keep their value through the list. |
| SubmitData.ApplyAllSetsLeaf | scripts/config.js:90-100 | Each field ends as its rule applied to the value it had before the list ran. |
| SubmitData.NotDrawingUnchanged | scripts/config.js:12-15 | The payload of any document other than a Drawing comes back unchanged. |
| SubmitData.PreparedDash | scripts/config.js:22-37 | For a Drawing, `lineStyle.dash` ends as the dash leaf of its old value. |
| SubmitData.PreparedFields | scripts/config.js:89-100 | For a Drawing, each of the nine fields ends as its helper's rule applied to its value before the wrapper ran. |
| SubmitData.PreparedElsewhere | scripts/config.js:17-100 | For a Drawing, every path that diverges from the ten written paths reads the same as before. |
| SubmitData.PreparedArrayShapes | scripts/config.js:51-100 | After the wrapper, `textStyle.fill` and `textStyle.fillGradientStops` are each `null` or a non-empty array, never a bare scalar. |
| SubmitData.PreparedDashShape | scripts/config.js:26-37 | After the wrapper, `lineStyle.dash` is `null` iff the box is unticked, and otherwise two non-zero numbers. |
| SubmitData.PreparedDashDefault | scripts/config.js:26-37 | Given the language's conversions, ticking the box on a Drawing whose dash is absent or not an array stores `[8, 5]`. |
| SubmitData.CursorStep | scripts/config.js:43-46 | A turn of the helper loop computes `current[k] = current[k] \|\| {}; current = current[k]`. If the new slot is an object, the work left is unchanged. Otherwise the walk fails. |
| SubmitData.CursorLeaf | scripts/config.js:47-48 | The final leaf assignment completes the walk. |
| SubmitData.Payload.SetLeaf | scripts/config.js:41-48 | The in-place cursor loop succeeds exactly when `Apply` does. On success the payload becomes the result of `Apply`. |
| SubmitData.Payload.Process | scripts/config.js:40-87 | A helper on a dotted path is the walk along `path.split('.')` with that helper's leaf rule. |
| SubmitData.Payload.CoerceDash | scripts/config.js:21-37 | The dash step is the walk to `flags.<id>.lineStyle.dash` with the dash rule. |
| SubmitData.Payload.ProcessField | scripts/config.js:90-100 | Calling the helper of field `k` with its dotted path turns the work left from `k` into the work left from `k + 1`, or raises the error the list raises. |
| SubmitData.Payload.ProcessNumericValues | scripts/config.js:89-96 | The seven `processValue` calls do the first seven fields of the list. |
| SubmitData.Payload.ProcessFormArrays | scripts/config.js:98-100 | The two array calls finish the list. |
| SubmitData.Payload.ProcessFields | scripts/config.js:89-100 | The nine calls together give the payload the list specifies, or fail exactly when the list does. |
| SubmitData.Payload.PrepareSubmitData | scripts/config.js:7-102 | The wrapper's body succeeds exactly when `Prepared` does. On success it leaves the payload `Prepared` gives. |
| Hud.Reflected | scripts/hud.js:67-71 | The flip keeps the number of coordinates. |
| Hud.ReflectedInvolution | scripts/hud.js:69-71 | Reflecting twice in the same extent restores the points. |
| Hud.ReflectedAxesCommute | scripts/hud.js:66-102 | The horizontal and vertical flips touch disjoint coordinates and commute. |
| Hud.ReflectInPlace | scripts/hud.js:69-71 | The stride-2 loop rewrites positions of one parity as `extent - p` and leaves the others alone. |
| Hud.OnFlip | scripts/hud.js:58-105 | A still-locked drawing gets no update. Otherwise the update has as many points as the document. Points of the flipped parity become `\|width\| - x` (or `\|height\| - y`), and all others are unchanged. Because `Drawing` is a value, this handler cannot write the document's points; it only returns the update. |
| Hud.FlipTwiceRestores | scripts/hud.js:65-73 | Flipping twice about the same axis restores the document's points. The extent read by the second flip is unchanged by the first update. |
| DrawingHooks.GridPrecision | scripts/index.js:14-24 | With forced snapping the result is 2 iff the grid type is at most SQUARE, and 5 otherwise. Without it, the result is in {1, 4, 8, 16} and is 1 iff the size is below 32. Any larger precision `p` satisfies `8p <= size`, and for p < 16 also `size < 16p`. |
| DrawingHooks.GridPrecisionMonotone | scripts/index.js:19-23 | Without forced snapping the precision never decreases as the size grows. |
| DrawingHooks.ForcedPrecisionIgnoresSize | scripts/index.js:16 | With forced snapping the grid size plays no part. |
| DrawingHooks.PreProcess | scripts/index.js:51-59 | A fill that is not null, undefined or an array becomes `[fill]`. Otherwise the data is unchanged. Afterwards the fill is nullish or an array. |
| DrawingHooks.PreProcessElsewhere | scripts/index.js:54-56 | Paths that diverge from `flags.<id>.textStyle.fill` are unchanged. |
| DrawingHooks.PreProcessIdempotent | scripts/index.js:54-56 | Running `preProcess` twice is running it once. |
| DrawingHooks.RefreshCalls | scripts/index.js:71-86 | At most two refreshes happen. At least one happens iff the drawing is rendered and the changes hold `flags.<id>`, its deletion key `flags.-=<id>`, or `text`. |
| JsValue.LookupDefinedIsPath | scripts/index.js:52-55 | A defined value at a path means every container above it is an object, so `setProperty` writes in place. |
| JsValue.PutAtElsewhere | scripts/index.js:55 | Writing at one path leaves every diverging path unchanged. |

## Left out

- DOM work is not modelled: the form reading, HUD button creation (`scripts/hud.js` before line 58), the jQuery shims and the `renderDrawingConfig` hook and DOM helpers of `scripts/config.js` (lines 107-567).
- The host wiring is not modelled: `libWrapper.register`/`Hooks`, `document.update`, `updateSource` and the `refresh()` call itself. It is host persistence and rendering. `RefreshCalls` counts the calls.
- `unlockDrawing` (an asynchronous dialog) is not modelled. Its outcome is the `locked` field the handler reads afterwards.
- `saveValue` and `cleanData` of `scripts/utils.js`: that file is not part of this model. `saveValue` is the parameter `save`. `cleanData` runs only in the create and update hooks, after `preProcess`, and is not modelled.
- `scripts/const.js` is not part of this model. `MODULE_ID` is taken as the package name `"advanced-drawing-tools"`. `GRID_TYPES.SQUARE` is the host's value 1.
- JavaScript's `Number(...)` string parsing is not modelled. It is the parameter `number`. `NumberFacts` fixes only its results on `undefined`, `NaN`, `null`, booleans and numbers.
- Infinities are not modelled. A JavaScript number is a `real` or `NaN`, so `Number("Infinity") || 8`, which is `Infinity`, has no counterpart; `number` cannot return it.
- `scripts/controls.js` is not modelled. It only registers a tool into a host-owned record.
- The commented-out `rescaleDimensions` override is not modelled, because it is not live code.
- Hud.OnFlip: coordinates are integers, not floating-point numbers. So the involution holds exactly in the model. With floats it holds only up to rounding.
- SubmitData.Payload.SetLeaf: on a TypeError the method returns false, but its contract does not say what the payload is then. The source has already written the containers before the failing step, and so has the model. `Process`, `CoerceDash`, `ProcessField`, `ProcessNumericValues`, `ProcessFormArrays`, `ProcessFields` and `PrepareSubmitData` inherit this gap.
- Aliasing is not modelled. A payload is a tree of values, so two paths never share one JavaScript object. Form payloads are trees in practice.
- Named properties on arrays are not modelled. When a truthy array sits where the walk needs a container, JavaScript would attach a named property to it. The model treats that as the same error as a primitive.
- DrawingHooks.PreProcess: Foundry's `getProperty` and `setProperty` first try the whole dotted string as one literal key. That shortcut is not modelled. The model reads and writes along the split path only.
