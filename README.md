# QCV operator registry, stereo operator, parameter page walk and colours in Dafny

This project models the core of QCV, a Qt framework for computer-vision pipelines built from a tree of operators:

- **Registry** (`registry.dfy`). An operator's typed, name-keyed data-exchange registry: the `m_ios` map from string ids to type-tagged boxes.
  - Publishing stores the box here and in the direct parent.
  - `getOutput` reads the local map only.
  - `getInput` reads locally first and climbs the parent chain only while the key is absent.
  - `getChild` finds a child by name or by index.
  - `Operator` is a class. The parent link, a ghost depth and a ghost ancestor set are constants, so every upward search is bounded by the depth and the chain has no cycle.
- **Stereo** (`stereo.dfy`). The OpenCV stereo operator.
  - Input validation, with fallback from the two image ids to an `"Images"` vector.
  - `setInput`'s two-image rule.
  - Rescaling the disparity count to a multiple of 16.
  - The control flow of `cycle()`: which flags lead to which result and what gets published.
  - Constructor defaults and the bounded downscale accessor.
- **ParamEditor** (`param_editor.dfy`). The parameter editor dialog.
  - The bounded group-nesting counter of `reloadParameterPage`.
  - The per-level grid array it fills.
  - The editor-deletion notification sent when a page is left.
- **EnumParam** (`enum_param.dfy`). The string-conversion and editor stubs of the enumeration parameter base.
- **Colors** (`colors.dfy`). The integer RGB and RGBA colour structs: clamping, alpha handling, conversions, equality and truthiness.

Boxes hold a borrowed reference (`object?`) and a type tag, which is the template argument the entry was published with. Images are `Mat` values that carry size, type code and an opaque pixel token. A published image is a `MatCell` object that the box refers to.

Facts about the registry and the stereo operator that the model makes explicit:
- **Publishing goes exactly one level up.** It reaches the parent and no further (`Registry.GrandchildPublishStaysBelowRoot`). So an operator nested two levels below the root does not make its output visible at the root.
- **A child's output is visible to its parent** (`Registry.ChildPublishReachesParent`). So a "Scaler" child's `Image 0` is found by its "Stereo" parent.
- **`getChild` does no capability check.** Its `static_cast` of a non-null child never yields null, so it returns the first child with the name, whatever its type.
- **Type mismatch and absence are not reported differently.** Both yield NULL (or the default); only the diagnostic printout differs.
- **Invalid input makes `cycle` succeed.** When the input pair is invalid, `cycle` returns true without publishing anything. The branch that prints "Invalid input images." and returns false is the `else` of the compute-flag test (modules/operators/stereoOp.cpp:490-494), so it is reached when computation is switched off. Its message suggests it was meant for the input test; the model follows the code as written (`Stereo.StereoOp.Cycle`).

## Model

| member | source | states |
|---|---|---|
| Registry.Operator.constructor | modules/sequencer/operator.h:101-102 | a new operator has the given parent (none by default) and name ("Unnamed Operator" by default), an empty I/O map and no children, and a well-founded parent chain |
| Registry.Operator.AncestorsShallower | modules/sequencer/operator.h:170 | every ancestor reached through `getParentOp` is strictly shallower, so the operator is not its own ancestor (the chain is acyclic) |
| Registry.Operator.Chain | modules/sequencer/operator.h:583-595 | the operators an upward lookup can visit: depth+1 of them, starting at this one, each the parent of the one before, ending at the root |
| Registry.Operator.Store | modules/sequencer/operator.h:410-426 | storing into one operator's map replaces or inserts exactly the entry for the id; children untouched |
| Registry.Operator.RegisterOutput | modules/sequencer/operator.h:397-405 | the box lands in this map and, if there is a parent, in the parent's; overwriting keeps the key set, a new id adds exactly that key, other entries unchanged; the pointer is then the output here and the input of the parent; the grandparent's map is untouched |
| Registry.Operator.GetOutput | modules/sequencer/operator.h:432-489 | reads only the local map: absent id gives null, a present id of another type gives null, a matching type gives exactly the stored pointer |
| Registry.Operator.GetInput | modules/sequencer/operator.h:536-614 | a locally present key decides the result (the stored pointer, or null on type mismatch, never consulting the parent); at the root an absent key gives null; a non-null result is a pointer stored under the id with that type somewhere on the chain |
| Registry.Operator.GetInputOr | modules/sequencer/operator.h:494-531 | as GetInput, with the default in place of null for a local type mismatch and for a key absent at the root |
| Registry.InputIsDecidedByFirstHolder | modules/sequencer/operator.h:494-614 | with no holder of the id on the chain, GetInput is null and GetInputOr the default; otherwise the first holder alone decides: its pointer if the type matches, else null / the default, whatever lies above it |
| Registry.AbsentEverywhereIsMissing | modules/sequencer/operator.h:501-513 | an id absent from an operator and all its ancestors gives null and the default |
| Registry.Operator.GetChildByName | modules/sequencer/operator.h:314-333 | returns the first child in order whose name matches, and null exactly when no child matches |
| Registry.Operator.GetChildAt | modules/sequencer/operator.h:358-373 | returns the child at the index when it is below the child count, and null otherwise (including negative indices, which the unsigned comparison rejects) |
| Registry.GrandchildPublishStaysBelowRoot | modules/sequencer/operator.h:397-405 | a publish in a grandchild of the root is visible to the middle operator but not to the root |
| Registry.ChildPublishReachesParent | modules/sequencer/operator.h:397-405 | a publish in a child is found by the parent's input lookup |
| Stereo.ValidateImages | modules/operators/stereoOp.cpp:339-345 | a valid pair has positive size, equal sizes and equal types; so the right image is non-empty too |
| Stereo.ValidityIgnoresPixelsAndSides | modules/operators/stereoOp.cpp:339-345 | validity is symmetric in the two images and does not depend on pixel contents |
| Stereo.SelectInputs | modules/operators/stereoOp.cpp:347-366 | a valid pair read by id is kept; otherwise entries 0 and 1 of an image vector with at least two entries are taken; otherwise (no vector, a reference of another kind, or fewer than two entries) the pair read by id stays |
| Stereo.CeilDiv | modules/operators/stereoOp.cpp:384 | the result is the ceiling of the quotient: the least q with n <= d*q |
| Stereo.ScaledDisparities | modules/operators/stereoOp.cpp:384-388 | the new count is a multiple of 16 and is 16 times the ceiling of n / (16*scale) |
| Stereo.ScaledDisparitiesPositive | modules/operators/stereoOp.cpp:384-388 | a positive count never drops below 16 |
| Stereo.ScaleOneIdempotent | modules/operators/stereoOp.cpp:384-388 | with scale 1 the count is rounded up to a multiple of 16, and rescaling again changes nothing |
| Stereo.SixteenIsFixed | modules/operators/stereoOp.cpp:384-388 | 16 is a fixed point of the rescaling for every scale >= 1 |
| Stereo.RepeatedCyclesShrinkToSixteen | modules/operators/stereoOp.cpp:384-388 | because the result is written back, every cycle with scale >= 2 strictly shrinks a count above 16 and never goes below 16 |
| Stereo.DefaultCountsDecay | modules/operators/stereoOp.cpp:384-388 | at the default scale 2 a count of 64 becomes 32, then 16, then stays 16 |
| Stereo.StereoOp.constructor | modules/operators/stereoOp.cpp:49-73 | defaults: compute on, ids "Image 0", "Image 1", "Disparity Image", algorithm BM, scale 2, float conversion off; no parent and the name "OpenCV Stereo" by default; exactly one child, named "Stereo Image Scaler", whose parent is the stereo operator; the operator, the child and the two disparity images are newly allocated |
| Stereo.StereoOp.SetLeftImageId | modules/operators/stereoOp.h:108 | the left image id accessor sets that field only |
| Stereo.StereoOp.SetRightImageId | modules/operators/stereoOp.h:109 | the right image id accessor sets that field only |
| Stereo.StereoOp.SetDisparityImageId | modules/operators/stereoOp.h:110 | the disparity id accessor sets that field only |
| Stereo.StereoOp.SetStereoAlgorithm | modules/operators/stereoOp.h:112 | the algorithm accessor sets that field only |
| Stereo.StereoOp.SetConvertDispImg2Float | modules/operators/stereoOp.h:114 | the float-conversion flag accessor sets that field only |
| Stereo.StereoOp.SetCompute | modules/operators/stereoOp.h:115 | the compute flag accessor sets that field only |
| Stereo.StereoOp.SetDownscale | modules/operators/stereoOp.h:113 | a factor in [1, 6] is taken as given, and the factor never leaves [1, 6] |
| Stereo.StereoOp.FetchInput | modules/operators/stereoOp.cpp:347-366 | the left and right images become the pair SelectInputs chooses from the id lookups (empty image by default) and the "Images" vector; the result is the validity of that final pair |
| Stereo.StereoOp.SetInput | modules/operators/stereoOp.cpp:555-567 | fewer than two images: false and both images unchanged; otherwise entries 0 and 1 are taken and the result is true |
| Stereo.StereoOp.Cycle | modules/operators/stereoOp.cpp:369-497 | compute off: false, nothing read or published; invalid input: true, nothing published, counts and images unchanged; valid input: both disparity counts rescaled; BM with a scaled left image of a type other than 8UC1/8UC3: false, nothing published, disparity images unchanged; otherwise true, the disparity image becomes a 16-bit image of the scaled left image's size and the float image a 32-bit float image of that size, and exactly the disparity id and "Float " + id are published here and in the parent, whatever the float flag; the operator tree (both child lists) is untouched |
| Stereo.NewOperatorWithoutInputsCycles | modules/operators/stereoOp.cpp:369-378 | a newly built root stereo operator with nothing to read cycles successfully and publishes nothing |
| ParamEditor.NextLevel | modules/paramEditor/paramEditorDlg.cpp:201-265 | separators and plain parameters keep the level; a group begin raises it by one below 16 and keeps it at 16; a group end lowers it by one above 0 and keeps it at 0; a level within [0, 16] stays within it |
| ParamEditor.LevelAfter | modules/paramEditor/paramEditorDlg.cpp:187-302 | the level, starting at 0, never exceeds 16 (and is never negative) over any page |
| ParamEditor.UnsaturatedLevelCountsMarkers | modules/paramEditor/paramEditorDlg.cpp:191-265 | when no begin meets level 16 and no end meets level 0, the final level is the number of begins minus the number of ends |
| ParamEditor.NonMarkersDoNotMoveLevel | modules/paramEditor/paramEditorDlg.cpp:201-210 | appending a separator or a plain parameter leaves the final level unchanged |
| ParamEditor.GridSlotsWritten | modules/paramEditor/paramEditorDlg.cpp:213-237 | every slot the walk writes into the per-level grid array is in [1, 16], at most one per parameter; `LayoutPage` writes exactly this sequence of slots |
| ParamEditor.NestedBeginsLevel | modules/paramEditor/paramEditorDlg.cpp:211-243 | k nested group begins (k <= 16) reach level k |
| ParamEditor.SixteenNestedGroupsOverrunAsWritten | modules/paramEditor/paramEditorDlg.cpp:184-237 | with the 16-slot array as written, a page of sixteen nested group begins writes slot 16, one past the end |
| ParamEditor.LayoutPage | modules/paramEditor/paramEditorDlg.cpp:183-322 | the walk over a page ends at the level LevelAfter gives, all array accesses are in bounds (17 slots), slot 0 is the page grid, the current grid is the one of the final level, and every open level's grid was opened by a group-begin parameter of the page; the slots it writes, in order, are those `GridSlotsWritten` gives |
| ParamEditor.ParameterEditorDlg.constructor | modules/paramEditor/paramEditorDlg.cpp:56-64 | a new dialog has no current page and has sent no notifications |
| ParamEditor.ParameterEditorDlg.ParameterPageExited | modules/paramEditor/paramEditorDlg.cpp:359-369 | every parameter of the current page is notified exactly once, in index order; nothing without a current page |
| ParamEditor.ParameterEditorDlg.ReloadParameterPage | modules/paramEditor/paramEditorDlg.cpp:150-160 | the previous page's parameters are notified first, then the new page becomes current; a null page ends it there |
| EnumParam.NewEnumParameterBase | modules/paramEditor/enumParamBase.cpp:37-41 | name, comment and connector reach the parameter part unchanged |
| EnumParam.GetStringFromValue | modules/paramEditor/enumParamBase.cpp:47-51 | always the empty string |
| EnumParam.SetValueFromString | modules/paramEditor/enumParamBase.cpp:53-57 | refuses every string and leaves the parameter unchanged |
| EnumParam.CreateEditor | modules/paramEditor/enumParamBase.cpp:60-64 | no editor: null |
| EnumParam.StringRoundTripFails | modules/paramEditor/enumParamBase.cpp:47-57 | setting the value from its own string form always reports failure and changes nothing |
| Colors.Clamp | colors.h:52-55 | values in [0, 255] are kept, below 0 become 0, above 255 become 255 |
| Colors.ClampNearestAndIdempotent | colors.h:52-55 | clamping is idempotent, keeps every channel value, and picks the channel value nearest to the input |
| Colors.Rgba.FromInts | colors.h:47-56 | each of r, g, b, a is clamped into [0, 255]; alpha defaults to 255 |
| Colors.Rgba.FromBytes | colors.h:61-70 | the 8-bit arguments are stored verbatim; alpha defaults to 255 |
| Colors.Rgba.FromRgb | colors.h:205-212 | r, g, b are copied and alpha is the given one (255 by default) |
| Colors.Rgba.Set | colors.h:72-81 | overwrites all four channels with their clamped values |
| Colors.Rgba.AssignRgb | colors.h:215-223 | copies r, g, b and forces alpha to 255 |
| Colors.Rgba.Equals | colors.h:85-88 | equal exactly when all four channels, alpha included, are equal |
| Colors.Rgba.NotEquals | colors.h:90-93 | the negation of equality: some channel, alpha included, differs |
| Colors.Rgba.AsBool | colors.h:95-98 | true exactly when some channel, alpha included, is nonzero |
| Colors.Rgb.FromInts | colors.h:127-134 | each of r, g, b is clamped into [0, 255] |
| Colors.Rgb.FromBytes | colors.h:136-143 | the 8-bit arguments are stored verbatim |
| Colors.Rgb.FromRgba | colors.h:145-150 | r, g, b are copied and alpha is dropped |
| Colors.Rgb.Set | colors.h:175-183 | overwrites all three channels with their clamped values |
| Colors.Rgb.AssignRgba | colors.h:152-158 | copies r, g, b and drops alpha |
| Colors.Rgb.Equals | colors.h:160-163 | equal exactly when r, g and b are equal |
| Colors.Rgb.NotEqualsRgba | colors.h:165-168 | compares with an RGBA colour after dropping its alpha |
| Colors.Rgb.AsBool | colors.h:170-173 | true exactly when some channel is nonzero |
| Colors.RgbRoundTrip | colors.h:145-150 | RGB to RGBA (any alpha) and back yields an equal RGB colour |
| Colors.AlphaOnlyDifference | colors.h:85-93 | two RGBA colours differing only in alpha are unequal, while an RGB colour compares equal to both |
| Colors.OpaqueIsTrue | colors.h:47-56 | an RGBA colour built from ints with the default alpha is opaque and therefore true, even when r, g and b are 0 |

## Findings

| source | as written | input that shows it | evidently intended | confidence | as-written member | corrected member |
|---|---|---|---|---|---|---|
| modules/paramEditor/paramEditorDlg.cpp:184-237 | `groupGrids_p` has 16 slots, but the guard `currLevel_i < maxGroupLevel_i` lets the level reach 16 and then writes `groupGrids_p[16]` | a page whose first sixteen parameters are nested group begins | one slot per level 0..16 (17 slots), so that 16 nested groups fit | high, not executed | ParamEditor.SixteenNestedGroupsOverrunAsWritten | ParamEditor.LayoutPage |

## Left out

- Stereo matching, image resizing, colour conversion and the matcher re-initialisation (`cv::resize`, `StereoSGBM`/`StereoBM`, `cvCvtColor`, `m_sbm.init`). These are foreign library calls. The model keeps only the decisions around them. Because of this, the pixel contents of the disparity images are not modelled: `Cycle` takes the matcher's output pixels and their float conversion as parameters, and the model fixes only the images' sizes and types.
- The disparity-to-float conversion loop and the HSV/HSL colour structs are floating point. The `CColor` conversion functions are only declared.
- The image scaler child (`CImageScalerOp`) is not part of this model. `Cycle` takes the left image the scaler produces as a parameter: the BM type check and the disparity images' size use it.
- The function-local `oldScale_i` only decides when the BM matcher is re-initialised. It has no other effect.
- Stereo.ScaledDisparities: does not model the 32-bit wrap of the write-back. The source computes the ceiling in double precision, stores it in an `unsigned int` and then writes it back into the matcher's `int` field (modules/operators/stereoOp.cpp:384-388). The model uses the exact integer ceiling and keeps it unbounded. The two agree for non-negative counts up to 2^31 - 16 at every scale, and for every non-negative 32-bit count at scales of 2 and more. At scale 1 the counts 2^31 - 15 to 2^31 - 1 round up to 2^31, which the `int` write-back wraps to -2^31; the model keeps 2^31. A negative result would make the unsigned conversion undefined behaviour in the source, and the model returns it as a negative integer.
- Stereo.StereoOp.constructor: the initial disparity counts of the two matchers come from OpenCV's constructors and from parameter macros that are not part of this model. The model leaves them unconstrained. `m_show3D_b` is never initialised and is never read by the modelled code, so it is left out.
- Stereo.StereoOp.SetDownscale: out-of-range arguments are stated weaker than the body. The bounded accessor macro is not part of this model. The contract only promises that the factor stays in [1, 6]. It does not say whether such a value is clamped or refused (the body clamps).
- Stereo.StereoOp.FetchInput: dereferencing a box of the image type that holds a null or foreign reference is undefined behaviour in the source. The model reads the empty image there.
- Registry.Operator.constructor: `COperator`'s and `CNode`'s constructors are defined outside the modelled files. The model assumes they start with an empty map and no children and do not register with the parent. The stereo constructor's `addChild` is modelled as appending the scaler child.
- The default lifecycle propagation (`cycle`, `show`, `initialize`, `reset`, `exit`), `clearIOMap`, `registerOutputs`, `registerOutputsTo`, `getOutputMap` and `addChild` are declared in operator.h but defined in files that are not part of this model.
- Stereo `show()`, `initialize()`, `keyPressed`, drawing lists, clocks and screen size are rendering plumbing and shared global handlers.
- Parameter registration macros (`ADD_*_PARAMETER`, group macros, accessor macros) are defined in headers that are not part of this model.
- All Qt widget code is left out: the editor's widgets, labels, spacers and colours, and the dialog's file load and save. `createEditor` and `updateFromContainer` for plain parameters are UI. The layout walk keeps only the level counter and the grid array.
- `printf` diagnostics are logging only. In particular, the absent-key and wrong-type messages are the only place where the source tells those two failures apart.
