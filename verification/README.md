# Seurat capture: camera placement and view-group manifest

This project models the core of the Seurat capture add-on for Blender. The add-on renders a scene as cube maps from many camera positions inside a "headbox". It then writes a JSON manifest that describes every rendered view for the external Seurat mesh baker.

The modelled core is:

- **`math_functions.py`**. The six cube-face world-from-eye matrices and the 90° cube-face projection. The radical inverse and the Hammersley point set built from it. Box interpolation (`point_in_a_box`) and point distance. `generate_camera_positions` has five steps:
  - it samples the Hammersley set;
  - it normalises every axis so the set spans the unit cube;
  - it maps the set into the headbox;
  - it stably sorts the points by distance to the headbox centre;
  - it replaces the first point by the centre itself.
- **`capture.py`**:
  - the headbox bounds and centre computed from the capture box;
  - the order in which the six faces are rendered;
  - the names the renders are renamed to;
  - `create_view_groups`, which builds the manifest: six views per camera position, with the shared projection matrix, the face matrix translated to the camera position, and the image paths.

Python floats are modelled as `real`. Lists are modelled as `seq`, and the manifest's dictionaries become datatypes: `ProjectiveCamera`, `ColorImage`, `DepthImage`, `DepthImageFile`, `View` and `ViewGroup`. `ValueError` becomes an `Err` result carrying the source's message.

The loops of the source are methods with loop invariants:
- `radical_inverse`, `distance` and the loops of `generate_camera_positions`;
- `create_view_groups` with its inner face loop and the translation patch.

Each method is proved equal to a specification function. The properties are proved about that function.

Files:
- `errors.dfy`: `Error` and `Result`.
- `real_arith.dfy`: small lemmas of real arithmetic.
- `faces.dfy`: the face table.
- `projection.dfy`: the projection matrix.
- `radical_inverse.dfy`: the radical inverse, both the integer-digit model and the loop as written.
- `boxes.dfy`: `point_in_a_box` and distance.
- `stable_sort.dfy`: Python's `sorted` with a key.
- `camera_positions.dfy`: `generate_camera_positions`.
- `file_names.dfy`: `%s`/`%04d` formatting, `str`, `zfill` and the rename targets.
- `capture.dfy`: the headbox, the face order and `create_view_groups`.

Where the program's documentation and its code disagree, the model follows the code:
- The docstrings of `generate_camera_positions` (math_functions.py:190-191) and `point_in_a_box` (math_functions.py:151-152) call `headbox_min`/`box_min` the lower bounds and `headbox_max`/`box_max` the upper bounds. `capture.py:64-67` builds `headbox_min = location + scale` and `headbox_max = location - scale`, so for a positively scaled capture box the "min" corner is the larger one. `Capture.HeadboxOrientation` states this, and the containment lemmas hold for bounds in either order (`Boxes.Between`).
- The docstring of `radical_inverse` promises a result in [0, 1). The code as written can leave that range (see Findings). The camera positions are modelled with the integer-digit radical inverse that the docstring describes.

## Model

| member | source | states |
|---|---|---|
| Faces.WorldEyeMatrix | math_functions.py:37-66 | Each face's matrix is the literal 16-entry row-major table. Its translation entries 3, 7 and 11 are zero, and its bottom row is [0, 0, 0, 1]. |
| Faces.WorldEyeMatrixFromName | math_functions.py:25-68 | The lookup succeeds exactly for the six face names and returns that face's matrix. Any other name gives ValueError('Invalid face_name'). |
| Faces.FaceMatrixIsRotation | math_functions.py:37-66 | Every face matrix has an orthonormal upper-left 3x3 block with determinant 1: a proper rotation. |
| Faces.ViewDirectionsAreAxes | math_functions.py:37-66 | Every face looks along a world axis direction. Front looks along +Y and bottom along -Z. |
| Faces.ViewDirectionsDistinct | math_functions.py:37-66 | No two faces look in the same direction, so the six faces cover all six axis directions. |
| Faces.OppositeFacesLookOpposite | math_functions.py:37-66 | Opposite faces look in opposite directions. |
| Projection.CubeFaceProjectionMatrix | math_functions.py:71-103 | Error "near must be positive." when near <= 0, checked first; then "far must be greater than near." when far <= near. Otherwise the result has 16 entries with a = b = 1, c = d = 0 and last row [0, 0, -1, 0]. The depth row sends the near plane to clip depth -w and the far plane to +w. |
| Projection.DepthWithinClipRange | math_functions.py:96-102 | Under the two plane equations, clip depth lies between -w and w exactly when z lies between the clip planes (both directions). |
| Projection.ProjectedPoint | math_functions.py:96-103 | Projecting (x, y, z, 1) keeps x and y, puts e·z + f in the depth slot and -z in w. |
| Projection.ProjectionMapsFrustumToClipVolume | math_functions.py:71-103 | A point in front of the camera projects into the canonical clip volume if and only if it lies in the face's 90° frustum between the clip planes. |
| Projection.ProjectionExample | math_functions.py:82-103 | near = 1, far = 2 gives e = -3 and f = -4 and the full matrix. A zero or negative near plane, or a far plane not beyond near, gives an error. |
| RadicalInverse.DigitReversal | math_functions.py:128-145 | The radical inverse with integer digit extraction lies in [0, 1). It is 0 exactly when a <= 0. |
| RadicalInverse.Digits | math_functions.py:140-143 | The digits the loop takes off are each below the base. There are none exactly when a <= 0. |
| RadicalInverse.DigitReversalIsMirroredDigits | math_functions.py:140-143 | The recursive definition equals the digits weighted place by place by base^-1, base^-2, and so on. |
| RadicalInverse.LoopInvariantStep | math_functions.py:140-143 | One iteration keeps the loop invariant: the lowest digit moves into `inverse` at its place, `digit` moves one place right, and `a` loses that digit. |
| RadicalInverse.LoopInvariantExit | math_functions.py:140-145 | When no digits are left, `inverse` is the radical inverse. |
| RadicalInverse.RadicalInverse | math_functions.py:128-145 | The loop, with integer division, returns DigitReversal(a, base), which lies in [0, 1). |
| RadicalInverse.DigitReversalExamples | math_functions.py:128-145 | Base 2 is bit reversal: 1 gives 0.5, 2 gives 0.25, 3 gives 0.75, 6 gives 0.375 and 7 gives 0.875. Base 3 maps 1 to 1/3 and 3 to 1/9. Index 0 maps to 0. |
| RadicalInverse.DigitReversalInjective | math_functions.py:128-145 | Distinct non-negative indices have distinct radical inverses. |
| RadicalInverse.FloatMod | math_functions.py:141 | Python's float `%` with a positive divisor lies in [0, divisor). |
| RadicalInverse.FloatStep | math_functions.py:141-143 | One iteration as written under Python 3: `a` and `digit` both shrink by the base (true division), and `inverse` grows by a non-negative amount below digit · base. |
| RadicalInverse.FloatLoop | math_functions.py:140-143 | The loop as written, run for at most `steps` iterations while a > 0. More iterations never lower `inverse`, and a loop that starts with a <= 0 returns `inverse` untouched. |
| RadicalInverse.RadicalInverseAsWritten | math_functions.py:128-145 | radical_inverse as written under Python 3, cut after `steps` iterations. It is never negative, and it is 0 for a <= 0. |
| RadicalInverse.FirstThreeStepsOfSeven | math_functions.py:141-143 | As written, a = 7 in base 2 goes through the states (3.5, 0.25, 0.5), (1.75, 0.125, 0.875) and (0.875, 0.0625, 1.09375) for (a, digit, inverse). |
| RadicalInverse.RadicalInverseAsWrittenExceedsOne | math_functions.py:143 | As written, radical_inverse(7, 2) reaches 1.09375 after three iterations and never comes back below it. The integer model gives 0.875. |
| Boxes.PointInABox | math_functions.py:148-162 | The result has one coordinate per entry of the shortest of the three lists, like `map`. |
| Boxes.InterpolationBetween | math_functions.py:159-161 | With a parameter in [0, 1], one interpolated coordinate lies between its two bounds, in either order. |
| Boxes.SampleInsideBox | math_functions.py:148-162 | A sample in [0, 1] on every axis lands between box_min and box_max on every axis, whichever bound is larger. |
| Boxes.BoxCornersAndCentre | math_functions.py:148-162 | In any number of dimensions, the all-zero sample gives box_min, the all-one sample gives box_max and the all-half sample gives the midpoint. |
| Boxes.Differences | math_functions.py:174 | The coordinate differences have one entry per coordinate of the shorter point, like `map`. |
| Boxes.SquaredDistance | math_functions.py:165-179 | The squared distance is never negative. |
| Boxes.SquaredNorm | math_functions.py:175-178 | The accumulated sum of squares is never negative. |
| Boxes.Distance | math_functions.py:165-179 | The loop's accumulated `distance_sqr` equals the squared distance of the two points. |
| Boxes.DistanceToItself | math_functions.py:165-179 | A point is at distance zero from itself. |
| Boxes.DistanceSymmetric | math_functions.py:165-179 | The distance does not depend on the order of the arguments. |
| StableSort.Insert | math_functions.py:229-230 | Insertion adds exactly the one element: the multiset grows by it. |
| StableSort.InsertSorted | math_functions.py:229-230 | Inserting into a sorted list keeps it sorted by the key. |
| StableSort.SortBy | math_functions.py:229-230 | The sort is a permutation of its input and is non-decreasing in the key. |
| StableSort.SortByLength | math_functions.py:229-230 | Sorting keeps the length. |
| StableSort.FilterInsert | math_functions.py:229-230 | An insertion puts the element at the front of its own key class and leaves every other class unchanged. |
| StableSort.SortByStable | math_functions.py:229-230 | Stability: within every key class, the elements keep their input order. |
| StableSort.StableSortUnique | math_functions.py:229-230 | Two lists that are sorted by the key and have the same key classes in the same order are equal, so the sort is determined by its contract. |
| CameraPositions.HammersleySample | math_functions.py:210-214 | Sample i of n is (i/n, radinv(i, 2), radinv(i, 3)), and every coordinate lies in [0, 1). |
| CameraPositions.Samples | math_functions.py:206-217 | The first loop's samples after `count` iterations: exactly `count` of them. Each is the Hammersley sample of its index (see SamplesStep). |
| CameraPositions.SamplesStep | math_functions.py:208-217 | One iteration appends the Hammersley sample of the next index to the samples before it. |
| CameraPositions.Max | math_functions.py:216 | Python's max of two floats is one of them and at least both. |
| CameraPositions.AxisMax | math_functions.py:207-216 | max_sample[dim] after the loop bounds every sample on that axis. It is one of the samples' values, or the initial 0. |
| CameraPositions.AxisMaxStep | math_functions.py:215-216 | One more sample raises each axis maximum to the larger of the old maximum and the new coordinate. |
| CameraPositions.MaxSample | math_functions.py:207-216 | max_sample after the first loop holds the three axis maxima of AxisMax. |
| CameraPositions.MaxSamplePositive | math_functions.py:206-217 | For n >= 2 every axis maximum is strictly positive, so the normalisation never divides by zero. |
| CameraPositions.Normalised | math_functions.py:224-225 | Each normalised coordinate times its axis maximum gives back the sample's coordinate. |
| CameraPositions.Centre | math_functions.py:219 | The headbox centre, point_in_a_box with [0.5, 0.5, 0.5], is the midpoint of the two bounds on every axis. |
| CameraPositions.DistanceKey | math_functions.py:229-230 | The sort key is never negative, and it is 0 at the headbox centre. |
| CameraPositions.NormalisedSamples | math_functions.py:222-225 | There is one normalised sample per camera. Their range is stated by NormalisedInUnitCube and NormalisedAttainsOne. |
| CameraPositions.HammersleyPoints | math_functions.py:222-227 | There is one box-mapped point per camera. Their position is stated by HammersleyPointsInBox. |
| CameraPositions.CameraPositions | math_functions.py:199-235 | The result has exactly n positions, and the first is the headbox centre. |
| CameraPositions.UpdateMaxSample | math_functions.py:215-216 | The inner loop updates max_sample to the axis maxima of the samples including the new one. |
| CameraPositions.GenerateSamples | math_functions.py:206-217 | The first loop produces the n Hammersley samples in order, together with their axis maxima. |
| CameraPositions.NormaliseInPlace | math_functions.py:224-225 | The in-place division divides every coordinate by that axis's maximum. |
| CameraPositions.PlaceSamples | math_functions.py:222-227 | The second loop produces the box-mapped normalised samples, in generation order. |
| CameraPositions.GenerateCameraPositions | math_functions.py:182-235 | Error 'num_cameras must be positive' exactly when num_cameras <= 0. One camera gives [centre]. Otherwise the result is the specified list: the box-mapped normalised samples, stably sorted by distance to the centre, with the first replaced by the centre. |
| CameraPositions.NormalisedInUnitCube | math_functions.py:222-225 | Every normalised coordinate lies in [0, 1]. |
| CameraPositions.NormalisedAttainsOne | math_functions.py:222-225 | On every axis some normalised sample is exactly 1, so the set spans the unit cube. |
| CameraPositions.HammersleyPointsInBox | math_functions.py:222-227 | Every mapped point lies in the headbox on all three axes. |
| CameraPositions.CameraPositionsInBox | math_functions.py:182-235 | Every returned position lies in the headbox, whichever order its bounds come in. |
| CameraPositions.CameraPositionsSorted | math_functions.py:229-234 | The returned positions are non-decreasing in distance to the centre, including after the first is replaced. |
| CameraPositions.CameraPositionsStablySorted | math_functions.py:229-234 | For n >= 2 the result is any stable sort of the points by distance to the centre, with its first element replaced by the centre. |
| CameraPositions.TwoCamerasExample | math_functions.py:182-235 | Two cameras in [-1, 1]^3 give [[0, 0, 0], [1, 1, 1]]. The two corners are equally far, stability keeps them in generation order, and the first is replaced by the centre. |
| CameraPositions.TwoSamplesNormalised | math_functions.py:206-225 | For two cameras the normalised samples are the opposite corners of the unit cube. |
| FileNames.DecimalString | capture.py:232 | str(n) for n >= 0 is a non-empty string of decimal digits, starting with '0' only for 0. |
| FileNames.IntString | capture.py:232 | str(n) starts with '-' exactly when n is negative. |
| FileNames.ZFill | capture.py:232 | zfill(width) gives max(len, width) characters. |
| FileNames.PercentZeroPad | capture.py:274-277 | `%0<width>d` gives at least width characters, all digits for n >= 0. |
| FileNames.ZFillAgreesWithPercentFormat | capture.py:231-234 | `str(n).zfill(w)` and `'%0<w>d' % n` are the same string for every integer n. |
| FileNames.DecimalRoundTrip | capture.py:232 | str(n) reads back as n. |
| FileNames.PaddedIndexRoundTrip | capture.py:274-277 | The zero-padded index reads back as the index. |
| FileNames.PathPattern.Format | capture.py:274-277 | `pattern % (face, index)` starts with the pattern's head and the face name and ends with its tail. It is at least as long as head, name, middle, width and tail together. |
| FileNames.ColorFileName | capture.py:231-232 | The colour rename target starts with the output directory and the face name, ends in ".exr", and is at least 15 characters longer than directory and face name together. |
| FileNames.DepthFileName | capture.py:233-234 | The depth rename target starts with the output directory and the face name, ends in ".exr", and is at least 15 characters longer than directory and face name together. |
| FileNames.DefaultPatternTexts | capture.py:120-121 | The default patterns are '%s_color.%04d.exr' and '%s_depth.%04d.exr'. |
| FileNames.ZeroPaddedPatternMatchesRename | capture.py:231-234 | A `%s<middle>%04d.exr` pattern formats to face + middle + str(index).zfill(4) + '.exr'. |
| FileNames.DefaultPatternsMatchRenames | capture.py:231-234 | With the default patterns, the output directory followed by the manifest path is exactly the rename target, for colour and for depth. |
| FileNames.FaceNamesPrefixFree | capture.py:253 | No face name is a prefix of another: two different faces' names differ at a position both have. |
| FileNames.DifferentFacesDifferentStarts | capture.py:274-277 | Whatever text follows them, two different face names give different strings. |
| FileNames.DistinctViewsGetDistinctPaths | capture.py:274-277 | Under any pattern, equal paths mean the same face and the same view-group index. |
| Capture.HeadboxMin | capture.py:64-65 | headbox_min is location + scale on each of the three axes. |
| Capture.HeadboxMax | capture.py:66-67 | headbox_max is location - scale on each of the three axes. |
| Capture.HeadboxCentreIsLocation | capture.py:114-115 | The headbox centre is exactly the capture box's location. |
| Capture.HeadboxOrientation | capture.py:64-67 | On each axis, min > max if and only if the scale is positive, and min < max if and only if it is negative. |
| Capture.CameraPositionsNearLocation | capture.py:64-73 | Every generated camera position is within abs(scale) of the location on every axis. |
| Capture.RenderFaceOrderIsPermutation | capture.py:97 | The face loop visits 'front', 'back', 'left', 'right', 'bottom', 'top', each of the six faces exactly once. |
| Capture.PatchTranslation | capture.py:261-262 | Entry 4i+3 holds position[i] for i < 3. The other 13 entries are unchanged. |
| Capture.SetTranslation | capture.py:261-262 | The loop writes position[i] into entry 4i+3 for i < 3 and leaves every other entry unchanged. |
| Capture.ViewFor | capture.py:255-293 | The view record of one face from one position. Its world-from-eye matrix has 16 entries. Its contents are stated by ViewMatrixIsFaceMatrixMovedToPosition and ManifestViewSettings. |
| Capture.ViewGroupFor | capture.py:252-295 | Each view group holds exactly six views. |
| Capture.ViewGroupsFor | capture.py:250-296 | There is one view group per camera position, in input order. |
| Capture.ViewGroupsForStep | capture.py:295-296 | Appending the group of the next position extends the groups of the positions before it. |
| Capture.CreateView | capture.py:255-294 | One pass of the face loop, once the projection is known, builds exactly the specified view record of that face. |
| Capture.CreateViews | capture.py:252-294 | Error exactly when the clips are invalid, with the projection's message. Otherwise the six views in face order, each equal to its specified record. |
| Capture.CreateViewGroups | capture.py:248-299 | No positions give []. Otherwise there is an error exactly when the clips are invalid, with the projection's message, else one specified group per position, in order. |
| Capture.ViewMatrixIsFaceMatrixMovedToPosition | capture.py:255-262 | Entries 3, 7 and 11 of a view's world-from-eye matrix are position[i] - headbox_center[i]. The other 13 entries are the face's, and the matrix is still a proper rotation. |
| Capture.RotationIgnoresTranslation | capture.py:261-262 | Writing the translation column keeps a proper rotation a proper rotation. |
| Capture.ManifestViewSettings | capture.py:257-291 | Every view has the shared clip matrix, image_width = image_height = image_size and the given depth_type. Its paths are the patterns formatted with (face, group index). Its colour channels are R, G, B, A and its depth channel is depth_channel_name. |
| Capture.ManifestNamesRenderedFiles | capture.py:274-277 | With the default patterns, every manifest path, with the output directory in front, is the file rename_renders produced for that face and group. |
| Capture.ManifestPathsDistinct | capture.py:274-277 | Whatever the two patterns are, no two views of the manifest share a colour path or a depth path. |
| Capture.PathsDistinct | capture.py:274-277 | Under any pattern, distinct (face, index) pairs format to distinct paths. |
| Capture.FirstViewGroupAtCentre | capture.py:255-262 | For the generated positions, every view of the first group has zero translation. |
| Capture.TranslationRelativeToCaptureBox | capture.py:255-262 | Each view's translation is the camera position minus the capture box's location. |

## Left out

- processing.py is not part of this model. It checks the platform, creates directories and runs the external baker.
- interface.py and `__init__.py` are not part of this model. They declare UI panels and properties and hold no logic.
- The Blender operator plumbing in capture.py is not modelled: creating the capture box, saving and restoring render settings, `render_preparation`, `compositor_setup` and `render_color_and_depth`. It changes the host scene, including the camera's Euler rotations, and has no pure counterpart.
- `os.rename` in `rename_renders` and the JSON dump and file write are I/O. Only the target file names (`FileNames.ColorFileName`, `FileNames.DepthFileName`) and the manifest value are modelled.
- `project_point` in math_functions.py is not modelled. Nothing calls it, and it uses `operator.div`, which Python 3 does not have.
- Boxes.Distance: returns the squared distance. `math.sqrt` is left out because the square root is strictly increasing on non-negative reals, so sorting by either gives the same order and the same ties.
- Floating point is modelled as exact real arithmetic. Rounding, overflow and NaN are not modelled.
- Faces are compared with `is` on string literals in the source. The model uses a closed `Face` datatype and compares names by value.
- RadicalInverse.RadicalInverse: models `a /= base` as integer division, the documented intent. The Python 3 behaviour is modelled separately (see Findings).
- RadicalInverse.RadicalInverseAsWritten: runs at most `steps` iterations. In exact arithmetic the as-written loop never ends. In floating point it ends only when `a` underflows, which is not modelled.
- FileNames.PathPattern: covers only patterns of the shape `<head>%s<middle>%0<width>d<tail>`, the shape of both patterns the operator passes. Other %-conversions are not modelled.
- CameraPositions.GenerateCameraPositions: the samples are values, so the in-place update of each `sample` list that `samples` also refers to is modelled by building new values. The two inner `for dim in range(3)` loops and the second outer loop are separate methods (UpdateMaxSample, NormaliseInPlace, PlaceSamples).
- Capture.CreateViewGroups: when the clips are valid, requires every position and the centre to have at least three coordinates. The source raises IndexError at capture.py:262 for a shorter position; that error path is not modelled.
- The render loop of the operator (capture.py:95-105) is modelled only through its face order (Capture.RenderFaceOrderIsPermutation) and the file names it produces.

## Findings

| source | as written | input that shows it | evidently intended | confidence | as-written member | corrected member |
|---|---|---|---|---|---|---|
| math_functions.py:143 | `a /= base` is true division in Python 3, which the add-on runs on (Blender 2.90, `__init__.py:6`), so `a` keeps its fractional part and `a % base` becomes a float remainder. The loop no longer extracts digits. | radical_inverse(7, 2): the loop adds 0.5, then 0.25 · 1.5, then 0.125 · 1.75, giving 1.09375 after three iterations, outside the documented [0, 1). The integer-digit result is 0.875. | Integer division (`a //= base`), as in the commented-out earlier version (math_functions.py:106-125, `a / base` at line 119 under Python 2), which yields the radical inverse in [0, 1). | high; not executed | RadicalInverse.RadicalInverseAsWrittenExceedsOne | RadicalInverse.RadicalInverse |
