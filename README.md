# Pose plugin native tester: localization handling

A model of the logic in the iOS sample app's `ViewController`. The app sends camera frames
to the Immersal localization engine and places the map's point cloud in the AR scene. The
model covers three parts of the view controller:

- **Localization statistics.** `LocalizerStats` holds two counters. Every completed
  localization adds one attempt. It adds one success exactly when the engine returns a
  non-negative map handle.
- **Axis-corrected pose matrix.** The engine reports a position `(px, py, pz)` and a
  rotation `r00 .. r22`. From these the handler builds an `SCNMatrix4`:
  - the rotation's columns become rows;
  - the second and third rows are negated, which negates Y and Z between the engine's axes
    and SceneKit's (a half-turn about X, not a change of handedness);
  - the position becomes the translation row, without any sign change.

  The point cloud is then re-anchored at `SCNMatrix4Mult(SCNMatrix4Invert(m), camera)`.
  This happens only on success, and only when a point-cloud node exists.
- **Point buffer to points.** The engine writes into a flat float buffer of `3 * maxNumPoints`
  entries and returns `num`. The view controller reads one `(x, y, z)` triple for each
  index `0, 3, 6, …` below `num`.

Modules: `Geometry` (SceneKit vectors and matrices, with the row-vector convention), `Pose`,
`Stats`, `PointCloud` and `Controller`. `Controller` holds the `ViewController` class, whose
methods change `stats` and the node's `transform` in place. `Wrappers` holds `Option`.

Three facts about the source shape the model:

- The `LocalizeInfo` declared in PosePluginNativeTesterObjC/PosePluginNativeTesterObjC/PosePlugin.h
  carries a quaternion. The result this view controller reads carries a 3x3 rotation
  `r00 .. r22` instead, and the model follows the view controller.
- `SCNMatrix4Invert` reports no failure, and the handler checks for none. So the model has
  no error path for a matrix that cannot be inverted.
- The view controller computes no heading.

## Model

| member | source | states |
|---|---|---|
| `Pose.PoseMatrix` | PosePluginNativeTester/PosePluginNativeTester/ViewController.swift:35-39 | The assembled matrix is affine: its fourth column is (0, 0, 0, 1). |
| `Pose.PoseMatrixRows` | PosePluginNativeTester/PosePluginNativeTester/ViewController.swift:35-39 | Row 1 is the first rotation column `(r00, r10, r20, 0)`. Rows 2 and 3 are the negated second and third columns. Row 4 is `(px, py, pz, 1)`. |
| `Pose.PoseMatrixAgainstUncorrected` | PosePluginNativeTester/PosePluginNativeTester/ViewController.swift:36-39 | Compared with the same layout without correction, rows 1 and 4 are equal and rows 2 and 3 are exactly negated. |
| `Pose.UncorrectedActsAsEnginePose` | PosePluginNativeTester/PosePluginNativeTester/ViewController.swift:35-39 | Without the correction, the layout maps a point `p` to `R p + t`: the reported pose itself. |
| `Pose.PoseMatrixFlipsThenPoses` | PosePluginNativeTester/PosePluginNativeTester/ViewController.swift:35-39 | The corrected matrix maps `p` to `R * FlipYZ(p) + t`: it negates Y and Z first, then applies the reported pose. The origin goes to the reported position, so the translation is never flipped. |
| `Pose.PoseMatrixUndoesFlip` | PosePluginNativeTester/PosePluginNativeTester/ViewController.swift:35-39 | The reported pose is recovered from the corrected matrix: applying it to the point `FlipYZ(q)`, with Y and Z negated, gives `R q + t`. |
| `Geometry.FlipYZPreservesOrientation` | PosePluginNativeTester/PosePluginNativeTester/ViewController.swift:37-38 | Negating Y and Z commutes with the cross product, so the sign correction is a half-turn about X and keeps handedness. |
| `Pose.CorrectionIsVisible` | PosePluginNativeTester/PosePluginNativeTester/ViewController.swift:37-38 | The corrected and uncorrected matrices are equal if and only if the second and third rotation columns are zero. |
| `Stats.Record` | PosePluginNativeTester/PosePluginNativeTester/ViewController.swift:32-48 | One result adds exactly one attempt. It adds one success if and only if `handle >= 0`, and otherwise leaves successes unchanged. It keeps `successes <= attempts`. |
| `Stats.CountSuccessesBounds` | PosePluginNativeTester/PosePluginNativeTester/ViewController.swift:34-48 | At most every result is a success. All results are successes exactly when no handle is negative. None are successes exactly when every handle is negative. |
| `Stats.ReplayCounts` | PosePluginNativeTester/PosePluginNativeTester/ViewController.swift:13-48 | Start from zero. After N results, S of them with non-negative handles, the stats are exactly (N, S). |
| `Stats.SuccessesNeverExceedAttempts` | PosePluginNativeTester/PosePluginNativeTester/ViewController.swift:13-48 | After any sequence of results, `0 <= successes <= attempts`. |
| `PointCloud.StrideVisits` | PosePluginNativeTester/PosePluginNativeTester/ViewController.swift:99 | `stride(from: 0, to: num, by: 3)` visits index `3j` if and only if `j < ceil(num / 3)`. It visits nothing when `num <= 0`. |
| `PointCloud.ReadsStayInBuffer` | PosePluginNativeTester/PosePluginNativeTester/ViewController.swift:94-102 | If `num <= 3 * maxNumPoints`, then at most `maxNumPoints` points are read, and every index `3j + 2` read is below the buffer's `3 * maxNumPoints`. |
| `PointCloud.FlattenAt` | PosePluginNativeTester/PosePluginNativeTester/ViewController.swift:98-102 | Laying points out flat puts component k of point j at index `3j + k`, and gives 3 floats per point. |
| `PointCloud.ExtractPoints` | PosePluginNativeTester/PosePluginNativeTester/ViewController.swift:98-102 | The loop yields `ceil(num / 3)` points in buffer order. Point j is `(buf[3j], buf[3j+1], buf[3j+2])`. Flattened, they give back the buffer prefix that was read. |
| `Controller.PointCloudNode.constructor` | PosePluginNativeTester/PosePluginNativeTester/ViewController.swift:105-106 | A new point-cloud node holds the extracted points and starts at the identity transform. |
| `Controller.ViewController.constructor` | PosePluginNativeTester/PosePluginNativeTester/ViewController.swift:13-23 | Both counters start at zero, and there is no point-cloud node. |
| `Controller.ViewController.ViewWillAppear` | PosePluginNativeTester/PosePluginNativeTester/ViewController.swift:83-111 | A node is created only when the map loaded with a non-negative handle. It then holds exactly the points the loop extracts. Otherwise the node is unchanged. |
| `Controller.ViewController.CompleteLocalization` | PosePluginNativeTester/PosePluginNativeTester/ViewController.swift:31-49 | The stats advance by `Record`, and the handle is appended to the history the stats replay. If `handle >= 0` and a node exists, its transform becomes `mult(invert(m), camera)`, with the inverse on the left. Otherwise the transform is unchanged. |
| `Controller.ViewController.DidTapLocalize` | PosePluginNativeTester/PosePluginNativeTester/ViewController.swift:29-56 | If there is no current frame, or its pixel format is not the expected bi-planar one, nothing changes. Otherwise the result is handled with that frame's camera transform. |

## Left out

- The ARKit session lifecycle, the label and button updates, the label's text and the
  `DispatchQueue` hops are UI and concurrency plumbing. The model runs the completion
  handler synchronously, in the order the results arrive.
- The pixel-buffer lock/unlock and the raw plane address are CoreVideo I/O. Only the
  outcome of the pixel-format check is a parameter.
- Reading the map file, `icvLoadMap`, `icvPointsGet`, `icvLocalize` and the manual pointer
  allocations are file I/O and calls into the engine. Their results are parameters.
- `pointCloudGeometry` builds SceneKit geometry and materials and has no logic of its own.
  The node keeps the points it was built from.
- `SCNMatrix4Invert` and `SCNMatrix4Mult` are SceneKit's single-precision arithmetic. The
  model carries them as uninterpreted function parameters, so only the operand order and
  the guards are stated.
- Entries are `real`. Entry placement and negation are exact in `Float` too. Float rounding
  inside SceneKit is not modelled.
- Stats.Record: the counters are unbounded integers. Swift's `Int` would trap on overflow,
  which is out of reach at one increment per localization.
- Controller.ViewController.ViewWillAppear: the model assumes `icvPointsGet` returns at most
  `3 * maxNumPoints`, trusting the `countMax` it is passed. The Swift never checks this. If the
  engine returned more, the loop would read past the `3 * maxNumPoints` floats allocated for
  the buffer.
- PointCloud.ExtractPoints: the engine's contract is not part of this model, so it is not
  shown whether `num` counts floats or points. The loop is modelled as written, treating
  `num` as a float count. When `num` is not a multiple of 3, the last point also reads the
  one or two floats after index `num - 1`. These are still inside the buffer.
- The engine headers (`PosePlugin.h`, `wrapper.cpp`, the bridging header) only declare
  external engine calls. Their `Dot` helpers are not used by the view controller.
- Map-to-ECEF, WGS84 and heading computations appear only as declared engine calls. No
  implementation is part of this model.
