# Transable transform engine, in Dafny

This project models the transform engine of the `transable` widget library.
`Transable` holds the position, size and rotation of a rectangular widget.
It updates that state in place for three pointer gestures: drag, rotate and resize.
The model also covers the point rotation `rotatePoint` and the analytic-geometry helpers the resize uses.

Files:

- `types.dfy` (module `Types`): `Point`, `Coordinate` (the four unrotated corners), `Style`, `Option`.
- `js_math.dfy` (module `JsMath`): the `Math` functions the engine calls. `Math.sin`, `Math.cos` and `Math.atan2` are the fields of a `Trig` value that callers pass in. They are uninterpreted. A lemma that needs an identity states it in its `requires`: `ZeroAngle` (cos 0 = 1, sin 0 = 0), `EvenOdd`, `Pythagorean`. `Math.PI` is the real `3.141592653589793`.
- `core_utils.dfy` (module `CoreUtils`): `rotatePoint` of lib/core/utils.ts and its algebra. The module also holds the five line helpers that lib/core/tranable.ts imports from `./utils`. Those helpers are not in the lib/core/utils.ts modelled here, so they are **reconstructed** from their names and from how the engine uses them. Each one states its non-zero denominators as a `requires`.
- `utils.dfy` (module `Utils`): the copy of `rotatePoint` in lib/utils.ts, proved equal to the core one.
- `tranable.dfy` (module `Tranable`): class `Transable` with the fields `left`, `top`, `width`, `height`, `rotate`, `coordinate` and `resizePoint`.
  - Each method is written step by step, as the source is.
  - Each method ensures that `Snapshot()` equals a specification function of the old snapshot: `Dragged`, `Rotated`, `WithResizePoints`, `Resized` (with its branches `ResizedAtVertex` and `ResizedAtEdge`), `VertexResized`, `EdgeResizedX`, `EdgeResizedY`, `Recalculated`.
  - `Valid()` says that the corner cache matches the fields.
- `tranable_properties.dfy` (module `TranableProperties`): what those functions promise, including across several calls. A resize gesture is modelled as a sequence of `_resize` calls (`Gesture`).

Other versions of this engine in the library (the `Direction`/`Corner`/`Side` types of lib/core/types.ts) resize by eight handle directions; this model follows lib/core/tranable.ts:

- Resize is dispatched on `'vertex' | 'edgeX' | 'edgeY'`.
- `'edgeX'` changes the height and `'edgeY'` the width.
- The edge path takes its axis from the last stored `resizePoint.centerPoint`; it does not recompute the box centre.
- A resize before `_initResizePoints` uses the initial static point (0, 0). It is not an error.
- Corners are cached in `coordinate` by `calcCoordinate`; no corner is looked up by direction.

## Model

| member | source | states |
|---|---|---|
| `CoreUtils.RotatePoint` | lib/core/utils.ts:10-17 | the body is the source's arithmetic line for line; its contract says that the result's offset from the centre is the rotation matrix for `angle` degrees applied to the point's offset (the formula in the comment above it); the lemma rows below state its properties |
| `CoreUtils.RotateCentreFixed` | lib/core/utils.ts:12-16 | rotating the centre about itself returns the centre, for every angle |
| `CoreUtils.RotateTranslationEquivariant` | lib/core/utils.ts:12-15 | shifting the point and the centre by `t` shifts the result by `t` |
| `CoreUtils.RotateByZero` | lib/core/utils.ts:11-16 | given cos 0 = 1 and sin 0 = 0, rotating by 0 degrees returns the point |
| `CoreUtils.RotationKeepsLength` | lib/core/utils.ts:14-15 | given sin² + cos² = 1, the rotation matrix keeps the squared length of a vector |
| `CoreUtils.RotateKeepsDistance` | lib/core/utils.ts:10-17 | given sin² + cos² = 1, the squared distance to the centre is kept |
| `CoreUtils.RotationUndo` | lib/core/utils.ts:14-15 | given the even/odd and Pythagorean identities, the matrix for −r undoes the one for r |
| `CoreUtils.RotateThenUndo` | lib/core/utils.ts:10-17 | rotating by `a` and then by `−a` about the same centre gives the point back |
| `CoreUtils.UndoThenRotate` | lib/core/utils.ts:10-17 | undoing by `−a` and then rotating by `a` gives the point back (the order the resize relies on) |
| `CoreUtils.RotateReflect` | lib/core/utils.ts:10-17 | rotation about `c` commutes with the point reflection through `c` |
| `CoreUtils.GetCenterPoint2` | lib/core/tranable.ts:97 | (reconstructed) the result is equidistant from both points on each axis: their midpoint |
| `CoreUtils.GetSlopeAndIntercept` | lib/core/tranable.ts:138-140 | (reconstructed) for two points with different x, both lie on the returned line |
| `CoreUtils.LineThroughTwoPointsUnique` | lib/core/tranable.ts:138-140 | any line through those two points is the one returned |
| `CoreUtils.GetVerticalSlope` | lib/core/tranable.ts:141-143 | (reconstructed) for a non-zero slope, the product of the slope and the result is −1 |
| `CoreUtils.GetPointBySlopeOrIntercept` | lib/core/tranable.ts:144-146 | (reconstructed) the line has the given slope and passes through the given point |
| `CoreUtils.GetIntersectionPoint` | lib/core/tranable.ts:147-148 | (reconstructed) for different slopes, the point lies on both lines |
| `CoreUtils.IntersectionUnique` | lib/core/tranable.ts:147-148 | a point on both lines is the one returned |
| `Utils.RotatePoint` | lib/utils.ts:19-26 | the body is the source's arithmetic line for line; its contract is the same matrix form as the core copy; the lemma rows below state its properties |
| `Utils.SameAsCore` | lib/utils.ts:19-26 | this copy returns the same point as the lib/core/utils.ts one for every input |
| `Utils.RotateCentreFixed` | lib/utils.ts:21-25 | rotating the centre about itself returns the centre |
| `Utils.RotateTranslationEquivariant` | lib/utils.ts:21-24 | shifting point and centre by `t` shifts the result by `t` |
| `Utils.RotateByZero` | lib/utils.ts:20-25 | given cos 0 = 1 and sin 0 = 0, rotating by 0 is the identity |
| `Tranable.InitialStyle` | lib/core/tranable.ts:43-48 | each of left, top, width, height and rotate is the option's value when it is given and its default otherwise: 0, 0, 100, 100 and 0 |
| `Tranable.CoordinateOf` | lib/core/tranable.ts:53-60 | the corners form an axis-aligned rectangle with `lt` at (left, top), width `width` and height `height` |
| `Tranable.Recalculated` | lib/core/tranable.ts:53-60 | refreshing the cache makes it match the box and changes nothing else |
| `Tranable.Dragged` | lib/core/tranable.ts:79-85 | the box moves by the deltas: its centre is translated by `(deltaX, deltaY)`; width, height, angle and the resize record are kept; the cache is refreshed |
| `Tranable.RotateDelta` | lib/core/tranable.ts:97-106 | the sweep in degrees is, in radians, the atan2 angle of the after point about the centre minus that of the before point; it is 0 when the two points coincide |
| `Tranable.Rotated` | lib/core/tranable.ts:95-111 | only the angle changes, by the sweep `RotateDelta` about the centre read from the cache; the resize record is kept; the cache is refreshed |
| `Tranable.WithResizePoints` | lib/core/tranable.ts:115-123 | box and cache are untouched; the mouse is recorded, the centre is read from the cache, and the static point is the mouse mirrored through that centre |
| `Tranable.VertexResized` | lib/core/tranable.ts:164-173 | width and height are non-negative and the box is centred on the stored centre point; angle, cache and resize record are kept |
| `Tranable.EdgeResizedX` | lib/core/tranable.ts:175-182 | width is kept, height is non-negative and the box is centred on the stored centre point; angle, cache and resize record are kept |
| `Tranable.EdgeResizedY` | lib/core/tranable.ts:183-190 | height is kept, width is non-negative and the box is centred on the stored centre point; angle, cache and resize record are kept |
| `Tranable.ResizedAtVertex` | lib/core/tranable.ts:126-134 | the static point and angle are kept, the mouse is recorded, the new centre is the midpoint of the mouse and the static point, the box is centred on it and the cache is valid |
| `Tranable.ResizedAtEdge` | lib/core/tranable.ts:135-158 | (corrected) the static point and angle are kept, the mouse is recorded, the new centre is the midpoint of the foot of the perpendicular from the mouse and the static point, the box is centred on it, `'edgeX'` keeps the width and `'edgeY'` the height, and the cache is valid |
| `Tranable.Resized` | lib/core/tranable.ts:125-162 | the static point and angle are kept, the mouse is recorded, the box is centred on the new centre and the cache is valid; for `'vertex'` the centre is the midpoint of the mouse and the static point; for the edge kinds the corrected `ResizedAtEdge` applies |
| `Tranable.ResizedFollowsSlopeConstruction` | lib/core/tranable.ts:138-150 | on an axis where the source's slope construction is defined, an edge resize puts the centre at the midpoint of the construction's intersection point and the static point, exactly as the source computes it |
| `Tranable.AxisSlopes` | lib/core/tranable.ts:140-148 | on an axis that is neither vertical nor horizontal, the slope is non-zero and differs from its perpendicular |
| `Tranable.EdgeProjection` | lib/core/tranable.ts:140-148 | (as written) the source's slope construction, defined on an axis that is neither level nor upright: the intersection of the axis with the perpendicular through the mouse lies on the axis through the static point and the centre, and the mouse is square to that axis from it |
| `Tranable.EdgeFoot` | lib/core/tranable.ts:138-148 | (corrected) for any two distinct axis points, including a level or upright axis, the result lies on the axis and the mouse is square to the axis from it |
| `Tranable.FootUnique` | lib/core/tranable.ts:138-148 | a point on the axis that the mouse is square to is the foot |
| `Tranable.EdgeFootAgrees` | lib/core/tranable.ts:138-148 | where the slope construction is defined, it returns the foot |
| `Tranable.Transable.constructor` | lib/core/tranable.ts:24-51 | the fields take the options or their defaults; the resize record is all zeros; the cache matches the box |
| `Tranable.Transable.CalcCoordinate` | lib/core/tranable.ts:53-60 | only `coordinate` changes, to the corners of the current box |
| `Tranable.Transable.GetCoordinate` | lib/core/tranable.ts:62-64 | in a valid state the result is the corners of the box |
| `Tranable.Transable.GetStyle` | lib/core/tranable.ts:66-69 | the result describes the same box as the cache (when valid), with the same centre and angle |
| `Tranable.Transable.Drag` | lib/core/tranable.ts:79-85 | the new state is `Dragged` of the old; the cache is valid; the returned style is the new one |
| `Tranable.Transable.Rotate` | lib/core/tranable.ts:95-111 | the new state is `Rotated` of the old; the cache is valid; the returned style is the new one |
| `Tranable.Transable.InitResizePoints` | lib/core/tranable.ts:115-123 | only `resizePoint` changes, to `WithResizePoints` of the old state; validity is kept |
| `Tranable.Transable.Resize` | lib/core/tranable.ts:125-162 | the new state is `Resized` of the old; the cache is valid; the returned style is the new one |
| `Tranable.Transable.VertexResize` | lib/core/tranable.ts:164-173 | only the four box fields change, to `VertexResized`; the cache is left stale |
| `Tranable.Transable.EdgeResizeX` | lib/core/tranable.ts:175-182 | only `left`, `top`, `height` change, to `EdgeResizedX`; `width` is kept |
| `Tranable.Transable.EdgeResizeY` | lib/core/tranable.ts:183-190 | only `left`, `top`, `width` change, to `EdgeResizedY`; `height` is kept |
| `TranableProperties.CoordinateCentre` | lib/core/tranable.ts:53-60 | both diagonals of the cached corners meet at the box centre |
| `TranableProperties.CoordinateDeterminesBox` | lib/core/tranable.ts:53-60 | equal corners mean equal left, top, width and height |
| `TranableProperties.SyncedCentre` | lib/core/tranable.ts:97 | when the cache is valid, the centre read from it is the box centre |
| `TranableProperties.DragTranslates` | lib/core/tranable.ts:79-85 | a drag adds exactly the deltas to left and top; width, height, rotate and the resize record are unchanged; the centre moves by the deltas; the cache is valid |
| `TranableProperties.DragCompose` | lib/core/tranable.ts:79-85 | two drags equal one drag by the summed deltas |
| `TranableProperties.DragStreamIsOneDrag` | lib/core/tranable.ts:79-85 | any sequence of drags from a valid state equals one drag by the summed deltas |
| `TranableProperties.DragUndo` | lib/core/tranable.ts:79-85 | dragging back by the opposite deltas restores a valid state |
| `TranableProperties.RotateChangesOnlyAngle` | lib/core/tranable.ts:95-111 | a rotation changes only `rotate`; the recomputed cache equals the old one when that was valid |
| `TranableProperties.RotateAboutBoxCentre` | lib/core/tranable.ts:97-107 | when the cache is valid, the angle grows by the atan2 sweep (in degrees) about the box centre |
| `TranableProperties.RotateSamePoint` | lib/core/tranable.ts:101-107 | when the before point equals the after point, the style is unchanged |
| `TranableProperties.RotateTelescopes` | lib/core/tranable.ts:95-111 | rotating p→q and then q→r equals rotating p→r |
| `TranableProperties.RotateUndo` | lib/core/tranable.ts:95-111 | rotating p→q and then q→p restores a valid state |
| `TranableProperties.RotateStreamIsOneRotation` | lib/core/tranable.ts:95-111 | a rotate gesture fed successive pointer positions ends where one rotation from the first position to the last would |
| `JsMath.RadianRoundTrip` | lib/core/tranable.ts:99-103 | converting degrees to radians (`· π / 180`) and back with the ratio `180 / Math.PI` gives the angle back |
| `TranableProperties.RotateQuarterTurn` | lib/core/tranable.ts:95-111 | given atan2(0, 50) = 0 and that atan2(50, 0) is 90 degrees in radians, the 100×100 box turned from (100, 50) to (50, 100) ends at exactly 90 degrees |
| `TranableProperties.InitResizePointsAnchor` | lib/core/tranable.ts:115-123 | the box and the cache are untouched; the mouse is recorded; the static point mirrors the mouse through the centre, so the centre is their midpoint; with a valid cache the centre is the box centre |
| `TranableProperties.ResizeKeepsAnchorAndAngle` | lib/core/tranable.ts:125-162 | a resize keeps the static point and `rotate`, records the mouse, centres the box on the new centre point, leaves the cache valid and keeps width and height non-negative |
| `TranableProperties.GestureKeepsAnchor` | lib/core/tranable.ts:125-162 | across any number of resize calls the static point, the angle and non-negative sizes are kept |
| `TranableProperties.GestureAfterInit` | lib/core/tranable.ts:115-162 | after `_initResizePoints(m)` and any resize calls, the static point is still the mirror of `m` through the centre at init time |
| `TranableProperties.VertexResizeCentres` | lib/core/tranable.ts:126-134 | a vertex resize gives width and height ≥ 0 and a box centred on the midpoint of the mouse and the static point |
| `TranableProperties.VertexResizeIdempotent` | lib/core/tranable.ts:126-134 | a second vertex resize with the same mouse point gives the same state |
| `TranableProperties.VertexResizePivot` | lib/core/tranable.ts:126-173 | given the rotation identities, the unrotated mouse point is a corner of the new box; turning the box by `rotate` about its centre takes that corner to the mouse and the opposite corner to the static point |
| `TranableProperties.UnrotatedVertexResize` | lib/core/tranable.ts:126-173 | given cos 0 = 1 and sin 0 = 0, a vertex resize of an unrotated box spans it between the static point and the mouse: left and top are the smaller coordinates, width and height the absolute differences |
| `TranableProperties.VertexResizeScenario` | lib/core/tranable.ts:115-173 | given cos 0 = 1 and sin 0 = 0, the unrotated 100×100 box grabbed at (100, 100) has static point (0, 0); dragged to (150, 150) it becomes 150×150 at the origin |
| `TranableProperties.VertexDragFromOrigin` | lib/core/tranable.ts:125-135 | any unrotated box whose static point is the origin, dragged by a corner to (150, 150), becomes 150×150 at the origin |
| `TranableProperties.EdgeResizeXShape` | lib/core/tranable.ts:154-155 | `'edgeX'` keeps the width, gives height ≥ 0 and centres the box on the new centre point |
| `TranableProperties.EdgeResizeYShape` | lib/core/tranable.ts:156-157 | `'edgeY'` keeps the height, gives width ≥ 0 and centres the box on the new centre point |
| `TranableProperties.EdgeCentreOnAxis` | lib/core/tranable.ts:135-152 | the new centre lies on the line through the static point and the previous centre; the point opposite the static point through it is the foot of the perpendicular from the mouse |
| `TranableProperties.FootMidpointOnAxis` | lib/core/tranable.ts:148-150 | the new centre, halfway between the foot and the static point, lies on the axis and mirrors the static point onto the foot |
| `TranableProperties.CollinearKeepsDirection` | lib/core/tranable.ts:138-148 | a point on the axis satisfies every linear relation the axis direction does |
| `TranableProperties.FootThroughNewCentre` | lib/core/tranable.ts:138-150 | the axis through the static point and the new centre has the same foot for the same mouse point |
| `TranableProperties.EdgeResizeIdempotent` | lib/core/tranable.ts:135-158 | an edge resize repeated with the same mouse point gives the same state while the new centre differs from the static point |
| `TranableProperties.EdgeGrabAlignsAxis` | lib/core/tranable.ts:115-123 | grabbing a valid box at the middle of its rotated right edge puts the axis along the rotated width; at the middle of its rotated bottom edge, along the rotated height |
| `TranableProperties.UnturnAlongWidth` | lib/core/tranable.ts:152-157 | given the even/odd identity, a point offset from the centre along the rotated width, turned back by the angle, is level with the centre |
| `TranableProperties.UnturnAlongHeight` | lib/core/tranable.ts:152-155 | given the even/odd identity, a point offset from the centre along the rotated height, turned back by the angle, is plumb with the centre |
| `TranableProperties.EdgeFootLevelAlongWidth` | lib/core/tranable.ts:138-157 | with the axis along the rotated width, the foot turned back about the new centre is level with it |
| `TranableProperties.EdgeFootPlumbAlongHeight` | lib/core/tranable.ts:138-155 | with the axis along the rotated height, the foot turned back about the new centre is plumb with it |
| `TranableProperties.EdgeResizedYMidpoints` | lib/core/tranable.ts:183-190 | given the rotation identities, when the edge point turned back is level with the centre, `_edgeResizeY` puts it at one rotated left/right edge midpoint and its mirror at the other |
| `TranableProperties.EdgeResizedXMidpoints` | lib/core/tranable.ts:175-182 | given the rotation identities, when the edge point turned back is plumb with the centre, `_edgeResizeX` puts it at one rotated top/bottom edge midpoint and its mirror at the other |
| `TranableProperties.EdgeYPinsStaticPoint` | lib/core/tranable.ts:135-158 | with the axis along the rotated width and the rotation identities, `'edgeY'` keeps height and angle, and of the resized box's rotated left and right edge midpoints one is the static point and the other the foot from the mouse |
| `TranableProperties.EdgeXPinsStaticPoint` | lib/core/tranable.ts:135-158 | with the axis along the rotated height and the rotation identities, `'edgeX'` keeps width and angle, and of the rotated top and bottom edge midpoints one is the static point and the other the foot from the mouse |
| `TranableProperties.FootMidpointKeepsDirection` | lib/core/tranable.ts:138-150 | the new edge centre lies in the direction from the static point that the old centre does |
| `TranableProperties.EdgeYKeepsAxisAlongWidth` | lib/core/tranable.ts:135-158 | `'edgeY'` keeps the axis along the rotated width, so the next `'edgeY'` call meets the pinning lemma's hypothesis again |
| `TranableProperties.EdgeXKeepsAxisAlongHeight` | lib/core/tranable.ts:135-158 | `'edgeX'` keeps the axis along the rotated height |
| `TranableProperties.EdgeYGestureKeepsAxis` | lib/core/tranable.ts:125-162 | any run of `'edgeY'` calls keeps the axis along the rotated width |
| `TranableProperties.EdgeXGestureKeepsAxis` | lib/core/tranable.ts:125-162 | any run of `'edgeX'` calls keeps the axis along the rotated height |
| `TranableProperties.EdgeYGesturePinsStaticPoint` | lib/core/tranable.ts:125-162 | after any run of `'edgeY'` calls from a state whose axis is along the rotated width, the next `'edgeY'` call leaves one rotated left/right edge midpoint on the static point the gesture started with |
| `TranableProperties.EdgeXGesturePinsStaticPoint` | lib/core/tranable.ts:125-162 | after any run of `'edgeX'` calls from a state whose axis is along the rotated height, the next `'edgeX'` call leaves one rotated top/bottom edge midpoint on the starting static point |
| `TranableProperties.UnrotatedEdgeGrabHasNoAxis` | lib/core/tranable.ts:115-148 | grabbing a valid unrotated box of non-zero width at the middle of its right edge gives a level axis: the slope construction's precondition fails and the axis slope is 0, whose perpendicular `-1 / k` divides by zero; the foot is still defined there |
| `TranableProperties.EdgeFootOnLevelAxis` | lib/core/tranable.ts:138-148 | (corrected) on a level axis the foot has the mouse's x and the axis's y |
| `TranableProperties.UnrotatedEdgeYResize` | lib/core/tranable.ts:135-158 | (corrected) given cos 0 = 1 and sin 0 = 0, `'edgeY'` on an unrotated box with a level axis spans the box from the static point to the mouse's x; top, height and angle follow the static point and the old height |

## Left out

- Floating point: all numbers are exact reals, so rounding, `NaN` and `Infinity` are not modelled.
- `Math.sin`, `Math.cos` and `Math.atan2` are uninterpreted. Only the identities a lemma names are assumed, and nothing is claimed about concrete angle values. `Math.PI` is its decimal, not the exact double.
- Tranable.Transable.Resize: the edge kinds require an axis with `staticPoint.x != centerPoint.x` and `staticPoint.y != centerPoint.y`, because the method follows the source's slope construction, and there the line helpers would divide by zero. `UnrotatedEdgeGrabHasNoAxis` shows that this excludes the unrotated box grabbed at an edge midpoint. The specification function `Resized` uses `EdgeFoot` instead and needs only `staticPoint != centerPoint` (see Findings).
- TranableProperties.EdgeYPinsStaticPoint, TranableProperties.EdgeXPinsStaticPoint, TranableProperties.EdgeYGesturePinsStaticPoint, TranableProperties.EdgeXGesturePinsStaticPoint: proved only when the axis runs along the box's rotated width or height. `EdgeGrabAlignsAxis` shows that a grab at a rotated edge midpoint gives that. When the mouse goes down off that line, the source still resizes, but the static point is then not an edge midpoint of the new box, and nothing is claimed for that case.
- CoreUtils.GetPointBySlopeOrIntercept: only the slope-given form is modelled, because that is the only call in the engine.
- The five line helpers (`getCenterPoint2`, `getSlopeAndIntercept`, `getVerticalSlope`, `getPointBySlopeOrIntercept`, `getIntersectionPoint`) use textbook formulas. Their own source is not part of this model.
- The `dragPoint` field is declared but never read or written, so it is not modelled.
- Aliasing is not modelled. `getCoordinate` returns the cached object itself, and `_initResizePoints` and `_resize` store the caller's mouse-point object. Points here are values.
- `getCenterPoint` in lib/utils.ts and `getInitCoordinate` in lib/vue/utils.ts read the DOM, so they are not modelled.
- `generateClassName` depends on randomness and the clock, so it is not modelled.
- `rafDebounce` in lib/raf.ts depends on animation-frame timing, so it is not modelled.
- The Vue components, prop declarations and build configuration are not modelled.
- The direction-based resize (`Direction`, `Corner`, `Side` in lib/core/types.ts) belongs to a different version of the engine. No code modelled here uses it.

## Findings

| source | as written | input that shows it | evidently intended | confidence | as-written member | corrected member |
|---|---|---|---|---|---|---|
| lib/core/tranable.ts:140-148 | the edge path finds the dragged edge point from the slope `k` of the axis and the perpendicular slope `-1 / k`, so a level axis (`k = 0`) or an upright one (no slope) has no perpendicular slope | an unrotated box of non-zero width, `_initResizePoints` at the middle of its right edge, then `_resize(m, 'edgeY')`: the axis is level and `-1 / 0` is evaluated | the foot of the perpendicular from the mouse to the axis, which exists for every axis direction | medium; not executed; the line helpers' own source is not part of this model, so what they return for an infinite slope is not known here | `Tranable.EdgeProjection` with `TranableProperties.UnrotatedEdgeGrabHasNoAxis` | `Tranable.EdgeFoot` with `Tranable.FootUnique`, `Tranable.EdgeFootAgrees`, `Tranable.ResizedAtEdge` and `TranableProperties.UnrotatedEdgeYResize` |
