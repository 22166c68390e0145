# Lathe viewer model

A Dafny model of the core of a small browser viewer that revolves a 2D
profile into a solid of revolution with three.js.

The user types a profile as lines of numbers:

- the first line is the start point `x y`;
- each later line is either a line-to `x y` or a cubic Bezier
  `cp1x cp1y cp2x cp2y x y`.

`updateShape` turns the text into shape commands and flattens them into
points. It shifts the points so the start lies on the rotation axis and
closes the outline with an axis point at the top and one at the bottom. It
then swaps the single live mesh, disposing of the previous one, and frames
the new mesh with the camera.

The controls act on the shared store:

- pointer drags orbit the camera around the object's centre on the axis;
- the wheel zooms within a range tied to the object's size;
- the keyboard moves and dims a directional light that circles the object.

Modules, one concept each:

| module | file | models |
|---|---|---|
| `Numbers` | numbers.dfy | `Math.max`/`Math.min`, the clamp, `Math.PI` |
| `Vectors` | vectors.dfy | `Vector2`/`Vector3`, `Box3` size, centre and largest dimension |
| `Text` | text.dfy | `String.prototype.trim` and `split` with a one-character separator |
| `Profile` | profile.dfy | the text-to-commands part of `updateShape` |
| `Outline` | outline.dfy | the translation and capping of the flattened points |
| `Scene` | scene.dfy | the shared store, with its invariant, and the mesh, geometry and material objects |
| `Lathe` | lathe.dfy | `updateShape`, `adjustCamera`, `getObjectCenter`, `updateLightPosition`, `applyTexture` |
| `Controls` | controls.dfy | `startDrag`, `stopDrag`, `drag`, `zoom`, `lightControl` |

Numbers are mathematical reals. What the viewer gets from code not shown
here is passed in as a function parameter:

- `Number()` on a token;
- `Shape.getPoints()`;
- the bounding box three.js computes for a `LatheGeometry`;
- `Math.tan`, `Math.sin` and `Math.cos`;
- the `THREE.Spherical` conversions;
- `Vector3.length()`.

The store is the `Scene.State` class. The handlers are methods whose
`modifies` clauses name exactly the fields they may change. Each method is
proved against a pure function, and the properties the viewer relies on are
proved about those functions:

- the polar angles and the light intensity stay in range;
- the mesh slot always holds exactly the live mesh;
- the zoom distance stays within its range.

Where a reader might expect otherwise, the model follows the code:

- The first line of the profile is not validated, and there is no parse
  error. Its first piece becomes x and its second piece becomes y, whatever
  they are. A missing second piece stands for JavaScript's `undefined`; its
  value is the `missing` field of `Profile.Conversion`.
- Lines are split on the single character `" "`, not on runs of white space.
  A doubled space therefore makes an empty piece, and such a line is ignored
  (`Profile.DoubledSpaceIgnored`).
- Nothing checks for fewer than two outline points. Nothing in the code
  keeps the previous mesh when parsing goes wrong.

## Model

| member | source | states |
|---|---|---|
| Numbers.Max | src/controls.js:77 | `Math.max(a, b)` is at least both arguments and is one of them |
| Numbers.Min | src/controls.js:80 | `Math.min(a, b)` is at most both arguments and is one of them |
| Numbers.Max3 | src/lathe.js:63 | the three-argument maximum bounds all three arguments and is one of them |
| Numbers.Clamp | src/controls.js:23 | `max(lo, min(hi, v))` lies in `[lo, hi]` when `lo <= hi`; it is `v` inside the range, `lo` below it and `hi` above it; `lo` wins when the bounds cross |
| Numbers.ClampMonotone | src/controls.js:66 | clamping preserves the order of its inputs |
| Numbers.MaxOf | src/lathe.js:95 | `Math.max(...ys)` of a non-empty list is an element of the list and bounds every element from above |
| Numbers.MinOf | src/lathe.js:96 | `Math.min(...ys)` of a non-empty list is an element of the list and bounds every element from below |
| Vectors.ScaleTwice | src/controls.js:68-69 | scaling a vector by `a` and then by `b` is scaling it by `a * b` |
| Vectors.MaxDim | src/lathe.js:60-63 | the largest extent of a box is one of its three extents and bounds the other two, and is non-negative for a well-formed box |
| Text.SkipSpaces | src/lathe.js:77 | the scan for the start of the trimmed text stays within the string |
| Text.SkipSpacesBack | src/lathe.js:77 | the scan for the end of the trimmed text stays between its bounds |
| Text.SkipSpacesSpec | src/lathe.js:77 | everything skipped at the front is white space, and the scan stops at a non-space or at the end |
| Text.SkipSpacesBackSpec | src/lathe.js:77 | everything skipped at the back is white space, and the scan stops after a non-space or at its lower bound |
| Text.Trim | src/lathe.js:77-83 | `trim()` never lengthens a string, and what it leaves neither starts nor ends with white space; `TrimIsInfix` adds that only white space is removed, from the two ends |
| Text.TrimIsInfix | src/lathe.js:77 | `trim()` removes only white space, from both ends, and leaves an empty string or one that neither starts nor ends with white space |
| Text.TrimBlank | src/lathe.js:83 | a string of white space only trims to the empty string |
| Text.SkipsAllSpaces | src/lathe.js:83 | in an all-white-space string the front scan runs to the end |
| Text.TrimUntouched | src/lathe.js:77 | a string that neither starts nor ends with white space is its own trim |
| Text.IndexOf | src/lathe.js:79 | the separator search finds the first occurrence, or the length when there is none |
| Text.Split | src/lathe.js:79 | `split(sep)` always returns at least one piece |
| Text.JoinSplit | src/lathe.js:79 | joining the pieces of `split(sep)` with `sep` gives back the original string |
| Text.SplitJoin | src/lathe.js:79 | splitting pieces joined with `sep`, none of them containing `sep`, gives back exactly those pieces |
| Text.IndexOfPrefix | src/lathe.js:79 | the separator is found right after a prefix that does not contain it |
| Text.OccurrencesAppend | src/lathe.js:79 | the separator count of a concatenation is the sum of the counts of its parts |
| Text.NoOccurrences | src/lathe.js:79 | a string without the separator has count zero |
| Text.SplitCount | src/lathe.js:79 | `split(sep)` returns one piece more than the number of separators |
| Profile.Lines | src/lathe.js:77 | the trimmed text split on line feeds has at least one line |
| Profile.Tokens | src/lathe.js:79 | a trimmed line split on `" "` has at least one piece |
| Profile.LinesOfJoin | src/lathe.js:77 | lines joined by line feeds, none containing one and the whole having nothing to trim, are read back as exactly those lines |
| Profile.StartX | src/lathe.js:79-80 | the start x is `Number` of the first piece of the first line, unchecked; `StartsWithMove` puts the move there |
| Profile.StartY | src/lathe.js:79-80 | the start y is `Number` of the second piece of the first line, or the value of a missing coordinate when the line has one piece; `StartsWithMove` negates it |
| Profile.SegmentCommand | src/lathe.js:83-91 | a later line gives a command exactly when it has 2 or 6 pieces, and never a move; `Dispatch`, `TwoTokenLine` and `SixTokenLine` say which |
| Profile.SegmentCommands | src/lathe.js:82-92 | the later lines give at most one command each, and never a move |
| Profile.SegmentCommandsAppend | src/lathe.js:82 | lines are processed in order: the commands of `a + b` are those of `a` followed by those of `b` |
| Profile.StartsWithMove | src/lathe.js:79-82 | the first command is the move to `(startX, -startY)`, and no later command is a move |
| Profile.BlankLineIgnored | src/lathe.js:83-91 | a white-space-only line contributes nothing |
| Profile.DoubledSpaceIgnored | src/lathe.js:83-91 | `"1  2"` splits into `["1", "", "2"]`, three pieces, and contributes nothing |
| Profile.ProfileCommands | src/lathe.js:76-92 | the shape gets at least one command and never more commands than there are lines, the first being the move to the start point |
| Profile.Dispatch | src/lathe.js:83-91 | in terms of the text: a line contributes a command exactly when its trimmed text holds one space or five spaces |
| Profile.TwoTokenLine | src/lathe.js:83-87 | `"x y"` with a single space and nothing to trim becomes the line-to `(Number(x), -Number(y))` |
| Profile.SixTokenLine | src/lathe.js:83-90 | `"cp1x cp1y cp2x cp2y x y"` with single spaces and nothing to trim becomes the Bezier to `(Number(cp1x), -Number(cp1y)), (Number(cp2x), -Number(cp2y)), (Number(x), -Number(y))` |
| Profile.TokensOfJoin | src/lathe.js:83 | pieces without spaces joined by single spaces into a line with nothing to trim split back into exactly those pieces |
| Profile.LinesStep | src/lathe.js:82 | processing one more line appends that line's command, if it has one, after those of the earlier lines |
| Profile.AddSegments | src/lathe.js:82-92 | the `forEach` loop leaves the shape's earlier commands followed by those of every later line, in order |
| Profile.BuildShape | src/lathe.js:76-92 | the shape built is the move to the start point followed by the later lines' commands, and `startX` is the first line's first number |
| Outline.Translate | src/lathe.js:94 | the shift keeps the number of points |
| Outline.TopY | src/lathe.js:95 | `topY` lies on or above every point; `Extremes` adds that some point attains it |
| Outline.BottomY | src/lathe.js:96 | `bottomY` lies on or below every point; `Extremes` adds that some point attains it |
| Outline.Capped | src/lathe.js:98-99 | after the push and the unshift the outline is two points longer, begins and ends on the axis, and its top cap is not below its bottom cap |
| Outline.TranslateRoundTrip | src/lathe.js:94 | the shift by `-startX` is undone by the opposite shift and leaves every y unchanged |
| Outline.StartOnAxis | src/lathe.js:94 | a path starting at `(startX, y)` starts at `(0, y)` after the shift |
| Outline.Extremes | src/lathe.js:95-96 | `topY` and `bottomY` are attained by some points, every y lies between them, and `bottomY <= topY` |
| Outline.CappedShape | src/lathe.js:98-99 | after the unshift and the push the outline is two points longer, begins at `(0, topY)`, ends at `(0, bottomY)`, keeps the points in between, and lies between the caps in height |
| Outline.CapsIgnoreShift | src/lathe.js:94-96 | the caps of the shifted points are those of the unshifted ones |
| Scene.LatheGeometry.constructor | src/lathe.js:101 | a new geometry holds the outline and its box, and has not been disposed |
| Scene.LatheGeometry.Dispose | src/lathe.js:106 | `dispose()` counts one more release |
| Scene.Material.constructor | src/lathe.js:102 | a new material has no texture map and has not been disposed |
| Scene.Material.Dispose | src/lathe.js:107 | `dispose()` counts one more release and leaves the map alone |
| Scene.Mesh.constructor | src/lathe.js:110 | a new mesh pairs the given geometry and material |
| Scene.State.constructor | src/lathe.js:4-45 | the store as `initRenderer` leaves it satisfies the invariant: no mesh, a 75-degree camera, not dragging, the light at `pi/4`, `pi/4` with intensity 1, placed at `(400, 400, 400)` |
| Lathe.ProfileOutline | src/lathe.js:94-99 | the outline revolved has two points more than the flattening, starts and ends on the axis, and has its top cap not below its bottom cap |
| Lathe.ProfileOutlineShape | src/lathe.js:94-99 | the outline is the flattened points shifted by `-startX` between the caps `(0, topY)` and `(0, bottomY)`, and every outline point lies between them in height |
| Lathe.AxisCenter | src/lathe.js:137-142 | the centre lies on the axis (`x = z = 0`), equidistant from the box's bottom and top, and within them for a well-formed box |
| Lathe.GetObjectCenter | src/lathe.js:132-143 | `getObjectCenter` returns the box centre projected onto the axis |
| Lathe.HalfFov | src/lathe.js:64 | a field of view strictly between 0 and 180 degrees gives a half-angle strictly between 0 and a right angle |
| Lathe.CameraPlacement | src/lathe.js:63-68 | the camera is at the box centre's x and y and at the absolute z `1.5 * maxDim / (2 tan)`; for a box centred on z = 0 that is in front of the centre |
| Lathe.CameraFramesBox | src/lathe.js:60-68 | at two thirds of the camera's distance, the view's height equals the largest dimension, so every extent of the box fits |
| Lathe.AdjustCamera | src/lathe.js:53-70 | the camera is placed by `CameraPlacement` for the field of view, aimed at the box centre, and no other field changes |
| Lathe.BuildOutline | src/lathe.js:76-99 | the points built are the profile's outline |
| Lathe.ReleaseMesh | src/lathe.js:104-108 | with a previous mesh, the scene no longer holds it and its geometry and material are each disposed exactly once; with none, nothing is disposed |
| Lathe.InstallMesh | src/lathe.js:101-115 | the slot and the scene hold exactly one fresh mesh on the given outline, the previous mesh was removed and disposed once, the camera frames the new box, and the invariant holds |
| Lathe.UpdateShape | src/lathe.js:72-116 | the whole handler: the new mesh carries the profile's outline and that outline's box, the previous mesh leaves the scene with its geometry and material each disposed once, the camera frames the new mesh, and the invariant holds |
| Lathe.LightPosition | src/lathe.js:122-124 | the light's spherical position about the centre; `LightOnSphere` proves it is `lightDistance` away |
| Lathe.LightOnSphere | src/lathe.js:122-124 | given `sin^2 + cos^2 = 1`, the light lies exactly `lightDistance` from the centre |
| Lathe.UpdateLightPosition | src/lathe.js:118-130 | the light is placed at its spherical position around the object's axis centre and aimed at that centre |
| Lathe.RepeatFactors | src/lathe.js:162-165 | each repeat factor is at least 1, the repeated image covers the object's extent, and a factor above 1 matches the extent exactly |
| Lathe.ApplyTexture | src/lathe.js:150-170 | with a live mesh, its material gets a repeating texture with those factors and is flagged for update; with none, nothing changes; the invariant holds |
| Controls.OrbitStep | src/controls.js:18-23 | the azimuth decreases by `0.01 * dx`, the radius is kept, the polar angle ends in `[0.1, pi - 0.1]` whatever it was, and it is exactly `phi - 0.01 * dy` when that is in range |
| Controls.HorizontalDrag | src/controls.js:13-21 | a 100-pixel drag across turns the azimuth by exactly -1 and keeps the radius and an in-range polar angle |
| Controls.HorizontalDragsAdd | src/controls.js:20 | two drags across compose into one drag by the summed distance |
| Controls.DragCamera | src/controls.js:18-26 | where a drag puts the camera: the orbit step on its offset from the centre; `DragKeepsDistance` proves the distance is kept |
| Controls.DragKeepsDistance | src/controls.js:18-26 | when the conversions keep the radius, a drag keeps the camera's distance from the centre |
| Controls.PointerStep | src/controls.js:5-42 | a press starts dragging, a release stops dragging and keeps the recorded position, a move never changes whether a drag is in progress, and a move while idle changes nothing |
| Controls.ReplayAppend | src/controls.js:5-42 | the pointer events of `a + b` act as those of `a` followed by those of `b` |
| Controls.IdleMovesIgnored | src/controls.js:12 | pointer moves while not dragging change nothing |
| Controls.DraggingTracksLastMove | src/controls.js:12-29 | during a drag over a mesh the machine stays dragging and records the last move's position |
| Controls.PressMovesRelease | src/controls.js:33-42 | after a press, any moves and a release, the machine is idle and ignores every later move |
| Controls.StartDrag | src/controls.js:33-37 | `isDragging` becomes true and the event's position is recorded |
| Controls.StopDrag | src/controls.js:39-42 | `isDragging` becomes false and the recorded position stays as it was |
| Controls.Drag | src/controls.js:5-31 | while dragging over a mesh, the camera orbits the axis centre by `OrbitStep` and is aimed at the centre, and the new position is recorded; otherwise the camera and the recorded position are unchanged |
| Controls.ZoomDistance | src/controls.js:59-66 | the requested distance lies in `[0.5 maxSize, 5 maxSize]` for `maxSize >= 0`, and it is the unclamped sum whenever that sum is in range |
| Controls.WheelTowards | src/controls.js:59-66 | `deltaY = -1000` with `maxSize = 10` brings the camera exactly 10 closer whenever the result stays in `[5, 50]` |
| Controls.ZoomMonotone | src/controls.js:63-66 | a larger `deltaY` never gives a smaller distance |
| Controls.ZoomsInRange | src/controls.js:59-66 | after at least one wheel event the distance is in range, and it stays there under any further events |
| Controls.Normalize | src/controls.js:68 | `normalize()` leaves a zero-length vector as it is, since it divides by `length() || 1` |
| Controls.ZoomCamera | src/controls.js:50-69 | where zoom puts the camera; `ZoomOnRay` and `ZoomReachesDistance` state where that is |
| Controls.ZoomOnRay | src/controls.js:50-69 | a camera off the centre moves along its ray from the centre, its offset scaled by the clamped distance over the present one |
| Controls.ZoomReachesDistance | src/controls.js:50-69 | with a length that scales with its vector, the camera stays on its ray from the centre and ends exactly the clamped distance from it |
| Controls.Zoom | src/controls.js:44-71 | with a mesh, the camera moves along its ray from the axis centre to the clamped distance and is aimed at the centre; without one, nothing changes |
| Controls.KeyStep | src/controls.js:75-98 | exactly the six light keys are recognised, and each keeps the polar angle and the intensity in their ranges |
| Controls.AfterKey | src/controls.js:73-98 | an unrecognised key leaves the settings as they were, and every key keeps them in range |
| Controls.AzimuthKeys | src/controls.js:82-87 | right and left turn the azimuth by -0.1 and +0.1, change nothing else, and undo each other |
| Controls.PolarKeysInverse | src/controls.js:76-81 | away from the clamps, up then down returns the polar angle to its value |
| Controls.KeysInRange | src/controls.js:75-98 | starting in range, the polar angle and intensity stay in range under any key sequence |
| Controls.MinusPresses | src/controls.js:92-95 | `n` presses of `"-"` leave `max(0, intensity - 0.1 n)` and both angles unchanged |
| Controls.TwentyMinus | src/controls.js:92-95 | twenty presses of `"-"` from intensity 1 end at exactly 0 |
| Controls.LightControl | src/controls.js:73-101 | a recognised key updates the settings as `KeyStep` says and repositions the light around a live mesh; any other key changes nothing and does not reposition the light; the invariant holds |

## Left out

- `initRenderer` and `animate` (renderer, shadow-map setup, the render loop) are host plumbing; only the initial values of the store are modelled, by `Scene.State.constructor`.
- `Shape.getPoints()`, the vertices `LatheGeometry` generates from its 64 segments, and its `computeBoundingBox()` are three.js code not shown here; they enter as the parameters `getPoints` and `latheBounds`, and nothing is claimed about them.
- `Math.tan`, `Math.sin`, `Math.cos`, the `THREE.Spherical` conversions and `Vector3.length()` are parameters; `normalize()` is modelled as the division by `length() || 1`.
- `Number()` on a token is the parameter `number`; NaN, the infinities and rounding of JavaScript doubles are not modelled, since every number is a real.
- Lathe.UpdateShape: requires a non-empty flattened point list, because `Math.max()` and `Math.min()` of an empty list give infinities that reals cannot hold.
- Lathe.UpdateShape: requires a non-zero `Math.tan` of the half field of view, because dividing by zero gives an infinity.
- Lathe.ApplyTexture: requires positive image dimensions, because a zero dimension gives an infinite repeat factor.
- Lathe.ApplyTexture: models only the completion callback, reading the store as it is when the image has loaded. The asynchrony of `FileReader` and `TextureLoader` is left out; the texture is set only when the callback runs.
- Rendering attributes have no effect on the model's state: the material's colour, roughness and metalness, `castShadow`, `shadowSide`, the light's shadow camera and the ambient light.
- `camera.lookAt` is recorded as the target it was given, and `directionalLight.target.updateMatrixWorld()` is left out; no orientation matrix is computed.
- The thrown `TypeError` of a handler that reaches a missing mesh is modelled as the handler stopping at that point. Without a mesh, `drag` and `zoom` change nothing, and `lightControl` changes the settings but not the light's position.
- The event wiring in src/components/lathe.js is not part of this model; `Controls.Replay` stands for any order of pointer events.
- `state.distance` (src/lathe.js:39) is set and never read.
