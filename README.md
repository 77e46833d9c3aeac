# Cube cross pattern

A Dafny model of the cube-pattern generator of a small three.js sketch
(`src/script.js`). The sketch shows a cross of cubes in three perpendicular
planes and has a spacing slider. Each time the spacing changes,
`generatePattern` removes every scene child from index 3 on. Those first three
children are the camera, the ambient light and the rect light. It then adds
25 boxes in each of the xy-, xz- and yz-planes. The row lengths come from the
fixed pattern `[1, 3, 5, 7, 5, 3, 1]`, and neighbouring boxes are
`step = 1 + spacing` apart.

The project has three modules:

- `Pattern` (`pattern.dfy`) holds the values. It has the scene children (a
  fixture tag or a `Box(x, y, z, size)`), the placement arithmetic, and
  `ExpectedBoxes(spacing)`, the 75 boxes in generation order. It also holds
  the lemmas about counts, positions, order, fixed axes, symmetry, concrete
  spacings and idempotence.
- `SceneGraph` (`scene_graph.dfy`) is the three.js `Scene` as a class. Its
  child list is a `seq` that `Add` and `RemoveAt` reassign.
- `Script` (`script.dfy`) holds the sketch's own code. `CreateBox` and
  `GeneratePattern` are methods with the source's loops. Each is proved
  against the `Pattern` functions. `Sketch` covers start-up (three fixtures,
  then the pattern for spacing 0) and the spacing-slider callback. Its
  invariant is that the scene always holds the fixtures followed by
  `ExpectedBoxes(spacing)`.

Coordinates are exact `real`s. Every division in the source is exact:
`(7 - 1) / 2` is 3, and `(count - 1) / 2` is whole because every count is odd.

`GeneratePattern` keeps the loops of `src/script.js:97-132` unchanged. They
are placed in four methods it calls in sequence: `ClearBoxes` and one method
per plane. The code keeps the first three children by position, not by kind,
so the model does the same: `Kept` is "the first three children, or all of
them if there are fewer". Idempotence therefore needs at least three children
on entry, which the sketch always has. With an empty scene, a second call
would keep three boxes from the first call.

## Model

| member | source | states |
|---|---|---|
| `Pattern.Step` | src/script.js:91 | The step is 1 + spacing: a slider value in [-1, 1] gives a step in [0, 2], and the step is 0 exactly when the spacing is -1. |
| `Pattern.ExactDivisions` | src/script.js:94-107 | The divisions of `startOffset`, the row coordinate and `startX`/`startZ` are exact: `startOffset` is 3*step, row i sits at (3 - i)*step, and in a row of odd length `count` cell j sits at (j - (count-1)/2)*step. This covers `StartOffset`, `RowCoord` and `CellCoord`. |
| `Pattern.StartOffset` | src/script.js:94 | `startOffset = (pattern.length - 1) / 2 * step`, the coordinate of row 0; its exact value 3*step is the `ExactDivisions` row. |
| `Pattern.RowCoord` | src/script.js:103 | The row coordinate `startOffset - i*step`, shared by lines 103, 114 and 125; its closed form (3 - i)*step is the `ExactDivisions` row. |
| `Pattern.CellCoord` | src/script.js:105-107 | The cell coordinate `-(count - 1) / 2 * step + j*step`, shared by lines 105-107, 116-118 and 127-129; its symmetry and order are the `CellCoordSymmetric` and `CoordsOrdered` rows. |
| `Pattern.Place` | src/script.js:102-108 | Box (i, j) has size 0.8, the cell coordinate `startX + j*step` and the row coordinate `startOffset - i*step` on the plane's two axes, and 0 on the third axis (z in xy, y in xz, x in yz). |
| `Pattern.ExpectedBoxes` | src/script.js:101-132 | The three planes together generate 75 boxes. |
| `Pattern.Kept` | src/script.js:97-99 | The clearing loop keeps the first three children, or all of them when there are fewer, unchanged and in order. |
| `Pattern.Regenerated` | src/script.js:97-132 | After a regeneration the kept children come first, unchanged, followed by exactly the 75 generated boxes. |
| `Pattern.PlaneRowsLength` | src/script.js:102-110 | The first n rows of a plane hold as many boxes as the counts of rows 0..n-1 add up to. |
| `Pattern.PlaneRowsAt` | src/script.js:102-110 | Box j of row i is at index (boxes in earlier rows) + j of the plane's list, so boxes go row by row and cell by cell. |
| `Pattern.PlaneRowsMember` | src/script.js:102-110 | Every entry of a plane's list is the box of some row i and cell j, at that index. |
| `Pattern.PlaneBoxesLength` | src/script.js:102-110 | One plane has exactly 25 boxes. |
| `Pattern.ExpectedBoxesLength` | src/script.js:101-132 | The generator adds exactly 75 boxes. |
| `Pattern.ExpectedBoxesAt` | src/script.js:101-132 | Exact position and order: box (i, j) of the xy-, xz- and yz-plane is the box at index 0, 25 or 50 plus (boxes in earlier rows) + j. Its coordinates are the row coordinate `startOffset - i*step` and the cell coordinate `-(count-1)/2*step + j*step`, on that plane's axes. |
| `Pattern.ExpectedBoxesMember` | src/script.js:101-132 | Every generated box is such a placed box of the plane its index falls in. Its size is 0.8, and z = 0 in the xy-plane, y = 0 in the xz-plane and x = 0 in the yz-plane. |
| `Pattern.RowCoordSymmetric` | src/script.js:93-103 | Rows i and 6-i sit at opposite coordinates; row 3 sits at 0. |
| `Pattern.CellCoordSymmetric` | src/script.js:105-107 | In a row of `count` boxes, boxes j and count-1-j sit at opposite coordinates; the middle box of an odd row sits at 0. |
| `Pattern.CoordsOrdered` | src/script.js:103-107 | For a positive step, row coordinates strictly decrease with the row index and cell coordinates strictly increase with the cell index. |
| `Pattern.CountsPalindrome` | src/script.js:93 | The pattern is symmetric: row 6-i has as many boxes as row i, and as many boxes follow row i as precede row 6-i. |
| `Pattern.PlaceMirror` | src/script.js:102-110 | Reflecting box (i, j) through the origin gives box (6-i, count-1-j) of the same plane. |
| `Pattern.PlaneBoxesMirror` | src/script.js:102-110 | Each plane's list read backwards is the list of the reflections of its boxes. |
| `Pattern.ExpectedBoxesSymmetric` | src/script.js:101-132 | The whole cross is symmetric about the origin: the reflection of every generated box is also generated. |
| `Pattern.OriginBoxes` | src/script.js:101-132 | Each plane generates the box at the origin, at its own index 12, so the generated list has it at indices 12, 37 and 62; the planes do not share it. |
| `Pattern.OriginOnlyAtCentre` | src/script.js:102-110 | For a non-zero step, the only box of a plane at the origin is box (3, 3), the middle box of the middle row. |
| `Pattern.OriginOnlyThrice` | src/script.js:101-132 | For any spacing other than -1, the origin box appears at indices 12, 37 and 62 and nowhere else, so exactly three times. |
| `Pattern.CollapsedAtMinusOne` | src/script.js:91-132 | With spacing -1, the step is 0 and every generated box is at the origin with size 0.8. |
| `Pattern.MiddleRow` | src/script.js:102-110 | Boxes 9..15 are row 3 of the xy-plane: y = 0, z = 0, x = -3*step .. 3*step. |
| `Pattern.MiddleRowAtZeroSpacing` | src/script.js:102-110 | With spacing 0, the initial value, boxes 9..15 of the generated list are the seven boxes at x = -3, ..., 3, y = 0, z = 0. |
| `Pattern.RegeneratedShape` | src/script.js:97-132 | Given at least 3 children, the result has 78 children. The first three are unchanged and the rest are exactly the 75 generated boxes. |
| `Pattern.RegeneratedIdempotent` | src/script.js:97-132 | Given at least 3 children, regenerating twice with the same spacing leaves the same child list as regenerating once. |
| `Pattern.RegeneratedForgetsBoxes` | src/script.js:97-132 | Given at least 3 children, after a regeneration, an earlier regeneration with any other spacing leaves no trace. |
| `SceneGraph.Scene.constructor` | src/script.js:11 | A new scene has no children. |
| `SceneGraph.Scene.Add` | src/script.js:78 | `scene.add` appends the child at the end of the list. |
| `SceneGraph.Scene.RemoveAt` | src/script.js:98 | Removing the child at an index keeps the other children in order. |
| `Script.CreateBox` | src/script.js:74-79 | Appends one box with the given position and size to the scene. |
| `Script.ClearBoxes` | src/script.js:97-99 | The clearing loop leaves exactly the first three children, or all of them if there are fewer. |
| `Script.AddXYPlane` | src/script.js:101-110 | The xy loops append exactly the xy-plane's 25 boxes, in order. |
| `Script.AddXZPlane` | src/script.js:112-121 | The xz loops append exactly the xz-plane's 25 boxes, in order. |
| `Script.AddYZPlane` | src/script.js:123-132 | The yz loops append exactly the yz-plane's 25 boxes, in order. |
| `Script.GeneratePattern` | src/script.js:90-133 | The children afterwards are the kept first three children followed by `ExpectedBoxes(spacing)`. |
| `Script.Sketch.constructor` | src/script.js:11-136 | Start-up adds camera, ambient light and rect light, then generates the pattern for the initial spacing 0. The scene then holds exactly those three followed by the 75 boxes. |
| `Script.Sketch.OnSpacingChange` | src/script.js:153-155 | The slider callback stores the new spacing and regenerates. The first three children are unchanged, and the scene again holds the fixtures followed by the boxes for the new spacing. |

## Left out

- The WebGL renderer, `OrbitControls` and the `tick` animation loop are not modelled. They are third-party rendering calls and an unbounded loop paced by the browser clock.
- Loading the HDR environment map with `RGBELoader`/`PMREMGenerator` is not modelled. It is asynchronous file I/O and GPU texture work.
- The light and material objects, the rect-light helper and the box geometry are not modelled. They are opaque three.js objects. The lights appear only as the three fixture children, and a box is only its position and size. The helper is attached to the rect light, not to the scene.
- The lil-gui sliders for roughness, metalness and environment-map intensity are not modelled. They only assign floating-point rendering parameters.
- The window-resize handler is not modelled. It is DOM and renderer plumbing.
- Floating-point rounding is not modelled. That includes the 0.01-step slider value: coordinates are exact reals, and the slider's range [-1, 1] is not imposed because the placement arithmetic is defined for every spacing.
- `SceneGraph.Scene.RemoveAt`: three.js `remove` looks the object up by identity. The sketch always passes `children[3]`, and an object is a child of a scene at most once, so the model removes by index. Object identity and reparenting in `add` are not modelled.
