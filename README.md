# TestOGLWidget: rotation state machine and tetrahedron mesh

This project models the logic of the Qt OpenGL sample widget `TestOGLWidget`
(`MyGLWidget/testoglwidget.cpp`) that is the widget's own rather than calls
into OpenGL, glm or Qt:

- **The auto-rotation state machine.** The widget keeps a rotation flag
  (`mRotating`) and a frame counter (`mFrame`). `setRotation` changes the flag
  and asks for a repaint only when the value differs; `toogleRotation` always
  flips it and always asks for a repaint; `getRotation` only reads it. Every
  `paintGL` advances the counter modulo 200 and asks for the next frame, which
  makes the animation a free-running loop with one full turn every 200 frames.
  Qt's `update()` is modelled as incrementing a redraw-request counter.
- **The tetrahedron geometry.** `createGeometry` clears the host-side staging
  arrays, then appends four vertex records and twelve indices in four
  triples. `initializeGL` hands the staged data to the vertex and index
  buffers and then clears the staging arrays. Vertex positions and colours are
  floats and are not modelled: a vertex is an opaque record that only says which
  of the four literals it is. The index list is modelled exactly, and the model
  proves it is a valid closed mesh. Every index is below 4, and every triangle
  has three distinct corners. The winding is consistent, which the back-face
  culling enabled in `initializeGL` relies on: every directed edge `u -> v`
  between distinct vertices is traversed by exactly one face, and its reverse
  by exactly one other face.

Files:

- `mesh.dfy`, module `Mesh`: the index type (`uint32`), vertex records,
  faces, the validity predicates and the lemmas about the builder's index
  list.
- `animation.dfy`, module `Animation`: the flag/counter/redraw state as a
  value, with one pure transition per widget operation and the lemmas relating
  them.
- `widget.dfy`, module `GLWidget`: class `TestOGLWidget`. Its fields are
  updated in place by its methods. Each stateful method's postcondition
  states the new fields and ties `State()` to the matching `Animation`
  transition.

The initial values of `mRotating` and `mFrame` are set in the class header,
which is not part of this model. The constructor takes them as parameters and
requires the counter to be in `[0, 200)`. The staging arrays start empty, as
default-constructed Qt vectors do.

## Model

| member | source | states |
|---|---|---|
| `Mesh.Faces` | MyGLWidget/testoglwidget.cpp:133-147 | the index list read as faces: face `t` is made of indices `3t`, `3t+1`, `3t+2`, and there are a third as many faces as indices |
| `Mesh.EdgeCount` | MyGLWidget/testoglwidget.cpp:133-147 | the number of faces that traverse a directed edge is at most the number of faces, and it is zero exactly when no face traverses that edge |
| `Mesh.ProperFaceIsOneWay` | MyGLWidget/testoglwidget.cpp:133-147 | a triangle with three distinct corners never traverses an edge in both directions |
| `Mesh.EdgeCountOne` | MyGLWidget/testoglwidget.cpp:133-147 | an edge counted once is traversed by some face, and by no other face |
| `Mesh.OppositeEdgesInDistinctFaces` | MyGLWidget/testoglwidget.cpp:69-71 | in any valid mesh, each directed edge between distinct vertices lies in one face and its reverse in a different face; this is the consistent winding that back-face culling needs |
| `Mesh.TetraFaces` | MyGLWidget/testoglwidget.cpp:133-147 | the twelve indices form the faces (0,2,1), (0,1,3), (3,1,2), (3,2,0) |
| `Mesh.TetraInRange` | MyGLWidget/testoglwidget.cpp:128-147 | every pushed index is below the number of pushed vertices (4) |
| `Mesh.TetraNondegenerate` | MyGLWidget/testoglwidget.cpp:133-147 | the indices split into whole triangles, each with three distinct corners |
| `Mesh.TetraClosedOriented` | MyGLWidget/testoglwidget.cpp:133-147 | each of the 12 directed edges among the 4 vertices is traversed by exactly one face |
| `Mesh.TetraMeshValid` | MyGLWidget/testoglwidget.cpp:128-147 | the builder's geometry has 4 vertices and 12 indices and is a valid mesh: indices in range, triangles proper, winding closed and consistent |
| `Animation.NextFrame` | MyGLWidget/testoglwidget.cpp:120 | the counter stays in [0, 200): it goes up by one, and from 199 it wraps to 0 |
| `Animation.SetRotation` | MyGLWidget/testoglwidget.cpp:169-174 | afterwards the flag equals the argument and the counter is unchanged; the state is unchanged exactly when the argument equals the current flag, and exactly one redraw is requested exactly when it differs |
| `Animation.ToggleRotation` | MyGLWidget/testoglwidget.cpp:176-179 | the flag always changes, the counter does not, and exactly one redraw is requested |
| `Animation.Paint` | MyGLWidget/testoglwidget.cpp:120-121 | the counter advances to the next frame and stays in range, the flag is unchanged, and one redraw is requested |
| `Animation.Paints` | MyGLWidget/testoglwidget.cpp:120-121 | after any number of painted frames the counter is still in [0, 200) |
| `Animation.ToggleIsSetToOpposite` | MyGLWidget/testoglwidget.cpp:169-179 | toggling gives exactly the state that setting the flag to its opposite gives |
| `Animation.ToggleTwiceRestoresFlag` | MyGLWidget/testoglwidget.cpp:176-179 | two toggles restore the flag and the counter; only the redraw count grows, by two |
| `Animation.SetRotationIdempotent` | MyGLWidget/testoglwidget.cpp:169-174 | setting the same value a second time changes nothing and requests no further redraw |
| `Animation.RotationKeepsValid` | MyGLWidget/testoglwidget.cpp:169-179 | neither the setter nor the toggle can take the counter out of range |
| `Animation.PaintsAdvance` | MyGLWidget/testoglwidget.cpp:120-121 | after `n` painted frames the counter is the start value plus `n`, modulo 200; the flag is unchanged; `n` redraws were requested |
| `Animation.WholeTurnsRestoreFrame` | MyGLWidget/testoglwidget.cpp:120-121 | painting `k * 200` frames (200 for a single turn) gives back the starting state, except that `k * 200` more redraws were requested |
| `Animation.FrameReturnsIffWholeTurns` | MyGLWidget/testoglwidget.cpp:120 | after `n` painted frames the counter is back at its start if and only if `n` is a multiple of 200 |
| `GLWidget.TestOGLWidget.constructor` | MyGLWidget/testoglwidget.cpp:15-17 | the new widget holds the given flag and counter, has requested no redraw, and has nothing staged or uploaded |
| `GLWidget.TestOGLWidget.Update` | MyGLWidget/testoglwidget.cpp:121 | a repaint request raises the redraw count by one and changes nothing else |
| `GLWidget.TestOGLWidget.SetRotation` | MyGLWidget/testoglwidget.cpp:169-174 | the flag becomes the argument; there is one redraw if the argument differs from the old flag and none otherwise; the counter and geometry are not touched; the new state is `Animation.SetRotation` of the old |
| `GLWidget.TestOGLWidget.ToggleRotation` | MyGLWidget/testoglwidget.cpp:176-179 | the flag becomes the negation of the old flag, with exactly one more redraw; nothing else is touched; the new state is `Animation.ToggleRotation` of the old |
| `GLWidget.TestOGLWidget.GetRotation` | MyGLWidget/testoglwidget.cpp:181-183 | returns the current flag and modifies nothing |
| `GLWidget.TestOGLWidget.Paint` | MyGLWidget/testoglwidget.cpp:97-122 | the counter moves to `Animation.NextFrame` of the old one and stays in [0, 200); one redraw is requested; the flag is only read; the new state is `Animation.Paint` of the old |
| `GLWidget.TestOGLWidget.CreateGeometry` | MyGLWidget/testoglwidget.cpp:124-148 | whatever was staged before, the staging arrays end up holding exactly the four vertices and the twelve tetrahedron indices, and these form a valid mesh |
| `GLWidget.TestOGLWidget.InitializeGL` | MyGLWidget/testoglwidget.cpp:19-66 | after initialisation both staging arrays are empty; the vertex and index buffers were given the four vertices and the twelve indices, which form a valid mesh; the index buffer was allocated with 12 × 4 = 48 bytes |
| `GLWidget.CreateGeometryTwice` | MyGLWidget/testoglwidget.cpp:124-126 | building the geometry twice leaves the same staging contents as building it once |
| `GLWidget.ToggleTwice` | MyGLWidget/testoglwidget.cpp:176-179 | two toggles on the widget restore its flag at the cost of two redraw requests |

## Left out

- OpenGL and Qt calls have no visible semantics here, so they are not modelled: shader compilation and linking (25-30), creating, binding and releasing the vertex array object and the buffers (33-62), `glClearColor`, `glEnable`, `glCullFace`, `glClear`, `glViewport`, the uniform upload (112) and `glDrawElements` (115). Of the buffer work, only what each allocation receives is kept (43, 49): the staged data and, for the index buffer, the byte size.
- The draw call at line 115 takes its element count from `mIndexBuffer.size()`, which is a size in bytes (48) and not the number of indices (12). The draw call is not modelled, so the model makes no claim about the count that is drawn.
- Teardown and the destructor (150-167) release device resources only, so they are not modelled.
- All float and matrix work is left out: the camera parameters and `lookAt` (73-81), the projection and aspect ratio in `resizeGL` (84-95, including the unguarded division when the height is zero), the rotation angle `360 * mFrame / 200` and the model rotation (104-110), the matrix product (112), and the vertex coordinates and colours (128-131). Because of this, `GLWidget.TestOGLWidget.Paint` keeps only the counter advance and the repaint request.
- The trackball (`mBall`, 94 and 102) is an external collaborator whose code is not part of this model.
- Logging (`startLog`, `stopLog`, `richText`) has only toolkit side effects.
- `update()` is modelled only as a redraw-request counter. How the toolkit schedules the repaint is not modelled.
- The class header (`testoglwidget.h`) is not part of this model. The initial values of `mRotating` and `mFrame` are therefore constructor parameters.
