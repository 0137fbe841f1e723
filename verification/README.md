# Room renderer core: camera, input rules and mesh generators

This project models the logic of a small OpenGL room demo (kazol196295/practice3) that can be stated without the graphics library. It proves properties of that model in Dafny.

- `vectors.dfy` (`Vectors`): the three-component vectors the camera uses, with float components as exact reals.
- `camera.dfy` (`Camera`): the `BasicCamera` of `src/basic_camera.h` as an immutable record. It covers:
  - the constructor;
  - keyboard movement along the camera basis;
  - rotation with the pitch clamp to [-89, 89];
  - scroll zoom with the clamp to [1, 45].

  `updateCameraVectors` (trigonometry and `glm::normalize`) is an uninterpreted parameter `basis: (yaw, pitch, roll) -> Basis`. A camera is *consistent* when its direction, right and up vectors are that function's value at its angles.
- `app.dfy` (`App`): the application state of `src/main.cpp`. It covers:
  - `processInput` as a function from the set of held keys to the new state;
  - the fan-angle update of the render loop;
  - the scroll and window-close callbacks, run by the event poll at the end of each pass;
  - the render loop over a stream of frames, which stops after the pass that asks to close.

  The six movement keys and the six rotation keys are binding tables, (key, character forwarded to the camera), walked in the source's order.
- `mesh.dfy` (`Mesh`): what the three generators share: the rim-point parameter, the pass counts of their loops, and facts about offsets into flat buffers.
- `cylinder.dfy`, `sphere.dfy`, `cone.dfy` (`Cylinder`, `Sphere`, `Cone`): the vertex and index buffers of `generateCylinderVertices`, `generateSphereVertices` and `generateConeVertices`. The buffers are flat sequences, exactly as pushed. The trigonometric rim points and sphere directions are parameters. The proofs cover:
  - exact lengths;
  - the position of every vertex and every triangle in the buffers;
  - index bounds;
  - that every vertex is used, except the cylinder's closing ring pair, which no index names;
  - which vertex positions each triangle joins: the cylinder's caps and side quads, every sphere cell, and the cone's base and side triangles.

The cone's base triangles are a fan around vertex `segments`. That is the last rim vertex, which the base loop pushes at the full-turn angle, so there is no centre vertex. Every vertex of the cone is referenced (`Cone.EveryVertexUsed`). This follows the code at src/main.cpp:928-933.

## Model

| member | source | states |
|---|---|---|
| Camera.Clamp | src/basic_camera.h:104-108 | The clamp lands in [lo, hi]. It keeps a value already in range and gives the violated bound otherwise. |
| Camera.Create | src/basic_camera.h:29-48 | Position is (posX, posY, posZ). The other fields are yaw -135, pitch -45, roll 0, movement speed 1, rotation speed 30, mouse sensitivity 0.1 and zoom 45. The new camera is valid: pitch and zoom are in range and the basis matches the angles. |
| Camera.CreateIgnoresLookAt | src/basic_camera.h:29-33 | Two cameras built from the same position but different look-at points and up vectors are identical. |
| Camera.ProcessKeyboard | src/basic_camera.h:72-86 | Only the position changes, by the reference table `Displacement` at velocity speed·dt: W/S ± direction, D/A ± right, E/R ± up. Any other character leaves the camera unchanged. |
| Camera.ForwardThenBackward | src/basic_camera.h:73-77 | Moving with W and then S by the same time step restores the camera exactly. |
| Camera.RepeatedForward | src/basic_camera.h:72-75 | n forward steps move the position by direction·(n·speed·dt) and change nothing else. |
| Camera.OneSecondForward | src/basic_camera.h:72-75 | Sixty steps of 1/60 s at speed 1 along -z move the camera exactly one unit along -z. |
| Camera.ProcessRotation | src/basic_camera.h:89-111 | The resulting pitch is always in [-89, 89] and the basis is recomputed from the new angles. P/N change pitch by ±speed·dt before the clamp. H/Y add/subtract it to yaw and R/L to roll, neither clamped. Position, zoom and speeds are untouched. |
| Camera.UnknownAxisKeepsAngles | src/basic_camera.h:89-110 | An unrecognised axis with the pitch already in range leaves yaw, pitch and roll unchanged; the basis is still recomputed. |
| Camera.RotationsBoundPitch | src/basic_camera.h:104-108 | After any non-empty sequence of rotations the pitch is in [-89, 89] and the basis is consistent, whatever the starting pitch. Position and zoom are unchanged. |
| Camera.ProcessMouseScroll | src/basic_camera.h:114-121 | Only zoom changes. The new zoom is in [1, 45]. It equals old zoom − y when that lies in [1, 45] and is the violated bound otherwise. |
| Camera.ScrollByZeroIsIdentity | src/basic_camera.h:116-120 | Scrolling by 0 from an in-range zoom changes nothing. |
| Camera.ScrollsBoundZoom | src/basic_camera.h:116-120 | After any non-empty sequence of scrolls the zoom is in [1, 45] and nothing but zoom has changed. |
| Camera.OperationsPreserveValid | src/basic_camera.h:72-121 | Keyboard movement, rotation and scrolling all keep a valid camera valid. |
| App.Initial | src/main.cpp:63-129 | The start state is valid: the camera is built at (3, 3, 3), the scene translation and rotation are 0, the fan is at angle 0 and stopped, all eight light switches are on, and no close has been requested. |
| App.MoveKeysDisplacement | src/main.cpp:611-623 | Walking a movement binding table over the held keys changes only the position. The displacement is the sum over held keys of each key's camera move. |
| App.RotateKeysEffect | src/main.cpp:625-637 | Walking a rotation binding table adds the held keys' yaw and roll turns, and the pitch equals the reference fold `PitchAfter`: ±speed·dt for P/N, clamped to [-89, 89] after every held key. If any rotation key is held the basis is the one derived from the new angles; if none is, the camera is unchanged. Position, zoom and speeds are never touched. |
| App.CameraInput | src/main.cpp:611-637 | The camera part of processInput: the position moves by the sum of the held movement keys' moves, yaw/roll move by the held rotation keys' turns and the pitch is `PitchAfter` over the rotation keys. With a rotation key held the basis matches the new angles; with none held only the position changes. Zoom and speeds are kept. |
| App.RotateBindingsPitch | src/main.cpp:626-637 | Over the source's rotation keys, the up arrow adds speed·dt and clamps, then the down arrow subtracts it and clamps. Without an arrow, any other rotation key only clamps the pitch, and no rotation key leaves it as it was. |
| App.UpAndDownStopAtClamp | src/main.cpp:626-629 | Up and down held together do not cancel at the limit: from pitch 88 with a 5-degree turn the pitch ends at 84. |
| App.Shift | src/main.cpp:591-600 | One translate coordinate changes by +0.01 when its plus key is held and −0.01 when its minus key is held, so both together cancel. |
| App.SceneInput | src/main.cpp:591-609 | translate_X/Y/Z change by +0.01 for L/I/O and −0.01 for J/K/P. rotateAngle_X/Y/Z gain 0.2 when X/Y/Z is held. Nothing else changes. |
| App.LightInput | src/main.cpp:639-658 | Keys 1–7 each flip exactly their own light flag (directional, point 1, point 2, spot, ambient, diffuse, specular). The emissive flag is never touched. |
| App.ProcessInput | src/main.cpp:584-659 | Escape requests a close and G flips the fan flag. The fan angle is untouched. Lights, camera and scene transform change as the three parts above state. |
| App.RotateBindingsTurns | src/main.cpp:625-637 | Over the source's rotation keys, yaw turns by (right − left)·speed·dt and roll by (key 3 − key 1)·speed·dt. Some rotation key is held exactly when an arrow key or key 1 or 3 is held. |
| App.MoveBindingsSum | src/main.cpp:611-623 | Over the source's movement keys, the displacement is direction·(W−S) + right·(D−A) + up·(E−R), each scaled by speed·dt. |
| App.OppositeMovesCancel | src/main.cpp:611-623 | When each pair of opposite movement keys is both held or both released, the net displacement is zero. |
| App.ForwardAndBackwardCancel | src/main.cpp:611-614 | Holding W and S together, with the other movement keys released, leaves the camera position where it was. |
| App.DigitOneRollsAndTogglesDirectional | src/main.cpp:633-640 | Key 1 (without key 3) both rolls the camera by −speed·dt and flips the directional light, and the pitch stays in range. |
| App.DigitThreeRollsAndTogglesPoint2 | src/main.cpp:635-646 | Key 3 (without key 1) both rolls the camera by +speed·dt and flips point light 2, and the pitch stays in range. |
| App.NoKeysNoChange | src/main.cpp:584-659 | With no key held, processInput returns the state unchanged. |
| App.FanStep | src/main.cpp:266-273 | A stopped fan keeps its angle. A rotating fan moves to a + 200·dt, less 360 exactly when that exceeds 360. |
| App.FanStepStaysInRange | src/main.cpp:268-273 | From an angle in [0, 360] and a step 200·dt in [0, 360], the fan angle stays in [0, 360]. |
| App.Tick | src/main.cpp:256-273 | One frame is processInput followed by the fan update: the result is processInput's state in every field but the fan angle, which takes the fan step with the flag G may just have flipped. Escape requests a close. The camera stays valid for any time step, and the fan angle stays in [0, 360] when 200·dt is in [0, 360]. |
| App.LongFrameLeavesTurn | src/main.cpp:268-273 | A frame of 2 s takes a spinning fan from 350 to 390 degrees: the single wrap does not keep the angle within one turn after a stall. |
| App.Scroll | src/main.cpp:668-671 | The scroll callback changes only the camera, by ProcessMouseScroll, leaving zoom in [1, 45]. |
| App.Poll | src/main.cpp:569-570 | The event poll runs the scroll callback for each offset in turn, so the camera is `ScrollAll` of the offsets, and a click on the close button (window_close_callback, main.cpp:53-56) requests a close. Nothing else changes. |
| App.ScrollsKeepValid | src/main.cpp:668-671 | Any run of scroll events keeps a valid camera valid. |
| App.Pass | src/main.cpp:257-570 | One pass of the loop requests a close exactly when one was pending, Escape is held or the close button was clicked. G flips the fan flag before the fan update. The lights and the scene translation and rotation are those processInput sets. The camera is the scrolled result of processInput's camera and stays valid, and the fan angle stays in [0, 360] for a short frame. |
| App.Run | src/main.cpp:257-273 | The loop does nothing once a close is requested. Otherwise it keeps the camera valid over any stream of frames, and the fan angle in [0, 360] when every frame lasts at most 1.8 s. |
| App.CloseEndsLoop | src/main.cpp:257 | A pass that asks to close, by Escape or the close button, is the last one: later frames are not run. |
| App.RunAppend | src/main.cpp:257 | Running one more frame after a stream is one more pass, unless a close is already pending, in which case nothing happens. |
| Cylinder.Vertices | src/main.cpp:734-776 | The vertex buffer holds 2·segments + 4 vertices of 6 floats when segments ≥ 0 (two centres plus segments + 1 ring pairs). |
| Cylinder.VertexLayout | src/main.cpp:736-776 | Vertex 0 is the top centre and vertex 1 the bottom centre. Vertex 2 + 2i is rim point i at y = height/2 and vertex 3 + 2i the same point at y = −height/2. All are coloured (0.702, 1, 1). |
| Cylinder.Indices | src/main.cpp:777-802 | The index buffer has exactly 12·segments entries, and none when segments ≤ 0. |
| Cylinder.IndicesLayout | src/main.cpp:777-802 | Entries 12i to 12i + 11 are the twelve indices of segment i. |
| Cylinder.SegmentShape | src/main.cpp:779-801 | Top-cap triangle (0, 2+2i, next top vertex), bottom-cap triangle (1, each top vertex + 1), side quad (top1, bottom1, top2) and (bottom1, bottom2, top2). The last segment wraps to vertex 2. |
| Cylinder.IndicesInRange | src/main.cpp:777-802 | Every index is in [0, 2·segments + 1], below the vertex count. The closing ring pair 2·segments + 2 and 2·segments + 3 is never referenced. |
| Cylinder.EveryVertexUsed | src/main.cpp:777-802 | Every vertex from 0 to 2·segments + 1 occurs in the index buffer. |
| Cylinder.TopCapTriangle | src/main.cpp:734-802 | The top-cap triangle of segment i is the top centre and rim points i and i + 1 (mod segments), all at y = height/2. |
| Cylinder.BottomCapTriangle | src/main.cpp:734-802 | The bottom-cap triangle of segment i is the same triangle at y = −height/2. |
| Cylinder.SideQuad | src/main.cpp:734-801 | The side quad of segment i joins rim points i and i + 1 (mod segments) at y = height/2 and y = −height/2: (top i, bottom i, top i+1) and (bottom i, bottom i+1, top i+1). |
| Sphere.Vertices | src/main.cpp:807-830 | The vertex buffer holds (rings + 1)·(segments + 1) vertices of 5 floats. |
| Sphere.VertexLayout | src/main.cpp:807-830 | Vertex i·(segments + 1) + j holds the radius-scaled direction of grid point (i, j) and its texture coordinate. |
| Sphere.TextureCoordinates | src/main.cpp:822-823 | u = 1 − j/segments and v = 1 − i/rings lie in [0, 1]. u is 1 on the first segment and 0 on the last; v is 1 on the first ring and 0 on the last. |
| Sphere.Indices | src/main.cpp:833-848 | The index buffer has rings·segments·6 entries, and none when either is ≤ 0. |
| Sphere.IndicesLayout | src/main.cpp:833-848 | The cell at ring i, segment j occupies entries 6·(i·segments + j) to + 5. |
| Sphere.QuadShape | src/main.cpp:837-846 | A cell's triangles are (i,j), (i+1,j), (i,j+1) and (i+1,j), (i+1,j+1), (i,j+1) in grid numbering. They share the diagonal. |
| Sphere.IndicesInRange | src/main.cpp:833-848 | Every index is below (rings + 1)·(segments + 1). |
| Sphere.LastVertexUsed | src/main.cpp:833-848 | The largest vertex, (rings + 1)·(segments + 1) − 1, is referenced, so the bound is tight. |
| Sphere.EveryVertexUsed | src/main.cpp:833-848 | Every grid vertex, 0 to (rings + 1)·(segments + 1) − 1, occurs in the index buffer. |
| Sphere.QuadGeometry | src/main.cpp:807-848 | The six indices of the cell at ring i, segment j pick out the floats pushed for grid points (i, j), (i+1, j), (i, j+1) and (i+1, j), (i+1, j+1), (i, j+1). |
| Cone.Vertices | src/main.cpp:911-925 | The vertex buffer holds segments + 2 vertices of 3 floats when segments ≥ 0 (segments + 1 base-ring points plus the apex). |
| Cone.VertexLayout | src/main.cpp:911-925 | Vertex i (0 ≤ i ≤ segments) is rim point i at y = 0, and vertex segments + 1 is the apex (0, height, 0). |
| Cone.Indices | src/main.cpp:927-941 | The index buffer has exactly 6·segments entries, and none when segments ≤ 0. |
| Cone.TriangleLayout | src/main.cpp:927-941 | Base triangle i is (i, (i+1) % segments, segments) at entry 3i, and side triangle i is (i, (i+1) % segments, segments + 1) at 3·segments + 3i, so all base triangles come first. |
| Cone.IndicesInRange | src/main.cpp:927-941 | Every index is in [0, segments + 1], below the vertex count. |
| Cone.EveryVertexUsed | src/main.cpp:927-941 | Every vertex is referenced, including vertex segments (the base hub) and the apex. |
| Cone.BaseTriangleGeometry | src/main.cpp:909-933 | Base triangle i lies in the plane y = 0, on rim points i, i + 1 (mod segments) and the full-turn rim point. |
| Cone.SideTriangleGeometry | src/main.cpp:909-941 | Side triangle i joins rim points i and i + 1 (mod segments) to the apex. |
| Cone.EndBaseTrianglesDegenerate | src/main.cpp:912-933 | When the full-turn rim point equals rim point 0, the first and last base triangles each repeat a position. |

## Left out

- Window, context, loader, shader and every `gl*` call are left out. They are I/O and foreign library code.
- `glfwGetTime` is left out: each frame's time step is a parameter. Key polling becomes the set of held keys. The events polled at the end of a pass are the frame's scroll offsets and a close-button flag; the model runs the scroll callbacks before the close callback, and the two touch different fields, so their order within one poll does not matter.
- `updateCameraVectors` is a parameter, and the rim points and sphere directions are parameters. All of them are trigonometry, `glm::normalize` and `glm::rotate`, including the 3.1416 approximation of π, so they cannot be stated exactly over the reals.
- `createViewMatrix`, the projection, the model-matrix composition in the draw functions, the fan/blade transforms and the furniture draw list are left out. They are glm matrix code and scene data.
- The light structs, their constants and the uniform uploads are left out: they are data handed to the shader. Only the on/off flags that processInput toggles are modelled.
- Floating point: every float is an exact real. The model has no rounding of 0.01, 0.2 or the speed·dt products, no float/double conversions of `yoffset` and the translate steps, and no NaN.
- Sphere.Vertices: requires segments ≥ 1 and rings ≥ 1. At 0 the float divisions for u and v give NaN or infinity, which reals cannot express. The index buffers need no such requirement.
- Integer width: segment and ring counts and all index arithmetic (`2 + 2 * i`, `i * (segments + 1)`, `segments + 1`, the loop counters) are unbounded integers. The model has no 32-bit `int` overflow, no conversion to `unsigned int` and no allocation failure. At segments = INT_MAX the source's `i <= segments` loops would not end normally. The program itself only passes 36 segments and 18 rings (main.cpp:289, 683, 860-861, 953).
- Cylinder and Cone vertex counts for negative segments follow the loops (no ring vertices). The index loops make no pass, so no `% segments` happens there.
- `mouseSensitivity` is set by the constructor and is never used by the modelled code.
- Camera.Create: takes every constructor argument explicitly. The C++ default arguments (basic_camera.h:29-31) are not modelled, because the only construction (main.cpp:78) passes all of them.
