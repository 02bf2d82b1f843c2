# Keyboard-driven WebGL scene loop, modelled in Dafny

This project models the two WebGL pages of the site: the main page
(`assets/js/GLmainpage.js`) and the game page (`assets/js/gamecode.js`).

The main page draws a list of scene objects (two pyramids and a terrain quad)
every animation frame. It translates them all by a shared `position` and
rotates them all by a shared `rotation` about the vertical axis. The arrow
keys move `position` by 0.1. `p` pauses and resumes the animation. `e` and `r`
lower and raise the per-frame rotation speed `rot` by 0.001. While the
animation runs, each frame adds `rot` to `rotation`, draws, and requests the
next frame. Pausing cancels the pending frame request.

The game page draws a single pyramid translated by `position`. It redraws
once per display frame, and once after every key press, right after the
arrow-key update.

Modules:

- `Meshes`: the vertex tables, the vertex count each buffer reports
  (`positions.length / 3`), and how a flat table reads as vertices.
- `Arrows`: the four arrow-key cases, which both pages share.
- `Render`: the scene objects and the main page's `drawScene`. The loop is a
  method proved equal to a function that gives the frame's draw calls.
- `Controller`: the main page's loop as a state machine over values. It
  covers `updatePosition`, `animate`, the start in `main`, and the animation
  frame requests. Its lemmas state what the loop guarantees.
- `MainPage`: class `SceneLoop`. It holds the same state as the page: the
  `position` array is updated in place and the other fields are reassigned.
  Each method is proved to move the object's state exactly as the matching
  `Controller` function does.
- `Game`: the game page. It has a pure model with its lemmas, and class
  `GameScene`, whose methods are tied to that model.

Some modelling choices:

- JavaScript numbers are modelled as `real`. IEEE-754 rounding is not
  modelled. Over `real`, ten presses of ArrowUp move the scene by exactly 1.0.
  With doubles they do not.
- A draw call keeps only three things: the buffer bound, the vertex count
  passed to `drawArrays(gl.TRIANGLES, 0, n)`, and the inputs of the
  model-view matrix (the translation, and on the main page the angle about
  the y axis).
- `requestAnimationFrame` hands out fresh handles: 1, 2, 3 and so on. Handle 0
  stands for the `requestId` that is still undefined.
  `cancelAnimationFrame(h)` removes `h` from the set of pending callbacks.
  The host runs only callbacks that are still pending.

Notes on the source:

- The pyramid table holds six triangles, because its square base is drawn
  as two. So it has 18 vertices.
- The main page's object list is pyramid, pyramid, terrain. So one frame
  draws 18, 18 and then 6 vertices.
- An object of unknown type is logged with `console.error`. It is then
  skipped, and the loop goes on.

## Model

| member | source | states |
|---|---|---|
| `Meshes.NumVertices` | assets/js/GLmainpage.js:90-93 | the vertex count is the number of whole (x, y, z) triples in the table |
| `Meshes.Vertices` | assets/js/GLmainpage.js:172-174 | the table read with 3 components per vertex: one vertex per whole triple, vertex i being coordinates 3i, 3i+1 and 3i+2 |
| `Meshes.VerticesOfFlatten` | assets/js/GLmainpage.js:55-84 | reading back a table written from vertices gives those vertices |
| `Meshes.FlattenOfVertices` | assets/js/GLmainpage.js:55-84 | a table of whole triples is exactly its vertices written out in order |
| `Meshes.PyramidPositions` | assets/js/GLmainpage.js:55-84 | the pyramid table has 54 coordinates |
| `Meshes.GamePyramidPositions` | assets/js/gamecode.js:53-82 | the game page's table has 54 coordinates and equals the main page's pyramid |
| `Meshes.PyramidIsItsVertices` | assets/js/GLmainpage.js:55-84 | the pyramid table is whole triples: its vertices written back give the table itself |
| `Meshes.TerrainIsItsVertices` | assets/js/GLmainpage.js:98-106 | the terrain table as written is whole triples: its vertices written back give the table itself |
| `Meshes.TerrainPositionsAsWritten` | assets/js/GLmainpage.js:98-106 | the terrain table has 18 coordinates |
| `Meshes.TerrainAsWrittenIsNotAQuad` | assets/js/GLmainpage.js:99 | as written, the two terrain triangles share only the corner (2, -1, 2), so they do not form a quad split along a diagonal |
| `Meshes.TerrainPositions` | assets/js/GLmainpage.js:98-106 | the corrected terrain differs from the table as written only in its first coordinate, is a quad split along its diagonal, lies flat at y = -1, and has as many vertices as the table as written |
| `Meshes.TerrainIsFlat` | assets/js/GLmainpage.js:98-106 | every vertex the shader reads from the corrected terrain lies at height -1 |
| `Arrows.Move` | assets/js/GLmainpage.js:221-233 | Up/Down add +0.1/-0.1 on axis 1 and Left/Right add -0.1/+0.1 on axis 0; exactly one axis changes; axis 2 never changes; any other key changes nothing |
| `Arrows.MoveThenOpposite` | assets/js/gamecode.js:152-163 | Up then Down, Down then Up, Left then Right, or Right then Left restores the position exactly |
| `Arrows.MoveAllKeepsDepth` | assets/js/gamecode.js:150-164 | no sequence of keys changes position[2] |
| `Arrows.RepeatedPresses` | assets/js/GLmainpage.js:222-233 | n presses of one arrow key move its axis by exactly n × 0.1 in its direction and leave the other axes alone |
| `Render.MeshFor` | assets/js/GLmainpage.js:163-170 | type 'pyramid' selects the pyramid buffer, 'terrain' the terrain buffer, and every other type selects none |
| `Render.CreatePyramid` | assets/js/GLmainpage.js:119-125 | the object is drawn with the pyramid buffer and keeps the given position and no size |
| `Render.CreateTerrain` | assets/js/GLmainpage.js:128-135 | the object is drawn with the terrain buffer and keeps the given position and size |
| `Render.Objects` | assets/js/GLmainpage.js:138-143 | the scene is three objects: pyramid, pyramid, terrain |
| `Render.InitPyramidBuffers` | assets/js/GLmainpage.js:54-94 | the pyramid buffer reports 18 vertices |
| `Render.InitTerrainBuffers` | assets/js/GLmainpage.js:97-116 | the terrain buffer, built from the table as written, reports 6 vertices, the same count the corrected table would give |
| `Render.BufferCountsAreVertexCounts` | assets/js/GLmainpage.js:90-93 | each buffer's reported count is exactly the number of vertices the shader reads from its table |
| `Render.RenderFrame` | assets/js/GLmainpage.js:157-182 | every object of the list yields either a draw call or a logged type, never both |
| `Render.RenderFrameAppend` | assets/js/GLmainpage.js:157 | drawing a list is drawing its front part, then its back part |
| `Render.DrawScene` | assets/js/GLmainpage.js:146-183 | the for-of loop with `continue` issues exactly the frame `RenderFrame` specifies |
| `Render.DrawnInOrder` | assets/js/GLmainpage.js:157-182 | one draw per recognised object, in list order, covering that kind's vertex count; all draws use the same translation and angle; the unknown types are logged in order |
| `Render.PlacementIsIgnored` | assets/js/GLmainpage.js:158-160 | an object's own position, size and link are never read: lists with the same types render identically |
| `Render.UnknownIsSkipped` | assets/js/GLmainpage.js:167-170 | an object of unknown type draws nothing, and the objects around it draw as if it were absent |
| `Render.MainSceneCounts` | assets/js/GLmainpage.js:138-143 | the page's own list draws 18, 18 and 6 vertices, and logs nothing |
| `Controller.MainSetup` | assets/js/GLmainpage.js:212-213 | the loop draws three objects with buffers of 18 and 6 vertices |
| `Controller.Initial` | assets/js/GLmainpage.js:185-187 | the state before `animate()` first runs, with `main`'s locals of lines 216-217: position [0, 0, -5], rotation 0, rot 0.01, anima 1, no callback pending, nothing drawn |
| `Controller.RequestAnimationFrame` | assets/js/GLmainpage.js:255 | a fresh handle, different from every pending one, becomes requestId and is added to the pending callbacks; nothing else changes |
| `Controller.CancelAnimationFrame` | assets/js/GLmainpage.js:239 | the handle is no longer pending, cancelling it again changes nothing, and nothing else changes |
| `Controller.Animate` | assets/js/GLmainpage.js:252-256 | `animate()` leaves the position, the speed and the flag as they are |
| `Controller.Start` | assets/js/GLmainpage.js:271-276 | `main` runs `animate()` once from the initial state: the loop is reachable, anima is 1, the angle is the initial rotation plus rot, and one frame is drawn |
| `Controller.HandleKey` | assets/js/GLmainpage.js:220-249 | no key changes position[2]; a key with no case in the switch changes nothing |
| `Controller.Tick` | assets/js/GLmainpage.js:255 | a callback that is no longer pending (cancelled, or already run) changes nothing when the host delivers it |
| `Controller.Step` | assets/js/GLmainpage.js:259-261 | a key event or a frame event keeps the position three-dimensional and its depth unchanged |
| `Controller.StartIsValid` | assets/js/GLmainpage.js:271-276 | after `main` starts: one live callback, anima 1, rotation 0.01 (one `animate()` at speed 0.01), position [0, 0, -5], and one frame drawn |
| `Controller.StepPreservesValid` | assets/js/GLmainpage.js:234-240 | every key and every frame keeps the loop in a reachable state: anima 1 with exactly the last requested callback pending, or anima 0 with none |
| `Controller.RunPreservesValid` | assets/js/GLmainpage.js:234-240 | over any sequence of events: at most one animation chain is live, anima stays 0 or 1, and position[2] never changes |
| `Controller.ArrowKeyMovesOneAxis` | assets/js/GLmainpage.js:222-233 | an arrow key moves one axis by ±0.1 and changes nothing else in the loop's state |
| `Controller.NoOpIffUnhandled` | assets/js/GLmainpage.js:221-248 | in a reachable state a key leaves the whole state unchanged if and only if it is not one of the seven handled keys |
| `Controller.SpeedKeys` | assets/js/GLmainpage.js:242-247 | 'r' adds 0.001 to rot and 'e' subtracts it; nothing else changes; the two undo each other |
| `Controller.OnlyAnimateRotates` | assets/js/GLmainpage.js:253 | no key but 'p' changes the angle or draws; 'p' advances the angle by rot or not at all |
| `Controller.PauseCancels` | assets/js/GLmainpage.js:236-240 | pausing sets anima 0 and cancels the live callback without drawing or turning; no callback the host delivers afterwards has any effect |
| `Controller.ResumeAnimatesOnce` | assets/js/GLmainpage.js:236-237 | resuming sets anima 1, advances the angle by exactly rot once, draws one frame with the new angle, and leaves one fresh callback pending |
| `Controller.ToggleTwice` | assets/js/GLmainpage.js:235 | two presses of 'p' restore anima; while animating, pausing then resuming gives the same state as letting the live callback fire |
| `Controller.FramesAccumulate` | assets/js/GLmainpage.js:252-255 | after n frames the angle has grown by exactly n × rot, one frame drawn per callback, with no wrap or reset |
| `Controller.SpeedUpPresses` | assets/js/GLmainpage.js:245-247 | n presses of 'r' raise rot by n × 0.001 and change nothing else |
| `Controller.SpeedUpThenFrames` | assets/js/GLmainpage.js:245-253 | n speed-ups then m frames turn the scene by m × (rot + n × 0.001) |
| `MainPage.SceneLoop.constructor` | assets/js/GLmainpage.js:185-217 | the initial state (anima 1, rot 0.01, rotation 0, position [0, 0, -5]), then `animate()`, gives the reachable start state |
| `MainPage.SceneLoop.RequestAnimationFrame` | assets/js/GLmainpage.js:255 | a fresh handle becomes requestId and is added to the pending callbacks |
| `MainPage.SceneLoop.CancelAnimationFrame` | assets/js/GLmainpage.js:239 | the handle is removed from the pending callbacks |
| `MainPage.SceneLoop.Animate` | assets/js/GLmainpage.js:252-256 | adds rot to rotation, appends the frame drawn with the new angle, and requests the next frame |
| `MainPage.SceneLoop.HandleKey` | assets/js/GLmainpage.js:220-249 | updates the position array in place and the other fields exactly as `Controller.HandleKey`, and keeps the loop reachable |
| `MainPage.SceneLoop.OnAnimationFrame` | assets/js/GLmainpage.js:252-256 | runs `animate()` for a pending callback, as `Controller.Tick` does, and keeps the loop reachable |
| `Game.InitBuffers` | assets/js/gamecode.js:52-94 | the buffer reports 54 / 3 = 18 vertices |
| `Game.SceneFrame` | assets/js/gamecode.js:96-120 | one frame is a single draw of the whole pyramid buffer, translated by the position, with nothing logged |
| `Game.Start` | assets/js/gamecode.js:147 | the position starts at [0, 0, -5] and the first `render()` (line 178) draws one frame; the screen shows it and it is a single draw |
| `Game.KeyDown` | assets/js/gamecode.js:168-171 | the position becomes the arrow move of the key, one frame is appended and the earlier ones kept, the screen shows the new position, and every frame stays a single draw |
| `Game.RenderPass` | assets/js/gamecode.js:173-176 | the position is unchanged, one frame is appended and the earlier ones kept, the screen shows the position, and every frame stays a single draw |
| `Game.KeyDownUpdatesThenDraws` | assets/js/gamecode.js:168-171 | a key press first updates the position, then issues exactly one frame: a single draw of 18 vertices at the new position |
| `Game.OtherKeysKeepPosition` | assets/js/gamecode.js:151-164 | every key except the four arrows, including 'p', 'e' and 'r', leaves the position unchanged |
| `Game.OppositeKeysCancel` | assets/js/gamecode.js:152-163 | Up then Down, or Left then Right, returns the position to where it was |
| `Game.RunInvariant` | assets/js/gamecode.js:168-176 | over any events, the position is the arrow moves of the keys pressed, one frame is drawn per event, each a single draw of the whole buffer, and the last frame shows the current position |
| `Game.RunFromStart` | assets/js/gamecode.js:147-178 | from the page's start, position[2] stays at -5.0 forever and every frame is a single draw of the pyramid |
| `Game.GameScene.constructor` | assets/js/gamecode.js:144-178 | builds the buffer, sets the position to [0, 0, -5], and draws once |
| `Game.GameScene.UpdatePosition` | assets/js/gamecode.js:150-165 | updates the position array in place as the four arrow cases do, with no default case |
| `Game.GameScene.DrawScene` | assets/js/gamecode.js:96-120 | appends one frame: a single draw of the whole buffer, translated by the current position, with no rotation |
| `Game.GameScene.OnKeyDown` | assets/js/gamecode.js:168-171 | runs the position update, then one draw, as `Game.KeyDown` specifies |
| `Game.GameScene.OnDisplayFrame` | assets/js/gamecode.js:173-176 | one pass of `render()` draws the current position and changes nothing else |

## Left out

- Shader setup (`loadShader`, `initShaderProgram`, the shader sources) and the check on the WebGL context are not modelled. They wrap WebGL compile and link calls and log failures. The model assumes setup succeeds.
- The matrices are not computed. `mat4.perspective`, `mat4.translate` and `mat4.rotate` come from gl-matrix, which is not part of this model, and they work in floating point. A draw call records only which inputs feed the model-view matrix. The projection (field of view π/4, aspect ratio of the canvas, near 0.1, far 100) does not depend on any state and is not recorded.
- The GL calls themselves are not modelled: clearing, `bufferData`, `bindBuffer`, `vertexAttribPointer`, the uniform uploads, and the first-vertex argument 0 of `drawArrays`. Only the abstract list of draw calls is kept.
- The display's frame timing is not modelled. An animation frame is an event that the host may deliver for any handle. There is no model of frame rate, dropped frames or concurrency.
- IEEE-754 doubles and the 32-bit floats sent to the GPU are modelled as `real`. Every `real` result is exact, so the round trips and accumulations proved here are not exact in the browser.
- The main page's `render()` function (assets/js/GLmainpage.js:264-269) is not modelled. `main` calls it only when `anima` is 0 at start, and `anima` is always 1 then, so it never runs.
- The `keydown` listener of the main page is the `Controller.Step` case for a key event. It needs no separate member.
- The root `gamecode.js` (a WebGPU triangle), `assets/js/Pokescript.js` (a network fetch plus HTML templating) and `assets/js/Sidebar.js` (DOM style toggles) are not part of this model. They hold no state of their own to reason about.

## Findings

| source | as written | input that shows it | evidently intended | confidence | as-written member | corrected member |
|---|---|---|---|---|---|---|
| assets/js/GLmainpage.js:99 | the first terrain vertex is (-5.0, -1.0, -2.0) | the table itself: its triangles (-5,-1,-2), (-2,-1,2), (2,-1,2) and (2,-1,2), (2,-1,-2), (-2,-1,-2) share only the corner (2,-1,2), which leaves a wedge of the square uncovered | -2.0, so that the two triangles split the flat square [-2,2] × [-2,2] at height -1 along its diagonal (the same 6 vertices are drawn) | medium, not executed | `Meshes.TerrainAsWrittenIsNotAQuad` | `Meshes.TerrainPositions` |
