# BAS-E engine core in Dafny

This project models the core of the BAS-E 2D Java game engine (package `engine`), with every `float` taken as a Dafny `real`. The core has six parts:

- **Physics** (`physics.dfy`, module `Physics`) models `PhysicsEntity`, the engine's axis-aligned box physics. Each `update` does three things in order:
  - it integrates velocity and position with explicit Euler, at 64 pixels per metre;
  - it clamps the velocity using the contact flags left by the previous pass;
  - it runs one sequential collision-resolution pass over a caller-owned array of entities.

  The resolution pass is specified on values. `ResolvePair` is one loop iteration against one array entry. `ResolveAll` folds it over the entries in array order, and `ResolvePass` clears the flags first. These three functions state their properties in lemmas rather than in contracts of their own: `ResolvePairEffect` and `PushDistanceIsSmallerDepth` for the pair step, and `ResolveAllWithoutContact`, `ResolvePassWithoutContact`, `ResolveAllKeepsRaisedFlags` and `ResolveAllIgnoresOwnId` for the fold. `Integrate` and `UpdateMotion` give the whole of `update`. The class methods change the entity's vector objects and flags in place and are proved against those functions.
- **Vectors** (`vector2f.dfy`) models `Vector2f`, the mutable 2-vector that the physics uses. Its operations update the fields in place and return the same object.
- **Animations** (`animation.dfy`) models the frame stepping of `Animation`:
  - the frame index advances by two and wraps to 0 at the array length;
  - pausing freezes it;
  - `flipHorizontally` works in place on the frame array;
  - `setFrame` and `setFramePositions` are included.
- **Rendering** (`renderer.dfy`) models the batch bookkeeping of `Renderer`:
  - the index array built by the constructor;
  - the vertex buffer that `addVertex` and `addQuad` fill;
  - the automatic flush when the buffer is full;
  - the projection kept in step with the window size and the camera.

  Each draw is recorded as a `DrawCall` value: the projection plus the pending vertex data.
- **Matrices** (`matrix4f.dfy`) models `Matrix4f`, sixteen fields with in-place operations and a column-major listing (`Elements`).
- **Shaders** (`shader.dfy`) models the line loop of `Shader.parseShader`, over a sequence of lines in place of the file reader. An independent line-by-line reference, `Intended`, says what sectioning a file should get. The lemmas say exactly when the parser achieves it and what happens otherwise.

`common.dfy` holds `Option` and Java's 32-bit `int` as a newtype, with two helpers:

- `Increment` is `n + 1`, wrapping from the largest value to the smallest.
- `Wrap` is the reduction of an exact result into the `int` range.

Clock readings (`System.nanoTime`, `Instant.now().toEpochMilli()`) become method parameters. The static `nextID` counter becomes an `IdCounter` object passed to the entity constructor.

Four behaviours of the code that are easy to miss. The model follows the code in each:

- **Push direction.** The penetration depths are measured between the box centres, but the direction of the push comes from comparing the top-left corners (`src/engine/PhysicsEntity.java:84`, `:94`). For boxes of different sizes, this can push an entity deeper into the other box (`Physics.TopLeftComparisonCanDeepenOverlap`).
- **Static entities are still pushed.** An entity without kinematics keeps its velocity, but when it is collidable the resolution pass still moves it (`src/engine/PhysicsEntity.java:139-141`). A static 10 by 10 box at (0, 0) overlapped by a box at (5, 0) ends up at (-5, 0) (`Physics.StaticEntityCanBePushed`).
- **Time step.** The doc comment of `update` (`src/engine/PhysicsEntity.java:108`) speaks of a fixed time step. The code uses the measured time since the last update.
- **Trailing lines in shader files.** After a well-formed prefix, a last line that is empty, `#shared` or `#vertex` makes the loop dereference a missing line (`Shaders.TrailingOpenerFails`). Without that prefix condition this need not happen: in `#vertex` followed by an empty line, the empty line is read as vertex text and the parse ends normally. After a well-formed prefix, a trailing `#fragment` instead appends the text `null` (`Shaders.TrailingFragmentAppendsNull`).

## Model

| member | source | states |
|---|---|---|
| Common.Increment | src/engine/PhysicsEntity.java:46 | `nextID++` on a Java int: one more, except that the largest int wraps to the smallest |
| Common.Wrap | src/engine/Animation.java:88 | the Java int result of an exact integer: congruent to it modulo 2^32, and equal to it when it is in range |
| Vectors.Vector2f.constructor | src/engine/Vector2f.java:10-13 | the new vector holds the given components |
| Vectors.Vector2f.Add | src/engine/Vector2f.java:15-20 | each component grows by the other vector's old component (also when the other vector is this one); returns the same object |
| Vectors.Vector2f.AddXY | src/engine/Vector2f.java:22-27 | each component grows by its addend; returns the same object |
| Vectors.Vector2f.Subtract | src/engine/Vector2f.java:29-34 | each component shrinks by the other vector's old component; returns the same object |
| Vectors.Vector2f.SubtractXY | src/engine/Vector2f.java:36-41 | each component shrinks by its subtrahend; returns the same object |
| Vectors.Vector2f.Multiply | src/engine/Vector2f.java:43-48 | both components are scaled by the scalar; returns the same object |
| Vectors.Vector2f.GetX | src/engine/Vector2f.java:50-52 | returns x |
| Vectors.Vector2f.GetY | src/engine/Vector2f.java:54-56 | returns y |
| Vectors.Vector2f.SetX | src/engine/Vector2f.java:58-60 | x becomes the argument and y is unchanged |
| Vectors.Vector2f.SetY | src/engine/Vector2f.java:62-64 | y becomes the argument and x is unchanged |
| Vectors.Vector2f.Set | src/engine/Vector2f.java:66-69 | both components are copied from the other vector, which is left unchanged |
| Vectors.Vector2f.SetXY | src/engine/Vector2f.java:71-74 | both components are overwritten |
| Vectors.Vector2f.MagnitudeSquared | src/engine/Vector2f.java:76-78 | the squared length x² + y², which is never negative |
| Vectors.MagnitudeIsUnique | src/engine/Vector2f.java:76-78 | at most one non-negative m has m² = x² + y², so the magnitude is determined by its square |
| Vectors.AddThenSubtract | src/engine/Vector2f.java:22-41 | `subtract(a, b)` after `add(a, b)` restores the vector |
| Physics.OverlappingIffSharedPoint | src/engine/PhysicsEntity.java:49-54 | for non-negative sizes, the overlap test holds exactly when the two closed boxes share a point |
| Physics.EdgeContactOverlaps | src/engine/PhysicsEntity.java:49-54 | boxes that only share an edge count as overlapping (the test is inclusive) |
| Physics.OverlappingIffDepthNonNegative | src/engine/PhysicsEntity.java:49-81 | for boxes of any size, overlap holds exactly when both penetration depths (half extents minus centre distance) are non-negative |
| Physics.PhysicsEntity.CheckOverlapping | src/engine/PhysicsEntity.java:49-54 | `checkOverlapping` on the entity's box and the given one holds exactly when both penetration depths are non-negative |
| Physics.ResolvePairEffect | src/engine/PhysicsEntity.java:62-103 | the pair step `ResolvePair`, axis by axis: when the x depth is strictly smaller, x decreases by that depth if the entity's corner is left of the other's (raising Right) and increases by it otherwise (raising Left), and y is kept; symmetrically for a strictly smaller y depth with Bottom and Top; on equal depths, or against a skipped or apart entry, nothing changes |
| Physics.PushDistanceIsSmallerDepth | src/engine/PhysicsEntity.java:68-102 | against an engaging entry with unequal depths, the entity moves by exactly the smaller of the two depths |
| Physics.EqualWidthPushLeavesEdgeContact | src/engine/PhysicsEntity.java:83-91 | between equally wide boxes an x push leaves zero x depth, and the boxes still count as overlapping |
| Physics.EqualHeightPushLeavesEdgeContact | src/engine/PhysicsEntity.java:93-102 | between equally tall boxes a y push leaves zero y depth, and the boxes still count as overlapping |
| Physics.RestingContactRaisesFlagOnly | src/engine/PhysicsEntity.java:93-102 | a box resting exactly on another is not moved, and its bottom flag is raised |
| Physics.TopLeftComparisonCanDeepenOverlap | src/engine/PhysicsEntity.java:84-91 | the push direction follows the top-left corners: a wide box whose centre lies right of a narrow box is pushed left, and the x depth grows from 20 to 40 |
| Physics.ResolveAllWithoutContact | src/engine/PhysicsEntity.java:61-104 | if no entry engages the entity, the loop leaves its position and flags unchanged |
| Physics.ResolvePassWithoutContact | src/engine/PhysicsEntity.java:56-64 | an array of only skipped, or only apart, entries keeps the position and leaves all four flags false |
| Physics.ResolveAllKeepsRaisedFlags | src/engine/PhysicsEntity.java:83-103 | within one pass a raised flag is never lowered |
| Physics.ResolveAllIgnoresOwnId | src/engine/PhysicsEntity.java:62-64 | entries with the entity's own id never influence the pass |
| Physics.ResolutionDependsOnOrder | src/engine/PhysicsEntity.java:61-104 | the same two entries in opposite orders give different positions and flags |
| Physics.SideBySideExample | src/engine/PhysicsEntity.java:56-104 | a 10×10 box at (0, 0) against one at (5, 0) ends at (-5, 0) with only its right flag raised |
| Physics.Clamp | src/engine/PhysicsEntity.java:123-134 | a velocity component is zeroed exactly when the flag on the side it points to is set; otherwise it is kept |
| Physics.ClampNeverPointsIntoContact | src/engine/PhysicsEntity.java:123-134 | after clamping no component points into a contacted side, and components with no flag on their axis are unchanged |
| Physics.StaticEntityKeepsVelocity | src/engine/PhysicsEntity.java:114-142 | without kinematics, `update` never changes the velocity or the clock fields; a collidable static entity gets exactly the position and flags of the resolution pass from where it stands, and a non-collidable one is left entirely unchanged |
| Physics.StaticEntityCanBePushed | src/engine/PhysicsEntity.java:114-142 | a static collidable 10 by 10 box at (0, 0), overlapped by a box at (5, 0), is moved to (-5, 0) by `update` |
| Physics.Integrate | src/engine/PhysicsEntity.java:115-138 | the kinematic half of `update`: the epoch becomes the new reading, dt is the elapsed seconds, the flags are kept, no velocity component points into a raised contact, and each axis without a contact on it gets v + a·dt |
| Physics.UpdateMotion | src/engine/PhysicsEntity.java:114-142 | without kinematics the velocity and clock fields are kept; without collisions the flags are kept; with neither, nothing changes |
| Physics.NonCollidableKeepsContacts | src/engine/PhysicsEntity.java:139-141 | a non-collidable entity keeps its flags, and its position changes only by integration |
| Physics.FreeFallExample | src/engine/PhysicsEntity.java:116-137 | half a second of free fall from rest gives velocity (0, 4.905) and a drop of 156.96 pixels |
| Physics.RestingEntityStaysPut | src/engine/PhysicsEntity.java:114-142 | an entity at rest on a surface, with its bottom flag set, keeps its position, its zero velocity and its flags through `update` |
| Physics.IdCounter.constructor | src/engine/PhysicsEntity.java:17 | the counter starts at 0 |
| Physics.IdsCountUp | src/engine/PhysicsEntity.java:45-46 | before the counter wraps, the k-th entity built gets id k |
| Physics.IdsAreDistinct | src/engine/PhysicsEntity.java:45-46 | entities built earlier get strictly smaller ids, so ids are distinct |
| Physics.TwoEntitiesGetDistinctIds | src/engine/PhysicsEntity.java:38-47 | two entities built one after the other from a counter below the largest int get increasing ids |
| Physics.PhysicsEntity.constructor | src/engine/PhysicsEntity.java:38-47 | four fresh, distinct vectors; given position and size, zero velocity, gravity as the acceleration; flags false; clock at the reading; the id is the counter value, and the counter advances |
| Physics.PhysicsEntity.ResolveAgainst | src/engine/PhysicsEntity.java:62-103 | one loop iteration for entry i: the new position and flags are `ResolvePair` of the old ones and the entry, and every entity of the array with another id is left as it was |
| Physics.PhysicsEntity.ResolveCollisions | src/engine/PhysicsEntity.java:56-105 | the new position and flags are the fold of the pair step over the whole array, starting from the old position with every flag cleared |
| Physics.PhysicsEntity.ClampVelocity | src/engine/PhysicsEntity.java:123-134 | the new velocity is `Clamp` of the old one by the current flags |
| Physics.PhysicsEntity.Move | src/engine/PhysicsEntity.java:115-138 | the new position, velocity, epoch and time step are `Integrate` of the old state: v' = clamp(v + a·dt), p' = p + v'·dt·64, with dt the nanoseconds elapsed divided by 10^9 |
| Physics.PhysicsEntity.Update | src/engine/PhysicsEntity.java:114-142 | the new state is `UpdateMotion`: integrate when kinematic, then resolve against the array as it was on entry when collidable |
| Physics.PhysicsEntity.GetPosition | src/engine/PhysicsEntity.java:144-146 | returns the position object itself |
| Physics.PhysicsEntity.GetVelocity | src/engine/PhysicsEntity.java:148-150 | returns the velocity object itself |
| Physics.PhysicsEntity.GetCollidingBottom | src/engine/PhysicsEntity.java:155-157 | returns the bottom flag |
| Physics.PhysicsEntity.SetCollidable | src/engine/PhysicsEntity.java:159-161 | sets the collidable flag |
| Animations.NextFrame | src/engine/Animation.java:57-60 | the step of `currentFrame`: two on, to 0 when that equals the length, and, when `+= 2` overflows, the negative Java int value |
| Animations.FrameDueAtPositiveRate | src/engine/Animation.java:55 | for positive fps the test `elapsed > 1000 / fps` holds exactly when elapsed·fps exceeds 1000 |
| Animations.FrameDueAtNegativeRate | src/engine/Animation.java:55 | for negative fps the test `elapsed > 1000 / fps` holds exactly when elapsed·fps is below 1000 |
| Animations.NextFrameStaysInBounds | src/engine/Animation.java:57-65 | with an even length, stepping keeps an even in-bounds index even and in bounds, so both reads succeed; it returns to 0 exactly from the last pair |
| Animations.OddLengthRunsOff | src/engine/Animation.java:57-65 | with an odd length the index never wraps: from the last pair it steps out of bounds |
| Animations.SetFrameSelectsPair | src/engine/Animation.java:87-89 | `setFrame` of a frame number whose pair exists gives an even, in-bounds index |
| Animations.Flipped | src/engine/Animation.java:71-76 | the flipped array has the same length, even entries moved by the width, and odd entries unchanged |
| Animations.FlipTwiceRestores | src/engine/Animation.java:71-76 | flipping with the width and then with the negated width restores the array |
| Animations.Animation.constructor | src/engine/Animation.java:26-33 | keeps the caller's array and the given width, height and fps; frame 0, epoch 0, not paused |
| Animations.Animation.DrawFrame | src/engine/Animation.java:49-66 | when unpaused and the elapsed time exceeds 1000/fps, the index steps by two (to 0 at the length) and the epoch is taken; otherwise both are kept. The texture read is present exactly when both entries are in bounds, and with an even length a well-placed index stays well placed |
| Animations.Animation.FlipHorizontally | src/engine/Animation.java:71-76 | the array becomes `Flipped` of the old array by the old width, and the width is negated |
| Animations.Animation.GetCurrentFrame | src/engine/Animation.java:78-80 | returns the current index |
| Animations.Animation.SetFrame | src/engine/Animation.java:87-89 | the index becomes twice the frame number, as a Java int |
| Animations.Animation.SetPause | src/engine/Animation.java:94-96 | sets the pause flag |
| Animations.Animation.SetFps | src/engine/Animation.java:98-100 | sets the frame rate |
| Animations.Animation.SetFramePositions | src/engine/Animation.java:102-105 | writes exactly indices i and i+1; an out-of-range i writes nothing; when only i + 1 is out of range, index i is written and the call fails |
| Animations.FirstDrawShowsSecondFrame | src/engine/Animation.java:14-65 | because the epoch starts at 0, the first draw of a fresh animation already advances and shows the second frame |
| Animations.PausedDrawIsFrozen | src/engine/Animation.java:53-65 | a paused draw keeps the index and the epoch |
| Animations.FlipTwiceIsIdentity | src/engine/Animation.java:71-76 | calling `flipHorizontally` twice restores both the array and the width |
| Matrices.At | src/engine/Matrix4f.java:173-180 | field mCR sits at one of the 16 listing positions |
| Matrices.IdentityElements | src/engine/Matrix4f.java:59-76 | the listing has 1 on the diagonal and 0 elsewhere |
| Matrices.AxisMapsRangeToUnit | src/engine/Matrix4f.java:78-89 | for hi ≠ lo the orthographic coefficients send lo to -1 and hi to +1 |
| Matrices.Projected | src/engine/Matrix4f.java:78-89 | only m00, m11, m22, m30, m31 and m32 change, to the three scale and three offset coefficients |
| Matrices.Scaled | src/engine/Matrix4f.java:91-97 | only the diagonal m00, m11 and m22 change, each multiplied by its factor |
| Matrices.ScaleIncreased | src/engine/Matrix4f.java:107-113 | only the diagonal changes, each entry increased by x |
| Matrices.WithScale | src/engine/Matrix4f.java:115-121 | only the diagonal changes, overwritten by the arguments |
| Matrices.Translated | src/engine/Matrix4f.java:123-129 | only m30, m31 and m32 change, each increased by its offset |
| Matrices.WithPosition | src/engine/Matrix4f.java:131-137 | only m30, m31 and m32 change, overwritten by the arguments |
| Matrices.ProjectionMapsBoxToCube | src/engine/Matrix4f.java:78-89 | an orthographic projection set up on the identity sends (left, bottom, near) to (-1, -1, -1) and (right, top, far) to (1, 1, 1) |
| Matrices.ScalingsCompose | src/engine/Matrix4f.java:91-97 | two scalings compose by multiplying their factors |
| Matrices.TranslationsCompose | src/engine/Matrix4f.java:123-129 | two translations compose by adding their offsets; translating by an offset and then its negation restores the matrix |
| Matrices.SettersOverride | src/engine/Matrix4f.java:91-137 | `setPosition` discards an earlier translation; `setScale` discards an earlier `scale` or `increaseScale` |
| Matrices.ScaleAndTranslateCommute | src/engine/Matrix4f.java:91-129 | scaling and translation commute |
| Matrices.Matrix4f.FromElements | src/engine/Matrix4f.java:34-54 | the listing is the sixteen arguments in order |
| Matrices.Matrix4f.constructor | src/engine/Matrix4f.java:59-76 | the new matrix is the identity |
| Matrices.Matrix4f.Orthographic | src/engine/Matrix4f.java:78-89 | the new listing is `Projected` of the old one; returns the same object |
| Matrices.Matrix4f.Scale | src/engine/Matrix4f.java:91-97 | the new listing is `Scaled` of the old one; returns the same object |
| Matrices.Matrix4f.ScaleUniform | src/engine/Matrix4f.java:99-105 | `scale(s)` gives the same listing as `scale(s, s, s)`; returns the same object |
| Matrices.Matrix4f.IncreaseScale | src/engine/Matrix4f.java:107-113 | the new listing is `ScaleIncreased` of the old one; returns the same object |
| Matrices.Matrix4f.SetScale | src/engine/Matrix4f.java:115-121 | the new listing is `WithScale` of the old one; returns the same object |
| Matrices.Matrix4f.Translate | src/engine/Matrix4f.java:123-129 | the new listing is `Translated` of the old one; returns the same object |
| Matrices.Matrix4f.SetPosition | src/engine/Matrix4f.java:131-137 | the new listing is `WithPosition` of the old one; returns the same object |
| Matrices.Matrix4f.GetXPosition | src/engine/Matrix4f.java:139-141 | returns m30 |
| Matrices.Matrix4f.GetYPosition | src/engine/Matrix4f.java:143-145 | returns m31 |
| Matrices.Matrix4f.GetZPosition | src/engine/Matrix4f.java:147-149 | returns m32 |
| Matrices.Matrix4f.Set | src/engine/Matrix4f.java:151-168 | all sixteen fields are copied from the other matrix (which may be this one), and the other is unchanged |
| Matrices.Matrix4f.ToFloatArray | src/engine/Matrix4f.java:173-180 | a new array of length 16 listing m00, m01, ..., m33 in column-major order |
| Matrices.TranslateThenBack | src/engine/Matrix4f.java:123-129 | `translate(x, y, z)` followed by `translate(-x, -y, -z)` leaves the matrix as it was |
| Rendering.Corner | src/engine/Renderer.java:76-81 | each of the six indices of a quad names one of its four corners |
| Rendering.QuadIndices | src/engine/Renderer.java:76-81 | the indices written for one quad are six |
| Rendering.IndexArrayFollowsPattern | src/engine/Renderer.java:73-84 | the array for n quads has 6n entries, entry i is 4·(i/6) + (0, 1, 2, 2, 3, 0)[i mod 6], and every entry is below 4n |
| Rendering.QuadIndicesCoverQuad | src/engine/Renderer.java:76-81 | the six indices of quad q name exactly its four vertices 4q .. 4q + 3 |
| Rendering.BuildIndexArray | src/engine/Renderer.java:73-84 | the loop yields MAX_INDEX_COUNT = 6000 entries following the pattern, all below 4·MAX_QUAD_COUNT |
| Rendering.Vertex | src/engine/Renderer.java:101-114 | one vertex is nine floats, 36 bytes |
| Rendering.Quad | src/engine/Renderer.java:153-161 | one quad is four vertices, 144 bytes |
| Rendering.QuadCorners | src/engine/Renderer.java:153-161 | the vertices follow the corners (x, y), (x+w, y), (x+w, y+h), (x, y+h), each with the matching texture corner, the same depth and the same colour |
| Rendering.WindowProjection | src/engine/Renderer.java:58 | the projection for a window has sixteen entries |
| Rendering.WindowProjectionCorners | src/engine/Renderer.java:58 | before any camera move, pixel (0, 0) maps to clip (-1, 1) and pixel (width, height) to (1, -1) |
| Rendering.CameraCentresView | src/engine/Renderer.java:204-218 | after `setCameraPosition(x, y, z)` on the window projection, pixel (x, y) maps to the centre of the view |
| Rendering.Renderer.constructor | src/engine/Renderer.java:50-94 | an empty buffer, the window projection on an identity matrix, the index array of 1000 quads, and nothing drawn |
| Rendering.Renderer.PutFloat | src/engine/Renderer.java:105-113 | `putFloat`: the value goes into the slot at the position, which moves on by 4 bytes; earlier slots are unchanged |
| Rendering.Renderer.AddVertex | src/engine/Renderer.java:101-114 | the pending data grows by exactly the nine floats of the vertex, 36 bytes |
| Rendering.Renderer.AddQuadVertices | src/engine/Renderer.java:153-161 | the pending data grows by exactly the four vertices of the quad, 144 bytes |
| Rendering.Renderer.Flush | src/engine/Renderer.java:171-187 | an empty buffer draws nothing; otherwise one draw of the pending data with the current matrix is recorded and the position resets to 0 |
| Rendering.Renderer.AddQuad | src/engine/Renderer.java:143-166 | appends the quad with texture coordinates divided by the atlas size; exactly when this fills the buffer, the whole batch is drawn and the buffer resets. The position stays a multiple of 144 below capacity, so the buffer never overflows |
| Rendering.Renderer.GetWindowWidth | src/engine/Renderer.java:196-198 | returns the window width |
| Rendering.Renderer.GetWindowHeight | src/engine/Renderer.java:200-202 | returns the window height |
| Rendering.Renderer.SetCameraPosition | src/engine/Renderer.java:215-218 | the matrix translation becomes (x / (w / -2), y / (h / 2), z), and all else is kept |
| Rendering.Renderer.SetWindowSize | src/engine/Renderer.java:227-231 | records the new size and redoes the orthographic projection for it |
| Rendering.ResizeDiscardsCamera | src/engine/Renderer.java:215-231 | resizing overwrites the translation, so a camera position set before it is lost |
| Rendering.FlushComesEveryThousandQuads | src/engine/Renderer.java:136-165 | starting from an empty buffer, k ≤ 1000 calls of `addQuad` draw one batch if k is 1000 and none otherwise, never touch earlier draws, and leave the buffer empty after the thousandth or holding k quads before it |
| Shaders.Sections.Append | src/engine/Shader.java:107-115 | the text goes to exactly the section the mode selects; the others are unchanged |
| Shaders.ReadLine | src/engine/Shader.java:84 | `readLine` yields the next line and advances, or yields none at the end |
| Shaders.Iteration | src/engine/Shader.java:92-116 | one pass of the loop consumes at least one line, or reaches the end; None is the null dereference |
| Shaders.ParseShader | src/engine/Shader.java:84-119 | the loop's result is `Parse` of the lines |
| Shaders.LoopFollowsSplit | src/engine/Shader.java:91-117 | over lines where each empty line or directive is followed by an ordinary line, the loop does exactly what the line-by-line reference does |
| Shaders.IterationAppends | src/engine/Shader.java:92-115 | one pass of the loop body only appends to the shared, vertex and fragment texts |
| Shaders.LoopOnlyAppends | src/engine/Shader.java:91-119 | the loop `Loop` never drops text: a normal end gives the programs of sections extending those at the loop head, so both programs begin with the same shared text |
| Shaders.WellFormedParsesAsIntended | src/engine/Shader.java:84-119 | a well-formed file parses into exactly the intended programs: the shared section followed by the vertex section, and the shared section followed by the fragment section, with lines before any directive in the shared section |
| Shaders.WellFormedPrefixReachesLast | src/engine/Shader.java:91-117 | after a well-formed prefix the loop reaches the extra last line, with the intended mode and sections |
| Shaders.TrailingOpenerFails | src/engine/Shader.java:92-102 | after a well-formed prefix, a last line that is empty, `#shared` or `#vertex` makes the parser dereference the missing line after it |
| Shaders.OpenerAtEnd | src/engine/Shader.java:92-102 | the pass on such a last line fails |
| Shaders.TrailingFragmentAppendsNull | src/engine/Shader.java:103-115 | a trailing `#fragment` appends "null\n" to the fragment section |
| Shaders.FragmentAtEnd | src/engine/Shader.java:103-115 | the pass on a last `#fragment` appends the missing line as "null" |
| Shaders.DirectiveOrderMatters | src/engine/Shader.java:95-106 | a `#fragment` just after `#vertex` still switches, but a `#vertex` just after `#fragment` is kept as fragment text |
| Shaders.SecondEmptyLineIsKept | src/engine/Shader.java:92-94 | only one empty line is skipped per pass: the second of two is kept as an empty text line |

## Left out

- The OpenGL, GLFW and LWJGL calls are not modelled: buffer upload, `glDrawElements`, the uniform upload, the VAO and the memory allocation. A draw is recorded as a `DrawCall` value with only the pending vertex data. The code's `glDrawElements` always draws all MAX_INDEX_COUNT (6000) indices (`src/engine/Renderer.java:182`), so a batch of fewer than 1000 quads also draws the stale vertices left in the buffer beyond the pending data; `DrawCall` does not record those. `freeBufferMemory` and `toFloatBuffer` are left out.
- Shader compile and link, `use`, and the shader path given to the `Renderer` constructor are left out. The constructor only sets up the bookkeeping.
- In `parseShader` the file existence check, the reader and the `IOException` handling are left out; the file is a sequence of lines. The null dereference on a missing line becomes `None` rather than an exception.
- `TextureAtlas` is not part of this model. `addQuad` takes the atlas width and height as two numbers instead.
- `Main`, `GameUtils` and `Noise` are not part of this model.
- The `toString` methods are left out.
- IEEE-754 float rounding, infinities and NaN are not modelled: every float is an exact real.
- Math operations whose result carries no meaning without floats are stated with preconditions that the source does not check:
  - a nonzero divisor for `Matrices.Matrix4f.Orthographic`, `Rendering.Renderer.AddQuad`, `Rendering.Renderer.SetCameraPosition`, `Rendering.Renderer.SetWindowSize` and the `Rendering.Renderer` constructor;
  - `Animations.FrameDue` instead treats fps = 0 as "never due", which is what the float division by zero gives.
- Vectors.Vector2f.MagnitudeSquared: returns x² + y² instead of its square root. Real square roots are not available. `MagnitudeIsUnique` shows the magnitude is determined by that square.
- Animations.Animation.DrawFrame: returns the two texture coordinates of the current frame instead of calling `addQuad` with them; `None` is the out-of-bounds read.
- Animations.Animation.DrawFrame: compares the elapsed milliseconds exactly; the conversion of the `long` difference to `float` is not modelled.
- Physics.PhysicsEntity.Move: takes the reading of `System.nanoTime` as a parameter, and divides the elapsed time exactly; the `long` to `float` conversion is not modelled.
- Physics.PhysicsEntity.Update: requires that no other entity in the array shares a vector object with this entity. The source never shares them, because every entity allocates its own vectors.
- The Java array length bound (at most the largest `int`) appears as a hypothesis in the Animation lemmas rather than as part of the `array` type.
- Rendering.Renderer.PutFloat: the byte buffer is modelled as one slot per four-byte float. How floats are encoded as bytes is not modelled.
