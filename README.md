# Room physics and OBJ unpacking of team-project-cancel-covid

This project models two parts of a WebGL course project.

- **The physics of the rage room.** Three pieces are modelled:
  - the fixed-timestep clock `Simulation.simulate`;
  - the per-step `update_state` of the two scenes. test.js has the test room. covid_rage_room.js has the rage room, with the ceiling, its own debris lifetime and debris size, and no cube top-up;
  - the `Body` operations they use, and the rage room's `drop_object` and `throw_object`.
- **The OBJ unpacker `Shape_From_File.parse_into_mesh`.** It reads the `v`, `vn`, `vt` and `f` statements of a Wavefront OBJ text. It unpacks every distinct face token `v/vt/vn` once, splits quads into two triangles and fills the shape's arrays. `draw` does nothing until that has happened.

## Modules

- **Vectors** (`vectors.dfy`): 3-vectors and the few 4×4 matrix facts the model needs.
- **Bodies** (`bodies.dfy`):
  - the `temporary` tag, where covid_rage_room.js's floor holds the boolean `false`;
  - the two point tests `intersect_cube` and `intersect_sphere`;
  - the sampling collision check;
  - `class Body`, whose fields `emplace`, `advance` and `blend_state` overwrite.
- **Room** (`room.dfy`): one `update_state` step as a function on values, `UpdateSpec`. It is parameterised by the scene, so `TestScene` and `RageRoom` share one definition. It furnishes the room, filters by lifetime and by size, ages the movable bodies, and runs the collision pass with its reflection and shattering.
- **Simulations** (`simulation.dfy`): the clock as a function on values, `FrameClock`. `class Simulation` holds `bodies: seq<Body>` and runs `simulate` and `update_state` step by step, in place. Its methods are proved equal to `FrameClock`, `Run` and `UpdateSpec` on the snapshot of the bodies.
- **ObjText** (`objtext.dfy`): the JavaScript string operations the parser uses, on `seq<char>`:
  - `trim`;
  - `split` on one character;
  - `split(/\s+/)`;
  - `Number`, as far as the index arithmetic can tell numbers apart.
- **ObjMesh** (`objmesh.dfy`):
  - the line loop, the face loop and the token unpacking, as functions and as the methods that run them;
  - `class ShapeFromFile`, with the arrays `parse_into_mesh` fills and the `ready` flag `draw` tests.

## Behaviours modelled as written

The following behaviours of the source look unintended, but they are what the code does. They are modelled as written, and each is stated by a lemma:

- **Texture and normal fallback.** The expression `((vertex[1] - 1) || vertex[0])` falls back to `vertex[0]` whenever the 0-based index is falsy, and `vertex[0]` is not made 0-based. So a texture or normal index of 1, or a missing one, reads slot `i * 2 + c` or `i * 3 + c`, and not slot 0 (`TokenSlots`, `BareTokenSlots`).
- **Faces of five or more corners.** Only the fourth corner is rewound. Such a face emits n + 2 indices: the quad's two triangles, followed by the remaining tokens one by one (`FaceCornersLaws`).
- **The rage room's floor and ceiling.** The floor is tagged `false` and the ceiling `C`. Neither matches a `case` of the collision switch, so both take the `default` branch. That branch bounces only a downward velocity, and a body rising into the ceiling passes through unchanged (`FloorAndCeilingTakeDefault`).

## Model

| member | source | states |
|---|---|---|
| Bodies.SphereWithinCube | test.js:44-50 | With a non-negative margin, every point that `intersect_sphere` accepts (p·p < 1 + margin) is accepted by `intersect_cube` (each coordinate within ±(1 + margin)). |
| Bodies.CornerOnCubeOutsideSphere | test.js:44-50 | The two tests differ: the unit corner (1, 1, 1) passes the cube test and fails the sphere test. |
| Bodies.SomeSampleHits | test.js:110-111 | `points.some(...)` is true exactly when some sample point, carried into the wall's frame, passes the collider's test with its leeway. |
| Bodies.Body.constructor | test.js:38-41 | A new body followed by `emplace` has centre = previous = the origin of its location matrix, the given size, tag, debris flag, duration and velocity, and drawn location = the matrix. |
| Bodies.Body.Emplace | test.js:52-60 | Centre and previous become the location's origin, the drawn location becomes the matrix, and the velocity is replaced; size and duration are kept. |
| Bodies.Body.Advance | test.js:62-70 | The old centre becomes `previous`, and the centre moves by velocity × dt; nothing else changes. |
| Bodies.Body.BlendState | test.js:84-91 | Only the drawn location changes, to the blend of previous and current centre and size at alpha. |
| Bodies.Body.CheckIfColliding | test.js:93-112 | False against itself; otherwise true exactly when some sample point of the collider, in the frame of this body's drawn location, passes the test. |
| Room.RoomWalls | covid_rage_room.js:297-340 | The first call builds one body per scene tag, in order. Each is a wall, drawn at its layout matrix with its centre at that matrix's origin, and settled: not debris, duration 0, zero velocity, and a size that passes the size filter. |
| Room.TopUp | test.js:318-321 | Cubes are pushed until there are six bodies: the existing bodies are a prefix, each new body is the spawned cube of the next draw, and one draw is used per cube. |
| Room.TestFirstCall | test.js:284-321 | On an empty list the test room builds the five walls F, S, N, E, W and tops up with one cube, using six draws. |
| Room.RageRoomFurnish | covid_rage_room.js:297-340 | On an empty list the rage room builds its six walls (`false` floor, S, N, E, W and the C ceiling), all of them walls, using no draw; a non-empty list is untouched. |
| Room.Filter | covid_rage_room.js:343-346 | A filter keeps exactly the bodies that satisfy its predicate, and never adds one. |
| Room.SurvivorsAre | covid_rage_room.js:342-346 | A body survives both filters exactly when it is not debris and younger than 100, or debris and younger than the scene's debris lifetime (10 in test.js, 8 in the rage room), and its size has p·p > 0.001. |
| Room.Aged | covid_rage_room.js:348-355 | A wall is unchanged; a movable body's duration grows by dt and only its vertical velocity changes, by dt × −9.8. |
| Room.AgingKeepsWalls | covid_rage_room.js:348-355 | The aging loop leaves the walls as they were. |
| Room.Reflect | covid_rage_room.js:375-411 | Only the axis of the wall's tag changes. It is scaled by −0.8 exactly when the body moves into the wall, and afterwards it no longer does. |
| Room.FloorAndCeilingTakeDefault | covid_rage_room.js:375-411 | The `false` floor and the C ceiling reflect as the floor code F does, through the switch default: a downward velocity bounces, an upward one passes. |
| Room.Shards | covid_rage_room.js:420-426 | A shattering makes four bodies. Each is a movable debris body with duration 0 and size s / divisor (4 in test.js, 9 in the rage room), drawn at the shattered body's drawn location, and the j-th is launched by draw k + j. |
| Room.Visit | covid_rage_room.js:367-427 | One wall against the i-th body. A wall body or a miss changes nothing. A hit reflects the velocity. A debris body only bounces. The other bodies are untouched, and the list only grows. |
| Room.VisitShatters | covid_rage_room.js:413-426 | A movable body that is not debris and hits the wall shrinks to s / 1.05 and appends exactly the four shards of its old size, using four draws. |
| Room.VisitDecreases | covid_rage_room.js:364-427 | The inner loop terminates although it appends to the list it walks: the intact bodies still ahead decrease with every visit. |
| Room.CollisionPassExtends | covid_rage_room.js:362-429 | The collision pass changes only velocities and sizes, and it only appends. A wall is untouched, a debris body keeps its size, and every appended body is a fresh debris shard. |
| Room.UpdateKeepsWalls | covid_rage_room.js:292-430 | `update_state` never removes or changes a wall: afterwards the walls are the room's walls on the first call, and the same walls otherwise. |
| Simulations.CaughtUpMovesTime | test.js:136-146 | Each step moves t by sign × dt and the accumulator by the opposite amount, so t + accumulator is conserved; with sign 0 nothing changes. |
| Simulations.FrameClockLaws | test.js:125-152 | One frame conserves t + accumulator plus the capped frame time, min(frame, 0.1). t moves by dt per step in the direction of the frame. A zero frame changes nothing. A forward frame takes at most two steps. The blend factor alpha lies in (−1, 1). |
| Simulations.RunKeepsWallsSettled | test.js:136-146 | However many steps run, every wall stays at rest. |
| Simulations.Simulation.constructor | test.js:120-123 | A new simulation has accumulator 0, time scale 1, t 0, no bodies and no steps taken. |
| Simulations.Simulation.Simulate | test.js:125-152 | The clock after a frame is `FrameClock` of the old clock at time_scale × frame_time. The bodies are `Run` over exactly the steps taken, then blended at accumulator / dt. |
| Simulations.Simulation.CatchUp | test.js:136-146 | The while loop leaves the clock at `CaughtUp` and the bodies at `Run` over the steps it took. |
| Simulations.Simulation.AdvanceBodies | test.js:139-140 | Every body advances by dt, and the list itself is unchanged. |
| Simulations.Simulation.BlendBodies | test.js:151 | Every body's drawn location is blended at alpha. |
| Simulations.Simulation.UpdateState | covid_rage_room.js:292-430 | One step in place equals `UpdateSpec` on the snapshot: furnish, both filters, aging, and the collision pass. test.js:279-410 is the same step with the test scene. |
| Simulations.Simulation.Populate | test.js:284-321 | The room on the first call, then the top-up, equal `Furnish`. |
| Simulations.Simulation.Cull | covid_rage_room.js:342-346 | The two filters leave exactly `Survivors` of the old bodies, in order, and create no body. |
| Simulations.Simulation.AgeBodies | covid_rage_room.js:348-355 | The aging loop equals `AgeAll` on the snapshot and changes no list. |
| Simulations.Simulation.Collide | covid_rage_room.js:358-429 | The walls are taken before the pass. The pass over them equals `CollisionPass` on the snapshot, and the bodies stay distinct objects. |
| Simulations.Simulation.AppendDebris | covid_rage_room.js:420-426 | Four fresh debris bodies are pushed, equal to `Shards`, and four draws are used. |
| Simulations.Simulation.DropObject | covid_rage_room.js:445-446 | One 2×2×2 movable body that is not debris is appended at the location, launched by the next draw. |
| Simulations.Simulation.ThrowObject | covid_rage_room.js:482-484 | One 1×1×1 movable body is appended at the location, with the given direction as its velocity; no draw is used. |
| ObjText.TrimIdempotent | pompiliu_test.js:107 | Trimming twice is trimming once. |
| ObjText.TrimBetween | pompiliu_test.js:107 | Trim removes exactly the whitespace around the text between. |
| ObjText.JoinSplit | pompiliu_test.js:101 | Joining the pieces of `split(sep)` with sep gives the string back. |
| ObjText.SplitJoin | pompiliu_test.js:123 | Splitting a join of separator-free pieces gives the pieces back. |
| ObjText.WordsAfterKeyword | pompiliu_test.js:108-109 | On a keyword followed by whitespace, `split(/\s+/)` gives the keyword first and then the pieces of the rest. |
| ObjText.WordsOfTrimmed | pompiliu_test.js:107-108 | A trimmed non-empty line splits into non-empty pieces. |
| ObjText.NumberOfText | pompiliu_test.js:125-135 | `Number` reads the decimal text of n, and of −n, back as n and −n. |
| ObjText.NumberOfDecimal | pompiliu_test.js:125-135 | `Number("n.f")` is whole when f is all zeros, and n and a half when f is 5 followed by zeros. |
| ObjText.DecimalMeaning | pompiliu_test.js:125-135 | The three non-NaN outcomes of a decimal fraction (whole, a half, other) match its value being 0, 0.5 or anything else. |
| ObjMesh.ClassifiedElements | pompiliu_test.js:107-113 | For a `v`, `vn`, `vt` or `f` line, the piece `shift()` removes is the keyword. The elements are the whitespace-separated tokens after it, none of them empty. |
| ObjMesh.TokenNumbers | pompiliu_test.js:123 | The token i/j/k splits at '/' into its three parts, and `Number` reads them back as i, j and k. |
| ObjMesh.TokenSlots | pompiliu_test.js:125-135 | For i/j/k the position is read at (i−1)·3+c. The texture is at (j−1)·2+c and the normal at (k−1)·3+c, except that an index of 1 falls back to vertex[0] itself: i·2+c and i·3+c. |
| ObjMesh.BareTokenSlots | pompiliu_test.js:125-135 | For a bare token i, the missing texture and normal indices fall back to vertex[0]: slots i·2+c and i·3+c. |
| ObjMesh.DecimalSlots | pompiliu_test.js:125-135 | A position index that is not whole reads nothing, while a texture index of w and a half reads the whole slot 2w−1+c. |
| ObjMesh.UnpackTokenLaws | pompiliu_test.js:119-140 | A known token pushes its index and unpacks nothing. A new token pushes three position entries, three normal entries and, once textures are known, two texture entries, and takes the running index, which grows by one. No dictionary entry changes, and the invariant is kept. |
| ObjMesh.UnpackAllLaws | pompiliu_test.js:116-142 | A run of tokens enters exactly its tokens and changes no entry. For each token, in order, it emits the index the dictionary holds for it. |
| ObjMesh.FaceCornersLaws | pompiliu_test.js:115-142 | A triangle is visited 0 1 2 and a quad 0 1 2 2 3 0. An n-token face emits n + 2 indices and visits every token. |
| ObjMesh.CornerTokensCover | pompiliu_test.js:115-142 | The face loop visits every token of the face, and no other. |
| ObjMesh.FaceStepLaws | pompiliu_test.js:114-142 | A face enters all of its tokens and emits one index per corner, each the index of the token at that corner. The invariant is kept. |
| ObjMesh.UnpackFace | pompiliu_test.js:115-142 | The loop, with its rewind of j for quads, equals the corner-order fold `FaceStep`. |
| ObjMesh.ReadLinesLaws | pompiliu_test.js:106-144 | After any prefix of the lines, the dictionary holds exactly the face tokens seen. The running index is their number, with three position and three normal entries and at most two texture entries per token. |
| ObjMesh.ReadLinesDistinct | pompiliu_test.js:106-144 | Distinct face tokens are given distinct indices. |
| ObjMesh.Unpack | pompiliu_test.js:106-144 | The line loop leaves the three tables and `unpacked` at `ReadLines` of the lines. |
| ObjMesh.UnpackLine | pompiliu_test.js:107-143 | One turn appends a `v`, `vn` or `vt` line's elements to its table, unpacks an `f` line, and skips any other line. |
| ObjMesh.MeshShape | pompiliu_test.js:145-153 | There is one position, normal and texture coordinate per distinct face token. Position and normal j are the entries unpacked for token j, and every index is below the number of positions. |
| ObjMesh.ShapeFromFile.constructor | pompiliu_test.js:158-163 | The shape starts with empty arrays and not ready. |
| ObjMesh.ShapeFromFile.FillArrays | pompiliu_test.js:145-153 | The array loop appends `Positions`, `Normals` and `TexCoords` of `unpacked` and sets the index list. |
| ObjMesh.ShapeFromFile.ParseIntoMesh | pompiliu_test.js:94-157 | Afterwards the shape is ready. The normals, texture coordinates and indices are those of the whole file. The positions are those of the file after `normalize`. |
| ObjMesh.ShapeFromFile.Draw | pompiliu_test.js:158-163 | The shape is drawn exactly when parsing has set `ready`. |

## Left out

- Simulations.Simulation.Simulate: IEEE-754 doubles are modelled as exact `real`. Rounding in `t`, in the accumulator and in `accumulator / dt` is not modelled. Neither are the non-finite frame times. With a NaN `frame_time`, `Math.min` gives NaN: the accumulator becomes NaN, the `while` test is false, and alpha is NaN. A +∞ frame is capped to 0.1 like any other large frame. A −∞ frame is dealt with in the `CatchUp` line.
- Simulations.Simulation.CatchUp: it terminates on every real input, but the source loop at test.js:136-146 does not always return. Negative frames are not capped, so a `frame_time` of −∞ leaves the accumulator at −∞, `Math.abs` stays above dt, and the loop never ends. A finite negative frame below about −2^53 · dt never ends either: there, `time_accumulator -= Math.sign(frame_time) * this.dt` no longer changes the rounded accumulator.
- Room.UpdateSpec: the same holds for velocities, sizes and durations. They are exact reals, so `size.times(1/1.05)` and the 0.001 threshold are compared without rounding.
- Bodies.Body.BlendState: rotation, `angular_velocity`, `spin_axis` and `blend_rotation` are not modelled. The drawn location is an input function of the previous and current centre, the size and alpha. So two bodies that differ only in rotation get the same collision verdict in the model.
- Bodies.Body.CheckIfColliding: `Mat4.inverse` and the product `this.inverse.times(b.drawn_location)` are toolkit matrix arithmetic. They are the input `toLocal`. The wall layouts of the first call (products of rotations, scalings and translations) are likewise the input `layout`.
- Room.UpdateSpec: `Math.random`, `randomized` and `normalized` become the input stream `random`, with the cursor `draws`. Only the quantities the model keeps are drawn from it: a wall's height, a cube's placement and a launch velocity. The draws the source makes for a body's spin axis and angular velocity are not counted.
- Simulations.Simulation.Simulate: `time_scale` is read as a field. Its changes by the buttons of `make_control_panel` (multiply or divide by 5) are not modelled, nor is any other user interface, drawing or camera code.
- Simulations.Simulation.DropObject: the location matrix computed from the camera and projection matrices is an input. So is the direction in `ThrowObject`. Its `console.log` calls are left out.
- ObjMesh.ShapeFromFile.ParseIntoMesh: `normalize_positions(false)` belongs to the graphics toolkit's `Shape`, which is not part of this model. It is the parameter `normalize`, and the contract says only that the final positions are `normalize` of the filled ones.
- ObjMesh.ShapeFromFile.Draw: `super.draw`, the WebGL drawing, is not modelled. The method returns whether it would be called.
- ObjMesh.ShapeFromFile.constructor: `load_file`, its `fetch` and its error path (the promise rejected on a failed response, rethrown as "OBJ file loader: ..."), are I/O. They are left out, and the parser is given the file's text.
- ObjMesh.UnpackToken: `+verts[...]` converts a coordinate text to a number. The model keeps the text itself (`Coord(text)`), and `Undefined` for a read outside the array, which gives NaN in the source. So two spellings of one number stay different entries.
- ObjMesh.UnpackToken: the dictionary is a `map`. JavaScript's `in` on the plain object `hashindices` also answers true for inherited keys such as "toString" or "constructor". For such a face token the source pushes a function as an index, and the model treats the token as new.
- ObjText.ToNumber: only the spellings the face tokens use are told apart. These are optional whitespace and sign, decimal digits, and an optional point with fraction digits ("1", "-2", "1.0", "1.", ".5", "2.50"). The result says whether the value is whole, a whole number and a half, some other fraction, or NaN. Exponents ("1e0"), "0x"/"0o"/"0b" prefixes and "Infinity" read as NaN in the model, although JavaScript's `Number` gives them a value. Number's rounding of very long digit strings to a double is not modelled.
- The other scenes of these files (`Test.display`, `Rage_Room.display`, the shapes, materials and shaders), aurora_test.js and covid-rage-room.js are not part of this model.
