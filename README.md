# D3D11 demo core in Dafny

This project models the state-and-rules core of a small Direct3D 11 demo:

- **Transform**: a position, a pitch/yaw/roll rotation and a scale. Every mutator
  recomputes the world matrix (`Scaling * Rotation * Translation`) and its
  inverse-transpose before it returns.
- **Camera**: an owned Transform plus cached view and projection matrices. Its
  per-frame `Update` does three things in order:
  - one relative move per held key;
  - an additive mouse look whose pitch is then clamped to [-pi/2, pi/2];
  - a view recompute.
- **Entity**: a shared mesh handle plus an owned Transform. `Draw` does four
  things in order:
  - assembles the four-field `VertexShaderData` record;
  - discard-writes the record into the one shared constant buffer;
  - binds that buffer at vertex-stage slot 0;
  - issues one mesh draw.
- **Game** (scene glue):
  - the constant-buffer size is rounded up to a multiple of 16;
  - there is a fixed list of four cameras and an active index;
  - resize touches the active camera only;
  - each frame updates entity 0 and the active camera;
  - each frame draws every entity in list order.

Modules, one per file:
- `DxMath` (`dx_math.dfy`): XMFLOAT3/XMFLOAT4, the constants, and symbolic matrices.
- `Transforms` (`transform.dfy`).
- `Cameras` (`camera.dfy`).
- `BufferStructs` (`buffer_structs.dfy`): the record and its byte image.
- `Graphics` (`graphics.dfy`): mesh handles, the constant buffer, and the context's slot 0 plus its draw log.
- `Entities` (`entity.dfy`).
- `Scene` (`game.dfy`).

How things are represented:
- **Scalars are reals.**
- **Matrices are symbolic.** Each DirectXMath builder is a constructor of `DxMath.Matrix`. An equality proved between two matrices therefore holds of the evaluated matrices. No lemma claims two matrices differ.
- **Classes the source mutates are Dafny classes.** Transform, Camera, Entity, Mesh, the constant buffer, the context and Game are classes whose methods state the whole new state.
- **The constant buffer's contents are a sequence of 4-byte cells.** `BufferStructs.Flatten` is the image `memcpy` copies. `BufferStructs.Unflatten` decodes it back.
- **Draws are a log.** The context keeps one `DrawCall` per mesh draw. Each entry records the mesh and the image bound at slot 0 at that moment, which is what that draw's vertex shader reads.

Two facts of the code worth knowing:
- **Record size.** The record is 4 + 3 × 16 = 52 floats = 208 bytes. 208 is already a multiple of 16, so the rounding leaves it at 208 (`Scene.RecordSizeRounded`).
- **Camera buttons.** The third and fourth camera buttons are labelled "[3]" and "[4]" but select indices 2 and 3 (Game.cpp:420-421). `Scene.ButtonIndex` follows the assignments.

## Model

| member | source | states |
|---|---|---|
| Transforms.Transform.constructor | Transform.cpp:3-11 | position (0,0,0), rotation (0,0,0), scale (1,1,1), both matrices the identity; the transform is valid |
| Transforms.Transform.SetPosition | Transform.cpp:17-27 | position becomes v; rotation and scale unchanged; both matrices recomputed from the new fields |
| Transforms.Transform.SetRotation | Transform.cpp:29-33 | rotation becomes (pitch, yaw, roll); position and scale unchanged; matrices recomputed |
| Transforms.Transform.SetScale | Transform.cpp:35-45 | scale becomes v; position and rotation unchanged; matrices recomputed |
| Transforms.Transform.GetPosition | Transform.cpp:47-50 | returns the stored position and changes nothing |
| Transforms.Transform.GetPitchYawRoll | Transform.cpp:52-55 | returns the stored rotation and changes nothing |
| Transforms.Transform.GetScale | Transform.cpp:57-60 | returns the stored scale and changes nothing |
| Transforms.Transform.GetWorldMatrix | Transform.cpp:62-65 | returns the stored world matrix; on a valid transform it is the world matrix of the current pose, or the identity for the untouched identity pose |
| Transforms.Transform.GetWorldInverseTransposeMatrix | Transform.cpp:67-70 | returns the stored inverse-transpose; on a valid transform it is Inverse(Transpose(world)) of the current pose, or the identity for the untouched identity pose |
| Transforms.Transform.MoveAbsolute | Transform.cpp:72-86 | assigns rather than offsets: the new state is exactly what SetPosition(v) gives, whatever the old position |
| Transforms.Transform.MoveRelative | Camera.cpp:53-58 | position becomes old position plus the offset rotated by the old orientation; rotation and scale unchanged; matrices recomputed |
| Transforms.Transform.Rotate | Transform.cpp:88-102 | rotation becomes old rotation plus d lane by lane, with no clamping or wrapping; position and scale unchanged |
| Transforms.Transform.Scale | Transform.cpp:104-119 | each scale lane is multiplied by its factor; position and rotation unchanged |
| Transforms.Transform.UpdateWorld | Transform.cpp:121-131 | world = Multiply(Multiply(Scaling(scale), RotationRollPitchYaw(rotation)), Translation(position)) and inverse-transpose = Inverse(Transpose(world)) |
| Transforms.RotateAdds | Transform.cpp:88-102 | two rotates compose into one rotate by the sum; a zero delta is the identity; position and scale are untouched |
| Transforms.RotateUndo | Transform.cpp:88-102 | Rotate(d) then Rotate(-d) restores the pose |
| Transforms.ScaleMultiplies | Transform.cpp:104-119 | two scales compose into one scale by the lane-wise product; (1,1,1) is the identity; position and rotation are untouched |
| Transforms.ScaleUndo | Transform.cpp:104-119 | a scale by non-zero factors is undone by the reciprocals |
| Transforms.DoubleThenHalve | Transform.cpp:35-45 | SetScale(2,2,2) then Scale(0.5,0.5,0.5) gives the same pose and world matrix as SetScale(1,1,1) |
| Cameras.ClampPitch | Camera.cpp:70-78 | the result lies in [-pi/2, pi/2]; it is the input when the input is in range; it is pi/2 above and -pi/2 below |
| Cameras.Look | Camera.cpp:61-79 | button up: rotation unchanged; button down: yaw gains xDelta*mouseSpeed*dt, pitch is clamp(pitch + yDelta*mouseSpeed*dt), roll unchanged |
| Cameras.Camera.constructor | Camera.cpp:7-16 | the transform holds the given position and the orientation converted from degrees to radians, at scale 1; the speeds and clip values are stored; projection and view are computed from them |
| Cameras.Camera.GetViewMatrix | Camera.cpp:22-25 | returns the cached view matrix |
| Cameras.Camera.GetProjMatrix | Camera.cpp:27-30 | returns the cached projection matrix |
| Cameras.Camera.UpdateProjectionMatrix | Camera.cpp:32-35 | projection becomes PerspectiveFovLH(fov, a, nearClip, farClip); isOrtho plays no part and the aspectRatio member keeps its value |
| Cameras.Camera.UpdateViewMatrix | Camera.cpp:37-48 | view becomes LookToLH(position, forward(rotation), (0,1,0)) from the transform's current state |
| Cameras.Camera.MoveOnKey | Camera.cpp:53-58 | one MoveRelative by the offset when the key is held, no change otherwise |
| Cameras.Camera.MoveOnKeys | Camera.cpp:53-58 | the position after the W, S, A, D, Space, X checks in that order; rotation and scale unchanged; validity preserved |
| Cameras.Camera.MouseLook | Camera.cpp:61-79 | the rotation becomes Look of the old rotation; position and scale unchanged; validity preserved |
| Cameras.Camera.Update | Camera.cpp:50-82 | the new pose is Step of the old pose (key moves, then look); the view always matches the final pose; projection unchanged |
| Cameras.TravelSnoc | Camera.cpp:53-58 | one more move adds exactly its rotated offset to the end position |
| Cameras.MoveDone | Camera.cpp:53-58 | a key check extends the move list by that key's offset exactly when held, and the position follows |
| Cameras.KeyMovesTravel | Camera.cpp:53-58 | the six conditional moves are the travel along Moves(input, step), in order |
| Cameras.TravelIsDisplacement | Camera.cpp:53-58 | the end position is the start plus the sum of the rotated offsets |
| Cameras.DisplacementAppend | Camera.cpp:53-58 | the displacement of a concatenation is the sum of the displacements |
| Cameras.TravelOrderIrrelevant | Camera.cpp:53-58 | reordering the moves does not change where the camera ends up |
| Cameras.MovesCount | Camera.cpp:53-58 | exactly one move per held movement key |
| Cameras.MovesOnAxes | Camera.cpp:53-58 | every move has length moveSpeed*dt along a single local axis |
| Cameras.MovesMembers | Camera.cpp:53-58 | an offset is in the move list iff it is the offset of a held key |
| Cameras.MovesPerKey | Camera.cpp:53-58 | for a non-zero step, W +z, S -z, A -x, D +x, Space +y, X -y: each key's offset is present iff that key is held |
| Cameras.IdleStep | Camera.cpp:50-82 | with no key held and the button up, Update leaves the pose unchanged |
| Cameras.PitchPinnedAtTop | Camera.cpp:61-79 | starting at pitch pi/2, frames pushing upward keep the pitch at exactly pi/2 while yaw accumulates the sum of the deltas and roll is unchanged |
| Cameras.PitchStaysClamped | Camera.cpp:70-78 | after any run of frames whose last frame has the button down, pitch is within [-pi/2, pi/2] |
| Cameras.PitchStaysInRange | Camera.cpp:61-79 | a pitch starting inside [-pi/2, pi/2] stays inside after any run of frames, button up or down |
| BufferStructs.Float4Cells | BufferStructs.h:7 | an XMFLOAT4 is four scalar cells |
| BufferStructs.MatrixCells | BufferStructs.h:8-10 | an XMFLOAT4X4 is sixteen cells, entry (row, col) at 4*row+col (row-major) |
| BufferStructs.Field | BufferStructs.h:6-11 | field i has 4, 16, 16, 16 cells for i = 0..3 |
| BufferStructs.Flatten | BufferStructs.h:6-11 | the image of a record is 52 floats = 208 bytes |
| BufferStructs.ReadFloat4 | BufferStructs.h:7 | decodes four cells iff they are all scalars, and the decoded value re-encodes to them |
| BufferStructs.ReadMatrix | BufferStructs.h:8-10 | a decoded matrix re-encodes to exactly the sixteen cells read |
| BufferStructs.Unflatten | BufferStructs.h:6-11 | a decoded record re-encodes to exactly the image read |
| BufferStructs.ReadMatrixCells | BufferStructs.h:8-10 | reading a matrix's own image gives the matrix back |
| BufferStructs.FlattenSlices | BufferStructs.h:6-11 | the image splits back into colorTint, world, view, projection at float indices 4, 20, 36 |
| BufferStructs.UnflattenFlatten | BufferStructs.h:6-11 | decoding a record's image gives the record back |
| BufferStructs.FlattenInjective | BufferStructs.h:6-11 | two records with the same image are the same record |
| BufferStructs.Layout | BufferStructs.h:6-11 | fields at byte offsets 0, 16, 80, 144 with no padding, total 208, each 16-byte aligned |
| BufferStructs.FieldAtOffset | BufferStructs.h:6-11 | field i of the image sits exactly at its byte offset |
| Graphics.Mesh.constructor | Mesh.h:10 | the handle carries the given name and vertex and index counts |
| Graphics.Mesh.GetName | Mesh.h:18 | returns the mesh's name |
| Graphics.Mesh.GetVertexCount | Mesh.h:19 | returns the vertex count |
| Graphics.Mesh.GetIndexCount | Mesh.h:17 | returns the index count |
| Graphics.Mesh.DrawMesh | Mesh.h:20 | appends exactly one draw of this mesh, seeing the image bound at slot 0 |
| Graphics.ConstantBuffer.constructor | Game.cpp:62-68 | a buffer of the given byte width |
| Graphics.Context.WriteDiscard | Entity.cpp:35-40 | the buffer holds exactly the record's image, whatever it held before |
| Graphics.Context.VSSetConstantBuffer | Entity.cpp:43 | slot 0 holds the buffer |
| Entities.Entity.constructor | Entity.cpp:4-7 | the entity keeps the given mesh handle and owns a fresh transform in its initial state |
| Entities.Entity.GetMesh | Entity.cpp:13-16 | returns the same shared mesh handle |
| Entities.Entity.GetTransform | Entity.cpp:18-21 | returns the entity's own transform, the one Draw reads |
| Entities.Entity.Draw | Entity.cpp:23-49 | the buffer holds the record (tint (1,0.5,0.5,1), the transform's world matrix, the camera's view and projection); slot 0 holds the buffer; exactly one draw is appended, seeing that image; transform and camera are not modified |
| Entities.DrawnWorld | Entity.cpp:26-31 | the world matrix drawn is the current pose's world matrix, or the identity while the transform is as constructed |
| Entities.DrawSeesRecord | Entity.cpp:29-45 | an entity's draw is of its mesh and the image it sees decodes to exactly its record |
| Scene.RoundUp16 | Game.cpp:59-60 | in 32-bit arithmetic the result is a multiple of 16; without wrap it is at least size and below size+16, and equals size on multiples of 16; it wraps to 0 above 0xFFFFFFF0 |
| Scene.RecordSizeRounded | Game.cpp:59-60 | rounding 208 leaves 208 |
| Scene.ButtonIndex | Game.cpp:418-421 | each camera button selects an index in {0,1,2,3} |
| Scene.FrameDraws | Game.cpp:494-496 | one draw per entity |
| Scene.PlacedEntity | Game.cpp:293-303 | a fresh entity on the mesh, with its own fresh transform placed at the position |
| Scene.CreateEntities | Game.cpp:293-309 | five entities over triangle, quad, boat, boat, boat at the given positions, each entity and its transform a new object, no two sharing a transform |
| Scene.MakeCamera | Game.cpp:74-81 | a fresh camera with a fresh, valid transform, built from the setup: its position, its orientation converted to radians at scale 1, its speeds, fov, clip planes and isOrtho, the projection for the aspect ratio and the view from its pose |
| Scene.PushCamera | Game.cpp:74-81 | the list grows by exactly one new camera with a new transform, built from the next setup, and stays pairwise distinct in transforms |
| Scene.CreateCameras | Game.cpp:74-108 | four cameras, camera i built from setup i, each camera and its valid transform new objects, no two sharing a transform |
| Scene.CameraTable | Game.cpp:74-108 | camera 0 is at (0,0,-5) with no rotation and a pi/4 perspective; cameras 1 and 3 have fov pi/2 and camera 2 pi/4; all move at 5, turn at 1, clip at 0.001 and 1000, and are not orthographic |
| Scene.Game.constructor | Game.h:14 | empty lists, no camera, no buffer |
| Scene.Game.CreateGeometry | Game.cpp:283-311 | three meshes (Triangle 3/3, Quad 4/6, Boat 6/12) and five entities appended; entities 3 to 5 share the one Boat handle; the appended meshes, entities and entity transforms are new objects; earlier list contents kept |
| Scene.Game.Initialize | Game.cpp:26-110 | establishes the scene invariant and the geometry; a fresh 208-byte buffer; the tint written; exactly four cameras, camera i built from setup i of the table; camera = cameraList[activeCamera]; every mesh, entity, camera and transform it holds is a new object |
| Scene.Game.CreateBufferAndCameras | Game.cpp:57-110 | the buffer sized by the rounding, the tint, four cameras pushed with camera i built from setup i, and the active one selected; the cameras and their transforms are new objects; the scene invariant holds |
| Scene.Game.CreateConstantBuffer | Game.cpp:57-72 | a new buffer whose byte width is the record size rounded up to 16 (208), and vsData's tint set to (1, 0.5, 0.5, 1) with the other fields kept |
| Scene.Game.CreateCameraList | Game.cpp:74-110 | four cameras pushed onto the empty list, camera i built from setup i, each camera and its transform a new object; `camera` is the active one and the scene invariant holds |
| Scene.Game.StoreCameras | Game.cpp:74-110 | the list after the four pushes is exactly the built cameras in order, `camera` is the active one, and their transforms stay valid and distinct |
| Scene.Game.PressCameraButton | Game.cpp:418-421 | activeCamera becomes the button's index and camera = cameraList[activeCamera]; nothing else changes and the invariant is kept |
| Scene.Game.OnResize | Game.cpp:318-324 | with a camera, only its projection is rebuilt for the new aspect ratio; no other camera's projection changes |
| Scene.Game.Update | Game.cpp:445-457 | entity 0's roll gains deltaTime, its pitch and yaw unchanged; the active camera takes one Step; other entities and cameras keep their poses; the invariant is kept |
| Scene.Game.Draw | Game.cpp:464-496 | the draw log grows by exactly FrameDraws(entities, camera), one draw per entity in index order; slot 0 ends holding the shared buffer |
| Scene.DrawEntities | Game.cpp:494-496 | the entity loop appends FrameDraws, in order |
| Scene.DrawNext | Game.cpp:494-496 | one pass of the loop: after entities 0 .. i - 1 have drawn in order, entity i's draw follows them, and slot 0 holds the buffer |
| Scene.FrameDrawsFrom | Game.cpp:494-496 | a log extended by one draw per entity in order is the old log plus FrameDraws |
| Scene.FrameDrawsAll | Game.cpp:494-496 | every draw of a frame is its entity's draw |
| Scene.FrameDrawsAt | Game.cpp:494-496 | the k-th draw of a frame is entity k's draw |
| Scene.FrameDrawSeesOwnRecord | Game.cpp:479-496 | whatever the pre-loop write left in the buffer, the k-th draw is entity k's mesh and sees an image that decodes to exactly entity k's record |

## Left out

- Direct3D device work is not modelled: shader loading, input layout, buffer creation on the device, clears, Present and ImGui rendering. Map, memcpy, Unmap and VSSetConstantBuffers are modelled only by their effect on the buffer and slot 0. A failing Map is not modelled.
- ImGui (frame setup, the inspector, the sliders) is not modelled. The slider writes are plain calls to the Transform setters, which are modelled. Only the four camera buttons are modelled, by `Scene.Game.PressCameraButton`.
- Input polling and `Window::Quit` are not modelled. A frame's key and mouse state is an `InputState` parameter. The window's width over height is an `aspectRatio` parameter and is assumed well defined.
- The quaternion work behind `MoveRelative` and `GetFoward` is not modelled, because their definitions are not part of this model. Both are parameters, `rotateOffset` and `forward` of `Transforms.OrientationOps`. Nothing is claimed about them.
- Transforms.Transform.MoveRelative: its effect is assumed, not read from code, since Transform.cpp does not define it. The model adds to the position an offset that depends only on the current rotation and the local offset, and leaves rotation and scale unchanged. `Cameras.TravelOrderIrrelevant` and the other travel lemmas rely on that additive, position-only shape.
- DirectXMath arithmetic is not modelled: trigonometry, perspective and look-to construction, inverse and transpose. The matrices are symbolic, so the model states which matrix expression is stored, not its numbers.
- Floats are reals; rounding, NaN and overflow are not modelled. The one integer computation, the size rounding, is modelled in 32-bit unsigned arithmetic.
- Mesh.cpp is not part of this model. A mesh is a handle with a name and two counts. Its GPU buffers are not modelled, and `DrawMesh` is one logged draw that sees slot 0.
- `Game.h` does not declare `camera`, `cameraList` or `activeCamera`. They are fields of `Scene.Game`. The initial `activeCamera` and `vsData` are constructor parameters, and `Initialize` requires the index to be in 0..3.
- Scene.Game.Draw: does not state the buffer's final contents. It states the draw log and slot 0, and each draw's image is given by `Scene.FrameDrawSeesOwnRecord`.
- Scene.Game.Initialize: is split into `CreateGeometry` and `CreateBufferAndCameras`, in source order, and the latter into `CreateConstantBuffer` and `CreateCameraList`. The camera list is built as a value by `Scene.CreateCameras` (four `Scene.PushCamera` steps, one per `push_back`) and then stored in `cameraList` by `StoreCameras`.
- Scene.Game.Draw: the entity loop is `Scene.DrawEntities`, and each pass of it is `Scene.DrawNext`.
- Cameras.Camera.Update: the key checks and the mouse look are `MoveOnKeys` and `MouseLook`, called in source order.
- Entities.Entity.Draw: calls `GetWorldMatrix` twice, as the source does. The first result is unused.
