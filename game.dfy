/**
 * The scene glue of Game: constant-buffer sizing, the fixed list of four
 * cameras and which one is active, resize, the per-frame update of entity 0
 * and the active camera, and the per-frame draw of every entity in list order
 * through one shared constant buffer.
 */
module Scene {
  import opened DxMath
  import opened Transforms
  import opened Cameras
  import opened BufferStructs
  import opened Graphics
  import opened Entities

  /** C++ `unsigned int` */
  newtype uint32 = x: int | 0 <= x < 0x1_0000_0000

  /**
   * `(size + 15) / 16 * 16` evaluated in 32-bit unsigned arithmetic: the
   * next multiple of 16, unless `size + 15` wraps past 2^32, in which case
   * the result is 0.
   */
  function RoundUp16(size: uint32): (r: uint32)
    ensures r as int % 16 == 0
    ensures size as int <= 0xFFFF_FFF0 ==> size as int <= r as int < size as int + 16
    ensures size as int % 16 == 0 ==> r == size
    ensures size as int > 0xFFFF_FFF0 ==> r == 0
  {
    var sum := (size as int + 15) % 0x1_0000_0000;
    (sum / 16 * 16) as uint32
  }

  /** The arguments of one of the four Camera constructions, before the aspect ratio. */
  datatype CameraSetup = CameraSetup(
    position: Float3, orientationDegrees: Float3, moveSpeed: real, mouseSpeed: real,
    fov: real, nearClip: real, farClip: real, isOrtho: bool)

  /** The four cameras, in the order they are pushed. */
  const CameraSetups: seq<CameraSetup> := [
    CameraSetup(Float3(0.0, 0.0, -5.0), Float3(0.0, 0.0, 0.0), 5.0, 1.0, PiDiv4, 0.001, 1000.0, false),
    CameraSetup(Float3(3.0, 6.0, -5.0), Float3(9.0, 1.0, 0.0), 5.0, 1.0, PiDiv2, 0.001, 1000.0, false),
    CameraSetup(Float3(1.0, 2.0, -5.0), Float3(5.0, -2.0, 0.0), 5.0, 1.0, PiDiv4, 0.001, 1000.0, false),
    CameraSetup(Float3(-1.0, 4.0, -5.0), Float3(-2.0, -1.0, 0.0), 5.0, 1.0, PiDiv2, 0.001, 1000.0, false)
  ]

  /** A camera as its constructor leaves it for the given setup and aspect ratio. */
  ghost predicate BuiltFrom(c: Camera, s: CameraSetup, aspectRatio: real, ops: OrientationOps)
    reads c, c.transform
  {
    var degrees := s.orientationDegrees;
    && c.moveSpeed == s.moveSpeed && c.mouseSpeed == s.mouseSpeed
    && c.fov == s.fov && c.nearClip == s.nearClip && c.farClip == s.farClip && c.isOrtho == s.isOrtho
    && c.transform.State() == Pose(s.position,
         Float3(ConvertToRadians(degrees.x), ConvertToRadians(degrees.y), ConvertToRadians(degrees.z)), One3)
    && c.projectionMatrix == PerspectiveFovLH(s.fov, aspectRatio, s.nearClip, s.farClip)
    && c.viewMatrix == View(c.transform.position, c.transform.rotation, ops)
  }

  /** Where CreateGeometry places the five entities. */
  const EntityPositions: seq<Float3> := [
    Float3(0.0, 0.0, 0.0), Float3(0.0, 0.0, 0.0), Float3(0.0, 0.0, 0.0),
    Float3(-0.2, 0.6, 0.0), Float3(-0.09, 0.9, 0.0)
  ]

  /** Which mesh of meshList each entity draws: triangle, quad, then the boat three times. */
  const EntityMeshes: seq<nat> := [0, 1, 2, 2, 2]

  /** The four camera buttons of the inspector. */
  datatype CameraButton = Camera1 | Camera2 | Camera3 | Camera4

  /** The camera index each button selects. */
  function ButtonIndex(b: CameraButton): (r: int)
    ensures 0 <= r < 4
  {
    match b
    case Camera1 => 0
    case Camera2 => 1
    case Camera3 => 2
    case Camera4 => 3
  }

  /** The draws one frame issues: entity by entity, in list order, each seeing its own record. */
  function FrameDraws(es: seq<Entity>, camera: Camera): (r: seq<DrawCall>)
    reads set e | e in es :: e.transform, camera
    ensures |r| == |es|
  {
    if es == [] then [] else FrameDraws(es[..|es| - 1], camera) + [es[|es| - 1].DrawOf(camera)]
  }

  /**
   * The scene CreateGeometry builds: meshes Triangle (3 vertices, 3 indices),
   * Quad (4, 6) and Boat (6, 12); entity i draws mesh EntityMeshes[i] (the
   * same handle, not a copy) from position EntityPositions[i], and every
   * entity owns a different transform.
   */
  ghost predicate Geometry(ms: seq<Mesh>, es: seq<Entity>)
    reads set e | e in es :: e.transform
  {
    && |ms| == 3 && |es| == 5
    && ms[0].name == "Triangle" && ms[0].vertexCount == 3 && ms[0].indexCount == 3
    && ms[1].name == "Quad" && ms[1].vertexCount == 4 && ms[1].indexCount == 6
    && ms[2].name == "Boat" && ms[2].vertexCount == 6 && ms[2].indexCount == 12
    && (forall i :: 0 <= i < 5 ==> es[i].mesh == ms[EntityMeshes[i]])
    && (forall i :: 0 <= i < 5 ==> es[i].transform.State() == IdentityPose.(position := EntityPositions[i]))
    && (forall i :: 0 <= i < 5 ==> es[i].transform.Derived())
    && (forall i, j :: 0 <= i < j < 5 ==> es[i].transform != es[j].transform)
  }

  /** Geometry from its facts spelled out entity by entity. */
  lemma GeometryIntro(ms: seq<Mesh>, es: seq<Entity>)
    requires |ms| == 3 && |es| == 5
    requires ms[0].name == "Triangle" && ms[0].vertexCount == 3 && ms[0].indexCount == 3
    requires ms[1].name == "Quad" && ms[1].vertexCount == 4 && ms[1].indexCount == 6
    requires ms[2].name == "Boat" && ms[2].vertexCount == 6 && ms[2].indexCount == 12
    requires es[0].mesh == ms[0] && es[1].mesh == ms[1] && es[2].mesh == ms[2] && es[3].mesh == ms[2] && es[4].mesh == ms[2]
    requires es[0].transform.State() == IdentityPose.(position := EntityPositions[0]) && es[0].transform.Derived()
    requires es[1].transform.State() == IdentityPose.(position := EntityPositions[1]) && es[1].transform.Derived()
    requires es[2].transform.State() == IdentityPose.(position := EntityPositions[2]) && es[2].transform.Derived()
    requires es[3].transform.State() == IdentityPose.(position := EntityPositions[3]) && es[3].transform.Derived()
    requires es[4].transform.State() == IdentityPose.(position := EntityPositions[4]) && es[4].transform.Derived()
    requires es[0].transform != es[1].transform && es[0].transform != es[2].transform
    requires es[0].transform != es[3].transform && es[0].transform != es[4].transform
    requires es[1].transform != es[2].transform && es[1].transform != es[3].transform && es[1].transform != es[4].transform
    requires es[2].transform != es[3].transform && es[2].transform != es[4].transform
    requires es[3].transform != es[4].transform
    ensures Geometry(ms, es)
  {
  }

  /** `std::make_shared<Entity>(mesh)` followed by `GetTransform()->SetPosition(position)`. */
  method PlacedEntity(mesh: Mesh, position: Float3) returns (e: Entity)
    ensures fresh(e) && fresh(e.transform) && e.mesh == mesh
    ensures e.transform.State() == IdentityPose.(position := position) && e.transform.Derived()
  {
    e := new Entity(mesh);
    var t := e.GetTransform();
    t.SetPosition(position);
  }

  /** The five entities of CreateGeometry, in the order they are pushed. */
  method CreateEntities(triangle: Mesh, quad: Mesh, boat: Mesh) returns (es: seq<Entity>)
    requires triangle.name == "Triangle" && triangle.vertexCount == 3 && triangle.indexCount == 3
    requires quad.name == "Quad" && quad.vertexCount == 4 && quad.indexCount == 6
    requires boat.name == "Boat" && boat.vertexCount == 6 && boat.indexCount == 12
    ensures Geometry([triangle, quad, boat], es)
    ensures forall i :: 0 <= i < |es| ==> fresh(es[i]) && fresh(es[i].transform)
  {
    var entity1 := PlacedEntity(triangle, Float3(0.0, 0.0, 0.0));
    var entity2 := PlacedEntity(quad, Float3(0.0, 0.0, 0.0));
    var entity3 := PlacedEntity(boat, Float3(0.0, 0.0, 0.0));
    var entity4 := PlacedEntity(boat, Float3(-0.2, 0.6, 0.0));
    var entity5 := PlacedEntity(boat, Float3(-0.09, 0.9, 0.0));
    es := [entity1, entity2, entity3, entity4, entity5];
    assert forall i :: 0 <= i < |es| ==> fresh(es[i]) && fresh(es[i].transform);
    GeometryIntro([triangle, quad, boat], es);
  }

  /** `std::make_shared<Camera>(...)` for one setup. */
  method MakeCamera(s: CameraSetup, aspectRatio: real, ops: OrientationOps) returns (c: Camera)
    ensures fresh(c) && fresh(c.transform)
    ensures c.transform.Valid() && BuiltFrom(c, s, aspectRatio, ops)
  {
    c := new Camera(aspectRatio, s.position, s.orientationDegrees, s.moveSpeed, s.mouseSpeed,
                    s.fov, s.nearClip, s.farClip, s.isOrtho, ops);
  }

  /**
   * Cameras 0 .. |cs| - 1 of a list being filled: camera k built from
   * setups[k] with a valid transform, no two sharing a transform.
   */
  ghost predicate CamerasBuilt(cs: seq<Camera>, setups: seq<CameraSetup>, aspectRatio: real, ops: OrientationOps)
    reads cs, set c | c in cs :: c.transform
  {
    && |cs| <= |setups|
    && (forall k :: 0 <= k < |cs| ==> cs[k].transform.Valid() && BuiltFrom(cs[k], setups[k], aspectRatio, ops))
    && (forall k, l :: 0 <= k < l < |cs| ==> cs[k].transform != cs[l].transform)
  }

  /** One `cameraList.push_back(std::make_shared<Camera>(...))`, for the next setup. */
  method PushCamera(cs: seq<Camera>, setups: seq<CameraSetup>, aspectRatio: real, ops: OrientationOps)
    returns (next: seq<Camera>, c: Camera)
    requires |cs| < |setups| && CamerasBuilt(cs, setups, aspectRatio, ops)
    ensures next == cs + [c] && fresh(c) && fresh(c.transform)
    ensures CamerasBuilt(next, setups, aspectRatio, ops)
  {
    c := MakeCamera(setups[|cs|], aspectRatio, ops);
    next := cs + [c];
  }

  /** The four cameras Initialize pushes, in order, camera i built from setups[i] with its own transform. */
  method CreateCameras(setups: seq<CameraSetup>, aspectRatio: real, ops: OrientationOps) returns (cs: seq<Camera>)
    requires |setups| == 4
    ensures |cs| == 4
    ensures forall i :: 0 <= i < 4 ==> fresh(cs[i]) && fresh(cs[i].transform)
    ensures CamerasBuilt(cs, setups, aspectRatio, ops)
  {
    var c;
    cs, c := PushCamera([], setups, aspectRatio, ops);
    cs, c := PushCamera(cs, setups, aspectRatio, ops);
    cs, c := PushCamera(cs, setups, aspectRatio, ops);
    ghost var first := cs;
    assert forall i :: 0 <= i < 3 ==> fresh(first[i]) && fresh(first[i].transform);
    cs, c := PushCamera(cs, setups, aspectRatio, ops);
    assert forall i :: 0 <= i < 4 ==> cs[i] == if i < 3 then first[i] else c;
  }

  /**
   * What the table fixes for the cameras: camera 0, the one active by
   * default, sits at (0, 0, -5) looking along +z with a pi/4 field of view;
   * cameras 1 and 3 are the wide (pi/2) ones; all four move at 5 and turn at 1
   * with clip planes 0.001 and 1000, and none is orthographic.
   */
  lemma CameraTable(cs: seq<Camera>, aspectRatio: real, ops: OrientationOps)
    requires |cs| == 4 && CamerasBuilt(cs, CameraSetups, aspectRatio, ops)
    ensures cs[0].transform.State() == Pose(Float3(0.0, 0.0, -5.0), Zero3, One3)
    ensures cs[0].projectionMatrix == PerspectiveFovLH(PiDiv4, aspectRatio, 0.001, 1000.0)
    ensures cs[1].fov == PiDiv2 && cs[2].fov == PiDiv4 && cs[3].fov == PiDiv2
    ensures forall i :: 0 <= i < 4 ==>
      cs[i].moveSpeed == 5.0 && cs[i].mouseSpeed == 1.0 && cs[i].nearClip == 0.001 && cs[i].farClip == 1000.0 && !cs[i].isOrtho
  {
    assert BuiltFrom(cs[0], CameraSetups[0], aspectRatio, ops);
    assert BuiltFrom(cs[1], CameraSetups[1], aspectRatio, ops);
    assert BuiltFrom(cs[2], CameraSetups[2], aspectRatio, ops);
    assert BuiltFrom(cs[3], CameraSetups[3], aspectRatio, ops);
  }

  class Game {
    var meshList: seq<Mesh>
    var entities: seq<Entity>
    var cameraList: seq<Camera>
    var activeCamera: int
    var camera: Camera?
    var vsConstantBuffer: ConstantBuffer?
    var vsData: VertexShaderData

    /**
     * The invariant Initialize establishes: four cameras, the active index
     * valid and `camera` the active one, a 208-byte constant buffer, and every
     * transform (entities' and cameras') a distinct object in a valid state.
     */
    ghost predicate Valid()
      reads this, set e | e in entities :: e.transform, set c | c in cameraList :: c.transform
    {
      && |cameraList| == 4
      && 0 <= activeCamera < |cameraList|
      && camera == cameraList[activeCamera]
      && vsConstantBuffer != null && vsConstantBuffer.byteWidth == RecordBytes
      && (forall i :: 0 <= i < |entities| ==> entities[i].transform.Valid())
      && (forall i :: 0 <= i < |cameraList| ==> cameraList[i].transform.Valid())
      && (forall i, j :: 0 <= i < j < |entities| ==> entities[i].transform != entities[j].transform)
      && (forall i, j :: 0 <= i < j < |cameraList| ==> cameraList[i].transform != cameraList[j].transform)
      && (forall i, j :: 0 <= i < |entities| && 0 <= j < |cameraList| ==> entities[i].transform != cameraList[j].transform)
    }

    /**
     * `Game() = default`: empty lists, no camera, no buffer. The record's
     * initial contents and the active index are not fixed by the class, so
     * they are parameters.
     */
    constructor (vsData: VertexShaderData, activeCamera: int)
      ensures meshList == [] && entities == [] && cameraList == []
      ensures camera == null && vsConstantBuffer == null
      ensures this.vsData == vsData && this.activeCamera == activeCamera
    {
      meshList := [];
      entities := [];
      cameraList := [];
      camera := null;
      vsConstantBuffer := null;
      this.vsData := vsData;
      this.activeCamera := activeCamera;
    }

    /**
     * Three meshes appended to meshList, then five entities over them
     * appended to entities, the last three sharing the one boat mesh.
     */
    method CreateGeometry()
      modifies this`meshList, this`entities
      ensures |meshList| == |old(meshList)| + 3 && meshList[..|old(meshList)|] == old(meshList)
      ensures |entities| == |old(entities)| + 5 && entities[..|old(entities)|] == old(entities)
      ensures Geometry(meshList[|old(meshList)|..], entities[|old(entities)|..])
      ensures forall i :: |old(meshList)| <= i < |meshList| ==> fresh(meshList[i])
      ensures forall i :: |old(entities)| <= i < |entities| ==> fresh(entities[i]) && fresh(entities[i].transform)
    {
      var triangle := new Mesh("Triangle", 3, 3);
      meshList := meshList + [triangle];
      var quad := new Mesh("Quad", 4, 6);
      meshList := meshList + [quad];
      var boat := new Mesh("Boat", 6, 12);
      meshList := meshList + [boat];
      assert meshList[|old(meshList)|..] == [triangle, quad, boat];

      var created := CreateEntities(triangle, quad, boat);
      entities := entities + created;
      assert entities[|old(entities)|..] == created;
    }

    /**
     * Geometry, then the constant buffer sized to the record rounded up to a
     * multiple of 16, the tint written into vsData, the four cameras, and
     * `camera` set to the active one. `aspectRatio` is the window's width
     * over its height.
     */
    method Initialize(aspectRatio: real, ops: OrientationOps)
      requires meshList == [] && entities == [] && cameraList == []
      requires 0 <= activeCamera < 4
      modifies this
      ensures Valid()
      ensures Geometry(meshList, entities)
      ensures fresh(vsConstantBuffer) && vsConstantBuffer.byteWidth == RecordBytes
      ensures vsData == old(vsData).(colorTint := Tint)
      ensures |cameraList| == 4 && CamerasBuilt(cameraList, CameraSetups, aspectRatio, ops)
      ensures activeCamera == old(activeCamera) && camera == cameraList[activeCamera]
      ensures forall i :: 0 <= i < |meshList| ==> fresh(meshList[i])
      ensures forall i :: 0 <= i < |entities| ==> fresh(entities[i]) && fresh(entities[i].transform)
      ensures forall i :: 0 <= i < |cameraList| ==> fresh(cameraList[i]) && fresh(cameraList[i].transform)
    {
      CreateGeometry();
      assert meshList[|old(meshList)|..] == meshList && entities[|old(entities)|..] == entities;
      CreateBufferAndCameras(aspectRatio, ops);
    }

    /**
     * The rest of Initialize once the geometry exists: the constant buffer
     * and the tint, then the four cameras and `camera` set to the active one.
     */
    method CreateBufferAndCameras(aspectRatio: real, ops: OrientationOps)
      requires cameraList == [] && 0 <= activeCamera < 4
      requires forall i :: 0 <= i < |entities| ==> entities[i].transform.Valid()
      requires forall i, j :: 0 <= i < j < |entities| ==> entities[i].transform != entities[j].transform
      modifies this`vsConstantBuffer, this`vsData, this`cameraList, this`camera
      ensures Valid()
      ensures fresh(vsConstantBuffer) && vsConstantBuffer.byteWidth == RecordBytes
      ensures vsData == old(vsData).(colorTint := Tint)
      ensures |cameraList| == 4 && camera == cameraList[activeCamera]
      ensures CamerasBuilt(cameraList, CameraSetups, aspectRatio, ops)
      ensures forall i :: 0 <= i < |cameraList| ==> fresh(cameraList[i]) && fresh(cameraList[i].transform)
    {
      CreateConstantBuffer();
      CreateCameraList(aspectRatio, ops);
    }

    /**
     * The constant buffer, its byte width the record's size rounded up to a
     * multiple of 16, and the tint written into vsData.
     */
    method CreateConstantBuffer()
      modifies this`vsConstantBuffer, this`vsData
      ensures fresh(vsConstantBuffer) && vsConstantBuffer.byteWidth == RecordBytes
      ensures vsData == old(vsData).(colorTint := Tint)
    {
      var size: uint32 := RecordBytes as uint32;
      size := RoundUp16(size);
      vsConstantBuffer := new ConstantBuffer(size as nat);
      vsData := vsData.(colorTint := Tint);
    }

    /** The four `cameraList.push_back` calls, then `camera = cameraList[activeCamera]`. */
    method CreateCameraList(aspectRatio: real, ops: OrientationOps)
      requires cameraList == [] && 0 <= activeCamera < 4
      requires vsConstantBuffer != null && vsConstantBuffer.byteWidth == RecordBytes
      requires forall i :: 0 <= i < |entities| ==> entities[i].transform.Valid()
      requires forall i, j :: 0 <= i < j < |entities| ==> entities[i].transform != entities[j].transform
      modifies this`cameraList, this`camera
      ensures Valid()
      ensures |cameraList| == 4 && camera == cameraList[activeCamera]
      ensures CamerasBuilt(cameraList, CameraSetups, aspectRatio, ops)
      ensures forall i :: 0 <= i < |cameraList| ==> fresh(cameraList[i]) && fresh(cameraList[i].transform)
    {
      var created := CreateCameras(CameraSetups, aspectRatio, ops);
      StoreCameras(created, aspectRatio, ops);
    }

    /** The built list stored in `cameraList` (empty before), and `camera` pointed at the active one. */
    method StoreCameras(created: seq<Camera>, ghost aspectRatio: real, ghost ops: OrientationOps)
      requires cameraList == [] && 0 <= activeCamera < |created| == 4
      requires CamerasBuilt(created, CameraSetups, aspectRatio, ops)
      modifies this`cameraList, this`camera
      ensures cameraList == created && camera == created[activeCamera]
      ensures CamerasBuilt(cameraList, CameraSetups, aspectRatio, ops)
      ensures forall i :: 0 <= i < 4 ==> cameraList[i].transform.Valid()
      ensures forall i, j :: 0 <= i < j < 4 ==> cameraList[i].transform != cameraList[j].transform
    {
      var pushed := cameraList + created;
      assert pushed == created;
      cameraList, camera := pushed, pushed[activeCamera];
    }

    /** One camera button: the index and the pointer are reassigned, nothing else. */
    method PressCameraButton(b: CameraButton)
      requires Valid()
      modifies this`activeCamera, this`camera
      ensures activeCamera == ButtonIndex(b) && camera == cameraList[activeCamera]
      ensures Valid()
    {
      activeCamera := ButtonIndex(b);
      camera := cameraList[activeCamera];
    }

    /** Only the active camera's projection is rebuilt, and nothing happens without a camera. */
    method OnResize(aspectRatio: real)
      modifies camera
      ensures camera != null ==> camera.projectionMatrix == PerspectiveFovLH(camera.fov, aspectRatio, camera.nearClip, camera.farClip)
      ensures camera != null ==> camera.viewMatrix == old(camera.viewMatrix) && camera.aspectRatio == old(camera.aspectRatio)
      ensures forall c :: c in cameraList && c != camera ==> c.projectionMatrix == old(c.projectionMatrix)
    {
      if camera != null {
        camera.UpdateProjectionMatrix(aspectRatio);
      }
    }

    /** Entity 0 turns by deltaTime about its roll axis, then the active camera takes its step. */
    method Update(deltaTime: real, input: InputState, ops: OrientationOps)
      requires Valid() && entities != []
      modifies entities[0].transform, camera.transform, camera`viewMatrix
      ensures Valid()
      ensures entities[0].transform.State() == Rotated(old(entities[0].transform.State()), Float3(0.0, 0.0, deltaTime))
      ensures camera.transform.State() ==
        Step(old(camera.transform.State()), input, deltaTime, camera.moveSpeed, camera.mouseSpeed, ops)
      ensures camera.viewMatrix == View(camera.transform.position, camera.transform.rotation, ops)
      ensures forall i :: 1 <= i < |entities| ==> entities[i].transform.State() == old(entities[i].transform.State())
      ensures forall c :: c in cameraList && c != camera ==> c.transform.State() == old(c.transform.State())
    {
      assert forall c :: c in cameraList && c != camera ==> c.transform != camera.transform && c.transform != entities[0].transform;
      var t := entities[0].GetTransform();
      t.Rotate(Float3(0.0, 0.0, deltaTime));
      camera.Update(deltaTime, input, ops);
    }

    /**
     * The pre-loop write of vsData, then one Entity::Draw per entity in index
     * order, all through the same buffer and the active camera.
     */
    method Draw(context: Context)
      requires Valid()
      modifies vsConstantBuffer, context
      ensures context.draws == old(context.draws) + FrameDraws(entities, camera)
      ensures context.vsSlot0 == vsConstantBuffer
    {
      context.WriteDiscard(vsConstantBuffer, vsData);
      context.VSSetConstantBuffer(vsConstantBuffer);

      DrawEntities(entities, vsConstantBuffer, camera, context);
    }
  }

  /** The draw loop of Game::Draw: Entity::Draw for each entity in list order. */
  method DrawEntities(es: seq<Entity>, buffer: ConstantBuffer, camera: Camera, context: Context)
    modifies buffer`contents, context
    ensures context.draws == old(context.draws) + FrameDraws(es, camera)
    ensures context.vsSlot0 == if es == [] then old(context.vsSlot0) else buffer
  {
    for i := 0 to |es|
      invariant DrawnSoFar(old(context.draws), context.draws, es, i, camera)
      invariant context.vsSlot0 == if i == 0 then old(context.vsSlot0) else buffer
    {
      DrawNext(old(context.draws), es, i, buffer, camera, context);
    }
    FrameDrawsFrom(old(context.draws), context.draws, es, camera);
  }

  /** The log is `before` followed by the draws of entities 0 .. i - 1, in order. */
  ghost predicate DrawnSoFar(before: seq<DrawCall>, after: seq<DrawCall>, es: seq<Entity>, i: int, camera: Camera)
    requires 0 <= i <= |es|
    reads set k | 0 <= k < i :: es[k].transform, camera
  {
    && |after| == |before| + i
    && after[..|before|] == before
    && (forall k :: 0 <= k < i ==> after[|before| + k] == es[k].DrawOf(camera))
  }

  /** One pass of the draw loop: entity i draws, extending the log by its own draw. */
  method DrawNext(ghost before: seq<DrawCall>, es: seq<Entity>, i: int, buffer: ConstantBuffer, camera: Camera, context: Context)
    requires 0 <= i < |es| && DrawnSoFar(before, context.draws, es, i, camera)
    modifies buffer`contents, context
    ensures DrawnSoFar(before, context.draws, es, i + 1, camera)
    ensures context.vsSlot0 == buffer
  {
    es[i].Draw(buffer, camera, context);
  }

  /** A log that continues `before` with one draw per entity, in order, is `before` followed by the frame's draws. */
  lemma FrameDrawsFrom(before: seq<DrawCall>, after: seq<DrawCall>, es: seq<Entity>, camera: Camera)
    requires |after| == |before| + |es| && after[..|before|] == before
    requires forall k :: 0 <= k < |es| ==> after[|before| + k] == es[k].DrawOf(camera)
    ensures after == before + FrameDraws(es, camera)
  {
    FrameDrawsAll(es, camera);
    assert after == before + after[|before|..];
    assert after[|before|..] == FrameDraws(es, camera);
  }

  /** Every draw of a frame is its entity's draw. */
  lemma FrameDrawsAll(es: seq<Entity>, camera: Camera)
    ensures forall k :: 0 <= k < |es| ==> FrameDraws(es, camera)[k] == es[k].DrawOf(camera)
  {
    forall k | 0 <= k < |es|
      ensures FrameDraws(es, camera)[k] == es[k].DrawOf(camera)
    {
      FrameDrawsAt(es, camera, k);
    }
  }

  /** The k-th draw of a frame is entity k's mesh, seeing entity k's record. */
  lemma {:induction false} FrameDrawsAt(es: seq<Entity>, camera: Camera, k: nat)
    requires k < |es|
    ensures FrameDraws(es, camera)[k] == es[k].DrawOf(camera)
    decreases |es|
  {
    if k < |es| - 1 {
      FrameDrawsAt(es[..|es| - 1], camera, k);
    }
  }

  /**
   * Whatever the buffer held before the frame (the pre-loop write of vsData
   * included), the constant-buffer image the k-th draw reads decodes to
   * exactly entity k's record.
   */
  lemma FrameDrawSeesOwnRecord(es: seq<Entity>, camera: Camera, k: nat)
    requires k < |es|
    ensures FrameDraws(es, camera)[k].mesh == es[k].mesh && FrameDraws(es, camera)[k].constants.Some?
    ensures Unflatten(FrameDraws(es, camera)[k].constants.value) == Some(es[k].Record(camera))
  {
    FrameDrawsAt(es, camera, k);
    DrawSeesRecord(es[k], camera);
  }

  /** The record size needs no rounding: 208 is already a multiple of 16. */
  lemma RecordSizeRounded()
    ensures RoundUp16(RecordBytes as uint32) as int == RecordBytes
  {
  }
}
