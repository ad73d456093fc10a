/**
 * Entity: a shared mesh handle plus an owned Transform. Drawing assembles the
 * shader record from the transform's world matrix and the camera's view and
 * projection, discard-writes it into the shared constant buffer, binds that
 * buffer at vertex-stage slot 0 and issues one draw of the mesh.
 */
module Entities {
  import opened DxMath
  import opened Transforms
  import opened Cameras
  import opened BufferStructs
  import opened Graphics

  class Entity {
    const mesh: Mesh
    /** The entity's own Transform (a member object in the source, never shared). */
    const transform: Transform

    constructor (mesh: Mesh)
      ensures this.mesh == mesh
      ensures fresh(transform) && transform.Initial()
    {
      this.mesh := mesh;
      transform := new Transform();
    }

    method GetMesh() returns (m: Mesh)
      ensures m == mesh
    {
      m := mesh;
    }

    /** A reference to the entity's own transform: mutations through it are what Draw reads. */
    method GetTransform() returns (t: Transform)
      ensures t == transform
    {
      t := transform;
    }

    /** The record Draw assembles for this entity seen through `camera`. */
    function Record(camera: Camera): VertexShaderData
      reads transform, camera
    {
      VertexShaderData(Tint, transform.worldMatrix, camera.viewMatrix, camera.projectionMatrix)
    }

    /** The draw Draw issues: this mesh, seeing this entity's record. */
    function DrawOf(camera: Camera): DrawCall
      reads transform, camera
    {
      DrawCall(mesh, Some(Flatten(Record(camera))))
    }

    /**
     * Record assembly, then the discard-write of the whole record into the
     * buffer, the bind at slot 0, and one mesh draw. The transform and the
     * camera are only read.
     */
    method Draw(constantBuffer: ConstantBuffer, camera: Camera, context: Context)
      modifies constantBuffer`contents, context
      ensures constantBuffer.contents == Flatten(Record(camera))
      ensures context.vsSlot0 == constantBuffer
      ensures context.draws == old(context.draws) + [DrawOf(camera)]
    {
      var worldMatrix := transform.GetWorldMatrix();

      var world := transform.GetWorldMatrix();
      var view := camera.GetViewMatrix();
      var proj := camera.GetProjMatrix();
      var vsData := VertexShaderData(Tint, world, view, proj);

      context.WriteDiscard(constantBuffer, vsData);
      context.VSSetConstantBuffer(constantBuffer);
      mesh.DrawMesh(context);
    }
  }

  /**
   * The world matrix an entity draws with is its current pose's world matrix,
   * or the identity while its transform is still as constructed.
   */
  lemma DrawnWorld(e: Entity, camera: Camera)
    requires e.transform.Valid()
    ensures e.Record(camera).world == World(e.transform.State())
      || (e.transform.State() == IdentityPose && e.Record(camera).world == Identity)
  {
  }

  /** The image an entity's draw reads decodes to exactly that entity's record. */
  lemma DrawSeesRecord(e: Entity, camera: Camera)
    ensures e.DrawOf(camera).mesh == e.mesh && e.DrawOf(camera).constants.Some?
    ensures Unflatten(e.DrawOf(camera).constants.value) == Some(e.Record(camera))
  {
    UnflattenFlatten(e.Record(camera));
  }
}
