/**
 * The slice of Direct3D state the scene's draw discipline depends on: mesh
 * handles, one dynamic constant buffer, the context's vertex-stage constant
 * buffer slot 0, and a log of the draws issued, each with the constant-buffer
 * image bound at slot 0 when it was issued (what that draw's vertex shader
 * reads).
 */
module Graphics {
  import opened BufferStructs

  /** A mesh handle: its name and counts. The GPU geometry buffers are not modelled. */
  class Mesh {
    const name: string
    const vertexCount: nat
    const indexCount: nat

    constructor (name: string, vertexCount: nat, indexCount: nat)
      ensures this.name == name && this.vertexCount == vertexCount && this.indexCount == indexCount
    {
      this.name := name;
      this.vertexCount := vertexCount;
      this.indexCount := indexCount;
    }

    method GetName() returns (n: string)
      ensures n == name
    {
      n := name;
    }

    method GetVertexCount() returns (n: nat)
      ensures n == vertexCount
    {
      n := vertexCount;
    }

    method GetIndexCount() returns (n: nat)
      ensures n == indexCount
    {
      n := indexCount;
    }

    /** One indexed draw of this mesh, seeing whatever is bound at vertex-stage slot 0. */
    method DrawMesh(context: Context)
      modifies context`draws
      ensures context.draws == old(context.draws) + [DrawCall(this, context.BoundConstants())]
    {
      context.draws := context.draws + [DrawCall(this, context.BoundConstants())];
    }
  }

  /** A dynamic constant buffer: a fixed byte width and its current image. */
  class ConstantBuffer {
    const byteWidth: nat
    var contents: seq<Cell>

    constructor (byteWidth: nat)
      ensures this.byteWidth == byteWidth && contents == []
    {
      this.byteWidth := byteWidth;
      contents := [];
    }
  }

  /** One draw: the mesh drawn and the constant-buffer image its vertex shader read (None: nothing bound). */
  datatype DrawCall = DrawCall(mesh: Mesh, constants: Option<seq<Cell>>)

  /** The immediate context: the buffer bound at vertex-stage slot 0 and the draws issued so far. */
  class Context {
    var vsSlot0: ConstantBuffer?
    var draws: seq<DrawCall>

    constructor ()
      ensures vsSlot0 == null && draws == []
    {
      vsSlot0 := null;
      draws := [];
    }

    /** The image the vertex shader reads at slot 0. */
    function BoundConstants(): Option<seq<Cell>>
      reads this, vsSlot0
    {
      if vsSlot0 == null then None else Some(vsSlot0.contents)
    }

    /**
     * Map with D3D11_MAP_WRITE_DISCARD, memcpy of the record, Unmap: the old
     * image is discarded and the buffer holds exactly the record's image.
     */
    method WriteDiscard(buffer: ConstantBuffer, data: VertexShaderData)
      modifies buffer`contents
      ensures buffer.contents == Flatten(data)
    {
      buffer.contents := Flatten(data);
    }

    /** VSSetConstantBuffers(0, 1, &buffer): binds the buffer at vertex-stage slot 0. */
    method VSSetConstantBuffer(buffer: ConstantBuffer)
      modifies this`vsSlot0
      ensures vsSlot0 == buffer
    {
      vsSlot0 := buffer;
    }
  }
}
