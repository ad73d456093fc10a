/**
 * The VertexShaderData record the vertex shader's constant buffer holds, and
 * its byte image: colorTint (one XMFLOAT4) followed by the world, view and
 * projection matrices (three XMFLOAT4X4, row-major), packed with no padding.
 *
 * A byte image is modelled one 4-byte float at a time: a `Cell` is either a
 * scalar lane of colorTint or the (row, col) entry of a symbolic matrix.
 */
module BufferStructs {
  import opened DxMath

  datatype Option<T> = None | Some(value: T)

  /** The four fields of the record, in declaration order. */
  datatype VertexShaderData = VertexShaderData(
    colorTint: Float4, world: Matrix, viewMatrix: Matrix, projectionMatrix: Matrix)

  /** One 4-byte float of the record's image. */
  datatype Cell = Scalar(value: real) | Element(matrix: Matrix, row: nat, col: nat)

  /** sizeof(float) */
  const FloatBytes: nat := 4

  /** The number of floats in each field, in order: one XMFLOAT4, three XMFLOAT4X4. */
  const FieldFloats: seq<nat> := [4, 16, 16, 16]

  /** sizeof(VertexShaderData) */
  const RecordBytes: nat := 208

  /** The tint every entity draws with: (1, 0.5, 0.5, 1). */
  const Tint: Float4 := Float4(1.0, 0.5, 0.5, 1.0)

  function Sum(s: seq<nat>): nat
  {
    if s == [] then 0 else s[0] + Sum(s[1..])
  }

  /** Byte offset of field i (i == 4 is the end of the record): the fields are packed back to back. */
  function FieldOffset(i: nat): nat
    requires i <= |FieldFloats|
  {
    FloatBytes * Sum(FieldFloats[..i])
  }

  /** The four lanes of an XMFLOAT4, x first. */
  function Float4Cells(v: Float4): (r: seq<Cell>)
    ensures |r| == 4 && forall c :: c in r ==> c.Scalar?
  {
    [Scalar(v.x), Scalar(v.y), Scalar(v.z), Scalar(v.w)]
  }

  /** The sixteen entries of an XMFLOAT4X4 in row-major order. */
  function MatrixCells(m: Matrix): (r: seq<Cell>)
    ensures |r| == 16
    ensures forall row: nat, col: nat :: row < 4 && col < 4 ==> Element(m, row, col) == r[4 * row + col]
  {
    seq(16, k requires 0 <= k < 16 => Element(m, k / 4, k % 4))
  }

  /** The cells of field i of a record. */
  function Field(d: VertexShaderData, i: nat): (r: seq<Cell>)
    requires i < |FieldFloats|
    ensures |r| == FieldFloats[i]
  {
    if i == 0 then Float4Cells(d.colorTint)
    else if i == 1 then MatrixCells(d.world)
    else if i == 2 then MatrixCells(d.viewMatrix)
    else MatrixCells(d.projectionMatrix)
  }

  /** The image memcpy copies: the four fields, one after the other. */
  function Flatten(d: VertexShaderData): (r: seq<Cell>)
    ensures |r| * FloatBytes == RecordBytes
  {
    Field(d, 0) + Field(d, 1) + Field(d, 2) + Field(d, 3)
  }

  /** Reads back an XMFLOAT4 from four cells; None if any of them is a matrix entry. */
  function ReadFloat4(cells: seq<Cell>): (r: Option<Float4>)
    requires |cells| == 4
    ensures r.Some? <==> forall c :: c in cells ==> c.Scalar?
    ensures r.Some? ==> Float4Cells(r.value) == cells
  {
    if cells[0].Scalar? && cells[1].Scalar? && cells[2].Scalar? && cells[3].Scalar? then
      Some(Float4(cells[0].value, cells[1].value, cells[2].value, cells[3].value))
    else
      None
  }

  /** Reads back a matrix from sixteen cells; None unless they are exactly one matrix's row-major image. */
  function ReadMatrix(cells: seq<Cell>): (r: Option<Matrix>)
    requires |cells| == 16
    ensures r.Some? ==> MatrixCells(r.value) == cells
  {
    if cells[0].Element? && MatrixCells(cells[0].matrix) == cells then Some(cells[0].matrix) else None
  }

  /** Decodes a buffer image back into the record; None when it is not the image of any record. */
  function Unflatten(cells: seq<Cell>): (r: Option<VertexShaderData>)
    ensures r.Some? ==> Flatten(r.value) == cells
  {
    if |cells| * FloatBytes != RecordBytes then None
    else
      var tint := ReadFloat4(cells[0..4]);
      var world := ReadMatrix(cells[4..20]);
      var view := ReadMatrix(cells[20..36]);
      var proj := ReadMatrix(cells[36..52]);
      if tint.Some? && world.Some? && view.Some? && proj.Some? then
        assert cells == cells[0..4] + cells[4..20] + cells[20..36] + cells[36..52];
        Some(VertexShaderData(tint.value, world.value, view.value, proj.value))
      else
        None
  }

  /** Reading a matrix's own image gives the matrix back. */
  lemma ReadMatrixCells(m: Matrix)
    ensures ReadMatrix(MatrixCells(m)) == Some(m)
  {
    assert MatrixCells(m)[0] == Element(m, 0, 0);
  }

  /** The image splits back into its four fields at float indices 4, 20 and 36. */
  lemma FlattenSlices(d: VertexShaderData)
    ensures Flatten(d)[0..4] == Float4Cells(d.colorTint)
    ensures Flatten(d)[4..20] == MatrixCells(d.world)
    ensures Flatten(d)[20..36] == MatrixCells(d.viewMatrix)
    ensures Flatten(d)[36..52] == MatrixCells(d.projectionMatrix)
  {
    var a, b, c, e := Field(d, 0), Field(d, 1), Field(d, 2), Field(d, 3);
    assert Flatten(d) == a + b + c + e;
    assert (a + b + c + e)[0..4] == a;
    assert (a + b + c + e)[4..20] == b;
    assert (a + b + c + e)[20..36] == c;
    assert (a + b + c + e)[36..52] == e;
  }

  /** Decoding the image of a record gives the record back. */
  lemma UnflattenFlatten(d: VertexShaderData)
    ensures Unflatten(Flatten(d)) == Some(d)
  {
    FlattenSlices(d);
    ReadMatrixCells(d.world);
    ReadMatrixCells(d.viewMatrix);
    ReadMatrixCells(d.projectionMatrix);
  }

  /** Two records with the same image are the same record, so a buffer image determines what the shader sees. */
  lemma FlattenInjective(d: VertexShaderData, e: VertexShaderData)
    requires Flatten(d) == Flatten(e)
    ensures d == e
  {
    UnflattenFlatten(d);
    UnflattenFlatten(e);
  }

  /**
   * The layout: fields at byte offsets 0, 16, 80 and 144, no padding, 208
   * bytes in all, every field starting on a 16-byte boundary.
   */
  lemma {:induction false} Layout()
    ensures FieldOffset(0) == 0 && FieldOffset(1) == 16 && FieldOffset(2) == 80 && FieldOffset(3) == 144
    ensures FieldOffset(4) == RecordBytes
    ensures forall i :: 0 <= i < |FieldFloats| ==> FieldOffset(i) % 16 == 0
    ensures forall i :: 0 <= i < |FieldFloats| ==> FieldOffset(i + 1) == FieldOffset(i) + FloatBytes * FieldFloats[i]
  {
    assert FieldFloats[..0] == [];
    assert FieldFloats[..1] == [4];
    assert FieldFloats[..2] == [4, 16];
    assert FieldFloats[..3] == [4, 16, 16];
    assert FieldFloats[..4] == FieldFloats;
    assert Sum([]) == 0;
    assert Sum([16]) == 16 by { assert [16][1..] == []; }
    assert Sum([4]) == 4 by { assert [4][1..] == []; }
    assert Sum([16, 16]) == 32 by { assert [16, 16][1..] == [16]; }
    assert Sum([16, 16, 16]) == 48 by { assert [16, 16, 16][1..] == [16, 16]; }
    assert Sum([4, 16]) == 20 by { assert [4, 16][1..] == [16]; }
    assert Sum([4, 16, 16]) == 36 by { assert [4, 16, 16][1..] == [16, 16]; }
    assert Sum(FieldFloats) == 52 by { assert FieldFloats[1..] == [16, 16, 16]; }
  }

  /** Field i of a record's image sits exactly at its byte offset. */
  lemma FieldAtOffset(d: VertexShaderData, i: nat)
    requires i < |FieldFloats|
    ensures FieldOffset(i) / FloatBytes <= FieldOffset(i + 1) / FloatBytes <= |Flatten(d)|
      && Flatten(d)[FieldOffset(i) / FloatBytes .. FieldOffset(i + 1) / FloatBytes] == Field(d, i)
  {
    Layout();
    FlattenSlices(d);
    var lo, hi := FieldOffset(i) / FloatBytes, FieldOffset(i + 1) / FloatBytes;
    if i == 0 {
      assert lo == 0 && hi == 4;
    } else if i == 1 {
      assert lo == 4 && hi == 20;
    } else if i == 2 {
      assert lo == 20 && hi == 36;
    } else {
      assert lo == 36 && hi == 52;
    }
  }
}
