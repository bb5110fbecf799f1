/** Types shared by the two MetalKit renderers: Swift's UInt16 with its
    trapping conversion and addition, the indexed-mesh invariant, GPU buffers
    described by their contents and byte length, and the commands a renderer
    encodes into a frame. */
module MetalTypes {

  /** Swift's UInt16, the index type of both meshes. */
  newtype uint16 = x: int | 0 <= x < 0x1_0000

  const UInt16Max: int := 0xFFFF

  /** MemoryLayout<UInt16>.stride */
  const UInt16Stride: nat := 2

  datatype Option<T> = None | Some(value: T)

  datatype Result<T, E> = Success(value: T) | Failure(error: E)

  /** `UInt16(x)`: the conversion traps (None) unless x is representable. */
  function ToUInt16(x: int): (r: Option<uint16>)
    ensures r.Some? <==> 0 <= x <= UInt16Max
    ensures r.Some? ==> r.value as int == x
  {
    if 0 <= x <= UInt16Max then Some(x as uint16) else None
  }

  /** `a + b` on UInt16: Swift's `+` traps (None) on overflow instead of wrapping. */
  function AddUInt16(a: uint16, b: uint16): (r: Option<uint16>)
    ensures r.Some? <==> a as int + b as int <= UInt16Max
    ensures r.Some? ==> r.value as int == a as int + b as int
  {
    ToUInt16(a as int + b as int)
  }

  /** The UInt16 sequence `a` holds exactly the integers `v`. */
  predicate Encodes(a: seq<uint16>, v: seq<int>)
  {
    |a| == |v| && forall i :: 0 <= i < |a| ==> a[i] as int == v[i]
  }

  lemma EncodesAppend(a: seq<uint16>, v: seq<int>, b: seq<uint16>, w: seq<int>)
    requires Encodes(a, v) && Encodes(b, w)
    ensures Encodes(a + b, v + w)
  {
    forall i | 0 <= i < |a + b|
      ensures (a + b)[i] as int == (v + w)[i]
    {
      if i >= |a| {
        assert (a + b)[i] == b[i - |a|];
      }
    }
  }

  /** A slice that lies inside the right operand of a concatenation. */
  lemma SliceAppendRight<T>(a: seq<T>, b: seq<T>, k: nat, n: nat)
    requires |a| <= k && k + n <= |a| + |b|
    ensures (a + b)[k .. k + n] == b[k - |a| .. k - |a| + n]
  {
  }

  /** A slice inside a prefix is the same slice of the longer sequence. */
  lemma SlicePrefix<T>(a: seq<T>, b: seq<T>, k: nat, n: nat)
    requires a <= b && k + n <= |a|
    ensures b[k .. k + n] == a[k .. k + n]
  {
  }

  /** The invariant of an indexed triangle list: it is made of whole
      triangles and every index names one of the `vertexCount` vertices. */
  predicate TriangleListValid(vertexCount: nat, indices: seq<uint16>)
  {
    |indices| % 3 == 0 && forall i :: 0 <= i < |indices| ==> indices[i] as int < vertexCount
  }

  /** A buffer made by `device.makeBuffer(bytes:length:options:)`: the
      elements copied into it and its length in bytes. */
  datatype Buffer<T> = Buffer(contents: seq<T>, length: nat)

  /** The buffer the renderers create for `contents`, `count * stride` bytes long. */
  function MakeBuffer<T>(contents: seq<T>, stride: nat): Buffer<T>
  {
    Buffer(contents, |contents| * stride)
  }

  datatype IndexType = UInt16Index

  /** Per-frame uniform data, represented by the rotation (in frames) it is computed from. */
  datatype Uniform = ModelViewProjection(rotationSteps: nat) | NormalMatrix(rotationSteps: nat)

  /** What a renderer records into a command buffer during one frame. */
  datatype Command =
    | SetRenderPipelineState
    | SetDepthStencilState
    | SetVertexBuffer(bufferIndex: nat)
    | SetVertexBytes(bufferIndex: nat, data: Uniform)
    | DrawIndexedTriangles(indexCount: nat, indexType: IndexType, indexBufferOffset: nat)
    | EndEncoding
    | Present
    | Commit

  /** The number of draw calls among `cmds`. */
  function DrawCount(cmds: seq<Command>): nat
  {
    if cmds == [] then 0
    else DrawCount(cmds[..|cmds| - 1]) + (if cmds[|cmds| - 1].DrawIndexedTriangles? then 1 else 0)
  }

  /** The total number of indices the draw calls among `cmds` consume. */
  function IndicesDrawn(cmds: seq<Command>): nat
  {
    if cmds == [] then 0
    else
      var last := cmds[|cmds| - 1];
      IndicesDrawn(cmds[..|cmds| - 1]) + (if last.DrawIndexedTriangles? then last.indexCount else 0)
  }

  /** Counting draws is additive over concatenated command lists. */
  lemma {:induction false} DrawCountAppend(a: seq<Command>, b: seq<Command>)
    ensures DrawCount(a + b) == DrawCount(a) + DrawCount(b)
    ensures IndicesDrawn(a + b) == IndicesDrawn(a) + IndicesDrawn(b)
  {
    if b != [] {
      assert (a + b)[..|a + b| - 1] == a + b[..|b| - 1];
      DrawCountAppend(a, b[..|b| - 1]);
    } else {
      assert a + b == a;
    }
  }

  /** A list without a draw call draws nothing. */
  lemma {:induction false} NoDrawCommands(cmds: seq<Command>)
    requires forall i :: 0 <= i < |cmds| ==> !cmds[i].DrawIndexedTriangles?
    ensures DrawCount(cmds) == 0 && IndicesDrawn(cmds) == 0
  {
    if cmds != [] {
      NoDrawCommands(cmds[..|cmds| - 1]);
    }
  }

  /** A list whose only draw call is `d` issues one draw of `d.indexCount` indices. */
  lemma SingleDraw(before: seq<Command>, d: Command, after: seq<Command>)
    requires d.DrawIndexedTriangles?
    requires forall i :: 0 <= i < |before| ==> !before[i].DrawIndexedTriangles?
    requires forall i :: 0 <= i < |after| ==> !after[i].DrawIndexedTriangles?
    ensures DrawCount(before + [d] + after) == 1
    ensures IndicesDrawn(before + [d] + after) == d.indexCount
  {
    NoDrawCommands(before);
    NoDrawCommands(after);
    DrawCountAppend(before, [d]);
    DrawCountAppend(before + [d], after);
    assert [d][..0] == [];
  }
}
