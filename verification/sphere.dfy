/** The mesh topology built by `SphereRenderer.init` in
    Examples/MetalKitSphereView.swift: a latitude/longitude grid of vertices
    for rings 0..rings and sectors 0..sectors, and a UInt16 triangle list with
    two triangles per grid cell. Vertex content (position, normal, colour) is
    floating point; a vertex is represented by the grid point it is computed
    from. */
module MetalKitSphere {
  import opened MetalTypes

  /** The vertex computed for latitude ring `ring` and longitude sector `sector`. */
  datatype GridVertex = GridVertex(ring: nat, sector: nat)

  /** Why `SphereRenderer.init` traps. */
  datatype InitError =
    | InvalidRange     // `0...rings` or `0...sectors` with a negative upper bound
    | UInt16Overflow   // a `UInt16(...)` conversion or a UInt16 `+` overflowed
    | EmptyIndexBuffer // no cells: Metal refuses the zero-length index buffer and its `!` traps

  /** MemoryLayout<SphereVertex>.stride: two SIMD3<Float> (16 bytes each) and a SIMD4<Float>. */
  const SphereVertexStride: nat := 48

  /** The stored state of a SphereRenderer that the draw call depends on. */
  datatype SphereRenderer = SphereRenderer(
    vertexBuffer: Buffer<GridVertex>,
    indexBuffer: Buffer<uint16>,
    indexCount: nat)

  // ---------------------------------------------------------------------
  // Vertex grid

  /** Position of the vertex for (ring, sector) in the ring-major vertex list. */
  function VertexIndex(ring: nat, sector: nat, sectors: nat): nat
  {
    ring * (sectors + 1) + sector
  }

  /** The vertices of one ring for sectors 0 .. count-1, in order. */
  function RingVertices(ring: nat, count: nat): (vs: seq<GridVertex>)
    ensures |vs| == count
    ensures forall s :: 0 <= s < count ==> vs[s] == GridVertex(ring, s)
  {
    if count == 0 then [] else RingVertices(ring, count - 1) + [GridVertex(ring, count - 1)]
  }

  /** The vertices of rings 0 .. ringCount-1, each with sectors 0..sectors. */
  function RingsVertices(ringCount: nat, sectors: nat): seq<GridVertex>
  {
    if ringCount == 0 then []
    else RingsVertices(ringCount - 1, sectors) + RingVertices(ringCount - 1, sectors + 1)
  }

  /** The vertex list of a sphere with the given ring and sector counts. */
  function SphereVertices(rings: nat, sectors: nat): seq<GridVertex>
  {
    RingsVertices(rings + 1, sectors)
  }

  lemma NextRing(ring: nat, sector: nat, sectors: nat)
    ensures VertexIndex(ring + 1, sector, sectors) == VertexIndex(ring, sector, sectors) + sectors + 1
  {
  }

  lemma MulMonotone(a: nat, b: nat, c: nat)
    requires a <= b
    ensures a * c <= b * c
  {
  }

  lemma {:induction false} RingsVerticesLength(ringCount: nat, sectors: nat)
    ensures |RingsVertices(ringCount, sectors)| == ringCount * (sectors + 1)
  {
    if ringCount > 0 {
      RingsVerticesLength(ringCount - 1, sectors);
      NextRing(ringCount - 1, 0, sectors);
    }
  }

  /** In the grid of rings 0 .. ringCount-1, the vertex for (r, s) sits at
      VertexIndex(r, s, sectors). */
  lemma {:induction false} RingsVertexAt(ringCount: nat, sectors: nat, r: nat, s: nat)
    requires r < ringCount && s <= sectors
    ensures VertexIndex(r, s, sectors) < |RingsVertices(ringCount, sectors)|
    ensures RingsVertices(ringCount, sectors)[VertexIndex(r, s, sectors)] == GridVertex(r, s)
  {
    var prev := RingsVertices(ringCount - 1, sectors);
    var last := RingVertices(ringCount - 1, sectors + 1);
    RingsVerticesLength(ringCount - 1, sectors);
    NextRing(ringCount - 1, 0, sectors);
    var k := VertexIndex(r, s, sectors);
    if r < ringCount - 1 {
      RingsVertexAt(ringCount - 1, sectors, r, s);
      assert (prev + last)[k] == prev[k];
    } else {
      assert k == |prev| + s;
      assert (prev + last)[k] == last[s];
    }
  }

  /** The vertex loops of `SphereRenderer.init` produce (rings+1)*(sectors+1)
      vertices, the one for (ring, sector) at ring*(sectors+1)+sector. */
  lemma SphereVerticesAt(rings: nat, sectors: nat, ring: nat, sector: nat)
    requires ring <= rings && sector <= sectors
    ensures |SphereVertices(rings, sectors)| == (rings + 1) * (sectors + 1)
    ensures VertexIndex(ring, sector, sectors) < |SphereVertices(rings, sectors)|
    ensures SphereVertices(rings, sectors)[VertexIndex(ring, sector, sectors)] == GridVertex(ring, sector)
  {
    RingsVerticesLength(rings + 1, sectors);
    RingsVertexAt(rings + 1, sectors, ring, sector);
  }

  /** The vertex loops of `SphereRenderer.init`: one vertex per (ring, sector),
      ring-major, appended to a local list. */
  method GenerateVertices(rings: nat, sectors: nat) returns (vertices: seq<GridVertex>)
    ensures vertices == SphereVertices(rings, sectors)
    ensures |vertices| == (rings + 1) * (sectors + 1)
  {
    vertices := [];
    for ring := 0 to rings + 1
      invariant vertices == RingsVertices(ring, sectors)
    {
      for sector := 0 to sectors + 1
        invariant vertices == RingsVertices(ring, sectors) + RingVertices(ring, sector)
      {
        vertices := vertices + [GridVertex(ring, sector)];
      }
    }
    RingsVerticesLength(rings + 1, sectors);
  }

  // ---------------------------------------------------------------------
  // Index list

  /** The six indices appended for cell (ring, sector): triangles
      (first, second, first+1) and (second, second+1, first+1), where `second`
      is the same sector on the next ring. */
  function CellIndices(ring: nat, sector: nat, sectors: nat): seq<int>
  {
    var first := VertexIndex(ring, sector, sectors);
    var second := first + sectors + 1;
    [first, second, first + 1, second, second + 1, first + 1]
  }

  /** The indices of the cells of one ring for sectors 0 .. count-1. */
  function RingIndices(ring: nat, count: nat, sectors: nat): seq<int>
  {
    if count == 0 then [] else RingIndices(ring, count - 1, sectors) + CellIndices(ring, count - 1, sectors)
  }

  /** The indices of the cells of rings 0 .. ringCount-1, each with `sectors` cells. */
  function GridIndices(ringCount: nat, sectors: nat): seq<int>
  {
    if ringCount == 0 then [] else GridIndices(ringCount - 1, sectors) + RingIndices(ringCount - 1, sectors, sectors)
  }

  /** Position of the first index of cell (ring, sector) in the index list. */
  function CellStart(ring: nat, sector: nat, sectors: nat): nat
  {
    6 * (ring * sectors + sector)
  }

  lemma {:induction false} RingIndicesLength(ring: nat, count: nat, sectors: nat)
    ensures |RingIndices(ring, count, sectors)| == 6 * count
  {
    if count > 0 {
      RingIndicesLength(ring, count - 1, sectors);
    }
  }

  /** Within one ring, cell s occupies positions 6*s .. 6*s+5. */
  lemma {:induction false} RingCellAt(ring: nat, count: nat, sectors: nat, s: nat)
    requires s < count
    ensures 6 * s + 6 <= |RingIndices(ring, count, sectors)|
    ensures RingIndices(ring, count, sectors)[6 * s .. 6 * s + 6] == CellIndices(ring, s, sectors)
  {
    var prev := RingIndices(ring, count - 1, sectors);
    var cell := CellIndices(ring, count - 1, sectors);
    RingIndicesLength(ring, count - 1, sectors);
    if s < count - 1 {
      RingCellAt(ring, count - 1, sectors, s);
      assert (prev + cell)[6 * s .. 6 * s + 6] == prev[6 * s .. 6 * s + 6];
    } else {
      assert (prev + cell)[6 * s .. 6 * s + 6] == cell;
    }
  }

  /** The index loops append rings*sectors*6 indices. */
  lemma {:induction false} GridIndicesLength(ringCount: nat, sectors: nat)
    ensures |GridIndices(ringCount, sectors)| == 6 * (ringCount * sectors)
  {
    if ringCount > 0 {
      GridIndicesLength(ringCount - 1, sectors);
      RingIndicesLength(ringCount - 1, sectors, sectors);
      assert ringCount * sectors == (ringCount - 1) * sectors + sectors;
    }
  }

  /** The cells of the last of ringCount rings start right after the
      indices of the rings before it. */
  lemma LastRingStart(ringCount: nat, sectors: nat, s: nat)
    requires 0 < ringCount
    ensures CellStart(ringCount - 1, s, sectors) == |GridIndices(ringCount - 1, sectors)| + 6 * s
  {
    GridIndicesLength(ringCount - 1, sectors);
  }

  /** Cells are visited ring-major: cell (r, s) occupies the six positions
      starting at 6*(r*sectors+s). */
  lemma GridCellAt(ringCount: nat, sectors: nat, r: nat, s: nat)
    requires r < ringCount && s < sectors
    ensures CellStart(r, s, sectors) + 6 <= |GridIndices(ringCount, sectors)|
    ensures GridIndices(ringCount, sectors)[CellStart(r, s, sectors) .. CellStart(r, s, sectors) + 6]
      == CellIndices(r, s, sectors)
  {
    LastRingCellAt(r + 1, sectors, s);
    GridIndicesPrefix(r + 1, ringCount, sectors);
    SlicePrefix(GridIndices(r + 1, sectors), GridIndices(ringCount, sectors), CellStart(r, s, sectors), 6);
  }

  /** The cells of the last ring sit after the indices of all earlier rings. */
  lemma LastRingCellAt(ringCount: nat, sectors: nat, s: nat)
    requires 0 < ringCount && s < sectors
    ensures CellStart(ringCount - 1, s, sectors) + 6 <= |GridIndices(ringCount, sectors)|
    ensures GridIndices(ringCount, sectors)[CellStart(ringCount - 1, s, sectors) .. CellStart(ringCount - 1, s, sectors) + 6]
      == CellIndices(ringCount - 1, s, sectors)
  {
    var prev := GridIndices(ringCount - 1, sectors);
    var ringList := RingIndices(ringCount - 1, sectors, sectors);
    RingIndicesLength(ringCount - 1, sectors, sectors);
    LastRingStart(ringCount, sectors, s);
    RingCellAt(ringCount - 1, sectors, sectors, s);
    SliceAppendRight(prev, ringList, CellStart(ringCount - 1, s, sectors), 6);
  }

  /** Indices already appended are never changed: the list for fewer rings is
      a prefix of the list for more rings. */
  lemma {:induction false} GridIndicesPrefix(fewer: nat, more: nat, sectors: nat)
    requires fewer <= more
    ensures GridIndices(fewer, sectors) <= GridIndices(more, sectors)
  {
    if fewer < more {
      GridIndicesPrefix(fewer, more - 1, sectors);
    }
  }

  /** Each cell names the grid vertices (r,s), (r+1,s), (r,s+1) and
      (r+1,s), (r+1,s+1), (r,s+1): `second` is the same sector on the next
      ring and `first+1` the next sector on the same ring, with no wrap to
      sector 0 (the last cell of a ring uses the duplicated seam vertex at
      sector `sectors`). Both triangles name three distinct vertices. */
  lemma CellVertices(rings: nat, sectors: nat, r: nat, s: nat)
    requires r < rings && s < sectors
    ensures var c := CellIndices(r, s, sectors);
      var vs := SphereVertices(rings, sectors);
      (forall k :: 0 <= k < 6 ==> 0 <= c[k] < |vs|) &&
      vs[c[0]] == GridVertex(r, s) && vs[c[1]] == GridVertex(r + 1, s) && vs[c[2]] == GridVertex(r, s + 1) &&
      vs[c[3]] == GridVertex(r + 1, s) && vs[c[4]] == GridVertex(r + 1, s + 1) && vs[c[5]] == GridVertex(r, s + 1)
  {
    NextRing(r, s, sectors);
    NextRing(r, s + 1, sectors);
    SphereVerticesAt(rings, sectors, r, s);
    SphereVerticesAt(rings, sectors, r + 1, s);
    SphereVerticesAt(rings, sectors, r, s + 1);
    SphereVerticesAt(rings, sectors, r + 1, s + 1);
  }

  /** The last cell of every ring links to the seam vertex (r, sectors), a
      different slot of the vertex list from sector 0 of the same ring. */
  lemma OpenSeam(rings: nat, sectors: nat, r: nat)
    requires r < rings && 0 < sectors
    ensures var c := CellIndices(r, sectors - 1, sectors);
      var vs := SphereVertices(rings, sectors);
      c[2] == VertexIndex(r, sectors, sectors) != VertexIndex(r, 0, sectors) &&
      0 <= c[2] < |vs| && 0 <= c[4] < |vs| &&
      vs[c[2]] == GridVertex(r, sectors) && vs[c[4]] == GridVertex(r + 1, sectors)
  {
    CellVertices(rings, sectors, r, sectors - 1);
  }

  lemma {:induction false} RingIndicesBound(ring: nat, count: nat, sectors: nat)
    requires count <= sectors
    ensures forall i :: 0 <= i < |RingIndices(ring, count, sectors)| ==>
      0 <= RingIndices(ring, count, sectors)[i] <= VertexIndex(ring + 1, count, sectors)
  {
    if count > 0 {
      RingIndicesBound(ring, count - 1, sectors);
      NextRing(ring, count - 1, sectors);
    }
  }

  /** Every index the loops emit is below the vertex count (rings+1)*(sectors+1). */
  lemma {:induction false} GridIndicesBound(rings: nat, sectors: nat)
    ensures forall i :: 0 <= i < |GridIndices(rings, sectors)| ==>
      0 <= GridIndices(rings, sectors)[i] < (rings + 1) * (sectors + 1)
  {
    if rings > 0 {
      var prev := GridIndices(rings - 1, sectors);
      var ringList := RingIndices(rings - 1, sectors, sectors);
      GridIndicesBound(rings - 1, sectors);
      RingIndicesBound(rings - 1, sectors, sectors);
      NextRing(rings - 1, 0, sectors);
      NextRing(rings, 0, sectors);
      assert VertexIndex(rings, sectors, sectors) < (rings + 1) * (sectors + 1);
      MulMonotone(rings, rings + 1, sectors + 1);
      forall i | 0 <= i < |prev + ringList|
        ensures 0 <= (prev + ringList)[i] < (rings + 1) * (sectors + 1)
      {
        if i < |prev| {
          assert (prev + ringList)[i] == prev[i];
        } else {
          assert (prev + ringList)[i] == ringList[i - |prev|];
        }
      }
    }
  }

  /** When the grid has a cell, the largest index, second+1 of the last
      cell, is exactly (rings+1)*(sectors+1)-1, the last vertex. */
  lemma GridIndicesMax(rings: nat, sectors: nat)
    requires 0 < rings && 0 < sectors
    ensures CellStart(rings - 1, sectors - 1, sectors) + 4 < |GridIndices(rings, sectors)|
    ensures GridIndices(rings, sectors)[CellStart(rings - 1, sectors - 1, sectors) + 4] == (rings + 1) * (sectors + 1) - 1
  {
    GridCellAt(rings, sectors, rings - 1, sectors - 1);
    NextRing(rings - 1, sectors - 1, sectors);
    NextRing(rings, 0, sectors);
    assert GridIndices(rings, sectors)[CellStart(rings - 1, sectors - 1, sectors) + 4]
      == CellIndices(rings - 1, sectors - 1, sectors)[4];
  }

  /** The largest values the index loop computes for cell (ring, sector) of a
      rings x sectors grid stay below the grid's vertex count. */
  lemma CellWithinGrid(rings: nat, sectors: nat, ring: nat, sector: nat)
    requires ring < rings && sector < sectors
    ensures VertexIndex(ring, sector, sectors) + sectors + 2 <= (rings + 1) * (sectors + 1) - 1
  {
    MulMonotone(ring, rings - 1, sectors + 1);
    assert (rings + 1) * (sectors + 1) == (rings - 1) * (sectors + 1) + 2 * (sectors + 1);
  }

  /** Every index fits in a UInt16: either no cell exists, or the grid has at
      most 65536 vertices. */
  predicate IndicesFitUInt16(rings: nat, sectors: nat)
  {
    rings == 0 || sectors == 0 || (rings + 1) * (sectors + 1) <= 0x1_0000
  }

  /** `SphereRenderer.init` runs without trapping: both counts are
      positive, so the index buffer is not empty, and every index fits in a
      UInt16. */
  predicate InitSucceeds(rings: int, sectors: int)
  {
    rings >= 1 && sectors >= 1 && IndicesFitUInt16(rings, sectors)
  }

  /** The body of the inner index loop for cell (ring, sector): the
      conversions and additions trap (None) exactly when the cell's largest
      index, `second + 1`, does not fit in a UInt16; otherwise the six
      appended values are the cell's indices. */
  method EncodeCell(ring: nat, sector: nat, sectors: nat) returns (cell: Option<seq<uint16>>)
    ensures cell.Some? <==> VertexIndex(ring + 1, sector + 1, sectors) <= UInt16Max
    ensures cell.Some? ==> Encodes(cell.value, CellIndices(ring, sector, sectors))
  {
    NextRing(ring, sector + 1, sectors);
    var first := ToUInt16(VertexIndex(ring, sector, sectors));
    if first.None? {
      return None;
    }
    var step := ToUInt16(sectors + 1);
    if step.None? {
      return None;
    }
    var second := AddUInt16(first.value, step.value);
    if second.None? {
      return None;
    }
    var firstNext := AddUInt16(first.value, 1);
    if firstNext.None? {
      return None;
    }
    var secondNext := AddUInt16(second.value, 1);
    if secondNext.None? {
      return None;
    }
    cell := Some([first.value, second.value, firstNext.value, second.value, secondNext.value, firstNext.value]);
  }

  /** The index loops of `SphereRenderer.init`, with Swift's trapping UInt16
      conversions and additions. */
  method GenerateIndices(rings: nat, sectors: nat) returns (result: Result<seq<uint16>, InitError>)
    ensures result.Success? <==> IndicesFitUInt16(rings, sectors)
    ensures result.Success? ==> Encodes(result.value, GridIndices(rings, sectors))
    ensures result.Failure? ==> result.error == UInt16Overflow
  {
    var indices: seq<uint16> := [];
    for ring := 0 to rings
      invariant Encodes(indices, GridIndices(ring, sectors))
      invariant 1 <= ring && 1 <= sectors ==> (ring + 1) * (sectors + 1) <= 0x1_0000
    {
      for sector := 0 to sectors
        invariant Encodes(indices, GridIndices(ring, sectors) + RingIndices(ring, sector, sectors))
        invariant 1 <= sector ==> VertexIndex(ring + 1, sector, sectors) <= UInt16Max
      {
        CellWithinGrid(rings, sectors, ring, sector);
        NextRing(ring, sector + 1, sectors);
        var cell := EncodeCell(ring, sector, sectors);
        if cell.None? {
          return Failure(UInt16Overflow);
        }
        EncodesAppend(indices, GridIndices(ring, sectors) + RingIndices(ring, sector, sectors),
                      cell.value, CellIndices(ring, sector, sectors));
        indices := indices + cell.value;
      }
      if 1 <= sectors {
        NextRing(ring + 1, 0, sectors);
      }
    }
    return Success(indices);
  }

  /** `SphereRenderer.init`: build the vertex grid and the index list, store
      the index count, and create both buffers. With no cells the index list
      is empty, and the zero-length index buffer cannot be created. */
  method Init(rings: int, sectors: int) returns (result: Result<SphereRenderer, InitError>)
    ensures result.Success? <==> InitSucceeds(rings, sectors)
    ensures result.Failure? ==>
      result.error ==
        (if rings < 0 || sectors < 0 then InvalidRange
         else if rings == 0 || sectors == 0 then EmptyIndexBuffer
         else UInt16Overflow)
    ensures result.Success? ==>
      var r := result.value;
      r.vertexBuffer.contents == SphereVertices(rings, sectors) &&
      Encodes(r.indexBuffer.contents, GridIndices(rings, sectors)) &&
      |r.vertexBuffer.contents| == (rings + 1) * (sectors + 1) &&
      r.indexCount == 6 * (rings * sectors) && r.indexCount > 0 &&
      RendererValid(r)
  {
    if rings < 0 || sectors < 0 {
      return Failure(InvalidRange);
    }
    var vertices := GenerateVertices(rings, sectors);
    var indices := GenerateIndices(rings, sectors);
    if indices.Failure? {
      return Failure(indices.error);
    }
    EncodedGridIndices(rings, sectors, indices.value);
    if |indices.value| == 0 {
      return Failure(EmptyIndexBuffer);
    }
    var indexCount := |indices.value|;
    result := Success(SphereRenderer(
      MakeBuffer(vertices, SphereVertexStride),
      MakeBuffer(indices.value, UInt16Stride),
      indexCount));
  }

  /** A UInt16 list holding the grid's index list is a triangle list over
      the grid's vertices with 6*rings*sectors entries. */
  lemma EncodedGridIndices(rings: nat, sectors: nat, indices: seq<uint16>)
    requires Encodes(indices, GridIndices(rings, sectors))
    ensures |indices| == 6 * (rings * sectors)
    ensures TriangleListValid((rings + 1) * (sectors + 1), indices)
  {
    GridIndicesLength(rings, sectors);
    GridIndicesBound(rings, sectors);
  }

  /** What a SphereRenderer built by `init` satisfies: its index list is a
      triangle list over its vertices, `indexCount` is the index list's
      length and both buffers are element count times stride bytes long. */
  predicate RendererValid(r: SphereRenderer)
  {
    TriangleListValid(|r.vertexBuffer.contents|, r.indexBuffer.contents) &&
    r.indexCount == |r.indexBuffer.contents| &&
    r.vertexBuffer.length == |r.vertexBuffer.contents| * SphereVertexStride &&
    r.indexBuffer.length == |r.indexBuffer.contents| * UInt16Stride
  }

  /** `SphereRenderer.render`: bind the pipeline, the vertex buffer and the
      two matrices, then issue one indexed draw of `indexCount` indices.
      For a renderer built by `init`, that draw covers the whole index buffer
      and every index it reads names a vertex of the vertex buffer. */
  function Render(r: SphereRenderer, rotationSteps: nat): (cmds: seq<Command>)
    ensures DrawCount(cmds) == 1 && IndicesDrawn(cmds) == r.indexCount
    ensures RendererValid(r) ==>
      IndicesDrawn(cmds) * UInt16Stride == r.indexBuffer.length &&
      forall i :: 0 <= i < IndicesDrawn(cmds) ==> r.indexBuffer.contents[i] as int < |r.vertexBuffer.contents|
  {
    var setup := [SetRenderPipelineState, SetVertexBuffer(0),
                  SetVertexBytes(1, ModelViewProjection(rotationSteps)),
                  SetVertexBytes(2, NormalMatrix(rotationSteps))];
    var draw := DrawIndexedTriangles(r.indexCount, UInt16Index, 0);
    assert setup + [draw] + [] == setup + [draw];
    SingleDraw(setup, draw, []);
    setup + [draw]
  }

  // ---------------------------------------------------------------------
  // Concrete meshes

  /** The sphere `SphereCoordinator.init` asks for. */
  const CoordinatorRings: nat := 60
  const CoordinatorSectors: nat := 60

  /** `SphereCoordinator.init` builds its renderer with 60 rings and 60
      sectors: `init` does not trap, the mesh has 61*61 = 3721 vertices and
      60*60*6 = 21600 indices, and the renderer is valid. */
  method CoordinatorRenderer() returns (r: SphereRenderer)
    ensures InitSucceeds(CoordinatorRings, CoordinatorSectors)
    ensures |r.vertexBuffer.contents| == 3721 && r.indexCount == 21600
    ensures RendererValid(r)
  {
    var result := Init(CoordinatorRings, CoordinatorSectors);
    r := result.value;
  }

  /** The square grids `init` accepts are 1 x 1 up to 255 x 255 (65536
      vertices); 0 x 0, negative counts and 256 x 256 or more trap. */
  lemma SquareGridLimit(n: int)
    ensures InitSucceeds(n, n) <==> 1 <= n <= 255
  {
    if 1 <= n <= 255 {
      MulMonotone(n + 1, 256, n + 1);
      MulMonotone(n + 1, 256, 256);
    } else if n >= 256 {
      MulMonotone(257, n + 1, n + 1);
      MulMonotone(257, n + 1, 257);
    }
  }
}
