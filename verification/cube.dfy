/** The mesh tables and the per-frame step of `MetalKitCubeRenderer` in
    Examples/MetalKitCubeView.swift. Vertex positions are the cube corners
    (+-0.5, +-0.5, +-0.5), written here in half units (+-1); colour channels
    are 0 or 1. The rotation angle, which `draw` advances by a fixed step
    after every drawn frame, is kept as the number of frames drawn. */
module MetalKitCube {
  import opened MetalTypes

  /** A position in half units: 1 stands for 0.5 and -1 for -0.5. */
  datatype Position = Position(x: int, y: int, z: int)

  datatype Color = Color(r: int, g: int, b: int, a: int)

  datatype CubeVertex = CubeVertex(position: Position, color: Color)

  /** MemoryLayout<CubeVertex>.stride: a SIMD3<Float> (16 bytes) and a SIMD4<Float>. */
  const CubeVertexStride: nat := 32

  /** The index count hard-coded in the draw call. */
  const CubeDrawCount: nat := 36

  const FaceCount: nat := 6

  const Red := Color(1, 0, 0, 1)
  const Green := Color(0, 1, 0, 1)
  const Blue := Color(0, 0, 1, 1)
  const Yellow := Color(1, 1, 0, 1)
  const Magenta := Color(1, 0, 1, 1)
  const Cyan := Color(0, 1, 1, 1)

  function V(x: int, y: int, z: int, c: Color): CubeVertex
  {
    CubeVertex(Position(x, y, z), c)
  }

  /** The vertex table of `setupBuffers`: four vertices per face, faces in
      the order front, back, left, right, top, bottom. */
  const CubeVertices: seq<CubeVertex> := [
    V(-1, -1,  1, Red),     V( 1, -1,  1, Red),     V( 1,  1,  1, Red),     V(-1,  1,  1, Red),
    V(-1, -1, -1, Green),   V( 1, -1, -1, Green),   V( 1,  1, -1, Green),   V(-1,  1, -1, Green),
    V(-1, -1, -1, Blue),    V(-1, -1,  1, Blue),    V(-1,  1,  1, Blue),    V(-1,  1, -1, Blue),
    V( 1, -1, -1, Yellow),  V( 1, -1,  1, Yellow),  V( 1,  1,  1, Yellow),  V( 1,  1, -1, Yellow),
    V(-1,  1, -1, Magenta), V(-1,  1,  1, Magenta), V( 1,  1,  1, Magenta), V( 1,  1, -1, Magenta),
    V(-1, -1, -1, Cyan),    V( 1, -1, -1, Cyan),    V( 1, -1,  1, Cyan),    V(-1, -1,  1, Cyan)
  ]

  /** The index table of `setupBuffers`: two triangles per face. */
  const CubeIndices: seq<uint16> := [
     0,  1,  2,   2,  3,  0,
     4,  6,  5,   6,  4,  7,
     8,  9, 10,  10, 11,  8,
    12, 14, 13,  14, 12, 15,
    16, 17, 18,  18, 19, 16,
    20, 22, 21,  22, 20, 23
  ]

  /** Vertex c (0..3) of face f. */
  function FaceVertex(f: nat, c: nat): CubeVertex
    requires f < FaceCount && c < 4
  {
    CubeVertices[4 * f + c]
  }

  /** Index k (0..5) of face f. */
  function FaceIndex(f: nat, k: nat): int
    requires f < FaceCount && k < 6
  {
    CubeIndices[6 * f + k] as int
  }

  /** The vertices face f's indices refer to. */
  function FaceUses(f: nat): set<int>
    requires f < FaceCount
  {
    set k | 0 <= k < 6 :: FaceIndex(f, k)
  }

  /** Index j (0..2) of triangle t. */
  function TriangleIndex(t: nat, j: nat): int
    requires t < 12 && j < 3
  {
    CubeIndices[3 * t + j] as int
  }

  /** The direction face f faces, away from the cube's centre. */
  function Outward(f: nat): Position
    requires f < FaceCount
  {
    [Position(0, 0, 1), Position(0, 0, -1), Position(-1, 0, 0),
     Position(1, 0, 0), Position(0, 1, 0), Position(0, -1, 0)][f]
  }

  function Dot(a: Position, b: Position): int
  {
    a.x * b.x + a.y * b.y + a.z * b.z
  }

  /** The tables have 24 vertices and 36 indices, a whole number of
      triangles, and the hard-coded draw count is the index table's length. */
  lemma CubeTableSizes()
    ensures |CubeVertices| == 4 * FaceCount == 24
    ensures |CubeIndices| == 6 * FaceCount == 36
    ensures |CubeIndices| % 3 == 0
    ensures CubeDrawCount == |CubeIndices|
  {
  }

  /** Face f's six indices name only its own vertices 4f..4f+3. */
  lemma FaceIndicesInFace(f: nat)
    requires f < FaceCount
    ensures forall k :: 0 <= k < 6 ==> 4 * f <= FaceIndex(f, k) < 4 * f + 4
  {
  }

  /** Where each of face f's four vertices appears among its six indices. */
  lemma FaceIndexWitnesses(f: nat)
    requires f < FaceCount
    ensures FaceIndex(f, 0) == 4 * f
    ensures FaceIndex(f, if f % 2 == 0 then 1 else 2) == 4 * f + 1
    ensures FaceIndex(f, if f % 2 == 0 then 2 else 1) == 4 * f + 2
    ensures FaceIndex(f, if f % 2 == 0 then 4 else 5) == 4 * f + 3
  {
    if f == 0 {} else if f == 1 {} else if f == 2 {} else if f == 3 {} else if f == 4 {} else {}
  }

  /** Face f's six indices use exactly its own four vertices 4f..4f+3, each
      at least once. */
  lemma CubeFaceIndices(f: nat)
    requires f < FaceCount
    ensures FaceUses(f) == {4 * f, 4 * f + 1, 4 * f + 2, 4 * f + 3}
  {
    FaceIndicesInFace(f);
    FaceIndexWitnesses(f);
    RangeCover(FaceUses(f), 4 * f);
  }

  /** A set of integers within base..base+3 that holds all four of them is exactly those four. */
  lemma RangeCover(uses: set<int>, base: int)
    requires forall x :: x in uses ==> base <= x < base + 4
    requires base in uses && base + 1 in uses && base + 2 in uses && base + 3 in uses
    ensures uses == {base, base + 1, base + 2, base + 3}
  {
    var quad := {base, base + 1, base + 2, base + 3};
    forall x | x in uses
      ensures x in quad
    {
      assert x == base || x == base + 1 || x == base + 2 || x == base + 3;
    }
  }

  /** The whole index table is a valid triangle list over the 24 vertices. */
  lemma CubeMeshValid()
    ensures TriangleListValid(|CubeVertices|, CubeIndices)
  {
    forall i | 0 <= i < |CubeIndices|
      ensures CubeIndices[i] as int < |CubeVertices|
    {
      FaceIndicesInFace(i / 6);
      assert CubeIndices[i] as int == FaceIndex(i / 6, i % 6);
    }
  }

  /** Every triangle names three distinct vertices. */
  lemma CubeTrianglesDistinct()
    ensures forall t :: 0 <= t < 12 ==>
      TriangleIndex(t, 0) != TriangleIndex(t, 1) &&
      TriangleIndex(t, 1) != TriangleIndex(t, 2) &&
      TriangleIndex(t, 0) != TriangleIndex(t, 2)
  {
  }

  /** Each face is a flat-coloured square: its four vertices share one
      colour and lie in the plane half a unit out along the face's direction. */
  lemma CubeFacesFlat(f: nat)
    requires f < FaceCount
    ensures forall c :: 0 <= c < 4 ==> FaceVertex(f, c).color == FaceVertex(f, 0).color
    ensures forall c :: 0 <= c < 4 ==> Dot(FaceVertex(f, c).position, Outward(f)) == 1
  {
  }

  /** A face's four vertices are four different corners, and the six face
      colours differ. */
  lemma CubeFacesDistinct(f: nat)
    requires f < FaceCount
    ensures forall c, d :: 0 <= c < d < 4 ==> FaceVertex(f, c).position != FaceVertex(f, d).position
    ensures forall g :: 0 <= g < FaceCount && g != f ==> FaceVertex(g, 0).color != FaceVertex(f, 0).color
  {
  }

  /** The two buffers `setupBuffers` creates: 24 vertices of 32 bytes and
      36 UInt16 indices of 2 bytes. */
  function CubeVertexBuffer(): (b: Buffer<CubeVertex>)
    ensures b.contents == CubeVertices && b.length == 24 * CubeVertexStride
  {
    MakeBuffer(CubeVertices, CubeVertexStride)
  }

  function CubeIndexBuffer(): (b: Buffer<uint16>)
    ensures b.contents == CubeIndices && b.length == 36 * UInt16Stride == 72
  {
    MakeBuffer(CubeIndices, UInt16Stride)
  }

  // ---------------------------------------------------------------------
  // Per-frame step

  /** What the view and the command queue supply for one frame. */
  datatype FrameResources = FrameResources(
    commandBuffer: bool,         // commandQueue.makeCommandBuffer() succeeded
    renderPassDescriptor: bool,  // view.currentRenderPassDescriptor is present
    renderEncoder: bool,         // makeRenderCommandEncoder(descriptor:) succeeded
    drawable: bool)              // view.currentDrawable is present

  /** The guard of `draw`: everything needed to encode the frame is available. */
  predicate CanEncode(res: FrameResources)
  {
    res.commandBuffer && res.renderPassDescriptor && res.renderEncoder
  }

  /** The commands `draw` records for a frame drawn at rotation `rotationSteps`. */
  function FrameCommands(rotationSteps: nat, res: FrameResources): seq<Command>
  {
    if !CanEncode(res) then []
    else
      [SetRenderPipelineState, SetDepthStencilState, SetVertexBuffer(0),
       SetVertexBytes(1, ModelViewProjection(rotationSteps))]
      + [DrawIndexedTriangles(CubeDrawCount, UInt16Index, 0)]
      + [EndEncoding] + (if res.drawable then [Present] else []) + [Commit]
  }

  /** The rotation after a frame: one step more when the frame was drawn. */
  function NextRotation(rotationSteps: nat, res: FrameResources): nat
  {
    if CanEncode(res) then rotationSteps + 1 else rotationSteps
  }

  /** A skipped frame records nothing; a drawn frame issues exactly one
      indexed draw covering the whole 36-entry index buffer with indices
      that all name vertices of the vertex buffer, uses the rotation from
      before the frame, always commits (as its last command) and presents
      only when a drawable is available. */
  lemma FrameOutcome(rotationSteps: nat, res: FrameResources)
    ensures var cmds := FrameCommands(rotationSteps, res);
      (!CanEncode(res) ==> cmds == []) &&
      DrawCount(cmds) == (if CanEncode(res) then 1 else 0) &&
      (CanEncode(res) ==>
        IndicesDrawn(cmds) * UInt16Stride == CubeIndexBuffer().length &&
        (forall i :: 0 <= i < IndicesDrawn(cmds) ==> CubeIndices[i] as int < |CubeVertices|) &&
        SetVertexBytes(1, ModelViewProjection(rotationSteps)) in cmds &&
        cmds[|cmds| - 1] == Commit) &&
      (Present in cmds <==> CanEncode(res) && res.drawable)
  {
    var cmds := FrameCommands(rotationSteps, res);
    if CanEncode(res) {
      var before := [SetRenderPipelineState, SetDepthStencilState, SetVertexBuffer(0),
                     SetVertexBytes(1, ModelViewProjection(rotationSteps))];
      var after := [EndEncoding] + (if res.drawable then [Present] else []) + [Commit];
      var draw := DrawIndexedTriangles(CubeDrawCount, UInt16Index, 0);
      assert cmds == before + [draw] + after;
      SingleDraw(before, draw, after);
      CubeMeshValid();
    }
  }

  /** The rotation after a run of frames. */
  function RunFrames(rotationSteps: nat, frames: seq<FrameResources>): nat
    decreases |frames|
  {
    if frames == [] then rotationSteps
    else RunFrames(NextRotation(rotationSteps, frames[0]), frames[1..])
  }

  /** The number of frames among `frames` that get drawn. */
  function DrawnFrames(frames: seq<FrameResources>): nat
  {
    if frames == [] then 0
    else (if CanEncode(frames[0]) then 1 else 0) + DrawnFrames(frames[1..])
  }

  /** The rotation never resets or goes back: after any run of frames it has
      advanced by exactly the number of frames drawn. */
  lemma {:induction false} RotationCountsDrawnFrames(rotationSteps: nat, frames: seq<FrameResources>)
    ensures RunFrames(rotationSteps, frames) == rotationSteps + DrawnFrames(frames)
    ensures RunFrames(rotationSteps, frames) >= rotationSteps
    decreases |frames|
  {
    if frames != [] {
      RotationCountsDrawnFrames(NextRotation(rotationSteps, frames[0]), frames[1..]);
    }
  }

  /** `MetalKitCubeRenderer`: the buffers `setupBuffers` creates and the
      rotation that `draw` advances. Device, queue, pipeline and depth state
      are not part of this model. */
  class CubeRenderer {
    var vertexBuffer: Buffer<CubeVertex>
    var indexBuffer: Buffer<uint16>
    var rotationSteps: nat

    /** The buffers hold the cube's tables. */
    predicate Valid()
      reads this
    {
      vertexBuffer == CubeVertexBuffer() && indexBuffer == CubeIndexBuffer()
    }

    /** `init`: set up the buffers; the rotation starts at zero. */
    constructor ()
      ensures Valid() && rotationSteps == 0
    {
      vertexBuffer := Buffer([], 0);
      indexBuffer := Buffer([], 0);
      rotationSteps := 0;
      new;
      SetupBuffers();
    }

    /** `setupBuffers`: create the vertex and index buffers from the tables. */
    method SetupBuffers()
      modifies this
      ensures Valid() && rotationSteps == old(rotationSteps)
    {
      vertexBuffer := MakeBuffer(CubeVertices, CubeVertexStride);
      indexBuffer := MakeBuffer(CubeIndices, UInt16Stride);
    }

    /** `draw(in:)`: return early when the command buffer, the render pass
      descriptor or the encoder is missing; otherwise encode the frame at the
      current rotation, present if a drawable exists, commit, and then
      advance the rotation by one step. */
    method Draw(res: FrameResources) returns (commands: seq<Command>)
      requires Valid()
      modifies this
      ensures Valid()
      ensures commands == FrameCommands(old(rotationSteps), res)
      ensures rotationSteps == NextRotation(old(rotationSteps), res)
      ensures !CanEncode(res) ==> commands == [] && rotationSteps == old(rotationSteps)
      ensures CanEncode(res) ==> DrawCount(commands) == 1 && rotationSteps == old(rotationSteps) + 1
      ensures CanEncode(res) ==> IndicesDrawn(commands) * UInt16Stride == indexBuffer.length
    {
      if !(res.commandBuffer && res.renderPassDescriptor && res.renderEncoder) {
        return [];
      }
      commands := [SetRenderPipelineState, SetDepthStencilState];
      commands := commands + [SetVertexBuffer(0)];
      commands := commands + [SetVertexBytes(1, ModelViewProjection(rotationSteps))];
      commands := commands + [DrawIndexedTriangles(CubeDrawCount, UInt16Index, 0)];
      commands := commands + [EndEncoding];
      if res.drawable {
        commands := commands + [Present];
      }
      commands := commands + [Commit];
      FrameOutcome(rotationSteps, res);
      rotationSteps := rotationSteps + 1;
    }
  }
}
