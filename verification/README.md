# MetalKit mesh topology

A Dafny model of the integer mesh topology of the two MetalKit renderers in
the Examples app:

- `SphereRenderer` (Examples/MetalKitSphereView.swift) builds a
  latitude/longitude sphere. Its vertex grid has rings `0...rings` and sectors
  `0...sectors`. Its UInt16 index list has two triangles per grid cell. Its
  `render` issues one indexed draw of `indexCount` indices.
- `MetalKitCubeRenderer` (Examples/MetalKitCubeView.swift) uploads a fixed
  table of 24 coloured vertices (four per face) and 36 UInt16 indices (two
  triangles per face). Each `draw(in:)` call that gets a command buffer, a
  render pass descriptor and an encoder encodes one indexed draw of the 36
  indices and then advances the rotation. Otherwise it returns without
  drawing and leaves the rotation unchanged.

The model has three modules:

- `MetalTypes` (metal_types.dfy) holds Swift's `UInt16` with its trapping
  conversion and addition, GPU buffers given by their contents and byte
  length, and the commands a renderer records into a frame.
- `MetalKitSphere` (sphere.dfy) models the sphere renderer.
  - `SphereRenderer` has only `let` properties, so it is a value built by
    `Init`.
  - `Init` returns a `Result`. It fails with `InvalidRange` where Swift's
    `0...n` traps on a negative bound. It fails with `UInt16Overflow` where a
    `UInt16(...)` conversion or a UInt16 `+` traps. It fails with
    `EmptyIndexBuffer` when there are no cells (0 rings or 0 sectors): the
    index list is then empty, Metal does not create a zero-length buffer, so
    `makeBuffer` returns nil and the force-unwrap traps.
  - A vertex is represented by the grid point `(ring, sector)` it is computed
    from.
- `MetalKitCube` (cube.dfy) models the cube renderer.
  - The vertex and index tables are transcribed exactly. Positions are in
    half-units, so ±0.5 is written ±1, and colours are the integers 0 and 1.
  - `MetalKitCubeRenderer` changes its rotation on every drawn frame, so it
    is a class, `CubeRenderer`.
  - The floating-point `rotationAngle` is represented by `rotationSteps`, the
    number of frames drawn so far. The angle is `0.005 * rotationSteps`.

## Model

| member | source | states |
|---|---|---|
| MetalTypes.ToUInt16 | Examples/MetalKitSphereView.swift:168 | `UInt16(x)` succeeds exactly when 0 <= x <= 65535, and then it holds x |
| MetalTypes.AddUInt16 | Examples/MetalKitSphereView.swift:169-177 | UInt16 `+` succeeds exactly when the true sum is at most 65535, and then it is that sum |
| MetalTypes.DrawCountAppend | Examples/MetalKitCubeView.swift:217-231 | the draw count and the number of indices drawn are additive over concatenated command lists |
| MetalTypes.SingleDraw | Examples/MetalKitCubeView.swift:217-231 | a command list whose only draw is `d` issues exactly one draw of `d.indexCount` indices |
| MetalKitSphere.RingVertices | Examples/MetalKitSphereView.swift:141-162 | the inner vertex loop yields `count` vertices, and the one at position s is the grid point (ring, s) |
| MetalKitSphere.RingsVerticesLength | Examples/MetalKitSphereView.swift:141-163 | k rings of sectors+1 vertices each make k*(sectors+1) vertices |
| MetalKitSphere.RingsVertexAt | Examples/MetalKitSphereView.swift:141-163 | vertices are appended ring-major: grid point (r, s) sits at position r*(sectors+1)+s |
| MetalKitSphere.SphereVerticesAt | Examples/MetalKitSphereView.swift:141-163 | the vertex list has (rings+1)*(sectors+1) entries, and position `VertexIndex(ring, sector)` holds grid point (ring, sector) |
| MetalKitSphere.GenerateVertices | Examples/MetalKitSphereView.swift:136-163 | the nested vertex loops build the ring-major grid, with (rings+1)*(sectors+1) vertices |
| MetalKitSphere.RingIndicesLength | Examples/MetalKitSphereView.swift:167-177 | one ring of `count` cells contributes 6*count indices |
| MetalKitSphere.RingCellAt | Examples/MetalKitSphereView.swift:167-177 | within a ring, cell s occupies the six indices starting at 6*s |
| MetalKitSphere.GridIndicesLength | Examples/MetalKitSphereView.swift:166-179 | the index list has 6*rings*sectors entries, which is what `indexCount` stores |
| MetalKitSphere.GridCellAt | Examples/MetalKitSphereView.swift:166-177 | cells are emitted ring-major: cell (r, s) occupies the six indices starting at 6*(r*sectors+s) |
| MetalKitSphere.LastRingCellAt | Examples/MetalKitSphereView.swift:166-177 | the cells of the last ring are appended after all earlier rings: cell s of that ring occupies the six indices starting at 6*((ringCount-1)*sectors+s) |
| MetalKitSphere.GridIndicesPrefix | Examples/MetalKitSphereView.swift:166-177 | the index list of fewer rings is a prefix of the list of more rings |
| MetalKitSphere.CellVertices | Examples/MetalKitSphereView.swift:168-177 | the two triangles of cell (r, s) are (r,s), (r+1,s), (r,s+1) and (r+1,s), (r+1,s+1), (r,s+1), so they cover the cell's four corners |
| MetalKitSphere.OpenSeam | Examples/MetalKitSphereView.swift:141-177 | the last cell of a ring uses the duplicated seam vertex (ring, sectors), not (ring, 0): the seam is closed by duplicated vertices, not by wrapping indices |
| MetalKitSphere.RingIndicesBound | Examples/MetalKitSphereView.swift:167-177 | every index of the first `count` cells of ring r lies between 0 and `VertexIndex(r+1, count)`, the next ring's vertex below the last cell's right edge |
| MetalKitSphere.GridIndicesBound | Examples/MetalKitSphereView.swift:166-177 | every index names a vertex: all are below (rings+1)*(sectors+1) |
| MetalKitSphere.GridIndicesMax | Examples/MetalKitSphereView.swift:168-176 | when rings and sectors are at least 1, the last cell's `second + 1` equals (rings+1)*(sectors+1)-1, the last vertex, so the bound of `GridIndicesBound` is reached and is tight |
| MetalKitSphere.EncodedGridIndices | Examples/MetalKitSphereView.swift:166-181 | a UInt16 list that holds the grid's index list has 6*rings*sectors entries and is a triangle list over the (rings+1)*(sectors+1) vertices |
| MetalKitSphere.CellWithinGrid | Examples/MetalKitSphereView.swift:168-176 | for every cell, `first + sectors + 2` (its largest corner) is at most (rings+1)*(sectors+1)-1 |
| MetalKitSphere.EncodeCell | Examples/MetalKitSphereView.swift:168-177 | one pass of the inner index loop traps exactly when the cell's largest index `second + 1` exceeds 65535; otherwise it appends exactly the cell's six indices |
| MetalKitSphere.GenerateIndices | Examples/MetalKitSphereView.swift:166-179 | the index loops succeed exactly when rings or sectors is 0 or (rings+1)*(sectors+1) <= 65536; on success the UInt16 list holds exactly the grid's index list, and otherwise the failure is a UInt16 overflow |
| MetalKitSphere.Init | Examples/MetalKitSphereView.swift:129-195 | `init` succeeds exactly when rings, sectors >= 1 and the indices fit in UInt16; a negative count is a range trap, a zero count an empty-index-buffer trap, and anything else an overflow trap; on success the buffers hold the grid ((rings+1)*(sectors+1) vertices) and its index list (6*rings*sectors indices, never zero), every index names a vertex, `indexCount` is the list's length, and each buffer is count*stride bytes |
| MetalKitSphere.Render | Examples/MetalKitSphereView.swift:245-263 | `render` issues exactly one draw of `indexCount` indices; for a renderer built by `init`, that draw covers the whole index buffer and reads only indices that name vertices |
| MetalKitSphere.CoordinatorRenderer | Examples/MetalKitSphereView.swift:47 | the 60x60 renderer the coordinator builds does not trap (`InitSucceeds(60, 60)`); it has 3721 vertices and 21600 indices and is valid |
| MetalKitSphere.SquareGridLimit | Examples/MetalKitSphereView.swift:166-195 | an n x n sphere is accepted exactly when 1 <= n <= 255: 255 x 255 (65536 vertices) is the largest, and every larger square, 0 x 0 and every negative count trap |
| MetalKitCube.CubeTableSizes | Examples/MetalKitCubeView.swift:83-136 | the vertex table has 24 entries and the index table has 36, the count `draw` passes |
| MetalKitCube.FaceIndicesInFace | Examples/MetalKitCubeView.swift:129-136 | the six indices of face f all lie in 4f .. 4f+3, so each face's triangles use only that face's vertices |
| MetalKitCube.CubeFaceIndices | Examples/MetalKitCubeView.swift:129-136 | the six indices of face f use each of the face's four vertices 4f .. 4f+3 |
| MetalKitCube.CubeMeshValid | Examples/MetalKitCubeView.swift:129-136 | the index table is a triangle list: whole triangles, every index below 24 |
| MetalKitCube.CubeTrianglesDistinct | Examples/MetalKitCubeView.swift:129-136 | none of the 12 triangles is degenerate: its three indices are distinct |
| MetalKitCube.CubeFacesFlat | Examples/MetalKitCubeView.swift:83-119 | the four vertices of a face share one colour and lie in the face's plane, at distance 0.5 along its outward axis |
| MetalKitCube.CubeFacesDistinct | Examples/MetalKitCubeView.swift:83-119 | the four corners of a face are distinct points, and no two faces share a colour |
| MetalKitCube.CubeVertexBuffer | Examples/MetalKitCubeView.swift:122-126 | the vertex buffer holds the 24-entry table and is 24*32 bytes long |
| MetalKitCube.CubeIndexBuffer | Examples/MetalKitCubeView.swift:139-143 | the index buffer holds the 36-entry table and is 72 bytes long |
| MetalKitCube.FrameOutcome | Examples/MetalKitCubeView.swift:202-247 | a frame without a command buffer, a pass descriptor or an encoder records nothing; otherwise it issues exactly one draw, which covers the whole index buffer and reads only valid vertices; it uses the rotation from before the frame and ends with a commit; it presents exactly when a drawable exists |
| MetalKitCube.RotationCountsDrawnFrames | Examples/MetalKitCubeView.swift:202-247 | after any run of frames the rotation has advanced by exactly the number of frames drawn; skipped frames leave it unchanged and it never goes back |
| MetalKitCube.CubeRenderer.constructor | Examples/MetalKitCubeView.swift:59-65 | `init` sets up both buffers from the tables, and the rotation starts at 0 |
| MetalKitCube.CubeRenderer.SetupBuffers | Examples/MetalKitCubeView.swift:81-144 | `setupBuffers` stores the vertex and index buffers built from the tables and leaves the rotation alone |
| MetalKitCube.CubeRenderer.Draw | Examples/MetalKitCubeView.swift:202-247 | `draw(in:)` records the frame's commands at the old rotation; a drawn frame's single draw covers this renderer's whole index buffer; the rotation advances by one step exactly when the frame was drawn; the buffers are left valid |

## Left out

- Device, command queue, library, pipeline, vertex-descriptor and depth-stencil creation are not modelled. This includes their `fatalError` and `try!` failures. They are outside the mesh topology.
- A `makeBuffer` that returns nil because the device cannot allocate is not modelled. The sphere force-unwraps it and the cube stores an implicitly unwrapped optional. Allocation failure is a runtime condition of the device. The zero-length sphere index buffer is modelled, as `EmptyIndexBuffer`.
- Floating-point geometry is not modelled: sphere positions, normals and colour gradients, and the MVP and normal matrices. A sphere vertex is represented by its grid point (ring, sector). A matrix is represented by the rotation count it is computed from.
- The aspect ratio and the view's bounds are not modelled.
- Triangle winding and back-face culling are not modelled. The model says which vertices each triangle uses, not the orientation they are listed in.
- `rotationAngle` is a `Float` incremented by 0.005. It is modelled as an exact frame count, so accumulated rounding is not captured.
- `SphereCoordinator.draw` is not modelled. It renders with a fixed angle and no state change.
- CircleMetal, the shader demo views, the SwiftUI screens and the test target are not part of this model.
- `rings == 0` and `sectors == 0` make the vertex loop divide by zero in `Float`. That gives NaN coordinates, not a trap. The trap comes later, when the empty index list meets the index buffer's `makeBuffer(...)!`, and the model reports it as `EmptyIndexBuffer`.
- Int64 overflow of `ring * (sectors + 1)` is not modelled separately. Any such value is also out of UInt16 range, so the model already reports it as `UInt16Overflow`.
- Memory exhaustion for very large grids is not modelled.
- MetalKitSphere.Init: the default arguments of `init` (`radius` 0.5, `rings` 40, `sectors` 40) are not modelled. Its only caller passes 60 rings and 60 sectors explicitly, and `radius` affects only floating-point positions.
