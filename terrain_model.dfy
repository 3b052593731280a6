/** The Terrain object: the flat buffers it fills when it is built and the
    passes that displace its vertices and recompute its normals. The
    buffers are JavaScript arrays the methods push into or overwrite in
    place; here they are sequence fields the methods reassign, and each
    method is proved against the functions of TerrainMesh and
    TerrainNormals. */
module TerrainModel {
  import opened Vectors
  import opened FlatBuffers
  import opened GridIndex
  import opened TerrainMesh
  import opened TerrainNormals

  /** The displacement step the constructor passes to generateTerrain. */
  const FaultDelta: real := 0.005

  /** The number of fault iterations the constructor asks for. */
  const FaultIterations: nat := 100

  lemma AppendAssoc<T>(a: seq<T>, b: seq<T>, c: seq<T>)
    ensures (a + b) + c == a + (b + c)
  {
  }

  class Terrain {
    const div: nat
    const minX: real
    const maxX: real
    const minY: real
    const maxY: real

    /** Vertex positions, x y z per vertex. */
    var vBuffer: seq<real>
    /** Vertex normals, x y z per vertex. */
    var nBuffer: seq<real>
    /** Triangle corners, three vertex numbers per triangle. */
    var fBuffer: seq<int>
    /** Wireframe edges, two vertex numbers per edge. */
    var eBuffer: seq<int>
    /** Buffer lengths divided by three, as JavaScript numbers. */
    var numVertices: real
    var numFaces: real

    /** The grid the constructor's arguments describe. */
    function Shape(): (g: Grid)
      ensures g.div == div
    {
      Grid(div, minX, maxX, minY, maxY)
    }

    /** The normals of the grid's vertices, one vector each. */
    function Normals(): (r: seq<Vec3>)
      reads this`nBuffer
      requires 3 * VertexCount(div) <= |nBuffer|
      ensures |r| == VertexCount(div)
    {
      Items(nBuffer, VertexCount(div))
    }

    /** The positions of the grid's vertices, one vector each. */
    function Positions(): (r: seq<Vec3>)
      reads this`vBuffer
      requires 3 * VertexCount(div) <= |vBuffer|
      ensures |r| == VertexCount(div)
    {
      Items(vBuffer, VertexCount(div))
    }

    /** Builds the grid, raises it by FaultIterations fault iterations of
        FaultDelta (one draw each) with normals recomputed, and lists its
        edges. */
    constructor (div: nat, minX: real, maxX: real, minY: real, maxY: real,
                 draws: seq<FaultDraw>, normalize: Vec3 -> Vec3)
      requires div >= 1 && |draws| == FaultIterations
      ensures this.div == div && this.minX == minX && this.maxX == maxX
      ensures this.minY == minY && this.maxY == maxY
      ensures vBuffer == Faults(GridPositions(Shape()), Shape(), FaultDelta, draws)
      ensures 3 * VertexCount(div) == |vBuffer| == |nBuffer|
      ensures Normals() == UpdatedNormals(Items(DefaultNormals(VertexCount(div)), VertexCount(div)),
                                          Positions(), div, CrossProduct, normalize)
      ensures fBuffer == GridFaces(div)
      ensures |fBuffer| % 3 == 0 && eBuffer == Edges(fBuffer)
      ensures numVertices == VertexCount(div) as real
      ensures numFaces == (2 * (div * div)) as real
    {
      this.div := div;
      this.minX := minX;
      this.maxX := maxX;
      this.minY := minY;
      this.maxY := maxY;
      vBuffer := [];
      nBuffer := [];
      fBuffer := [];
      eBuffer := [];
      numVertices := 0.0;
      numFaces := 0.0;
      new;
      GenerateTriangles();
      assert vBuffer == GridPositions(Shape());
      assert nBuffer == DefaultNormals(VertexCount(div));
      assert fBuffer == GridFaces(div);
      ghost var tris := 2 * (div * div);
      assert |fBuffer| == 3 * tris;
      assert numFaces == tris as real;
      GenerateTerrain(FaultDelta, draws, normalize);
      assert |fBuffer| % 3 == 0 by {
        assert |fBuffer| == 3 * tris;
      }
      GenerateLines();
      assert [] + Edges(fBuffer) == Edges(fBuffer);
    }

    /** Overwrites the position of vertex (i, j). */
    method SetVertex(v: Vec3, i: nat, j: nat)
      requires HasSlot(vBuffer, VertexId(div, i, j))
      modifies this`vBuffer
      ensures vBuffer == Set3(old(vBuffer), VertexId(div, i, j), v)
    {
      var vid := 3 * VertexId(div, i, j);
      vBuffer := vBuffer[vid := v.x][vid + 1 := v.y][vid + 2 := v.z];
    }

    /** Reads the position of vertex (i, j). */
    method GetVertex(i: nat, j: nat) returns (v: Vec3)
      requires HasSlot(vBuffer, VertexId(div, i, j))
      ensures v == Get3(vBuffer, VertexId(div, i, j))
    {
      var vid := 3 * VertexId(div, i, j);
      v := Vec3(vBuffer[vid], vBuffer[vid + 1], vBuffer[vid + 2]);
    }

    /** Overwrites the normal of vertex (i, j). */
    method SetNormal(v: Vec3, i: nat, j: nat)
      requires HasSlot(nBuffer, VertexId(div, i, j))
      modifies this`nBuffer
      ensures nBuffer == Set3(old(nBuffer), VertexId(div, i, j), v)
    {
      var vid := 3 * VertexId(div, i, j);
      nBuffer := nBuffer[vid := v.x][vid + 1 := v.y][vid + 2 := v.z];
    }

    /** SetNormal on a vertex of the grid, seen as one vector of Normals(). */
    method WriteNormal(v: Vec3, i: nat, j: nat)
      requires i <= div && j <= div && |nBuffer| == 3 * VertexCount(div)
      modifies this`nBuffer
      ensures |nBuffer| == 3 * VertexCount(div)
      ensures Normals() == SetAt(old(Normals()), div, i, j, v)
    {
      VertexIdInRange(div, i, j);
      ItemsSet3(nBuffer, VertexCount(div), VertexId(div, i, j), v);
      SetNormal(v, i, j);
    }

    /** Reads the normal of vertex (i, j). */
    method GetNormal(i: nat, j: nat) returns (v: Vec3)
      requires HasSlot(nBuffer, VertexId(div, i, j))
      ensures v == Get3(nBuffer, VertexId(div, i, j))
    {
      var vid := 3 * VertexId(div, i, j);
      v := Vec3(nBuffer[vid], nBuffer[vid + 1], nBuffer[vid + 2]);
    }

    /** The body of the vertex loop of generateTriangles: pushes the
        position of vertex (i, j), whose coordinates step by deltaX along a
        row and deltaY down a column, and the default normal (0, 0, 1). */
    method PushGridVertex(deltaX: real, deltaY: real, i: nat, j: nat)
      requires div >= 1
      requires deltaX == (maxX - minX) / (div as real) && deltaY == (maxY - minY) / (div as real)
      modifies this`vBuffer, this`nBuffer
      ensures vBuffer == old(vBuffer) + [GridX(Shape(), j), GridY(Shape(), i), 0.0]
      ensures nBuffer == old(nBuffer) + [0.0, 0.0, 1.0]
    {
      assert GridX(Shape(), j) == minX + deltaX * (j as real);
      assert GridY(Shape(), i) == minY + deltaY * (i as real);
      vBuffer := vBuffer + [minX + deltaX * (j as real)];
      vBuffer := vBuffer + [minY + deltaY * (i as real)];
      vBuffer := vBuffer + [0.0];
      nBuffer := nBuffer + [0.0];
      nBuffer := nBuffer + [0.0];
      nBuffer := nBuffer + [1.0];
    }

    /** Pushes the flat grid: positions and (0, 0, 1) normals row by row,
        then the six corner numbers of each cell, and records the counts. */
    method GenerateTriangles()
      requires div >= 1
      modifies this`vBuffer, this`nBuffer, this`fBuffer, this`numVertices, this`numFaces
      ensures vBuffer == old(vBuffer) + GridPositions(Shape())
      ensures nBuffer == old(nBuffer) + DefaultNormals(VertexCount(div))
      ensures fBuffer == old(fBuffer) + GridFaces(div)
      ensures numVertices == (|vBuffer| as real) / 3.0
      ensures numFaces == (|fBuffer| as real) / 3.0
    {
      var deltaX := (maxX - minX) / (div as real);
      var deltaY := (maxY - minY) / (div as real);
      var i := 0;
      while i <= div
        invariant 0 <= i <= div + 1
        invariant vBuffer == old(vBuffer) + PositionsUpTo(Shape(), RowStart(i, div + 1))
        invariant nBuffer == old(nBuffer) + DefaultNormals(RowStart(i, div + 1))
        invariant fBuffer == old(fBuffer)
      {
        PushVertexRow(deltaX, deltaY, i, old(vBuffer), old(nBuffer));
        i := i + 1;
      }
      i := 0;
      while i < div
        invariant 0 <= i <= div
        invariant fBuffer == old(fBuffer) + FacesUpTo(div, RowStart(i, div))
        invariant vBuffer == old(vBuffer) + GridPositions(Shape())
        invariant nBuffer == old(nBuffer) + DefaultNormals(VertexCount(div))
      {
        PushFaceRow(i, old(fBuffer));
        i := i + 1;
      }
      RowStartIsProduct(div, div);
      numVertices := (|vBuffer| as real) / 3.0;
      numFaces := (|fBuffer| as real) / 3.0;
    }

    /** Row i of the vertex loop of generateTriangles. */
    method PushVertexRow(deltaX: real, deltaY: real, i: nat, ghost v0: seq<real>, ghost n0: seq<real>)
      requires div >= 1 && i <= div
      requires deltaX == (maxX - minX) / (div as real) && deltaY == (maxY - minY) / (div as real)
      requires vBuffer == v0 + PositionsUpTo(Shape(), RowStart(i, div + 1))
      requires nBuffer == n0 + DefaultNormals(RowStart(i, div + 1))
      modifies this`vBuffer, this`nBuffer
      ensures vBuffer == v0 + PositionsUpTo(Shape(), RowStart(i + 1, div + 1))
      ensures nBuffer == n0 + DefaultNormals(RowStart(i + 1, div + 1))
    {
      var g := Shape();
      var j := 0;
      while j <= div
        invariant 0 <= j <= div + 1
        invariant vBuffer == v0 + PositionsUpTo(g, RowStart(i, div + 1) + j)
        invariant nBuffer == n0 + DefaultNormals(RowStart(i, div + 1) + j)
      {
        ghost var m := RowStart(i, div + 1) + j;
        assert m == VertexId(div, i, j);
        PositionsStep(g, i, j);
        DefaultNormalsStep(m);
        AppendAssoc(v0, PositionsUpTo(g, m), [GridX(g, j), GridY(g, i), 0.0]);
        AppendAssoc(n0, DefaultNormals(m), [0.0, 0.0, 1.0]);
        PushGridVertex(deltaX, deltaY, i, j);
        j := j + 1;
      }
    }

    /** Row i of the face loop of generateTriangles: the six corner numbers
        of each of its cells. */
    method PushFaceRow(i: nat, ghost f0: seq<int>)
      requires div >= 1 && i < div
      requires fBuffer == f0 + FacesUpTo(div, RowStart(i, div))
      modifies this`fBuffer
      ensures fBuffer == f0 + FacesUpTo(div, RowStart(i + 1, div))
    {
      var j := 0;
      while j < div
        invariant 0 <= j <= div
        invariant fBuffer == f0 + FacesUpTo(div, RowStart(i, div) + j)
      {
        FacesStep(div, i, j);
        var vid := RowStart(i, div + 1) + j;
        ghost var cell := [vid, vid + 1, vid + div + 1, vid + 1, vid + 1 + div + 1, vid + div + 1];
        assert cell == CellFaces(div, i, j);
        AppendAssoc(f0, FacesUpTo(div, RowStart(i, div) + j), cell);
        fBuffer := fBuffer + [vid, vid + 1, vid + div + 1, vid + 1, vid + 1 + div + 1, vid + div + 1];
        j := j + 1;
      }
    }

    /** The body of the vertex loop of randomizeTerrainVerts: vertex (i, j)
        keeps x and y, and z gains delta when (v - p) · (n - p) > 0 and
        loses it when that product is < 0. */
    method FaultVertex(delta: real, p: Point2, n: Point2, i: nat, j: nat)
      requires HasSlot(vBuffer, VertexId(div, i, j))
      modifies this`vBuffer
      ensures vBuffer == Set3(old(vBuffer), VertexId(div, i, j), Faulted(Get3(old(vBuffer), VertexId(div, i, j)), delta, p, n))
    {
      var v := GetVertex(i, j);
      var dot := DotProduct(Point2(v.x, v.y), p, n);
      if dot > 0.0 {
        v := Vec3(v.x, v.y, v.z + delta);
      } else if dot < 0.0 {
        v := Vec3(v.x, v.y, v.z - delta);
      }
      SetVertex(v, i, j);
    }

    /** One fault iteration: every vertex (i, j), i, j <= div, moves up by
        delta strictly on the positive side of the line through p and down
        strictly on the negative side. */
    method FaultIteration(delta: real, p: Point2, n: Point2)
      requires 3 * VertexCount(div) <= |vBuffer|
      modifies this`vBuffer
      ensures vBuffer == FaultStep(old(vBuffer), div, delta, p, n)
    {
      ghost var start := vBuffer;
      var i := 0;
      while i <= div
        invariant 0 <= i <= div + 1 && 3 * RowStart(i, div + 1) <= |start|
        invariant vBuffer == FaultUpTo(start, delta, p, n, RowStart(i, div + 1))
      {
        FaultRow(delta, p, n, i, start);
        i := i + 1;
      }
    }

    /** The inner loop of one fault iteration: the vertices of row i, left
        to right. */
    method FaultRow(delta: real, p: Point2, n: Point2, i: nat, ghost start: seq<real>)
      requires i <= div && 3 * VertexCount(div) <= |start| && 3 * RowStart(i, div + 1) <= |start|
      requires vBuffer == FaultUpTo(start, delta, p, n, RowStart(i, div + 1))
      modifies this`vBuffer
      ensures 3 * RowStart(i + 1, div + 1) <= |start|
      ensures vBuffer == FaultUpTo(start, delta, p, n, RowStart(i + 1, div + 1))
    {
      var j := 0;
      while j <= div
        invariant 0 <= j <= div + 1 && 3 * (RowStart(i, div + 1) + j) <= |start|
        invariant vBuffer == FaultUpTo(start, delta, p, n, RowStart(i, div + 1) + j)
      {
        ghost var m := VertexId(div, i, j);
        assert m == RowStart(i, div + 1) + j;
        VertexIdInRange(div, i, j);
        FaultVertex(delta, p, n, i, j);
        FaultUpToNext(start, delta, p, n, m, vBuffer);
        j := j + 1;
      }
    }

    /** The fault algorithm: one iteration per draw, in order, each with
        the point and direction that draw gives. */
    method RandomizeTerrainVerts(delta: real, draws: seq<FaultDraw>)
      requires 3 * VertexCount(div) <= |vBuffer|
      modifies this`vBuffer
      ensures vBuffer == Faults(old(vBuffer), Shape(), delta, draws)
    {
      var k := 0;
      while k < |draws|
        invariant 0 <= k <= |draws|
        invariant vBuffer == Faults(old(vBuffer), Shape(), delta, draws[..k])
      {
        var p := FaultPoint(Shape(), draws[k]);
        var n := FaultNormal(draws[k]);
        FaultIteration(delta, p, n);
        assert draws[..k + 1][..k] == draws[..k];
        k := k + 1;
      }
      assert draws[..|draws|] == draws;
    }

    /** The reset loop: the normal of every vertex (i, j) with i, j < div
        becomes (0, 0, 0). */
    method ResetNormals()
      requires |nBuffer| == 3 * VertexCount(div)
      modifies this`nBuffer
      ensures |nBuffer| == 3 * VertexCount(div)
      ensures Normals() == BlockUpTo(old(Normals()), div, ToZero, div, 0)
    {
      ghost var start := Normals();
      var i := 0;
      while i < div
        invariant 0 <= i <= div
        invariant |nBuffer| == 3 * VertexCount(div)
        invariant Normals() == BlockUpTo(start, div, ToZero, i, 0)
      {
        ResetRow(i, start);
        i := i + 1;
      }
    }

    /** Row i of the reset loop. */
    method ResetRow(i: nat, ghost start: seq<Vec3>)
      requires i < div && |nBuffer| == 3 * VertexCount(div) && |start| == VertexCount(div)
      requires Normals() == BlockUpTo(start, div, ToZero, i, 0)
      modifies this`nBuffer
      ensures |nBuffer| == 3 * VertexCount(div)
      ensures Normals() == BlockUpTo(start, div, ToZero, i + 1, 0)
    {
      var j := 0;
      while j < div
        invariant 0 <= j <= div
        invariant |nBuffer| == 3 * VertexCount(div)
        invariant Normals() == BlockUpTo(start, div, ToZero, i, j)
      {
        WriteNormal(Zero, i, j);
        j := j + 1;
      }
    }

    /** The normalise loop: the normal of every vertex (i, j) with
        i, j < div is replaced by `normalize` of it. */
    method NormalizeNormals(normalize: Vec3 -> Vec3)
      requires |nBuffer| == 3 * VertexCount(div)
      modifies this`nBuffer
      ensures |nBuffer| == 3 * VertexCount(div)
      ensures Normals() == BlockUpTo(old(Normals()), div, normalize, div, 0)
    {
      ghost var start := Normals();
      var i := 0;
      while i < div
        invariant 0 <= i <= div
        invariant |nBuffer| == 3 * VertexCount(div)
        invariant Normals() == BlockUpTo(start, div, normalize, i, 0)
      {
        NormalizeRow(normalize, i, start);
        i := i + 1;
      }
    }

    /** Row i of the normalise loop. */
    method NormalizeRow(normalize: Vec3 -> Vec3, i: nat, ghost start: seq<Vec3>)
      requires i < div && |nBuffer| == 3 * VertexCount(div) && |start| == VertexCount(div)
      requires Normals() == BlockUpTo(start, div, normalize, i, 0)
      modifies this`nBuffer
      ensures |nBuffer| == 3 * VertexCount(div)
      ensures Normals() == BlockUpTo(start, div, normalize, i + 1, 0)
    {
      var j := 0;
      while j < div
        invariant 0 <= j <= div
        invariant |nBuffer| == 3 * VertexCount(div)
        invariant Normals() == BlockUpTo(start, div, normalize, i, j)
      {
        VertexIdInRange(div, i, j);
        var n := GetNormal(i, j);
        n := normalize(n);
        WriteNormal(n, i, j);
        j := j + 1;
      }
    }

    /** One triangle of the accumulation loop: reads the corner positions
        and normals, then adds CrossProduct of the positions to each of
        the three normals in turn. */
    method AddFaceNormal(i1: nat, j1: nat, i2: nat, j2: nat, i3: nat, j3: nat)
      requires i1 <= div && j1 <= div && i2 <= div && j2 <= div && i3 <= div && j3 <= div
      requires |nBuffer| == 3 * VertexCount(div) && 3 * VertexCount(div) <= |vBuffer|
      modifies this`nBuffer
      ensures |nBuffer| == 3 * VertexCount(div)
      ensures Normals() == AddFace(old(Normals()), Positions(), div, CrossProduct, i1, j1, i2, j2, i3, j3)
    {
      VertexIdInRange(div, i1, j1);
      VertexIdInRange(div, i2, j2);
      VertexIdInRange(div, i3, j3);
      var v1 := GetVertex(i1, j1);
      var v2 := GetVertex(i2, j2);
      var v3 := GetVertex(i3, j3);
      var n1 := GetNormal(i1, j1);
      var n2 := GetNormal(i2, j2);
      var n3 := GetNormal(i3, j3);
      var bigN := CrossProduct(v1, v2, v3);
      n1 := Add(n1, bigN);
      n2 := Add(n2, bigN);
      n3 := Add(n3, bigN);
      WriteNormal(n1, i1, j1);
      WriteNormal(n2, i2, j2);
      WriteNormal(n3, i3, j3);
    }

    /** The accumulation loop: for each cell (i, j), i, j < div, the
        triangle (i,j), (i,j+1), (i+1,j) and then the triangle
        (i,j+1), (i+1,j+1), (i,j+1). */
    method AccumulateNormals()
      requires |nBuffer| == 3 * VertexCount(div) && 3 * VertexCount(div) <= |vBuffer|
      modifies this`nBuffer
      ensures |nBuffer| == 3 * VertexCount(div)
      ensures Normals() == FirstUpTo(old(Normals()), Positions(), div, CrossProduct, div, 0)
    {
      ghost var start := Normals();
      var i := 0;
      while i < div
        invariant 0 <= i <= div
        invariant |nBuffer| == 3 * VertexCount(div)
        invariant Normals() == FirstUpTo(start, Positions(), div, CrossProduct, i, 0)
      {
        AccumulateRow(i, start);
        i := i + 1;
      }
    }

    /** Row i of the accumulation loop. */
    method AccumulateRow(i: nat, ghost start: seq<Vec3>)
      requires i < div && |nBuffer| == 3 * VertexCount(div) && 3 * VertexCount(div) <= |vBuffer|
      requires |start| == VertexCount(div)
      requires Normals() == FirstUpTo(start, Positions(), div, CrossProduct, i, 0)
      modifies this`nBuffer
      ensures |nBuffer| == 3 * VertexCount(div)
      ensures Normals() == FirstUpTo(start, Positions(), div, CrossProduct, i + 1, 0)
    {
      var j := 0;
      while j < div
        invariant 0 <= j <= div
        invariant |nBuffer| == 3 * VertexCount(div)
        invariant Normals() == FirstUpTo(start, Positions(), div, CrossProduct, i, j)
      {
        AccumulateCell(i, j);
        j := j + 1;
      }
    }

    /** The body of the accumulation loop for cell (i, j): its two
        triangles, the second of which changes nothing. */
    method AccumulateCell(i: nat, j: nat)
      requires i < div && j < div && |nBuffer| == 3 * VertexCount(div) && 3 * VertexCount(div) <= |vBuffer|
      modifies this`nBuffer
      ensures |nBuffer| == 3 * VertexCount(div)
      ensures Normals() == CellFirst(old(Normals()), Positions(), div, CrossProduct, i, j)
    {
      AddFaceNormal(i, j, i, j + 1, i + 1, j);
      AddFaceNormal(i, j + 1, i + 1, j + 1, i, j + 1);
      SecondTriangleIsNoOp(old(Normals()), Positions(), div, i, j);
    }

    /** updateTerrainNormals: reset, accumulate, normalise. */
    method UpdateTerrainNormals(normalize: Vec3 -> Vec3)
      requires |nBuffer| == 3 * VertexCount(div) && 3 * VertexCount(div) <= |vBuffer|
      modifies this`nBuffer
      ensures |nBuffer| == 3 * VertexCount(div)
      ensures Normals() == UpdatedNormals(old(Normals()), Positions(), div, CrossProduct, normalize)
    {
      ResetNormals();
      AccumulateNormals();
      NormalizeNormals(normalize);
    }

    /** generateTerrain: the fault iterations, then the normals of the
        displaced surface. */
    method GenerateTerrain(delta: real, draws: seq<FaultDraw>, normalize: Vec3 -> Vec3)
      requires |nBuffer| == 3 * VertexCount(div) && 3 * VertexCount(div) <= |vBuffer|
      modifies this`vBuffer, this`nBuffer
      ensures vBuffer == Faults(old(vBuffer), Shape(), delta, draws)
      ensures |nBuffer| == 3 * VertexCount(div)
      ensures Normals() == UpdatedNormals(old(Normals()), Positions(), div, CrossProduct, normalize)
    {
      RandomizeTerrainVerts(delta, draws);
      UpdateTerrainNormals(normalize);
    }

    /** generateLines: pushes the three edges of every triangle. */
    method GenerateLines()
      requires |fBuffer| % 3 == 0
      modifies this`eBuffer
      ensures eBuffer == old(eBuffer) + Edges(fBuffer)
    {
      var numTris := |fBuffer| / 3;
      var f := 0;
      while f < numTris
        invariant 0 <= f <= numTris
        invariant eBuffer == old(eBuffer) + EdgesUpTo(fBuffer, f)
      {
        EdgesStep(fBuffer, f);
        eBuffer := eBuffer + [fBuffer[3 * f], fBuffer[3 * f + 1]];
        eBuffer := eBuffer + [fBuffer[3 * f + 1], fBuffer[3 * f + 2]];
        eBuffer := eBuffer + [fBuffer[3 * f + 2], fBuffer[3 * f]];
        f := f + 1;
      }
    }
  }
}
