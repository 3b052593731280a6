/** The terrain mesh generator: a (div+1) × (div+1) grid of vertices over a
    rectangle, split into triangles, raised and lowered by the fault
    algorithm, with per-vertex normals accumulated from face normals.
    Every buffer is flat: vertex (i, j) (row i along Y, column j along X)
    owns entries 3*(i*(div+1)+j) .. +2 of the position and normal buffers. */
module TerrainMesh {
  import opened Vectors
  import opened FlatBuffers
  import opened GridIndex

  /** The constructor's shape: `div` subdivisions per axis over
      [minX, maxX] × [minY, maxY]. */
  datatype Grid = Grid(div: nat, minX: real, maxX: real, minY: real, maxY: real)

  /** Number of vertices of one grid row (and column). */
  function Side(div: nat): nat
  {
    div + 1
  }

  /** Number of vertices of the grid: div+1 rows of div+1. */
  function VertexCount(div: nat): nat
  {
    RowStart(Side(div), Side(div))
  }

  /** Flat vertex number of vertex (i, j): rows of div+1 vertices, row by
      row, i.e. i*(div+1) + j. The row offset is the sum RowStart rather
      than the product, which keeps nonlinear arithmetic away from the
      solver; GridIndex.RowStartIsProduct proves the two equal. */
  function VertexId(div: nat, i: nat, j: nat): nat
  {
    RowStart(i, Side(div)) + j
  }

  /** Every vertex of the grid has a number below the vertex count. */
  lemma VertexIdInRange(div: nat, i: nat, j: nat)
    requires i <= div && j <= div
    ensures VertexId(div, i, j) < VertexCount(div)
  {
    InGrid(Side(div), Side(div), i, j);
  }

  /** The entry of a per-vertex sequence that belongs to vertex (i, j). */
  function At<T>(s: seq<T>, div: nat, i: nat, j: nat): T
    requires VertexCount(div) <= |s| && i <= div && j <= div
  {
    VertexIdInRange(div, i, j);
    s[VertexId(div, i, j)]
  }

  /** s with the entry of vertex (i, j) replaced by v. */
  function SetAt<T>(s: seq<T>, div: nat, i: nat, j: nat, v: T): (r: seq<T>)
    requires VertexCount(div) <= |s| && i <= div && j <= div
    ensures |r| == |s|
  {
    VertexIdInRange(div, i, j);
    s[VertexId(div, i, j) := v]
  }

  /** The grid has (div+1)² vertices. */
  lemma VertexCountIsSquare(div: nat)
    ensures VertexCount(div) == Side(div) * Side(div)
  {
    RowStartIsProduct(Side(div), Side(div));
  }

  /** Vertex (i, j) decodes back to row i and column j. */
  lemma VertexIdDecodes(div: nat, i: nat, j: nat)
    requires j <= div
    ensures VertexId(div, i, j) / Side(div) == i && VertexId(div, i, j) % Side(div) == j
  {
    RowCol(Side(div), i, j);
  }

  /** Distinct grid positions have distinct vertex numbers. */
  lemma VertexIdInjective(div: nat, i: nat, j: nat, i': nat, j': nat)
    requires j <= div && j' <= div
    requires VertexId(div, i, j) == VertexId(div, i', j')
    ensures i == i' && j == j'
  {
    RowStartUnique(Side(div), i, j, i', j');
  }

  /** X coordinate of column j: the columns step evenly from minX (j = 0) to
      maxX (j = div). */
  function GridX(g: Grid, j: int): (r: real)
    requires g.div >= 1
    ensures j == 0 ==> r == g.minX
    ensures j == g.div ==> r == g.maxX
    ensures g.minX <= g.maxX && 0 <= j <= g.div ==> g.minX <= r <= g.maxX
  {
    g.minX + (g.maxX - g.minX) / (g.div as real) * (j as real)
  }

  /** Y coordinate of row i: the rows step evenly from minY (i = 0) to maxY
      (i = div). */
  function GridY(g: Grid, i: int): (r: real)
    requires g.div >= 1
    ensures i == 0 ==> r == g.minY
    ensures i == g.div ==> r == g.maxY
    ensures g.minY <= g.maxY && 0 <= i <= g.div ==> g.minY <= r <= g.maxY
  {
    g.minY + (g.maxY - g.minY) / (g.div as real) * (i as real)
  }

  /* ---------------------------------------------------------------------
     Grid building: the vertex, normal and face buffers generateTriangles
     pushes.
     --------------------------------------------------------------------- */

  /** Entry k of the position buffer: x, y or z of vertex k / 3, whose row
      and column come from the row-major numbering; z starts at 0. */
  function GridCoord(g: Grid, k: int): real
    requires g.div >= 1
  {
    var v := k / 3;
    if k % 3 == 0 then GridX(g, v % Side(g.div))
    else if k % 3 == 1 then GridY(g, v / Side(g.div))
    else 0.0
  }

  /** The positions of the first m vertices in row-major order. */
  function PositionsUpTo(g: Grid, m: nat): (r: seq<real>)
    requires g.div >= 1
    ensures |r| == 3 * m
  {
    seq(3 * m, k => GridCoord(g, k))
  }

  /** The whole position buffer of the flat grid. */
  function GridPositions(g: Grid): (r: seq<real>)
    requires g.div >= 1
    ensures |r| == 3 * VertexCount(g.div)
  {
    PositionsUpTo(g, VertexCount(g.div))
  }

  /** The default normal buffer: (0, 0, 1) for each of m vertices. */
  function DefaultNormals(m: nat): (r: seq<real>)
    ensures |r| == 3 * m
  {
    seq(3 * m, k => if k % 3 == 2 then 1.0 else 0.0)
  }

  /** The six indices the face loop pushes for cell (i, j): the triangles
      (i,j), (i,j+1), (i+1,j) and (i,j+1), (i+1,j+1), (i+1,j). */
  function CellFaces(div: nat, i: nat, j: nat): (r: seq<int>)
    ensures r == [VertexId(div, i, j), VertexId(div, i, j + 1), VertexId(div, i + 1, j),
                  VertexId(div, i, j + 1), VertexId(div, i + 1, j + 1), VertexId(div, i + 1, j)]
  {
    var vid := RowStart(i, div + 1) + j;
    [vid, vid + 1, vid + div + 1, vid + 1, vid + 1 + div + 1, vid + div + 1]
  }

  /** The face indices of the first m cells in row-major order (div cells
      per row). */
  function FacesUpTo(div: nat, m: nat): (r: seq<int>)
    requires div >= 1
    ensures |r| == 6 * m
  {
    seq(6 * m, k requires 0 <= k => var t := k / 6; CellFaces(div, t / div, t % div)[k % 6])
  }

  /** The whole face buffer: two triangles for each of the div² cells. */
  function GridFaces(div: nat): (r: seq<int>)
    requires div >= 1
    ensures |r| == 6 * (div * div)
  {
    FacesUpTo(div, div * div)
  }

  /** Pushing x, y, z of vertex (i, j) extends the positions of the vertices
      before it by exactly that vertex. */
  lemma PositionsStep(g: Grid, i: nat, j: nat)
    requires g.div >= 1 && j <= g.div
    ensures PositionsUpTo(g, VertexId(g.div, i, j) + 1)
         == PositionsUpTo(g, VertexId(g.div, i, j)) + [GridX(g, j), GridY(g, i), 0.0]
  {
    var m := VertexId(g.div, i, j);
    VertexIdDecodes(g.div, i, j);
    var a := PositionsUpTo(g, m + 1);
    var b := PositionsUpTo(g, m) + [GridX(g, j), GridY(g, i), 0.0];
    forall k | 3 * m <= k < 3 * m + 3
      ensures a[k] == b[k]
    {
      assert k / 3 == m;
    }
    assert a == b;
  }

  lemma DefaultNormalsStep(m: nat)
    ensures DefaultNormals(m + 1) == DefaultNormals(m) + [0.0, 0.0, 1.0]
  {
    var a := DefaultNormals(m + 1);
    var b := DefaultNormals(m) + [0.0, 0.0, 1.0];
    assert forall k | 3 * m <= k < 3 * m + 3 :: k % 3 == k - 3 * m;
    assert a == b;
  }

  /** Pushing the six indices of cell (i, j) extends the faces of the cells
      before it by exactly that cell. */
  lemma FacesStep(div: nat, i: nat, j: nat)
    requires div >= 1 && j < div
    ensures FacesUpTo(div, RowStart(i, div) + j + 1) == FacesUpTo(div, RowStart(i, div) + j) + CellFaces(div, i, j)
  {
    var m := RowStart(i, div) + j;
    RowCol(div, i, j);
    var a := FacesUpTo(div, m + 1);
    var b := FacesUpTo(div, m) + CellFaces(div, i, j);
    forall k | 6 * m <= k < 6 * m + 6
      ensures a[k] == b[k]
    {
      assert k / 6 == m && k % 6 == k - 6 * m;
    }
    assert a == b;
  }

  /** Vertex (i, j) of the flat grid sits at (minX + j*dx, minY + i*dy, 0). */
  lemma GridVertexAt(g: Grid, i: nat, j: nat)
    requires g.div >= 1 && i <= g.div && j <= g.div
    ensures HasSlot(GridPositions(g), VertexId(g.div, i, j))
    ensures Get3(GridPositions(g), VertexId(g.div, i, j)) == Vec3(GridX(g, j), GridY(g, i), 0.0)
  {
    var v := VertexId(g.div, i, j);
    VertexIdInRange(g.div, i, j);
    VertexIdDecodes(g.div, i, j);
    assert (3 * v) / 3 == v && (3 * v + 1) / 3 == v && (3 * v + 2) / 3 == v;
  }

  /** Cell (i, j) owns face entries 6*(i*div+j) .. +5, holding its six
      corner indices. */
  lemma GridFaceAt(div: nat, i: nat, j: nat)
    requires div >= 1 && i < div && j < div
    ensures 6 * (RowStart(i, div) + j) + 6 <= |GridFaces(div)|
    ensures GridFaces(div)[6 * (RowStart(i, div) + j)..6 * (RowStart(i, div) + j) + 6] == CellFaces(div, i, j)
  {
    var m := RowStart(i, div) + j;
    InGrid(div, div, i, j);
    RowStartIsProduct(div, div);
    assert m + 1 <= div * div;
    RowCol(div, i, j);
    var f := GridFaces(div);
    forall s | 0 <= s < 6
      ensures f[6 * m + s] == CellFaces(div, i, j)[s]
    {
      assert (6 * m + s) / 6 == m && (6 * m + s) % 6 == s;
    }
  }

  /** Every face index names a vertex of the grid. */
  lemma GridFacesInRange(div: nat)
    requires div >= 1
    ensures forall k :: 0 <= k < |GridFaces(div)| ==> 0 <= GridFaces(div)[k] < VertexCount(div)
  {
    var f := GridFaces(div);
    forall k | 0 <= k < |f|
      ensures 0 <= f[k] < VertexCount(div)
    {
      var t := k / 6;
      var i, j := t / div, t % div;
      assert t == i * div + j;
      RowStartIsProduct(div, div);
      if i >= div {
        MulMonotone(div, i, div);
        assert false;
      }
      assert f[k] == CellFaces(div, i, j)[k % 6];
      VertexIdInRange(div, i, j);
      VertexIdInRange(div, i, j + 1);
      VertexIdInRange(div, i + 1, j);
      VertexIdInRange(div, i + 1, j + 1);
    }
  }

  /* ---------------------------------------------------------------------
     Wireframe edges: generateLines.
     --------------------------------------------------------------------- */

  /** Which corner of its triangle entry k of an edge list repeats: the
      edges of triangle (a, b, c) are a-b, b-c and c-a. */
  function EdgeCorner(k: nat): nat
  {
    [0, 1, 1, 2, 2, 0][k % 6]
  }

  /** Entry k of the edge list of t triangles reads a corner of one of
      those triangles. */
  lemma EdgeSlot(k: nat, t: nat)
    requires k < 6 * t
    ensures 3 * (k / 6) + EdgeCorner(k) < 3 * t
  {
    assert k / 6 < t;
  }

  /** The edge list of the first t triangles of the face list f. */
  function EdgesUpTo(f: seq<int>, t: nat): (r: seq<int>)
    requires 3 * t <= |f|
    ensures |r| == 6 * t
  {
    seq(6 * t, k requires 0 <= k < 6 * t => EdgeSlot(k, t); f[3 * (k / 6) + EdgeCorner(k)])
  }

  /** The edge list of a whole face list. */
  function Edges(f: seq<int>): (r: seq<int>)
    requires |f| % 3 == 0
    ensures |r| == 2 * |f|
  {
    EdgesUpTo(f, |f| / 3)
  }

  /** Pushing the three edges of triangle t extends the edges of the
      triangles before it by exactly those edges. */
  lemma EdgesStep(f: seq<int>, t: nat)
    requires 3 * t + 3 <= |f|
    ensures EdgesUpTo(f, t + 1)
         == EdgesUpTo(f, t) + [f[3 * t], f[3 * t + 1], f[3 * t + 1], f[3 * t + 2], f[3 * t + 2], f[3 * t]]
  {
    var a := EdgesUpTo(f, t + 1);
    var b := EdgesUpTo(f, t) + [f[3 * t], f[3 * t + 1], f[3 * t + 1], f[3 * t + 2], f[3 * t + 2], f[3 * t]];
    forall k | 6 * t <= k < 6 * t + 6
      ensures a[k] == b[k]
    {
      assert k / 6 == t && k % 6 == k - 6 * t;
    }
    assert a == b;
  }

  /** Edge e of the list runs from corner e % 3 of triangle e / 3 to the
      next corner of the same triangle, cyclically. */
  lemma EdgeAt(f: seq<int>, e: nat)
    requires |f| % 3 == 0 && e < |f|
    ensures Edges(f)[2 * e] == f[3 * (e / 3) + e % 3]
    ensures Edges(f)[2 * e + 1] == f[3 * (e / 3) + (e + 1) % 3]
  {
    var t := e / 3;
    assert (2 * e) / 6 == t && (2 * e + 1) / 6 == t;
    assert (2 * e) % 6 == 2 * (e % 3) && (2 * e + 1) % 6 == 2 * (e % 3) + 1;
  }

  /** Every endpoint in the edge list is a vertex named by the face list. */
  lemma EdgesFromFaces(f: seq<int>)
    requires |f| % 3 == 0
    ensures forall k :: 0 <= k < |Edges(f)| ==> Edges(f)[k] in f
  {
    var r := Edges(f);
    forall k | 0 <= k < |r|
      ensures r[k] in f
    {
      assert 3 * (k / 6) + 3 <= |f|;
      assert r[k] == f[3 * (k / 6) + EdgeCorner(k)];
    }
  }

  /** The wireframe of the generated grid only names grid vertices. */
  lemma GridEdgesInRange(div: nat)
    requires div >= 1
    ensures |GridFaces(div)| % 3 == 0
    ensures forall k :: 0 <= k < |Edges(GridFaces(div))| ==> 0 <= Edges(GridFaces(div))[k] < VertexCount(div)
  {
    var f := GridFaces(div);
    assert |f| == 3 * (2 * (div * div));
    GridFacesInRange(div);
    EdgesFromFaces(f);
  }

  /* ---------------------------------------------------------------------
     Fault displacement: dotProduct and randomizeTerrainVerts.
     --------------------------------------------------------------------- */

  datatype Point2 = Point2(x: real, y: real)

  /** The values one fault iteration takes from Math.random (u0, u1) and
      from Math.cos / Math.sin of the random angle. */
  datatype FaultDraw = FaultDraw(u0: real, u1: real, cosTheta: real, sinTheta: real)

  /** (a - p) · (n - p): the side of the fault line through p on which a
      lies (DotProductSide). */
  function DotProduct(a: Point2, p: Point2, n: Point2): real
  {
    (a.x - p.x) * (n.x - p.x) + (a.y - p.y) * (n.y - p.y)
  }

  /** The sign of the dot product scales along n - p: writing a point as
      p + t·(n - p) + s·(n - p)⊥, its dot product is t times that of n, so
      the points with t > 0 lie on n's side, those with t < 0 on the other
      side, and the line t = 0 through p perpendicular to n - p gives 0. */
  lemma DotProductSide(p: Point2, n: Point2, t: real, s: real)
    ensures DotProduct(p, p, n) == 0.0
    ensures var dx, dy := n.x - p.x, n.y - p.y;
      DotProduct(Point2(p.x + t * dx - s * dy, p.y + t * dy + s * dx), p, n) == t * DotProduct(n, p, n)
  {
    var dx, dy := n.x - p.x, n.y - p.y;
    calc {
      DotProduct(Point2(p.x + t * dx - s * dy, p.y + t * dy + s * dx), p, n);
      (t * dx - s * dy) * dx + (t * dy + s * dx) * dy;
      t * (dx * dx + dy * dy);
    }
  }

  /** Reflecting a point through p puts it on the other side of the fault
      line: its dot product changes sign. */
  lemma DotProductMirror(a: Point2, p: Point2, n: Point2)
    ensures DotProduct(Point2(2.0 * p.x - a.x, 2.0 * p.y - a.y), p, n) == -DotProduct(a, p, n)
  {
  }

  /** The random point p of one iteration. Both coordinates are scaled to
      the X range, so with uniforms in [0, 1] p.y lies in [minX, maxX]
      whatever the Y range is. */
  function FaultPoint(g: Grid, d: FaultDraw): (p: Point2)
    ensures 0.0 <= d.u0 <= 1.0 && g.minX <= g.maxX ==> g.minX <= p.x <= g.maxX
    ensures 0.0 <= d.u1 <= 1.0 && g.minX <= g.maxX ==> g.minX <= p.y <= g.maxX
  {
    var width := g.maxX - g.minX;
    UnitFraction(d.u0, width);
    UnitFraction(d.u1, width);
    Point2(d.u0 * width + g.minX, d.u1 * width + g.minX)
  }

  /** A fraction u in [0, 1] of a length w >= 0 lies in [0, w]. */
  lemma UnitFraction(u: real, w: real)
    ensures 0.0 <= u <= 1.0 && w >= 0.0 ==> 0.0 <= u * w <= w
  {
    if 0.0 <= u <= 1.0 && w >= 0.0 {
      assert (1.0 - u) * w >= 0.0;
    }
  }

  /** The point n on the unit circle of one iteration. */
  function FaultNormal(d: FaultDraw): Point2
  {
    Point2(d.cosTheta, d.sinTheta)
  }

  /** With the cosine and sine of one angle, n lies on the unit circle. */
  lemma FaultNormalOnCircle(d: FaultDraw)
    requires d.cosTheta * d.cosTheta + d.sinTheta * d.sinTheta == 1.0
    ensures var n := FaultNormal(d); n.x * n.x + n.y * n.y == 1.0
  {
  }

  /** Elevation change of one vertex: +delta strictly on the positive side,
      -delta strictly on the negative side, none on the line itself. */
  function Shift(dot: real, delta: real): real
  {
    if dot > 0.0 then delta else if dot < 0.0 then -delta else 0.0
  }

  /** The shift is delta, -delta or nothing. It is nothing exactly on the
      line or when delta is 0, and for delta > 0 its sign is the side's. */
  lemma ShiftSign(dot: real, delta: real)
    ensures var r := Shift(dot, delta);
      && (r == delta || r == -delta || r == 0.0)
      && (r == 0.0 <==> dot == 0.0 || delta == 0.0)
      && (delta > 0.0 ==> (r > 0.0 <==> dot > 0.0) && (r < 0.0 <==> dot < 0.0))
  {
  }

  /** Vertex v after one fault iteration through p towards n: x and y
      kept, z moved by Shift. */
  function Faulted(v: Vec3, delta: real, p: Point2, n: Point2): Vec3
  {
    Vec3(v.x, v.y, v.z + Shift(DotProduct(Point2(v.x, v.y), p, n), delta))
  }

  /** One fault keeps a vertex's x and y, moves its z by at most delta, and
      moves it up exactly when the vertex is on n's side of the line and
      down exactly when it is on the other side. */
  lemma FaultedMoves(v: Vec3, delta: real, p: Point2, n: Point2)
    ensures var r := Faulted(v, delta, p, n);
      && r.x == v.x && r.y == v.y
      && (delta >= 0.0 ==> v.z - delta <= r.z <= v.z + delta)
      && (delta > 0.0 ==> (r.z > v.z <==> DotProduct(Point2(v.x, v.y), p, n) > 0.0))
      && (delta > 0.0 ==> (r.z < v.z <==> DotProduct(Point2(v.x, v.y), p, n) < 0.0))
  {
  }

  /** The position buffer after one fault iteration has visited the first m
      vertices: their z entries moved by Shift, everything else as before. */
  function FaultUpTo(vb: seq<real>, delta: real, p: Point2, n: Point2, m: nat): (r: seq<real>)
    requires 3 * m <= |vb|
    ensures |r| == |vb|
  {
    seq(|vb|, k requires 0 <= k < |vb| =>
      if k < 3 * m && k % 3 == 2
      then vb[k] + Shift(DotProduct(Point2(vb[k - 2], vb[k - 1]), p, n), delta)
      else vb[k])
  }

  /** One whole fault iteration over all (div+1)² vertices. */
  function FaultStep(vb: seq<real>, div: nat, delta: real, p: Point2, n: Point2): (r: seq<real>)
    requires 3 * VertexCount(div) <= |vb|
    ensures |r| == |vb|
  {
    FaultUpTo(vb, delta, p, n, VertexCount(div))
  }

  /** The position buffer after one fault iteration per draw, in order. */
  function Faults(vb: seq<real>, g: Grid, delta: real, draws: seq<FaultDraw>): (r: seq<real>)
    requires 3 * VertexCount(g.div) <= |vb|
    ensures |r| == |vb|
    decreases |draws|
  {
    if draws == [] then vb
    else
      var last := draws[|draws| - 1];
      FaultStep(Faults(vb, g, delta, draws[..|draws| - 1]), g.div, delta, FaultPoint(g, last), FaultNormal(last))
  }

  /** With no iterations the position buffer is left exactly as it was. */
  lemma NoDrawsNoChange(vb: seq<real>, g: Grid, delta: real)
    requires 3 * VertexCount(g.div) <= |vb|
    ensures Faults(vb, g, delta, []) == vb
  {
  }

  /** Visiting vertex m (read it as the iteration has left it so far, shift
      its z, write it back) extends the visited prefix by that vertex. */
  lemma FaultUpToNext(vb: seq<real>, delta: real, p: Point2, n: Point2, m: nat, after: seq<real>)
    requires 3 * (m + 1) <= |vb|
    requires after == Set3(FaultUpTo(vb, delta, p, n, m), m,
                           Faulted(Get3(FaultUpTo(vb, delta, p, n, m), m), delta, p, n))
    ensures after == FaultUpTo(vb, delta, p, n, m + 1)
  {
    var next := FaultUpTo(vb, delta, p, n, m + 1);
    forall k | 0 <= k < |vb|
      ensures after[k] == next[k]
    {
      FaultUpToNextAt(vb, delta, p, n, m, k);
    }
  }

  /** FaultUpToNext, entry by entry. */
  lemma FaultUpToNextAt(vb: seq<real>, delta: real, p: Point2, n: Point2, m: nat, k: nat)
    requires 3 * (m + 1) <= |vb| && k < |vb|
    ensures Set3(FaultUpTo(vb, delta, p, n, m), m, Faulted(Get3(FaultUpTo(vb, delta, p, n, m), m), delta, p, n))[k]
         == FaultUpTo(vb, delta, p, n, m + 1)[k]
  {
    var before := FaultUpTo(vb, delta, p, n, m);
    if k < 3 * m {
      assert k / 3 < m;
    } else if k >= 3 * m + 3 {
      assert k / 3 > m;
    } else {
      assert (3 * m + 2) % 3 == 2 && (3 * m) % 3 == 0 && (3 * m + 1) % 3 == 1;
      assert Get3(before, m) == Get3(vb, m);
      assert k == 3 * m || k == 3 * m + 1 || k == 3 * m + 2;
    }
  }

  /** In one iteration, vertex (i, j) keeps its x and y, and its z moves by
      +delta, -delta or 0 according to the sign of (v - p) · (n - p). */
  lemma FaultStepAt(vb: seq<real>, div: nat, delta: real, p: Point2, n: Point2, i: nat, j: nat)
    requires 3 * VertexCount(div) <= |vb| && i <= div && j <= div
    ensures HasSlot(vb, VertexId(div, i, j))
    ensures Get3(FaultStep(vb, div, delta, p, n), VertexId(div, i, j))
         == Faulted(Get3(vb, VertexId(div, i, j)), delta, p, n)
  {
    var m := VertexId(div, i, j);
    VertexIdInRange(div, i, j);
    assert (3 * m + 2) % 3 == 2 && (3 * m) % 3 == 0 && (3 * m + 1) % 3 == 1;
  }

  /** The fault iterations never change an x or y entry, nor anything past
      the grid's vertices. */
  lemma {:induction false} FaultsKeepPlanar(vb: seq<real>, g: Grid, delta: real, draws: seq<FaultDraw>, k: nat)
    requires 3 * VertexCount(g.div) <= |vb|
    requires k < |vb| && (k % 3 != 2 || k >= 3 * VertexCount(g.div))
    ensures Faults(vb, g, delta, draws)[k] == vb[k]
    decreases |draws|
  {
    if draws != [] {
      FaultsKeepPlanar(vb, g, delta, draws[..|draws| - 1], k);
    }
  }

  /** One iteration moves each entry by at most delta. */
  lemma FaultStepMovesLittle(vb: seq<real>, div: nat, delta: real, p: Point2, n: Point2, k: nat)
    requires 3 * VertexCount(div) <= |vb| && delta >= 0.0 && k < |vb|
    ensures -delta <= FaultStep(vb, div, delta, p, n)[k] - vb[k] <= delta
  {
  }

  /** k·delta, built up one iteration at a time. */
  function Reach(k: nat, delta: real): real
  {
    if k == 0 then 0.0 else Reach(k - 1, delta) + delta
  }

  lemma {:induction false} ReachIsProduct(k: nat, delta: real)
    ensures Reach(k, delta) == (k as real) * delta
  {
    if k > 0 {
      ReachIsProduct(k - 1, delta);
      assert (k as real) * delta == ((k - 1) as real) * delta + delta;
    }
  }

  /** With delta >= 0, k iterations move any entry by at most k*delta. */
  lemma {:induction false} FaultsBounded(vb: seq<real>, g: Grid, delta: real, draws: seq<FaultDraw>, k: nat)
    requires 3 * VertexCount(g.div) <= |vb| && delta >= 0.0 && k < |vb|
    ensures -Reach(|draws|, delta) <= Faults(vb, g, delta, draws)[k] - vb[k] <= Reach(|draws|, delta)
    decreases |draws|
  {
    if draws != [] {
      var prefix := draws[..|draws| - 1];
      var last := draws[|draws| - 1];
      var before := Faults(vb, g, delta, prefix);
      FaultsBounded(vb, g, delta, prefix, k);
      FaultStepMovesLittle(before, g.div, delta, FaultPoint(g, last), FaultNormal(last), k);
    }
  }

  /** After the fault iterations, a vertex of the grid keeps its x and y,
      and its z has moved by at most |draws|*delta. */
  lemma FaultsVertex(vb: seq<real>, g: Grid, delta: real, draws: seq<FaultDraw>, m: nat)
    requires 3 * VertexCount(g.div) <= |vb| && m < VertexCount(g.div) && delta >= 0.0
    ensures HasSlot(vb, m) && HasSlot(Faults(vb, g, delta, draws), m)
    ensures var before, after := Get3(vb, m), Get3(Faults(vb, g, delta, draws), m);
      && after.x == before.x && after.y == before.y
      && -Reach(|draws|, delta) <= after.z - before.z <= Reach(|draws|, delta)
  {
    var after := Faults(vb, g, delta, draws);
    assert 3 * m + 2 < 3 * VertexCount(g.div) <= |vb| == |after|;
    assert after[3 * m] == vb[3 * m] by {
      assert (3 * m) % 3 == 0;
      FaultsKeepPlanar(vb, g, delta, draws, 3 * m);
    }
    assert after[3 * m + 1] == vb[3 * m + 1] by {
      assert (3 * m + 1) % 3 == 1;
      FaultsKeepPlanar(vb, g, delta, draws, 3 * m + 1);
    }
    assert -Reach(|draws|, delta) <= after[3 * m + 2] - vb[3 * m + 2] <= Reach(|draws|, delta) by {
      FaultsBounded(vb, g, delta, draws, 3 * m + 2);
    }
    assert Get3(after, m) == Vec3(after[3 * m], after[3 * m + 1], after[3 * m + 2]);
    assert Get3(vb, m) == Vec3(vb[3 * m], vb[3 * m + 1], vb[3 * m + 2]);
  }

  /** The generated terrain: vertex (i, j) keeps its grid x and y, and after
      k fault iterations with delta >= 0 its elevation lies in [-k*delta,
      k*delta]. */
  lemma FaultedGridVertex(g: Grid, delta: real, draws: seq<FaultDraw>, i: nat, j: nat)
    requires g.div >= 1 && i <= g.div && j <= g.div && delta >= 0.0
    ensures HasSlot(Faults(GridPositions(g), g, delta, draws), VertexId(g.div, i, j))
    ensures var v := Get3(Faults(GridPositions(g), g, delta, draws), VertexId(g.div, i, j));
      && v.x == GridX(g, j) && v.y == GridY(g, i)
      && -Reach(|draws|, delta) <= v.z <= Reach(|draws|, delta)
  {
    VertexIdInRange(g.div, i, j);
    GridVertexAt(g, i, j);
    FaultsVertex(GridPositions(g), g, delta, draws, VertexId(g.div, i, j));
  }
}
