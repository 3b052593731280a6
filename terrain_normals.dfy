/** Per-vertex normals of the terrain mesh (crossProduct and
    updateTerrainNormals). The normal buffer is read here one vector per
    vertex (`FlatBuffers.Items`): element VertexId(div, i, j) is the normal
    of vertex (i, j). */
module TerrainNormals {
  import opened Vectors
  import opened TerrainMesh

  /** (v2 - v1) × (v3 - v1): the face normal of the triangle v1, v2, v3,
      scaled by twice its area; zero when the triangle repeats its first
      vertex. */
  function CrossProduct(v1: Vec3, v2: Vec3, v3: Vec3): (r: Vec3)
    ensures v2 == v1 || v3 == v1 ==> r == Zero
  {
    Cross(Sub(v2, v1), Sub(v3, v1))
  }

  /** The face normal is perpendicular to both edges leaving v1. */
  lemma CrossProductIsFaceNormal(v1: Vec3, v2: Vec3, v3: Vec3)
    ensures Dot(CrossProduct(v1, v2, v3), Sub(v2, v1)) == 0.0
    ensures Dot(CrossProduct(v1, v2, v3), Sub(v3, v1)) == 0.0
  {
    CrossPerpendicular(Sub(v2, v1), Sub(v3, v1));
  }

  /* ---------------------------------------------------------------------
     The reset and normalise passes: a loop over i < div, j < div.
     --------------------------------------------------------------------- */

  /** Cell or vertex (r, c) lies in the first div rows and columns, and a
      row-major loop over those standing at (i, j) has already visited it. */
  predicate Visited(div: nat, r: int, c: int, i: nat, j: nat)
  {
    0 <= r < div && 0 <= c < div && (r < i || (r == i && c < j))
  }

  /** The normals after a loop over i < div, j < div that replaces the
      normal of each vertex by f of it, reading the buffer as it stands,
      has reached (i, j). Row div and column div are never visited. */
  function BlockUpTo(nb: seq<Vec3>, div: nat, f: Vec3 -> Vec3, i: nat, j: nat): (r: seq<Vec3>)
    requires VertexCount(div) <= |nb|
    requires (i < div && j <= div) || (i == div && j == 0)
    ensures |r| == |nb|
    decreases i, j
  {
    if j == 0 then
      if i == 0 then nb else BlockUpTo(nb, div, f, i - 1, div)
    else
      var prev := BlockUpTo(nb, div, f, i, j - 1);
      var m := VertexId(div, i, j - 1);
      VertexIdInRange(div, i, j - 1);
      prev[m := f(prev[m])]
  }

  /** Partway through a pass, every visited vertex holds f of its original
      normal and every other vertex its original normal. */
  lemma {:induction false} BlockAt(nb: seq<Vec3>, div: nat, f: Vec3 -> Vec3, i: nat, j: nat, r: nat, c: nat)
    requires VertexCount(div) <= |nb|
    requires (i < div && j <= div) || (i == div && j == 0)
    requires r <= div && c <= div
    ensures At(BlockUpTo(nb, div, f, i, j), div, r, c)
         == if Visited(div, r, c, i, j) then f(At(nb, div, r, c)) else At(nb, div, r, c)
    decreases i, j
  {
    if j == 0 {
      if i > 0 {
        BlockAt(nb, div, f, i - 1, div, r, c);
      }
    } else {
      BlockAt(nb, div, f, i, j - 1, r, c);
      BlockAt(nb, div, f, i, j - 1, i, j - 1);
      VertexIdInRange(div, r, c);
      VertexIdInRange(div, i, j - 1);
      if VertexId(div, r, c) == VertexId(div, i, j - 1) {
        VertexIdInjective(div, r, c, i, j - 1);
      }
    }
  }

  /** The reset pass writes (0, 0, 0). */
  function ToZero(v: Vec3): Vec3
  {
    Zero
  }

  /* ---------------------------------------------------------------------
     The accumulation pass.
     --------------------------------------------------------------------- */

  /** The source's update for one triangle: it reads the three normals
      first and then writes back each plus n, in the order a, b, c. */
  function AddTriangle(nb: seq<Vec3>, a: nat, b: nat, c: nat, n: Vec3): (r: seq<Vec3>)
    requires a < |nb| && b < |nb| && c < |nb|
    ensures |r| == |nb|
  {
    var na, nb', nc := nb[a], nb[b], nb[c];
    nb[a := Add(na, n)][b := Add(nb', n)][c := Add(nc, n)]
  }

  /** Each vertex named by the triangle gains n exactly once, even when the
      triangle names it twice; every other vertex keeps its normal. */
  lemma AddTriangleAt(nb: seq<Vec3>, a: nat, b: nat, c: nat, n: Vec3, x: nat)
    requires a < |nb| && b < |nb| && c < |nb| && x < |nb|
    ensures AddTriangle(nb, a, b, c, n)[x]
         == if x == a || x == b || x == c then Add(nb[x], n) else nb[x]
  {
  }

  /** How a triangle's normal is computed from its three corners. */
  type FaceRule = (Vec3, Vec3, Vec3) -> Vec3

  /** Normal of the first triangle of cell (i, j), whose corners are
      (i, j), (i, j+1) and (i+1, j). */
  function FaceNormal(vb: seq<Vec3>, div: nat, cross: FaceRule, i: nat, j: nat): Vec3
    requires VertexCount(div) <= |vb| && i < div && j < div
  {
    cross(At(vb, div, i, j), At(vb, div, i, j + 1), At(vb, div, i + 1, j))
  }

  /** The source's update for the triangle with corners (i1, j1), (i2, j2),
      (i3, j3): each corner's normal gains `cross` of the corner positions. */
  function AddFace(nb: seq<Vec3>, vb: seq<Vec3>, div: nat, cross: FaceRule,
                   i1: nat, j1: nat, i2: nat, j2: nat, i3: nat, j3: nat): (r: seq<Vec3>)
    requires VertexCount(div) <= |nb| && VertexCount(div) <= |vb|
    requires i1 <= div && j1 <= div && i2 <= div && j2 <= div && i3 <= div && j3 <= div
    ensures |r| == |nb|
  {
    VertexIdInRange(div, i1, j1);
    VertexIdInRange(div, i2, j2);
    VertexIdInRange(div, i3, j3);
    AddTriangle(nb, VertexId(div, i1, j1), VertexId(div, i2, j2), VertexId(div, i3, j3),
                cross(At(vb, div, i1, j1), At(vb, div, i2, j2), At(vb, div, i3, j3)))
  }

  /** The normal updates of cell (i, j) in the source: the triangle
      (i,j), (i,j+1), (i+1,j), then the triangle (i,j+1), (i+1,j+1),
      (i,j+1), whose third corner repeats its first; each normal is
      CrossProduct of the corner positions. */
  function CellNormals(nb: seq<Vec3>, vb: seq<Vec3>, div: nat, i: nat, j: nat): (r: seq<Vec3>)
    requires VertexCount(div) <= |nb| && VertexCount(div) <= |vb|
    requires i < div && j < div
    ensures |r| == |nb|
  {
    var first := AddFace(nb, vb, div, CrossProduct, i, j, i, j + 1, i + 1, j);
    AddFace(first, vb, div, CrossProduct, i, j + 1, i + 1, j + 1, i, j + 1)
  }

  /** The update of cell (i, j) by its first triangle alone. */
  function CellFirst(nb: seq<Vec3>, vb: seq<Vec3>, div: nat, cross: FaceRule, i: nat, j: nat): (r: seq<Vec3>)
    requires VertexCount(div) <= |nb| && VertexCount(div) <= |vb|
    requires i < div && j < div
    ensures |r| == |nb|
  {
    AddFace(nb, vb, div, cross, i, j, i, j + 1, i + 1, j)
  }

  /** The second triangle of every cell adds the zero vector: a cell's
      update is that of its first triangle alone. */
  lemma SecondTriangleIsNoOp(nb: seq<Vec3>, vb: seq<Vec3>, div: nat, i: nat, j: nat)
    requires VertexCount(div) <= |nb| && VertexCount(div) <= |vb|
    requires i < div && j < div
    ensures CellNormals(nb, vb, div, i, j) == CellFirst(nb, vb, div, CrossProduct, i, j)
  {
    var b, d := VertexId(div, i, j + 1), VertexId(div, i + 1, j + 1);
    VertexIdInRange(div, i, j + 1);
    VertexIdInRange(div, i + 1, j + 1);
    var first := CellFirst(nb, vb, div, CrossProduct, i, j);
    assert Sub(vb[b], vb[b]) == Zero;
    CrossZero(Sub(vb[d], vb[b]), Sub(vb[b], vb[b]));
    assert AddTriangle(first, b, d, b, Zero) == first;
  }

  /** The normals after the accumulation loop has processed every cell
      before (i, j) in row-major order, each cell by its first triangle
      (SecondTriangleIsNoOp: with CrossProduct this is the source's loop). */
  function FirstUpTo(nb: seq<Vec3>, vb: seq<Vec3>, div: nat, cross: FaceRule, i: nat, j: nat): (r: seq<Vec3>)
    requires VertexCount(div) <= |nb| && VertexCount(div) <= |vb|
    requires (i < div && j <= div) || (i == div && j == 0)
    ensures |r| == |nb|
    decreases i, j
  {
    if j == 0 then
      if i == 0 then nb else FirstUpTo(nb, vb, div, cross, i - 1, div)
    else
      CellFirst(FirstUpTo(nb, vb, div, cross, i, j - 1), vb, div, cross, i, j - 1)
  }

  /** The face normal of cell (cr, cc) if the loop standing at (i, j) has
      already visited that cell, otherwise zero. */
  function Part(vb: seq<Vec3>, div: nat, cross: FaceRule, cr: int, cc: int, i: nat, j: nat): Vec3
    requires VertexCount(div) <= |vb|
  {
    if Visited(div, cr, cc, i, j) then FaceNormal(vb, div, cross, cr, cc) else Zero
  }

  /** What the accumulation loop standing at (i, j) has added to the normal
      of vertex (r, c): the normals of the visited first triangles with
      (r, c) as a corner, which are those of cells (r, c), (r, c-1) and
      (r-1, c). */
  function Share(vb: seq<Vec3>, div: nat, cross: FaceRule, r: nat, c: nat, i: nat, j: nat): Vec3
    requires VertexCount(div) <= |vb|
  {
    Add(Add(Part(vb, div, cross, r, c, i, j), Part(vb, div, cross, r, c - 1, i, j)), Part(vb, div, cross, r - 1, c, i, j))
  }

  /** Moving the loop from (i, j-1) to (i, j) visits exactly cell (i, j-1). */
  lemma PartStep(vb: seq<Vec3>, div: nat, cross: FaceRule, cr: int, cc: int, i: nat, j: nat)
    requires VertexCount(div) <= |vb|
    requires i < div && 0 < j <= div
    ensures Part(vb, div, cross, cr, cc, i, j)
         == if cr == i && cc == j - 1 then FaceNormal(vb, div, cross, i, j - 1) else Part(vb, div, cross, cr, cc, i, j - 1)
  {
  }

  /** Vertex (r, c) is a corner of the first triangle of cell (i, j). */
  predicate IsCorner(r: int, c: int, i: int, j: int)
  {
    (r == i && c == j) || (r == i && c == j + 1) || (r == i + 1 && c == j)
  }

  /** The flat vertex numbers name the corners of a first triangle exactly. */
  lemma CornerIds(div: nat, r: nat, c: nat, i: nat, j: nat)
    requires r <= div && c <= div && i < div && j < div
    ensures (VertexId(div, r, c) == VertexId(div, i, j) || VertexId(div, r, c) == VertexId(div, i, j + 1)
             || VertexId(div, r, c) == VertexId(div, i + 1, j))
            <==> IsCorner(r, c, i, j)
  {
    var x := VertexId(div, r, c);
    if x == VertexId(div, i, j) {
      VertexIdInjective(div, r, c, i, j);
    } else if x == VertexId(div, i, j + 1) {
      VertexIdInjective(div, r, c, i, j + 1);
    } else if x == VertexId(div, i + 1, j) {
      VertexIdInjective(div, r, c, i + 1, j);
    }
  }

  /** Adding n to one of three summands adds it to their sum. */
  lemma AddToSummand(p: Vec3, q: Vec3, s: Vec3, n: Vec3)
    ensures Add(Add(n, q), s) == Add(Add(Add(Zero, q), s), n)
    ensures Add(Add(p, n), s) == Add(Add(Add(p, Zero), s), n)
    ensures Add(Add(p, q), n) == Add(Add(Add(p, q), Zero), n)
  {
  }

  /** Processing cell (i, j-1) leaves the share of a vertex that is not a
      corner of its first triangle as it was. */
  lemma ShareKept(vb: seq<Vec3>, div: nat, cross: FaceRule, i: nat, j: nat, r: nat, c: nat)
    requires VertexCount(div) <= |vb|
    requires i < div && 0 < j <= div && !IsCorner(r, c, i, j - 1)
    ensures Share(vb, div, cross, r, c, i, j) == Share(vb, div, cross, r, c, i, j - 1)
  {
    PartStep(vb, div, cross, r, c, i, j);
    PartStep(vb, div, cross, r, c - 1, i, j);
    PartStep(vb, div, cross, r - 1, c, i, j);
  }

  /** Processing cell (i, j-1) adds its face normal to the share of each
      corner of its first triangle. */
  lemma ShareGains(vb: seq<Vec3>, div: nat, cross: FaceRule, i: nat, j: nat, r: nat, c: nat)
    requires VertexCount(div) <= |vb|
    requires i < div && 0 < j <= div && IsCorner(r, c, i, j - 1)
    ensures Share(vb, div, cross, r, c, i, j) == Add(Share(vb, div, cross, r, c, i, j - 1), FaceNormal(vb, div, cross, i, j - 1))
  {
    PartStep(vb, div, cross, r, c, i, j);
    PartStep(vb, div, cross, r, c - 1, i, j);
    PartStep(vb, div, cross, r - 1, c, i, j);
    AddToSummand(Part(vb, div, cross, r, c, i, j - 1), Part(vb, div, cross, r, c - 1, i, j - 1),
                 Part(vb, div, cross, r - 1, c, i, j - 1), FaceNormal(vb, div, cross, i, j - 1));
  }

  /** Processing cell (i, j-1) adds its face normal to the share of exactly
      the three corners of its first triangle. */
  lemma ShareStep(vb: seq<Vec3>, div: nat, cross: FaceRule, i: nat, j: nat, r: nat, c: nat)
    requires VertexCount(div) <= |vb|
    requires i < div && 0 < j <= div
    ensures Share(vb, div, cross, r, c, i, j)
         == if IsCorner(r, c, i, j - 1) then Add(Share(vb, div, cross, r, c, i, j - 1), FaceNormal(vb, div, cross, i, j - 1))
            else Share(vb, div, cross, r, c, i, j - 1)
  {
    if IsCorner(r, c, i, j - 1) {
      ShareGains(vb, div, cross, i, j, r, c);
    } else {
      ShareKept(vb, div, cross, i, j, r, c);
    }
  }

  /** Cell (i, j) adds its face normal to each corner of its first
      triangle. */
  lemma CellAtCorner(nb: seq<Vec3>, vb: seq<Vec3>, div: nat, cross: FaceRule, i: nat, j: nat, r: nat, c: nat)
    requires VertexCount(div) <= |nb| && VertexCount(div) <= |vb|
    requires i < div && j < div && r <= div && c <= div && IsCorner(r, c, i, j)
    ensures At(CellFirst(nb, vb, div, cross, i, j), div, r, c) == Add(At(nb, div, r, c), FaceNormal(vb, div, cross, i, j))
  {
    VertexIdInRange(div, i, j);
    VertexIdInRange(div, i, j + 1);
    VertexIdInRange(div, i + 1, j);
    VertexIdInRange(div, r, c);
    AddTriangleAt(nb, VertexId(div, i, j), VertexId(div, i, j + 1), VertexId(div, i + 1, j),
                  FaceNormal(vb, div, cross, i, j), VertexId(div, r, c));
  }

  /** Cell (i, j) leaves the normal of every other vertex alone. */
  lemma CellAtOther(nb: seq<Vec3>, vb: seq<Vec3>, div: nat, cross: FaceRule, i: nat, j: nat, r: nat, c: nat)
    requires VertexCount(div) <= |nb| && VertexCount(div) <= |vb|
    requires i < div && j < div && r <= div && c <= div && !IsCorner(r, c, i, j)
    ensures At(CellFirst(nb, vb, div, cross, i, j), div, r, c) == At(nb, div, r, c)
  {
    CornerIds(div, r, c, i, j);
    VertexIdInRange(div, i, j);
    VertexIdInRange(div, i, j + 1);
    VertexIdInRange(div, i + 1, j);
    VertexIdInRange(div, r, c);
    AddTriangleAt(nb, VertexId(div, i, j), VertexId(div, i, j + 1), VertexId(div, i + 1, j),
                  FaceNormal(vb, div, cross, i, j), VertexId(div, r, c));
  }

  /** The face normals the accumulation loop standing at (i, j) has added
      to vertex (r, c), summed in the order the loop adds them. */
  function Running(vb: seq<Vec3>, div: nat, cross: FaceRule, r: nat, c: nat, i: nat, j: nat): Vec3
    requires VertexCount(div) <= |vb|
    requires (i < div && j <= div) || (i == div && j == 0)
    decreases i, j
  {
    if j == 0 then
      if i == 0 then Zero else Running(vb, div, cross, r, c, i - 1, div)
    else
      var before := Running(vb, div, cross, r, c, i, j - 1);
      if IsCorner(r, c, i, j - 1) then Add(before, FaceNormal(vb, div, cross, i, j - 1)) else before
  }

  /** Cell (i, j-1) adds its face normal to a corner of its first
      triangle, in step with the running sum. */
  lemma AccumulateStepCorner(nb: seq<Vec3>, vb: seq<Vec3>, div: nat, cross: FaceRule, i: nat, j: nat, r: nat, c: nat)
    requires VertexCount(div) <= |nb| && VertexCount(div) <= |vb|
    requires i < div && 0 < j <= div && r <= div && c <= div && IsCorner(r, c, i, j - 1)
    requires At(FirstUpTo(nb, vb, div, cross, i, j - 1), div, r, c)
          == Add(At(nb, div, r, c), Running(vb, div, cross, r, c, i, j - 1))
    ensures At(FirstUpTo(nb, vb, div, cross, i, j), div, r, c)
         == Add(At(nb, div, r, c), Running(vb, div, cross, r, c, i, j))
  {
    CellAtCorner(FirstUpTo(nb, vb, div, cross, i, j - 1), vb, div, cross, i, j - 1, r, c);
    AddAssoc(At(nb, div, r, c), Running(vb, div, cross, r, c, i, j - 1), FaceNormal(vb, div, cross, i, j - 1));
  }

  /** Cell (i, j-1) leaves every other vertex, and its running sum, as they
      were. */
  lemma AccumulateStepOther(nb: seq<Vec3>, vb: seq<Vec3>, div: nat, cross: FaceRule, i: nat, j: nat, r: nat, c: nat)
    requires VertexCount(div) <= |nb| && VertexCount(div) <= |vb|
    requires i < div && 0 < j <= div && r <= div && c <= div && !IsCorner(r, c, i, j - 1)
    requires At(FirstUpTo(nb, vb, div, cross, i, j - 1), div, r, c)
          == Add(At(nb, div, r, c), Running(vb, div, cross, r, c, i, j - 1))
    ensures At(FirstUpTo(nb, vb, div, cross, i, j), div, r, c)
         == Add(At(nb, div, r, c), Running(vb, div, cross, r, c, i, j))
  {
    CellAtOther(FirstUpTo(nb, vb, div, cross, i, j - 1), vb, div, cross, i, j - 1, r, c);
  }

  /** One more cell keeps vertex (r, c) at its starting normal plus its
      running sum. */
  lemma AccumulateStep(nb: seq<Vec3>, vb: seq<Vec3>, div: nat, cross: FaceRule, i: nat, j: nat, r: nat, c: nat)
    requires VertexCount(div) <= |nb| && VertexCount(div) <= |vb|
    requires i < div && 0 < j <= div && r <= div && c <= div
    requires At(FirstUpTo(nb, vb, div, cross, i, j - 1), div, r, c)
          == Add(At(nb, div, r, c), Running(vb, div, cross, r, c, i, j - 1))
    ensures At(FirstUpTo(nb, vb, div, cross, i, j), div, r, c)
         == Add(At(nb, div, r, c), Running(vb, div, cross, r, c, i, j))
  {
    if IsCorner(r, c, i, j - 1) {
      AccumulateStepCorner(nb, vb, div, cross, i, j, r, c);
    } else {
      AccumulateStepOther(nb, vb, div, cross, i, j, r, c);
    }
  }

  /** Finishing row i - 1 is starting row i. */
  lemma AccumulateRowStart(nb: seq<Vec3>, vb: seq<Vec3>, div: nat, cross: FaceRule, i: nat, r: nat, c: nat)
    requires VertexCount(div) <= |nb| && VertexCount(div) <= |vb|
    requires 0 < i <= div && r <= div && c <= div
    requires At(FirstUpTo(nb, vb, div, cross, i - 1, div), div, r, c)
          == Add(At(nb, div, r, c), Running(vb, div, cross, r, c, i - 1, div))
    ensures At(FirstUpTo(nb, vb, div, cross, i, 0), div, r, c)
         == Add(At(nb, div, r, c), Running(vb, div, cross, r, c, i, 0))
  {
  }

  /** Before the first cell, every vertex holds its starting normal. */
  lemma AccumulateStart(nb: seq<Vec3>, vb: seq<Vec3>, div: nat, cross: FaceRule, r: nat, c: nat)
    requires VertexCount(div) <= |nb| && VertexCount(div) <= |vb|
    requires r <= div && c <= div
    ensures At(FirstUpTo(nb, vb, div, cross, 0, 0), div, r, c)
         == Add(At(nb, div, r, c), Running(vb, div, cross, r, c, 0, 0))
  {
    AddZero(At(nb, div, r, c));
  }

  /** Partway through the accumulation, vertex (r, c) holds its starting
      normal plus the running sum of the face normals added to it. */
  lemma {:induction false} AccumulateAt(nb: seq<Vec3>, vb: seq<Vec3>, div: nat, cross: FaceRule, i: nat, j: nat, r: nat, c: nat)
    requires VertexCount(div) <= |nb| && VertexCount(div) <= |vb|
    requires (i < div && j <= div) || (i == div && j == 0)
    requires r <= div && c <= div
    ensures At(FirstUpTo(nb, vb, div, cross, i, j), div, r, c)
         == Add(At(nb, div, r, c), Running(vb, div, cross, r, c, i, j))
    decreases i, j
  {
    if j > 0 {
      AccumulateAt(nb, vb, div, cross, i, j - 1, r, c);
      AccumulateStep(nb, vb, div, cross, i, j, r, c);
    } else if i > 0 {
      AccumulateAt(nb, vb, div, cross, i - 1, div, r, c);
      AccumulateRowStart(nb, vb, div, cross, i, r, c);
    } else {
      AccumulateStart(nb, vb, div, cross, r, c);
    }
  }

  /** Moving along a row keeps the running sum equal to the share. */
  lemma RunningShareStep(vb: seq<Vec3>, div: nat, cross: FaceRule, r: nat, c: nat, i: nat, j: nat)
    requires VertexCount(div) <= |vb|
    requires i < div && 0 < j <= div
    requires Running(vb, div, cross, r, c, i, j - 1) == Share(vb, div, cross, r, c, i, j - 1)
    ensures Running(vb, div, cross, r, c, i, j) == Share(vb, div, cross, r, c, i, j)
  {
    ShareStep(vb, div, cross, i, j, r, c);
  }

  /** Moving to the next row keeps the running sum equal to the share. */
  lemma RunningShareRow(vb: seq<Vec3>, div: nat, cross: FaceRule, r: nat, c: nat, i: nat)
    requires VertexCount(div) <= |vb|
    requires 0 < i <= div && c <= div
    requires Running(vb, div, cross, r, c, i - 1, div) == Share(vb, div, cross, r, c, i - 1, div)
    ensures Running(vb, div, cross, r, c, i, 0) == Share(vb, div, cross, r, c, i, 0)
  {
    assert Share(vb, div, cross, r, c, i, 0) == Share(vb, div, cross, r, c, i - 1, div);
  }

  /** The running sum is the share of vertex (r, c): the face normals of
      the visited cells among (r, c), (r, c-1) and (r-1, c). */
  lemma {:induction false} RunningIsShare(vb: seq<Vec3>, div: nat, cross: FaceRule, r: nat, c: nat, i: nat, j: nat)
    requires VertexCount(div) <= |vb|
    requires (i < div && j <= div) || (i == div && j == 0)
    requires c <= div
    ensures Running(vb, div, cross, r, c, i, j) == Share(vb, div, cross, r, c, i, j)
    decreases i, j
  {
    if j > 0 {
      RunningIsShare(vb, div, cross, r, c, i, j - 1);
      RunningShareStep(vb, div, cross, r, c, i, j);
    } else if i > 0 {
      RunningIsShare(vb, div, cross, r, c, i - 1, div);
      RunningShareRow(vb, div, cross, r, c, i);
    } else {
      AddZero(Zero);
    }
  }

  /** The face normals vertex (r, c) collects over the whole accumulation. */
  function FaceSum(vb: seq<Vec3>, div: nat, cross: FaceRule, r: nat, c: nat): Vec3
    requires VertexCount(div) <= |vb|
  {
    Share(vb, div, cross, r, c, div, 0)
  }

  /** The three loops of updateTerrainNormals: reset, accumulate, normalise.
      The terrain passes CrossProduct as `cross` and its normalize as
      `normalize`. */
  function UpdatedNormals(nb: seq<Vec3>, vb: seq<Vec3>, div: nat, cross: FaceRule, normalize: Vec3 -> Vec3): (r: seq<Vec3>)
    requires VertexCount(div) <= |nb| && VertexCount(div) <= |vb|
    ensures |r| == |nb|
  {
    var reset := BlockUpTo(nb, div, ToZero, div, 0);
    var summed := FirstUpTo(reset, vb, div, cross, div, 0);
    BlockUpTo(summed, div, normalize, div, 0)
  }

  /** What updateTerrainNormals leaves at vertex (r, c): for r < div and
      c < div the normalised sum of the normals of the first triangles
      around it; in row div and column div, which the reset and normalise
      loops skip, the old normal plus that sum, not normalised. */
  lemma UpdatedNormalAt(nb: seq<Vec3>, vb: seq<Vec3>, div: nat, cross: FaceRule, normalize: Vec3 -> Vec3, r: nat, c: nat)
    requires VertexCount(div) <= |nb| && VertexCount(div) <= |vb|
    requires r <= div && c <= div
    ensures At(UpdatedNormals(nb, vb, div, cross, normalize), div, r, c)
         == if r < div && c < div then normalize(FaceSum(vb, div, cross, r, c))
            else Add(At(nb, div, r, c), FaceSum(vb, div, cross, r, c))
  {
    var reset := BlockUpTo(nb, div, ToZero, div, 0);
    var summed := FirstUpTo(reset, vb, div, cross, div, 0);
    BlockAt(nb, div, ToZero, div, 0, r, c);
    AccumulateAt(reset, vb, div, cross, div, 0, r, c);
    RunningIsShare(vb, div, cross, r, c, div, 0);
    BlockAt(summed, div, normalize, div, 0, r, c);
  }

  /** The corner vertex (div, div) belongs to no first triangle, and the
      reset and normalise loops skip it: updateTerrainNormals leaves its
      normal as it was, (0, 0, 1) on a new grid. */
  lemma CornerNormalKept(nb: seq<Vec3>, vb: seq<Vec3>, div: nat, cross: FaceRule, normalize: Vec3 -> Vec3)
    requires VertexCount(div) <= |nb| && VertexCount(div) <= |vb|
    ensures At(UpdatedNormals(nb, vb, div, cross, normalize), div, div, div) == At(nb, div, div, div)
  {
    UpdatedNormalAt(nb, vb, div, cross, normalize, div, div);
  }
}
