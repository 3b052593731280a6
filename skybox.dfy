/** The skybox cube and its index-driven normal generator. Like the terrain,
    the cube keeps flat buffers: vertex v owns entries 3*v .. 3*v+2 of the
    position and normal buffers, and face t owns entries 3*t .. 3*t+2 of
    the index buffer. */
module SkyboxMesh {
  import opened Vectors
  import opened FlatBuffers

  /** The eight corners generateCube pushes, from the corners (10, 10, 10)
      and (-10, -10, -10) of the cube. */
  const CubeVertices: seq<real> :=
    [ 10.0,  10.0,  10.0,
     -10.0, -10.0, -10.0,
      10.0,  10.0, -10.0,
      10.0, -10.0, -10.0,
     -10.0, -10.0,  10.0,
     -10.0,  10.0,  10.0,
     -10.0,  10.0, -10.0,
      10.0, -10.0,  10.0]

  /** The twelve triangles generateCube pushes, two per side of the cube. */
  const CubeFaces: seq<int> :=
    [0, 3, 2,  0, 7, 3,  0, 5, 4,  0, 4, 7,
     1, 5, 6,  1, 4, 5,  1, 6, 2,  1, 2, 3,
     0, 2, 6,  0, 6, 5,  1, 7, 4,  1, 3, 7]

  /** The first nf faces of fb name vertices among the first nv of vb. */
  predicate Indexed(vb: seq<real>, fb: seq<int>, nv: nat, nf: nat)
  {
    3 * nv <= |vb| && 3 * nf <= |fb| && forall k :: 0 <= k < 3 * nf ==> 0 <= fb[k] < nv
  }

  /** The normal of face t: (v_b - v_a) × (v_c - v_a) for its corners a, b, c. */
  function FaceCross(vb: seq<real>, fb: seq<int>, nv: nat, nf: nat, t: nat): Vec3
    requires Indexed(vb, fb, nv, nf) && t < nf
  {
    var a, b, c := fb[3 * t], fb[3 * t + 1], fb[3 * t + 2];
    Cross(Sub(Get3(vb, b), Get3(vb, a)), Sub(Get3(vb, c), Get3(vb, a)))
  }

  /** How many of the corners a, b, c are vertex x: a face adds its normal
      to x that many times. */
  function Hits(x: int, a: int, b: int, c: int): (r: real)
    ensures 0.0 <= r <= 3.0
    ensures r == 0.0 <==> x != a && x != b && x != c
  {
    (if x == a then 1.0 else 0.0) + (if x == b then 1.0 else 0.0) + (if x == c then 1.0 else 0.0)
  }

  /** What one face adds to one coordinate of vertex x: v once for each of
      its corners a, b, c that is x, added in that order. */
  function Share(x: int, a: int, b: int, c: int, v: real): real
  {
    (if x == a then v else 0.0) + (if x == b then v else 0.0) + (if x == c then v else 0.0)
  }

  /** What one face with normal n adds to vertex x. */
  function CornerShare(x: int, a: int, b: int, c: int, n: Vec3): Vec3
  {
    Vec3(Share(x, a, b, c, n.x), Share(x, a, b, c, n.y), Share(x, a, b, c, n.z))
  }

  /** A face adds its normal to a vertex as many times as it names it: a
      triangle that repeats a corner counts it twice. */
  lemma CornerShareCountsNamings(x: int, a: int, b: int, c: int, n: Vec3)
    ensures CornerShare(x, a, b, c, n) == Scale(Hits(x, a, b, c), n)
  {
  }

  /** The normal buffer once the component loop of one face has added
      components 0 .. j-1 of n to the entries of corners a, b and c, one
      addition per corner. */
  function AddFaceUpTo(nb: seq<real>, a: int, b: int, c: int, n: Vec3, j: nat): (r: seq<real>)
    ensures |r| == |nb|
  {
    seq(|nb|, k requires 0 <= k < |nb| => if k % 3 < j then nb[k] + Share(k / 3, a, b, c, Component(n, k % 3)) else nb[k])
  }

  /** The normal buffer after the first t faces have been accumulated. */
  function AccumulatedUpTo(nb: seq<real>, vb: seq<real>, fb: seq<int>, nv: nat, nf: nat, t: nat): (r: seq<real>)
    requires Indexed(vb, fb, nv, nf) && t <= nf
    ensures |r| == |nb|
  {
    if t == 0 then nb
    else
      AddFaceUpTo(AccumulatedUpTo(nb, vb, fb, nv, nf, t - 1),
                  fb[3 * (t - 1)], fb[3 * (t - 1) + 1], fb[3 * (t - 1) + 2], FaceCross(vb, fb, nv, nf, t - 1), 3)
  }

  /** The normal buffer after the normalise loop has replaced normals
      0 .. i-1 by `normalize` of them. */
  function NormalizedUpTo(nb: seq<real>, normalize: Vec3 -> Vec3, i: nat): (r: seq<real>)
    requires 3 * i <= |nb|
    ensures |r| == |nb|
  {
    seq(|nb|, k requires 0 <= k < |nb| => if k / 3 < i then Component(normalize(Get3(nb, k / 3)), k % 3) else nb[k])
  }

  /** What generateNormals leaves in the normal buffer: nv zero normals, the
      normals of faces 0 .. nf-1 accumulated, every normal normalised. */
  function SmoothNormals(vb: seq<real>, fb: seq<int>, nv: nat, nf: nat, normalize: Vec3 -> Vec3): (r: seq<real>)
    requires Indexed(vb, fb, nv, nf)
    ensures |r| == 3 * nv
  {
    NormalizedUpTo(AccumulatedUpTo(seq(3 * nv, k => 0.0), vb, fb, nv, nf, nf), normalize, nv)
  }

  /** The sum, over faces 0 .. t-1, of each face's normal taken once per
      time the face names vertex x. */
  function Gathered(vb: seq<real>, fb: seq<int>, nv: nat, nf: nat, t: nat, x: int): Vec3
    requires Indexed(vb, fb, nv, nf) && t <= nf
  {
    if t == 0 then Zero
    else
      Add(Gathered(vb, fb, nv, nf, t - 1, x),
          CornerShare(x, fb[3 * (t - 1)], fb[3 * (t - 1) + 1], fb[3 * (t - 1) + 2], FaceCross(vb, fb, nv, nf, t - 1)))
  }

  /** One face adds n to the normal of vertex x once per time it names x. */
  lemma AddFaceAt(nb: seq<real>, a: int, b: int, c: int, n: Vec3, x: nat)
    requires HasSlot(nb, x)
    ensures Get3(AddFaceUpTo(nb, a, b, c, n, 3), x) == Add(Get3(nb, x), CornerShare(x, a, b, c, n))
    ensures Get3(AddFaceUpTo(nb, a, b, c, n, 3), x) == Add(Get3(nb, x), Scale(Hits(x, a, b, c), n))
  {
    CornerShareCountsNamings(x, a, b, c, n);
    assert (3 * x) / 3 == x && (3 * x) % 3 == 0;
    assert (3 * x + 1) / 3 == x && (3 * x + 1) % 3 == 1;
    assert (3 * x + 2) / 3 == x && (3 * x + 2) % 3 == 2;
  }

  /** After t faces, the normal of vertex x is its starting value plus the
      normals of the faces that name it, once per naming. */
  lemma {:induction false} AccumulatedAt(nb: seq<real>, vb: seq<real>, fb: seq<int>, nv: nat, nf: nat, t: nat, x: nat)
    requires Indexed(vb, fb, nv, nf) && t <= nf && HasSlot(nb, x)
    ensures Get3(AccumulatedUpTo(nb, vb, fb, nv, nf, t), x) == Add(Get3(nb, x), Gathered(vb, fb, nv, nf, t, x))
  {
    if t > 0 {
      AccumulatedAt(nb, vb, fb, nv, nf, t - 1, x);
      var a, b, c := fb[3 * (t - 1)], fb[3 * (t - 1) + 1], fb[3 * (t - 1) + 2];
      var n := FaceCross(vb, fb, nv, nf, t - 1);
      AddFaceAt(AccumulatedUpTo(nb, vb, fb, nv, nf, t - 1), a, b, c, n, x);
      AddAssoc(Get3(nb, x), Gathered(vb, fb, nv, nf, t - 1, x), CornerShare(x, a, b, c, n));
    }
  }

  /** The normals generateNormals leaves: vertex x < nv holds `normalize` of
      the sum of the normals of the faces that name it, each counted once
      per naming. */
  lemma SmoothNormalAt(vb: seq<real>, fb: seq<int>, nv: nat, nf: nat, normalize: Vec3 -> Vec3, x: nat)
    requires Indexed(vb, fb, nv, nf) && x < nv
    ensures HasSlot(SmoothNormals(vb, fb, nv, nf, normalize), x)
    ensures Get3(SmoothNormals(vb, fb, nv, nf, normalize), x) == normalize(Gathered(vb, fb, nv, nf, nf, x))
  {
    var zeros := seq(3 * nv, k => 0.0);
    var summed := AccumulatedUpTo(zeros, vb, fb, nv, nf, nf);
    AccumulatedAt(zeros, vb, fb, nv, nf, nf, x);
    AddZero(Gathered(vb, fb, nv, nf, nf, x));
    assert Get3(zeros, x) == Zero;
    assert (3 * x) / 3 == x && (3 * x + 1) / 3 == x && (3 * x + 2) / 3 == x;
    assert (3 * x) % 3 == 0 && (3 * x + 1) % 3 == 1 && (3 * x + 2) % 3 == 2;
  }

  /** With the counters at zero, as generateCube finds them, generateNormals
      processes no face and leaves an empty normal buffer. */
  lemma ZeroCountersNoNormals(vb: seq<real>, fb: seq<int>, normalize: Vec3 -> Vec3)
    ensures Indexed(vb, fb, 0, 0) && SmoothNormals(vb, fb, 0, 0, normalize) == []
  {
  }

  /** generateCube's corners: eight of them, every coordinate 10 or -10. */
  lemma CubeCorners()
    ensures |CubeVertices| == 24 && forall k :: 0 <= k < 24 ==> CubeVertices[k] == 10.0 || CubeVertices[k] == -10.0
  {
  }

  /** generateCube's twelve triangles name only its eight corners. */
  lemma CubeTriangles()
    ensures |CubeFaces| == 36 && Indexed(CubeVertices, CubeFaces, 8, 12)
  {
  }

  /** The skybox object of the viewer: the buffers generateCube fills, the
      counters, and the flag loaded() reports. */
  class Skybox {
    var isLoaded: bool
    var minXYZ: seq<real>
    var maxXYZ: seq<real>
    /** Face and vertex counters; no method of the skybox changes them. */
    var numFaces: nat
    var numVertices: nat
    var numNormals: nat
    var vBuffer: seq<real>
    var fBuffer: seq<int>
    var nBuffer: seq<real>
    var eBuffer: seq<int>
    var texcoordBuffer: seq<real>

    /** Not loaded, counters at zero, every buffer empty. */
    constructor ()
      ensures !isLoaded && minXYZ == [0.0, 0.0, 0.0] && maxXYZ == [0.0, 0.0, 0.0]
      ensures numFaces == 0 && numVertices == 0
      ensures vBuffer == [] && fBuffer == [] && nBuffer == [] && eBuffer == [] && texcoordBuffer == []
    {
      isLoaded := false;
      minXYZ := [0.0, 0.0, 0.0];
      maxXYZ := [0.0, 0.0, 0.0];
      numFaces := 0;
      numVertices := 0;
      vBuffer := [];
      fBuffer := [];
      nBuffer := [];
      eBuffer := [];
      texcoordBuffer := [];
    }

    /** Whether generateCube has run to its end. */
    method Loaded() returns (r: bool)
      ensures r == isLoaded
    {
      r := isLoaded;
    }

    /** Pushes the cube's eight corners and twelve triangles, generates the
        normals over the counters' share of them, and marks the skybox
        loaded. */
    method GenerateCube(normalize: Vec3 -> Vec3)
      requires Indexed(vBuffer + CubeVertices, fBuffer + CubeFaces, numVertices, numFaces)
      modifies this`vBuffer, this`fBuffer, this`nBuffer, this`numNormals, this`isLoaded
      ensures vBuffer == old(vBuffer) + CubeVertices && fBuffer == old(fBuffer) + CubeFaces
      ensures numNormals == numVertices
      ensures nBuffer == SmoothNormals(vBuffer, fBuffer, numVertices, numFaces, normalize)
      ensures isLoaded
    {
      // The eight three-value pushes of the corners, then the twelve of
      // the triangles, in the order of CubeVertices and CubeFaces.
      vBuffer := vBuffer + CubeVertices;
      fBuffer := fBuffer + CubeFaces;
      GenerateNormals(normalize);
      isLoaded := true;
    }

    /** Overwrites the position of vertex id. */
    method SetVertex(id: int, x: real, y: real, z: real)
      requires HasSlot(vBuffer, id)
      modifies this`vBuffer
      ensures vBuffer == Set3(old(vBuffer), id, Vec3(x, y, z))
    {
      var vid := 3 * id;
      vBuffer := vBuffer[vid := x];
      vBuffer := vBuffer[vid + 1 := y];
      vBuffer := vBuffer[vid + 2 := z];
    }

    /** Reads the position of vertex id. */
    method GetVertex(id: int) returns (v: Vec3)
      requires HasSlot(vBuffer, id)
      ensures v == Get3(vBuffer, id)
    {
      var vid := 3 * id;
      v := Vec3(vBuffer[vid], vBuffer[vid + 1], vBuffer[vid + 2]);
    }

    /** generateNormals: a fresh normal buffer of 3*numVertices entries,
        zeroed; the normal of each of the first numFaces faces added to its
        three corners; then every normal normalised. */
    method GenerateNormals(normalize: Vec3 -> Vec3)
      requires Indexed(vBuffer, fBuffer, numVertices, numFaces)
      modifies this`nBuffer, this`numNormals
      ensures numNormals == numVertices
      ensures nBuffer == SmoothNormals(vBuffer, fBuffer, numVertices, numFaces, normalize)
    {
      numNormals := numVertices;
      assert |seq(3 * numNormals, k => 0.0)| == 3 * numNormals;
      var blank: seq<real> :| |blank| == 3 * numNormals;
      nBuffer := blank;
      ZeroNormals();
      AccumulateFaces();
      NormalizeNormals(normalize);
    }

    /** The first loop of generateNormals: every entry of the new buffer
        set to 0. */
    method ZeroNormals()
      modifies this`nBuffer
      ensures nBuffer == seq(|old(nBuffer)|, k => 0.0)
    {
      var i := 0;
      while i < |nBuffer|
        invariant 0 <= i <= |nBuffer| == |old(nBuffer)|
        invariant forall k :: 0 <= k < i ==> nBuffer[k] == 0.0
      {
        nBuffer := nBuffer[i := 0.0];
        i := i + 1;
      }
    }

    /** The face loop of generateNormals: the normal of each of the first
        numFaces faces added to its three corners. */
    method AccumulateFaces()
      requires Indexed(vBuffer, fBuffer, numVertices, numFaces) && |nBuffer| == 3 * numVertices
      modifies this`nBuffer
      ensures nBuffer == AccumulatedUpTo(old(nBuffer), vBuffer, fBuffer, numVertices, numFaces, numFaces)
    {
      ghost var start := nBuffer;
      for i := 0 to numFaces
        invariant vBuffer == old(vBuffer) && fBuffer == old(fBuffer)
        invariant nBuffer == AccumulatedUpTo(start, vBuffer, fBuffer, numVertices, numFaces, i)
      {
        AccumulateFace(start, i);
      }
    }

    /** One pass of the face loop: the normal of face i, computed from its
        three corners, added to each of them. */
    method AccumulateFace(ghost start: seq<real>, i: nat)
      requires Indexed(vBuffer, fBuffer, numVertices, numFaces) && i < numFaces && |start| == 3 * numVertices
      requires nBuffer == AccumulatedUpTo(start, vBuffer, fBuffer, numVertices, numFaces, i)
      modifies this`nBuffer
      ensures nBuffer == AccumulatedUpTo(start, vBuffer, fBuffer, numVertices, numFaces, i + 1)
    {
      var v1 := fBuffer[3 * i];
      var v1Vec := GetVertex(v1);
      var v2 := fBuffer[3 * i + 1];
      var v2Vec := GetVertex(v2);
      var v3 := fBuffer[3 * i + 2];
      var v3Vec := GetVertex(v3);
      var n := Cross(Sub(v2Vec, v1Vec), Sub(v3Vec, v1Vec));
      AddToCorners(v1, v2, v3, n);
    }

    /** The last loop of generateNormals: each of the first numNormals
        normals replaced by `normalize` of it. */
    method NormalizeNormals(normalize: Vec3 -> Vec3)
      requires 3 * numNormals <= |nBuffer|
      modifies this`nBuffer
      ensures nBuffer == NormalizedUpTo(old(nBuffer), normalize, numNormals)
    {
      ghost var start := nBuffer;
      for i := 0 to numNormals
        invariant nBuffer == NormalizedUpTo(start, normalize, i)
      {
        var n := Vec3(nBuffer[3 * i], nBuffer[3 * i + 1], nBuffer[3 * i + 2]);
        n := normalize(n);
        NormalizeStep(start, normalize, i);
        nBuffer := nBuffer[3 * i := n.x];
        nBuffer := nBuffer[3 * i + 1 := n.y];
        nBuffer := nBuffer[3 * i + 2 := n.z];
      }
    }

    /** The component loop of one face: each component of n added to the
        matching entry of corners a, b and c in turn. */
    method AddToCorners(a: int, b: int, c: int, n: Vec3)
      requires HasSlot(nBuffer, a) && HasSlot(nBuffer, b) && HasSlot(nBuffer, c)
      modifies this`nBuffer
      ensures nBuffer == AddFaceUpTo(old(nBuffer), a, b, c, n, 3)
    {
      ghost var start := nBuffer;
      for j := 0 to 3
        invariant nBuffer == AddFaceUpTo(start, a, b, c, n, j)
      {
        ghost var before := nBuffer;
        nBuffer := nBuffer[3 * a + j := nBuffer[3 * a + j] + Component(n, j)];
        nBuffer := nBuffer[3 * b + j := nBuffer[3 * b + j] + Component(n, j)];
        nBuffer := nBuffer[3 * c + j := nBuffer[3 * c + j] + Component(n, j)];
        AddComponentStep(start, before, nBuffer, a, b, c, n, j);
      }
    }
  }

  /** The viewer's start-up: a new skybox, then generateCube. The counters
      are still zero when generateNormals runs, so the cube is loaded with
      an empty normal buffer. */
  method SetUpSkybox(normalize: Vec3 -> Vec3) returns (s: Skybox)
    ensures fresh(s) && s.isLoaded
    ensures s.vBuffer == CubeVertices && s.fBuffer == CubeFaces
    ensures s.numVertices == 0 && s.numFaces == 0 && s.nBuffer == []
  {
    s := new Skybox();
    assert s.vBuffer + CubeVertices == CubeVertices && s.fBuffer + CubeFaces == CubeFaces;
    ZeroCountersNoNormals(CubeVertices, CubeFaces, normalize);
    s.GenerateCube(normalize);
  }

  /** Adding component j of n to the entries of a, b and c, one after
      another, advances the component loop by one. */
  lemma AddComponentStep(nb: seq<real>, before: seq<real>, after: seq<real>, a: int, b: int, c: int, n: Vec3, j: nat)
    requires j < 3 && HasSlot(before, a) && HasSlot(before, b) && HasSlot(before, c)
    requires before == AddFaceUpTo(nb, a, b, c, n, j)
    requires var s1 := before[3 * a + j := before[3 * a + j] + Component(n, j)];
             var s2 := s1[3 * b + j := s1[3 * b + j] + Component(n, j)];
             after == s2[3 * c + j := s2[3 * c + j] + Component(n, j)]
    ensures after == AddFaceUpTo(nb, a, b, c, n, j + 1)
  {
    var next := AddFaceUpTo(nb, a, b, c, n, j + 1);
    forall k | 0 <= k < |nb|
      ensures after[k] == next[k]
    {
      if k % 3 == j {
        var x := k / 3;
        assert k == 3 * x + j;
        assert k == 3 * a + j <==> x == a;
        assert k == 3 * b + j <==> x == b;
        assert k == 3 * c + j <==> x == c;
      } else {
        assert k != 3 * a + j && k != 3 * b + j && k != 3 * c + j;
      }
    }
  }

  /** Normalising vector i of the buffer advances the normalise loop by
      one. */
  lemma NormalizeStep(nb: seq<real>, normalize: Vec3 -> Vec3, i: nat)
    requires 3 * (i + 1) <= |nb|
    ensures HasSlot(NormalizedUpTo(nb, normalize, i), i)
    ensures var cur := NormalizedUpTo(nb, normalize, i);
      var n := normalize(Get3(cur, i));
      cur[3 * i := n.x][3 * i + 1 := n.y][3 * i + 2 := n.z] == NormalizedUpTo(nb, normalize, i + 1)
  {
    var cur := NormalizedUpTo(nb, normalize, i);
    var next := NormalizedUpTo(nb, normalize, i + 1);
    assert (3 * i) / 3 == i && (3 * i + 1) / 3 == i && (3 * i + 2) / 3 == i;
    assert Get3(cur, i) == Get3(nb, i);
    var n := normalize(Get3(cur, i));
    var after := cur[3 * i := n.x][3 * i + 1 := n.y][3 * i + 2 := n.z];
    forall k | 0 <= k < |nb|
      ensures after[k] == next[k]
    {
      if k < 3 * i {
        assert k / 3 < i;
      } else if k >= 3 * i + 3 {
        assert k / 3 > i;
      } else {
        assert k == 3 * i || k == 3 * i + 1 || k == 3 * i + 2;
      }
    }
  }
}
