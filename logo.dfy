/** The two buffer computations of the UIUC logo program: rescaling the
    logo's interleaved (x, y) vertex data from the 25 × 25 design grid to
    clip space in place, and building the per-vertex colour array that
    initBuffers uploads. */
module Logo {

  // ---------------------------------------------------------------------
  // Rescaling vertex coordinates

  /** Where the rescaling sends an x coordinate of the design grid. */
  function ScaleX(x: real): (r: real)
    ensures UnscaleX(r) == x
  {
    2.0 * x / 25.0 - 1.0
  }

  /** Where the rescaling sends a y coordinate: the y axis is flipped. */
  function ScaleY(y: real): (r: real)
    ensures UnscaleY(r) == y
  {
    1.0 - 2.0 * y / 25.0
  }

  /** The new value of entry k of the vertex array: even entries are x
      coordinates, odd entries y coordinates. */
  function Rescaled(v: real, k: nat): real
  {
    if k % 2 == 0 then ScaleX(v) else ScaleY(v)
  }

  /** The x coordinate a clip-space value came from. */
  function UnscaleX(u: real): real
  {
    (u + 1.0) * 25.0 / 2.0
  }

  /** The y coordinate a clip-space value came from. */
  function UnscaleY(u: real): real
  {
    (1.0 - u) * 25.0 / 2.0
  }

  /** Rescaling x loses nothing: UnscaleX undoes it, and it undoes UnscaleX. */
  lemma ScaleXRoundTrip(x: real, u: real)
    ensures UnscaleX(ScaleX(x)) == x && ScaleX(UnscaleX(u)) == u
  {
  }

  /** Rescaling y loses nothing: UnscaleY undoes it, and it undoes UnscaleY. */
  lemma ScaleYRoundTrip(y: real, u: real)
    ensures UnscaleY(ScaleY(y)) == y && ScaleY(UnscaleY(u)) == u
  {
  }

  /** The design grid [0, 25] lands exactly on clip space [-1, 1]: its ends
      go to the ends, x keeps its direction and y is turned upside down. */
  lemma ScaleEnds()
    ensures ScaleX(0.0) == -1.0 && ScaleX(25.0) == 1.0
    ensures ScaleY(0.0) == 1.0 && ScaleY(25.0) == -1.0
  {
  }

  /** Every coordinate of the design grid lands in clip space, and only
      those do. */
  lemma ScaleInClipSpace(v: real)
    ensures 0.0 <= v <= 25.0 <==> -1.0 <= ScaleX(v) <= 1.0
    ensures 0.0 <= v <= 25.0 <==> -1.0 <= ScaleY(v) <= 1.0
  {
  }

  /** x keeps its order and y reverses it. */
  lemma ScaleOrder(a: real, b: real)
    requires a < b
    ensures ScaleX(a) < ScaleX(b) && ScaleY(a) > ScaleY(b)
  {
  }

  /** scaleVertices: every x (even entry) and y (odd entry) of the array
      rescaled in place, the loop stepping over one (x, y) pair per turn;
      the second argument plays no part, and the array itself is returned. */
  method ScaleVertices(vertices: array<real>, maxXY: real) returns (r: array<real>)
    requires vertices.Length % 2 == 0
    modifies vertices
    ensures r == vertices
    ensures forall k :: 0 <= k < vertices.Length ==> vertices[k] == Rescaled(old(vertices[k]), k)
  {
    var i := 0;
    while i < vertices.Length
      invariant 0 <= i <= vertices.Length && i % 2 == 0
      invariant forall k :: 0 <= k < i ==> vertices[k] == Rescaled(old(vertices[k]), k)
      invariant forall k :: i <= k < vertices.Length ==> vertices[k] == old(vertices[k])
    {
      vertices[i] := (vertices[i] - 0.0) * (1.0 - (-1.0)) / (25.0 - 0.0) + -1.0;
      i := i + 1;
      vertices[i] := (vertices[i] - 0.0) * (-1.0 - 1.0) / (25.0 - 0.0) + 1.0;
      i := i + 1;
    }
    r := vertices;
  }

  // ---------------------------------------------------------------------
  // The colour array

  /** The orange of the logo's inner polygons, as RGBA. */
  const Orange: seq<real> := [1.0, 0.5, 0.0, 1.0]

  /** The blue of the logo's border, as RGBA. */
  const Blue: seq<real> := [0.0353, 0.0, 0.529, 1.0]

  /** The colour selected by the `colors` argument: 0 orange, 1 blue. */
  function Swatch(colors: int): seq<real>
    requires colors == 0 || colors == 1
  {
    if colors == 0 then Orange else Blue
  }

  /** n copies of one RGBA colour, one after another. */
  function Repeat(color: seq<real>, n: nat): (r: seq<real>)
  {
    if n == 0 then [] else Repeat(color, n - 1) + color
  }

  /** The colour array built for a vertex array of length n: four entries
      per array entry in the selected colour, and nothing for any other
      value of `colors`. */
  function ColorFill(n: nat, colors: int): seq<real>
  {
    if colors == 0 || colors == 1 then Repeat(Swatch(colors), n) else []
  }

  /** n copies of a four-entry colour take 4n entries, entry k being
      component k % 4 of the colour. */
  lemma {:induction false} RepeatAt(color: seq<real>, n: nat)
    requires |color| == 4
    ensures |Repeat(color, n)| == 4 * n
    ensures forall k :: 0 <= k < 4 * n ==> Repeat(color, n)[k] == color[k % 4]
  {
    if n > 0 {
      RepeatAt(color, n - 1);
      var r := Repeat(color, n);
      forall k | 0 <= k < 4 * n
        ensures r[k] == color[k % 4]
      {
        if k >= 4 * (n - 1) {
          assert k % 4 == k - 4 * (n - 1);
        }
      }
    }
  }

  /** For colors 0 and 1 the array holds 4 entries per vertex-array entry,
      each the matching component of the selected colour; for any other
      value it is empty. */
  lemma ColorFillShape(n: nat, colors: int)
    ensures colors == 0 || colors == 1 ==>
      |ColorFill(n, colors)| == 4 * n &&
      forall k :: 0 <= k < 4 * n ==> ColorFill(n, colors)[k] == Swatch(colors)[k % 4]
    ensures colors != 0 && colors != 1 ==> ColorFill(n, colors) == []
  {
    if colors == 0 || colors == 1 {
      RepeatAt(Swatch(colors), n);
    }
  }

  /** The colour loops of initBuffers: for colors 0 one orange per entry
      of the vertex array, for colors 1 one blue, otherwise nothing. */
  method ColorMatrix(vertices: seq<real>, colors: int) returns (m: seq<real>)
    ensures m == ColorFill(|vertices|, colors)
  {
    m := [];
    if colors == 0 {
      m := PushColors(m, Orange, |vertices|);
    } else if colors == 1 {
      m := PushColors(m, Blue, |vertices|);
    }
  }

  /** One pair of the nested colour loops: `count` times, the four
      components of `color` pushed onto m. */
  method PushColors(m0: seq<real>, color: seq<real>, count: nat) returns (m: seq<real>)
    requires |color| == 4
    ensures m == m0 + Repeat(color, count)
  {
    m := m0;
    for i := 0 to count
      invariant m == m0 + Repeat(color, i)
    {
      for j := 0 to 4
        invariant m == m0 + Repeat(color, i) + color[..j]
      {
        m := m + [color[j]];
      }
    }
  }
}
