/** Flat numeric buffers in which item `id` owns the three consecutive
    entries 3*id, 3*id+1 and 3*id+2 (x, y, z), the layout every vertex and
    normal buffer of the meshes uses. */
module FlatBuffers {
  import opened Vectors

  /** Item `id` has all three of its entries inside `buf`. */
  predicate HasSlot(buf: seq<real>, id: int)
  {
    0 <= id && 3 * id + 2 < |buf|
  }

  /** The three entries of item `id`, read as a vector. */
  function Get3(buf: seq<real>, id: int): Vec3
    requires HasSlot(buf, id)
  {
    Vec3(buf[3 * id], buf[3 * id + 1], buf[3 * id + 2])
  }

  /** Overwrite the three entries of item `id`; afterwards reading the item
      yields `v`, and every entry belonging to another item is unchanged. */
  function Set3(buf: seq<real>, id: int, v: Vec3): (r: seq<real>)
    requires HasSlot(buf, id)
    ensures |r| == |buf| && HasSlot(r, id) && Get3(r, id) == v
    ensures forall k :: 0 <= k < |buf| && k / 3 != id ==> r[k] == buf[k]
  {
    buf[3 * id := v.x][3 * id + 1 := v.y][3 * id + 2 := v.z]
  }

  /** Writing one item leaves the value read for any other item unchanged. */
  lemma Set3Other(buf: seq<real>, id: int, v: Vec3, other: int)
    requires HasSlot(buf, id) && HasSlot(buf, other) && other != id
    ensures Get3(Set3(buf, id, v), other) == Get3(buf, other)
  {
    var r := Set3(buf, id, v);
    assert (3 * other) / 3 == other && (3 * other + 1) / 3 == other && (3 * other + 2) / 3 == other;
    assert r[3 * other] == buf[3 * other];
  }

  /** The first n items of a flat buffer, one vector per item. */
  function Items(buf: seq<real>, n: nat): (r: seq<Vec3>)
    requires 3 * n <= |buf|
    ensures |r| == n
  {
    seq(n, k requires 0 <= k < n => Get3(buf, k))
  }

  /** Writing item id of the flat buffer writes element id of its item view. */
  lemma ItemsSet3(buf: seq<real>, n: nat, id: int, v: Vec3)
    requires 3 * n <= |buf| && 0 <= id < n
    ensures Items(Set3(buf, id, v), n) == Items(buf, n)[id := v]
  {
    var a := Items(Set3(buf, id, v), n);
    var b := Items(buf, n)[id := v];
    forall k | 0 <= k < n
      ensures a[k] == b[k]
    {
      if k != id {
        Set3Other(buf, id, v, k);
      }
    }
  }
}
