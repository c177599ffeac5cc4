/**
 * The map's point cloud as the engine hands it over: a flat buffer of floats, read
 * three at a time (x, y, z) for every index `i = 0, 3, 6, ...` below the returned `num`.
 */
module PointCloud {
  import opened Geometry

  /** `maxNumPoints`: the buffer holds `3 * MaxNumPoints` floats. */
  const MaxNumPoints: nat := 65535

  /** How many indices `stride(from: 0, to: num, by: 3)` visits: ceil(num / 3), none if `num <= 0`. */
  function PointCount(num: int): nat {
    if num <= 0 then 0 else (num + 2) / 3
  }

  /** The stride visits index `3 * j` exactly when `j < PointCount(num)`. */
  lemma StrideVisits(num: int, j: nat)
    ensures 3 * j < num <==> j < PointCount(num)
  {
  }

  /** With `num` within the buffer's capacity, every read `3 * j + 2` stays inside it. */
  lemma ReadsStayInBuffer(num: int, maxNumPoints: nat)
    requires num <= 3 * maxNumPoints
    ensures PointCount(num) <= maxNumPoints
    ensures forall j :: 0 <= j < PointCount(num) ==> 3 * j + 2 < 3 * maxNumPoints
  {
  }

  /** The points back as a flat buffer, in order. */
  function Flatten(points: seq<Vec3>): seq<real> {
    if points == [] then []
    else
      var last := points[|points| - 1];
      Flatten(points[..|points| - 1]) + [last.x, last.y, last.z]
  }

  /** Component `k` of point `j` sits at flat index `3 * j + k`. */
  lemma {:induction false} FlattenAt(points: seq<Vec3>, j: nat)
    requires j < |points|
    ensures |Flatten(points)| == 3 * |points|
    ensures Flatten(points)[3 * j] == points[j].x
    ensures Flatten(points)[3 * j + 1] == points[j].y
    ensures Flatten(points)[3 * j + 2] == points[j].z
  {
    var prefix := points[..|points| - 1];
    if j < |points| - 1 {
      FlattenAt(prefix, j);
    } else if prefix != [] {
      FlattenAt(prefix, 0);
    }
  }

  /**
   * The loop of `viewWillAppear`: one point per stride index, in buffer order.
   * The requires is exactly "every index the loop reads is inside the buffer".
   */
  method ExtractPoints(buffer: array<real>, num: int) returns (p: seq<Vec3>)
    requires 3 * PointCount(num) <= buffer.Length
    ensures |p| == PointCount(num)
    ensures forall j :: 0 <= j < |p| ==> p[j] == Vec3(buffer[3 * j], buffer[3 * j + 1], buffer[3 * j + 2])
    ensures Flatten(p) == buffer[..3 * |p|]
  {
    p := [];
    var i := 0;
    while i < num
      invariant i == 3 * |p| && |p| <= PointCount(num)
      invariant forall j :: 0 <= j < |p| ==> p[j] == Vec3(buffer[3 * j], buffer[3 * j + 1], buffer[3 * j + 2])
      invariant Flatten(p) == buffer[..i]
      decreases num - i
    {
      StrideVisits(num, |p|);
      var point := Vec3(buffer[i], buffer[i + 1], buffer[i + 2]);
      assert (p + [point])[..|p|] == p;
      assert buffer[..i + 3] == buffer[..i] + [buffer[i], buffer[i + 1], buffer[i + 2]];
      p := p + [point];
      i := i + 3;
    }
    StrideVisits(num, |p|);
  }
}
