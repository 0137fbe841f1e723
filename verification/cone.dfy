/** The vertex and index buffers filled by generateConeVertices: the base
    ring, then the apex, as three-float positions; a fan of base triangles,
    then a fan of side triangles up to the apex. The rim points (radius times
    the cosine and sine of the i-th angle) are a parameter. */
module Cone {
  import opened Mesh

  /** The base-ring vertices pushed by the first n passes of the loop
      `for (i = 0; i <= segments; ++i)`, all in the plane y = 0. */
  function BaseRing(rim: RimOf, n: nat): (r: seq<real>)
    ensures |r| == 3 * n
  {
    if n == 0 then [] else BaseRing(rim, n - 1) + [rim(n - 1).0, 0.0, rim(n - 1).1]
  }

  /** The number of three-float vertices: the base ring and the apex. */
  function VertexCount(segments: int): nat {
    RingCount(segments) + 1
  }

  function Vertices(segments: int, height: real, rim: RimOf): (v: seq<real>)
    ensures |v| == 3 * VertexCount(segments)
    ensures segments >= 0 ==> |v| == 3 * (segments + 2)
  {
    BaseRing(rim, RingCount(segments)) + [0.0, height, 0.0]
  }

  /** The position of vertex k, or nothing when there is no vertex k. */
  function Position(vertices: seq<real>, k: int): seq<real> {
    if 0 <= k && 3 * k + 3 <= |vertices| then vertices[3 * k .. 3 * k + 3] else []
  }

  lemma {:induction false} BaseRingAt(rim: RimOf, n: nat, i: nat)
    requires i < n
    ensures BaseRing(rim, n)[3 * i .. 3 * i + 3] == [rim(i).0, 0.0, rim(i).1]
  {
    var ring := BaseRing(rim, n);
    if i < n - 1 {
      BaseRingAt(rim, n - 1, i);
      assert ring[3 * i .. 3 * i + 3] == BaseRing(rim, n - 1)[3 * i .. 3 * i + 3];
    } else {
      assert ring[3 * i ..] == [rim(i).0, 0.0, rim(i).1];
    }
  }

  /** Vertex i, for i from 0 to segments, is rim point i on the base plane
      y = 0, and vertex segments + 1 is the apex (0, height, 0). */
  lemma VertexLayout(segments: int, height: real, rim: RimOf, i: int)
    requires 0 <= i <= segments
    ensures var v := Vertices(segments, height, rim);
            && Position(v, i) == [rim(i).0, 0.0, rim(i).1]
            && Position(v, segments + 1) == [0.0, height, 0.0]
  {
    var v := Vertices(segments, height, rim);
    var ring := BaseRing(rim, segments + 1);
    BaseRingAt(rim, segments + 1, i);
    assert v[3 * i .. 3 * i + 3] == ring[3 * i .. 3 * i + 3];
    assert v[3 * (segments + 1) ..] == [0.0, height, 0.0];
  }

  /** The triangle pushed in pass i of either index loop: rim points i and
      i + 1 (mod segments) with the hub vertex. */
  function Triangle(segments: int, i: int, hub: int): seq<int>
    requires segments >= 1
  {
    [i, (i + 1) % segments, hub]
  }

  /** The triangles pushed by the first n passes of one index loop. */
  function Fan(segments: int, hub: int, n: nat): (r: seq<int>)
    requires segments >= 1
    ensures |r| == 3 * n
  {
    if n == 0 then [] else Fan(segments, hub, n - 1) + Triangle(segments, n - 1, hub)
  }

  /** The base fan is centred on vertex segments, the last rim vertex
      (which repeats the full-turn rim point), not on a centre vertex. */
  function BaseHub(segments: int): int {
    segments
  }

  /** The side fan is centred on the apex. */
  function Apex(segments: int): int {
    segments + 1
  }

  /** The whole index buffer: the base triangles, then the side triangles;
      both loops make no pass unless segments is positive. */
  function Indices(segments: int): (r: seq<int>)
    ensures |r| == if segments >= 1 then 6 * segments else 0
    ensures |r| == 6 * Passes(segments)
  {
    if segments >= 1 then Fan(segments, BaseHub(segments), segments) + Fan(segments, Apex(segments), segments)
    else []
  }

  lemma {:induction false} FanAt(segments: int, hub: int, n: nat, i: nat)
    requires segments >= 1 && i < n
    ensures Fan(segments, hub, n)[3 * i .. 3 * i + 3] == Triangle(segments, i, hub)
  {
    var fan := Fan(segments, hub, n);
    if i < n - 1 {
      FanAt(segments, hub, n - 1, i);
      assert fan[3 * i .. 3 * i + 3] == Fan(segments, hub, n - 1)[3 * i .. 3 * i + 3];
    } else {
      assert fan[3 * i ..] == Triangle(segments, i, hub);
    }
  }

  /** All base triangles come first: the i-th, at position 3i, is
      (i, (i + 1) % segments, segments); the i-th side triangle, at position
      3 * segments + 3i, is (i, (i + 1) % segments, segments + 1). */
  lemma TriangleLayout(segments: int, i: int)
    requires 0 <= i < segments
    ensures var idx := Indices(segments);
            && idx[3 * i .. 3 * i + 3] == [i, (i + 1) % segments, segments]
            && idx[3 * segments + 3 * i .. 3 * segments + 3 * i + 3] == [i, (i + 1) % segments, segments + 1]
  {
    var base := Fan(segments, BaseHub(segments), segments);
    var side := Fan(segments, Apex(segments), segments);
    FanAt(segments, BaseHub(segments), segments, i);
    FanAt(segments, Apex(segments), segments, i);
    assert Indices(segments)[3 * i .. 3 * i + 3] == base[3 * i .. 3 * i + 3];
    assert Indices(segments)[3 * segments + 3 * i .. 3 * segments + 3 * i + 3] == side[3 * i .. 3 * i + 3];
  }

  /** Every index names a vertex: all lie in [0, segments + 1]. */
  lemma IndicesInRange(segments: int)
    ensures forall k :: 0 <= k < |Indices(segments)| ==> 0 <= Indices(segments)[k] <= segments + 1
    ensures forall k :: 0 <= k < |Indices(segments)| ==> Indices(segments)[k] < VertexCount(segments)
  {
    if segments >= 1 {
      BoundedFan(segments, BaseHub(segments), segments);
      BoundedFan(segments, Apex(segments), segments);
    }
  }

  lemma {:induction false} BoundedFan(segments: int, hub: int, n: nat)
    requires segments >= 1 && segments <= hub <= segments + 1 && n <= segments
    ensures forall k :: 0 <= k < |Fan(segments, hub, n)| ==> 0 <= Fan(segments, hub, n)[k] <= segments + 1
  {
    if n > 0 {
      BoundedFan(segments, hub, n - 1);
      assert 0 <= (n % segments) < segments;
    }
  }

  /** Every vertex is used: the base hub (the duplicated rim vertex
      segments) and the apex included. */
  lemma EveryVertexUsed(segments: int, vertex: int)
    requires segments >= 1 && 0 <= vertex <= segments + 1
    ensures vertex in Indices(segments)
  {
    var idx := Indices(segments);
    if vertex < segments {
      TriangleLayout(segments, vertex);
      assert idx[3 * vertex] == vertex;
    } else if vertex == segments {
      TriangleLayout(segments, 0);
      assert idx[2] == segments;
    } else {
      TriangleLayout(segments, 0);
      assert idx[3 * segments + 2] == segments + 1;
    }
  }

  /** The entries of base triangle i and side triangle i, one by one. */
  lemma TriangleEntries(segments: int, i: int)
    requires 0 <= i < segments
    ensures var idx := Indices(segments);
            var next := (i + 1) % segments;
            && 0 <= next < segments
            && idx[3 * i] == i && idx[3 * i + 1] == next && idx[3 * i + 2] == segments
            && idx[3 * segments + 3 * i] == i && idx[3 * segments + 3 * i + 1] == next
            && idx[3 * segments + 3 * i + 2] == segments + 1
  {
    TriangleLayout(segments, i);
  }

  /** Combining both buffers: base triangle i lies in the plane y = 0, on
      rim points i and i + 1 (mod segments) and the full-turn rim point. */
  lemma BaseTriangleGeometry(segments: int, height: real, rim: RimOf, i: int)
    requires 0 <= i < segments
    ensures var v := Vertices(segments, height, rim);
            var idx := Indices(segments);
            var next := (i + 1) % segments;
            && Position(v, idx[3 * i]) == [rim(i).0, 0.0, rim(i).1]
            && Position(v, idx[3 * i + 1]) == [rim(next).0, 0.0, rim(next).1]
            && Position(v, idx[3 * i + 2]) == [rim(segments).0, 0.0, rim(segments).1]
  {
    TriangleEntries(segments, i);
    VertexLayout(segments, height, rim, i);
    VertexLayout(segments, height, rim, (i + 1) % segments);
    VertexLayout(segments, height, rim, segments);
  }

  /** Side triangle i joins rim points i and i + 1 (mod segments) to the
      apex. */
  lemma SideTriangleGeometry(segments: int, height: real, rim: RimOf, i: int)
    requires 0 <= i < segments
    ensures var v := Vertices(segments, height, rim);
            var idx := Indices(segments);
            var next := (i + 1) % segments;
            && Position(v, idx[3 * segments + 3 * i]) == [rim(i).0, 0.0, rim(i).1]
            && Position(v, idx[3 * segments + 3 * i + 1]) == [rim(next).0, 0.0, rim(next).1]
            && Position(v, idx[3 * segments + 3 * i + 2]) == [0.0, height, 0.0]
  {
    TriangleEntries(segments, i);
    VertexLayout(segments, height, rim, i);
    VertexLayout(segments, height, rim, (i + 1) % segments);
  }

  /** When the full-turn rim point coincides with rim point 0, the first and
      last base triangles each repeat a position and so cover no area. */
  lemma EndBaseTrianglesDegenerate(segments: int, height: real, rim: RimOf)
    requires segments >= 1 && rim(segments) == rim(0)
    ensures var v := Vertices(segments, height, rim);
            var idx := Indices(segments);
            && Position(v, idx[0]) == Position(v, idx[2])
            && Position(v, idx[3 * segments - 2]) == Position(v, idx[3 * segments - 1])
  {
    TriangleEntries(segments, 0);
    TriangleEntries(segments, segments - 1);
    assert (segments - 1 + 1) % segments == 0;
    VertexLayout(segments, height, rim, 0);
    VertexLayout(segments, height, rim, segments);
  }
}
