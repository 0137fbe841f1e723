/** The vertex and index buffers filled by generateCylinderVertices: two cap
    centres, then one top/bottom vertex pair per rim point, and twelve indices
    (four triangles) per segment. Coordinates are exact reals; the rim points
    (radius times the cosine and sine of the i-th angle) are a parameter. */
module Cylinder {
  import opened Mesh

  /** Every vertex is six floats: a position followed by this colour. */
  const Colour: seq<real> := [0.702, 1.0, 1.0]

  function VertexData(x: real, y: real, z: real): seq<real> {
    [x, y, z] + Colour
  }

  /** The position of vertex k of a buffer with six floats per vertex, or
      nothing when the buffer has no vertex k. */
  function Position(vertices: seq<real>, k: int): seq<real> {
    if 0 <= k && 6 * k + 6 <= |vertices| then vertices[6 * k .. 6 * k + 3] else []
  }

  /** The top and bottom centre vertices pushed before the loop. */
  function Centres(height: real): seq<real> {
    VertexData(0.0, height / 2.0, 0.0) + VertexData(0.0, -height / 2.0, 0.0)
  }

  /** The top and bottom vertex pushed for rim point i. */
  function RingPair(rim: RimOf, height: real, i: int): seq<real> {
    VertexData(rim(i).0, height / 2.0, rim(i).1) + VertexData(rim(i).0, -height / 2.0, rim(i).1)
  }

  /** The ring pairs pushed by the first n passes of the vertex loop. */
  function Rings(rim: RimOf, height: real, n: nat): (r: seq<real>)
    ensures |r| == 12 * n
  {
    if n == 0 then [] else Rings(rim, height, n - 1) + RingPair(rim, height, n - 1)
  }

  /** The number of six-float vertices in the buffer. */
  function VertexCount(segments: int): nat {
    2 + 2 * RingCount(segments)
  }

  function Vertices(segments: int, height: real, rim: RimOf): (v: seq<real>)
    ensures |v| == 6 * VertexCount(segments)
    ensures segments >= 0 ==> |v| == 6 * (2 * segments + 4)
  {
    Centres(height) + Rings(rim, height, RingCount(segments))
  }

  lemma {:induction false} RingsPrefix(rim: RimOf, height: real, n: nat, i: nat)
    requires i < n
    ensures Rings(rim, height, n)[12 * i .. 12 * i + 12] == RingPair(rim, height, i)
  {
    if i < n - 1 {
      RingsPrefix(rim, height, n - 1, i);
      var prev := Rings(rim, height, n - 1);
      assert Rings(rim, height, n)[12 * i .. 12 * i + 12] == prev[12 * i .. 12 * i + 12];
    } else {
      assert Rings(rim, height, n)[12 * i ..] == RingPair(rim, height, i);
    }
  }

  /** Vertex 0 is the top centre and vertex 1 the bottom centre; vertex
      2 + 2i is rim point i at the top and vertex 3 + 2i the same rim point at
      the bottom, every vertex coloured (0.702, 1, 1). */
  lemma VertexLayout(segments: int, height: real, rim: RimOf, i: int)
    requires 0 <= i <= segments
    ensures var v := Vertices(segments, height, rim);
            && v[0 .. 6] == VertexData(0.0, height / 2.0, 0.0)
            && v[6 .. 12] == VertexData(0.0, -height / 2.0, 0.0)
            && v[6 * (2 + 2 * i) .. 6 * (2 + 2 * i) + 6] == VertexData(rim(i).0, height / 2.0, rim(i).1)
            && v[6 * (3 + 2 * i) .. 6 * (3 + 2 * i) + 6] == VertexData(rim(i).0, -height / 2.0, rim(i).1)
  {
    var v := Vertices(segments, height, rim);
    var rings := Rings(rim, height, RingCount(segments));
    RingsPrefix(rim, height, RingCount(segments), i);
    assert |Centres(height)| == 12 && v == Centres(height) + rings;
    assert v[12 + 12 * i .. 24 + 12 * i] == rings[12 * i .. 12 * i + 12];
    assert v[6 * (2 + 2 * i) .. 6 * (2 + 2 * i) + 6] == RingPair(rim, height, i)[..6];
    assert v[6 * (3 + 2 * i) .. 6 * (3 + 2 * i) + 6] == RingPair(rim, height, i)[6..];
  }

  /** The twelve indices pushed for segment i: the top-cap triangle, the
      bottom-cap triangle and the two side triangles. */
  function SegmentIndices(segments: int, i: int): seq<int>
    requires segments >= 1
  {
    var top1 := 2 + 2 * i;
    var top2 := 2 + 2 * ((i + 1) % segments);
    var bottom1 := top1 + 1;
    var bottom2 := top2 + 1;
    [0, 2 + 2 * i, 2 + 2 * ((i + 1) % segments),
     1, 3 + 2 * i, 3 + 2 * ((i + 1) % segments),
     top1, bottom1, top2,
     bottom1, bottom2, top2]
  }

  /** The indices pushed by the first n passes of the index loop. */
  function IndicesUpTo(segments: int, n: nat): (r: seq<int>)
    requires segments >= 1
    ensures |r| == 12 * n
  {
    if n == 0 then [] else IndicesUpTo(segments, n - 1) + SegmentIndices(segments, n - 1)
  }

  /** The whole index buffer: the loop `for (i = 0; i < segments; i++)` makes
      no pass at all unless segments is positive. */
  function Indices(segments: int): (r: seq<int>)
    ensures |r| == if segments >= 1 then 12 * segments else 0
    ensures |r| == 12 * Passes(segments)
  {
    if segments >= 1 then IndicesUpTo(segments, segments) else []
  }

  lemma {:induction false} IndicesUpToPrefix(segments: int, n: nat, i: nat)
    requires segments >= 1 && i < n
    ensures IndicesUpTo(segments, n)[12 * i .. 12 * i + 12] == SegmentIndices(segments, i)
  {
    if i < n - 1 {
      IndicesUpToPrefix(segments, n - 1, i);
      var prev := IndicesUpTo(segments, n - 1);
      assert IndicesUpTo(segments, n)[12 * i .. 12 * i + 12] == prev[12 * i .. 12 * i + 12];
    } else {
      assert IndicesUpTo(segments, n)[12 * i ..] == SegmentIndices(segments, i);
    }
  }

  /** Indices 12i to 12i + 11 are the ones segment i pushes. */
  lemma IndicesLayout(segments: int, i: int)
    requires 0 <= i < segments
    ensures Indices(segments)[12 * i .. 12 * i + 12] == SegmentIndices(segments, i)
  {
    IndicesUpToPrefix(segments, segments, i);
  }

  /** The index at position k of the buffer, read off its segment. */
  lemma IndexAt(segments: int, k: int)
    requires 0 <= k < |Indices(segments)|
    ensures segments >= 1 && 0 <= k / 12 < segments
    ensures Indices(segments)[k] == SegmentIndices(segments, k / 12)[k % 12]
  {
    var i := k / 12;
    IndicesLayout(segments, i);
    assert Indices(segments)[k] == Indices(segments)[12 * i .. 12 * i + 12][k - 12 * i];
  }

  lemma SegmentInRange(segments: int, i: int)
    requires 0 <= i < segments
    ensures forall t :: 0 <= t < 12 ==> 0 <= SegmentIndices(segments, i)[t] <= 2 * segments + 1
  {
    assert 0 <= (i + 1) % segments < segments;
  }

  /** Every index names one of the 2 * segments + 2 vertices before the
      closing ring pair: the buffer never reaches vertices 2 * segments + 2
      and 2 * segments + 3, the pair the vertex loop pushes last for rim point
      segments (the full-turn angle, back near rim point 0), because the index loop wraps around with % segments. */
  lemma IndicesInRange(segments: int)
    ensures forall k :: 0 <= k < |Indices(segments)| ==> 0 <= Indices(segments)[k] <= 2 * segments + 1
    ensures forall k :: 0 <= k < |Indices(segments)| ==> Indices(segments)[k] < VertexCount(segments) - 2
    ensures 2 * segments + 2 !in Indices(segments) && 2 * segments + 3 !in Indices(segments)
  {
    forall k | 0 <= k < |Indices(segments)|
      ensures 0 <= Indices(segments)[k] <= 2 * segments + 1
    {
      IndexAt(segments, k);
      SegmentInRange(segments, k / 12);
    }
  }

  /** Conversely, every vertex from 0 to 2 * segments + 1 is used. */
  lemma EveryVertexUsed(segments: int, vertex: int)
    requires segments >= 1 && 0 <= vertex <= 2 * segments + 1
    ensures vertex in Indices(segments)
  {
    var idx := Indices(segments);
    if vertex <= 1 {
      SegmentEntries(segments, 0);
      assert idx[3 * vertex] == vertex;
    } else {
      var i := (vertex - 2) / 2;
      assert 0 <= i < segments;
      SegmentEntries(segments, i);
      if vertex % 2 == 0 {
        assert idx[12 * i + 1] == vertex;
      } else {
        assert idx[12 * i + 4] == vertex;
      }
    }
  }

  /** The shape of segment i: the top-cap triangle is the top centre with two
      even (top) ring vertices, the bottom-cap triangle the bottom centre with
      the odd (bottom) vertices beneath them, and the side quad is split into
      (top1, bottom1, top2) and (bottom1, bottom2, top2) with each bottom
      vertex just after its top vertex. The top vertices are rim points i and
      i + 1, the last segment closing the ring back onto rim point 0. */
  lemma SegmentShape(segments: int, i: int)
    requires 0 <= i < segments
    ensures var idx := Indices(segments);
            var b := 12 * i;
            && idx[b] == 0 && idx[b + 1] == 2 + 2 * i
            && idx[b + 2] == (if i == segments - 1 then 2 else 4 + 2 * i)
            && idx[b + 3] == 1 && idx[b + 4] == idx[b + 1] + 1 && idx[b + 5] == idx[b + 2] + 1
            && idx[b + 6] == idx[b + 1] && idx[b + 7] == idx[b + 1] + 1 && idx[b + 8] == idx[b + 2]
            && idx[b + 9] == idx[b + 7] && idx[b + 10] == idx[b + 8] + 1 && idx[b + 11] == idx[b + 8]
  {
    SegmentEntries(segments, i);
    if i == segments - 1 {
      assert (i + 1) % segments == 0;
    } else {
      assert (i + 1) % segments == i + 1;
    }
  }

  /** Entry by entry, the buffer from 12i on is what segment i pushes. */
  lemma SegmentEntries(segments: int, i: int)
    requires 0 <= i < segments
    ensures forall k :: 12 * i <= k < 12 * i + 12 ==> Indices(segments)[k] == SegmentIndices(segments, i)[k - 12 * i]
  {
    var idx := Indices(segments);
    IndicesLayout(segments, i);
    forall k | 12 * i <= k < 12 * i + 12
      ensures idx[k] == SegmentIndices(segments, i)[k - 12 * i]
    {
      assert idx[k] == idx[12 * i .. 12 * i + 12][k - 12 * i];
    }
  }

  /** Vertex k of the buffer sits at (x, y, z) when its six floats are
      those pushed for (x, y, z). */
  lemma PositionOf(v: seq<real>, k: int, x: real, y: real, z: real)
    requires 0 <= k && 6 * k + 6 <= |v|
    requires v[6 * k .. 6 * k + 6] == VertexData(x, y, z)
    ensures Position(v, k) == [x, y, z]
  {
    assert v[6 * k .. 6 * k + 3] == v[6 * k .. 6 * k + 6][..3];
  }

  /** Vertex positions: the centres at the origin's height ±height / 2 and
      rim point i at the top (vertex 2 + 2i) and bottom (vertex 3 + 2i). */
  lemma VertexPositions(segments: int, height: real, rim: RimOf, i: int)
    requires 0 <= i <= segments
    ensures var v := Vertices(segments, height, rim);
            && Position(v, 0) == [0.0, height / 2.0, 0.0]
            && Position(v, 1) == [0.0, -height / 2.0, 0.0]
            && Position(v, 2 + 2 * i) == [rim(i).0, height / 2.0, rim(i).1]
            && Position(v, 3 + 2 * i) == [rim(i).0, -height / 2.0, rim(i).1]
  {
    var v := Vertices(segments, height, rim);
    VertexLayout(segments, height, rim, i);
    PositionOf(v, 0, 0.0, height / 2.0, 0.0);
    PositionOf(v, 1, 0.0, -height / 2.0, 0.0);
    PositionOf(v, 2 + 2 * i, rim(i).0, height / 2.0, rim(i).1);
    PositionOf(v, 3 + 2 * i, rim(i).0, -height / 2.0, rim(i).1);
  }

  /** The cap entries of segment i name the centres and rim points i and
      i + 1 (mod segments). */
  lemma CapEntries(segments: int, i: int)
    requires 0 <= i < segments
    ensures var idx := Indices(segments);
            var next := (i + 1) % segments;
            && 0 <= next < segments
            && idx[12 * i] == 0 && idx[12 * i + 1] == 2 + 2 * i && idx[12 * i + 2] == 2 + 2 * next
            && idx[12 * i + 3] == 1 && idx[12 * i + 4] == 3 + 2 * i && idx[12 * i + 5] == 3 + 2 * next
  {
    SegmentEntries(segments, i);
  }

  /** Putting both buffers together: the top-cap triangle of segment i lies
      in the plane y = height / 2 on the top centre and rim points i and
      i + 1 (mod segments). */
  lemma TopCapTriangle(segments: int, height: real, rim: RimOf, i: int)
    requires 0 <= i < segments
    ensures var v := Vertices(segments, height, rim);
            var idx := Indices(segments);
            var next := (i + 1) % segments;
            && Position(v, idx[12 * i]) == [0.0, height / 2.0, 0.0]
            && Position(v, idx[12 * i + 1]) == [rim(i).0, height / 2.0, rim(i).1]
            && Position(v, idx[12 * i + 2]) == [rim(next).0, height / 2.0, rim(next).1]
  {
    CapEntries(segments, i);
    VertexPositions(segments, height, rim, i);
    VertexPositions(segments, height, rim, (i + 1) % segments);
  }

  /** The bottom-cap triangle of segment i is the top-cap triangle moved to
      the plane y = -height / 2. */
  lemma BottomCapTriangle(segments: int, height: real, rim: RimOf, i: int)
    requires 0 <= i < segments
    ensures var v := Vertices(segments, height, rim);
            var idx := Indices(segments);
            var next := (i + 1) % segments;
            && Position(v, idx[12 * i + 3]) == [0.0, -height / 2.0, 0.0]
            && Position(v, idx[12 * i + 4]) == [rim(i).0, -height / 2.0, rim(i).1]
            && Position(v, idx[12 * i + 5]) == [rim(next).0, -height / 2.0, rim(next).1]
  {
    CapEntries(segments, i);
    VertexPositions(segments, height, rim, i);
    VertexPositions(segments, height, rim, (i + 1) % segments);
  }

  /** The side entries of segment i name the top and bottom vertices of rim
      points i and i + 1 (mod segments). */
  lemma SideEntries(segments: int, i: int)
    requires 0 <= i < segments
    ensures var idx := Indices(segments);
            var next := (i + 1) % segments;
            && 0 <= next < segments
            && idx[12 * i + 6] == 2 + 2 * i && idx[12 * i + 7] == 3 + 2 * i && idx[12 * i + 8] == 2 + 2 * next
            && idx[12 * i + 9] == 3 + 2 * i && idx[12 * i + 10] == 3 + 2 * next && idx[12 * i + 11] == 2 + 2 * next
  {
    SegmentEntries(segments, i);
  }

  /** The side quad of segment i spans rim points i and i + 1 (mod segments)
      from y = height / 2 down to y = -height / 2: its first triangle is
      top i, bottom i, top i + 1 and its second bottom i, bottom i + 1,
      top i + 1. */
  lemma SideQuad(segments: int, height: real, rim: RimOf, i: int)
    requires 0 <= i < segments
    ensures var v := Vertices(segments, height, rim);
            var idx := Indices(segments);
            var next := (i + 1) % segments;
            && Position(v, idx[12 * i + 6]) == [rim(i).0, height / 2.0, rim(i).1]
            && Position(v, idx[12 * i + 7]) == [rim(i).0, -height / 2.0, rim(i).1]
            && Position(v, idx[12 * i + 8]) == [rim(next).0, height / 2.0, rim(next).1]
            && Position(v, idx[12 * i + 9]) == [rim(i).0, -height / 2.0, rim(i).1]
            && Position(v, idx[12 * i + 10]) == [rim(next).0, -height / 2.0, rim(next).1]
            && Position(v, idx[12 * i + 11]) == [rim(next).0, height / 2.0, rim(next).1]
  {
    SideEntries(segments, i);
    VertexPositions(segments, height, rim, i);
    VertexPositions(segments, height, rim, (i + 1) % segments);
  }
}
