/** The vertex and index buffers filled by generateSphereVertices: a grid of
    (rings + 1) x (segments + 1) vertices of five floats (position and
    texture coordinate), and two triangles per grid cell. The unit direction
    of grid point (i, j), from the sines and cosines of its polar and
    azimuthal angles, is a parameter. */
module Sphere {
  import opened Mesh

  /** The unit direction (cos phi sin theta, cos theta, sin phi sin theta) of
      grid point (ring i, segment j). */
  type DirectionOf = (int, int) -> (real, real, real)

  /** The five floats pushed for grid point (i, j): the direction scaled by
      the radius, then u = 1 - j / segments and v = 1 - i / rings. */
  function GridVertex(segments: int, rings: int, radius: real, dir: DirectionOf, i: int, j: int): seq<real>
    requires segments >= 1 && rings >= 1
  {
    var d := dir(i, j);
    [radius * d.0, radius * d.1, radius * d.2,
     1.0 - j as real / segments as real, 1.0 - i as real / rings as real]
  }

  /** The vertices pushed by the first n passes of the inner loop of ring i. */
  function RowVertices(segments: int, rings: int, radius: real, dir: DirectionOf, i: int, n: nat): (r: seq<real>)
    requires segments >= 1 && rings >= 1
    ensures |r| == 5 * n
  {
    if n == 0 then []
    else RowVertices(segments, rings, radius, dir, i, n - 1) + GridVertex(segments, rings, radius, dir, i, n - 1)
  }

  /** The vertices pushed by the first m passes of the outer loop. */
  function GridVertices(segments: int, rings: int, radius: real, dir: DirectionOf, m: nat): (r: seq<real>)
    requires segments >= 1 && rings >= 1
    ensures |r| == (5 * (segments + 1)) * m
  {
    if m == 0 then []
    else GridVertices(segments, rings, radius, dir, m - 1)
         + RowVertices(segments, rings, radius, dir, m - 1, segments + 1)
  }

  /** The number of grid vertices. */
  function VertexCount(segments: int, rings: int): int {
    (rings + 1) * (segments + 1)
  }

  /** Grid point (i, j) is vertex i * (segments + 1) + j. */
  function Grid(segments: int, i: int, j: int): int {
    i * (segments + 1) + j
  }

  function Vertices(segments: int, rings: int, radius: real, dir: DirectionOf): (v: seq<real>)
    requires segments >= 1 && rings >= 1
    ensures |v| == 5 * VertexCount(segments, rings)
  {
    GridVertices(segments, rings, radius, dir, rings + 1)
  }

  lemma {:induction false} RowVerticesAt(segments: int, rings: int, radius: real, dir: DirectionOf, i: int, n: nat, j: nat)
    requires segments >= 1 && rings >= 1 && j < n
    ensures RowVertices(segments, rings, radius, dir, i, n)[5 * j .. 5 * j + 5]
            == GridVertex(segments, rings, radius, dir, i, j)
  {
    var row := RowVertices(segments, rings, radius, dir, i, n);
    if j < n - 1 {
      RowVerticesAt(segments, rings, radius, dir, i, n - 1, j);
      assert row[5 * j .. 5 * j + 5] == RowVertices(segments, rings, radius, dir, i, n - 1)[5 * j .. 5 * j + 5];
    } else {
      assert row[5 * j ..] == GridVertex(segments, rings, radius, dir, i, j);
    }
  }

  lemma {:induction false} GridVerticesAt(segments: int, rings: int, radius: real, dir: DirectionOf, m: nat, i: nat)
    requires segments >= 1 && rings >= 1 && i < m
    ensures var w := 5 * (segments + 1);
            GridVertices(segments, rings, radius, dir, m)[w * i .. w * i + w]
            == RowVertices(segments, rings, radius, dir, i, segments + 1)
  {
    var w := 5 * (segments + 1);
    var grid := GridVertices(segments, rings, radius, dir, m);
    var prev := GridVertices(segments, rings, radius, dir, m - 1);
    var row := RowVertices(segments, rings, radius, dir, m - 1, segments + 1);
    assert grid == prev + row;
    Distrib(w, i);
    if i < m - 1 {
      GridVerticesAt(segments, rings, radius, dir, m - 1, i);
      MulMono(w, i + 1, m - 1);
      SliceOfPrefix(prev, row, w * i, w * i + w);
    } else {
      Distrib(w, m - 1);
      SliceOfSuffix(prev, row);
    }
  }

  /** Vertex Grid(i, j) of the buffer holds the data pushed for grid point
      (i, j). */
  lemma VertexLayout(segments: int, rings: int, radius: real, dir: DirectionOf, i: int, j: int)
    requires segments >= 1 && rings >= 1
    requires 0 <= i <= rings && 0 <= j <= segments
    ensures var v := Vertices(segments, rings, radius, dir);
            var k := Grid(segments, i, j);
            && 0 <= 5 * k && 5 * k + 5 <= |v|
            && v[5 * k .. 5 * k + 5] == GridVertex(segments, rings, radius, dir, i, j)
  {
    var v := Vertices(segments, rings, radius, dir);
    var w := 5 * (segments + 1);
    GridVerticesAt(segments, rings, radius, dir, rings + 1, i);
    RowVerticesAt(segments, rings, radius, dir, i, segments + 1, j);
    MulShuffle(5, i, segments + 1);
    Distrib(w, i);
    MulMono(w, i + 1, rings + 1);
    SliceOfSlice(v, w * i, w * i + w, 5 * j, 5 * j + 5);
  }

  /** The texture coordinates run from 1 down to 0: u = 1 at the first
      segment and 0 at the last, v = 1 at the first ring and 0 at the last,
      and both stay within [0, 1]. */
  lemma TextureCoordinates(segments: int, rings: int, radius: real, dir: DirectionOf, i: int, j: int)
    requires segments >= 1 && rings >= 1
    requires 0 <= i <= rings && 0 <= j <= segments
    ensures var g := GridVertex(segments, rings, radius, dir, i, j);
            && 0.0 <= g[3] <= 1.0 && 0.0 <= g[4] <= 1.0
            && (j == 0 ==> g[3] == 1.0) && (j == segments ==> g[3] == 0.0)
            && (i == 0 ==> g[4] == 1.0) && (i == rings ==> g[4] == 0.0)
  {
    FractionInUnit(j, segments);
    FractionInUnit(i, rings);
  }

  lemma FractionInUnit(a: int, b: int)
    requires b >= 1 && 0 <= a <= b
    ensures 0.0 <= a as real / b as real <= 1.0
    ensures a == b ==> a as real / b as real == 1.0
  {
    assert a as real <= b as real;
  }

  /** The six indices pushed for the cell at ring i, segment j: the
      triangles (first, second, first + 1) and (second, second + 1,
      first + 1), where second is the point below first on the next ring. */
  function QuadIndices(segments: int, i: int, j: int): seq<int> {
    var first := i * (segments + 1) + j;
    var second := first + segments + 1;
    [first, second, first + 1, second, second + 1, first + 1]
  }

  /** The indices pushed by the first n passes of the inner loop of ring i. */
  function RowIndices(segments: int, i: int, n: nat): (r: seq<int>)
    ensures |r| == 6 * n
  {
    if n == 0 then [] else RowIndices(segments, i, n - 1) + QuadIndices(segments, i, n - 1)
  }

  /** The indices pushed by the first m passes of the outer loop. */
  function GridIndices(segments: int, m: nat): (r: seq<int>)
    ensures |r| == (6 * Passes(segments)) * m
  {
    if m == 0 then []
    else GridIndices(segments, m - 1) + RowIndices(segments, m - 1, Passes(segments))
  }

  /** The whole index buffer; rings * segments * 6 entries. */
  function Indices(segments: int, rings: int): (r: seq<int>)
    ensures |r| == 6 * Passes(rings) * Passes(segments)
    ensures segments >= 0 && rings >= 0 ==> |r| == 6 * rings * segments
  {
    GridIndices(segments, Passes(rings))
  }

  lemma {:induction false} RowIndicesAt(segments: int, i: int, n: nat, j: nat)
    requires j < n
    ensures RowIndices(segments, i, n)[6 * j .. 6 * j + 6] == QuadIndices(segments, i, j)
  {
    var row := RowIndices(segments, i, n);
    if j < n - 1 {
      RowIndicesAt(segments, i, n - 1, j);
      assert row[6 * j .. 6 * j + 6] == RowIndices(segments, i, n - 1)[6 * j .. 6 * j + 6];
    } else {
      assert row[6 * j ..] == QuadIndices(segments, i, j);
    }
  }

  lemma {:induction false} GridIndicesAt(segments: int, m: nat, i: nat)
    requires i < m
    ensures var w := 6 * Passes(segments);
            GridIndices(segments, m)[w * i .. w * i + w] == RowIndices(segments, i, Passes(segments))
  {
    var w := 6 * Passes(segments);
    var grid := GridIndices(segments, m);
    var prev := GridIndices(segments, m - 1);
    var row := RowIndices(segments, m - 1, Passes(segments));
    assert grid == prev + row;
    Distrib(w, i);
    if i < m - 1 {
      GridIndicesAt(segments, m - 1, i);
      MulMono(w, i + 1, m - 1);
      SliceOfPrefix(prev, row, w * i, w * i + w);
    } else {
      Distrib(w, m - 1);
      SliceOfSuffix(prev, row);
    }
  }

  /** The cell at ring i, segment j occupies the six entries from
      6 * (i * segments + j) on. */
  lemma IndicesLayout(segments: int, rings: int, i: int, j: int)
    requires 0 <= i < rings && 0 <= j < segments
    ensures var idx := Indices(segments, rings);
            var k := 6 * (i * segments + j);
            && 0 <= k && k + 6 <= |idx|
            && idx[k .. k + 6] == QuadIndices(segments, i, j)
  {
    var w := 6 * segments;
    RowBlock(segments, rings, i);
    RowIndicesAt(segments, i, segments, j);
    assert 6 * (i * segments + j) == w * i + 6 * j by {
      MulShuffle(6, i, segments);
    }
    CellSlice(Indices(segments, rings), w * i, w, RowIndices(segments, i, segments), 6 * j, 6 * (i * segments + j));
  }

  /** Ring i of the index buffer is the row of cells pushed in pass i. */
  lemma RowBlock(segments: int, rings: int, i: int)
    requires 0 <= i < rings && 0 <= segments
    ensures var idx := Indices(segments, rings);
            var w := 6 * segments;
            && 0 <= w * i && w * i + w <= |idx|
            && idx[w * i .. w * i + w] == RowIndices(segments, i, segments)
  {
    var w := 6 * segments;
    assert Passes(segments) == segments && Passes(rings) == rings;
    assert |Indices(segments, rings)| == w * rings;
    GridIndicesAt(segments, rings, i);
    assert w * i + w <= w * rings by {
      Distrib(w, i);
      MulMono(w, i + 1, rings);
    }
  }

  /** Both triangles of a cell stay inside the grid: every index of a cell
      with i < rings and j < segments lies in [0, VertexCount - 1]. */
  lemma QuadInRange(segments: int, rings: int, i: int, j: int)
    requires 0 <= i < rings && 0 <= j < segments
    ensures forall t :: 0 <= t < 6 ==> 0 <= QuadIndices(segments, i, j)[t] < VertexCount(segments, rings)
  {
    var first := i * (segments + 1) + j;
    assert first + segments + 2 <= (rings + 1) * (segments + 1) - 1 by {
      MulMono(segments + 1, i, rings - 1);
    }
  }

  lemma {:induction false} RowInRange(segments: int, rings: int, i: int, n: nat)
    requires 0 <= i < rings && n <= Passes(segments)
    ensures forall k :: 0 <= k < |RowIndices(segments, i, n)|
              ==> 0 <= RowIndices(segments, i, n)[k] < VertexCount(segments, rings)
  {
    if n > 0 {
      RowInRange(segments, rings, i, n - 1);
      QuadInRange(segments, rings, i, n - 1);
    }
  }

  lemma {:induction false} GridInRange(segments: int, rings: int, m: nat)
    requires m <= Passes(rings)
    ensures forall k :: 0 <= k < |GridIndices(segments, m)|
              ==> 0 <= GridIndices(segments, m)[k] < VertexCount(segments, rings)
  {
    if m > 0 {
      GridInRange(segments, rings, m - 1);
      RowInRange(segments, rings, m - 1, Passes(segments));
    }
  }

  /** Every index names a grid vertex. */
  lemma IndicesInRange(segments: int, rings: int)
    ensures forall k :: 0 <= k < |Indices(segments, rings)|
              ==> 0 <= Indices(segments, rings)[k] < VertexCount(segments, rings)
  {
    GridInRange(segments, rings, Passes(rings));
  }

  /** The last cell reaches the last grid vertex, so the bound above is
      tight. */
  lemma LastVertexUsed(segments: int, rings: int)
    requires segments >= 1 && rings >= 1
    ensures VertexCount(segments, rings) - 1 in Indices(segments, rings)
  {
    var i, j := rings - 1, segments - 1;
    IndicesLayout(segments, rings, i, j);
    var k := 6 * (i * segments + j);
    assert Indices(segments, rings)[k + 4] == QuadIndices(segments, i, j)[4];
    assert QuadIndices(segments, i, j)[4] == (rings + 1) * (segments + 1) - 1;
  }

  /** The shape of a cell: its corners are grid points (i, j), (i + 1, j),
      (i, j + 1) and (i + 1, j + 1), and its two triangles share the
      diagonal from (i + 1, j) to (i, j + 1). */
  lemma QuadShape(segments: int, rings: int, i: int, j: int)
    requires 0 <= i < rings && 0 <= j < segments
    ensures var idx := Indices(segments, rings);
            var k := 6 * (i * segments + j);
            && k + 6 <= |idx|
            && idx[k] == Grid(segments, i, j) && idx[k + 1] == Grid(segments, i + 1, j)
            && idx[k + 2] == Grid(segments, i, j + 1)
            && idx[k + 3] == Grid(segments, i + 1, j) && idx[k + 4] == Grid(segments, i + 1, j + 1)
            && idx[k + 5] == Grid(segments, i, j + 1)
  {
    IndicesLayout(segments, rings, i, j);
  }

  /** Grid point (i, j) is a corner of some cell, so its vertex is used. */
  lemma GridPointUsed(segments: int, rings: int, i: int, j: int)
    requires segments >= 1 && rings >= 1
    requires 0 <= i <= rings && 0 <= j <= segments
    ensures Grid(segments, i, j) in Indices(segments, rings)
  {
    var ci := if i < rings then i else rings - 1;
    var cj := if j < segments then j else segments - 1;
    var t := if i == ci && j == cj then 0 else if i == ci then 2 else if j == cj then 1 else 4;
    CornerUsed(segments, rings, ci, cj, t);
  }

  /** The corner at entry t of the cell at ring i, segment j occurs in the
      index buffer: entry 0 is grid point (i, j), entry 1 is (i + 1, j),
      entry 2 is (i, j + 1) and entry 4 is (i + 1, j + 1). */
  lemma CornerUsed(segments: int, rings: int, i: int, j: int, t: int)
    requires 0 <= i < rings && 0 <= j < segments && t in {0, 1, 2, 4}
    ensures Grid(segments, i + t % 2 + t / 4, j + t / 2 - t / 4) in Indices(segments, rings)
  {
    QuadShape(segments, rings, i, j);
    var k := 6 * (i * segments + j);
    assert Indices(segments, rings)[k + t] == Grid(segments, i + t % 2 + t / 4, j + t / 2 - t / 4);
  }

  /** Every grid vertex occurs in the index buffer: together with
      IndicesInRange, the indices name exactly the vertices. */
  lemma EveryVertexUsed(segments: int, rings: int)
    requires segments >= 1 && rings >= 1
    ensures forall v :: 0 <= v < VertexCount(segments, rings) ==> v in Indices(segments, rings)
  {
    forall v | 0 <= v < VertexCount(segments, rings)
      ensures v in Indices(segments, rings)
    {
      var i, j := v / (segments + 1), v % (segments + 1);
      assert v == Grid(segments, i, j);
      assert i <= rings by {
        if i > rings {
          MulMono(segments + 1, rings + 1, i);
        }
      }
      GridPointUsed(segments, rings, i, j);
    }
  }

  /** The five floats of vertex g of a buffer, or nothing when the buffer
      has no vertex g. */
  function VertexAt(vertices: seq<real>, g: int): seq<real> {
    if 0 <= g && 5 * g + 5 <= |vertices| then vertices[5 * g .. 5 * g + 5] else []
  }

  /** Putting both buffers together: the six indices of the cell at ring i,
      segment j name the vertices holding grid points (i, j), (i + 1, j),
      (i, j + 1) and (i + 1, j), (i + 1, j + 1), (i, j + 1). */
  lemma QuadGeometry(segments: int, rings: int, radius: real, dir: DirectionOf, i: int, j: int)
    requires 0 <= i < rings && 0 <= j < segments
    ensures var v := Vertices(segments, rings, radius, dir);
            var idx := Indices(segments, rings);
            var k := 6 * (i * segments + j);
            && k + 6 <= |idx|
            && VertexAt(v, idx[k]) == GridVertex(segments, rings, radius, dir, i, j)
            && VertexAt(v, idx[k + 1]) == GridVertex(segments, rings, radius, dir, i + 1, j)
            && VertexAt(v, idx[k + 2]) == GridVertex(segments, rings, radius, dir, i, j + 1)
            && VertexAt(v, idx[k + 3]) == GridVertex(segments, rings, radius, dir, i + 1, j)
            && VertexAt(v, idx[k + 4]) == GridVertex(segments, rings, radius, dir, i + 1, j + 1)
            && VertexAt(v, idx[k + 5]) == GridVertex(segments, rings, radius, dir, i, j + 1)
  {
    QuadShape(segments, rings, i, j);
    var k := 6 * (i * segments + j);
    IndexedVertex(segments, rings, radius, dir, k, i, j);
    IndexedVertex(segments, rings, radius, dir, k + 1, i + 1, j);
    IndexedVertex(segments, rings, radius, dir, k + 2, i, j + 1);
    IndexedVertex(segments, rings, radius, dir, k + 3, i + 1, j);
    IndexedVertex(segments, rings, radius, dir, k + 4, i + 1, j + 1);
    IndexedVertex(segments, rings, radius, dir, k + 5, i, j + 1);
  }

  /** An entry of the index buffer that names grid point (i, j) picks out
      that point's five floats. */
  lemma IndexedVertex(segments: int, rings: int, radius: real, dir: DirectionOf, k: int, i: int, j: int)
    requires segments >= 1 && rings >= 1
    requires 0 <= i <= rings && 0 <= j <= segments
    requires 0 <= k < |Indices(segments, rings)| && Indices(segments, rings)[k] == Grid(segments, i, j)
    ensures VertexAt(Vertices(segments, rings, radius, dir), Indices(segments, rings)[k])
            == GridVertex(segments, rings, radius, dir, i, j)
  {
    VertexLayout(segments, rings, radius, dir, i, j);
  }
}
