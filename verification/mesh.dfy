/** What the three mesh generators share: the rim points of a circle, the
    number of passes of their loops, and facts about offsets into the flat
    buffers they fill. */
module Mesh {

  /** The x and z coordinates of the i-th rim point (radius times the cosine
      and sine of the i-th angle). */
  type RimOf = int -> (real, real)

  /** A loop `for (k = 0; k < n; ++k)` makes n passes, or none. */
  function Passes(n: int): nat {
    if n >= 0 then n else 0
  }

  /** The loop `for (i = 0; i <= segments; ++i)` makes segments + 1 passes,
      or none when segments is negative. */
  function RingCount(segments: int): nat {
    Passes(segments + 1)
  }

  // Offsets into flat buffers, kept linear for the solver.

  lemma Distrib(w: int, i: int)
    ensures w * (i + 1) == w * i + w
  {
  }

  lemma SliceOfPrefix<T>(a: seq<T>, b: seq<T>, lo: int, hi: int)
    requires 0 <= lo <= hi <= |a|
    ensures (a + b)[lo .. hi] == a[lo .. hi]
  {
  }

  lemma SliceOfSuffix<T>(a: seq<T>, b: seq<T>)
    ensures (a + b)[|a| .. |a| + |b|] == b
  {
  }

  lemma MulMono(w: nat, a: int, b: int)
    requires a <= b
    ensures w * a <= w * b
  {
  }

  lemma MulShuffle(c: int, i: int, s: int)
    ensures c * (i * s) == (c * s) * i
  {
  }

  lemma SliceOfSlice<T>(a: seq<T>, lo: int, hi: int, lo2: int, hi2: int)
    requires 0 <= lo <= hi <= |a| && 0 <= lo2 <= hi2 <= hi - lo
    ensures a[lo .. hi][lo2 .. hi2] == a[lo + lo2 .. lo + hi2]
  {
    var inner, direct := a[lo .. hi][lo2 .. hi2], a[lo + lo2 .. lo + hi2];
    assert |inner| == |direct|;
    forall t | 0 <= t < |inner|
      ensures inner[t] == direct[t]
    {
      assert inner[t] == a[lo .. hi][lo2 + t] == a[lo + lo2 + t];
    }
  }

  /** A six-entry cell inside a row inside a buffer, with all offsets
      given as plain numbers. */
  lemma CellSlice<T>(a: seq<T>, rowStart: int, rowLen: int, row: seq<T>, cellStart: int, k: int)
    requires 0 <= rowStart && 0 <= rowLen && rowStart + rowLen <= |a| && a[rowStart .. rowStart + rowLen] == row
    requires 0 <= cellStart && cellStart + 6 <= rowLen && k == rowStart + cellStart
    ensures 0 <= k && k + 6 <= |a| && a[k .. k + 6] == row[cellStart .. cellStart + 6]
  {
    SliceOfSlice(a, rowStart, rowStart + rowLen, cellStart, cellStart + 6);
  }
}
