/**
  The unit sphere of src/Main.cpp (CreateSphere): lats + 1 latitude bands, each
  a triangle strip of 2 (longs + 1) vertices that alternate between the band's
  lower and upper latitude, each with its own running index, and the restart
  sentinel after every band.
 */
module Sphere {
  import opened Geometry

  /** The parameters the loop evaluates sin and cos at for one vertex: latitude
      step `lat` (from -1 to lats) and longitude step `lng` (from -1 to longs - 1). */
  datatype Sample = Sample(lat: int, lng: int)

  /** Turn j of band i first pushes the vertex at latitude i - 1 ... */
  function LowerVertex(i: nat, j: nat): Sample {
    Sample(i - 1, j - 1)
  }

  /** ... then the vertex at latitude i, both at longitude j - 1. */
  function UpperVertex(i: nat, j: nat): Sample {
    Sample(i, j - 1)
  }

  /** The vertices of band i after j turns of the inner loop. */
  function BandVertices(i: nat, j: nat): (r: seq<Sample>)
    ensures |r| == 2 * j
  {
    if j == 0 then [] else BandVertices(i, j - 1) + [LowerVertex(i, j - 1), UpperVertex(i, j - 1)]
  }

  /** The builder after the first i bands of the outer loop (each closed by a sentinel). */
  function SphereBands(longs: nat, i: nat): (b: Builder<Sample>)
    ensures b.indicator == |b.vertices|
  {
    if i == 0 then EmptyBuilder()
    else PushRestart(EmitAll(SphereBands(longs, i - 1), BandVertices(i - 1, longs + 1)))
  }

  /** The mesh CreateSphere uploads, for `lats` and `longs` steps. */
  function SphereMesh(lats: nat, longs: nat): Mesh<Sample> {
    ToMesh(SphereBands(longs, lats + 1))
  }

  /** Reference layout of the vertex list: band after band, each the lower and upper
      sample of every longitude step in turn. */
  function SphereVertices(longs: nat, i: nat): (r: seq<Sample>)
    ensures |r| == 2 * Mul(i, longs + 1)
  {
    if i == 0 then [] else SphereVertices(longs, i - 1) + BandVertices(i - 1, longs + 1)
  }

  /** Reference layout of the index list: band b is the run of the 2 (longs + 1)
      numbers from 2 b (longs + 1) on, closed by the sentinel. */
  function SphereIndices(longs: nat, i: nat): (r: seq<nat>)
    ensures |r| == Mul(i, 2 * (longs + 1) + 1)
  {
    if i == 0 then []
    else SphereIndices(longs, i - 1) + Range(2 * Mul(i - 1, longs + 1), 2 * Mul(i, longs + 1)) + [RestartIndex]
  }

  /** The running-index builder produces exactly the reference layout. */
  lemma {:induction false} SphereBandsLayout(longs: nat, i: nat)
    ensures SphereBands(longs, i).vertices == SphereVertices(longs, i)
    ensures SphereBands(longs, i).indices == SphereIndices(longs, i)
  {
    if i > 0 {
      SphereBandsLayout(longs, i - 1);
    }
  }

  /** Position in the index list of entry q of band b: each band takes 2 (longs + 1) + 1 slots. */
  function BandSlot(longs: nat, b: nat, q: nat): nat {
    Mul(b, 2 * (longs + 1) + 1) + q
  }

  /** The index list is band after band: entry q < 2 (longs + 1) of band b is the
      running index 2 b (longs + 1) + q, and the band's last entry is the sentinel. */
  lemma {:induction false} SphereIndexAt(longs: nat, i: nat, b: nat, q: nat)
    requires b < i && q <= 2 * (longs + 1)
    ensures BandSlot(longs, b, q) < |SphereIndices(longs, i)|
    ensures SphereIndices(longs, i)[BandSlot(longs, b, q)] ==
      if q == 2 * (longs + 1) then RestartIndex else 2 * Mul(b, longs + 1) + q
  {
    var prev := SphereIndices(longs, i - 1);
    var band := Range(2 * Mul(i - 1, longs + 1), 2 * Mul(i, longs + 1)) + [RestartIndex];
    assert SphereIndices(longs, i) == prev + band;
    if b < i - 1 {
      SphereIndexAt(longs, i - 1, b, q);
      MulMono(b + 1, i - 1, 2 * (longs + 1) + 1);
    } else {
      assert BandSlot(longs, b, q) == |prev| + q;
    }
  }

  /** Vertex 2 j of band b is the lower sample of turn j and vertex 2 j + 1 the upper one. */
  lemma {:induction false} BandVertexAt(i: nat, j: nat, c: nat)
    requires c < j
    ensures BandVertices(i, j)[2 * c] == LowerVertex(i, c)
    ensures BandVertices(i, j)[2 * c + 1] == UpperVertex(i, c)
  {
    if c < j - 1 {
      BandVertexAt(i, j - 1, c);
    }
  }

  /** The vertex named by running index 2 b (longs + 1) + 2 c is the lower sample of
      turn c of band b, and the next one is the upper sample. */
  lemma {:induction false} SphereVertexAt(longs: nat, i: nat, b: nat, c: nat)
    requires b < i && c <= longs
    ensures 2 * Mul(b, longs + 1) + 2 * c + 1 < |SphereVertices(longs, i)|
    ensures SphereVertices(longs, i)[2 * Mul(b, longs + 1) + 2 * c] == Sample(b - 1, c - 1)
    ensures SphereVertices(longs, i)[2 * Mul(b, longs + 1) + 2 * c + 1] == Sample(b, c - 1)
  {
    var prev := SphereVertices(longs, i - 1);
    var band := BandVertices(i - 1, longs + 1);
    var p := 2 * Mul(b, longs + 1) + 2 * c;
    assert SphereVertices(longs, i) == prev + band;
    if b < i - 1 {
      SphereVertexAt(longs, i - 1, b, c);
      MulMono(b + 1, i - 1, longs + 1);
      assert p + 1 < |prev|;
    } else {
      BandVertexAt(b, longs + 1, c);
      assert p == |prev| + 2 * c;
    }
  }

  /** Appending a run that continues the real indices, then a sentinel, continues them. */
  lemma RealIndicesOfBand(pre: seq<nat>, lo: nat, hi: nat)
    requires lo <= hi <= RestartIndex
    requires RealIndices(pre) == Range(0, lo)
    ensures RealIndices(pre + Range(lo, hi) + [RestartIndex]) == Range(0, hi)
  {
    RealIndicesAppend(pre + Range(lo, hi), [RestartIndex]);
    RealIndicesAppend(pre, Range(lo, hi));
    RealIndicesOfRange(lo, hi);
    assert RealIndices([RestartIndex]) == [];
    RangeSplit(0, lo, hi);
  }

  /** With the sentinel taken out, the index list is 0, 1, 2, ... up to the last
      vertex, as long as no running index reaches the sentinel's value. */
  lemma {:induction false} SphereRealIndices(longs: nat, i: nat)
    requires 2 * Mul(i, longs + 1) <= RestartIndex
    ensures RealIndices(SphereIndices(longs, i)) == Range(0, 2 * Mul(i, longs + 1))
  {
    if i > 0 {
      SphereRealIndices(longs, i - 1);
      RealIndicesOfBand(SphereIndices(longs, i - 1), 2 * Mul(i - 1, longs + 1), 2 * Mul(i, longs + 1));
    }
  }

  /** A band takes its 2 (longs + 1) running indices and one sentinel slot. */
  lemma {:induction false} BandSlots(i: nat, longs: nat)
    ensures Mul(i, 2 * (longs + 1) + 1) == 2 * Mul(i, longs + 1) + i
  {
    if i > 0 {
      BandSlots(i - 1, longs);
    }
  }

  /** While no running index reaches the sentinel's value, the sentinel occurs
      exactly once per band. */
  lemma SphereSentinelCount(longs: nat, i: nat)
    requires 2 * Mul(i, longs + 1) <= RestartIndex
    ensures Occurrences(SphereIndices(longs, i), RestartIndex) == i
  {
    SphereRealIndices(longs, i);
    RealIndicesSpec(SphereIndices(longs, i));
    BandSlots(i, longs);
  }

  /** Running index x sits in band b at entry q, with x = 2 b (longs + 1) + q. */
  lemma {:induction false} RunningIndexSlot(longs: nat, x: nat) returns (b: nat, q: nat)
    ensures q < 2 * (longs + 1) && 2 * Mul(b, longs + 1) + q == x
    decreases x
  {
    if x < 2 * (longs + 1) {
      b, q := 0, x;
    } else {
      var b', q' := RunningIndexSlot(longs, x - 2 * (longs + 1));
      b, q := b' + 1, q';
    }
  }

  /** Some band entry other than a band end carries the sentinel's value if and
      only if the running index gets past it, that is, iff there are more than
      0x8D69 vertices. */
  lemma SentinelCollision(lats: nat, longs: nat)
    ensures (exists b: nat, q: nat :: b <= lats && q < 2 * (longs + 1) &&
               BandSlot(longs, b, q) < |SphereIndices(longs, lats + 1)| &&
               SphereIndices(longs, lats + 1)[BandSlot(longs, b, q)] == RestartIndex)
      <==> RestartIndex < 2 * Mul(lats + 1, longs + 1)
  {
    var s := SphereIndices(longs, lats + 1);
    var v := 2 * Mul(lats + 1, longs + 1);
    if RestartIndex < v {
      var b, q := RunningIndexSlot(longs, RestartIndex);
      if lats < b {
        MulMono(lats + 1, b, longs + 1);
        assert false;
      }
      SphereIndexAt(longs, lats + 1, b, q);
      assert BandSlot(longs, b, q) < |s| && s[BandSlot(longs, b, q)] == RestartIndex;
    } else {
      forall b: nat, q: nat | b <= lats && q < 2 * (longs + 1)
        ensures BandSlot(longs, b, q) < |s| && s[BandSlot(longs, b, q)] != RestartIndex
      {
        SphereIndexAt(longs, lats + 1, b, q);
        MulMono(b + 1, lats + 1, longs + 1);
      }
    }
  }

  /** Appending a run below `hi` and a sentinel keeps every entry below `hi` or the sentinel. */
  lemma BandBelow(pre: seq<nat>, lo: nat, hi: nat)
    requires lo <= hi
    requires forall k :: 0 <= k < |pre| ==> pre[k] < lo || pre[k] == RestartIndex
    ensures forall k :: 0 <= k < |pre + Range(lo, hi) + [RestartIndex]| ==>
      (pre + Range(lo, hi) + [RestartIndex])[k] < hi || (pre + Range(lo, hi) + [RestartIndex])[k] == RestartIndex
  {
  }

  /** Every entry of the first i bands is a running index already handed out, or the sentinel. */
  lemma {:induction false} SphereIndicesBelow(longs: nat, i: nat)
    ensures forall k :: 0 <= k < |SphereIndices(longs, i)| ==>
      SphereIndices(longs, i)[k] < 2 * Mul(i, longs + 1) || SphereIndices(longs, i)[k] == RestartIndex
  {
    if i > 0 {
      SphereIndicesBelow(longs, i - 1);
      BandBelow(SphereIndices(longs, i - 1), 2 * Mul(i - 1, longs + 1), 2 * Mul(i, longs + 1));
    }
  }

  /** Every entry names a vertex or is the sentinel. */
  lemma SphereIndicesInRange(lats: nat, longs: nat)
    ensures IndicesInRange(SphereMesh(lats, longs))
  {
    SphereBandsLayout(longs, lats + 1);
    SphereIndicesBelow(longs, lats + 1);
  }

  /** One turn of the inner loop emits the lower and then the upper sample. */
  lemma BandStep(b: Builder<Sample>, i: nat, j: nat)
    ensures EmitAll(b, BandVertices(i, j + 1)) ==
      Emit(Emit(EmitAll(b, BandVertices(i, j)), LowerVertex(i, j)), UpperVertex(i, j))
  {
    EmitAllOneByOne(b, BandVertices(i, j), LowerVertex(i, j));
    EmitAllOneByOne(b, BandVertices(i, j) + [LowerVertex(i, j)], UpperVertex(i, j));
    assert BandVertices(i, j + 1) == BandVertices(i, j) + [LowerVertex(i, j)] + [UpperVertex(i, j)];
  }

  /** Where the running index of the lower sample of turn c of band b lands in
      the vertex list; the upper sample follows it. */
  function SampleSlot(longs: nat, b: nat, c: nat): nat {
    2 * Mul(b, longs + 1) + 2 * c
  }

  /** The two loops of CreateSphere, for `lats` and `longs` steps. Band b takes
      the index slots from BandSlot(longs, b, 0): first the running indices
      2 b (longs + 1), 2 b (longs + 1) + 1, ..., then the sentinel. The vertex
      at running index 2 b (longs + 1) + 2 c is the sample at latitude b - 1,
      longitude c - 1, and the next one the sample at latitude b. */
  method BuildSphere(lats: nat, longs: nat) returns (b: Builder<Sample>)
    ensures |b.vertices| == 2 * Mul(lats + 1, longs + 1) && b.indicator == |b.vertices|
    ensures |b.indices| == Mul(lats + 1, 2 * (longs + 1) + 1)
    ensures forall band, q :: 0 <= band <= lats && 0 <= q <= 2 * (longs + 1) ==>
      BandSlot(longs, band, q) < |b.indices| &&
      b.indices[BandSlot(longs, band, q)] == if q == 2 * (longs + 1) then RestartIndex else 2 * Mul(band, longs + 1) + q
    ensures forall band, c :: 0 <= band <= lats && 0 <= c <= longs ==>
      SampleSlot(longs, band, c) + 1 < |b.vertices| &&
      b.vertices[SampleSlot(longs, band, c)] == Sample(band - 1, c - 1) &&
      b.vertices[SampleSlot(longs, band, c) + 1] == Sample(band, c - 1)
    ensures b == SphereBands(longs, lats + 1)
  {
    b := EmptyBuilder();
    var i := 0;
    while i <= lats
      invariant i <= lats + 1
      invariant b == SphereBands(longs, i)
    {
      var start := b;
      var j := 0;
      while j <= longs
        invariant j <= longs + 1
        invariant b == EmitAll(start, BandVertices(i, j))
      {
        BandStep(start, i, j);
        b := Emit(b, LowerVertex(i, j));  // lat0 = pi (-1/2 + (i - 1) / lats)
        b := Emit(b, UpperVertex(i, j));  // lat1 = pi (-1/2 + i / lats)
        j := j + 1;
      }
      b := PushRestart(b);
      i := i + 1;
    }
    assert b == SphereBands(longs, lats + 1);
    SphereIndicesAfter(lats, longs);
    SphereVerticesAfter(lats, longs);
  }

  /** The index list after all bands, slot by slot: see BuildSphere. */
  lemma SphereIndicesAfter(lats: nat, longs: nat)
    ensures |SphereBands(longs, lats + 1).indices| == Mul(lats + 1, 2 * (longs + 1) + 1)
    ensures forall band, q :: 0 <= band <= lats && 0 <= q <= 2 * (longs + 1) ==>
      BandSlot(longs, band, q) < |SphereBands(longs, lats + 1).indices| &&
      SphereBands(longs, lats + 1).indices[BandSlot(longs, band, q)] ==
        if q == 2 * (longs + 1) then RestartIndex else 2 * Mul(band, longs + 1) + q
  {
    var s := SphereBands(longs, lats + 1).indices;
    SphereBandsLayout(longs, lats + 1);
    assert s == SphereIndices(longs, lats + 1);
    forall band, q | 0 <= band <= lats && 0 <= q <= 2 * (longs + 1)
      ensures BandSlot(longs, band, q) < |s|
      ensures s[BandSlot(longs, band, q)] == if q == 2 * (longs + 1) then RestartIndex else 2 * Mul(band, longs + 1) + q
    {
      SphereIndexAt(longs, lats + 1, band, q);
    }
  }

  /** The vertex list after all bands, sample by sample: see BuildSphere. */
  lemma SphereVerticesAfter(lats: nat, longs: nat)
    ensures |SphereBands(longs, lats + 1).vertices| == 2 * Mul(lats + 1, longs + 1)
    ensures forall band, c :: 0 <= band <= lats && 0 <= c <= longs ==>
      SampleSlot(longs, band, c) + 1 < |SphereBands(longs, lats + 1).vertices| &&
      SphereBands(longs, lats + 1).vertices[SampleSlot(longs, band, c)] == Sample(band - 1, c - 1) &&
      SphereBands(longs, lats + 1).vertices[SampleSlot(longs, band, c) + 1] == Sample(band, c - 1)
  {
    var vs := SphereBands(longs, lats + 1).vertices;
    SphereBandsLayout(longs, lats + 1);
    assert vs == SphereVertices(longs, lats + 1);
    forall band, c | 0 <= band <= lats && 0 <= c <= longs
      ensures SampleSlot(longs, band, c) + 1 < |vs|
      ensures vs[SampleSlot(longs, band, c)] == Sample(band - 1, c - 1)
      ensures vs[SampleSlot(longs, band, c) + 1] == Sample(band, c - 1)
    {
      SphereVertexAt(longs, lats + 1, band, c);
    }
  }

  /** The whole sphere has 2 (lats + 1)(longs + 1) vertices and (lats + 1) bands of
      2 (longs + 1) + 1 index entries. */
  lemma SphereCounts(lats: nat, longs: nat)
    ensures |SphereMesh(lats, longs).vertices| == 2 * Mul(lats + 1, longs + 1)
    ensures |SphereMesh(lats, longs).indices| == Mul(lats + 1, 2 * (longs + 1) + 1)
  {
    SphereBandsLayout(longs, lats + 1);
  }

  /** The index structure of the whole sphere: when no running index reaches the
      sentinel's value, the real entries are 0, 1, 2, ... in order, the sentinel
      occurs once per band and ends the list, and every entry names a vertex or is
      the sentinel. */
  lemma SphereStructure(lats: nat, longs: nat)
    requires |SphereMesh(lats, longs).vertices| <= RestartIndex
    ensures RealIndices(SphereMesh(lats, longs).indices) == Range(0, |SphereMesh(lats, longs).vertices|)
    ensures Occurrences(SphereMesh(lats, longs).indices, RestartIndex) == lats + 1
    ensures |SphereMesh(lats, longs).indices| > 0
    ensures SphereMesh(lats, longs).indices[|SphereMesh(lats, longs).indices| - 1] == RestartIndex
    ensures IndicesInRange(SphereMesh(lats, longs))
  {
    SphereBandsLayout(longs, lats + 1);
    SphereRealIndices(longs, lats + 1);
    SphereSentinelCount(longs, lats + 1);
    SphereIndexAt(longs, lats + 1, lats, 2 * (longs + 1));
    SphereIndicesInRange(lats, longs);
  }

  /** CreateSphere, for `lats` latitude and `longs` longitude steps. */
  method CreateSphere(lats: nat, longs: nat) returns (m: Mesh<Sample>)
    ensures m == SphereMesh(lats, longs)
    ensures |m.vertices| == 2 * Mul(lats + 1, longs + 1)
    ensures |m.indices| == Mul(lats + 1, 2 * (longs + 1) + 1)
    ensures |m.vertices| <= RestartIndex ==>
      RealIndices(m.indices) == Range(0, |m.vertices|) &&
      Occurrences(m.indices, RestartIndex) == lats + 1 &&
      0 < |m.indices| && m.indices[|m.indices| - 1] == RestartIndex &&
      IndicesInRange(m)
  {
    var b := BuildSphere(lats, longs);
    m := ToMesh(b);
    SphereCounts(lats, longs);
    if |m.vertices| <= RestartIndex {
      SphereStructure(lats, longs);
    }
  }

  /** The program's sphere has 40 latitude and 40 longitude steps: 3362 vertices,
      41 bands of 83 entries, and its largest running index, 3361, is below the sentinel. */
  lemma ProgramSphere(lats: nat, longs: nat)
    requires lats == 40 && longs == 40
    ensures |SphereMesh(lats, longs).vertices| == 3362
    ensures |SphereMesh(lats, longs).indices| == 41 * 83
    ensures |SphereMesh(lats, longs).vertices| - 1 < RestartIndex
  {
    SphereCounts(lats, longs);
    ProgramSizes(lats, longs);
  }

  lemma ProgramSizes(lats: nat, longs: nat)
    requires lats == 40 && longs == 40
    ensures 2 * Mul(lats + 1, longs + 1) == 3362
    ensures Mul(lats + 1, 2 * (longs + 1) + 1) == 41 * 83
  {
    MulIsProduct(41, 41);
    MulIsProduct(41, 83);
  }

  /** The point the loop computes for a sample: latitude pi (-1/2 + lat / lats),
      longitude 2 pi lng / longs. */
  function SpherePoint(t: Trig, lats: nat, longs: nat, s: Sample): Vec3
    requires lats >= 1 && longs >= 1
  {
    var latAngle := t.pi * (-0.5 + s.lat as real / lats as real);
    var lngAngle := 2.0 * t.pi * (s.lng as real / longs as real);
    var zr := t.cos(latAngle);
    Vec3(t.cos(lngAngle) * zr, t.sin(lngAngle) * zr, t.sin(latAngle))
  }

  lemma UnitFromParts(cx: real, sx: real, c: real, s: real)
    requires cx * cx + sx * sx == 1.0 && c * c + s * s == 1.0
    ensures (cx * c) * (cx * c) + (sx * c) * (sx * c) + s * s == 1.0
  {
    assert (cx * c) * (cx * c) + (sx * c) * (sx * c) == (cx * cx + sx * sx) * (c * c);
  }

  /** With sin^2 + cos^2 = 1, every vertex lies on the unit sphere. */
  lemma SpherePointOnUnitSphere(t: Trig, lats: nat, longs: nat, s: Sample)
    requires lats >= 1 && longs >= 1 && OnUnitCircle(t)
    ensures var p := SpherePoint(t, lats, longs, s); p.x * p.x + p.y * p.y + p.z * p.z == 1.0
  {
    var latAngle := t.pi * (-0.5 + s.lat as real / lats as real);
    var lngAngle := 2.0 * t.pi * (s.lng as real / longs as real);
    UnitFromParts(t.cos(lngAngle), t.sin(lngAngle), t.cos(latAngle), t.sin(latAngle));
  }
}
