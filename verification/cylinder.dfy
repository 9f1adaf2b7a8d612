/**
  The cylinder of src/Main.cpp (CreateCylinder): lats + 1 steps around the axis,
  each pushing ten vertices with their own running indices (two bottom side
  vertices, two top side vertices, a top-cap triangle and a bottom-cap triangle),
  with no restart sentinel anywhere.
 */
module Cylinder {
  import opened Geometry

  /** The height of the top cap; the bottom cap is at 0. */
  const Height: real := 2.5

  /** A vertex as the loop computes it: a rim point at angle step `step` (the
      point radius (cos a, sin a) with a = 2 pi step / lats) at height `height`,
      or a cap centre on the axis. */
  datatype CylinderVertex = Rim(step: int, height: real) | Centre(height: real)

  /** The ten vertices pushed by turn i of the loop, in push order. */
  function StepVertices(i: nat): seq<CylinderVertex> {
    [Rim(i - 1, 0.0), Rim(i, 0.0),                        // side, bottom
     Rim(i - 1, Height), Rim(i, Height),                  // side, top
     Rim(i - 1, Height), Rim(i, Height), Centre(Height),  // top cap
     Rim(i - 1, 0.0), Rim(i, 0.0), Centre(0.0)]           // bottom cap
  }

  /** The builder after the first i turns of the loop. */
  function CylinderSteps(i: nat): Builder<CylinderVertex> {
    if i == 0 then EmptyBuilder() else EmitAll(CylinderSteps(i - 1), StepVertices(i - 1))
  }

  /** The mesh CreateCylinder uploads, for `lats` angle steps. */
  function CylinderMesh(lats: nat): Mesh<CylinderVertex> {
    ToMesh(CylinderSteps(lats + 1))
  }

  /** Reference layout of the vertex list: the ten vertices of every turn, turn after turn. */
  function CylinderVertices(i: nat): (r: seq<CylinderVertex>)
    ensures |r| == 10 * i
  {
    if i == 0 then [] else CylinderVertices(i - 1) + StepVertices(i - 1)
  }

  /** Position of entry k of turn s in the vertex and index lists. */
  function StepSlot(s: nat, k: nat): nat {
    10 * s + k
  }

  /** After i turns the builder holds the reference vertex list, has handed out
      10 i running indices, and its index list is exactly 0, 1, ..., 10 i - 1:
      every vertex is named once, in push order. */
  lemma {:induction false} CylinderLayout(i: nat)
    ensures CylinderSteps(i).vertices == CylinderVertices(i)
    ensures CylinderSteps(i).indicator == 10 * i
    ensures CylinderSteps(i).indices == Range(0, 10 * i)
  {
    if i > 0 {
      CylinderLayout(i - 1);
      RangeSplit(0, 10 * (i - 1), 10 * i);
    }
  }

  /** Entry k of turn s of the vertex list is the k-th vertex that turn pushes. */
  lemma {:induction false} CylinderVertexAt(i: nat, s: nat, k: nat)
    requires s < i && k < 10
    ensures StepSlot(s, k) < |CylinderVertices(i)|
    ensures CylinderVertices(i)[StepSlot(s, k)] == StepVertices(s)[k]
  {
    var prev := CylinderVertices(i - 1);
    if s < i - 1 {
      CylinderVertexAt(i - 1, s, k);
    } else {
      assert StepSlot(s, k) == |prev| + k;
    }
  }

  /** Every vertex of the cylinder is at height 0 or 2.5; in every block of ten,
      entries 6 and 9 are the top and bottom cap centres, entries 4 and 5 repeat
      the top side pair 2 and 3, and entries 7 and 8 repeat the bottom side pair 0 and 1. */
  lemma CylinderBlocks(i: nat)
    ensures forall p :: 0 <= p < |CylinderVertices(i)| ==>
      CylinderVertices(i)[p].height == 0.0 || CylinderVertices(i)[p].height == Height
    ensures forall s :: 0 <= s < i ==>
      StepSlot(s, 9) < |CylinderVertices(i)| &&
      CylinderVertices(i)[StepSlot(s, 6)] == Centre(Height) &&
      CylinderVertices(i)[StepSlot(s, 9)] == Centre(0.0) &&
      CylinderVertices(i)[StepSlot(s, 4)] == CylinderVertices(i)[StepSlot(s, 2)] &&
      CylinderVertices(i)[StepSlot(s, 5)] == CylinderVertices(i)[StepSlot(s, 3)] &&
      CylinderVertices(i)[StepSlot(s, 7)] == CylinderVertices(i)[StepSlot(s, 0)] &&
      CylinderVertices(i)[StepSlot(s, 8)] == CylinderVertices(i)[StepSlot(s, 1)]
  {
    var vs := CylinderVertices(i);
    forall p | 0 <= p < |vs|
      ensures vs[p].height == 0.0 || vs[p].height == Height
    {
      CylinderVertexAt(i, p / 10, p % 10);
    }
    forall s | 0 <= s < i
      ensures StepSlot(s, 9) < |vs|
      ensures vs[StepSlot(s, 6)] == Centre(Height) && vs[StepSlot(s, 9)] == Centre(0.0)
      ensures vs[StepSlot(s, 4)] == vs[StepSlot(s, 2)] && vs[StepSlot(s, 5)] == vs[StepSlot(s, 3)]
      ensures vs[StepSlot(s, 7)] == vs[StepSlot(s, 0)] && vs[StepSlot(s, 8)] == vs[StepSlot(s, 1)]
    {
      CylinderVertexAt(i, s, 0);
      CylinderVertexAt(i, s, 1);
      CylinderVertexAt(i, s, 2);
      CylinderVertexAt(i, s, 3);
      CylinderVertexAt(i, s, 4);
      CylinderVertexAt(i, s, 5);
      CylinderVertexAt(i, s, 6);
      CylinderVertexAt(i, s, 7);
      CylinderVertexAt(i, s, 8);
      CylinderVertexAt(i, s, 9);
    }
  }

  /** The loop of CreateCylinder for `lats` angle steps. Every turn s pushes
      its ten vertices at slots 10 s .. 10 s + 9, each with its own running
      index, so the index list is 0, 1, ..., 10 (lats + 1) - 1 and the counter
      ends at the vertex count. */
  method BuildCylinder(lats: nat) returns (b: Builder<CylinderVertex>)
    ensures |b.vertices| == 10 * (lats + 1) && b.indicator == |b.vertices|
    ensures b.indices == Range(0, 10 * (lats + 1))
    ensures forall s, k :: 0 <= s <= lats && 0 <= k < 10 ==>
      StepSlot(s, k) < |b.vertices| && b.vertices[StepSlot(s, k)] == StepVertices(s)[k]
    ensures b == CylinderSteps(lats + 1)
  {
    b := EmptyBuilder();
    var i := 0;
    while i <= lats
      invariant i <= lats + 1
      invariant b == CylinderSteps(i)
    {
      // side bottom, side top, top cap, bottom cap: each vertex is pushed with
      // the running index, which then advances
      b := EmitAll(b, StepVertices(i));
      i := i + 1;
    }
    CylinderBuilderAt(lats);
  }

  /** The builder state after all turns, slot by slot: see BuildCylinder. */
  lemma CylinderBuilderAt(lats: nat)
    ensures var b := CylinderSteps(lats + 1);
      |b.vertices| == 10 * (lats + 1) && b.indicator == |b.vertices| &&
      b.indices == Range(0, 10 * (lats + 1)) &&
      forall s, k :: 0 <= s <= lats && 0 <= k < 10 ==>
        StepSlot(s, k) < |b.vertices| && b.vertices[StepSlot(s, k)] == StepVertices(s)[k]
  {
    var b := CylinderSteps(lats + 1);
    CylinderLayout(lats + 1);
    forall s, k | 0 <= s <= lats && 0 <= k < 10
      ensures StepSlot(s, k) < |b.vertices| && b.vertices[StepSlot(s, k)] == StepVertices(s)[k]
    {
      CylinderVertexAt(lats + 1, s, k);
    }
  }

  /** CreateCylinder for `lats` angle steps: 10 (lats + 1) vertices laid out turn
      by turn, and the indices 0 .. 10 (lats + 1) - 1 in order, none of them the
      sentinel while they stay below it. */
  method CreateCylinder(lats: nat) returns (m: Mesh<CylinderVertex>)
    ensures m == CylinderMesh(lats)
    ensures m.vertices == CylinderVertices(lats + 1)
    ensures |m.vertices| == |m.indices| == 10 * (lats + 1)
    ensures m.indices == Range(0, |m.vertices|)
    ensures |m.vertices| <= RestartIndex ==> RestartIndex !in m.indices
    ensures IndicesInRange(m)
  {
    var b := BuildCylinder(lats);
    m := ToMesh(b);
    CylinderLayout(lats + 1);
  }

  /** The point a vertex stands for on a cylinder of the given radius. */
  function CylinderPoint(t: Trig, lats: nat, radius: real, v: CylinderVertex): Vec3
    requires lats >= 1
  {
    match v
    case Rim(s, h) =>
      var a := 2.0 * t.pi * (s as real / lats as real);
      Vec3(radius * t.cos(a), h, radius * t.sin(a))
    case Centre(h) => Vec3(0.0, h, 0.0)
  }

  lemma ScaledCircle(c: real, s: real, r: real)
    requires c * c + s * s == 1.0
    ensures (r * c) * (r * c) + (r * s) * (r * s) == r * r
  {
    assert (r * c) * (r * c) + (r * s) * (r * s) == r * r * (c * c + s * s);
  }

  /** With sin^2 + cos^2 = 1, every rim vertex lies on the circle of the given
      radius around the axis, and the cap centres lie on the axis. */
  lemma CylinderPointOnCircle(t: Trig, lats: nat, radius: real, v: CylinderVertex)
    requires lats >= 1 && OnUnitCircle(t)
    ensures var p := CylinderPoint(t, lats, radius, v);
      p.y == v.height &&
      (v.Rim? ==> p.x * p.x + p.z * p.z == radius * radius) &&
      (v.Centre? ==> p.x == 0.0 && p.z == 0.0)
  {
    if v.Rim? {
      var a := 2.0 * t.pi * (v.step as real / lats as real);
      ScaledCircle(t.cos(a), t.sin(a), radius);
    }
  }
}
