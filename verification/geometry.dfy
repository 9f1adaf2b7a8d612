/**
  Shared vocabulary of the mesh builders in src/Main.cpp: points, meshes, the
  running-index builder that every procedural primitive uses, and the
  primitive-restart sentinel that separates triangle strips in one index buffer.
 */
module Geometry {

  /** The restart sentinel. The program passes the token
      GL_PRIMITIVE_RESTART_FIXED_INDEX (0x8D69 in the OpenGL 4.3 headers) both to
      glPrimitiveRestartIndex and as the value pushed at the end of each sphere
      band, so the sentinel is the number 0x8D69 and not the largest GLuint. */
  const RestartIndex: nat := 0x8D69

  /** A position, as the three floats pushed one after another. */
  datatype Vec3 = Vec3(x: real, y: real, z: real)

  /** An uploaded buffer pair: the vertices and the index list referring to them. */
  datatype Mesh<V> = Mesh(vertices: seq<V>, indices: seq<nat>)

  /** The state of a builder loop: vertices pushed so far, indices pushed so far,
      and the running counter `indicator` handed out as the next index. */
  datatype Builder<V> = Builder(vertices: seq<V>, indices: seq<nat>, indicator: nat)

  function EmptyBuilder<V>(): Builder<V> {
    Builder([], [], 0)
  }

  /** Push a vertex and push the running counter as its index, then advance the counter. */
  function Emit<V>(b: Builder<V>, v: V): Builder<V> {
    Builder(b.vertices + [v], b.indices + [b.indicator], b.indicator + 1)
  }

  /** Push the restart sentinel; the counter and the vertices are untouched. */
  function PushRestart<V>(b: Builder<V>): Builder<V> {
    b.(indices := b.indices + [RestartIndex])
  }

  function ToMesh<V>(b: Builder<V>): Mesh<V> {
    Mesh(b.vertices, b.indices)
  }

  /** Every entry of the index list names an existing vertex or is the sentinel. */
  predicate IndicesInRange<V>(m: Mesh<V>) {
    forall k :: 0 <= k < |m.indices| ==> m.indices[k] < |m.vertices| || m.indices[k] == RestartIndex
  }

  /** The consecutive numbers lo, lo+1, ..., hi-1. */
  function Range(lo: nat, hi: nat): (r: seq<nat>)
    requires lo <= hi
    ensures |r| == hi - lo
    ensures forall k :: 0 <= k < |r| ==> r[k] == lo + k
    decreases hi - lo
  {
    if lo == hi then [] else Range(lo, hi - 1) + [hi - 1]
  }

  lemma RangeSplit(a: nat, b: nat, c: nat)
    requires a <= b <= c
    ensures Range(a, b) + Range(b, c) == Range(a, c)
  {
    assert forall k :: 0 <= k < c - a ==> (Range(a, b) + Range(b, c))[k] == Range(a, c)[k];
  }

  /** Emit the vertices `vs` in order, each with its own running index: the
      vertices are appended and the indices handed out are the next |vs| numbers. */
  function EmitAll<V>(b: Builder<V>, vs: seq<V>): Builder<V> {
    Builder(b.vertices + vs, b.indices + Range(b.indicator, b.indicator + |vs|), b.indicator + |vs|)
  }

  /** Emitting a list is emitting its vertices one at a time. */
  lemma EmitAllOneByOne<V>(b: Builder<V>, vs: seq<V>, v: V)
    ensures EmitAll(b, []) == b
    ensures EmitAll(b, vs + [v]) == Emit(EmitAll(b, vs), v)
  {
    assert b.vertices + [] == b.vertices;
    assert b.indices + Range(b.indicator, b.indicator) == b.indices;
    assert (b.vertices + vs) + [v] == b.vertices + (vs + [v]);
    RangeSplit(b.indicator, b.indicator + |vs|, b.indicator + |vs| + 1);
  }

  /** The flat float buffer: x, y, z of each point in turn. */
  function Flatten(ps: seq<Vec3>): (r: seq<real>)
    ensures |r| == 3 * |ps|
    ensures forall k :: 0 <= k < |ps| ==> r[3 * k] == ps[k].x && r[3 * k + 1] == ps[k].y && r[3 * k + 2] == ps[k].z
  {
    if ps == [] then []
    else
      var last := ps[|ps| - 1];
      Flatten(ps[..|ps| - 1]) + [last.x, last.y, last.z]
  }

  lemma FlattenAppend(ps: seq<Vec3>, v: Vec3)
    ensures Flatten(ps + [v]) == Flatten(ps) + [v.x, v.y, v.z]
  {
    assert (ps + [v])[..|ps|] == ps;
  }

  /** Number of occurrences of `x` in `s`. */
  function Occurrences(s: seq<nat>, x: nat): nat {
    multiset(s)[x]
  }

  lemma OccurrencesAppend(a: seq<nat>, b: seq<nat>, x: nat)
    ensures Occurrences(a + b, x) == Occurrences(a, x) + Occurrences(b, x)
  {
    assert multiset(a + b) == multiset(a) + multiset(b);
  }

  /** The index list with the sentinels taken out: the indices that name vertices. */
  function RealIndices(s: seq<nat>): seq<nat> {
    if s == [] then []
    else
      var last := s[|s| - 1];
      RealIndices(s[..|s| - 1]) + (if last == RestartIndex then [] else [last])
  }

  /** Taking the sentinels out drops exactly the sentinel entries and keeps every other value. */
  lemma {:induction false} RealIndicesSpec(s: seq<nat>)
    ensures |RealIndices(s)| == |s| - Occurrences(s, RestartIndex)
    ensures forall x :: x in RealIndices(s) <==> x in s && x != RestartIndex
  {
    if s != [] {
      var front := s[..|s| - 1];
      var last := s[|s| - 1];
      assert s == front + [last];
      RealIndicesSpec(front);
      OccurrencesAppend(front, [last], RestartIndex);
    }
  }

  lemma {:induction false} RealIndicesAppend(a: seq<nat>, b: seq<nat>)
    ensures RealIndices(a + b) == RealIndices(a) + RealIndices(b)
    decreases |b|
  {
    if b == [] {
      assert a + b == a;
    } else {
      var b' := b[..|b| - 1];
      assert (a + b)[..|a + b| - 1] == a + b';
      RealIndicesAppend(a, b');
    }
  }

  /** Indices below the sentinel are all real. */
  lemma RealIndicesOfRange(lo: nat, hi: nat)
    requires lo <= hi <= RestartIndex
    ensures RealIndices(Range(lo, hi)) == Range(lo, hi)
  {
  }

  /** a * b, written as repeated addition so that the solver sees products
      only through the two facts it needs (unfolding and monotonicity). */
  function Mul(a: nat, b: nat): nat {
    if a == 0 then 0 else Mul(a - 1, b) + b
  }

  lemma {:induction false} MulIsProduct(a: nat, b: nat)
    ensures Mul(a, b) == a * b
  {
    if a > 0 {
      MulIsProduct(a - 1, b);
    }
  }

  lemma {:induction false} MulMono(a: nat, b: nat, n: nat)
    requires a <= b
    ensures Mul(a, n) <= Mul(b, n)
    decreases b - a
  {
    if a < b {
      MulMono(a, b - 1, n);
    }
  }

  /** Stand-ins for the floating-point sin, cos and pi of the C runtime. */
  datatype Trig = Trig(pi: real, sin: real -> real, cos: real -> real)

  /** The one fact about sin and cos the geometry needs. */
  ghost predicate OnUnitCircle(t: Trig) {
    forall a: real :: t.sin(a) * t.sin(a) + t.cos(a) * t.cos(a) == 1.0
  }
}
