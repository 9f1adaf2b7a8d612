/**
  The letters of the name tag in src/Main.cpp. Each letter (CreateLetterT, E,
  L, U, M) is an ordered list of parts, and each part is a vertical stroke
  (CreateVertical: the unit sphere scaled to 0.25 x 1 x 0.25) or half of a
  horizontal bar (CreateHorizontal: the unit cube scaled to 1 x 0.5 x 0.25).
  Each part is then translated by an offset in the x-y plane of the letter.
  CreateLetters stacks the six letters T, E, L, L, U, M by composing one
  translation matrix, starting from the identity.
 */
module Letters {
  import opened Geometry

  datatype PartKind = Vertical | Horizontal

  /** One part of a letter: its kind and the (x, y) offset it is translated by.
      The z component of every part offset is 0. */
  datatype Part = Part(kind: PartKind, dx: real, dy: real)

  datatype Letter = T | E | L | U | M

  /** The parts of each letter, in the order the builders push them. */
  function Parts(l: Letter): seq<Part> {
    match l
    case T =>
      [Part(Vertical, 0.0, 0.0), Part(Vertical, 0.0, 2.0),
       Part(Horizontal, -0.5, 6.0), Part(Horizontal, 0.5, 6.0)]
    case E =>
      [Part(Vertical, 4.0, 0.0), Part(Vertical, 4.0, 2.0),
       Part(Horizontal, -0.5, -2.0), Part(Horizontal, 0.5, -2.0),
       Part(Horizontal, -0.5, 2.0), Part(Horizontal, 0.5, 2.0),
       Part(Horizontal, -0.5, 6.0), Part(Horizontal, 0.5, 6.0)]
    case L =>
      [Part(Vertical, 4.0, 0.0), Part(Vertical, 4.0, 2.0),
       Part(Horizontal, -0.5, -2.0), Part(Horizontal, 0.5, -2.0)]
    case U =>
      [Part(Vertical, -4.0, 0.0), Part(Vertical, -4.0, 2.0),
       Part(Vertical, 4.0, 2.0), Part(Vertical, 4.0, 0.0),
       Part(Horizontal, -0.5, -2.0), Part(Horizontal, 0.5, -2.0)]
    case M =>
      [Part(Vertical, -4.0, 0.0), Part(Vertical, -4.0, 2.0),
       Part(Vertical, 0.0, 2.0), Part(Vertical, 4.0, 0.0),
       Part(Vertical, 4.0, 2.0),
       Part(Horizontal, -0.5, 6.0), Part(Horizontal, 0.5, 6.0)]
  }

  /** How many of the parts from position i on are of the given kind. */
  function CountFrom(ps: seq<Part>, k: PartKind, i: nat): nat
    decreases |ps| - i
  {
    if i >= |ps| then 0
    else (if ps[i].kind == k then 1 else 0) + CountFrom(ps, k, i + 1)
  }

  /** How many parts of a list are of the given kind. */
  function CountKind(ps: seq<Part>, k: PartKind): nat {
    CountFrom(ps, k, 0)
  }

  /** The number of meshes of each letter, split into strokes and bar halves. */
  lemma PartCounts()
    ensures |Parts(T)| == 4 && CountKind(Parts(T), Vertical) == 2 && CountKind(Parts(T), Horizontal) == 2
    ensures |Parts(E)| == 8 && CountKind(Parts(E), Vertical) == 2 && CountKind(Parts(E), Horizontal) == 6
    ensures |Parts(L)| == 4 && CountKind(Parts(L), Vertical) == 2 && CountKind(Parts(L), Horizontal) == 2
    ensures |Parts(U)| == 6 && CountKind(Parts(U), Vertical) == 4 && CountKind(Parts(U), Horizontal) == 2
    ensures |Parts(M)| == 7 && CountKind(Parts(M), Vertical) == 5 && CountKind(Parts(M), Horizontal) == 2
  {
  }

  /** Bars are built from two halves: every horizontal part at x = -0.5 is
      immediately followed by its partner at x = 0.5 and the same y, every
      horizontal part at x = 0.5 immediately follows its partner, and no
      horizontal part sits anywhere else. */
  predicate HorizontalsPaired(ps: seq<Part>) {
    forall i :: 0 <= i < |ps| && ps[i].kind == Horizontal ==>
      (ps[i].dx == -0.5 && i + 1 < |ps| && ps[i + 1] == Part(Horizontal, 0.5, ps[i].dy)) ||
      (ps[i].dx == 0.5 && 0 < i && ps[i - 1] == Part(Horizontal, -0.5, ps[i].dy))
  }

  lemma LettersHaveWholeBars(l: Letter)
    ensures HorizontalsPaired(Parts(l))
  {
  }

  /** The scale CreateVertical and CreateHorizontal apply before the offset. */
  function PartScale(k: PartKind): (real, real) {
    match k
    case Vertical => (0.25, 1.0)
    case Horizontal => (1.0, 0.5)
  }

  /** Where a part's centre lands in the letter's frame. The part matrix is the
      scale followed by the translation (glm::translate multiplies on the
      right), so the offset is applied in scaled units. */
  function PartCentre(p: Part): (real, real) {
    var (sx, sy) := PartScale(p.kind);
    (sx * p.dx, sy * p.dy)
  }

  /** Height of the bottom and the top of a stroke: the unit sphere scaled by 1
      in y reaches one unit below and above its centre. */
  function StrokeEnds(p: Part): (real, real) {
    var (_, cy) := PartCentre(p);
    (cy - 1.0, cy + 1.0)
  }

  /** The x extent of a bar half: the unit cube reaches half a unit either side
      of its centre, scaled by the part's x scale. */
  function BarXExtent(p: Part): (real, real) {
    var (sx, _) := PartScale(p.kind);
    var (cx, _) := PartCentre(p);
    (cx - 0.5 * sx, cx + 0.5 * sx)
  }

  /** The other half of the bar that half i belongs to (see HorizontalsPaired). */
  function Partner(ps: seq<Part>, i: nat): int
    requires i < |ps|
  {
    if ps[i].dx == -0.5 then i + 1 else i - 1
  }

  /** A stroke meets a bar half in x: its axis passes through the half's x extent. */
  predicate AxisThrough(bar: Part, stroke: Part) {
    BarXExtent(bar).0 <= PartCentre(stroke).0 <= BarXExtent(bar).1
  }

  /** A stroke carries bar half i: the half is centred at the height of the
      stroke's lower or upper end, and the stroke's axis passes through the bar
      that half belongs to (the half itself or its partner). */
  predicate Carries(ps: seq<Part>, i: nat, j: nat)
    requires i < |ps| && j < |ps|
  {
    ps[j].kind == Vertical &&
    (PartCentre(ps[i]).1 == StrokeEnds(ps[j]).0 || PartCentre(ps[i]).1 == StrokeEnds(ps[j]).1) &&
    (AxisThrough(ps[i], ps[j]) ||
     (0 <= Partner(ps, i) < |ps| && AxisThrough(ps[Partner(ps, i)], ps[j])))
  }

  /** The part layout is consistent: every bar half is carried by some stroke
      of the same letter, so each bar sits flush with a stroke's end, or on the
      joint between two stacked strokes, where the stroke crosses it. */
  predicate BarsOnStrokeEnds(ps: seq<Part>) {
    forall i :: 0 <= i < |ps| && ps[i].kind == Horizontal ==>
      exists j :: 0 <= j < |ps| && Carries(ps, i, j)
  }

  lemma {:induction false} LettersAreConnected(l: Letter)
    ensures BarsOnStrokeEnds(Parts(l))
  {
    var ps := Parts(l);
    forall i | 0 <= i < |ps| && ps[i].kind == Horizontal
      ensures exists j :: 0 <= j < |ps| && Carries(ps, i, j)
    {
      var j := BarSupport(l, i);
    }
  }

  /** A stroke that carries bar half i. */
  lemma BarSupport(l: Letter, i: nat) returns (j: nat)
    requires i < |Parts(l)| && Parts(l)[i].kind == Horizontal
    ensures j < |Parts(l)| && Carries(Parts(l), i, j)
  {
    var ps := Parts(l);
    var h := ps[i].dy;
    if h == -2.0 {
      j := 0;
    } else if h == 2.0 {
      j := 0;
    } else {
      j := if l == M then 2 else 1;
    }
  }
}
