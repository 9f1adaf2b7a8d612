/**
  The ground grid of src/Main.cpp (createGrid): an (n+1) x (n+1) row-major
  lattice on the XZ plane and a GL_LINES index list with four two-index
  segments around every cell.
 */
module Grid {
  import opened Geometry

  /** Flat position of lattice point (i, j): row i, column j. */
  function LatticeIndex(n: nat, i: nat, j: nat): nat {
    Mul(i, n + 1) + j
  }

  /** Lattice point (i, j): the grid vertex pushed at row i, column j. */
  datatype Node = Node(row: nat, col: nat)

  /** Lattice point (i, j) lies at (j/n, 0, i/n): columns run along X, rows along Z. */
  function NodePosition(n: nat, p: Node): Vec3
    requires n >= 1
  {
    Vec3(Coord(p.col, n), 0.0, Coord(p.row, n))
  }

  /** The float a / n that the grid loop computes for row or column a. */
  function Coord(a: nat, n: nat): real
    requires n >= 1
  {
    a as real / n as real
  }

  /** Every coordinate of a lattice point lies between 0 and 1, the last one on 1. */
  lemma CoordInUnit(a: nat, n: nat)
    requires 1 <= n && a <= n
    ensures 0.0 <= Coord(a, n) <= 1.0
    ensures Coord(a, n) == 1.0 <==> a == n
    ensures Coord(0, n) == 0.0
  {
  }

  /** The positions of a list of lattice points, in order. */
  function Positions(n: nat, nodes: seq<Node>): (r: seq<Vec3>)
    requires n >= 1
    ensures |r| == |nodes|
    ensures forall k :: 0 <= k < |nodes| ==> r[k] == NodePosition(n, nodes[k])
  {
    if nodes == [] then []
    else Positions(n, nodes[..|nodes| - 1]) + [NodePosition(n, nodes[|nodes| - 1])]
  }

  /** Position in the index list of entry k of cell (i, j); cells are numbered row by row. */
  function CellSlot(n: nat, i: nat, j: nat, k: nat): nat {
    8 * (Mul(i, n) + j) + k
  }

  /** Two flat positions that are horizontal or vertical lattice neighbours. */
  predicate Neighbours(n: nat, a: nat, b: nat) {
    a + 1 == b || b + 1 == a || a + n + 1 == b || b + n + 1 == a
  }

  /** Four segments (pairs at 0-1, 2-3, 4-5, 6-7) that chain into a closed loop:
      each ends where the next begins, and the last ends where the first began. */
  predicate ClosedLoop(s: seq<nat>)
    requires |s| == 8
  {
    s[1] == s[2] && s[3] == s[4] && s[5] == s[6] && s[7] == s[0]
  }

  /** The eight indices createGrid pushes for cell (i, j): top line, right line,
      bottom line, left line. */
  function CellIndices(n: nat, i: nat, j: nat): (r: seq<nat>)
    ensures |r| == 8
  {
    var top := Mul(i, 1 + n);
    var bottom := Mul(i + 1, 1 + n);
    [top + j, top + j + 1,
     top + j + 1, bottom + j + 1,
     bottom + j + 1, bottom + j,
     bottom + j, top + j]
  }

  /** The four segments of a cell run top-left to top-right, top-right to
      bottom-right, bottom-right to bottom-left and bottom-left back to top-left:
      a closed loop of lattice neighbours. */
  lemma CellIsClosedLoop(n: nat, i: nat, j: nat)
    ensures var r := CellIndices(n, i, j);
      && r[0] == LatticeIndex(n, i, j) && r[1] == LatticeIndex(n, i, j + 1)
      && r[3] == LatticeIndex(n, i + 1, j + 1) && r[5] == LatticeIndex(n, i + 1, j)
      && ClosedLoop(r)
      && Neighbours(n, r[0], r[1]) && Neighbours(n, r[2], r[3])
      && Neighbours(n, r[4], r[5]) && Neighbours(n, r[6], r[7])
  {
  }

  /** The points of row i, columns 0 .. j-1: the inner vertex loop after j turns. */
  function LatticeRow(i: nat, j: nat): (r: seq<Node>)
    ensures |r| == j
    ensures forall c :: 0 <= c < j ==> r[c] == Node(i, c)
  {
    if j == 0 then [] else LatticeRow(i, j - 1) + [Node(i, j - 1)]
  }

  /** The points of rows 0 .. i-1: the outer vertex loop after i turns. */
  function LatticeRows(n: nat, i: nat): (r: seq<Node>)
    ensures |r| == Mul(i, n + 1)
  {
    if i == 0 then [] else LatticeRows(n, i - 1) + LatticeRow(i - 1, n + 1)
  }

  /** A point of an earlier row lies before the last row. */
  lemma EarlierRowPoint(n: nat, row: nat, c: nat, i: nat)
    requires row + 1 < i && c <= n
    ensures LatticeIndex(n, row, c) < Mul(i - 1, n + 1)
  {
    MulMono(row + 1, i - 1, n + 1);
  }

  lemma LastRowPoint(n: nat, c: nat, i: nat)
    requires 0 < i
    ensures LatticeIndex(n, i - 1, c) == Mul(i - 1, n + 1) + c
  {
  }

  /** Lattice point (row, c) sits at its row-major position once its row is pushed. */
  lemma {:induction false} LatticeRowsAt(n: nat, i: nat, row: nat, c: nat)
    requires row < i && c <= n
    ensures LatticeIndex(n, row, c) < |LatticeRows(n, i)|
    ensures LatticeRows(n, i)[LatticeIndex(n, row, c)] == Node(row, c)
  {
    var prev := LatticeRows(n, i - 1);
    var last := LatticeRow(i - 1, n + 1);
    assert LatticeRows(n, i) == prev + last;
    if row < i - 1 {
      LatticeRowsAt(n, i - 1, row, c);
      EarlierRowPoint(n, row, c, i);
    } else {
      LastRowPoint(n, c, i);
      assert last[c] == Node(row, c);
    }
  }

  /** The cells (i, 0) .. (i, j-1): the inner index loop after j turns. */
  function RowCells(n: nat, i: nat, j: nat): (r: seq<nat>)
    ensures |r| == 8 * j
  {
    if j == 0 then [] else RowCells(n, i, j - 1) + CellIndices(n, i, j - 1)
  }

  /** The cells of rows 0 .. i-1: the outer index loop after i turns. */
  function CellRows(n: nat, i: nat): (r: seq<nat>)
    ensures |r| == 8 * Mul(i, n)
  {
    if i == 0 then [] else CellRows(n, i - 1) + RowCells(n, i - 1, n)
  }

  lemma {:induction false} RowCellsLayout(n: nat, i: nat, j: nat)
    ensures forall c, k :: 0 <= c < j && 0 <= k < 8 ==> RowCells(n, i, j)[8 * c + k] == CellIndices(n, i, c)[k]
  {
    if j > 0 {
      RowCellsLayout(n, i, j - 1);
      var prev := RowCells(n, i, j - 1);
      var cell := CellIndices(n, i, j - 1);
      assert RowCells(n, i, j) == prev + cell;
      forall c, k | 0 <= c < j && 0 <= k < 8
        ensures RowCells(n, i, j)[8 * c + k] == CellIndices(n, i, c)[k]
      {
        if c < j - 1 {
          assert 8 * c + k < |prev|;
        } else {
          assert 8 * c + k == |prev| + k;
        }
      }
    }
  }

  lemma {:induction false} RowCellsBound(n: nat, i: nat, j: nat)
    requires j <= n
    ensures forall p :: 0 <= p < |RowCells(n, i, j)| ==> RowCells(n, i, j)[p] < Mul(i + 2, n + 1)
  {
    if j > 0 {
      RowCellsBound(n, i, j - 1);
    }
  }

  /** A slot of an earlier row of cells lies before the last row. */
  lemma EarlierRowSlot(n: nat, row: nat, c: nat, k: nat, i: nat)
    requires row + 1 < i && c < n && k < 8
    ensures CellSlot(n, row, c, k) < 8 * Mul(i - 1, n)
  {
    MulMono(row + 1, i - 1, n);
  }

  lemma LastRowSlot(n: nat, c: nat, k: nat, i: nat)
    requires 0 < i
    ensures CellSlot(n, i - 1, c, k) == 8 * Mul(i - 1, n) + (8 * c + k)
  {
  }

  /** The slots of the earlier rows keep their cells when a row is appended. */
  lemma EarlierRowsKept(n: nat, i: nat, row: nat, c: nat, k: nat)
    requires 0 < i && row + 1 < i && c < n && k < 8
    requires CellSlot(n, row, c, k) < |CellRows(n, i - 1)|
    ensures CellSlot(n, row, c, k) < |CellRows(n, i)|
    ensures CellRows(n, i)[CellSlot(n, row, c, k)] == CellRows(n, i - 1)[CellSlot(n, row, c, k)]
  {
    assert CellRows(n, i) == CellRows(n, i - 1) + RowCells(n, i - 1, n);
  }

  /** The slots of the appended row hold that row's cells. */
  lemma LastRowPlaced(n: nat, i: nat, c: nat, k: nat)
    requires 0 < i && c < n && k < 8
    ensures CellSlot(n, i - 1, c, k) < |CellRows(n, i)|
    ensures CellRows(n, i)[CellSlot(n, i - 1, c, k)] == CellIndices(n, i - 1, c)[k]
  {
    RowCellsLayout(n, i - 1, n);
    var prev := CellRows(n, i - 1);
    var last := RowCells(n, i - 1, n);
    assert CellRows(n, i) == prev + last;
    LastRowSlot(n, c, k, i);
    assert last[8 * c + k] == CellIndices(n, i - 1, c)[k];
  }

  lemma {:induction false} CellRowsLayout(n: nat, i: nat)
    ensures forall row, c, k :: 0 <= row < i && 0 <= c < n && 0 <= k < 8 ==>
      CellSlot(n, row, c, k) < |CellRows(n, i)| &&
      CellRows(n, i)[CellSlot(n, row, c, k)] == CellIndices(n, row, c)[k]
  {
    if i > 0 {
      CellRowsLayout(n, i - 1);
      forall row, c, k | 0 <= row < i && 0 <= c < n && 0 <= k < 8
        ensures CellSlot(n, row, c, k) < |CellRows(n, i)|
        ensures CellRows(n, i)[CellSlot(n, row, c, k)] == CellIndices(n, row, c)[k]
      {
        if row < i - 1 {
          EarlierRowsKept(n, i, row, c, k);
        } else {
          LastRowPlaced(n, i, c, k);
        }
      }
    }
  }

  lemma {:induction false} CellRowsBound(n: nat, i: nat)
    requires i <= n
    ensures forall p :: 0 <= p < |CellRows(n, i)| ==> CellRows(n, i)[p] < Mul(i + 1, n + 1)
  {
    if i > 0 {
      CellRowsBound(n, i - 1);
      RowCellsBound(n, i - 1, n);
    }
  }

  /** The index list of createGrid(n). */
  function GridIndices(n: nat): seq<nat> {
    CellRows(n, n)
  }

  /** The lattice points of createGrid(n), in the order their floats are pushed. */
  function GridNodes(n: nat): seq<Node> {
    LatticeRows(n, n + 1)
  }

  /** The float buffer of createGrid(n). */
  function GridFloats(n: nat): seq<real>
    requires n >= 1
  {
    Flatten(Positions(n, GridNodes(n)))
  }

  lemma GridCounts(n: nat)
    requires n >= 1
    ensures |GridNodes(n)| == (n + 1) * (n + 1)
    ensures |GridFloats(n)| == 3 * ((n + 1) * (n + 1))
    ensures |GridIndices(n)| == 8 * (n * n)
  {
    MulIsProduct(n + 1, n + 1);
    MulIsProduct(n, n);
  }

  /** The three floats of the k-th point are its column / n, 0 and its row / n. */
  lemma PointFloats(n: nat, nodes: seq<Node>, k: nat)
    requires n >= 1 && k < |nodes|
    ensures 3 * k + 2 < |Flatten(Positions(n, nodes))|
    ensures Flatten(Positions(n, nodes))[3 * k] == Coord(nodes[k].col, n)
    ensures Flatten(Positions(n, nodes))[3 * k + 1] == 0.0
    ensures Flatten(Positions(n, nodes))[3 * k + 2] == Coord(nodes[k].row, n)
  {
    assert Positions(n, nodes)[k] == NodePosition(n, nodes[k]);
  }

  /** createGrid(n) emits 3(n+1)^2 floats, lattice point (i, j) at flat position
      i(n+1)+j with coordinates (j/n, 0, i/n). */
  lemma GridCoordinates(n: nat)
    requires n >= 1
    ensures forall i, j :: 0 <= i <= n && 0 <= j <= n ==>
      3 * LatticeIndex(n, i, j) + 2 < |GridFloats(n)| &&
      GridFloats(n)[3 * LatticeIndex(n, i, j)] == Coord(j, n) &&
      GridFloats(n)[3 * LatticeIndex(n, i, j) + 1] == 0.0 &&
      GridFloats(n)[3 * LatticeIndex(n, i, j) + 2] == Coord(i, n)
  {
    forall i, j | 0 <= i <= n && 0 <= j <= n
      ensures 3 * LatticeIndex(n, i, j) + 2 < |GridFloats(n)|
      ensures GridFloats(n)[3 * LatticeIndex(n, i, j)] == Coord(j, n)
      ensures GridFloats(n)[3 * LatticeIndex(n, i, j) + 1] == 0.0
      ensures GridFloats(n)[3 * LatticeIndex(n, i, j) + 2] == Coord(i, n)
    {
      GridPoint(n, i, j);
    }
  }

  lemma GridPoint(n: nat, i: nat, j: nat)
    requires n >= 1 && i <= n && j <= n
    ensures 3 * LatticeIndex(n, i, j) + 2 < |GridFloats(n)|
    ensures GridFloats(n)[3 * LatticeIndex(n, i, j)] == Coord(j, n)
    ensures GridFloats(n)[3 * LatticeIndex(n, i, j) + 1] == 0.0
    ensures GridFloats(n)[3 * LatticeIndex(n, i, j) + 2] == Coord(i, n)
  {
    LatticeRowsAt(n, n + 1, i, j);
    PointFloats(n, GridNodes(n), LatticeIndex(n, i, j));
  }

  /** createGrid(n) emits 8n^2 indices, each naming one of the (n+1)^2 points,
      with cell (i, j) in the eight slots from 8(i n + j). */
  lemma GridLines(n: nat)
    requires n >= 1
    ensures |GridIndices(n)| == 8 * (n * n)
    ensures forall p :: 0 <= p < |GridIndices(n)| ==> GridIndices(n)[p] < (n + 1) * (n + 1)
    ensures forall i, j, k :: 0 <= i < n && 0 <= j < n && 0 <= k < 8 ==>
      CellSlot(n, i, j, k) < |GridIndices(n)| &&
      GridIndices(n)[CellSlot(n, i, j, k)] == CellIndices(n, i, j)[k]
  {
    CellRowsLayout(n, n);
    CellRowsBound(n, n);
    GridCounts(n);
  }

  /** createGrid: the two nested loops of the source, pushing three floats per
      lattice point and eight indices per cell. */
  method CreateGrid(n: nat) returns (vertices: seq<real>, indices: seq<nat>)
    requires n >= 1
    ensures vertices == GridFloats(n)
    ensures indices == GridIndices(n)
    ensures |vertices| == 3 * ((n + 1) * (n + 1))
    ensures forall i, j :: 0 <= i <= n && 0 <= j <= n ==>
      3 * LatticeIndex(n, i, j) + 2 < |vertices| &&
      vertices[3 * LatticeIndex(n, i, j)] == Coord(j, n) &&
      vertices[3 * LatticeIndex(n, i, j) + 1] == 0.0 &&
      vertices[3 * LatticeIndex(n, i, j) + 2] == Coord(i, n)
    ensures |indices| == 8 * (n * n)
    ensures forall p :: 0 <= p < |indices| ==> indices[p] < (n + 1) * (n + 1)
    ensures forall i, j, k :: 0 <= i < n && 0 <= j < n && 0 <= k < 8 ==>
      CellSlot(n, i, j, k) < |indices| &&
      indices[CellSlot(n, i, j, k)] == CellIndices(n, i, j)[k]
  {
    var nodes := BuildLattice(n);
    // each point (i, j) contributes the floats j / n, 0, i / n
    vertices := Flatten(Positions(n, nodes));
    indices := BuildLines(n);
    GridCounts(n);
    GridCoordinates(n);
    GridLines(n);
  }

  /** The first double loop of createGrid: one lattice point per turn, row by
      row. The result holds (n+1)^2 points, and lattice point (i, j) is at its
      row-major position i (n+1) + j, so every point appears exactly there. */
  method BuildLattice(n: nat) returns (nodes: seq<Node>)
    ensures |nodes| == (n + 1) * (n + 1)
    ensures forall i, j :: 0 <= i <= n && 0 <= j <= n ==>
      LatticeIndex(n, i, j) < |nodes| && nodes[LatticeIndex(n, i, j)] == Node(i, j)
    ensures nodes == GridNodes(n)
  {
    nodes := [];
    var i := 0;
    while i <= n
      invariant i <= n + 1
      invariant nodes == LatticeRows(n, i)
    {
      var j := 0;
      while j <= n
        invariant j <= n + 1
        invariant nodes == LatticeRows(n, i) + LatticeRow(i, j)
      {
        nodes := nodes + [Node(i, j)];
        j := j + 1;
      }
      i := i + 1;
    }
    assert nodes == GridNodes(n);
    LatticeAt(n);
  }

  /** The lattice point by point: see BuildLattice. */
  lemma LatticeAt(n: nat)
    ensures |GridNodes(n)| == (n + 1) * (n + 1)
    ensures forall i, j :: 0 <= i <= n && 0 <= j <= n ==>
      LatticeIndex(n, i, j) < |GridNodes(n)| && GridNodes(n)[LatticeIndex(n, i, j)] == Node(i, j)
  {
    MulIsProduct(n + 1, n + 1);
    forall i, j | 0 <= i <= n && 0 <= j <= n
      ensures LatticeIndex(n, i, j) < |GridNodes(n)| && GridNodes(n)[LatticeIndex(n, i, j)] == Node(i, j)
    {
      LatticeRowsAt(n, n + 1, i, j);
    }
  }

  /** One turn of the inner index loop appends the eight indices of cell (i, j). */
  lemma LinesStep(n: nat, i: nat, j: nat, pre: seq<nat>, done: seq<nat>)
    requires done == pre + RowCells(n, i, j)
    ensures done + CellIndices(n, i, j) == pre + RowCells(n, i, j + 1)
  {
  }

  /** The second double loop of createGrid: eight indices per cell, row by row.
      The list has 8 n^2 entries, each naming one of the (n+1)^2 lattice points,
      and entry k of cell (i, j) is at slot 8 (i n + j) + k. */
  method BuildLines(n: nat) returns (indices: seq<nat>)
    ensures |indices| == 8 * (n * n)
    ensures forall p :: 0 <= p < |indices| ==> indices[p] < (n + 1) * (n + 1)
    ensures forall i, j, k :: 0 <= i < n && 0 <= j < n && 0 <= k < 8 ==>
      CellSlot(n, i, j, k) < |indices| &&
      indices[CellSlot(n, i, j, k)] == CellIndices(n, i, j)[k]
    ensures indices == GridIndices(n)
  {
    indices := [];
    var i := 0;
    while i < n
      invariant i <= n
      invariant indices == CellRows(n, i)
    {
      indices := BuildRowLines(n, i, indices);
      i := i + 1;
    }
    MulIsProduct(n, n);
    MulIsProduct(n + 1, n + 1);
    CellRowsLayout(n, n);
    CellRowsBound(n, n);
  }

  /** The inner index loop of createGrid for row i of cells, appending to the
      list built so far: that list is kept as it was, 8 n entries follow it, and
      entry k of cell (i, c) lands at offset 8 c + k after it. */
  method BuildRowLines(n: nat, i: nat, done: seq<nat>) returns (indices: seq<nat>)
    ensures |indices| == |done| + 8 * n
    ensures indices[..|done|] == done
    ensures forall c, k :: 0 <= c < n && 0 <= k < 8 ==>
      indices[|done| + 8 * c + k] == CellIndices(n, i, c)[k]
    ensures indices == done + RowCells(n, i, n)
  {
    indices := done;
    var j := 0;
    while j < n
      invariant j <= n
      invariant indices == done + RowCells(n, i, j)
    {
      LinesStep(n, i, j, done, indices);
      // top, right, bottom and left line of cell (i, j)
      indices := indices + CellIndices(n, i, j);
      j := j + 1;
    }
    RowCellsLayout(n, i, n);
    forall c, k | 0 <= c < n && 0 <= k < 8
      ensures indices[|done| + 8 * c + k] == CellIndices(n, i, c)[k]
    {
      assert indices[|done| + (8 * c + k)] == RowCells(n, i, n)[8 * c + k];
    }
  }
}
