/**
 * The cube cross: where generatePattern puts its boxes, as pure functions.
 *
 * Three planes (xy, xz, yz) each hold rows of boxes whose lengths follow the
 * fixed pattern [1, 3, 5, 7, 5, 3, 1].  Row i sits at coordinate
 * startOffset - i * step on the plane's row axis, and box j of a row of
 * `count` boxes sits at -(count - 1) / 2 * step + j * step on its cell axis.
 * The plane's third axis is 0.  Coordinates are exact reals.
 */
module Pattern {

  /** The fixed leading children of the scene: camera, ambient light, rect light. */
  datatype Fixture = Camera | AmbientLight | RectLight

  /** A child of the scene graph: one of the fixtures, or a cube mesh at a position. */
  datatype SceneChild =
    | Fixed(tag: Fixture)
    | Box(x: real, y: real, z: real, size: real)

  /** The three arrangements, in the order generatePattern builds them. */
  datatype Plane = XY | XZ | YZ

  /** Boxes per row. */
  const Counts: seq<nat> := [1, 3, 5, 7, 5, 3, 1]

  /** Edge length of every generated box. */
  const BoxSize: real := 0.8

  /** Boxes per plane: the sum of Counts. */
  const PerPlane: nat := 25

  /** Distance between neighbouring box centres for a given spacing. */
  function Step(spacing: real): (step: real)
    ensures -1.0 <= spacing <= 1.0 ==> 0.0 <= step <= 2.0
    ensures spacing == -1.0 <==> step == 0.0
  {
    1.0 + spacing
  }

  /** Coordinate of row 0, the most positive row. */
  function StartOffset(step: real): real
  {
    (|Counts| - 1) as real / 2.0 * step
  }

  /** Row-axis coordinate of row i. */
  function RowCoord(step: real, i: int): real
  {
    StartOffset(step) - i as real * step
  }

  /** Cell-axis coordinate of box j in a row of `count` boxes. */
  function CellCoord(step: real, count: int, j: int): real
  {
    -((count - 1) as real) / 2.0 * step + j as real * step
  }

  /** The box of row i, cell j of a plane. */
  function Place(plane: Plane, step: real, i: nat, j: int): (b: SceneChild)
    requires i < |Counts|
    ensures b.Box? && b.size == BoxSize
    ensures plane == XY ==> b.x == CellCoord(step, Counts[i], j) && b.y == RowCoord(step, i) && b.z == 0.0
    ensures plane == XZ ==> b.x == CellCoord(step, Counts[i], j) && b.y == 0.0 && b.z == RowCoord(step, i)
    ensures plane == YZ ==> b.x == 0.0 && b.y == RowCoord(step, i) && b.z == CellCoord(step, Counts[i], j)
  {
    var row := RowCoord(step, i);
    var cell := CellCoord(step, Counts[i], j);
    match plane
    case XY => Box(cell, row, 0.0, BoxSize)
    case XZ => Box(cell, 0.0, row, BoxSize)
    case YZ => Box(0.0, row, cell, BoxSize)
  }

  /** The boxes of row i, from the lowest to the highest cell coordinate (for step >= 0). */
  function RowBoxes(plane: Plane, step: real, i: nat): seq<SceneChild>
    requires i < |Counts|
  {
    seq(Counts[i], j requires 0 <= j < Counts[i] => Place(plane, step, i, j))
  }

  /** Number of boxes in the rows before row n. */
  function RowsBefore(n: nat): nat
    requires n <= |Counts|
  {
    if n == 0 then 0 else RowsBefore(n - 1) + Counts[n - 1]
  }

  /** The boxes of rows 0 .. n-1 of a plane, row by row. */
  function PlaneRows(plane: Plane, step: real, n: nat): seq<SceneChild>
    requires n <= |Counts|
  {
    if n == 0 then [] else PlaneRows(plane, step, n - 1) + RowBoxes(plane, step, n - 1)
  }

  /** All boxes of one plane. */
  function PlaneBoxes(plane: Plane, step: real): seq<SceneChild>
  {
    PlaneRows(plane, step, |Counts|)
  }

  /** Position of a plane's first box in the generated list. */
  function PlaneBase(plane: Plane): nat
  {
    match plane
    case XY => 0
    case XZ => PerPlane
    case YZ => 2 * PerPlane
  }

  /** Every box generatePattern adds for a spacing, in the order it adds them. */
  function ExpectedBoxes(spacing: real): (boxes: seq<SceneChild>)
    ensures |boxes| == 3 * PerPlane
  {
    var step := Step(spacing);
    PlaneBoxesLength(XY, step);
    PlaneBoxesLength(XZ, step);
    PlaneBoxesLength(YZ, step);
    PlaneBoxes(XY, step) + PlaneBoxes(XZ, step) + PlaneBoxes(YZ, step)
  }

  /** The children that survive the clearing loop: those before index 3. */
  function Kept(children: seq<SceneChild>): (kept: seq<SceneChild>)
    ensures |kept| == if |children| < 3 then |children| else 3
    ensures kept == children[..|kept|]
  {
    if |children| <= 3 then children else children[..3]
  }

  /** The child list generatePattern leaves behind. */
  function Regenerated(children: seq<SceneChild>, spacing: real): (after: seq<SceneChild>)
    ensures |after| == |Kept(children)| + 3 * PerPlane
    ensures after[..|Kept(children)|] == children[..|Kept(children)|]
    ensures after[|Kept(children)|..] == ExpectedBoxes(spacing)
  {
    Kept(children) + ExpectedBoxes(spacing)
  }

  /** The point reflection of a box through the origin. */
  function Negate(b: SceneChild): SceneChild
    requires b.Box?
  {
    Box(-b.x, -b.y, -b.z, b.size)
  }

  // ---------------------------------------------------------------------
  // Counting and indexing

  lemma {:induction false} PlaneRowsLength(plane: Plane, step: real, n: nat)
    requires n <= |Counts|
    ensures |PlaneRows(plane, step, n)| == RowsBefore(n)
  {
    if n > 0 {
      PlaneRowsLength(plane, step, n - 1);
    }
  }

  /** Box j of row i is found at index RowsBefore(i) + j of the plane's list. */
  lemma {:induction false} PlaneRowsAt(plane: Plane, step: real, n: nat, i: nat, j: nat)
    requires n <= |Counts|
    requires i < n && j < Counts[i]
    ensures RowsBefore(i) + j < |PlaneRows(plane, step, n)|
    ensures PlaneRows(plane, step, n)[RowsBefore(i) + j] == Place(plane, step, i, j)
  {
    var prefix := PlaneRows(plane, step, n - 1);
    var k := RowsBefore(i) + j;
    PlaneRowsLength(plane, step, n - 1);
    assert PlaneRows(plane, step, n) == prefix + RowBoxes(plane, step, n - 1);
    if i < n - 1 {
      PlaneRowsAt(plane, step, n - 1, i, j);
      assert k < |prefix|;
      assert PlaneRows(plane, step, n)[k] == prefix[k];
    } else {
      assert k - |prefix| == j;
      assert PlaneRows(plane, step, n)[k] == RowBoxes(plane, step, i)[j];
    }
  }

  /** Conversely, every entry of a plane's list is the box of some row i and cell j. */
  lemma {:induction false} PlaneRowsMember(plane: Plane, step: real, n: nat, k: nat)
    requires n <= |Counts|
    requires k < |PlaneRows(plane, step, n)|
    ensures exists i: nat, j: nat ::
              i < n && j < Counts[i] && k == RowsBefore(i) + j &&
              PlaneRows(plane, step, n)[k] == Place(plane, step, i, j)
  {
    PlaneRowsLength(plane, step, n - 1);
    var prefix := PlaneRows(plane, step, n - 1);
    if k < |prefix| {
      PlaneRowsMember(plane, step, n - 1, k);
      var i: nat, j: nat :| i < n - 1 && j < Counts[i] && k == RowsBefore(i) + j &&
                             prefix[k] == Place(plane, step, i, j);
      assert PlaneRows(plane, step, n)[k] == prefix[k];
    } else {
      var j: nat := k - |prefix|;
      assert PlaneRows(plane, step, n)[k] == RowBoxes(plane, step, n - 1)[j];
      assert k == RowsBefore(n - 1) + j;
    }
  }

  /** Appending box j of row i extends the row's first j boxes by one. */
  lemma RowPrefixGrows(plane: Plane, step: real, i: nat, j: nat)
    requires i < |Counts| && j < Counts[i]
    ensures RowBoxes(plane, step, i)[..j + 1] == RowBoxes(plane, step, i)[..j] + [Place(plane, step, i, j)]
  {
  }

  /** A completed row extends the plane's list by one row. */
  lemma PlaneRowsGrow(plane: Plane, step: real, i: nat)
    requires i < |Counts|
    ensures PlaneRows(plane, step, i) + RowBoxes(plane, step, i)[..Counts[i]] == PlaneRows(plane, step, i + 1)
  {
  }

  lemma PlaneBoxesLength(plane: Plane, step: real)
    ensures |PlaneBoxes(plane, step)| == PerPlane
  {
    PlaneRowsLength(plane, step, |Counts|);
  }

  /** generatePattern adds 3 * 25 = 75 boxes. */
  lemma ExpectedBoxesLength(spacing: real)
    ensures |ExpectedBoxes(spacing)| == 3 * PerPlane
  {
    var step := Step(spacing);
    PlaneBoxesLength(XY, step);
    PlaneBoxesLength(XZ, step);
    PlaneBoxesLength(YZ, step);
  }

  /**
   * Exact positions and order: box j of row i of a plane is the
   * (PlaneBase + RowsBefore(i) + j)-th generated box.
   */
  lemma ExpectedBoxesAt(spacing: real, plane: Plane, i: nat, j: nat)
    requires i < |Counts| && j < Counts[i]
    ensures PlaneBase(plane) + RowsBefore(i) + j < |ExpectedBoxes(spacing)|
    ensures ExpectedBoxes(spacing)[PlaneBase(plane) + RowsBefore(i) + j]
            == Place(plane, Step(spacing), i, j)
  {
    var step := Step(spacing);
    ExpectedBoxesLength(spacing);
    PlaneBoxesLength(XY, step);
    PlaneBoxesLength(XZ, step);
    PlaneRowsAt(plane, step, |Counts|, i, j);
  }

  /** The generated list is the three planes' lists one after another. */
  lemma ExpectedBoxesInPlane(spacing: real, plane: Plane, local: nat)
    requires local < PerPlane
    ensures PlaneBase(plane) + local < |ExpectedBoxes(spacing)|
    ensures |PlaneBoxes(plane, Step(spacing))| == PerPlane
    ensures ExpectedBoxes(spacing)[PlaneBase(plane) + local] == PlaneBoxes(plane, Step(spacing))[local]
  {
    var step := Step(spacing);
    PlaneBoxesLength(XY, step);
    PlaneBoxesLength(XZ, step);
    PlaneBoxesLength(YZ, step);
  }

  /** Which plane generated the k-th box. */
  function PlaneOf(k: nat): Plane
  {
    if k < PerPlane then XY else if k < 2 * PerPlane then XZ else YZ
  }

  /**
   * Every generated box is the box of some row and cell of the plane its
   * index falls in; in particular its size is 0.8 and the plane's third
   * axis is 0.
   */
  lemma ExpectedBoxesMember(spacing: real, k: nat)
    requires k < |ExpectedBoxes(spacing)|
    ensures exists i: nat, j: nat ::
              i < |Counts| && j < Counts[i] &&
              k == PlaneBase(PlaneOf(k)) + RowsBefore(i) + j &&
              ExpectedBoxes(spacing)[k] == Place(PlaneOf(k), Step(spacing), i, j)
    ensures ExpectedBoxes(spacing)[k].Box?
    ensures ExpectedBoxes(spacing)[k].size == BoxSize
    ensures PlaneOf(k) == XY ==> ExpectedBoxes(spacing)[k].z == 0.0
    ensures PlaneOf(k) == XZ ==> ExpectedBoxes(spacing)[k].y == 0.0
    ensures PlaneOf(k) == YZ ==> ExpectedBoxes(spacing)[k].x == 0.0
  {
    ExpectedBoxesLength(spacing);
    var plane := PlaneOf(k);
    var local: nat := k - PlaneBase(plane);
    ExpectedBoxesInPlane(spacing, plane, local);
    PlaneRowsMember(plane, Step(spacing), |Counts|, local);
  }

  // ---------------------------------------------------------------------
  // Symmetry

  /**
   * The divisions by 2 are exact: the first row sits 3 steps up, row i sits
   * 3 - i steps up, and in a row of odd length box j sits j - (count - 1) / 2
   * steps along, with integer halving.
   */
  lemma ExactDivisions(step: real, i: int, count: int, j: int)
    ensures StartOffset(step) == ((|Counts| - 1) / 2) as real * step
    ensures RowCoord(step, i) == ((|Counts| - 1) / 2 - i) as real * step
    ensures count % 2 == 1 ==> CellCoord(step, count, j) == (j - (count - 1) / 2) as real * step
  {
    assert (|Counts| - 1) / 2 == 3;
    if count % 2 == 1 {
      assert (count - 1) as real == 2.0 * ((count - 1) / 2) as real;
    }
  }

  /** Rows i and 6 - i sit at opposite coordinates; the middle row sits at 0. */
  lemma RowCoordSymmetric(step: real, i: int)
    ensures RowCoord(step, |Counts| - 1 - i) == -RowCoord(step, i)
    ensures RowCoord(step, (|Counts| - 1) / 2) == 0.0
  {
  }

  /** Cells j and count - 1 - j sit at opposite coordinates; the middle cell of an odd row sits at 0. */
  lemma CellCoordSymmetric(step: real, count: int, j: int)
    ensures CellCoord(step, count, count - 1 - j) == -CellCoord(step, count, j)
    ensures count % 2 == 1 ==> CellCoord(step, count, (count - 1) / 2) == 0.0
  {
    if count % 2 == 1 {
      var half := (count - 1) / 2;
      assert (count - 1) as real == 2.0 * half as real;
    }
  }

  /**
   * For a positive step, rows run from the most positive coordinate down and
   * boxes within a row run from the lowest coordinate up.
   */
  lemma CoordsOrdered(step: real, count: int, i: int, i': int, j: int, j': int)
    requires step > 0.0 && i < i' && j < j'
    ensures RowCoord(step, i') < RowCoord(step, i)
    ensures CellCoord(step, count, j) < CellCoord(step, count, j')
  {
  }

  /** The pattern reads the same forwards and backwards. */
  lemma CountsPalindrome(i: nat)
    requires i < |Counts|
    ensures Counts[|Counts| - 1 - i] == Counts[i]
    ensures RowsBefore(|Counts| - 1 - i) == PerPlane - RowsBefore(i) - Counts[i]
  {
  }

  /** Reflecting the box of row i, cell j through the origin gives the box of row 6 - i, cell count - 1 - j. */
  lemma PlaceMirror(plane: Plane, step: real, i: nat, j: int)
    requires i < |Counts|
    ensures Place(plane, step, |Counts| - 1 - i, Counts[i] - 1 - j) == Negate(Place(plane, step, i, j))
  {
    CountsPalindrome(i);
    RowCoordSymmetric(step, i);
    CellCoordSymmetric(step, Counts[i], j);
  }

  /**
   * Each plane is point-symmetric about the origin: read backwards, its
   * list of boxes is the list of their reflections.
   */
  lemma PlaneBoxesMirror(plane: Plane, step: real, k: nat)
    requires k < PerPlane
    ensures |PlaneBoxes(plane, step)| == PerPlane
    ensures PlaneBoxes(plane, step)[k].Box?
    ensures PlaneBoxes(plane, step)[PerPlane - 1 - k] == Negate(PlaneBoxes(plane, step)[k])
  {
    PlaneBoxesLength(plane, step);
    PlaneRowsMember(plane, step, |Counts|, k);
    var i: nat, j: nat :| i < |Counts| && j < Counts[i] && k == RowsBefore(i) + j &&
                          PlaneBoxes(plane, step)[k] == Place(plane, step, i, j);
    MirrorIndex(plane, step, i, j);
  }

  /** The mirror image of box j of row i sits at index 24 minus its own. */
  lemma MirrorIndex(plane: Plane, step: real, i: nat, j: nat)
    requires i < |Counts| && j < Counts[i]
    ensures RowsBefore(i) + j < PerPlane
    ensures |PlaneBoxes(plane, step)| == PerPlane
    ensures PlaneBoxes(plane, step)[PerPlane - 1 - (RowsBefore(i) + j)] == Negate(Place(plane, step, i, j))
  {
    MirrorEntry(plane, step, i, j);
    PlaceMirror(plane, step, i, j);
  }

  /** The entry at index 24 minus that of row i, cell j is the box of row 6 - i, cell count - 1 - j. */
  lemma MirrorEntry(plane: Plane, step: real, i: nat, j: nat)
    requires i < |Counts| && j < Counts[i]
    ensures RowsBefore(i) + j < PerPlane
    ensures |PlaneBoxes(plane, step)| == PerPlane
    ensures PlaneBoxes(plane, step)[PerPlane - 1 - (RowsBefore(i) + j)]
            == Place(plane, step, |Counts| - 1 - i, Counts[i] - 1 - j)
  {
    PlaneBoxesLength(plane, step);
    var i', j' := MirrorPosition(i, j);
    PlaneRowsAt(plane, step, |Counts|, i', j');
  }

  /** Row 6 - i, cell count - 1 - j is a valid position, at index 24 minus that of row i, cell j. */
  lemma MirrorPosition(i: nat, j: nat) returns (i': nat, j': nat)
    requires i < |Counts| && j < Counts[i]
    ensures i' == |Counts| - 1 - i && j' == Counts[i] - 1 - j
    ensures i' < |Counts| && j' < Counts[i']
    ensures RowsBefore(i') + j' == PerPlane - 1 - (RowsBefore(i) + j)
  {
    i', j' := |Counts| - 1 - i, Counts[i] - 1 - j;
    CountsPalindrome(i);
  }

  /** The whole cross is symmetric about the origin. */
  lemma ExpectedBoxesSymmetric(spacing: real, b: SceneChild)
    requires b in ExpectedBoxes(spacing)
    ensures b.Box?
    ensures Negate(b) in ExpectedBoxes(spacing)
  {
    var k :| 0 <= k < |ExpectedBoxes(spacing)| && ExpectedBoxes(spacing)[k] == b;
    ExpectedBoxesLength(spacing);
    var plane := PlaneOf(k);
    var local: nat := k - PlaneBase(plane);
    ExpectedBoxesInPlane(spacing, plane, local);
    PlaneBoxesMirror(plane, Step(spacing), local);
    ExpectedBoxesInPlane(spacing, plane, PerPlane - 1 - local);
  }

  /**
   * The three planes all pass through the origin, and each generates the box
   * there at its own index 12: boxes 12, 37 and 62 coincide.
   */
  lemma OriginBoxes(spacing: real)
    ensures |ExpectedBoxes(spacing)| == 3 * PerPlane
    ensures ExpectedBoxes(spacing)[12] == Box(0.0, 0.0, 0.0, BoxSize)
    ensures ExpectedBoxes(spacing)[PerPlane + 12] == Box(0.0, 0.0, 0.0, BoxSize)
    ensures ExpectedBoxes(spacing)[2 * PerPlane + 12] == Box(0.0, 0.0, 0.0, BoxSize)
  {
    var step := Step(spacing);
    ExpectedBoxesLength(spacing);
    assert RowsBefore(3) + 3 == 12;
    RowCoordSymmetric(step, 3);
    CellCoordSymmetric(step, 7, 3);
    ExpectedBoxesAt(spacing, XY, 3, 3);
    ExpectedBoxesAt(spacing, XZ, 3, 3);
    ExpectedBoxesAt(spacing, YZ, 3, 3);
  }

  /** A product with a non-zero factor is zero only when the other factor is. */
  lemma ZeroFactor(a: real, b: real)
    requires a * b == 0.0 && b != 0.0
    ensures a == 0.0
  {
    assert a == a * b / b;
  }

  /** Unless the step is 0, the only box of a plane at the origin is box 3 of row 3. */
  lemma OriginOnlyAtCentre(plane: Plane, step: real, i: nat, j: nat)
    requires step != 0.0 && i < |Counts| && j < Counts[i]
    requires Place(plane, step, i, j) == Box(0.0, 0.0, 0.0, BoxSize)
    ensures i == 3 && j == 3
  {
    ZeroFactor((3 - i) as real, step);
    ZeroFactor((j - (Counts[i] - 1) / 2) as real, step);
  }

  /**
   * Unless the spacing is -1, boxes 12, 37 and 62 are the only generated
   * boxes at the origin: one per plane.
   */
  lemma OriginOnlyThrice(spacing: real, k: nat)
    requires spacing != -1.0 && k < |ExpectedBoxes(spacing)|
    requires ExpectedBoxes(spacing)[k] == Box(0.0, 0.0, 0.0, BoxSize)
    ensures k == 12 || k == PerPlane + 12 || k == 2 * PerPlane + 12
  {
    ExpectedBoxesMember(spacing, k);
    var i: nat, j: nat :| i < |Counts| && j < Counts[i] &&
                          k == PlaneBase(PlaneOf(k)) + RowsBefore(i) + j &&
                          ExpectedBoxes(spacing)[k] == Place(PlaneOf(k), Step(spacing), i, j);
    OriginOnlyAtCentre(PlaneOf(k), Step(spacing), i, j);
    assert RowsBefore(3) == 9;
  }

  // ---------------------------------------------------------------------
  // Concrete spacings

  /** With spacing -1 the step is 0 and every box sits at the origin. */
  lemma CollapsedAtMinusOne(k: nat)
    requires k < |ExpectedBoxes(-1.0)|
    ensures ExpectedBoxes(-1.0)[k] == Box(0.0, 0.0, 0.0, BoxSize)
  {
    ExpectedBoxesMember(-1.0, k);
  }

  /** The seven boxes of a centred row along x with the given step, at y = z = 0. */
  function XRow(step: real): (row: seq<SceneChild>)
    ensures |row| == 7
  {
    seq(7, j requires 0 <= j < 7 => Box((j as real - 3.0) * step, 0.0, 0.0, BoxSize))
  }

  /** For every spacing, boxes 9 .. 15 are the middle row of the xy-plane: y = 0, x from -3 * step to 3 * step. */
  lemma MiddleRow(spacing: real)
    ensures |ExpectedBoxes(spacing)| == 3 * PerPlane
    ensures ExpectedBoxes(spacing)[9..16] == XRow(Step(spacing))
  {
    var step := Step(spacing);
    forall j | 0 <= j < 7
      ensures ExpectedBoxes(spacing)[9..16][j] == XRow(step)[j]
    {
      ExpectedBoxesAt(spacing, XY, 3, j);
      assert RowsBefore(3) == 9;
      assert RowCoord(step, 3) == 0.0;
      assert CellCoord(step, 7, j) == (j as real - 3.0) * step;
      assert ExpectedBoxes(spacing)[9..16][j] == ExpectedBoxes(spacing)[9 + j];
    }
  }

  /** With spacing 0, the middle row of the xy-plane is the seven boxes at x = -3 .. 3, y = 0. */
  lemma MiddleRowAtZeroSpacing()
    ensures |ExpectedBoxes(0.0)| == 3 * PerPlane
    ensures ExpectedBoxes(0.0)[9..16] ==
            [Box(-3.0, 0.0, 0.0, BoxSize), Box(-2.0, 0.0, 0.0, BoxSize), Box(-1.0, 0.0, 0.0, BoxSize),
             Box(0.0, 0.0, 0.0, BoxSize), Box(1.0, 0.0, 0.0, BoxSize), Box(2.0, 0.0, 0.0, BoxSize),
             Box(3.0, 0.0, 0.0, BoxSize)]
  {
    MiddleRow(0.0);
    UnitRow();
  }

  /** With a step of 1, the centred row along x is the boxes at x = -3 .. 3. */
  lemma UnitRow()
    ensures XRow(1.0) ==
            [Box(-3.0, 0.0, 0.0, BoxSize), Box(-2.0, 0.0, 0.0, BoxSize), Box(-1.0, 0.0, 0.0, BoxSize),
             Box(0.0, 0.0, 0.0, BoxSize), Box(1.0, 0.0, 0.0, BoxSize), Box(2.0, 0.0, 0.0, BoxSize),
             Box(3.0, 0.0, 0.0, BoxSize)]
  {
  }

  // ---------------------------------------------------------------------
  // The regenerated child list

  /** The three leading children survive, and 75 boxes follow them. */
  lemma RegeneratedShape(children: seq<SceneChild>, spacing: real)
    requires |children| >= 3
    ensures |Regenerated(children, spacing)| == 3 + 3 * PerPlane
    ensures Regenerated(children, spacing)[..3] == children[..3]
    ensures Regenerated(children, spacing)[3..] == ExpectedBoxes(spacing)
  {
    ExpectedBoxesLength(spacing);
  }

  /** Regenerating twice with the same spacing is the same as regenerating once. */
  lemma RegeneratedIdempotent(children: seq<SceneChild>, spacing: real)
    requires |children| >= 3
    ensures Regenerated(Regenerated(children, spacing), spacing) == Regenerated(children, spacing)
  {
  }

  /** The list after a regeneration does not depend on the boxes that were there before. */
  lemma RegeneratedForgetsBoxes(before: seq<SceneChild>, spacing: real, other: real)
    requires |before| >= 3
    ensures Regenerated(Regenerated(before, other), spacing) == Regenerated(before, spacing)
  {
  }
}
