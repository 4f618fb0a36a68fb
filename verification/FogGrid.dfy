/** One faction's fog of war: a square grid of cells, lit by circular sensor footprints. */
module FogGrids {

  const FOG_MIN: real := -500.0
  const FOG_MAX: real := 500.0
  const FOG_EDGE: real := 499.999
  const FOG_CELL_SIZE: real := 10.0
  const FOG_GRID_WIDTH: nat := 100
  const FOG_TOTAL_CELLS: nat := 10000

  datatype KnowledgeState = Unexplored | Explored | Visible {
    predicate IsExplored() {
      Explored? || Visible?
    }
  }

  datatype Position = Position(x: real, y: real, z: real)

  datatype Sensor = Sensor(position: Position, radius: real)

  /** The contents of a grid, row by row. */
  type Cells = c: seq<KnowledgeState> | |c| == FOG_TOTAL_CELLS witness seq(FOG_TOTAL_CELLS, _ => Unexplored)

  function Index(cx: nat, cz: nat): nat {
    cz * FOG_GRID_WIDTH + cx
  }

  function Column(i: nat): nat {
    i % FOG_GRID_WIDTH
  }

  function Row(i: nat): nat {
    i / FOG_GRID_WIDTH
  }

  lemma IndexLaw(i: nat)
    requires i < FOG_TOTAL_CELLS
    ensures Column(i) < FOG_GRID_WIDTH && Row(i) < FOG_GRID_WIDTH && Index(Column(i), Row(i)) == i
  {
  }

  lemma CellLaw(cx: nat, cz: nat)
    requires cx < FOG_GRID_WIDTH && cz < FOG_GRID_WIDTH
    ensures Index(cx, cz) < FOG_TOTAL_CELLS && Column(Index(cx, cz)) == cx && Row(Index(cx, cz)) == cz
  {
  }

  /** The coordinate of a cell's centre along either axis. */
  function Center(c: nat): real {
    FOG_MIN + (c as real + 0.5) * FOG_CELL_SIZE
  }

  function Square(x: real): real {
    x * x
  }

  /** Whether a point of the plane lies within a sensor's circle. */
  predicate InRange(s: Sensor, x: real, z: real) {
    Square(x - s.position.x) + Square(z - s.position.z) <= Square(s.radius)
  }

  /** The footprint on the grid: cells whose centre is in range of a sensor that has a range at all. */
  predicate Covers(s: Sensor, i: nat) {
    s.radius > 0.0 && InRange(s, Center(Column(i)), Center(Row(i)))
  }

  function WorldToCell(x: real, z: real): (cell: (bool, nat, nat))
    ensures cell.0 <==> FOG_MIN <= x < FOG_MAX && FOG_MIN <= z < FOG_MAX
    ensures cell.0 ==> cell.1 < FOG_GRID_WIDTH && cell.2 < FOG_GRID_WIDTH
  {
    if !(FOG_MIN <= x < FOG_MAX) || !(FOG_MIN <= z < FOG_MAX) then (false, 0, 0)
    else
      var cx, cz := ((x - FOG_MIN) / FOG_CELL_SIZE).Floor, ((z - FOG_MIN) / FOG_CELL_SIZE).Floor;
      (true, cx, cz)
  }

  /** A cell holds exactly the points within half a cell of its centre, lower edge included. */
  lemma CellHolds(x: real, z: real)
    requires WorldToCell(x, z).0
    ensures var (_, cx, cz) := WorldToCell(x, z);
      && -5.0 <= x - Center(cx) < 5.0 && -5.0 <= z - Center(cz) < 5.0
  {
    FloorBounds((x - FOG_MIN) / FOG_CELL_SIZE);
    FloorBounds((z - FOG_MIN) / FOG_CELL_SIZE);
  }

  lemma FloorBounds(r: real)
    ensures r.Floor as real <= r < r.Floor as real + 1.0
  {
  }

  lemma CenterRoundTrip(cx: nat, cz: nat)
    requires cx < FOG_GRID_WIDTH && cz < FOG_GRID_WIDTH
    ensures WorldToCell(Center(cx), Center(cz)) == (true, cx, cz)
  {
    FloorOfHalf(cx);
    FloorOfHalf(cz);
    assert (Center(cx) - FOG_MIN) / FOG_CELL_SIZE == cx as real + 0.5;
    assert (Center(cz) - FOG_MIN) / FOG_CELL_SIZE == cz as real + 0.5;
  }

  lemma FloorOfHalf(c: nat)
    ensures (c as real + 0.5).Floor == c
  {
  }

  // ---------------------------------------------------------------- what a tick does to a grid

  function Demote(k: KnowledgeState): KnowledgeState {
    if k == Visible then Explored else k
  }

  function Demoted(cells: Cells): Cells {
    seq(FOG_TOTAL_CELLS, i requires 0 <= i < FOG_TOTAL_CELLS => Demote(cells[i]))
  }

  /** A stamp by full scan. */
  function Stamp(cells: Cells, s: Sensor): Cells {
    seq(FOG_TOTAL_CELLS, i requires 0 <= i < FOG_TOTAL_CELLS => if Covers(s, i) then Visible else cells[i])
  }

  function StampAll(cells: Cells, sensors: seq<Sensor>): Cells {
    if sensors == [] then cells else Stamp(StampAll(cells, sensors[..|sensors| - 1]), sensors[|sensors| - 1])
  }

  function Frame(cells: Cells, sensors: seq<Sensor>): Cells {
    StampAll(Demoted(cells), sensors)
  }

  ghost predicate Covered(sensors: seq<Sensor>, i: nat) {
    exists s :: s in sensors && Covers(s, i)
  }

  lemma {:induction false} StampAllLaw(cells: Cells, sensors: seq<Sensor>, i: nat)
    requires i < FOG_TOTAL_CELLS
    ensures StampAll(cells, sensors)[i] == if Covered(sensors, i) then Visible else cells[i]
  {
    hide Covers;
    if sensors == [] {
    } else {
      var before, last := sensors[..|sensors| - 1], sensors[|sensors| - 1];
      StampAllLaw(cells, before, i);
      assert sensors == before + [last];
      if Covered(before, i) {
        var s :| s in before && Covers(s, i);
        assert s in sensors;
      }
      if Covered(sensors, i) && !Covers(last, i) {
        var s :| s in sensors && Covers(s, i);
        assert s in before;
      }
    }
  }

  /**
   After a tick a cell is visible exactly when its centre is in some sensor's range, in whatever order
   they were stamped.
   */
  lemma VisibleIffCovered(cells: Cells, sensors: seq<Sensor>, i: nat)
    requires i < FOG_TOTAL_CELLS
    ensures Frame(cells, sensors)[i] == Visible <==> Covered(sensors, i)
    ensures Frame(cells, sensors)[i].IsExplored() <==> Covered(sensors, i) || cells[i].IsExplored()
  {
    hide Covered;
    StampAllLaw(Demoted(cells), sensors, i);
  }

  function PositionState(cells: Cells, x: real, z: real): KnowledgeState {
    var (inside, cx, cz) := WorldToCell(x, z);
    if inside then CellLaw(cx, cz); cells[Index(cx, cz)] else Unexplored
  }

  lemma StampOrderIsIrrelevant(cells: Cells, a: seq<Sensor>, b: seq<Sensor>)
    requires forall s :: s in a <==> s in b
    ensures Frame(cells, a) == Frame(cells, b)
  {
    hide Covers, StampAll;
    forall i: nat | i < FOG_TOTAL_CELLS ensures Frame(cells, a)[i] == Frame(cells, b)[i] {
      StampAllLaw(Demoted(cells), a, i);
      StampAllLaw(Demoted(cells), b, i);
      assert Covered(a, i) == Covered(b, i);
    }
  }

  // ---------------------------------------------------------------- runs

  function Shroud(): Cells {
    seq(FOG_TOTAL_CELLS, _ => Unexplored)
  }

  /** The grid after a run of ticks, each with its sensors. */
  function History(ticks: seq<seq<Sensor>>): Cells {
    if ticks == [] then Shroud() else Frame(History(ticks[..|ticks| - 1]), ticks[|ticks| - 1])
  }

  /** Fog never forgets: a cell is explored exactly when some tick so far covered it. */
  lemma {:induction false} ExploredIffEverCovered(ticks: seq<seq<Sensor>>, i: nat)
    requires i < FOG_TOTAL_CELLS
    ensures History(ticks)[i].IsExplored() <==> exists t :: 0 <= t < |ticks| && Covered(ticks[t], i)
    ensures History(ticks)[i] == Visible <==> ticks != [] && Covered(ticks[|ticks| - 1], i)
  {
    hide Covered;
    if ticks == [] {
    } else {
      var before := ticks[..|ticks| - 1];
      ExploredIffEverCovered(before, i);
      VisibleIffCovered(History(before), ticks[|ticks| - 1], i);
      assert forall t :: 0 <= t < |before| ==> before[t] == ticks[t];
    }
  }

  // ---------------------------------------------------------------- the clipped box

  function Max(a: real, b: real): real {
    if a >= b then a else b
  }

  function MinReal(a: real, b: real): real {
    if a <= b then a else b
  }

  /** Along one axis: the first and the last cell that the loops visit. */
  function First(low: real): int {
    ((low - FOG_MIN) / FOG_CELL_SIZE).Floor
  }

  function Last(high: real): int {
    var c := ((high - FOG_MIN) / FOG_CELL_SIZE).Floor;
    if c <= FOG_GRID_WIDTH - 1 then c else FOG_GRID_WIDTH - 1
  }

  /** A coordinate within range of a positive radius lies between the two ends. */
  lemma WithinRadius(d: real, other: real, r: real)
    requires r > 0.0 && Square(d) + Square(other) <= Square(r)
    ensures -r <= d <= r
  {
    assert Square(other) >= 0.0;
    assert Square(-d) == Square(d);
    if d > r {
      SquareGrows(r, d);
    } else if d < -r {
      SquareGrows(r, -d);
    }
  }

  lemma SquareGrows(a: real, b: real)
    requires 0.0 < a < b
    ensures Square(a) < Square(b)
  {
    assert a * a < a * b;
    assert a * b < b * b;
  }

  /** No cell whose centre is in range along an axis lies outside the clipped box. */
  lemma ClippingIsExact(center: real, r: real, c: nat)
    requires r > 0.0 && c < FOG_GRID_WIDTH
    requires -r <= Center(c) - center <= r
    ensures var low, high := Max(center - r, FOG_MIN), MinReal(center + r, FOG_EDGE);
      low <= high && 0 <= First(low) <= c <= Last(high)
  {
    var low, high := Max(center - r, FOG_MIN), MinReal(center + r, FOG_EDGE);
    assert FOG_MIN < Center(c) <= 495.0 by {
      assert c as real <= 99.0;
    }
    assert low <= Center(c) <= high;
    FloorBelow((low - FOG_MIN) / FOG_CELL_SIZE, c);
    FloorAbove((high - FOG_MIN) / FOG_CELL_SIZE, c);
  }

  lemma FloorBelow(r: real, c: nat)
    requires 0.0 <= r <= c as real + 0.5
    ensures 0 <= r.Floor <= c
  {
  }

  lemma FloorAbove(r: real, c: nat)
    requires c as real + 0.5 <= r
    ensures c <= r.Floor
  {
  }

  // ---------------------------------------------------------------- the grid

  class FogGrid {
    const cells: array<KnowledgeState>

    ghost predicate Valid() {
      cells.Length == FOG_TOTAL_CELLS
    }

    ghost function Contents(): Cells
      requires Valid()
      reads cells
    {
      cells[..]
    }

    constructor ()
      ensures Valid() && fresh(cells) && Contents() == Shroud()
    {
      cells := new KnowledgeState[FOG_TOTAL_CELLS](_ => Unexplored);
    }

    /** What was visible is now remembered. */
    method BeginTick()
      requires Valid()
      modifies cells
      ensures Contents() == Demoted(old(Contents()))
    {
      for i := 0 to cells.Length
        invariant forall j :: 0 <= j < i ==> cells[j] == Demote(old(cells[j]))
        invariant forall j :: i <= j < cells.Length ==> cells[j] == old(cells[j])
      {
        if cells[i] == Visible {
          cells[i] := Explored;
        }
      }
    }

    /** One row of the box. */
    method StampRow(s: Sensor, cz: nat, startX: nat, endX: nat)
      requires Valid() && cz < FOG_GRID_WIDTH && endX < FOG_GRID_WIDTH
      modifies cells
      ensures forall i: nat :: i < FOG_TOTAL_CELLS ==>
                cells[i] == if Row(i) == cz && startX <= Column(i) <= endX &&
                    InRange(s, Center(Column(i)), Center(Row(i)))
                            then Visible else old(cells[i])
    {
      hide InRange, Center;
      if startX > endX {
        return;
      }
      for cx := startX to endX + 1
        invariant forall i: nat :: i < FOG_TOTAL_CELLS ==>
                    cells[i] == if Row(i) == cz && startX <= Column(i) < cx &&
                        InRange(s, Center(Column(i)), Center(Row(i)))
                                then Visible else old(cells[i])
      {
        CellLaw(cx, cz);
        if InRange(s, Center(cx), Center(cz)) {
          cells[Index(cx, cz)] := Visible;
        }
      }
    }

    method StampBox(s: Sensor, startX: nat, endX: nat, startZ: nat, endZ: nat)
      requires Valid() && startZ <= endZ < FOG_GRID_WIDTH && endX < FOG_GRID_WIDTH
      modifies cells
      ensures forall i: nat :: i < FOG_TOTAL_CELLS ==>
                cells[i] == if startZ <= Row(i) <= endZ && startX <= Column(i) <= endX &&
                               InRange(s, Center(Column(i)), Center(Row(i)))
                            then Visible else old(cells[i])
    {
      hide InRange, Center, Row, Column;
      for cz := startZ to endZ + 1
        invariant forall i: nat :: i < FOG_TOTAL_CELLS ==>
                    cells[i] == if startZ <= Row(i) < cz && startX <= Column(i) <= endX &&
                                   InRange(s, Center(Column(i)), Center(Row(i)))
                                then Visible else old(cells[i])
      {
        StampRow(s, cz, startX, endX);
      }
    }

    /** The clipped bounding box marks exactly what a scan of the whole grid would. */
    method StampSensor(s: Sensor)
      requires Valid()
      modifies cells
      ensures Contents() == Stamp(old(Contents()), s)
    {
      hide Center, InRange, First, Last;
      if s.radius <= 0.0 {
        return;
      }
      ghost var before := Contents();
      var minX := Max(s.position.x - s.radius, FOG_MIN);
      var maxX := MinReal(s.position.x + s.radius, FOG_EDGE);
      var minZ := Max(s.position.z - s.radius, FOG_MIN);
      var maxZ := MinReal(s.position.z + s.radius, FOG_EDGE);
      forall i: nat | i < FOG_TOTAL_CELLS && Covers(s, i) ensures InBox(s, i) {
        CoveredInBox(s, i);
      }
      if minX > maxX || minZ > maxZ {
        return;
      }
      BoxIsOnGrid(minX, maxX);
      BoxIsOnGrid(minZ, maxZ);
      StampBox(s, First(minX), Last(maxX), First(minZ), Last(maxZ));
    }
  }

  /** The cell is one that the clipped loops visit. */
  ghost predicate InBox(s: Sensor, i: nat) {
    var minX, maxX := Max(s.position.x - s.radius, FOG_MIN), MinReal(s.position.x + s.radius, FOG_EDGE);
    var minZ, maxZ := Max(s.position.z - s.radius, FOG_MIN), MinReal(s.position.z + s.radius, FOG_EDGE);
    && minX <= maxX && minZ <= maxZ
    && First(minX) <= Column(i) <= Last(maxX)
    && First(minZ) <= Row(i) <= Last(maxZ)
  }

  lemma CoveredInBox(s: Sensor, i: nat)
    requires i < FOG_TOTAL_CELLS && Covers(s, i)
    ensures InBox(s, i)
  {
    hide First, Last, Center, Max, MinReal, Square;
    IndexLaw(i);
    var dx, dz := Center(Column(i)) - s.position.x, Center(Row(i)) - s.position.z;
    WithinRadius(dx, dz, s.radius);
    WithinRadius(dz, dx, s.radius);
    ClippingIsExact(s.position.x, s.radius, Column(i));
    ClippingIsExact(s.position.z, s.radius, Row(i));
  }

  lemma BoxIsOnGrid(low: real, high: real)
    requires FOG_MIN <= low <= high <= FOG_EDGE
    ensures 0 <= First(low) <= Last(high) < FOG_GRID_WIDTH
  {
    FloorMonotone((low - FOG_MIN) / FOG_CELL_SIZE, (high - FOG_MIN) / FOG_CELL_SIZE);
  }

  lemma FloorMonotone(a: real, b: real)
    requires 0.0 <= a <= b < 100.0
    ensures 0 <= a.Floor <= b.Floor <= 99
  {
  }
}
