/**
 * The simulator's navigation grid: the robot's 3x3 footprint and its centre and camera
 * cells, the per-cell classification of the grid with its trail of visited centres, the
 * obstacle click actions, and the axis labels.
 */
module GridCreation {
  import opened Wrappers
  import opened Robot

  /** The robot body is 3 cells by 3 cells. */
  const RobotGridWidth: int := 3
  const RobotGridHeight: int := 3

  /** `isRobotCell`: the inclusive 3x3 box, placed from the anchor by direction group; never for an unknown heading. */
  predicate IsRobotCell(dir: Direction, anchor: Pose, c: Cell)
  {
    match dir
    case N | NorthEast | NorthWest =>
      anchor.x <= c.x <= anchor.x + (RobotGridWidth - 1) && anchor.y <= c.y <= anchor.y + (RobotGridHeight - 1)
    case S | SouthEast | SouthWest =>
      anchor.x - (RobotGridWidth - 1) <= c.x <= anchor.x && anchor.y - (RobotGridHeight - 1) <= c.y <= anchor.y
    case E =>
      anchor.x <= c.x <= anchor.x + (RobotGridWidth - 1) && anchor.y - (RobotGridHeight - 1) <= c.y <= anchor.y
    case W =>
      anchor.x - (RobotGridWidth - 1) <= c.x <= anchor.x && anchor.y <= c.y <= anchor.y + (RobotGridHeight - 1)
    case Unknown => false
  }

  /** `convertRobotThetaToCenterOffsetBlock`: from the anchor corner to the middle of the body. */
  function CenterOffset(dir: Direction): Offset
  {
    match dir
    case N | NorthEast | NorthWest => Offset(1, 1)
    case S | SouthEast | SouthWest => Offset(-1, -1)
    case E => Offset(1, -1)
    case W => Offset(-1, 1)
    case Unknown => Offset(0, 0)
  }

  /** `convertRobotThetaToCameraOffsetBlock`: from the anchor corner to the camera cell. */
  function CameraOffset(dir: Direction): Offset
  {
    match dir
    case E => Offset(2, -1)
    case N => Offset(1, 2)
    case W => Offset(-2, 1)
    case S => Offset(-1, -2)
    case NorthEast => Offset(2, 2)
    case NorthWest => Offset(0, 2)
    case SouthEast => Offset(0, -2)
    case SouthWest => Offset(-2, -2)
    case Unknown => Offset(0, 0)
  }

  function Centre(dir: Direction, anchor: Pose): Cell
  {
    Shift(CellOf(anchor), CenterOffset(dir))
  }

  function Camera(dir: Direction, anchor: Pose): Cell
  {
    Shift(CellOf(anchor), CameraOffset(dir))
  }

  /** For every known heading the footprint is exactly the cells within one step (on each axis) of the centre. */
  lemma FootprintAroundCentre(dir: Direction, anchor: Pose, c: Cell)
    requires dir != Unknown
    ensures IsRobotCell(dir, anchor, c) <==>
      Abs(c.x - Centre(dir, anchor).x) <= 1 && Abs(c.y - Centre(dir, anchor).y) <= 1
  {
  }

  /** The centre and the camera are in the footprint; the camera is one step from the centre along the heading. */
  lemma CameraAheadOfCentre(dir: Direction, anchor: Pose)
    requires dir != Unknown
    ensures IsRobotCell(dir, anchor, Centre(dir, anchor))
    ensures IsRobotCell(dir, anchor, Camera(dir, anchor))
    ensures Camera(dir, anchor) == Shift(Centre(dir, anchor), Heading(dir))
    ensures Camera(dir, anchor) != Centre(dir, anchor)
  {
  }

  /** An unknown heading occupies no cell. */
  lemma UnknownHasNoFootprint(anchor: Pose, c: Cell)
    ensures !IsRobotCell(Unknown, anchor, c)
  {
  }

  /** The nine cells around the centre, row by row. */
  function FootprintCells(dir: Direction, anchor: Pose): (cs: seq<Cell>)
    ensures |cs| == 9
  {
    var m := Centre(dir, anchor);
    seq(9, k => Cell(m.x + k % 3 - 1, m.y + k / 3 - 1))
  }

  /** The footprint of a known heading has exactly nine distinct cells. */
  lemma FootprintHasNineCells(dir: Direction, anchor: Pose)
    requires dir != Unknown
    ensures forall i, j :: 0 <= i < j < 9 ==> FootprintCells(dir, anchor)[i] != FootprintCells(dir, anchor)[j]
    ensures forall c: Cell :: IsRobotCell(dir, anchor, c) <==> c in FootprintCells(dir, anchor)
  {
    var cs := FootprintCells(dir, anchor);
    var m := Centre(dir, anchor);
    forall c: Cell
      ensures IsRobotCell(dir, anchor, c) <==> c in cs
    {
      FootprintAroundCentre(dir, anchor, c);
      if IsRobotCell(dir, anchor, c) {
        var k := (c.y - m.y + 1) * 3 + (c.x - m.x + 1);
        assert cs[k] == c;
      }
    }
  }

  /** JavaScript's `%`: the remainder takes the sign of the dividend. */
  function JsRemainder(a: int, b: int): (r: int)
    requires b > 0
    ensures a >= 0 ==> 0 <= r < b
    ensures a < 0 ==> -b < r <= 0
  {
    if a >= 0 then a % b else -((-a) % b)
  }

  /** The direction an obstacle click requests: `(d % 4) + 1`. */
  function NextObstacleDirection(d: int): int
  {
    JsRemainder(d, 4) + 1
  }

  /** On the codes 1..4 a click cycles 1 -> 2 -> 3 -> 4 -> 1: it stays in range and returns after exactly four clicks. */
  lemma ObstacleDirectionCycle(d: int)
    requires 1 <= d <= 4
    ensures 1 <= NextObstacleDirection(d) <= 4
    ensures NextObstacleDirection(d) == (if d == 4 then 1 else d + 1)
    ensures NextObstacleDirection(NextObstacleDirection(NextObstacleDirection(NextObstacleDirection(d)))) == d
    ensures NextObstacleDirection(d) != d
    ensures NextObstacleDirection(NextObstacleDirection(d)) != d
    ensures NextObstacleDirection(NextObstacleDirection(NextObstacleDirection(d))) != d
  {
  }

  /** Any non-negative code is sent into 1..4 by one click. */
  lemma ObstacleDirectionInRange(d: int)
    requires d >= 0
    ensures 1 <= NextObstacleDirection(d) <= 4
  {
  }

  /** An obstacle of the course: id, cell and facing code. */
  datatype Obstacle = Obstacle(id: int, x: int, y: int, d: int)

  /** `obstacles.find(o => o.x === x && o.y === y)`. */
  function FirstObstacleAt(obstacles: seq<Obstacle>, c: Cell): (r: Option<Obstacle>)
    ensures r.None? <==> forall k :: 0 <= k < |obstacles| ==> !(obstacles[k].x == c.x && obstacles[k].y == c.y)
    ensures r.Some? ==>
      exists k :: (0 <= k < |obstacles| && obstacles[k] == r.value && r.value.x == c.x && r.value.y == c.y
                   && forall j :: 0 <= j < k ==> !(obstacles[j].x == c.x && obstacles[j].y == c.y))
  {
    if obstacles == [] then None
    else if obstacles[0].x == c.x && obstacles[0].y == c.y then Some(obstacles[0])
    else
      var r := FirstObstacleAt(obstacles[1..], c);
      if r.Some? then
        var k :| 0 <= k < |obstacles[1..]| && obstacles[1..][k] == r.value
          && r.value.x == c.x && r.value.y == c.y
          && forall j :: 0 <= j < k ==> !(obstacles[1..][j].x == c.x && obstacles[1..][j].y == c.y);
        assert obstacles[k + 1] == r.value;
        r
      else r
  }

  /**
   * What a grid cell shows. Clickable cells carry the direction code their click requests:
   * an obstacle asks for its next direction, an empty cell for a new obstacle facing 1.
   */
  datatype CellKind =
    | RobotCenter
    | RobotCamera
    | RobotBody
    | TurnCell
    | ObstacleCell(facing: int, onClick: Option<int>)
    | VisitedCenter
    | EmptyCell(onClick: Option<int>)

  datatype GridCell = GridCell(at: Cell, kind: CellKind)

  /** A footprint cell shown as a centre: the live centre, or a centre recorded earlier. */
  predicate IsCenterCell(dir: Direction, robot: Pose, trail: seq<Cell>, c: Cell)
  {
    IsRobotCell(dir, robot, c) && (c == Centre(dir, robot) || c in trail)
  }

  /** The first matching class of a cell: robot (centre, camera, body), turning path, obstacle, visited centre, empty. */
  function Classify(dir: Direction, robot: Pose, turningPath: seq<Cell>, obstacles: seq<Obstacle>,
                    canAddObstacle: bool, trail: seq<Cell>, c: Cell): CellKind
  {
    if IsRobotCell(dir, robot, c) then
      if IsCenterCell(dir, robot, trail, c) then RobotCenter
      else if c == Camera(dir, robot) then RobotCamera
      else RobotBody
    else if c in turningPath then TurnCell
    else if FirstObstacleAt(obstacles, c).Some? then
      var d := FirstObstacleAt(obstacles, c).value.d;
      ObstacleCell(d, if canAddObstacle then Some(NextObstacleDirection(d)) else None)
    else if c in trail then VisitedCenter
    else EmptyCell(if canAddObstacle then Some(1) else None)
  }

  /** The centres recorded while scanning row y from x = 0 up to (not including) n. */
  /** Every cell of cs lies in rows lo..hi-1 and columns 0..width-1. */
  predicate WithinRows(cs: seq<Cell>, lo: int, hi: int, width: int)
  {
    forall i :: 0 <= i < |cs| ==> lo <= cs[i].y < hi && 0 <= cs[i].x < width
  }

  function RowCenters(dir: Direction, robot: Pose, trail: seq<Cell>, y: int, n: int): (cs: seq<Cell>)
    ensures WithinRows(cs, y, y + 1, n)
    decreases if n < 0 then 0 else n
  {
    if n <= 0 then []
    else
      RowCenters(dir, robot, trail, y, n - 1)
      + (if IsCenterCell(dir, robot, trail, Cell(n - 1, y)) then [Cell(n - 1, y)] else [])
  }

  /** The centres recorded while scanning the top k rows (y = height-1 down to height-k) of a width-wide grid. */
  function TopRowsCenters(dir: Direction, robot: Pose, trail: seq<Cell>, width: int, height: int, k: nat): (cs: seq<Cell>)
    ensures WithinRows(cs, height - k, height, width)
  {
    if k == 0 then []
    else
      var above := TopRowsCenters(dir, robot, trail, width, height, k - 1);
      var row := RowCenters(dir, robot, trail, height - k, width);
      above + row
  }

  /** The caller's list of visited centres, which classification appends to in place. */
  class CenterTrail {
    var cells: seq<Cell>

    constructor (initial: seq<Cell>)
      ensures cells == initial
    {
      cells := initial;
    }
  }

  /** Row k of the grid holds y = height-1-k, and x increases along the row. */
  predicate LaidOut(grid: seq<seq<GridCell>>, width: int, height: int)
  {
    && |grid| == (if height < 0 then 0 else height)
    && (forall k :: 0 <= k < |grid| ==> |grid[k]| == (if width < 0 then 0 else width))
    && (forall k, j :: 0 <= k < |grid| && 0 <= j < |grid[k]| ==> grid[k][j].at == Cell(j, height - 1 - k))
  }

  /** The body of the classification loop for cell (x, y): its kind, and the trail extended when it shows a centre. */
  method ClassifyCell(robot: Pose, dirOf: real -> Direction, turningPath: seq<Cell>, obstacles: seq<Obstacle>,
                      canAddObstacle: bool, trail: CenterTrail, x: int, y: int, ghost trail0: seq<Cell>)
    returns (cell: GridCell)
    requires Cell(x, y) in trail.cells <==> Cell(x, y) in trail0
    modifies trail
    ensures cell == GridCell(Cell(x, y), Classify(dirOf(robot.theta), robot, turningPath, obstacles, canAddObstacle, trail0, Cell(x, y)))
    ensures trail.cells == old(trail.cells)
      + if IsCenterCell(dirOf(robot.theta), robot, trail0, Cell(x, y)) then [Cell(x, y)] else []
  {
    var c := Cell(x, y);
    var kind;
    if IsRobotCell(dirOf(robot.theta), robot, c) {
      var off := CenterOffset(dirOf(robot.theta));
      var centerX := robot.x + off.dx;
      var centerY := robot.y + off.dy;
      var isCenter := (x == centerX && y == centerY) || c in trail.cells;
      if isCenter {
        trail.cells := trail.cells + [c];
      }
      var cam := CameraOffset(dirOf(robot.theta));
      var isCamera := x == robot.x + cam.dx && y == robot.y + cam.dy;
      kind := if isCenter then RobotCenter else if isCamera then RobotCamera else RobotBody;
    } else if c in turningPath {
      kind := TurnCell;
    } else if FirstObstacleAt(obstacles, c).Some? {
      var d := FirstObstacleAt(obstacles, c).value.d;
      kind := ObstacleCell(d, if canAddObstacle then Some(NextObstacleDirection(d)) else None);
    } else if c in trail.cells {
      kind := VisitedCenter;
    } else {
      kind := EmptyCell(if canAddObstacle then Some(1) else None);
    }
    cell := GridCell(c, kind);
  }

  /** Entry j of row y is cell (j, y) with its first matching class against trail. */
  predicate CellClassified(row: seq<GridCell>, j: int, y: int, dir: Direction, robot: Pose, turningPath: seq<Cell>,
                           obstacles: seq<Obstacle>, canAddObstacle: bool, trail: seq<Cell>)
  {
    0 <= j < |row|
    && row[j] == GridCell(Cell(j, y), Classify(dir, robot, turningPath, obstacles, canAddObstacle, trail, Cell(j, y)))
  }

  /** Row y as classified against trail: width cells, x increasing, each with its first matching class. */
  predicate RowClassified(row: seq<GridCell>, y: int, width: int, dir: Direction, robot: Pose, turningPath: seq<Cell>,
                          obstacles: seq<Obstacle>, canAddObstacle: bool, trail: seq<Cell>)
  {
    && |row| == (if width < 0 then 0 else width)
    && forall j :: 0 <= j < |row| ==> CellClassified(row, j, y, dir, robot, turningPath, obstacles, canAddObstacle, trail)
  }

  lemma KeepCell(row: seq<GridCell>, cell: GridCell, j: int, y: int, dir: Direction, robot: Pose, turningPath: seq<Cell>,
                 obstacles: seq<Obstacle>, canAddObstacle: bool, trail: seq<Cell>)
    requires CellClassified(row, j, y, dir, robot, turningPath, obstacles, canAddObstacle, trail)
    ensures CellClassified(row + [cell], j, y, dir, robot, turningPath, obstacles, canAddObstacle, trail)
  {
  }

  lemma NewCell(row: seq<GridCell>, cell: GridCell, y: int, dir: Direction, robot: Pose, turningPath: seq<Cell>,
                obstacles: seq<Obstacle>, canAddObstacle: bool, trail: seq<Cell>)
    requires cell == GridCell(Cell(|row|, y), Classify(dir, robot, turningPath, obstacles, canAddObstacle, trail, Cell(|row|, y)))
    ensures CellClassified(row + [cell], |row|, y, dir, robot, turningPath, obstacles, canAddObstacle, trail)
  {
  }

  /** Appending the classified cell x to the first x cells of row y gives the first x + 1. */
  lemma ExtendRow(row: seq<GridCell>, cell: GridCell, y: int, dir: Direction, robot: Pose, turningPath: seq<Cell>,
                  obstacles: seq<Obstacle>, canAddObstacle: bool, trail: seq<Cell>)
    requires forall j :: 0 <= j < |row| ==> CellClassified(row, j, y, dir, robot, turningPath, obstacles, canAddObstacle, trail)
    requires cell == GridCell(Cell(|row|, y), Classify(dir, robot, turningPath, obstacles, canAddObstacle, trail, Cell(|row|, y)))
    ensures forall j :: 0 <= j < |row| + 1 ==>
      CellClassified(row + [cell], j, y, dir, robot, turningPath, obstacles, canAddObstacle, trail)
  {
    forall j | 0 <= j < |row| + 1
      ensures CellClassified(row + [cell], j, y, dir, robot, turningPath, obstacles, canAddObstacle, trail)
    {
      if j < |row| {
        KeepCell(row, cell, j, y, dir, robot, turningPath, obstacles, canAddObstacle, trail);
      } else {
        NewCell(row, cell, y, dir, robot, turningPath, obstacles, canAddObstacle, trail);
      }
    }
  }

  /** Row k of the grid is row y = height-1-k classified against trail. */
  predicate RowAt(grid: seq<seq<GridCell>>, k: int, width: int, height: int, dir: Direction, robot: Pose,
                  turningPath: seq<Cell>, obstacles: seq<Obstacle>, canAddObstacle: bool, trail: seq<Cell>)
  {
    0 <= k < |grid| && RowClassified(grid[k], height - 1 - k, width, dir, robot, turningPath, obstacles, canAddObstacle, trail)
  }

  lemma KeepRow(grid: seq<seq<GridCell>>, row: seq<GridCell>, k: int, width: int, height: int, dir: Direction, robot: Pose,
                turningPath: seq<Cell>, obstacles: seq<Obstacle>, canAddObstacle: bool, trail: seq<Cell>)
    requires RowAt(grid, k, width, height, dir, robot, turningPath, obstacles, canAddObstacle, trail)
    ensures RowAt(grid + [row], k, width, height, dir, robot, turningPath, obstacles, canAddObstacle, trail)
  {
    assert (grid + [row])[k] == grid[k];
  }

  lemma NewRow(grid: seq<seq<GridCell>>, row: seq<GridCell>, width: int, height: int, dir: Direction, robot: Pose,
               turningPath: seq<Cell>, obstacles: seq<Obstacle>, canAddObstacle: bool, trail: seq<Cell>)
    requires RowClassified(row, height - 1 - |grid|, width, dir, robot, turningPath, obstacles, canAddObstacle, trail)
    ensures RowAt(grid + [row], |grid|, width, height, dir, robot, turningPath, obstacles, canAddObstacle, trail)
  {
    assert (grid + [row])[|grid|] == row;
  }

  /** Appending row y = height-1-k, classified, to the first k rows gives the first k + 1. */
  lemma ExtendGrid(grid: seq<seq<GridCell>>, row: seq<GridCell>, grid': seq<seq<GridCell>>, width: int, height: int,
                   dir: Direction, robot: Pose, turningPath: seq<Cell>, obstacles: seq<Obstacle>, canAddObstacle: bool,
                   trail: seq<Cell>)
    requires forall k :: 0 <= k < |grid| ==> RowAt(grid, k, width, height, dir, robot, turningPath, obstacles, canAddObstacle, trail)
    requires RowClassified(row, height - 1 - |grid|, width, dir, robot, turningPath, obstacles, canAddObstacle, trail)
    requires grid' == grid + [row]
    ensures forall k :: 0 <= k < |grid'| ==> RowAt(grid', k, width, height, dir, robot, turningPath, obstacles, canAddObstacle, trail)
  {
    forall k | 0 <= k < |grid'|
      ensures RowAt(grid', k, width, height, dir, robot, turningPath, obstacles, canAddObstacle, trail)
    {
      if k < |grid| {
        KeepRow(grid, row, k, width, height, dir, robot, turningPath, obstacles, canAddObstacle, trail);
      } else {
        NewRow(grid, row, width, height, dir, robot, turningPath, obstacles, canAddObstacle, trail);
      }
    }
  }

  /** Scanning row y records that row's centres after those of the n = height-1-y rows above it. */
  lemma TopRowsStep(dir: Direction, robot: Pose, trail0: seq<Cell>, width: int, height: int, y: int, n: nat, n': nat,
                    before: seq<Cell>, after: seq<Cell>)
    requires 0 <= y < height && n == height - 1 - y && n' == n + 1
    requires before == trail0 + TopRowsCenters(dir, robot, trail0, width, height, n)
    requires after == before + RowCenters(dir, robot, trail0, y, width)
    ensures after == trail0 + TopRowsCenters(dir, robot, trail0, width, height, n')
  {
    var above := TopRowsCenters(dir, robot, trail0, width, height, n);
    var row := RowCenters(dir, robot, trail0, y, width);
    assert TopRowsCenters(dir, robot, trail0, width, height, n') == above + row;
    ConcatAssoc(trail0, above, row);
  }

  lemma ConcatAssoc(a: seq<Cell>, b: seq<Cell>, c: seq<Cell>)
    ensures (a + b) + c == a + (b + c)
  {
  }

  /** The cells recorded for the rows above y leave membership of row y's cells in the trail unchanged. */
  /** On row y, the cells in `cells` are exactly those in `trail0`. */
  ghost predicate SameOnRow(cells: seq<Cell>, trail0: seq<Cell>, y: int)
  {
    forall c: Cell :: c.y == y ==> (c in cells <==> c in trail0)
  }

  lemma TrailRowUntouched(dir: Direction, robot: Pose, trail0: seq<Cell>, width: int, height: int, y: int)
    requires 0 <= y < height
    ensures SameOnRow(trail0 + TopRowsCenters(dir, robot, trail0, width, height, height - 1 - y), trail0, y)
  {
  }

  /** The inner loop of `createHTMLGrid`: row y, from x = 0 to width-1. */
  method CreateRow(robot: Pose, dirOf: real -> Direction, turningPath: seq<Cell>, obstacles: seq<Obstacle>,
                   canAddObstacle: bool, trail: CenterTrail, y: int, width: int, ghost trail0: seq<Cell>)
    returns (row: seq<GridCell>)
    requires SameOnRow(trail.cells, trail0, y)
    modifies trail
    ensures RowClassified(row, y, width, dirOf(robot.theta), robot, turningPath, obstacles, canAddObstacle, trail0)
    ensures trail.cells == old(trail.cells) + RowCenters(dirOf(robot.theta), robot, trail0, y, width)
  {
    ghost var dir := dirOf(robot.theta);
    ghost var before := trail.cells;
    row := [];
    var x := 0;
    while x < width
      invariant 0 <= x && (width >= 0 ==> x <= width) && (width < 0 ==> x == 0)
      invariant |row| == x
      invariant forall j :: 0 <= j < x ==> CellClassified(row, j, y, dir, robot, turningPath, obstacles, canAddObstacle, trail0)
      invariant trail.cells == before + RowCenters(dir, robot, trail0, y, x)
    {
      assert Cell(x, y) in trail.cells <==> Cell(x, y) in before;
      assert Cell(x, y) in before <==> Cell(x, y) in trail0;
      var cell := ClassifyCell(robot, dirOf, turningPath, obstacles, canAddObstacle, trail, x, y, trail0);
      ExtendRow(row, cell, y, dir, robot, turningPath, obstacles, canAddObstacle, trail0);
      row := row + [cell];
      x := x + 1;
    }
    assert RowCenters(dir, robot, trail0, y, x) == RowCenters(dir, robot, trail0, y, width);
  }

  /**
   * `createHTMLGrid`: rows from the top (y = height-1) down, cells left to right, each given
   * its first matching class; every footprint cell shown as a centre is appended to the trail.
   */
  method CreateHTMLGrid(robot: Pose, dirOf: real -> Direction, turningPath: seq<Cell>, obstacles: seq<Obstacle>,
                        canAddObstacle: bool, trail: CenterTrail, width: int, height: int)
    returns (grid: seq<seq<GridCell>>)
    modifies trail
    ensures |grid| == if height < 0 then 0 else height
    ensures forall k :: 0 <= k < |grid| ==>
      RowAt(grid, k, width, height, dirOf(robot.theta), robot, turningPath, obstacles, canAddObstacle, old(trail.cells))
    ensures trail.cells == old(trail.cells)
      + TopRowsCenters(dirOf(robot.theta), robot, old(trail.cells), width, height, if height < 0 then 0 else height)
  {
    ghost var dir := dirOf(robot.theta);
    ghost var trail0 := trail.cells;
    grid := [];
    var y := height - 1;
    ghost var n: nat := 0;
    while y >= 0
      invariant y <= height - 1 && (height >= 0 ==> y >= -1) && (height < 0 ==> y == height - 1)
      invariant n == height - 1 - y && |grid| == n
      invariant forall k :: 0 <= k < |grid| ==>
        RowAt(grid, k, width, height, dir, robot, turningPath, obstacles, canAddObstacle, trail0)
      invariant trail.cells == trail0 + TopRowsCenters(dir, robot, trail0, width, height, n)
    {
      grid := ScanRow(robot, dirOf, turningPath, obstacles, canAddObstacle, trail, width, height, y, n, n + 1, grid, trail0);
      y := y - 1;
      n := n + 1;
    }
  }

  /** One pass of the outer loop of `createHTMLGrid`: row y appended below the rows above it. */
  method ScanRow(robot: Pose, dirOf: real -> Direction, turningPath: seq<Cell>, obstacles: seq<Obstacle>,
                 canAddObstacle: bool, trail: CenterTrail, width: int, height: int, y: int, ghost n: nat, ghost n': nat,
                 grid: seq<seq<GridCell>>, ghost trail0: seq<Cell>)
    returns (grid': seq<seq<GridCell>>)
    requires 0 <= y < height && n == height - 1 - y && n' == n + 1 && |grid| == n
    requires forall k :: 0 <= k < |grid| ==>
      RowAt(grid, k, width, height, dirOf(robot.theta), robot, turningPath, obstacles, canAddObstacle, trail0)
    requires trail.cells == trail0 + TopRowsCenters(dirOf(robot.theta), robot, trail0, width, height, n)
    modifies trail
    ensures |grid'| == n'
    ensures forall k :: 0 <= k < |grid'| ==>
      RowAt(grid', k, width, height, dirOf(robot.theta), robot, turningPath, obstacles, canAddObstacle, trail0)
    ensures trail.cells == trail0 + TopRowsCenters(dirOf(robot.theta), robot, trail0, width, height, n')
  {
    ghost var dir := dirOf(robot.theta);
    TrailRowUntouched(dir, robot, trail0, width, height, y);
    ghost var before := trail.cells;
    var row := CreateRow(robot, dirOf, turningPath, obstacles, canAddObstacle, trail, y, width, trail0);
    TopRowsStep(dir, robot, trail0, width, height, y, n, n', before, trail.cells);
    grid' := grid + [row];
    ExtendGrid(grid, row, grid', width, height, dir, robot, turningPath, obstacles, canAddObstacle, trail0);
  }

  // ---------- Properties ----------

  /** Classified rows are laid out top row first, x increasing. */
  lemma ClassifiedRowsLaidOut(grid: seq<seq<GridCell>>, width: int, height: int, dir: Direction, robot: Pose,
                              turningPath: seq<Cell>, obstacles: seq<Obstacle>, canAddObstacle: bool, trail: seq<Cell>)
    requires |grid| == if height < 0 then 0 else height
    requires forall k :: 0 <= k < |grid| ==>
      RowAt(grid, k, width, height, dir, robot, turningPath, obstacles, canAddObstacle, trail)
    ensures LaidOut(grid, width, height)
  {
    forall k | 0 <= k < |grid|
      ensures |grid[k]| == (if width < 0 then 0 else width)
    {
      assert RowAt(grid, k, width, height, dir, robot, turningPath, obstacles, canAddObstacle, trail);
    }
    forall k, j | 0 <= k < |grid| && 0 <= j < |grid[k]|
      ensures grid[k][j].at == Cell(j, height - 1 - k)
    {
      assert RowAt(grid, k, width, height, dir, robot, turningPath, obstacles, canAddObstacle, trail);
      assert CellClassified(grid[k], j, height - 1 - k, dir, robot, turningPath, obstacles, canAddObstacle, trail);
    }
  }

  lemma {:induction false} RowCentersMembers(dir: Direction, robot: Pose, trail: seq<Cell>, y: int, n: int, x: int)
    requires 0 <= x < n
    ensures IsCenterCell(dir, robot, trail, Cell(x, y)) <==> Cell(x, y) in RowCenters(dir, robot, trail, y, n)
    decreases n
  {
    if x < n - 1 {
      RowCentersMembers(dir, robot, trail, y, n - 1, x);
    }
  }

  /** The cells recorded for the top k rows are exactly the centre cells in those rows. */
  lemma TopRowsCentersMembers(dir: Direction, robot: Pose, trail: seq<Cell>, width: int, height: int,
                              k: nat, c: Cell)
    requires height - k <= c.y < height && 0 <= c.x < width
    ensures IsCenterCell(dir, robot, trail, c) <==> c in TopRowsCenters(dir, robot, trail, width, height, k)
  {
    TopRowsOwnRow(dir, robot, trail, width, height, k, c);
    RowCentersMembers(dir, robot, trail, c.y, width, c.x);
  }

  /** A cell of the top k rows is recorded for them iff it is recorded for its own row. */
  lemma {:induction false} TopRowsOwnRow(dir: Direction, robot: Pose, trail: seq<Cell>, width: int, height: int,
                                         k: nat, c: Cell)
    requires height - k <= c.y < height
    ensures c in TopRowsCenters(dir, robot, trail, width, height, k) <==> c in RowCenters(dir, robot, trail, c.y, width)
  {
    if c.y == height - k {
      TopRowsNewRow(dir, robot, trail, width, height, k, c);
    } else {
      TopRowsOwnRow(dir, robot, trail, width, height, k - 1, c);
      TopRowsOldRow(dir, robot, trail, width, height, k, c);
    }
  }

  /** A cell of the row scanned last is recorded iff its row records it. */
  lemma TopRowsNewRow(dir: Direction, robot: Pose, trail: seq<Cell>, width: int, height: int, k: nat, c: Cell)
    requires k > 0 && c.y == height - k
    ensures c in TopRowsCenters(dir, robot, trail, width, height, k) <==> c in RowCenters(dir, robot, trail, c.y, width)
  {
    var above := TopRowsCenters(dir, robot, trail, width, height, k - 1);
    var row := RowCenters(dir, robot, trail, height - k, width);
    assert TopRowsCenters(dir, robot, trail, width, height, k) == above + row;
    OutsideRows(above, height - (k - 1), height, width, c);
  }

  /** Scanning one more row leaves the record of the cells above it unchanged. */
  lemma TopRowsOldRow(dir: Direction, robot: Pose, trail: seq<Cell>, width: int, height: int, k: nat, c: Cell)
    requires k > 0 && height - k < c.y
    ensures c in TopRowsCenters(dir, robot, trail, width, height, k)
      <==> c in TopRowsCenters(dir, robot, trail, width, height, k - 1)
  {
    var above := TopRowsCenters(dir, robot, trail, width, height, k - 1);
    var row := RowCenters(dir, robot, trail, height - k, width);
    assert TopRowsCenters(dir, robot, trail, width, height, k) == above + row;
    OutsideRows(row, height - k, height - k + 1, width, c);
  }

  lemma OutsideRows(cs: seq<Cell>, lo: int, hi: int, width: int, c: Cell)
    requires WithinRows(cs, lo, hi, width) && !(lo <= c.y < hi)
    ensures c !in cs
  {
  }

  /**
   * The live centre of a robot with a known heading is shown as a centre whatever else lies
   * there, and a scan of a grid containing it records it in the trail.
   */
  lemma LiveCentreShownAndRecorded(dir: Direction, robot: Pose, turningPath: seq<Cell>, obstacles: seq<Obstacle>,
                                   canAddObstacle: bool, trail: seq<Cell>, width: int, height: int)
    requires dir != Unknown
    requires 0 <= Centre(dir, robot).x < width && 0 <= Centre(dir, robot).y < height
    ensures Classify(dir, robot, turningPath, obstacles, canAddObstacle, trail, Centre(dir, robot)) == RobotCenter
    ensures Centre(dir, robot) in TopRowsCenters(dir, robot, trail, width, height, height)
  {
    CameraAheadOfCentre(dir, robot);
    TopRowsCentersMembers(dir, robot, trail, width, height, height, Centre(dir, robot));
  }

  /** A centre recorded earlier stays highlighted unless the turning path or an obstacle covers it. */
  lemma PastCentreStaysVisible(dir: Direction, robot: Pose, turningPath: seq<Cell>, obstacles: seq<Obstacle>,
                               canAddObstacle: bool, trail: seq<Cell>, c: Cell)
    requires c in trail
    ensures var kind := Classify(dir, robot, turningPath, obstacles, canAddObstacle, trail, c);
      kind == RobotCenter || kind == VisitedCenter
      || (kind == TurnCell && c in turningPath)
      || (kind.ObstacleCell? && FirstObstacleAt(obstacles, c).Some?)
  {
  }

  /** The camera cell is shown as the camera unless it is a recorded centre. */
  lemma CameraShown(dir: Direction, robot: Pose, turningPath: seq<Cell>, obstacles: seq<Obstacle>,
                    canAddObstacle: bool, trail: seq<Cell>)
    requires dir != Unknown
    ensures Camera(dir, robot) !in trail ==>
      Classify(dir, robot, turningPath, obstacles, canAddObstacle, trail, Camera(dir, robot)) == RobotCamera
    ensures Camera(dir, robot) in trail ==>
      Classify(dir, robot, turningPath, obstacles, canAddObstacle, trail, Camera(dir, robot)) == RobotCenter
  {
    CameraAheadOfCentre(dir, robot);
  }

  /**
   * Clicking an obstacle on an editable grid requests its next direction (which for codes 1..4
   * is again in 1..4); on a read-only grid an obstacle has no click.
   */
  lemma ObstacleClick(dir: Direction, robot: Pose, turningPath: seq<Cell>, obstacles: seq<Obstacle>,
                      canAddObstacle: bool, trail: seq<Cell>, c: Cell)
    ensures var kind := Classify(dir, robot, turningPath, obstacles, canAddObstacle, trail, c);
      kind.ObstacleCell? ==>
        (kind.facing == FirstObstacleAt(obstacles, c).value.d
         && kind.onClick == (if canAddObstacle then Some(NextObstacleDirection(kind.facing)) else None)
         && (canAddObstacle && 1 <= kind.facing <= 4 ==> 1 <= kind.onClick.value <= 4))
  {
  }

  /**
   * Clicking an empty cell on an editable grid requests a new obstacle facing 1; a cell is shown
   * empty only when no obstacle, turning cell or visited centre is on it, and on a read-only grid
   * it has no click.
   */
  lemma EmptyCellClick(dir: Direction, robot: Pose, turningPath: seq<Cell>, obstacles: seq<Obstacle>,
                       canAddObstacle: bool, trail: seq<Cell>, c: Cell)
    ensures var kind := Classify(dir, robot, turningPath, obstacles, canAddObstacle, trail, c);
      kind.EmptyCell? ==>
        (kind.onClick == (if canAddObstacle then Some(1) else None)
         && FirstObstacleAt(obstacles, c).None? && c !in trail && c !in turningPath)
  {
  }

  // ---------- Axis labels ----------

  /** A cell of the rendered table: a grid square, a row label, a column label, or the blank corner. */
  datatype Tag = Square(cell: GridCell) | RowLabel(y: int) | ColumnLabel(x: int) | Blank

  function Squares(grid: seq<seq<GridCell>>): (rows: seq<seq<Tag>>)
    ensures |rows| == |grid| && forall k :: 0 <= k < |grid| ==> |rows[k]| == |grid[k]|
  {
    seq(|grid|, k requires 0 <= k < |grid| => seq(|grid[k]|, j requires 0 <= j < |grid[k]| => Square(grid[k][j])))
  }

  /** The label row: a blank corner, then 0 .. width-1 (nothing at all when width < 0). */
  function ColumnLabelRow(width: int): (r: seq<Tag>)
    ensures |r| == if width < 0 then 0 else width + 1
  {
    if width < 0 then [] else [Blank] + seq(width, c => ColumnLabel(c))
  }

  /** Each row k is prefixed with the label height-k-1, and the label row is appended. */
  function Labelled(rows: seq<seq<Tag>>, width: int, height: int): seq<seq<Tag>>
  {
    seq(|rows|, k requires 0 <= k < |rows| => [RowLabel(height - k - 1)] + rows[k]) + [ColumnLabelRow(width)]
  }

  /** The rendered table, whose rows `addHTMLGridLables` changes in place. */
  class HtmlTable {
    var rows: seq<seq<Tag>>

    constructor (grid: seq<seq<GridCell>>)
      ensures rows == Squares(grid)
    {
      rows := Squares(grid);
    }

    /** `addHTMLGridLables`: unshift a row label onto every row, then push the column label row. */
    method AddHTMLGridLabels(width: int, height: int)
      modifies this
      ensures rows == Labelled(old(rows), width, height)
    {
      var k := 0;
      while k < |rows|
        invariant 0 <= k <= |rows| == |old(rows)|
        invariant forall i :: 0 <= i < k ==> rows[i] == [RowLabel(height - i - 1)] + old(rows)[i]
        invariant forall i :: k <= i < |rows| ==> rows[i] == old(rows)[i]
      {
        rows := rows[k := [RowLabel(height - k - 1)] + rows[k]];
        k := k + 1;
      }
      var labels: seq<Tag> := [];
      var c := -1;
      while c < width
        invariant -1 <= c && (width >= -1 ==> c <= width) && (width < -1 ==> c == -1)
        invariant labels == (if c == -1 then [] else [Blank] + seq(c, i => ColumnLabel(i)))
      {
        if c == -1 {
          labels := labels + [Blank];
        } else {
          labels := labels + [ColumnLabel(c)];
        }
        c := c + 1;
      }
      rows := rows + [labels];
    }
  }

  /** On a laid-out grid, each row label is the y of every square in its row, and each column label the x of its column. */
  lemma LabelsMatchCoordinates(grid: seq<seq<GridCell>>, width: int, height: int)
    requires width >= 0 && height >= 0 && LaidOut(grid, width, height)
    ensures var t := Labelled(Squares(grid), width, height);
      |t| == height + 1 && forall k :: 0 <= k <= height ==> |t[k]| == width + 1
    ensures var t := Labelled(Squares(grid), width, height);
      forall k, j :: 0 <= k < height && 0 <= j < width ==>
        t[k][j + 1] == Square(grid[k][j]) && t[k][0] == RowLabel(grid[k][j].at.y)
        && t[height][j + 1] == ColumnLabel(grid[k][j].at.x)
    ensures var t := Labelled(Squares(grid), width, height);
      t[height][0] == Blank && forall k :: 0 <= k < height ==> t[k][0].RowLabel?
  {
  }
}
