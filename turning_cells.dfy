/**
 * The simulator's turning-path synthesiser: for every transition between two consecutive
 * poses it reconstructs the grid cells the robot swept through while turning, so the grid
 * can highlight them for that animation step.
 */
module TurningCells {
  import opened Wrappers
  import opened Robot

  /**
   * `getXYsigns`: the per-axis step direction of a turn, from the heading of the last real
   * pose, the vertical motion (1 forward, -1 back) and the steer (-1 left, otherwise right).
   */
  function XYSigns(dir: Direction, motion: int, steer: int): (sg: Offset)
    ensures dir == Unknown ==> sg == Offset(0, 0)
    ensures -1 <= motion <= 1 ==> -1 <= sg.dx <= 1 && -1 <= sg.dy <= 1
  {
    match dir
    case NorthEast => Offset(motion, if motion == -1 then -1 else 1)
    case NorthWest => Offset(-motion, if motion == -1 then -1 else 1)
    case N => Offset(if steer == -1 then -1 else 1, if motion == -1 then -1 else 1)
    case SouthEast => Offset(motion, if motion == 1 then -1 else 1)
    case SouthWest => Offset(-motion, if motion == 1 then -1 else 1)
    case S => Offset(if steer == -1 then 1 else -1, if motion == 1 then -1 else 1)
    case E => Offset(if motion == -1 then -1 else 1, if steer == -1 then 1 else -1)
    case W => Offset(if motion == 1 then -1 else 1, if steer == -1 then -1 else 1)
    case Unknown => Offset(0, 0)
  }

  function Scale(k: int, o: Offset): Offset
  {
    Offset(k * o.dx, k * o.dy)
  }

  function Plus(a: Offset, b: Offset): Offset
  {
    Offset(a.dx + b.dx, a.dy + b.dy)
  }

  /** The heading turned a quarter to the left, and to the right. */
  function LeftOf(h: Offset): Offset
  {
    Offset(-h.dy, h.dx)
  }

  function RightOf(h: Offset): Offset
  {
    Offset(h.dy, -h.dx)
  }

  /**
   * What the sign table means for a unit motion: a diagonal heading moves along the heading
   * (or against it when reversing); a cardinal heading moves along it and a quarter to the
   * steered side.
   */
  lemma XYSignsMeaning(dir: Direction, motion: int, steer: int)
    requires motion == 1 || motion == -1
    requires dir != Unknown
    ensures IsDiagonal(dir) ==> XYSigns(dir, motion, steer) == Scale(motion, Heading(dir))
    ensures !IsDiagonal(dir) ==>
      (XYSigns(dir, motion, steer)
       == Plus(Scale(motion, Heading(dir)), if steer == -1 then LeftOf(Heading(dir)) else RightOf(Heading(dir))))
  {
    var h := Heading(dir);
    if motion == 1 {
      assert Scale(motion, h) == h;
    } else {
      assert Scale(motion, h) == Offset(-h.dx, -h.dy);
    }
  }

  /** Reversing a unit motion reverses the step along the heading and keeps the side step. */
  lemma XYSignsReverse(dir: Direction, motion: int, steer: int)
    requires motion == 1 || motion == -1
    ensures IsDiagonal(dir) ==> XYSigns(dir, -motion, steer) == Scale(-1, XYSigns(dir, motion, steer))
    ensures dir == N || dir == S ==>
      XYSigns(dir, -motion, steer).dy == -XYSigns(dir, motion, steer).dy
      && XYSigns(dir, -motion, steer).dx == XYSigns(dir, motion, steer).dx
    ensures dir == E || dir == W ==>
      XYSigns(dir, -motion, steer).dx == -XYSigns(dir, motion, steer).dx
      && XYSigns(dir, -motion, steer).dy == XYSigns(dir, motion, steer).dy
  {
  }

  /**
   * The first step of a turn: a diagonal heading steps each axis that is not yet aligned;
   * N and S step y if it is not aligned; E and W step x unconditionally.
   */
  function FirstStep(dir: Direction, c: Cell, t: Cell, sg: Offset): Cell
  {
    if IsDiagonal(dir) then
      Cell(if c.x != t.x then c.x + sg.dx else c.x, if c.y != t.y then c.y + sg.dy else c.y)
    else if dir == N || dir == S then
      Cell(c.x, if c.y != t.y then c.y + sg.dy else c.y)
    else if dir == E || dir == W then
      Cell(c.x + sg.dx, c.y)
    else c
  }

  /** Stepping from a by unit steps d reaches b. */
  predicate Reaches(a: int, b: int, d: int)
  {
    (d == 1 && a < b) || (d == -1 && a > b)
  }

  /** The diagonal loop stops: an axis is already aligned, or one axis's sign walks onto the target. */
  predicate DiagonalEnds(c: Cell, t: Cell, sg: Offset)
  {
    c.x == t.x || c.y == t.y || Reaches(c.x, t.x, sg.dx) || Reaches(c.y, t.y, sg.dy)
  }

  /** Diagonal steps left before an axis aligns, bounded by the reaching axis. */
  function DiagonalMeasure(c: Cell, t: Cell, sg: Offset): nat
  {
    if c.x == t.x || c.y == t.y then 0
    else if Reaches(c.x, t.x, sg.dx) && Reaches(c.y, t.y, sg.dy) then
      if Abs(t.x - c.x) <= Abs(t.y - c.y) then Abs(t.x - c.x) else Abs(t.y - c.y)
    else if Reaches(c.x, t.x, sg.dx) then Abs(t.x - c.x)
    else Abs(t.y - c.y)
  }

  /** The cells the diagonal loop visits after c: both axes step together until one is aligned. */
  function DiagonalWalk(c: Cell, t: Cell, sg: Offset): seq<Cell>
    requires DiagonalEnds(c, t, sg)
    decreases DiagonalMeasure(c, t, sg)
  {
    if c.x != t.x && c.y != t.y then
      var n := Shift(c, sg);
      [n] + DiagonalWalk(n, t, sg)
    else []
  }

  /** Where the diagonal loop stops. */
  function DiagonalEnd(c: Cell, t: Cell, sg: Offset): (r: Cell)
    requires DiagonalEnds(c, t, sg)
    ensures r.x == t.x || r.y == t.y
    decreases DiagonalMeasure(c, t, sg)
  {
    if c.x != t.x && c.y != t.y then DiagonalEnd(Shift(c, sg), t, sg) else c
  }

  function Manhattan(c: Cell, t: Cell): nat
  {
    Abs(c.x - t.x) + Abs(c.y - t.y)
  }

  /** One greedy unit step of the alignment loop: x first, then y. */
  function AxisStep(c: Cell, t: Cell): (n: Cell)
    requires c != t
    ensures Manhattan(n, t) == Manhattan(c, t) - 1
  {
    if c.x != t.x then Cell(if c.x < t.x then c.x + 1 else c.x - 1, c.y)
    else Cell(c.x, if c.y < t.y then c.y + 1 else c.y - 1)
  }

  /** The cells the alignment loop visits after c. */
  function AxisWalk(c: Cell, t: Cell): seq<Cell>
    decreases Manhattan(c, t)
  {
    if c == t then [] else var n := AxisStep(c, t); [n] + AxisWalk(n, t)
  }

  /** The turn from start to target terminates: it is done within two cells, or its diagonal loop stops. */
  predicate TurnEnds(dir: Direction, start: Cell, target: Cell, sg: Offset)
  {
    start == target || FirstStep(dir, start, target, sg) == target
    || DiagonalEnds(FirstStep(dir, start, target, sg), target, sg)
  }

  /** The cell list of one turning transition. */
  function TurnPath(dir: Direction, start: Cell, target: Cell, sg: Offset): seq<Cell>
    requires TurnEnds(dir, start, target, sg)
  {
    if start == target then [start]
    else
      var c1 := FirstStep(dir, start, target, sg);
      if c1 == target then [start, c1]
      else [start, c1] + DiagonalWalk(c1, target, sg) + AxisWalk(DiagonalEnd(c1, target, sg), target)
  }

  /** The command arrays are optional (absent before a run); when present they cover every pose. */
  predicate Covers(a: Option<seq<int>>, n: nat)
  {
    a.Some? ==> |a.value| >= n
  }

  /** `arr ? arr[k] : 0`. */
  function ValueAt(a: Option<seq<int>>, k: nat): int
    requires a.Some? ==> k < |a.value|
  {
    if a.Some? then a.value[k] else 0
  }

  /** The value of the `last` pointer when transition i is processed: the latest real pose at or before i, or 0. */
  function LastReal(poses: seq<Pose>, i: nat): (l: nat)
    requires i < |poses|
    ensures l <= i
  {
    if i == 0 then 0 else if !IsScanSentinel(poses[i]) then i else LastReal(poses, i - 1)
  }

  /** Whether transition i (from pose i to pose i+1) finishes, as far as its turn is concerned. */
  predicate TransitionEnds(poses: seq<Pose>, vert: Option<seq<int>>, steer: Option<seq<int>>,
                           dirOf: real -> Direction, i: nat)
    requires i + 1 < |poses| && Covers(vert, |poses|) && Covers(steer, |poses|)
  {
    var dir := dirOf(poses[LastReal(poses, i)].theta);
    IsScanSentinel(poses[i + 1]) || ValueAt(steer, i + 1) == 0
    || TurnEnds(dir, CellOf(poses[i]), CellOf(poses[i + 1]), XYSigns(dir, ValueAt(vert, i + 1), ValueAt(steer, i + 1)))
  }

  predicate AllTransitionsEnd(poses: seq<Pose>, vert: Option<seq<int>>, steer: Option<seq<int>>, dirOf: real -> Direction)
    requires Covers(vert, |poses|) && Covers(steer, |poses|)
  {
    forall i: nat :: i + 1 < |poses| ==> TransitionEnds(poses, vert, steer, dirOf, i)
  }

  /** The cell list for transition i. */
  function TurningCellsAt(poses: seq<Pose>, vert: Option<seq<int>>, steer: Option<seq<int>>,
                          dirOf: real -> Direction, i: nat): seq<Cell>
    requires i + 1 < |poses| && Covers(vert, |poses|) && Covers(steer, |poses|)
    requires TransitionEnds(poses, vert, steer, dirOf, i)
  {
    if IsScanSentinel(poses[i + 1]) then []
    else
      var dir := dirOf(poses[LastReal(poses, i)].theta);
      var turn := ValueAt(steer, i + 1);
      if turn == 0 then []
      else TurnPath(dir, CellOf(poses[i]), CellOf(poses[i + 1]), XYSigns(dir, ValueAt(vert, i + 1), turn))
  }

  /** One turn of the diagonal loop: the walk from c is the next cell followed by the walk from there. */
  lemma DiagonalUnfold(c: Cell, t: Cell, sg: Offset)
    requires DiagonalEnds(c, t, sg) && c.x != t.x && c.y != t.y
    ensures DiagonalEnds(Shift(c, sg), t, sg)
    ensures DiagonalMeasure(Shift(c, sg), t, sg) < DiagonalMeasure(c, t, sg)
    ensures DiagonalWalk(c, t, sg) == [Shift(c, sg)] + DiagonalWalk(Shift(c, sg), t, sg)
    ensures DiagonalEnd(c, t, sg) == DiagonalEnd(Shift(c, sg), t, sg)
  {
  }

  /** Once an axis is aligned the diagonal loop does not run. */
  lemma DiagonalDone(c: Cell, t: Cell, sg: Offset)
    requires c.x == t.x || c.y == t.y
    ensures DiagonalEnds(c, t, sg) && DiagonalWalk(c, t, sg) == [] && DiagonalEnd(c, t, sg) == c
  {
  }

  lemma AxisUnfold(c: Cell, t: Cell)
    requires c != t
    ensures AxisWalk(c, t) == [AxisStep(c, t)] + AxisWalk(AxisStep(c, t), t)
  {
  }

  /** One pass of the diagonal loop keeps what is walked plus what is left, and where the loop stops. */
  lemma DiagonalStep(walked: seq<Cell>, c: Cell, c0: Cell, t: Cell, sg: Offset)
    requires DiagonalEnds(c0, t, sg) && DiagonalEnds(c, t, sg) && c.x != t.x && c.y != t.y
    requires walked + DiagonalWalk(c, t, sg) == DiagonalWalk(c0, t, sg)
    requires DiagonalEnd(c, t, sg) == DiagonalEnd(c0, t, sg)
    ensures DiagonalEnds(Shift(c, sg), t, sg)
    ensures DiagonalMeasure(Shift(c, sg), t, sg) < DiagonalMeasure(c, t, sg)
    ensures (walked + [Shift(c, sg)]) + DiagonalWalk(Shift(c, sg), t, sg) == DiagonalWalk(c0, t, sg)
    ensures DiagonalEnd(Shift(c, sg), t, sg) == DiagonalEnd(c0, t, sg)
  {
    DiagonalUnfold(c, t, sg);
    ConcatAssoc(walked, [Shift(c, sg)], DiagonalWalk(Shift(c, sg), t, sg));
  }

  lemma ConcatAssoc(a: seq<Cell>, b: seq<Cell>, c: seq<Cell>)
    ensures a + (b + c) == (a + b) + c
  {
  }

  /** The diagonal loop of a turn: both axes step by their signs until one is aligned. */
  method WalkDiagonally(x0: int, y0: int, target: Cell, sg: Offset) returns (x: int, y: int, walked: seq<Cell>)
    requires DiagonalEnds(Cell(x0, y0), target, sg)
    ensures walked == DiagonalWalk(Cell(x0, y0), target, sg)
    ensures Cell(x, y) == DiagonalEnd(Cell(x0, y0), target, sg)
  {
    x, y := x0, y0;
    walked := [];
    while x != target.x && y != target.y
      invariant DiagonalEnds(Cell(x, y), target, sg)
      invariant walked + DiagonalWalk(Cell(x, y), target, sg) == DiagonalWalk(Cell(x0, y0), target, sg)
      invariant DiagonalEnd(Cell(x, y), target, sg) == DiagonalEnd(Cell(x0, y0), target, sg)
      decreases DiagonalMeasure(Cell(x, y), target, sg)
    {
      ghost var next := Shift(Cell(x, y), sg);
      DiagonalStep(walked, Cell(x, y), Cell(x0, y0), target, sg);
      x := x + sg.dx;
      y := y + sg.dy;
      assert Cell(x, y) == next;
      walked := walked + [Cell(x, y)];
    }
    DiagonalDone(Cell(x, y), target, sg);
  }

  /** The alignment loop of a turn: greedy unit steps, x before y, until the target is reached. */
  method WalkAxes(x0: int, y0: int, target: Cell) returns (walked: seq<Cell>)
    ensures walked == AxisWalk(Cell(x0, y0), target)
  {
    var x, y := x0, y0;
    walked := [];
    while x != target.x || y != target.y
      invariant walked + AxisWalk(Cell(x, y), target) == AxisWalk(Cell(x0, y0), target)
      decreases Manhattan(Cell(x, y), target)
    {
      ghost var n := AxisStep(Cell(x, y), target);
      AxisUnfold(Cell(x, y), target);
      ConcatAssoc(walked, [n], AxisWalk(n, target));
      x, y := StepTowards(x, y, target);
      walked := walked + [Cell(x, y)];
    }
  }

  /** One pass of the alignment loop: move x one cell towards the target, or else y. */
  method StepTowards(x: int, y: int, target: Cell) returns (x': int, y': int)
    requires x != target.x || y != target.y
    ensures Cell(x', y') == AxisStep(Cell(x, y), target)
  {
    x', y' := x, y;
    if x != target.x {
      if x < target.x {
        x' := x + 1;
      } else {
        x' := x - 1;
      }
    } else if y != target.y {
      if y < target.y {
        y' := y + 1;
      } else {
        y' := y - 1;
      }
    }
  }

  /** The guarded first step of a turn, by heading. */
  method StepFirst(dir: Direction, x: int, y: int, target: Cell, sg: Offset) returns (x': int, y': int)
    ensures Cell(x', y') == FirstStep(dir, Cell(x, y), target, sg)
  {
    x', y' := x, y;
    if IsDiagonal(dir) {
      if x != target.x {
        x' := x + sg.dx;
      }
      if y != target.y {
        y' := y + sg.dy;
      }
    } else if dir == N || dir == S {
      if y != target.y {
        y' := y + sg.dy;
      }
    } else if dir == E || dir == W {
      x' := x + sg.dx;
    }
  }

  /** The body of one turning transition: the start cell, one guarded step, the diagonal loop, then the alignment loop. */
  method TraceTurn(dir: Direction, start: Cell, target: Cell, sg: Offset) returns (step: seq<Cell>)
    requires TurnEnds(dir, start, target, sg)
    ensures step == TurnPath(dir, start, target, sg)
  {
    var x, y := start.x, start.y;
    step := [Cell(x, y)];
    if x == target.x && y == target.y {
      return;
    }
    x, y := StepFirst(dir, x, y, target, sg);
    step := step + [Cell(x, y)];
    if x == target.x && y == target.y {
      return;
    }
    TurnPathLong(dir, start, target, sg);
    var diagonal, aligned;
    x, y, diagonal := WalkDiagonally(x, y, target, sg);
    aligned := WalkAxes(x, y, target);
    step := step + diagonal + aligned;
  }

  /** A turn that is not done within two cells: its first step, then the diagonal loop's cells, then the alignment loop's. */
  lemma TurnPathLong(dir: Direction, start: Cell, target: Cell, sg: Offset)
    requires TurnEnds(dir, start, target, sg)
    requires start != target && FirstStep(dir, start, target, sg) != target
    ensures DiagonalEnds(FirstStep(dir, start, target, sg), target, sg)
    ensures TurnPath(dir, start, target, sg)
      == [start, FirstStep(dir, start, target, sg)] + DiagonalWalk(FirstStep(dir, start, target, sg), target, sg)
         + AxisWalk(DiagonalEnd(FirstStep(dir, start, target, sg), target, sg), target)
  {
  }

  /**
   * `generateTurningCells`: one cell list per transition after a leading empty list, with a
   * `last` pointer to the latest real pose whose heading the turn is taken from.
   */
  method GenerateTurningCells(poses: seq<Pose>, vert: Option<seq<int>>, steer: Option<seq<int>>,
                              dirOf: real -> Direction) returns (cells: seq<seq<Cell>>)
    requires Covers(vert, |poses|) && Covers(steer, |poses|)
    requires AllTransitionsEnd(poses, vert, steer, dirOf)
    ensures |cells| == if |poses| == 0 then 1 else |poses|
    ensures cells[0] == []
    ensures forall i: nat :: i + 1 < |poses| ==> cells[i + 1] == TurningCellsAt(poses, vert, steer, dirOf, i)
  {
    var last := 0;
    cells := [[]];
    var i := 0;
    while i + 1 < |poses|
      invariant i == 0 || i < |poses|
      invariant |poses| > 0 ==> last == LastReal(poses, i)
      invariant CellsUpTo(cells, poses, vert, steer, dirOf, i)
    {
      assert TransitionEnds(poses, vert, steer, dirOf, i);
      var step;
      step, last := Transition(poses, vert, steer, dirOf, i, last);
      ExtendCells(cells, step, poses, vert, steer, dirOf, i);
      cells := cells + [step];
      i := i + 1;
    }
    AllCells(cells, poses, vert, steer, dirOf, i);
  }

  /** Entry j+1 of `cells` is the cell list of transition j. */
  ghost predicate IsCellsAt(cells: seq<seq<Cell>>, poses: seq<Pose>, vert: Option<seq<int>>, steer: Option<seq<int>>,
                            dirOf: real -> Direction, j: nat)
    requires j + 1 < |poses| && Covers(vert, |poses|) && Covers(steer, |poses|)
    requires TransitionEnds(poses, vert, steer, dirOf, j)
  {
    j + 1 < |cells| && cells[j + 1] == TurningCellsAt(poses, vert, steer, dirOf, j)
  }

  /** `cells` is the leading empty list followed by the cell lists of the first n transitions. */
  ghost predicate CellsUpTo(cells: seq<seq<Cell>>, poses: seq<Pose>, vert: Option<seq<int>>, steer: Option<seq<int>>,
                            dirOf: real -> Direction, n: nat)
    requires Covers(vert, |poses|) && Covers(steer, |poses|) && AllTransitionsEnd(poses, vert, steer, dirOf)
    requires n == 0 || n < |poses|
  {
    |cells| == n + 1 && cells[0] == []
    && forall j: nat :: j < n ==> IsCellsAt(cells, poses, vert, steer, dirOf, j)
  }

  lemma KeepCells(cells: seq<seq<Cell>>, step: seq<Cell>, poses: seq<Pose>, vert: Option<seq<int>>, steer: Option<seq<int>>,
                  dirOf: real -> Direction, j: nat)
    requires j + 1 < |poses| && Covers(vert, |poses|) && Covers(steer, |poses|)
    requires TransitionEnds(poses, vert, steer, dirOf, j)
    requires IsCellsAt(cells, poses, vert, steer, dirOf, j)
    ensures IsCellsAt(cells + [step], poses, vert, steer, dirOf, j)
  {
  }

  lemma NewCells(cells: seq<seq<Cell>>, step: seq<Cell>, poses: seq<Pose>, vert: Option<seq<int>>, steer: Option<seq<int>>,
                 dirOf: real -> Direction, j: nat)
    requires j + 1 < |poses| && Covers(vert, |poses|) && Covers(steer, |poses|)
    requires TransitionEnds(poses, vert, steer, dirOf, j)
    requires |cells| == j + 1 && step == TurningCellsAt(poses, vert, steer, dirOf, j)
    ensures IsCellsAt(cells + [step], poses, vert, steer, dirOf, j)
  {
  }

  /** Appending the cell list of transition n to the lists of the first n transitions gives those of the first n + 1. */
  lemma ExtendCells(cells: seq<seq<Cell>>, step: seq<Cell>, poses: seq<Pose>, vert: Option<seq<int>>, steer: Option<seq<int>>,
                    dirOf: real -> Direction, n: nat)
    requires Covers(vert, |poses|) && Covers(steer, |poses|) && AllTransitionsEnd(poses, vert, steer, dirOf)
    requires n + 1 < |poses| && CellsUpTo(cells, poses, vert, steer, dirOf, n)
    requires step == TurningCellsAt(poses, vert, steer, dirOf, n)
    ensures CellsUpTo(cells + [step], poses, vert, steer, dirOf, n + 1)
  {
    forall j: nat | j < n + 1
      ensures IsCellsAt(cells + [step], poses, vert, steer, dirOf, j)
    {
      assert TransitionEnds(poses, vert, steer, dirOf, j);
      if j < n {
        KeepCells(cells, step, poses, vert, steer, dirOf, j);
      } else {
        NewCells(cells, step, poses, vert, steer, dirOf, j);
      }
    }
  }

  /** Once every transition is processed, every entry after the first is its transition's cell list. */
  lemma AllCells(cells: seq<seq<Cell>>, poses: seq<Pose>, vert: Option<seq<int>>, steer: Option<seq<int>>,
                 dirOf: real -> Direction, n: nat)
    requires Covers(vert, |poses|) && Covers(steer, |poses|) && AllTransitionsEnd(poses, vert, steer, dirOf)
    requires (n == 0 || n < |poses|) && n + 1 >= |poses| && CellsUpTo(cells, poses, vert, steer, dirOf, n)
    ensures |cells| == if |poses| == 0 then 1 else |poses|
    ensures cells[0] == []
    ensures forall i: nat :: i + 1 < |poses| ==> cells[i + 1] == TurningCellsAt(poses, vert, steer, dirOf, i)
  {
    forall i: nat | i + 1 < |poses|
      ensures cells[i + 1] == TurningCellsAt(poses, vert, steer, dirOf, i)
    {
      assert TransitionEnds(poses, vert, steer, dirOf, i);
      assert IsCellsAt(cells, poses, vert, steer, dirOf, i);
    }
  }

  /**
   * One pass of the loop of `generateTurningCells`: a scan pose gets no cells and keeps `last`;
   * otherwise `last` moves to i+1, and a steered move gets the cells of its turn.
   */
  method Transition(poses: seq<Pose>, vert: Option<seq<int>>, steer: Option<seq<int>>,
                    dirOf: real -> Direction, i: nat, last: nat) returns (step: seq<Cell>, last': nat)
    requires i + 1 < |poses| && Covers(vert, |poses|) && Covers(steer, |poses|)
    requires TransitionEnds(poses, vert, steer, dirOf, i)
    requires last == LastReal(poses, i)
    ensures step == TurningCellsAt(poses, vert, steer, dirOf, i)
    ensures last' == LastReal(poses, i + 1)
  {
    if poses[i + 1].theta == -1.0 || poses[i + 1].theta == -2.0 {
      return [], last;
    }
    var dir := dirOf(poses[last].theta);
    var motion := if vert.Some? then vert.value[i + 1] else 0;
    var turn := if steer.Some? then steer.value[i + 1] else 0;
    if turn == 0 {
      return [], i + 1;
    }
    step := TraceTurn(dir, CellOf(poses[i]), CellOf(poses[i + 1]), XYSigns(dir, motion, turn));
    last' := i + 1;
  }

  // ---------- Properties ----------

  /** `last` points at the latest pose at or before i that is not a scan sentinel (or at pose 0). */
  lemma {:induction false} LastRealIsLatest(poses: seq<Pose>, i: nat)
    requires i < |poses|
    ensures LastReal(poses, i) == 0 || !IsScanSentinel(poses[LastReal(poses, i)])
    ensures forall j :: LastReal(poses, i) < j <= i ==> IsScanSentinel(poses[j])
  {
    if i > 0 && IsScanSentinel(poses[i]) {
      LastRealIsLatest(poses, i - 1);
    }
  }

  /** A transition into a scan pose has no turning cells and leaves `last` where it was. */
  lemma ScanTransition(poses: seq<Pose>, vert: Option<seq<int>>, steer: Option<seq<int>>, dirOf: real -> Direction, i: nat)
    requires i + 1 < |poses| && Covers(vert, |poses|) && Covers(steer, |poses|)
    requires IsScanSentinel(poses[i + 1])
    ensures TransitionEnds(poses, vert, steer, dirOf, i)
    ensures TurningCellsAt(poses, vert, steer, dirOf, i) == []
    ensures LastReal(poses, i + 1) == LastReal(poses, i)
  {
  }

  /** A transition without steering (or without a steer array) has no turning cells and moves `last` to i+1. */
  lemma StraightTransition(poses: seq<Pose>, vert: Option<seq<int>>, steer: Option<seq<int>>, dirOf: real -> Direction, i: nat)
    requires i + 1 < |poses| && Covers(vert, |poses|) && Covers(steer, |poses|)
    requires !IsScanSentinel(poses[i + 1])
    requires steer.None? || steer.value[i + 1] == 0
    ensures TransitionEnds(poses, vert, steer, dirOf, i)
    ensures TurningCellsAt(poses, vert, steer, dirOf, i) == []
    ensures LastReal(poses, i + 1) == i + 1
  {
  }

  /** The turn is taken from the heading of the latest real pose, not from the pose the cells start at. */
  lemma TurnUsesLatestRealHeading(poses: seq<Pose>, vert: Option<seq<int>>, steer: Option<seq<int>>,
                                  dirOf: real -> Direction, i: nat)
    requires i + 1 < |poses| && Covers(vert, |poses|) && Covers(steer, |poses|)
    requires TransitionEnds(poses, vert, steer, dirOf, i)
    requires !IsScanSentinel(poses[i + 1]) && ValueAt(steer, i + 1) != 0
    ensures var l := LastReal(poses, i);
      var dir := dirOf(poses[l].theta);
      TurningCellsAt(poses, vert, steer, dirOf, i)
      == TurnPath(dir, CellOf(poses[i]), CellOf(poses[i + 1]), XYSigns(dir, ValueAt(vert, i + 1), ValueAt(steer, i + 1)))
      && (l == 0 || !IsScanSentinel(poses[l]))
      && forall j :: l < j <= i ==> IsScanSentinel(poses[j])
  {
    LastRealIsLatest(poses, i);
  }

  lemma {:induction false} DiagonalWalkEnds(c: Cell, t: Cell, sg: Offset)
    requires DiagonalEnds(c, t, sg)
    ensures DiagonalWalk(c, t, sg) == [] <==> DiagonalEnd(c, t, sg) == c
    ensures DiagonalWalk(c, t, sg) != [] ==> DiagonalWalk(c, t, sg)[|DiagonalWalk(c, t, sg)| - 1] == DiagonalEnd(c, t, sg)
    decreases DiagonalMeasure(c, t, sg)
  {
    if c.x != t.x && c.y != t.y {
      DiagonalUnfold(c, t, sg);
      DiagonalWalkEnds(Shift(c, sg), t, sg);
    }
  }

  /** The alignment loop runs exactly as many times as the Manhattan distance, and ends on the target. */
  lemma {:induction false} AxisWalkEnds(c: Cell, t: Cell)
    ensures |AxisWalk(c, t)| == Manhattan(c, t)
    ensures AxisWalk(c, t) != [] ==> AxisWalk(c, t)[|AxisWalk(c, t)| - 1] == t
    decreases Manhattan(c, t)
  {
    if c != t {
      AxisWalkEnds(AxisStep(c, t), t);
    }
  }

  /** A turn's cell list starts at the start cell and ends at the target cell. */
  lemma TurnPathEnds(dir: Direction, start: Cell, target: Cell, sg: Offset)
    requires TurnEnds(dir, start, target, sg)
    ensures |TurnPath(dir, start, target, sg)| >= 1
    ensures TurnPath(dir, start, target, sg)[0] == start
    ensures TurnPath(dir, start, target, sg)[|TurnPath(dir, start, target, sg)| - 1] == target
    ensures start != target ==>
      (|TurnPath(dir, start, target, sg)| >= 2 && TurnPath(dir, start, target, sg)[1] == FirstStep(dir, start, target, sg))
  {
    if start != target {
      var c1 := FirstStep(dir, start, target, sg);
      if c1 != target {
        DiagonalWalkEnds(c1, target, sg);
        AxisWalkEnds(DiagonalEnd(c1, target, sg), target);
      }
    }
  }

  /**
   * Every non-empty list of a transition begins at pose i (even when pose i is a scan
   * sentinel) and ends at pose i+1; for an E or W heading its second cell steps x unguarded.
   */
  lemma TurningCellsEndpoints(poses: seq<Pose>, vert: Option<seq<int>>, steer: Option<seq<int>>,
                              dirOf: real -> Direction, i: nat)
    requires i + 1 < |poses| && Covers(vert, |poses|) && Covers(steer, |poses|)
    requires TransitionEnds(poses, vert, steer, dirOf, i)
    ensures var cs := TurningCellsAt(poses, vert, steer, dirOf, i);
      cs != [] ==> cs[0] == CellOf(poses[i]) && cs[|cs| - 1] == CellOf(poses[i + 1])
    ensures var cs := TurningCellsAt(poses, vert, steer, dirOf, i);
      var dir := dirOf(poses[LastReal(poses, i)].theta);
      cs != [] && (dir == E || dir == W) && CellOf(poses[i]) != CellOf(poses[i + 1]) ==>
        cs[1] == Cell(poses[i].x + XYSigns(dir, ValueAt(vert, i + 1), ValueAt(steer, i + 1)).dx, poses[i].y)
  {
    if !IsScanSentinel(poses[i + 1]) && ValueAt(steer, i + 1) != 0 {
      var dir := dirOf(poses[LastReal(poses, i)].theta);
      TurnPathEnds(dir, CellOf(poses[i]), CellOf(poses[i + 1]), XYSigns(dir, ValueAt(vert, i + 1), ValueAt(steer, i + 1)));
    }
  }

  /** Two cells touch: they differ by at most one on each axis. */
  predicate Near(a: Cell, b: Cell)
  {
    -1 <= a.x - b.x <= 1 && -1 <= a.y - b.y <= 1
  }

  predicate Adjacent(cs: seq<Cell>)
  {
    forall k :: 0 <= k < |cs| - 1 ==> Near(cs[k], cs[k + 1])
  }

  predicate UnitSigns(sg: Offset)
  {
    -1 <= sg.dx <= 1 && -1 <= sg.dy <= 1
  }

  /** Joining two touching lists where the second starts next to the end of the first. */
  lemma AdjacentJoin(a: seq<Cell>, b: seq<Cell>)
    requires a != [] && Adjacent(a) && Adjacent([a[|a| - 1]] + b)
    ensures Adjacent(a + b)
  {
    forall k | 0 <= k < |a + b| - 1
      ensures Near((a + b)[k], (a + b)[k + 1])
    {
      if k >= |a| - 1 {
        assert (a + b)[k] == ([a[|a| - 1]] + b)[k - |a| + 1];
        assert (a + b)[k + 1] == ([a[|a| - 1]] + b)[k - |a| + 2];
      }
    }
  }

  /** A cell next to the head of a touching list extends it. */
  lemma AdjacentCons(c: Cell, b: seq<Cell>)
    requires b != [] && Near(c, b[0]) && Adjacent(b)
    ensures Adjacent([c] + b)
  {
    forall k | 1 <= k < |b|
      ensures Near(([c] + b)[k], ([c] + b)[k + 1])
    {
      assert ([c] + b)[k] == b[k - 1];
    }
  }

  lemma {:induction false} DiagonalWalkAdjacent(c: Cell, t: Cell, sg: Offset)
    requires DiagonalEnds(c, t, sg) && UnitSigns(sg)
    ensures Adjacent([c] + DiagonalWalk(c, t, sg))
    decreases DiagonalMeasure(c, t, sg)
  {
    if c.x != t.x && c.y != t.y {
      var n := Shift(c, sg);
      DiagonalUnfold(c, t, sg);
      DiagonalWalkAdjacent(n, t, sg);
      assert [c] + DiagonalWalk(c, t, sg) == [c] + ([n] + DiagonalWalk(n, t, sg));
      AdjacentCons(c, [n] + DiagonalWalk(n, t, sg));
    }
  }

  lemma {:induction false} AxisWalkAdjacent(c: Cell, t: Cell)
    ensures Adjacent([c] + AxisWalk(c, t))
    decreases Manhattan(c, t)
  {
    if c != t {
      var n := AxisStep(c, t);
      AxisWalkAdjacent(n, t);
      AdjacentCons(c, [n] + AxisWalk(n, t));
    }
  }

  /** The diagonal loop followed by the alignment loop, after a cell next to the start, touch throughout. */
  lemma TurnTailAdjacent(start: Cell, c1: Cell, target: Cell, sg: Offset)
    requires DiagonalEnds(c1, target, sg) && UnitSigns(sg) && Near(start, c1)
    ensures Adjacent([start, c1] + DiagonalWalk(c1, target, sg) + AxisWalk(DiagonalEnd(c1, target, sg), target))
  {
    var dw := DiagonalWalk(c1, target, sg);
    var de := DiagonalEnd(c1, target, sg);
    DiagonalWalkAdjacent(c1, target, sg);
    DiagonalWalkEnds(c1, target, sg);
    AxisWalkAdjacent(de, target);
    AdjacentCons(start, [c1] + dw);
    var head := [start] + ([c1] + dw);
    assert head[|head| - 1] == de;
    AdjacentJoin(head, AxisWalk(de, target));
    assert [start, c1] + dw + AxisWalk(de, target) == head + AxisWalk(de, target);
  }

  /** With unit signs, consecutive cells of a turn touch. */
  lemma TurnPathAdjacent(dir: Direction, start: Cell, target: Cell, sg: Offset)
    requires TurnEnds(dir, start, target, sg) && UnitSigns(sg)
    ensures Adjacent(TurnPath(dir, start, target, sg))
  {
    if start != target {
      var c1 := FirstStep(dir, start, target, sg);
      assert Near(start, c1);
      if c1 != target {
        TurnTailAdjacent(start, c1, target, sg);
      }
    }
  }

  /** With a vertical motion of -1, 0 or 1, consecutive cells of every transition's list touch. */
  lemma TurningCellsAdjacent(poses: seq<Pose>, vert: Option<seq<int>>, steer: Option<seq<int>>,
                             dirOf: real -> Direction, i: nat)
    requires i + 1 < |poses| && Covers(vert, |poses|) && Covers(steer, |poses|)
    requires TransitionEnds(poses, vert, steer, dirOf, i)
    requires -1 <= ValueAt(vert, i + 1) <= 1
    ensures Adjacent(TurningCellsAt(poses, vert, steer, dirOf, i))
  {
    if !IsScanSentinel(poses[i + 1]) && ValueAt(steer, i + 1) != 0 {
      var dir := dirOf(poses[LastReal(poses, i)].theta);
      TurnPathAdjacent(dir, CellOf(poses[i]), CellOf(poses[i + 1]), XYSigns(dir, ValueAt(vert, i + 1), ValueAt(steer, i + 1)));
    }
  }

  /** A straight move (steer 0) from (0,0) to (0,2) has no turning cells. */
  lemma StraightMoveExample(dirOf: real -> Direction)
    ensures var poses := [Pose(0, 0, 0.0), Pose(0, 2, 0.0)];
      TransitionEnds(poses, Some([0, 1]), Some([0, 0]), dirOf, 0)
      && TurningCellsAt(poses, Some([0, 1]), Some([0, 0]), dirOf, 0) == []
  {
  }

  /** A forward right turn heading north from (0,0) to (2,3): one step up, then two diagonal steps. */
  lemma NorthTurnExample()
    ensures TurnEnds(N, Cell(0, 0), Cell(2, 3), XYSigns(N, 1, 1))
    ensures TurnPath(N, Cell(0, 0), Cell(2, 3), XYSigns(N, 1, 1))
      == [Cell(0, 0), Cell(0, 1), Cell(1, 2), Cell(2, 3)]
  {
    var sg := XYSigns(N, 1, 1);
    assert sg == Offset(1, 1);
    assert FirstStep(N, Cell(0, 0), Cell(2, 3), sg) == Cell(0, 1);
    DiagonalUnfold(Cell(0, 1), Cell(2, 3), sg);
    DiagonalUnfold(Cell(1, 2), Cell(2, 3), sg);
    DiagonalDone(Cell(2, 3), Cell(2, 3), sg);
  }
}
