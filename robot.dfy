/** Shared value types of the simulator and the algorithm server: poses, grid cells and headings. */
module Robot {

  /** The eight discrete headings of the simulator, plus the value of a heading string that matches none of them. */
  datatype Direction = N | S | E | W | NorthEast | NorthWest | SouthEast | SouthWest | Unknown

  /** A robot pose: grid position and heading. A heading of -1 or -2 marks a camera scan, not a move. */
  datatype Pose = Pose(x: int, y: int, theta: real)

  /** A grid cell. */
  datatype Cell = Cell(x: int, y: int)

  /** Heading values the server uses for "image scanned" (-1) and "scanning image" (-2). */
  predicate IsScanSentinel(p: Pose)
  {
    p.theta == -1.0 || p.theta == -2.0
  }

  function CellOf(p: Pose): Cell
  {
    Cell(p.x, p.y)
  }

  function Abs(n: int): nat
  {
    if n < 0 then -n else n
  }

  /** A displacement on the grid. */
  datatype Offset = Offset(dx: int, dy: int)

  function Shift(c: Cell, o: Offset): Cell
  {
    Cell(c.x + o.dx, c.y + o.dy)
  }

  predicate IsDiagonal(d: Direction)
  {
    d == NorthEast || d == NorthWest || d == SouthEast || d == SouthWest
  }

  /** The unit step a heading points along (y grows northwards); no step for an unrecognised heading. */
  function Heading(d: Direction): (h: Offset)
    ensures d != Unknown <==> h != Offset(0, 0)
    ensures -1 <= h.dx <= 1 && -1 <= h.dy <= 1
    ensures IsDiagonal(d) <==> h.dx != 0 && h.dy != 0
  {
    match d
    case N => Offset(0, 1)
    case S => Offset(0, -1)
    case E => Offset(1, 0)
    case W => Offset(-1, 0)
    case NorthEast => Offset(1, 1)
    case NorthWest => Offset(-1, 1)
    case SouthEast => Offset(1, -1)
    case SouthWest => Offset(-1, -1)
    case Unknown => Offset(0, 0)
  }
}
