/**
 * The algorithm server's packaging around the path search: obstacles arriving in grid units
 * are scaled to the search's centimetre frame, and the search result (the visiting order
 * `min_perm` and one path per leg) becomes either the simulator's three parallel arrays or
 * the live robot's command list.
 */
module AlgoServer {
  import opened Wrappers
  import opened Robot
  import opened Decimal
  import opened StmCommands

  /** Centimetres per simulator grid cell; the live grid's cells are twice as large. */
  const SnapCoord := 5

  /** The request's `server_mode`; `Unset` is an explicit null, which overrides the default of live. */
  datatype Mode = Simulator | Live | Unset

  function Multiplier(mode: Mode): int
  {
    if mode == Live then SnapCoord * 2 else SnapCoord
  }

  /** An obstacle as the client sends it: grid position and facing code 1..4. */
  datatype InputObstacle = InputObstacle(id: int, x: int, y: int, d: int)

  /** An obstacle as the search sees it. */
  datatype Obstacle = Obstacle(x: int, y: int, facing: Direction)

  /** The facing-code table: 1 north, 2 south, 3 east, 4 west; any other code is not a key. */
  function FacingOf(code: int): (r: Option<Direction>)
    ensures r.Some? <==> 1 <= code <= 4
    ensures r.Some? ==> r.value == N || r.value == S || r.value == E || r.value == W
  {
    if code == 1 then Some(N)
    else if code == 2 then Some(S)
    else if code == 3 then Some(E)
    else if code == 4 then Some(W)
    else None
  }

  /** The code the client uses for a cardinal facing (0 for any other direction). */
  function FacingCode(d: Direction): int
  {
    match d
    case N => 1
    case S => 2
    case E => 3
    case W => 4
    case _ => 0
  }

  /** The facing table is a bijection between the codes 1..4 and the four cardinal directions. */
  lemma FacingRoundTrip(code: int, d: Direction)
    ensures 1 <= code <= 4 ==> FacingCode(FacingOf(code).value) == code
    ensures (d == N || d == S || d == E || d == W) ==> FacingOf(FacingCode(d)) == Some(d)
    ensures FacingOf(FacingCode(d)).Some? ==> FacingOf(FacingCode(d)).value == d
  {
  }

  /** The obstacle list the search receives, or None when some facing code is not in the table. */
  function Extracted(input: seq<InputObstacle>, mode: Mode): Option<seq<Obstacle>>
  {
    if input == [] then Some([])
    else
      var last := input[|input| - 1];
      match Extracted(input[..|input| - 1], mode)
      case None => None
      case Some(obs) =>
        match FacingOf(last.d)
        case None => None
        case Some(f) => Some(obs + [Obstacle(last.x * Multiplier(mode), last.y * Multiplier(mode), f)])
  }

  lemma {:induction false} ExtractedFailureSticks(input: seq<InputObstacle>, mode: Mode, i: nat)
    requires i <= |input| && Extracted(input[..i], mode).None?
    ensures Extracted(input, mode).None?
    decreases |input| - i
  {
    if i < |input| {
      assert input[..i + 1][..i] == input[..i];
      ExtractedFailureSticks(input, mode, i + 1);
    } else {
      assert input[..i] == input;
    }
  }

  /** `_extract_obstacles_from_input`: scale each obstacle by the mode's factor and map its facing. */
  method ExtractObstaclesFromInput(input: seq<InputObstacle>, mode: Mode) returns (r: Option<seq<Obstacle>>)
    ensures r == Extracted(input, mode)
  {
    var multiplier := SnapCoord;
    if mode == Live {
      multiplier := multiplier * 2;
    }
    var obstacles: seq<Obstacle> := [];
    for i := 0 to |input|
      invariant Extracted(input[..i], mode) == Some(obstacles)
    {
      var obstacle := input[i];
      assert input[..i + 1][..i] == input[..i];
      var facing := FacingOf(obstacle.d);
      if facing.None? {
        ExtractedFailureSticks(input, mode, i + 1);
        return None;
      }
      obstacles := obstacles + [Obstacle(obstacle.x * multiplier, obstacle.y * multiplier, facing.value)];
    }
    assert input[..|input|] == input;
    return Some(obstacles);
  }

  /**
   * Extraction fails exactly when some facing code is outside 1..4; otherwise it keeps count
   * and order, scales both coordinates and maps each code.
   */
  lemma {:induction false} ExtractedMeaning(input: seq<InputObstacle>, mode: Mode)
    ensures Extracted(input, mode).None? <==> exists k :: 0 <= k < |input| && !(1 <= input[k].d <= 4)
    ensures Extracted(input, mode).Some? ==>
      |Extracted(input, mode).value| == |input|
      && forall k :: 0 <= k < |input| ==>
        Extracted(input, mode).value[k]
          == Obstacle(input[k].x * Multiplier(mode), input[k].y * Multiplier(mode), FacingOf(input[k].d).value)
  {
    if input != [] {
      var init := input[..|input| - 1];
      ExtractedMeaning(init, mode);
      assert forall k :: 0 <= k < |init| ==> init[k] == input[k];
    }
  }

  /** Live coordinates are twice the simulator's, for the same input; both modes fail alike. */
  lemma LiveDoublesSimulator(input: seq<InputObstacle>)
    ensures Extracted(input, Live).Some? <==> Extracted(input, Simulator).Some?
    ensures Extracted(input, Live).Some? ==>
      var live := Extracted(input, Live).value;
      var sim := Extracted(input, Simulator).value;
      |live| == |sim| && forall k :: 0 <= k < |live| ==>
        live[k].x == 2 * sim[k].x && live[k].y == 2 * sim[k].y && live[k].facing == sim[k].facing
  {
    ExtractedMeaning(input, Live);
    ExtractedMeaning(input, Simulator);
  }

  /** An explicit null mode is scaled like the simulator: only live doubles the factor. */
  lemma UnsetScalesAsSimulator(input: seq<InputObstacle>)
    ensures Extracted(input, Unset) == Extracted(input, Simulator)
  {
    ExtractedMeaning(input, Unset);
    ExtractedMeaning(input, Simulator);
    if Extracted(input, Simulator).Some? {
      assert Extracted(input, Unset).value == Extracted(input, Simulator).value;
    }
  }

  // ---------- Simulator output ----------

  /** A centimetre-frame point (`c_pos`). */
  datatype Point = Point(x: real, y: real)

  /** A node of a searched path: the pose the simulator draws, the centre position, and the segment it drives. */
  datatype PathNode = PathNode(pos: Pose, cPos: Point, d: int, v: int, s: int)

  /** The two entries after each leg that tell the simulator to scan. */
  const ScanStart := Pose(-1, -1, -2.0)
  const ScanEnd := Pose(-1, -1, -1.0)
  const ScanMotion := -2

  function PoseOf(node: PathNode): Pose { node.pos }
  function VertOf(node: PathNode): int { node.v }
  function SteerOf(node: PathNode): int { node.s }

  /**
   * One output array over the first n legs: for each leg, field f of every node, then the two
   * scan entries first and second.
   */
  /** One array's entries for the nodes of one leg. */
  function LegEntries<T>(path: seq<PathNode>, f: PathNode -> T): seq<T>
  {
    seq(|path|, j requires 0 <= j < |path| => f(path[j]))
  }

  function Column<T>(paths: seq<seq<PathNode>>, n: nat, f: PathNode -> T, first: T, second: T): seq<T>
    requires n <= |paths|
  {
    if n == 0 then []
    else
      var path := paths[n - 1];
      Column(paths, n - 1, f, first, second) + LegEntries(path, f) + [first, second]
  }

  function SimPositions(paths: seq<seq<PathNode>>): seq<Pose>
  {
    Column(paths, |paths|, PoseOf, ScanStart, ScanEnd)
  }

  function SimVert(paths: seq<seq<PathNode>>): seq<int>
  {
    Column(paths, |paths|, VertOf, ScanMotion, ScanMotion)
  }

  function SimSteer(paths: seq<seq<PathNode>>): seq<int>
  {
    Column(paths, |paths|, SteerOf, ScanMotion, ScanMotion)
  }

  /** The length of the output for the first n legs: every leg's nodes plus its two scan entries. */
  function SimLength(paths: seq<seq<PathNode>>, n: nat): nat
    requires n <= |paths|
  {
    if n == 0 then 0 else SimLength(paths, n - 1) + |paths[n - 1]| + 2
  }

  /** The node loop for one leg: append its nodes' pose, v and s, then the scan pair. */
  method AppendLeg(positions: seq<Pose>, vert: seq<int>, steer: seq<int>, path: seq<PathNode>)
    returns (positions': seq<Pose>, vert': seq<int>, steer': seq<int>)
    ensures positions' == positions + LegEntries(path, PoseOf) + [ScanStart, ScanEnd]
    ensures vert' == vert + LegEntries(path, VertOf) + [ScanMotion, ScanMotion]
    ensures steer' == steer + LegEntries(path, SteerOf) + [ScanMotion, ScanMotion]
  {
    positions', vert', steer' := positions, vert, steer;
    for j := 0 to |path|
      invariant positions' == positions + LegEntries(path[..j], PoseOf)
      invariant vert' == vert + LegEntries(path[..j], VertOf)
      invariant steer' == steer + LegEntries(path[..j], SteerOf)
    {
      var node := path[j];
      LegEntriesStep(path, j, PoseOf);
      LegEntriesStep(path, j, VertOf);
      LegEntriesStep(path, j, SteerOf);
      positions' := positions' + [node.pos];
      vert' := vert' + [node.v];
      steer' := steer' + [node.s];
    }
    assert path[..|path|] == path;
    positions' := positions' + [ScanStart];
    vert' := vert' + [ScanMotion];
    steer' := steer' + [ScanMotion];
    positions' := positions' + [ScanEnd];
    vert' := vert' + [ScanMotion];
    steer' := steer' + [ScanMotion];
  }

  lemma LegEntriesStep<T>(path: seq<PathNode>, j: nat, f: PathNode -> T)
    requires j < |path|
    ensures LegEntries(path[..j + 1], f) == LegEntries(path[..j], f) + [f(path[j])]
  {
  }

  /** The simulator branch of `main`: append every node of every leg, then the two scan entries. */
  method SimulatorOutput(paths: seq<seq<PathNode>>) returns (positions: seq<Pose>, vert: seq<int>, steer: seq<int>)
    ensures positions == SimPositions(paths) && vert == SimVert(paths) && steer == SimSteer(paths)
  {
    positions, vert, steer := [], [], [];
    for p := 0 to |paths|
      invariant positions == Column(paths, p, PoseOf, ScanStart, ScanEnd)
      invariant vert == Column(paths, p, VertOf, ScanMotion, ScanMotion)
      invariant steer == Column(paths, p, SteerOf, ScanMotion, ScanMotion)
    {
      positions, vert, steer := AppendLeg(positions, vert, steer, paths[p]);
    }
  }

  lemma {:induction false} ColumnLength<T>(paths: seq<seq<PathNode>>, n: nat, f: PathNode -> T, first: T, second: T)
    requires n <= |paths|
    ensures |Column(paths, n, f, first, second)| == SimLength(paths, n)
  {
    if n > 0 {
      ColumnLength(paths, n - 1, f, first, second);
    }
  }

  lemma {:induction false} SimLengthMonotone(paths: seq<seq<PathNode>>, k: nat, n: nat)
    requires k <= n <= |paths|
    ensures SimLength(paths, k) <= SimLength(paths, n)
    decreases n
  {
    if k < n {
      SimLengthMonotone(paths, k, n - 1);
    }
  }

  /** In any output array, leg k occupies the block starting at the length of the legs before it. */
  lemma {:induction false} ColumnLayout<T>(paths: seq<seq<PathNode>>, n: nat, f: PathNode -> T, first: T, second: T, k: nat)
    requires k < n <= |paths|
    ensures SimLength(paths, k + 1) <= SimLength(paths, n) == |Column(paths, n, f, first, second)|
    ensures forall j :: 0 <= j < |paths[k]| ==> Column(paths, n, f, first, second)[SimLength(paths, k) + j] == f(paths[k][j])
    ensures Column(paths, n, f, first, second)[SimLength(paths, k) + |paths[k]|] == first
    ensures Column(paths, n, f, first, second)[SimLength(paths, k) + |paths[k]| + 1] == second
  {
    ColumnLength(paths, n, f, first, second);
    ColumnLength(paths, n - 1, f, first, second);
    SimLengthMonotone(paths, k + 1, n);
    if k < n - 1 {
      ColumnLayout(paths, n - 1, f, first, second, k);
    }
  }

  /** The three arrays stay parallel: each has one entry per node plus two per leg. */
  lemma SimulatorLengths(paths: seq<seq<PathNode>>)
    ensures |SimPositions(paths)| == |SimVert(paths)| == |SimSteer(paths)| == SimLength(paths, |paths|)
  {
    ColumnLength(paths, |paths|, PoseOf, ScanStart, ScanEnd);
    ColumnLength(paths, |paths|, VertOf, ScanMotion, ScanMotion);
    ColumnLength(paths, |paths|, SteerOf, ScanMotion, ScanMotion);
  }

  /**
   * Leg k occupies the block starting at the total length of the legs before it: its nodes'
   * pose, v and s in order, then the scan pair (-1,-1,-2) and (-1,-1,-1) with v = s = -2.
   */
  lemma SimulatorLayout(paths: seq<seq<PathNode>>, k: nat)
    requires k < |paths|
    ensures var at := SimLength(paths, k);
      at + |paths[k]| + 1 < |SimPositions(paths)| == |SimVert(paths)| == |SimSteer(paths)|
      && (forall j :: 0 <= j < |paths[k]| ==>
            SimPositions(paths)[at + j] == paths[k][j].pos && SimVert(paths)[at + j] == paths[k][j].v
            && SimSteer(paths)[at + j] == paths[k][j].s)
      && SimPositions(paths)[at + |paths[k]|] == ScanStart && SimPositions(paths)[at + |paths[k]| + 1] == ScanEnd
      && SimVert(paths)[at + |paths[k]|] == ScanMotion && SimVert(paths)[at + |paths[k]| + 1] == ScanMotion
      && SimSteer(paths)[at + |paths[k]|] == ScanMotion && SimSteer(paths)[at + |paths[k]| + 1] == ScanMotion
  {
    ColumnLayout(paths, |paths|, PoseOf, ScanStart, ScanEnd, k);
    ColumnLayout(paths, |paths|, VertOf, ScanMotion, ScanMotion, k);
    ColumnLayout(paths, |paths|, SteerOf, ScanMotion, ScanMotion, k);
  }

  /** The scan entries are what the simulator's animation treats as a scan: they never move the robot. */
  lemma ScanEntriesAreSentinels()
    ensures IsScanSentinel(ScanStart) && IsScanSentinel(ScanEnd)
    ensures ScanStart.x == -1 && ScanStart.y == -1 && ScanEnd.x == -1 && ScanEnd.y == -1
  {
  }

  // ---------- Live output ----------

  /** Python's `int()` on a float: truncation toward zero. */
  function Trunc(r: real): (t: int)
    ensures r >= 0.0 ==> 0 <= t && t as real <= r < t as real + 1.0
    ensures r < 0.0 ==> t <= 0 && t as real - 1.0 < r <= t as real
  {
    if r >= 0.0 then r.Floor else -((-r).Floor)
  }

  /** How far the robot stopped from the obstacle, measured along the obstacle's facing. */
  function ErrorDistance(ob: Obstacle, dest: Point): real
  {
    match ob.facing
    case N => dest.y - ob.y as real
    case S => ob.y as real - dest.y
    case E => dest.x - ob.x as real
    case _ => ob.x as real - dest.x
  }

  /** A destination t centimetres out from a cardinal-facing obstacle's face is reported as t. */
  lemma ErrorAlongFacing(ob: Obstacle, t: real, sideways: real)
    requires ob.facing == N || ob.facing == S || ob.facing == E || ob.facing == W
    ensures var h := Heading(ob.facing);
      var dest := Point(ob.x as real + t * h.dx as real + sideways * h.dy as real,
                        ob.y as real + t * h.dy as real + sideways * h.dx as real);
      ErrorDistance(ob, dest) == t
  {
  }

  function ErrorCommand(err: real): string
  {
    "EC" + FormatInt(Trunc(err), 3)
  }

  function SnapCommand(id: int): string
  {
    "SNAP" + FormatInt(id, 0)
  }

  /** The error marker reads back as the truncated error. */
  lemma ErrorCommandReadable(err: real)
    ensures ErrorCommand(err)[..2] == "EC"
    ensures IsDecimal(ErrorCommand(err)[2..]) && ParseInt(ErrorCommand(err)[2..]) == Trunc(err)
  {
    assert ErrorCommand(err)[2..] == FormatInt(Trunc(err), 3);
    ParseFormatInt(Trunc(err), 3);
  }

  /** The segment a path node hands to the command generator. */
  function Segments(path: seq<PathNode>): seq<Node>
  {
    seq(|path|, j requires 0 <= j < |path| => Node(path[j].d, path[j].v, path[j].s))
  }

  /** What the live branch needs: a later obstacle id for every leg, naming an obstacle, and no empty leg. */
  predicate LiveReady(paths: seq<seq<PathNode>>, minPerm: seq<int>, obstacles: seq<Obstacle>)
  {
    |minPerm| > |paths|
    && (forall k :: 0 <= k < |paths| ==> |paths[k]| > 0)
    && (forall k :: 0 < k <= |paths| ==> 1 <= minPerm[k] <= |obstacles|)
  }

  /** The markers after a leg towards obstacle `id`: the error, then the snap. */
  function LegMarkers(path: seq<PathNode>, id: int, obstacles: seq<Obstacle>): seq<string>
    requires |path| > 0 && 1 <= id <= |obstacles|
  {
    [ErrorCommand(ErrorDistance(obstacles[id - 1], path[|path| - 1].cPos)), SnapCommand(id)]
  }

  /** What one leg contributes: the commands for its segments, then its markers. */
  function Leg(path: seq<PathNode>, id: int, obstacles: seq<Obstacle>): seq<string>
    requires |path| > 0 && 1 <= id <= |obstacles|
  {
    Combine(RawCommands(Segments(path))) + LegMarkers(path, id, obstacles)
  }

  /** The commands and markers of the first n legs, in order: leg k (from 0) heads for obstacle `minPerm[k + 1]`. */
  function Legs(paths: seq<seq<PathNode>>, minPerm: seq<int>, obstacles: seq<Obstacle>, n: nat): (legs: seq<seq<string>>)
    requires LiveReady(paths, minPerm, obstacles) && n <= |paths|
    ensures |legs| == n
  {
    if n == 0 then [] else Legs(paths, minPerm, obstacles, n - 1) + [Leg(paths[n - 1], minPerm[n], obstacles)]
  }

  /** The first n lists of `lists`, concatenated. */
  function Flatten(lists: seq<seq<string>>, n: nat): seq<string>
    requires n <= |lists|
  {
    if n == 0 then [] else Flatten(lists, n - 1) + lists[n - 1]
  }

  lemma FlattenAppend(lists: seq<seq<string>>, n: nat, next: seq<string>)
    requires n < |lists| && next == lists[n]
    ensures Flatten(lists, n) + next == Flatten(lists, n + 1)
  {
  }

  /** The live command values before `FINXX`: every leg's commands and markers. */
  function LiveBody(paths: seq<seq<PathNode>>, minPerm: seq<int>, obstacles: seq<Obstacle>): seq<string>
    requires LiveReady(paths, minPerm, obstacles)
  {
    Flatten(Legs(paths, minPerm, obstacles, |paths|), |paths|)
  }

  datatype LiveCommand = LiveCommand(cat: string, value: string)

  const Fin := "FINXX"

  /** Command values wrapped with category "control", closed by `FINXX`. */
  function AsControl(values: seq<string>): seq<LiveCommand>
  {
    seq(|values|, k requires 0 <= k < |values| => LiveCommand("control", values[k])) + [LiveCommand("control", Fin)]
  }

  function LiveOutput(paths: seq<seq<PathNode>>, minPerm: seq<int>, obstacles: seq<Obstacle>): seq<LiveCommand>
    requires LiveReady(paths, minPerm, obstacles)
  {
    AsControl(LiveBody(paths, minPerm, obstacles))
  }

  /** One leg of the live branch: its commands, the error towards obstacle `id`, and the snap. */
  method LegCommands(path: seq<PathNode>, id: int, obstacles: seq<Obstacle>) returns (cmds: seq<string>)
    requires |path| > 0 && 1 <= id <= |obstacles|
    ensures cmds == Leg(path, id, obstacles)
  {
    cmds := ConvertSegmentsToCommands(Segments(path));
    var destinationPos := path[|path| - 1].cPos;
    var ob := obstacles[id - 1];
    var errorDistance: real;
    if ob.facing == N {
      errorDistance := destinationPos.y - ob.y as real;
    } else if ob.facing == S {
      errorDistance := ob.y as real - destinationPos.y;
    } else if ob.facing == E {
      errorDistance := destinationPos.x - ob.x as real;
    } else {
      errorDistance := ob.x as real - destinationPos.x;
    }
    assert errorDistance == ErrorDistance(ob, destinationPos);
    cmds := cmds + ["EC" + FormatInt(Trunc(errorDistance), 3)];
    cmds := cmds + ["SNAP" + FormatInt(id, 0)];
  }

  /** The command loop of the live branch: every leg's commands and markers, with `current_perm` counting legs from 1. */
  method LiveBodyAssembly(paths: seq<seq<PathNode>>, minPerm: seq<int>, obstacles: seq<Obstacle>)
    returns (stmCommands: seq<string>)
    requires LiveReady(paths, minPerm, obstacles)
    ensures stmCommands == LiveBody(paths, minPerm, obstacles)
  {
    ghost var legs := LegList(paths, minPerm, obstacles);
    var currentPerm := 1;
    stmCommands := [];
    for p := 0 to |paths|
      invariant currentPerm == p + 1
      invariant stmCommands == Flatten(legs, p)
    {
      stmCommands := ExtendWithLeg(stmCommands, legs, paths, minPerm, obstacles, p, minPerm[currentPerm]);
      currentPerm := currentPerm + 1;
    }
  }

  /** One pass of the command loop: leg p's commands and markers appended to those of the legs before it. */
  method ExtendWithLeg(stmCommands: seq<string>, ghost legs: seq<seq<string>>, paths: seq<seq<PathNode>>,
                       minPerm: seq<int>, obstacles: seq<Obstacle>, p: nat, obId: int)
    returns (extended: seq<string>)
    requires LiveReady(paths, minPerm, obstacles) && LegsUpTo(legs, paths, minPerm, obstacles, |paths|)
    requires p < |paths| && obId == minPerm[p + 1] && stmCommands == Flatten(legs, p)
    ensures extended == Flatten(legs, p + 1)
  {
    assert IsLegAt(legs, paths, minPerm, obstacles, p);
    var leg := LegCommands(paths[p], obId, obstacles);
    FlattenAppend(legs, p, leg);
    extended := stmCommands + leg;
  }

  /** The live branch of `main`: the commands wrapped as control commands, then `FINXX`. */
  method LiveOutputAssembly(paths: seq<seq<PathNode>>, minPerm: seq<int>, obstacles: seq<Obstacle>)
    returns (out: seq<LiveCommand>)
    requires LiveReady(paths, minPerm, obstacles)
    ensures out == LiveOutput(paths, minPerm, obstacles)
  {
    var stmCommands := LiveBodyAssembly(paths, minPerm, obstacles);
    out := WrapAsControl(stmCommands);
  }

  method WrapAsControl(stmCommands: seq<string>) returns (out: seq<LiveCommand>)
    ensures out == AsControl(stmCommands)
  {
    out := [];
    for k := 0 to |stmCommands|
      invariant out == seq(k, i requires 0 <= i < k => LiveCommand("control", stmCommands[i]))
    {
      out := out + [LiveCommand("control", stmCommands[k])];
    }
    out := out + [LiveCommand("control", Fin)];
  }

  /** A snap command: the camera should photograph an obstacle now. */
  predicate IsSnap(c: string)
  {
    |c| >= 4 && c[..4] == "SNAP"
  }

  /** A value the live body may hold: a motor command, an error marker or a snap. */
  predicate BodyValue(c: string)
  {
    IsMotorCommand(c) || (|c| >= 2 && c[..2] == "EC") || IsSnap(c)
  }

  lemma BodyValueIsNotFin(c: string)
    requires BodyValue(c)
    ensures c != Fin
  {
    assert Fin[..2] == "FI" && Fin[..4] == "FINX";
  }

  lemma MotorCommandIsNotSnap(c: string)
    requires IsMotorCommand(c)
    ensures !IsSnap(c)
  {
    assert c[0] == c[..2][0];
    NotSnapByLead(c);
  }

  lemma NotSnapByLead(c: string)
    requires |c| > 0 && c[0] != 'S'
    ensures !IsSnap(c)
  {
    if |c| >= 4 {
      assert c[..4][0] == c[0];
    }
  }


  /** Every value is a motor command, an error marker or a snap. */
  predicate AllBodyValues(cmds: seq<string>)
  {
    forall k :: 0 <= k < |cmds| ==> BodyValue(cmds[k])
  }

  lemma AllBodyValuesAppend(a: seq<string>, b: seq<string>)
    requires AllBodyValues(a) && AllBodyValues(b)
    ensures AllBodyValues(a + b)
  {
    forall k | 0 <= k < |a + b|
      ensures BodyValue((a + b)[k])
    {
      if k >= |a| {
        assert (a + b)[k] == b[k - |a|];
      }
    }
  }

  lemma {:induction false} FlattenValues(lists: seq<seq<string>>, n: nat)
    requires n <= |lists|
    requires forall k :: 0 <= k < |lists| ==> AllBodyValues(lists[k])
    ensures AllBodyValues(Flatten(lists, n))
  {
    if n > 0 {
      FlattenValues(lists, n - 1);
      AllBodyValuesAppend(Flatten(lists, n - 1), lists[n - 1]);
    }
  }

  /** A leg's values are body values, and its only snap is its own. */
  lemma LegFacts(motor: seq<string>, markers: seq<string>, path: seq<PathNode>, id: int, obstacles: seq<Obstacle>)
    requires |path| > 0 && 1 <= id <= |obstacles|
    requires motor == Combine(RawCommands(Segments(path))) && markers == LegMarkers(path, id, obstacles)
    ensures AllBodyValues(motor + markers)
    ensures Snaps(motor + markers) == [SnapCommand(id)]
  {
    ConvertEmitsMotorCommands(Segments(path));
    assert markers[0][..2] == "EC";
    assert markers[1][..4] == "SNAP";
    AllBodyValuesAppend(motor, markers);
    NoSnapsInMotorCommands(motor);
    SnapsAppend(motor, markers);
    SnapsOfMarkers(path, id, obstacles);
  }

  lemma LegSnapsAndValues(path: seq<PathNode>, id: int, obstacles: seq<Obstacle>)
    requires |path| > 0 && 1 <= id <= |obstacles|
    ensures AllBodyValues(Leg(path, id, obstacles))
    ensures Snaps(Leg(path, id, obstacles)) == [SnapCommand(id)]
  {
    LegFacts(Combine(RawCommands(Segments(path))), LegMarkers(path, id, obstacles), path, id, obstacles);
  }

  /** Entry k of `legs` is leg k of the live branch. */
  ghost predicate IsLegAt(legs: seq<seq<string>>, paths: seq<seq<PathNode>>, minPerm: seq<int>, obstacles: seq<Obstacle>, k: nat)
    requires LiveReady(paths, minPerm, obstacles) && k < |paths|
  {
    k < |legs| && legs[k] == Leg(paths[k], minPerm[k + 1], obstacles)
  }

  /** `legs` lists exactly the first n legs of the live branch. */
  ghost predicate LegsUpTo(legs: seq<seq<string>>, paths: seq<seq<PathNode>>, minPerm: seq<int>, obstacles: seq<Obstacle>, n: nat)
    requires LiveReady(paths, minPerm, obstacles) && n <= |paths|
  {
    |legs| == n && forall k :: 0 <= k < n ==> IsLegAt(legs, paths, minPerm, obstacles, k)
  }

  lemma ReadyAt(paths: seq<seq<PathNode>>, minPerm: seq<int>, obstacles: seq<Obstacle>, k: nat)
    requires LiveReady(paths, minPerm, obstacles) && k < |paths|
    ensures |paths[k]| > 0 && 1 <= minPerm[k + 1] <= |obstacles|
  {
  }

  lemma KeepLeg(legs: seq<seq<string>>, leg: seq<string>, paths: seq<seq<PathNode>>, minPerm: seq<int>, obstacles: seq<Obstacle>, k: nat)
    requires LiveReady(paths, minPerm, obstacles) && k < |paths|
    requires IsLegAt(legs, paths, minPerm, obstacles, k)
    ensures IsLegAt(legs + [leg], paths, minPerm, obstacles, k)
  {
  }

  lemma NewLeg(legs: seq<seq<string>>, leg: seq<string>, paths: seq<seq<PathNode>>, minPerm: seq<int>, obstacles: seq<Obstacle>,
               m: nat, n: nat)
    requires LiveReady(paths, minPerm, obstacles) && |legs| == m < |paths| && n == m + 1
    requires leg == Leg(paths[m], minPerm[n], obstacles)
    ensures IsLegAt(legs + [leg], paths, minPerm, obstacles, m)
  {
  }

  lemma LegsUnfold(paths: seq<seq<PathNode>>, minPerm: seq<int>, obstacles: seq<Obstacle>, m: nat, n: nat)
    requires LiveReady(paths, minPerm, obstacles) && m < |paths| && n == m + 1
    ensures |paths[m]| > 0 && 1 <= minPerm[n] <= |obstacles|
    ensures Legs(paths, minPerm, obstacles, n) == Legs(paths, minPerm, obstacles, m) + [Leg(paths[m], minPerm[n], obstacles)]
  {
    ReadyAt(paths, minPerm, obstacles, m);
  }

  lemma LegsKeep(paths: seq<seq<PathNode>>, minPerm: seq<int>, obstacles: seq<Obstacle>, m: nat, n: nat, k: nat)
    requires LiveReady(paths, minPerm, obstacles) && m < |paths| && n == m + 1 && k < m
    requires IsLegAt(Legs(paths, minPerm, obstacles, m), paths, minPerm, obstacles, k)
    ensures IsLegAt(Legs(paths, minPerm, obstacles, n), paths, minPerm, obstacles, k)
  {
    LegsUnfold(paths, minPerm, obstacles, m, n);
    KeepLeg(Legs(paths, minPerm, obstacles, m), Leg(paths[m], minPerm[n], obstacles), paths, minPerm, obstacles, k);
  }

  lemma LegsNew(paths: seq<seq<PathNode>>, minPerm: seq<int>, obstacles: seq<Obstacle>, m: nat, n: nat)
    requires LiveReady(paths, minPerm, obstacles) && m < |paths| && n == m + 1
    ensures IsLegAt(Legs(paths, minPerm, obstacles, n), paths, minPerm, obstacles, m)
  {
    LegsUnfold(paths, minPerm, obstacles, m, n);
    NewLeg(Legs(paths, minPerm, obstacles, m), Leg(paths[m], minPerm[n], obstacles), paths, minPerm, obstacles, m, n);
  }

  /** Entry k of `Legs(..., n)` (with n = m + 1) is leg k. */
  lemma {:induction false} LegAt(paths: seq<seq<PathNode>>, minPerm: seq<int>, obstacles: seq<Obstacle>, m: nat, n: nat, k: nat)
    requires LiveReady(paths, minPerm, obstacles) && m < |paths| && n == m + 1 && k <= m
    ensures IsLegAt(Legs(paths, minPerm, obstacles, n), paths, minPerm, obstacles, k)
    decreases m
  {
    if k < m {
      LegAt(paths, minPerm, obstacles, m - 1, m, k);
      LegsKeep(paths, minPerm, obstacles, m, n, k);
    } else {
      LegsNew(paths, minPerm, obstacles, m, n);
    }
  }

  /** `Legs(..., n)` is what its name says: entry k is leg k, for every k below n. */
  lemma LegsMatch(paths: seq<seq<PathNode>>, minPerm: seq<int>, obstacles: seq<Obstacle>, n: nat)
    requires LiveReady(paths, minPerm, obstacles) && n <= |paths|
    ensures LegsUpTo(Legs(paths, minPerm, obstacles, n), paths, minPerm, obstacles, n)
  {
    forall k | 0 <= k < n
      ensures IsLegAt(Legs(paths, minPerm, obstacles, n), paths, minPerm, obstacles, k)
    {
      LegAt(paths, minPerm, obstacles, n - 1, n, k);
    }
  }

  /** The legs of the live branch, as the pieces the body concatenates. */
  lemma LegList(paths: seq<seq<PathNode>>, minPerm: seq<int>, obstacles: seq<Obstacle>) returns (legs: seq<seq<string>>)
    requires LiveReady(paths, minPerm, obstacles)
    ensures LegsUpTo(legs, paths, minPerm, obstacles, |paths|)
    ensures Flatten(legs, |paths|) == LiveBody(paths, minPerm, obstacles)
  {
    legs := Legs(paths, minPerm, obstacles, |paths|);
    LegsMatch(paths, minPerm, obstacles, |paths|);
  }

  lemma LegFactsAt(legs: seq<seq<string>>, paths: seq<seq<PathNode>>, minPerm: seq<int>, obstacles: seq<Obstacle>, k: nat)
    requires LiveReady(paths, minPerm, obstacles) && k < |paths| && IsLegAt(legs, paths, minPerm, obstacles, k)
    ensures AllBodyValues(legs[k])
    ensures Snaps(legs[k]) == [SnapCommand(minPerm[k + 1])]
  {
    ReadyAt(paths, minPerm, obstacles, k);
    LegSnapsAndValues(paths[k], minPerm[k + 1], obstacles);
  }

  /** Every leg holds only body values and exactly one snap, for the obstacle it heads to. */
  lemma AllLegsFacts(legs: seq<seq<string>>, paths: seq<seq<PathNode>>, minPerm: seq<int>, obstacles: seq<Obstacle>)
    requires LiveReady(paths, minPerm, obstacles) && LegsUpTo(legs, paths, minPerm, obstacles, |paths|)
    ensures forall k :: 0 <= k < |paths| ==> AllBodyValues(legs[k])
    ensures forall k :: 0 <= k < |paths| ==> Snaps(legs[k]) == [SnapCommand(minPerm[k + 1])]
  {
    forall k | 0 <= k < |paths|
      ensures AllBodyValues(legs[k])
      ensures Snaps(legs[k]) == [SnapCommand(minPerm[k + 1])]
    {
      LegFactsAt(legs, paths, minPerm, obstacles, k);
    }
  }

  /** Every live command has category "control", and `FINXX` comes last and only last. */
  /** Every value of the live body is a motor command, an error marker or a snap. */
  lemma LiveBodyValues(paths: seq<seq<PathNode>>, minPerm: seq<int>, obstacles: seq<Obstacle>)
    requires LiveReady(paths, minPerm, obstacles)
    ensures AllBodyValues(LiveBody(paths, minPerm, obstacles))
  {
    var legs := LegList(paths, minPerm, obstacles);
    AllLegsFacts(legs, paths, minPerm, obstacles);
    FlattenValues(legs, |paths|);
  }

  lemma LiveEndsWithFin(paths: seq<seq<PathNode>>, minPerm: seq<int>, obstacles: seq<Obstacle>)
    requires LiveReady(paths, minPerm, obstacles)
    ensures var out := LiveOutput(paths, minPerm, obstacles);
      |out| == |LiveBody(paths, minPerm, obstacles)| + 1 && out[|out| - 1].value == Fin
      && (forall k :: 0 <= k < |out| ==> out[k].cat == "control")
      && (forall k :: 0 <= k < |out| - 1 ==> out[k].value != Fin)
  {
    var body := LiveBody(paths, minPerm, obstacles);
    var out := LiveOutput(paths, minPerm, obstacles);
    LiveBodyValues(paths, minPerm, obstacles);
    forall k | 0 <= k < |out| - 1
      ensures out[k].value != Fin
    {
      assert out[k].value == body[k];
      BodyValueIsNotFin(body[k]);
    }
  }

  /** The snap values of a command list, in order. */
  function Snaps(cmds: seq<string>): seq<string>
  {
    if cmds == [] then [] else Snaps(cmds[..|cmds| - 1]) + (if IsSnap(cmds[|cmds| - 1]) then [cmds[|cmds| - 1]] else [])
  }

  lemma {:induction false} SnapsAppend(a: seq<string>, b: seq<string>)
    ensures Snaps(a + b) == Snaps(a) + Snaps(b)
    decreases |b|
  {
    if b != [] {
      assert (a + b)[..|a + b| - 1] == a + b[..|b| - 1];
      SnapsAppend(a, b[..|b| - 1]);
    } else {
      assert a + b == a;
    }
  }

  lemma {:induction false} NoSnapsInMotorCommands(cmds: seq<string>)
    requires MotorCommands(cmds)
    ensures Snaps(cmds) == []
  {
    if cmds != [] {
      NoSnapsInMotorCommands(cmds[..|cmds| - 1]);
      MotorCommandIsNotSnap(cmds[|cmds| - 1]);
    }
  }

  lemma SnapsOfMarkers(path: seq<PathNode>, id: int, obstacles: seq<Obstacle>)
    requires |path| > 0 && 1 <= id <= |obstacles|
    ensures Snaps(LegMarkers(path, id, obstacles)) == [SnapCommand(id)]
  {
    var markers := LegMarkers(path, id, obstacles);
    assert markers[1][..4] == "SNAP";
    assert markers[0][0] == 'E';
    NotSnapByLead(markers[0]);
    assert markers[..1] == [markers[0]] && [markers[0]][..0] == [];
    assert Snaps([markers[0]]) == [];
    assert Snaps(markers) == Snaps([markers[0]]) + [markers[1]];
  }


  /** One snap per leg, for `minPerm[1]`, ..., `minPerm[n]`. */
  function ExpectedSnaps(minPerm: seq<int>, n: nat): seq<string>
    requires n < |minPerm|
  {
    if n == 0 then [] else ExpectedSnaps(minPerm, n - 1) + [SnapCommand(minPerm[n])]
  }

  lemma {:induction false} ExpectedSnapsLength(minPerm: seq<int>, n: nat)
    requires n < |minPerm|
    ensures |ExpectedSnaps(minPerm, n)| == n
  {
    if n > 0 {
      ExpectedSnapsLength(minPerm, n - 1);
    }
  }

  lemma {:induction false} ExpectedSnapAt(minPerm: seq<int>, n: nat, k: nat)
    requires k < n < |minPerm|
    ensures |ExpectedSnaps(minPerm, n)| == n
    ensures ExpectedSnaps(minPerm, n)[k] == SnapCommand(minPerm[k + 1])
  {
    ExpectedSnapsLength(minPerm, n);
    if k < n - 1 {
      ExpectedSnapAt(minPerm, n - 1, k);
      ExpectedSnapKept(minPerm, n - 1, n, k);
    } else {
      ExpectedSnapLast(minPerm, n - 1, n);
    }
  }

  lemma ExpectedSnapKept(minPerm: seq<int>, m: nat, n: nat, k: nat)
    requires n == m + 1 && k < m && n < |minPerm|
    requires |ExpectedSnaps(minPerm, m)| == m
    ensures ExpectedSnaps(minPerm, n)[k] == ExpectedSnaps(minPerm, m)[k]
  {
  }

  lemma ExpectedSnapLast(minPerm: seq<int>, m: nat, n: nat)
    requires n == m + 1 && n < |minPerm|
    ensures |ExpectedSnaps(minPerm, m)| == m ==> ExpectedSnaps(minPerm, n)[m] == SnapCommand(minPerm[n])
  {
  }

  lemma ExpectedSnapsAt(minPerm: seq<int>, n: nat)
    requires n < |minPerm|
    ensures |ExpectedSnaps(minPerm, n)| == n
    ensures forall k :: 0 <= k < n ==> ExpectedSnaps(minPerm, n)[k] == SnapCommand(minPerm[k + 1])
  {
    ExpectedSnapsLength(minPerm, n);
    forall k | 0 <= k < n
      ensures ExpectedSnaps(minPerm, n)[k] == SnapCommand(minPerm[k + 1])
    {
      ExpectedSnapAt(minPerm, n, k);
    }
  }

  lemma {:induction false} SnapsOfFlatten(lists: seq<seq<string>>, ids: seq<int>, n: nat)
    requires n <= |lists| && |lists| < |ids|
    requires forall k :: 0 <= k < |lists| ==> Snaps(lists[k]) == [SnapCommand(ids[k + 1])]
    ensures Snaps(Flatten(lists, n)) == ExpectedSnaps(ids, n)
  {
    if n > 0 {
      SnapsOfFlatten(lists, ids, n - 1);
      SnapsAppend(Flatten(lists, n - 1), lists[n - 1]);
    }
  }

  /**
   * The snaps tell the camera which obstacle to photograph: one per leg, in visiting order
   * `minPerm[1]`, `minPerm[2]`, ... (entry 0 is the start and gets none).
   */
  lemma SnapOrder(paths: seq<seq<PathNode>>, minPerm: seq<int>, obstacles: seq<Obstacle>)
    requires LiveReady(paths, minPerm, obstacles)
    ensures |Snaps(LiveBody(paths, minPerm, obstacles))| == |paths|
    ensures forall k :: 0 <= k < |paths| ==> Snaps(LiveBody(paths, minPerm, obstacles))[k] == SnapCommand(minPerm[k + 1])
  {
    var legs := LegList(paths, minPerm, obstacles);
    AllLegsFacts(legs, paths, minPerm, obstacles);
    SnapsOfFlatten(legs, minPerm, |paths|);
    ExpectedSnapsAt(minPerm, |paths|);
  }

  // ---------- The whole post-search step of `main` ----------

  datatype Response =
    | SimulatorResponse(positions: seq<Pose>, vert: seq<int>, steer: seq<int>)
    | LiveResponse(commands: seq<LiveCommand>)
    | Rejected   // an unknown facing code raised while extracting the obstacles
    | NoOutput   // neither mode branch ran: `main` returns nothing

  /** `main` after the search: extract the obstacles, then package the search result for the mode. */
  method Respond(input: seq<InputObstacle>, mode: Mode, minPerm: seq<int>, paths: seq<seq<PathNode>>)
    returns (r: Response)
    requires mode == Live && Extracted(input, Live).Some? ==> LiveReady(paths, minPerm, Extracted(input, Live).value)
    ensures r.Rejected? <==> Extracted(input, mode).None?
    ensures mode == Simulator && r != Rejected ==>
      r == SimulatorResponse(SimPositions(paths), SimVert(paths), SimSteer(paths))
    ensures mode == Live && r != Rejected ==>
      r == LiveResponse(LiveOutput(paths, minPerm, Extracted(input, Live).value))
    ensures mode == Unset && r != Rejected ==> r == NoOutput
  {
    var obstacles := ExtractObstaclesFromInput(input, mode);
    if obstacles.None? {
      return Rejected;
    }
    if mode == Simulator {
      var positions, vert, steer := SimulatorOutput(paths);
      return SimulatorResponse(positions, vert, steer);
    }
    if mode == Live {
      var commands := LiveOutputAssembly(paths, minPerm, obstacles.value);
      return LiveResponse(commands);
    }
    return NoOutput;
  }
}
