# Robot course planner: command generation, turning cells and the simulator grid

This project models the core of a planner for a small robot that drives around a grid of
obstacles and photographs them. It has two halves:

- **The algorithm server** (Python). It scales the obstacles it receives. It takes the search
  result (the visiting order `min_perm` and one path per leg) and packages it in one of two
  forms:
  - for the browser simulator, three parallel arrays (poses, vertical motion, steering) with
    two scan entries after every leg;
  - for the live robot, motor-command strings. Consecutive straight moves are merged and long
    moves are split in halves. Each leg ends with an error marker `EC…` and a snap `SNAP<id>`,
    and the list ends with `FINXX`.
- **The simulator** (TypeScript/React). It synthesises, for each step of a loaded result, the
  grid cells a turn sweeps. It plays the steps back by timer or by hand. It draws the grid:
  the robot's 3×3 footprint with its centre and camera, the turning path, the obstacles with
  their click actions, the trail of visited centres, and the axis labels.

The project has eight modules:

| module | contents |
|---|---|
| `Wrappers` | `Option` |
| `Robot` | directions, poses and cells |
| `Decimal` | Python's `"{:03d}"` formatting and `int()` parsing, with their round trip |
| `StmCommands` | `stm_commands.py` |
| `AlgoServer` | the post-search part of `main.py` |
| `TurningCells` | `getXYsigns` and `generateTurningCells` |
| `Animation` | the step, play and run-guard rules of `AlgorithmCore.tsx`, as class `Sequencer` |
| `GridCreation` | `html_grid_creation.tsx` |

Each loop of the source is a method proved equal to a declarative specification function. The
properties are lemmas about those functions:

- Merging keeps the movement: same turns in the same order, and the same distance per prefix.
- The turning cells run from pose to pose through adjacent cells.
- The grid shows the live centre and records it in the trail.
- The snaps follow the visiting order, and `FINXX` comes last and only last.

## Model

| member | source | states |
|---|---|---|
| StmCommands.ConvertSegmentsToCommands | algo/algorithms/robot/stm_commands.py:12-87 | the result is the node-by-node command list (zero-length nodes and unknown v/s skipped) with straight runs merged |
| StmCommands.NodeCommandShape | algo/algorithms/robot/stm_commands.py:27-43 | every emitted command is one of FW/BW/FL/FR/BL/BR; a straight one reads back as the node's distance, FW exactly when v = 1 |
| StmCommands.RawCommandsWellFormed | algo/algorithms/robot/stm_commands.py:25-43 | every converted command is a motor command and every straight one has a decimal argument, so `int(cmd[2:])` never raises |
| StmCommands.CombineFwBw | algo/algorithms/robot/stm_commands.py:47-85 | the accumulator loop with `temp_cmd`/`temp_sum` returns exactly the run-based specification `Combine` |
| StmCommands.CombineStep | algo/algorithms/robot/stm_commands.py:52-72 | one iteration keeps the accumulator invariant: every run before the pending one is emitted, and `temp_cmd`/`temp_sum` hold the last straight run, now including `cmd` |
| StmCommands.CombinePreservesRuns | algo/algorithms/robot/stm_commands.py:47-85 | merging changes no run: the turns and the maximal straight runs with their totals are the same before and after |
| StmCommands.CombinePreservesDistance | algo/algorithms/robot/stm_commands.py:53-81 | for FW and for BW the total distance is unchanged by merging and splitting |
| StmCommands.CombinePreservesTurns | algo/algorithms/robot/stm_commands.py:63-72 | turn commands pass through unchanged and in order |
| StmCommands.ConvertPreservesDistance | algo/algorithms/robot/stm_commands.py:25-87 | the forward (backward) distance of the final commands equals the sum of d over nodes with v = 1 (v = -1) and s = 0 |
| StmCommands.FlushSplit | algo/algorithms/robot/stm_commands.py:55-59 | a run of 100 or more becomes two commands of floor(t/2) and ceil(t/2), which sum to t and differ by at most 1; a shorter run becomes one |
| StmCommands.FlushPadded | algo/algorithms/robot/stm_commands.py:55-69 | inside the list every flushed command of a total below 1000 is exactly 5 characters |
| StmCommands.CombineExample | algo/algorithms/robot/stm_commands.py:74-79 | FW010, FW020, FR045, FW080, FW030 becomes FW030, FR045, FW55, FW55: the split at the end of the list is not zero-padded |
| StmCommands.CombineEmitsMotorCommands | algo/algorithms/robot/stm_commands.py:47-85 | given motor commands, merging outputs only motor commands |
| AlgoServer.FacingOf | algo/algorithms/common/utils.py:10-15 | the facing table accepts exactly the codes 1..4 and maps them to N, S, E, W |
| AlgoServer.FacingRoundTrip | algo/algorithms/common/utils.py:10-15 | codes 1..4 and the four cardinal directions are in one-to-one correspondence |
| AlgoServer.ExtractObstaclesFromInput | algo/algorithms/main.py:185-199 | the loop returns the specification `Extracted`: None on the first unknown facing code, else the scaled list |
| AlgoServer.ExtractedMeaning | algo/algorithms/main.py:185-199 | extraction fails iff some code is outside 1..4; otherwise count and order are kept and x, y are multiplied by 5 (simulator) or 10 (live) |
| AlgoServer.LiveDoublesSimulator | algo/algorithms/main.py:187-190 | on the same input both modes fail alike, and live coordinates are twice the simulator's |
| AlgoServer.UnsetScalesAsSimulator | algo/algorithms/main.py:187-190 | an explicit null `server_mode` extracts exactly as the simulator does: only live doubles the factor |
| AlgoServer.SimulatorOutput | algo/algorithms/main.py:111-133 | the nested loops return the specification arrays `SimPositions`, `SimVert` and `SimSteer` |
| AlgoServer.SimulatorLengths | algo/algorithms/main.py:111-133 | the three arrays have the same length, the sum over legs of (nodes + 2) |
| AlgoServer.SimulatorLayout | algo/algorithms/main.py:116-130 | leg k starts at the total length of the legs before it: its nodes' pose, v and s in order, then (-1,-1,-2) and (-1,-1,-1) with v = s = -2 |
| AlgoServer.ScanEntriesAreSentinels | algo/algorithms/main.py:125-130 | both scan entries sit at (-1,-1) with the scan headings -2 and -1 the simulator recognises |
| AlgoServer.Trunc | algo/algorithms/main.py:155 | `int()` truncates toward zero: the result lies within 1 of the value, on the zero side |
| AlgoServer.ErrorAlongFacing | algo/algorithms/main.py:147-154 | a stop t cm out from an obstacle's face, along its facing and at any sideways offset, is reported as error t |
| AlgoServer.ErrorCommandReadable | algo/algorithms/main.py:155-156 | the error marker starts with EC and its argument reads back as the truncated error |
| AlgoServer.LegCommands | algo/algorithms/main.py:140-157 | one leg gives its converted commands, then `EC` + error towards obstacle `min_perm[k]`, then `SNAP` + that id |
| AlgoServer.LiveBodyAssembly | algo/algorithms/main.py:136-159 | the leg loop, with `current_perm` starting at 1, returns the specification `LiveBody` |
| AlgoServer.ExtendWithLeg | algo/algorithms/main.py:139-159 | one pass appends leg p, heading for `min_perm[p+1]`, after the legs before it |
| AlgoServer.LiveOutputAssembly | algo/algorithms/main.py:136-177 | the live output is every body value wrapped with cat "control", then `FINXX` |
| AlgoServer.WrapAsControl | algo/algorithms/main.py:164-177 | every command gets cat "control" and the list is closed by `FINXX` |
| AlgoServer.LiveEndsWithFin | algo/algorithms/main.py:164-177 | every output command has cat "control"; the last is `FINXX` and no earlier one is |
| AlgoServer.LiveBodyValues | algo/algorithms/main.py:136-159 | every value before `FINXX` is a motor command, an error marker or a snap |
| AlgoServer.SnapOrder | algo/algorithms/main.py:139-159 | there is one snap per leg, and they name `min_perm[1]`, `min_perm[2]`, … in order |
| AlgoServer.Respond | algo/algorithms/main.py:89-177 | an unknown facing code rejects the request; otherwise the simulator gets the three arrays, the live robot the command list, and an explicit null mode gets nothing |
| TurningCells.XYSigns | algo/simulator/src/components/core/algorithm/AlgorithmCore.tsx:217-271 | an unknown heading gives (0,0); unit motion and steer give unit signs |
| TurningCells.XYSignsMeaning | algo/simulator/src/components/core/algorithm/AlgorithmCore.tsx:217-271 | diagonal headings step along the heading (times the motion); cardinal ones step along the heading plus a sideways unit to the steer's side |
| TurningCells.XYSignsReverse | algo/simulator/src/components/core/algorithm/AlgorithmCore.tsx:217-271 | reversing the motion reverses the component along the heading |
| TurningCells.TraceTurn | algo/simulator/src/components/core/algorithm/AlgorithmCore.tsx:304-376 | the first step and the two while loops produce the specification `TurnPath` |
| TurningCells.WalkDiagonally | algo/simulator/src/components/core/algorithm/AlgorithmCore.tsx:361-365 | the diagonal loop stops at the first cell aligned with the target on an axis, having pushed `DiagonalWalk` |
| TurningCells.WalkAxes | algo/simulator/src/components/core/algorithm/AlgorithmCore.tsx:367-376 | the axis loop closes x first, then y, pushing `AxisWalk` |
| TurningCells.StepTowards | algo/simulator/src/components/core/algorithm/AlgorithmCore.tsx:368-374 | one pass moves one cell towards the target: along x while x differs, else along y |
| TurningCells.StepFirst | algo/simulator/src/components/core/algorithm/AlgorithmCore.tsx:322-341 | the first step of a turn is the guarded step of the heading group: both guarded axes on a diagonal, guarded y on N/S, unguarded x on E/W |
| TurningCells.Transition | algo/simulator/src/components/core/algorithm/AlgorithmCore.tsx:282-379 | one pass of the loop pushes exactly `TurningCellsAt(i)` and leaves `last` at the latest real pose up to i+1 |
| TurningCells.GenerateTurningCells | algo/simulator/src/components/core/algorithm/AlgorithmCore.tsx:273-382 | one list per step after a leading empty list; list i+1 is `TurningCellsAt(i)` |
| TurningCells.LastRealIsLatest | algo/simulator/src/components/core/algorithm/AlgorithmCore.tsx:279-379 | `last` is pose 0 or the latest non-scan pose at or before i, and all poses after it are scans |
| TurningCells.ScanTransition | algo/simulator/src/components/core/algorithm/AlgorithmCore.tsx:282-292 | a step into a scan pose gets no cells and leaves `last` alone |
| TurningCells.StraightTransition | algo/simulator/src/components/core/algorithm/AlgorithmCore.tsx:294-303 | a non-turning step gets no cells and moves `last` to it |
| TurningCells.TurnUsesLatestRealHeading | algo/simulator/src/components/core/algorithm/AlgorithmCore.tsx:294-303 | a turn uses the heading of the latest real pose and the step's own vert/steer (0 when the arrays are absent) |
| TurningCells.DiagonalWalkEnds | algo/simulator/src/components/core/algorithm/AlgorithmCore.tsx:361-365 | the diagonal part is empty iff it does not move, and otherwise it ends where it stops |
| TurningCells.AxisWalkEnds | algo/simulator/src/components/core/algorithm/AlgorithmCore.tsx:367-376 | the axis part has exactly Manhattan-distance cells and ends on the target |
| TurningCells.TurnPathEnds | algo/simulator/src/components/core/algorithm/AlgorithmCore.tsx:304-376 | a turn's cells start at the previous pose and end at the next one |
| TurningCells.TurningCellsEndpoints | algo/simulator/src/components/core/algorithm/AlgorithmCore.tsx:273-382 | each turning list starts at pose i and ends at pose i+1; on E/W headings the first step moves x without a guard |
| TurningCells.TurnPathAdjacent | algo/simulator/src/components/core/algorithm/AlgorithmCore.tsx:304-376 | with unit signs, consecutive cells of a turn touch (king-move adjacency) |
| TurningCells.TurningCellsAdjacent | algo/simulator/src/components/core/algorithm/AlgorithmCore.tsx:273-382 | every generated turning list is a chain of touching cells |
| TurningCells.NorthTurnExample | algo/simulator/src/components/core/algorithm/AlgorithmCore.tsx:304-376 | facing north, a forward right turn from (0,0) to (2,3) sweeps (0,0), (0,1), (1,2), (2,3) |
| TurningCells.StraightMoveExample | algo/simulator/src/components/core/algorithm/AlgorithmCore.tsx:294-303 | a straight move produces an empty list after the leading one |
| Animation.Sequencer.constructor | algo/simulator/src/components/core/algorithm/AlgorithmCore.tsx:130-145 | starts at step 0, idle, with nothing loaded and the single empty turning list |
| Animation.Sequencer.BeginRun | algo/simulator/src/components/core/algorithm/AlgorithmCore.tsx:82-84 | a run starts iff nothing is playing and nothing is loading; a started run only sets loading, and a refused run changes nothing |
| Animation.Sequencer.FinishRun | algo/simulator/src/components/core/algorithm/AlgorithmCore.tsx:103-126 | a result replaces poses and both command arrays, rewinds to 0 and regenerates the turning lists (empty first, then one per step); a failure only ends loading; every other field is kept |
| Animation.Sequencer.ShowStep | algo/simulator/src/components/core/algorithm/AlgorithmCore.tsx:157-171 | the new state is `Shown`: a scan step only shows its turning list; a move also moves the robot and shifts the previous/next pointers, reading the previous pose through the old pointer; nothing else changes |
| Animation.Sequencer.AnimationEffect | algo/simulator/src/components/core/algorithm/AlgorithmCore.tsx:147-207 | a timer is set iff playing with a next step, its delay longer by 200 when the next step turns, and the state is untouched; otherwise, in manual mode, the current step is shown at once (state `Shown`); otherwise nothing changes |
| Animation.Sequencer.TimerFires | algo/simulator/src/components/core/algorithm/AlgorithmCore.tsx:150-177 | advances exactly one step and shows it (state `Shown`, pointer shift included), and stops playing exactly on the last step; nothing else changes |
| Animation.Sequencer.ToggleAnimation | algo/simulator/src/components/core/algorithm/AlgorithmCore.tsx:479-491 | stop only clears playing; play leaves manual mode, and from the last step also rewinds to step 0 at the first pose; nothing else changes |
| Animation.Sequencer.StepBack | algo/simulator/src/components/core/algorithm/AlgorithmCore.tsx:505-510 | steps back one and enters manual mode, changing nothing else, unless playing or at step 0, when nothing changes |
| Animation.Sequencer.StepForward | algo/simulator/src/components/core/algorithm/AlgorithmCore.tsx:517-522 | steps forward one and enters manual mode, changing nothing else, unless playing or at the last step, when nothing changes |
| Animation.Sequencer.Scrub | algo/simulator/src/components/core/algorithm/AlgorithmCore.tsx:526-539 | the slider sets the step to its value and enters manual mode, changing nothing else |
| Animation.Sequencer.PointerUp | algo/simulator/src/components/core/algorithm/AlgorithmCore.tsx:535 | releasing the slider leaves manual mode and changes nothing else |
| Animation.Sequencer.SelectTest | algo/simulator/src/components/core/algorithm/AlgorithmCore.tsx:66-76 | a new preset forgets the poses and command arrays and rewinds to step 0 at the initial pose; the turning lists regenerate to `[[]]`; nothing else changes |
| GridCreation.FootprintAroundCentre | algo/simulator/src/components/core/algorithm/utils/html_grid_creation.tsx:247-313 | for every known heading `isRobotCell` holds exactly on the cells within one step of the centre |
| GridCreation.CameraAheadOfCentre | algo/simulator/src/components/core/algorithm/utils/html_grid_creation.tsx:233-265 | centre and camera lie in the footprint, and the camera is one step from the centre along the heading |
| GridCreation.UnknownHasNoFootprint | algo/simulator/src/components/core/algorithm/utils/html_grid_creation.tsx:268-313 | an unrecognised heading occupies no cell |
| GridCreation.FootprintHasNineCells | algo/simulator/src/components/core/algorithm/utils/html_grid_creation.tsx:268-313 | the footprint is exactly nine distinct cells |
| GridCreation.ObstacleDirectionCycle | algo/simulator/src/components/core/algorithm/utils/html_grid_creation.tsx:197 | clicking an obstacle cycles its code 1→2→3→4→1 and returns after exactly four clicks |
| GridCreation.ObstacleDirectionInRange | algo/simulator/src/components/core/algorithm/utils/html_grid_creation.tsx:197 | one click takes any non-negative code into 1..4 |
| GridCreation.FirstObstacleAt | algo/simulator/src/components/core/algorithm/utils/html_grid_creation.tsx:71 | `find` returns the first obstacle on the cell, or none when none is there |
| GridCreation.ClassifyCell | algo/simulator/src/components/core/algorithm/utils/html_grid_creation.tsx:40-89 | a cell is classified as the pure `Classify` over the trail as it was before the scan; a centre cell is appended to the trail |
| GridCreation.CreateRow | algo/simulator/src/components/core/algorithm/utils/html_grid_creation.tsx:37-90 | a row holds x = 0 .. width-1 in order, each classified; the row's centre cells are appended |
| GridCreation.CreateHTMLGrid | algo/simulator/src/components/core/algorithm/utils/html_grid_creation.tsx:22-94 | one row per y from top to bottom, each classified; the trail grows by exactly the centre cells in scan order |
| GridCreation.ScanRow | algo/simulator/src/components/core/algorithm/utils/html_grid_creation.tsx:36-92 | one pass of the outer loop appends row y below the rows above it, and the trail gains that row's centres |
| GridCreation.ClassifiedRowsLaidOut | algo/simulator/src/components/core/algorithm/utils/html_grid_creation.tsx:36-91 | the grid is laid out top row first, x increasing |
| GridCreation.TopRowsCentersMembers | algo/simulator/src/components/core/algorithm/utils/html_grid_creation.tsx:47-50 | inside the scanned rows, a cell is recorded iff it is a centre cell |
| GridCreation.LiveCentreShownAndRecorded | algo/simulator/src/components/core/algorithm/utils/html_grid_creation.tsx:40-60 | with a known heading the live centre shows as a centre, and a grid containing it records it in the trail |
| GridCreation.PastCentreStaysVisible | algo/simulator/src/components/core/algorithm/utils/html_grid_creation.tsx:40-89 | a recorded centre stays highlighted unless the turning path or an obstacle covers it |
| GridCreation.CameraShown | algo/simulator/src/components/core/algorithm/utils/html_grid_creation.tsx:51-64 | the camera cell shows as the camera, unless it was recorded as a centre |
| GridCreation.EmptyCellClick | algo/simulator/src/components/core/algorithm/utils/html_grid_creation.tsx:97-117 | on an editable grid an empty cell asks for a new obstacle facing 1; a read-only grid has no click |
| GridCreation.ObstacleClick | algo/simulator/src/components/core/algorithm/utils/html_grid_creation.tsx:173-200 | on an editable grid an obstacle asks for its next direction `(d % 4) + 1`; a read-only grid has no click |
| GridCreation.HtmlTable.AddHTMLGridLabels | algo/simulator/src/components/core/algorithm/utils/html_grid_creation.tsx:204-221 | every row gains its label height-k-1 in front, and the label row (blank, 0 .. width-1) is appended |
| GridCreation.LabelsMatchCoordinates | algo/simulator/src/components/core/algorithm/utils/html_grid_creation.tsx:204-221 | on a laid-out grid, each row label is the y of its squares and each column label the x of its column |
| Decimal.ParseFormatInt | algo/algorithms/robot/stm_commands.py:33 | `"{:0wd}".format(n)` is decimal text that `int()` reads back as n, for every n and width |

## Left out

- Networking is not modelled: the HTTP request, the FastAPI endpoints and CORS.
- Presentation is not modelled: toasts, `setTimeout` scheduling and delays, JSX markup and
  styling (face classes, `highlight_center_cell.tsx`). Grid cells are tags, and a scheduled
  timer is the returned delay plus `Animation.Sequencer.TimerFires`.
- Logging, printing, run-time timing (`algoRuntime`) and multiprocessing are not modelled.
- The conversion from a heading angle to a direction lives in a file this model does not
  include. It is a parameter `dirOf`.
- `convertAlgoOutputToStepwisePosition` is not part of this model. `FinishRun` receives the
  poses already expanded.
- The path search (`HamiltonianSearch`, A*) is not modelled. `min_perm` and the paths are inputs.
- The grid size, the block-size multiplier and the animation speed are constants defined in
  files this model does not include. They are parameters.
- `AlgoServer` coordinates:
  - Pose coordinates are integers and headings are reals. `c_pos` is real, and `int()` on it
    is modelled exactly as truncation.
  - Node distances are integers, so the model has no floating-point rounding.
- `TurningCells.GenerateTurningCells` requires two things:
  - The vert and steer arrays cover every pose. The source reads `undefined` past their end.
  - Every diagonal walk ends: its signs have unit components and point toward the target on
    an axis. Otherwise the source's `while` loop can run forever.
- `AlgoServer.LiveOutputAssembly` requires that `min_perm` has an entry for every leg after
  its unread entry 0, that no leg is empty, and that every entry read lies in 1..|obstacles|.
  Entries outside that range are excluded:
  - above it, or at or below -|obstacles|, `obstacles[obID-1]` raises;
  - between -|obstacles|+1 and 0, Python's negative indexing silently picks an obstacle from
    the end of the list, so `EC` is measured against that obstacle and `SNAP` names a
    non-obstacle id.
  The search only produces ids 1..n.
- `Animation.Sequencer.AnimationEffect` models one run of the effect. React batches state
  updates, so `previousRobotPosition` reads the pointer from before the update. The model
  keeps this but does not model renders interleaving with the timer.
- `Animation.Sequencer.Scrub` requires a value within the slider's range and playback to be
  stopped. The browser enforces both.
- `GridCreation.ObstacleDirectionCycle`: the code cycles the facing codes 1→2→3→4, that is
  N→S→E→W. This follows the code rather than a described N→E→S→W rotation.
- `GridCreation.CreateHTMLGrid` follows the code's order of precedence (robot, turning path,
  obstacle, visited centre, empty) where the doc comment lists a different order.
