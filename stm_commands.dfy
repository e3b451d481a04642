/**
 * Motor-command generation for the robot's STM board: path nodes become command strings
 * ("FL045", "FW010", ...), then runs of straight moves are merged.
 */
module StmCommands {
  import opened Wrappers
  import opened Decimal

  /** A path node of the search: distance d, vertical motion v (1 forward, -1 back), steer s (-1 left, 0 straight, 1 right). */
  datatype Node = Node(d: int, v: int, s: int)

  /** The command one node emits, if any. */
  function NodeCommand(n: Node): Option<string>
  {
    if n.d == 0 then None
    else if n.v == 1 then
      if n.s == -1 then Some("FL045")
      else if n.s == 0 then Some("FW" + FormatInt(n.d, 3))
      else if n.s == 1 then Some("FR045")
      else None
    else if n.v == -1 then
      if n.s == -1 then Some("BL045")
      else if n.s == 0 then Some("BW" + FormatInt(n.d, 3))
      else if n.s == 1 then Some("BR045")
      else None
    else None
  }

  /** The commands of a path before straight runs are merged, in node order. */
  function RawCommands(path: seq<Node>): seq<string>
  {
    if path == [] then [] else RawCommands(path[..|path| - 1]) + ToSeq(NodeCommand(path[|path| - 1]))
  }

  /** `cmd.startswith(('FW', 'BW'))`. */
  predicate IsStraight(c: string)
  {
    |c| >= 2 && (c[..2] == "FW" || c[..2] == "BW")
  }

  /** A command the STM understands: a two-letter motion prefix followed by an argument. */
  predicate IsMotorCommand(c: string)
  {
    |c| >= 2 && c[..2] in {"FW", "BW", "FL", "FR", "BL", "BR"}
  }

  /** Every command of the list is a motor command. */
  predicate MotorCommands(cmds: seq<string>)
  {
    forall k :: 0 <= k < |cmds| ==> IsMotorCommand(cmds[k])
  }

  /** Every straight command carries a decimal distance, so `int(cmd[2:])` does not raise. */
  predicate WellFormed(cmds: seq<string>)
  {
    forall k :: 0 <= k < |cmds| ==> IsStraight(cmds[k]) ==> IsDecimal(cmds[k][2..])
  }

  /** The distance a straight command moves: `int(cmd[2:])`. */
  function Distance(c: string): int
    requires |c| >= 2
  {
    ParseInt(c[2..])
  }

  /**
   * The movement a command list describes: turns in order, and each maximal run of
   * consecutive straight commands with the same prefix as one straight move of the run's total.
   */
  datatype Run = Turn(cmd: string) | Straight(prefix: string, total: int)

  function AddCommand(rs: seq<Run>, c: string): seq<Run>
  {
    if !IsStraight(c) then rs + [Turn(c)]
    else if rs != [] && rs[|rs| - 1].Straight? && rs[|rs| - 1].prefix == c[..2] then
      rs[..|rs| - 1] + [Straight(c[..2], rs[|rs| - 1].total + Distance(c))]
    else rs + [Straight(c[..2], Distance(c))]
  }

  function Runs(cmds: seq<string>): seq<Run>
  {
    if cmds == [] then [] else AddCommand(Runs(cmds[..|cmds| - 1]), cmds[|cmds| - 1])
  }

  /** Flushing a pending run in the middle of the list: totals of 100 or more are split in two halves, all zero-padded to 3 digits. */
  function Flush(prefix: string, total: int): seq<string>
  {
    if total >= 100 then [prefix + FormatInt(total / 2, 3), prefix + FormatInt((total + 1) / 2, 3)]
    else [prefix + FormatInt(total, 3)]
  }

  /** Flushing the run still pending at the end of the list: split halves are written without padding. */
  function FlushAtEnd(prefix: string, total: int): seq<string>
  {
    if total >= 100 then [prefix + FormatInt(total / 2, 0), prefix + FormatInt((total + 1) / 2, 0)]
    else [prefix + FormatInt(total, 3)]
  }

  function EmitRun(r: Run): seq<string>
  {
    match r
    case Turn(c) => [c]
    case Straight(p, t) => Flush(p, t)
  }

  function EmitRuns(rs: seq<Run>): seq<string>
  {
    if rs == [] then [] else EmitRuns(rs[..|rs| - 1]) + EmitRun(rs[|rs| - 1])
  }

  /** The output for a list of runs: the last run, when straight, is flushed as at end of list. */
  function Emit(rs: seq<Run>): seq<string>
  {
    if rs != [] && rs[|rs| - 1].Straight? then
      EmitRuns(rs[..|rs| - 1]) + FlushAtEnd(rs[|rs| - 1].prefix, rs[|rs| - 1].total)
    else EmitRuns(rs)
  }

  /** What `combine_fw_bw` returns, stated through the runs of its input. */
  function Combine(cmds: seq<string>): seq<string>
  {
    Emit(Runs(cmds))
  }

  /**
   * How the loop state of `combine_fw_bw` stands to the runs read so far: with no pending
   * command every run has been emitted; with one, all runs but the last have, and the last
   * is the pending prefix and sum.
   */
  ghost predicate PendingState(runs: seq<Run>, result: seq<string>, tempCmd: Option<string>, tempSum: int)
  {
    match tempCmd
    case None =>
      tempSum == 0 && result == EmitRuns(runs) && (runs == [] || runs[|runs| - 1].Turn?)
    case Some(c) =>
      IsStraight(c) && runs != [] && runs[|runs| - 1] == Straight(c[..2], tempSum)
      && result == EmitRuns(runs[..|runs| - 1])
  }

  lemma FlushPending(runs: seq<Run>, result: seq<string>, c: string, tempSum: int)
    requires PendingState(runs, result, Some(c), tempSum)
    ensures result + Flush(c[..2], tempSum) == EmitRuns(runs)
  {
    assert runs[..|runs| - 1] + [runs[|runs| - 1]] == runs;
  }

  /** `combine_fw_bw`: one pass with a pending straight command and its running sum. */
  method CombineFwBw(commands: seq<string>) returns (result: seq<string>)
    requires WellFormed(commands)
    ensures result == Combine(commands)
  {
    result := [];
    var tempCmd: Option<string> := None;
    var tempSum := 0;
    ghost var runs: seq<Run> := [];
    for i := 0 to |commands|
      invariant runs == Runs(commands[..i])
      invariant PendingState(runs, result, tempCmd, tempSum)
    {
      var cmd := commands[i];
      RunsOfPrefix(commands, i);
      result, tempCmd, tempSum := CombineStep(runs, result, tempCmd, tempSum, cmd);
      runs := AddCommand(runs, cmd);
    }
    assert commands[..|commands|] == commands;
    FinishCombine(runs, result, tempCmd, tempSum);
    if tempCmd.Some? {
      result := result + FlushAtEnd(tempCmd.value[..2], tempSum);
      tempCmd := None;
      tempSum := 0;
    }
  }

  /** A straight command with the pending prefix adds its distance to the pending run. */
  lemma PendingMerge(runs: seq<Run>, result: seq<string>, c: string, tempSum: int, cmd: string)
    requires PendingState(runs, result, Some(c), tempSum) && IsStraight(cmd) && cmd[..2] == c[..2]
    ensures PendingState(AddCommand(runs, cmd), result, Some(cmd), tempSum + Distance(cmd))
  {
    var init := runs[..|runs| - 1];
    assert AddCommand(runs, cmd) == init + [Straight(cmd[..2], tempSum + Distance(cmd))];
    assert (init + [Straight(cmd[..2], tempSum + Distance(cmd))])[..|init|] == init;
  }

  /** With every run emitted and no run of the same prefix open, a straight command opens a new pending run. */
  lemma PendingStart(runs: seq<Run>, result: seq<string>, cmd: string)
    requires result == EmitRuns(runs) && IsStraight(cmd)
    requires runs == [] || !(runs[|runs| - 1].Straight? && runs[|runs| - 1].prefix == cmd[..2])
    ensures PendingState(AddCommand(runs, cmd), result, Some(cmd), Distance(cmd))
  {
    assert AddCommand(runs, cmd) == runs + [Straight(cmd[..2], Distance(cmd))];
    assert (runs + [Straight(cmd[..2], Distance(cmd))])[..|runs|] == runs;
  }

  /** With every run emitted, any other command is copied as a run of its own. */
  lemma PendingTurn(runs: seq<Run>, result: seq<string>, cmd: string)
    requires result == EmitRuns(runs) && !IsStraight(cmd)
    ensures PendingState(AddCommand(runs, cmd), result + [cmd], None, 0)
  {
    var rs := runs + [Turn(cmd)];
    assert rs[..|rs| - 1] == runs;
  }

  /** After the loop, flushing the pending run as at end of list completes the output of all runs. */
  lemma FinishCombine(runs: seq<Run>, result: seq<string>, tempCmd: Option<string>, tempSum: int)
    requires PendingState(runs, result, tempCmd, tempSum)
    ensures Emit(runs) == if tempCmd.Some? then result + FlushAtEnd(tempCmd.value[..2], tempSum) else result
  {
    if tempCmd.Some? {
      EmitPending(runs);
    }
  }

  /** One iteration of `combine_fw_bw`: a straight command joins or replaces the pending run, any other flushes it and is copied. */
  method CombineStep(ghost runs: seq<Run>, result: seq<string>, tempCmd: Option<string>, tempSum: int, cmd: string)
    returns (result': seq<string>, tempCmd': Option<string>, tempSum': int)
    requires PendingState(runs, result, tempCmd, tempSum)
    ensures PendingState(AddCommand(runs, cmd), result', tempCmd', tempSum')
  {
    result', tempCmd', tempSum' := result, tempCmd, tempSum;
    if IsStraight(cmd) {
      if tempCmd'.Some? && cmd[..2] != tempCmd'.value[..2] {
        FlushPending(runs, result', tempCmd'.value, tempSum');
        result' := result' + Flush(tempCmd'.value[..2], tempSum');
        tempSum' := 0;
        PendingStart(runs, result', cmd);
      } else if tempCmd'.Some? {
        PendingMerge(runs, result', tempCmd'.value, tempSum', cmd);
      } else {
        PendingStart(runs, result', cmd);
      }
      tempCmd' := Some(cmd);
      tempSum' := tempSum' + ParseInt(cmd[2..]);
    } else {
      if tempCmd'.Some? {
        FlushPending(runs, result', tempCmd'.value, tempSum');
        result' := result' + Flush(tempCmd'.value[..2], tempSum');
        tempCmd' := None;
        tempSum' := 0;
      }
      PendingTurn(runs, result', cmd);
      result' := result' + [cmd];
    }
  }

  /** `convert_segments_to_commands`: map each node to its command, then merge straight runs. */
  method ConvertSegmentsToCommands(path: seq<Node>) returns (commands: seq<string>)
    ensures commands == Combine(RawCommands(path))
  {
    var result: seq<string> := [];
    for i := 0 to |path|
      invariant result == RawCommands(path[..i])
    {
      var node := path[i];
      assert path[..i + 1][..i] == path[..i];
      if node.d != 0 {
        if node.v == 1 {
          if node.s == -1 {
            result := result + ["FL045"];
          } else if node.s == 0 {
            result := result + ["FW" + FormatInt(node.d, 3)];
          } else if node.s == 1 {
            result := result + ["FR045"];
          }
        } else if node.v == -1 {
          if node.s == -1 {
            result := result + ["BL045"];
          } else if node.s == 0 {
            result := result + ["BW" + FormatInt(node.d, 3)];
          } else if node.s == 1 {
            result := result + ["BR045"];
          }
        }
      }
    }
    assert path[..|path|] == path;
    RawCommandsWellFormed(path);
    commands := CombineFwBw(result);
  }

  // ---------- Properties ----------

  /** Every command a node emits is a motor command, and a straight one carries a decimal distance equal to d. */
  lemma NodeCommandShape(n: Node)
    ensures NodeCommand(n).Some? ==> IsMotorCommand(NodeCommand(n).value)
    ensures NodeCommand(n).Some? && IsStraight(NodeCommand(n).value) ==>
      IsDecimal(NodeCommand(n).value[2..]) && Distance(NodeCommand(n).value) == n.d
    ensures NodeCommand(n).Some? && IsStraight(NodeCommand(n).value) ==>
      n.s == 0 && (n.v == 1 <==> NodeCommand(n).value[..2] == "FW")
  {
    if NodeCommand(n).Some? {
      var c := NodeCommand(n).value;
      if n.s == 0 {
        var p := if n.v == 1 then "FW" else "BW";
        assert c == p + FormatInt(n.d, 3);
        StraightText(p, n.d, 3);
      } else {
        if n.v == 1 && n.s == -1 {
          assert c[..2] == "FL";
        } else if n.v == 1 {
          assert c[..2] == "FR";
        } else if n.s == -1 {
          assert c[..2] == "BL";
        } else {
          assert c[..2] == "BR";
        }
      }
    }
  }

  lemma {:induction false} RawCommandsWellFormed(path: seq<Node>)
    ensures WellFormed(RawCommands(path))
    ensures MotorCommands(RawCommands(path))
  {
    if path != [] {
      RawCommandsWellFormed(path[..|path| - 1]);
      NodeCommandShape(path[|path| - 1]);
    }
  }

  lemma RunsAppend(cmds: seq<string>, c: string)
    ensures Runs(cmds + [c]) == AddCommand(Runs(cmds), c)
  {
    assert (cmds + [c])[..|cmds|] == cmds;
  }

  /** Reading one more command of a list adds it to the runs of the commands before it. */
  lemma RunsOfPrefix(cmds: seq<string>, i: nat)
    requires i < |cmds|
    ensures Runs(cmds[..i + 1]) == AddCommand(Runs(cmds[..i]), cmds[i])
  {
    assert cmds[..i + 1] == cmds[..i] + [cmds[i]];
    RunsAppend(cmds[..i], cmds[i]);
  }

  /** No two neighbouring runs are straight runs with the same prefix, turns are non-straight commands, straight runs are FW or BW. */
  predicate Canonical(rs: seq<Run>)
  {
    && (forall k :: 0 <= k < |rs| ==> (rs[k].Turn? ==> !IsStraight(rs[k].cmd)))
    && (forall k :: 0 <= k < |rs| ==> (rs[k].Straight? ==> rs[k].prefix == "FW" || rs[k].prefix == "BW"))
    && (forall k :: 0 <= k < |rs| - 1 ==> !(rs[k].Straight? && rs[k + 1].Straight? && rs[k].prefix == rs[k + 1].prefix))
  }

  lemma CanonicalAddTurn(rs: seq<Run>, c: string)
    requires Canonical(rs) && !IsStraight(c)
    ensures Canonical(rs + [Turn(c)])
  {
  }

  lemma CanonicalAddStraight(rs: seq<Run>, p: string, t: int)
    requires Canonical(rs) && (p == "FW" || p == "BW")
    requires rs == [] || !(rs[|rs| - 1].Straight? && rs[|rs| - 1].prefix == p)
    ensures Canonical(rs + [Straight(p, t)])
  {
  }

  lemma CanonicalMergeLast(rs: seq<Run>, t: int)
    requires Canonical(rs) && rs != [] && rs[|rs| - 1].Straight?
    ensures Canonical(rs[..|rs| - 1] + [Straight(rs[|rs| - 1].prefix, t)])
  {
    CanonicalInit(rs);
    CanonicalLast(rs);
    var init := rs[..|rs| - 1];
    if init != [] {
      assert init[|init| - 1] == rs[|rs| - 2];
    }
    CanonicalAddStraight(init, rs[|rs| - 1].prefix, t);
  }

  /** Reading one more command keeps the runs canonical. */
  lemma AddCommandCanonical(rs: seq<Run>, c: string)
    requires Canonical(rs)
    ensures Canonical(AddCommand(rs, c))
  {
    if !IsStraight(c) {
      CanonicalAddTurn(rs, c);
    } else if rs != [] && rs[|rs| - 1].Straight? && rs[|rs| - 1].prefix == c[..2] {
      CanonicalMergeLast(rs, rs[|rs| - 1].total + Distance(c));
    } else {
      CanonicalAddStraight(rs, c[..2], Distance(c));
    }
  }

  lemma {:induction false} RunsCanonical(cmds: seq<string>)
    ensures Canonical(Runs(cmds))
  {
    if cmds != [] {
      RunsCanonical(cmds[..|cmds| - 1]);
      AddCommandCanonical(Runs(cmds[..|cmds| - 1]), cmds[|cmds| - 1]);
    }
  }

  /** A straight command built from a prefix and a formatted total reads back as that prefix and total. */
  lemma StraightText(p: string, n: int, width: nat)
    requires p == "FW" || p == "BW"
    ensures IsStraight(p + FormatInt(n, width)) && (p + FormatInt(n, width))[..2] == p
    ensures IsDecimal((p + FormatInt(n, width))[2..]) && Distance(p + FormatInt(n, width)) == n
  {
    assert (p + FormatInt(n, width))[2..] == FormatInt(n, width);
    ParseFormatInt(n, width);
  }

  /** A straight command whose prefix differs from the last run's starts a new run. */
  lemma AddStraightNew(rs: seq<Run>, c: string, p: string)
    requires IsStraight(c) && c[..2] == p
    requires rs == [] || !(rs[|rs| - 1].Straight? && rs[|rs| - 1].prefix == p)
    ensures AddCommand(rs, c) == rs + [Straight(p, Distance(c))]
  {
  }

  /** A straight command with the last run's prefix extends that run. */
  lemma AddStraightMerge(rs: seq<Run>, p: string, a: int, c: string, t: int)
    requires IsStraight(c) && c[..2] == p && a + Distance(c) == t
    ensures AddCommand(rs + [Straight(p, a)], c) == rs + [Straight(p, t)]
  {
    assert (rs + [Straight(p, a)])[..|rs|] == rs;
  }

  /** Two straight commands with the same prefix p, after a list whose runs do not end in a p-run, add one run of their total. */
  lemma RunsOfTwoStraight(cmds: seq<string>, p: string, c1: string, c2: string, t: int)
    requires IsStraight(c1) && c1[..2] == p && IsStraight(c2) && c2[..2] == p
    requires Distance(c1) + Distance(c2) == t
    requires var rs := Runs(cmds); rs == [] || !(rs[|rs| - 1].Straight? && rs[|rs| - 1].prefix == p)
    ensures Runs(cmds + [c1, c2]) == Runs(cmds) + [Straight(p, t)]
  {
    var rs := Runs(cmds);
    RunsAppend(cmds, c1);
    AddStraightNew(rs, c1, p);
    RunsAppend(cmds + [c1], c2);
    AddStraightMerge(rs, p, Distance(c1), c2, t);
    assert cmds + [c1, c2] == (cmds + [c1]) + [c2];
  }

  /** The floor and the ceiling of half a total add up to it. */
  lemma HalvesSum(t: int)
    ensures t / 2 + (t + 1) / 2 == t
  {
  }

  /** A total split into its two halves, after a list whose runs end differently, adds one run of that total. */
  lemma RunsOfHalves(cmds: seq<string>, p: string, t: int, w: nat)
    requires p == "FW" || p == "BW"
    requires var rs := Runs(cmds); rs == [] || !(rs[|rs| - 1].Straight? && rs[|rs| - 1].prefix == p)
    ensures Runs(cmds + [p + FormatInt(t / 2, w), p + FormatInt((t + 1) / 2, w)]) == Runs(cmds) + [Straight(p, t)]
  {
    StraightText(p, t / 2, w);
    StraightText(p, (t + 1) / 2, w);
    HalvesSum(t);
    RunsOfTwoStraight(cmds, p, p + FormatInt(t / 2, w), p + FormatInt((t + 1) / 2, w), t);
  }

  /** One straight command after a list whose runs end differently adds one run. */
  lemma RunsOfSingle(cmds: seq<string>, p: string, t: int)
    requires p == "FW" || p == "BW"
    requires var rs := Runs(cmds); rs == [] || !(rs[|rs| - 1].Straight? && rs[|rs| - 1].prefix == p)
    ensures Runs(cmds + [p + FormatInt(t, 3)]) == Runs(cmds) + [Straight(p, t)]
  {
    StraightText(p, t, 3);
    RunsAppend(cmds, p + FormatInt(t, 3));
  }

  /** Appending the commands that flush a straight run after a list whose runs end differently adds exactly that run. */
  lemma RunsOfFlush(cmds: seq<string>, p: string, t: int)
    requires p == "FW" || p == "BW"
    requires var rs := Runs(cmds); rs == [] || !(rs[|rs| - 1].Straight? && rs[|rs| - 1].prefix == p)
    ensures Runs(cmds + Flush(p, t)) == Runs(cmds) + [Straight(p, t)]
  {
    if t >= 100 {
      RunsOfHalves(cmds, p, t, 3);
    } else {
      RunsOfSingle(cmds, p, t);
    }
  }

  lemma RunsOfFlushAtEnd(cmds: seq<string>, p: string, t: int)
    requires p == "FW" || p == "BW"
    requires var rs := Runs(cmds); rs == [] || !(rs[|rs| - 1].Straight? && rs[|rs| - 1].prefix == p)
    ensures Runs(cmds + FlushAtEnd(p, t)) == Runs(cmds) + [Straight(p, t)]
  {
    if t >= 100 {
      RunsOfHalves(cmds, p, t, 0);
    } else {
      RunsOfSingle(cmds, p, t);
    }
  }

  /** Emitting one run mid-list after commands whose runs it may follow in a canonical list adds exactly that run. */
  lemma RunsOfEmitRun(cmds: seq<string>, r: Run)
    requires r.Turn? ==> !IsStraight(r.cmd)
    requires r.Straight? ==> r.prefix == "FW" || r.prefix == "BW"
    requires r.Straight? ==> var rs := Runs(cmds); rs == [] || !(rs[|rs| - 1].Straight? && rs[|rs| - 1].prefix == r.prefix)
    ensures Runs(cmds + EmitRun(r)) == Runs(cmds) + [r]
  {
    match r
    case Turn(c) =>
      RunsAppend(cmds, c);
    case Straight(p, t) =>
      RunsOfFlush(cmds, p, t);
  }

  /** The last run of a canonical list may follow the runs before it. */
  lemma CanonicalLast(rs: seq<Run>)
    requires Canonical(rs) && rs != []
    ensures rs[|rs| - 1].Turn? ==> !IsStraight(rs[|rs| - 1].cmd)
    ensures rs[|rs| - 1].Straight? ==> rs[|rs| - 1].prefix == "FW" || rs[|rs| - 1].prefix == "BW"
    ensures |rs| >= 2 && rs[|rs| - 1].Straight? ==> !(rs[|rs| - 2].Straight? && rs[|rs| - 2].prefix == rs[|rs| - 1].prefix)
  {
  }

  /** Merging is undone by reading the runs back: emitting canonical runs mid-list yields commands whose runs are those runs. */
  lemma {:induction false} RunsOfEmitRuns(rs: seq<Run>)
    requires Canonical(rs)
    ensures Runs(EmitRuns(rs)) == rs
  {
    if rs != [] {
      var init := rs[..|rs| - 1];
      var r := rs[|rs| - 1];
      CanonicalInit(rs);
      CanonicalLast(rs);
      RunsOfEmitRuns(init);
      if init != [] {
        assert init[|init| - 1] == rs[|rs| - 2];
      }
      RunsOfEmitRun(EmitRuns(init), r);
      assert init + [r] == rs;
    }
  }

  /** Dropping the last run keeps a run list canonical. */
  lemma CanonicalInit(rs: seq<Run>)
    requires Canonical(rs) && rs != []
    ensures Canonical(rs[..|rs| - 1])
  {
  }

  /** Canonical runs emitted mid-list, then a straight run of another prefix flushed as at end of list, read back as those runs. */
  lemma RunsOfEmitThenFlush(init: seq<Run>, p: string, t: int)
    requires Canonical(init) && (p == "FW" || p == "BW")
    requires init == [] || !(init[|init| - 1].Straight? && init[|init| - 1].prefix == p)
    ensures Runs(EmitRuns(init) + FlushAtEnd(p, t)) == init + [Straight(p, t)]
  {
    RunsOfEmitRuns(init);
    RunsOfFlushAtEnd(EmitRuns(init), p, t);
  }

  /** Runs ending in a straight run are emitted as the others mid-list, then the last flushed as at end of list. */
  lemma EmitPending(rs: seq<Run>)
    requires rs != [] && rs[|rs| - 1].Straight?
    ensures Emit(rs) == EmitRuns(rs[..|rs| - 1]) + FlushAtEnd(rs[|rs| - 1].prefix, rs[|rs| - 1].total)
  {
  }

  /** Runs ending in a straight run: the body is emitted mid-list and the last run flushed as at end of list. */
  lemma RunsOfEmitPending(rs: seq<Run>)
    requires Canonical(rs) && rs != [] && rs[|rs| - 1].Straight?
    ensures Runs(Emit(rs)) == rs
  {
    PendingParts(rs);
    RunsOfEmitThenFlush(rs[..|rs| - 1], rs[|rs| - 1].prefix, rs[|rs| - 1].total);
    EmitPending(rs);
  }

  /** A canonical list ending in a straight run splits into canonical runs and a last run of another prefix. */
  lemma PendingParts(rs: seq<Run>)
    requires Canonical(rs) && rs != [] && rs[|rs| - 1].Straight?
    ensures Canonical(rs[..|rs| - 1])
    ensures rs[|rs| - 1].prefix == "FW" || rs[|rs| - 1].prefix == "BW"
    ensures var init := rs[..|rs| - 1];
      init == [] || !(init[|init| - 1].Straight? && init[|init| - 1].prefix == rs[|rs| - 1].prefix)
    ensures rs[..|rs| - 1] + [Straight(rs[|rs| - 1].prefix, rs[|rs| - 1].total)] == rs
  {
    var init := rs[..|rs| - 1];
    var last := rs[|rs| - 1];
    CanonicalInit(rs);
    CanonicalLast(rs);
    if init != [] {
      assert init[|init| - 1] == rs[|rs| - 2];
    }
    assert init + [last] == rs;
  }

  /** Distance preservation: the merged output describes the same movement as the input, run for run. */
  lemma CombinePreservesRuns(cmds: seq<string>)
    ensures Runs(Combine(cmds)) == Runs(cmds)
  {
    var rs := Runs(cmds);
    RunsCanonical(cmds);
    if rs != [] && rs[|rs| - 1].Straight? {
      RunsOfEmitPending(rs);
    } else {
      RunsOfEmitRuns(rs);
    }
  }

  /** Total distance of the straight commands with prefix p. */
  function PrefixDistance(cmds: seq<string>, p: string): int
  {
    if cmds == [] then 0
    else
      var c := cmds[|cmds| - 1];
      PrefixDistance(cmds[..|cmds| - 1], p) + (if IsStraight(c) && c[..2] == p then Distance(c) else 0)
  }

  /** Total of the straight runs with prefix p. */
  function RunsDistance(rs: seq<Run>, p: string): int
  {
    if rs == [] then 0
    else
      var r := rs[|rs| - 1];
      RunsDistance(rs[..|rs| - 1], p) + (if r.Straight? && r.prefix == p then r.total else 0)
  }

  /** The non-straight commands, in order. */
  function Turns(cmds: seq<string>): seq<string>
  {
    if cmds == [] then []
    else Turns(cmds[..|cmds| - 1]) + (if IsStraight(cmds[|cmds| - 1]) then [] else [cmds[|cmds| - 1]])
  }

  function RunTurns(rs: seq<Run>): seq<string>
  {
    if rs == [] then []
    else RunTurns(rs[..|rs| - 1]) + (if rs[|rs| - 1].Turn? then [rs[|rs| - 1].cmd] else [])
  }

  lemma RunsDistanceDropLast(rs: seq<Run>, p: string, a: int, b: int)
    ensures RunsDistance(rs + [Straight(p, a + b)], p) == RunsDistance(rs + [Straight(p, a)], p) + b
  {
    assert (rs + [Straight(p, a + b)])[..|rs|] == rs;
    assert (rs + [Straight(p, a)])[..|rs|] == rs;
  }

  /** The distance of a command list is the distance of its runs. */
  lemma {:induction false} PrefixDistanceOfRuns(cmds: seq<string>, p: string)
    ensures PrefixDistance(cmds, p) == RunsDistance(Runs(cmds), p)
  {
    if cmds != [] {
      var init := cmds[..|cmds| - 1];
      var c := cmds[|cmds| - 1];
      PrefixDistanceOfRuns(init, p);
      var rs := Runs(init);
      if IsStraight(c) && rs != [] && rs[|rs| - 1].Straight? && rs[|rs| - 1].prefix == c[..2] {
        var last := rs[|rs| - 1];
        assert rs[..|rs| - 1] + [last] == rs;
        RunsDistanceDropLast(rs[..|rs| - 1], last.prefix, last.total, Distance(c));
      } else {
        assert (rs + [if IsStraight(c) then Straight(c[..2], Distance(c)) else Turn(c)])[..|rs|] == rs;
      }
    }
  }

  /** The turn commands of a list are the turn runs of its runs. */
  lemma {:induction false} TurnsOfRuns(cmds: seq<string>)
    ensures Turns(cmds) == RunTurns(Runs(cmds))
  {
    if cmds != [] {
      var init := cmds[..|cmds| - 1];
      var c := cmds[|cmds| - 1];
      TurnsOfRuns(init);
      var rs := Runs(init);
      if IsStraight(c) && rs != [] && rs[|rs| - 1].Straight? && rs[|rs| - 1].prefix == c[..2] {
        var last := rs[|rs| - 1];
        var rs' := rs[..|rs| - 1] + [Straight(c[..2], last.total + Distance(c))];
        assert rs[..|rs| - 1] + [last] == rs;
        assert rs'[..|rs| - 1] == rs[..|rs| - 1];
      } else {
        assert (rs + [if IsStraight(c) then Straight(c[..2], Distance(c)) else Turn(c)])[..|rs|] == rs;
      }
    }
  }

  /** `combine_fw_bw` keeps the total FW distance and the total BW distance. */
  lemma CombinePreservesDistance(cmds: seq<string>, p: string)
    ensures PrefixDistance(Combine(cmds), p) == PrefixDistance(cmds, p)
  {
    CombinePreservesRuns(cmds);
    PrefixDistanceOfRuns(cmds, p);
    PrefixDistanceOfRuns(Combine(cmds), p);
  }

  /** Turn commands pass through `combine_fw_bw` unchanged and in their order. */
  lemma CombinePreservesTurns(cmds: seq<string>)
    ensures Turns(Combine(cmds)) == Turns(cmds)
  {
    CombinePreservesRuns(cmds);
    TurnsOfRuns(cmds);
    TurnsOfRuns(Combine(cmds));
  }

  /**
   * A run total of 100 or more is written as two commands whose distances are the floor and
   * the ceiling of half the total, which sum to it; a smaller total as one three-digit command.
   */
  lemma FlushSplit(p: string, t: int)
    requires p == "FW" || p == "BW"
    ensures |Flush(p, t)| == |FlushAtEnd(p, t)| == if t >= 100 then 2 else 1
    ensures t >= 100 ==> Distance(Flush(p, t)[0]) == Distance(FlushAtEnd(p, t)[0]) == t / 2
    ensures t >= 100 ==> Distance(Flush(p, t)[1]) == Distance(FlushAtEnd(p, t)[1]) == (t + 1) / 2
    ensures t >= 100 ==> t / 2 + (t + 1) / 2 == t && t / 2 <= (t + 1) / 2 <= t / 2 + 1
    ensures t < 100 ==> Flush(p, t) == FlushAtEnd(p, t) && Distance(Flush(p, t)[0]) == t
  {
    if t >= 100 {
      var lo, hi := t / 2, (t + 1) / 2;
      StraightText(p, lo, 3);
      StraightText(p, hi, 3);
      StraightText(p, lo, 0);
      StraightText(p, hi, 0);
    } else {
      StraightText(p, t, 3);
    }
  }

  /** A mid-list command for a run of total 0..999 is always five characters: prefix and three digits. */
  lemma FlushPadded(p: string, t: int)
    requires p == "FW" || p == "BW"
    requires 0 <= t < 1000
    ensures forall k :: 0 <= k < |Flush(p, t)| ==> |Flush(p, t)[k]| == 5
  {
    ThreeDigitWidth(t);
    ThreeDigitWidth(t / 2);
    ThreeDigitWidth((t + 1) / 2);
  }

  /** Total distance of the straight nodes moving in direction v (1 forward, -1 back). */
  function PathDistance(path: seq<Node>, v: int): int
  {
    if path == [] then 0
    else
      var n := path[|path| - 1];
      PathDistance(path[..|path| - 1], v) + (if n.d != 0 && n.v == v && n.s == 0 then n.d else 0)
  }

  /** What one node adds to the forward and to the backward distance of the commands. */
  lemma NodeDistance(n: Node, p: string, v: int)
    requires (p == "FW" && v == 1) || (p == "BW" && v == -1)
    ensures PrefixDistance(ToSeq(NodeCommand(n)), p) == if n.d != 0 && n.v == v && n.s == 0 then n.d else 0
  {
    if NodeCommand(n).Some? {
      var c := NodeCommand(n).value;
      assert ToSeq(NodeCommand(n))[..0] == [];
      NodeCommandShape(n);
      if n.s == 0 {
        StraightText(if n.v == 1 then "FW" else "BW", n.d, 3);
      }
    }
  }

  lemma PrefixDistanceAppend(cs: seq<string>, ds: seq<string>, p: string)
    requires |ds| <= 1
    ensures PrefixDistance(cs + ds, p) == PrefixDistance(cs, p) + PrefixDistance(ds, p)
  {
    if |ds| == 1 {
      assert (cs + ds)[..|cs|] == cs;
      assert ds[..0] == [];
    } else {
      assert cs + ds == cs;
    }
  }

  lemma {:induction false} RawCommandsDistance(path: seq<Node>)
    ensures PrefixDistance(RawCommands(path), "FW") == PathDistance(path, 1)
    ensures PrefixDistance(RawCommands(path), "BW") == PathDistance(path, -1)
  {
    if path != [] {
      var init := path[..|path| - 1];
      var n := path[|path| - 1];
      RawCommandsDistance(init);
      PrefixDistanceAppend(RawCommands(init), ToSeq(NodeCommand(n)), "FW");
      PrefixDistanceAppend(RawCommands(init), ToSeq(NodeCommand(n)), "BW");
      NodeDistance(n, "FW", 1);
      NodeDistance(n, "BW", -1);
    }
  }

  /**
   * `convert_segments_to_commands` moves forward exactly as far as the path's forward straight
   * nodes and back exactly as far as its backward ones, and the merge keeps, in order, the turn
   * commands the path's nodes were converted to.
   */
  lemma ConvertPreservesDistance(path: seq<Node>)
    ensures PrefixDistance(Combine(RawCommands(path)), "FW") == PathDistance(path, 1)
    ensures PrefixDistance(Combine(RawCommands(path)), "BW") == PathDistance(path, -1)
    ensures Turns(Combine(RawCommands(path))) == Turns(RawCommands(path))
  {
    RawCommandsDistance(path);
    CombinePreservesDistance(RawCommands(path), "FW");
    CombinePreservesDistance(RawCommands(path), "BW");
    CombinePreservesTurns(RawCommands(path));
  }

  /** The text of a small positive total, as `"{:03d}"` and as `str` write it. */
  lemma TwoDigitText(n: nat)
    requires 10 <= n < 100
    ensures FormatInt(n, 3) == ['0', DigitChar(n / 10), DigitChar(n % 10)]
    ensures FormatInt(n, 0) == [DigitChar(n / 10), DigitChar(n % 10)]
  {
    assert NatDigits(n) == [DigitChar(n / 10), DigitChar(n % 10)];
  }

  /** A command "FW" followed by a two-digit distance n, padded to three digits, reads back as n. */
  lemma ExampleStraight(c: string, n: nat)
    requires 10 <= n < 100 && c == ['F', 'W', '0', DigitChar(n / 10), DigitChar(n % 10)]
    ensures IsStraight(c) && c[..2] == "FW" && Distance(c) == n
  {
    TwoDigitText(n);
    StraightText("FW", n, 3);
    assert c == "FW" + FormatInt(n, 3);
  }

  lemma ExampleFirstRun()
    ensures Runs(["FW010", "FW020"]) == [Straight("FW", 30)]
  {
    ExampleStraight("FW010", 10);
    ExampleStraight("FW020", 20);
    RunsOfTwoStraight([], "FW", "FW010", "FW020", 30);
    assert [] + ["FW010", "FW020"] == ["FW010", "FW020"];
  }

  lemma ExampleTurn()
    ensures Runs(["FW010", "FW020", "FR045"]) == [Straight("FW", 30), Turn("FR045")]
  {
    ExampleFirstRun();
    assert !IsStraight("FR045") by { assert "FR045"[..2] == "FR"; }
    RunsAppend(["FW010", "FW020"], "FR045");
    assert ["FW010", "FW020"] + ["FR045"] == ["FW010", "FW020", "FR045"];
  }

  lemma ExampleRuns()
    ensures Runs(["FW010", "FW020", "FR045", "FW080", "FW030"])
         == [Straight("FW", 30), Turn("FR045"), Straight("FW", 110)]
  {
    ExampleTurn();
    ExampleStraight("FW080", 80);
    ExampleStraight("FW030", 30);
    RunsOfTwoStraight(["FW010", "FW020", "FR045"], "FW", "FW080", "FW030", 110);
    assert ["FW010", "FW020", "FR045"] + ["FW080", "FW030"] == ["FW010", "FW020", "FR045", "FW080", "FW030"];
  }

  lemma ExampleEmit()
    ensures Emit([Straight("FW", 30), Turn("FR045"), Straight("FW", 110)]) == ["FW030", "FR045", "FW55", "FW55"]
  {
    TwoDigitText(30);
    TwoDigitText(55);
    var rs := [Straight("FW", 30), Turn("FR045"), Straight("FW", 110)];
    assert rs[..2] == [Straight("FW", 30), Turn("FR045")];
    assert rs[..2][..1] == [Straight("FW", 30)];
    assert [Straight("FW", 30)][..0] == [];
    assert FormatInt(30, 3) == "030";
    assert "FW" + FormatInt(30, 3) == "FW030";
    assert Flush("FW", 30) == ["FW030"];
    assert EmitRuns([Straight("FW", 30)]) == EmitRuns([]) + ["FW030"];
    assert EmitRuns(rs[..2]) == ["FW030", "FR045"];
    assert FormatInt(55, 0) == "55";
    assert "FW" + FormatInt(55, 0) == "FW55";
    assert FlushAtEnd("FW", 110) == ["FW55", "FW55"];
    assert Emit(rs) == EmitRuns(rs[..2]) + FlushAtEnd("FW", 110);
  }

  /** A run merged mid-list is padded; a run of 110 left pending at the end is split unpadded. */
  lemma CombineExample()
    ensures Combine(["FW010", "FW020", "FR045", "FW080", "FW030"]) == ["FW030", "FR045", "FW55", "FW55"]
  {
    ExampleRuns();
    ExampleEmit();
  }

  /** Every turn of the runs is a motor command. */
  predicate MotorTurns(rs: seq<Run>)
  {
    forall k :: 0 <= k < |rs| ==> rs[k].Turn? ==> IsMotorCommand(rs[k].cmd)
  }

  lemma {:induction false} RunsMotorTurns(cmds: seq<string>)
    requires MotorCommands(cmds)
    ensures MotorTurns(Runs(cmds))
  {
    if cmds != [] {
      RunsMotorTurns(cmds[..|cmds| - 1]);
    }
  }

  lemma MotorCommandsAppend(a: seq<string>, b: seq<string>)
    requires MotorCommands(a) && MotorCommands(b)
    ensures MotorCommands(a + b)
  {
  }

  /** A straight command with prefix FW or BW is a motor command. */
  lemma StraightIsMotor(p: string, n: int, width: nat)
    requires p == "FW" || p == "BW"
    ensures IsMotorCommand(p + FormatInt(n, width))
  {
    StraightText(p, n, width);
  }

  lemma FlushMotor(p: string, t: int)
    requires p == "FW" || p == "BW"
    ensures MotorCommands(Flush(p, t))
  {
    StraightIsMotor(p, t / 2, 3);
    StraightIsMotor(p, (t + 1) / 2, 3);
    StraightIsMotor(p, t, 3);
  }

  lemma EmitRunMotor(r: Run)
    requires r.Turn? ==> IsMotorCommand(r.cmd)
    requires r.Straight? ==> r.prefix == "FW" || r.prefix == "BW"
    ensures MotorCommands(EmitRun(r))
  {
    if r.Straight? {
      FlushMotor(r.prefix, r.total);
    }
  }

  lemma {:induction false} EmitRunsMotor(rs: seq<Run>)
    requires MotorTurns(rs) && Canonical(rs)
    ensures MotorCommands(EmitRuns(rs))
  {
    if rs != [] {
      var init := rs[..|rs| - 1];
      var r := rs[|rs| - 1];
      CanonicalInit(rs);
      assert MotorTurns(init);
      EmitRunsMotor(init);
      EmitRunMotor(r);
      MotorCommandsAppend(EmitRuns(init), EmitRun(r));
    }
  }

  lemma FlushAtEndMotor(p: string, t: int)
    requires p == "FW" || p == "BW"
    ensures MotorCommands(FlushAtEnd(p, t))
  {
    StraightIsMotor(p, t / 2, 0);
    StraightIsMotor(p, (t + 1) / 2, 0);
    StraightIsMotor(p, t, 3);
  }

  /** Merging straight runs only ever outputs motor commands when given motor commands. */
  lemma CombineEmitsMotorCommands(cmds: seq<string>)
    requires MotorCommands(cmds)
    ensures MotorCommands(Combine(cmds))
  {
    var rs := Runs(cmds);
    RunsMotorTurns(cmds);
    RunsCanonical(cmds);
    if rs != [] && rs[|rs| - 1].Straight? {
      var r := rs[|rs| - 1];
      var init := rs[..|rs| - 1];
      CanonicalInit(rs);
      assert MotorTurns(init);
      EmitRunsMotor(init);
      FlushAtEndMotor(r.prefix, r.total);
      MotorCommandsAppend(EmitRuns(init), FlushAtEnd(r.prefix, r.total));
      assert Combine(cmds) == EmitRuns(init) + FlushAtEnd(r.prefix, r.total);
    } else {
      EmitRunsMotor(rs);
    }
  }

  /** The commands `convert_segments_to_commands` returns are all motor commands. */
  lemma ConvertEmitsMotorCommands(path: seq<Node>)
    ensures MotorCommands(Combine(RawCommands(path)))
  {
    RawCommandsWellFormed(path);
    CombineEmitsMotorCommands(RawCommands(path));
  }
}
