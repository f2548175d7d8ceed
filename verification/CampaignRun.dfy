/** The campaign's run loop over its persisted manifest: a process may crash at any moment and a later
    one resumes from what was persisted. */
module CampaignRun {
  import opened Wrappers
  import opened Campaign
  import opened CampaignSummary

  // ---- The manifest ----

  function Planned(cell: Cell): CellState {
    CellState(cell, Pending, None, None)
  }

  function Fresh(o: Options): Manifest
    requires o.modes != []
  {
    var schedule := Schedule(o);
    Manifest(o, seq(|schedule|, i requires 0 <= i < |schedule| => Planned(schedule[i])), None)
  }

  /** What resuming demands of one persisted cell. */
  predicate Acceptable(c: CellState, wanted: Cell, evaluate: bool) {
    && c.cell == wanted
    && (c.exitCode.Some? ==> c.exitCode.value >= 0)
    && (c.result.Some? ==> c.result.value.task == c.cell.key.task)
    && match c.status
       case Completed => c.exitCode == Some(0) && c.result.Some? && c.result.value.runnerExitCode == 0
                         && c.result.value.evaluationStatus == Terminal(evaluate)
       case Failed => c.exitCode.Some? && c.exitCode.value >= 1
       case _ => c.exitCode.None? && c.result.None?
  }

  predicate Accepted(cells: seq<CellState>, schedule: seq<Cell>, evaluate: bool) {
    |cells| == |schedule| && forall i | 0 <= i < |cells| :: Acceptable(cells[i], schedule[i], evaluate)
  }

  function Resumed(c: CellState): CellState {
    if c.status == Running then c.(status := Interrupted, exitCode := None, result := None) else c
  }

  /** Check the cells against the schedule and turn those a crash left running into interrupted ones. */
  method ResumeCells(cells: array<CellState>, expected: seq<Cell>, evaluate: bool) returns (ok: bool)
    modifies cells
    ensures ok <==> Accepted(old(cells[..]), expected, evaluate)
    ensures ok ==> forall i | 0 <= i < cells.Length :: cells[i] == Resumed(old(cells[i]))
  {
    if cells.Length != |expected| {
      return false;
    }
    for index := 0 to cells.Length
      invariant forall i | 0 <= i < index :: Acceptable(old(cells[i]), expected[i], evaluate) && cells[i] == Resumed(old(cells[i]))
      invariant forall i | index <= i < cells.Length :: cells[i] == old(cells[i])
    {
      var cell := cells[index];
      assert old(cells[..])[index] == cell;
      if !Acceptable(cell, expected[index], evaluate) {
        return false;
      }
      if cell.status == Running {
        cells[index] := cell.(status := Interrupted, exitCode := None, result := None);
      }
    }
    return true;
  }

  // ---- One cell's run ----

  /** How a launched child ends: its exit code and the result file that could be read, if any. */
  datatype Child = Child(code: nat, readable: Option<RunResult>)

  /** The evaluation status a completed run must report. */
  function Terminal(evaluate: bool): EvaluationStatus {
    if evaluate then Evaluated else NotRequested
  }

  /** A readable result is the cell's own, and a child that exits with zero and a complete result had a
      runner that exited with zero. */
  predicate ChildContract(child: Child, task: Name, evaluate: bool) {
    child.readable.Some? ==>
      && child.readable.value.task == task
      && (child.code == 0 && child.readable.value.evaluationStatus == Terminal(evaluate) ==> child.readable.value.runnerExitCode == 0)
  }

  function Recorded(c: CellState, child: Child, evaluate: bool): CellState {
    var terminal := child.readable.Some?
                    && (child.code == 0 ==> child.readable.value.evaluationStatus == Terminal(evaluate));
    var code := if child.code == 0 && !terminal then 1 else child.code;
    c.(result := child.readable, exitCode := Some(code), status := if code == 0 then Completed else Failed)
  }

  /** A pending cell after its child was launched, ended, and was recorded. */
  function RunAs(c: CellState, child: Child, evaluate: bool): CellState {
    Recorded(c.(status := Running), child, evaluate)
  }

  /** The cells after a whole sweep from `index` on: pending cells run in order, up to one that turns out
      to have run on invalid infrastructure. */
  function Swept(cells: seq<CellState>, children: seq<Child>, index: nat, evaluate: bool): seq<CellState>
    requires |children| == |cells|
    decreases |cells| - index
  {
    if index >= |cells| then cells
    else if cells[index].status != Pending then Swept(cells, children, index + 1, evaluate)
    else
      var next := cells[index := RunAs(cells[index], children[index], evaluate)];
      if InfrastructureInvalid(next[index], evaluate) then next else Swept(next, children, index + 1, evaluate)
  }

  predicate ChildrenKeep(children: seq<Child>, schedule: seq<Cell>, evaluate: bool) {
    |children| == |schedule| && forall i | 0 <= i < |children| :: ChildContract(children[i], schedule[i].key.task, evaluate)
  }

  function AllResumed(cells: seq<CellState>): seq<CellState> {
    seq(|cells|, i requires 0 <= i < |cells| => Resumed(cells[i]))
  }

  /** A fresh start finds no manifest; a resumption finds one of the same options and provenance. */
  predicate Startable(disk: Option<Manifest>, o: Options, resume: bool, sameProvenance: bool) {
    if disk.None? then !resume else resume && disk.value.options == o && sameProvenance
  }

  /** A cell is recorded as completed exactly if its child exited with zero and left a terminally complete
      result, and as failed with the child's code, or 1, otherwise. What is recorded is acceptable to a
      later resume exactly if the child kept its contract. */
  lemma RecordedIsAcceptable(c: CellState, wanted: Cell, child: Child, evaluate: bool)
    requires c.cell == wanted
    ensures Acceptable(Recorded(c, child, evaluate), wanted, evaluate) <==> ChildContract(child, wanted.key.task, evaluate)
    ensures var r := Recorded(c, child, evaluate);
            var complete := child.code == 0 && child.readable.Some? && child.readable.value.evaluationStatus == Terminal(evaluate);
            && r.cell == c.cell && r.result == child.readable
            && r.status == (if complete then Completed else Failed)
            && r.exitCode == Some(if complete then 0 else Max(1, child.code))
  {
  }

  // ---- What one process may do ----

  /** What may become of a persisted cell in one process, launched by it or not. */
  predicate CellMay(before: CellState, launched: bool, after: CellState) {
    && after.cell == before.cell
    && (launched ==> before.status == Pending && (after.status == Running || Finished(after)))
    && (!launched ==> match before.status
                      case Pending => after == before || after.status == Running
                      case Running => after == before || after.status == Interrupted
                      case _ => after == before)
  }

  function CellsOf(disk: Option<Manifest>, o: Options): seq<CellState>
    requires o.modes != []
  {
    if disk.None? then Fresh(o).cells else disk.value.cells
  }

  predicate Durable(disk: Option<Manifest>) {
    disk.Some? ==>
      && WellFormed(disk.value.options)
      && Accepted(disk.value.cells, Schedule(disk.value.options), disk.value.options.evaluate)
  }

  predicate CellsMay(before: seq<CellState>, launched: seq<nat>, after: seq<CellState>) {
    |after| == |before| && forall i | 0 <= i < |before| :: CellMay(before[i], i in launched, after[i])
  }

  predicate Ascending(launched: seq<nat>, limit: nat) {
    && (forall i, j | 0 <= i < j < |launched| :: launched[i] < launched[j])
    && forall i | 0 <= i < |launched| :: launched[i] < limit
  }

  predicate AllSucceeded(cells: seq<CellState>) {
    forall i | 0 <= i < |cells| :: cells[i].exitCode == Some(0)
  }

  /** One process with options `o`: which cells it launches, in order, and what it leaves on disk. */
  predicate ProcessMay(before: Option<Manifest>, o: Options, launched: seq<nat>, after: Option<Manifest>)
    requires o.modes != []
  {
    && Durable(after)
    && Ascending(launched, |CellsOf(before, o)|)
    && (after.None? ==> before.None? && launched == [])
    && (before.Some? && before.value.options != o ==> after == before && launched == [])
    && (after.Some? ==>
          && after.value.options == (if before.Some? then before.value.options else o)
          && CellsMay(CellsOf(before, o), launched, after.value.cells))
  }

  lemma FreshIsDurable(o: Options)
    requires WellFormed(o)
    ensures Durable(Some(Fresh(o)))
  {
  }

  lemma NothingDone(disk: Option<Manifest>, o: Options)
    requires WellFormed(o) && Durable(disk)
    ensures ProcessMay(disk, o, [], disk)
  {
  }

  lemma LoadedMay(disk: Option<Manifest>, o: Options, m: Manifest)
    requires WellFormed(o) && Durable(disk) && m.options == o
    requires disk.None? ==> m == Fresh(o)
    requires disk.Some? ==> disk.value.options == o && |m.cells| == |disk.value.cells|
                            && forall i | 0 <= i < |m.cells| :: m.cells[i] == Resumed(disk.value.cells[i])
    ensures Durable(Some(m)) && CellsMay(CellsOf(disk, o), [], m.cells)
    ensures ProcessMay(disk, o, [], Some(m))
  {
    FreshIsDurable(o);
  }

  lemma CellRanMay(before: seq<CellState>, mine: seq<nat>, m: Manifest, schedule: seq<Cell>, index: nat, cell: CellState, more: seq<nat>,
                   child: Option<Child>)
    requires Accepted(m.cells, schedule, m.options.evaluate) && CellsMay(before, mine, m.cells)
    requires index < |m.cells| && m.cells[index].status == Pending && Ascending(mine, index)
    requires more == mine || (more == mine + [index] && cell.status != Pending)
    requires child.None? ==> cell == m.cells[index] || cell == m.cells[index].(status := Running)
    requires child.Some? ==> ChildContract(child.value, m.cells[index].cell.key.task, m.options.evaluate) && more == mine + [index]
                             && cell == Recorded(m.cells[index].(status := Running), child.value, m.options.evaluate)
    ensures Accepted(m.cells[index := cell], schedule, m.options.evaluate)
    ensures CellsMay(before, more, m.cells[index := cell])
    ensures Ascending(more, index + 1)
  {
    assert CellMay(before[index], index in mine, m.cells[index]);
    assert Acceptable(m.cells[index], schedule[index], m.options.evaluate);
    if child.Some? {
      RecordedIsAcceptable(m.cells[index].(status := Running), schedule[index], child.value, m.options.evaluate);
    }
    var cells := m.cells[index := cell];
    forall i | 0 <= i < |cells| ensures CellMay(before[i], i in more, cells[i]) {
      assert CellMay(before[i], i in mine, m.cells[i]);
    }
  }

  /** How a process ends: refused at the start, killed, or with an exit code. */
  datatype ProcessExit = Refused | Crashed | Done(code: nat)

  class CampaignProcess {
    var disk: Option<Manifest>
    ghost var launched: seq<nat>

    constructor ()
      ensures disk == None && launched == []
    {
      disk, launched := None, [];
    }

    /** Replace the manifest atomically. A process may die before or after, unless it is to `survive`. */
    method Persist(m: Manifest, survives: bool) returns (alive: bool)
      modifies this`disk
      ensures disk == old(disk) || disk == Some(m)
      ensures alive ==> disk == Some(m)
      ensures survives ==> alive
    {
      var dies: bool := *;
      if dies && !survives {
        return false;
      }
      disk := Some(m);
      dies := *;
      alive := survives || !dies;
    }

    /** Load and check the persisted manifest, or make a fresh one. */
    method Load(o: Options, resume: bool, sameProvenance: bool) returns (m: Option<Manifest>)
      requires WellFormed(o) && Durable(disk)
      ensures m.Some? <==> Startable(disk, o, resume, sameProvenance)
      ensures m.Some? && disk.None? ==> m.value == Fresh(o)
      ensures m.Some? && disk.Some? ==>
                && m.value.options == o && m.value.finishedAt == None && |m.value.cells| == |disk.value.cells|
                && forall i | 0 <= i < |m.value.cells| :: m.value.cells[i] == Resumed(disk.value.cells[i])
    {
      if disk.None? {
        return if resume then None else Some(Fresh(o));
      }
      var persisted := disk.value;
      if !resume || persisted.options != o || !sameProvenance {
        return None;
      }
      var cells := new CellState[|persisted.cells|](i requires 0 <= i < |persisted.cells| => persisted.cells[i]);
      var expected := BuildProgramBenchCampaignCells(o);
      assert cells[..] == persisted.cells;
      var ok := ResumeCells(cells, expected, o.evaluate);
      return if ok then Some(Manifest(o, cells[..], None)) else None;
    }

    /** Mark one pending cell running, launch it, and record how it ended. A process that survives has
        recorded what its child reported; one that dies leaves the cell as it was, running, or recorded. */
    method RunCell(m: Manifest, index: nat, ended: Child, survives: bool) returns (alive: bool, cell: CellState, ghost child: Option<Child>, ghost ran: seq<nat>)
      requires index < |m.cells| && m.cells[index].status == Pending && disk == Some(m)
      requires ChildContract(ended, m.cells[index].cell.key.task, m.options.evaluate)
      modifies this
      ensures disk == Some(m.(cells := m.cells[index := cell]))
      ensures (alive ==> child.Some?) && (survives ==> alive)
      ensures launched == old(launched) + ran && (ran == [] || ran == [index])
      ensures child.Some? ==> child.value == ended && ran == [index]
      ensures child.Some? ==> cell == Recorded(m.cells[index].(status := Running), ended, m.options.evaluate)
      ensures child.None? ==> cell == m.cells[index] || cell == m.cells[index].(status := Running)
      ensures child.None? && ran != [] ==> cell.status == Running
    {
      cell, child, ran := m.cells[index], None, [];
      assert m.(cells := m.cells[index := cell]) == m;
      var running := cell.(status := Running);
      alive := Persist(m.(cells := m.cells[index := running]), survives);
      if !alive {
        cell := if disk.value.cells[index].status == Running then running else cell;
        return;
      }
      ran := [index];
      cell, launched := running, launched + ran;
      var dies: bool := *;
      if dies && !survives {
        return false, cell, None, ran;
      }
      var recorded := Recorded(running, ended, m.options.evaluate);
      alive := Persist(m.(cells := m.cells[index := recorded]), survives);
      if alive || disk.value.cells[index] == recorded {
        cell, child := recorded, Some(ended);
      }
    }

    /** Run the pending cells in order, until none is left, one ran on invalid infrastructure, or the
        process dies. A process that survives has swept the cells and launched exactly those it changed. */
    method RunPending(m: Manifest, ghost before: seq<CellState>, ghost schedule: seq<Cell>, children: seq<Child>, survives: bool)
      returns (alive: bool, after: Manifest, ghost mine: seq<nat>)
      requires disk == Some(m) && Accepted(m.cells, schedule, m.options.evaluate) && CellsMay(before, [], m.cells)
      requires ChildrenKeep(children, schedule, m.options.evaluate)
      modifies this
      ensures disk == Some(after) && Accepted(after.cells, schedule, m.options.evaluate) && after.options == m.options
      ensures launched == old(launched) + mine && Ascending(mine, |before|)
      ensures CellsMay(before, mine, after.cells)
      ensures survives ==> alive
      ensures alive ==> after.cells == Swept(m.cells, children, 0, m.options.evaluate) && after.finishedAt == m.finishedAt
    {
      after, mine := m, [];
      var index := 0;
      while index < |after.cells|
        invariant index <= |after.cells| == |before| && disk == Some(after) && launched == old(launched) + mine
        invariant after.options == m.options && after.finishedAt == m.finishedAt
        invariant Accepted(after.cells, schedule, m.options.evaluate) && CellsMay(before, mine, after.cells)
        invariant Ascending(mine, index)
        invariant Swept(after.cells, children, index, m.options.evaluate) == Swept(m.cells, children, 0, m.options.evaluate)
      {
        if after.cells[index].status == Pending {
          var lives, cell, child, ran := RunCell(after, index, children[index], survives);
          CellRanMay(before, mine, after, schedule, index, cell, mine + ran, child);
          assert launched == old(launched) + (mine + ran);
          mine := mine + ran;
          after := after.(cells := after.cells[index := cell]);
          if !lives {
            return false, after, mine;
          }
          if InfrastructureInvalid(cell, m.options.evaluate) {
            return true, after, mine;
          }
        }
        index := index + 1;
      }
      alive := true;
    }

    /** The whole process; `children` says how the child of each cell would end. It is refused exactly if
        what is on disk does not fit the way it was started. It ends of itself only after its sweep; the
        exit code is zero exactly when every cell has exit code zero. */
    method Run(o: Options, resume: bool, sameProvenance: bool, children: seq<Child>, survives: bool) returns (exit: ProcessExit, ghost mine: seq<nat>)
      requires WellFormed(o) && Durable(disk) && ChildrenKeep(children, Schedule(o), o.evaluate)
      modifies this
      ensures launched == old(launched) + mine
      ensures ProcessMay(old(disk), o, mine, disk)
      ensures exit.Refused? <==> !Startable(old(disk), o, resume, sameProvenance)
      ensures exit.Refused? ==> disk == old(disk) && mine == []
      ensures survives ==> !exit.Crashed?
      ensures exit.Done? ==> disk.Some? && disk.value.cells == Swept(AllResumed(CellsOf(old(disk), o)), children, 0, o.evaluate)
      ensures exit.Done? ==> (disk.value.finishedAt.Some? <==> AllFinished(disk.value.cells))
      ensures exit.Done? ==> (exit.code == 0 <==> AllSucceeded(disk.value.cells)) && exit.code <= 1
    {
      mine := [];
      var loaded := Load(o, resume, sameProvenance);
      NothingDone(disk, o);
      if loaded.None? {
        return Refused, [];
      }
      var m := loaded.value;
      LoadedMay(disk, o, m);
      assert m.cells == AllResumed(CellsOf(disk, o));
      ghost var before := CellsOf(disk, o);
      var alive := Persist(m, survives);
      if !alive {
        return Crashed, [];
      }
      alive, m, mine := RunPending(m, before, Schedule(o), children, survives);
      if !alive {
        return Crashed, mine;
      }
      var now: nat := *;
      m := m.(finishedAt := if AllFinished(m.cells) then Some(now) else None);
      alive := Persist(m, survives);
      exit := if alive then Done(if AllSucceeded(m.cells) then 0 else 1) else Crashed;
    }
  }

  // ---- What a sweep does ----

  /** A sweep that ends of itself stops at one place: every pending cell up to there has been run and
      recorded, none before it on invalid infrastructure, and it stops early exactly at the first that was;
      every cell behind that place keeps its state, pending ones included. */
  lemma {:induction false} SweepStops(cells: seq<CellState>, children: seq<Child>, index: nat, evaluate: bool) returns (stop: nat)
    requires |children| == |cells| && index <= |cells|
    ensures index <= stop <= |cells|
    ensures var after := Swept(cells, children, index, evaluate);
            && |after| == |cells|
            && (forall i | 0 <= i < |cells| ::
                  after[i] == if index <= i <= stop && cells[i].status == Pending then RunAs(cells[i], children[i], evaluate) else cells[i])
            && (forall i | index <= i < stop && cells[i].status == Pending :: !InfrastructureInvalid(after[i], evaluate))
            && (stop < |cells| ==> cells[stop].status == Pending && InfrastructureInvalid(after[stop], evaluate))
    decreases |cells| - index
  {
    if index == |cells| {
      stop := index;
    } else if cells[index].status != Pending {
      stop := SweepStops(cells, children, index + 1, evaluate);
    } else if InfrastructureInvalid(RunAs(cells[index], children[index], evaluate), evaluate) {
      stop := index;
    } else {
      stop := SweepStops(cells[index := RunAs(cells[index], children[index], evaluate)], children, index + 1, evaluate);
    }
  }

  // ---- Any number of processes ----

  datatype Process = Process(options: Options, launched: seq<nat>, after: Option<Manifest>)

  ghost predicate History(disk: Option<Manifest>, processes: seq<Process>)
    decreases |processes|
  {
    processes == [] ||
    (&& WellFormed(processes[0].options)
     && ProcessMay(disk, processes[0].options, processes[0].launched, processes[0].after)
     && History(processes[0].after, processes[1..]))
  }

  function LaunchesOf(index: nat, processes: seq<Process>): nat {
    if processes == [] then 0
    else (if index in processes[0].launched then 1 else 0) + LaunchesOf(index, processes[1..])
  }

  function LastDisk(disk: Option<Manifest>, processes: seq<Process>): Option<Manifest>
    decreases |processes|
  {
    if processes == [] then disk else LastDisk(processes[0].after, processes[1..])
  }

  predicate Known(disk: Option<Manifest>, index: nat) {
    disk.Some? && index < |disk.value.cells|
  }

  /** What is settled on disk stays: a cell that is not pending is never launched again, a finished or
      interrupted one never changes, and one left running can only become interrupted. */
  lemma {:induction false} SettledCellsStay(disk: Option<Manifest>, processes: seq<Process>, index: nat)
    requires Durable(disk) && History(disk, processes) && Known(disk, index)
    ensures Known(LastDisk(disk, processes), index)
    ensures var before, after := disk.value.cells[index], LastDisk(disk, processes).value.cells[index];
            && (before.status != Pending ==> LaunchesOf(index, processes) == 0)
            && (Finished(before) || before.status == Interrupted ==> after == before)
            && (before.status == Running ==> after == before || after == Resumed(before))
    decreases |processes|
  {
    if processes != [] {
      var p := processes[0];
      assert CellMay(disk.value.cells[index], index in p.launched, p.after.value.cells[index]);
      SettledCellsStay(p.after, processes[1..], index);
    }
  }

  /** Over any sequence of processes, crashed or not, no cell is launched twice. */
  lemma {:induction false} LaunchedAtMostOnce(disk: Option<Manifest>, processes: seq<Process>, index: nat)
    requires Durable(disk) && History(disk, processes)
    ensures LaunchesOf(index, processes) <= 1
    ensures disk.Some? && index >= |disk.value.cells| ==> LaunchesOf(index, processes) == 0
    decreases |processes|
  {
    if processes != [] {
      var p := processes[0];
      LaunchedAtMostOnce(p.after, processes[1..], index);
      if index in p.launched {
        assert index < |CellsOf(disk, p.options)|;
        assert CellMay(CellsOf(disk, p.options)[index], true, p.after.value.cells[index]);
        SettledCellsStay(p.after, processes[1..], index);
      }
    }
  }

  /** A cell interrupted by a crash is neither re-run nor ever counted complete. */
  lemma InterruptedNeverCounts(disk: Option<Manifest>, processes: seq<Process>, index: nat)
    requires Durable(disk) && History(disk, processes) && Known(disk, index)
    requires disk.value.cells[index].status == Interrupted
    ensures LaunchesOf(index, processes) == 0
    ensures LastDisk(disk, processes).Some? && !AllFinished(LastDisk(disk, processes).value.cells)
  {
    SettledCellsStay(disk, processes, index);
  }

  /** Whatever a process leaves on disk is something that resuming accepts. */
  lemma {:induction false} EveryManifestIsAccepted(disk: Option<Manifest>, processes: seq<Process>)
    requires Durable(disk) && History(disk, processes)
    ensures var last := LastDisk(disk, processes);
            last.Some? ==> last.value.options.modes != [] && Accepted(last.value.cells, Schedule(last.value.options), last.value.options.evaluate)
    decreases |processes|
  {
    if processes != [] {
      EveryManifestIsAccepted(processes[0].after, processes[1..]);
    }
  }
}
