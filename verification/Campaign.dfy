/** A ProgramBench campaign: its cells, what a cell's run can report, and the counterbalanced schedule
    of tasks, profiles, replicates and controllers. */
module Campaign {
  import opened Wrappers

  type Name(==, !new)

  datatype Mode = Single | SelfReview | Contract

  datatype Options = Options(tasks: seq<Name>, profiles: seq<Name>, replicates: nat, modes: seq<Mode>, evaluate: bool)

  datatype Key = Key(task: Name, profile: Name, replicate: nat)

  datatype Cell = Cell(key: Key, mode: Mode)

  datatype ExitStatus = InfrastructureError | ArtifactMissing | OtherExit

  datatype EvaluationStatus = NotRequested | NotRun | EvaluationPending | Evaluated | EvaluationFailed

  /** What a run leaves behind: the runner's exit, whether it has an artifact, the evaluation, and what it
      reports about its provider calls, tokens and time. */
  datatype RunResult = RunResult(
    task: Name,
    runnerExitCode: int,
    exitStatus: ExitStatus,
    artifact: bool,
    evaluationStatus: EvaluationStatus,
    score: Option<real>,
    providerCompleteCalls: Option<nat>,
    totalTokens: Option<nat>,
    wallTimeMs: Option<nat>)

  datatype Status = Pending | Running | Completed | Failed | Interrupted

  datatype CellState = CellState(cell: Cell, status: Status, exitCode: Option<int>, result: Option<RunResult>)

  predicate Finished(c: CellState) {
    c.status == Completed || c.status == Failed
  }

  // ---- Scores ----

  datatype Outcome = Outcome(score: Option<real>, artifact: nat)

  function ValidCellScore(c: CellState, evaluate: bool): Option<Outcome> {
    if c.result.None? || c.result.value.exitStatus == InfrastructureError then None
    else if c.result.value.exitStatus == ArtifactMissing then Some(Outcome(if evaluate then Some(0.0) else None, 0))
    else if !c.result.value.artifact then None
    else if !evaluate then Some(Outcome(None, 1))
    else if c.result.value.evaluationStatus != Evaluated || c.result.value.score.None? then None
    else Some(Outcome(Some(c.result.value.score.value), 1))
  }

  predicate InfrastructureInvalid(c: CellState, evaluate: bool) {
    Finished(c) && ValidCellScore(c, evaluate).None?
  }

  // ---- The schedule ----

  function Rotate<T>(s: seq<T>, k: nat): seq<T>
    requires k <= |s|
  {
    s[k..] + s[..k]
  }

  /** The cells of one task, profile and replicate, in the order they run. */
  function Block(o: Options, t: nat, p: nat, replicate: nat): seq<Cell>
    requires t < |o.tasks| && p < |o.profiles| && replicate >= 1 && o.modes != []
  {
    var modes := Rotate(o.modes, (t + p + replicate - 1) % |o.modes|);
    seq(|modes|, i requires 0 <= i < |modes| => Cell(Key(o.tasks[t], o.profiles[p], replicate), modes[i]))
  }

  function ReplicateBlocks(o: Options, t: nat, p: nat, count: nat): seq<seq<Cell>>
    requires t < |o.tasks| && p < |o.profiles| && o.modes != []
  {
    if count == 0 then [] else ReplicateBlocks(o, t, p, count - 1) + [Block(o, t, p, count)]
  }

  function ProfileBlocks(o: Options, t: nat, count: nat): seq<seq<Cell>>
    requires t < |o.tasks| && count <= |o.profiles| && o.modes != []
  {
    if count == 0 then [] else ProfileBlocks(o, t, count - 1) + ReplicateBlocks(o, t, count - 1, o.replicates)
  }

  function TaskBlocks(o: Options, count: nat): seq<seq<Cell>>
    requires count <= |o.tasks| && o.modes != []
  {
    if count == 0 then [] else TaskBlocks(o, count - 1) + ProfileBlocks(o, count - 1, |o.profiles|)
  }

  function Blocks(o: Options): seq<seq<Cell>>
    requires o.modes != []
  {
    TaskBlocks(o, |o.tasks|)
  }

  function Flat(blocks: seq<seq<Cell>>): seq<Cell> {
    if blocks == [] then [] else Flat(blocks[..|blocks| - 1]) + blocks[|blocks| - 1]
  }

  function Schedule(o: Options): seq<Cell>
    requires o.modes != []
  {
    Flat(Blocks(o))
  }

  lemma {:induction false} FlatConcat(a: seq<seq<Cell>>, b: seq<seq<Cell>>)
    ensures Flat(a + b) == Flat(a) + Flat(b)
    decreases |b|
  {
    if b == [] {
      assert a + b == a;
    } else {
      var n := |b| - 1;
      assert (a + b)[..|a + b| - 1] == a + b[..n] && (a + b)[|a + b| - 1] == b[n];
      FlatConcat(a, b[..n]);
      Associates(Flat(a), Flat(b[..n]), b[n]);
    }
  }

  lemma Associates<T>(a: seq<T>, b: seq<T>, c: seq<T>)
    ensures (a + b) + c == a + (b + c)
  {
  }

  lemma FlatNext(blocks: seq<seq<Cell>>, block: seq<Cell>)
    ensures Flat(blocks + [block]) == Flat(blocks) + block
  {
    assert (blocks + [block])[..|blocks|] == blocks;
  }

  method AppendBlock(cells: seq<Cell>, o: Options, t: nat, p: nat, replicate: nat) returns (more: seq<Cell>)
    requires t < |o.tasks| && p < |o.profiles| && replicate >= 1 && o.modes != []
    ensures more == cells + Block(o, t, p, replicate)
  {
    var offset := (t + p + replicate - 1) % |o.modes|;
    var modes := o.modes[offset..] + o.modes[..offset];
    ghost var block := Block(o, t, p, replicate);
    more := cells;
    for i := 0 to |modes|
      invariant more == cells + block[..i]
    {
      more := more + [Cell(Key(o.tasks[t], o.profiles[p], replicate), modes[i])];
    }
    assert block[..|modes|] == block;
  }

  method AppendReplicates(cells: seq<Cell>, o: Options, t: nat, p: nat) returns (more: seq<Cell>)
    requires t < |o.tasks| && p < |o.profiles| && o.modes != []
    ensures more == cells + Flat(ReplicateBlocks(o, t, p, o.replicates))
  {
    more := cells;
    for replicate := 1 to o.replicates + 1
      invariant more == cells + Flat(ReplicateBlocks(o, t, p, replicate - 1))
    {
      FlatNext(ReplicateBlocks(o, t, p, replicate - 1), Block(o, t, p, replicate));
      more := AppendBlock(more, o, t, p, replicate);
    }
  }

  lemma {:induction false} ProfileNext(o: Options, t: nat, p: nat)
    requires t < |o.tasks| && p < |o.profiles| && o.modes != []
    ensures Flat(ProfileBlocks(o, t, p + 1)) == Flat(ProfileBlocks(o, t, p)) + Flat(ReplicateBlocks(o, t, p, o.replicates))
  {
    FlatConcat(ProfileBlocks(o, t, p), ReplicateBlocks(o, t, p, o.replicates));
  }

  method AppendProfiles(cells: seq<Cell>, o: Options, t: nat) returns (more: seq<Cell>)
    requires t < |o.tasks| && o.modes != []
    ensures more == cells + Flat(ProfileBlocks(o, t, |o.profiles|))
  {
    more := cells;
    ghost var done := [];
    for p := 0 to |o.profiles|
      invariant done == Flat(ProfileBlocks(o, t, p)) && more == cells + done
    {
      ProfileNext(o, t, p);
      ghost var block := Flat(ReplicateBlocks(o, t, p, o.replicates));
      more := AppendReplicates(more, o, t, p);
      Associates(cells, done, block);
      done := done + block;
    }
  }

  method BuildProgramBenchCampaignCells(o: Options) returns (cells: seq<Cell>)
    requires o.modes != []
    ensures cells == Schedule(o)
  {
    cells := [];
    for t := 0 to |o.tasks|
      invariant cells == Flat(TaskBlocks(o, t))
    {
      FlatConcat(TaskBlocks(o, t), ProfileBlocks(o, t, |o.profiles|));
      cells := AppendProfiles(cells, o, t);
    }
  }

  // ---- What the schedule guarantees ----

  predicate Distinct<T(==)>(s: seq<T>) {
    forall i, j | 0 <= i < j < |s| :: s[i] != s[j]
  }

  /** What the command line and the manifest's schema demand of the options. */
  predicate WellFormed(o: Options) {
    o.modes != [] && Distinct(o.tasks) && Distinct(o.profiles) && Distinct(o.modes) && o.profiles != []
  }

  /** One key, and each planned controller exactly once. */
  predicate IsBlock(o: Options, block: seq<Cell>) {
    && |block| == |o.modes| > 0
    && (forall i | 0 <= i < |block| :: block[i].key == block[0].key)
    && (forall m <- o.modes :: exists i :: 0 <= i < |block| && block[i].mode == m)
    && (forall i, j | 0 <= i < j < |block| :: block[i].mode != block[j].mode)
    && (forall i | 0 <= i < |block| :: block[i].mode in o.modes)
  }

  predicate GoodBlocks(o: Options, blocks: seq<seq<Cell>>) {
    && (forall i | 0 <= i < |blocks| :: blocks[i] != [] && IsBlock(o, blocks[i]))
    && forall i, j | 0 <= i < j < |blocks| :: blocks[i][0].key != blocks[j][0].key
  }

  lemma BlockIsBlock(o: Options, t: nat, p: nat, replicate: nat)
    requires WellFormed(o) && t < |o.tasks| && p < |o.profiles| && replicate >= 1
    ensures IsBlock(o, Block(o, t, p, replicate))
    ensures Block(o, t, p, replicate)[0].key == Key(o.tasks[t], o.profiles[p], replicate)
  {
    var k := (t + p + replicate - 1) % |o.modes|;
    var block := Block(o, t, p, replicate);
    var modes := Rotate(o.modes, k);
    RotateHolds(o.modes, k);
    forall m | m in o.modes ensures exists i :: 0 <= i < |block| && block[i].mode == m {
      var i :| 0 <= i < |modes| && modes[i] == m;
      assert block[i].mode == m;
    }
  }

  lemma RotateHolds<T>(s: seq<T>, k: nat)
    requires k <= |s|
    ensures |Rotate(s, k)| == |s|
    ensures forall x :: x in Rotate(s, k) <==> x in s
    ensures Distinct(s) ==> Distinct(Rotate(s, k))
  {
    var r := Rotate(s, k);
    assert s == s[..k] + s[k..];
    assert forall i | 0 <= i < |r| :: r[i] == s[if i < |s| - k then i + k else i - (|s| - k)];
  }

  lemma {:induction false} ReplicateBlocksGood(o: Options, t: nat, p: nat, count: nat)
    requires WellFormed(o) && t < |o.tasks| && p < |o.profiles|
    ensures var blocks := ReplicateBlocks(o, t, p, count);
            && |blocks| == count && GoodBlocks(o, blocks)
            && forall i | 0 <= i < count :: blocks[i][0].key == Key(o.tasks[t], o.profiles[p], i + 1)
  {
    if count > 0 {
      ReplicateBlocksGood(o, t, p, count - 1);
      BlockIsBlock(o, t, p, count);
    }
  }

  predicate KeysFrom(blocks: seq<seq<Cell>>, tasks: seq<Name>, profiles: seq<Name>) {
    forall i | 0 <= i < |blocks| :: blocks[i] != [] && blocks[i][0].key.task in tasks && blocks[i][0].key.profile in profiles
  }

  lemma GoodConcat(o: Options, a: seq<seq<Cell>>, b: seq<seq<Cell>>)
    requires GoodBlocks(o, a) && GoodBlocks(o, b)
    requires forall i, j | 0 <= i < |a| && 0 <= j < |b| :: a[i][0].key != b[j][0].key
    ensures GoodBlocks(o, a + b)
  {
  }

  lemma NextProduct(count: nat, size: nat)
    requires count > 0
    ensures (count - 1) * size + size == count * size
  {
  }

  lemma {:induction false} ProfileBlocksGood(o: Options, t: nat, count: nat)
    requires WellFormed(o) && t < |o.tasks| && count <= |o.profiles|
    ensures |ProfileBlocks(o, t, count)| == count * o.replicates
    ensures GoodBlocks(o, ProfileBlocks(o, t, count)) && KeysFrom(ProfileBlocks(o, t, count), [o.tasks[t]], o.profiles[..count])
  {
    if count > 0 {
      ProfileBlocksGood(o, t, count - 1);
      ReplicateBlocksGood(o, t, count - 1, o.replicates);
      NextProduct(count, o.replicates);
      LastIsNew(o.profiles, count);
      GoodConcat(o, ProfileBlocks(o, t, count - 1), ReplicateBlocks(o, t, count - 1, o.replicates));
    }
  }

  lemma LastIsNew(names: seq<Name>, count: nat)
    requires Distinct(names) && 0 < count <= |names|
    ensures forall x <- names[..count - 1] :: x in names[..count] && x != names[count - 1]
    ensures names[count - 1] in names[..count]
  {
    assert names[..count] == names[..count - 1] + [names[count - 1]];
  }

  lemma {:induction false} TaskBlocksGood(o: Options, count: nat)
    requires WellFormed(o) && count <= |o.tasks|
    ensures |TaskBlocks(o, count)| == count * (|o.profiles| * o.replicates)
    ensures GoodBlocks(o, TaskBlocks(o, count)) && KeysFrom(TaskBlocks(o, count), o.tasks[..count], o.profiles)
  {
    if count > 0 {
      TaskBlocksGood(o, count - 1);
      ProfileBlocksGood(o, count - 1, |o.profiles|);
      NextProduct(count, |o.profiles| * o.replicates);
      assert o.profiles[..|o.profiles|] == o.profiles;
      LastIsNew(o.tasks, count);
      GoodConcat(o, TaskBlocks(o, count - 1), ProfileBlocks(o, count - 1, |o.profiles|));
    }
  }

  /** A block of the schedule belongs to a task, a profile and a replicate of the options. */
  predicate BlockOf(o: Options, block: seq<Cell>, t: nat, p: nat, replicate: nat)
    requires o.modes != []
  {
    && t < |o.tasks| && p < |o.profiles| && 1 <= replicate <= o.replicates
    && block == Block(o, t, p, replicate)
  }

  lemma {:induction false} ReplicateBlocksHave(o: Options, t: nat, p: nat, count: nat, replicate: nat)
    requires t < |o.tasks| && p < |o.profiles| && o.modes != [] && 1 <= replicate <= count
    ensures Block(o, t, p, replicate) in ReplicateBlocks(o, t, p, count)
  {
    if replicate < count {
      ReplicateBlocksHave(o, t, p, count - 1, replicate);
    }
  }

  lemma {:induction false} ProfileBlocksHave(o: Options, t: nat, count: nat, p: nat, replicate: nat)
    requires t < |o.tasks| && p < count <= |o.profiles| && o.modes != [] && 1 <= replicate <= o.replicates
    ensures Block(o, t, p, replicate) in ProfileBlocks(o, t, count)
  {
    if p < count - 1 {
      ProfileBlocksHave(o, t, count - 1, p, replicate);
    } else {
      ReplicateBlocksHave(o, t, p, o.replicates, replicate);
    }
  }

  lemma {:induction false} TaskBlocksHave(o: Options, count: nat, t: nat, p: nat, replicate: nat)
    requires t < count <= |o.tasks| && p < |o.profiles| && o.modes != [] && 1 <= replicate <= o.replicates
    ensures Block(o, t, p, replicate) in TaskBlocks(o, count)
  {
    if t < count - 1 {
      TaskBlocksHave(o, count - 1, t, p, replicate);
    } else {
      ProfileBlocksHave(o, t, |o.profiles|, p, replicate);
    }
  }

  lemma {:induction false} ReplicateBlockOf(o: Options, t: nat, p: nat, count: nat, block: seq<Cell>) returns (replicate: nat)
    requires t < |o.tasks| && p < |o.profiles| && o.modes != [] && count <= o.replicates
    requires block in ReplicateBlocks(o, t, p, count)
    ensures BlockOf(o, block, t, p, replicate)
  {
    if block == Block(o, t, p, count) {
      replicate := count;
    } else {
      replicate := ReplicateBlockOf(o, t, p, count - 1, block);
    }
  }

  lemma {:induction false} ProfileBlockOf(o: Options, t: nat, count: nat, block: seq<Cell>) returns (p: nat, replicate: nat)
    requires t < |o.tasks| && count <= |o.profiles| && o.modes != [] && block in ProfileBlocks(o, t, count)
    ensures BlockOf(o, block, t, p, replicate)
  {
    if block in ReplicateBlocks(o, t, count - 1, o.replicates) {
      p := count - 1;
      replicate := ReplicateBlockOf(o, t, p, o.replicates, block);
    } else {
      p, replicate := ProfileBlockOf(o, t, count - 1, block);
    }
  }

  lemma {:induction false} TaskBlockOf(o: Options, count: nat, block: seq<Cell>) returns (t: nat, p: nat, replicate: nat)
    requires count <= |o.tasks| && o.modes != [] && block in TaskBlocks(o, count)
    ensures BlockOf(o, block, t, p, replicate)
  {
    if block in ProfileBlocks(o, count - 1, |o.profiles|) {
      t := count - 1;
      p, replicate := ProfileBlockOf(o, t, |o.profiles|, block);
    } else {
      t, p, replicate := TaskBlockOf(o, count - 1, block);
    }
  }

  /** Every combination of task, profile and replicate has one block, with each controller once, and
      there is no other block. */
  lemma ScheduleIsComplete(o: Options)
    requires WellFormed(o)
    ensures |Blocks(o)| == |o.tasks| * (|o.profiles| * o.replicates) && GoodBlocks(o, Blocks(o))
    ensures forall t, p, replicate | 0 <= t < |o.tasks| && 0 <= p < |o.profiles| && 1 <= replicate <= o.replicates ::
              Block(o, t, p, replicate) in Blocks(o)
    ensures forall block <- Blocks(o) :: exists t, p, replicate :: BlockOf(o, block, t, p, replicate)
  {
    TaskBlocksGood(o, |o.tasks|);
    forall t, p, replicate | 0 <= t < |o.tasks| && 0 <= p < |o.profiles| && 1 <= replicate <= o.replicates
      ensures Block(o, t, p, replicate) in Blocks(o)
    {
      TaskBlocksHave(o, |o.tasks|, t, p, replicate);
    }
    forall block | block in Blocks(o) ensures exists t, p, replicate :: BlockOf(o, block, t, p, replicate) {
      var t, p, replicate := TaskBlockOf(o, |o.tasks|, block);
    }
  }

  lemma Wraps(a: nat, n: nat, j: nat) returns (d: nat)
    requires 0 < n <= 3 && j < n
    ensures d < n && (a + d) % n == j
  {
    var m := a % n;
    d := if j >= m then j - m else j + n - m;
    if n == 2 {
      assert a == 2 * (a / 2) + m;
    } else if n == 3 {
      assert a == 3 * (a / 3) + m;
    }
  }

  lemma ThreeModes(modes: seq<Mode>)
    requires Distinct(modes)
    ensures |modes| <= 3
  {
    if |modes| > 3 {
      TwoOfFourAgree(modes[0], modes[1], modes[2], modes[3]);
    }
  }

  lemma TwoOfFourAgree(a: Mode, b: Mode, c: Mode, d: Mode)
    ensures a == b || a == c || a == d || b == c || b == d || c == d
  {
  }

  lemma ModThree(a: nat, i: nat)
    requires i < 3
    ensures (a + i) % 3 == if a % 3 + i < 3 then a % 3 + i else a % 3 + i - 3
  {
  }

  lemma ModTwo(a: nat, i: nat)
    requires i < 2
    ensures (a + i) % 2 == if a % 2 + i < 2 then a % 2 + i else a % 2 + i - 2
  {
  }

  lemma ModWraps(a: nat, i: nat, n: nat)
    requires 0 < n <= 3 && i < n
    ensures (a + i) % n == if a % n + i < n then a % n + i else a % n + i - n
  {
    if n == 3 {
      ModThree(a, i);
    } else if n == 2 {
      ModTwo(a, i);
    } else {
      assert i == 0;
    }
  }

  /** The controllers of a block run in the order of the options, taken cyclically, beginning one further
      with each task, each profile and each replicate. */
  lemma BlocksRotate(o: Options, t: nat, p: nat, replicate: nat, i: nat)
    requires WellFormed(o) && t < |o.tasks| && p < |o.profiles| && replicate >= 1 && i < |o.modes|
    ensures |Block(o, t, p, replicate)| == |o.modes|
    ensures Block(o, t, p, replicate)[i] == Cell(Key(o.tasks[t], o.profiles[p], replicate), o.modes[(t + p + replicate - 1 + i) % |o.modes|])
  {
    ThreeModes(o.modes);
    RotateHolds(o.modes, (t + p + replicate - 1) % |o.modes|);
    ModWraps(t + p + replicate - 1, i, |o.modes|);
  }

  /** Counterbalancing: among any |modes| consecutive replicates of a task and profile, every
      controller runs first once. */
  lemma EveryControllerLeads(o: Options, t: nat, p: nat, from: nat, j: nat) returns (replicate: nat)
    requires WellFormed(o) && t < |o.tasks| && p < |o.profiles| && from >= 1 && j < |o.modes|
    ensures from <= replicate < from + |o.modes|
    ensures Block(o, t, p, replicate)[0].mode == o.modes[j]
  {
    ThreeModes(o.modes);
    var d := Wraps(t + p + from - 1, |o.modes|, j);
    replicate := from + d;
    assert (t + p + replicate - 1) % |o.modes| == j;
  }

  /** So it is among |modes| consecutive tasks, and among |modes| consecutive profiles. */
  lemma EveryControllerLeadsATask(o: Options, p: nat, replicate: nat, from: nat, j: nat) returns (t: nat)
    requires WellFormed(o) && p < |o.profiles| && replicate >= 1 && from + |o.modes| <= |o.tasks| && j < |o.modes|
    ensures from <= t < from + |o.modes|
    ensures Block(o, t, p, replicate)[0].mode == o.modes[j]
  {
    ThreeModes(o.modes);
    var d := Wraps(from + p + replicate - 1, |o.modes|, j);
    t := from + d;
    assert (t + p + replicate - 1) % |o.modes| == j;
  }

  lemma EveryControllerLeadsAProfile(o: Options, t: nat, replicate: nat, from: nat, j: nat) returns (p: nat)
    requires WellFormed(o) && t < |o.tasks| && replicate >= 1 && from + |o.modes| <= |o.profiles| && j < |o.modes|
    ensures from <= p < from + |o.modes|
    ensures Block(o, t, p, replicate)[0].mode == o.modes[j]
  {
    ThreeModes(o.modes);
    var d := Wraps(t + from + replicate - 1, |o.modes|, j);
    p := from + d;
    assert (t + p + replicate - 1) % |o.modes| == j;
  }

  // ---- The place of every cell ----

  lemma {:induction false} RowsFit(row: nat, rows: nat, size: nat)
    requires row < rows
    ensures row * size + size <= rows * size
  {
    NextProduct(rows, size);
    if row < rows - 1 {
      RowsFit(row, rows - 1, size);
    }
  }

  lemma {:induction false} ReplicateBlockAt(o: Options, t: nat, p: nat, count: nat, replicate: nat)
    requires t < |o.tasks| && p < |o.profiles| && o.modes != [] && 1 <= replicate <= count
    ensures |ReplicateBlocks(o, t, p, count)| == count
    ensures ReplicateBlocks(o, t, p, count)[replicate - 1] == Block(o, t, p, replicate)
  {
    if replicate < count {
      ReplicateBlockAt(o, t, p, count - 1, replicate);
    } else {
      ReplicateCount(o, t, p, count - 1);
    }
  }

  lemma {:induction false} ReplicateCount(o: Options, t: nat, p: nat, count: nat)
    requires t < |o.tasks| && p < |o.profiles| && o.modes != []
    ensures |ReplicateBlocks(o, t, p, count)| == count
  {
    if count > 0 {
      ReplicateCount(o, t, p, count - 1);
    }
  }

  lemma {:induction false} ProfileBlockAt(o: Options, t: nat, count: nat, p: nat, replicate: nat)
    requires t < |o.tasks| && p < count <= |o.profiles| && o.modes != [] && 1 <= replicate <= o.replicates
    ensures |ProfileBlocks(o, t, count)| == count * o.replicates
    ensures p * o.replicates + replicate - 1 < count * o.replicates
    ensures ProfileBlocks(o, t, count)[p * o.replicates + replicate - 1] == Block(o, t, p, replicate)
  {
    ProfileCount(o, t, count);
    ProfileCount(o, t, count - 1);
    RowsFit(p, count, o.replicates);
    if p < count - 1 {
      ProfileBlockAt(o, t, count - 1, p, replicate);
    } else {
      ReplicateBlockAt(o, t, p, o.replicates, replicate);
    }
  }

  lemma {:induction false} ProfileCount(o: Options, t: nat, count: nat)
    requires t < |o.tasks| && count <= |o.profiles| && o.modes != []
    ensures |ProfileBlocks(o, t, count)| == count * o.replicates
  {
    if count > 0 {
      ProfileCount(o, t, count - 1);
      ReplicateCount(o, t, count - 1, o.replicates);
      NextProduct(count, o.replicates);
    }
  }

  lemma {:induction false} TaskCount(o: Options, count: nat, size: nat)
    requires count <= |o.tasks| && o.modes != [] && size == |o.profiles| * o.replicates
    ensures |TaskBlocks(o, count)| == count * size
  {
    if count > 0 {
      TaskCount(o, count - 1, size);
      ProfileCount(o, count - 1, |o.profiles|);
      NextProduct(count, size);
    }
  }

  lemma {:induction false} TaskBlockAt(o: Options, count: nat, t: nat, offset: nat, size: nat)
    requires t < count <= |o.tasks| && o.modes != []
    requires size == |o.profiles| * o.replicates && offset < size && |ProfileBlocks(o, t, |o.profiles|)| == size
    ensures t * size + offset < |TaskBlocks(o, count)|
    ensures TaskBlocks(o, count)[t * size + offset] == ProfileBlocks(o, t, |o.profiles|)[offset]
  {
    TaskCount(o, count - 1, size);
    TaskCount(o, count, size);
    RowsFit(t, count, size);
    if t < count - 1 {
      TaskBlockAt(o, count - 1, t, offset, size);
    }
  }

  lemma {:induction false} FlatAt(blocks: seq<seq<Cell>>, size: nat, k: nat, i: nat)
    requires forall b <- blocks :: |b| == size
    requires k < |blocks| && i < size
    ensures |Flat(blocks)| == |blocks| * size && k * size + i < |blocks| * size
    ensures Flat(blocks)[k * size + i] == blocks[k][i]
  {
    var n := |blocks| - 1;
    FlatCount(blocks, size);
    FlatCount(blocks[..n], size);
    RowsFit(k, n + 1, size);
    NextProduct(n + 1, size);
    if k < n {
      FlatAt(blocks[..n], size, k, i);
    }
  }

  lemma {:induction false} FlatCount(blocks: seq<seq<Cell>>, size: nat)
    requires forall b <- blocks :: |b| == size
    ensures |Flat(blocks)| == |blocks| * size
  {
    if blocks != [] {
      var n := |blocks| - 1;
      FlatCount(blocks[..n], size);
      NextProduct(n + 1, size);
      assert blocks[n] in blocks;
    }
  }

  /** The place of a block in the schedule. */
  function BlockIndex(o: Options, t: nat, p: nat, replicate: nat): int {
    t * (|o.profiles| * o.replicates) + (p * o.replicates + replicate - 1)
  }

  lemma BlockAt(o: Options, t: nat, p: nat, replicate: nat) returns (k: nat)
    requires t < |o.tasks| && p < |o.profiles| && o.modes != [] && 1 <= replicate <= o.replicates
    ensures k == BlockIndex(o, t, p, replicate) && k < |Blocks(o)| && Blocks(o)[k] == Block(o, t, p, replicate)
  {
    var size, offset := |o.profiles| * o.replicates, p * o.replicates + replicate - 1;
    ProfileBlockAt(o, t, |o.profiles|, p, replicate);
    TaskBlockAt(o, |o.tasks|, t, offset, size);
    k := t * size + offset;
  }

  /** The schedule in closed form: tasks outermost, then profiles, then replicates, then the controllers
      in rotated order; this is the cell at every place. */
  lemma CellAt(o: Options, t: nat, p: nat, replicate: nat, i: nat) returns (k: nat)
    requires WellFormed(o) && t < |o.tasks| && p < |o.profiles| && 1 <= replicate <= o.replicates && i < |o.modes|
    ensures k == BlockIndex(o, t, p, replicate) && k * |o.modes| + i < |Schedule(o)|
    ensures Schedule(o)[k * |o.modes| + i] == Cell(Key(o.tasks[t], o.profiles[p], replicate), o.modes[(t + p + replicate - 1 + i) % |o.modes|])
  {
    k := BlockAt(o, t, p, replicate);
    CellInBlock(o, Blocks(o), k, i);
    BlocksRotate(o, t, p, replicate, i);
  }

  lemma CellInBlock(o: Options, blocks: seq<seq<Cell>>, k: nat, i: nat)
    requires WellFormed(o) && blocks == Blocks(o) && k < |blocks| && i < |o.modes|
    ensures k * |o.modes| + i < |Flat(blocks)| == |blocks| * |o.modes|
    ensures i < |blocks[k]| && Flat(blocks)[k * |o.modes| + i] == blocks[k][i]
  {
    TaskBlocksGood(o, |o.tasks|);
    assert forall b <- blocks :: |b| == |o.modes|;
    FlatAt(blocks, |o.modes|, k, i);
  }
}
