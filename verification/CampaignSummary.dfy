/** The summary of a campaign: rates per controller, paired differences, and what may be claimed. */
module CampaignSummary {
  import opened Wrappers
  import opened Campaign
  import SignFlip

  datatype Manifest = Manifest(options: Options, cells: seq<CellState>, finishedAt: Option<nat>)

  /** What is averaged: the score, whether there is an artifact, and what runs report. */
  datatype Measure = Score | Artifact | Calls | Tokens | WallTime

  datatype Pair = Pair(key: Key, single: Option<CellState>, contract: Option<CellState>)

  datatype ModeSummary = ModeSummary(
    plannedCells: nat,
    validCells: nat,
    artifactRate: Option<real>,
    meanScore: Option<real>,
    meanProviderCalls: Option<real>,
    meanTotalTokens: Option<real>,
    meanWallTimeMs: Option<real>)

  datatype Summary = Summary(
    campaignComplete: bool,
    infrastructureValid: bool,
    modes: map<Mode, ModeSummary>,
    pairs: nat,
    scoreDelta: Option<real>,
    artifactDelta: Option<real>,
    callDelta: Option<real>,
    tokenDelta: Option<real>,
    pValue: Option<real>,
    improvementClaimEligible: bool,
    improvementSupported: bool)

  function MeanOption(values: seq<real>): Option<real> {
    if values == [] then None else Some(SignFlip.Mean(values))
  }

  function Reported(n: Option<nat>): Option<real> {
    if n.Some? then Some(n.value as real) else None
  }

  /** What a valid cell contributes to an average, if anything. */
  function Measured(c: CellState, evaluate: bool, what: Measure): Option<real> {
    var outcome := ValidCellScore(c, evaluate);
    if outcome.None? then None
    else
      match what
      case Score => outcome.value.score
      case Artifact => Some(outcome.value.artifact as real)
      case Calls => Reported(c.result.value.providerCompleteCalls)
      case Tokens => Reported(c.result.value.totalTokens)
      case WallTime => Reported(c.result.value.wallTimeMs)
  }

  // ---- Per controller ----

  function InMode(cells: seq<CellState>, mode: Mode): seq<CellState> {
    if cells == [] then []
    else InMode(cells[..|cells| - 1], mode) + if cells[|cells| - 1].cell.mode == mode then [cells[|cells| - 1]] else []
  }

  function ValidIn(cells: seq<CellState>, evaluate: bool): seq<CellState> {
    if cells == [] then []
    else
      var last := cells[|cells| - 1];
      ValidIn(cells[..|cells| - 1], evaluate) + if ValidCellScore(last, evaluate).Some? then [last] else []
  }

  function Values(cells: seq<CellState>, evaluate: bool, what: Measure): seq<real> {
    if cells == [] then []
    else
      var value := Measured(cells[|cells| - 1], evaluate, what);
      Values(cells[..|cells| - 1], evaluate, what) + if value.Some? then [value.value] else []
  }

  function SummarizeMode(cells: seq<CellState>, mode: Mode, evaluate: bool): ModeSummary {
    var planned := InMode(cells, mode);
    var valid := ValidIn(planned, evaluate);
    if |valid| == |planned| then
      ModeSummary(|planned|, |valid|,
                  MeanOption(Values(valid, evaluate, Artifact)), MeanOption(Values(valid, evaluate, Score)),
                  MeanOption(Values(valid, evaluate, Calls)), MeanOption(Values(valid, evaluate, Tokens)),
                  MeanOption(Values(valid, evaluate, WallTime)))
    else ModeSummary(|planned|, |valid|, None, None, None, None, None)
  }

  // ---- Pairs ----

  /** Enter a cell into the map of pairs, which keeps the order in which keys first appeared. */
  function Put(pairs: seq<Pair>, c: CellState): seq<Pair> {
    if c.cell.mode == SelfReview then pairs else Enter(pairs, c)
  }

  function Enter(pairs: seq<Pair>, c: CellState): seq<Pair> {
    if pairs == [] then [With(Pair(c.cell.key, None, None), c)]
    else if pairs[0].key == c.cell.key then [With(pairs[0], c)] + pairs[1..]
    else [pairs[0]] + Enter(pairs[1..], c)
  }

  function With(pair: Pair, c: CellState): Pair {
    if c.cell.mode == Single then pair.(single := Some(c)) else pair.(contract := Some(c))
  }

  function PutAll(pairs: seq<Pair>, cells: seq<CellState>): seq<Pair> {
    if cells == [] then pairs else Put(PutAll(pairs, cells[..|cells| - 1]), cells[|cells| - 1])
  }

  /** Both cells of the pair exist, are valid and have a score. */
  predicate Scored(pair: Pair, evaluate: bool) {
    && pair.single.Some? && pair.contract.Some?
    && Measured(pair.single.value, evaluate, Score).Some? && Measured(pair.contract.value, evaluate, Score).Some?
  }

  /** Contract less single, for a pair that counts and in which both report. */
  function Delta(pair: Pair, evaluate: bool, what: Measure): Option<real> {
    if !Scored(pair, evaluate) then None
    else
      var single, contract := Measured(pair.single.value, evaluate, what), Measured(pair.contract.value, evaluate, what);
      if single.Some? && contract.Some? then Some(contract.value - single.value) else None
  }

  function Deltas(pairs: seq<Pair>, evaluate: bool, what: Measure): seq<real> {
    if pairs == [] then []
    else
      var delta := Delta(pairs[|pairs| - 1], evaluate, what);
      Deltas(pairs[..|pairs| - 1], evaluate, what) + if delta.Some? then [delta.value] else []
  }

  // ---- The summary ----

  predicate AllFinished(cells: seq<CellState>) {
    forall i | 0 <= i < |cells| :: Finished(cells[i])
  }

  predicate AllValid(cells: seq<CellState>, evaluate: bool) {
    forall i | 0 <= i < |cells| :: ValidCellScore(cells[i], evaluate).Some?
  }

  /** A missing rate compares as zero. */
  function Rate(r: Option<real>): real {
    if r.Some? then r.value else 0.0
  }

  function SummarizeModes(m: Manifest): map<Mode, ModeSummary> {
    map mode | mode in m.options.modes :: SummarizeMode(m.cells, mode, m.options.evaluate)
  }

  /** The paired differences of everything that is paired. */
  datatype Paired = Paired(scores: seq<real>, artifacts: seq<real>, calls: seq<real>, tokens: seq<real>)

  function PairedOf(pairs: seq<Pair>, evaluate: bool): Paired {
    Paired(Deltas(pairs, evaluate, Score), Deltas(pairs, evaluate, Artifact), Deltas(pairs, evaluate, Calls), Deltas(pairs, evaluate, Tokens))
  }

  function Conclude(m: Manifest, modes: map<Mode, ModeSummary>, paired: Paired, pValue: Option<real>): Summary {
    var complete := m.finishedAt.Some? && AllFinished(m.cells);
    var valid := AllValid(m.cells, m.options.evaluate);
    var eligible := complete && valid && m.options.evaluate && |m.options.tasks| >= 3 && m.options.replicates >= 3
                    && Contract in modes && Single in modes
                    && |paired.scores| == |m.options.tasks| * |m.options.profiles| * m.options.replicates;
    var delta := MeanOption(paired.scores);
    Summary(complete, valid, modes, |paired.scores|, delta, MeanOption(paired.artifacts), MeanOption(paired.calls),
            MeanOption(paired.tokens), pValue, eligible,
            eligible && delta.Some? && delta.value > 0.0 && pValue.Some? && pValue.value <= 0.05
            && Rate(modes[Contract].artifactRate) >= Rate(modes[Single].artifactRate))
  }

  ghost function SummaryOf(m: Manifest, epsilon: real): Summary {
    var paired := PairedOf(PutAll([], m.cells), m.options.evaluate);
    Conclude(m, SummarizeModes(m), paired, SignFlip.PValue(paired.scores, epsilon))
  }

  method PairCells(cells: seq<CellState>) returns (pairs: seq<Pair>)
    ensures pairs == PutAll([], cells)
  {
    pairs := [];
    for i := 0 to |cells|
      invariant pairs == PutAll([], cells[..i])
    {
      assert cells[..i + 1][..i] == cells[..i];
      pairs := Put(pairs, cells[i]);
    }
    assert cells[..|cells|] == cells;
  }

  method SummarizeEachMode(m: Manifest) returns (modes: map<Mode, ModeSummary>)
    ensures modes == SummarizeModes(m)
  {
    modes := map[];
    for i := 0 to |m.options.modes|
      invariant modes.Keys == set mode | mode in m.options.modes[..i]
      invariant forall mode <- modes :: modes[mode] == SummarizeMode(m.cells, mode, m.options.evaluate)
    {
      modes := modes[m.options.modes[i] := SummarizeMode(m.cells, m.options.modes[i], m.options.evaluate)];
    }
    assert m.options.modes[..|m.options.modes|] == m.options.modes;
  }

  method SummarizeProgramBenchCampaign(m: Manifest, epsilon: real) returns (summary: Summary)
    ensures summary == SummaryOf(m, epsilon)
  {
    var modes := SummarizeEachMode(m);
    var pairs := PairCells(m.cells);
    var paired := PairedOf(pairs, m.options.evaluate);
    var pValue := SignFlip.ExactOneSidedPairedPValue(paired.scores, epsilon);
    summary := Conclude(m, modes, paired, pValue);
  }

  // ---- Claims ----

  lemma {:induction false} InModeIs(cells: seq<CellState>, mode: Mode, c: CellState)
    ensures c in InMode(cells, mode) <==> c in cells && c.cell.mode == mode
  {
    if cells != [] {
      var n := |cells| - 1;
      assert cells == cells[..n] + [cells[n]];
      InModeIs(cells[..n], mode, c);
    }
  }

  lemma {:induction false} ValidInAll(cells: seq<CellState>, evaluate: bool)
    requires forall c <- cells :: ValidCellScore(c, evaluate).Some?
    ensures ValidIn(cells, evaluate) == cells
  {
    if cells != [] {
      var n := |cells| - 1;
      assert cells[n] in cells && forall c <- cells[..n] :: c in cells;
      ValidInAll(cells[..n], evaluate);
      assert ValidIn(cells, evaluate) == ValidIn(cells[..n], evaluate) + [cells[n]];
    }
  }

  lemma {:induction false} ValuesAll(cells: seq<CellState>, evaluate: bool, what: Measure)
    requires forall c <- cells :: Measured(c, evaluate, what).Some?
    ensures |Values(cells, evaluate, what)| == |cells|
  {
    if cells != [] {
      var n := |cells| - 1;
      assert cells[n] in cells && forall c <- cells[..n] :: c in cells;
      ValuesAll(cells[..n], evaluate, what);
    }
  }

  predicate PairsFrom(pairs: seq<Pair>, cells: seq<CellState>) {
    forall i | 0 <= i < |pairs| ::
      && (pairs[i].single.Some? ==> pairs[i].single.value in cells && pairs[i].single.value.cell.mode == Single)
      && (pairs[i].contract.Some? ==> pairs[i].contract.value in cells && pairs[i].contract.value.cell.mode == Contract)
  }

  lemma {:induction false} EnterFrom(pairs: seq<Pair>, c: CellState, cells: seq<CellState>)
    requires PairsFrom(pairs, cells) && c in cells && c.cell.mode != SelfReview
    ensures PairsFrom(Enter(pairs, c), cells)
  {
    if pairs != [] && pairs[0].key != c.cell.key {
      EnterFrom(pairs[1..], c, cells);
    }
  }

  lemma {:induction false} PutAllFrom(cells: seq<CellState>, all: seq<CellState>)
    requires forall c <- cells :: c in all
    ensures PairsFrom(PutAll([], cells), all)
  {
    if cells != [] {
      var n := |cells| - 1;
      assert cells[n] in cells && forall c <- cells[..n] :: c in cells;
      PutAllFrom(cells[..n], all);
      if cells[n].cell.mode != SelfReview {
        EnterFrom(PutAll([], cells[..n]), cells[n], all);
      }
    }
  }

  lemma {:induction false} SomeDelta(pairs: seq<Pair>, evaluate: bool, what: Measure) returns (i: nat)
    requires Deltas(pairs, evaluate, what) != []
    ensures i < |pairs| && Scored(pairs[i], evaluate)
  {
    var n := |pairs| - 1;
    if Delta(pairs[n], evaluate, what).Some? {
      i := n;
    } else {
      i := SomeDelta(pairs[..n], evaluate, what);
    }
  }

  /** With every cell valid, a controller that has a cell has its rate. */
  lemma {:induction false} ModeHasRate(cells: seq<CellState>, mode: Mode, evaluate: bool, c: CellState)
    requires AllValid(cells, evaluate) && c in cells && c.cell.mode == mode
    ensures SummarizeMode(cells, mode, evaluate).artifactRate.Some?
  {
    var planned := InMode(cells, mode);
    InModeIs(cells, mode, c);
    forall x | x in planned ensures ValidCellScore(x, evaluate).Some? {
      InModeIs(cells, mode, x);
    }
    ValidInAll(planned, evaluate);
    ValuesAll(planned, evaluate, Artifact);
  }

  lemma AtLeastNine(t: nat, p: nat, r: nat)
    requires t >= 3 && p >= 1 && r >= 3
    ensures t * p * r >= 9
  {
    assert t * p >= 3;
    assert t * p * r >= 3 * r;
  }

  /** Eligibility means that both artifact rates exist, so the rates compared are never missing. */
  lemma {:induction false} EligibleHasRates(m: Manifest, epsilon: real)
    requires m.options.profiles != []
    ensures var s := SummaryOf(m, epsilon);
            s.improvementClaimEligible ==>
              && Contract in s.modes && Single in s.modes
              && s.modes[Contract].artifactRate.Some? && s.modes[Single].artifactRate.Some?
  {
    var s := SummaryOf(m, epsilon);
    if s.improvementClaimEligible {
      var pairs := PutAll([], m.cells);
      AtLeastNine(|m.options.tasks|, |m.options.profiles|, m.options.replicates);
      assert Deltas(pairs, m.options.evaluate, Score) != [];
      var i := SomeDelta(pairs, m.options.evaluate, Score);
      PutAllFrom(m.cells, m.cells);
      ModeHasRate(m.cells, Contract, m.options.evaluate, pairs[i].contract.value);
      ModeHasRate(m.cells, Single, m.options.evaluate, pairs[i].single.value);
    }
  }

  /** A supported improvement rests on 9 to 20 pairs. */
  lemma {:induction false} SupportNeedsNineToTwentyPairs(m: Manifest, epsilon: real)
    requires m.options.profiles != []
    ensures var s := SummaryOf(m, epsilon); s.improvementSupported ==> 9 <= s.pairs <= 20
  {
    if SummaryOf(m, epsilon).improvementSupported {
      AtLeastNine(|m.options.tasks|, |m.options.profiles|, m.options.replicates);
    }
  }

  // ---- Paired means ----

  function Ids(cells: seq<CellState>): seq<Cell> {
    seq(|cells|, i requires 0 <= i < |cells| => cells[i].cell)
  }

  function LastOf(cells: seq<CellState>): Option<CellState> {
    if cells == [] then None else Some(cells[|cells| - 1])
  }

  predicate KeyAbsent(pairs: seq<Pair>, key: Key) {
    forall i | 0 <= i < |pairs| :: pairs[i].key != key
  }

  lemma {:induction false} EnterNew(pairs: seq<Pair>, c: CellState)
    requires KeyAbsent(pairs, c.cell.key)
    ensures Enter(pairs, c) == pairs + [With(Pair(c.cell.key, None, None), c)]
  {
    if pairs != [] {
      EnterNew(pairs[1..], c);
    }
  }

  lemma {:induction false} EnterLast(pairs: seq<Pair>, last: Pair, c: CellState)
    requires KeyAbsent(pairs, c.cell.key) && last.key == c.cell.key
    ensures Enter(pairs + [last], c) == pairs + [With(last, c)]
  {
    if pairs == [] {
      assert [last][1..] == [];
    } else {
      assert (pairs + [last])[1..] == pairs[1..] + [last];
      EnterLast(pairs[1..], last, c);
    }
  }

  /** The pairs after part of a block: none yet, or one more with the cells met so far. */
  function Grown(pairs: seq<Pair>, key: Key, part: seq<CellState>): seq<Pair> {
    if InMode(part, Single) == [] && InMode(part, Contract) == [] then pairs
    else pairs + [Pair(key, LastOf(InMode(part, Single)), LastOf(InMode(part, Contract)))]
  }

  lemma {:induction false} BlockGrows(pairs: seq<Pair>, key: Key, part: seq<CellState>)
    requires KeyAbsent(pairs, key) && forall i | 0 <= i < |part| :: part[i].cell.key == key
    ensures PutAll(pairs, part) == Grown(pairs, key, part)
  {
    if part != [] {
      var n := |part| - 1;
      var c, before := part[n], part[..n];
      BlockGrows(pairs, key, before);
      if c.cell.mode != SelfReview {
        EnterNew(pairs, c);
        EnterLast(pairs, Pair(key, LastOf(InMode(before, Single)), LastOf(InMode(before, Contract))), c);
      }
    }
  }

  lemma {:induction false} PutAllConcat(pairs: seq<Pair>, a: seq<CellState>, b: seq<CellState>)
    ensures PutAll(pairs, a + b) == PutAll(PutAll(pairs, a), b)
    decreases |b|
  {
    if b == [] {
      assert a + b == a;
    } else {
      var n := |b| - 1;
      assert (a + b)[..|a + b| - 1] == a + b[..n] && (a + b)[|a + b| - 1] == b[n];
      PutAllConcat(pairs, a, b[..n]);
    }
  }

  lemma {:induction false} InModeConcat(a: seq<CellState>, b: seq<CellState>, mode: Mode)
    ensures InMode(a + b, mode) == InMode(a, mode) + InMode(b, mode)
    decreases |b|
  {
    if b == [] {
      assert a + b == a;
    } else {
      var n := |b| - 1;
      assert (a + b)[..|a + b| - 1] == a + b[..n] && (a + b)[|a + b| - 1] == b[n];
      InModeConcat(a, b[..n], mode);
    }
  }

  lemma {:induction false} OneInMode(cells: seq<CellState>, mode: Mode)
    requires forall i, j | 0 <= i < j < |cells| :: cells[i].cell.mode != cells[j].cell.mode
    requires exists i :: 0 <= i < |cells| && cells[i].cell.mode == mode
    ensures |InMode(cells, mode)| == 1
  {
    var n := |cells| - 1;
    if cells[n].cell.mode == mode {
      NoneInMode(cells[..n], mode);
    } else {
      OneInMode(cells[..n], mode);
    }
  }

  lemma {:induction false} NoneInMode(cells: seq<CellState>, mode: Mode)
    requires forall i | 0 <= i < |cells| :: cells[i].cell.mode != mode
    ensures InMode(cells, mode) == []
  {
    if cells != [] {
      NoneInMode(cells[..|cells| - 1], mode);
    }
  }

  /** The value averaged for one cell of an evaluated campaign. */
  function ValueOf(c: CellState, what: Measure): real
    requires Measured(c, true, what).Some?
  {
    Measured(c, true, what).value
  }

  /** Every cell is valid, has a score and reports the measure. */
  predicate AllMeasured(cells: seq<CellState>, what: Measure) {
    forall i | 0 <= i < |cells| :: Measured(cells[i], true, Score).Some? && Measured(cells[i], true, what).Some?
  }

  lemma ValidAreScored(cells: seq<CellState>)
    requires AllValid(cells, true)
    ensures AllMeasured(cells, Score) && AllMeasured(cells, Artifact)
  {
  }

  function ModeValues(cells: seq<CellState>, mode: Mode, what: Measure): seq<real> {
    Values(InMode(cells, mode), true, what)
  }

  lemma {:induction false} ModeValuesNext(a: seq<CellState>, b: seq<CellState>, mode: Mode, c: CellState, what: Measure)
    requires InMode(b, mode) == [c] && Measured(c, true, what).Some?
    ensures ModeValues(a + b, mode, what) == ModeValues(a, mode, what) + [ValueOf(c, what)]
    ensures |InMode(a + b, mode)| == |InMode(a, mode)| + 1
  {
    InModeConcat(a, b, mode);
    var before := InMode(a, mode);
    assert (before + [c])[..|before|] == before;
  }

  predicate PairMeasured(pair: Pair, what: Measure) {
    && pair.single.Some? && pair.contract.Some?
    && Measured(pair.single.value, true, Score).Some? && Measured(pair.contract.value, true, Score).Some?
    && Measured(pair.single.value, true, what).Some? && Measured(pair.contract.value, true, what).Some?
  }

  lemma {:induction false} DeltasNext(pairs: seq<Pair>, pair: Pair, what: Measure)
    requires PairMeasured(pair, what)
    ensures Deltas(pairs + [pair], true, what)
            == Deltas(pairs, true, what) + [ValueOf(pair.contract.value, what) - ValueOf(pair.single.value, what)]
  {
    assert (pairs + [pair])[..|pairs|] == pairs;
  }

  predicate KeysMatch(pairs: seq<Pair>, blocks: seq<seq<Cell>>) {
    |pairs| == |blocks| && forall i | 0 <= i < |blocks| :: blocks[i] != [] && pairs[i].key == blocks[i][0].key
  }

  predicate SumsMatch(deltas: seq<real>, single: seq<real>, contract: seq<real>, n: nat) {
    && |deltas| == n && |single| == n && |contract| == n
    && SignFlip.Total(deltas) == SignFlip.Total(contract) - SignFlip.Total(single)
  }

  /** What the pairs and the two controllers' values have in common, block by block. */
  ghost predicate Balanced(cells: seq<CellState>, blocks: seq<seq<Cell>>, what: Measure) {
    && KeysMatch(PutAll([], cells), blocks)
    && |InMode(cells, Single)| == |blocks| && |InMode(cells, Contract)| == |blocks|
    && SumsMatch(Deltas(PutAll([], cells), true, what), ModeValues(cells, Single, what), ModeValues(cells, Contract, what), |blocks|)
  }

  lemma {:induction false} SumsNext(deltas: seq<real>, single: seq<real>, contract: seq<real>, n: nat, s: real, c: real)
    requires SumsMatch(deltas, single, contract, n)
    ensures SumsMatch(deltas + [c - s], single + [s], contract + [c], n + 1)
  {
    TotalSnoc(deltas, c - s);
    TotalSnoc(single, s);
    TotalSnoc(contract, c);
  }

  lemma KeysNext(o: Options, pairs: seq<Pair>, blocks: seq<seq<Cell>>, block: seq<Cell>)
    requires KeysMatch(pairs, blocks) && GoodBlocks(o, blocks + [block])
    ensures IsBlock(o, block) && KeyAbsent(pairs, block[0].key)
  {
    var all, n := blocks + [block], |blocks|;
    assert all[n] == block && IsBlock(o, all[n]);
    forall i | 0 <= i < |pairs| ensures pairs[i].key != block[0].key {
      assert all[i] == blocks[i];
    }
  }

  lemma KeysAppend(pairs: seq<Pair>, blocks: seq<seq<Cell>>, pair: Pair, block: seq<Cell>)
    requires KeysMatch(pairs, blocks) && block != [] && pair.key == block[0].key
    ensures KeysMatch(pairs + [pair], blocks + [block])
  {
  }

  lemma GoodPrefix(o: Options, blocks: seq<seq<Cell>>, block: seq<Cell>)
    requires GoodBlocks(o, blocks + [block])
    ensures GoodBlocks(o, blocks)
  {
    assert forall i | 0 <= i < |blocks| :: (blocks + [block])[i] == blocks[i];
  }

  lemma TotalSnoc(values: seq<real>, x: real)
    ensures SignFlip.Total(values + [x]) == SignFlip.Total(values) + x
  {
    SignFlip.TotalConcat(values, [x]);
  }

  /** A block whose key is new adds one pair, of its single and its contract cell. */
  lemma {:induction false} BlockAddsPair(o: Options, pairs: seq<Pair>, last: seq<CellState>, block: seq<Cell>, what: Measure)
    returns (single: CellState, contract: CellState)
    requires IsBlock(o, block) && Single in o.modes && Contract in o.modes
    requires Ids(last) == block && AllMeasured(last, what) && KeyAbsent(pairs, block[0].key)
    ensures InMode(last, Single) == [single] && InMode(last, Contract) == [contract]
    ensures PairMeasured(Pair(block[0].key, Some(single), Some(contract)), what)
    ensures PutAll(pairs, last) == pairs + [Pair(block[0].key, Some(single), Some(contract))]
  {
    assert forall i | 0 <= i < |last| :: last[i].cell == block[i];
    OneInMode(last, Single);
    OneInMode(last, Contract);
    single, contract := InMode(last, Single)[0], InMode(last, Contract)[0];
    InModeIs(last, Single, single);
    InModeIs(last, Contract, contract);
    BlockGrows(pairs, block[0].key, last);
  }

  lemma {:induction false} PutAllNext(cells: seq<CellState>, last: seq<CellState>, pairs: seq<Pair>, pair: Pair)
    requires pairs == PutAll([], cells) && PutAll(pairs, last) == pairs + [pair]
    ensures PutAll([], cells + last) == pairs + [pair]
  {
    PutAllConcat([], cells, last);
  }

  lemma {:induction false} BalancedNext(o: Options, cells: seq<CellState>, blocks: seq<seq<Cell>>, last: seq<CellState>, block: seq<Cell>, what: Measure)
    requires Balanced(cells, blocks, what) && GoodBlocks(o, blocks + [block]) && Single in o.modes && Contract in o.modes
    requires Ids(last) == block && AllMeasured(last, what)
    ensures Balanced(cells + last, blocks + [block], what)
  {
    var pairs := PutAll([], cells);
    KeysNext(o, pairs, blocks, block);
    var single, contract := BlockAddsPair(o, pairs, last, block, what);
    BalancedWith(cells, blocks, last, block, what, single, contract);
  }

  lemma {:induction false} BalancedWith(cells: seq<CellState>, blocks: seq<seq<Cell>>, last: seq<CellState>, block: seq<Cell>, what: Measure,
                                        single: CellState, contract: CellState)
    requires Balanced(cells, blocks, what) && block != []
    requires InMode(last, Single) == [single] && InMode(last, Contract) == [contract]
    requires PairMeasured(Pair(block[0].key, Some(single), Some(contract)), what)
    requires PutAll(PutAll([], cells), last) == PutAll([], cells) + [Pair(block[0].key, Some(single), Some(contract))]
    ensures Balanced(cells + last, blocks + [block], what)
  {
    var pairs, pair := PutAll([], cells), Pair(block[0].key, Some(single), Some(contract));
    PutAllNext(cells, last, pairs, pair);
    KeysAppend(pairs, blocks, pair, block);
    ModeValuesNext(cells, last, Single, single, what);
    ModeValuesNext(cells, last, Contract, contract, what);
    DeltasMatch(cells, pairs, pair, |blocks|, what);
  }

  lemma {:induction false} DeltasMatch(cells: seq<CellState>, pairs: seq<Pair>, pair: Pair, n: nat, what: Measure)
    requires PairMeasured(pair, what)
    requires SumsMatch(Deltas(pairs, true, what), ModeValues(cells, Single, what), ModeValues(cells, Contract, what), n)
    ensures SumsMatch(Deltas(pairs + [pair], true, what), ModeValues(cells, Single, what) + [ValueOf(pair.single.value, what)],
                      ModeValues(cells, Contract, what) + [ValueOf(pair.contract.value, what)], n + 1)
  {
    DeltasNext(pairs, pair, what);
    SumsNext(Deltas(pairs, true, what), ModeValues(cells, Single, what), ModeValues(cells, Contract, what), n,
             ValueOf(pair.single.value, what), ValueOf(pair.contract.value, what));
  }

  /** The cells of the last block, and those before it. */
  lemma SplitLastBlock(cells: seq<CellState>, before: seq<seq<Cell>>, last: seq<Cell>, what: Measure) returns (a: seq<CellState>, b: seq<CellState>)
    requires Ids(cells) == Flat(before + [last]) && AllMeasured(cells, what)
    ensures cells == a + b && Ids(a) == Flat(before) && Ids(b) == last
    ensures AllMeasured(a, what) && AllMeasured(b, what)
  {
    FlatNext(before, last);
    var k := |Flat(before)|;
    a, b := cells[..k], cells[k..];
    assert Ids(a) == Ids(cells)[..k] && Ids(b) == Ids(cells)[k..];
  }

  lemma {:induction false} BlocksBalance(o: Options, cells: seq<CellState>, blocks: seq<seq<Cell>>, what: Measure)
    requires GoodBlocks(o, blocks) && Single in o.modes && Contract in o.modes
    requires Ids(cells) == Flat(blocks) && AllMeasured(cells, what)
    ensures Balanced(cells, blocks, what)
    decreases |blocks|
  {
    if blocks == [] {
      assert cells == [];
    } else {
      var before, last := blocks[..|blocks| - 1], blocks[|blocks| - 1];
      assert blocks == before + [last];
      GoodPrefix(o, before, last);
      var a, b := SplitLastBlock(cells, before, last, what);
      BlocksBalance(o, a, before, what);
      BalancedNext(o, a, before, b, last, what);
    }
  }

  lemma QuotientsDiffer(a: real, b: real, n: real)
    requires n > 0.0
    ensures (a - b) / n == a / n - b / n
  {
    var d, e := (a - b) / n, a / n - b / n;
    assert d * n == a - b && (a / n) * n == a && (b / n) * n == b;
    assert e * n == (a / n) * n - (b / n) * n;
    SignFlip.Scale(d, e, n);
    SignFlip.Scale(e, d, n);
  }

  lemma MeansDiffer(deltas: seq<real>, single: seq<real>, contract: seq<real>)
    requires |deltas| == |single| == |contract| > 0
    requires SignFlip.Total(deltas) == SignFlip.Total(contract) - SignFlip.Total(single)
    ensures SignFlip.Mean(deltas) == SignFlip.Mean(contract) - SignFlip.Mean(single)
  {
    QuotientsDiffer(SignFlip.Total(contract), SignFlip.Total(single), |deltas| as real);
  }

  lemma {:induction false} BalancedMeans(cells: seq<CellState>, blocks: seq<seq<Cell>>, what: Measure)
    requires Balanced(cells, blocks, what) && blocks != []
    ensures var delta := MeanOption(Deltas(PutAll([], cells), true, what));
            var single, contract := MeanOption(ModeValues(cells, Single, what)), MeanOption(ModeValues(cells, Contract, what));
            single.Some? && contract.Some? && delta == Some(contract.value - single.value)
  {
    MeansDiffer(Deltas(PutAll([], cells), true, what), ModeValues(cells, Single, what), ModeValues(cells, Contract, what));
  }

  /** The manifest holds the schedule of its options. */
  predicate Scheduled(m: Manifest) {
    WellFormed(m.options) && Ids(m.cells) == Schedule(m.options)
  }

  /** The mean of a controller and the mean paired difference of one measure. */
  function ModeMean(s: ModeSummary, what: Measure): Option<real> {
    match what
    case Score => s.meanScore
    case Artifact => s.artifactRate
    case Calls => s.meanProviderCalls
    case Tokens => s.meanTotalTokens
    case WallTime => s.meanWallTimeMs
  }

  function MeanDelta(s: Summary, what: Measure): Option<real>
    requires !what.WallTime?
  {
    match what
    case Score => s.scoreDelta
    case Artifact => s.artifactDelta
    case Calls => s.callDelta
    case Tokens => s.tokenDelta
  }

  /** The mean paired difference is the contract mean less the single mean. */
  predicate MeansMatch(s: Summary, what: Measure)
    requires !what.WallTime?
  {
    && Single in s.modes && Contract in s.modes
    && var single, contract := ModeMean(s.modes[Single], what), ModeMean(s.modes[Contract], what);
       single.Some? && contract.Some? && MeanDelta(s, what) == Some(contract.value - single.value)
  }

  /** In an evaluated campaign with both controllers and valid infrastructure every combination of
      task, profile and replicate is a pair, and the mean paired difference is the difference of the
      two controllers' means: for scores and artifacts always, for provider calls and tokens if every
      run reports them. */
  lemma {:induction false} PairedMeansAreDifferences(m: Manifest, epsilon: real, what: Measure)
    requires Scheduled(m) && m.options.evaluate && Single in m.options.modes && Contract in m.options.modes
    requires AllValid(m.cells, true) && !what.WallTime?
    ensures var s := SummaryOf(m, epsilon);
            && s.pairs == |m.options.tasks| * (|m.options.profiles| * m.options.replicates)
            && (s.pairs > 0 && (what.Score? || what.Artifact? || AllMeasured(m.cells, what)) ==> MeansMatch(s, what))
  {
    var o, blocks := m.options, Blocks(m.options);
    ScheduleIsComplete(o);
    ValidAreScored(m.cells);
    BlocksBalance(o, m.cells, blocks, Score);
    SummaryFields(m, epsilon, Score);
    if blocks != [] && AllMeasured(m.cells, what) {
      BlocksBalance(o, m.cells, blocks, what);
      BalancedSummary(m, epsilon, blocks, what);
    }
  }

  lemma {:induction false} BalancedSummary(m: Manifest, epsilon: real, blocks: seq<seq<Cell>>, what: Measure)
    requires Balanced(m.cells, blocks, what) && blocks != [] && !what.WallTime?
    requires m.options.evaluate && AllValid(m.cells, true) && Single in m.options.modes && Contract in m.options.modes
    ensures MeansMatch(SummaryOf(m, epsilon), what)
  {
    var s := SummaryOf(m, epsilon);
    SummaryFields(m, epsilon, what);
    ModeFields(s, m.cells, Single, what);
    ModeFields(s, m.cells, Contract, what);
    BalancedFields(s, m.cells, blocks, what);
  }

  lemma {:induction false} BalancedFields(s: Summary, cells: seq<CellState>, blocks: seq<seq<Cell>>, what: Measure)
    requires Balanced(cells, blocks, what) && blocks != [] && !what.WallTime?
    requires Single in s.modes && ModeMean(s.modes[Single], what) == MeanOption(ModeValues(cells, Single, what))
    requires Contract in s.modes && ModeMean(s.modes[Contract], what) == MeanOption(ModeValues(cells, Contract, what))
    requires MeanDelta(s, what) == MeanOption(Deltas(PutAll([], cells), true, what))
    ensures MeansMatch(s, what)
  {
    BalancedMeans(cells, blocks, what);
  }

  lemma ModeFields(s: Summary, cells: seq<CellState>, mode: Mode, what: Measure)
    requires mode in s.modes && s.modes[mode] == SummarizeMode(cells, mode, true) && AllValid(cells, true)
    ensures ModeMean(s.modes[mode], what) == MeanOption(ModeValues(cells, mode, what))
  {
    ModeMeans(cells, mode, what);
  }

  lemma {:induction false} SummaryFields(m: Manifest, epsilon: real, what: Measure)
    requires m.options.evaluate && !what.WallTime?
    ensures var s, pairs := SummaryOf(m, epsilon), PutAll([], m.cells);
            && s.pairs == |Deltas(pairs, true, Score)|
            && MeanDelta(s, what) == MeanOption(Deltas(pairs, true, what))
            && forall mode <- m.options.modes :: mode in s.modes && s.modes[mode] == SummarizeMode(m.cells, mode, true)
  {
  }

  lemma {:induction false} ModeMeans(cells: seq<CellState>, mode: Mode, what: Measure)
    requires AllValid(cells, true)
    ensures ModeMean(SummarizeMode(cells, mode, true), what) == MeanOption(ModeValues(cells, mode, what))
  {
    forall x | x in InMode(cells, mode) ensures ValidCellScore(x, true).Some? {
      InModeIs(cells, mode, x);
    }
    ValidInAll(InMode(cells, mode), true);
  }

  /** For a scheduled campaign the count of pairs adds nothing to eligibility, and a supported
      improvement means a higher mean score at no lower artifact rate. */
  lemma {:induction false} WhatClaimsMean(m: Manifest, epsilon: real)
    requires Scheduled(m)
    ensures var s := SummaryOf(m, epsilon);
            && (s.improvementClaimEligible <==>
                  && s.campaignComplete && s.infrastructureValid && m.options.evaluate
                  && |m.options.tasks| >= 3 && m.options.replicates >= 3
                  && Single in m.options.modes && Contract in m.options.modes)
            && (s.improvementSupported ==>
                  && s.modes[Contract].meanScore.Some? && s.modes[Single].meanScore.Some?
                  && s.modes[Contract].meanScore.value > s.modes[Single].meanScore.value
                  && Rate(s.modes[Contract].artifactRate) >= Rate(s.modes[Single].artifactRate))
  {
    var o := m.options;
    if AllValid(m.cells, true) && o.evaluate && Single in o.modes && Contract in o.modes {
      PairedMeansAreDifferences(m, epsilon, Score);
      PairedMeansAreDifferences(m, epsilon, Artifact);
      ThreeFactors(|o.tasks|, |o.profiles|, o.replicates);
      if SummaryOf(m, epsilon).improvementSupported {
        AtLeastNine(|o.tasks|, |o.profiles|, o.replicates);
      }
    }
  }

  lemma ThreeFactors(t: nat, p: nat, r: nat)
    ensures t * (p * r) == t * p * r
  {
  }
}
