/** What the numbers of a campaign's summary are, for any manifest: each mean as a sum over cells, each
    paired difference as that of two cells, and the claims drawn from them, threshold by threshold. */
module CampaignClaims {
  import opened Campaign
  import opened CampaignSummary
  import opened Wrappers
  import SignFlip

  // ---- Per controller ----

  function Planned(cells: seq<CellState>, mode: Mode): nat {
    if cells == [] then 0 else Planned(cells[..|cells| - 1], mode) + if cells[|cells| - 1].cell.mode == mode then 1 else 0
  }

  function Valid(cells: seq<CellState>, mode: Mode, evaluate: bool): nat {
    if cells == [] then 0 else
      var c := cells[|cells| - 1];
      Valid(cells[..|cells| - 1], mode, evaluate) + if c.cell.mode == mode && ValidCellScore(c, evaluate).Some? then 1 else 0
  }

  /** How many cells of a controller contribute to a mean, and what they add up to. */
  function Contributing(cells: seq<CellState>, mode: Mode, evaluate: bool, what: Measure): nat {
    if cells == [] then 0 else
      var c := cells[|cells| - 1];
      Contributing(cells[..|cells| - 1], mode, evaluate, what)
      + if c.cell.mode == mode && Measured(c, evaluate, what).Some? then 1 else 0
  }

  function Sum(cells: seq<CellState>, mode: Mode, evaluate: bool, what: Measure): real {
    if cells == [] then 0.0 else
      var c := cells[|cells| - 1];
      Sum(cells[..|cells| - 1], mode, evaluate, what)
      + if c.cell.mode == mode && Measured(c, evaluate, what).Some? then Measured(c, evaluate, what).value else 0.0
  }

  /** The mean times the count is the sum; there is none of nothing. */
  predicate IsMean(mean: Option<real>, count: nat, sum: real) {
    (mean.Some? <==> count > 0) && (mean.Some? ==> mean.value * count as real == sum)
  }

  lemma MeanIsMean(values: seq<real>)
    ensures IsMean(MeanOption(values), |values|, SignFlip.Total(values))
  {
    if values != [] {
      var n, t := |values| as real, SignFlip.Total(values);
      assert (t / n) * n == t;
    }
  }

  lemma {:induction false} ValuesSnoc(cells: seq<CellState>, c: CellState, evaluate: bool, what: Measure)
    ensures Values(cells + [c], evaluate, what)
            == Values(cells, evaluate, what) + if Measured(c, evaluate, what).Some? then [Measured(c, evaluate, what).value] else []
    ensures ValidIn(cells + [c], evaluate) == ValidIn(cells, evaluate) + if ValidCellScore(c, evaluate).Some? then [c] else []
  {
    assert (cells + [c])[..|cells|] == cells;
  }

  function Filtered(cells: seq<CellState>, mode: Mode, evaluate: bool): seq<CellState> {
    ValidIn(InMode(cells, mode), evaluate)
  }

  lemma FilteredSnoc(cells: seq<CellState>, c: CellState, mode: Mode, evaluate: bool)
    ensures Filtered(cells + [c], mode, evaluate)
            == Filtered(cells, mode, evaluate) + if c.cell.mode == mode && ValidCellScore(c, evaluate).Some? then [c] else []
    ensures |InMode(cells + [c], mode)| == |InMode(cells, mode)| + if c.cell.mode == mode then 1 else 0
  {
    assert (cells + [c])[..|cells|] == cells;
    if c.cell.mode == mode {
      assert InMode(cells + [c], mode) == InMode(cells, mode) + [c];
      ValuesSnoc(InMode(cells, mode), c, evaluate, Score);
    } else {
      assert InMode(cells + [c], mode) == InMode(cells, mode);
    }
  }

  lemma FilteredNext(cells: seq<CellState>, c: CellState, mode: Mode, evaluate: bool, what: Measure)
    ensures var values, more := Averaged(cells, mode, evaluate, what), Averaged(cells + [c], mode, evaluate, what);
            var counts := c.cell.mode == mode && Measured(c, evaluate, what).Some?;
            && |more| == |values| + (if counts then 1 else 0)
            && SignFlip.Total(more) == SignFlip.Total(values) + if counts then Measured(c, evaluate, what).value else 0.0
  {
    FilteredSnoc(cells, c, mode, evaluate);
    ContributesOne(Filtered(cells, mode, evaluate), c, evaluate, what);
    if c.cell.mode != mode || ValidCellScore(c, evaluate).None? {
      assert Filtered(cells + [c], mode, evaluate) == Filtered(cells, mode, evaluate);
    }
  }

  function Averaged(cells: seq<CellState>, mode: Mode, evaluate: bool, what: Measure): seq<real> {
    Values(Filtered(cells, mode, evaluate), evaluate, what)
  }

  /** The average is over exactly the cells that contribute. */
  predicate Agrees(cells: seq<CellState>, mode: Mode, evaluate: bool, what: Measure) {
    var values := Averaged(cells, mode, evaluate, what);
    |values| == Contributing(cells, mode, evaluate, what) && SignFlip.Total(values) == Sum(cells, mode, evaluate, what)
  }

  lemma SumSnoc(cells: seq<CellState>, c: CellState, mode: Mode, evaluate: bool, what: Measure)
    ensures var counts := c.cell.mode == mode && Measured(c, evaluate, what).Some?;
            && Contributing(cells + [c], mode, evaluate, what) == Contributing(cells, mode, evaluate, what) + (if counts then 1 else 0)
            && Sum(cells + [c], mode, evaluate, what)
               == Sum(cells, mode, evaluate, what) + if counts then Measured(c, evaluate, what).value else 0.0
  {
    assert (cells + [c])[..|cells|] == cells;
  }

  lemma AgreesNext(cells: seq<CellState>, c: CellState, mode: Mode, evaluate: bool, what: Measure)
    requires Agrees(cells, mode, evaluate, what)
    ensures Agrees(cells + [c], mode, evaluate, what)
  {
    FilteredNext(cells, c, mode, evaluate, what);
    SumSnoc(cells, c, mode, evaluate, what);
  }

  /** Filtering by controller and validity leaves the values that contribute. */
  lemma {:induction false} FilteredValues(cells: seq<CellState>, mode: Mode, evaluate: bool, what: Measure)
    ensures Agrees(cells, mode, evaluate, what)
  {
    if cells != [] {
      var before, c := cells[..|cells| - 1], cells[|cells| - 1];
      FilteredValues(before, mode, evaluate, what);
      AgreesNext(before, c, mode, evaluate, what);
      assert before + [c] == cells;
    }
  }

  lemma {:induction false} FilteredCounts(cells: seq<CellState>, mode: Mode, evaluate: bool)
    ensures |InMode(cells, mode)| == Planned(cells, mode) && |Filtered(cells, mode, evaluate)| == Valid(cells, mode, evaluate)
  {
    if cells != [] {
      var before, c := cells[..|cells| - 1], cells[|cells| - 1];
      FilteredCounts(before, mode, evaluate);
      FilteredSnoc(before, c, mode, evaluate);
      assert before + [c] == cells;
    }
  }

  lemma ContributesOne(cells: seq<CellState>, c: CellState, evaluate: bool, what: Measure)
    ensures Measured(c, evaluate, what).Some? ==> ValidCellScore(c, evaluate).Some?
    ensures var values, more := Values(cells, evaluate, what), Values(cells + [c], evaluate, what);
            && |more| == |values| + (if Measured(c, evaluate, what).Some? then 1 else 0)
            && SignFlip.Total(more) == SignFlip.Total(values) + if Measured(c, evaluate, what).Some? then Measured(c, evaluate, what).value else 0.0
  {
    ValuesSnoc(cells, c, evaluate, what);
    if Measured(c, evaluate, what).Some? {
      TotalSnoc(Values(cells, evaluate, what), Measured(c, evaluate, what).value);
    } else {
      assert Values(cells + [c], evaluate, what) == Values(cells, evaluate, what);
    }
  }

  /** The figures of a controller: its cells are counted, and each mean is that of its valid cells that
      report the measure, withheld unless every cell of the controller is valid. */
  lemma ModeFigures(m: Manifest, epsilon: real, mode: Mode, what: Measure)
    ensures var s := SummaryOf(m, epsilon);
            && (mode in s.modes <==> mode in m.options.modes)
            && (mode in s.modes ==>
                  var f := s.modes[mode];
                  && f.plannedCells == Planned(m.cells, mode) && f.validCells == Valid(m.cells, mode, m.options.evaluate)
                  && (if f.validCells == f.plannedCells
                      then IsMean(ModeMean(f, what), Contributing(m.cells, mode, m.options.evaluate, what), Sum(m.cells, mode, m.options.evaluate, what))
                      else ModeMean(f, what) == None))
  {
    assert SummaryOf(m, epsilon).modes == SummarizeModes(m);
    FiguresAre(m.cells, mode, m.options.evaluate, what, SummarizeMode(m.cells, mode, m.options.evaluate));
  }

  lemma FiguresAre(cells: seq<CellState>, mode: Mode, evaluate: bool, what: Measure, f: ModeSummary)
    requires f == SummarizeMode(cells, mode, evaluate)
    ensures f.plannedCells == Planned(cells, mode) && f.validCells == Valid(cells, mode, evaluate)
    ensures if f.validCells == f.plannedCells
            then IsMean(ModeMean(f, what), Contributing(cells, mode, evaluate, what), Sum(cells, mode, evaluate, what))
            else ModeMean(f, what) == None
  {
    FilteredValues(cells, mode, evaluate, what);
    FilteredCounts(cells, mode, evaluate);
    MeanIsMean(Averaged(cells, mode, evaluate, what));
  }

  // ---- Pairs ----

  /** The last cell of a combination for a controller. */
  function LastWith(cells: seq<CellState>, key: Key, mode: Mode): Option<CellState> {
    if cells == [] then None else
      var c := cells[|cells| - 1];
      if c.cell.key == key && c.cell.mode == mode then Some(c) else LastWith(cells[..|cells| - 1], key, mode)
  }

  predicate DistinctKeys(pairs: seq<Pair>) {
    forall i, j | 0 <= i < j < |pairs| :: pairs[i].key != pairs[j].key
  }

  predicate HasKey(pairs: seq<Pair>, key: Key) {
    exists i | 0 <= i < |pairs| :: pairs[i].key == key
  }

  /** Every combination met has one pair, which holds the last cell of each of the two controllers. */
  ghost predicate PairsTell(pairs: seq<Pair>, cells: seq<CellState>) {
    && DistinctKeys(pairs)
    && (forall i | 0 <= i < |pairs| ::
          pairs[i].single == LastWith(cells, pairs[i].key, Single) && pairs[i].contract == LastWith(cells, pairs[i].key, Contract))
    && (forall key :: LastWith(cells, key, Single).Some? || LastWith(cells, key, Contract).Some? ==> HasKey(pairs, key))
  }

  lemma {:induction false} EnterAt(pairs: seq<Pair>, i: nat, c: CellState)
    requires DistinctKeys(pairs) && i < |pairs| && pairs[i].key == c.cell.key
    ensures Enter(pairs, c) == pairs[i := With(pairs[i], c)]
  {
    if i > 0 {
      EnterAt(pairs[1..], i - 1, c);
    }
  }

  lemma LastSnoc(cells: seq<CellState>, c: CellState, key: Key, mode: Mode)
    ensures LastWith(cells + [c], key, mode) == if c.cell.key == key && c.cell.mode == mode then Some(c) else LastWith(cells, key, mode)
  {
    assert (cells + [c])[..|cells|] == cells;
  }

  lemma EnterTells(pairs: seq<Pair>, cells: seq<CellState>, c: CellState)
    requires PairsTell(pairs, cells) && c.cell.mode != SelfReview
    ensures PairsTell(Enter(pairs, c), cells + [c])
  {
    var more, after := cells + [c], Enter(pairs, c);
    forall key, mode ensures LastWith(more, key, mode) == if c.cell.key == key && c.cell.mode == mode then Some(c) else LastWith(cells, key, mode) {
      LastSnoc(cells, c, key, mode);
    }
    if i :| 0 <= i < |pairs| && pairs[i].key == c.cell.key {
      EnterAt(pairs, i, c);
      forall key | HasKey(pairs, key) ensures HasKey(after, key) {
        var j :| 0 <= j < |pairs| && pairs[j].key == key;
        assert after[j].key == key;
      }
    } else {
      EnterNew(pairs, c);
      assert !HasKey(pairs, c.cell.key);
      assert after[|pairs|].key == c.cell.key;
      forall key | HasKey(pairs, key) ensures HasKey(after, key) {
        var j :| 0 <= j < |pairs| && pairs[j].key == key;
        assert after[j].key == key;
      }
    }
  }

  lemma {:induction false} PutAllTells(cells: seq<CellState>)
    ensures PairsTell(PutAll([], cells), cells)
  {
    if cells != [] {
      var before, c := cells[..|cells| - 1], cells[|cells| - 1];
      PutAllTells(before);
      assert cells == before + [c];
      if c.cell.mode == SelfReview {
        forall key, mode: Mode | mode != SelfReview ensures LastWith(cells, key, mode) == LastWith(before, key, mode) {
          LastSnoc(before, c, key, mode);
        }
      } else {
        EnterTells(PutAll([], before), before, c);
      }
    }
  }

  function ScoredKeys(pairs: seq<Pair>, evaluate: bool): seq<Key> {
    if pairs == [] then [] else
      var last := pairs[|pairs| - 1];
      ScoredKeys(pairs[..|pairs| - 1], evaluate) + if Scored(last, evaluate) then [last.key] else []
  }

  /** The difference of a combination: its last contract score less its last single score. */
  predicate IsDifference(d: real, cells: seq<CellState>, evaluate: bool, key: Key) {
    var single, contract := LastWith(cells, key, Single), LastWith(cells, key, Contract);
    && single.Some? && contract.Some?
    && Measured(single.value, evaluate, Score).Some? && Measured(contract.value, evaluate, Score).Some?
    && d == Measured(contract.value, evaluate, Score).value - Measured(single.value, evaluate, Score).value
  }

  predicate BothScored(cells: seq<CellState>, evaluate: bool, key: Key) {
    var single, contract := LastWith(cells, key, Single), LastWith(cells, key, Contract);
    && single.Some? && contract.Some?
    && Measured(single.value, evaluate, Score).Some? && Measured(contract.value, evaluate, Score).Some?
  }

  /** The differences belong to these combinations, and no combination that counts is left out. */
  ghost predicate KeysOf(keys: seq<Key>, diffs: seq<real>, pairs: seq<Pair>, cells: seq<CellState>, evaluate: bool) {
    && |diffs| == |keys| && Distinct(keys)
    && (forall k | 0 <= k < |keys| :: IsDifference(diffs[k], cells, evaluate, keys[k]))
    && (forall key <- keys :: HasKey(pairs, key))
    && (forall i | 0 <= i < |pairs| && Scored(pairs[i], evaluate) :: pairs[i].key in keys)
  }

  lemma KeysOfNext(keys: seq<Key>, diffs: seq<real>, pairs: seq<Pair>, pair: Pair, cells: seq<CellState>, evaluate: bool)
    requires KeysOf(keys, diffs, pairs, cells, evaluate) && !HasKey(pairs, pair.key)
    requires pair.single == LastWith(cells, pair.key, Single) && pair.contract == LastWith(cells, pair.key, Contract)
    ensures if Scored(pair, evaluate)
            then KeysOf(keys + [pair.key], diffs + [Delta(pair, evaluate, Score).value], pairs + [pair], cells, evaluate)
            else KeysOf(keys, diffs, pairs + [pair], cells, evaluate)
  {
    forall key | HasKey(pairs, key) ensures HasKey(pairs + [pair], key) {
      var j :| 0 <= j < |pairs| && pairs[j].key == key;
      assert (pairs + [pair])[j].key == key;
    }
    assert (pairs + [pair])[|pairs|].key == pair.key;
    assert pair.key !in keys;
  }

  lemma {:induction false} DeltasHaveKeys(pairs: seq<Pair>, cells: seq<CellState>, evaluate: bool)
    requires DistinctKeys(pairs)
    requires forall i | 0 <= i < |pairs| ::
               pairs[i].single == LastWith(cells, pairs[i].key, Single) && pairs[i].contract == LastWith(cells, pairs[i].key, Contract)
    ensures KeysOf(ScoredKeys(pairs, evaluate), Deltas(pairs, evaluate, Score), pairs, cells, evaluate)
  {
    if pairs != [] {
      var before, last := pairs[..|pairs| - 1], pairs[|pairs| - 1];
      DeltasHaveKeys(before, cells, evaluate);
      KeysOfNext(ScoredKeys(before, evaluate), Deltas(before, evaluate, Score), before, last, cells, evaluate);
      assert pairs == before + [last];
      var keys, diffs := ScoredKeys(before, evaluate), Deltas(before, evaluate, Score);
      assert Delta(last, evaluate, Score).Some? <==> Scored(last, evaluate);
      assert keys + [] == keys && diffs + [] == diffs;
    }
  }

  /** The differences the test is made on: one for each combination of which both controllers' last cells
      are valid and scored, the contract score less the single score. Their number, their mean and their
      sign-flip p-value are what the summary reports. */
  lemma DifferencesAre(m: Manifest, epsilon: real) returns (keys: seq<Key>, diffs: seq<real>)
    ensures var s := SummaryOf(m, epsilon);
            && Distinct(keys) && |diffs| == |keys| == s.pairs
            && (forall key :: key in keys <==> BothScored(m.cells, m.options.evaluate, key))
            && (forall k | 0 <= k < |keys| :: IsDifference(diffs[k], m.cells, m.options.evaluate, keys[k]))
            && IsMean(s.scoreDelta, |diffs|, SignFlip.Total(diffs))
            && s.pValue == SignFlip.PValue(diffs, epsilon)
  {
    var pairs, evaluate := PutAll([], m.cells), m.options.evaluate;
    keys, diffs := ScoredKeys(pairs, evaluate), Deltas(pairs, evaluate, Score);
    PutAllTells(m.cells);
    DeltasHaveKeys(pairs, m.cells, evaluate);
    MeanIsMean(diffs);
    forall key ensures key in keys <==> BothScored(m.cells, evaluate, key) {
      if key in keys {
        var k :| 0 <= k < |keys| && keys[k] == key;
        assert IsDifference(diffs[k], m.cells, evaluate, key);
      }
      if BothScored(m.cells, evaluate, key) {
        assert HasKey(pairs, key);
        var i :| 0 <= i < |pairs| && pairs[i].key == key;
        assert Scored(pairs[i], evaluate);
      }
    }
  }

  // ---- Claims ----

  /** An improvement is supported if and only if the claim may be made, the mean difference is positive,
      the p-value is at most 0.05, and the contract controller's artifact rate, which then exists, is not
      below the single controller's. The claim may be made if and only if the campaign is complete and
      valid throughout, was evaluated, has at least 3 tasks and 3 replicates, and every combination of
      the plan is a pair. */
  lemma ClaimsAreExactly(m: Manifest, epsilon: real)
    requires m.options.profiles != []
    ensures var s, o := SummaryOf(m, epsilon), m.options;
            && (s.campaignComplete <==> m.finishedAt.Some? && forall c <- m.cells :: c.status == Completed || c.status == Failed)
            && (s.infrastructureValid <==> forall c <- m.cells :: ValidCellScore(c, o.evaluate).Some?)
            && (s.improvementClaimEligible <==>
                  && s.campaignComplete && s.infrastructureValid && o.evaluate && |o.tasks| >= 3 && o.replicates >= 3
                  && Single in s.modes && Contract in s.modes && s.pairs == |o.tasks| * |o.profiles| * o.replicates)
            && (s.improvementSupported <==>
                  && s.improvementClaimEligible
                  && s.scoreDelta.Some? && s.scoreDelta.value > 0.0
                  && s.pValue.Some? && s.pValue.value <= 0.05
                  && s.modes[Contract].artifactRate.Some? && s.modes[Single].artifactRate.Some?
                  && s.modes[Contract].artifactRate.value >= s.modes[Single].artifactRate.value)
  {
    EligibleHasRates(m, epsilon);
    assert AllFinished(m.cells) <==> forall c <- m.cells :: Finished(c);
    assert AllValid(m.cells, m.options.evaluate) <==> forall c <- m.cells :: ValidCellScore(c, m.options.evaluate).Some?;
  }
}
