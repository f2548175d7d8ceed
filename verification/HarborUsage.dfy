/** CostTracker.add (src/core/cost.ts) and the per-call usage table of the Harbor session. */
module HarborUsage {
  import opened Wrappers
  import opened HarborMetrics

  /** A usage report as the provider sends it; None is a missing field. */
  datatype RawUsage = RawUsage(prompt: Option<int>, completion: Option<int>, total: Option<int>, cached: int, modelCalls: int)

  const NO_USAGE := Usage(0, 0, 0, 0, 0)

  function Count(n: Option<int>): int {
    if n.Some? && n.value > 0 then n.value else 0
  }

  /** completeUsageSnapshot: the three token counts are present and not negative. */
  predicate CompleteSnapshot(raw: RawUsage) {
    && raw.prompt.Some? && raw.prompt.value >= 0
    && raw.completion.Some? && raw.completion.value >= 0
    && raw.total.Some? && raw.total.value >= 0
  }

  /** What one report adds to a tracker: cache reads are clamped to the prompt, the total is at least
      prompt plus completion, and a report stands for at least one model call. */
  function Measure(raw: RawUsage): Usage {
    var prompt := Count(raw.prompt);
    var completion := Count(raw.completion);
    Usage(Max(1, raw.modelCalls), prompt, completion,
          Min(prompt, Count(Some(raw.cached))), Max(Count(raw.total), prompt + completion))
  }

  function Plus(a: Usage, b: Usage): Usage {
    Usage(a.calls + b.calls, a.input + b.input, a.output + b.output, a.cached + b.cached, a.total + b.total)
  }

  /** The shape every measured report has. */
  predicate Normal(u: Usage) {
    && u.calls >= 1 && 0 <= u.cached <= u.input && u.output >= 0
    && u.total >= u.input + u.output
  }

  /** The report the session stores back after measuring one. */
  function Stored(u: Usage): RawUsage {
    RawUsage(Some(u.input), Some(u.output), Some(u.total), u.cached, u.calls)
  }

  lemma MeasureIsNormal(raw: RawUsage)
    ensures Normal(Measure(raw))
  {
  }

  lemma MeasureStored(u: Usage)
    requires Normal(u)
    ensures Measure(Stored(u)) == u
  {
  }

  class CostTracker {
    var calls: int
    var promptTokens: int
    var completionTokens: int
    var cachedTokens: int
    var totalTokens: int

    function Model(): Usage
      reads this
    {
      Usage(calls, promptTokens, completionTokens, cachedTokens, totalTokens)
    }

    constructor ()
      ensures Model() == NO_USAGE
    {
      calls, promptTokens, completionTokens, cachedTokens, totalTokens := 0, 0, 0, 0, 0;
    }

    method Add(raw: RawUsage)
      modifies this
      ensures Model() == Plus(old(Model()), Measure(raw))
    {
      var prompt := Count(raw.prompt);
      var completion := Count(raw.completion);
      var cached := Min(prompt, Count(Some(raw.cached)));
      var reportedTotal := Count(raw.total);
      promptTokens := promptTokens + prompt;
      completionTokens := completionTokens + completion;
      totalTokens := totalTokens + Max(reportedTotal, prompt + completion);
      cachedTokens := cachedTokens + cached;
      calls := calls + Max(1, raw.modelCalls);
    }
  }

  // ---- The table: one slot per provider call, filled when that call reports usage ----

  function SumUsage(us: seq<Option<Usage>>): Usage {
    if us == [] then NO_USAGE else
      var before := SumUsage(us[..|us| - 1]);
      if us[|us| - 1].Some? then Plus(before, us[|us| - 1].value) else before
  }

  function Observed(us: seq<Option<Usage>>): nat {
    if us == [] then 0 else Observed(us[..|us| - 1]) + if us[|us| - 1].Some? then 1 else 0
  }

  predicate NormalTable(us: seq<Option<Usage>>) {
    forall i | 0 <= i < |us| :: us[i].Some? ==> Normal(us[i].value)
  }

  method UsageTotals(us: seq<Option<Usage>>) returns (u: Usage)
    requires NormalTable(us)
    ensures u == SumUsage(us)
  {
    var tracker := new CostTracker();
    for i := 0 to |us|
      invariant fresh(tracker)
      invariant tracker.Model() == SumUsage(us[..i])
    {
      assert us[..i + 1][..i] == us[..i];
      if us[i].Some? {
        MeasureStored(us[i].value);
        tracker.Add(Stored(us[i].value));
      }
    }
    assert us[..|us|] == us;
    u := tracker.Model();
  }

  /** A table's totals satisfy what both validators ask of a checkpoint's usage. */
  lemma {:induction false} TotalsAreConsistent(us: seq<Option<Usage>>)
    requires NormalTable(us)
    ensures var u := SumUsage(us);
            && Observed(us) <= |us|
            && (Observed(us) == 0 ==> u == NO_USAGE)
            && u.calls >= Observed(us)
            && 0 <= u.cached <= u.input && u.output >= 0 && u.total >= u.input + u.output
    ensures Observed(us) == |us| <==> forall i | 0 <= i < |us| :: us[i].Some?
  {
    if us != [] {
      TotalsAreConsistent(us[..|us| - 1]);
    }
  }

  /** Opening a slot changes no total. */
  lemma OpenSlot(us: seq<Option<Usage>>)
    ensures SumUsage(us + [None]) == SumUsage(us)
    ensures Observed(us + [None]) == Observed(us)
  {
    assert (us + [None])[..|us|] == us;
  }

  /** Raising one slot raises every total. */
  lemma {:induction false} RaiseSlot(us: seq<Option<Usage>>, i: nat, u: Usage)
    requires i < |us| && Normal(u)
    requires us[i].Some? ==> UsageGrows(us[i].value, u)
    ensures UsageGrows(SumUsage(us), SumUsage(us[i := Some(u)]))
    ensures Observed(us) <= Observed(us[i := Some(u)])
  {
    var n := |us| - 1;
    var vs := us[i := Some(u)];
    if i < n {
      RaiseSlot(us[..n], i, u);
      assert vs[..n] == us[..n][i := Some(u)];
    } else {
      assert vs[..n] == us[..n];
    }
  }
}
