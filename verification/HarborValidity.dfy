/** What the validators of checkpoints and final metrics accept: exactly what some session can report. */
module HarborValidity {
  import opened HarborMetrics
  import opened HarborSession
  import opened HarborUsage
  import opened Wrappers
  import Meters = HarborMeter

  // ---- What a session can report ----

  /** Books of a session: measured usage in every filled slot, and tools that add up. */
  predicate Balanced(c: Counters) {
    && NormalTable(c.usage) && ToolsAddUp(c.tools) && c.tools.completed <= c.tools.requested
  }

  /** A count that both ends can represent exactly. */
  predicate Exact(n: int) {
    0 <= n <= 9_007_199_254_740_991
  }

  predicate ExactTools(t: ToolCounts) {
    Exact(t.requested) && Exact(t.completed) && Exact(t.productive) && Exact(t.empty) && Exact(t.failed)
  }

  predicate ExactUsage(u: Usage) {
    Exact(u.calls) && Exact(u.input) && Exact(u.output) && Exact(u.cached) && Exact(u.total)
  }

  predicate ExactPartial(m: Partial) {
    && Exact(m.providerCalls) && Exact(m.observedCalls) && ExactUsage(m.usage) && Exact(m.wall)
    && ExactTools(m.tools) && Exact(m.progress.artifacts) && Exact(m.progress.mutationEpoch)
  }

  predicate ExactFinal(f: Final) {
    Exact(f.providerCalls) && (f.usage.Some? ==> ExactUsage(f.usage.value)) && Exact(f.wall) && ExactTools(f.tools)
  }

  // ---- A session for given totals ----

  const ONE_CALL := Usage(1, 0, 0, 0, 0)

  /** The slot at index i of a table whose first k slots are filled and add up to `u`. */
  function SlotOf(u: Usage, k: nat, i: nat): Option<Usage> {
    if i >= k then None else if i == 0 then Some(u.(calls := u.calls - k + 1)) else Some(ONE_CALL)
  }

  function Table(u: Usage, k: nat, n: nat): seq<Option<Usage>> {
    if n == 0 then [] else Table(u, k, n - 1) + [SlotOf(u, k, n - 1)]
  }

  lemma {:induction false} TableIsNormal(u: Usage, k: nat, n: nat)
    requires k > 0 ==> Normal(u) && u.calls >= k
    ensures |Table(u, k, n)| == n
    ensures forall i | 0 <= i < n :: Table(u, k, n)[i] == SlotOf(u, k, i)
    ensures NormalTable(Table(u, k, n))
  {
    if n > 0 {
      TableIsNormal(u, k, n - 1);
    }
  }

  /** What the first n slots hold, of k that are filled. */
  function Held(u: Usage, k: nat, n: nat): Usage {
    if k == 0 || n == 0 then NO_USAGE else Usage(u.calls - k + Min(k, n), u.input, u.output, u.cached, u.total)
  }

  lemma {:induction false} TableAddsUp(u: Usage, k: nat, n: nat)
    ensures Observed(Table(u, k, n)) == Min(k, n) && SumUsage(Table(u, k, n)) == Held(u, k, n)
  {
    if n > 0 {
      TableAddsUp(u, k, n - 1);
      SumNext(Table(u, k, n - 1), SlotOf(u, k, n - 1));
    }
  }

  lemma SumNext(us: seq<Option<Usage>>, slot: Option<Usage>)
    ensures SumUsage(us + [slot]) == if slot.Some? then Plus(SumUsage(us), slot.value) else SumUsage(us)
    ensures Observed(us + [slot]) == Observed(us) + if slot.Some? then 1 else 0
  {
    assert (us + [slot])[..|us|] == us;
  }

  function CountersFor(u: Usage, k: nat, n: nat, wall: nat, hitMaxSteps: bool, tools: ToolCounts, progress: Progress): Counters {
    Counters(Meters.EMPTY, tools, 0, Table(u, k, n), wall, hitMaxSteps, progress)
  }

  lemma AcceptedIsReportable(m: Partial) returns (c: Counters)
    requires HostAcceptsPartial(m)
    ensures Balanced(c) && Snapshot(c) == m
  {
    TableIsNormal(m.usage, m.observedCalls, m.providerCalls);
    TableAddsUp(m.usage, m.observedCalls, m.providerCalls);
    c := CountersFor(m.usage, m.observedCalls, m.providerCalls, m.wall, m.hitMaxSteps, m.tools, m.progress);
    assert Held(m.usage, m.observedCalls, m.providerCalls) == m.usage;
  }

  lemma ReportableIsAccepted(c: Counters)
    requires Balanced(c) && ExactPartial(Snapshot(c))
    ensures HostAcceptsPartial(Snapshot(c))
  {
    TotalsAreConsistent(c.usage);
  }

  /** The host accepts a checkpoint if and only if some balanced session reports it and every count is
      exact: the validator refuses nothing that can be reported, and accepts nothing that cannot. */
  lemma CheckpointsAreReportable(m: Partial)
    ensures HostAcceptsPartial(m) <==> ExactPartial(m) && exists c :: Balanced(c) && Snapshot(c) == m
  {
    if HostAcceptsPartial(m) {
      var c := AcceptedIsReportable(m);
    } else if c :| Balanced(c) && Snapshot(c) == m && ExactPartial(m) {
      ReportableIsAccepted(c);
    }
  }

  /** A full table for known usage, an empty one otherwise. */
  lemma TableForFinal(f: Final) returns (t: seq<Option<Usage>>)
    requires HostAcceptsFinal(f)
    ensures |t| == f.providerCalls && NormalTable(t)
    ensures f.usage.Some? <==> |t| > 0 && forall i | 0 <= i < |t| :: t[i].Some?
    ensures f.usage.Some? ==> SumUsage(t) == f.usage.value
  {
    if f.usage.Some? {
      TableIsNormal(f.usage.value, f.providerCalls, f.providerCalls);
      TableAddsUp(f.usage.value, f.providerCalls, f.providerCalls);
      t := Table(f.usage.value, f.providerCalls, f.providerCalls);
    } else {
      TableIsNormal(NO_USAGE, 0, f.providerCalls);
      t := Table(NO_USAGE, 0, f.providerCalls);
      assert |t| > 0 ==> t[0].None?;
    }
  }

  lemma AcceptedFinalIsReportable(f: Final) returns (c: Counters)
    requires HostAcceptsFinal(f)
    ensures Balanced(c) && FinalOf(c, f.status) == f
  {
    var t := TableForFinal(f);
    c := Counters(Meters.EMPTY, f.tools, 0, t, f.wall, f.hitMaxSteps, StartCounters(false).progress);
  }

  lemma ReportableFinalIsAccepted(c: Counters, status: CompletionStatus)
    requires Balanced(c) && ExactFinal(FinalOf(c, status))
    ensures HostAcceptsFinal(FinalOf(c, status))
  {
    TotalsAreConsistent(c.usage);
  }

  /** So it is with final metrics, whose usage is reported only if every provider call's is known. */
  lemma FinalsAreReportable(f: Final)
    ensures HostAcceptsFinal(f) <==> ExactFinal(f) && exists c :: Balanced(c) && FinalOf(c, f.status) == f
  {
    if HostAcceptsFinal(f) {
      var c := AcceptedFinalIsReportable(f);
    } else if c :| Balanced(c) && FinalOf(c, f.status) == f && ExactFinal(f) {
      ReportableFinalIsAccepted(c, f.status);
    }
  }
}
