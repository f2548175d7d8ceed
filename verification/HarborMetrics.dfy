/** The metrics frames of the Harbor remote-tool protocol and the checks each side runs on them.

    The host validates a checkpoint or final frame before it writes it (host_runner.ts); the peer
    validates it again on arrival, compares a checkpoint with the one before it, and reconciles the
    final frame with the last checkpoint (remote_tools.py). */
module HarborMetrics {
  import opened Wrappers

  const MAX_SAFE_INTEGER := 0x1F_FFFF_FFFF_FFFF

  datatype WorkPhase = Contract | Implementation | Delivery | Validation | Finalization
  datatype ToolCategory = NoTool | Inspect | Edit | Shell | OtherTool
  datatype ToolState = Idle | Active | Settled
  datatype ValidationState = NotStarted | Awaited | Passed | Rejected | Blocked

  datatype Progress = Progress(
    phase: WorkPhase,
    lastTool: ToolCategory,
    toolState: ToolState,
    artifacts: int,
    mutationEpoch: int,
    validation: ValidationState)

  datatype ToolCounts = ToolCounts(requested: int, completed: int, productive: int, empty: int, failed: int)

  /** Provider usage summed over model calls. */
  datatype Usage = Usage(calls: int, input: int, output: int, cached: int, total: int)

  datatype Partial = Partial(
    providerCalls: int,
    observedCalls: int,
    usage: Usage,
    wall: int,
    hitMaxSteps: bool,
    tools: ToolCounts,
    progress: Progress)

  datatype CompletionStatus = Accepted | ValidationFailed | ValidationMissing | CallBudgetSpent | TimeBudgetSpent

  /** `usage` is None exactly when the wire carries usageComplete = false and null counts. */
  datatype Final = Final(
    status: CompletionStatus,
    providerCalls: int,
    usage: Option<Usage>,
    wall: int,
    hitMaxSteps: bool,
    tools: ToolCounts)

  predicate SafeCount(n: int) {
    0 <= n <= MAX_SAFE_INTEGER
  }

  predicate SafeTools(t: ToolCounts) {
    SafeCount(t.requested) && SafeCount(t.completed) && SafeCount(t.productive) && SafeCount(t.empty) && SafeCount(t.failed)
  }

  predicate SafeUsage(u: Usage) {
    SafeCount(u.calls) && SafeCount(u.input) && SafeCount(u.output) && SafeCount(u.cached) && SafeCount(u.total)
  }

  predicate SafePartial(m: Partial) {
    && SafeCount(m.providerCalls) && SafeCount(m.observedCalls) && SafeUsage(m.usage)
    && SafeCount(m.wall) && SafeTools(m.tools)
    && SafeCount(m.progress.artifacts) && SafeCount(m.progress.mutationEpoch)
  }

  // ---- Host side ----

  /** validatePartialMetrics, clause by clause. */
  predicate HostAcceptsPartial(m: Partial) {
    && SafePartial(m)
    && m.observedCalls <= m.providerCalls
    && (if m.observedCalls == 0
        then m.usage == Usage(0, 0, 0, 0, 0)
        else m.usage.calls >= m.observedCalls)
    && m.usage.cached <= m.usage.input
    && m.usage.total >= m.usage.input + m.usage.output
    && m.tools.completed <= m.tools.requested
    && m.tools.completed == m.tools.productive + m.tools.empty + m.tools.failed
  }

  /** validateFinalMetrics, clause by clause. */
  predicate HostAcceptsFinal(f: Final) {
    && SafeCount(f.providerCalls)
    && SafeCount(f.wall)
    && SafeTools(f.tools)
    && (f.usage.Some? ==>
          && SafeUsage(f.usage.value)
          && f.providerCalls > 0
          && f.usage.value.calls >= f.providerCalls
          && f.usage.value.cached <= f.usage.value.input
          && f.usage.value.total >= f.usage.value.input + f.usage.value.output)
    && f.tools.completed <= f.tools.requested
    && f.tools.completed == f.tools.productive + f.tools.empty + f.tools.failed
  }

  // ---- Peer side ----

  /** The stateless half of _validate_metrics_checkpoint, in the order the peer tests it. */
  predicate PeerConsistent(m: Partial, minimumRequested: nat) {
    && SafePartial(m)
    && !(|| m.observedCalls > m.providerCalls
         || (m.observedCalls == 0 && (m.usage.calls != 0 || m.usage.input != 0 || m.usage.output != 0
                                      || m.usage.cached != 0 || m.usage.total != 0))
         || (m.observedCalls > 0 && m.usage.calls < m.observedCalls)
         || m.usage.cached > m.usage.input
         || m.usage.total < m.usage.input + m.usage.output
         || m.tools.completed > m.tools.requested
         || m.tools.completed != m.tools.productive + m.tools.empty + m.tools.failed
         || m.tools.requested < minimumRequested)
  }

  predicate ToolsGrow(a: ToolCounts, b: ToolCounts) {
    && a.requested <= b.requested && a.completed <= b.completed && a.productive <= b.productive
    && a.empty <= b.empty && a.failed <= b.failed
  }

  predicate UsageGrows(a: Usage, b: Usage) {
    a.calls <= b.calls && a.input <= b.input && a.output <= b.output && a.cached <= b.cached && a.total <= b.total
  }

  /** No counter of `b` is below the same counter of `a`, and a reached step limit stays reached. */
  predicate Grows(a: Partial, b: Partial) {
    && a.providerCalls <= b.providerCalls
    && a.observedCalls <= b.observedCalls
    && UsageGrows(a.usage, b.usage)
    && a.wall <= b.wall
    && ToolsGrow(a.tools, b.tools)
    && (a.hitMaxSteps ==> b.hitMaxSteps)
    && a.progress.artifacts <= b.progress.artifacts
    && a.progress.mutationEpoch <= b.progress.mutationEpoch
  }

  predicate PeerAcceptsPartial(m: Partial, previous: Option<Partial>, minimumRequested: nat) {
    PeerConsistent(m, minimumRequested) && (previous.Some? ==> Grows(previous.value, m))
  }

  predicate PeerAcceptsFinal(f: Final) {
    && SafeCount(f.providerCalls)
    && (f.usage.Some? ==>
          && SafeUsage(f.usage.value)
          && !(|| f.providerCalls < 1
               || f.usage.value.calls < f.providerCalls
               || f.usage.value.cached > f.usage.value.input
               || f.usage.value.total < f.usage.value.input + f.usage.value.output))
    && SafeTools(f.tools)
    && !(f.tools.completed != f.tools.requested
         || f.tools.completed != f.tools.productive + f.tools.empty + f.tools.failed)
    && SafeCount(f.wall)
  }

  /** _reconcile_final. */
  predicate Reconciles(f: Final, last: Option<Partial>, minimumRequested: nat, minimumCompleted: nat) {
    && last.Some?
    && (var c := last.value;
        && !(|| f.providerCalls != c.providerCalls
             || f.hitMaxSteps != c.hitMaxSteps
             || f.tools != c.tools
             || f.wall < c.wall
             || f.tools.requested < minimumRequested
             || f.tools.completed < minimumCompleted)
        && !(c.observedCalls == c.providerCalls && f.usage.None?)
        && (f.usage.Some? ==> c.observedCalls == f.providerCalls && f.usage.value == c.usage))
  }

  // ---- The two validators against each other ----

  /** Both ends reject exactly the same checkpoints, apart from the peer's request floor. */
  lemma CheckpointValidatorsAgree(m: Partial, minimumRequested: nat)
    ensures PeerAcceptsPartial(m, None, minimumRequested)
       <==> HostAcceptsPartial(m) && m.tools.requested >= minimumRequested
  {
    assert m.usage == Usage(m.usage.calls, m.usage.input, m.usage.output, m.usage.cached, m.usage.total);
  }

  /** The peer is stricter on a final frame by one clause only: every requested tool has completed. */
  lemma FinalValidatorsDiffer(f: Final)
    ensures PeerAcceptsFinal(f) <==> HostAcceptsFinal(f) && f.tools.completed == f.tools.requested
  {
  }

  lemma GrowsTransitive(a: Partial, b: Partial, c: Partial)
    requires Grows(a, b) && Grows(b, c)
    ensures Grows(a, c)
  {
  }
}
