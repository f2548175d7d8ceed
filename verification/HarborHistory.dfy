/** What the counters of a metered session mean: each is a count over everything that happened, or the
    latest of what was reported, and no count changes without a checkpoint. */
module HarborHistory {
  import opened Wrappers
  import opened HarborMetrics
  import opened HarborSession
  import opened HarborUsage

  predicate Possible(contractMode: bool, es: seq<SessionEvent>)
    decreases |es|, 0
  {
    es == [] || (Possible(contractMode, es[..|es| - 1]) && Allowed(After(contractMode, es[..|es| - 1]), es[|es| - 1]))
  }

  function After(contractMode: bool, es: seq<SessionEvent>): Session
    requires Possible(contractMode, es)
    decreases |es|, 1
  {
    if es == [] then Start(contractMode) else Advance(After(contractMode, es[..|es| - 1]), es[|es| - 1]).0
  }

  datatype Counted = Results | ResultsAs(verdict: ToolVerdict) | Edits | ProviderCalls | Ticks | StepLimits

  predicate Counts(what: Counted, e: SessionEvent) {
    match what
    case Results => e.ToolResult?
    case ResultsAs(verdict) => e.ToolResult? && e.verdict == verdict
    case Edits => e.ToolResult? && e.verdict == Productive && e.edits
    case ProviderCalls => e.ProviderCall?
    case Ticks => e.Tick?
    case StepLimits => e.StepLimit?
  }

  function Count(es: seq<SessionEvent>, what: Counted): nat {
    if es == [] then 0 else Count(es[..|es| - 1], what) + if Counts(what, es[|es| - 1]) then 1 else 0
  }

  /** The category of the last tool called. */
  function LastTool(es: seq<SessionEvent>): ToolCategory {
    if es == [] then NoTool else
      var e := es[|es| - 1];
      if e.ToolCall? then e.category else LastTool(es[..|es| - 1])
  }

  /** The phase announced last; a reached step limit and the end of the session announce finalization. */
  function LastPhase(contractMode: bool, es: seq<SessionEvent>): WorkPhase {
    if es == [] then (if contractMode then Contract else Implementation) else
      match es[|es| - 1]
      case PhaseChange(phase) => phase
      case StepLimit => Finalization
      case Conclude => Finalization
      case _ => LastPhase(contractMode, es[..|es| - 1])
  }

  /** The validation state reported last; entering the validation phase makes it pending. */
  function LastValidation(es: seq<SessionEvent>): ValidationState {
    if es == [] then NotStarted else
      match es[|es| - 1]
      case PhaseChange(phase) => if phase == Validation then Awaited else LastValidation(es[..|es| - 1])
      case ProgressReport(_, validation) => if validation.Some? then validation.value else LastValidation(es[..|es| - 1])
      case Review(finding) => finding
      case _ => LastValidation(es[..|es| - 1])
  }

  /** Tools called and not yet answered; an answer too many counts for nothing. */
  function OpenTools(es: seq<SessionEvent>): nat {
    if es == [] then 0 else
      var open := OpenTools(es[..|es| - 1]);
      match es[|es| - 1]
      case ToolCall(_, _, _) => open + 1
      case ToolResult(_, _, _, _) => if open > 0 then open - 1 else 0
      case _ => open
  }

  /** Active while a tool is open, settled once the last one was answered or the session concludes. */
  function LastToolState(es: seq<SessionEvent>): ToolState {
    if es == [] then Idle else
      var before := LastToolState(es[..|es| - 1]);
      match es[|es| - 1]
      case ToolCall(_, _, _) => Active
      case ToolResult(_, _, _, _) => if OpenTools(es) > 0 then Active else Settled
      case Conclude => if OpenTools(es) == 0 then Settled else before
      case _ => before
  }

  /** The largest of the epochs reported and the edits counted so far. */
  function Epoch(es: seq<SessionEvent>): int {
    if es == [] then 0 else
      var before := Epoch(es[..|es| - 1]);
      match es[|es| - 1]
      case ToolResult(_, _, _, _) => if Counts(Edits, es[|es| - 1]) then Max(before, Count(es, Edits)) else before
      case ProgressReport(epoch, _) => if epoch.Some? && SafeCount(epoch.value) then Max(before, epoch.value) else before
      case _ => before
  }

  predicate CountsAre(c: Counters, es: seq<SessionEvent>) {
    && c.tools.completed == Count(es, Results)
    && c.tools.productive == Count(es, ResultsAs(Productive))
    && c.tools.empty == Count(es, ResultsAs(Barren))
    && c.tools.failed == Count(es, ResultsAs(Failing))
    && c.progress.artifacts == Count(es, Edits)
    && c.progress.mutationEpoch == Epoch(es)
    && |c.usage| == Count(es, ProviderCalls)
    && c.wall == Count(es, Ticks)
    && (c.hitMaxSteps <==> Count(es, StepLimits) > 0)
  }

  predicate ReportsAre(c: Counters, contractMode: bool, es: seq<SessionEvent>) {
    var p := c.progress;
    c.activeTools == OpenTools(es) && p.toolState == LastToolState(es) && p.lastTool == LastTool(es) && p.phase == LastPhase(contractMode, es) && p.validation == LastValidation(es)
  }

  lemma StepCounts(s: Session, es: seq<SessionEvent>, e: SessionEvent)
    requires Allowed(s, e) && CountsAre(s.now, es)
    ensures CountsAre(Advance(s, e).0.now, es + [e])
  {
    assert (es + [e])[..|es|] == es;
    forall what: Counted
      ensures Count(es + [e], what) == Count(es, what) + if Counts(what, e) then 1 else 0 {
    }
  }

  lemma StepReports(s: Session, contractMode: bool, es: seq<SessionEvent>, e: SessionEvent)
    requires Allowed(s, e) && ReportsAre(s.now, contractMode, es)
    ensures ReportsAre(Advance(s, e).0.now, contractMode, es + [e])
  {
    assert (es + [e])[..|es|] == es;
  }

  /** Over every history each counter of the next checkpoint is what it is named for. */
  lemma {:induction false} CountersTellTheHistory(contractMode: bool, es: seq<SessionEvent>)
    requires Possible(contractMode, es)
    ensures CountsAre(After(contractMode, es).now, es)
    ensures ReportsAre(After(contractMode, es).now, contractMode, es)
  {
    if es != [] {
      var before := es[..|es| - 1];
      CountersTellTheHistory(contractMode, before);
      assert es == before + [es[|es| - 1]];
      StepCounts(After(contractMode, before), before, es[|es| - 1]);
      StepReports(After(contractMode, before), contractMode, before, es[|es| - 1]);
    }
  }

  /** What the last complete usage report of a provider call measures. */
  function LastMeasured(es: seq<SessionEvent>, slot: nat): Option<Usage> {
    if es == [] then None else
      var e := es[|es| - 1];
      if e.UsageReport? && e.slot == slot && CompleteSnapshot(e.raw) then Some(Measure(e.raw)) else LastMeasured(es[..|es| - 1], slot)
  }

  /** A provider call's usage is what its last complete report measures. */
  lemma {:induction false} UsageIsTheLatestReport(contractMode: bool, es: seq<SessionEvent>, slot: nat)
    requires Possible(contractMode, es)
    ensures var usage := After(contractMode, es).now.usage;
            LastMeasured(es, slot) == if slot < |usage| then usage[slot] else None
    ensures LastMeasured(es, slot).Some? ==> Normal(LastMeasured(es, slot).value)
  {
    if es != [] {
      var before, e := es[..|es| - 1], es[|es| - 1];
      UsageIsTheLatestReport(contractMode, before, slot);
      if e.UsageReport? {
        MeasureIsNormal(e.raw);
      }
    }
  }

  /** The two checkpoints differ at most in the clock and in what was called last. */
  predicate SameCounts(a: Partial, b: Partial) {
    b == a.(wall := b.wall, progress := a.progress.(lastTool := b.progress.lastTool, toolState := b.progress.toolState))
  }

  /** Whatever changes a count, the phase or the validation state emits a checkpoint. */
  lemma NothingCountsSilently(s: Session, e: SessionEvent)
    requires Allowed(s, e)
    ensures Advance(s, e).1 || SameCounts(Snapshot(s.now), Snapshot(Advance(s, e).0.now))
  {
  }
}
