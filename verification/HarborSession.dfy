/** The metering half of runHarborHostSession (host_runner.ts): the counters a session keeps while
    the Agent, the provider and the remote tools run, and the checkpoint and final metrics read off
    them. */
module HarborSession {
  import opened Wrappers
  import opened HarborMetrics
  import opened HarborUsage
  import opened Meters = HarborMeter

  datatype ToolVerdict = Productive | Barren | Failing

  /** The closure variables of the session. */
  datatype Counters = Counters(
    meter: Meter,
    tools: ToolCounts,
    activeTools: nat,
    usage: seq<Option<Usage>>,
    wall: nat,
    hitMaxSteps: bool,
    progress: Progress)

  /** A session with its history: `tally` is the meter's, and `dispatched` counts the executions
      handed on to the protocol after metering. */
  datatype Session = Session(now: Counters, tally: Tally, dispatched: nat)

  function StartCounters(contractMode: bool): Counters {
    Counters(EMPTY, ToolCounts(0, 0, 0, 0, 0), 0, [], 0, false,
             Progress(if contractMode then Contract else Implementation, NoTool, Idle, 0, 0, NotStarted))
  }

  function Start(contractMode: bool): Session {
    Session(StartCounters(contractMode), NOTHING_YET, 0)
  }

  // ---- The metrics read off the counters ----

  function Snapshot(c: Counters): Partial {
    Partial(|c.usage|, Observed(c.usage), SumUsage(c.usage), c.wall, c.hitMaxSteps, c.tools, c.progress)
  }

  predicate UsageComplete(c: Counters) {
    |c.usage| > 0 && forall i | 0 <= i < |c.usage| :: c.usage[i].Some?
  }

  function FinalOf(c: Counters, status: CompletionStatus): Final {
    Final(status, |c.usage|, if UsageComplete(c) then Some(SumUsage(c.usage)) else None, c.wall, c.hitMaxSteps, c.tools)
  }

  // ---- What changes the counters; the flag says whether the source emits a checkpoint ----

  function Request(tools: ToolCounts, recorded: bool): ToolCounts {
    if recorded then tools.(requested := tools.requested + 1) else tools
  }

  function OnToolCall(c: Counters, key: string, id: string, category: ToolCategory): (Counters, bool) {
    var (meter, recorded) := AgentCall(c.meter, key, id);
    (c.(meter := meter, tools := Request(c.tools, recorded), activeTools := c.activeTools + 1,
        progress := c.progress.(lastTool := category, toolState := Active)),
     recorded)
  }

  function OnBackendCall(c: Counters, key: string): (Counters, bool) {
    var (meter, recorded) := BeforeBackend(c.meter, key);
    (c.(meter := meter, tools := Request(c.tools, recorded)), recorded)
  }

  function Complete(t: ToolCounts, verdict: ToolVerdict): ToolCounts {
    match verdict
    case Productive => t.(completed := t.completed + 1, productive := t.productive + 1)
    case Barren => t.(completed := t.completed + 1, empty := t.empty + 1)
    case Failing => t.(completed := t.completed + 1, failed := t.failed + 1)
  }

  function OnToolResult(c: Counters, key: string, id: string, verdict: ToolVerdict, edits: bool): Counters {
    var artifacts := c.progress.artifacts + if verdict == Productive && edits then 1 else 0;
    var epoch := if verdict == Productive && edits then Max(c.progress.mutationEpoch, artifacts) else c.progress.mutationEpoch;
    var active := if c.activeTools > 0 then c.activeTools - 1 else 0;
    c.(meter := AgentResult(c.meter, key, id).0, tools := Complete(c.tools, verdict), activeTools := active,
       progress := c.progress.(artifacts := artifacts, mutationEpoch := epoch,
                               toolState := if active > 0 then Active else Settled))
  }

  datatype UsageVerdict = Kept | Unchanged | Regressed

  function JudgeUsage(previous: Option<Usage>, raw: RawUsage): UsageVerdict {
    if !CompleteSnapshot(raw) then Unchanged else
      var next := Measure(raw);
      var prior := if previous.Some? then previous.value else NO_USAGE;
      if !UsageGrows(prior, next) then Regressed else if next == prior then Unchanged else Kept
  }

  function OnUsageReport(c: Counters, slot: nat, raw: RawUsage): (Counters, bool)
    requires slot < |c.usage|
  {
    if JudgeUsage(c.usage[slot], raw) == Kept
    then (c.(usage := c.usage[slot := Some(Measure(raw))]), true)
    else (c, false)
  }

  function OnProgressReport(p: Progress, epoch: Option<int>, validation: Option<ValidationState>): Progress {
    p.(mutationEpoch := if epoch.Some? && SafeCount(epoch.value) && epoch.value >= p.mutationEpoch
                        then epoch.value else p.mutationEpoch,
       validation := if validation.Some? then validation.value else p.validation)
  }

  datatype SessionEvent =
    | ToolCall(key: string, id: string, category: ToolCategory)
    | ToolResult(key: string, id: string, verdict: ToolVerdict, edits: bool)
    | BackendCall(key: string)
    | Dispatch
    | ProviderCall
    | UsageReport(slot: nat, raw: RawUsage)
    | PhaseChange(phase: WorkPhase)
    | ProgressReport(epoch: Option<int>, validation: Option<ValidationState>)
    | Review(finding: ValidationState)
    | StepLimit
    | Tick
    | Conclude

  /** What the session's collaborators owe it: a result follows its call, a usage report belongs to
      an open provider call and never falls, and only a metered execution is dispatched. */
  predicate Allowed(s: Session, e: SessionEvent) {
    match e
    case ToolResult(_, _, _, _) => s.now.tools.completed < s.tally.events
    case UsageReport(slot, raw) => slot < |s.now.usage| && JudgeUsage(s.now.usage[slot], raw) != Regressed
    case Dispatch => s.dispatched < s.tally.backends
    case _ => true
  }

  function Advance(s: Session, e: SessionEvent): (Session, bool)
    requires Allowed(s, e)
  {
    var c := s.now;
    match e
    case ToolCall(key, id, category) =>
      var (c', recorded) := OnToolCall(c, key, id, category);
      (s.(now := c', tally := CountCall(s.tally, key, recorded)), recorded)
    case ToolResult(key, id, verdict, edits) =>
      (s.(now := OnToolResult(c, key, id, verdict, edits),
          tally := CountResult(s.tally, key, AgentResult(c.meter, key, id).1)), true)
    case BackendCall(key) =>
      var (c', recorded) := OnBackendCall(c, key);
      (s.(now := c', tally := CountBackend(s.tally, key, recorded)), recorded)
    case Dispatch => (s.(dispatched := s.dispatched + 1), false)
    case ProviderCall => (s.(now := c.(usage := c.usage + [None])), true)
    case UsageReport(slot, raw) =>
      var (c', kept) := OnUsageReport(c, slot, raw);
      (s.(now := c'), kept)
    case PhaseChange(phase) =>
      (s.(now := c.(progress := c.progress.(phase := phase,
                                            validation := if phase == Validation then Awaited else c.progress.validation))),
       true)
    case ProgressReport(epoch, validation) =>
      (s.(now := c.(progress := OnProgressReport(c.progress, epoch, validation))), true)
    case Review(finding) => (s.(now := c.(progress := c.progress.(validation := finding))), true)
    case StepLimit => (s.(now := c.(hitMaxSteps := true, progress := c.progress.(phase := Finalization))), true)
    case Tick => (s.(now := c.(wall := c.wall + 1)), false)
    case Conclude =>
      (s.(now := c.(progress := c.progress.(phase := Finalization,
                                            toolState := if c.activeTools == 0 then Settled else c.progress.toolState))),
       true)
  }

  // ---- What every session keeps ----

  predicate ToolsAddUp(t: ToolCounts) {
    t.productive >= 0 && t.empty >= 0 && t.failed >= 0 && t.completed == t.productive + t.empty + t.failed
  }

  ghost predicate Sound(s: Session) {
    && Conserved(s.now.meter, s.tally)
    && s.now.tools.requested == s.tally.requested
    && ToolsAddUp(s.now.tools)
    && s.now.tools.completed <= s.tally.events
    && s.dispatched <= s.tally.backends
    && NormalTable(s.now.usage)
    && s.now.progress.artifacts >= 0 && s.now.progress.mutationEpoch >= 0
  }

  lemma StartIsSound(contractMode: bool)
    ensures Sound(Start(contractMode))
  {
  }

  /** Every step keeps the session sound and raises its metrics. */
  lemma AdvanceKeeps(s: Session, e: SessionEvent)
    requires Sound(s) && Allowed(s, e)
    ensures Sound(Advance(s, e).0)
    ensures Grows(Snapshot(s.now), Snapshot(Advance(s, e).0.now))
  {
    match e
    case ToolCall(key, id, category) => AgentCallConserves(s.now.meter, s.tally, key, id);
    case ToolResult(key, id, verdict, edits) => AgentResultConserves(s.now.meter, s.tally, key, id);
    case BackendCall(key) => BeforeBackendConserves(s.now.meter, s.tally, key);
    case ProviderCall => OpenSlot(s.now.usage);
    case UsageReport(slot, raw) =>
      MeasureIsNormal(raw);
      if JudgeUsage(s.now.usage[slot], raw) == Kept {
        RaiseSlot(s.now.usage, slot, Measure(raw));
      }
    case _ =>
  }

  /** The metrics of a sound session always pass the host's own validators, as long as its counters
      stay within the safe-integer range, and `requested` covers every dispatched execution. */
  lemma SnapshotIsValid(s: Session)
    requires Sound(s) && SafePartial(Snapshot(s.now))
    ensures HostAcceptsPartial(Snapshot(s.now))
    ensures s.dispatched <= Snapshot(s.now).tools.requested
    ensures forall status :: HostAcceptsFinal(FinalOf(s.now, status))
  {
    TotalsAreConsistent(s.now.usage);
  }

  /** The final metrics reconcile at the peer with a checkpoint of the same counters exactly when
      the provider was called at least once and every requested tool completed. */
  lemma FinalReconcilesExactly(s: Session, status: CompletionStatus, served: nat, settled: nat)
    requires Sound(s) && SafePartial(Snapshot(s.now))
    requires settled <= served <= s.dispatched
    ensures PeerAcceptsFinal(FinalOf(s.now, status)) && Reconciles(FinalOf(s.now, status), Some(Snapshot(s.now)), served, settled)
       <==> |s.now.usage| > 0 && s.now.tools.completed == s.now.tools.requested
  {
    TotalsAreConsistent(s.now.usage);
  }

  /** The counters as the session holds them, updated in place. */
  class SessionMeter {
    const toolMeter: HarborToolCallMeter
    var toolCalls: ToolCounts
    var activeTools: nat
    var usageByProviderCall: seq<Option<Usage>>
    var wall: nat
    var hitMaxSteps: bool
    var progress: Progress

    ghost function Model(): Counters
      reads this, toolMeter
    {
      Counters(toolMeter.Model(), toolCalls, activeTools, usageByProviderCall, wall, hitMaxSteps, progress)
    }

    constructor (contractMode: bool)
      ensures Model() == StartCounters(contractMode) && fresh(toolMeter)
    {
      toolMeter := new HarborToolCallMeter();
      toolCalls := ToolCounts(0, 0, 0, 0, 0);
      activeTools, usageByProviderCall, wall, hitMaxSteps := 0, [], 0, false;
      progress := Progress(if contractMode then Contract else Implementation, NoTool, Idle, 0, 0, NotStarted);
    }

    method OnAgentToolCall(key: string, id: string, category: ToolCategory) returns (emit: bool)
      modifies this, toolMeter
      ensures (Model(), emit) == OnToolCall(old(Model()), key, id, category)
    {
      progress := progress.(lastTool := category);
      activeTools := activeTools + 1;
      progress := progress.(toolState := Active);
      emit := toolMeter.OnAgentCall(key, id);
      if emit {
        toolCalls := toolCalls.(requested := toolCalls.requested + 1);
      }
    }

    method OnAgentToolResult(key: string, id: string, verdict: ToolVerdict, edits: bool)
      modifies this, toolMeter
      ensures Model() == OnToolResult(old(Model()), key, id, verdict, edits)
    {
      var _ := toolMeter.OnAgentResult(key, id);
      toolCalls := toolCalls.(completed := toolCalls.completed + 1);
      match verdict {
        case Productive => toolCalls := toolCalls.(productive := toolCalls.productive + 1);
        case Barren => toolCalls := toolCalls.(empty := toolCalls.empty + 1);
        case Failing => toolCalls := toolCalls.(failed := toolCalls.failed + 1);
      }
      if verdict == Productive && edits {
        progress := progress.(artifacts := progress.artifacts + 1);
        progress := progress.(mutationEpoch := Max(progress.mutationEpoch, progress.artifacts));
      }
      activeTools := if activeTools > 0 then activeTools - 1 else 0;
      progress := progress.(toolState := if activeTools > 0 then Active else Settled);
    }

    method BeforeBackendCall(key: string) returns (emit: bool)
      modifies this, toolMeter
      ensures (Model(), emit) == OnBackendCall(old(Model()), key)
    {
      emit := toolMeter.BeforeBackendCall(key);
      if emit {
        toolCalls := toolCalls.(requested := toolCalls.requested + 1);
      }
    }

    static method CompareUsage(previous: Option<Usage>, raw: RawUsage) returns (verdict: UsageVerdict, measured: Usage)
      requires CompleteSnapshot(raw) && (previous.Some? ==> Normal(previous.value))
      ensures verdict == JudgeUsage(previous, raw) && measured == Measure(raw)
    {
      var prior := new CostTracker();
      var next := new CostTracker();
      if previous.Some? {
        MeasureStored(previous.value);
        prior.Add(Stored(previous.value));
      }
      next.Add(raw);
      measured := next.Model();
      verdict := if !UsageGrows(prior.Model(), measured) then Regressed
                 else if measured == prior.Model() then Unchanged else Kept;
    }

    /** None stands for the thrown usage_snapshot_regressed. */
    method RecordUsage(slot: nat, raw: RawUsage) returns (kept: Option<bool>)
      requires NormalTable(usageByProviderCall) && slot < |usageByProviderCall|
      modifies this`usageByProviderCall
      ensures kept == match JudgeUsage(old(usageByProviderCall)[slot], raw)
                      case Kept => Some(true) case Unchanged => Some(false) case Regressed => None
      ensures Model() == OnUsageReport(old(Model()), slot, raw).0
    {
      if !CompleteSnapshot(raw) {
        return Some(false);
      }
      var verdict, next := CompareUsage(usageByProviderCall[slot], raw);
      match verdict {
        case Regressed => return None;
        case Unchanged => return Some(false);
        case Kept =>
          usageByProviderCall := usageByProviderCall[slot := Some(next)];
          return Some(true);
      }
    }

    method PartialMetrics() returns (m: Partial)
      requires NormalTable(usageByProviderCall)
      ensures m == Snapshot(Model())
    {
      var totals := UsageTotals(usageByProviderCall);
      var observed := 0;
      for i := 0 to |usageByProviderCall|
        invariant observed == Observed(usageByProviderCall[..i])
      {
        assert usageByProviderCall[..i + 1][..i] == usageByProviderCall[..i];
        if usageByProviderCall[i].Some? {
          observed := observed + 1;
        }
      }
      assert usageByProviderCall[..|usageByProviderCall|] == usageByProviderCall;
      m := Partial(|usageByProviderCall|, observed, totals, wall, hitMaxSteps, toolCalls, progress);
    }
  }
}
