/** The computer tool of a session: a client that leases a seat at a host it cannot trust to answer. */
module ComputerTool {
  import opened Wrappers
  import opened ComputerLog

  /** The tool's memory: the snapshot to act on, the lease, and the operation ids still open. */
  datatype Memory = Memory(
    snapshot: Option<Snapshot>,
    leaseHeld: bool,
    releasePending: bool,
    releaseOperation: Option<OpId>,
    pendingAcquire: Option<OpId>,
    unknownAct: Option<(Wire, OpId)>,
    sequence: nat,
    log: Log)

  const FRESH := Memory(None, false, false, None, None, None, 0, [])

  predicate IdsUsedUp(log: Log, sequence: nat) {
    forall i | 0 <= i < |log| :: UsesUpTo(log[i], sequence)
  }

  predicate UsesUpTo(e: Exchange, sequence: nat) {
    e.AcquireAsked? || e.ActAsked? || e.ReleaseAsked? ==> e.id.Numbered? ==> e.id.n <= sequence
  }

  /** The tool remembers exactly the open operations of its log, and a snapshot it may still act on. */
  predicate Remembers(m: Memory) {
    && m.unknownAct == UnknownAct(m.log) && m.pendingAcquire == OpenAcquire(m.log) && m.releaseOperation == OpenRelease(m.log)
    && (m.snapshot.Some? ==> m.snapshot == Latest(m.log) && !Challenges(m.snapshot.value))
    && (m.leaseHeld <==> Holds(m.log)) && (m.releasePending <==> OwesRelease(m.log))
    && (m.leaseHeld ==> m.releasePending)
    && (m.releaseOperation.Some? ==> m.releasePending)
    && (m.unknownAct.Some? ==> m.releasePending)
    && (m.pendingAcquire.Some? ==> !m.leaseHeld)
  }

  predicate Sound(m: Memory) {
    Disciplined(m.log) && IdsUsedUp(m.log, m.sequence) && Remembers(m)
  }

  // ---- How each reply changes the memory ----

  function AfterStatus(m: Memory, reply: Reply<Status>): Memory {
    var asked := m.(log := m.log + [StatusAsked(reply)]);
    if reply.Failed? then asked
    else
      var s := reply.value;
      var controlled :=
        if s.agentHasControl then asked.(leaseHeld := true, releasePending := true, pendingAcquire := None)
        else if m.leaseHeld then asked.(leaseHeld := false, snapshot := None)
        else asked;
      if !s.available || s.seat == Some(UserControlled) then controlled.(leaseHeld := false, snapshot := None) else controlled
  }

  function LetGo(m: Memory): Memory {
    m.(leaseHeld := false, snapshot := None, pendingAcquire := None, unknownAct := None)
  }

  /** A release: nothing is sent when none is due. */
  function AfterRelease(m: Memory, bestEffort: bool, confirmed: bool): Memory {
    if !m.releasePending then LetGo(m).(log := m.log + [ReleasedLocally])
    else
      var next := m.releaseOperation.None? && !bestEffort;
      var id := if m.releaseOperation.Some? then m.releaseOperation.value else if bestEffort then Cleanup else Numbered(m.sequence + 1, ForRelease);
      LetGo(m).(log := m.log + [ReleaseAsked(id, confirmed)],
                sequence := if next then m.sequence + 1 else m.sequence,
                releasePending := !confirmed,
                releaseOperation := if confirmed then None else Some(id))
  }

  lemma NextIdUnused(log: Log, sequence: nat, kind: Kind)
    requires IdsUsedUp(log, sequence)
    ensures Unused(log, Numbered(sequence + 1, kind))
  {
    forall i | 0 <= i < |log| ensures !Uses(log[i], Numbered(sequence + 1, kind)) {
      assert UsesUpTo(log[i], sequence);
    }
  }

  lemma IdsGrow(log: Log, e: Exchange, sequence: nat, sequence': nat)
    requires IdsUsedUp(log, sequence) && sequence <= sequence' && UsesUpTo(e, sequence')
    ensures IdsUsedUp(log + [e], sequence')
  {
    forall i | 0 <= i < |log + [e]| ensures UsesUpTo((log + [e])[i], sequence') {
      assert i < |log| ==> UsesUpTo(log[i], sequence);
    }
  }

  lemma LogGrows(log: Log, e: Exchange)
    requires Disciplined(log) && Justified(log, e)
    ensures Disciplined(log + [e]) && Before(log + [e]) == log && Last(log + [e]) == e
  {
    assert Before(log + [e]) == log;
  }

  lemma {:induction false} StatusKeeps(m: Memory, reply: Reply<Status>)
    requires Sound(m)
    ensures Sound(AfterStatus(m, reply))
  {
    LogGrows(m.log, StatusAsked(reply));
    IdsGrow(m.log, StatusAsked(reply), m.sequence, m.sequence);
    StatusRemembers(m, AfterStatus(m, reply), reply);
  }

  lemma {:induction false} StatusRemembers(m: Memory, after: Memory, reply: Reply<Status>)
    requires Remembers(m) && after == AfterStatus(m, reply)
    requires after.log != [] && Before(after.log) == m.log && Last(after.log) == StatusAsked(reply)
    ensures Remembers(after)
  {
  }

  lemma {:induction false} ReleaseKeeps(m: Memory, bestEffort: bool, confirmed: bool)
    requires Sound(m)
    ensures Sound(AfterRelease(m, bestEffort, confirmed))
  {
    var after := AfterRelease(m, bestEffort, confirmed);
    var e := after.log[|m.log|];
    NextIdUnused(m.log, m.sequence, ForRelease);
    OpenReleaseUsed(m.log, m.sequence);
    LogGrows(m.log, e);
    IdsGrow(m.log, e, m.sequence, after.sequence);
  }

  lemma {:induction false} OpenReleaseUsed(log: Log, sequence: nat)
    requires IdsUsedUp(log, sequence)
    ensures OpenRelease(log).Some? && OpenRelease(log).value.Numbered? ==> OpenRelease(log).value.n <= sequence
  {
    if log != [] {
      assert UsesUpTo(log[|log| - 1], sequence);
      assert forall i | 0 <= i < |Before(log)| :: Before(log)[i] == log[i];
      OpenReleaseUsed(Before(log), sequence);
    }
  }

  lemma {:induction false} OpenAcquireUsed(log: Log, sequence: nat)
    requires IdsUsedUp(log, sequence)
    ensures OpenAcquire(log).Some? && OpenAcquire(log).value.Numbered? ==> OpenAcquire(log).value.n <= sequence
  {
    if log != [] {
      assert UsesUpTo(log[|log| - 1], sequence);
      assert forall i | 0 <= i < |Before(log)| :: Before(log)[i] == log[i];
      OpenAcquireUsed(Before(log), sequence);
    }
  }

  lemma {:induction false} UnknownActUsed(log: Log, sequence: nat)
    requires IdsUsedUp(log, sequence)
    ensures UnknownAct(log).Some? && UnknownAct(log).value.1.Numbered? ==> UnknownAct(log).value.1.n <= sequence
  {
    if UnknownAct(log).Some? {
      var k := UnknownActWasSent(log);
      assert UsesUpTo(log[k], sequence);
    }
  }

  /** A new snapshot is remembered, or forgotten because it shows a human check. */
  function AfterObserve(m: Memory, reply: Reply<Snapshot>): Memory {
    var asked := m.(log := m.log + [ObserveAsked(reply)]);
    if reply.Failed? then asked
    else asked.(snapshot := if Challenges(reply.value) then None else Some(reply.value))
  }

  lemma {:induction false} ObserveKeeps(m: Memory, reply: Reply<Snapshot>)
    requires Sound(m)
    ensures Sound(AfterObserve(m, reply))
  {
    LogGrows(m.log, ObserveAsked(reply));
    IdsGrow(m.log, ObserveAsked(reply), m.sequence, m.sequence);
  }

  function AcquireId(m: Memory): OpId {
    if m.pendingAcquire.Some? then m.pendingAcquire.value else Numbered(m.sequence + 1, ForAcquire)
  }

  function AfterAcquire(m: Memory, refusal: Option<Code>): Memory {
    var id := AcquireId(m);
    var asked := m.(log := m.log + [AcquireAsked(id, refusal)], sequence := if m.pendingAcquire.Some? then m.sequence else m.sequence + 1);
    if refusal.None? then asked.(pendingAcquire := None, leaseHeld := true, releasePending := true)
    else asked.(pendingAcquire := if EndsControl(refusal.value) then None else Some(id))
  }

  lemma {:induction false} AcquireKeeps(m: Memory, refusal: Option<Code>)
    requires Sound(m) && !m.leaseHeld && JustifiedAcquire(m.log, AcquireId(m))
    ensures Sound(AfterAcquire(m, refusal))
  {
    var after := AfterAcquire(m, refusal);
    OpenAcquireUsed(m.log, m.sequence);
    LogGrows(m.log, AcquireAsked(AcquireId(m), refusal));
    IdsGrow(m.log, AcquireAsked(AcquireId(m), refusal), m.sequence, after.sequence);
  }

  predicate Repeats(m: Memory, wire: Wire) {
    m.unknownAct.Some? && m.unknownAct.value.0 == wire
  }

  function ActId(m: Memory, wire: Wire): OpId {
    if Repeats(m, wire) then m.unknownAct.value.1 else Numbered(m.sequence + 1, ForAct(wire.action))
  }

  function Sent(m: Memory, wire: Wire, result: Reply<ActResult>): Memory {
    m.(log := m.log + [ActAsked(ActId(m, wire), wire, result)], sequence := if Repeats(m, wire) then m.sequence else m.sequence + 1)
  }

  function Settled(m: Memory, id: OpId, wire: Wire, result: Reply<ActResult>): Memory {
    match result
    case Got(Completed(next)) =>
      m.(unknownAct := None, snapshot := if next.Some? && Challenges(next.value) then None else next)
    case Got(Rejected(code)) =>
      m.(unknownAct := None, snapshot := if code == StaleSnapshot then m.snapshot else None)
    case Failed(code) =>
      if code == Interrupted then m
      else if code == StaleSnapshot then m.(unknownAct := None)
      else if EndsControl(code) then m.(unknownAct := None, snapshot := None, leaseHeld := false)
      else m.(unknownAct := Some((wire, id)), snapshot := None)
  }

  /** The memory right after an act was answered, before any follow-up. */
  function AfterAct(m: Memory, wire: Wire, result: Reply<ActResult>): Memory {
    Settled(Sent(m, wire, result), ActId(m, wire), wire, result)
  }

  lemma {:induction false} ActIdIsKeyed(m: Memory, wire: Wire)
    requires IdsUsedUp(m.log, m.sequence) && m.unknownAct == UnknownAct(m.log)
    ensures KeyedAct(m.log, ActId(m, wire), wire)
    ensures ActId(m, wire).Numbered? ==> ActId(m, wire).n <= if Repeats(m, wire) then m.sequence else m.sequence + 1
  {
    NextIdUnused(m.log, m.sequence, ForAct(wire.action));
    UnknownActUsed(m.log, m.sequence);
  }

  lemma {:induction false} ActLogKeeps(log: Log, sequence: nat, sequence': nat, id: OpId, wire: Wire, result: Reply<ActResult>)
    requires Disciplined(log) && IdsUsedUp(log, sequence) && sequence <= sequence'
    requires GroundedAct(log, wire) && KeyedAct(log, id, wire) && (id.Numbered? ==> id.n <= sequence')
    ensures Disciplined(log + [ActAsked(id, wire, result)]) && IdsUsedUp(log + [ActAsked(id, wire, result)], sequence')
    ensures Before(log + [ActAsked(id, wire, result)]) == log && Last(log + [ActAsked(id, wire, result)]) == ActAsked(id, wire, result)
  {
    var e := ActAsked(id, wire, result);
    assert Justified(log, e);
    LogGrows(log, e);
    IdsGrow(log, e, sequence, sequence');
  }

  lemma {:induction false} SettledRemembers(m: Memory, asked: Memory, id: OpId, wire: Wire, result: Reply<ActResult>)
    requires Remembers(m) && m.releasePending
    requires asked.log != [] && Before(asked.log) == m.log && Last(asked.log) == ActAsked(id, wire, result)
    requires asked == m.(log := asked.log, sequence := asked.sequence)
    ensures Remembers(Settled(asked, id, wire, result))
  {
  }

  lemma {:induction false} ActKeeps(m: Memory, wire: Wire, result: Reply<ActResult>)
    requires Sound(m) && m.releasePending && GroundedAct(m.log, wire)
    ensures Sound(AfterAct(m, wire, result))
  {
    var asked, id := Sent(m, wire, result), ActId(m, wire);
    ActIdIsKeyed(m, wire);
    ActLogKeeps(m.log, m.sequence, asked.sequence, id, wire, result);
    SettledRemembers(m, asked, id, wire, result);
  }

  // ---- The tool's calls ----

  datatype Block =
    | HostCode
    | SeatTakenByHuman
    | SeatUnavailable
    | LeaseGone
    | LeaseRequired
    | ObserveRequired
    | InvalidArguments
    | HumanCheck
    | ProtectedInput
    | StaleTarget
    | ActionRejected
    | AcquireOutcomeUnknown
    | ActionOutcomeUnknown
    | ReleaseUnconfirmed
    | SessionClosed
    | HostError(code: Code)

  datatype Outcome =
    | Ready
    | Blocked(block: Block)
    | WasInterrupted
    | Observed(snapshot: Snapshot)
    | Acquired(recovered: bool)
    | Done(next: Option<Snapshot>)
    | Released

  function ByError(code: Code): Outcome {
    if code == Interrupted then WasInterrupted else Blocked(HostError(code))
  }

  function StatusBlock(s: Status, controlRequired: bool): Option<Block> {
    if !s.available then Some(HostCode)
    else if s.seat == Some(UserControlled) then Some(SeatTakenByHuman)
    else if s.seat == Some(AgentControlled) && !s.agentHasControl then Some(SeatUnavailable)
    else if controlRequired && !s.agentHasControl then Some(LeaseGone)
    else None
  }

  /** What the model asks the tool to do. */
  datatype Request =
    | Malformed
    | WantStatus
    | WantObserve(argumentsValid: bool)
    | WantAcquire
    | WantAct(action: Action, target: Option<Target>, text: Option<Text>)
    | WantRelease

  /** The host's answers during one call; a call asks for each kind at most once. */
  datatype Host = Host(
    status: Reply<Status>,
    seen: Reply<Snapshot>,
    refusal: Option<Code>,
    result: Reply<ActResult>,
    laterStatus: Reply<Status>,
    laterSeen: Reply<Snapshot>,
    released: bool)

  function ReleaseIfPending(m: Memory, confirmed: bool): Memory {
    if m.releasePending then AfterRelease(m, true, confirmed) else m
  }

  function StatusStep(m: Memory, h: Host): (Memory, Outcome) {
    var asked := AfterStatus(m, h.status);
    if h.status.Failed? then (asked, ByError(h.status.code))
    else
      var block := StatusBlock(h.status.value, false);
      if block.None? then (asked, Ready) else (ReleaseIfPending(asked, h.released), Blocked(block.value))
  }

  /** Ask for a snapshot; one that shows a human check ends the agent's control. */
  function SnapshotStep(m: Memory, seen: Reply<Snapshot>, released: bool): (Memory, Outcome) {
    var asked := AfterObserve(m, seen);
    if seen.Failed? then (asked, ByError(seen.code))
    else if Challenges(seen.value) then (AfterRelease(asked, true, released), Blocked(HumanCheck))
    else (asked, Observed(seen.value))
  }

  function ObserveStep(m: Memory, argumentsValid: bool, h: Host): (Memory, Outcome) {
    var (asked, outcome) := StatusStep(m, h);
    if outcome != Ready then (asked, outcome)
    else if !argumentsValid then (asked, Blocked(InvalidArguments))
    else SnapshotStep(asked, h.seen, h.released)
  }

  function AcquireStep(m: Memory, h: Host): (Memory, Outcome) {
    if m.snapshot.None? then (m, Blocked(ObserveRequired))
    else
      var asked := AfterStatus(m, h.status);
      if h.status.Failed? then (asked, ByError(h.status.code))
      else
        var block := StatusBlock(h.status.value, false);
        if block.Some? then (asked, Blocked(block.value))
        else if h.status.value.agentHasControl then (asked, Acquired(true))
        else (AfterAcquire(asked, h.refusal), AcquireOutcome(h.refusal))
  }

  function AcquireOutcome(refusal: Option<Code>): Outcome {
    if refusal.None? then Acquired(false)
    else if refusal.value == Interrupted then WasInterrupted
    else if EndsControl(refusal.value) then Blocked(HostError(refusal.value))
    else Blocked(AcquireOutcomeUnknown)
  }

  /** After a stale target: look again, but only under the agent's control. */
  function RefreshStep(m: Memory, h: Host): (Memory, Outcome) {
    var asked := AfterStatus(m, h.laterStatus);
    if h.laterStatus.Failed? then (asked.(snapshot := None), ByError(h.laterStatus.code))
    else
      var block := StatusBlock(h.laterStatus.value, true);
      if block.Some? then (asked, Blocked(block.value))
      else
        var (seen, outcome) := SnapshotStep(asked, h.laterSeen, h.released);
        if outcome.Observed? then (seen, Blocked(StaleTarget))
        else (seen.(snapshot := None), outcome)
  }

  function ActStep(m: Memory, action: Action, target: Option<Target>, text: Option<Text>, h: Host): (Memory, Outcome) {
    if !m.leaseHeld || m.snapshot.None? then (m, Blocked(if m.leaseHeld then ObserveRequired else LeaseRequired))
    else if target.None? then (m, Blocked(InvalidArguments))
    else
      var asked := AfterStatus(m, h.status);
      if h.status.Failed? then (asked, ByError(h.status.code))
      else
        var block := StatusBlock(h.status.value, true);
        if block.Some? then (ReleaseIfPending(asked, h.released), Blocked(block.value))
        else AimStep(asked, m.snapshot.value, action, target.value, text, h)
  }

  function AimStep(m: Memory, s: Snapshot, action: Action, target: Target, text: Option<Text>, h: Host): (Memory, Outcome) {
    if !Matches(s, target, action) then RefreshStep(m, h)
    else if Find(s.nodes, target.ref).value.isProtected then (AfterRelease(m, true, h.released), Blocked(ProtectedInput))
    else if action == SetText && text.None? then (m, Blocked(InvalidArguments))
    else SendAct(m, Wire(s.stateVersion, target, action, if action == SetText then text else None), h)
  }

  function SendAct(m: Memory, wire: Wire, h: Host): (Memory, Outcome) {
    FollowUp(AfterAct(m, wire, h.result), h)
  }

  /** What the tool does about the answer to an act. */
  function FollowUp(acted: Memory, h: Host): (Memory, Outcome) {
    match h.result
    case Got(Completed(next)) =>
      if next.Some? && Challenges(next.value) then (AfterRelease(acted, true, h.released), Blocked(HumanCheck)) else (acted, Done(next))
    case Got(Rejected(code)) =>
      if code == StaleSnapshot then RefreshStep(acted, h)
      else (acted, Blocked(if code == HostUnavailable then ActionRejected else HostError(code)))
    case Failed(code) =>
      if code == StaleSnapshot then RefreshStep(acted, h)
      else if EndsControl(code) then (AfterRelease(acted, true, h.released), Blocked(HostError(code)))
      else if code == Interrupted then (acted, WasInterrupted)
      else (acted, Blocked(ActionOutcomeUnknown))
  }

  function CallStep(m: Memory, request: Request, h: Host): (Memory, Outcome) {
    match request
    case Malformed => (m, Blocked(InvalidArguments))
    case WantStatus => StatusStep(m, h)
    case WantObserve(argumentsValid) => ObserveStep(m, argumentsValid, h)
    case WantAcquire => AcquireStep(m, h)
    case WantAct(action, target, text) => ActStep(m, action, target, text, h)
    case WantRelease =>
      (AfterRelease(m, false, h.released), if m.releasePending && !h.released then Blocked(ReleaseUnconfirmed) else Released)
  }

  // ---- The tool ----

  class WiiiComputerTool {
    var snapshot: Option<Snapshot>
    var leaseHeld: bool
    var releasePending: bool
    var releaseOperation: Option<OpId>
    var pendingAcquire: Option<OpId>
    var unknownAct: Option<(Wire, OpId)>
    var sequence: nat
    var closed: bool
    ghost var log: Log

    ghost function Model(): Memory
      reads this
    {
      Memory(snapshot, leaseHeld, releasePending, releaseOperation, pendingAcquire, unknownAct, sequence, log)
    }

    constructor ()
      ensures Model() == FRESH && !closed
    {
      snapshot, leaseHeld, releasePending, closed := None, false, false, false;
      releaseOperation, pendingAcquire, unknownAct := None, None, None;
      sequence, log := 0, [];
    }

    method ReadStatus(reply: Reply<Status>)
      modifies this
      ensures Model() == AfterStatus(old(Model()), reply) && closed == old(closed)
    {
      log := log + [StatusAsked(reply)];
      if reply.Got? {
        var current := reply.value;
        if current.agentHasControl {
          leaseHeld, releasePending, pendingAcquire := true, true, None;
        } else if leaseHeld {
          leaseHeld, snapshot := false, None;
        }
        if !current.available || current.seat == Some(UserControlled) {
          leaseHeld, snapshot := false, None;
        }
      }
    }

    method ReleaseControl(bestEffort: bool, confirmed: bool) returns (released: bool)
      modifies this
      ensures Model() == AfterRelease(old(Model()), bestEffort, confirmed) && closed == old(closed)
      ensures released == (!old(releasePending) || confirmed)
    {
      leaseHeld, snapshot, pendingAcquire, unknownAct := false, None, None, None;
      if !releasePending {
        log := log + [ReleasedLocally];
        return true;
      }
      var id;
      if releaseOperation.Some? {
        id := releaseOperation.value;
      } else if bestEffort {
        id := Cleanup;
      } else {
        sequence := sequence + 1;
        id := Numbered(sequence, ForRelease);
      }
      releaseOperation := Some(id);
      log := log + [ReleaseAsked(id, confirmed)];
      if confirmed {
        releasePending, releaseOperation := false, None;
      }
      released := confirmed;
    }

    method StatusTool(h: Host) returns (outcome: Outcome)
      modifies this
      ensures (Model(), outcome) == StatusStep(old(Model()), h) && closed == old(closed)
    {
      ReadStatus(h.status);
      if h.status.Failed? {
        return ByError(h.status.code);
      }
      var block := StatusBlock(h.status.value, false);
      if block.None? {
        return Ready;
      }
      if releasePending {
        var _ := ReleaseControl(true, h.released);
      }
      outcome := Blocked(block.value);
    }

    method AskForSnapshot(seen: Reply<Snapshot>, confirmed: bool) returns (outcome: Outcome)
      modifies this
      ensures (Model(), outcome) == SnapshotStep(old(Model()), seen, confirmed) && closed == old(closed)
    {
      log := log + [ObserveAsked(seen)];
      if seen.Failed? {
        return ByError(seen.code);
      }
      if Challenges(seen.value) {
        snapshot := None;
        var _ := ReleaseControl(true, confirmed);
        return Blocked(HumanCheck);
      }
      snapshot := Some(seen.value);
      outcome := Observed(seen.value);
    }

    method Observe(argumentsValid: bool, h: Host) returns (outcome: Outcome)
      modifies this
      ensures (Model(), outcome) == ObserveStep(old(Model()), argumentsValid, h) && closed == old(closed)
    {
      outcome := StatusTool(h);
      if outcome == Ready {
        if !argumentsValid {
          return Blocked(InvalidArguments);
        }
        outcome := AskForSnapshot(h.seen, h.released);
      }
    }

    method Acquire(h: Host) returns (outcome: Outcome)
      modifies this
      ensures (Model(), outcome) == AcquireStep(old(Model()), h) && closed == old(closed)
    {
      if snapshot.None? {
        return Blocked(ObserveRequired);
      }
      ReadStatus(h.status);
      if h.status.Failed? {
        return ByError(h.status.code);
      }
      var block := StatusBlock(h.status.value, false);
      if block.Some? {
        return Blocked(block.value);
      }
      if h.status.value.agentHasControl {
        return Acquired(true);
      }
      outcome := AskToAcquire(h.refusal);
    }

    method AskToAcquire(refusal: Option<Code>) returns (outcome: Outcome)
      modifies this
      ensures Model() == AfterAcquire(old(Model()), refusal) && closed == old(closed)
      ensures outcome == AcquireOutcome(refusal)
    {
      var id;
      if pendingAcquire.Some? {
        id := pendingAcquire.value;
      } else {
        sequence := sequence + 1;
        id := Numbered(sequence, ForAcquire);
      }
      pendingAcquire := Some(id);
      log := log + [AcquireAsked(id, refusal)];
      if refusal.None? {
        pendingAcquire, leaseHeld, releasePending := None, true, true;
        return Acquired(false);
      }
      if refusal.value == Interrupted {
        return WasInterrupted;
      }
      if EndsControl(refusal.value) {
        pendingAcquire := None;
        return Blocked(HostError(refusal.value));
      }
      outcome := Blocked(AcquireOutcomeUnknown);
    }

    method RefreshAfterStale(h: Host) returns (outcome: Outcome)
      modifies this
      ensures (Model(), outcome) == RefreshStep(old(Model()), h) && closed == old(closed)
    {
      ReadStatus(h.laterStatus);
      if h.laterStatus.Failed? {
        snapshot := None;
        return ByError(h.laterStatus.code);
      }
      var block := StatusBlock(h.laterStatus.value, true);
      if block.Some? {
        return Blocked(block.value);
      }
      outcome := AskForSnapshot(h.laterSeen, h.released);
      if outcome.Observed? {
        return Blocked(StaleTarget);
      }
      snapshot := None;
    }

    method Act(action: Action, target: Option<Target>, text: Option<Text>, h: Host) returns (outcome: Outcome)
      modifies this
      ensures (Model(), outcome) == ActStep(old(Model()), action, target, text, h) && closed == old(closed)
    {
      if !leaseHeld || snapshot.None? {
        return Blocked(if leaseHeld then ObserveRequired else LeaseRequired);
      }
      if target.None? {
        return Blocked(InvalidArguments);
      }
      ghost var s := snapshot.value;
      ReadStatus(h.status);
      if h.status.Failed? {
        return ByError(h.status.code);
      }
      var block := StatusBlock(h.status.value, true);
      if block.Some? {
        if releasePending {
          var _ := ReleaseControl(true, h.released);
        }
        return Blocked(block.value);
      }
      assert snapshot == Some(s);
      outcome := AimAndAct(action, target.value, text, h);
    }

    method AimAndAct(action: Action, target: Target, text: Option<Text>, h: Host) returns (outcome: Outcome)
      requires snapshot.Some?
      modifies this
      ensures (Model(), outcome) == AimStep(old(Model()), old(snapshot).value, action, target, text, h) && closed == old(closed)
    {
      var s := snapshot.value;
      var node := Find(s.nodes, target.ref);
      if node.None? || node.value.role != target.role || node.value.name != target.name || action !in node.value.actions {
        outcome := RefreshAfterStale(h);
        return;
      }
      if node.value.isProtected {
        var _ := ReleaseControl(true, h.released);
        return Blocked(ProtectedInput);
      }
      if action == SetText && text.None? {
        return Blocked(InvalidArguments);
      }
      outcome := AskToAct(Wire(s.stateVersion, target, action, if action == SetText then text else None), h);
    }

    method TakeActId(wire: Wire) returns (id: OpId)
      modifies this`sequence
      ensures id == ActId(old(Model()), wire)
      ensures Model() == old(Model()).(sequence := if Repeats(old(Model()), wire) then old(sequence) else old(sequence) + 1)
    {
      if unknownAct.Some? && unknownAct.value.0 == wire {
        id := unknownAct.value.1;
      } else {
        sequence := sequence + 1;
        id := Numbered(sequence, ForAct(wire.action));
      }
    }

    method AskToAct(wire: Wire, h: Host) returns (outcome: Outcome)
      modifies this
      ensures (Model(), outcome) == SendAct(old(Model()), wire, h) && closed == old(closed)
    {
      var id := TakeActId(wire);
      log := log + [ActAsked(id, wire, h.result)];
      SettleAct(id, wire, h.result);
      outcome := FollowUpAct(h);
    }

    method SettleAct(id: OpId, wire: Wire, result: Reply<ActResult>)
      modifies this`snapshot, this`leaseHeld, this`unknownAct
      ensures Model() == Settled(old(Model()), id, wire, result)
    {
      match result {
        case Got(Completed(next)) =>
          unknownAct, snapshot := None, if next.Some? && Challenges(next.value) then None else next;
        case Got(Rejected(code)) =>
          unknownAct := None;
          if code != StaleSnapshot {
            snapshot := None;
          }
        case Failed(code) =>
          if code == StaleSnapshot {
            unknownAct := None;
          } else if EndsControl(code) {
            unknownAct, snapshot, leaseHeld := None, None, false;
          } else if code != Interrupted {
            unknownAct, snapshot := Some((wire, id)), None;
          }
      }
    }

    method FollowUpAct(h: Host) returns (outcome: Outcome)
      modifies this
      ensures (Model(), outcome) == FollowUp(old(Model()), h) && closed == old(closed)
    {
      match h.result {
        case Got(Completed(next)) =>
          if next.Some? && Challenges(next.value) {
            var _ := ReleaseControl(true, h.released);
            return Blocked(HumanCheck);
          }
          outcome := Done(next);
        case Got(Rejected(code)) =>
          if code == StaleSnapshot {
            outcome := RefreshAfterStale(h);
            return;
          }
          outcome := Blocked(if code == HostUnavailable then ActionRejected else HostError(code));
        case Failed(code) =>
          if code == StaleSnapshot {
            outcome := RefreshAfterStale(h);
          } else if EndsControl(code) {
            var _ := ReleaseControl(true, h.released);
            outcome := Blocked(HostError(code));
          } else {
            outcome := if code == Interrupted then WasInterrupted else Blocked(ActionOutcomeUnknown);
          }
      }
    }

    method Call(request: Request, h: Host) returns (outcome: Outcome)
      modifies this
      ensures closed == old(closed)
      ensures (Model(), outcome) == if closed then (old(Model()), Blocked(SessionClosed)) else CallStep(old(Model()), request, h)
    {
      if closed {
        return Blocked(SessionClosed);
      }
      match request {
        case Malformed => outcome := Blocked(InvalidArguments);
        case WantStatus => outcome := StatusTool(h);
        case WantObserve(argumentsValid) => outcome := Observe(argumentsValid, h);
        case WantAcquire => outcome := Acquire(h);
        case WantAct(action, target, text) => outcome := Act(action, target, text, h);
        case WantRelease =>
          var released := ReleaseControl(false, h.released);
          outcome := if released then Released else Blocked(ReleaseUnconfirmed);
      }
    }

    method PrepareTurn(h: Host)
      modifies this
      ensures Model() == (if closed then old(Model()) else AfterStatus(old(Model()), h.status)) && closed == old(closed)
    {
      if !closed {
        ReadStatus(h.status);
      }
    }

    method Release(h: Host)
      modifies this
      ensures Model() == AfterRelease(old(Model()), true, h.released) && closed == old(closed)
    {
      var _ := ReleaseControl(true, h.released);
    }

    method Close(h: Host)
      modifies this
      ensures Model() == (if old(closed) then old(Model()) else AfterRelease(old(Model()), true, h.released)) && closed
    {
      if !closed {
        var _ := ReleaseControl(true, h.released);
        closed := true;
      }
    }
  }

  // ---- Every run ----

  lemma {:induction false} ReleaseIfPendingKeeps(m: Memory, confirmed: bool)
    requires Sound(m)
    ensures Sound(ReleaseIfPending(m, confirmed))
  {
    ReleaseKeeps(m, true, confirmed);
  }

  lemma {:induction false} StatusStepKeeps(m: Memory, h: Host)
    requires Sound(m)
    ensures Sound(StatusStep(m, h).0)
  {
    StatusKeeps(m, h.status);
    ReleaseIfPendingKeeps(AfterStatus(m, h.status), h.released);
  }

  lemma {:induction false} SnapshotStepKeeps(m: Memory, seen: Reply<Snapshot>, released: bool)
    requires Sound(m)
    ensures Sound(SnapshotStep(m, seen, released).0)
  {
    ObserveKeeps(m, seen);
    ReleaseKeeps(AfterObserve(m, seen), true, released);
  }

  lemma {:induction false} ForgettingKeeps(m: Memory)
    requires Sound(m)
    ensures Sound(m.(snapshot := None))
  {
  }

  lemma {:induction false} RefreshStepKeeps(m: Memory, h: Host)
    requires Sound(m)
    ensures Sound(RefreshStep(m, h).0)
  {
    var asked := AfterStatus(m, h.laterStatus);
    StatusKeeps(m, h.laterStatus);
    SnapshotStepKeeps(asked, h.laterSeen, h.released);
    ForgettingKeeps(asked);
    ForgettingKeeps(SnapshotStep(asked, h.laterSeen, h.released).0);
  }

  /** The status that lets an acquisition be sent leaves the tool without a lease. */
  lemma {:induction false} AcquireStepKeeps(m: Memory, h: Host)
    requires Sound(m)
    ensures Sound(AcquireStep(m, h).0)
  {
    var asked := AfterStatus(m, h.status);
    StatusKeeps(m, h.status);
    if m.snapshot.Some? && h.status.Got? && h.status.value.available && !h.status.value.agentHasControl {
      assert Before(asked.log) == m.log;
      OpenAcquireUsed(asked.log, asked.sequence);
      NextIdUnused(asked.log, asked.sequence, ForAcquire);
      AcquireKeeps(asked, h.refusal);
    }
  }

  lemma {:induction false} FollowUpKeeps(acted: Memory, h: Host)
    requires Sound(acted)
    ensures Sound(FollowUp(acted, h).0)
  {
    if h.result == Failed(StaleSnapshot) || h.result == Got(Rejected(StaleSnapshot)) {
      RefreshStepKeeps(acted, h);
    } else {
      ReleaseKeeps(acted, true, h.released);
    }
  }

  lemma {:induction false} SendActKeeps(m: Memory, wire: Wire, h: Host)
    requires Sound(m) && m.releasePending && GroundedAct(m.log, wire)
    ensures Sound(SendAct(m, wire, h).0)
  {
    ActKeeps(m, wire, h.result);
    FollowUpKeeps(AfterAct(m, wire, h.result), h);
  }

  lemma {:induction false} AimStepKeeps(m: Memory, s: Snapshot, action: Action, target: Target, text: Option<Text>, h: Host)
    requires Sound(m) && m.snapshot == Some(s) && m.releasePending
    requires m.log != [] && Last(m.log).StatusAsked? && Last(m.log).status.Got? && UnderAgentControl(Last(m.log).status.value)
    ensures Sound(AimStep(m, s, action, target, text, h).0)
  {
    RefreshStepKeeps(m, h);
    ReleaseKeeps(m, true, h.released);
    if Matches(s, target, action) && !Find(s.nodes, target.ref).value.isProtected && !(action == SetText && text.None?) {
      SendActKeeps(m, Wire(s.stateVersion, target, action, if action == SetText then text else None), h);
    }
  }

  lemma {:induction false} ActStepKeeps(m: Memory, action: Action, target: Option<Target>, text: Option<Text>, h: Host)
    requires Sound(m)
    ensures Sound(ActStep(m, action, target, text, h).0)
  {
    var asked := AfterStatus(m, h.status);
    StatusKeeps(m, h.status);
    ReleaseIfPendingKeeps(asked, h.released);
    if m.snapshot.Some? && target.Some? && h.status.Got? && StatusBlock(h.status.value, true).None? {
      AimStepKeeps(asked, m.snapshot.value, action, target.value, text, h);
    }
  }

  lemma {:induction false} CallStepKeeps(m: Memory, request: Request, h: Host)
    requires Sound(m)
    ensures Sound(CallStep(m, request, h).0)
  {
    match request
    case Malformed =>
    case WantStatus => StatusStepKeeps(m, h);
    case WantObserve(argumentsValid) =>
      StatusStepKeeps(m, h);
      SnapshotStepKeeps(StatusStep(m, h).0, h.seen, h.released);
    case WantAcquire => AcquireStepKeeps(m, h);
    case WantAct(action, target, text) => ActStepKeeps(m, action, target, text, h);
    case WantRelease => ReleaseKeeps(m, false, h.released);
  }

  datatype Event =
    | Calls(request: Request, host: Host)
    | TurnPrepared(host: Host)
    | Releases(host: Host)
    | Closes(host: Host)

  datatype Tool = Tool(memory: Memory, closed: bool)

  function Step(t: Tool, e: Event): Tool {
    match e
    case Calls(request, h) => if t.closed then t else t.(memory := CallStep(t.memory, request, h).0)
    case TurnPrepared(h) => if t.closed then t else t.(memory := AfterStatus(t.memory, h.status))
    case Releases(h) => t.(memory := AfterRelease(t.memory, true, h.released))
    case Closes(h) => if t.closed then t else Tool(AfterRelease(t.memory, true, h.released), true)
  }

  function Run(t: Tool, es: seq<Event>): Tool
    decreases |es|
  {
    if es == [] then t else Run(Step(t, es[0]), es[1..])
  }

  lemma {:induction false} StepKeeps(t: Tool, e: Event)
    requires Sound(t.memory)
    ensures Sound(Step(t, e).memory)
  {
    match e
    case Calls(request, h) => CallStepKeeps(t.memory, request, h);
    case TurnPrepared(h) => StatusKeeps(t.memory, h.status);
    case Releases(h) => ReleaseKeeps(t.memory, true, h.released);
    case Closes(h) => ReleaseKeeps(t.memory, true, h.released);
  }

  /** Whatever is called and whatever the host answers, the exchanges are disciplined: every act is
      grounded in the status just read and the latest snapshot, every id is a proper key. And the lease
      is never held without a release being due, nor while an acquisition is open. */
  lemma {:induction false} EveryRunIsSound(t: Tool, es: seq<Event>)
    requires Sound(t.memory)
    ensures var m := Run(t, es).memory;
            && Disciplined(m.log)
            && (m.leaseHeld <==> Holds(m.log)) && (m.releasePending <==> OwesRelease(m.log))
            && (m.leaseHeld ==> m.releasePending && m.pendingAcquire.None?)
            && (m.releaseOperation.Some? ==> m.releasePending)
            && (m.snapshot.Some? ==> m.snapshot == Latest(m.log) && !Challenges(m.snapshot.value))
    decreases |es|
  {
    if es != [] {
      StepKeeps(t, es[0]);
      EveryRunIsSound(Step(t, es[0]), es[1..]);
    }
  }

  /** So it is from the start of a session. */
  lemma EverySessionIsSound(es: seq<Event>)
    ensures var m := Run(Tool(FRESH, false), es).memory;
            && Disciplined(m.log)
            && (m.leaseHeld <==> Holds(m.log)) && (m.releasePending <==> OwesRelease(m.log))
            && (m.leaseHeld ==> m.releasePending && m.pendingAcquire.None?)
            && (m.releaseOperation.Some? ==> m.releasePending)
            && (m.snapshot.Some? ==> m.snapshot == Latest(m.log) && !Challenges(m.snapshot.value))
  {
    EveryRunIsSound(Tool(FRESH, false), es);
  }

  /** Once the session is closed the tool asks for nothing but releases. */
  lemma {:induction false} ClosedToolOnlyReleases(t: Tool, es: seq<Event>, i: nat)
    requires t.closed && |t.memory.log| <= i < |Run(t, es).memory.log|
    ensures Run(t, es).memory.log[i].ReleaseAsked? || Run(t, es).memory.log[i].ReleasedLocally?
    decreases |es|
  {
    if es != [] {
      var next := Step(t, es[0]);
      if i < |next.memory.log| {
        LogKeeps(next, es[1..], i);
      } else {
        ClosedToolOnlyReleases(next, es[1..], i);
      }
    }
  }

  lemma {:induction false} LogKeeps(t: Tool, es: seq<Event>, i: nat)
    requires t.closed && i < |t.memory.log|
    ensures i < |Run(t, es).memory.log| && Run(t, es).memory.log[i] == t.memory.log[i]
    decreases |es|
  {
    if es != [] {
      LogKeeps(Step(t, es[0]), es[1..], i);
    }
  }
}
