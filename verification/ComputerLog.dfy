/** The exchanges between the computer tool and its host, and what it means for them to be disciplined. */
module ComputerLog {
  import opened Wrappers

  type Text(==, !new)

  datatype Action = Focus | Invoke | SetText

  datatype Seat = SeatAvailable | AgentControlled | UserControlled

  /** `humanCheck` and `isProtected` stand for the text patterns that recognise a human check in a
      node's role and name, and a protected input in its role, name and states. */
  datatype Node = Node(ref: Text, role: Text, name: Text, actions: set<Action>, humanCheck: bool, isProtected: bool)

  datatype Snapshot = Snapshot(stateVersion: Text, nodes: seq<Node>)

  datatype Status = Status(available: bool, seat: Option<Seat>, agentHasControl: bool)

  datatype Code = Interrupted | ProjectNotActive | HumanVerification | HumanTakeover | StaleSnapshot | LeaseLost | InvalidHostResponse | HostUnavailable

  datatype Reply<T> = Got(value: T) | Failed(code: Code)

  datatype Target = Target(ref: Text, role: Text, name: Text)

  datatype Wire = Wire(stateVersion: Text, target: Target, action: Action, text: Option<Text>)

  datatype Kind = ForAct(action: Action) | ForAcquire | ForRelease

  /** Numbered ids are used up in order; the clean-up id is the same throughout a session. */
  datatype OpId = Numbered(n: nat, kind: Kind) | Cleanup

  datatype ActResult = Completed(next: Option<Snapshot>) | Rejected(code: Code)

  datatype Exchange =
    | StatusAsked(status: Reply<Status>)
    | ObserveAsked(seen: Reply<Snapshot>)
    | AcquireAsked(id: OpId, refusal: Option<Code>)
    | ActAsked(id: OpId, wire: Wire, result: Reply<ActResult>)
    | ReleaseAsked(id: OpId, confirmed: bool)
    | ReleasedLocally

  type Log = seq<Exchange>

  // ---- What the log says ----

  function Before(log: Log): Log
    requires log != []
  {
    log[..|log| - 1]
  }

  function Last(log: Log): Exchange
    requires log != []
  {
    log[|log| - 1]
  }

  /** The newest snapshot the tool accepted. */
  function Latest(log: Log): Option<Snapshot> {
    if log == [] then None
    else
      match Last(log)
      case ObserveAsked(Got(snapshot)) => Some(snapshot)
      case ActAsked(_, _, Got(Completed(Some(next)))) => Some(next)
      case _ => Latest(Before(log))
  }

  /** Errors that end the agent's control. */
  predicate EndsControl(code: Code) {
    code == HumanTakeover || code == HumanVerification || code == LeaseLost || code == ProjectNotActive
  }

  /** The act whose outcome is unknown and not settled since, with its id. */
  function UnknownAct(log: Log): Option<(Wire, OpId)> {
    if log == [] then None
    else
      match Last(log)
      case ActAsked(id, wire, Failed(code)) =>
        if code == Interrupted then UnknownAct(Before(log))
        else if code == StaleSnapshot || EndsControl(code) then None
        else Some((wire, id))
      case ActAsked(_, _, Got(_)) => None
      case ReleaseAsked(_, _) => None
      case ReleasedLocally => None
      case _ => UnknownAct(Before(log))
  }

  /** The acquisition neither confirmed nor refused so far. */
  function OpenAcquire(log: Log): Option<OpId> {
    if log == [] then None
    else
      match Last(log)
      case AcquireAsked(id, None) => None
      case AcquireAsked(id, Some(code)) => if EndsControl(code) then None else Some(id)
      case StatusAsked(Got(status)) => if status.agentHasControl then None else OpenAcquire(Before(log))
      case ReleaseAsked(_, _) => None
      case ReleasedLocally => None
      case _ => OpenAcquire(Before(log))
  }

  /** The release not confirmed so far. */
  function OpenRelease(log: Log): Option<OpId> {
    if log == [] then None
    else if Last(log).ReleaseAsked? then if Last(log).confirmed then None else Some(Last(log).id)
    else OpenRelease(Before(log))
  }

  /** The agent holds its seat, as far as the exchanges tell. */
  predicate Holds(log: Log) {
    log != [] &&
    match Last(log)
    case StatusAsked(Got(status)) => UnderAgentControl(status)
    case AcquireAsked(_, None) => true
    case ActAsked(_, _, Failed(code)) => !EndsControl(code) && Holds(Before(log))
    case ReleaseAsked(_, _) => false
    case ReleasedLocally => false
    case _ => Holds(Before(log))
  }

  /** The agent has had control since the last confirmed release. */
  predicate OwesRelease(log: Log) {
    log != [] &&
    match Last(log)
    case StatusAsked(Got(status)) => status.agentHasControl || OwesRelease(Before(log))
    case AcquireAsked(_, None) => true
    case ReleaseAsked(_, confirmed) => !confirmed
    case _ => OwesRelease(Before(log))
  }

  predicate Uses(e: Exchange, id: OpId) {
    (e.AcquireAsked? || e.ActAsked? || e.ReleaseAsked?) && e.id == id
  }

  predicate Unused(log: Log, id: OpId) {
    forall i | 0 <= i < |log| :: !Uses(log[i], id)
  }

  // ---- Discipline ----

  predicate Challenges(s: Snapshot) {
    exists i | 0 <= i < |s.nodes| :: s.nodes[i].humanCheck
  }

  /** The first node with the given reference. */
  function Find(nodes: seq<Node>, ref: Text): Option<Node> {
    if nodes == [] then None else if nodes[0].ref == ref then Some(nodes[0]) else Find(nodes[1..], ref)
  }

  predicate Matches(s: Snapshot, target: Target, action: Action) {
    var node := Find(s.nodes, target.ref);
    node.Some? && node.value.role == target.role && node.value.name == target.name && action in node.value.actions
  }

  predicate UnderAgentControl(s: Status) {
    s.available && s.seat != Some(UserControlled) && s.agentHasControl
  }

  /** An act follows at once on a status that shows an available seat under the agent's control. It
      names the version and an unprotected node of the latest snapshot, which shows no human check. */
  predicate GroundedAct(log: Log, wire: Wire) {
    && log != [] && Last(log).StatusAsked? && Last(log).status.Got? && UnderAgentControl(Last(log).status.value)
    && (wire.text.Some? <==> wire.action == SetText)
    && Latest(log).Some?
    && Aims(Latest(log).value, wire)
  }

  /** The request names this snapshot's version and one of its unprotected nodes. */
  predicate Aims(s: Snapshot, wire: Wire) {
    && wire.stateVersion == s.stateVersion && !Challenges(s)
    && Matches(s, wire.target, wire.action) && !Find(s.nodes, wire.target.ref).value.isProtected
  }

  /** An act repeats an unknown one under the same id, and takes an unused id otherwise. */
  predicate KeyedAct(log: Log, id: OpId, wire: Wire) {
    var unknown := UnknownAct(log);
    if unknown.Some? && unknown.value.0 == wire then id == unknown.value.1
    else Unused(log, id) && id.Numbered? && id.kind == ForAct(wire.action)
  }

  predicate JustifiedAcquire(log: Log, id: OpId) {
    && log != [] && Last(log).StatusAsked? && Last(log).status.Got?
    && Last(log).status.value.available && !Last(log).status.value.agentHasControl
    && Latest(log).Some?
    && (if OpenAcquire(log).Some? then id == OpenAcquire(log).value else Unused(log, id))
  }

  predicate JustifiedRelease(log: Log, id: OpId) {
    if OpenRelease(log).Some? then id == OpenRelease(log).value else id == Cleanup || Unused(log, id)
  }

  predicate Justified(log: Log, e: Exchange) {
    match e
    case ActAsked(id, wire, _) => GroundedAct(log, wire) && KeyedAct(log, id, wire)
    case AcquireAsked(id, _) => JustifiedAcquire(log, id)
    case ReleaseAsked(id, _) => JustifiedRelease(log, id)
    case _ => true
  }

  predicate Disciplined(log: Log) {
    log == [] || (Disciplined(Before(log)) && Justified(Before(log), Last(log)))
  }

  // ---- What discipline implies ----

  lemma {:induction false} JustifiedAt(log: Log, k: nat)
    requires Disciplined(log) && k < |log|
    ensures Disciplined(log[..k]) && Justified(log[..k], log[k])
  {
    if k < |log| - 1 {
      JustifiedAt(Before(log), k);
      assert Before(log)[..k] == log[..k];
    }
  }

  lemma {:induction false} UnknownActWasSent(log: Log) returns (k: nat)
    requires UnknownAct(log).Some?
    ensures k < |log| && log[k].ActAsked? && log[k].id == UnknownAct(log).value.1 && log[k].wire == UnknownAct(log).value.0
  {
    var e := Last(log);
    if e.ActAsked? && e.result.Failed? && e.result.code != Interrupted {
      k := |log| - 1;
    } else {
      k := UnknownActWasSent(Before(log));
    }
  }

  /** Act ids are idempotency keys: two acts with the same id carry the same request. */
  lemma {:induction false} SameIdSameWire(log: Log, i: nat, j: nat)
    requires Disciplined(log) && i < j < |log|
    requires log[i].ActAsked? && log[j].ActAsked? && log[i].id == log[j].id
    ensures log[i].wire == log[j].wire
    decreases j, i
  {
    JustifiedAt(log, j);
    var before := log[..j];
    var unknown := UnknownAct(before);
    if unknown.Some? && unknown.value.0 == log[j].wire {
      var k := UnknownActWasSent(before);
      if i < k {
        SameIdSameWire(log, i, k);
      } else if k < i {
        SameIdSameWire(log, k, i);
      }
    } else {
      assert Uses(before[i], log[j].id);
    }
  }

  /** What leaves an unknown act unknown. */
  predicate Quiet(e: Exchange) {
    e.StatusAsked? || e.ObserveAsked? || (e.ActAsked? && e.result == Failed(Interrupted))
  }

  lemma {:induction false} UnknownActStays(log: Log, i: nat, j: nat)
    requires i <= j <= |log| && forall k | i <= k < j :: Quiet(log[k])
    ensures UnknownAct(log[..j]) == UnknownAct(log[..i])
    decreases j
  {
    if i < j {
      assert Before(log[..j]) == log[..j - 1] && Last(log[..j]) == log[j - 1];
      UnknownActStays(log, i, j - 1);
    }
  }

  /** An act whose outcome stayed unknown is repeated under its own id: nothing but status requests,
      observations and interrupted acts lying between, the same request has the same id. */
  lemma {:induction false} RetryReusesId(log: Log, i: nat, j: nat)
    requires Disciplined(log) && i < j < |log| && log[i].ActAsked? && log[j].ActAsked?
    requires log[i].result == Failed(HostUnavailable) || log[i].result == Failed(InvalidHostResponse)
    requires forall k | i < k < j :: Quiet(log[k])
    requires log[i].wire == log[j].wire
    ensures log[i].id == log[j].id
  {
    JustifiedAt(log, j);
    UnknownActStays(log, i + 1, j);
    assert Last(log[..i + 1]) == log[i];
  }

  lemma {:induction false} OpenReleaseStays(log: Log, i: nat, j: nat)
    requires i <= j <= |log| && forall k | i <= k < j :: !log[k].ReleaseAsked?
    ensures OpenRelease(log[..j]) == OpenRelease(log[..i])
    decreases j
  {
    if i < j {
      assert Before(log[..j]) == log[..j - 1] && Last(log[..j]) == log[j - 1];
      OpenReleaseStays(log, i, j - 1);
    }
  }

  /** An unconfirmed release is repeated under its own id. */
  lemma {:induction false} ReleaseKeepsId(log: Log, i: nat, j: nat)
    requires Disciplined(log) && i < j < |log| && log[i].ReleaseAsked? && !log[i].confirmed && log[j].ReleaseAsked?
    requires forall k | i < k < j :: !log[k].ReleaseAsked?
    ensures log[i].id == log[j].id
  {
    JustifiedAt(log, j);
    OpenReleaseStays(log, i + 1, j);
    assert Last(log[..i + 1]) == log[i];
  }

  /** What leaves an unresolved acquisition unresolved. */
  predicate LeavesAcquireOpen(e: Exchange) {
    e.ObserveAsked? || (e.StatusAsked? && (e.status.Failed? || !e.status.value.agentHasControl))
  }

  lemma {:induction false} OpenAcquireStays(log: Log, i: nat, j: nat)
    requires i <= j <= |log| && forall k | i <= k < j :: LeavesAcquireOpen(log[k])
    ensures OpenAcquire(log[..j]) == OpenAcquire(log[..i])
    decreases j
  {
    if i < j {
      assert Before(log[..j]) == log[..j - 1] && Last(log[..j]) == log[j - 1];
      OpenAcquireStays(log, i, j - 1);
    }
  }

  /** An acquisition with an unknown outcome is repeated under its own id. */
  lemma {:induction false} AcquireKeepsId(log: Log, i: nat, j: nat)
    requires Disciplined(log) && i < j < |log| && log[i].AcquireAsked? && log[j].AcquireAsked?
    requires log[i].refusal.Some? && !EndsControl(log[i].refusal.value)
    requires forall k | i < k < j :: LeavesAcquireOpen(log[k])
    ensures log[i].id == log[j].id
  {
    JustifiedAt(log, j);
    OpenAcquireStays(log, i + 1, j);
    assert Last(log[..i + 1]) == log[i];
  }
}
