/** What the computer tool does ask of its host, and what it answers: for every call in every session,
    exactly when a request goes out, which one, and how the replies decide the outcome. */
module ComputerProgress {
  import opened ComputerLog
  import opened ComputerTool
  import opened Wrappers

  /** A request with its reply, whatever its operation id; that ids are proper is what discipline says. */
  datatype Ask =
    | ForStatus(status: Reply<Status>)
    | ForSnapshot(seen: Reply<Snapshot>)
    | ForSeat(refusal: Option<Code>)
    | ForAction(wire: Wire, result: Reply<ActResult>)
    | ForHandover(confirmed: bool)
    | NoRequest

  function WithoutId(e: Exchange): Ask {
    match e
    case StatusAsked(status) => ForStatus(status)
    case ObserveAsked(seen) => ForSnapshot(seen)
    case AcquireAsked(_, refusal) => ForSeat(refusal)
    case ActAsked(_, wire, result) => ForAction(wire, result)
    case ReleaseAsked(_, confirmed) => ForHandover(confirmed)
    case ReleasedLocally => NoRequest
  }

  /** The log has grown by exactly these requests. */
  predicate Grown(log: Log, log': Log, asks: seq<Ask>) {
    && |log'| == |log| + |asks| && log <= log'
    && forall i | 0 <= i < |asks| :: WithoutId(log'[|log| + i]) == asks[i]
  }

  lemma GrownBy(log: Log, e: Exchange, ask: Ask)
    requires ask == WithoutId(e)
    ensures Grown(log, log + [e], [ask])
  {
  }

  lemma GrownFurther(a: Log, b: Log, c: Log, first: seq<Ask>, second: seq<Ask>)
    requires Grown(a, b, first) && Grown(b, c, second)
    ensures Grown(a, c, first + second)
  {
    forall i | 0 <= i < |first + second| ensures WithoutId(c[|a| + i]) == (first + second)[i] {
      if i >= |first| {
        assert WithoutId(c[|b| + (i - |first|)]) == second[i - |first|];
      } else {
        assert c[|a| + i] == b[|a| + i];
      }
    }
  }

  /** The seat is neither the user's nor another agent's. */
  predicate Free(reply: Reply<Status>) {
    reply.Got? && reply.value.available && reply.value.seat != Some(UserControlled)
    && (reply.value.seat == Some(AgentControlled) ==> reply.value.agentHasControl)
  }

  predicate Controlled(reply: Reply<Status>) {
    reply.Got? && UnderAgentControl(reply.value)
  }

  predicate Clean(reply: Reply<Snapshot>) {
    reply.Got? && !Challenges(reply.value)
  }

  function Trouble(code: Code): Outcome {
    if code == Interrupted then WasInterrupted else Blocked(HostError(code))
  }

  // ---- One exchange at a time ----

  lemma StatusGrows(m: Memory, reply: Reply<Status>)
    ensures Grown(m.log, AfterStatus(m, reply).log, [ForStatus(reply)])
    ensures AfterStatus(m, reply).releasePending <==> m.releasePending || (reply.Got? && reply.value.agentHasControl)
    ensures Controlled(reply) ==> AfterStatus(m, reply).leaseHeld && AfterStatus(m, reply).snapshot == m.snapshot
  {
    GrownBy(m.log, StatusAsked(reply), ForStatus(reply));
  }

  lemma ReleaseGrows(m: Memory, bestEffort: bool, confirmed: bool)
    ensures var m' := AfterRelease(m, bestEffort, confirmed);
            && Grown(m.log, m'.log, [if m.releasePending then ForHandover(confirmed) else NoRequest])
            && !m'.leaseHeld && m'.snapshot == None && (m'.releasePending <==> m.releasePending && !confirmed)
  {
    var m' := AfterRelease(m, bestEffort, confirmed);
    var e := m'.log[|m.log|];
    assert m'.log == m.log + [e];
    GrownBy(m.log, e, WithoutId(e));
  }

  lemma SnapshotGrows(m: Memory, seen: Reply<Snapshot>, released: bool) returns (asks: seq<Ask>)
    ensures var (m', outcome) := SnapshotStep(m, seen, released);
            && Grown(m.log, m'.log, asks)
            && asks == [ForSnapshot(seen)] + (if seen.Failed? || Clean(seen) then [] else [if m.releasePending then ForHandover(released) else NoRequest])
            && outcome == (if seen.Failed? then Trouble(seen.code) else if Clean(seen) then Observed(seen.value) else Blocked(HumanCheck))
            && (Clean(seen) ==> m'.snapshot == Some(seen.value) && m'.leaseHeld == m.leaseHeld)
            && (seen.Got? && !Clean(seen) ==> m'.snapshot == None && !m'.leaseHeld)
  {
    var asked := AfterObserve(m, seen);
    GrownBy(m.log, ObserveAsked(seen), ForSnapshot(seen));
    asks := [ForSnapshot(seen)];
    if seen.Got? && !Clean(seen) {
      ReleaseGrows(asked, true, released);
      GrownFurther(m.log, asked.log, AfterRelease(asked, true, released).log, asks, [if m.releasePending then ForHandover(released) else NoRequest]);
      asks := asks + [if m.releasePending then ForHandover(released) else NoRequest];
    }
  }

  // ---- Status and observe ----

  /** Exactly a status request goes out, followed by a release if the seat is not free and a release is
      due. The tool is ready exactly if the seat is free. */
  lemma StatusAsks(m: Memory, h: Host) returns (asks: seq<Ask>)
    ensures var (m', outcome) := StatusStep(m, h);
            var due := m.releasePending || (h.status.Got? && h.status.value.agentHasControl);
            && Grown(m.log, m'.log, asks)
            && asks == [ForStatus(h.status)] + (if h.status.Got? && !Free(h.status) && due then [ForHandover(h.released)] else [])
            && (outcome == Ready <==> Free(h.status))
            && (h.status.Failed? ==> outcome == Trouble(h.status.code))
            && (Free(h.status) ==> m' == AfterStatus(m, h.status))
            && (|asks| > 1 ==> !m'.leaseHeld && m'.snapshot == None)
  {
    var asked := AfterStatus(m, h.status);
    StatusGrows(m, h.status);
    asks := [ForStatus(h.status)];
    if h.status.Got? && !Free(h.status) && asked.releasePending {
      ReleaseGrows(asked, true, h.released);
      GrownFurther(m.log, asked.log, AfterRelease(asked, true, h.released).log, asks, [ForHandover(h.released)]);
      asks := asks + [ForHandover(h.released)];
    }
  }

  /** A snapshot is asked for exactly if the seat is free and the arguments are valid. A clean one is
      returned and is the one to act on; one with a human check is not kept, and the seat is let go. */
  lemma ObserveAsks(m: Memory, argumentsValid: bool, h: Host) returns (asks: seq<Ask>)
    ensures var (m', outcome) := ObserveStep(m, argumentsValid, h);
            var looks := Free(h.status) && argumentsValid;
            && Grown(m.log, m'.log, asks) && asks != [] && asks[0] == ForStatus(h.status)
            && (looks <==> ForSnapshot(h.seen) in asks) && (looks ==> asks[1] == ForSnapshot(h.seen))
            && (outcome.Observed? <==> looks && Clean(h.seen))
            && (outcome.Observed? ==> outcome.snapshot == h.seen.value && m'.snapshot == Some(h.seen.value) && |asks| == 2)
            && (looks && h.seen.Got? && !Clean(h.seen) ==>
                  outcome == Blocked(HumanCheck) && m'.snapshot == None && !m'.leaseHeld)
            && (looks && h.seen.Failed? ==> outcome == Trouble(h.seen.code))
            && (Free(h.status) && !argumentsValid ==> outcome == Blocked(InvalidArguments))
  {
    asks := StatusAsks(m, h);
    if Free(h.status) && argumentsValid {
      var asked := AfterStatus(m, h.status);
      var more := SnapshotGrows(asked, h.seen, h.released);
      GrownFurther(m.log, asked.log, SnapshotStep(asked, h.seen, h.released).0.log, asks, more);
      asks := asks + more;
    }
  }

  // ---- Acquire ----

  /** The seat is asked for exactly if there is a snapshot and the seat is free but not yet the tool's. It
      is acquired exactly if the host does not refuse, or if the tool turns out to hold it already. */
  lemma AcquireAsks(m: Memory, h: Host) returns (asks: seq<Ask>)
    ensures var (m', outcome) := AcquireStep(m, h);
            var wants := m.snapshot.Some? && Free(h.status) && !h.status.value.agentHasControl;
            && Grown(m.log, m'.log, asks)
            && asks == (if m.snapshot.None? then [] else [ForStatus(h.status)]) + (if wants then [ForSeat(h.refusal)] else [])
            && (outcome == Acquired(false) <==> wants && h.refusal.None?)
            && (outcome == Acquired(true) <==> m.snapshot.Some? && Free(h.status) && h.status.value.agentHasControl)
            && (outcome.Acquired? ==> m'.leaseHeld && m'.releasePending)
            && (m.snapshot.None? ==> outcome == Blocked(ObserveRequired))
            && (wants && h.refusal.Some? ==>
                  && !m'.leaseHeld
                  && outcome == if h.refusal.value == Interrupted then WasInterrupted
                                else if EndsControl(h.refusal.value) then Blocked(HostError(h.refusal.value)) else Blocked(AcquireOutcomeUnknown))
  {
    asks := [];
    if m.snapshot.Some? {
      var asked := AfterStatus(m, h.status);
      StatusGrows(m, h.status);
      asks := [ForStatus(h.status)];
      if Free(h.status) && !h.status.value.agentHasControl {
        GrownBy(asked.log, AcquireAsked(AcquireId(asked), h.refusal), ForSeat(h.refusal));
        GrownFurther(m.log, asked.log, AfterAcquire(asked, h.refusal).log, asks, [ForSeat(h.refusal)]);
        asks := asks + [ForSeat(h.refusal)];
      }
    }
  }

  // ---- Looking again ----

  /** After a stale target the tool looks again: a status, and a snapshot exactly if it is in control. */
  lemma RefreshAsks(m: Memory, h: Host) returns (asks: seq<Ask>)
    ensures var (m', outcome) := RefreshStep(m, h);
            && Grown(m.log, m'.log, asks) && asks != [] && asks[0] == ForStatus(h.laterStatus)
            && (forall a <- asks :: !a.ForAction? && !a.ForSeat?)
            && (ForSnapshot(h.laterSeen) in asks <==> Controlled(h.laterStatus))
            && (outcome == Blocked(StaleTarget) <==> Controlled(h.laterStatus) && Clean(h.laterSeen))
            && m'.snapshot == (if outcome == Blocked(StaleTarget) then Some(h.laterSeen.value) else if h.laterStatus.Got? then m'.snapshot else None)
            && (Controlled(h.laterStatus) && !Clean(h.laterSeen) ==> m'.snapshot == None)
  {
    var asked := AfterStatus(m, h.laterStatus);
    StatusGrows(m, h.laterStatus);
    asks := [ForStatus(h.laterStatus)];
    if Controlled(h.laterStatus) {
      var more := SnapshotGrows(asked, h.laterSeen, h.released);
      GrownFurther(m.log, asked.log, SnapshotStep(asked, h.laterSeen, h.released).0.log, asks, more);
      asks := asks + more;
    }
  }

  // ---- Act ----

  /** The target is what the snapshot shows, and may be acted on. */
  predicate Fits(s: Snapshot, action: Action, target: Target, text: Option<Text>) {
    && Matches(s, target, action) && !Find(s.nodes, target.ref).value.isProtected
    && (action == SetText ==> text.Some?)
  }

  /** All that has to hold for an act to be sent. */
  predicate Ripe(m: Memory, action: Action, target: Option<Target>, text: Option<Text>, h: Host) {
    && m.leaseHeld && m.snapshot.Some? && target.Some? && Controlled(h.status)
    && Fits(m.snapshot.value, action, target.value, text)
  }

  function WireOf(s: Snapshot, action: Action, target: Target, text: Option<Text>): Wire {
    Wire(s.stateVersion, target, action, if action == SetText then text else None)
  }

  /** How an answered act ends, when the tool need not look again. */
  function ActEnds(result: Reply<ActResult>): Outcome {
    match result
    case Got(Completed(next)) => if next.Some? && Challenges(next.value) then Blocked(HumanCheck) else Done(next)
    case Got(Rejected(code)) => Blocked(if code == HostUnavailable then ActionRejected else HostError(code))
    case Failed(code) =>
      if code == Interrupted then WasInterrupted
      else if EndsControl(code) then Blocked(HostError(code)) else Blocked(ActionOutcomeUnknown)
  }

  predicate IsStale(result: Reply<ActResult>) {
    result == Failed(StaleSnapshot) || result == Got(Rejected(StaleSnapshot))
  }

  /** What follows on an answered act: a look again if the target was stale, a release if control is to be
      given back, otherwise nothing. */
  lemma FollowAsks(acted: Memory, h: Host) returns (asks: seq<Ask>)
    ensures var (m', outcome) := FollowUp(acted, h);
            && Grown(acted.log, m'.log, asks)
            && (forall a <- asks :: !a.ForAction? && !a.ForSeat?)
            && (if IsStale(h.result) then asks != [] && asks[0] == ForStatus(h.laterStatus) else outcome == ActEnds(h.result))
            && (outcome.Done? ==> asks == [] && m' == acted)
            && (outcome == Blocked(HumanCheck) ==> !m'.leaseHeld && m'.snapshot == None)
  {
    if IsStale(h.result) {
      asks := RefreshAsks(acted, h);
      HumanCheckEnds(acted, h);
    } else {
      asks := SettledAsks(acted, h);
    }
  }

  /** Answers that end the agent's control. */
  predicate EndsIt(result: Reply<ActResult>) {
    match result
    case Got(Completed(next)) => next.Some? && Challenges(next.value)
    case Got(Rejected(_)) => false
    case Failed(code) => EndsControl(code)
  }

  lemma SettledAsks(acted: Memory, h: Host) returns (asks: seq<Ask>)
    requires !IsStale(h.result)
    ensures var (m', outcome) := FollowUp(acted, h);
            && outcome == ActEnds(h.result) && Grown(acted.log, m'.log, asks)
            && asks == (if EndsIt(h.result) then [if acted.releasePending then ForHandover(h.released) else NoRequest] else [])
            && (if EndsIt(h.result) then !m'.leaseHeld && m'.snapshot == None else m' == acted)
  {
    asks := [];
    if EndsIt(h.result) {
      ReleaseGrows(acted, true, h.released);
      asks := [if acted.releasePending then ForHandover(h.released) else NoRequest];
    }
  }

  lemma HumanCheckEnds(m: Memory, h: Host)
    ensures RefreshStep(m, h).1 == Blocked(HumanCheck) ==> !RefreshStep(m, h).0.leaseHeld && RefreshStep(m, h).0.snapshot == None
  {
    if Controlled(h.laterStatus) {
      var _ := SnapshotGrows(AfterStatus(m, h.laterStatus), h.laterSeen, h.released);
    }
  }

  lemma ActedMemory(m: Memory, wire: Wire, result: Reply<ActResult>)
    ensures var acted := AfterAct(m, wire, result);
            && Grown(m.log, acted.log, [ForAction(wire, result)])
            && (result.Got? && result.value.Completed? ==>
                  acted.leaseHeld == m.leaseHeld
                  && acted.snapshot == if result.value.next.Some? && Challenges(result.value.next.value) then None else result.value.next)
  {
    GrownBy(m.log, ActAsked(ActId(m, wire), wire, result), ForAction(wire, result));
  }

  lemma SendAsks(m: Memory, wire: Wire, h: Host) returns (asks: seq<Ask>)
    ensures var (m', outcome) := SendAct(m, wire, h);
            && Grown(m.log, m'.log, asks) && asks != [] && asks[0] == ForAction(wire, h.result)
            && (if IsStale(h.result) then |asks| > 1 && asks[1] == ForStatus(h.laterStatus) else outcome == ActEnds(h.result))
            && (outcome.Done? ==> |asks| == 1 && m'.snapshot == outcome.next && m'.leaseHeld == m.leaseHeld)
  {
    var acted := AfterAct(m, wire, h.result);
    ActedMemory(m, wire, h.result);
    var more := FollowAsks(acted, h);
    asks := [ForAction(wire, h.result)] + more;
    GrownFurther(m.log, acted.log, FollowUp(acted, h).0.log, [ForAction(wire, h.result)], more);
    if FollowUp(acted, h).1.Done? {
      assert h.result == Got(Completed(FollowUp(acted, h).1.next));
    }
  }

  /** An act is sent if and only if the tool holds its lease and a snapshot, a status just read shows it
      in control, and the target is in that snapshot exactly as named, unprotected, with a text if one is
      to be set. It is then the second request of the call, names that snapshot's version, and its answer
      decides the outcome: completed without a human check it is done. */
  lemma ActAsks(m: Memory, action: Action, target: Option<Target>, text: Option<Text>, h: Host) returns (asks: seq<Ask>)
    ensures var (m', outcome) := ActStep(m, action, target, text, h);
            && Grown(m.log, m'.log, asks)
            && (Ripe(m, action, target, text, h) <==> exists i | 0 <= i < |asks| :: asks[i].ForAction?)
            && (Ripe(m, action, target, text, h) ==>
                  && |asks| >= 2 && asks[0] == ForStatus(h.status)
                  && asks[1] == ForAction(WireOf(m.snapshot.value, action, target.value, text), h.result)
                  && (!IsStale(h.result) ==> outcome == ActEnds(h.result))
                  && (outcome.Done? ==> |asks| == 2 && m'.snapshot == outcome.next && m'.leaseHeld))
  {
    asks := [];
    if m.leaseHeld && m.snapshot.Some? && target.Some? {
      if Controlled(h.status) {
        asks := ControlledAsks(m, action, target.value, text, h);
      } else {
        asks := BlockedAsks(m, h);
      }
    }
  }

  /** The tool is not, or no longer, in control. */
  lemma BlockedAsks(m: Memory, h: Host) returns (asks: seq<Ask>)
    requires !Controlled(h.status)
    ensures var asked := AfterStatus(m, h.status);
            && Grown(m.log, (if h.status.Failed? then asked else ReleaseIfPending(asked, h.released)).log, asks)
            && forall i | 0 <= i < |asks| :: !asks[i].ForAction?
  {
    var asked := AfterStatus(m, h.status);
    StatusGrows(m, h.status);
    asks := [ForStatus(h.status)];
    if h.status.Got? && asked.releasePending {
      ReleaseGrows(asked, true, h.released);
      GrownFurther(m.log, asked.log, AfterRelease(asked, true, h.released).log, asks, [ForHandover(h.released)]);
      asks := asks + [ForHandover(h.released)];
    }
  }

  lemma ControlledAsks(m: Memory, action: Action, target: Target, text: Option<Text>, h: Host) returns (asks: seq<Ask>)
    requires m.snapshot.Some? && Controlled(h.status)
    ensures var s := m.snapshot.value;
            var (m', outcome) := AimStep(AfterStatus(m, h.status), s, action, target, text, h);
            && Grown(m.log, m'.log, asks)
            && (Fits(s, action, target, text) <==> exists i | 0 <= i < |asks| :: asks[i].ForAction?)
            && (Fits(s, action, target, text) ==>
                  && |asks| >= 2 && asks[0] == ForStatus(h.status) && asks[1] == ForAction(WireOf(s, action, target, text), h.result)
                  && (!IsStale(h.result) ==> outcome == ActEnds(h.result))
                  && (outcome.Done? ==> |asks| == 2 && m'.snapshot == outcome.next && m'.leaseHeld))
  {
    var asked := AfterStatus(m, h.status);
    StatusGrows(m, h.status);
    var more := AimAsks(asked, m.snapshot.value, action, target, text, h);
    GrownFurther(m.log, asked.log, AimStep(asked, m.snapshot.value, action, target, text, h).0.log, [ForStatus(h.status)], more);
    asks := [ForStatus(h.status)] + more;
    if Fits(m.snapshot.value, action, target, text) {
      assert asks[1].ForAction?;
    }
  }

  lemma AimAsks(m: Memory, s: Snapshot, action: Action, target: Target, text: Option<Text>, h: Host) returns (asks: seq<Ask>)
    ensures var (m', outcome) := AimStep(m, s, action, target, text, h);
            && Grown(m.log, m'.log, asks)
            && (Fits(s, action, target, text) ==>
                  && asks != [] && asks[0] == ForAction(WireOf(s, action, target, text), h.result)
                  && (!IsStale(h.result) ==> outcome == ActEnds(h.result))
                  && (outcome.Done? ==> |asks| == 1 && m'.snapshot == outcome.next && m'.leaseHeld == m.leaseHeld))
            && (!Fits(s, action, target, text) ==> forall a <- asks :: !a.ForAction?)
  {
    asks := [];
    if !Matches(s, target, action) {
      asks := RefreshAsks(m, h);
    } else if Find(s.nodes, target.ref).value.isProtected {
      ReleaseGrows(m, true, h.released);
      asks := [if m.releasePending then ForHandover(h.released) else NoRequest];
    } else if Fits(s, action, target, text) {
      asks := SendAsks(m, WireOf(s, action, target, text), h);
    }
  }

  /** What an act comes to that is not sent for want of control: it is refused without any request while
      the lease, a snapshot or a target is missing, and a tool not in control gives back what it owes. */
  lemma ActNeedsControl(m: Memory, action: Action, target: Option<Target>, text: Option<Text>, h: Host)
    requires !(m.leaseHeld && m.snapshot.Some? && target.Some? && Controlled(h.status))
    ensures var (m', outcome) := ActStep(m, action, target, text, h);
            if !m.leaseHeld || m.snapshot.None? || target.None? then
              m' == m && outcome == Blocked(if !m.leaseHeld then LeaseRequired else if m.snapshot.None? then ObserveRequired else InvalidArguments)
            else if h.status.Failed? then Grown(m.log, m'.log, [ForStatus(h.status)]) && outcome == Trouble(h.status.code)
            else outcome.Blocked? && !m'.leaseHeld && (m.releasePending ==> Grown(m.log, m'.log, [ForStatus(h.status), ForHandover(h.released)]))
  {
    StatusGrows(m, h.status);
    if m.leaseHeld && m.snapshot.Some? && target.Some? && h.status.Got? && AfterStatus(m, h.status).releasePending {
      ReleaseGrows(AfterStatus(m, h.status), true, h.released);
      HandedBack(m, AfterStatus(m, h.status), h);
    }
  }

  /** In control, a target that is not as named makes the tool look again, a protected one makes it let go,
      and a missing text is refused. */
  lemma ActNeedsTarget(m: Memory, action: Action, target: Target, text: Option<Text>, h: Host)
    requires m.leaseHeld && m.snapshot.Some? && Controlled(h.status) && !Fits(m.snapshot.value, action, target, text)
    ensures var (m', outcome) := ActStep(m, action, Some(target), text, h);
            var s := m.snapshot.value;
            if !Matches(s, target, action) then |m'.log| >= |m.log| + 2 && WithoutId(m'.log[|m.log| + 1]) == ForStatus(h.laterStatus)
            else if Find(s.nodes, target.ref).value.isProtected then
              outcome == Blocked(ProtectedInput) && !m'.leaseHeld && Grown(m.log, m'.log, [ForStatus(h.status), ForHandover(h.released)])
            else outcome == Blocked(InvalidArguments) && Grown(m.log, m'.log, [ForStatus(h.status)])
  {
    var asked := AfterStatus(m, h.status);
    StatusGrows(m, h.status);
    if !Matches(m.snapshot.value, target, action) {
      var more := RefreshAsks(asked, h);
      GrownFurther(m.log, asked.log, RefreshStep(asked, h).0.log, [ForStatus(h.status)], more);
    } else if Find(m.snapshot.value.nodes, target.ref).value.isProtected {
      ReleaseGrows(asked, true, h.released);
      HandedBack(m, asked, h);
    }
  }

  lemma HandedBack(m: Memory, asked: Memory, h: Host)
    requires asked == AfterStatus(m, h.status) && asked.releasePending
    ensures Grown(m.log, AfterRelease(asked, true, h.released).log, [ForStatus(h.status), ForHandover(h.released)])
  {
    StatusGrows(m, h.status);
    ReleaseGrows(asked, true, h.released);
    GrownFurther(m.log, asked.log, AfterRelease(asked, true, h.released).log, [ForStatus(h.status)], [ForHandover(h.released)]);
    assert [ForStatus(h.status)] + [ForHandover(h.released)] == [ForStatus(h.status), ForHandover(h.released)];
  }

  /** A release asked for by the model goes out exactly if one is due, and succeeds exactly if none is or
      the host confirms; the tool has let go in any case. */
  lemma ReleaseAsks(m: Memory, h: Host)
    ensures var (m', outcome) := CallStep(m, WantRelease, h);
            && Grown(m.log, m'.log, [if m.releasePending then ForHandover(h.released) else NoRequest])
            && (outcome == Released <==> !m.releasePending || h.released)
            && !m'.leaseHeld && m'.snapshot == None && (m'.releasePending <==> m.releasePending && !h.released)
  {
    ReleaseGrows(m, false, h.released);
  }
}
