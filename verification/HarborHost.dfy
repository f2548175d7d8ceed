/** HarborHostProtocol (host_runner.ts): one active remote call, a bounded queue behind it, a FIFO
    write chain, and a fail path that settles everything. */
module HarborHost {
  import opened Wrappers
  import opened HarborMetrics
  import opened HarborWire

  const MAX_QUEUED_CALLS := 64

  datatype Phase = Greeting | Running | Finishing | Finished | Failed

  /** What `pump` will find when it takes the call from the queue: its signal may be aborted, and
      requestFrame may refuse its context. */
  datatype Admission = Admitted | SignalAborted | ContextMismatch

  datatype Call = Call(id: nat, admission: Admission, cancelSent: bool)

  /** How a call's promise ends. */
  datatype Outcome = Observed(text: string) | Interrupted | RemoteFailure(text: string) | ContextRefused | SessionFailed

  datatype Settlement = Settlement(id: nat, outcome: Outcome)

  /** A frame waiting in the write chain, and the phase it still needs when its turn comes. */
  datatype PendingWrite = PendingWrite(frame: HostFrame, needs: Phase)

  /** `settled` and `requests` are histories: every promise settled so far, and the id of every
      request frame put on the write chain. */
  datatype Host = Host(
    phase: Phase,
    queue: seq<Call>,
    active: Option<Call>,
    nextId: nat,
    chain: seq<PendingWrite>,
    settled: seq<Settlement>,
    requests: seq<nat>)

  const INITIAL := Host(Greeting, [], None, 1, [], [], [])

  function Load(h: Host): nat {
    |h.queue| + if h.active.Some? then 1 else 0
  }

  // ---- The operations, on values ----

  /** What `fail` does to the calls still queued. */
  function Lost(queue: seq<Call>): seq<Settlement> {
    if queue == [] then [] else Lost(queue[..|queue| - 1]) + [Settlement(queue[|queue| - 1].id, SessionFailed)]
  }

  function Fail(h: Host, notify: bool): Host {
    if h.phase == Failed || h.phase == Finished then h else
      var lost := if h.active.Some? then [Settlement(h.active.value.id, SessionFailed)] else [];
      h.(phase := Failed, queue := [], active := None, settled := h.settled + lost + Lost(h.queue),
         chain := if notify then [PendingWrite(HostError, Failed)] else [])
  }

  function Pump(h: Host): Host
    decreases |h.queue|
  {
    if h.phase != Running || h.active.Some? || h.queue == [] then h else
      var call := h.queue[0];
      var rest := h.(queue := h.queue[1..]);
      match call.admission
      case SignalAborted => Pump(rest.(settled := h.settled + [Settlement(call.id, Interrupted)]))
      case ContextMismatch => Pump(rest.(settled := h.settled + [Settlement(call.id, ContextRefused)]))
      case Admitted =>
        rest.(active := Some(call), requests := h.requests + [call.id],
              chain := h.chain + [PendingWrite(Request(call.id), Running)])
  }

  function Settle(h: Host, outcome: Outcome): Host
    requires h.active.Some?
  {
    Pump(h.(active := None, settled := h.settled + [Settlement(h.active.value.id, outcome)]))
  }

  /** The host between joining the queue and pumping it. */
  function Joined(h: Host, admission: Admission): Host {
    h.(nextId := h.nextId + 1, queue := h.queue + [Call(h.nextId, admission, false)])
  }

  /** None is a rejected promise; the call was never accepted. */
  function Enqueue(h: Host, valid: bool, aborted: bool, admission: Admission): (Host, Option<nat>) {
    if h.phase != Running || !valid || Load(h) >= MAX_QUEUED_CALLS then (h, None) else
      if aborted
      then (h.(nextId := h.nextId + 1, settled := h.settled + [Settlement(h.nextId, Interrupted)]), Some(h.nextId))
      else (Pump(Joined(h, admission)), Some(h.nextId))
  }

  function CancelActive(h: Host, id: nat): Host {
    if h.phase == Running && h.active.Some? && h.active.value.id == id && !h.active.value.cancelSent
    then h.(active := Some(h.active.value.(cancelSent := true)),
            chain := h.chain + [PendingWrite(Cancel(id), Running)])
    else h
  }

  /** Position of the call with this id, or |queue|. */
  function QueueIndex(queue: seq<Call>, id: nat): (i: nat)
    ensures i <= |queue|
    ensures i < |queue| ==> queue[i].id == id
  {
    if queue == [] || queue[0].id == id then 0 else 1 + QueueIndex(queue[1..], id)
  }

  /** abortCall; an id neither active nor queued belongs to a settled call. */
  function Abort(h: Host, id: nat): Host {
    if h.active.Some? && h.active.value.id == id then CancelActive(h, id) else
      var i := QueueIndex(h.queue, id);
      if i < |h.queue|
      then h.(queue := h.queue[..i] + h.queue[i + 1..], settled := h.settled + [Settlement(id, Interrupted)])
      else h
  }

  function Receive(h: Host, frame: PeerFrame): Host {
    if h.phase == Failed || h.phase == Finished then h
    else if frame.Garbled? then Fail(h, true)
    else if h.phase == Greeting then (if frame.Hello? then h.(phase := Running) else Fail(h, true))
    else if h.phase != Running then Fail(h, true)
    else
      var mine := (id: nat) => h.active.Some? && h.active.value.id == id;
      match frame
      case Result(id, text) => if mine(id) then Settle(h, Observed(text)) else Fail(h, true)
      case Cancelled(id) => if mine(id) && h.active.value.cancelSent then Settle(h, Interrupted) else Fail(h, true)
      case ToolError(id, text) => if mine(id) then Settle(h, RemoteFailure(text)) else Fail(h, true)
      case PeerError => Fail(h, false)
      case Hello => Fail(h, true)
  }

  function Emit(h: Host, m: Partial): (Host, bool) {
    if h.phase == Running && HostAcceptsPartial(m)
    then (h.(chain := h.chain + [PendingWrite(Checkpoint(m), Running)]), true)
    else (h, false)
  }

  function Finish(h: Host, f: Final): (Host, bool) {
    if h.phase != Running || h.active.Some? || h.queue != [] || !HostAcceptsFinal(f) then (h, false)
    else (h.(phase := Finishing, chain := h.chain + [PendingWrite(FinalFrame(f), Finishing)]), true)
  }

  /** The head of the write chain takes its turn: it is written, or refused because the phase moved. */
  function WriteNext(h: Host): (Host, Option<HostFrame>) {
    if h.chain == [] then (h, None) else
      var rest := h.(chain := h.chain[1..]);
      if h.chain[0].needs == h.phase then (rest, Some(h.chain[0].frame)) else (Fail(rest, false), None)
  }

  /** The tail of `finish`, once the final frame is written and the input closed. */
  function Close(h: Host): Host {
    if h.phase == Finishing && h.chain == [] then h.(phase := Finished) else h
  }

  /** The protocol object itself. */
  class HarborHostProtocol {
    var phase: Phase
    var queue: seq<Call>
    var active: Option<Call>
    var nextId: nat
    var writeChain: seq<PendingWrite>
    ghost var settled: seq<Settlement>
    ghost var requests: seq<nat>

    ghost function Model(): Host
      reads this
    {
      Host(phase, queue, active, nextId, writeChain, settled, requests)
    }

    constructor ()
      ensures Model() == INITIAL
    {
      phase, queue, active, nextId, writeChain := Greeting, [], None, 1, [];
      settled, requests := [], [];
    }

    method WriteFrame(frame: HostFrame, requiredPhase: Phase)
      modifies this`writeChain
      ensures writeChain == old(writeChain) + [PendingWrite(frame, requiredPhase)]
    {
      writeChain := writeChain + [PendingWrite(frame, requiredPhase)];
    }

    method FailWith(notifyPeer: bool)
      modifies this
      ensures Model() == Fail(old(Model()), notifyPeer)
    {
      if phase == Failed || phase == Finished {
        return;
      }
      phase := Failed;
      if active.Some? {
        settled := settled + [Settlement(active.value.id, SessionFailed)];
        active := None;
      }
      ghost var before := settled;
      for i := 0 to |queue|
        invariant phase == Failed && active == None
        invariant queue == old(queue) && nextId == old(nextId) && requests == old(requests)
        invariant settled == before + Lost(queue[..i])
      {
        assert queue[..i + 1][..i] == queue[..i];
        settled := settled + [Settlement(queue[i].id, SessionFailed)];
      }
      assert queue[..|queue|] == queue;
      queue := [];
      writeChain := if notifyPeer then [PendingWrite(HostError, Failed)] else [];
    }

    method PumpQueue()
      modifies this
      ensures Model() == Pump(old(Model()))
      decreases |queue|
    {
      if phase != Running || active.Some? || queue == [] {
        return;
      }
      var call := queue[0];
      queue := queue[1..];
      match call.admission {
        case SignalAborted =>
          settled := settled + [Settlement(call.id, Interrupted)];
          PumpQueue();
        case ContextMismatch =>
          settled := settled + [Settlement(call.id, ContextRefused)];
          PumpQueue();
        case Admitted =>
          active := Some(call);
          requests := requests + [call.id];
          WriteFrame(Request(call.id), Running);
      }
    }

    method SettleActive(outcome: Outcome)
      requires active.Some?
      modifies this
      ensures Model() == Settle(old(Model()), outcome)
    {
      settled := settled + [Settlement(active.value.id, outcome)];
      active := None;
      PumpQueue();
    }

    method EnqueueCall(valid: bool, aborted: bool, admission: Admission) returns (ticket: Option<nat>)
      modifies this
      ensures (Model(), ticket) == Enqueue(old(Model()), valid, aborted, admission)
    {
      if phase != Running || !valid {
        return None;
      }
      if |queue| + (if active.Some? then 1 else 0) >= MAX_QUEUED_CALLS {
        return None;
      }
      var call := Call(nextId, admission, false);
      nextId := nextId + 1;
      if aborted {
        settled := settled + [Settlement(call.id, Interrupted)];
        return Some(call.id);
      }
      queue := queue + [call];
      PumpQueue();
      return Some(call.id);
    }

    method CancelActiveCall(id: nat)
      modifies this
      ensures Model() == CancelActive(old(Model()), id)
    {
      if phase != Running || active.None? || active.value.id != id || active.value.cancelSent {
        return;
      }
      active := Some(active.value.(cancelSent := true));
      WriteFrame(Cancel(id), Running);
    }

    method AbortCall(id: nat)
      modifies this
      ensures Model() == Abort(old(Model()), id)
    {
      if active.Some? && active.value.id == id {
        CancelActiveCall(id);
        return;
      }
      var index := QueueIndex(queue, id);
      if index < |queue| {
        queue := queue[..index] + queue[index + 1..];
        settled := settled + [Settlement(id, Interrupted)];
      }
    }

    method ReceiveFrame(frame: PeerFrame)
      modifies this
      ensures Model() == Receive(old(Model()), frame)
    {
      if phase == Failed || phase == Finished {
        return;
      }
      if frame.Garbled? {
        FailWith(true);
        return;
      }
      if phase == Greeting {
        if frame.Hello? {
          phase := Running;
        } else {
          FailWith(true);
        }
        return;
      }
      if phase != Running {
        FailWith(true);
        return;
      }
      match frame {
        case Result(id, text) =>
          if active.None? || active.value.id != id { FailWith(true); } else { SettleActive(Observed(text)); }
        case Cancelled(id) =>
          if active.None? || active.value.id != id || !active.value.cancelSent { FailWith(true); }
          else { SettleActive(Interrupted); }
        case ToolError(id, text) =>
          if active.None? || active.value.id != id { FailWith(true); } else { SettleActive(RemoteFailure(text)); }
        case PeerError => FailWith(false);
        case Hello => FailWith(true);
      }
    }

    method EmitCheckpoint(m: Partial) returns (ok: bool)
      modifies this
      ensures (Model(), ok) == Emit(old(Model()), m)
    {
      ok := phase == Running && HostAcceptsPartial(m);
      if ok {
        WriteFrame(Checkpoint(m), Running);
      }
    }

    method BeginFinish(f: Final) returns (ok: bool)
      modifies this
      ensures (Model(), ok) == Finish(old(Model()), f)
    {
      if phase != Running || active.Some? || queue != [] || !HostAcceptsFinal(f) {
        return false;
      }
      phase := Finishing;
      WriteFrame(FinalFrame(f), Finishing);
      return true;
    }
  }

  // ---- What every run keeps, whatever the peer sends ----

  datatype HostEvent =
    | NewCall(valid: bool, aborted: bool, admission: Admission)
    | AbortSignal(id: nat)
    | DeadlineTimer(id: nat)
    | Arrive(frame: PeerFrame)
    | Write
    | EmitMetrics(m: Partial)
    | FinishRun(f: Final)
    | CloseInput
    | Break(notify: bool)

  function HostStep(h: Host, e: HostEvent): Host {
    match e
    case NewCall(valid, aborted, admission) => Enqueue(h, valid, aborted, admission).0
    case AbortSignal(id) => Abort(h, id)
    case DeadlineTimer(id) => CancelActive(h, id)
    case Arrive(frame) => Receive(h, frame)
    case Write => WriteNext(h).0
    case EmitMetrics(m) => Emit(h, m).0
    case FinishRun(f) => Finish(h, f).0
    case CloseInput => Close(h)
    case Break(notify) => Fail(h, notify)
  }

  function HostRun(es: seq<HostEvent>): Host {
    if es == [] then INITIAL else HostStep(HostRun(es[..|es| - 1]), es[|es| - 1])
  }

  /** How often an id stands in a queue, in a settlement history, and anywhere in a host. */
  function Queued(queue: seq<Call>, id: nat): nat {
    if queue == [] then 0 else Queued(queue[..|queue| - 1], id) + if queue[|queue| - 1].id == id then 1 else 0
  }

  function Settled(settled: seq<Settlement>, id: nat): nat {
    if settled == [] then 0 else
      Settled(settled[..|settled| - 1], id) + if settled[|settled| - 1].id == id then 1 else 0
  }

  function Active(h: Host, id: nat): nat {
    if h.active.Some? && h.active.value.id == id then 1 else 0
  }

  function Occurs(h: Host, id: nat): nat {
    Settled(h.settled, id) + Queued(h.queue, id) + Active(h, id)
  }

  predicate Ascending(s: seq<nat>) {
    forall i, j | 0 <= i < j < |s| :: s[i] < s[j]
  }

  predicate QueueAscending(queue: seq<Call>) {
    forall i, j | 0 <= i < j < |queue| :: queue[i].id < queue[j].id
  }

  /** The largest id a request has been sent for, or 0. */
  function LastRequest(h: Host): nat {
    if h.requests == [] then 0 else h.requests[|h.requests| - 1]
  }

  /** Requests went out in the order of their ids, and everything queued comes after them. */
  predicate InOrder(h: Host) {
    && Ascending(h.requests) && QueueAscending(h.queue)
    && (h.queue != [] ==> LastRequest(h) < h.queue[0].id && h.queue[|h.queue| - 1].id < h.nextId)
    && LastRequest(h) < h.nextId
  }

  predicate Shaped(h: Host) {
    && h.nextId >= 1
    && Load(h) <= MAX_QUEUED_CALLS
    && (forall i | 0 <= i < |h.queue| :: !h.queue[i].cancelSent)
    && (h.active.Some? ==> h.requests != [] && LastRequest(h) == h.active.value.id)
  }

  predicate HostInvariant(h: Host) {
    && InOrder(h) && Shaped(h)
    && (h.active.Some? ==> h.phase == Running)
    && (h.active.None? ==> h.queue == [])
  }

  /** The invariant between the two halves of an operation, before `pump` has run. */
  predicate BeforePump(h: Host) {
    InOrder(h) && Shaped(h) && h.phase == Running
  }

  // ---- Order and bounds: every operation keeps the invariant ----

  lemma {:induction false} PumpKeeps(h: Host)
    requires BeforePump(h)
    ensures HostInvariant(Pump(h)) && Pump(h).phase == Running
    decreases |h.queue|
  {
    if h.active.None? && h.queue != [] && !h.queue[0].admission.Admitted? {
      var call := h.queue[0];
      var outcome := if call.admission == SignalAborted then Interrupted else ContextRefused;
      PumpKeeps(h.(queue := h.queue[1..], settled := h.settled + [Settlement(call.id, outcome)]));
    }
  }

  /** `pump` on an idle host either drains the queue without a trace, or sends exactly one request,
      for a call later than any before. */
  lemma {:induction false} PumpShape(h: Host)
    requires BeforePump(h) && h.active.None?
    ensures var h' := Pump(h);
            && h'.phase == Running
            && (if h'.active.None?
                then h'.queue == [] && h'.chain == h.chain && h'.requests == h.requests
                else && !h'.active.value.cancelSent
                     && h'.active.value.id > LastRequest(h)
                     && h'.chain == h.chain + [PendingWrite(Request(h'.active.value.id), Running)]
                     && h'.requests == h.requests + [h'.active.value.id]
                     && |h'.queue| < |h.queue|)
    decreases |h.queue|
  {
    if h.queue != [] && !h.queue[0].admission.Admitted? {
      var call := h.queue[0];
      var outcome := if call.admission == SignalAborted then Interrupted else ContextRefused;
      PumpShape(h.(queue := h.queue[1..], settled := h.settled + [Settlement(call.id, outcome)]));
    }
  }

  lemma JoinKeeps(h: Host, admission: Admission)
    requires HostInvariant(h) && h.phase == Running && Load(h) < MAX_QUEUED_CALLS
    ensures BeforePump(Joined(h, admission))
  {
  }

  lemma EnqueueKeeps(h: Host, valid: bool, aborted: bool, admission: Admission)
    requires HostInvariant(h)
    ensures HostInvariant(Enqueue(h, valid, aborted, admission).0)
  {
    if h.phase == Running && Load(h) < MAX_QUEUED_CALLS {
      JoinKeeps(h, admission);
      PumpKeeps(Joined(h, admission));
    }
  }

  lemma RemovalKeepsOrder(queue: seq<Call>, i: nat)
    requires i < |queue| && QueueAscending(queue)
    requires forall j | 0 <= j < |queue| :: !queue[j].cancelSent
    ensures var rest := queue[..i] + queue[i + 1..];
            && QueueAscending(rest)
            && (forall j | 0 <= j < |rest| :: !rest[j].cancelSent)
            && (rest != [] ==> queue[0].id <= rest[0].id && rest[|rest| - 1].id <= queue[|queue| - 1].id)
  {
    var rest := queue[..i] + queue[i + 1..];
    assert forall j | 0 <= j < |rest| :: rest[j] == if j < i then queue[j] else queue[j + 1];
  }

  lemma ShorterQueueKeeps(h: Host, rest: seq<Call>, settled: seq<Settlement>)
    requires HostInvariant(h) && h.queue != [] && |rest| <= |h.queue|
    requires QueueAscending(rest) && forall j | 0 <= j < |rest| :: !rest[j].cancelSent
    requires rest != [] ==> h.queue[0].id <= rest[0].id && rest[|rest| - 1].id <= h.queue[|h.queue| - 1].id
    ensures HostInvariant(h.(queue := rest, settled := settled))
  {
  }

  lemma LeavingQueueKeeps(h: Host, i: nat, s: Settlement)
    requires HostInvariant(h) && i < |h.queue|
    ensures HostInvariant(h.(queue := h.queue[..i] + h.queue[i + 1..], settled := h.settled + [s]))
  {
    RemovalKeepsOrder(h.queue, i);
    ShorterQueueKeeps(h, h.queue[..i] + h.queue[i + 1..], h.settled + [s]);
  }

  lemma AbortKeeps(h: Host, id: nat)
    requires HostInvariant(h)
    ensures HostInvariant(Abort(h, id))
  {
    if !(h.active.Some? && h.active.value.id == id) {
      var i := QueueIndex(h.queue, id);
      if i < |h.queue| {
        LeavingQueueKeeps(h, i, Settlement(id, Interrupted));
      }
    }
  }

  lemma HostStepKeeps(h: Host, e: HostEvent)
    requires HostInvariant(h)
    ensures HostInvariant(HostStep(h, e))
  {
    match e
    case NewCall(valid, aborted, admission) => EnqueueKeeps(h, valid, aborted, admission);
    case AbortSignal(id) => AbortKeeps(h, id);
    case Arrive(frame) => ReceiveKeeps(h, frame);
    case _ =>
  }

  lemma ReceiveKeeps(h: Host, frame: PeerFrame)
    requires HostInvariant(h)
    ensures HostInvariant(Receive(h, frame))
  {
    if h.active.Some? {
      var idle := h.(active := None);
      var id := h.active.value.id;
      match frame
      case Result(_, text) => PumpKeeps(idle.(settled := h.settled + [Settlement(id, Observed(text))]));
      case Cancelled(_) => PumpKeeps(idle.(settled := h.settled + [Settlement(id, Interrupted)]));
      case ToolError(_, text) => PumpKeeps(idle.(settled := h.settled + [Settlement(id, RemoteFailure(text))]));
      case _ =>
    }
  }

  // ---- The ledger: no operation loses or duplicates an id ----

  lemma {:induction false} QueuedJoin(a: seq<Call>, b: seq<Call>, id: nat)
    ensures Queued(a + b, id) == Queued(a, id) + Queued(b, id)
  {
    if b == [] {
      assert a + b == a;
    } else {
      QueuedJoin(a, b[..|b| - 1], id);
      assert (a + b)[..|a + b| - 1] == a + b[..|b| - 1];
    }
  }

  lemma QueuedWithout(queue: seq<Call>, i: nat, id: nat)
    requires i < |queue|
    ensures Queued(queue, id) == Queued(queue[..i] + queue[i + 1..], id) + if queue[i].id == id then 1 else 0
  {
    assert queue == queue[..i] + ([queue[i]] + queue[i + 1..]);
    QueuedJoin(queue[..i], [queue[i]] + queue[i + 1..], id);
    QueuedJoin([queue[i]], queue[i + 1..], id);
    QueuedJoin(queue[..i], queue[i + 1..], id);
  }

  lemma QueuedHead(queue: seq<Call>, id: nat)
    requires queue != []
    ensures Queued(queue, id) == Queued(queue[1..], id) + if queue[0].id == id then 1 else 0
  {
    QueuedWithout(queue, 0, id);
    assert queue[..0] + queue[1..] == queue[1..];
  }

  lemma SettledAdd(settled: seq<Settlement>, s: Settlement, id: nat)
    ensures Settled(settled + [s], id) == Settled(settled, id) + if s.id == id then 1 else 0
  {
    assert (settled + [s])[..|settled|] == settled;
  }

  lemma {:induction false} SettledLost(settled: seq<Settlement>, queue: seq<Call>, id: nat)
    ensures Settled(settled + Lost(queue), id) == Settled(settled, id) + Queued(queue, id)
  {
    if queue == [] {
      assert settled + Lost(queue) == settled;
    } else {
      var n := |queue| - 1;
      SettledLost(settled, queue[..n], id);
      SettledAdd(settled + Lost(queue[..n]), Settlement(queue[n].id, SessionFailed), id);
      assert settled + Lost(queue) == settled + Lost(queue[..n]) + [Settlement(queue[n].id, SessionFailed)];
    }
  }

  lemma {:induction false} PumpConserves(h: Host, id: nat)
    ensures Occurs(Pump(h), id) == Occurs(h, id) && Pump(h).nextId == h.nextId
    decreases |h.queue|
  {
    if h.phase == Running && h.active.None? && h.queue != [] {
      var call := h.queue[0];
      QueuedHead(h.queue, id);
      if !call.admission.Admitted? {
        var outcome := if call.admission == SignalAborted then Interrupted else ContextRefused;
        SettledAdd(h.settled, Settlement(call.id, outcome), id);
        PumpConserves(h.(queue := h.queue[1..], settled := h.settled + [Settlement(call.id, outcome)]), id);
      }
    }
  }

  lemma FailConserves(h: Host, notify: bool, id: nat)
    ensures Occurs(Fail(h, notify), id) == Occurs(h, id) && Fail(h, notify).nextId == h.nextId
  {
    if h.active.Some? {
      var lost := Settlement(h.active.value.id, SessionFailed);
      SettledAdd(h.settled, lost, id);
      SettledLost(h.settled + [lost], h.queue, id);
    } else {
      SettledLost(h.settled, h.queue, id);
      assert h.settled + [] == h.settled;
    }
  }

  lemma SettleConserves(h: Host, outcome: Outcome, id: nat)
    requires h.active.Some?
    ensures Occurs(Settle(h, outcome), id) == Occurs(h, id) && Settle(h, outcome).nextId == h.nextId
  {
    SettledAdd(h.settled, Settlement(h.active.value.id, outcome), id);
    PumpConserves(h.(active := None, settled := h.settled + [Settlement(h.active.value.id, outcome)]), id);
  }

  lemma EnqueueConserves(h: Host, valid: bool, aborted: bool, admission: Admission, id: nat)
    ensures var (h', ticket) := Enqueue(h, valid, aborted, admission);
            && Occurs(h', id) == Occurs(h, id) + (if ticket == Some(id) then 1 else 0)
            && h'.nextId == h.nextId + (if ticket.Some? then 1 else 0)
            && (ticket.Some? ==> ticket.value == h.nextId)
  {
    if aborted {
      SettledAdd(h.settled, Settlement(h.nextId, Interrupted), id);
    } else {
      var call := Call(h.nextId, admission, false);
      assert (h.queue + [call])[..|h.queue|] == h.queue;
      PumpConserves(Joined(h, admission), id);
    }
  }

  lemma AbortConserves(h: Host, target: nat, id: nat)
    ensures Occurs(Abort(h, target), id) == Occurs(h, id) && Abort(h, target).nextId == h.nextId
  {
    var i := QueueIndex(h.queue, target);
    if i < |h.queue| {
      QueuedWithout(h.queue, i, id);
      SettledAdd(h.settled, Settlement(target, Interrupted), id);
    }
  }

  lemma ReceiveConserves(h: Host, frame: PeerFrame, id: nat)
    ensures Occurs(Receive(h, frame), id) == Occurs(h, id) && Receive(h, frame).nextId == h.nextId
  {
    FailConserves(h, true, id);
    FailConserves(h, false, id);
    if h.active.Some? {
      match frame
      case Result(_, text) => SettleConserves(h, Observed(text), id);
      case Cancelled(_) => SettleConserves(h, Interrupted, id);
      case ToolError(_, text) => SettleConserves(h, RemoteFailure(text), id);
      case _ =>
    }
  }

  lemma StepConserves(h: Host, e: HostEvent, id: nat)
    ensures var h' := HostStep(h, e);
            && h'.nextId >= h.nextId
            && Occurs(h', id) == Occurs(h, id) + (if h.nextId <= id < h'.nextId then 1 else 0)
  {
    match e
    case NewCall(valid, aborted, admission) => EnqueueConserves(h, valid, aborted, admission, id);
    case AbortSignal(target) => AbortConserves(h, target, id);
    case Arrive(frame) => ReceiveConserves(h, frame, id);
    case Write =>
      if h.chain != [] {
        FailConserves(h.(chain := h.chain[1..]), false, id);
      }
    case Break(notify) => FailConserves(h, notify, id);
    case _ =>
  }

  lemma {:induction false} HostRunKeeps(es: seq<HostEvent>, id: nat)
    ensures HostInvariant(HostRun(es))
    ensures Occurs(HostRun(es), id) == if 1 <= id < HostRun(es).nextId then 1 else 0
  {
    if es != [] {
      var h := HostRun(es[..|es| - 1]);
      HostRunKeeps(es[..|es| - 1], id);
      HostStepKeeps(h, es[|es| - 1]);
      StepConserves(h, es[|es| - 1], id);
    }
  }

  // ---- The theorems ----

  /** Whatever the peer, the timers and the callers do: an accepted call is settled at most once, it
      is unsettled only while it is queued or active, and once the session is over every accepted
      call has been settled exactly once. */
  lemma SettledExactlyOnce(es: seq<HostEvent>, id: nat)
    ensures var h := HostRun(es);
            && Settled(h.settled, id) + Queued(h.queue, id) + Active(h, id) == (if 1 <= id < h.nextId then 1 else 0)
            && (h.phase in {Finishing, Finished, Failed} ==>
                  h.queue == [] && h.active == None && Settled(h.settled, id) == if 1 <= id < h.nextId then 1 else 0)
  {
    HostRunKeeps(es, id);
  }

  /** Requests are put on the wire in enqueue order with ids never used before, everything queued
      comes later, and at most 64 calls are accepted and unsettled at a time. */
  lemma RequestsInEnqueueOrder(es: seq<HostEvent>)
    ensures var h := HostRun(es);
            && (forall i, j | 0 <= i < j < |h.requests| :: h.requests[i] < h.requests[j])
            && (forall i, j | 0 <= i < |h.requests| && 0 <= j < |h.queue| :: h.requests[i] < h.queue[j].id)
            && |h.queue| + (if h.active.Some? then 1 else 0) <= 64
  {
    HostRunKeeps(es, 0);
  }

  predicate OverAndDone(h: Host) {
    h.phase == Failed && h.queue == [] && h.active == None
  }

  lemma FailedStepStays(h: Host, e: HostEvent)
    requires HostInvariant(h) && h.phase == Failed
    ensures OverAndDone(HostStep(h, e)) && HostStep(h, e).settled == h.settled
    ensures HostStep(h, e).nextId == h.nextId && HostStep(h, e).requests == h.requests
  {
  }

  /** Once a session has failed it stays failed: no call is pending, none is accepted, none settled
      again and none sent. */
  lemma {:induction false} FailureAbsorbs(es: seq<HostEvent>, k: nat)
    requires k <= |es| && HostRun(es[..k]).phase == Failed
    ensures var failed, last := HostRun(es[..k]), HostRun(es);
            OverAndDone(last) && last.settled == failed.settled && last.nextId == failed.nextId && last.requests == failed.requests
  {
    HostRunKeeps(es, 0);
    if k == |es| {
      assert es[..k] == es;
    } else {
      var before := es[..|es| - 1];
      assert before[..k] == es[..k];
      FailureAbsorbs(before, k);
      HostRunKeeps(before, 0);
      FailedStepStays(HostRun(before), es[|es| - 1]);
    }
  }
}
