/** Host, peer and the two pipes between them, run together.

    A run is any interleaving of session events, timers, aborts, reads, writes and tool endings. Pipes
    are FIFO; a write in the host's chain reaches the pipe whole. A run is honest: no transport
    timeout or write failure, no session failure, no tool task that cancels itself or loses
    containment, and `finish` is called once the terminal checkpoint has been written, with at least
    one provider call made and every requested tool completed. */
module HarborComposition {
  import opened Wrappers
  import opened HarborMetrics
  import opened HarborWire
  import opened HarborStream
  import Session = HarborSession
  import Host = HarborHost
  import Peer = HarborPeer

  /** `emitted` is the last checkpoint put on the write chain and `final` the final frame. */
  datatype World = World(
    session: Session.Session,
    host: Host.Host,
    toPeer: seq<HostFrame>,
    peer: Peer.Peer,
    toHost: seq<PeerFrame>,
    emitted: Option<Partial>,
    final: Option<Final>)

  function Begin(contractMode: bool): World {
    World(Session.Start(contractMode), Host.INITIAL, [], Peer.LISTENING, [Hello], None, None)
  }

  datatype Event =
    | Meter(event: Session.SessionEvent)
    | Dispatch(valid: bool, aborted: bool, admission: Host.Admission)
    | DeadlineTimer(id: nat)
    | AbortSignal(id: nat)
    | HostWrites
    | HostReads
    | PeerReads
    | ToolEnds(end: Peer.ToolEnd)
    | PeerTurns(onCancel: Peer.ToolEnd)
    | Finish(status: CompletionStatus)
    | CloseInput

  /** What an honest run may do next. */
  predicate Enabled(w: World, e: Event) {
    match e
    case Meter(event) =>
      && w.host.phase == Host.Running && !event.Dispatch? && Session.Allowed(w.session, event)
      && SafePartial(Session.Snapshot(Session.Advance(w.session, event).0.now))
    case Dispatch(_, _, _) => w.host.phase == Host.Running && Session.Allowed(w.session, Session.Dispatch)
    case DeadlineTimer(_) => true
    case AbortSignal(_) => true
    case HostWrites => w.host.chain != []
    case HostReads => w.toHost != []
    case PeerReads => w.peer.phase == Peer.Serving && w.peer.inbox == None && w.toPeer != []
    case ToolEnds(end) =>
      && w.peer.phase == Peer.Serving && w.peer.active.Some? && w.peer.active.value.ended == None
      && (end.Returned? || end.RaisedToolError?)
    case PeerTurns(onCancel) => Peer.Ready(w.peer) && !onCancel.ContainmentLost?
    case Finish(_) =>
      && w.host.phase == Host.Running && w.host.active == None && w.host.queue == [] && w.host.chain == []
      && w.emitted == Some(Session.Snapshot(w.session.now))
      && |w.session.now.usage| > 0 && w.session.now.tools.completed == w.session.now.tools.requested
    case CloseInput => true
  }

  function Step(w: World, e: Event): World
    requires Enabled(w, e)
  {
    match e
    case Meter(event) =>
      var (session, emits) := Session.Advance(w.session, event);
      var m := Session.Snapshot(session.now);
      var (host, accepted) := Host.Emit(w.host, m);
      if emits && accepted then w.(session := session, host := host, emitted := Some(m)) else w.(session := session)
    case Dispatch(valid, aborted, admission) =>
      w.(session := Session.Advance(w.session, Session.Dispatch).0,
         host := Host.Enqueue(w.host, valid, aborted, admission).0)
    case DeadlineTimer(id) => w.(host := Host.CancelActive(w.host, id))
    case AbortSignal(id) => w.(host := Host.Abort(w.host, id))
    case HostWrites =>
      var (host, written) := Host.WriteNext(w.host);
      w.(host := host, toPeer := if written.Some? then w.toPeer + [written.value] else w.toPeer)
    case HostReads => w.(host := Host.Receive(w.host, w.toHost[0]), toHost := w.toHost[1..])
    case PeerReads => w.(peer := w.peer.(inbox := Some(w.toPeer[0])), toPeer := w.toPeer[1..])
    case ToolEnds(end) => w.(peer := w.peer.(active := Some(w.peer.active.value.(ended := Some(end)))))
    case PeerTurns(onCancel) =>
      var (peer, out) := Peer.Turn(w.peer, onCancel);
      w.(peer := peer, toHost := w.toHost + out)
    case Finish(status) =>
      var f := Session.FinalOf(w.session.now, status);
      w.(host := Host.Finish(w.host, f).0, final := Some(f))
    case CloseInput => w.(host := Host.Close(w.host))
  }

  /** The one race the protocol loses: the peer has read a cancellation of the active request when
      that request's tool ends in an ordinary error, so it answers neither error nor cancelled. */
  predicate Collides(w: World, e: Event) {
    && e.PeerTurns? && w.peer.active.Some? && w.peer.inbox == Some(Cancel(w.peer.active.value.id))
    && Peer.EndOnCancel(w.peer.active.value, e.onCancel).RaisedToolError?
  }

  predicate SomeSideFailed(w: World) {
    w.host.phase == Host.Failed || w.peer.phase == Peer.Broken
  }

  // ---- The invariant ----

  function Frames(chain: seq<Host.PendingWrite>): seq<HostFrame> {
    if chain == [] then [] else [chain[0].frame] + Frames(chain[1..])
  }

  /** Everything the host has put on its chain and the peer has not consumed. */
  function Stream(w: World): seq<HostFrame> {
    (if w.peer.inbox.Some? then [w.peer.inbox.value] else []) + w.toPeer + Frames(w.host.chain)
  }

  /** The active request has been answered or its cancellation consumed: no cancel of it is in flight. */
  predicate CancelSpent(id: nat, p: Peer.Peer) {
    id in p.seen && p.active.None? && p.late != Some(id)
  }

  /** The control frames owed to the peer for the active call and the end of the session. */
  function Owed(h: Host.Host, p: Peer.Peer, final: Option<Final>): seq<HostFrame> {
    (if h.active.Some? && h.active.value.id !in p.seen then [Request(h.active.value.id)] else [])
    + (if h.active.Some? && h.active.value.cancelSent && !CancelSpent(h.active.value.id, p) then [Cancel(h.active.value.id)] else [])
    + (if final.Some? && p.phase == Peer.Serving then [FinalFrame(final.value)] else [])
  }

  /** The stream's control frames are the owed ones, possibly behind one late cancellation that the
      peer still remembers. */
  predicate ControlsMatch(controls: seq<HostFrame>, h: Host.Host, p: Peer.Peer, final: Option<Final>) {
    || controls == Owed(h, p, final)
    || (&& p.late.Some?
        && (h.active.Some? ==> h.active.value.id != p.late.value)
        && controls == [Cancel(p.late.value)] + Owed(h, p, final))
  }

  predicate IsAnswer(reply: PeerFrame, call: Host.Call, p: Peer.Peer) {
    match reply
    case Result(id, text) => id == call.id && (p.late == Some(id) || call.cancelSent)
    case ToolError(id, text) => id == call.id && (p.late == Some(id) || call.cancelSent)
    case Cancelled(id) => id == call.id && call.cancelSent && p.late != Some(id)
    case _ => false
  }

  /** Exactly one answer is in flight while the active request is consumed and its tool is gone. */
  predicate RepliesMatch(replies: seq<PeerFrame>, h: Host.Host, p: Peer.Peer) {
    if h.active.Some? && h.active.value.id in p.seen && p.active.None?
    then |replies| == 1 && IsAnswer(replies[0], h.active.value, p)
    else replies == []
  }

  predicate PeerMatches(h: Host.Host, p: Peer.Peer) {
    && p.phase != Peer.Broken
    && (p.active.Some? ==>
          && p.phase == Peer.Serving && p.late == None
          && h.active.Some? && h.active.value.id == p.active.value.id && p.active.value.id in p.seen
          && (p.active.value.ended.Some? ==> p.active.value.ended.value.Returned? || p.active.value.ended.value.RaisedToolError?))
    && (forall id <- p.seen :: id <= Host.LastRequest(h))
    && (p.late.Some? ==> p.late.value in p.seen)
    && p.settled + (if p.active.Some? then 1 else 0) <= p.served
    && (p.inbox.Some? ==> p.phase == Peer.Serving)
  }

  predicate ChainMatches(h: Host.Host) {
    && (forall i | 0 <= i < |h.chain| :: h.chain[i].needs == h.phase && (h.phase == Host.Running ==> !h.chain[i].frame.FinalFrame?))
    && (h.phase == Host.Finished ==> h.chain == [])
  }

  ghost predicate SessionMatches(w: World) {
    && Session.Sound(w.session)
    && SafePartial(Session.Snapshot(w.session.now))
    && (w.emitted.Some? ==> Grows(w.emitted.value, Session.Snapshot(w.session.now)))
    && |w.host.requests| + |w.host.queue| <= w.session.dispatched
  }

  predicate MetricsMatch(w: World) {
    && MetricsPass(Stream(w), w.peer.last, w.peer.served)
    && LastAfter(Stream(w), w.peer.last) == w.emitted
    && ServedAfter(Stream(w), w.peer.served) == |w.host.requests|
    && (w.final.None? ==> NoFinal(Stream(w)))
  }

  predicate PhasesMatch(w: World) {
    && w.host.phase != Host.Failed
    && (w.final.Some? <==> w.host.phase == Host.Finishing || w.host.phase == Host.Finished)
    && (w.host.phase == Host.Greeting ==> w.toHost == [Hello] && w.host == Host.INITIAL && w.peer == Peer.LISTENING && w.toPeer == [])
    && (w.peer.phase.Served? ==> w.final == Some(w.peer.phase.final))
  }

  predicate ControlSide(w: World) {
    && PhasesMatch(w)
    && PeerMatches(w.host, w.peer)
    && ChainMatches(w.host)
    && ControlsMatch(Controls(Stream(w)), w.host, w.peer, w.final)
    && (w.host.phase != Host.Greeting ==> RepliesMatch(w.toHost, w.host, w.peer))
  }

  ghost predicate MetricSide(w: World) {
    SessionMatches(w) && MetricsMatch(w)
  }

  ghost predicate Healthy(w: World) {
    Host.HostInvariant(w.host) && ControlSide(w) && MetricSide(w)
  }

  // ---- How the stream moves ----

  lemma {:induction false} FramesAdd(chain: seq<Host.PendingWrite>, write: Host.PendingWrite)
    ensures Frames(chain + [write]) == Frames(chain) + [write.frame]
  {
    if chain != [] {
      FramesAdd(chain[1..], write);
      assert (chain + [write])[1..] == chain[1..] + [write];
    }
  }

  lemma StreamAdd(w: World, h: Host.Host, write: Host.PendingWrite)
    requires h.chain == w.host.chain + [write]
    ensures Stream(w.(host := h)) == Stream(w) + [write.frame]
    ensures Controls(Stream(w.(host := h))) == Controls(Stream(w)) + if write.frame.Checkpoint? then [] else [write.frame]
  {
    FramesAdd(w.host.chain, write);
    ControlsAdd(Stream(w), write.frame);
  }

  /** Putting one more frame on the chain, seen from the metrics. */
  lemma MetricsAdd(w: World, w': World, write: Host.PendingWrite)
    requires MetricsMatch(w) && w.final.None?
    requires w'.host.chain == w.host.chain + [write] && w'.toPeer == w.toPeer && w'.peer == w.peer
    requires MetricsPass([write.frame], w.emitted, |w.host.requests|)
    requires w'.emitted == if write.frame.Checkpoint? then Some(write.frame.metrics) else w.emitted
    requires |w'.host.requests| == |w.host.requests| + if write.frame.Request? then 1 else 0
    requires write.frame.FinalFrame? ==> w'.final.Some?
    ensures MetricsMatch(w')
  {
    FramesAdd(w.host.chain, write);
    assert Stream(w') == Stream(w) + [write.frame];
    AfterAdd(Stream(w), write.frame, w.peer.last, w.peer.served);
    MetricsPassAdd(Stream(w), write.frame, w.peer.last, w.peer.served);
  }

  // ---- The host's moves ----

  /** A running host that has just pumped an idle queue. */
  lemma PumpControls(w: World)
    requires Host.BeforePump(w.host) && w.host.active.None? && ControlSide(w)
    ensures ControlSide(w.(host := Host.Pump(w.host)))
  {
    Host.PumpShape(w.host);
    var h := Host.Pump(w.host);
    if h.active.Some? {
      StreamAdd(w, h, Host.PendingWrite(Request(h.active.value.id), Host.Running));
      assert Owed(w.host, w.peer, w.final) == [];
      assert Owed(h, w.peer, w.final) == [Request(h.active.value.id)];
    } else {
      assert Stream(w.(host := h)) == Stream(w);
    }
  }

  lemma PumpMetrics(w: World)
    requires Host.BeforePump(w.host) && w.host.active.None? && w.final.None? && MetricSide(w)
    ensures MetricSide(w.(host := Host.Pump(w.host)))
  {
    Host.PumpShape(w.host);
    var h := Host.Pump(w.host);
    if h.active.Some? {
      MetricsAdd(w, w.(host := h), Host.PendingWrite(Request(h.active.value.id), Host.Running));
    } else {
      assert Stream(w.(host := h)) == Stream(w);
    }
  }

  lemma PumpHealthy(w: World)
    requires Host.BeforePump(w.host) && w.host.active.None? && ControlSide(w) && MetricSide(w)
    ensures Healthy(w.(host := Host.Pump(w.host)))
  {
    Host.PumpKeeps(w.host);
    PumpControls(w);
    PumpMetrics(w);
  }

  /** The metrics of a session that moved on, before any checkpoint of it is emitted. */
  lemma SessionMoves(w: World, event: Session.SessionEvent)
    requires SessionMatches(w) && Session.Allowed(w.session, event)
    requires SafePartial(Session.Snapshot(Session.Advance(w.session, event).0.now))
    ensures SessionMatches(w.(session := Session.Advance(w.session, event).0))
  {
    Session.AdvanceKeeps(w.session, event);
    if w.emitted.Some? {
      GrowsTransitive(w.emitted.value, Session.Snapshot(w.session.now), Session.Snapshot(Session.Advance(w.session, event).0.now));
    }
  }

  /** A checkpoint of the current session passes behind everything in flight. */
  lemma EmitMetrics(w: World, h: Host.Host)
    requires MetricSide(w) && w.final.None?
    requires h == w.host.(chain := w.host.chain + [Host.PendingWrite(Checkpoint(Session.Snapshot(w.session.now)), Host.Running)])
    ensures MetricSide(w.(host := h, emitted := Some(Session.Snapshot(w.session.now))))
    ensures HostAcceptsPartial(Session.Snapshot(w.session.now))
  {
    var m := Session.Snapshot(w.session.now);
    Session.SnapshotIsValid(w.session);
    CheckpointValidatorsAgree(m, |w.host.requests|);
    MetricsAdd(w, w.(host := h, emitted := Some(m)), Host.PendingWrite(Checkpoint(m), Host.Running));
  }

  lemma EmitControls(w: World, h: Host.Host, m: Partial)
    requires ControlSide(w) && w.host.phase == Host.Running
    requires h == w.host.(chain := w.host.chain + [Host.PendingWrite(Checkpoint(m), Host.Running)])
    ensures ControlSide(w.(host := h, emitted := Some(m)))
  {
    StreamAdd(w, h, Host.PendingWrite(Checkpoint(m), Host.Running));
    assert Stream(w.(host := h, emitted := Some(m))) == Stream(w.(host := h));
  }

  /** The session moved on, and nothing else. */
  lemma SessionOnly(w: World, w1: World)
    requires Healthy(w) && SessionMatches(w1) && w1 == w.(session := w1.session)
    ensures ControlSide(w1) && MetricSide(w1)
  {
    assert Stream(w1) == Stream(w);
  }

  lemma MeterHealthy(w: World, event: Session.SessionEvent)
    requires Healthy(w) && Enabled(w, Meter(event))
    ensures Healthy(Step(w, Meter(event)))
  {
    SessionMoves(w, event);
    var (session, emits) := Session.Advance(w.session, event);
    var w1 := w.(session := session);
    SessionOnly(w, w1);
    if emits {
      CheckpointJoins(w1);
      MeterEmits(w, event);
    }
  }

  /** A running session puts a checkpoint of itself on the chain. */
  lemma CheckpointJoins(w: World)
    requires Host.HostInvariant(w.host) && ControlSide(w) && MetricSide(w) && w.host.phase == Host.Running
    ensures var m := Session.Snapshot(w.session.now);
            var (h, accepted) := Host.Emit(w.host, m);
            accepted && Healthy(w.(host := h, emitted := Some(m)))
  {
    var m := Session.Snapshot(w.session.now);
    var h := w.host.(chain := w.host.chain + [Host.PendingWrite(Checkpoint(m), Host.Running)]);
    EmitAccepted(w, h, m);
    EmitMetrics(w, h);
    EmitControls(w, h, m);
  }

  /** The host takes a snapshot that passes its own check. */
  lemma EmitAccepted(w: World, h: Host.Host, m: Partial)
    requires Host.HostInvariant(w.host) && w.host.phase == Host.Running && SessionMatches(w)
    requires m == Session.Snapshot(w.session.now)
    requires h == w.host.(chain := w.host.chain + [Host.PendingWrite(Checkpoint(m), Host.Running)])
    ensures Host.Emit(w.host, m) == (h, true) && Host.HostInvariant(h)
  {
    Session.SnapshotIsValid(w.session);
  }

  /** The host never refuses a checkpoint of its own session. */
  lemma MeterEmits(w: World, event: Session.SessionEvent)
    requires Healthy(w) && Enabled(w, Meter(event))
    ensures Host.Emit(w.host, Session.Snapshot(Session.Advance(w.session, event).0.now)).1
  {
    Session.AdvanceKeeps(w.session, event);
    Session.SnapshotIsValid(Session.Advance(w.session, event).0);
  }

  /** A host change that touches neither the chain, the requests nor the active call. */
  lemma SettledOnly(w: World, h: Host.Host)
    requires ControlSide(w) && MetricSide(w) && w.host.phase == Host.Running
    requires h == w.host.(settled := h.settled, queue := h.queue, nextId := h.nextId)
    requires |h.requests| + |h.queue| <= w.session.dispatched
    ensures ControlSide(w.(host := h)) && MetricSide(w.(host := h))
  {
    assert Stream(w.(host := h)) == Stream(w);
  }

  /** A new call joins the queue, and an idle host takes it at once. */
  lemma QueueHealthy(w: World, admission: Host.Admission)
    requires Host.HostInvariant(w.host) && w.host.phase == Host.Running && Host.Load(w.host) < Host.MAX_QUEUED_CALLS
    requires ControlSide(w) && MetricSide(w)
    requires |w.host.requests| + |w.host.queue| < w.session.dispatched
    ensures Healthy(w.(host := Host.Pump(Host.Joined(w.host, admission))))
  {
    var joined := Host.Joined(w.host, admission);
    Host.JoinKeeps(w.host, admission);
    SettledOnly(w, joined);
    if joined.active.None? {
      PumpHealthy(w.(host := joined));
    } else {
      assert Host.Pump(joined) == joined;
    }
  }

  lemma OneMoreDispatched(w: World)
    requires ControlSide(w) && MetricSide(w) && Session.Allowed(w.session, Session.Dispatch)
    ensures var w1 := w.(session := w.session.(dispatched := w.session.dispatched + 1));
            ControlSide(w1) && MetricSide(w1)
  {
    assert Stream(w.(session := w.session.(dispatched := w.session.dispatched + 1))) == Stream(w);
  }

  lemma EnqueueHealthy(w: World, valid: bool, aborted: bool, admission: Host.Admission)
    requires Host.HostInvariant(w.host) && ControlSide(w) && MetricSide(w) && w.host.phase == Host.Running
    requires |w.host.requests| + |w.host.queue| < w.session.dispatched
    ensures Healthy(w.(host := Host.Enqueue(w.host, valid, aborted, admission).0))
  {
    if !valid || Host.Load(w.host) >= Host.MAX_QUEUED_CALLS {
    } else if aborted {
      Host.EnqueueKeeps(w.host, valid, aborted, admission);
      SettledOnly(w, Host.Enqueue(w.host, valid, aborted, admission).0);
    } else {
      QueueHealthy(w, admission);
    }
  }

  lemma DispatchHealthy(w: World, valid: bool, aborted: bool, admission: Host.Admission)
    requires Healthy(w) && Enabled(w, Dispatch(valid, aborted, admission))
    ensures Healthy(Step(w, Dispatch(valid, aborted, admission)))
  {
    OneMoreDispatched(w);
    EnqueueHealthy(w.(session := w.session.(dispatched := w.session.dispatched + 1)), valid, aborted, admission);
  }

  lemma CancelControls(w: World, id: nat)
    requires Host.HostInvariant(w.host) && ControlSide(w)
    ensures ControlSide(w.(host := Host.CancelActive(w.host, id)))
  {
    var h := Host.CancelActive(w.host, id);
    if h != w.host {
      StreamAdd(w, h, Host.PendingWrite(Cancel(id), Host.Running));
      assert Owed(h, w.peer, w.final) == Owed(w.host, w.peer, w.final) + [Cancel(id)];
    }
  }

  lemma CancelHealthy(w: World, id: nat)
    requires Healthy(w)
    ensures Healthy(w.(host := Host.CancelActive(w.host, id)))
  {
    var h := Host.CancelActive(w.host, id);
    CancelControls(w, id);
    if h != w.host {
      MetricsAdd(w, w.(host := h), Host.PendingWrite(Cancel(id), Host.Running));
    }
  }

  lemma AbortHealthy(w: World, id: nat)
    requires Healthy(w)
    ensures Healthy(w.(host := Host.Abort(w.host, id)))
  {
    if w.host.active.Some? && w.host.active.value.id == id {
      CancelHealthy(w, id);
    } else if Host.QueueIndex(w.host.queue, id) < |w.host.queue| {
      Host.AbortKeeps(w.host, id);
      SettledOnly(w, Host.Abort(w.host, id));
    }
  }

  lemma WriteHealthy(w: World)
    requires Healthy(w) && w.host.chain != []
    ensures Healthy(Step(w, HostWrites))
  {
    var w' := Step(w, HostWrites);
    assert Stream(w') == Stream(w);
  }

  lemma ReadHealthy(w: World)
    requires Healthy(w) && Enabled(w, PeerReads)
    ensures Healthy(Step(w, PeerReads))
  {
    var w' := Step(w, PeerReads);
    assert Stream(w') == Stream(w);
  }

  /** The metrics in flight do not depend on the host's phase. */
  lemma MetricsStay(w: World, w': World)
    requires MetricSide(w) && Stream(w') == Stream(w)
    requires w' == w.(host := w'.host) && w'.host.requests == w.host.requests && w'.host.queue == w.host.queue
    ensures MetricSide(w')
  {
  }

  lemma SameChain(w: World, h: Host.Host)
    requires h.chain == w.host.chain
    ensures Stream(w.(host := h)) == Stream(w)
  {
  }

  lemma CloseControls(w: World, h: Host.Host)
    requires Host.HostInvariant(w.host) && ControlSide(w) && w.host.phase == Host.Finishing && w.host.chain == []
    requires h == w.host.(phase := Host.Finished)
    ensures Host.HostInvariant(h) && ControlSide(w.(host := h))
  {
    SameChain(w, h);
    assert Owed(h, w.peer, w.final) == Owed(w.host, w.peer, w.final);
  }

  lemma CloseHealthy(w: World)
    requires Healthy(w)
    ensures Healthy(Step(w, CloseInput))
  {
    var h := Host.Close(w.host);
    SameChain(w, h);
    if h != w.host {
      CloseControls(w, h);
    }
    MetricsStay(w, w.(host := h));
  }

  lemma FinishControls(w: World, h: Host.Host, f: Final)
    requires Healthy(w) && w.host.phase == Host.Running && w.host.active == None && w.host.chain == []
    requires h == w.host.(phase := Host.Finishing, chain := [Host.PendingWrite(FinalFrame(f), Host.Finishing)])
    ensures ControlSide(w.(host := h, final := Some(f)))
  {
    StreamAdd(w, h, Host.PendingWrite(FinalFrame(f), Host.Finishing));
    assert Stream(w.(host := h, final := Some(f))) == Stream(w.(host := h));
    assert Owed(w.host, w.peer, w.final) == [];
    assert Owed(h, w.peer, Some(f)) == [FinalFrame(f)];
  }

  lemma FinishMetrics(w: World, w': World, h: Host.Host, status: CompletionStatus, f: Final)
    requires Healthy(w) && Enabled(w, Finish(status)) && f == Session.FinalOf(w.session.now, status)
    requires h == w.host.(phase := Host.Finishing, chain := [Host.PendingWrite(FinalFrame(f), Host.Finishing)])
    requires w' == w.(host := h, final := Some(f))
    ensures MetricSide(w')
  {
    Session.SnapshotIsValid(w.session);
    Session.FinalReconcilesExactly(w.session, status, |w.host.requests|, |w.host.requests|);
    MetricsAdd(w, w', Host.PendingWrite(FinalFrame(f), Host.Finishing));
  }

  lemma FinishHealthy(w: World, status: CompletionStatus)
    requires Healthy(w) && Enabled(w, Finish(status))
    ensures Healthy(Step(w, Finish(status)))
  {
    var f := Session.FinalOf(w.session.now, status);
    Session.SnapshotIsValid(w.session);
    var h := w.host.(phase := Host.Finishing, chain := [Host.PendingWrite(FinalFrame(f), Host.Finishing)]);
    FinishStep(w, status, h, f);
    FinishControls(w, h, f);
    FinishMetrics(w, w.(host := h, final := Some(f)), h, status, f);
  }

  lemma FinishStep(w: World, status: CompletionStatus, h: Host.Host, f: Final)
    requires Host.HostInvariant(w.host) && Enabled(w, Finish(status))
    requires f == Session.FinalOf(w.session.now, status) && HostAcceptsFinal(f)
    requires h == w.host.(phase := Host.Finishing, chain := [Host.PendingWrite(FinalFrame(f), Host.Finishing)])
    ensures Step(w, Finish(status)) == w.(host := h, final := Some(f)) && Host.HostInvariant(h)
  {
  }

  // ---- Replies reach the host ----

  lemma HelloHealthy(w: World)
    requires Healthy(w) && w.host.phase == Host.Greeting && w.toHost != []
    ensures Healthy(Step(w, HostReads))
  {
    var w' := Step(w, HostReads);
    assert Stream(w') == Stream(w);
  }

  function OutcomeOf(reply: PeerFrame): Host.Outcome {
    match reply
    case Result(_, text) => Host.Observed(text)
    case ToolError(_, text) => Host.RemoteFailure(text)
    case _ => Host.Interrupted
  }

  /** The answer in flight is the one the host waits for. */
  lemma AnswerSettles(w: World)
    requires Host.HostInvariant(w.host) && PhasesMatch(w) && RepliesMatch(w.toHost, w.host, w.peer)
    requires w.host.phase != Host.Greeting && w.toHost != []
    ensures w.host.phase == Host.Running && w.host.active.Some? && Answered(w.host.active.value, w.peer)
    ensures Step(w, HostReads) == w.(host := Host.Settle(w.host, OutcomeOf(w.toHost[0])), toHost := [])
  {
  }

  predicate Answered(call: Host.Call, p: Peer.Peer) {
    call.id in p.seen && p.active.None? && (call.cancelSent ==> p.late == Some(call.id) || CancelSpent(call.id, p))
  }

  /** The host between taking the answer and pumping. */
  lemma AnswerTaken(w: World, w1: World, outcome: Host.Outcome)
    requires Healthy(w) && w.host.active.Some? && w.host.phase == Host.Running && Answered(w.host.active.value, w.peer)
    requires w1 == w.(host := w.host.(active := None, settled := w.host.settled + [Host.Settlement(w.host.active.value.id, outcome)]), toHost := [])
    ensures Host.BeforePump(w1.host) && ControlSide(w1) && MetricSide(w1)
  {
    assert Stream(w1) == Stream(w);
    AnswerControls(w, w1);
  }

  /** Once the answer is taken, nothing is owed in either direction. */
  lemma AnswerControls(w: World, w1: World)
    requires Healthy(w) && w.host.active.Some? && w.host.phase == Host.Running && Answered(w.host.active.value, w.peer)
    requires w1 == w.(host := w1.host, toHost := [])
    requires w1.host == w.host.(active := None, settled := w1.host.settled)
    requires Stream(w1) == Stream(w)
    ensures ControlSide(w1)
  {
  }

  lemma AnswerHealthy(w: World)
    requires Healthy(w) && w.host.phase != Host.Greeting && w.toHost != []
    ensures Healthy(Step(w, HostReads))
  {
    AnswerSettles(w);
    var outcome := OutcomeOf(w.toHost[0]);
    var idle := w.host.(active := None, settled := w.host.settled + [Host.Settlement(w.host.active.value.id, outcome)]);
    var w1 := w.(host := idle, toHost := []);
    AnswerTaken(w, w1, outcome);
    PumpHealthy(w1);
  }

  // ---- The peer's turns ----

  lemma StreamHead(w: World)
    requires w.peer.inbox.Some?
    ensures Stream(w) == [w.peer.inbox.value] + (w.toPeer + Frames(w.host.chain))
    ensures Controls(Stream(w)) == (if w.peer.inbox.value.Checkpoint? then [] else [w.peer.inbox.value])
                                   + Controls(w.toPeer + Frames(w.host.chain))
  {
    assert Stream(w)[1..] == w.toPeer + Frames(w.host.chain);
  }

  lemma ControlAtHead(w: World, peer: Peer.Peer)
    requires w.peer.inbox.Some? && !w.peer.inbox.value.Checkpoint? && peer.inbox.None?
    ensures Controls(Stream(w)) == [w.peer.inbox.value] + Controls(Stream(w.(peer := peer)))
  {
    StreamHead(w);
    assert Stream(w.(peer := peer)) == w.toPeer + Frames(w.host.chain);
  }

  /** A cancellation says nothing about metrics. */
  lemma CancelMetrics(w: World, w': World)
    requires MetricSide(w) && w.peer.inbox.Some? && w.peer.inbox.value.Cancel?
    requires w'.peer.inbox.None? && w'.peer.last == w.peer.last && w'.peer.served == w.peer.served
    requires w' == w.(peer := w'.peer, toHost := w'.toHost)
    ensures MetricSide(w')
  {
    StreamHead(w);
    assert Stream(w') == w.toPeer + Frames(w.host.chain);
  }

  lemma SettleTurnHealthy(w: World)
    requires Healthy(w) && w.peer.active.Some? && w.peer.inbox.None? && w.peer.active.value.ended.Some?
    ensures forall onCancel :: Enabled(w, PeerTurns(onCancel)) ==> Healthy(Step(w, PeerTurns(onCancel)))
  {
    var (peer, out) := Peer.SettleTurn(w.peer, w.peer.active.value.id, w.peer.active.value.ended.value);
    var w' := w.(peer := peer, toHost := w.toHost + out);
    assert Stream(w') == Stream(w);
    assert Owed(w'.host, w'.peer, w'.final) == Owed(w.host, w.peer, w.final);
  }

  /** The peer consumes the head of the stream and writes nothing. */
  lemma SilentTurn(w: World, e: Event, peer: Peer.Peer)
    requires Enabled(w, e) && e.PeerTurns? && Peer.Turn(w.peer, e.onCancel) == (peer, [])
    requires w.peer.inbox.Some? && peer.inbox.None?
    ensures Step(w, e) == w.(peer := peer)
    ensures Stream(w.(peer := peer)) == w.toPeer + Frames(w.host.chain)
  {
    assert w.toHost + [] == w.toHost;
  }

  lemma CheckpointTurnHealthy(w: World, onCancel: Peer.ToolEnd)
    requires Healthy(w) && Enabled(w, PeerTurns(onCancel)) && w.peer.inbox.Some? && w.peer.inbox.value.Checkpoint?
    ensures Healthy(Step(w, PeerTurns(onCancel)))
  {
    StreamHead(w);
    var peer := w.peer.(last := Some(w.peer.inbox.value.metrics), inbox := None);
    SilentTurn(w, PeerTurns(onCancel), peer);
    assert Owed(w.host, peer, w.final) == Owed(w.host, w.peer, w.final);
  }

  lemma RequestTurnControls(w: World, peer: Peer.Peer)
    requires Host.HostInvariant(w.host) && ControlSide(w) && w.peer.phase == Peer.Serving && w.peer.active.None?
    requires w.peer.inbox.Some? && w.peer.inbox.value.Request?
    requires var id := w.peer.inbox.value.id;
             peer == w.peer.(active := Some(Peer.Tool(id, None)), seen := w.peer.seen + {id}, late := None,
                             served := w.peer.served + 1, inbox := None)
    requires w.peer.settled <= w.peer.served
    ensures w.peer.inbox.value.id !in w.peer.seen
    ensures ControlSide(w.(peer := peer))
  {
    ControlAtHead(w, peer);
    assert Controls(Stream(w))[0] == Request(w.peer.inbox.value.id);
    assert Owed(w.host, w.peer, w.final)[1..] == Owed(w.host, peer, w.final);
  }

  lemma RequestTurnHealthy(w: World, onCancel: Peer.ToolEnd)
    requires Healthy(w) && Enabled(w, PeerTurns(onCancel)) && w.peer.inbox.Some? && w.peer.inbox.value.Request?
    ensures Healthy(Step(w, PeerTurns(onCancel)))
  {
    StreamHead(w);
    var id := w.peer.inbox.value.id;
    assert Controls(Stream(w))[0] == Request(id);
    var peer := w.peer.(active := Some(Peer.Tool(id, None)), seen := w.peer.seen + {id}, late := None,
                        served := w.peer.served + 1, inbox := None);
    RequestTurnControls(w, peer);
    SilentTurn(w, PeerTurns(onCancel), peer);
    RequestTurnMetrics(w, peer, id);
  }

  lemma RequestTurnMetrics(w: World, peer: Peer.Peer, id: nat)
    requires MetricSide(w) && w.peer.inbox == Some(Request(id))
    requires peer == w.peer.(active := Some(Peer.Tool(id, None)), seen := w.peer.seen + {id}, late := None,
                             served := w.peer.served + 1, inbox := None)
    ensures MetricSide(w.(peer := peer))
  {
    StreamHead(w);
    assert Stream(w.(peer := peer)) == w.toPeer + Frames(w.host.chain);
  }

  lemma LateCancelControls(w: World)
    requires Host.HostInvariant(w.host) && ControlSide(w) && w.peer.phase == Peer.Serving && w.peer.active.None?
    requires w.peer.inbox.Some? && w.peer.inbox.value.Cancel?
    ensures w.peer.late == Some(w.peer.inbox.value.id)
    ensures ControlSide(w.(peer := w.peer.(late := None, inbox := None)))
  {
    var peer := w.peer.(late := None, inbox := None);
    var id := w.peer.inbox.value.id;
    ControlAtHead(w, peer);
    assert Controls(Stream(w))[0] == Cancel(id);
    if Controls(Stream(w)) == Owed(w.host, w.peer, w.final) {
      assert w.host.active.value.id == id && w.peer.late == Some(id);
      assert Owed(w.host, w.peer, w.final)[1..] == Owed(w.host, peer, w.final);
    } else {
      assert Owed(w.host, w.peer, w.final) == Owed(w.host, peer, w.final);
      assert Controls(Stream(w))[1..] == Owed(w.host, w.peer, w.final);
    }
  }

  lemma LateCancelTurnHealthy(w: World, onCancel: Peer.ToolEnd)
    requires Healthy(w) && Enabled(w, PeerTurns(onCancel)) && w.peer.active.None?
    requires w.peer.inbox.Some? && w.peer.inbox.value.Cancel?
    ensures Healthy(Step(w, PeerTurns(onCancel)))
  {
    StreamHead(w);
    LateCancelControls(w);
    SilentTurn(w, PeerTurns(onCancel), w.peer.(late := None, inbox := None));
  }

  /** A request that the peer reads is the active call's. */
  lemma RequestReadIsActive(w: World)
    requires Healthy(w) && w.peer.inbox.Some? && w.peer.inbox.value.Request?
    ensures w.host.active.Some? && w.host.active.value.id == w.peer.inbox.value.id
  {
    StreamHead(w);
    assert Controls(Stream(w))[0] == w.peer.inbox.value;
  }

  /** A cancellation that the peer reads of its active request is one the host has sent. */
  lemma CancelReadWasSent(w: World)
    requires Healthy(w) && w.peer.active.Some? && w.peer.inbox == Some(Cancel(w.peer.active.value.id))
    ensures w.host.active.Some? && w.host.active.value.id == w.peer.active.value.id && w.host.active.value.cancelSent
  {
    StreamHead(w);
    assert Controls(Stream(w))[0] == Cancel(w.peer.active.value.id);
  }

  lemma CancelTurnHealthy(w: World, onCancel: Peer.ToolEnd)
    requires Healthy(w) && Enabled(w, PeerTurns(onCancel)) && !Collides(w, PeerTurns(onCancel))
    requires w.peer.active.Some? && w.peer.inbox.Some? && w.peer.inbox.value.Cancel?
    ensures Healthy(Step(w, PeerTurns(onCancel)))
  {
    StreamHead(w);
    var id := w.peer.inbox.value.id;
    assert Controls(Stream(w))[0] == Cancel(id);
    assert w.peer.active.value.id == id && w.host.active.value.cancelSent;
    var end := Peer.EndOnCancel(w.peer.active.value, onCancel);
    var peer := w.peer.(settled := w.peer.settled + 1, active := None, late := None, inbox := None,
                        answers := w.peer.answers[id := end]);
    var w' := w.(peer := peer, toHost := [Cancelled(id)]);
    assert Step(w, PeerTurns(onCancel)) == w' by {
      assert w.toHost + [Cancelled(id)] == [Cancelled(id)];
    }
    ControlAtHead(w, peer);
    CancelMetrics(w, w');
  }

  lemma FinalTurnHealthy(w: World, onCancel: Peer.ToolEnd)
    requires Healthy(w) && Enabled(w, PeerTurns(onCancel)) && w.peer.inbox.Some? && w.peer.inbox.value.FinalFrame?
    ensures Healthy(Step(w, PeerTurns(onCancel)))
  {
    StreamHead(w);
    var f := w.peer.inbox.value.final;
    assert Controls(Stream(w))[0] == FinalFrame(f);
    assert w.final == Some(f) && w.peer.active.None?;
    assert Stream(w)[1..] == w.toPeer + Frames(w.host.chain) == [];
    SilentTurn(w, PeerTurns(onCancel), w.peer.(phase := Peer.Served(f), inbox := None));
  }

  lemma TurnHealthy(w: World, onCancel: Peer.ToolEnd)
    requires Healthy(w) && Enabled(w, PeerTurns(onCancel)) && !Collides(w, PeerTurns(onCancel))
    ensures Healthy(Step(w, PeerTurns(onCancel)))
  {
    if w.peer.inbox.None? {
      SettleTurnHealthy(w);
    } else {
      match w.peer.inbox.value
      case Checkpoint(_) => CheckpointTurnHealthy(w, onCancel);
      case Request(_) => RequestTurnHealthy(w, onCancel);
      case FinalFrame(_) => FinalTurnHealthy(w, onCancel);
      case Cancel(_) =>
        if w.peer.active.None? { LateCancelTurnHealthy(w, onCancel); } else { CancelTurnHealthy(w, onCancel); }
      case HostError => assert false;
    }
  }

  // ---- Whole runs ----

  lemma BeginControls(w: World, contractMode: bool)
    requires w == Begin(contractMode)
    ensures Host.HostInvariant(w.host) && ControlSide(w)
  {
    assert Stream(w) == [];
  }

  lemma BeginMetrics(w: World, contractMode: bool)
    requires w == Begin(contractMode)
    ensures MetricSide(w)
  {
    Session.StartIsSound(contractMode);
    assert Stream(w) == [];
    assert Session.Snapshot(w.session.now).usage == Usage(0, 0, 0, 0, 0);
  }

  lemma BeginHealthy(contractMode: bool)
    ensures Healthy(Begin(contractMode))
  {
    BeginControls(Begin(contractMode), contractMode);
    BeginMetrics(Begin(contractMode), contractMode);
  }

  lemma StepHealthy(w: World, e: Event)
    requires Healthy(w) && Enabled(w, e) && !Collides(w, e)
    ensures Healthy(Step(w, e))
  {
    match e
    case Meter(event) => MeterHealthy(w, event);
    case Dispatch(valid, aborted, admission) => DispatchHealthy(w, valid, aborted, admission);
    case DeadlineTimer(id) => CancelHealthy(w, id);
    case AbortSignal(id) => AbortHealthy(w, id);
    case HostWrites => WriteHealthy(w);
    case HostReads => if w.host.phase == Host.Greeting { HelloHealthy(w); } else { AnswerHealthy(w); }
    case PeerReads => ReadHealthy(w);
    case ToolEnds(end) =>
      assert Stream(Step(w, e)) == Stream(w);
    case PeerTurns(onCancel) => TurnHealthy(w, onCancel);
    case Finish(status) => FinishHealthy(w, status);
    case CloseInput => CloseHealthy(w);
  }

  // A run is the list of its events, taken from the beginning of a session.

  predicate HonestRun(contractMode: bool, es: seq<Event>)
    decreases |es|, 0
  {
    es == [] ||
    (HonestRun(contractMode, es[..|es| - 1]) && Enabled(After(contractMode, es[..|es| - 1]), es[|es| - 1]))
  }

  function After(contractMode: bool, es: seq<Event>): World
    requires HonestRun(contractMode, es)
    decreases |es|, 1
  {
    if es == [] then Begin(contractMode) else Step(After(contractMode, es[..|es| - 1]), es[|es| - 1])
  }

  predicate CollisionFree(contractMode: bool, es: seq<Event>)
    requires HonestRun(contractMode, es)
  {
    es == [] ||
    (CollisionFree(contractMode, es[..|es| - 1]) && !Collides(After(contractMode, es[..|es| - 1]), es[|es| - 1]))
  }

  lemma FailureStays(w: World, e: Event)
    requires Enabled(w, e) && SomeSideFailed(w)
    ensures SomeSideFailed(Step(w, e))
  {
  }

  lemma CollisionFails(w: World, e: Event)
    requires Enabled(w, e) && Collides(w, e)
    ensures SomeSideFailed(Step(w, e))
  {
  }

  lemma HealthyHasNotFailed(w: World)
    requires Healthy(w)
    ensures !SomeSideFailed(w)
  {
  }

  lemma {:induction false} HealthyRun(contractMode: bool, es: seq<Event>)
    requires HonestRun(contractMode, es)
    ensures SomeSideFailed(After(contractMode, es)) <==> !CollisionFree(contractMode, es)
    ensures CollisionFree(contractMode, es) ==> Healthy(After(contractMode, es))
  {
    if es == [] {
      BeginHealthy(contractMode);
    } else {
      var before, e := es[..|es| - 1], es[|es| - 1];
      var w := After(contractMode, before);
      HealthyRun(contractMode, before);
      if SomeSideFailed(w) {
        FailureStays(w, e);
      } else if Collides(w, e) {
        CollisionFails(w, e);
      } else {
        StepHealthy(w, e);
        HealthyHasNotFailed(Step(w, e));
      }
    }
  }

  lemma DrainedAndFinished(w: World)
    requires Healthy(w)
    ensures w.host.phase == Host.Finished && w.toPeer == [] && w.peer.inbox == None ==>
              w.final.Some? && w.peer.phase == Peer.Served(w.final.value)
  {
  }
}
