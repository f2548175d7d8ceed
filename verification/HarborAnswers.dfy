/** What the callers of a composed run receive: to every requested call exactly what its tool returned or
    raised, or the interruption it was cancelled with. */
module HarborAnswers {
  import opened Wrappers
  import opened HarborMetrics
  import opened HarborWire
  import opened HarborComposition
  import opened HarborOutcomes
  import Session = HarborSession
  import Host = HarborHost
  import Peer = HarborPeer

  // ---- The two sides of a run ----

  /** The host's part of a step. */
  function HostPart(w: World, e: Event): seq<Host.HostEvent>
    requires Enabled(w, e)
  {
    match e
    case Meter(event) =>
      var (session, emits) := Session.Advance(w.session, event);
      if emits then [Host.EmitMetrics(Session.Snapshot(session.now))] else []
    case Dispatch(valid, aborted, admission) => [Host.NewCall(valid, aborted, admission)]
    case DeadlineTimer(id) => [Host.DeadlineTimer(id)]
    case AbortSignal(id) => [Host.AbortSignal(id)]
    case HostWrites => [Host.Write]
    case HostReads => [Host.Arrive(w.toHost[0])]
    case Finish(status) => [Host.FinishRun(Session.FinalOf(w.session.now, status))]
    case CloseInput => [Host.CloseInput]
    case _ => []
  }

  /** What a run looks like to the host. */
  function HostSide(contractMode: bool, es: seq<Event>): seq<Host.HostEvent>
    requires HonestRun(contractMode, es)
  {
    if es == [] then [] else
      var before := es[..|es| - 1];
      HostSide(contractMode, before) + HostPart(After(contractMode, before), es[|es| - 1])
  }

  /** The composed host runs like a host on its own, so all that holds of every host holds of it. */
  lemma {:induction false} HostRunsAlong(contractMode: bool, es: seq<Event>)
    requires HonestRun(contractMode, es)
    ensures After(contractMode, es).host == Host.HostRun(HostSide(contractMode, es))
  {
    if es != [] {
      var before := es[..|es| - 1];
      HostRunsAlong(contractMode, before);
      HostStepsAlong(After(contractMode, before), es[|es| - 1], HostSide(contractMode, before));
    }
  }

  lemma HostStepsAlong(w: World, e: Event, hs: seq<Host.HostEvent>)
    requires Enabled(w, e) && w.host == Host.HostRun(hs)
    ensures Step(w, e).host == Host.HostRun(hs + HostPart(w, e))
  {
    var part := HostPart(w, e);
    if part == [] {
      assert hs + part == hs;
    } else {
      assert part == [part[0]] && (hs + part)[..|hs|] == hs;
      HostStepsOnce(w, e);
    }
  }

  lemma HostStepsOnce(w: World, e: Event)
    requires Enabled(w, e)
    ensures |HostPart(w, e)| <= 1
    ensures Step(w, e).host == if HostPart(w, e) == [] then w.host else Host.HostStep(w.host, HostPart(w, e)[0])
  {
  }

  /** The requests whose cancellation the peer read while their tool was active. */
  function CancelledByPeer(contractMode: bool, es: seq<Event>): set<nat>
    requires HonestRun(contractMode, es)
  {
    if es == [] then {} else
      var before := es[..|es| - 1];
      CancelledByPeer(contractMode, before) + CancelledNow(After(contractMode, before), es[|es| - 1])
  }

  function CancelledNow(w: World, e: Event): set<nat> {
    if e.PeerTurns? && w.peer.active.Some? && w.peer.inbox == Some(Cancel(w.peer.active.value.id))
    then {w.peer.active.value.id} else {}
  }

  /** What the caller of an answered request is owed: what its tool returned or raised, unless the peer
      had cancelled it. */
  function Due(end: Peer.ToolEnd, cancelled: bool): Host.Outcome {
    if cancelled then Host.Interrupted else
      match end
      case Returned(text) => Host.Observed(text)
      case RaisedToolError(text) => Host.RemoteFailure(text)
      case _ => Host.Interrupted
  }

  /** A request ends as it is due; a call that was never requested, by its abort or its context. */
  predicate Truthful(s: Host.Settlement, requests: seq<nat>, answers: map<nat, Peer.ToolEnd>, cancelled: set<nat>) {
    if s.id in requests
    then s.id in answers && s.outcome == Due(answers[s.id], s.id in cancelled)
    else s.outcome == Host.Interrupted || s.outcome == Host.ContextRefused
  }

  predicate ReplyTruthful(reply: PeerFrame, answers: map<nat, Peer.ToolEnd>, cancelled: set<nat>) {
    match reply
    case Result(id, text) => id in answers && id !in cancelled && answers[id] == Peer.Returned(text)
    case ToolError(id, text) => id in answers && id !in cancelled && answers[id] == Peer.RaisedToolError(text)
    case Cancelled(id) => id in answers && id in cancelled
    case _ => true
  }

  /** The frames among a host's events. */
  function Read(hs: seq<Host.HostEvent>): seq<PeerFrame> {
    if hs == [] then [] else
      Read(hs[..|hs| - 1]) + if hs[|hs| - 1].Arrive? then [hs[|hs| - 1].frame] else []
  }

  lemma {:induction false} ArrivedIsRead(hs: seq<Host.HostEvent>, frame: PeerFrame)
    requires Host.Arrive(frame) in hs
    ensures frame in Read(hs)
  {
    if hs[|hs| - 1] != Host.Arrive(frame) {
      ArrivedIsRead(hs[..|hs| - 1], frame);
    }
  }

  // ---- Every reply is true ----

  predicate RepliesTrue(replies: seq<PeerFrame>, answers: map<nat, Peer.ToolEnd>, cancelled: set<nat>) {
    forall i | 0 <= i < |replies| :: ReplyTruthful(replies[i], answers, cancelled)
  }

  predicate PeerFaithful(p: Peer.Peer, requests: seq<nat>, cancelled: set<nat>) {
    && cancelled <= p.answers.Keys <= p.seen
    && (p.active.Some? ==> p.active.value.id in p.seen && p.active.value.id !in p.answers)
    && (forall id <- p.seen :: id in requests)
  }

  predicate AllWanted(cancelled: set<nat>, hs: seq<Host.HostEvent>) {
    forall id <- cancelled :: CancelWanted(id, hs)
  }

  /** Every answer read or on its way is true, and only what the host had to cancel is cancelled. */
  predicate Faithful(w: World, cancelled: set<nat>, hs: seq<Host.HostEvent>) {
    && PeerFaithful(w.peer, w.host.requests, cancelled)
    && RepliesTrue(Read(hs) + w.toHost, w.peer.answers, cancelled)
    && AllWanted(cancelled, hs)
  }

  /** The peer answers its active request: a new entry in its history, one more true reply. */
  lemma AnswerRecorded(p: Peer.Peer, p': Peer.Peer, requests: seq<nat>, replies: seq<PeerFrame>, reply: PeerFrame, cancelled: set<nat>, now: set<nat>)
    requires PeerFaithful(p, requests, cancelled) && RepliesTrue(replies, p.answers, cancelled) && p.active.Some?
    requires var id := p.active.value.id;
             now <= {id} && id in p'.answers && p'.answers == p.answers[id := p'.answers[id]]
    requires p'.active.None? && p'.seen == p.seen && ReplyTruthful(reply, p'.answers, cancelled + now)
    ensures PeerFaithful(p', requests, cancelled + now)
    ensures RepliesTrue(replies + [reply], p'.answers, cancelled + now)
  {
    forall i | 0 <= i < |replies| ensures ReplyTruthful(replies[i], p'.answers, cancelled + now) {
      assert ReplyTruthful(replies[i], p.answers, cancelled);
    }
  }

  /** What one turn of an unbroken peer does to its history. */
  lemma TurnRecords(p: Peer.Peer, onCancel: Peer.ToolEnd, p': Peer.Peer, out: seq<PeerFrame>, now: set<nat>)
    requires Peer.Ready(p) && (p', out) == Peer.Turn(p, onCancel) && p'.phase != Peer.Broken
    requires p.active.Some? && p.active.value.ended.Some? ==> p.active.value.ended.value.Returned? || p.active.value.ended.value.RaisedToolError?
    requires now == if p.active.Some? && p.inbox == Some(Cancel(p.active.value.id)) then {p.active.value.id} else {}
    ensures out == [] ==>
              && now == {} && p'.answers == p.answers
              && ((p'.seen == p.seen && p'.active == p.active)
                  || (p.inbox.Some? && p.inbox.value.Request? && p.inbox.value.id !in p.seen && p'.seen == p.seen + {p.inbox.value.id}
                      && p'.active == Some(Peer.Tool(p.inbox.value.id, None))))
    ensures out != [] ==>
              && |out| == 1 && p.active.Some? && p'.active.None? && p'.seen == p.seen
              && p.active.value.id in p'.answers && p'.answers == p.answers[p.active.value.id := p'.answers[p.active.value.id]]
              && ReplyTruthful(out[0], p'.answers, now)
              && (out[0].Result? ==> out[0].id == p.active.value.id) && (out[0].ToolError? ==> out[0].id == p.active.value.id)
              && (out[0].Cancelled? ==> now == {out[0].id})
  {
  }

  lemma TurnFaithful(w: World, cancelled: set<nat>, hs: seq<Host.HostEvent>, e: Event)
    requires Faithful(w, cancelled, hs) && Enabled(w, e) && e.PeerTurns? && Step(w, e).peer.phase != Peer.Broken
    requires w.peer.active.Some? && w.peer.active.value.ended.Some? ==>
               w.peer.active.value.ended.value.Returned? || w.peer.active.value.ended.value.RaisedToolError?
    requires AllWanted(CancelledNow(w, e), hs)
    requires w.peer.inbox.Some? && w.peer.inbox.value.Request? ==> w.peer.inbox.value.id in w.host.requests
    ensures Faithful(Step(w, e), cancelled + CancelledNow(w, e), hs)
  {
    var (peer, out) := Peer.Turn(w.peer, e.onCancel);
    var now := CancelledNow(w, e);
    TurnRecords(w.peer, e.onCancel, peer, out, now);
    if out == [] {
      assert w.toHost + out == w.toHost && cancelled + now == cancelled;
    } else {
      AnswerRecorded(w.peer, peer, w.host.requests, Read(hs) + w.toHost, out[0], cancelled, now);
      assert Read(hs) + w.toHost + [out[0]] == Read(hs) + (w.toHost + out);
    }
  }

  /** A step in which the peer answers nothing. */
  lemma QuietFaithful(w: World, cancelled: set<nat>, hs: seq<Host.HostEvent>, e: Event)
    requires Faithful(w, cancelled, hs) && Enabled(w, e) && !e.PeerTurns?
    ensures Faithful(Step(w, e), cancelled, hs + HostPart(w, e))
  {
    var w', part := Step(w, e), HostPart(w, e);
    HostStepsOnce(w, e);
    if part == [] {
      assert hs + part == hs;
    } else {
      RequestsGrow(w.host, part[0]);
      assert part == [part[0]] && (hs + part)[..|hs|] == hs;
    }
    assert Read(hs + part) + w'.toHost == Read(hs) + w.toHost;
    assert forall h <- hs :: h in hs + part;
  }

  lemma StepFaithful(w: World, cancelled: set<nat>, hs: seq<Host.HostEvent>, e: Event)
    requires Healthy(w) && Faithful(w, cancelled, hs) && Enabled(w, e)
    requires !SomeSideFailed(Step(w, e))
    requires w.host.active.Some? && w.host.active.value.cancelSent ==> CancelWanted(w.host.active.value.id, hs)
    ensures Faithful(Step(w, e), cancelled + CancelledNow(w, e), hs + HostPart(w, e))
  {
    if e.PeerTurns? {
      assert hs + HostPart(w, e) == hs;
      InboxIsTheHosts(w, e, hs);
      TurnFaithful(w, cancelled, hs, e);
    } else {
      assert cancelled + CancelledNow(w, e) == cancelled;
      QuietFaithful(w, cancelled, hs, e);
    }
  }

  lemma InboxIsTheHosts(w: World, e: Event, hs: seq<Host.HostEvent>)
    requires Healthy(w) && Enabled(w, e)
    requires w.host.active.Some? && w.host.active.value.cancelSent ==> CancelWanted(w.host.active.value.id, hs)
    ensures AllWanted(CancelledNow(w, e), hs)
    ensures w.peer.inbox.Some? && w.peer.inbox.value.Request? ==> w.peer.inbox.value.id in w.host.requests
    ensures w.peer.active.Some? && w.peer.active.value.ended.Some? ==>
              w.peer.active.value.ended.value.Returned? || w.peer.active.value.ended.value.RaisedToolError?
  {
    if CancelledNow(w, e) != {} {
      CancelReadWasSent(w);
    }
    if w.peer.inbox.Some? && w.peer.inbox.value.Request? {
      RequestReadIsActive(w);
      assert w.peer.inbox.value.id == w.host.requests[|w.host.requests| - 1];
    }
  }

  lemma {:induction false} FaithfulRun(contractMode: bool, es: seq<Event>)
    requires HonestRun(contractMode, es) && CollisionFree(contractMode, es)
    ensures Faithful(After(contractMode, es), CancelledByPeer(contractMode, es), HostSide(contractMode, es))
  {
    if es != [] {
      var before := es[..|es| - 1];
      FaithfulRun(contractMode, before);
      HealthyRun(contractMode, before);
      HealthyRun(contractMode, es);
      HostRunsAlong(contractMode, before);
      RunBooks(HostSide(contractMode, before));
      StepFaithful(After(contractMode, before), CancelledByPeer(contractMode, before), HostSide(contractMode, before), es[|es| - 1]);
    }
  }

  /** What a run has brought about, in terms of the host's own events. */
  lemma RunFacts(contractMode: bool, es: seq<Event>, w: World, hs: seq<Host.HostEvent>)
    requires HonestRun(contractMode, es) && CollisionFree(contractMode, es)
    requires w == After(contractMode, es) && hs == HostSide(contractMode, es)
    ensures Faithful(w, CancelledByPeer(contractMode, es), hs)
    ensures forall i | 0 <= i < |w.host.settled| :: Earned(w.host.settled[i], w.host.requests, false, AcceptedCalls(hs), hs)
  {
    FaithfulRun(contractMode, es);
    HealthyRun(contractMode, es);
    HostRunsAlong(contractMode, es);
    RunBooks(hs);
  }

  lemma EarnedIsTruthful(w: World, cancelled: set<nat>, hs: seq<Host.HostEvent>, s: Host.Settlement)
    requires Faithful(w, cancelled, hs) && Earned(s, w.host.requests, false, AcceptedCalls(hs), hs)
    ensures Truthful(s, w.host.requests, w.peer.answers, cancelled)
  {
    if s.id in w.host.requests {
      var frame := match s.outcome
        case Observed(text) => Result(s.id, text)
        case RemoteFailure(text) => ToolError(s.id, text)
        case _ => Cancelled(s.id);
      ArrivedIsRead(hs, frame);
      var i :| 0 <= i < |Read(hs)| && Read(hs)[i] == frame;
      assert (Read(hs) + w.toHost)[i] == frame;
    }
  }

  // ---- The theorems ----

  /** Every call gets what it is due, and no other call's: a request is settled with exactly what the tool
      run for it returned or raised, or as interrupted if the peer cancelled it; a call that was never
      sent can only have been interrupted or refused for its context. */
  lemma ObservationsReachTheirCall(contractMode: bool, es: seq<Event>, i: nat)
    requires HonestRun(contractMode, es) && CollisionFree(contractMode, es)
    ensures var w := After(contractMode, es);
            i < |w.host.settled| ==>
              Truthful(w.host.settled[i], w.host.requests, w.peer.answers, CancelledByPeer(contractMode, es))
  {
    var w, hs := After(contractMode, es), HostSide(contractMode, es);
    RunFacts(contractMode, es, w, hs);
    if i < |w.host.settled| {
      EarnedIsTruthful(w, CancelledByPeer(contractMode, es), hs, w.host.settled[i]);
    }
  }

  /** Nothing answered is kept from its caller: a request that the peer has answered is settled as due as
      soon as the pipe to the host is empty. */
  lemma AnswersAreDelivered(contractMode: bool, es: seq<Event>, id: nat)
    requires HonestRun(contractMode, es) && CollisionFree(contractMode, es)
    ensures var w := After(contractMode, es);
            id in w.peer.answers && w.toHost == [] ==>
              Host.Settlement(id, Due(w.peer.answers[id], id in CancelledByPeer(contractMode, es))) in w.host.settled
  {
    var w := After(contractMode, es);
    if id in w.peer.answers && w.toHost == [] {
      FaithfulRun(contractMode, es);
      HealthyRun(contractMode, es);
      HostRunsAlong(contractMode, es);
      AnsweredIsSettled(w, CancelledByPeer(contractMode, es), HostSide(contractMode, es), id);
      var i :| 0 <= i < |w.host.settled| && w.host.settled[i].id == id;
      ObservationsReachTheirCall(contractMode, es, i);
    }
  }

  lemma AnsweredIsSettled(w: World, cancelled: set<nat>, hs: seq<Host.HostEvent>, id: nat)
    requires Healthy(w) && Faithful(w, cancelled, hs) && w.host == Host.HostRun(hs)
    requires id in w.peer.answers && w.toHost == []
    ensures id in w.host.requests && exists i :: 0 <= i < |w.host.settled| && w.host.settled[i].id == id
  {
    assert Host.Active(w.host, id) == 0;
    RequestedIsSettled(hs, id);
  }

  /** A request of a host that is no longer active has been settled. */
  lemma RequestedIsSettled(hs: seq<Host.HostEvent>, id: nat)
    requires id in Host.HostRun(hs).requests && Host.Active(Host.HostRun(hs), id) == 0
    ensures var settled := Host.HostRun(hs).settled; exists i :: 0 <= i < |settled| && settled[i].id == id
  {
    var h := Host.HostRun(hs);
    RunBooks(hs);
    Host.HostRunKeeps(hs, id);
    forall i | 0 <= i < |h.queue| ensures h.queue[i].id != id {
      QueuedNotRequested(h, i);
    }
    QueuedIffIndexed(h.queue, id);
    SettledSomewhere(h.settled, id);
  }

  lemma {:induction false} SignalsComeFromOutside(contractMode: bool, es: seq<Event>, id: nat)
    requires HonestRun(contractMode, es)
    ensures CancelWanted(id, HostSide(contractMode, es)) ==> AbortSignal(id) in es || DeadlineTimer(id) in es
  {
    if es != [] {
      var before := es[..|es| - 1];
      SignalsComeFromOutside(contractMode, before, id);
      assert es == before + [es[|es| - 1]];
    }
  }

  /** Only what was asked to be cancelled is: a request without an abort or a deadline of its own ends
      with exactly what its tool returned or raised. */
  lemma UndisturbedCallsAreAnswered(contractMode: bool, es: seq<Event>, i: nat)
    requires HonestRun(contractMode, es) && CollisionFree(contractMode, es)
    ensures var w := After(contractMode, es);
            i < |w.host.settled| ==>
              var s := w.host.settled[i];
              s.id in w.host.requests && AbortSignal(s.id) !in es && DeadlineTimer(s.id) !in es ==>
                && s.id in w.peer.answers
                && (s.outcome.Observed? || s.outcome.RemoteFailure?)
                && w.peer.answers[s.id] == (if s.outcome.Observed? then Peer.Returned(s.outcome.text) else Peer.RaisedToolError(s.outcome.text))
  {
    var w, hs := After(contractMode, es), HostSide(contractMode, es);
    RunFacts(contractMode, es, w, hs);
    if i < |w.host.settled| {
      EarnedIsTruthful(w, CancelledByPeer(contractMode, es), hs, w.host.settled[i]);
      SignalsComeFromOutside(contractMode, es, w.host.settled[i].id);
    }
  }
}
