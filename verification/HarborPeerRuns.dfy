/** The peer against an arbitrary host: which frames it accepts in the light of everything it has taken
    and answered so far, and what it answers. Nothing is assumed of the frames or of the tools. */
module HarborPeerRuns {
  import opened HarborMetrics
  import opened HarborPeer
  import opened HarborStream
  import opened HarborWire
  import opened Wrappers

  datatype PeerEvent = FrameRead(frame: HostFrame) | ToolEnded(end: ToolEnd) | LoopTurns(onCancel: ToolEnd)

  predicate Enabled(p: Peer, e: PeerEvent) {
    match e
    case FrameRead(_) => p.phase == Serving && p.inbox.None?
    case ToolEnded(_) => p.phase == Serving && p.active.Some? && p.active.value.ended.None?
    case LoopTurns(_) => Ready(p)
  }

  function Step(p: Peer, e: PeerEvent): Peer
    requires Enabled(p, e)
  {
    match e
    case FrameRead(frame) => p.(inbox := Some(frame))
    case ToolEnded(end) => p.(active := Some(p.active.value.(ended := Some(end))))
    case LoopTurns(onCancel) => Turn(p, onCancel).0
  }

  predicate Possible(es: seq<PeerEvent>)
    decreases |es|, 0
  {
    es == [] || (Possible(es[..|es| - 1]) && Enabled(Run(es[..|es| - 1]), es[|es| - 1]))
  }

  function Run(es: seq<PeerEvent>): Peer
    requires Possible(es)
    decreases |es|, 1
  {
    if es == [] then LISTENING else Step(Run(es[..|es| - 1]), es[|es| - 1])
  }

  /** The frames the loop has taken and the answers it has written. */
  function Taken(es: seq<PeerEvent>): seq<HostFrame>
    requires Possible(es)
  {
    if es == [] then [] else
      var before := es[..|es| - 1];
      var p := Run(before);
      if es[|es| - 1].LoopTurns? && p.inbox.Some? then Taken(before) + [p.inbox.value] else Taken(before)
  }

  function Written(es: seq<PeerEvent>): seq<PeerFrame>
    requires Possible(es)
  {
    if es == [] then [] else
      var before := es[..|es| - 1];
      if es[|es| - 1].LoopTurns? then Written(before) + Turn(Run(before), es[|es| - 1].onCancel).1 else Written(before)
  }

  /** The ids requested, in order. */
  function Requested(taken: seq<HostFrame>): seq<nat> {
    if taken == [] then [] else
      var last := taken[|taken| - 1];
      Requested(taken[..|taken| - 1]) + if last.Request? then [last.id] else []
  }

  lemma RequestedAdd(taken: seq<HostFrame>, frame: HostFrame)
    ensures Requested(taken + [frame]) == Requested(taken) + if frame.Request? then [frame.id] else []
  {
    assert (taken + [frame])[..|taken|] == taken;
  }

  predicate AnswerTo(reply: PeerFrame, id: nat) {
    match reply
    case Result(i, _) => i == id
    case ToolError(i, _) => i == id
    case Cancelled(i) => i == id
    case _ => false
  }

  /** The answer says how the tool ended, or that it was cancelled while it ran. */
  predicate Says(reply: PeerFrame, end: ToolEnd, cancelled: bool) {
    match reply
    case Result(_, text) => end == Returned(text)
    case ToolError(_, text) => end == RaisedToolError(text)
    case Cancelled(_) => end.CancelledItself? || (cancelled && end.Returned?)
    case _ => false
  }

  /** Every request taken has been answered. */
  predicate Idle(taken: seq<HostFrame>, written: seq<PeerFrame>) {
    |written| == |Requested(taken)|
  }

  /** The one request that may still be cancelled: the last one, unless it was already cancelled. */
  predicate Cancellable(taken: seq<HostFrame>, written: seq<PeerFrame>, id: nat) {
    && Requested(taken) != [] && id == Requested(taken)[|Requested(taken)| - 1]
    && Cancel(id) !in taken
    && (Idle(taken, written) ==> !written[|written| - 1].Cancelled?)
  }

  /** What a host may send next, judged by what was taken and written before. */
  predicate Legal(taken: seq<HostFrame>, written: seq<PeerFrame>, frame: HostFrame) {
    match frame
    case Request(id) => Idle(taken, written) && id !in Requested(taken)
    case Cancel(id) => Cancellable(taken, written, id)
    case Checkpoint(m) => PeerAcceptsPartial(m, LastAfter(taken, None), |Requested(taken)|)
    case FinalFrame(f) =>
      && Idle(taken, written)
      && PeerAcceptsFinal(f) && Reconciles(f, LastAfter(taken, None), |Requested(taken)|, |written|)
    case HostError => false
  }

  predicate Distinct(ids: seq<nat>) {
    forall i, j | 0 <= i < j < |ids| :: ids[i] != ids[j]
  }

  /** The answers name the first requests in order and say how their tools ended. */
  predicate Answered(ids: seq<nat>, written: seq<PeerFrame>, answers: map<nat, ToolEnd>, taken: seq<HostFrame>) {
    && |written| <= |ids|
    && forall i | 0 <= i < |written| ::
         AnswerTo(written[i], ids[i]) && ids[i] in answers && Says(written[i], answers[ids[i]], Cancel(ids[i]) in taken)
  }

  /** The loop's variables are what the history says. */
  ghost predicate Slots(p: Peer, taken: seq<HostFrame>, written: seq<PeerFrame>) {
    var ids := Requested(taken);
    && |written| == |ids| - (if p.active.Some? then 1 else 0)
    && (forall id :: id in p.seen <==> id in ids)
    && (forall i | 0 <= i < |taken| && taken[i].Cancel? :: taken[i].id in ids)
    && p.served == |ids| && p.settled == |written|
    && p.last == LastAfter(taken, None)
    && (p.active.Some? ==> p.late == None && p.active.value.id == ids[|ids| - 1] && Cancel(p.active.value.id) !in taken)
    && (p.active.None? ==>
          p.late == if ids != [] && Cancellable(taken, written, ids[|ids| - 1]) then Some(ids[|ids| - 1]) else None)
  }

  ghost predicate Tracks(p: Peer, taken: seq<HostFrame>, written: seq<PeerFrame>) {
    && Distinct(Requested(taken)) && Answered(Requested(taken), written, p.answers, taken)
    && Slots(p, taken, written)
  }

  lemma AnsweredMore(ids: seq<nat>, written: seq<PeerFrame>, answers: map<nat, ToolEnd>, taken: seq<HostFrame>, frame: HostFrame)
    requires Answered(ids, written, answers, taken) && Distinct(ids) && (frame.Request? ==> frame.id !in ids)
    ensures var more := ids + if frame.Request? then [frame.id] else [];
            Distinct(more) && Answered(more, written, answers, taken + [frame])
  {
  }

  lemma AnsweredNext(ids: seq<nat>, written: seq<PeerFrame>, answers: map<nat, ToolEnd>, taken: seq<HostFrame>, reply: PeerFrame, end: ToolEnd)
    requires Answered(ids, written, answers, taken) && Distinct(ids) && |written| == |ids| - 1
    requires AnswerTo(reply, ids[|written|]) && Says(reply, end, Cancel(ids[|written|]) in taken)
    ensures Answered(ids, written + [reply], answers[ids[|written|] := end], taken)
  {
  }

  /** How the loop takes a frame in a turn, in the light of the history. */
  predicate TakesAsToldBy(p: Peer, taken: seq<HostFrame>, written: seq<PeerFrame>, onCancel: ToolEnd)
    requires Ready(p) && p.inbox.Some?
  {
    var (p', out) := Turn(p, onCancel);
    var end := if p.active.Some? then EndOnCancel(p.active.value, onCancel) else onCancel;
    var frame := p.inbox.value;
    && (p'.phase != Broken <==>
          Legal(taken, written, frame) && (frame.Cancel? && p.active.Some? ==> end.Returned? || end.CancelledItself?))
    && out == (if p'.phase == Broken then [PeerError] else if frame.Cancel? && p.active.Some? then [Cancelled(frame.id)] else [])
  }

  lemma TakeRequest(p: Peer, taken: seq<HostFrame>, written: seq<PeerFrame>, onCancel: ToolEnd)
    requires Slots(p, taken, written) && Ready(p) && p.inbox.Some? && p.inbox.value.Request?
    ensures var p' := Turn(p, onCancel).0;
            && TakesAsToldBy(p, taken, written, onCancel) && (p'.phase != Broken ==> p'.answers == p.answers)
            && (p'.phase != Broken ==> Slots(p', taken + [p.inbox.value], written))
  {
    RequestedAdd(taken, p.inbox.value);
    AfterAdd(taken, p.inbox.value, None, 0);
  }

  lemma CancelActive(p: Peer, taken: seq<HostFrame>, written: seq<PeerFrame>, onCancel: ToolEnd)
    requires Slots(p, taken, written) && Ready(p) && p.active.Some? && p.inbox.Some? && p.inbox.value.Cancel?
    ensures var p' := Turn(p, onCancel).0;
            && TakesAsToldBy(p, taken, written, onCancel)
            && (p'.phase != Broken ==>
                  && Slots(p', taken + [p.inbox.value], written + [Cancelled(p.active.value.id)])
                  && p'.answers == p.answers[p.active.value.id := EndOnCancel(p.active.value, onCancel)])
  {
    RequestedAdd(taken, p.inbox.value);
    AfterAdd(taken, p.inbox.value, None, 0);
  }

  lemma CancelLate(p: Peer, taken: seq<HostFrame>, written: seq<PeerFrame>, onCancel: ToolEnd)
    requires Slots(p, taken, written) && Ready(p) && p.active.None? && p.inbox.Some? && p.inbox.value.Cancel?
    ensures var p' := Turn(p, onCancel).0;
            && TakesAsToldBy(p, taken, written, onCancel) && (p'.phase != Broken ==> p'.answers == p.answers)
            && (p'.phase != Broken ==> Slots(p', taken + [p.inbox.value], written))
  {
    RequestedAdd(taken, p.inbox.value);
    AfterAdd(taken, p.inbox.value, None, 0);
  }

  lemma TakeOther(p: Peer, taken: seq<HostFrame>, written: seq<PeerFrame>, onCancel: ToolEnd)
    requires Slots(p, taken, written) && Ready(p) && p.inbox.Some? && !p.inbox.value.Request? && !p.inbox.value.Cancel?
    ensures var p' := Turn(p, onCancel).0;
            && TakesAsToldBy(p, taken, written, onCancel) && (p'.phase != Broken ==> p'.answers == p.answers)
            && (p'.phase != Broken ==> Slots(p', taken + [p.inbox.value], written))
  {
    RequestedAdd(taken, p.inbox.value);
    AfterAdd(taken, p.inbox.value, None, 0);
  }

  lemma TakeTurn(p: Peer, taken: seq<HostFrame>, written: seq<PeerFrame>, onCancel: ToolEnd)
    requires Tracks(p, taken, written) && Ready(p) && p.inbox.Some?
    ensures var (p', out) := Turn(p, onCancel);
            && TakesAsToldBy(p, taken, written, onCancel)
            && (p'.phase != Broken ==> Tracks(p', taken + [p.inbox.value], written + out))
  {
    var frame := p.inbox.value;
    if frame.Request? { TakeRequest(p, taken, written, onCancel); }
    else if !frame.Cancel? { TakeOther(p, taken, written, onCancel); }
    else if p.active.None? { CancelLate(p, taken, written, onCancel); }
    else { CancelActive(p, taken, written, onCancel); }
    if Turn(p, onCancel).0.phase != Broken {
      AnsweredMore(Requested(taken), written, p.answers, taken, frame);
      RequestedAdd(taken, frame);
      assert written + [] == written;
      if frame.Cancel? && p.active.Some? {
        AnsweredNext(Requested(taken), written, p.answers, taken + [frame], Cancelled(frame.id), EndOnCancel(p.active.value, onCancel));
      }
    }
  }

  lemma EndTurn(p: Peer, taken: seq<HostFrame>, written: seq<PeerFrame>, onCancel: ToolEnd)
    requires Tracks(p, taken, written) && Ready(p) && p.inbox.None?
    ensures var (p', out) := Turn(p, onCancel);
            && (p'.phase != Broken <==> !p.active.value.ended.value.ContainmentLost?)
            && (p'.phase != Broken ==> Tracks(p', taken, written + out))
  {
    var (p', out) := Turn(p, onCancel);
    if p'.phase != Broken {
      AnsweredNext(Requested(taken), written, p.answers, taken, out[0], p.active.value.ended.value);
      assert out == [out[0]];
    }
  }

  lemma {:induction false} RunTracks(es: seq<PeerEvent>)
    requires Possible(es)
    ensures Run(es).phase != Broken ==> Tracks(Run(es), Taken(es), Written(es))
  {
    if es != [] {
      var before, e := es[..|es| - 1], es[|es| - 1];
      RunTracks(before);
      var p := Run(before);
      if e.LoopTurns? && p.inbox.Some? {
        TakeTurn(p, Taken(before), Written(before), e.onCancel);
      } else if e.LoopTurns? {
        EndTurn(p, Taken(before), Written(before), e.onCancel);
      }
    }
  }

  /** Against any host: as long as the peer has not broken off, no id was served twice, the answers name
      the requests in their order, each once, and say how their tools ended; at most one request is open. */
  lemma RequestsAreServedInOrder(es: seq<PeerEvent>)
    requires Possible(es) && Run(es).phase != Broken
    ensures var ids, written := Requested(Taken(es)), Written(es);
            && (forall i, j | 0 <= i < j < |ids| :: ids[i] != ids[j])
            && |written| == |ids| - (if Run(es).active.Some? then 1 else 0)
            && Answered(ids, written, Run(es).answers, Taken(es))
  {
    RunTracks(es);
  }

  /** A frame is accepted if and only if the history allows it: a new id when nothing is open, a
      cancellation of the last request that was not cancelled before, a checkpoint that goes on from the
      last one, or a final that reconciles when nothing is open. Accepting a cancellation of an open
      request also takes a tool that ends without an error. */
  lemma AcceptsExactlyTheLegal(es: seq<PeerEvent>, onCancel: ToolEnd)
    requires Possible(es) && Ready(Run(es)) && Run(es).inbox.Some?
    ensures var p := Run(es);
            var frame := p.inbox.value;
            var (p', out) := Turn(p, onCancel);
            && (p'.phase != Broken <==>
                  && Legal(Taken(es), Written(es), frame)
                  && (frame.Cancel? && p.active.Some? ==>
                        var end := EndOnCancel(p.active.value, onCancel); end.Returned? || end.CancelledItself?))
            && (p'.phase == Broken ==> out == [PeerError])
            && (p'.phase != Broken ==>
                  && out == (if frame.Cancel? && p.active.Some? then [Cancelled(frame.id)] else [])
                  && (p'.active.Some? <==> frame.Request? || (p.active.Some? && !frame.Cancel?))
                  && (p'.phase.Served? <==> frame.FinalFrame?) && (frame.FinalFrame? ==> p'.phase == Served(frame.final)))
  {
    RunTracks(es);
    TakeTurn(Run(es), Taken(es), Written(es), onCancel);
  }
}
