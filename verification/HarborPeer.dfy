/** serve_protocol (remote_tools.py): the loop beside the task. It reads one frame ahead, runs one
    tool at a time, and remembers one request whose cancellation may still be on its way. */
module HarborPeer {
  import opened Wrappers
  import opened HarborMetrics
  import opened HarborWire

  /** How a tool task ends. `RaisedToolError` covers every ordinary exception. */
  datatype ToolEnd = Returned(text: string) | RaisedToolError(text: string) | CancelledItself | ContainmentLost

  datatype Tool = Tool(id: nat, ended: Option<ToolEnd>)

  datatype PeerPhase = Serving | Served(final: Final) | Broken

  /** The loop's variables; `inbox` is the frame a finished read holds. `answers` is a history: how
      the tool of every answered request ended. */
  datatype Peer = Peer(
    phase: PeerPhase,
    active: Option<Tool>,
    late: Option<nat>,
    seen: set<nat>,
    served: nat,
    settled: nat,
    last: Option<Partial>,
    inbox: Option<HostFrame>,
    answers: map<nat, ToolEnd>)

  const LISTENING := Peer(Serving, None, None, {}, 0, 0, None, None, map[])

  /** The loop has something to do: a frame was read, or the tool is done. */
  predicate Ready(p: Peer) {
    p.phase == Serving && (p.inbox.Some? || (p.active.Some? && p.active.value.ended.Some?))
  }

  /** A protocol error: the active tool is cancelled and the host is told. */
  function Break(p: Peer): (Peer, seq<PeerFrame>) {
    (p.(phase := Broken, active := None, inbox := None), [PeerError])
  }

  function TakeCheckpoint(p: Peer, m: Partial): (Peer, seq<PeerFrame>) {
    if PeerAcceptsPartial(m, p.last, p.served) then (p.(last := Some(m), inbox := None), []) else Break(p)
  }

  function IdleTurn(p: Peer): (Peer, seq<PeerFrame>)
    requires p.inbox.Some?
  {
    match p.inbox.value
    case Checkpoint(m) => TakeCheckpoint(p, m)
    case FinalFrame(f) =>
      if PeerAcceptsFinal(f) && Reconciles(f, p.last, p.served, p.settled)
      then (p.(phase := Served(f), inbox := None), []) else Break(p)
    case HostError => Break(p)
    case Cancel(id) => if p.late == Some(id) then (p.(late := None, inbox := None), []) else Break(p)
    case Request(id) =>
      if id in p.seen then Break(p)
      else (p.(active := Some(Tool(id, None)), seen := p.seen + {id}, late := None, served := p.served + 1, inbox := None), [])
  }

  /** The tool is done and no frame has been read. */
  function SettleTurn(p: Peer, id: nat, end: ToolEnd): (Peer, seq<PeerFrame>) {
    var counted := p.(settled := p.settled + 1);
    var idle := counted.(active := None, answers := p.answers[id := end]);
    match end
    case Returned(text) => (idle.(late := Some(id)), [Result(id, text)])
    case RaisedToolError(text) => (idle.(late := Some(id)), [ToolError(id, text)])
    case CancelledItself => (idle.(late := None), [Cancelled(id)])
    case ContainmentLost => Break(counted)
  }

  /** A frame was read while the tool is active; `end` is how the tool ends if it is cancelled now. */
  function BusyTurn(p: Peer, id: nat, end: ToolEnd): (Peer, seq<PeerFrame>)
    requires p.inbox.Some?
  {
    match p.inbox.value
    case Checkpoint(m) => TakeCheckpoint(p, m)
    case Cancel(target) =>
      if target != id || end.ContainmentLost? || end.RaisedToolError? then Break(p)
      else (p.(settled := p.settled + 1, active := None, late := None, inbox := None, answers := p.answers[id := end]),
            [Cancelled(id)])
    case _ => Break(p)
  }

  /** How the active tool ends when it is cancelled: as it already did, or as `onCancel` says. */
  function EndOnCancel(tool: Tool, onCancel: ToolEnd): ToolEnd {
    if tool.ended.Some? then tool.ended.value else onCancel
  }

  /** One pass of the loop and the frames it writes. */
  function Turn(p: Peer, onCancel: ToolEnd): (Peer, seq<PeerFrame>)
    requires Ready(p)
  {
    if p.active.None? then IdleTurn(p)
    else if p.inbox.None? then SettleTurn(p, p.active.value.id, p.active.value.ended.value)
    else BusyTurn(p, p.active.value.id, EndOnCancel(p.active.value, onCancel))
  }

  /** The loop with its variables as fields. */
  class ServeLoop {
    var phase: PeerPhase
    var active: Option<Tool>
    var lateCancelId: Option<nat>
    var seenIds: set<nat>
    var servedRequests: nat
    var settledRequests: nat
    var latestCheckpoint: Option<Partial>
    var inbox: Option<HostFrame>
    ghost var answers: map<nat, ToolEnd>

    ghost function Model(): Peer
      reads this
    {
      Peer(phase, active, lateCancelId, seenIds, servedRequests, settledRequests, latestCheckpoint, inbox, answers)
    }

    constructor ()
      ensures Model() == LISTENING
    {
      phase, active, lateCancelId, seenIds := Serving, None, None, {};
      servedRequests, settledRequests, latestCheckpoint, inbox := 0, 0, None, None;
      answers := map[];
    }

    method RaiseProtocolError() returns (out: seq<PeerFrame>)
      modifies this
      ensures (Model(), out) == Break(old(Model()))
    {
      phase := Broken;
      active := None;
      inbox := None;
      out := [PeerError];
    }

    method Iterate(onCancel: ToolEnd) returns (out: seq<PeerFrame>)
      requires Ready(Model())
      modifies this
      ensures (Model(), out) == Turn(old(Model()), onCancel)
    {
      if active.None? {
        var frame := inbox.value;
        match frame {
          case Checkpoint(m) =>
            if !PeerAcceptsPartial(m, latestCheckpoint, servedRequests) {
              out := RaiseProtocolError();
              return;
            }
            latestCheckpoint := Some(m);
          case FinalFrame(f) =>
            if !PeerAcceptsFinal(f) || !Reconciles(f, latestCheckpoint, servedRequests, settledRequests) {
              out := RaiseProtocolError();
              return;
            }
            phase := Served(f);
          case HostError =>
            out := RaiseProtocolError();
            return;
          case Cancel(id) =>
            if lateCancelId != Some(id) {
              out := RaiseProtocolError();
              return;
            }
            lateCancelId := None;
          case Request(id) =>
            if id in seenIds {
              out := RaiseProtocolError();
              return;
            }
            seenIds := seenIds + {id};
            lateCancelId := None;
            servedRequests := servedRequests + 1;
            active := Some(Tool(id, None));
        }
        inbox := None;
        return [];
      }
      var id := active.value.id;
      if inbox.None? {
        settledRequests := settledRequests + 1;
        var end := active.value.ended.value;
        var acceptsLateCancel := true;
        match end {
          case Returned(text) => out := [Result(id, text)];
          case RaisedToolError(text) => out := [ToolError(id, text)];
          case CancelledItself =>
            acceptsLateCancel := false;
            out := [Cancelled(id)];
          case ContainmentLost =>
            out := RaiseProtocolError();
            return;
        }
        active := None;
        lateCancelId := if acceptsLateCancel then Some(id) else None;
        answers := answers[id := end];
        return;
      }
      if inbox.value.Checkpoint? {
        if !PeerAcceptsPartial(inbox.value.metrics, latestCheckpoint, servedRequests) {
          out := RaiseProtocolError();
          return;
        }
        latestCheckpoint := Some(inbox.value.metrics);
        inbox := None;
        return [];
      }
      if !inbox.value.Cancel? || inbox.value.id != id {
        out := RaiseProtocolError();
        return;
      }
      var end := EndOnCancel(active.value, onCancel);
      if end.ContainmentLost? || end.RaisedToolError? {
        out := RaiseProtocolError();
        return;
      }
      settledRequests := settledRequests + 1;
      answers := answers[id := end];
      active := None;
      lateCancelId := None;
      inbox := None;
      return [Cancelled(id)];
    }
  }
}
