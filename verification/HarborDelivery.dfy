/** What the two state machines deliver end to end: no protocol error but one, accepted checkpoints and
    final metrics; and a run that meets the one losing race. */
module HarborDelivery {
  import opened Wrappers
  import opened HarborMetrics
  import opened HarborWire
  import opened HarborComposition
  import Session = HarborSession
  import Host = HarborHost
  import Peer = HarborPeer
  import History = HarborHistory

  // ---- No protocol error but one ----

  /** The composition theorem. In an honest run, with cancellations crossing results, errors and
      completions in any order, a protocol error occurs on either side if and only if the peer at
      some point read a cancellation of its active request just as that request's tool ended in an
      error. */
  lemma HonestRunsFailOnlyByCollision(contractMode: bool, es: seq<Event>)
    requires HonestRun(contractMode, es)
    ensures SomeSideFailed(After(contractMode, es)) <==> !CollisionFree(contractMode, es)
  {
    HealthyRun(contractMode, es);
  }

  // ---- What the peer knows ----

  /** The last checkpoint emitted, or what there was to report at the start. */
  function Reported(emitted: Option<Partial>, contractMode: bool): Partial {
    if emitted.Some? then emitted.value else Session.Snapshot(Session.StartCounters(contractMode))
  }

  /** What was reported is what there is to report now. */
  predicate Current(w: World, contractMode: bool) {
    && History.SameCounts(Reported(w.emitted, contractMode), Session.Snapshot(w.session.now))
    && (w.final.Some? ==> w.final.value == Session.FinalOf(w.session.now, w.final.value.status))
  }

  lemma MeterCurrent(w: World, contractMode: bool, event: Session.SessionEvent)
    requires Healthy(w) && Current(w, contractMode) && Enabled(w, Meter(event))
    ensures Current(Step(w, Meter(event)), contractMode)
  {
    MeterEmits(w, event);
    History.NothingCountsSilently(w.session, event);
  }

  lemma StepCurrent(w: World, contractMode: bool, e: Event)
    requires Healthy(w) && Current(w, contractMode) && Enabled(w, e)
    ensures Current(Step(w, e), contractMode)
  {
    if e.Meter? {
      MeterCurrent(w, contractMode, e.event);
    }
  }

  lemma {:induction false} RunCurrent(contractMode: bool, es: seq<Event>)
    requires HonestRun(contractMode, es) && CollisionFree(contractMode, es)
    ensures Current(After(contractMode, es), contractMode)
  {
    if es != [] {
      RunCurrent(contractMode, es[..|es| - 1]);
      HealthyRun(contractMode, es[..|es| - 1]);
      StepCurrent(After(contractMode, es[..|es| - 1]), contractMode, es[|es| - 1]);
    }
  }

  /** The peer is kept up to date: when nothing is in flight, its last checkpoint holds every count of the
      session as it is now; only the clock and the tool called last may have moved on. */
  lemma PeerIsUpToDate(contractMode: bool, es: seq<Event>)
    requires HonestRun(contractMode, es) && CollisionFree(contractMode, es)
    ensures var w := After(contractMode, es);
            w.host.chain == [] && w.toPeer == [] && w.peer.inbox == None ==>
              History.SameCounts(Reported(w.peer.last, contractMode), Session.Snapshot(w.session.now))
  {
    RunCurrent(contractMode, es);
    HealthyRun(contractMode, es);
    Drained(After(contractMode, es));
  }

  lemma Drained(w: World)
    requires Healthy(w)
    ensures w.host.chain == [] && w.toPeer == [] && w.peer.inbox == None ==> w.peer.last == w.emitted
  {
    if w.host.chain == [] && w.toPeer == [] && w.peer.inbox == None {
      assert Stream(w) == [];
    }
  }

  /** Once the host has finished and the pipe has drained, the peer has accepted and returned the very
      final metrics of the session. */
  lemma FinishedMeansAccepted(contractMode: bool, es: seq<Event>)
    requires HonestRun(contractMode, es) && CollisionFree(contractMode, es)
    ensures var w := After(contractMode, es);
            w.host.phase == Host.Finished && w.toPeer == [] && w.peer.inbox == None ==>
              && w.final.Some? && w.peer.phase == Peer.Served(w.final.value)
              && w.final.value == Session.FinalOf(w.session.now, w.final.value.status)
  {
    HealthyRun(contractMode, es);
    DrainedAndFinished(After(contractMode, es));
    RunCurrent(contractMode, es);
  }

  /** Every checkpoint the peer reads is one it accepts: no counter below the last one, consistent,
      and `requested` not below the requests served. */
  lemma EveryCheckpointIsAccepted(contractMode: bool, es: seq<Event>)
    requires HonestRun(contractMode, es) && CollisionFree(contractMode, es)
    ensures var p := After(contractMode, es).peer;
            p.inbox.Some? && p.inbox.value.Checkpoint? ==> PeerAcceptsPartial(p.inbox.value.metrics, p.last, p.served)
  {
    HealthyRun(contractMode, es);
    var w := After(contractMode, es);
    if w.peer.inbox.Some? {
      StreamHead(w);
    }
  }

  // ---- The losing race ----

  /** One metered tool call whose tool raises an error just as the host's deadline cancels it. */
  function RaceEvent(k: nat, key: string): Event {
    match k
    case 0 => HostReads
    case 1 => Meter(Session.BackendCall(key))
    case 2 => HostWrites
    case 3 => PeerReads
    case 4 => PeerTurns(Peer.CancelledItself)
    case 5 => Dispatch(true, false, Host.Admitted)
    case 6 => HostWrites
    case 7 => PeerReads
    case 8 => PeerTurns(Peer.CancelledItself)
    case 9 => DeadlineTimer(1)
    case 10 => HostWrites
    case 11 => PeerReads
    case 12 => ToolEnds(Peer.RaisedToolError(key))
    case _ => PeerTurns(Peer.CancelledItself)
  }

  function Race(k: nat, key: string): seq<Event> {
    if k == 0 then [] else Race(k - 1, key) + [RaceEvent(k - 1, key)]
  }

  // The worlds the race passes through.

  function FirstMetrics(mode: bool): Partial {
    Partial(0, 0, Usage(0, 0, 0, 0, 0), 0, false, ToolCounts(1, 0, 0, 0, 0), Session.Start(mode).now.progress)
  }

  /** The peer knows the first checkpoint; both pipes are empty. */
  function Metered(mode: bool, key: string): World {
    World(Session.Advance(Session.Start(mode), Session.BackendCall(key)).0, Host.INITIAL.(phase := Host.Running), [],
          Peer.LISTENING.(last := Some(FirstMetrics(mode))), [], Some(FirstMetrics(mode)), None)
  }

  /** The peer runs request 1. */
  function Executing(mode: bool, key: string): World {
    var w := Metered(mode, key);
    w.(session := w.session.(dispatched := 1),
       host := w.host.(nextId := 2, active := Some(Host.Call(1, Host.Admitted, false)), requests := [1]),
       peer := w.peer.(active := Some(Peer.Tool(1, None)), seen := {1}, served := 1))
  }

  /** The host has cancelled request 1. */
  function Cancelling(mode: bool, key: string): World {
    var w := Executing(mode, key);
    w.(host := w.host.(active := Some(Host.Call(1, Host.Admitted, true))))
  }

  function Chained(w: World, frame: HostFrame): World {
    w.(host := w.host.(chain := [Host.PendingWrite(frame, Host.Running)]))
  }

  function Piped(w: World, frame: HostFrame): World {
    w.(toPeer := [frame])
  }

  function Read(w: World, frame: HostFrame): World {
    w.(peer := w.peer.(inbox := Some(frame)))
  }

  function RaceWorld(k: nat, mode: bool, key: string): World {
    match k
    case 0 => Begin(mode)
    case 1 => Begin(mode).(host := Host.INITIAL.(phase := Host.Running), toHost := [])
    case 2 => Chained(Metered(mode, key).(peer := Peer.LISTENING), Checkpoint(FirstMetrics(mode)))
    case 3 => Piped(Metered(mode, key).(peer := Peer.LISTENING), Checkpoint(FirstMetrics(mode)))
    case 4 => Read(Metered(mode, key).(peer := Peer.LISTENING), Checkpoint(FirstMetrics(mode)))
    case 5 => Metered(mode, key)
    case 6 => Chained(Executing(mode, key).(peer := Metered(mode, key).peer), Request(1))
    case 7 => Piped(Executing(mode, key).(peer := Metered(mode, key).peer), Request(1))
    case 8 => Read(Executing(mode, key).(peer := Metered(mode, key).peer), Request(1))
    case 9 => Executing(mode, key)
    case 10 => Chained(Cancelling(mode, key), Cancel(1))
    case 11 => Piped(Cancelling(mode, key), Cancel(1))
    case 12 => Read(Cancelling(mode, key), Cancel(1))
    case 13 =>
      var w := Read(Cancelling(mode, key), Cancel(1));
      w.(peer := w.peer.(active := Some(Peer.Tool(1, Some(Peer.RaisedToolError(key))))))
    case _ =>
      var w := Cancelling(mode, key);
      w.(peer := w.peer.(phase := Peer.Broken, active := None), toHost := [PeerError])
  }

  predicate RaceLink(k: nat, mode: bool, key: string) {
    Enabled(RaceWorld(k, mode, key), RaceEvent(k, key)) && Step(RaceWorld(k, mode, key), RaceEvent(k, key)) == RaceWorld(k + 1, mode, key)
  }

  lemma RaceGreets(mode: bool, key: string)
    ensures RaceLink(0, mode, key)
  {
  }

  lemma FirstCallRecords(s: Session.Session, mode: bool, e: Session.SessionEvent)
    requires s == Session.Start(mode) && e.BackendCall?
    ensures Session.Allowed(s, e) && Session.Advance(s, e).1
  {
  }

  lemma FirstCheckpoint(s: Session.Session, mode: bool, e: Session.SessionEvent, s': Session.Session, m: Partial)
    requires s == Session.Start(mode) && e.BackendCall? && m == FirstMetrics(mode)
    requires (s', true) == Session.Advance(s, e)
    ensures m == Session.Snapshot(s'.now) && HostAcceptsPartial(m)
  {
  }

  lemma EmittingStep(w: World, e: Session.SessionEvent, session: Session.Session, m: Partial)
    requires w.host.phase == Host.Running && w.host.chain == []
    requires !e.Dispatch? && Session.Allowed(w.session, e) && Session.Advance(w.session, e) == (session, true)
    requires m == Session.Snapshot(session.now) && HostAcceptsPartial(m)
    ensures Enabled(w, Meter(e))
    ensures Step(w, Meter(e)) == Chained(w.(session := session, emitted := Some(m)), Checkpoint(m))
  {
    var writes := [Host.PendingWrite(Checkpoint(m), Host.Running)];
    assert w.host.chain + writes == writes;
  }

  lemma MeterOpens(w: World, mode: bool, e: Session.SessionEvent, s: Session.Session, m: Partial)
    requires w.session == Session.Start(mode) && w.host.phase == Host.Running && w.host.chain == []
    requires e.BackendCall? && m == FirstMetrics(mode) && (s, true) == Session.Advance(w.session, e)
    ensures Enabled(w, Meter(e)) && Step(w, Meter(e)) == Chained(w.(session := s, emitted := Some(m)), Checkpoint(m))
  {
    FirstCheckpoint(w.session, mode, e, s, m);
    EmittingStep(w, e, s, m);
  }

  lemma RaceMeters(w: World, mode: bool, key: string)
    requires w == RaceWorld(1, mode, key)
    ensures Enabled(w, Meter(Session.BackendCall(key))) && Step(w, Meter(Session.BackendCall(key))) == RaceWorld(2, mode, key)
  {
    FirstCallRecords(w.session, mode, Session.BackendCall(key));
    MeterOpens(w, mode, Session.BackendCall(key), Metered(mode, key).session, FirstMetrics(mode));
  }

  lemma RaceWrites(k: nat, mode: bool, key: string)
    requires k in {2, 6, 10}
    ensures RaceLink(k, mode, key)
  {
    var frame := RaceWorld(k, mode, key).host.chain[0].frame;
    assert RaceWorld(k, mode, key).toPeer + [frame] == [frame];
  }

  lemma RaceReads(k: nat, mode: bool, key: string)
    requires k in {3, 7, 11}
    ensures RaceLink(k, mode, key)
  {
    assert RaceWorld(k, mode, key).toPeer[1..] == [];
  }

  lemma RaceTakes(k: nat, mode: bool, key: string)
    requires k in {4, 8}
    ensures RaceLink(k, mode, key)
  {
    assert RaceWorld(k, mode, key).toHost + [] == RaceWorld(k, mode, key).toHost;
  }

  lemma RaceDispatches(mode: bool, key: string)
    ensures RaceLink(5, mode, key)
  {
  }

  lemma RaceCancels(k: nat, mode: bool, key: string)
    requires k == 9
    ensures RaceLink(k, mode, key)
  {
  }

  lemma RaceEnds(k: nat, mode: bool, key: string)
    requires k == 12
    ensures RaceLink(k, mode, key)
  {
  }

  lemma RaceCrosses(k: nat, mode: bool, key: string)
    requires k == 13
    ensures RaceLink(k, mode, key)
  {
  }

  lemma {:induction false} RaceRuns(k: nat, mode: bool, key: string)
    requires k <= 14
    ensures HonestRun(mode, Race(k, key)) && After(mode, Race(k, key)) == RaceWorld(k, mode, key)
  {
    if k > 0 {
      RaceRuns(k - 1, mode, key);
      RaceLinks(k - 1, mode, key);
      var before, es := Race(k - 1, key), Race(k, key);
      assert es == before + [RaceEvent(k - 1, key)] && es[..|es| - 1] == before;
    }
  }

  lemma RaceLinks(k: nat, mode: bool, key: string)
    requires k < 14
    ensures RaceLink(k, mode, key)
  {
    if k == 0 { RaceGreets(mode, key); }
    else if k == 1 { RaceMeters(RaceWorld(k, mode, key), mode, key); }
    else if k == 5 { RaceDispatches(mode, key); }
    else if k in {2, 6, 10} { RaceWrites(k, mode, key); }
    else if k in {3, 7, 11} { RaceReads(k, mode, key); }
    else if k in {4, 8} { RaceTakes(k, mode, key); }
    else if k == 9 { RaceCancels(k, mode, key); }
    else if k == 12 { RaceEnds(k, mode, key); }
    else { RaceCrosses(k, mode, key); }
  }

  /** The race is real: an honest run in which no side misbehaves and the protocol still fails. */
  lemma RaceFails(mode: bool, key: string)
    ensures HonestRun(mode, Race(14, key)) && SomeSideFailed(After(mode, Race(14, key)))
  {
    RaceRuns(14, mode, key);
  }
}
