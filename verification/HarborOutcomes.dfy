/** How the calls of a host end, and why: over every run, whatever the peer sends, an accepted call gets
    the outcome that its own events call for. */
module HarborOutcomes {
  import opened HarborHost
  import opened HarborWire
  import opened Wrappers
  import Metrics = HarborMetrics

  /** What is known of an accepted call when it is made. */
  datatype Asked = Asked(aborted: bool, admission: Admission)

  /** The calls a run accepts, in order; the call at index n has id n + 1. A running session refuses a
      call only if it is malformed or 64 calls are unsettled. */
  function AcceptedCalls(es: seq<HostEvent>): seq<Asked> {
    if es == [] then [] else
      var before, e := es[..|es| - 1], es[|es| - 1];
      var h := HostRun(before);
      if e.NewCall? && e.valid && h.phase == Running && |h.queue| + (if h.active.Some? then 1 else 0) < 64
      then AcceptedCalls(before) + [Asked(e.aborted, e.admission)]
      else AcceptedCalls(before)
  }

  /** Why a call may end as it does. One whose request was sent ends by the peer's answer to it; one
      that never was, by its abort or its context; and any call if the session fails. */
  predicate Earned(s: Settlement, requests: seq<nat>, failed: bool, calls: seq<Asked>, es: seq<HostEvent>) {
    && 1 <= s.id <= |calls|
    && match s.outcome
       case Observed(text) => s.id in requests && Arrive(Result(s.id, text)) in es
       case RemoteFailure(text) => s.id in requests && Arrive(ToolError(s.id, text)) in es
       case Interrupted =>
         if s.id in requests
         then Arrive(Cancelled(s.id)) in es && CancelWanted(s.id, es)
         else calls[s.id - 1].aborted || calls[s.id - 1].admission == SignalAborted || AbortSignal(s.id) in es
       case ContextRefused => s.id !in requests && calls[s.id - 1] == Asked(false, ContextMismatch)
       case SessionFailed => failed
  }

  predicate CancelWanted(id: nat, es: seq<HostEvent>) {
    AbortSignal(id) in es || DeadlineTimer(id) in es
  }

  predicate AllEarned(settled: seq<Settlement>, requests: seq<nat>, failed: bool, calls: seq<Asked>, es: seq<HostEvent>) {
    forall i | 0 <= i < |settled| :: Earned(settled[i], requests, failed, calls, es)
  }

  predicate Known(call: Call, calls: seq<Asked>) {
    1 <= call.id <= |calls| && calls[call.id - 1] == Asked(false, call.admission)
  }

  /** Every call is in one place only. */
  predicate Apart(h: Host) {
    && (forall i, j | 0 <= i < |h.settled| && 0 <= j < |h.queue| :: h.settled[i].id != h.queue[j].id)
    && (h.active.Some? ==> forall i | 0 <= i < |h.settled| :: h.settled[i].id != h.active.value.id)
  }

  predicate Books(h: Host, calls: seq<Asked>, es: seq<HostEvent>) {
    && h.nextId == |calls| + 1
    && (forall i | 0 <= i < |h.queue| :: Known(h.queue[i], calls))
    && (forall i | 0 <= i < |h.requests| :: 1 <= h.requests[i] <= |calls| && calls[h.requests[i] - 1] == Asked(false, Admitted))
    && (h.active.Some? && h.active.value.cancelSent ==> CancelWanted(h.active.value.id, es))
    && Apart(h)
    && AllEarned(h.settled, h.requests, h.phase == Failed, calls, es)
  }

  /** Queued calls have not been requested. */
  lemma QueuedNotRequested(h: Host, i: nat)
    requires InOrder(h) && i < |h.queue|
    ensures h.queue[i].id !in h.requests
  {
    forall j | 0 <= j < |h.requests| ensures h.requests[j] < h.queue[i].id {
      assert h.requests[j] <= LastRequest(h);
    }
  }

  lemma SkipBooks(h: Host, calls: seq<Asked>, es: seq<HostEvent>, outcome: Outcome)
    requires BeforePump(h) && h.active.None? && h.queue != [] && Books(h, calls, es)
    requires h.queue[0].admission == if outcome == Interrupted then SignalAborted else ContextMismatch
    requires outcome in {Interrupted, ContextRefused}
    ensures Books(h.(queue := h.queue[1..], settled := h.settled + [Settlement(h.queue[0].id, outcome)]), calls, es)
  {
    QueuedNotRequested(h, 0);
    assert Known(h.queue[0], calls);
  }

  lemma RequestBooks(h: Host, calls: seq<Asked>, es: seq<HostEvent>)
    requires BeforePump(h) && h.active.None? && h.queue != [] && Books(h, calls, es) && h.queue[0].admission.Admitted?
    ensures Books(Pump(h), calls, es)
  {
    var call, h' := h.queue[0], Pump(h);
    assert Known(call, calls);
    forall i | 0 <= i < |h'.settled| ensures Earned(h'.settled[i], h'.requests, h'.phase == Failed, calls, es) {
      assert Earned(h.settled[i], h.requests, h.phase == Failed, calls, es);
      assert h.settled[i].id != h.queue[0].id;
    }
  }

  lemma {:induction false} PumpBooks(h: Host, calls: seq<Asked>, es: seq<HostEvent>)
    requires BeforePump(h) && Books(h, calls, es)
    ensures Books(Pump(h), calls, es)
    decreases |h.queue|
  {
    if h.active.None? && h.queue != [] {
      if h.queue[0].admission.Admitted? {
        RequestBooks(h, calls, es);
      } else {
        var outcome := if h.queue[0].admission == SignalAborted then Interrupted else ContextRefused;
        SkipBooks(h, calls, es, outcome);
        PumpBooks(h.(queue := h.queue[1..], settled := h.settled + [Settlement(h.queue[0].id, outcome)]), calls, es);
      }
    }
  }

  /** What was earned stays earned when more happens. */
  lemma BooksLater(h: Host, calls: seq<Asked>, es: seq<HostEvent>, e: HostEvent)
    requires Books(h, calls, es)
    ensures Books(h, calls, es + [e])
  {
    forall i | 0 <= i < |h.settled| ensures Earned(h.settled[i], h.requests, h.phase == Failed, calls, es + [e]) {
      assert Earned(h.settled[i], h.requests, h.phase == Failed, calls, es);
    }
  }

  lemma MoreCalls(h: Host, calls: seq<Asked>, es: seq<HostEvent>, call: Asked)
    requires Books(h, calls, es)
    ensures Books(h.(nextId := h.nextId + 1), calls + [call], es)
  {
    forall i | 0 <= i < |h.settled| ensures Earned(h.settled[i], h.requests, h.phase == Failed, calls + [call], es) {
      assert Earned(h.settled[i], h.requests, h.phase == Failed, calls, es);
    }
    forall i | 0 <= i < |h.queue| ensures Known(h.queue[i], calls + [call]) {
      assert Known(h.queue[i], calls);
    }
  }

  /** A call that has just been numbered. */
  lemma NewIsApart(h: Host, calls: seq<Asked>, es: seq<HostEvent>)
    requires HostInvariant(h) && Books(h, calls, es)
    ensures h.nextId !in h.requests
    ensures forall i | 0 <= i < |h.settled| :: h.settled[i].id < h.nextId
  {
    forall i | 0 <= i < |h.settled| ensures h.settled[i].id < h.nextId {
      assert Earned(h.settled[i], h.requests, h.phase == Failed, calls, es);
    }
  }

  lemma AcceptBooks(h: Host, calls: seq<Asked>, es: seq<HostEvent>, aborted: bool, admission: Admission)
    requires HostInvariant(h) && Books(h, calls, es) && h.phase == Running && Load(h) < 64
    ensures Books(Enqueue(h, true, aborted, admission).0, calls + [Asked(aborted, admission)], es)
  {
    if aborted {
      AbortedBooks(h, calls, es, admission);
    } else {
      JoinKeeps(h, admission);
      JoinBooks(h, calls, es, admission);
      PumpBooks(Joined(h, admission), calls + [Asked(aborted, admission)], es);
    }
  }

  lemma AbortedBooks(h: Host, calls: seq<Asked>, es: seq<HostEvent>, admission: Admission)
    requires HostInvariant(h) && Books(h, calls, es)
    ensures Books(h.(nextId := h.nextId + 1, settled := h.settled + [Settlement(h.nextId, Interrupted)]),
                  calls + [Asked(true, admission)], es)
  {
    NewIsApart(h, calls, es);
    MoreCalls(h, calls, es, Asked(true, admission));
    assert Earned(Settlement(h.nextId, Interrupted), h.requests, h.phase == Failed, calls + [Asked(true, admission)], es);
  }

  lemma JoinBooks(h: Host, calls: seq<Asked>, es: seq<HostEvent>, admission: Admission)
    requires HostInvariant(h) && Books(h, calls, es)
    ensures Books(Joined(h, admission), calls + [Asked(false, admission)], es)
  {
    NewIsApart(h, calls, es);
    MoreCalls(h, calls, es, Asked(false, admission));
    var joined := Joined(h, admission);
    assert Known(joined.queue[|h.queue|], calls + [Asked(false, admission)]);
  }

  lemma DequeueBooks(h: Host, calls: seq<Asked>, es: seq<HostEvent>, i: nat)
    requires HostInvariant(h) && Books(h, calls, es) && i < |h.queue| && AbortSignal(h.queue[i].id) in es
    ensures Books(h.(queue := h.queue[..i] + h.queue[i + 1..], settled := h.settled + [Settlement(h.queue[i].id, Interrupted)]), calls, es)
  {
    QueuedNotRequested(h, i);
    assert Known(h.queue[i], calls);
    assert Earned(Settlement(h.queue[i].id, Interrupted), h.requests, h.phase == Failed, calls, es);
  }

  lemma AbortBooks(h: Host, calls: seq<Asked>, es: seq<HostEvent>, id: nat)
    requires HostInvariant(h) && Books(h, calls, es) && AbortSignal(id) in es
    ensures Books(Abort(h, id), calls, es)
  {
    if h.active.Some? && h.active.value.id == id {
      SameBooks(h, CancelActive(h, id), calls, es);
    } else if QueueIndex(h.queue, id) < |h.queue| {
      DequeueBooks(h, calls, es, QueueIndex(h.queue, id));
    }
  }

  /** The answer `s` to the active call. */
  lemma SettleBooks(h: Host, calls: seq<Asked>, es: seq<HostEvent>, s: Settlement)
    requires HostInvariant(h) && h.active.Some? && Books(h, calls, es) && s.id == h.active.value.id
    requires Earned(s, h.requests, false, calls, es)
    ensures Books(Settle(h, s.outcome), calls, es)
  {
    var idle := h.(active := None, settled := h.settled + [s]);
    assert Books(idle, calls, es) by {
      QueueAfterActive(h);
    }
    PumpBooks(idle, calls, es);
  }

  lemma QueueAfterActive(h: Host)
    requires HostInvariant(h) && h.active.Some?
    ensures forall i | 0 <= i < |h.queue| :: h.queue[i].id > h.active.value.id
  {
  }

  lemma {:induction false} LostNames(queue: seq<Call>)
    ensures |Lost(queue)| == |queue|
    ensures forall i | 0 <= i < |queue| :: Lost(queue)[i] == Settlement(queue[i].id, SessionFailed)
  {
    if queue != [] {
      LostNames(queue[..|queue| - 1]);
    }
  }

  lemma FailBooks(h: Host, calls: seq<Asked>, es: seq<HostEvent>, notify: bool)
    requires HostInvariant(h) && Books(h, calls, es)
    ensures Books(Fail(h, notify), calls, es)
  {
    LostNames(h.queue);
    var h' := Fail(h, notify);
    if h' != h {
      forall i | 0 <= i < |h'.settled| ensures Earned(h'.settled[i], h'.requests, true, calls, es) {
        if i < |h.settled| {
          assert h'.settled[i] == h.settled[i] && Earned(h.settled[i], h.requests, h.phase == Failed, calls, es);
        } else {
          FailedCallsKnown(h, calls, es, h'.settled[i]);
        }
      }
    }
  }

  lemma FailedCallsKnown(h: Host, calls: seq<Asked>, es: seq<HostEvent>, s: Settlement)
    requires HostInvariant(h) && Books(h, calls, es) && s.outcome == SessionFailed
    requires (h.active.Some? && s.id == h.active.value.id) || exists j | 0 <= j < |h.queue| :: s.id == h.queue[j].id
    ensures Earned(s, h.requests, true, calls, es)
  {
    if h.active.Some? && s.id == h.active.value.id {
      assert s.id == h.requests[|h.requests| - 1];
    } else {
      var j :| 0 <= j < |h.queue| && s.id == h.queue[j].id;
      assert Known(h.queue[j], calls);
    }
  }

  lemma AnswerBooks(h: Host, calls: seq<Asked>, es: seq<HostEvent>, frame: PeerFrame)
    requires HostInvariant(h) && Books(h, calls, es) && Arrive(frame) in es
    requires h.phase == Running && h.active.Some? && Answers(frame, h.active.value)
    ensures Books(Receive(h, frame), calls, es)
  {
    assert h.active.value.id == h.requests[|h.requests| - 1];
    SettleBooks(h, calls, es, Meaning(frame));
  }

  lemma ArriveBooks(h: Host, calls: seq<Asked>, es: seq<HostEvent>, frame: PeerFrame)
    requires HostInvariant(h) && Books(h, calls, es) && Arrive(frame) in es
    ensures Books(Receive(h, frame), calls, es)
  {
    if h.phase == Running && h.active.Some? && Answers(frame, h.active.value) {
      AnswerBooks(h, calls, es, frame);
    } else if frame.Hello? && h.phase == Greeting {
      SameBooks(h, h.(phase := Running), calls, es);
    } else {
      FailBooks(h, calls, es, !(frame.PeerError? && h.phase == Running));
    }
  }

  lemma StepBooks(h: Host, calls: seq<Asked>, es: seq<HostEvent>, e: HostEvent)
    requires HostInvariant(h) && Books(h, calls, es) && e in es
    requires e.NewCall? ==> !e.valid || h.phase != Running || Load(h) >= 64
    ensures Books(HostStep(h, e), calls, es)
  {
    match e
    case AbortSignal(id) => AbortBooks(h, calls, es, id);
    case Arrive(frame) => ArriveBooks(h, calls, es, frame);
    case Write => WriteBooks(h, calls, es);
    case Break(notify) => FailBooks(h, calls, es, notify);
    case _ => SameBooks(h, HostStep(h, e), calls, es);
  }

  lemma WriteBooks(h: Host, calls: seq<Asked>, es: seq<HostEvent>)
    requires HostInvariant(h) && Books(h, calls, es)
    ensures Books(WriteNext(h).0, calls, es)
  {
    if h.chain != [] {
      var rest := h.(chain := h.chain[1..]);
      SameBooks(h, rest, calls, es);
      FailBooks(rest, calls, es, false);
    }
  }

  /** Neither the calls nor how they ended is touched. */
  lemma SameBooks(h: Host, h': Host, calls: seq<Asked>, es: seq<HostEvent>)
    requires Books(h, calls, es)
    requires h'.queue == h.queue && h'.settled == h.settled && h'.requests == h.requests && h'.nextId == h.nextId
    requires h'.phase == Failed <==> h.phase == Failed
    requires h'.active.Some? <==> h.active.Some?
    requires h'.active.Some? ==> h'.active.value.id == h.active.value.id
    requires h'.active.Some? && h'.active.value.cancelSent ==> CancelWanted(h'.active.value.id, es)
    ensures Books(h', calls, es)
  {
  }

  lemma {:induction false} RunBooks(es: seq<HostEvent>)
    ensures HostInvariant(HostRun(es)) && Books(HostRun(es), AcceptedCalls(es), es)
  {
    HostRunKeeps(es, 0);
    if es != [] {
      var before, e := es[..|es| - 1], es[|es| - 1];
      var h := HostRun(before);
      RunBooks(before);
      BooksLater(h, AcceptedCalls(before), before, e);
      assert es == before + [e];
      if e.NewCall? && e.valid && h.phase == Running && Load(h) < 64 {
        AcceptBooks(h, AcceptedCalls(before), es, e.aborted, e.admission);
      } else {
        StepBooks(h, AcceptedCalls(before), es, e);
      }
    }
  }

  // ---- The theorems ----

  /** The frame answers this call: with its id, and `cancelled` only after the call was cancelled. */
  predicate Answers(frame: PeerFrame, call: Call) {
    match frame
    case Result(id, _) => id == call.id
    case ToolError(id, _) => id == call.id
    case Cancelled(id) => id == call.id && call.cancelSent
    case _ => false
  }

  function Meaning(frame: PeerFrame): Settlement
    requires frame.Result? || frame.ToolError? || frame.Cancelled?
  {
    match frame
    case Result(id, text) => Settlement(id, Observed(text))
    case ToolError(id, text) => Settlement(id, RemoteFailure(text))
    case Cancelled(id) => Settlement(id, Interrupted)
  }

  /** Over every run the accepted calls are exactly the well-formed ones made while fewer than 64 were
      unsettled, they are numbered in order, and every call that has ended has earned its outcome. An
      admissible call is never skipped: as long as the session runs, it waits, is active, or ended by
      the answer of the peer or by its abort. */
  lemma OutcomesAreEarned(es: seq<HostEvent>, i: nat)
    ensures var h := HostRun(es);
            && h.nextId == |AcceptedCalls(es)| + 1
            && (h.active.None? ==> h.queue == [])
            && (i < |h.settled| ==> Earned(h.settled[i], h.requests, h.phase == Failed, AcceptedCalls(es), es))
  {
    RunBooks(es);
  }

  /** An answer to the active call settles it as it says and leaves the session running; any other frame
      fails the session and settles nothing as answered. */
  lemma AnswersSettle(es: seq<HostEvent>, frame: PeerFrame)
    requires HostRun(es).phase == Running
    ensures var h, h' := HostRun(es), HostRun(es + [Arrive(frame)]);
            && (h'.phase == Running <==> h.active.Some? && Answers(frame, h.active.value))
            && (h'.phase == Running ==> h.settled + [Meaning(frame)] <= h'.settled)
            && (h'.phase != Running ==> h'.phase == Failed && h'.chain == if frame.PeerError? then [] else [PendingWrite(HostError, Failed)])
  {
    assert (es + [Arrive(frame)])[..|es|] == es;
    HostRunKeeps(es, 0);
    AnswerSettles(HostRun(es), frame);
  }

  lemma AnswerSettles(h: Host, frame: PeerFrame)
    requires HostInvariant(h) && h.phase == Running
    ensures var h' := Receive(h, frame);
            && (h'.phase == Running <==> h.active.Some? && Answers(frame, h.active.value))
            && (h'.phase == Running ==> h.settled + [Meaning(frame)] <= h'.settled)
            && (h'.phase != Running ==> h'.phase == Failed && h'.chain == if frame.PeerError? then [] else [PendingWrite(HostError, Failed)])
  {
    if h.active.Some? && Answers(frame, h.active.value) {
      var idle := h.(active := None, settled := h.settled + [Meaning(frame)]);
      PumpKeeps(idle);
      PumpAppends(idle);
    }
  }

  lemma {:induction false} PumpAppends(h: Host)
    ensures h.settled <= Pump(h).settled && h.requests <= Pump(h).requests
    decreases |h.queue|
  {
    if h.phase == Running && h.active.None? && h.queue != [] && !h.queue[0].admission.Admitted? {
      var outcome := if h.queue[0].admission == SignalAborted then Interrupted else ContextRefused;
      PumpAppends(h.(queue := h.queue[1..], settled := h.settled + [Settlement(h.queue[0].id, outcome)]));
    }
  }

  lemma RequestsGrow(h: Host, e: HostEvent)
    ensures h.requests <= HostStep(h, e).requests
  {
    match e
    case NewCall(valid, aborted, admission) => PumpAppends(Joined(h, admission));
    case Arrive(frame) =>
      if h.active.Some? && (frame.Result? || frame.ToolError? || frame.Cancelled?) {
        PumpAppends(h.(active := None, settled := h.settled + [Settlement(h.active.value.id, Meaning(frame).outcome)]));
      }
    case _ =>
  }

  lemma RunNext(es: seq<HostEvent>, e: HostEvent)
    ensures HostRun(es + [e]) == HostStep(HostRun(es), e)
  {
    assert (es + [e])[..|es|] == es;
  }

  /** An abort reaches its call at once: the active one is cancelled, with one `cancel` on the chain if
      none was sent, a queued one is settled as interrupted and out of the queue. A deadline cancels the
      active call in the same way and touches no other. */
  lemma AbortsTakeEffect(es: seq<HostEvent>, id: nat, deadline: bool)
    requires HostRun(es).phase == Running
    ensures var h, h' := HostRun(es), HostRun(es + [if deadline then DeadlineTimer(id) else AbortSignal(id)]);
            && (h.active.Some? && h.active.value.id == id ==>
                  && h'.active == Some(h.active.value.(cancelSent := true))
                  && h'.chain == h.chain + (if h.active.value.cancelSent then [] else [PendingWrite(Cancel(id), Running)]))
            && (Queued(h.queue, id) > 0 && !deadline ==>
                  h'.settled == h.settled + [Settlement(id, Interrupted)] && Queued(h'.queue, id) == 0)
            && (Active(h, id) == 0 && (deadline || Queued(h.queue, id) == 0) ==> h' == h)
  {
    RunNext(es, if deadline then DeadlineTimer(id) else AbortSignal(id));
    HostRunKeeps(es, id);
    QueuedIffIndexed(HostRun(es).queue, id);
    if Active(HostRun(es), id) == 0 && !deadline && Queued(HostRun(es).queue, id) > 0 {
      DequeuedOnce(HostRun(es).queue, QueueIndex(HostRun(es).queue, id), id);
    }
  }

  /** An id that stands once in a queue is gone when it is taken out. */
  lemma DequeuedOnce(queue: seq<Call>, i: nat, id: nat)
    requires Queued(queue, id) <= 1 && i < |queue| && queue[i].id == id
    ensures Queued(queue[..i] + queue[i + 1..], id) == 0
  {
    QueuedWithout(queue, i, id);
  }

  /** In a running session a valid checkpoint joins the chain; anything else is refused without effect. */
  lemma CheckpointsJoin(es: seq<HostEvent>, m: Metrics.Partial)
    ensures var h := HostRun(es);
            HostRun(es + [EmitMetrics(m)])
            == if h.phase == Running && Metrics.HostAcceptsPartial(m)
               then h.(chain := h.chain + [PendingWrite(Checkpoint(m), Running)]) else h
  {
    RunNext(es, EmitMetrics(m));
  }

  /** Valid final metrics join the chain and begin the end of a running session without a call that is
      active or queued; anything else is refused without effect. */
  lemma FinishBegins(es: seq<HostEvent>, f: Metrics.Final)
    ensures var h := HostRun(es);
            HostRun(es + [FinishRun(f)])
            == if h.phase == Running && h.active.None? && Metrics.HostAcceptsFinal(f)
               then h.(phase := Finishing, chain := h.chain + [PendingWrite(FinalFrame(f), Finishing)]) else h
  {
    IdleIsEmpty(es);
    RunNext(es, FinishRun(f));
  }

  lemma IdleIsEmpty(es: seq<HostEvent>)
    ensures HostRun(es).active.None? ==> HostRun(es).queue == []
  {
    HostRunKeeps(es, 0);
  }

  /** The head of the chain is written exactly if the phase it needs still holds, and otherwise fails the
      session; the session is finished once its final frame is written and the input closed. */
  lemma WritesTakeTurns(es: seq<HostEvent>)
    ensures var h := HostRun(es);
            && (h.chain != [] && h.chain[0].needs == h.phase ==> HostRun(es + [Write]) == h.(chain := h.chain[1..]))
            && (h.chain != [] && h.chain[0].needs != h.phase && h.phase != Finished ==> HostRun(es + [Write]).phase == Failed)
            && HostRun(es + [CloseInput]) == (if h.phase == Finishing && h.chain == [] then h.(phase := Finished) else h)
  {
    RunNext(es, Write);
    RunNext(es, CloseInput);
  }

  lemma {:induction false} SettledSomewhere(settled: seq<Settlement>, id: nat)
    requires Settled(settled, id) > 0
    ensures exists i :: 0 <= i < |settled| && settled[i].id == id
  {
    var n := |settled| - 1;
    if settled[n].id != id {
      SettledSomewhere(settled[..n], id);
    }
  }

  lemma {:induction false} QueuedIffIndexed(queue: seq<Call>, id: nat)
    ensures Queued(queue, id) > 0 <==> QueueIndex(queue, id) < |queue|
  {
    if queue != [] {
      QueuedHead(queue, id);
      QueuedIffIndexed(queue[1..], id);
    }
  }
}
