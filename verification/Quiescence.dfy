/** The peer's duty to leave no process behind. Every command runs under a token; a token is an open
    obligation until a scan of the task attests that nothing of it runs any more. */
module Quiescence {
  import opened Wrappers
  import Wait = ShieldedWait

  type Token = nat

  /** How a coroutine ends: a value, a tool error the host is told about, a protocol error that ends
      the session, a cancellation, or any other exception. */
  datatype Exit = Returned | ToolError | ProtocolFault | Cancellation | OtherError

  /** `registered` and `quiesced` record the tokens ever issued and ever attested quiescent; `aborted`
      that the task was given up, `destroyed` that some request to destroy it succeeded. */
  datatype Ledger = Ledger(
    tokens: set<Token>,
    closed: bool,
    destructionConfirmed: bool,
    registered: set<Token>,
    quiesced: set<Token>,
    aborted: bool,
    destroyed: bool)

  const FRESH := Ledger({}, false, true, {}, {}, false, false)

  ghost predicate Sound(d: Ledger) {
    && d.tokens <= d.registered
    && (!d.closed ==> d.tokens == d.registered - d.quiesced && !d.aborted && d.destructionConfirmed)
    && (d.closed && !d.aborted ==> d.tokens == {} && d.registered <= d.quiesced && d.destructionConfirmed)
    && (d.aborted ==> d.closed && d.tokens == {} && (d.destructionConfirmed ==> d.destroyed))
  }

  ghost predicate IssuedBelow(d: Ledger, next: Token) {
    forall t :: t in d.registered || t in d.quiesced ==> t < next
  }

  function Opened(d: Ledger, token: Token): Ledger {
    d.(tokens := d.tokens + {token}, registered := d.registered + {token})
  }

  function Discharged(d: Ledger, token: Token): Ledger {
    d.(tokens := d.tokens - {token}, quiesced := d.quiesced + {token})
  }

  function AbortedTask(d: Ledger, stopped: bool): Ledger {
    d.(tokens := {}, closed := true, destructionConfirmed := stopped, aborted := true, destroyed := d.destroyed || stopped)
  }

  predicate GaveUp(before: Ledger, after: Ledger) {
    && after.closed && after.aborted && after.tokens == {}
    && (after.destructionConfirmed ==> after.destroyed)
    && (before.destroyed ==> after.destroyed)
    && after.registered == before.registered
    && before.quiesced <= after.quiesced <= before.quiesced + before.registered
  }

  /** What one tool call may do to the ledger. */
  ghost predicate Call(before: Ledger, exit: Exit, after: Ledger) {
    var added := after.registered - before.registered;
    && (before.closed ==> exit == ToolError && after == before)
    && before.registered <= after.registered && before.quiesced <= after.quiesced
    && (after.closed && !before.closed ==> GaveUp(before.(registered := after.registered), after))
    && (!after.closed ==> after == before.(registered := after.registered, quiesced := before.quiesced + added))
    && (exit != ProtocolFault ==> added <= after.quiesced && added * after.tokens == {})
    && (exit == ProtocolFault && after.closed ==> after.aborted)
    && (exit in {Returned, ToolError, OtherError} ==> after.closed == before.closed)
  }

  /** What closing the dispatcher may do to the ledger. */
  ghost predicate Closing(before: Ledger, exit: Exit, after: Ledger) {
    && after.registered == before.registered && before.quiesced <= after.quiesced && after.tokens <= before.tokens
    && (before.closed ==> after.closed && after.aborted == before.aborted)
    && (exit == Returned ==> after.closed && (after.registered <= after.quiesced || (after.aborted && after.destroyed)))
  }

  /** What the environment makes of one command: `attests` says that its output is the awaited one. */
  datatype Reply = TimedOut | TooLate | ProfileChanged | TooMuchOutput | Output(attests: bool) | Interrupted | Broken

  /** What the environment makes of the request to destroy the task. */
  datatype StopReply = CannotStop | StopFails | Stops

  function ExitFor(reply: Reply): Exit {
    match reply
    case Output(_) => Returned
    case ProfileChanged => ProtocolFault
    case Interrupted => Cancellation
    case Broken => OtherError
    case _ => ToolError
  }

  /** How a cleanup ends whose scans are answered like this: the first scan that attests or finds the
      profile changed decides, and without one the task is given up. */
  function Verdict(scans: seq<Reply>): Wait.TaskEnd {
    if scans == [] || scans[0] == ProfileChanged then Wait.Faulted
    else if scans[0] == Output(true) then Wait.Succeeded
    else Verdict(scans[1..])
  }

  /** How the commands of a body end it: at the first that does not do what it should. */
  function BodyExit(commands: seq<Reply>, reportsTimeout: bool): Exit {
    if commands == [] then Returned
    else if commands[0] == Output(true) then BodyExit(commands[1..], reportsTimeout)
    else
      var exit := if commands[0].Output? then ToolError else ExitFor(commands[0]);
      if exit == ToolError && reportsTimeout then Returned else exit
  }

  /** One contained command and what the environment makes of its parts: the process list before it, its
      own commands, the three scans there may be after it, and whether a tool error lets the tool go on. */
  datatype Command = Command(baseline: Reply, commands: seq<Reply>, reportsTimeout: bool, scans: seq<Reply>, stop: StopReply, goesOn: bool)

  /** What the caller of a contained command sees. */
  function ExitOf(c: Command, cancelled: bool): Exit {
    if ExitFor(c.baseline) != Returned then ExitFor(c.baseline)
    else if c.baseline == Output(false) then ToolError
    else if Verdict(c.scans) == Wait.Faulted then ProtocolFault
    else if cancelled then Cancellation
    else BodyExit(c.commands, c.reportsTimeout)
  }

  predicate Continues(c: Command, cancelled: bool) {
    ExitOf(c, cancelled) == Returned || (ExitOf(c, cancelled) == ToolError && c.goesOn)
  }

  /** The commands of a call run in order until one ends the call; the tool itself has the last word if
      none does. */
  predicate EndedBy(commands: seq<Command>, cancels: seq<bool>, refusal: Exit, exit: Exit) {
    && |cancels| <= |commands|
    && (forall i | 0 <= i < |cancels| - 1 :: Continues(commands[i], cancels[i]))
    && (if cancels != [] && !Continues(commands[|cancels| - 1], cancels[|cancels| - 1])
        then exit == ExitOf(commands[|cancels| - 1], cancels[|cancels| - 1])
        else |cancels| == |commands| && exit == refusal)
  }

  /** The turns make up a possible run of a shielded wait that the waiter has left. */
  predicate Left(holdOff: bool, es: seq<Wait.Event>) {
    Wait.Possible(holdOff, es) && Wait.Run(holdOff, es).left.Some?
  }

  class RemoteToolDispatcher {
    var tokens: set<Token>
    var closed: bool
    var destructionConfirmed: bool
    var nextToken: Token
    ghost var registered: set<Token>
    ghost var quiesced: set<Token>
    ghost var aborted: bool
    ghost var destroyed: bool

    ghost function Model(): Ledger
      reads this
    {
      Ledger(tokens, closed, destructionConfirmed, registered, quiesced, aborted, destroyed)
    }

    /** Tokens are drawn from an inexhaustible supply and never repeat. */
    ghost predicate Valid()
      reads this
    {
      Sound(Model()) && IssuedBelow(Model(), nextToken)
    }

    constructor ()
      ensures Valid() && Model() == FRESH
    {
      tokens, closed, destructionConfirmed, nextToken := {}, false, true, 0;
      registered, quiesced, aborted, destroyed := {}, {}, false, false;
    }

    /** Destroy the task. The request is shielded: whatever cancellations arrive and whenever, it is
        awaited to its end, and destruction counts as confirmed exactly if it succeeded. */
    method AbortTask(stop: StopReply) returns (exit: Exit)
      modifies this
      ensures exit == ProtocolFault && nextToken == old(nextToken)
      ensures Model() == AbortedTask(old(Model()), stop == Stops)
    {
      closed, destructionConfirmed := true, false;
      var confirmed := false;
      if stop != CannotStop {
        ghost var es;
        confirmed, es := AwaitStop(stop == Stops);
      }
      tokens := {};
      destructionConfirmed := confirmed;
      aborted, destroyed := true, destroyed || confirmed;
      exit := ProtocolFault;
    }

    /** The waiter's loop around the shielded stop request. Each turn belongs to whoever is next: the
        request, somebody who cancels, or the waiter. */
    method AwaitStop(stops: bool) returns (confirmed: bool, ghost es: seq<Wait.Event>)
      ensures Left(true, es) && confirmed == stops
    {
      var w := Wait.Begin(true);
      es := [];
      var cancellations: nat, work: nat := *, *;
      while w.left.None?
        invariant Wait.Possible(true, es) && w == Wait.Run(true, es)
        invariant w.ended.Some? ==> w.ended.value == if stops then Wait.Succeeded else Wait.Faulted
        decreases cancellations, work, w.ended.None?, w.requested, w.left.None?
      {
        ghost var e;
        var turn: int := *;
        if turn == 0 && cancellations > 0 {
          e, cancellations := Wait.CancelArrives, cancellations - 1;
          w := w.(requested := true);
        } else if Wait.CanWake(w) && (turn == 1 || w.ended.Some?) {
          e := Wait.WaiterWakes;
          w := Wait.Wake(w);
        } else if work > 0 {
          e, work := Wait.TaskWorks, work - 1;
        } else {
          e := Wait.TaskEnds(if stops then Wait.Succeeded else Wait.Faulted);
          w := w.(ended := Some(if stops then Wait.Succeeded else Wait.Faulted));
        }
        Wait.RunNext(true, es, e);
        es := es + [e];
      }
      Wait.WaiterOutlastsTask(true, es);
      confirmed := w.left == Some(Wait.Normally);
    }

    /** Run one shell command in the task. A late result is never an observation, and a command profile
        that changed under the session destroys the task. */
    method RawExec(reply: Reply, stop: StopReply) returns (exit: Exit)
      modifies this
      ensures exit == ExitFor(reply) && nextToken == old(nextToken)
      ensures Model() == if reply == ProfileChanged then AbortedTask(old(Model()), stop == Stops) else old(Model())
    {
      match reply {
        case TimedOut => exit := ToolError;
        case TooLate => exit := ToolError;
        case ProfileChanged => exit := AbortTask(stop);
        case TooMuchOutput => exit := ToolError;
        case Output(_) => exit := Returned;
        case Interrupted => exit := Cancellation;
        case Broken => exit := OtherError;
      }
    }

    method QuiesceToken(token: Token, scan: Reply, stop: StopReply) returns (exit: Exit)
      requires token < nextToken
      modifies this
      ensures nextToken == old(nextToken)
      ensures exit == if scan == Output(false) then ToolError else ExitFor(scan)
      ensures Model() == match scan
                         case ProfileChanged => AbortedTask(old(Model()), stop == Stops)
                         case Output(true) => Discharged(old(Model()), token)
                         case _ => old(Model())
    {
      exit := RawExec(scan, stop);
      if exit == Returned {
        if !scan.attests {
          return ToolError;
        }
        tokens, quiesced := tokens - {token}, quiesced + {token};
      }
    }

    /** One step of the cleanup: an attempt to quiesce the token or, after three, giving the task up. */
    method CleanupStep(token: Token, attempt: nat, scans: seq<Reply>, stop: StopReply) returns (end: Option<Wait.TaskEnd>)
      requires token < nextToken && attempt <= |scans| == 3
      modifies this
      ensures nextToken == old(nextToken)
      ensures end.Some? ==> end.value == Verdict(scans[attempt..])
      ensures end.None? ==> attempt < 3 && Verdict(scans[attempt..]) == Verdict(scans[attempt + 1..])
      ensures end.None? ==> scans[attempt] != Output(true) && scans[attempt] != ProfileChanged
      ensures Model() == match end
                         case None => old(Model())
                         case Some(Succeeded) => Discharged(old(Model()), token)
                         case Some(Faulted) => AbortedTask(old(Model()), stop == Stops)
    {
      var exit;
      if attempt == 3 {
        exit := AbortTask(stop);
        return Some(Wait.Faulted);
      }
      exit := QuiesceToken(token, scans[attempt], stop);
      end := if exit == Returned then Some(Wait.Succeeded) else if exit == ProtocolFault then Some(Wait.Faulted) else None;
    }

    /** Three attempts, then the task is given up. Only the pause after a failed attempt can be cancelled:
        the first scan that attests ends the cleanup, and the task is given up for three failed scans or
        a changed profile and for nothing else. */
    method EnsureQuiescent(token: Token, scans: seq<Reply>, stop: StopReply) returns (exit: Exit)
      requires token < nextToken && |scans| == 3
      modifies this
      ensures nextToken == old(nextToken)
      ensures exit in {Returned, ProtocolFault, Cancellation}
      ensures exit == Returned ==> Verdict(scans) == Wait.Succeeded && Model() == Discharged(old(Model()), token)
      ensures exit == ProtocolFault ==> Verdict(scans) == Wait.Faulted && Model() == AbortedTask(old(Model()), stop == Stops)
      ensures exit == Cancellation ==> Model() == old(Model()) && scans[0] != Output(true) && scans[0] != ProfileChanged
    {
      var attempt := 0;
      while true
        invariant attempt <= 3 && Model() == old(Model()) && nextToken == old(nextToken)
        invariant Verdict(scans[attempt..]) == Verdict(scans)
        invariant attempt > 0 ==> scans[0] != Output(true) && scans[0] != ProfileChanged
        decreases 3 - attempt
      {
        var end := CleanupStep(token, attempt, scans, stop);
        if end.Some? {
          return if end.value == Wait.Succeeded then Returned else ProtocolFault;
        }
        var cancelled: bool := *;
        if cancelled {
          return Cancellation;
        }
        attempt := attempt + 1;
      }
    }

    /** The cleanup runs as a task of its own, shielded, and is awaited to its end: its attempts, the
        cancellations and the waiter's turns may come in any order. The token is discharged or the task
        given up before anything is raised, as its scans decide; a fault of the cleanup is raised whatever
        else happened, and otherwise a cancellation exactly if one arrived. */
    method CompleteQuiescenceObligation(token: Token, scans: seq<Reply>, stop: StopReply)
      returns (exit: Exit, ghost es: seq<Wait.Event>)
      requires token < nextToken && |scans| == 3
      modifies this
      ensures nextToken == old(nextToken) && Left(false, es)
      ensures exit == if Verdict(scans) == Wait.Faulted then ProtocolFault
                      else if Wait.CancelArrives in es then Cancellation else Returned
      ensures Model() == if Verdict(scans) == Wait.Faulted then AbortedTask(old(Model()), stop == Stops)
                         else Discharged(old(Model()), token)
    {
      var w := Wait.Begin(false);
      es := [];
      var cancellations: nat := *;
      var attempt := 0;
      while w.left.None?
        invariant Wait.Possible(false, es) && w == Wait.Run(false, es) && attempt <= 4 && nextToken == old(nextToken)
        invariant w.ended == None ==> attempt <= 3 && Model() == old(Model()) && Verdict(scans[attempt..]) == Verdict(scans)
        invariant w.ended.Some? ==> w.ended.value == Verdict(scans)
        invariant w.ended == Some(Wait.Succeeded) ==> Model() == Discharged(old(Model()), token)
        invariant w.ended == Some(Wait.Faulted) ==> Model() == AbortedTask(old(Model()), stop == Stops)
        decreases cancellations, 4 - attempt, w.requested, w.left.None?
      {
        ghost var e;
        var turn: int := *;
        if turn == 0 && cancellations > 0 {
          e, cancellations := Wait.CancelArrives, cancellations - 1;
          w := w.(requested := true);
        } else if Wait.CanWake(w) && (turn == 1 || w.ended.Some?) {
          e := Wait.WaiterWakes;
          w := Wait.Wake(w);
        } else {
          var end := CleanupStep(token, attempt, scans, stop);
          e := if end.Some? then Wait.TaskEnds(end.value) else Wait.TaskWorks;
          w, attempt := if end.Some? then w.(ended := end) else w, attempt + 1;
        }
        Wait.RunNext(false, es, e);
        es := es + [e];
      }
      Wait.WaiterOutlastsTask(false, es);
      exit := match w.left.value
        case Normally => Returned
        case Cancelled => Cancellation
        case WithFault => ProtocolFault;
    }

    /** Run commands under a fresh token. The body ends in any way; whatever that way is, the
        obligation is completed before the caller sees it, and a failing cleanup takes its place. */
    method Contained(c: Command) returns (exit: Exit, ghost cancelled: bool)
      requires Valid() && !closed && |c.scans| == 3
      modifies this
      ensures Valid() && Call(old(Model()), exit, Model())
      ensures exit == ExitOf(c, cancelled)
      ensures c.baseline == Output(true) <==> registered != old(registered)
    {
      ghost var before := Model();
      cancelled := false;
      exit := RawExec(c.baseline, c.stop);
      if exit != Returned {
        CallWithoutToken(before, exit, Model(), nextToken);
        return;
      }
      if !c.baseline.attests {
        exit := ToolError;
        return;
      }
      var token := nextToken;
      nextToken := nextToken + 1;
      tokens, registered := tokens + {token}, registered + {token};
      assert Model() == Opened(before, token) && token !in before.registered;
      var bodyExit := Body(c.commands, c.reportsTimeout, c.stop);
      ghost var ran := Model();
      var cleanup;
      ghost var es;
      cleanup, es := CompleteQuiescenceObligation(token, c.scans, c.stop);
      cancelled := Wait.CancelArrives in es;
      exit := if cleanup != Returned then cleanup else bodyExit;
      ObligationSettles(before, token, bodyExit, ran, cleanup, Model());
    }

    /** The commands of one body: setup, upload, launch and polls, or the single wrapped command. */
    method Body(commands: seq<Reply>, reportsTimeout: bool, stop: StopReply) returns (exit: Exit)
      modifies this
      ensures nextToken == old(nextToken)
      ensures exit == BodyExit(commands, reportsTimeout)
      ensures Model() == if exit == ProtocolFault then AbortedTask(old(Model()), stop == Stops) else old(Model())
    {
      exit := Returned;
      var next := 0;
      while next < |commands| && exit == Returned
        invariant next <= |commands| && nextToken == old(nextToken)
        invariant BodyExit(commands, reportsTimeout) == if exit == Returned then BodyExit(commands[next..], reportsTimeout)
                                                       else if exit == ToolError && reportsTimeout then Returned else exit
        invariant Model() == if exit == ProtocolFault then AbortedTask(old(Model()), stop == Stops) else old(Model())
      {
        exit := RawExec(commands[next], stop);
        if exit == Returned && !commands[next].attests {
          exit := ToolError;
        }
        next := next + 1;
      }
      // A launched command that outlives its deadline is reported as an ordinary observation.
      if exit == ToolError && reportsTimeout {
        exit := Returned;
      }
    }

    /** One tool call. A structured tool runs any number of contained commands, may go on after a tool
        error, and may refuse its arguments at any point; `bash` is the case of one command. */
    method Execute(commands: seq<Command>, refusal: Exit) returns (exit: Exit, ghost cancels: seq<bool>)
      requires Valid() && forall i | 0 <= i < |commands| :: |commands[i].scans| == 3
      modifies this
      ensures Valid() && Call(old(Model()), exit, Model())
      ensures if old(closed) then exit == ToolError && cancels == [] else EndedBy(commands, cancels, refusal, exit)
    {
      cancels := [];
      if closed {
        exit := ToolError;
        return;
      }
      exit := Returned;
      var next := 0;
      while next < |commands| && exit == Returned
        invariant Valid() && Call(old(Model()), exit, Model()) && (exit == Returned ==> !closed)
        invariant next == |cancels| <= |commands| && (cancels == [] ==> exit == Returned)
        invariant forall i | 0 <= i < |cancels| - 1 :: Continues(commands[i], cancels[i])
        invariant cancels != [] ==>
                    if Continues(commands[|cancels| - 1], cancels[|cancels| - 1]) then exit == Returned
                    else exit == ExitOf(commands[|cancels| - 1], cancels[|cancels| - 1]) != Returned
      {
        ghost var before := Model();
        ghost var cancelled;
        exit, cancelled := Contained(commands[next]);
        cancels := cancels + [cancelled];
        CallsCompose(old(Model()), before, exit, Model());
        if exit == ToolError && commands[next].goesOn {
          exit := Returned;
        }
        next := next + 1;
      }
      if exit == Returned {
        exit := refusal;
      }
    }

    /** Quiesce every open token, in any order, going on after a protocol fault but not after a
        cancellation. */
    method QuiesceAll(scans: Token -> seq<Reply>, stop: StopReply) returns (exit: Exit, failed: bool)
      requires Valid() && !closed && forall token :: |scans(token)| == 3
      modifies this
      ensures Valid() && exists remaining :: ClosingSoFar(old(Model()), Model(), remaining, failed) && (exit != Cancellation ==> remaining == {})
      ensures exit in {Returned, Cancellation}
      ensures exit == Returned ==> (failed <==> exists token :: token in old(tokens) && Verdict(scans(token)) == Wait.Faulted)
      ensures exit == Cancellation ==> exists token :: token in old(tokens) && scans(token)[0] != Output(true)
    {
      ghost var before := Model();
      var remaining := tokens;
      failed, exit := false, Returned;
      while remaining != {}
        invariant Valid() && ClosingSoFar(before, Model(), remaining, failed) && remaining <= before.tokens && exit == Returned
        invariant failed <==> exists token :: token in before.tokens - remaining && Verdict(scans(token)) == Wait.Faulted
        decreases |remaining|
      {
        var token :| token in remaining;
        ghost var last := Model();
        exit := EnsureQuiescent(token, scans(token), stop);
        TokenClosed(before, last, remaining, failed, token, nextToken, exit, Model());
        if exit == Cancellation {
          return;
        }
        failed := failed || exit == ProtocolFault;
        remaining := remaining - {token};
        exit := Returned;
      }
    }

    /** Close the dispatcher: quiesce what is still open and remove the remote state, or confirm that
        the task was destroyed. `failure` is how a failed stop request of a closed dispatcher ends. */
    method Close(scans: Token -> seq<Reply>, removal: Reply, stop: StopReply, failure: Exit) returns (exit: Exit)
      requires Valid() && forall token :: |scans(token)| == 3
      modifies this
      ensures Valid() && Closing(old(Model()), exit, Model())
      ensures old(closed) ==> (exit == Returned <==> old(destructionConfirmed) || stop == Stops)
      ensures !old(closed) && exit == Returned ==>
                removal == Output(true) && forall token <- old(tokens) :: Verdict(scans(token)) == Wait.Succeeded
      ensures !old(closed) && removal == Output(true) && (forall token <- old(tokens) :: scans(token)[0] == Output(true)) ==>
                exit == Returned
    {
      if closed {
        if !destructionConfirmed {
          if stop != Stops {
            return if failure == Cancellation then Cancellation else OtherError;
          }
          destructionConfirmed, destroyed := true, true;
        }
        return Returned;
      }
      var failed;
      exit, failed := QuiesceAll(scans, stop);
      if exit == Cancellation {
        return;
      }
      if failed {
        destroyed := destroyed || stop == Stops;
        return OtherError;
      }
      exit := RawExec(removal, stop);
      if exit != Returned {
        return;
      }
      if !removal.attests {
        return OtherError;
      }
      NothingOpen(Model());
      closed := true;
    }
  }

  ghost predicate ClosingSoFar(before: Ledger, d: Ledger, remaining: set<Token>, failed: bool) {
    && remaining <= d.registered == before.registered && before.quiesced <= d.quiesced && d.tokens <= before.tokens
    && (d.closed <==> failed)
    && (!failed ==> d.tokens <= remaining)
  }

  lemma TokenClosed(before: Ledger, last: Ledger, remaining: set<Token>, failed: bool, token: Token, next: Token, exit: Exit, d: Ledger)
    requires Sound(last) && IssuedBelow(last, next) && ClosingSoFar(before, last, remaining, failed) && token in remaining
    requires exit == Returned ==> d == Discharged(last, token)
    requires exit == ProtocolFault ==> GaveUp(last, d)
    requires exit == Cancellation ==> d == last
    requires exit in {Returned, ProtocolFault, Cancellation}
    ensures Sound(d) && IssuedBelow(d, next)
    ensures ClosingSoFar(before, d, remaining - (if exit == Cancellation then {} else {token}), failed || exit == ProtocolFault)
  {
  }

  lemma NothingOpen(d: Ledger)
    requires Sound(d) && !d.closed && d.tokens == {}
    ensures d.registered <= d.quiesced
  {
    assert forall t <- d.registered :: t !in d.quiesced ==> t in d.registered - d.quiesced;
  }

  lemma CallWithoutToken(before: Ledger, exit: Exit, after: Ledger, next: Token)
    requires Sound(before) && IssuedBelow(before, next) && !before.closed
    requires exit == ProtocolFault ==> GaveUp(before, after)
    requires exit != ProtocolFault ==> after == before
    ensures Sound(after) && IssuedBelow(after, next) && Call(before, exit, after)
  {
    assert after.registered - before.registered == {};
    assert before.quiesced + {} == before.quiesced;
  }

  lemma ObligationSettles(before: Ledger, token: Token, bodyExit: Exit, ran: Ledger, cleanup: Exit, after: Ledger)
    requires Sound(before) && IssuedBelow(before, token) && !before.closed
    requires bodyExit == ProtocolFault ==> GaveUp(Opened(before, token), ran)
    requires bodyExit != ProtocolFault ==> ran == Opened(before, token)
    requires cleanup in {Returned, Cancellation, ProtocolFault}
    requires cleanup != ProtocolFault ==> after == Discharged(ran, token)
    requires cleanup == ProtocolFault ==> GaveUp(ran, after)
    ensures Sound(after) && IssuedBelow(after, token + 1)
    ensures Call(before, if cleanup != Returned then cleanup else bodyExit, after)
  {
    assert after.registered - before.registered == {token};
    if cleanup != ProtocolFault {
      assert after.quiesced == ran.quiesced + {token};
      if bodyExit != ProtocolFault {
        assert before.tokens + {token} - {token} == before.tokens;
      } else {
        assert after.tokens == {};
      }
    }
  }

  /** Two calls' worth of effects, the first of which returned, are one call's worth. */
  lemma CallsCompose(a: Ledger, b: Ledger, exit: Exit, c: Ledger)
    requires !b.closed
    requires Sound(a) && Sound(b) && Call(a, Returned, b) && Call(b, exit, c)
    ensures Call(a, exit, c)
  {
    assert c.registered - a.registered == (c.registered - b.registered) + (b.registered - a.registered);
  }

  // ---- When the task is given up, and when a command returns ----

  /** A scan that decides nothing: the next one is tried. */
  predicate Undecided(reply: Reply) {
    reply != Output(true) && reply != ProfileChanged
  }

  /** A cleanup succeeds exactly if some scan attests and every earlier one was undecided; so a first scan
      that attests suffices, and the task is given up only if no scan attests or an earlier one found the
      profile changed. */
  lemma {:induction false} VerdictMeans(scans: seq<Reply>)
    ensures Verdict(scans) == Wait.Succeeded
            <==> exists k :: 0 <= k < |scans| && scans[k] == Output(true) && forall j | 0 <= j < k :: Undecided(scans[j])
  {
    if scans != [] && Undecided(scans[0]) {
      VerdictMeans(scans[1..]);
      if Verdict(scans) == Wait.Succeeded {
        var k :| 0 <= k < |scans| - 1 && scans[1..][k] == Output(true) && forall j | 0 <= j < k :: Undecided(scans[1..][j]);
        assert scans[k + 1] == Output(true) && forall j | 0 <= j < k + 1 :: j == 0 || scans[j] == scans[1..][j - 1];
      }
      if k :| 0 <= k < |scans| && scans[k] == Output(true) && forall j | 0 <= j < k :: Undecided(scans[j]) {
        assert scans[1..][k - 1] == Output(true) && forall j | 0 <= j < k - 1 :: scans[1..][j] == scans[j + 1];
      }
    }
  }

  lemma {:induction false} BodyReturns(commands: seq<Reply>)
    ensures BodyExit(commands, false) == Returned <==> forall i | 0 <= i < |commands| :: commands[i] == Output(true)
    ensures BodyExit(commands, true) == if BodyExit(commands, false) == ToolError then Returned else BodyExit(commands, false)
  {
    if commands != [] && commands[0] == Output(true) {
      BodyReturns(commands[1..]);
      assert forall i | 0 < i < |commands| :: commands[i] == commands[1..][i - 1];
    }
  }

  /** A contained command returns normally exactly if the list of processes was taken, every command of
      its body did what it should (or its failure is one reported as an observation), its cleanup
      succeeded and nobody cancelled it meanwhile. */
  lemma ReturnsExactlyIfClean(c: Command, cancelled: bool)
    ensures ExitOf(c, cancelled) == Returned
            <==> && c.baseline == Output(true)
                 && ((forall i | 0 <= i < |c.commands| :: c.commands[i] == Output(true))
                     || (c.reportsTimeout && BodyExit(c.commands, false) == ToolError))
                 && Verdict(c.scans) == Wait.Succeeded && !cancelled
  {
    BodyReturns(c.commands);
  }

  // ---- Whole sessions ----

  datatype Step =
    | Executed(exit: Exit, after: Ledger)
    | ClosedWith(exit: Exit, after: Ledger)

  ghost predicate Session(d: Ledger, steps: seq<Step>)
    decreases |steps|
  {
    steps == [] ||
    (&& (match steps[0]
         case Executed(exit, after) => Call(d, exit, after)
         case ClosedWith(exit, after) => Closing(d, exit, after))
     && Sound(steps[0].after)
     && Session(steps[0].after, steps[1..]))
  }

  /** While the dispatcher is open nothing runs between calls; once it is closed by an abort no token
      is ever registered and no observation returned again. */
  lemma {:induction false} SessionsLeakNothing(d: Ledger, steps: seq<Step>, i: nat)
    requires Sound(d) && Session(d, steps) && i < |steps|
    requires d.tokens == {}
    ensures var step := steps[i];
            && step.after.tokens == {}
            && (step.exit == Returned ==> step.after.registered <= step.after.quiesced || (step.ClosedWith? && step.after.destroyed))
            && (step.Executed? && step.exit == Returned ==> !step.after.closed && !d.closed)
            && (d.closed ==> step.after.closed && step.after.registered == d.registered)
            && (step.Executed? && step.exit != ProtocolFault && !step.after.closed ==> step.after.registered <= step.after.quiesced)
    decreases |steps|
  {
    var after := steps[0].after;
    if !after.closed {
      assert after.tokens == {};
      NothingOpen(after);
    }
    if i > 0 {
      SessionsLeakNothing(steps[0].after, steps[1..], i - 1);
    }
  }
}
