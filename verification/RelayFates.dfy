/** What becomes of the relay's jobs, step by step and over runs: when a job is accepted and where it goes,
    what alone drops it, and that nothing of a revoked pairing is ever handed out again. */
module RelayFates {
  import opened RelayHosts
  import opened RelayJobs
  import opened Wrappers

  predicate InTable(table: seq<Entry>, host: Host) {
    exists i | 0 <= i < |table| :: table[i].id == host
  }

  /** The host was in the table, or has just been seen, and is not in the table afterwards. */
  predicate Forgets(r: Relay, e: Event, host: Host) {
    && (e.Connects? || e.Touches?) && (InTable(r.table, host) || e.host == host)
    && !InTable(Step(r, e).table, host)
  }

  /** The host's queue is given up: the pairing is revoked or the host forgotten. */
  predicate GivesUp(r: Relay, e: Event, host: Host) {
    e.Revokes? || Forgets(r, e, host)
  }

  lemma UpsertEnters(table: seq<Entry>, id: Host, now: int, host: Host)
    requires Distinct(table)
    ensures InTable(Upsert(table, id, now), host) <==> InTable(table, host) || id == host
  {
    UpsertHolds(table, id, now);
    var t := Upsert(table, id, now);
    if i :| 0 <= i < |t| && t[i].id == host && id != host {
      assert t[i] in table;
    }
    if i :| 0 <= i < |table| && table[i].id == host && id != host {
      assert table[i] in t;
    }
    if id == host {
      assert Entry(id, now) in t;
    }
  }

  /** The trim takes out exactly the hosts of the stale entries. */
  lemma TrimForgets(table: seq<Entry>, host: Host)
    requires Distinct(table)
    ensures InTable(Stale(table), host) <==> InTable(table, host) && !InTable(Without(table, Stale(table)), host)
  {
    var stale, kept := Stale(table), Without(table, Stale(table));
    SortHolds(table);
    WithoutHolds(table, stale);
    if i :| 0 <= i < |stale| && stale[i].id == host {
      assert stale[i] in NewestFirst(table) && stale[i] in table;
      forall j | 0 <= j < |kept| ensures kept[j].id != host {
        assert kept[j] in table && kept[j] != stale[i];
      }
    }
    if i :| 0 <= i < |table| && table[i].id == host && !InTable(kept, host) {
      assert table[i] !in kept;
    }
  }

  lemma {:induction false} DropQueuesExactly(lanes: map<Host, Lane>, gone: seq<Entry>, host: Host)
    ensures LaneOf(DropQueues(lanes, gone), host) == if InTable(gone, host) then Drop(LaneOf(lanes, host)) else LaneOf(lanes, host)
    decreases |gone|
  {
    if gone != [] {
      var lane := LaneOf(lanes, gone[0].id);
      assert lane.dropped + lane.queue + [] == lane.dropped + lane.queue;
      DropQueuesExactly(lanes[gone[0].id := Drop(lane)], gone[1..], host);
      assert gone == [gone[0]] + gone[1..];
      assert InTable(gone, host) <==> gone[0].id == host || InTable(gone[1..], host) by {
        if i :| 0 <= i < |gone| - 1 && gone[1..][i].id == host {
          assert gone[i + 1].id == host;
        }
      }
    }
  }

  lemma TouchMoves(r: Relay, to: Host, now: int, host: Host)
    requires Distinct(r.table)
    ensures var after := Touch(r, to, now);
            LaneOf(after.lanes, host) == if (InTable(r.table, host) || to == host) && !InTable(after.table, host)
                                         then Drop(LaneOf(r.lanes, host)) else LaneOf(r.lanes, host)
  {
    var t := Upsert(r.table, to, now);
    UpsertHolds(r.table, to, now);
    UpsertEnters(r.table, to, now, host);
    TrimForgets(t, host);
    DropQueuesExactly(r.lanes, Stale(t), host);
  }

  /** What one event does to the jobs of one host. */
  predicate Moves(r: Relay, e: Event, host: Host) {
    var lane, lane' := LaneOf(r.lanes, host), LaneOf(Step(r, e).lanes, host);
    if GivesUp(r, e, host) then
      lane'.delivered == lane.delivered && lane'.queue == [] && lane'.dropped == lane.dropped + lane.queue
    else
      && lane'.dropped == lane.dropped
      && match e
         case SendTo(to) =>
           var job := Job(r.epoch, r.counter + 1, host);
           if to != host then lane'.delivered == lane.delivered && lane'.queue == lane.queue
           else if (lane.sockets != [] && lane.sockets[0]) || lane.waiters > 0
           then lane'.delivered == lane.delivered + [job] && lane'.queue == lane.queue
           else lane'.delivered == lane.delivered && lane'.queue == if |lane.queue| < 100 then lane.queue + [job] else lane.queue
         case PullFor(to) =>
           var taken := if to == host && lane.queue != [] then 1 else 0;
           lane'.delivered == lane.delivered + lane.queue[..taken] && lane'.queue == lane.queue[taken..]
         case Connects(to, _, sends, _) =>
           var taken := if to == host then Min(sends, |lane.queue|) else 0;
           lane'.delivered == lane.delivered + lane.queue[..taken] && lane'.queue == lane.queue[taken..]
         case _ => lane'.delivered == lane.delivered && lane'.queue == lane.queue
  }

  lemma ConnectMoves(r: Relay, e: Event, host: Host)
    requires Distinct(r.table) && e.Connects?
    ensures Moves(r, e, host)
  {
    var accepted := Update(r, e.host, Accept(LaneOf(r.lanes, e.host), e.lingering));
    TouchMoves(accepted, e.host, e.now, host);
    assert Step(r, e).table == Touch(accepted, e.host, e.now).table;
  }

  lemma PullMoves(r: Relay, e: Event, host: Host)
    requires e.PullFor?
    ensures Moves(r, e, host)
  {
    var lane := LaneOf(r.lanes, host);
    assert lane.queue[..0] == [] && lane.delivered + [] == lane.delivered;
    if lane.queue != [] {
      assert lane.queue[..1] == [lane.queue[0]];
    }
  }

  lemma OtherMoves(r: Relay, e: Event, host: Host)
    requires !e.Connects? && !e.Touches? && !e.PullFor?
    ensures Moves(r, e, host)
  {
  }

  /** Jobs move only like this: a send goes to the first socket, to a waiting poll, or to a queue of fewer
      than 100, and only then is it refused; a poll takes the oldest queued job; a reconnect takes as many
      as its socket survives, oldest first; queues are given up by revocation and by forgetting the host,
      and nothing else loses a job. */
  lemma StepMoves(es: seq<Event>, e: Event, host: Host)
    ensures Moves(Run(EMPTY, es), e, host)
  {
    RunKeeps(EMPTY, es);
    if e.Connects? {
      ConnectMoves(Run(EMPTY, es), e, host);
    } else if e.Touches? {
      TouchMoves(Run(EMPTY, es), e.host, e.now, host);
    } else if e.PullFor? {
      PullMoves(Run(EMPTY, es), e, host);
    } else {
      OtherMoves(Run(EMPTY, es), e, host);
    }
  }

  /** Who can be reached after one event: the polls waiting, and the sockets listed. */
  predicate Reaches(r: Relay, e: Event, host: Host) {
    var lane, lane' := LaneOf(r.lanes, host), LaneOf(Step(r, e).lanes, host);
    && lane'.waiters == (if e.Revokes? || e.host != host then lane.waiters
                         else if e.PullFor? then lane.waiters + (if lane.queue == [] then 1 else 0)
                         else if e.SendTo? || e.PollEnds? then Max(0, lane.waiters - 1)
                         else lane.waiters)
    && match e
       case Connects(to, lingering, sends, _) =>
         if to != host then lane'.sockets == lane.sockets else
           && |lane'.sockets| == Min(lingering, |lane.sockets|) + 1
           && (forall i | 0 <= i < |lane'.sockets| - 1 :: !lane'.sockets[i])
           && (lane'.sockets[|lane'.sockets| - 1] <==> Forgets(r, e, host) || sends >= |lane.queue|)
       case Revokes => |lane'.sockets| == |lane.sockets| && forall i | 0 <= i < |lane'.sockets| :: !lane'.sockets[i]
       case SocketDies(to, i) => to != host ==> lane'.sockets == lane.sockets
       case SocketVanishes(to, i) => to != host ==> lane'.sockets == lane.sockets
       case _ => lane'.sockets == lane.sockets
  }

  lemma ConnectReaches(r: Relay, e: Event, host: Host)
    requires Distinct(r.table) && e.Connects?
    ensures Reaches(r, e, host)
  {
    var accepted := Update(r, e.host, Accept(LaneOf(r.lanes, e.host), e.lingering));
    TouchMoves(accepted, e.host, e.now, host);
    assert Step(r, e).table == Touch(accepted, e.host, e.now).table;
  }

  /** A send uses up a waiting poll even when a socket takes the job, an empty poll waits, and a reconnect
      leaves one new socket behind those that linger, which is live unless the queue outlasted it. */
  lemma StepReaches(es: seq<Event>, e: Event, host: Host)
    ensures Reaches(Run(EMPTY, es), e, host)
  {
    RunKeeps(EMPTY, es);
    if e.Connects? {
      ConnectReaches(Run(EMPTY, es), e, host);
    } else if e.Touches? {
      TouchMoves(Run(EMPTY, es), e.host, e.now, host);
    } else {
      OtherReaches(Run(EMPTY, es), e, host);
    }
  }

  lemma OtherReaches(r: Relay, e: Event, host: Host)
    requires !e.Connects? && !e.Touches?
    ensures Reaches(r, e, host)
  {
  }

  /** A job is accepted exactly if it can be handed over at once or the queue holds fewer than 100. */
  lemma AcceptedUnlessFull(es: seq<Event>, host: Host)
    ensures var r, r' := Run(EMPTY, es), Run(EMPTY, es + [SendTo(host)]);
            var lane := LaneOf(r.lanes, host);
            r'.accepted == if (lane.sockets != [] && lane.sockets[0]) || lane.waiters > 0 || |lane.queue| < 100
                           then r.accepted + [Job(r.epoch, r.counter + 1, host)] else r.accepted
  {
    RunExtends(EMPTY, es, SendTo(host));
  }

  // ---- Numbers ----

  function Revocations(es: seq<Event>): nat {
    if es == [] then 0 else Revocations(es[..|es| - 1]) + if es[|es| - 1].Revokes? then 1 else 0
  }

  /** How many jobs were sent since the pairing began. */
  function SentSince(es: seq<Event>): nat {
    if es == [] || es[|es| - 1].Revokes? then 0 else SentSince(es[..|es| - 1]) + if es[|es| - 1].SendTo? then 1 else 0
  }

  /** A job's number counts the sends of its pairing, and pairings are told apart. */
  lemma {:induction false} NumbersCountSends(es: seq<Event>)
    ensures Run(EMPTY, es).epoch == Revocations(es) && Run(EMPTY, es).counter == SentSince(es)
  {
    if es != [] {
      var before, e := es[..|es| - 1], es[|es| - 1];
      NumbersCountSends(before);
      RunExtends(EMPTY, before, e);
      StepNumbers(Run(EMPTY, before), e);
      assert es == before + [e];
    }
  }

  lemma StepNumbers(r: Relay, e: Event)
    ensures Step(r, e).epoch == r.epoch + if e.Revokes? then 1 else 0
    ensures Step(r, e).counter == if e.Revokes? then 0 else r.counter + if e.SendTo? then 1 else 0
  {
  }

  // ---- Revocation ----

  /** The host's queue holds only jobs of this epoch or a later one. */
  predicate QueueSince(r: Relay, host: Host, epoch: nat) {
    r.epoch >= epoch && forall i | 0 <= i < |LaneOf(r.lanes, host).queue| :: LaneOf(r.lanes, host).queue[i].epoch >= epoch
  }

  predicate DeliveredSince(delivered: seq<Job>, from: nat, epoch: nat) {
    forall i | from <= i < |delivered| :: delivered[i].epoch >= epoch
  }

  /** What a step delivers or queues was queued before or is sent now. */
  lemma MovesBring(r: Relay, e: Event, host: Host)
    requires Moves(r, e, host)
    ensures var lane, lane' := LaneOf(r.lanes, host), LaneOf(Step(r, e).lanes, host);
            && lane.delivered <= lane'.delivered
            && (forall i | |lane.delivered| <= i < |lane'.delivered| :: lane'.delivered[i] in lane.queue || lane'.delivered[i].epoch == r.epoch)
            && (forall i | 0 <= i < |lane'.queue| :: lane'.queue[i] in lane.queue || lane'.queue[i].epoch == r.epoch)
  {
  }

  lemma StepSince(es: seq<Event>, e: Event, host: Host, from: nat, epoch: nat)
    requires QueueSince(Run(EMPTY, es), host, epoch)
    requires DeliveredSince(LaneOf(Run(EMPTY, es).lanes, host).delivered, from, epoch)
    ensures QueueSince(Run(EMPTY, es + [e]), host, epoch)
    ensures DeliveredSince(LaneOf(Run(EMPTY, es + [e]).lanes, host).delivered, from, epoch)
    ensures LaneOf(Run(EMPTY, es).lanes, host).delivered <= LaneOf(Run(EMPTY, es + [e]).lanes, host).delivered
  {
    StepMoves(es, e, host);
    MovesBring(Run(EMPTY, es), e, host);
    StepNumbers(Run(EMPTY, es), e);
    RunExtends(EMPTY, es, e);
  }

  /** A revocation ends a pairing: at once every host has an empty queue, no live socket and no place in
      the table, and whatever is delivered later was sent later. */
  lemma {:induction false} RevocationCutsOff(before: seq<Event>, after: seq<Event>, host: Host)
    ensures var r0, r1 := Run(EMPTY, before), Run(EMPTY, before + [Revokes] + after);
            var d0, d1 := LaneOf(r0.lanes, host).delivered, LaneOf(r1.lanes, host).delivered;
            && d0 <= d1 && (forall i | |d0| <= i < |d1| :: d1[i] !in r0.accepted)
            && (after == [] ==>
                  && r1.table == [] && d1 == d0 && LaneOf(r1.lanes, host).queue == []
                  && forall i | 0 <= i < |LaneOf(r1.lanes, host).sockets| :: !LaneOf(r1.lanes, host).sockets[i])
  {
    var r0 := Run(EMPTY, before);
    RunExtends(EMPTY, before, Revokes);
    StepMoves(before, Revokes, host);
    RunSince(before + [Revokes], after, host, |LaneOf(r0.lanes, host).delivered|, r0.epoch + 1);
    RunKeeps(EMPTY, before);
    assert before + [Revokes] + [] == before + [Revokes];
  }

  lemma {:induction false} RunSince(before: seq<Event>, after: seq<Event>, host: Host, from: nat, epoch: nat)
    requires QueueSince(Run(EMPTY, before), host, epoch)
    requires DeliveredSince(LaneOf(Run(EMPTY, before).lanes, host).delivered, from, epoch)
    ensures QueueSince(Run(EMPTY, before + after), host, epoch)
    ensures DeliveredSince(LaneOf(Run(EMPTY, before + after).lanes, host).delivered, from, epoch)
    ensures LaneOf(Run(EMPTY, before).lanes, host).delivered <= LaneOf(Run(EMPTY, before + after).lanes, host).delivered
    decreases |after|
  {
    if after == [] {
      assert before + after == before;
    } else {
      StepSince(before, after[0], host, from, epoch);
      assert before + after == before + [after[0]] + after[1..];
      RunSince(before + [after[0]], after[1..], host, from, epoch);
    }
  }
}
