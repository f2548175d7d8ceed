/** The relay's routing of jobs to hosts: one durable offline queue per host, the host's sockets, the
    long polls of older hosts, and the recency-limited table of hosts whose queues are kept. */
module RelayJobs {
  import opened Wrappers
  import opened RelayHosts

  const MAX_QUEUE: nat := 100

  /** The visible id is `j<number>`. Revoking the pairing restarts the numbers: `epoch` counts that. */
  datatype Job = Job(epoch: nat, number: nat, host: Host)

  predicate Earlier(a: Job, b: Job) {
    a.epoch < b.epoch || (a.epoch == b.epoch && a.number < b.number)
  }

  predicate Increasing(jobs: seq<Job>) {
    forall i, j | 0 <= i < j < |jobs| :: Earlier(jobs[i], jobs[j])
  }

  function Occurs(jobs: seq<Job>, job: Job): nat {
    if jobs == [] then 0 else (if jobs[0] == job then 1 else 0) + Occurs(jobs[1..], job)
  }

  lemma {:induction false} OccursConcat(a: seq<Job>, b: seq<Job>, job: Job)
    ensures Occurs(a + b, job) == Occurs(a, job) + Occurs(b, job)
  {
    if a == [] {
      assert a + b == b;
    } else {
      assert (a + b)[1..] == a[1..] + b;
      OccursConcat(a[1..], b, job);
    }
  }

  lemma {:induction false} IncreasingOccursOnce(jobs: seq<Job>, job: Job)
    requires Increasing(jobs)
    ensures Occurs(jobs, job) <= 1
    ensures Occurs(jobs, job) == 1 <==> job in jobs
  {
    if jobs != [] {
      IncreasingOccursOnce(jobs[1..], job);
      if jobs[0] == job && job in jobs[1..] {
        assert false;
      }
    }
  }

  // ---- One host's lane ----

  /** `sockets` lists the host's sockets in the order the runtime returns them; a dead one throws on
      every send. `delivered` and `dropped` are the lane's history. */
  datatype Lane = Lane(queue: seq<Job>, sockets: seq<bool>, waiters: nat, delivered: seq<Job>, dropped: seq<Job>)

  const IDLE := Lane([], [], 0, [], [])

  predicate Reachable(lane: Lane) {
    lane.sockets != [] && lane.sockets[0]
  }

  function Deliver(lane: Lane, job: Job): Lane {
    lane.(delivered := lane.delivered + [job])
  }

  /** A new job for the host: to its first socket, else to a waiting poll, else to the queue. */
  function Offer(lane: Lane, job: Job): (Lane, bool) {
    var shifted := lane.(waiters := if lane.waiters > 0 then lane.waiters - 1 else 0);
    if Reachable(lane) || lane.waiters > 0 then (Deliver(shifted, job), true)
    else if |lane.queue| >= MAX_QUEUE then (lane, false)
    else (lane.(queue := lane.queue + [job]), true)
  }

  function Pull(lane: Lane): Lane {
    if lane.queue != [] then Deliver(lane, lane.queue[0]).(queue := lane.queue[1..])
    else lane.(waiters := lane.waiters + 1)
  }

  function Dead(count: nat): seq<bool> {
    seq(count, _ => false)
  }

  /** A reconnect closes the sockets there are; `lingering` of them stay listed for a while. */
  function Accept(lane: Lane, lingering: nat): Lane {
    lane.(sockets := Dead(Min(lingering, |lane.sockets|)) + [true])
  }

  /** Send the queue to the socket just accepted, which survives `sends` more sends. */
  function Flush(lane: Lane, sends: nat): Lane {
    var sent := Min(sends, |lane.queue|);
    lane.(delivered := lane.delivered + lane.queue[..sent], queue := lane.queue[sent..],
          sockets := if sent < |lane.queue| && lane.sockets != [] then lane.sockets[..|lane.sockets| - 1] + [false] else lane.sockets)
  }

  function Die(lane: Lane, i: nat): Lane {
    if i < |lane.sockets| then lane.(sockets := lane.sockets[i := false]) else lane
  }

  function Vanish(lane: Lane, i: nat): Lane {
    if i < |lane.sockets| && !lane.sockets[i] then lane.(sockets := lane.sockets[..i] + lane.sockets[i + 1..]) else lane
  }

  function Drop(lane: Lane): Lane {
    lane.(queue := [], dropped := lane.dropped + lane.queue)
  }

  function Revoked(lane: Lane): Lane {
    Drop(lane).(sockets := Dead(|lane.sockets|))
  }

  // ---- The relay ----

  /** `accepted` is the history of jobs the relay answered with an id. */
  datatype Relay = Relay(table: seq<Entry>, lanes: map<Host, Lane>, counter: nat, epoch: nat, accepted: seq<Job>)

  const EMPTY := Relay([], map[], 0, 0, [])

  function LaneOf(lanes: map<Host, Lane>, host: Host): Lane {
    if host in lanes then lanes[host] else IDLE
  }

  function DropQueues(lanes: map<Host, Lane>, gone: seq<Entry>): map<Host, Lane>
    decreases |gone|
  {
    if gone == [] then lanes
    else DropQueues(lanes[gone[0].id := Drop(LaneOf(lanes, gone[0].id))], gone[1..])
  }

  function Touch(r: Relay, host: Host, now: int): Relay {
    r.(table := Seen(r.table, host, now), lanes := DropQueues(r.lanes, Stale(Upsert(r.table, host, now))))
  }

  function Update(r: Relay, host: Host, lane: Lane): Relay {
    r.(lanes := r.lanes[host := lane])
  }

  function NextJob(r: Relay, host: Host): Job {
    Job(r.epoch, r.counter + 1, host)
  }

  function Send(r: Relay, host: Host): (Relay, bool) {
    var job := NextJob(r, host);
    var (lane, accepted) := Offer(LaneOf(r.lanes, host), job);
    (Update(r, host, lane).(counter := r.counter + 1, accepted := if accepted then r.accepted + [job] else r.accepted), accepted)
  }

  function Connect(r: Relay, host: Host, lingering: nat, sends: nat, now: int): Relay {
    var touched := Touch(Update(r, host, Accept(LaneOf(r.lanes, host), lingering)), host, now);
    Update(touched, host, Flush(LaneOf(touched.lanes, host), sends))
  }

  function Revoke(r: Relay): Relay {
    Relay([], map h | h in r.lanes :: Revoked(r.lanes[h]), 0, r.epoch + 1, r.accepted)
  }

  /** The handlers are atomic; the rest is what the runtime and the hosts do in between. */
  datatype Event =
    | SendTo(host: Host)
    | PullFor(host: Host)
    | PollEnds(host: Host)
    | Connects(host: Host, lingering: nat, sends: nat, now: int)
    | Touches(host: Host, now: int)
    | SocketDies(host: Host, i: nat)
    | SocketVanishes(host: Host, i: nat)
    | Revokes

  function Step(r: Relay, e: Event): Relay {
    match e
    case SendTo(host) => Send(r, host).0
    case PullFor(host) => Update(r, host, Pull(LaneOf(r.lanes, host)))
    case PollEnds(host) =>
      var lane := LaneOf(r.lanes, host);
      Update(r, host, lane.(waiters := if lane.waiters > 0 then lane.waiters - 1 else 0))
    case Connects(host, lingering, sends, now) => Connect(r, host, lingering, sends, now)
    case Touches(host, now) => Touch(r, host, now)
    case SocketDies(host, i) => Update(r, host, Die(LaneOf(r.lanes, host), i))
    case SocketVanishes(host, i) => Update(r, host, Vanish(LaneOf(r.lanes, host), i))
    case Revokes => Revoke(r)
  }

  function Run(r: Relay, es: seq<Event>): Relay
    decreases |es|
  {
    if es == [] then r else Run(Step(r, es[0]), es[1..])
  }

  // ---- The durable object ----

  class RelaySession {
    var table: seq<Entry>
    var lanes: map<Host, Lane>
    var counter: nat
    var epoch: nat
    ghost var accepted: seq<Job>

    ghost function Model(): Relay
      reads this
    {
      Relay(table, lanes, counter, epoch, accepted)
    }

    constructor ()
      ensures Model() == EMPTY
    {
      table, lanes, counter, epoch, accepted := [], map[], 0, 0, [];
    }

    method HandleSend(host: Host) returns (ok: bool)
      modifies this
      ensures (Model(), ok) == Send(old(Model()), host)
    {
      counter := counter + 1;
      var job := Job(epoch, counter, host);
      var lane := LaneOf(lanes, host);
      var waiting := lane.waiters > 0;
      if waiting {
        lane := lane.(waiters := lane.waiters - 1);
      }
      ok := lane.sockets != [] && lane.sockets[0];
      if !ok && waiting {
        ok := true;
      }
      if ok {
        lane := lane.(delivered := lane.delivered + [job]);
      } else if |lane.queue| < MAX_QUEUE {
        lane, ok := lane.(queue := lane.queue + [job]), true;
      }
      lanes := lanes[host := lane];
      accepted := if ok then accepted + [job] else accepted;
    }

    method HandlePull(host: Host) returns (job: Option<Job>)
      modifies this
      ensures Model() == Step(old(Model()), PullFor(host))
      ensures job == if LaneOf(old(lanes), host).queue == [] then None else Some(LaneOf(old(lanes), host).queue[0])
    {
      var lane := LaneOf(lanes, host);
      if |lane.queue| > 0 {
        job := Some(lane.queue[0]);
        lane := lane.(queue := lane.queue[1..], delivered := lane.delivered + [lane.queue[0]]);
      } else {
        job := None;
        lane := lane.(waiters := lane.waiters + 1);
      }
      lanes := lanes[host := lane];
    }

    method TouchHost(host: Host, now: int)
      modifies this
      ensures Model() == Touch(old(Model()), host, now)
    {
      var touched := Upsert(table, host, now);
      var stale := Stale(touched);
      assert stale[0..] == stale;
      for i := 0 to |stale|
        invariant Model() == old(Model()).(lanes := lanes)
        invariant DropQueues(old(lanes), stale) == DropQueues(lanes, stale[i..])
      {
        assert stale[i..][0] == stale[i] && stale[i..][1..] == stale[i + 1..];
        var lane := LaneOf(lanes, stale[i].id);
        lanes := lanes[stale[i].id := lane.(queue := [], dropped := lane.dropped + lane.queue)];
      }
      table := Without(touched, stale);
    }

    /** Send the queue to a socket that survives `sends` sends, keeping what fails to send. */
    method FlushQueueTo(queue: seq<Job>, sends: nat) returns (delivered: seq<Job>, undelivered: seq<Job>)
      ensures var sent := Min(sends, |queue|); delivered == queue[..sent] && undelivered == queue[sent..]
    {
      delivered, undelivered := [], [];
      for i := 0 to |queue|
        invariant delivered == queue[..Min(sends, i)] && undelivered == queue[Min(sends, i)..i]
      {
        if |undelivered| == 0 && i < sends {
          delivered := delivered + [queue[i]];
        } else {
          undelivered := undelivered + [queue[i]];
        }
      }
    }

    method HandleConnect(host: Host, lingering: nat, sends: nat, now: int)
      modifies this
      ensures Model() == Connect(old(Model()), host, lingering, sends, now)
    {
      lanes := lanes[host := Accept(LaneOf(lanes, host), lingering)];
      TouchHost(host, now);
      var lane := LaneOf(lanes, host);
      var delivered, undelivered := FlushQueueTo(lane.queue, sends);
      if |undelivered| > 0 && |lane.sockets| > 0 {
        lane := lane.(sockets := lane.sockets[..|lane.sockets| - 1] + [false]);
      }
      lanes := lanes[host := lane.(delivered := lane.delivered + delivered, queue := undelivered)];
    }

    method HandleRevoke()
      modifies this
      ensures Model() == Revoke(old(Model()))
    {
      table, counter, epoch := [], 0, epoch + 1;
      lanes := map h | h in lanes :: Revoked(lanes[h]);
    }
  }

  // ---- Invariants of every run ----

  /** No job of the list comes after the last one numbered. */
  predicate Issued(jobs: seq<Job>, epoch: nat, counter: nat) {
    forall i | 0 <= i < |jobs| :: jobs[i].epoch < epoch || (jobs[i].epoch == epoch && jobs[i].number <= counter)
  }

  predicate For(jobs: seq<Job>, host: Host) {
    forall i | 0 <= i < |jobs| :: jobs[i].host == host
  }

  predicate LaneSound(host: Host, lane: Lane, epoch: nat, counter: nat) {
    && (lane.waiters > 0 ==> lane.queue == [])
    && |lane.queue| <= MAX_QUEUE
    && Increasing(lane.queue)
    && Issued(lane.queue, epoch, counter) && Issued(lane.delivered, epoch, counter)
    && For(lane.queue, host) && For(lane.delivered, host) && For(lane.dropped, host)
  }

  /** How often a job is in the lane at all: delivered, waiting or dropped. */
  function Times(lane: Lane, job: Job): nat {
    Occurs(lane.delivered, job) + Occurs(lane.queue, job) + Occurs(lane.dropped, job)
  }

  ghost predicate SameJobs(a: Lane, b: Lane) {
    forall job: Job :: Times(a, job) == Times(b, job)
  }

  /** A job accepted is in its host's lane, and as often as it was accepted. */
  predicate Conserved(lanes: map<Host, Lane>, accepted: seq<Job>, job: Job) {
    Times(LaneOf(lanes, job.host), job) == Occurs(accepted, job)
  }

  predicate LaneSoundIn(lanes: map<Host, Lane>, host: Host, epoch: nat, counter: nat) {
    LaneSound(host, LaneOf(lanes, host), epoch, counter)
  }

  ghost predicate Sound(r: Relay) {
    && (forall h :: LaneSoundIn(r.lanes, h, r.epoch, r.counter))
    && (forall job :: Conserved(r.lanes, r.accepted, job))
    && Increasing(r.accepted) && Issued(r.accepted, r.epoch, r.counter)
    && Distinct(r.table) && |r.table| <= MAX_HOSTS
  }

  lemma OfferKeeps(host: Host, lane: Lane, epoch: nat, counter: nat, job: Job)
    requires LaneSound(host, lane, epoch, counter) && job == Job(epoch, counter + 1, host)
    ensures var (after, ok) := Offer(lane, job);
            && LaneSound(host, after, epoch, counter + 1)
            && (forall other :: Times(after, other) == Times(lane, other) + if ok && other == job then 1 else 0)
  {
    var (after, ok) := Offer(lane, job);
    forall other ensures Times(after, other) == Times(lane, other) + if ok && other == job then 1 else 0 {
      OccursConcat(lane.delivered, [job], other);
      OccursConcat(lane.queue, [job], other);
    }
  }

  lemma PullKeeps(host: Host, lane: Lane, epoch: nat, counter: nat)
    requires LaneSound(host, lane, epoch, counter)
    ensures LaneSound(host, Pull(lane), epoch, counter) && SameJobs(lane, Pull(lane))
  {
    if lane.queue != [] {
      forall job ensures Times(lane, job) == Times(Pull(lane), job) {
        assert lane.queue == [lane.queue[0]] + lane.queue[1..];
        OccursConcat(lane.delivered, [lane.queue[0]], job);
        OccursConcat([lane.queue[0]], lane.queue[1..], job);
      }
    }
  }

  lemma FlushKeeps(host: Host, lane: Lane, sends: nat, epoch: nat, counter: nat)
    requires LaneSound(host, lane, epoch, counter)
    ensures LaneSound(host, Flush(lane, sends), epoch, counter) && SameJobs(lane, Flush(lane, sends))
  {
    var sent := Min(sends, |lane.queue|);
    forall job ensures Times(lane, job) == Times(Flush(lane, sends), job) {
      assert lane.queue == lane.queue[..sent] + lane.queue[sent..];
      OccursConcat(lane.delivered, lane.queue[..sent], job);
      OccursConcat(lane.queue[..sent], lane.queue[sent..], job);
    }
  }

  lemma DropKeeps(host: Host, lane: Lane, epoch: nat, counter: nat)
    requires LaneSound(host, lane, epoch, counter)
    ensures LaneSound(host, Drop(lane), epoch, counter) && SameJobs(lane, Drop(lane))
  {
    forall job ensures Times(lane, job) == Times(Drop(lane), job) {
      OccursConcat(lane.dropped, lane.queue, job);
    }
  }

  lemma UpdateKeeps(r: Relay, host: Host, lane: Lane)
    requires Sound(r) && LaneSound(host, lane, r.epoch, r.counter) && SameJobs(LaneOf(r.lanes, host), lane)
    ensures Sound(Update(r, host, lane))
  {
    var after := Update(r, host, lane);
    forall h ensures LaneSoundIn(after.lanes, h, after.epoch, after.counter) {
      assert LaneSoundIn(r.lanes, h, r.epoch, r.counter);
    }
    forall job ensures Conserved(after.lanes, after.accepted, job) {
      assert Conserved(r.lanes, r.accepted, job);
    }
  }

  lemma {:induction false} DropQueuesKeeps(r: Relay, gone: seq<Entry>)
    requires Sound(r)
    ensures Sound(r.(lanes := DropQueues(r.lanes, gone)))
    decreases |gone|
  {
    if gone != [] {
      var lane := LaneOf(r.lanes, gone[0].id);
      assert LaneSoundIn(r.lanes, gone[0].id, r.epoch, r.counter);
      DropKeeps(gone[0].id, lane, r.epoch, r.counter);
      UpdateKeeps(r, gone[0].id, Drop(lane));
      DropQueuesKeeps(Update(r, gone[0].id, Drop(lane)), gone[1..]);
    }
  }

  lemma TouchKeeps(r: Relay, host: Host, now: int)
    requires Sound(r)
    ensures Sound(Touch(r, host, now))
  {
    DropQueuesKeeps(r, Stale(Upsert(r.table, host, now)));
    SeenStaysSmall(r.table, host, now);
  }

  lemma SendKeeps(r: Relay, host: Host)
    requires Sound(r)
    ensures Sound(Send(r, host).0)
  {
    var lane, job := LaneOf(r.lanes, host), NextJob(r, host);
    assert LaneSoundIn(r.lanes, host, r.epoch, r.counter);
    OfferKeeps(host, lane, r.epoch, r.counter, job);
    AcceptedGrows(r.accepted, r.epoch, r.counter, job);
    var after := Send(r, host).0;
    forall h ensures LaneSoundIn(after.lanes, h, after.epoch, after.counter) {
      if h != host {
        assert LaneSoundIn(r.lanes, h, r.epoch, r.counter);
        LaneLater(h, LaneOf(r.lanes, h), r.epoch, r.counter);
      }
    }
    forall other ensures Conserved(after.lanes, after.accepted, other) {
      assert Conserved(r.lanes, r.accepted, other);
      OccursConcat(r.accepted, [job], other);
    }
  }

  lemma LaneLater(host: Host, lane: Lane, epoch: nat, counter: nat)
    requires LaneSound(host, lane, epoch, counter)
    ensures LaneSound(host, lane, epoch, counter + 1)
  {
  }

  lemma AcceptedGrows(accepted: seq<Job>, epoch: nat, counter: nat, job: Job)
    requires Increasing(accepted) && Issued(accepted, epoch, counter)
    requires job.epoch == epoch && job.number == counter + 1
    ensures Increasing(accepted + [job]) && Issued(accepted + [job], epoch, counter + 1) && Issued(accepted, epoch, counter + 1)
  {
  }

  lemma RevokeKeeps(r: Relay)
    requires Sound(r)
    ensures Sound(Revoke(r))
  {
    var after := Revoke(r);
    forall h ensures LaneSoundIn(after.lanes, h, after.epoch, after.counter) {
      assert LaneSoundIn(r.lanes, h, r.epoch, r.counter);
      DropKeeps(h, LaneOf(r.lanes, h), r.epoch, r.counter);
    }
    forall job ensures Conserved(after.lanes, after.accepted, job) {
      assert Conserved(r.lanes, r.accepted, job) && LaneSoundIn(r.lanes, job.host, r.epoch, r.counter);
      DropKeeps(job.host, LaneOf(r.lanes, job.host), r.epoch, r.counter);
    }
  }

  lemma ConnectKeeps(r: Relay, host: Host, lingering: nat, sends: nat, now: int)
    requires Sound(r)
    ensures Sound(Connect(r, host, lingering, sends, now))
  {
    assert LaneSoundIn(r.lanes, host, r.epoch, r.counter);
    var accepted := Update(r, host, Accept(LaneOf(r.lanes, host), lingering));
    UpdateKeeps(r, host, Accept(LaneOf(r.lanes, host), lingering));
    TouchKeeps(accepted, host, now);
    var touched := Touch(accepted, host, now);
    assert LaneSoundIn(touched.lanes, host, touched.epoch, touched.counter);
    FlushKeeps(host, LaneOf(touched.lanes, host), sends, touched.epoch, touched.counter);
    UpdateKeeps(touched, host, Flush(LaneOf(touched.lanes, host), sends));
  }

  lemma StepKeeps(r: Relay, e: Event)
    requires Sound(r)
    ensures Sound(Step(r, e))
  {
    if !e.Revokes? {
      assert LaneSoundIn(r.lanes, e.host, r.epoch, r.counter);
    }
    match e
    case SendTo(host) => SendKeeps(r, host);
    case PullFor(host) =>
      PullKeeps(host, LaneOf(r.lanes, host), r.epoch, r.counter);
      UpdateKeeps(r, host, Pull(LaneOf(r.lanes, host)));
    case PollEnds(host) =>
      var lane := LaneOf(r.lanes, host);
      UpdateKeeps(r, host, lane.(waiters := if lane.waiters > 0 then lane.waiters - 1 else 0));
    case Connects(host, lingering, sends, now) => ConnectKeeps(r, host, lingering, sends, now);
    case Touches(host, now) => TouchKeeps(r, host, now);
    case SocketDies(host, i) => UpdateKeeps(r, host, Die(LaneOf(r.lanes, host), i));
    case SocketVanishes(host, i) => UpdateKeeps(r, host, Vanish(LaneOf(r.lanes, host), i));
    case Revokes => RevokeKeeps(r);
  }

  lemma {:induction false} RunKeeps(r: Relay, es: seq<Event>)
    requires Sound(r)
    ensures Sound(Run(r, es))
    decreases |es|
  {
    if es != [] {
      StepKeeps(r, es[0]);
      RunKeeps(Step(r, es[0]), es[1..]);
    }
  }

  /** Conservation over every run: an accepted job is delivered once, or waits in its host's queue
      once, or was dropped once with a queue, and never two of these; no other job is anywhere. */
  lemma JobsAreConserved(es: seq<Event>, job: Job)
    ensures var r := Run(EMPTY, es);
            var lane := LaneOf(r.lanes, job.host);
            && Occurs(lane.delivered, job) + Occurs(lane.queue, job) + Occurs(lane.dropped, job)
               == if job in r.accepted then 1 else 0
  {
    RunKeeps(EMPTY, es);
    assert Conserved(Run(EMPTY, es).lanes, Run(EMPTY, es).accepted, job);
    IncreasingOccursOnce(Run(EMPTY, es).accepted, job);
  }

  /** Over every run no poll waits while the host's queue holds a job, the queue is bounded and in
      order, and only the host's own jobs are in it. */
  lemma QueuesAreSound(es: seq<Event>, host: Host)
    ensures var lane := LaneOf(Run(EMPTY, es).lanes, host);
            && (lane.waiters > 0 ==> lane.queue == [])
            && |lane.queue| <= 100 && Increasing(lane.queue)
            && For(lane.queue + lane.delivered, host)
            && |Run(EMPTY, es).table| <= 32
  {
    RunKeeps(EMPTY, es);
    assert LaneSoundIn(Run(EMPTY, es).lanes, host, Run(EMPTY, es).epoch, Run(EMPTY, es).counter);
  }

  // ---- Order of delivery ----

  /** What the host has been sent and will be sent from the queue is in the order of job numbers. */
  predicate Ordered(r: Relay, host: Host) {
    Increasing(LaneOf(r.lanes, host).delivered + LaneOf(r.lanes, host).queue)
  }

  /** A new job goes straight to the host although older ones are still queued for it. */
  predicate Overtakes(r: Relay, e: Event, host: Host) {
    e == SendTo(host) && Reachable(LaneOf(r.lanes, host)) && LaneOf(r.lanes, host).queue != []
  }

  lemma OfferOrders(host: Host, lane: Lane, epoch: nat, counter: nat, job: Job)
    requires LaneSound(host, lane, epoch, counter) && job == Job(epoch, counter + 1, host)
    requires Increasing(lane.delivered + lane.queue)
    ensures var after := Offer(lane, job).0;
            Increasing(after.delivered + after.queue) <==> !(Reachable(lane) && lane.queue != [])
  {
    var after := Offer(lane, job).0;
    if Reachable(lane) && lane.queue != [] {
      var all, n := after.delivered + after.queue, |lane.delivered|;
      assert all[n] == job && all[n + 1] == lane.queue[0];
      assert !Earlier(all[n], all[n + 1]);
    } else {
      var all := lane.delivered + lane.queue;
      assert after.delivered + after.queue == all || after.delivered + after.queue == all + [job];
      assert Issued(all, epoch, counter);
    }
  }

  lemma FlushOrders(lane: Lane, sends: nat)
    ensures Flush(lane, sends).delivered + Flush(lane, sends).queue == lane.delivered + lane.queue
    ensures Pull(lane).delivered + Pull(lane).queue == lane.delivered + lane.queue
  {
  }

  lemma {:induction false} DropQueuesOrders(lanes: map<Host, Lane>, gone: seq<Entry>, host: Host)
    ensures var before, after := LaneOf(lanes, host), LaneOf(DropQueues(lanes, gone), host);
            && after.delivered == before.delivered && after.sockets == before.sockets
            && (after.queue == before.queue || after.queue == [])
    decreases |gone|
  {
    if gone != [] {
      DropQueuesOrders(lanes[gone[0].id := Drop(LaneOf(lanes, gone[0].id))], gone[1..], host);
    }
  }

  /** One step keeps a host's jobs in order exactly if it does not overtake. */
  lemma StepOrders(r: Relay, e: Event, host: Host)
    requires Sound(r) && Ordered(r, host)
    ensures Ordered(Step(r, e), host) <==> !Overtakes(r, e, host)
  {
    match e
    case SendTo(to) =>
      if to == host {
        assert LaneSoundIn(r.lanes, host, r.epoch, r.counter);
        OfferOrders(host, LaneOf(r.lanes, host), r.epoch, r.counter, NextJob(r, host));
      }
    case PullFor(to) =>
      FlushOrders(LaneOf(r.lanes, to), 0);
      UpdateOrders(r, to, Pull(LaneOf(r.lanes, to)), host);
    case Connects(to, lingering, sends, now) =>
      ConnectOrders(r, to, lingering, sends, now, host);
    case Touches(to, now) =>
      TouchOrders(r, to, now, host);
    case PollEnds(to) =>
      var lane := LaneOf(r.lanes, to);
      UpdateOrders(r, to, lane.(waiters := if lane.waiters > 0 then lane.waiters - 1 else 0), host);
    case SocketDies(to, i) =>
      UpdateOrders(r, to, Die(LaneOf(r.lanes, to), i), host);
    case SocketVanishes(to, i) =>
      UpdateOrders(r, to, Vanish(LaneOf(r.lanes, to), i), host);
    case Revokes =>
      var before, after := LaneOf(r.lanes, host), LaneOf(Revoke(r).lanes, host);
      assert after.delivered + after.queue <= before.delivered + before.queue;
  }

  lemma UpdateOrders(r: Relay, to: Host, lane: Lane, host: Host)
    requires Ordered(r, host)
    requires lane.delivered + lane.queue == LaneOf(r.lanes, to).delivered + LaneOf(r.lanes, to).queue
    ensures Ordered(Update(r, to, lane), host)
  {
  }

  lemma TouchOrders(r: Relay, to: Host, now: int, host: Host)
    requires Ordered(r, host)
    ensures Ordered(Touch(r, to, now), host)
  {
    DropQueuesOrders(r.lanes, Stale(Upsert(r.table, to, now)), host);
    var before, after := LaneOf(r.lanes, host), LaneOf(Touch(r, to, now).lanes, host);
    assert after.delivered + after.queue <= before.delivered + before.queue;
  }

  lemma ConnectOrders(r: Relay, to: Host, lingering: nat, sends: nat, now: int, host: Host)
    requires Ordered(r, host)
    ensures Ordered(Connect(r, to, lingering, sends, now), host)
  {
    var accepted := Update(r, to, Accept(LaneOf(r.lanes, to), lingering));
    assert Ordered(accepted, host);
    TouchOrders(accepted, to, now, host);
    FlushOrders(LaneOf(Touch(accepted, to, now).lanes, to), sends);
  }

  ghost predicate AlwaysOrdered(r: Relay, es: seq<Event>, host: Host)
    decreases |es|
  {
    Ordered(r, host) && (es != [] ==> AlwaysOrdered(Step(r, es[0]), es[1..], host))
  }

  predicate EverOvertakes(r: Relay, es: seq<Event>, host: Host)
    decreases |es|
  {
    es != [] && (Overtakes(r, es[0], host) || EverOvertakes(Step(r, es[0]), es[1..], host))
  }

  lemma {:induction false} OrderLostByOvertaking(r: Relay, es: seq<Event>, host: Host)
    requires Sound(r) && Ordered(r, host)
    ensures AlwaysOrdered(r, es, host) <==> !EverOvertakes(r, es, host)
    decreases |es|
  {
    if es != [] {
      StepOrders(r, es[0], host);
      StepKeeps(r, es[0]);
      if !Overtakes(r, es[0], host) {
        OrderLostByOvertaking(Step(r, es[0]), es[1..], host);
      } else {
        assert !AlwaysOrdered(Step(r, es[0]), es[1..], host);
      }
    }
  }

  // What the host has received is in order even if something overtook a queued job that was dropped later.

  /** The oldest queued job is not later than the job delivered last. */
  predicate Overtaken(lane: Lane) {
    lane.delivered != [] && lane.queue != [] && !Earlier(lane.delivered[|lane.delivered| - 1], lane.queue[0])
  }

  /** The host is handed a queued job that was overtaken. */
  predicate HandsOverOvertaken(r: Relay, e: Event, host: Host) {
    match e
    case PullFor(to) => to == host && Overtaken(LaneOf(r.lanes, host))
    case Connects(to, lingering, sends, now) =>
      to == host && sends > 0
      && Overtaken(LaneOf(Touch(Update(r, to, Accept(LaneOf(r.lanes, to), lingering)), to, now).lanes, host))
    case _ => false
  }

  predicate EverHandsOverOvertaken(r: Relay, es: seq<Event>, host: Host)
    decreases |es|
  {
    es != [] && (HandsOverOvertaken(r, es[0], host) || EverHandsOverOvertaken(Step(r, es[0]), es[1..], host))
  }

  lemma TakenInOrder(lane: Lane, n: nat)
    requires Increasing(lane.delivered) && Increasing(lane.queue) && n <= |lane.queue|
    ensures Increasing(lane.delivered + lane.queue[..n]) <==> n == 0 || !Overtaken(lane)
  {
    var all, k := lane.delivered + lane.queue[..n], |lane.delivered|;
    if n == 0 {
      assert all == lane.delivered;
    } else if Overtaken(lane) {
      assert all[k - 1] == lane.delivered[k - 1] && all[k] == lane.queue[0];
      assert !Earlier(all[k - 1], all[k]);
    } else {
      forall i, j | 0 <= i < j < |all| ensures Earlier(all[i], all[j]) {
        if i < k <= j {
          assert i == k - 1 || Earlier(lane.delivered[i], lane.delivered[k - 1]);
          assert j == k || Earlier(lane.queue[0], lane.queue[j - k]);
        }
      }
    }
  }

  lemma OfferDelivers(host: Host, lane: Lane, epoch: nat, counter: nat, job: Job)
    requires LaneSound(host, lane, epoch, counter) && job == Job(epoch, counter + 1, host) && Increasing(lane.delivered)
    ensures Increasing(Offer(lane, job).0.delivered)
  {
  }

  lemma StepDelivers(r: Relay, e: Event, host: Host)
    requires Sound(r) && Increasing(LaneOf(r.lanes, host).delivered)
    ensures Increasing(LaneOf(Step(r, e).lanes, host).delivered) <==> !HandsOverOvertaken(r, e, host)
  {
    var lane := LaneOf(r.lanes, host);
    assert LaneSoundIn(r.lanes, host, r.epoch, r.counter);
    match e
    case SendTo(to) =>
      if to == host {
        OfferDelivers(host, lane, r.epoch, r.counter, NextJob(r, host));
      }
    case PullFor(to) =>
      if to == host && lane.queue != [] {
        TakenInOrder(lane, 1);
        assert lane.queue[..1] == [lane.queue[0]];
      }
    case Connects(to, lingering, sends, now) =>
      ConnectDelivers(r, to, lingering, sends, now, host);
    case Touches(to, now) =>
      DropQueuesOrders(r.lanes, Stale(Upsert(r.table, to, now)), host);
    case _ =>
  }

  lemma ConnectDelivers(r: Relay, to: Host, lingering: nat, sends: nat, now: int, host: Host)
    requires Sound(r) && Increasing(LaneOf(r.lanes, host).delivered)
    ensures Increasing(LaneOf(Connect(r, to, lingering, sends, now).lanes, host).delivered)
            <==> !HandsOverOvertaken(r, Connects(to, lingering, sends, now), host)
  {
    assert LaneSoundIn(r.lanes, host, r.epoch, r.counter);
    var accepted := Update(r, to, Accept(LaneOf(r.lanes, to), lingering));
    DropQueuesOrders(accepted.lanes, Stale(Upsert(r.table, to, now)), host);
    var lane := LaneOf(Touch(accepted, to, now).lanes, host);
    if to == host {
      TakenInOrder(lane, Min(sends, |lane.queue|));
    }
  }

  lemma DeliveredGrows(r: Relay, e: Event, host: Host)
    ensures LaneOf(r.lanes, host).delivered <= LaneOf(Step(r, e).lanes, host).delivered
  {
    if e.Connects? {
      DropQueuesOrders(Update(r, e.host, Accept(LaneOf(r.lanes, e.host), e.lingering)).lanes, Stale(Upsert(r.table, e.host, e.now)), host);
    } else if e.Touches? {
      DropQueuesOrders(r.lanes, Stale(Upsert(r.table, e.host, e.now)), host);
    }
  }

  lemma {:induction false} DisorderStays(r: Relay, es: seq<Event>, host: Host)
    requires !Increasing(LaneOf(r.lanes, host).delivered)
    ensures !Increasing(LaneOf(Run(r, es).lanes, host).delivered)
    decreases |es|
  {
    if es != [] {
      var before, after := LaneOf(r.lanes, host).delivered, LaneOf(Step(r, es[0]).lanes, host).delivered;
      DeliveredGrows(r, es[0], host);
      var i, j :| 0 <= i < j < |before| && !Earlier(before[i], before[j]);
      assert after[i] == before[i] && after[j] == before[j];
      DisorderStays(Step(r, es[0]), es[1..], host);
    }
  }

  /** A host receives its jobs in the order of their numbers if and only if it is never handed a queued
      job that was overtaken. */
  lemma {:induction false} ReceivedInOrder(r: Relay, es: seq<Event>, host: Host)
    requires Sound(r) && Increasing(LaneOf(r.lanes, host).delivered)
    ensures Increasing(LaneOf(Run(r, es).lanes, host).delivered) <==> !EverHandsOverOvertaken(r, es, host)
    decreases |es|
  {
    if es != [] {
      StepDelivers(r, es[0], host);
      StepKeeps(r, es[0]);
      if HandsOverOvertaken(r, es[0], host) {
        DisorderStays(Step(r, es[0]), es[1..], host);
      } else {
        ReceivedInOrder(Step(r, es[0]), es[1..], host);
      }
    }
  }

  /** The source takes for granted that a closed socket is no longer listed. */
  predicate ClosedSocketsVanish(es: seq<Event>) {
    forall i | 0 <= i < |es| && es[i].Connects? :: es[i].lingering == 0
  }

  predicate OneSocket(lane: Lane) {
    |lane.sockets| <= 1 && (Reachable(lane) ==> lane.queue == [])
  }

  lemma ConnectKeepsOneSocket(r: Relay, to: Host, sends: nat, now: int, host: Host)
    requires OneSocket(LaneOf(r.lanes, host))
    ensures OneSocket(LaneOf(Connect(r, to, 0, sends, now).lanes, host))
  {
    var accepted := Update(r, to, Accept(LaneOf(r.lanes, to), 0));
    DropQueuesOrders(accepted.lanes, Stale(Upsert(r.table, to, now)), host);
    var touched := Touch(accepted, to, now);
    if to == host {
      FlushKeepsOneSocket(LaneOf(touched.lanes, host), sends);
    }
  }

  lemma FlushKeepsOneSocket(lane: Lane, sends: nat)
    requires |lane.sockets| == 1
    ensures OneSocket(Flush(lane, sends))
  {
  }

  lemma StepKeepsOneSocket(r: Relay, e: Event, host: Host)
    requires OneSocket(LaneOf(r.lanes, host)) && (e.Connects? ==> e.lingering == 0)
    ensures OneSocket(LaneOf(Step(r, e).lanes, host)) && !Overtakes(r, e, host)
  {
    if e.Connects? {
      ConnectKeepsOneSocket(r, e.host, e.sends, e.now, host);
    } else if e.Touches? {
      DropQueuesOrders(r.lanes, Stale(Upsert(r.table, e.host, e.now)), host);
    }
  }

  lemma {:induction false} NeverOvertakesIfSocketsVanish(r: Relay, es: seq<Event>, host: Host)
    requires OneSocket(LaneOf(r.lanes, host)) && ClosedSocketsVanish(es)
    ensures !EverOvertakes(r, es, host)
    decreases |es|
  {
    if es != [] {
      StepKeepsOneSocket(r, es[0], host);
      NeverOvertakesIfSocketsVanish(Step(r, es[0]), es[1..], host);
    }
  }

  lemma {:induction false} AlwaysOrderedAtEnd(r: Relay, es: seq<Event>, host: Host)
    requires AlwaysOrdered(r, es, host)
    ensures Ordered(Run(r, es), host)
    decreases |es|
  {
    if es != [] {
      AlwaysOrderedAtEnd(Step(r, es[0]), es[1..], host);
    }
  }

  /** With sockets that vanish when closed, every host receives job numbers in strictly increasing
      order, through disconnects, reconnects, dying sockets, long polls, evictions and revocations. */
  lemma DeliveryIsInOrder(es: seq<Event>, host: Host)
    requires ClosedSocketsVanish(es)
    ensures Increasing(LaneOf(Run(EMPTY, es).lanes, host).delivered)
  {
    NeverOvertakesIfSocketsVanish(EMPTY, es, host);
    OrderLostByOvertaking(EMPTY, es, host);
    AlwaysOrderedAtEnd(EMPTY, es, host);
    var lane := LaneOf(Run(EMPTY, es).lanes, host);
    var all := lane.delivered + lane.queue;
    assert forall i | 0 <= i < |lane.delivered| :: lane.delivered[i] == all[i];
  }

  // ---- The lingering socket ----

  /** A host connects and reconnects while its first socket stays listed, gets a job, the first socket
      vanishes, it gets another job and reconnects. */
  function LingeringEvent(k: nat, host: Host, now: int): Event {
    match k
    case 0 => Connects(host, 0, 0, now)
    case 1 => Connects(host, 1, 0, now)
    case 2 => SendTo(host)
    case 3 => SocketVanishes(host, 0)
    case 4 => SendTo(host)
    case _ => Connects(host, 0, 1, now)
  }

  function LingeringRun(k: nat, host: Host, now: int): seq<Event> {
    if k == 0 then [] else LingeringRun(k - 1, host, now) + [LingeringEvent(k - 1, host, now)]
  }

  function LingeringLane(k: nat, host: Host): Lane {
    var first, second := Job(0, 1, host), Job(0, 2, host);
    match k
    case 0 => IDLE
    case 1 => IDLE.(sockets := [true])
    case 2 => IDLE.(sockets := [false, true])
    case 3 => IDLE.(sockets := [false, true], queue := [first])
    case 4 => IDLE.(sockets := [true], queue := [first])
    case 5 => Lane([first], [true], 0, [second], [])
    case _ => Lane([], [true], 0, [second, first], [])
  }

  function LingeringRelay(k: nat, host: Host, now: int): Relay {
    if k == 0 then EMPTY
    else Alone(host, now, LingeringLane(k, host), if k < 3 then 0 else if k < 5 then 1 else 2,
               if k < 3 then [] else if k < 5 then [Job(0, 1, host)] else [Job(0, 1, host), Job(0, 2, host)])
  }

  /** A relay that knows one host only. */
  function Alone(host: Host, now: int, lane: Lane, counter: nat, accepted: seq<Job>): Relay {
    Relay([Entry(host, now)], map[host := lane], counter, 0, accepted)
  }

  lemma ConnectAlone(r: Relay, host: Host, lane: Lane, lingering: nat, sends: nat, now: int, after: Lane)
    requires r == EMPTY || r == Alone(host, now, LaneOf(r.lanes, host), r.counter, r.accepted)
    requires lane == LaneOf(r.lanes, host) && after == Flush(Accept(lane, lingering), sends)
    ensures Connect(r, host, lingering, sends, now) == Alone(host, now, after, r.counter, r.accepted)
  {
    var t := [Entry(host, now)];
    assert Upsert(r.table, host, now) == t;
    assert t[1..] == [] && NewestFirst(t) == t;
    assert Without(t, []) == t;
    assert DropQueues(Update(r, host, Accept(lane, lingering)).lanes, []) == map[host := Accept(lane, lingering)];
  }

  lemma SendAlone(host: Host, now: int, lane: Lane, counter: nat, accepted: seq<Job>, after: Lane, ok: bool)
    requires (after, ok) == Offer(lane, Job(0, counter + 1, host))
    ensures Step(Alone(host, now, lane, counter, accepted), SendTo(host))
            == Alone(host, now, after, counter + 1, if ok then accepted + [Job(0, counter + 1, host)] else accepted)
  {
    assert map[host := lane][host := after] == map[host := after];
  }

  lemma VanishAlone(host: Host, now: int, lane: Lane, counter: nat, accepted: seq<Job>, after: Lane)
    requires after == Vanish(lane, 0)
    ensures Step(Alone(host, now, lane, counter, accepted), SocketVanishes(host, 0)) == Alone(host, now, after, counter, accepted)
  {
    assert map[host := lane][host := after] == map[host := after];
  }

  lemma LingeringConnects(r: Relay, e: Event, host: Host, now: int, lane: Lane)
    requires r == EMPTY && e == Connects(host, 0, 0, now) && lane == IDLE.(sockets := [true])
    ensures Step(r, e) == Alone(host, now, lane, 0, [])
  {
    LaneReconnects(IDLE, 0, 0, lane);
    ConnectAlone(r, host, IDLE, 0, 0, now, lane);
  }

  lemma LingeringReconnects(k: nat, host: Host, now: int)
    requires k == 1
    ensures Step(LingeringRelay(k, host, now), LingeringEvent(k, host, now)) == LingeringRelay(k + 1, host, now)
  {
    var lane, after := LingeringLane(k, host), LingeringLane(k + 1, host);
    LaneReconnects(lane, 1, 0, after);
    ConnectAlone(LingeringRelay(k, host, now), host, lane, 1, 0, now, after);
  }

  lemma LingeringFlushes(host: Host, now: int, lane: Lane, after: Lane, accepted: seq<Job>)
    requires |lane.queue| <= 1 && after == lane.(sockets := Dead(0) + [true], queue := [], delivered := lane.delivered + lane.queue)
    ensures Connect(Alone(host, now, lane, 2, accepted), host, 0, 1, now) == Alone(host, now, after, 2, accepted)
  {
    LaneReconnects(lane, 0, 1, after);
    ConnectAlone(Alone(host, now, lane, 2, accepted), host, lane, 0, 1, now, after);
  }

  lemma LaneReconnects(lane: Lane, lingering: nat, sends: nat, after: Lane)
    requires lingering <= |lane.sockets| && |lane.queue| <= sends
    requires after == lane.(sockets := Dead(lingering) + [true], queue := [], delivered := lane.delivered + lane.queue)
    ensures Flush(Accept(lane, lingering), sends) == after
  {
    assert lane.queue[..|lane.queue|] == lane.queue;
  }

  lemma LingeringSends(k: nat, host: Host, now: int)
    requires k == 2 || k == 4
    ensures Step(LingeringRelay(k, host, now), LingeringEvent(k, host, now)) == LingeringRelay(k + 1, host, now)
  {
    var lane, after := LingeringLane(k, host), LingeringLane(k + 1, host);
    if k == 2 {
      assert lane.queue + [Job(0, 1, host)] == after.queue;
      SendAlone(host, now, lane, 0, [], after, true);
    } else {
      assert lane.delivered + [Job(0, 2, host)] == after.delivered;
      SendAlone(host, now, lane, 1, [Job(0, 1, host)], after, true);
    }
  }

  lemma LingeringVanishes(k: nat, host: Host, now: int)
    requires k == 3
    ensures Step(LingeringRelay(k, host, now), LingeringEvent(k, host, now)) == LingeringRelay(k + 1, host, now)
  {
    var lane, after := LingeringLane(k, host), LingeringLane(k + 1, host);
    assert lane.sockets[..0] + lane.sockets[1..] == [true];
    VanishAlone(host, now, lane, 1, [Job(0, 1, host)], after);
  }

  lemma {:induction false} RunExtends(r: Relay, es: seq<Event>, e: Event)
    ensures Run(r, es + [e]) == Step(Run(r, es), e)
    decreases |es|
  {
    if es == [] {
      assert [e][1..] == [];
    } else {
      RunExtends(Step(r, es[0]), es[1..], e);
      assert (es + [e])[1..] == es[1..] + [e];
    }
  }

  lemma {:induction false} LingeringRuns(k: nat, host: Host, now: int)
    requires k <= 6
    ensures Run(EMPTY, LingeringRun(k, host, now)) == LingeringRelay(k, host, now)
  {
    if k > 0 {
      LingeringRuns(k - 1, host, now);
      RunExtends(EMPTY, LingeringRun(k - 1, host, now), LingeringEvent(k - 1, host, now));
      LingeringStep(k - 1, host, now);
    }
  }

  lemma LingeringStep(k: nat, host: Host, now: int)
    requires k < 6
    ensures Step(LingeringRelay(k, host, now), LingeringEvent(k, host, now)) == LingeringRelay(k + 1, host, now)
  {
    if k == 2 || k == 4 { LingeringSends(k, host, now); }
    else if k == 3 { LingeringVanishes(k, host, now); }
    else if k == 0 { LingeringConnects(LingeringRelay(k, host, now), LingeringEvent(k, host, now), host, now, LingeringLane(1, host)); }
    else if k == 1 { LingeringReconnects(k, host, now); }
    else {
      var first, second := Job(0, 1, host), Job(0, 2, host);
      assert [second] + [first] == [second, first] && Dead(0) + [true] == [true];
      LingeringFlushes(host, now, LingeringLane(5, host), LingeringLane(6, host), [first, second]);
    }
  }

  /** When closed sockets may stay listed, order is lost: the host receives job 2 before job 1. */
  lemma LingeringSocketReorders(host: Host, now: int)
    ensures LaneOf(Run(EMPTY, LingeringRun(6, host, now)).lanes, host).delivered == [Job(0, 2, host), Job(0, 1, host)]
  {
    LingeringRuns(6, host, now);
  }
}
