/** HarborToolCallMeter (host_runner.ts): one tool call reaches the meter twice, once as an Agent
    event and once as a backend execution, in either order. The meter pairs the two sightings so
    that `requested` grows once per call. */
module HarborMeter {
  import opened Wrappers

  /** `backendFirst` counts executions still without an event; `eventFirst` holds, per key and in
      order of arrival, the events still without an execution. */
  datatype Meter = Meter(backendFirst: map<string, nat>, eventFirst: map<string, seq<string>>)

  const EMPTY := Meter(map[], map[])

  /** What has happened so far. `matches` counts pairings; `dropped` counts events whose result
      arrived although no execution ever did (a call refused before it reached the backend);
      `waiting` and `pending` hold the key of every sighting still unpaired. */
  datatype Tally = Tally(
    events: nat, backends: nat, matches: nat, dropped: nat, requested: nat,
    waiting: multiset<string>, pending: multiset<string>)

  const NOTHING_YET := Tally(0, 0, 0, 0, 0, multiset{}, multiset{})

  function Waiting(m: Meter, key: string): seq<string> {
    if key in m.eventFirst then m.eventFirst[key] else []
  }

  function Pending(m: Meter, key: string): nat {
    if key in m.backendFirst then m.backendFirst[key] else 0
  }

  function SetWaiting(m: Meter, key: string, waiting: seq<string>): Meter {
    m.(eventFirst := if waiting == [] then m.eventFirst - {key} else m.eventFirst[key := waiting])
  }

  function SetPending(m: Meter, key: string, n: nat): Meter {
    m.(backendFirst := if n == 0 then m.backendFirst - {key} else m.backendFirst[key := n])
  }

  /** Position of the first entry with this id, or |waiting|. */
  function IndexOf(waiting: seq<string>, id: string): (i: nat)
    ensures i <= |waiting|
    ensures i < |waiting| ==> waiting[i] == id
    ensures id !in waiting[..i]
  {
    if waiting == [] || waiting[0] == id then 0 else
      var i := 1 + IndexOf(waiting[1..], id);
      assert waiting[..i] == [waiting[0]] + waiting[1..][..i - 1];
      i
  }

  // ---- The three operations, on values; the flag says whether `requested` grows ----

  function AgentCall(m: Meter, key: string, id: string): (Meter, bool) {
    if Pending(m, key) > 0 then (SetPending(m, key, Pending(m, key) - 1), false)
    else (SetWaiting(m, key, Waiting(m, key) + [id]), true)
  }

  function BeforeBackend(m: Meter, key: string): (Meter, bool) {
    if Waiting(m, key) != [] then (SetWaiting(m, key, Waiting(m, key)[1..]), false)
    else (SetPending(m, key, Pending(m, key) + 1), true)
  }

  /** The flag says whether a reservation was discarded. */
  function AgentResult(m: Meter, key: string, id: string): (Meter, bool) {
    var waiting := Waiting(m, key);
    var i := IndexOf(waiting, id);
    if i < |waiting| then (SetWaiting(m, key, waiting[..i] + waiting[i + 1..]), true) else (m, false)
  }

  /** The class the runner uses: two tables, rewritten in place. The callback `recordRequested`
      becomes the result `record`. */
  class HarborToolCallMeter {
    var backendFirst: map<string, nat>
    var eventFirst: map<string, seq<string>>

    function Model(): Meter
      reads this
    {
      Meter(backendFirst, eventFirst)
    }

    constructor ()
      ensures Model() == EMPTY
    {
      backendFirst, eventFirst := map[], map[];
    }

    method OnAgentCall(key: string, id: string) returns (record: bool)
      modifies this
      ensures (Model(), record) == AgentCall(old(Model()), key, id)
    {
      var backendCount := if key in backendFirst then backendFirst[key] else 0;
      if backendCount > 0 {
        if backendCount == 1 {
          backendFirst := backendFirst - {key};
        } else {
          backendFirst := backendFirst[key := backendCount - 1];
        }
        return false;
      }
      var waiting := if key in eventFirst then eventFirst[key] else [];
      eventFirst := eventFirst[key := waiting + [id]];
      return true;
    }

    method OnAgentResult(key: string, id: string) returns (dropped: bool)
      modifies this
      ensures (Model(), dropped) == AgentResult(old(Model()), key, id)
    {
      if key !in eventFirst || eventFirst[key] == [] {
        return false;
      }
      var waiting := eventFirst[key];
      var index := IndexOf(waiting, id);
      dropped := index < |waiting|;
      if dropped {
        waiting := waiting[..index] + waiting[index + 1..];
        eventFirst := eventFirst[key := waiting];
      }
      if waiting == [] {
        eventFirst := eventFirst - {key};
        assert eventFirst == old(eventFirst) - {key};
      }
    }

    method BeforeBackendCall(key: string) returns (record: bool)
      modifies this
      ensures (Model(), record) == BeforeBackend(old(Model()), key)
    {
      var reserved := key in eventFirst && eventFirst[key] != [];
      if reserved {
        var waiting := eventFirst[key][1..];
        eventFirst := if waiting == [] then eventFirst - {key} else eventFirst[key := waiting];
        return false;
      }
      backendFirst := backendFirst[key := (if key in backendFirst then backendFirst[key] else 0) + 1];
      return true;
    }
  }

  // ---- Conservation ----

  /** Table entries are never empty, and no key waits on both sides. */
  predicate WellFormed(m: Meter) {
    && (forall k <- m.backendFirst :: m.backendFirst[k] > 0)
    && (forall k <- m.eventFirst :: m.eventFirst[k] != [])
    && m.backendFirst.Keys !! m.eventFirst.Keys
  }

  ghost predicate Conserved(m: Meter, t: Tally) {
    && WellFormed(m)
    && (forall k {:trigger Waiting(m, k)} :: t.waiting[k] == |Waiting(m, k)|)
    && (forall k {:trigger Pending(m, k)} :: t.pending[k] == Pending(m, k))
    && t.events == t.matches + |t.waiting| + t.dropped
    && t.backends == t.matches + |t.pending|
    && t.requested == t.matches + |t.waiting| + |t.pending| + t.dropped
  }

  function CountCall(t: Tally, key: string, recorded: bool): Tally {
    if recorded then t.(events := t.events + 1, requested := t.requested + 1, waiting := t.waiting + multiset{key})
    else t.(events := t.events + 1, matches := t.matches + 1, pending := t.pending - multiset{key})
  }

  function CountBackend(t: Tally, key: string, recorded: bool): Tally {
    if recorded then t.(backends := t.backends + 1, requested := t.requested + 1, pending := t.pending + multiset{key})
    else t.(backends := t.backends + 1, matches := t.matches + 1, waiting := t.waiting - multiset{key})
  }

  function CountResult(t: Tally, key: string, discarded: bool): Tally {
    if discarded then t.(dropped := t.dropped + 1, waiting := t.waiting - multiset{key}) else t
  }

  lemma SetWaitingEffect(m: Meter, key: string, waiting: seq<string>)
    requires WellFormed(m) && (waiting == [] || Pending(m, key) == 0)
    ensures WellFormed(SetWaiting(m, key, waiting))
    ensures forall k :: Waiting(SetWaiting(m, key, waiting), k) == if k == key then waiting else Waiting(m, k)
    ensures forall k :: Pending(SetWaiting(m, key, waiting), k) == Pending(m, k)
  {
  }

  lemma SetPendingEffect(m: Meter, key: string, n: nat)
    requires WellFormed(m) && (n == 0 || Waiting(m, key) == [])
    ensures WellFormed(SetPending(m, key, n))
    ensures forall k :: Pending(SetPending(m, key, n), k) == if k == key then n else Pending(m, k)
    ensures forall k :: Waiting(SetPending(m, key, n), k) == Waiting(m, k)
  {
  }

  lemma TakeOne(keys: multiset<string>, key: string)
    requires key in keys
    ensures |keys - multiset{key}| == |keys| - 1
  {
    assert keys == (keys - multiset{key}) + multiset{key};
  }

  lemma AgentCallConserves(m: Meter, t: Tally, key: string, id: string)
    requires Conserved(m, t)
    ensures var (m', recorded) := AgentCall(m, key, id); Conserved(m', CountCall(t, key, recorded))
  {
    if Pending(m, key) > 0 {
      SetPendingEffect(m, key, Pending(m, key) - 1);
      TakeOne(t.pending, key);
    } else {
      SetWaitingEffect(m, key, Waiting(m, key) + [id]);
    }
  }

  lemma BeforeBackendConserves(m: Meter, t: Tally, key: string)
    requires Conserved(m, t)
    ensures var (m', recorded) := BeforeBackend(m, key); Conserved(m', CountBackend(t, key, recorded))
  {
    if Waiting(m, key) != [] {
      SetWaitingEffect(m, key, Waiting(m, key)[1..]);
      TakeOne(t.waiting, key);
    } else {
      SetPendingEffect(m, key, Pending(m, key) + 1);
    }
  }

  lemma AgentResultConserves(m: Meter, t: Tally, key: string, id: string)
    requires Conserved(m, t)
    ensures var (m', discarded) := AgentResult(m, key, id); Conserved(m', CountResult(t, key, discarded))
  {
    var waiting := Waiting(m, key);
    var i := IndexOf(waiting, id);
    if i < |waiting| {
      SetWaitingEffect(m, key, waiting[..i] + waiting[i + 1..]);
      TakeOne(t.waiting, key);
    }
  }

  // ---- Any history of the meter ----

  datatype MeterEvent = CallEvent(key: string, id: string) | ResultEvent(key: string, id: string) | BackendEvent(key: string)

  function Observe(m: Meter, t: Tally, e: MeterEvent): (Meter, Tally) {
    match e
    case CallEvent(key, id) => var (m', recorded) := AgentCall(m, key, id); (m', CountCall(t, key, recorded))
    case ResultEvent(key, id) => var (m', discarded) := AgentResult(m, key, id); (m', CountResult(t, key, discarded))
    case BackendEvent(key) => var (m', recorded) := BeforeBackend(m, key); (m', CountBackend(t, key, recorded))
  }

  function History(es: seq<MeterEvent>): (Meter, Tally) {
    if es == [] then (EMPTY, NOTHING_YET)
    else
      var (m, t) := History(es[..|es| - 1]);
      Observe(m, t, es[|es| - 1])
  }

  lemma ObserveConserves(m: Meter, t: Tally, e: MeterEvent)
    requires Conserved(m, t)
    ensures var (m', t') := Observe(m, t, e); Conserved(m', t')
  {
    match e
    case CallEvent(key, id) => AgentCallConserves(m, t, key, id);
    case ResultEvent(key, id) => AgentResultConserves(m, t, key, id);
    case BackendEvent(key) => BeforeBackendConserves(m, t, key);
  }

  lemma {:induction false} HistoryConserves(es: seq<MeterEvent>)
    ensures var (m, t) := History(es); Conserved(m, t)
  {
    if es != [] {
      HistoryConserves(es[..|es| - 1]);
      var (m, t) := History(es[..|es| - 1]);
      ObserveConserves(m, t, es[|es| - 1]);
    }
  }

  /** The meter's law, for every interleaving of events, results and executions: each call is
      requested once however it is first seen, no key waits on both sides, and `requested` is never
      below the number of executions nor below the number of Agent calls. */
  lemma MeterConservation(es: seq<MeterEvent>)
    ensures var (m, t) := History(es);
            && t.requested + t.matches == t.events + t.backends
            && m.backendFirst.Keys !! m.eventFirst.Keys
            && t.backends <= t.requested
            && t.events <= t.requested
  {
    HistoryConserves(es);
  }

  // ---- What `requested` counts, without the tables ----

  function EventsFor(es: seq<MeterEvent>, key: string): nat {
    if es == [] then 0 else
      EventsFor(es[..|es| - 1], key) + if es[|es| - 1].CallEvent? && es[|es| - 1].key == key then 1 else 0
  }

  function BackendsFor(es: seq<MeterEvent>, key: string): nat {
    if es == [] then 0 else
      BackendsFor(es[..|es| - 1], key) + if es[|es| - 1].BackendEvent? && es[|es| - 1].key == key then 1 else 0
  }

  /** The event makes the meter record a request. */
  predicate Records(m: Meter, e: MeterEvent) {
    (e.CallEvent? && AgentCall(m, e.key, e.id).1) || (e.BackendEvent? && BeforeBackend(m, e.key).1)
  }

  /** The event drops a reservation that no backend call had claimed. */
  predicate Discards(m: Meter, e: MeterEvent) {
    e.ResultEvent? && AgentResult(m, e.key, e.id).1
  }

  function RequestedFor(es: seq<MeterEvent>, key: string): nat {
    if es == [] then 0 else
      RequestedFor(es[..|es| - 1], key)
      + if es[|es| - 1].key == key && Records(History(es[..|es| - 1]).0, es[|es| - 1]) then 1 else 0
  }

  function DiscardsFor(es: seq<MeterEvent>, key: string): nat {
    if es == [] then 0 else
      DiscardsFor(es[..|es| - 1], key)
      + if es[|es| - 1].key == key && Discards(History(es[..|es| - 1]).0, es[|es| - 1]) then 1 else 0
  }

  /** What one event does to the two tables at a key. */
  lemma ObserveCounts(m: Meter, t: Tally, e: MeterEvent, key: string)
    requires WellFormed(m)
    ensures var next := Observe(m, t, e).0;
            var waits, waited := |Waiting(next, key)|, |Waiting(m, key)|;
            if e.key != key then waits == waited && Pending(next, key) == Pending(m, key)
            else
              match e
              case CallEvent(_, _) =>
                if Records(m, e) then waits == waited + 1 && Pending(next, key) == Pending(m, key) == 0
                else waits == waited && Pending(next, key) == Pending(m, key) - 1
              case BackendEvent(_) =>
                if Records(m, e) then waits == waited == 0 && Pending(next, key) == Pending(m, key) + 1
                else waits == waited - 1 && Pending(next, key) == Pending(m, key)
              case ResultEvent(_, _) => waits == waited - (if Discards(m, e) then 1 else 0) && Pending(next, key) == Pending(m, key)
  {
    match e
    case CallEvent(k, id) =>
      if Pending(m, k) > 0 {
        SetPendingEffect(m, k, Pending(m, k) - 1);
      } else {
        SetWaitingEffect(m, k, Waiting(m, k) + [id]);
      }
    case BackendEvent(k) =>
      if Waiting(m, k) != [] {
        SetWaitingEffect(m, k, Waiting(m, k)[1..]);
      } else {
        SetPendingEffect(m, k, Pending(m, k) + 1);
      }
    case ResultEvent(k, id) =>
      var i := IndexOf(Waiting(m, k), id);
      if i < |Waiting(m, k)| {
        SetWaitingEffect(m, k, Waiting(m, k)[..i] + Waiting(m, k)[i + 1..]);
      }
  }

  lemma HistoryWellFormed(es: seq<MeterEvent>)
    ensures WellFormed(History(es).0)
  {
    HistoryConserves(es);
  }

  predicate LargerCount(m: Meter, key: string, agent: nat, backend: nat, requested: nat) {
    requested == Max(agent, backend) && |Waiting(m, key)| == requested - backend && Pending(m, key) == requested - agent
  }

  lemma LargerCountNext(m: Meter, t: Tally, e: MeterEvent, key: string, agent: nat, backend: nat, requested: nat)
    requires WellFormed(m) && LargerCount(m, key, agent, backend, requested)
    ensures LargerCount(Observe(m, t, e).0, key,
                        agent + if e.key == key && e.CallEvent? then 1 else 0,
                        backend + if e.key == key && (e.BackendEvent? || Discards(m, e)) then 1 else 0,
                        requested + if e.key == key && Records(m, e) then 1 else 0)
  {
    ObserveCounts(m, t, e, key);
  }

  /** The order of sightings does not matter: a key has been requested exactly as often as the larger of
      its two counts, agent calls on one side and backend calls with dropped reservations on the other;
      what is pending is the difference. */
  lemma {:induction false} RequestedIsTheLargerCount(es: seq<MeterEvent>, key: string)
    ensures LargerCount(History(es).0, key, EventsFor(es, key), BackendsFor(es, key) + DiscardsFor(es, key), RequestedFor(es, key))
  {
    if es != [] {
      var before := es[..|es| - 1];
      RequestedIsTheLargerCount(before, key);
      HistoryWellFormed(before);
      LargerCountNext(History(before).0, History(before).1, es[|es| - 1], key, EventsFor(before, key),
                      BackendsFor(before, key) + DiscardsFor(before, key), RequestedFor(before, key));
    }
  }
}
