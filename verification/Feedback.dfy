/** The feedback service: a receipt per report, an email for every new one, and a weekly purge. A handler
    reads the time, in milliseconds, some while before it takes effect, so handlers may take effect in
    another order than that of their times. */
module Feedback {
  import opened Wrappers

  type Id(==, !new)
  type Address(==, !new)
  type Body(==, !new)

  const DAY: int := 86_400_000
  const PER_DAY: nat := 100
  const PER_ADDRESS: nat := 10

  /** How long a submission may take from reading the time to storing its receipt. */
  const MAX_LAG: int := 6 * DAY - 300_000

  /** A whole submission; its digest stands for it. */
  datatype Report = Report(id: Id, createdAt: int, body: Body)

  datatype State = Pending | Accepted | Unknown

  /** The address is stored as a hash that changes with the day. */
  datatype AddressKey = AddressKey(day: int, address: Address)

  datatype Row = Row(digest: Report, key: AddressKey, createdAt: int, state: State)

  datatype Reply = Expired | New | Known(state: State) | Conflict | RateLimited

  datatype Receipt = Receipt(report: Report, key: AddressKey, at: int)

  /** `tasks` are deliveries still to run. `accepted` and `emails` are history, and `clock` is the latest
      time that a handler which took effect had read. */
  datatype World = World(rows: map<Id, Row>, tasks: seq<Report>, emails: seq<Report>, accepted: seq<Receipt>, clock: int)

  const EMPTY := World(map[], [], [], [], 0)

  function DayOf(time: int): int {
    time / DAY
  }

  /** Old by at most a day, early by at most five minutes. */
  predicate Fresh(report: Report, now: int) {
    -300_000 <= now - report.createdAt <= DAY
  }

  function IdsSince(rows: map<Id, Row>, start: int): set<Id> {
    set id | id in rows && rows[id].createdAt >= start
  }

  function IdsOf(rows: map<Id, Row>, key: AddressKey, start: int): set<Id> {
    set id | id in rows && rows[id].key == key && rows[id].createdAt >= start
  }

  predicate HasRoom(rows: map<Id, Row>, key: AddressKey, now: int) {
    |IdsSince(rows, DayOf(now) * DAY)| < PER_DAY && |IdsOf(rows, key, DayOf(now) * DAY)| < PER_ADDRESS
  }

  function Lookup(rows: map<Id, Row>, report: Report): Reply {
    if report.id !in rows then RateLimited
    else if rows[report.id].digest != report then Conflict
    else Known(rows[report.id].state)
  }

  function Reserve(rows: map<Id, Row>, report: Report, key: AddressKey, now: int): (map<Id, Row>, Reply) {
    if report.id !in rows && HasRoom(rows, key, now) then (rows[report.id := Row(report, key, now, Pending)], New)
    else (rows, Lookup(rows, report))
  }

  function Submit(w: World, report: Report, address: Address, now: int): (World, Reply) {
    var clock := Max(w.clock, now);
    if !Fresh(report, now) then (w.(clock := clock), Expired)
    else
      var key := AddressKey(DayOf(now), address);
      var (rows, reply) := Reserve(w.rows, report, key, now);
      if reply == New then
        (World(rows, w.tasks + [report], w.emails, w.accepted + [Receipt(report, key, now)], clock), reply)
      else (w.(clock := clock), reply)
  }

  /** Run a delivery: the email is tried once, then the receipt updated, if the update gets through. */
  function Deliver(w: World, k: nat, sent: bool, updated: bool): World
    requires k < |w.tasks|
  {
    var report := w.tasks[k];
    var rows := if updated && report.id in w.rows
                then w.rows[report.id := w.rows[report.id].(state := if sent then Accepted else Unknown)] else w.rows;
    w.(rows := rows, tasks := w.tasks[..k] + w.tasks[k + 1..], emails := w.emails + [report])
  }

  function Purge(w: World, now: int): World {
    w.(rows := map id | id in w.rows && w.rows[id].createdAt >= now - 7 * DAY :: w.rows[id], clock := Max(w.clock, now))
  }

  datatype Event =
    | Submits(report: Report, address: Address, now: int)
    | Delivers(k: nat, sent: bool, updated: bool)
    | Purges(now: int)

  /** A submission takes effect at most `lag` after it read the time; a purge may be as late as it likes. */
  predicate Enabled(w: World, e: Event, lag: int) {
    match e
    case Submits(_, _, now) => w.clock - lag <= now
    case Delivers(k, _, _) => k < |w.tasks|
    case Purges(_) => true
  }

  function Step(w: World, e: Event): World
    requires e.Delivers? ==> e.k < |w.tasks|
  {
    match e
    case Submits(report, address, now) => Submit(w, report, address, now).0
    case Delivers(k, sent, updated) => Deliver(w, k, sent, updated)
    case Purges(now) => Purge(w, now)
  }

  predicate Allowed(w: World, es: seq<Event>, lag: int)
    decreases |es|
  {
    es == [] || (Enabled(w, es[0], lag) && Allowed(Step(w, es[0]), es[1..], lag))
  }

  function Run(w: World, es: seq<Event>, lag: int): World
    requires Allowed(w, es, lag)
    decreases |es|
  {
    if es == [] then w else Run(Step(w, es[0]), es[1..], lag)
  }

  class FeedbackWorker {
    var rows: map<Id, Row>
    ghost var tasks: seq<Report>
    ghost var emails: seq<Report>
    ghost var accepted: seq<Receipt>
    ghost var clock: int

    ghost function Model(): World
      reads this
    {
      World(rows, tasks, emails, accepted, clock)
    }

    constructor ()
      ensures Model() == EMPTY
    {
      rows, tasks, emails, accepted, clock := map[], [], [], [], 0;
    }

    /** Insert unless the id is taken or a limit is reached; otherwise tell what is known. */
    method ReserveReceipt(report: Report, key: AddressKey, now: int) returns (reply: Reply)
      modifies this`rows
      ensures (rows, reply) == Reserve(old(rows), report, key, now)
    {
      var dayStart := now / DAY * DAY;
      var today := set id | id in rows && rows[id].createdAt >= dayStart;
      var mine := set id | id in rows && rows[id].key == key && rows[id].createdAt >= dayStart;
      if report.id !in rows && |today| < PER_DAY && |mine| < PER_ADDRESS {
        rows := rows[report.id := Row(report, key, now, Pending)];
        return New;
      }
      if report.id !in rows {
        return RateLimited;
      }
      reply := if rows[report.id].digest == report then Known(rows[report.id].state) else Conflict;
    }

    method HandleSubmission(report: Report, address: Address, now: int) returns (reply: Reply)
      modifies this
      ensures (Model(), reply) == Submit(old(Model()), report, address, now)
    {
      clock := Max(clock, now);
      var age := now - report.createdAt;
      if age > DAY || age < -300_000 {
        return Expired;
      }
      var key := AddressKey(now / DAY, address);
      reply := ReserveReceipt(report, key, now);
      if reply == New {
        tasks, accepted := tasks + [report], accepted + [Receipt(report, key, now)];
      }
    }

    method DeliverReport(report: Report, sent: bool, updated: bool, ghost k: nat)
      requires k < |tasks| && tasks[k] == report
      modifies this
      ensures Model() == Deliver(old(Model()), k, sent, updated)
      ensures emails == old(emails) + [report] && rows.Keys == old(rows).Keys
      ensures forall id <- rows :: rows[id] == if updated && id == report.id
                                               then old(rows)[id].(state := if sent then Accepted else Unknown) else old(rows)[id]
    {
      emails := emails + [report];
      var state := if sent then Accepted else Unknown;
      if updated && report.id in rows {
        rows := rows[report.id := rows[report.id].(state := state)];
      }
      tasks := tasks[..k] + tasks[k + 1..];
    }

    method Scheduled(now: int)
      modifies this
      ensures Model() == Purge(old(Model()), now)
    {
      rows := map id | id in rows && rows[id].createdAt >= now - 7 * DAY :: rows[id];
      clock := Max(clock, now);
    }
  }

  // ---- Counting ----

  function Count(reports: seq<Report>, report: Report): nat {
    if reports == [] then 0 else (if reports[0] == report then 1 else 0) + Count(reports[1..], report)
  }

  lemma {:induction false} CountConcat(a: seq<Report>, b: seq<Report>, report: Report)
    ensures Count(a + b, report) == Count(a, report) + Count(b, report)
  {
    if a == [] {
      assert a + b == b;
    } else {
      assert (a + b)[1..] == a[1..] + b;
      CountConcat(a[1..], b, report);
    }
  }

  function AcceptedCount(accepted: seq<Receipt>, report: Report): nat {
    if accepted == [] then 0
    else AcceptedCount(accepted[..|accepted| - 1], report) + if accepted[|accepted| - 1].report == report then 1 else 0
  }

  function CountIf(accepted: seq<Receipt>, chosen: Receipt -> bool): nat {
    if accepted == [] then 0
    else CountIf(accepted[..|accepted| - 1], chosen) + if chosen(accepted[|accepted| - 1]) then 1 else 0
  }

  function OfDay(day: int): Receipt -> bool {
    (r: Receipt) => DayOf(r.at) == day
  }

  function OfKey(key: AddressKey): Receipt -> bool {
    (r: Receipt) => r.key == key
  }

  /** How many receipts were accepted on a day, and how many of them from one address. */
  function OnDay(accepted: seq<Receipt>, day: int): nat {
    CountIf(accepted, OfDay(day))
  }

  function FromAddress(accepted: seq<Receipt>, key: AddressKey): nat {
    CountIf(accepted, OfKey(key))
  }

  // ---- The invariant ----

  /** A receipt is on file until a purge at least seven days later. */
  predicate OnFile(w: World, r: Receipt) {
    || r.at < w.clock - 7 * DAY
    || (r.report.id in w.rows && w.rows[r.report.id].digest == r.report && w.rows[r.report.id].key == r.key
        && w.rows[r.report.id].createdAt == r.at)
  }

  predicate Kept(w: World, r: Receipt) {
    r.at <= w.clock && OnFile(w, r) && Fresh(r.report, r.at) && r.key.day == DayOf(r.at)
  }

  ghost predicate Sound(w: World) {
    && (forall i | 0 <= i < |w.accepted| :: Kept(w, w.accepted[i]))
    && (forall i, j | 0 <= i < j < |w.accepted| :: Apart(w.accepted[i], w.accepted[j]))
    && (forall report :: Delivered(w, report))
    && (forall day :: OnDay(w.accepted, day) <= PER_DAY)
    && (forall key :: FromAddress(w.accepted, key) <= PER_ADDRESS)
  }

  /** Two receipts never share a report; sharing an id takes longer than a report stays fresh. */
  predicate Apart(a: Receipt, b: Receipt) {
    a.report != b.report && (a.report.id == b.report.id ==> a.at + DAY + 300_000 < b.at)
  }

  /** Every accepted report is waiting for its email or was emailed, as often as it was accepted. */
  predicate Delivered(w: World, report: Report) {
    Count(w.tasks, report) + Count(w.emails, report) == AcceptedCount(w.accepted, report)
  }

  // ---- Accepting ----

  function IdsIf(accepted: seq<Receipt>, chosen: Receipt -> bool): set<Id> {
    if accepted == [] then {}
    else IdsIf(accepted[..|accepted| - 1], chosen) + if chosen(accepted[|accepted| - 1]) then {accepted[|accepted| - 1].report.id} else {}
  }

  lemma {:induction false} IdsIfAre(accepted: seq<Receipt>, chosen: Receipt -> bool, id: Id)
    ensures id in IdsIf(accepted, chosen) <==> exists i :: 0 <= i < |accepted| && chosen(accepted[i]) && accepted[i].report.id == id
  {
    if accepted != [] {
      var n := |accepted| - 1;
      IdsIfAre(accepted[..n], chosen, id);
      assert chosen(accepted[n]) && accepted[n].report.id == id ==> id in IdsIf(accepted, chosen);
    }
  }

  /** Receipts of pairwise different ids are as many as their ids. */
  lemma {:induction false} CountIsIds(accepted: seq<Receipt>, chosen: Receipt -> bool)
    requires forall i, j | 0 <= i < j < |accepted| :: chosen(accepted[i]) && chosen(accepted[j]) ==> accepted[i].report.id != accepted[j].report.id
    ensures CountIf(accepted, chosen) == |IdsIf(accepted, chosen)|
  {
    if accepted != [] {
      var n := |accepted| - 1;
      CountIsIds(accepted[..n], chosen);
      IdsIfAre(accepted[..n], chosen, accepted[n].report.id);
    }
  }

  lemma DayBounds(time: int)
    ensures DayOf(time) * DAY <= time < DayOf(time) * DAY + DAY
  {
  }

  /** Of receipts from the current day none can be off file, and no two share an id. */
  lemma {:induction false} TodayOnFile(w: World, r: Receipt, now: int)
    requires Kept(w, r) && w.clock - MAX_LAG <= now && DayOf(r.at) == DayOf(now)
    ensures r.report.id in w.rows && w.rows[r.report.id].createdAt == r.at && w.rows[r.report.id].key == r.key
    ensures r.at >= DayOf(now) * DAY
  {
    DayBounds(r.at);
    DayBounds(now);
  }

  lemma {:induction false} TodayFitsRows(w: World, chosen: Receipt -> bool, now: int, rows: set<Id>)
    requires Sound(w) && w.clock - MAX_LAG <= now
    requires forall r | chosen(r) && Kept(w, r) :: DayOf(r.at) == DayOf(now)
    requires forall r | chosen(r) && Kept(w, r) :: r.report.id in rows
    ensures CountIf(w.accepted, chosen) <= |rows|
  {
    forall i, j | 0 <= i < j < |w.accepted| && chosen(w.accepted[i]) && chosen(w.accepted[j])
      ensures w.accepted[i].report.id != w.accepted[j].report.id
    {
      var a, b := w.accepted[i], w.accepted[j];
      assert Kept(w, a) && Kept(w, b) && Apart(a, b);
      DayBounds(a.at);
      DayBounds(b.at);
    }
    CountIsIds(w.accepted, chosen);
    forall id | id in IdsIf(w.accepted, chosen) ensures id in rows {
      IdsIfAre(w.accepted, chosen, id);
      var i :| 0 <= i < |w.accepted| && chosen(w.accepted[i]) && w.accepted[i].report.id == id;
      assert Kept(w, w.accepted[i]);
    }
    SubsetSize(IdsIf(w.accepted, chosen), rows);
  }

  /** While there is room, fewer receipts than the limits were accepted on the day. */
  lemma {:induction false} RoomCounts(w: World, key: AddressKey, now: int)
    requires Sound(w) && w.clock - MAX_LAG <= now && key.day == DayOf(now) && HasRoom(w.rows, key, now)
    ensures OnDay(w.accepted, DayOf(now)) < PER_DAY && FromAddress(w.accepted, key) < PER_ADDRESS
  {
    var start := DayOf(now) * DAY;
    forall r: Receipt | DayOf(r.at) == DayOf(now) && Kept(w, r) ensures r.report.id in IdsSince(w.rows, start) {
      TodayOnFile(w, r, now);
    }
    TodayFitsRows(w, OfDay(DayOf(now)), now, IdsSince(w.rows, start));
    forall r: Receipt | r.key == key && Kept(w, r) ensures DayOf(r.at) == DayOf(now) && r.report.id in IdsOf(w.rows, key, start) {
      TodayOnFile(w, r, now);
    }
    TodayFitsRows(w, OfKey(key), now, IdsOf(w.rows, key, start));
  }

  /** A report that is new again was never accepted before: purging its receipt takes longer than the
      report stays fresh. */
  lemma {:induction false} NewIsApart(w: World, a: Receipt, report: Report, now: int, key: AddressKey)
    requires Kept(w, a) && w.clock - MAX_LAG <= now && Fresh(report, now) && report.id !in w.rows
    ensures Apart(a, Receipt(report, key, now))
  {
  }

  lemma {:induction false} CountIfNext(accepted: seq<Receipt>, r: Receipt, chosen: Receipt -> bool)
    ensures CountIf(accepted + [r], chosen) == CountIf(accepted, chosen) + if chosen(r) then 1 else 0
  {
    assert (accepted + [r])[..|accepted|] == accepted;
  }

  lemma {:induction false} AcceptedNext(accepted: seq<Receipt>, r: Receipt, report: Report)
    ensures AcceptedCount(accepted + [r], report) == AcceptedCount(accepted, report) + if r.report == report then 1 else 0
  {
    assert (accepted + [r])[..|accepted|] == accepted;
  }

  lemma {:induction false} AcceptKeeps(w: World, report: Report, address: Address, now: int)
    requires Sound(w) && w.clock - MAX_LAG <= now && Submit(w, report, address, now).1 == New
    ensures Sound(Submit(w, report, address, now).0)
  {
    var after := Submit(w, report, address, now).0;
    var r := Receipt(report, AddressKey(DayOf(now), address), now);
    RoomCounts(w, r.key, now);
    forall i | 0 <= i < |after.accepted| ensures Kept(after, after.accepted[i]) {
      assert i < |w.accepted| ==> Kept(w, w.accepted[i]);
    }
    forall i, j | 0 <= i < j < |after.accepted| ensures Apart(after.accepted[i], after.accepted[j]) {
      assert Kept(w, w.accepted[i]);
      if j < |w.accepted| {
        assert Apart(w.accepted[i], w.accepted[j]);
      } else {
        NewIsApart(w, w.accepted[i], report, now, r.key);
      }
    }
    forall other ensures Delivered(after, other) {
      assert Delivered(w, other);
      CountConcat(w.tasks, [report], other);
      AcceptedNext(w.accepted, r, other);
    }
    forall day ensures OnDay(after.accepted, day) <= PER_DAY {
      assert OnDay(w.accepted, day) <= PER_DAY;
      CountIfNext(w.accepted, r, OfDay(day));
    }
    forall key ensures FromAddress(after.accepted, key) <= PER_ADDRESS {
      assert FromAddress(w.accepted, key) <= PER_ADDRESS;
      CountIfNext(w.accepted, r, OfKey(key));
    }
  }

  lemma {:induction false} QuietKeeps(w: World, after: World)
    requires Sound(w) && after.accepted == w.accepted && after.clock >= w.clock
    requires forall report :: Delivered(w, report) ==> Delivered(after, report)
    requires forall r | Kept(w, r) :: OnFile(after, r)
    ensures Sound(after)
  {
    forall i | 0 <= i < |after.accepted| ensures Kept(after, after.accepted[i]) {
      assert Kept(w, w.accepted[i]);
    }
  }

  lemma {:induction false} DeliverKeeps(w: World, k: nat, sent: bool, updated: bool)
    requires Sound(w) && k < |w.tasks|
    ensures Sound(Deliver(w, k, sent, updated))
  {
    var after, report := Deliver(w, k, sent, updated), w.tasks[k];
    forall other | Delivered(w, other) ensures Delivered(after, other) {
      assert w.tasks == w.tasks[..k] + ([report] + w.tasks[k + 1..]);
      CountConcat(w.tasks[..k], [report] + w.tasks[k + 1..], other);
      CountConcat([report], w.tasks[k + 1..], other);
      CountConcat(w.tasks[..k], w.tasks[k + 1..], other);
      CountConcat(w.emails, [report], other);
    }
    QuietKeeps(w, after);
  }

  lemma {:induction false} StepKeeps(w: World, e: Event)
    requires Sound(w) && Enabled(w, e, MAX_LAG)
    ensures Sound(Step(w, e))
  {
    match e
    case Submits(report, address, now) =>
      if Submit(w, report, address, now).1 == New {
        AcceptKeeps(w, report, address, now);
      } else {
        QuietKeeps(w, Submit(w, report, address, now).0);
      }
    case Delivers(k, sent, updated) => DeliverKeeps(w, k, sent, updated);
    case Purges(now) => QuietKeeps(w, Purge(w, now));
  }

  lemma {:induction false} RunKeeps(w: World, es: seq<Event>, lag: int)
    requires Sound(w) && lag <= MAX_LAG && Allowed(w, es, lag)
    ensures Sound(Run(w, es, lag))
    decreases |es|
  {
    if es != [] {
      StepKeeps(w, es[0]);
      RunKeeps(Step(w, es[0]), es[1..], lag);
    }
  }

  lemma {:induction false} AcceptedOnce(accepted: seq<Receipt>, report: Report)
    requires forall i, j | 0 <= i < j < |accepted| :: Apart(accepted[i], accepted[j])
    ensures AcceptedCount(accepted, report) <= 1
    ensures (forall i | 0 <= i < |accepted| :: accepted[i].report != report) ==> AcceptedCount(accepted, report) == 0
  {
    if accepted != [] {
      var n := |accepted| - 1;
      AcceptedOnce(accepted[..n], report);
      if accepted[n].report == report {
        forall i | 0 <= i < n ensures accepted[..n][i].report != report {
          assert Apart(accepted[i], accepted[n]);
        }
      }
    }
  }

  /** An identical report is emailed at most once, however often it is sent, however many purges come
      between and in whatever order overlapping submissions take effect, as long as each one takes
      effect within the lag. */
  lemma EmailedAtMostOnce(es: seq<Event>, report: Report, lag: int)
    requires lag <= MAX_LAG && Allowed(EMPTY, es, lag)
    ensures var w := Run(EMPTY, es, lag); Count(w.emails, report) + Count(w.tasks, report) <= 1
  {
    RunKeeps(EMPTY, es, lag);
    var w := Run(EMPTY, es, lag);
    assert Delivered(w, report);
    AcceptedOnce(w.accepted, report);
  }

  /** On no day are more than 100 reports accepted, nor more than 10 from one address. */
  lemma AcceptanceIsLimited(es: seq<Event>, day: int, address: Address, lag: int)
    requires lag <= MAX_LAG && Allowed(EMPTY, es, lag)
    ensures var w := Run(EMPTY, es, lag);
            OnDay(w.accepted, day) <= 100 && FromAddress(w.accepted, AddressKey(day, address)) <= 10
  {
    RunKeeps(EMPTY, es, lag);
  }

  // ---- Every report within the limits is accepted ----

  /** A receipt on file is one that was accepted. */
  predicate Backed(row: Row, id: Id, accepted: seq<Receipt>) {
    row.digest.id == id && exists i | 0 <= i < |accepted| :: accepted[i] == Receipt(row.digest, row.key, row.createdAt)
  }

  predicate AllBacked(rows: map<Id, Row>, accepted: seq<Receipt>) {
    forall id <- rows :: Backed(rows[id], id, accepted)
  }

  lemma {:induction false} StepBacks(w: World, e: Event)
    requires AllBacked(w.rows, w.accepted) && (e.Delivers? ==> e.k < |w.tasks|)
    ensures AllBacked(Step(w, e).rows, Step(w, e).accepted)
  {
    var after := Step(w, e);
    forall id | id in after.rows ensures Backed(after.rows[id], id, after.accepted) {
      if id in w.rows {
        assert Backed(w.rows[id], id, w.accepted);
        var i :| 0 <= i < |w.accepted| && w.accepted[i] == Receipt(w.rows[id].digest, w.rows[id].key, w.rows[id].createdAt);
        assert after.accepted[i] == w.accepted[i];
      } else {
        assert after.accepted[|w.accepted|] == Receipt(e.report, AddressKey(DayOf(e.now), e.address), e.now);
      }
    }
  }

  lemma {:induction false} RunBacks(w: World, es: seq<Event>, lag: int)
    requires AllBacked(w.rows, w.accepted) && Allowed(w, es, lag)
    ensures AllBacked(Run(w, es, lag).rows, Run(w, es, lag).accepted)
    decreases |es|
  {
    if es != [] {
      StepBacks(w, es[0]);
      RunBacks(Step(w, es[0]), es[1..], lag);
    }
  }

  /** Receipts of the current day: as many on file as accepted. */
  lemma RowsAreToday(w: World, chosen: Receipt -> bool, now: int, rows: set<Id>)
    requires Sound(w) && AllBacked(w.rows, w.accepted) && w.clock <= now
    requires forall r | chosen(r) && Kept(w, r) :: DayOf(r.at) == DayOf(now)
    requires forall id <- rows :: id in w.rows && chosen(Receipt(w.rows[id].digest, w.rows[id].key, w.rows[id].createdAt))
    ensures |rows| <= CountIf(w.accepted, chosen)
  {
    forall i, j | 0 <= i < j < |w.accepted| && chosen(w.accepted[i]) && chosen(w.accepted[j])
      ensures w.accepted[i].report.id != w.accepted[j].report.id
    {
      var a, b := w.accepted[i], w.accepted[j];
      assert Kept(w, a) && Kept(w, b) && Apart(a, b);
      DayBounds(a.at);
      DayBounds(b.at);
    }
    CountIsIds(w.accepted, chosen);
    forall id | id in rows ensures id in IdsIf(w.accepted, chosen) {
      assert Backed(w.rows[id], id, w.accepted);
      IdsIfAre(w.accepted, chosen, id);
    }
    SubsetSize(rows, IdsIf(w.accepted, chosen));
  }

  /** With no later handler in effect, the rows counted are the receipts of the day. */
  lemma RoomIsExact(w: World, key: AddressKey, now: int)
    requires Sound(w) && AllBacked(w.rows, w.accepted) && w.clock <= now && key.day == DayOf(now)
    ensures |IdsSince(w.rows, DayOf(now) * DAY)| <= OnDay(w.accepted, DayOf(now))
    ensures |IdsOf(w.rows, key, DayOf(now) * DAY)| <= FromAddress(w.accepted, key)
  {
    var start := DayOf(now) * DAY;
    forall id | id in IdsSince(w.rows, start) ensures DayOf(w.rows[id].createdAt) == DayOf(now) {
      assert Backed(w.rows[id], id, w.accepted);
      var i :| 0 <= i < |w.accepted| && w.accepted[i] == Receipt(w.rows[id].digest, w.rows[id].key, w.rows[id].createdAt);
      assert Kept(w, w.accepted[i]);
      DayBounds(w.rows[id].createdAt);
      DayBounds(now);
    }
    RowsAreToday(w, OfDay(DayOf(now)), now, IdsSince(w.rows, start));
    RowsAreToday(w, OfKey(key), now, IdsOf(w.rows, key, start));
  }

  /** A submission is answered exactly so, in every run in which no handler that read a later time has
      taken effect: a report more than a day old or five minutes early is expired; one whose id is on
      file is known, or a conflict if it differs; and a new one is accepted unless 100 reports were
      accepted on the day or 10 from its address. */
  lemma AcceptedUpToTheLimits(es: seq<Event>, report: Report, address: Address, now: int, lag: int)
    requires lag <= MAX_LAG && Allowed(EMPTY, es, lag) && Run(EMPTY, es, lag).clock <= now
    ensures var w := Run(EMPTY, es, lag);
            var day := now / 86_400_000;
            Submit(w, report, address, now).1 ==
            if now - report.createdAt > 86_400_000 || now - report.createdAt < -300_000 then Expired
            else if report.id in w.rows then (if w.rows[report.id].digest == report then Known(w.rows[report.id].state) else Conflict)
            else if OnDay(w.accepted, day) < 100 && FromAddress(w.accepted, AddressKey(day, address)) < 10 then New
            else RateLimited
  {
    var w, key := Run(EMPTY, es, lag), AddressKey(DayOf(now), address);
    RunKeeps(EMPTY, es, lag);
    RunBacks(EMPTY, es, lag);
    RoomIsExact(w, key, now);
    if HasRoom(w.rows, key, now) {
      RoomCounts(w, key, now);
    }
  }

  // ---- The lag is exact ----

  /** A report is sent as early as can be and emailed, its receipt is purged as early as can be, and
      the report is sent again as late as it stays fresh. */
  function LateEvent(k: nat, report: Report, address: Address): Event {
    match k
    case 0 => Submits(report, address, report.createdAt - 300_000)
    case 1 => Delivers(0, true, true)
    case 2 => Purges(report.createdAt - 300_000 + 7 * DAY + 1)
    case 3 => Submits(report, address, report.createdAt + DAY)
    case _ => Delivers(0, true, true)
  }

  function LateWorld(k: nat, report: Report, address: Address): World {
    var early, late := report.createdAt - 300_000, report.createdAt + DAY;
    var first, second := AddressKey(DayOf(early), address), AddressKey(DayOf(late), address);
    var once := [Receipt(report, first, early)];
    match k
    case 0 => EMPTY
    case 1 => World(map[report.id := Row(report, first, early, Pending)], [report], [], once, early)
    case 2 => World(map[report.id := Row(report, first, early, Accepted)], [], [report], once, early)
    case 3 => World(map[], [], [report], once, early + 7 * DAY + 1)
    case 4 => World(map[report.id := Row(report, second, late, Pending)], [report], [report], once + [Receipt(report, second, late)], early + 7 * DAY + 1)
    case _ => World(map[report.id := Row(report, second, late, Accepted)], [], [report, report], once + [Receipt(report, second, late)], early + 7 * DAY + 1)
  }

  lemma AcceptsIntoEmpty(w: World, report: Report, address: Address, now: int)
    requires w.rows == map[] && Fresh(report, now)
    ensures var key := AddressKey(DayOf(now), address);
            Submit(w, report, address, now).0
            == World(map[report.id := Row(report, key, now, Pending)], w.tasks + [report], w.emails,
                     w.accepted + [Receipt(report, key, now)], Max(w.clock, now))
  {
    var key := AddressKey(DayOf(now), address);
    assert IdsSince(w.rows, DayOf(now) * DAY) == {} && IdsOf(w.rows, key, DayOf(now) * DAY) == {};
  }

  lemma LateStep(k: nat, report: Report, address: Address, lag: int)
    requires k < 5 && lag > MAX_LAG && report.createdAt >= 300_000
    ensures Enabled(LateWorld(k, report, address), LateEvent(k, report, address), lag)
    ensures Step(LateWorld(k, report, address), LateEvent(k, report, address)) == LateWorld(k + 1, report, address)
  {
    if k == 0 {
      AcceptsIntoEmpty(LateWorld(k, report, address), report, address, report.createdAt - 300_000);
    } else if k == 3 {
      AcceptsIntoEmpty(LateWorld(k, report, address), report, address, report.createdAt + DAY);
    }
  }

  function LateRun(k: nat, report: Report, address: Address): seq<Event>
    requires k <= 5
    decreases 5 - k
  {
    if k == 5 then [] else [LateEvent(k, report, address)] + LateRun(k + 1, report, address)
  }

  lemma {:induction false} LateRuns(k: nat, report: Report, address: Address, lag: int)
    requires k <= 5 && lag > MAX_LAG && report.createdAt >= 300_000
    ensures Allowed(LateWorld(k, report, address), LateRun(k, report, address), lag)
    ensures Run(LateWorld(k, report, address), LateRun(k, report, address), lag) == LateWorld(5, report, address)
    decreases 5 - k
  {
    if k < 5 {
      LateStep(k, report, address, lag);
      LateRuns(k + 1, report, address, lag);
    }
  }

  /** Were a submission allowed to take effect any later, a report could be emailed twice. */
  lemma LongerLagEmailsTwice(report: Report, address: Address, lag: int)
    requires lag > MAX_LAG && report.createdAt >= 300_000
    ensures Allowed(EMPTY, LateRun(0, report, address), lag)
    ensures Count(Run(EMPTY, LateRun(0, report, address), lag).emails, report) == 2
  {
    LateRuns(0, report, address, lag);
    var twice := [report] + [report];
    assert Run(EMPTY, LateRun(0, report, address), lag).emails == twice;
    CountConcat([report], [report], report);
    assert Count([report], report) == 1;
  }
}
