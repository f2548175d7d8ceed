/** The relay's table of hosts, kept to the 32 seen last. */
module RelayHosts {
  /** A host id, after normalisation. */
  type Host = string

  const MAX_HOSTS: nat := 32

  datatype Entry = Entry(id: Host, lastSeen: int)

  predicate Distinct(table: seq<Entry>) {
    forall i, j | 0 <= i < j < |table| :: table[i].id != table[j].id
  }

  function Upsert(table: seq<Entry>, id: Host, now: int): seq<Entry> {
    if table == [] then [Entry(id, now)]
    else if table[0].id == id then [Entry(id, now)] + table[1..]
    else [table[0]] + Upsert(table[1..], id, now)
  }

  /** Put an entry before the first strictly older one of a table sorted newest first. */
  function Insert(entry: Entry, sorted: seq<Entry>): seq<Entry> {
    if sorted == [] || sorted[0].lastSeen <= entry.lastSeen then [entry] + sorted
    else [sorted[0]] + Insert(entry, sorted[1..])
  }

  /** The stable sort, newest first: an entry stays before later ones seen at the same time. */
  function NewestFirst(table: seq<Entry>): seq<Entry> {
    if table == [] then [] else Insert(table[0], NewestFirst(table[1..]))
  }

  function Stale(table: seq<Entry>): seq<Entry> {
    if |NewestFirst(table)| <= MAX_HOSTS then [] else NewestFirst(table)[MAX_HOSTS..]
  }

  function Without(table: seq<Entry>, gone: seq<Entry>): seq<Entry> {
    if table == [] then []
    else (if table[0] in gone then [] else [table[0]]) + Without(table[1..], gone)
  }

  /** The table after a host was seen: the host is entered or refreshed, then the table is trimmed. */
  function Seen(table: seq<Entry>, host: Host, now: int): seq<Entry> {
    Without(Upsert(table, host, now), Stale(Upsert(table, host, now)))
  }

  // ---- Sorting ----

  predicate Sorted(entries: seq<Entry>) {
    forall i, j | 0 <= i < j < |entries| :: entries[i].lastSeen >= entries[j].lastSeen
  }

  predicate NoRepeat(entries: seq<Entry>) {
    forall i, j | 0 <= i < j < |entries| :: entries[i] != entries[j]
  }

  ghost predicate SameEntries(a: seq<Entry>, b: seq<Entry>) {
    |a| == |b| && forall e :: e in a <==> e in b
  }

  /** How many entries were seen at `time` or later. */
  function Since(entries: seq<Entry>, time: int): nat {
    if entries == [] then 0 else (if entries[0].lastSeen >= time then 1 else 0) + Since(entries[1..], time)
  }

  lemma {:induction false} NoneSince(entries: seq<Entry>, time: int)
    requires forall i | 0 <= i < |entries| :: entries[i].lastSeen < time
    ensures Since(entries, time) == 0
  {
    if entries != [] {
      NoneSince(entries[1..], time);
    }
  }

  lemma {:induction false} SortedPlace(sorted: seq<Entry>, q: nat, time: int)
    requires Sorted(sorted) && q < |sorted|
    ensures Since(sorted, time) <= q <==> sorted[q].lastSeen < time
    ensures Since(sorted, time) <= |sorted|
  {
    if sorted[0].lastSeen < time {
      NoneSince(sorted, time);
    } else if q > 0 {
      SortedPlace(sorted[1..], q - 1, time);
    } else {
      SinceBound(sorted, time);
    }
  }

  lemma {:induction false} SinceBound(entries: seq<Entry>, time: int)
    ensures Since(entries, time) <= |entries|
  {
    if entries != [] {
      SinceBound(entries[1..], time);
    }
  }

  /** An entry is inserted right behind the newer ones. */
  lemma {:induction false} InsertPlaces(entry: Entry, sorted: seq<Entry>)
    requires Sorted(sorted)
    ensures var p := Since(sorted, entry.lastSeen + 1);
            p <= |sorted| && Insert(entry, sorted) == sorted[..p] + [entry] + sorted[p..]
  {
    if sorted != [] {
      if sorted[0].lastSeen > entry.lastSeen {
        InsertPlaces(entry, sorted[1..]);
      } else {
        NoneSince(sorted, entry.lastSeen + 1);
      }
    }
  }

  lemma InsertSorts(entry: Entry, sorted: seq<Entry>)
    requires Sorted(sorted)
    ensures Sorted(Insert(entry, sorted))
  {
    InsertPlaces(entry, sorted);
    var p := Since(sorted, entry.lastSeen + 1);
    forall i | 0 <= i < |sorted| ensures p <= i <==> sorted[i].lastSeen < entry.lastSeen + 1 {
      SortedPlace(sorted, i, entry.lastSeen + 1);
    }
  }

  lemma InsertHolds(entry: Entry, sorted: seq<Entry>)
    requires Sorted(sorted)
    ensures SameEntries(Insert(entry, sorted), [entry] + sorted)
    ensures NoRepeat([entry] + sorted) ==> NoRepeat(Insert(entry, sorted))
  {
    InsertPlaces(entry, sorted);
    var p := Since(sorted, entry.lastSeen + 1);
    MoveHolds(entry, sorted[..p], sorted[p..], sorted);
  }

  lemma MoveHolds(entry: Entry, a: seq<Entry>, b: seq<Entry>, whole: seq<Entry>)
    requires whole == a + b
    ensures SameEntries(a + [entry] + b, [entry] + whole)
    ensures NoRepeat([entry] + whole) ==> NoRepeat(a + [entry] + b)
  {
    var s, t := a + [entry] + b, [entry] + whole;
    forall i | 0 <= i < |s|
      ensures s[i] == t[if i < |a| then i + 1 else if i == |a| then 0 else i]
    {
    }
  }

  lemma {:induction false} SortHolds(table: seq<Entry>)
    ensures Sorted(NewestFirst(table)) && SameEntries(NewestFirst(table), table)
    ensures NoRepeat(table) ==> NoRepeat(NewestFirst(table))
  {
    if table != [] {
      SortHolds(table[1..]);
      var rest := NewestFirst(table[1..]);
      InsertSorts(table[0], rest);
      InsertHolds(table[0], rest);
      assert table == [table[0]] + table[1..];
      assert NoRepeat(table) ==> NoRepeat([table[0]] + rest) by {
        assert forall i | 0 <= i < |rest| :: rest[i] in table[1..];
      }
    }
  }

  lemma {:induction false} SortCounts(table: seq<Entry>, time: int)
    ensures Since(NewestFirst(table), time) == Since(table, time)
  {
    if table != [] {
      SortCounts(table[1..], time);
      InsertCounts(table[0], NewestFirst(table[1..]), time);
    }
  }

  lemma {:induction false} InsertCounts(entry: Entry, sorted: seq<Entry>, time: int)
    ensures Since(Insert(entry, sorted), time) == (if entry.lastSeen >= time then 1 else 0) + Since(sorted, time)
  {
    if sorted != [] && sorted[0].lastSeen > entry.lastSeen {
      InsertCounts(entry, sorted[1..], time);
    }
  }

  /** How many entries the trim prefers to the one at position `k`: the newer ones, and those seen at
      the same time that stand before it. */
  function Preferred(table: seq<Entry>, k: nat): nat
    requires k < |table|
  {
    Since(table[..k], table[k].lastSeen) + Since(table[k + 1..], table[k].lastSeen + 1)
  }

  /** Inserting an entry moves those no newer than it one place back. */
  lemma {:induction false} InsertMoves(entry: Entry, sorted: seq<Entry>, q: nat)
    requires Sorted(sorted) && q < |sorted|
    ensures var moved := q + if entry.lastSeen >= sorted[q].lastSeen then 1 else 0;
            moved < |Insert(entry, sorted)| && Insert(entry, sorted)[moved] == sorted[q]
  {
    InsertPlaces(entry, sorted);
    SortedPlace(sorted, q, entry.lastSeen + 1);
  }

  /** The stable sort puts an entry exactly behind the preferred ones. */
  lemma {:induction false} SortPlaces(table: seq<Entry>, k: nat)
    requires k < |table|
    ensures Preferred(table, k) < |NewestFirst(table)|
    ensures NewestFirst(table)[Preferred(table, k)] == table[k]
  {
    var rest := NewestFirst(table[1..]);
    SortHolds(table[1..]);
    if k == 0 {
      InsertPlaces(table[0], rest);
      SortCounts(table[1..], table[0].lastSeen + 1);
      assert Preferred(table, k) == Since(rest, table[0].lastSeen + 1);
    } else {
      SortPlaces(table[1..], k - 1);
      PreferredNext(table, k);
      InsertMoves(table[0], rest, Preferred(table[1..], k - 1));
    }
  }

  lemma PreferredNext(table: seq<Entry>, k: nat)
    requires 0 < k < |table|
    ensures Preferred(table, k) == Preferred(table[1..], k - 1) + if table[0].lastSeen >= table[k].lastSeen then 1 else 0
  {
    assert table[..k][1..] == table[1..][..k - 1];
    assert table[1..][k..] == table[k + 1..];
  }

  // ---- Trimming ----

  lemma {:induction false} WithoutHolds(table: seq<Entry>, gone: seq<Entry>)
    ensures forall e :: e in Without(table, gone) <==> e in table && e !in gone
    ensures NoRepeat(table) ==> NoRepeat(Without(table, gone))
  {
    if table != [] {
      WithoutHolds(table[1..], gone);
      var rest := Without(table[1..], gone);
      assert table == [table[0]] + table[1..];
      assert forall i | 0 <= i < |rest| :: rest[i] in table[1..];
    }
  }

  lemma {:induction false} WithoutDistinct(table: seq<Entry>, gone: seq<Entry>)
    requires Distinct(table)
    ensures Distinct(Without(table, gone))
  {
    if table != [] {
      WithoutDistinct(table[1..], gone);
      WithoutHolds(table[1..], gone);
      var rest := Without(table[1..], gone);
      assert forall i | 0 <= i < |rest| :: rest[i] in table[1..];
      assert forall e <- table[1..] :: e.id != table[0].id;
    }
  }

  lemma {:induction false} UpsertHolds(table: seq<Entry>, id: Host, now: int)
    requires Distinct(table)
    ensures Distinct(Upsert(table, id, now))
    ensures forall e :: e in Upsert(table, id, now) <==> e == Entry(id, now) || (e in table && e.id != id)
  {
    if table != [] {
      assert table == [table[0]] + table[1..];
      forall e | e in table[1..] ensures e.id != table[0].id {
        var i :| 0 <= i < |table[1..]| && table[1..][i] == e;
        assert table[i + 1] == e;
      }
      if table[0].id != id {
        UpsertHolds(table[1..], id, now);
        var t := Upsert(table[1..], id, now);
        assert forall i | 0 <= i < |t| :: t[i] in t;
      }
    }
  }

  /** A list without repetition is no longer than one that holds all its elements. */
  lemma {:induction false} Pigeonhole(a: seq<Entry>, b: seq<Entry>)
    requires NoRepeat(a) && forall e <- a :: e in b
    ensures |a| <= |b|
  {
    if a != [] {
      assert a[0] in a;
      var k :| 0 <= k < |b| && b[k] == a[0];
      var rest := b[..k] + b[k + 1..];
      forall e | e in a[1..] ensures e in rest {
        assert e in a && e in b;
        var i :| 0 <= i < |b| && b[i] == e;
        assert i != k;
        assert if i < k then rest[i] == e else rest[i - 1] == e;
      }
      Pigeonhole(a[1..], rest);
    }
  }

  lemma DistinctNoRepeat(table: seq<Entry>)
    requires Distinct(table)
    ensures NoRepeat(table)
  {
  }

  lemma StaleFromThere(table: seq<Entry>, k: nat)
    requires NoRepeat(table) && k < |NewestFirst(table)|
    ensures NewestFirst(table)[k] in Stale(table) <==> MAX_HOSTS <= k
  {
    SortHolds(table);
    StaleHalf(NewestFirst(table), Stale(table), k);
  }

  lemma StaleHalf(s: seq<Entry>, stale: seq<Entry>, k: nat)
    requires NoRepeat(s) && k < |s|
    requires stale == if |s| <= MAX_HOSTS then [] else s[MAX_HOSTS..]
    ensures s[k] in stale <==> MAX_HOSTS <= k
  {
    if MAX_HOSTS <= k {
      assert stale[k - MAX_HOSTS] == s[k];
    }
  }

  lemma SeenStaysSmall(table: seq<Entry>, host: Host, now: int)
    requires Distinct(table)
    ensures Distinct(Seen(table, host, now)) && |Seen(table, host, now)| <= 32
  {
    var t := Upsert(table, host, now);
    UpsertHolds(table, host, now);
    DistinctNoRepeat(t);
    SortHolds(t);
    WithoutDistinct(t, Stale(t));
    WithoutHolds(t, Stale(t));
    var s := NewestFirst(t);
    var kept := if |s| <= MAX_HOSTS then s else s[..MAX_HOSTS];
    assert s == kept + Stale(t);
    assert forall e <- Seen(table, host, now) :: e in s;
    Pigeonhole(Seen(table, host, now), kept);
  }

  /** Every host forgotten was last seen no later than every host kept, and nobody is forgotten while
      there is room. */
  lemma SeenKeepsTheNewest(table: seq<Entry>, host: Host, now: int, gone: Entry, kept: Entry)
    requires Distinct(table)
    requires gone in Upsert(table, host, now) && gone !in Seen(table, host, now) && kept in Seen(table, host, now)
    ensures gone.lastSeen <= kept.lastSeen && |Upsert(table, host, now)| > 32
  {
    var t := Upsert(table, host, now);
    UpsertHolds(table, host, now);
    DistinctNoRepeat(t);
    WithoutHolds(t, Stale(t));
    SortHolds(t);
    var s := NewestFirst(t);
    var i :| 0 <= i < |s| && s[i] == gone;
    var j :| 0 <= j < |s| && s[j] == kept;
    StaleFromThere(t, i);
    StaleFromThere(t, j);
  }

  /** A host survives the trim if and only if fewer than 32 entries are preferred to its own. So even
      the host just seen is forgotten when 32 hosts before it were seen in the same millisecond. */
  lemma SeenKeepsIfFewPreferred(table: seq<Entry>, host: Host, now: int, k: nat)
    requires Distinct(table) && k < |Upsert(table, host, now)|
    ensures var t := Upsert(table, host, now);
            t[k] in Seen(table, host, now) <==> Preferred(t, k) < 32
  {
    var t := Upsert(table, host, now);
    UpsertHolds(table, host, now);
    DistinctNoRepeat(t);
    SortHolds(t);
    WithoutHolds(t, Stale(t));
    SortPlaces(t, k);
    StaleFromThere(t, Preferred(t, k));
  }

  // ---- The crowded millisecond ----

  /** Distinct host names. */
  function Name(i: nat): Host {
    seq(i, _ => 'n')
  }

  /** The table after `count` new hosts were seen at the same time. */
  function Crowd(count: nat, now: int): seq<Entry> {
    if count == 0 then [] else Seen(Crowd(count - 1, now), Name(count - 1), now)
  }

  function Named(count: nat, now: int): seq<Entry> {
    seq(count, i requires 0 <= i < count => Entry(Name(i), now))
  }

  lemma NamesDiffer(i: nat, j: nat)
    requires i != j
    ensures Name(i) != Name(j)
  {
    assert |Name(i)| == i && |Name(j)| == j;
  }

  lemma {:induction false} UpsertNew(table: seq<Entry>, id: Host, now: int)
    requires forall i | 0 <= i < |table| :: table[i].id != id
    ensures Upsert(table, id, now) == table + [Entry(id, now)]
  {
    if table != [] {
      UpsertNew(table[1..], id, now);
    }
  }

  lemma {:induction false} WithoutNone(table: seq<Entry>)
    ensures Without(table, []) == table
  {
    if table != [] {
      WithoutNone(table[1..]);
    }
  }

  lemma {:induction false} NamedNext(count: nat, now: int)
    ensures Distinct(Named(count, now))
    ensures Upsert(Named(count, now), Name(count), now) == Named(count + 1, now)
  {
    var table := Named(count, now);
    forall i, j | 0 <= i < j < |table| ensures table[i].id != table[j].id {
      NamesDiffer(i, j);
    }
    forall i | 0 <= i < |table| ensures table[i].id != Name(count) {
      NamesDiffer(i, count);
    }
    UpsertNew(table, Name(count), now);
  }

  lemma {:induction false} NoneStale(table: seq<Entry>)
    requires |table| <= MAX_HOSTS
    ensures Stale(table) == []
  {
    SortHolds(table);
  }

  lemma {:induction false} CrowdFits(count: nat, now: int)
    requires count <= MAX_HOSTS
    ensures Crowd(count, now) == Named(count, now)
  {
    if count > 0 {
      var before := Crowd(count - 1, now);
      CrowdFits(count - 1, now);
      SeenNamed(before, Named(count, now), count - 1, now);
      assert Crowd(count, now) == Seen(before, Name(count - 1), now);
    }
  }

  /** A host that still fits joins the crowd at its end. */
  lemma SeenNamed(table: seq<Entry>, after: seq<Entry>, count: nat, now: int)
    requires count < MAX_HOSTS && table == Named(count, now) && after == Named(count + 1, now)
    ensures Seen(table, Name(count), now) == after
  {
    NamedNext(count, now);
    NoneStale(after);
    WithoutNone(after);
  }

  lemma {:induction false} AllSince(entries: seq<Entry>, time: int)
    requires forall i | 0 <= i < |entries| :: entries[i].lastSeen >= time
    ensures Since(entries, time) == |entries|
  {
    if entries != [] {
      AllSince(entries[1..], time);
    }
  }

  /** Of 33 new hosts seen in one millisecond it is the last, the one just seen, that is forgotten. */
  lemma JustSeenIsForgotten(now: int)
    ensures forall e <- Crowd(MAX_HOSTS + 1, now) :: e.id != Name(MAX_HOSTS)
  {
    var before, touched := Crowd(MAX_HOSTS, now), Named(MAX_HOSTS + 1, now);
    CrowdFits(MAX_HOSTS, now);
    NamedNext(MAX_HOSTS, now);
    NamedNext(MAX_HOSTS + 1, now);
    AllSince(touched[..MAX_HOSTS], now);
    SeenKeepsIfFewPreferred(before, Name(MAX_HOSTS), now, MAX_HOSTS);
    WithoutHolds(touched, Stale(touched));
    forall e | e in Crowd(MAX_HOSTS + 1, now) ensures e.id != Name(MAX_HOSTS) {
      var i :| 0 <= i < |touched| && touched[i] == e;
      if i != MAX_HOSTS {
        NamesDiffer(i, MAX_HOSTS);
      }
    }
  }
}
