/** The walk that admits JSON values into the protocol: one node budget shared by the whole value and
    spent as the walk goes, stopping at the first violation. */
module JsonBudget {
  const MAX_NODES: nat := 20_000
  const MAX_DEPTH: nat := 32
  const MAX_ENTRIES: nat := 10_000
  const MAX_KEY_BYTES: nat := 1024

  datatype Entry = Entry(keyBytes: nat, value: Json)

  /** `Other` is whatever is not JSON: undefined, a function, an object that is not plain. */
  datatype Json =
    | Null
    | Bool(b: bool)
    | Text(bytes: nat)
    | Number(finite: bool)
    | Array(items: seq<Json>)
    | Object(entries: seq<Entry>)
    | Other

  function Arity(v: Json): nat {
    match v
    case Array(items) => |items|
    case Object(entries) => |entries|
    case _ => 0
  }

  function Child(v: Json, i: nat): Json
    requires i < Arity(v)
  {
    if v.Array? then v.items[i] else v.entries[i].value
  }

  // ---- What an admissible value is ----

  /** The number of nodes of a value, the value itself included. */
  function Count(v: Json): nat
    decreases v, Arity(v) + 1
  {
    1 + CountFirst(v, Arity(v))
  }

  /** The number of nodes in the first `k` children. */
  function CountFirst(v: Json, k: nat): nat
    requires k <= Arity(v)
    decreases v, k
  {
    if k == 0 then 0 else CountFirst(v, k - 1) + Count(Child(v, k - 1))
  }

  predicate NestsWithin(v: Json, levels: int) {
    0 <= levels && forall i | 0 <= i < Arity(v) :: NestsWithin(Child(v, i), levels - 1)
  }

  predicate WellFormed(v: Json) {
    && !v.Other?
    && (v.Number? ==> v.finite)
    && Arity(v) <= MAX_ENTRIES
    && (v.Object? ==> forall i | 0 <= i < |v.entries| :: v.entries[i].keyBytes <= MAX_KEY_BYTES)
    && forall i | 0 <= i < Arity(v) :: WellFormed(Child(v, i))
  }

  // ---- The walk ----

  class Budget {
    var nodes: nat

    constructor ()
      ensures nodes == 0
    {
      nodes := 0;
    }
  }

  lemma {:induction false} CountGrows(v: Json, j: nat, k: nat)
    requires j <= k <= Arity(v)
    ensures CountFirst(v, j) <= CountFirst(v, k)
    decreases k
  {
    if j < k {
      CountGrows(v, j, k - 1);
    }
  }

  /** The pure specification: the value at this depth, met with this many nodes already spent. */
  ghost predicate Admits(v: Json, depth: nat, spent: nat) {
    WellFormed(v) && NestsWithin(v, MAX_DEPTH - depth) && spent + Count(v) <= MAX_NODES
  }

  predicate KeysFit(v: Json, k: nat) {
    v.Object? ==> forall i | 0 <= i < k && i < |v.entries| :: v.entries[i].keyBytes <= MAX_KEY_BYTES
  }

  ghost predicate ChildrenAdmitted(v: Json, k: nat, depth: nat)
    requires k <= Arity(v)
  {
    KeysFit(v, k) && forall i | 0 <= i < k :: WellFormed(Child(v, i)) && NestsWithin(Child(v, i), MAX_DEPTH - depth - 1)
  }

  lemma {:induction false} ChildDecides(v: Json, i: nat, depth: nat, spent: nat)
    requires i < Arity(v) && !Admits(Child(v, i), depth + 1, spent + 1 + CountFirst(v, i))
    ensures !Admits(v, depth, spent)
  {
    PartsOf(v, MAX_DEPTH - depth, MAX_DEPTH - (depth + 1), i, Child(v, i));
    CountSplits(v, i);
  }

  lemma {:induction false} PartsOf(v: Json, levels: int, fewer: int, i: nat, child: Json)
    requires i < Arity(v) && child == Child(v, i) && fewer == levels - 1
    ensures WellFormed(v) ==> WellFormed(child)
    ensures NestsWithin(v, levels) ==> NestsWithin(child, fewer)
  {
  }

  lemma {:induction false} CountSplits(v: Json, i: nat)
    requires i < Arity(v)
    ensures Count(v) >= 1 + CountFirst(v, i) + Count(Child(v, i))
  {
    CountIs(v);
    CountNext(v, i);
    CountGrows(v, i + 1, Arity(v));
  }

  lemma {:induction false} CountIs(v: Json)
    ensures Count(v) == 1 + CountFirst(v, Arity(v))
  {
  }

  lemma {:induction false} CountNext(v: Json, i: nat)
    requires i < Arity(v)
    ensures CountFirst(v, i + 1) == CountFirst(v, i) + Count(Child(v, i))
  {
  }

  lemma {:induction false} AllAdmitted(v: Json, depth: nat, spent: nat)
    requires depth <= MAX_DEPTH && spent + 1 + CountFirst(v, Arity(v)) <= MAX_NODES
    requires Arity(v) <= MAX_ENTRIES && !v.Other? && !v.Number?
    requires ChildrenAdmitted(v, Arity(v), depth)
    ensures Admits(v, depth, spent) && Count(v) == 1 + CountFirst(v, Arity(v))
  {
    assert Count(v) == 1 + CountFirst(v, Arity(v));
  }

  lemma {:induction false} NumberDecides(v: Json, depth: nat, spent: nat)
    requires v.Number? && depth <= MAX_DEPTH && spent < MAX_NODES
    ensures Admits(v, depth, spent) <==> v.finite
    ensures Count(v) == 1
  {
  }

  /** The walk accepts exactly the well-formed values that nest no deeper than allowed and whose nodes
      all fit the budget. Accepting spends exactly the value's nodes; even a refusal never visits more
      than one node beyond the budget. */
  method ValidJsonValue(v: Json, depth: nat, budget: Budget) returns (ok: bool)
    modifies budget
    ensures ok <==> Admits(v, depth, old(budget.nodes))
    ensures ok ==> budget.nodes == old(budget.nodes) + Count(v)
    ensures old(budget.nodes) < budget.nodes <= if old(budget.nodes) <= MAX_NODES then MAX_NODES + 1 else old(budget.nodes) + 1
    decreases v
  {
    ghost var spent := budget.nodes;
    CountIs(v);
    budget.nodes := budget.nodes + 1;
    if budget.nodes > MAX_NODES || depth > MAX_DEPTH {
      return false;
    }
    if v.Null? || v.Text? || v.Bool? {
      AllAdmitted(v, depth, spent);
      return true;
    }
    if v.Number? {
      NumberDecides(v, depth, spent);
      return v.finite;
    }
    if v.Other? || Arity(v) > MAX_ENTRIES {
      return false;
    }
    for i := 0 to Arity(v)
      invariant budget.nodes == spent + 1 + CountFirst(v, i) <= MAX_NODES
      invariant ChildrenAdmitted(v, i, depth)
    {
      if v.Object? && v.entries[i].keyBytes > MAX_KEY_BYTES {
        return false;
      }
      CountNext(v, i);
      var fits := ValidJsonValue(Child(v, i), depth + 1, budget);
      if !fits {
        ChildDecides(v, i, depth, spent);
        return false;
      }
    }
    AllAdmitted(v, depth, spent);
    return true;
  }

  // ---- What the limits mean for every part of a value ----

  /** A path of child positions from a value down to one of its parts. */
  predicate Reaches(v: Json, path: seq<nat>)
    decreases |path|
  {
    path == [] || (path[0] < Arity(v) && Reaches(Child(v, path[0]), path[1..]))
  }

  function Part(v: Json, path: seq<nat>): Json
    requires Reaches(v, path)
    decreases |path|
  {
    if path == [] then v else Part(Child(v, path[0]), path[1..])
  }

  /** What one part of an admitted value must be by itself. */
  predicate Limited(part: Json) {
    && !part.Other? && (part.Number? ==> part.finite) && Arity(part) <= 10_000
    && (part.Object? ==> forall i | 0 <= i < |part.entries| :: part.entries[i].keyBytes <= 1024)
  }

  /** The recursive limits say what the walk promises of each part, however deep it sits: it is no
      foreign value or unbounded number, its own entries and keys are limited, and at most `levels`
      steps lead to it. */
  lemma {:induction false} EveryPartIsLimited(v: Json, levels: int, path: seq<nat>)
    requires WellFormed(v) && NestsWithin(v, levels) && Reaches(v, path)
    ensures |path| <= levels && Limited(Part(v, path)) && Count(Part(v, path)) + |path| <= Count(v)
    decreases |path|
  {
    if path != [] {
      EveryPartIsLimited(Child(v, path[0]), levels - 1, path[1..]);
      CountGrows(v, path[0] + 1, Arity(v));
    }
  }

  ghost predicate PartsLimited(v: Json, levels: int) {
    forall path: seq<nat> | Reaches(v, path) :: |path| <= levels && Limited(Part(v, path))
  }

  lemma PartsOfChild(v: Json, levels: int, i: nat)
    requires PartsLimited(v, levels) && i < Arity(v)
    ensures PartsLimited(Child(v, i), levels - 1)
  {
    forall path: seq<nat> | Reaches(Child(v, i), path) ensures |path| <= levels - 1 && Limited(Part(Child(v, i), path)) {
      var longer := [i] + path;
      assert longer[0] == i && longer[1..] == path;
      assert Reaches(v, longer) && Part(v, longer) == Part(Child(v, i), path);
    }
  }

  lemma {:induction false} LimitedPartsSuffice(v: Json, levels: int)
    requires PartsLimited(v, levels)
    ensures WellFormed(v) && NestsWithin(v, levels)
    decreases v
  {
    assert Reaches(v, []) && Part(v, []) == v;
    forall i | 0 <= i < Arity(v) ensures WellFormed(Child(v, i)) && NestsWithin(Child(v, i), levels - 1) {
      PartsOfChild(v, levels, i);
      LimitedPartsSuffice(Child(v, i), levels - 1);
    }
  }

  /** A value is admitted if and only if it has at most 20000 nodes, no part of it lies deeper than 32
      levels, and every part is a JSON value, finite if a number, of at most 10000 entries with keys of at
      most 1024 bytes. */
  lemma AdmittedExactly(v: Json)
    ensures Admits(v, 0, 0) <==> Count(v) <= 20_000 && forall path: seq<nat> | Reaches(v, path) :: |path| <= 32 && Limited(Part(v, path))
  {
    if Admits(v, 0, 0) {
      forall path: seq<nat> | Reaches(v, path) ensures |path| <= 32 && Limited(Part(v, path)) {
        EveryPartIsLimited(v, 32, path);
      }
    }
    if PartsLimited(v, 32) {
      LimitedPartsSuffice(v, 32);
    }
  }
}
