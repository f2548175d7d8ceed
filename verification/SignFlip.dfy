/** The campaign's significance test: an exact one-sided sign-flip test on paired score differences,
    computed by running through all bit masks. Arithmetic is exact; `epsilon` is the tolerance. */
module SignFlip {
  import opened Wrappers

  const MAX_PAIRS: nat := 20

  // ---- What the test is meant to compute ----

  function Total(deltas: seq<real>): real {
    if deltas == [] then 0.0 else deltas[0] + Total(deltas[1..])
  }

  function Mean(deltas: seq<real>): real
    requires deltas != []
  {
    Total(deltas) / |deltas| as real
  }

  /** A sign assignment: `true` keeps a difference, `false` negates it. */
  type Signs = seq<bool>

  function Signed(deltas: seq<real>, signs: Signs): real
    requires |signs| == |deltas|
  {
    if deltas == [] then 0.0 else (if signs[0] then deltas[0] else -deltas[0]) + Signed(deltas[1..], signs[1..])
  }

  function Flip(deltas: seq<real>, signs: Signs): seq<real>
    requires |signs| == |deltas|
  {
    if deltas == [] then [] else [if signs[0] then deltas[0] else -deltas[0]] + Flip(deltas[1..], signs[1..])
  }

  ghost function Prefixed(sign: bool, signs: set<Signs>): set<Signs> {
    set v <- signs :: [sign] + v
  }

  lemma PrefixedIs(sign: bool, signs: set<Signs>, v: Signs)
    ensures v in Prefixed(sign, signs) <==> v != [] && v[0] == sign && v[1..] in signs
  {
    if v != [] && v[0] == sign {
      assert v == [sign] + v[1..];
    }
  }

  ghost function AllSigns(n: nat): set<Signs> {
    if n == 0 then {[]} else Prefixed(false, AllSigns(n - 1)) + Prefixed(true, AllSigns(n - 1))
  }

  /** The assignment's mean reaches the observed one, up to the tolerance. */
  predicate Extreme(deltas: seq<real>, signs: Signs, epsilon: real)
    requires |signs| == |deltas| > 0
  {
    Signed(deltas, signs) / |deltas| as real >= Mean(deltas) - epsilon
  }

  ghost function ExtremeSigns(deltas: seq<real>, epsilon: real): set<Signs>
    requires deltas != []
  {
    set v <- AllSigns(|deltas|) | |v| == |deltas| && Extreme(deltas, v, epsilon)
  }

  ghost function PValue(deltas: seq<real>, epsilon: real): Option<real> {
    if deltas == [] || |deltas| > MAX_PAIRS then None
    else Some(Share(|ExtremeSigns(deltas, epsilon)|, Pow2(|deltas|)))
  }

  function Pow2(n: nat): (p: nat)
    ensures p >= 1
  {
    if n == 0 then 1 else 2 * Pow2(n - 1)
  }

  function Share(count: nat, all: nat): real
    requires all > 0
  {
    count as real / all as real
  }

  lemma {:induction false} AllSignsIs(n: nat, v: Signs)
    ensures v in AllSigns(n) <==> |v| == n
  {
    if n > 0 {
      PrefixedIs(false, AllSigns(n - 1), v);
      PrefixedIs(true, AllSigns(n - 1), v);
      if v != [] {
        AllSignsIs(n - 1, v[1..]);
      }
    }
  }

  // ---- The mask loop ----

  function Bit(mask: nat, index: nat): bool {
    if index == 0 then mask % 2 == 1 else Bit(mask / 2, index - 1)
  }

  /** The assignment a mask stands for: bit `i` keeps the difference at position `i`. */
  function MaskSigns(mask: nat, n: nat): Signs {
    if n == 0 then [] else [mask % 2 == 1] + MaskSigns(mask / 2, n - 1)
  }

  lemma {:induction false} MaskSignsBits(mask: nat, n: nat, i: nat)
    requires i < n
    ensures |MaskSigns(mask, n)| == n && MaskSigns(mask, n)[i] == Bit(mask, i)
  {
    if i == 0 {
      MaskSignsLength(mask, n);
    } else {
      MaskSignsBits(mask / 2, n - 1, i - 1);
    }
  }

  lemma {:induction false} MaskSignsLength(mask: nat, n: nat)
    ensures |MaskSigns(mask, n)| == n
  {
    if n > 0 {
      MaskSignsLength(mask / 2, n - 1);
    }
  }

  lemma {:induction false} MaskSignsDiffer(a: nat, b: nat, n: nat)
    requires a < Pow2(n) && b < Pow2(n) && MaskSigns(a, n) == MaskSigns(b, n)
    ensures a == b
  {
    if n > 0 {
      var s, t := MaskSigns(a, n), MaskSigns(b, n);
      assert s[0] == t[0] && s[1..] == MaskSigns(a / 2, n - 1) && t[1..] == MaskSigns(b / 2, n - 1);
      MaskSignsDiffer(a / 2, b / 2, n - 1);
    }
  }

  lemma {:induction false} MaskOf(v: Signs) returns (mask: nat)
    ensures mask < Pow2(|v|) && MaskSigns(mask, |v|) == v
  {
    if v == [] {
      mask := 0;
    } else {
      var half := MaskOf(v[1..]);
      mask := 2 * half + if v[0] then 1 else 0;
      assert v == [v[0]] + v[1..];
    }
  }

  ghost function ExtremeMasks(deltas: seq<real>, epsilon: real, limit: nat): set<nat>
    requires deltas != []
  {
    set m | 0 <= m < limit && |MaskSigns(m, |deltas|)| == |deltas| && Extreme(deltas, MaskSigns(m, |deltas|), epsilon)
  }

  lemma {:induction false} SameSize(masks: set<nat>, n: nat, signs: set<Signs>)
    requires forall m <- masks :: m < Pow2(n)
    requires forall v :: v in signs <==> exists m :: m in masks && MaskSigns(m, n) == v
    ensures |masks| == |signs|
    decreases |masks|
  {
    if m :| m in masks {
      var v := MaskSigns(m, n);
      forall u ensures u in signs - {v} <==> exists k :: k in masks - {m} && MaskSigns(k, n) == u {
        if u in signs - {v} {
          var k :| k in masks && MaskSigns(k, n) == u;
          assert k in masks - {m};
        }
        if k :| k in masks - {m} && MaskSigns(k, n) == u {
          if u == v {
            MaskSignsDiffer(k, m, n);
          }
        }
      }
      assert v in signs;
      SameSize(masks - {m}, n, signs - {v});
    } else {
      assert signs == {};
    }
  }

  /** The masks below 2^n stand for every assignment exactly once. */
  lemma MasksCoverSigns(deltas: seq<real>, epsilon: real)
    requires deltas != []
    ensures |ExtremeMasks(deltas, epsilon, Pow2(|deltas|))| == |ExtremeSigns(deltas, epsilon)|
  {
    var n := |deltas|;
    var masks, signs := ExtremeMasks(deltas, epsilon, Pow2(n)), ExtremeSigns(deltas, epsilon);
    forall v ensures v in signs <==> exists m :: m in masks && MaskSigns(m, n) == v {
      AllSignsIs(n, v);
      if v in signs {
        var m := MaskOf(v);
        assert m in masks;
      }
    }
    SameSize(masks, n, signs);
  }

  lemma {:induction false} SignedNext(deltas: seq<real>, signs: Signs, k: nat)
    requires |signs| == |deltas| && k < |deltas|
    ensures Signed(deltas[..k + 1], signs[..k + 1]) == Signed(deltas[..k], signs[..k]) + if signs[k] then deltas[k] else -deltas[k]
    decreases k
  {
    if k == 0 {
      assert deltas[..1] == [deltas[0]] && signs[..1] == [signs[0]];
    } else {
      assert deltas[..k + 1][1..] == deltas[1..][..k] && signs[..k + 1][1..] == signs[1..][..k];
      assert deltas[..k][1..] == deltas[1..][..k - 1] && signs[..k][1..] == signs[1..][..k - 1];
      SignedNext(deltas[1..], signs[1..], k - 1);
    }
  }

  lemma {:induction false} TotalNext(deltas: seq<real>, k: nat)
    requires k < |deltas|
    ensures Total(deltas[..k + 1]) == Total(deltas[..k]) + deltas[k]
    decreases k
  {
    if k == 0 {
      assert deltas[..1] == [deltas[0]];
    } else {
      assert deltas[..k + 1][1..] == deltas[1..][..k] && deltas[..k][1..] == deltas[1..][..k - 1];
      TotalNext(deltas[1..], k - 1);
    }
  }

  method MeanOf(values: seq<real>) returns (mean: Option<real>)
    ensures mean == if values == [] then None else Some(Mean(values))
  {
    var sum := 0.0;
    for i := 0 to |values|
      invariant sum == Total(values[..i])
    {
      TotalNext(values, i);
      sum := sum + values[i];
    }
    assert values[..|values|] == values;
    return if |values| > 0 then Some(sum / |values| as real) else None;
  }

  method SignedSum(deltas: seq<real>, mask: nat) returns (sum: real)
    ensures |MaskSigns(mask, |deltas|)| == |deltas|
    ensures sum == Signed(deltas, MaskSigns(mask, |deltas|))
  {
    MaskSignsLength(mask, |deltas|);
    ghost var signs := MaskSigns(mask, |deltas|);
    sum := 0.0;
    for index := 0 to |deltas|
      invariant sum == Signed(deltas[..index], signs[..index])
    {
      MaskSignsBits(mask, |deltas|, index);
      SignedNext(deltas, signs, index);
      sum := sum + deltas[index] * (if !Bit(mask, index) then -1.0 else 1.0);
    }
    assert deltas[..|deltas|] == deltas && signs[..|deltas|] == signs;
  }

  /** The mask loop computes the share of all sign assignments that are at least as extreme. */
  method ExactOneSidedPairedPValue(deltas: seq<real>, epsilon: real) returns (p: Option<real>)
    ensures p == PValue(deltas, epsilon)
  {
    if |deltas| == 0 || |deltas| > MAX_PAIRS {
      return None;
    }
    var observed := MeanOf(deltas);
    var atLeastObserved: nat := 0;
    var permutations := Pow2(|deltas|);
    var mask := 0;
    assert ExtremeMasks(deltas, epsilon, 0) == {};
    while mask < permutations
      invariant 0 <= mask <= permutations
      invariant atLeastObserved == |ExtremeMasks(deltas, epsilon, mask)|
    {
      var sum := SignedSum(deltas, mask);
      ghost var before := ExtremeMasks(deltas, epsilon, mask);
      ghost var after := ExtremeMasks(deltas, epsilon, mask + 1);
      if sum / |deltas| as real >= observed.value - epsilon {
        assert after == before + {mask};
        atLeastObserved := atLeastObserved + 1;
      } else {
        assert after == before;
      }
      mask := mask + 1;
    }
    MasksCoverSigns(deltas, epsilon);
    return Some(Share(atLeastObserved, permutations));
  }

  // ---- Counting by halves ----

  /** How many assignments of the remaining differences lift a partial sum to the bar. */
  function Reaching(deltas: seq<real>, sum: real, bar: real): nat {
    if deltas == [] then if sum >= bar then 1 else 0
    else Reaching(deltas[1..], sum - deltas[0], bar) + Reaching(deltas[1..], sum + deltas[0], bar)
  }

  ghost function Lifting(deltas: seq<real>, sum: real, bar: real): set<Signs> {
    set v <- AllSigns(|deltas|) | |v| == |deltas| && sum + Signed(deltas, v) >= bar
  }

  lemma {:induction false} LiftingSize(deltas: seq<real>, sum: real, bar: real)
    ensures |Lifting(deltas, sum, bar)| == Reaching(deltas, sum, bar)
  {
    if deltas == [] {
      assert Lifting(deltas, sum, bar) == if sum >= bar then {[]} else {};
    } else {
      LiftingSize(deltas[1..], sum - deltas[0], bar);
      LiftingSize(deltas[1..], sum + deltas[0], bar);
      LiftingHalves(deltas, sum, bar);
    }
  }

  lemma {:induction false} LiftingHalves(deltas: seq<real>, sum: real, bar: real)
    requires deltas != []
    ensures |Lifting(deltas, sum, bar)| == |Lifting(deltas[1..], sum - deltas[0], bar)| + |Lifting(deltas[1..], sum + deltas[0], bar)|
  {
    var minus, plus := Lifting(deltas[1..], sum - deltas[0], bar), Lifting(deltas[1..], sum + deltas[0], bar);
    PrefixedSize(false, minus);
    PrefixedSize(true, plus);
    LiftingSplits(deltas, sum, bar, Prefixed(false, minus), Prefixed(true, plus));
    DisjointHalves(Lifting(deltas, sum, bar), minus, plus);
  }

  lemma DisjointHalves(all: set<Signs>, minus: set<Signs>, plus: set<Signs>)
    requires forall v :: v in all <==> v in Prefixed(false, minus) || v in Prefixed(true, plus)
    ensures |all| == |Prefixed(false, minus)| + |Prefixed(true, plus)|
  {
    forall v ensures !(v in Prefixed(false, minus) && v in Prefixed(true, plus)) {
      PrefixedIs(false, minus, v);
      PrefixedIs(true, plus, v);
    }
    assert Prefixed(false, minus) !! Prefixed(true, plus);
    assert all == Prefixed(false, minus) + Prefixed(true, plus);
  }

  lemma {:induction false} LiftingSplits(deltas: seq<real>, sum: real, bar: real, withMinus: set<Signs>, withPlus: set<Signs>)
    requires deltas != []
    requires withMinus == Prefixed(false, Lifting(deltas[1..], sum - deltas[0], bar))
    requires withPlus == Prefixed(true, Lifting(deltas[1..], sum + deltas[0], bar))
    ensures forall v :: v in Lifting(deltas, sum, bar) <==> v in withMinus || v in withPlus
  {
    forall v ensures v in Lifting(deltas, sum, bar) <==> v in withMinus || v in withPlus {
      AllSignsIs(|deltas|, v);
      PrefixedIs(false, Lifting(deltas[1..], sum - deltas[0], bar), v);
      PrefixedIs(true, Lifting(deltas[1..], sum + deltas[0], bar), v);
      if v != [] {
        AllSignsIs(|deltas| - 1, v[1..]);
      }
    }
  }

  lemma {:induction false} PrefixedSize(sign: bool, signs: set<Signs>)
    ensures |Prefixed(sign, signs)| == |signs|
    decreases |signs|
  {
    if v :| v in signs {
      PrefixedSize(sign, signs - {v});
      assert forall u <- signs - {v} :: ([sign] + u)[1..] == u;
      assert ([sign] + v)[1..] == v;
      assert Prefixed(sign, signs) == Prefixed(sign, signs - {v}) + {[sign] + v};
    }
  }

  /** The bar for the sum that says the same as the source's comparison of means. */
  function Bar(deltas: seq<real>, epsilon: real): real {
    Total(deltas) - Tolerance(epsilon, |deltas|)
  }

  /** `n` times epsilon. */
  function Tolerance(epsilon: real, n: nat): real {
    if n == 0 then 0.0 else epsilon + Tolerance(epsilon, n - 1)
  }

  lemma {:induction false} ToleranceIs(epsilon: real, n: nat)
    ensures Tolerance(epsilon, n) == epsilon * n as real
    ensures epsilon >= 0.0 ==> Tolerance(epsilon, n) >= 0.0
    ensures epsilon == 0.0 ==> Tolerance(epsilon, n) == 0.0
  {
    if n > 0 {
      ToleranceIs(epsilon, n - 1);
      assert epsilon * n as real == epsilon * (n - 1) as real + epsilon;
    }
  }

  lemma MeansCompare(sum: real, total: real, epsilon: real, n: real)
    requires n > 0.0
    ensures sum / n >= total / n - epsilon <==> sum >= total - epsilon * n
  {
    assert (sum / n) * n == sum && (total / n) * n == total;
    assert (total / n - epsilon) * n == total - epsilon * n;
    Scale(sum / n, total / n - epsilon, n);
  }

  lemma Scale(a: real, b: real, n: real)
    requires n > 0.0
    ensures a >= b <==> a * n >= b * n
  {
    if a >= b {
      assert (a - b) * n >= 0.0;
    } else {
      assert (b - a) * n > 0.0;
    }
  }

  lemma ExtremeCount(deltas: seq<real>, epsilon: real)
    requires deltas != []
    ensures |ExtremeSigns(deltas, epsilon)| == Reaching(deltas, 0.0, Bar(deltas, epsilon))
  {
    forall v | |v| == |deltas| ensures Extreme(deltas, v, epsilon) <==> 0.0 + Signed(deltas, v) >= Bar(deltas, epsilon) {
      ToleranceIs(epsilon, |deltas|);
      MeansCompare(Signed(deltas, v), Total(deltas), epsilon, |deltas| as real);
    }
    assert ExtremeSigns(deltas, epsilon) == Lifting(deltas, 0.0, Bar(deltas, epsilon));
    LiftingSize(deltas, 0.0, Bar(deltas, epsilon));
  }

  lemma {:induction false} PValueIs(deltas: seq<real>, epsilon: real)
    requires 1 <= |deltas| <= MAX_PAIRS
    ensures PValue(deltas, epsilon) == Some(Share(Reaching(deltas, 0.0, Bar(deltas, epsilon)), Pow2(|deltas|)))
  {
    ExtremeCount(deltas, epsilon);
  }

  // ---- Range ----

  lemma {:induction false} ReachingBounds(deltas: seq<real>, sum: real, bar: real)
    ensures Reaching(deltas, sum, bar) <= Pow2(|deltas|)
    ensures sum + Total(deltas) >= bar ==> 1 <= Reaching(deltas, sum, bar)
  {
    if deltas != [] {
      ReachingBounds(deltas[1..], sum - deltas[0], bar);
      ReachingBounds(deltas[1..], sum + deltas[0], bar);
    }
  }

  lemma {:induction false} OnlyAllPlusReaches(deltas: seq<real>, sum: real, bar: real)
    requires forall d <- deltas :: d > 0.0
    ensures sum + Total(deltas) == bar ==> Reaching(deltas, sum, bar) == 1
    ensures sum + Total(deltas) < bar ==> Reaching(deltas, sum, bar) == 0
  {
    if deltas != [] {
      assert deltas[0] in deltas && forall d <- deltas[1..] :: d in deltas;
      OnlyAllPlusReaches(deltas[1..], sum - deltas[0], bar);
      OnlyAllPlusReaches(deltas[1..], sum + deltas[0], bar);
    }
  }

  /** A p-value exists exactly for 1 to 20 pairs and lies in [2^-n, 1]; it is as small as it can be
      when every difference is positive and there is no tolerance. */
  lemma {:induction false} PValueRange(deltas: seq<real>, epsilon: real)
    requires epsilon >= 0.0
    ensures PValue(deltas, epsilon).Some? <==> 1 <= |deltas| <= 20
    ensures PValue(deltas, epsilon).Some? ==>
              var least := Share(1, Pow2(|deltas|));
              && least <= PValue(deltas, epsilon).value <= 1.0
              && (epsilon == 0.0 && (forall d <- deltas :: d > 0.0) ==> PValue(deltas, epsilon).value == least)
  {
    if 1 <= |deltas| <= MAX_PAIRS {
      PValueIs(deltas, epsilon);
      var bar := Bar(deltas, epsilon);
      BarBelowTotal(deltas, epsilon);
      ReachingBounds(deltas, 0.0, bar);
      ShareBounds(Reaching(deltas, 0.0, bar), Pow2(|deltas|));
      if epsilon == 0.0 && forall d <- deltas :: d > 0.0 {
        OnlyAllPlusReaches(deltas, 0.0, bar);
      }
    }
  }

  lemma {:induction false} BarBelowTotal(deltas: seq<real>, epsilon: real)
    requires epsilon >= 0.0
    ensures Bar(deltas, epsilon) <= Total(deltas)
    ensures epsilon == 0.0 ==> Bar(deltas, epsilon) == Total(deltas)
  {
    ToleranceIs(epsilon, |deltas|);
  }

  lemma ShareBounds(count: nat, n: nat)
    requires 1 <= count <= n
    ensures Share(1, n) <= Share(count, n) <= 1.0
  {
    Scale(Share(count, n), Share(1, n), n as real);
    Scale(1.0, Share(count, n), n as real);
  }

  // ---- Order does not matter ----

  lemma {:induction false} ReachingMoves(before: seq<real>, d: real, after: seq<real>, sum: real, bar: real)
    ensures Reaching(before + [d] + after, sum, bar) == Reaching([d] + before + after, sum, bar)
    decreases |before|
  {
    if before == [] {
      assert before + [d] + after == [d] + before + after;
    } else {
      var b, rest := before[0], before[1..];
      assert (before + [d] + after)[1..] == rest + [d] + after;
      ReachingMoves(rest, d, after, sum - b, bar);
      ReachingMoves(rest, d, after, sum + b, bar);
      assert [d] + rest + after == [d] + (rest + after);
      assert [d] + before + after == [d, b] + (rest + after);
      ReachingSwaps(d, b, rest + after, sum, bar);
    }
  }

  lemma {:induction false} ReachingSwaps(d: real, b: real, rest: seq<real>, sum: real, bar: real)
    ensures Reaching([d, b] + rest, sum, bar) == Reaching([d] + rest, sum - b, bar) + Reaching([d] + rest, sum + b, bar)
  {
    assert [d, b] + rest == [d] + ([b] + rest);
    ReachingFront(d, [b] + rest, sum, bar);
    ReachingFront(b, rest, sum - d, bar);
    ReachingFront(b, rest, sum + d, bar);
    ReachingFront(d, rest, sum - b, bar);
    ReachingFront(d, rest, sum + b, bar);
    assert sum - b - d == sum - d - b && sum - b + d == sum + d - b;
    assert sum + b - d == sum - d + b && sum + b + d == sum + d + b;
  }

  lemma {:induction false} ReachingFront(d: real, rest: seq<real>, sum: real, bar: real)
    ensures Reaching([d] + rest, sum, bar) == Reaching(rest, sum - d, bar) + Reaching(rest, sum + d, bar)
  {
    assert ([d] + rest)[1..] == rest;
  }

  lemma {:induction false} TotalConcat(a: seq<real>, b: seq<real>)
    ensures Total(a + b) == Total(a) + Total(b)
  {
    if a == [] {
      assert a + b == b;
    } else {
      assert (a + b)[1..] == a[1..] + b;
      TotalConcat(a[1..], b);
    }
  }

  lemma {:induction false} ReachingTakes(before: seq<real>, d: real, after: seq<real>, sum: real, bar: real)
    ensures Reaching(before + [d] + after, sum, bar) == Reaching(before + after, sum - d, bar) + Reaching(before + after, sum + d, bar)
  {
    ReachingMoves(before, d, after, sum, bar);
    assert [d] + before + after == [d] + (before + after);
    ReachingFront(d, before + after, sum, bar);
  }

  lemma {:induction false} ReachingPermutes(a: seq<real>, b: seq<real>, sum: real, bar: real)
    requires multiset(a) == multiset(b)
    ensures Reaching(a, sum, bar) == Reaching(b, sum, bar)
  {
    if a == [] {
      assert |multiset(b)| == 0;
    } else {
      var d, before, after := FirstIn(a, b);
      ReachingPermutes(a[1..], before + after, sum - d, bar);
      ReachingPermutes(a[1..], before + after, sum + d, bar);
      ReachingTakes(before, d, after, sum, bar);
    }
  }

  lemma {:induction false} TotalPermutes(a: seq<real>, b: seq<real>)
    requires multiset(a) == multiset(b)
    ensures Total(a) == Total(b) && |a| == |b|
  {
    if a == [] {
      assert |multiset(b)| == 0;
    } else {
      var d, before, after := FirstIn(a, b);
      TotalPermutes(a[1..], before + after);
      TotalConcat(before, after);
      TotalConcat(before + [d], after);
      TotalConcat(before, [d]);
    }
  }

  lemma FirstIn(a: seq<real>, b: seq<real>) returns (d: real, before: seq<real>, after: seq<real>)
    requires multiset(a) == multiset(b) && a != []
    ensures d == a[0] && b == before + [d] + after && multiset(a[1..]) == multiset(before + after)
  {
    d := a[0];
    assert d in multiset(b);
    var i :| 0 <= i < |b| && b[i] == d;
    before, after := b[..i], b[i + 1..];
    SameRest(a, b, d, before, after);
  }

  lemma SameRest(a: seq<real>, b: seq<real>, d: real, before: seq<real>, after: seq<real>)
    requires multiset(a) == multiset(b) && a != [] && a[0] == d && b == before + [d] + after
    ensures multiset(a[1..]) == multiset(before + after)
  {
    assert a == [d] + a[1..];
    assert multiset(a) == multiset{d} + multiset(a[1..]);
    assert multiset(b) == multiset(before) + multiset{d} + multiset(after);
    assert multiset(before + after) == multiset(before) + multiset(after);
    assert multiset(a) - multiset{d} == multiset(a[1..]);
    assert multiset(b) - multiset{d} == multiset(before) + multiset(after);
  }

  lemma {:induction false} PValuePermutes(a: seq<real>, b: seq<real>, epsilon: real)
    requires multiset(a) == multiset(b)
    ensures PValue(a, epsilon) == PValue(b, epsilon)
  {
    TotalPermutes(a, b);
    ReachingPermutes(a, b, 0.0, Bar(a, epsilon));
    if 1 <= |a| <= MAX_PAIRS {
      PValueIs(a, epsilon);
      PValueIs(b, epsilon);
    }
  }

  // ---- The level of the test ----

  lemma {:induction false} ReachingFlips(deltas: seq<real>, signs: Signs, sum: real, bar: real)
    requires |signs| == |deltas|
    ensures |Flip(deltas, signs)| == |deltas|
    ensures Reaching(Flip(deltas, signs), sum, bar) == Reaching(deltas, sum, bar)
    ensures Total(Flip(deltas, signs)) == Signed(deltas, signs)
  {
    if deltas != [] {
      var d := if signs[0] then deltas[0] else -deltas[0];
      ReachingFlips(deltas[1..], signs[1..], sum - deltas[0], bar);
      ReachingFlips(deltas[1..], signs[1..], sum + deltas[0], bar);
      ReachingFront(d, Flip(deltas[1..], signs[1..]), sum, bar);
    }
  }

  ghost function Rejecting(deltas: seq<real>, epsilon: real, level: real): set<Signs> {
    set v <- AllSigns(|deltas|) | |v| == |deltas| && Rejects(deltas, v, epsilon, level)
  }

  ghost predicate Rejects(deltas: seq<real>, v: Signs, epsilon: real, level: real)
    requires |v| == |deltas|
  {
    var p := PValue(Flip(deltas, v), epsilon);
    p.Some? && p.value <= level
  }

  lemma {:induction false} SmallestSum(deltas: seq<real>, signs: set<Signs>) returns (least: Signs)
    requires signs != {} && forall v <- signs :: |v| == |deltas|
    ensures least in signs && forall v <- signs :: Signed(deltas, least) <= Signed(deltas, v)
    decreases |signs|
  {
    least :| least in signs;
    if signs != {least} {
      var other := SmallestSum(deltas, signs - {least});
      if Signed(deltas, other) < Signed(deltas, least) {
        least := other;
      }
    }
  }

  lemma {:induction false} FlippedPValue(deltas: seq<real>, signs: Signs, epsilon: real)
    requires |signs| == |deltas| && 1 <= |deltas| <= MAX_PAIRS
    ensures PValue(Flip(deltas, signs), epsilon)
            == Some(Share(Reaching(deltas, 0.0, Signed(deltas, signs) - Tolerance(epsilon, |deltas|)), Pow2(|deltas|)))
  {
    ReachingFlips(deltas, signs, 0.0, Signed(deltas, signs) - Tolerance(epsilon, |deltas|));
    PValueIs(Flip(deltas, signs), epsilon);
  }

  /** The test is exact: when only the signs of the differences are random, each as likely as the
      other, it rejects at a level no more often than the level says. */
  lemma {:induction false} TestHoldsItsLevel(deltas: seq<real>, epsilon: real, level: real)
    requires epsilon >= 0.0 && level >= 0.0 && 1 <= |deltas| <= MAX_PAIRS
    ensures Share(|Rejecting(deltas, epsilon, level)|, Pow2(|deltas|)) <= level
  {
    var rejecting := Rejecting(deltas, epsilon, level);
    forall v | v in rejecting ensures LiftsFew(deltas, epsilon, level, v) {
      RejectingLiftsFew(deltas, epsilon, level, v);
    }
    FewReject(deltas, epsilon, level, rejecting);
  }

  /** The assignments with a sum no smaller, up to the tolerance, are at most the level's share. */
  ghost predicate LiftsFew(deltas: seq<real>, epsilon: real, level: real, v: Signs) {
    && |v| == |deltas|
    && Share(|Lifting(deltas, 0.0, Signed(deltas, v) - Tolerance(epsilon, |deltas|))|, Pow2(|deltas|)) <= level
  }

  lemma {:induction false} FewReject(deltas: seq<real>, epsilon: real, level: real, rejecting: set<Signs>)
    requires epsilon >= 0.0 && level >= 0.0
    requires forall v <- rejecting :: LiftsFew(deltas, epsilon, level, v)
    ensures Share(|rejecting|, Pow2(|deltas|)) <= level
  {
    if rejecting == {} {
      assert Share(0, Pow2(|deltas|)) == 0.0;
    } else {
      var least := SmallestSum(deltas, rejecting);
      ToleranceIs(epsilon, |deltas|);
      var bar := Signed(deltas, least) - Tolerance(epsilon, |deltas|);
      RejectedLift(deltas, rejecting, least, bar);
      assert LiftsFew(deltas, epsilon, level, least);
      SharesCompare(|rejecting|, |Lifting(deltas, 0.0, bar)|, Pow2(|deltas|));
    }
  }

  lemma {:induction false} RejectingLiftsFew(deltas: seq<real>, epsilon: real, level: real, v: Signs)
    requires 1 <= |deltas| <= MAX_PAIRS && v in Rejecting(deltas, epsilon, level)
    ensures LiftsFew(deltas, epsilon, level, v)
  {
    FlippedPValue(deltas, v, epsilon);
    LiftingSize(deltas, 0.0, Signed(deltas, v) - Tolerance(epsilon, |deltas|));
  }

  lemma {:induction false} RejectedLift(deltas: seq<real>, rejecting: set<Signs>, least: Signs, bar: real)
    requires |least| == |deltas| && bar <= Signed(deltas, least)
    requires forall v <- rejecting :: |v| == |deltas| && Signed(deltas, least) <= Signed(deltas, v)
    ensures |rejecting| <= |Lifting(deltas, 0.0, bar)|
  {
    forall v | v in rejecting ensures v in Lifting(deltas, 0.0, bar) {
      AllSignsIs(|deltas|, v);
    }
    SubsetSize(rejecting, Lifting(deltas, 0.0, bar));
  }

  lemma SharesCompare(a: nat, b: nat, n: nat)
    requires a <= b && n > 0
    ensures Share(a, n) <= Share(b, n)
  {
    Scale(Share(b, n), Share(a, n), n as real);
  }
}
