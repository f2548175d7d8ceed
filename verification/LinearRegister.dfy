/** A feedback register over any words with an exclusive-or: shifting is linear and can be undone. What
    follows from that alone is proved here once, for words of any kind. */
module LinearRegister {
  datatype Register<!T> = Register(xor: (T, T) -> T, zero: T, shift: T -> T, unshift: T -> T)

  ghost predicate Laws<T>(r: Register<T>, a: T, b: T, c: T) {
    && r.xor(r.xor(a, b), c) == r.xor(a, r.xor(b, c))
    && r.xor(a, b) == r.xor(b, a)
    && r.xor(a, a) == r.zero && r.xor(a, r.zero) == a
    && r.shift(r.xor(a, b)) == r.xor(r.shift(a), r.shift(b))
    && r.unshift(r.shift(a)) == a
  }

  ghost predicate Lawful<T(!new)>(r: Register<T>) {
    forall a, b, c :: Laws(r, a, b, c)
  }

  function Shifts<T>(r: Register<T>, c: T, n: nat): T {
    if n == 0 then c else Shifts(r, r.shift(c), n - 1)
  }

  /** Feed one word at a time, shifting after each. */
  function Push<T>(r: Register<T>, c: T, words: seq<T>): T
    decreases |words|
  {
    if words == [] then c else Push(r, r.shift(r.xor(c, words[0])), words[1..])
  }

  lemma {:induction false} ShiftsXor<T(!new)>(r: Register<T>, a: T, b: T, n: nat)
    requires Lawful(r)
    ensures Shifts(r, r.xor(a, b), n) == r.xor(Shifts(r, a, n), Shifts(r, b, n))
  {
    if n > 0 {
      assert Laws(r, a, b, b);
      ShiftsXor(r, r.shift(a), r.shift(b), n - 1);
    }
  }

  lemma {:induction false} ShiftsDiffer<T(!new)>(r: Register<T>, a: T, b: T, n: nat)
    requires Lawful(r) && a != b
    ensures Shifts(r, a, n) != Shifts(r, b, n)
  {
    if n > 0 {
      assert Laws(r, a, a, a) && Laws(r, b, b, b);
      ShiftsDiffer(r, r.shift(a), r.shift(b), n - 1);
    }
  }

  lemma XorDiffers<T(!new)>(r: Register<T>, a: T, b: T, w: T)
    requires Lawful(r) && a != b
    ensures r.xor(a, w) != r.xor(b, w)
  {
    assert Laws(r, a, w, w) && Laws(r, b, w, w) && Laws(r, w, w, w) && Laws(r, a, a, a) && Laws(r, b, b, b);
  }

  lemma {:induction false} PushConcat<T>(r: Register<T>, c: T, a: seq<T>, b: seq<T>)
    ensures Push(r, c, a + b) == Push(r, Push(r, c, a), b)
    decreases |a|
  {
    if a == [] {
      assert a + b == b;
    } else {
      assert (a + b)[1..] == a[1..] + b;
      PushConcat(r, r.shift(r.xor(c, a[0])), a[1..], b);
    }
  }

  lemma {:induction false} PushKeepsDifference<T(!new)>(r: Register<T>, a: T, b: T, words: seq<T>)
    requires Lawful(r) && a != b
    ensures Push(r, a, words) != Push(r, b, words)
    decreases |words|
  {
    if words != [] {
      XorDiffers(r, a, b, words[0]);
      ShiftsDiffer(r, r.xor(a, words[0]), r.xor(b, words[0]), 1);
      PushKeepsDifference(r, r.shift(r.xor(a, words[0])), r.shift(r.xor(b, words[0])), words[1..]);
    }
  }

  // ---- Messages of several words each ----

  function FlatMap<S, T>(f: S -> seq<T>, s: seq<S>): seq<T> {
    if s == [] then [] else f(s[0]) + FlatMap(f, s[1..])
  }

  lemma {:induction false} FlatMapConcat<S, T>(f: S -> seq<T>, a: seq<S>, b: seq<S>)
    ensures FlatMap(f, a + b) == FlatMap(f, a) + FlatMap(f, b)
  {
    if a == [] {
      assert a + b == b;
    } else {
      assert (a + b)[1..] == a[1..] + b;
      FlatMapConcat(f, a[1..], b);
    }
  }

  /** The words of a message before, in and after one of its parts. */
  lemma {:induction false} FlatMapAround<S, T>(f: S -> seq<T>, a: seq<S>, i: nat)
    requires i < |a|
    ensures FlatMap(f, a) == FlatMap(f, a[..i]) + f(a[i]) + FlatMap(f, a[i + 1..])
  {
    assert a == a[..i] + a[i..] && a[i..][1..] == a[i + 1..];
    FlatMapConcat(f, a[..i], a[i..]);
    assert FlatMap(f, a[i..]) == f(a[i]) + FlatMap(f, a[i + 1..]);
  }
}
