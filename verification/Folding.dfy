/** Iteration and folding over any type: the parts of the CRC argument that have
    nothing to do with bits. */
module Folding {

  function Iterate<T>(f: T -> T, c: T, n: nat): T {
    if n == 0 then c else f(Iterate(f, c, n - 1))
  }

  function Fold<S, B>(step: (S, B) -> S, s: S, bytes: seq<B>): S {
    if bytes == [] then s else step(Fold(step, s, bytes[..|bytes| - 1]), bytes[|bytes| - 1])
  }

  lemma {:induction false} IterateLinear<T(!new)>(f: T -> T, plus: (T, T) -> T, x: T, y: T, n: nat)
    requires forall a, b :: f(plus(a, b)) == plus(f(a), f(b))
    ensures Iterate(f, plus(x, y), n) == plus(Iterate(f, x, n), Iterate(f, y, n))
  {
    if n > 0 { IterateLinear(f, plus, x, y, n - 1); }
  }

  /** The sum of two linear maps is linear. */
  lemma SumLinear<T(!new)>(plus: (T, T) -> T, f: T -> T, g: T -> T, x: T, y: T)
    requires forall a, b :: plus(a, b) == plus(b, a)
    requires forall a, b, c :: plus(plus(a, b), c) == plus(a, plus(b, c))
    requires f(plus(x, y)) == plus(f(x), f(y)) && g(plus(x, y)) == plus(g(x), g(y))
    ensures plus(f(plus(x, y)), g(plus(x, y))) == plus(plus(f(x), g(x)), plus(f(y), g(y)))
  {
  }

  /** Iterating a sum whose second part is known to end in `end`. */
  lemma IterateSplit<T(!new)>(f: T -> T, plus: (T, T) -> T, c: T, x: T, y: T, n: nat, end: T)
    requires forall a, b :: f(plus(a, b)) == plus(f(a), f(b))
    requires c == plus(x, y) && Iterate(f, y, n) == end
    ensures Iterate(f, c, n) == plus(Iterate(f, x, n), end)
  {
    IterateLinear(f, plus, x, y, n);
  }

  lemma {:induction false} IterateAdd<T>(f: T -> T, c: T, m: nat, n: nat)
    ensures Iterate(f, c, m + n) == Iterate(f, Iterate(f, c, m), n)
  {
    if n > 0 { IterateAdd(f, c, m, n - 1); }
  }

  lemma {:induction false} IterateInjective<T(!new)>(f: T -> T, x: T, y: T, n: nat)
    requires forall a, b :: f(a) == f(b) ==> a == b
    requires Iterate(f, x, n) == Iterate(f, y, n)
    ensures x == y
  {
    if n > 0 { IterateInjective(f, x, y, n - 1); }
  }

  lemma {:induction false} FoldConcat<S, B>(step: (S, B) -> S, s: S, a: seq<B>, b: seq<B>)
    ensures Fold(step, s, a + b) == Fold(step, Fold(step, s, a), b)
    decreases |b|
  {
    if b == [] {
      assert a + b == a;
    } else {
      var init := b[..|b| - 1];
      FoldConcat(step, s, a, init);
      assert (a + b)[..|a + b| - 1] == a + init;
    }
  }

  lemma {:induction false} FoldInjective<S(!new), B(!new)>(step: (S, B) -> S, s: S, t: S, bytes: seq<B>)
    requires forall x, y, b :: step(x, b) == step(y, b) ==> x == y
    requires Fold(step, s, bytes) == Fold(step, t, bytes)
    ensures s == t
    decreases |bytes|
  {
    if bytes != [] { FoldInjective(step, s, t, bytes[..|bytes| - 1]); }
  }

  /** Packs a sequence into one value, first element outermost. */
  function Pack<S, B>(push: (B, S) -> S, zero: S, bytes: seq<B>): S {
    if bytes == [] then zero else push(bytes[0], Pack(push, zero, bytes[1..]))
  }

  lemma FoldFirst<S, B>(step: (S, B) -> S, s: S, bytes: seq<B>)
    requires bytes != []
    ensures Fold(step, s, bytes) == Fold(step, step(s, bytes[0]), bytes[1..])
  {
    var first := [bytes[0]];
    assert bytes == first + bytes[1..];
    FoldConcat(step, s, first, bytes[1..]);
    assert first[..0] == [];
  }

  /** If a round peels the first element off a packed value, then folding the
      elements one by one is rounds over the state with all of them mixed in. */
  lemma {:induction false} FoldIsRounds<S(!new), B>(
      step: (S, B) -> S, round: S -> S, plus: (S, S) -> S, push: (B, S) -> S, zero: S, s: S, bytes: seq<B>)
    requires forall x :: plus(x, zero) == x
    requires forall x, i :: 0 <= i < |bytes| ==>
      round(plus(x, push(bytes[i], Pack(push, zero, bytes[i + 1..])))) ==
        plus(step(x, bytes[i]), Pack(push, zero, bytes[i + 1..]))
    ensures Fold(step, s, bytes) == Iterate(round, plus(s, Pack(push, zero, bytes)), |bytes|)
    decreases |bytes|
  {
    if bytes != [] {
      var rest := bytes[1..];
      FoldFirst(step, s, bytes);
      forall x, i | 0 <= i < |rest|
        ensures round(plus(x, push(rest[i], Pack(push, zero, rest[i + 1..])))) ==
            plus(step(x, rest[i]), Pack(push, zero, rest[i + 1..]))
      {
        assert rest[i + 1..] == bytes[i + 2..] && rest[i] == bytes[i + 1];
      }
      FoldIsRounds(step, round, plus, push, zero, step(s, bytes[0]), rest);
      assert bytes[0 + 1..] == rest;
      var packed := plus(s, Pack(push, zero, bytes));
      assert round(packed) == plus(step(s, bytes[0]), Pack(push, zero, rest));
      IterateAdd(round, packed, 1, |rest|);
      assert Iterate(round, packed, 1) == round(packed);
    }
  }

  lemma {:induction false} PackInjective<S, B>(push: (B, S) -> S, zero: S, v: seq<B>, w: seq<B>)
    requires |v| == |w| && Pack(push, zero, v) == Pack(push, zero, w)
    requires forall i :: 0 <= i < |v| ==>
      push(v[i], Pack(push, zero, v[i + 1..])) == push(w[i], Pack(push, zero, w[i + 1..])) ==>
      (v[i] == w[i] && Pack(push, zero, v[i + 1..]) == Pack(push, zero, w[i + 1..]))
    ensures v == w
    decreases |v|
  {
    if v != [] {
      assert v[0 + 1..] == v[1..] && w[0 + 1..] == w[1..];
      forall i | 0 <= i < |v[1..]|
        && push(v[1..][i], Pack(push, zero, v[1..][i + 1..])) == push(w[1..][i], Pack(push, zero, w[1..][i + 1..]))
        ensures v[1..][i] == w[1..][i] && Pack(push, zero, v[1..][i + 1..]) == Pack(push, zero, w[1..][i + 1..])
      {
        assert v[1..][i + 1..] == v[i + 2..] && w[1..][i + 1..] == w[i + 2..];
        assert v[1..][i] == v[i + 1] && w[1..][i] == w[i + 1];
      }
      PackInjective(push, zero, v[1..], w[1..]);
      assert v == [v[0]] + v[1..] && w == [w[0]] + w[1..];
    }
  }
}
