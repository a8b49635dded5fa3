/** Model of src/algorithm/counter.hpp: the four running totals of one input. */
module Counter {

  /** The value a Counter holds. */
  datatype Counts = Counts(bytes: nat, words: nat, lines: nat, multibyte: nat)

  /** The value of a default-constructed Counter. */
  const Zero: Counts := Counts(0, 0, 0, 0)

  /** Field-wise addition, the meaning of `operator+=`. */
  function Add(a: Counts, b: Counts): Counts
  {
    Counts(a.bytes + b.bytes, a.words + b.words, a.lines + b.lines, a.multibyte + b.multibyte)
  }

  /** The total of a list of counters, accumulated from Zero with `+=` in list order. */
  function Sum(cs: seq<Counts>): Counts
    decreases |cs|
  {
    if cs == [] then Zero else Add(Sum(cs[..|cs| - 1]), cs[|cs| - 1])
  }

  lemma ZeroIsIdentity(a: Counts)
    ensures Add(a, Zero) == a && Add(Zero, a) == a
  {
  }

  lemma AddCommutes(a: Counts, b: Counts)
    ensures Add(a, b) == Add(b, a)
  {
  }

  lemma AddAssociates(a: Counts, b: Counts, c: Counts)
    ensures Add(Add(a, b), c) == Add(a, Add(b, c))
  {
  }

  /** Accumulating a concatenation is adding the two partial totals. */
  lemma {:induction false} SumAppend(a: seq<Counts>, b: seq<Counts>)
    ensures Sum(a + b) == Add(Sum(a), Sum(b))
    decreases |b|
  {
    if b == [] {
      assert a + b == a;
      ZeroIsIdentity(Sum(a));
    } else {
      var b', last := b[..|b| - 1], b[|b| - 1];
      assert (a + b)[..|a + b| - 1] == a + b';
      assert Sum(a + b) == Add(Sum(a + b'), last);
      assert Sum(b) == Add(Sum(b'), last);
      SumAppend(a, b');
      AddAssociates(Sum(a), Sum(b'), last);
    }
  }

  /** A single counter totals to itself. */
  lemma {:induction false} SumOfSingleton(c: Counts)
    ensures Sum([c]) == c
  {
    assert [c][..0] == [];
  }

  /** The order in which counters are accumulated does not matter. */
  lemma {:induction false} SumPermutation(a: seq<Counts>, b: seq<Counts>)
    requires multiset(a) == multiset(b)
    ensures Sum(a) == Sum(b)
    decreases |a|
  {
    if a == [] {
      assert |b| == |multiset(b)| == 0;
    } else {
      var x := a[|a| - 1];
      var a' := a[..|a| - 1];
      assert a == a' + [x];
      assert x in multiset(b) by {
        assert x in multiset(a);
      }
      var j :| 0 <= j < |b| && b[j] == x;
      var b' := b[..j] + b[j + 1..];
      assert b == b[..j] + [x] + b[j + 1..];
      assert multiset(b) == multiset(b') + multiset{x};
      assert multiset(a) == multiset(a') + multiset{x};
      assert multiset(a') == multiset(a) - multiset{x} == multiset(b');
      SumPermutation(a', b');
      var pre, post := b[..j], b[j + 1..];
      calc {
        Sum(b);
        { SumAppend(pre + [x], post); }
        Add(Sum(pre + [x]), Sum(post));
        { SumAppend(pre, [x]); SumOfSingleton(x); }
        Add(Add(Sum(pre), x), Sum(post));
        { AddAssociates(Sum(pre), x, Sum(post)); AddCommutes(x, Sum(post)); }
        Add(Sum(pre), Add(Sum(post), x));
        { AddAssociates(Sum(pre), Sum(post), x); }
        Add(Add(Sum(pre), Sum(post)), x);
        { SumAppend(pre, post); }
        Add(Sum(b'), x);
        Add(Sum(a'), x);
        Sum(a);
      }
    }
  }

  /** A Counter object: `struct Counter` with its four `std::size_t` fields. */
  class Counter {
    var bytes: nat
    var words: nat
    var lines: nat
    var multibyte: nat

    /** `Counter()`: every field starts at zero. */
    constructor ()
      ensures Value() == Zero
    {
      bytes, words, lines, multibyte := 0, 0, 0, 0;
    }

    function Value(): Counts
      reads this
    {
      Counts(bytes, words, lines, multibyte)
    }

    /** `*this += other`, answering `*this`. The argument is a const reference, so it is
        passed as the value it denotes; `c += c` is `c.AddAssign(c.Value())`. */
    method AddAssign(other: Counts) returns (self: Counter)
      modifies this
      ensures self == this
      ensures Value() == Add(old(Value()), other)
    {
      bytes := bytes + other.bytes;
      words := words + other.words;
      lines := lines + other.lines;
      multibyte := multibyte + other.multibyte;
      self := this;
    }
  }
}
