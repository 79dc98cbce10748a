// Small shared vocabulary: optional values, sums of multisets over a sequence.

module Base {
  datatype Option<+T> = None | Some(value: T)

  type byte = x: int | 0 <= x < 256

  const TWO_32 := 0x1_0000_0000
  const TWO_64 := 0x1_0000_0000_0000_0000

  /** s stands in the data at p. */
  predicate At(data: seq<byte>, p: nat, s: seq<byte>) {
    p + |s| <= |data| && data[p..p + |s|] == s
  }

  lemma AtBoth(data: seq<byte>, p: nat, x: seq<byte>, y: seq<byte>)
    requires At(data, p, x + y)
    ensures At(data, p, x) && At(data, p + |x|, y)
  {
    assert data[p..p + |x|] == data[p..p + |x + y|][..|x|];
    assert data[p + |x|..p + |x| + |y|] == data[p..p + |x + y|][|x|..];
  }

  lemma AtParts(data: seq<byte>, p: nat, q: nat, all: seq<byte>, x: seq<byte>, y: seq<byte>)
    requires At(data, p, all) && all == x + y && q == p + |x|
    ensures At(data, p, x) && At(data, q, y)
  {
    AtBoth(data, p, x, y);
  }

  /** The multiset sum of f over the elements of s. */
  function Sum<T, U>(s: seq<T>, f: T -> multiset<U>): multiset<U> {
    if s == [] then multiset{} else f(s[0]) + Sum(s[1..], f)
  }

  lemma {:induction false} SumAppend<T, U>(a: seq<T>, b: seq<T>, f: T -> multiset<U>)
    ensures Sum(a + b, f) == Sum(a, f) + Sum(b, f)
  {
    if a == [] {
      assert a + b == b;
    } else {
      assert (a + b)[1..] == a[1..] + b;
      SumAppend(a[1..], b, f);
    }
  }

  /** Appending elements that contribute nothing. */
  lemma SumAppendNothing<T, U>(a: seq<T>, b: seq<T>, f: T -> multiset<U>)
    requires Sum(b, f) == multiset{}
    ensures Sum(a + b, f) == Sum(a, f)
  {
    SumAppend(a, b, f);
  }

  lemma SumOne<T, U>(x: T, f: T -> multiset<U>)
    ensures Sum([x], f) == f(x)
  {
    assert [x][1..] == [];
  }

  /** Splitting a sequence at one index splits its sum. */
  lemma SumSplit<T, U>(s: seq<T>, i: nat, f: T -> multiset<U>)
    requires i < |s|
    ensures Sum(s, f) == Sum(s[..i], f) + f(s[i]) + Sum(s[i+1..], f)
  {
    assert s == s[..i] + ([s[i]] + s[i+1..]);
    SumAppend(s[..i], [s[i]] + s[i+1..], f);
    SumAppend([s[i]], s[i+1..], f);
    SumOne(s[i], f);
  }

  lemma SumUpdate<T, U>(s: seq<T>, i: nat, x: T, f: T -> multiset<U>)
    requires i < |s|
    ensures f(s[i]) <= Sum(s, f)
    ensures Sum(s[i := x], f) == Sum(s, f) - f(s[i]) + f(x)
  {
    SumSplit(s, i, f);
    SumSplit(s[i := x], i, f);
    assert s[i := x][..i] == s[..i] && s[i := x][i+1..] == s[i+1..];
  }

  /** What an updated element gains and gives up, the whole sum gains and gives up. */
  lemma SumChange<T, U>(s: seq<T>, i: nat, x: T, f: T -> multiset<U>, gone: multiset<U>, added: multiset<U>)
    requires i < |s| && f(s[i]) + added == f(x) + gone
    ensures Sum(s, f) + added == Sum(s[i := x], f) + gone
  {
    SumUpdate(s, i, x, f);
    var rest := Sum(s, f) - f(s[i]);
    calc {
      Sum(s, f) + added;
      rest + f(s[i]) + added;
      rest + (f(s[i]) + added);
      rest + (f(x) + gone);
      rest + f(x) + gone;
      Sum(s[i := x], f) + gone;
    }
  }

  lemma SumGain<T, U>(s: seq<T>, i: nat, x: T, f: T -> multiset<U>, added: multiset<U>)
    requires i < |s| && f(x) == f(s[i]) + added
    ensures Sum(s[i := x], f) == Sum(s, f) + added
  {
    SumChange(s, i, x, f, multiset{}, added);
  }

  lemma SumRelease<T, U>(s: seq<T>, i: nat, x: T, f: T -> multiset<U>, gone: multiset<U>)
    requires i < |s| && f(s[i]) == f(x) + gone
    ensures Sum(s, f) == Sum(s[i := x], f) + gone
  {
    SumChange(s, i, x, f, gone, multiset{});
  }

  lemma SumRemove<T, U>(s: seq<T>, i: nat, f: T -> multiset<U>)
    requires i < |s|
    ensures f(s[i]) <= Sum(s, f)
    ensures Sum(s[..i] + s[i+1..], f) == Sum(s, f) - f(s[i])
  {
    SumSplit(s, i, f);
    SumAppend(s[..i], s[i+1..], f);
  }

  /** An element of a sum comes from some summand. */
  lemma {:induction false} SumWitness<T, U>(s: seq<T>, f: T -> multiset<U>, u: U) returns (i: nat)
    requires u in Sum(s, f)
    ensures i < |s| && u in f(s[i])
  {
    if u in f(s[0]) {
      i := 0;
    } else {
      var j := SumWitness(s[1..], f, u);
      i := j + 1;
    }
  }

  /** The same for natural numbers. */
  function Total<T>(s: seq<T>, f: T -> nat): nat {
    if s == [] then 0 else f(s[0]) + Total(s[1..], f)
  }

  lemma {:induction false} TotalAppend<T>(a: seq<T>, b: seq<T>, f: T -> nat)
    ensures Total(a + b, f) == Total(a, f) + Total(b, f)
  {
    if a == [] {
      assert a + b == b;
    } else {
      assert (a + b)[1..] == a[1..] + b;
      TotalAppend(a[1..], b, f);
    }
  }

  lemma {:induction false} TotalUpdate<T>(s: seq<T>, i: nat, x: T, f: T -> nat)
    requires i < |s|
    ensures Total(s[i := x], f) == Total(s, f) - f(s[i]) + f(x)
    ensures f(s[i]) <= Total(s, f)
  {
    if i == 0 {
      assert s[i := x][1..] == s[1..];
    } else {
      assert s[i := x][1..] == s[1..][i - 1 := x];
      TotalUpdate(s[1..], i - 1, x, f);
    }
  }
}
