/** Amounts of money, in integer cents. */
module Money {

  /** The total of a sequence of amounts, added from left to right. */
  function Sum(xs: seq<int>): (total: int)
  {
    if xs == [] then 0 else Sum(xs[..|xs| - 1]) + xs[|xs| - 1]
  }

  /** Totalling a concatenation is totalling the parts. */
  lemma {:induction false} SumAppend(a: seq<int>, b: seq<int>)
    ensures Sum(a + b) == Sum(a) + Sum(b)
  {
    if b == [] {
      assert a + b == a;
    } else {
      var b' := b[..|b| - 1];
      assert (a + b)[..|a + b| - 1] == a + b';
      SumAppend(a, b');
    }
  }

  /** A total of strictly positive amounts is at least the number of amounts. */
  lemma {:induction false} SumOfPositives(xs: seq<int>)
    requires forall i :: 0 <= i < |xs| ==> xs[i] > 0
    ensures Sum(xs) >= |xs|
  {
    if xs != [] {
      SumOfPositives(xs[..|xs| - 1]);
    }
  }
}
