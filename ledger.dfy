/** The list of items rung up for the current sale and its subtotal. */
module Ledger {
  import Money

  /** One line of the sale's display: the item's name and its unit price in cents. */
  datatype Entry = Entry(name: string, price: int)

  /** The unit prices of the entries, in display order. */
  function Prices(items: seq<Entry>): (ps: seq<int>)
  {
    seq(|items|, i requires 0 <= i < |items| => items[i].price)
  }

  /** The sum of the unit prices of all entries. */
  function Subtotal(items: seq<Entry>): (total: int)
  {
    Money.Sum(Prices(items))
  }

  /** The subtotal of a concatenation is the sum of the subtotals. */
  lemma SubtotalAppend(a: seq<Entry>, b: seq<Entry>)
    ensures Subtotal(a + b) == Subtotal(a) + Subtotal(b)
  {
    assert Prices(a + b) == Prices(a) + Prices(b);
    Money.SumAppend(Prices(a), Prices(b));
  }

  /** Appending one entry raises the subtotal by exactly its price. */
  lemma SubtotalSnoc(items: seq<Entry>, e: Entry)
    ensures Subtotal(items + [e]) == Subtotal(items) + e.price
  {
    SubtotalAppend(items, [e]);
    assert Prices([e]) == [e.price];
    assert [e.price][..0] == [];
    assert Money.Sum([e.price]) == Money.Sum([]) + e.price;
  }

  /** Putting one entry in front of a list raises its subtotal by that entry's price. */
  lemma SubtotalCons(e: Entry, items: seq<Entry>)
    ensures Subtotal([e] + items) == e.price + Subtotal(items)
  {
    SubtotalAppend([e], items);
    SubtotalSnoc([], e);
    assert [] + [e] == [e];
  }

  /** Taking the entry at position j out of a list lowers its subtotal by that entry's price. */
  lemma SubtotalRemove(b: seq<Entry>, j: nat)
    requires j < |b|
    ensures Subtotal(b) == Subtotal(b[..j] + b[j + 1..]) + b[j].price
  {
    var left, right := b[..j], b[j + 1..];
    assert b == left + [b[j]] + right;
    SubtotalSnoc(left, b[j]);
    SubtotalAppend(left + [b[j]], right);
    SubtotalAppend(left, right);
  }

  /** Taking the entry at position j out of a list takes one copy of it out of its multiset. */
  lemma MultisetRemove(b: seq<Entry>, j: nat)
    requires j < |b|
    ensures multiset(b[..j] + b[j + 1..]) == multiset(b) - multiset{b[j]}
  {
    var left, right := b[..j], b[j + 1..];
    assert b == left + [b[j]] + right;
    assert multiset(b) == multiset(left) + multiset{b[j]} + multiset(right);
  }

  /** The subtotal depends only on which entries were rung up, not on the order of the taps. */
  lemma {:induction false} SubtotalOrderIndependent(a: seq<Entry>, b: seq<Entry>)
    requires multiset(a) == multiset(b)
    ensures Subtotal(a) == Subtotal(b)
  {
    if a == [] {
      assert |b| == |multiset(b)| == 0;
    } else {
      var x := a[|a| - 1];
      var a' := a[..|a| - 1];
      assert x in multiset(b);
      var j :| 0 <= j < |b| && b[j] == x;
      MultisetRemove(a, |a| - 1);
      MultisetRemove(b, j);
      assert a[..|a| - 1] + a[|a|..] == a';
      SubtotalOrderIndependent(a', b[..j] + b[j + 1..]);
      SubtotalRemove(a, |a| - 1);
      SubtotalRemove(b, j);
    }
  }
}
