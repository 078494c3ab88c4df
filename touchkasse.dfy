/** The register itself: the bookkeeping object whose callbacks the buttons
    invoke, and the two kinds of buttons that feed it. */
module TouchKasse {
  import opened Ledger
  import opened Denominations
  import Till

  /** The register's transaction bookkeeping, updated in place by its callbacks. */
  class TouchRegister {
    var displayElements: seq<Entry>
    var currentCash: int
    var currentSum: int
    var transactionDone: bool
    var view: Till.View
    var cashLabel: Till.CashLabel

    /** The displayed sum is always the subtotal of the displayed items. */
    ghost predicate Valid()
      reads this
    {
      currentSum == Subtotal(displayElements)
    }

    /** The fields as a value of the state machine. */
    function Snapshot(): Till.State
      reads this
    {
      Till.State(displayElements, currentCash, currentSum, transactionDone, view, cashLabel)
    }

    constructor ()
      ensures Valid()
      ensures displayElements == [] && currentCash == 0 && currentSum == 0 && !transactionDone
      ensures view == Till.ItemView && cashLabel == Till.Caption
      ensures Snapshot() == Till.Initial()
    {
      displayElements := [];
      currentCash := 0;
      currentSum := 0;
      transactionDone := false;
      view := Till.ItemView;
      cashLabel := Till.Caption;
    }

    /** Recomputes the sum, adding the prices of the items in display order. */
    method UpdateSum()
      modifies this
      ensures Valid()
      ensures currentSum == Subtotal(displayElements)
      ensures displayElements == old(displayElements) && currentCash == old(currentCash)
      ensures transactionDone == old(transactionDone) && view == old(view) && cashLabel == old(cashLabel)
      ensures Snapshot() == Till.RecomputeSum(old(Snapshot()))
    {
      var items := displayElements;
      var total := 0;
      for i := 0 to |items|
        invariant total == Subtotal(items[..i])
        modifies {}
      {
        assert items[..i + 1] == items[..i] + [items[i]];
        SubtotalSnoc(items[..i], items[i]);
        total := total + items[i].price;
      }
      assert items[..|items|] == items;
      currentSum := total;
    }

    /** A denomination tap: the cash grows by exactly value and is shown. */
    method CashDisplay(value: int)
      requires Valid()
      modifies this
      ensures Valid()
      ensures currentCash == old(currentCash) + value && cashLabel == Till.Tendered(currentCash)
      ensures displayElements == old(displayElements) && currentSum == old(currentSum)
      ensures transactionDone == old(transactionDone) && view == old(view)
      ensures Snapshot() == Till.AddCash(old(Snapshot()), value)
    {
      currentCash := currentCash + value;
      cashLabel := Till.Tendered(currentCash);
    }

    /** The cash pad's "Löschen": the cash is zeroed whatever it was. */
    method ResetCashDisplay()
      requires Valid()
      modifies this
      ensures Valid()
      ensures currentCash == 0 && cashLabel == Till.Tendered(0)
      ensures displayElements == old(displayElements) && currentSum == old(currentSum)
      ensures transactionDone == old(transactionDone) && view == old(view)
      ensures Snapshot() == Till.ResetCash(old(Snapshot()))
    {
      currentCash := 0;
      CashDisplay(0);
    }

    /** The item screen's "Löschen": the items are dropped and the sum is zero;
        the cash and the flag are untouched. */
    method ClearDisplayElementList()
      requires Valid()
      modifies this
      ensures Valid()
      ensures displayElements == [] && currentSum == 0
      ensures currentCash == old(currentCash) && transactionDone == old(transactionDone)
      ensures view == old(view) && cashLabel == old(cashLabel)
      ensures Snapshot() == Till.ClearItems(old(Snapshot()))
    {
      displayElements := [];
      UpdateSum();
    }

    /** Discards the sale: no items, no cash, sum zero, sale open again. */
    method ResetTransaction()
      requires Valid()
      modifies this
      ensures Valid()
      ensures displayElements == [] && currentCash == 0 && currentSum == 0 && !transactionDone
      ensures view == old(view) && cashLabel == Till.Tendered(0)
      ensures Snapshot() == Till.ResetTransaction(old(Snapshot()))
    {
      ResetCashDisplay();
      currentCash := 0;
      ClearDisplayElementList();
      UpdateSum();
      transactionDone := false;
    }

    /** An item tap. In an open sale the entry is appended and the sum rises by
        its price; after a settled sale a new sale holding only this entry
        begins. */
    method DisplayElementFactory(name: string, price: int)
      requires Valid()
      modifies this
      ensures Valid()
      ensures !old(transactionDone) ==>
        && displayElements == old(displayElements) + [Entry(name, price)]
        && currentSum == old(currentSum) + price
        && currentCash == old(currentCash) && cashLabel == old(cashLabel)
      ensures old(transactionDone) ==>
        && displayElements == [Entry(name, price)]
        && currentSum == price
        && currentCash == 0 && cashLabel == Till.Tendered(0)
      ensures !transactionDone && view == old(view)
      ensures Snapshot() == Till.AddItem(old(Snapshot()), name, price)
    {
      if transactionDone {
        ResetTransaction();
      }
      SubtotalSnoc(displayElements, Entry(name, price));
      displayElements := displayElements + [Entry(name, price)];
      UpdateSum();
      assert [] + [Entry(name, price)] == [Entry(name, price)];
      SubtotalSnoc([], Entry(name, price));
    }

    /** "Gegeben": the cash pad replaces the item buttons; the sale, including
        the cash already tendered, is untouched. */
    method GotCash()
      requires Valid()
      modifies this
      ensures Valid()
      ensures view == Till.CashPadView
      ensures displayElements == old(displayElements) && currentCash == old(currentCash)
      ensures currentSum == old(currentSum) && transactionDone == old(transactionDone)
      ensures cashLabel == old(cashLabel)
      ensures Snapshot() == Till.EnterCashPad(old(Snapshot()))
    {
      view := Till.CashPadView;
    }

    /** "Ok" (true) or "Abbrechen" (false) on the cash pad. The item buttons
        come back. "Ok" shows cash minus sum as change, without checking that
        the cash covers the sum, and marks the sale settled; "Abbrechen"
        discards the sale. */
    method GotCashDone(isTransactionDone: bool)
      requires Valid()
      modifies this
      ensures Valid()
      ensures view == Till.ItemView
      ensures isTransactionDone ==>
        && cashLabel == Till.ChangeDue(old(currentCash) - old(currentSum))
        && transactionDone
        && displayElements == old(displayElements)
        && currentCash == old(currentCash) && currentSum == old(currentSum)
      ensures !isTransactionDone ==>
        && displayElements == [] && currentCash == 0 && currentSum == 0
        && !transactionDone && cashLabel == Till.Tendered(0)
      ensures Snapshot() == Till.LeaveCashPad(old(Snapshot()), isTransactionDone)
    {
      view := Till.ItemView;
      if isTransactionDone {
        cashLabel := Till.ChangeDue(currentCash - currentSum);
        transactionDone := true;
      } else {
        ResetTransaction();
      }
    }

    /** Builds one item button per catalog row, each wired to this register
        and sharing the one sold counter. */
    method FoodElementFactory(catalog: seq<Entry>, sold: SoldCounter) returns (buttons: seq<FoodButton>)
      ensures |buttons| == |catalog|
      ensures forall i :: 0 <= i < |buttons| ==>
        && fresh(buttons[i])
        && buttons[i].name == catalog[i].name && buttons[i].price == catalog[i].price
        && buttons[i].sold == sold && buttons[i].target == this
    {
      buttons := [];
      for i := 0 to |catalog|
        invariant |buttons| == i
        invariant forall j :: 0 <= j < i ==>
          && fresh(buttons[j])
          && buttons[j].name == catalog[j].name && buttons[j].price == catalog[j].price
          && buttons[j].sold == sold && buttons[j].target == this
      {
        var b := new FoodButton(catalog[i].name, catalog[i].price, sold);
        b.AttachExternalCallback(this);
        buttons := buttons + [b];
      }
    }

    /** Builds the cash pad: one button per denomination, in table order, each
        wired to this register. */
    method GotCashButtonFactory() returns (buttons: seq<CashButton>)
      ensures |buttons| == |CashVals()|
      ensures forall i :: 0 <= i < |buttons| ==>
        && fresh(buttons[i])
        && buttons[i].name == CashVals()[i].name && buttons[i].value == CashVals()[i].cents
        && buttons[i].target == this
    {
      var vals := CashVals();
      buttons := [];
      for i := 0 to |vals|
        invariant |buttons| == i
        invariant forall j :: 0 <= j < i ==>
          && fresh(buttons[j])
          && buttons[j].name == vals[j].name && buttons[j].value == vals[j].cents
          && buttons[j].target == this
      {
        var b := new CashButton(vals[i].name, vals[i].cents);
        b.AttachExternalCallback(this);
        buttons := buttons + [b];
      }
    }
  }

  /** The sold counter that every item button shares. */
  class SoldCounter {
    var count: int

    constructor ()
      ensures count == 0
    {
      count := 0;
    }
  }

  /** An item button: its name, its price in cents, the shared sold counter
      and the register its taps are forwarded to, once attached. */
  class FoodButton {
    const name: string
    const price: int
    const sold: SoldCounter
    var target: TouchRegister?

    constructor (name: string, price: int, sold: SoldCounter)
      ensures this.name == name && this.price == price && this.sold == sold
      ensures target == null
    {
      this.name := name;
      this.price := price;
      this.sold := sold;
      target := null;
    }

    method AttachExternalCallback(reg: TouchRegister)
      modifies this
      ensures target == reg
    {
      target := reg;
    }

    /** A tap: the shared counter rises by exactly one and, once attached, the
        register rings up (name, price). */
    method ButtonCallback()
      requires target != null ==> target.Valid()
      modifies sold, target
      ensures sold.count == old(sold.count) + 1
      ensures target != null ==>
        target.Valid() && target.Snapshot() == Till.AddItem(old(target.Snapshot()), name, price)
      ensures target != null && !old(target.transactionDone) ==>
        && target.displayElements == old(target.displayElements) + [Entry(name, price)]
        && target.currentSum == old(target.currentSum) + price
        && target.currentCash == old(target.currentCash)
    {
      var soldLocal := sold.count;
      sold.count := soldLocal + 1;
      if target != null {
        target.DisplayElementFactory(name, price);
      }
    }
  }

  /** A cash-pad button: its caption, the amount it tenders in cents, and the
      register its taps are forwarded to, once attached. */
  class CashButton {
    const name: string
    const value: int
    var target: TouchRegister?

    constructor (name: string, value: int)
      ensures this.name == name && this.value == value && target == null
    {
      this.name := name;
      this.value := value;
      target := null;
    }

    method AttachExternalCallback(reg: TouchRegister)
      modifies this
      ensures target == reg
    {
      target := reg;
    }

    /** A tap: once attached, the register's cash grows by exactly value. */
    method ButtonCallback()
      requires target != null ==> target.Valid()
      modifies target
      ensures target != null ==>
        target.Valid() && target.Snapshot() == Till.AddCash(old(target.Snapshot()), value)
      ensures target != null ==> target.currentCash == old(target.currentCash) + value
    {
      if target != null {
        target.CashDisplay(value);
      }
    }
  }
}
