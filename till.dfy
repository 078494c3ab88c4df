/** The register's bookkeeping as a state machine over values: one function per
    operation of the register, the button wiring of each screen, and what whole
    sequences of button presses do. */
module Till {
  import Money
  import opened Ledger
  import opened Denominations

  /** Which buttons the right-hand half of the screen shows: the item buttons
      with "Gegeben" and "Löschen", or the cash pad with "Ok", "Löschen" and
      "Abbrechen". */
  datatype View = ItemView | CashPadView

  /** What the cash line of the display shows: its initial caption, the cash
      tendered so far ("BAR"), or the change due ("ZURÜCK"). */
  datatype CashLabel = Caption | Tendered(amount: int) | ChangeDue(amount: int)

  /** The register's bookkeeping fields: the rung-up items, the cash tendered,
      the displayed sum, the "sale settled" flag, the screen and the cash line. */
  datatype State = State(items: seq<Entry>, cash: int, sum: int, done: bool, view: View, cashLabel: CashLabel)

  /** The state of a freshly started register: nothing rung up, nothing
      tendered, the sale open, the item screen showing. */
  function Initial(): (r: State)
    ensures r.items == [] && r.cash == 0 && r.sum == 0 && !r.done
    ensures r.view == ItemView && r.cashLabel == Caption
    ensures Consistent(r)
  {
    State([], 0, 0, false, ItemView, Caption)
  }

  /** update_sum: the sum becomes the subtotal of the items. */
  function RecomputeSum(s: State): (r: State)
    ensures r.sum == Subtotal(r.items)
    ensures r.items == s.items && r.cash == s.cash && r.done == s.done
    ensures r.view == s.view && r.cashLabel == s.cashLabel
  {
    s.(sum := Subtotal(s.items))
  }

  /** cash_display(value): the tendered cash grows by value and is shown. */
  function AddCash(s: State, value: int): (r: State)
    ensures r.cash == s.cash + value && r.cashLabel == Tendered(r.cash)
    ensures r.items == s.items && r.sum == s.sum && r.done == s.done && r.view == s.view
  {
    s.(cash := s.cash + value, cashLabel := Tendered(s.cash + value))
  }

  /** reset_cash_display: the cash is zeroed, then cash_display(0) shows it. */
  function ResetCash(s: State): (r: State)
    ensures r.cash == 0 && r.cashLabel == Tendered(0)
    ensures r.items == s.items && r.sum == s.sum && r.done == s.done && r.view == s.view
  {
    AddCash(s.(cash := 0), 0)
  }

  /** clear_display_element_list: the items are dropped and the sum recomputed. */
  function ClearItems(s: State): (r: State)
    ensures r.items == [] && r.sum == 0
    ensures r.cash == s.cash && r.done == s.done && r.view == s.view && r.cashLabel == s.cashLabel
  {
    RecomputeSum(s.(items := []))
  }

  /** reset_transaction: cash, items and sum are cleared and the sale is open again. */
  function ResetTransaction(s: State): (r: State)
    ensures r.items == [] && r.cash == 0 && r.sum == 0 && !r.done
    ensures r.view == s.view && r.cashLabel == Tendered(0)
  {
    RecomputeSum(ClearItems(ResetCash(s).(cash := 0))).(done := false)
  }

  /** display_element_factory(name, price): a tap on an item after a settled
      sale first resets the transaction; the item is then appended and the sum
      recomputed. */
  function AddItem(s: State, name: string, price: int): (r: State)
    ensures !s.done ==> r.items == s.items + [Entry(name, price)] && r.cash == s.cash && r.cashLabel == s.cashLabel
    ensures s.done ==> r.items == [Entry(name, price)] && r.cash == 0 && r.cashLabel == Tendered(0)
    ensures r.sum == Subtotal(r.items) && !r.done && r.view == s.view
  {
    var open := if s.done then ResetTransaction(s) else s;
    assert [] + [Entry(name, price)] == [Entry(name, price)];
    RecomputeSum(open.(items := open.items + [Entry(name, price)]))
  }

  /** got_cash: the cash pad replaces the item buttons; the sale is untouched. */
  function EnterCashPad(s: State): (r: State)
    ensures r.view == CashPadView
    ensures r.items == s.items && r.cash == s.cash && r.sum == s.sum
    ensures r.done == s.done && r.cashLabel == s.cashLabel
  {
    s.(view := CashPadView)
  }

  /** got_cash_done(confirmed): the item buttons come back; "Ok" shows the change
      and marks the sale settled, "Abbrechen" resets the transaction. */
  function LeaveCashPad(s: State, confirmed: bool): (r: State)
    ensures r.view == ItemView
    ensures confirmed ==>
      && r.cashLabel == ChangeDue(s.cash - s.sum) && r.done
      && r.items == s.items && r.cash == s.cash && r.sum == s.sum
    ensures !confirmed ==>
      && r.items == [] && r.cash == 0 && r.sum == 0 && !r.done
      && r.cashLabel == Tendered(0)
  {
    var back := s.(view := ItemView);
    if confirmed then back.(cashLabel := ChangeDue(s.cash - s.sum), done := true)
    else ResetTransaction(back)
  }

  /** A press of one of the register's buttons. TapCash names the pad position
      pressed (0 for "1 Cent" up to 12 for "100 €"). */
  datatype Intent =
    | TapFood(name: string, price: int)
    | TapGotCash
    | TapClearItems
    | TapCash(position: nat)
    | TapOk
    | TapClearCash
    | TapCancel

  /** Whether the button behind an intent is on the screen in the given view:
      the item buttons, "Gegeben" and "Löschen" on the item screen; the 13
      denominations, "Ok", "Löschen" and "Abbrechen" on the cash pad. */
  predicate Wired(v: View, i: Intent): (b: bool)
    ensures b ==> (v == ItemView <==> (i.TapFood? || i.TapGotCash? || i.TapClearItems?))
    ensures i.TapCash? && i.position >= |CashVals()| ==> !b
  {
    match i
    case TapFood(_, _) => v == ItemView
    case TapGotCash => v == ItemView
    case TapClearItems => v == ItemView
    case TapCash(k) => v == CashPadView && k < |CashVals()|
    case TapOk => v == CashPadView
    case TapClearCash => v == CashPadView
    case TapCancel => v == CashPadView
  }

  /** The effect of one press; a button that is not on the screen cannot be
      pressed, so such an intent changes nothing. "Gegeben" opens the cash
      pad, "Ok" and "Abbrechen" close it, and no other press changes screen. */
  function Step(s: State, i: Intent): (r: State)
    ensures !Wired(s.view, i) ==> r == s
    ensures Wired(s.view, i) && i.TapGotCash? ==> r.view == CashPadView
    ensures Wired(s.view, i) && (i.TapOk? || i.TapCancel?) ==> r.view == ItemView
    ensures !(i.TapGotCash? || i.TapOk? || i.TapCancel?) ==> r.view == s.view
  {
    if !Wired(s.view, i) then s
    else match i
      case TapFood(name, price) => AddItem(s, name, price)
      case TapGotCash => EnterCashPad(s)
      case TapClearItems => ClearItems(s)
      case TapCash(k) => AddCash(s, PadValue(k))
      case TapOk => LeaveCashPad(s, true)
      case TapClearCash => ResetCash(s)
      case TapCancel => LeaveCashPad(s, false)
  }

  /** The effect of a sequence of presses, delivered in order. */
  function Run(s: State, trace: seq<Intent>): (r: State)
    decreases |trace|
  {
    if trace == [] then s else Run(Step(s, trace[0]), trace[1..])
  }

  /** Taps on the item buttons for the given entries, in order. */
  function FoodTaps(entries: seq<Entry>): (taps: seq<Intent>)
  {
    seq(|entries|, i requires 0 <= i < |entries| => TapFood(entries[i].name, entries[i].price))
  }

  /** Taps on the given cash-pad positions, in order. */
  function CashTaps(taps: seq<nat>): (presses: seq<Intent>)
  {
    seq(|taps|, i requires 0 <= i < |taps| => TapCash(taps[i]))
  }

  /** What every reachable state satisfies: the sum is the subtotal of the
      items, the cash is never negative, and on the item screen of a sale that
      is not yet settled no cash has been tendered. */
  predicate Consistent(s: State)
  {
    && s.sum == Subtotal(s.items)
    && s.cash >= 0
    && (s.view == ItemView && !s.done ==> s.cash == 0)
  }

  /** Adding an item to an open sale appends exactly that entry, raises the sum
      by its price and leaves cash, flag, screen and cash line alone. */
  lemma AddItemToOpenSale(s: State, name: string, price: int)
    requires s.sum == Subtotal(s.items) && !s.done
    ensures var r := AddItem(s, name, price);
      && r.items == s.items + [Entry(name, price)]
      && r.sum == s.sum + price
      && r.cash == s.cash && r.done == s.done
      && r.view == s.view && r.cashLabel == s.cashLabel
  {
    SubtotalSnoc(s.items, Entry(name, price));
  }

  /** Adding an item after a settled sale starts a new sale holding only that item. */
  lemma AddItemStartsNewSale(s: State, name: string, price: int)
    requires s.done
    ensures var r := AddItem(s, name, price);
      && r.items == [Entry(name, price)]
      && r.sum == price
      && r.cash == 0 && !r.done
      && r.view == s.view && r.cashLabel == Tendered(0)
  {
    SubtotalSnoc([], Entry(name, price));
    assert [] + [Entry(name, price)] == [Entry(name, price)];
  }

  /** Zeroing the cash ignores what was tendered: a second reset changes nothing. */
  lemma ResetCashIdempotent(s: State)
    ensures ResetCash(s).cash == 0 && ResetCash(s).cashLabel == Tendered(0)
    ensures ResetCash(ResetCash(s)) == ResetCash(s)
  {
  }

  /** Every press keeps the state consistent. */
  lemma StepConsistent(s: State, i: Intent)
    requires Consistent(s)
    ensures Consistent(Step(s, i))
  {
  }

  /** Every sequence of presses from a consistent state ends in a consistent state. */
  lemma {:induction false} RunConsistent(s: State, trace: seq<Intent>)
    requires Consistent(s)
    ensures Consistent(Run(s, trace))
    decreases |trace|
  {
    if trace != [] {
      StepConsistent(s, trace[0]);
      RunConsistent(Step(s, trace[0]), trace[1..]);
    }
  }

  /** Every state the register reaches from its start is consistent. */
  lemma ReachableConsistent(trace: seq<Intent>)
    ensures Consistent(Run(Initial(), trace))
  {
    RunConsistent(Initial(), trace);
  }

  /** Tapping items into an open sale appends them in tap order and raises the
      sum by their subtotal; cash, flag, screen and cash line are unchanged. */
  lemma {:induction false} FoodTapsOpenSale(s: State, entries: seq<Entry>)
    requires s.sum == Subtotal(s.items) && !s.done && s.view == ItemView
    ensures var r := Run(s, FoodTaps(entries));
      && r.items == s.items + entries
      && r.sum == s.sum + Subtotal(entries)
      && r.cash == s.cash && !r.done
      && r.view == ItemView && r.cashLabel == s.cashLabel
    decreases |entries|
  {
    if entries == [] {
      assert s.items + entries == s.items;
    } else {
      var e, rest := entries[0], entries[1..];
      var t := Step(s, TapFood(e.name, e.price));
      AddItemToOpenSale(s, e.name, e.price);
      assert FoodTaps(entries)[0] == TapFood(e.name, e.price);
      assert FoodTaps(entries)[1..] == FoodTaps(rest);
      assert Run(s, FoodTaps(entries)) == Run(t, FoodTaps(rest));
      FoodTapsOpenSale(t, rest);
      SubtotalCons(e, rest);
      assert entries == [e] + rest;
      assert s.items + [e] + rest == s.items + entries;
    }
  }

  /** Tapping a non-empty list of items after a settled sale leaves exactly
      those items, their subtotal as the sum, no cash and an open sale. */
  lemma FoodTapsAfterSettle(s: State, entries: seq<Entry>)
    requires s.done && s.view == ItemView && entries != []
    ensures var r := Run(s, FoodTaps(entries));
      && r.items == entries
      && r.sum == Subtotal(entries)
      && r.cash == 0 && !r.done
      && r.view == ItemView
  {
    var e := entries[0];
    var t := Step(s, TapFood(e.name, e.price));
    AddItemStartsNewSale(s, e.name, e.price);
    assert FoodTaps(entries)[1..] == FoodTaps(entries[1..]);
    FoodTapsOpenSale(t, entries[1..]);
    assert entries == [e] + entries[1..];
    SubtotalAppend([e], entries[1..]);
    SubtotalSnoc([], e);
    assert [] + [e] == [e];
  }

  /** On the cash pad the item buttons are gone, so item taps change nothing. */
  lemma {:induction false} FoodTapsOnCashPad(s: State, entries: seq<Entry>)
    requires s.view == CashPadView
    ensures Run(s, FoodTaps(entries)) == s
    decreases |entries|
  {
    if entries != [] {
      assert FoodTaps(entries)[1..] == FoodTaps(entries[1..]);
      FoodTapsOnCashPad(s, entries[1..]);
    }
  }

  /** From any consistent state, the sum after tapping the same items does not
      depend on the order of the taps. */
  lemma FoodTapOrderIrrelevant(s: State, a: seq<Entry>, b: seq<Entry>)
    requires Consistent(s)
    requires multiset(a) == multiset(b)
    ensures Run(s, FoodTaps(a)).sum == Run(s, FoodTaps(b)).sum
  {
    SubtotalOrderIndependent(a, b);
    if s.view == CashPadView {
      FoodTapsOnCashPad(s, a);
      FoodTapsOnCashPad(s, b);
    } else if !s.done {
      FoodTapsOpenSale(s, a);
      FoodTapsOpenSale(s, b);
    } else if a != [] {
      assert |b| == |multiset(b)| == |multiset(a)| == |a|;
      FoodTapsAfterSettle(s, a);
      FoodTapsAfterSettle(s, b);
    } else {
      assert |b| == |multiset(b)| == 0;
    }
  }

  /** Whether every tap hits a button of the pad. */
  predicate OnPad(taps: seq<nat>)
  {
    forall i :: 0 <= i < |taps| ==> taps[i] < |CashVals()|
  }

  /** On the cash pad, a sequence of denomination taps raises the cash by the
      total of the tapped values and touches neither the items, the sum nor
      the flag; when every tap hits a button the cash grows by at least one
      cent per tap and the display shows the new cash. */
  lemma {:induction false} CashTapsAccumulate(s: State, taps: seq<nat>)
    requires s.view == CashPadView
    ensures var r := Run(s, CashTaps(taps));
      && r.cash == s.cash + Money.Sum(TapValues(taps))
      && r.items == s.items && r.sum == s.sum && r.done == s.done
      && r.view == CashPadView
      && (OnPad(taps) ==> r.cash >= s.cash + |taps|)
      && (OnPad(taps) && taps != [] ==> r.cashLabel == Tendered(r.cash))
    decreases |taps|
  {
    if taps != [] {
      var t := Step(s, TapCash(taps[0]));
      assert CashTaps(taps)[1..] == CashTaps(taps[1..]);
      CashTapsAccumulate(t, taps[1..]);
      assert TapValues(taps) == [PadValue(taps[0])] + TapValues(taps[1..]);
      Money.SumAppend([PadValue(taps[0])], TapValues(taps[1..]));
      assert [PadValue(taps[0])][..0] == [];
      if taps[1..] == [] {
        assert Run(t, CashTaps(taps[1..])) == t;
      }
    }
    if OnPad(taps) {
      Money.SumOfPositives(TapValues(taps));
    }
  }
}
