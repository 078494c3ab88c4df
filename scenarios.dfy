/** Whole sales driven through the register's buttons, as an operator would
    tap them; each method's assertions follow from the contracts alone. */
module Scenarios {
  import opened Ledger
  import Till
  import opened TouchKasse

  /** Two soups at 3.50 €, then 5 € + 2 € + 50 Cent tendered and "Ok": the
      change shown is 50 cents. The next item tap opens a new sale. */
  method SettleWithChange()
  {
    var reg := new TouchRegister();
    var sold := new SoldCounter();
    var soup := new FoodButton("Soup", 350, sold);
    soup.AttachExternalCallback(reg);
    soup.ButtonCallback();
    soup.ButtonCallback();
    assert reg.displayElements == [Entry("Soup", 350), Entry("Soup", 350)];
    assert reg.currentSum == 700;

    reg.GotCash();
    var pad := reg.GotCashButtonFactory();
    pad[8].ButtonCallback();
    pad[7].ButtonCallback();
    pad[5].ButtonCallback();
    assert reg.currentCash == 750;
    reg.GotCashDone(true);
    assert reg.cashLabel == Till.ChangeDue(50) && reg.transactionDone;
    assert reg.displayElements == [Entry("Soup", 350), Entry("Soup", 350)];
    assert sold.count == 2;

    soup.ButtonCallback();
    assert reg.displayElements == [Entry("Soup", 350)];
    assert reg.currentSum == 350 && reg.currentCash == 0 && !reg.transactionDone;
    assert sold.count == 3;
  }

  /** One soup, 2 € tendered and "Ok": the sale is settled with 1.50 € of
      negative change. "Gegeben" again keeps the 2 €, so 2 € more and "Ok"
      show 50 cents of change. */
  method SettleUnderpaid()
  {
    var reg := new TouchRegister();
    reg.DisplayElementFactory("Soup", 350);
    reg.GotCash();
    reg.CashDisplay(200);
    reg.GotCashDone(true);
    assert reg.transactionDone && reg.cashLabel == Till.ChangeDue(-150);
    assert reg.view == Till.ItemView;

    reg.GotCash();
    assert reg.currentCash == 200;
    reg.CashDisplay(200);
    reg.GotCashDone(true);
    assert reg.cashLabel == Till.ChangeDue(50);
  }

  /** Two different items, then "Löschen" on the item screen: the list and the
      sum are empty again, but the shared sold counter keeps both taps. */
  method ClearBeforeTender()
  {
    var reg := new TouchRegister();
    var sold := new SoldCounter();
    var soup := new FoodButton("Soup", 350, sold);
    var bread := new FoodButton("Bread", 120, sold);
    soup.AttachExternalCallback(reg);
    bread.AttachExternalCallback(reg);
    soup.ButtonCallback();
    bread.ButtonCallback();
    assert reg.currentSum == 470;
    reg.ClearDisplayElementList();
    assert reg.displayElements == [] && reg.currentSum == 0 && reg.currentCash == 0;
    assert sold.count == 2;
  }
}
