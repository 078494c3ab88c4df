# TouchKasse register bookkeeping, in Dafny

TouchKasse is a full-screen touch cash register for a food stand. Its window
shows the items rung up with a running sum ("SUMME") on the left, and on the
right either one button per catalog item with "Gegeben" (cash given) and
"Löschen" (clear), or a cash pad of thirteen coin and note buttons with "Ok",
"Löschen" and "Abbrechen" (cancel).

This project models the transaction bookkeeping of `TouchRegisterUI`. That
bookkeeping is four fields: the list of `(name, price)` entries, the running
sum, the cash tendered and the "sale settled" flag. The callbacks that update
them and the two button classes that feed them are modelled too. Amounts are
integer cents: the source's `0.01` is `1` and `100` € is `10000`.

- `money.dfy` (`Money`): `Sum`, the left-to-right total of a list of amounts.
- `ledger.dfy` (`Ledger`): `Entry`, `Subtotal` and the lemmas about it.
- `denominations.dfy` (`Denominations`): the cash pad's table `CashVals`.
- `till.dfy` (`Till`): the bookkeeping as a state machine over values.
  - One function per callback (`AddItem`, `AddCash`, `ResetCash`,
    `ClearItems`, `ResetTransaction`, `EnterCashPad`, `LeaveCashPad`,
    `RecomputeSum`).
  - `Wired` says which buttons each screen shows. `Step` and `Run` give the
    effect of one press and of a sequence of presses.
  - The lemmas say what sequences of presses do.
- `touchkasse.dfy` (`TouchKasse`): the classes.
  - `TouchRegister` holds the source's fields and updates them in place. The
    loop of `update_sum` is kept. Each method states its whole new state and
    ties it to the matching `Till` function through `Snapshot()`.
  - `FoodButton` and `CashButton` forward taps to the register.
    `SoldCounter` is the one sold counter that all item buttons share.
- `scenarios.dfy` (`Scenarios`): whole sales driven through the register's
  callbacks, some of them through the button objects; the assertions follow
  from the contracts alone.

The code and a fuller till differ in several ways. The model follows the code:

- "Ok" does not check that the cash covers the sum. It shows `cash - sum`
  as change, possibly negative, and marks the sale settled
  (TouchKasse.py:422-428). There is no "insufficient payment" state in which
  the cash pad stays open. See `Scenarios.SettleUnderpaid`.
- Entering the cash pad does not zero the cash (TouchKasse.py:384-412).
  After "Ok", "Gegeben" reopens the pad with the old cash still counted.
- Nothing is saved when a sale is settled. There is no transaction record
  and no per-item sold total. `increment_sold` is an empty stub
  (TouchKasse.py:156-157).
- The item screen has no cancel button, only "Löschen". It clears the list
  and the sum and leaves the cash and the flag alone.
- The sold counter counts taps on item buttons. It is one class-level
  `IntVar` shared by every button (TouchKasse.py:133), and clearing or
  cancelling a sale never lowers it.

## Model

| member | source | states |
|---|---|---|
| `Ledger.SubtotalSnoc` | TouchKasse.py:316-317 | appending one entry raises the subtotal by exactly that entry's price |
| `Ledger.SubtotalOrderIndependent` | TouchKasse.py:439-445 | two item lists with the same entries, in any order, have the same subtotal |
| `Denominations.CashVals` | TouchKasse.py:339-353 | the cash pad has exactly 13 denominations, all strictly positive and strictly increasing, from 1 cent to 100 € (10000 cents) |
| `Denominations.PadValue` | TouchKasse.py:355-361 | a tap on one of the 13 pad buttons tenders a positive amount; a position with no button tenders nothing |
| `Till.AddItemToOpenSale` | TouchKasse.py:289-317 | an item tap on an open sale appends exactly (name, price) at the end and raises the sum by price; cash, flag and cash line stay the same |
| `Till.AddItemStartsNewSale` | TouchKasse.py:290-291 | an item tap after a settled sale leaves the list exactly [(name, price)], the sum equal to price, no cash and the flag cleared |
| `Till.ResetCashIdempotent` | TouchKasse.py:375-377 | resetting the cash leaves it 0, whatever it was, and shows 0; a second reset changes nothing |
| `Till.StepConsistent` | TouchKasse.py:289-445 | every button press keeps the consistency invariant: the sum is the subtotal of the items, the cash is not negative, and on the item screen of an open sale the cash is 0 |
| `Till.RunConsistent` | TouchKasse.py:289-445 | any sequence of presses from a consistent state ends in a consistent state |
| `Till.ReachableConsistent` | TouchKasse.py:192-198 | every state reached from the initial fields by any sequence of presses is consistent |
| `Till.FoodTapsOpenSale` | TouchKasse.py:289-317 | item taps on an open sale append the tapped entries in tap order and raise the sum by their subtotal; cash, flag and screen stay the same |
| `Till.FoodTapsAfterSettle` | TouchKasse.py:289-291 | item taps after a settled sale leave exactly the tapped entries, their subtotal as the sum, no cash and an open sale |
| `Till.FoodTapOrderIrrelevant` | TouchKasse.py:289-317 | from any consistent state (open sale, settled sale, or cash pad), tapping the same items in any order gives the same sum |
| `Till.FoodTapsOnCashPad` | TouchKasse.py:384-388 | while the cash pad is showing, the item buttons are gone, so item taps change nothing |
| `Till.CashTapsAccumulate` | TouchKasse.py:367-368 | on the cash pad, any sequence of denomination taps raises the cash by the total of the tapped values and leaves items, sum and flag alone; with real buttons the cash grows by at least one cent per tap and is shown |
| `Till.Initial` | TouchKasse.py:192-198 | the starting fields: no items, cash 0, sum 0, open sale, item screen, caption on the cash line; this state is consistent |
| `Till.RecomputeSum` | TouchKasse.py:439-445 | the sum becomes the subtotal of the items; no other field changes |
| `Till.AddCash` | TouchKasse.py:367-373 | the cash grows by exactly the value and is shown; items, sum, flag and screen are kept |
| `Till.ResetCash` | TouchKasse.py:375-377 | the cash is 0 and shown as 0, whatever it was; items, sum, flag and screen are kept |
| `Till.ClearItems` | TouchKasse.py:379-382 | no items and sum 0; cash, flag, screen and cash line are kept |
| `Till.ResetTransaction` | TouchKasse.py:432-437 | no items, cash 0, sum 0, flag cleared, 0 shown as cash; screen kept |
| `Till.AddItem` | TouchKasse.py:289-317 | on an open sale (name, price) is appended and cash and cash line are kept; after a settled sale the list is exactly [(name, price)] with cash 0; either way the sum is the subtotal, the flag is cleared and the screen is kept |
| `Till.EnterCashPad` | TouchKasse.py:384-412 | the cash pad shows; items, cash, sum, flag and cash line are kept |
| `Till.LeaveCashPad` | TouchKasse.py:414-430 | the item screen returns; "Ok" shows cash minus sum as change unchecked, sets the flag and keeps items, cash and sum; "Abbrechen" leaves no items, cash 0, sum 0, flag cleared |
| `Till.Wired` | TouchKasse.py:319-335 | a wired button lives on the item screen exactly when it is an item button, "Gegeben" or "Löschen"; a pad position with no button is never wired |
| `Till.Step` | TouchKasse.py:384-430 | a press on a button not on the screen changes nothing; "Gegeben" opens the pad, "Ok" and "Abbrechen" close it, and no other press changes the screen |
| `TouchKasse.TouchRegister.constructor` | TouchKasse.py:192-198 | a new register has no items, no cash, sum 0, an open sale and the item screen |
| `TouchKasse.TouchRegister.UpdateSum` | TouchKasse.py:439-445 | the loop leaves the sum equal to the sum of the item prices; nothing else changes |
| `TouchKasse.TouchRegister.CashDisplay` | TouchKasse.py:367-373 | the cash grows by exactly the tapped value and is shown; items, sum, flag and screen are unchanged |
| `TouchKasse.TouchRegister.ResetCashDisplay` | TouchKasse.py:375-377 | the cash becomes 0 and is shown as 0; items, sum, flag and screen are unchanged |
| `TouchKasse.TouchRegister.ClearDisplayElementList` | TouchKasse.py:379-382 | the list becomes empty and the sum 0; cash, flag, screen and cash line are unchanged |
| `TouchKasse.TouchRegister.ResetTransaction` | TouchKasse.py:432-437 | no items, no cash, sum 0, flag cleared, 0 shown as cash; screen unchanged |
| `TouchKasse.TouchRegister.DisplayElementFactory` | TouchKasse.py:289-317 | an open sale gets (name, price) appended, the sum raised by price and cash unchanged; after a settled sale the list is exactly [(name, price)], sum price, cash 0; the flag is cleared either way |
| `TouchKasse.TouchRegister.GotCash` | TouchKasse.py:384-412 | only the screen changes, to the cash pad; items, cash, sum and flag are unchanged |
| `TouchKasse.TouchRegister.GotCashDone` | TouchKasse.py:414-430 | the item screen returns; "Ok" shows cash minus sum as change with no check that it is non-negative, sets the flag and keeps items, cash and sum; "Abbrechen" leaves no items, cash 0, sum 0 and the flag cleared |
| `TouchKasse.TouchRegister.FoodElementFactory` | TouchKasse.py:272-287 | one new item button per catalog row, in order, with that row's name and price, the shared sold counter, and taps wired to this register |
| `TouchKasse.TouchRegister.GotCashButtonFactory` | TouchKasse.py:337-365 | one new cash button per denomination, in table order, with its caption and value, wired to this register |
| `TouchKasse.SoldCounter.constructor` | TouchKasse.py:133 | the shared sold counter starts at 0 |
| `TouchKasse.FoodButton.constructor` | TouchKasse.py:138-141 | the button keeps its name, price and counter and has no callback yet |
| `TouchKasse.FoodButton.AttachExternalCallback` | TouchKasse.py:150-151 | taps are forwarded to the given register from now on |
| `TouchKasse.FoodButton.ButtonCallback` | TouchKasse.py:143-148 | the shared sold counter rises by exactly 1; once attached, the register rings up (name, price) |
| `TouchKasse.CashButton.constructor` | TouchKasse.py:176-179 | the button keeps its caption and value and has no callback yet |
| `TouchKasse.CashButton.AttachExternalCallback` | TouchKasse.py:185-186 | taps are forwarded to the given register from now on |
| `TouchKasse.CashButton.ButtonCallback` | TouchKasse.py:181-183 | once attached, the register's cash grows by exactly the button's value |

## Left out

- Widgets: all tkinter construction, packing, frame clearing and re-creation, fonts and label text formatting. The `view` field records which screen is showing. `Till.Wired` records which callbacks that screen's buttons invoke. The cash line is the datatype `Till.CashLabel`, not text.
- The "SUMME" line: `update_sum` writes the sum it computes to that line. The model keeps only `currentSum`. It equals what the line shows from the first `update_sum` on. Before that, the line shows only the caption "SUMME" (TouchKasse.py:224-225), while `currentSum` is 0.
- `function_element_factory`: it only builds the "Gegeben" and "Löschen" buttons. Their wiring is part of `Till.Wired`.
- `DBAccess` and every sqlite call: these are I/O through a foreign library. `FoodElementFactory` takes the catalog rows as a parameter instead of reading the table.
- `FoodButtonItem.db_get`, `get_sold`, `get_name` and the empty `increment_sold`: these are database reads, accessors, or a stub with no behaviour.
- The `eval`-built button objects: modelled as direct construction.
- Binary floating-point amounts: amounts are integer cents, so float rounding and `.02f` formatting are not modelled.
- The `print` in `FoodButtonItem.button_callback`: console output.
- The unused class attributes `total_cash` and `button_elements`.
- The list `display_elements` is a class attribute, so it is shared by every `TouchRegisterUI` instance. The model has one register object owning its own list. The program creates only one instance.
- The tkinter event loop: presses are modelled as delivered one at a time, in order.
- Presses on buttons that are not on the current screen: such a press cannot happen, and `Till.Step` treats it as changing nothing.
