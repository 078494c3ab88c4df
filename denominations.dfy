/** The coins and notes of the cash pad. */
module Denominations {

  /** One button of the cash pad: its caption and the amount it tenders, in cents. */
  datatype Denomination = Denomination(name: string, cents: int)

  /** The cash pad's buttons in the order they are laid out: 1 cent up to 100 euros. */
  function CashVals(): (d: seq<Denomination>)
    ensures |d| == 13
    ensures d[0].cents == 1 && d[12].cents == 10000
    ensures forall i :: 0 <= i < |d| ==> d[i].cents > 0
    ensures forall i :: 0 <= i < |d| - 1 ==> d[i].cents < d[i + 1].cents
  {
    [ Denomination("1 Cent", 1),
      Denomination("2 Cent", 2),
      Denomination("5 Cent", 5),
      Denomination("10 Cent", 10),
      Denomination("20 Cent", 20),
      Denomination("50 Cent", 50),
      Denomination("1 €", 100),
      Denomination("2 €", 200),
      Denomination("5 €", 500),
      Denomination("10 €", 1000),
      Denomination("20 €", 2000),
      Denomination("50 €", 5000),
      Denomination("100 €", 10000) ]
  }

  /** The amount tendered by the button at position k of the pad; a position
      with no button tenders nothing. */
  function PadValue(k: nat): (v: int)
    ensures k < |CashVals()| ==> v > 0
    ensures k >= |CashVals()| ==> v == 0
  {
    if k < |CashVals()| then CashVals()[k].cents else 0
  }

  /** The amounts tendered by a sequence of taps on pad positions, in order. */
  function TapValues(taps: seq<nat>): (values: seq<int>)
  {
    seq(|taps|, i requires 0 <= i < |taps| => PadValue(taps[i]))
  }
}
