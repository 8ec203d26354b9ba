/**
 * The price ticker: remembers the last price it showed and whether the newest
 * price went up or down, so that the price can flash; a timer later returns
 * the direction to neutral.
 */
module PriceTicker {

  datatype Direction = Neutral | Up | Down

  datatype TickerState = TickerState(prevPrice: real, priceChange: Direction)

  /** The state on mount: the first price, no direction. */
  function Initial(price: real): (s: TickerState)
    ensures s.prevPrice == price && s.priceChange == Neutral
  {
    TickerState(price, Neutral)
  }

  /**
   * The effect run for a new price: a different price is remembered, with the
   * direction of the change; the same price changes nothing.
   */
  function Step(s: TickerState, price: real): (t: TickerState)
    ensures t.prevPrice == price
    ensures price > s.prevPrice ==> t.priceChange == Up
    ensures price < s.prevPrice ==> t.priceChange == Down
    ensures t == s <==> price == s.prevPrice
  {
    if price != s.prevPrice then TickerState(price, if price > s.prevPrice then Up else Down) else s
  }

  /** The reset timer firing: the direction returns to neutral, the price stays. */
  function Settle(s: TickerState): (t: TickerState)
    ensures t.prevPrice == s.prevPrice && t.priceChange == Neutral
  {
    s.(priceChange := Neutral)
  }

  /** The state after the prices `prices` arrive one after the other. */
  function Run(s: TickerState, prices: seq<real>): TickerState
  {
    if prices == [] then s else Step(Run(s, prices[..|prices| - 1]), prices[|prices| - 1])
  }

  /** The price the ticker compared `prices[k]` with: the one before it, or the starting price. */
  function Before(s: TickerState, prices: seq<real>, k: nat): real
    requires k < |prices|
  {
    if k == 0 then s.prevPrice else prices[k - 1]
  }

  /** After any non-empty run the remembered price is the last price. */
  lemma RunRemembersLast(s: TickerState, prices: seq<real>)
    requires |prices| > 0
    ensures Run(s, prices).prevPrice == prices[|prices| - 1]
  {
  }

  /** A run of prices that all equal the remembered one changes nothing. */
  lemma {:induction false} RunOfSamePriceIsIdle(s: TickerState, prices: seq<real>)
    requires forall i :: 0 <= i < |prices| ==> prices[i] == s.prevPrice
    ensures Run(s, prices) == s
    decreases |prices|
  {
    if prices != [] {
      RunOfSamePriceIsIdle(s, prices[..|prices| - 1]);
    }
  }

  /**
   * The direction shown after a run is that of the last real change: when
   * `prices[k]` differed from the price before it and every later price
   * repeats it, the direction is up exactly when `prices[k]` was higher.
   */
  lemma {:induction false} RunShowsLastChange(s: TickerState, prices: seq<real>, k: nat)
    requires k < |prices| && prices[k] != Before(s, prices, k)
    requires forall j :: k < j < |prices| ==> prices[j] == prices[k]
    ensures Run(s, prices).priceChange == (if prices[k] > Before(s, prices, k) then Up else Down)
    decreases |prices|
  {
    var init := prices[..|prices| - 1];
    if k == |prices| - 1 {
      if k > 0 {
        RunRemembersLast(s, init);
      }
    } else {
      assert Before(s, init, k) == Before(s, prices, k);
      RunShowsLastChange(s, init, k);
      RunRemembersLast(s, init);
    }
  }

  /** The ticker component: its two state fields, updated in place by its effect. */
  class Ticker {
    var prevPrice: real
    var priceChange: Direction

    ghost function State(): TickerState
      reads this
    {
      TickerState(prevPrice, priceChange)
    }

    constructor (price: real)
      ensures State() == Initial(price)
    {
      prevPrice := price;
      priceChange := Neutral;
    }

    /** The effect, run with the price the ticker is rendered with. */
    method OnPrice(price: real)
      modifies this
      ensures State() == Step(old(State()), price)
    {
      if price != prevPrice {
        priceChange := if price > prevPrice then Up else Down;
        prevPrice := price;
      }
    }

    /** The reset timer of the effect firing. */
    method OnResetTimer()
      modifies this`priceChange
      ensures State() == Settle(old(State()))
    {
      priceChange := Neutral;
    }
  }
}
