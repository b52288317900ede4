// The put-option calculator: a put's value at expiry for a list of stock prices, and
// the intrinsic value at the current price.
module CvxPut {
  const DEFAULT_STRIKE := 149.0
  const DEFAULT_TARGETS: seq<real> := [140.0, 145.0, 149.0, 150.0]

  /** Shares per contract. */
  const CONTRACT_SIZE := 100.0

  /** The put's value at `price`: the strike less the price when in the money, else 0. */
  function PutValue(strike: real, price: real): (v: real)
    ensures v >= 0.0
  {
    if price < strike then strike - price else 0.0
  }

  /** A scenario row: the price, the put's value and the P&L of one contract, which is
      reported only in the money. */
  datatype Scenario = Scenario(price: real, putValue: real, pnl: real)

  function ScenarioAt(strike: real, price: real): Scenario {
    if price < strike then Scenario(price, strike - price, (strike - price) * CONTRACT_SIZE)
    else Scenario(price, 0.0, 0.0)
  }

  /** The table of `check_put_option`: one row per target price, in order. */
  function Scenarios(strike: real, targets: seq<real>): (rows: seq<Scenario>)
    ensures |rows| == |targets|
    ensures forall k :: 0 <= k < |targets| ==> rows[k] == ScenarioAt(strike, targets[k])
  {
    seq(|targets|, k requires 0 <= k < |targets| => ScenarioAt(strike, targets[k]))
  }

  /** Each row's value is the payoff `max(strike − price, 0)` and its P&L 100 times it. */
  lemma ScenarioPayoff(strike: real, price: real)
    ensures ScenarioAt(strike, price).putValue == (if strike - price >= 0.0 then strike - price else 0.0)
    ensures ScenarioAt(strike, price).pnl == CONTRACT_SIZE * ScenarioAt(strike, price).putValue
    ensures ScenarioAt(strike, price).putValue == PutValue(strike, price)
  {
  }

  /** The payoff never rises with the price, and it is 0 from the strike up. */
  lemma PayoffMonotone(strike: real, p: real, q: real)
    requires p <= q
    ensures PutValue(strike, q) <= PutValue(strike, p)
    ensures q >= strike ==> PutValue(strike, q) == 0.0
  {
  }

  /** The report on the current price: the intrinsic value per share and per contract
      in the money, else how far out of the money it is. */
  datatype Standing = InTheMoney(intrinsic: real, perContract: real) | OutOfTheMoney(margin: real)

  function StandingAt(strike: real, current: real): (s: Standing)
    ensures s.InTheMoney? <==> current < strike
    ensures s.InTheMoney? ==> s.intrinsic == PutValue(strike, current) > 0.0 && s.perContract == CONTRACT_SIZE * s.intrinsic
    ensures s.OutOfTheMoney? ==> s.margin >= 0.0 && PutValue(strike, current) == 0.0
  {
    if current < strike then InTheMoney(strike - current, (strike - current) * CONTRACT_SIZE)
    else OutOfTheMoney(current - strike)
  }

  /** The default run: strike 149 over 140, 145, 149 and 150 gives values 9, 4, 0, 0. */
  lemma DefaultScenarios()
    ensures var rows := Scenarios(DEFAULT_STRIKE, DEFAULT_TARGETS);
      rows[0].putValue == 9.0 && rows[1].putValue == 4.0 && rows[2].putValue == 0.0 && rows[3].putValue == 0.0
      && rows[0].pnl == 900.0 && rows[1].pnl == 400.0
  {
  }
}
