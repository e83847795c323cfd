/**
 * The payoff evaluator of src/payoff_diagram.py: profit or loss at expiration for
 * a settlement price, and the 51-point price grid the diagram is sampled on.
 *
 * As in the calculator, premiums are per share times quantity while intrinsic
 * value is multiplied by the contract size 100. The total is rounded to cents
 * with half-even rounding, not the calculator's half-up.
 */
module PayoffDiagram {
  import opened Money
  import opened Models
  import opened StrategyCalculator

  /** Points in the sampled curve, and the number of steps between its ends. */
  const GridPoints: nat := 51
  const GridSteps: nat := 50

  /** What the option is worth at expiration: max(0, S - K) for a call, max(0, K - S) for a put. */
  function IntrinsicValue(optionType: OptionType, strike: real, price: real): (r: real)
    ensures r >= 0.0
    ensures optionType == Call ==> r >= price - strike && (r == 0.0 || r == price - strike)
    ensures optionType == Put ==> r >= strike - price && (r == 0.0 || r == strike - price)
  {
    if optionType == Call then Max(0.0, price - strike) else Max(0.0, strike - price)
  }

  /**
   * One leg's profit at expiration: a bought leg receives the intrinsic value on
   * 100 shares per contract and paid the ask; a sold leg received the bid and
   * owes the intrinsic value. The premium part is exactly the leg's cash flow in
   * the calculator's net premium.
   */
  function LegPayoff(leg: OptionLeg, price: real): (r: real)
    ensures var settlement := Times(IntrinsicValue(leg.contract.optionType, leg.contract.strike, price) * ContractSize, leg.quantity);
      r == LegPremium(leg) + (if leg.action == Buy then settlement else -settlement)
  {
    var intrinsic := IntrinsicValue(leg.contract.optionType, leg.contract.strike, price);
    var settlement := Times(intrinsic * ContractSize, leg.quantity);
    if leg.action == Buy then settlement - Times(leg.contract.ask, leg.quantity)
    else Times(leg.contract.bid, leg.quantity) - settlement
  }

  /** The unrounded sum of the legs' payoffs, accumulated from the first leg on. */
  function RawPayoff(legs: seq<OptionLeg>, price: real): real {
    if legs == [] then 0.0
    else RawPayoff(legs[..|legs| - 1], price) + LegPayoff(legs[|legs| - 1], price)
  }

  /** The strategy's payoff at `price`: the sum of its legs, rounded half-even to cents. */
  function PayoffAt(legs: seq<OptionLeg>, price: real): (r: real)
    ensures IsCents(r) && Abs(r - RawPayoff(legs, price)) <= 0.005
  {
    RoundHalfEven(RawPayoff(legs, price))
  }

  /** The loop of `_calculate_payoff_at_price`. */
  method CalculatePayoffAtPrice(legs: seq<OptionLeg>, price: real) returns (total: real)
    ensures total == PayoffAt(legs, price)
    ensures IsCents(total) && Abs(total - RawPayoff(legs, price)) <= 0.005
  {
    var sum := 0.0;
    for i := 0 to |legs|
      invariant sum == RawPayoff(legs[..i], price)
    {
      var leg := legs[i];
      var intrinsic := IntrinsicValue(leg.contract.optionType, leg.contract.strike, price);
      var positionPayoff;
      if leg.action == Buy {
        positionPayoff := Times(intrinsic * ContractSize, leg.quantity) - Times(leg.contract.ask, leg.quantity);
      } else {
        positionPayoff := Times(leg.contract.bid, leg.quantity) - Times(intrinsic * ContractSize, leg.quantity);
      }
      sum := sum + positionPayoff;
      assert legs[..i + 1][..i] == legs[..i];
    }
    assert legs[..|legs|] == legs;
    total := RoundHalfEven(sum);
  }

  /** The payoff of one or two legs, written out. */
  lemma {:induction false} RawPayoffOfLegs(legs: seq<OptionLeg>, price: real)
    requires 1 <= |legs| <= 2
    ensures |legs| == 1 ==> RawPayoff(legs, price) == LegPayoff(legs[0], price)
    ensures |legs| == 2 ==> RawPayoff(legs, price) == LegPayoff(legs[0], price) + LegPayoff(legs[1], price)
  {
    if |legs| == 1 {
      assert legs[..0] == [];
    } else {
      var first := legs[..1];
      assert legs[..|legs| - 1] == first && first[..0] == [] && first[0] == legs[0];
      assert RawPayoff(first, price) == LegPayoff(legs[0], price);
    }
  }

  // ---------------------------------------------------------------------------
  // One leg

  /** A bought leg never loses more than the ask paid; a sold leg never gains more than the bid. */
  lemma LegPayoffBounds(leg: OptionLeg, price: real)
    requires leg.quantity > 0
    ensures leg.action == Buy ==> LegPayoff(leg, price) >= -Times(leg.contract.ask, leg.quantity)
    ensures leg.action == Sell ==> LegPayoff(leg, price) <= Times(leg.contract.bid, leg.quantity)
  {
    var intrinsic := IntrinsicValue(leg.contract.optionType, leg.contract.strike, price);
    assert Times(intrinsic * ContractSize, leg.quantity) >= 0.0;
  }

  /**
   * A call's payoff moves with the price: a bought call never falls as the price
   * rises, a sold call never rises. A put moves the other way.
   */
  lemma LegPayoffMonotone(leg: OptionLeg, lo: real, hi: real)
    requires leg.quantity > 0 && lo <= hi
    ensures leg.action == Buy && leg.contract.optionType == Call ==> LegPayoff(leg, lo) <= LegPayoff(leg, hi)
    ensures leg.action == Sell && leg.contract.optionType == Call ==> LegPayoff(leg, lo) >= LegPayoff(leg, hi)
    ensures leg.action == Buy && leg.contract.optionType == Put ==> LegPayoff(leg, lo) >= LegPayoff(leg, hi)
    ensures leg.action == Sell && leg.contract.optionType == Put ==> LegPayoff(leg, lo) <= LegPayoff(leg, hi)
  {
    var c := leg.contract;
    var a := IntrinsicValue(c.optionType, c.strike, lo) * ContractSize;
    var b := IntrinsicValue(c.optionType, c.strike, hi) * ContractSize;
    TimesSub(b, a, leg.quantity);
    TimesSub(a, b, leg.quantity);
    if c.optionType == Call {
      assert a <= b;
    } else {
      assert b <= a;
    }
  }

  // ---------------------------------------------------------------------------
  // The price grid and the sampled curve

  /**
   * The diagram's prices: 51 evenly spaced points from half the current price to
   * one and a half times it, both ends included.
   */
  function PriceGrid(currentPrice: real): (prices: seq<real>)
    ensures |prices| == GridPoints
    ensures prices[0] == currentPrice * 0.5 && prices[GridSteps] == currentPrice * 1.5
    ensures forall i :: 0 <= i < GridSteps ==> prices[i + 1] - prices[i] == currentPrice / 50.0
  {
    var minPrice, maxPrice := currentPrice * 0.5, currentPrice * 1.5;
    var prices := seq(GridPoints, i requires 0 <= i < GridPoints => minPrice + i as real * (maxPrice - minPrice) / 50.0);
    forall i | 0 <= i < GridSteps
      ensures prices[i + 1] - prices[i] == currentPrice / 50.0
    {
      GridStep(i, maxPrice - minPrice);
    }
    prices
  }

  lemma GridStep(i: int, width: real)
    ensures (i + 1) as real * width / 50.0 - i as real * width / 50.0 == width / 50.0
  {
    assert (i + 1) as real * width == i as real * width + width;
  }

  /** On a positive current price the grid rises strictly. */
  lemma PriceGridIncreasing(currentPrice: real, i: int, j: int)
    requires currentPrice > 0.0 && 0 <= i < j < GridPoints
    ensures PriceGrid(currentPrice)[i] < PriceGrid(currentPrice)[j]
    decreases j - i
  {
    var prices := PriceGrid(currentPrice);
    if j > i + 1 {
      PriceGridIncreasing(currentPrice, i, j - 1);
    }
    assert prices[j] - prices[j - 1] == currentPrice / 50.0;
  }

  /**
   * The computation of `generate_payoff_diagram` before plotting: the grid and
   * the payoff at each of its points.
   */
  method GeneratePayoffCurve(strategy: Strategy, currentPrice: real) returns (prices: seq<real>, payoffs: seq<real>)
    ensures prices == PriceGrid(currentPrice)
    ensures |payoffs| == GridPoints
    ensures forall i :: 0 <= i < GridPoints ==> payoffs[i] == PayoffAt(strategy.legs, prices[i])
  {
    prices := PriceGrid(currentPrice);
    payoffs := [];
    for k := 0 to |prices|
      invariant |payoffs| == k
      invariant forall i :: 0 <= i < k ==> payoffs[i] == PayoffAt(strategy.legs, prices[i])
    {
      var payoff := CalculatePayoffAtPrice(strategy.legs, prices[k]);
      payoffs := payoffs + [payoff];
    }
  }

  // ---------------------------------------------------------------------------
  // The diagram against the calculator

  /**
   * A bought put whose strike sits inside the grid, well above its low end: the
   * diagram starts in profit and ends at a loss of the premium.
   */
  lemma LongPutGridEnds(leg: OptionLeg, currentPrice: real)
    requires leg.action == Buy && leg.contract.optionType == Put && leg.quantity > 0
    requires leg.contract.ask >= 0.01
    requires leg.contract.strike <= currentPrice * 1.5
    requires (leg.contract.strike - currentPrice * 0.5) * ContractSize >= leg.contract.ask + 0.01
    ensures PayoffAt([leg], PriceGrid(currentPrice)[0]) > 0.0
    ensures PayoffAt([leg], PriceGrid(currentPrice)[GridSteps]) < 0.0
  {
    var low, high := currentPrice * 0.5, currentPrice * 1.5;
    var c, q := leg.contract, leg.quantity;
    RawPayoffOfLegs([leg], low);
    RawPayoffOfLegs([leg], high);
    assert IntrinsicValue(Put, c.strike, low) == c.strike - low;
    TimesSub((c.strike - low) * ContractSize, c.ask, q);
    TimesAtLeast((c.strike - low) * ContractSize - c.ask, 0.01, q);
    assert RawPayoff([leg], low) >= 0.01;
    assert IntrinsicValue(Put, c.strike, high) == 0.0;
    TimesAtLeast(c.ask, 0.01, q);
    assert RawPayoff([leg], high) <= -0.01;
  }

  /**
   * A sold call whose strike sits inside the grid, well below its high end: the
   * diagram starts at the premium kept and ends at a loss.
   */
  lemma ShortCallGridEnds(leg: OptionLeg, currentPrice: real)
    requires leg.action == Sell && leg.contract.optionType == Call && leg.quantity > 0
    requires leg.contract.bid >= 0.01
    requires currentPrice * 0.5 <= leg.contract.strike
    requires (currentPrice * 1.5 - leg.contract.strike) * ContractSize >= leg.contract.bid + 0.01
    ensures PayoffAt([leg], PriceGrid(currentPrice)[0]) > 0.0
    ensures PayoffAt([leg], PriceGrid(currentPrice)[GridSteps]) < 0.0
  {
    var low, high := currentPrice * 0.5, currentPrice * 1.5;
    var c, q := leg.contract, leg.quantity;
    RawPayoffOfLegs([leg], low);
    RawPayoffOfLegs([leg], high);
    assert IntrinsicValue(Call, c.strike, low) == 0.0;
    TimesAtLeast(c.bid, 0.01, q);
    assert RawPayoff([leg], low) >= 0.01;
    assert IntrinsicValue(Call, c.strike, high) == high - c.strike;
    TimesSub((high - c.strike) * ContractSize, c.bid, q);
    TimesAtLeast((high - c.strike) * ContractSize - c.bid, 0.01, q);
    assert RawPayoff([leg], high) <= -0.01;
  }

  /** The debit call spread the next lemma is about: buy the lower call, sell the higher, one each, cent prices. */
  predicate DebitCallSpread(legs: seq<OptionLeg>) {
    && |legs| == 2
    && legs[0].action == Buy && legs[1].action == Sell
    && legs[0].contract.optionType == Call && legs[1].contract.optionType == Call
    && legs[0].quantity == 1 && legs[1].quantity == 1
    && legs[0].contract.strike < legs[1].contract.strike
    && IsCents(legs[0].contract.strike) && IsCents(legs[1].contract.strike)
    && IsCents(legs[0].contract.ask) && IsCents(legs[1].contract.bid)
    && legs[1].contract.bid < legs[0].contract.ask
  }

  /**
   * For a debit call spread the diagram agrees with the calculator: at or above
   * the upper strike the payoff is the max profit, at or below the lower strike it
   * is the net premium paid, and in between it stays within [-max loss, max profit].
   */
  lemma DebitCallSpreadPayoff(s: Strategy, price: real)
    requires DebitCallSpread(s.legs)
    ensures MetricsOf(s).Ok?
    ensures price >= s.legs[1].contract.strike ==> PayoffAt(s.legs, price) == MetricsOf(s).value.maxProfit
    ensures price <= s.legs[0].contract.strike ==> PayoffAt(s.legs, price) == MetricsOf(s).value.netPremium
    ensures -MetricsOf(s).value.maxLoss <= PayoffAt(s.legs, price) <= MetricsOf(s).value.maxProfit
  {
    var legs := s.legs;
    var low, high := legs[0].contract, legs[1].contract;
    // The calculator's side: the net premium is the cent-valued debit bid - ask.
    RawNetPremiumOfLegs(legs);
    var raw := high.bid - low.ask;
    assert RawNetPremium(legs) == raw;
    CentsAdd(high.bid, low.ask);
    RoundCentsExact(raw);
    var net := NetPremium(legs);
    assert net == raw < 0.0;
    var spread := (high.strike - low.strike) * ContractSize;
    assert SpreadValue(legs) == spread;
    CentsAdd(high.strike, low.strike);
    CentsHundredfold(high.strike - low.strike);
    CentsAdd(spread, net);
    MetricsFields(s);
    var m := MetricsOf(s).value;
    assert m.netPremium == net && m.maxProfit == spread + net && m.maxLoss == -net;
    // The diagram's side.
    RawPayoffOfLegs(legs, price);
    var payoff := RawPayoff(legs, price);
    var i0 := IntrinsicValue(Call, low.strike, price);
    var i1 := IntrinsicValue(Call, high.strike, price);
    assert payoff == i0 * ContractSize - low.ask + high.bid - i1 * ContractSize;
    if price >= high.strike {
      assert payoff == spread + net;
      RoundCentsExact(spread + net);
    } else if price <= low.strike {
      assert payoff == net;
    } else {
      assert payoff == (price - low.strike) * ContractSize + net;
    }
    RoundWithinCentBounds(payoff, net, spread + net);
  }
}
