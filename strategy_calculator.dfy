/**
 * The metrics calculator of src/strategy_calculator.py: net premium, maximum
 * profit and loss, the single breakeven, margin and return on margin of a one- or
 * two-leg strategy, in exact decimals.
 *
 * Units, kept exactly as the calculator uses them: the net premium is a
 * per-share price times quantity (NOT times the contract size), while the
 * two-leg spread value is a strike difference times the contract size 100. The
 * single-leg breakeven adds |net premium| to the strike directly; the two-leg
 * breakeven first divides the net premium by 100.
 */
module StrategyCalculator {
  import opened Wrappers
  import opened Money
  import opened Models

  /** The number that stands for an unlimited profit or loss. */
  const Unlimited: real := 99999.0

  /** `CalculationError`: the strategy does not have one or two legs. */
  datatype CalculationError = WrongLegCount(count: nat)

  // ---------------------------------------------------------------------------
  // Net premium

  /**
   * The cash flow of opening one leg: a sale receives the bid, a purchase pays
   * the ask, each per share and times the quantity.
   */
  function LegPremium(leg: OptionLeg): real {
    var price := if leg.action == Sell then leg.contract.bid else leg.contract.ask;
    var premium := Times(price, leg.quantity);
    if leg.action == Sell then premium else -premium
  }

  /** The unrounded sum of the legs' premiums, accumulated from the first leg on. */
  function RawNetPremium(legs: seq<OptionLeg>): real {
    if legs == [] then 0.0
    else RawNetPremium(legs[..|legs| - 1]) + LegPremium(legs[|legs| - 1])
  }

  /** Net premium: positive for a credit, negative for a debit; rounded half-up once, at the end. */
  function NetPremium(legs: seq<OptionLeg>): (r: real)
    ensures IsCents(r) && Abs(r - RawNetPremium(legs)) <= 0.005
  {
    RoundHalfUp(RawNetPremium(legs))
  }

  /** The accumulation loop of `_calculate_net_premium`. */
  method CalculateNetPremium(legs: seq<OptionLeg>) returns (net: real)
    ensures net == NetPremium(legs)
    ensures IsCents(net) && Abs(net - RawNetPremium(legs)) <= 0.005
  {
    var sum := 0.0;
    for i := 0 to |legs|
      invariant sum == RawNetPremium(legs[..i])
    {
      var leg := legs[i];
      var price := if leg.action == Sell then leg.contract.bid else leg.contract.ask;
      var premium := Times(price, leg.quantity);
      sum := sum + (if leg.action == Sell then premium else -premium);
      assert legs[..i + 1][..i] == legs[..i];
    }
    assert legs[..|legs|] == legs;
    net := RoundHalfUp(sum);
  }

  /** The net premium of one or two legs, written out. */
  lemma {:induction false} RawNetPremiumOfLegs(legs: seq<OptionLeg>)
    requires 1 <= |legs| <= 2
    ensures |legs| == 1 ==> RawNetPremium(legs) == LegPremium(legs[0])
    ensures |legs| == 2 ==> RawNetPremium(legs) == LegPremium(legs[0]) + LegPremium(legs[1])
  {
    if |legs| == 1 {
      assert legs[..0] == [];
    } else {
      var first := legs[..1];
      assert legs[..|legs| - 1] == first && first[..0] == [] && first[0] == legs[0];
      assert RawNetPremium(first) == LegPremium(legs[0]);
    }
  }

  /**
   * On well-formed legs, selling only can never make a debit, and buying only can
   * never make a credit.
   */
  lemma {:induction false} RawNetPremiumSign(legs: seq<OptionLeg>)
    requires forall i :: 0 <= i < |legs| ==> ValidLeg(legs[i])
    ensures (forall i :: 0 <= i < |legs| ==> legs[i].action == Sell) ==> RawNetPremium(legs) >= 0.0
    ensures (forall i :: 0 <= i < |legs| ==> legs[i].action == Buy) ==> RawNetPremium(legs) <= 0.0
  {
    if legs != [] {
      var init, last := legs[..|legs| - 1], legs[|legs| - 1];
      assert forall i :: 0 <= i < |init| ==> init[i] == legs[i];
      RawNetPremiumSign(init);
      LegPremiumSign(last);
    }
  }

  /** A well-formed sale brings in a non-negative premium; a purchase pays one. */
  lemma LegPremiumSign(leg: OptionLeg)
    requires ValidLeg(leg)
    ensures leg.action == Sell ==> LegPremium(leg) >= 0.0
    ensures leg.action == Buy ==> LegPremium(leg) <= 0.0
  {
  }

  // ---------------------------------------------------------------------------
  // Maximum profit and loss

  /** The lower of the two strikes. */
  function LowerStrike(legs: seq<OptionLeg>): real
    requires |legs| == 2
  {
    Min(legs[0].contract.strike, legs[1].contract.strike)
  }

  /** The higher of the two strikes. */
  function UpperStrike(legs: seq<OptionLeg>): real
    requires |legs| == 2
  {
    Max(legs[0].contract.strike, legs[1].contract.strike)
  }

  /** Strike width of a two-leg spread times the contract size. */
  function SpreadValue(legs: seq<OptionLeg>): (r: real)
    requires |legs| == 2
    ensures r == Abs(legs[0].contract.strike - legs[1].contract.strike) * ContractSize
  {
    (UpperStrike(legs) - LowerStrike(legs)) * ContractSize
  }

  /**
   * `_calculate_max_profit`: one leg — a bought call is unlimited, a sold leg
   * keeps the net premium, a bought put |net premium|; two legs — the net premium
   * on a credit (net >= 0), otherwise the spread value plus the (negative) net.
   */
  function MaxProfit(legs: seq<OptionLeg>, net: real): (r: real)
    requires 1 <= |legs| <= 2
    ensures |legs| == 1 && legs[0].action == Buy && legs[0].contract.optionType == Call ==> r == Unlimited
    ensures |legs| == 1 && (legs[0].action == Sell || legs[0].contract.optionType == Put) ==> Abs(r) == Abs(net)
    ensures |legs| == 2 && net >= 0.0 ==> r == net
    ensures |legs| == 2 && net < 0.0 ==> r < SpreadValue(legs)
  {
    if |legs| == 1 then
      var leg := legs[0];
      if leg.action == Buy && leg.contract.optionType == Call then Unlimited
      else if leg.action == Sell then net
      else Abs(net)
    else if net >= 0.0 then net
    else SpreadValue(legs) + net
  }

  /**
   * `_calculate_max_loss`: one leg — |net premium| when bought, unlimited when
   * sold; two legs — the spread value less the credit, or |net| on a debit.
   */
  function MaxLoss(legs: seq<OptionLeg>, net: real): (r: real)
    requires 1 <= |legs| <= 2
    ensures |legs| == 2 ==> MaxProfit(legs, net) + r == SpreadValue(legs)
    ensures net < 0.0 && (|legs| == 2 || legs[0].action == Buy) ==> r == -net
    ensures |legs| == 1 && legs[0].action == Sell ==> r == Unlimited
  {
    if |legs| == 1 then
      if legs[0].action == Buy then Abs(net) else Unlimited
    else if net >= 0.0 then SpreadValue(legs) - net
    else Abs(net)
  }

  // ---------------------------------------------------------------------------
  // Breakeven

  /**
   * `_calculate_breakeven_points`, whose list always has this one entry. One
   * leg: strike plus |net| for a call, strike minus |net| for a put (no division
   * by 100). Two legs: lower strike plus net/100 if either leg is a call,
   * otherwise upper strike minus net/100. Rounded half-up to cents.
   */
  function Breakeven(legs: seq<OptionLeg>, net: real): (r: real)
    requires 1 <= |legs| <= 2
    ensures IsCents(r)
    ensures |legs| == 1 ==> Abs(r - legs[0].contract.strike) <= Abs(net) + 0.005
    ensures |legs| == 2 ==> LowerStrike(legs) - Abs(net) / 100.0 - 0.005 <= r <= UpperStrike(legs) + Abs(net) / 100.0 + 0.005
  {
    if |legs| == 1 then
      var strike := legs[0].contract.strike;
      var premiumAmount := Abs(net);
      RoundHalfUp(if legs[0].contract.optionType == Call then strike + premiumAmount else strike - premiumAmount)
    else
      var premiumPerShare := net / ContractSize;
      var anyCall := legs[0].contract.optionType == Call || legs[1].contract.optionType == Call;
      RoundHalfUp(if anyCall then LowerStrike(legs) + premiumPerShare else UpperStrike(legs) - premiumPerShare)
  }

  // ---------------------------------------------------------------------------
  // Margin and return on margin

  /** `_calculate_margin_requirement`: the max loss on a credit, |net| on a debit. */
  function MarginRequirement(maxLoss: real, net: real): (r: real)
    ensures r == maxLoss || (net < 0.0 && r == -net)
    ensures maxLoss >= 0.0 ==> r >= 0.0
  {
    if net >= 0.0 then maxLoss else Abs(net)
  }

  /**
   * `_calculate_return_on_margin`: zero unless the margin is positive and both it
   * and the max profit are below the unlimited sentinel; otherwise the profit as
   * a percentage of the margin, rounded half-up to cents.
   */
  function ReturnOnMargin(maxProfit: real, margin: real): (r: real)
    ensures r != 0.0 ==> 0.0 < margin < Unlimited && maxProfit < Unlimited
    ensures 0.0 < margin < Unlimited && maxProfit < Unlimited ==>
              IsCents(r) && Abs(r - maxProfit / margin * 100.0) <= 0.005
  {
    if margin <= 0.0 || maxProfit >= Unlimited || margin >= Unlimited then 0.0
    else RoundHalfUp((maxProfit / margin) * 100.0)
  }

  // ---------------------------------------------------------------------------
  // The whole calculation

  /**
   * `calculate_strategy_metrics`: a `CalculationError` unless there are one or two
   * legs (checked even though `Strategy` checks it too), otherwise the six metrics.
   */
  function MetricsOf(s: Strategy): (r: Result<StrategyMetrics, CalculationError>)
    ensures r.Err? <==> |s.legs| == 0 || |s.legs| > 2
    ensures r.Err? ==> r.error == WrongLegCount(|s.legs|)
    ensures r.Ok? ==> |r.value.breakevenPoints| == 1 && IsCents(r.value.netPremium)
  {
    if |s.legs| == 0 || |s.legs| > 2 then Err(WrongLegCount(|s.legs|))
    else
      var net := NetPremium(s.legs);
      var maxProfit := MaxProfit(s.legs, net);
      var maxLoss := MaxLoss(s.legs, net);
      var margin := MarginRequirement(maxLoss, net);
      Ok(StrategyMetrics(net, maxProfit, maxLoss, [Breakeven(s.legs, net)], margin, ReturnOnMargin(maxProfit, margin)))
  }

  method CalculateStrategyMetrics(s: Strategy) returns (r: Result<StrategyMetrics, CalculationError>)
    ensures r == MetricsOf(s)
  {
    if |s.legs| == 0 || |s.legs| > 2 {
      return Err(WrongLegCount(|s.legs|));
    }
    var net := CalculateNetPremium(s.legs);
    var maxProfit := MaxProfit(s.legs, net);
    var maxLoss := MaxLoss(s.legs, net);
    var breakevenPoints := [Breakeven(s.legs, net)];
    var margin := MarginRequirement(maxLoss, net);
    var rom := ReturnOnMargin(maxProfit, margin);
    r := Ok(StrategyMetrics(net, maxProfit, maxLoss, breakevenPoints, margin, rom));
  }

  // ---------------------------------------------------------------------------
  // Properties

  /** Half-up rounding is symmetric about zero. */
  lemma RoundHalfUpNeg(x: real)
    ensures RoundHalfUp(-x) == -RoundHalfUp(x)
  {
    if x == 0.0 {
      assert -x == x;
    }
  }

  /**
   * The margin requirement of a well-formed strategy always equals its max
   * loss: a credit uses the max loss, and every debit has max loss |net|.
   */
  lemma MarginIsMaxLoss(s: Strategy)
    requires ValidStrategy(s)
    ensures MetricsOf(s).Ok?
    ensures MetricsOf(s).value.marginRequirement == MetricsOf(s).value.maxLoss
  {
    var legs := s.legs;
    var net := NetPremium(legs);
    if |legs| == 1 && legs[0].action == Sell {
      RawNetPremiumOfLegs(legs);
      LegPremiumSign(legs[0]);
      assert net >= 0.0;
    }
  }

  /** The metrics of one or two legs are the six helper results. */
  lemma MetricsFields(s: Strategy)
    requires 1 <= |s.legs| <= 2
    ensures var net := NetPremium(s.legs);
      var maxLoss := MaxLoss(s.legs, net);
      var margin := MarginRequirement(maxLoss, net);
      MetricsOf(s) == Ok(StrategyMetrics(net, MaxProfit(s.legs, net), maxLoss, [Breakeven(s.legs, net)], margin,
                                         ReturnOnMargin(MaxProfit(s.legs, net), margin)))
  {
  }

  /** The ask paid to open a bought leg, times quantity, rounded half-up. */
  function PurchaseCost(leg: OptionLeg): real {
    RoundHalfUp(Times(leg.contract.ask, leg.quantity))
  }

  /** The bid received to open a sold leg, times quantity, rounded half-up. */
  function SaleProceeds(leg: OptionLeg): real {
    RoundHalfUp(Times(leg.contract.bid, leg.quantity))
  }

  /** A single leg's net premium is its rounded bid received, or its rounded ask paid. */
  lemma SingleLegNetPremium(leg: OptionLeg)
    requires ValidLeg(leg)
    ensures leg.action == Sell ==> NetPremium([leg]) == SaleProceeds(leg) && SaleProceeds(leg) >= 0.0
    ensures leg.action == Buy ==> NetPremium([leg]) == -PurchaseCost(leg) && PurchaseCost(leg) >= 0.0
  {
    RawNetPremiumOfLegs([leg]);
    RoundHalfUpNeg(Times(leg.contract.ask, leg.quantity));
  }

  /**
   * A single bought leg: the net premium is minus the rounded ask times quantity;
   * max loss and margin are that debit. A bought call has unlimited profit and so
   * no return on margin; a bought put's max profit is the same |net|.
   */
  lemma SingleBoughtLeg(s: Strategy)
    requires ValidStrategy(s) && |s.legs| == 1 && s.legs[0].action == Buy
    ensures MetricsOf(s).Ok?
    ensures MetricsOf(s).value.netPremium == -PurchaseCost(s.legs[0])
    ensures MetricsOf(s).value.maxLoss == PurchaseCost(s.legs[0])
    ensures MetricsOf(s).value.marginRequirement == PurchaseCost(s.legs[0])
    ensures s.legs[0].contract.optionType == Call ==>
              MetricsOf(s).value.maxProfit == Unlimited && MetricsOf(s).value.returnOnMargin == 0.0
    ensures s.legs[0].contract.optionType == Put ==> MetricsOf(s).value.maxProfit == PurchaseCost(s.legs[0])
  {
    SingleLegNetPremium(s.legs[0]);
    assert s.legs == [s.legs[0]];
    MetricsFields(s);
  }

  /**
   * A single sold leg: the net premium is the rounded bid times quantity,
   * received, and is the max profit; loss and margin are unlimited, so there is
   * no return on margin.
   */
  lemma SingleSoldLeg(s: Strategy)
    requires ValidStrategy(s) && |s.legs| == 1 && s.legs[0].action == Sell
    ensures MetricsOf(s).Ok?
    ensures SaleProceeds(s.legs[0]) >= 0.0
    ensures MetricsOf(s).value.netPremium == SaleProceeds(s.legs[0])
    ensures MetricsOf(s).value.maxProfit == SaleProceeds(s.legs[0])
    ensures MetricsOf(s).value.maxLoss == Unlimited && MetricsOf(s).value.marginRequirement == Unlimited
    ensures MetricsOf(s).value.returnOnMargin == 0.0
  {
    SingleLegNetPremium(s.legs[0]);
    assert s.legs == [s.legs[0]];
    MetricsFields(s);
  }

  /** A single leg's breakeven: strike plus |net| for a call, minus |net| for a put. */
  lemma SingleLegBreakeven(s: Strategy)
    requires |s.legs| == 1
    ensures MetricsOf(s).Ok?
    ensures var m, c := MetricsOf(s).value, s.legs[0].contract;
      && (c.optionType == Call ==> m.breakevenPoints == [RoundHalfUp(c.strike + Abs(m.netPremium))])
      && (c.optionType == Put ==> m.breakevenPoints == [RoundHalfUp(c.strike - Abs(m.netPremium))])
  {
  }

  /**
   * Two legs: max profit and max loss always add up to the spread value; a
   * credit (net >= 0) keeps the net premium as profit, a debit loses |net|.
   */
  lemma SpreadProfitPlusLoss(s: Strategy)
    requires |s.legs| == 2
    ensures MetricsOf(s).Ok?
    ensures var m := MetricsOf(s).value;
      && m.maxProfit + m.maxLoss == SpreadValue(s.legs)
      && (m.netPremium >= 0.0 ==> m.maxProfit == m.netPremium && m.marginRequirement == m.maxLoss)
      && (m.netPremium < 0.0 ==> m.maxLoss == -m.netPremium && m.marginRequirement == -m.netPremium)
  {
  }

  /**
   * Two legs: the breakeven is the lower strike moved by net/100 when there is a
   * call, the upper strike moved the other way for two puts.
   */
  lemma SpreadBreakeven(s: Strategy)
    requires |s.legs| == 2
    ensures MetricsOf(s).Ok?
    ensures var m, legs := MetricsOf(s).value, s.legs;
      var low, high := Min(legs[0].contract.strike, legs[1].contract.strike), Max(legs[0].contract.strike, legs[1].contract.strike);
      && (legs[0].contract.optionType == Call || legs[1].contract.optionType == Call ==>
            m.breakevenPoints == [RoundHalfUp(low + m.netPremium / 100.0)])
      && (legs[0].contract.optionType == Put && legs[1].contract.optionType == Put ==>
            m.breakevenPoints == [RoundHalfUp(high - m.netPremium / 100.0)])
  {
  }

  /** Return on margin is nonzero only for a position bounded on both sides. */
  lemma ReturnOnMarginOnlyWhenBounded(s: Strategy)
    requires MetricsOf(s).Ok?
    ensures var m := MetricsOf(s).value;
      m.returnOnMargin != 0.0 ==> 0.0 < m.marginRequirement < Unlimited && m.maxProfit < Unlimited
  {
  }
}
