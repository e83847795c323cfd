/**
 * Worked scenarios for the metrics calculator, with the strikes and quotes of the
 * repository's calculator tests (tests/test_strategy_calculator.py).
 */
module CalculatorExamples {
  import opened Wrappers
  import opened Money
  import opened Models
  import opened StrategyCalculator

  /** NVDA 150 call quoted 8.50 / 8.70. */
  function Call150(): OptionContract {
    OptionContract("NVDA", 150.0, 0, Call, 8.50, 8.70)
  }

  /** Half-up rounding breaks a tie away from zero in both directions. */
  lemma HalfUpTies()
    ensures RoundHalfUp(-8.775) == -8.78 && RoundHalfUp(8.775) == 8.78
    ensures RoundHalfUp(-8.777) == -8.78 && RoundHalfUp(150.045) == 150.05
  {
  }

  /** Half-even rounding breaks a tie toward the even cent. */
  lemma HalfEvenTies()
    ensures RoundHalfEven(8.775) == 8.78 && RoundHalfEven(8.765) == 8.76
    ensures RoundHalfEven(-8.765) == -8.76
  {
  }

  /** Buying the 150 call: a debit of 8.70, unlimited profit, breakeven 158.70, no return on margin. */
  lemma LongCallExample()
    ensures MetricsOf(Strategy([OptionLeg(Buy, Call150(), 1)], "NVDA", 0))
            == Ok(StrategyMetrics(-8.70, Unlimited, 8.70, [158.70], 8.70, 0.0))
  {
    var s := Strategy([OptionLeg(Buy, Call150(), 1)], "NVDA", 0);
    RawNetPremiumOfLegs(s.legs);
    MetricsFields(s);
  }

  /** Selling the 150 call: a credit of 8.50, unlimited loss and margin, breakeven 158.50. */
  lemma ShortCallExample()
    ensures MetricsOf(Strategy([OptionLeg(Sell, Call150(), 1)], "NVDA", 0))
            == Ok(StrategyMetrics(8.50, 8.50, Unlimited, [158.50], Unlimited, 0.0))
  {
    var s := Strategy([OptionLeg(Sell, Call150(), 1)], "NVDA", 0);
    RawNetPremiumOfLegs(s.legs);
    MetricsFields(s);
  }

  /**
   * Bull call spread, buy 145C at 12.20 and sell 155C at 6.80: debit 5.40, max
   * profit 994.60, breakeven 145 - 0.054 rounded to 144.95, return 18418.52%.
   */
  lemma BullCallSpreadExample()
    ensures MetricsOf(Strategy([OptionLeg(Buy, OptionContract("NVDA", 145.0, 0, Call, 12.00, 12.20), 1),
                                OptionLeg(Sell, OptionContract("NVDA", 155.0, 0, Call, 6.80, 7.00), 1)], "NVDA", 0))
            == Ok(StrategyMetrics(-5.40, 994.60, 5.40, [144.95], 5.40, 18418.52))
  {
    var s := Strategy([OptionLeg(Buy, OptionContract("NVDA", 145.0, 0, Call, 12.00, 12.20), 1),
                       OptionLeg(Sell, OptionContract("NVDA", 155.0, 0, Call, 6.80, 7.00), 1)], "NVDA", 0);
    RawNetPremiumOfLegs(s.legs);
    assert RawNetPremium(s.legs) == -5.40;
    assert NetPremium(s.legs) == RoundHalfUp(-5.40) == -5.40;
    assert SpreadValue(s.legs) == 1000.0;
    assert MaxProfit(s.legs, -5.40) == 994.60 && MaxLoss(s.legs, -5.40) == 5.40;
    assert MarginRequirement(5.40, -5.40) == 5.40;
    assert Breakeven(s.legs, -5.40) == RoundHalfUp(144.946) == 144.95;
    assert ReturnOnMargin(994.60, 5.40) == RoundHalfUp((994.60 / 5.40) * 100.0) == 18418.52;
    MetricsFields(s);
  }

  /** Bear put spread, buy 150P at 9.70 and sell 140P at 5.20: debit 4.50, max profit 995.50. */
  lemma BearPutSpreadExample()
    ensures MetricsOf(Strategy([OptionLeg(Buy, OptionContract("NVDA", 150.0, 0, Put, 9.50, 9.70), 1),
                                OptionLeg(Sell, OptionContract("NVDA", 140.0, 0, Put, 5.20, 5.40), 1)], "NVDA", 0))
            == Ok(StrategyMetrics(-4.50, 995.50, 4.50, [150.05], 4.50, 22122.22))
  {
    var s := Strategy([OptionLeg(Buy, OptionContract("NVDA", 150.0, 0, Put, 9.50, 9.70), 1),
                       OptionLeg(Sell, OptionContract("NVDA", 140.0, 0, Put, 5.20, 5.40), 1)], "NVDA", 0);
    RawNetPremiumOfLegs(s.legs);
    assert RawNetPremium(s.legs) == -4.50;
    assert NetPremium(s.legs) == RoundHalfUp(-4.50) == -4.50;
    assert SpreadValue(s.legs) == 1000.0;
    assert MaxProfit(s.legs, -4.50) == 995.50 && MaxLoss(s.legs, -4.50) == 4.50;
    assert MarginRequirement(4.50, -4.50) == 4.50;
    assert Breakeven(s.legs, -4.50) == RoundHalfUp(150.045) == 150.05;
    assert ReturnOnMargin(995.50, 4.50) == RoundHalfUp((995.50 / 4.50) * 100.0) == 22122.22;
    MetricsFields(s);
  }

  /** Three-decimal quotes: buying at 8.777 gives a net premium of exactly -8.78. */
  lemma PrecisionExample()
    ensures MetricsOf(Strategy([OptionLeg(Buy, OptionContract("NVDA", 150.0, 0, Call, 8.555, 8.777), 1)], "NVDA", 0))
            == Ok(StrategyMetrics(-8.78, Unlimited, 8.78, [158.78], 8.78, 0.0))
  {
    var s := Strategy([OptionLeg(Buy, OptionContract("NVDA", 150.0, 0, Call, 8.555, 8.777), 1)], "NVDA", 0);
    RawNetPremiumOfLegs(s.legs);
    MetricsFields(s);
    assert NetPremium(s.legs) == RoundHalfUp(-8.777) == -8.78;
    assert Breakeven(s.legs, -8.78) == RoundHalfUp(158.78) == 158.78;
  }

  /** Zero, three or more legs are refused with `CalculationError`. */
  lemma LegCountExample()
    ensures MetricsOf(Strategy([], "NVDA", 0)) == Err(WrongLegCount(0))
    ensures var leg := OptionLeg(Buy, Call150(), 1);
      MetricsOf(Strategy([leg, leg, leg], "NVDA", 0)) == Err(WrongLegCount(3))
  {
  }
}
