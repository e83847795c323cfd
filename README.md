# OptionPilot core in Dafny

This project models the arithmetic core of OptionPilot, a paper-trading helper for one- and two-leg option strategies. It has four parts:

- **Data model** (`models.dfy`, module `Models`). These are the records of `src/models.py`. Each `__post_init__` check becomes a `Valid...` predicate and a checked constructor `New...`. The constructor returns the first `ValueError` the Python constructor raises, in the same order. The strings `'call'`/`'put'`, `'buy'`/`'sell'` and `'open'`/`'closed'` become enumerations, with parsers that accept exactly those words.
- **Metrics calculator** (`strategy_calculator.dfy`, module `StrategyCalculator`). This is `src/strategy_calculator.py`. It computes net premium, max profit, max loss, the single breakeven, margin and return on margin. The 99999 sentinel for "unlimited" stays a number. The accumulation loop of the net premium is a method proved equal to a specification function. `calculator_examples.dfy` adds the repository's worked scenarios.
- **Payoff evaluator** (`payoff_diagram.dfy`, module `PayoffDiagram`). This covers the expiry payoff of `src/payoff_diagram.py` and its 51-point price grid. The per-leg loop and the grid loop are methods proved against specification functions.
- **Trading journal** (`trading_journal.dfy`, module `TradingJournal`). This is `src/trading_journal.py`.
  - It includes the settlement rule `calculate_final_pnl` and the strategy to dictionary storage round trip.
  - A `Journal` class holds the trade table as a map from row id to row, plus the AUTOINCREMENT counter. `SaveTrade`, `CloseTrade` and `GetAllTrades` form the open to closed life cycle.

Money is exact: Python's `Decimal` values are Dafny `real`s.

- `Money.RoundHalfUp` is `quantize(Decimal('0.01'), ROUND_HALF_UP)`. Ties go away from zero.
- `Money.RoundHalfEven` is the plain `quantize(Decimal('0.01'))` of the payoff total. Ties go to the even cent.
- `Money.Times` is an amount times a leg quantity.

The model keeps the source's units and sign conventions exactly as written:

- The net premium is per share times quantity. It is not multiplied by the contract size.
- The two-leg spread value is the strike width times 100.
- The one-leg breakeven adds abs(net premium) straight to the strike. The two-leg breakeven divides the net premium by 100 first.
- `calculate_final_pnl` treats only a net premium strictly above 0 as a credit. It records a losing debit trade as +max loss, a positive number.
- A strategy whose net premium is exactly 0 is therefore settled by the debit rule. At or below its breakeven it records its max loss as a gain: the whole spread value on two legs, or 99999 on a sold leg at bid 0.

## Model

| member | source | states |
|---|---|---|
| Money.RoundHalfUp | src/strategy_calculator.py:46 | The result is a whole number of cents, at most half a cent from the input. On an exact tie it moves away from zero. The sign is kept. |
| Money.RoundHalfEven | src/payoff_diagram.py:69 | The result is a whole number of cents, at most half a cent from the input. On an exact tie it lands on an even number of cents. |
| Money.RoundCentsExact | src/strategy_calculator.py:46 | Both roundings leave an amount that is already in cents unchanged. |
| Money.RoundWithinCentBounds | src/payoff_diagram.py:69 | Rounding a value that lies between two cent amounts keeps it between them. |
| Models.ParseOptionType | src/models.py:40-41 | Accepts exactly 'call' and 'put' and names the value back unchanged. Anything else is the option-type error carrying the string. |
| Models.ParseAction | src/models.py:56-57 | Accepts exactly 'buy' and 'sell' and names the value back unchanged. Anything else is the action error carrying the string. |
| Models.ParseStatus | src/models.py:99-100 | Accepts exactly 'open' and 'closed' and names the value back unchanged. Anything else is the status error carrying the string. |
| Models.NewStockQuote | src/models.py:20-24 | Succeeds exactly when the price is positive and the symbol non-empty. The price is checked first, then the symbol. |
| Models.NewOptionContract | src/models.py:37-45 | Succeeds exactly when strike > 0, the type is call or put, and 0 <= bid <= ask, keeping every field. Otherwise it reports the first failing check in source order: strike, type, bid, ask. |
| Models.NewOptionLeg | src/models.py:51-59 | Succeeds exactly when the action is buy or sell and the quantity is positive. The quantity defaults to 1. The action is checked before the quantity. |
| Models.NewStrategy | src/models.py:69-73 | Succeeds exactly with one or two legs. No legs and more than two legs are different errors. |
| Models.NewTradeRecord | src/models.py:98-100 | Succeeds exactly when the status is open or closed, keeping every other field. |
| StrategyCalculator.NetPremium | src/strategy_calculator.py:39-46 | The net premium is a whole number of cents within half a cent of the signed premium sum. CalculateNetPremium is its loop. |
| StrategyCalculator.CalculateNetPremium | src/strategy_calculator.py:39-46 | The loop returns the sum of +bid*qty over sold legs and -ask*qty over bought legs, rounded half-up to cents once, at the end. |
| StrategyCalculator.RawNetPremiumOfLegs | src/strategy_calculator.py:42-45 | The unrounded net premium of one or two legs is their premiums added in order. |
| StrategyCalculator.RawNetPremiumSign | src/strategy_calculator.py:43-45 | Well-formed legs that are all sold give a net premium >= 0. Legs that are all bought give one <= 0. |
| StrategyCalculator.LegPremiumSign | src/strategy_calculator.py:43-45 | A well-formed sale brings in a non-negative premium; a purchase pays one. |
| StrategyCalculator.SpreadValue | src/strategy_calculator.py:56-57 | The spread value is the absolute strike difference times the contract size 100, whichever leg holds the lower strike. |
| StrategyCalculator.MaxProfit | src/strategy_calculator.py:48-58 | A single bought call is 99999. Any other single leg has profit of size abs(net). Two legs keep a credit as the profit, and a debit's profit is below the spread value. SingleBoughtLeg, SingleSoldLeg and SpreadProfitPlusLoss give the values for computed metrics. |
| StrategyCalculator.MaxLoss | src/strategy_calculator.py:60-68 | For two legs, max profit + max loss = spread value. Every debit on two legs or a bought leg loses -net. A sold single leg is 99999. |
| StrategyCalculator.Breakeven | src/strategy_calculator.py:70-87 | The breakeven is in cents. A single leg's lies within abs(net) of the strike, with no division by 100. A spread's lies between the strikes widened by abs(net)/100. SingleLegBreakeven and SpreadBreakeven give the exact values. |
| StrategyCalculator.MarginRequirement | src/strategy_calculator.py:89-91 | The margin is the max loss, or -net on a debit, and never negative when the max loss is not. MarginIsMaxLoss shows it always equals the max loss for a well-formed strategy. |
| StrategyCalculator.ReturnOnMargin | src/strategy_calculator.py:93-97 | The result is nonzero only when 0 < margin < 99999 and max profit < 99999. In that case it is profit/margin*100 rounded to cents. |
| StrategyCalculator.MetricsOf | src/strategy_calculator.py:18-37 | It is a CalculationError exactly when the strategy has 0 legs or more than 2, and the error carries the leg count. Otherwise there is exactly one breakeven and the net premium is in cents. |
| StrategyCalculator.CalculateStrategyMetrics | src/strategy_calculator.py:18-37 | The method, which runs the net-premium loop, returns the metrics of the specification function. |
| StrategyCalculator.RoundHalfUpNeg | src/strategy_calculator.py:46 | Half-up rounding is symmetric about zero, so a debit rounds to minus the rounded cost. |
| StrategyCalculator.MarginIsMaxLoss | src/strategy_calculator.py:89-91 | For every well-formed strategy the margin requirement equals the max loss. A short leg therefore has margin 99999. |
| StrategyCalculator.SingleLegNetPremium | src/strategy_calculator.py:41-46 | One sold leg's net premium is its rounded bid*qty, which is >= 0. One bought leg's is minus its rounded ask*qty. |
| StrategyCalculator.SingleBoughtLeg | src/strategy_calculator.py:50-64 | For a bought leg, max loss = margin = the debit. A call has unlimited profit and zero return on margin. A put has max profit equal to the same debit. |
| StrategyCalculator.SingleSoldLeg | src/strategy_calculator.py:50-64 | For a sold leg, max profit = net premium = the credit. Max loss and margin are 99999 and the return on margin is 0. |
| StrategyCalculator.SingleLegBreakeven | src/strategy_calculator.py:72-80 | The one-leg breakeven is strike + abs(net) for a call and strike - abs(net) for a put, rounded half-up. |
| StrategyCalculator.SpreadProfitPlusLoss | src/strategy_calculator.py:55-68 | For two legs, max profit + max loss = spread value. A credit keeps the net premium as profit. A debit loses abs(net). |
| StrategyCalculator.SpreadBreakeven | src/strategy_calculator.py:81-87 | The two-leg breakeven is lower strike + net/100 when either leg is a call, and upper strike - net/100 for two puts. |
| StrategyCalculator.ReturnOnMarginOnlyWhenBounded | src/strategy_calculator.py:95-96 | Computed metrics have a nonzero return on margin only when margin and profit are both bounded. |
| CalculatorExamples.HalfUpTies | src/strategy_calculator.py:46 | -8.775 becomes -8.78, 8.775 becomes 8.78, -8.777 becomes -8.78 and 150.045 becomes 150.05. |
| CalculatorExamples.HalfEvenTies | src/payoff_diagram.py:69 | 8.775 becomes 8.78, 8.765 becomes 8.76 and -8.765 becomes -8.76. |
| CalculatorExamples.LongCallExample | tests/test_strategy_calculator.py:46-64 | A long 150 call at 8.70 gives net -8.70, unlimited profit, loss and margin 8.70, and breakeven 158.70. |
| CalculatorExamples.ShortCallExample | tests/test_strategy_calculator.py:66-84 | A short 150 call at 8.50 gives net 8.50, profit 8.50, loss and margin 99999, and breakeven 158.50. |
| CalculatorExamples.BullCallSpreadExample | tests/test_strategy_calculator.py:86-127 | The 145/155 call spread gives net -5.40, max profit 994.60, max loss 5.40 and return on margin 18418.52. |
| CalculatorExamples.BearPutSpreadExample | tests/test_strategy_calculator.py:129-163 | The 150/140 put spread gives net -4.50, max profit 995.50 and max loss and margin 4.50. |
| CalculatorExamples.PrecisionExample | tests/test_strategy_calculator.py:188-206 | Buying at ask 8.777 gives a net premium of exactly -8.78. |
| CalculatorExamples.LegCountExample | src/strategy_calculator.py:20-21 | Zero and three legs are refused with the leg count. |
| PayoffDiagram.IntrinsicValue | src/payoff_diagram.py:52-55 | Intrinsic value is never negative. It is max(0, S-K) for a call and max(0, K-S) for a put. |
| PayoffDiagram.LegPayoff | src/payoff_diagram.py:46-65 | A leg's payoff is the calculator's premium cash flow for that leg, plus the settlement on a bought leg or minus it on a sold one. The settlement is intrinsic value x 100 x quantity. |
| PayoffDiagram.PayoffAt | src/payoff_diagram.py:42-69 | The payoff is a whole number of cents within half a cent of the sum of the leg payoffs. CalculatePayoffAtPrice is its loop. |
| PayoffDiagram.CalculatePayoffAtPrice | src/payoff_diagram.py:42-69 | The loop returns the sum of the leg payoffs, rounded half-even to cents. |
| PayoffDiagram.RawPayoffOfLegs | src/payoff_diagram.py:44-67 | The unrounded payoff of one or two legs is their leg payoffs added in order. |
| PayoffDiagram.LegPayoffBounds | src/payoff_diagram.py:57-65 | A bought leg never pays below -ask*qty. A sold leg never pays above bid*qty. |
| PayoffDiagram.LegPayoffMonotone | src/payoff_diagram.py:52-65 | The payoff is non-decreasing in the price for a bought call and a sold put. It is non-increasing for a sold call and a bought put. |
| PayoffDiagram.PriceGrid | src/payoff_diagram.py:15-18 | The grid has 51 points from 0.5p to 1.5p in equal steps of p/50. |
| PayoffDiagram.PriceGridIncreasing | src/payoff_diagram.py:16-18 | For a positive current price the grid is strictly increasing. |
| PayoffDiagram.GeneratePayoffCurve | src/payoff_diagram.py:16-24 | The loop returns the grid and, at every grid point, the strategy's payoff there. |
| PayoffDiagram.LongPutGridEnds | tests/test_payoff_diagram.py:113-150 | A long put whose strike clears the low end by more than its premium is in profit at the grid's low end. It is at a loss at the high end. |
| PayoffDiagram.ShortCallGridEnds | tests/test_payoff_diagram.py:152-186 | A short call with a strike inside the grid is in profit at the low end. It is at a loss at the high end when it is deep enough in the money there. |
| PayoffDiagram.DebitCallSpreadPayoff | src/payoff_diagram.py:52-69 | For a quantity-1 debit call spread, listed with the bought lower call first, the payoff above the upper strike is the calculator's max profit. Below the lower strike it is the net premium. It always lies between -max loss and max profit. |
| TradingJournal.CalculateFinalPnl | src/trading_journal.py:63-74 | A credit (net strictly above 0) on two legs gives -max loss when the close is between the strikes, ends included, and max profit otherwise. Otherwise, with a breakeven, the result is max profit strictly above it and +max loss at or below it. A one-leg credit, or no breakeven, settles at the net premium. Minus the max loss comes only from a two-leg credit. |
| TradingJournal.SettleCreditSpread | src/trading_journal.py:65-69 | A computed two-leg credit settles at credit - spread value when the close is between the strikes, ends included. Otherwise it keeps the credit. |
| TradingJournal.SettleSingleCredit | src/trading_journal.py:65-70 | A computed one-leg credit settles at its net premium at any close. |
| TradingJournal.SettleDebit | src/trading_journal.py:71-73 | A computed debit settles at max profit strictly above the breakeven. At or below the breakeven it records +debit, which is positive. |
| TradingJournal.SettleZeroNet | src/trading_journal.py:65-73 | A computed net premium of exactly 0 is settled by the debit rule: max profit strictly above the breakeven, else max loss. That max loss is the spread value on two legs, 99999 on a sold leg and 0 on a bought leg. |
| TradingJournal.ZeroNetSpreadExample | src/trading_journal.py:65-73 | A zero-cost 145/155 call spread closed at 140 records +1000.00, although its payoff there is 0. |
| TradingJournal.BullCallSettlementExample | tests/test_trading_journal.py:342-359 | With breakeven 150.54, closes at 140 and 150 give 5.40. Closes at 151 and 160 give 994.60. |
| TradingJournal.CreditSettlementExample | tests/test_trading_journal.py:227-275 | The 150/140 put credit spread keeps 3.30 at 155 and at 139.99. It loses 6.70 at 145 and at the lower strike 140. |
| TradingJournal.LegsToDicts | src/trading_journal.py:79-83 | The stored leg list has one entry per leg, in order. |
| TradingJournal.StrategyToDict | src/trading_journal.py:76-83 | The stored form keeps the symbol, the time and one entry per leg. Every stored action and option type is a word the reader accepts. StrategyRoundTrip is its inverse. |
| TradingJournal.DictToLeg | src/trading_journal.py:87-91 | A stored leg that reads back gives a well-formed leg whose stored form is the input. |
| TradingJournal.DictsToLegs | src/trading_journal.py:87-91 | The stored legs read back exactly when each one does, one leg per entry, in order. |
| TradingJournal.DictToStrategy | src/trading_journal.py:85-92 | A stored strategy that reads back is well formed, and storing it again gives the same document. |
| TradingJournal.LegsRoundTrip | src/trading_journal.py:85-91 | Well-formed legs read back from their stored form unchanged. |
| TradingJournal.StrategyRoundTrip | src/trading_journal.py:76-92 | A well-formed strategy converted to its stored form and back is the same strategy. |
| TradingJournal.RowToTrade | src/trading_journal.py:97-101 | A row reads back exactly when its strategy does and its status is open or closed. The record then carries the row's id, its well-formed strategy, and its status, metrics, date, close and P&L. |
| TradingJournal.InsertNewestFirst | src/trading_journal.py:42 | Inserting a record keeps the listing ordered by entry date descending, then id descending. It adds exactly that record. |
| TradingJournal.Journal.constructor | src/trading_journal.py:19-26 | Opening the journal keeps the table and AUTOINCREMENT counter already in the database, which must be a valid table. A first-time database is the empty table with counter 0. |
| TradingJournal.Journal.SaveTrade | src/trading_journal.py:28-36 | Adds one open row under a fresh positive id, dated today, with no closing price or P&L. It returns the record the row reads back as. |
| TradingJournal.Journal.CloseTrade | src/trading_journal.py:45-61 | A missing or closed trade is a TradingJournalError and leaves the table unchanged. Otherwise only that row's status, closing price and settled P&L change. |
| TradingJournal.Journal.GetAllTrades | src/trading_journal.py:38-43 | Every stored row is listed, each as the record it reads back as, newest entry date first, then highest id first. |

## Left out

- Binary floating point is not modelled:
  - the `float(...)` conversions of the results;
  - `Decimal(str(float))` on the inputs, treated as the exact decimal;
  - the float arithmetic of the price grid, computed exactly here.
- The 28-digit `Decimal` context: divisions (net/100, profit/margin) are exact here. They can differ from the source only past the 28th significant digit.
- StrategyCalculator.ReturnOnMargin: states the cent rounding as "within half a cent". It does not state the exact half-up tie outcome of the 28-digit quotient.
- The matplotlib figure (`src/payoff_diagram.py:26-40`) and `generate_payoff_diagram` in `src/strategy_calculator.py:99-101` are left out. Only the price grid and the payoffs that would be plotted are modelled.
- Files outside the core are not part of this model: the Streamlit UI, the CLI, the market data client, the AI analyzer and the configuration lookups. `models.py` at the repository root duplicates `src/models.py` and is modelled once.
- SQLite, SQL text and JSON text are not modelled. The table is an in-memory map from id to row, and AUTOINCREMENT is a counter. Dates and timestamps are abstract numbers. `date.today()` is the `today` parameter of `SaveTrade`.
  - Ordering by the ISO date text is modelled as ordering by date.
  - Metrics are stored as the record itself: `StrategyMetrics(**data)` rebuilds it unchanged.
- Error messages are not modelled. Each error carries the offending value instead of the message text.
- TradingJournal.Journal.SaveTrade: requires a well-formed strategy. Every `Strategy` built through its constructor is one. A strategy whose legs were changed after construction would be stored and then fail to read back; that case is not modelled.
- TradingJournal.Journal.constructor: requires every row already in the database to read back, with ids up to the stored counter. A database holding rows that do not decode is not modelled.
- TradingJournal.Journal.CloseTrade: the table invariant guarantees every row reads back. The source's failure when stored data does not decode is therefore not modelled.
- TradingJournal.Journal.GetAllTrades: lists trades through an insertion by (entry date, id) instead of the database's ORDER BY. It states the order and coverage. It does not state the list length, which follows from the distinct ids.
- Connections, concurrency and database errors are not modelled.
