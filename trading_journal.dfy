/**
 * The paper-trading journal of src/trading_journal.py: the two-outcome settlement
 * rule, the strategy <-> dictionary conversion used for storage, and the
 * open -> closed life cycle of trade records over the `trades` table.
 *
 * The SQLite table becomes a map from row id to row, and AUTOINCREMENT a
 * counter of the ids handed out so far. A row keeps the strategy in its stored
 * (dictionary) form and the status as the stored string, as the table does;
 * `date.today()` is a parameter.
 */
module TradingJournal {
  import opened Wrappers
  import opened Money
  import opened Models
  import opened StrategyCalculator
  import opened PayoffDiagram

  /** `TradingJournalError`. */
  datatype JournalError = NotFoundOrClosed(tradeId: int)

  // ---------------------------------------------------------------------------
  // Settlement

  /**
   * `calculate_final_pnl`. A credit (net premium strictly above 0) on two legs
   * loses the max loss, as a negative number, when the close is between the
   * strikes (ends included) and keeps the max profit otherwise; a one-leg credit
   * keeps its net premium. Otherwise, with a breakeven, the result is the max
   * profit above the breakeven and the max loss, as a POSITIVE number, at or
   * below it; with no breakeven it is the net premium.
   */
  function CalculateFinalPnl(strategy: Strategy, metrics: StrategyMetrics, closingPrice: real): (r: real)
    ensures r in {metrics.maxProfit, -metrics.maxLoss, metrics.maxLoss, metrics.netPremium}
    ensures r == -metrics.maxLoss && r != metrics.maxLoss && r != metrics.maxProfit && r != metrics.netPremium ==>
              metrics.netPremium > 0.0 && |strategy.legs| == 2
    ensures metrics.netPremium > 0.0 && |strategy.legs| == 2 ==>
              var lower := Min(strategy.legs[0].contract.strike, strategy.legs[1].contract.strike);
              var upper := Max(strategy.legs[0].contract.strike, strategy.legs[1].contract.strike);
              r == if lower <= closingPrice <= upper then -metrics.maxLoss else metrics.maxProfit
    ensures metrics.netPremium > 0.0 && |strategy.legs| != 2 ==> r == metrics.netPremium
    ensures metrics.netPremium <= 0.0 && metrics.breakevenPoints != [] ==>
              r == if closingPrice > metrics.breakevenPoints[0] then metrics.maxProfit else metrics.maxLoss
    ensures metrics.netPremium <= 0.0 && metrics.breakevenPoints == [] ==> r == metrics.netPremium
  {
    if metrics.netPremium > 0.0 then
      if |strategy.legs| == 2 then
        var lower := Min(strategy.legs[0].contract.strike, strategy.legs[1].contract.strike);
        var upper := Max(strategy.legs[0].contract.strike, strategy.legs[1].contract.strike);
        if lower <= closingPrice <= upper then -metrics.maxLoss else metrics.maxProfit
      else metrics.netPremium
    else if metrics.breakevenPoints != [] then
      if closingPrice > metrics.breakevenPoints[0] then metrics.maxProfit else metrics.maxLoss
    else metrics.netPremium
  }

  /**
   * Settling metrics the calculator produced for a two-leg credit: a close between
   * the strikes records minus (spread value - credit), anywhere else the credit.
   */
  lemma SettleCreditSpread(s: Strategy, closingPrice: real)
    requires |s.legs| == 2
    requires MetricsOf(s).Ok? && MetricsOf(s).value.netPremium > 0.0
    ensures var m := MetricsOf(s).value;
      var inside := LowerStrike(s.legs) <= closingPrice <= UpperStrike(s.legs);
      CalculateFinalPnl(s, m, closingPrice) == if inside then m.netPremium - SpreadValue(s.legs) else m.netPremium
  {
    SpreadProfitPlusLoss(s);
  }

  /** Settling metrics the calculator produced for a one-leg credit always records the credit. */
  lemma SettleSingleCredit(s: Strategy, closingPrice: real)
    requires |s.legs| == 1
    requires MetricsOf(s).Ok? && MetricsOf(s).value.netPremium > 0.0
    ensures CalculateFinalPnl(s, MetricsOf(s).value, closingPrice) == MetricsOf(s).value.netPremium
  {
  }

  /**
   * Settling metrics the calculator produced for a well-formed debit: the max
   * profit strictly above the breakeven, and otherwise the debit paid, recorded
   * as a gain (+|net premium|) rather than a loss.
   */
  lemma SettleDebit(s: Strategy, closingPrice: real)
    requires ValidStrategy(s)
    requires MetricsOf(s).Ok? && MetricsOf(s).value.netPremium < 0.0
    ensures var m := MetricsOf(s).value;
      CalculateFinalPnl(s, m, closingPrice)
        == if closingPrice > m.breakevenPoints[0] then m.maxProfit else -m.netPremium
    ensures var m := MetricsOf(s).value;
      closingPrice <= m.breakevenPoints[0] ==> CalculateFinalPnl(s, m, closingPrice) > 0.0
  {
    MarginIsMaxLoss(s);
    var m := MetricsOf(s).value;
    if |s.legs| == 1 {
      if s.legs[0].action == Sell {
        SingleSoldLeg(s);
      } else {
        SingleBoughtLeg(s);
      }
    } else {
      SpreadProfitPlusLoss(s);
    }
  }

  /**
   * A net premium of exactly 0 is not a credit, so it is settled by the debit
   * rule: the max profit strictly above the breakeven, the max loss otherwise.
   * For calculator metrics that max loss is the whole spread value on two legs,
   * 99999 on a sold leg and 0 on a bought one.
   */
  lemma SettleZeroNet(s: Strategy, closingPrice: real)
    requires ValidStrategy(s) && MetricsOf(s).Ok? && MetricsOf(s).value.netPremium == 0.0
    ensures var m := MetricsOf(s).value;
      CalculateFinalPnl(s, m, closingPrice)
        == if closingPrice > m.breakevenPoints[0] then m.maxProfit else m.maxLoss
    ensures |s.legs| == 2 ==> MetricsOf(s).value.maxProfit == 0.0 && MetricsOf(s).value.maxLoss == SpreadValue(s.legs)
    ensures |s.legs| == 1 && s.legs[0].action == Sell ==> MetricsOf(s).value.maxLoss == Unlimited
    ensures |s.legs| == 1 && s.legs[0].action == Buy ==> MetricsOf(s).value.maxLoss == 0.0
  {
    if |s.legs| == 1 {
      if s.legs[0].action == Sell {
        SingleSoldLeg(s);
      } else {
        SingleBoughtLeg(s);
      }
    } else {
      SpreadProfitPlusLoss(s);
    }
  }

  /**
   * A 145/155 call spread bought and sold at the same 6.80 costs nothing; closed
   * at 140, where both calls expire worthless and the payoff is 0, the journal
   * records the whole spread value, +1000.00, as its P&L.
   */
  lemma ZeroNetSpreadExample()
    ensures var s := Strategy([OptionLeg(Buy, OptionContract("NVDA", 145.0, 0, Call, 6.60, 6.80), 1),
                               OptionLeg(Sell, OptionContract("NVDA", 155.0, 0, Call, 6.80, 7.00), 1)], "NVDA", 0);
      && MetricsOf(s).Ok? && MetricsOf(s).value.netPremium == 0.0
      && CalculateFinalPnl(s, MetricsOf(s).value, 140.0) == 1000.0
      && PayoffAt(s.legs, 140.0) == 0.0
  {
    var s := Strategy([OptionLeg(Buy, OptionContract("NVDA", 145.0, 0, Call, 6.60, 6.80), 1),
                       OptionLeg(Sell, OptionContract("NVDA", 155.0, 0, Call, 6.80, 7.00), 1)], "NVDA", 0);
    RawNetPremiumOfLegs(s.legs);
    assert RawNetPremium(s.legs) == 0.0;
    assert NetPremium(s.legs) == RoundHalfUp(0.0) == 0.0;
    assert Breakeven(s.legs, 0.0) == RoundHalfUp(145.0) == 145.0;
    MetricsFields(s);
    SpreadProfitPlusLoss(s);
    assert SpreadValue(s.legs) == 1000.0;
    RawPayoffOfLegs(s.legs, 140.0);
    assert RawPayoff(s.legs, 140.0) == 0.0;
    RoundCentsExact(0.0);
  }

  /** The journal tests' bull call spread metrics: debit 5.40, max profit 994.60, breakeven 150.54. */
  lemma BullCallSettlementExample(s: Strategy)
    requires |s.legs| == 2
    ensures var m := StrategyMetrics(-5.40, 994.60, 5.40, [150.54], 5.40, 18418.52);
      && CalculateFinalPnl(s, m, 140.0) == 5.40 && CalculateFinalPnl(s, m, 150.0) == 5.40
      && CalculateFinalPnl(s, m, 151.0) == 994.60 && CalculateFinalPnl(s, m, 160.0) == 994.60
  {
  }

  /** The journal tests' put credit spread (150/140, credit 3.30): 155 keeps 3.30, 145 loses 6.70. */
  lemma CreditSettlementExample()
    ensures var s := Strategy([OptionLeg(Sell, OptionContract("NVDA", 150.0, 0, Put, 8.00, 8.20), 1),
                               OptionLeg(Buy, OptionContract("NVDA", 140.0, 0, Put, 4.50, 4.70), 1)], "NVDA", 0);
      var m := StrategyMetrics(3.30, 3.30, 6.70, [146.70], 6.70, 49.25);
      CalculateFinalPnl(s, m, 155.0) == 3.30 && CalculateFinalPnl(s, m, 145.0) == -6.70
      && CalculateFinalPnl(s, m, 140.0) == -6.70 && CalculateFinalPnl(s, m, 139.99) == 3.30
  {
  }

  // ---------------------------------------------------------------------------
  // Storage form of a strategy

  /** The `contract` object of a stored leg. */
  datatype ContractDict = ContractDict(symbol: string, strike: real, expiration: Date, optionType: string, bid: real, ask: real)

  /** One element of the stored `legs` list. */
  datatype LegDict = LegDict(action: string, quantity: int, contract: ContractDict)

  /** The stored strategy document. */
  datatype StrategyDict = StrategyDict(underlyingSymbol: string, createdAt: Timestamp, legs: seq<LegDict>)

  function LegToDict(leg: OptionLeg): LegDict {
    var c := leg.contract;
    LegDict(ActionName(leg.action), leg.quantity,
            ContractDict(c.symbol, c.strike, c.expiration, OptionTypeName(c.optionType), c.bid, c.ask))
  }

  /** The `legs` list comprehension of `_strategy_to_dict`, one entry per leg, in order. */
  function LegsToDicts(legs: seq<OptionLeg>): (r: seq<LegDict>)
    ensures |r| == |legs|
    ensures forall i :: 0 <= i < |legs| ==> r[i] == LegToDict(legs[i])
  {
    if legs == [] then [] else [LegToDict(legs[0])] + LegsToDicts(legs[1..])
  }

  /** `_strategy_to_dict`: every stored action and type is a word the reader accepts. */
  function StrategyToDict(s: Strategy): (r: StrategyDict)
    ensures r.underlyingSymbol == s.underlyingSymbol && r.createdAt == s.createdAt && |r.legs| == |s.legs|
    ensures forall i :: 0 <= i < |r.legs| ==>
              ParseAction(r.legs[i].action).Ok? && ParseOptionType(r.legs[i].contract.optionType).Ok?
  {
    StrategyDict(s.underlyingSymbol, s.createdAt, LegsToDicts(s.legs))
  }

  /**
   * One stored leg back to an `OptionLeg`: the contract is built (and checked)
   * first, as the argument of the leg's constructor, then the leg.
   */
  function DictToLeg(d: LegDict): (r: Result<OptionLeg, ValidationError>)
    ensures r.Ok? ==> ValidLeg(r.value) && LegToDict(r.value) == d
  {
    var c := d.contract;
    match NewOptionContract(c.symbol, c.strike, c.expiration, c.optionType, c.bid, c.ask)
    case Err(e) => Err(e)
    case Ok(contract) => NewOptionLeg(d.action, contract, d.quantity)
  }

  /** The stored legs in order; the first one that fails its checks raises. */
  function DictsToLegs(ds: seq<LegDict>): (r: Result<seq<OptionLeg>, ValidationError>)
    ensures r.Ok? <==> forall i :: 0 <= i < |ds| ==> DictToLeg(ds[i]).Ok?
    ensures r.Ok? ==> |r.value| == |ds| && forall i :: 0 <= i < |ds| ==> r.value[i] == DictToLeg(ds[i]).value
  {
    if ds == [] then Ok([])
    else match DictToLeg(ds[0])
      case Err(e) => Err(e)
      case Ok(leg) =>
        match DictsToLegs(ds[1..])
        case Err(e) => Err(e)
        case Ok(rest) => Ok([leg] + rest)
  }

  /** `_dict_to_strategy`: rebuilds the legs, then the strategy, each through its checks. */
  function DictToStrategy(d: StrategyDict): (r: Result<Strategy, ValidationError>)
    ensures r.Ok? ==> ValidStrategy(r.value) && StrategyToDict(r.value) == d
  {
    match DictsToLegs(d.legs)
    case Err(e) => Err(e)
    case Ok(legs) => NewStrategy(legs, d.underlyingSymbol, d.createdAt)
  }

  /** Every well-formed leg list survives the trip through its stored form. */
  lemma {:induction false} LegsRoundTrip(legs: seq<OptionLeg>)
    requires forall i :: 0 <= i < |legs| ==> ValidLeg(legs[i])
    ensures DictsToLegs(LegsToDicts(legs)) == Ok(legs)
  {
    if legs != [] {
      var leg := legs[0];
      assert ValidLeg(leg);
      NamesParseBack(leg.contract.optionType, leg.action, Open);
      assert DictToLeg(LegToDict(leg)) == Ok(leg);
      LegsRoundTrip(legs[1..]);
      assert LegsToDicts(legs)[1..] == LegsToDicts(legs[1..]);
      assert [leg] + legs[1..] == legs;
    }
  }

  /**
   * A well-formed strategy converted to its stored form and back is the same
   * strategy: symbol, time, and every leg's action, quantity, symbol, strike,
   * expiration, type, bid and ask.
   */
  lemma StrategyRoundTrip(s: Strategy)
    requires ValidStrategy(s)
    ensures DictToStrategy(StrategyToDict(s)) == Ok(s)
  {
    LegsRoundTrip(s.legs);
  }

  // ---------------------------------------------------------------------------
  // The trades table

  /** A row of `trades`: id aside, the stored strategy, metrics, entry date, status, close and P&L. */
  datatype Row = Row(
    strategyData: StrategyDict,
    metricsData: StrategyMetrics,
    entryDate: Date,
    status: string,
    closingPrice: Option<real>,
    finalPnl: Option<real>)

  /**
   * `_row_to_trade`: a row reads back exactly when its strategy does and its
   * status is a known word, and then as a record holding the row's own values.
   */
  function RowToTrade(id: int, row: Row): (r: Result<TradeRecord, ValidationError>)
    ensures r.Ok? <==> DictToStrategy(row.strategyData).Ok? && (row.status == "open" || row.status == "closed")
    ensures r.Ok? ==> && r.value.id == id && ValidStrategy(r.value.strategy)
                      && StrategyToDict(r.value.strategy) == row.strategyData
                      && StatusName(r.value.status) == row.status && r.value.metrics == row.metricsData
                      && r.value.entryDate == row.entryDate && r.value.closingPrice == row.closingPrice
                      && r.value.finalPnl == row.finalPnl
  {
    match DictToStrategy(row.strategyData)
    case Err(e) => Err(e)
    case Ok(strategy) =>
      NewTradeRecord(id, strategy, row.metricsData, row.entryDate, row.status, row.closingPrice, row.finalPnl)
  }

  /** `ORDER BY entry_date DESC, id DESC`: `a` is listed before `b`. */
  predicate ListedBefore(a: TradeRecord, b: TradeRecord) {
    a.entryDate > b.entryDate || (a.entryDate == b.entryDate && a.id > b.id)
  }

  predicate NewestFirst(trades: seq<TradeRecord>) {
    forall i, j :: 0 <= i < j < |trades| ==> ListedBefore(trades[i], trades[j])
  }

  /** A record listed before every record of a newest-first listing heads a newest-first listing. */
  lemma PrependNewestFirst(h: TradeRecord, rest: seq<TradeRecord>)
    requires NewestFirst(rest)
    requires forall x :: x in rest ==> ListedBefore(h, x)
    ensures NewestFirst([h] + rest)
  {
    forall i, j | 0 <= i < j < |[h] + rest| ensures ListedBefore(([h] + rest)[i], ([h] + rest)[j]) {
      if i == 0 {
        assert ([h] + rest)[j] == rest[j - 1];
        assert rest[j - 1] in rest;
      } else {
        assert ([h] + rest)[i] == rest[i - 1] && ([h] + rest)[j] == rest[j - 1];
      }
    }
  }

  /** Places a record among records already listed newest first. */
  function InsertNewestFirst(t: TradeRecord, trades: seq<TradeRecord>): (r: seq<TradeRecord>)
    requires NewestFirst(trades)
    requires forall i :: 0 <= i < |trades| ==> trades[i].id != t.id
    ensures NewestFirst(r)
    ensures multiset(r) == multiset(trades) + multiset{t}
  {
    if trades == [] || ListedBefore(t, trades[0]) then
      PrependNewestFirst(t, trades);
      [t] + trades
    else
      var rest := InsertNewestFirst(t, trades[1..]);
      HeadBeforeInserted(t, trades, rest);
      assert trades == [trades[0]] + trades[1..];
      [trades[0]] + rest
  }

  /** The step of the insertion that keeps the untouched head first. */
  lemma HeadBeforeInserted(t: TradeRecord, trades: seq<TradeRecord>, rest: seq<TradeRecord>)
    requires NewestFirst(trades) && trades != []
    requires t.id != trades[0].id && !ListedBefore(t, trades[0])
    requires NewestFirst(rest) && multiset(rest) == multiset(trades[1..]) + multiset{t}
    ensures NewestFirst([trades[0]] + rest)
  {
    forall x | x in rest ensures ListedBefore(trades[0], x) {
      assert x in multiset(rest);
      if x != t {
        assert x in multiset(trades[1..]);
        var k :| 0 <= k < |trades[1..]| && trades[1..][k] == x;
        assert trades[k + 1] == x;
      }
    }
    PrependNewestFirst(trades[0], rest);
  }

  /** The record is the one stored under its id. */
  predicate ReadBack(t: TradeRecord, rows: map<int, Row>) {
    t.id in rows && RowToTrade(t.id, rows[t.id]) == Ok(t)
  }

  /** Some record in the listing carries the id. */
  predicate Listed(id: int, trades: seq<TradeRecord>) {
    exists i :: 0 <= i < |trades| && trades[i].id == id
  }

  /** Inserting keeps every record listed, adds the new one, and nothing else. */
  lemma InsertListing(t: TradeRecord, before: seq<TradeRecord>, after: seq<TradeRecord>)
    requires multiset(after) == multiset(before) + multiset{t}
    ensures forall x :: x in after <==> x in before || x == t
    ensures Listed(t.id, after)
    ensures forall id :: Listed(id, before) ==> Listed(id, after)
  {
    forall x ensures x in after <==> x in before || x == t {
      assert x in after <==> x in multiset(after);
      assert x in before <==> x in multiset(before);
    }
    assert t in after;
    var j :| 0 <= j < |after| && after[j] == t;
    forall id | Listed(id, before) ensures Listed(id, after) {
      var i :| 0 <= i < |before| && before[i].id == id;
      assert before[i] in after;
      var k :| 0 <= k < |after| && after[k] == before[i];
    }
  }

  /** Ids are positive and already handed out, and every stored row reads back as a trade. */
  predicate ValidTable(rows: map<int, Row>, lastId: int) {
    && lastId >= 0
    && (forall id :: id in rows ==> 1 <= id <= lastId)
    && (forall id :: id in rows ==> RowToTrade(id, rows[id]).Ok?)
  }

  class Journal {
    /** The `trades` table, by row id. */
    var rows: map<int, Row>
    /** The largest id AUTOINCREMENT has handed out; the next row gets `lastId + 1`. */
    var lastId: int

    ghost predicate Valid()
      reads this
    {
      ValidTable(rows, lastId)
    }

    /**
     * `TradingJournal()`: `CREATE TABLE IF NOT EXISTS` keeps whatever table the
     * database already holds, with its AUTOINCREMENT counter; a database opened
     * for the first time passes the empty table and 0.
     */
    constructor (table: map<int, Row>, counter: int)
      requires ValidTable(table, counter)
      ensures Valid() && rows == table && lastId == counter
    {
      rows := table;
      lastId := counter;
    }

    /**
     * `save_trade`: inserts an open row under a fresh positive id, dated `today`,
     * with no closing price or P&L, and returns its record.
     */
    method SaveTrade(strategy: Strategy, metrics: StrategyMetrics, today: Date) returns (record: TradeRecord)
      requires Valid() && ValidStrategy(strategy)
      modifies this
      ensures Valid()
      ensures record.id > 0 && record.id !in old(rows) && lastId == record.id == old(lastId) + 1
      ensures record == TradeRecord(record.id, strategy, metrics, today, Open, None, None)
      ensures rows == old(rows)[record.id := Row(StrategyToDict(strategy), metrics, today, "open", None, None)]
      ensures RowToTrade(record.id, rows[record.id]) == Ok(record)
    {
      StrategyRoundTrip(strategy);
      var id := lastId + 1;
      rows := rows[id := Row(StrategyToDict(strategy), metrics, today, "open", None, None)];
      lastId := id;
      record := TradeRecord(id, strategy, metrics, today, Open, None, None);
    }

    /**
     * `close_trade`: a missing id or a closed trade is a `TradingJournalError` and
     * changes nothing; otherwise the row becomes 'closed' with the closing price
     * and the settled P&L, its strategy, metrics and entry date untouched.
     */
    method CloseTrade(tradeId: int, closingPrice: real) returns (r: Result<TradeRecord, JournalError>)
      requires Valid()
      modifies this
      ensures Valid() && lastId == old(lastId)
      ensures tradeId !in old(rows) || old(rows)[tradeId].status == "closed" ==>
                r == Err(NotFoundOrClosed(tradeId)) && rows == old(rows)
      ensures tradeId in old(rows) && old(rows)[tradeId].status != "closed" ==>
                var row := old(rows)[tradeId];
                var strategy := DictToStrategy(row.strategyData).value;
                var pnl := CalculateFinalPnl(strategy, row.metricsData, closingPrice);
                && rows == old(rows)[tradeId := row.(status := "closed", closingPrice := Some(closingPrice), finalPnl := Some(pnl))]
                && r == Ok(TradeRecord(tradeId, strategy, row.metricsData, row.entryDate, Closed, Some(closingPrice), Some(pnl)))
    {
      if tradeId !in rows || rows[tradeId].status == "closed" {
        return Err(NotFoundOrClosed(tradeId));
      }
      var row := rows[tradeId];
      assert RowToTrade(tradeId, row).Ok?;
      var strategy := DictToStrategy(row.strategyData).value;
      var finalPnl := CalculateFinalPnl(strategy, row.metricsData, closingPrice);
      var closed := row.(status := "closed", closingPrice := Some(closingPrice), finalPnl := Some(finalPnl));
      rows := rows[tradeId := closed];
      r := Ok(TradeRecord(tradeId, strategy, row.metricsData, row.entryDate, Closed, Some(closingPrice), Some(finalPnl)));
    }

    /**
     * `get_all_trades`: every row exactly once, as its trade record, newest entry
     * date first and, within a date, highest id first.
     */
    method GetAllTrades() returns (trades: seq<TradeRecord>)
      requires Valid()
      ensures NewestFirst(trades)
      ensures forall i :: 0 <= i < |trades| ==> ReadBack(trades[i], rows)
      ensures forall id :: id in rows ==> Listed(id, trades)
    {
      trades := [];
      var id := 1;
      while id <= lastId
        invariant 1 <= id <= lastId + 1
        invariant NewestFirst(trades)
        invariant forall i :: 0 <= i < |trades| ==> trades[i].id < id && ReadBack(trades[i], rows)
        invariant forall k :: k in rows && k < id ==> Listed(k, trades)
      {
        if id in rows {
          var t := RowToTrade(id, rows[id]).value;
          var before := trades;
          trades := InsertNewestFirst(t, trades);
          InsertListing(t, before, trades);
          forall i | 0 <= i < |trades| ensures trades[i].id < id + 1 && ReadBack(trades[i], rows) {
            assert trades[i] in before || trades[i] == t;
          }
        }
        id := id + 1;
      }
    }
  }

  /** Saving, closing, closing again and reopening the database, as the journal tests do. */
  method SaveCloseScenario(strategy: Strategy, metrics: StrategyMetrics, today: Date)
    requires ValidStrategy(strategy)
  {
    var journal := new Journal(map[], 0);
    var saved := journal.SaveTrade(strategy, metrics, today);
    assert saved.id == 1 && saved.status == Open && saved.finalPnl == None;
    var closed := journal.CloseTrade(saved.id, 160.0);
    assert closed.Ok? && closed.value.status == Closed && closed.value.closingPrice == Some(160.0);
    assert closed.value.finalPnl == Some(CalculateFinalPnl(strategy, metrics, 160.0));
    var again := journal.CloseTrade(saved.id, 150.0);
    assert again == Err(NotFoundOrClosed(1));
    var missing := journal.CloseTrade(999, 150.0);
    assert missing.Err?;
    var reopened := new Journal(journal.rows, journal.lastId);
    var trades := reopened.GetAllTrades();
    assert Listed(1, trades);
  }
}
