/**
 * The data model of src/models.py. Each Python dataclass becomes a datatype; the
 * checks its `__post_init__` makes become a `Valid...` predicate together with a
 * checked constructor `New...` that returns the first `ValueError` the Python
 * constructor would raise, in the order it tests the fields.
 *
 * The fields that Python keeps as free-form strings ('call'/'put', 'buy'/'sell',
 * 'open'/'closed') are enumerations here; parsing the string is part of the
 * checked constructor, and `...Name` gives the string back.
 */
module Models {
  import opened Wrappers

  /** A `datetime`, kept abstract: only equality and order matter to the core. */
  type Timestamp = int

  /** A calendar `date` as a day number; a later date is a larger number. */
  type Date = int

  /** Shares per contract: the multiplier every profit and payoff uses. */
  const ContractSize: real := 100.0

  datatype OptionType = Call | Put
  datatype Action = Buy | Sell
  datatype TradeStatus = Open | Closed

  /** The `ValueError`s raised by the `__post_init__` checks, with the offending value. */
  datatype ValidationError =
    | NonPositivePrice(price: real)
    | EmptySymbol
    | NonPositiveStrike(strike: real)
    | UnknownOptionType(optionType: string)
    | NegativeBid(bid: real)
    | AskBelowBid(ask: real, bid: real)
    | UnknownAction(action: string)
    | NonPositiveQuantity(quantity: int)
    | NoLegs
    | TooManyLegs(count: nat)
    | UnknownStatus(status: string)

  datatype StockQuote = StockQuote(symbol: string, price: real, timestamp: Timestamp)

  datatype OptionContract = OptionContract(
    symbol: string,
    strike: real,
    expiration: Date,
    optionType: OptionType,
    bid: real,
    ask: real)

  datatype OptionLeg = OptionLeg(action: Action, contract: OptionContract, quantity: int)

  /** Legs in the order given; the calculator re-checks their number itself. */
  datatype Strategy = Strategy(legs: seq<OptionLeg>, underlyingSymbol: string, createdAt: Timestamp)

  /** The calculator's output, carried unvalidated (StrategyMetrics has no checks). */
  datatype StrategyMetrics = StrategyMetrics(
    netPremium: real,
    maxProfit: real,
    maxLoss: real,
    breakevenPoints: seq<real>,
    marginRequirement: real,
    returnOnMargin: real)

  datatype TradeRecord = TradeRecord(
    id: int,
    strategy: Strategy,
    metrics: StrategyMetrics,
    entryDate: Date,
    status: TradeStatus,
    closingPrice: Option<real>,
    finalPnl: Option<real>)

  // ---------------------------------------------------------------------------
  // The string forms of the enumerations

  function OptionTypeName(t: OptionType): string {
    match t
    case Call => "call"
    case Put => "put"
  }

  function ActionName(a: Action): string {
    match a
    case Buy => "buy"
    case Sell => "sell"
  }

  function StatusName(s: TradeStatus): string {
    match s
    case Open => "open"
    case Closed => "closed"
  }

  /** Accepts exactly 'call' and 'put', and names them back unchanged. */
  function ParseOptionType(s: string): (r: Result<OptionType, ValidationError>)
    ensures r.Ok? <==> s == "call" || s == "put"
    ensures r.Ok? ==> OptionTypeName(r.value) == s
    ensures r.Err? ==> r.error == UnknownOptionType(s)
  {
    if s == "call" then Ok(Call)
    else if s == "put" then Ok(Put)
    else Err(UnknownOptionType(s))
  }

  /** Accepts exactly 'buy' and 'sell', and names them back unchanged. */
  function ParseAction(s: string): (r: Result<Action, ValidationError>)
    ensures r.Ok? <==> s == "buy" || s == "sell"
    ensures r.Ok? ==> ActionName(r.value) == s
    ensures r.Err? ==> r.error == UnknownAction(s)
  {
    if s == "buy" then Ok(Buy)
    else if s == "sell" then Ok(Sell)
    else Err(UnknownAction(s))
  }

  /** Accepts exactly 'open' and 'closed', and names them back unchanged. */
  function ParseStatus(s: string): (r: Result<TradeStatus, ValidationError>)
    ensures r.Ok? <==> s == "open" || s == "closed"
    ensures r.Ok? ==> StatusName(r.value) == s
    ensures r.Err? ==> r.error == UnknownStatus(s)
  {
    if s == "open" then Ok(Open)
    else if s == "closed" then Ok(Closed)
    else Err(UnknownStatus(s))
  }

  /** Naming then parsing gives every enumeration value back. */
  lemma NamesParseBack(t: OptionType, a: Action, s: TradeStatus)
    ensures ParseOptionType(OptionTypeName(t)) == Ok(t)
    ensures ParseAction(ActionName(a)) == Ok(a)
    ensures ParseStatus(StatusName(s)) == Ok(s)
  {
  }

  // ---------------------------------------------------------------------------
  // Well-formedness, as the `__post_init__` checks define it

  predicate ValidQuote(q: StockQuote) {
    q.price > 0.0 && q.symbol != ""
  }

  predicate ValidContract(c: OptionContract) {
    c.strike > 0.0 && c.bid >= 0.0 && c.ask >= c.bid
  }

  predicate ValidLeg(leg: OptionLeg) {
    leg.quantity > 0 && ValidContract(leg.contract)
  }

  /** One or two legs, each well formed. */
  predicate ValidStrategy(s: Strategy) {
    1 <= |s.legs| <= 2 && forall i :: 0 <= i < |s.legs| ==> ValidLeg(s.legs[i])
  }

  // ---------------------------------------------------------------------------
  // Checked constructors

  /** `StockQuote(...)`: price must be positive, then the symbol non-empty. */
  function NewStockQuote(symbol: string, price: real, timestamp: Timestamp): (r: Result<StockQuote, ValidationError>)
    ensures r.Ok? <==> ValidQuote(StockQuote(symbol, price, timestamp))
    ensures r.Ok? ==> r.value == StockQuote(symbol, price, timestamp)
    ensures price <= 0.0 ==> r == Err(NonPositivePrice(price))
    ensures price > 0.0 && symbol == "" ==> r == Err(EmptySymbol)
  {
    if price <= 0.0 then Err(NonPositivePrice(price))
    else if symbol == "" then Err(EmptySymbol)
    else Ok(StockQuote(symbol, price, timestamp))
  }

  /**
   * `OptionContract(...)`: strike first, then the type string, then a negative
   * bid, then an ask below the bid. The symbol is not checked.
   */
  function NewOptionContract(symbol: string, strike: real, expiration: Date, optionType: string, bid: real, ask: real)
    : (r: Result<OptionContract, ValidationError>)
    ensures r.Ok? <==> strike > 0.0 && (optionType == "call" || optionType == "put") && 0.0 <= bid <= ask
    ensures r.Ok? ==> ValidContract(r.value)
    ensures r.Ok? ==> r.value.symbol == symbol && r.value.strike == strike && r.value.expiration == expiration
                      && OptionTypeName(r.value.optionType) == optionType && r.value.bid == bid && r.value.ask == ask
    ensures strike <= 0.0 ==> r == Err(NonPositiveStrike(strike))
    ensures strike > 0.0 && ParseOptionType(optionType).Err? ==> r == Err(UnknownOptionType(optionType))
    ensures strike > 0.0 && ParseOptionType(optionType).Ok? && bid < 0.0 ==> r == Err(NegativeBid(bid))
    ensures strike > 0.0 && ParseOptionType(optionType).Ok? && bid >= 0.0 && ask < bid ==> r == Err(AskBelowBid(ask, bid))
  {
    if strike <= 0.0 then Err(NonPositiveStrike(strike))
    else match ParseOptionType(optionType)
      case Err(e) => Err(e)
      case Ok(t) =>
        if bid < 0.0 then Err(NegativeBid(bid))
        else if ask < bid then Err(AskBelowBid(ask, bid))
        else Ok(OptionContract(symbol, strike, expiration, t, bid, ask))
  }

  /**
   * `OptionLeg(...)`: the action string first, then a positive quantity, which
   * defaults to 1. The contract was checked when it was built.
   */
  function NewOptionLeg(action: string, contract: OptionContract, quantity: int := 1)
    : (r: Result<OptionLeg, ValidationError>)
    ensures r.Ok? <==> (action == "buy" || action == "sell") && quantity > 0
    ensures r.Ok? ==> ActionName(r.value.action) == action && r.value.contract == contract && r.value.quantity == quantity
    ensures r.Ok? && ValidContract(contract) ==> ValidLeg(r.value)
    ensures ParseAction(action).Err? ==> r == Err(UnknownAction(action))
    ensures ParseAction(action).Ok? && quantity <= 0 ==> r == Err(NonPositiveQuantity(quantity))
  {
    match ParseAction(action)
    case Err(e) => Err(e)
    case Ok(a) =>
      if quantity <= 0 then Err(NonPositiveQuantity(quantity))
      else Ok(OptionLeg(a, contract, quantity))
  }

  /** `Strategy(...)`: at least one leg, at most two. */
  function NewStrategy(legs: seq<OptionLeg>, underlyingSymbol: string, createdAt: Timestamp)
    : (r: Result<Strategy, ValidationError>)
    ensures r.Ok? <==> 1 <= |legs| <= 2
    ensures r.Ok? ==> r.value == Strategy(legs, underlyingSymbol, createdAt)
    ensures r.Ok? && (forall i :: 0 <= i < |legs| ==> ValidLeg(legs[i])) ==> ValidStrategy(r.value)
    ensures legs == [] ==> r == Err(NoLegs)
    ensures |legs| > 2 ==> r == Err(TooManyLegs(|legs|))
  {
    if legs == [] then Err(NoLegs)
    else if |legs| > 2 then Err(TooManyLegs(|legs|))
    else Ok(Strategy(legs, underlyingSymbol, createdAt))
  }

  /** `TradeRecord(...)`: the status string must be 'open' or 'closed'. */
  function NewTradeRecord(id: int, strategy: Strategy, metrics: StrategyMetrics, entryDate: Date,
                          status: string, closingPrice: Option<real>, finalPnl: Option<real>)
    : (r: Result<TradeRecord, ValidationError>)
    ensures r.Ok? <==> status == "open" || status == "closed"
    ensures r.Ok? ==> StatusName(r.value.status) == status
    ensures r.Ok? ==> r.value.id == id && r.value.strategy == strategy && r.value.metrics == metrics
                      && r.value.entryDate == entryDate && r.value.closingPrice == closingPrice
                      && r.value.finalPnl == finalPnl
    ensures r.Err? ==> r.error == UnknownStatus(status)
  {
    match ParseStatus(status)
    case Err(e) => Err(e)
    case Ok(st) => Ok(TradeRecord(id, strategy, metrics, entryDate, st, closingPrice, finalPnl))
  }
}
