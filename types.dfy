/** The record shapes shared by the dashboard (types.ts), as Dafny values. */
module Types {

  datatype Option<+T> = None | Some(value: T)

  /** The `type` field of a trade event: 'Export' | 'Import'. */
  datatype Direction = Export | Import

  /** One simulated trade. `value` is an integer amount in currency units;
      `timestamp` is the wall-clock reading (milliseconds) at generation. */
  datatype TradeEvent = TradeEvent(
    id: string,
    origin: string,
    destination: string,
    commodity: string,
    value: int,
    timestamp: int,
    kind: Direction)

  /** The union 'STRONG BUY' | 'ACCUMULATE' | 'HEDGE' | 'WATCH'. */
  datatype Action = StrongBuy | Accumulate | Hedge | Watch {
    function Label(): string {
      match this
      case StrongBuy => "STRONG BUY"
      case Accumulate => "ACCUMULATE"
      case Hedge => "HEDGE"
      case Watch => "WATCH"
    }
  }

  /** The union 'Arbitrage' | 'Momentum' | 'Supply Chain' | 'Swing Trade' | 'Macro Trend'. */
  datatype StrategyType = Arbitrage | Momentum | SupplyChain | SwingTrade | MacroTrend {
    function Label(): string {
      match this
      case Arbitrage => "Arbitrage"
      case Momentum => "Momentum"
      case SupplyChain => "Supply Chain"
      case SwingTrade => "Swing Trade"
      case MacroTrend => "Macro Trend"
    }
  }

  /** A suggested corridor. The two union-typed fields are kept as the strings
      that arrive from the parsed response: nothing at run time checks them
      against their unions, and `confidence` is not clamped to 0..100. */
  datatype TradeOpportunity = TradeOpportunity(
    pair: string,
    commodity: string,
    action: string,
    strategyType: string,
    confidence: real,
    rationale: string,
    targetYield: string)

  datatype AICounsel = AICounsel(
    summary: string,
    marketSentiment: string,
    recommendedAction: string,
    risks: seq<string>,
    opportunities: seq<TradeOpportunity>)

  /** Reads an action label back into the union; None for any other string. */
  function ParseAction(s: string): (r: Option<Action>)
    ensures r.Some? ==> r.value.Label() == s
  {
    if s == "STRONG BUY" then Some(StrongBuy)
    else if s == "ACCUMULATE" then Some(Accumulate)
    else if s == "HEDGE" then Some(Hedge)
    else if s == "WATCH" then Some(Watch)
    else None
  }

  /** Reads a strategy label back into the union; None for any other string. */
  function ParseStrategy(s: string): (r: Option<StrategyType>)
    ensures r.Some? ==> r.value.Label() == s
  {
    if s == "Arbitrage" then Some(Arbitrage)
    else if s == "Momentum" then Some(Momentum)
    else if s == "Supply Chain" then Some(SupplyChain)
    else if s == "Swing Trade" then Some(SwingTrade)
    else if s == "Macro Trend" then Some(MacroTrend)
    else None
  }

  /** Labels and parsing are inverse: every member of a union is read back as itself. */
  lemma LabelsRoundTrip(a: Action, t: StrategyType)
    ensures ParseAction(a.Label()) == Some(a)
    ensures ParseStrategy(t.Label()) == Some(t)
  {
    match a
    case StrongBuy =>
    case Accumulate =>
    case Hedge =>
    case Watch =>
  }

  /** An opportunity that meets the declared shape: both labels inside their
      unions and the confidence inside the documented 0-100 range. */
  predicate Conforms(o: TradeOpportunity) {
    ParseAction(o.action).Some? && ParseStrategy(o.strategyType).Some?
    && 0.0 <= o.confidence <= 100.0
  }
}
