/** The opportunity cards (components/TradeSignals.tsx): an icon per strategy
    label, a badge colour per action label, one card per opportunity. */
module Signals {
  import opened Types

  /** The icon for a label outside the strategy union. */
  const DefaultIcon: string := "fa-chart-simple"

  /** The icon of each member of the strategy union. */
  function IconOf(t: StrategyType): string {
    match t
    case Arbitrage => "fa-scale-balanced"
    case Momentum => "fa-bolt-lightning"
    case SupplyChain => "fa-link"
    case SwingTrade => "fa-arrows-left-right"
    case MacroTrend => "fa-earth-americas"
  }

  /** getStrategyIcon: a switch over the raw label with a default, so every
      string gets an icon; the five labels get their own icons. */
  function StrategyIcon(strategy: string): (icon: string)
    ensures icon == match ParseStrategy(strategy)
                    case Some(t) => IconOf(t)
                    case None => DefaultIcon
  {
    if strategy == "Arbitrage" then "fa-scale-balanced"
    else if strategy == "Momentum" then "fa-bolt-lightning"
    else if strategy == "Supply Chain" then "fa-link"
    else if strategy == "Swing Trade" then "fa-arrows-left-right"
    else if strategy == "Macro Trend" then "fa-earth-americas"
    else DefaultIcon
  }

  /** Reads a strategy back from its icon. */
  function StrategyOfIcon(icon: string): Option<StrategyType> {
    if icon == "fa-scale-balanced" then Some(Arbitrage)
    else if icon == "fa-bolt-lightning" then Some(Momentum)
    else if icon == "fa-link" then Some(SupplyChain)
    else if icon == "fa-arrows-left-right" then Some(SwingTrade)
    else if icon == "fa-earth-americas" then Some(MacroTrend)
    else None
  }

  /** The icon tells the strategy: the six icons are pairwise distinct, so
      the five labels get five different icons and the default is none of
      them. */
  lemma IconIdentifiesStrategy(strategy: string)
    ensures StrategyOfIcon(StrategyIcon(strategy)) == ParseStrategy(strategy)
  {
  }

  /** Two labels share an icon exactly when they name the same strategy or
      both lie outside the union. */
  lemma SameIconIffSameStrategy(s1: string, s2: string)
    ensures StrategyIcon(s1) == StrategyIcon(s2) <==> ParseStrategy(s1) == ParseStrategy(s2)
  {
    IconIdentifiesStrategy(s1);
    IconIdentifiesStrategy(s2);
  }

  datatype Badge = Emerald | Sky | Amber

  /** The action badge: `STRONG BUY` emerald, `ACCUMULATE` sky, anything else amber. */
  function ActionBadge(action: string): (b: Badge)
    ensures b == Emerald <==> ParseAction(action) == Some(StrongBuy)
    ensures b == Sky <==> ParseAction(action) == Some(Accumulate)
  {
    if action == "STRONG BUY" then Emerald
    else if action == "ACCUMULATE" then Sky
    else Amber
  }

  /** On the union, HEDGE and WATCH are the amber actions. */
  lemma AmberActions(a: Action)
    ensures ActionBadge(a.Label()) == Amber <==> a == Hedge || a == Watch
  {
    LabelsRoundTrip(a, Arbitrage);
  }

  /** What one card shows. `barWidth` is the confidence used as a percentage
      width, as it is, without clamping. */
  datatype Card = Card(
    badge: Badge, action: string, icon: string, strategyType: string,
    targetYield: string, pair: string, commodity: string, rationale: string,
    barWidth: real, confidence: real)

  function CardOf(o: TradeOpportunity): (c: Card)
    ensures c.badge == Emerald <==> ParseAction(o.action) == Some(StrongBuy)
    ensures c.icon == DefaultIcon <==> ParseStrategy(o.strategyType) == None
    ensures c.barWidth == c.confidence == o.confidence
    ensures c.pair == o.pair && c.commodity == o.commodity && c.rationale == o.rationale
    ensures c.targetYield == o.targetYield && c.action == o.action && c.strategyType == o.strategyType
  {
    Card(ActionBadge(o.action), o.action, StrategyIcon(o.strategyType), o.strategyType,
         o.targetYield, o.pair, o.commodity, o.rationale, o.confidence, o.confidence)
  }

  /** `opportunities.map(...)`: one card per opportunity, in order, each
      showing its opportunity's fields and confidence unchanged. */
  function Cards(opportunities: seq<TradeOpportunity>): (cards: seq<Card>)
    ensures |cards| == |opportunities|
    ensures forall i :: 0 <= i < |cards| ==>
      && cards[i].pair == opportunities[i].pair
      && cards[i].commodity == opportunities[i].commodity
      && cards[i].rationale == opportunities[i].rationale
      && cards[i].targetYield == opportunities[i].targetYield
      && cards[i].action == opportunities[i].action
      && cards[i].strategyType == opportunities[i].strategyType
      && cards[i].confidence == cards[i].barWidth == opportunities[i].confidence
      && cards[i].badge == ActionBadge(opportunities[i].action)
      && cards[i].icon == StrategyIcon(opportunities[i].strategyType)
  {
    seq(|opportunities|, i requires 0 <= i < |opportunities| => CardOf(opportunities[i]))
  }
}
