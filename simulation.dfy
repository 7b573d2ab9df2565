/** The dashboard's state (App.tsx): a timer tick that generates one synthetic
    trade event into a bounded window and a running total, and the in-flight
    flag and counsel that govern analysis. Math.random and Date.now become
    parameters; the country and commodity lists come from a module that is not
    part of this model and are parameters too. */
module Simulation {
  import opened Types
  import opened Seqs
  import Insights

  /** The starting value of the running total. */
  const InitialVolume: int := 1450200000

  /** How many events the window keeps. */
  const WindowSize: nat := 50

  /** How many events must be in the window before analysis starts by itself. */
  const AutoAnalyzeThreshold: nat := 5

  /** A reading of Math.random(). */
  type Unit = r: real | 0.0 <= r < 1.0

  /** `Math.floor(r * n)`: an index into a list of length n. */
  function PickIndex(r: Unit, n: nat): (i: nat)
    requires n > 0
    ensures i < n
  {
    var x := r * n as real;
    assert x < n as real by {
      assert r * n as real < 1.0 * n as real;
    }
    x.Floor
  }

  /** `xs[Math.floor(r * xs.length)]`: a uniform choice from xs. */
  function Pick<T>(xs: seq<T>, r: Unit): (x: T)
    requires |xs| > 0
    ensures x in xs
  {
    xs[PickIndex(r, |xs|)]
  }

  /** `Math.floor(r * 50000000) + 10000000`. */
  function EventValue(r: Unit): (v: int)
    ensures 10000000 <= v < 60000000
  {
    (r * 50000000.0).Floor + 10000000
  }

  /** `r > 0.5 ? 'Export' : 'Import'`. */
  function DirectionOf(r: Unit): (d: Direction)
    ensures d == Export <==> r > 0.5
    ensures d == Import <==> r <= 0.5
  {
    if r > 0.5 then Export else Import
  }

  /** What every generated event satisfies. */
  ghost predicate WellFormed(e: TradeEvent) {
    e.origin != e.destination && 10000000 <= e.value < 60000000
  }

  /** The country the redrawing settles on: the first draw that names a
      country other than the origin, or None when no draw does. */
  function Redraw(countries: seq<string>, origin: string, draws: seq<Unit>): (r: Option<string>)
    requires |countries| > 0
    ensures r.Some? ==> r.value != origin && r.value in countries
  {
    if draws == [] then None
    else if Pick(countries, draws[0]) != origin then Some(Pick(countries, draws[0]))
    else Redraw(countries, origin, draws[1..])
  }

  /** Redrawing settles exactly when some draw names another country. */
  lemma {:induction false} RedrawSettles(countries: seq<string>, origin: string, draws: seq<Unit>)
    requires |countries| > 0
    ensures Redraw(countries, origin, draws).Some? <==>
      exists k :: 0 <= k < |draws| && Pick(countries, draws[k]) != origin
  {
    if draws != [] {
      RedrawSettles(countries, origin, draws[1..]);
      assert forall k :: 1 <= k < |draws| ==> draws[k] == draws[1..][k - 1];
    }
  }

  /** The event a tick builds from its draws. */
  ghost predicate Drawn(
    e: TradeEvent, countries: seq<string>, commodities: seq<string>,
    originDraw: Unit, destinationDraws: seq<Unit>, commodityDraw: Unit,
    valueDraw: Unit, directionDraw: Unit, id: string, now: int)
    requires |countries| > 0 && |commodities| > 0
  {
    && e.origin == Pick(countries, originDraw)
    && Redraw(countries, e.origin, destinationDraws) == Some(e.destination)
    && e.commodity == Pick(commodities, commodityDraw)
    && e.value == EventValue(valueDraw)
    && e.kind == DirectionOf(directionDraw)
    && e.id == id && e.timestamp == now
  }

  /** Builds one trade event. The destination is redrawn until it differs
      from the origin; `destinationDraws` are the successive readings of
      Math.random() that the redrawing consumes, and one of them must land on
      another country for the loop to stop. */
  method GenerateEvent(
    countries: seq<string>, commodities: seq<string>,
    originDraw: Unit, destinationDraws: seq<Unit>, commodityDraw: Unit,
    valueDraw: Unit, directionDraw: Unit, id: string, now: int)
    returns (e: TradeEvent)
    requires |countries| > 0 && |commodities| > 0
    requires Redraw(countries, Pick(countries, originDraw), destinationDraws).Some?
    ensures e.origin != e.destination
    ensures e.origin in countries && e.destination in countries && e.commodity in commodities
    ensures 10000000 <= e.value < 60000000
    ensures Drawn(e, countries, commodities, originDraw, destinationDraws, commodityDraw,
                  valueDraw, directionDraw, id, now)
  {
    var origin := Pick(countries, originDraw);
    var i := 0;
    var destination := Pick(countries, destinationDraws[0]);
    while destination == origin
      invariant 0 <= i < |destinationDraws|
      invariant destination == Pick(countries, destinationDraws[i])
      invariant Redraw(countries, origin, destinationDraws[i..]) == Redraw(countries, origin, destinationDraws)
      decreases |destinationDraws| - i
    {
      assert destinationDraws[i..][1..] == destinationDraws[i + 1..];
      i := i + 1;
      destination := Pick(countries, destinationDraws[i]);
    }
    e := TradeEvent(id, origin, destination, Pick(commodities, commodityDraw),
                    EventValue(valueDraw), now, DirectionOf(directionDraw));
  }

  /** The window after a tick: `[...prev.slice(-49), event]`. */
  function Slide(prev: seq<TradeEvent>, e: TradeEvent): (w: seq<TradeEvent>)
    ensures |w| == Min(|prev| + 1, WindowSize)
    ensures w[|w| - 1] == e
    ensures forall i :: 0 <= i < |w| - 1 ==> w[i] == prev[|prev| - (|w| - 1) + i]
  {
    Tail(prev, WindowSize - 1) + [e]
  }

  /** Sliding keeps the window equal to the last 50 events ever generated:
      it is at most 50 long, ends with the new event, drops the oldest first
      and drops nothing while there is room. */
  lemma SlideKeepsLastFifty(history: seq<TradeEvent>, e: TradeEvent)
    ensures Slide(Tail(history, WindowSize), e) == Tail(history + [e], WindowSize)
    ensures |Slide(Tail(history, WindowSize), e)| == Min(|history| + 1, WindowSize)
    ensures |history| < WindowSize ==> Slide(Tail(history, WindowSize), e) == history + [e]
  {
    TailOfTail(history, WindowSize, WindowSize - 1);
    TailAppend(history, e, WindowSize);
  }

  /** The window is the last 50 events ever generated, the total is the
      starting volume plus the value of every one of them, and each of them
      is well formed. */
  ghost predicate WindowInvariant(events: seq<TradeEvent>, totalVolume: int, history: seq<TradeEvent>) {
    && events == Tail(history, WindowSize)
    && totalVolume == InitialVolume + SumValues(history)
    && forall i :: 0 <= i < |history| ==> WellFormed(history[i])
  }

  /** The flag is up exactly while an analysis of a non-empty snapshot is in
      flight, and analysis has started by itself at most once: after that it
      is in flight or a counsel exists. */
  ghost predicate AnalysisInvariant(
    counsel: Option<AICounsel>, isAnalyzing: bool, inFlight: Option<seq<TradeEvent>>, autoRuns: nat)
  {
    && (isAnalyzing <==> inFlight.Some?)
    && (inFlight.Some? ==> inFlight.value != [])
    && autoRuns <= 1
    && (autoRuns == 1 ==> isAnalyzing || counsel.Some?)
  }

  /** A tick keeps the window invariant: sliding the new event in, adding its
      value to the total and recording it in the history. */
  lemma TickKeepsWindowInvariant(
    events: seq<TradeEvent>, totalVolume: int, history: seq<TradeEvent>, e: TradeEvent)
    requires WindowInvariant(events, totalVolume, history)
    requires WellFormed(e)
    ensures WindowInvariant(Slide(events, e), totalVolume + e.value, history + [e])
  {
    var h := history + [e];
    SlideKeepsLastFifty(history, e);
    assert h[..|history|] == history;
    forall i | 0 <= i < |h| ensures WellFormed(h[i]) {
      if i < |history| { assert h[i] == history[i]; }
    }
  }

  /** Every auto-analysis condition, as the effect at App.tsx:54 tests it. */
  predicate AutoAnalyzeDue(eventCount: nat, counsel: Option<AICounsel>, isAnalyzing: bool) {
    eventCount >= AutoAnalyzeThreshold && counsel == None && !isAnalyzing
  }

  class Dashboard {
    var events: seq<TradeEvent>
    var counsel: Option<AICounsel>
    var isAnalyzing: bool
    var totalVolume: int

    /** Every event ever generated, oldest first, evicted ones included. */
    ghost var history: seq<TradeEvent>
    /** The window captured by the analysis in flight, if any. */
    ghost var inFlight: Option<seq<TradeEvent>>
    /** How many times analysis started by itself. */
    ghost var autoRuns: nat

    ghost predicate Valid()
      reads this
    {
      && WindowInvariant(events, totalVolume, history)
      && AnalysisInvariant(counsel, isAnalyzing, inFlight, autoRuns)
    }

    constructor ()
      ensures Valid()
      ensures events == [] && counsel == None && !isAnalyzing && totalVolume == InitialVolume
      ensures history == [] && inFlight == None && autoRuns == 0
    {
      events := [];
      counsel := None;
      isAnalyzing := false;
      totalVolume := InitialVolume;
      history := [];
      inFlight := None;
      autoRuns := 0;
    }

    /** One timer tick: generate an event, slide it into the window and add
        its value to the running total. */
    method Tick(
      countries: seq<string>, commodities: seq<string>,
      originDraw: Unit, destinationDraws: seq<Unit>, commodityDraw: Unit,
      valueDraw: Unit, directionDraw: Unit, id: string, now: int)
      returns (e: TradeEvent)
      requires Valid()
      requires |countries| > 0 && |commodities| > 0
      requires Redraw(countries, Pick(countries, originDraw), destinationDraws).Some?
      modifies this
      ensures Valid()
      ensures Drawn(e, countries, commodities, originDraw, destinationDraws, commodityDraw,
                    valueDraw, directionDraw, id, now)
      ensures events == Slide(old(events), e)
      ensures |events| == Min(|old(events)| + 1, WindowSize)
      ensures totalVolume == old(totalVolume) + e.value > old(totalVolume)
      ensures history == old(history) + [e]
      ensures counsel == old(counsel) && isAnalyzing == old(isAnalyzing)
      ensures inFlight == old(inFlight) && autoRuns == old(autoRuns)
    {
      e := GenerateEvent(countries, commodities, originDraw, destinationDraws,
                         commodityDraw, valueDraw, directionDraw, id, now);
      TickKeepsWindowInvariant(events, totalVolume, history, e);
      events := Slide(events, e);
      totalVolume := totalVolume + e.value;
      history := history + [e];
    }

    /** handleAnalyze up to its `await`: nothing happens on an empty window;
        otherwise the flag goes up and the current window is the snapshot
        handed to the request. Both callers start it only when no analysis is
        in flight. */
    method StartAnalyze() returns (snapshot: Option<seq<TradeEvent>>)
      requires Valid() && !isAnalyzing
      modifies this
      ensures Valid()
      ensures old(events) == [] ==> snapshot == None && !isAnalyzing && inFlight == None
      ensures old(events) != [] ==> snapshot == Some(old(events)) && isAnalyzing && inFlight == snapshot
      ensures events == old(events) && counsel == old(counsel) && totalVolume == old(totalVolume)
      ensures history == old(history) && autoRuns == old(autoRuns)
    {
      if events == [] {
        snapshot := None;
        return;
      }
      isAnalyzing := true;
      snapshot := Some(events);
      inFlight := snapshot;
    }

    /** handleAnalyze after its `await`: the counsel becomes what the fetcher
        returned for the snapshot, and the flag comes down. */
    method FinishAnalyze(
      snapshot: seq<TradeEvent>, amount: int -> string,
      ask: string -> Insights.Reply, parse: string -> Option<AICounsel>)
      requires Valid() && inFlight == Some(snapshot)
      modifies this
      ensures Valid()
      ensures counsel == Some(Insights.GetTradeInsights(snapshot, amount, ask, parse))
      ensures !isAnalyzing && inFlight == None
      ensures events == old(events) && totalVolume == old(totalVolume)
      ensures history == old(history) && autoRuns == old(autoRuns)
    {
      var c := Insights.GetTradeInsights(snapshot, amount, ask, parse);
      counsel := Some(c);
      isAnalyzing := false;
      inFlight := None;
    }

    /** The "Identify Best Trades" button, disabled while analyzing. */
    method ClickAnalyze() returns (snapshot: Option<seq<TradeEvent>>)
      requires Valid()
      modifies this
      ensures Valid()
      ensures old(isAnalyzing) ==> snapshot == None && isAnalyzing && inFlight == old(inFlight)
      ensures !old(isAnalyzing) && old(events) == [] ==> snapshot == None && !isAnalyzing
      ensures !old(isAnalyzing) && old(events) != [] ==>
        snapshot == Some(old(events)) && isAnalyzing && inFlight == snapshot
      ensures events == old(events) && counsel == old(counsel) && totalVolume == old(totalVolume)
      ensures history == old(history) && autoRuns == old(autoRuns)
    {
      if isAnalyzing {
        snapshot := None;
        return;
      }
      snapshot := StartAnalyze();
    }

    /** The effect that starts analysis by itself once five events are in,
        no counsel exists and nothing is in flight; it can fire only once. */
    method AutoAnalyze() returns (snapshot: Option<seq<TradeEvent>>)
      requires Valid()
      modifies this
      ensures Valid()
      ensures snapshot.Some? <==> AutoAnalyzeDue(|old(events)|, old(counsel), old(isAnalyzing))
      ensures snapshot.Some? ==>
        old(autoRuns) == 0 && autoRuns == 1 && snapshot == Some(old(events))
        && isAnalyzing && inFlight == snapshot
      ensures snapshot.None? ==>
        autoRuns == old(autoRuns) && isAnalyzing == old(isAnalyzing) && inFlight == old(inFlight)
      ensures events == old(events) && counsel == old(counsel) && totalVolume == old(totalVolume)
      ensures history == old(history)
    {
      if AutoAnalyzeDue(|events|, counsel, isAnalyzing) {
        snapshot := StartAnalyze();
        autoRuns := autoRuns + 1;
      } else {
        snapshot := None;
      }
    }
  }

  /** A session as the page drives it: the effect stays quiet while fewer
      than five events are in and fires on the fifth; the button is then
      disabled. */
  method FiveTicksStartAnalysis()
  {
    var d := new Dashboard();
    var countries, commodities := ["USA", "VIETNAM"], ["Semiconductors"];
    var draws: seq<Unit> := [0.9];
    assert Pick(countries, draws[0]) == "VIETNAM" != Pick(countries, 0.0);
    var e := d.Tick(countries, commodities, 0.0, draws, 0.0, 0.5, 0.7, "a", 0);
    e := d.Tick(countries, commodities, 0.0, draws, 0.0, 0.5, 0.7, "b", 4000);
    e := d.Tick(countries, commodities, 0.0, draws, 0.0, 0.5, 0.7, "c", 8000);
    e := d.Tick(countries, commodities, 0.0, draws, 0.0, 0.5, 0.7, "d", 12000);
    var fired := d.AutoAnalyze();
    assert fired == None;
    e := d.Tick(countries, commodities, 0.0, draws, 0.0, 0.5, 0.7, "e", 16000);
    fired := d.AutoAnalyze();
    assert fired.Some? && d.isAnalyzing;
    var again := d.ClickAnalyze();
    assert again == None;
  }

  /** Once an analysis finishes, the counsel is set and the effect does not
      fire again. */
  method FinishedAnalysisStaysDone(
    d: Dashboard, snapshot: seq<TradeEvent>, amount: int -> string,
    ask: string -> Insights.Reply, parse: string -> Option<AICounsel>)
    requires d.Valid() && d.inFlight == Some(snapshot)
    modifies d
  {
    d.FinishAnalyze(snapshot, amount, ask, parse);
    var fired := d.AutoAnalyze();
    assert fired == None && d.counsel.Some? && !d.isAnalyzing;
  }
}
