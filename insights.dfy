/** The counsel fetcher (services/geminiService.ts): a digest of the most
    recent events, one external request, and a fixed fallback counsel that
    replaces every failure. The language-model client and JSON.parse are
    abstract parameters. */
module Insights {
  import opened Types
  import opened Seqs

  /** How many of the most recent events the digest covers. */
  const DigestSize: nat := 15

  /** What the awaited request gives back: it threw, or it answered with a
      response whose `text` may be missing. */
  datatype Reply = Threw | Answered(text: Option<string>)

  /** One digest line: `<origin> -> <destination>: <commodity> ($<amount>M)`.
      `amount` stands for the formatting of value / 1e6 to one decimal. */
  function Line(e: TradeEvent, amount: int -> string): (l: string)
    ensures |e.origin| < |l| && l[..|e.origin|] == e.origin
    ensures '\n' in l <==>
      '\n' in e.origin || '\n' in e.destination || '\n' in e.commodity || '\n' in amount(e.value)
  {
    e.origin + " -> " + e.destination + ": " + e.commodity + " ($" + amount(e.value) + "M)"
  }

  /** The lines of the digest: one per event of the last 15, oldest first. */
  function DigestLines(events: seq<TradeEvent>, amount: int -> string): (ls: seq<string>)
    ensures |ls| == Min(|events|, DigestSize)
    ensures forall i :: 0 <= i < |ls| ==> ls[i] == Line(events[|events| - |ls| + i], amount)
  {
    var recent := Tail(events, DigestSize);
    seq(|recent|, i requires 0 <= i < |recent| => Line(recent[i], amount))
  }

  /** `lines.join("\n")`: a separator between lines and none after the last. */
  function Join(ls: seq<string>): (s: string)
    ensures |ls| > 0 ==> |ls[0]| <= |s| && s[..|ls[0]|] == ls[0]
    ensures |ls| > 0 ==> |ls[|ls| - 1]| <= |s| && s[|s| - |ls[|ls| - 1]|..] == ls[|ls| - 1]
    ensures |ls| > 1 ==> '\n' in s
  {
    if |ls| == 0 then ""
    else if |ls| == 1 then ls[0]
    else
      var rest := Join(ls[1..]);
      var last := ls[|ls| - 1];
      assert ls[1..][|ls| - 2] == last;
      assert (ls[0] + "\n" + rest)[|ls[0]|] == '\n';
      assert (ls[0] + "\n" + rest)[|ls[0]| + 1 + |rest| - |last|..] == rest[|rest| - |last|..];
      ls[0] + "\n" + rest
  }

  /** The digest text sent with the request. */
  function Digest(events: seq<TradeEvent>, amount: int -> string): (d: string)
    ensures d == "" <==> events == []
    ensures |events| > 1 ==> '\n' in d
  {
    Join(DigestLines(events, amount))
  }

  /** Splitting at every newline; the inverse of Join on newline-free lines. */
  function Split(s: string): (r: seq<string>)
    ensures |r| > 0
  {
    if s == [] then [""]
    else
      var rest := Split(s[1..]);
      if s[0] == '\n' then [""] + rest
      else [[s[0]] + rest[0]] + rest[1..]
  }

  lemma {:induction false} SplitSingle(l: string)
    requires '\n' !in l
    ensures Split(l) == [l]
  {
    if l != [] {
      SplitSingle(l[1..]);
      assert [l[0]] + l[1..] == l;
    }
  }

  lemma {:induction false} SplitAfterLine(l: string, t: string)
    requires '\n' !in l
    ensures Split(l + "\n" + t) == [l] + Split(t)
  {
    var s := l + "\n" + t;
    if l == [] {
      assert s[1..] == t;
    } else {
      assert s[1..] == l[1..] + "\n" + t;
      SplitAfterLine(l[1..], t);
      assert [l[0]] + l[1..] == l;
    }
  }

  /** Joining newline-free lines and splitting again gives the lines back,
      so the digest is exactly its lines, in order, with nothing trailing. */
  lemma {:induction false} SplitJoin(ls: seq<string>)
    requires |ls| > 0
    requires forall i :: 0 <= i < |ls| ==> '\n' !in ls[i]
    ensures Split(Join(ls)) == ls
  {
    if |ls| == 1 {
      SplitSingle(ls[0]);
    } else {
      SplitAfterLine(ls[0], Join(ls[1..]));
      SplitJoin(ls[1..]);
      assert [ls[0]] + ls[1..] == ls;
    }
  }

  /** For a non-empty window whose names and amounts hold no newline, the
      digest splits into exactly Min(|events|, 15) lines, the i-th of which
      describes the i-th of the most recent events. */
  lemma DigestHasOneLinePerRecentEvent(events: seq<TradeEvent>, amount: int -> string)
    requires events != []
    requires forall i :: 0 <= i < |events| ==> '\n' !in Line(events[i], amount)
    ensures |Split(Digest(events, amount))| == Min(|events|, DigestSize)
    ensures forall i :: 0 <= i < Min(|events|, DigestSize) ==>
      Split(Digest(events, amount))[i] == Line(events[|events| - Min(|events|, DigestSize) + i], amount)
  {
    var ls := DigestLines(events, amount);
    var n := |events| - |ls|;
    forall i | 0 <= i < |ls| ensures '\n' !in ls[i] {
      assert ls[i] == Line(events[n + i], amount);
    }
    SplitJoin(ls);
    assert Split(Digest(events, amount)) == ls;
  }

  /** The counsel returned whenever the request or its parsing fails. */
  function Fallback(): (c: AICounsel)
    ensures |c.risks| == 2 && |c.opportunities| == 1
    ensures c.opportunities[0].pair == "USA -> VIETNAM"
    ensures c.opportunities[0].action == StrongBuy.Label()
    ensures c.opportunities[0].strategyType == SupplyChain.Label()
    ensures c.opportunities[0].confidence == 88.0
    ensures forall o :: o in c.opportunities ==> Conforms(o)
  {
    AICounsel(
      "Stable trade flows detected across major tech corridors.",
      "Neutral-Bullish",
      "Maintain existing positions in semiconductor logistics.",
      ["Shipping lane congestion", "Regional policy shifts"],
      [TradeOpportunity(
        "USA -> VIETNAM",
        "Semiconductors",
        "STRONG BUY",
        "Supply Chain",
        88.0,
        "Increased assembly demand in Southeast Asian hubs.",
        "+14.2%")])
  }

  /** The text of a reply that the code accepts: present and not empty. */
  function Answer(reply: Reply): Option<string> {
    if reply.Answered? && reply.text.Some? && reply.text.value != "" then reply.text else None
  }

  /** The body of the `try`: a thrown request, a missing or empty text (which
      throws "No response from AI") and a failed parse all leave no counsel. */
  function Attempt(reply: Reply, parse: string -> Option<AICounsel>): (r: Option<AICounsel>)
    ensures reply == Threw ==> r == None
    ensures r.Some? <==> Answer(reply).Some? && parse(Answer(reply).value).Some?
    ensures r.Some? ==> r == parse(Answer(reply).value)
  {
    match reply
    case Threw => None
    case Answered(text) =>
      if text == None || text == Some("") then None
      else parse(text.value)
  }

  /** getTradeInsights: the request carries the digest; any failure becomes
      the fallback, and a parsed answer is returned exactly as parsed. */
  function GetTradeInsights(
    events: seq<TradeEvent>, amount: int -> string,
    ask: string -> Reply, parse: string -> Option<AICounsel>): (c: AICounsel)
    ensures ask(Digest(events, amount)) == Threw ==> c == Fallback()
    ensures ask(Digest(events, amount)) in {Answered(None), Answered(Some(""))} ==> c == Fallback()
    ensures Answer(ask(Digest(events, amount))).Some? ==>
      c == (if parse(Answer(ask(Digest(events, amount))).value).Some?
            then parse(Answer(ask(Digest(events, amount))).value).value else Fallback())
    ensures c != Fallback() ==>
      Answer(ask(Digest(events, amount))).Some? && parse(Answer(ask(Digest(events, amount))).value) == Some(c)
  {
    match Attempt(ask(Digest(events, amount)), parse)
    case Some(parsed) => parsed
    case None => Fallback()
  }
}
