/** The chart data (components/TradeCharts.tsx): a timeline of the last 20
    events, the per-commodity totals, the five largest of them and their bar
    colours. Amounts stay in currency units (the charts divide by 1e6). */
module Charts {
  import opened Types
  import opened Seqs

  /** How many events the timeline shows. */
  const TimelineSize: nat := 20

  /** How many commodities the bar chart shows. */
  const TopCount: nat := 5

  /** The bar colours, used in turn. */
  const Colors: seq<string> := ["#38bdf8", "#818cf8", "#c084fc", "#f472b6", "#fb7185"]

  datatype TimePoint = TimePoint(time: nat, value: int)

  /** `events.slice(-20).map((e, idx) => ({ time: idx, value: e.value }))`. */
  function TimeData(events: seq<TradeEvent>): (r: seq<TimePoint>)
    ensures |r| == Min(|events|, TimelineSize)
    ensures forall i :: 0 <= i < |r| ==>
      r[i].time == i && r[i].value == events[|events| - |r| + i].value
  {
    var recent := Tail(events, TimelineSize);
    seq(|recent|, i requires 0 <= i < |recent| => TimePoint(i, recent[i].value))
  }

  /** One key of the `commodityCounts` record with its accumulated total. */
  datatype Entry = Entry(name: string, total: int)

  /** The record's keys in the order JavaScript enumerates them: insertion order. */
  predicate DistinctNames(entries: seq<Entry>) {
    forall i, j :: 0 <= i < j < |entries| ==> entries[i].name != entries[j].name
  }

  /** `record[name]`, or None when the key is absent. */
  function Lookup(entries: seq<Entry>, name: string): Option<int> {
    if entries == [] then None
    else if entries[0].name == name then Some(entries[0].total)
    else Lookup(entries[1..], name)
  }

  /** `record[name] = (record[name] || 0) + amount`: an existing key keeps its
      place and grows; a new key goes last. */
  function Add(entries: seq<Entry>, name: string, amount: int): (r: seq<Entry>)
    ensures |entries| <= |r| <= |entries| + 1
    ensures Lookup(r, name).Some?
  {
    if entries == [] then [Entry(name, amount)]
    else if entries[0].name == name then [Entry(name, entries[0].total + amount)] + entries[1..]
    else [entries[0]] + Add(entries[1..], name, amount)
  }

  function Total(entries: seq<Entry>): int {
    if entries == [] then 0 else entries[0].total + Total(entries[1..])
  }

  /** A missing key is the name of no entry. */
  lemma {:induction false} LookupMissing(entries: seq<Entry>, name: string)
    ensures Lookup(entries, name).None? <==> forall i :: 0 <= i < |entries| ==> entries[i].name != name
  {
    if entries != [] {
      LookupMissing(entries[1..], name);
      assert forall i :: 1 <= i < |entries| ==> entries[i] == entries[1..][i - 1];
    }
  }

  /** In entries with distinct names, looking an entry's name up finds it. */
  lemma {:induction false} LookupAt(entries: seq<Entry>, a: nat)
    requires DistinctNames(entries)
    requires a < |entries|
    ensures Lookup(entries, entries[a].name) == Some(entries[a].total)
  {
    if a > 0 {
      assert entries[0].name != entries[a].name;
      LookupAt(entries[1..], a - 1);
    }
  }

  /** Adding to a key changes that key's total alone: it becomes the old
      total plus the amount, or the amount when the key was missing. */
  lemma {:induction false} AddLookup(entries: seq<Entry>, name: string, amount: int, other: string)
    ensures Lookup(Add(entries, name, amount), name) ==
      Some(if Lookup(entries, name).Some? then Lookup(entries, name).value + amount else amount)
    ensures other != name ==> Lookup(Add(entries, name, amount), other) == Lookup(entries, other)
  {
    if entries != [] && entries[0].name != name {
      AddLookup(entries[1..], name, amount, other);
    }
  }

  /** Adding keeps every key in its place and appends the key, last, exactly
      when it was missing. */
  lemma {:induction false} AddPlaces(entries: seq<Entry>, name: string, amount: int)
    ensures |Add(entries, name, amount)| == |entries| + (if Lookup(entries, name).Some? then 0 else 1)
    ensures forall i :: 0 <= i < |entries| ==> Add(entries, name, amount)[i].name == entries[i].name
    ensures Lookup(entries, name).None? ==> Add(entries, name, amount)[|entries|].name == name
  {
    if entries != [] && entries[0].name != name {
      var rest := Add(entries[1..], name, amount);
      AddPlaces(entries[1..], name, amount);
      assert Add(entries, name, amount) == [entries[0]] + rest;
    }
  }

  /** Adding keeps the keys distinct. */
  lemma AddDistinct(entries: seq<Entry>, name: string, amount: int)
    requires DistinctNames(entries)
    ensures DistinctNames(Add(entries, name, amount))
  {
    var r := Add(entries, name, amount);
    AddPlaces(entries, name, amount);
    LookupMissing(entries, name);
    forall i, j | 0 <= i < j < |r| ensures r[i].name != r[j].name {
      if j < |entries| {
        assert r[i].name == entries[i].name && r[j].name == entries[j].name;
      } else {
        assert r[i].name == entries[i].name;
      }
    }
  }

  /** Adding grows the grand total by the amount added. */
  lemma {:induction false} AddTotal(entries: seq<Entry>, name: string, amount: int)
    ensures Total(Add(entries, name, amount)) == Total(entries) + amount
  {
    if entries != [] && entries[0].name != name {
      AddTotal(entries[1..], name, amount);
    }
  }

  /** The sum of the values of the events of one commodity. */
  function SumFor(events: seq<TradeEvent>, commodity: string): int {
    if events == [] then 0
    else
      var last := events[|events| - 1];
      SumFor(events[..|events| - 1], commodity) + (if last.commodity == commodity then last.value else 0)
  }

  function CommoditiesOf(events: seq<TradeEvent>): set<string> {
    set i | 0 <= i < |events| :: events[i].commodity
  }

  /** The record after `events.forEach(...)`: the keys added in turn. */
  function Accumulate(events: seq<TradeEvent>): (counts: seq<Entry>)
    ensures |counts| <= |events|
    ensures events != [] ==> Lookup(counts, events[|events| - 1].commodity).Some?
  {
    if events == [] then []
    else
      var last := events[|events| - 1];
      Add(Accumulate(events[..|events| - 1]), last.commodity, last.value)
  }

  lemma CommoditiesAppend(init: seq<TradeEvent>, last: TradeEvent)
    ensures CommoditiesOf(init + [last]) == CommoditiesOf(init) + {last.commodity}
  {
    var events := init + [last];
    forall c | c in CommoditiesOf(events) ensures c in CommoditiesOf(init) + {last.commodity} {
      var i :| 0 <= i < |events| && events[i].commodity == c;
      if i < |init| { assert init[i].commodity == c; }
    }
    forall c | c in CommoditiesOf(init) ensures c in CommoditiesOf(events) {
      var i :| 0 <= i < |init| && init[i].commodity == c;
      assert events[i].commodity == c;
    }
    assert events[|init|].commodity == last.commodity;
  }

  /** A commodity that does not occur sums to nothing. */
  lemma {:induction false} SumForAbsent(events: seq<TradeEvent>, c: string)
    requires c !in CommoditiesOf(events)
    ensures SumFor(events, c) == 0
  {
    if events != [] {
      var init := events[..|events| - 1];
      assert c !in CommoditiesOf(init) by {
        forall i | 0 <= i < |init| ensures init[i].commodity != c {
          assert init[i] == events[i];
        }
      }
      assert events[|events| - 1].commodity != c;
      SumForAbsent(init, c);
    }
  }

  /** The record holds a key exactly for each commodity that occurs, and the
      key holds the sum of that commodity's values. */
  lemma {:induction false} AccumulateLookup(events: seq<TradeEvent>, c: string)
    ensures Lookup(Accumulate(events), c) ==
      if c in CommoditiesOf(events) then Some(SumFor(events, c)) else None
  {
    if events != [] {
      var init := events[..|events| - 1];
      var last := events[|events| - 1];
      assert events == init + [last];
      AccumulateLookup(init, c);
      AddLookup(Accumulate(init), last.commodity, last.value, c);
      CommoditiesAppend(init, last);
      assert SumFor(events, c) == SumFor(init, c) + (if last.commodity == c then last.value else 0);
      if c == last.commodity {
        assert c in CommoditiesOf(events);
        if c !in CommoditiesOf(init) { SumForAbsent(init, c); }
      } else {
        assert Lookup(Accumulate(events), c) == Lookup(Accumulate(init), c);
      }
    }
  }

  /** No commodity has two keys. */
  lemma {:induction false} AccumulateDistinct(events: seq<TradeEvent>)
    ensures DistinctNames(Accumulate(events))
  {
    if events != [] {
      var last := events[|events| - 1];
      AccumulateDistinct(events[..|events| - 1]);
      AddDistinct(Accumulate(events[..|events| - 1]), last.commodity, last.value);
    }
  }

  /** There are as many keys as distinct commodities. */
  lemma {:induction false} AccumulateSize(events: seq<TradeEvent>)
    ensures |Accumulate(events)| == |CommoditiesOf(events)|
  {
    if events != [] {
      var init := events[..|events| - 1];
      var last := events[|events| - 1];
      assert events == init + [last];
      AccumulateSize(init);
      AccumulateLookup(init, last.commodity);
      AddPlaces(Accumulate(init), last.commodity, last.value);
      CommoditiesAppend(init, last);
    }
  }

  /** All keys together hold the sum of all values. */
  lemma {:induction false} AccumulateTotal(events: seq<TradeEvent>)
    ensures Total(Accumulate(events)) == SumValues(events)
  {
    if events != [] {
      var last := events[|events| - 1];
      AccumulateTotal(events[..|events| - 1]);
      AddTotal(Accumulate(events[..|events| - 1]), last.commodity, last.value);
    }
  }

  /** The `forEach` loop that fills `commodityCounts`. */
  method CommodityCounts(events: seq<TradeEvent>) returns (counts: seq<Entry>)
    ensures counts == Accumulate(events)
    ensures DistinctNames(counts) && |counts| == |CommoditiesOf(events)|
    ensures forall c :: Lookup(counts, c) == (if c in CommoditiesOf(events) then Some(SumFor(events, c)) else None)
    ensures Total(counts) == SumValues(events)
  {
    counts := [];
    for i := 0 to |events|
      invariant counts == Accumulate(events[..i])
    {
      assert events[..i + 1][..i] == events[..i];
      counts := Add(counts, events[i].commodity, events[i].value);
    }
    assert events[..|events|] == events;
    AccumulateDistinct(events);
    AccumulateSize(events);
    AccumulateTotal(events);
    forall c ensures Lookup(counts, c) ==
      if c in CommoditiesOf(events) then Some(SumFor(events, c)) else None
    {
      AccumulateLookup(events, c);
    }
  }

  /** Places x before the first entry whose total it reaches, so that among
      equal totals the earlier entry stays first. */
  function Insert(x: Entry, sorted: seq<Entry>): (r: seq<Entry>)
    ensures |r| == |sorted| + 1
  {
    if sorted == [] || x.total >= sorted[0].total then [x] + sorted
    else [sorted[0]] + Insert(x, sorted[1..])
  }

  /** `sort((a, b) => b[1] - a[1])`: a stable sort by total, largest first. */
  function SortByTotal(entries: seq<Entry>): (r: seq<Entry>)
    ensures |r| == |entries|
  {
    if entries == [] then [] else Insert(entries[0], SortByTotal(entries[1..]))
  }

  predicate NonIncreasing(entries: seq<Entry>) {
    forall i, j :: 0 <= i < j < |entries| ==> entries[i].total >= entries[j].total
  }

  /** Inserting adds exactly the inserted entry. */
  lemma {:induction false} InsertPermutes(x: Entry, sorted: seq<Entry>)
    ensures multiset(Insert(x, sorted)) == multiset(sorted) + multiset{x}
  {
    if sorted != [] && x.total < sorted[0].total {
      InsertPermutes(x, sorted[1..]);
      assert Insert(x, sorted) == [sorted[0]] + Insert(x, sorted[1..]);
      assert sorted == [sorted[0]] + sorted[1..];
    }
  }

  /** Inserting into a list sorted by total, largest first, keeps it sorted. */
  lemma {:induction false} InsertSorts(x: Entry, sorted: seq<Entry>)
    requires NonIncreasing(sorted)
    ensures NonIncreasing(Insert(x, sorted))
  {
    var r := Insert(x, sorted);
    if sorted != [] && x.total < sorted[0].total {
      var rest := Insert(x, sorted[1..]);
      InsertSorts(x, sorted[1..]);
      assert r == [sorted[0]] + rest;
      assert rest[0] == x || rest[0] == sorted[1];
      forall i, j | 0 <= i < j < |r| ensures r[i].total >= r[j].total {
        assert r[j] == rest[j - 1];
        if i > 0 {
          assert r[i] == rest[i - 1];
        } else if j > 1 {
          assert rest[0].total >= rest[j - 1].total;
        }
      }
    } else {
      assert r == [x] + sorted;
      forall i, j | 0 <= i < j < |r| ensures r[i].total >= r[j].total {
        assert r[j] == sorted[j - 1];
        if i > 0 {
          assert r[i] == sorted[i - 1];
        } else if j > 1 {
          assert sorted[0].total >= sorted[j - 1].total;
        }
      }
    }
  }

  /** Sorting orders by total, largest first, and loses or adds nothing. */
  lemma {:induction false} SortByTotalSpec(entries: seq<Entry>)
    ensures NonIncreasing(SortByTotal(entries))
    ensures multiset(SortByTotal(entries)) == multiset(entries)
  {
    if entries != [] {
      SortByTotalSpec(entries[1..]);
      InsertSorts(entries[0], SortByTotal(entries[1..]));
      InsertPermutes(entries[0], SortByTotal(entries[1..]));
      assert entries == [entries[0]] + entries[1..];
    }
  }

  /** `Object.entries(commodityCounts).sort(...).slice(0, 5)`. */
  function TopCommodities(counts: seq<Entry>): (top: seq<Entry>)
    ensures |top| == Min(|counts|, TopCount)
  {
    var sorted := SortByTotal(counts);
    if |sorted| <= TopCount then sorted else sorted[..TopCount]
  }

  /** The bar chart shows Min(|counts|, 5) distinct commodities, largest total
      first, each one of the record's entries; no commodity left out has a
      larger total than any commodity shown. */
  lemma TopCommoditiesSpec(counts: seq<Entry>)
    requires DistinctNames(counts)
    ensures |TopCommodities(counts)| == Min(|counts|, TopCount)
    ensures NonIncreasing(TopCommodities(counts))
    ensures DistinctNames(TopCommodities(counts))
    ensures forall e :: e in TopCommodities(counts) ==> e in counts
    ensures forall e, k :: e in counts && e !in TopCommodities(counts) && k in TopCommodities(counts) ==>
      k.total >= e.total
  {
    var sorted := SortByTotal(counts);
    var top := TopCommodities(counts);
    SortByTotalSpec(counts);
    assert |sorted| == |multiset(sorted)| == |multiset(counts)| == |counts|;
    assert top == sorted[..|top|];
    forall e | e in top ensures e in counts {
      assert e in multiset(sorted);
    }
    forall i, j | 0 <= i < j < |top| ensures top[i].name != top[j].name {
      DistinctSortedNames(counts, sorted, i, j);
    }
    forall e, k | e in counts && e !in top && k in top ensures k.total >= e.total {
      assert e in multiset(counts);
      var a :| 0 <= a < |sorted| && sorted[a] == e;
      var b :| 0 <= b < |top| && top[b] == k;
      assert sorted[b] == k;
      assert a >= |top|;
    }
  }

  /** A permutation of entries with distinct names has distinct names. */
  lemma DistinctSortedNames(counts: seq<Entry>, sorted: seq<Entry>, i: nat, j: nat)
    requires DistinctNames(counts)
    requires multiset(sorted) == multiset(counts)
    requires i < j < |sorted|
    ensures sorted[i].name != sorted[j].name
  {
    assert sorted[i] in multiset(counts) && sorted[j] in multiset(counts);
    var a :| 0 <= a < |counts| && counts[a] == sorted[i];
    var b :| 0 <= b < |counts| && counts[b] == sorted[j];
    if a == b {
      // the same entry twice in sorted would need two copies in counts
      assert sorted[i] == sorted[j];
      var m := multiset(counts);
      assert multiset{sorted[i], sorted[j]} <= multiset(sorted) by {
        assert sorted == sorted[..i] + [sorted[i]] + sorted[i + 1..j] + [sorted[j]] + sorted[j + 1..];
      }
      assert m[counts[a]] >= 2;
      UniqueEntryOccursOnce(counts, a);
    }
  }

  /** In entries with distinct names, each entry occurs once. */
  lemma {:induction false} UniqueEntryOccursOnce(counts: seq<Entry>, a: nat)
    requires DistinctNames(counts)
    requires a < |counts|
    ensures multiset(counts)[counts[a]] == 1
  {
    assert counts == counts[..a] + [counts[a]] + counts[a + 1..];
    assert counts[a] !in counts[..a] by {
      forall i | 0 <= i < a ensures counts[..a][i] != counts[a] {
        assert counts[i].name != counts[a].name;
      }
    }
    var after := counts[a + 1..];
    assert counts[a] !in after by {
      forall i | 0 <= i < |after| ensures after[i] != counts[a] {
        assert after[i] == counts[a + 1 + i];
      }
    }
    assert multiset(counts) == multiset(counts[..a]) + multiset{counts[a]} + multiset(counts[a + 1..]);
  }

  /** The bar chart's data for a window of events. */
  function CommodityData(events: seq<TradeEvent>): (bars: seq<Entry>)
    ensures |bars| <= TopCount && |bars| <= |events|
    ensures events != [] ==> |bars| > 0
  {
    TopCommodities(Accumulate(events))
  }

  /** Over a window: Min(number of distinct commodities, 5) bars, one per
      commodity, largest first, each showing its commodity's total. */
  lemma CommodityDataSpec(events: seq<TradeEvent>)
    ensures |CommodityData(events)| == Min(|CommoditiesOf(events)|, TopCount)
    ensures NonIncreasing(CommodityData(events)) && DistinctNames(CommodityData(events))
    ensures forall e :: e in CommodityData(events) ==>
      e.name in CommoditiesOf(events) && e.total == SumFor(events, e.name)
  {
    var counts := Accumulate(events);
    AccumulateDistinct(events);
    AccumulateSize(events);
    TopCommoditiesSpec(counts);
    forall e | e in CommodityData(events)
      ensures e.name in CommoditiesOf(events) && e.total == SumFor(events, e.name)
    {
      var a :| 0 <= a < |counts| && counts[a] == e;
      LookupAt(counts, a);
      AccumulateLookup(events, e.name);
    }
  }

  /** `COLORS[index % COLORS.length]` for each bar. */
  function BarColors(bars: seq<Entry>): (colors: seq<string>)
    ensures |colors| == |bars|
    ensures forall i :: 0 <= i < |colors| ==> colors[i] in Colors
  {
    seq(|bars|, i requires 0 <= i < |bars| => Colors[i % |Colors|])
  }

  /** The first five bars take the palette in order and the colours repeat
      every five bars; so on the at most five bars the chart shows, no two
      bars share a colour. */
  lemma BarColorsSpec(bars: seq<Entry>)
    ensures forall i :: 0 <= i < |bars| - |Colors| ==> BarColors(bars)[i] == BarColors(bars)[i + |Colors|]
    ensures |bars| <= TopCount ==>
      forall i, j :: 0 <= i < j < |bars| ==> BarColors(bars)[i] != BarColors(bars)[j]
    ensures forall i :: 0 <= i < Min(|bars|, |Colors|) ==> BarColors(bars)[i] == Colors[i]
  {
    var colors := BarColors(bars);
    forall i | 0 <= i < |bars| - |Colors| ensures colors[i] == colors[i + |Colors|] {
      assert (i + |Colors|) % |Colors| == i % |Colors|;
    }
    if |bars| <= TopCount {
      forall i, j | 0 <= i < j < |bars| ensures colors[i] != colors[j] {
        assert colors[i] == Colors[i] && colors[j] == Colors[j];
      }
    }
  }
}
