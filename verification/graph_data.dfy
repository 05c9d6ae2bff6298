/** src/hooks/useGraphData.ts: the pull analytics behind the charts. The
    hook's `useMemo` blocks are pure functions of the pull list: a timeframe
    filter, a per-card tally with rounded percentages sorted by count, the
    top-ten chart slice and the summary statistics. `new Date(...)` and the
    month/year arithmetic of the cut-off are parameters: `instantOf` gives the
    instant (milliseconds) a `pull_date` string denotes and `cutoffMs` the
    instant one month or one year before now. */
module GraphData {
  import opened Records
  import Seqs
  import Helpers

  datatype Timeframe = Month | Year | All

  /** `filteredPulls`. */
  function FilteredPulls(pulls: seq<Pull>, timeframe: Timeframe, cutoffMs: int, instantOf: string -> int)
    : (r: seq<Pull>)
    ensures pulls == [] ==> r == []
    ensures timeframe == All ==> r == pulls
    ensures timeframe != All ==> Seqs.Sublist(r, pulls)
    ensures timeframe != All ==> forall p :: p in r <==> p in pulls && instantOf(p.pullDate) >= cutoffMs
    ensures timeframe != All ==> forall p ::
      multiset(r)[p] == (if instantOf(p.pullDate) >= cutoffMs then multiset(pulls)[p] else 0)
  {
    if pulls == [] then []
    else
      match timeframe
      case All => pulls
      case _ =>
        var keep := (p: Pull) => instantOf(p.pullDate) >= cutoffMs;
        Seqs.FilterIsSublist(pulls, keep);
        Seqs.FilterCount(pulls, keep);
        Seqs.Filter(pulls, keep)
  }

  // ----- Rounding -----

  /** `Math.round(a / b)` for a non-negative fraction: the nearest integer,
      halves rounded up. */
  function RoundHalfUp(a: nat, b: nat): (r: nat)
    requires b > 0
    ensures 2 * r * b <= 2 * a + b < 2 * r * b + 2 * b
  {
    (2 * a + b) / (2 * b)
  }

  /** A factor that is positive can be cancelled from both sides of `<=`. */
  lemma {:induction false} CancelFactor(a: int, b: int, t: int)
    requires t > 0 && a * t <= b * t
    ensures a <= b
  {
    assert (a - b) * t == a * t - b * t;
  }

  /** `Math.round((count / total) * 100)`. */
  function Percentage(count: nat, total: nat): (p: nat)
    requires total > 0
    ensures count <= total ==> p <= 100
  {
    var p := RoundHalfUp(100 * count, total);
    assert count <= total ==> p <= 100 by {
      if count <= total {
        assert (2 * p) * total <= 201 * total;
        CancelFactor(2 * p, 201, total);
      }
    }
    p
  }

  // ----- The tally -----

  /** The name shown for a pull's card: `pull.card?.card_name || 'Unknown Card'`. */
  function DisplayName(p: Pull): string {
    if p.card.Some? && p.card.value.name != "" then p.card.value.name else "Unknown Card"
  }

  /** The last pull in the list that drew card `id`. */
  function LastWith(pulls: seq<Pull>, id: nat): (p: Pull)
    requires Helpers.Occurrences(pulls, id) > 0
    ensures p in pulls && p.cardId == id
  {
    var n := |pulls| - 1;
    if pulls[n].cardId == id then pulls[n] else LastWith(pulls[..n], id)
  }

  /** One value of the `cardCounts` record. */
  datatype Tally = Tally(cardId: nat, cardName: string, count: nat)

  /** The `reduce` of `analytics`: per card id its count and the name of the
      most recent pull processed (each pull overwrites the name). */
  function Tallies(pulls: seq<Pull>): (m: map<nat, Tally>)
    ensures forall id :: id in m <==> Helpers.Occurrences(pulls, id) > 0
    ensures forall id :: id in m ==> m[id].cardId == id
    ensures forall id :: id in m ==> m[id].count == Helpers.Occurrences(pulls, id)
    ensures forall id :: id in m ==> m[id].cardName == DisplayName(LastWith(pulls, id))
  {
    if pulls == [] then map[]
    else
      var n := |pulls| - 1;
      var m := Tallies(pulls[..n]);
      var p := pulls[n];
      m[p.cardId := Tally(p.cardId, DisplayName(p), (if p.cardId in m then m[p.cardId].count else 0) + 1)]
  }

  /** One entry of `analytics` (PullAnalytics). */
  datatype CardStat = CardStat(cardId: nat, cardName: string, count: nat, percentage: nat)

  /** The `map` step: a tally with its percentage of `total`. */
  function WithPercentage(t: Tally, total: nat): CardStat
    requires total > 0
  {
    CardStat(t.cardId, t.cardName, t.count, Percentage(t.count, total))
  }

  /** `Object.values(cardCounts).map(...)` for the keys `ks`, in order. */
  function StatsFor(ks: seq<nat>, m: map<nat, Tally>, total: nat): (s: seq<CardStat>)
    requires total > 0
    requires forall i :: 0 <= i < |ks| ==> ks[i] in m
    ensures |s| == |ks|
    ensures forall i :: 0 <= i < |s| ==> s[i] == WithPercentage(m[ks[i]], total)
  {
    if ks == [] then [] else [WithPercentage(m[ks[0]], total)] + StatsFor(ks[1..], m, total)
  }

  // ----- The stable sort by count -----

  /** `x` comes before `y` in the analytics order: more pulls first, and among
      equal counts the smaller card id first. */
  predicate Before(x: CardStat, y: CardStat) {
    x.count > y.count || (x.count == y.count && x.cardId < y.cardId)
  }

  ghost predicate Ranked(s: seq<CardStat>) {
    forall i, j :: 0 <= i < j < |s| ==> Before(s[i], s[j])
  }

  /** Insert `x` after every element whose count is at least its count. */
  function InsertByCount(x: CardStat, s: seq<CardStat>): (r: seq<CardStat>)
    ensures multiset(r) == multiset(s) + multiset{x}
    ensures |r| == |s| + 1
  {
    if s == [] then [x]
    else if s[0].count >= x.count then
      assert s == [s[0]] + s[1..];
      [s[0]] + InsertByCount(x, s[1..])
    else [x] + s
  }

  /** `.sort((a, b) => b.count - a.count)`: a stable sort, by count, largest first. */
  function SortByCount(s: seq<CardStat>): (r: seq<CardStat>)
    ensures multiset(r) == multiset(s)
    ensures |r| == |s|
  {
    if s == [] then []
    else
      var n := |s| - 1;
      assert s == s[..n] + [s[n]];
      InsertByCount(s[n], SortByCount(s[..n]))
  }

  lemma {:induction false} InsertKeepsRanked(x: CardStat, s: seq<CardStat>)
    requires Ranked(s)
    requires forall y :: y in s ==> y.cardId < x.cardId
    ensures Ranked(InsertByCount(x, s))
  {
    if s != [] && s[0].count >= x.count {
      var rest := InsertByCount(x, s[1..]);
      InsertKeepsRanked(x, s[1..]);
      var r := [s[0]] + rest;
      forall j | 1 <= j < |r| ensures Before(s[0], r[j]) {
        assert r[j] in multiset(rest);
        assert r[j] in multiset(s[1..]) || r[j] == x;
        if r[j] != x {
          assert r[j] in s[1..];
          var k :| 0 <= k < |s[1..]| && s[1..][k] == r[j];
          assert s[k + 1] == r[j];
        }
      }
    } else if s != [] {
      var r := [x] + s;
      forall j | 1 <= j < |r| ensures Before(x, r[j]) {
        assert r[j] == s[j - 1];
        if j > 1 {
          assert Before(s[0], s[j - 1]);
        }
      }
    }
  }

  /** Sorting a list whose card ids ascend yields the analytics order: counts
      non-increasing, and equal counts in ascending card id (stability). */
  lemma {:induction false} SortRanks(s: seq<CardStat>)
    requires forall i, j :: 0 <= i < j < |s| ==> s[i].cardId < s[j].cardId
    ensures Ranked(SortByCount(s))
  {
    if s != [] {
      var n := |s| - 1;
      SortRanks(s[..n]);
      var sorted := SortByCount(s[..n]);
      forall y | y in sorted ensures y.cardId < s[n].cardId {
        assert y in multiset(s[..n]);
        var k :| 0 <= k < n && s[..n][k] == y;
      }
      InsertKeepsRanked(s[n], sorted);
    }
  }

  // ----- analytics -----

  /** The tallies as `Object.values` lists them (ascending card id), each
      with its percentage of the total. */
  function Unsorted(filtered: seq<Pull>): (s: seq<CardStat>)
    requires filtered != []
  {
    var m := Tallies(filtered);
    StatsFor(Seqs.AscendingKeys(m.Keys), m, |filtered|)
  }

  /** `analytics`: empty for no pulls; otherwise the per-card statistics in
      the analytics order. */
  function Analytics(filtered: seq<Pull>): (a: seq<CardStat>)
    ensures a == [] <==> filtered == []
  {
    if filtered == [] then []
    else
      assert Unsorted(filtered) != [] by {
        Helpers.OccursFromIndex(filtered, 0);
        assert filtered[0].cardId in Seqs.AscendingKeys(Tallies(filtered).Keys);
      }
      SortByCount(Unsorted(filtered))
  }

  /** An entry that tells the truth about the pulls: its card occurs, its
      count is that card's number of pulls, its percentage the rounded share
      of the total and its name that of the card's last pull. */
  ghost predicate Faithful(x: CardStat, pulls: seq<Pull>)
    requires pulls != []
  {
    && Helpers.Occurrences(pulls, x.cardId) > 0
    && x.count == Helpers.Occurrences(pulls, x.cardId)
    && x.percentage == Percentage(x.count, |pulls|)
    && x.cardName == DisplayName(LastWith(pulls, x.cardId))
  }

  /** Before sorting: every entry is faithful and the ids strictly ascend. */
  lemma {:induction false} UnsortedFaithful(filtered: seq<Pull>)
    requires filtered != []
    ensures var s := Unsorted(filtered);
      && (forall i :: 0 <= i < |s| ==> Faithful(s[i], filtered))
      && (forall i, j :: 0 <= i < j < |s| ==> s[i].cardId < s[j].cardId)
  {
    var m := Tallies(filtered);
    var ks := Seqs.AscendingKeys(m.Keys);
    var s := Unsorted(filtered);
    forall i | 0 <= i < |s| ensures Faithful(s[i], filtered) && s[i].cardId == ks[i] {
      var k := ks[i];
      assert k in m;
      assert s[i] == WithPercentage(m[k], |filtered|);
    }
  }

  /** Before sorting: every card that was drawn has an entry. */
  lemma {:induction false} UnsortedCovers(filtered: seq<Pull>, id: nat)
    requires filtered != []
    requires Helpers.Occurrences(filtered, id) > 0
    ensures exists i :: 0 <= i < |Unsorted(filtered)| && Unsorted(filtered)[i].cardId == id
  {
    var m := Tallies(filtered);
    var ks := Seqs.AscendingKeys(m.Keys);
    assert id in ks;
    var k :| 0 <= k < |ks| && ks[k] == id;
    assert Unsorted(filtered)[k] == WithPercentage(m[ks[k]], |filtered|);
  }

  /** The total of the counts of a list of statistics. */
  function SumCounts(s: seq<CardStat>): nat {
    if s == [] then 0 else s[0].count + SumCounts(s[1..])
  }

  lemma {:induction false} SumCountsInsert(x: CardStat, s: seq<CardStat>)
    ensures SumCounts(InsertByCount(x, s)) == x.count + SumCounts(s)
  {
    if s != [] && s[0].count >= x.count {
      SumCountsInsert(x, s[1..]);
    }
  }

  lemma {:induction false} SumCountsSnoc(s: seq<CardStat>, x: CardStat)
    ensures SumCounts(s + [x]) == SumCounts(s) + x.count
  {
    if s != [] {
      assert (s + [x])[1..] == s[1..] + [x];
      SumCountsSnoc(s[1..], x);
    }
  }

  /** Sorting keeps the total. */
  lemma {:induction false} SumCountsSort(s: seq<CardStat>)
    ensures SumCounts(SortByCount(s)) == SumCounts(s)
  {
    if s != [] {
      var n := |s| - 1;
      var front := s[..n];
      assert s == front + [s[n]];
      assert SortByCount(s) == InsertByCount(s[n], SortByCount(front));
      SumCountsSort(front);
      SumCountsInsert(s[n], SortByCount(front));
      SumCountsSnoc(front, s[n]);
    }
  }

  /** How many pulls drew one of the cards in `ks`. */
  function CountIn(pulls: seq<Pull>, ks: seq<nat>): nat {
    if pulls == [] then 0
    else CountIn(pulls[..|pulls| - 1], ks) + (if pulls[|pulls| - 1].cardId in ks then 1 else 0)
  }

  lemma {:induction false} CountInNone(pulls: seq<Pull>)
    ensures CountIn(pulls, []) == 0
  {
    if pulls != [] {
      CountInNone(pulls[..|pulls| - 1]);
    }
  }

  lemma {:induction false} CountInCons(pulls: seq<Pull>, k: nat, ks: seq<nat>)
    requires k !in ks
    ensures CountIn(pulls, [k] + ks) == Helpers.Occurrences(pulls, k) + CountIn(pulls, ks)
  {
    if pulls != [] {
      CountInCons(pulls[..|pulls| - 1], k, ks);
    }
  }

  lemma {:induction false} CountInAll(pulls: seq<Pull>, ks: seq<nat>)
    requires forall i :: 0 <= i < |pulls| ==> pulls[i].cardId in ks
    ensures CountIn(pulls, ks) == |pulls|
  {
    if pulls != [] {
      CountInAll(pulls[..|pulls| - 1], ks);
    }
  }

  /** The total of the tally counts for the keys `ks`. */
  function SumTallies(ks: seq<nat>, m: map<nat, Tally>): nat
    requires forall i :: 0 <= i < |ks| ==> ks[i] in m
  {
    if ks == [] then 0 else m[ks[0]].count + SumTallies(ks[1..], m)
  }

  /** Adding percentages keeps the counts. */
  lemma {:induction false} SumCountsStatsFor(ks: seq<nat>, m: map<nat, Tally>, total: nat)
    requires total > 0
    requires forall i :: 0 <= i < |ks| ==> ks[i] in m
    ensures SumCounts(StatsFor(ks, m, total)) == SumTallies(ks, m)
  {
    if ks != [] {
      var s := StatsFor(ks, m, total);
      assert s[1..] == StatsFor(ks[1..], m, total);
      SumCountsStatsFor(ks[1..], m, total);
    }
  }

  /** The tallies for distinct keys `ks` add up to the number of pulls
      drawing one of those cards. */
  lemma {:induction false} SumTalliesCount(pulls: seq<Pull>, ks: seq<nat>, m: map<nat, Tally>)
    requires forall i, j :: 0 <= i < j < |ks| ==> ks[i] < ks[j]
    requires forall i :: 0 <= i < |ks| ==> ks[i] in m
    requires forall k :: k in m ==> m[k].count == Helpers.Occurrences(pulls, k)
    ensures SumTallies(ks, m) == CountIn(pulls, ks)
  {
    if ks == [] {
      CountInNone(pulls);
    } else {
      var rest := ks[1..];
      SumTalliesCount(pulls, rest, m);
      assert ks == [ks[0]] + rest;
      CountInCons(pulls, ks[0], rest);
    }
  }

  /** Before sorting: the counts add up to the number of pulls. */
  lemma {:induction false} UnsortedSum(filtered: seq<Pull>)
    requires filtered != []
    ensures SumCounts(Unsorted(filtered)) == |filtered|
  {
    var m := Tallies(filtered);
    var ks := Seqs.AscendingKeys(m.Keys);
    SumCountsStatsFor(ks, m, |filtered|);
    SumTalliesCount(filtered, ks, m);
    forall i | 0 <= i < |filtered| ensures filtered[i].cardId in ks {
      Helpers.OccursFromIndex(filtered, i);
    }
    CountInAll(filtered, ks);
  }

  /** After sorting every entry is still faithful. */
  lemma {:induction false} SortedFaithful(filtered: seq<Pull>)
    requires filtered != []
    ensures var a := Analytics(filtered);
      forall i :: 0 <= i < |a| ==> Faithful(a[i], filtered)
  {
    var s := Unsorted(filtered);
    UnsortedFaithful(filtered);
    assert Analytics(filtered) == SortByCount(s);
    PermutedFaithful(SortByCount(s), s, filtered);
  }

  /** A rearrangement of faithful entries is faithful. */
  lemma {:induction false} PermutedFaithful(a: seq<CardStat>, s: seq<CardStat>, pulls: seq<Pull>)
    requires pulls != []
    requires multiset(a) == multiset(s)
    requires forall i :: 0 <= i < |s| ==> Faithful(s[i], pulls)
    ensures forall i :: 0 <= i < |a| ==> Faithful(a[i], pulls)
  {
    forall i | 0 <= i < |a| ensures Faithful(a[i], pulls) {
      assert a[i] in multiset(s);
      var k :| 0 <= k < |s| && s[k] == a[i];
    }
  }

  /** After sorting every card that was drawn still has an entry. */
  lemma {:induction false} SortedCovers(filtered: seq<Pull>, id: nat)
    requires filtered != []
    requires Helpers.Occurrences(filtered, id) > 0
    ensures var a := Analytics(filtered);
      exists i :: 0 <= i < |a| && a[i].cardId == id
  {
    var s := Unsorted(filtered);
    var a := Analytics(filtered);
    UnsortedCovers(filtered, id);
    var k :| 0 <= k < |s| && s[k].cardId == id;
    assert s[k] in multiset(a);
    var i :| 0 <= i < |a| && a[i] == s[k];
  }

  /** What `analytics` holds for a non-empty list of pulls: one faithful entry
      per distinct card id (each id once), percentages of at most 100, counts
      adding up to the number of pulls, in the analytics order (counts
      non-increasing, ties by ascending card id). */
  lemma {:induction false} AnalyticsSpec(filtered: seq<Pull>)
    requires filtered != []
    ensures var a := Analytics(filtered);
      && (forall id :: Helpers.Occurrences(filtered, id) > 0 <==> exists i :: 0 <= i < |a| && a[i].cardId == id)
      && (forall i :: 0 <= i < |a| ==> Faithful(a[i], filtered) && a[i].count >= 1 && a[i].percentage <= 100)
      && SumCounts(a) == |filtered|
      && Ranked(a)
      && (forall i, j :: 0 <= i < j < |a| ==> a[i].cardId != a[j].cardId)
  {
    var s := Unsorted(filtered);
    UnsortedFaithful(filtered);
    SortRanks(s);
    SortedFaithful(filtered);
    forall id | Helpers.Occurrences(filtered, id) > 0
      ensures exists i :: 0 <= i < |Analytics(filtered)| && Analytics(filtered)[i].cardId == id
    {
      SortedCovers(filtered, id);
    }
    SumCountsSort(s);
    UnsortedSum(filtered);
  }

  // ----- chartData -----

  /** How many cards the chart shows at most. */
  const TopCards: nat := 10

  datatype Dataset = Dataset(
    seriesLabel: string,
    data: seq<nat>,
    backgroundColor: seq<string>,
    borderColor: seq<string>,
    borderWidth: nat)

  datatype ChartData = ChartData(labels: seq<string>, datasets: seq<Dataset>)

  /** `chartData`: the first ten analytics entries as labels and counts; one
      colour per palette entry, opaque-ish for the shown bars and fainter
      for the rest. */
  function Chart(analytics: seq<CardStat>, colors: seq<string>): (c: ChartData)
    ensures var shown := if |analytics| < TopCards then |analytics| else TopCards;
      && |c.labels| == shown
      && |c.datasets| == 1
      && |c.datasets[0].data| == shown
      && (forall i :: 0 <= i < shown ==>
            c.labels[i] == analytics[i].cardName && c.datasets[0].data[i] == analytics[i].count)
      && |c.datasets[0].backgroundColor| == |colors|
      && |c.datasets[0].borderColor| == |colors|
      && c.datasets[0].seriesLabel == "Times Pulled"
      && c.datasets[0].borderWidth == 2
  {
    var top := analytics[..if |analytics| < TopCards then |analytics| else TopCards];
    ChartData(
      seq(|top|, i requires 0 <= i < |top| => top[i].cardName),
      [Dataset(
        "Times Pulled",
        seq(|top|, i requires 0 <= i < |top| => top[i].count),
        seq(|colors|, i requires 0 <= i < |colors| => if i < |top| then colors[i] + "80" else colors[i] + "40"),
        seq(|colors|, i requires 0 <= i < |colors| => if i < |top| then colors[i] else colors[i] + "60"),
        2)])
  }

  // ----- summaryStats and the hook's result -----

  datatype Summary = Summary(
    mostPulled: CardStat,
    totalPulls: nat,
    uniqueCards: nat,
    averageTenths: nat)   // averagePullsPerCard times ten

  /** `summaryStats`. */
  function SummaryStats(analytics: seq<CardStat>, filtered: seq<Pull>): (s: Option<Summary>)
    ensures s.None? <==> analytics == []
    ensures s.Some? ==> (s.value.mostPulled == analytics[0]
      && s.value.totalPulls == |filtered|
      && s.value.uniqueCards == |analytics|)
    // the average is the number of pulls per card, in tenths, rounded half up
    ensures s.Some? ==> (2 * s.value.averageTenths * s.value.uniqueCards <= 20 * s.value.totalPulls + s.value.uniqueCards
      && 20 * s.value.totalPulls + s.value.uniqueCards < 2 * s.value.averageTenths * s.value.uniqueCards + 2 * s.value.uniqueCards)
  {
    if analytics == [] then None
    else
      var total := |filtered|;
      var unique := |analytics|;
      Some(Summary(analytics[0], total, unique, RoundHalfUp(10 * total, unique)))
  }

  datatype GraphOutput = GraphOutput(
    analytics: seq<CardStat>,
    chartData: ChartData,
    summaryStats: Option<Summary>,
    loading: bool,
    hasData: bool)

  /** `useGraphData(pulls, timeframe, colors)`. */
  function UseGraphData(pulls: seq<Pull>, timeframe: Timeframe, cutoffMs: int,
                        instantOf: string -> int, colors: seq<string>): (g: GraphOutput)
    ensures var filtered := FilteredPulls(pulls, timeframe, cutoffMs, instantOf);
      && g.analytics == Analytics(filtered)
      && (g.hasData <==> filtered != [])
      && (g.hasData <==> g.summaryStats.Some?)
      && g.chartData == Chart(g.analytics, colors)
      && g.summaryStats == SummaryStats(g.analytics, filtered)
      && !g.loading
  {
    var filtered := FilteredPulls(pulls, timeframe, cutoffMs, instantOf);
    var analytics := Analytics(filtered);
    GraphOutput(analytics, Chart(analytics, colors), SummaryStats(analytics, filtered), false, |filtered| > 0)
  }

  /** The summary's most-pulled card is the one `getMostPulledCard` picks on
      the same pulls: same card, same count, and its count is never exceeded. */
  lemma {:induction false} SummaryAgreesWithMostPulled(filtered: seq<Pull>)
    requires filtered != []
    ensures var s := SummaryStats(Analytics(filtered), filtered);
      var most := Helpers.MostPulledCard(filtered);
      && s.Some? && most.Some?
      && s.value.mostPulled.cardId == most.value.cardId
      && s.value.mostPulled.count == most.value.count
  {
    var a := Analytics(filtered);
    AnalyticsSpec(filtered);
    var top := a[0];
    var most := Helpers.MostPulledCard(filtered).value;
    assert Helpers.Occurrences(filtered, most.cardId) > 0;
    var j :| 0 <= j < |a| && a[j].cardId == most.cardId;
    assert Faithful(a[0], filtered) && Faithful(a[j], filtered);
    assert a[0].count <= most.count;
    if j > 0 {
      assert false;
    }
  }

  lemma {:induction false} ExampleCounts(p: Pull, q: Pull, id: nat)
    requires p.cardId == 1 && q.cardId == 2
    ensures Helpers.Occurrences([p, p, q], id) == (if id == 1 then 2 else if id == 2 then 1 else 0)
  {
    assert [p, p, q][..2] == [p, p] && [p, p][..1] == [p] && [p][..0] == [];
    assert Helpers.Occurrences([p], id) == (if id == 1 then 1 else 0);
    assert Helpers.Occurrences([p, p], id) == (if id == 1 then 2 else 0);
  }

  lemma {:induction false} ExampleSize(p: Pull, q: Pull)
    requires p.cardId == 1 && q.cardId == 2
    ensures |Analytics([p, p, q])| == 2
  {
    var pulls := [p, p, q];
    var m := Tallies(pulls);
    forall id ensures id in m <==> id == 1 || id == 2 {
      ExampleCounts(p, q, id);
    }
    assert m.Keys == {1, 2};
    Seqs.AscendingKeysCount(m.Keys);
    var ks := Seqs.AscendingKeys(m.Keys);
    assert |ks| == 2;
    assert |Unsorted(pulls)| == 2;
    assert Analytics(pulls) == SortByCount(Unsorted(pulls));
  }

  /** Two draws of card 1 and one of card 2: card 1 leads with 67 per cent,
      card 2 follows with 33, and the average is 1.5 pulls per card. */
  lemma {:induction false} ExampleTwoCards(p: Pull, q: Pull)
    requires p.cardId == 1 && q.cardId == 2
    ensures var pulls := [p, p, q];
      var a := Analytics(pulls);
      var s := SummaryStats(a, pulls);
      && |a| == 2
      && a[0].cardId == 1 && a[0].count == 2 && a[0].percentage == 67
      && a[1].cardId == 2 && a[1].count == 1 && a[1].percentage == 33
      && s.Some? && s.value.averageTenths == 15 && s.value.uniqueCards == 2
  {
    var pulls := [p, p, q];
    var a := Analytics(pulls);
    ExampleSize(p, q);
    AnalyticsSpec(pulls);
    var x, y := a[0], a[1];
    assert Faithful(x, pulls) && Faithful(y, pulls);
    ExampleCounts(p, q, x.cardId);
    ExampleCounts(p, q, y.cardId);
    assert x.cardId != y.cardId;
    assert Before(x, y);
    assert x.cardId == 1 && y.cardId == 2;
    ExampleRounding();
  }

  /** The rounded shares and average of the example. */
  lemma {:induction false} ExampleRounding()
    ensures Percentage(2, 3) == 67 && Percentage(1, 3) == 33 && RoundHalfUp(30, 2) == 15
  {
  }
}
