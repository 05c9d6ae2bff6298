/** src/components/dashboard/InteractiveCalendar.tsx: the calendar's pulls
    grouped by day, the indicator flags of one day, the click guard and the
    statistics of the shown month. Reading a pull's date in the local time
    zone (`format(new Date(pull_date), 'yyyy-MM-dd')`) and the month test
    (`isSameMonth(.., currentDate)`) are function parameters. */
module Calendar {
  import opened Records
  import Seqs

  // ----- Grouping by day -----

  /** The test that a pull belongs to the day `key`. */
  function OnDay(dateKey: string -> string, key: string): Pull -> bool {
    (p: Pull) => dateKey(p.pullDate) == key
  }

  /** The pulls of the day `key`, in their original order, built from the
      back the way `push` builds a group. */
  function DayPulls(pulls: seq<Pull>, dateKey: string -> string, key: string): seq<Pull> {
    if pulls == [] then []
    else
      var last := pulls[|pulls| - 1];
      DayPulls(pulls[..|pulls| - 1], dateKey, key) + (if dateKey(last.pullDate) == key then [last] else [])
  }

  /** The pulls of a day are the list filtered by that day. */
  lemma {:induction false} DayPullsIsFilter(pulls: seq<Pull>, dateKey: string -> string, key: string)
    ensures DayPulls(pulls, dateKey, key) == Seqs.Filter(pulls, OnDay(dateKey, key))
  {
    if pulls != [] {
      var n := |pulls| - 1;
      DayPullsIsFilter(pulls[..n], dateKey, key);
      assert pulls == pulls[..n] + [pulls[n]];
      Seqs.FilterAppend(pulls[..n], [pulls[n]], OnDay(dateKey, key));
    }
  }

  /** A day has no pulls exactly when no pull is dated on it. */
  lemma {:induction false} DayPullsEmpty(pulls: seq<Pull>, dateKey: string -> string, key: string)
    ensures DayPulls(pulls, dateKey, key) == [] <==>
            forall i :: 0 <= i < |pulls| ==> dateKey(pulls[i].pullDate) != key
  {
    if pulls != [] {
      var n := |pulls| - 1;
      DayPullsEmpty(pulls[..n], dateKey, key);
      assert forall i :: 0 <= i < n ==> pulls[..n][i] == pulls[i];
    }
  }

  /** `grouped` holds a group for the day of every pull and for no other day,
      and each group is the pulls of its day in their original order. */
  ghost predicate IsGrouping(grouped: map<string, seq<Pull>>, pulls: seq<Pull>, dateKey: string -> string) {
    && (forall i :: 0 <= i < |pulls| ==> dateKey(pulls[i].pullDate) in grouped)
    && (forall k :: k in grouped ==> grouped[k] != [] && grouped[k] == DayPulls(pulls, dateKey, k))
  }

  /** No key is listed twice. */
  ghost predicate Distinct(keys: seq<string>) {
    forall a, b :: 0 <= a < b < |keys| ==> keys[a] != keys[b]
  }

  /** The total size of the groups listed in `keys`. */
  function SizeSum(keys: seq<string>, grouped: map<string, seq<Pull>>): (n: nat)
    requires forall k :: k in keys ==> k in grouped
  {
    if keys == [] then 0
    else SizeSum(keys[..|keys| - 1], grouped) + |grouped[keys[|keys| - 1]]|
  }

  /** Changing a group that is not listed leaves the total as it is. */
  lemma {:induction false} SizeSumOther(keys: seq<string>, grouped: map<string, seq<Pull>>,
                                        key: string, group: seq<Pull>)
    requires forall k :: k in keys ==> k in grouped
    requires key !in keys
    ensures SizeSum(keys, grouped[key := group]) == SizeSum(keys, grouped)
  {
    if keys != [] {
      SizeSumOther(keys[..|keys| - 1], grouped, key, group);
    }
  }

  /** Appending one pull to a group listed once adds one to the total. */
  lemma {:induction false} SizeSumPush(keys: seq<string>, grouped: map<string, seq<Pull>>,
                                       key: string, p: Pull)
    requires forall k :: k in keys ==> k in grouped
    requires Distinct(keys) && key in keys
    ensures SizeSum(keys, grouped[key := grouped[key] + [p]]) == SizeSum(keys, grouped) + 1
  {
    var n := |keys| - 1;
    var front := keys[..n];
    assert forall k :: k in front ==> k in keys;
    if keys[n] == key {
      assert key !in front by {
        forall a | 0 <= a < n ensures front[a] != key {
          assert keys[a] != keys[n];
        }
      }
      SizeSumOther(front, grouped, key, grouped[key] + [p]);
    } else {
      assert key in front by {
        var a :| 0 <= a < |keys| && keys[a] == key;
        assert front[a] == key;
      }
      SizeSumPush(front, grouped, key, p);
    }
  }

  /** `grouped[dateKey] = []`. */
  function StartGroup(grouped: map<string, seq<Pull>>, key: string): map<string, seq<Pull>> {
    grouped[key := []]
  }

  /** `grouped[dateKey].push(pull)`. */
  function Push(grouped: map<string, seq<Pull>>, key: string, pull: Pull): map<string, seq<Pull>>
    requires key in grouped
  {
    grouped[key := grouped[key] + [pull]]
  }

  /** The day's group with one more pull (a new group for a new day). */
  function Pushed(grouped: map<string, seq<Pull>>, key: string, pull: Pull): map<string, seq<Pull>> {
    Push(if key in grouped then grouped else StartGroup(grouped, key), key, pull)
  }

  /** Appending a pull to its day's group (started empty when the day has
      none) keeps any one day's group equal to the pulls of that day. */
  lemma {:induction false} PushKeepsDay(grouped: map<string, seq<Pull>>, seen: seq<Pull>, pull: Pull,
                     dateKey: string -> string, k: string)
    requires k in grouped ==> grouped[k] == DayPulls(seen, dateKey, k)
    requires k !in grouped ==> forall i :: 0 <= i < |seen| ==> dateKey(seen[i].pullDate) != k
    ensures var next := Pushed(grouped, dateKey(pull.pullDate), pull);
      k in next ==> next[k] == DayPulls(seen + [pull], dateKey, k)
  {
    assert (seen + [pull])[..|seen|] == seen;
    if k !in grouped {
      DayPullsEmpty(seen, dateKey, k);
    }
  }

  /** The same, for every day at once. */
  lemma {:induction false} PushKeepsGrouping(grouped: map<string, seq<Pull>>, seen: seq<Pull>, pull: Pull,
                          dateKey: string -> string)
    requires IsGrouping(grouped, seen, dateKey)
    ensures IsGrouping(Pushed(grouped, dateKey(pull.pullDate), pull), seen + [pull], dateKey)
  {
    var next := Pushed(grouped, dateKey(pull.pullDate), pull);
    forall k | k in next
      ensures next[k] == DayPulls(seen + [pull], dateKey, k)
    {
      PushKeepsDay(grouped, seen, pull, dateKey, k);
    }
    forall i | 0 <= i < |seen + [pull]|
      ensures dateKey((seen + [pull])[i].pullDate) in next
    {
      if i < |seen| {
        assert (seen + [pull])[i] == seen[i];
      }
    }
  }

  /** What the pass of `pullsByDate` keeps over the pulls `seen` so far:
      the grouping, the days in the order their groups were started, and
      group sizes that add up to the number of pulls seen. */
  ghost predicate Tracks(grouped: map<string, seq<Pull>>, order: seq<string>, seen: seq<Pull>,
                         dateKey: string -> string) {
    && IsGrouping(grouped, seen, dateKey)
    && Distinct(order)
    && (forall k :: k in grouped <==> k in order)
    && SizeSum(order, grouped) == |seen|
  }

  /** The days in order, with a new day at the end. */
  function Started(order: seq<string>, grouped: map<string, seq<Pull>>, key: string): seq<string> {
    if key in grouped then order else order + [key]
  }

  /** One step keeps the days listed once each, in step with the groups,
      and adds one to the total size. */
  lemma {:induction false} PushKeepsOrder(grouped: map<string, seq<Pull>>, order: seq<string>, key: string, pull: Pull)
    requires Distinct(order) && (forall k :: k in grouped <==> k in order)
    ensures var next := Pushed(grouped, key, pull);
      var order' := Started(order, grouped, key);
      && Distinct(order')
      && (forall k :: k in next <==> k in order')
      && SizeSum(order', next) == SizeSum(order, grouped) + 1
  {
    var g := grouped;
    var o := order;
    if key !in grouped {
      SizeSumOther(order, grouped, key, []);
      g := grouped[key := []];
      o := order + [key];
      assert o[..|o| - 1] == order;
    }
    SizeSumPush(o, g, key, pull);
    assert g[key := g[key] + [pull]] == Pushed(grouped, key, pull);
  }

  /** One step of the pass keeps what it tracks. */
  lemma {:induction false} PushKeepsTracks(grouped: map<string, seq<Pull>>, order: seq<string>, seen: seq<Pull>,
                        pull: Pull, dateKey: string -> string)
    requires Tracks(grouped, order, seen, dateKey)
    ensures var key := dateKey(pull.pullDate);
      Tracks(Pushed(grouped, key, pull), Started(order, grouped, key), seen + [pull], dateKey)
  {
    var key := dateKey(pull.pullDate);
    PushKeepsGrouping(grouped, seen, pull, dateKey);
    PushKeepsOrder(grouped, order, key, pull);
  }

  /** The same step, stated over the prefixes of the whole list. */
  lemma {:induction false} PassStep(grouped: map<string, seq<Pull>>, order: seq<string>, pulls: seq<Pull>, i: nat,
                 dateKey: string -> string)
    requires i < |pulls|
    requires Tracks(grouped, order, pulls[..i], dateKey)
    ensures var key := dateKey(pulls[i].pullDate);
      Tracks(Pushed(grouped, key, pulls[i]), Started(order, grouped, key), pulls[..i + 1], dateKey)
  {
    assert pulls[..i + 1] == pulls[..i] + [pulls[i]];
    PushKeepsTracks(grouped, order, pulls[..i], pulls[i], dateKey);
  }

  /** `pullsByDate`: one pass over the pulls that starts a group at the
      first pull of each day and appends (`push`) every pull to its day's
      group. `order` lists the days in the order their groups were started
      (the order of the object's keys); the group sizes add up to the
      number of pulls, so every pull lands in exactly one group. */
  method PullsByDate(pulls: seq<Pull>, dateKey: string -> string)
    returns (grouped: map<string, seq<Pull>>, ghost order: seq<string>)
    ensures forall i :: 0 <= i < |pulls| ==> dateKey(pulls[i].pullDate) in grouped
    ensures forall k :: k in grouped ==> grouped[k] != [] && grouped[k] == DayPulls(pulls, dateKey, k)
    ensures Tracks(grouped, order, pulls, dateKey)
  {
    grouped := map[];
    order := [];
    var i := 0;
    while i < |pulls|
      invariant 0 <= i <= |pulls|
      invariant Tracks(grouped, order, pulls[..i], dateKey)
    {
      var pull := pulls[i];
      var key := dateKey(pull.pullDate);
      PassStep(grouped, order, pulls, i, dateKey);
      order := Started(order, grouped, key);
      // `if (!grouped[dateKey]) grouped[dateKey] = []; grouped[dateKey].push(pull);`
      grouped := Pushed(grouped, key, pull);
      i := i + 1;
    }
    assert pulls[..i] == pulls;
  }

  /** In a grouping, each group is the list filtered by its day. */
  lemma {:induction false} GroupsAreFilters(grouped: map<string, seq<Pull>>, pulls: seq<Pull>, dateKey: string -> string)
    requires IsGrouping(grouped, pulls, dateKey)
    ensures forall k :: k in grouped ==> grouped[k] == Seqs.Filter(pulls, OnDay(dateKey, k))
  {
    forall k | k in grouped
      ensures grouped[k] == Seqs.Filter(pulls, OnDay(dateKey, k))
    {
      DayPullsIsFilter(pulls, dateKey, k);
    }
  }

  /** Every pull lands in the group of its own day and in no other group. */
  lemma {:induction false} EachPullInOneGroup(grouped: map<string, seq<Pull>>, pulls: seq<Pull>,
                           dateKey: string -> string, i: nat)
    requires IsGrouping(grouped, pulls, dateKey)
    requires i < |pulls|
    ensures var key := dateKey(pulls[i].pullDate);
      && key in grouped && pulls[i] in grouped[key]
      && forall k :: k in grouped && pulls[i] in grouped[k] ==> k == key
  {
    GroupsAreFilters(grouped, pulls, dateKey);
  }

  /** `getPullsForDate`: the day's group, or an empty list. */
  function PullsForDate(grouped: map<string, seq<Pull>>, key: string): (ps: seq<Pull>)
    ensures key !in grouped ==> ps == []
    ensures key in grouped ==> ps == grouped[key]
  {
    if key in grouped then grouped[key] else []
  }

  /** Looking a day up in the grouping gives the pulls of that day, in order,
      whether or not the day has a group. */
  lemma {:induction false} PullsForDateIsFilter(grouped: map<string, seq<Pull>>, pulls: seq<Pull>,
                             dateKey: string -> string, key: string)
    requires IsGrouping(grouped, pulls, dateKey)
    ensures PullsForDate(grouped, key) == Seqs.Filter(pulls, OnDay(dateKey, key))
  {
    DayPullsIsFilter(pulls, dateKey, key);
    if key !in grouped {
      DayPullsEmpty(pulls, dateKey, key);
    }
  }

  // ----- One day -----

  /** The four dots under a day. */
  datatype Indicators = Indicators(hasDigital: bool, hasPhysical: bool, hasReversed: bool, hasNotes: bool)

  /** `getPullIndicators`: nothing for a day without pulls; otherwise each
      flag says whether some pull of the day has that property (notes count
      when they are non-empty). */
  function PullIndicators(dayPulls: seq<Pull>): (r: Option<Indicators>)
    ensures r.None? <==> dayPulls == []
    ensures r.Some? ==>
      && (r.value.hasDigital <==> exists i :: 0 <= i < |dayPulls| && dayPulls[i].pullType == Digital)
      && (r.value.hasPhysical <==> exists i :: 0 <= i < |dayPulls| && dayPulls[i].pullType == Physical)
      && (r.value.hasReversed <==> exists i :: 0 <= i < |dayPulls| && dayPulls[i].isReversed)
      && (r.value.hasNotes <==> exists i :: 0 <= i < |dayPulls| && Truthy(dayPulls[i].notes))
  {
    if |dayPulls| == 0 then None
    else Some(Indicators(
      Seqs.Any(dayPulls, (p: Pull) => p.pullType == Digital),
      Seqs.Any(dayPulls, (p: Pull) => p.pullType == Physical),
      Seqs.Any(dayPulls, (p: Pull) => p.isReversed),
      Seqs.Any(dayPulls, (p: Pull) => Truthy(p.notes))))
  }

  /** A day with pulls always shows a digital or a physical dot. */
  lemma {:induction false} IndicatorsShowAType(dayPulls: seq<Pull>)
    requires dayPulls != []
    ensures var r := PullIndicators(dayPulls);
      r.Some? && (r.value.hasDigital || r.value.hasPhysical)
  {
    var r := PullIndicators(dayPulls);
    if dayPulls[0].pullType == Digital {
      assert r.value.hasDigital;
    } else {
      assert r.value.hasPhysical;
    }
  }

  /** `handleDateClick`: the callback (when one is given) receives the day's
      pulls, and only for a day with pulls. */
  function DateClick(dayPulls: seq<Pull>, hasCallback: bool): (fired: Option<seq<Pull>>)
    ensures fired.Some? <==> |dayPulls| > 0 && hasCallback
    ensures fired.Some? ==> fired.value == dayPulls
  {
    if |dayPulls| > 0 && hasCallback then Some(dayPulls) else None
  }

  // ----- The month -----

  /** The counters of `monthStats`. */
  datatype MonthStats = MonthStats(
    totalPulls: nat, digitalPulls: nat, physicalPulls: nat, reversedPulls: nat, notesCount: nat)

  /** The tests of the four counters. */
  predicate IsDigital(p: Pull) { p.pullType == Digital }
  predicate IsPhysical(p: Pull) { p.pullType == Physical }
  predicate IsReversed(p: Pull) { p.isReversed }
  predicate HasNotes(p: Pull) { Truthy(p.notes) }

  /** Every pull is digital or physical, so the two counts add up to the total. */
  lemma {:induction false} TypesPartition(ps: seq<Pull>)
    ensures Seqs.CountIf(ps, IsDigital) + Seqs.CountIf(ps, IsPhysical) == |ps|
  {
    if ps != [] {
      TypesPartition(ps[1..]);
    }
  }

  /** `monthStats`: the counters over the pulls of the shown month. The
      digital and physical counts partition the total; the reversed and
      notes counts never exceed it. */
  function MonthStatsOf(pulls: seq<Pull>, inMonth: string -> bool): (s: MonthStats)
    ensures var monthPulls := Seqs.Filter(pulls, (p: Pull) => inMonth(p.pullDate));
      && s.totalPulls == |monthPulls|
      && s.digitalPulls == |Seqs.Filter(monthPulls, IsDigital)|
      && s.physicalPulls == |Seqs.Filter(monthPulls, IsPhysical)|
      && s.reversedPulls == |Seqs.Filter(monthPulls, IsReversed)|
      && s.notesCount == |Seqs.Filter(monthPulls, HasNotes)|
    ensures s.digitalPulls + s.physicalPulls == s.totalPulls
    ensures s.reversedPulls <= s.totalPulls && s.notesCount <= s.totalPulls
  {
    var monthPulls := Seqs.Filter(pulls, (p: Pull) => inMonth(p.pullDate));
    TypesPartition(monthPulls);
    MonthStats(
      |monthPulls|,
      Seqs.CountIf(monthPulls, IsDigital),
      Seqs.CountIf(monthPulls, IsPhysical),
      Seqs.CountIf(monthPulls, IsReversed),
      Seqs.CountIf(monthPulls, HasNotes))
  }
}
