/** src/utils/helpers.ts: today's date key, the random card pick, the
    retention countdown, the "pulled today" test and the most-pulled card.
    Clocks and randomness are parameters: an ISO 8601 timestamp string for
    `new Date().toISOString()`, integer milliseconds for `getTime()`, and a
    real number in [0, 1) for `Math.random()`. */
module Helpers {
  import opened Records
  import Seqs

  /** Milliseconds in one day (24 * 60 * 60 * 1000). */
  const MsPerDay: int := 86400000

  /** The default retention window of a free account, in days. */
  const DefaultRetentionDays: int := 60

  /** `getTodayDate`: `iso.split('T')[0]`, the part of the timestamp before
      its first 'T' (all of it when there is none). */
  function TodayDate(iso: string): (r: string)
    ensures |r| <= |iso| && r == iso[..|r|]
    ensures 'T' !in r
    ensures |r| < |iso| ==> iso[|r|] == 'T'
  {
    if iso == [] || iso[0] == 'T' then [] else [iso[0]] + TodayDate(iso[1..])
  }

  /** `Math.floor(r * n)`. */
  function RandomIndex(n: nat, r: real): (i: int)
    requires 0.0 <= r < 1.0
    ensures n > 0 ==> 0 <= i < n
  {
    assert r * n as real <= 1.0 * n as real;
    (r * n as real).Floor
  }

  /** `selectRandomCard`: the element at index `floor(r * n)`; on an empty
      list the index reads past the end and gives `undefined` (None). */
  function SelectRandomCard<T>(cards: seq<T>, r: real): (c: Option<T>)
    requires 0.0 <= r < 1.0
    ensures c.None? <==> cards == []
    ensures c.Some? ==> c.value in cards
  {
    if cards == [] then None else Some(cards[RandomIndex(|cards|, r)])
  }

  /** Every card can be drawn: the draw `i / n` picks the card at index `i`. */
  lemma {:induction false} EveryCardCanBeDrawn<T>(cards: seq<T>, i: nat)
    requires i < |cards|
    ensures var r := i as real / |cards| as real;
      0.0 <= r < 1.0 && SelectRandomCard(cards, r) == Some(cards[i])
  {
    var n := |cards| as real;
    var r := i as real / n;
    assert r * n == i as real;
  }

  /** The smallest integer at least `a / b`. */
  function CeilDiv(a: int, b: int): (q: int)
    requires b > 0
    ensures (q - 1) * b < a <= q * b
  {
    var k := (-a) / b;
    assert -a == b * k + (-a) % b;
    -k
  }

  /** `getDaysUntilRetention`: the whole days, rounded up, from `nowMs` to
      `signupMs` plus `retentionDays` days, and 0 once that moment has passed. */
  function DaysUntilRetention(signupMs: int, nowMs: int, retentionDays: int): (d: nat)
    ensures var left := signupMs + retentionDays * MsPerDay - nowMs;
      && (d == 0 <==> left <= 0)
      && (d > 0 ==> (d - 1) * MsPerDay < left <= d * MsPerDay)
  {
    var left := signupMs + retentionDays * MsPerDay - nowMs;
    var days := CeilDiv(left, MsPerDay);
    if days > 0 then days else 0
  }

  /** On the signup instant the whole (non-negative) window remains. */
  lemma {:induction false} RetentionAtSignup(signupMs: int, retentionDays: nat)
    ensures DaysUntilRetention(signupMs, signupMs, retentionDays) == retentionDays
  {
    var d := DaysUntilRetention(signupMs, signupMs, retentionDays);
    if d > 0 {
      assert (d - 1) * MsPerDay < retentionDays * MsPerDay <= d * MsPerDay;
    }
  }

  /** The countdown never goes up as time passes. */
  lemma {:induction false} RetentionNonIncreasing(signupMs: int, earlier: int, later: int, retentionDays: int)
    requires earlier <= later
    ensures DaysUntilRetention(signupMs, later, retentionDays)
         <= DaysUntilRetention(signupMs, earlier, retentionDays)
  {
  }

  /** `hasPulledToday`: some pull is dated with today's key. */
  function HasPulledToday(pulls: seq<Pull>, nowIso: string): (r: bool)
    ensures r <==> exists i :: 0 <= i < |pulls| && pulls[i].pullDate == TodayDate(nowIso)
  {
    var today := TodayDate(nowIso);
    Seqs.Any(pulls, (p: Pull) => p.pullDate == today)
  }

  /** How many pulls drew the card `id`. */
  function Occurrences(pulls: seq<Pull>, id: nat): (n: nat)
    ensures n <= |pulls|
  {
    if pulls == [] then 0
    else Occurrences(pulls[..|pulls| - 1], id) + (if pulls[|pulls| - 1].cardId == id then 1 else 0)
  }

  /** A card id that occurs in the list occurs at some index. */
  lemma {:induction false} OccursSomewhere(pulls: seq<Pull>, id: nat)
    requires Occurrences(pulls, id) > 0
    ensures exists i :: 0 <= i < |pulls| && pulls[i].cardId == id
  {
    var n := |pulls| - 1;
    if pulls[n].cardId != id {
      OccursSomewhere(pulls[..n], id);
      var i :| 0 <= i < n && pulls[..n][i].cardId == id;
      assert pulls[i].cardId == id;
    }
  }

  /** A card id found at some index occurs in the list. */
  lemma {:induction false} OccursFromIndex(pulls: seq<Pull>, i: nat)
    requires i < |pulls|
    ensures Occurrences(pulls, pulls[i].cardId) > 0
  {
    var n := |pulls| - 1;
    if i < n {
      OccursFromIndex(pulls[..n], i);
      assert pulls[..n][i] == pulls[i];
    }
  }

  /** The first `reduce` of `getMostPulledCard`: a count per card id. */
  function CardCounts(pulls: seq<Pull>): (m: map<nat, nat>)
    ensures forall id :: id in m <==> Occurrences(pulls, id) > 0
    ensures forall id :: id in m ==> m[id] == Occurrences(pulls, id)
  {
    if pulls == [] then map[]
    else
      var m := CardCounts(pulls[..|pulls| - 1]);
      var id := pulls[|pulls| - 1].cardId;
      m[id := (if id in m then m[id] else 0) + 1]
  }

  /** One `[cardId, count]` pair of `Object.entries(cardCounts)`. */
  datatype CardCount = CardCount(cardId: nat, count: nat)

  /** The pairs of `counts` for the keys `ks`, in that order. */
  function EntriesFor(ks: seq<nat>, counts: map<nat, nat>): (es: seq<CardCount>)
    requires forall i :: 0 <= i < |ks| ==> ks[i] in counts
    ensures |es| == |ks|
    ensures forall i :: 0 <= i < |es| ==> es[i] == CardCount(ks[i], counts[ks[i]])
  {
    if ks == [] then [] else [CardCount(ks[0], counts[ks[0]])] + EntriesFor(ks[1..], counts)
  }

  /** `Object.entries(counts)`: the pairs in ascending key order. */
  function CountEntries(counts: map<nat, nat>): (es: seq<CardCount>)
  {
    EntriesFor(Seqs.AscendingKeys(counts.Keys), counts)
  }

  /** One step of the second `reduce`: a strictly larger count replaces the best. */
  function PickStep(best: CardCount, e: CardCount): CardCount {
    if e.count > best.count then e else best
  }

  /** The second `reduce` of `getMostPulledCard`, from the left. */
  function PickMost(es: seq<CardCount>, best: CardCount): CardCount {
    if es == [] then best else PickMost(es[1..], PickStep(best, es[0]))
  }

  /** Over entries in ascending id order, the fold returns an entry with the
      largest count (or its seed), and the smallest id among those with that count. */
  lemma {:induction false} PickMostSpec(es: seq<CardCount>, best: CardCount)
    requires forall i, j :: 0 <= i < j < |es| ==> es[i].cardId < es[j].cardId
    requires forall i :: 0 <= i < |es| ==> best.cardId <= es[i].cardId
    ensures var r := PickMost(es, best);
      && (r == best || r in es)
      && r.count >= best.count
      && (r != best ==> r.count > best.count)
      && (forall i :: 0 <= i < |es| ==> es[i].count <= r.count)
      && (forall i :: 0 <= i < |es| && es[i].count == r.count ==> r.cardId <= es[i].cardId)
  {
    if es != [] {
      var next := PickStep(best, es[0]);
      assert forall i :: 0 <= i < |es[1..]| ==> es[1..][i] == es[i + 1];
      PickMostSpec(es[1..], next);
    }
  }

  /** `getMostPulledCard`: null exactly for an empty history; otherwise a card
      drawn most often, with its count; among equally frequent cards the one
      with the smallest id (the strict `>` over ascending keys keeps the first). */
  function MostPulledCard(pulls: seq<Pull>): (r: Option<CardCount>)
    ensures r.None? <==> pulls == []
    ensures r.Some? ==> r.value.count == Occurrences(pulls, r.value.cardId)
    ensures r.Some? ==> forall id :: Occurrences(pulls, id) <= r.value.count
    ensures r.Some? ==> forall id :: Occurrences(pulls, id) == r.value.count ==> r.value.cardId <= id
  {
    if |pulls| == 0 then None
    else
      var most := PickMost(CountEntries(CardCounts(pulls)), CardCount(0, 0));
      MostPulledFold(pulls);
      if most.count > 0 then Some(most) else None
  }

  /** A card that was drawn has its entry, with its count, in `Object.entries`. */
  lemma {:induction false} CountedEntry(pulls: seq<Pull>, id: nat) returns (i: nat)
    requires Occurrences(pulls, id) > 0
    ensures var es := CountEntries(CardCounts(pulls));
      i < |es| && es[i] == CardCount(id, Occurrences(pulls, id))
  {
    var counts := CardCounts(pulls);
    var ks := Seqs.AscendingKeys(counts.Keys);
    assert id in ks;
    i :| 0 <= i < |ks| && ks[i] == id;
  }

  /** The entries of `Object.entries(CardCounts(pulls))` are in ascending id
      order, and each carries the true count of its card. */
  lemma {:induction false} EntriesShape(pulls: seq<Pull>)
    ensures var es := CountEntries(CardCounts(pulls));
      && (forall i, j :: 0 <= i < j < |es| ==> es[i].cardId < es[j].cardId)
      && (forall i :: 0 <= i < |es| ==> es[i].count == Occurrences(pulls, es[i].cardId))
  {
    var counts := CardCounts(pulls);
    var ks := Seqs.AscendingKeys(counts.Keys);
    var es := CountEntries(counts);
    assert forall i :: 0 <= i < |es| ==> es[i] == CardCount(ks[i], counts[ks[i]]);
  }

  /** What the two folds of `getMostPulledCard` compute on a non-empty history. */
  lemma {:induction false} MostPulledFold(pulls: seq<Pull>)
    requires pulls != []
    ensures var most := PickMost(CountEntries(CardCounts(pulls)), CardCount(0, 0));
      && most.count > 0
      && most.count == Occurrences(pulls, most.cardId)
      && (forall id :: Occurrences(pulls, id) <= most.count)
      && (forall id :: Occurrences(pulls, id) == most.count ==> most.cardId <= id)
  {
    var es := CountEntries(CardCounts(pulls));
    var seed := CardCount(0, 0);
    var most := PickMost(es, seed);
    EntriesShape(pulls);
    PickMostSpec(es, seed);
    OccursFromIndex(pulls, 0);
    var i0 := CountedEntry(pulls, pulls[0].cardId);
    assert es[i0].count >= 1;
    assert most in es;
    forall id | Occurrences(pulls, id) > 0
      ensures Occurrences(pulls, id) <= most.count
      ensures Occurrences(pulls, id) == most.count ==> most.cardId <= id
    {
      var i := CountedEntry(pulls, id);
      assert es[i].cardId == id;
    }
  }
}
