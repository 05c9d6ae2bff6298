/** The daily-pull part of src/lib/api.ts: the `YYYY-MM-DD` key of today's
    pull, and the operations that check their input and then talk to the
    store. The store is abstract: a `Store` object records, in order, every
    request an operation sends, and each reply the store gives back is a
    parameter of the operation. */
module Api {
  import opened Records
  import Text

  // ----- The day key -----

  /** `String(n).padStart(2, '0')`: a one-character numeral gets a leading
      '0' (see `TwoDigitsIsPadStart`). */
  function TwoDigits(n: nat): string {
    var s := Text.NatToString(n);
    if |s| >= 2 then s else "0" + s
  }

  /** `TwoDigits` is the general left padding to width 2 with '0'. */
  lemma {:induction false} TwoDigitsIsPadStart(n: nat)
    ensures TwoDigits(n) == Text.PadStart(Text.NatToString(n), 2, '0')
  {
    var s := Text.NatToString(n);
    if |s| < 2 {
      var r := Text.PadStart(s, 2, '0');
      assert r[..1] == "0" && r[1..] == s;
      assert r == r[..1] + r[1..];
    }
  }

  /** The day key of `getTodaysPull`: the year, then the month (`getMonth()`
      counts from 0) and the day of the month, each padded to two digits,
      separated by hyphens. */
  function DayKey(year: nat, month0: nat, day: nat): string {
    Text.NatToString(year) + "-" + TwoDigits(month0 + 1) + "-" + TwoDigits(day)
  }

  /** A number below 100 is written with exactly two characters. */
  lemma {:induction false} TwoDigitsLength(n: nat)
    requires n < 100
    ensures |TwoDigits(n)| == 2
  {
    if n >= 10 {
      assert Text.NatToString(n / 10) == [Text.DigitChar(n / 10)];
    }
  }

  /** A number below 100 is written with two digits that read back as it. */
  lemma {:induction false} TwoDigitsForm(n: nat)
    requires n < 100
    ensures |TwoDigits(n)| == 2
    ensures forall i :: 0 <= i < 2 ==> Text.IsDigit(TwoDigits(n)[i])
    ensures Text.DigitsValue(TwoDigits(n)) == n
  {
    var s := Text.NatToString(n);
    var p := TwoDigits(n);
    if n < 10 {
      assert s == [Text.DigitChar(n)];
      assert p == ['0'] + s;
      assert p[..1] == ['0'];
    } else {
      assert s == Text.NatToString(n / 10) + [Text.DigitChar(n % 10)];
      assert Text.NatToString(n / 10) == [Text.DigitChar(n / 10)];
      assert p == s;
    }
  }

  /** A year from 1000 to 9999 is written with four digits. */
  lemma {:induction false} FourDigitYear(year: nat)
    requires 1000 <= year <= 9999
    ensures |Text.NatToString(year)| == 4
  {
    assert Text.NatToString(year / 1000) == [Text.DigitChar(year / 1000)];
    assert |Text.NatToString(year / 100)| == 2;
    assert |Text.NatToString(year / 10)| == 3;
  }

  /** Where the parts of `y-m-d` sit, for two-character `m` and `d`. */
  lemma {:induction false} HyphenatedParts(k: string, y: string, m: string, d: string)
    requires |m| == 2 && |d| == 2
    requires k == y + "-" + m + "-" + d
    ensures && |k| == |y| + 6
      && k[..|y|] == y
      && k[|y|] == '-' && k[|y| + 3] == '-'
      && k[|y| + 1..|y| + 3] == m
      && k[|y| + 4..] == d
  {
  }

  /** For any year the key ends in a two-digit month and a two-digit day,
      each after a hyphen, and starts with the year's digits. */
  lemma {:induction false} DayKeyShape(year: nat, month0: nat, day: nat)
    requires month0 < 12 && 1 <= day <= 31
    ensures var k := DayKey(year, month0, day);
      var y := Text.NatToString(year);
      && |k| == |y| + 6
      && k[..|y|] == y
      && k[|y|] == '-' && k[|y| + 3] == '-'
      && k[|y| + 1..|y| + 3] == TwoDigits(month0 + 1)
      && k[|y| + 4..] == TwoDigits(day)
  {
    var y := Text.NatToString(year);
    var m := TwoDigits(month0 + 1);
    var d := TwoDigits(day);
    TwoDigitsLength(month0 + 1);
    TwoDigitsLength(day);
    HyphenatedParts(DayKey(year, month0, day), y, m, d);
  }

  /** In `y-m-d` with a four-digit `y` and two-digit `m` and `d`, every
      character but the two hyphens is a digit. */
  lemma {:induction false} IsoDigits(k: string, y: string, m: string, d: string)
    requires |y| == 4 && |m| == 2 && |d| == 2
    requires forall i :: 0 <= i < 4 ==> Text.IsDigit(y[i])
    requires forall i :: 0 <= i < 2 ==> Text.IsDigit(m[i]) && Text.IsDigit(d[i])
    requires k == y + "-" + m + "-" + d
    ensures forall i :: 0 <= i < 10 && i != 4 && i != 7 ==> Text.IsDigit(k[i])
  {
    forall i | 0 <= i < 10 && i != 4 && i != 7 ensures Text.IsDigit(k[i]) {
      if i < 4 {
        assert k[i] == y[i];
      } else if i < 7 {
        assert k[i] == m[i - 5];
      } else {
        assert k[i] == d[i - 8];
      }
    }
  }

  /** For the years 1000 to 9999 the key is the extended calendar-date form
      of ISO 8601:2004, section 4.1.2.2: ten characters, four year digits, a
      hyphen, two month digits, a hyphen, two day digits; reading the digit
      groups back gives the year, the month (1 to 12) and the day. */
  lemma {:induction false} DayKeyIsIsoDate(year: nat, month0: nat, day: nat)
    requires 1000 <= year <= 9999 && month0 < 12 && 1 <= day <= 31
    ensures var k := DayKey(year, month0, day);
      && |k| == 10
      && k[4] == '-' && k[7] == '-'
      && (forall i :: 0 <= i < 10 && i != 4 && i != 7 ==> Text.IsDigit(k[i]))
      && Text.DigitsValue(k[..4]) == year
      && Text.DigitsValue(k[5..7]) == month0 + 1
      && Text.DigitsValue(k[8..]) == day
  {
    var k := DayKey(year, month0, day);
    var y := Text.NatToString(year);
    var m := TwoDigits(month0 + 1);
    var d := TwoDigits(day);
    FourDigitYear(year);
    DayKeyShape(year, month0, day);
    TwoDigitsForm(month0 + 1);
    TwoDigitsForm(day);
    assert k == y + "-" + m + "-" + d;
    IsoDigits(k, y, m, d);
  }

  /** Different dates in the years 1000 to 9999 have different keys. */
  lemma {:induction false} DayKeyInjective(y1: nat, m1: nat, d1: nat, y2: nat, m2: nat, d2: nat)
    requires 1000 <= y1 <= 9999 && m1 < 12 && 1 <= d1 <= 31
    requires 1000 <= y2 <= 9999 && m2 < 12 && 1 <= d2 <= 31
    requires DayKey(y1, m1, d1) == DayKey(y2, m2, d2)
    ensures y1 == y2 && m1 == m2 && d1 == d2
  {
    DayKeyIsIsoDate(y1, m1, d1);
    DayKeyIsIsoDate(y2, m2, d2);
  }

  // ----- The store and its requests -----

  /** The code PostgREST gives a `.single()` query that found no row. */
  const NoRowsCode: string := "PGRST116"

  /** The result of `supabase.auth.getUser()`: the user's id, or an error. */
  datatype AuthReply = AuthReply(user: Option<string>, error: Option<StoreError>)

  /** The `notes, updated_at` columns of one pull. */
  datatype NotesRow = NotesRow(notes: Option<string>, updatedAt: string)

  /** A request sent to the store. */
  datatype Request =
    | SelectPullOn(userId: string, date: string)            // one pull by user and day
    | SelectCard(cardId: nat)                               // one card by id
    | GetUser                                               // the authenticated user
    | InsertPull(pull: NewPull)
    | SelectCreated(userId: string, date: string, cardId: nat)
    | UpdateNotes(pullId: string, notes: string)
    | SelectNotes(pullId: string)
    | SelectRecent(userId: string, limit: nat)

  /** The card requests of `getRecentPulls`, one per fetched row, in order. */
  function CardRequests(rows: seq<Pull>): (rs: seq<Request>)
    ensures |rs| == |rows|
    ensures forall i :: 0 <= i < |rows| ==> rs[i] == SelectCard(rows[i].cardId)
  {
    seq(|rows|, i requires 0 <= i < |rows| => SelectCard(rows[i].cardId))
  }

  class Store {
    /** Every request sent so far, oldest first. */
    var requests: seq<Request>

    constructor()
      ensures requests == []
    {
      requests := [];
    }

    /** `getTodaysPull`: look up the user's pull under today's key. A missing
        row ('PGRST116', or no data) gives null; any other store error is
        passed on; a found pull gets the card looked up by its id. */
    method GetTodaysPull(userId: string, year: nat, month0: nat, day: nat,
                         reply: Reply<Pull>, cardData: Option<Card>)
      returns (r: Outcome<Option<Pull>>)
      modifies this
      ensures reply.error.Some? && reply.error.value.code != NoRowsCode ==>
        r == Failed(Rejected(reply.error.value))
        && requests == old(requests) + [SelectPullOn(userId, DayKey(year, month0, day))]
      ensures (reply.error.None? || reply.error.value.code == NoRowsCode) && reply.data.None? ==>
        r == Done(None)
        && requests == old(requests) + [SelectPullOn(userId, DayKey(year, month0, day))]
      ensures (reply.error.None? || reply.error.value.code == NoRowsCode) && reply.data.Some? ==>
        r == Done(Some(reply.data.value.(card := cardData)))
        && requests == old(requests) + [SelectPullOn(userId, DayKey(year, month0, day)),
                                        SelectCard(reply.data.value.cardId)]
    {
      var todayStr := DayKey(year, month0, day);
      requests := requests + [SelectPullOn(userId, todayStr)];
      if reply.error.Some? && reply.error.value.code != NoRowsCode {
        return Failed(Rejected(reply.error.value));
      }
      if reply.data.None? {
        return Done(None);
      }
      var data := reply.data.value;
      requests := requests + [SelectCard(data.cardId)];
      r := Done(Some(data.(card := cardData)));
    }

    /** `createPull`: the authenticated user must exist and own the new pull;
        only then is it inserted, read back and joined with its card. Each
        store error is passed on. A `.single()` read that reports no error
        returns a row. */
    method CreatePull(pull: NewPull, auth: AuthReply, insertError: Option<StoreError>,
                      created: Reply<Pull>, cardReply: Reply<Card>)
      returns (r: Outcome<Pull>)
      requires created.error.Some? || created.data.Some?
      modifies this
      ensures auth.error.Some? ==>
        r == Failed(Thrown("Authentication error: " + auth.error.value.message))
      ensures auth.error.None? && auth.user.None? ==> r == Failed(Thrown("No authenticated user"))
      ensures auth.error.None? && auth.user.Some? && pull.userId != auth.user.value ==>
        r == Failed(Thrown("User ID mismatch - security violation"))
      // without an authenticated owner nothing but the user lookup is sent
      ensures auth.error.Some? || auth.user.None? || pull.userId != auth.user.value ==>
        requests == old(requests) + [GetUser]
      // an owner's pull is inserted, read back and joined with its card
      ensures auth.error.None? && auth.user.Some? && pull.userId == auth.user.value ==>
        var insert := [GetUser, InsertPull(pull)];
        var readBack := insert + [SelectCreated(pull.userId, pull.pullDate, pull.cardId)];
        var join := readBack + [SelectCard(pull.cardId)];
        && (insertError.Some? ==>
              r == Failed(Rejected(insertError.value)) && requests == old(requests) + insert)
        && (insertError.None? && created.error.Some? ==>
              r == Failed(Rejected(created.error.value)) && requests == old(requests) + readBack)
        && (insertError.None? && created.error.None? && cardReply.error.Some? ==>
              r == Failed(Rejected(cardReply.error.value)) && requests == old(requests) + join)
        && (insertError.None? && created.error.None? && cardReply.error.None? ==>
              r == Done(created.data.value.(card := cardReply.data)) && requests == old(requests) + join)
    {
      requests := requests + [GetUser];
      if auth.error.Some? {
        return Failed(Thrown("Authentication error: " + auth.error.value.message));
      }
      if auth.user.None? {
        return Failed(Thrown("No authenticated user"));
      }
      if pull.userId != auth.user.value {
        return Failed(Thrown("User ID mismatch - security violation"));
      }
      requests := requests + [InsertPull(pull)];
      if insertError.Some? {
        return Failed(Rejected(insertError.value));
      }
      requests := requests + [SelectCreated(pull.userId, pull.pullDate, pull.cardId)];
      if created.error.Some? {
        return Failed(Rejected(created.error.value));
      }
      requests := requests + [SelectCard(pull.cardId)];
      if cardReply.error.Some? {
        return Failed(Rejected(cardReply.error.value));
      }
      r := Done(created.data.value.(card := cardReply.data));
    }

    /** `updatePullNotes`: an empty pull id is refused before any request;
        otherwise the trimmed notes are written and the updated row returned. */
    method UpdatePullNotes(pullId: string, notes: string, reply: Reply<Pull>)
      returns (r: Outcome<Pull>)
      modifies this
      ensures pullId == "" ==>
        r == Failed(Thrown("Pull ID is required to update notes")) && requests == old(requests)
      ensures pullId != "" ==> requests == old(requests) + [UpdateNotes(pullId, Text.Trim(notes))]
      ensures pullId != "" && reply.error.Some? ==>
        r == Failed(Thrown("Failed to update notes: " + reply.error.value.message))
      ensures pullId != "" && reply.error.None? && reply.data.None? ==>
        r == Failed(Thrown("Pull record not found after update"))
      ensures pullId != "" && reply.error.None? && reply.data.Some? ==> r == Done(reply.data.value)
    {
      if pullId == "" {
        return Failed(Thrown("Pull ID is required to update notes"));
      }
      requests := requests + [UpdateNotes(pullId, Text.Trim(notes))];
      if reply.error.Some? {
        return Failed(Thrown("Failed to update notes: " + reply.error.value.message));
      }
      if reply.data.None? {
        return Failed(Thrown("Pull record not found after update"));
      }
      r := Done(reply.data.value);
    }

    /** `getPullNotes`: an empty pull id is refused before any request. */
    method GetPullNotes(pullId: string, reply: Reply<NotesRow>) returns (r: Outcome<NotesRow>)
      modifies this
      ensures pullId == "" ==>
        r == Failed(Thrown("Pull ID is required to retrieve notes")) && requests == old(requests)
      ensures pullId != "" ==> requests == old(requests) + [SelectNotes(pullId)]
      ensures pullId != "" && reply.error.Some? ==>
        r == Failed(Thrown("Failed to retrieve notes: " + reply.error.value.message))
      ensures pullId != "" && reply.error.None? && reply.data.None? ==>
        r == Failed(Thrown("Pull record not found"))
      ensures pullId != "" && reply.error.None? && reply.data.Some? ==> r == Done(reply.data.value)
    {
      if pullId == "" {
        return Failed(Thrown("Pull ID is required to retrieve notes"));
      }
      requests := requests + [SelectNotes(pullId)];
      if reply.error.Some? {
        return Failed(Thrown("Failed to retrieve notes: " + reply.error.value.message));
      }
      if reply.data.None? {
        return Failed(Thrown("Pull record not found"));
      }
      r := Done(reply.data.value);
    }

    /** `getRecentPulls`: the user's latest pulls (a store error is passed
        on; no data counts as none), each joined with the card the store gives
        for its id (`cards`; null when there is none). */
    method GetRecentPulls(userId: string, limit: nat, reply: Reply<seq<Pull>>, cards: nat -> Option<Card>)
      returns (r: Outcome<seq<Pull>>)
      modifies this
      ensures reply.error.Some? ==>
        r == Failed(Rejected(reply.error.value)) && requests == old(requests) + [SelectRecent(userId, limit)]
      ensures reply.error.None? ==>
        var rows := if reply.data.Some? then reply.data.value else [];
        && r.Done? && |r.value| == |rows|
        && (forall i :: 0 <= i < |rows| ==> r.value[i] == rows[i].(card := cards(rows[i].cardId)))
        && requests == old(requests) + [SelectRecent(userId, limit)] + CardRequests(rows)
    {
      requests := requests + [SelectRecent(userId, limit)];
      if reply.error.Some? {
        return Failed(Rejected(reply.error.value));
      }
      var rows := if reply.data.Some? then reply.data.value else [];
      var joined: seq<Pull> := [];
      var before := requests;
      var i := 0;
      while i < |rows|
        invariant 0 <= i <= |rows|
        invariant |joined| == i
        invariant forall j :: 0 <= j < i ==> joined[j] == rows[j].(card := cards(rows[j].cardId))
        invariant requests == before + CardRequests(rows[..i])
      {
        requests := requests + [SelectCard(rows[i].cardId)];
        joined := joined + [rows[i].(card := cards(rows[i].cardId))];
        i := i + 1;
        assert CardRequests(rows[..i]) == CardRequests(rows[..i - 1]) + [SelectCard(rows[i - 1].cardId)];
      }
      assert rows[..i] == rows;
      r := Done(joined);
    }
  }
}
