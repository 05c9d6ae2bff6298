/** The CSV text built by `exportUserData` (src/lib/api-analytics.ts): a
    fixed header line, then one line per pull with seven double-quoted,
    comma-separated fields. Fields are wrapped in quotes in the style of
    section 2 of RFC 4180, but quotes inside a field are not doubled. */
module CsvExport {
  import opened Records
  import Text

  /** The column names, in order. */
  const Headers: seq<string> := ["Date", "Card Name", "Suit", "Pull Type", "Reversed", "Notes", "Keywords"]

  /** The first line of every export. */
  const HeaderLine: string := "Date,Card Name,Suit,Pull Type,Reversed,Notes,Keywords"

  /** `headers.join(',')` is the header line. */
  lemma {:induction false} HeaderLineIsJoin()
    ensures Text.Join(Headers, ",") == HeaderLine
  {
    var h := Headers;
    assert h[..1] == ["Date"];
    Text.JoinSnoc(h[..1], h[1], ",");
    assert h[..2] == h[..1] + [h[1]];
    assert Text.Join(h[..2], ",") == "Date,Card Name";
    Text.JoinSnoc(h[..2], h[2], ",");
    assert h[..3] == h[..2] + [h[2]];
    assert Text.Join(h[..3], ",") == "Date,Card Name,Suit";
    Text.JoinSnoc(h[..3], h[3], ",");
    assert h[..4] == h[..3] + [h[3]];
    assert Text.Join(h[..4], ",") == "Date,Card Name,Suit,Pull Type";
    Text.JoinSnoc(h[..4], h[4], ",");
    assert h[..5] == h[..4] + [h[4]];
    assert Text.Join(h[..5], ",") == "Date,Card Name,Suit,Pull Type,Reversed";
    Text.JoinSnoc(h[..5], h[5], ",");
    assert h[..6] == h[..5] + [h[5]];
    assert Text.Join(h[..6], ",") == "Date,Card Name,Suit,Pull Type,Reversed,Notes";
    Text.JoinSnoc(h[..6], h[6], ",");
    assert h == h[..6] + [h[6]];
  }

  /** The header line holds no line break. */
  lemma {:induction false} HeaderLineHasNoNewline()
    ensures '\n' !in HeaderLine
  {
    HeaderLineIsJoin();
    assert forall k :: 0 <= k < |Headers| ==> '\n' !in Headers[k];
    Text.JoinFree(Headers, ",", '\n');
  }

  /** `(pull.card as any)?.card_name`. */
  function CardName(p: Pull): Option<string> {
    if p.card.Some? then Some(p.card.value.name) else None
  }

  /** `(pull.card as any)?.suit`. */
  function CardSuit(p: Pull): Option<string> {
    if p.card.Some? then p.card.value.suit else None
  }

  /** `(pull.card as any)?.keywords`. */
  function CardKeywords(p: Pull): Option<string> {
    if p.card.Some? then p.card.value.keywords else None
  }

  /** The seven fields of a pull's row, before quoting. Absent values give
      empty fields; the Reversed column reads Yes or No. */
  function Fields(p: Pull): (fs: seq<string>)
    ensures |fs| == |Headers| == 7
    ensures fs[0] == p.pullDate
    ensures fs[3] == PullTypeName(p.pullType)
    ensures (fs[4] == "Yes" <==> p.isReversed) && (fs[4] == "No" <==> !p.isReversed)
    ensures p.card.None? ==> fs[1] == "" && fs[2] == "" && fs[6] == ""
    ensures p.card.Some? ==> fs[1] == OrEmpty(Some(p.card.value.name))
    ensures p.card.Some? ==> fs[2] == OrEmpty(p.card.value.suit) && fs[6] == OrEmpty(p.card.value.keywords)
    ensures fs[5] == OrEmpty(p.notes)
  {
    [ p.pullDate,
      OrEmpty(CardName(p)),
      OrEmpty(CardSuit(p)),
      PullTypeName(p.pullType),
      if p.isReversed then "Yes" else "No",
      OrEmpty(p.notes),
      OrEmpty(CardKeywords(p)) ]
  }

  /** `"${field}"`: the field verbatim between two double quotes. */
  function Quote(f: string): (q: string)
    ensures |q| == |f| + 2
    ensures q[0] == '"' && q[|q| - 1] == '"' && q[1..|q| - 1] == f
  {
    "\"" + f + "\""
  }

  function QuoteAll(fs: seq<string>): (qs: seq<string>)
    ensures |qs| == |fs|
    ensures forall i :: 0 <= i < |fs| ==> qs[i] == Quote(fs[i])
  {
    seq(|fs|, i requires 0 <= i < |fs| => Quote(fs[i]))
  }

  /** `row.map(field => `"${field}"`).join(',')`. */
  function RowText(fs: seq<string>): string {
    Text.Join(QuoteAll(fs), ",")
  }

  /** The line of one pull. */
  function Row(p: Pull): string {
    RowText(Fields(p))
  }

  /** The lines of the export: the header, then one row per pull in order;
      missing data gives no rows. */
  function Lines(data: Option<seq<Pull>>): (ls: seq<string>)
    ensures |ls| >= 1 && ls[0] == HeaderLine
    ensures data.None? ==> |ls| == 1
    ensures data.Some? ==> (|ls| == 1 + |data.value|
      && forall i :: 0 <= i < |data.value| ==> ls[i + 1] == Row(data.value[i]))
  {
    HeaderLineIsJoin();
    [Text.Join(Headers, ",")] + (if data.Some? then seq(|data.value|, i requires 0 <= i < |data.value| => Row(data.value[i])) else [])
  }

  /** `csvContent`: the lines joined by newlines. */
  function CsvContent(data: Option<seq<Pull>>): string {
    Text.Join(Lines(data), "\n")
  }

  /** `exportUserData` from the store's reply: a store error is thrown,
      otherwise the CSV text. */
  function ExportUserData(reply: Reply<seq<Pull>>): (r: Outcome<string>)
    ensures reply.error.Some? ==> r == Failed(Rejected(reply.error.value))
    ensures reply.error.None? ==> r == Done(CsvContent(reply.data))
  {
    if reply.error.Some? then Failed(Rejected(reply.error.value)) else Done(CsvContent(reply.data))
  }

  /** No data, or no pulls, gives the header line alone. */
  lemma {:induction false} HeaderOnly(data: Option<seq<Pull>>)
    requires data.None? || data.value == []
    ensures CsvContent(data) == HeaderLine
  {
    assert |Lines(data)| == 1;
  }

  /** One more pull adds one newline and its row at the end: the export
      lists rows in input order. */
  lemma {:induction false} AppendRow(ps: seq<Pull>, p: Pull)
    ensures CsvContent(Some(ps + [p])) == CsvContent(Some(ps)) + "\n" + Row(p)
  {
    var ls := Lines(Some(ps + [p]));
    assert ls[..|ls| - 1] == Lines(Some(ps));
  }

  /** The text always starts with the header line, followed by a newline
      when there are rows. */
  lemma {:induction false} StartsWithHeader(ps: seq<Pull>)
    ensures var csv := CsvContent(Some(ps));
      && HeaderLine <= csv
      && (ps == [] <==> csv == HeaderLine)
      && (ps != [] ==> csv[|HeaderLine|] == '\n')
  {
    if ps == [] {
      HeaderOnly(Some(ps));
    } else {
      var ls := Lines(Some(ps));
      assert ls == [ls[0]] + ls[1..];
      Text.JoinConsPrefix(ls[0], ls[1..], "\n");
    }
  }

  /** A row is free of line breaks when its fields are. */
  lemma {:induction false} RowHasNoNewline(fs: seq<string>)
    requires forall k :: 0 <= k < |fs| ==> '\n' !in fs[k]
    ensures '\n' !in RowText(fs)
  {
    var qs := QuoteAll(fs);
    forall k | 0 <= k < |qs| ensures '\n' !in qs[k] {
      assert qs[k] == "\"" + fs[k] + "\"";
    }
    Text.JoinFree(qs, ",", '\n');
  }

  /** Splitting the export at its newlines gives back the header and the rows,
      provided no field holds a line break. */
  lemma {:induction false} SplitLines(ps: seq<Pull>)
    requires forall i, k :: 0 <= i < |ps| && 0 <= k < 7 ==> '\n' !in Fields(ps[i])[k]
    ensures Text.SplitOn(CsvContent(Some(ps)), '\n') == Lines(Some(ps))
  {
    var ls := Lines(Some(ps));
    forall j | 0 <= j < |ls| ensures '\n' !in ls[j] {
      if j > 0 {
        assert ls[j] == RowText(Fields(ps[j - 1]));
        RowHasNoNewline(Fields(ps[j - 1]));
      } else {
        HeaderLineHasNoNewline();
      }
    }
    Text.SplitJoin(ls, '\n');
  }

  /** The row of a first field and more: its quoted text, a comma, the rest. */
  lemma {:induction false} RowTextCons(f: string, fs: seq<string>)
    requires fs != []
    ensures RowText([f] + fs) == Quote(f) + "," + RowText(fs)
  {
    assert QuoteAll([f] + fs) == [Quote(f)] + QuoteAll(fs);
    Text.JoinCons(Quote(f), QuoteAll(fs), ",");
  }
}
