/**
 * The rows of the history export: a fixed header line, then one line per
 * finding per entry, in history order and then finding order. Fields are joined
 * by commas without quoting, so the text is not escaped the way section 2 of
 * RFC 4180 describes; `Split` reads a row back at its commas to show what that
 * means for a reader.
 */
module CsvExport {
  import opened Strings
  import opened Findings
  import opened HistoryList

  const Header := "URL,Timestamp,Vulnerability Name,Recommendation\n"

  /** One row: URL, timestamp, finding name and recommendation, comma-joined. */
  function Row(e: Entry, v: Finding): string
  {
    e.url + "," + e.timestamp + "," + v.name + "," + Interpolate(v.recommendation)
  }

  /** The rows of one entry; an entry without data or without findings has none. */
  function EntryRows(e: Entry): seq<string>
  {
    if e.data.Some? && e.data.value.vulnerabilities.Some? then
      var vs := e.data.value.vulnerabilities.value;
      seq(|vs|, i requires 0 <= i < |vs| => Row(e, vs[i]))
    else []
  }

  /** `history.flatMap(...)` */
  function Rows(h: seq<Entry>): seq<string>
  {
    if h == [] then [] else EntryRows(h[0]) + Rows(h[1..])
  }

  /** The exported text. */
  function CsvText(h: seq<Entry>): string
  {
    Header + Join(Rows(h), "\n")
  }

  lemma {:induction false} RowsAppend(a: seq<Entry>, b: seq<Entry>)
    ensures Rows(a + b) == Rows(a) + Rows(b)
  {
    if a == [] {
      assert a + b == b;
    } else {
      var ab := a + b;
      assert ab[0] == a[0];
      assert ab[1..] == a[1..] + b;
      calc {
        Rows(ab);
        EntryRows(a[0]) + Rows(a[1..] + b);
        { RowsAppend(a[1..], b); }
        EntryRows(a[0]) + (Rows(a[1..]) + Rows(b));
      }
    }
  }

  /** The rows come in history order, then finding order: the `k`-th finding of
      the `j`-th entry gives the row just after the rows of the entries before it. */
  lemma RowsAt(h: seq<Entry>, j: nat, k: nat)
    requires j < |h| && h[j].data.Some? && h[j].data.value.vulnerabilities.Some?
    requires k < |h[j].data.value.vulnerabilities.value|
    ensures |Rows(h[..j])| + k < |Rows(h)|
    ensures Rows(h)[|Rows(h[..j])| + k] == Row(h[j], h[j].data.value.vulnerabilities.value[k])
  {
    assert h == h[..j] + ([h[j]] + h[j + 1..]);
    RowsAppend(h[..j], [h[j]] + h[j + 1..]);
    assert ([h[j]] + h[j + 1..])[1..] == h[j + 1..];
  }

  /** An entry without data or without findings adds no row wherever it stands. */
  lemma RowsSkipBareEntry(a: seq<Entry>, e: Entry, b: seq<Entry>)
    requires e.data.None? || e.data.value.vulnerabilities.None?
    ensures Rows(a + [e] + b) == Rows(a + b)
  {
    NoRowsOfBareEntry(e);
    RowsJoinAround(a, [e], b);
  }

  lemma NoRowsOfBareEntry(e: Entry)
    requires e.data.None? || e.data.value.vulnerabilities.None?
    ensures Rows([e]) == []
  {
    assert Rows([e]) == EntryRows(e) + Rows([]);
  }

  lemma RowsJoinAround(a: seq<Entry>, m: seq<Entry>, b: seq<Entry>)
    requires Rows(m) == []
    ensures Rows(a + m + b) == Rows(a + b)
  {
    RowsAppend(a + m, b);
    RowsAppend(a, m);
    RowsAppend(a, b);
  }

  /** The exported text opens with the header and holds every row. */
  lemma CsvTextHoldsRows(h: seq<Entry>, k: nat)
    requires k < |Rows(h)|
    ensures StartsWith(CsvText(h), Header)
    ensures Includes(CsvText(h), Rows(h)[k])
  {
    assert CsvText(h)[..|Header|] == Header;
    var i := JoinPosition(Rows(h), "\n", k);
    OccursInside(Header, Join(Rows(h), "\n"), "", Rows(h)[k], i);
    assert Header + Join(Rows(h), "\n") + "" == CsvText(h);
  }

  // ---------------------------------------------------------------- reading back

  /** A reader's split of a line at every occurrence of `c`, like `line.split(c)`. */
  function Split(s: string, c: char): (r: seq<string>)
    ensures |r| >= 1
    decreases |s|
  {
    if s == [] then [""]
    else
      var rest := Split(s[1..], c);
      if s[0] == c then [""] + rest else [[s[0]] + rest[0]] + rest[1..]
  }

  /** A split gives one field more than there are separators. */
  lemma {:induction false} SplitFieldCount(s: string, c: char)
    ensures |Split(s, c)| == multiset(s)[c] + 1
  {
    if s != [] {
      SplitFieldCount(s[1..], c);
      assert s == [s[0]] + s[1..];
    }
  }

  lemma {:induction false} SplitPlain(a: string, c: char)
    requires c !in a
    ensures Split(a, c) == [a]
  {
    if a != [] {
      SplitPlain(a[1..], c);
      assert [a[0]] + a[1..] == a;
    }
  }

  lemma {:induction false} SplitAfter(a: string, b: string, c: char)
    requires c !in a
    ensures Split(a + [c] + b, c) == [a] + Split(b, c)
  {
    var s := a + [c] + b;
    if a == [] {
      assert s[1..] == b;
    } else {
      SplitAfter(a[1..], b, c);
      assert s[1..] == a[1..] + [c] + b;
      assert [a[0]] + a[1..] == a;
    }
  }

  /** A row whose four fields hold no comma reads back as exactly those fields. */
  lemma RowReadsBack(e: Entry, v: Finding)
    requires ',' !in e.url && ',' !in e.timestamp && ',' !in v.name
    requires ',' !in Interpolate(v.recommendation)
    ensures Split(Row(e, v), ',') == [e.url, e.timestamp, v.name, Interpolate(v.recommendation)]
  {
    var r := Interpolate(v.recommendation);
    var t1 := v.name + [','] + r;
    var t2 := e.timestamp + [','] + t1;
    assert Row(e, v) == e.url + [','] + t2;
    calc {
      Split(Row(e, v), ',');
      { SplitAfter(e.url, t2, ','); }
      [e.url] + Split(t2, ',');
      { SplitAfter(e.timestamp, t1, ','); }
      [e.url] + ([e.timestamp] + Split(t1, ','));
      { SplitAfter(v.name, r, ','); }
      [e.url] + ([e.timestamp] + ([v.name] + Split(r, ',')));
      { SplitPlain(r, ','); }
      [e.url, e.timestamp, v.name, r];
    }
  }

  /** Every comma inside a field adds a column: the row reads back as four
      fields plus one per comma in its fields. */
  lemma RowFieldCount(e: Entry, v: Finding)
    ensures |Split(Row(e, v), ',')| ==
      4 + multiset(e.url)[','] + multiset(e.timestamp)[','] + multiset(v.name)[','] + multiset(Interpolate(v.recommendation))[',']
  {
    var r := Interpolate(v.recommendation);
    assert Row(e, v) == e.url + [','] + e.timestamp + [','] + v.name + [','] + r;
    SplitFieldCount(Row(e, v), ',');
  }

  /** A comma inside any field makes the row read back as more than four
      columns, so the columns after it shift. */
  lemma CommaInFieldShiftsColumns(e: Entry, v: Finding)
    requires ',' in e.url || ',' in e.timestamp || ',' in v.name || ',' in Interpolate(v.recommendation)
    ensures |Split(Row(e, v), ',')| > 4
  {
    RowFieldCount(e, v);
  }
}
