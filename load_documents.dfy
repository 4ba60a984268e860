/**
 * The CSV reader and the document template of scripts/loadDocuments.js.
 *
 * `parseCSV` reads one row per line with a character loop that toggles a
 * quote state: a comma inside double quotes does not end a field, and the
 * quote characters themselves are dropped. It is a loose take on section 2
 * of RFC 4180: quoted fields may hold commas, but a doubled quote inside a
 * quoted field is not kept as a quote.
 */
module LoadDocuments {
  import opened JsString

  // ---------------------------------------------------------------------
  // One line
  // ---------------------------------------------------------------------

  /** The loop variables of the line scan: fields completed so far, the field being read, and the quote state. */
  datatype Scan = Scan(values: seq<string>, current: string, inQuotes: bool)

  /** One character of the scan: a quote toggles, an unquoted comma ends the field (trimmed), anything else is kept. */
  function Step(st: Scan, c: char): (r: Scan)
    ensures r.values == st.values || r.values == st.values + [Trim(st.current)]
    ensures |r.values| == |st.values| + 1 <==> c == ',' && !st.inQuotes
    ensures r.inQuotes != st.inQuotes <==> c == '"'
    ensures c != '"' && c != ',' ==> r.current == st.current + [c]
  {
    if c == '"' then st.(inQuotes := !st.inQuotes)
    else if c == ',' && !st.inQuotes then Scan(st.values + [Trim(st.current)], "", st.inQuotes)
    else st.(current := st.current + [c])
  }

  /** The scan state after reading `line` from the left. */
  function ScanLine(line: string): (r: Scan)
    ensures |r.values| <= |line|
    decreases |line|
  {
    if line == [] then Scan([], "", false)
    else Step(ScanLine(line[..|line| - 1]), line[|line| - 1])
  }

  /** After a line, the scan is inside quotes exactly when the line holds an odd number of them; it completes at most one field per comma. */
  lemma {:induction false} ScanLineCounts(line: string)
    ensures ScanLine(line).inQuotes <==> Count(line, '"') % 2 == 1
    ensures |ScanLine(line).values| <= Count(line, ',')
    decreases |line|
  {
    if line != [] {
      var init, c := line[..|line| - 1], line[|line| - 1];
      assert line == init + [c];
      CountSnoc(init, c, '"');
      CountSnoc(init, c, ',');
      ScanLineCounts(init);
      var st := ScanLine(init);
      assert ScanLine(line) == Step(st, c);
      var q := Count(init, '"');
      if c == '"' {
        assert Count(line, '"') == q + 1;
        assert (q + 1) % 2 == 1 <==> q % 2 == 0;
      } else {
        assert Count(line, '"') == q;
      }
    }
  }

  /** The fields of a line: the completed fields and the last one, trimmed. */
  function LineValues(line: string): (vs: seq<string>)
    ensures |vs| >= 1
  {
    ScanLine(line).values + [Trim(ScanLine(line).current)]
  }

  /** The character loop of `parseCSV` for one line. */
  method ParseLine(line: string) returns (values: seq<string>)
    ensures values == LineValues(line)
  {
    values := [];
    var current := "";
    var inQuotes := false;
    var i := 0;
    while i < |line|
      invariant 0 <= i <= |line|
      invariant Scan(values, current, inQuotes) == ScanLine(line[..i])
    {
      var c := line[i];
      assert line[..i + 1][..i] == line[..i];
      if c == '"' {
        inQuotes := !inQuotes;
      } else if c == ',' && !inQuotes {
        values := values + [Trim(current)];
        current := "";
      } else {
        current := current + [c];
      }
      i := i + 1;
    }
    assert line[..i] == line;
    values := values + [Trim(current)];
  }

  /** Every field is trimmed. */
  lemma {:induction false} ScanTrimmed(line: string)
    ensures forall k :: 0 <= k < |ScanLine(line).values| ==> Trimmed(ScanLine(line).values[k])
    decreases |line|
  {
    if line != [] {
      ScanTrimmed(line[..|line| - 1]);
    }
  }

  lemma ValuesTrimmed(line: string)
    ensures forall k :: 0 <= k < |LineValues(line)| ==> Trimmed(LineValues(line)[k])
  {
    ScanTrimmed(line);
  }

  /**
   * A character the fields never hold: the quote, which only toggles the
   * state, and any character the line itself lacks.
   */
  lemma {:induction false} ScanAvoids(line: string, ch: char)
    requires ch == '"' || ch !in line
    ensures ch !in ScanLine(line).current
    ensures forall k :: 0 <= k < |ScanLine(line).values| ==> ch !in ScanLine(line).values[k]
    decreases |line|
  {
    if line != [] {
      var p := line[..|line| - 1];
      assert ch != '"' ==> ch !in p by {
        assert forall i :: 0 <= i < |p| ==> p[i] == line[i];
      }
      ScanAvoids(p, ch);
      var c := line[|line| - 1];
      assert ScanLine(line) == Step(ScanLine(p), c);
      StepAvoids(ScanLine(p), c, ch);
    }
  }

  /** One step keeps out a character that is the quote or is not the one read. */
  lemma StepAvoids(st: Scan, c: char, ch: char)
    requires ch == '"' || c != ch
    requires ch !in st.current && forall k :: 0 <= k < |st.values| ==> ch !in st.values[k]
    ensures ch !in Step(st, c).current
    ensures forall k :: 0 <= k < |Step(st, c).values| ==> ch !in Step(st, c).values[k]
  {
    if c == '"' {
    } else if c == ',' && !st.inQuotes {
      TrimChars(st.current);
      AppendAvoids(st.values, Trim(st.current), ch);
    } else {
      assert ch !in st.current + [c];
    }
  }

  lemma ValuesAvoid(line: string, ch: char)
    requires ch == '"' || ch !in line
    ensures forall k :: 0 <= k < |LineValues(line)| ==> ch !in LineValues(line)[k]
  {
    var st := ScanLine(line);
    assert forall k :: 0 <= k < |st.values| ==> ch !in st.values[k] by {
      ScanAvoids(line, ch);
    }
    assert ch !in Trim(st.current) by {
      ScanAvoids(line, ch);
      TrimChars(st.current);
    }
    AppendAvoids(st.values, Trim(st.current), ch);
  }

  lemma AppendAvoids(vs: seq<string>, last: string, ch: char)
    requires forall k :: 0 <= k < |vs| ==> ch !in vs[k]
    requires ch !in last
    ensures forall k :: 0 <= k < |vs + [last]| ==> ch !in (vs + [last])[k]
  {
  }

  /** Inside quotes, quote-free text is copied into the current field whole, commas included. */
  lemma {:induction false} QuotedRun(p: string, x: string)
    requires ScanLine(p).inQuotes && '"' !in x
    ensures ScanLine(p + x) == ScanLine(p).(current := ScanLine(p).current + x)
    decreases |x|
  {
    if x == [] {
      assert p + x == p;
    } else {
      var x' := x[..|x| - 1];
      assert '"' !in x' by { assert forall i :: 0 <= i < |x'| ==> x'[i] == x[i]; }
      QuotedRun(p, x');
      assert (p + x)[..|p + x| - 1] == p + x';
      assert ScanLine(p).current + x' + [x[|x| - 1]] == ScanLine(p).current + x;
    }
  }

  /**
   * A quoted stretch is part of one field: after `"x"` with no quote inside
   * `x`, the scan has read `x` into the current field, commas and all.
   */
  lemma QuotedField(p: string, x: string)
    requires !ScanLine(p).inQuotes && '"' !in x
    ensures ScanLine(p + "\"" + x + "\"") == ScanLine(p).(current := ScanLine(p).current + x)
  {
    var q := p + "\"";
    assert q[..|q| - 1] == p;
    assert ScanLine(q) == ScanLine(p).(inQuotes := true);
    QuotedRun(q, x);
    var w := q + x + "\"";
    assert w[..|w| - 1] == q + x;
    assert p + "\"" + x + "\"" == w;
  }

  /** A line holding only a quoted field with commas in it yields that one field. */
  lemma QuotedLine(x: string)
    requires '"' !in x
    ensures LineValues("\"" + x + "\"") == [Trim(x)]
  {
    QuotedField([], x);
    var w := "\"" + x + "\"";
    assert [] + "\"" + x + "\"" == w;
    assert ScanLine([]) == Scan([], "", false);
    assert ScanLine(w) == Scan([], x, false);
    assert LineValues(w) == [] + [Trim(x)];
  }

  /** Trims every string of a list. */
  function TrimAll(ss: seq<string>): (ts: seq<string>)
    ensures |ts| == |ss| && forall k :: 0 <= k < |ss| ==> ts[k] == Trim(ss[k])
  {
    seq(|ss|, k requires 0 <= k < |ss| => Trim(ss[k]))
  }

  lemma TrimAllSnoc(ss: seq<string>, s: string)
    ensures TrimAll(ss + [s]) == TrimAll(ss) + [Trim(s)]
  {
    assert |TrimAll(ss + [s])| == |TrimAll(ss) + [Trim(s)]|;
    forall k | 0 <= k < |ss| + 1 ensures TrimAll(ss + [s])[k] == (TrimAll(ss) + [Trim(s)])[k] {
      if k < |ss| {
        assert (ss + [s])[k] == ss[k];
      }
    }
  }

  /** The scan state that comma-separated pieces stand for: all but the last trimmed and completed, the last open. */
  function PlainState(parts: seq<string>): Scan
    requires |parts| >= 1
  {
    Scan(TrimAll(parts[..|parts| - 1]), parts[|parts| - 1], false)
  }

  /** Without quotes, the scan is a split on commas: the completed fields trimmed, the last still open. */
  lemma {:induction false} PlainScan(line: string)
    requires '"' !in line
    ensures ScanLine(line) == PlainState(Split(line, ','))
    decreases |line|
  {
    if line != [] {
      var p, c := line[..|line| - 1], line[|line| - 1];
      assert line == p + [c];
      assert '"' !in p by {
        assert forall i :: 0 <= i < |p| ==> p[i] == line[i];
      }
      PlainScan(p);
      PlainSnoc(p, c, line);
    }
  }

  /** The step from `p` to `p + [c]` of the plain scan. */
  lemma PlainSnoc(p: string, c: char, line: string)
    requires line == p + [c] && c != '"'
    requires ScanLine(p) == PlainState(Split(p, ','))
    ensures ScanLine(line) == PlainState(Split(line, ','))
  {
    assert line[..|line| - 1] == p;
    assert ScanLine(line) == Step(ScanLine(p), c);
    SplitSnoc(p, c, ',');
    PlainStep(Split(p, ','), c);
  }

  /** One more unquoted character moves the plain state as it moves the split pieces. */
  lemma PlainStep(parts: seq<string>, c: char)
    requires |parts| >= 1 && c != '"'
    ensures Step(PlainState(parts), c) == PlainState(AddChar(parts, c, ','))
  {
    var n := |parts|;
    if c == ',' {
      assert (parts + [""])[..n] == parts;
      assert parts == parts[..n - 1] + [parts[n - 1]];
      TrimAllSnoc(parts[..n - 1], parts[n - 1]);
    } else {
      var q := AddChar(parts, c, ',');
      assert q[..n - 1] == parts[..n - 1];
    }
  }

  /** A line without quotes has the fields of `line.split(',')`, each trimmed. */
  lemma PlainLine(line: string)
    requires '"' !in line
    ensures LineValues(line) == TrimAll(Split(line, ','))
  {
    PlainScan(line);
    PlainValues(Split(line, ','));
  }

  /** Closing the open piece of a plain scan gives all the pieces trimmed. */
  lemma PlainValues(parts: seq<string>)
    requires |parts| >= 1
    ensures PlainState(parts).values + [Trim(PlainState(parts).current)] == TrimAll(parts)
  {
    var n := |parts|;
    assert parts[..n - 1] + [parts[n - 1]] == parts;
    TrimAllSnoc(parts[..n - 1], parts[n - 1]);
  }

  // ---------------------------------------------------------------------
  // Rows
  // ---------------------------------------------------------------------

  /**
   * The unescape `parseCSV` applies to a value that starts and ends with a
   * quote: the outer quotes dropped, `""` turned into `"`.
   */
  function Unquote(v: string): (r: string)
    ensures '"' !in v ==> r == v
  {
    if |v| >= 1 && v[0] == '"' && v[|v| - 1] == '"' then
      ReplaceAll(if |v| >= 2 then v[1..|v| - 1] else "", "\"\"", "\"")
    else v
  }

  /** `values[i] || ''`, then unescaped: a missing field is the empty string. */
  function Cell(values: seq<string>, i: nat): (v: string)
    ensures i >= |values| ==> v == ""
    ensures i < |values| && '"' !in values[i] ==> v == values[i]
  {
    Unquote(if i < |values| then values[i] else "")
  }

  /**
   * The row object the `reduce` over the headers builds: each header maps to
   * the field at its position; of two equal headers, the later one wins.
   */
  function RowOf(headers: seq<string>, values: seq<string>): (row: map<string, string>)
    ensures forall h :: h in row <==> h in headers
    decreases |headers|
  {
    if headers == [] then map[]
    else
      var n := |headers| - 1;
      var row := RowOf(headers[..n], values)[headers[n] := Cell(values, n)];
      assert forall h :: h in headers <==> h in headers[..n] || h == headers[n];
      row
  }

  /** A header that no later header repeats holds the field at its own position. */
  lemma {:induction false} RowOfCell(headers: seq<string>, values: seq<string>, i: nat)
    requires i < |headers| && LastOf(headers, i)
    ensures RowOf(headers, values)[headers[i]] == Cell(values, i)
    decreases |headers|
  {
    var n := |headers| - 1;
    var prev := RowOf(headers[..n], values);
    assert RowOf(headers, values) == prev[headers[n] := Cell(values, n)];
    if i < n {
      assert headers[n] != headers[i];
      assert headers[..n][i] == headers[i];
      assert LastOf(headers[..n], i) by {
        forall j | i < j < n ensures headers[..n][j] != headers[..n][i] {
          assert headers[..n][j] == headers[j];
        }
      }
      RowOfCell(headers[..n], values, i);
    }
  }

  /** No later header repeats the one at `i`. */
  predicate LastOf(headers: seq<string>, i: nat)
    requires i < |headers|
  {
    forall j :: i < j < |headers| ==> headers[j] != headers[i]
  }

  // ---------------------------------------------------------------------
  // The whole file
  // ---------------------------------------------------------------------

  /** The lines of the trimmed text; the first holds the headers. */
  function CsvLines(csv: string): (lines: seq<string>)
    ensures |lines| >= 1
  {
    Split(Trim(csv), '\n')
  }

  /** The column names: the first line split at its commas, one more name than commas, each trimmed. */
  function Headers(csv: string): (hs: seq<string>)
    ensures |hs| == Count(CsvLines(csv)[0], ',') + 1
  {
    TrimAll(Split(CsvLines(csv)[0], ','))
  }

  /** No column name has a comma or a line break in it, or space at either end. */
  lemma HeadersClean(csv: string)
    ensures forall k :: 0 <= k < |Headers(csv)| ==> Trimmed(Headers(csv)[k]) && ',' !in Headers(csv)[k] && '\n' !in Headers(csv)[k]
  {
    var first := CsvLines(csv)[0];
    var parts := Split(first, ',');
    SplitNoSep(Trim(csv), '\n');
    SplitNoSep(first, ',');
    forall k | 0 <= k < |parts| ensures ',' !in Headers(csv)[k] && '\n' !in Headers(csv)[k] {
      TrimChars(parts[k]);
      SplitChars(first, ',', k);
    }
  }

  /** The rows `parseCSV` returns, one per line after the header line. */
  function CsvRows(csv: string): (rows: seq<map<string, string>>)
    ensures |rows| == |CsvLines(csv)| - 1
  {
    RowsOf(Headers(csv), CsvLines(csv))
  }

  /** One row per line after the first, each read against the headers. */
  function RowsOf(headers: seq<string>, lines: seq<string>): (rows: seq<map<string, string>>)
    requires |lines| >= 1
    ensures |rows| == |lines| - 1
    ensures forall r :: 0 <= r < |rows| ==> rows[r] == RowOf(headers, LineValues(lines[r + 1]))
  {
    seq(|lines| - 1, r requires 0 <= r < |lines| - 1 => RowOf(headers, LineValues(lines[r + 1])))
  }

  /** `parseCSV(csv)`: each line after the first read by the character loop and turned into a row. */
  method ParseCSV(csv: string) returns (rows: seq<map<string, string>>)
    ensures rows == CsvRows(csv)
  {
    var lines := Split(Trim(csv), '\n');
    var headers := TrimAll(Split(lines[0], ','));
    rows := [];
    var r := 1;
    while r < |lines|
      invariant 1 <= r <= |lines|
      invariant rows == RowsOf(headers, lines)[..r - 1]
    {
      var values := ParseLine(lines[r]);
      NextRow(headers, lines, r, values);
      rows := rows + [RowOf(headers, values)];
      r := r + 1;
    }
    assert RowsOf(headers, lines)[..|lines| - 1] == RowsOf(headers, lines);
    assert lines == CsvLines(csv) && headers == Headers(csv);
  }

  /** The row read from the line at `r` extends the rows read before it. */
  lemma NextRow(headers: seq<string>, lines: seq<string>, r: nat, values: seq<string>)
    requires 1 <= r < |lines| && values == LineValues(lines[r])
    ensures RowsOf(headers, lines)[..r - 1] + [RowOf(headers, values)] == RowsOf(headers, lines)[..r]
  {
    var rows := RowsOf(headers, lines);
    assert rows[r - 1] == RowOf(headers, values);
    SliceSnoc(rows, r - 1);
  }

  /** Growing a prefix by the next element. */
  lemma SliceSnoc<T>(s: seq<T>, i: nat)
    requires i < |s|
    ensures s[..i] + [s[i]] == s[..i + 1]
  {
  }

  /**
   * A field never holds a quote or a line break, so the unescape never
   * fires: every cell of a row is the scanned field itself, or `''` when the
   * line has fewer fields than there are headers.
   */
  lemma RowCells(csv: string, r: nat, i: nat)
    requires r < |CsvRows(csv)| && i < |Headers(csv)|
    requires LastOf(Headers(csv), i)
    ensures forall h :: h in CsvRows(csv)[r] <==> h in Headers(csv)
    ensures var values := LineValues(CsvLines(csv)[r + 1]);
      && CsvRows(csv)[r][Headers(csv)[i]] == (if i < |values| then values[i] else "")
      && '"' !in CsvRows(csv)[r][Headers(csv)[i]]
      && '\n' !in CsvRows(csv)[r][Headers(csv)[i]]
  {
    var line := CsvLines(csv)[r + 1];
    assert CsvRows(csv)[r] == RowOf(Headers(csv), LineValues(line));
    assert '\n' !in line by { SplitNoSep(Trim(csv), '\n'); }
    RowOfCell(Headers(csv), LineValues(line), i);
    ValuesAvoid(line, '"');
    ValuesAvoid(line, '\n');
  }

  // ---------------------------------------------------------------------
  // Documents
  // ---------------------------------------------------------------------

  /** `row.<column> || ''`. */
  function Column(row: map<string, string>, column: string): (v: string)
    ensures column !in row ==> v == ""
    ensures column in row ==> v == row[column]
  {
    if column in row then row[column] else ""
  }

  /** The template's lines, from the empty line after the opening backtick to the indentation before the closing one. */
  function PageLines(row: map<string, string>): seq<string> {
    [ "",
      "Product: " + Column(row, "Product_Name"),
      "Model: " + Column(row, "Model_Type"),
      "Price: " + Column(row, "Price"),
      "Features: " + Column(row, "Key_Features"),
      "Connectivity & Safety: " + Column(row, "Connectivity_Safety"),
      "Target: " + Column(row, "Target_Audience"),
      "Category: " + Column(row, "Domain") + " / " + Column(row, "Sub_Category"),
      "            " ]
  }

  /** The `pageContent` of a row: the template with each column in place, trimmed. */
  function PageContent(row: map<string, string>): (p: string)
    ensures p == Trim(Join(PageLines(row), "\n"))
    ensures Trimmed(p)
    ensures |p| >= 8 && p[..8] == "Product:"
  {
    PageHead(row);
    TrimLabel(Join(PageLines(row), "\n"), PageRest(row));
    Trim(Join(PageLines(row), "\n"))
  }

  /** What follows the product label in the untrimmed template. */
  function PageRest(row: map<string, string>): string {
    " " + Column(row, "Product_Name") + "\n" + Join(PageLines(row)[2..], "\n")
  }

  /** The untrimmed template opens with a line break and the product label. */
  lemma PageHead(row: map<string, string>)
    ensures Join(PageLines(row), "\n") == ['\n'] + "Product:" + PageRest(row)
  {
    var ls := PageLines(row);
    var tail := Join(ls[2..], "\n");
    assert ls[1..][1..] == ls[2..];
    assert Join(ls[1..], "\n") == ls[1] + "\n" + tail;
    assert Join(ls, "\n") == ls[0] + "\n" + Join(ls[1..], "\n");
    assert ls[0] == [] && ls[1] == "Product:" + " " + Column(row, "Product_Name");
    Regroup("Product:", " " + Column(row, "Product_Name"), tail);
  }

  /** Moving the brackets of the template's opening lines. */
  lemma Regroup(head: string, value: string, tail: string)
    ensures [] + "\n" + (head + value + "\n" + tail) == ['\n'] + head + (value + "\n" + tail)
  {
  }


  /** A text that opens with a line break and the product label keeps the label at the front once trimmed. */
  lemma TrimLabel(text: string, rest: string)
    requires text == ['\n'] + "Product:" + rest
    ensures |Trim(text)| >= 8 && Trim(text)[..8] == "Product:"
  {
    TrimKeepsHead('\n', "Product:", rest);
  }

  /**
   * When no column holds a line break, the untrimmed template splits back
   * into its fixed lines: each label on its own line, in order, with `''`
   * for a missing column.
   */
  lemma PageLinesInOrder(row: map<string, string>)
    requires forall k :: k in row ==> '\n' !in row[k]
    ensures Split(Join(PageLines(row), "\n"), '\n') == PageLines(row)
    ensures forall k :: 0 <= k < |PageLines(row)| ==> '\n' !in PageLines(row)[k]
  {
    var ls := PageLines(row);
    forall k | 0 <= k < |ls| ensures '\n' !in ls[k] {
      NoBreakConcat(row);
    }
    SplitJoin(ls, '\n');
  }

  lemma NoBreakConcat(row: map<string, string>)
    requires forall k :: k in row ==> '\n' !in row[k]
    ensures forall k :: 0 <= k < |PageLines(row)| ==> '\n' !in PageLines(row)[k]
  {
    var cols := ["Product_Name", "Model_Type", "Price", "Key_Features", "Connectivity_Safety", "Target_Audience", "Domain", "Sub_Category"];
    assert forall c :: '\n' !in Column(row, c);
  }

  /** A cell of a parsed row holds no line break. */
  lemma CellNoBreak(csv: string, r: nat, k: string)
    requires r < |CsvRows(csv)| && k in CsvRows(csv)[r]
    requires forall i, j :: 0 <= i < j < |Headers(csv)| ==> Headers(csv)[i] != Headers(csv)[j]
    ensures '\n' !in CsvRows(csv)[r][k]
  {
    var hs := Headers(csv);
    var line := CsvLines(csv)[r + 1];
    assert CsvRows(csv)[r] == RowOf(hs, LineValues(line));
    assert k in hs;
    var i :| 0 <= i < |hs| && hs[i] == k;
    RowCells(csv, r, i);
  }

  /** A row read from a CSV file has no line break in any value, so its page lays out in fixed lines. */
  lemma CsvPageInOrder(csv: string, r: nat)
    requires r < |CsvRows(csv)|
    requires forall i, j :: 0 <= i < j < |Headers(csv)| ==> Headers(csv)[i] != Headers(csv)[j]
    ensures Split(Join(PageLines(CsvRows(csv)[r]), "\n"), '\n') == PageLines(CsvRows(csv)[r])
  {
    var row := CsvRows(csv)[r];
    forall k | k in row ensures '\n' !in row[k] {
      CellNoBreak(csv, r, k);
    }
    PageLinesInOrder(row);
  }
}
