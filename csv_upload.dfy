/** The CSV parsing of the admin upload page: a quote-aware comma splitter
    for one line, and the loop over the data lines that locates the columns
    by header text, splits the list of people, normalises `M/D/Y` dates and
    drops unusable rows. */
module CsvUpload {
  import opened Common
  import opened Sorting

  // ---- parseCSVLine ----

  /** Whether an odd number of `"` has been seen, i.e. the scan is inside quotes. */
  predicate InQuotes(s: string) {
    Count(s, '"') % 2 == 1
  }

  /** `s` with every `"` removed. */
  function RemoveQuotes(s: string): (r: string)
    ensures '"' !in r
  {
    if s == [] then []
    else RemoveQuotes(s[..|s| - 1]) + (if s[|s| - 1] == '"' then [] else [s[|s| - 1]])
  }

  /** Number of commas of `s` that stand outside quotes. */
  function UnquotedCommas(s: string): nat
  {
    if s == [] then 0
    else UnquotedCommas(s[..|s| - 1]) + (if s[|s| - 1] == ',' && !InQuotes(s[..|s| - 1]) then 1 else 0)
  }

  /** The fields of a line as the character scan builds them: a `"` toggles
      the quote state and is dropped, a comma outside quotes ends a field,
      every other character is appended to the current field. */
  function CsvFields(s: string): (r: seq<string>)
    ensures |r| >= 1
  {
    if s == [] then [""]
    else
      var prev := CsvFields(s[..|s| - 1]);
      var c := s[|s| - 1];
      if c == '"' then prev
      else if c == ',' && !InQuotes(s[..|s| - 1]) then prev + [""]
      else prev[..|prev| - 1] + [prev[|prev| - 1] + [c]]
  }

  /** What the split promises: joining the fields with `,` gives the line
      without its quote characters, there is one field more than commas
      outside quotes, and no field contains `"`. */
  lemma {:induction false} CsvFieldsSpec(s: string)
    ensures Join(CsvFields(s), ",") == RemoveQuotes(s)
    ensures |CsvFields(s)| == UnquotedCommas(s) + 1
    ensures forall k :: 0 <= k < |CsvFields(s)| ==> '"' !in CsvFields(s)[k]
    decreases |s|
  {
    if s != [] {
      var p := s[..|s| - 1];
      var c := s[|s| - 1];
      CsvFieldsSpec(p);
      var prev := CsvFields(p);
      if c == '"' {
      } else if c == ',' && !InQuotes(p) {
        JoinAppendPart(prev, ",", "");
      } else {
        JoinAppendChar(prev, ",", c);
        ExtendLastNoQuote(prev, c);
      }
    }
  }

  lemma ExtendLastNoQuote(prev: seq<string>, c: char)
    requires |prev| >= 1 && c != '"'
    requires forall k :: 0 <= k < |prev| ==> '"' !in prev[k]
    ensures var r := prev[..|prev| - 1] + [prev[|prev| - 1] + [c]];
      forall k :: 0 <= k < |r| ==> '"' !in r[k]
  {
    var r := prev[..|prev| - 1] + [prev[|prev| - 1] + [c]];
    assert forall k :: 0 <= k < |prev| - 1 ==> r[k] == prev[k];
  }

  /** One more character: a `"` toggles the quote state and is dropped, a
      `,` outside quotes opens a field, anything else extends the last. */
  lemma CsvFieldsAppend(p: string, c: char)
    ensures InQuotes(p + [c]) == (if c == '"' then !InQuotes(p) else InQuotes(p))
    ensures CsvFields(p + [c]) ==
      if c == '"' then CsvFields(p)
      else if c == ',' && !InQuotes(p) then CsvFields(p) + [""]
      else CsvFields(p)[..|CsvFields(p)| - 1] + [CsvFields(p)[|CsvFields(p)| - 1] + [c]]
  {
    assert (p + [c])[..|p|] == p;
    CountAppend(p, '"', c);
  }

  /** `parseCSVLine`: one pass over the characters with the current field
      and the quote state. */
  method ParseCsvLine(line: string) returns (fields: seq<string>)
    ensures fields == CsvFields(line)
    ensures |fields| == UnquotedCommas(line) + 1
    ensures Join(fields, ",") == RemoveQuotes(line)
    ensures forall k :: 0 <= k < |fields| ==> '"' !in fields[k]
  {
    var result: seq<string> := [];
    var current := "";
    var inQuotes := false;
    for i := 0 to |line|
      invariant inQuotes == InQuotes(line[..i])
      invariant result + [current] == CsvFields(line[..i])
    {
      var c := line[i];
      CsvFieldsAppend(line[..i], c);
      assert line[..i] + [c] == line[..i + 1];
      if c == '"' {
        inQuotes := !inQuotes;
      } else if c == ',' && !inQuotes {
        result := result + [current];
        current := "";
      } else {
        assert (result + [current])[..|result|] == result;
        current := current + [c];
      }
    }
    assert line[..|line|] == line;
    result := result + [current];
    fields := result;
    CsvFieldsSpec(line);
  }

  // ---- parseCSV ----

  /** A row as the upload page parses it; `None` stands for `undefined`,
      which a missing column leaves in the ticket and DIR numbers. */
  datatype ParsedRow = ParsedRow(
    ticketNumber: Option<string>, projectTitle: string, dirNumber: Option<string>,
    dateWorked: string, totalHours: real, people: seq<string>)

  /** The column indexes found in the header line (-1 when absent). */
  datatype Columns = Columns(ticket: int, name: int, dir: int, date: int, hours: int, people: int)

  function FindColumns(headers: seq<string>): (cols: Columns)
    ensures cols.people == FindIndex(headers, "People")
  {
    Columns(
      FindIndex(headers, "Ticket #"), FindIndex(headers, "Ticket Name"), FindIndex(headers, "DIR #"),
      FindIndex(headers, "Deliverable Due Date"), FindIndex(headers, "Total Man Hours"),
      FindIndex(headers, "People"))
  }

  /** `row[idx]`: `None` is `undefined` (a negative index or one past the end). */
  function Field(row: seq<string>, idx: int): Option<string> {
    if 0 <= idx < |row| then Some(row[idx]) else None
  }

  /** `.replace(/^"|"$/g, '')`: one leading and one trailing `"` removed. */
  function StripOuterQuotes(s: string): string {
    var a := if s != [] && s[0] == '"' then s[1..] else s;
    if a != [] && a[|a| - 1] == '"' then a[..|a| - 1] else a
  }

  /** No white space at either end. */
  predicate Trimmed(p: string) {
    p == [] || (!IsSpace(p[0]) && !IsSpace(p[|p| - 1]))
  }

  function TrimAll(xs: seq<string>): seq<string> {
    if xs == [] then [] else [Trim(xs[0])] + TrimAll(xs[1..])
  }

  /** Every piece trimmed, in place. */
  lemma {:induction false} TrimAllSpec(xs: seq<string>)
    ensures |TrimAll(xs)| == |xs|
    ensures forall k :: 0 <= k < |xs| ==> TrimAll(xs)[k] == Trim(xs[k]) && Trimmed(TrimAll(xs)[k])
    ensures forall x :: x in xs ==> Trim(x) in TrimAll(xs)
    decreases |xs|
  {
    if xs != [] {
      TrimAllSpec(xs[1..]);
      var r := TrimAll(xs);
      assert r == [Trim(xs[0])] + TrimAll(xs[1..]);
      forall k | 0 <= k < |xs| ensures r[k] == Trim(xs[k]) && Trimmed(r[k]) {
        if k > 0 {
          assert xs[1..][k - 1] == xs[k];
        }
      }
      forall x | x in xs ensures Trim(x) in r {
        if x != xs[0] {
          assert x in xs[1..];
        }
      }
    }
  }

  function NonEmpty(xs: seq<string>): seq<string> {
    if xs == [] then []
    else if xs[0] != "" then [xs[0]] + NonEmpty(xs[1..])
    else NonEmpty(xs[1..])
  }

  /** Exactly the non-empty entries are kept. */
  lemma {:induction false} NonEmptySpec(xs: seq<string>)
    ensures forall x :: x in NonEmpty(xs) ==> x != "" && x in xs
    ensures forall x :: x in xs && x != "" ==> x in NonEmpty(xs)
    decreases |xs|
  {
    if xs != [] {
      NonEmptySpec(xs[1..]);
      forall x | x in xs && x != "" ensures x in NonEmpty(xs) {
        if x != xs[0] {
          assert x in xs[1..];
        }
      }
    }
  }

  /** The people cell split on commas, each name trimmed, empty names
      dropped. */
  function PeopleList(cell: string): seq<string> {
    NonEmpty(TrimAll(Split(StripOuterQuotes(cell), ',')))
  }

  /** Every entry of the people list is non-empty with no white space at
      either end, and every non-empty trimmed piece of the cell is listed. */
  lemma PeopleListSpec(cell: string)
    ensures forall p :: p in PeopleList(cell) ==> p != "" && Trimmed(p)
    ensures forall piece :: piece in Split(StripOuterQuotes(cell), ',') && Trim(piece) != "" ==> Trim(piece) in PeopleList(cell)
  {
    var pieces := Split(StripOuterQuotes(cell), ',');
    TrimAllSpec(pieces);
    NonEmptySpec(TrimAll(pieces));
    forall p | p in PeopleList(cell) ensures Trimmed(p) {
      var k :| 0 <= k < |TrimAll(pieces)| && TrimAll(pieces)[k] == p;
    }
  }

  /** A cell produced by the line splitter holds no `"`, so the outer-quote
      strip of the people cell never changes it. */
  lemma StripOuterQuotesNoQuote(s: string)
    requires '"' !in s
    ensures StripOuterQuotes(s) == s
  {
  }

  /** The `${year}-${month}-${day}` text built from the `/`-separated parts
      of the date cell: `parseInt` of the third part (NaN prints as `NaN`),
      plus 2000 below 100, and the first two parts left-padded to two digits. */
  function NormaliseDate(parts: seq<string>): string
    requires |parts| >= 2
  {
    var year := if |parts| > 2 then ParseInt(parts[2]) else None;
    var yearText := match year
      case None => "NaN"
      case Some(y) => IntToString(if y < 100 then y + 2000 else y);
    yearText + "-" + PadStart2(parts[0]) + "-" + PadStart2(parts[1])
  }

  /** `parseFloat(cell) || 0`, with `parseFloat` a parameter (`None` is NaN). */
  function Hours(cell: Option<string>, parseNumber: string -> Option<real>): real {
    match cell
    case None => 0.0
    case Some(s) => match parseNumber(s) case None => 0.0 case Some(v) => v
  }

  /** What the loop body does with one data line. `Threw` is a TypeError
      from calling a string method on `undefined`, which aborts the parse. */
  datatype LineOutcome = Skipped | Kept(row: ParsedRow) | Threw

  /** The loop body of `parseCSV` on the fields of one line. */
  function ParseFields(row: seq<string>, cols: Columns, parseNumber: string -> Option<real>): LineOutcome
  {
    if |row| < cols.people + 1 then Skipped
    else if cols.people < 0 then Threw
    else
      var people := PeopleList(row[cols.people]);
      if people == [] then Skipped
      else if !(0 <= cols.date < |row|) then Threw
      else
        var parts := Split(row[cols.date], '/');
        if |parts| < 2 || !(0 <= cols.name < |row|) then Threw
        else
          Kept(ParsedRow(Field(row, cols.ticket), Trim(row[cols.name]), Field(row, cols.dir),
                         NormaliseDate(parts), Hours(Field(row, cols.hours), parseNumber), people))
  }

  /** A line is skipped exactly when it has too few fields to reach the
      people column, or its people list is empty after trimming and
      filtering; a kept row carries the people list of its people cell and
      the normalised date and trimmed title of its date and title cells. */
  lemma ParseFieldsSpec(row: seq<string>, cols: Columns, parseNumber: string -> Option<real>)
    ensures var out := ParseFields(row, cols, parseNumber);
      && (out == Skipped <==> |row| < cols.people + 1 || (0 <= cols.people && PeopleList(row[cols.people]) == []))
      && (out.Kept? ==>
            && 0 <= cols.people < |row| && 0 <= cols.date < |row| && 0 <= cols.name < |row|
            && |Split(row[cols.date], '/')| >= 2
            && out.row.people == PeopleList(row[cols.people]) && out.row.people != []
            && out.row.dateWorked == NormaliseDate(Split(row[cols.date], '/'))
            && out.row.projectTitle == Trim(row[cols.name])
            && out.row.ticketNumber == Field(row, cols.ticket) && out.row.dirNumber == Field(row, cols.dir))
  {
  }

  function ParseLine(line: string, cols: Columns, parseNumber: string -> Option<real>): LineOutcome {
    ParseFields(CsvFields(line), cols, parseNumber)
  }

  /** The outcome of `parseCSV`: the rows, or the TypeError that aborted it. */
  datatype CsvParse = Rows(rows: seq<ParsedRow>) | Aborted

  /** The data lines' outcomes taken in order: kept rows are appended,
      skipped lines leave the rows alone, and a line that throws aborts the
      parse. */
  function Summary(outs: seq<LineOutcome>): CsvParse
  {
    if outs == [] then Rows([])
    else
      match Summary(outs[..|outs| - 1])
      case Aborted => Aborted
      case Rows(rows) =>
        match outs[|outs| - 1]
        case Threw => Aborted
        case Skipped => Rows(rows)
        case Kept(r) => Rows(rows + [r])
  }

  lemma SummarySnoc(outs: seq<LineOutcome>, o: LineOutcome)
    ensures Summary(outs + [o]) ==
      match Summary(outs)
      case Aborted => Aborted
      case Rows(rows) => match o case Threw => Aborted case Skipped => Rows(rows) case Kept(r) => Rows(rows + [r])
  {
    assert (outs + [o])[..|outs|] == outs;
  }

  /** The parse aborts exactly when some data line throws. */
  lemma {:induction false} SummaryAborted(outs: seq<LineOutcome>)
    ensures Summary(outs) == Aborted <==> Threw in outs
    decreases |outs|
  {
    if outs != [] {
      var p := outs[..|outs| - 1];
      SummaryAborted(p);
      assert outs == p + [outs[|outs| - 1]];
    }
  }

  /** The rows of a successful parse are exactly the rows its lines keep. */
  lemma {:induction false} SummaryRows(outs: seq<LineOutcome>)
    requires Summary(outs).Rows?
    ensures forall r :: r in Summary(outs).rows <==> Kept(r) in outs
    ensures |Summary(outs).rows| <= |outs|
    decreases |outs|
  {
    if outs != [] {
      var p, o := outs[..|outs| - 1], outs[|outs| - 1];
      SummaryRows(p);
      assert outs == p + [o];
      SummarySnoc(p, o);
      var rows := Summary(p).rows;
      assert Summary(outs).rows == rows + (if o.Kept? then [o.row] else []);
      forall r ensures r in Summary(outs).rows <==> Kept(r) in outs {
        assert Kept(r) in outs <==> Kept(r) in p || Kept(r) == o;
      }
    }
  }

  /** Parsing distributes over concatenation of the data lines, so the rows
      keep the order of the lines they come from. */
  lemma {:induction false} SummaryAppend(a: seq<LineOutcome>, b: seq<LineOutcome>)
    ensures Summary(a + b) ==
      if Summary(a).Rows? && Summary(b).Rows? then Rows(Summary(a).rows + Summary(b).rows) else Aborted
    decreases |b|
  {
    if b == [] {
      assert a + b == a;
    } else {
      var b' := b[..|b| - 1];
      var o := b[|b| - 1];
      assert a + b == (a + b') + [o];
      assert b == b' + [o];
      SummaryAppend(a, b');
      SummarySnoc(a + b', o);
      SummarySnoc(b', o);
      if Summary(a).Rows? && Summary(b').Rows? && o.Kept? {
        var x, y := Summary(a).rows, Summary(b').rows;
        assert x + (y + [o.row]) == (x + y) + [o.row];
      }
    }
  }

  /** The outcome of every data line. */
  function Outcomes(lines: seq<string>, cols: Columns, parseNumber: string -> Option<real>): seq<LineOutcome>
  {
    seq(|lines|, k requires 0 <= k < |lines| => ParseLine(lines[k], cols, parseNumber))
  }

  lemma OutcomesOf(lines: seq<string>, cols: Columns, parseNumber: string -> Option<real>, outs: seq<LineOutcome>)
    requires |outs| == |lines|
    requires forall k :: 0 <= k < |outs| ==> outs[k] == ParseLine(lines[k], cols, parseNumber)
    ensures outs == Outcomes(lines, cols, parseNumber)
  {
  }

  /** One data line that throws makes the whole parse abort. */
  lemma ThrowAborts(lines: seq<string>, cols: Columns, parseNumber: string -> Option<real>, k: nat)
    requires k < |lines| && ParseLine(lines[k], cols, parseNumber) == Threw
    ensures Summary(Outcomes(lines, cols, parseNumber)) == Aborted
  {
    var all := Outcomes(lines, cols, parseNumber);
    assert all[k] == Threw;
    SummaryAborted(all);
  }

  /** The lines of the upload: the trimmed text split on newlines. */
  function Lines(text: string): (lines: seq<string>)
    ensures |lines| >= 1
  {
    Split(Trim(text), '\n')
  }

  function HeaderColumns(text: string): Columns {
    FindColumns(Split(Lines(text)[0], ','))
  }

  /** The loop body of `parseCSV` for one data line. */
  method ParseDataLine(line: string, cols: Columns, parseNumber: string -> Option<real>) returns (outcome: LineOutcome)
    ensures outcome == ParseLine(line, cols, parseNumber)
  {
    var row := ParseCsvLine(line);
    outcome := ParseFields(row, cols, parseNumber);
  }

  /** `parseCSV`: the header line gives the column indexes; every later line
      is split, then kept, skipped or makes the whole parse throw. */
  /** The loop of `parseCSV` over the data lines. */
  method ParseDataLines(lines: seq<string>, cols: Columns, parseNumber: string -> Option<real>) returns (result: CsvParse)
    ensures result == Summary(Outcomes(lines, cols, parseNumber))
  {
    ghost var outs: seq<LineOutcome> := [];
    var rows: seq<ParsedRow> := [];
    for i := 0 to |lines|
      invariant |outs| == i
      invariant forall k :: 0 <= k < i ==> outs[k] == ParseLine(lines[k], cols, parseNumber)
      invariant Summary(outs) == Rows(rows)
    {
      var outcome := ParseDataLine(lines[i], cols, parseNumber);
      SummarySnoc(outs, outcome);
      outs := outs + [outcome];
      assert forall k :: 0 <= k <= i ==> outs[k] == ParseLine(lines[k], cols, parseNumber);
      if outcome == Threw {
        ThrowAborts(lines, cols, parseNumber, i);
        return Aborted;
      }
      if outcome.Kept? {
        rows := rows + [outcome.row];
      }
    }
    OutcomesOf(lines, cols, parseNumber, outs);
    result := Rows(rows);
  }

  method ParseCsv(text: string, parseNumber: string -> Option<real>) returns (result: CsvParse)
    ensures result == Summary(Outcomes(Lines(text)[1..], HeaderColumns(text), parseNumber))
  {
    var lines := Split(Trim(text), '\n');
    var headers := Split(lines[0], ',');
    var cols := FindColumns(headers);
    result := ParseDataLines(lines[1..], cols, parseNumber);
  }

  // ---- dates ----

  lemma {:induction false} SplitNoSep(s: string, sep: char)
    requires sep !in s
    ensures Split(s, sep) == [s]
    decreases |s|
  {
    if s != [] {
      SplitNoSep(s[..|s| - 1], sep);
      assert s[..|s| - 1] + [s[|s| - 1]] == s;
    }
  }

  /** Splitting at a separator splits the two sides independently. */
  lemma {:induction false} SplitAt(a: string, b: string, sep: char)
    ensures Split(a + [sep] + b, sep) == Split(a, sep) + Split(b, sep)
    decreases |b|
  {
    if b == [] {
      SplitSnocSep(a, sep);
      assert a + [sep] + b == a + [sep];
    } else {
      var b' := b[..|b| - 1];
      var c := b[|b| - 1];
      var s' := a + [sep] + b';
      assert a + [sep] + b == s' + [c];
      assert b == b' + [c];
      SplitAt(a, b', sep);
      if c == sep {
        SplitSnocSep(s', sep);
        SplitSnocSep(b', sep);
      } else {
        SplitSnocOther(s', c, sep);
        SplitSnocOther(b', c, sep);
        ExtendLast(Split(a, sep), Split(b', sep), c);
      }
    }
  }

  /** A date cell `M/D/Y` of decimal digits becomes `Y'-MM-DD`: the year
      gains 2000 when below 100, and month and day are padded to two digits. */
  lemma DateNormalised(m: string, d: string, y: string)
    requires AllDigits(m) && AllDigits(d) && AllDigits(y) && y != []
    ensures var yv := DigitsValue(y); var parts := Split(m + "/" + d + "/" + y, '/');
      parts == [m, d, y] && |parts| == 3 && NormaliseDate(parts)
        == IntToString(if yv < 100 then yv + 2000 else yv) + "-" + PadStart2(m) + "-" + PadStart2(d)
  {
    assert '/' !in m && '/' !in d && '/' !in y by {
      assert forall c :: c in m ==> IsDigit(c);
      assert forall c :: c in d ==> IsDigit(c);
      assert forall c :: c in y ==> IsDigit(c);
    }
    DateParts(m, d, y);
    ParseIntDigits(y);
  }

  lemma DateParts(m: string, d: string, y: string)
    requires '/' !in m && '/' !in d && '/' !in y
    ensures Split(m + "/" + d + "/" + y, '/') == [m, d, y]
  {
    SplitNoSep(m, '/');
    SplitNoSep(d, '/');
    SplitNoSep(y, '/');
    assert m + "/" + d + "/" + y == (m + ['/'] + d) + ['/'] + y;
    SplitAt(m + ['/'] + d, y, '/');
    SplitAt(m, d, '/');
  }

  // ---- preview counts ----

  /** `totalTickets`: one ticket per person per row. */
  function TotalTickets(rows: seq<ParsedRow>): nat {
    if rows == [] then 0 else TotalTickets(rows[..|rows| - 1]) + |rows[|rows| - 1].people|
  }

  function AllPeople(rows: seq<ParsedRow>): seq<string> {
    if rows == [] then [] else AllPeople(rows[..|rows| - 1]) + rows[|rows| - 1].people
  }

  /** `uniquePeople`: the distinct names, in order of first appearance. */
  function UniquePeople(rows: seq<ParsedRow>): (r: seq<string>)
    ensures NoDuplicates(r)
    ensures |r| <= TotalTickets(rows)
    ensures forall p :: p in r <==> exists k :: 0 <= k < |rows| && p in rows[k].people
  {
    DedupSpec(AllPeople(rows));
    AllPeopleMembers(rows);
    AllPeopleCount(rows);
    Dedup(AllPeople(rows))
  }

  lemma {:induction false} AllPeopleCount(rows: seq<ParsedRow>)
    ensures |AllPeople(rows)| == TotalTickets(rows)
    decreases |rows|
  {
    if rows != [] {
      AllPeopleCount(rows[..|rows| - 1]);
    }
  }

  lemma {:induction false} AllPeopleMembers(rows: seq<ParsedRow>)
    ensures forall p :: p in AllPeople(rows) <==> exists k :: 0 <= k < |rows| && p in rows[k].people
    decreases |rows|
  {
    if rows != [] {
      var pre := rows[..|rows| - 1];
      var last := rows[|rows| - 1];
      AllPeopleMembers(pre);
      assert AllPeople(rows) == AllPeople(pre) + last.people;
      assert forall k :: 0 <= k < |pre| ==> pre[k] == rows[k];
      forall p | exists k :: 0 <= k < |rows| && p in rows[k].people
        ensures p in AllPeople(rows)
      {
        var k :| 0 <= k < |rows| && p in rows[k].people;
        if k < |pre| {
          assert p in AllPeople(pre);
        }
      }
    }
  }
}
