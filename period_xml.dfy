/** The per-period XML route: the semi-monthly date range of a pay period,
    the employee's tickets inside it, the totals, the distinct DIR numbers
    and projects, the document (whose texts are interpolated unescaped), and
    the upsert that marks the period `ready_for_dir` with the wage. */
module PeriodXml {
  import opened Common
  import opened Domain
  import opened Sorting
  import opened EmployeePeriods
  import TicketXml

  // ---- the calendar ----

  /** The Gregorian leap-year rule. */
  predicate LeapYear(y: int) {
    (y % 4 == 0 && y % 100 != 0) || y % 400 == 0
  }

  /** Days in month `m` (zero-based) of year `y`. */
  function MonthLength(y: int, m: int): (d: int)
    requires 0 <= m < 12
    ensures 28 <= d <= 31
  {
    if m == 1 then (if LeapYear(y) then 29 else 28)
    else if m == 3 || m == 5 || m == 8 || m == 10 then 30
    else 31
  }

  /** Days in the first `n` months of year `y`. */
  function DaysBefore(y: int, n: nat): int
    requires n <= 12
  {
    if n == 0 then 0 else DaysBefore(y, n - 1) + MonthLength(y, n - 1)
  }

  /** The month lengths add up to the Gregorian year: 366 days in a leap
      year, 365 otherwise. */
  lemma YearLength(y: int)
    ensures DaysBefore(y, 12) == if LeapYear(y) then 366 else 365
  {
    assert DaysBefore(y, 1) == 31;
    assert DaysBefore(y, 2) == 31 + MonthLength(y, 1);
    assert DaysBefore(y, 3) == 62 + MonthLength(y, 1);
    assert DaysBefore(y, 4) == 92 + MonthLength(y, 1);
    assert DaysBefore(y, 5) == 123 + MonthLength(y, 1);
    assert DaysBefore(y, 6) == 153 + MonthLength(y, 1);
    assert DaysBefore(y, 7) == 184 + MonthLength(y, 1);
    assert DaysBefore(y, 8) == 215 + MonthLength(y, 1);
    assert DaysBefore(y, 9) == 245 + MonthLength(y, 1);
    assert DaysBefore(y, 10) == 276 + MonthLength(y, 1);
    assert DaysBefore(y, 11) == 306 + MonthLength(y, 1);
    assert DaysBefore(y, 12) == 337 + MonthLength(y, 1);
  }

  /** The year the `Date` constructor reads: two-digit years are taken as
      19xx. */
  function DateYear(y: int): int {
    if 0 <= y <= 99 then 1900 + y else y
  }

  /** `new Date(year, month + 1, 0).getDate()`: day zero of the next month
      is the last day of month `month`, after the constructor has carried a
      month outside 0..11 into the year. */
  function LastDay(year: int, month: int): (d: int)
    ensures 28 <= d <= 31
  {
    MonthLength(DateYear(year) + month / 12, month % 12)
  }

  /** First day of the period: the 1st for period 1, the 16th for any other. */
  function StartDay(period: int): int {
    if period == 1 then 1 else 16
  }

  /** Last day of the period: the 15th, or the last day of the month. */
  function EndDay(year: int, month: int, period: int): int {
    if period == 1 then 15 else LastDay(year, month)
  }

  /** Period 1 covers days 1 to 15; the other period covers the 16th to the
      month's last day, which is 28 to 31 and, for February of a four-digit
      year, 29 exactly in Gregorian leap years. */
  lemma PeriodDays(year: int, month: int, period: int)
    ensures period == 1 ==> StartDay(period) == 1 && EndDay(year, month, period) == 15
    ensures period != 1 ==> StartDay(period) == 16 && 28 <= EndDay(year, month, period) <= 31
    ensures period != 1 && 100 <= year && 0 <= month < 12 ==> EndDay(year, month, period) == MonthLength(year, month)
    ensures period != 1 && 100 <= year && month == 1 ==> (EndDay(year, month, period) == 29 <==> LeapYear(year))
    ensures 1 <= StartDay(period) < EndDay(year, month, period) <= 31
  {
  }

  // ---- the date strings ----

  /** `${year}-${String(month + 1).padStart(2, '0')}-${String(day).padStart(2, '0')}` */
  function DateText(year: int, month: int, day: int): string {
    MonthPrefix(year, month) + PadStart2(IntToString(day))
  }

  /** The `${year}-${month}-` part both dates of a period share. */
  function MonthPrefix(year: int, month: int): string {
    IntToString(year) + "-" + PadStart2(IntToString(month + 1)) + "-"
  }

  /** Two decimal digits of `n`. */
  function TwoDigits(n: nat): (r: string)
    requires n < 100
    ensures |r| == 2 && AllDigits(r)
  {
    [DigitChar(n / 10), DigitChar(n % 10)]
  }

  lemma DigitCharCode(d: nat)
    requires d < 10
    ensures DigitChar(d) as int == '0' as int + d
  {
  }

  lemma PadTwoDigits(n: nat)
    requires n < 100
    ensures PadStart2(IntToString(n)) == TwoDigits(n)
  {
    if n < 10 {
      assert IntToString(n) == [DigitChar(n)];
    } else {
      assert NatToString(n / 10) == [DigitChar(n / 10)];
      assert IntToString(n) == [DigitChar(n / 10)] + [DigitChar(n % 10)];
    }
  }

  /** For a four-digit year, a month in 0..11 and a day in 1..31 the text is
      `YYYY-MM-DD`, with the month one-based. */
  lemma DateTextFormat(year: int, month: int, day: int)
    requires 1000 <= year < 10000 && 0 <= month < 12 && 1 <= day <= 31
    ensures DateText(year, month, day) == NatToString(year) + "-" + TwoDigits(month + 1) + "-" + TwoDigits(day)
    ensures |DateText(year, month, day)| == 10
  {
    PadTwoDigits(month + 1);
    PadTwoDigits(day);
  }

  /** Two-digit texts compare as their numbers. */
  lemma TwoDigitsOrder(a: nat, b: nat)
    requires a <= b < 100
    ensures StrLe(TwoDigits(a), TwoDigits(b))
  {
    DigitCharCode(a / 10);
    DigitCharCode(b / 10);
    DigitCharCode(a % 10);
    DigitCharCode(b % 10);
    var ta, tb := TwoDigits(a), TwoDigits(b);
    if ta[0] == tb[0] {
      assert ta[1..] == [ta[1]] && tb[1..] == [tb[1]];
      assert StrLe([ta[1]][1..], [tb[1]][1..]);
    }
  }

  function StartDate(year: int, month: int, period: int): string {
    DateText(year, month, StartDay(period))
  }

  function EndDate(year: int, month: int, period: int): string {
    DateText(year, month, EndDay(year, month, period))
  }

  /** The range is never empty: the start date sorts before the end date, as
      both share the year and month and differ in a two-digit day. */
  lemma RangeOrdered(year: int, month: int, period: int)
    ensures StrLe(StartDate(year, month, period), EndDate(year, month, period))
  {
    var s, e := StartDay(period), EndDay(year, month, period);
    PeriodDays(year, month, period);
    PadTwoDigits(s);
    PadTwoDigits(e);
    TwoDigitsOrder(s, e);
    StrLePrefix(MonthPrefix(year, month), TwoDigits(s), TwoDigits(e));
  }

  // ---- the tickets of the period ----

  /** The query's filter: the employee's tickets from `startDate` to
      `endDate` inclusive. */
  predicate InPeriod(t: Ticket, userId: string, startDate: string, endDate: string) {
    t.userId == userId && StrLe(startDate, t.dateWorked) && StrLe(t.dateWorked, endDate)
  }

  /** The rows of `tickets` the filter keeps, in table order. */
  function Select(tickets: seq<Ticket>, userId: string, startDate: string, endDate: string): (r: seq<Ticket>)
    ensures forall t :: t in r <==> t in tickets && InPeriod(t, userId, startDate, endDate)
    ensures forall t :: multiset(r)[t] == if InPeriod(t, userId, startDate, endDate) then multiset(tickets)[t] else 0
  {
    if tickets == [] then []
    else
      var p, x := tickets[..|tickets| - 1], tickets[|tickets| - 1];
      assert tickets == p + [x];
      var prev := Select(p, userId, startDate, endDate);
      if InPeriod(x, userId, startDate, endDate) then prev + [x] else prev
  }

  /** The tickets of the period, ascending by date. */
  function PeriodTickets(tickets: seq<Ticket>, userId: string, startDate: string, endDate: string): seq<Ticket> {
    SortBy(Select(tickets, userId, startDate, endDate), DateLe)
  }

  /** Exactly the employee's tickets inside the range are used, each as
      often as the table holds it, in ascending date order. */
  lemma PeriodTicketsSpec(tickets: seq<Ticket>, userId: string, startDate: string, endDate: string)
    ensures var r := PeriodTickets(tickets, userId, startDate, endDate);
      && (forall t :: t in r <==> t in tickets && InPeriod(t, userId, startDate, endDate))
      && (forall t :: multiset(r)[t] == if InPeriod(t, userId, startDate, endDate) then multiset(tickets)[t] else 0)
      && (forall i, j :: 0 <= i < j < |r| ==> StrLe(r[i].dateWorked, r[j].dateWorked))
  {
    var s := Select(tickets, userId, startDate, endDate);
    var r := SortBy(s, DateLe);
    DateOrder();
    SortBySorted(s, DateLe);
    forall t ensures t in r <==> t in s {
      assert t in r <==> t in multiset(r);
      assert t in s <==> t in multiset(s);
    }
  }

  // ---- totals and distinct values ----

  function DirNumbersOf(tickets: seq<Ticket>): (r: seq<string>)
    ensures |r| == |tickets| && forall i :: 0 <= i < |r| ==> r[i] == tickets[i].dirNumber
  {
    seq(|tickets|, i requires 0 <= i < |tickets| => tickets[i].dirNumber)
  }

  function TitlesOf(tickets: seq<Ticket>): (r: seq<string>)
    ensures |r| == |tickets| && forall i :: 0 <= i < |r| ==> r[i] == tickets[i].projectTitle
  {
    seq(|tickets|, i requires 0 <= i < |tickets| => tickets[i].projectTitle)
  }

  /** `[...new Set(tickets.map(t => t.dir_number))]` and the same for the
      titles: no value twice, exactly the values present, and in order of
      first occurrence. */
  lemma DistinctValues(tickets: seq<Ticket>)
    ensures var ds := Dedup(DirNumbersOf(tickets));
      && NoDuplicates(ds)
      && (forall d :: d in ds <==> exists t :: t in tickets && t.dirNumber == d)
      && (forall i, j :: 0 <= i < j < |ds| ==>
            FirstIndex(DirNumbersOf(tickets), ds[i]) < FirstIndex(DirNumbersOf(tickets), ds[j]))
    ensures var ps := Dedup(TitlesOf(tickets));
      && NoDuplicates(ps)
      && (forall p :: p in ps <==> exists t :: t in tickets && t.projectTitle == p)
      && (forall i, j :: 0 <= i < j < |ps| ==>
            FirstIndex(TitlesOf(tickets), ps[i]) < FirstIndex(TitlesOf(tickets), ps[j]))
  {
    DedupSpec(DirNumbersOf(tickets));
    DedupSpec(TitlesOf(tickets));
    var dirs, titles := DirNumbersOf(tickets), TitlesOf(tickets);
    forall d ensures d in dirs <==> exists t :: t in tickets && t.dirNumber == d {
      if d in dirs {
        var i :| 0 <= i < |dirs| && dirs[i] == d;
        assert tickets[i] in tickets;
      }
    }
    forall p ensures p in titles <==> exists t :: t in tickets && t.projectTitle == p {
      if p in titles {
        var i :| 0 <= i < |titles| && titles[i] == p;
        assert tickets[i] in tickets;
      }
    }
  }

  // ---- the document ----

  /** One element line per value. */
  function ElementLines(indent: nat, tag: string, values: seq<string>): (r: seq<string>)
    ensures |r| == |values|
  {
    seq(|values|, i requires 0 <= i < |values| => TicketXml.Element(indent, tag, values[i]))
  }

  /** The `<Ticket>` block of one ticket; `numText` is `String(number)` and
      `fixed2` is `toFixed(2)`. */
  function TicketBlock(t: Ticket, numText: real -> string, fixed2: real -> string): string {
    Join([
      "    <Ticket>",
      TicketXml.Element(6, "Date", t.dateWorked),
      TicketXml.Element(6, "DIRNumber", t.dirNumber),
      TicketXml.Element(6, "Project", t.projectTitle),
      TicketXml.Element(6, "Hours", numText(t.hoursWorked)),
      TicketXml.Element(6, "AdjustedHours", fixed2(t.hoursWorked * 1.25)),
      "    </Ticket>"], "\n")
  }

  function TicketBlocks(tickets: seq<Ticket>, numText: real -> string, fixed2: real -> string): (r: seq<string>)
    ensures |r| == |tickets|
  {
    seq(|tickets|, i requires 0 <= i < |tickets| => TicketBlock(tickets[i], numText, fixed2))
  }

  /** The texts the document interpolates. */
  datatype PeriodFields = PeriodFields(
    periodLabel: string, startDate: string, endDate: string, name: string, email: string,
    totalHours: string, adjustedHours: string, wage: string, totalPay: string,
    projects: seq<string>, dirNumbers: seq<string>, tickets: seq<string>, generatedAt: string)

  function PeriodXmlLines(f: PeriodFields): seq<string> {
    [ "<?xml version=\"1.0\" encoding=\"UTF-8\"?>",
      "<DIRSubmission>",
      "  <PayPeriod>",
      TicketXml.Element(4, "Label", f.periodLabel),
      TicketXml.Element(4, "StartDate", f.startDate),
      TicketXml.Element(4, "EndDate", f.endDate),
      "  </PayPeriod>",
      "  <Employee>",
      TicketXml.Element(4, "Name", f.name),
      TicketXml.Element(4, "Email", f.email),
      "  </Employee>",
      "  <WorkSummary>",
      TicketXml.Element(4, "TotalHours", f.totalHours),
      TicketXml.Element(4, "AdjustedHours", f.adjustedHours),
      TicketXml.Element(4, "HourlyWage", f.wage),
      TicketXml.Element(4, "TotalPay", f.totalPay),
      "  </WorkSummary>",
      "  <Projects>",
      Join(f.projects, "\n"),
      "  </Projects>",
      "  <DIRNumbers>",
      Join(f.dirNumbers, "\n"),
      "  </DIRNumbers>",
      "  <TicketDetails>",
      Join(f.tickets, "\n"),
      "  </TicketDetails>",
      TicketXml.Element(2, "GeneratedAt", f.generatedAt),
      "</DIRSubmission>" ]
  }

  function PeriodXmlDocument(f: PeriodFields): string {
    Join(PeriodXmlLines(f), "\n")
  }

  /** The request body of the route. */
  datatype PeriodRequest = PeriodRequest(periodKey: string, userId: string, wage: real)

  /** The values only the environment knows: the two timestamps the route
      takes, `String(number)` and `toFixed(2)`. */
  datatype Environment = Environment(
    generatedAt: string, updatedAt: string, numText: real -> string, fixed2: real -> string)

  /** The document's texts, computed from the period's tickets (already
      filtered and sorted) and the employee's profile, if it was found. */
  function FieldsOf(cal: Calendar, req: PeriodRequest, employee: Option<Profile>, tickets: seq<Ticket>, env: Environment)
    : PeriodFields
  {
    var p := cal.parseKey(req.periodKey);
    var total := TotalHours(tickets);
    var adjusted := total * 1.25;
    PeriodFields(
      cal.periodLabel(p.year, p.month, p.period),
      StartDate(p.year, p.month, p.period), EndDate(p.year, p.month, p.period),
      TicketXml.OrElse(if employee.Some? then employee.value.fullName else None, "Unknown"),
      if employee.Some? then employee.value.email else "",
      env.fixed2(total), env.fixed2(adjusted), env.fixed2(req.wage), env.fixed2(adjusted * req.wage),
      ElementLines(4, "Project", Dedup(TitlesOf(tickets))),
      ElementLines(4, "DIRNumber", Dedup(DirNumbersOf(tickets))),
      TicketBlocks(tickets, env.numText, env.fixed2),
      env.generatedAt)
  }

  /** An element line determines its text. */
  lemma ElementInjective(indent: nat, tag: string, a: string, b: string)
    requires TicketXml.Element(indent, tag, a) == TicketXml.Element(indent, tag, b)
    ensures a == b
  {
    var open := seq(indent, _ => ' ') + "<" + tag + ">";
    var ea, eb := TicketXml.Element(indent, tag, a), TicketXml.Element(indent, tag, b);
    assert ea == open + a + ("</" + tag + ">");
    assert eb == open + b + ("</" + tag + ">");
    assert a == ea[|open|..|open| + |a|];
    assert b == eb[|open|..|open| + |b|];
  }

  /** A list of element lines over values without duplicates holds one line
      per value and no line twice. */
  lemma ElementLinesOnce(indent: nat, tag: string, values: seq<string>)
    requires NoDuplicates(values)
    ensures var r := ElementLines(indent, tag, values);
      && (forall v :: v in values <==> TicketXml.Element(indent, tag, v) in r)
      && NoDuplicates(r)
  {
    var r := ElementLines(indent, tag, values);
    forall v | v in values ensures TicketXml.Element(indent, tag, v) in r {
      var i :| 0 <= i < |values| && values[i] == v;
      assert r[i] == TicketXml.Element(indent, tag, v);
    }
    forall v | TicketXml.Element(indent, tag, v) in r ensures v in values {
      var i :| 0 <= i < |r| && r[i] == TicketXml.Element(indent, tag, v);
      ElementInjective(indent, tag, values[i], v);
    }
    forall i, j | 0 <= i < j < |r| ensures r[i] != r[j] {
      if r[i] == r[j] {
        ElementInjective(indent, tag, values[i], values[j]);
      }
    }
  }

  /** The document has one `<Project>` line per distinct title and one
      `<DIRNumber>` line per distinct DIR number, and one `<Ticket>` block
      per ticket, the i-th block being that of the i-th ticket. */
  lemma PeriodElements(cal: Calendar, req: PeriodRequest, employee: Option<Profile>, tickets: seq<Ticket>, env: Environment)
    ensures var f := FieldsOf(cal, req, employee, tickets, env);
      && (forall p :: TicketXml.Element(4, "Project", p) in f.projects <==> exists t :: t in tickets && t.projectTitle == p)
      && NoDuplicates(f.projects)
      && (forall d :: TicketXml.Element(4, "DIRNumber", d) in f.dirNumbers <==> exists t :: t in tickets && t.dirNumber == d)
      && NoDuplicates(f.dirNumbers)
      && |f.tickets| == |tickets|
      && (forall i :: 0 <= i < |tickets| ==> f.tickets[i] == TicketBlock(tickets[i], env.numText, env.fixed2))
  {
    DistinctValues(tickets);
    ElementLinesOnce(4, "Project", Dedup(TitlesOf(tickets)));
    ElementLinesOnce(4, "DIRNumber", Dedup(DirNumbersOf(tickets)));
  }

  /** The POST handler: the admin guard, the period's range and tickets, the
      document, and the `ready_for_dir` upsert with the wage. The upsert's
      outcome is not inspected: when it fails (`upsertOk` false) the
      document is returned just the same. `employee` is the profile lookup
      and `allTickets` the `tickets` table. */
  method GeneratePeriodXml(
    table: PeriodTable, user: Option<string>, role: Option<Role>, req: PeriodRequest,
    cal: Calendar, employee: Option<Profile>, allTickets: seq<Ticket>, env: Environment,
    freshId: string, upsertOk: bool) returns (r: Reply<string>)
    modifies table
    ensures AdminGuard(user, role).Some? ==>
      r == Fail(AdminGuard(user, role).value.0, AdminGuard(user, role).value.1) && table.rows == old(table.rows)
    ensures AdminGuard(user, role).None? ==>
      var p := cal.parseKey(req.periodKey);
      var tickets := PeriodTickets(allTickets, req.userId, StartDate(p.year, p.month, p.period), EndDate(p.year, p.month, p.period));
      && r == Ok(PeriodXmlDocument(FieldsOf(cal, req, employee, tickets, env)))
      && table.rows == if upsertOk then
           Upserted(old(table.rows), KeyOf(cal, req.periodKey, req.userId),
                    PeriodWrite(ReadyForDirStatus, Some(req.wage), env.updatedAt), freshId)
         else old(table.rows)
  {
    var guard := AdminGuard(user, role);
    if guard.Some? {
      return Fail(guard.value.0, guard.value.1);
    }
    var p := cal.parseKey(req.periodKey);
    var startDate := StartDate(p.year, p.month, p.period);
    var endDate := EndDate(p.year, p.month, p.period);
    var tickets := PeriodTickets(allTickets, req.userId, startDate, endDate);
    var xml := PeriodXmlDocument(FieldsOf(cal, req, employee, tickets, env));
    if upsertOk {
      table.Upsert(KeyOf(cal, req.periodKey, req.userId),
                   PeriodWrite(ReadyForDirStatus, Some(req.wage), env.updatedAt), freshId);
    }
    r := Ok(xml);
  }

  /** After a successful generation the period's record exists once, is
      `ready_for_dir` and holds the wage; generating again with the same
      wage changes only `updated_at`. */
  lemma GenerationRecord(
    rows: map<PeriodRecordKey, PeriodRecord>, key: PeriodRecordKey, wage: real,
    now: string, later: string, id1: string, id2: string)
    ensures var once := Upserted(rows, key, PeriodWrite(ReadyForDirStatus, Some(wage), now), id1);
      && key in once && once[key].status == ReadyForDirStatus && once[key].hourlyWage == Some(wage)
      && Upserted(once, key, PeriodWrite(ReadyForDirStatus, Some(wage), later), id2)
         == once[key := once[key].(updatedAt := later)]
  {
    UpsertRepeated(rows, key, PeriodWrite(ReadyForDirStatus, Some(wage), now), later, id1, id2);
  }
}
