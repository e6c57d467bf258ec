/** The admin ticket list: each ticket with its employee's label, its
    adjusted pay, and the status of the employee's pay period that holds it. */
module TicketsPage {
  import opened Common
  import opened Domain
  import opened Sorting
  import PeriodsPage

  /** The profile columns the list joins to each ticket. */
  datatype ListProfile = ListProfile(fullName: Option<string>, email: Option<string>, salary: Option<real>)

  /** A `tickets` row with its joined profile (`None` when the join found
      none). */
  datatype ListTicket = ListTicket(
    id: string, userId: string, dirNumber: string, projectTitle: string, dateWorked: string,
    hoursWorked: real, profile: Option<ListProfile>)

  /** What a table row shows. */
  datatype TicketLine = TicketLine(
    employee: string, dirNumber: string, projectTitle: string, dateWorked: string,
    hoursWorked: real, payText: string, periodStatus: string)

  datatype PageView = Redirect(to: string) | Lines(lines: seq<TicketLine>)

  // ---- the status lookup ----

  /** The lookup after `set(key, status)` for every row, in order. */
  function StatusNames(rows: seq<PeriodRow>): map<string, string> {
    if rows == [] then map[]
    else
      var last := rows[|rows| - 1];
      StatusNames(rows[..|rows| - 1])[PeriodsPage.RowKey(last) := last.record.status]
  }

  method BuildStatusNames(rows: seq<PeriodRow>) returns (m: map<string, string>)
    ensures m == StatusNames(rows)
  {
    m := map[];
    for i := 0 to |rows|
      invariant m == StatusNames(rows[..i])
    {
      assert rows[..i + 1][..i] == rows[..i];
      var ep := rows[i];
      m := m[StatusKey(ep.key.userId, ep.key.year, ep.key.month, ep.key.period) := ep.record.status];
    }
    assert rows[..|rows|] == rows;
  }

  /** The status-only lookup has the keys of the full lookup of the periods
      page and the statuses of its entries. */
  lemma {:induction false} StatusNamesAgree(rows: seq<PeriodRow>, k: string)
    ensures k in StatusNames(rows) <==> k in PeriodsPage.StatusMapOf(rows)
    ensures k in StatusNames(rows) ==> StatusNames(rows)[k] == PeriodsPage.StatusMapOf(rows)[k].status
    decreases |rows|
  {
    if rows != [] {
      StatusNamesAgree(rows[..|rows| - 1], k);
    }
  }

  /** A key is in the lookup exactly when a row has it, and it holds the
      status of the last such row. */
  lemma StatusNamesLastWins(rows: seq<PeriodRow>, k: string)
    ensures k in StatusNames(rows) <==> k in PeriodsPage.RowKeys(rows)
    ensures k in StatusNames(rows) ==> StatusNames(rows)[k] == rows[LastIndex(PeriodsPage.RowKeys(rows), k)].record.status
  {
    StatusNamesAgree(rows, k);
    PeriodsPage.StatusMapLastWins(rows, k);
  }

  /** `getTicketPeriodStatus`: the status under the ticket's own key, built
      from its user and the pay period of its date, else `pending`. */
  function TicketPeriodStatus(m: map<string, string>, t: ListTicket, cal: Calendar): string {
    var pp := cal.payPeriodOf(t.dateWorked);
    var key := StatusKey(t.userId, pp.year, pp.month, pp.period);
    StatusOrPending(if key in m then Some(m[key]) else None)
  }

  /** The status shown for a ticket is that of the last row with the
      ticket's key if its status is non-empty, and `pending` otherwise. */
  lemma TicketStatusShown(rows: seq<PeriodRow>, t: ListTicket, cal: Calendar)
    ensures var pp := cal.payPeriodOf(t.dateWorked);
      var key := StatusKey(t.userId, pp.year, pp.month, pp.period);
      var s := TicketPeriodStatus(StatusNames(rows), t, cal);
      && (key !in PeriodsPage.RowKeys(rows) ==> s == PendingStatus)
      && (key in PeriodsPage.RowKeys(rows) ==>
            var st := rows[LastIndex(PeriodsPage.RowKeys(rows), key)].record.status;
            s == if st != "" then st else PendingStatus)
  {
    var pp := cal.payPeriodOf(t.dateWorked);
    StatusNamesLastWins(rows, StatusKey(t.userId, pp.year, pp.month, pp.period));
  }

  // ---- the columns ----

  /** `ticket.profile?.salary || null`: a missing or zero salary becomes
      null. */
  function SalaryArgument(t: ListTicket): (r: Option<real>)
    ensures r.None? <==> t.profile.None? || t.profile.value.salary.None? || t.profile.value.salary.value == 0.0
    ensures r.Some? ==> r == t.profile.value.salary
  {
    if t.profile.Some? && t.profile.value.salary.Some? && t.profile.value.salary.value != 0.0 then t.profile.value.salary
    else None
  }

  /** A null pay shows `Pending Salary`, any other `$` and two decimals. */
  function PayText(pay: Option<real>, fixed2: real -> string): (r: string)
    ensures pay.None? ==> r == "Pending Salary"
    ensures pay.Some? ==> r == "$" + fixed2(pay.value)
  {
    if pay.None? then "Pending Salary" else "$" + fixed2(pay.value)
  }

  /** `Pending Salary` is shown exactly for a null pay; a number is always
      shown behind `$`. */
  lemma PayTextPending(pay: Option<real>, fixed2: real -> string)
    ensures PayText(pay, fixed2) == "Pending Salary" <==> pay.None?
    ensures pay.Some? ==> PayText(pay, fixed2)[0] == '$'
  {
    if pay.Some? {
      assert PayText(pay, fixed2)[0] == '$' != "Pending Salary"[0];
    }
  }

  /** `full_name || email || 'Unknown'`. */
  function EmployeeLabel(p: Option<ListProfile>): (r: string)
    ensures r != ""
    ensures p.Some? && p.value.fullName.Some? && p.value.fullName.value != "" ==> r == p.value.fullName.value
    ensures (p.None? || p.value.fullName.None? || p.value.fullName.value == "") ==>
      r == (if p.Some? && p.value.email.Some? && p.value.email.value != "" then p.value.email.value else "Unknown")
  {
    if p.Some? && p.value.fullName.Some? && p.value.fullName.value != "" then p.value.fullName.value
    else if p.Some? && p.value.email.Some? && p.value.email.value != "" then p.value.email.value
    else "Unknown"
  }

  function LineOf(m: map<string, string>, t: ListTicket, cal: Calendar, formula: PayFormula, fixed2: real -> string): TicketLine {
    TicketLine(
      EmployeeLabel(t.profile), t.dirNumber, t.projectTitle, t.dateWorked, t.hoursWorked,
      PayText(formula(t.hoursWorked, SalaryArgument(t)), fixed2), TicketPeriodStatus(m, t, cal))
  }

  /** `tickets.map(...)`: one line per ticket, in the order fetched. */
  function LinesOf(m: map<string, string>, tickets: seq<ListTicket>, cal: Calendar, formula: PayFormula, fixed2: real -> string)
    : (r: seq<TicketLine>)
    ensures |r| == |tickets|
    ensures forall i :: 0 <= i < |tickets| ==> r[i] == LineOf(m, tickets[i], cal, formula, fixed2)
  {
    seq(|tickets|, i requires 0 <= i < |tickets| => LineOf(m, tickets[i], cal, formula, fixed2))
  }

  /** Line `i` of the page shows ticket `i`: its own columns, the label of
      its profile (never empty), `Pending Salary` exactly when the pay
      formula gives null, and the status of the last period row under the
      ticket's own key, `pending` when there is none or it is empty. */
  lemma PageLine(rows: seq<PeriodRow>, tickets: seq<ListTicket>, cal: Calendar, formula: PayFormula, fixed2: real -> string, i: nat)
    requires i < |tickets|
    ensures var t := tickets[i];
      var l := LinesOf(StatusNames(rows), tickets, cal, formula, fixed2)[i];
      var pp := cal.payPeriodOf(t.dateWorked);
      var key := StatusKey(t.userId, pp.year, pp.month, pp.period);
      && l.dirNumber == t.dirNumber && l.projectTitle == t.projectTitle
      && l.dateWorked == t.dateWorked && l.hoursWorked == t.hoursWorked
      && l.employee != ""
      && (l.payText == "Pending Salary" <==> formula(t.hoursWorked, SalaryArgument(t)).None?)
      && (key !in PeriodsPage.RowKeys(rows) ==> l.periodStatus == PendingStatus)
      && (key in PeriodsPage.RowKeys(rows) ==>
            var st := rows[LastIndex(PeriodsPage.RowKeys(rows), key)].record.status;
            l.periodStatus == if st != "" then st else PendingStatus)
  {
    var t := tickets[i];
    PayTextPending(formula(t.hoursWorked, SalaryArgument(t)), fixed2);
    TicketStatusShown(rows, t, cal);
  }

  /** The page: `/login` without a user, `/dashboard` for a non-admin,
      otherwise the lines. */
  method AdminTicketsPage(
    user: Option<string>, role: Option<Role>, tickets: seq<ListTicket>, rows: seq<PeriodRow>,
    cal: Calendar, formula: PayFormula, fixed2: real -> string) returns (view: PageView)
    ensures PageGuard(user, role).Some? ==> view == Redirect(PageGuard(user, role).value)
    ensures PageGuard(user, role).None? ==> view == Lines(LinesOf(StatusNames(rows), tickets, cal, formula, fixed2))
  {
    var redirect := PageGuard(user, role);
    if redirect.Some? {
      return Redirect(redirect.value);
    }
    var m := BuildStatusNames(rows);
    view := Lines(LinesOf(m, tickets, cal, formula, fixed2));
  }
}
