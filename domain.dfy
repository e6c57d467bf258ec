/** The records the application stores and passes around, the pay-period
    helpers it imports but does not define, and the guards every admin
    route and admin page starts with. */
module Domain {
  import opened Common
  import opened Sorting

  datatype Role = Admin | User

  /** A ticket's own review status. */
  datatype TicketStatus = Pending | InReview | Approved | Rejected
  {
    /** The string stored in the `status` column. */
    function Name(): string {
      match this
      case Pending => "pending"
      case InReview => "in_review"
      case Approved => "approved"
      case Rejected => "rejected"
    }
  }

  /** A row of `profiles`; `salary` is the yearly salary, `None` while unset. */
  datatype Profile = Profile(id: string, email: string, fullName: Option<string>, role: Role, salary: Option<real>)

  /** A row of `tickets`. */
  datatype Ticket = Ticket(
    id: string, userId: string, dirNumber: string, projectTitle: string,
    dateWorked: string, hoursWorked: real, status: TicketStatus)

  /** Tickets ordered by the date they were worked. */
  predicate DateLe(a: Ticket, b: Ticket) {
    StrLe(a.dateWorked, b.dateWorked)
  }

  lemma DateOrder()
    ensures Total(DateLe) && Transitive(DateLe)
  {
    forall a: Ticket, b: Ticket ensures DateLe(a, b) || DateLe(b, a) {
      StrLeTotal(a.dateWorked, b.dateWorked);
    }
    forall a: Ticket, b: Ticket, c: Ticket | DateLe(a, b) && DateLe(b, c) ensures DateLe(a, c) {
      StrLeTrans(a.dateWorked, b.dateWorked, c.dateWorked);
    }
  }

  /** The hours of a list of tickets, summed left to right. */
  function TotalHours(tickets: seq<Ticket>): real {
    if tickets == [] then 0.0 else TotalHours(tickets[..|tickets| - 1]) + tickets[|tickets| - 1].hoursWorked
  }

  /** The total of a concatenation is the sum of the totals. */
  lemma {:induction false} TotalHoursAppend(a: seq<Ticket>, b: seq<Ticket>)
    ensures TotalHours(a + b) == TotalHours(a) + TotalHours(b)
    decreases |b|
  {
    if b != [] {
      assert (a + b)[..|a + b| - 1] == a + b[..|b| - 1];
      assert (a + b)[|a + b| - 1] == b[|b| - 1];
      TotalHoursAppend(a, b[..|b| - 1]);
    } else {
      assert a + b == a;
    }
  }

  /** Status names of an employee's pay period; the column itself holds any string. */
  const PendingStatus := "pending"
  const AwaitingPayStatus := "awaiting_pay"
  const ReadyForDirStatus := "ready_for_dir"

  /** The conflict target of the `employee_periods` upserts. */
  datatype PeriodRecordKey = PeriodRecordKey(userId: string, year: int, month: int, period: int)

  /** The non-key columns of an `employee_periods` row. */
  datatype PeriodRecord = PeriodRecord(id: string, status: string, hourlyWage: Option<real>, updatedAt: string)

  /** A row of `employee_periods` as a `select('*')` returns it. */
  datatype PeriodRow = PeriodRow(key: PeriodRecordKey, record: PeriodRecord)

  /** What `getPayPeriod` returns (month zero-based). */
  datatype PayPeriod = PayPeriod(year: int, month: int, period: int, labelText: string)

  /** What `parsePayPeriodKey` returns. */
  datatype PeriodId = PeriodId(year: int, month: int, period: int)

  /** The pay-period helpers the application imports from its types module,
      which does not define them; they are parameters of the model, and
      everything proved about their callers holds whatever they compute,
      unless a lemma states an assumption about them. */
  datatype Calendar = Calendar(
    payPeriodOf: string -> PayPeriod,        // getPayPeriod(new Date(dateWorked))
    periodKey: (int, int, int) -> string,    // getPayPeriodKey(year, month, period)
    parseKey: string -> PeriodId,            // parsePayPeriodKey(key)
    periodLabel: (int, int, int) -> string)  // formatPayPeriodLabel(year, month, period)

  /** `calculateAdjustedPay(hours, salary)`, equally imported and undefined. */
  type PayFormula = (real, Option<real>) -> Option<real>

  /** The lookup key `${user_id}-${year}-${month}-${period}` both admin pages
      build for `employee_periods` rows and for tickets. */
  function StatusKey(userId: string, year: int, month: int, period: int): string {
    userId + "-" + IntToString(year) + "-" + IntToString(month) + "-" + IntToString(period)
  }

  /** `x || 'pending'` on a status string. */
  function StatusOrPending(s: Option<string>): (r: string)
    ensures r != ""
    ensures s.Some? && s.value != "" ==> r == s.value
    ensures s.None? || s.value == "" ==> r == PendingStatus
  {
    if s.Some? && s.value != "" then s.value else PendingStatus
  }

  /** A route's answer: 200 with a body, or an error status and message. */
  datatype Reply<T> = Ok(body: T) | Fail(status: int, message: string)

  /** The guard every admin API route opens with: no session user gives 401,
      a profile whose role is not `admin` (or no profile) gives 403. */
  function AdminGuard(user: Option<string>, role: Option<Role>): (r: Option<(int, string)>)
    ensures r == None <==> user.Some? && role == Some(Admin)
    ensures user.None? ==> r == Some((401, "Unauthorized"))
    ensures user.Some? && role != Some(Admin) ==> r == Some((403, "Forbidden"))
  {
    if user.None? then Some((401, "Unauthorized"))
    else if role != Some(Admin) then Some((403, "Forbidden"))
    else None
  }

  /** The redirect every admin page opens with: `/login` without a user,
      `/dashboard` for a user who is not an admin. */
  function PageGuard(user: Option<string>, role: Option<Role>): (redirect: Option<string>)
    ensures redirect == None <==> user.Some? && role == Some(Admin)
    ensures user.None? ==> redirect == Some("/login")
    ensures user.Some? && role != Some(Admin) ==> redirect == Some("/dashboard")
  {
    if user.None? then Some("/login")
    else if role != Some(Admin) then Some("/dashboard")
    else None
  }
}
