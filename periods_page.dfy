/** The admin pay-periods page: the status lookup built from the
    `employee_periods` rows, the grouping of tickets by pay period and by
    employee within it, each group's totals and status, and the three sort
    orders. */
module PeriodsPage {
  import opened Common
  import opened Domain
  import opened Sorting

  // ---- the status lookup ----

  /** What the lookup keeps of an `employee_periods` row. */
  datatype StatusEntry = StatusEntry(status: string, id: string, hourlyWage: Option<real>)

  function RowKey(row: PeriodRow): string {
    StatusKey(row.key.userId, row.key.year, row.key.month, row.key.period)
  }

  function EntryOf(row: PeriodRow): StatusEntry {
    StatusEntry(row.record.status, row.record.id, row.record.hourlyWage)
  }

  /** The lookup after `set` was called for every row, in order. */
  function StatusMapOf(rows: seq<PeriodRow>): map<string, StatusEntry> {
    if rows == [] then map[]
    else
      var last := rows[|rows| - 1];
      StatusMapOf(rows[..|rows| - 1])[RowKey(last) := EntryOf(last)]
  }

  method BuildStatusMap(rows: seq<PeriodRow>) returns (m: map<string, StatusEntry>)
    ensures m == StatusMapOf(rows)
  {
    m := map[];
    for i := 0 to |rows|
      invariant m == StatusMapOf(rows[..i])
    {
      assert rows[..i + 1][..i] == rows[..i];
      m := m[RowKey(rows[i]) := EntryOf(rows[i])];
    }
    assert rows[..|rows|] == rows;
  }

  /** The keys of the rows, in order. */
  function RowKeys(rows: seq<PeriodRow>): (r: seq<string>)
    ensures |r| == |rows|
  {
    if rows == [] then [] else RowKeys(rows[..|rows| - 1]) + [RowKey(rows[|rows| - 1])]
  }

  /** A key is in the lookup exactly when some row has it, and it holds the
      entry of the last such row. */
  lemma {:induction false} StatusMapLastWins(rows: seq<PeriodRow>, k: string)
    ensures k in StatusMapOf(rows) <==> k in RowKeys(rows)
    ensures k in StatusMapOf(rows) ==> StatusMapOf(rows)[k] == EntryOf(rows[LastIndex(RowKeys(rows), k)])
    decreases |rows|
  {
    if rows != [] {
      var n := |rows| - 1;
      var p := rows[..n];
      StatusMapLastWins(p, k);
      var keys := RowKeys(rows);
      assert keys == RowKeys(p) + [RowKey(rows[n])];
      assert keys[..n] == RowKeys(p);
      if RowKey(rows[n]) != k && k in StatusMapOf(p) {
        assert LastIndex(keys, k) == LastIndex(RowKeys(p), k);
        assert rows[LastIndex(keys, k)] == p[LastIndex(RowKeys(p), k)];
      }
    }
  }

  /** The status shown for a key: the entry's status, `pending` without one. */
  function StatusFor(m: map<string, StatusEntry>, key: string): (s: string)
    ensures key !in m ==> s == PendingStatus
    ensures key in m && m[key].status != "" ==> s == m[key].status
  {
    StatusOrPending(if key in m then Some(m[key].status) else None)
  }

  // ---- grouping by period and employee ----

  /** A ticket with the profile the query joins to it. */
  datatype JoinedTicket = JoinedTicket(ticket: Ticket, profile: Profile)

  /** A period as the first ticket that falls in it describes it. */
  datatype PeriodInfo = PeriodInfo(key: string, labelText: string, year: int, month: int, period: int)

  /** An employee's tickets in one period, with the profile of the first. */
  datatype EmpGroup = EmpGroup(profile: Profile, tickets: seq<Ticket>)

  /** The two insertion-ordered maps of the first loop: the keys in order of
      insertion, and the entries. */
  datatype Grouping = Grouping(
    periodKeys: seq<string>, periods: map<string, PeriodInfo>,
    empKeys: seq<string>, groups: map<string, EmpGroup>)

  function PeriodKeyOf(t: JoinedTicket, cal: Calendar): string {
    var pp := cal.payPeriodOf(t.ticket.dateWorked);
    cal.periodKey(pp.year, pp.month, pp.period)
  }

  /** `${periodKey}-${ticket.user_id}`. */
  function EmpKeyOf(t: JoinedTicket, cal: Calendar): string {
    PeriodKeyOf(t, cal) + "-" + t.ticket.userId
  }

  function InfoOf(t: JoinedTicket, cal: Calendar): PeriodInfo {
    var pp := cal.payPeriodOf(t.ticket.dateWorked);
    PeriodInfo(PeriodKeyOf(t, cal), pp.labelText, pp.year, pp.month, pp.period)
  }

  /** One step of the loop: register the period and the group if new, then
      push the ticket onto its group. */
  function AddTicket(g: Grouping, t: JoinedTicket, cal: Calendar): Grouping {
    var pk := PeriodKeyOf(t, cal);
    var ek := EmpKeyOf(t, cal);
    var g1 := if pk in g.periods then g
      else g.(periodKeys := g.periodKeys + [pk], periods := g.periods[pk := InfoOf(t, cal)]);
    var g2 := if ek in g1.groups then g1
      else g1.(empKeys := g1.empKeys + [ek], groups := g1.groups[ek := EmpGroup(t.profile, [])]);
    g2.(groups := g2.groups[ek := g2.groups[ek].(tickets := g2.groups[ek].tickets + [t.ticket])])
  }

  function GroupingOf(tickets: seq<JoinedTicket>, cal: Calendar): Grouping {
    if tickets == [] then Grouping([], map[], [], map[])
    else AddTicket(GroupingOf(tickets[..|tickets| - 1], cal), tickets[|tickets| - 1], cal)
  }

  method GroupTickets(tickets: seq<JoinedTicket>, cal: Calendar) returns (g: Grouping)
    ensures g == GroupingOf(tickets, cal)
  {
    var periodKeys: seq<string> := [];
    var periods: map<string, PeriodInfo> := map[];
    var empKeys: seq<string> := [];
    var groups: map<string, EmpGroup> := map[];
    for i := 0 to |tickets|
      invariant Grouping(periodKeys, periods, empKeys, groups) == GroupingOf(tickets[..i], cal)
    {
      assert tickets[..i + 1][..i] == tickets[..i];
      var t := tickets[i];
      var pk := PeriodKeyOf(t, cal);
      var ek := pk + "-" + t.ticket.userId;
      if pk !in periods {
        periodKeys := periodKeys + [pk];
        periods := periods[pk := InfoOf(t, cal)];
      }
      if ek !in groups {
        empKeys := empKeys + [ek];
        groups := groups[ek := EmpGroup(t.profile, [])];
      }
      groups := groups[ek := groups[ek].(tickets := groups[ek].tickets + [t.ticket])];
    }
    assert tickets[..|tickets|] == tickets;
    g := Grouping(periodKeys, periods, empKeys, groups);
  }

  /** The tickets whose group key is `k`, in fetch order. */
  function TicketsWithKey(tickets: seq<JoinedTicket>, k: string, cal: Calendar): seq<Ticket> {
    if tickets == [] then []
    else
      var last := tickets[|tickets| - 1];
      TicketsWithKey(tickets[..|tickets| - 1], k, cal) + (if EmpKeyOf(last, cal) == k then [last.ticket] else [])
  }

  /** The group keys of the tickets, in fetch order. */
  function EmpKeys(tickets: seq<JoinedTicket>, cal: Calendar): (r: seq<string>)
    ensures |r| == |tickets|
  {
    if tickets == [] then [] else EmpKeys(tickets[..|tickets| - 1], cal) + [EmpKeyOf(tickets[|tickets| - 1], cal)]
  }

  function PeriodKeys(tickets: seq<JoinedTicket>, cal: Calendar): (r: seq<string>)
    ensures |r| == |tickets|
  {
    if tickets == [] then [] else PeriodKeys(tickets[..|tickets| - 1], cal) + [PeriodKeyOf(tickets[|tickets| - 1], cal)]
  }

  lemma {:induction false} EmpKeysAt(tickets: seq<JoinedTicket>, cal: Calendar)
    ensures forall i :: 0 <= i < |tickets| ==> EmpKeys(tickets, cal)[i] == EmpKeyOf(tickets[i], cal)
    ensures forall i :: 0 <= i < |tickets| ==> PeriodKeys(tickets, cal)[i] == PeriodKeyOf(tickets[i], cal)
    decreases |tickets|
  {
    if tickets != [] {
      var n := |tickets| - 1;
      EmpKeysAt(tickets[..n], cal);
    }
  }

  /** The maps list their keys once each, in order of first occurrence: the
      group keys and period keys of the tickets without duplicates. */
  lemma {:induction false} GroupingKeys(tickets: seq<JoinedTicket>, cal: Calendar)
    ensures var g := GroupingOf(tickets, cal);
      && g.empKeys == Dedup(EmpKeys(tickets, cal)) && (forall k :: k in g.groups <==> k in g.empKeys)
      && g.periodKeys == Dedup(PeriodKeys(tickets, cal)) && (forall k :: k in g.periods <==> k in g.periodKeys)
    decreases |tickets|
  {
    if tickets != [] {
      var n := |tickets| - 1;
      GroupingKeys(tickets[..n], cal);
    }
  }

  /** Every group holds exactly the tickets with its key, in fetch order. */
  lemma {:induction false} GroupingTickets(tickets: seq<JoinedTicket>, cal: Calendar, k: string)
    ensures var g := GroupingOf(tickets, cal);
      k in g.groups ==> g.groups[k].tickets == TicketsWithKey(tickets, k, cal)
    decreases |tickets|
  {
    if tickets != [] {
      var n := |tickets| - 1;
      var p := tickets[..n];
      GroupingTickets(p, cal, k);
      GroupingKeys(p, cal);
      var g0 := GroupingOf(p, cal);
      if k == EmpKeyOf(tickets[n], cal) && k !in g0.groups {
        assert k !in EmpKeys(p, cal);
        EmpKeysAt(p, cal);
        TicketsWithKeyAbsent(p, k, cal);
      }
    }
  }

  /** One loop step registers the ticket's period with the ticket's own
      description unless the period is already known. */
  lemma AddTicketPeriod(g: Grouping, t: JoinedTicket, cal: Calendar, k: string)
    ensures var r := AddTicket(g, t, cal);
      && (k in r.periods <==> k in g.periods || k == PeriodKeyOf(t, cal))
      && (k in g.periods ==> r.periods[k] == g.periods[k])
      && (k !in g.periods && k == PeriodKeyOf(t, cal) ==> r.periods[k] == InfoOf(t, cal))
  {
  }

  /** One loop step opens the ticket's group with the ticket's profile
      unless the group already exists. */
  lemma AddTicketProfile(g: Grouping, t: JoinedTicket, cal: Calendar, k: string)
    ensures var r := AddTicket(g, t, cal);
      && (k in r.groups <==> k in g.groups || k == EmpKeyOf(t, cal))
      && (k in g.groups ==> r.groups[k].profile == g.groups[k].profile)
      && (k !in g.groups && k == EmpKeyOf(t, cal) ==> r.groups[k].profile == t.profile)
  {
  }

  lemma PeriodsArePeriodKeys(tickets: seq<JoinedTicket>, cal: Calendar)
    ensures forall x :: x in GroupingOf(tickets, cal).periods <==> x in PeriodKeys(tickets, cal)
  {
    GroupingKeys(tickets, cal);
  }

  /** The induction step of `GroupingFirstPeriod`, over the grouping of the
      earlier tickets `p`. */
  lemma FirstPeriodStep(g0: Grouping, p: seq<JoinedTicket>, t: JoinedTicket, cal: Calendar, k: string)
    requires forall x :: x in g0.periods <==> x in PeriodKeys(p, cal)
    requires k in g0.periods ==> g0.periods[k] == InfoOf(p[FirstIndex(PeriodKeys(p, cal), k)], cal)
    ensures var r := AddTicket(g0, t, cal);
      k in r.periods ==>
        k in PeriodKeys(p + [t], cal) && r.periods[k] == InfoOf((p + [t])[FirstIndex(PeriodKeys(p + [t], cal), k)], cal)
  {
    AddTicketPeriod(g0, t, cal, k);
    var pks := PeriodKeys(p + [t], cal);
    assert (p + [t])[..|p|] == p;
    assert pks == PeriodKeys(p, cal) + [PeriodKeyOf(t, cal)];
    assert pks[..|p|] == PeriodKeys(p, cal);
    if k in g0.periods {
      FirstIndexPrefix(pks, |p|, k);
      assert (p + [t])[FirstIndex(pks, k)] == p[FirstIndex(pks, k)];
    } else if k == PeriodKeyOf(t, cal) {
      assert k !in pks[..|p|];
      assert FirstIndex(pks, k) == |p|;
    }
  }

  /** A period is described by the first ticket with its key. */
  lemma {:induction false} GroupingFirstPeriod(tickets: seq<JoinedTicket>, cal: Calendar, k: string)
    ensures var g := GroupingOf(tickets, cal);
      k in g.periods ==>
        k in PeriodKeys(tickets, cal) && g.periods[k] == InfoOf(tickets[FirstIndex(PeriodKeys(tickets, cal), k)], cal)
    decreases |tickets|
  {
    if tickets != [] {
      var n := |tickets| - 1;
      var p := tickets[..n];
      GroupingFirstPeriod(p, cal, k);
      PeriodsArePeriodKeys(p, cal);
      assert p + [tickets[n]] == tickets;
      FirstPeriodStep(GroupingOf(p, cal), p, tickets[n], cal, k);
    }
  }

  lemma GroupsAreEmpKeys(tickets: seq<JoinedTicket>, cal: Calendar)
    ensures forall x :: x in GroupingOf(tickets, cal).groups <==> x in EmpKeys(tickets, cal)
  {
    GroupingKeys(tickets, cal);
  }

  /** The induction step of `GroupingFirstProfile`, over the grouping of
      the earlier tickets `p`. */
  lemma FirstProfileStep(g0: Grouping, p: seq<JoinedTicket>, t: JoinedTicket, cal: Calendar, k: string)
    requires forall x :: x in g0.groups <==> x in EmpKeys(p, cal)
    requires k in g0.groups ==> g0.groups[k].profile == p[FirstIndex(EmpKeys(p, cal), k)].profile
    ensures var r := AddTicket(g0, t, cal);
      k in r.groups ==>
        k in EmpKeys(p + [t], cal) && r.groups[k].profile == (p + [t])[FirstIndex(EmpKeys(p + [t], cal), k)].profile
  {
    AddTicketProfile(g0, t, cal, k);
    var eks := EmpKeys(p + [t], cal);
    assert (p + [t])[..|p|] == p;
    assert eks == EmpKeys(p, cal) + [EmpKeyOf(t, cal)];
    assert eks[..|p|] == EmpKeys(p, cal);
    if k in g0.groups {
      FirstIndexPrefix(eks, |p|, k);
      assert (p + [t])[FirstIndex(eks, k)] == p[FirstIndex(eks, k)];
    } else if k == EmpKeyOf(t, cal) {
      assert k !in eks[..|p|];
      assert FirstIndex(eks, k) == |p|;
    }
  }

  /** A group carries the profile of its first ticket. */
  lemma {:induction false} GroupingFirstProfile(tickets: seq<JoinedTicket>, cal: Calendar, k: string)
    ensures var g := GroupingOf(tickets, cal);
      k in g.groups ==>
        k in EmpKeys(tickets, cal) && g.groups[k].profile == tickets[FirstIndex(EmpKeys(tickets, cal), k)].profile
    decreases |tickets|
  {
    if tickets != [] {
      var n := |tickets| - 1;
      var p := tickets[..n];
      GroupingFirstProfile(p, cal, k);
      GroupsAreEmpKeys(p, cal);
      assert p + [tickets[n]] == tickets;
      FirstProfileStep(GroupingOf(p, cal), p, tickets[n], cal, k);
    }
  }

  lemma {:induction false} TicketsWithKeyAbsent(tickets: seq<JoinedTicket>, k: string, cal: Calendar)
    requires forall i :: 0 <= i < |tickets| ==> EmpKeyOf(tickets[i], cal) != k
    ensures TicketsWithKey(tickets, k, cal) == []
    decreases |tickets|
  {
    if tickets != [] {
      TicketsWithKeyAbsent(tickets[..|tickets| - 1], k, cal);
    }
  }

  // ---- the number of tickets per group ----

  function GroupSize(g: Grouping, k: string): int {
    if k in g.groups then |g.groups[k].tickets| else 0
  }

  /** The group keys cover the tickets: summing the sizes of the groups of
      the distinct keys counts every ticket once. */
  lemma {:induction false} PartitionCount(tickets: seq<JoinedTicket>, cal: Calendar)
    ensures SumOf(Dedup(EmpKeys(tickets, cal)), k => |TicketsWithKey(tickets, k, cal)|) == |tickets|
    decreases |tickets|
  {
    if tickets != [] {
      var n := |tickets| - 1;
      var p, t := tickets[..n], tickets[n];
      PartitionCount(p, cal);
      var ek := EmpKeyOf(t, cal);
      var d := Dedup(EmpKeys(p, cal));
      var f := k => |TicketsWithKey(p, k, cal)|;
      var g := k => |TicketsWithKey(tickets, k, cal)|;
      assert EmpKeys(tickets, cal) == EmpKeys(p, cal) + [ek];
      assert EmpKeys(tickets, cal)[..n] == EmpKeys(p, cal);
      assert forall k :: g(k) == f(k) + (if k == ek then 1 else 0);
      SumOfBump(d, f, g, ek);
      DedupSpec(EmpKeys(p, cal));
      NoDuplicatesCount(d, ek);
      if ek !in EmpKeys(p, cal) {
        assert Dedup(EmpKeys(tickets, cal)) == d + [ek];
        SumOfConcat(d, [ek], g);
        EmpKeysAt(p, cal);
        TicketsWithKeyAbsent(p, ek, cal);
        assert SumOf([ek], g) == g(ek) by { assert [ek][1..] == []; }
      }
    }
  }

  /** The groups of the first loop hold every ticket once. */
  lemma GroupSizes(tickets: seq<JoinedTicket>, cal: Calendar)
    ensures var g := GroupingOf(tickets, cal); SumOf(g.empKeys, k => GroupSize(g, k)) == |tickets|
  {
    var g := GroupingOf(tickets, cal);
    GroupingKeys(tickets, cal);
    PartitionCount(tickets, cal);
    forall k | k in g.empKeys ensures GroupSize(g, k) == |TicketsWithKey(tickets, k, cal)| {
      GroupingTickets(tickets, cal, k);
    }
    SumOfPointwise(g.empKeys, k => GroupSize(g, k), k => |TicketsWithKey(tickets, k, cal)|);
  }

  // ---- the second loop: employees per period ----

  /** `calculateAdjustedPay` summed over the tickets, a null result counting
      as 0. */
  function AdjustedPaySum(tickets: seq<Ticket>, salary: real, formula: PayFormula): real {
    if tickets == [] then 0.0
    else
      var last := tickets[|tickets| - 1];
      var pay := formula(last.hoursWorked, Some(salary));
      AdjustedPaySum(tickets[..|tickets| - 1], salary, formula) + (if pay.Some? then pay.value else 0.0)
  }

  /** Null exactly when the salary is falsy (null or 0); otherwise the sum of
      the per-ticket pay. */
  function AdjustedPay(tickets: seq<Ticket>, salary: Option<real>, formula: PayFormula): (r: Option<real>)
    ensures r.None? <==> salary.None? || salary.value == 0.0
    ensures r.Some? ==> r.value == AdjustedPaySum(tickets, salary.value, formula)
  {
    if salary.None? || salary.value == 0.0 then None else Some(AdjustedPaySum(tickets, salary.value, formula))
  }

  /** A row of the page. */
  datatype EmployeeData = EmployeeData(
    profile: Profile, tickets: seq<Ticket>, totalHours: real, totalAdjustedPay: Option<real>,
    periodStatus: string, employeePeriodId: Option<string>, hourlyWage: Option<real>)

  datatype PeriodData = PeriodData(info: PeriodInfo, employees: seq<EmployeeData>)

  /** An employee's row of a period: the tickets ascending by date, their
      hours, the adjusted pay, and the status data of the lookup entry at
      the profile's id and the period's year, month and period. */
  function EmployeeOf(grp: EmpGroup, info: PeriodInfo, m: map<string, StatusEntry>, formula: PayFormula): EmployeeData {
    var key := StatusKey(grp.profile.id, info.year, info.month, info.period);
    EmployeeData(
      grp.profile, SortBy(grp.tickets, DateLe), TotalHours(grp.tickets),
      AdjustedPay(grp.tickets, grp.profile.salary, formula), StatusFor(m, key),
      if key in m then Some(m[key].id) else None,
      if key in m then m[key].hourlyWage else None)
  }

  /** The rows of the groups among `keys` whose key starts with the period's
      key, in the order of `keys`. */
  function EmployeesFor(g: Grouping, info: PeriodInfo, keys: seq<string>, m: map<string, StatusEntry>, formula: PayFormula)
    : seq<EmployeeData>
    requires forall k :: k in keys ==> k in g.groups
  {
    if keys == [] then []
    else
      var last := keys[|keys| - 1];
      EmployeesFor(g, info, keys[..|keys| - 1], m, formula)
        + (if StartsWith(last, info.key) then [EmployeeOf(g.groups[last], info, m, formula)] else [])
  }

  /** `(full_name || email)`. */
  function NameKey(p: Profile): string {
    if p.fullName.Some? && p.fullName.value != "" then p.fullName.value else p.email
  }

  predicate NameLe(a: EmployeeData, b: EmployeeData) {
    StrLe(NameKey(a.profile), NameKey(b.profile))
  }

  lemma NameOrder()
    ensures Total(NameLe) && Transitive(NameLe)
  {
    forall a: EmployeeData, b: EmployeeData ensures NameLe(a, b) || NameLe(b, a) {
      StrLeTotal(NameKey(a.profile), NameKey(b.profile));
    }
    forall a: EmployeeData, b: EmployeeData, c: EmployeeData | NameLe(a, b) && NameLe(b, c) ensures NameLe(a, c) {
      StrLeTrans(NameKey(a.profile), NameKey(b.profile), NameKey(c.profile));
    }
  }

  /** The comparator of the period sort: newest first, by year, then month,
      then period. */
  predicate Newer(a: PeriodData, b: PeriodData) {
    a.info.year > b.info.year
    || (a.info.year == b.info.year && (a.info.month > b.info.month
        || (a.info.month == b.info.month && a.info.period >= b.info.period)))
  }

  lemma NewerOrder()
    ensures Total(Newer) && Transitive(Newer)
  {
  }

  ghost predicate KeysPresent(g: Grouping) {
    (forall k :: k in g.periodKeys ==> k in g.periods) && (forall k :: k in g.empKeys ==> k in g.groups)
  }

  function PeriodOf(g: Grouping, pk: string, m: map<string, StatusEntry>, formula: PayFormula): PeriodData
    requires KeysPresent(g) && pk in g.periods
  {
    var info := g.periods[pk];
    PeriodData(info, SortBy(EmployeesFor(g, info, g.empKeys, m, formula), NameLe))
  }

  /** The periods of `keys`, in the order of `keys`. */
  function PeriodList(g: Grouping, keys: seq<string>, m: map<string, StatusEntry>, formula: PayFormula): (r: seq<PeriodData>)
    requires KeysPresent(g) && forall k :: k in keys ==> k in g.periods
    ensures |r| == |keys|
  {
    if keys == [] then []
    else PeriodList(g, keys[..|keys| - 1], m, formula) + [PeriodOf(g, keys[|keys| - 1], m, formula)]
  }

  function PeriodsOf(g: Grouping, m: map<string, StatusEntry>, formula: PayFormula): seq<PeriodData>
    requires KeysPresent(g)
  {
    SortBy(PeriodList(g, g.periodKeys, m, formula), Newer)
  }

  lemma PeriodListStep(g: Grouping, keys: seq<string>, i: nat, m: map<string, StatusEntry>, formula: PayFormula)
    requires KeysPresent(g) && i < |keys| && forall k :: k in keys ==> k in g.periods
    ensures PeriodList(g, keys[..i + 1], m, formula) == PeriodList(g, keys[..i], m, formula) + [PeriodOf(g, keys[i], m, formula)]
  {
    assert keys[..i + 1][..i] == keys[..i];
  }

  lemma EmployeesForStep(
    g: Grouping, info: PeriodInfo, keys: seq<string>, j: nat, m: map<string, StatusEntry>, formula: PayFormula)
    requires j < |keys| && forall k :: k in keys ==> k in g.groups
    ensures EmployeesFor(g, info, keys[..j + 1], m, formula) == EmployeesFor(g, info, keys[..j], m, formula)
      + (if StartsWith(keys[j], info.key) then [EmployeeOf(g.groups[keys[j]], info, m, formula)] else [])
  {
    assert keys[..j + 1][..j] == keys[..j];
  }

  method BuildEmployees(g: Grouping, info: PeriodInfo, m: map<string, StatusEntry>, formula: PayFormula)
    returns (employees: seq<EmployeeData>)
    requires KeysPresent(g)
    ensures employees == SortBy(EmployeesFor(g, info, g.empKeys, m, formula), NameLe)
  {
    employees := [];
    for j := 0 to |g.empKeys|
      invariant employees == EmployeesFor(g, info, g.empKeys[..j], m, formula)
    {
      EmployeesForStep(g, info, g.empKeys, j, m, formula);
      var ek := g.empKeys[j];
      if StartsWith(ek, info.key) {
        employees := employees + [EmployeeOf(g.groups[ek], info, m, formula)];
      }
    }
    assert g.empKeys[..|g.empKeys|] == g.empKeys;
    employees := SortBy(employees, NameLe);
  }

  lemma PeriodOfIs(g: Grouping, pk: string, m: map<string, StatusEntry>, formula: PayFormula, employees: seq<EmployeeData>)
    requires KeysPresent(g) && pk in g.periods
    requires employees == SortBy(EmployeesFor(g, g.periods[pk], g.empKeys, m, formula), NameLe)
    ensures PeriodOf(g, pk, m, formula) == PeriodData(g.periods[pk], employees)
  {
  }

  method BuildPeriods(g: Grouping, m: map<string, StatusEntry>, formula: PayFormula) returns (periods: seq<PeriodData>)
    requires KeysPresent(g)
    ensures periods == PeriodsOf(g, m, formula)
  {
    periods := [];
    for i := 0 to |g.periodKeys|
      invariant periods == PeriodList(g, g.periodKeys[..i], m, formula)
    {
      var info := g.periods[g.periodKeys[i]];
      var employees := BuildEmployees(g, info, m, formula);
      PeriodOfIs(g, g.periodKeys[i], m, formula, employees);
      PeriodListStep(g, g.periodKeys, i, m, formula);
      periods := periods + [PeriodData(info, employees)];
    }
    assert g.periodKeys[..|g.periodKeys|] == g.periodKeys;
    periods := SortBy(periods, Newer);
  }

  lemma GroupingPresent(tickets: seq<JoinedTicket>, cal: Calendar)
    ensures KeysPresent(GroupingOf(tickets, cal))
  {
    GroupingKeys(tickets, cal);
  }

  /** The periods the page shows, from the tickets (newest first, as the
      query orders them) and the `employee_periods` rows. */
  function PageOf(tickets: seq<JoinedTicket>, rows: seq<PeriodRow>, cal: Calendar, formula: PayFormula): seq<PeriodData> {
    GroupingPresent(tickets, cal);
    PeriodsOf(GroupingOf(tickets, cal), StatusMapOf(rows), formula)
  }

  datatype PageView = Redirect(to: string) | Periods(periods: seq<PeriodData>)

  method PayPeriodsPage(
    user: Option<string>, role: Option<Role>, tickets: seq<JoinedTicket>, rows: seq<PeriodRow>,
    cal: Calendar, formula: PayFormula) returns (view: PageView)
    ensures PageGuard(user, role).Some? ==> view == Redirect(PageGuard(user, role).value)
    ensures PageGuard(user, role).None? ==> view == Periods(PageOf(tickets, rows, cal, formula))
  {
    var redirect := PageGuard(user, role);
    if redirect.Some? {
      return Redirect(redirect.value);
    }
    var m := BuildStatusMap(rows);
    var g := GroupTickets(tickets, cal);
    GroupingPresent(tickets, cal);
    var periods := BuildPeriods(g, m, formula);
    view := Periods(periods);
  }

  // ---- every ticket is shown once ----

  function EmpSize(e: EmployeeData): int {
    |e.tickets|
  }

  /** The number of tickets a period shows. */
  function PeriodSize(p: PeriodData): int {
    SumOf(p.employees, EmpSize)
  }

  /** The tickets of group `k` if the second loop places it in period `pk`. */
  function Share(g: Grouping, pk: string, k: string): int {
    if StartsWith(k, pk) then GroupSize(g, k) else 0
  }

  lemma {:induction false} EmployeesForSize(
    g: Grouping, info: PeriodInfo, keys: seq<string>, m: map<string, StatusEntry>, formula: PayFormula)
    requires forall k :: k in keys ==> k in g.groups
    ensures SumOf(EmployeesFor(g, info, keys, m, formula), EmpSize) == SumOf(keys, k => Share(g, info.key, k))
    decreases |keys|
  {
    if keys != [] {
      var n := |keys| - 1;
      var last := keys[n];
      EmployeesForSize(g, info, keys[..n], m, formula);
      SumOfSnoc(keys, k => Share(g, info.key, k));
      var es := EmployeesFor(g, info, keys, m, formula);
      if StartsWith(last, info.key) {
        assert es[..|es| - 1] == EmployeesFor(g, info, keys[..n], m, formula);
        SumOfSnoc(es, EmpSize);
      } else {
        assert es == EmployeesFor(g, info, keys[..n], m, formula);
      }
    }
  }

  lemma PeriodOfSize(g: Grouping, pk: string, m: map<string, StatusEntry>, formula: PayFormula)
    requires KeysPresent(g) && pk in g.periods && g.periods[pk].key == pk
    ensures PeriodSize(PeriodOf(g, pk, m, formula)) == SumOf(g.empKeys, k => Share(g, pk, k))
  {
    var info := g.periods[pk];
    var es := EmployeesFor(g, info, g.empKeys, m, formula);
    SumOfPermutation(SortBy(es, NameLe), es, EmpSize);
    EmployeesForSize(g, info, g.empKeys, m, formula);
  }

  ghost predicate OwnKeys(g: Grouping, keys: seq<string>) {
    forall k :: k in keys ==> k in g.periods && g.periods[k].key == k
  }

  lemma {:induction false} PeriodListSize(g: Grouping, keys: seq<string>, m: map<string, StatusEntry>, formula: PayFormula)
    requires KeysPresent(g) && OwnKeys(g, keys)
    ensures SumOf(PeriodList(g, keys, m, formula), PeriodSize) == SumOf(keys, pk => SumOf(g.empKeys, k => Share(g, pk, k)))
    decreases |keys|
  {
    if keys != [] {
      var n := |keys| - 1;
      var ps := PeriodList(g, keys, m, formula);
      assert OwnKeys(g, keys[..n]);
      PeriodListSize(g, keys[..n], m, formula);
      SumOfSnoc(keys, pk => SumOf(g.empKeys, k => Share(g, pk, k)));
      assert ps[..n] == PeriodList(g, keys[..n], m, formula);
      SumOfSnoc(ps, PeriodSize);
      PeriodOfSize(g, keys[n], m, formula);
    }
  }

  /** Each period of the grouping is described under its own key. */
  lemma PeriodKeysOwn(tickets: seq<JoinedTicket>, cal: Calendar, pk: string)
    requires pk in GroupingOf(tickets, cal).periods
    ensures GroupingOf(tickets, cal).periods[pk].key == pk
  {
    GroupingFirstPeriod(tickets, cal, pk);
    EmpKeysAt(tickets, cal);
  }

  lemma EmpKeyWitness(tickets: seq<JoinedTicket>, cal: Calendar, k: string) returns (i: nat)
    requires k in GroupingOf(tickets, cal).empKeys
    ensures i < |tickets| && k == EmpKeyOf(tickets[i], cal)
  {
    GroupingKeys(tickets, cal);
    EmpKeysAt(tickets, cal);
    i :| 0 <= i < |tickets| && EmpKeys(tickets, cal)[i] == k;
  }

  lemma PeriodKeyWitness(tickets: seq<JoinedTicket>, cal: Calendar, pk: string) returns (i: nat)
    requires pk in GroupingOf(tickets, cal).periodKeys
    ensures i < |tickets| && pk == PeriodKeyOf(tickets[i], cal)
  {
    GroupingKeys(tickets, cal);
    EmpKeysAt(tickets, cal);
    i :| 0 <= i < |tickets| && PeriodKeys(tickets, cal)[i] == pk;
  }

  lemma PeriodKeyIn(tickets: seq<JoinedTicket>, cal: Calendar, i: nat)
    requires i < |tickets|
    ensures PeriodKeyOf(tickets[i], cal) in GroupingOf(tickets, cal).periodKeys
  {
    GroupingKeys(tickets, cal);
    EmpKeysAt(tickets, cal);
    assert PeriodKeys(tickets, cal)[i] == PeriodKeyOf(tickets[i], cal);
  }

  lemma EmpKeyStarts(t: JoinedTicket, cal: Calendar)
    ensures StartsWith(EmpKeyOf(t, cal), PeriodKeyOf(t, cal))
  {
    var pk := PeriodKeyOf(t, cal);
    assert (pk + "-" + t.ticket.userId)[..|pk|] == pk;
  }

  lemma GroupOwnPeriod(tickets: seq<JoinedTicket>, cal: Calendar, k: string) returns (x: string)
    requires k in GroupingOf(tickets, cal).empKeys
    ensures x in GroupingOf(tickets, cal).periodKeys && StartsWith(k, x)
  {
    var i := EmpKeyWitness(tickets, cal, k);
    x := PeriodKeyOf(tickets[i], cal);
    PeriodKeyIn(tickets, cal, i);
    EmpKeyStarts(tickets[i], cal);
  }

  /** With period keys of one width, a group key starts with exactly one of
      the period keys: its own. */
  lemma OnePeriodPerGroup(tickets: seq<JoinedTicket>, cal: Calendar, width: nat, k: string)
    requires forall i :: 0 <= i < |tickets| ==> |PeriodKeyOf(tickets[i], cal)| == width
    requires k in GroupingOf(tickets, cal).empKeys
    ensures CountWhere(GroupingOf(tickets, cal).periodKeys, pk => StartsWith(k, pk)) == 1
  {
    var g := GroupingOf(tickets, cal);
    var x := GroupOwnPeriod(tickets, cal, k);
    forall y | y in g.periodKeys && StartsWith(k, y) ensures y == x {
      var j := PeriodKeyWitness(tickets, cal, y);
      var i := PeriodKeyWitness(tickets, cal, x);
      assert |y| == width == |x|;
    }
    GroupingKeys(tickets, cal);
    DedupSpec(PeriodKeys(tickets, cal));
    CountWhereUnique(g.periodKeys, pk => StartsWith(k, pk), x);
  }

  /** The page's ticket count, period by period. */
  lemma PageSizeByPeriod(tickets: seq<JoinedTicket>, rows: seq<PeriodRow>, cal: Calendar, formula: PayFormula)
    ensures var g := GroupingOf(tickets, cal);
      SumOf(PageOf(tickets, rows, cal, formula), PeriodSize) == SumOf(g.periodKeys, pk => SumOf(g.empKeys, k => Share(g, pk, k)))
  {
    var g := GroupingOf(tickets, cal);
    var m := StatusMapOf(rows);
    GroupingPresent(tickets, cal);
    var list := PeriodList(g, g.periodKeys, m, formula);
    SumOfPermutation(SortBy(list, Newer), list, PeriodSize);
    forall pk | pk in g.periodKeys ensures pk in g.periods && g.periods[pk].key == pk {
      GroupingKeys(tickets, cal);
      PeriodKeysOwn(tickets, cal, pk);
    }
    PeriodListSize(g, g.periodKeys, m, formula);
  }

  /** Each group is counted under one period. */
  lemma GroupShares(tickets: seq<JoinedTicket>, cal: Calendar, width: nat)
    requires forall i :: 0 <= i < |tickets| ==> |PeriodKeyOf(tickets[i], cal)| == width
    ensures var g := GroupingOf(tickets, cal);
      SumOf(g.empKeys, k => SumOf(g.periodKeys, pk => Share(g, pk, k))) == SumOf(g.empKeys, k => GroupSize(g, k))
  {
    var g := GroupingOf(tickets, cal);
    forall k | k in g.empKeys
      ensures SumOf(g.periodKeys, pk => Share(g, pk, k)) == GroupSize(g, k)
    {
      SumOfIndicator(g.periodKeys, pk => StartsWith(k, pk), GroupSize(g, k), pk => Share(g, pk, k));
      OnePeriodPerGroup(tickets, cal, width, k);
    }
    SumOfPointwise(g.empKeys, k => SumOf(g.periodKeys, pk => Share(g, pk, k)), k => GroupSize(g, k));
  }

  /** The shares summed period by period equal the shares summed group by
      group. */
  lemma {:induction false} SwapShares(g: Grouping, ps: seq<string>)
    ensures SumOf(ps, pk => SumOf(g.empKeys, k => Share(g, pk, k)))
         == SumOf(g.empKeys, k => SumOf(ps, pk => Share(g, pk, k)))
    decreases |ps|
  {
    if ps == [] {
      SumOfIndicator(g.empKeys, k => false, 0, k => SumOf(ps, pk => Share(g, pk, k)));
    } else {
      SwapShares(g, ps[1..]);
      SumOfAdd(g.empKeys, k => Share(g, ps[0], k), k => SumOf(ps[1..], pk => Share(g, pk, k)),
        k => SumOf(ps, pk => Share(g, pk, k)));
    }
  }

  lemma PageTicketCount(tickets: seq<JoinedTicket>, rows: seq<PeriodRow>, cal: Calendar, formula: PayFormula, width: nat)
    requires forall i :: 0 <= i < |tickets| ==> |PeriodKeyOf(tickets[i], cal)| == width
    ensures SumOf(PageOf(tickets, rows, cal, formula), PeriodSize) == |tickets|
  {
    PageSizeByPeriod(tickets, rows, cal, formula);
    SwapShares(GroupingOf(tickets, cal), GroupingOf(tickets, cal).periodKeys);
    GroupShares(tickets, cal, width);
    GroupSizes(tickets, cal);
  }

  // ---- what each row shows ----

  /** An employee's row holds exactly the group's tickets, ascending by
      date, their total hours, the group's profile, and
      an adjusted pay that is null exactly when the salary is falsy. */
  lemma EmployeeRow(tickets: seq<JoinedTicket>, cal: Calendar, k: string, info: PeriodInfo, m: map<string, StatusEntry>, formula: PayFormula)
    requires k in GroupingOf(tickets, cal).groups
    ensures var e := EmployeeOf(GroupingOf(tickets, cal).groups[k], info, m, formula);
      var own := TicketsWithKey(tickets, k, cal);
      && multiset(e.tickets) == multiset(own) && SortedBy(e.tickets, DateLe)
      && e.totalHours == TotalHours(own)
      && e.profile == GroupingOf(tickets, cal).groups[k].profile
      && (e.totalAdjustedPay.None? <==> e.profile.salary.None? || e.profile.salary.value == 0.0)
      && (e.totalAdjustedPay.Some? ==> e.totalAdjustedPay.value == AdjustedPaySum(own, e.profile.salary.value, formula))
  {
    GroupingTickets(tickets, cal, k);
    DateOrder();
    SortBySorted(TicketsWithKey(tickets, k, cal), DateLe);
  }

  /** The status shown is that of the last `employee_periods` row with the
      employee's key (or `pending` if that status is empty), and id and wage
      come from that row; without such a row the status is `pending` and
      there is no id or wage. */
  lemma EmployeeStatus(grp: EmpGroup, info: PeriodInfo, rows: seq<PeriodRow>, formula: PayFormula)
    ensures var key := StatusKey(grp.profile.id, info.year, info.month, info.period);
      var e := EmployeeOf(grp, info, StatusMapOf(rows), formula);
      var keys := RowKeys(rows);
      && (key !in keys ==> e.periodStatus == PendingStatus && e.employeePeriodId.None? && e.hourlyWage.None?)
      && (key in keys ==>
            var r := rows[LastIndex(keys, key)].record;
            && e.employeePeriodId == Some(r.id) && e.hourlyWage == r.hourlyWage
            && e.periodStatus == (if r.status != "" then r.status else PendingStatus))
  {
    StatusMapLastWins(rows, StatusKey(grp.profile.id, info.year, info.month, info.period));
  }

  lemma {:induction false} EmployeesForMember(
    g: Grouping, info: PeriodInfo, keys: seq<string>, m: map<string, StatusEntry>, formula: PayFormula, e: EmployeeData)
    returns (k: string)
    requires forall k :: k in keys ==> k in g.groups
    requires e in EmployeesFor(g, info, keys, m, formula)
    ensures k in keys && StartsWith(k, info.key) && e == EmployeeOf(g.groups[k], info, m, formula)
    decreases |keys|
  {
    var n := |keys| - 1;
    if e in EmployeesFor(g, info, keys[..n], m, formula) {
      k := EmployeesForMember(g, info, keys[..n], m, formula, e);
    } else {
      k := keys[n];
    }
  }

  lemma {:induction false} PeriodListMember(g: Grouping, keys: seq<string>, m: map<string, StatusEntry>, formula: PayFormula, p: PeriodData)
    returns (pk: string)
    requires KeysPresent(g) && forall k :: k in keys ==> k in g.periods
    requires p in PeriodList(g, keys, m, formula)
    ensures pk in keys && p == PeriodOf(g, pk, m, formula)
    decreases |keys|
  {
    var n := |keys| - 1;
    if p in PeriodList(g, keys[..n], m, formula) {
      pk := PeriodListMember(g, keys[..n], m, formula, p);
    } else {
      pk := keys[n];
    }
  }

  /** Periods come newest first, employees within a period by name, and
      tickets within an employee by date. */
  lemma PageSorted(tickets: seq<JoinedTicket>, rows: seq<PeriodRow>, cal: Calendar, formula: PayFormula)
    ensures SortedBy(PageOf(tickets, rows, cal, formula), Newer)
    ensures forall p :: p in PageOf(tickets, rows, cal, formula) ==>
      SortedBy(p.employees, NameLe) && forall e :: e in p.employees ==> SortedBy(e.tickets, DateLe)
  {
    var g := GroupingOf(tickets, cal);
    var m := StatusMapOf(rows);
    GroupingPresent(tickets, cal);
    var list := PeriodList(g, g.periodKeys, m, formula);
    NewerOrder();
    SortBySorted(list, Newer);
    forall p | p in PageOf(tickets, rows, cal, formula)
      ensures SortedBy(p.employees, NameLe) && forall e :: e in p.employees ==> SortedBy(e.tickets, DateLe)
    {
      assert p in multiset(list);
      var pk := PeriodListMember(g, g.periodKeys, m, formula, p);
      var es := EmployeesFor(g, g.periods[pk], g.empKeys, m, formula);
      NameOrder();
      SortBySorted(es, NameLe);
      forall e | e in p.employees ensures SortedBy(e.tickets, DateLe) {
        assert e in multiset(es);
        var k := EmployeesForMember(g, g.periods[pk], g.empKeys, m, formula, e);
        DateOrder();
        SortBySorted(g.groups[k].tickets, DateLe);
      }
    }
  }
}
