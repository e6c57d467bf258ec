/** The `employee_periods` table, keyed by (user, year, month, period), and
    the route that writes an employee's period status into it. Both routes
    that write the table upsert on that key. */
module EmployeePeriods {
  import opened Common
  import opened Domain

  /** The columns an upsert sends besides the key. `hourlyWage` is `None`
      when the payload has no `hourly_wage` column, so that a conflicting
      row keeps its wage. */
  datatype PeriodWrite = PeriodWrite(status: string, hourlyWage: Option<real>, updatedAt: string)

  /** `upsert(..., { onConflict: 'user_id,year,month,period' })`: a row at
      `key` is updated in the columns the payload carries; without one, a row
      with the fresh id `freshId` is inserted (an absent wage is null). */
  function Upserted(rows: map<PeriodRecordKey, PeriodRecord>, key: PeriodRecordKey, w: PeriodWrite, freshId: string)
    : (r: map<PeriodRecordKey, PeriodRecord>)
    ensures r.Keys == rows.Keys + {key}
    ensures r[key].status == w.status && r[key].updatedAt == w.updatedAt
    ensures r[key].id == (if key in rows then rows[key].id else freshId)
    ensures w.hourlyWage.Some? ==> r[key].hourlyWage == w.hourlyWage
    ensures w.hourlyWage.None? ==> r[key].hourlyWage == (if key in rows then rows[key].hourlyWage else None)
    ensures forall k :: k in rows && k != key ==> r[k] == rows[k]
  {
    var id := if key in rows then rows[key].id else freshId;
    var wage := if w.hourlyWage.Some? then w.hourlyWage else if key in rows then rows[key].hourlyWage else None;
    rows[key := PeriodRecord(id, w.status, wage, w.updatedAt)]
  }

  /** Repeating an upsert changes nothing but `updated_at`: the second call
      finds the row the first one wrote, whatever fresh id it is offered. */
  lemma UpsertRepeated(
    rows: map<PeriodRecordKey, PeriodRecord>, key: PeriodRecordKey, w: PeriodWrite, later: string, id1: string, id2: string)
    ensures var once := Upserted(rows, key, w, id1);
      Upserted(once, key, w.(updatedAt := later), id2) == once[key := once[key].(updatedAt := later)]
  {
    var once := Upserted(rows, key, w, id1);
    var twice := Upserted(once, key, w.(updatedAt := later), id2);
    var expected := once[key := once[key].(updatedAt := later)];
    assert twice.Keys == expected.Keys;
    assert twice[key] == expected[key];
  }

  /** With the same payload the second upsert is a no-op. */
  lemma UpsertIdempotent(rows: map<PeriodRecordKey, PeriodRecord>, key: PeriodRecordKey, w: PeriodWrite, id1: string, id2: string)
    ensures Upserted(Upserted(rows, key, w, id1), key, w, id2) == Upserted(rows, key, w, id1)
  {
    var once := Upserted(rows, key, w, id1);
    UpsertRepeated(rows, key, w, w.updatedAt, id1, id2);
    assert once[key := once[key].(updatedAt := w.updatedAt)] == once;
  }

  /** The key the routes write: the user and the parsed period key. */
  function KeyOf(cal: Calendar, periodKey: string, userId: string): PeriodRecordKey {
    var p := cal.parseKey(periodKey);
    PeriodRecordKey(userId, p.year, p.month, p.period)
  }

  /** The table itself: one record per key. */
  class PeriodTable {
    var rows: map<PeriodRecordKey, PeriodRecord>

    constructor ()
      ensures rows == map[]
    {
      rows := map[];
    }

    /** The record at `key`, if any. */
    function Lookup(key: PeriodRecordKey): Option<PeriodRecord>
      reads this
    {
      if key in rows then Some(rows[key]) else None
    }

    method Upsert(key: PeriodRecordKey, w: PeriodWrite, freshId: string)
      modifies this
      ensures rows == Upserted(old(rows), key, w, freshId)
    {
      rows := Upserted(rows, key, w, freshId);
    }
  }

  /** The POST handler of `update-employee-period`: the admin guard, then an
      upsert of the requested status (any string, not checked against the
      current one) at the parsed key, answered with the written row. The
      wage column is not sent, so an existing wage survives. `now` is the
      `updated_at` timestamp, `freshId` the id a new row receives, and
      `dbError` the error the database reports, in which case nothing is
      written and the answer is 500 with its message. */
  method UpdateEmployeePeriod(
    table: PeriodTable, user: Option<string>, role: Option<Role>,
    periodKey: string, userId: string, status: string, cal: Calendar,
    now: string, freshId: string, dbError: Option<string>) returns (r: Reply<PeriodRow>)
    modifies table
    ensures AdminGuard(user, role).Some? ==>
      r == Fail(AdminGuard(user, role).value.0, AdminGuard(user, role).value.1) && table.rows == old(table.rows)
    ensures AdminGuard(user, role).None? && dbError.Some? ==>
      r == Fail(500, dbError.value) && table.rows == old(table.rows)
    ensures AdminGuard(user, role).None? && dbError.None? ==>
      var key := KeyOf(cal, periodKey, userId);
      && table.rows == Upserted(old(table.rows), key, PeriodWrite(status, None, now), freshId)
      && r == Ok(PeriodRow(key, table.rows[key]))
  {
    var guard := AdminGuard(user, role);
    if guard.Some? {
      return Fail(guard.value.0, guard.value.1);
    }
    var key := KeyOf(cal, periodKey, userId);
    if dbError.Some? {
      return Fail(500, dbError.value);
    }
    table.Upsert(key, PeriodWrite(status, None, now), freshId);
    r := Ok(PeriodRow(key, table.rows[key]));
  }

  /** A successful status update leaves the requested status at the key,
      keeps the stored wage, and changes no other key. */
  lemma StatusUpdateEffect(
    rows: map<PeriodRecordKey, PeriodRecord>, key: PeriodRecordKey, status: string, now: string, freshId: string)
    ensures var r := Upserted(rows, key, PeriodWrite(status, None, now), freshId);
      && key in r && r[key].status == status
      && (key in rows ==> r[key].hourlyWage == rows[key].hourlyWage && r[key].id == rows[key].id)
      && (forall k :: k != key ==> (k in r <==> k in rows))
      && (forall k :: k in rows && k != key ==> r[k] == rows[k])
  {
  }
}
