/** The ticket submission route: authentication, a presence check on the
    four fields, a check of the hours, and one insert. */
module TicketsRoute {
  import opened Common
  import opened Domain

  /** A value of the JSON body; `Undefined` is a missing key. Arrays and
      objects are not modelled. */
  datatype Json = Undefined | Null | Bool(b: bool) | Number(n: real) | Str(s: string)

  /** JavaScript falsiness: `undefined`, `null`, `false`, `0` and `""`
      (a JSON number is never NaN). */
  predicate Falsy(v: Json) {
    v.Undefined? || v.Null? || v == Bool(false) || v == Number(0.0) || v == Str("")
  }

  /** `x == null`: undefined or null. */
  predicate Nullish(v: Json) {
    v.Undefined? || v.Null?
  }

  datatype TicketBody = TicketBody(dirNumber: Json, projectTitle: Json, dateWorked: Json, hoursWorked: Json)

  /** `parseFloat(String(v))`, `None` standing for NaN. A number prints and
      parses back to itself; `true`/`false` do not parse; a string goes to
      `parseFloat` itself, a parameter here. */
  function ParsedHours(v: Json, parseFloat: string -> Option<real>): Option<real> {
    match v
    case Number(n) => Some(n)
    case Str(s) => parseFloat(s)
    case _ => None
  }

  /** The outcome of the two checks. */
  datatype Validation = MissingFields | InvalidHours | Valid(hours: real)

  /** The presence check first, then the hours check. */
  function Validate(body: TicketBody, parseFloat: string -> Option<real>): (r: Validation)
    ensures r == MissingFields <==>
      Falsy(body.dirNumber) || Falsy(body.projectTitle) || Falsy(body.dateWorked) || Nullish(body.hoursWorked)
    ensures r.Valid? <==>
      && !Falsy(body.dirNumber) && !Falsy(body.projectTitle) && !Falsy(body.dateWorked) && !Nullish(body.hoursWorked)
      && ParsedHours(body.hoursWorked, parseFloat).Some? && ParsedHours(body.hoursWorked, parseFloat).value > 0.0
    ensures r.Valid? ==> r.hours == ParsedHours(body.hoursWorked, parseFloat).value && r.hours > 0.0
  {
    if Falsy(body.dirNumber) || Falsy(body.projectTitle) || Falsy(body.dateWorked) || Nullish(body.hoursWorked) then
      MissingFields
    else
      var hours := ParsedHours(body.hoursWorked, parseFloat);
      if hours.None? || hours.value <= 0.0 then InvalidHours else Valid(hours.value)
  }

  /** Zero hours are present, so they pass the presence check and fail the
      hours check; an empty string in a text field is missing. */
  lemma ZeroHours(dir: string, title: string, date: string, parseFloat: string -> Option<real>)
    requires dir != "" && title != "" && date != ""
    ensures Validate(TicketBody(Str(dir), Str(title), Str(date), Number(0.0)), parseFloat) == InvalidHours
    ensures Validate(TicketBody(Str(""), Str(title), Str(date), Number(1.0)), parseFloat) == MissingFields
  {
  }

  /** A row the route inserts. */
  datatype NewTicket = NewTicket(
    userId: string, dirNumber: Json, projectTitle: Json, dateWorked: Json, hoursWorked: real, status: TicketStatus)

  class TicketsTable {
    var rows: seq<NewTicket>

    constructor ()
      ensures rows == []
    {
      rows := [];
    }

    /** The `INSERT`; `ok` is whether the database accepts it. */
    method Insert(t: NewTicket, ok: bool)
      modifies this
      ensures rows == old(rows) + (if ok then [t] else [])
    {
      if ok {
        rows := rows + [t];
      }
    }
  }

  /** The framework's answer to a handler that throws. */
  const ServerError := "Internal Server Error"

  /** The POST handler: 401 without a user, 400 `Missing required fields`,
      400 `Invalid hours_worked`, in that order and without an insert; then
      the insert. When the database accepts it, exactly one `pending` row
      with the caller's id and the parsed hours and `{ ok: true }`; when it
      rejects it, the awaited query throws, so no row and the framework's
      500. `insertOk` is the database's answer. */
  method PostTicket(
    table: TicketsTable, user: Option<string>, body: TicketBody, parseFloat: string -> Option<real>, insertOk: bool)
    returns (r: Reply<bool>)
    modifies table
    ensures user.None? ==> r == Fail(401, "Unauthorized") && table.rows == old(table.rows)
    ensures user.Some? && Validate(body, parseFloat) == MissingFields ==>
      r == Fail(400, "Missing required fields") && table.rows == old(table.rows)
    ensures user.Some? && Validate(body, parseFloat) == InvalidHours ==>
      r == Fail(400, "Invalid hours_worked") && table.rows == old(table.rows)
    ensures user.Some? && Validate(body, parseFloat).Valid? && !insertOk ==>
      r == Fail(500, ServerError) && table.rows == old(table.rows)
    ensures user.Some? && Validate(body, parseFloat).Valid? && insertOk ==>
      && r == Ok(true)
      && table.rows == old(table.rows) + [NewTicket(
           user.value, body.dirNumber, body.projectTitle, body.dateWorked,
           Validate(body, parseFloat).hours, Pending)]
  {
    if user.None? {
      return Fail(401, "Unauthorized");
    }
    var v := Validate(body, parseFloat);
    if v == MissingFields {
      return Fail(400, "Missing required fields");
    }
    if v == InvalidHours {
      return Fail(400, "Invalid hours_worked");
    }
    table.Insert(NewTicket(user.value, body.dirNumber, body.projectTitle, body.dateWorked, v.hours, Pending), insertOk);
    if !insertOk {
      return Fail(500, ServerError);
    }
    r := Ok(true);
  }
}
