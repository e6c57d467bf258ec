/** The CSV import route: after the admin guard it looks up every person of
    every parsed row by lower-cased full name, creates a placeholder profile
    for a name it does not know, and inserts one `pending` ticket per person
    per row. */
module ImportCsv {
  import opened Common
  import opened Domain
  import opened CsvUpload

  /** A row of the `profiles` query: its id and `full_name`. */
  datatype ExistingProfile = ExistingProfile(id: string, fullName: Option<string>)

  /** A row the route inserts into `tickets`; `dirNumber` is `None` when the
      uploaded row had no DIR number. */
  datatype TicketInsert = TicketInsert(
    userId: string, dirNumber: Option<string>, projectTitle: string, dateWorked: string,
    hoursWorked: real, status: TicketStatus)

  /** What the database answers, for the person at index `j` of row `i`: the
      id `crypto.randomUUID()` gives, and whether the profile insert and the
      ticket insert succeed. */
  datatype Outcomes = Outcomes(freshId: (nat, nat) -> string, profileOk: (nat, nat) -> bool, ticketOk: (nat, nat) -> bool)

  /** The route's answer on success. */
  datatype ImportSummary = ImportSummary(employeesCreated: nat, ticketsCreated: nat)

  /** The loop's variables, with the rows it has inserted so far. */
  datatype ImportState = ImportState(
    profileMap: map<string, string>, employeesCreated: nat, ticketsCreated: nat,
    profiles: seq<Profile>, tickets: seq<TicketInsert>)

  // ---- the name lookup ----

  /** `if (p.full_name)`: a non-empty name. */
  predicate Named(p: ExistingProfile) {
    p.fullName.Some? && p.fullName.value != ""
  }

  /** The lookup after `set` for every named existing profile, in order. */
  function ExistingMap(existing: seq<ExistingProfile>): map<string, string> {
    if existing == [] then map[]
    else
      var p := existing[|existing| - 1];
      var m := ExistingMap(existing[..|existing| - 1]);
      if Named(p) then m[ToLower(p.fullName.value) := p.id] else m
  }

  /** The lower-cased names of the named existing profiles, in order. */
  function NameKeys(existing: seq<ExistingProfile>): seq<string> {
    if existing == [] then []
    else
      var p := existing[|existing| - 1];
      NameKeys(existing[..|existing| - 1]) + (if Named(p) then [ToLower(p.fullName.value)] else [])
  }

  /** The lookup's keys are exactly the lower-cased non-empty names; a
      profile without a name is not in it. */
  lemma {:induction false} ExistingMapKeys(existing: seq<ExistingProfile>, k: string)
    ensures k in ExistingMap(existing) <==> k in NameKeys(existing)
    ensures k in NameKeys(existing) <==>
      exists i :: 0 <= i < |existing| && Named(existing[i]) && ToLower(existing[i].fullName.value) == k
    decreases |existing|
  {
    if existing != [] {
      var n := |existing| - 1;
      ExistingMapKeys(existing[..n], k);
      assert forall i :: 0 <= i < n ==> existing[..n][i] == existing[i];
    }
  }

  /** A key holds the id of the last named profile with that name. */
  lemma {:induction false} ExistingMapLastWins(existing: seq<ExistingProfile>, k: string)
    requires k in ExistingMap(existing)
    ensures exists i :: (0 <= i < |existing| && Named(existing[i]) && ToLower(existing[i].fullName.value) == k
      && ExistingMap(existing)[k] == existing[i].id
      && forall j :: i < j < |existing| && Named(existing[j]) ==> ToLower(existing[j].fullName.value) != k)
    decreases |existing|
  {
    var n := |existing| - 1;
    var p := existing[n];
    if !(Named(p) && ToLower(p.fullName.value) == k) {
      ExistingMapLastWins(existing[..n], k);
      var i :| 0 <= i < n && Named(existing[..n][i]) && ToLower(existing[..n][i].fullName.value) == k
        && ExistingMap(existing[..n])[k] == existing[..n][i].id
        && forall j :: i < j < n && Named(existing[..n][j]) ==> ToLower(existing[..n][j].fullName.value) != k;
      assert existing[..n][i] == existing[i];
      forall j | i < j < |existing| && Named(existing[j]) ensures ToLower(existing[j].fullName.value) != k {
        if j < n {
          assert existing[..n][j] == existing[j];
        }
      }
    }
  }

  // ---- one person of one row ----

  /** The profile created for a name the lookup does not know. */
  function Placeholder(id: string, name: string): Profile {
    Profile(id, PlaceholderEmail(name), Some(name), User, None)
  }

  /** The name with white-space runs turned into `.`, lower-cased, at
      `placeholder.local`. */
  function PlaceholderEmail(name: string): string {
    ToLower(ReplaceSpaceRuns(name, ".")) + "@placeholder.local"
  }

  /** The placeholder address holds no white space and names the
      placeholder domain. */
  lemma PlaceholderEmailShape(name: string)
    ensures NoSpace(PlaceholderEmail(name))
    ensures var e := PlaceholderEmail(name); |e| >= 18 && e[|e| - 18..] == "@placeholder.local"
  {
    var domain := "@placeholder.local";
    var local := ToLower(ReplaceSpaceRuns(name, "."));
    SeparatorNoSpace('.');
    ReplaceSpaceRunsNoSpace(name, ".");
    LowerNoSpace(ReplaceSpaceRuns(name, "."));
    DomainNoSpace();
    NoSpaceAppend(local, domain);
    assert PlaceholderEmail(name) == local + domain;
    assert (local + domain)[|local|..] == domain;
  }

  lemma DomainNoSpace()
    ensures NoSpace("@placeholder.local")
  {
    var domain := "@placeholder.local";
    forall i | 0 <= i < |domain| ensures !IsSpace(domain[i]) {
      assert domain[i] == '@' || domain[i] == '.' || 'a' <= domain[i] <= 'z';
    }
  }

  /** The ticket inserted for a row and a person's id: the row's DIR number,
      title, date and full hours, status `pending`. */
  function TicketOf(row: ParsedRow, userId: string): TicketInsert {
    TicketInsert(userId, row.dirNumber, row.projectTitle, row.dateWorked, row.totalHours, Pending)
  }

  /** `!personId`: absent, or the empty string. */
  function Found(m: map<string, string>, lower: string): string {
    if lower in m then m[lower] else ""
  }

  function TicketStep(st: ImportState, row: ParsedRow, userId: string, i: nat, j: nat, o: Outcomes): ImportState {
    if o.ticketOk(i, j) then st.(ticketsCreated := st.ticketsCreated + 1, tickets := st.tickets + [TicketOf(row, userId)])
    else st
  }

  /** The body of the inner loop for person `name`, at index `j` of row `i`. */
  function PersonStep(st: ImportState, row: ParsedRow, name: string, i: nat, j: nat, o: Outcomes): ImportState {
    var lower := ToLower(name);
    var found := Found(st.profileMap, lower);
    if found != "" then TicketStep(st, row, found, i, j, o)
    else if !o.profileOk(i, j) then st
    else
      var newId := o.freshId(i, j);
      var st1 := st.(profileMap := st.profileMap[lower := newId], employeesCreated := st.employeesCreated + 1,
                     profiles := st.profiles + [Placeholder(newId, name)]);
      TicketStep(st1, row, newId, i, j, o)
  }

  /** The inner loop over the first `|people|` persons of row `i`. */
  function PeopleFold(st: ImportState, row: ParsedRow, i: nat, people: seq<string>, o: Outcomes): ImportState {
    if people == [] then st
    else
      var n := |people| - 1;
      PersonStep(PeopleFold(st, row, i, people[..n], o), row, people[n], i, n, o)
  }

  /** The outer loop over `rows`. */
  function RowsFold(st: ImportState, rows: seq<ParsedRow>, o: Outcomes): ImportState {
    if rows == [] then st
    else
      var n := |rows| - 1;
      PeopleFold(RowsFold(st, rows[..n], o), rows[n], n, rows[n].people, o)
  }

  /** The whole import, from the lookup of the existing profiles. */
  function ImportOf(existing: seq<ExistingProfile>, rows: seq<ParsedRow>, o: Outcomes): ImportState {
    RowsFold(ImportState(ExistingMap(existing), 0, 0, [], []), rows, o)
  }

  // ---- the tables and the route ----

  /** The two tables the route inserts into. */
  class ImportTables {
    var profiles: seq<Profile>
    var tickets: seq<TicketInsert>

    constructor ()
      ensures profiles == [] && tickets == []
    {
      profiles := [];
      tickets := [];
    }

    method InsertProfile(p: Profile, ok: bool)
      modifies this
      ensures profiles == old(profiles) + (if ok then [p] else [])
      ensures tickets == old(tickets)
    {
      if ok {
        profiles := profiles + [p];
      }
    }

    method InsertTicket(t: TicketInsert, ok: bool)
      modifies this
      ensures tickets == old(tickets) + (if ok then [t] else [])
      ensures profiles == old(profiles)
    {
      if ok {
        tickets := tickets + [t];
      }
    }
  }

  /** The loop's variables and the two tables agree with the state `cur`
      of the specification, the tables having held `p0` and `t0` before. */
  ghost predicate Mirrors(
    db: ImportTables, profileMap: map<string, string>, employeesCreated: nat, ticketsCreated: nat,
    cur: ImportState, p0: seq<Profile>, t0: seq<TicketInsert>)
    reads db
  {
    && profileMap == cur.profileMap && employeesCreated == cur.employeesCreated
    && ticketsCreated == cur.ticketsCreated && db.profiles == p0 + cur.profiles && db.tickets == t0 + cur.tickets
  }

  /** The body of the inner loop: find or create the person, then insert the
      ticket. */
  method ImportPerson(
    db: ImportTables, row: ParsedRow, personName: string, i: nat, j: nat, o: Outcomes,
    profileMap: map<string, string>, employeesCreated: nat, ticketsCreated: nat,
    ghost cur: ImportState, ghost p0: seq<Profile>, ghost t0: seq<TicketInsert>)
    returns (profileMap': map<string, string>, employeesCreated': nat, ticketsCreated': nat)
    requires Mirrors(db, profileMap, employeesCreated, ticketsCreated, cur, p0, t0)
    modifies db
    ensures Mirrors(db, profileMap', employeesCreated', ticketsCreated', PersonStep(cur, row, personName, i, j, o), p0, t0)
  {
    profileMap', employeesCreated', ticketsCreated' := profileMap, employeesCreated, ticketsCreated;
    var nameLower := ToLower(personName);
    var personId := if nameLower in profileMap then profileMap[nameLower] else "";
    if personId == "" {
      var newId := o.freshId(i, j);
      db.InsertProfile(Placeholder(newId, personName), o.profileOk(i, j));
      if !o.profileOk(i, j) {
        return;
      }
      personId := newId;
      profileMap' := profileMap[nameLower := newId];
      employeesCreated' := employeesCreated + 1;
    }
    db.InsertTicket(TicketOf(row, personId), o.ticketOk(i, j));
    if o.ticketOk(i, j) {
      ticketsCreated' := ticketsCreated + 1;
    }
  }

  /** The lookup of the existing profiles, built by the first loop. */
  method BuildExistingMap(existing: seq<ExistingProfile>) returns (profileMap: map<string, string>)
    ensures profileMap == ExistingMap(existing)
  {
    profileMap := map[];
    for e := 0 to |existing|
      invariant profileMap == ExistingMap(existing[..e])
    {
      assert existing[..e + 1][..e] == existing[..e];
      var p := existing[e];
      if p.fullName.Some? && p.fullName.value != "" {
        profileMap := profileMap[ToLower(p.fullName.value) := p.id];
      }
    }
    assert existing[..|existing|] == existing;
  }

  /** The inner loop over the people of row `i`. */
  method ImportRow(
    db: ImportTables, row: ParsedRow, i: nat, o: Outcomes,
    profileMap: map<string, string>, employeesCreated: nat, ticketsCreated: nat,
    ghost cur: ImportState, ghost p0: seq<Profile>, ghost t0: seq<TicketInsert>)
    returns (profileMap': map<string, string>, employeesCreated': nat, ticketsCreated': nat)
    requires Mirrors(db, profileMap, employeesCreated, ticketsCreated, cur, p0, t0)
    modifies db
    ensures Mirrors(db, profileMap', employeesCreated', ticketsCreated', PeopleFold(cur, row, i, row.people, o), p0, t0)
  {
    profileMap', employeesCreated', ticketsCreated' := profileMap, employeesCreated, ticketsCreated;
    for j := 0 to |row.people|
      invariant Mirrors(db, profileMap', employeesCreated', ticketsCreated', PeopleFold(cur, row, i, row.people[..j], o), p0, t0)
    {
      assert row.people[..j + 1][..j] == row.people[..j];
      profileMap', employeesCreated', ticketsCreated' := ImportPerson(
        db, row, row.people[j], i, j, o, profileMap', employeesCreated', ticketsCreated',
        PeopleFold(cur, row, i, row.people[..j], o), p0, t0);
    }
    assert row.people[..|row.people|] == row.people;
  }

  /** The POST handler: 401 without a user, 403 for a non-admin, both before
      anything is read or written; otherwise the nested loops, answered with
      the two counters. `existing` is the result of the profiles query. */
  method ImportRows(
    db: ImportTables, user: Option<string>, role: Option<Role>, rows: seq<ParsedRow>,
    existing: seq<ExistingProfile>, o: Outcomes) returns (r: Reply<ImportSummary>)
    modifies db
    ensures AdminGuard(user, role).Some? ==>
      && r == Fail(AdminGuard(user, role).value.0, AdminGuard(user, role).value.1)
      && db.profiles == old(db.profiles) && db.tickets == old(db.tickets)
    ensures AdminGuard(user, role).None? ==>
      var fin := ImportOf(existing, rows, o);
      && r == Ok(ImportSummary(fin.employeesCreated, fin.ticketsCreated))
      && db.profiles == old(db.profiles) + fin.profiles && db.tickets == old(db.tickets) + fin.tickets
  {
    var guard := AdminGuard(user, role);
    if guard.Some? {
      return Fail(guard.value.0, guard.value.1);
    }
    var profileMap := BuildExistingMap(existing);
    ghost var init := ImportState(profileMap, 0, 0, [], []);
    ghost var p0, t0 := db.profiles, db.tickets;
    var employeesCreated, ticketsCreated := 0, 0;
    for i := 0 to |rows|
      invariant Mirrors(db, profileMap, employeesCreated, ticketsCreated, RowsFold(init, rows[..i], o), p0, t0)
    {
      assert rows[..i + 1][..i] == rows[..i];
      profileMap, employeesCreated, ticketsCreated := ImportRow(
        db, rows[i], i, o, profileMap, employeesCreated, ticketsCreated, RowsFold(init, rows[..i], o), p0, t0);
    }
    assert rows[..|rows|] == rows;
    r := Ok(ImportSummary(employeesCreated, ticketsCreated));
  }

  // ---- what the loop promises ----

  /** A profile insert that fails skips exactly that person: nothing is
      inserted and the lookup and counters stay as they were. */
  lemma FailedProfileSkips(st: ImportState, row: ParsedRow, name: string, i: nat, j: nat, o: Outcomes)
    requires Found(st.profileMap, ToLower(name)) == "" && !o.profileOk(i, j)
    ensures PersonStep(st, row, name, i, j, o) == st
  {
  }

  /** Each person step keeps every non-empty id already in the lookup. */
  lemma PersonStepKeeps(st: ImportState, row: ParsedRow, name: string, i: nat, j: nat, o: Outcomes, k: string)
    requires k in st.profileMap
    ensures var r := PersonStep(st, row, name, i, j, o);
      k in r.profileMap && (st.profileMap[k] != "" ==> r.profileMap[k] == st.profileMap[k])
  {
  }

  lemma {:induction false} PeopleFoldKeeps(st: ImportState, row: ParsedRow, i: nat, people: seq<string>, o: Outcomes, k: string)
    requires k in st.profileMap
    ensures var r := PeopleFold(st, row, i, people, o);
      k in r.profileMap && (st.profileMap[k] != "" ==> r.profileMap[k] == st.profileMap[k])
    decreases |people|
  {
    if people != [] {
      var n := |people| - 1;
      PeopleFoldKeeps(st, row, i, people[..n], o, k);
      PersonStepKeeps(PeopleFold(st, row, i, people[..n], o), row, people[n], i, n, o, k);
    }
  }

  /** The lookup only grows: no key disappears and no non-empty id is
      replaced. */
  lemma {:induction false} RowsFoldKeeps(st: ImportState, rows: seq<ParsedRow>, o: Outcomes, k: string)
    requires k in st.profileMap
    ensures var r := RowsFold(st, rows, o);
      k in r.profileMap && (st.profileMap[k] != "" ==> r.profileMap[k] == st.profileMap[k])
    decreases |rows|
  {
    if rows != [] {
      var n := |rows| - 1;
      RowsFoldKeeps(st, rows[..n], o, k);
      PeopleFoldKeeps(RowsFold(st, rows[..n], o), rows[n], n, rows[n].people, o, k);
    }
  }

  /** The counters count the inserted rows. */
  ghost predicate Counted(st: ImportState) {
    st.employeesCreated == |st.profiles| && st.ticketsCreated == |st.tickets|
  }

  /** Each person step keeps the counters exact and inserts at most one
      ticket, exactly one when both inserts succeed. */
  lemma PersonStepCounts(st: ImportState, row: ParsedRow, name: string, i: nat, j: nat, o: Outcomes)
    requires Counted(st)
    ensures var r := PersonStep(st, row, name, i, j, o);
      && Counted(r) && |st.tickets| <= |r.tickets| <= |st.tickets| + 1
      && (o.profileOk(i, j) && o.ticketOk(i, j) ==> |r.tickets| == |st.tickets| + 1)
  {
  }

  /** Every insert succeeding. */
  ghost predicate AllSucceed(o: Outcomes) {
    forall i: nat, j: nat :: o.profileOk(i, j) && o.ticketOk(i, j)
  }

  lemma {:induction false} PeopleFoldCounts(st: ImportState, row: ParsedRow, i: nat, people: seq<string>, o: Outcomes)
    requires Counted(st)
    ensures var r := PeopleFold(st, row, i, people, o);
      && Counted(r) && |st.tickets| <= |r.tickets| <= |st.tickets| + |people|
      && (AllSucceed(o) ==> |r.tickets| == |st.tickets| + |people|)
    decreases |people|
  {
    if people != [] {
      var n := |people| - 1;
      PeopleFoldCounts(st, row, i, people[..n], o);
      PersonStepCounts(PeopleFold(st, row, i, people[..n], o), row, people[n], i, n, o);
    }
  }

  lemma {:induction false} RowsFoldCounts(st: ImportState, rows: seq<ParsedRow>, o: Outcomes)
    requires Counted(st)
    ensures var r := RowsFold(st, rows, o);
      && Counted(r) && |st.tickets| <= |r.tickets| <= |st.tickets| + TotalTickets(rows)
      && (AllSucceed(o) ==> |r.tickets| == |st.tickets| + TotalTickets(rows))
    decreases |rows|
  {
    if rows != [] {
      var n := |rows| - 1;
      RowsFoldCounts(st, rows[..n], o);
      PeopleFoldCounts(RowsFold(st, rows[..n], o), rows[n], n, rows[n].people, o);
    }
  }

  /** `ticketsCreated` and `employeesCreated` count the inserted rows; at
      most one ticket is created per person entry, and exactly one each when
      every insert succeeds. */
  lemma ImportCounts(existing: seq<ExistingProfile>, rows: seq<ParsedRow>, o: Outcomes)
    ensures var fin := ImportOf(existing, rows, o);
      && fin.ticketsCreated == |fin.tickets| && fin.employeesCreated == |fin.profiles|
      && fin.ticketsCreated <= TotalTickets(rows)
      && (AllSucceed(o) ==> fin.ticketsCreated == TotalTickets(rows))
  {
    RowsFoldCounts(ImportState(ExistingMap(existing), 0, 0, [], []), rows, o);
  }

  /** Every inserted ticket is the ticket of one of the rows. */
  ghost predicate TicketsFrom(st: ImportState, rows: seq<ParsedRow>) {
    forall t :: t in st.tickets ==> exists i :: 0 <= i < |rows| && t == TicketOf(rows[i], t.userId)
  }

  lemma {:induction false} PeopleFoldTickets(
    st: ImportState, rows: seq<ParsedRow>, i: nat, people: seq<string>, o: Outcomes)
    requires i < |rows| && TicketsFrom(st, rows)
    ensures TicketsFrom(PeopleFold(st, rows[i], i, people, o), rows)
    decreases |people|
  {
    if people != [] {
      var n := |people| - 1;
      PeopleFoldTickets(st, rows, i, people[..n], o);
    }
  }

  lemma {:induction false} RowsFoldTickets(st: ImportState, rows: seq<ParsedRow>, o: Outcomes)
    requires st.tickets == []
    ensures TicketsFrom(RowsFold(st, rows, o), rows)
    decreases |rows|
  {
    if rows != [] {
      var n := |rows| - 1;
      var p := rows[..n];
      RowsFoldTickets(st, p, o);
      var mid := RowsFold(st, p, o);
      forall t | t in mid.tickets ensures exists i :: 0 <= i < |rows| && t == TicketOf(rows[i], t.userId) {
        var i :| 0 <= i < |p| && t == TicketOf(p[i], t.userId);
        assert p[i] == rows[i];
      }
      PeopleFoldTickets(mid, rows, n, rows[n].people, o);
    }
  }

  /** Each ticket copies one row's DIR number, title and date, carries that
      row's full hours (not divided among its people) and is `pending`. */
  lemma ImportTickets(existing: seq<ExistingProfile>, rows: seq<ParsedRow>, o: Outcomes)
    ensures forall t :: t in ImportOf(existing, rows, o).tickets ==>
      t.status == Pending && exists i :: (0 <= i < |rows| &&
        t.dirNumber == rows[i].dirNumber && t.projectTitle == rows[i].projectTitle
        && t.dateWorked == rows[i].dateWorked && t.hoursWorked == rows[i].totalHours)
  {
    RowsFoldTickets(ImportState(ExistingMap(existing), 0, 0, [], []), rows, o);
  }

  // ---- one profile per name ----

  function NameOf(p: Profile): string {
    if p.fullName.Some? then ToLower(p.fullName.value) else ""
  }

  /** The created profiles are placeholders whose lower-cased names are in
      the lookup under their own (non-empty) ids, pairwise different, and
      none of them was known with a non-empty id; known ids survive. */
  ghost predicate Unique(m0: map<string, string>, st: ImportState) {
    && (forall a :: 0 <= a < |st.profiles| ==>
          && st.profiles[a].fullName.Some? && st.profiles[a].id != ""
          && st.profiles[a] == Placeholder(st.profiles[a].id, st.profiles[a].fullName.value)
          && NameOf(st.profiles[a]) in st.profileMap && st.profileMap[NameOf(st.profiles[a])] == st.profiles[a].id
          && Found(m0, NameOf(st.profiles[a])) == "")
    && (forall a, b :: 0 <= a < b < |st.profiles| ==> NameOf(st.profiles[a]) != NameOf(st.profiles[b]))
    && (forall k :: k in m0 && m0[k] != "" ==> k in st.profileMap && st.profileMap[k] == m0[k])
  }

  /** Ids `crypto.randomUUID()` gives are not empty. */
  ghost predicate FreshIds(o: Outcomes) {
    forall i: nat, j: nat :: o.freshId(i, j) != ""
  }

  lemma PersonStepUnique(m0: map<string, string>, st: ImportState, row: ParsedRow, name: string, i: nat, j: nat, o: Outcomes)
    requires FreshIds(o) && Unique(m0, st)
    ensures Unique(m0, PersonStep(st, row, name, i, j, o))
  {
    var lower := ToLower(name);
    if Found(st.profileMap, lower) == "" && o.profileOk(i, j) {
      var r := PersonStep(st, row, name, i, j, o);
      var n := |st.profiles|;
      assert r.profiles == st.profiles + [Placeholder(o.freshId(i, j), name)];
      assert NameOf(r.profiles[n]) == lower;
      forall a | 0 <= a < n ensures NameOf(st.profiles[a]) != lower {
        assert st.profileMap[NameOf(st.profiles[a])] != "";
      }
    }
  }

  lemma {:induction false} PeopleFoldUnique(
    m0: map<string, string>, st: ImportState, row: ParsedRow, i: nat, people: seq<string>, o: Outcomes)
    requires FreshIds(o) && Unique(m0, st)
    ensures Unique(m0, PeopleFold(st, row, i, people, o))
    decreases |people|
  {
    if people != [] {
      var n := |people| - 1;
      PeopleFoldUnique(m0, st, row, i, people[..n], o);
      PersonStepUnique(m0, PeopleFold(st, row, i, people[..n], o), row, people[n], i, n, o);
    }
  }

  lemma {:induction false} RowsFoldUnique(m0: map<string, string>, st: ImportState, rows: seq<ParsedRow>, o: Outcomes)
    requires FreshIds(o) && Unique(m0, st)
    ensures Unique(m0, RowsFold(st, rows, o))
    decreases |rows|
  {
    if rows != [] {
      var n := |rows| - 1;
      RowsFoldUnique(m0, st, rows[..n], o);
      PeopleFoldUnique(m0, RowsFold(st, rows[..n], o), rows[n], n, rows[n].people, o);
    }
  }

  /** However often and in whatever letter case a name recurs, it gets at
      most one new profile, and none if an existing profile already has it;
      every new profile is a placeholder. */
  lemma ImportOneProfilePerName(existing: seq<ExistingProfile>, rows: seq<ParsedRow>, o: Outcomes)
    requires FreshIds(o)
    ensures var fin := ImportOf(existing, rows, o);
      && (forall a, b :: 0 <= a < b < |fin.profiles| ==> NameOf(fin.profiles[a]) != NameOf(fin.profiles[b]))
      && (forall a :: 0 <= a < |fin.profiles| ==>
            && fin.profiles[a].fullName.Some?
            && fin.profiles[a] == Placeholder(fin.profiles[a].id, fin.profiles[a].fullName.value)
            && Found(ExistingMap(existing), NameOf(fin.profiles[a])) == "")
  {
    var m0 := ExistingMap(existing);
    RowsFoldUnique(m0, ImportState(m0, 0, 0, [], []), rows, o);
  }

  // ---- whose ticket ----

  /** Ticket `t` copies `row` and belongs to the id the lookup `m` holds for
      the lower-cased `name`. */
  predicate Owned(t: TicketInsert, row: ParsedRow, name: string, m: map<string, string>) {
    ToLower(name) in m && m[ToLower(name)] == t.userId && t.userId != "" && t == TicketOf(row, t.userId)
  }

  /** Every inserted ticket is owned, through the current lookup, by a person
      of one of the rows. */
  ghost predicate TicketsOwned(st: ImportState, rows: seq<ParsedRow>) {
    forall t :: t in st.tickets ==>
      exists i, name :: 0 <= i < |rows| && name in rows[i].people && Owned(t, rows[i], name, st.profileMap)
  }

  /** Every non-empty id the lookup holds for a name not known at the start
      is the id of a created profile with that name. */
  ghost predicate MapOrigin(m0: map<string, string>, st: ImportState) {
    forall k :: k in st.profileMap && st.profileMap[k] != "" && Found(m0, k) == "" ==>
      exists a :: 0 <= a < |st.profiles| && NameOf(st.profiles[a]) == k
  }

  lemma PersonStepOwned(st: ImportState, rows: seq<ParsedRow>, i: nat, name: string, j: nat, o: Outcomes)
    requires FreshIds(o) && i < |rows| && name in rows[i].people && TicketsOwned(st, rows)
    ensures TicketsOwned(PersonStep(st, rows[i], name, i, j, o), rows)
  {
    var r := PersonStep(st, rows[i], name, i, j, o);
    forall t | t in r.tickets
      ensures exists i', name' :: 0 <= i' < |rows| && name' in rows[i'].people && Owned(t, rows[i'], name', r.profileMap)
    {
      if t in st.tickets {
        var i', name' :| 0 <= i' < |rows| && name' in rows[i'].people && Owned(t, rows[i'], name', st.profileMap);
        PersonStepKeeps(st, rows[i], name, i, j, o, ToLower(name'));
        assert Owned(t, rows[i'], name', r.profileMap);
      } else {
        assert Owned(t, rows[i], name, r.profileMap);
      }
    }
  }

  lemma PersonStepOrigin(m0: map<string, string>, st: ImportState, row: ParsedRow, name: string, i: nat, j: nat, o: Outcomes)
    requires MapOrigin(m0, st)
    ensures MapOrigin(m0, PersonStep(st, row, name, i, j, o))
  {
    var lower := ToLower(name);
    var r := PersonStep(st, row, name, i, j, o);
    if Found(st.profileMap, lower) == "" && o.profileOk(i, j) {
      var n := |st.profiles|;
      assert r.profiles == st.profiles + [Placeholder(o.freshId(i, j), name)];
      assert NameOf(r.profiles[n]) == lower;
      forall k | k in r.profileMap && r.profileMap[k] != "" && Found(m0, k) == ""
        ensures exists a :: 0 <= a < |r.profiles| && NameOf(r.profiles[a]) == k
      {
        if k != lower {
          var a :| 0 <= a < n && NameOf(st.profiles[a]) == k;
          assert r.profiles[a] == st.profiles[a];
        }
      }
    }
  }

  lemma {:induction false} PeopleFoldOwned(
    m0: map<string, string>, st: ImportState, rows: seq<ParsedRow>, i: nat, people: seq<string>, o: Outcomes)
    requires FreshIds(o) && i < |rows| && (forall q :: q in people ==> q in rows[i].people)
    requires TicketsOwned(st, rows) && MapOrigin(m0, st)
    ensures var r := PeopleFold(st, rows[i], i, people, o);
      TicketsOwned(r, rows) && MapOrigin(m0, r)
    decreases |people|
  {
    if people != [] {
      var n := |people| - 1;
      assert forall q :: q in people[..n] ==> q in people;
      PeopleFoldOwned(m0, st, rows, i, people[..n], o);
      var mid := PeopleFold(st, rows[i], i, people[..n], o);
      PersonStepOwned(mid, rows, i, people[n], n, o);
      PersonStepOrigin(m0, mid, rows[i], people[n], i, n, o);
    }
  }

  /** Ownership through a prefix of the rows is ownership through the rows. */
  lemma OwnedWiden(st: ImportState, p: seq<ParsedRow>, rows: seq<ParsedRow>)
    requires |p| <= |rows| && p == rows[..|p|] && TicketsOwned(st, p)
    ensures TicketsOwned(st, rows)
  {
    forall t | t in st.tickets
      ensures exists i, name :: 0 <= i < |rows| && name in rows[i].people && Owned(t, rows[i], name, st.profileMap)
    {
      var i, name :| 0 <= i < |p| && name in p[i].people && Owned(t, p[i], name, st.profileMap);
      assert p[i] == rows[i];
    }
  }

  lemma {:induction false} RowsFoldOwned(m0: map<string, string>, st: ImportState, rows: seq<ParsedRow>, o: Outcomes)
    requires FreshIds(o) && st.tickets == [] && MapOrigin(m0, st)
    ensures var r := RowsFold(st, rows, o);
      TicketsOwned(r, rows) && MapOrigin(m0, r)
    decreases |rows|
  {
    if rows != [] {
      var n := |rows| - 1;
      var p := rows[..n];
      RowsFoldOwned(m0, st, p, o);
      var mid := RowsFold(st, p, o);
      OwnedWiden(mid, p, rows);
      PeopleFoldOwned(m0, mid, rows, n, rows[n].people, o);
    }
  }

  /** A non-empty id in the final lookup is the id an existing profile gave
      that name, or, for a name not known before, the id of the created
      profile with that name. */
  lemma ImportIdOrigin(existing: seq<ExistingProfile>, rows: seq<ParsedRow>, o: Outcomes, k: string)
    requires FreshIds(o)
    ensures var fin := ImportOf(existing, rows, o); var m0 := ExistingMap(existing);
      && (Found(m0, k) != "" ==> k in fin.profileMap && fin.profileMap[k] == m0[k])
      && (k in fin.profileMap && fin.profileMap[k] != "" && Found(m0, k) == "" ==>
            exists a :: 0 <= a < |fin.profiles| && NameOf(fin.profiles[a]) == k && fin.profiles[a].id == fin.profileMap[k])
  {
    var m0 := ExistingMap(existing);
    var st := ImportState(m0, 0, 0, [], []);
    RowsFoldUnique(m0, st, rows, o);
    RowsFoldOwned(m0, st, rows, o);
  }

  /** Each ticket goes to the id the final lookup holds for the lower-cased
      name of a person of its row: so every occurrence of a name, in any
      letter case, gets the same id, which is the existing profile's id when
      the name was known and otherwise the id of the one profile created for
      it. */
  lemma ImportTicketOwners(existing: seq<ExistingProfile>, rows: seq<ParsedRow>, o: Outcomes)
    requires FreshIds(o)
    ensures var fin := ImportOf(existing, rows, o); var m0 := ExistingMap(existing);
      forall t :: t in fin.tickets ==>
        exists i, name :: (
          && 0 <= i < |rows| && name in rows[i].people
          && t == TicketOf(rows[i], t.userId) && t.userId != ""
          && ToLower(name) in fin.profileMap && t.userId == fin.profileMap[ToLower(name)]
          && (Found(m0, ToLower(name)) != "" ==> t.userId == m0[ToLower(name)])
          && (Found(m0, ToLower(name)) == "" ==>
                exists a :: 0 <= a < |fin.profiles| && NameOf(fin.profiles[a]) == ToLower(name) && fin.profiles[a].id == t.userId))
  {
    var m0 := ExistingMap(existing);
    var fin := ImportOf(existing, rows, o);
    RowsFoldOwned(m0, ImportState(m0, 0, 0, [], []), rows, o);
    forall t | t in fin.tickets
      ensures exists i, name :: (
          && 0 <= i < |rows| && name in rows[i].people
          && t == TicketOf(rows[i], t.userId) && t.userId != ""
          && ToLower(name) in fin.profileMap && t.userId == fin.profileMap[ToLower(name)]
          && (Found(m0, ToLower(name)) != "" ==> t.userId == m0[ToLower(name)])
          && (Found(m0, ToLower(name)) == "" ==>
                exists a :: 0 <= a < |fin.profiles| && NameOf(fin.profiles[a]) == ToLower(name) && fin.profiles[a].id == t.userId))
    {
      var i, name :| 0 <= i < |rows| && name in rows[i].people && Owned(t, rows[i], name, fin.profileMap);
      ImportIdOrigin(existing, rows, o, ToLower(name));
    }
  }

  // ---- one ticket per person per row ----

  /** The tickets of one row's people, in order, each for the id `m` holds
      for the person's lower-cased name. */
  function RowTickets(row: ParsedRow, m: map<string, string>, people: seq<string>): seq<TicketInsert> {
    if people == [] then []
    else
      var n := |people| - 1;
      RowTickets(row, m, people[..n]) + [TicketOf(row, Found(m, ToLower(people[n])))]
  }

  /** The tickets of all rows, row after row. */
  function AllTickets(rows: seq<ParsedRow>, m: map<string, string>): seq<TicketInsert> {
    if rows == [] then []
    else
      var n := |rows| - 1;
      AllTickets(rows[..n], m) + RowTickets(rows[n], m, rows[n].people)
  }

  /** `big` keeps every non-empty id of `m`. */
  ghost predicate Extends(big: map<string, string>, m: map<string, string>) {
    forall k :: k in m && m[k] != "" ==> k in big && big[k] == m[k]
  }

  lemma ExtendsTrans(a: map<string, string>, b: map<string, string>, c: map<string, string>)
    requires Extends(a, b) && Extends(b, c)
    ensures Extends(a, c)
  {
  }

  /** Each step keeps every non-empty id of the lookup. */
  lemma PersonStepExtends(st: ImportState, row: ParsedRow, name: string, i: nat, j: nat, o: Outcomes)
    ensures Extends(PersonStep(st, row, name, i, j, o).profileMap, st.profileMap)
  {
  }

  lemma {:induction false} PeopleFoldExtends(st: ImportState, row: ParsedRow, i: nat, people: seq<string>, o: Outcomes)
    ensures Extends(PeopleFold(st, row, i, people, o).profileMap, st.profileMap)
    decreases |people|
  {
    if people != [] {
      var n := |people| - 1;
      var mid := PeopleFold(st, row, i, people[..n], o);
      PeopleFoldExtends(st, row, i, people[..n], o);
      PersonStepExtends(mid, row, people[n], i, n, o);
      ExtendsTrans(PersonStep(mid, row, people[n], i, n, o).profileMap, mid.profileMap, st.profileMap);
    }
  }

  lemma {:induction false} RowsFoldExtends(st: ImportState, rows: seq<ParsedRow>, o: Outcomes)
    ensures Extends(RowsFold(st, rows, o).profileMap, st.profileMap)
    decreases |rows|
  {
    if rows != [] {
      var n := |rows| - 1;
      var mid := RowsFold(st, rows[..n], o);
      RowsFoldExtends(st, rows[..n], o);
      PeopleFoldExtends(mid, rows[n], n, rows[n].people, o);
      ExtendsTrans(PeopleFold(mid, rows[n], n, rows[n].people, o).profileMap, mid.profileMap, st.profileMap);
    }
  }

  /** With both inserts succeeding and a non-empty fresh id, a person step
      adds exactly the ticket for the id the lookup then holds for the
      name. */
  lemma PersonStepTicket(st: ImportState, row: ParsedRow, name: string, i: nat, j: nat, o: Outcomes)
    requires o.profileOk(i, j) && o.ticketOk(i, j) && o.freshId(i, j) != ""
    ensures var r := PersonStep(st, row, name, i, j, o);
      && Found(r.profileMap, ToLower(name)) != ""
      && r.tickets == st.tickets + [TicketOf(row, Found(r.profileMap, ToLower(name)))]
  {
  }

  /** The inner loop adds one ticket per person, each for the id any
      lookup extending its final one holds for the person's name. */
  lemma {:induction false} PeopleFoldAll(
    st: ImportState, row: ParsedRow, i: nat, people: seq<string>, o: Outcomes, big: map<string, string>)
    requires AllSucceed(o) && FreshIds(o)
    requires Extends(big, PeopleFold(st, row, i, people, o).profileMap)
    ensures PeopleFold(st, row, i, people, o).tickets == st.tickets + RowTickets(row, big, people)
    ensures forall j :: 0 <= j < |people| ==> Found(big, ToLower(people[j])) != ""
    decreases |people|
  {
    if people != [] {
      var n := |people| - 1;
      var mid := PeopleFold(st, row, i, people[..n], o);
      var r := PersonStep(mid, row, people[n], i, n, o);
      var lower := ToLower(people[n]);
      PersonStepTicket(mid, row, people[n], i, n, o);
      PersonStepExtends(mid, row, people[n], i, n, o);
      ExtendsTrans(big, r.profileMap, mid.profileMap);
      PeopleFoldAll(st, row, i, people[..n], o, big);
      assert Found(big, lower) == Found(r.profileMap, lower);
      assert RowTickets(row, big, people) == RowTickets(row, big, people[..n]) + [TicketOf(row, Found(big, lower))];
      TicketsAssoc(st.tickets, RowTickets(row, big, people[..n]), [TicketOf(row, Found(big, lower))]);
      forall j | 0 <= j < |people| ensures Found(big, ToLower(people[j])) != "" {
        if j < n {
          assert people[..n][j] == people[j];
        }
      }
    }
  }

  lemma TicketsAssoc(a: seq<TicketInsert>, b: seq<TicketInsert>, c: seq<TicketInsert>)
    ensures a + b + c == a + (b + c)
  {
  }

  /** The outer loop adds the tickets of the rows, row after row. */
  lemma {:induction false} RowsFoldAll(st: ImportState, rows: seq<ParsedRow>, o: Outcomes, big: map<string, string>)
    requires AllSucceed(o) && FreshIds(o)
    requires Extends(big, RowsFold(st, rows, o).profileMap)
    ensures RowsFold(st, rows, o).tickets == st.tickets + AllTickets(rows, big)
    decreases |rows|
  {
    if rows != [] {
      var n := |rows| - 1;
      var mid := RowsFold(st, rows[..n], o);
      var r := PeopleFold(mid, rows[n], n, rows[n].people, o);
      PeopleFoldAll(mid, rows[n], n, rows[n].people, o, big);
      PeopleFoldExtends(mid, rows[n], n, rows[n].people, o);
      ExtendsTrans(big, r.profileMap, mid.profileMap);
      RowsFoldAll(st, rows[..n], o, big);
      TicketsAssoc(st.tickets, AllTickets(rows[..n], big), RowTickets(rows[n], big, rows[n].people));
    }
  }

  /** Every person of every row has a non-empty id in any lookup extending
      the final one. */
  lemma {:induction false} RowsFoldFound(st: ImportState, rows: seq<ParsedRow>, o: Outcomes, big: map<string, string>)
    requires AllSucceed(o) && FreshIds(o)
    requires Extends(big, RowsFold(st, rows, o).profileMap)
    ensures forall i, j :: 0 <= i < |rows| && 0 <= j < |rows[i].people| ==> Found(big, ToLower(rows[i].people[j])) != ""
    decreases |rows|
  {
    if rows != [] {
      var n := |rows| - 1;
      var mid := RowsFold(st, rows[..n], o);
      var r := PeopleFold(mid, rows[n], n, rows[n].people, o);
      PeopleFoldAll(mid, rows[n], n, rows[n].people, o, big);
      PeopleFoldExtends(mid, rows[n], n, rows[n].people, o);
      ExtendsTrans(big, r.profileMap, mid.profileMap);
      RowsFoldFound(st, rows[..n], o, big);
      forall i, j | 0 <= i < |rows| && 0 <= j < |rows[i].people| ensures Found(big, ToLower(rows[i].people[j])) != "" {
        if i < n {
          assert rows[..n][i] == rows[i];
        }
      }
    }
  }

  /** Ticket `j` of a row's tickets is the ticket of person `j`. */
  lemma {:induction false} RowTicketsAt(row: ParsedRow, m: map<string, string>, people: seq<string>, j: nat)
    requires j < |people|
    ensures |RowTickets(row, m, people)| == |people|
    ensures RowTickets(row, m, people)[j] == TicketOf(row, Found(m, ToLower(people[j])))
    decreases |people|
  {
    var n := |people| - 1;
    RowTicketsLength(row, m, people[..n]);
    if j < n {
      RowTicketsAt(row, m, people[..n], j);
    }
  }

  lemma {:induction false} RowTicketsLength(row: ParsedRow, m: map<string, string>, people: seq<string>)
    ensures |RowTickets(row, m, people)| == |people|
    decreases |people|
  {
    if people != [] {
      RowTicketsLength(row, m, people[..|people| - 1]);
    }
  }

  lemma {:induction false} AllTicketsLength(rows: seq<ParsedRow>, m: map<string, string>)
    ensures |AllTickets(rows, m)| == TotalTickets(rows)
    decreases |rows|
  {
    if rows != [] {
      var n := |rows| - 1;
      AllTicketsLength(rows[..n], m);
      RowTicketsLength(rows[n], m, rows[n].people);
    }
  }

  /** The ticket of person `j` of row `i` sits after the tickets of the
      earlier rows and of the row's earlier people. */
  lemma {:induction false} AllTicketsAt(rows: seq<ParsedRow>, m: map<string, string>, i: nat, j: nat)
    requires i < |rows| && j < |rows[i].people|
    ensures TotalTickets(rows[..i]) + j < |AllTickets(rows, m)|
    ensures AllTickets(rows, m)[TotalTickets(rows[..i]) + j] == TicketOf(rows[i], Found(m, ToLower(rows[i].people[j])))
    decreases |rows|
  {
    var n := |rows| - 1;
    var p := rows[..n];
    AllTicketsLength(p, m);
    AllTicketsLength(rows, m);
    if i < n {
      assert p[i] == rows[i];
      assert p[..i] == rows[..i];
      AllTicketsAt(p, m, i, j);
      TotalTicketsPrefix(rows, i);
    } else {
      assert rows[..i] == p;
      RowTicketsAt(rows[n], m, rows[n].people, j);
    }
  }

  lemma {:induction false} TotalTicketsPrefix(rows: seq<ParsedRow>, i: nat)
    requires i < |rows|
    ensures TotalTickets(rows[..i]) + |rows[i].people| <= TotalTickets(rows)
    decreases |rows|
  {
    var n := |rows| - 1;
    if i < n {
      assert rows[..n][..i] == rows[..i];
      assert rows[..n][i] == rows[i];
      TotalTicketsPrefix(rows[..n], i);
    } else {
      assert rows[..i] == rows[..n];
    }
  }

  /** When every insert succeeds, the tickets are exactly one per person
      per row, row after row and person after person, each for the id the
      final lookup holds for the person's lower-cased name, which is
      present for every person. */
  lemma ImportTicketList(existing: seq<ExistingProfile>, rows: seq<ParsedRow>, o: Outcomes)
    requires AllSucceed(o) && FreshIds(o)
    ensures var fin := ImportOf(existing, rows, o);
      && fin.tickets == AllTickets(rows, fin.profileMap)
      && |fin.tickets| == TotalTickets(rows)
      && forall i, j :: 0 <= i < |rows| && 0 <= j < |rows[i].people| ==> Found(fin.profileMap, ToLower(rows[i].people[j])) != ""
  {
    var fin := ImportOf(existing, rows, o);
    RowsFoldAll(ImportState(ExistingMap(existing), 0, 0, [], []), rows, o, fin.profileMap);
    RowsFoldFound(ImportState(ExistingMap(existing), 0, 0, [], []), rows, o, fin.profileMap);
    AllTicketsLength(rows, fin.profileMap);
  }

  /** When every insert succeeds, ticket `TotalTickets(rows[..i]) + j` is
      row `i`'s ticket for person `j`'s id in the final lookup. */
  lemma ImportTicketAt(existing: seq<ExistingProfile>, rows: seq<ParsedRow>, o: Outcomes, i: nat, j: nat)
    requires AllSucceed(o) && FreshIds(o)
    requires i < |rows| && j < |rows[i].people|
    ensures var fin := ImportOf(existing, rows, o);
      && TotalTickets(rows[..i]) + j < |fin.tickets|
      && ToLower(rows[i].people[j]) in fin.profileMap
      && fin.tickets[TotalTickets(rows[..i]) + j] == TicketOf(rows[i], fin.profileMap[ToLower(rows[i].people[j])])
  {
    var fin := ImportOf(existing, rows, o);
    ImportTicketList(existing, rows, o);
    AllTicketsAt(rows, fin.profileMap, i, j);
    assert Found(fin.profileMap, ToLower(rows[i].people[j])) != "";
  }
}
