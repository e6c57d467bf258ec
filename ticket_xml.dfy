/** The per-ticket DIR export: `escapeXml`, the XML document for one
    ticket, and the route's guard chain. */
module TicketXml {
  import opened Common
  import opened Domain

  // ---- escapeXml ----

  /** `s.replace(/c/g, rep)`. */
  function ReplaceAll(s: string, c: char, rep: string): string
  {
    if s == [] then [] else (if s[0] == c then rep else [s[0]]) + ReplaceAll(s[1..], c, rep)
  }

  lemma {:induction false} ReplaceAllConcat(a: string, b: string, c: char, rep: string)
    ensures ReplaceAll(a + b, c, rep) == ReplaceAll(a, c, rep) + ReplaceAll(b, c, rep)
    decreases |a|
  {
    if a == [] {
      assert a + b == b;
    } else {
      assert (a + b)[1..] == a[1..] + b;
      ReplaceAllConcat(a[1..], b, c, rep);
    }
  }

  lemma {:induction false} ReplaceAllAbsent(s: string, c: char, rep: string)
    requires c !in s
    ensures ReplaceAll(s, c, rep) == s
    decreases |s|
  {
    if s != [] {
      ReplaceAllAbsent(s[1..], c, rep);
    }
  }

  /** One `.replace(/target/g, entity)` of the chain. */
  datatype Replacement = Replacement(target: char, entity: string)

  /** The replacements of `escapeXml`, in the order it applies them. */
  const EscapeReplacements: seq<Replacement> := [
    Replacement('&', "&amp;"), Replacement('<', "&lt;"), Replacement('>', "&gt;"),
    Replacement('"', "&quot;"), Replacement('\'', "&apos;")]

  /** A chain of global replacements, applied left to right. */
  function ReplaceEach(s: string, reps: seq<Replacement>): string
    decreases |reps|
  {
    if reps == [] then s else ReplaceEach(ReplaceAll(s, reps[0].target, reps[0].entity), reps[1..])
  }

  /** `escapeXml`. */
  function EscapeXml(s: string): string {
    ReplaceEach(s, EscapeReplacements)
  }

  /** The characters that must not appear raw in element content or attributes. */
  predicate Markup(c: char) {
    c == '<' || c == '>' || c == '"' || c == '\''
  }

  predicate Special(c: char) {
    c == '&' || Markup(c)
  }

  /** The predefined entity of section 4.6 of XML 1.0 for a special character,
      and the character itself otherwise. */
  function EntityOf(c: char): string {
    match c
    case '&' => "&amp;"
    case '<' => "&lt;"
    case '>' => "&gt;"
    case '"' => "&quot;"
    case '\'' => "&apos;"
    case _ => [c]
  }

  /** The reference escaper: each character replaced by its entity in one pass. */
  function EscapeEach(s: string): string {
    if s == [] then [] else EntityOf(s[0]) + EscapeEach(s[1..])
  }

  lemma {:induction false} ReplaceEachConcat(a: string, b: string, reps: seq<Replacement>)
    ensures ReplaceEach(a + b, reps) == ReplaceEach(a, reps) + ReplaceEach(b, reps)
    decreases |reps|
  {
    if reps != [] {
      ReplaceAllConcat(a, b, reps[0].target, reps[0].entity);
      ReplaceEachConcat(ReplaceAll(a, reps[0].target, reps[0].entity), ReplaceAll(b, reps[0].target, reps[0].entity), reps[1..]);
    }
  }

  lemma EscapeXmlConcat(a: string, b: string)
    ensures EscapeXml(a + b) == EscapeXml(a) + EscapeXml(b)
  {
    ReplaceEachConcat(a, b, EscapeReplacements);
  }

  lemma ReplaceAllSingle(x: char, c: char, rep: string)
    ensures ReplaceAll([x], c, rep) == if x == c then rep else [x]
  {
    assert [x][1..] == [];
  }

  lemma {:induction false} ReplaceEachAbsent(s: string, reps: seq<Replacement>)
    requires forall j :: 0 <= j < |reps| ==> reps[j].target !in s
    ensures ReplaceEach(s, reps) == s
    decreases |reps|
  {
    if reps != [] {
      ReplaceAllAbsent(s, reps[0].target, reps[0].entity);
      ReplaceEachAbsent(s, reps[1..]);
    }
  }

  /** A single character meets the replacement for it at position `k`; the
      earlier ones pass it through and the later ones find none of their
      targets in its entity. */
  lemma {:induction false} ReplaceEachOne(x: char, reps: seq<Replacement>, k: nat)
    requires k < |reps| && reps[k].target == x
    requires forall j :: 0 <= j < k ==> reps[j].target != x
    requires forall j :: k < j < |reps| ==> reps[j].target !in reps[k].entity
    ensures ReplaceEach([x], reps) == reps[k].entity
    decreases k
  {
    ReplaceAllSingle(x, reps[0].target, reps[0].entity);
    if k == 0 {
      ReplaceEachAbsent(reps[0].entity, reps[1..]);
    } else {
      ReplaceEachOne(x, reps[1..], k - 1);
    }
  }

  lemma {:induction false} ReplaceEachNone(x: char, reps: seq<Replacement>)
    requires forall j :: 0 <= j < |reps| ==> reps[j].target != x
    ensures ReplaceEach([x], reps) == [x]
    decreases |reps|
  {
    if reps != [] {
      ReplaceAllSingle(x, reps[0].target, reps[0].entity);
      ReplaceEachNone(x, reps[1..]);
    }
  }

  lemma EscapeXmlFirstTwo(x: char)
    requires x == '&' || x == '<'
    ensures EscapeXml([x]) == EntityOf(x)
  {
    if x == '&' {
      ReplaceEachOne(x, EscapeReplacements, 0);
    } else {
      ReplaceEachOne(x, EscapeReplacements, 1);
    }
  }

  lemma EscapeXmlLastThree(x: char)
    requires x == '>' || x == '"' || x == '\''
    ensures EscapeXml([x]) == EntityOf(x)
  {
    if x == '>' {
      ReplaceEachOne(x, EscapeReplacements, 2);
    } else if x == '"' {
      ReplaceEachOne(x, EscapeReplacements, 3);
    } else {
      ReplaceEachOne(x, EscapeReplacements, 4);
    }
  }

  /** Escaping a single character: the later replacements never touch the
      entity an earlier one produced, since `&` is replaced first. */
  lemma EscapeXmlChar(x: char)
    ensures EscapeXml([x]) == EntityOf(x)
  {
    if x == '&' || x == '<' {
      EscapeXmlFirstTwo(x);
    } else if x == '>' || x == '"' || x == '\'' {
      EscapeXmlLastThree(x);
    } else {
      ReplaceEachNone(x, EscapeReplacements);
    }
  }

  /** The chain of five global replacements equals the one-pass escaper. */
  lemma {:induction false} EscapeXmlIsEscapeEach(s: string)
    ensures EscapeXml(s) == EscapeEach(s)
    decreases |s|
  {
    if s != [] {
      assert s == [s[0]] + s[1..];
      EscapeXmlConcat([s[0]], s[1..]);
      EscapeXmlChar(s[0]);
      EscapeXmlIsEscapeEach(s[1..]);
    }
  }

  lemma {:induction false} EscapeEachNoMarkup(s: string)
    ensures forall i :: 0 <= i < |EscapeEach(s)| ==> !Markup(EscapeEach(s)[i])
    decreases |s|
  {
    if s != [] {
      EscapeEachNoMarkup(s[1..]);
      var e, r := EntityOf(s[0]), EscapeEach(s[1..]);
      assert EscapeEach(s) == e + r;
      assert forall i :: 0 <= i < |e| ==> !Markup(e[i]);
    }
  }

  /** No `<`, `>`, `"` or `'` survives escaping. */
  lemma EscapeXmlNoMarkup(s: string)
    ensures forall i :: 0 <= i < |EscapeXml(s)| ==> !Markup(EscapeXml(s)[i])
  {
    EscapeXmlIsEscapeEach(s);
    EscapeEachNoMarkup(s);
  }

  /** One of the five entities starts at index `i` of `t`. */
  predicate EntityAt(t: string, i: int) {
    OccursAt(t, "&amp;", i) || OccursAt(t, "&lt;", i) || OccursAt(t, "&gt;", i)
    || OccursAt(t, "&quot;", i) || OccursAt(t, "&apos;", i)
  }

  lemma OccursAtShift(e: string, r: string, sub: string, i: int)
    requires OccursAt(r, sub, i)
    ensures OccursAt(e + r, sub, i + |e|)
  {
    assert (e + r)[i + |e|..i + |e| + |sub|] == r[i..i + |sub|];
  }

  lemma EntityAtShift(e: string, r: string, i: int)
    requires EntityAt(r, i)
    ensures EntityAt(e + r, i + |e|)
  {
    if OccursAt(r, "&amp;", i) { OccursAtShift(e, r, "&amp;", i); }
    if OccursAt(r, "&lt;", i) { OccursAtShift(e, r, "&lt;", i); }
    if OccursAt(r, "&gt;", i) { OccursAtShift(e, r, "&gt;", i); }
    if OccursAt(r, "&quot;", i) { OccursAtShift(e, r, "&quot;", i); }
    if OccursAt(r, "&apos;", i) { OccursAtShift(e, r, "&apos;", i); }
  }

  /** Putting an entity (or a plain character) in front keeps every `&`
      at the start of an entity. */
  lemma AmpersandsPrepend(x: char, r: string)
    requires forall i :: 0 <= i < |r| && r[i] == '&' ==> EntityAt(r, i)
    ensures var t := EntityOf(x) + r;
      forall i :: 0 <= i < |t| && t[i] == '&' ==> EntityAt(t, i)
  {
    var e := EntityOf(x);
    var t := e + r;
    forall i | 0 <= i < |t| && t[i] == '&' ensures EntityAt(t, i) {
      if i < |e| {
        assert e[i] == '&';
        assert i == 0 && Special(x);
        assert t[..|e|] == e;
      } else {
        assert r[i - |e|] == '&';
        EntityAtShift(e, r, i - |e|);
      }
    }
  }

  lemma {:induction false} EscapeEachAmpersands(s: string)
    ensures forall i :: 0 <= i < |EscapeEach(s)| && EscapeEach(s)[i] == '&' ==> EntityAt(EscapeEach(s), i)
    decreases |s|
  {
    if s != [] {
      EscapeEachAmpersands(s[1..]);
      AmpersandsPrepend(s[0], EscapeEach(s[1..]));
    }
  }

  /** Every `&` of the output starts an entity, so no entity is escaped twice
      and no bare `&` remains. */
  lemma EscapeXmlAmpersands(s: string)
    ensures forall i :: 0 <= i < |EscapeXml(s)| && EscapeXml(s)[i] == '&' ==> EntityAt(EscapeXml(s), i)
  {
    EscapeXmlIsEscapeEach(s);
    EscapeEachAmpersands(s);
  }

  /** Decoding of the five entities, left to right. */
  function Unescape(t: string): string
    decreases |t|
  {
    if t == [] then []
    else if StartsWith(t, "&amp;") then "&" + Unescape(t[5..])
    else if StartsWith(t, "&lt;") then "<" + Unescape(t[4..])
    else if StartsWith(t, "&gt;") then ">" + Unescape(t[4..])
    else if StartsWith(t, "&quot;") then "\"" + Unescape(t[6..])
    else if StartsWith(t, "&apos;") then "'" + Unescape(t[6..])
    else [t[0]] + Unescape(t[1..])
  }

  lemma StartsWithConcat(p: string, r: string)
    ensures StartsWith(p + r, p) && (p + r)[|p|..] == r
  {
    assert (p + r)[..|p|] == p;
  }

  lemma NotStartsWith(t: string, p: string, k: nat)
    requires k < |p| && k < |t| && t[k] != p[k]
    ensures !StartsWith(t, p)
  {
    if |p| <= |t| {
      assert t[..|p|][k] == t[k];
    }
  }

  lemma UnescapeEntity(x: char, r: string)
    ensures Unescape(EntityOf(x) + r) == [x] + Unescape(r)
  {
    var e := EntityOf(x);
    var t := e + r;
    StartsWithConcat(e, r);
    if !Special(x) {
      NotStartsWith(t, "&amp;", 0);
      NotStartsWith(t, "&lt;", 0);
      NotStartsWith(t, "&gt;", 0);
      NotStartsWith(t, "&quot;", 0);
      NotStartsWith(t, "&apos;", 0);
      assert t[0] == x && t[1..] == r;
    } else if x == '<' {
      NotStartsWith(t, "&amp;", 1);
    } else if x == '>' {
      NotStartsWith(t, "&amp;", 1);
      NotStartsWith(t, "&lt;", 1);
    } else if x == '"' {
      NotStartsWith(t, "&amp;", 1);
      NotStartsWith(t, "&lt;", 1);
      NotStartsWith(t, "&gt;", 1);
    } else if x == '\'' {
      NotStartsWith(t, "&amp;", 2);
      NotStartsWith(t, "&lt;", 1);
      NotStartsWith(t, "&gt;", 1);
      NotStartsWith(t, "&quot;", 1);
    }
  }

  lemma {:induction false} UnescapeEscapeEach(s: string)
    ensures Unescape(EscapeEach(s)) == s
    decreases |s|
  {
    if s != [] {
      UnescapeEscapeEach(s[1..]);
      UnescapeEntity(s[0], EscapeEach(s[1..]));
      assert s == [s[0]] + s[1..];
    }
  }

  /** Decoding the entities gives the original string back. */
  lemma UnescapeEscapeXml(s: string)
    ensures Unescape(EscapeXml(s)) == s
  {
    EscapeXmlIsEscapeEach(s);
    UnescapeEscapeEach(s);
  }

  lemma {:induction false} EscapeEachIdentity(s: string)
    requires forall i :: 0 <= i < |s| ==> !Special(s[i])
    ensures EscapeEach(s) == s
    decreases |s|
  {
    if s != [] {
      EscapeEachIdentity(s[1..]);
      assert s == [s[0]] + s[1..];
    }
  }

  /** A string without special characters is left alone. */
  lemma EscapeXmlIdentity(s: string)
    requires forall i :: 0 <= i < |s| ==> !Special(s[i])
    ensures EscapeXml(s) == s
  {
    EscapeXmlIsEscapeEach(s);
    EscapeEachIdentity(s);
  }

  lemma CountSingle(x: char, c: char)
    ensures Count([x], c) == if x == c then 1 else 0
  {
    assert [x][..0] == [];
  }

  /** How much escaping lengthens `s`: 4 per `&`, 3 per `<` or `>`, 5 per
      `"` or `'`. */
  function Growth(s: string): nat {
    4 * Count(s, '&') + 3 * (Count(s, '<') + Count(s, '>')) + 5 * (Count(s, '"') + Count(s, '\''))
  }

  lemma GrowthConcat(a: string, b: string)
    ensures Growth(a + b) == Growth(a) + Growth(b)
  {
    CountConcat(a, b, '&');
    CountConcat(a, b, '<');
    CountConcat(a, b, '>');
    CountConcat(a, b, '"');
    CountConcat(a, b, '\'');
  }

  lemma EntityLength(x: char)
    ensures |EntityOf(x)| == 1 + Growth([x])
  {
    CountSingle(x, '&');
    CountSingle(x, '<');
    CountSingle(x, '>');
    CountSingle(x, '"');
    CountSingle(x, '\'');
  }

  lemma {:induction false} EscapeEachLength(s: string)
    ensures |EscapeEach(s)| == |s| + Growth(s)
    decreases |s|
  {
    if s != [] {
      EscapeEachLength(s[1..]);
      EntityLength(s[0]);
      assert s == [s[0]] + s[1..];
      GrowthConcat([s[0]], s[1..]);
    }
  }

  /** Each `&` grows by 4, each `<` and `>` by 3, each `"` and `'` by 5. */
  lemma EscapeXmlLength(s: string)
    ensures |EscapeXml(s)| == |s| + 4 * Count(s, '&') + 3 * (Count(s, '<') + Count(s, '>'))
                                 + 5 * (Count(s, '"') + Count(s, '\''))
  {
    EscapeXmlIsEscapeEach(s);
    EscapeEachLength(s);
  }

  // ---- the route ----

  /** The `profile:profiles(full_name, email, salary)` join of a ticket row. */
  datatype JoinedProfile = JoinedProfile(fullName: Option<string>, email: Option<string>, salary: Option<real>)

  /** A `tickets` row with its joined profile, as the route selects it. */
  datatype TicketRow = TicketRow(
    dirNumber: string, projectTitle: string, dateWorked: string, hoursWorked: real,
    pdfUrl: Option<string>, profile: Option<JoinedProfile>)

  /** The JSON answer besides the XML text. */
  datatype TicketSummary = TicketSummary(
    dirNumber: string, projectTitle: string, employeeName: Option<string>,
    hoursWorked: real, calculatedHours: real, salary: real, totalPay: real)

  datatype TicketXmlBody = TicketXmlBody(xml: string, ticket: TicketSummary)

  /** `x || fallback` on an optional string. */
  function OrElse(x: Option<string>, fallback: string): string {
    if x.Some? && x.value != "" then x.value else fallback
  }

  function ProfileName(t: TicketRow): Option<string> {
    if t.profile.Some? then t.profile.value.fullName else None
  }

  function ProfileEmail(t: TicketRow): Option<string> {
    if t.profile.Some? then t.profile.value.email else None
  }

  /** `ticket.profile?.salary || 0`. */
  function SalaryOrZero(t: TicketRow): real {
    if t.profile.Some? && t.profile.value.salary.Some? then t.profile.value.salary.value else 0.0
  }

  /** The figures the handler computes once and puts both in the document
      and in the answer. */
  datatype PayFigures = PayFigures(hours: real, calculated: real, salary: real, totalPay: real)

  function FiguresOf(t: TicketRow): PayFigures {
    var hours := t.hoursWorked;
    var calculated := hours * 1.25;
    var salary := SalaryOrZero(t);
    PayFigures(hours, calculated, salary, calculated * salary)
  }

  /** An element on a line of its own: `indent` spaces, the start tag, the
      text, the end tag. */
  function Element(indent: nat, tag: string, text: string): string {
    seq(indent, _ => ' ') + "<" + tag + ">" + text + "</" + tag + ">"
  }

  /** The text of every element of the per-ticket document. */
  datatype TicketFields = TicketFields(
    submissionDate: string, dirNumber: string, title: string, name: string, email: string,
    dateWorked: string, hoursWorked: string, calculatedHours: string, hourlyRate: string,
    totalPay: string, pdfUrl: string)

  /** The element texts of a ticket: `today` is the date part of the current
      timestamp and `fixed2` is `toFixed(2)`; the title, name and e-mail are
      escaped (through the one-pass escaper, which `EscapeXmlIsEscapeEach`
      proves equal to the replacement chain), the rest is interpolated as is. */
  function FieldsOf(t: TicketRow, today: string, fixed2: real -> string): TicketFields {
    var p := FiguresOf(t);
    TicketFields(
      today, t.dirNumber, EscapeEach(t.projectTitle), EscapeEach(OrElse(ProfileName(t), "Unknown")),
      EscapeEach(OrElse(ProfileEmail(t), "")), t.dateWorked, fixed2(p.hours), fixed2(p.calculated),
      fixed2(p.salary), fixed2(p.totalPay), OrElse(t.pdfUrl, ""))
  }

  /** The lines of the document. */
  function TicketXmlLines(f: TicketFields): seq<string>
  {
    [ "<?xml version=\"1.0\" encoding=\"UTF-8\"?>",
      "<DIRSubmission>",
      "  <Header>",
      Element(4, "SubmissionDate", f.submissionDate),
      Element(4, "DIRNumber", f.dirNumber),
      "  </Header>",
      "  <Project>",
      Element(4, "Title", f.title),
      "  </Project>",
      "  <Employee>",
      Element(4, "Name", f.name),
      Element(4, "Email", f.email),
      "  </Employee>",
      "  <WorkDetails>",
      Element(4, "DateWorked", f.dateWorked),
      Element(4, "HoursWorked", f.hoursWorked),
      Element(4, "CalculatedHours", f.calculatedHours),
      Element(4, "HourlyRate", f.hourlyRate),
      Element(4, "TotalPay", f.totalPay),
      "  </WorkDetails>",
      "  <Documentation>",
      Element(4, "PDFUrl", f.pdfUrl),
      "  </Documentation>",
      "</DIRSubmission>" ]
  }

  /** The document text: the lines joined with newlines. */
  function TicketXmlDocument(t: TicketRow, today: string, fixed2: real -> string): string {
    Join(TicketXmlLines(FieldsOf(t, today, fixed2)), "\n")
  }

  /** The POST handler: the admin guard, the 400 for a missing (falsy)
      `ticketId`, the 404 when the joined lookup finds nothing or fails,
      then the document and the computed pay figures. `lookup` is the
      database query. */
  function GenerateTicketXml(
    user: Option<string>, role: Option<Role>, ticketId: Option<string>,
    lookup: string -> Option<TicketRow>, today: string, fixed2: real -> string): (r: Reply<TicketXmlBody>)
    ensures user.None? ==> r == Fail(401, "Unauthorized")
    ensures user.Some? && role != Some(Admin) ==> r == Fail(403, "Forbidden")
    ensures AdminGuard(user, role).None? && (ticketId.None? || ticketId.value == "") ==> r == Fail(400, "Missing ticketId")
    ensures AdminGuard(user, role).None? && ticketId.Some? && ticketId.value != "" && lookup(ticketId.value).None?
      ==> r == Fail(404, "Ticket not found")
    ensures r.Ok? <==> (AdminGuard(user, role).None? && ticketId.Some? && ticketId.value != ""
      && lookup(ticketId.value).Some?)
    ensures r.Ok? ==> var t := lookup(ticketId.value).value;
      r.body == TicketReply(t, TicketXmlDocument(t, today, fixed2))
  {
    match AdminGuard(user, role)
    case Some(e) => Fail(e.0, e.1)
    case None =>
      if ticketId.None? || ticketId.value == "" then Fail(400, "Missing ticketId")
      else match lookup(ticketId.value)
        case None => Fail(404, "Ticket not found")
        case Some(t) => Ok(TicketReply(t, TicketXmlDocument(t, today, fixed2)))
  }

  /** The success answer: the document and the pay figures, with the hours
      scaled by 1.25 and the salary defaulting to 0. */
  function TicketReply(t: TicketRow, xml: string): TicketXmlBody
  {
    var p := FiguresOf(t);
    TicketXmlBody(
      xml,
      TicketSummary(t.dirNumber, t.projectTitle, ProfileName(t), p.hours, p.calculated, p.salary, p.totalPay))
  }

  /** The answer and its document agree: the work-detail elements print,
      to two decimals, the very figures the JSON part returns, and the DIR
      number is the same in both. The calculated hours are 1.25 times the
      hours, the pay is those times the rate, and both rate and pay are 0
      when the ticket has no salary. */
  lemma ReplyMatchesDocument(t: TicketRow, today: string, fixed2: real -> string)
    ensures var b := TicketReply(t, TicketXmlDocument(t, today, fixed2));
      var lines := TicketXmlLines(FieldsOf(t, today, fixed2));
      && lines[4] == Element(4, "DIRNumber", b.ticket.dirNumber)
      && lines[15] == Element(4, "HoursWorked", fixed2(b.ticket.hoursWorked))
      && lines[16] == Element(4, "CalculatedHours", fixed2(b.ticket.calculatedHours))
      && lines[17] == Element(4, "HourlyRate", fixed2(b.ticket.salary))
      && lines[18] == Element(4, "TotalPay", fixed2(b.ticket.totalPay))
  {
    var f := FieldsOf(t, today, fixed2);
    ReplyFigures(t, TicketXmlDocument(t, today, fixed2), today, fixed2);
    XmlLinesAt(f);
  }

  /** The element texts of the document are made from the answer's figures. */
  lemma ReplyFigures(t: TicketRow, xml: string, today: string, fixed2: real -> string)
    ensures var b := TicketReply(t, xml).ticket;
      var f := FieldsOf(t, today, fixed2);
      && TicketReply(t, xml).xml == xml
      && f.dirNumber == b.dirNumber
      && f.hoursWorked == fixed2(b.hoursWorked) && f.calculatedHours == fixed2(b.calculatedHours)
      && f.hourlyRate == fixed2(b.salary) && f.totalPay == fixed2(b.totalPay)
  {
  }

  /** The pay figures of the answer: the calculated hours are 1.25 times
      the hours, the pay is those times the rate, and rate and pay are 0
      when the ticket has no salary. */
  lemma ReplyPay(t: TicketRow, xml: string)
    ensures var b := TicketReply(t, xml).ticket;
      && b.hoursWorked == t.hoursWorked
      && b.calculatedHours == 1.25 * t.hoursWorked
      && b.totalPay == b.calculatedHours * b.salary
      && (t.profile.None? || t.profile.value.salary.None? ==> b.salary == 0.0 && b.totalPay == 0.0)
      && (t.profile.Some? && t.profile.value.salary.Some? ==> b.salary == t.profile.value.salary.value)
  {
    var b := TicketReply(t, xml).ticket;
    if t.profile.None? || t.profile.value.salary.None? {
      assert b.salary == 0.0;
      assert b.calculatedHours * 0.0 == 0.0;
    }
  }

  /** Where the document's header and work-detail fields sit. */
  lemma XmlLinesAt(f: TicketFields)
    ensures var lines := TicketXmlLines(f);
      && |lines| == 24
      && lines[4] == Element(4, "DIRNumber", f.dirNumber)
      && lines[15] == Element(4, "HoursWorked", f.hoursWorked)
      && lines[16] == Element(4, "CalculatedHours", f.calculatedHours)
      && lines[17] == Element(4, "HourlyRate", f.hourlyRate)
      && lines[18] == Element(4, "TotalPay", f.totalPay)
  {
  }

  /** A missing `ticketId` is answered before the database is consulted: the
      result does not depend on the lookup. */
  lemma MissingIdIgnoresLookup(
    user: Option<string>, role: Option<Role>, ticketId: Option<string>,
    lookup1: string -> Option<TicketRow>, lookup2: string -> Option<TicketRow>, today: string, fixed2: real -> string)
    requires ticketId.None? || ticketId.value == ""
    ensures GenerateTicketXml(user, role, ticketId, lookup1, today, fixed2)
         == GenerateTicketXml(user, role, ticketId, lookup2, today, fixed2)
  {
  }

  lemma CountNone(s: string, c: char)
    requires forall i :: 0 <= i < |s| ==> s[i] != c
    ensures Count(s, c) == 0
  {
    if s != [] {
      CountNone(s[..|s| - 1], c);
    }
  }

  /** Markup characters in an element line: those of its tags, plus those of
      its text. */
  lemma ElementMarkup(indent: nat, tag: string, text: string, c: char)
    requires c == '<' || c == '>'
    requires Count(tag, c) == 0
    ensures Count(Element(indent, tag, text), c) == 2 + Count(text, c)
  {
    var sp: string := seq(indent, _ => ' ');
    var open := sp + "<" + tag + ">";
    var close := "</" + tag + ">";
    assert Element(indent, tag, text) == open + text + close;
    CountNone(sp, c);
    CountSingle('<', c);
    CountSingle('>', c);
    CountSingle('/', c);
    CountConcat(sp, "<", c);
    CountConcat(sp + "<", tag, c);
    CountConcat(sp + "<" + tag, ">", c);
    assert "</" == "<" + "/";
    CountConcat("<", "/", c);
    CountConcat("</", tag, c);
    CountConcat("</" + tag, ">", c);
    CountConcat(open, text, c);
    CountConcat(open + text, close, c);
  }

  /** The escaped fields hold the escaped text of the ticket's title, the
      profile name (`Unknown` when missing) and e-mail (empty when missing);
      the DIR number, date and PDF URL are copied unescaped. */
  lemma FieldsEscaping(t: TicketRow, today: string, fixed2: real -> string)
    ensures var f := FieldsOf(t, today, fixed2);
      && f.title == EscapeXml(t.projectTitle)
      && f.name == EscapeXml(OrElse(ProfileName(t), "Unknown"))
      && f.email == EscapeXml(OrElse(ProfileEmail(t), ""))
      && f.dirNumber == t.dirNumber && f.dateWorked == t.dateWorked && f.pdfUrl == OrElse(t.pdfUrl, "")
  {
    EscapeXmlIsEscapeEach(t.projectTitle);
    EscapeXmlIsEscapeEach(OrElse(ProfileName(t), "Unknown"));
    EscapeXmlIsEscapeEach(OrElse(ProfileEmail(t), ""));
  }

  /** An escaped text never adds a `<` or `>` to its line, so a field cannot
      open or close an element. */
  lemma EscapedTextMarkup(field: string, c: char)
    requires c == '<' || c == '>'
    ensures Count(EscapeEach(field), c) == 0
  {
    EscapeEachNoMarkup(field);
    CountNone(EscapeEach(field), c);
  }

  /** The title, name and e-mail lines carry exactly the two angle brackets
      of their tags whatever the ticket holds; the DIR number, date and PDF
      URL lines pass every angle bracket of the raw field through. */
  lemma TicketXmlEscaping(t: TicketRow, today: string, fixed2: real -> string, c: char)
    requires c == '<' || c == '>'
    ensures var lines := TicketXmlLines(FieldsOf(t, today, fixed2));
      && Count(lines[7], c) == 2 && Count(lines[10], c) == 2 && Count(lines[11], c) == 2
      && Count(lines[4], c) == 2 + Count(t.dirNumber, c)
      && Count(lines[14], c) == 2 + Count(t.dateWorked, c)
      && Count(lines[21], c) == 2 + Count(OrElse(t.pdfUrl, ""), c)
  {
    var f := FieldsOf(t, today, fixed2);
    LinesMarkup(f, c);
    EscapedTextMarkup(t.projectTitle, c);
    EscapedTextMarkup(OrElse(ProfileName(t), "Unknown"), c);
    EscapedTextMarkup(OrElse(ProfileEmail(t), ""), c);
  }

  lemma LinesAt(f: TicketFields)
    ensures var lines := TicketXmlLines(f);
      && lines[7] == Element(4, "Title", f.title)
      && lines[10] == Element(4, "Name", f.name)
      && lines[11] == Element(4, "Email", f.email)
      && lines[4] == Element(4, "DIRNumber", f.dirNumber)
      && lines[14] == Element(4, "DateWorked", f.dateWorked)
      && lines[21] == Element(4, "PDFUrl", f.pdfUrl)
  {
  }

  lemma TagsPlain(c: char)
    requires c == '<' || c == '>'
    ensures Count("Title", c) == 0 && Count("Name", c) == 0 && Count("Email", c) == 0
    ensures Count("DIRNumber", c) == 0 && Count("DateWorked", c) == 0 && Count("PDFUrl", c) == 0
  {
    CountNone("Title", c);
    CountNone("Name", c);
    CountNone("Email", c);
    CountNone("DIRNumber", c);
    CountNone("DateWorked", c);
    CountNone("PDFUrl", c);
  }

  lemma LinesMarkup(f: TicketFields, c: char)
    requires c == '<' || c == '>'
    ensures var lines := TicketXmlLines(f);
      && Count(lines[7], c) == 2 + Count(f.title, c)
      && Count(lines[10], c) == 2 + Count(f.name, c)
      && Count(lines[11], c) == 2 + Count(f.email, c)
      && Count(lines[4], c) == 2 + Count(f.dirNumber, c)
      && Count(lines[14], c) == 2 + Count(f.dateWorked, c)
      && Count(lines[21], c) == 2 + Count(f.pdfUrl, c)
  {
    LinesAt(f);
    TagsPlain(c);
    ElementMarkup(4, "Title", f.title, c);
    ElementMarkup(4, "Name", f.name, c);
    ElementMarkup(4, "Email", f.email, c);
    ElementMarkup(4, "DIRNumber", f.dirNumber, c);
    ElementMarkup(4, "DateWorked", f.dateWorked, c);
    ElementMarkup(4, "PDFUrl", f.pdfUrl, c);
  }
}
