/** The client side of the pay-periods page: which periods and employees
    are expanded, the actions offered per employee-period status, and the
    wage dialog that requests and downloads the period XML. */
module PeriodsClient {
  import opened Common
  import opened Domain

  /** What the client receives per employee. The page passes
      `totalAdjustedPay` while this interface reads `totalAdjustedHours`;
      the field is modelled as the client declares it. */
  datatype ClientEmployee = ClientEmployee(profile: Profile, totalAdjustedHours: real, periodStatus: string)

  datatype ClientPeriod = ClientPeriod(key: string, labelText: string, employees: seq<ClientEmployee>)

  /** The wage dialog's subject. */
  datatype WageModal = WageModal(periodKey: string, userId: string, employeeName: string, totalAdjustedHours: real)

  /** The buttons an employee row offers. */
  datatype Action = MarkAwaitingPay | OpenWageModal

  /** A status update request, `POST /api/update-employee-period`. */
  datatype StatusRequest = StatusRequest(periodKey: string, userId: string, status: string)

  /** A generation request, `POST /api/generate-period-xml`. */
  datatype GenerateRequest = GenerateRequest(periodKey: string, userId: string, wage: real)

  /** A file handed to the browser. */
  datatype Download = Download(fileName: string, content: string)

  // ---- the expanded sets ----

  /** The set with `k` removed if present and added otherwise. */
  function Toggled<T(!new)>(s: set<T>, k: T): (r: set<T>)
    ensures k in r <==> k !in s
    ensures forall x :: x != k ==> (x in r <==> x in s)
  {
    if k in s then s - {k} else s + {k}
  }

  /** Toggling the same key twice gives the set back. */
  lemma ToggleTwice<T(!new)>(s: set<T>, k: T)
    ensures Toggled(Toggled(s, k), k) == s
  {
    var r := Toggled(Toggled(s, k), k);
    assert forall x :: x in r <==> x in s;
  }

  /** `new Set([periods[0]?.key])`: the first period's key, or `undefined`
      (here `None`) when there is no period. */
  function InitialExpanded(periods: seq<ClientPeriod>): (r: set<Option<string>>)
    ensures |r| == 1
    ensures periods != [] ==> r == {Some(periods[0].key)}
    ensures forall p :: p in periods ==> (Some(p.key) in r <==> p.key == periods[0].key)
  {
    {if periods != [] then Some(periods[0].key) else None}
  }

  // ---- the actions per status ----

  /** A row is completed exactly when its status is `ready_for_dir`. */
  predicate IsCompleted(status: string) {
    status == ReadyForDirStatus
  }

  /** The buttons a row offers: `pending` offers marking it awaiting pay,
      `awaiting_pay` offers the wage dialog, any other status nothing. */
  function ActionsFor(status: string): (r: seq<Action>)
    ensures status == PendingStatus ==> r == [MarkAwaitingPay]
    ensures status == AwaitingPayStatus ==> r == [OpenWageModal]
    ensures status != PendingStatus && status != AwaitingPayStatus ==> r == []
  {
    (if status == PendingStatus then [MarkAwaitingPay] else [])
    + (if status == AwaitingPayStatus then [OpenWageModal] else [])
  }

  /** Only `pending` leads to a direct status write, and only to
      `awaiting_pay`; a completed row offers nothing. */
  lemma ActionTable(status: string)
    ensures MarkAwaitingPay in ActionsFor(status) <==> status == PendingStatus
    ensures OpenWageModal in ActionsFor(status) <==> status == AwaitingPayStatus
    ensures |ActionsFor(status)| <= 1
    ensures IsCompleted(status) ==> ActionsFor(status) == []
  {
  }

  /** `full_name || email`. */
  function DisplayName(p: Profile): string {
    if p.fullName.Some? && p.fullName.value != "" then p.fullName.value else p.email
  }

  // ---- the download ----

  /** `dir-` + the name with white-space runs turned into `-`, lower-cased,
      + `-` + the period key + `.xml`. */
  function FileName(employeeName: string, periodKey: string): string {
    "dir-" + ToLower(ReplaceSpaceRuns(employeeName, "-")) + "-" + periodKey + ".xml"
  }

  /** The file name starts with `dir-`, holds the name part without white
      space, and ends with `-`, the period key and `.xml`. */
  lemma FileNameShape(employeeName: string, periodKey: string)
    ensures var f := FileName(employeeName, periodKey);
      var namePart := ToLower(ReplaceSpaceRuns(employeeName, "-"));
      && f[..4] == "dir-" && f[4..4 + |namePart|] == namePart && NoSpace(namePart)
      && f[4 + |namePart|..] == "-" + periodKey + ".xml"
  {
    var namePart := ToLower(ReplaceSpaceRuns(employeeName, "-"));
    SeparatorNoSpace('-');
    ReplaceSpaceRunsNoSpace(employeeName, "-");
    LowerNoSpace(ReplaceSpaceRuns(employeeName, "-"));
    ThreeParts("dir-", namePart, "-" + periodKey + ".xml");
  }

  /** The three parts of a concatenation, by position. */
  lemma ThreeParts(a: string, b: string, c: string)
    ensures (a + b + c)[..|a|] == a && (a + b + c)[|a|..|a| + |b|] == b && (a + b + c)[|a| + |b|..] == c
  {
  }

  /** The client state. */
  class Client {
    var expandedPeriods: set<Option<string>>
    var expandedEmployees: set<string>
    var modal: Option<WageModal>
    var wage: string
    var loading: bool

    constructor (periods: seq<ClientPeriod>)
      ensures expandedPeriods == InitialExpanded(periods) && expandedEmployees == {}
      ensures modal == None && wage == "" && !loading
    {
      expandedPeriods := InitialExpanded(periods);
      expandedEmployees := {};
      modal := None;
      wage := "";
      loading := false;
    }

    method TogglePeriod(key: string)
      modifies this
      ensures expandedPeriods == Toggled(old(expandedPeriods), Some(key))
      ensures expandedEmployees == old(expandedEmployees) && modal == old(modal)
      ensures wage == old(wage) && loading == old(loading)
    {
      expandedPeriods := Toggled(expandedPeriods, Some(key));
    }

    method ToggleEmployee(key: string)
      modifies this
      ensures expandedEmployees == Toggled(old(expandedEmployees), key)
      ensures expandedPeriods == old(expandedPeriods) && modal == old(modal)
      ensures wage == old(wage) && loading == old(loading)
    {
      expandedEmployees := Toggled(expandedEmployees, key);
    }

    /** `Mark Awaiting Pay`: a status request for the row. */
    method MarkAwaiting(periodKey: string, userId: string) returns (req: StatusRequest)
      modifies this
      ensures req == StatusRequest(periodKey, userId, AwaitingPayStatus) && loading
      ensures expandedPeriods == old(expandedPeriods) && expandedEmployees == old(expandedEmployees)
      ensures modal == old(modal) && wage == old(wage)
    {
      loading := true;
      req := StatusRequest(periodKey, userId, AwaitingPayStatus);
    }

    /** `Ready for DIR`: open the wage dialog for the row. */
    method OpenModal(periodKey: string, e: ClientEmployee)
      modifies this
      ensures modal == Some(WageModal(periodKey, e.profile.id, DisplayName(e.profile), e.totalAdjustedHours))
      ensures expandedPeriods == old(expandedPeriods) && expandedEmployees == old(expandedEmployees)
      ensures wage == old(wage) && loading == old(loading)
    {
      modal := Some(WageModal(periodKey, e.profile.id, DisplayName(e.profile), e.totalAdjustedHours));
    }

    /** The wage input's `onChange`: the typed text. */
    method SetWage(text: string)
      modifies this
      ensures wage == text
      ensures expandedPeriods == old(expandedPeriods) && expandedEmployees == old(expandedEmployees)
      ensures modal == old(modal) && loading == old(loading)
    {
      wage := text;
    }

    method Cancel()
      modifies this
      ensures modal == None && wage == ""
      ensures expandedPeriods == old(expandedPeriods) && expandedEmployees == old(expandedEmployees)
      ensures loading == old(loading)
    {
      modal := None;
      wage := "";
    }

    /** `handleGenerateXml`: without an open dialog or with an empty wage it
        does nothing; otherwise it requests the XML for the dialog's period
        and employee at the parsed wage, downloads it under `FileName` when
        the answer is OK (`xml` is its body), and closes the dialog.
        `parseFloat` is the browser's number parser. */
    method GenerateXml(parseFloat: string -> real, resOk: bool, xml: string)
      returns (req: Option<GenerateRequest>, download: Option<Download>)
      modifies this
      ensures old(modal).None? || old(wage) == "" ==>
        && req.None? && download.None?
        && modal == old(modal) && wage == old(wage) && loading == old(loading)
      ensures old(modal).Some? && old(wage) != "" ==>
        var m := old(modal).value;
        && req == Some(GenerateRequest(m.periodKey, m.userId, parseFloat(old(wage))))
        && download == (if resOk then Some(Download(FileName(m.employeeName, m.periodKey), xml)) else None)
        && modal == None && wage == "" && !loading
      ensures expandedPeriods == old(expandedPeriods) && expandedEmployees == old(expandedEmployees)
    {
      if modal.None? || wage == "" {
        return None, None;
      }
      var m := modal.value;
      loading := true;
      req := Some(GenerateRequest(m.periodKey, m.userId, parseFloat(wage)));
      download := None;
      if resOk {
        download := Some(Download(FileName(m.employeeName, m.periodKey), xml));
      }
      modal := None;
      wage := "";
      loading := false;
    }
  }
}
