/** The weekly activity report (`activity.weekly.report`): its lifecycle
    state, the fields derived from its service and week, and the three
    lifecycle actions, each applied to a batch of reports as an Odoo recordset. */
module Reports {
  import opened Wrappers
  import opened Dates
  import opened Decimal
  import opened ActivityLines

  /** Selection `state`; the stored keys are draft, submitted, validated, rejected. */
  datatype State = Draft | Submitted | Validated | Rejected

  function StateKey(s: State): (k: string)
    ensures k in {"draft", "submitted", "validated", "rejected"}
  {
    match s
    case Draft => "draft"
    case Submitted => "submitted"
    case Validated => "validated"
    case Rejected => "rejected"
  }

  function StateFromKey(k: string): (s: Option<State>)
    ensures s.Some? ==> StateKey(s.value) == k
  {
    if k == "draft" then Some(Draft)
    else if k == "submitted" then Some(Submitted)
    else if k == "validated" then Some(Validated)
    else if k == "rejected" then Some(Rejected)
    else None
  }

  /** The four state keys are the only ones, and each names one state. */
  lemma {:induction false} StateKeysRoundTrip(s: State)
    ensures StateFromKey(StateKey(s)) == Some(s)
    ensures StateKey(s) in {"draft", "submitted", "validated", "rejected"}
  {
    match s
    case Draft =>
    case Submitted =>
    case Validated =>
    case Rejected =>
  }

  datatype Employee = Employee(id: nat, name: string)

  datatype User = User(id: nat, name: string)

  /** An `hr.department`: the service a report belongs to. */
  datatype Department = Department(
    id: nat,
    name: Option<string>,
    parent: Option<Department>,
    manager: Option<Employee>)

  /** An entry of a report's history: who posted it, about what, and why. */
  datatype Note = Note(subject: string, author: string, reason: string)

  datatype Error = UserError(message: string) | ValueError(message: string)

  datatype Outcome = Ok | Fail(error: Error)

  const NoLinesMessage: string := "Vous devez renseigner au moins une activité."

  class Report {
    var department: Option<Department>
    var weekStart: Option<Date>
    var weekEnd: Option<Date>
    /** The user who created the report (read-only once set). */
    const user: User
    var state: State
    var lines: seq<Line>
    var blockingPoints: Option<string>
    var arbitrationRequired: bool
    var correctiveActions: Option<string>
    /** The notes posted on the report with `message_post`, appended to and never rewritten. */
    var log: seq<Note>

    /** `create`: the creating user is recorded, and the state starts at its default. */
    constructor (department: Option<Department>, weekStart: Option<Date>, weekEnd: Option<Date>,
                 creator: User, lines: seq<Line>)
      ensures this.department == department && this.weekStart == weekStart
      ensures this.weekEnd == weekEnd && this.lines == lines && user == creator
      ensures state == Draft && StateKey(state) == "draft"
      ensures blockingPoints.None? && correctiveActions.None? && !arbitrationRequired
      ensures log == []
    {
      this.department := department;
      this.weekStart := weekStart;
      this.weekEnd := weekEnd;
      user := creator;
      state := Draft;
      this.lines := lines;
      blockingPoints := None;
      arbitrationRequired := false;
      correctiveActions := None;
      log := [];
    }
  }

  // ---------------------------------------------------------------------
  // Derived fields
  // ---------------------------------------------------------------------

  const GenericName: string := "Rapport hebdomadaire"

  /** A department's name as an f-string renders it; an unset name renders as `False`. */
  function DepartmentLabel(d: Department): (shown: string)
    ensures d.name.Some? ==> shown == d.name.value
    ensures d.name.None? ==> shown == "False"
  {
    match d.name
    case Some(n) => n
    case None => "False"
  }

  const NamePrefix: string := "Rapport S"
  const NameSeparator: string := " - "

  /** Reads a name of the form "Rapport S<numeral> - <service>" back into
      its week number and service name. The numeral must be written as
      Python prints an int, without a leading zero; any other text gives None. */
  function ParseName(name: string): Option<(nat, string)> {
    if |name| < |NamePrefix| || name[..|NamePrefix|] != NamePrefix then None
    else
      var rest := name[|NamePrefix|..];
      var k := LeadingDigits(rest);
      if k == 0 || (k > 1 && rest[0] == '0') then None
      else if |rest| < k + |NameSeparator| || rest[k..k + |NameSeparator|] != NameSeparator then None
      else Some((DigitsValue(rest[..k]), rest[k + |NameSeparator|..]))
  }

  /** The only text that reads back as (week, service) is the printed name. */
  lemma ParsedNameIsPrinted(name: string, week: nat, service: string)
    requires ParseName(name) == Some((week, service))
    ensures name == NamePrefix + NatToString(week) + NameSeparator + service
    ensures name == FormattedName(week, service)
  {
    var rest := name[|NamePrefix|..];
    var k := LeadingDigits(rest);
    var numeral, separator, tail := rest[..k], rest[k..k + |NameSeparator|], rest[k + |NameSeparator|..];
    assert separator == NameSeparator && tail == service && DigitsValue(numeral) == week;
    assert numeral[0] == rest[0];
    CanonicalNumeral(numeral);
    assert NatToString(week) == numeral;
    assert rest == numeral + separator + tail;
    assert name == name[..|NamePrefix|] + rest;
  }

  lemma ParseNumeralAndService(week: nat, service: string)
    ensures ParseName(NamePrefix + NatToString(week) + NameSeparator + service) == Some((week, service))
  {
    var numeral := NatToString(week);
    var name := NamePrefix + numeral + NameSeparator + service;
    var rest := numeral + (NameSeparator + service);
    assert name == NamePrefix + rest;
    assert name[..|NamePrefix|] == NamePrefix && name[|NamePrefix|..] == rest;
    LeadingDigitsOfNumeral(numeral, NameSeparator + service);
    assert LeadingDigits(rest) == |numeral|;
    assert rest[0] == numeral[0];
    assert !(|numeral| > 1 && rest[0] == '0');
    assert rest[..|numeral|] == numeral;
    assert rest[|numeral|..|numeral| + |NameSeparator|] == NameSeparator;
    assert rest[|numeral| + |NameSeparator|..] == service;
    NatToStringRoundTrip(week);
  }

  /** The name of a report whose service and week start are set:
      it reads back as exactly the week number and service name it shows. */
  function FormattedName(week: nat, service: string): (name: string)
    ensures |name| > 9 && name[..9] == "Rapport S"
    ensures ParseName(name) == Some((week, service))
  {
    ParseNumeralAndService(week, service);
    NamePrefix + NatToString(week) + NameSeparator + service
  }

  /** A formatted name determines the week number and the service name it was built from. */
  lemma FormattedNameInjective(w1: nat, s1: string, w2: nat, s2: string)
    requires FormattedName(w1, s1) == FormattedName(w2, s2)
    ensures w1 == w2 && s1 == s2
  {
    assert ParseName(FormattedName(w1, s1)) == Some((w1, s1));
    assert ParseName(FormattedName(w2, s2)) == Some((w2, s2));
  }

  /** `name`: "Rapport S<ISO week> - <service>" when the service and the week
      start are both set, the generic name otherwise. */
  function ReportName(department: Option<Department>, weekStart: Option<Date>): (name: string)
    ensures name == GenericName <==> department.None? || weekStart.None?
    ensures |name| >= 8 && name[..8] == "Rapport "
    ensures department.Some? && weekStart.Some? ==>
              ParseName(name) == Some((IsoWeek(weekStart.value), DepartmentLabel(department.value)))
  {
    if department.Some? && weekStart.Some? then
      var name := FormattedName(IsoWeek(weekStart.value), DepartmentLabel(department.value));
      assert name[8] == 'S' != GenericName[8];
      name
    else
      GenericName
  }

  /** The name of a set-up report determines its week number and its
      service's name: two such reports with the same name agree on both. */
  lemma NameDeterminesWeekAndService(d1: Department, w1: Date, d2: Department, w2: Date)
    requires ReportName(Some(d1), Some(w1)) == ReportName(Some(d2), Some(w2))
    ensures IsoWeek(w1) == IsoWeek(w2)
    ensures DepartmentLabel(d1) == DepartmentLabel(d2)
  {
    FormattedNameInjective(IsoWeek(w1), DepartmentLabel(d1), IsoWeek(w2), DepartmentLabel(d2));
  }

  /** `year`: the calendar year of the week start, unset without one. */
  function ReportYear(weekStart: Option<Date>): (year: Option<int>)
    ensures year.Some? <==> weekStart.Some?
    ensures weekStart.Some? ==> year.value == weekStart.value.year && MinYear <= year.value <= MaxYear
  {
    match weekStart
    case Some(d) => Some(d.year)
    case None => None
  }

  /** `employee_id`: the service's manager, unset without a service. */
  function ResponsibleEmployee(department: Option<Department>): (e: Option<Employee>)
    ensures department.None? ==> e.None?
    ensures department.Some? ==> e == department.value.manager
  {
    match department
    case Some(d) => d.manager
    case None => None
  }

  /** `direction_id`: the service's parent unit, unset without a service. */
  function ReportDirection(department: Option<Department>): (p: Option<Department>)
    ensures department.None? ==> p.None?
    ensures department.Some? ==> p == department.value.parent
  {
    match department
    case Some(d) => d.parent
    case None => None
  }

  // ---------------------------------------------------------------------
  // Lifecycle actions
  // ---------------------------------------------------------------------

  /** `write({"state": s})` on a recordset: every report of the batch is set to `s`. */
  method WriteState(batch: seq<Report>, s: State)
    modifies batch`state
    ensures forall r :: r in batch ==> r.state == s
  {
    forall r | r in batch {
      r.state := s;
    }
  }

  /** `action_submit`: each report in turn must have a line and is then set to
      submitted, whatever its state. A report without lines raises a user
      error, and the enclosing transaction undoes the states already written. */
  method Submit(batch: seq<Report>) returns (outcome: Outcome)
    modifies batch`state
    ensures outcome.Ok? <==> forall r :: r in batch ==> |r.lines| > 0
    ensures outcome.Ok? ==> forall r :: r in batch ==> r.state == Submitted
    ensures outcome.Fail? ==> outcome.error == UserError(NoLinesMessage)
    ensures outcome.Fail? ==> forall r :: r in batch ==> r.state == old(r.state)
  {
    var saved := seq(|batch|, k requires 0 <= k < |batch| reads batch => batch[k].state);
    var i := 0;
    while i < |batch|
      invariant 0 <= i <= |batch|
      invariant forall r :: r in batch[..i] ==> r.state == Submitted && |r.lines| > 0
      invariant forall r :: r in batch && r !in batch[..i] ==> r.state == old(r.state)
    {
      if |batch[i].lines| == 0 {
        assert batch[i] in batch && |batch[i].lines| == 0;
        forall k | 0 <= k < |batch| {
          batch[k].state := saved[k];
        }
        return Fail(UserError(NoLinesMessage));
      }
      batch[i].state := Submitted;
      i := i + 1;
    }
    return Ok;
  }

  /** `action_validate`: every report of the batch becomes validated, from any state. */
  method Validate(batch: seq<Report>)
    modifies batch`state
    ensures forall r :: r in batch ==> r.state == Validated
  {
    WriteState(batch, Validated);
  }

  /** `action_reject`: every report of the batch becomes rejected, from any state. */
  method Reject(batch: seq<Report>)
    modifies batch`state
    ensures forall r :: r in batch ==> r.state == Rejected
  {
    WriteState(batch, Rejected);
  }
}
