# Weekly activity report: lifecycle, derived fields and rejection dialog

This Dafny project models the business logic of an Odoo module for weekly activity reports. Each service (an `hr.department`) files weekly reports; nothing in the code keeps a service to one report per week. The report holds activity lines and moves through the states draft, submitted, validated and rejected.

The model covers three parts of the module:

- **Report** (`activity.weekly.report`), module `Reports`. A class with the record's mutable fields, including an append-only history (`log`) of the notes posted with `message_post`. It has:
  - the four-valued `state`, which starts at draft;
  - the derived fields name, year, responsible employee and direction, written as pure functions of the fields they depend on;
  - the lifecycle actions `action_submit`, `action_validate` and `action_reject`. Each is a method over a batch of reports, because Odoo calls them on a recordset. The frame `batch`state` guarantees that only `state` changes.
- **Activity line** (`activity.weekly.report.line`), module `ActivityLines`. A value type. It has:
  - the selection fields and their defaults;
  - the inclusive day count `duration`;
  - the default order `priority desc, date_start`.
- **Rejection dialog** (`activity.report.reject.wizard`), module `RejectWizards`. Confirming it checks that exactly one dialog is being confirmed and that a reason was given. It then appends one note to the report's history and sets the report to rejected, from any state.

Supporting modules:

- `Dates`: Python's `datetime.date` as (year, month, day) restricted to years 1 to 9999. It gives the proleptic Gregorian ordinal that date subtraction uses and CPython's `isocalendar()` week number. It proves that calendar order is ordinal order, that the next day has the next ordinal, and that every ISO week number is between 1 and 53.
- `Decimal`: the decimal numeral that an f-string prints for an integer, with its inverse.
- `Wrappers`: `Option`, for fields that Odoo leaves unset (`False`).

In the code:

- `action_validate` and `action_reject` have no state guard;
- `action_submit` checks only that the report has lines (no state check, no date-range check);
- there is no return-to-draft, escalation or notification;
- no constraint requires `date_end >= date_start` or puts `progress` in 0..100;
- there is no global-progress field.

Neither `action_reject` nor the rejection dialog checks the state: both reject a report in any state.

Inputs the code takes from its environment are explicit parameters. These are the acting user (`env.user`) and the creating user (the `user_id` default).

## Model

| member | source | states |
|---|---|---|
| Reports.Report.constructor | models/activity_report.py:39-71 | A new report keeps the given service, week and lines, records its creator, starts in `draft` with no history, and its text fields and arbitration flag are unset |
| Reports.StateKey | models/activity_report.py:62-68 | Every state is stored as one of the four keys draft/submitted/validated/rejected |
| Reports.StateKeysRoundTrip | models/activity_report.py:62-71 | `state` takes exactly the four keys draft/submitted/validated/rejected, and each key names one state |
| Reports.StateFromKey | models/activity_report.py:62-68 | Only the four selection keys are accepted as a state, and each decodes to the state that carries that key |
| Reports.DepartmentLabel | models/activity_report.py:100 | The service as the f-string prints it: its name, or `False` when the name is unset |
| Reports.ParseNumeralAndService | models/activity_report.py:100 | Reading "Rapport S" + the numeral of w + " - " + s back with `ParseName` gives exactly (w, s) |
| Reports.ParsedNameIsPrinted | models/activity_report.py:100 | `ParseName` accepts only the numeral Python prints (no leading zero): the only text that reads back as (w, s) is "Rapport S" + the numeral of w + " - " + s |
| Reports.FormattedName | models/activity_report.py:100 | The set-up report's name starts with "Rapport S" and reads back, through `ParseName`, as exactly the week number and the service name it was built from; with `ParsedNameIsPrinted`, this fixes the name to the unpadded numeral |
| Reports.ReportName | models/activity_report.py:95-102 | The name is the generic "Rapport hebdomadaire" exactly when the service or the week start is unset, and is never that string otherwise; every name starts with "Rapport "; when both are set, the name reads back as the ISO week number of the week start and the service's printed name, and so (by `ParsedNameIsPrinted`) is exactly "Rapport S" + that week's unpadded numeral + " - " + that name |
| Reports.FormattedNameInjective | models/activity_report.py:100 | The formatted name can be read back: equal names come from equal week numbers and equal service names |
| Reports.NameDeterminesWeekAndService | models/activity_report.py:99-100 | Two set-up reports with the same name have the same ISO week number and the same service name |
| Reports.ReportYear | models/activity_report.py:104-107 | The year is set exactly when the week start is set, and is then that date's calendar year (1..9999) |
| Reports.ResponsibleEmployee | models/activity_report.py:109-112 | The responsible employee is the service's manager, and unset when there is no service |
| Reports.ReportDirection | models/activity_report.py:25-30 | The direction is the service's parent unit, and unset when there is no service |
| Reports.WriteState | models/activity_report.py:124-128 | `write({"state": s})` sets every report of the batch to `s` and changes no other field |
| Reports.Submit | models/activity_report.py:118-122 | Succeeds exactly when every report in the batch has a line, and then leaves every report submitted whatever its prior state; otherwise returns the "au moins une activité" user error and every state is as before; only `state` is written |
| Reports.Validate | models/activity_report.py:124-125 | Every report of the batch is validated afterwards, from any state; the result does not depend on the prior state, so a second call changes nothing; only `state` is written |
| Reports.Reject | models/activity_report.py:127-128 | Every report of the batch is rejected afterwards, from any state; a second call changes nothing; only `state` is written |
| ActivityLines.SelectionKeysRoundTrip | models/activity_report_line.py:29-47 | Status keys todo/in_progress/done/blocked and priority keys "0".."3" each decode back to their value |
| ActivityLines.StatusKey | models/activity_report_line.py:29-36 | Every status is stored as one of the four keys todo/in_progress/done/blocked |
| ActivityLines.StatusFromKey | models/activity_report_line.py:29-36 | Only the four status keys decode, each to the status carrying it |
| ActivityLines.PriorityKey | models/activity_report_line.py:39-46 | Every priority is stored as one of the keys "0".."3" |
| ActivityLines.PriorityFromKey | models/activity_report_line.py:39-46 | Only the four priority keys decode, each to the priority carrying it |
| ActivityLines.Rank | models/activity_report_line.py:39-47 | A priority's rank is the digit of its key, so rank order is the order of the stored keys |
| ActivityLines.NewLine | models/activity_report_line.py:29-52 | A new line has status `todo`, priority "1" (normal) and progress 0 |
| ActivityLines.Duration | models/activity_report_line.py:60-66 | Duration is 0 when either date is unset; with both set it is at least 1 exactly when the end is not before the start (no check stops a reversed pair) |
| ActivityLines.SameDayLastsOneDay | models/activity_report_line.py:63-64 | A line starting and ending the same day lasts 1 day |
| ActivityLines.ReversedDatesNonPositive | models/activity_report_line.py:60-66 | An end before the start gives a duration of 0 or less |
| ActivityLines.EndOneDayLater | models/activity_report_line.py:64 | Moving the end one calendar day later adds exactly 1 to the duration |
| ActivityLines.DurationCountsCoveredDays | models/activity_report_line.py:63-64 | For an ordered pair of dates, the duration is the number of days from start to end, both included |
| ActivityLines.ThreeDayExample | models/activity_report_line.py:64 | 2024-01-01 to 2024-01-03 lasts 3 days |
| ActivityLines.StartNotAfter | models/activity_report_line.py:7 | The ascending `date_start` key: for two dated lines, the start ordinals are in order; a dated line precedes an undated one and never follows it |
| ActivityLines.ListedBefore | models/activity_report_line.py:7 | "priority desc, date_start": a line is never listed before one of higher priority, always before one of lower priority, and by start date at equal priority |
| ActivityLines.ListedBeforeTotalPreorder | models/activity_report_line.py:7 | The order "priority desc, date_start" is reflexive, total and transitive |
| ActivityLines.InLineOrderPairwise | models/activity_report_line.py:7 | In a list sorted by the default order, every earlier line may precede every later one |
| ActivityLines.HigherPriorityListedFirst | models/activity_report_line.py:7 | In a sorted list, every higher-priority line comes before every lower-priority one |
| ActivityLines.EqualPriorityByStartDate | models/activity_report_line.py:7 | In a sorted list, lines of equal priority are in ascending start-date order |
| Dates.ToOrdinal | models/activity_report_line.py:64 | The ordinal of a date lies within its own year's ordinals and between 1 and 3652059 (`date.max`) |
| Dates.NextDay | models/activity_report_line.py:64 | The day after a date is later in calendar order (it is undefined after 9999-12-31, where Python overflows) |
| Dates.OrdinalOrder | models/activity_report_line.py:64 | Date subtraction's ordinal preserves calendar order and is injective |
| Dates.NextDayOrdinal | models/activity_report_line.py:64 | The calendar day after a date has the next ordinal |
| Dates.IsoWeek | models/activity_report.py:99 | `isocalendar()[1]`, computed as CPython does, is always between 1 and 53 |
| Decimal.NatToStringRoundTrip | models/activity_report.py:100 | The week numeral printed in the name reads back as the week number |
| RejectWizards.RejectWizard.constructor | wizards/activity_report_reject_wizard.py:10-20 | A dialog refers to one report and holds the reason as given, possibly unset |
| RejectWizards.MissingReason | wizards/activity_report_reject_wizard.py:26 | Python's `not reason`: an unset or empty reason is missing, and a reason that is not missing is a non-empty text |
| RejectWizards.RejectionNote | wizards/activity_report_reject_wizard.py:30-38 | The posted note has subject "Rapport rejeté" and carries the acting user's name and the reason |
| RejectWizards.RejectionNotes | wizards/activity_report_reject_wizard.py:30-38 | k confirmations contribute exactly k such notes |
| RejectWizards.ConfirmReject | wizards/activity_report_reject_wizard.py:22-43 | Fails with a ValueError unless exactly one dialog is confirmed. With an unset or empty reason it fails with the "motif de rejet" user error. On either failure no report's state or history changes. Otherwise it appends exactly one note to the referenced report and sets that report to rejected from any state. Only that report's `log` and `state` are written |
| RejectWizards.ConfirmRejectRepeatedly | wizards/activity_report_reject_wizard.py:30-41 | Confirming k > 0 times leaves the report rejected, and the history grows by one note per confirmation |

## Left out

- The tracking messages that `tracking=True` on `state` adds to the report's chatter on every state change. `log` holds only the notes posted with `message_post`. "Only `state` is written" and "one note per confirmation" are claims about that modelled history.
- The Odoo ORM: storage, `@api.depends` recomputation, `related=`, `tracking=True` and the `mail.thread`/`mail.activity.mixin` inheritance. The derived fields are functions of the fields they depend on and are not stored.
- The `message_post` details: the HTML `Markup` body and its escaping, `message_type` and `subtype_xmlid`. A note is the structured triple (subject, author name, reason).
- The order within `action_confirm_reject`: the note is posted before the state is written. The model does both in that order, but nothing can fail between the two steps, so no postcondition can tell the order apart.
- The transaction rollback that undoes the states `action_submit` has already written when a later report has no lines. The database does this, and the model writes it out as a restoring step.
- The dialog's return value `{'type': 'ir.actions.act_window_close'}`, which is a UI action.
- `_order = "week_start desc"` on reports.
- Unset `status` and `priority` on a line. Neither field is required, so a user can clear it to `False`, but `Status` and `Priority` have no unset value. The order therefore does not say where a line without a priority goes.
- Where lines without a start date go in the line order. The database decides it. The model places them last, as PostgreSQL does for an ascending key.
- `ondelete="cascade"`, the `required=True` flags enforced by the form and the database, and the manifest, views and security files. None of them holds logic.
- `hr.department`/`hr.employee`/`res.users` records beyond the fields read here (name, parent, manager, user name).
- Concurrency between users, which the database's transactions handle.
- ActivityLines.Duration: returns an integer, although the source stores a float. The stored value is always a whole number of days.
- RejectWizards.ConfirmReject: the ValueError message is shortened to "Expected singleton"; Odoo appends the recordset's representation, which depends on record ids.
- Reports.ReportYear: an unset week start gives None; Odoo assigns `False`, which the Integer field stores and reads back as 0.
