/** The rejection dialog (`activity.report.reject.wizard`): it holds one
    report and a reason, and on confirmation records a note in the report's
    history and sets the report to rejected, whatever state it was in. */
module RejectWizards {
  import opened Wrappers
  import opened Reports

  const NoReasonMessage: string := "Veuillez indiquer un motif de rejet."
  const SingletonMessage: string := "Expected singleton"
  const RejectionSubject: string := "Rapport rejeté"

  class RejectWizard {
    /** The report to reject (required, read-only). */
    const report: Report
    /** The reason typed into the dialog; unset until the user fills it in. */
    var reason: Option<string>

    constructor (report: Report, reason: Option<string>)
      ensures this.report == report && this.reason == reason
    {
      this.report := report;
      this.reason := reason;
    }
  }

  /** Python's `not reason`: the reason is unset or the empty text. */
  function MissingReason(reason: Option<string>): (missing: bool)
    ensures reason.None? ==> missing
    ensures reason == Some("") ==> missing
    ensures !missing ==> reason.Some? && |reason.value| > 0
  {
    reason.None? || reason.value == ""
  }

  /** The note posted on confirmation, naming the acting user and the reason. */
  function RejectionNote(actor: User, reason: string): (n: Note)
    ensures n.subject == RejectionSubject && n.author == actor.name && n.reason == reason
  {
    Note(RejectionSubject, actor.name, reason)
  }

  /** The notes `k` confirmations by `actor` with `reason` append, in order. */
  function RejectionNotes(actor: User, reason: string, k: nat): (notes: seq<Note>)
    ensures |notes| == k
    ensures forall i :: 0 <= i < k ==> notes[i] == RejectionNote(actor, reason)
  {
    if k == 0 then [] else RejectionNotes(actor, reason, k - 1) + [RejectionNote(actor, reason)]
  }

  /** `action_confirm_reject` on a recordset of wizards. It demands exactly one
      wizard and a reason; it then appends one note to that wizard's report and
      sets the report to rejected. On an error nothing changes. */
  method ConfirmReject(wizards: seq<RejectWizard>, actor: User) returns (outcome: Outcome)
    modifies (set w | w in wizards :: w.report)`log, (set w | w in wizards :: w.report)`state
    ensures |wizards| != 1 ==> outcome == Fail(ValueError(SingletonMessage))
    ensures |wizards| == 1 && MissingReason(wizards[0].reason) ==>
              outcome == Fail(UserError(NoReasonMessage))
    ensures |wizards| == 1 && !MissingReason(wizards[0].reason) ==> outcome == Ok
    ensures outcome.Fail? ==> forall w :: w in wizards ==>
              w.report.state == old(w.report.state) && w.report.log == old(w.report.log)
    ensures outcome.Ok? ==>
              && wizards[0].report.state == Rejected
              && wizards[0].report.log
                 == old(wizards[0].report.log) + [RejectionNote(actor, wizards[0].reason.value)]
  {
    if |wizards| != 1 {
      return Fail(ValueError(SingletonMessage));
    }
    var w := wizards[0];
    if MissingReason(w.reason) {
      return Fail(UserError(NoReasonMessage));
    }
    w.report.log := w.report.log + [RejectionNote(actor, w.reason.value)];
    w.report.state := Rejected;
    return Ok;
  }

  /** Confirming the same dialog `k` times rejects its report once and for all
      and adds one note per confirmation. */
  method ConfirmRejectRepeatedly(w: RejectWizard, actor: User, k: nat)
    requires !MissingReason(w.reason)
    modifies w.report`log, w.report`state
    ensures k > 0 ==> w.report.state == Rejected
    ensures k == 0 ==> w.report.state == old(w.report.state)
    ensures w.report.log == old(w.report.log) + RejectionNotes(actor, w.reason.value, k)
  {
    var i := 0;
    while i < k
      invariant 0 <= i <= k
      invariant i > 0 ==> w.report.state == Rejected
      invariant i == 0 ==> w.report.state == old(w.report.state)
      invariant w.report.log == old(w.report.log) + RejectionNotes(actor, w.reason.value, i)
    {
      var outcome := ConfirmReject([w], actor);
      assert outcome == Ok;
      i := i + 1;
    }
  }
}
