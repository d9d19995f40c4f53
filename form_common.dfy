/**
  What the two report forms (backend/src/components/ReportForm.jsx and
  frontend/src/components/ReportForm.jsx) share: the report rows they list,
  the delete filter, the server's answer to a submit, the coordinate
  defaults and the labels shown for missing fields.
 */
module FormCommon {
  import opened Wrappers
  import opened Text
  import opened Seqs

  /** A report as the forms hold it. Absent properties are `None`. */
  datatype FormReport = FormReport(
    mongoId: Option<string>,   // `_id`
    id: Option<string>,
    hazardType: Option<string>,
    description: Option<string>,
    feedback: Option<string>,
    status: Option<string>)

  // ------------------------------------------------------- handleDelete

  /** What the Delete button passes: `r._id || r.id`. */
  function DeleteTarget(r: FormReport): (target: Option<string>)
    ensures Truthy(r.mongoId) ==> target == r.mongoId
    ensures !Truthy(r.mongoId) ==> target == r.id
  {
    if Truthy(r.mongoId) then r.mongoId else r.id
  }

  /** `prev.filter(r => r._id !== id)` */
  function RemoveById(reports: seq<FormReport>, target: Option<string>): (r: seq<FormReport>)
    ensures forall i :: 0 <= i < |r| ==> r[i] in reports && r[i].mongoId != target
    ensures forall i :: 0 <= i < |reports| && reports[i].mongoId != target ==> reports[i] in r
  {
    Filter(reports, (x: FormReport) => x.mongoId != target)
  }

  /** Deleting keeps the other reports in their original order: removing from
      a concatenation removes from each part. */
  lemma RemoveDistributes(a: seq<FormReport>, b: seq<FormReport>, target: Option<string>)
    ensures RemoveById(a + b, target) == RemoveById(a, target) + RemoveById(b, target)
  {
    FilterAppend(a, b, (x: FormReport) => x.mongoId != target);
  }

  /** The button of a report with a truthy `_id` removes that report. */
  lemma DeleteRemovesOwnRow(reports: seq<FormReport>, r: FormReport)
    requires Truthy(r.mongoId)
    ensures r !in RemoveById(reports, DeleteTarget(r))
  {
  }

  /** The button of a report that has an `id` but no `_id` removes nothing
      when no report's `_id` equals that id: the row itself stays. */
  lemma {:induction false} DeleteWithoutMongoIdKeepsAll(reports: seq<FormReport>, r: FormReport)
    requires r.mongoId == None && r.id.Some?
    requires forall i :: 0 <= i < |reports| ==> reports[i].mongoId != r.id
    ensures RemoveById(reports, DeleteTarget(r)) == reports
  {
    FilterAll(reports, (x: FormReport) => x.mongoId != r.id);
  }

  /** A report with neither `_id` nor `id` passes `undefined`, which removes
      every report that lacks an `_id`. */
  lemma DeleteUndefinedRemovesAllWithoutMongoId(reports: seq<FormReport>, r: FormReport)
    requires r.mongoId == None && r.id == None
    ensures forall i :: 0 <= i < |RemoveById(reports, DeleteTarget(r))| ==>
      RemoveById(reports, DeleteTarget(r))[i].mongoId.Some?
  {
  }

  // ------------------------------------------------------- handleSubmit

  /** What the submit turns into: an ok response with the stored report, a
      refusal with its optional `error`, or an exception (network failure,
      unreadable JSON) with its message. */
  datatype SubmitReply = Created(report: FormReport) | Refused(error: Option<string>) | Broken(message: string)

  /** The text `alert` shows when a submit fails. */
  function FailureText(reply: SubmitReply): (text: string)
    requires !reply.Created?
    ensures reply.Refused? && Truthy(reply.error) ==> text == reply.error.value
    ensures reply.Refused? && !Truthy(reply.error) ==> text == "Failed to submit report"
    ensures reply.Broken? ==> text == reply.message
    ensures text == "" <==> reply.Broken? && reply.message == ""
  {
    match reply
    case Refused(e) => if Truthy(e) then e.value else "Failed to submit report"
    case Broken(m) => m
  }

  /** What the DELETE request turns into: an ok response, a response that is
      not ok (thrown as "Failed to delete"), or a rejected fetch with its
      error's message. */
  datatype DeleteReply = Removed | NotOk | Thrown(message: string)

  const SubmittedMessage: string := "✅ Report submitted successfully!"

  // ------------------------------------------------------- default coordinates

  /** `if (d) set(d)`: a truthy default wins, a falsy one leaves the field. */
  function ApplyDefault(current: string, default: Option<string>): (r: string)
    ensures Truthy(default) ==> r == default.value
    ensures !Truthy(default) ==> r == current
  {
    if Truthy(default) then default.value else current
  }

  /** `value || fallback` for an optional text: a missing or empty value
      shows the fallback. */
  function Or(value: Option<string>, fallback: string): (shown: string)
    ensures Truthy(value) ==> shown == value.value
    ensures !Truthy(value) ==> shown == fallback
    ensures shown == "" <==> !Truthy(value) && fallback == ""
  {
    if Truthy(value) then value.value else fallback
  }

  /** Re-running the effect with the same defaults changes nothing more. */
  lemma ApplyDefaultIdempotent(current: string, default: Option<string>)
    ensures ApplyDefault(ApplyDefault(current, default), default) == ApplyDefault(current, default)
  {
  }

  // ------------------------------------------------------- labels

  /** The single-report PDF never prints an empty feedback or status:
      they fall back to "N/A" and "Pending". */
  lemma PdfLabelsNeverEmpty(feedback: Option<string>, status: Option<string>)
    ensures Or(feedback, "N/A") != "" && Or(status, "Pending") != ""
    ensures !Truthy(feedback) ==> Or(feedback, "N/A") == "N/A"
    ensures !Truthy(status) ==> Or(status, "Pending") == "Pending"
  {
  }
}
