/**
  The report feed of frontend/src/components/FeedPanel.jsx: the "NEW"
  highlight list kept across renders, the shortened description and the
  Approve / Reject buttons.
 */
module FeedPanel {
  import opened Wrappers
  import opened Text
  import opened Seqs
  import opened Dashboard

  /** The ids of `reports` that are not highlighted yet, in report order. */
  function NewIds(reports: seq<ClientReport>, highlighted: seq<string>): (ids: seq<string>)
    ensures |ids| <= |reports|
    ensures forall i :: 0 <= i < |ids| ==> ids[i] !in highlighted
    ensures forall i :: 0 <= i < |reports| && reports[i].id !in highlighted ==> reports[i].id in ids
    ensures forall i :: 0 <= i < |ids| ==> exists j :: 0 <= j < |reports| && reports[j].id == ids[i]
  {
    if reports == [] then []
    else
      var rest := NewIds(reports[1..], highlighted);
      assert forall i :: 0 <= i < |rest| ==> exists j :: 0 <= j < |reports| && reports[j].id == rest[i] by {
        forall i | 0 <= i < |rest|
          ensures exists j :: 0 <= j < |reports| && reports[j].id == rest[i]
        {
          var j :| 0 <= j < |reports[1..]| && reports[1..][j].id == rest[i];
          assert reports[j + 1].id == rest[i];
        }
      }
      if reports[0].id in highlighted then rest else [reports[0].id] + rest
  }

  /** `reports.map(r => r.id)` */
  function IdsOf(reports: seq<ClientReport>): (ids: seq<string>)
    ensures |ids| == |reports|
  {
    if reports == [] then [] else [reports[0].id] + IdsOf(reports[1..])
  }

  /** `r => !highlighted.includes(r.id)` */
  function Unseen(highlighted: seq<string>): ClientReport -> bool
  {
    (r: ClientReport) => r.id !in highlighted
  }

  /** `NewIds` is exactly `reports.filter(r => !highlighted.includes(r.id)).map(r => r.id)`:
      the ids of the reports not highlighted yet, in report order and with
      their repetitions. */
  lemma {:induction false} NewIdsInOrder(reports: seq<ClientReport>, highlighted: seq<string>)
    ensures NewIds(reports, highlighted) == IdsOf(Filter(reports, Unseen(highlighted)))
  {
    if reports != [] {
      var p := Unseen(highlighted);
      var rest := Filter(reports[1..], p);
      NewIdsInOrder(reports[1..], highlighted);
      if p(reports[0]) {
        var kept := Filter(reports, p);
        assert kept == [reports[0]] + rest;
        assert kept[0] == reports[0] && kept[1..] == rest;
      } else {
        assert Filter(reports, p) == rest;
      }
    }
  }

  /** Removing the ids that were just appended gives back the list from
      before the append. */
  lemma AppendThenExpire(highlighted: seq<string>, ids: seq<string>)
    requires forall i :: 0 <= i < |ids| ==> ids[i] !in highlighted
    ensures Filter(highlighted + ids, id => id !in ids) == highlighted
  {
    var p := (id: string) => id !in ids;
    FilterAppend(highlighted, ids, p);
    FilterAll(highlighted, p);
    FilterNone(ids, p);
  }

  class FeedPanelState {
    var highlighted: seq<string>

    constructor ()
      ensures highlighted == []
    {
      highlighted := [];
    }

    /** The effect that runs when `reports` changes. It returns the ids whose
        highlight the timer will later remove (empty when nothing was added).
        An empty report list changes nothing. */
    method OnReports(reports: seq<ClientReport>) returns (added: seq<string>)
      modifies this
      ensures reports == [] ==> added == [] && highlighted == old(highlighted)
      ensures reports != [] ==> added == NewIds(reports, old(highlighted))
      ensures highlighted == old(highlighted) + added
    {
      added := [];
      if |reports| == 0 {
        return;
      }
      var newIds := NewIds(reports, highlighted);
      if |newIds| > 0 {
        highlighted := highlighted + newIds;
        added := newIds;
      }
    }

    /** The timer's update: drop exactly the ids of that effect run. */
    method Expire(added: seq<string>)
      modifies this
      ensures highlighted == Filter(old(highlighted), id => id !in added)
    {
      highlighted := Filter(highlighted, id => id !in added);
    }
  }

  /** Every report is highlighted after the effect, and when nothing happens
      in between the timer leaves the list as it was before the effect. */
  method HighlightRound(panel: FeedPanelState, reports: seq<ClientReport>)
    modifies panel
    ensures forall i :: 0 <= i < |reports| ==> reports[i].id in old(panel.highlighted) + NewIds(reports, old(panel.highlighted))
    ensures panel.highlighted == old(panel.highlighted)
  {
    var before := panel.highlighted;
    var added := panel.OnReports(reports);
    assert forall i :: 0 <= i < |reports| ==> reports[i].id in panel.highlighted;
    AppendThenExpire(before, added);
    panel.Expire(added);
  }

  // ------------------------------------------------------- rendering

  /** A description longer than 60 characters is cut to 60 plus "...". */
  function Truncate(description: string): (shown: string)
    ensures |shown| <= 63
    ensures |description| <= 60 ==> shown == description
    ensures |description| > 60 ==> |shown| == 63 && shown[..60] == description[..60] && shown[60..] == "..."
  {
    if |description| > 60 then description[..60] + "..." else description
  }

  /** Shortening an already shortened description changes nothing. */
  lemma TruncateIdempotent(description: string)
    ensures Truncate(Truncate(description)) == Truncate(description)
  {
    var once := Truncate(description);
    if |description| > 60 {
      assert once[..60] + "..." == once;
    }
  }

  /** The description line appears only for a truthy description. */
  function ShownDescription(description: Option<string>): (line: Option<string>)
    ensures line.Some? <==> Truthy(description)
    ensures line.Some? ==> line.value == Truncate(description.value)
    ensures line.Some? ==> 0 < |line.value| <= 63
    ensures Truthy(description) && |description.value| <= 60 ==> line == description
  {
    if Truthy(description) then Some(Truncate(description.value)) else None
  }

  /** The arguments the Approve button passes to `onAction`. */
  function ApproveAction(report: ClientReport): (string, string) { (report.id, "Approved") }

  /** The arguments the Reject button passes to `onAction`. */
  function RejectAction(report: ClientReport): (string, string) { (report.id, "Rejected") }

  /** Approving a listed report through the dashboard's `handleAction` makes
      the "Approved" count positive. */
  lemma {:induction false} ApproveIsCounted(reports: seq<ClientReport>, report: ClientReport)
    requires report in reports
    ensures var (id, status) := ApproveAction(report);
      CountStatus(SetStatusById(reports, id, status), "Approved") > 0
  {
    var updated := SetStatusById(reports, report.id, "Approved");
    var i :| 0 <= i < |reports| && reports[i] == report;
    assert updated[i].status == "Approved";
    assert updated[i] in Filter(updated, (r: ClientReport) => r.status == "Approved");
  }

  /** Rejecting a listed report makes the "Rejected" count positive. */
  lemma {:induction false} RejectIsCounted(reports: seq<ClientReport>, report: ClientReport)
    requires report in reports
    ensures var (id, status) := RejectAction(report);
      CountStatus(SetStatusById(reports, id, status), "Rejected") > 0
  {
    var updated := SetStatusById(reports, report.id, "Rejected");
    var i :| 0 <= i < |reports| && reports[i] == report;
    assert updated[i].status == "Rejected";
    assert updated[i] in Filter(updated, (r: ClientReport) => r.status == "Rejected");
  }
}
