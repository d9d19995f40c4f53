/**
  The report form of backend/src/components/ReportForm.jsx: its field state,
  the submit and delete handlers, the hazard-type filter, the default
  coordinates and the page layout of the all-reports PDF.
 */
module BackendReportForm {
  import opened Wrappers
  import opened Text
  import opened Seqs
  import opened FormCommon

  /** The multipart body of the submit. Coordinates are sent as typed; the
      image part is present only when a file is chosen. */
  datatype Upload = Upload(description: string, hazardType: string, feedback: string,
                           lat: string, lon: string, image: Option<string>)

  /** `filteredReports`: "all" shows everything, any other value the reports
      of exactly that hazard type. */
  function Filtered(reports: seq<FormReport>, filter: string): (r: seq<FormReport>)
    ensures filter == "all" ==> r == reports
    ensures filter != "all" ==> forall i :: 0 <= i < |r| ==> r[i] in reports && r[i].hazardType == Some(filter)
    ensures filter != "all" ==> forall i :: 0 <= i < |reports| && reports[i].hazardType == Some(filter) ==> reports[i] in r
  {
    if filter == "all" then reports else Filter(reports, (x: FormReport) => x.hazardType == Some(filter))
  }

  /** Filtering twice by the same value is filtering once. */
  lemma FilteredIdempotent(reports: seq<FormReport>, filter: string)
    ensures Filtered(Filtered(reports, filter), filter) == Filtered(reports, filter)
  {
    if filter != "all" {
      var p := (x: FormReport) => x.hazardType == Some(filter);
      FilterAll(Filter(reports, p), p);
    }
  }

  class BackendForm {
    var description: string
    var hazardType: string
    var feedback: string
    var image: Option<string>
    var lat: string
    var lon: string
    var reports: seq<FormReport>
    var loading: bool
    var success: string
    var filter: string

    constructor (initialReports: seq<FormReport>, defaultLat: Option<string>, defaultLon: Option<string>)
      ensures reports == initialReports && filter == "all" && !loading && success == ""
      ensures description == "" && hazardType == "" && feedback == "" && image == None
      ensures lat == Or(defaultLat, "") && lon == Or(defaultLon, "")
    {
      description, hazardType, feedback, image := "", "", "", None;
      lat, lon := Or(defaultLat, ""), Or(defaultLon, "");
      reports, loading, success, filter := initialReports, false, "", "all";
    }

    /** The effect on `defaultLat` / `defaultLon`. */
    method ApplyDefaults(defaultLat: Option<string>, defaultLon: Option<string>)
      modifies this
      ensures lat == ApplyDefault(old(lat), defaultLat) && lon == ApplyDefault(old(lon), defaultLon)
      ensures description == old(description) && hazardType == old(hazardType) && feedback == old(feedback)
      ensures image == old(image) && reports == old(reports) && loading == old(loading)
      ensures success == old(success) && filter == old(filter)
    {
      if Truthy(defaultLat) { lat := defaultLat.value; }
      if Truthy(defaultLon) { lon := defaultLon.value; }
    }

    /** `handleSubmit` with the server's `reply`. It returns the body sent,
        the report handed to `onCreated`, and the text of the alert. */
    method Submit(reply: SubmitReply) returns (sent: Upload, created: Option<FormReport>, alert: Option<string>)
      modifies this
      ensures sent == Upload(old(description), old(hazardType), old(feedback), old(lat), old(lon), old(image))
      ensures !loading && filter == old(filter)
      ensures reply.Created? ==>
        && reports == old(reports) + [reply.report]
        && created == Some(reply.report) && alert == None
        && description == "" && hazardType == "" && feedback == "" && lat == "" && lon == ""
        && image == None && success == SubmittedMessage
      ensures !reply.Created? ==>
        && reports == old(reports) && created == None && alert == Some(FailureText(reply))
        && description == old(description) && hazardType == old(hazardType) && feedback == old(feedback)
        && lat == old(lat) && lon == old(lon) && image == old(image) && success == ""
    {
      loading := true;
      success := "";
      sent := Upload(description, hazardType, feedback, lat, lon, image);
      created, alert := None, None;
      match reply {
        case Created(report) =>
          reports := reports + [report];
          created := Some(report);
          description, hazardType, feedback, lat, lon := "", "", "", "", "";
          image := None;
          success := SubmittedMessage;
        case Refused(_) =>
          alert := Some(FailureText(reply));
        case Broken(_) =>
          alert := Some(FailureText(reply));
      }
      loading := false;
    }

    /** `handleDelete(target)` with what the DELETE request turned into. Only
        an ok answer removes rows, and then exactly those whose `_id` is the
        target; `onDeleted` is told the target. Otherwise the error's message
        is alerted and nothing changes. */
    method Delete(target: Option<string>, reply: DeleteReply) returns (deleted: Option<Option<string>>, alert: Option<string>)
      modifies this
      ensures reply.Removed? ==> reports == RemoveById(old(reports), target) && deleted == Some(target) && alert == None
      ensures reply.NotOk? ==> reports == old(reports) && deleted == None && alert == Some("Failed to delete")
      ensures reply.Thrown? ==> reports == old(reports) && deleted == None && alert == Some(reply.message)
      ensures description == old(description) && hazardType == old(hazardType) && feedback == old(feedback)
      ensures image == old(image) && lat == old(lat) && lon == old(lon)
      ensures loading == old(loading) && success == old(success) && filter == old(filter)
    {
      match reply {
        case NotOk => return None, Some("Failed to delete");
        case Thrown(message) => return None, Some(message);
        case Removed =>
      }
      reports := RemoveById(reports, target);
      deleted, alert := Some(target), None;
    }
  }

  // ------------------------------------------------------- all-reports PDF

  /** How many reports fit on page `page`: the first starts lower, at 40. */
  function Capacity(page: nat): nat { if page == 0 then 10 else 11 }

  /** The index of the first report on `page`. */
  function FirstOnPage(page: nat): nat { if page == 0 then 0 else 10 + 11 * (page - 1) }

  /** The y of the first report line on `page`. */
  function Top(page: nat): int { if page == 0 then 40 else 20 }

  /** The page the report with index `k` is drawn on. */
  function PageOf(k: nat): nat { if k < 10 then 0 else 1 + (k - 10) / 11 }

  /** The y of the first line of report `k`; its second line is 10 lower. */
  function YOf(k: nat): int { if k < 10 then 40 + 25 * k else 20 + 25 * ((k - 10) % 11) }

  /** The number of pages of a document with `n` reports. */
  function PageCount(n: nat): nat { if n < 10 then 1 else 2 + (n - 10) / 11 }

  /** Report `FirstOnPage(p) + slot` is the `slot`-th report of page `p`. */
  lemma PlaceOfIndex(page: nat, slot: nat)
    requires slot < Capacity(page)
    ensures PageOf(FirstOnPage(page) + slot) == page
    ensures YOf(FirstOnPage(page) + slot) == Top(page) + 25 * slot
  {
    if page > 0 {
      var k := FirstOnPage(page) + slot;
      assert k - 10 == 11 * (page - 1) + slot;
    }
  }

  /** The y / page loop of `handleDownloadAllPDF` for `n` reports: it returns
      each report's (page, y) and the number of pages. */
  method ExportAllLayout(n: nat) returns (placements: seq<(nat, int)>, pages: nat)
    ensures |placements| == n
    ensures forall k :: 0 <= k < n ==> placements[k] == (PageOf(k), YOf(k))
    ensures pages == PageCount(n)
  {
    var y := 40;
    pages := 1;
    placements := [];
    var i := 0;
    ghost var slot: nat := 0;
    while i < n
      invariant i <= n && |placements| == i && pages >= 1
      invariant forall k :: 0 <= k < i ==> placements[k] == (PageOf(k), YOf(k))
      invariant slot < Capacity(pages - 1)
      invariant i == FirstOnPage(pages - 1) + slot
      invariant y == Top(pages - 1) + 25 * slot
    {
      PlaceOfIndex(pages - 1, slot);
      placements := placements + [(pages - 1, y)];
      y := y + 25;
      if y > 270 {
        pages := pages + 1;
        y := 20;
        slot := 0;
      } else {
        slot := slot + 1;
      }
      i := i + 1;
    }
    PageCountOf(pages - 1, slot);
  }

  lemma PageCountOf(page: nat, slot: nat)
    requires slot < Capacity(page)
    ensures PageCount(FirstOnPage(page) + slot) == page + 1
  {
    if page > 0 {
      var k := FirstOnPage(page) + slot;
      assert k - 10 == 11 * (page - 1) + slot;
    }
  }

  /** Both lines of every report lie within [20, 280]. */
  lemma LinesOnPage(k: nat)
    ensures 20 <= YOf(k) && YOf(k) + 10 <= 280
  {
  }

  /** The first page holds the reports 0..9, every later page eleven. */
  lemma PageHolds(k: nat)
    ensures PageOf(k) == 0 <==> k < 10
    ensures PageOf(k) > 0 ==> FirstOnPage(PageOf(k)) <= k < FirstOnPage(PageOf(k)) + 11
  {
  }

  /** The last page is empty exactly when the last report fills its page:
      with ten reports, for example, a blank second page is added. */
  lemma TrailingBlankPage(n: nat)
    requires n > 0
    ensures PageOf(n - 1) + 1 < PageCount(n) <==> n >= 10 && (n - 10) % 11 == 0
  {
  }

  lemma TenReportsTwoPages()
    ensures PageCount(10) == 2 && PageOf(9) == 0
  {
  }
}
