/**
  The report form of frontend/src/components/ReportForm.jsx: the same list
  handling as the backend copy, without feedback, image or filter, and with
  a JSON body.
 */
module FrontendReportForm {
  import opened Wrappers
  import opened Text
  import opened FormCommon

  /** The JSON body of the submit. Coordinates are sent as typed. */
  datatype JsonBody = JsonBody(description: string, hazardType: string, lat: string, lon: string)

  class FrontendForm {
    var description: string
    var hazardType: string
    var lat: string
    var lon: string
    var reports: seq<FormReport>
    var loading: bool
    var success: string

    constructor (initialReports: seq<FormReport>, defaultLat: Option<string>, defaultLon: Option<string>)
      ensures reports == initialReports && !loading && success == ""
      ensures description == "" && hazardType == ""
      ensures lat == Or(defaultLat, "") && lon == Or(defaultLon, "")
    {
      description, hazardType := "", "";
      lat, lon := Or(defaultLat, ""), Or(defaultLon, "");
      reports, loading, success := initialReports, false, "";
    }

    /** The effect on `defaultLat` / `defaultLon`. */
    method ApplyDefaults(defaultLat: Option<string>, defaultLon: Option<string>)
      modifies this
      ensures lat == ApplyDefault(old(lat), defaultLat) && lon == ApplyDefault(old(lon), defaultLon)
      ensures description == old(description) && hazardType == old(hazardType)
      ensures reports == old(reports) && loading == old(loading) && success == old(success)
    {
      if Truthy(defaultLat) { lat := defaultLat.value; }
      if Truthy(defaultLon) { lon := defaultLon.value; }
    }

    /** `handleSubmit` with the server's `reply`: the body sent, the report
        handed to `onCreated` and the alert text. `loading` ends false on
        every path. */
    method Submit(reply: SubmitReply) returns (sent: JsonBody, created: Option<FormReport>, alert: Option<string>)
      modifies this
      ensures sent == JsonBody(old(description), old(hazardType), old(lat), old(lon))
      ensures !loading
      ensures reply.Created? ==>
        && reports == old(reports) + [reply.report]
        && created == Some(reply.report) && alert == None
        && description == "" && hazardType == "" && lat == "" && lon == ""
        && success == SubmittedMessage
      ensures !reply.Created? ==>
        && reports == old(reports) && created == None && alert == Some(FailureText(reply))
        && description == old(description) && hazardType == old(hazardType)
        && lat == old(lat) && lon == old(lon) && success == ""
    {
      loading := true;
      success := "";
      sent := JsonBody(description, hazardType, lat, lon);
      created, alert := None, None;
      if reply.Created? {
        reports := reports + [reply.report];
        created := Some(reply.report);
        description, hazardType, lat, lon := "", "", "", "";
        success := SubmittedMessage;
      } else {
        alert := Some(FailureText(reply));
      }
      loading := false;
    }

    /** `handleDelete(target)`: an ok answer keeps exactly the reports whose
        `_id` differs from the target, in order; otherwise the error's message
        is alerted and nothing changes. */
    method Delete(target: Option<string>, reply: DeleteReply) returns (deleted: Option<Option<string>>, alert: Option<string>)
      modifies this
      ensures reply.Removed? ==> reports == RemoveById(old(reports), target) && deleted == Some(target) && alert == None
      ensures reply.NotOk? ==> reports == old(reports) && deleted == None && alert == Some("Failed to delete")
      ensures reply.Thrown? ==> reports == old(reports) && deleted == None && alert == Some(reply.message)
      ensures description == old(description) && hazardType == old(hazardType)
      ensures lat == old(lat) && lon == old(lon) && loading == old(loading) && success == old(success)
    {
      match reply {
        case NotOk => return None, Some("Failed to delete");
        case Thrown(message) => return None, Some(message);
        case Removed =>
      }
      reports := RemoveById(reports, target);
      deleted, alert := Some(target), None;
    }
  }
}
