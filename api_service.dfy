/**
  frontend/src/services/api.js: the `authenticateToken` middleware and
  POST /api/reports of a second Express router. jsonwebtoken's verify is the
  input `verify`; the document store behind `Report.create` is represented
  only by whether the call succeeds.
 */
module ApiService {
  import opened Wrappers
  import opened Text
  import opened Http
  import AuthRoutes
  import Db

  /** `authHeader && authHeader.split(" ")[1]` */
  function HeaderToken(authorization: Option<string>): Option<string>
  {
    if Truthy(authorization) then SecondWord(authorization.value) else None
  }

  /** `authenticateToken`: 401 "Missing token" when there is no header or no
      non-empty second field, 403 "Invalid token" when verification fails,
      otherwise `req.user` is set and `next` runs once. */
  method AuthenticateToken(ex: Exchange, verify: string -> Option<Payload>)
    requires ex.nextCalls == 0 && ex.reply == None
    modifies ex
    ensures !Truthy(HeaderToken(ex.authorization)) ==>
      ex.reply == Some((401, "Missing token")) && ex.nextCalls == 0 && ex.user == old(ex.user)
    ensures Truthy(HeaderToken(ex.authorization)) ==>
      var decoded := verify(HeaderToken(ex.authorization).value);
      if decoded.None? then ex.reply == Some((403, "Invalid token")) && ex.nextCalls == 0 && ex.user == old(ex.user)
      else ex.user == decoded && ex.nextCalls == 1 && ex.reply == None
  {
    var token := HeaderToken(ex.authorization);
    if !Truthy(token) {
      ex.Reject(401, "Missing token");
      return;
    }
    var decoded := verify(token.value);
    if decoded.None? {
      ex.Reject(403, "Invalid token");
    } else {
      ex.Admit(decoded.value);
    }
  }

  /** The JSON body; `None` for a field that is absent or null. */
  datatype Fields = Fields(description: Option<string>, hazardType: Option<string>, lat: Option<real>, lon: Option<real>)

  /** The document handed to `Report.create`. */
  datatype Record = Record(description: string, hazardType: string, lat: real, lon: real,
                           status: string, userId: Option<string>, createdAt: int)

  /** `!description || !hazard_type || lat == null || lon == null` */
  predicate MissingFields(f: Fields)
  {
    !Truthy(f.description) || !Truthy(f.hazardType) || f.lat.None? || f.lon.None?
  }

  /** POST /api/reports for the verified token payload `user`: 400 when a
      field is missing (a coordinate of 0 is present), 500 when the store
      fails, otherwise 201 with a "New" record of the submitted fields and the
      payload's `id` as owner. */
  method CreateReport(f: Fields, user: Payload, storeSucceeds: bool, now: int) returns (r: Response<Record>)
    ensures MissingFields(f) ==> r == Fail(400, "Missing required fields")
    ensures !MissingFields(f) && !storeSucceeds ==> r == Fail(500, "Failed to create report")
    ensures !MissingFields(f) && storeSucceeds ==>
      && r.Ok? && r.code == 201
      && r.value.status == "New"
      && r.value.description == f.description.value && r.value.hazardType == f.hazardType.value
      && r.value.lat == f.lat.value && r.value.lon == f.lon.value
      && r.value.userId == (if "id" in user then Some(user["id"]) else None)
      && r.value.createdAt == now
  {
    if MissingFields(f) {
      return Fail(400, "Missing required fields");
    }
    var record := Record(f.description.value, f.hazardType.value, f.lat.value, f.lon.value,
                         "New", if "id" in user then Some(user["id"]) else None, now);
    if !storeSucceeds {
      return Fail(500, "Failed to create report");
    }
    r := Ok(201, record);
  }

  /** Coordinates of 0 are accepted: only an absent value is missing. */
  lemma ZeroCoordinatesAccepted(description: string, hazardType: string)
    requires description != "" && hazardType != ""
    ensures !MissingFields(Fields(Some(description), Some(hazardType), Some(0.0), Some(0.0)))
  {
  }

  /** The tokens issued by backend/src/routes/auth.js carry `sub`, not `id`,
      so a report created with one of them has no owner. */
  lemma AuthTokensLeaveOwnerUnset(u: Db.User)
    ensures "id" !in AuthRoutes.Claims(u)
  {
  }
}
