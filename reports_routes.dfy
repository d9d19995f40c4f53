/**
  The report endpoints of backend/src/routes/reports.js over the in-memory
  tables of `Db`: the list query builder, fetch by id, create and verify.
  The external classifier's answer, the uploaded file name, the new uuid and
  the clock reading are inputs of the handlers.
 */
module ReportRoutes {
  import opened Wrappers
  import opened Text
  import opened Http
  import opened Db
  import Credibility
  import Nlp

  // ---------------------------------------------------------------- GET /

  /** A bound value of a parameterised query: query-string text, or the
      numeric default of `limit`. */
  datatype Param = Text(text: string) | Number(n: int)

  /** `$n` */
  function Placeholder(n: nat): string { "$" + NatToString(n) }

  /** The columns filtered on, in the order the handler tests them. */
  function FilterColumns(typ: Option<string>, status: Option<string>): seq<string>
  {
    (if Truthy(typ) then ["hazard_type"] else []) + (if Truthy(status) then ["status"] else [])
  }

  /** The values bound to the filter placeholders, in the same order. */
  function FilterValues(typ: Option<string>, status: Option<string>): seq<Param>
  {
    (if Truthy(typ) then [Text(typ.value)] else []) + (if Truthy(status) then [Text(status.value)] else [])
  }

  /** `${column} = $${n}` */
  function Condition(column: string, n: nat): string { column + " = " + Placeholder(n) }

  /** The conditions pushed for `columns`, one after the other. */
  function Conditions(columns: seq<string>): (r: seq<string>)
    ensures |r| == |columns|
  {
    if columns == [] then []
    else
      var n := |columns| - 1;
      Conditions(columns[..n]) + [Condition(columns[n], n + 1)]
  }

  /** Each condition is numbered one past the values pushed before it, so
      condition `i` compares column `i` with placeholder `$(i+1)`. */
  lemma {:induction false} ConditionsAt(columns: seq<string>, i: nat)
    requires i < |columns|
    ensures Conditions(columns)[i] == Condition(columns[i], i + 1)
  {
    var n := |columns| - 1;
    if i < n {
      ConditionsAt(columns[..n], i);
    }
  }

  /** Pushing one more column adds its condition, numbered next. */
  lemma ConditionsPush(columns: seq<string>, column: string)
    ensures Conditions(columns + [column]) == Conditions(columns) + [Condition(column, |columns| + 1)]
  {
    assert (columns + [column])[..|columns|] == columns;
  }

  /** `parts.length ? "WHERE " + parts.join(" AND ") : ""` */
  function WhereOf(parts: seq<string>): string
  {
    if parts == [] then "" else "WHERE " + Join(parts, " AND ")
  }

  /** The WHERE clause filtering on `columns`. */
  function WhereClause(columns: seq<string>): string
  {
    WhereOf(Conditions(columns))
  }

  /** The statement text around the WHERE clause and the LIMIT placeholder. */
  function Statement(where: string, limitPlaceholder: nat): string
  {
    "SELECT * FROM reports " + where + " ORDER BY created_at DESC LIMIT " + Placeholder(limitPlaceholder)
  }

  /** `limit = 100` when the query string has none. */
  function LimitParam(limit: Option<string>): Param
  {
    match limit
    case None => Number(100)
    case Some(l) => Text(l)
  }

  /** One `if (value) { parts.push(...); vals.push(value); }` block of the
      handler: a truthy value adds a condition on `column` numbered one past
      the values so far, and the value itself. */
  method PushFilter(parts: seq<string>, vals: seq<Param>, column: string, value: Option<string>,
                    ghost columns: seq<string>)
    returns (parts': seq<string>, vals': seq<Param>)
    requires parts == Conditions(columns) && |vals| == |columns|
    ensures parts' == Conditions(columns + (if Truthy(value) then [column] else []))
    ensures vals' == vals + (if Truthy(value) then [Text(value.value)] else [])
  {
    parts', vals' := parts, vals;
    if Truthy(value) {
      ConditionsPush(columns, column);
      parts' := parts + [Condition(column, |vals| + 1)];
      vals' := vals + [Text(value.value)];
    } else {
      assert columns + [] == columns;
    }
  }

  /** The statement and parameters GET / sends. Placeholders are numbered
      from $1: first the filters, in the order type, status, then LIMIT; the
      parameter array has exactly one value per placeholder. */
  method ListQuery(typ: Option<string>, status: Option<string>, limit: Option<string>)
    returns (sql: string, params: seq<Param>)
    ensures params == FilterValues(typ, status) + [LimitParam(limit)]
    ensures |params| == |FilterColumns(typ, status)| + 1
    ensures sql == Statement(WhereClause(FilterColumns(typ, status)), |params|)
  {
    var parts: seq<string> := [];
    var vals: seq<Param> := [];
    ghost var first := if Truthy(typ) then ["hazard_type"] else [];
    parts, vals := PushFilter(parts, vals, "hazard_type", typ, []);
    assert [] + first == first;
    parts, vals := PushFilter(parts, vals, "status", status, first);
    ghost var columns := FilterColumns(typ, status);
    assert parts == Conditions(columns);
    assert vals == FilterValues(typ, status);
    assert |vals| == |columns|;
    sql := Statement(WhereOf(parts), |vals| + 1);
    params := vals + [LimitParam(limit)];
  }

  /** With no filters the WHERE clause is empty, LIMIT is $1 and defaults to 100. */
  lemma ListQueryUnfiltered()
    ensures WhereClause(FilterColumns(None, Some(""))) == ""
    ensures FilterValues(None, Some("")) + [LimitParam(None)] == [Number(100)]
    ensures Placeholder(1) == "$1"
  {
  }

  /** The two filter conditions are numbered $1 and $2. */
  lemma TwoConditions()
    ensures Conditions(["hazard_type", "status"]) == ["hazard_type = $1", "status = $2"]
  {
    assert Placeholder(1) == "$1" && Placeholder(2) == "$2";
    var c := Conditions(["hazard_type", "status"]);
    ConditionsAt(["hazard_type", "status"], 0);
    ConditionsAt(["hazard_type", "status"], 1);
    assert c[0] == "hazard_type = $1" && c[1] == "status = $2";
  }

  lemma TwoConditionsJoined()
    ensures WhereClause(["hazard_type", "status"]) == "WHERE " + "hazard_type = $1" + " AND " + "status = $2"
  {
    TwoConditions();
    var parts := ["hazard_type = $1", "status = $2"];
    assert parts[1..] == ["status = $2"];
    assert Join(parts, " AND ") == "hazard_type = $1" + " AND " + "status = $2";
  }

  /** Both filters: the WHERE clause tests hazard type against $1 and status against $2. */
  lemma BothFiltersWhere(typ: string, status: string)
    requires typ != "" && status != ""
    ensures WhereClause(FilterColumns(Some(typ), Some(status))) == "WHERE " + "hazard_type = $1" + " AND " + "status = $2"
  {
    assert FilterColumns(Some(typ), Some(status)) == ["hazard_type", "status"];
    TwoConditionsJoined();
  }

  /** Both filters: the values are bound in the order type, status, limit, and LIMIT is $3. */
  lemma BothFiltersParams(typ: string, status: string, limit: string)
    requires typ != "" && status != ""
    ensures FilterValues(Some(typ), Some(status)) + [LimitParam(Some(limit))] == [Text(typ), Text(status), Text(limit)]
    ensures Placeholder(|FilterColumns(Some(typ), Some(status))| + 1) == "$3"
  {
  }

  // ------------------------------------------------------------- GET /:id

  /** GET /:id. A path segment that is not uuid input makes the query throw,
      which the handler answers with 500. */
  function GetReport(db: Database, id: Id): (r: Response<Report>)
    reads db
    ensures !IsUuid(id) ==> r == Fail(500, "Failed to fetch report")
    ensures IsUuid(id) && id !in ReportIds(db.reports) ==> r == Fail(404, "Report not found")
    ensures IsUuid(id) && id in ReportIds(db.reports) ==>
      r.Ok? && r.code == 200 && r.value in db.reports && r.value.id == id
  {
    if !IsUuid(id) then Fail(500, "Failed to fetch report")
    else match FindReport(db.reports, id)
      case None => Fail(404, "Report not found")
      case Some(report) => Ok(200, report)
  }

  /** A path segment shorter than any uuid spelling, such as "abc", is
      answered with 500 rather than 404. */
  lemma ShortIdFetchFails(db: Database, id: Id)
    requires |id| < 32
    ensures GetReport(db, id) == Fail(500, "Failed to fetch report")
  {
    if IsUuid(id) {
      UuidLength(id);
      assert false;
    }
  }

  // ---------------------------------------------------------------- POST /

  /** The multipart fields of a submission; `None` for a field not sent. */
  datatype Submission = Submission(description: Option<string>, lat: Option<real>, lon: Option<real>, hazardType: Option<string>)

  /** The credibility given to a new report: trust from the user row, media
      present or not, and the fixed counts socialMatches = 1, distanceCluster = 1. */
  function CreationScore(trust: real, hasMedia: bool): (score: real)
    ensures 0.6 <= score <= 1.0
    ensures hasMedia ==> 0.85 <= score
  {
    Credibility.TrustContribution(Some(trust));
    Credibility.CredibilityScore(Credibility.Signals(Some(trust), hasMedia, 1.0, 1.0))
  }

  /** The row INSERT stores for a submission by `user`. */
  function NewReport(id: Id, user: User, s: Submission, mediaFile: Option<string>,
                     nlp: Nlp.Classification, now: int): (r: Report)
    requires s.lat.Some? && s.lon.Some?
    ensures r.id == id && r.userId == user.id && r.status == "pending"
    ensures r.language == nlp.language && r.description == s.description
    ensures r.hazardType == if Truthy(s.hazardType) then s.hazardType.value else nlp.hazardType
    ensures r.mediaUrl.Some? <==> mediaFile.Some?
    ensures mediaFile.Some? ==> r.mediaUrl.value == "/uploads/" + mediaFile.value
    ensures r.lat == s.lat.value && r.lon == s.lon.value && r.createdAt == now
    ensures 0.6 <= r.credibility <= 1.0
    ensures mediaFile.Some? ==> 0.85 <= r.credibility
  {
    var mediaUrl := if mediaFile.Some? then Some("/uploads/" + mediaFile.value) else None;
    Report(id, user.id, s.description,
      if Truthy(s.hazardType) then s.hazardType.value else nlp.hazardType,
      nlp.language, CreationScore(user.trustScore, mediaUrl.Some?), "pending",
      s.lat.value, s.lon.value, mediaUrl, now)
  }

  /** The PostgreSQL error, if any, that INSERT INTO reports raises for this submission. */
  function InsertReportError(reports: seq<Report>, id: Id, s: Submission): Option<QueryError>
  {
    if s.lat.None? then Some(NotNullViolation("lat", "reports"))
    else if s.lon.None? then Some(NotNullViolation("lon", "reports"))
    else if id in ReportIds(reports) then Some(UniqueViolation("reports_pkey"))
    else None
  }

  /** POST / for the token subject `sub`: look the user up, classify, score,
      insert as 'pending', broadcast "reports:new". Any failure answers 400 and
      leaves every table and the broadcast log as they were; a subject that is
      not uuid input already fails the user query. */
  method CreateReport(db: Database, sub: Id, s: Submission, mediaFile: Option<string>,
                      external: Option<Nlp.Classification>, id: Id, now: int)
    returns (r: Response<Report>)
    requires db.Valid()
    modifies db
    ensures db.Valid()
    ensures db.users == old(db.users) && db.verifications == old(db.verifications)
    ensures !IsUuid(sub) ==> r == Fail(400, InvalidUuid(sub).Message()) && unchanged(db)
    ensures IsUuid(sub) && FindUser(old(db.users), sub).None? ==>
      r == Fail(400, "User not found") && unchanged(db)
    ensures IsUuid(sub) && FindUser(old(db.users), sub).Some? && InsertReportError(old(db.reports), id, s).Some? ==>
      r == Fail(400, InsertReportError(old(db.reports), id, s).value.Message()) && unchanged(db)
    ensures IsUuid(sub) && FindUser(old(db.users), sub).Some? && InsertReportError(old(db.reports), id, s).None? ==>
      var row := NewReport(id, FindUser(old(db.users), sub).value, s, mediaFile,
                           Nlp.ClassifyText(external, s.description.GetOr("")), now);
      && r == Ok(201, row)
      && db.reports == old(db.reports) + [row]
      && db.events == old(db.events) + [Event("reports:new", row)]
  {
    if !IsUuid(sub) {
      return Fail(400, InvalidUuid(sub).Message());
    }
    r := CreateForUser(db, sub, s, mediaFile, external, id, now);
  }

  /** POST / once `sub` has been read as a uuid. */
  method CreateForUser(db: Database, sub: Id, s: Submission, mediaFile: Option<string>,
                       external: Option<Nlp.Classification>, id: Id, now: int)
    returns (r: Response<Report>)
    requires db.Valid()
    modifies db
    ensures db.Valid()
    ensures db.users == old(db.users) && db.verifications == old(db.verifications)
    ensures FindUser(old(db.users), sub).None? ==>
      r == Fail(400, "User not found") && unchanged(db)
    ensures FindUser(old(db.users), sub).Some? && InsertReportError(old(db.reports), id, s).Some? ==>
      r == Fail(400, InsertReportError(old(db.reports), id, s).value.Message()) && unchanged(db)
    ensures FindUser(old(db.users), sub).Some? && InsertReportError(old(db.reports), id, s).None? ==>
      var row := NewReport(id, FindUser(old(db.users), sub).value, s, mediaFile,
                           Nlp.ClassifyText(external, s.description.GetOr("")), now);
      && r == Ok(201, row)
      && db.reports == old(db.reports) + [row]
      && db.events == old(db.events) + [Event("reports:new", row)]
  {
    var user := FindUser(db.users, sub);
    if user.None? {
      return Fail(400, "User not found");
    }
    var nlp := Nlp.ClassifyText(external, s.description.GetOr(""));
    var error := InsertReportError(db.reports, id, s);
    if error.Some? {
      return Fail(400, error.value.Message());
    }
    var row := NewReport(id, user.value, s, mediaFile, nlp, now);
    InsertKeepsValid(db.users, db.reports, db.verifications, row);
    db.reports := db.reports + [row];
    db.events := db.events + [Event("reports:new", row)];
    r := Ok(201, row);
  }

  lemma ReportIdsAppend(reports: seq<Report>, row: Report)
    ensures ReportIds(reports + [row]) == ReportIds(reports) + {row.id}
  {
    var r := reports + [row];
    forall x | x in ReportIds(r) ensures x in ReportIds(reports) + {row.id} {
      var i :| 0 <= i < |r| && r[i].id == x;
      if i < |reports| { assert reports[i].id == x; }
    }
    forall x | x in ReportIds(reports) ensures x in ReportIds(r) {
      var i :| 0 <= i < |reports| && reports[i].id == x;
      assert r[i].id == x;
    }
    assert r[|reports|].id == row.id;
  }

  /** A report id that is not in the table has no verifications yet, so its
      current status is "pending". */
  lemma {:induction false} CurrentStatusAbsent(verifications: seq<Verification>, reports: seq<Report>, id: Id)
    requires forall i :: 0 <= i < |verifications| ==> verifications[i].reportId in ReportIds(reports)
    requires id !in ReportIds(reports)
    ensures CurrentStatus(verifications, id) == "pending"
  {
    if verifications != [] {
      CurrentStatusAbsent(verifications[..|verifications| - 1], reports, id);
    }
  }

  // ------------------------------------------------------ PUT /:id/verify

  /** A string field of a JSON body: not sent, sent as `null`, or a string. */
  datatype JsonField = Absent | Null | Given(value: string)

  /** `const { field = fallback } = body`: the default replaces only an absent
      field; `null` stays null (`None`). */
  function WithDefault(field: JsonField, fallback: string): Option<string>
  {
    match field
    case Absent => Some(fallback)
    case Null => None
    case Given(v) => Some(v)
  }

  /** The JSON body of a verification. */
  datatype Decision = Decision(status: JsonField, note: JsonField)

  /** The PostgreSQL error, if any, that INSERT INTO verifications raises: the
      uuid parameters are read first ($1 the report, $2 the verifier), then
      the NOT NULL status is checked, then the foreign keys. */
  function InsertVerificationError(reports: seq<Report>, users: seq<User>, reportId: Id, sub: Id,
                                   status: Option<string>): Option<QueryError>
  {
    if !IsUuid(reportId) then Some(InvalidUuid(reportId))
    else if !IsUuid(sub) then Some(InvalidUuid(sub))
    else if status.None? then Some(NotNullViolation("status", "verifications"))
    else if reportId !in ReportIds(reports) then
      Some(ForeignKeyViolation("verifications", "verifications_report_id_fkey"))
    else if sub !in UserIds(users) then
      Some(ForeignKeyViolation("verifications", "verifications_verifier_id_fkey"))
    else None
  }

  /** A body with `"status": null` and ids in the canonical form that the
      tables hand out is rejected by the NOT NULL constraint on status. */
  lemma NullStatusRejected(reports: seq<Report>, users: seq<User>, reportId: Id, sub: Id, note: JsonField)
    requires Canonical(reportId) && Canonical(sub)
    ensures InsertVerificationError(reports, users, reportId, sub, WithDefault(Decision(Null, note).status, "verified"))
      == Some(NotNullViolation("status", "verifications"))
  {
    CanonicalIsUuid(reportId);
    CanonicalIsUuid(sub);
  }

  /** PUT /:id/verify for the token subject `sub`: append one verification
      (an absent status defaults to "verified", an absent note to ""), set the report's status to it,
      reread the row and broadcast it as "reports:update". The status is not
      checked against any set of allowed values. A failed insert answers 400
      and changes nothing. */
  method VerifyReport(db: Database, reportId: Id, sub: Id, d: Decision, now: int)
    returns (r: Response<Report>)
    requires db.Valid()
    modifies db
    ensures db.Valid()
    ensures db.users == old(db.users)
    ensures var error := InsertVerificationError(old(db.reports), old(db.users), reportId, sub,
                                                 WithDefault(d.status, "verified"));
      error.Some? ==> r == Fail(400, error.value.Message()) && unchanged(db)
    ensures InsertVerificationError(old(db.reports), old(db.users), reportId, sub,
                                    WithDefault(d.status, "verified")).None? ==>
      var status := WithDefault(d.status, "verified").value;
      var updated := FindReport(SetStatus(old(db.reports), reportId, status), reportId);
      && db.verifications == old(db.verifications) + [Verification(reportId, sub, status, WithDefault(d.note, ""), now)]
      && db.reports == SetStatus(old(db.reports), reportId, status)
      && updated.Some? && updated.value.status == status
      && r == Ok(200, updated.value)
      && db.events == old(db.events) + [Event("reports:update", updated.value)]
  {
    var statusField := WithDefault(d.status, "verified");
    var error := InsertVerificationError(db.reports, db.users, reportId, sub, statusField);
    if error.Some? {
      return Fail(400, error.value.Message());
    }
    var updated := RecordVerification(db, Verification(reportId, sub, statusField.value, WithDefault(d.note, ""), now));
    r := Ok(200, updated);
  }

  /** The three queries of PUT /:id/verify once the insert is accepted: append
      `v`, set its report's status, reread the row and broadcast it. */
  method RecordVerification(db: Database, v: Verification) returns (updated: Report)
    requires db.Valid()
    requires v.reportId in ReportIds(db.reports) && v.verifierId in UserIds(db.users)
    modifies db
    ensures db.Valid()
    ensures db.users == old(db.users)
    ensures db.verifications == old(db.verifications) + [v]
    ensures db.reports == SetStatus(old(db.reports), v.reportId, v.status)
    ensures FindReport(db.reports, v.reportId) == Some(updated) && updated.status == v.status
    ensures db.events == old(db.events) + [Event("reports:update", updated)]
  {
    VerifyKeepsValid(db.users, db.reports, db.verifications, v);
    FindAfterSetStatus(db.reports, v.reportId, v.status);
    var reports := SetStatus(db.reports, v.reportId, v.status);
    updated := FindReport(reports, v.reportId).value;
    db.verifications := db.verifications + [v];
    db.reports := reports;
    db.events := db.events + [Event("reports:update", updated)];
  }

  /** Rereading a report after UPDATE ... SET status finds it with the new status. */
  lemma FindAfterSetStatus(reports: seq<Report>, id: Id, status: string)
    requires id in ReportIds(reports)
    ensures FindReport(SetStatus(reports, id, status), id).Some?
    ensures FindReport(SetStatus(reports, id, status), id).value.status == status
  {
    var r := SetStatus(reports, id, status);
    SetStatusKeepsRows(reports, id, status);
    var f := FindReport(r, id).value;
    var i :| 0 <= i < |r| && r[i] == f;
  }

  /** UPDATE ... SET status changes no id, owner or score. */
  lemma SetStatusKeepsRows(reports: seq<Report>, id: Id, status: string)
    ensures ReportIds(SetStatus(reports, id, status)) == ReportIds(reports)
    ensures forall i :: 0 <= i < |reports| ==>
      var r := SetStatus(reports, id, status)[i];
      r.id == reports[i].id && r.userId == reports[i].userId && r.credibility == reports[i].credibility
  {
    var r := SetStatus(reports, id, status);
    forall x | x in ReportIds(reports) ensures x in ReportIds(r) {
      var i :| 0 <= i < |reports| && reports[i].id == x;
      assert r[i].id == x;
    }
    forall x | x in ReportIds(r) ensures x in ReportIds(reports) {
      var i :| 0 <= i < |r| && r[i].id == x;
      assert reports[i].id == x;
    }
  }

  /** If every report's status is that of its latest verification, then after
      appending `v` and setting `v`'s report to `v.status` this still holds. */
  lemma StatusFollowsVerification(reports: seq<Report>, verifications: seq<Verification>, v: Verification)
    requires forall i :: 0 <= i < |reports| ==> reports[i].status == CurrentStatus(verifications, reports[i].id)
    ensures var r := SetStatus(reports, v.reportId, v.status);
      forall i :: 0 <= i < |r| ==> r[i].status == CurrentStatus(verifications + [v], r[i].id)
  {
    var r := SetStatus(reports, v.reportId, v.status);
    forall i | 0 <= i < |r| ensures r[i].status == CurrentStatus(verifications + [v], r[i].id) {
      CurrentStatusAppend(verifications, v, r[i].id);
    }
  }

  /** Inserting a fresh pending row of an existing user, scored in [0.6, 1],
      keeps the tables valid. */
  lemma InsertKeepsValid(users: seq<User>, reports: seq<Report>, verifications: seq<Verification>, row: Report)
    requires ValidTables(users, reports, verifications)
    requires row.id !in ReportIds(reports) && row.userId in UserIds(users)
    requires row.status == "pending" && 0.6 <= row.credibility <= 1.0
    ensures ValidTables(users, reports + [row], verifications)
  {
    CurrentStatusAbsent(verifications, reports, row.id);
    ReportIdsAppend(reports, row);
  }

  /** Recording verification `v` of an existing report by an existing user and
      setting that report's status keeps the tables valid. */
  lemma VerifyKeepsValid(users: seq<User>, reports: seq<Report>, verifications: seq<Verification>, v: Verification)
    requires ValidTables(users, reports, verifications)
    requires v.reportId in ReportIds(reports) && v.verifierId in UserIds(users)
    ensures ValidTables(users, SetStatus(reports, v.reportId, v.status), verifications + [v])
  {
    SetStatusKeepsRows(reports, v.reportId, v.status);
    StatusFollowsVerification(reports, verifications, v);
  }
}
