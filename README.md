# Ocean hazard platform — a Dafny model of its core

The platform lets citizens report coastal hazards (oil spills, cyclones, storm
surges, high tides, swell, flooding). An Express backend stores the reports in
PostgreSQL, scores each one's credibility, classifies its text and broadcasts
new and verified reports; React clients submit, list, filter, sort, favourite,
approve and delete them.

This project models, in Dafny:

- **Credibility** (`credibility.dfy`): the capped weighted sum over trust,
  media, social matches and nearby reports, over reals.
- **Nlp** (`nlp.dfy`): `classifyText` — the external classifier's answer when
  it succeeds (an input), otherwise the ordered keyword table searched
  first-match in the lower-cased text.
- **Db**, **ReportRoutes** (`db.dfy`, `reports_routes.dfy`): the `users`,
  `reports` and `verifications` tables and the socket.io broadcast as the
  fields of a `Database` object; the list-query builder (conditions and
  parameters pushed step by step, placeholders numbered from `$1`), fetch by
  id, create (user lookup → classify → score → insert as `pending` → emit
  `reports:new`) and verify (append a verification → overwrite the status →
  emit `reports:update`). An invariant ties the tables together: unique ids
  and emails, foreign keys, credibility in [0.6, 1], and every report's status
  equal to that of its latest verification.
- **Http**, **AuthRoutes**, **FeedbackRoutes**, **ApiService** (`http.dfy`,
  `auth_routes.dfy`, `feedback_routes.dfy`, `api_service.dfy`): registration
  and login outcomes, the three token middlewares (exact `"Bearer "` prefix in
  the form of section 2.1 of RFC 6750 but case-sensitive, and the two that
  split the header on spaces), and the required-field checks.
- **Dashboard**, **FeedPanel** (`dashboard.dfy`, `feed_panel.dfy`): the
  dashboard's report list, favourites and handlers; the
  filter/search/sort/slice pipeline and the status counts; the feed's
  highlight list, shortened descriptions and Approve/Reject buttons.
- **FormCommon**, **BackendReportForm**, **FrontendReportForm**
  (`form_common.dfy`, `backend_report_form.dfy`, `frontend_report_form.dfy`):
  the two report forms' submit and delete handlers, default coordinates,
  hazard filter, display defaults, and the page layout loop of the
  all-reports PDF.
- **AuthForm** (`auth_form.dfy`): the password-strength meter and the
  sign-in / registration submit with its remember-me storage.

Wrappers, Text and Seqs hold the shared `Option`, the string functions
(ASCII lower-casing, substring search, split/join, number printing) and
`filter`.

Calls the code makes into libraries or services are parameters of the
model: the external classifier's answer, bcrypt (`hash`,
`passwordMatches`), jsonwebtoken's `verify` (a partial function to a claims
map), express-validator's `isEmail`, the uuid PostgreSQL generates, the clock,
the uploaded file's name, and each fetch's answer in the clients.

Two points where the code does less than its surroundings suggest, and the
model follows the code:

- The comment at backend/src/services/credibility.js:2 gives the score a
  range of about [0, 1], but line 8 only caps it above, so negative counts
  give a negative score (`Credibility.NegativeCountsGoBelowZero`).
- The verify handler (backend/src/routes/reports.js:117-127) stores whatever
  status it is sent; no set of allowed statuses is checked.

## Model

| member | source | states |
|---|---|---|
| Credibility.CredibilityScore | backend/src/services/credibility.js:7-9 | the score never exceeds 1 nor the uncapped sum, and is at least the 0.2 base when both counts are non-negative |
| Credibility.OnlyUpperCap | backend/src/services/credibility.js:7-8 | the uncapped sum is returned unchanged up to 1 and replaced by 1 above it; there is no lower clamp |
| Credibility.NegativeCountsGoBelowZero | backend/src/services/credibility.js:5-8 | negative social matches drive the score below 0 |
| Credibility.TrustContribution | backend/src/services/credibility.js:3 | trust contributes max(0, min(trust/10, 0.3)); a missing or zero trust gives 0, any trust of 3 or more the full 0.3 |
| Credibility.MediaContribution | backend/src/services/credibility.js:4 | attaching media adds exactly 0.25 to the uncapped sum |
| Credibility.CountContributions | backend/src/services/credibility.js:5-6 | social and cluster weights are s/5 and c/3 below their caps 0.25 and 0.2, and capped above only |
| Credibility.Monotone | backend/src/services/credibility.js:3-8 | raising any input or attaching media never lowers the score |
| Credibility.RawScoreAtMost | backend/src/services/credibility.js:3-7 | the uncapped sum is at most 1.2 |
| Credibility.Extremes | backend/src/services/credibility.js:3-8 | all inputs zero gives exactly 0.2; saturated inputs give an uncapped 1.2 and a score of exactly 1 |
| Credibility.TrustedMediaExample | backend/src/services/credibility.js:3-8 | trust 5 with media and no corroboration scores 0.75 |
| Nlp.FirstMatch | backend/src/services/nlp.js:19 | `find` returns the first table entry whose keyword occurs, and nothing exactly when no keyword occurs |
| Nlp.ClassifyText | backend/src/services/nlp.js:3-22 | a successful external answer is returned unchanged; the fallback always has language "unknown", score 0.3, explain "fallback-rules" and a hazard type among the seven categories |
| Nlp.FallbackIsFirstMatch | backend/src/services/nlp.js:9-20 | the fallback hazard type is the category of the first keyword, in table order, occurring in the lower-cased text, and "unknown" when none occurs |
| Nlp.FallbackIgnoresCase | backend/src/services/nlp.js:9 | a text and its lower-cased form classify alike |
| Nlp.OilAlwaysWins | backend/src/services/nlp.js:11 | any text containing "oil" is an oil spill |
| Nlp.StormBeforeFlood | backend/src/services/nlp.js:10-19 | table order decides ties: "storm" wins over "flood" and the keywords after it |
| Nlp.SoilIsOilSpill | backend/src/services/nlp.js:11 | "Soil" is classified as an oil spill, since "soil" contains "oil" |
| Http.SecondWord | frontend/src/services/api.js:9 | `split(" ")[1]` exists exactly when the header has a space, contains no space, and is the text after the first space up to the next |
| Http.Exchange.Reject | backend/src/routes/auth.js:85 | an error reply is recorded; `req.user` and `next` are untouched |
| Http.Exchange.Admit | backend/src/routes/auth.js:88-89 | `req.user` becomes the payload and `next` runs once more |
| Db.FindUser | backend/src/routes/reports.js:67-71 | the row found has the id asked for; none exactly when no row has it |
| Db.FindUserByEmail | backend/src/routes/auth.js:55-56 | the row found has the email asked for; none exactly when no row has it |
| Db.FindReport | backend/src/routes/reports.js:129-132 | the row found has the id asked for; none exactly when no row has it |
| Db.CurrentStatusAppend | backend/src/routes/reports.js:119-127 | a new verification decides its own report's status and no other's |
| Db.SetStatus | backend/src/routes/reports.js:124-127 | UPDATE changes the status of the rows with that id and nothing else |
| Db.Database.constructor | backend/src/lib/db.js:33-63 | the empty tables satisfy the schema invariant |
| ReportRoutes.ConditionsAt | backend/src/routes/reports.js:24-28 | condition i compares column i with placeholder $(i+1) |
| ReportRoutes.ConditionsPush | backend/src/routes/reports.js:23-30 | pushing one more column adds exactly its condition, numbered one past the columns before it |
| ReportRoutes.PushFilter | backend/src/routes/reports.js:23-30 | a truthy value pushes its column's next-numbered condition and the value itself; a missing or empty one pushes nothing |
| ReportRoutes.ListQuery | backend/src/routes/reports.js:19-35 | parameters are the filter values in the order type, status, then the limit (default 100), one per placeholder; the statement's WHERE clause is the numbered conditions of the filtered columns and LIMIT is bound to the last parameter |
| ReportRoutes.ListQueryUnfiltered | backend/src/routes/reports.js:19 | with no filters the WHERE clause is empty, LIMIT is $1 and its value 100 |
| ReportRoutes.TwoConditions | backend/src/routes/reports.js:23-30 | the hazard-type and status conditions are numbered $1 and $2 |
| ReportRoutes.TwoConditionsJoined | backend/src/routes/reports.js:32 | they are joined with AND after WHERE |
| ReportRoutes.BothFiltersWhere | backend/src/routes/reports.js:23-32 | with both filters the WHERE clause tests hazard type against $1 and status against $2 |
| ReportRoutes.BothFiltersParams | backend/src/routes/reports.js:34-35 | with both filters the values are type, status, limit and LIMIT is $3 |
| ReportRoutes.GetReport | backend/src/routes/reports.js:46-58 | an id that is not uuid input makes the query throw and answers 500 "Failed to fetch report"; a uuid no row has answers 404 "Report not found"; otherwise 200 with the row of that id |
| ReportRoutes.ShortIdFetchFails | backend/src/routes/reports.js:46-58 | a path segment such as "abc", shorter than any uuid spelling, answers 500 rather than 404 |
| Db.UuidBytesLength | backend/src/lib/db.js:43 | uuid input from byte i on holds two hex digits per remaining byte, at most one hyphen after every second byte, and the closing brace if opened |
| Db.UuidLength | backend/src/lib/db.js:43 | any text PostgreSQL accepts as a uuid has 32 to 41 characters |
| Db.CanonicalIsUuid | backend/src/lib/db.js:43 | the 8-4-4-4-12 form that gen_random_uuid() produces is accepted as uuid input |
| ReportRoutes.CreationScore | backend/src/routes/reports.js:78-83 | a new report's credibility lies in [0.6, 1], and in [0.85, 1] with media |
| ReportRoutes.NewReport | backend/src/routes/reports.js:85-100 | the inserted row is "pending", owned by the token's user, with the classifier's language, the submitted hazard type when truthy else the classifier's, the submitted coordinates, the current time, and the media URL "/uploads/" + the file name exactly when a file came |
| ReportRoutes.CreateReport | backend/src/routes/reports.js:62-111 | a token subject that is not uuid input makes the user query throw, answering 400 with PostgreSQL's invalid-uuid message and changing nothing; otherwise as CreateForUser |
| ReportRoutes.CreateForUser | backend/src/routes/reports.js:67-107 | for a uuid subject: an unknown user answers 400 "User not found" and a failing insert 400 with the database error, both changing nothing; success appends one row and emits exactly one "reports:new" carrying the row returned; the tables stay valid |
| ReportRoutes.ReportIdsAppend | backend/src/routes/reports.js:85-100 | an insert adds exactly its id to the report ids |
| ReportRoutes.CurrentStatusAbsent | backend/src/lib/db.js:56-63 | a report id not in the table has no verification, so its status starts as "pending" |
| ReportRoutes.VerifyReport | backend/src/routes/reports.js:115-139 | an id or subject that is not uuid input, a `null` status (the default replaces only an absent one) or a missing report or user makes the insert fail, answering 400 with PostgreSQL's message and changing nothing; otherwise one verification (report, token subject, status defaulting to "verified", note to "") is appended, the report's status is set to it unchecked, and exactly one "reports:update" with the reread row is emitted; the tables stay valid |
| ReportRoutes.RecordVerification | backend/src/routes/reports.js:119-132 | for an existing report and user: the verification is appended, only that report's status changes, the reread row carries the new status and is broadcast once, and the tables stay valid |
| ReportRoutes.NullStatusRejected | backend/src/routes/reports.js:117-122 | a body with `"status": null` and well-formed ids fails on the NOT NULL status column |
| ReportRoutes.FindAfterSetStatus | backend/src/routes/reports.js:129-132 | rereading an existing report after the update finds it, with the new status |
| ReportRoutes.SetStatusKeepsRows | backend/src/routes/reports.js:124-127 | the status update changes no id, owner or score |
| ReportRoutes.StatusFollowsVerification | backend/src/routes/reports.js:119-127 | after insert-then-update every report's status is still that of its latest verification |
| ReportRoutes.InsertKeepsValid | backend/src/routes/reports.js:85-100 | inserting a fresh pending, scored row of an existing user keeps the schema invariant |
| ReportRoutes.VerifyKeepsValid | backend/src/routes/reports.js:119-127 | recording a verification of an existing report by an existing user keeps the schema invariant |
| AuthRoutes.Claims | backend/src/routes/auth.js:34 | tokens carry exactly `sub` (the user id) and `role` |
| AuthRoutes.Register | backend/src/routes/auth.js:12-43 | a short name, bad email or short password answers 400 before hashing or inserting; a duplicate id or email answers 400; success inserts a "citizen" with trust 0 and returns `{sub, role}` and the user |
| AuthRoutes.UserIdsAppend | backend/src/routes/auth.js:25-30 | an insert adds exactly its id to the user ids |
| AuthRoutes.Login | backend/src/routes/auth.js:46-77 | an unknown email and a wrong password get the same 401 "Invalid credentials"; success returns `{sub, role}` and only the public fields of the user with that email |
| AuthRoutes.BearerToken | backend/src/routes/auth.js:82-85 | a token exists exactly when the header starts with "Bearer " and has text after it, and the header is "Bearer " followed by the token |
| AuthRoutes.BearerIsCaseSensitive | backend/src/routes/auth.js:83-85 | "bearer …" and a bare "Bearer " give no token |
| AuthRoutes.Auth | backend/src/routes/auth.js:81-93 | no usable token answers 401 "Missing token", a failed verification 401 "Invalid token", both without `next`; otherwise `req.user` is the payload and `next` runs once |
| FeedbackRoutes.VerifyToken | backend/src/routes/feedback.js:30-42 | no header answers 401 "No token provided", no second field 401 "Invalid token", a failed verification 403 "Invalid token"; otherwise `req.user` is set and `next` runs once |
| FeedbackRoutes.SubmitFeedback | backend/src/routes/feedback.js:7-26 | a falsy message answers 400 "Message is required"; any other is acknowledged with ok true and nothing stored |
| FeedbackRoutes.DoubleSpaceIsInvalid | backend/src/routes/feedback.js:34-35 | a header with two spaces after the scheme has an empty second field |
| ApiService.AuthenticateToken | frontend/src/services/api.js:7-17 | no header or second field answers 401 "Missing token", a failed verification 403 "Invalid token"; otherwise `req.user` is set and `next` runs once |
| ApiService.CreateReport | frontend/src/services/api.js:20-45 | a falsy description or hazard type or an absent coordinate answers 400 "Missing required fields"; a store failure 500 "Failed to create report"; otherwise 201 with a "New" record of the fields owned by the payload's `id` |
| ApiService.ZeroCoordinatesAccepted | frontend/src/services/api.js:24 | coordinates equal to 0 are not missing |
| ApiService.AuthTokensLeaveOwnerUnset | frontend/src/services/api.js:35 | the backend's tokens carry no `id`, so such a record has no owner |
| Dashboard.SetStatusById | frontend/src/App.jsx:54-55 | length and order are kept; exactly the reports with the id get the new status, all else unchanged |
| Dashboard.LastActionWins | frontend/src/App.jsx:54-55 | acting twice on an id leaves only the second status |
| Dashboard.Toggle | frontend/src/App.jsx:56-59 | the id is a favourite afterwards exactly when it was not before, other ids are untouched, and a duplicate-free list stays duplicate-free |
| Dashboard.ToggleTwiceRestores | frontend/src/App.jsx:56-59 | toggling an absent id twice restores the list |
| Dashboard.ToggleTwiceReorders | frontend/src/App.jsx:56-59 | toggling a present id twice moves it to the end rather than restoring the list |
| Dashboard.LexCompare | frontend/src/App.jsx:77 | the comparison is -1, 0 or 1, and 0 exactly for equal strings |
| Dashboard.LexCompareAntisymmetric | frontend/src/App.jsx:77 | swapping the operands negates the comparison |
| Dashboard.CmpTotal | frontend/src/App.jsx:74-79 | the comparator orders any two reports one way or the other |
| Dashboard.Insert | frontend/src/App.jsx:74-79 | insertion keeps every element and adds one |
| Dashboard.Sort | frontend/src/App.jsx:74-79 | sorting is a permutation of its input |
| Dashboard.InsertSorted | frontend/src/App.jsx:74-79 | inserting into a sorted list keeps it sorted |
| Dashboard.SortSorted | frontend/src/App.jsx:74-79 | the sorted list is in comparator order |
| Dashboard.SortUnknownKey | frontend/src/App.jsx:78 | any other key leaves the list in its order |
| Dashboard.Take | frontend/src/App.jsx:80 | `slice(0, n)` is a prefix of length min(n, length) |
| Dashboard.VisibleAreSelected | frontend/src/App.jsx:66-80 | any prefix of the sorted selection holds only reports of the list that pass the status filter and the search |
| Dashboard.FilteredReports | frontend/src/App.jsx:66-80 | at most `visibleCount` reports, each one of `reports`, matching the search case-insensitively in hazard type or description, and with exactly the filter's status unless the filter is "All" |
| Dashboard.LatestFirst | frontend/src/App.jsx:75 | under "latest" timestamps are non-increasing |
| Dashboard.OldestFirst | frontend/src/App.jsx:76 | under "oldest" timestamps are non-decreasing |
| Dashboard.ByStatus | frontend/src/App.jsx:77 | under "status" statuses are in order |
| Dashboard.OtherKeyKeepsOrder | frontend/src/App.jsx:74-80 | any other key shows the first reports that pass the filter, in list order |
| Dashboard.NothingHiddenWithinLimit | frontend/src/App.jsx:66-80 | every report passing the filter is shown when they fit within `visibleCount` |
| Dashboard.CountsBounded | frontend/src/App.jsx:82-86 | the three counts add up to at most the number of reports |
| Dashboard.ComputeStats | frontend/src/App.jsx:82-86 | the stats' counts add up to at most the number of reports |
| Dashboard.UnlabelledNotCounted | frontend/src/App.jsx:82-86 | statuses other than "Pending", "Approved", "Rejected" (the server's "pending" among them) are counted nowhere |
| Dashboard.DashboardState.constructor | frontend/src/App.jsx:42-50 | empty lists, filter "All", empty search, sort "latest", five visible |
| Dashboard.DashboardState.HandleAction | frontend/src/App.jsx:54-55 | the report list is replaced by its status update; nothing else changes |
| Dashboard.DashboardState.ToggleFavorite | frontend/src/App.jsx:56-59 | the favourites are toggled; nothing else changes |
| Dashboard.DashboardState.HandleAddReport | frontend/src/App.jsx:60-63 | the report goes first in both `reports` and `initialReports`; nothing else changes |
| FeedPanel.NewIds | frontend/src/components/FeedPanel.jsx:11-13 | every id listed belongs to a report and is not highlighted, and every report not highlighted has its id listed |
| FeedPanel.NewIdsInOrder | frontend/src/components/FeedPanel.jsx:11-13 | the new ids are exactly the ids of the reports not highlighted, in report order and with repetitions, as filter-then-map gives them |
| FeedPanel.AppendThenExpire | frontend/src/components/FeedPanel.jsx:15-19 | removing the appended ids gives back the list from before the append |
| FeedPanel.FeedPanelState.OnReports | frontend/src/components/FeedPanel.jsx:8-16 | an empty report list changes nothing; otherwise the new ids are appended and returned for expiry |
| FeedPanel.FeedPanelState.Expire | frontend/src/components/FeedPanel.jsx:17-19 | exactly the given ids are removed, the rest kept in order |
| FeedPanel.HighlightRound | frontend/src/components/FeedPanel.jsx:8-21 | after the effect every report is highlighted, and after the timer the list is as before |
| FeedPanel.Truncate | frontend/src/components/FeedPanel.jsx:70-72 | a description over 60 characters shows its first 60 plus "..." (63 in all); shorter ones unchanged |
| FeedPanel.TruncateIdempotent | frontend/src/components/FeedPanel.jsx:70-72 | shortening twice is shortening once |
| FeedPanel.ShownDescription | frontend/src/components/FeedPanel.jsx:68-74 | the line appears exactly for a truthy description; it is never empty and at most 63 characters, and a description of up to 60 characters is shown whole |
| FeedPanel.ApproveIsCounted | frontend/src/components/FeedPanel.jsx:80 | Approve passes the report's id and "Approved", after which the dashboard counts an approved report |
| FeedPanel.RejectIsCounted | frontend/src/components/FeedPanel.jsx:86 | Reject passes the report's id and "Rejected", after which the dashboard counts a rejected report |
| FormCommon.RemoveById | backend/src/components/ReportForm.jsx:74 | exactly the reports whose `_id` differs from the target are kept |
| FormCommon.RemoveDistributes | frontend/src/components/ReportForm.jsx:71 | the kept reports stay in their original order |
| FormCommon.DeleteRemovesOwnRow | backend/src/components/ReportForm.jsx:74 | a report with a truthy `_id` is removed by its own button |
| FormCommon.DeleteWithoutMongoIdKeepsAll | frontend/src/components/ReportForm.jsx:194 | a report with only `id` is never removed by its button |
| FormCommon.DeleteUndefinedRemovesAllWithoutMongoId | backend/src/components/ReportForm.jsx:272 | a report with neither id passes undefined, which removes every report lacking `_id` |
| FormCommon.FailureText | backend/src/components/ReportForm.jsx:45 | the alert shows the server's truthy error, else "Failed to submit report", or the exception's message; it is empty only for an exception with an empty message |
| FormCommon.Or | backend/src/components/ReportForm.jsx:11-12 | the JavaScript "or" default shows a truthy value itself and otherwise the fallback; it is empty exactly when the value is falsy and the fallback empty |
| FormCommon.ApplyDefaultIdempotent | frontend/src/components/ReportForm.jsx:15-18 | rerunning the effect with the same defaults changes nothing more |
| FormCommon.PdfLabelsNeverEmpty | backend/src/components/ReportForm.jsx:101-104 | the PDF shows feedback or "N/A" and status or "Pending", never an empty text |
| BackendReportForm.Filtered | backend/src/components/ReportForm.jsx:129-130 | "all" returns the list unchanged; any other value keeps exactly the reports of that hazard type |
| BackendReportForm.FilteredIdempotent | backend/src/components/ReportForm.jsx:129-130 | filtering twice is filtering once |
| BackendReportForm.BackendForm.constructor | backend/src/components/ReportForm.jsx:7-16 | empty fields, the initial reports, filter "all", coordinates from the defaults |
| BackendReportForm.BackendForm.ApplyDefaults | backend/src/components/ReportForm.jsx:18-21 | truthy defaults overwrite lat and lon; nothing else changes |
| BackendReportForm.BackendForm.Submit | backend/src/components/ReportForm.jsx:24-62 | success appends the server's report at the end, clears description, hazard type, feedback, lat, lon and image and shows the success message; a failure alerts and changes no field or list; loading ends false |
| BackendReportForm.BackendForm.Delete | backend/src/components/ReportForm.jsx:65-79 | an ok answer removes exactly the reports whose `_id` is the target; an answer that is not ok alerts "Failed to delete" and a rejected fetch alerts the error's own message, both changing nothing |
| BackendReportForm.PlaceOfIndex | backend/src/components/ReportForm.jsx:114-124 | the slot-th report of a page is drawn on that page at the page's top plus 25 per slot |
| BackendReportForm.ExportAllLayout | backend/src/components/ReportForm.jsx:110-126 | the loop places report k on page PageOf(k) at YOf(k) and produces PageCount(n) pages |
| BackendReportForm.PageCountOf | backend/src/components/ReportForm.jsx:119-123 | the page count is one more than the number of page breaks |
| BackendReportForm.LinesOnPage | backend/src/components/ReportForm.jsx:117-118 | both lines of every report lie within y in [20, 280] |
| BackendReportForm.PageHolds | backend/src/components/ReportForm.jsx:114-124 | the first page holds reports 0 to 9, every later page eleven |
| BackendReportForm.TrailingBlankPage | backend/src/components/ReportForm.jsx:120-123 | the last page is blank exactly when the last report fills its page |
| BackendReportForm.TenReportsTwoPages | backend/src/components/ReportForm.jsx:114-124 | ten reports fit on the first page yet produce two pages |
| FrontendReportForm.FrontendForm.constructor | frontend/src/components/ReportForm.jsx:7-13 | empty fields, the initial reports, coordinates from the defaults |
| FrontendReportForm.FrontendForm.ApplyDefaults | frontend/src/components/ReportForm.jsx:15-18 | truthy defaults overwrite lat and lon; nothing else changes |
| FrontendReportForm.FrontendForm.Submit | frontend/src/components/ReportForm.jsx:21-57 | success appends the returned report at the end and clears description, hazard type, lat and lon; a failure alerts and changes no list or field; loading ends false on every path |
| FrontendReportForm.FrontendForm.Delete | frontend/src/components/ReportForm.jsx:60-76 | an ok answer keeps exactly the reports whose `_id` differs from the target; an answer that is not ok alerts "Failed to delete" and a rejected fetch alerts the error's own message, both changing nothing |
| AuthForm.CheckStrength | backend/src/components/Authform.jsx:28-33 | "Weak" exactly below 6 characters; from 6 on, "Strong" exactly with an upper-case letter, a digit and a symbol, else "Medium" |
| AuthForm.ClassesSurviveAppend | backend/src/components/Authform.jsx:30 | a character class found stays found after appending |
| AuthForm.StrongStaysStrong | backend/src/components/Authform.jsx:28-33 | appending to a strong password keeps it strong |
| AuthForm.StrengthExamples | backend/src/components/Authform.jsx:29-32 | "A1!" is weak despite its classes; "abcdef" is medium |
| AuthForm.AuthFormState.constructor | backend/src/components/Authform.jsx:20-26 | a saved email is filled in and ticks Remember me |
| AuthForm.AuthFormState.SetPassword | backend/src/components/Authform.jsx:155-156 | the strength shown is that of the typed password |
| AuthForm.AuthFormState.Submit | backend/src/components/Authform.jsx:35-77 | in register mode a mismatch reports "Passwords do not match" and sends nothing; login posts {email, password} to /api/auth/login, register {name, email, password} to /api/auth/register; the token is stored only after an ok answer, with rememberEmail stored or removed by Remember me; a refusal shows its error or "Authentication failed"; loading ends false |

## Left out

- Database, network and server plumbing: the connection pool, the DDL of
  `initDb` (its constraints appear as the `Db.ValidTables` invariant), server
  start-up, socket.io wiring (a broadcast is an entry of the event log) and
  the multer upload directory.
- ReportRoutes.ListQuery: the statement is built, not executed; how
  PostgreSQL filters, orders and limits rows is not modelled.
- ReportRoutes.VerifyReport: the handler issues two separate queries; a crash
  or a concurrent request between them is outside this sequential model. A
  verification row's own uuid is not modelled.
- ReportRoutes.CreateReport: on a database error the reply carries
  PostgreSQL's message; only the not-null, unique and foreign-key
  violations that the schema can raise and invalid uuid input are modelled
  (`Db.QueryError`), with the driver's message text rebuilt from the
  constraint's names or the input.
- ReportRoutes.GetReport, ReportRoutes.CreateReport, ReportRoutes.VerifyReport:
  ids are compared as text. PostgreSQL reads upper-case digits, braces and
  other hyphen places as the same uuid; the model matches a row only by the
  exact text stored.
- ReportRoutes.VerifyReport: a status or note that is a JSON number, boolean
  or object is not modelled; a field is absent, `null` or a string.
- AuthRoutes.Register, AuthRoutes.Login: the validator's 400 body is an
  array of errors; the model represents it by its first message "Invalid
  value".
- ApiService.CreateReport: the 201 body is the record handed to
  `Report.create`; the stored document's own `_id` and any other field the
  store adds are not modelled. Body fields are strings or reals, absent or
  null; a coordinate of another JSON type (which passes the `== null` test)
  or a non-string description or hazard type is not modelled.
- JSON web tokens: signing is represented by the claims signed; `iat`, `exp`,
  the secret and the signature are not modelled.
- Text.ToLower: lower-cases ASCII letters only; JavaScript's full Unicode case
  mapping is not modelled. String lengths count characters, not UTF-16 code
  units.
- Dashboard.LexCompare: `localeCompare` is modelled as code-point order;
  locale-specific collation is not modelled.
- Dashboard.Sort: timestamps are integers; a missing timestamp (NaN in the
  comparator) is not modelled.
- The hazard filter select of the dashboard calls an undefined setter and has
  no behaviour; all JSX rendering, tabs, charts and the progress-bar
  percentage are left out.
- BackendReportForm.BackendForm.Submit and
  FrontendReportForm.FrontendForm.Submit: coordinates are sent as typed;
  `parseFloat` and `toFixed` are not modelled, nor the stored token in the
  Authorization header.
- BackendReportForm.ExportAllLayout: only the page and y arithmetic is
  modelled; jsPDF drawing, the line texts and saving are not.
- The single-report PDF: only its "N/A" and "Pending" defaults are modelled
  (`FormCommon.PdfLabelsNeverEmpty`); the timestamp
  fallback to the current time is not.
- Geolocation (`getLocation`), `alert` display, `setTimeout` timing and the
  `onCreated` / `onDeleted` / `onLogin` callbacks' effects: an alert is the
  text returned, a timer's work is a separate method, a callback is the
  value returned to it.
- The backend router has no DELETE route; the forms' delete answers are an
  input, so what a real server answers is not modelled.
- AuthForm.AuthFormState.Submit: the token of an ok answer is taken to be a
  string; an answer without one (stored as "undefined") is not modelled.
- localStorage is a map from keys to strings; the theme toggle's use of it is
  left out.
- backend/src/routes/support.js: its table is never created and its import
  does not resolve, so it is not part of this model.
- Floating point: scores and coordinates are reals; rounding is not modelled.
- The UI-only components (map, report card and list, verify panel, theme
  toggle, landing page, feedback form) are not part of this model.
