/**
  The three tables created by `initDb` in backend/src/lib/db.js (users,
  reports, verifications) and the socket.io broadcast, held in memory. Ids are
  the uuids PostgreSQL generates; they are supplied by the caller here.
 */
module Db {
  import opened Wrappers

  type Id = string

  /** A row of `users`. */
  datatype User = User(id: Id, name: string, email: string, passwordHash: string, role: string, trustScore: real)

  /** A row of `reports`. */
  datatype Report = Report(
    id: Id, userId: Id, description: Option<string>, hazardType: string, language: string,
    credibility: real, status: string, lat: real, lon: real, mediaUrl: Option<string>, createdAt: int)

  /** A row of `verifications` (its own uuid is not modelled). */
  datatype Verification = Verification(reportId: Id, verifierId: Id, status: string, note: Option<string>, createdAt: int)

  /** A broadcast `io.emit(name, report)`. */
  datatype Event = Event(name: string, report: Report)

  /** An error PostgreSQL raises on a query: a constraint violation, or a
      parameter that is not valid uuid input. `Message` is the text the
      driver reports and the handlers answer with. */
  datatype QueryError =
    | UniqueViolation(constraint: string)
    | ForeignKeyViolation(table: string, constraint: string)
    | NotNullViolation(column: string, relation: string)
    | InvalidUuid(input: string)
  {
    function Message(): string
    {
      match this
      case UniqueViolation(c) => "duplicate key value violates unique constraint \"" + c + "\""
      case ForeignKeyViolation(t, c) => "insert or update on table \"" + t + "\" violates foreign key constraint \"" + c + "\""
      case NotNullViolation(col, rel) => "null value in column \"" + col + "\" of relation \"" + rel + "\" violates not-null constraint"
      case InvalidUuid(text) => "invalid input syntax for type uuid: \"" + text + "\""
    }
  }

  // ------------------------------------------------------ uuid input syntax

  predicate IsHexDigit(c: char) { '0' <= c <= '9' || 'a' <= c <= 'f' || 'A' <= c <= 'F' }

  /** PostgreSQL's uuid input from byte `i` of 16 on: two hex digits per byte,
      a hyphen allowed after each odd-numbered byte but the last, then the
      closing brace when the text opened with one, then the end. */
  predicate UuidBytes(s: string, i: nat, braced: bool)
    decreases 16 - i
  {
    if i >= 16 then s == (if braced then "}" else "")
    else
      && |s| >= 2 && IsHexDigit(s[0]) && IsHexDigit(s[1])
      && UuidBytes(AfterByte(s, i), i + 1, braced)
  }

  /** What follows the two digits of byte `i`, past the hyphen allowed there. */
  function AfterByte(s: string, i: nat): string
    requires |s| >= 2
  {
    var rest := s[2..];
    if |rest| > 0 && rest[0] == '-' && i % 2 == 1 && i < 15 then rest[1..] else rest
  }

  /** Whether PostgreSQL accepts `s` where a uuid is expected. */
  predicate IsUuid(s: string)
  {
    if |s| > 0 && s[0] == '{' then UuidBytes(s[1..], 0, true) else UuidBytes(s, 0, false)
  }

  /** The hyphens still allowed from byte `i` on. */
  function HyphensFrom(i: nat): nat { if i >= 15 then 0 else (15 - i) / 2 }

  lemma {:induction false} UuidBytesLength(s: string, i: nat, braced: bool)
    requires i <= 16 && UuidBytes(s, i, braced)
    ensures 2 * (16 - i) + (if braced then 1 else 0) <= |s|
    ensures |s| <= 2 * (16 - i) + HyphensFrom(i) + (if braced then 1 else 0)
    decreases 16 - i
  {
    if i < 16 {
      UuidBytesLength(AfterByte(s, i), i + 1, braced);
    }
  }

  /** A uuid is written with 32 to 41 characters: 32 hex digits, up to seven
      hyphens and optional braces. In particular a short text such as "abc"
      is not a uuid. */
  lemma UuidLength(s: string)
    requires IsUuid(s)
    ensures 32 <= |s| <= 41
  {
    if |s| > 0 && s[0] == '{' {
      UuidBytesLength(s[1..], 0, true);
    } else {
      UuidBytesLength(s, 0, false);
    }
  }

  /** The canonical 8-4-4-4-12 form that gen_random_uuid() produces. */
  predicate Canonical(s: string)
  {
    && |s| == 36
    && s[8] == '-' && s[13] == '-' && s[18] == '-' && s[23] == '-'
    && forall k :: 0 <= k < 36 && k != 8 && k != 13 && k != 18 && k != 23 ==> IsHexDigit(s[k])
  }

  /** Where byte `i` starts in the canonical form. */
  function CanonicalOffset(i: nat): nat
  {
    2 * i + (if i >= 4 then 1 else 0) + (if i >= 6 then 1 else 0)
      + (if i >= 8 then 1 else 0) + (if i >= 10 then 1 else 0)
  }

  /** In the canonical form byte `i` is two hex digits, and after them, past
      the hyphen that follows bytes 3, 5, 7 and 9, byte `i + 1` starts. */
  lemma CanonicalByte(s: string, i: nat)
    requires Canonical(s) && i < 16
    ensures CanonicalOffset(i) + 2 <= |s|
    ensures var t := s[CanonicalOffset(i)..];
      IsHexDigit(t[0]) && IsHexDigit(t[1]) && AfterByte(t, i) == s[CanonicalOffset(i + 1)..]
  {
    var o := CanonicalOffset(i);
    var t := s[o..];
    assert t[0] == s[o] && t[1] == s[o + 1];
    assert t[2..] == s[o + 2..];
    if i == 3 || i == 5 || i == 7 || i == 9 {
      assert t[2] == s[o + 2] == '-';
      assert t[3..] == s[o + 3..];
    } else if o + 2 < |s| {
      assert t[2] == s[o + 2];
      assert IsHexDigit(s[o + 2]);
    }
  }

  lemma {:induction false} CanonicalBytes(s: string, i: nat)
    requires Canonical(s) && i <= 16
    ensures UuidBytes(s[CanonicalOffset(i)..], i, false)
    decreases 16 - i
  {
    if i < 16 {
      CanonicalByte(s, i);
      CanonicalBytes(s, i + 1);
    }
  }

  /** Every canonical uuid is accepted. */
  lemma CanonicalIsUuid(s: string)
    requires Canonical(s)
    ensures IsUuid(s)
  {
    CanonicalBytes(s, 0);
    assert s[0..] == s;
  }

  function UserIds(users: seq<User>): set<Id> { set i | 0 <= i < |users| :: users[i].id }

  function ReportIds(reports: seq<Report>): set<Id> { set i | 0 <= i < |reports| :: reports[i].id }

  predicate UniqueUsers(users: seq<User>)
  {
    forall i, j :: 0 <= i < j < |users| ==> users[i].id != users[j].id && users[i].email != users[j].email
  }

  predicate UniqueReports(reports: seq<Report>)
  {
    forall i, j :: 0 <= i < j < |reports| ==> reports[i].id != reports[j].id
  }

  /** `SELECT ... FROM users WHERE id=$1`, first row. */
  function FindUser(users: seq<User>, id: Id): (r: Option<User>)
    ensures r.Some? ==> r.value in users && r.value.id == id
    ensures r.None? <==> id !in UserIds(users)
  {
    if users == [] then None
    else if users[0].id == id then Some(users[0])
    else
      assert UserIds(users) == {users[0].id} + UserIds(users[1..]);
      FindUser(users[1..], id)
  }

  /** `SELECT * FROM users WHERE email=$1`, first row. */
  function FindUserByEmail(users: seq<User>, email: string): (r: Option<User>)
    ensures r.Some? ==> r.value in users && r.value.email == email
    ensures r.None? <==> forall i :: 0 <= i < |users| ==> users[i].email != email
  {
    if users == [] then None
    else if users[0].email == email then Some(users[0])
    else FindUserByEmail(users[1..], email)
  }

  /** `SELECT * FROM reports WHERE id=$1`, first row. */
  function FindReport(reports: seq<Report>, id: Id): (r: Option<Report>)
    ensures r.Some? ==> r.value in reports && r.value.id == id
    ensures r.None? <==> id !in ReportIds(reports)
  {
    if reports == [] then None
    else if reports[0].id == id then Some(reports[0])
    else
      assert ReportIds(reports) == {reports[0].id} + ReportIds(reports[1..]);
      FindReport(reports[1..], id)
  }

  /** The status recorded by the most recent verification of report `id`,
      or "pending" when it has none. */
  function CurrentStatus(verifications: seq<Verification>, id: Id): string
  {
    if verifications == [] then "pending"
    else if verifications[|verifications| - 1].reportId == id then verifications[|verifications| - 1].status
    else CurrentStatus(verifications[..|verifications| - 1], id)
  }

  /** Appending a verification decides its own report's status and no other's. */
  lemma CurrentStatusAppend(verifications: seq<Verification>, v: Verification, id: Id)
    ensures CurrentStatus(verifications + [v], id)
      == if v.reportId == id then v.status else CurrentStatus(verifications, id)
  {
    assert (verifications + [v])[..|verifications|] == verifications;
  }

  /** `UPDATE reports SET status=$1 WHERE id=$2` */
  function SetStatus(reports: seq<Report>, id: Id, status: string): (r: seq<Report>)
    ensures |r| == |reports|
    ensures forall i :: 0 <= i < |r| ==>
      r[i] == if reports[i].id == id then reports[i].(status := status) else reports[i]
  {
    seq(|reports|, i requires 0 <= i < |reports| =>
      if reports[i].id == id then reports[i].(status := status) else reports[i])
  }

  /** The constraints of the schema (unique ids and emails, foreign keys),
      plus what the handlers maintain: every report was scored at creation into
      [0.6, 1], and its status is that of its latest verification ("pending"
      before any). */
  predicate ValidTables(users: seq<User>, reports: seq<Report>, verifications: seq<Verification>)
  {
    && UniqueUsers(users)
    && UniqueReports(reports)
    && (forall i :: 0 <= i < |reports| ==> reports[i].userId in UserIds(users))
    && (forall i :: 0 <= i < |verifications| ==>
          verifications[i].reportId in ReportIds(reports) && verifications[i].verifierId in UserIds(users))
    && (forall i :: 0 <= i < |reports| ==> 0.6 <= reports[i].credibility <= 1.0)
    && (forall i :: 0 <= i < |reports| ==> reports[i].status == CurrentStatus(verifications, reports[i].id))
  }

  /** The in-memory database. */
  class Database {
    var users: seq<User>
    var reports: seq<Report>
    var verifications: seq<Verification>
    /** Every broadcast, in the order emitted. */
    var events: seq<Event>

    /** The constraints of the schema, plus what the handlers maintain. */
    ghost predicate Valid()
      reads this
    {
      ValidTables(users, reports, verifications)
    }

    constructor ()
      ensures Valid()
      ensures users == [] && reports == [] && verifications == [] && events == []
    {
      users, reports, verifications, events := [], [], [], [];
    }
  }
}
