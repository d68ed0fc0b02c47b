/** The enrollment upsert shared by the `coachpro_enroll_program` AJAX
    handler and the WooCommerce order hook: look the (student, program) pair
    up; if a row exists, set it back to 'enrolled' and stamp it; otherwise
    insert an enrollment row and seed a zeroed progress row. */
module Enrollments {
  import opened Common
  import opened Tables
  import opened Schema

  /** `SELECT id FROM enrollments WHERE student_id=%d AND program_id=%d`:
      the id of the first row with that pair, if any. */
  function FindEnrollmentId(rows: seq<Row<Enrollment>>, s: nat, p: nat): (r: Option<nat>)
    ensures r.None? <==> (s, p) !in EnrolledKeys(rows)
    ensures r.Some? ==> exists i :: 0 <= i < |rows| && rows[i].id == r.value && EnrollmentKey(rows[i].data) == (s, p)
  {
    if rows == [] then None
    else if EnrollmentKey(rows[0].data) == (s, p) then Some(rows[0].id)
    else
      var r := FindEnrollmentId(rows[1..], s, p);
      assert EnrolledKeys(rows) == {EnrollmentKey(rows[0].data)} + EnrolledKeys(rows[1..]) by {
        assert rows == [rows[0]] + rows[1..];
      }
      if r.Some? then
        var i :| 0 <= i < |rows[1..]| && rows[1..][i].id == r.value && EnrollmentKey(rows[1..][i].data) == (s, p);
        assert rows[i + 1] == rows[1..][i];
        r
      else r
  }

  /** The row an existing enrollment becomes: status 'enrolled', updated_at now. */
  function MarkEnrolled(row: Row<Enrollment>, now: Timestamp): Row<Enrollment>
  {
    Row(row.id, row.data.(status := Enrolled, updatedAt := now))
  }

  /** `UPDATE enrollments SET status='enrolled', updated_at=now WHERE id=id`. */
  function SetEnrolled(rows: seq<Row<Enrollment>>, id: nat, now: Timestamp): (r: seq<Row<Enrollment>>)
    ensures |r| == |rows|
    ensures forall i :: 0 <= i < |rows| ==> r[i] == if rows[i].id == id then MarkEnrolled(rows[i], now) else rows[i]
    ensures EnrolledKeys(r) == EnrolledKeys(rows)
  {
    if rows == [] then []
    else
      var head := if rows[0].id == id then MarkEnrolled(rows[0], now) else rows[0];
      var tail := SetEnrolled(rows[1..], id, now);
      assert rows == [rows[0]] + rows[1..];
      assert EnrolledKeys([head] + tail) == {EnrollmentKey(head.data)} + EnrolledKeys(tail);
      assert EnrolledKeys(rows) == {EnrollmentKey(rows[0].data)} + EnrolledKeys(rows[1..]);
      [head] + tail
  }

  /** The enrollment row the upsert inserts. */
  function NewEnrollment(s: nat, p: nat, now: Timestamp): Enrollment
  {
    Enrollment(s, p, Enrolled, now, now)
  }

  /** The progress row the upsert seeds: no lessons, score 0, active now. */
  function SeedProgress(s: nat, p: nat, now: Timestamp): Progress
  {
    Progress(s, p, 0, 0, 0, Some(now), now, now)
  }

  /** INSERT into enrollments; the UNIQUE KEY student_program rejects a
      duplicate pair, leaving the table as it was. */
  function InsertEnrollment(t: Table<Enrollment>, e: Enrollment): (u: Table<Enrollment>)
    ensures EnrolledKeys(u.rows) == EnrolledKeys(t.rows) + {EnrollmentKey(e)}
    ensures EnrollmentKey(e) in EnrolledKeys(t.rows) ==> u == t
    ensures EnrollmentKey(e) !in EnrolledKeys(t.rows) ==> u == Insert(t, e)
  {
    if EnrollmentKey(e) in EnrolledKeys(t.rows) then t
    else
      var u := Insert(t, e);
      assert u.rows == t.rows + [u.rows[|t.rows|]];
      u
  }

  /** INSERT into progress, under the same UNIQUE KEY student_program. */
  function InsertProgress(t: Table<Progress>, p: Progress): (u: Table<Progress>)
    ensures ProgressKeys(u.rows) == ProgressKeys(t.rows) + {ProgressKey(p)}
    ensures ProgressKey(p) in ProgressKeys(t.rows) ==> u == t
    ensures ProgressKey(p) !in ProgressKeys(t.rows) ==> u == Insert(t, p)
  {
    if ProgressKey(p) in ProgressKeys(t.rows) then t
    else
      var u := Insert(t, p);
      assert u.rows == t.rows + [u.rows[|t.rows|]];
      u
  }

  /** The upsert on (s, p) at time `now`. */
  function Upsert(db: Db, s: nat, p: nat, now: Timestamp): (r: Db)
    ensures EnrolledKeys(r.enrollments.rows) == EnrolledKeys(db.enrollments.rows) + {(s, p)}
    ensures r.sessions == db.sessions
  {
    match FindEnrollmentId(db.enrollments.rows, s, p)
    case Some(id) =>
      db.(enrollments := db.enrollments.(rows := SetEnrolled(db.enrollments.rows, id, now)))
    case None =>
      db.(enrollments := InsertEnrollment(db.enrollments, NewEnrollment(s, p, now)),
          progress := InsertProgress(db.progress, SeedProgress(s, p, now)))
  }

  /** A pair with no enrollment row gains exactly one enrollment row with
      status 'enrolled' and exactly one zeroed progress row; the session
      log does not change. */
  lemma UpsertNewPair(db: Db, s: nat, p: nat, now: Timestamp)
    requires Valid(db) && (s, p) !in EnrolledKeys(db.enrollments.rows)
    ensures Upsert(db, s, p, now).enrollments.rows
         == db.enrollments.rows + [Row(db.enrollments.nextId, Enrollment(s, p, "enrolled", now, now))]
    ensures Upsert(db, s, p, now).progress.rows
         == db.progress.rows + [Row(db.progress.nextId, Progress(s, p, 0, 0, 0, Some(now), now, now))]
    ensures Upsert(db, s, p, now).sessions == db.sessions
  {
  }

  /** A pair that already has its row i: only row i changes, to status
      'enrolled' and updated_at now; nothing is inserted anywhere. */
  lemma UpsertExistingPair(db: Db, s: nat, p: nat, now: Timestamp, i: nat)
    requires Valid(db) && i < |db.enrollments.rows| && EnrollmentKey(db.enrollments.rows[i].data) == (s, p)
    ensures Upsert(db, s, p, now).enrollments
         == db.enrollments.(rows := db.enrollments.rows[i := MarkEnrolled(db.enrollments.rows[i], now)])
    ensures Upsert(db, s, p, now).progress == db.progress
    ensures Upsert(db, s, p, now).sessions == db.sessions
  {
    var rows := db.enrollments.rows;
    assert rows[i] in rows;
    var found := FindEnrollmentId(rows, s, p);
    var j :| 0 <= j < |rows| && rows[j].id == found.value && EnrollmentKey(rows[j].data) == (s, p);
    assert j == i;
    var updated := SetEnrolled(rows, found.value, now);
    assert forall k :: 0 <= k < |rows| ==> updated[k] == rows[i := MarkEnrolled(rows[i], now)][k];
  }

  /** Rewriting rows without touching their ids or pairs keeps the
      auto-increment discipline and the uniqueness of pairs. */
  lemma SameIdsAndKeys(rows: seq<Row<Enrollment>>, after: seq<Row<Enrollment>>, next: nat)
    requires |after| == |rows|
    requires forall k :: 0 <= k < |rows| ==> after[k].id == rows[k].id && EnrollmentKey(after[k].data) == EnrollmentKey(rows[k].data)
    requires AutoIncrement(Table(rows, next)) && UniqueEnrollments(rows)
    ensures AutoIncrement(Table(after, next)) && UniqueEnrollments(after)
  {
  }

  /** Appending a row whose pair is new keeps enrollment pairs unique. */
  lemma AppendFreshEnrollment(rows: seq<Row<Enrollment>>, x: Row<Enrollment>)
    requires UniqueEnrollments(rows) && EnrollmentKey(x.data) !in EnrolledKeys(rows)
    ensures UniqueEnrollments(rows + [x])
  {
    forall k | 0 <= k < |rows|
      ensures EnrollmentKey(rows[k].data) != EnrollmentKey(x.data)
    {
      assert rows[k] in rows;
    }
  }

  /** Appending a row whose pair is new keeps progress pairs unique. */
  lemma AppendFreshProgress(rows: seq<Row<Progress>>, x: Row<Progress>)
    requires UniqueProgress(rows) && ProgressKey(x.data) !in ProgressKeys(rows)
    ensures UniqueProgress(rows + [x])
  {
    forall k | 0 <= k < |rows|
      ensures ProgressKey(rows[k].data) != ProgressKey(x.data)
    {
      assert rows[k] in rows;
    }
  }

  /** The upsert keeps the database invariant: unique pairs in both tables,
      auto-increment ids, and a progress row for exactly the enrolled pairs. */
  lemma UpsertPreservesValid(db: Db, s: nat, p: nat, now: Timestamp)
    requires Valid(db)
    ensures Valid(Upsert(db, s, p, now))
  {
    var rows := db.enrollments.rows;
    var after := Upsert(db, s, p, now);
    if (s, p) in EnrolledKeys(rows) {
      var r :| r in rows && EnrollmentKey(r.data) == (s, p);
      var i :| 0 <= i < |rows| && rows[i] == r;
      UpsertExistingPair(db, s, p, now, i);
      SameIdsAndKeys(rows, after.enrollments.rows, db.enrollments.nextId);
    } else {
      UpsertNewPair(db, s, p, now);
      AppendFreshEnrollment(rows, Row(db.enrollments.nextId, NewEnrollment(s, p, now)));
      AppendFreshProgress(db.progress.rows, Row(db.progress.nextId, SeedProgress(s, p, now)));
      assert after.enrollments == Insert(db.enrollments, NewEnrollment(s, p, now));
      assert after.progress == Insert(db.progress, SeedProgress(s, p, now));
    }
  }

  /** After the upsert the pair's row carries status 'enrolled' and
      updated_at now. */
  lemma UpsertMarksRow(db: Db, s: nat, p: nat, now: Timestamp) returns (i: nat)
    requires Valid(db)
    ensures var rows := Upsert(db, s, p, now).enrollments.rows;
      i < |rows| && EnrollmentKey(rows[i].data) == (s, p) && MarkEnrolled(rows[i], now) == rows[i]
  {
    var rows := db.enrollments.rows;
    if (s, p) in EnrolledKeys(rows) {
      var r :| r in rows && EnrollmentKey(r.data) == (s, p);
      i :| 0 <= i < |rows| && rows[i] == r;
      UpsertExistingPair(db, s, p, now, i);
    } else {
      UpsertNewPair(db, s, p, now);
      i := |rows|;
    }
  }

  /** A row already marked enrolled at `now` makes the upsert a no-op. */
  lemma UpsertOnMarkedRow(db: Db, s: nat, p: nat, now: Timestamp, i: nat)
    requires Valid(db) && i < |db.enrollments.rows| && EnrollmentKey(db.enrollments.rows[i].data) == (s, p)
    requires MarkEnrolled(db.enrollments.rows[i], now) == db.enrollments.rows[i]
    ensures Upsert(db, s, p, now) == db
  {
    UpsertExistingPair(db, s, p, now, i);
    assert db.enrollments.rows[i := MarkEnrolled(db.enrollments.rows[i], now)] == db.enrollments.rows;
  }

  /** Enrolling the same pair twice at the same moment is the same as
      enrolling it once. */
  lemma UpsertIdempotent(db: Db, s: nat, p: nat, now: Timestamp)
    requires Valid(db)
    ensures Upsert(Upsert(db, s, p, now), s, p, now) == Upsert(db, s, p, now)
  {
    UpsertPreservesValid(db, s, p, now);
    var i := UpsertMarksRow(db, s, p, now);
    UpsertOnMarkedRow(Upsert(db, s, p, now), s, p, now, i);
  }

  /** The `coachpro_enroll_program` handler: nonce check, permission check
      (a caller with neither capability who is not logged in is refused),
      a missing student or program is a 400, otherwise the upsert. */
  function Enroll(db: Db, c: AjaxContext, programId: nat, now: Timestamp): (r: (Db, Reply<string>))
    ensures r.1.Err? ==> r.0 == db
    ensures r.1.Ok? <==> c.nonceValid && c.userId != 0 && programId != 0
    ensures r.1.Ok? ==> r.0 == Upsert(db, c.userId, programId, now) && r.1.value == "Enrolled successfully."
    ensures !c.nonceValid ==> r.1 == NonceRejected
    ensures c.nonceValid && !c.canEdit && !c.canView && !LoggedIn(c) ==> r.1 == Err(403, "Permission denied.")
    ensures c.nonceValid && (c.canEdit || c.canView) && c.userId == 0 ==> r.1 == Err(400, "Missing data.")
    ensures c.nonceValid && c.userId != 0 && programId == 0 ==> r.1 == Err(400, "Missing data.")
  {
    if !c.nonceValid then (db, NonceRejected)
    else if !c.canEdit && !c.canView && !LoggedIn(c) then (db, Err(403, "Permission denied."))
    else if c.userId == 0 || programId == 0 then (db, Err(400, "Missing data."))
    else (Upsert(db, c.userId, programId, now), Ok("Enrolled successfully."))
  }

  /** Any sequence of enroll calls keeps the invariant, in particular at most
      one enrollment row and at most one progress row per pair. */
  lemma EnrollPreservesValid(db: Db, c: AjaxContext, programId: nat, now: Timestamp)
    requires Valid(db)
    ensures Valid(Enroll(db, c, programId, now).0)
  {
    if Enroll(db, c, programId, now).1.Ok? {
      UpsertPreservesValid(db, c.userId, programId, now);
    }
  }

  /** After a successful enroll the caller's pair has exactly one enrollment
      row, and its status is 'enrolled'. */
  lemma EnrollLeavesOneEnrolledRow(db: Db, c: AjaxContext, programId: nat, now: Timestamp)
    requires Valid(db) && Enroll(db, c, programId, now).1.Ok?
    ensures var rows := Enroll(db, c, programId, now).0.enrollments.rows;
      exists i :: 0 <= i < |rows| && EnrollmentKey(rows[i].data) == (c.userId, programId) && rows[i].data.status == "enrolled"
        && forall j :: 0 <= j < |rows| && j != i ==> EnrollmentKey(rows[j].data) != (c.userId, programId)
  {
    var s, p := c.userId, programId;
    var rows := db.enrollments.rows;
    UpsertPreservesValid(db, s, p, now);
    var after := Upsert(db, s, p, now).enrollments.rows;
    var i: nat;
    if (s, p) in EnrolledKeys(rows) {
      var r :| r in rows && EnrollmentKey(r.data) == (s, p);
      i :| 0 <= i < |rows| && rows[i] == r;
      UpsertExistingPair(db, s, p, now, i);
    } else {
      UpsertNewPair(db, s, p, now);
      i := |rows|;
    }
    assert EnrollmentKey(after[i].data) == (s, p) && after[i].data.status == "enrolled";
    forall j | 0 <= j < |after| && j != i
      ensures EnrollmentKey(after[j].data) != (s, p)
    {
      if j < i { assert EnrollmentKey(after[j].data) != EnrollmentKey(after[i].data); }
      if i < j { assert EnrollmentKey(after[i].data) != EnrollmentKey(after[j].data); }
    }
  }
}
