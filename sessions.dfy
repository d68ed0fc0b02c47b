/** The session-log handlers (`coachpro_start_session`,
    `coachpro_send_message`), the progress read (`coachpro_get_progress`)
    and the `/sessions` REST listing. */
module Sessions {
  import opened Common
  import opened Tables
  import opened Schema
  import Enrollments

  /** The system message that opens a thread. */
  function StartMessage(s: nat, coachId: nat, p: nat, now: Timestamp): SessionMessage
  {
    SessionMessage(s, coachId, p, "Session started.", None, SystemStart, now)
  }

  /** `coachpro_start_session`: nonce, login, a program is required; then one
      system row is appended to the session log. Start does not look at
      enrollments or progress. */
  function StartSession(db: Db, c: AjaxContext, coachId: nat, programId: nat, now: Timestamp): (r: (Db, Reply<string>))
    ensures r.1.Err? ==> r.0 == db
    ensures r.1.Ok? <==> c.nonceValid && LoggedIn(c) && programId != 0
    ensures !c.nonceValid ==> r.1 == NonceRejected
    ensures c.nonceValid && !LoggedIn(c) ==> r.1 == Err(401, "Login required.")
    ensures c.nonceValid && LoggedIn(c) && programId == 0 ==> r.1 == Err(400, "Program required.")
    ensures r.1.Ok? ==> r.1 == Ok("Session opened.")
    ensures r.1.Ok? ==>
      && r.0.enrollments == db.enrollments && r.0.progress == db.progress
      && r.0.sessions.rows == db.sessions.rows + [Row(db.sessions.nextId, StartMessage(c.userId, coachId, programId, now))]
      && r.0.sessions.nextId == db.sessions.nextId + 1
  {
    if !c.nonceValid then (db, NonceRejected)
    else if !LoggedIn(c) then (db, Err(401, "Login required."))
    else if programId == 0 then (db, Err(400, "Program required."))
    else (db.(sessions := Insert(db.sessions, StartMessage(c.userId, coachId, programId, now))), Ok("Session opened."))
  }

  /** The progress row a message touches: last_active and updated_at become now. */
  function Touch(row: Row<Progress>, now: Timestamp): Row<Progress>
  {
    Row(row.id, row.data.(lastActive := Some(now), updatedAt := now))
  }

  /** `UPDATE progress SET last_active=now, updated_at=now WHERE student_id=s AND program_id=p`. */
  function TouchProgress(rows: seq<Row<Progress>>, s: nat, p: nat, now: Timestamp): (r: seq<Row<Progress>>)
    ensures |r| == |rows|
    ensures forall i :: 0 <= i < |rows| ==> r[i] == if ProgressKey(rows[i].data) == (s, p) then Touch(rows[i], now) else rows[i]
    ensures ProgressKeys(r) == ProgressKeys(rows)
  {
    if rows == [] then []
    else
      var head := if ProgressKey(rows[0].data) == (s, p) then Touch(rows[0], now) else rows[0];
      var tail := TouchProgress(rows[1..], s, p, now);
      assert rows == [rows[0]] + rows[1..];
      assert ProgressKeys([head] + tail) == {ProgressKey(head.data)} + ProgressKeys(tail);
      assert ProgressKeys(rows) == {ProgressKey(rows[0].data)} + ProgressKeys(rows[1..]);
      [head] + tail
  }

  /** The row a user message appends. */
  function UserMessageRow(s: nat, coachId: nat, p: nat, message: string, now: Timestamp): SessionMessage
  {
    SessionMessage(s, coachId, p, message, None, UserMessage, now)
  }

  /** `coachpro_send_message`: nonce, login, then a program and a non-empty
      message (as sanitised) are required; the message is appended to the log
      and the caller's progress row for that program, if any, is touched. */
  function SendMessage(db: Db, c: AjaxContext, coachId: nat, programId: nat, message: string, now: Timestamp): (r: (Db, Reply<string>))
    ensures r.1.Err? ==> r.0 == db
    ensures r.1.Ok? <==> c.nonceValid && LoggedIn(c) && programId != 0 && message != ""
    ensures !c.nonceValid ==> r.1 == NonceRejected
    ensures c.nonceValid && !LoggedIn(c) ==> r.1 == Err(401, "Login required.")
    ensures c.nonceValid && LoggedIn(c) && (programId == 0 || message == "") ==> r.1 == Err(400, "Invalid message.")
    ensures r.1.Ok? ==> r.1 == Ok("Message sent.")
    ensures r.1.Ok? ==>
      && r.0.enrollments == db.enrollments
      && r.0.sessions.rows == db.sessions.rows + [Row(db.sessions.nextId, UserMessageRow(c.userId, coachId, programId, message, now))]
      && r.0.sessions.nextId == db.sessions.nextId + 1
      && r.0.progress.nextId == db.progress.nextId
      && |r.0.progress.rows| == |db.progress.rows|
      && forall i :: 0 <= i < |db.progress.rows| ==>
           r.0.progress.rows[i] == if ProgressKey(db.progress.rows[i].data) == (c.userId, programId)
                                   then Touch(db.progress.rows[i], now) else db.progress.rows[i]
  {
    if !c.nonceValid then (db, NonceRejected)
    else if !LoggedIn(c) then (db, Err(401, "Login required."))
    else if programId == 0 || message == "" then (db, Err(400, "Invalid message."))
    else
      var logged := db.(sessions := Insert(db.sessions, UserMessageRow(c.userId, coachId, programId, message, now)));
      (logged.(progress := logged.progress.(rows := TouchProgress(logged.progress.rows, c.userId, programId, now))),
       Ok("Message sent."))
  }

  /** Both session handlers keep the database invariant. */
  lemma SessionHandlersPreserveValid(db: Db, c: AjaxContext, coachId: nat, programId: nat, message: string, now: Timestamp)
    requires Valid(db)
    ensures Valid(StartSession(db, c, coachId, programId, now).0)
    ensures Valid(SendMessage(db, c, coachId, programId, message, now).0)
  {
    var after := SendMessage(db, c, coachId, programId, message, now).0;
    if after != db {
      var rows := db.progress.rows;
      assert forall k :: 0 <= k < |rows| ==>
        after.progress.rows[k].id == rows[k].id && ProgressKey(after.progress.rows[k].data) == ProgressKey(rows[k].data);
    }
  }

  /** What `get_progress` answers: the stored row, or the default zero row
      (no lessons, score 0, never active) when the pair has none. */
  datatype ProgressView = StoredRow(row: Row<Progress>) | ZeroRow
  {
    function LessonsTotal(): nat { if StoredRow? then row.data.lessonsTotal else 0 }
    function LessonsDone(): nat { if StoredRow? then row.data.lessonsDone else 0 }
    function AvgScoreCents(): int { if StoredRow? then row.data.avgScoreCents else 0 }
    function LastActive(): Option<Timestamp> { if StoredRow? then row.data.lastActive else None }
  }

  /** `SELECT * FROM progress WHERE student_id=s AND program_id=p`: the first such row. */
  function FindProgress(rows: seq<Row<Progress>>, s: nat, p: nat): (r: ProgressView)
    ensures r.ZeroRow? <==> (s, p) !in ProgressKeys(rows)
    ensures r.StoredRow? ==> r.row in rows && ProgressKey(r.row.data) == (s, p)
  {
    if rows == [] then ZeroRow
    else if ProgressKey(rows[0].data) == (s, p) then StoredRow(rows[0])
    else
      assert rows == [rows[0]] + rows[1..];
      assert ProgressKeys(rows) == {ProgressKey(rows[0].data)} + ProgressKeys(rows[1..]);
      FindProgress(rows[1..], s, p)
  }

  /** `coachpro_get_progress`: nonce, login and a program are required; the
      answer is the caller's row for the program or the zero default. Reading
      changes nothing. */
  function GetProgress(db: Db, c: AjaxContext, programId: nat): (r: Reply<ProgressView>)
    ensures r.Ok? <==> c.nonceValid && LoggedIn(c) && programId != 0
    ensures !c.nonceValid ==> r == Err(403, "-1")
    ensures c.nonceValid && !LoggedIn(c) ==> r == Err(401, "Login required.")
    ensures c.nonceValid && LoggedIn(c) && programId == 0 ==> r == Err(400, "Program required.")
    ensures r.Ok? && r.value.ZeroRow? ==> (c.userId, programId) !in ProgressKeys(db.progress.rows)
    ensures r.Ok? && r.value.StoredRow? ==>
      r.value.row in db.progress.rows && ProgressKey(r.value.row.data) == (c.userId, programId)
  {
    if !c.nonceValid then Err(403, "-1")
    else if !LoggedIn(c) then Err(401, "Login required.")
    else if programId == 0 then Err(400, "Program required.")
    else Ok(FindProgress(db.progress.rows, c.userId, programId))
  }

  /** Right after a first enrollment the student's progress for the program
      reads as the seeded row: no lessons, score 0, active at enrollment. */
  lemma EnrollThenGetProgress(db: Db, c: AjaxContext, programId: nat, now: Timestamp)
    requires Valid(db) && (c.userId, programId) !in EnrolledKeys(db.enrollments.rows)
    requires Enrollments.Enroll(db, c, programId, now).1.Ok?
    ensures var view := GetProgress(Enrollments.Enroll(db, c, programId, now).0, c, programId);
      && view.Ok? && view.value.StoredRow?
      && view.value.row.id == db.progress.nextId
      && view.value.LessonsTotal() == 0 && view.value.LessonsDone() == 0 && view.value.AvgScoreCents() == 0
      && view.value.LastActive() == Some(now)
  {
    var s := c.userId;
    Enrollments.UpsertNewPair(db, s, programId, now);
    Enrollments.UpsertPreservesValid(db, s, programId, now);
    var after := Enrollments.Upsert(db, s, programId, now);
    var view := FindProgress(after.progress.rows, s, programId);
    var k :| 0 <= k < |after.progress.rows| && after.progress.rows[k] == view.row;
    var last := |db.progress.rows|;
    assert ProgressKey(after.progress.rows[last].data) == (s, programId);
    assert k == last;
  }

  /** The `/sessions` row query without its ORDER BY: the caller's messages
      for the program, in log order. */
  function SessionRows(rows: seq<Row<SessionMessage>>, s: nat, p: nat): (r: seq<Row<SessionMessage>>)
    ensures forall x :: x in r <==> x in rows && x.data.studentId == s && x.data.programId == p
    ensures IdsIncreasing(rows) ==> IdsIncreasing(r)
  {
    if rows == [] then []
    else
      var tail := SessionRows(rows[1..], s, p);
      assert rows == [rows[0]] + rows[1..];
      if rows[0].data.studentId == s && rows[0].data.programId == p then
        assert forall k :: 0 <= k < |tail| ==> tail[k] in rows[1..];
        [rows[0]] + tail
      else tail
  }

  /** Appending to the log appends to a listing exactly when the new row
      belongs to it. */
  lemma {:induction false} SessionRowsAppend(rows: seq<Row<SessionMessage>>, x: Row<SessionMessage>, s: nat, p: nat)
    ensures SessionRows(rows + [x], s, p)
         == SessionRows(rows, s, p) + (if x.data.studentId == s && x.data.programId == p then [x] else [])
  {
    if rows != [] {
      assert (rows + [x])[1..] == rows[1..] + [x];
      SessionRowsAppend(rows[1..], x, s, p);
    }
  }

  /** A message sent by a student shows up last in that student's listing
      of the program. */
  lemma SendMessageThenList(db: Db, c: AjaxContext, coachId: nat, programId: nat, message: string, now: Timestamp)
    requires SendMessage(db, c, coachId, programId, message, now).1.Ok?
    ensures SessionRows(SendMessage(db, c, coachId, programId, message, now).0.sessions.rows, c.userId, programId)
         == SessionRows(db.sessions.rows, c.userId, programId)
            + [Row(db.sessions.nextId, UserMessageRow(c.userId, coachId, programId, message, now))]
  {
    SessionRowsAppend(db.sessions.rows, Row(db.sessions.nextId, UserMessageRow(c.userId, coachId, programId, message, now)), c.userId, programId);
  }

  /** One entry of the `/sessions` answer; a stored null attachment reads as "". */
  datatype SessionItem = SessionItem(id: nat, message: string, attachmentUrl: string, meta: Meta, createdAt: Timestamp)

  /** `ORDER BY id ASC`: item ids strictly increase. */
  ghost predicate ItemsById(items: seq<SessionItem>)
  {
    forall j, k :: 0 <= j < k < |items| ==> items[j].id < items[k].id
  }

  function ToItem(r: Row<SessionMessage>): SessionItem
  {
    SessionItem(r.id, r.data.message,
                match r.data.attachmentUrl case None => "" case Some(u) => u,
                r.data.meta, r.data.createdAt)
  }

  lemma ItemsFollowRows(rows: seq<Row<SessionMessage>>, items: seq<SessionItem>)
    requires IdsIncreasing(rows)
    requires |items| == |rows| && forall k :: 0 <= k < |rows| ==> items[k] == ToItem(rows[k])
    ensures ItemsById(items)
  {
  }

  /** The callback's `foreach`: one item per row, in row order. */
  method ItemsOf(rows: seq<Row<SessionMessage>>) returns (items: seq<SessionItem>)
    ensures |items| == |rows|
    ensures forall k :: 0 <= k < |rows| ==> items[k] == ToItem(rows[k])
    ensures IdsIncreasing(rows) ==> ItemsById(items)
  {
    items := [];
    var i := 0;
    while i < |rows|
      invariant 0 <= i <= |rows|
      invariant |items| == i
      invariant forall k :: 0 <= k < i ==> items[k] == ToItem(rows[k])
    {
      items := items + [ToItem(rows[i])];
      i := i + 1;
    }
    if IdsIncreasing(rows) {
      ItemsFollowRows(rows, items);
    }
  }

  /** The `/sessions` REST callback: login and a program are required; the
      caller's rows for the program, ordered by id, become items one by one. */
  method ListSessions(log: Table<SessionMessage>, userId: nat, programId: nat) returns (r: Reply<seq<SessionItem>>)
    ensures userId == 0 ==> r == Err(401, "Login required.")
    ensures userId != 0 && programId == 0 ==> r == Err(400, "Program required.")
    ensures r.Ok? <==> userId != 0 && programId != 0
    ensures r.Ok? ==> var rows := SessionRows(log.rows, userId, programId);
      |r.value| == |rows| && forall k :: 0 <= k < |rows| ==> r.value[k] == ToItem(rows[k])
    ensures r.Ok? && AutoIncrement(log) ==> ItemsById(r.value)
  {
    if userId == 0 { return Err(401, "Login required."); }
    if programId == 0 { return Err(400, "Program required."); }
    var rows := SessionRows(log.rows, userId, programId);
    var items := ItemsOf(rows);
    r := Ok(items);
  }
}
