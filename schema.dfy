/** The plugin's enrollment, progress and session tables (the three the
    handlers write), their rows, and the invariant the handlers keep: the
    UNIQUE KEY student_program of the enrollments and progress tables, the
    auto-increment discipline of all three, and the fact that a progress row
    exists exactly for the enrolled (student, program) pairs. */
module Schema {
  import opened Common
  import opened Tables

  /** A `current_time('mysql')` reading, kept as the text the database stores. */
  type Timestamp = string

  /** The status every enrollment write stores. */
  const Enrolled: string := "enrolled"

  datatype Enrollment = Enrollment(
    studentId: nat, programId: nat, status: string, createdAt: Timestamp, updatedAt: Timestamp)

  /** A progress row; `avgScoreCents` is the DECIMAL(5,2) column in hundredths. */
  datatype Progress = Progress(
    studentId: nat, programId: nat, lessonsTotal: nat, lessonsDone: nat, avgScoreCents: int,
    lastActive: Option<Timestamp>, createdAt: Timestamp, updatedAt: Timestamp)

  /** The two `meta_json` documents the handlers write:
      {"type":"system","event":"start"} and {"type":"user"}. */
  datatype Meta = SystemStart | UserMessage

  datatype SessionMessage = SessionMessage(
    studentId: nat, coachId: nat, programId: nat, message: string,
    attachmentUrl: Option<string>, meta: Meta, createdAt: Timestamp)

  datatype Db = Db(enrollments: Table<Enrollment>, progress: Table<Progress>, sessions: Table<SessionMessage>)

  /** The (student_id, program_id) pair of the UNIQUE KEY student_program. */
  type Key = (nat, nat)

  function EnrollmentKey(e: Enrollment): Key
  {
    (e.studentId, e.programId)
  }

  function ProgressKey(p: Progress): Key
  {
    (p.studentId, p.programId)
  }

  function EnrolledKeys(rows: seq<Row<Enrollment>>): set<Key>
  {
    set r | r in rows :: EnrollmentKey(r.data)
  }

  function ProgressKeys(rows: seq<Row<Progress>>): set<Key>
  {
    set r | r in rows :: ProgressKey(r.data)
  }

  ghost predicate UniqueEnrollments(rows: seq<Row<Enrollment>>)
  {
    forall i, j :: 0 <= i < j < |rows| ==> EnrollmentKey(rows[i].data) != EnrollmentKey(rows[j].data)
  }

  ghost predicate UniqueProgress(rows: seq<Row<Progress>>)
  {
    forall i, j :: 0 <= i < j < |rows| ==> ProgressKey(rows[i].data) != ProgressKey(rows[j].data)
  }

  /** The database invariant every handler preserves. */
  ghost predicate Valid(db: Db)
  {
    && AutoIncrement(db.enrollments)
    && AutoIncrement(db.progress)
    && AutoIncrement(db.sessions)
    && UniqueEnrollments(db.enrollments.rows)
    && UniqueProgress(db.progress.rows)
    && EnrolledKeys(db.enrollments.rows) == ProgressKeys(db.progress.rows)
  }

  /** The tables as the first plugin activation creates them: empty. */
  function Activated(): (db: Db)
    ensures Valid(db)
    ensures db.enrollments.rows == [] && db.progress.rows == [] && db.sessions.rows == []
  {
    Db(Empty(), Empty(), Empty())
  }

  /** The logical names of the eight custom tables. */
  const LogicalTables: seq<string> :=
    ["profiles", "sessions", "progress", "recs", "analytics", "assessments", "responses", "enrollments"]

  /** The physical table name of each logical table, without the prefix. */
  function TableSuffix(name: string): string
  {
    match name
    case "profiles" => "coachproai_profiles"
    case "sessions" => "coachproai_ai_sessions"
    case "progress" => "coachproai_learning_progress"
    case "recs" => "coachproai_recommendations"
    case "analytics" => "coachproai_analytics"
    case "assessments" => "coachproai_assessments"
    case "responses" => "coachproai_assessments_responses"
    case "enrollments" => "coachproai_enrollments"
    case _ => ""
  }

  /** `CoachPro_LMS::table_names()`: each logical table mapped to the
      database prefix followed by its physical name. */
  function TableNames(prefix: string): (names: map<string, string>)
    ensures names.Keys == set n | n in LogicalTables
    ensures forall n :: n in names ==> names[n] == prefix + TableSuffix(n) && TableSuffix(n) != ""
  {
    map n | n in LogicalTables :: prefix + TableSuffix(n)
  }

  /** Two logical tables never share a physical table. */
  lemma TableNamesDistinct(prefix: string, n: string, m: string)
    requires n in TableNames(prefix) && m in TableNames(prefix) && n != m
    ensures TableNames(prefix)[n] != TableNames(prefix)[m]
  {
    var names := TableNames(prefix);
    if names[n] == names[m] {
      assert names[n][|prefix|..] == TableSuffix(n);
      assert names[m][|prefix|..] == TableSuffix(m);
      SuffixesDistinct(n, m);
    }
  }

  lemma SuffixesDistinct(n: string, m: string)
    requires n in LogicalTables && m in LogicalTables && n != m
    ensures TableSuffix(n) != TableSuffix(m)
  {
  }
}
