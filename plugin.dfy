/** The plugin's persistent state as its handlers change it in place: the
    enrollments, progress and session tables and the four options, with one
    method per state-changing handler. Each method is proved to do exactly
    what the corresponding specification function says. */
module Plugin {
  import opened Common
  import opened Tables
  import opened Schema
  import Enrollments
  import Sessions
  import WooCommerce
  import Settings

  class Store {
    var enrollments: Table<Enrollment>
    var progress: Table<Progress>
    var sessions: Table<SessionMessage>
    var options: Settings.Options

    /** The three tables as one database value. */
    function Snapshot(): Db
      reads this
    {
      Db(enrollments, progress, sessions)
    }

    ghost predicate Valid()
      reads this
    {
      Schema.Valid(Snapshot())
    }

    /** The first plugin activation: empty tables, the default options. */
    constructor Activate()
      ensures Valid()
      ensures Snapshot() == Activated() && options == Settings.ActivationOptions()
    {
      enrollments, progress, sessions := Empty(), Empty(), Empty();
      options := Settings.ActivationOptions();
    }

    /** The upsert both the AJAX handler and the WooCommerce hook run: the
        SELECT, then an UPDATE by id or two INSERTs. */
    method Upsert(s: nat, p: nat, now: Timestamp)
      requires Valid()
      modifies this
      ensures Valid()
      ensures Snapshot() == Enrollments.Upsert(old(Snapshot()), s, p, now)
      ensures options == old(options)
    {
      ghost var before := Snapshot();
      var found := Enrollments.FindEnrollmentId(enrollments.rows, s, p);
      if found.Some? {
        enrollments := enrollments.(rows := Enrollments.SetEnrolled(enrollments.rows, found.value, now));
      } else {
        enrollments := Enrollments.InsertEnrollment(enrollments, Enrollments.NewEnrollment(s, p, now));
        progress := Enrollments.InsertProgress(progress, Enrollments.SeedProgress(s, p, now));
      }
      assert Snapshot() == Enrollments.Upsert(before, s, p, now);
      Enrollments.UpsertPreservesValid(before, s, p, now);
    }

    /** `coachpro_enroll_program`. */
    method Enroll(c: AjaxContext, programId: nat, now: Timestamp) returns (reply: Reply<string>)
      requires Valid()
      modifies this
      ensures Valid()
      ensures (Snapshot(), reply) == Enrollments.Enroll(old(Snapshot()), c, programId, now)
      ensures options == old(options)
    {
      if !c.nonceValid {
        return NonceRejected;
      }
      if !c.canEdit && !c.canView && !LoggedIn(c) {
        return Err(403, "Permission denied.");
      }
      var studentId := c.userId;
      if studentId == 0 || programId == 0 {
        return Err(400, "Missing data.");
      }
      Upsert(studentId, programId, now);
      reply := Ok("Enrolled successfully.");
    }

    /** `coachpro_start_session`. */
    method StartSession(c: AjaxContext, coachId: nat, programId: nat, now: Timestamp) returns (reply: Reply<string>)
      requires Valid()
      modifies this
      ensures Valid()
      ensures (Snapshot(), reply) == Sessions.StartSession(old(Snapshot()), c, coachId, programId, now)
      ensures options == old(options)
    {
      Sessions.SessionHandlersPreserveValid(Snapshot(), c, coachId, programId, "", now);
      if !c.nonceValid {
        return NonceRejected;
      }
      if !LoggedIn(c) {
        return Err(401, "Login required.");
      }
      if programId == 0 {
        return Err(400, "Program required.");
      }
      sessions := Insert(sessions, Sessions.StartMessage(c.userId, coachId, programId, now));
      reply := Ok("Session opened.");
    }

    /** `coachpro_send_message`: the INSERT into the log, then the UPDATE of
        the progress row. */
    method SendMessage(c: AjaxContext, coachId: nat, programId: nat, message: string, now: Timestamp) returns (reply: Reply<string>)
      requires Valid()
      modifies this
      ensures Valid()
      ensures (Snapshot(), reply) == Sessions.SendMessage(old(Snapshot()), c, coachId, programId, message, now)
      ensures options == old(options)
    {
      Sessions.SessionHandlersPreserveValid(Snapshot(), c, coachId, programId, message, now);
      if !c.nonceValid {
        return NonceRejected;
      }
      if !LoggedIn(c) {
        return Err(401, "Login required.");
      }
      if programId == 0 || message == "" {
        return Err(400, "Invalid message.");
      }
      sessions := Insert(sessions, Sessions.UserMessageRow(c.userId, coachId, programId, message, now));
      progress := progress.(rows := Sessions.TouchProgress(progress.rows, c.userId, programId, now));
      reply := Ok("Message sent.");
    }

    /** `woocommerce_order_status_completed`: the loop over the order's line
        items, upserting each mapped program. */
    method OrderCompleted(wcLoaded: bool, order: Option<WooCommerce.Order>, meta: map<nat, nat>, now: Timestamp)
      requires Valid()
      modifies this
      ensures Valid()
      ensures Snapshot() == WooCommerce.OrderCompleted(old(Snapshot()), old(options.wooEnable), wcLoaded, order, meta, now)
      ensures options == old(options)
    {
      if !options.wooEnable || !wcLoaded || order.None? {
        return;
      }
      var userId := order.value.userId;
      if userId == 0 {
        return;
      }
      var items := order.value.items;
      for i := 0 to |items|
        invariant Valid() && options == old(options)
        invariant Snapshot() == WooCommerce.AutoEnroll(old(Snapshot()), userId, items[..i], meta, now)
      {
        var programId := WooCommerce.ProgramOf(meta, items[i].productId);
        if programId != 0 {
          Upsert(userId, programId, now);
        }
        assert items[..i + 1][..i] == items[..i];
      }
      assert items[..|items|] == items;
    }

    /** The `/settings` route: the checks, then four option writes in turn. */
    method SaveSettings(canManage: bool, req: Settings.SettingsRequest, rulesJsonValid: bool) returns (reply: Reply<string>)
      modifies this
      ensures (options, reply) == Settings.SaveSettings(old(options), canManage, req, rulesJsonValid)
      ensures Snapshot() == old(Snapshot())
    {
      if !canManage {
        return Err(403, "Permission denied.");
      }
      if !rulesJsonValid {
        return Err(400, "Invalid rules JSON.");
      }
      options := options.(currency := Settings.StoredCurrency(req.currency));
      options := options.(programPage := Some(req.programPage));
      options := options.(wooEnable := BoolCast(req.wooEnable));
      options := options.(rulesJson := req.rulesJson);
      reply := Ok("Settings saved.");
    }
  }

  /** Once a save has switched the integration off, completed orders enroll
      nobody. */
  lemma SwitchedOffHookDoesNothing(db: Db, o: Settings.Options, req: Settings.SettingsRequest,
                                   wcLoaded: bool, order: Option<WooCommerce.Order>, meta: map<nat, nat>, now: Timestamp)
    requires !BoolCast(req.wooEnable)
    ensures var saved := Settings.SaveSettings(o, true, req, true).0;
      WooCommerce.OrderCompleted(db, saved.wooEnable, wcLoaded, order, meta, now) == db
  {
  }

  /** A verified client scenario: a student enrolls in the same program
      twice. One enrollment row remains, stamped by the second call, and the
      progress read answers the row the first call seeded. */
  method EnrollTwice(now: Timestamp, later: Timestamp) returns (enrolled: seq<Row<Enrollment>>, view: Reply<Sessions.ProgressView>)
    ensures enrolled == [Row(1, Enrollment(7, 3, Enrolled, now, later))]
    ensures view == Ok(Sessions.StoredRow(Row(1, Enrollments.SeedProgress(7, 3, now))))
  {
    var store := new Store.Activate();
    var c := AjaxContext(true, 7, false, false);
    var r1 := store.Enroll(c, 3, now);
    var r2 := store.Enroll(c, 3, later);
    assert r1.Ok? && r2.Ok?;
    enrolled := store.enrollments.rows;
    assert store.progress.rows == [Row(1, Enrollments.SeedProgress(7, 3, now))];
    view := Sessions.GetProgress(store.Snapshot(), c, 3);
  }
}
