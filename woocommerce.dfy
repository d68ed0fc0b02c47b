/** The `woocommerce_order_status_completed` hook: when the integration is
    switched on and the completed order belongs to a user, every line item
    whose product is mapped to a program (post meta `_cpl_program_id`) gets
    the same enrollment upsert as the AJAX handler. */
module WooCommerce {
  import opened Common
  import opened Tables
  import opened Schema
  import opened Enrollments

  datatype LineItem = LineItem(productId: nat)

  /** What `wc_get_order` yields: the buyer (0 for a guest) and the line items. */
  datatype Order = Order(userId: nat, items: seq<LineItem>)

  /** `absint(get_post_meta($product_id, '_cpl_program_id', true))`, with the
      product meta given as a map from product id to the absint'ed value; a
      product without the meta maps to 0. */
  function ProgramOf(meta: map<nat, nat>, productId: nat): nat
  {
    if productId in meta then meta[productId] else 0
  }

  /** The loop over line items, as a fold: the upserts of the first items, in
      order. The enrolled pairs grow by exactly the mapped pairs; the session
      log is not touched. */
  function AutoEnroll(db: Db, userId: nat, items: seq<LineItem>, meta: map<nat, nat>, now: Timestamp): (r: Db)
    ensures EnrolledKeys(r.enrollments.rows) == EnrolledKeys(db.enrollments.rows) + MappedKeys(userId, items, meta)
    ensures r.sessions == db.sessions
    decreases |items|
  {
    if items == [] then
      assert MappedKeys(userId, items, meta) == {};
      db
    else
      MappedKeysStep(userId, items, meta);
      var before := AutoEnroll(db, userId, items[..|items| - 1], meta, now);
      var programId := ProgramOf(meta, items[|items| - 1].productId);
      if programId != 0 then Upsert(before, userId, programId, now) else before
  }

  /** The pairs an order's line items ask for. */
  function MappedKeys(userId: nat, items: seq<LineItem>, meta: map<nat, nat>): set<Key>
  {
    set i | 0 <= i < |items| && ProgramOf(meta, items[i].productId) != 0 :: (userId, ProgramOf(meta, items[i].productId))
  }

  /** The whole hook: the option `cpl_woo_enable`, WooCommerce being loaded,
      the order existing and having a user are checked first. */
  function OrderCompleted(db: Db, wooEnable: bool, wcLoaded: bool, order: Option<Order>, meta: map<nat, nat>, now: Timestamp): (r: Db)
    ensures !wooEnable || !wcLoaded || order.None? || order.value.userId == 0 ==> r == db
    ensures r.sessions == db.sessions
  {
    if !wooEnable || !wcLoaded || order.None? || order.value.userId == 0 then db
    else AutoEnroll(db, order.value.userId, order.value.items, meta, now)
  }

  lemma MappedKeysStep(userId: nat, items: seq<LineItem>, meta: map<nat, nat>)
    requires items != []
    ensures var n := |items| - 1; var p := ProgramOf(meta, items[n].productId);
      MappedKeys(userId, items, meta)
        == MappedKeys(userId, items[..n], meta) + (if p != 0 then {(userId, p)} else {})
  {
    var n := |items| - 1;
    var p := ProgramOf(meta, items[n].productId);
    var lhs := MappedKeys(userId, items, meta);
    var rhs := MappedKeys(userId, items[..n], meta) + (if p != 0 then {(userId, p)} else {});
    forall k | k in lhs ensures k in rhs {
      var i :| 0 <= i < |items| && ProgramOf(meta, items[i].productId) != 0 && k == (userId, ProgramOf(meta, items[i].productId));
      if i < n { assert items[..n][i] == items[i]; }
    }
    forall k | k in rhs ensures k in lhs {
      if k in MappedKeys(userId, items[..n], meta) {
        var i :| 0 <= i < n && ProgramOf(meta, items[..n][i].productId) != 0 && k == (userId, ProgramOf(meta, items[..n][i].productId));
        assert items[..n][i] == items[i];
      }
    }
  }

  /** The hook's upserts keep the database invariant, and afterwards the
      enrolled pairs are those from before plus one per mapped line item;
      unmapped items add nothing. */
  lemma {:induction false} AutoEnrollKeys(db: Db, userId: nat, items: seq<LineItem>, meta: map<nat, nat>, now: Timestamp)
    requires Valid(db)
    ensures Valid(AutoEnroll(db, userId, items, meta, now))
    ensures EnrolledKeys(AutoEnroll(db, userId, items, meta, now).enrollments.rows)
         == EnrolledKeys(db.enrollments.rows) + MappedKeys(userId, items, meta)
    decreases |items|
  {
    if items == [] {
      assert MappedKeys(userId, items, meta) == {};
    } else {
      var n := |items| - 1;
      AutoEnrollKeys(db, userId, items[..n], meta, now);
      MappedKeysStep(userId, items, meta);
      var p := ProgramOf(meta, items[n].productId);
      if p != 0 {
        UpsertPreservesValid(AutoEnroll(db, userId, items[..n], meta, now), userId, p, now);
      }
    }
  }

  /** When every pair an order asks for is already enrolled, its upserts
      insert nothing: the enrolled pairs, the progress table and the log stay
      as they were. */
  lemma {:induction false} AutoEnrollEnrolledPairs(db: Db, userId: nat, items: seq<LineItem>, meta: map<nat, nat>, now: Timestamp)
    requires Valid(db) && MappedKeys(userId, items, meta) <= EnrolledKeys(db.enrollments.rows)
    ensures var after := AutoEnroll(db, userId, items, meta, now);
      && Valid(after)
      && EnrolledKeys(after.enrollments.rows) == EnrolledKeys(db.enrollments.rows)
      && after.progress == db.progress
      && after.sessions == db.sessions
    decreases |items|
  {
    if items != [] {
      var n := |items| - 1;
      MappedKeysStep(userId, items, meta);
      AutoEnrollEnrolledPairs(db, userId, items[..n], meta, now);
      var before := AutoEnroll(db, userId, items[..n], meta, now);
      var p := ProgramOf(meta, items[n].productId);
      if p != 0 {
        var rows := before.enrollments.rows;
        assert (userId, p) in EnrolledKeys(rows);
        var r :| r in rows && EnrollmentKey(r.data) == (userId, p);
        var i :| 0 <= i < |rows| && rows[i] == r;
        UpsertExistingPair(before, userId, p, now, i);
        UpsertPreservesValid(before, userId, p, now);
      }
    }
  }

  /** Delivering the same completion event again, at any later time, leaves
      the same set of enrolled pairs and does not touch progress or the log. */
  lemma OrderCompletedTwice(db: Db, wooEnable: bool, wcLoaded: bool, order: Option<Order>, meta: map<nat, nat>, now: Timestamp, later: Timestamp)
    requires Valid(db)
    ensures var once := OrderCompleted(db, wooEnable, wcLoaded, order, meta, now);
      var twice := OrderCompleted(once, wooEnable, wcLoaded, order, meta, later);
      && Valid(twice)
      && EnrolledKeys(twice.enrollments.rows) == EnrolledKeys(once.enrollments.rows)
      && twice.progress == once.progress
      && twice.sessions == once.sessions
  {
    if wooEnable && wcLoaded && order.Some? && order.value.userId != 0 {
      var u, items := order.value.userId, order.value.items;
      AutoEnrollKeys(db, u, items, meta, now);
      AutoEnrollEnrolledPairs(AutoEnroll(db, u, items, meta, now), u, items, meta, later);
    }
  }

  /** On a completed order that the hook acts on, every mapped line item's
      pair ends up enrolled, and no other pair is added. */
  lemma OrderCompletedEnrolls(db: Db, wcLoaded: bool, order: Order, meta: map<nat, nat>, now: Timestamp)
    requires Valid(db) && wcLoaded && order.userId != 0
    ensures var after := OrderCompleted(db, true, wcLoaded, Some(order), meta, now);
      && Valid(after)
      && EnrolledKeys(after.enrollments.rows) == EnrolledKeys(db.enrollments.rows) + MappedKeys(order.userId, order.items, meta)
  {
    AutoEnrollKeys(db, order.userId, order.items, meta, now);
  }
}
