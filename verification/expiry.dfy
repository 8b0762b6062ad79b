/** What a tick of the expiry worker does on its own, and how fast ticks clear a backlog. */
module Expiry {
  import opened Options
  import opened Seats
  import opened Protocol

  ghost predicate UniqueBookings(bookings: seq<Booking>) {
    forall i, j :: 0 <= i < j < |bookings| ==> bookings[i].bookingId != bookings[j].bookingId
  }

  function ExpireOne(db: Db, b: Booking): Db {
    db.(bookings := SetStatus(db.bookings, b.bookingId, Expired),
        show := ReleaseWrite(db.show, LineIds(b.lines), |b.lines|))
  }

  /** A whole batch, in order. */
  function ExpireAll(db: Db, batch: seq<Booking>): Db {
    if batch == [] then db else ExpireOne(ExpireAll(db, batch[..|batch| - 1]), batch[|batch| - 1])
  }

  function LapsedIds(bookings: seq<Booking>, at: int): set<nat> {
    set i | 0 <= i < |bookings| && bookings[i].status == Pending && bookings[i].expiresAt < at :: bookings[i].bookingId
  }

  function BatchIds(batch: seq<Booking>): set<nat> {
    set i | 0 <= i < |batch| :: batch[i].bookingId
  }

  lemma BatchIdsSnoc(rest: seq<Booking>, last: Booking)
    ensures BatchIds(rest + [last]) == BatchIds(rest) + {last.bookingId}
  {
    var batch := rest + [last];
    assert batch[|rest|] == last && forall i :: 0 <= i < |rest| ==> batch[i] == rest[i];
  }

  lemma {:induction false} BatchIdsSize(batch: seq<Booking>)
    requires UniqueBookings(batch)
    ensures |BatchIds(batch)| == |batch|
  {
    if batch != [] {
      var rest, last := batch[..|batch| - 1], batch[|batch| - 1];
      BatchIdsSize(rest);
      BatchIdsSnoc(rest, last);
      assert batch == rest + [last];
      assert last.bookingId !in BatchIds(rest);
    }
  }

  /** The batch flips its bookings and touches no other. */
  lemma {:induction false} ExpireAllBookings(db: Db, batch: seq<Booking>)
    ensures var after := ExpireAll(db, batch).bookings;
            && |after| == |db.bookings|
            && forall j :: 0 <= j < |after| ==>
                 after[j] == if db.bookings[j].bookingId in BatchIds(batch) then db.bookings[j].(status := Expired) else db.bookings[j]
  {
    if batch != [] {
      var rest := batch[..|batch| - 1];
      ExpireAllBookings(db, rest);
      BatchIdsSnoc(rest, batch[|batch| - 1]);
      assert batch == rest + [batch[|batch| - 1]];
    }
  }

  /** Every seat of the batch is free afterwards and no other seat changes. */
  lemma {:induction false} ExpireAllSeats(db: Db, batch: seq<Booking>)
    ensures var after := ExpireAll(db, batch).show.seats;
            && |after| == |db.show.seats|
            && forall i :: 0 <= i < |after| ==>
                 && after[i].seatId == db.show.seats[i].seatId && after[i].price == db.show.seats[i].price
                 && (if exists k :: 0 <= k < |batch| && after[i].seatId in LineIds(batch[k].lines)
                     then after[i].status == Available && after[i].reservedBy == None && after[i].reservedUntil == None
                     else after[i] == db.show.seats[i])
  {
    if batch != [] {
      var rest, last := batch[..|batch| - 1], batch[|batch| - 1];
      ExpireAllSeats(db, rest);
      var after := ExpireAll(db, batch).show.seats;
      forall i | 0 <= i < |after|
        ensures (exists k :: 0 <= k < |batch| && after[i].seatId in LineIds(batch[k].lines)) <==>
                  after[i].seatId in LineIds(last.lines) || exists k :: 0 <= k < |rest| && after[i].seatId in LineIds(rest[k].lines)
      {
        assert forall k :: 0 <= k < |rest| ==> rest[k] == batch[k];
        assert batch[|rest|] == last;
      }
    }
  }

  /** A tick takes a full batch, or everything when less than a batch is left. */
  lemma TickTakes(db: Db, at: int, batch: seq<Booking>)
    requires UniqueBookings(db.bookings) && LegalBatch(db.bookings, at, batch)
    ensures BatchIds(batch) <= LapsedIds(db.bookings, at)
    ensures |batch| == if |LapsedIds(db.bookings, at)| <= 100 then |LapsedIds(db.bookings, at)| else 100
    ensures LapsedIds(ExpireAll(db, batch).bookings, at) == LapsedIds(db.bookings, at) - BatchIds(batch)
    ensures |LapsedIds(ExpireAll(db, batch).bookings, at)| == |LapsedIds(db.bookings, at)| - |batch|
  {
    BatchIdsSize(batch);
    BatchIsLapsed(db, at, batch);
    if |batch| < BATCH_SIZE { SmallBatchIsAll(db, at, batch); }
    LapsedAfter(db, at, batch);
    TakenSize(LapsedIds(db.bookings, at), BatchIds(batch));
  }

  lemma TakenSize(all: set<nat>, taken: set<nat>)
    requires taken <= all
    ensures |taken| <= |all| && |all - taken| == |all| - |taken|
    ensures all <= taken ==> |taken| == |all|
  {
    SubsetSize(taken, all);
    assert all == taken + (all - taken);
    if all <= taken { assert all == taken; }
  }

  lemma SmallBatchIsAll(db: Db, at: int, batch: seq<Booking>)
    requires LegalBatch(db.bookings, at, batch) && |batch| < BATCH_SIZE
    ensures LapsedIds(db.bookings, at) <= BatchIds(batch)
  {
    forall id | id in LapsedIds(db.bookings, at) ensures id in BatchIds(batch) {
      var i :| 0 <= i < |db.bookings| && Lapsed(db.bookings[i], at) && db.bookings[i].bookingId == id;
      var k :| 0 <= k < |batch| && batch[k] == db.bookings[i];
    }
  }

  lemma BatchIsLapsed(db: Db, at: int, batch: seq<Booking>)
    requires LegalBatch(db.bookings, at, batch)
    ensures BatchIds(batch) <= LapsedIds(db.bookings, at)
  {
    forall id | id in BatchIds(batch) ensures id in LapsedIds(db.bookings, at) {
      var k :| 0 <= k < |batch| && batch[k].bookingId == id;
      var i :| 0 <= i < |db.bookings| && db.bookings[i] == batch[k];
    }
  }

  lemma LapsedAfter(db: Db, at: int, batch: seq<Booking>)
    ensures LapsedIds(ExpireAll(db, batch).bookings, at) == LapsedIds(db.bookings, at) - BatchIds(batch)
  {
    var all, taken, after := LapsedIds(db.bookings, at), BatchIds(batch), ExpireAll(db, batch).bookings;
    ExpireAllBookings(db, batch);
    forall id ensures id in LapsedIds(after, at) <==> id in all - taken {
      if id in LapsedIds(after, at) {
        var i :| 0 <= i < |after| && Lapsed(after[i], at) && after[i].bookingId == id;
        assert Lapsed(db.bookings[i], at) && db.bookings[i].bookingId == id;
      }
      if id in all - taken {
        var i :| 0 <= i < |db.bookings| && Lapsed(db.bookings[i], at) && db.bookings[i].bookingId == id;
        assert Lapsed(after[i], at) && after[i].bookingId == id;
      }
    }
  }

  // ---------------------------------------------------------------- consecutive ticks

  /** A tick: the clock it read, and the batch its query returned. */
  datatype Pass = Pass(at: int, batch: seq<Booking>)

  function Ticks(db: Db, passes: seq<Pass>): Db {
    if passes == [] then db else ExpireAll(Ticks(db, passes[..|passes| - 1]), passes[|passes| - 1].batch)
  }

  /** Each tick reads its own clock, somewhere from `from` to `end`, and gets a batch its query may
      return on the state it starts from. */
  ghost predicate LegalTicks(db: Db, from: int, end: int, passes: seq<Pass>) {
    passes == [] ||
    var before, last := passes[..|passes| - 1], passes[|passes| - 1];
    && LegalTicks(db, from, end, before)
    && from <= last.at <= end && LegalBatch(Ticks(db, before).bookings, last.at, last.batch)
  }

  /** Only lapsed pending bookings changed, and they are expired. */
  ghost predicate OnlyLapsed(db: Db, after: Db, at: int) {
    && |after.bookings| == |db.bookings|
    && forall j :: 0 <= j < |db.bookings| ==>
         after.bookings[j] == db.bookings[j] || (Lapsed(db.bookings[j], at) && after.bookings[j] == db.bookings[j].(status := Expired))
  }

  /** The seats of the bookings that changed are available. */
  ghost predicate SeatsFreed(db: Db, after: Db) {
    && |after.bookings| == |db.bookings| && |after.show.seats| == |db.show.seats|
    && (forall i :: 0 <= i < |db.show.seats| ==> after.show.seats[i].seatId == db.show.seats[i].seatId)
    && (forall j, i :: 0 <= j < |db.bookings| && 0 <= i < |db.show.seats| && after.bookings[j] != db.bookings[j]
                       && db.show.seats[i].seatId in LineIds(db.bookings[j].lines) ==>
          after.show.seats[i].status == Available)
  }

  ghost predicate Handled(db: Db, after: Db, at: int) {
    OnlyLapsed(db, after, at) && SeatsFreed(db, after)
  }

  /** Stored bookings that are due at `at`. */
  ghost predicate DueBatch(bookings: seq<Booking>, at: int, batch: seq<Booking>) {
    forall i :: 0 <= i < |batch| ==> batch[i] in bookings && Lapsed(batch[i], at)
  }

  lemma OnlyLapsedStep(db: Db, mid: Db, at: int, batch: seq<Booking>)
    requires UniqueBookings(db.bookings) && OnlyLapsed(db, mid, at) && DueBatch(mid.bookings, at, batch)
    ensures OnlyLapsed(db, ExpireAll(mid, batch), at)
  {
    ExpireAllBookings(mid, batch);
    forall j | 0 <= j < |db.bookings| && mid.bookings[j].bookingId in BatchIds(batch) ensures Lapsed(mid.bookings[j], at) {
      BatchMember(mid, at, batch, j);
    }
  }

  lemma HandledStep(db: Db, mid: Db, at: int, batch: seq<Booking>)
    requires UniqueBookings(db.bookings) && Handled(db, mid, at) && DueBatch(mid.bookings, at, batch)
    ensures Handled(db, ExpireAll(mid, batch), at)
  {
    var after := ExpireAll(mid, batch);
    assert UniqueBookings(mid.bookings);
    OnlyLapsedStep(db, mid, at, batch);
    ExpireAllBookings(mid, batch);
    ExpireAllSeats(mid, batch);
    forall j, i | 0 <= j < |db.bookings| && 0 <= i < |db.show.seats| && after.bookings[j] != db.bookings[j]
                  && db.show.seats[i].seatId in LineIds(db.bookings[j].lines)
      ensures after.show.seats[i].status == Available
    {
      if mid.bookings[j].bookingId in BatchIds(batch) { FreedByBatch(mid, at, batch, j, i); }
    }
  }

  lemma FreedByBatch(mid: Db, at: int, batch: seq<Booking>, j: nat, i: nat)
    requires UniqueBookings(mid.bookings) && DueBatch(mid.bookings, at, batch)
    requires j < |mid.bookings| && mid.bookings[j].bookingId in BatchIds(batch)
    requires i < |mid.show.seats| && mid.show.seats[i].seatId in LineIds(mid.bookings[j].lines)
    ensures i < |ExpireAll(mid, batch).show.seats| && ExpireAll(mid, batch).show.seats[i].status == Available
  {
    ExpireAllSeats(mid, batch);
    BatchMember(mid, at, batch, j);
    var k :| 0 <= k < |batch| && batch[k] == mid.bookings[j];
    assert mid.show.seats[i].seatId in LineIds(batch[k].lines);
  }

  lemma BatchMember(mid: Db, at: int, batch: seq<Booking>, j: nat)
    requires UniqueBookings(mid.bookings) && DueBatch(mid.bookings, at, batch)
    requires j < |mid.bookings| && mid.bookings[j].bookingId in BatchIds(batch)
    ensures mid.bookings[j] in batch && Lapsed(mid.bookings[j], at)
  {
    var k :| 0 <= k < |batch| && batch[k].bookingId == mid.bookings[j].bookingId;
    var i :| 0 <= i < |mid.bookings| && mid.bookings[i] == batch[k];
    assert i == j;
  }

  lemma LapsedLater(bookings: seq<Booking>, at: int, end: int)
    requires at <= end
    ensures LapsedIds(bookings, at) <= LapsedIds(bookings, end)
  {
    forall id | id in LapsedIds(bookings, at) ensures id in LapsedIds(bookings, end) {
      var i :| 0 <= i < |bookings| && bookings[i].status == Pending && bookings[i].expiresAt < at && bookings[i].bookingId == id;
      assert bookings[i].expiresAt < end;
    }
  }

  /** One tick, seen from an earlier and a later clock: it empties the backlog of the one or takes a
      full batch off that of the other, and never takes more than a batch off either. */
  lemma TickProgress(db: Db, from: int, end: int, pass: Pass)
    requires UniqueBookings(db.bookings) && from <= pass.at <= end && LegalBatch(db.bookings, pass.at, pass.batch)
    ensures var after := ExpireAll(db, pass.batch).bookings;
            && (LapsedIds(after, from) == {} || |LapsedIds(after, end)| == |LapsedIds(db.bookings, end)| - BATCH_SIZE)
            && |LapsedIds(after, from)| >= |LapsedIds(db.bookings, from)| - BATCH_SIZE
            && LapsedIds(after, from) <= LapsedIds(db.bookings, from)
  {
    var taken := BatchIds(pass.batch);
    BatchIdsSize(pass.batch);
    BatchIsLapsed(db, pass.at, pass.batch);
    LapsedLater(db.bookings, from, pass.at);
    LapsedLater(db.bookings, pass.at, end);
    LapsedAfter(db, from, pass.batch);
    LapsedAfter(db, end, pass.batch);
    if |pass.batch| < BATCH_SIZE {
      SmallBatchIsAll(db, pass.at, pass.batch);
    } else {
      TakenSize(LapsedIds(db.bookings, end), taken);
    }
    AtMostTaken(LapsedIds(db.bookings, from), taken);
  }

  lemma AtMostTaken(all: set<nat>, taken: set<nat>)
    ensures |all - taken| >= |all| - |taken|
  {
    SubsetSize(all * taken, taken);
    assert all == (all - taken) + all * taken;
  }

  lemma {:induction false} TicksUnique(db: Db, passes: seq<Pass>)
    requires UniqueBookings(db.bookings)
    ensures UniqueBookings(Ticks(db, passes).bookings)
  {
    if passes != [] {
      TicksUnique(db, passes[..|passes| - 1]);
      ExpireAllBookings(Ticks(db, passes[..|passes| - 1]), passes[|passes| - 1].batch);
    }
  }

  /** With no other writer and no failing call: after any number of ticks, whenever they run between
      `from` and `end`, either everything that had lapsed at `from` has been expired, or every tick
      took a full batch off what will have lapsed by `end`; no tick takes more than a batch, and only
      bookings whose hold was over are touched. */
  lemma {:induction false} BacklogProgress(db: Db, from: int, end: int, passes: seq<Pass>)
    requires UniqueBookings(db.bookings) && from <= end && LegalTicks(db, from, end, passes)
    ensures var after := Ticks(db, passes);
            && (|| LapsedIds(after.bookings, from) == {}
                || |LapsedIds(after.bookings, end)| == |LapsedIds(db.bookings, end)| - 100 * |passes|)
            && |LapsedIds(after.bookings, from)| >= |LapsedIds(db.bookings, from)| - 100 * |passes|
            && Handled(db, after, end)
  {
    if passes != [] {
      var before, last := passes[..|passes| - 1], passes[|passes| - 1];
      var mid := Ticks(db, before);
      BacklogProgress(db, from, end, before);
      TicksUnique(db, before);
      TickProgress(mid, from, end, last);
      HandledStep(db, mid, end, last.batch);
    }
  }

  /** Every lapsed booking of `db` is expired in `after` and all its seats are available there. */
  ghost predicate Cleared(db: Db, after: Db, at: int) {
    && |after.bookings| == |db.bookings| && |after.show.seats| == |db.show.seats|
    && forall j :: 0 <= j < |db.bookings| && db.bookings[j].status == Pending && db.bookings[j].expiresAt < at ==>
         && after.bookings[j] == db.bookings[j].(status := Expired)
         && forall i :: 0 <= i < |db.show.seats| && db.show.seats[i].seatId in LineIds(db.bookings[j].lines) ==>
              after.show.seats[i].status == Available
  }

  /** Nothing that had lapsed at `at` is left exactly when all of it has been expired and freed. */
  lemma ClearedIsEmpty(db: Db, after: Db, at: int, end: int)
    requires UniqueBookings(db.bookings) && Handled(db, after, end) && at <= end
    ensures Cleared(db, after, at) <==> LapsedIds(after.bookings, at) == {}
  {
    var left := LapsedIds(after.bookings, at);
    if left != {} {
      var id :| id in left;
      var j :| 0 <= j < |after.bookings| && Lapsed(after.bookings[j], at) && after.bookings[j].bookingId == id;
      assert after.bookings[j] == db.bookings[j];
    } else {
      forall j | 0 <= j < |db.bookings| && Lapsed(db.bookings[j], at)
        ensures after.bookings[j] == db.bookings[j].(status := Expired)
      {
        assert after.bookings[j].bookingId !in left;
      }
    }
  }

  /** Everything that had lapsed at `from` is expired and its seats freed once there were as many
      ticks as what has lapsed by `end` fills batches, and not before there were as many as what had
      lapsed at `from` fills. */
  lemma BacklogCleared(db: Db, from: int, end: int, passes: seq<Pass>)
    requires UniqueBookings(db.bookings) && from <= end && LegalTicks(db, from, end, passes)
    ensures |LapsedIds(db.bookings, end)| <= 100 * |passes| ==> Cleared(db, Ticks(db, passes), from)
    ensures Cleared(db, Ticks(db, passes), from) ==> |LapsedIds(db.bookings, from)| <= 100 * |passes|
  {
    var after := Ticks(db, passes);
    BacklogProgress(db, from, end, passes);
    ClearedIsEmpty(db, after, from, end);
    LapsedLater(after.bookings, from, end);
  }

  lemma SettledStays(db: Db, after: Db, from: int, end: int)
    requires UniqueBookings(db.bookings) && from <= end && OnlyLapsed(db, after, end)
    requires LapsedIds(db.bookings, from) == LapsedIds(db.bookings, end)
    ensures LapsedIds(after.bookings, from) == LapsedIds(after.bookings, end)
  {
    LapsedLater(after.bookings, from, end);
    forall id | id in LapsedIds(after.bookings, end) ensures id in LapsedIds(after.bookings, from) {
      var j :| 0 <= j < |after.bookings| && Lapsed(after.bookings[j], end) && after.bookings[j].bookingId == id;
      assert after.bookings[j] == db.bookings[j] && id in LapsedIds(db.bookings, end);
      var i :| 0 <= i < |db.bookings| && Lapsed(db.bookings[i], from) && db.bookings[i].bookingId == id;
      assert i == j;
    }
  }

  /** When nothing lapses meanwhile, as with one clock value for all ticks, the two bounds meet: `n`
      ticks leave `max(0, k - 100n)` of `k` lapsed bookings, and clear them all exactly when `n` is
      at least `ceil(k / 100)`. */
  lemma SettledBacklogCleared(db: Db, from: int, end: int, passes: seq<Pass>)
    requires UniqueBookings(db.bookings) && from <= end && LegalTicks(db, from, end, passes)
    requires LapsedIds(db.bookings, from) == LapsedIds(db.bookings, end)
    ensures var k, left := |LapsedIds(db.bookings, from)|, |LapsedIds(Ticks(db, passes).bookings, from)|;
            left == if k <= 100 * |passes| then 0 else k - 100 * |passes|
    ensures Cleared(db, Ticks(db, passes), from) <==> |LapsedIds(db.bookings, from)| <= 100 * |passes|
  {
    BacklogProgress(db, from, end, passes);
    SettledStays(db, Ticks(db, passes), from, end);
    BacklogCleared(db, from, end, passes);
  }
}
