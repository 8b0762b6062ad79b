/** The booking service and the expiry worker as mutable objects. Each whole call, running while
    nobody else does, leaves the stores exactly as a run of the protocol machine would. */
module Service {
  import opened Options
  import opened Seats
  import opened Protocol
  import opened Recovery
  import opened Outcomes
  import opened Refinement
  import LockKey

  /** The MongoDB collections and the Redis lease table the service updates in place. */
  class Stores {
    var now: int
    var show: Show
    var bookings: seq<Booking>
    var leases: map<string, Lease>

    constructor (now: int, show: Show)
      ensures View() == Db(now, show, [], map[])
    {
      this.now, this.show, this.bookings, this.leases := now, show, [], map[];
    }

    ghost function View(): Db
      reads this
    {
      Db(now, show, bookings, leases)
    }

    /** `save` of a new booking: the key is unique in the collection, and there must be a seat. */
    method SaveBooking(b: Booking) returns (saved: bool)
      modifies this
      ensures saved == (FindByKey(old(bookings), b.idempotencyKey).None? && b.lines != [])
      ensures View() == old(View()).(bookings := if saved then old(bookings) + [b] else old(bookings))
    {
      saved := FindByKey(bookings, b.idempotencyKey).None? && b.lines != [];
      if saved { bookings := bookings + [b]; }
    }

    /** `Show.updateOne` as cancel and expiry issue it: free the booking's seats. */
    method ReleaseSeats(b: Booking)
      modifies this
      ensures View() == old(View()).(show := ReleaseWrite(old(show), LineIds(b.lines), |b.lines|))
    {
      show := show.(seats := SetSeats(show.seats, LineIds(b.lines), Available, None, None),
                    availableSeats := show.availableSeats + |b.lines|,
                    seatVersion := show.seatVersion + 1);
    }
  }

  /** The protocol machine with these stores and no process yet. */
  ghost function Alone(db: Db, holdMinutes: nat): State {
    State(Config(db.show, holdMinutes), db, map[], [], [])
  }

  lemma {:induction false} RunSnoc(s: State, p: nat, n: nat)
    ensures Run(s, p, n + 1) == Do(Run(s, p, n), Advance(p))
    decreases n
  {
    if n != 0 { RunSnoc(Do(s, Advance(p)), p, n - 1); }
  }

  lemma {:induction false} RunSplit(s: State, p: nat, m: nat, n: nat)
    ensures Run(s, p, m + n) == Run(Run(s, p, m), p, n)
    decreases m
  {
    if m != 0 { RunSplit(Do(s, Advance(p)), p, m - 1, n); }
  }

  /** The first two steps under the lock: the show read and its tests. */
  lemma ReadRun(s: State, p: nat, req: Request, lease: int)
    requires p in s.procs && s.procs[p] == Read(req, lease)
    ensures var show, one, two := s.db.show, Run(s, p, 1), Run(s, p, 2);
            if show.showId != req.showId || !show.isActive
            then one == SetProc(s, p, Unlock(req, lease, Rejected(ShowNotFound)))
            else
              && two.db == s.db && two.cfg == s.cfg && p in two.procs
              && two.procs[p] == match CheckAt(req, show, s.db.now)
                                 case Some(e) => Unlock(req, lease, Rejected(e))
                                 case None => Commit(req, lease, Plan(show, s.db.now))
  {
    RunSnoc(s, p, 0);
    RunSnoc(s, p, 1);
  }

  /** Once it is done, more steps change nothing. */
  lemma DoneRun(s: State, p: nat, m: nat, n: nat)
    requires m <= n && var u := Run(s, p, m); p in u.procs && u.procs[p].Done?
    ensures Run(s, p, n) == Run(s, p, m)
  {
    RunSplit(s, p, m, n - m);
    RunDone(Run(s, p, m), p, n - m);
  }

  lemma UnlockEnds(t: State, p: nat, req: Request, lease: int, r: Result)
    requires p in t.procs && t.procs[p] == Unlock(req, lease, r)
    ensures var u := Do(t, Advance(p)); p in u.procs && u.procs[p] == Done(r)
  {
  }

  /** Read, status flip and seat release. */
  const CANCEL_STEPS := 3

  class BookingService {
    const db: Stores
    const holdMinutes: nat

    constructor (db: Stores, holdMinutes: nat)
      ensures this.db == db && this.holdMinutes == holdMinutes
    {
      this.db, this.holdMinutes := db, holdMinutes;
    }

    /** `SET key token NX EX ttl`. */
    method AcquireLock(key: string, token: nat, ttlMs: nat) returns (acquired: bool)
      modifies db
      ensures acquired == !LeaseLive(old(db.leases), key, old(db.now))
      ensures db.View() == old(db.View()).(leases :=
                if acquired then old(db.leases)[key := Lease(token, old(db.now) + ttlMs)] else old(db.leases))
    {
      acquired := !(key in db.leases && db.now < db.leases[key].expiresAt);
      if acquired { db.leases := db.leases[key := Lease(token, db.now + ttlMs)]; }
    }

    /** Compare and delete: only the caller's own unexpired lease goes. */
    method ReleaseLock(key: string, token: nat)
      modifies db
      ensures db.View() == old(db.View()).(leases :=
                if LeaseLive(old(db.leases), key, old(db.now)) && old(db.leases)[key].token == token
                then old(db.leases) - {key} else old(db.leases))
    {
      if key in db.leases && db.now < db.leases[key].expiresAt && db.leases[key].token == token {
        db.leases := db.leases - {key};
      }
    }

    /** The versioned `findOneAndUpdate` on the show. */
    method ReserveSeats(req: Request, plan: Plan, bookingId: nat, expiresAt: int) returns (updated: bool)
      modifies db
      ensures updated == CommitFilter(old(db.show), req, plan)
      ensures db.View() == old(db.View()).(show :=
                if updated then ReserveWrite(old(db.show), SetOf(req.seatIds), |req.seatIds|, bookingId, expiresAt) else old(db.show))
    {
      var ids := SetOf(req.seatIds);
      updated := db.show.showId == req.showId && db.show.seatVersion == plan.snap.seatVersion
                 && !AnyBlocked(db.show.seats, ids, plan.at);
      if updated {
        db.show := db.show.(seats := SetSeats(db.show.seats, ids, Reserved, Some(bookingId), Some(expiresAt)),
                            availableSeats := db.show.availableSeats - |req.seatIds|,
                            seatVersion := db.show.seatVersion + 1);
      }
    }

    /** The body of the `try` block: from the show read to the inserted booking. */
    method ReserveAndSave(p: nat, req: Request, ghost s: State, ghost lease: int) returns (r: Result, ghost n: nat)
      requires s.db == db.View() && s.cfg.holdMinutes == holdMinutes && p in s.procs && s.procs[p] == Read(req, lease)
      modifies db
      ensures UniqueIds(old(db.show).seats) ==> TryOutcome(old(db.View()), holdMinutes, p, req, r, db.View())
      ensures r.Created? ==> Charged(r.booking)
      ensures db.View() == old(db.View()).(show := db.show, bookings := db.bookings)
      ensures n <= 4
      ensures var t := Run(s, p, n);
              t.db == db.View() && t.cfg == s.cfg && p in t.procs && t.procs[p] == Unlock(req, lease, r)
    {
      ReadRun(s, p, req, lease);
      if db.show.showId != req.showId || !db.show.isActive { return Rejected(ShowNotFound), 1; }
      var show, now := db.show, db.now;
      ghost var t2 := Run(s, p, 2);
      var error := CheckSeats(req, show, now);
      if error.Some? { return Rejected(error.value), 2; }
      var plan := Plan(show, now);
      r, n := CommitAndSave(p, req, plan, t2, lease);
      RunSplit(s, p, 2, n);
      n := n + 2;
    }

    /** The tests on the show read. */
    method CheckSeats(req: Request, show: Show, now: int) returns (error: Option<Error>)
      ensures error == CheckAt(req, show, now)
      ensures UniqueIds(show.seats) ==> CheckOutcome(show, now, req, error)
    {
      if show.showTime <= now { return Some(ShowStarted); }
      if UniqueIds(show.seats) { TestsMean(show.seats, req.seatIds, now); }
      var selected := Selected(show.seats, SetOf(req.seatIds));
      if |selected| != |req.seatIds| { return Some(SeatsNotFound); }
      var unavailable := Unavailable(selected, now);
      if |unavailable| > 0 { return Some(SeatsUnavailable); }
      return None;
    }

    /** Prices, fee and the end of the hold. */
    method BuildBooking(p: nat, req: Request, plan: Plan) returns (b: Booking)
      ensures b == NewBooking(Config(plan.snap, holdMinutes), p, req, plan)
      ensures Charged(b)
      ensures Exist(plan.snap.seats, req.seatIds) ==> Grants(b, p, req, plan.snap.seats, plan.at + holdMinutes * 60000)
    {
      var selected := Selected(plan.snap.seats, SetOf(req.seatIds));
      var subtotal := Subtotal(selected);
      var fee := Fee(subtotal);
      var expiresAt := plan.at + holdMinutes * 60 * 1000;
      b := Booking(p, req.userId, req.showId, LinesOf(selected), Pending, subtotal + fee as real, fee, expiresAt, req.idempotencyKey);
      NewBookingCharged(Config(plan.snap, holdMinutes), p, req, plan);
      if Exist(plan.snap.seats, req.seatIds) { NewBookingGrants(Config(plan.snap, holdMinutes), p, req, plan); }
    }

    /** The versioned update and the insert. */
    method CommitAndSave(p: nat, req: Request, plan: Plan, ghost s: State, ghost lease: int) returns (r: Result, ghost n: nat)
      requires s.db == db.View() && s.cfg.holdMinutes == holdMinutes && p in s.procs && s.procs[p] == Commit(req, lease, plan)
      modifies db
      ensures Exist(plan.snap.seats, req.seatIds) ==> CommitOutcome(old(db.View()), holdMinutes, p, req, plan, r, db.View())
      ensures r.Created? ==> Charged(r.booking)
      ensures db.View() == old(db.View()).(show := db.show, bookings := db.bookings)
      ensures n <= 2
      ensures var t := Run(s, p, n);
              t.db == db.View() && t.cfg == s.cfg && p in t.procs && t.procs[p] == Unlock(req, lease, r)
    {
      var b := BuildBooking(p, req, plan);
      ghost var t1 := Do(s, Advance(p));
      RunSnoc(s, p, 0);
      if Exist(plan.snap.seats, req.seatIds) { CommitMeets(s, p, req, plan); }
      var updated := ReserveSeats(req, plan, p, b.expiresAt);
      if !updated { return Rejected(ConcurrentUpdate), 1; }
      assert t1.procs[p] == Save(req, lease, plan) && t1.db == db.View();
      RunSnoc(s, p, 1);
      var saved := db.SaveBooking(b);
      return if saved then Created(b) else Rejected(SaveFailed), 2;
    }

    /** A whole `createBooking` call, alone with a standing clock, is the solo run of the machine,
        followed for any number of steps from the call's own on. */
    method CreateBooking(p: nat, req: Request, ghost n: nat) returns (r: Result)
      requires n >= CALL_STEPS
      modifies db
      ensures UniqueIds(old(db.show).seats) ==> CreateOutcome(old(db.View()), holdMinutes, p, req, r, db.View())
      ensures r.Created? ==> Charged(r.booking)
      ensures var t := Exec(Alone(old(db.View()), holdMinutes), Solo(p, req, n));
              db.View() == t.db && p in t.procs && t.procs[p] == Done(r)
    {
      ghost var s0 := Alone(db.View(), holdMinutes);
      ghost var s1 := Do(s0, StartCreate(p, req));
      SoloIsRun(s0, p, req, n);
      if |req.seatIds| > MAX_SEATS_PER_BOOKING {
        RunDone(s1, p, n);
        return Rejected(TooManySeats);
      }
      r := CreateWithinLimit(p, req, s1, n);
    }

    /** The call once the seat count is accepted. */
    method CreateWithinLimit(p: nat, req: Request, ghost s: State, ghost n: nat) returns (r: Result)
      requires s.db == db.View() && s.cfg.holdMinutes == holdMinutes && p in s.procs && s.procs[p] == Lookup(req) && n >= CALL_STEPS
      modifies db
      ensures UniqueIds(old(db.show).seats) && |req.seatIds| <= 10 ==>
                CreateOutcome(old(db.View()), holdMinutes, p, req, r, db.View())
      ensures r.Created? ==> Charged(r.booking)
      ensures var t := Run(s, p, n); t.db == db.View() && p in t.procs && t.procs[p] == Done(r)
    {
      ghost var t1 := Do(s, Advance(p));
      var existing := FindByKey(db.bookings, req.idempotencyKey);
      if |req.seatIds| <= 10 { LookupMeets(db.View(), holdMinutes, p, req); }
      if existing.Some? {
        RunDone(t1, p, n - 1);
        return Replayed(existing.value);
      }
      assert t1.procs[p] == Acquire(req) && t1.db == s.db;
      r := LockAndReserve(p, req, t1, n - 1);
    }

    /** The lock, and what runs under it. */
    method LockAndReserve(p: nat, req: Request, ghost s: State, ghost n: nat) returns (r: Result)
      requires s.db == db.View() && s.cfg.holdMinutes == holdMinutes && p in s.procs && s.procs[p] == Acquire(req) && n >= 6
      modifies db
      ensures UniqueIds(old(db.show).seats) && |req.seatIds| <= 10 && !KeyUsed(old(db.bookings), req.idempotencyKey) ==>
                CreateOutcome(old(db.View()), holdMinutes, p, req, r, db.View())
      ensures r.Created? ==> Charged(r.booking)
      ensures var t := Run(s, p, n); t.db == db.View() && p in t.procs && t.procs[p] == Done(r)
    {
      ghost var t := Do(s, Advance(p));
      var lockKey, lockTtl := LockKey.Key(req.showId, req.seatIds), (holdMinutes * 60 + 30) * 1000;
      var acquired := AcquireLock(lockKey, p, lockTtl);
      assert t.db == db.View();
      if !acquired {
        RunDone(t, p, n - 1);
        return Rejected(LockConflict);
      }
      r := LockedPart(p, req, t, s.db.now + lockTtl, n - 1);
      if UniqueIds(s.db.show.seats) && |req.seatIds| <= 10 && !KeyUsed(s.db.bookings, req.idempotencyKey) {
        LockedMeets(s.db, t.db, holdMinutes, p, req, r, db.View());
      }
    }

    /** `try { … } finally { releaseLock }`. */
    method LockedPart(p: nat, req: Request, ghost s: State, ghost lease: int, ghost n: nat) returns (r: Result)
      requires s.db == db.View() && s.cfg.holdMinutes == holdMinutes && p in s.procs && s.procs[p] == Read(req, lease) && n >= 5
      modifies db
      ensures UniqueIds(old(db.show).seats) ==> TryOutcome(old(db.View()), holdMinutes, p, req, r, db.View())
      ensures r.Created? ==> Charged(r.booking)
      ensures var key := LockKey.Key(req.showId, req.seatIds);
              db.now == old(db.now) &&
              db.leases == if LeaseLive(old(db.leases), key, old(db.now)) && old(db.leases)[key].token == p
                           then old(db.leases) - {key} else old(db.leases)
      ensures var t := Run(s, p, n); t.db == db.View() && p in t.procs && t.procs[p] == Done(r)
    {
      ghost var m: nat;
      r, m := ReserveAndSave(p, req, s, lease);
      ghost var t := Run(s, p, m);
      UnlockEnds(t, p, req, lease, r);
      RunSnoc(s, p, m);
      DoneRun(s, p, m + 1, n);
      ReleaseLock(LockKey.Key(req.showId, req.seatIds), p);
      assert Do(t, Advance(p)).db == db.View();
    }

    /** A whole `cancelBooking` call, alone: the machine's cancel run. */
    method CancelBooking(p: nat, bookingId: nat, userId: string, ghost n: nat) returns (r: Result)
      requires n >= CANCEL_STEPS
      modifies db
      ensures IdsDistinct(old(db.bookings)) ==> CancelOutcome(old(db.View()), bookingId, userId, r, db.View())
      ensures var t := Run(Do(Alone(old(db.View()), holdMinutes), StartCancel(p, bookingId, userId)), p, n);
              db.View() == t.db && p in t.procs && t.procs[p] == Done(r)
    {
      ghost var s := Do(Alone(db.View(), holdMinutes), StartCancel(p, bookingId, userId));
      r := CancelSteps(p, bookingId, userId, s, n);
      if IdsDistinct(s.db.bookings) { CancelMeets(s.db, bookingId, userId, r, db.View()); }
    }

    method CancelSteps(p: nat, bookingId: nat, userId: string, ghost s: State, ghost n: nat) returns (r: Result)
      requires s.db == db.View() && p in s.procs && s.procs[p] == CancelRead(bookingId, userId) && n >= CANCEL_STEPS
      modifies db
      ensures FoundOutcome(old(db.View()), FindById(old(db.bookings), bookingId), userId, r, db.View())
      ensures var t := Run(s, p, n); t.db == db.View() && p in t.procs && t.procs[p] == Done(r)
    {
      ghost var t1 := Do(s, Advance(p));
      var found := FindById(db.bookings, bookingId);
      if found.None? { RunDone(t1, p, n - 1); return Rejected(BookingNotFound); }
      var booking := found.value;
      if booking.userId != userId { RunDone(t1, p, n - 1); return Rejected(Forbidden); }
      if booking.status != Pending && booking.status != PaymentProcessing {
        RunDone(t1, p, n - 1);
        return Rejected(InvalidStatus);
      }
      assert t1.procs[p] == CancelFlip(booking) && t1.db == s.db;
      FindByIdSound(db.bookings, bookingId);
      r := FlipAndRelease(p, booking, t1, n - 1);
    }

    method FlipAndRelease(p: nat, booking: Booking, ghost s: State, ghost n: nat) returns (r: Result)
      requires s.db == db.View() && p in s.procs && s.procs[p] == CancelFlip(booking) && n >= 2
      requires FindById(db.bookings, booking.bookingId).Some?
      modifies db
      ensures Freed(old(db.View()), booking, r, db.View())
      ensures var t := Run(s, p, n); t.db == db.View() && p in t.procs && t.procs[p] == Done(r)
    {
      ghost var t1 := Do(s, Advance(p));
      WritesFree(db.View(), booking);
      db.bookings := SetStatus(db.bookings, booking.bookingId, Cancelled);
      assert t1.db == db.View() && t1.procs[p] == CancelRelease(booking);
      db.ReleaseSeats(booking);
      ghost var t2 := Do(t1, Advance(p));
      assert t2.db == db.View();
      RunSnoc(s, p, 0);
      RunSnoc(s, p, 1);
      RunSplit(s, p, 2, n - 2);
      RunDone(t2, p, n - 2);
      r := CancelledBooking(booking.(status := Cancelled));
    }
  }
}
