/** What a whole call answers and leaves, written down over the stored documents alone: seat by
    seat, line by line, without the step functions of the protocol machine. */
module Outcomes {
  import opened Options
  import opened Seats
  import opened History
  import opened Protocol
  import opened Refinement
  import LockKey

  // ---------------------------------------------------------------- amounts

  function LineSum(lines: seq<Line>): real {
    if lines == [] then 0.0 else lines[0].price + LineSum(lines[1..])
  }

  /** The amount is the prices of the lines plus the fee, and the fee is 2% of those prices rounded
      to the nearest whole unit, halves upward. */
  ghost predicate Charged(b: Booking) {
    && b.totalAmount == LineSum(b.lines) + b.convenienceFee as real
    && -0.5 < b.convenienceFee as real - 0.02 * LineSum(b.lines) <= 0.5
  }

  lemma {:induction false} LineSumOf(selected: seq<Seat>)
    ensures LineSum(LinesOf(selected)) == Subtotal(selected)
  {
    if selected != [] {
      assert LinesOf(selected)[1..] == LinesOf(selected[1..]);
      LineSumOf(selected[1..]);
    }
  }

  /** Every booking that `createBooking` builds carries the sum of its own lines and the fee. */
  lemma NewBookingCharged(cfg: Config, p: nat, req: Request, plan: Plan)
    ensures Charged(NewBooking(cfg, p, req, plan))
  {
    LineSumOf(Choose(req, plan.snap));
  }

  /** The lines are exactly the requested seats, each at the price the show has for it. */
  ghost predicate Lists(lines: seq<Line>, seats: seq<Seat>, ids: seq<string>) {
    && |lines| == |ids| && LineIds(lines) == SetOf(ids)
    && forall i :: 0 <= i < |lines| ==> Priced(lines[i], seats)
  }

  ghost predicate Priced(line: Line, seats: seq<Seat>) {
    exists j :: 0 <= j < |seats| && seats[j].seatId == line.seatId && seats[j].price == line.price
  }

  lemma LinesPriced(seats: seq<Seat>, ids: set<string>)
    ensures var lines := LinesOf(Selected(seats, ids)); forall i :: 0 <= i < |lines| ==> Priced(lines[i], seats)
  {
    var selected := Selected(seats, ids);
    SelectedMembers(seats, ids);
    forall i | 0 <= i < |selected| ensures Priced(LinesOf(selected)[i], seats) {
      assert selected[i] in selected;
      var j :| 0 <= j < |seats| && seats[j] == selected[i];
    }
  }

  // ---------------------------------------------------------------- seat writes

  /** One update of the show: the seats named get this state, the counter moves by `count`,
      the version by one, and nothing else changes. */
  ghost predicate Touched(a: Show, z: Show, ids: set<string>, status: SeatStatus, who: Option<nat>, until: Option<int>, count: int) {
    && z.showId == a.showId && z.showTime == a.showTime && z.isActive == a.isActive && z.totalSeats == a.totalSeats
    && z.availableSeats == a.availableSeats + count && z.seatVersion == a.seatVersion + 1
    && |z.seats| == |a.seats|
    && (forall i :: 0 <= i < |a.seats| && a.seats[i].seatId !in ids ==> z.seats[i] == a.seats[i])
    && (forall i :: 0 <= i < |a.seats| && a.seats[i].seatId in ids ==>
          z.seats[i] == Seat(a.seats[i].seatId, a.seats[i].price, status, who, until))
  }

  /** Some requested seat is booked, under maintenance, or held beyond `now`. */
  ghost predicate Taken(seats: seq<Seat>, ids: seq<string>, now: int) {
    exists i :: 0 <= i < |seats| && seats[i].seatId in ids &&
      (seats[i].status == Booked || seats[i].status == Maintenance
       || (seats[i].status == Reserved && seats[i].reservedUntil.Some? && now < seats[i].reservedUntil.value))
  }

  lemma TakenIsBlocked(seats: seq<Seat>, ids: seq<string>, now: int)
    ensures Taken(seats, ids, now) <==> AnyBlocked(seats, SetOf(ids), now)
  {
  }

  predicate KeyUsed(bookings: seq<Booking>, key: string) {
    exists b :: b in bookings && b.idempotencyKey == key
  }

  // ---------------------------------------------------------------- createBooking

  /** Unique seats, and a request for distinct ones among them. */
  ghost predicate Exist(seats: seq<Seat>, ids: seq<string>) {
    UniqueIds(seats) && Distinct(ids) && forall k :: 0 <= k < |ids| ==> ids[k] in IdsOf(seats)
  }

  /** What the booking that request `req` gets under number `p` says for ever. */
  ghost predicate Terms(b: Booking, p: nat, req: Request, seats: seq<Seat>) {
    && b.bookingId == p && b.userId == req.userId && b.showId == req.showId && b.idempotencyKey == req.idempotencyKey
    && Lists(b.lines, seats, req.seatIds) && Charged(b)
  }

  ghost predicate Grants(b: Booking, p: nat, req: Request, seats: seq<Seat>, until: int) {
    Terms(b, p, req, seats) && b.status == Pending && b.expiresAt == until
  }

  ghost predicate Refused(d: Db, error: Error, r: Result, e: Db) {
    r == Rejected(error) && e.show == d.show && e.bookings == d.bookings
  }

  /** The versioned update and the insert, for a call that read `plan.snap` at `plan.at`. */
  ghost predicate CommitOutcome(d: Db, minutes: nat, p: nat, req: Request, plan: Plan, r: Result, e: Db) {
    var until := plan.at + minutes * 60000;
    if d.show.showId != req.showId || d.show.seatVersion != plan.snap.seatVersion || Taken(d.show.seats, req.seatIds, plan.at)
    then Refused(d, ConcurrentUpdate, r, e)
    else
      && Touched(d.show, e.show, SetOf(req.seatIds), Reserved, Some(p), Some(until), -|req.seatIds|)
      && if req.seatIds == [] || KeyUsed(d.bookings, req.idempotencyKey)
         then r == Rejected(SaveFailed) && e.bookings == d.bookings
         else r.Created? && Grants(r.booking, p, req, plan.snap.seats, until) && e.bookings == d.bookings + [r.booking]
  }

  /** The first test that fails decides the error. */
  ghost predicate CheckOutcome(show: Show, now: int, req: Request, error: Option<Error>) {
    error == if show.showTime <= now then Some(ShowStarted)
             else if !Exist(show.seats, req.seatIds) then Some(SeatsNotFound)
             else if Taken(show.seats, req.seatIds, now) then Some(SeatsUnavailable)
             else None
  }

  /** The `try` block. */
  ghost predicate TryOutcome(d: Db, minutes: nat, p: nat, req: Request, r: Result, e: Db) {
    if d.show.showId != req.showId || !d.show.isActive then Refused(d, ShowNotFound, r, e)
    else if CheckOutcome(d.show, d.now, req, None) then CommitOutcome(d, minutes, p, req, Plan(d.show, d.now), r, e)
    else r.Rejected? && CheckOutcome(d.show, d.now, req, Some(r.error)) && e.show == d.show && e.bookings == d.bookings
  }

  /** A whole call: too many seats, a replay, a held lock, or the `try` block with the caller's lock
      gone afterwards. */
  ghost predicate CreateOutcome(d: Db, minutes: nat, p: nat, req: Request, r: Result, e: Db) {
    var key := LockKey.Key(req.showId, req.seatIds);
    && e.now == d.now
    && if |req.seatIds| > 10 then Refused(d, TooManySeats, r, e) && e.leases == d.leases
       else if KeyUsed(d.bookings, req.idempotencyKey) then
         && r.Replayed? && r.booking in d.bookings && r.booking.idempotencyKey == req.idempotencyKey && e == d
       else if key in d.leases && d.now < d.leases[key].expiresAt then Refused(d, LockConflict, r, e) && e.leases == d.leases
       else TryOutcome(d, minutes, p, req, r, e) && e.leases == d.leases - {key}
  }

  lemma WriteTouches(a: Show, ids: set<string>, count: nat, who: nat, until: int)
    ensures Touched(a, ReserveWrite(a, ids, count, who, until), ids, Reserved, Some(who), Some(until), 0 - count)
    ensures Touched(a, ReleaseWrite(a, ids, count), ids, Available, None, None, count)
  {
  }

  lemma KeyUsedIsFound(bookings: seq<Booking>, key: string)
    ensures KeyUsed(bookings, key) <==> FindByKey(bookings, key).Some?
    ensures KeyUsed(bookings, key) ==> var b := FindByKey(bookings, key).value; b in bookings && b.idempotencyKey == key
  {
    FindByKeySound(bookings, key);
  }

  /** The two tests of the seat list, by what they mean. */
  lemma TestsMean(seats: seq<Seat>, ids: seq<string>, now: int)
    requires UniqueIds(seats)
    ensures |Selected(seats, SetOf(ids))| == |ids| <==> Exist(seats, ids)
    ensures |Unavailable(Selected(seats, SetOf(ids)), now)| > 0 <==> Taken(seats, ids, now)
  {
    LengthTestIsFullCheck(seats, ids);
    ChecksAgree(seats, SetOf(ids), now);
    TakenIsBlocked(seats, ids, now);
    assert SetOf(ids) <= IdsOf(seats) <==> forall k :: 0 <= k < |ids| ==> ids[k] in IdsOf(seats);
  }

  lemma NewBookingGrants(cfg: Config, p: nat, req: Request, plan: Plan)
    requires Exist(plan.snap.seats, req.seatIds)
    ensures Grants(NewBooking(cfg, p, req, plan), p, req, plan.snap.seats, plan.at + cfg.holdMinutes * 60000)
    ensures NewBooking(cfg, p, req, plan).lines == [] <==> req.seatIds == []
  {
    var selected := Choose(req, plan.snap);
    TestsMean(plan.snap.seats, req.seatIds, plan.at);
    LengthTestIsFullCheck(plan.snap.seats, req.seatIds);
    LineIdsOf(selected);
    LinesPriced(plan.snap.seats, SetOf(req.seatIds));
    NewBookingCharged(cfg, p, req, plan);
  }

  /** The machine's versioned update and insert have that outcome. */
  lemma CommitMeets(s: State, p: nat, req: Request, plan: Plan)
    requires Exist(plan.snap.seats, req.seatIds)
    ensures !CommitFilter(s.db.show, req, plan) ==>
              CommitOutcome(s.db, s.cfg.holdMinutes, p, req, plan, Rejected(ConcurrentUpdate), s.db)
    ensures CommitFilter(s.db.show, req, plan) ==>
              var b := NewBooking(s.cfg, p, req, plan);
              var after := s.db.(show := ReserveWrite(s.db.show, SetOf(req.seatIds), |req.seatIds|, p, b.expiresAt));
              if FindByKey(s.db.bookings, req.idempotencyKey).Some? || b.lines == []
              then CommitOutcome(s.db, s.cfg.holdMinutes, p, req, plan, Rejected(SaveFailed), after)
              else CommitOutcome(s.db, s.cfg.holdMinutes, p, req, plan, Created(b), after.(bookings := s.db.bookings + [b]))
  {
    TakenIsBlocked(s.db.show.seats, req.seatIds, plan.at);
    WriteTouches(s.db.show, SetOf(req.seatIds), |req.seatIds|, p, plan.at + s.cfg.HoldMs());
    KeyUsedIsFound(s.db.bookings, req.idempotencyKey);
    NewBookingGrants(s.cfg, p, req, plan);
  }

  lemma LookupMeets(d: Db, minutes: nat, p: nat, req: Request)
    requires |req.seatIds| <= 10
    ensures var found := FindByKey(d.bookings, req.idempotencyKey);
            && found.Some? == KeyUsed(d.bookings, req.idempotencyKey)
            && (found.Some? ==> CreateOutcome(d, minutes, p, req, Replayed(found.value), d))
  {
    KeyUsedIsFound(d.bookings, req.idempotencyKey);
  }

  lemma LockedMeets(d: Db, locked: Db, minutes: nat, p: nat, req: Request, r: Result, e: Db)
    requires var key := LockKey.Key(req.showId, req.seatIds);
             && |req.seatIds| <= 10 && !KeyUsed(d.bookings, req.idempotencyKey) && !LeaseLive(d.leases, key, d.now)
             && key in locked.leases && locked == d.(leases := d.leases[key := locked.leases[key]])
             && TryOutcome(locked, minutes, p, req, r, e) && e.now == d.now && e.leases == locked.leases - {key}
    ensures CreateOutcome(d, minutes, p, req, r, e)
  {
    assert locked.leases - {LockKey.Key(req.showId, req.seatIds)} == d.leases - {LockKey.Key(req.showId, req.seatIds)};
  }

  /** A call that passed its checks asks for distinct existing seats. */
  lemma PlanExists(s: State, req: Request, plan: Plan)
    requires UniqueIds(s.cfg.first.seats) && PlanOk(s, req, plan)
    ensures UniqueIds(plan.snap.seats) && Exist(plan.snap.seats, req.seatIds)
  {
    ReplayFrame(s.cfg.first, s.log[..plan.snap.seatVersion - s.cfg.first.seatVersion]);
    TestsMean(plan.snap.seats, req.seatIds, plan.at);
  }

  // ---------------------------------------------------------------- cancelBooking

  ghost predicate IdsDistinct(bookings: seq<Booking>) {
    forall i, j :: 0 <= i < j < |bookings| ==> bookings[i].bookingId != bookings[j].bookingId
  }

  /** Only this booking's status changed. */
  ghost predicate OnlyStatus(before: seq<Booking>, after: seq<Booking>, id: nat, status: BookingStatus) {
    && |after| == |before|
    && forall i :: 0 <= i < |before| ==> after[i] == if before[i].bookingId == id then before[i].(status := status) else before[i]
  }

  /** The booking is cancelled, its seats are free, and nothing else has changed. */
  ghost predicate Freed(d: Db, b: Booking, r: Result, e: Db) {
    && r == CancelledBooking(b.(status := Cancelled))
    && e.now == d.now && e.leases == d.leases
    && OnlyStatus(d.bookings, e.bookings, b.bookingId, Cancelled)
    && Touched(d.show, e.show, LineIds(b.lines), Available, None, None, |b.lines|)
  }

  lemma WritesFree(d: Db, b: Booking)
    ensures Freed(d, b, CancelledBooking(b.(status := Cancelled)),
                  d.(bookings := SetStatus(d.bookings, b.bookingId, Cancelled), show := ReleaseWrite(d.show, LineIds(b.lines), |b.lines|)))
  {
    WriteTouches(d.show, LineIds(b.lines), |b.lines|, 0, 0);
  }

  /** Who may cancel the booking found, when, and what that frees. */
  ghost predicate FoundOutcome(d: Db, found: Option<Booking>, userId: string, r: Result, e: Db) {
    match found
    case None => r == Rejected(BookingNotFound) && e == d
    case Some(b) =>
      if b.userId != userId then r == Rejected(Forbidden) && e == d
      else if b.status != Pending && b.status != PaymentProcessing then r == Rejected(InvalidStatus) && e == d
      else Freed(d, b, r, e)
  }

  /** A whole cancel, for the one booking with that id. */
  ghost predicate CancelOutcome(d: Db, id: nat, userId: string, r: Result, e: Db) {
    && ((forall b :: b in d.bookings ==> b.bookingId != id) ==> FoundOutcome(d, None, userId, r, e))
    && forall b :: b in d.bookings && b.bookingId == id ==> FoundOutcome(d, Some(b), userId, r, e)
  }

  /** With distinct ids the document found is the only one. */
  lemma TheOne(bookings: seq<Booking>, id: nat)
    requires IdsDistinct(bookings)
    ensures forall b :: b in bookings && b.bookingId == id ==> FindById(bookings, id) == Some(b)
  {
    FindByIdSound(bookings, id);
    forall b | b in bookings && b.bookingId == id ensures FindById(bookings, id) == Some(b) {
      var i :| 0 <= i < |bookings| && bookings[i] == b;
      var j :| 0 <= j < |bookings| && bookings[j] == FindById(bookings, id).value;
    }
  }

  lemma CancelMeets(d: Db, id: nat, userId: string, r: Result, e: Db)
    requires IdsDistinct(d.bookings) && FoundOutcome(d, FindById(d.bookings, id), userId, r, e)
    ensures CancelOutcome(d, id, userId, r, e)
  {
    FindByIdSound(d.bookings, id);
    TheOne(d.bookings, id);
  }
}
