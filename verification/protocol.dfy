/** `createBooking`, `cancelBooking` and the expiry worker as concurrent processes over the show
    document, the bookings collection and the Redis lease table. Every store call is one atomic
    step; the clock ticks, calls fail and processes crash at any point between steps. */
module Protocol {
  import opened Options
  import opened Seats
  import opened History
  import LockKey

  const MAX_SEATS_PER_BOOKING := 10
  const BATCH_SIZE := 100

  /** The show as first created, and `SEAT_HOLD_MINUTES`. */
  datatype Config = Config(first: Show, holdMinutes: nat) {
    function HoldMs(): nat { holdMinutes * 60 * 1000 }
    function LeaseMs(): nat { (holdMinutes * 60 + 30) * 1000 }
  }

  // ---------------------------------------------------------------- stored documents

  datatype BookingStatus = Pending | PaymentProcessing | Confirmed | Cancelled | Expired | Refunded

  datatype Line = Line(seatId: string, price: Price)

  datatype Booking = Booking(
    bookingId: nat,
    userId: string,
    showId: string,
    lines: seq<Line>,
    status: BookingStatus,
    totalAmount: real,
    convenienceFee: int,
    expiresAt: int,
    idempotencyKey: string)

  datatype Lease = Lease(token: nat, expiresAt: int)

  datatype Db = Db(now: int, show: Show, bookings: seq<Booking>, leases: map<string, Lease>)

  function LinesOf(selected: seq<Seat>): seq<Line> {
    seq(|selected|, i requires 0 <= i < |selected| => Line(selected[i].seatId, selected[i].price))
  }

  function LineIds(lines: seq<Line>): set<string> {
    set i | 0 <= i < |lines| :: lines[i].seatId
  }

  function FindByKey(bookings: seq<Booking>, key: string): Option<Booking> {
    if bookings == [] then None
    else if bookings[0].idempotencyKey == key then Some(bookings[0])
    else FindByKey(bookings[1..], key)
  }

  function FindById(bookings: seq<Booking>, id: nat): Option<Booking> {
    if bookings == [] then None
    else if bookings[0].bookingId == id then Some(bookings[0])
    else FindById(bookings[1..], id)
  }

  function SetStatus(bookings: seq<Booking>, id: nat, status: BookingStatus): seq<Booking> {
    seq(|bookings|, i requires 0 <= i < |bookings| =>
      if bookings[i].bookingId == id then bookings[i].(status := status) else bookings[i])
  }

  predicate Lapsed(b: Booking, at: int) {
    b.status == Pending && b.expiresAt < at
  }

  /** What the batch query may return: distinct lapsed pending bookings, at most a batch of them,
      and all of them when they are fewer. The order is the store's choice. */
  predicate LegalBatch(bookings: seq<Booking>, at: int, batch: seq<Booking>) {
    && |batch| <= BATCH_SIZE
    && (forall i :: 0 <= i < |batch| ==> batch[i] in bookings && Lapsed(batch[i], at))
    && (forall i, j :: 0 <= i < j < |batch| ==> batch[i].bookingId != batch[j].bookingId)
    && (|batch| < BATCH_SIZE ==> forall i :: 0 <= i < |bookings| && Lapsed(bookings[i], at) ==> bookings[i] in batch)
  }

  predicate LeaseLive(leases: map<string, Lease>, key: string, now: int) {
    key in leases && now < leases[key].expiresAt
  }

  // ---------------------------------------------------------------- processes

  datatype Request = Request(userId: string, showId: string, seatIds: seq<string>, idempotencyKey: string)

  datatype Error =
    | TooManySeats | LockConflict | ShowNotFound | ShowStarted | SeatsNotFound | SeatsUnavailable
    | ConcurrentUpdate | SaveFailed | BookingNotFound | Forbidden | InvalidStatus | CancelFailed | StoreFailure

  datatype Result =
    | Created(booking: Booking)
    | Replayed(booking: Booking)
    | CancelledBooking(booking: Booking)
    | Swept
    | Rejected(error: Error)

  /** What `createBooking` keeps once its checks have passed: the show it read and its `now`. */
  datatype Plan = Plan(snap: Show, at: int)

  /** A process between two store calls, named by the call it makes next. */
  datatype Proc =
    | Lookup(req: Request)
    | Acquire(req: Request)
    | Read(req: Request, lease: int)
    | Check(req: Request, lease: int, snap: Show)
    | Commit(req: Request, lease: int, plan: Plan)
    | Save(req: Request, lease: int, plan: Plan)
    | Unlock(req: Request, lease: int, result: Result)
    | CancelRead(bookingId: nat, userId: string)
    | CancelFlip(booking: Booking)
    | CancelRelease(booking: Booking)
    | ExpiryFind(at: int)
    | ExpiryFlip(at: int, batch: seq<Booking>)
    | ExpiryRelease(at: int, batch: seq<Booking>)
    | Done(result: Result)
    | Crashed

  /** A status flip away from pending, by an expiry worker or a cancel. */
  datatype Claim = Claim(bookingId: nat, who: nat)

  datatype State = State(cfg: Config, db: Db, procs: map<nat, Proc>, log: seq<Op>, claims: seq<Claim>)

  /** A process number stands for the fresh values its call draws: it is the lock token and the
      booking id. A disabled action leaves the state alone, so every action list is a run. */
  datatype Action =
    | Tick(ms: nat)
    | Deactivate
    | StartCreate(p: nat, req: Request)
    | StartCancel(p: nat, bookingId: nat, userId: string)
    | StartExpiry(p: nat)
    | Advance(p: nat)
    | FindBatch(p: nat, batch: seq<Booking>)
    | Fail(p: nat)
    | Crash(p: nat)

  function SetProc(s: State, p: nat, q: Proc): State {
    s.(procs := s.procs[p := q])
  }

  function SetDb(s: State, p: nat, db: Db, q: Proc): State {
    s.(db := db, procs := s.procs[p := q])
  }

  // ---------------------------------------------------------------- createBooking, call by call

  function LockKeyOf(req: Request): string {
    LockKey.Key(req.showId, req.seatIds)
  }

  function StepLookup(s: State, p: nat, req: Request): State {
    match FindByKey(s.db.bookings, req.idempotencyKey)
    case Some(b) => SetProc(s, p, Done(Replayed(b)))
    case None => SetProc(s, p, Acquire(req))
  }

  /** `SET key token NX EX ttl`. */
  function StepAcquire(s: State, p: nat, req: Request): State {
    var key, until := LockKeyOf(req), s.db.now + s.cfg.LeaseMs();
    if LeaseLive(s.db.leases, key, s.db.now) then SetProc(s, p, Done(Rejected(LockConflict)))
    else SetDb(s, p, s.db.(leases := s.db.leases[key := Lease(p, until)]), Read(req, until))
  }

  function StepRead(s: State, p: nat, req: Request, lease: int): State {
    if s.db.show.showId == req.showId && s.db.show.isActive
    then SetProc(s, p, Check(req, lease, s.db.show))
    else SetProc(s, p, Unlock(req, lease, Rejected(ShowNotFound)))
  }

  function Choose(req: Request, snap: Show): seq<Seat> {
    Selected(snap.seats, SetOf(req.seatIds))
  }

  /** The tests on the show read, at the clock value the call reads itself. */
  function CheckAt(req: Request, snap: Show, now: int): Option<Error> {
    if snap.showTime <= now then Some(ShowStarted)
    else if |Choose(req, snap)| != |req.seatIds| then Some(SeatsNotFound)
    else if |Unavailable(Choose(req, snap), now)| > 0 then Some(SeatsUnavailable)
    else None
  }

  function StepCheck(s: State, p: nat, req: Request, lease: int, snap: Show): State {
    match CheckAt(req, snap, s.db.now)
    case Some(e) => SetProc(s, p, Unlock(req, lease, Rejected(e)))
    case None => SetProc(s, p, Commit(req, lease, Plan(snap, s.db.now)))
  }

  /** The filter of the versioned update on the stored document. */
  predicate CommitFilter(show: Show, req: Request, plan: Plan) {
    && show.showId == req.showId
    && show.seatVersion == plan.snap.seatVersion
    && !AnyBlocked(show.seats, SetOf(req.seatIds), plan.at)
  }

  function StepCommit(s: State, p: nat, req: Request, lease: int, plan: Plan): State {
    var ids, until := SetOf(req.seatIds), plan.at + s.cfg.HoldMs();
    if CommitFilter(s.db.show, req, plan) then
      s.(db := s.db.(show := ReserveWrite(s.db.show, ids, |req.seatIds|, p, until)),
         procs := s.procs[p := Save(req, lease, plan)],
         log := s.log + [Reserve(p, ids, plan.at, until)])
    else SetProc(s, p, Unlock(req, lease, Rejected(ConcurrentUpdate)))
  }

  function NewBooking(cfg: Config, p: nat, req: Request, plan: Plan): Booking {
    var selected := Choose(req, plan.snap);
    Booking(p, req.userId, req.showId, LinesOf(selected), Pending, Total(selected), Fee(Subtotal(selected)),
            plan.at + cfg.HoldMs(), req.idempotencyKey)
  }

  /** The insert fails on the unique idempotency key and on an empty seat list. */
  function StepSave(s: State, p: nat, req: Request, lease: int, plan: Plan): State {
    var b := NewBooking(s.cfg, p, req, plan);
    if FindByKey(s.db.bookings, req.idempotencyKey).Some? || b.lines == []
    then SetProc(s, p, Unlock(req, lease, Rejected(SaveFailed)))
    else SetDb(s, p, s.db.(bookings := s.db.bookings + [b]), Unlock(req, lease, Created(b)))
  }

  /** The compare-and-delete script; an expired key reads as missing. */
  function StepUnlock(s: State, p: nat, req: Request, result: Result): State {
    var key := LockKeyOf(req);
    if LeaseLive(s.db.leases, key, s.db.now) && s.db.leases[key].token == p
    then SetDb(s, p, s.db.(leases := s.db.leases - {key}), Done(result))
    else SetProc(s, p, Done(result))
  }

  // ---------------------------------------------------------------- cancelBooking and the worker

  function StepCancelRead(s: State, p: nat, id: nat, userId: string): State {
    match FindById(s.db.bookings, id)
    case None => SetProc(s, p, Done(Rejected(BookingNotFound)))
    case Some(b) =>
      if b.userId != userId then SetProc(s, p, Done(Rejected(Forbidden)))
      else if b.status != Pending && b.status != PaymentProcessing then SetProc(s, p, Done(Rejected(InvalidStatus)))
      else SetProc(s, p, CancelFlip(b))
  }

  /** The cancelling update carries no status guard. */
  function StepCancelFlip(s: State, p: nat, b: Booking): State {
    if FindById(s.db.bookings, b.bookingId).None? then SetProc(s, p, Done(Rejected(CancelFailed)))
    else SetDb(s, p, s.db.(bookings := SetStatus(s.db.bookings, b.bookingId, Cancelled)), CancelRelease(b))
           .(claims := s.claims + [Claim(b.bookingId, p)])
  }

  function ReleaseSeats(s: State, p: nat, b: Booking, q: Proc): State {
    SetDb(s, p, s.db.(show := ReleaseWrite(s.db.show, LineIds(b.lines), |b.lines|)), q)
      .(log := s.log + [Release(b.bookingId, LineIds(b.lines))])
  }

  function StepCancelRelease(s: State, p: nat, b: Booking): State {
    ReleaseSeats(s, p, b, Done(CancelledBooking(b.(status := Cancelled))))
  }

  function StepFind(s: State, p: nat, at: int, batch: seq<Booking>): State {
    if LegalBatch(s.db.bookings, at, batch) then SetProc(s, p, ExpiryFlip(at, batch)) else s
  }

  /** The worker's flip is guarded by `status: "pending"`; a booking that fails the guard is skipped. */
  function StepExpiryFlip(s: State, p: nat, at: int, batch: seq<Booking>): State {
    if batch == [] then SetProc(s, p, Done(Swept))
    else
      var id := batch[0].bookingId;
      var found := FindById(s.db.bookings, id);
      if found.Some? && found.value.status == Pending
      then SetDb(s, p, s.db.(bookings := SetStatus(s.db.bookings, id, Expired)), ExpiryRelease(at, batch))
             .(claims := s.claims + [Claim(id, p)])
      else SetProc(s, p, ExpiryFlip(at, batch[1..]))
  }

  function StepExpiryRelease(s: State, p: nat, at: int, batch: seq<Booking>): State {
    if batch == [] then s else ReleaseSeats(s, p, batch[0], ExpiryFlip(at, batch[1..]))
  }

  // ---------------------------------------------------------------- steps and runs

  function Step(s: State, p: nat): State
    requires p in s.procs
  {
    match s.procs[p]
    case Lookup(req) => StepLookup(s, p, req)
    case Acquire(req) => StepAcquire(s, p, req)
    case Read(req, lease) => StepRead(s, p, req, lease)
    case Check(req, lease, snap) => StepCheck(s, p, req, lease, snap)
    case Commit(req, lease, plan) => StepCommit(s, p, req, lease, plan)
    case Save(req, lease, plan) => StepSave(s, p, req, lease, plan)
    case Unlock(req, lease, result) => StepUnlock(s, p, req, result)
    case CancelRead(id, userId) => StepCancelRead(s, p, id, userId)
    case CancelFlip(b) => StepCancelFlip(s, p, b)
    case CancelRelease(b) => StepCancelRelease(s, p, b)
    case ExpiryFind(_) => s
    case ExpiryFlip(at, batch) => StepExpiryFlip(s, p, at, batch)
    case ExpiryRelease(at, batch) => StepExpiryRelease(s, p, at, batch)
    case Done(_) => s
    case Crashed => s
  }

  /** The next store call throws. Inside `createBooking` the `finally` block still runs; the
      worker goes on to its next booking; a failing unlock leaves the lease to expire. */
  function AfterFailure(q: Proc): Proc {
    match q
    case Lookup(_) => Done(Rejected(StoreFailure))
    case Acquire(_) => Done(Rejected(StoreFailure))
    case Read(req, lease) => Unlock(req, lease, Rejected(StoreFailure))
    case Check(_, _, _) => q
    case Commit(req, lease, _) => Unlock(req, lease, Rejected(StoreFailure))
    case Save(req, lease, _) => Unlock(req, lease, Rejected(StoreFailure))
    case Unlock(_, _, _) => Done(Rejected(StoreFailure))
    case CancelRead(_, _) => Done(Rejected(StoreFailure))
    case CancelFlip(_) => Done(Rejected(StoreFailure))
    case CancelRelease(_) => Done(Rejected(StoreFailure))
    case ExpiryFind(_) => Done(Swept)
    case ExpiryFlip(at, batch) => if batch == [] then q else ExpiryFlip(at, batch[1..])
    case ExpiryRelease(at, batch) => if batch == [] then q else ExpiryFlip(at, batch[1..])
    case Done(_) => q
    case Crashed => q
  }

  function Do(s: State, a: Action): State {
    match a
    case Tick(ms) => s.(db := s.db.(now := s.db.now + ms))
    case Deactivate => s.(db := s.db.(show := s.db.show.(isActive := false)))
    case StartCreate(p, req) =>
      if p in s.procs then s
      else SetProc(s, p, if |req.seatIds| > MAX_SEATS_PER_BOOKING then Done(Rejected(TooManySeats)) else Lookup(req))
    case StartCancel(p, id, userId) => if p in s.procs then s else SetProc(s, p, CancelRead(id, userId))
    case StartExpiry(p) => if p in s.procs then s else SetProc(s, p, ExpiryFind(s.db.now))
    case Advance(p) => if p in s.procs then Step(s, p) else s
    case FindBatch(p, batch) => if p in s.procs && s.procs[p].ExpiryFind? then StepFind(s, p, s.procs[p].at, batch) else s
    case Fail(p) => if p in s.procs then SetProc(s, p, AfterFailure(s.procs[p])) else s
    case Crash(p) => if p in s.procs && !s.procs[p].Done? then SetProc(s, p, Crashed) else s
  }

  function Exec(s: State, acts: seq<Action>): State {
    if acts == [] then s else Do(Exec(s, acts[..|acts| - 1]), acts[|acts| - 1])
  }

  /** A freshly created show, no bookings, no leases, no processes. */
  ghost predicate Init(s: State) {
    && 1 <= s.cfg.holdMinutes <= 30
    && UniqueIds(s.cfg.first.seats)
    && Agrees(s.cfg.first)
    && s.cfg.first.totalSeats == |s.cfg.first.seats|
    && (forall i :: 0 <= i < |s.cfg.first.seats| ==> s.cfg.first.seats[i].status != Reserved)
    && s.db.show == s.cfg.first
    && s.db.bookings == [] && s.db.leases == map[] && s.procs == map[] && s.log == [] && s.claims == []
  }

  lemma {:induction false} ExecAppend(s: State, a: seq<Action>, b: seq<Action>)
    ensures Exec(s, a + b) == Exec(Exec(s, a), b)
  {
    if b == [] {
      assert a + b == a;
    } else {
      ExecAppend(s, a, b[..|b| - 1]);
      assert (a + b)[..|a + b| - 1] == a + b[..|b| - 1];
    }
  }
}
