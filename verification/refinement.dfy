/** Every run of the fine-grained machine is a run of the atomic machine: the log it leaves is a
    valid history and replaying it gives the stored show document. */
module Refinement {
  import opened Options
  import opened Seats
  import opened History
  import opened Protocol

  // ---------------------------------------------------------------- the invariant

  ghost predicate Logged(s: State, b: nat, ids: set<string>, at: int) {
    Reserve(b, ids, at, at + s.cfg.HoldMs()) in s.log
  }

  /** A show that was read is the replay of the log up to the version it carries. */
  ghost predicate SnapOk(s: State, snap: Show) {
    var m := snap.seatVersion - s.cfg.first.seatVersion;
    0 <= m <= |s.log| && snap == Replay(s.cfg.first, s.log[..m]).(isActive := snap.isActive)
  }

  predicate FewSeats(req: Request) { |req.seatIds| <= MAX_SEATS_PER_BOOKING }

  ghost predicate PlanOk(s: State, req: Request, plan: Plan) {
    && FewSeats(req)
    && SnapOk(s, plan.snap)
    && req.showId == s.cfg.first.showId
    && plan.at <= s.db.now
    && CheckAt(req, plan.snap, plan.at) == None
  }

  /** The stored booking with the static fields of `b`. */
  ghost predicate Known(s: State, b: Booking) {
    exists j :: 0 <= j < |s.db.bookings| && Same(s.db.bookings[j], b)
  }

  predicate Same(a: Booking, b: Booking) {
    a.(status := Pending) == b.(status := Pending)
  }

  ghost predicate Left(s: State, id: nat) {
    exists j :: 0 <= j < |s.db.bookings| && s.db.bookings[j].bookingId == id && s.db.bookings[j].status != Pending
  }

  ghost predicate ProcOk(s: State, p: nat, q: Proc) {
    match q
    case Lookup(req) => FewSeats(req)
    case Acquire(req) => FewSeats(req)
    case Read(req, _) => FewSeats(req)
    case Check(req, _, snap) => FewSeats(req) && SnapOk(s, snap) && req.showId == s.cfg.first.showId
    case Commit(req, _, plan) => PlanOk(s, req, plan)
    case Save(req, _, plan) => PlanOk(s, req, plan) && Logged(s, p, SetOf(req.seatIds), plan.at)
    case CancelFlip(b) => Known(s, b)
    case CancelRelease(b) => Known(s, b) && Left(s, b.bookingId)
    case ExpiryFlip(_, batch) => forall i :: 0 <= i < |batch| ==> Known(s, batch[i])
    case ExpiryRelease(_, batch) =>
      && batch != [] && Left(s, batch[0].bookingId)
      && (forall i :: 0 <= i < |batch| ==> Known(s, batch[i]))
    case _ => true
  }

  predicate AfterCommit(q: Proc) { q.Save? || q.Unlock? || q.Done? || q.Crashed? }

  predicate AfterSave(q: Proc) { q.Unlock? || q.Done? || q.Crashed? }

  ghost predicate BookingOk(s: State, b: Booking) {
    && Logged(s, b.bookingId, LineIds(b.lines), b.expiresAt - s.cfg.HoldMs())
    && |LineIds(b.lines)| == |b.lines|
    && 1 <= |b.lines| <= MAX_SEATS_PER_BOOKING
    && b.bookingId in s.procs && AfterSave(s.procs[b.bookingId])
    && b.status in {Pending, Cancelled, Expired}
  }

  ghost predicate LogOk(s: State) {
    forall k :: 0 <= k < |s.log| && s.log[k].Reserve? ==>
      && s.log[k].at <= s.db.now
      && s.log[k].bookingId in s.procs && AfterCommit(s.procs[s.log[k].bookingId])
  }

  ghost predicate BookingsOk(s: State) {
    && (forall j :: 0 <= j < |s.db.bookings| ==> BookingOk(s, s.db.bookings[j]))
    && (forall i, j :: 0 <= i < j < |s.db.bookings| ==> s.db.bookings[i].bookingId != s.db.bookings[j].bookingId)
    && (forall i, j :: 0 <= i < j < |s.db.bookings| ==> s.db.bookings[i].idempotencyKey != s.db.bookings[j].idempotencyKey)
  }

  ghost predicate ShowOk(s: State) {
    && UniqueIds(s.cfg.first.seats)
    && s.db.show == Replay(s.cfg.first, s.log).(isActive := s.db.show.isActive)
    && Valid(s.cfg.first, s.cfg.HoldMs(), s.log)
  }

  ghost predicate ProcsOk(s: State) {
    forall p :: p in s.procs ==> ProcOk(s, p, s.procs[p])
  }

  ghost predicate Inv(s: State) {
    ShowOk(s) && LogOk(s) && BookingsOk(s) && ProcsOk(s)
  }

  // ---------------------------------------------------------------- what steps may change

  ghost predicate Extends(s: State, t: State) {
    && t.cfg == s.cfg && s.log <= t.log && s.db.now <= t.db.now
    && |s.db.bookings| <= |t.db.bookings|
    && (forall j :: 0 <= j < |s.db.bookings| ==>
          && Same(t.db.bookings[j], s.db.bookings[j])
          && (s.db.bookings[j].status != Pending ==> t.db.bookings[j].status != Pending))
  }

  lemma KnownExtends(s: State, t: State, b: Booking)
    requires Extends(s, t) && Known(s, b)
    ensures Known(t, b)
  {
    var j :| 0 <= j < |s.db.bookings| && Same(s.db.bookings[j], b);
    assert Same(t.db.bookings[j], b);
  }

  lemma LeftExtends(s: State, t: State, id: nat)
    requires Extends(s, t) && Left(s, id)
    ensures Left(t, id)
  {
    var j :| 0 <= j < |s.db.bookings| && s.db.bookings[j].bookingId == id && s.db.bookings[j].status != Pending;
    assert t.db.bookings[j].(status := Pending).bookingId == id;
  }

  lemma SnapExtends(s: State, t: State, snap: Show)
    requires Extends(s, t) && SnapOk(s, snap)
    ensures SnapOk(t, snap)
  {
    var m := snap.seatVersion - s.cfg.first.seatVersion;
    assert t.log[..m] == s.log[..m];
  }

  lemma ProcExtends(s: State, t: State, p: nat, q: Proc)
    requires Extends(s, t) && ProcOk(s, p, q)
    ensures ProcOk(t, p, q)
  {
    match q
    case Check(req, _, snap) => SnapExtends(s, t, snap);
    case Commit(req, _, plan) => SnapExtends(s, t, plan.snap);
    case Save(req, _, plan) => SnapExtends(s, t, plan.snap);
    case CancelFlip(b) => KnownExtends(s, t, b);
    case CancelRelease(b) => KnownExtends(s, t, b); LeftExtends(s, t, b.bookingId);
    case ExpiryFlip(_, batch) =>
      forall i | 0 <= i < |batch| ensures Known(t, batch[i]) { KnownExtends(s, t, batch[i]); }
    case ExpiryRelease(_, batch) =>
      forall i | 0 <= i < |batch| ensures Known(t, batch[i]) { KnownExtends(s, t, batch[i]); }
      LeftExtends(s, t, batch[0].bookingId);
    case _ =>
  }

  /** Process `p` moved to `q` and nobody else moved. */
  ghost predicate Moves(s: State, t: State, p: nat, q: Proc) {
    && t.procs == s.procs[p := q]
    && (p in s.procs && AfterCommit(s.procs[p]) ==> AfterCommit(q))
    && (p in s.procs && AfterSave(s.procs[p]) ==> AfterSave(q))
  }

  lemma ProcsKeep(s: State, t: State, p: nat, q: Proc)
    requires Inv(s) && Extends(s, t) && Moves(s, t, p, q) && ProcOk(t, p, q)
    ensures ProcsOk(t)
  {
    forall x | x in t.procs ensures ProcOk(t, x, t.procs[x]) {
      if x != p { ProcExtends(s, t, x, s.procs[x]); }
    }
  }

  lemma BookingExtends(s: State, t: State, p: nat, q: Proc, b: Booking, c: Booking)
    requires Extends(s, t) && Moves(s, t, p, q) && BookingOk(s, b)
    requires Same(c, b) && c.status in {Pending, Cancelled, Expired}
    ensures BookingOk(t, c)
  {
    assert c.lines == b.lines && c.bookingId == b.bookingId && c.expiresAt == b.expiresAt by {
      assert c.(status := Pending).lines == b.(status := Pending).lines;
      assert c.(status := Pending).bookingId == b.(status := Pending).bookingId;
      assert c.(status := Pending).expiresAt == b.(status := Pending).expiresAt;
    }
  }

  // ---------------------------------------------------------------- the kinds of step

  /** Only `p`, the leases, the clock or `isActive` changed. */
  lemma QuietKeeps(s: State, t: State, p: nat, q: Proc)
    requires Inv(s) && Moves(s, t, p, q) && ProcOk(t, p, q)
    requires t.cfg == s.cfg && t.log == s.log && t.db.bookings == s.db.bookings && t.db.now >= s.db.now
    requires t.db.show == s.db.show
    ensures Inv(t)
  {
    ProcsKeep(s, t, p, q);
    forall j | 0 <= j < |t.db.bookings| ensures BookingOk(t, t.db.bookings[j]) {
      BookingExtends(s, t, p, q, s.db.bookings[j], s.db.bookings[j]);
    }
  }

  /** Only the clock or `isActive` changed. */
  lemma IdleKeeps(s: State, t: State)
    requires Inv(s) && t.procs == s.procs && t.cfg == s.cfg && t.log == s.log
    requires t.db.bookings == s.db.bookings && t.db.now >= s.db.now
    requires t.db.show == s.db.show.(isActive := t.db.show.isActive)
    ensures Inv(t)
  {
    assert ProcsOk(t) by {
      forall x | x in t.procs ensures ProcOk(t, x, t.procs[x]) { ProcExtends(s, t, x, s.procs[x]); }
    }
    assert BookingsOk(t) by {
      forall j | 0 <= j < |t.db.bookings| ensures BookingOk(t, t.db.bookings[j]) { assert BookingOk(s, s.db.bookings[j]); }
    }
  }

  lemma WriteShowOk(s: State, t: State, op: Op)
    requires ShowOk(s) && t.cfg == s.cfg && t.log == s.log + [op] && t.db.show == Put(s.db.show, op)
    requires OpOk(Replay(s.cfg.first, s.log), s.cfg.HoldMs(), s.log, op)
    ensures ShowOk(t)
  {
    Extend(s.cfg.first, s.cfg.HoldMs(), s.log, op);
  }

  lemma WriteLogOk(s: State, t: State, p: nat, q: Proc, op: Op)
    requires LogOk(s) && Moves(s, t, p, q) && t.log == s.log + [op] && t.db.now == s.db.now
    requires op.Reserve? ==> op.bookingId == p && op.at <= s.db.now && AfterCommit(q)
    ensures LogOk(t)
  {
  }

  /** A seat write: the log grew by one admissible operation. */
  lemma WriteKeeps(s: State, t: State, p: nat, q: Proc, op: Op)
    requires Inv(s) && Moves(s, t, p, q) && ProcOk(t, p, q)
    requires t.cfg == s.cfg && t.log == s.log + [op] && t.db.bookings == s.db.bookings && t.db.now == s.db.now
    requires t.db.show == Put(s.db.show, op)
    requires OpOk(Replay(s.cfg.first, s.log), s.cfg.HoldMs(), s.log, op)
    requires op.Reserve? ==> op.bookingId == p && op.at <= s.db.now && AfterCommit(q)
    ensures Inv(t)
  {
    assert ShowOk(t) by { WriteShowOk(s, t, op); }
    assert LogOk(t) by { WriteLogOk(s, t, p, q, op); }
    ProcsKeep(s, t, p, q);
    forall j | 0 <= j < |t.db.bookings| ensures BookingOk(t, t.db.bookings[j]) {
      BookingExtends(s, t, p, q, s.db.bookings[j], s.db.bookings[j]);
    }
  }

  /** A status flip. */
  lemma FlipKeeps(s: State, t: State, p: nat, q: Proc, id: nat, status: BookingStatus)
    requires Inv(s) && Moves(s, t, p, q) && ProcOk(t, p, q) && status in {Cancelled, Expired}
    requires t.cfg == s.cfg && t.log == s.log && t.db.now == s.db.now && t.db.show == s.db.show
    requires t.db.bookings == SetStatus(s.db.bookings, id, status)
    ensures Inv(t)
  {
    ProcsKeep(s, t, p, q);
    assert BookingsOk(t) by { FlipBookingsOk(s, t, p, q, id, status); }
  }

  lemma FlipBookingsOk(s: State, t: State, p: nat, q: Proc, id: nat, status: BookingStatus)
    requires BookingsOk(s) && Moves(s, t, p, q) && status in {Cancelled, Expired}
    requires t.cfg == s.cfg && t.log == s.log && t.db.now == s.db.now
    requires t.db.bookings == SetStatus(s.db.bookings, id, status)
    ensures BookingsOk(t)
  {
    forall j | 0 <= j < |t.db.bookings| ensures BookingOk(t, t.db.bookings[j]) {
      assert BookingOk(s, s.db.bookings[j]);
      BookingExtends(s, t, p, q, s.db.bookings[j], t.db.bookings[j]);
    }
  }

  // ---------------------------------------------------------------- lookups

  lemma {:induction false} FindByIdSound(bookings: seq<Booking>, id: nat)
    ensures var r := FindById(bookings, id);
            if r.Some? then r.value.bookingId == id && r.value in bookings
            else forall j :: 0 <= j < |bookings| ==> bookings[j].bookingId != id
  {
    if bookings != [] { FindByIdSound(bookings[1..], id); }
  }

  lemma {:induction false} FindByKeySound(bookings: seq<Booking>, key: string)
    ensures var r := FindByKey(bookings, key);
            if r.Some? then r.value.idempotencyKey == key && r.value in bookings
            else forall j :: 0 <= j < |bookings| ==> bookings[j].idempotencyKey != key
  {
    if bookings != [] { FindByKeySound(bookings[1..], key); }
  }

  lemma LineIdsOf(selected: seq<Seat>)
    ensures LineIds(LinesOf(selected)) == IdsOf(selected)
  {
    var lines := LinesOf(selected);
    assert forall i :: 0 <= i < |selected| ==> lines[i].seatId == selected[i].seatId;
    forall x ensures x in LineIds(lines) <==> x in IdsOf(selected) {
      if x in LineIds(lines) {
        var i :| 0 <= i < |lines| && lines[i].seatId == x;
        assert selected[i].seatId == x;
      }
      if x in IdsOf(selected) {
        var i :| 0 <= i < |selected| && selected[i].seatId == x;
        assert lines[i].seatId == x;
      }
    }
  }

  /** What a call that passed its checks knows about its seat list. */
  lemma PlanFacts(s: State, req: Request, plan: Plan)
    requires UniqueIds(s.cfg.first.seats) && PlanOk(s, req, plan)
    ensures SetOf(req.seatIds) <= IdsOf(s.cfg.first.seats)
    ensures |SetOf(req.seatIds)| == |req.seatIds|
    ensures LineIds(LinesOf(Choose(req, plan.snap))) == SetOf(req.seatIds)
    ensures |Choose(req, plan.snap)| == |req.seatIds|
    ensures !AnyBlocked(plan.snap.seats, SetOf(req.seatIds), plan.at)
  {
    var m := plan.snap.seatVersion - s.cfg.first.seatVersion;
    ReplayFrame(s.cfg.first, s.log[..m]);
    LengthTestIsFullCheck(plan.snap.seats, req.seatIds);
    LineIdsOf(Choose(req, plan.snap));
    ChecksAgree(plan.snap.seats, SetOf(req.seatIds), plan.at);
  }

  // ---------------------------------------------------------------- one lemma per call

  /** `p` moves on without touching the show document or the bookings. */
  lemma LocalKeeps(s: State, p: nat, q: Proc, leases: map<string, Lease>)
    requires Inv(s) && ProcOk(s, p, q)
    requires p in s.procs && AfterCommit(s.procs[p]) ==> AfterCommit(q)
    requires p in s.procs && AfterSave(s.procs[p]) ==> AfterSave(q)
    ensures Inv(SetDb(s, p, s.db.(leases := leases), q))
    ensures SetProc(s, p, q) == SetDb(s, p, s.db.(leases := s.db.leases), q)
  {
    var t := SetDb(s, p, s.db.(leases := leases), q);
    ProcExtends(s, t, p, q);
    QuietKeeps(s, t, p, q);
  }

  lemma MoveKeeps(s: State, p: nat, q: Proc)
    requires Inv(s) && ProcOk(s, p, q)
    requires p in s.procs && AfterCommit(s.procs[p]) ==> AfterCommit(q)
    requires p in s.procs && AfterSave(s.procs[p]) ==> AfterSave(q)
    ensures Inv(SetProc(s, p, q))
  {
    LocalKeeps(s, p, q, s.db.leases);
  }

  lemma ReadKeeps(s: State, p: nat, req: Request, lease: int)
    requires Inv(s) && p in s.procs && s.procs[p] == Read(req, lease)
    ensures Inv(StepRead(s, p, req, lease))
  {
    ReplayFrame(s.cfg.first, s.log);
    assert s.log[..|s.log|] == s.log;
    MoveKeeps(s, p, StepRead(s, p, req, lease).procs[p]);
  }

  lemma CheckKeeps(s: State, p: nat, req: Request, lease: int, snap: Show)
    requires Inv(s) && p in s.procs && s.procs[p] == Check(req, lease, snap)
    ensures Inv(StepCheck(s, p, req, lease, snap))
  {
    MoveKeeps(s, p, StepCheck(s, p, req, lease, snap).procs[p]);
  }

  /** A commit that passes its filter is an admissible reservation of the atomic machine. */
  lemma CommitOpOk(s: State, p: nat, req: Request, lease: int, plan: Plan)
    requires Inv(s) && p in s.procs && s.procs[p] == Commit(req, lease, plan)
    requires CommitFilter(s.db.show, req, plan)
    ensures OpOk(Replay(s.cfg.first, s.log), s.cfg.HoldMs(), s.log,
                 Reserve(p, SetOf(req.seatIds), plan.at, plan.at + s.cfg.HoldMs()))
  {
    PlanFacts(s, req, plan);
    ReplayFrame(s.cfg.first, s.log);
  }

  lemma CommitPlan(s: State, t: State, p: nat, req: Request, lease: int, plan: Plan)
    requires PlanOk(s, req, plan) && Extends(s, t)
    requires Reserve(p, SetOf(req.seatIds), plan.at, plan.at + s.cfg.HoldMs()) in t.log
    ensures ProcOk(t, p, Save(req, lease, plan))
  {
    SnapExtends(s, t, plan.snap);
  }

  lemma CommitWritesOp(s: State, p: nat, req: Request, lease: int, plan: Plan, op: Op)
    requires CommitFilter(s.db.show, req, plan) && |SetOf(req.seatIds)| == |req.seatIds|
    requires op == Reserve(p, SetOf(req.seatIds), plan.at, plan.at + s.cfg.HoldMs())
    ensures var t := StepCommit(s, p, req, lease, plan);
            && t.cfg == s.cfg && t.procs == s.procs[p := Save(req, lease, plan)] && t.log == s.log + [op]
            && t.db.show == Put(s.db.show, op) && t.db.bookings == s.db.bookings && t.db.now == s.db.now
  {
  }

  lemma CommitSucceeds(s: State, p: nat, req: Request, lease: int, plan: Plan)
    requires Inv(s) && p in s.procs && s.procs[p] == Commit(req, lease, plan)
    requires CommitFilter(s.db.show, req, plan)
    ensures Inv(StepCommit(s, p, req, lease, plan))
  {
    var t, q := StepCommit(s, p, req, lease, plan), Save(req, lease, plan);
    var op := Reserve(p, SetOf(req.seatIds), plan.at, plan.at + s.cfg.HoldMs());
    CommitOpOk(s, p, req, lease, plan);
    assert |SetOf(req.seatIds)| == |req.seatIds| by { PlanFacts(s, req, plan); }
    CommitWritesOp(s, p, req, lease, plan, op);
    assert t.log[|s.log|] == op;
    CommitPlan(s, t, p, req, lease, plan);
    WriteKeeps(s, t, p, q, op);
  }

  lemma CommitKeeps(s: State, p: nat, req: Request, lease: int, plan: Plan)
    requires Inv(s) && p in s.procs && s.procs[p] == Commit(req, lease, plan)
    ensures Inv(StepCommit(s, p, req, lease, plan))
  {
    if CommitFilter(s.db.show, req, plan) {
      CommitSucceeds(s, p, req, lease, plan);
    } else {
      MoveKeeps(s, p, Unlock(req, lease, Rejected(ConcurrentUpdate)));
    }
  }

  lemma SavedBookingOk(s: State, t: State, p: nat, req: Request, lease: int, plan: Plan)
    requires Inv(s) && p in s.procs && s.procs[p] == Save(req, lease, plan)
    requires Extends(s, t) && p in t.procs && AfterSave(t.procs[p])
    requires NewBooking(s.cfg, p, req, plan).lines != []
    ensures BookingOk(t, NewBooking(s.cfg, p, req, plan))
  {
    assert ProcOk(s, p, s.procs[p]);
    PlanFacts(s, req, plan);
  }

  /** The new document joins the collection. */
  lemma AppendKeeps(s: State, t: State, p: nat, q: Proc, b: Booking)
    requires Inv(s) && Moves(s, t, p, q) && ProcOk(t, p, q)
    requires t.cfg == s.cfg && t.log == s.log && t.db.now == s.db.now && t.db.show == s.db.show
    requires t.db.bookings == s.db.bookings + [b] && BookingOk(t, b)
    requires forall j :: 0 <= j < |s.db.bookings| ==>
               s.db.bookings[j].bookingId != b.bookingId && s.db.bookings[j].idempotencyKey != b.idempotencyKey
    ensures Inv(t)
  {
    ProcsKeep(s, t, p, q);
    assert BookingsOk(t) by { AppendBookingsOk(s, t, p, q, b); }
  }

  lemma AppendBookingsOk(s: State, t: State, p: nat, q: Proc, b: Booking)
    requires BookingsOk(s) && Extends(s, t) && Moves(s, t, p, q)
    requires t.db.bookings == s.db.bookings + [b] && BookingOk(t, b)
    requires forall j :: 0 <= j < |s.db.bookings| ==>
               s.db.bookings[j].bookingId != b.bookingId && s.db.bookings[j].idempotencyKey != b.idempotencyKey
    ensures BookingsOk(t)
  {
    forall j | 0 <= j < |t.db.bookings| ensures BookingOk(t, t.db.bookings[j]) {
      if j < |s.db.bookings| { BookingExtends(s, t, p, q, s.db.bookings[j], s.db.bookings[j]); }
    }
  }

  lemma SaveSucceeds(s: State, p: nat, req: Request, lease: int, plan: Plan)
    requires Inv(s) && p in s.procs && s.procs[p] == Save(req, lease, plan)
    requires FindByKey(s.db.bookings, req.idempotencyKey).None? && NewBooking(s.cfg, p, req, plan).lines != []
    ensures Inv(StepSave(s, p, req, lease, plan))
  {
    var t, b := StepSave(s, p, req, lease, plan), NewBooking(s.cfg, p, req, plan);
    FindByKeySound(s.db.bookings, req.idempotencyKey);
    SavedBookingOk(s, t, p, req, lease, plan);
    AppendKeeps(s, t, p, Unlock(req, lease, Created(b)), b);
  }

  lemma SaveKeeps(s: State, p: nat, req: Request, lease: int, plan: Plan)
    requires Inv(s) && p in s.procs && s.procs[p] == Save(req, lease, plan)
    ensures Inv(StepSave(s, p, req, lease, plan))
  {
    if FindByKey(s.db.bookings, req.idempotencyKey).Some? || NewBooking(s.cfg, p, req, plan).lines == [] {
      MoveKeeps(s, p, Unlock(req, lease, Rejected(SaveFailed)));
    } else {
      SaveSucceeds(s, p, req, lease, plan);
    }
  }

  lemma KnownIsFound(s: State, b: Booking)
    requires Known(s, b)
    ensures FindById(s.db.bookings, b.bookingId).Some?
  {
    FindByIdSound(s.db.bookings, b.bookingId);
    var j :| 0 <= j < |s.db.bookings| && Same(s.db.bookings[j], b);
    assert s.db.bookings[j].(status := Pending).bookingId == b.(status := Pending).bookingId;
  }

  lemma FlippedIsLeft(s: State, t: State, id: nat, status: BookingStatus)
    requires FindById(s.db.bookings, id).Some? && status != Pending
    requires t.db.bookings == SetStatus(s.db.bookings, id, status)
    ensures Left(t, id)
  {
    FindByIdSound(s.db.bookings, id);
    var b := FindById(s.db.bookings, id).value;
    var j :| 0 <= j < |s.db.bookings| && s.db.bookings[j] == b;
    assert t.db.bookings[j].bookingId == id && t.db.bookings[j].status != Pending;
  }

  /** What a flip leaves: everything but one status, and the process at its release. */
  ghost predicate Flipped(s: State, t: State, p: nat, q: Proc, id: nat, status: BookingStatus) {
    && t.cfg == s.cfg && t.log == s.log && t.db.now == s.db.now && t.db.show == s.db.show
    && t.db.bookings == SetStatus(s.db.bookings, id, status) && t.procs == s.procs[p := q]
  }

  lemma FlipExtends(s: State, t: State, p: nat, q: Proc, id: nat, status: BookingStatus)
    requires Flipped(s, t, p, q, id, status) && status != Pending
    ensures Extends(s, t)
  {
  }

  lemma CancelFlipShape(s: State, p: nat, b: Booking)
    requires FindById(s.db.bookings, b.bookingId).Some?
    ensures Flipped(s, StepCancelFlip(s, p, b), p, CancelRelease(b), b.bookingId, Cancelled)
  {
  }

  lemma CancelFlipKeeps(s: State, p: nat, b: Booking)
    requires Inv(s) && p in s.procs && s.procs[p] == CancelFlip(b)
    ensures Inv(StepCancelFlip(s, p, b))
  {
    var t := StepCancelFlip(s, p, b);
    assert ProcOk(s, p, s.procs[p]);
    KnownIsFound(s, b);
    CancelFlipShape(s, p, b);
    assert ProcOk(t, p, CancelRelease(b)) by {
      FlipExtends(s, t, p, CancelRelease(b), b.bookingId, Cancelled);
      FlippedIsLeft(s, t, b.bookingId, Cancelled);
      KnownExtends(s, t, b);
    }
    FlipKeeps(s, t, p, CancelRelease(b), b.bookingId, Cancelled);
  }

  lemma SameFields(a: Booking, b: Booking)
    requires Same(a, b)
    ensures a.bookingId == b.bookingId && a.lines == b.lines && a.expiresAt == b.expiresAt
    ensures a.idempotencyKey == b.idempotencyKey && a.userId == b.userId
    ensures a.totalAmount == b.totalAmount && a.convenienceFee == b.convenienceFee
  {
    var x, y := a.(status := Pending), b.(status := Pending);
    assert x.bookingId == y.bookingId && x.lines == y.lines && x.expiresAt == y.expiresAt;
    assert x.idempotencyKey == y.idempotencyKey && x.userId == y.userId;
    assert x.totalAmount == y.totalAmount && x.convenienceFee == y.convenienceFee;
  }

  /** A release always names the exact seats of an earlier reservation. */
  lemma ReleaseOpOk(s: State, b: Booking)
    requires Inv(s) && Known(s, b)
    ensures OpOk(Replay(s.cfg.first, s.log), s.cfg.HoldMs(), s.log, Release(b.bookingId, LineIds(b.lines)))
    ensures |LineIds(b.lines)| == |b.lines|
  {
    var j :| 0 <= j < |s.db.bookings| && Same(s.db.bookings[j], b);
    var c := s.db.bookings[j];
    assert BookingOk(s, c);
    SameFields(c, b);
    var k :| 0 <= k < |s.log| && s.log[k] == Reserve(c.bookingId, LineIds(c.lines), c.expiresAt - s.cfg.HoldMs(), c.expiresAt);
    ValidPrefix(s.cfg.first, s.cfg.HoldMs(), s.log, k);
    ReplayFrame(s.cfg.first, s.log[..k]);
    ReplayFrame(s.cfg.first, s.log);
  }

  lemma ReleaseKeeps(s: State, p: nat, b: Booking, q: Proc)
    requires Inv(s) && p in s.procs && !AfterCommit(s.procs[p]) && Known(s, b)
    requires ProcOk(s, p, q)
    ensures Inv(ReleaseSeats(s, p, b, q))
  {
    var t, op := ReleaseSeats(s, p, b, q), Release(b.bookingId, LineIds(b.lines));
    ReleaseOpOk(s, b);
    ProcExtends(s, t, p, q);
    WriteKeeps(s, t, p, q, op);
  }

  lemma StoredIsKnown(s: State, b: Booking)
    requires b in s.db.bookings
    ensures Known(s, b)
  {
    var j :| 0 <= j < |s.db.bookings| && s.db.bookings[j] == b;
    assert Same(s.db.bookings[j], b);
  }

  lemma CancelReadTarget(s: State, p: nat, id: nat, userId: string) returns (q: Proc)
    ensures StepCancelRead(s, p, id, userId) == SetProc(s, p, q)
    ensures q.Done? || (q.CancelFlip? && Known(s, q.booking))
  {
    q := StepCancelRead(s, p, id, userId).procs[p];
    FindByIdSound(s.db.bookings, id);
    if q.CancelFlip? { StoredIsKnown(s, q.booking); }
  }

  lemma CancelReadKeeps(s: State, p: nat, id: nat, userId: string)
    requires Inv(s) && p in s.procs && s.procs[p] == CancelRead(id, userId)
    ensures Inv(StepCancelRead(s, p, id, userId))
  {
    var q := CancelReadTarget(s, p, id, userId);
    MoveKeeps(s, p, q);
  }

  lemma ExpiryFlipSucceeds(s: State, p: nat, at: int, batch: seq<Booking>)
    requires Inv(s) && p in s.procs && s.procs[p] == ExpiryFlip(at, batch) && batch != []
    requires FindById(s.db.bookings, batch[0].bookingId).Some?
    requires FindById(s.db.bookings, batch[0].bookingId).value.status == Pending
    ensures Inv(StepExpiryFlip(s, p, at, batch))
  {
    var t, id := StepExpiryFlip(s, p, at, batch), batch[0].bookingId;
    assert Flipped(s, t, p, ExpiryRelease(at, batch), id, Expired);
    FlipExtends(s, t, p, ExpiryRelease(at, batch), id, Expired);
    assert ProcOk(t, p, ExpiryRelease(at, batch)) by {
      FlippedIsLeft(s, t, id, Expired);
      ProcExtends(s, t, p, s.procs[p]);
    }
    FlipKeeps(s, t, p, ExpiryRelease(at, batch), id, Expired);
  }

  lemma ExpiryFlipKeeps(s: State, p: nat, at: int, batch: seq<Booking>)
    requires Inv(s) && p in s.procs && s.procs[p] == ExpiryFlip(at, batch)
    ensures Inv(StepExpiryFlip(s, p, at, batch))
  {
    if batch == [] {
      MoveKeeps(s, p, Done(Swept));
    } else {
      KnownIsFound(s, batch[0]);
      if FindById(s.db.bookings, batch[0].bookingId).value.status == Pending {
        ExpiryFlipSucceeds(s, p, at, batch);
      } else {
        MoveKeeps(s, p, ExpiryFlip(at, batch[1..]));
      }
    }
  }

  lemma FindKeeps(s: State, p: nat, at: int, batch: seq<Booking>)
    requires Inv(s) && p in s.procs && s.procs[p] == ExpiryFind(at)
    ensures Inv(StepFind(s, p, at, batch))
  {
    if LegalBatch(s.db.bookings, at, batch) {
      forall i | 0 <= i < |batch| ensures Known(s, batch[i]) { StoredIsKnown(s, batch[i]); }
      MoveKeeps(s, p, ExpiryFlip(at, batch));
    }
  }

  lemma LockStepKeeps(s: State, p: nat)
    requires Inv(s) && p in s.procs && (s.procs[p].Lookup? || s.procs[p].Acquire? || s.procs[p].Unlock?)
    ensures Inv(Step(s, p))
  {
    assert ProcOk(s, p, s.procs[p]);
    LocalKeeps(s, p, Step(s, p).procs[p], Step(s, p).db.leases);
  }

  lemma CreateStepKeeps(s: State, p: nat)
    requires Inv(s) && p in s.procs
    requires s.procs[p].Read? || s.procs[p].Check? || s.procs[p].Commit? || s.procs[p].Save?
    ensures Inv(Step(s, p))
  {
    match s.procs[p]
    case Read(req, lease) => ReadKeeps(s, p, req, lease);
    case Check(req, lease, snap) => CheckKeeps(s, p, req, lease, snap);
    case Commit(req, lease, plan) => CommitKeeps(s, p, req, lease, plan);
    case Save(req, lease, plan) => SaveKeeps(s, p, req, lease, plan);
  }

  lemma ReleaseStepKeeps(s: State, p: nat)
    requires Inv(s) && p in s.procs && (s.procs[p].CancelRelease? || s.procs[p].ExpiryRelease?)
    ensures Inv(Step(s, p))
  {
    assert ProcOk(s, p, s.procs[p]);
    match s.procs[p]
    case CancelRelease(b) => ReleaseKeeps(s, p, b, Done(CancelledBooking(b.(status := Cancelled))));
    case ExpiryRelease(at, batch) => ReleaseKeeps(s, p, batch[0], ExpiryFlip(at, batch[1..]));
  }

  lemma StepKeeps(s: State, p: nat)
    requires Inv(s) && p in s.procs
    ensures Inv(Step(s, p))
  {
    match s.procs[p]
    case Lookup(_) => LockStepKeeps(s, p);
    case Acquire(_) => LockStepKeeps(s, p);
    case Unlock(_, _, _) => LockStepKeeps(s, p);
    case CancelRead(id, userId) => CancelReadKeeps(s, p, id, userId);
    case CancelFlip(b) => CancelFlipKeeps(s, p, b);
    case CancelRelease(_) => ReleaseStepKeeps(s, p);
    case ExpiryFlip(at, batch) => ExpiryFlipKeeps(s, p, at, batch);
    case ExpiryRelease(_, _) => ReleaseStepKeeps(s, p);
    case ExpiryFind(_) =>
    case Done(_) =>
    case Crashed =>
    case _ => CreateStepKeeps(s, p);
  }

  lemma StartKeeps(s: State, a: Action)
    requires Inv(s) && (a.StartCreate? || a.StartCancel? || a.StartExpiry?)
    ensures Inv(Do(s, a))
  {
    if a.p !in s.procs { MoveKeeps(s, a.p, Do(s, a).procs[a.p]); }
  }

  lemma FailKeeps(s: State, p: nat)
    requires Inv(s) && p in s.procs
    ensures Inv(SetProc(s, p, AfterFailure(s.procs[p])))
  {
    var q := s.procs[p];
    assert ProcOk(s, p, AfterFailure(q)) by { assert ProcOk(s, p, q); }
    MoveKeeps(s, p, AfterFailure(q));
  }

  lemma DoKeeps(s: State, a: Action)
    requires Inv(s)
    ensures Inv(Do(s, a))
  {
    match a
    case Tick(_) => IdleKeeps(s, Do(s, a));
    case Deactivate => IdleKeeps(s, Do(s, a));
    case StartCreate(_, _) => StartKeeps(s, a);
    case StartCancel(_, _, _) => StartKeeps(s, a);
    case StartExpiry(_) => StartKeeps(s, a);
    case Advance(p) => if p in s.procs { StepKeeps(s, p); }
    case FindBatch(p, batch) => if p in s.procs && s.procs[p].ExpiryFind? { FindKeeps(s, p, s.procs[p].at, batch); }
    case Fail(p) => if p in s.procs { FailKeeps(s, p); }
    case Crash(p) => if p in s.procs && !s.procs[p].Done? { MoveKeeps(s, p, Crashed); }
  }

  /** Every reachable state satisfies the invariant. */
  lemma {:induction false} InvAlways(s: State, acts: seq<Action>)
    requires Init(s)
    ensures Inv(Exec(s, acts))
  {
    if acts != [] {
      InvAlways(s, acts[..|acts| - 1]);
      DoKeeps(Exec(s, acts[..|acts| - 1]), acts[|acts| - 1]);
    }
  }
}
