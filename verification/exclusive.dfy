/** Exclusive hold: when do pending, unlapsed bookings never share a seat? */
module Exclusive {
  import opened Options
  import opened Seats
  import opened History
  import opened Protocol
  import opened Refinement

  /** `b` holds `ids` until a time still to come: as a pending booking, or as a committed call
      about to save one under a key that is still free. */
  ghost predicate LiveHold(s: State, b: nat, ids: set<string>, until: int) {
    && until > s.db.now
    && (|| (exists j :: 0 <= j < |s.db.bookings| && PendingAs(s.db.bookings[j], b, ids, until))
        || (b in s.procs && s.procs[b].Save? && SetOf(s.procs[b].req.seatIds) == ids
            && s.procs[b].plan.at + s.cfg.HoldMs() == until
            && FindByKey(s.db.bookings, s.procs[b].req.idempotencyKey).None?))
  }

  predicate PendingAs(c: Booking, b: nat, ids: set<string>, until: int) {
    c.bookingId == b && c.status == Pending && LineIds(c.lines) == ids && c.expiresAt == until
  }

  predicate Owned(seat: Seat, b: nat, until: int) {
    seat.status == Reserved && seat.reservedBy == Some(b) && seat.reservedUntil == Some(until)
  }

  /** Every live hold is what the seat map shows for each of its seats. */
  ghost predicate HoldsOwn(s: State) {
    forall b, ids, until, i {:trigger LiveHold(s, b, ids, until), s.db.show.seats[i]} ::
      LiveHold(s, b, ids, until) && 0 <= i < |s.db.show.seats| && s.db.show.seats[i].seatId in ids ==>
        Owned(s.db.show.seats[i], b, until)
  }

  /** Pending, unlapsed bookings have pairwise disjoint seats. */
  ghost predicate ExclusiveHold(s: State) {
    forall i, j {:trigger s.db.bookings[i], s.db.bookings[j]} ::
      0 <= i < j < |s.db.bookings|
      && s.db.bookings[i].status == Pending && s.db.bookings[i].expiresAt > s.db.now
      && s.db.bookings[j].status == Pending && s.db.bookings[j].expiresAt > s.db.now ==>
        LineIds(s.db.bookings[i].lines) !! LineIds(s.db.bookings[j].lines)
  }

  function Releasing(q: Proc): Option<Booking> {
    match q
    case CancelRelease(b) => Some(b)
    case ExpiryRelease(_, batch) => if batch == [] then None else Some(batch[0])
    case _ => None
  }

  ghost predicate IsRelease(s: State, a: Action) {
    a.Advance? && a.p in s.procs && Releasing(s.procs[a.p]).Some?
  }

  /** The step is a release covering a seat that is in another booking's live hold. */
  ghost predicate Steals(s: State, a: Action) {
    IsRelease(s, a) &&
    var r := Releasing(s.procs[a.p]).value;
    exists b, ids, until :: LiveHold(s, b, ids, until) && b != r.bookingId && ids * LineIds(r.lines) != {}
  }

  /** The test the release filters leave out: every covered seat that is reserved is reserved by
      the booking being released. */
  ghost predicate OwnSeatsOnly(s: State, a: Action) {
    IsRelease(s, a) ==>
      var r := Releasing(s.procs[a.p]).value;
      forall i :: 0 <= i < |s.db.show.seats| && s.db.show.seats[i].seatId in LineIds(r.lines) && s.db.show.seats[i].status == Reserved ==>
        s.db.show.seats[i].reservedBy == Some(r.bookingId)
  }

  lemma LiveIsLogged(s: State, b: nat, ids: set<string>, until: int)
    requires BookingsOk(s) && ProcsOk(s) && LiveHold(s, b, ids, until)
    ensures Reserve(b, ids, until - s.cfg.HoldMs(), until) in s.log
  {
    if j :| 0 <= j < |s.db.bookings| && PendingAs(s.db.bookings[j], b, ids, until) {
      PendingIsLogged(s, j);
    } else {
      SavingIsLogged(s, b);
    }
  }

  lemma PendingIsLogged(s: State, j: nat)
    requires BookingsOk(s) && j < |s.db.bookings|
    ensures var b := s.db.bookings[j];
            Reserve(b.bookingId, LineIds(b.lines), b.expiresAt - s.cfg.HoldMs(), b.expiresAt) in s.log
  {
    assert BookingOk(s, s.db.bookings[j]);
  }

  lemma SavingIsLogged(s: State, p: nat)
    requires ProcsOk(s) && p in s.procs && s.procs[p].Save?
    ensures var req, at := s.procs[p].req, s.procs[p].plan.at;
            Reserve(p, SetOf(req.seatIds), at, at + s.cfg.HoldMs()) in s.log
  {
    assert ProcOk(s, p, s.procs[p]);
  }

  lemma LoggedIdsExist(first: Show, hold: nat, log: seq<Op>, op: Op)
    requires Valid(first, hold, log) && op in log
    ensures op.ids <= IdsOf(first.seats)
  {
    var k :| 0 <= k < |log| && log[k] == op;
    ValidPrefix(first, hold, log, k);
    ReplayFrame(first, log[..k]);
  }

  lemma LiveIdsExist(s: State, b: nat, ids: set<string>, until: int)
    requires Inv(s) && LiveHold(s, b, ids, until)
    ensures ids <= IdsOf(s.db.show.seats)
  {
    LiveIsLogged(s, b, ids, until);
    LoggedIdsExist(s.cfg.first, s.cfg.HoldMs(), s.log, Reserve(b, ids, until - s.cfg.HoldMs(), until));
    ReplayFrame(s.cfg.first, s.log);
  }

  /** Live holds of different bookings share no seat. */
  ghost predicate HoldsApart(s: State) {
    forall b, ids, until, c, more, later {:trigger LiveHold(s, b, ids, until), LiveHold(s, c, more, later)} ::
      LiveHold(s, b, ids, until) && LiveHold(s, c, more, later) && b != c ==> ids !! more
  }

  lemma HoldsOwnApart(s: State)
    requires Inv(s) && HoldsOwn(s)
    ensures HoldsApart(s)
  {
    var seats := s.db.show.seats;
    forall b, ids, until, c, more, later | LiveHold(s, b, ids, until) && LiveHold(s, c, more, later) && b != c
      ensures ids !! more
    {
      LiveIdsExist(s, b, ids, until);
      forall id | id in ids ensures id !in more {
        var k :| 0 <= k < |seats| && seats[k].seatId == id;
        assert Owned(seats[k], b, until);
      }
    }
  }

  lemma HoldsApartIsExclusive(s: State)
    requires BookingsOk(s) && HoldsApart(s)
    ensures ExclusiveHold(s)
  {
    var bs := s.db.bookings;
    forall i, j | 0 <= i < j < |bs| && bs[i].status == Pending && bs[i].expiresAt > s.db.now
                  && bs[j].status == Pending && bs[j].expiresAt > s.db.now
      ensures LineIds(bs[i].lines) !! LineIds(bs[j].lines)
    {
      var a, b := LineIds(bs[i].lines), LineIds(bs[j].lines);
      assert PendingAs(bs[i], bs[i].bookingId, a, bs[i].expiresAt) && PendingAs(bs[j], bs[j].bookingId, b, bs[j].expiresAt);
      assert LiveHold(s, bs[i].bookingId, a, bs[i].expiresAt) && LiveHold(s, bs[j].bookingId, b, bs[j].expiresAt);
    }
  }

  lemma HoldsOwnIsExclusive(s: State)
    requires Inv(s) && HoldsOwn(s)
    ensures ExclusiveHold(s)
  {
    HoldsOwnApart(s);
    HoldsApartIsExclusive(s);
  }

  // ---------------------------------------------------------------- steps that do not commit

  ghost predicate NoNewHold(s: State, t: State) {
    forall b, ids, until {:trigger LiveHold(t, b, ids, until)} :: LiveHold(t, b, ids, until) ==> LiveHold(s, b, ids, until)
  }

  /** No hold appears and no seat changes. */
  lemma Shrinks(s: State, t: State)
    requires HoldsOwn(s) && t.db.show.seats == s.db.show.seats && NoNewHold(s, t)
    ensures HoldsOwn(t)
  {
  }

  /** Steps that move `p` to a call other than `Save` and leave the bookings alone. */
  lemma MoveShrinks(s: State, t: State, p: nat)
    requires t.db.bookings == s.db.bookings
    requires t.cfg == s.cfg && t.db.now >= s.db.now && t.procs.Keys == s.procs.Keys + {p}
    requires !t.procs[p].Save? && forall x :: x in s.procs && x != p ==> t.procs[x] == s.procs[x]
    ensures NoNewHold(s, t)
  {
    forall b, ids, until | LiveHold(t, b, ids, until) ensures LiveHold(s, b, ids, until) { }
  }

  lemma IdleShrinks(s: State, t: State)
    requires t.db.bookings == s.db.bookings && t.cfg == s.cfg && t.db.now >= s.db.now && t.procs == s.procs
    ensures NoNewHold(s, t)
  {
    forall b, ids, until | LiveHold(t, b, ids, until) ensures LiveHold(s, b, ids, until) { }
  }

  /** A key free in a collection is free in any earlier version of it. */
  lemma KeyWasFree(before: seq<Booking>, after: seq<Booking>, key: string)
    requires |before| <= |after| && forall j :: 0 <= j < |before| ==> after[j].idempotencyKey == before[j].idempotencyKey
    requires FindByKey(after, key).None?
    ensures FindByKey(before, key).None?
  {
    FindByKeySound(before, key);
    FindByKeySound(after, key);
  }

  lemma FlipShrinks(s: State, t: State, p: nat, id: nat, status: BookingStatus)
    requires p in t.procs && t.procs == s.procs[p := t.procs[p]] && !t.procs[p].Save? && status != Pending
    requires t.cfg == s.cfg && t.db.now == s.db.now && t.db.bookings == SetStatus(s.db.bookings, id, status)
    ensures NoNewHold(s, t)
  {
    forall b, ids, until | LiveHold(t, b, ids, until) ensures LiveHold(s, b, ids, until) {
      if j :| 0 <= j < |t.db.bookings| && PendingAs(t.db.bookings[j], b, ids, until) {
        assert PendingAs(s.db.bookings[j], b, ids, until);
      } else {
        KeyWasFree(s.db.bookings, t.db.bookings, t.procs[b].req.idempotencyKey);
      }
    }
  }

  lemma SavedIsHeld(s: State, p: nat, req: Request, lease: int, plan: Plan)
    requires p in s.procs && s.procs[p] == Save(req, lease, plan)
    requires LineIds(NewBooking(s.cfg, p, req, plan).lines) == SetOf(req.seatIds)
    ensures NoNewHold(s, StepSave(s, p, req, lease, plan))
  {
    var t := StepSave(s, p, req, lease, plan);
    forall b, ids, until | LiveHold(t, b, ids, until) ensures LiveHold(s, b, ids, until) {
      if j :| 0 <= j < |t.db.bookings| && PendingAs(t.db.bookings[j], b, ids, until) {
        if j < |s.db.bookings| { assert PendingAs(s.db.bookings[j], b, ids, until); }
      } else {
        KeyWasFree(s.db.bookings, t.db.bookings, t.procs[b].req.idempotencyKey);
      }
    }
  }

  lemma SaveShrinks(s: State, p: nat, req: Request, lease: int, plan: Plan)
    requires Inv(s) && p in s.procs && s.procs[p] == Save(req, lease, plan)
    ensures NoNewHold(s, StepSave(s, p, req, lease, plan))
  {
    assert ProcOk(s, p, s.procs[p]);
    PlanFacts(s, req, plan);
    SavedIsHeld(s, p, req, lease, plan);
  }

  /** After a commit the live holds are those of before, none by the committing call, and its own. */
  lemma CommittedHolds(s: State, p: nat, req: Request, lease: int, plan: Plan, b: nat, ids: set<string>, until: int)
    requires p in s.procs && s.procs[p] == Commit(req, lease, plan) && CommitFilter(s.db.show, req, plan)
    requires forall j :: 0 <= j < |s.db.bookings| ==> s.db.bookings[j].bookingId != p
    requires LiveHold(StepCommit(s, p, req, lease, plan), b, ids, until)
    ensures if b == p then ids == SetOf(req.seatIds) && until == plan.at + s.cfg.HoldMs() else LiveHold(s, b, ids, until)
  {
  }

  lemma NotYetBooked(s: State, p: nat)
    requires BookingsOk(s) && p in s.procs && s.procs[p].Commit?
    ensures forall j :: 0 <= j < |s.db.bookings| ==> s.db.bookings[j].bookingId != p
  {
    forall j | 0 <= j < |s.db.bookings| ensures s.db.bookings[j].bookingId != p { assert BookingOk(s, s.db.bookings[j]); }
  }

  /** A commit takes no seat from a live hold: such a seat blocks it. */
  lemma CommitTakesNone(s: State, p: nat, req: Request, lease: int, plan: Plan)
    requires HoldsOwn(s) && p in s.procs && s.procs[p] == Commit(req, lease, plan) && CommitFilter(s.db.show, req, plan)
    requires plan.at <= s.db.now && forall j :: 0 <= j < |s.db.bookings| ==> s.db.bookings[j].bookingId != p
    ensures HoldsOwn(StepCommit(s, p, req, lease, plan))
  {
    var t, seats := StepCommit(s, p, req, lease, plan), s.db.show.seats;
    forall b, ids, until, i | LiveHold(t, b, ids, until) && 0 <= i < |t.db.show.seats| && t.db.show.seats[i].seatId in ids
      ensures Owned(t.db.show.seats[i], b, until)
    {
      CommittedHolds(s, p, req, lease, plan, b, ids, until);
      CommitSeat(s, p, req, lease, plan, i);
      if b != p { assert Owned(seats[i], b, until); }
    }
  }

  lemma CommitHolds(s: State, p: nat, req: Request, lease: int, plan: Plan)
    requires Inv(s) && HoldsOwn(s) && p in s.procs && s.procs[p] == Commit(req, lease, plan)
    requires CommitFilter(s.db.show, req, plan)
    ensures HoldsOwn(StepCommit(s, p, req, lease, plan))
  {
    assert plan.at <= s.db.now by { assert ProcOk(s, p, s.procs[p]); }
    NotYetBooked(s, p);
    CommitTakesNone(s, p, req, lease, plan);
  }

  lemma CommitSeat(s: State, p: nat, req: Request, lease: int, plan: Plan, i: nat)
    requires CommitFilter(s.db.show, req, plan) && i < |s.db.show.seats|
    ensures var t, seat := StepCommit(s, p, req, lease, plan), s.db.show.seats[i];
            && |t.db.show.seats| == |s.db.show.seats| && t.db.show.seats[i].seatId == seat.seatId
            && if seat.seatId in SetOf(req.seatIds)
               then Owned(t.db.show.seats[i], p, plan.at + s.cfg.HoldMs()) && !Blocked(seat, plan.at)
               else t.db.show.seats[i] == seat
  {
  }

  // ---------------------------------------------------------------- releases

  /** The booking being released is no longer pending, so it is not itself a live hold. */
  lemma ReleasedNotLive(s: State, p: nat, r: Booking, ids: set<string>, until: int)
    requires Inv(s) && p in s.procs && Releasing(s.procs[p]) == Some(r)
    ensures !LiveHold(s, r.bookingId, ids, until)
    ensures Known(s, r)
  {
    assert ProcOk(s, p, s.procs[p]);
    assert Left(s, r.bookingId);
    var j :| 0 <= j < |s.db.bookings| && s.db.bookings[j].bookingId == r.bookingId && s.db.bookings[j].status != Pending;
    assert BookingOk(s, s.db.bookings[j]);
  }

  lemma ReleaseKeepsLive(s: State, p: nat, r: Booking, q: Proc)
    requires p in s.procs && Releasing(s.procs[p]) == Some(r) && !q.Save?
    ensures forall b, ids, until :: LiveHold(ReleaseSeats(s, p, r, q), b, ids, until) <==> LiveHold(s, b, ids, until)
  {
  }

  lemma StealBreaks(s: State, p: nat, r: Booking, q: Proc)
    requires Inv(s) && p in s.procs && Releasing(s.procs[p]) == Some(r) && !q.Save? && Steals(s, Advance(p))
    ensures !HoldsOwn(ReleaseSeats(s, p, r, q))
  {
    var t, seats := ReleaseSeats(s, p, r, q), s.db.show.seats;
    var b, ids, until :| LiveHold(s, b, ids, until) && b != r.bookingId && ids * LineIds(r.lines) != {};
    ReleaseKeepsLive(s, p, r, q);
    LiveIdsExist(s, b, ids, until);
    var id :| id in ids * LineIds(r.lines);
    var i :| 0 <= i < |seats| && seats[i].seatId == id;
    assert LiveHold(t, b, ids, until) && !Owned(t.db.show.seats[i], b, until);
  }

  lemma ReleaseHolds(s: State, p: nat, r: Booking, q: Proc)
    requires Inv(s) && HoldsOwn(s) && p in s.procs && Releasing(s.procs[p]) == Some(r) && !q.Save?
    requires !Steals(s, Advance(p))
    ensures HoldsOwn(ReleaseSeats(s, p, r, q))
  {
    var t, seats := ReleaseSeats(s, p, r, q), s.db.show.seats;
    ReleaseKeepsLive(s, p, r, q);
    forall b, ids, until, i | LiveHold(t, b, ids, until) && 0 <= i < |t.db.show.seats| && t.db.show.seats[i].seatId in ids
      ensures Owned(t.db.show.seats[i], b, until)
    {
      ReleasedNotLive(s, p, r, ids, until);
      assert Owned(seats[i], b, until);
      assert ids * LineIds(r.lines) == {};
      assert seats[i].seatId !in ids * LineIds(r.lines);
    }
  }

  lemma QuietShrinks(s: State, p: nat)
    requires p in s.procs && !(s.procs[p].Commit? || s.procs[p].Save? || s.procs[p].CancelFlip? || s.procs[p].ExpiryFlip?)
    ensures NoNewHold(s, Step(s, p))
  {
    QuietMoves(s, p);
    MoveShrinks(s, Step(s, p), p);
  }

  ghost predicate MovesOnly(s: State, t: State, p: nat) {
    && t.db.bookings == s.db.bookings && t.cfg == s.cfg && t.db.now == s.db.now
    && p in t.procs && t.procs == s.procs[p := t.procs[p]] && !t.procs[p].Save?
  }

  lemma LockMoves(s: State, p: nat)
    requires p in s.procs && (s.procs[p].Lookup? || s.procs[p].Acquire? || s.procs[p].Read? || s.procs[p].Check? || s.procs[p].Unlock?)
    ensures MovesOnly(s, Step(s, p), p)
  {
  }

  lemma QuietMoves(s: State, p: nat)
    requires p in s.procs && !(s.procs[p].Commit? || s.procs[p].Save? || s.procs[p].CancelFlip? || s.procs[p].ExpiryFlip?)
    ensures MovesOnly(s, Step(s, p), p)
  {
    if s.procs[p].Lookup? || s.procs[p].Acquire? || s.procs[p].Read? || s.procs[p].Check? || s.procs[p].Unlock? {
      LockMoves(s, p);
    }
  }

  lemma AnyFlipShrinks(s: State, p: nat)
    requires p in s.procs && (s.procs[p].CancelFlip? || s.procs[p].ExpiryFlip?)
    ensures NoNewHold(s, Step(s, p))
  {
    var t := Step(s, p);
    if t.db.bookings == s.db.bookings {
      MoveShrinks(s, t, p);
    } else if s.procs[p].CancelFlip? {
      FlipShrinks(s, t, p, s.procs[p].booking.bookingId, Cancelled);
    } else {
      FlipShrinks(s, t, p, s.procs[p].batch[0].bookingId, Expired);
    }
  }

  /** The step is a versioned update whose filter matches. */
  predicate Commits(s: State, a: Action) {
    a.Advance? && a.p in s.procs && s.procs[a.p].Commit? && CommitFilter(s.db.show, s.procs[a.p].req, s.procs[a.p].plan)
  }

  lemma StepShrinks(s: State, p: nat)
    requires p in s.procs && !Commits(s, Advance(p)) && !s.procs[p].Save?
    ensures NoNewHold(s, Step(s, p))
  {
    match s.procs[p]
    case Commit(_, _, _) => MoveShrinks(s, Step(s, p), p);
    case CancelFlip(_) => AnyFlipShrinks(s, p);
    case ExpiryFlip(_, _) => AnyFlipShrinks(s, p);
    case _ => QuietShrinks(s, p);
  }

  lemma OnlySavesAndCommitsHold(s: State, a: Action)
    requires !Commits(s, a) && !(a.Advance? && a.p in s.procs && s.procs[a.p].Save?)
    ensures NoNewHold(s, Do(s, a))
  {
    var t := Do(s, a);
    if a.Advance? && a.p in s.procs {
      StepShrinks(s, a.p);
    } else if a.Tick? || a.Deactivate? || t == s {
      IdleShrinks(s, t);
    } else {
      MoveShrinks(s, t, a.p);
    }
  }

  /** Only a commit makes a new live hold. */
  lemma OnlyCommitsHold(s: State, a: Action)
    requires Inv(s) && !Commits(s, a)
    ensures NoNewHold(s, Do(s, a))
  {
    if a.Advance? && a.p in s.procs && s.procs[a.p].Save? {
      SaveShrinks(s, a.p, s.procs[a.p].req, s.procs[a.p].lease, s.procs[a.p].plan);
    } else {
      OnlySavesAndCommitsHold(s, a);
    }
  }

  lemma SeatsStay(s: State, a: Action)
    requires !IsRelease(s, a) && !Commits(s, a)
    ensures Do(s, a).db.show.seats == s.db.show.seats
  {
  }

  /** A step keeps the holds exactly when it is not a release that covers another live hold. */
  lemma ExclusiveStep(s: State, a: Action)
    requires Inv(s) && HoldsOwn(s)
    ensures HoldsOwn(Do(s, a)) <==> !Steals(s, a)
  {
    if IsRelease(s, a) {
      var r, q := Releasing(s.procs[a.p]).value, Do(s, a).procs[a.p];
      if Steals(s, a) { StealBreaks(s, a.p, r, q); } else { ReleaseHolds(s, a.p, r, q); }
    } else if Commits(s, a) {
      CommitHolds(s, a.p, s.procs[a.p].req, s.procs[a.p].lease, s.procs[a.p].plan);
    } else {
      OnlyCommitsHold(s, a);
      SeatsStay(s, a);
      Shrinks(s, Do(s, a));
    }
  }

  /** Releases confined to their own booking's seats never steal. */
  lemma OwnSeatsDoNotSteal(s: State, a: Action)
    requires Inv(s) && HoldsOwn(s) && OwnSeatsOnly(s, a)
    ensures !Steals(s, a)
  {
    if IsRelease(s, a) {
      var r, seats := Releasing(s.procs[a.p]).value, s.db.show.seats;
      forall b, ids, until | LiveHold(s, b, ids, until) && b != r.bookingId
        ensures ids * LineIds(r.lines) == {}
      {
        LiveIdsExist(s, b, ids, until);
        forall id | id in ids ensures id !in LineIds(r.lines) {
          var i :| 0 <= i < |seats| && seats[i].seatId == id;
          assert Owned(seats[i], b, until);
        }
      }
    }
  }

  ghost predicate NoSteals(s: State, acts: seq<Action>) {
    acts == [] ||
    (NoSteals(s, acts[..|acts| - 1]) && !Steals(Exec(s, acts[..|acts| - 1]), acts[|acts| - 1]))
  }

  /** From a state in which every live hold owns its seats, a run without such a release keeps it so. */
  lemma {:induction false} HoldsOwnRun(s: State, acts: seq<Action>)
    requires Inv(s) && HoldsOwn(s) && NoSteals(s, acts)
    ensures Inv(Exec(s, acts)) && HoldsOwn(Exec(s, acts))
  {
    if acts != [] {
      var before := acts[..|acts| - 1];
      HoldsOwnRun(s, before);
      DoKeeps(Exec(s, before), acts[|acts| - 1]);
      ExclusiveStep(Exec(s, before), acts[|acts| - 1]);
    }
  }

  lemma InitHoldsOwn(s: State)
    requires Init(s)
    ensures Inv(s) && HoldsOwn(s)
  {
    InvAlways(s, []);
  }

  /** In every run without such a release, at most one pending, unlapsed booking contains a seat. */
  lemma ExclusiveAlways(s: State, acts: seq<Action>)
    requires Init(s) && NoSteals(s, acts)
    ensures HoldsOwn(Exec(s, acts)) && ExclusiveHold(Exec(s, acts))
  {
    InitHoldsOwn(s);
    HoldsOwnRun(s, acts);
    HoldsOwnIsExclusive(Exec(s, acts));
  }

  ghost predicate OwnReleases(s: State, acts: seq<Action>) {
    acts == [] ||
    (OwnReleases(s, acts[..|acts| - 1]) && OwnSeatsOnly(Exec(s, acts[..|acts| - 1]), acts[|acts| - 1]))
  }

  /** Runs whose releases meet no seat reserved by another booking are exclusive. */
  lemma {:induction false} OwnReleasesExclusive(s: State, acts: seq<Action>)
    requires Init(s) && OwnReleases(s, acts)
    ensures NoSteals(s, acts) && ExclusiveHold(Exec(s, acts))
  {
    if acts != [] {
      var before := acts[..|acts| - 1];
      OwnReleasesExclusive(s, before);
      ExclusiveAlways(s, before);
      InvAlways(s, before);
      OwnSeatsDoNotSteal(Exec(s, before), acts[|acts| - 1]);
    }
    ExclusiveAlways(s, acts);
  }
}
