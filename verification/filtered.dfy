/** The reservation machine with one condition added to the array filter of both releases: only
    seats reserved by the booking being released are freed. In every run of it a seat has at most one
    pending, unlapsed booking. */
module Filtered {
  import opened Options
  import opened Seats
  import opened Protocol
  import opened Refinement
  import opened Exclusive
  import opened Idempotency

  /** Free those of the booking's seats that are still reserved by it. */
  function FreeOwn(seats: seq<Seat>, b: Booking): seq<Seat> {
    seq(|seats|, i requires 0 <= i < |seats| =>
      if seats[i].seatId in LineIds(b.lines) && seats[i].reservedBy == Some(b.bookingId)
      then seats[i].(status := Available, reservedBy := None, reservedUntil := None)
      else seats[i])
  }

  function OwnRelease(show: Show, b: Booking): Show {
    var seats := FreeOwn(show.seats, b);
    show.(seats := seats, availableSeats := show.availableSeats + CountAvailable(seats) - CountAvailable(show.seats),
          seatVersion := show.seatVersion + 1)
  }

  /** As in the machine of the code, but for the releases. */
  ghost function DoOwn(s: State, a: Action): State {
    if IsRelease(s, a)
    then SetDb(s, a.p, s.db.(show := OwnRelease(s.db.show, Releasing(s.procs[a.p]).value)), Do(s, a).procs[a.p])
    else Do(s, a)
  }

  ghost function ExecOwn(s: State, acts: seq<Action>): State {
    if acts == [] then s else DoOwn(ExecOwn(s, acts[..|acts| - 1]), acts[|acts| - 1])
  }

  // ---------------------------------------------------------------- the invariant

  ghost predicate SameRoom(seats: seq<Seat>, first: seq<Seat>) {
    |seats| == |first| && forall i :: 0 <= i < |seats| ==> seats[i].seatId == first[i].seatId
  }

  ghost predicate Planned(s: State, req: Request, plan: Plan) {
    SameRoom(plan.snap.seats, s.cfg.first.seats) && plan.at <= s.db.now && CheckAt(req, plan.snap, plan.at) == None
  }

  ghost predicate ProcFine(s: State, q: Proc) {
    match q
    case Check(_, _, snap) => SameRoom(snap.seats, s.cfg.first.seats)
    case Commit(req, _, plan) => Planned(s, req, plan)
    case Save(req, _, plan) => Planned(s, req, plan)
    case CancelFlip(b) => Known(s, b)
    case CancelRelease(b) => Known(s, b) && Left(s, b.bookingId)
    case ExpiryFlip(_, batch) => forall b <- batch :: Known(s, b)
    case ExpiryRelease(_, batch) => batch != [] && Left(s, batch[0].bookingId) && forall b <- batch :: Known(s, b)
    case _ => true
  }

  ghost predicate BookingFine(s: State, b: Booking) {
    && b.bookingId in s.procs && AfterSave(s.procs[b.bookingId])
    && LineIds(b.lines) <= IdsOf(s.cfg.first.seats)
  }

  ghost predicate Sound(s: State) {
    && UniqueIds(s.cfg.first.seats) && SameRoom(s.db.show.seats, s.cfg.first.seats)
    && (forall p :: p in s.procs ==> ProcFine(s, s.procs[p]))
    && (forall j :: 0 <= j < |s.db.bookings| ==> BookingFine(s, s.db.bookings[j]))
    && (forall i, j :: 0 <= i < j < |s.db.bookings| ==> s.db.bookings[i].bookingId != s.db.bookings[j].bookingId)
  }

  lemma SameRoomIds(seats: seq<Seat>, first: seq<Seat>)
    requires SameRoom(seats, first)
    ensures IdsOf(seats) == IdsOf(first) && (UniqueIds(first) ==> UniqueIds(seats))
  {
    forall x ensures x in IdsOf(seats) <==> x in IdsOf(first) {
      if x in IdsOf(seats) {
        var i :| 0 <= i < |seats| && seats[i].seatId == x;
        assert first[i].seatId == x;
      }
      if x in IdsOf(first) {
        var i :| 0 <= i < |first| && first[i].seatId == x;
        assert seats[i].seatId == x;
      }
    }
  }

  /** The lines of the booking a planned call saves are the seats it asked for. */
  lemma PlannedLines(s: State, p: nat, req: Request, plan: Plan)
    requires UniqueIds(s.cfg.first.seats) && Planned(s, req, plan)
    ensures LineIds(NewBooking(s.cfg, p, req, plan).lines) == SetOf(req.seatIds) <= IdsOf(s.cfg.first.seats)
  {
    SameRoomIds(plan.snap.seats, s.cfg.first.seats);
    LengthTestIsFullCheck(plan.snap.seats, req.seatIds);
    LineIdsOf(Choose(req, plan.snap));
  }

  lemma ProcFineExtends(s: State, t: State, q: Proc)
    requires Extends(s, t) && ProcFine(s, q)
    ensures ProcFine(t, q)
  {
    match q
    case CancelFlip(b) => KnownExtends(s, t, b);
    case CancelRelease(b) => KnownExtends(s, t, b); LeftExtends(s, t, b.bookingId);
    case ExpiryFlip(_, batch) => forall b | b in batch ensures Known(t, b) { KnownExtends(s, t, b); }
    case ExpiryRelease(_, batch) =>
      forall b | b in batch ensures Known(t, b) { KnownExtends(s, t, b); }
      LeftExtends(s, t, batch[0].bookingId);
    case _ =>
  }

  // ---------------------------------------------------------------- steps keep it

  /** The one process a step moved is fine where it is now. */
  lemma Moved(s: State, t: State, p: nat)
    requires Sound(s) && Extends(s, t) && p in t.procs && Moves(s, t, p, t.procs[p]) && ProcFine(t, t.procs[p])
    requires SameRoom(t.db.show.seats, s.cfg.first.seats)
    requires forall j :: |s.db.bookings| <= j < |t.db.bookings| ==>
               && BookingFine(t, t.db.bookings[j])
               && (forall i :: 0 <= i < j ==> t.db.bookings[i].bookingId != t.db.bookings[j].bookingId)
    ensures Sound(t)
  {
    forall x | x in t.procs ensures ProcFine(t, t.procs[x]) {
      if x != p { ProcFineExtends(s, t, s.procs[x]); }
    }
    forall j | 0 <= j < |s.db.bookings|
      ensures BookingFine(t, t.db.bookings[j]) && t.db.bookings[j].bookingId == s.db.bookings[j].bookingId
    {
      SameFields(t.db.bookings[j], s.db.bookings[j]);
      assert BookingFine(s, s.db.bookings[j]);
    }
  }

  /** What a step of a process that does not release does to bookings, room and process. */
  lemma SoundStep(s: State, p: nat)
    requires Sound(s) && p in s.procs && Releasing(s.procs[p]).None?
    ensures Sound(Step(s, p))
  {
    var t := Step(s, p);
    if t != s {
      StepExtends(s, p);
      assert ProcFine(s, s.procs[p]);
      if Creating(s.procs[p]) { CreateSound(s, p); } else { SweepSound(s, p); }
    }
  }

  lemma CreateMoves(s: State, p: nat)
    requires p in s.procs && Creating(s.procs[p]) && SameRoom(s.db.show.seats, s.cfg.first.seats) && ProcFine(s, s.procs[p])
    ensures var t := Step(s, p);
            && p in t.procs && Moves(s, t, p, t.procs[p]) && ProcFine(t, t.procs[p])
            && SameRoom(t.db.show.seats, s.cfg.first.seats)
            && (t.db.bookings == s.db.bookings || (s.procs[p].Save? && t.db.bookings == s.db.bookings + [NewBooking(s.cfg, p, s.procs[p].req, s.procs[p].plan)]))
  {
  }

  lemma CreateSound(s: State, p: nat)
    requires Sound(s) && p in s.procs && Creating(s.procs[p]) && Extends(s, Step(s, p))
    ensures Sound(Step(s, p))
  {
    var t := Step(s, p);
    CreateMoves(s, p);
    if t.db.bookings != s.db.bookings {
      PlannedLines(s, p, s.procs[p].req, s.procs[p].plan);
      forall i | 0 <= i < |s.db.bookings| ensures s.db.bookings[i].bookingId != p { assert BookingFine(s, s.db.bookings[i]); }
    }
    Moved(s, t, p);
  }

  lemma SweepMoves(s: State, p: nat)
    requires p in s.procs && !Creating(s.procs[p]) && Releasing(s.procs[p]).None? && Step(s, p) != s
    ensures var t := Step(s, p);
            p in t.procs && Moves(s, t, p, t.procs[p]) && t.db.show == s.db.show && |t.db.bookings| == |s.db.bookings|
  {
  }

  lemma SweepSound(s: State, p: nat)
    requires Sound(s) && p in s.procs && !Creating(s.procs[p]) && Releasing(s.procs[p]).None?
    requires Step(s, p) != s && Extends(s, Step(s, p))
    ensures Sound(Step(s, p))
  {
    var t := Step(s, p);
    SweepMoves(s, p);
    assert ProcFine(s, s.procs[p]);
    assert ProcFine(t, t.procs[p]) by {
      match s.procs[p]
      case CancelRead(id, _) => FindByIdSound(s.db.bookings, id);
      case CancelFlip(b) => FlipFine(s, t, p, b);
      case ExpiryFlip(_, batch) => if batch != [] { ExpiryFine(s, t, p, batch); }
      case _ =>
    }
    Moved(s, t, p);
  }

  lemma FlipFine(s: State, t: State, p: nat, b: Booking)
    requires Extends(s, t) && p in s.procs && s.procs[p] == CancelFlip(b) && Known(s, b) && t == Step(s, p)
    ensures ProcFine(t, t.procs[p])
  {
    KnownIsFound(s, b);
    CancelFlipShape(s, p, b);
    KnownExtends(s, t, b);
    FlippedIsLeft(s, t, b.bookingId, Cancelled);
  }

  lemma ExpiryFine(s: State, t: State, p: nat, batch: seq<Booking>)
    requires Extends(s, t) && p in s.procs && s.procs[p].ExpiryFlip? && s.procs[p].batch == batch && batch != []
    requires (forall b <- batch :: Known(s, b)) && t == Step(s, p)
    ensures ProcFine(t, t.procs[p])
  {
    forall b | b in batch ensures Known(t, b) { KnownExtends(s, t, b); }
    var id := batch[0].bookingId;
    if FindById(s.db.bookings, id).Some? && FindById(s.db.bookings, id).value.status == Pending {
      FlippedIsLeft(s, t, id, Expired);
    }
  }

  lemma SoundOther(s: State, a: Action)
    requires Sound(s) && !a.Advance?
    ensures Sound(Do(s, a))
  {
    var t := Do(s, a);
    DoExtends(s, a);
    if a.Tick? || a.Deactivate? || t == s {
      forall x | x in t.procs ensures ProcFine(t, t.procs[x]) { ProcFineExtends(s, t, s.procs[x]); }
      forall j | 0 <= j < |t.db.bookings| ensures BookingFine(t, t.db.bookings[j]) { assert BookingFine(s, s.db.bookings[j]); }
    } else {
      OtherMoves(s, a);
      if a.FindBatch? { BatchKnown(s, t, a.batch); }
      Moved(s, t, a.p);
    }
  }

  lemma BatchKnown(s: State, t: State, batch: seq<Booking>)
    requires t.db.bookings == s.db.bookings && forall b <- batch :: b in s.db.bookings
    ensures forall b <- batch :: Known(t, b)
  {
    forall b | b in batch ensures Known(t, b) {
      var j :| 0 <= j < |s.db.bookings| && s.db.bookings[j] == b;
      assert Same(t.db.bookings[j], b);
    }
  }

  lemma OtherMoves(s: State, a: Action)
    requires !a.Advance? && !a.Tick? && !a.Deactivate? && Do(s, a) != s
    ensures var t := Do(s, a);
            && a.p in t.procs && Moves(s, t, a.p, t.procs[a.p]) && t.db == s.db && t.cfg == s.cfg
            && (a.FindBatch? ==> t.procs[a.p].ExpiryFlip? && t.procs[a.p].batch == a.batch && forall b <- a.batch :: b in s.db.bookings)
            && (a.Fail? && t.procs[a.p].ExpiryFlip? ==>
                  a.p in s.procs && (s.procs[a.p].ExpiryFlip? || s.procs[a.p].ExpiryRelease?) &&
                  forall b <- t.procs[a.p].batch :: b in s.procs[a.p].batch)
  {
  }

  lemma OwnReleaseRoom(show: Show, b: Booking)
    ensures SameRoom(OwnRelease(show, b).seats, show.seats)
  {
  }

  lemma ReleaseMoves(s: State, a: Action)
    requires IsRelease(s, a)
    ensures var t, q := DoOwn(s, a), s.procs[a.p];
            && Extends(s, t) && a.p in t.procs && Moves(s, t, a.p, t.procs[a.p]) && t.db.bookings == s.db.bookings
            && (q.CancelRelease? ==> t.procs[a.p].Done?)
            && (q.ExpiryRelease? ==> t.procs[a.p] == ExpiryFlip(q.at, q.batch[1..]))
  {
  }

  lemma SoundRelease(s: State, a: Action)
    requires Sound(s) && IsRelease(s, a)
    ensures Sound(DoOwn(s, a))
  {
    var t := DoOwn(s, a);
    ReleaseMoves(s, a);
    OwnReleaseRoom(s.db.show, Releasing(s.procs[a.p]).value);
    assert ProcFine(s, s.procs[a.p]);
    if s.procs[a.p].ExpiryRelease? {
      forall b | b in s.procs[a.p].batch[1..] ensures Known(t, b) { KnownExtends(s, t, b); }
    }
    Moved(s, t, a.p);
  }

  lemma SoundDo(s: State, a: Action)
    requires Sound(s)
    ensures Sound(DoOwn(s, a))
  {
    if IsRelease(s, a) {
      SoundRelease(s, a);
    } else if !a.Advance? {
      SoundOther(s, a);
    } else if a.p in s.procs {
      SoundStep(s, a.p);
    }
  }

  // ---------------------------------------------------------------- holds

  lemma SaveKeepsHolds(s: State, p: nat, req: Request, lease: int, plan: Plan)
    requires Sound(s) && p in s.procs && s.procs[p] == Save(req, lease, plan)
    ensures NoNewHold(s, StepSave(s, p, req, lease, plan))
  {
    assert ProcFine(s, s.procs[p]);
    PlannedLines(s, p, req, plan);
    SavedIsHeld(s, p, req, lease, plan);
  }

  /** Outside commits and releases no hold appears and no seat changes. */
  lemma QuietOwn(s: State, a: Action)
    requires Sound(s) && HoldsOwn(s) && !IsRelease(s, a) && !Commits(s, a)
    ensures HoldsOwn(Do(s, a))
  {
    if a.Advance? && a.p in s.procs && s.procs[a.p].Save? {
      SaveKeepsHolds(s, a.p, s.procs[a.p].req, s.procs[a.p].lease, s.procs[a.p].plan);
    } else {
      OnlySavesAndCommitsHold(s, a);
    }
    SeatsStay(s, a);
    Shrinks(s, Do(s, a));
  }

  lemma CommitOwn(s: State, a: Action)
    requires Sound(s) && HoldsOwn(s) && Commits(s, a)
    ensures HoldsOwn(Do(s, a))
  {
    var q := s.procs[a.p];
    assert ProcFine(s, q);
    forall j | 0 <= j < |s.db.bookings| ensures s.db.bookings[j].bookingId != a.p { assert BookingFine(s, s.db.bookings[j]); }
    CommitTakesNone(s, a.p, q.req, q.lease, q.plan);
  }

  /** A release frees no seat of another booking, and its own booking is not live. */
  lemma ReleaseOwn(s: State, a: Action)
    requires Sound(s) && HoldsOwn(s) && IsRelease(s, a)
    ensures HoldsOwn(DoOwn(s, a))
  {
    var t, r, seats := DoOwn(s, a), Releasing(s.procs[a.p]).value, s.db.show.seats;
    ReleaseMoves(s, a);
    MoveShrinks(s, t, a.p);
    forall b, ids, until, i | LiveHold(t, b, ids, until) && 0 <= i < |t.db.show.seats| && t.db.show.seats[i].seatId in ids
      ensures Owned(t.db.show.seats[i], b, until)
    {
      assert LiveHold(s, b, ids, until);
      assert Owned(seats[i], b, until);
      LeftNotLive(s, a.p, r, ids, until);
    }
  }

  lemma LeftNotLive(s: State, p: nat, r: Booking, ids: set<string>, until: int)
    requires Sound(s) && p in s.procs && Releasing(s.procs[p]) == Some(r)
    ensures !LiveHold(s, r.bookingId, ids, until)
  {
    assert ProcFine(s, s.procs[p]);
    var j :| 0 <= j < |s.db.bookings| && s.db.bookings[j].bookingId == r.bookingId && s.db.bookings[j].status != Pending;
    assert BookingFine(s, s.db.bookings[j]);
  }

  lemma HoldsOwnDo(s: State, a: Action)
    requires Sound(s) && HoldsOwn(s)
    ensures HoldsOwn(DoOwn(s, a))
  {
    if IsRelease(s, a) { ReleaseOwn(s, a); } else if Commits(s, a) { CommitOwn(s, a); } else { QuietOwn(s, a); }
  }

  lemma OwnedApart(s: State)
    requires Sound(s) && HoldsOwn(s)
    ensures ExclusiveHold(s)
  {
    var bs, seats := s.db.bookings, s.db.show.seats;
    SameRoomIds(seats, s.cfg.first.seats);
    forall i, j | 0 <= i < j < |bs| && bs[i].status == Pending && bs[i].expiresAt > s.db.now
                  && bs[j].status == Pending && bs[j].expiresAt > s.db.now
      ensures LineIds(bs[i].lines) !! LineIds(bs[j].lines)
    {
      var a, b := LineIds(bs[i].lines), LineIds(bs[j].lines);
      assert PendingAs(bs[i], bs[i].bookingId, a, bs[i].expiresAt) && PendingAs(bs[j], bs[j].bookingId, b, bs[j].expiresAt);
      assert LiveHold(s, bs[i].bookingId, a, bs[i].expiresAt) && LiveHold(s, bs[j].bookingId, b, bs[j].expiresAt);
      assert BookingFine(s, bs[i]);
      forall id | id in a ensures id !in b {
        var k :| 0 <= k < |seats| && seats[k].seatId == id;
        assert Owned(seats[k], bs[i].bookingId, bs[i].expiresAt);
      }
    }
  }

  lemma {:induction false} SoundRun(s: State, acts: seq<Action>)
    requires Init(s)
    ensures Sound(ExecOwn(s, acts)) && HoldsOwn(ExecOwn(s, acts))
  {
    if acts != [] {
      var before := acts[..|acts| - 1];
      SoundRun(s, before);
      SoundDo(ExecOwn(s, before), acts[|acts| - 1]);
      HoldsOwnDo(ExecOwn(s, before), acts[|acts| - 1]);
    }
  }

  /** With releases filtered by `reservedBy`, in every run: at most one pending, unlapsed booking
      contains a seat. */
  lemma FilteredIsExclusive(s: State, acts: seq<Action>)
    requires Init(s)
    ensures ExclusiveHold(ExecOwn(s, acts))
  {
    SoundRun(s, acts);
    OwnedApart(ExecOwn(s, acts));
  }
}
