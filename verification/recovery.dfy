/** Bounded recovery: whatever crashes left behind, after one lease time an undisturbed
    `createBooking` on seats that are not booked or under maintenance succeeds. */
module Recovery {
  import opened Options
  import opened Seats
  import opened History
  import opened Protocol
  import opened Refinement
  import opened Safety

  function Repeat(a: Action, n: nat): seq<Action> {
    if n == 0 then [] else [a] + Repeat(a, n - 1)
  }

  /** Process `p` takes `n` steps on its own. */
  function Run(s: State, p: nat, n: nat): State
    decreases n
  {
    if n == 0 then s else Run(Do(s, Advance(p)), p, n - 1)
  }

  lemma {:induction false} ExecRepeat(s: State, p: nat, n: nat)
    ensures Exec(s, Repeat(Advance(p), n)) == Run(s, p, n)
    decreases n
  {
    if n != 0 {
      ExecCons(s, Advance(p), Repeat(Advance(p), n - 1));
      ExecRepeat(Do(s, Advance(p)), p, n - 1);
    }
  }

  lemma ExecStep(s: State, acts: seq<Action>, a: Action)
    ensures Exec(s, acts + [a]) == Do(Exec(s, acts), a)
  {
    assert (acts + [a])[..|acts|] == acts;
  }

  lemma ExecCons(s: State, a: Action, acts: seq<Action>)
    ensures Exec(s, [a] + acts) == Exec(Do(s, a), acts)
  {
    ExecAppend(s, [a], acts);
    ExecStep(s, [], a);
    assert [] + [a] == [a];
  }

  // ---------------------------------------------------------------- lost replies

  /** The process is about to make a store call. */
  predicate Calling(q: Proc) {
    match q
    case Check(_, _, _) => false
    case ExpiryFind(_) => false
    case ExpiryFlip(_, batch) => batch != []
    case ExpiryRelease(_, batch) => batch != []
    case Done(_) => false
    case Crashed => false
    case _ => true
  }

  /** The store call takes effect, but the reply is lost and the call throws. */
  function LostReply(s: State, p: nat): State
    requires p in s.procs
  {
    if Calling(s.procs[p]) then SetProc(Step(s, p), p, AfterFailure(s.procs[p])) else s
  }

  /** The same, but for what the caller is told. */
  predicate Alike(q: Proc, r: Proc) {
    || q == r
    || (q.Unlock? && r.Unlock? && q.req == r.req && q.lease == r.lease)
    || ((q.Done? || q.Crashed?) && (r.Done? || r.Crashed?))
  }

  /** `t` is `u`, but for what the caller of `p` is told. */
  ghost predicate AlikeAt(t: State, u: State, p: nat) {
    && t.cfg == u.cfg && t.db == u.db && t.log == u.log && t.claims == u.claims
    && p in t.procs && p in u.procs && Alike(t.procs[p], u.procs[p]) && t.procs == u.procs[p := t.procs[p]]
  }

  lemma QuietLoss(s: State, p: nat)
    requires p in s.procs && Calling(s.procs[p])
    requires var t := Step(s, p); t.db == s.db && t.log == s.log && t.claims == s.claims
    ensures AlikeAt(Do(s, Fail(p)), LostReply(s, p), p)
  {
    StepMovesOwn(s, p);
  }

  lemma StepMovesOwn(s: State, p: nat)
    requires p in s.procs && Calling(s.procs[p])
    ensures Step(s, p).cfg == s.cfg && Step(s, p).procs[p := AfterFailure(s.procs[p])] == s.procs[p := AfterFailure(s.procs[p])]
  {
  }

  /** Calls after which another store call follows: it fails or never comes. */
  lemma MidLoss(s: State, p: nat, a: Action)
    requires p in s.procs
    requires match s.procs[p]
             case Acquire(_) => a == Crash(p) && Step(s, p).procs[p].Read?
             case Commit(_, _, _) => a == Fail(p) && Step(s, p).procs[p].Save?
             case CancelFlip(_) => a == Fail(p) && Step(s, p).procs[p].CancelRelease?
             case ExpiryFlip(_, batch) => a == Fail(p) && batch != [] && Step(s, p).procs[p].ExpiryRelease?
             case _ => false
    ensures AlikeAt(Do(Step(s, p), a), LostReply(s, p), p)
  {
  }

  lemma LastLoss(s: State, p: nat)
    requires p in s.procs && Calling(s.procs[p])
    requires s.procs[p].Save? ==> Step(s, p).db != s.db
    requires s.procs[p].Save? || s.procs[p].Unlock? || s.procs[p].CancelRelease? || s.procs[p].ExpiryRelease?
    ensures AlikeAt(Step(s, p), LostReply(s, p), p)
  {
  }

  /** A store call that takes effect and then throws leaves what the call and a failure or crash of
      the next one leave, but for what the caller is told: so the runs with such calls are covered. */
  lemma LostReplyCovered(s: State, p: nat) returns (acts: seq<Action>)
    requires p in s.procs && Calling(s.procs[p])
    ensures AlikeAt(Exec(s, acts), LostReply(s, p), p)
  {
    var q, t := s.procs[p], Step(s, p);
    if t.db == s.db && t.log == s.log && t.claims == s.claims {
      acts := [Fail(p)];
      ExecOne(s, Fail(p));
      QuietLoss(s, p);
    } else if q.Acquire? || q.Commit? || q.CancelFlip? || q.ExpiryFlip? {
      var a := if q.Acquire? then Crash(p) else Fail(p);
      acts := [Advance(p)] + [a];
      ExecOne(s, Advance(p));
      ExecStep(s, [Advance(p)], a);
      MidLoss(s, p, a);
    } else {
      acts := [Advance(p)];
      ExecOne(s, Advance(p));
      LastLoss(s, p);
    }
  }

  lemma ExecOne(s: State, a: Action)
    ensures Exec(s, [a]) == Do(s, a)
  {
    ExecStep(s, [], a);
    assert [] + [a] == [a];
  }

  // ---------------------------------------------------------------- a call on its own

  /** Lookup, lock, show read, checks, versioned update, insert and unlock. */
  const CALL_STEPS := 7

  /** A call on its own: started, and then given `n` steps. Once it is done further steps change
      nothing, so any `n` from `CALL_STEPS` on describes the whole call. */
  function Solo(p: nat, req: Request, n: nat): seq<Action> {
    [StartCreate(p, req)] + Repeat(Advance(p), n)
  }

  lemma {:induction false} RunDone(s: State, p: nat, n: nat)
    requires p in s.procs && s.procs[p].Done?
    ensures Run(s, p, n) == s
    decreases n
  {
    if n != 0 { RunDone(s, p, n - 1); }
  }

  /** What the call finds when it will succeed: a fresh number and key, no live lease on its seats,
      an active show still to start, and distinct existing seats none of which blocks. */
  ghost predicate Ready(s: State, p: nat, req: Request) {
    && p !in s.procs
    && 1 <= |req.seatIds| <= MAX_SEATS_PER_BOOKING
    && FindByKey(s.db.bookings, req.idempotencyKey).None?
    && !LeaseLive(s.db.leases, LockKeyOf(req), s.db.now)
    && s.db.show.showId == req.showId && s.db.show.isActive && s.db.show.showTime > s.db.now
    && |Selected(s.db.show.seats, SetOf(req.seatIds))| == |req.seatIds|
    && !AnyBlocked(s.db.show.seats, SetOf(req.seatIds), s.db.now)
  }

  function SoloBooking(s: State, p: nat, req: Request): Booking {
    NewBooking(s.cfg, p, req, Plan(s.db.show, s.db.now))
  }

  function AfterSolo(s: State, p: nat, req: Request): State {
    var ids, until := SetOf(req.seatIds), s.db.now + s.cfg.HoldMs();
    var b := SoloBooking(s, p, req);
    State(s.cfg,
          Db(s.db.now, ReserveWrite(s.db.show, ids, |req.seatIds|, p, until), s.db.bookings + [b], s.db.leases - {LockKeyOf(req)}),
          s.procs[p := Done(Created(b))], s.log + [Reserve(p, ids, s.db.now, until)], s.claims)
  }

  lemma SoloChecks(s: State, p: nat, req: Request)
    requires Ready(s, p, req)
    ensures CheckAt(req, s.db.show, s.db.now) == None
    ensures CommitFilter(s.db.show, req, Plan(s.db.show, s.db.now))
    ensures SoloBooking(s, p, req).lines != []
  {
    ChecksAgree(s.db.show.seats, SetOf(req.seatIds), s.db.now);
  }

  /** `s` with process `p` at `q`, and with the lock of `req` taken. */
  function Locked(s: State, p: nat, req: Request, q: Proc): State {
    s.(db := s.db.(leases := s.db.leases[LockKeyOf(req) := Lease(p, s.db.now + s.cfg.LeaseMs())]), procs := s.procs[p := q])
  }

  lemma SetTwice(m: map<nat, Proc>, p: nat, a: Proc, b: Proc)
    ensures m[p := a][p := b] == m[p := b]
  {
  }

  lemma SoloLookup(s: State, p: nat, req: Request)
    requires Ready(s, p, req)
    ensures Do(Do(s, StartCreate(p, req)), Advance(p)) == SetProc(s, p, Acquire(req))
  {
    SetTwice(s.procs, p, Lookup(req), Acquire(req));
  }

  lemma SoloAcquire(s: State, p: nat, req: Request)
    requires Ready(s, p, req)
    ensures Do(SetProc(s, p, Acquire(req)), Advance(p)) == Locked(s, p, req, Read(req, s.db.now + s.cfg.LeaseMs()))
  {
    SetTwice(s.procs, p, Acquire(req), Read(req, s.db.now + s.cfg.LeaseMs()));
  }

  lemma SoloRead(s: State, p: nat, req: Request, lease: int)
    requires Ready(s, p, req)
    ensures Do(Locked(s, p, req, Read(req, lease)), Advance(p)) == Locked(s, p, req, Check(req, lease, s.db.show))
  {
    SetTwice(s.procs, p, Read(req, lease), Check(req, lease, s.db.show));
  }

  lemma SoloCheck(s: State, p: nat, req: Request, lease: int)
    requires Ready(s, p, req)
    ensures Do(Locked(s, p, req, Check(req, lease, s.db.show)), Advance(p)) ==
              Locked(s, p, req, Commit(req, lease, Plan(s.db.show, s.db.now)))
  {
    SoloChecks(s, p, req);
    SetTwice(s.procs, p, Check(req, lease, s.db.show), Commit(req, lease, Plan(s.db.show, s.db.now)));
  }

  lemma SoloCommit(s: State, p: nat, req: Request, lease: int)
    requires Ready(s, p, req)
    ensures var plan, r := Plan(s.db.show, s.db.now), AfterSolo(s, p, req);
            var t := Locked(s, p, req, Commit(req, lease, plan));
            Do(t, Advance(p)) ==
              State(s.cfg, t.db.(show := r.db.show), s.procs[p := Save(req, lease, plan)], r.log, s.claims)
  {
    SoloChecks(s, p, req);
    SetTwice(s.procs, p, Commit(req, lease, Plan(s.db.show, s.db.now)), Save(req, lease, Plan(s.db.show, s.db.now)));
  }

  lemma SoloSave(s: State, p: nat, req: Request, lease: int, t: State)
    requires Ready(s, p, req) && p in t.procs && t.procs[p] == Save(req, lease, Plan(s.db.show, s.db.now))
    requires t.db.bookings == s.db.bookings && t.cfg == s.cfg && t.procs == s.procs[p := t.procs[p]]
    ensures var b := SoloBooking(s, p, req);
            Do(t, Advance(p)) == State(t.cfg, t.db.(bookings := s.db.bookings + [b]), s.procs[p := Unlock(req, lease, Created(b))], t.log, t.claims)
  {
    SoloChecks(s, p, req);
    SetTwice(s.procs, p, t.procs[p], Unlock(req, lease, Created(SoloBooking(s, p, req))));
  }

  lemma SoloUnlock(s: State, p: nat, req: Request, lease: int, t: State)
    requires p in t.procs && t.procs[p].Unlock? && t.procs[p].req == req && t.procs == s.procs[p := t.procs[p]]
    requires t.db.leases == s.db.leases[LockKeyOf(req) := Lease(p, lease)] && t.db.now < lease
    ensures Do(t, Advance(p)) ==
              t.(db := t.db.(leases := s.db.leases - {LockKeyOf(req)}), procs := s.procs[p := Done(t.procs[p].result)])
  {
    SetTwice(s.procs, p, t.procs[p], Done(t.procs[p].result));
    assert t.db.leases - {LockKeyOf(req)} == s.db.leases - {LockKeyOf(req)};
  }

  lemma RunStep(s: State, p: nat, n: nat, t: State)
    requires n > 0 && Do(s, Advance(p)) == t
    ensures Run(s, p, n) == Run(t, p, n - 1)
  {
  }

  lemma SoloLock(s: State, p: nat, req: Request, n: nat)
    requires Ready(s, p, req) && n >= 2
    ensures Run(Do(s, StartCreate(p, req)), p, n) == Run(Locked(s, p, req, Read(req, s.db.now + s.cfg.LeaseMs())), p, n - 2)
  {
    SoloLookup(s, p, req);
    SoloAcquire(s, p, req);
    RunStep(Do(s, StartCreate(p, req)), p, n, SetProc(s, p, Acquire(req)));
    RunStep(SetProc(s, p, Acquire(req)), p, n - 1, Locked(s, p, req, Read(req, s.db.now + s.cfg.LeaseMs())));
  }

  lemma SoloTest(s: State, p: nat, req: Request, lease: int, n: nat)
    requires Ready(s, p, req) && n >= 2
    ensures Run(Locked(s, p, req, Read(req, lease)), p, n) ==
              Run(Locked(s, p, req, Commit(req, lease, Plan(s.db.show, s.db.now))), p, n - 2)
  {
    SoloRead(s, p, req, lease);
    SoloCheck(s, p, req, lease);
    RunStep(Locked(s, p, req, Read(req, lease)), p, n, Locked(s, p, req, Check(req, lease, s.db.show)));
    RunStep(Locked(s, p, req, Check(req, lease, s.db.show)), p, n - 1, Locked(s, p, req, Commit(req, lease, Plan(s.db.show, s.db.now))));
  }

  lemma SoloEnd(s: State, p: nat, req: Request, t: State, n: nat)
    requires Ready(s, p, req) && n >= 3
    requires t == Locked(s, p, req, Commit(req, s.db.now + s.cfg.LeaseMs(), Plan(s.db.show, s.db.now)))
    ensures Run(t, p, n) == AfterSolo(s, p, req)
  {
    var lease := s.db.now + s.cfg.LeaseMs();
    var t1 := Do(t, Advance(p));
    var t2 := Do(t1, Advance(p));
    SoloCommit(s, p, req, lease);
    SoloSave(s, p, req, lease, t1);
    SoloUnlock(s, p, req, lease, t2);
    RunStep(t, p, n, t1);
    RunStep(t1, p, n - 1, t2);
    RunStep(t2, p, n - 2, Do(t2, Advance(p)));
    RunDone(AfterSolo(s, p, req), p, n - 3);
  }

  lemma SoloToCommit(s: State, p: nat, req: Request, lease: int, n: nat)
    requires Ready(s, p, req) && n >= 4 && lease == s.db.now + s.cfg.LeaseMs()
    ensures Run(Do(s, StartCreate(p, req)), p, n) == Run(Locked(s, p, req, Commit(req, lease, Plan(s.db.show, s.db.now))), p, n - 4)
  {
    SoloLock(s, p, req, n);
    SoloTest(s, p, req, lease, n - 2);
  }

  lemma SoloCommitted(s: State, p: nat, req: Request, lease: int, n: nat)
    requires Ready(s, p, req) && n >= 3 && lease == s.db.now + s.cfg.LeaseMs()
    ensures Run(Locked(s, p, req, Commit(req, lease, Plan(s.db.show, s.db.now))), p, n) == AfterSolo(s, p, req)
  {
    SoloEnd(s, p, req, Locked(s, p, req, Commit(req, lease, Plan(s.db.show, s.db.now))), n);
  }

  lemma SoloRun(s: State, p: nat, req: Request, lease: int, n: nat)
    requires Ready(s, p, req) && n >= CALL_STEPS && lease == s.db.now + s.cfg.LeaseMs()
    ensures Run(Do(s, StartCreate(p, req)), p, n) == AfterSolo(s, p, req)
  {
    assert Run(Do(s, StartCreate(p, req)), p, n) ==
           Run(Locked(s, p, req, Commit(req, lease, Plan(s.db.show, s.db.now))), p, n - 4) by {
      SoloToCommit(s, p, req, lease, n);
    }
    SoloCommitted(s, p, req, lease, n - 4);
  }

  lemma SoloIsRun(s: State, p: nat, req: Request, n: nat)
    ensures Exec(s, Solo(p, req, n)) == Run(Do(s, StartCreate(p, req)), p, n)
  {
    ExecCons(s, StartCreate(p, req), Repeat(Advance(p), n));
    ExecRepeat(Do(s, StartCreate(p, req)), p, n);
  }

  /** An undisturbed call in a ready state succeeds, and this is all it changes. */
  lemma SoloSucceeds(s: State, p: nat, req: Request, n: nat)
    requires Ready(s, p, req) && n >= CALL_STEPS
    ensures Exec(s, Solo(p, req, n)) == AfterSolo(s, p, req)
  {
    SoloIsRun(s, p, req, n);
    SoloRun(s, p, req, s.db.now + s.cfg.LeaseMs(), n);
  }

  /** A seat shown as reserved carries the end of a logged reservation by the same booking. */
  lemma {:induction false} HolderIsLogged(first: Show, log: seq<Op>, i: nat)
    requires i < |first.seats| && first.seats[i].status != Reserved
    ensures |Replay(first, log).seats| == |first.seats|
    ensures var seat := Replay(first, log).seats[i];
            seat.status == Reserved ==>
              && seat.reservedBy.Some? && seat.reservedUntil.Some?
              && exists k :: 0 <= k < |log| && log[k].Reserve? && log[k].bookingId == seat.reservedBy.value
                             && log[k].until == seat.reservedUntil.value
  {
    if log != [] {
      var past, op := log[..|log| - 1], log[|log| - 1];
      ReplayFrame(first, past);
      HolderIsLogged(first, past, i);
      var seat := Replay(first, log).seats[i];
      if seat.status == Reserved && seat.seatId !in op.ids {
        var k :| 0 <= k < |past| && past[k].Reserve? && past[k].bookingId == seat.reservedBy.value && past[k].until == seat.reservedUntil.value;
        assert log[k] == past[k];
      }
    }
  }

  /** In a reachable state no hold reaches further than one hold time ahead. */
  lemma HoldsBounded(s: State, i: nat)
    requires Inv(s) && i < |s.cfg.first.seats| && s.cfg.first.seats[i].status != Reserved
    ensures |s.db.show.seats| == |s.cfg.first.seats|
    ensures var seat := s.db.show.seats[i];
            seat.status == Reserved ==> seat.reservedUntil.Some? && seat.reservedUntil.value <= s.db.now + s.cfg.holdMinutes * 60000
  {
    HolderIsLogged(s.cfg.first, s.log, i);
    var seat := s.db.show.seats[i];
    if seat.status == Reserved {
      var k :| 0 <= k < |s.log| && s.log[k].Reserve? && s.log[k].until == seat.reservedUntil.value;
      ValidPrefix(s.cfg.first, s.cfg.HoldMs(), s.log, k);
    }
  }

  /** A fresh request for one to ten distinct existing seats, none booked or under maintenance,
      of the active show, which starts only after the wait. */
  ghost predicate Bookable(t: State, wait: nat, p: nat, req: Request) {
    && p !in t.procs && FindByKey(t.db.bookings, req.idempotencyKey).None?
    && t.db.show.isActive && t.db.show.showId == req.showId && t.db.show.showTime > t.db.now + wait
    && Distinct(req.seatIds) && 1 <= |req.seatIds| <= 10
    && SetOf(req.seatIds) <= IdsOf(t.db.show.seats)
    && forall i :: 0 <= i < |t.db.show.seats| && t.db.show.seats[i].seatId in SetOf(req.seatIds) ==>
         t.db.show.seats[i].status == Available || t.db.show.seats[i].status == Reserved
  }

  lemma AfterWaitReady(s: State, acts: seq<Action>, wait: nat, p: nat, req: Request)
    requires Init(s) && wait >= (s.cfg.holdMinutes * 60 + 30) * 1000 && Bookable(Exec(s, acts), wait, p, req)
    ensures Ready(Do(Exec(s, acts), Tick(wait)), p, req)
  {
    var t := Exec(s, acts);
    InvAlways(s, acts);
    ConfigFixed(s, acts);
    LeaseAlways(s, acts);
    ReplayFrame(t.cfg.first, t.log);
    LengthTestIsFullCheck(t.db.show.seats, req.seatIds);
    forall i | 0 <= i < |t.db.show.seats| && t.db.show.seats[i].seatId in SetOf(req.seatIds)
      ensures !Blocked(t.db.show.seats[i], t.db.now + wait)
    {
      HoldsBounded(t, i);
    }
  }

  /** The call created its booking: it is stored under the request's key for exactly the requested
      seats, and the show holds those seats for it for one hold time. */
  ghost predicate Succeeded(u: State, p: nat, req: Request) {
    && p in u.procs && u.procs[p].Done? && u.procs[p].result.Created?
    && var b := u.procs[p].result.booking;
    && b in u.db.bookings && b.status == Pending && b.idempotencyKey == req.idempotencyKey
    && LineIds(b.lines) == SetOf(req.seatIds)
    && forall i :: 0 <= i < |u.db.show.seats| && u.db.show.seats[i].seatId in SetOf(req.seatIds) ==>
         && u.db.show.seats[i].status == Reserved && u.db.show.seats[i].reservedBy == Some(b.bookingId)
         && u.db.show.seats[i].reservedUntil == Some(b.expiresAt) && b.expiresAt == u.db.now + u.cfg.holdMinutes * 60000
  }

  lemma AfterSoloSucceeded(s: State, p: nat, req: Request)
    requires Ready(s, p, req) && UniqueIds(s.db.show.seats)
    ensures Succeeded(AfterSolo(s, p, req), p, req)
  {
    LengthTestIsFullCheck(s.db.show.seats, req.seatIds);
    LineIdsOf(Selected(s.db.show.seats, SetOf(req.seatIds)));
    assert AfterSolo(s, p, req).db.bookings[|s.db.bookings|] == SoloBooking(s, p, req);
  }

  /** From any reachable state, whatever leases, orphan reservations and half-done expiries crashed
      processes left: if nobody moves for `SEAT_HOLD_MINUTES * 60 + 30` seconds, the call succeeds. */
  lemma BoundedRecovery(s: State, acts: seq<Action>, wait: nat, p: nat, req: Request, n: nat)
    requires Init(s) && wait >= (s.cfg.holdMinutes * 60 + 30) * 1000 && Bookable(Exec(s, acts), wait, p, req) && n >= CALL_STEPS
    ensures Succeeded(Exec(s, acts + [Tick(wait)] + Solo(p, req, n)), p, req)
  {
    var t := Exec(s, acts);
    var w := Do(t, Tick(wait));
    ExecStep(s, acts, Tick(wait));
    ExecAppend(s, acts + [Tick(wait)], Solo(p, req, n));
    AfterWaitReady(s, acts, wait, p, req);
    SoloSucceeds(w, p, req, n);
    assert UniqueIds(w.db.show.seats) by {
      InvAlways(s, acts);
      ReplayFrame(t.cfg.first, t.log);
    }
    AfterSoloSucceeded(w, p, req);
  }
}
