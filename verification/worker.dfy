/** The expiry worker as an object with its `isRunning` flag, its batch loop and its per-booking
    error handling. */
module Worker {
  import opened Options
  import opened Seats
  import opened Protocol
  import opened Recovery
  import opened Expiry
  import opened Service
  import opened Outcomes
  import Refinement

  /** Which call of one loop iteration throws. */
  datatype Fault = FlipThrows | ReleaseThrows | PublishThrows

  /** The actions one worker process can take. */
  predicate OfWorker(a: Action, p: nat) {
    a == StartExpiry(p) || a == Advance(p) || a == Fail(p) || (a.FindBatch? && a.p == p)
  }

  lemma StoredPending(bookings: seq<Booking>, k: nat)
    requires UniqueBookings(bookings) && k < |bookings| && bookings[k].status == Pending
    ensures FindById(bookings, bookings[k].bookingId) == Some(bookings[k])
  {
    Refinement.FindByIdSound(bookings, bookings[k].bookingId);
  }

  /** The next booking of the batch is still stored as found when only this worker writes. */
  lemma StillPending(db: Db, at: int, batch: seq<Booking>, i: nat)
    requires UniqueBookings(db.bookings) && LegalBatch(db.bookings, at, batch) && i < |batch|
    ensures var found := FindById(ExpireAll(db, batch[..i]).bookings, batch[i].bookingId);
            found.Some? && found.value.status == Pending
  {
    var done, after, id := batch[..i], ExpireAll(db, batch[..i]).bookings, batch[i].bookingId;
    ExpireAllBookings(db, done);
    assert batch[i] in db.bookings;
    var k :| 0 <= k < |db.bookings| && db.bookings[k] == batch[i];
    assert id !in BatchIds(done);
    StoredPending(after, k);
  }

  /** One iteration: the stores after it, and whether the booking counts as succeeded or failed;
      `None` is the skip of a booking another worker already took. */
  function Iteration(db: Db, b: Booking, fault: Option<Fault>): (Db, Option<bool>) {
    var found := FindById(db.bookings, b.bookingId);
    if fault == Some(FlipThrows) then (db, Some(false))
    else if found.None? || found.value.status != Pending then (db, None)
    else if fault == Some(ReleaseThrows) then (db.(bookings := SetStatus(db.bookings, b.bookingId, Expired)), Some(false))
    else (ExpireOne(db, b), Some(fault != Some(PublishThrows)))
  }

  /** What one iteration leaves: only a booking still pending is expired and its seats freed, and a call
      that throws leaves the later ones undone. */
  ghost predicate IterationOutcome(d: Db, b: Booking, fault: Option<Fault>, e: Db, outcome: Option<bool>) {
    if fault == Some(FlipThrows) then outcome == Some(false) && e == d
    else if !(exists c :: c in d.bookings && c.bookingId == b.bookingId && c.status == Pending) then outcome == None && e == d
    else
      && OnlyStatus(d.bookings, e.bookings, b.bookingId, Expired) && e.now == d.now && e.leases == d.leases
      && if fault == Some(ReleaseThrows) then outcome == Some(false) && e.show == d.show
         else
           && outcome == Some(fault != Some(PublishThrows))
           && Touched(d.show, e.show, LineIds(b.lines), Available, None, None, |b.lines|)
  }

  lemma IterationMeets(d: Db, b: Booking, fault: Option<Fault>)
    requires UniqueBookings(d.bookings)
    ensures var (e, outcome) := Iteration(d, b, fault); IterationOutcome(d, b, fault, e, outcome)
  {
    TheOne(d.bookings, b.bookingId);
    Refinement.FindByIdSound(d.bookings, b.bookingId);
    WriteTouches(d.show, LineIds(b.lines), |b.lines|, 0, 0);
  }

  function FaultAt(faults: map<nat, Fault>, i: nat): Option<Fault> {
    if i in faults then Some(faults[i]) else None
  }

  /** The stores after a batch, and the two counters. */
  function Sweep(db: Db, batch: seq<Booking>, faults: map<nat, Fault>): (Db, nat, nat) {
    if batch == [] then (db, 0, 0)
    else
      var i := |batch| - 1;
      var (past, good, bad) := Sweep(db, batch[..i], faults);
      var (next, outcome) := Iteration(past, batch[i], FaultAt(faults, i));
      (next, if outcome == Some(true) then good + 1 else good, if outcome == Some(false) then bad + 1 else bad)
  }

  lemma ExpireAllSnoc(db: Db, batch: seq<Booking>, i: nat)
    requires i < |batch|
    ensures ExpireAll(db, batch[..i + 1]) == ExpireOne(ExpireAll(db, batch[..i]), batch[i])
  {
    assert batch[..i + 1][..i] == batch[..i];
  }

  lemma SweepNext(db: Db, batch: seq<Booking>, i: nat, faults: map<nat, Fault>,
                  past: Db, good: nat, bad: nat, next: Db, outcome: Option<bool>)
    requires i < |batch| && (past, good, bad) == Sweep(db, batch[..i], faults)
    requires (next, outcome) == Iteration(past, batch[i], FaultAt(faults, i))
    ensures Sweep(db, batch[..i + 1], faults) ==
            (next, if outcome == Some(true) then good + 1 else good, if outcome == Some(false) then bad + 1 else bad)
  {
    assert batch[..i + 1][..i] == batch[..i];
  }

  lemma CleanIteration(db: Db, b: Booking)
    requires var found := FindById(db.bookings, b.bookingId); found.Some? && found.value.status == Pending
    ensures Iteration(db, b, None) == (ExpireOne(db, b), Some(true))
  {
  }

  /** A sweep that meets no failing call, alone on the stores, expires the whole batch. */
  lemma {:induction false} CleanSweep(db: Db, at: int, batch: seq<Booking>, i: nat)
    requires UniqueBookings(db.bookings) && LegalBatch(db.bookings, at, batch) && i <= |batch|
    ensures Sweep(db, batch[..i], map[]) == (ExpireAll(db, batch[..i]), i, 0)
  {
    if i > 0 {
      CleanSweep(db, at, batch, i - 1);
      StillPending(db, at, batch, i - 1);
      CleanIteration(ExpireAll(db, batch[..i - 1]), batch[i - 1]);
      var past := ExpireAll(db, batch[..i - 1]);
      SweepNext(db, batch, i - 1, map[], past, i - 1, 0, ExpireOne(past, batch[i - 1]), Some(true));
      ExpireAllSnoc(db, batch, i - 1);
    }
  }

  /** The worker process `p` of `s` is at `q`. */
  ghost predicate At(s: State, p: nat, q: Proc) {
    p in s.procs && s.procs[p] == q
  }

  ghost predicate AllOfWorker(acts: seq<Action>, p: nat) {
    forall i :: 0 <= i < |acts| ==> OfWorker(acts[i], p)
  }

  /** The loop of a batch, `i` bookings in: where the process stands, and its actions so far. */
  ghost predicate InLoop(s0: State, acts: seq<Action>, p: nat, db: Db, at: int, rest: seq<Booking>) {
    Exec(s0, acts).db == db && At(Exec(s0, acts), p, ExpiryFlip(at, rest)) && AllOfWorker(acts, p)
  }

  lemma InLoopAppend(s0: State, acts: seq<Action>, more: seq<Action>, p: nat, db: Db, at: int, rest: seq<Booking>)
    requires AllOfWorker(acts, p) && InLoop(Exec(s0, acts), more, p, db, at, rest)
    ensures InLoop(s0, acts + more, p, db, at, rest)
  {
    ExecAppend(s0, acts, more);
  }

  lemma SweepEnds(s0: State, acts: seq<Action>, p: nat, db: Db, at: int)
    requires InLoop(s0, acts, p, db, at, [])
    ensures Exec(s0, acts + [Advance(p)]).db == db && AllOfWorker(acts + [Advance(p)], p)
  {
    ExecStep(s0, acts, Advance(p));
  }

  lemma FlipAdvance(s: State, p: nat, at: int, rest: seq<Booking>)
    requires rest != [] && At(s, p, ExpiryFlip(at, rest))
    ensures var t := Exec(s, [Advance(p)]);
            var found := FindById(s.db.bookings, rest[0].bookingId);
            if found.Some? && found.value.status == Pending
            then t.db == s.db.(bookings := SetStatus(s.db.bookings, rest[0].bookingId, Expired)) && At(t, p, ExpiryRelease(at, rest))
            else t.db == s.db && At(t, p, ExpiryFlip(at, rest[1..]))
  {
    ExecStep(s, [], Advance(p));
    assert [] + [Advance(p)] == [Advance(p)];
  }

  lemma ReleaseAdvance(s: State, acts: seq<Action>, p: nat, at: int, rest: seq<Booking>)
    requires rest != [] && At(Exec(s, acts), p, ExpiryRelease(at, rest))
    ensures var t := Exec(s, acts + [Advance(p)]);
            && t.db == Exec(s, acts).db.(show := ReleaseWrite(Exec(s, acts).db.show, LineIds(rest[0].lines), |rest[0].lines|))
            && At(t, p, ExpiryFlip(at, rest[1..]))
  {
    ExecStep(s, acts, Advance(p));
  }

  /** A call that throws leaves the stores alone and moves the loop on. */
  lemma IterationFails(s: State, acts: seq<Action>, p: nat, at: int, rest: seq<Booking>)
    requires rest != [] && (At(Exec(s, acts), p, ExpiryFlip(at, rest)) || At(Exec(s, acts), p, ExpiryRelease(at, rest)))
    ensures var t := Exec(s, acts + [Fail(p)]); t.db == Exec(s, acts).db && At(t, p, ExpiryFlip(at, rest[1..]))
  {
    ExecStep(s, acts, Fail(p));
  }

  /** The protocol's worker process does what one iteration does. */
  lemma IterationRun(s: State, p: nat, at: int, rest: seq<Booking>, fault: Option<Fault>) returns (acts: seq<Action>)
    requires rest != [] && At(s, p, ExpiryFlip(at, rest))
    ensures InLoop(s, acts, p, Iteration(s.db, rest[0], fault).0, at, rest[1..])
  {
    if fault == Some(FlipThrows) {
      assert Exec(s, []) == s;
      IterationFails(s, [], p, at, rest);
      acts := [] + [Fail(p)];
    } else {
      FlipAdvance(s, p, at, rest);
      acts := [Advance(p)];
      if At(Exec(s, acts), p, ExpiryRelease(at, rest)) { acts := AfterFlip(s, p, at, rest, fault); }
    }
  }

  lemma AfterFlip(s: State, p: nat, at: int, rest: seq<Booking>, fault: Option<Fault>) returns (acts: seq<Action>)
    requires rest != [] && At(Exec(s, [Advance(p)]), p, ExpiryRelease(at, rest))
    ensures var flipped := Exec(s, [Advance(p)]).db;
            InLoop(s, acts, p,
                   if fault == Some(ReleaseThrows) then flipped
                   else flipped.(show := ReleaseWrite(flipped.show, LineIds(rest[0].lines), |rest[0].lines|)), at, rest[1..])
  {
    if fault == Some(ReleaseThrows) {
      IterationFails(s, [Advance(p)], p, at, rest);
      acts := [Advance(p)] + [Fail(p)];
    } else {
      ReleaseAdvance(s, [Advance(p)], p, at, rest);
      acts := [Advance(p)] + [Advance(p)];
    }
  }

  /** A tick up to its query, which throws. */
  lemma FindFails(db: Db, p: nat) returns (acts: seq<Action>)
    ensures Exec(Alone(db, 0), acts).db == db && AllOfWorker(acts, p)
  {
    var s0 := Alone(db, 0);
    acts := [StartExpiry(p)] + [Fail(p)];
    ExecOne(s0, StartExpiry(p));
    ExecStep(s0, [StartExpiry(p)], Fail(p));
  }

  /** A tick up to its query, which returns `batch`. */
  lemma FindSucceeds(db: Db, p: nat, batch: seq<Booking>) returns (acts: seq<Action>)
    requires LegalBatch(db.bookings, db.now, batch)
    ensures InLoop(Alone(db, 0), acts, p, db, db.now, batch)
  {
    var s0 := Alone(db, 0);
    acts := [StartExpiry(p)] + [FindBatch(p, batch)];
    ExecOne(s0, StartExpiry(p));
    ExecStep(s0, [StartExpiry(p)], FindBatch(p, batch));
  }

  class ExpiryWorker {
    const db: Stores
    var isRunning: bool

    constructor (db: Stores)
      ensures this.db == db && !isRunning
    {
      this.db, isRunning := db, false;
    }

    /** The batch query, with the collection's own scan: lapsed pending bookings, up to the limit. */
    method FindLapsed(at: int) returns (batch: seq<Booking>)
      requires UniqueBookings(db.bookings)
      ensures LegalBatch(db.bookings, at, batch)
    {
      batch := [];
      var i := 0;
      while i < |db.bookings| && |batch| < BATCH_SIZE
        invariant 0 <= i <= |db.bookings| && |batch| <= BATCH_SIZE
        invariant forall k :: 0 <= k < |batch| ==> batch[k] in db.bookings[..i] && Lapsed(batch[k], at)
        invariant UniqueBookings(batch)
        invariant forall j :: 0 <= j < i && Lapsed(db.bookings[j], at) ==> db.bookings[j] in batch
      {
        assert db.bookings[..i + 1] == db.bookings[..i] + [db.bookings[i]];
        if Lapsed(db.bookings[i], at) { batch := batch + [db.bookings[i]]; }
        i := i + 1;
      }
    }

    /** One tick. Whatever throws, the flag is down again afterwards; the stores end as a run of the
        protocol's worker process; with no failing call the whole batch is expired. A tick that
        finds the flag up does nothing. */
    method RunExpiryWorker(p: nat, findThrows: bool, faults: map<nat, Fault>)
      returns (batch: seq<Booking>, succeeded: nat, failed: nat, ghost acts: seq<Action>)
      requires UniqueBookings(db.bookings)
      modifies db, this
      ensures old(isRunning) ==> isRunning && db.View() == old(db.View()) && acts == [] && batch == []
      ensures !old(isRunning) ==> !isRunning
      ensures db.View() == Exec(Alone(old(db.View()), 0), acts).db
      ensures AllOfWorker(acts, p)
      ensures !old(isRunning) && !findThrows ==> LegalBatch(old(db.bookings), old(db.now), batch)
      ensures !old(isRunning) ==> (db.View(), succeeded, failed) == Sweep(old(db.View()), batch, faults)
      ensures findThrows ==> batch == []
      ensures !old(isRunning) && !findThrows && faults == map[] ==>
                db.View() == ExpireAll(old(db.View()), batch) && succeeded == |batch| && failed == 0
    {
      batch, succeeded, failed, acts := [], 0, 0, [];
      if isRunning { return; }
      isRunning := true;
      var now := db.now;
      ghost var s0 := Alone(db.View(), 0);
      if findThrows {
        acts := FindFails(db.View(), p);
      } else {
        batch := FindLapsed(now);
        acts := FindSucceeds(db.View(), p, batch);
        CleanSweep(db.View(), now, batch, |batch|);
        assert batch[..|batch|] == batch;
        succeeded, failed, acts := ExpireBatch(p, now, batch, faults, s0, acts);
      }
      isRunning := false;
    }

    /** The loop over the batch; every iteration has its own `try`/`catch`. */
    method ExpireBatch(p: nat, at: int, batch: seq<Booking>, faults: map<nat, Fault>, ghost s0: State, ghost start: seq<Action>)
      returns (succeeded: nat, failed: nat, ghost acts: seq<Action>)
      requires InLoop(s0, start, p, db.View(), at, batch)
      modifies db
      ensures db.View() == Exec(s0, acts).db && AllOfWorker(acts, p)
      ensures (db.View(), succeeded, failed) == Sweep(old(db.View()), batch, faults)
    {
      succeeded, failed, acts := 0, 0, start;
      ghost var first := db.View();
      for i := 0 to |batch|
        invariant InLoop(s0, acts, p, db.View(), at, batch[i..])
        invariant (db.View(), succeeded, failed) == Sweep(first, batch[..i], faults)
      {
        assert batch[i..][0] == batch[i] && batch[i..][1..] == batch[i + 1..];
        ghost var past := db.View();
        var outcome;
        outcome, acts := ExpireNext(p, at, batch[i..], FaultAt(faults, i), s0, acts);
        SweepNext(first, batch, i, faults, past, succeeded, failed, db.View(), outcome);
        if outcome == Some(true) { succeeded := succeeded + 1; }
        if outcome == Some(false) { failed := failed + 1; }
      }
      assert batch[..|batch|] == batch;
      SweepEnds(s0, acts, p, db.View(), at);
      acts := acts + [Advance(p)];
    }

    /** One iteration: guarded flip, release, publish. */
    method ExpireNext(p: nat, at: int, rest: seq<Booking>, fault: Option<Fault>, ghost s0: State, ghost start: seq<Action>)
      returns (outcome: Option<bool>, ghost acts: seq<Action>)
      requires rest != [] && InLoop(s0, start, p, db.View(), at, rest)
      modifies db
      ensures InLoop(s0, acts, p, db.View(), at, rest[1..])
      ensures (db.View(), outcome) == Iteration(old(db.View()), rest[0], fault)
    {
      var booking := rest[0];
      ghost var next := IterationRun(Exec(s0, start), p, at, rest, fault);
      acts := start + next;
      InLoopAppend(s0, start, next, p, Iteration(db.View(), booking, fault).0, at, rest[1..]);
      if fault == Some(FlipThrows) { return Some(false), acts; }
      var found := FindById(db.bookings, booking.bookingId);
      if found.None? || found.value.status != Pending { return None, acts; }
      db.bookings := SetStatus(db.bookings, booking.bookingId, Expired);
      if fault == Some(ReleaseThrows) { return Some(false), acts; }
      db.ReleaseSeats(booking);
      outcome := Some(fault != Some(PublishThrows));
    }
  }
}
