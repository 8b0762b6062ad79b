/** Idempotency keys over all runs, and what the loser of a race leaves behind. */
module Idempotency {
  import opened Options
  import opened Seats
  import opened History
  import opened Protocol
  import opened Refinement
  import opened Safety
  import opened Exclusive
  import opened Recovery

  // ---------------------------------------------------------------- the stores only grow

  lemma CreatingExtends(s: State, p: nat)
    requires p in s.procs && Creating(s.procs[p])
    ensures Extends(s, Step(s, p))
  {
  }

  lemma StepExtends(s: State, p: nat)
    requires p in s.procs
    ensures Extends(s, Step(s, p))
  {
    if Creating(s.procs[p]) { CreatingExtends(s, p); }
  }

  lemma DoExtends(s: State, a: Action)
    ensures Extends(s, Do(s, a))
  {
    if a.Advance? && a.p in s.procs { StepExtends(s, a.p); }
  }

  lemma ExtendsTransitive(s: State, t: State, u: State)
    requires Extends(s, t) && Extends(t, u)
    ensures Extends(s, u)
  {
    forall j | 0 <= j < |s.db.bookings|
      ensures Same(u.db.bookings[j], s.db.bookings[j])
      ensures s.db.bookings[j].status != Pending ==> u.db.bookings[j].status != Pending
    {
      assert Same(t.db.bookings[j], s.db.bookings[j]);
      assert Same(u.db.bookings[j], t.db.bookings[j]);
    }
  }

  lemma {:induction false} ExecExtends(s: State, acts: seq<Action>)
    ensures Extends(s, Exec(s, acts))
  {
    if acts != [] {
      var before := Exec(s, acts[..|acts| - 1]);
      ExecExtends(s, acts[..|acts| - 1]);
      DoExtends(before, acts[|acts| - 1]);
      ExtendsTransitive(s, before, Exec(s, acts));
    }
  }

  // ---------------------------------------------------------------- one booking per key

  /** At most one booking document ever exists per idempotency key, and it keeps its id, seats
      and amounts for ever. */
  lemma OneBookingPerKey(s: State, acts: seq<Action>, more: seq<Action>, i: nat)
    requires Init(s) && i < |Exec(s, acts).db.bookings|
    ensures var t, u := Exec(s, acts), Exec(s, acts + more);
            var b := t.db.bookings[i];
            && FindByKey(u.db.bookings, b.idempotencyKey).Some?
            && Same(FindByKey(u.db.bookings, b.idempotencyKey).value, b)
            && forall j :: 0 <= j < |u.db.bookings| && u.db.bookings[j].idempotencyKey == b.idempotencyKey ==> j == i
  {
    var t, u := Exec(s, acts), Exec(s, acts + more);
    var b := t.db.bookings[i];
    ExecAppend(s, acts, more);
    ExecExtends(t, more);
    SameFields(u.db.bookings[i], b);
    InvAlways(s, acts + more);
    FindByKeySound(u.db.bookings, b.idempotencyKey);
    var r := FindByKey(u.db.bookings, b.idempotencyKey).value;
    var k :| 0 <= k < |u.db.bookings| && u.db.bookings[k] == r;
    assert k == i;
  }

  /** A call whose key already has a booking is at its lookup, or has replayed that booking, or
      has failed or crashed at the lookup; it never gets near the lock or the show. */
  ghost predicate Replaying(s: State, p: nat, req: Request, b: Booking) {
    && p in s.procs
    && match s.procs[p]
       case Lookup(r) => r == req
       case Done(Replayed(c)) => Same(c, b)
       case Done(Rejected(e)) => e == StoreFailure
       case Crashed => true
       case _ => false
  }

  lemma LookupReplays(s: State, p: nat, req: Request, b: Booking)
    requires BookingsOk(s) && Known(s, b) && req.idempotencyKey == b.idempotencyKey && p in s.procs && s.procs[p] == Lookup(req)
    ensures Replaying(Do(s, Advance(p)), p, req, b) && Do(s, Advance(p)).db == s.db
  {
    var j :| 0 <= j < |s.db.bookings| && Same(s.db.bookings[j], b);
    SameFields(s.db.bookings[j], b);
    FindByKeySound(s.db.bookings, req.idempotencyKey);
    var r := FindByKey(s.db.bookings, req.idempotencyKey).value;
    var k :| 0 <= k < |s.db.bookings| && s.db.bookings[k] == r;
    assert k == j;
  }

  lemma ReplayStep(s: State, a: Action, p: nat, req: Request, b: Booking)
    requires Inv(s) && Replaying(s, p, req, b) && req.idempotencyKey == b.idempotencyKey && Known(s, b)
    ensures Replaying(Do(s, a), p, req, b)
    ensures (a == Advance(p) || a == Fail(p) || a == Crash(p)) ==> Do(s, a).db == s.db
  {
    if a == Advance(p) && s.procs[p].Lookup? {
      LookupReplays(s, p, req, b);
    } else {
      OthersStay(s, a, p);
    }
  }

  predicate Creating(q: Proc) { q.Lookup? || q.Acquire? || InCritical(q) }

  ghost predicate OwnMove(s: State, t: State, q: nat) {
    q in t.procs && t.procs == s.procs[q := t.procs[q]]
  }

  lemma CreatingIsOwn(s: State, q: nat)
    requires q in s.procs && Creating(s.procs[q])
    ensures OwnMove(s, Step(s, q), q)
  {
  }

  lemma OtherIsOwn(s: State, q: nat)
    requires q in s.procs && !Creating(s.procs[q])
    ensures OwnMove(s, Step(s, q), q)
    ensures s.procs[q].Done? || s.procs[q].Crashed? ==> Step(s, q) == s
  {
  }

  lemma OtherStepStays(s: State, q: nat, p: nat)
    requires p in s.procs && q in s.procs
    requires q != p || s.procs[p].Done? || s.procs[p].Crashed?
    ensures p in Step(s, q).procs && Step(s, q).procs[p] == s.procs[p]
    ensures q == p ==> Step(s, q) == s
  {
    if Creating(s.procs[q]) { CreatingIsOwn(s, q); } else { OtherIsOwn(s, q); }
  }

  /** A process that is finished, or that the action is not about, stays where it is. */
  lemma OthersStay(s: State, a: Action, p: nat)
    requires p in s.procs
    requires !(a == Advance(p) && !s.procs[p].Done? && !s.procs[p].Crashed?)
    ensures p in Do(s, a).procs
    ensures Do(s, a).procs[p] == s.procs[p]
            || (a == Fail(p) && Do(s, a).procs[p] == AfterFailure(s.procs[p]))
            || (a == Crash(p) && Do(s, a).procs[p] == Crashed)
            || (a.FindBatch? && a.p == p && s.procs[p].ExpiryFind?)
    ensures (a == Advance(p) || a == Fail(p) || a == Crash(p)) ==> Do(s, a).db == s.db
  {
    if a.Advance? && a.p in s.procs { OtherStepStays(s, a.p, p); }
  }

  lemma {:induction false} ReplayRun(t: State, more: seq<Action>, p: nat, req: Request, b: Booking)
    requires Inv(t) && Replaying(t, p, req, b) && req.idempotencyKey == b.idempotencyKey && Known(t, b)
    ensures Inv(Exec(t, more)) && Known(Exec(t, more), b) && Replaying(Exec(t, more), p, req, b)
  {
    if more != [] {
      var before, a := more[..|more| - 1], more[|more| - 1];
      var u := Exec(t, before);
      ReplayRun(t, before, p, req, b);
      DoKeeps(u, a);
      DoExtends(u, a);
      KnownExtends(u, Do(u, a), b);
      ReplayStep(u, a, p, req, b);
    }
  }

  /** Once a key has a booking, every later call with that key that passes the seat-count check can
      only return that booking, and no step it takes touches the show, the locks or the bookings. */
  lemma LaterCallsReplay(s: State, acts: seq<Action>, p: nat, req: Request, more: seq<Action>, b: Booking)
    requires Init(s) && b in Exec(s, acts).db.bookings && req.idempotencyKey == b.idempotencyKey
    requires p !in Exec(s, acts).procs && |req.seatIds| <= 10
    ensures var u := Exec(s, acts + [StartCreate(p, req)] + more);
            && Replaying(u, p, req, b)
            && Do(u, Advance(p)).db == u.db && Do(u, Fail(p)).db == u.db && Do(u, Crash(p)).db == u.db
            && (u.procs[p].Lookup? ==> exists c :: Same(c, b) && Do(u, Advance(p)).procs[p] == Done(Replayed(c)))
  {
    var t, start := Exec(s, acts), acts + [StartCreate(p, req)];
    ExecStep(s, acts, StartCreate(p, req));
    ExecAppend(s, start, more);
    InvAlways(s, start);
    StoredIsKnown(t, b);
    ReplayRun(Exec(s, start), more, p, req, b);
    var u := Exec(s, start + more);
    ReplayStep(u, Advance(p), p, req, b);
    ReplayStep(u, Fail(p), p, req, b);
    ReplayStep(u, Crash(p), p, req, b);
    if u.procs[p].Lookup? {
      ReplayFound(u, p, req, b);
    }
  }

  lemma ReplayFound(u: State, p: nat, req: Request, b: Booking)
    requires Replaying(Do(u, Advance(p)), p, req, b) && p in u.procs && u.procs[p] == Lookup(req)
    ensures exists c :: Same(c, b) && Do(u, Advance(p)).procs[p] == Done(Replayed(c))
  {
    var r := Do(u, Advance(p)).procs[p].result;
    assert Same(r.booking, b) && Do(u, Advance(p)).procs[p] == Done(Replayed(r.booking));
  }

  // ---------------------------------------------------------------- orphans

  /** `p` committed a reservation but no booking document carries its id, and none will. */
  ghost predicate Orphan(s: State, p: nat) {
    && p in s.procs && AfterSave(s.procs[p])
    && ReservedIn(s.log, p) && !ReleasedIn(s.log, p)
    && forall j :: 0 <= j < |s.db.bookings| ==> s.db.bookings[j].bookingId != p
  }

  lemma AfterSaveStays(s: State, a: Action, p: nat)
    requires p in s.procs && AfterSave(s.procs[p])
    ensures p in Do(s, a).procs && AfterSave(Do(s, a).procs[p])
  {
    if a != Advance(p) || s.procs[p].Done? || s.procs[p].Crashed? { OthersStay(s, a, p); }
  }

  lemma OrphanBookings(s: State, a: Action, p: nat)
    requires Orphan(s, p)
    ensures forall j :: 0 <= j < |Do(s, a).db.bookings| ==> Do(s, a).db.bookings[j].bookingId != p
  {
    if a.Advance? && a.p in s.procs && s.procs[a.p].Save? { assert a.p != p; } else { BookingIdsStay(s, a); }
  }

  lemma BookingIdsStay(s: State, a: Action)
    requires !(a.Advance? && a.p in s.procs && s.procs[a.p].Save?)
    ensures var t := Do(s, a);
            |t.db.bookings| == |s.db.bookings| &&
            forall j :: 0 <= j < |s.db.bookings| ==> t.db.bookings[j].bookingId == s.db.bookings[j].bookingId
  {
  }

  lemma OrphanLog(s: State, a: Action, p: nat)
    requires Inv(s) && Orphan(s, p)
    ensures !ReleasedIn(Do(s, a).log, p)
  {
    if IsRelease(s, a) {
      assert Releasing(s.procs[a.p]).value.bookingId != p by { ReleasedIsStored(s, a.p); }
      OtherReleased(s, a, p);
    } else {
      NoReleaseLogged(s, a, p);
    }
  }

  lemma OtherReleased(s: State, a: Action, p: nat)
    requires IsRelease(s, a) && Releasing(s.procs[a.p]).value.bookingId != p && !ReleasedIn(s.log, p)
    ensures !ReleasedIn(Do(s, a).log, p)
  {
    var t := Do(s, a);
    assert forall k :: 0 <= k < |s.log| ==> t.log[k] == s.log[k];
  }

  lemma NoReleaseLogged(s: State, a: Action, p: nat)
    requires !IsRelease(s, a) && !ReleasedIn(s.log, p)
    ensures !ReleasedIn(Do(s, a).log, p)
  {
    var t := Do(s, a);
    assert t.log == s.log || (|t.log| == |s.log| + 1 && t.log[..|s.log|] == s.log && t.log[|s.log|].Reserve?);
    if t.log != s.log {
      assert forall k :: 0 <= k < |s.log| ==> t.log[k] == t.log[..|s.log|][k];
    }
  }

  lemma {:induction false} OrphanRun(t: State, more: seq<Action>, p: nat)
    requires Inv(t) && Orphan(t, p)
    ensures Inv(Exec(t, more)) && Orphan(Exec(t, more), p)
  {
    if more != [] {
      var before, a := more[..|more| - 1], more[|more| - 1];
      var u := Exec(t, before);
      OrphanRun(t, before, p);
      DoKeeps(u, a);
      AfterSaveStays(u, a, p);
      OrphanBookings(u, a, p);
      OrphanLog(u, a, p);
      DoExtends(u, a);
      assert forall k :: 0 <= k < |u.log| ==> Do(u, a).log[k] == u.log[k];
    }
  }

  /** If seat `i` shows a hold by `p`, it ends one hold time after the `now` of a commit by `p`. */
  ghost predicate HeldForOneHold(show: Show, hold: nat, log: seq<Op>, p: nat, i: nat) {
    && i < |show.seats|
    && (show.seats[i].status == Reserved && show.seats[i].reservedBy == Some(p) ==>
          exists k :: 0 <= k < |log| && log[k].Reserve? && log[k].bookingId == p
                      && show.seats[i].reservedUntil == Some(log[k].at + hold))
  }

  lemma LoggedHold(first: Show, hold: nat, log: seq<Op>, p: nat, i: nat)
    requires Valid(first, hold, log) && i < |first.seats| && first.seats[i].status != Reserved
    ensures HeldForOneHold(Replay(first, log), hold, log, p, i)
  {
    HolderIsLogged(first, log, i);
    var seat := Replay(first, log).seats[i];
    if seat.status == Reserved && seat.reservedBy == Some(p) {
      var k :| 0 <= k < |log| && log[k].Reserve? && log[k].bookingId == p && log[k].until == seat.reservedUntil.value;
      ValidPrefix(first, hold, log, k);
    }
  }

  /** No worker, cancel or later call ever releases an orphan reservation: the seats it still shows
      come free only by its hold lapsing. */
  lemma OrphanOnlyLapses(s: State, acts: seq<Action>, more: seq<Action>, p: nat, i: nat)
    requires Init(s) && Orphan(Exec(s, acts), p) && i < |s.cfg.first.seats|
    ensures var u := Exec(s, acts + more);
            Orphan(u, p) && HeldForOneHold(u.db.show, s.cfg.HoldMs(), u.log, p, i)
  {
    var u := Exec(s, acts + more);
    assert Orphan(u, p) by {
      ExecAppend(s, acts, more);
      InvAlways(s, acts);
      OrphanRun(Exec(s, acts), more, p);
    }
    RunsRefine(s, acts + more);
    LoggedHold(s.cfg.first, s.cfg.HoldMs(), u.log, p, i);
  }

  /** A release in the log is of a booking that exists. */
  ghost predicate ReleasesStored(s: State) {
    forall k :: 0 <= k < |s.log| && s.log[k].Release? ==> Stored(s, s.log[k].bookingId)
  }

  ghost predicate Stored(s: State, id: nat) {
    exists j :: 0 <= j < |s.db.bookings| && s.db.bookings[j].bookingId == id
  }

  lemma StoredExtends(s: State, t: State, id: nat)
    requires Extends(s, t) && Stored(s, id)
    ensures Stored(t, id)
  {
    var j :| 0 <= j < |s.db.bookings| && s.db.bookings[j].bookingId == id;
    SameFields(t.db.bookings[j], s.db.bookings[j]);
  }

  lemma ReleaseLogged(s: State, a: Action, id: nat)
    requires IsRelease(s, a) && !ReleasedIn(s.log, id) && ReleasedIn(Do(s, a).log, id)
    ensures id == Releasing(s.procs[a.p]).value.bookingId
  {
    if id != Releasing(s.procs[a.p]).value.bookingId { OtherReleased(s, a, id); }
  }

  lemma StoredStep(s: State, a: Action)
    requires ReleasesStored(s) && (IsRelease(s, a) ==> Stored(s, Releasing(s.procs[a.p]).value.bookingId))
    ensures ReleasesStored(Do(s, a))
  {
    var t := Do(s, a);
    DoExtends(s, a);
    forall k | 0 <= k < |t.log| && t.log[k].Release? ensures Stored(t, t.log[k].bookingId) {
      var id := t.log[k].bookingId;
      if !Stored(s, id) {
        assert !ReleasedIn(s.log, id);
        if IsRelease(s, a) { ReleaseLogged(s, a, id); } else { NoReleaseLogged(s, a, id); }
      } else {
        StoredExtends(s, t, id);
      }
    }
  }

  lemma ReleasedIsStored(s: State, p: nat)
    requires Inv(s) && p in s.procs && Releasing(s.procs[p]).Some?
    ensures Stored(s, Releasing(s.procs[p]).value.bookingId)
  {
    var r := Releasing(s.procs[p]).value;
    ReleasedNotLive(s, p, r, {}, 0);
    var j :| 0 <= j < |s.db.bookings| && Same(s.db.bookings[j], r);
    SameFields(s.db.bookings[j], r);
  }

  lemma {:induction false} ReleasesStoredAlways(s: State, acts: seq<Action>)
    requires Init(s)
    ensures ReleasesStored(Exec(s, acts))
  {
    if acts != [] {
      ReleasesStoredAlways(s, acts[..|acts| - 1]);
      if IsRelease(Exec(s, acts[..|acts| - 1]), acts[|acts| - 1]) {
        InvAlways(s, acts[..|acts| - 1]);
        ReleasedIsStored(Exec(s, acts[..|acts| - 1]), acts[|acts| - 1].p);
      }
      StoredStep(Exec(s, acts[..|acts| - 1]), acts[|acts| - 1]);
    }
  }

  lemma SavingIsOrphaned(t: State, p: nat)
    requires Inv(t) && ReleasesStored(t) && p in t.procs && t.procs[p].Save?
    ensures !Stored(t, p) && !ReleasedIn(t.log, p) && ReservedIn(t.log, p)
  {
    assert ProcOk(t, p, t.procs[p]);
    forall j | 0 <= j < |t.db.bookings| ensures t.db.bookings[j].bookingId != p {
      assert BookingOk(t, t.db.bookings[j]);
    }
  }

  lemma BecomesOrphan(t: State, u: State, p: nat)
    requires !Stored(t, p) && !ReleasedIn(t.log, p) && ReservedIn(t.log, p)
    requires u.db.bookings == t.db.bookings && u.log == t.log && p in u.procs && AfterSave(u.procs[p])
    ensures Orphan(u, p)
  {
  }

  /** The loser of a race on one key: its insert changes nothing, and its reservation is an orphan. */
  lemma LoserIsOrphan(s: State, acts: seq<Action>, p: nat)
    requires Init(s)
    requires var t := Exec(s, acts);
             p in t.procs && t.procs[p].Save? && FindByKey(t.db.bookings, t.procs[p].req.idempotencyKey).Some?
    ensures var t := Exec(s, acts);
            var u := Do(t, Advance(p));
            && u.db == t.db && u.log == t.log
            && u.procs[p] == Unlock(t.procs[p].req, t.procs[p].lease, Rejected(SaveFailed))
            && Orphan(u, p)
  {
    var t := Exec(s, acts);
    SavingUnstored(s, acts, p);
    BecomesOrphan(t, Do(t, Advance(p)), p);
  }

  /** A process that crashes or fails between its commit and its insert leaves an orphan too. */
  lemma CrashLeavesOrphan(s: State, acts: seq<Action>, p: nat)
    requires Init(s)
    requires var t := Exec(s, acts); p in t.procs && t.procs[p].Save?
    ensures Orphan(Do(Exec(s, acts), Crash(p)), p) && Orphan(Do(Exec(s, acts), Fail(p)), p)
  {
    SavingUnstored(s, acts, p);
    NeverSaved(Exec(s, acts), p);
  }

  lemma SavingUnstored(s: State, acts: seq<Action>, p: nat)
    requires Init(s) && p in Exec(s, acts).procs && Exec(s, acts).procs[p].Save?
    ensures var t := Exec(s, acts); !Stored(t, p) && !ReleasedIn(t.log, p) && ReservedIn(t.log, p)
  {
    InvAlways(s, acts);
    ReleasesStoredAlways(s, acts);
    SavingIsOrphaned(Exec(s, acts), p);
  }

  lemma NeverSaved(t: State, p: nat)
    requires p in t.procs && t.procs[p].Save? && !Stored(t, p) && !ReleasedIn(t.log, p) && ReservedIn(t.log, p)
    ensures Orphan(Do(t, Crash(p)), p) && Orphan(Do(t, Fail(p)), p)
  {
    BecomesOrphan(t, Do(t, Crash(p)), p);
    BecomesOrphan(t, Do(t, Fail(p)), p);
  }
}
