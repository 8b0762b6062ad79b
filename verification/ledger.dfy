/** The ledger: each booking leaves pending once, each reservation is released once, and the
    counter is the room less the unreleased reservations, exactly as long as no cancel flips a
    booking that has already left pending. */
module Ledger {
  import opened Options
  import opened Seats
  import opened History
  import opened Protocol
  import opened Refinement
  import opened Safety
  import opened Exclusive

  ghost predicate Claimed(claims: seq<Claim>, id: nat) {
    exists k :: 0 <= k < |claims| && claims[k].bookingId == id
  }

  /** Every booking left pending at most once, and exactly the bookings that left are claimed. */
  ghost predicate ClaimedOnce(s: State) {
    && (forall j, k :: 0 <= j < k < |s.claims| ==> s.claims[j].bookingId != s.claims[k].bookingId)
    && (forall j :: 0 <= j < |s.claims| ==> Left(s, s.claims[j].bookingId))
    && (forall j :: 0 <= j < |s.db.bookings| && s.db.bookings[j].status != Pending ==> Claimed(s.claims, s.db.bookings[j].bookingId))
  }

  /** A cancel about to flip finds the booking still pending: the filter its update leaves out. */
  ghost predicate FreshFlip(s: State, a: Action) {
    a.Advance? && a.p in s.procs && s.procs[a.p].CancelFlip? ==>
      var found := FindById(s.db.bookings, s.procs[a.p].booking.bookingId);
      found.Some? && found.value.status == Pending
  }

  ghost predicate ReleasesOk(s: State) {
    && (forall p :: p in s.procs && Releasing(s.procs[p]).Some? ==>
          var b := Releasing(s.procs[p]).value;
          Claim(b.bookingId, p) in s.claims && !ReleasedIn(s.log, b.bookingId))
    && (forall k :: 0 <= k < |s.log| && s.log[k].Release? ==> Claimed(s.claims, s.log[k].bookingId))
    && ReleasedOnce(s.log)
  }

  ghost predicate LedgerInv(s: State) {
    ClaimedOnce(s) && ReleasesOk(s)
  }

  // ---------------------------------------------------------------- steps

  /** No flip, no release, no new releaser. */
  ghost predicate Calm(s: State, t: State) {
    && t.claims == s.claims
    && (t.log == s.log || (|t.log| == |s.log| + 1 && s.log <= t.log && t.log[|s.log|].Reserve?))
    && s.db.bookings <= t.db.bookings
    && (forall j :: |s.db.bookings| <= j < |t.db.bookings| ==> t.db.bookings[j].status == Pending)
    && (forall p :: p in t.procs && Releasing(t.procs[p]).Some? ==> p in s.procs && s.procs[p] == t.procs[p])
  }

  lemma CalmKeeps(s: State, t: State)
    requires LedgerInv(s) && Calm(s, t)
    ensures LedgerInv(t)
  {
    forall j | 0 <= j < |t.claims| ensures Left(t, t.claims[j].bookingId) {
      var i :| 0 <= i < |s.db.bookings| && s.db.bookings[i].bookingId == t.claims[j].bookingId && s.db.bookings[i].status != Pending;
      assert t.db.bookings[i] == s.db.bookings[i];
    }
  }

  lemma UniqueBooking(s: State, id: nat)
    requires Inv(s) && FindById(s.db.bookings, id).Some?
    ensures var b := FindById(s.db.bookings, id).value;
            forall j :: 0 <= j < |s.db.bookings| && s.db.bookings[j].bookingId == id ==> s.db.bookings[j] == b
  {
    FindByIdSound(s.db.bookings, id);
    var b := FindById(s.db.bookings, id).value;
    var k :| 0 <= k < |s.db.bookings| && s.db.bookings[k] == b;
    forall j | 0 <= j < |s.db.bookings| && s.db.bookings[j].bookingId == id ensures s.db.bookings[j] == b {
      assert j == k;
    }
  }

  lemma FlipClaimsOnce(s: State, t: State, c: Claim, status: BookingStatus)
    requires ClaimedOnce(s) && !Claimed(s.claims, c.bookingId) && status != Pending
    requires FindById(s.db.bookings, c.bookingId).Some?
    requires t.db.bookings == SetStatus(s.db.bookings, c.bookingId, status) && t.claims == s.claims + [c]
    ensures ClaimedOnce(t)
  {
    ClaimsGrow(s, t, c);
    FlippedIsLeft(s, t, c.bookingId, status);
    forall j | 0 <= j < |t.claims| ensures Left(t, t.claims[j].bookingId) {
      if j < |s.claims| {
        var i :| 0 <= i < |s.db.bookings| && s.db.bookings[i].bookingId == s.claims[j].bookingId && s.db.bookings[i].status != Pending;
        assert t.db.bookings[i].bookingId == s.claims[j].bookingId && t.db.bookings[i].status != Pending;
      }
    }
    forall j | 0 <= j < |t.db.bookings| && t.db.bookings[j].status != Pending
      ensures Claimed(t.claims, t.db.bookings[j].bookingId)
    {
      assert t.db.bookings[j].bookingId == s.db.bookings[j].bookingId;
    }
  }

  lemma FlipReleasesOk(s: State, t: State, p: nat, q: Proc, r: Booking)
    requires ReleasesOk(s) && !Claimed(s.claims, r.bookingId) && Releasing(q) == Some(r)
    requires t.claims == s.claims + [Claim(r.bookingId, p)] && t.log == s.log && t.procs == s.procs[p := q]
    ensures ReleasesOk(t)
  {
    ClaimsGrow(s, t, Claim(r.bookingId, p));
  }

  /** A flip of a pending booking, by the worker or by a timely cancel. */
  lemma FlipKeepsLedger(s: State, t: State, p: nat, q: Proc, r: Booking, status: BookingStatus)
    requires Inv(s) && LedgerInv(s) && status != Pending && Releasing(q) == Some(r)
    requires FindById(s.db.bookings, r.bookingId).Some? && FindById(s.db.bookings, r.bookingId).value.status == Pending
    requires t.db.bookings == SetStatus(s.db.bookings, r.bookingId, status)
    requires t.claims == s.claims + [Claim(r.bookingId, p)] && t.log == s.log && t.procs == s.procs[p := q]
    ensures LedgerInv(t)
  {
    PendingUnclaimed(s, r.bookingId);
    FlipClaimsOnce(s, t, Claim(r.bookingId, p), status);
    FlipReleasesOk(s, t, p, q, r);
  }

  lemma PendingUnclaimed(s: State, id: nat)
    requires Inv(s) && ClaimedOnce(s)
    requires FindById(s.db.bookings, id).Some? && FindById(s.db.bookings, id).value.status == Pending
    ensures !Claimed(s.claims, id)
  {
    UniqueBooking(s, id);
  }

  lemma ClaimsGrow(s: State, t: State, c: Claim)
    requires t.claims == s.claims + [c]
    ensures forall id :: Claimed(t.claims, id) <==> id == c.bookingId || Claimed(s.claims, id)
    ensures c in t.claims && forall d :: d in s.claims ==> d in t.claims
  {
    assert t.claims[|s.claims|] == c;
    assert forall k :: 0 <= k < |s.claims| ==> t.claims[k] == s.claims[k];
  }

  lemma ReleaseKeepsLedger(s: State, p: nat, r: Booking, q: Proc)
    requires LedgerInv(s) && p in s.procs && Releasing(s.procs[p]) == Some(r) && Releasing(q).None?
    ensures LedgerInv(ReleaseSeats(s, p, r, q))
  {
    var t := ReleaseSeats(s, p, r, q);
    assert t.log[|s.log|] == Release(r.bookingId, LineIds(r.lines));
    assert forall k :: 0 <= k < |s.log| ==> t.log[k] == s.log[k];
    forall x | x in t.procs && Releasing(t.procs[x]).Some?
      ensures var b := Releasing(t.procs[x]).value; Claim(b.bookingId, x) in t.claims && !ReleasedIn(t.log, b.bookingId)
    {
      var b := Releasing(t.procs[x]).value;
      assert x != p && s.procs[x] == t.procs[x];
      SameClaimant(s, p, x, r.bookingId, b.bookingId);
    }
    forall j | 0 <= j < |t.claims| ensures Left(t, t.claims[j].bookingId) {
      assert Left(s, s.claims[j].bookingId);
    }
  }

  lemma SameClaimant(s: State, p: nat, x: nat, a: nat, b: nat)
    requires ClaimedOnce(s) && p != x && Claim(a, p) in s.claims && Claim(b, x) in s.claims
    ensures a != b
  {
    var j :| 0 <= j < |s.claims| && s.claims[j] == Claim(a, p);
    var k :| 0 <= k < |s.claims| && s.claims[k] == Claim(b, x);
  }

  predicate IsFlip(q: Proc) { q.CancelFlip? || q.ExpiryFlip? }

  lemma StepIsCalm(s: State, p: nat)
    requires p in s.procs && Releasing(s.procs[p]).None? && !IsFlip(s.procs[p])
    ensures Calm(s, Step(s, p))
  {
  }

  lemma OtherIsCalm(s: State, a: Action)
    requires !a.Advance?
    ensures Calm(s, Do(s, a))
  {
  }

  /** A flip step either changes nothing here or flips one booking the process then releases. */
  lemma FlipShape(s: State, p: nat) returns (status: BookingStatus)
    requires p in s.procs && IsFlip(s.procs[p])
    ensures status != Pending
    ensures var t := Step(s, p);
            match Releasing(t.procs[p])
            case None => Calm(s, t)
            case Some(r) =>
              && FindById(s.db.bookings, r.bookingId).Some?
              && (FreshFlip(s, Advance(p)) ==> FindById(s.db.bookings, r.bookingId).value.status == Pending)
              && t.db.bookings == SetStatus(s.db.bookings, r.bookingId, status)
              && t.claims == s.claims + [Claim(r.bookingId, p)] && t.log == s.log
              && t.procs == s.procs[p := t.procs[p]]
  {
    status := if s.procs[p].CancelFlip? then Cancelled else Expired;
  }

  lemma FlipStepKeepsLedger(s: State, p: nat)
    requires Inv(s) && LedgerInv(s) && p in s.procs && FreshFlip(s, Advance(p)) && IsFlip(s.procs[p])
    ensures LedgerInv(Step(s, p))
  {
    var t := Step(s, p);
    var status := FlipShape(s, p);
    match Releasing(t.procs[p])
    case None => CalmKeeps(s, t);
    case Some(r) => FlipKeepsLedger(s, t, p, t.procs[p], r, status);
  }

  lemma ReleaseShape(s: State, p: nat)
    requires p in s.procs && Releasing(s.procs[p]).Some?
    ensures Step(s, p) == ReleaseSeats(s, p, Releasing(s.procs[p]).value, Step(s, p).procs[p])
    ensures Releasing(Step(s, p).procs[p]).None?
  {
  }

  lemma StepKeepsLedger(s: State, p: nat)
    requires Inv(s) && LedgerInv(s) && p in s.procs && FreshFlip(s, Advance(p))
    ensures LedgerInv(Step(s, p))
  {
    if IsFlip(s.procs[p]) {
      FlipStepKeepsLedger(s, p);
    } else if Releasing(s.procs[p]).Some? {
      ReleaseShape(s, p);
      ReleaseKeepsLedger(s, p, Releasing(s.procs[p]).value, Step(s, p).procs[p]);
    } else {
      StepIsCalm(s, p);
      CalmKeeps(s, Step(s, p));
    }
  }

  lemma DoKeepsLedger(s: State, a: Action)
    requires Inv(s) && LedgerInv(s) && FreshFlip(s, a)
    ensures LedgerInv(Do(s, a))
  {
    if !a.Advance? {
      OtherIsCalm(s, a);
      CalmKeeps(s, Do(s, a));
    } else if a.p in s.procs {
      StepKeepsLedger(s, a.p);
    }
  }

  /** A stale flip makes a booking leave twice. */
  lemma StaleFlipBreaks(s: State, a: Action)
    requires Inv(s) && ClaimedOnce(s) && !FreshFlip(s, a)
    ensures !ClaimedOnce(Do(s, a))
  {
    assert Known(s, s.procs[a.p].booking) by { assert ProcOk(s, a.p, s.procs[a.p]); }
    KnownIsFound(s, s.procs[a.p].booking);
    FlipClaims(s, a.p);
    ClaimedAgain(s, Do(s, a), a.p, s.procs[a.p].booking.bookingId);
  }

  lemma FlipClaims(s: State, p: nat)
    requires p in s.procs && s.procs[p].CancelFlip? && FindById(s.db.bookings, s.procs[p].booking.bookingId).Some?
    ensures Step(s, p).claims == s.claims + [Claim(s.procs[p].booking.bookingId, p)]
  {
  }

  lemma ClaimedAgain(s: State, t: State, p: nat, id: nat)
    requires ClaimedOnce(s) && t.claims == s.claims + [Claim(id, p)]
    requires FindById(s.db.bookings, id).Some? && FindById(s.db.bookings, id).value.status != Pending
    ensures !ClaimedOnce(t)
  {
    FindByIdSound(s.db.bookings, id);
    var j :| 0 <= j < |s.db.bookings| && s.db.bookings[j] == FindById(s.db.bookings, id).value;
    var k :| 0 <= k < |s.claims| && s.claims[k].bookingId == id;
    assert t.claims[k].bookingId == t.claims[|s.claims|].bookingId;
  }

  /** A step keeps "left pending at most once" exactly when it is not a stale cancel flip. */
  lemma LedgerStep(s: State, a: Action)
    requires Inv(s) && LedgerInv(s)
    ensures ClaimedOnce(Do(s, a)) <==> FreshFlip(s, a)
    ensures LedgerInv(Do(s, a)) <==> FreshFlip(s, a)
  {
    if FreshFlip(s, a) { DoKeepsLedger(s, a); } else { StaleFlipBreaks(s, a); }
  }

  /** A cancel that flips right after its read is never stale: `cancelBooking` as one step. */
  lemma ImmediateCancelIsFresh(s: State, p: nat)
    requires Inv(s) && p in s.procs && s.procs[p].CancelRead?
    ensures FreshFlip(Do(s, Advance(p)), Advance(p))
  {
    CancelReadFresh(s, p);
  }

  lemma CancelReadFresh(s: State, p: nat)
    requires BookingsOk(s) && p in s.procs && s.procs[p].CancelRead?
    ensures FreshFlip(Do(s, Advance(p)), Advance(p))
  {
    var found := FindById(s.db.bookings, s.procs[p].bookingId);
    FindByIdSound(s.db.bookings, s.procs[p].bookingId);
    if found.Some? {
      var j :| 0 <= j < |s.db.bookings| && s.db.bookings[j] == found.value;
      assert BookingOk(s, s.db.bookings[j]);
    }
  }

  ghost predicate FreshFlips(s: State, acts: seq<Action>) {
    acts == [] ||
    (FreshFlips(s, acts[..|acts| - 1]) && FreshFlip(Exec(s, acts[..|acts| - 1]), acts[|acts| - 1]))
  }

  /** Each cancel that flips has just read: nobody moved in between. */
  ghost predicate PromptCancels(s: State, acts: seq<Action>) {
    acts == [] ||
    var before, a := acts[..|acts| - 1], acts[|acts| - 1];
    PromptCancels(s, before) &&
    (a.Advance? && a.p in Exec(s, before).procs && Exec(s, before).procs[a.p].CancelFlip? ==>
       before != [] && before[|before| - 1] == a
       && var read := Exec(s, before[..|before| - 1]); a.p in read.procs && read.procs[a.p].CancelRead?)
  }

  /** With cancels taken as one step, no flip is stale, whatever else runs in parallel. */
  lemma {:induction false} PromptCancelsFresh(s: State, acts: seq<Action>)
    requires Init(s) && PromptCancels(s, acts)
    ensures FreshFlips(s, acts)
  {
    if acts != [] {
      var before, a := acts[..|acts| - 1], acts[|acts| - 1];
      PromptCancelsFresh(s, before);
      var t := Exec(s, before);
      if a.Advance? && a.p in t.procs && t.procs[a.p].CancelFlip? {
        var earlier := before[..|before| - 1];
        InvAlways(s, earlier);
        ImmediateCancelIsFresh(Exec(s, earlier), a.p);
      }
    }
  }

  lemma {:induction false} LedgerInvAlways(s: State, acts: seq<Action>)
    requires Init(s) && FreshFlips(s, acts)
    ensures LedgerInv(Exec(s, acts))
  {
    if acts != [] {
      var before := acts[..|acts| - 1];
      LedgerInvAlways(s, before);
      InvAlways(s, before);
      DoKeepsLedger(Exec(s, before), acts[|acts| - 1]);
    }
  }

  // ---------------------------------------------------------------- the counter, exactly

  lemma LogGrows(s: State, a: Action)
    requires !IsRelease(s, a)
    ensures Do(s, a).log == s.log || (|Do(s, a).log| == |s.log| + 1 && s.log <= Do(s, a).log && Do(s, a).log[|s.log|].Reserve?)
  {
    if !a.Advance? {
      OtherIsCalm(s, a);
    } else if a.p in s.procs {
      if IsFlip(s.procs[a.p]) { FlipLogsNothing(s, a.p); } else { StepIsCalm(s, a.p); }
    }
  }

  lemma FlipLogsNothing(s: State, p: nat)
    requires p in s.procs && IsFlip(s.procs[p])
    ensures Step(s, p).log == s.log
  {
  }

  lemma ReleasedSeats(s: State, p: nat)
    requires Inv(s) && p in s.procs && Releasing(s.procs[p]).Some?
    ensures LineIds(Releasing(s.procs[p]).value.lines) != {}
  {
    var r := Releasing(s.procs[p]).value;
    ReleasedNotLive(s, p, r, {}, 0);
    var j :| 0 <= j < |s.db.bookings| && Same(s.db.bookings[j], r);
    SameFields(s.db.bookings[j], r);
    assert BookingOk(s, s.db.bookings[j]);
    assert |LineIds(r.lines)| >= 1;
  }

  lemma ReleasesSeatsSnoc(log: seq<Op>, op: Op)
    requires ReleasesSeats(log) && (op.Release? ==> op.ids != {})
    ensures ReleasesSeats(log + [op])
  {
  }

  lemma ReleasesSeatsStep(s: State, a: Action)
    requires Inv(s) && ReleasesSeats(s.log)
    ensures ReleasesSeats(Do(s, a).log)
  {
    if IsRelease(s, a) {
      var r := Releasing(s.procs[a.p]).value;
      ReleasedSeats(s, a.p);
      ReleaseShape(s, a.p);
      ReleasesSeatsSnoc(s.log, Release(r.bookingId, LineIds(r.lines)));
    } else {
      LogGrows(s, a);
      if Do(s, a).log != s.log {
        assert Do(s, a).log == s.log + [Do(s, a).log[|s.log|]];
        ReleasesSeatsSnoc(s.log, Do(s, a).log[|s.log|]);
      }
    }
  }

  lemma {:induction false} ReleasesSeatsAlways(s: State, acts: seq<Action>)
    requires Init(s)
    ensures ReleasesSeats(Exec(s, acts).log)
  {
    if acts != [] {
      var before := acts[..|acts| - 1];
      ReleasesSeatsAlways(s, before);
      InvAlways(s, before);
      ReleasesSeatsStep(Exec(s, before), acts[|acts| - 1]);
    }
  }

  /** The counter is the room less the reservations never released. */
  ghost predicate Balanced(t: State) {
    t.db.show.availableSeats == t.cfg.first.availableSeats - Outstanding(t.log, |t.log|)
  }

  /** In every run, stale cancels and crashes included, the counter is never below the room less the
      reservations never released, and equals it exactly when no booking's seats were released twice. */
  lemma BalancedExactly(s: State, acts: seq<Action>)
    requires Init(s)
    ensures var t := Exec(s, acts);
            && t.db.show.availableSeats >= t.cfg.first.availableSeats - Outstanding(t.log, |t.log|)
            && (Balanced(t) <==> ReleasedOnce(t.log))
  {
    RunsRefine(s, acts);
    ConfigFixed(s, acts);
    ReleasesSeatsAlways(s, acts);
    LedgerOfLog(s.cfg.first, s.cfg.HoldMs(), Exec(s, acts).log);
  }

  /** The step releases seats that were released for the same booking before. */
  ghost predicate ReleasesAgain(s: State, a: Action) {
    IsRelease(s, a) && ReleasedIn(s.log, Releasing(s.procs[a.p]).value.bookingId)
  }

  /** A step of a run breaks the balance exactly when it releases a booking again. */
  lemma BalanceStep(s: State, acts: seq<Action>, a: Action)
    requires Init(s) && Balanced(Exec(s, acts))
    ensures Balanced(Do(Exec(s, acts), a)) <==> !ReleasesAgain(Exec(s, acts), a)
  {
    var t := Exec(s, acts);
    var u := Do(t, a);
    assert (acts + [a])[..|acts|] == acts;
    assert Exec(s, acts + [a]) == u;
    BalancedExactly(s, acts);
    BalancedExactly(s, acts + [a]);
    if IsRelease(t, a) {
      ReleaseShape(t, a.p);
      var r := Releasing(t.procs[a.p]).value;
      ReleasedOnceSnoc(t.log, Release(r.bookingId, LineIds(r.lines)));
    } else {
      LogGrows(t, a);
      if u.log != t.log {
        assert u.log == t.log + [u.log[|t.log|]];
        ReleasedOnceSnoc(t.log, u.log[|t.log|]);
      }
    }
  }

  /** In every run without stale cancel flips, with any number of workers and crashes anywhere:
      each booking leaves pending once, each reservation is released once, and the counter is the
      size of the room less the reservations never released. */
  lemma LedgerAlways(s: State, acts: seq<Action>)
    requires Init(s) && FreshFlips(s, acts)
    ensures var t := Exec(s, acts);
            && ClaimedOnce(t) && ReleasedOnce(t.log)
            && t.db.show.availableSeats == s.cfg.first.availableSeats - Outstanding(t.log, |t.log|)
  {
    LedgerInvAlways(s, acts);
    ConfigFixed(s, acts);
    BalancedExactly(s, acts);
  }

  /** A matching update reserves a seat that is not available: it takes over a lapsed hold. */
  ghost predicate TakesOver(s: State, a: Action) {
    Commits(s, a) && !AllAvailable(s.db.show.seats, SetOf(s.procs[a.p].req.seatIds))
  }

  /** A release covers a seat that is available already. */
  ghost predicate FreesFree(s: State, a: Action) {
    IsRelease(s, a) && !NoneAvailable(s.db.show.seats, LineIds(Releasing(s.procs[a.p]).value.lines))
  }

  lemma ShowIsUnique(s: State)
    requires Inv(s)
    ensures UniqueIds(s.db.show.seats) && IdsOf(s.db.show.seats) == IdsOf(Replay(s.cfg.first, s.log).seats)
  {
    ReplayFrame(s.cfg.first, s.log);
  }

  lemma CommitAgrees(s: State, a: Action)
    requires Inv(s) && Agrees(s.db.show) && Commits(s, a)
    ensures Agrees(Do(s, a).db.show) <==> !TakesOver(s, a)
  {
    var q := s.procs[a.p];
    var op := Reserve(a.p, SetOf(q.req.seatIds), q.plan.at, q.plan.at + s.cfg.HoldMs());
    assert Do(s, a).db.show == Put(s.db.show, op) && op.ids <= IdsOf(Replay(s.cfg.first, s.log).seats) by {
      CommitRefines(s, a.p, q.req, q.lease, q.plan);
    }
    assert UniqueIds(s.db.show.seats) && op.ids <= IdsOf(s.db.show.seats) by { ShowIsUnique(s); }
    CounterStep(s.db.show, op);
  }

  lemma ReleaseAgrees(s: State, a: Action)
    requires Inv(s) && Agrees(s.db.show) && IsRelease(s, a)
    ensures Agrees(Do(s, a).db.show) <==> !FreesFree(s, a)
  {
    var r := Releasing(s.procs[a.p]).value;
    var op := Release(r.bookingId, LineIds(r.lines));
    assert ProcOk(s, a.p, s.procs[a.p]);
    ReleaseShape(s, a.p);
    ReleaseOpOk(s, r);
    ShowIsUnique(s);
    CounterStep(s.db.show, op);
  }

  lemma OtherAgrees(s: State, a: Action)
    requires !IsRelease(s, a) && !Commits(s, a)
    ensures Agrees(Do(s, a).db.show) <==> Agrees(s.db.show)
  {
  }

  /** A step makes the counter differ from the number of available seats exactly when it takes over a
      lapsed hold or frees a seat that is free. */
  lemma AgreesStep(s: State, a: Action)
    requires Inv(s) && Agrees(s.db.show)
    ensures Agrees(Do(s, a).db.show) <==> !TakesOver(s, a) && !FreesFree(s, a)
  {
    if Commits(s, a) { CommitAgrees(s, a); } else if IsRelease(s, a) { ReleaseAgrees(s, a); } else { OtherAgrees(s, a); }
  }

  /** If moreover no reservation takes over a lapsed hold, the counter is the number of available
      seats and stays between zero and the size of the room, and unreleased reservations are
      pairwise disjoint. */
  lemma CounterAlways(s: State, acts: seq<Action>)
    requires Init(s) && FreshFlips(s, acts) && NoTakeover(s.cfg.first, Exec(s, acts).log)
    ensures var t := Exec(s, acts);
            && t.db.show.availableSeats == CountAvailable(t.db.show.seats)
            && 0 <= t.db.show.availableSeats <= t.db.show.totalSeats
            && (forall j, k ::
                  (0 <= j < k < |t.log| && t.log[j].Reserve? && t.log[k].Reserve?
                   && !ReleasedIn(t.log, t.log[j].bookingId) && !ReleasedIn(t.log, t.log[k].bookingId)) ==>
                    t.log[j].ids !! t.log[k].ids)
  {
    LedgerInvAlways(s, acts);
    RunsRefine(s, acts);
    CounterOfLog(s.cfg.first, s.cfg.HoldMs(), Exec(s, acts).log);
    ReplayFrame(s.cfg.first, Exec(s, acts).log);
  }
}
