/** What a release that takes another booking's seats leads to: exactly when does it let a later run
    put two pending, unlapsed bookings on one seat? */
module Exposure {
  import opened Options
  import opened Seats
  import opened History
  import opened Protocol
  import opened Refinement
  import opened Exclusive
  import opened Recovery
  import opened Safety
  import LockKey

  /** Bookings are still taken for the show. */
  predicate ShowOpen(s: State) {
    s.db.show.isActive && s.db.show.showTime > s.db.now
  }

  // ---------------------------------------------------------------- a closed show

  /** The show takes no bookings any more, and every call under way is going to find that out: it
      planned with an older version, or its check is still to come and reads the clock. */
  ghost predicate Frozen(s: State) {
    && !ShowOpen(s)
    && forall p :: p in s.procs ==>
         match s.procs[p]
         case Check(_, _, snap) => snap.seatVersion < s.db.show.seatVersion || snap.showTime <= s.db.now
         case Commit(_, _, plan) => plan.snap.seatVersion < s.db.show.seatVersion
         case _ => true
  }

  /** A release makes every plan made before it stale. */
  /** No plan is ahead of the show. */
  ghost predicate PlansBehind(s: State) {
    forall p :: p in s.procs ==>
      match s.procs[p]
      case Check(_, _, snap) => snap.seatVersion <= s.db.show.seatVersion
      case Commit(_, _, plan) => plan.snap.seatVersion <= s.db.show.seatVersion
      case _ => true
  }

  lemma PlansAlwaysBehind(s: State)
    requires ShowOk(s) && ProcsOk(s)
    ensures PlansBehind(s)
  {
    ReplayFrame(s.cfg.first, s.log);
    forall p | p in s.procs && (s.procs[p].Check? || s.procs[p].Commit?) ensures ProcOk(s, p, s.procs[p]) { }
  }

  lemma ReleaseFreezes(s: State, a: Action)
    requires PlansBehind(s) && IsRelease(s, a) && !ShowOpen(s)
    ensures Frozen(Do(s, a))
  {
    var t := Do(s, a);
    ReleaseWrites(s, a);
    ReleaseMoves(s, a);
  }

  /** The releasing process goes on to something that plans nothing, the others stay. */
  lemma ReleaseMoves(s: State, a: Action)
    requires IsRelease(s, a)
    ensures var t := Do(s, a);
            && t.procs.Keys == s.procs.Keys && !t.procs[a.p].Check? && !t.procs[a.p].Commit?
            && forall x :: x in s.procs && x != a.p ==> t.procs[x] == s.procs[x]
  {
  }

  lemma FrozenMeansNoCommit(s: State, a: Action)
    requires Frozen(s)
    ensures !Commits(s, a)
  {
  }

  lemma FrozenStep(s: State, p: nat)
    requires Frozen(s) && p in s.procs
    ensures Frozen(Step(s, p))
  {
    if s.procs[p].Read? || s.procs[p].Check? || s.procs[p].Commit? { FrozenPlan(s, p); } else { FrozenOther(s, p); }
  }

  lemma FrozenPlan(s: State, p: nat)
    requires Frozen(s) && p in s.procs && (s.procs[p].Read? || s.procs[p].Check? || s.procs[p].Commit?)
    ensures Frozen(Step(s, p))
  {
    assert Step(s, p).db == s.db && Step(s, p).procs == s.procs[p := Step(s, p).procs[p]];
  }

  lemma FrozenOther(s: State, p: nat)
    requires Frozen(s) && p in s.procs && !(s.procs[p].Read? || s.procs[p].Check? || s.procs[p].Commit?)
    ensures Frozen(Step(s, p))
  {
    OtherPlansNothing(s, p);
  }

  ghost predicate PlansNothing(s: State, t: State, p: nat) {
    && p in t.procs && t.procs == s.procs[p := t.procs[p]] && !t.procs[p].Check? && !t.procs[p].Commit?
    && t.db.show.seatVersion >= s.db.show.seatVersion && t.db.now == s.db.now
    && t.db.show.isActive == s.db.show.isActive && t.db.show.showTime == s.db.show.showTime
  }

  lemma CreatingPlansNothing(s: State, p: nat)
    requires p in s.procs && (s.procs[p].Lookup? || s.procs[p].Acquire? || s.procs[p].Save? || s.procs[p].Unlock?)
    ensures PlansNothing(s, Step(s, p), p)
  {
  }

  lemma SweepPlansNothing(s: State, p: nat)
    requires p in s.procs && !Creates(s.procs[p])
    ensures PlansNothing(s, Step(s, p), p)
  {
  }

  lemma OtherPlansNothing(s: State, p: nat)
    requires p in s.procs && !(s.procs[p].Read? || s.procs[p].Check? || s.procs[p].Commit?)
    ensures PlansNothing(s, Step(s, p), p)
  {
    if s.procs[p].Done? || s.procs[p].Crashed? {
      assert Step(s, p) == s;
    } else if Creates(s.procs[p]) {
      CreatingPlansNothing(s, p);
    } else {
      SweepPlansNothing(s, p);
    }
  }

  lemma FrozenDo(s: State, a: Action)
    requires Frozen(s)
    ensures Frozen(Do(s, a))
  {
    if a.Advance? && a.p in s.procs { FrozenStep(s, a.p); }
  }

  lemma ApartStep(s: State, a: Action)
    requires Inv(s) && HoldsApart(s) && !Commits(s, a)
    ensures HoldsApart(Do(s, a))
  {
    OnlyCommitsHold(s, a);
  }

  lemma {:induction false} FrozenRun(s: State, acts: seq<Action>)
    requires Inv(s) && Frozen(s) && HoldsApart(s)
    ensures var t := Exec(s, acts); Inv(t) && Frozen(t) && HoldsApart(t)
  {
    if acts != [] {
      var before, a := acts[..|acts| - 1], acts[|acts| - 1];
      FrozenRun(s, before);
      var t := Exec(s, before);
      DoKeeps(t, a);
      FrozenDo(t, a);
      FrozenMeansNoCommit(t, a);
      ApartStep(t, a);
    }
  }

  /** When the show is closed a release may free what it likes: nobody takes the seats again. */
  lemma ClosedShowSafe(s: State, a: Action, more: seq<Action>)
    requires Inv(s) && HoldsOwn(s) && IsRelease(s, a) && !ShowOpen(s)
    ensures ExclusiveHold(Exec(Do(s, a), more))
  {
    HoldsOwnApart(s);
    DoKeeps(s, a);
    PlansAlwaysBehind(s);
    ReleaseFreezes(s, a);
    ApartStep(s, a);
    FrozenRun(Do(s, a), more);
    HoldsApartIsExclusive(Exec(Do(s, a), more));
  }

  // ---------------------------------------------------------------- an open show

  lemma {:induction false} Above(s: set<nat>) returns (n: nat)
    ensures forall x <- s :: x < n
    decreases |s|
  {
    if s == {} {
      n := 0;
    } else {
      var any :| any in s;
      n := Above(s - {any});
      if n <= any { n := any + 1; }
      assert s == (s - {any}) + {any};
    }
  }

  lemma {:induction false} NewKey(bookings: seq<Booking>) returns (key: string)
    ensures forall b <- bookings :: |b.idempotencyKey| < |key|
  {
    if bookings == [] {
      key := "";
    } else {
      key := NewKey(bookings[1..]);
      if |key| <= |bookings[0].idempotencyKey| { key := bookings[0].idempotencyKey + "k"; }
    }
  }

  /** A number, key and request for `seatIds` that nobody has used, and steps to run it. */
  lemma Newcomer(s: State, seatIds: seq<string>) returns (p: nat, req: Request, n: nat)
    ensures p !in s.procs && n >= CALL_STEPS
    ensures req.showId == s.db.show.showId && req.seatIds == seatIds && FindByKey(s.db.bookings, req.idempotencyKey).None?
  {
    p := Above(s.procs.Keys);
    var key := NewKey(s.db.bookings);
    FindByKeySound(s.db.bookings, key);
    req := Request("user", s.db.show.showId, seatIds, key);
    n := CALL_STEPS;
  }

  function LockOf(s: State, seatIds: seq<string>): string {
    LockKey.Key(s.db.show.showId, seatIds)
  }

  /** A request somebody could make for `id` and perhaps other seats: distinct seats of the room, none
      of which blocks at `now`. */
  ghost predicate Unblocked(s: State, id: string, seatIds: seq<string>, now: int) {
    && id in seatIds && Distinct(seatIds) && |seatIds| <= MAX_SEATS_PER_BOOKING
    && SetOf(seatIds) <= IdsOf(s.db.show.seats) && !AnyBlocked(s.db.show.seats, SetOf(seatIds), now)
  }

  lemma NewcomerReady(s: State, id: string, p: nat, req: Request)
    requires UniqueIds(s.db.show.seats) && ShowOpen(s) && Unblocked(s, id, req.seatIds, s.db.now) && p !in s.procs
    requires !LeaseLive(s.db.leases, LockOf(s, req.seatIds), s.db.now)
    requires req.showId == s.db.show.showId && FindByKey(s.db.bookings, req.idempotencyKey).None?
    ensures Ready(s, p, req) && id in SetOf(req.seatIds)
  {
    LengthTestIsFullCheck(s.db.show.seats, req.seatIds);
  }

  /** Booking `j` is pending and unlapsed and contains `id`. */
  ghost predicate HoldsSeat(s: State, j: nat, id: string) {
    && j < |s.db.bookings| && s.db.bookings[j].status == Pending && s.db.bookings[j].expiresAt > s.db.now
    && id in LineIds(s.db.bookings[j].lines)
  }

  lemma NewcomerShares(s: State, j: nat, id: string, p: nat, req: Request, n: nat)
    requires UniqueIds(s.db.show.seats) && s.cfg.holdMinutes >= 1 && HoldsSeat(s, j, id) && n >= CALL_STEPS
    requires Ready(s, p, req) && id in SetOf(req.seatIds)
    ensures !ExclusiveHold(Exec(s, Solo(p, req, n)))
  {
    SoloSucceeds(s, p, req, n);
    AfterSoloShares(s, j, id, p, req);
  }

  lemma AfterSoloShares(s: State, j: nat, id: string, p: nat, req: Request)
    requires UniqueIds(s.db.show.seats) && s.cfg.holdMinutes >= 1 && HoldsSeat(s, j, id)
    requires Ready(s, p, req) && id in SetOf(req.seatIds)
    ensures !ExclusiveHold(AfterSolo(s, p, req))
  {
    var t, b := AfterSolo(s, p, req), SoloBooking(s, p, req);
    LengthTestIsFullCheck(s.db.show.seats, req.seatIds);
    LineIdsOf(Selected(s.db.show.seats, SetOf(req.seatIds)));
    assert t.db.bookings[j] == s.db.bookings[j] && t.db.bookings[|s.db.bookings|] == b;
    assert id in LineIds(t.db.bookings[j].lines) && id in LineIds(b.lines);
    assert s.cfg.HoldMs() > 0;
  }

  // ---------------------------------------------------------------- calls do not steal

  /** A process on the side of `createBooking`. */
  predicate Creates(q: Proc) {
    q.Lookup? || q.Acquire? || q.Read? || q.Check? || q.Commit? || q.Save? || q.Unlock? || q.Done? || q.Crashed?
  }

  lemma CreatesOn(s: State, p: nat)
    requires p in s.procs && Creates(s.procs[p])
    ensures p in Step(s, p).procs && Creates(Step(s, p).procs[p]) && Creates(AfterFailure(s.procs[p]))
  {
  }

  /** Steps of one call, which is under way or about to start, and failures of its store calls. */
  ghost predicate CallOf(s: State, p: nat, acts: seq<Action>) {
    && (p in s.procs ==> Creates(s.procs[p]))
    && forall a <- acts :: a == Advance(p) || a == Fail(p) || (a.StartCreate? && a.p == p)
  }

  lemma {:induction false} CallsDontSteal(s: State, p: nat, acts: seq<Action>)
    requires CallOf(s, p, acts)
    ensures NoSteals(s, acts)
    ensures var t := Exec(s, acts); p in t.procs ==> Creates(t.procs[p])
  {
    if acts != [] {
      var before, a := acts[..|acts| - 1], acts[|acts| - 1];
      assert a in acts && forall x <- before :: x in acts;
      CallsDontSteal(s, p, before);
      var t := Exec(s, before);
      if p in t.procs { CreatesOn(t, p); }
    }
  }

  lemma {:induction false} RepeatOnly(a: Action, n: nat)
    ensures forall x <- Repeat(a, n) :: x == a
  {
    if n != 0 { RepeatOnly(a, n - 1); }
  }

  lemma SoloDoesntSteal(s: State, p: nat, req: Request, n: nat)
    requires p !in s.procs
    ensures NoSteals(s, Solo(p, req, n))
  {
    RepeatOnly(Advance(p), n);
    CallsDontSteal(s, p, Solo(p, req, n));
  }

  lemma {:induction false} NoStealsAppend(s: State, a: seq<Action>, b: seq<Action>)
    requires NoSteals(s, a) && NoSteals(Exec(s, a), b)
    ensures NoSteals(s, a + b)
  {
    if b == [] {
      assert a + b == a;
    } else {
      var before := b[..|b| - 1];
      NoStealsAppend(s, a, before);
      ExecAppend(s, a, before);
      assert (a + b)[..|a + b| - 1] == a + before && (a + b)[|a + b| - 1] == b[|b| - 1];
    }
  }

  // ---------------------------------------------------------------- from the steal to the shared seat

  /** A run that nobody's seats are taken in. */
  lemma Chain(s: State, a: seq<Action>, b: seq<Action>) returns (both: seq<Action>)
    requires NoSteals(s, a) && NoSteals(Exec(s, a), b)
    ensures NoSteals(s, both) && Exec(s, both) == Exec(Exec(s, a), b)
  {
    both := a + b;
    NoStealsAppend(s, a, b);
    ExecAppend(s, a, b);
  }

  lemma OneStep(s: State, a: Action)
    ensures Exec(s, [a]) == Do(s, a)
    ensures !Steals(s, a) ==> NoSteals(s, [a])
  {
    ExecStep(s, [], a);
    assert [] + [a] == [a] && [a][..0] == [];
  }

  /** From a state where a booked seat is free to be asked for: a newcomer takes it. */
  lemma FreeSeatShared(s: State, j: nat, id: string, seatIds: seq<string>) returns (more: seq<Action>)
    requires UniqueIds(s.db.show.seats) && s.cfg.holdMinutes >= 1 && ShowOpen(s) && HoldsSeat(s, j, id)
    requires Unblocked(s, id, seatIds, s.db.now) && !LeaseLive(s.db.leases, LockOf(s, seatIds), s.db.now)
    ensures NoSteals(s, more) && !ExclusiveHold(Exec(s, more))
  {
    var p, req, n := Newcomer(s, seatIds);
    NewcomerReady(s, id, p, req);
    NewcomerShares(s, j, id, p, req, n);
    SoloDoesntSteal(s, p, req, n);
    more := Solo(p, req, n);
  }

  // ---------------------------------------------------------------- locks that give way

  /** The lock is in the hands of a call still under way in its critical section. */
  ghost predicate HeldByCall(s: State, key: string) {
    && key in s.db.leases
    && var q := s.db.leases[key].token;
       q in s.procs && InCritical(s.procs[q]) && LockKeyOf(s.procs[q].req) == key
  }

  lemma MoveOn(s: State, q: nat, a: Action) returns (acts: seq<Action>)
    requires q in s.procs && Creates(s.procs[q]) && (a == Advance(q) || a == Fail(q))
    ensures acts == [a] && Exec(s, acts) == Do(s, a) && NoSteals(s, acts)
  {
    acts := [a];
    OneStep(s, a);
    CallsDontSteal(s, q, acts);
  }

  /** A call in its critical section can come to its unlock without touching the stores: its next
      store call fails. */
  lemma ToUnlock(s: State, q: nat) returns (acts: seq<Action>)
    requires q in s.procs && InCritical(s.procs[q])
    ensures var t := Exec(s, acts);
            && t.db == s.db && t.cfg == s.cfg && q in t.procs && t.procs[q].Unlock? && t.procs[q].req == s.procs[q].req
    ensures NoSteals(s, acts)
  {
    if s.procs[q].Unlock? {
      acts := [];
    } else if s.procs[q].Check? {
      acts := MoveOn(s, q, Advance(q));
      var t := Do(s, Advance(q));
      if t.procs[q].Commit? {
        var last := MoveOn(t, q, Fail(q));
        acts := Chain(s, acts, last);
      }
    } else {
      acts := MoveOn(s, q, Fail(q));
    }
  }

  /** A lock held by a call under way is given back. */
  lemma LockGivenBack(s: State, key: string) returns (acts: seq<Action>)
    requires HeldByCall(s, key) && LeaseLive(s.db.leases, key, s.db.now)
    ensures Exec(s, acts).db == s.db.(leases := s.db.leases - {key}) && Exec(s, acts).cfg == s.cfg
    ensures NoSteals(s, acts)
  {
    var q := s.db.leases[key].token;
    acts := ToUnlock(s, q);
    var t := Exec(s, acts);
    var last := MoveOn(t, q, Advance(q));
    acts := Chain(s, acts, last);
  }

  /** `seatIds`, with `id` among them, can be asked for `wait` milliseconds from now, before `until`
      and before the show starts: no seat blocks then, and the lock is not taken then or is held by a
      call still under way. */
  ghost predicate Askable(s: State, id: string, until: int, seatIds: seq<string>, wait: nat) {
    && Unblocked(s, id, seatIds, s.db.now + wait) && s.db.now + wait < until && s.db.now + wait < s.db.show.showTime
    && (LeaseLive(s.db.leases, LockOf(s, seatIds), s.db.now + wait) ==> HeldByCall(s, LockOf(s, seatIds)))
  }

  lemma WaitShared(s: State, j: nat, id: string, seatIds: seq<string>, wait: nat) returns (more: seq<Action>)
    requires UniqueIds(s.db.show.seats) && s.cfg.holdMinutes >= 1 && s.db.show.isActive && HoldsSeat(s, j, id)
    requires Unblocked(s, id, seatIds, s.db.now + wait) && s.db.now + wait < s.db.bookings[j].expiresAt
    requires s.db.now + wait < s.db.show.showTime && !LeaseLive(s.db.leases, LockOf(s, seatIds), s.db.now + wait)
    ensures NoSteals(s, more) && !ExclusiveHold(Exec(s, more))
  {
    OneStep(s, Tick(wait));
    more := FreeSeatShared(Do(s, Tick(wait)), j, id, seatIds);
    more := Chain(s, [Tick(wait)], more);
  }

  /** From a state where a booked seat can be asked for: the lock gives way, time passes, and a
      newcomer takes the seat. */
  lemma AskableShared(s: State, j: nat, id: string, seatIds: seq<string>, wait: nat) returns (more: seq<Action>)
    requires UniqueIds(s.db.show.seats) && s.cfg.holdMinutes >= 1 && s.db.show.isActive && HoldsSeat(s, j, id)
    requires Askable(s, id, s.db.bookings[j].expiresAt, seatIds, wait)
    ensures NoSteals(s, more) && !ExclusiveHold(Exec(s, more))
  {
    var key := LockOf(s, seatIds);
    if LeaseLive(s.db.leases, key, s.db.now + wait) {
      var acts := LockGivenBack(s, key);
      more := WaitShared(Exec(s, acts), j, id, seatIds, wait);
      more := Chain(s, acts, more);
    } else {
      more := WaitShared(s, j, id, seatIds, wait);
    }
  }

  /** A call about to save under a free key saves, and its hold is a booking. */
  lemma SaveLands(s: State, b: nat, ids: set<string>, until: int, id: string) returns (j: nat)
    requires Inv(s) && b in s.procs && s.procs[b].Save? && SetOf(s.procs[b].req.seatIds) == ids && id in ids
    requires s.procs[b].plan.at + s.cfg.HoldMs() == until && until > s.db.now
    requires FindByKey(s.db.bookings, s.procs[b].req.idempotencyKey).None?
    ensures var t := Do(s, Advance(b)); HoldsSeat(t, j, id) && t.db == s.db.(bookings := t.db.bookings) && t.cfg == s.cfg
    ensures var t := Do(s, Advance(b)); t.db.bookings[j].expiresAt == until && t.procs.Keys == s.procs.Keys
    ensures forall x :: x in s.procs && InCritical(s.procs[x]) ==>
              InCritical(Do(s, Advance(b)).procs[x]) && Do(s, Advance(b)).procs[x].req == s.procs[x].req
  {
    var req, plan := s.procs[b].req, s.procs[b].plan;
    var c := NewBooking(s.cfg, b, req, plan);
    assert LineIds(c.lines) == ids by {
      assert ProcOk(s, b, s.procs[b]);
      PlanFacts(s, req, plan);
    }
    assert c.lines != [] by { assert id in LineIds(c.lines); }
    j := |s.db.bookings|;
    assert Do(s, Advance(b)).db.bookings[j] == c;
  }

  lemma ReleaseWrites(s: State, a: Action)
    requires IsRelease(s, a)
    ensures var t, r := Do(s, a), Releasing(s.procs[a.p]).value;
            && t.db.show == ReleaseWrite(s.db.show, LineIds(r.lines), |r.lines|)
            && t.db.leases == s.db.leases && t.db.now == s.db.now && t.cfg == s.cfg
  {
  }

  lemma FreedSeats(show: Show, ids: set<string>, count: nat, id: string, now: int)
    requires id in ids && id in IdsOf(show.seats)
    ensures var seats := ReleaseWrite(show, ids, count).seats;
            id in IdsOf(seats) && !AnyBlocked(seats, {id}, now)
  {
    var seats := ReleaseWrite(show, ids, count).seats;
    var k :| 0 <= k < |show.seats| && show.seats[k].seatId == id;
    assert seats[k].seatId == id;
  }

  /** In particular a steal exposes when the one-seat lock of one stolen seat is free, or held by a
      call under way: the very call, say, that is about to save the hold or has just saved it. */
  lemma OneSeatExposes(s: State, a: Action, b: nat, ids: set<string>, until: int, id: string)
    requires Inv(s) && IsRelease(s, a) && ShowOpen(s)
    requires LiveHold(s, b, ids, until) && b != Releasing(s.procs[a.p]).value.bookingId
    requires id in ids && id in LineIds(Releasing(s.procs[a.p]).value.lines)
    requires LeaseLive(s.db.leases, LockOf(s, [id]), s.db.now) ==> HeldByCall(s, LockOf(s, [id]))
    ensures Exposes(s, a)
  {
    var t, r := Do(s, a), Releasing(s.procs[a.p]).value;
    LiveIdsExist(s, b, ids, until);
    ReleaseWrites(s, a);
    FreedSeats(s.db.show, LineIds(r.lines), |r.lines|, id, s.db.now);
    OneSeat(t, id);
    if HeldByCall(s, LockOf(s, [id])) { HolderStays(s, a, LockOf(s, [id])); }
    assert Askable(t, id, until, [id], 0);
  }

  lemma OneSeat(s: State, id: string)
    requires id in IdsOf(s.db.show.seats) && !AnyBlocked(s.db.show.seats, {id}, s.db.now)
    ensures Unblocked(s, id, [id], s.db.now)
  {
    assert [id][0] == id;
    assert SetOf([id]) == {id};
  }

  lemma HolderStays(s: State, a: Action, key: string)
    requires IsRelease(s, a) && HeldByCall(s, key)
    ensures HeldByCall(Do(s, a), key)
  {
  }

  /** The step takes a seat from a live hold, and after it somebody can ask for that seat before the
      hold is over. */
  ghost predicate Exposes(s: State, a: Action) {
    IsRelease(s, a) &&
    var r := Releasing(s.procs[a.p]).value;
    exists b, ids, until, id, seatIds, wait {:trigger LiveHold(s, b, ids, until), Askable(Do(s, a), id, until, seatIds, wait)} ::
      LiveHold(s, b, ids, until) && b != r.bookingId && id in ids && id in LineIds(r.lines) && Askable(Do(s, a), id, until, seatIds, wait)
  }

  /** Such a release of an open show lets a later run, itself without such releases, put two pending,
      unlapsed bookings on that seat. */
  lemma StealShared(s: State, a: Action) returns (more: seq<Action>)
    requires Inv(s) && s.cfg.holdMinutes >= 1 && Exposes(s, a) && ShowOpen(s)
    ensures NoSteals(Do(s, a), more) && !ExclusiveHold(Exec(Do(s, a), more))
  {
    var r := Releasing(s.procs[a.p]).value;
    var b, ids, until, id, seatIds, wait :|
      LiveHold(s, b, ids, until) && b != r.bookingId && id in ids && id in LineIds(r.lines) && Askable(Do(s, a), id, until, seatIds, wait);
    more := HoldShared(s, a, b, ids, until, id, seatIds, wait);
  }

  lemma HoldShared(s: State, a: Action, b: nat, ids: set<string>, until: int, id: string, seatIds: seq<string>, wait: nat)
    returns (more: seq<Action>)
    requires Inv(s) && s.cfg.holdMinutes >= 1 && IsRelease(s, a) && ShowOpen(s)
    requires LiveHold(s, b, ids, until) && id in ids && Askable(Do(s, a), id, until, seatIds, wait)
    ensures NoSteals(Do(s, a), more) && !ExclusiveHold(Exec(Do(s, a), more))
  {
    var t := Do(s, a);
    assert UniqueIds(t.db.show.seats) by { RoomStays(s, a); }
    ReleaseWrites(s, a);
    ReleaseLeavesBookings(s, a);
    if j :| 0 <= j < |s.db.bookings| && PendingAs(s.db.bookings[j], b, ids, until) {
      more := AskableShared(t, j, id, seatIds, wait);
    } else {
      assert Inv(t) by { DoKeeps(s, a); }
      more := SavingShared(t, b, ids, until, id, seatIds, wait);
    }
  }

  /** The hold is about to be saved: it is, and then shared. */
  lemma SavingShared(t: State, b: nat, ids: set<string>, until: int, id: string, seatIds: seq<string>, wait: nat)
    returns (more: seq<Action>)
    requires Inv(t) && UniqueIds(t.db.show.seats) && t.cfg.holdMinutes >= 1 && t.db.show.isActive && Askable(t, id, until, seatIds, wait)
    requires b in t.procs && t.procs[b].Save? && SetOf(t.procs[b].req.seatIds) == ids && id in ids
    requires t.procs[b].plan.at + t.cfg.HoldMs() == until && until > t.db.now
    requires FindByKey(t.db.bookings, t.procs[b].req.idempotencyKey).None?
    ensures NoSteals(t, more) && !ExclusiveHold(Exec(t, more))
  {
    var j := SaveLands(t, b, ids, until, id);
    var acts := MoveOn(t, b, Advance(b));
    more := AskableShared(Do(t, Advance(b)), j, id, seatIds, wait);
    more := Chain(t, acts, more);
  }

  lemma RoomStays(s: State, a: Action)
    requires Inv(s) && IsRelease(s, a)
    ensures UniqueIds(Do(s, a).db.show.seats)
  {
    ReplayFrame(s.cfg.first, s.log);
    ReleaseWrites(s, a);
    SameIdsUnique(s.db.show.seats, Do(s, a).db.show.seats);
  }

  lemma SameIdsUnique(seats: seq<Seat>, after: seq<Seat>)
    requires UniqueIds(seats) && |after| == |seats| && forall i :: 0 <= i < |seats| ==> after[i].seatId == seats[i].seatId
    ensures UniqueIds(after)
  {
  }

  lemma ReleaseLeavesBookings(s: State, a: Action)
    requires IsRelease(s, a)
    ensures Do(s, a).db.bookings == s.db.bookings
    ensures forall b :: b in s.procs && s.procs[b].Save? ==> b in Do(s, a).procs && Do(s, a).procs[b] == s.procs[b]
  {
  }

  /** After a run that has respected every hold: whatever happens from step `a` on, as long as no
      later release takes another booking's seats, a seat has one pending, unlapsed booking, exactly
      when `a` is not such a release of a show still open. The proviso leaves out only a state where,
      until the hold is over, no request for a stolen seat can be put in. */
  lemma ExposureExactly(s: State, acts: seq<Action>, a: Action)
    requires Init(s) && NoSteals(s, acts)
    requires var t := Exec(s, acts); Steals(t, a) && ShowOpen(t) ==> Exposes(t, a)
    ensures var t := Exec(s, acts);
            (forall more :: NoSteals(Do(t, a), more) ==> ExclusiveHold(Exec(Do(t, a), more)))
            <==> !(Steals(t, a) && ShowOpen(t))
  {
    var t := Exec(s, acts);
    InitHoldsOwn(s);
    HoldsOwnRun(s, acts);
    ConfigFixed(s, acts);
    if Steals(t, a) && ShowOpen(t) {
      var more := StealShared(t, a);
    } else {
      forall more | NoSteals(Do(t, a), more) ensures ExclusiveHold(Exec(Do(t, a), more)) {
        if Steals(t, a) { ClosedShowSafe(t, a, more); } else { UnstolenSafe(t, a, more); }
      }
    }
  }

  lemma UnstolenSafe(s: State, a: Action, more: seq<Action>)
    requires Inv(s) && HoldsOwn(s) && !Steals(s, a) && NoSteals(Do(s, a), more)
    ensures ExclusiveHold(Exec(Do(s, a), more))
  {
    DoKeeps(s, a);
    ExclusiveStep(s, a);
    HoldsOwnRun(Do(s, a), more);
    HoldsOwnIsExclusive(Exec(Do(s, a), more));
  }
}
