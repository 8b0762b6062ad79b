/** What every run owes to the calls that were started in it: whose booking it is, what was asked
    for it, what it costs, and who may take it out of pending. */
module Requests {
  import opened Options
  import opened Seats
  import opened History
  import opened Protocol
  import opened Refinement
  import opened Safety
  import opened Exclusive
  import opened Ledger
  import opened Recovery
  import opened Idempotency
  import opened Outcomes

  predicate Starts(a: Action) { a.StartCreate? || a.StartCancel? || a.StartExpiry? }

  /** The action that started process `p`, read off the action list alone: the first that names it. */
  function StartOf(acts: seq<Action>, p: nat): Option<Action> {
    if acts == [] then None
    else
      var earlier, a := StartOf(acts[..|acts| - 1], p), acts[|acts| - 1];
      if earlier.Some? then earlier else if Starts(a) && a.p == p then Some(a) else None
  }

  // ---------------------------------------------------------------- every process keeps to its task

  predicate Cancellable(status: BookingStatus) { status == Pending || status == PaymentProcessing }

  /** What process `p`, started by `a`, may be doing. */
  ghost predicate OnTask(a: Action, q: Proc) {
    match q
    case CancelRead(id, userId) => a.StartCancel? && a.bookingId == id && a.userId == userId
    case CancelFlip(b) => a.StartCancel? && a.bookingId == b.bookingId && a.userId == b.userId && Cancellable(b.status)
    case CancelRelease(b) => a.StartCancel? && a.bookingId == b.bookingId && a.userId == b.userId && Cancellable(b.status)
    case ExpiryFind(_) => a.StartExpiry?
    case ExpiryFlip(at, batch) => a.StartExpiry? && Overdue(batch, at)
    case ExpiryRelease(at, batch) => a.StartExpiry? && Overdue(batch, at)
    case Done(r) => !(a.StartCreate? && |a.req.seatIds| > 10) || r == Rejected(TooManySeats)
    case Crashed => !(a.StartCreate? && |a.req.seatIds| > 10)
    case _ => a.StartCreate? && a.req == q.req && |a.req.seatIds| <= 10
  }

  ghost predicate Overdue(batch: seq<Booking>, at: int) {
    forall i :: 0 <= i < |batch| ==> batch[i].status == Pending && batch[i].expiresAt < at
  }

  /** The clock value an expiry process took is not in the future. */
  predicate ClockOk(q: Proc, now: int) {
    q.ExpiryFind? || q.ExpiryFlip? || q.ExpiryRelease? ==> q.at <= now
  }

  ghost predicate TasksOk(s: State, acts: seq<Action>) {
    && (forall p :: p !in s.procs ==> StartOf(acts, p) == None)
    && (forall p :: p in s.procs ==>
          StartOf(acts, p).Some? && OnTask(StartOf(acts, p).value, s.procs[p]) && ClockOk(s.procs[p], s.db.now))
  }

  /** `t` has process `p` at a place that fits its task, and all others where they were. */
  ghost predicate KeepsTask(s: State, t: State, p: nat, a: Action) {
    && t.procs.Keys == s.procs.Keys && t.db.now == s.db.now && p in t.procs
    && OnTask(a, t.procs[p]) && ClockOk(t.procs[p], t.db.now)
    && t.procs == s.procs[p := t.procs[p]]
  }

  lemma CreatingTask(s: State, p: nat, a: Action)
    requires p in s.procs && Creating(s.procs[p]) && OnTask(a, s.procs[p])
    ensures KeepsTask(s, Step(s, p), p, a)
  {
  }

  lemma OtherTask(s: State, p: nat, a: Action)
    requires p in s.procs && !Creating(s.procs[p]) && OnTask(a, s.procs[p]) && ClockOk(s.procs[p], s.db.now)
    ensures KeepsTask(s, Step(s, p), p, a)
  {
    FindByIdSound(s.db.bookings, if s.procs[p].CancelRead? then s.procs[p].bookingId else 0);
  }

  lemma MovedKeeps(s: State, t: State, acts: seq<Action>, a: Action)
    requires TasksOk(s, acts) && !Starts(a) && t.procs.Keys == s.procs.Keys && t.db.now >= s.db.now
    requires forall p :: p in s.procs ==>
               t.procs[p] == s.procs[p] || (OnTask(StartOf(acts, p).value, t.procs[p]) && ClockOk(t.procs[p], t.db.now))
    ensures TasksOk(t, acts + [a])
  {
    assert (acts + [a])[..|acts|] == acts;
    assert forall p :: StartOf(acts + [a], p) == StartOf(acts, p);
  }

  lemma StartTask(s: State, acts: seq<Action>, a: Action)
    requires TasksOk(s, acts) && Starts(a)
    ensures TasksOk(Do(s, a), acts + [a])
  {
    assert (acts + [a])[..|acts|] == acts;
    assert forall p :: p != a.p ==> StartOf(acts + [a], p) == StartOf(acts, p);
    assert a.p !in s.procs ==> StartOf(acts + [a], a.p) == Some(a);
    assert a.p in s.procs ==> StartOf(acts + [a], a.p) == StartOf(acts, a.p);
  }

  lemma FailTask(a: Action, q: Proc, now: int)
    requires OnTask(a, q) && ClockOk(q, now)
    ensures OnTask(a, AfterFailure(q)) && ClockOk(AfterFailure(q), now)
  {
  }

  lemma FindTask(s: State, p: nat, at: int, batch: seq<Booking>, a: Action)
    requires p in s.procs && s.procs[p] == ExpiryFind(at) && OnTask(a, s.procs[p]) && at <= s.db.now
    ensures KeepsTask(s, StepFind(s, p, at, batch), p, a)
  {
  }

  lemma QuietTask(s: State, acts: seq<Action>, a: Action)
    requires TasksOk(s, acts) && !Starts(a) && !a.Advance?
    ensures TasksOk(Do(s, a), acts + [a])
  {
    match a
    case Fail(p) => if p in s.procs { FailTask(StartOf(acts, p).value, s.procs[p], s.db.now); }
    case FindBatch(p, batch) =>
      if p in s.procs && s.procs[p].ExpiryFind? { FindTask(s, p, s.procs[p].at, batch, StartOf(acts, p).value); }
    case _ =>
    MovedKeeps(s, Do(s, a), acts, a);
  }

  lemma AdvanceTask(s: State, acts: seq<Action>, p: nat)
    requires TasksOk(s, acts) && p in s.procs
    ensures TasksOk(Step(s, p), acts + [Advance(p)])
  {
    var a := StartOf(acts, p).value;
    assert KeepsTask(s, Step(s, p), p, a) by {
      if Creating(s.procs[p]) { CreatingTask(s, p, a); } else { OtherTask(s, p, a); }
    }
    MovedKeeps(s, Step(s, p), acts, Advance(p));
  }

  lemma {:induction false} TasksAlways(s: State, acts: seq<Action>)
    requires Init(s)
    ensures TasksOk(Exec(s, acts), acts)
  {
    if acts != [] {
      var before, a := acts[..|acts| - 1], acts[|acts| - 1];
      var t := Exec(s, before);
      TasksAlways(s, before);
      assert before + [a] == acts;
      if Starts(a) { StartTask(t, before, a); }
      else if a.Advance? && a.p in t.procs { AdvanceTask(t, before, a.p); }
      else if a.Advance? { MovedKeeps(t, Do(t, a), before, a); }
      else { QuietTask(t, before, a); }
    }
  }

  // ---------------------------------------------------------------- every booking was asked for

  /** The terms of a stored booking are those of the call that was started under its number. */
  ghost predicate Asked(s: State, acts: seq<Action>, b: Booking) {
    var a := StartOf(acts, b.bookingId);
    && a.Some? && a.value.StartCreate? && |a.value.req.seatIds| <= 10
    && Terms(b, b.bookingId, a.value.req, s.cfg.first.seats)
  }

  ghost predicate BookingsAsked(s: State, acts: seq<Action>) {
    forall j :: 0 <= j < |s.db.bookings| ==> Asked(s, acts, s.db.bookings[j])
  }

  /** A read show has the seats and prices the show was created with. */
  lemma SnapPrices(s: State, req: Request, plan: Plan)
    requires UniqueIds(s.cfg.first.seats) && PlanOk(s, req, plan)
    ensures Exist(plan.snap.seats, req.seatIds)
    ensures forall line :: Priced(line, plan.snap.seats) ==> Priced(line, s.cfg.first.seats)
  {
    var m := plan.snap.seatVersion - s.cfg.first.seatVersion;
    ReplayFrame(s.cfg.first, s.log[..m]);
    PlanExists(s, req, plan);
    forall line | Priced(line, plan.snap.seats) ensures Priced(line, s.cfg.first.seats) {
      var j :| 0 <= j < |plan.snap.seats| && plan.snap.seats[j].seatId == line.seatId && plan.snap.seats[j].price == line.price;
      assert s.cfg.first.seats[j].seatId == line.seatId;
    }
  }

  lemma SavedTerms(s: State, p: nat, req: Request, plan: Plan)
    requires UniqueIds(s.cfg.first.seats) && PlanOk(s, req, plan)
    ensures Terms(NewBooking(s.cfg, p, req, plan), p, req, s.cfg.first.seats)
  {
    SnapPrices(s, req, plan);
    NewBookingGrants(s.cfg, p, req, plan);
  }

  lemma TermsSame(b: Booking, c: Booking, p: nat, req: Request, seats: seq<Seat>)
    requires Same(c, b) && Terms(b, p, req, seats)
    ensures Terms(c, p, req, seats)
  {
    SameFields(c, b);
    assert c.(status := Pending).showId == b.(status := Pending).showId;
  }

  /** A step stores at most one new booking, by a process at its insert. */
  lemma StoredBy(s: State, a: Action)
    ensures var t := Do(s, a);
            || |t.db.bookings| == |s.db.bookings|
            || (a.Advance? && a.p in s.procs && s.procs[a.p].Save?
                && t.db.bookings == s.db.bookings + [NewBooking(s.cfg, a.p, s.procs[a.p].req, s.procs[a.p].plan)])
  {
    if a.Advance? && a.p in s.procs && !Creating(s.procs[a.p]) { OthersStore(s, a.p); }
  }

  lemma OthersStore(s: State, p: nat)
    requires p in s.procs && !Creating(s.procs[p])
    ensures |Step(s, p).db.bookings| == |s.db.bookings|
  {
  }

  lemma AskedStays(s: State, acts: seq<Action>, a: Action, j: nat)
    requires j < |s.db.bookings| && Asked(s, acts, s.db.bookings[j])
    ensures |Do(s, a).db.bookings| > j && Asked(Do(s, a), acts + [a], Do(s, a).db.bookings[j])
  {
    var b := s.db.bookings[j];
    DoExtends(s, a);
    assert (acts + [a])[..|acts|] == acts;
    SameFields(Do(s, a).db.bookings[j], b);
    TermsSame(b, Do(s, a).db.bookings[j], b.bookingId, StartOf(acts, b.bookingId).value.req, s.cfg.first.seats);
  }

  lemma AskedStep(s: State, acts: seq<Action>, a: Action)
    requires TasksOk(s, acts) && BookingsAsked(s, acts)
    requires a.Advance? && a.p in s.procs && s.procs[a.p].Save? ==>
               UniqueIds(s.cfg.first.seats) && PlanOk(s, s.procs[a.p].req, s.procs[a.p].plan)
    ensures BookingsAsked(Do(s, a), acts + [a])
  {
    var t := Do(s, a);
    DoExtends(s, a);
    StoredBy(s, a);
    forall j | 0 <= j < |t.db.bookings| ensures Asked(t, acts + [a], t.db.bookings[j]) {
      if j < |s.db.bookings| {
        AskedStays(s, acts, a, j);
      } else {
        SavedTerms(s, a.p, s.procs[a.p].req, s.procs[a.p].plan);
        assert (acts + [a])[..|acts|] == acts;
      }
    }
  }

  lemma SavingPlan(s: State, acts: seq<Action>, p: nat)
    requires Init(s) && p in Exec(s, acts).procs && Exec(s, acts).procs[p].Save?
    ensures var t := Exec(s, acts); UniqueIds(t.cfg.first.seats) && PlanOk(t, t.procs[p].req, t.procs[p].plan)
  {
    InvAlways(s, acts);
    assert ProcOk(Exec(s, acts), p, Exec(s, acts).procs[p]);
  }

  lemma {:induction false} AskedAlways(s: State, acts: seq<Action>)
    requires Init(s)
    ensures BookingsAsked(Exec(s, acts), acts)
  {
    if acts != [] {
      var before, a := acts[..|acts| - 1], acts[|acts| - 1];
      var t := Exec(s, before);
      AskedAlways(s, before);
      TasksAlways(s, before);
      if a.Advance? && a.p in t.procs && t.procs[a.p].Save? { SavingPlan(s, before, a.p); }
      assert before + [a] == acts;
      AskedStep(t, before, a);
    }
  }

  /** Every stored booking of every run: it belongs to the user whose call was started under its
      number, lists exactly the one to ten seats asked for at the prices the show was created with,
      costs their sum and the fee, and runs out `holdMinutes` after the `now` of a logged commit. */
  lemma BookingsAsAsked(s: State, acts: seq<Action>, b: Booking)
    requires Init(s) && b in Exec(s, acts).db.bookings
    ensures exists req :: StartOf(acts, b.bookingId) == Some(StartCreate(b.bookingId, req))
                          && 1 <= |req.seatIds| <= 10 && Terms(b, b.bookingId, req, s.cfg.first.seats)
    ensures var log := Exec(s, acts).log;
            exists k :: 0 <= k < |log| && log[k].Reserve? && log[k].bookingId == b.bookingId && log[k].ids == LineIds(b.lines)
                        && log[k].until == b.expiresAt == log[k].at + s.cfg.holdMinutes * 60000
  {
    var t := Exec(s, acts);
    AskedAlways(s, acts);
    ConfigFixed(s, acts);
    StartIsOwn(acts, b.bookingId);
    assert BookingOk(t, b) by { InvAlways(s, acts); }
    var k :| 0 <= k < |t.log| && t.log[k] == Reserve(b.bookingId, LineIds(b.lines), b.expiresAt - t.cfg.HoldMs(), b.expiresAt);
  }

  lemma {:induction false} StartIsOwn(acts: seq<Action>, p: nat)
    ensures StartOf(acts, p).Some? ==> Starts(StartOf(acts, p).value) && StartOf(acts, p).value.p == p
  {
    if acts != [] { StartIsOwn(acts[..|acts| - 1], p); }
  }

  // ---------------------------------------------------------------- who takes a booking out of pending

  /** The booking `id` is stored and belongs to `userId`. */
  ghost predicate Owned(s: State, id: nat, userId: string) {
    exists j :: 0 <= j < |s.db.bookings| && s.db.bookings[j].bookingId == id && s.db.bookings[j].userId == userId
  }

  /** The booking `id` is stored and has run out. */
  ghost predicate RanOut(s: State, id: nat) {
    exists j :: 0 <= j < |s.db.bookings| && s.db.bookings[j].bookingId == id && s.db.bookings[j].expiresAt < s.db.now
  }

  /** A flip by a cancel is of the booking it was started for, and that belongs to the user it was
      started by; a flip by a worker is of a booking that has run out. */
  ghost predicate Rightful(s: State, acts: seq<Action>, c: Claim) {
    && Left(s, c.bookingId)
    && match StartOf(acts, c.who)
       case Some(StartCancel(_, id, userId)) => id == c.bookingId && Owned(s, id, userId)
       case Some(StartExpiry(_)) => RanOut(s, c.bookingId)
       case _ => false
  }

  predicate ByCancel(acts: seq<Action>, c: Claim) { StartOf(acts, c.who).Some? && StartOf(acts, c.who).value.StartCancel? }

  predicate ByExpiry(acts: seq<Action>, c: Claim) { StartOf(acts, c.who).Some? && StartOf(acts, c.who).value.StartExpiry? }

  /** A status other than pending has a flip behind it, of the right kind. */
  ghost predicate Flips(claims: seq<Claim>, acts: seq<Action>, b: Booking) {
    && (b.status == Cancelled ==> exists k :: 0 <= k < |claims| && claims[k].bookingId == b.bookingId && ByCancel(acts, claims[k]))
    && (b.status == Expired ==> exists k :: 0 <= k < |claims| && claims[k].bookingId == b.bookingId && ByExpiry(acts, claims[k]))
  }

  ghost predicate ClaimsOk(s: State, acts: seq<Action>) {
    && (forall k :: 0 <= k < |s.claims| ==> Rightful(s, acts, s.claims[k]))
    && (forall j :: 0 <= j < |s.db.bookings| ==> Flips(s.claims, acts, s.db.bookings[j]))
  }

  lemma StartStays(acts: seq<Action>, a: Action, p: nat)
    requires StartOf(acts, p).Some?
    ensures StartOf(acts + [a], p) == StartOf(acts, p)
  {
    assert (acts + [a])[..|acts|] == acts;
  }

  lemma RightfulStays(s: State, acts: seq<Action>, a: Action, c: Claim)
    requires Rightful(s, acts, c)
    ensures Rightful(Do(s, a), acts + [a], c)
  {
    var t := Do(s, a);
    DoExtends(s, a);
    LeftExtends(s, t, c.bookingId);
    StartStays(acts, a, c.who);
    match StartOf(acts, c.who)
    case Some(StartCancel(_, id, userId)) =>
      var j :| 0 <= j < |s.db.bookings| && s.db.bookings[j].bookingId == id && s.db.bookings[j].userId == userId;
      SameFields(t.db.bookings[j], s.db.bookings[j]);
    case Some(StartExpiry(_)) =>
      var j :| 0 <= j < |s.db.bookings| && s.db.bookings[j].bookingId == c.bookingId && s.db.bookings[j].expiresAt < s.db.now;
      SameFields(t.db.bookings[j], s.db.bookings[j]);
  }

  lemma FlipsStay(claims: seq<Claim>, more: seq<Claim>, acts: seq<Action>, a: Action, b: Booking)
    requires Flips(claims, acts, b) && claims <= more
    ensures Flips(more, acts + [a], b)
  {
    forall k | 0 <= k < |claims|
      ensures more[k] == claims[k]
      ensures ByCancel(acts, claims[k]) ==> ByCancel(acts + [a], more[k])
      ensures ByExpiry(acts, claims[k]) ==> ByExpiry(acts + [a], more[k])
    {
      if StartOf(acts, claims[k].who).Some? { StartStays(acts, a, claims[k].who); }
    }
  }

  /** No flip in this step: stored statuses stay, new bookings are pending. */
  lemma NoFlip(s: State, a: Action)
    requires !(a.Advance? && a.p in s.procs && IsFlip(s.procs[a.p]))
    ensures var t := Do(s, a);
            && t.claims == s.claims && s.db.bookings <= t.db.bookings
            && forall j :: |s.db.bookings| <= j < |t.db.bookings| ==> t.db.bookings[j].status == Pending
  {
    if !a.Advance? {
      OtherIsCalm(s, a);
    } else if a.p in s.procs {
      if Releasing(s.procs[a.p]).Some? { ReleaseShape(s, a.p); } else { StepIsCalm(s, a.p); }
    }
  }

  lemma CalmClaims(s: State, acts: seq<Action>, a: Action)
    requires ClaimsOk(s, acts) && !(a.Advance? && a.p in s.procs && IsFlip(s.procs[a.p]))
    ensures ClaimsOk(Do(s, a), acts + [a])
  {
    var t := Do(s, a);
    NoFlip(s, a);
    forall k | 0 <= k < |t.claims| ensures Rightful(t, acts + [a], t.claims[k]) { RightfulStays(s, acts, a, s.claims[k]); }
    forall j | 0 <= j < |t.db.bookings| ensures Flips(t.claims, acts + [a], t.db.bookings[j]) {
      if j < |s.db.bookings| { FlipsStay(s.claims, t.claims, acts, a, s.db.bookings[j]); }
    }
  }

  /** The booking a process at its flip is about to take out of pending. */
  function FlipTarget(q: Proc): Option<Booking> {
    match q
    case CancelFlip(b) => Some(b)
    case ExpiryFlip(_, batch) => if batch == [] then None else Some(batch[0])
    case _ => None
  }

  /** A flip step changes no status, or exactly that of its target. */
  lemma FlipStepShape(s: State, p: nat)
    requires p in s.procs && IsFlip(s.procs[p])
    ensures var t := Step(s, p);
            var status := if s.procs[p].CancelFlip? then Cancelled else Expired;
            || (t.claims == s.claims && t.db.bookings == s.db.bookings)
            || (FlipTarget(s.procs[p]).Some?
                && var b := FlipTarget(s.procs[p]).value;
                && t.claims == s.claims + [Claim(b.bookingId, p)]
                && t.db.bookings == SetStatus(s.db.bookings, b.bookingId, status)
                && FindById(s.db.bookings, b.bookingId).Some? && t.db.now == s.db.now)
  {
  }

  lemma TargetKnown(s: State, acts: seq<Action>, p: nat)
    requires Init(s) && p in Exec(s, acts).procs && FlipTarget(Exec(s, acts).procs[p]).Some?
    ensures Known(Exec(s, acts), FlipTarget(Exec(s, acts).procs[p]).value)
  {
    InvAlways(s, acts);
    assert ProcOk(Exec(s, acts), p, Exec(s, acts).procs[p]);
  }

  lemma NewClaim(s: State, acts: seq<Action>, p: nat)
    requires p in s.procs && IsFlip(s.procs[p]) && FlipTarget(s.procs[p]).Some?
    requires Known(s, FlipTarget(s.procs[p]).value) && TasksOk(s, acts)
    requires Step(s, p).claims == s.claims + [Claim(FlipTarget(s.procs[p]).value.bookingId, p)]
    ensures Rightful(Step(s, p), acts + [Advance(p)], Claim(FlipTarget(s.procs[p]).value.bookingId, p))
  {
    var t, b := Step(s, p), FlipTarget(s.procs[p]).value;
    FlipStepShape(s, p);
    DoExtends(s, Advance(p));
    KnownExtends(s, t, b);
    FlippedIsLeft(s, t, b.bookingId, if s.procs[p].CancelFlip? then Cancelled else Expired);
    StartStays(acts, Advance(p), p);
    var j :| 0 <= j < |t.db.bookings| && Same(t.db.bookings[j], b);
    SameFields(t.db.bookings[j], b);
  }

  lemma NewFlips(s: State, acts: seq<Action>, p: nat, j: nat)
    requires p in s.procs && IsFlip(s.procs[p]) && TasksOk(s, acts)
    requires j < |s.db.bookings| && Flips(s.claims, acts, s.db.bookings[j])
    ensures |Step(s, p).db.bookings| == |s.db.bookings| && Flips(Step(s, p).claims, acts + [Advance(p)], Step(s, p).db.bookings[j])
  {
    var t := Step(s, p);
    FlipStepShape(s, p);
    FlipsStay(s.claims, t.claims, acts, Advance(p), s.db.bookings[j]);
    StartStays(acts, Advance(p), p);
    if t.db.bookings[j] != s.db.bookings[j] {
      assert t.claims[|s.claims|] == Claim(t.db.bookings[j].bookingId, p);
    }
  }

  lemma FlipRightful(s: State, acts: seq<Action>, p: nat, c: Claim)
    requires p in s.procs && IsFlip(s.procs[p]) && TasksOk(s, acts) && c in Step(s, p).claims
    requires FlipTarget(s.procs[p]).Some? ==> Known(s, FlipTarget(s.procs[p]).value)
    requires c in s.claims ==> Rightful(s, acts, c)
    ensures Rightful(Step(s, p), acts + [Advance(p)], c)
  {
    FlipStepShape(s, p);
    if c in s.claims { RightfulStays(s, acts, Advance(p), c); } else { NewClaim(s, acts, p); }
  }

  lemma FlipClaimsOk(s: State, acts: seq<Action>, p: nat)
    requires p in s.procs && IsFlip(s.procs[p]) && TasksOk(s, acts) && ClaimsOk(s, acts)
    requires FlipTarget(s.procs[p]).Some? ==> Known(s, FlipTarget(s.procs[p]).value)
    ensures ClaimsOk(Step(s, p), acts + [Advance(p)])
  {
    var t := Step(s, p);
    forall k | 0 <= k < |t.claims| ensures Rightful(t, acts + [Advance(p)], t.claims[k]) {
      FlipRightful(s, acts, p, t.claims[k]);
    }
    assert |t.db.bookings| == |s.db.bookings| by { FlipStepShape(s, p); }
    forall j | 0 <= j < |t.db.bookings| ensures Flips(t.claims, acts + [Advance(p)], t.db.bookings[j]) {
      NewFlips(s, acts, p, j);
    }
  }

  lemma ClaimsStep(s: State, acts: seq<Action>, a: Action)
    requires TasksOk(s, acts) && ClaimsOk(s, acts)
    requires a.Advance? && a.p in s.procs && FlipTarget(s.procs[a.p]).Some? ==> Known(s, FlipTarget(s.procs[a.p]).value)
    ensures ClaimsOk(Do(s, a), acts + [a])
  {
    if a.Advance? && a.p in s.procs && IsFlip(s.procs[a.p]) { FlipClaimsOk(s, acts, a.p); } else { CalmClaims(s, acts, a); }
  }

  lemma {:induction false} ClaimsAlways(s: State, acts: seq<Action>)
    requires Init(s)
    ensures ClaimsOk(Exec(s, acts), acts)
  {
    if acts != [] {
      var before, a := acts[..|acts| - 1], acts[|acts| - 1];
      var t := Exec(s, before);
      ClaimsAlways(s, before);
      TasksAlways(s, before);
      if a.Advance? && a.p in t.procs && FlipTarget(t.procs[a.p]).Some? { TargetKnown(s, before, a.p); }
      assert before + [a] == acts;
      ClaimsStep(t, before, a);
    }
  }

  lemma ClaimMeans(t: State, acts: seq<Action>, c: Claim, b: Booking)
    requires Rightful(t, acts, c) && b in t.db.bookings && b.bookingId == c.bookingId && IdsDistinct(t.db.bookings)
    ensures b.status != Pending
    ensures StartOf(acts, c.who) == Some(StartCancel(c.who, b.bookingId, b.userId))
            || (StartOf(acts, c.who) == Some(StartExpiry(c.who)) && b.expiresAt < t.db.now)
  {
    var j :| 0 <= j < |t.db.bookings| && t.db.bookings[j] == b;
    StartIsOwn(acts, c.who);
  }

  lemma StoredFacts(s: State, acts: seq<Action>, b: Booking)
    requires Init(s) && b in Exec(s, acts).db.bookings
    ensures b.status in {Pending, Cancelled, Expired} && IdsDistinct(Exec(s, acts).db.bookings)
    ensures Flips(Exec(s, acts).claims, acts, b)
    ensures forall c :: c in Exec(s, acts).claims ==> Rightful(Exec(s, acts), acts, c)
  {
    var t := Exec(s, acts);
    assert b.status in {Pending, Cancelled, Expired} && IdsDistinct(t.db.bookings) by {
      InvAlways(s, acts);
      assert BookingOk(t, b);
    }
    ClaimsAlways(s, acts);
  }

  /** In every run, whatever interleaves: a stored booking reads cancelled only if a cancel of it was
      started in the name of its own user, and expired only if it has run out; and every flip by a
      cancel is of the booking it was started for, of the user it was started by. */
  lemma OnlyOwnersCancel(s: State, acts: seq<Action>, b: Booking)
    requires Init(s) && b in Exec(s, acts).db.bookings
    ensures b.status in {Pending, Cancelled, Expired}
    ensures b.status == Cancelled ==>
              exists p: nat :: StartOf(acts, p) == Some(StartCancel(p, b.bookingId, b.userId))
    ensures b.status == Expired ==> b.expiresAt < Exec(s, acts).db.now
    ensures forall c :: c in Exec(s, acts).claims && c.bookingId == b.bookingId ==>
              && b.status != Pending
              && (StartOf(acts, c.who) == Some(StartCancel(c.who, b.bookingId, b.userId))
                  || (StartOf(acts, c.who) == Some(StartExpiry(c.who)) && b.expiresAt < Exec(s, acts).db.now))
  {
    var t := Exec(s, acts);
    StoredFacts(s, acts, b);
    forall c | c in t.claims && c.bookingId == b.bookingId
      ensures b.status != Pending
      ensures StartOf(acts, c.who) == Some(StartCancel(c.who, b.bookingId, b.userId))
              || (StartOf(acts, c.who) == Some(StartExpiry(c.who)) && b.expiresAt < t.db.now)
    {
      ClaimMeans(t, acts, c, b);
    }
  }

  // ---------------------------------------------------------------- how long a lock is held

  /** `p` is under its lock with a lease that ends at `until`, or past it. */
  ghost predicate LeaseFixed(s: State, p: nat, req: Request, until: int) {
    && p in s.procs && !s.procs[p].Lookup? && !s.procs[p].Acquire?
    && (InCritical(s.procs[p]) ==> s.procs[p].req == req && s.procs[p].lease == until)
  }

  lemma LeaseFixedStep(s: State, a: Action, p: nat, req: Request, until: int)
    requires LeaseFixed(s, p, req, until)
    ensures LeaseFixed(Do(s, a), p, req, until)
  {
    if a == Advance(p) {
      if InCritical(s.procs[p]) { CriticalFixed(s, p, req, until); } else { OthersFixed(s, p); }
    } else {
      OthersStay(s, a, p);
    }
  }

  lemma CriticalFixed(s: State, p: nat, req: Request, until: int)
    requires LeaseFixed(s, p, req, until) && InCritical(s.procs[p])
    ensures LeaseFixed(Step(s, p), p, req, until)
  {
  }

  lemma OthersFixed(s: State, p: nat)
    requires p in s.procs && !Creating(s.procs[p])
    ensures p in Step(s, p).procs && !Creating(Step(s, p).procs[p])
  {
  }

  lemma {:induction false} LeaseFixedRun(s: State, more: seq<Action>, p: nat, req: Request, until: int)
    requires LeaseFixed(s, p, req, until)
    ensures LeaseFixed(Exec(s, more), p, req, until)
  {
    if more != [] {
      LeaseFixedRun(s, more[..|more| - 1], p, req, until);
      LeaseFixedStep(Exec(s, more[..|more| - 1]), more[|more| - 1], p, req, until);
    }
  }

  /** The lock is taken exactly when no live lease stands in the way, for
      `SEAT_HOLD_MINUTES * 60 + 30` seconds, and for that long every continuation in which the call
      is still under way finds it taken. */
  lemma LockLasts(s: State, acts: seq<Action>, p: nat, more: seq<Action>)
    requires Init(s)
    requires var t := Exec(s, acts); p in t.procs && t.procs[p].Acquire?
    ensures var t := Exec(s, acts);
            var req := t.procs[p].req;
            var key, until := LockKeyOf(req), t.db.now + (s.cfg.holdMinutes * 60 + 30) * 1000;
            var u, v := Do(t, Advance(p)), Exec(Do(t, Advance(p)), more);
            if key in t.db.leases && t.db.now < t.db.leases[key].expiresAt
            then u == SetProc(t, p, Done(Rejected(LockConflict)))
            else
              && u.db == t.db.(leases := t.db.leases[key := Lease(p, until)])
              && (p in v.procs && InCritical(v.procs[p]) && v.db.now < until ==>
                    key in v.db.leases && v.db.leases[key] == Lease(p, until))
  {
    var t := Exec(s, acts);
    ConfigFixed(s, acts);
    LockTaken(t, p);
    if !LeaseLive(t.db.leases, LockKeyOf(t.procs[p].req), t.db.now) {
      ExecStep(s, acts, Advance(p));
      ExecAppend(s, acts + [Advance(p)], more);
      LeaseAlways(s, acts + [Advance(p)] + more);
      LockHeld(Do(t, Advance(p)), more, p, t.procs[p].req, t.db.now + (s.cfg.holdMinutes * 60 + 30) * 1000);
    }
  }

  lemma LockTaken(t: State, p: nat)
    requires p in t.procs && t.procs[p].Acquire?
    ensures var req := t.procs[p].req;
            var key, until, u := LockKeyOf(req), t.db.now + (t.cfg.holdMinutes * 60 + 30) * 1000, Do(t, Advance(p));
            if LeaseLive(t.db.leases, key, t.db.now) then u == SetProc(t, p, Done(Rejected(LockConflict)))
            else u.db == t.db.(leases := t.db.leases[key := Lease(p, until)]) && u.procs == t.procs[p := Read(req, until)]
  {
  }

  lemma LockHeld(u: State, more: seq<Action>, p: nat, req: Request, until: int)
    requires p in u.procs && u.procs[p] == Read(req, until) && LeaseInv(Exec(u, more))
    ensures var v, key := Exec(u, more), LockKeyOf(req);
            p in v.procs && InCritical(v.procs[p]) && v.db.now < until ==>
              key in v.db.leases && v.db.leases[key] == Lease(p, until)
  {
    LeaseFixedRun(u, more, p, req, until);
    assert InCritical(Exec(u, more).procs[p]) && Exec(u, more).db.now < until ==> Holds(Exec(u, more), p);
  }

  /** The call is under its lock, has crashed, or has left no live lease of its own under its key. */
  ghost predicate GivesBack(s: State, p: nat, req: Request) {
    && p in s.procs
    && match s.procs[p]
       case Read(r, _) => r == req
       case Check(r, _, _) => r == req
       case Commit(r, _, _) => r == req
       case Save(r, _, _) => r == req
       case Unlock(r, _, _) => r == req
       case Crashed => true
       case Done(_) => !OwnLease(s, p, LockKeyOf(req))
       case _ => false
  }

  predicate OwnLease(s: State, p: nat, key: string) {
    key in s.db.leases && s.db.now < s.db.leases[key].expiresAt && s.db.leases[key].token == p
  }

  /** In none of the steps the unlock call of `p` itself throws. */
  ghost predicate UnlockAnswers(s: State, more: seq<Action>, p: nat) {
    more == [] ||
    var before, a := more[..|more| - 1], more[|more| - 1];
    UnlockAnswers(s, before, p) && !(a == Fail(p) && p in Exec(s, before).procs && Exec(s, before).procs[p].Unlock?)
  }

  lemma StepLeases(s: State, q: nat, p: nat, key: string)
    requires q in s.procs && q != p && OwnLease(Step(s, q), p, key)
    ensures OwnLease(s, p, key)
  {
    if !s.procs[q].Acquire? && !s.procs[q].Unlock? { LeaseUntouched(s, q); }
  }

  lemma NoNewLease(s: State, a: Action, p: nat, key: string)
    requires a != Advance(p) && OwnLease(Do(s, a), p, key)
    ensures OwnLease(s, p, key)
  {
    if a.Advance? && a.p in s.procs { StepLeases(s, a.p, p, key); }
  }

  lemma OwnStepGivesBack(s: State, p: nat, req: Request)
    requires GivesBack(s, p, req)
    ensures GivesBack(Step(s, p), p, req)
  {
  }

  lemma GivesBackStep(s: State, a: Action, p: nat, req: Request)
    requires GivesBack(s, p, req) && !(a == Fail(p) && s.procs[p].Unlock?)
    ensures GivesBack(Do(s, a), p, req)
  {
    if a == Advance(p) {
      OwnStepGivesBack(s, p, req);
    } else {
      OthersStay(s, a, p);
      if OwnLease(Do(s, a), p, LockKeyOf(req)) { NoNewLease(s, a, p, LockKeyOf(req)); }
    }
  }

  /** `finally`: whatever is thrown while a call is under its lock, in every continuation in which it
      comes to an answer and its unlock call does not itself throw, no live lease of it is left. */
  lemma {:induction false} FinallyUnlocks(s: State, more: seq<Action>, p: nat, req: Request)
    requires GivesBack(s, p, req) && UnlockAnswers(s, more, p)
    ensures GivesBack(Exec(s, more), p, req)
  {
    if more != [] {
      FinallyUnlocks(s, more[..|more| - 1], p, req);
      GivesBackStep(Exec(s, more[..|more| - 1]), more[|more| - 1], p, req);
    }
  }
}
