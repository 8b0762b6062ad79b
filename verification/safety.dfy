/** Safety over every run: refinement of the atomic machine, what an equal version means, no
    double hold, and the lease protocol. */
module Safety {
  import opened Options
  import opened Seats
  import opened History
  import opened Protocol
  import opened Refinement
  import opened Outcomes

  lemma CommitRefines(s: State, p: nat, req: Request, lease: int, plan: Plan)
    requires Inv(s) && p in s.procs && s.procs[p] == Commit(req, lease, plan) && CommitFilter(s.db.show, req, plan)
    ensures var op := Reserve(p, SetOf(req.seatIds), plan.at, plan.at + s.cfg.HoldMs());
            && OpOk(Replay(s.cfg.first, s.log), s.cfg.HoldMs(), s.log, op)
            && StepCommit(s, p, req, lease, plan).log == s.log + [op]
            && StepCommit(s, p, req, lease, plan).db.show == Put(s.db.show, op)
  {
    CommitOpOk(s, p, req, lease, plan);
    PlanFacts(s, req, plan);
    CommitWritesOp(s, p, req, lease, plan, Reserve(p, SetOf(req.seatIds), plan.at, plan.at + s.cfg.HoldMs()));
  }

  /** `t` differs from `s` by nothing the atomic machine sees, or by one of its operations. */
  ghost predicate Refines(s: State, t: State) {
    || (t.log == s.log && t.db.show == s.db.show.(isActive := t.db.show.isActive))
    || (|t.log| == |s.log| + 1 && s.log <= t.log
        && OpOk(Replay(s.cfg.first, s.log), s.cfg.HoldMs(), s.log, t.log[|s.log|])
        && t.db.show == Put(s.db.show, t.log[|s.log|]))
  }

  predicate WritesSeats(q: Proc) { q.Commit? || q.CancelRelease? || q.ExpiryRelease? }

  lemma WriteRefines(s: State, p: nat)
    requires Inv(s) && p in s.procs && WritesSeats(s.procs[p])
    ensures Refines(s, Step(s, p))
  {
    assert ProcOk(s, p, s.procs[p]);
    match s.procs[p]
    case Commit(req, lease, plan) =>
      if CommitFilter(s.db.show, req, plan) { CommitRefines(s, p, req, lease, plan); }
    case CancelRelease(b) => ReleaseOpOk(s, b);
    case ExpiryRelease(_, batch) => ReleaseOpOk(s, batch[0]);
  }

  lemma OtherRefines(s: State, a: Action)
    requires a.Advance? && a.p in s.procs ==> !WritesSeats(s.procs[a.p])
    ensures Refines(s, Do(s, a))
  {
  }

  /** One fine-grained step is either invisible to the atomic machine or one of its operations. */
  lemma StepRefines(s: State, a: Action)
    requires Inv(s)
    ensures Refines(s, Do(s, a))
  {
    if a.Advance? && a.p in s.procs && WritesSeats(s.procs[a.p]) {
      WriteRefines(s, a.p);
    } else {
      OtherRefines(s, a);
    }
  }

  /** Whole runs: the log is a run of the atomic machine and the stored document is its result. */
  lemma RunsRefine(s: State, acts: seq<Action>)
    requires Init(s)
    ensures var t := Exec(s, acts);
            && Valid(s.cfg.first, s.cfg.HoldMs(), t.log)
            && t.db.show == Replay(s.cfg.first, t.log).(isActive := t.db.show.isActive)
            && t.db.show.seatVersion == s.cfg.first.seatVersion + |t.log|
  {
    InvAlways(s, acts);
    ConfigFixed(s, acts);
    ReplayFrame(s.cfg.first, Exec(s, acts).log);
  }

  lemma {:induction false} ConfigFixed(s: State, acts: seq<Action>)
    ensures Exec(s, acts).cfg == s.cfg
  {
    if acts != [] { ConfigFixed(s, acts[..|acts| - 1]); }
  }

  lemma SameVersionSameSeats(t: State, snap: Show)
    requires t.db.show.seats == Replay(t.cfg.first, t.log).seats && t.db.show.seatVersion == Replay(t.cfg.first, t.log).seatVersion
    requires SnapOk(t, snap) && snap.seatVersion == t.db.show.seatVersion
    ensures snap.seats == t.db.show.seats
  {
    ReplayFrame(t.cfg.first, t.log);
    assert t.log[..|t.log|] == t.log;
  }

  lemma FilterIsVersion(t: State, req: Request, plan: Plan)
    requires ShowOk(t) && PlanOk(t, req, plan)
    ensures CommitFilter(t.db.show, req, plan) <==> t.db.show.seatVersion == plan.snap.seatVersion
    ensures CommitFilter(t.db.show, req, plan) ==> t.db.show.seats == plan.snap.seats
  {
    PlanFacts(t, req, plan);
    assert t.db.show.showId == t.cfg.first.showId by { ReplayFrame(t.cfg.first, t.log); }
    if t.db.show.seatVersion == plan.snap.seatVersion {
      SameVersionSameSeats(t, plan.snap);
    }
  }

  /** Since every seat write bumps the version, an unchanged version means unchanged seats: the
      `$elemMatch` guard never rejects a commit whose version matches, and the amount charged is
      the sum of the prices of the seats as stored at the moment of the commit, and the fee. */
  lemma VersionImpliesSeats(s: State, acts: seq<Action>, p: nat)
    requires Init(s)
    requires var t := Exec(s, acts); p in t.procs && t.procs[p].Commit?
    ensures var t := Exec(s, acts);
            var req, plan := t.procs[p].req, t.procs[p].plan;
            && (CommitFilter(t.db.show, req, plan) <==> t.db.show.seatVersion == plan.snap.seatVersion)
            && (CommitFilter(t.db.show, req, plan) ==>
                  && t.db.show.seats == plan.snap.seats
                  && Terms(NewBooking(t.cfg, p, req, plan), p, req, t.db.show.seats)
                  && |Selected(t.db.show.seats, SetOf(req.seatIds))| == |req.seatIds|)
  {
    var t := Exec(s, acts);
    var req, plan := t.procs[p].req, t.procs[p].plan;
    assert ShowOk(t) && PlanOk(t, req, plan) by {
      InvAlways(s, acts);
      assert ProcOk(t, p, t.procs[p]);
    }
    PlanExists(t, req, plan);
    PlanFacts(t, req, plan);
    NewBookingGrants(t.cfg, p, req, plan);
    FilterIsVersion(t, req, plan);
  }

  /** In every interleaving, two committed reservations of one seat whose holds overlap have a
      release of that seat between them. */
  lemma NoDoubleHoldInRuns(s: State, acts: seq<Action>, a: nat, b: nat, id: string)
    requires Init(s)
    requires var log := Exec(s, acts).log;
             && a < b < |log| && log[a].Reserve? && log[b].Reserve?
             && id in log[a].ids && id in log[b].ids && log[a].until > log[b].at
    ensures var log := Exec(s, acts).log;
            exists c :: a < c < b && log[c].Release? && id in log[c].ids
  {
    InvAlways(s, acts);
    NoDoubleHold(Exec(s, acts).cfg.first, Exec(s, acts).cfg.HoldMs(), Exec(s, acts).log, a, b, id);
  }

  // ---------------------------------------------------------------- leases

  predicate InCritical(q: Proc) {
    q.Read? || q.Check? || q.Commit? || q.Save? || q.Unlock?
  }

  /** In the critical section with a lease that has not run out. */
  predicate Holds(s: State, p: nat) {
    p in s.procs && InCritical(s.procs[p]) && s.db.now < s.procs[p].lease
  }

  ghost predicate LeaseInv(s: State) {
    && (forall p :: Holds(s, p) ==>
          var key := LockKeyOf(s.procs[p].req);
          key in s.db.leases && s.db.leases[key] == Lease(p, s.procs[p].lease))
    && (forall key :: key in s.db.leases ==> s.db.leases[key].expiresAt <= s.db.now + s.cfg.LeaseMs())
  }

  /** A step by `p` that leaves the lease table alone and does not bring `p` into the section. */
  lemma LeaseQuiet(s: State, t: State, p: nat)
    requires LeaseInv(s) && p in t.procs && t.procs == s.procs[p := t.procs[p]]
    requires t.cfg == s.cfg && t.db.leases == s.db.leases && t.db.now == s.db.now
    requires InCritical(t.procs[p]) ==>
               p in s.procs && InCritical(s.procs[p]) && s.procs[p].req == t.procs[p].req && s.procs[p].lease == t.procs[p].lease
    ensures LeaseInv(t)
  {
    forall x | Holds(t, x)
      ensures var key := LockKeyOf(t.procs[x].req); key in t.db.leases && t.db.leases[key] == Lease(x, t.procs[x].lease)
    {
      assert Holds(s, x);
    }
  }

  lemma AcquireLease(s: State, p: nat, req: Request)
    requires LeaseInv(s) && p in s.procs && s.procs[p] == Acquire(req)
    ensures LeaseInv(StepAcquire(s, p, req))
  {
    var t := StepAcquire(s, p, req);
    forall x | Holds(t, x)
      ensures var key := LockKeyOf(t.procs[x].req); key in t.db.leases && t.db.leases[key] == Lease(x, t.procs[x].lease)
    {
      if x != p { assert Holds(s, x); }
    }
  }

  lemma UnlockLease(s: State, p: nat, req: Request, lease: int, result: Result)
    requires LeaseInv(s) && p in s.procs && s.procs[p] == Unlock(req, lease, result)
    ensures LeaseInv(StepUnlock(s, p, req, result))
  {
    var t := StepUnlock(s, p, req, result);
    forall x | Holds(t, x)
      ensures var key := LockKeyOf(t.procs[x].req); key in t.db.leases && t.db.leases[key] == Lease(x, t.procs[x].lease)
    {
      assert x != p && Holds(s, x);
    }
  }

  lemma TickLease(s: State, ms: nat)
    requires LeaseInv(s)
    ensures LeaseInv(Do(s, Tick(ms)))
  {
    var t := Do(s, Tick(ms));
    forall x | Holds(t, x)
      ensures var key := LockKeyOf(t.procs[x].req); key in t.db.leases && t.db.leases[key] == Lease(x, t.procs[x].lease)
    {
      assert Holds(s, x);
    }
  }

  lemma StepLease(s: State, p: nat)
    requires LeaseInv(s) && p in s.procs
    ensures LeaseInv(Step(s, p))
  {
    match s.procs[p]
    case Acquire(req) => AcquireLease(s, p, req);
    case Unlock(req, lease, result) => UnlockLease(s, p, req, lease, result);
    case _ =>
      LeaseUntouched(s, p);
      LeaseQuiet(s, Step(s, p), p);
  }

  ghost predicate LeaseKept(s: State, t: State, p: nat) {
    && p in s.procs && p in t.procs && t.procs == s.procs[p := t.procs[p]]
    && t.cfg == s.cfg && t.db.leases == s.db.leases && t.db.now == s.db.now
    && (InCritical(t.procs[p]) ==>
          InCritical(s.procs[p]) && s.procs[p].req == t.procs[p].req && s.procs[p].lease == t.procs[p].lease)
  }

  lemma CriticalLease(s: State, p: nat)
    requires p in s.procs && InCritical(s.procs[p]) && !s.procs[p].Unlock?
    ensures LeaseKept(s, Step(s, p), p)
  {
  }

  lemma LeaseUntouched(s: State, p: nat)
    requires p in s.procs && !s.procs[p].Acquire? && !s.procs[p].Unlock?
    ensures LeaseKept(s, Step(s, p), p)
  {
    if InCritical(s.procs[p]) { CriticalLease(s, p); }
  }

  lemma FailureLease(s: State, a: Action)
    requires LeaseInv(s) && (a.Fail? || a.Crash?)
    ensures LeaseInv(Do(s, a))
  {
    if a.p in s.procs { LeaseQuiet(s, Do(s, a), a.p); }
  }

  lemma StartLease(s: State, a: Action)
    requires LeaseInv(s) && (a.StartCreate? || a.StartCancel? || a.StartExpiry?)
    ensures LeaseInv(Do(s, a))
  {
    if a.p !in s.procs { LeaseQuiet(s, Do(s, a), a.p); }
  }

  lemma DoKeepsLease(s: State, a: Action)
    requires LeaseInv(s)
    ensures LeaseInv(Do(s, a))
  {
    match a
    case Tick(ms) => TickLease(s, ms);
    case Deactivate =>
      forall x | Holds(Do(s, a), x) ensures Holds(s, x) { }
    case Advance(p) => if p in s.procs { StepLease(s, p); }
    case FindBatch(p, _) => if p in s.procs { LeaseQuiet(s, Do(s, a), p); }
    case Fail(_) => FailureLease(s, a);
    case Crash(_) => FailureLease(s, a);
    case _ => StartLease(s, a);
  }

  lemma {:induction false} LeaseAlways(s: State, acts: seq<Action>)
    requires Init(s)
    ensures LeaseInv(Exec(s, acts))
  {
    if acts != [] {
      LeaseAlways(s, acts[..|acts| - 1]);
      DoKeepsLease(Exec(s, acts[..|acts| - 1]), acts[|acts| - 1]);
    }
  }

  /** At most one process is in the critical section of a lock key with an unexpired lease. */
  lemma LeaseExclusive(s: State, acts: seq<Action>, p: nat, q: nat)
    requires Init(s)
    requires var t := Exec(s, acts);
             Holds(t, p) && Holds(t, q) && LockKeyOf(t.procs[p].req) == LockKeyOf(t.procs[q].req)
    ensures p == q
  {
    LeaseAlways(s, acts);
  }

  /** However late `p` unlocks, an unexpired lease of another process survives it. */
  lemma LateUnlockHarmless(s: State, acts: seq<Action>, p: nat, q: nat)
    requires Init(s) && p != q
    requires var t := Exec(s, acts); p in t.procs && t.procs[p].Unlock? && Holds(t, q)
    ensures var t := Exec(s, acts);
            var u, key := Do(t, Advance(p)), LockKeyOf(t.procs[q].req);
            key in u.db.leases && u.db.leases[key] == t.db.leases[key] == Lease(q, t.procs[q].lease)
  {
    LeaseAlways(s, acts);
  }
}
