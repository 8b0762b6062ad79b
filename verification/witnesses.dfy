/** Short runs showing that the conditions of the exclusivity, ledger and counter theorems are
    needed: a room with one seat, ten-minute holds. */
module Witnesses {
  import opened Options
  import opened Seats
  import opened History
  import opened Protocol
  import opened Refinement
  import opened Exclusive
  import opened Idempotency
  import opened Ledger
  import opened Recovery

  function Room(): Show {
    Show("SHOW-1", 100_000_000, true, 1, 1, 0, [Seat("A1", 100.0, Available, None, None)])
  }

  function Opening(): State {
    State(Config(Room(), 10), Db(0, Room(), [], map[]), map[], [], [])
  }

  function Ask(key: string): Request {
    Request("ann", "SHOW-1", ["A1"], key)
  }

  /** Once the ten minutes of an earlier hold are over. */
  const LATER: nat := 700_000

  lemma OpeningInit()
    ensures Init(Opening())
  {
    assert Room().seats[1..] == [];
  }

  lemma AskOneSeat(key: string)
    ensures SetOf(Ask(key).seatIds) == {"A1"}
  {
    assert Ask(key).seatIds[0] == "A1";
  }

  /** The single seat can be had. */
  ghost predicate SeatFree(s: State, p: nat, key: string) {
    && p !in s.procs && FindByKey(s.db.bookings, key).None? && s.db.leases == map[]
    && s.db.show.showId == "SHOW-1" && s.db.show.isActive && s.db.show.showTime > s.db.now
    && |s.db.show.seats| == 1 && s.db.show.seats[0].seatId == "A1" && !Blocked(s.db.show.seats[0], s.db.now)
  }

  lemma SeatFreeReady(s: State, p: nat, key: string)
    requires SeatFree(s, p, key)
    ensures Ready(s, p, Ask(key))
    ensures LineIds(SoloBooking(s, p, Ask(key)).lines) == {"A1"}
  {
    AskOneSeat(key);
    assert s.db.show.seats[1..] == [];
    assert Selected(s.db.show.seats, {"A1"}) == [s.db.show.seats[0]];
    LineIdsOf(Selected(s.db.show.seats, {"A1"}));
  }

  /** `t` is `s` after a lone call on the single seat. */
  ghost predicate SeatTaken(s: State, t: State, p: nat, key: string) {
    var until := s.db.now + s.cfg.HoldMs();
    && t.cfg == s.cfg && t.db.now == s.db.now && t.db.leases == map[] && t.procs.Keys == s.procs.Keys + {p}
    && t.db.show.showId == s.db.show.showId && t.db.show.isActive && t.db.show.showTime == s.db.show.showTime
    && |s.db.show.seats| == 1
    && t.db.show.seats == [s.db.show.seats[0].(status := Reserved, reservedBy := Some(p), reservedUntil := Some(until))]
    && t.db.show.availableSeats == s.db.show.availableSeats - 1
    && |t.db.bookings| == |s.db.bookings| + 1 && t.db.bookings[..|s.db.bookings|] == s.db.bookings
    && Fresh(t.db.bookings[|s.db.bookings|], p, key, until)
  }

  lemma OneSeat(s: State, p: nat, key: string, n: nat)
    requires n >= CALL_STEPS
    requires SeatFree(s, p, key)
    ensures SeatTaken(s, Exec(s, Solo(p, Ask(key), n)), p, key)
  {
    SeatFreeReady(s, p, key);
    SoloSucceeds(s, p, Ask(key), n);
    AfterOneSeat(s, p, key);
  }

  lemma AfterOneSeat(s: State, p: nat, key: string)
    requires SeatFree(s, p, key)
    ensures SeatTaken(s, AfterSolo(s, p, Ask(key)), p, key)
  {
    SeatFreeReady(s, p, key);
    AskOneSeat(key);
    assert AfterSolo(s, p, Ask(key)).db.leases == map[];
  }

  predicate Fresh(b: Booking, p: nat, key: string, until: int) {
    PendingAs(b, p, {"A1"}, until) && b.idempotencyKey == key && b.userId == "ann" && |b.lines| == 1
  }

  // ---------------------------------------------------------------- short lists

  lemma ExecFour(s: State, a: Action, b: Action, c: Action, d: Action)
    ensures Exec(s, [a, b, c, d]) == Do(Do(Do(Do(s, a), b), c), d)
  {
    assert [a, b] + [c, d] == [a, b, c, d];
    ExecAppend(s, [a, b], [c, d]);
    ExecTwo(s, a, b);
    ExecTwo(Do(Do(s, a), b), c, d);
  }

  lemma ExecTwo(s: State, a: Action, b: Action)
    ensures Exec(s, [a, b]) == Do(Do(s, a), b)
  {
    assert [a] + [b] == [a, b];
    ExecStep(s, [a], b);
    ExecOne(s, a);
  }

  // ---------------------------------------------------------------- runs without cancels

  ghost predicate NoCancels(acts: seq<Action>) {
    forall k :: 0 <= k < |acts| ==> !acts[k].StartCancel?
  }

  ghost predicate NoneCancels(s: State) {
    forall p :: p in s.procs ==> !s.procs[p].CancelRead? && !s.procs[p].CancelFlip?
  }

  lemma AdvanceNoFlip(s: State, p: nat)
    requires NoneCancels(s) && p in s.procs
    ensures NoneCancels(Step(s, p))
  {
    if Creating(s.procs[p]) { CreatingIsOwn(s, p); } else { OtherIsOwn(s, p); }
    NextNoFlip(s, p);
  }

  lemma NextNoFlip(s: State, p: nat)
    requires p in s.procs && !s.procs[p].CancelRead? && !s.procs[p].CancelFlip?
    ensures p in Step(s, p).procs && !Step(s, p).procs[p].CancelRead? && !Step(s, p).procs[p].CancelFlip?
  {
  }

  lemma StepNoFlip(s: State, a: Action)
    requires !a.StartCancel? && NoneCancels(s)
    ensures NoneCancels(Do(s, a))
  {
    if a.Advance? && a.p in s.procs { AdvanceNoFlip(s, a.p); }
  }

  lemma {:induction false} NoCancelsFresh(s: State, acts: seq<Action>)
    requires s.procs == map[] && NoCancels(acts)
    ensures FreshFlips(s, acts)
    ensures NoneCancels(Exec(s, acts))
  {
    if acts != [] {
      NoCancelsFresh(s, acts[..|acts| - 1]);
      StepNoFlip(Exec(s, acts[..|acts| - 1]), acts[|acts| - 1]);
    }
  }

  lemma {:induction false} RepeatNoCancels(p: nat, n: nat)
    ensures NoCancels(Repeat(Advance(p), n))
  {
    if n != 0 { RepeatNoCancels(p, n - 1); }
  }

  lemma BothNoCancels(a: seq<Action>, b: seq<Action>)
    requires NoCancels(a) && NoCancels(b)
    ensures NoCancels(a + b)
  {
  }

  lemma SoloNoCancels(p: nat, key: string, n: nat)
    ensures NoCancels(Solo(p, Ask(key), n))
  {
    RepeatNoCancels(p, n);
    BothNoCancels([StartCreate(p, Ask(key))], Repeat(Advance(p), n));
  }

  lemma TakeoverNoCancels(n: nat)
    ensures NoCancels(Takeover(n))
  {
    SoloNoCancels(1, "a", n);
    SoloNoCancels(2, "b", n);
    BothNoCancels(Solo(1, Ask("a"), n), [Tick(LATER)]);
    BothNoCancels(Solo(1, Ask("a"), n) + [Tick(LATER)], Solo(2, Ask("b"), n));
  }

  // ---------------------------------------------------------------- a takeover

  function Takeover(n: nat): seq<Action> {
    Solo(1, Ask("a"), n) + [Tick(LATER)] + Solo(2, Ask("b"), n)
  }

  /** The state `s`, with the single seat held by the first call only. */
  ghost predicate Held(s: State) {
    && s.cfg == Config(Room(), 10) && s.db.now == 0 && s.db.leases == map[] && s.procs.Keys == {1}
    && s.db.show.showId == "SHOW-1" && s.db.show.isActive && s.db.show.showTime == 100_000_000
    && s.db.show.seats == [Seat("A1", 100.0, Reserved, Some(1), Some(600_000))]
    && s.db.show.availableSeats == 0
    && |s.db.bookings| == 1 && Fresh(s.db.bookings[0], 1, "a", 600_000)
  }

  /** The seat taken over by the second call, both bookings pending. */
  ghost predicate Taken(t: State) {
    && t.cfg == Config(Room(), 10) && t.db.now == LATER && t.db.leases == map[] && t.procs.Keys == {1, 2}
    && t.db.show.showId == "SHOW-1" && t.db.show.isActive && t.db.show.showTime == 100_000_000
    && t.db.show.seats == [Seat("A1", 100.0, Reserved, Some(2), Some(1_300_000))]
    && t.db.show.availableSeats == -1
    && |t.db.bookings| == 2 && Fresh(t.db.bookings[0], 1, "a", 600_000) && Fresh(t.db.bookings[1], 2, "b", 1_300_000)
  }

  lemma HeldIs(n: nat)
    requires n >= CALL_STEPS
    ensures Held(Exec(Opening(), Solo(1, Ask("a"), n)))
  {
    OneSeat(Opening(), 1, "a", n);
  }

  lemma FreeAgain(s: State)
    requires Held(s)
    ensures SeatFree(Do(s, Tick(LATER)), 2, "b")
  {
    var w := Do(s, Tick(LATER));
    assert s.db.bookings[1..] == [] && s.db.bookings[0].idempotencyKey[0] != "b"[0];
    assert FindByKey(w.db.bookings, "b") == FindByKey(s.db.bookings[1..], "b");
  }

  lemma SecondHold(s: State, second: seq<Action>, n: nat)
    requires n >= CALL_STEPS
    requires Held(s) && second == Solo(2, Ask("b"), n)
    ensures Taken(Exec(Do(s, Tick(LATER)), second))
  {
    var w := Do(s, Tick(LATER));
    FreeAgain(s);
    OneSeat(w, 2, "b", n);
    var t := Exec(w, second);
    assert t.db.bookings[0] == t.db.bookings[..1][0] == s.db.bookings[0];
    assert w.db.now + w.cfg.HoldMs() == 1_300_000;
  }

  lemma InTwo(o: State, first: seq<Action>, second: seq<Action>)
    ensures Exec(o, first + [Tick(LATER)] + second) == Exec(Do(Exec(o, first), Tick(LATER)), second)
  {
    ExecStep(o, first, Tick(LATER));
    ExecAppend(o, first + [Tick(LATER)], second);
  }

  lemma TakenIs(o: State, n: nat)
    requires n >= CALL_STEPS
    requires o == Opening()
    ensures Taken(Exec(o, Takeover(n)))
  {
    var second := Solo(2, Ask("b"), n);
    HeldIs(n);
    InTwo(o, Solo(1, Ask("a"), n), second);
    SecondHold(Exec(o, Solo(1, Ask("a"), n)), second, n);
  }

  /** Taking over a lapsed hold subtracts its seat twice: a counter below zero. */
  lemma TakeoverBelowZero(n: nat)
    requires n >= CALL_STEPS
    ensures Init(Opening()) && FreshFlips(Opening(), Takeover(n))
    ensures Exec(Opening(), Takeover(n)).db.show.availableSeats == -1
  {
    OpeningInit();
    TakenIs(Opening(), n);
    TakeoverNoCancels(n);
    NoCancelsFresh(Opening(), Takeover(n));
  }

  // ---------------------------------------------------------------- a stolen seat

  /** What the worker does about one lapsed booking. */
  function Sweep(b: Booking): seq<Action> {
    [StartExpiry(3), FindBatch(3, [b]), Advance(3), Advance(3)]
  }

  lemma SweepFrees(s: State, old1: Booking, new2: Booking)
    requires s.procs.Keys == {1, 2} && s.db.bookings == [old1, new2] && s.db.now == LATER
    requires Fresh(old1, 1, "a", 600_000) && Fresh(new2, 2, "b", 1_300_000)
    requires |s.db.show.seats| == 1 && s.db.show.seats[0].seatId == "A1"
    ensures var t := Exec(s, Sweep(old1));
            && t.db.bookings == [old1.(status := Expired), new2] && t.db.now == LATER && t.db.leases == s.db.leases
            && t.db.show.showId == s.db.show.showId && t.db.show.isActive == s.db.show.isActive
            && t.db.show.showTime == s.db.show.showTime
            && t.db.show.seats == [s.db.show.seats[0].(status := Available, reservedBy := None, reservedUntil := None)]
            && t.procs.Keys == {1, 2, 3} && t.cfg == s.cfg
  {
    var t1 := Do(Do(s, StartExpiry(3)), FindBatch(3, [old1]));
    SweepFinds(s, old1, new2);
    SweepFlips(t1, old1, new2);
    SweepReleases(Do(t1, Advance(3)), old1);
    ExecFour(s, StartExpiry(3), FindBatch(3, [old1]), Advance(3), Advance(3));
  }

  lemma SweepFinds(s: State, old1: Booking, new2: Booking)
    requires s.procs.Keys == {1, 2} && s.db.bookings == [old1, new2] && s.db.now == LATER
    requires Fresh(old1, 1, "a", 600_000) && Fresh(new2, 2, "b", 1_300_000)
    ensures Do(Do(s, StartExpiry(3)), FindBatch(3, [old1])) == SetProc(s, 3, ExpiryFlip(LATER, [old1]))
  {
    assert s.db.bookings[0] == old1 && s.db.bookings[1] == new2;
    assert LegalBatch(s.db.bookings, LATER, [old1]);
    SetTwice(s.procs, 3, ExpiryFind(LATER), ExpiryFlip(LATER, [old1]));
  }

  lemma SweepFlips(s: State, old1: Booking, new2: Booking)
    requires 3 in s.procs && s.procs[3] == ExpiryFlip(LATER, [old1]) && s.db.bookings == [old1, new2]
    requires old1.bookingId == 1 && new2.bookingId == 2 && old1.status == Pending
    ensures var t := Do(s, Advance(3));
            && t.db == s.db.(bookings := [old1.(status := Expired), new2]) && t.cfg == s.cfg
            && t.procs == s.procs[3 := ExpiryRelease(LATER, [old1])]
  {
    assert FindById(s.db.bookings, 1) == Some(old1);
  }

  lemma SweepReleases(s: State, old1: Booking)
    requires 3 in s.procs && s.procs[3] == ExpiryRelease(LATER, [old1])
    ensures var t := Do(s, Advance(3));
            && t.db == s.db.(show := ReleaseWrite(s.db.show, LineIds(old1.lines), |old1.lines|)) && t.cfg == s.cfg
            && t.procs.Keys == s.procs.Keys
  {
  }

  lemma SharedSeat(s: State)
    requires |s.db.bookings| == 3 && s.db.now == LATER
    requires Fresh(s.db.bookings[1], 2, "b", 1_300_000) && Fresh(s.db.bookings[2], 4, "c", 1_300_000)
    ensures !ExclusiveHold(s)
  {
    assert "A1" in LineIds(s.db.bookings[1].lines) && "A1" in LineIds(s.db.bookings[2].lines);
  }

  lemma TheftEnds(s: State, a: Booking, last: seq<Action>, n: nat)
    requires n >= CALL_STEPS
    requires Taken(s) && a == s.db.bookings[0] && last == Solo(4, Ask("c"), n)
    ensures !ExclusiveHold(Exec(s, Sweep(a) + last))
  {
    var b := s.db.bookings[1];
    assert s.db.bookings == [a, b];
    SweepFrees(s, a, b);
    ExecAppend(s, Sweep(a), last);
    ThirdCall(Exec(s, Sweep(a)), a.(status := Expired), b, n);
  }

  lemma TheftNoCancels(a: Booking, n: nat)
    ensures NoCancels(Takeover(n) + (Sweep(a) + Solo(4, Ask("c"), n)))
  {
    TakeoverNoCancels(n);
    SoloNoCancels(4, "c", n);
    BothNoCancels(Sweep(a), Solo(4, Ask("c"), n));
    BothNoCancels(Takeover(n), Sweep(a) + Solo(4, Ask("c"), n));
  }

  /** A takeover, then the worker expires the lapsed booking and so frees the seat its successor
      holds, then a third call takes it: two pending, unlapsed bookings share the only seat. */
  lemma TheftSharesSeat(n: nat) returns (acts: seq<Action>)
    requires n >= CALL_STEPS
    ensures Init(Opening()) && NoCancels(acts) && !ExclusiveHold(Exec(Opening(), acts))
  {
    OpeningInit();
    acts := Theft(Opening(), Takeover(n), Solo(4, Ask("c"), n), n);
  }

  lemma Theft(o: State, takeover: seq<Action>, last: seq<Action>, n: nat) returns (acts: seq<Action>)
    requires n >= CALL_STEPS
    requires o == Opening() && takeover == Takeover(n) && last == Solo(4, Ask("c"), n)
    ensures NoCancels(acts) && !ExclusiveHold(Exec(o, acts))
  {
    var s := Exec(o, takeover);
    TakenIs(o, n);
    var a := s.db.bookings[0];
    acts := takeover + (Sweep(a) + last);
    ExecAppend(o, takeover, Sweep(a) + last);
    TheftEnds(s, a, last, n);
    TheftNoCancels(a, n);
  }

  lemma ThirdCall(s: State, a: Booking, b: Booking, n: nat)
    requires n >= CALL_STEPS
    requires s.db.bookings == [a, b] && a.idempotencyKey == "a" && Fresh(b, 2, "b", 1_300_000)
    requires s.cfg.holdMinutes == 10 && s.db.now == LATER && s.db.leases == map[] && s.procs.Keys == {1, 2, 3}
    requires s.db.show.showId == "SHOW-1" && s.db.show.isActive && s.db.show.showTime == 100_000_000
    requires |s.db.show.seats| == 1 && s.db.show.seats[0].seatId == "A1" && s.db.show.seats[0].status == Available
    ensures !ExclusiveHold(Exec(s, Solo(4, Ask("c"), n)))
  {
    FindByKeySound(s.db.bookings, "c");
    assert a.idempotencyKey[0] != "c"[0] && b.idempotencyKey[0] != "c"[0];
    OneSeat(s, 4, "c", n);
    var t := Exec(s, Solo(4, Ask("c"), n));
    assert t.db.bookings[..2][1] == b;
    SharedSeat(t);
  }

  // ---------------------------------------------------------------- two cancels

  /** Both cancels read before either flips. */
  function TwoCancels(): seq<Action> {
    [StartCancel(2, 1, "ann"), StartCancel(3, 1, "ann"), Advance(2), Advance(3)] +
    [Advance(2), Advance(3), Advance(2), Advance(3)]
  }

  lemma CancelTwice(s: State, b: Booking)
    requires s.procs.Keys == {1} && s.db.bookings == [b] && b.bookingId == 1 && b.status == Pending && b.userId == "ann"
    ensures var t := Exec(s, TwoCancels());
            t.db.show.availableSeats == s.db.show.availableSeats + 2 * |b.lines| && t.db.show.totalSeats == s.db.show.totalSeats
  {
    var t2 := Do(Do(s, StartCancel(2, 1, "ann")), StartCancel(3, 1, "ann"));
    var t4 := Do(Do(t2, Advance(2)), Advance(3));
    ExecFour(s, StartCancel(2, 1, "ann"), StartCancel(3, 1, "ann"), Advance(2), Advance(3));
    assert t4.procs[2] == CancelFlip(b) && t4.procs[3] == CancelFlip(b) && t4.db == s.db;
    ExecAppend(s, [StartCancel(2, 1, "ann"), StartCancel(3, 1, "ann"), Advance(2), Advance(3)],
               [Advance(2), Advance(3), Advance(2), Advance(3)]);
    BothFlip(t4, b);
  }

  lemma BothFlip(s: State, b: Booking)
    requires 2 in s.procs && 3 in s.procs && s.procs[2] == CancelFlip(b) && s.procs[3] == CancelFlip(b) && s.db.bookings == [b]
    ensures var t := Exec(s, [Advance(2), Advance(3), Advance(2), Advance(3)]);
            t.db.show.availableSeats == s.db.show.availableSeats + 2 * |b.lines| && t.db.show.totalSeats == s.db.show.totalSeats
  {
    var u := Do(Do(s, Advance(2)), Advance(3));
    ExecFour(s, Advance(2), Advance(3), Advance(2), Advance(3));
    assert u.procs[2] == CancelRelease(b) && u.procs[3] == CancelRelease(b) && u.db.show == s.db.show;
  }

  /** Two interleaved cancels of one booking release it twice: more free seats than the room has. */
  lemma CancelsOverfill(n: nat)
    requires n >= CALL_STEPS
    ensures Init(Opening())
    ensures var t := Exec(Opening(), Solo(1, Ask("a"), n) + TwoCancels());
            t.db.show.availableSeats == 2 && t.db.show.totalSeats == 1
  {
    var s := Exec(Opening(), Solo(1, Ask("a"), n));
    OpeningInit();
    HeldIs(n);
    ExecAppend(Opening(), Solo(1, Ask("a"), n), TwoCancels());
    assert s.db.bookings == [s.db.bookings[0]];
    CancelTwice(s, s.db.bookings[0]);
    InvAlways(Opening(), Solo(1, Ask("a"), n));
    ReplayFrame(s.cfg.first, s.log);
  }
}
