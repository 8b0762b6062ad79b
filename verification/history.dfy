/** The atomic machine behind the booking service: a show document changed only by whole
    reservations and whole releases. Its runs are logs; replaying a log gives the document. */
module History {
  import opened Options
  import opened Seats

  datatype Op =
    | Reserve(bookingId: nat, ids: set<string>, at: int, until: int)
    | Release(bookingId: nat, ids: set<string>)

  function Put(show: Show, op: Op): Show {
    match op
    case Reserve(b, ids, _, until) => ReserveWrite(show, ids, |ids|, b, until)
    case Release(_, ids) => ReleaseWrite(show, ids, |ids|)
  }

  function Replay(first: Show, log: seq<Op>): Show {
    if log == [] then first else Put(Replay(first, log[..|log| - 1]), log[|log| - 1])
  }

  ghost predicate ReservedIn(log: seq<Op>, b: nat) {
    exists k :: 0 <= k < |log| && log[k].Reserve? && log[k].bookingId == b
  }

  ghost predicate ReservedAs(log: seq<Op>, b: nat, ids: set<string>) {
    exists k :: 0 <= k < |log| && log[k].Reserve? && log[k].bookingId == b && log[k].ids == ids
  }

  ghost predicate ReleasedIn(log: seq<Op>, b: nat) {
    exists k :: 0 <= k < |log| && log[k].Release? && log[k].bookingId == b
  }

  /** When the atomic machine may take `op`: a reservation needs every seat present and unblocked
      at its own time and a new booking id; a release names an earlier reservation. */
  ghost predicate OpOk(show: Show, hold: nat, past: seq<Op>, op: Op) {
    && op.ids <= IdsOf(show.seats)
    && match op
       case Reserve(b, ids, at, until) =>
         && until == at + hold
         && !AnyBlocked(show.seats, ids, at)
         && !ReservedIn(past, b)
       case Release(b, ids) => ReservedAs(past, b, ids)
  }

  ghost predicate Valid(first: Show, hold: nat, log: seq<Op>) {
    log == [] ||
    var past := log[..|log| - 1];
    Valid(first, hold, past) && OpOk(Replay(first, past), hold, past, log[|log| - 1])
  }

  lemma {:induction false} ValidPrefix(first: Show, hold: nat, log: seq<Op>, k: nat)
    requires Valid(first, hold, log) && k <= |log|
    ensures Valid(first, hold, log[..k])
    ensures k < |log| ==> OpOk(Replay(first, log[..k]), hold, log[..k], log[k])
  {
    if k < |log| - 1 {
      var past := log[..|log| - 1];
      ValidPrefix(first, hold, past, k);
      assert past[..k] == log[..k];
    } else if k == |log| {
      assert log[..k] == log;
    }
  }

  lemma Extend(first: Show, hold: nat, log: seq<Op>, op: Op)
    requires Valid(first, hold, log) && OpOk(Replay(first, log), hold, log, op)
    ensures Valid(first, hold, log + [op])
    ensures Replay(first, log + [op]) == Put(Replay(first, log), op)
  {
    assert (log + [op])[..|log|] == log;
  }

  /** Writes never add, drop, rename, reprice or reorder a seat, nor touch the other fields. */
  lemma {:induction false} ReplayFrame(first: Show, log: seq<Op>)
    ensures var show := Replay(first, log);
            && |show.seats| == |first.seats|
            && (forall i :: 0 <= i < |show.seats| ==>
                  && show.seats[i].seatId == first.seats[i].seatId
                  && show.seats[i].price == first.seats[i].price)
            && IdsOf(show.seats) == IdsOf(first.seats)
            && show.showId == first.showId && show.showTime == first.showTime
            && show.totalSeats == first.totalSeats && show.isActive == first.isActive
            && show.seatVersion == first.seatVersion + |log|
  {
    if log != [] {
      ReplayFrame(first, log[..|log| - 1]);
    }
  }

  // ---------------------------------------------------------------- no double hold

  /** The last write that covers a seat is what the seat shows. */
  lemma {:induction false} LastWriter(first: Show, log: seq<Op>, k: nat, i: nat)
    requires k < |log| && log[k].Reserve? && i < |first.seats|
    requires first.seats[i].seatId in log[k].ids
    requires forall j :: k < j < |log| ==> first.seats[i].seatId !in log[j].ids
    ensures |Replay(first, log).seats| == |first.seats|
    ensures var seat := Replay(first, log).seats[i];
            && seat.status == Reserved
            && seat.reservedBy == Some(log[k].bookingId)
            && seat.reservedUntil == Some(log[k].until)
  {
    var past := log[..|log| - 1];
    ReplayFrame(first, past);
    if k < |log| - 1 {
      LastWriter(first, past, k, i);
    }
  }

  /** With no release in between, a later reservation of the same seat starts only after the
      earlier hold has lapsed, however many takeovers lie between the two. */
  lemma {:induction false} LapsedBefore(first: Show, hold: nat, log: seq<Op>, a: nat, b: nat, id: string)
    requires Valid(first, hold, log) && a < b < |log|
    requires log[a].Reserve? && log[b].Reserve? && id in log[a].ids && id in log[b].ids
    requires forall c :: a < c < b && log[c].Release? ==> id !in log[c].ids
    ensures log[a].until <= log[b].at
    decreases b
  {
    ValidPrefix(first, hold, log, b);
    ReplayFrame(first, log[..b]);
    var i :| 0 <= i < |first.seats| && first.seats[i].seatId == id;
    var c := LastCover(log, a, b, id);
    LastWriter(first, log[..b], c, i);
    if c != a {
      LapsedBefore(first, hold, log, a, c, id);
      ValidPrefix(first, hold, log, c);
    }
  }

  lemma {:induction false} LastCover(log: seq<Op>, a: nat, b: nat, id: string) returns (c: nat)
    requires a < b <= |log| && id in log[a].ids
    ensures a <= c < b && id in log[c].ids
    ensures forall j :: c < j < b ==> id !in log[j].ids
  {
    c := b - 1;
    while id !in log[c].ids
      invariant a <= c < b
      invariant forall j :: c < j < b ==> id !in log[j].ids
      decreases c
    {
      c := c - 1;
    }
  }

  /** Two reservations of one seat whose holds overlap in time have a release of that seat
      between them. */
  lemma NoDoubleHold(first: Show, hold: nat, log: seq<Op>, a: nat, b: nat, id: string)
    requires Valid(first, hold, log) && a < b < |log|
    requires log[a].Reserve? && log[b].Reserve? && id in log[a].ids && id in log[b].ids
    requires log[a].until > log[b].at
    ensures exists c :: a < c < b && log[c].Release? && id in log[c].ids
  {
    if forall c :: a < c < b && log[c].Release? ==> id !in log[c].ids {
      LapsedBefore(first, hold, log, a, b, id);
    }
  }

  // ---------------------------------------------------------------- the ledger

  /** Sum of the sizes of the reservations among the first `n` operations never released in `log`. */
  ghost function Outstanding(log: seq<Op>, n: nat): nat
    requires n <= |log|
  {
    if n == 0 then 0
    else Outstanding(log, n - 1) +
         if log[n - 1].Reserve? && !ReleasedIn(log, log[n - 1].bookingId) then |log[n - 1].ids| else 0
  }

  ghost predicate ReleasedOnce(log: seq<Op>) {
    forall j, k :: 0 <= j < k < |log| && log[j].Release? && log[k].Release? ==> log[j].bookingId != log[k].bookingId
  }

  /** Adding a reservation leaves the earlier terms alone. */
  lemma {:induction false} OutstandingReserve(log: seq<Op>, op: Op, n: nat)
    requires n <= |log| && op.Reserve?
    ensures Outstanding(log + [op], n) == Outstanding(log, n)
  {
    if n != 0 {
      OutstandingReserve(log, op, n - 1);
      var b := log[n - 1].bookingId;
      assert (log + [op])[n - 1] == log[n - 1];
      assert ReleasedIn(log + [op], b) <==> ReleasedIn(log, b) by {
        assert forall k :: 0 <= k < |log| ==> (log + [op])[k] == log[k];
      }
    }
  }

  /** Adding the first release of a booking removes exactly the term of its reservation. */
  lemma {:induction false} OutstandingRelease(log: seq<Op>, op: Op, n: nat)
    requires n <= |log| && op.Release? && !ReleasedIn(log, op.bookingId)
    requires forall j, k :: 0 <= j < k < |log| && log[j].Reserve? && log[k].Reserve? ==> log[j].bookingId != log[k].bookingId
    requires forall k :: 0 <= k < |log| && log[k].Reserve? && log[k].bookingId == op.bookingId ==> log[k].ids == op.ids
    ensures Outstanding(log, n) == Outstanding(log + [op], n) +
              if ReservedIn(log[..n], op.bookingId) then |op.ids| else 0
  {
    if n != 0 {
      OutstandingRelease(log, op, n - 1);
      var more, b, last := log + [op], op.bookingId, log[n - 1];
      assert more[n - 1] == last;
      assert forall x :: ReleasedIn(more, x) <==> x == b || ReleasedIn(log, x) by {
        assert more[|log|] == op;
        assert forall k :: 0 <= k < |log| ==> more[k] == log[k];
      }
      assert ReservedIn(log[..n], b) <==> ReservedIn(log[..n - 1], b) || (last.Reserve? && last.bookingId == b) by {
        assert log[..n][n - 1] == last;
        assert forall k :: 0 <= k < n - 1 ==> log[..n][k] == log[..n - 1][k];
      }
    }
  }

  lemma {:induction false} ReservesDistinct(first: Show, hold: nat, log: seq<Op>, j: nat, k: nat)
    requires Valid(first, hold, log) && j < k < |log| && log[j].Reserve? && log[k].Reserve?
    ensures log[j].bookingId != log[k].bookingId
  {
    ValidPrefix(first, hold, log, k);
    assert log[..k][j] == log[j];
  }

  lemma ReleasedOncePrefix(past: seq<Op>, op: Op)
    requires ReleasedOnce(past + [op])
    ensures ReleasedOnce(past)
    ensures op.Release? ==> !ReleasedIn(past, op.bookingId)
  {
    var log := past + [op];
    assert forall k :: 0 <= k < |past| ==> log[k] == past[k];
    assert log[|past|] == op;
  }

  /** Releasing a booking once more changes no term. */
  lemma {:induction false} OutstandingAgain(log: seq<Op>, op: Op, n: nat)
    requires n <= |log| && op.Release? && ReleasedIn(log, op.bookingId)
    ensures Outstanding(log + [op], n) == Outstanding(log, n)
  {
    if n != 0 {
      OutstandingAgain(log, op, n - 1);
      var more := log + [op];
      assert more[n - 1] == log[n - 1];
      assert forall x :: ReleasedIn(more, x) <==> ReleasedIn(log, x) by {
        assert more[|log|] == op;
        assert forall k :: 0 <= k < |log| ==> more[k] == log[k];
      }
    }
  }

  lemma ReleasedOnceSnoc(past: seq<Op>, op: Op)
    ensures ReleasedOnce(past + [op]) <==> ReleasedOnce(past) && (op.Release? ==> !ReleasedIn(past, op.bookingId))
  {
    var log := past + [op];
    assert forall k :: 0 <= k < |past| ==> log[k] == past[k];
    assert log[|past|] == op;
    if ReleasedOnce(log) { ReleasedOncePrefix(past, op); }
  }

  /** What one operation does to the difference between the counter and the ledger: nothing, unless
      it releases a booking again. */
  lemma LogStep(first: Show, hold: nat, past: seq<Op>, op: Op)
    requires Valid(first, hold, past + [op])
    ensures var log := past + [op];
            Replay(first, log).availableSeats + Outstanding(log, |log|) ==
            Replay(first, past).availableSeats + Outstanding(past, |past|) +
              if op.Release? && ReleasedIn(past, op.bookingId) then |op.ids| else 0
  {
    var log := past + [op];
    assert log[..|past|] == past && log[|past|] == op;
    ValidPrefix(first, hold, log, |past|);
    Extend(first, hold, past, op);
    if op.Reserve? {
      OutstandingReserve(past, op, |past|);
      FreshReserve(first, hold, past, op);
    } else if ReleasedIn(past, op.bookingId) {
      OutstandingAgain(past, op, |past|);
    } else {
      forall j, k | 0 <= j < k < |past| && past[j].Reserve? && past[k].Reserve?
        ensures past[j].bookingId != past[k].bookingId
      {
        ReservesDistinct(first, hold, past, j, k);
      }
      OutstandingRelease(past, op, |past|);
      assert past[..|past|] == past;
    }
  }

  /** A new reservation has not been released. */
  lemma FreshReserve(first: Show, hold: nat, past: seq<Op>, op: Op)
    requires Valid(first, hold, past + [op]) && op.Reserve?
    ensures !ReleasedIn(past + [op], op.bookingId)
  {
    var log := past + [op];
    forall k | 0 <= k < |log| && log[k].Release? ensures log[k].bookingId != op.bookingId {
      ReleaseFollowsReserve(first, hold, log, k);
      var j :| 0 <= j < k && log[j].Reserve? && log[j].bookingId == log[k].bookingId;
      ReservesDistinct(first, hold, log, j, |past|);
    }
  }

  ghost predicate ReleasesSeats(log: seq<Op>) {
    forall k :: 0 <= k < |log| && log[k].Release? ==> log[k].ids != {}
  }

  /** The counter never falls below the initial count less the sizes of the reservations that were
      never released, and equals it exactly when no booking was released twice. */
  lemma {:induction false} LedgerOfLog(first: Show, hold: nat, log: seq<Op>)
    requires Valid(first, hold, log) && ReleasesSeats(log)
    ensures Replay(first, log).availableSeats >= first.availableSeats - Outstanding(log, |log|)
    ensures Replay(first, log).availableSeats == first.availableSeats - Outstanding(log, |log|) <==> ReleasedOnce(log)
  {
    if log != [] {
      var past, op := log[..|log| - 1], log[|log| - 1];
      assert log == past + [op];
      LedgerOfLog(first, hold, past);
      LogStep(first, hold, past, op);
      ReleasedOnceSnoc(past, op);
      assert op.Release? ==> op.ids != {};
    }
  }

  lemma ReleaseFollowsReserve(first: Show, hold: nat, log: seq<Op>, k: nat)
    requires Valid(first, hold, log) && k < |log| && log[k].Release?
    ensures exists j :: 0 <= j < k && log[j].Reserve? && log[j].bookingId == log[k].bookingId && log[j].ids == log[k].ids
  {
    ValidPrefix(first, hold, log, k);
    var j :| 0 <= j < k && log[..k][j].Reserve? && log[..k][j].bookingId == log[k].bookingId && log[..k][j].ids == log[k].ids;
    assert log[j] == log[..k][j];
  }

  // ---------------------------------------------------------------- counter and seat map

  function AvailableIn(seats: seq<Seat>, ids: set<string>): nat {
    if seats == [] then 0
    else AvailableIn(seats[1..], ids) + if seats[0].seatId in ids && seats[0].status == Available then 1 else 0
  }

  lemma {:induction false} CountAfterWrite(seats: seq<Seat>, ids: set<string>, status: SeatStatus, who: Option<nat>, until: Option<int>)
    ensures CountAvailable(SetSeats(seats, ids, status, who, until)) ==
              CountAvailable(seats) - AvailableIn(seats, ids) + if status == Available then CountIn(seats, ids) else 0
  {
    if seats != [] {
      var after := SetSeats(seats, ids, status, who, until);
      assert after[1..] == SetSeats(seats[1..], ids, status, who, until);
      CountAfterWrite(seats[1..], ids, status, who, until);
    }
  }

  lemma {:induction false} AvailableInBounds(seats: seq<Seat>, ids: set<string>)
    ensures AvailableIn(seats, ids) <= CountIn(seats, ids)
    ensures AvailableIn(seats, ids) == CountIn(seats, ids) <==> AllAvailable(seats, ids)
    ensures AvailableIn(seats, ids) == 0 <==> NoneAvailable(seats, ids)
  {
    if seats != [] {
      var rest := seats[1..];
      AvailableInBounds(rest, ids);
      assert forall i :: 0 < i < |seats| ==> seats[i] == rest[i - 1];
      assert AllAvailable(seats, ids) <==> AllAvailable(rest, ids) && (seats[0].seatId in ids ==> seats[0].status == Available);
      assert NoneAvailable(seats, ids) <==> NoneAvailable(rest, ids) && (seats[0].seatId in ids ==> seats[0].status != Available);
    }
  }

  ghost predicate AllAvailable(seats: seq<Seat>, ids: set<string>) {
    forall i :: 0 <= i < |seats| && seats[i].seatId in ids ==> seats[i].status == Available
  }

  ghost predicate NoneAvailable(seats: seq<Seat>, ids: set<string>) {
    forall i :: 0 <= i < |seats| && seats[i].seatId in ids ==> seats[i].status != Available
  }

  ghost predicate Agrees(show: Show) {
    show.availableSeats == CountAvailable(show.seats)
  }

  /** A write keeps the counter equal to the number of available seats exactly when a reservation
      takes over no held seat and a release frees no seat that is free already. */
  lemma CounterStep(show: Show, op: Op)
    requires UniqueIds(show.seats) && op.ids <= IdsOf(show.seats) && Agrees(show)
    ensures Agrees(Put(show, op)) <==>
              if op.Reserve? then AllAvailable(show.seats, op.ids) else NoneAvailable(show.seats, op.ids)
  {
    var ids := op.ids;
    CountInIsSelected(show.seats, ids);
    SelectedUnique(show.seats, ids);
    IdsSize(Selected(show.seats, ids));
    assert IdsOf(show.seats) * ids == ids;
    AvailableInBounds(show.seats, ids);
    match op
    case Reserve(b, _, _, until) => CountAfterWrite(show.seats, ids, Reserved, Some(b), Some(until));
    case Release(_, _) => CountAfterWrite(show.seats, ids, Available, None, None);
  }

  /** No reservation of the log takes over a seat that is still marked reserved. */
  ghost predicate NoTakeover(first: Show, log: seq<Op>) {
    log == [] ||
    var past, op := log[..|log| - 1], log[|log| - 1];
    NoTakeover(first, past) && (op.Reserve? ==> AllAvailable(Replay(first, past).seats, op.ids))
  }

  /** Every reservation that was not released still holds all its seats. */
  ghost predicate HoldsAll(first: Show, log: seq<Op>) {
    var seats := Replay(first, log).seats;
    forall k, i {:trigger log[k], seats[i]} ::
      0 <= k < |log| && log[k].Reserve? && !ReleasedIn(log, log[k].bookingId) &&
      0 <= i < |seats| && seats[i].seatId in log[k].ids ==>
        seats[i].status == Reserved && seats[i].reservedBy == Some(log[k].bookingId)
  }

  lemma {:induction false} HoldsAllAlways(first: Show, hold: nat, log: seq<Op>)
    requires Valid(first, hold, log) && ReleasedOnce(log) && NoTakeover(first, log)
    ensures HoldsAll(first, log)
  {
    if log != [] {
      var past, op := log[..|log| - 1], log[|log| - 1];
      assert log == past + [op];
      ReleasedOncePrefix(past, op);
      HoldsAllAlways(first, hold, past);
      ReplayFrame(first, past);
      HoldsAllStep(first, hold, past, op);
    }
  }

  lemma HoldsAllStep(first: Show, hold: nat, past: seq<Op>, op: Op)
    requires Valid(first, hold, past) && OpOk(Replay(first, past), hold, past, op)
    requires HoldsAll(first, past)
    requires op.Reserve? ==> AllAvailable(Replay(first, past).seats, op.ids)
    requires op.Release? ==> !ReleasedIn(past, op.bookingId)
    ensures HoldsAll(first, past + [op])
  {
    var log, before, seats := past + [op], Replay(first, past).seats, Replay(first, past + [op]).seats;
    Extend(first, hold, past, op);
    forall k, i | 0 <= k < |log| && log[k].Reserve? && !ReleasedIn(log, log[k].bookingId)
                  && 0 <= i < |seats| && seats[i].seatId in log[k].ids
      ensures seats[i].status == Reserved && seats[i].reservedBy == Some(log[k].bookingId)
    {
      if k < |past| {
        var b := log[k].bookingId;
        assert past[k] == log[k];
        assert forall c :: 0 <= c < |past| ==> log[c] == past[c];
        assert before[i].status == Reserved && before[i].reservedBy == Some(b);
      }
    }
  }

  /** The first release of a booking finds all its seats held. */
  lemma ReleasedHeld(first: Show, hold: nat, past: seq<Op>, op: Op)
    requires HoldsAll(first, past) && op.Release? && !ReleasedIn(past, op.bookingId)
    requires OpOk(Replay(first, past), hold, past, op)
    ensures NoneAvailable(Replay(first, past).seats, op.ids)
  {
    var seats := Replay(first, past).seats;
    var j :| 0 <= j < |past| && past[j].Reserve? && past[j].bookingId == op.bookingId && past[j].ids == op.ids;
    forall i | 0 <= i < |seats| && seats[i].seatId in op.ids ensures seats[i].status != Available {
      assert past[j].Reserve? && seats[i].status == Reserved;
    }
  }

  /** Without takeovers and double releases, unreleased reservations are pairwise disjoint and the
      counter is the number of available seats, between zero and the size of the room. */
  lemma {:induction false} CounterOfLog(first: Show, hold: nat, log: seq<Op>)
    requires UniqueIds(first.seats) && Agrees(first)
    requires Valid(first, hold, log) && ReleasedOnce(log) && NoTakeover(first, log)
    ensures Agrees(Replay(first, log))
    ensures 0 <= Replay(first, log).availableSeats <= |first.seats|
    ensures forall j, k ::
              (0 <= j < k < |log| && log[j].Reserve? && log[k].Reserve?
               && !ReleasedIn(log, log[j].bookingId) && !ReleasedIn(log, log[k].bookingId)) ==> log[j].ids !! log[k].ids
  {
    ReplayFrame(first, log);
    if log != [] {
      var past, op := log[..|log| - 1], log[|log| - 1];
      var before := Replay(first, past);
      assert log == past + [op];
      ReleasedOncePrefix(past, op);
      CounterOfLog(first, hold, past);
      ReplayFrame(first, past);
      CounterStep(before, op);
      if op.Release? {
        HoldsAllAlways(first, hold, past);
        ReleasedHeld(first, hold, past, op);
      }
    }
    HoldsAllAlways(first, hold, log);
    forall j, k | 0 <= j < k < |log| && log[j].Reserve? && log[k].Reserve?
                  && !ReleasedIn(log, log[j].bookingId) && !ReleasedIn(log, log[k].bookingId)
      ensures log[j].ids !! log[k].ids
    {
      UnreleasedDisjoint(first, hold, log, j, k);
    }
  }

  lemma UnreleasedDisjoint(first: Show, hold: nat, log: seq<Op>, j: nat, k: nat)
    requires Valid(first, hold, log) && HoldsAll(first, log)
    requires j < k < |log| && log[j].Reserve? && log[k].Reserve?
    requires !ReleasedIn(log, log[j].bookingId) && !ReleasedIn(log, log[k].bookingId)
    ensures log[j].ids !! log[k].ids
  {
    ReservesDistinct(first, hold, log, j, k);
    ValidPrefix(first, hold, log, j);
    ReplayFrame(first, log[..j]);
    ReplayFrame(first, log);
    var seats := Replay(first, log).seats;
    forall id | id in log[j].ids ensures id !in log[k].ids {
      var i :| 0 <= i < |seats| && seats[i].seatId == id;
    }
  }
}
