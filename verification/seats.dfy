/** The show document of the booking service: its seats, the selection and availability tests
    of `createBooking`, the two single-document seat writes, and the price computation. */
module Seats {
  import opened Options

  datatype SeatStatus = Available | Reserved | Booked | Maintenance

  type Price = r: real | 0.0 <= r witness 0.0

  datatype Seat = Seat(
    seatId: string,
    price: Price,
    status: SeatStatus,
    reservedBy: Option<nat>,
    reservedUntil: Option<int>)

  datatype Show = Show(
    showId: string,
    showTime: int,
    isActive: bool,
    totalSeats: int,
    availableSeats: int,
    seatVersion: nat,
    seats: seq<Seat>)

  ghost predicate UniqueIds(seats: seq<Seat>) {
    forall i, j :: 0 <= i < j < |seats| ==> seats[i].seatId != seats[j].seatId
  }

  function IdsOf(seats: seq<Seat>): set<string> {
    set i | 0 <= i < |seats| :: seats[i].seatId
  }

  function SetOf(ids: seq<string>): set<string> {
    set i | 0 <= i < |ids| :: ids[i]
  }

  ghost predicate Distinct(ids: seq<string>) {
    forall i, j :: 0 <= i < j < |ids| ==> ids[i] != ids[j]
  }

  /** A seat that may not be reserved at `now`; a lapsed reservation does not block. */
  predicate Blocked(s: Seat, now: int) {
    || s.status == Booked
    || s.status == Maintenance
    || (s.status == Reserved && s.reservedUntil.Some? && s.reservedUntil.value > now)
  }

  /** The stored-document filter of the versioned update: does some requested seat block? */
  predicate AnyBlocked(seats: seq<Seat>, ids: set<string>, now: int) {
    exists i :: 0 <= i < |seats| && seats[i].seatId in ids && Blocked(seats[i], now)
  }

  function Selected(seats: seq<Seat>, ids: set<string>): seq<Seat> {
    if seats == [] then []
    else if seats[0].seatId in ids then [seats[0]] + Selected(seats[1..], ids)
    else Selected(seats[1..], ids)
  }

  function Unavailable(selected: seq<Seat>, now: int): seq<Seat> {
    if selected == [] then []
    else if Blocked(selected[0], now) then [selected[0]] + Unavailable(selected[1..], now)
    else Unavailable(selected[1..], now)
  }

  function SetSeats(seats: seq<Seat>, ids: set<string>, status: SeatStatus, who: Option<nat>, until: Option<int>): seq<Seat> {
    seq(|seats|, i requires 0 <= i < |seats| =>
      if seats[i].seatId in ids
      then seats[i].(status := status, reservedBy := who, reservedUntil := until)
      else seats[i])
  }

  /** `$set` the requested seats to reserved, `$inc` the counter down and the version up. */
  function ReserveWrite(show: Show, ids: set<string>, count: nat, who: nat, until: int): Show {
    show.(seats := SetSeats(show.seats, ids, Reserved, Some(who), Some(until)),
          availableSeats := show.availableSeats - count,
          seatVersion := show.seatVersion + 1)
  }

  /** `$set` the booking's seats to available whoever holds them, `$inc` counter and version up. */
  function ReleaseWrite(show: Show, ids: set<string>, count: nat): Show {
    show.(seats := SetSeats(show.seats, ids, Available, None, None),
          availableSeats := show.availableSeats + count,
          seatVersion := show.seatVersion + 1)
  }

  function CountIn(seats: seq<Seat>, ids: set<string>): nat {
    if seats == [] then 0
    else CountIn(seats[1..], ids) + if seats[0].seatId in ids then 1 else 0
  }

  function CountAvailable(seats: seq<Seat>): (n: nat)
    ensures n <= |seats|
  {
    if seats == [] then 0
    else CountAvailable(seats[1..]) + if seats[0].status == Available then 1 else 0
  }

  // ---------------------------------------------------------------- the length test

  lemma {:induction false} SelectedMembers(seats: seq<Seat>, ids: set<string>)
    ensures forall s :: s in Selected(seats, ids) <==> s in seats && s.seatId in ids
  {
    if seats != [] {
      SelectedMembers(seats[1..], ids);
      assert forall s :: s in seats <==> s == seats[0] || s in seats[1..];
    }
  }

  lemma {:induction false} SelectedUnique(seats: seq<Seat>, ids: set<string>)
    requires UniqueIds(seats)
    ensures UniqueIds(Selected(seats, ids))
    ensures IdsOf(Selected(seats, ids)) == IdsOf(seats) * ids
  {
    SelectedMembers(seats, ids);
    if seats != [] {
      SelectedUnique(seats[1..], ids);
      SelectedMembers(seats[1..], ids);
    }
    var sel := Selected(seats, ids);
    forall x ensures x in IdsOf(sel) <==> x in IdsOf(seats) * ids {
      if x in IdsOf(sel) {
        var k :| 0 <= k < |sel| && sel[k].seatId == x;
        assert sel[k] in sel;
      }
      if x in IdsOf(seats) * ids {
        var k :| 0 <= k < |seats| && seats[k].seatId == x;
        assert seats[k] in sel;
      }
    }
  }

  lemma {:induction false} IdsSize(seats: seq<Seat>)
    requires UniqueIds(seats)
    ensures |IdsOf(seats)| == |seats|
  {
    if seats != [] {
      IdsSize(seats[1..]);
      assert IdsOf(seats) == IdsOf(seats[1..]) + {seats[0].seatId};
    }
  }

  lemma {:induction false} SetOfSize(ids: seq<string>)
    ensures |SetOf(ids)| <= |ids|
    ensures |SetOf(ids)| == |ids| <==> Distinct(ids)
  {
    if ids != [] {
      var rest := ids[1..];
      SetOfSize(rest);
      assert SetOf(ids) == SetOf(rest) + {ids[0]};
      if ids[0] in SetOf(rest) {
        assert SetOf(ids) == SetOf(rest);
        var k :| 0 <= k < |rest| && rest[k] == ids[0];
        assert ids[0] == ids[k + 1];
      } else {
        assert forall k :: 0 < k < |ids| ==> ids[k] == rest[k - 1];
        assert Distinct(ids) <==> Distinct(rest);
      }
    }
  }

  /** The comparison of two lengths is a full check of the request: it passes exactly when the
      requested ids are pairwise distinct and all present. */
  lemma LengthTestIsFullCheck(seats: seq<Seat>, ids: seq<string>)
    requires UniqueIds(seats)
    ensures |Selected(seats, SetOf(ids))| == |ids| <==> Distinct(ids) && SetOf(ids) <= IdsOf(seats)
    ensures |Selected(seats, SetOf(ids))| == |ids| ==>
              && IdsOf(Selected(seats, SetOf(ids))) == SetOf(ids)
              && |SetOf(ids)| == |ids|
  {
    var sel := Selected(seats, SetOf(ids));
    SelectedUnique(seats, SetOf(ids));
    IdsSize(sel);
    SetOfSize(ids);
    var common := IdsOf(seats) * SetOf(ids);
    assert common <= SetOf(ids);
    SubsetSize(common, SetOf(ids));
    assert SetOf(ids) <= IdsOf(seats) <==> common == SetOf(ids);
  }

  lemma SubsetSize<T>(a: set<T>, b: set<T>)
    requires a <= b
    ensures |a| <= |b|
    ensures |a| == |b| ==> a == b
  {
    assert b == a + (b - a);
    assert |b| == |a| + |b - a|;
  }

  lemma {:induction false} CountInIsSelected(seats: seq<Seat>, ids: set<string>)
    ensures CountIn(seats, ids) == |Selected(seats, ids)|
  {
    if seats != [] {
      CountInIsSelected(seats[1..], ids);
    }
  }

  /** A request that passes the length test makes the reservation write touch exactly as many
      seats as it subtracts from the counter. */
  lemma ReserveTouchesCount(seats: seq<Seat>, ids: seq<string>)
    requires UniqueIds(seats) && |Selected(seats, SetOf(ids))| == |ids|
    ensures CountIn(seats, SetOf(ids)) == |SetOf(ids)| == |ids|
  {
    CountInIsSelected(seats, SetOf(ids));
    LengthTestIsFullCheck(seats, ids);
  }

  lemma {:induction false} UnavailableEmpty(selected: seq<Seat>, now: int)
    ensures Unavailable(selected, now) == [] <==> forall s :: s in selected ==> !Blocked(s, now)
  {
    if selected != [] {
      UnavailableEmpty(selected[1..], now);
      assert forall s :: s in selected <==> s == selected[0] || s in selected[1..];
    }
  }

  /** The in-memory availability test and the stored-document filter agree on equal seats. */
  lemma ChecksAgree(seats: seq<Seat>, ids: set<string>, now: int)
    ensures Unavailable(Selected(seats, ids), now) == [] <==> !AnyBlocked(seats, ids, now)
  {
    SelectedMembers(seats, ids);
    UnavailableEmpty(Selected(seats, ids), now);
    if AnyBlocked(seats, ids, now) {
      var i :| 0 <= i < |seats| && seats[i].seatId in ids && Blocked(seats[i], now);
      assert seats[i] in Selected(seats, ids);
    }
  }

  // ---------------------------------------------------------------- prices

  function Subtotal(selected: seq<Seat>): (r: real)
    ensures 0.0 <= r
  {
    if selected == [] then 0.0 else selected[0].price + Subtotal(selected[1..])
  }

  /** `Math.round`: to the nearest integer, halves upward. */
  function Round(x: real): int { (x + 0.5).Floor }

  function Fee(subtotal: real): int { Round(subtotal * 0.02) }

  function Total(selected: seq<Seat>): real {
    Subtotal(selected) + Fee(Subtotal(selected)) as real
  }

  lemma RoundMonotone(x: real, y: real)
    requires x <= y
    ensures Round(x) <= Round(y)
  {
    assert (x + 0.5).Floor as real <= y + 0.5;
  }

  lemma {:induction false} SubtotalMonotone(seats: seq<Seat>, few: set<string>, many: set<string>)
    requires few <= many
    ensures Subtotal(Selected(seats, few)) <= Subtotal(Selected(seats, many))
  {
    if seats != [] {
      SubtotalMonotone(seats[1..], few, many);
    }
  }

  lemma BothSets(a: seq<string>, b: seq<string>)
    ensures SetOf(a + b) == SetOf(a) + SetOf(b)
  {
    forall x ensures x in SetOf(a + b) <==> x in SetOf(a) + SetOf(b) {
      if i :| 0 <= i < |a| && a[i] == x { assert (a + b)[i] == x; }
      if i :| 0 <= i < |b| && b[i] == x { assert (a + b)[|a| + i] == x; }
    }
  }

  lemma {:induction false} SubtotalAdds(seats: seq<Seat>, a: set<string>, b: set<string>)
    requires a !! b
    ensures Subtotal(Selected(seats, a + b)) == Subtotal(Selected(seats, a)) + Subtotal(Selected(seats, b))
  {
    if seats != [] {
      SubtotalAdds(seats[1..], a, b);
    }
  }

  /** The subtotal of one seat is its price, and subtotals add up over separate requests. The fee is 2%
      of the subtotal to within half a unit, and the total is the subtotal and the fee; it is monotone
      in the set of seats. */
  lemma PricingLaw(seats: seq<Seat>, a: seq<string>, b: seq<string>)
    ensures SetOf(a) !! SetOf(b) ==>
              Subtotal(Selected(seats, SetOf(a + b))) == Subtotal(Selected(seats, SetOf(a))) + Subtotal(Selected(seats, SetOf(b)))
    ensures SetOf(a) <= SetOf(b) ==> Total(Selected(seats, SetOf(a))) <= Total(Selected(seats, SetOf(b)))
    ensures var sub := Subtotal(Selected(seats, SetOf(a)));
            -0.5 < Fee(sub) as real - 0.02 * sub <= 0.5
            && Total(Selected(seats, SetOf(a))) - sub == Fee(sub) as real
    ensures forall seat :: Subtotal([seat]) == seat.price
    ensures Total(Selected(seats, SetOf(a))) >= 0.0
  {
    var sub := Subtotal(Selected(seats, SetOf(a)));
    RoundMonotone(0.0, sub * 0.02);
    if SetOf(a) !! SetOf(b) {
      BothSets(a, b);
      SubtotalAdds(seats, SetOf(a), SetOf(b));
    }
    if SetOf(a) <= SetOf(b) {
      SubtotalMonotone(seats, SetOf(a), SetOf(b));
      RoundMonotone(sub * 0.02, Subtotal(Selected(seats, SetOf(b))) * 0.02);
    }
  }
}
