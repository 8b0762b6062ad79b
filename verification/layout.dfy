/** Screens and seat ids as a theatre's creation generates them, and the seats a show opens with. */
module Layout {
  import opened Options
  import opened Seats

  datatype SeatType = Standard | Premium | Recliner | Couple
  datatype Format = TwoD | ThreeD | Imax | FourDX

  datatype Row = Row(row: string, count: nat, kind: SeatType)
  datatype ScreenInput = ScreenInput(name: string, totalSeats: int, formats: seq<Format>, rows: seq<Row>)

  datatype LayoutSeat = LayoutSeat(seatId: string, number: nat, kind: SeatType, isActive: bool)
  datatype LayoutRow = LayoutRow(row: string, seats: seq<LayoutSeat>)
  datatype Screen = Screen(screenId: string, name: string, totalSeats: int, formats: seq<Format>, layout: seq<LayoutRow>)
  datatype Theatre = Theatre(theatreId: string, name: string, screens: seq<Screen>, isActive: bool)

  datatype Pricing = Pricing(standard: Price, premium: Price, recliner: Price, couple: Price) {
    function For(kind: SeatType): Price {
      match kind
      case Standard => standard
      case Premium => premium
      case Recliner => recliner
      case Couple => couple
    }
  }

  // ---------------------------------------------------------------- printing

  function UpperChar(c: char): char {
    if 'a' <= c <= 'z' then 'A' + (c - 'a') else c
  }

  function Upper(s: string): string {
    seq(|s|, i requires 0 <= i < |s| => UpperChar(s[i]))
  }

  predicate IsBlank(c: char) { c == ' ' || c == '\t' || c == '\n' || c == '\r' }

  /** Without leading and trailing blanks, as the schema stores labels and names. */
  function Trim(s: string): string {
    if s == "" then s
    else if IsBlank(s[0]) then Trim(s[1..])
    else if IsBlank(s[|s| - 1]) then Trim(s[..|s| - 1])
    else s
  }

  /** What is cut off is blank, and what is left neither starts nor ends with a blank. */
  lemma {:induction false} TrimLaw(s: string) returns (i: nat, j: nat)
    ensures i <= j <= |s| && Trim(s) == s[i..j]
    ensures forall k :: 0 <= k < |s| && !(i <= k < j) ==> s[k] in {' ', '\t', '\n', '\r'}
    ensures i < j ==> s[i] !in {' ', '\t', '\n', '\r'} && s[j - 1] !in {' ', '\t', '\n', '\r'}
  {
    if s == "" {
      i, j := 0, 0;
    } else if IsBlank(s[0]) {
      i, j := TrimLaw(s[1..]);
      assert s[1..][i..j] == s[i + 1..j + 1];
      i, j := i + 1, j + 1;
      assert forall k :: 0 < k < |s| ==> s[k] == s[1..][k - 1];
    } else if IsBlank(s[|s| - 1]) {
      i, j := TrimLaw(s[..|s| - 1]);
      assert s[..|s| - 1][i..j] == s[i..j];
      assert forall k :: 0 <= k < |s| - 1 ==> s[k] == s[..|s| - 1][k];
    } else {
      i, j := 0, |s|;
      assert s[0..|s|] == s;
    }
  }

  /** Only the letters `a` to `z` change, each into the capital at its place in the alphabet; so no
      small letter is left, and a second pass changes nothing. */
  lemma UpperLaw(s: string)
    ensures |Upper(s)| == |s| && Upper(Upper(s)) == Upper(s)
    ensures forall i :: 0 <= i < |s| ==>
              if 'a' <= s[i] <= 'z' then 'A' <= Upper(s)[i] <= 'Z' && s[i] as int - 'a' as int == Upper(s)[i] as int - 'A' as int
              else Upper(s)[i] == s[i]
  {
    var once, twice := Upper(s), Upper(Upper(s));
    forall i | 0 <= i < |s| ensures twice[i] == once[i] {
      assert once[i] == UpperChar(s[i]);
    }
  }

  function Digit(d: nat): char
    requires d < 10
  {
    '0' + d as char
  }

  predicate IsDigit(c: char) { '0' <= c <= '9' }

  /** A number in decimal, without leading zeros. */
  function Dec(n: nat): (s: string)
    ensures |s| >= 1 && IsDigit(s[|s| - 1])
    ensures |s| == 1 <==> n < 10
  {
    if n < 10 then [Digit(n)] else Dec(n / 10) + [Digit(n % 10)]
  }

  function Val(s: string): int {
    if s == [] then 0 else 10 * Val(s[..|s| - 1]) + (s[|s| - 1] as int - '0' as int)
  }

  /** Reading back what was printed: so printing is injective. */
  lemma {:induction false} ValDec(n: nat)
    ensures Val(Dec(n)) == n
  {
    if n >= 10 {
      ValDec(n / 10);
      assert Dec(n)[..|Dec(n)| - 1] == Dec(n / 10);
    }
  }

  /** A printed number that ends in another printed number: what stands before is a printed number
      too, and the whole is at least ten times as large, and one. */
  lemma {:induction false} DecSplit(p: string, i: nat, j: nat) returns (v: nat)
    requires p != [] && j >= 1 && Dec(i) == p + Dec(j)
    ensures v >= 1 && p == Dec(v) && i >= 10 * v + 1
    decreases j
  {
    var cut := |Dec(i)| - 1;
    assert Dec(i)[..cut] == Dec(i / 10) && Dec(i)[cut] == Digit(i % 10);
    assert Dec(i)[cut] == Dec(j)[|Dec(j)| - 1];
    if j < 10 {
      assert (p + Dec(j))[..cut] == p;
      v := i / 10;
    } else {
      assert (p + Dec(j))[..cut] == p + Dec(j)[..|Dec(j)| - 1] == p + Dec(j / 10);
      v := DecSplit(p, i / 10, j / 10);
    }
  }

  // ---------------------------------------------------------------- the generated layout

  function SeatId(screenId: string, row: string, number: nat): string {
    screenId + "-" + (Upper(row) + Dec(number))
  }

  function RowLayout(screenId: string, r: Row): LayoutRow {
    LayoutRow(Trim(Upper(r.row)),
              seq(r.count, i requires 0 <= i => LayoutSeat(SeatId(screenId, r.row, i + 1), i + 1, r.kind, true)))
  }

  function BuildLayout(screenId: string, rows: seq<Row>): seq<LayoutRow> {
    seq(|rows|, i requires 0 <= i < |rows| => RowLayout(screenId, rows[i]))
  }

  function ActualSeats(rows: seq<Row>): nat {
    if rows == [] then 0 else rows[0].count + ActualSeats(rows[1..])
  }

  function OpenSeat(s: LayoutSeat, pricing: Pricing): Seat {
    Seat(s.seatId, pricing.For(s.kind), Available, None, None)
  }

  function OpenRow(seats: seq<LayoutSeat>, pricing: Pricing): seq<Seat> {
    if seats == [] then []
    else (if seats[0].isActive then [OpenSeat(seats[0], pricing)] else []) + OpenRow(seats[1..], pricing)
  }

  /** The seats of a new show: the active seats of every row, each at its type's price. */
  function OpenSeats(layout: seq<LayoutRow>, pricing: Pricing): seq<Seat> {
    if layout == [] then [] else OpenRow(layout[0].seats, pricing) + OpenSeats(layout[1..], pricing)
  }

  /** Every seat type has its own price in the show's price list. */
  predicate PricedAs(pricing: Pricing, kind: SeatType, price: Price) {
    && (kind == Standard ==> price == pricing.standard)
    && (kind == Premium ==> price == pricing.premium)
    && (kind == Recliner ==> price == pricing.recliner)
    && (kind == Couple ==> price == pricing.couple)
  }

  /** A seat of a show opened from a seat of the layout. */
  predicate OpenedFrom(seat: Seat, from: LayoutSeat, pricing: Pricing) {
    && seat.seatId == from.seatId && PricedAs(pricing, from.kind, seat.price)
    && seat.status == Available && seat.reservedBy == None && seat.reservedUntil == None
  }

  function AllSeats(layout: seq<LayoutRow>): seq<LayoutSeat> {
    if layout == [] then [] else layout[0].seats + AllSeats(layout[1..])
  }

  function ActiveOnly(seats: seq<LayoutSeat>): seq<LayoutSeat> {
    if seats == [] then []
    else if seats[|seats| - 1].isActive then ActiveOnly(seats[..|seats| - 1]) + [seats[|seats| - 1]]
    else ActiveOnly(seats[..|seats| - 1])
  }

  lemma {:induction false} ActiveAdds(a: seq<LayoutSeat>, b: seq<LayoutSeat>)
    ensures ActiveOnly(a + b) == ActiveOnly(a) + ActiveOnly(b)
  {
    if b == [] {
      assert a + b == a;
    } else {
      ActiveAdds(a, b[..|b| - 1]);
      assert (a + b)[..|a + b| - 1] == a + b[..|b| - 1];
    }
  }

  /** One opened seat for each of the seats named, in their order. */
  ghost predicate OpenedAs(seats: seq<Seat>, from: seq<LayoutSeat>, pricing: Pricing) {
    |seats| == |from| && forall k :: 0 <= k < |from| ==> OpenedFrom(seats[k], from[k], pricing)
  }

  lemma OpenedJoin(a: seq<Seat>, b: seq<Seat>, x: seq<LayoutSeat>, y: seq<LayoutSeat>, pricing: Pricing)
    requires OpenedAs(a, x, pricing) && OpenedAs(b, y, pricing)
    ensures OpenedAs(a + b, x + y, pricing)
  {
  }

  lemma {:induction false} OpenRowOpens(seats: seq<LayoutSeat>, pricing: Pricing)
    ensures OpenedAs(OpenRow(seats, pricing), ActiveOnly(seats), pricing)
  {
    if seats != [] {
      OpenRowOpens(seats[1..], pricing);
      assert seats == [seats[0]] + seats[1..];
      ActiveAdds([seats[0]], seats[1..]);
      assert ActiveOnly([seats[0]]) == if seats[0].isActive then [seats[0]] else [] by { assert [seats[0]][..0] == []; }
    }
  }

  /** A new show has exactly the active seats of the layout, row by row, all available, each at the
      price of its type. */
  lemma {:induction false} OpensActiveSeats(layout: seq<LayoutRow>, pricing: Pricing)
    ensures OpenedAs(OpenSeats(layout, pricing), ActiveOnly(AllSeats(layout)), pricing)
  {
    if layout != [] {
      OpenRowOpens(layout[0].seats, pricing);
      OpensActiveSeats(layout[1..], pricing);
      ActiveAdds(layout[0].seats, AllSeats(layout[1..]));
    }
  }

  lemma {:induction false} OpenRowAll(seats: seq<LayoutSeat>, pricing: Pricing)
    requires forall s <- seats :: s.isActive
    ensures |OpenRow(seats, pricing)| == |seats|
    ensures forall i :: 0 <= i < |seats| ==> OpenRow(seats, pricing)[i] == OpenSeat(seats[i], pricing)
  {
    if seats != [] { OpenRowAll(seats[1..], pricing); }
  }

  lemma {:induction false} OpenCounts(layout: seq<LayoutRow>, pricing: Pricing)
    ensures forall s <- OpenSeats(layout, pricing) :: s.status == Available && s.reservedBy.None? && s.reservedUntil.None?
  {
    if layout != [] {
      OpenRowCounts(layout[0].seats, pricing);
      OpenCounts(layout[1..], pricing);
    }
  }

  lemma {:induction false} OpenRowCounts(seats: seq<LayoutSeat>, pricing: Pricing)
    ensures forall s <- OpenRow(seats, pricing) :: s.status == Available && s.reservedBy.None? && s.reservedUntil.None?
  {
    if seats != [] { OpenRowCounts(seats[1..], pricing); }
  }

  lemma {:induction false} AllAvailable(seats: seq<Seat>)
    requires forall s <- seats :: s.status == Available
    ensures CountAvailable(seats) == |seats|
  {
    if seats != [] { AllAvailable(seats[1..]); }
  }

  // ---------------------------------------------------------------- where each seat lands

  lemma BuildTail(screenId: string, rows: seq<Row>)
    requires rows != []
    ensures BuildLayout(screenId, rows)[0] == RowLayout(screenId, rows[0])
    ensures BuildLayout(screenId, rows)[1..] == BuildLayout(screenId, rows[1..])
  {
  }

  lemma {:induction false} GeneratedCount(screenId: string, rows: seq<Row>, pricing: Pricing)
    ensures |OpenSeats(BuildLayout(screenId, rows), pricing)| == ActualSeats(rows)
  {
    if rows != [] {
      OpenTail(screenId, rows, pricing);
      GeneratedCount(screenId, rows[1..], pricing);
    }
  }

  lemma OpenTail(screenId: string, rows: seq<Row>, pricing: Pricing)
    requires rows != []
    ensures var first := RowLayout(screenId, rows[0]).seats;
            && OpenSeats(BuildLayout(screenId, rows), pricing) ==
               OpenRow(first, pricing) + OpenSeats(BuildLayout(screenId, rows[1..]), pricing)
            && |OpenRow(first, pricing)| == rows[0].count
            && forall i :: 0 <= i < rows[0].count ==> OpenRow(first, pricing)[i] == OpenSeat(first[i], pricing)
  {
    BuildTail(screenId, rows);
    OpenRowAll(RowLayout(screenId, rows[0]).seats, pricing);
  }

  /** Place `k` holds the seat with this id, free, at the price of its type. */
  ghost predicate Stands(seats: seq<Seat>, k: nat, seatId: string, kind: SeatType, pricing: Pricing) {
    k < |seats| && seats[k].seatId == seatId && PricedAs(pricing, kind, seats[k].price) && seats[k].status == Available
  }

  lemma FirstRowStands(screenId: string, rows: seq<Row>, pricing: Pricing, i: nat)
    requires rows != [] && i < rows[0].count
    ensures Stands(OpenSeats(BuildLayout(screenId, rows), pricing), i, SeatId(screenId, rows[0].row, i + 1), rows[0].kind, pricing)
  {
    OpenTail(screenId, rows, pricing);
  }

  /** Seat `i` of row `x` follows all seats of the rows before, and costs what its type costs. */
  lemma {:induction false} SeatAt(screenId: string, rows: seq<Row>, pricing: Pricing, x: nat, i: nat)
    requires x < |rows| && i < rows[x].count
    ensures Stands(OpenSeats(BuildLayout(screenId, rows), pricing), ActualSeats(rows[..x]) + i,
                   SeatId(screenId, rows[x].row, i + 1), rows[x].kind, pricing)
    decreases x
  {
    if x == 0 {
      assert ActualSeats(rows[..x]) == 0 by { assert rows[..x] == []; }
      FirstRowStands(screenId, rows, pricing, i);
    } else {
      SeatAt(screenId, rows[1..], pricing, x - 1, i);
      StandsOneOn(screenId, rows, pricing, ActualSeats(rows[1..][..x - 1]) + i, SeatId(screenId, rows[x].row, i + 1), rows[x].kind);
      FirstRows(rows, x);
    }
  }

  lemma StandsOneOn(screenId: string, rows: seq<Row>, pricing: Pricing, k: nat, seatId: string, kind: SeatType)
    requires rows != [] && Stands(OpenSeats(BuildLayout(screenId, rows[1..]), pricing), k, seatId, kind, pricing)
    ensures Stands(OpenSeats(BuildLayout(screenId, rows), pricing), rows[0].count + k, seatId, kind, pricing)
  {
    OneRowOn(screenId, rows, pricing, k);
  }

  /** A row in front moves every seat on by its length. */
  lemma OneRowOn(screenId: string, rows: seq<Row>, pricing: Pricing, k: nat)
    requires rows != [] && k < |OpenSeats(BuildLayout(screenId, rows[1..]), pricing)|
    ensures var seats := OpenSeats(BuildLayout(screenId, rows), pricing);
            && rows[0].count + k < |seats|
            && seats[rows[0].count + k] == OpenSeats(BuildLayout(screenId, rows[1..]), pricing)[k]
  {
    OpenTail(screenId, rows, pricing);
  }

  lemma FirstRows(rows: seq<Row>, x: nat)
    requires 0 < x <= |rows|
    ensures ActualSeats(rows[..x]) == rows[0].count + ActualSeats(rows[1..][..x - 1])
  {
    assert rows[..x][1..] == rows[1..][..x - 1];
  }

  lemma {:induction false} Locate(rows: seq<Row>, k: nat) returns (x: nat, i: nat)
    requires k < ActualSeats(rows)
    ensures x < |rows| && i < rows[x].count && k == ActualSeats(rows[..x]) + i
  {
    if k < rows[0].count {
      x, i := 0, k;
    } else {
      x, i := Locate(rows[1..], k - rows[0].count);
      x := x + 1;
      assert rows[..x][1..] == rows[1..][..x - 1];
    }
  }

  lemma {:induction false} RowsApart(rows: seq<Row>, x: nat, y: nat)
    requires x < y <= |rows|
    ensures ActualSeats(rows[..x]) + rows[x].count <= ActualSeats(rows[..y])
    decreases x
  {
    assert rows[..y][1..] == rows[1..][..y - 1];
    if x > 0 {
      assert rows[..x][1..] == rows[1..][..x - 1];
      RowsApart(rows[1..], x - 1, y - 1);
    }
  }

  // ---------------------------------------------------------------- unique seat ids

  /** Rows whose seat ids run into each other: equal labels, or `y`'s label is `x`'s label followed
      by a number that `x` is long enough to print before another digit. */
  predicate Clash(x: Row, y: Row) {
    && x.count >= 1 && y.count >= 1
    && (|| Upper(x.row) == Upper(y.row)
        || exists v: nat :: 1 <= v < x.count && 10 * v + 1 <= x.count && Upper(y.row) == Upper(x.row) + Dec(v))
  }

  lemma ClashShares(screenId: string, x: Row, y: Row) returns (i: nat, j: nat)
    requires Clash(x, y)
    ensures i < x.count && j < y.count
    ensures SeatId(screenId, x.row, i + 1) == SeatId(screenId, y.row, j + 1)
  {
    if Upper(x.row) == Upper(y.row) {
      i, j := 0, 0;
    } else {
      var v: nat :| 1 <= v < x.count && 10 * v + 1 <= x.count && Upper(y.row) == Upper(x.row) + Dec(v);
      i, j := 10 * v, 0;
      assert Dec(10 * v + 1) == Dec(v) + Dec(1);
      assert Upper(x.row) + (Dec(v) + Dec(1)) == (Upper(x.row) + Dec(v)) + Dec(1);
    }
  }

  lemma SharedClashes(screenId: string, x: Row, y: Row, i: nat, j: nat)
    requires i < x.count && j < y.count
    requires SeatId(screenId, x.row, i + 1) == SeatId(screenId, y.row, j + 1)
    ensures Clash(x, y) || Clash(y, x)
    ensures x.row == y.row ==> i == j
  {
    var a, b := Upper(x.row), Upper(y.row);
    var m := |screenId| + 1;
    assert SeatId(screenId, x.row, i + 1)[m..] == a + Dec(i + 1);
    assert SeatId(screenId, y.row, j + 1)[m..] == b + Dec(j + 1);
    if |a| <= |b| {
      Shorter(a, b, x, y, i, j);
    } else {
      Shorter(b, a, y, x, j, i);
    }
  }

  lemma Unprefix(a: string, b: string, s: string, t: string)
    requires |a| <= |b| && a + s == b + t
    ensures b == a + b[|a|..] && s == b[|a|..] + t
  {
    assert a == (a + s)[..|a|] == (b + t)[..|a|] == b[..|a|];
    assert s == (a + s)[|a|..] == (b + t)[|a|..] == b[|a|..] + t;
  }

  lemma Shorter(a: string, b: string, x: Row, y: Row, i: nat, j: nat)
    requires a == Upper(x.row) && b == Upper(y.row) && |a| <= |b|
    requires i < x.count && j < y.count && a + Dec(i + 1) == b + Dec(j + 1)
    ensures Clash(x, y)
    ensures |a| == |b| ==> i == j
  {
    if |a| == |b| {
      SameSplit(a, b, Dec(i + 1), Dec(j + 1));
      EqualLabels(x, y, i, j);
    } else {
      Unprefix(a, b, Dec(i + 1), Dec(j + 1));
      LongerClashes(b[|a|..], x, y, i, j);
    }
  }

  lemma SameSplit(a: string, b: string, s: string, t: string)
    requires |a| == |b| && a + s == b + t
    ensures a == b && s == t
  {
    assert a == (a + s)[..|a|] && b == (b + t)[..|b|];
    assert s == (a + s)[|a|..] && t == (b + t)[|b|..];
  }

  lemma EqualLabels(x: Row, y: Row, i: nat, j: nat)
    requires Upper(x.row) == Upper(y.row) && i < x.count && j < y.count && Dec(i + 1) == Dec(j + 1)
    ensures Clash(x, y) && i == j
  {
    SameNumber(i + 1, j + 1);
  }

  lemma SameNumber(m: nat, n: nat)
    requires Dec(m) == Dec(n)
    ensures m == n
  {
    ValDec(m);
    ValDec(n);
  }

  lemma LongerClashes(p: string, x: Row, y: Row, i: nat, j: nat)
    requires p != [] && Upper(y.row) == Upper(x.row) + p
    requires i < x.count && j < y.count && Dec(i + 1) == p + Dec(j + 1)
    ensures Clash(x, y)
  {
    var v := DecSplit(p, i + 1, j + 1);
    ClashBy(x, y, v);
  }

  lemma ClashBy(x: Row, y: Row, v: nat)
    requires x.count >= 1 && y.count >= 1 && 1 <= v && 10 * v + 1 <= x.count && Upper(y.row) == Upper(x.row) + Dec(v)
    ensures Clash(x, y)
  {
  }

  /** The ids of a generated screen are distinct exactly when no two of its rows clash. */
  lemma SeatIdsUnique(screenId: string, rows: seq<Row>, pricing: Pricing)
    ensures UniqueIds(OpenSeats(BuildLayout(screenId, rows), pricing))
            <==> forall x, y :: 0 <= x < |rows| && 0 <= y < |rows| && x != y ==> !Clash(rows[x], rows[y])
  {
    var seats := OpenSeats(BuildLayout(screenId, rows), pricing);
    GeneratedCount(screenId, rows, pricing);
    forall x, y | 0 <= x < |rows| && 0 <= y < |rows| && x != y && Clash(rows[x], rows[y])
      ensures !UniqueIds(seats)
    {
      ClashBreaks(screenId, rows, pricing, x, y);
    }
    forall k, l | 0 <= k < l < |seats| && seats[k].seatId == seats[l].seatId
      ensures exists x, y :: 0 <= x < |rows| && 0 <= y < |rows| && x != y && Clash(rows[x], rows[y])
    {
      RepeatClashes(screenId, rows, pricing, k, l);
    }
  }

  lemma ClashBreaks(screenId: string, rows: seq<Row>, pricing: Pricing, x: nat, y: nat)
    requires x < |rows| && y < |rows| && x != y && Clash(rows[x], rows[y])
    ensures !UniqueIds(OpenSeats(BuildLayout(screenId, rows), pricing))
  {
    var i, j := ClashShares(screenId, rows[x], rows[y]);
    SeatAt(screenId, rows, pricing, x, i);
    SeatAt(screenId, rows, pricing, y, j);
    if x < y { RowsApart(rows, x, y); } else { RowsApart(rows, y, x); }
  }

  lemma RepeatClashes(screenId: string, rows: seq<Row>, pricing: Pricing, k: nat, l: nat)
    requires k < l < |OpenSeats(BuildLayout(screenId, rows), pricing)|
    requires var seats := OpenSeats(BuildLayout(screenId, rows), pricing); seats[k].seatId == seats[l].seatId
    ensures exists x, y :: 0 <= x < |rows| && 0 <= y < |rows| && x != y && Clash(rows[x], rows[y])
  {
    GeneratedCount(screenId, rows, pricing);
    var x, i := Locate(rows, k);
    var y, j := Locate(rows, l);
    SeatAt(screenId, rows, pricing, x, i);
    SeatAt(screenId, rows, pricing, y, j);
    SharedClashes(screenId, rows[x], rows[y], i, j);
    assert x != y;
  }

  /** Distinct upper-cased labels that do not end in a digit never clash. */
  lemma PlainLabelsUnique(screenId: string, rows: seq<Row>, pricing: Pricing)
    requires forall x, y :: 0 <= x < y < |rows| ==> Upper(rows[x].row) != Upper(rows[y].row)
    requires forall r <- rows :: r.row != [] ==> !IsDigit(r.row[|r.row| - 1])
    ensures UniqueIds(OpenSeats(BuildLayout(screenId, rows), pricing))
  {
    SeatIdsUnique(screenId, rows, pricing);
    forall x, y | 0 <= x < |rows| && 0 <= y < |rows| && x != y
      ensures !Clash(rows[x], rows[y])
    {
      assert rows[y] in rows;
      assert Upper(rows[x].row) != Upper(rows[y].row);
      PlainNeverClashes(rows[x], rows[y]);
    }
  }

  lemma PlainNeverClashes(x: Row, y: Row)
    requires Upper(x.row) != Upper(y.row) && (y.row != [] ==> !IsDigit(y.row[|y.row| - 1]))
    ensures !Clash(x, y)
  {
    var a, b := Upper(x.row), Upper(y.row);
    forall v: nat ensures b != a + Dec(v) {
      assert (a + Dec(v))[|a + Dec(v)| - 1] == Dec(v)[|Dec(v)| - 1];
    }
  }

  /** Row `A` with eleven seats beside row `A1`: seat 11 of the one is seat 1 of the other. With
      ten seats in `A` there is no clash. */
  lemma ElevenSeatsClash(screenId: string, pricing: Pricing)
    ensures !UniqueIds(OpenSeats(BuildLayout(screenId, [Row("A", 11, Standard), Row("A1", 1, Standard)]), pricing))
    ensures UniqueIds(OpenSeats(BuildLayout(screenId, [Row("a", 10, Standard), Row("A1", 1, Standard)]), pricing))
  {
    var a, a1, small := Row("A", 11, Standard), Row("A1", 1, Standard), Row("a", 10, Standard);
    assert Upper("A") == "A" && Upper("a") == "A" && Upper("A1") == "A1" == "A" + Dec(1);
    SeatIdsUnique(screenId, [a, a1], pricing);
    assert Clash([a, a1][0], [a, a1][1]);
    SeatIdsUnique(screenId, [small, a1], pricing);
  }

  /** Screens of one id length never share a seat id: the id starts with the screen's own. */
  lemma ScreensApart(s: string, t: string, a: string, b: string, i: nat, j: nat)
    requires |s| == |t| && s != t
    ensures SeatId(s, a, i) != SeatId(t, b, j)
  {
    assert SeatId(s, a, i)[..|s|] == s && SeatId(t, b, j)[..|t|] == t;
  }

  // ---------------------------------------------------------------- creating a theatre

  datatype Error = SeatCountMismatch(screen: string) | InvalidTheatre | TheatreExists
  datatype Result = Ok(theatre: Theatre) | Fail(error: Error)

  predicate CountsMatch(s: ScreenInput) { ActualSeats(s.rows) == s.totalSeats }

  /** The name of the first screen whose rows do not add up to its seat count. */
  function FirstMismatch(inputs: seq<ScreenInput>): (name: Option<string>)
    ensures name.None? <==> forall s <- inputs :: CountsMatch(s)
    ensures name.Some? ==>
              exists k :: 0 <= k < |inputs| && !CountsMatch(inputs[k]) && name.value == inputs[k].name
                          && forall j :: 0 <= j < k ==> CountsMatch(inputs[j])
  {
    if inputs == [] then None
    else if !CountsMatch(inputs[0]) then Some(inputs[0].name)
    else
      assert inputs == [inputs[0]] + inputs[1..];
      FirstMismatch(inputs[1..])
  }

  /** What the collection's schema demands of a screen. */
  predicate Storable(s: ScreenInput) {
    && 1 <= s.totalSeats <= 1000
    && 0 < |Trim(s.name)| <= 100
    && |s.formats| > 0
    && |s.rows| > 0
    && forall r <- s.rows :: r.count > 0 && 0 < |Trim(Upper(r.row))| <= 5
  }

  /** The generated layout, seat by seat: ids of screen, label and number, numbers from one. */
  ghost predicate Laid(screenId: string, rows: seq<Row>, layout: seq<LayoutRow>) {
    && |layout| == |rows|
    && forall x :: 0 <= x < |rows| ==>
         && layout[x].row == Trim(Upper(rows[x].row)) && |layout[x].seats| == rows[x].count
         && forall i :: 0 <= i < rows[x].count ==>
              layout[x].seats[i] == LayoutSeat(screenId + "-" + (Upper(rows[x].row) + Dec(i + 1)), i + 1, rows[x].kind, true)
  }

  /** A stored screen carries a generated layout and its exact seat count. */
  ghost predicate Generated(s: Screen) {
    exists rows :: s.layout == BuildLayout(s.screenId, rows) && s.totalSeats == ActualSeats(rows) && s.totalSeats <= 1000
  }

  class TheatreService {
    var theatres: seq<Theatre>

    ghost predicate Valid()
      reads this
    {
      && (forall t <- theatres, s <- t.screens :: Generated(s))
      && (forall i, j :: 0 <= i < j < |theatres| ==> theatres[i].theatreId != theatres[j].theatreId)
    }

    constructor ()
      ensures Valid() && theatres == []
    {
      theatres := [];
    }

    /** `theatreId` and `screenIds` are the fresh ids drawn for this theatre. */
    method Create(theatreId: string, screenIds: seq<string>, name: string, inputs: seq<ScreenInput>) returns (r: Result)
      requires Valid() && |screenIds| == |inputs|
      modifies this
      ensures Valid()
      ensures r.Ok? <==>
              && inputs != []
              && (forall s <- inputs :: ActualSeats(s.rows) == s.totalSeats && 1 <= s.totalSeats <= 1000)
              && (forall s <- inputs :: 0 < |Trim(s.name)| <= 100 && s.formats != [] && s.rows != [])
              && (forall s <- inputs, r <- s.rows :: r.count > 0 && 0 < |Trim(Upper(r.row))| <= 5)
              && forall t <- old(theatres) :: t.theatreId != theatreId
      ensures r.Ok? ==>
                && theatres == old(theatres) + [r.theatre]
                && r.theatre.theatreId == theatreId && r.theatre.isActive && |r.theatre.screens| == |inputs|
                && forall k :: 0 <= k < |inputs| ==>
                     && r.theatre.screens[k].screenId == screenIds[k] && r.theatre.screens[k].name == Trim(inputs[k].name)
                     && r.theatre.screens[k].layout == BuildLayout(screenIds[k], inputs[k].rows)
                     && Laid(screenIds[k], inputs[k].rows, r.theatre.screens[k].layout)
                     && r.theatre.screens[k].formats == inputs[k].formats
                     && r.theatre.screens[k].totalSeats == inputs[k].totalSeats
      ensures r.Fail? ==> theatres == old(theatres)
      ensures r.Fail? && r.error.SeatCountMismatch? <==> exists s <- inputs :: !CountsMatch(s)
      ensures r.Fail? && r.error.SeatCountMismatch? ==>
                exists k :: 0 <= k < |inputs| && !CountsMatch(inputs[k]) && r.error.screen == inputs[k].name
                            && forall j :: 0 <= j < k ==> CountsMatch(inputs[j])
      ensures r.Fail? && r.error.InvalidTheatre? <==>
              (forall s <- inputs :: CountsMatch(s)) && (inputs == [] || exists s <- inputs :: !Storable(s))
    {
      var mismatch := FirstMismatch(inputs);
      if mismatch.Some? { return Fail(SeatCountMismatch(mismatch.value)); }
      var screens := BuildScreens(screenIds, inputs);
      if inputs == [] || exists s <- inputs :: !Storable(s) { return Fail(InvalidTheatre); }
      if exists t <- theatres :: t.theatreId == theatreId { return Fail(TheatreExists); }
      var theatre := Theatre(theatreId, name, screens, true);
      forall s | s in screens ensures Generated(s) {
        var k :| 0 <= k < |screens| && screens[k] == s;
        assert inputs[k] in inputs && Storable(inputs[k]) && CountsMatch(inputs[k]);
      }
      theatres := theatres + [theatre];
      r := Ok(theatre);
    }

    /** The screens as they are to be stored. */
    method BuildScreens(screenIds: seq<string>, inputs: seq<ScreenInput>) returns (screens: seq<Screen>)
      requires |screenIds| == |inputs|
      ensures |screens| == |inputs|
      ensures forall k :: 0 <= k < |inputs| ==>
                && screens[k].screenId == screenIds[k] && screens[k].name == Trim(inputs[k].name)
                && screens[k].layout == BuildLayout(screenIds[k], inputs[k].rows) && Laid(screenIds[k], inputs[k].rows, screens[k].layout)
                && screens[k].formats == inputs[k].formats && screens[k].totalSeats == inputs[k].totalSeats
    {
      screens := seq(|inputs|, k requires 0 <= k < |inputs| => BuildScreen(screenIds[k], inputs[k]));
    }
  }

  function BuildScreen(screenId: string, s: ScreenInput): Screen {
    Screen(screenId, Trim(s.name), s.totalSeats, s.formats, BuildLayout(screenId, s.rows))
  }
}
