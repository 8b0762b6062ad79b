/** Shows on a screen: the overlap query of a show's creation, deactivation, and what every run of
    the two keeps. */
module Schedule {
  import opened Options
  import opened Seats
  import opened Layout
  import History
  import Protocol

  const BUFFER_MINUTES := 30
  const MINUTE_MS := 60 * 1000

  /** The window a show was created with: its movie's length then, and the buffer. */
  function WindowMs(duration: nat): nat { (duration + BUFFER_MINUTES) * MINUTE_MS }

  datatype Slot = Slot(theatreId: string, screenId: string, start: int, lengthMs: nat, active: bool)

  predicate SameScreen(a: Slot, b: Slot) {
    a.theatreId == b.theatreId && a.screenId == b.screenId
  }

  function Distance(a: Slot, b: Slot): nat {
    if a.start <= b.start then b.start - a.start else a.start - b.start
  }

  /** The query's test of a stored start against a new window: the two branches of its `$or`. */
  predicate Overlaps(stored: int, start: int, lengthMs: nat) {
    || (start <= stored && stored < start + lengthMs)
    || (stored < start && stored > start - lengthMs)
  }

  /** Does the query find a show? It sees stored starts, never stored lengths. */
  predicate Conflict(board: seq<Slot>, slot: Slot) {
    exists i :: 0 <= i < |board| && board[i].active && SameScreen(board[i], slot)
                && Overlaps(board[i].start, slot.start, slot.lengthMs)
  }

  /** Do the half-open windows meet? This is what the query is meant to decide. */
  predicate WindowsMeet(a: Slot, b: Slot) {
    a.start < b.start + b.lengthMs && b.start < a.start + a.lengthMs
  }

  datatype Event = Create(slot: Slot) | Deactivate(index: nat)

  function Step(board: seq<Slot>, e: Event): seq<Slot> {
    match e
    case Create(slot) => if Conflict(board, slot) then board else board + [slot]
    case Deactivate(i) => if i < |board| then board[i := board[i].(active := false)] else board
  }

  function Run(events: seq<Event>): seq<Slot> {
    if events == [] then [] else Step(Run(events[..|events| - 1]), events[|events| - 1])
  }

  /** The later-created of two active shows on a screen keeps its own length from the earlier. */
  ghost predicate Spaced(board: seq<Slot>) {
    forall i, j :: 0 <= i < j < |board| && board[i].active && board[j].active && SameScreen(board[i], board[j])
                   ==> Distance(board[i], board[j]) >= board[j].lengthMs
  }

  /** The query rejects exactly on starts closer than the new show's own length. */
  lemma ConflictIsCloseness(board: seq<Slot>, slot: Slot)
    requires slot.lengthMs > 0
    ensures Conflict(board, slot) <==>
            exists i :: 0 <= i < |board| && board[i].active && SameScreen(board[i], slot)
                        && Distance(board[i], slot) < slot.lengthMs
  {
    forall i | 0 <= i < |board|
      ensures Overlaps(board[i].start, slot.start, slot.lengthMs) <==> Distance(board[i], slot) < slot.lengthMs
    {
    }
  }

  lemma StepKeepsSpacing(board: seq<Slot>, e: Event)
    requires Spaced(board) && (e.Create? ==> e.slot.lengthMs > 0)
    ensures Spaced(Step(board, e))
  {
    if e.Create? { ConflictIsCloseness(board, e.slot); }
  }

  lemma {:induction false} RunsSpaced(events: seq<Event>)
    requires forall e <- events :: e.Create? ==> e.slot.lengthMs > 0
    ensures Spaced(Run(events))
  {
    if events != [] {
      RunsSpaced(events[..|events| - 1]);
      StepKeepsSpacing(Run(events[..|events| - 1]), events[|events| - 1]);
    }
  }

  // ---------------------------------------------------------------- equal lengths

  /** `shows` are active shows of one screen, all of length `lengthMs`. */
  ghost predicate EqualLengths(board: seq<Slot>, shows: set<nat>, lengthMs: nat) {
    && (forall i <- shows :: i < |board| && board[i].active && board[i].lengthMs == lengthMs)
    && (forall i <- shows, j <- shows :: SameScreen(board[i], board[j]))
  }

  lemma {:induction false} Latest(board: seq<Slot>, shows: set<nat>) returns (hi: nat)
    requires shows != {} && forall i <- shows :: i < |board|
    ensures hi in shows && forall i <- shows :: board[i].start <= board[hi].start
    decreases |shows|
  {
    var any :| any in shows;
    var rest := shows - {any};
    if rest == {} {
      hi := any;
      assert shows == {any};
    } else {
      hi := Latest(board, rest);
      if board[hi].start < board[any].start { hi := any; }
      assert shows == rest + {any};
    }
  }

  lemma EqualPair(board: seq<Slot>, shows: set<nat>, lengthMs: nat, i: nat, j: nat)
    requires Spaced(board) && EqualLengths(board, shows, lengthMs) && i in shows && j in shows && i != j
    requires board[i].start <= board[j].start
    ensures board[j].start - board[i].start >= lengthMs
  {
    assert SameScreen(board[i], board[j]) && SameScreen(board[j], board[i]);
  }

  lemma OneMore(n: nat, length: nat)
    requires n > 0
    ensures ((n + 1) - 1) * length == (n - 1) * length + length
  {
  }

  /** `n` equally long active shows of a screen span at least `n - 1` of their windows. */
  lemma {:induction false} EqualShowsSpan(board: seq<Slot>, shows: set<nat>, lengthMs: nat) returns (lo: nat, hi: nat)
    requires Spaced(board) && EqualLengths(board, shows, lengthMs) && shows != {}
    ensures lo in shows && hi in shows
    ensures board[hi].start - board[lo].start >= (|shows| - 1) * lengthMs
    ensures forall i <- shows :: board[i].start <= board[hi].start
    decreases |shows|
  {
    hi := Latest(board, shows);
    var rest := shows - {hi};
    if rest == {} {
      lo := hi;
      assert shows == {hi};
    } else {
      var next;
      lo, next := EqualShowsSpan(board, rest, lengthMs);
      EqualPair(board, shows, lengthMs, next, hi);
      assert |rest| == |shows| - 1;
      OneMore(|rest|, lengthMs);
    }
  }

  lemma RunEqualShowsSpan(events: seq<Event>, shows: set<nat>, lengthMs: nat) returns (lo: nat, hi: nat)
    requires forall e <- events :: e.Create? ==> e.slot.lengthMs > 0
    requires EqualLengths(Run(events), shows, lengthMs) && shows != {}
    ensures lo in shows && hi in shows
    ensures Run(events)[hi].start - Run(events)[lo].start >= (|shows| - 1) * lengthMs
  {
    RunsSpaced(events);
    lo, hi := EqualShowsSpan(Run(events), shows, lengthMs);
  }

  // ---------------------------------------------------------------- windows

  lemma {:induction false} RunLengths(events: seq<Event>)
    requires forall e <- events :: e.Create? ==> e.slot.lengthMs > 0
    ensures forall i :: 0 <= i < |Run(events)| ==> Run(events)[i].lengthMs > 0
  {
    if events != [] { RunLengths(events[..|events| - 1]); }
  }

  /** In every run, two active shows of a screen overlap exactly when the later-created one starts
      after its own length, counted from the earlier's start, but before the earlier's end. */
  lemma {:induction false} RunOverlaps(events: seq<Event>, i: nat, j: nat)
    requires forall e <- events :: e.Create? ==> e.slot.lengthMs > 0
    requires i < j < |Run(events)|
    requires var b := Run(events); b[i].active && b[j].active && SameScreen(b[i], b[j])
    ensures var b := Run(events);
            && (WindowsMeet(b[i], b[j]) <==> b[i].start + b[j].lengthMs <= b[j].start < b[i].start + b[i].lengthMs)
            && (b[i].lengthMs <= b[j].lengthMs ==> !WindowsMeet(b[i], b[j]))
  {
    RunsSpaced(events);
    RunLengths(events);
  }

  /** The query answers the window question wrongly exactly for a show that starts earlier and
      whose end and the new length, counted from its start, lie on different sides of the new start:
      a longer one is missed, a shorter one is rejected without need. */
  lemma QueryVersusWindows(stored: Slot, slot: Slot)
    requires stored.lengthMs > 0 && slot.lengthMs > 0
    ensures Overlaps(stored.start, slot.start, slot.lengthMs) != WindowsMeet(stored, slot) <==>
            stored.start < slot.start
            && (slot.start < stored.start + slot.lengthMs) != (slot.start < stored.start + stored.lengthMs)
  {
  }

  /** A three-hour film at 0 and a half-hour one two hours later: both are accepted, and their
      windows overlap. A half-hour film at 0 and a three-hour one an hour later: refused, though
      the windows do not meet. */
  lemma LongerShowMissed(theatreId: string, screenId: string)
    ensures var long, short := Slot(theatreId, screenId, 0, WindowMs(180), true),
                               Slot(theatreId, screenId, 120 * MINUTE_MS, WindowMs(30), true);
            Run([Create(long), Create(short)]) == [long, short] && WindowsMeet(long, short)
    ensures var short, long := Slot(theatreId, screenId, 0, WindowMs(30), true),
                               Slot(theatreId, screenId, 60 * MINUTE_MS, WindowMs(180), true);
            Run([Create(short), Create(long)]) == [short] && !WindowsMeet(short, long)
  {
    var a, b := Slot(theatreId, screenId, 0, WindowMs(180), true), Slot(theatreId, screenId, 120 * MINUTE_MS, WindowMs(30), true);
    TwoCreates(a, b);
    var c, d := Slot(theatreId, screenId, 0, WindowMs(30), true), Slot(theatreId, screenId, 60 * MINUTE_MS, WindowMs(180), true);
    TwoCreates(c, d);
    assert [c][0] == c;
  }

  lemma TwoCreates(a: Slot, b: Slot)
    ensures Run([Create(a), Create(b)]) == Step([a], Create(b))
  {
    var events := [Create(a), Create(b)];
    assert events[..1] == [Create(a)] && [Create(a)][..0] == [];
    assert Run([Create(a)]) == Step(Run([]), Create(a)) == [a];
  }

  // ---------------------------------------------------------------- query and insert apart

  /** The board, and the creates that have queried it and not inserted yet. */
  datatype Desk = Desk(board: seq<Slot>, checked: map<nat, Slot>)

  datatype Move = Query(p: nat, slot: Slot) | Insert(p: nat) | Withdraw(index: nat)

  function Turn(d: Desk, m: Move): Desk {
    match m
    case Query(p, slot) => if p in d.checked || Conflict(d.board, slot) then d else d.(checked := d.checked[p := slot])
    case Insert(p) => if p in d.checked then Desk(d.board + [d.checked[p]], d.checked - {p}) else d
    case Withdraw(i) => d.(board := Step(d.board, Deactivate(i)))
  }

  /** Every slot asked for is an active one with some length. */
  ghost predicate Proper(m: Move) {
    m.Query? ==> m.slot.active && m.slot.lengthMs > 0
  }

  ghost predicate CheckedProper(d: Desk) {
    forall p :: p in d.checked ==> d.checked[p].active && d.checked[p].lengthMs > 0
  }

  /** A create inserts although the query would find a show by now. */
  predicate StaleInsert(d: Desk, m: Move) {
    m.Insert? && m.p in d.checked && Conflict(d.board, d.checked[m.p])
  }

  /** With query and insert as separate calls, a call breaks the spacing exactly when it is the
      insert of a show that the query would refuse by now. */
  lemma TurnSpacing(d: Desk, m: Move)
    requires Spaced(d.board) && CheckedProper(d) && Proper(m)
    ensures Spaced(Turn(d, m).board) <==> !StaleInsert(d, m)
    ensures CheckedProper(Turn(d, m))
  {
    if m.Withdraw? {
      StepKeepsSpacing(d.board, Deactivate(m.index));
    } else if m.Insert? && m.p in d.checked {
      var slot := d.checked[m.p];
      ConflictIsCloseness(d.board, slot);
      if StaleInsert(d, m) {
        var i :| 0 <= i < |d.board| && d.board[i].active && SameScreen(d.board[i], slot) && Distance(d.board[i], slot) < slot.lengthMs;
        var t := Turn(d, m).board;
        assert t[i] == d.board[i] && t[|d.board|] == slot;
      } else {
        StepKeepsSpacing(d.board, Create(slot));
      }
    }
  }

  function Turns(d: Desk, moves: seq<Move>): Desk
    decreases moves
  {
    if moves == [] then d else Turns(Turn(d, moves[0]), moves[1..])
  }

  ghost predicate NoStaleInsert(d: Desk, moves: seq<Move>)
    decreases moves
  {
    moves == [] || (!StaleInsert(d, moves[0]) && NoStaleInsert(Turn(d, moves[0]), moves[1..]))
  }

  /** In every interleaving of creates and deactivations without such an insert, the spacing holds. */
  lemma {:induction false} TurnsSpaced(d: Desk, moves: seq<Move>)
    requires Spaced(d.board) && CheckedProper(d) && (forall m <- moves :: Proper(m)) && NoStaleInsert(d, moves)
    ensures Spaced(Turns(d, moves).board)
    decreases moves
  {
    if moves != [] {
      assert moves[0] in moves && forall m <- moves[1..] :: m in moves;
      TurnSpacing(d, moves[0]);
      TurnsSpaced(Turn(d, moves[0]), moves[1..]);
    }
  }

  /** Query and insert in one go are the whole create. */
  lemma TogetherIsCreate(d: Desk, slot: Slot, p: nat)
    requires p !in d.checked
    ensures Turns(d, [Query(p, slot), Insert(p)]).board == Step(d.board, Create(slot))
  {
    var a, b := Query(p, slot), Insert(p);
    assert [a, b][1..] == [b] && [b][1..] == [];
    assert Turns(d, [a, b]) == Turns(Turn(d, a), [b]) == Turn(Turn(d, a), b);
  }

  /** Two creates that both query before either inserts are both accepted, for the same time too. */
  lemma BothInserted(d: Desk, slot: Slot, p: nat, q: nat)
    requires !Conflict(d.board, slot) && slot.active && slot.lengthMs > 0 && p !in d.checked && q !in d.checked && p != q
    ensures var t := Turns(d, [Query(p, slot), Query(q, slot), Insert(p), Insert(q)]);
            t.board == d.board + [slot, slot] && !Spaced(t.board)
  {
    var a, b, c, e := Query(p, slot), Query(q, slot), Insert(p), Insert(q);
    var moves := [a, b, c, e];
    assert moves[1..] == [b, c, e] && moves[1..][1..] == [c, e] && moves[1..][1..][1..] == [e] && moves[1..][1..][1..][1..] == [];
    var d2 := Turn(Turn(d, a), b);
    var t := Turn(Turn(d2, c), e);
    assert Turns(d, moves) == Turns(d2, [c, e]) == Turns(Turn(d2, c), [e]) == t;
    assert t.board == d.board + [slot] + [slot] == d.board + [slot, slot];
    assert t.board[|d.board|] == slot && t.board[|d.board| + 1] == slot && SameScreen(slot, slot);
  }

  // ---------------------------------------------------------------- the service

  datatype Movie = Movie(movieId: string, duration: nat, isActive: bool)

  datatype ShowInput = ShowInput(
    movieId: string,
    theatreId: string,
    screenId: string,
    showTime: Option<int>,
    format: Format,
    pricing: Pricing)

  datatype ShowDoc = ShowDoc(movieId: string, theatreId: string, screenId: string, format: Format, show: Show)

  datatype ShowError =
    | InvalidShowTime | ShowTimeInPast | MovieNotFound | TheatreNotFound | ScreenNotFound
    | FormatNotSupported | ShowOverlap | NoActiveSeats | NotStored | ShowNotFound

  datatype ShowResult = Opened(doc: ShowDoc) | Deactivated | Refused(error: ShowError)

  function FindMovie(movies: seq<Movie>, movieId: string): Option<Movie> {
    if movies == [] then None
    else if movies[0].movieId == movieId && movies[0].isActive then Some(movies[0])
    else FindMovie(movies[1..], movieId)
  }

  function FindTheatre(theatres: seq<Theatre>, theatreId: string): Option<Theatre> {
    if theatres == [] then None
    else if theatres[0].theatreId == theatreId && theatres[0].isActive then Some(theatres[0])
    else FindTheatre(theatres[1..], theatreId)
  }

  function FindScreen(screens: seq<Screen>, screenId: string): Option<Screen> {
    if screens == [] then None
    else if screens[0].screenId == screenId then Some(screens[0])
    else FindScreen(screens[1..], screenId)
  }

  lemma {:induction false} FindMovieIn(movies: seq<Movie>, movieId: string)
    ensures var r := FindMovie(movies, movieId);
            if r.Some? then r.value in movies && r.value.movieId == movieId && r.value.isActive
            else forall m :: m in movies && m.movieId == movieId ==> !m.isActive
  {
    if movies != [] { FindMovieIn(movies[1..], movieId); }
  }

  lemma {:induction false} FindTheatreIn(theatres: seq<Theatre>, theatreId: string)
    ensures var r := FindTheatre(theatres, theatreId);
            if r.Some? then r.value in theatres && r.value.theatreId == theatreId && r.value.isActive
            else forall t :: t in theatres && t.theatreId == theatreId ==> !t.isActive
  {
    if theatres != [] { FindTheatreIn(theatres[1..], theatreId); }
  }

  lemma {:induction false} FindScreenIn(screens: seq<Screen>, screenId: string)
    ensures var r := FindScreen(screens, screenId);
            if r.Some? then r.value in screens && r.value.screenId == screenId
            else forall s :: s in screens ==> s.screenId != screenId
  {
    if screens != [] { FindScreenIn(screens[1..], screenId); }
  }

  function Slots(shows: seq<ShowDoc>, lengths: seq<nat>): seq<Slot>
    requires |lengths| == |shows|
  {
    seq(|shows|, i requires 0 <= i < |shows| =>
      Slot(shows[i].theatreId, shows[i].screenId, shows[i].show.showTime, lengths[i], shows[i].show.isActive))
  }

  function SlotFor(input: ShowInput, movie: Movie): Slot
    requires input.showTime.Some?
  {
    Slot(input.theatreId, input.screenId, input.showTime.value, WindowMs(movie.duration), true)
  }

  // ---------------------------------------------------------------- what a creation answers

  ghost predicate ActiveMovie(movies: seq<Movie>, movieId: string, m: Movie) {
    m in movies && m.movieId == movieId && m.isActive
  }

  ghost predicate ActiveTheatre(theatres: seq<Theatre>, theatreId: string, t: Theatre) {
    t in theatres && t.theatreId == theatreId && t.isActive
  }

  ghost predicate InFuture(input: ShowInput, now: int) {
    input.showTime.Some? && now < input.showTime.value
  }

  /** An active show of the screen starts closer than the film's minutes and thirty more. */
  ghost predicate Crowded(shows: seq<ShowDoc>, input: ShowInput, minutes: nat) {
    input.showTime.Some? &&
    exists d :: d in shows && d.show.isActive && d.theatreId == input.theatreId && d.screenId == input.screenId
                && -((minutes + 30) * 60000) < d.show.showTime - input.showTime.value < (minutes + 30) * 60000
  }

  /** The answer for a film and a screen that support the request. */
  ghost predicate ScreenOutcome(input: ShowInput, m: Movie, s: Screen, shows: seq<ShowDoc>, showId: string, r: ShowResult) {
    var active := ActiveOnly(AllSeats(s.layout));
    if Crowded(shows, input, m.duration) then r == Refused(ShowOverlap)
    else if active == [] then r == Refused(NoActiveSeats)
    else if |active| > 1000 || (exists d :: d in shows && d.show.showId == showId) then r == Refused(NotStored)
    else
      && r.Opened? && r.doc.movieId == input.movieId && r.doc.theatreId == input.theatreId
      && r.doc.screenId == input.screenId && r.doc.format == input.format
      && r.doc.show.showId == showId && Some(r.doc.show.showTime) == input.showTime && r.doc.show.isActive
      && r.doc.show.totalSeats == r.doc.show.availableSeats == |active| && r.doc.show.seatVersion == 0
      && OpenedAs(r.doc.show.seats, active, input.pricing)
  }

  /** The answer to a creation: which test fails first, or the show with every seat at its price. */
  ghost predicate ShowOutcome(input: ShowInput, movies: seq<Movie>, theatres: seq<Theatre>, shows: seq<ShowDoc>,
                              now: int, showId: string, r: ShowResult)
  {
    if input.showTime.None? then r == Refused(InvalidShowTime)
    else if input.showTime.value <= now then r == Refused(ShowTimeInPast)
    else if forall m :: !ActiveMovie(movies, input.movieId, m) then r == Refused(MovieNotFound)
    else if forall t :: !ActiveTheatre(theatres, input.theatreId, t) then r == Refused(TheatreNotFound)
    else
      exists m, t :: ActiveMovie(movies, input.movieId, m) && ActiveTheatre(theatres, input.theatreId, t) &&
        if forall s :: s in t.screens ==> s.screenId != input.screenId then r == Refused(ScreenNotFound)
        else exists s :: s in t.screens && s.screenId == input.screenId &&
               if input.format !in s.formats then r == Refused(FormatNotSupported)
               else ScreenOutcome(input, m, s, shows, showId, r)
  }

  class ShowService {
    var shows: seq<ShowDoc>
    /** The window each show was created with; the document keeps only its start. */
    ghost var lengths: seq<nat>

    ghost function Board(): seq<Slot>
      reads this
      requires |lengths| == |shows|
    {
      Slots(shows, lengths)
    }

    ghost predicate Valid()
      reads this
    {
      && |lengths| == |shows|
      && (forall i, j :: 0 <= i < j < |shows| ==> shows[i].show.showId != shows[j].show.showId)
      && Spaced(Board())
    }

    constructor ()
      ensures Valid() && shows == []
    {
      shows, lengths := [], [];
    }

    /** `showId` is the fresh id drawn for this show. */
    method Create(input: ShowInput, movies: seq<Movie>, theatres: seq<Theatre>, now: int, showId: string)
      returns (r: ShowResult)
      requires Valid()
      modifies this
      ensures Valid()
      ensures ShowOutcome(input, movies, theatres, old(shows), now, showId, r)
      ensures r.Opened? || (r.Refused? && shows == old(shows) && lengths == old(lengths))
      ensures r.Opened? ==>
                && FindMovie(movies, input.movieId).Some? && FindTheatre(theatres, input.theatreId).Some?
                && FindScreen(FindTheatre(theatres, input.theatreId).value.screens, input.screenId).Some? && input.showTime.Some?
                && var slot := SlotFor(input, FindMovie(movies, input.movieId).value);
                && var screen := FindScreen(FindTheatre(theatres, input.theatreId).value.screens, input.screenId).value;
                && shows == old(shows) + [r.doc]
                && r.doc.show == Fresh(showId, slot.start, OpenSeats(screen.layout, input.pricing))
                && Board() == Step(old(Board()), Event.Create(slot)) == old(Board()) + [slot]
    {
      if input.showTime.None? { return Refused(InvalidShowTime); }
      if input.showTime.value <= now { return Refused(ShowTimeInPast); }
      var movie := FindMovie(movies, input.movieId);
      FindMovieIn(movies, input.movieId);
      if movie.None? { return Refused(MovieNotFound); }
      assert ActiveMovie(movies, input.movieId, movie.value);
      var theatre := FindTheatre(theatres, input.theatreId);
      FindTheatreIn(theatres, input.theatreId);
      if theatre.None? { return Refused(TheatreNotFound); }
      assert ActiveTheatre(theatres, input.theatreId, theatre.value);
      var screen := FindScreen(theatre.value.screens, input.screenId);
      FindScreenIn(theatre.value.screens, input.screenId);
      if screen.None? { return Refused(ScreenNotFound); }
      if input.format !in screen.value.formats { return Refused(FormatNotSupported); }
      r := OpenOn(input, movie.value, screen.value, showId);
    }

    /** The overlap query. */
    method FindOverlap(input: ShowInput, movie: Movie) returns (overlap: bool)
      requires Valid() && input.showTime.Some?
      ensures overlap == Crowded(shows, input, movie.duration) == Conflict(Board(), SlotFor(input, movie))
    {
      var showTime, durationMs := input.showTime.value, WindowMs(movie.duration);
      overlap := exists i :: 0 <= i < |shows| && shows[i].show.isActive
                   && shows[i].theatreId == input.theatreId && shows[i].screenId == input.screenId
                   && Overlaps(shows[i].show.showTime, showTime, durationMs);
      ConflictInShows(SlotFor(input, movie));
      CrowdedIsConflict(input, movie.duration);
    }

    /** The overlap query, the seat list and the insert. */
    method OpenOn(input: ShowInput, movie: Movie, screen: Screen, showId: string) returns (r: ShowResult)
      requires Valid() && input.showTime.Some?
      modifies this
      ensures Valid()
      ensures ScreenOutcome(input, movie, screen, old(shows), showId, r)
      ensures r.Opened? || (r.Refused? && shows == old(shows) && lengths == old(lengths))
      ensures r.Opened? ==>
                && shows == old(shows) + [r.doc]
                && r.doc.show == Fresh(showId, input.showTime.value, OpenSeats(screen.layout, input.pricing))
                && Board() == Step(old(Board()), Event.Create(SlotFor(input, movie))) == old(Board()) + [SlotFor(input, movie)]
    {
      var overlap := FindOverlap(input, movie);
      OpensActiveSeats(screen.layout, input.pricing);
      if overlap { return Refused(ShowOverlap); }

      var seats := OpenSeats(screen.layout, input.pricing);
      if |seats| == 0 { return Refused(NoActiveSeats); }
      if |seats| > 1000 || exists d <- shows :: d.show.showId == showId { return Refused(NotStored); }
      var doc := ShowDoc(input.movieId, input.theatreId, input.screenId, input.format, Fresh(showId, input.showTime.value, seats));
      ghost var slot := SlotFor(input, movie);
      StepKeepsSpacing(Board(), Event.Create(slot));
      ghost var board := Board();
      shows, lengths := shows + [doc], lengths + [slot.lengthMs];
      assert Board() == board + [slot];
      r := Opened(doc);
    }

    lemma CrowdedIsConflict(input: ShowInput, minutes: nat)
      requires input.showTime.Some?
      ensures Crowded(shows, input, minutes) <==>
              exists i :: 0 <= i < |shows| && shows[i].show.isActive
                          && shows[i].theatreId == input.theatreId && shows[i].screenId == input.screenId
                          && Overlaps(shows[i].show.showTime, input.showTime.value, (minutes + 30) * 60 * 1000)
    {
    }

    lemma ConflictInShows(slot: Slot)
      requires |lengths| == |shows|
      ensures Conflict(Board(), slot) <==>
              exists i :: 0 <= i < |shows| && shows[i].show.isActive
                          && shows[i].theatreId == slot.theatreId && shows[i].screenId == slot.screenId
                          && Overlaps(shows[i].show.showTime, slot.start, slot.lengthMs)
    {
      var b := Board();
      assert forall i :: 0 <= i < |shows| ==>
          b[i].active == shows[i].show.isActive && b[i].start == shows[i].show.showTime
          && b[i].theatreId == shows[i].theatreId && b[i].screenId == shows[i].screenId;
    }

    /** Also finds shows that are inactive already. */
    method Deactivate(showId: string) returns (r: ShowResult)
      requires Valid()
      modifies this
      ensures Valid() && lengths == old(lengths)
      ensures r.Deactivated? <==> exists d <- old(shows) :: d.show.showId == showId
      ensures r.Deactivated? ==>
                exists i :: 0 <= i < |old(shows)| && old(shows)[i].show.showId == showId
                            && Board() == Step(old(Board()), Event.Deactivate(i))
                            && shows == old(shows)[i := old(shows)[i].(show := old(shows)[i].show.(isActive := false))]
      ensures !r.Deactivated? ==> r == Refused(ShowNotFound) && shows == old(shows)
    {
      if i :| 0 <= i < |shows| && shows[i].show.showId == showId {
        StepKeepsSpacing(Board(), Event.Deactivate(i));
        ghost var board := Board();
        shows := shows[i := shows[i].(show := shows[i].show.(isActive := false))];
        assert Board() == Step(board, Event.Deactivate(i));
        r := Deactivated;
      } else {
        r := Refused(ShowNotFound);
      }
    }
  }

  /** A new show document: every seat counted as available, version zero. */
  function Fresh(showId: string, showTime: int, seats: seq<Seat>): Show {
    Show(showId, showTime, true, |seats|, |seats|, 0, seats)
  }

  /** A show opened on a generated screen has as many seats as the screen's rows add up to, all of
      them available, and starts the reservation protocol in a legal state exactly when no two of
      the screen's rows clash. */
  lemma OpenedShowStartsProtocol(
      showId: string, showTime: int, screenId: string, rows: seq<Row>, pricing: Pricing, holdMinutes: nat, now: int)
    requires 1 <= holdMinutes <= 30
    ensures var show := Fresh(showId, showTime, OpenSeats(BuildLayout(screenId, rows), pricing));
            && show.totalSeats == show.availableSeats == ActualSeats(rows)
            && CountAvailable(show.seats) == ActualSeats(rows)
            && (Protocol.Init(Protocol.State(Protocol.Config(show, holdMinutes), Protocol.Db(now, show, [], map[]), map[], [], []))
                <==> forall x, y :: 0 <= x < |rows| && 0 <= y < |rows| && x != y ==> !Clash(rows[x], rows[y]))
  {
    var layout := BuildLayout(screenId, rows);
    GeneratedCount(screenId, rows, pricing);
    OpenCounts(layout, pricing);
    AllAvailable(OpenSeats(layout, pricing));
    SeatIdsUnique(screenId, rows, pricing);
  }
}
