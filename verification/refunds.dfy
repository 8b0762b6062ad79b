/** Refunds taken apart into their three calls: the document is read and checked, the gateway asked,
    the document written. Everything else the payment service does may come in between. */
module Refunds {
  import opened Options
  import opened Payments

  /** A refund between two calls. `Stuck` is one that asked the gateway and never wrote. */
  datatype Stage =
    | Asking(paymentId: string, paise: int)
    | Writing(paymentId: string, refundId: string)
    | Stuck(paymentId: string)
    | Ended

  datatype Desk = Desk(books: Books, procs: map<nat, Stage>)

  datatype Action =
    | Read(p: nat, paymentId: string, part: Option<real>)
    | Ask(p: nat, answer: Option<string>)
    | Write(p: nat)
    | Crash(p: nat)
    | Other(call: Call)

  /** The payment is there and the refund passes every check made on the document. */
  predicate Passes(s: Books, paymentId: string, part: Option<real>) {
    var i := ById(s.payments, paymentId);
    i < |s.payments| && RefundError(s.payments[i], part).None?
  }

  function WriteBack(d: Desk, p: nat, paymentId: string, refundId: string): Desk {
    var ps := d.books.payments;
    var i := ById(ps, paymentId);
    if i == |ps| || exists j :: 0 <= j < |ps| && j != i && ps[j].refundId == Some(refundId)
    then d.(procs := d.procs[p := Stuck(paymentId)])
    else Desk(d.books.(payments := ps[i := ps[i].(status := RefundPending, refundId := Some(refundId))]), d.procs[p := Ended])
  }

  function Do(d: Desk, a: Action): Desk {
    match a
    case Read(p, paymentId, part) =>
      if p in d.procs then d
      else if !Passes(d.books, paymentId, part) then d.(procs := d.procs[p := Ended])
      else d.(procs := d.procs[p := Asking(paymentId, Asked(d.books.payments[ById(d.books.payments, paymentId)], part))])
    case Ask(p, answer) =>
      if p !in d.procs || !d.procs[p].Asking? then d
      else if answer.None? then d.(procs := d.procs[p := Ended])
      else
        var q := d.procs[p];
        Desk(d.books.(sent := d.books.sent + [Sent(q.paymentId, q.paise)]), d.procs[p := Writing(q.paymentId, answer.value)])
    case Write(p) =>
      if p in d.procs && d.procs[p].Writing? then WriteBack(d, p, d.procs[p].paymentId, d.procs[p].refundId) else d
    case Crash(p) =>
      if p !in d.procs || d.procs[p].Stuck? then d
      else d.(procs := d.procs[p := if d.procs[p].Writing? then Stuck(d.procs[p].paymentId) else Ended])
    case Other(call) => if call.RefundPayment? then d else d.(books := Act(d.books, call).0)
  }

  function Exec(d: Desk, acts: seq<Action>): Desk
    decreases acts
  {
    if acts == [] then d else Exec(Do(d, acts[0]), acts[1..])
  }

  const OPENING := Desk(EMPTY, map[])

  // ---------------------------------------------------------------- within the order

  /** Documents and requests are in order, those still to be sent included. */
  ghost predicate Sound(d: Desk) {
    && Distinct(d.books) && Positive(d.books) && Covered(d.books)
    && forall p :: p in d.procs && d.procs[p].Asking? ==>
         CoveredBy(d.books.payments, Sent(d.procs[p].paymentId, d.procs[p].paise))
  }

  lemma CoveredGrows(s: Books, t: Books, r: Sent)
    requires Grows(s, t) && CoveredBy(s.payments, r)
    ensures CoveredBy(t.payments, r)
  {
    var i :| 0 <= i < |s.payments| && s.payments[i].paymentId == r.paymentId && 0 <= r.paise <= Paise(s.payments[i].amount);
    assert SameIds(t.payments[i], s.payments[i]);
  }

  /** A write-back changes one payment's status and refund id. */
  lemma WriteBackShape(d: Desk, p: nat, paymentId: string, refundId: string)
    ensures var t := WriteBack(d, p, paymentId, refundId);
            && Grows(d.books, t.books) && |t.books.payments| == |d.books.payments|
            && t.books.sent == d.books.sent && t.books.published == d.books.published
  {
  }

  lemma SoundBooks(s: Books, t: Books)
    requires Distinct(s) && Positive(s) && Covered(s) && Grows(s, t) && |t.payments| == |s.payments| && t.sent == s.sent
    ensures Distinct(t) && Positive(t) && Covered(t)
  {
    forall i | 0 <= i < |t.payments| ensures SameIds(t.payments[i], s.payments[i]) && t.payments[i].amount >= 1.0 {
      assert s.payments[i] in s.payments;
    }
    forall r | r in t.sent ensures CoveredBy(t.payments, r) { CoveredGrows(s, t, r); }
  }

  lemma SoundStep(d: Desk, a: Action)
    requires Sound(d)
    ensures Sound(Do(d, a))
  {
    match a
    case Read(p, paymentId, part) =>
      if p !in d.procs && Passes(d.books, paymentId, part) {
        PassingFits(d.books, paymentId, part);
      }
    case Ask(_, _) =>
    case Write(p) =>
      if p in d.procs && d.procs[p].Writing? {
        WriteBackShape(d, p, d.procs[p].paymentId, d.procs[p].refundId);
        SoundBooks(d.books, Do(d, a).books);
        AskingGrows(d, Do(d, a));
      }
    case Crash(_) =>
    case Other(call) =>
      if !call.RefundPayment? {
        GrowsDistinct(d.books, call);
        CoveredStep(d.books, call);
        StepGrows(d.books, call);
        AskingGrows(d, Do(d, a));
      }
  }

  lemma AskingGrows(d: Desk, t: Desk)
    requires Sound(d) && Grows(d.books, t.books)
    ensures forall p :: p in d.procs && d.procs[p].Asking? ==>
              CoveredBy(t.books.payments, Sent(d.procs[p].paymentId, d.procs[p].paise))
  {
    forall p | p in d.procs && d.procs[p].Asking?
      ensures CoveredBy(t.books.payments, Sent(d.procs[p].paymentId, d.procs[p].paise))
    {
      CoveredGrows(d.books, t.books, Sent(d.procs[p].paymentId, d.procs[p].paise));
    }
  }

  lemma PassingFits(s: Books, paymentId: string, part: Option<real>)
    requires Positive(s) && Passes(s, paymentId, part)
    ensures CoveredBy(s.payments, Sent(paymentId, Asked(s.payments[ById(s.payments, paymentId)], part)))
  {
    AskedFits(s, RefundPayment(paymentId, part, Some("")));
  }

  /** The gateway accepts a request that exceeds what is left of the order. */
  predicate Overdraws(d: Desk, a: Action) {
    && a.Ask? && a.answer.Some? && a.p in d.procs && d.procs[a.p].Asking?
    && var ps, q := d.books.payments, d.procs[a.p];
       var i := ById(ps, q.paymentId);
       i < |ps| && TotalFor(d.books.sent, q.paymentId) + q.paise > Paise(ps[i].amount)
  }

  /** One more request for payment `i`. */
  lemma OneMoreSent(s: Books, t: Books, i: nat, paise: int)
    requires Distinct(s) && Bounded(s) && i < |s.payments| && t.payments == s.payments
    requires t.sent == s.sent + [Sent(s.payments[i].paymentId, paise)]
    ensures Bounded(t) <==> TotalFor(s.sent, s.payments[i].paymentId) + paise <= Paise(s.payments[i].amount)
  {
    var p := s.payments[i];
    TotalSnoc(s.sent, Sent(p.paymentId, paise), p.paymentId);
    assert p in t.payments;
    forall x | x in t.payments && x != p ensures TotalFor(t.sent, x.paymentId) <= Paise(x.amount) {
      var k :| 0 <= k < |s.payments| && s.payments[k] == x;
      TotalSnoc(s.sent, Sent(p.paymentId, paise), x.paymentId);
    }
  }

  lemma AskedTotals(d: Desk, a: Action)
    requires Sound(d) && Bounded(d.books) && a.Ask? && a.answer.Some? && a.p in d.procs && d.procs[a.p].Asking?
    ensures Bounded(Do(d, a).books) <==> !Overdraws(d, a)
  {
    var ps, q := d.books.payments, d.procs[a.p];
    var i := ById(ps, q.paymentId);
    var k :| 0 <= k < |ps| && ps[k].paymentId == q.paymentId;
    assert i == k;
    OneMoreSent(d.books, Do(d, a).books, i, q.paise);
  }

  lemma SameTotals(s: Books, t: Books)
    requires Bounded(s) && Grows(s, t) && |t.payments| == |s.payments| && t.sent == s.sent
    ensures Bounded(t)
  {
    forall p | p in t.payments ensures TotalFor(t.sent, p.paymentId) <= Paise(p.amount) {
      var k :| 0 <= k < |t.payments| && t.payments[k] == p;
      assert SameIds(p, s.payments[k]) && s.payments[k] in s.payments;
    }
  }

  /** Call by call as well, the refunds of a payment come to exceed its order exactly when the
      gateway accepts a request for more than is left of it. */
  lemma BoundedCallStep(d: Desk, a: Action)
    requires Sound(d) && Bounded(d.books)
    ensures Bounded(Do(d, a).books) <==> !Overdraws(d, a)
  {
    match a
    case Read(_, _, _) =>
    case Ask(p, answer) => if p in d.procs && d.procs[p].Asking? && answer.Some? { AskedTotals(d, a); }
    case Write(p) =>
      if p in d.procs && d.procs[p].Writing? {
        WriteBackShape(d, p, d.procs[p].paymentId, d.procs[p].refundId);
        SameTotals(d.books, Do(d, a).books);
      }
    case Crash(_) =>
    case Other(call) => if !call.RefundPayment? { BoundedStep(d.books, call); }
  }

  // ---------------------------------------------------------------- one refund per entry

  predicate Concerns(q: Stage, paymentId: string) {
    match q
    case Asking(id, _) => id == paymentId
    case Writing(id, _) => id == paymentId
    case Stuck(id) => id == paymentId
    case Ended => false
  }

  /** Some refund of the payment has read the document and not written it. */
  ghost predicate Busy(d: Desk, paymentId: string) {
    exists p :: p in d.procs && Concerns(d.procs[p], paymentId)
  }

  ghost predicate Pending(d: Desk, paymentId: string) {
    exists p :: p in d.procs && d.procs[p].Asking? && d.procs[p].paymentId == paymentId
  }

  /** At most one refund of a payment at a time. */
  ghost predicate Single(d: Desk) {
    forall p, q, id {:trigger Concerns(d.procs[p], id), Concerns(d.procs[q], id)} ::
      p in d.procs && q in d.procs && Concerns(d.procs[p], id) && Concerns(d.procs[q], id) ==> p == q
  }

  /** A refund reads and passes while another of the payment has read and not written. */
  ghost predicate Overlaps(d: Desk, a: Action) {
    a.Read? && a.p !in d.procs && Passes(d.books, a.paymentId, a.part) && Busy(d, a.paymentId)
  }

  /** A step puts two refunds of one payment side by side exactly when it is such a read. */
  lemma SingleStep(d: Desk, a: Action)
    requires Single(d)
    ensures Single(Do(d, a)) <==> !Overlaps(d, a)
  {
    var t := Do(d, a);
    if Overlaps(d, a) {
      var q :| q in d.procs && Concerns(d.procs[q], a.paymentId);
      assert Concerns(t.procs[a.p], a.paymentId) && Concerns(t.procs[q], a.paymentId);
    } else if a.Read? && a.p !in d.procs && Passes(d.books, a.paymentId, a.part) {
      forall q | q in d.procs ensures !Concerns(d.procs[q], a.paymentId) { }
      forall p, q, id | p in t.procs && q in t.procs && Concerns(t.procs[p], id) && Concerns(t.procs[q], id) ensures p == q {
        assert p != a.p ==> Concerns(d.procs[p], id);
        assert q != a.p ==> Concerns(d.procs[q], id);
      }
    } else {
      NarrowsStep(d, a);
      forall p, q, id | p in t.procs && q in t.procs && Concerns(t.procs[p], id) && Concerns(t.procs[q], id) ensures p == q {
        assert Concerns(d.procs[p], id) && Concerns(d.procs[q], id);
      }
    }
  }

  /** Any other step leaves every process with the payment it had, or with none. */
  lemma NarrowsStep(d: Desk, a: Action)
    requires !(a.Read? && a.p !in d.procs && Passes(d.books, a.paymentId, a.part))
    ensures forall p, id :: p in Do(d, a).procs && Concerns(Do(d, a).procs[p], id) ==> p in d.procs && Concerns(d.procs[p], id)
  {
  }

  /** What the payment may still be charged: refunds sent, one about to be, one the status allows. */
  ghost function Drawn(d: Desk, paymentId: string): nat {
    SentFor(d.books.sent, paymentId) + (if Pending(d, paymentId) then 1 else 0)
    + (if Paid(d.books, paymentId) == 1 && !Busy(d, paymentId) then 1 else 0)
  }

  /** Each refund is covered by an entry into success, which published an event. */
  ghost predicate Backed(d: Desk) {
    forall id :: Drawn(d, id) <= PublishedFor(d.books.published, id)
  }

  lemma BackedRead(d: Desk, a: Action, id: string)
    requires Distinct(d.books) && Backed(d) && a.Read? && !Overlaps(d, a)
    ensures Drawn(Do(d, a), id) <= PublishedFor(d.books.published, id)
  {
    var t := Do(d, a);
    assert Drawn(d, id) <= PublishedFor(d.books.published, id);
    if t != d {
      if Passes(d.books, a.paymentId, a.part) && id == a.paymentId {
        assert Paid(d.books, id) == 1 && !Busy(d, id) && !Pending(d, id);
        assert Concerns(t.procs[a.p], id);
      } else {
        SameCharges(d, t, id, a.p);
      }
    }
  }

  /** Process `p` is of no concern to the payment, before and after. */
  lemma SameCharges(d: Desk, t: Desk, id: string, p: nat)
    requires p in t.procs && t.procs == d.procs[p := t.procs[p]]
    requires !Concerns(t.procs[p], id) && (p in d.procs ==> !Concerns(d.procs[p], id))
    ensures Busy(t, id) <==> Busy(d, id)
    ensures Pending(t, id) <==> Pending(d, id)
  {
    if Busy(d, id) {
      var q :| q in d.procs && Concerns(d.procs[q], id);
      assert Concerns(t.procs[q], id);
    }
    if Pending(d, id) {
      var q :| q in d.procs && d.procs[q].Asking? && d.procs[q].paymentId == id;
      assert Concerns(d.procs[q], id) && t.procs[q].Asking? && t.procs[q].paymentId == id;
    }
  }

  /** The one process of a busy payment moved. */
  lemma LastOfPayment(d: Desk, t: Desk, id: string, p: nat)
    requires Single(d) && p in d.procs && Concerns(d.procs[p], id)
    requires p in t.procs && t.procs == d.procs[p := t.procs[p]]
    ensures Busy(d, id) && (Pending(d, id) <==> d.procs[p].Asking?)
    ensures Busy(t, id) <==> Concerns(t.procs[p], id)
    ensures Pending(t, id) <==> t.procs[p].Asking? && t.procs[p].paymentId == id
  {
    forall q | q in d.procs && q != p ensures !Concerns(d.procs[q], id) { }
    forall q | q in t.procs && q != p ensures !Concerns(t.procs[q], id) { assert t.procs[q] == d.procs[q]; }
    if d.procs[p].Asking? { assert Pending(d, id); }
    if t.procs[p].Asking? && t.procs[p].paymentId == id { assert Concerns(t.procs[p], id); }
  }

  lemma BackedAsk(d: Desk, a: Action, id: string)
    requires Single(d) && Backed(d) && a.Ask?
    ensures Drawn(Do(d, a), id) <= PublishedFor(d.books.published, id)
  {
    var t := Do(d, a);
    assert Drawn(d, id) <= PublishedFor(d.books.published, id);
    if t != d {
      var q := d.procs[a.p];
      if a.answer.Some? { SentSnoc(d.books.sent, Sent(q.paymentId, q.paise), id); }
      if q.paymentId == id { LastOfPayment(d, t, id, a.p); } else { SameCharges(d, t, id, a.p); }
    }
  }

  lemma BackedWrite(d: Desk, a: Action, id: string)
    requires Distinct(d.books) && Single(d) && Backed(d) && a.Write?
    ensures Drawn(Do(d, a), id) <= PublishedFor(d.books.published, id)
  {
    var t := Do(d, a);
    assert Drawn(d, id) <= PublishedFor(d.books.published, id);
    if t != d {
      var q := d.procs[a.p];
      var i := ById(d.books.payments, q.paymentId);
      WriteBackShape(d, a.p, q.paymentId, q.refundId);
      if t.books != d.books { StatusAfterWrite(d.books, t.books, i, t.books.payments[i], id); }
      if q.paymentId == id { LastOfPayment(d, t, id, a.p); } else { SameCharges(d, t, id, a.p); }
    }
  }

  lemma BackedCrash(d: Desk, a: Action, id: string)
    requires Single(d) && Backed(d) && a.Crash?
    ensures Drawn(Do(d, a), id) <= PublishedFor(d.books.published, id)
  {
    var t := Do(d, a);
    assert Drawn(d, id) <= PublishedFor(d.books.published, id);
    if t != d {
      if Concerns(d.procs[a.p], id) { LastOfPayment(d, t, id, a.p); } else { SameCharges(d, t, id, a.p); }
    }
  }

  lemma BackedOther(d: Desk, a: Action, id: string)
    requires Distinct(d.books) && Backed(d) && a.Other?
    ensures Drawn(Do(d, a), id) <= PublishedFor(Do(d, a).books.published, id)
  {
    var t := Do(d, a);
    assert Drawn(d, id) <= PublishedFor(d.books.published, id);
    if t != d {
      BalancedStep(d.books, a.call, id);
      SentStep(d.books, a.call);
      assert t.procs == d.procs;
      assert Busy(t, id) <==> Busy(d, id);
      assert Pending(t, id) <==> Pending(d, id);
    }
  }

  lemma BackedStep(d: Desk, a: Action)
    requires Sound(d) && Single(d) && Backed(d) && !Overlaps(d, a)
    ensures Backed(Do(d, a))
  {
    forall id ensures Drawn(Do(d, a), id) <= PublishedFor(Do(d, a).books.published, id) {
      match a
      case Read(_, _, _) => BackedRead(d, a, id);
      case Ask(_, _) => BackedAsk(d, a, id);
      case Write(p) =>
        BackedWrite(d, a, id);
        if p in d.procs && d.procs[p].Writing? { WriteBackShape(d, p, d.procs[p].paymentId, d.procs[p].refundId); }
      case Crash(_) => BackedCrash(d, a, id);
      case Other(_) => BackedOther(d, a, id);
    }
  }

  ghost predicate NoOverlaps(d: Desk, acts: seq<Action>)
    decreases acts
  {
    acts == [] || (!Overlaps(d, acts[0]) && NoOverlaps(Do(d, acts[0]), acts[1..]))
  }

  lemma {:induction false} BackedRun(d: Desk, acts: seq<Action>)
    requires Sound(d) && Single(d) && Backed(d) && NoOverlaps(d, acts)
    ensures Backed(Exec(d, acts))
    decreases acts
  {
    if acts != [] {
      SoundStep(d, acts[0]);
      SingleStep(d, acts[0]);
      BackedStep(d, acts[0]);
      BackedRun(Do(d, acts[0]), acts[1..]);
    }
  }

  /** In every interleaving without such a read, whatever crashes and webhooks come in between, the
      refunds sent for a payment are at most its entries into success. */
  lemma RefundsBacked(acts: seq<Action>, paymentId: string)
    requires NoOverlaps(OPENING, acts)
    ensures var end := Exec(OPENING, acts).books; SentFor(end.sent, paymentId) <= PublishedFor(end.published, paymentId)
  {
    BackedRun(OPENING, acts);
    assert Drawn(Exec(OPENING, acts), paymentId) <= PublishedFor(Exec(OPENING, acts).books.published, paymentId);
  }

  /** Two refunds of a payment that both read it before either writes are both sent in full. */
  lemma BothSent(d: Desk, paymentId: string, p: nat, q: nat, first: string, second: string)
    requires Passes(d.books, paymentId, None) && p !in d.procs && q !in d.procs && p != q
    ensures var paise := Paise(d.books.payments[ById(d.books.payments, paymentId)].amount);
            var end := Exec(d, [Read(p, paymentId, None), Read(q, paymentId, None), Ask(p, Some(first)), Ask(q, Some(second))]);
            && end.books.sent == d.books.sent + [Sent(paymentId, paise), Sent(paymentId, paise)]
            && end.books.published == d.books.published
  {
    var a, b, c, e := Read(p, paymentId, None), Read(q, paymentId, None), Ask(p, Some(first)), Ask(q, Some(second));
    var acts := [a, b, c, e];
    assert acts[1..] == [b, c, e] && acts[1..][1..] == [c, e] && acts[1..][1..][1..] == [e] && acts[1..][1..][1..][1..] == [];
    var d2 := Do(Do(d, a), b);
    assert Exec(d, acts) == Exec(d2, [c, e]) == Exec(Do(d2, c), [e]) == Do(Do(d2, c), e);
    var paise := Paise(d.books.payments[ById(d.books.payments, paymentId)].amount);
    assert d2.procs[p] == Asking(paymentId, paise) && d2.procs[q] == Asking(paymentId, paise);
    assert d.books.sent + [Sent(paymentId, paise)] + [Sent(paymentId, paise)] == d.books.sent + [Sent(paymentId, paise), Sent(paymentId, paise)];
  }

  /** Read, request and write in one go are the whole call. */
  lemma TogetherIsRefund(d: Desk, p: nat, paymentId: string, part: Option<real>, refund: string)
    requires p !in d.procs
    ensures Exec(d, [Read(p, paymentId, part), Ask(p, Some(refund)), Write(p)]).books ==
              Act(d.books, RefundPayment(paymentId, part, Some(refund))).0
  {
    var a, b, c := Read(p, paymentId, part), Ask(p, Some(refund)), Write(p);
    var acts := [a, b, c];
    assert acts[1..] == [b, c] && acts[1..][1..] == [c] && acts[1..][1..][1..] == [];
    var d2 := Do(Do(d, a), b);
    assert Exec(d, acts) == Exec(d2, [c]) == Do(d2, c);
    if Passes(d.books, paymentId, part) {
      assert d2.procs[p] == Writing(paymentId, refund);
    } else {
      assert d2.procs[p] == Ended;
    }
  }

  // ---------------------------------------------------------------- every request was asked for

  /** Some refund of the run read the payment for this: the part it named, or the whole order. */
  ghost predicate ReadFor(acts: seq<Action>, payments: seq<Payment>, r: Sent) {
    exists k :: 0 <= k < |acts| && acts[k].Read? && acts[k].paymentId == r.paymentId
                && exists i :: 0 <= i < |payments| && payments[i].paymentId == r.paymentId
                               && AskedOf(acts[k].part, payments[i].amount, r.paise)
  }

  /** So has everything sent, and everything about to be. */
  ghost predicate AllReadFor(d: Desk, acts: seq<Action>) {
    && (forall r :: r in d.books.sent ==> ReadFor(acts, d.books.payments, r))
    && forall p :: p in d.procs && d.procs[p].Asking? ==>
         ReadFor(acts, d.books.payments, Sent(d.procs[p].paymentId, d.procs[p].paise))
  }

  lemma ReadForStays(acts: seq<Action>, s: Books, t: Books, a: Action, r: Sent)
    requires ReadFor(acts, s.payments, r) && Grows(s, t)
    ensures ReadFor(acts + [a], t.payments, r)
  {
    var k :| 0 <= k < |acts| && acts[k].Read? && acts[k].paymentId == r.paymentId
             && exists i :: 0 <= i < |s.payments| && s.payments[i].paymentId == r.paymentId
                            && AskedOf(acts[k].part, s.payments[i].amount, r.paise);
    var i :| 0 <= i < |s.payments| && s.payments[i].paymentId == r.paymentId && AskedOf(acts[k].part, s.payments[i].amount, r.paise);
    assert (acts + [a])[k] == acts[k] && SameIds(t.payments[i], s.payments[i]);
  }

  lemma DoGrows(d: Desk, a: Action)
    ensures Grows(d.books, Do(d, a).books)
  {
    if a.Write? && a.p in d.procs && d.procs[a.p].Writing? { WriteBackShape(d, a.p, d.procs[a.p].paymentId, d.procs[a.p].refundId); }
    if a.Other? && !a.call.RefundPayment? { StepGrows(d.books, a.call); }
  }

  /** What is sent or about to be sent was so before, or has been read just now. */
  lemma DoSends(d: Desk, a: Action)
    ensures var t := Do(d, a);
            && (forall r :: r in t.books.sent && r !in d.books.sent ==>
                  exists p :: p in d.procs && d.procs[p].Asking? && r == Sent(d.procs[p].paymentId, d.procs[p].paise))
            && (forall p :: p in t.procs && t.procs[p].Asking? && !(p in d.procs && d.procs[p] == t.procs[p]) ==>
                  && a.Read? && a.p == p && Passes(d.books, a.paymentId, a.part)
                  && t.procs[p] == Asking(a.paymentId, Asked(d.books.payments[ById(d.books.payments, a.paymentId)], a.part)))
  {
    if a.Other? { SentStep(d.books, a.call); }
    if a.Write? && a.p in d.procs && d.procs[a.p].Writing? { WriteBackShape(d, a.p, d.procs[a.p].paymentId, d.procs[a.p].refundId); }
  }

  lemma NewlyRead(acts: seq<Action>, d: Desk, a: Action)
    requires a.Read? && Passes(d.books, a.paymentId, a.part)
    ensures ReadFor(acts + [a], d.books.payments, Sent(a.paymentId, Asked(d.books.payments[ById(d.books.payments, a.paymentId)], a.part)))
  {
    var i := ById(d.books.payments, a.paymentId);
    PaiseLaw(if a.part.Some? then a.part.value else d.books.payments[i].amount);
    assert (acts + [a])[|acts|] == a;
    assert AskedOf(a.part, d.books.payments[i].amount, Asked(d.books.payments[i], a.part));
  }

  lemma ReadForStep(acts: seq<Action>, d: Desk, a: Action)
    requires AllReadFor(d, acts)
    ensures AllReadFor(Do(d, a), acts + [a])
  {
    var t := Do(d, a);
    DoGrows(d, a);
    DoSends(d, a);
    forall r | r in t.books.sent ensures ReadFor(acts + [a], t.books.payments, r) {
      ReadForStays(acts, d.books, t.books, a, r);
    }
    forall p | p in t.procs && t.procs[p].Asking?
      ensures ReadFor(acts + [a], t.books.payments, Sent(t.procs[p].paymentId, t.procs[p].paise))
    {
      if p in d.procs && d.procs[p] == t.procs[p] {
        ReadForStays(acts, d.books, t.books, a, Sent(t.procs[p].paymentId, t.procs[p].paise));
      } else {
        NewlyRead(acts, d, a);
      }
    }
  }

  /** In every interleaving each request sent goes back to a refund that read the payment, and its
      paise are within half a paisa of the part named, or of the order when none was. */
  lemma {:induction false} SentAsRead(d: Desk, before: seq<Action>, acts: seq<Action>)
    requires AllReadFor(d, before)
    ensures AllReadFor(Exec(d, acts), before + acts)
    decreases acts
  {
    if acts == [] {
      assert before + acts == before;
    } else {
      ReadForStep(before, d, acts[0]);
      SentAsRead(Do(d, acts[0]), before + [acts[0]], acts[1..]);
      assert before + [acts[0]] + acts[1..] == before + acts;
    }
  }
}
