/** Order creation and checkout verification taken apart: the document is read and checked first and
    written later, with the rest of the payment service in between. */
module Checkout {
  import opened Options
  import opened Payments

  /** A call that has read and is about to write. */
  datatype Stage =
    | Ordering(payment: Payment)                     // no active order found, gateway order created
    | Marking(orderId: string, gatewayId: string)    // not paid yet, signature valid
    | Rejecting(orderId: string)                     // not paid yet, signature invalid
    | Ended

  datatype Desk = Desk(books: Books, procs: map<nat, Stage>)

  /** `Other` is any call of the service but the two taken apart. */
  datatype Action =
    | StartOrder(p: nat, order: Call)
    | StartVerify(p: nat, orderId: string, gatewayId: string, valid: bool)
    | Finish(p: nat)
    | Crash(p: nat)
    | Other(call: Call)

  function Order(s: Books, c: Call): Stage {
    if !c.CreateOrder? || !c.configured || Active(s.payments, c.bookingId) < |s.payments| || c.amount <= 0.0 || c.order.None? then Ended
    else Ordering(Payment(c.paymentId, c.bookingId, c.amount, Initiated, c.order.value, None, None))
  }

  function Check(s: Books, orderId: string, gatewayId: string, valid: bool): Stage {
    var i := ByOrder(s.payments, orderId);
    if i == |s.payments| || s.payments[i].status == Success then Ended
    else if valid then Marking(orderId, gatewayId)
    else Rejecting(orderId)
  }

  predicate Inserts(s: Books, payment: Payment) {
    payment.amount >= 1.0 && ByOrder(s.payments, payment.orderId) == |s.payments| && ById(s.payments, payment.paymentId) == |s.payments|
  }

  /** The write. Neither update of a verification looks at the status again. */
  function End(s: Books, q: Stage): Books {
    match q
    case Ordering(payment) => if Inserts(s, payment) then s.(payments := s.payments + [payment]) else s
    case Marking(orderId, gatewayId) =>
      var i := ByOrder(s.payments, orderId);
      if i < |s.payments| then Enter(s, i, gatewayId).0 else s
    case Rejecting(orderId) =>
      var i := ByOrder(s.payments, orderId);
      if i < |s.payments| then s.(payments := s.payments[i := s.payments[i].(status := Failed)]) else s
    case Ended => s
  }

  function Do(d: Desk, a: Action): Desk {
    match a
    case StartOrder(p, order) => if p in d.procs then d else d.(procs := d.procs[p := Order(d.books, order)])
    case StartVerify(p, orderId, gatewayId, valid) =>
      if p in d.procs then d else d.(procs := d.procs[p := Check(d.books, orderId, gatewayId, valid)])
    case Finish(p) => if p in d.procs then Desk(End(d.books, d.procs[p]), d.procs[p := Ended]) else d
    case Crash(p) => if p in d.procs then d.(procs := d.procs[p := Ended]) else d
    case Other(call) => if call.CreateOrder? || call.VerifyPayment? then d else d.(books := Act(d.books, call).0)
  }

  function Exec(d: Desk, acts: seq<Action>): Desk
    decreases acts
  {
    if acts == [] then d else Exec(Do(d, acts[0]), acts[1..])
  }

  /** Done in one go the two steps are the service's call. */
  lemma TogetherIsVerify(d: Desk, p: nat, orderId: string, gatewayId: string, valid: bool)
    requires p !in d.procs
    ensures Do(Do(d, StartVerify(p, orderId, gatewayId, valid)), Finish(p)).books ==
              Act(d.books, VerifyPayment(orderId, gatewayId, valid)).0
  {
  }

  lemma TogetherIsCreate(d: Desk, p: nat, c: Call)
    requires p !in d.procs && c.CreateOrder?
    ensures Do(Do(d, StartOrder(p, c)), Finish(p)).books == Act(d.books, c).0
  {
  }

  lemma DistinctStep(d: Desk, a: Action)
    requires Distinct(d.books)
    ensures Distinct(Do(d, a).books)
  {
    if a.Finish? && a.p in d.procs {
      DistinctEnd(d.books, d.procs[a.p]);
    } else if a.Other? {
      GrowsDistinct(d.books, a.call);
    }
  }

  lemma DistinctEnd(s: Books, q: Stage)
    requires Distinct(s)
    ensures Distinct(End(s, q))
  {
    if q.Ordering? && Inserts(s, q.payment) {
      forall i | 0 <= i < |s.payments|
        ensures s.payments[i].paymentId != q.payment.paymentId && s.payments[i].orderId != q.payment.orderId
      {
      }
    }
  }

  // ---------------------------------------------------------------- one event per entry

  /** A verification marks a payment that meanwhile stands as paid. */
  predicate Echoes(d: Desk, a: Action) {
    && a.Finish? && a.p in d.procs && d.procs[a.p].Marking?
    && var i := ByOrder(d.books.payments, d.procs[a.p].orderId);
       i < |d.books.payments| && d.books.payments[i].status == Success && !IdTaken(d.books.payments, i, d.procs[a.p].gatewayId)
  }

  function Echo(d: Desk, a: Action, paymentId: string): nat {
    if Echoes(d, a) && d.books.payments[ByOrder(d.books.payments, d.procs[a.p].orderId)].paymentId == paymentId then 1 else 0
  }

  /** One when the step takes the payment into success. */
  function Entry(d: Desk, a: Action, paymentId: string): nat {
    if Paid(d.books, paymentId) == 0 && Paid(Do(d, a).books, paymentId) == 1 then 1 else 0
  }

  lemma EchoPublishes(s: Books, i: nat, gatewayId: string, paymentId: string)
    requires Distinct(s) && i < |s.payments| && s.payments[i].status == Success && !IdTaken(s.payments, i, gatewayId)
    ensures var t := Enter(s, i, gatewayId).0;
            && Paid(t, paymentId) == Paid(s, paymentId)
            && PublishedFor(t.published, paymentId) ==
               PublishedFor(s.published, paymentId) + if s.payments[i].paymentId == paymentId then 1 else 0
  {
    var t := Enter(s, i, gatewayId).0;
    StatusAfterWrite(s, t, i, t.payments[i], paymentId);
    PublishedSnoc(s.published, s.payments[i].paymentId, paymentId);
    if s.payments[i].paymentId == paymentId { assert ById(s.payments, paymentId) == i; }
  }

  /** Orders under way are new. */
  ghost predicate OrdersNew(d: Desk) {
    forall p :: p in d.procs && d.procs[p].Ordering? ==> d.procs[p].payment.status == Initiated
  }

  lemma OrdersNewStep(d: Desk, a: Action)
    requires OrdersNew(d)
    ensures OrdersNew(Do(d, a))
  {
  }

  lemma EventsFinish(d: Desk, a: Action, paymentId: string)
    requires Distinct(d.books) && OrdersNew(d) && a.Finish? && a.p in d.procs
    ensures PublishedFor(Do(d, a).books.published, paymentId) ==
              PublishedFor(d.books.published, paymentId) + Entry(d, a, paymentId) + Echo(d, a, paymentId)
  {
    var s, t := d.books, Do(d, a).books;
    match d.procs[a.p]
    case Ordering(payment) =>
      if t != s { StatusAfterAppend(s, t, payment, paymentId); }
    case Marking(orderId, gatewayId) =>
      var i := ByOrder(s.payments, orderId);
      if i < |s.payments| {
        if s.payments[i].status != Success { EnterStep(s, i, gatewayId, paymentId); }
        else if !IdTaken(s.payments, i, gatewayId) { EchoPublishes(s, i, gatewayId, paymentId); }
      }
    case Rejecting(orderId) =>
      var i := ByOrder(s.payments, orderId);
      if i < |s.payments| { StatusAfterWrite(s, t, i, t.payments[i], paymentId); }
    case Ended =>
  }

  lemma EventsOther(d: Desk, call: Call, paymentId: string)
    requires Distinct(d.books) && !call.CreateOrder? && !call.VerifyPayment?
    ensures PublishedFor(Act(d.books, call).0.published, paymentId) ==
              PublishedFor(d.books.published, paymentId) + Enters(d.books, call, paymentId)
  {
    if call.RefundPayment? { OthersNeverEnter(d.books, call, paymentId); } else { BalancedStep(d.books, call, paymentId); }
  }

  /** Every step publishes one event for each payment it takes into success, and one more exactly when
      a verification marks a payment that was captured after the verification had read it. */
  lemma EventsStep(d: Desk, a: Action, paymentId: string)
    requires Distinct(d.books) && OrdersNew(d)
    ensures PublishedFor(Do(d, a).books.published, paymentId) ==
              PublishedFor(d.books.published, paymentId) + Entry(d, a, paymentId) + Echo(d, a, paymentId)
  {
    if a.Finish? && a.p in d.procs {
      EventsFinish(d, a, paymentId);
    } else if a.Other? && !a.call.CreateOrder? && !a.call.VerifyPayment? {
      EventsOther(d, a.call, paymentId);
    }
  }

  function Entered(d: Desk, acts: seq<Action>, paymentId: string): nat
    decreases acts
  {
    if acts == [] then 0 else Entry(d, acts[0], paymentId) + Entered(Do(d, acts[0]), acts[1..], paymentId)
  }

  ghost predicate NoEchoes(d: Desk, acts: seq<Action>, paymentId: string)
    decreases acts
  {
    acts == [] || (Echo(d, acts[0], paymentId) == 0 && NoEchoes(Do(d, acts[0]), acts[1..], paymentId))
  }

  lemma {:induction false} EventsRun(d: Desk, acts: seq<Action>, paymentId: string)
    requires Distinct(d.books) && OrdersNew(d)
    ensures var more := PublishedFor(Exec(d, acts).books.published, paymentId) - PublishedFor(d.books.published, paymentId);
            more >= Entered(d, acts, paymentId) && (more == Entered(d, acts, paymentId) <==> NoEchoes(d, acts, paymentId))
    decreases acts
  {
    if acts != [] {
      DistinctStep(d, acts[0]);
      OrdersNewStep(d, acts[0]);
      EventsStep(d, acts[0], paymentId);
      EventsRun(Do(d, acts[0]), acts[1..], paymentId);
    }
  }

  const OPENING := Desk(EMPTY, map[])

  /** In every interleaving a payment has at least as many `payment.success` events as entries into
      success, and as many exactly when no verification marks it while it stands as paid. */
  lemma EventsExactly(acts: seq<Action>, paymentId: string)
    ensures var events := PublishedFor(Exec(OPENING, acts).books.published, paymentId);
            && events >= Entered(OPENING, acts, paymentId)
            && (events == Entered(OPENING, acts, paymentId) <==> NoEchoes(OPENING, acts, paymentId))
  {
    EventsRun(OPENING, acts, paymentId);
  }

  lemma ExecThree(d: Desk, a: Action, b: Action, c: Action)
    ensures Exec(d, [a, b, c]) == Do(Do(Do(d, a), b), c)
  {
    assert [a, b, c][1..] == [b, c] && [b, c][1..] == [c] && [c][1..] == [];
    assert Exec(Do(Do(d, a), b), [c]) == Do(Do(Do(d, a), b), c);
  }

  /** A capture notice between the read and the write of a verification: two events, one entry. */
  lemma ToldTwice(d: Desk, i: nat, p: nat, gatewayId: string)
    requires Distinct(d.books) && OrdersNew(d) && i < |d.books.payments| && d.books.payments[i].status != Success
    requires !IdTaken(d.books.payments, i, gatewayId) && p !in d.procs
    ensures var x := d.books.payments[i];
            var acts := [StartVerify(p, x.orderId, gatewayId, true), Other(HandleWebhook(true, Captured(x.orderId, gatewayId))), Finish(p)];
            && PublishedFor(Exec(d, acts).books.published, x.paymentId) == PublishedFor(d.books.published, x.paymentId) + 2
            && Entered(d, acts, x.paymentId) == 1
  {
    var x := d.books.payments[i];
    var a, b, c := StartVerify(p, x.orderId, gatewayId, true), Other(HandleWebhook(true, Captured(x.orderId, gatewayId))), Finish(p);
    var d1 := Do(d, a);
    var d2 := Do(d1, b);
    assert ByOrder(d.books.payments, x.orderId) == i;
    assert d1.books == d.books && d1.procs == d.procs[p := Marking(x.orderId, gatewayId)];
    CapturedMeanwhile(d1, i, gatewayId);
    MarkedAgain(d2, i, p, gatewayId);
    ExecThree(d, a, b, c);
    EnteredThree(d, a, b, c, x.paymentId);
  }

  lemma CapturedMeanwhile(d: Desk, i: nat, gatewayId: string)
    requires Distinct(d.books) && i < |d.books.payments| && d.books.payments[i].status != Success
    requires !IdTaken(d.books.payments, i, gatewayId)
    ensures var x := d.books.payments[i];
            var t := Do(d, Other(HandleWebhook(true, Captured(x.orderId, gatewayId))));
            && t.procs == d.procs && Distinct(t.books)
            && t.books.payments == d.books.payments[i := x.(status := Success, gatewayId := Some(gatewayId))]
            && Paid(d.books, x.paymentId) == 0 && Paid(t.books, x.paymentId) == 1
            && PublishedFor(t.books.published, x.paymentId) == PublishedFor(d.books.published, x.paymentId) + 1
  {
    var s, x := d.books, d.books.payments[i];
    var call := HandleWebhook(true, Captured(x.orderId, gatewayId));
    assert ByOrder(s.payments, x.orderId) == i && ById(s.payments, x.paymentId) == i;
    UnpaidIs(s, x.orderId);
    var t := Enter(s, i, gatewayId).0;
    assert Act(s, call).0 == t;
    GrowsDistinct(s, call);
    StatusAfterWrite(s, t, i, t.payments[i], x.paymentId);
    PublishedSnoc(s.published, x.paymentId, x.paymentId);
  }

  lemma MarkedAgain(d: Desk, i: nat, p: nat, gatewayId: string)
    requires Distinct(d.books) && i < |d.books.payments| && d.books.payments[i].status == Success
    requires !IdTaken(d.books.payments, i, gatewayId) && p in d.procs && d.procs[p] == Marking(d.books.payments[i].orderId, gatewayId)
    ensures var x, t := d.books.payments[i], Do(d, Finish(p));
            && Paid(t.books, x.paymentId) == Paid(d.books, x.paymentId)
            && PublishedFor(t.books.published, x.paymentId) == PublishedFor(d.books.published, x.paymentId) + 1
  {
    assert ByOrder(d.books.payments, d.books.payments[i].orderId) == i;
    EchoPublishes(d.books, i, gatewayId, d.books.payments[i].paymentId);
  }

  lemma EnteredThree(d: Desk, a: Action, b: Action, c: Action, paymentId: string)
    ensures Entered(d, [a, b, c], paymentId) ==
              Entry(d, a, paymentId) + Entry(Do(d, a), b, paymentId) + Entry(Do(Do(d, a), b), c, paymentId)
  {
    assert [a, b, c][1..] == [b, c] && [b, c][1..] == [c] && [c][1..] == [];
    assert Entered(Do(Do(d, a), b), [c], paymentId) == Entry(Do(Do(d, a), b), c, paymentId);
  }

  // ---------------------------------------------------------------- one active order per booking

  predicate HasActive(s: Books, bookingId: string) {
    Active(s.payments, bookingId) < |s.payments|
  }

  /** The write makes a second active order: an insert although the query would find one by now, or a
      payment given up that is marked or captured while the booking has another. */
  predicate Doubles(d: Desk, a: Action) {
    match a
    case Finish(p) =>
      p in d.procs &&
      (match d.procs[p]
       case Ordering(payment) => Inserts(d.books, payment) && HasActive(d.books, payment.bookingId)
       case Marking(orderId, gatewayId) =>
         var i := ByOrder(d.books.payments, orderId);
         && i < |d.books.payments| && !IdTaken(d.books.payments, i, gatewayId)
         && !IsActive(d.books.payments[i]) && HasActive(d.books, d.books.payments[i].bookingId)
       case _ => false)
    case Other(call) => !call.CreateOrder? && !call.VerifyPayment? && Revives(d.books, call)
    case _ => false
  }

  lemma InsertActive(payments: seq<Payment>, p: Payment)
    requires OneActive(payments) && IsActive(p)
    ensures OneActive(payments + [p]) <==> Active(payments, p.bookingId) == |payments|
  {
    var t, k := payments + [p], Active(payments, p.bookingId);
    if k < |payments| { assert t[k] == payments[k] && t[|payments|] == p; }
  }

  lemma ActiveFinish(d: Desk, a: Action)
    requires OneActive(d.books.payments) && OrdersNew(d) && a.Finish? && a.p in d.procs
    ensures OneActive(Do(d, a).books.payments) <==> !Doubles(d, a)
  {
    var s, t := d.books, Do(d, a).books;
    match d.procs[a.p]
    case Ordering(payment) => InsertActive(s.payments, payment);
    case Marking(orderId, gatewayId) =>
      var i := ByOrder(s.payments, orderId);
      if i < |s.payments| { OneActiveWrite(s.payments, i, s.payments[i].(status := Success, gatewayId := Some(gatewayId))); }
    case Rejecting(orderId) =>
      var i := ByOrder(s.payments, orderId);
      if i < |s.payments| { Closing(s.payments, i, t.payments); }
    case Ended =>
  }

  /** Call by call, "one active order per booking" is broken exactly by such a write. */
  lemma ActiveStep(d: Desk, a: Action)
    requires Distinct(d.books) && OneActive(d.books.payments) && OrdersNew(d)
    ensures OneActive(Do(d, a).books.payments) <==> !Doubles(d, a)
  {
    if a.Finish? && a.p in d.procs {
      ActiveFinish(d, a);
    } else if a.Other? && !a.call.CreateOrder? && !a.call.VerifyPayment? {
      OneActiveStep(d.books, a.call);
    }
  }

  /** Two creates for one booking that both look before either inserts: two active orders. */
  lemma BothOrdered(d: Desk, p: nat, q: nat, first: Call, second: Call)
    requires p !in d.procs && q !in d.procs && p != q
    requires Order(d.books, first).Ordering? && Order(d.books, second).Ordering? && second.bookingId == first.bookingId
    requires Inserts(d.books, Order(d.books, first).payment) && Inserts(d.books, Order(d.books, second).payment)
    requires first.paymentId != second.paymentId && first.order != second.order
    ensures var end := Exec(d, [StartOrder(p, first), StartOrder(q, second), Finish(p), Finish(q)]).books.payments;
            end == d.books.payments + [Order(d.books, first).payment, Order(d.books, second).payment] && !OneActive(end)
  {
    var a, b, c, e := StartOrder(p, first), StartOrder(q, second), Finish(p), Finish(q);
    var x, y, n := Order(d.books, first).payment, Order(d.books, second).payment, |d.books.payments|;
    var d1 := Do(d, a);
    assert [a, b, c, e][1..] == [b, c, e];
    ExecThree(d1, b, c, e);
    var d3 := Do(Do(d1, b), c);
    assert d3.books.payments == d.books.payments + [x] && d3.procs[q] == Ordering(y);
    assert ByOrder(d3.books.payments, y.orderId) == n + 1 && ById(d3.books.payments, y.paymentId) == n + 1;
    var end := Do(d3, e).books.payments;
    assert end == d.books.payments + [x] + [y] == d.books.payments + [x, y];
    assert IsActive(end[n]) && IsActive(end[n + 1]) && end[n].bookingId == end[n + 1].bookingId;
  }
}
