/** Payments as a status machine over one collection: orders, checkout verification, refunds and
    the gateway's webhooks, with what they can send back and what they publish. */
module Payments {
  import opened Options
  import opened Seats

  datatype Status = Initiated | Pending | Success | Failed | RefundPending | Refunded

  datatype Payment = Payment(
    paymentId: string,
    bookingId: string,
    amount: real,
    status: Status,
    orderId: string,
    gatewayId: Option<string>,
    refundId: Option<string>)

  /** A refund request as the gateway received it. */
  datatype Sent = Sent(paymentId: string, paise: int)

  datatype Books = Books(
    payments: seq<Payment>,
    sent: seq<Sent>,
    published: seq<string>)  // the payment of each `payment.success` event, in order

  /** The signed body of a webhook; `NoEntity` is a payment event without its payment. */
  datatype Notice =
    | Captured(orderId: string, gatewayId: string)
    | NotCaptured(orderId: string)
    | RefundProcessed(refundId: Option<string>)
    | NoEntity
    | Unhandled

  /** `order` and `refund` are the gateway's answers, `None` when the gateway call fails; `valid` and
      `signed` are the verdicts of the signature checks. */
  datatype Call =
    | CreateOrder(configured: bool, bookingId: string, amount: real, paymentId: string, order: Option<string>)
    | VerifyPayment(orderId: string, gatewayId: string, valid: bool)
    | RefundPayment(paymentId: string, part: Option<real>, refund: Option<string>)
    | HandleWebhook(signed: bool, notice: Notice)

  datatype PayError =
    | NotConfigured | InvalidAmount | GatewayFailure | NotStored | PaymentNotFound | InvalidSignature
    | InvalidStatus | MissingPaymentId | InvalidRefundAmount | RefundExceedsPayment | InvalidWebhookSignature | MalformedNotice

  datatype Reply = Paying(payment: Payment) | Acknowledged | Denied(error: PayError)

  function Paise(amount: real): int { Round(amount * 100.0) }

  /** The first payment that matches, as an index; the length when there is none. */
  function Find(payments: seq<Payment>, matches: Payment -> bool): (i: nat)
    ensures i <= |payments| && (i < |payments| ==> matches(payments[i]))
    ensures forall j :: 0 <= j < i ==> !matches(payments[j])
  {
    if payments == [] then 0
    else if matches(payments[0]) then 0
    else 1 + Find(payments[1..], matches)
  }

  function ByOrder(payments: seq<Payment>, orderId: string): nat { Find(payments, (p: Payment) => p.orderId == orderId) }
  function ById(payments: seq<Payment>, paymentId: string): nat { Find(payments, (p: Payment) => p.paymentId == paymentId) }
  function ByRefund(payments: seq<Payment>, refundId: Option<string>): nat { Find(payments, (p: Payment) => p.refundId == refundId) }
  function Active(payments: seq<Payment>, bookingId: string): nat {
    Find(payments, (p: Payment) => p.bookingId == bookingId && p.status in {Initiated, Pending, Success})
  }

  function Unpaid(payments: seq<Payment>, orderId: string): nat {
    Find(payments, (p: Payment) => p.orderId == orderId && p.status != Success)
  }

  /** Another payment holds this gateway payment id, so the unique index refuses it. */
  predicate IdTaken(payments: seq<Payment>, i: nat, gatewayId: string) {
    exists j :: 0 <= j < |payments| && j != i && payments[j].gatewayId == Some(gatewayId)
  }

  /** Mark payment `i` paid and announce it. */
  function Enter(s: Books, i: nat, gatewayId: string): (Books, Reply)
    requires i < |s.payments|
  {
    var paid := s.payments[i].(status := Success, gatewayId := Some(gatewayId));
    if IdTaken(s.payments, i, gatewayId) then (s, Denied(NotStored))
    else (s.(payments := s.payments[i := paid], published := s.published + [paid.paymentId]), Paying(paid))
  }

  function Create(s: Books, c: Call): (Books, Reply)
    requires c.CreateOrder?
  {
    var i := Active(s.payments, c.bookingId);
    if !c.configured then (s, Denied(NotConfigured))
    else if i < |s.payments| then (s, Paying(s.payments[i]))
    else if c.amount <= 0.0 then (s, Denied(InvalidAmount))
    else if c.order.None? then (s, Denied(GatewayFailure))
    else
      var created := Payment(c.paymentId, c.bookingId, c.amount, Initiated, c.order.value, None, None);
      var same := ByOrder(s.payments, c.order.value);
      if c.amount < 1.0 then (s, Denied(NotStored))
      else if same < |s.payments| then (s, Paying(s.payments[same]))
      else if ById(s.payments, c.paymentId) < |s.payments| then (s, Denied(NotStored))
      else (s.(payments := s.payments + [created]), Paying(created))
  }

  function Verify(s: Books, orderId: string, gatewayId: string, valid: bool): (Books, Reply) {
    var i := ByOrder(s.payments, orderId);
    if i == |s.payments| then (s, Denied(PaymentNotFound))
    else if s.payments[i].status == Success then (s, Paying(s.payments[i]))
    else if !valid then
      (s.(payments := s.payments[i := s.payments[i].(status := Failed)]), Denied(InvalidSignature))
    else Enter(s, i, gatewayId)
  }

  function RefundError(payment: Payment, amount: Option<real>): Option<PayError> {
    if payment.status != Success then Some(InvalidStatus)
    else if payment.gatewayId.None? || payment.gatewayId.value == "" then Some(MissingPaymentId)
    else if amount.Some? && amount.value <= 0.0 then Some(InvalidRefundAmount)
    else if amount.Some? && amount.value > payment.amount then Some(RefundExceedsPayment)
    else None
  }

  /** The gateway is asked first and the document written after; a refund id already in the
      collection makes the write fail with the money gone. */
  function Refund(s: Books, paymentId: string, amount: Option<real>, refund: Option<string>): (Books, Reply) {
    var i := ById(s.payments, paymentId);
    if i == |s.payments| then (s, Denied(PaymentNotFound))
    else if RefundError(s.payments[i], amount).Some? then (s, Denied(RefundError(s.payments[i], amount).value))
    else if refund.None? then (s, Denied(GatewayFailure))
    else
      var paise := Paise(if amount.Some? then amount.value else s.payments[i].amount);
      var asked := s.(sent := s.sent + [Sent(paymentId, paise)]);
      var pending := s.payments[i].(status := RefundPending, refundId := refund);
      if exists j :: 0 <= j < |s.payments| && j != i && s.payments[j].refundId == refund then (asked, Denied(NotStored))
      else (asked.(payments := s.payments[i := pending]), Paying(pending))
  }

  function Hook(s: Books, notice: Notice): (Books, Reply) {
    match notice
    case Captured(orderId, gatewayId) =>
      var i := Unpaid(s.payments, orderId);
      if i == |s.payments| then (s, Acknowledged)
      else
        var (next, reply) := Enter(s, i, gatewayId);
        (next, if reply.Paying? then Acknowledged else reply)
    case NotCaptured(orderId) =>
      var i := ByOrder(s.payments, orderId);
      if i == |s.payments| then (s, Acknowledged)
      else (s.(payments := s.payments[i := s.payments[i].(status := Failed)]), Acknowledged)
    case RefundProcessed(refundId) =>
      var i := ByRefund(s.payments, refundId);
      if i == |s.payments| then (s, Acknowledged)
      else (s.(payments := s.payments[i := s.payments[i].(status := Refunded)]), Acknowledged)
    case NoEntity => (s, Denied(MalformedNotice))
    case Unhandled => (s, Acknowledged)
  }

  function Act(s: Books, c: Call): (Books, Reply) {
    match c
    case CreateOrder(_, _, _, _, _) => Create(s, c)
    case VerifyPayment(orderId, gatewayId, valid) => Verify(s, orderId, gatewayId, valid)
    case RefundPayment(paymentId, amount, refund) => Refund(s, paymentId, amount, refund)
    case HandleWebhook(signed, notice) => if !signed then (s, Denied(InvalidWebhookSignature)) else Hook(s, notice)
  }

  function After(s: Books, calls: seq<Call>): Books
    decreases calls
  {
    if calls == [] then s else After(Act(s, calls[0]).0, calls[1..])
  }

  const EMPTY := Books([], [], [])

  // ---------------------------------------------------------------- what the collection keeps

  ghost predicate Distinct(s: Books) {
    && (forall i, j :: 0 <= i < j < |s.payments| ==> s.payments[i].paymentId != s.payments[j].paymentId)
    && (forall i, j :: 0 <= i < j < |s.payments| ==> s.payments[i].orderId != s.payments[j].orderId)
  }

  ghost predicate SameIds(p: Payment, q: Payment) {
    p.paymentId == q.paymentId && p.orderId == q.orderId && p.amount == q.amount
  }

  /** Payments stay where they are, with their ids and amounts; at most one new order is appended. */
  ghost predicate Grows(s: Books, t: Books) {
    && |s.payments| <= |t.payments| <= |s.payments| + 1
    && (forall i :: 0 <= i < |s.payments| ==> SameIds(t.payments[i], s.payments[i]))
    && (|t.payments| > |s.payments| ==>
          var p := t.payments[|s.payments|];
          && p.amount >= 1.0
          && forall q <- s.payments :: q.paymentId != p.paymentId && q.orderId != p.orderId)
  }

  lemma CreateGrows(s: Books, c: Call)
    requires c.CreateOrder?
    ensures Grows(s, Create(s, c).0)
  {
    var next := Create(s, c).0;
    if next != s {
      forall q | q in s.payments ensures q.paymentId != c.paymentId && q.orderId != c.order.value {
        var k :| 0 <= k < |s.payments| && s.payments[k] == q;
      }
    }
  }

  /** A write to one payment that keeps its ids and amount. */
  lemma WriteGrows(s: Books, t: Books, i: nat, p: Payment)
    requires i < |s.payments| && SameIds(p, s.payments[i]) && t.payments == s.payments[i := p]
    ensures Grows(s, t)
  {
  }

  lemma HookGrows(s: Books, notice: Notice)
    ensures Grows(s, Hook(s, notice).0)
  {
    var t := Hook(s, notice).0;
    var i := match notice
      case Captured(orderId, _) => Unpaid(s.payments, orderId)
      case NotCaptured(orderId) => ByOrder(s.payments, orderId)
      case RefundProcessed(refundId) => ByRefund(s.payments, refundId)
      case NoEntity => |s.payments|
      case Unhandled => |s.payments|;
    if t.payments != s.payments { WriteGrows(s, t, i, t.payments[i]); }
  }

  lemma VerifyGrows(s: Books, c: Call)
    requires c.VerifyPayment?
    ensures Grows(s, Act(s, c).0)
  {
    var t, i := Act(s, c).0, ByOrder(s.payments, c.orderId);
    if t.payments != s.payments { WriteGrows(s, t, i, t.payments[i]); }
  }

  lemma RefundGrows(s: Books, c: Call)
    requires c.RefundPayment?
    ensures Grows(s, Act(s, c).0)
  {
    var t, i := Act(s, c).0, ById(s.payments, c.paymentId);
    if t.payments != s.payments { WriteGrows(s, t, i, t.payments[i]); }
  }

  lemma StepGrows(s: Books, c: Call)
    ensures Grows(s, Act(s, c).0)
  {
    match c
    case CreateOrder(_, _, _, _, _) => CreateGrows(s, c);
    case VerifyPayment(_, _, _) => VerifyGrows(s, c);
    case RefundPayment(_, _, _) => RefundGrows(s, c);
    case HandleWebhook(_, notice) => HookGrows(s, notice);
  }

  lemma GrowsDistinct(s: Books, c: Call)
    requires Distinct(s)
    ensures Distinct(Act(s, c).0)
  {
    StepGrows(s, c);
    var t := Act(s, c).0;
    forall i, j | 0 <= i < j < |t.payments|
      ensures t.payments[i].paymentId != t.payments[j].paymentId && t.payments[i].orderId != t.payments[j].orderId
    {
      assert SameIds(t.payments[i], s.payments[i]);
      if j < |s.payments| { assert SameIds(t.payments[j], s.payments[j]); } else { assert s.payments[i] in s.payments; }
    }
  }

  ghost predicate Named(p: Payment) {
    p.status in {Success, RefundPending, Refunded} || p.refundId.Some? ==> p.gatewayId.Some? && p.gatewayId.value != ""
  }

  /** Money taken leaves the gateway's payment id behind. */
  ghost predicate TakenNamed(s: Books) {
    forall p <- s.payments :: p.status in {Success, RefundPending, Refunded} ==> p.gatewayId.Some? && p.gatewayId.value != ""
  }

  /** So does money sent back. */
  ghost predicate Traceable(s: Books) {
    forall p <- s.payments :: Named(p)
  }

  predicate NamesPayment(c: Call) {
    && (c.VerifyPayment? ==> c.gatewayId != "")
    && (c.HandleWebhook? && c.notice.Captured? ==> c.notice.gatewayId != "")
  }

  /** A signed refund notice without a refund id: the query then matches a payment never refunded. */
  predicate Nameless(s: Books, c: Call) {
    && c.HandleWebhook? && c.signed && c.notice == RefundProcessed(None)
    && var i := ByRefund(s.payments, None);
       i < |s.payments| && (s.payments[i].gatewayId.None? || s.payments[i].gatewayId == Some(""))
  }

  /** The one way to lose the gateway id of money taken is a refund notice without an id that hits
      an unpaid payment. */
  lemma TraceableStep(s: Books, c: Call)
    requires Traceable(s) && NamesPayment(c)
    ensures Traceable(Act(s, c).0) <==> !Nameless(s, c)
    ensures TakenNamed(Act(s, c).0) <==> !Nameless(s, c)
  {
    if Nameless(s, c) {
      var t, i := Act(s, c).0, ByRefund(s.payments, None);
      assert t.payments[i] in t.payments && t.payments[i].status == Refunded;
    }
    if c.HandleWebhook? && c.signed {
      TraceableHook(s, c);
    } else {
      TraceableOther(s, c);
    }
  }

  lemma NamedWrite(s: Books, t: Books, i: nat)
    requires Traceable(s) && i < |s.payments| && |t.payments| == |s.payments| && t.payments == s.payments[i := t.payments[i]]
    ensures Traceable(t) <==> Named(t.payments[i])
  {
    assert t.payments[i] in t.payments;
    forall p | p in t.payments && p != t.payments[i] ensures p in s.payments {
      var k :| 0 <= k < |t.payments| && t.payments[k] == p;
      assert s.payments[k] == p;
    }
  }

  lemma TraceableOther(s: Books, c: Call)
    requires Traceable(s) && NamesPayment(c) && !(c.HandleWebhook? && c.signed)
    ensures Traceable(Act(s, c).0)
  {
    var t := Act(s, c).0;
    if c.VerifyPayment? && t.payments != s.payments {
      var i := ByOrder(s.payments, c.orderId);
      assert s.payments[i] in s.payments;
      NamedWrite(s, t, i);
    } else if c.RefundPayment? && t.payments != s.payments {
      NamedWrite(s, t, ById(s.payments, c.paymentId));
    }
  }

  lemma TraceableHook(s: Books, c: Call)
    requires Traceable(s) && NamesPayment(c) && c.HandleWebhook? && c.signed
    ensures Traceable(Act(s, c).0) <==> !Nameless(s, c)
  {
    var t := Act(s, c).0;
    var i := match c.notice
      case Captured(orderId, _) => Unpaid(s.payments, orderId)
      case NotCaptured(orderId) => ByOrder(s.payments, orderId)
      case RefundProcessed(refundId) => ByRefund(s.payments, refundId)
      case NoEntity => |s.payments|
      case Unhandled => |s.payments|;
    if i < |s.payments| {
      assert s.payments[i] in s.payments;
      NamedWrite(s, t, i);
    }
  }

  lemma {:induction false} TraceableAlways(s: Books, calls: seq<Call>)
    requires Traceable(s)
    requires forall c <- calls :: NamesPayment(c) && !(c.HandleWebhook? && c.notice == RefundProcessed(None))
    ensures Traceable(After(s, calls))
    decreases calls
  {
    if calls != [] {
      TraceableStep(s, calls[0]);
      TraceableAlways(Act(s, calls[0]).0, calls[1..]);
    }
  }

  // ---------------------------------------------------------------- conservation

  function StatusOf(s: Books, paymentId: string): Option<Status> {
    var i := ById(s.payments, paymentId);
    if i < |s.payments| then Some(s.payments[i].status) else None
  }

  function Paid(s: Books, paymentId: string): nat {
    if StatusOf(s, paymentId) == Some(Success) then 1 else 0
  }

  /** One when the step takes the payment into success. */
  function Enters(s: Books, c: Call, paymentId: string): nat {
    if Paid(s, paymentId) == 0 && Paid(Act(s, c).0, paymentId) == 1 then 1 else 0
  }

  function Entries(s: Books, calls: seq<Call>, paymentId: string): nat
    decreases calls
  {
    if calls == [] then 0
    else Enters(s, calls[0], paymentId) + Entries(Act(s, calls[0]).0, calls[1..], paymentId)
  }

  function SentFor(sent: seq<Sent>, paymentId: string): nat {
    if sent == [] then 0
    else SentFor(sent[..|sent| - 1], paymentId) + if sent[|sent| - 1].paymentId == paymentId then 1 else 0
  }

  function TotalFor(sent: seq<Sent>, paymentId: string): int {
    if sent == [] then 0
    else TotalFor(sent[..|sent| - 1], paymentId) + if sent[|sent| - 1].paymentId == paymentId then sent[|sent| - 1].paise else 0
  }

  function PublishedFor(published: seq<string>, paymentId: string): nat {
    if published == [] then 0
    else PublishedFor(published[..|published| - 1], paymentId) + if published[|published| - 1] == paymentId then 1 else 0
  }

  lemma SentSnoc(sent: seq<Sent>, r: Sent, paymentId: string)
    ensures SentFor(sent + [r], paymentId) == SentFor(sent, paymentId) + if r.paymentId == paymentId then 1 else 0
  {
    assert (sent + [r])[..|sent|] == sent;
  }

  lemma PublishedSnoc(published: seq<string>, p: string, paymentId: string)
    ensures PublishedFor(published + [p], paymentId) == PublishedFor(published, paymentId) + if p == paymentId then 1 else 0
  {
    assert (published + [p])[..|published|] == published;
  }

  /** The gateway never answers with a refund id the collection holds already. */
  ghost predicate FreshRefund(s: Books, c: Call) {
    c.RefundPayment? && c.refund.Some? ==> forall p <- s.payments :: p.refundId != c.refund
  }

  lemma StatusAfterWrite(s: Books, t: Books, i: nat, p: Payment, paymentId: string)
    requires Distinct(s) && i < |s.payments| && p.paymentId == s.payments[i].paymentId
    requires t.payments == s.payments[i := p]
    ensures StatusOf(t, paymentId) == if p.paymentId == paymentId then Some(p.status) else StatusOf(s, paymentId)
  {
    var k, m := ById(s.payments, paymentId), ById(t.payments, paymentId);
    assert forall j :: 0 <= j < |s.payments| ==> t.payments[j].paymentId == s.payments[j].paymentId;
    assert k == m;
    if p.paymentId == paymentId { assert k == i; }
  }

  lemma StatusAfterAppend(s: Books, t: Books, p: Payment, paymentId: string)
    requires t.payments == s.payments + [p] && p.status != Success
    ensures Paid(t, paymentId) == Paid(s, paymentId)
  {
    var k, m := ById(s.payments, paymentId), ById(t.payments, paymentId);
    if k < |s.payments| {
      assert t.payments[k] == s.payments[k];
      assert m == k;
    } else if m < |t.payments| {
      assert t.payments[m] == p;
    }
  }

  lemma EnterStep(s: Books, i: nat, gatewayId: string, paymentId: string)
    requires Distinct(s) && i < |s.payments| && s.payments[i].status != Success
    ensures var next := Enter(s, i, gatewayId).0;
            && next.sent == s.sent && Paid(s, paymentId) <= Paid(next, paymentId)
            && PublishedFor(next.published, paymentId) ==
               PublishedFor(s.published, paymentId) + Paid(next, paymentId) - Paid(s, paymentId)
  {
    var next := Enter(s, i, gatewayId).0;
    if next != s {
      var pid := s.payments[i].paymentId;
      StatusAfterWrite(s, next, i, next.payments[i], paymentId);
      PublishedSnoc(s.published, pid, paymentId);
      if pid == paymentId { assert ById(s.payments, pid) == i; }
    }
  }

  /** One call: refunds sent and a standing success are covered by entries into success, and each
      entry publishes exactly one event. */
  ghost predicate Balanced(s: Books, c: Call, paymentId: string) {
    var next := Act(s, c).0;
    && SentFor(next.sent, paymentId) + Paid(next, paymentId)
       <= SentFor(s.sent, paymentId) + Paid(s, paymentId) + Enters(s, c, paymentId)
    && PublishedFor(next.published, paymentId) == PublishedFor(s.published, paymentId) + Enters(s, c, paymentId)
  }

  lemma BalancedRefund(s: Books, c: Call, paymentId: string)
    requires Distinct(s) && FreshRefund(s, c) && c.RefundPayment?
    ensures Balanced(s, c, paymentId)
  {
    if SendsRefund(s, c) { BalancedSent(s, c, paymentId); }
  }

  lemma BalancedSent(s: Books, c: Call, paymentId: string)
    requires Distinct(s) && FreshRefund(s, c) && SendsRefund(s, c)
    ensures Balanced(s, c, paymentId)
  {
    var next, i := Act(s, c).0, ById(s.payments, c.paymentId);
    SentSnoc(s.sent, Sent(c.paymentId, Asked(s.payments[i], c.part)), paymentId);
    StatusAfterWrite(s, next, i, s.payments[i].(status := RefundPending, refundId := c.refund), paymentId);
  }

  lemma BalancedStep(s: Books, c: Call, paymentId: string)
    requires Distinct(s) && FreshRefund(s, c)
    ensures Balanced(s, c, paymentId)
  {
    var next := Act(s, c).0;
    match c
    case CreateOrder(_, _, _, _, _) =>
      if next != s { StatusAfterAppend(s, next, next.payments[|s.payments|], paymentId); }
    case VerifyPayment(orderId, gatewayId, valid) =>
      var i := ByOrder(s.payments, orderId);
      if i < |s.payments| && s.payments[i].status != Success {
        if valid { EnterStep(s, i, gatewayId, paymentId); } else { StatusAfterWrite(s, next, i, next.payments[i], paymentId); }
      }
    case RefundPayment(_, _, _) => BalancedRefund(s, c, paymentId);
    case HandleWebhook(signed, notice) =>
      if signed { BalancedHook(s, notice, paymentId); }
  }

  /** A write that publishes and sends nothing and leaves its payment unpaid. */
  lemma BalancedWrite(s: Books, c: Call, i: nat, paymentId: string)
    requires Distinct(s) && i < |s.payments|
    requires var t := Act(s, c).0;
             && t.sent == s.sent && t.published == s.published && |t.payments| == |s.payments|
             && t.payments == s.payments[i := t.payments[i]] && SameIds(t.payments[i], s.payments[i]) && t.payments[i].status != Success
    ensures Balanced(s, c, paymentId)
  {
    var t := Act(s, c).0;
    StatusAfterWrite(s, t, i, t.payments[i], paymentId);
  }

  lemma BalancedHook(s: Books, notice: Notice, paymentId: string)
    requires Distinct(s)
    ensures Balanced(s, HandleWebhook(true, notice), paymentId)
  {
    match notice
    case Captured(orderId, gatewayId) =>
      var i := Unpaid(s.payments, orderId);
      if i < |s.payments| { EnterStep(s, i, gatewayId, paymentId); }
    case NotCaptured(orderId) =>
      var i := ByOrder(s.payments, orderId);
      if i < |s.payments| { BalancedWrite(s, HandleWebhook(true, notice), i, paymentId); }
    case RefundProcessed(refundId) =>
      var i := ByRefund(s.payments, refundId);
      if i < |s.payments| { BalancedWrite(s, HandleWebhook(true, notice), i, paymentId); }
    case NoEntity =>
    case Unhandled =>
  }

  ghost predicate FreshRefunds(s: Books, calls: seq<Call>)
    decreases calls
  {
    calls == [] || (FreshRefund(s, calls[0]) && FreshRefunds(Act(s, calls[0]).0, calls[1..]))
  }

  lemma {:induction false} Conserved(s: Books, calls: seq<Call>, paymentId: string)
    requires Distinct(s) && FreshRefunds(s, calls)
    ensures var end := After(s, calls);
            && SentFor(end.sent, paymentId) + Paid(end, paymentId)
               <= SentFor(s.sent, paymentId) + Paid(s, paymentId) + Entries(s, calls, paymentId)
            && PublishedFor(end.published, paymentId) == PublishedFor(s.published, paymentId) + Entries(s, calls, paymentId)
    decreases calls
  {
    if calls != [] {
      GrowsDistinct(s, calls[0]);
      BalancedStep(s, calls[0], paymentId);
      Conserved(Act(s, calls[0]).0, calls[1..], paymentId);
    }
  }

  // ---------------------------------------------------------------- amounts

  /** Every refund sent is for a stored payment and at most that payment's order in paise. */
  ghost predicate Covered(s: Books) {
    forall r <- s.sent :: CoveredBy(s.payments, r)
  }

  ghost predicate Positive(s: Books) {
    forall p <- s.payments :: p.amount >= 1.0
  }

  lemma PaiseMonotone(a: real, b: real)
    requires 0.0 <= a <= b
    ensures 0 <= Paise(a) <= Paise(b)
  {
  }

  ghost predicate CoveredBy(payments: seq<Payment>, r: Sent) {
    exists i :: 0 <= i < |payments| && payments[i].paymentId == r.paymentId && 0 <= r.paise <= Paise(payments[i].amount)
  }

  lemma PositiveGrows(s: Books, t: Books)
    requires Positive(s) && Grows(s, t)
    ensures Positive(t)
  {
    forall p | p in t.payments ensures p.amount >= 1.0 {
      var k :| 0 <= k < |t.payments| && t.payments[k] == p;
      if k < |s.payments| { assert SameIds(p, s.payments[k]) && s.payments[k] in s.payments; }
    }
  }

  lemma PositiveStep(s: Books, c: Call)
    requires Positive(s)
    ensures Positive(Act(s, c).0)
  {
    StepGrows(s, c);
    PositiveGrows(s, Act(s, c).0);
  }

  /** The only refund request a call can add is for a payment in the collection, and fits it. */
  lemma NewRefundCovered(s: Books, c: Call)
    requires Positive(s)
    ensures var t := Act(s, c).0;
            t.sent == s.sent || (|t.sent| > 0 && t.sent == s.sent + [t.sent[|t.sent| - 1]] && CoveredBy(s.payments, t.sent[|t.sent| - 1]))
  {
    if c.RefundPayment? {
      var i := ById(s.payments, c.paymentId);
      if i < |s.payments| && RefundError(s.payments[i], c.part).None? && c.refund.Some? {
        assert s.payments[i] in s.payments;
        var asked := if c.part.Some? then c.part.value else s.payments[i].amount;
        PaiseMonotone(asked, s.payments[i].amount);
        assert CoveredBy(s.payments, Sent(c.paymentId, Paise(asked)));
      }
    }
  }

  lemma CoveredStep(s: Books, c: Call)
    requires Covered(s) && Positive(s)
    ensures Covered(Act(s, c).0) && Positive(Act(s, c).0)
  {
    var t := Act(s, c).0;
    StepGrows(s, c);
    PositiveStep(s, c);
    NewRefundCovered(s, c);
    forall r | r in t.sent ensures CoveredBy(t.payments, r) {
      assert CoveredBy(s.payments, r);
      var i :| 0 <= i < |s.payments| && s.payments[i].paymentId == r.paymentId && 0 <= r.paise <= Paise(s.payments[i].amount);
      assert SameIds(t.payments[i], s.payments[i]);
    }
  }

  lemma {:induction false} CoveredAlways(s: Books, calls: seq<Call>)
    requires Covered(s) && Positive(s) && Distinct(s)
    ensures Covered(After(s, calls)) && Positive(After(s, calls)) && Distinct(After(s, calls))
    decreases calls
  {
    if calls != [] {
      CoveredStep(s, calls[0]);
      GrowsDistinct(s, calls[0]);
      CoveredAlways(Act(s, calls[0]).0, calls[1..]);
    }
  }

  lemma OneMoreBound(n: nat, bound: int)
    ensures (n + 1) * bound == n * bound + bound
  {
  }

  lemma {:induction false} TotalBound(sent: seq<Sent>, paymentId: string, bound: int)
    requires forall r <- sent :: r.paymentId == paymentId ==> 0 <= r.paise <= bound
    ensures 0 <= TotalFor(sent, paymentId) <= SentFor(sent, paymentId) * bound
  {
    if sent != [] {
      var rest := sent[..|sent| - 1];
      TotalBound(rest, paymentId, bound);
      var last := sent[|sent| - 1];
      assert last in sent;
      if last.paymentId == paymentId {
        OneMoreBound(SentFor(rest, paymentId), bound);
      }
    }
  }

  /** In every run from an empty collection, for each payment: refunds sent are at most the entries
      into success, which are the `payment.success` events published; each refund is at most the
      order, so together they are at most the order times the entries. */
  lemma RefundsConserved(calls: seq<Call>, k: nat)
    requires FreshRefunds(EMPTY, calls) && k < |After(EMPTY, calls).payments|
    ensures var end := After(EMPTY, calls);
            var p := end.payments[k];
            var entries := Entries(EMPTY, calls, p.paymentId);
            && SentFor(end.sent, p.paymentId) <= entries == PublishedFor(end.published, p.paymentId)
            && (forall r <- end.sent :: r.paymentId == p.paymentId ==> 0 <= r.paise <= Paise(p.amount))
            && TotalFor(end.sent, p.paymentId) <= entries * Paise(p.amount)
  {
    var end := After(EMPTY, calls);
    var p := end.payments[k];
    Conserved(EMPTY, calls, p.paymentId);
    CoveredAlways(EMPTY, calls);
    forall r | r in end.sent && r.paymentId == p.paymentId ensures 0 <= r.paise <= Paise(p.amount) {
      var i :| 0 <= i < |end.payments| && end.payments[i].paymentId == r.paymentId && 0 <= r.paise <= Paise(end.payments[i].amount);
      assert i == k;
    }
    var sent, entries := SentFor(end.sent, p.paymentId), Entries(EMPTY, calls, p.paymentId);
    assert p in end.payments;
    PaiseMonotone(p.amount, p.amount);
    TotalBound(end.sent, p.paymentId, Paise(p.amount));
    Scale(sent, entries, Paise(p.amount));
  }

  lemma Scale(m: nat, n: nat, bound: int)
    requires m <= n && 0 <= bound
    ensures m * bound <= n * bound
  {
  }

  // ---------------------------------------------------------------- refunds within the order

  /** No payment has sent back more than its order. */
  ghost predicate Bounded(s: Books) {
    forall p <- s.payments :: TotalFor(s.sent, p.paymentId) <= Paise(p.amount)
  }

  function Asked(p: Payment, part: Option<real>): int {
    Paise(if part.Some? then part.value else p.amount)
  }

  /** A refund call that passes the service's checks and the gateway accepts. */
  predicate SendsRefund(s: Books, c: Call) {
    && c.RefundPayment? && c.refund.Some?
    && var i := ById(s.payments, c.paymentId);
       i < |s.payments| && RefundError(s.payments[i], c.part).None?
  }

  /** What was sent before and what is asked now exceed the order: the check `refund` leaves out. */
  predicate OverRefunds(s: Books, c: Call) {
    && SendsRefund(s, c)
    && var p := s.payments[ById(s.payments, c.paymentId)];
       TotalFor(s.sent, p.paymentId) + Asked(p, c.part) > Paise(p.amount)
  }

  lemma TotalSnoc(sent: seq<Sent>, r: Sent, paymentId: string)
    ensures TotalFor(sent + [r], paymentId) == TotalFor(sent, paymentId) + if r.paymentId == paymentId then r.paise else 0
  {
    assert (sent + [r])[..|sent|] == sent;
  }

  /** A payment never refunded has total zero. */
  lemma TotalNone(s: Books, paymentId: string)
    requires Covered(s) && forall p <- s.payments :: p.paymentId != paymentId
    ensures TotalFor(s.sent, paymentId) == 0
  {
    TotalBound(s.sent, paymentId, 0);
  }

  /** Only an accepted refund call sends anything, and it sends what it was asked for. */
  lemma SentStep(s: Books, c: Call)
    ensures Act(s, c).0.sent ==
              if SendsRefund(s, c) then s.sent + [Sent(c.paymentId, Asked(s.payments[ById(s.payments, c.paymentId)], c.part))] else s.sent
  {
    if c.HandleWebhook? { HookSends(s, c.notice); }
  }

  lemma HookSends(s: Books, notice: Notice)
    ensures Hook(s, notice).0.sent == s.sent
  {
  }

  lemma TotalStep(s: Books, c: Call, paymentId: string)
    ensures var t := Act(s, c).0;
            TotalFor(t.sent, paymentId) == TotalFor(s.sent, paymentId) +
              if SendsRefund(s, c) && c.paymentId == paymentId then Asked(s.payments[ById(s.payments, paymentId)], c.part) else 0
  {
    SentStep(s, c);
    if SendsRefund(s, c) {
      TotalSnoc(s.sent, Sent(c.paymentId, Asked(s.payments[ById(s.payments, c.paymentId)], c.part)), paymentId);
    }
  }

  lemma AskedFits(s: Books, c: Call)
    requires Positive(s) && SendsRefund(s, c)
    ensures var p := s.payments[ById(s.payments, c.paymentId)]; 0 <= Asked(p, c.part) <= Paise(p.amount)
  {
    var p := s.payments[ById(s.payments, c.paymentId)];
    assert p in s.payments;
    PaiseMonotone(if c.part.Some? then c.part.value else p.amount, p.amount);
  }

  /** A call makes some payment send back more than its order exactly when it is an accepted refund
      whose amount exceeds what is left of the order. */
  lemma BoundedStep(s: Books, c: Call)
    requires Distinct(s) && Positive(s) && Covered(s) && Bounded(s)
    ensures Bounded(Act(s, c).0) <==> !OverRefunds(s, c)
  {
    var t := Act(s, c).0;
    StepGrows(s, c);
    PositiveStep(s, c);
    if OverRefunds(s, c) {
      var i := ById(s.payments, c.paymentId);
      TotalStep(s, c, c.paymentId);
      assert SameIds(t.payments[i], s.payments[i]) && t.payments[i] in t.payments;
    } else {
      forall p | p in t.payments ensures TotalFor(t.sent, p.paymentId) <= Paise(p.amount) {
        var k :| 0 <= k < |t.payments| && t.payments[k] == p;
        if k < |s.payments| { BoundedOld(s, c, k); }
        if forall q <- s.payments :: q.paymentId != p.paymentId { BoundedNew(s, c, p.paymentId); }
        BoundedAt(s, t, k);
      }
    }
  }

  /** Payments of before stay within their order, new ones have sent nothing. */
  lemma BoundedAt(s: Books, t: Books, k: nat)
    requires Grows(s, t) && Positive(t) && k < |t.payments|
    requires k < |s.payments| ==> TotalFor(t.sent, s.payments[k].paymentId) <= Paise(s.payments[k].amount)
    requires (forall q <- s.payments :: q.paymentId != t.payments[k].paymentId) ==> TotalFor(t.sent, t.payments[k].paymentId) == 0
    ensures TotalFor(t.sent, t.payments[k].paymentId) <= Paise(t.payments[k].amount)
  {
    if k < |s.payments| {
      assert SameIds(t.payments[k], s.payments[k]);
    } else {
      assert t.payments[k] in t.payments;
      PaiseMonotone(t.payments[k].amount, t.payments[k].amount);
    }
  }

  lemma BoundedNew(s: Books, c: Call, paymentId: string)
    requires Covered(s) && forall q <- s.payments :: q.paymentId != paymentId
    ensures TotalFor(Act(s, c).0.sent, paymentId) == 0
  {
    TotalNone(s, paymentId);
    SentStep(s, c);
    if SendsRefund(s, c) {
      var i := ById(s.payments, c.paymentId);
      assert s.payments[i] in s.payments;
      TotalSnoc(s.sent, Sent(c.paymentId, Asked(s.payments[i], c.part)), paymentId);
    }
  }

  lemma BoundedOld(s: Books, c: Call, k: nat)
    requires Distinct(s) && Bounded(s) && !OverRefunds(s, c) && k < |s.payments|
    ensures TotalFor(Act(s, c).0.sent, s.payments[k].paymentId) <= Paise(s.payments[k].amount)
  {
    var p := s.payments[k];
    assert p in s.payments;
    TotalStep(s, c, p.paymentId);
    if SendsRefund(s, c) && c.paymentId == p.paymentId { assert ById(s.payments, c.paymentId) == k; }
  }

  /** A refund once sent is never taken back. */
  lemma BrokenStays(s: Books, c: Call)
    requires Positive(s) && !Bounded(s)
    ensures !Bounded(Act(s, c).0)
  {
    var t := Act(s, c).0;
    var p :| p in s.payments && TotalFor(s.sent, p.paymentId) > Paise(p.amount);
    var k :| 0 <= k < |s.payments| && s.payments[k] == p;
    StepGrows(s, c);
    TotalStep(s, c, p.paymentId);
    if SendsRefund(s, c) { AskedFits(s, c); }
    assert SameIds(t.payments[k], p) && t.payments[k] in t.payments;
  }

  ghost predicate NoOverRefunds(s: Books, calls: seq<Call>)
    decreases calls
  {
    calls == [] || (!OverRefunds(s, calls[0]) && NoOverRefunds(Act(s, calls[0]).0, calls[1..]))
  }

  lemma {:induction false} BrokenForGood(s: Books, calls: seq<Call>)
    requires Positive(s) && !Bounded(s)
    ensures !Bounded(After(s, calls))
    decreases calls
  {
    if calls != [] {
      PositiveStep(s, calls[0]);
      BrokenStays(s, calls[0]);
      BrokenForGood(Act(s, calls[0]).0, calls[1..]);
    }
  }

  lemma {:induction false} BoundedRun(s: Books, calls: seq<Call>)
    requires Distinct(s) && Positive(s) && Covered(s) && Bounded(s)
    ensures Bounded(After(s, calls)) <==> NoOverRefunds(s, calls)
    decreases calls
  {
    if calls != [] {
      var next := Act(s, calls[0]).0;
      GrowsDistinct(s, calls[0]);
      CoveredStep(s, calls[0]);
      BoundedStep(s, calls[0]);
      if Bounded(next) { BoundedRun(next, calls[1..]); } else { BrokenForGood(next, calls[1..]); }
    }
  }

  /** A run from an empty collection keeps every payment's refunds within its order exactly when no
      refund call of the run exceeds what is left of its order. */
  lemma RefundsWithinOrder(calls: seq<Call>)
    ensures Bounded(After(EMPTY, calls)) <==> NoOverRefunds(EMPTY, calls)
  {
    BoundedRun(EMPTY, calls);
  }

  // ---------------------------------------------------------------- one refund per payment

  /** Each payment has been refunded at most once, and a refunded one does not stand as paid. */
  ghost predicate Once(s: Books) {
    forall pid :: SentFor(s.sent, pid) + Paid(s, pid) <= 1
  }

  function OrderOf(c: Call): Option<string> {
    if c.VerifyPayment? && c.valid then Some(c.orderId)
    else if c.HandleWebhook? && c.signed && c.notice.Captured? then Some(c.notice.orderId)
    else None
  }

  function GatewayIdOf(c: Call): string {
    if c.VerifyPayment? then c.gatewayId
    else if c.HandleWebhook? && c.notice.Captured? then c.notice.gatewayId
    else ""
  }

  /** A valid verification or signed capture of a payment that does not stand as paid. */
  predicate Takes(s: Books, c: Call) {
    && OrderOf(c).Some?
    && var i := ByOrder(s.payments, OrderOf(c).value);
       i < |s.payments| && s.payments[i].status != Success && !IdTaken(s.payments, i, GatewayIdOf(c))
  }

  /** It takes a payment for which a refund has been sent. */
  predicate Reopens(s: Books, c: Call) {
    Takes(s, c) && SentFor(s.sent, s.payments[ByOrder(s.payments, OrderOf(c).value)].paymentId) > 0
  }

  lemma EntersIsTaking(s: Books, c: Call, paymentId: string)
    requires Distinct(s)
    ensures Enters(s, c, paymentId) == 1 <==>
            Takes(s, c) && s.payments[ByOrder(s.payments, OrderOf(c).value)].paymentId == paymentId
  {
    var next := Act(s, c).0;
    if OrderOf(c).Some? {
      var i := ByOrder(s.payments, OrderOf(c).value);
      if i < |s.payments| && s.payments[i].status != Success {
        UnpaidIs(s, OrderOf(c).value);
        TakingEnters(s, c, i, paymentId);
      }
    } else {
      OthersNeverEnter(s, c, paymentId);
    }
  }

  lemma TakingEnters(s: Books, c: Call, i: nat, paymentId: string)
    requires Distinct(s) && OrderOf(c).Some? && i < |s.payments| && s.payments[i].status != Success
    requires Act(s, c).0 == Enter(s, i, GatewayIdOf(c)).0
    ensures Enters(s, c, paymentId) == 1 <==> !IdTaken(s.payments, i, GatewayIdOf(c)) && s.payments[i].paymentId == paymentId
  {
    var next := Act(s, c).0;
    if !IdTaken(s.payments, i, GatewayIdOf(c)) {
      StatusAfterWrite(s, next, i, next.payments[i], paymentId);
      if s.payments[i].paymentId == paymentId { assert ById(s.payments, paymentId) == i; }
    }
  }

  lemma OthersNeverEnter(s: Books, c: Call, paymentId: string)
    requires Distinct(s) && OrderOf(c).None?
    ensures Enters(s, c, paymentId) == 0
  {
    var next := Act(s, c).0;
    match c
    case CreateOrder(_, _, _, _, _) =>
      if next != s { StatusAfterAppend(s, next, next.payments[|s.payments|], paymentId); }
    case VerifyPayment(orderId, _, _) =>
      if next != s { var i := ByOrder(s.payments, orderId); StatusAfterWrite(s, next, i, next.payments[i], paymentId); }
    case RefundPayment(pid, _, _) =>
      if next.payments != s.payments { var i := ById(s.payments, pid); StatusAfterWrite(s, next, i, next.payments[i], paymentId); }
    case HandleWebhook(_, notice) =>
      if next != s {
        var i := if notice.NotCaptured? then ByOrder(s.payments, notice.orderId) else ByRefund(s.payments, notice.refundId);
        StatusAfterWrite(s, next, i, next.payments[i], paymentId);
      }
  }

  /** A call breaks "at most one refund per payment, and none that stands as paid after it" exactly
      when it takes a payment whose refund was sent. */
  lemma OnceStep(s: Books, c: Call)
    requires Distinct(s) && FreshRefund(s, c) && Once(s)
    ensures Once(Act(s, c).0) <==> !Reopens(s, c)
  {
    var next := Act(s, c).0;
    forall pid
      ensures SentFor(next.sent, pid) + Paid(next, pid) <= SentFor(s.sent, pid) + Paid(s, pid) + Enters(s, c, pid)
      ensures Enters(s, c, pid) == 1 <==> Takes(s, c) && s.payments[ByOrder(s.payments, OrderOf(c).value)].paymentId == pid
    {
      BalancedStep(s, c, pid);
      EntersIsTaking(s, c, pid);
    }
    if Reopens(s, c) {
      var pid := s.payments[ByOrder(s.payments, OrderOf(c).value)].paymentId;
      assert next.sent == s.sent;
      assert Enters(s, c, pid) == 1;
    }
  }

  ghost predicate NoReopening(s: Books, calls: seq<Call>)
    decreases calls
  {
    calls == [] || (!Reopens(s, calls[0]) && NoReopening(Act(s, calls[0]).0, calls[1..]))
  }

  lemma {:induction false} OnceAlways(s: Books, calls: seq<Call>)
    requires Distinct(s) && FreshRefunds(s, calls) && Once(s) && NoReopening(s, calls)
    ensures Once(After(s, calls))
    decreases calls
  {
    if calls != [] {
      GrowsDistinct(s, calls[0]);
      OnceStep(s, calls[0]);
      OnceAlways(Act(s, calls[0]).0, calls[1..]);
    }
  }

  /** Never reopening a refunded payment is enough to stay within the order. */
  lemma NeverOverRefunded(calls: seq<Call>, k: nat)
    requires FreshRefunds(EMPTY, calls) && NoReopening(EMPTY, calls) && k < |After(EMPTY, calls).payments|
    ensures var end := After(EMPTY, calls);
            TotalFor(end.sent, end.payments[k].paymentId) <= Paise(end.payments[k].amount)
  {
    var end := After(EMPTY, calls);
    var p := end.payments[k];
    OnceAlways(EMPTY, calls);
    RefundsConserved(calls, k);
    CoveredAlways(EMPTY, calls);
    assert p in end.payments;
    PaiseMonotone(p.amount, p.amount);
    TotalBound(end.sent, p.paymentId, Paise(p.amount));
    Scale(SentFor(end.sent, p.paymentId), 1, Paise(p.amount));
  }

  /** The condition is needed: a capture notice delivered again after the refund reopens the
      payment, a second refund goes out, and twice the order has been sent back. */
  lemma RedeliveredCapture() returns (calls: seq<Call>)
    ensures FreshRefunds(EMPTY, calls)
    ensures var end := After(EMPTY, calls);
            |end.payments| == 1 && TotalFor(end.sent, end.payments[0].paymentId) == 2 * Paise(end.payments[0].amount) == 20000
  {
    var create := CreateOrder(true, "b", 100.0, "p", Some("o"));
    var capture := HandleWebhook(true, Captured("o", "g"));
    var refund1, refund2 := RefundPayment("p", None, Some("r1")), RefundPayment("p", None, Some("r2"));
    var s1, s2 := FirstRound(create, capture);
    SecondRound(s2, capture, refund1, refund2);
    LastThree(s2, refund1, capture, refund2);
    FirstTwo(EMPTY, create, capture, [refund1, capture, refund2]);
    calls := [create, capture] + [refund1, capture, refund2];
    TwiceSent();
  }

  lemma FirstTwo(s: Books, a: Call, b: Call, rest: seq<Call>)
    requires !a.RefundPayment? && !b.RefundPayment?
    ensures After(s, [a, b] + rest) == After(Act(Act(s, a).0, b).0, rest)
    ensures FreshRefunds(s, [a, b] + rest) <==> FreshRefunds(Act(Act(s, a).0, b).0, rest)
  {
    var calls := [a, b] + rest;
    assert calls[1..] == [b] + rest && calls[1..][1..] == rest;
    Unfold(s, calls);
    Unfold(Act(s, a).0, calls[1..]);
  }

  lemma TwiceSent()
    ensures TotalFor([Sent("p", 10000), Sent("p", 10000)], "p") == 20000 == 2 * Paise(100.0)
  {
    var twice := [Sent("p", 10000), Sent("p", 10000)];
    assert twice[..1] == [Sent("p", 10000)] && twice[..1][..0] == [];
  }

  lemma LastThree(s: Books, a: Call, b: Call, c: Call)
    ensures var t := Act(s, a).0;
            var u := Act(t, b).0;
            && After(s, [a, b, c]) == Act(u, c).0
            && (FreshRefunds(s, [a, b, c]) <==> FreshRefund(s, a) && FreshRefund(t, b) && FreshRefund(u, c))
  {
    var t := Act(s, a).0;
    Unfold(s, [a, b, c]);
    Unfold(t, [b, c]);
    Unfold(Act(t, b).0, [c]);
    assert [a, b, c][1..] == [b, c] && [b, c][1..] == [c] && [c][1..] == [];
  }

  lemma FirstRound(create: Call, capture: Call) returns (s1: Books, s2: Books)
    requires create == CreateOrder(true, "b", 100.0, "p", Some("o")) && capture == HandleWebhook(true, Captured("o", "g"))
    ensures s1 == Act(EMPTY, create).0 && s2 == Act(s1, capture).0
    ensures s2 == Books([Payment("p", "b", 100.0, Success, "o", Some("g"), None)], [], ["p"])
  {
    s1 := Act(EMPTY, create).0;
    assert s1 == Books([Payment("p", "b", 100.0, Initiated, "o", None, None)], [], []);
    s2 := Act(s1, capture).0;
  }

  lemma SecondRound(s: Books, capture: Call, refund1: Call, refund2: Call)
    requires s == Books([Payment("p", "b", 100.0, Success, "o", Some("g"), None)], [], ["p"])
    requires capture == HandleWebhook(true, Captured("o", "g"))
    requires refund1 == RefundPayment("p", None, Some("r1")) && refund2 == RefundPayment("p", None, Some("r2"))
    ensures var s3 := Act(s, refund1).0;
            var s4 := Act(s3, capture).0;
            && (forall q <- s3.payments + s4.payments :: q.refundId == Some("r1"))
            && Act(s4, refund2).0 ==
               Books([Payment("p", "b", 100.0, RefundPending, "o", Some("g"), Some("r2"))],
                     [Sent("p", 10000), Sent("p", 10000)], ["p", "p"])
  {
    var back := Payment("p", "b", 100.0, RefundPending, "o", Some("g"), Some("r1"));
    FullRefund(s, None, refund1, "r1");
    Recapture(Books([back], [Sent("p", 10000)], ["p"]), capture);
    FullRefund(Books([back.(status := Success)], [Sent("p", 10000)], ["p", "p"]), Some("r1"), refund2, "r2");
    assert [Sent("p", 10000)] + [Sent("p", 10000)] == [Sent("p", 10000), Sent("p", 10000)];
  }

  lemma FullRefund(s: Books, before: Option<string>, refund: Call, id: string)
    requires s.payments == [Payment("p", "b", 100.0, Success, "o", Some("g"), before)]
    requires refund == RefundPayment("p", None, Some(id))
    ensures Act(s, refund).0 ==
              Books([Payment("p", "b", 100.0, RefundPending, "o", Some("g"), Some(id))], s.sent + [Sent("p", 10000)], s.published)
  {
    assert ById(s.payments, "p") == 0;
  }

  lemma Recapture(s: Books, capture: Call)
    requires s.payments == [Payment("p", "b", 100.0, RefundPending, "o", Some("g"), Some("r1"))]
    requires capture == HandleWebhook(true, Captured("o", "g"))
    ensures Act(s, capture).0 == Books([s.payments[0].(status := Success)], s.sent, s.published + ["p"])
  {
    assert Unpaid(s.payments, "o") == 0;
  }

  lemma Unfold(s: Books, calls: seq<Call>)
    requires calls != []
    ensures After(s, calls) == After(Act(s, calls[0]).0, calls[1..])
    ensures FreshRefunds(s, calls) <==> FreshRefund(s, calls[0]) && FreshRefunds(Act(s, calls[0]).0, calls[1..])
  {
  }

  // ---------------------------------------------------------------- one active order per booking

  predicate IsActive(p: Payment) { p.status in {Initiated, Pending, Success} }

  /** What returning an existing order is for: no booking has two orders that can still be paid or
      have been. */
  ghost predicate OneActive(payments: seq<Payment>) {
    forall i, j :: 0 <= i < j < |payments| && IsActive(payments[i]) && IsActive(payments[j])
                   ==> payments[i].bookingId != payments[j].bookingId
  }

  /** It takes a payment that was given up, while the booking has a newer active order. */
  predicate Revives(s: Books, c: Call) {
    && Takes(s, c)
    && var p := s.payments[ByOrder(s.payments, OrderOf(c).value)];
       !IsActive(p) && Active(s.payments, p.bookingId) < |s.payments|
  }

  lemma OneActiveWrite(payments: seq<Payment>, i: nat, p: Payment)
    requires OneActive(payments) && i < |payments| && p.bookingId == payments[i].bookingId
    ensures OneActive(payments[i := p]) <==>
            !(IsActive(p) && !IsActive(payments[i]) && Active(payments, p.bookingId) < |payments|)
  {
    var t := payments[i := p];
    var k := Active(payments, p.bookingId);
    if IsActive(p) && !IsActive(payments[i]) && k < |payments| {
      assert t[k] == payments[k] && t[i] == p;
    }
  }

  /** A call breaks "one active order per booking" exactly when a late verification or capture
      revives an order given up before the booking's newer one was created. */
  lemma OneActiveStep(s: Books, c: Call)
    requires Distinct(s) && OneActive(s.payments)
    ensures OneActive(Act(s, c).0.payments) <==> !Revives(s, c)
  {
    if OrderOf(c).Some? {
      OneActiveTaking(s, c);
    } else {
      OneActiveOther(s, c);
    }
  }

  /** An order fails, the booking gets a new one, and then the first is captured after all: the
      booking has two active orders, one of them paid. */
  lemma LateCapture() returns (calls: seq<Call>, late: Call)
    ensures var s := After(EMPTY, calls); Distinct(s) && OneActive(s.payments) && Revives(s, late)
    ensures !OneActive(After(EMPTY, calls + [late]).payments)
  {
    calls := OrderedTwice();
    late := HandleWebhook(true, Captured("o1", "g"));
    LateRevives(After(EMPTY, calls), late);
    OneActiveStep(After(EMPTY, calls), late);
    AfterAppend(EMPTY, calls, late);
  }

  lemma OrderedTwice() returns (calls: seq<Call>)
    ensures After(EMPTY, calls).payments ==
              [Payment("p1", "b", 100.0, Failed, "o1", None, None), Payment("p2", "b", 100.0, Initiated, "o2", None, None)]
  {
    var create1, create2 := CreateOrder(true, "b", 100.0, "p1", Some("o1")), CreateOrder(true, "b", 100.0, "p2", Some("o2"));
    var failed := HandleWebhook(true, NotCaptured("o1"));
    var first := Payment("p1", "b", 100.0, Initiated, "o1", None, None);
    var s1, s2 := Books([first], [], []), Books([first.(status := Failed)], [], []);
    assert Act(EMPTY, create1).0 == s1;
    assert Act(s1, failed).0 == s2 by { assert ByOrder(s1.payments, "o1") == 0; }
    SecondOrder(s2, create2);
    LastThree(EMPTY, create1, failed, create2);
    calls := [create1, failed, create2];
  }

  lemma SecondOrder(s: Books, create: Call)
    requires s == Books([Payment("p1", "b", 100.0, Failed, "o1", None, None)], [], [])
    requires create == CreateOrder(true, "b", 100.0, "p2", Some("o2"))
    ensures Act(s, create).0 == s.(payments := s.payments + [Payment("p2", "b", 100.0, Initiated, "o2", None, None)])
  {
    assert s.payments[0].orderId[1] != "o2"[1] && s.payments[0].paymentId[1] != "p2"[1];
  }

  lemma LateRevives(s: Books, late: Call)
    requires s.payments == [Payment("p1", "b", 100.0, Failed, "o1", None, None), Payment("p2", "b", 100.0, Initiated, "o2", None, None)]
    requires late == HandleWebhook(true, Captured("o1", "g"))
    ensures Distinct(s) && OneActive(s.payments) && Revives(s, late)
  {
    assert "p1"[1] != "p2"[1] && "o1"[1] != "o2"[1];
    assert ByOrder(s.payments, "o1") == 0;
    assert IsActive(s.payments[1]);
  }

  lemma {:induction false} AfterAppend(s: Books, calls: seq<Call>, last: Call)
    ensures After(s, calls + [last]) == Act(After(s, calls), last).0
    decreases calls
  {
    if calls == [] {
      assert calls + [last] == [last] && [last][1..] == [];
    } else {
      assert (calls + [last])[1..] == calls[1..] + [last];
      AfterAppend(Act(s, calls[0]).0, calls[1..], last);
    }
  }

  lemma UnpaidIs(s: Books, orderId: string)
    requires Distinct(s)
    ensures var i := ByOrder(s.payments, orderId);
            Unpaid(s.payments, orderId) == if i < |s.payments| && s.payments[i].status != Success then i else |s.payments|
  {
    var i := ByOrder(s.payments, orderId);
    assert forall j :: 0 <= j < |s.payments| && j != i ==> s.payments[j].orderId != orderId;
  }

  lemma OneActiveTaking(s: Books, c: Call)
    requires Distinct(s) && OneActive(s.payments) && OrderOf(c).Some?
    ensures OneActive(Act(s, c).0.payments) <==> !Revives(s, c)
  {
    UnpaidIs(s, OrderOf(c).value);
    var i := ByOrder(s.payments, OrderOf(c).value);
    if i < |s.payments| && s.payments[i].status != Success {
      assert Act(s, c).0 == Enter(s, i, GatewayIdOf(c)).0;
      OneActiveWrite(s.payments, i, s.payments[i].(status := Success, gatewayId := Some(GatewayIdOf(c))));
    }
  }

  lemma OneActiveOther(s: Books, c: Call)
    requires OneActive(s.payments) && OrderOf(c).None?
    ensures OneActive(Act(s, c).0.payments)
  {
    var t := Act(s, c).0;
    match c
    case CreateOrder(_, bookingId, _, _, _) =>
      if t != s { assert Active(s.payments, bookingId) == |s.payments|; }
    case VerifyPayment(orderId, _, _) =>
      if t != s { Closing(s.payments, ByOrder(s.payments, orderId), t.payments); }
    case RefundPayment(pid, _, _) =>
      if t.payments != s.payments { Closing(s.payments, ById(s.payments, pid), t.payments); }
    case HandleWebhook(signed, notice) =>
      if signed { OneActiveHook(s, notice); }
  }

  lemma OneActiveHook(s: Books, notice: Notice)
    requires OneActive(s.payments) && !notice.Captured?
    ensures OneActive(Hook(s, notice).0.payments)
  {
    var t := Hook(s, notice).0;
    if t != s {
      var i := if notice.NotCaptured? then ByOrder(s.payments, notice.orderId) else ByRefund(s.payments, notice.refundId);
      Closing(s.payments, i, t.payments);
    }
  }

  lemma Closing(payments: seq<Payment>, i: nat, t: seq<Payment>)
    requires OneActive(payments) && i < |payments| && |t| == |payments| && !IsActive(t[i]) && t == payments[i := t[i]]
    ensures OneActive(t)
  {
  }

  // ---------------------------------------------------------------- what each call answers and leaves

  /** This many paise are the amount, rounded to the nearest paisa, halves upward. */
  ghost predicate InPaise(paise: int, amount: real) {
    -0.5 < paise as real - 100.0 * amount <= 0.5
  }

  lemma PaiseLaw(amount: real)
    ensures InPaise(Paise(amount), amount)
    ensures forall paise :: InPaise(paise, amount) ==> paise == Paise(amount)
  {
    assert Paise(amount) as real <= amount * 100.0 + 0.5 < Paise(amount) as real + 1.0;
  }

  /** An order of this booking that can still be paid or has been. */
  ghost predicate Standing(p: Payment, bookingId: string) {
    p.bookingId == bookingId && (p.status == Initiated || p.status == Pending || p.status == Success)
  }

  /** Payment `i` is the first with this order id, or with this payment id, or with this refund id. */
  ghost predicate FirstOrder(payments: seq<Payment>, orderId: string, i: nat) {
    i < |payments| && payments[i].orderId == orderId && forall j :: 0 <= j < i ==> payments[j].orderId != orderId
  }

  ghost predicate FirstPayment(payments: seq<Payment>, paymentId: string, i: nat) {
    i < |payments| && payments[i].paymentId == paymentId && forall j :: 0 <= j < i ==> payments[j].paymentId != paymentId
  }

  ghost predicate FirstRefund(payments: seq<Payment>, refundId: Option<string>, i: nat) {
    i < |payments| && payments[i].refundId == refundId && forall j :: 0 <= j < i ==> payments[j].refundId != refundId
  }

  lemma FirstOrderIs(payments: seq<Payment>, orderId: string)
    ensures forall i: nat :: FirstOrder(payments, orderId, i) <==> i < |payments| && i == ByOrder(payments, orderId)
  {
    forall i: nat | FirstOrder(payments, orderId, i) ensures i == ByOrder(payments, orderId) {
      assert ByOrder(payments, orderId) <= i;
    }
  }

  lemma FirstPaymentIs(payments: seq<Payment>, paymentId: string)
    ensures forall i: nat :: FirstPayment(payments, paymentId, i) <==> i < |payments| && i == ById(payments, paymentId)
  {
    forall i: nat | FirstPayment(payments, paymentId, i) ensures i == ById(payments, paymentId) {
      assert ById(payments, paymentId) <= i;
    }
  }

  lemma FirstRefundIs(payments: seq<Payment>, refundId: Option<string>)
    ensures forall i: nat :: FirstRefund(payments, refundId, i) <==> i < |payments| && i == ByRefund(payments, refundId)
  {
    forall i: nat | FirstRefund(payments, refundId, i) ensures i == ByRefund(payments, refundId) {
      assert ByRefund(payments, refundId) <= i;
    }
  }

  ghost predicate Written(d: Books, e: Books, i: nat, p: Payment) {
    i < |d.payments| && e == d.(payments := d.payments[i := p])
  }

  ghost predicate CreateOutcome(d: Books, c: Call, r: Reply, e: Books)
    requires c.CreateOrder?
  {
    if !c.configured then r == Denied(NotConfigured) && e == d
    else if exists p :: p in d.payments && Standing(p, c.bookingId) then
      r.Paying? && r.payment in d.payments && Standing(r.payment, c.bookingId) && e == d
    else if c.amount <= 0.0 then r == Denied(InvalidAmount) && e == d
    else if c.order.None? then r == Denied(GatewayFailure) && e == d
    else if c.amount < 1.0 then r == Denied(NotStored) && e == d
    else if exists p :: p in d.payments && p.orderId == c.order.value then
      r.Paying? && r.payment in d.payments && r.payment.orderId == c.order.value && e == d
    else if exists p :: p in d.payments && p.paymentId == c.paymentId then r == Denied(NotStored) && e == d
    else
      var created := Payment(c.paymentId, c.bookingId, c.amount, Initiated, c.order.value, None, None);
      r == Paying(created) && e == d.(payments := d.payments + [created])
  }

  /** Payment `i` stands as paid and one event says so, unless another has the gateway's id. */
  ghost predicate PaidOutcome(d: Books, i: nat, gatewayId: string, r: Reply, e: Books) {
    i < |d.payments| &&
    if exists j :: 0 <= j < |d.payments| && j != i && d.payments[j].gatewayId == Some(gatewayId)
    then r == Denied(NotStored) && e == d
    else
      && r == Paying(d.payments[i].(status := Success, gatewayId := Some(gatewayId)))
      && e.payments == d.payments[i := r.payment] && e.sent == d.sent && e.published == d.published + [d.payments[i].paymentId]
  }

  ghost predicate VerifyOutcome(d: Books, orderId: string, gatewayId: string, valid: bool, r: Reply, e: Books) {
    && ((forall p :: p in d.payments ==> p.orderId != orderId) ==> r == Denied(PaymentNotFound) && e == d)
    && forall i: nat :: FirstOrder(d.payments, orderId, i) ==> VerifiedOutcome(d, i, gatewayId, valid, r, e)
  }

  ghost predicate VerifiedOutcome(d: Books, i: nat, gatewayId: string, valid: bool, r: Reply, e: Books) {
    i < |d.payments| &&
    if d.payments[i].status == Success then r == Paying(d.payments[i]) && e == d
    else if !valid then r == Denied(InvalidSignature) && Written(d, e, i, d.payments[i].(status := Failed))
    else PaidOutcome(d, i, gatewayId, r, e)
  }

  /** One request for the part asked, or for the order when none is named, goes to the gateway before
      the document is written; the write fails when another payment has the refund's id. */
  ghost predicate SentOutcome(d: Books, i: nat, part: Option<real>, refund: string, r: Reply, e: Books) {
    && i < |d.payments| && |e.sent| == |d.sent| + 1 && e.sent[..|d.sent|] == d.sent
    && e.sent[|d.sent|].paymentId == d.payments[i].paymentId
    && InPaise(e.sent[|d.sent|].paise, if part.Some? then part.value else d.payments[i].amount)
    && e.published == d.published
    && if exists j :: 0 <= j < |d.payments| && j != i && d.payments[j].refundId == Some(refund)
       then r == Denied(NotStored) && e.payments == d.payments
       else
         && r == Paying(d.payments[i].(status := RefundPending, refundId := Some(refund)))
         && e.payments == d.payments[i := r.payment]
  }

  ghost predicate RefundOutcome(d: Books, paymentId: string, part: Option<real>, refund: Option<string>, r: Reply, e: Books) {
    && ((forall p :: p in d.payments ==> p.paymentId != paymentId) ==> r == Denied(PaymentNotFound) && e == d)
    && forall i: nat :: FirstPayment(d.payments, paymentId, i) ==> RefundedOutcome(d, i, part, refund, r, e)
  }

  ghost predicate RefundedOutcome(d: Books, i: nat, part: Option<real>, refund: Option<string>, r: Reply, e: Books) {
    i < |d.payments| &&
    var p := d.payments[i];
    if p.status != Success then r == Denied(InvalidStatus) && e == d
    else if p.gatewayId == None || p.gatewayId == Some("") then r == Denied(MissingPaymentId) && e == d
    else if part.Some? && part.value <= 0.0 then r == Denied(InvalidRefundAmount) && e == d
    else if part.Some? && part.value > p.amount then r == Denied(RefundExceedsPayment) && e == d
    else if refund.None? then r == Denied(GatewayFailure) && e == d
    else SentOutcome(d, i, part, refund.value, r, e)
  }

  ghost predicate CapturedOutcome(d: Books, orderId: string, gatewayId: string, r: Reply, e: Books) {
    && ((forall p :: p in d.payments && p.orderId == orderId ==> p.status == Success) ==> r == Acknowledged && e == d)
    && forall i :: 0 <= i < |d.payments| && d.payments[i].orderId == orderId && d.payments[i].status != Success
                   && (forall j :: 0 <= j < i && d.payments[j].orderId == orderId ==> d.payments[j].status == Success) ==>
         exists marked :: PaidOutcome(d, i, gatewayId, marked, e) && r == if marked.Paying? then Acknowledged else marked
  }

  ghost predicate WebhookOutcome(d: Books, signed: bool, notice: Notice, r: Reply, e: Books) {
    if !signed then r == Denied(InvalidWebhookSignature) && e == d
    else match notice
      case Captured(orderId, gatewayId) => CapturedOutcome(d, orderId, gatewayId, r, e)
      case NotCaptured(orderId) =>
        && r == Acknowledged
        && ((forall p :: p in d.payments ==> p.orderId != orderId) ==> e == d)
        && forall i: nat :: FirstOrder(d.payments, orderId, i) ==> Written(d, e, i, d.payments[i].(status := Failed))
      case RefundProcessed(refundId) =>
        && r == Acknowledged
        && ((forall p :: p in d.payments ==> p.refundId != refundId) ==> e == d)
        && forall i: nat :: FirstRefund(d.payments, refundId, i) ==> Written(d, e, i, d.payments[i].(status := Refunded))
      case NoEntity => r == Denied(MalformedNotice) && e == d
      case Unhandled => r == Acknowledged && e == d
  }

  lemma CreateMeets(d: Books, c: Call)
    requires c.CreateOrder?
    ensures CreateOutcome(d, c, Act(d, c).1, Act(d, c).0)
  {
    if c.configured && Active(d.payments, c.bookingId) == |d.payments| && c.order.Some? {
      var same := ByOrder(d.payments, c.order.value);
      assert same < |d.payments| ==> d.payments[same] in d.payments;
    }
  }

  lemma VerifyMeets(d: Books, orderId: string, gatewayId: string, valid: bool)
    ensures var (e, r) := Act(d, VerifyPayment(orderId, gatewayId, valid)); VerifyOutcome(d, orderId, gatewayId, valid, r, e)
  {
    FirstOrderIs(d.payments, orderId);
    var i := ByOrder(d.payments, orderId);
    if i < |d.payments| {
      var (e, r) := Act(d, VerifyPayment(orderId, gatewayId, valid));
      assert VerifiedOutcome(d, i, gatewayId, valid, r, e);
      assert d.payments[i] in d.payments;
    }
  }

  lemma RefundMeets(d: Books, paymentId: string, part: Option<real>, refund: Option<string>)
    ensures var (e, r) := Act(d, RefundPayment(paymentId, part, refund)); RefundOutcome(d, paymentId, part, refund, r, e)
  {
    FirstPaymentIs(d.payments, paymentId);
    var i := ById(d.payments, paymentId);
    if i < |d.payments| {
      RefundedMeets(d, paymentId, part, refund);
      assert d.payments[i] in d.payments;
    }
  }

  lemma RefundedMeets(d: Books, paymentId: string, part: Option<real>, refund: Option<string>)
    requires ById(d.payments, paymentId) < |d.payments|
    ensures var (e, r) := Act(d, RefundPayment(paymentId, part, refund));
            RefundedOutcome(d, ById(d.payments, paymentId), part, refund, r, e)
  {
    if SendsRefund(d, RefundPayment(paymentId, part, refund)) { SentMeets(d, paymentId, part, refund); }
  }

  lemma SentMeets(d: Books, paymentId: string, part: Option<real>, refund: Option<string>)
    requires SendsRefund(d, RefundPayment(paymentId, part, refund))
    ensures var (e, r) := Act(d, RefundPayment(paymentId, part, refund));
            SentOutcome(d, ById(d.payments, paymentId), part, refund.value, r, e)
  {
    PaiseLaw(if part.Some? then part.value else d.payments[ById(d.payments, paymentId)].amount);
  }

  lemma WebhookMeets(d: Books, signed: bool, notice: Notice)
    ensures var (e, r) := Act(d, HandleWebhook(signed, notice)); WebhookOutcome(d, signed, notice, r, e)
  {
    match notice
    case Captured(orderId, gatewayId) => CapturedMeets(d, orderId, gatewayId);
    case NotCaptured(orderId) => FailedMeets(d, orderId);
    case RefundProcessed(refundId) => ProcessedMeets(d, refundId);
    case _ =>
  }

  lemma FailedMeets(d: Books, orderId: string)
    ensures var (e, r) := Hook(d, NotCaptured(orderId)); WebhookOutcome(d, true, NotCaptured(orderId), r, e)
  {
    FirstOrderIs(d.payments, orderId);
    var i := ByOrder(d.payments, orderId);
    if i < |d.payments| { assert d.payments[i] in d.payments; }
  }

  lemma ProcessedMeets(d: Books, refundId: Option<string>)
    ensures var (e, r) := Hook(d, RefundProcessed(refundId)); WebhookOutcome(d, true, RefundProcessed(refundId), r, e)
  {
    FirstRefundIs(d.payments, refundId);
    var i := ByRefund(d.payments, refundId);
    if i < |d.payments| { assert d.payments[i] in d.payments; }
  }

  lemma CapturedMeets(d: Books, orderId: string, gatewayId: string)
    ensures var (e, r) := Hook(d, Captured(orderId, gatewayId)); CapturedOutcome(d, orderId, gatewayId, r, e)
  {
    var i := Unpaid(d.payments, orderId);
    if i < |d.payments| {
      var (e, marked) := Enter(d, i, gatewayId);
      assert PaidOutcome(d, i, gatewayId, marked, e);
    }
  }

  // ---------------------------------------------------------------- every request was asked for

  /** Some call of the run asked for this: the part it named, or the whole order, in paise. */
  ghost predicate AskedBy(calls: seq<Call>, payments: seq<Payment>, r: Sent) {
    exists k :: 0 <= k < |calls| && calls[k].RefundPayment? && calls[k].refund.Some? && calls[k].paymentId == r.paymentId
                && exists i :: 0 <= i < |payments| && payments[i].paymentId == r.paymentId
                               && AskedOf(calls[k].part, payments[i].amount, r.paise)
  }

  /** A part is positive and at most the order. */
  ghost predicate AskedOf(part: Option<real>, order: real, paise: int) {
    match part
    case Some(amount) => 0.0 < amount <= order && InPaise(paise, amount)
    case None => InPaise(paise, order)
  }

  lemma AskedStays(before: seq<Call>, s: Books, c: Call, r: Sent)
    requires AskedBy(before, s.payments, r)
    ensures AskedBy(before + [c], Act(s, c).0.payments, r)
  {
    StepGrows(s, c);
    var k :| 0 <= k < |before| && before[k].RefundPayment? && before[k].refund.Some? && before[k].paymentId == r.paymentId
             && exists i :: 0 <= i < |s.payments| && s.payments[i].paymentId == r.paymentId
                            && AskedOf(before[k].part, s.payments[i].amount, r.paise);
    var i :| 0 <= i < |s.payments| && s.payments[i].paymentId == r.paymentId && AskedOf(before[k].part, s.payments[i].amount, r.paise);
    assert (before + [c])[k] == before[k] && SameIds(Act(s, c).0.payments[i], s.payments[i]);
  }

  lemma NewlyAsked(before: seq<Call>, s: Books, c: Call)
    requires SendsRefund(s, c)
    ensures AskedBy(before + [c], Act(s, c).0.payments,
                    Sent(c.paymentId, Asked(s.payments[ById(s.payments, c.paymentId)], c.part)))
  {
    var i := ById(s.payments, c.paymentId);
    StepGrows(s, c);
    PaiseLaw(if c.part.Some? then c.part.value else s.payments[i].amount);
    assert (before + [c])[|before|] == c && SameIds(Act(s, c).0.payments[i], s.payments[i]);
  }

  /** In every run each refund request sent goes back to a refund call for that payment, and its paise
      are within half a paisa of the part asked, or of the order when none is named. */
  lemma {:induction false} SentAsAsked(s: Books, before: seq<Call>, calls: seq<Call>)
    requires forall r :: r in s.sent ==> AskedBy(before, s.payments, r)
    ensures forall r :: r in After(s, calls).sent ==> AskedBy(before + calls, After(s, calls).payments, r)
    decreases calls
  {
    if calls == [] {
      assert before + calls == before;
    } else {
      var c, t := calls[0], Act(s, calls[0]).0;
      SentStep(s, c);
      forall r | r in t.sent ensures AskedBy(before + [c], t.payments, r) {
        if r in s.sent { AskedStays(before, s, c, r); } else { NewlyAsked(before, s, c); }
      }
      SentAsAsked(t, before + [c], calls[1..]);
      assert before + [c] + calls[1..] == before + calls;
    }
  }

  // ---------------------------------------------------------------- the service

  class PaymentService {
    const configured: bool
    var payments: seq<Payment>
    ghost var sent: seq<Sent>
    ghost var published: seq<string>

    ghost function View(): Books
      reads this
    {
      Books(payments, sent, published)
    }

    constructor (configured: bool)
      ensures View() == EMPTY && this.configured == configured
    {
      this.configured, payments, sent, published := configured, [], [], [];
    }

    /** `asked` is what the gateway is asked to collect, in paise, when it is asked at all. */
    method CreateOrder(bookingId: string, amount: real, paymentId: string, order: Option<string>)
      returns (r: Reply, asked: Option<int>)
      modifies this
      ensures (View(), r) == Act(old(View()), Call.CreateOrder(configured, bookingId, amount, paymentId, order))
      ensures CreateOutcome(old(View()), Call.CreateOrder(configured, bookingId, amount, paymentId, order), r, View())
      ensures asked.Some? <==>
              configured && amount > 0.0 && forall p :: p in old(payments) ==> !Standing(p, bookingId)
      ensures asked.Some? ==> InPaise(asked.value, amount)
    {
      CreateMeets(View(), Call.CreateOrder(configured, bookingId, amount, paymentId, order));
      PaiseLaw(amount);
      if !configured { return Denied(NotConfigured), None; }
      var existing := Active(payments, bookingId);
      if existing < |payments| { return Paying(payments[existing]), None; }
      if amount <= 0.0 { return Denied(InvalidAmount), None; }
      asked := Some(Paise(amount));
      if order.None? { return Denied(GatewayFailure), asked; }
      if amount < 1.0 { return Denied(NotStored), asked; }
      var same := ByOrder(payments, order.value);
      if same < |payments| { return Paying(payments[same]), asked; }
      if ById(payments, paymentId) < |payments| { return Denied(NotStored), asked; }
      var payment := Payment(paymentId, bookingId, amount, Initiated, order.value, None, None);
      payments := payments + [payment];
      r := Paying(payment);
    }

    /** The update to success and its event. */
    method MarkPaid(i: nat, gatewayId: string) returns (r: Reply)
      requires i < |payments|
      modifies this
      ensures (View(), r) == Enter(old(View()), i, gatewayId)
      ensures PaidOutcome(old(View()), i, gatewayId, r, View())
    {
      if IdTaken(payments, i, gatewayId) { return Denied(NotStored); }
      var paid := payments[i].(status := Success, gatewayId := Some(gatewayId));
      payments := payments[i := paid];
      published := published + [paid.paymentId];
      r := Paying(paid);
    }

    method VerifyPayment(orderId: string, gatewayId: string, valid: bool) returns (r: Reply)
      modifies this
      ensures (View(), r) == Act(old(View()), Call.VerifyPayment(orderId, gatewayId, valid))
      ensures VerifyOutcome(old(View()), orderId, gatewayId, valid, r, View())
    {
      VerifyMeets(View(), orderId, gatewayId, valid);
      var i := ByOrder(payments, orderId);
      if i == |payments| { return Denied(PaymentNotFound); }
      if payments[i].status == Success { return Paying(payments[i]); }
      if !valid {
        payments := payments[i := payments[i].(status := Failed)];
        return Denied(InvalidSignature);
      }
      r := MarkPaid(i, gatewayId);
    }

    method Refund(paymentId: string, amount: Option<real>, refund: Option<string>) returns (r: Reply)
      modifies this
      ensures (View(), r) == Act(old(View()), RefundPayment(paymentId, amount, refund))
      ensures RefundOutcome(old(View()), paymentId, amount, refund, r, View())
    {
      RefundMeets(View(), paymentId, amount, refund);
      var i := ById(payments, paymentId);
      if i == |payments| { return Denied(PaymentNotFound); }
      var payment := payments[i];
      if payment.status != Success { return Denied(InvalidStatus); }
      if payment.gatewayId.None? || payment.gatewayId.value == "" { return Denied(MissingPaymentId); }
      if amount.Some? {
        if amount.value <= 0.0 { return Denied(InvalidRefundAmount); }
        if amount.value > payment.amount { return Denied(RefundExceedsPayment); }
      }
      if refund.None? { return Denied(GatewayFailure); }
      sent := sent + [Sent(paymentId, Paise(if amount.Some? then amount.value else payment.amount))];
      if exists j :: 0 <= j < |payments| && j != i && payments[j].refundId == refund { return Denied(NotStored); }
      payments := payments[i := payment.(status := RefundPending, refundId := refund)];
      r := Paying(payments[i]);
    }

    method HandleWebhook(signed: bool, notice: Notice) returns (r: Reply)
      modifies this
      ensures (View(), r) == Act(old(View()), Call.HandleWebhook(signed, notice))
      ensures WebhookOutcome(old(View()), signed, notice, r, View())
    {
      WebhookMeets(View(), signed, notice);
      if !signed { return Denied(InvalidWebhookSignature); }
      r := Dispatch(notice);
    }

    /** The `switch` over a notice whose signature is right. */
    method Dispatch(notice: Notice) returns (r: Reply)
      modifies this
      ensures (View(), r) == Hook(old(View()), notice)
    {
      match notice {
        case Captured(orderId, gatewayId) =>
          var i := Unpaid(payments, orderId);
          if i < |payments| {
            var marked := MarkPaid(i, gatewayId);
            if !marked.Paying? { return marked; }
          }
        case NotCaptured(orderId) =>
          var i := ByOrder(payments, orderId);
          if i < |payments| { payments := payments[i := payments[i].(status := Failed)]; }
        case RefundProcessed(refundId) =>
          var i := ByRefund(payments, refundId);
          if i < |payments| { payments := payments[i := payments[i].(status := Refunded)]; }
        case NoEntity => return Denied(MalformedNotice);
        case Unhandled =>
      }
      r := Acknowledged;
    }
  }
}
