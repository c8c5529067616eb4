/** One order through verify, reconciliation and webhooks in any order: it counts once, is
    taken back once, only moves forward, and ends the same however its events arrive. */
module OrderFacts {
  import opened Text
  import opened Payments
  import opened PaymentFacts

  function Rank(s: Status): nat
  {
    match s
    case Created => 0
    case Failed => 1
    case Paid => 2
    case Refunded => 3
  }

  predicate IsUnpaid(s: Status)
  {
    match s
    case Created => true
    case Failed => true
    case Paid => false
    case Refunded => false
  }

  ghost predicate UniqueIds(orders: seq<Order>)
  {
    forall i, j | 0 <= i < j < |orders| :: orders[i].id != orders[j].id
  }

  /** The same order, no further back, with what was bought unchanged. */
  ghost predicate MovesOn(o: Order, later: Order)
  {
    && later.id == o.id
    && later.days == o.days && later.tokens == o.tokens
    && later.amount == o.amount && later.currency == o.currency
    && Rank(o.status) <= Rank(later.status)
    && (later.user == o.user || later.user == None)
    && (o.status == Paid && later.status == Paid ==> later.paidAt == o.paidAt && later.paymentId == o.paymentId)
  }

  ghost predicate OrdersMoveOn(orders: seq<Order>, later: seq<Order>)
  {
    && |orders| <= |later|
    && forall i | 0 <= i < |orders| :: MovesOn(orders[i], later[i])
  }

  /** `later` has every order of `orders`, in place, moved on, and no id twice. */
  ghost predicate Follows(b: Books, later: Books)
  {
    && OrdersMoveOn(b.orders, later.orders)
    && (UniqueIds(b.orders) ==> UniqueIds(later.orders))
    && b.events <= later.events
  }

  lemma {:induction false} GrantingMovesOn(b: Books, orderId: string, paymentId: string, now: int)
    ensures Follows(b, Granting(b, orderId, paymentId, now).1)
  {
  }

  lemma {:induction false} EffectMovesOn(b: Books, e: WebhookEvent, now: int)
    ensures Follows(b, EventEffect(b, e, now).1)
  {
    hide Granting, Follows, UniqueIds, OrdersMoveOn;
    SameFollows(b);
    if e.kind != OtherEvent && e.orderId.Some? && Find(b.orders, e.orderId.value).Some? {
      var i := Find(b.orders, e.orderId.value).value;
      var o := b.orders[i];
      OneMovesOn(b, i, o.(status := Failed), Refunding(b, i));
      OneMovesOn(b, i, o.(status := Refunded), Refunding(b, i));
      OneMovesOn(b, i, o.(status := Failed), b.(orders := b.orders[i := o.(status := Failed)]));
      if e.paymentId.Some? {
        GrantingMovesOn(b, o.id, e.paymentId.value, now);
      }
    }
  }

  lemma {:induction false} SameFollows(b: Books)
    ensures Follows(b, b)
  {
  }

  lemma {:induction false} OneMovesOn(b: Books, i: nat, o: Order, later: Books)
    requires i < |b.orders|
    ensures later.orders == b.orders[i := o] && later.events == b.events && MovesOn(b.orders[i], o) ==>
              Follows(b, later)
  {
  }

  lemma {:induction false} StepMovesOn(b: Books, e: Entry)
    ensures Follows(b, Do(b, e))
  {
    hide Granting, EventEffect, Extended;
    match e.step
    case Verify(orderId, paymentId) => GrantingMovesOn(b, orderId, paymentId, e.at);
    case Deliver(event) => EffectMovesOn(b, event, e.at);
    case _ =>
  }

  /** Over every run an order's status only moves forward, and a handled event stays handled. */
  lemma {:induction false} RunMovesOn(b: Books, run: seq<Entry>)
    ensures Follows(b, Run(b, run))
  {
    if run != [] {
      var before := Run(b, run[..|run| - 1]);
      RunMovesOn(b, run[..|run| - 1]);
      StepMovesOn(before, run[|run| - 1]);
      hide Do;
      forall i | 0 <= i < |b.orders|
        ensures MovesOn(b.orders[i], Run(b, run).orders[i])
      {
        assert MovesOn(b.orders[i], before.orders[i]);
        assert MovesOn(before.orders[i], Run(b, run).orders[i]);
      }
    }
  }

  // ---- Once only ----

  /** This transaction gave access for order `i`. */
  predicate GivesAccess(b: Books, e: Entry, i: nat)
    requires i < |b.orders|
  {
    match e.step
    case Verify(orderId, paymentId) =>
      orderId == b.orders[i].id && Granting(b, orderId, paymentId, e.at).0 == Granted
    case Deliver(event) =>
      event.orderId == Some(b.orders[i].id) && Delivering(b, event, e.at).0 == GrantOutcome(Granted)
    case _ => false
  }

  /** This transaction took back what order `i` gave. */
  predicate TakesBack(b: Books, e: Entry, i: nat)
    requires i < |b.orders|
  {
    match e.step
    case Deliver(event) =>
      && event.orderId == Some(b.orders[i].id)
      && Delivering(b, event, e.at).0 == RefundDone
      && b.orders[i].status == Paid
    case _ => false
  }

  function TimesGiven(b: Books, run: seq<Entry>, i: nat): nat
    requires i < |b.orders|
  {
    if run == [] then 0
    else
      var front := run[..|run| - 1];
      RunMovesOn(b, front);
      TimesGiven(b, front, i) + if GivesAccess(Run(b, front), run[|run| - 1], i) then 1 else 0
  }

  function TimesTakenBack(b: Books, run: seq<Entry>, i: nat): nat
    requires i < |b.orders|
  {
    if run == [] then 0
    else
      var front := run[..|run| - 1];
      RunMovesOn(b, front);
      TimesTakenBack(b, front, i) + if TakesBack(Run(b, front), run[|run| - 1], i) then 1 else 0
  }

  lemma {:induction false} GivingPays(b: Books, e: Entry, i: nat)
    requires UniqueIds(b.orders) && i < |b.orders|
    ensures
      var later := Do(b, e).orders[i];
      && (GivesAccess(b, e, i) ==> Rank(b.orders[i].status) < Rank(Paid) && later.status == Paid)
      && (TakesBack(b, e, i) ==> b.orders[i].status == Paid && later.status == Refunded)
  {
    StepMovesOn(b, e);
    match e.step
    case Verify(orderId, paymentId) => FindUnique(b.orders, i);
    case Deliver(event) => FindUnique(b.orders, i);
    case _ =>
  }

  lemma {:induction false} FindUnique(orders: seq<Order>, i: nat)
    requires UniqueIds(orders) && i < |orders|
    ensures Find(orders, orders[i].id) == Some(i)
  {
  }

  /** However verify, webhooks and reconciliation interleave, an order extends access at most
      once and is taken back at most once, and never in a state it has already passed. */
  lemma {:induction false} OrderCountsOnce(b: Books, run: seq<Entry>, i: nat)
    requires UniqueIds(b.orders) && i < |b.orders|
    ensures |b.orders| <= |Run(b, run).orders|
    ensures
      var before, after := Rank(b.orders[i].status), Rank(Run(b, run).orders[i].status);
      && TimesGiven(b, run, i) <= (if before < Rank(Paid) <= after then 1 else 0)
      && TimesTakenBack(b, run, i) <= (if before < Rank(Refunded) <= after then 1 else 0)
  {
    RunMovesOn(b, run);
    if run != [] {
      var front := run[..|run| - 1];
      OrderCountsOnce(b, front, i);
      RunMovesOn(b, front);
      hide Do, GivesAccess, TakesBack;
      GivingPays(Run(b, front), run[|run| - 1], i);
      StepMovesOn(Run(b, front), run[|run| - 1]);
      assert MovesOn(Run(b, front).orders[i], Run(b, run).orders[i]);
    }
  }

  /** A handled event changes nothing when it comes again, whatever happened between. */
  lemma {:induction false} RepeatedEventChangesNothing(
      b: Books, event: WebhookEvent, at: int, run: seq<Entry>, again: int)
    ensures
      var (outcome, handled) := Delivering(b, event, at);
      var later := Run(handled, run);
      outcome != DatabaseFailure ==> Delivering(later, event, again) == (Duplicate, later)
  {
    RunMovesOn(Delivering(b, event, at).1, run);
  }

  // ---- What a transaction does to one order ----

  /** The payment by which this step can grant the order. */
  function GrantOf(o: Order, step: Step): Option<string>
  {
    match step
    case Verify(orderId, paymentId) => if orderId == o.id then Some(paymentId) else None
    case Deliver(e) =>
      if IsGrantEvent(e) && e.orderId == Some(o.id) && e.amount == Some(o.amount) && e.currency == Some(o.currency)
      then e.paymentId else None
    case _ => None
  }

  predicate IsRefundOf(o: Order, step: Step)
  {
    step.Deliver? && step.event.kind == RefundProcessed && step.event.orderId == Some(o.id) && step.event.fullRefund
  }

  predicate IsFailureOf(o: Order, step: Step)
  {
    step.Deliver? && step.event.kind == PaymentFailed && step.event.orderId == Some(o.id)
  }

  datatype Standing = Standing(status: Status, paymentId: Option<string>)

  function StandingOf(o: Order): Standing
  {
    Standing(o.status, o.paymentId)
  }

  /** Where a step leaves an order that stands at `s`: the first payment grants, and a full
      refund closes the order unless it is of another payment than the one that paid. */
  function Moved(o: Order, s: Standing, step: Step): Standing
  {
    if GrantOf(o, step).Some? && IsUnpaid(s.status) then Standing(Paid, GrantOf(o, step))
    else if IsRefundOf(o, step) && (s.status == Paid ==> step.event.paymentId == s.paymentId)
    then s.(status := Refunded)
    else if IsFailureOf(o, step) && s.status == Created then s.(status := Failed)
    else s
  }

  /** A step that grants an order by some payment, without asking for the right amount. */
  predicate PaysOther(o: Order, step: Step, payment: string)
  {
    match step
    case Verify(orderId, paymentId) => orderId != o.id && paymentId == payment
    case Deliver(e) => IsGrantEvent(e) && e.orderId != Some(o.id) && e.paymentId == Some(payment)
    case _ => false
  }

  ghost predicate Grants(o: Order, run: seq<Entry>, payment: string)
  {
    exists k | 0 <= k < |run| :: GrantOf(o, run[k].step) == Some(payment)
  }

  ghost predicate RefundsPayment(o: Order, run: seq<Entry>, payment: Option<string>)
  {
    exists k | 0 <= k < |run| :: IsRefundOf(o, run[k].step) && run[k].step.event.paymentId == payment
  }

  /** No payment that grants the order is, or comes to be, another order's. */
  ghost predicate PaymentsAreOwn(b: Books, run: seq<Entry>, i: nat)
    requires i < |b.orders|
  {
    forall payment | Grants(b.orders[i], run, payment) ::
      && (forall j | 0 <= j < |b.orders| && j != i :: b.orders[j].paymentId != Some(payment))
      && (forall k | 0 <= k < |run| :: !PaysOther(b.orders[i], run[k].step, payment))
  }

  /** As `PaymentsAreOwn`, of the orders alone and for the payments of `run`. */
  ghost predicate OthersUnpaidBy(orders: seq<Order>, i: nat, o: Order, run: seq<Entry>)
  {
    forall j | 0 <= j < |orders| && j != i ::
      orders[j].paymentId.Some? ==> !Grants(o, run, orders[j].paymentId.value)
  }

  lemma {:induction false} GrantingMoves(b: Books, orderId: string, paymentId: string, now: int, i: nat)
    requires UniqueIds(b.orders) && i < |b.orders|
    requires orderId == b.orders[i].id ==> !PaymentIdUsedElsewhere(b.orders, i, paymentId)
    ensures GrantingMovesOnly(b.orders, Granting(b, orderId, paymentId, now).1.orders, i, orderId, paymentId)
    ensures orderId == b.orders[i].id ==> Granting(b, orderId, paymentId, now).0 != PaymentIdTaken
  {
    hide Extended, PaymentIdUsedElsewhere, UniqueIds;
    FindUnique(b.orders, i);
  }

  /** What a grant of the order `orderId` leaves of the orders. */
  ghost predicate GrantingMovesOnly(orders: seq<Order>, later: seq<Order>, i: nat, orderId: string, paymentId: string)
    requires i < |orders|
  {
    && |later| == |orders|
    && StandingOf(later[i]) ==
       (if orderId == orders[i].id && IsUnpaid(orders[i].status) then Standing(Paid, Some(paymentId))
        else StandingOf(orders[i]))
    && forall j | 0 <= j < |later| && j != i ::
         || later[j].paymentId == orders[j].paymentId
         || (orderId != orders[i].id && later[j].paymentId == Some(paymentId))
  }

  /** `later` are the orders after `step`: order `i` moved as it should, and no other one took a
      payment but as `PaysOther` says. */
  ghost predicate MovesFor(orders: seq<Order>, later: seq<Order>, i: nat, step: Step)
    requires i < |orders|
  {
    && |later| == |orders|
    && StandingOf(later[i]) == Moved(orders[i], StandingOf(orders[i]), step)
    && forall j | 0 <= j < |later| && j != i ::
         || later[j].paymentId == orders[j].paymentId
         || (later[j].paymentId.Some? && PaysOther(orders[i], step, later[j].paymentId.value))
  }

  lemma {:induction false} GrantEventMoves(b: Books, e: WebhookEvent, now: int, i: nat, at: nat)
    requires UniqueIds(b.orders) && i < |b.orders| && Find(b.orders, b.orders[i].id) == Some(i)
    requires IsGrantEvent(e) && e.orderId.Some? && Find(b.orders, e.orderId.value) == Some(at)
    requires GrantOf(b.orders[i], Deliver(e)).Some? ==>
               !PaymentIdUsedElsewhere(b.orders, i, GrantOf(b.orders[i], Deliver(e)).value)
    ensures MovesFor(b.orders, EventEffect(b, e, now).1.orders, i, Deliver(e))
    ensures e.orderId == Some(b.orders[i].id) ==> EventEffect(b, e, now).0 != DatabaseFailure
  {
    hide Granting, PaymentIdUsedElsewhere, UniqueIds, Find;
    if e.paymentId.Some? && e.amount == Some(b.orders[at].amount) && e.currency == Some(b.orders[at].currency) {
      GrantingMoves(b, e.orderId.value, e.paymentId.value, now, i);
    }
  }

  lemma {:induction false} OtherEventMoves(b: Books, e: WebhookEvent, now: int, i: nat, at: nat)
    requires i < |b.orders| && Find(b.orders, b.orders[i].id) == Some(i)
    requires !IsGrantEvent(e) && e.orderId.Some? && Find(b.orders, e.orderId.value) == Some(at)
    ensures MovesFor(b.orders, EventEffect(b, e, now).1.orders, i, Deliver(e))
    ensures EventEffect(b, e, now).0 != DatabaseFailure
  {
    hide Granting, Find, Shortened;
  }

  lemma {:induction false} EffectMoves(b: Books, e: WebhookEvent, now: int, i: nat)
    requires UniqueIds(b.orders) && i < |b.orders|
    requires GrantOf(b.orders[i], Deliver(e)).Some? ==>
               !PaymentIdUsedElsewhere(b.orders, i, GrantOf(b.orders[i], Deliver(e)).value)
    ensures MovesFor(b.orders, EventEffect(b, e, now).1.orders, i, Deliver(e))
    ensures e.orderId == Some(b.orders[i].id) ==> EventEffect(b, e, now).0 != DatabaseFailure
  {
    FindUnique(b.orders, i);
    hide Granting, Refunding, PaymentIdUsedElsewhere, UniqueIds;
    if e.orderId.Some? && Find(b.orders, e.orderId.value).Some? {
      var at := Find(b.orders, e.orderId.value).value;
      if IsGrantEvent(e) {
        GrantEventMoves(b, e, now, i, at);
      } else {
        OtherEventMoves(b, e, now, i, at);
      }
    }
  }

  /** One transaction, seen from one order: it moves as its own payments and refunds say, unless
      the event was handled before, and no other order takes a payment that could grant it. */
  lemma {:induction false} StepMoves(b: Books, e: Entry, i: nat, o: Order, run: seq<Entry>)
    requires UniqueIds(b.orders) && i < |b.orders| && MovesOn(o, b.orders[i])
    requires OthersUnpaidBy(b.orders, i, o, run) && e in run
    requires forall payment | Grants(o, run, payment) :: !PaysOther(o, e.step, payment)
    ensures |b.orders| <= |Do(b, e).orders|
    ensures OthersUnpaidBy(Do(b, e).orders, i, o, run)
    ensures
      StandingOf(Do(b, e).orders[i]) ==
      if e.step.Deliver? && e.step.event.id in b.events then StandingOf(b.orders[i])
      else Moved(o, StandingOf(b.orders[i]), e.step)
  {
    GrantIsFree(b, e, i, o, run);
    hide Granting, EventEffect, Extended, Moved, GrantOf, Grants, PaymentIdUsedElsewhere, UniqueIds;
    match e.step
    case Verify(orderId, paymentId) => VerifyMoves(b, e, i, o, run);
    case Deliver(event) => EffectMoves(b, event, e.at, i);
    case _ => OtherStepMoves(b, e, i, o);
  }

  lemma {:induction false} GrantIsFree(b: Books, e: Entry, i: nat, o: Order, run: seq<Entry>)
    requires i < |b.orders| && MovesOn(o, b.orders[i]) && OthersUnpaidBy(b.orders, i, o, run) && e in run
    ensures
      var grant := GrantOf(b.orders[i], e.step);
      && grant == GrantOf(o, e.step)
      && (grant.Some? ==> !PaymentIdUsedElsewhere(b.orders, i, grant.value))
  {
    var k :| 0 <= k < |run| && run[k] == e;
    var grant := GrantOf(o, e.step);
    if grant.Some? {
      assert Grants(o, run, grant.value);
    }
  }

  lemma {:induction false} VerifyMoves(b: Books, e: Entry, i: nat, o: Order, run: seq<Entry>)
    requires UniqueIds(b.orders) && i < |b.orders| && MovesOn(o, b.orders[i]) && e.step.Verify?
    requires OthersUnpaidBy(b.orders, i, o, run)
    requires forall payment | Grants(o, run, payment) :: !PaysOther(o, e.step, payment)
    requires e.step.orderId == o.id ==> !PaymentIdUsedElsewhere(b.orders, i, e.step.paymentId)
    ensures |b.orders| == |Do(b, e).orders|
    ensures OthersUnpaidBy(Do(b, e).orders, i, o, run)
    ensures StandingOf(Do(b, e).orders[i]) == Moved(o, StandingOf(b.orders[i]), e.step)
  {
    hide Granting, Grants, PaymentIdUsedElsewhere, UniqueIds;
    GrantingMoves(b, e.step.orderId, e.step.paymentId, e.at, i);
  }

  lemma {:induction false} OtherStepMoves(b: Books, e: Entry, i: nat, o: Order)
    requires i < |b.orders| && !e.step.Verify? && !e.step.Deliver?
    ensures |b.orders| <= |Do(b, e).orders|
    ensures StandingOf(Do(b, e).orders[i]) == StandingOf(b.orders[i]) == Moved(o, StandingOf(b.orders[i]), e.step)
    ensures forall j | 0 <= j < |Do(b, e).orders| ::
              Do(b, e).orders[j].paymentId == if j < |b.orders| then b.orders[j].paymentId else None
  {
    hide Extended;
  }

  // ---- However the events arrive ----

  /** An event id stands for one event: none is new under a handled id, and none is shared. */
  ghost predicate EventIdsAreFresh(events: set<string>, run: seq<Entry>)
  {
    && (forall i | 0 <= i < |run| :: run[i].step.Deliver? ==> run[i].step.event.id !in events)
    && (forall i, j | 0 <= i < j < |run| ::
          run[i].step.Deliver? && run[j].step.Deliver? && run[i].step.event.id == run[j].step.event.id
          ==> run[i].step.event == run[j].step.event)
  }

  /** Only delivered events are handled. */
  lemma {:induction false} HandledWereDelivered(b: Books, run: seq<Entry>, id: string)
    requires id in Run(b, run).events && id !in b.events
    ensures exists i | 0 <= i < |run| :: run[i].step.Deliver? && run[i].step.event.id == id
  {
    var n := |run| - 1;
    var before := Run(b, run[..n]);
    NewlyHandled(before, run[n], id);
    hide Do;
    if id in before.events {
      HandledWereDelivered(b, run[..n], id);
      var i :| 0 <= i < n && run[..n][i].step.Deliver? && run[..n][i].step.event.id == id;
      assert run[i] == run[..n][i];
    }
  }

  lemma {:induction false} NewlyHandled(b: Books, e: Entry, id: string)
    ensures id in Do(b, e).events && id !in b.events ==> e.step.Deliver? && e.step.event.id == id
  {
    hide Granting, EventEffect, Extended;
    match e.step
    case Verify(orderId, paymentId) => GrantingMovesNoEvents(b, orderId, paymentId, e.at);
    case Deliver(event) => EffectHandlesNoEvents(b, event, e.at);
    case _ =>
  }

  lemma {:induction false} GrantingMovesNoEvents(b: Books, orderId: string, paymentId: string, now: int)
    ensures Granting(b, orderId, paymentId, now).1.events == b.events
  {
    hide Extended, PaymentIdUsedElsewhere;
  }

  lemma {:induction false} EffectHandlesNoEvents(b: Books, e: WebhookEvent, now: int)
    ensures EventEffect(b, e, now).1.events == b.events
  {
    hide Granting;
    if e.orderId.Some? && Find(b.orders, e.orderId.value).Some? && e.paymentId.Some? {
      GrantingMovesNoEvents(b, b.orders[Find(b.orders, e.orderId.value).value].id, e.paymentId.value, now);
    }
  }

  /** What holds of the books after a run from `b`, seen from order `i`. */
  ghost predicate KeptFor(b: Books, run: seq<Entry>, whole: seq<Entry>, i: nat)
    requires i < |b.orders|
  {
    var later := Run(b, run);
    && UniqueIds(later.orders) && i < |later.orders| && MovesOn(b.orders[i], later.orders[i])
    && OthersUnpaidBy(later.orders, i, b.orders[i], whole)
  }

  lemma {:induction false} RunKeepsFor(b: Books, run: seq<Entry>, whole: seq<Entry>, i: nat)
    requires UniqueIds(b.orders) && i < |b.orders| && PaymentsAreOwn(b, whole, i) && run <= whole
    ensures KeptFor(b, run, whole, i)
  {
    RunMovesOn(b, run);
    if run == [] {
      assert OthersUnpaidBy(b.orders, i, b.orders[i], whole);
    } else {
      var n := |run| - 1;
      RunKeepsFor(b, run[..n], whole, i);
      assert run[n] == whole[n];
      hide Do;
      StepMoves(Run(b, run[..n]), run[n], i, b.orders[i], whole);
    }
  }

  /** Where a run leaves order `i`. */
  function StandingAfter(b: Books, run: seq<Entry>, i: nat): Standing
    requires i < |b.orders|
  {
    RunMovesOn(b, run);
    StandingOf(Run(b, run).orders[i])
  }

  ghost predicate AnyGrant(o: Order, run: seq<Entry>)
  {
    exists k | 0 <= k < |run| :: GrantOf(o, run[k].step).Some?
  }

  ghost predicate AnyRefund(o: Order, run: seq<Entry>)
  {
    exists k | 0 <= k < |run| :: IsRefundOf(o, run[k].step)
  }

  ghost predicate AnyFailure(o: Order, run: seq<Entry>)
  {
    exists k | 0 <= k < |run| :: IsFailureOf(o, run[k].step)
  }

  /** All that the events seen so far say of where an order that started unpaid stands. */
  ghost predicate FitsUnpaid(o: Order, run: seq<Entry>, s: Standing)
  {
    && (s.status == Paid ==> s.paymentId.Some? && Grants(o, run, s.paymentId.value)
                             && !RefundsPayment(o, run, s.paymentId))
    && (s.status == Refunded ==> AnyRefund(o, run))
    && (IsUnpaid(s.status) ==> !AnyGrant(o, run) && !AnyRefund(o, run))
    && (s.status == Failed ==> o.status == Failed || AnyFailure(o, run))
    && (s.status == Created ==> o.status == Created && !AnyFailure(o, run))
  }

  /** The same for an order that started paid. */
  ghost predicate FitsPaid(o: Order, run: seq<Entry>, s: Standing)
  {
    && !IsUnpaid(s.status) && s.paymentId == o.paymentId
    && (s.status == Refunded <==> RefundsPayment(o, run, o.paymentId))
  }

  ghost predicate Fits(o: Order, run: seq<Entry>, s: Standing)
  {
    && (IsUnpaid(o.status) ==> FitsUnpaid(o, run, s))
    && (o.status == Paid ==> FitsPaid(o, run, s))
    && (o.status == Refunded ==> s.status == Refunded)
  }

  /** One more step is seen; nothing seen is forgotten. */
  lemma {:induction false} SeenMore(o: Order, run: seq<Entry>, e: Entry)
    ensures forall p :: Grants(o, run + [e], p) <==> Grants(o, run, p) || GrantOf(o, e.step) == Some(p)
    ensures forall p :: RefundsPayment(o, run + [e], p) <==>
                          RefundsPayment(o, run, p) || (IsRefundOf(o, e.step) && e.step.event.paymentId == p)
    ensures AnyGrant(o, run + [e]) <==> AnyGrant(o, run) || GrantOf(o, e.step).Some?
    ensures AnyRefund(o, run + [e]) <==> AnyRefund(o, run) || IsRefundOf(o, e.step)
    ensures AnyFailure(o, run + [e]) <==> AnyFailure(o, run) || IsFailureOf(o, e.step)
  {
    hide GrantOf, IsRefundOf, IsFailureOf;
    var all := run + [e];
    assert all[|run|] == e && forall k | 0 <= k < |run| :: all[k] == run[k];
  }

  lemma {:induction false} MovedFits(o: Order, run: seq<Entry>, s: Standing, e: Entry)
    requires Fits(o, run, s)
    ensures Fits(o, run + [e], Moved(o, s, e.step))
  {
    SeenMore(o, run, e);
    RefundIsAny(o, run);
    hide Grants, RefundsPayment, AnyGrant, AnyRefund, AnyFailure, GrantOf;
    GrantIsNoRefund(o, e.step);
  }

  lemma {:induction false} GrantIsNoRefund(o: Order, step: Step)
    ensures GrantOf(o, step).Some? ==> !IsRefundOf(o, step) && !IsFailureOf(o, step)
    ensures IsRefundOf(o, step) ==> !IsFailureOf(o, step)
  {
  }

  /** A step seen before, seen again. */
  lemma {:induction false} RepeatFits(o: Order, run: seq<Entry>, s: Standing, e: Entry, k: nat)
    requires Fits(o, run, s) && k < |run| && run[k].step == e.step
    ensures Fits(o, run + [e], s)
  {
    SeenMore(o, run, e);
    hide GrantOf, IsRefundOf, IsFailureOf;
    assert forall p :: GrantOf(o, run[k].step) == Some(p) ==> Grants(o, run, p);
    hide Grants;
  }

  /** Where an order stands is always as the events seen so far say. */
  lemma {:induction false} RunFits(b: Books, run: seq<Entry>, whole: seq<Entry>, i: nat)
    requires UniqueIds(b.orders) && i < |b.orders| && PaymentsAreOwn(b, whole, i) && run <= whole
    requires EventIdsAreFresh(b.events, whole)
    ensures Fits(b.orders[i], run, StandingAfter(b, run, i))
  {
    var o := b.orders[i];
    if run == [] {
      hide GrantOf;
    } else {
      var n := |run| - 1;
      var front, e := run[..n], run[n];
      assert run == front + [e] && e == whole[n];
      RunFits(b, front, whole, i);
      RunKeepsFor(b, front, whole, i);
      var before := Run(b, front);
      hide Do, Fits, Moved;
      StepMoves(before, e, i, o, whole);
      MovedFits(o, front, StandingOf(before.orders[i]), e);
      if e.step.Deliver? && e.step.event.id in before.events {
        HandledWereDelivered(b, front, e.step.event.id);
        var k :| 0 <= k < n && front[k].step.Deliver? && front[k].step.event.id == e.step.event.id;
        assert front[k] == whole[k];
        RepeatFits(o, front, StandingOf(before.orders[i]), e, k);
      }
    }
  }

  // ---- The same events, delivered another way ----

  ghost predicate HasStep(run: seq<Entry>, step: Step)
  {
    exists j | 0 <= j < |run| :: run[j].step == step
  }

  ghost predicate StepsWithin(run: seq<Entry>, other: seq<Entry>)
  {
    forall i | 0 <= i < |run| :: HasStep(other, run[i].step)
  }

  /** The same steps in any order, at any times, with any repeats. */
  ghost predicate SameSteps(run: seq<Entry>, other: seq<Entry>)
  {
    StepsWithin(run, other) && StepsWithin(other, run)
  }

  lemma {:induction false} WithinSeesLess(o: Order, run: seq<Entry>, other: seq<Entry>)
    requires StepsWithin(run, other)
    ensures forall p :: Grants(o, run, p) ==> Grants(o, other, p)
    ensures forall p :: RefundsPayment(o, run, p) ==> RefundsPayment(o, other, p)
    ensures AnyGrant(o, run) ==> AnyGrant(o, other)
    ensures AnyRefund(o, run) ==> AnyRefund(o, other)
    ensures AnyFailure(o, run) ==> AnyFailure(o, other)
  {
    hide GrantOf, IsRefundOf, IsFailureOf;
    forall k | 0 <= k < |run|
      ensures exists j :: 0 <= j < |other| && other[j].step == run[k].step
    {
      assert HasStep(other, run[k].step);
    }
  }

  /** What is asked of the events and payments is asked of their steps only. */
  lemma {:induction false} SameStepsAsFine(b: Books, run: seq<Entry>, other: seq<Entry>, i: nat)
    requires i < |b.orders| && PaymentsAreOwn(b, run, i) && EventIdsAreFresh(b.events, run) && SameSteps(run, other)
    ensures PaymentsAreOwn(b, other, i) && EventIdsAreFresh(b.events, other)
  {
    WithinSeesLess(b.orders[i], other, run);
    hide Grants, PaysOther;
    forall k | 0 <= k < |other|
      ensures exists j :: 0 <= j < |run| && run[j].step == other[k].step
    {
      assert HasStep(run, other[k].step);
    }
    forall k, l | 0 <= k < l < |other| && other[k].step.Deliver? && other[l].step.Deliver?
                  && other[k].step.event.id == other[l].step.event.id
      ensures other[k].step.event == other[l].step.event
    {
      var m :| 0 <= m < |run| && run[m].step == other[k].step;
      var n :| 0 <= n < |run| && run[n].step == other[l].step;
      if m < n {
        assert run[m].step.event == run[n].step.event;
      } else if n < m {
        assert run[n].step.event == run[m].step.event;
      }
    }
  }

  /** Every payment that grants the order is fully refunded. */
  ghost predicate AllRefunded(o: Order, run: seq<Entry>)
  {
    forall payment | Grants(o, run, payment) :: RefundsPayment(o, run, Some(payment))
  }

  /** When all ways to deliver the events end alike: the order was paid or refunded before, or
      nothing grants it, or nothing refunds it, or all that grants it is refunded. */
  ghost predicate EndsOneWay(o: Order, run: seq<Entry>)
  {
    !IsUnpaid(o.status) || !AnyGrant(o, run) || !AnyRefund(o, run) || AllRefunded(o, run)
  }

  lemma {:induction false} FitsOneWay(o: Order, run: seq<Entry>, other: seq<Entry>, s: Standing, t: Standing)
    requires EndsOneWay(o, run) && SameSteps(run, other) && Fits(o, run, s) && Fits(o, other, t)
    ensures s.status == t.status
  {
    WithinSeesLess(o, run, other);
    WithinSeesLess(o, other, run);
    if s.status == Paid && IsUnpaid(o.status) {
      GrantIsAny(o, run, s.paymentId.value);
    }
    if t.status == Paid && IsUnpaid(o.status) {
      GrantIsAny(o, other, t.paymentId.value);
    }
    hide Grants, RefundsPayment, AnyGrant, AnyRefund, AnyFailure;
  }

  lemma {:induction false} GrantIsAny(o: Order, run: seq<Entry>, payment: string)
    requires Grants(o, run, payment)
    ensures AnyGrant(o, run)
  {
    hide GrantOf;
  }

  lemma {:induction false} RunConcat(b: Books, e: Entry, rest: seq<Entry>)
    ensures Run(b, [e] + rest) == Run(Do(b, e), rest)
  {
    hide Do;
    if rest == [] {
      assert [e] + rest == [e] && [e][..0] == [];
    } else {
      var n := |rest| - 1;
      assert ([e] + rest)[..n + 1] == [e] + rest[..n];
      RunConcat(b, e, rest[..n]);
    }
  }

  /** An order paid by a payment that nothing refunds stays paid by it. */
  lemma {:induction false} PaidStays(b: Books, run: seq<Entry>, i: nat)
    requires UniqueIds(b.orders) && i < |b.orders| && b.orders[i].status == Paid
    requires !RefundsPayment(b.orders[i], run, b.orders[i].paymentId)
    ensures StandingAfter(b, run, i) == StandingOf(b.orders[i])
  {
    if run != [] {
      var n := |run| - 1;
      assert forall k | 0 <= k < n :: run[..n][k] == run[k];
      PaidStays(b, run[..n], i);
      RunMovesOn(b, run[..n]);
      hide Do, Run;
      StepMovesOn(Run(b, run[..n]), run[n]);
      RunOnce(b, run);
      PaidStaysStep(Run(b, run[..n]), run[n], i, b.orders[i]);
    }
  }

  lemma {:induction false} RunOnce(b: Books, run: seq<Entry>)
    requires run != []
    ensures Run(b, run) == Do(Run(b, run[..|run| - 1]), run[|run| - 1])
  {
    hide Do;
  }

  lemma {:induction false} PaidStaysStep(b: Books, e: Entry, i: nat, o: Order)
    requires UniqueIds(b.orders) && i < |b.orders| && b.orders[i].status == Paid && b.orders[i].id == o.id
    requires IsRefundOf(o, e.step) ==> e.step.event.paymentId != b.orders[i].paymentId
    ensures i < |Do(b, e).orders| && StandingOf(Do(b, e).orders[i]) == StandingOf(b.orders[i])
  {
    FindUnique(b.orders, i);
    hide Extended, PaymentIdUsedElsewhere, UniqueIds;
  }

  /** Delivered first, one step comes to stand before all others. */
  lemma {:induction false} FirstIsSame(run: seq<Entry>, k: nat)
    requires k < |run|
    ensures SameSteps(run, [run[k]] + run)
  {
    var other := [run[k]] + run;
    forall j | 0 <= j < |run|
      ensures HasStep(other, run[j].step)
    {
      assert other[j + 1] == run[j];
    }
    forall j | 0 <= j < |other|
      ensures HasStep(run, other[j].step)
    {
      assert other[j] == if j == 0 then run[k] else run[j - 1];
    }
  }

  /** A grant delivered first pays the order for good when its payment is not refunded. */
  lemma {:induction false} GrantFirst(b: Books, run: seq<Entry>, i: nat, k: nat)
    requires UniqueIds(b.orders) && i < |b.orders| && PaymentsAreOwn(b, run, i) && EventIdsAreFresh(b.events, run)
    requires IsUnpaid(b.orders[i].status) && k < |run| && GrantOf(b.orders[i], run[k].step).Some?
    requires !RefundsPayment(b.orders[i], run, GrantOf(b.orders[i], run[k].step))
    ensures StandingAfter(b, [run[k]] + run, i).status == Paid
  {
    var e, o := run[k], b.orders[i];
    RunKeepsFor(b, [], run, i);
    StepMoves(b, e, i, o, run);
    StepMovesOn(b, e);
    RunConcat(b, e, run);
    hide Do, Run;
    var first := Do(b, e);
    assert MovesOn(o, first.orders[i]);
    assert GrantOf(o, e.step).Some? && StandingOf(first.orders[i]) == Standing(Paid, GrantOf(o, e.step));
    PaidStays(first, run, i);
  }

  /** A full refund delivered first closes an order that was not paid. */
  lemma {:induction false} RefundFirst(b: Books, run: seq<Entry>, i: nat, k: nat)
    requires UniqueIds(b.orders) && i < |b.orders| && PaymentsAreOwn(b, run, i) && EventIdsAreFresh(b.events, run)
    requires IsUnpaid(b.orders[i].status) && k < |run| && IsRefundOf(b.orders[i], run[k].step)
    ensures StandingAfter(b, [run[k]] + run, i).status == Refunded
  {
    var e, o := run[k], b.orders[i];
    RunKeepsFor(b, [], run, i);
    StepMoves(b, e, i, o, run);
    RunConcat(b, e, run);
    GrantIsNoRefund(o, e.step);
    hide Do, Run;
    RunMovesOn(Do(b, e), run);
    assert MovesOn(Do(b, e).orders[i], Run(Do(b, e), run).orders[i]);
  }

  /** All ways to deliver the same events, in any order and with any repeats, leave the order in
      the same status if and only if it was paid or refunded before, or there is no grant, or no
      full refund, or every payment that grants it is refunded too. */
  lemma {:induction false} DeliveriesEndAlikeExactly(b: Books, run: seq<Entry>, i: nat)
    requires UniqueIds(b.orders) && i < |b.orders| && PaymentsAreOwn(b, run, i) && EventIdsAreFresh(b.events, run)
    ensures
      (forall other | SameSteps(run, other) :: StandingAfter(b, other, i).status == StandingAfter(b, run, i).status)
      <==> EndsOneWay(b.orders[i], run)
  {
    var o := b.orders[i];
    hide StandingAfter, Fits, SameSteps, PaymentsAreOwn, EventIdsAreFresh, UniqueIds, EndsOneWay;
    if EndsOneWay(o, run) {
      forall other | SameSteps(run, other)
        ensures StandingAfter(b, other, i).status == StandingAfter(b, run, i).status
      {
        SameStepsAsFine(b, run, other, i);
        RunFits(b, run, run, i);
        RunFits(b, other, other, i);
        FitsOneWay(o, run, other, StandingAfter(b, run, i), StandingAfter(b, other, i));
      }
    } else {
      var paid, refunded := TwoEnds(b, run, i);
      assert StandingAfter(b, paid, i).status != StandingAfter(b, refunded, i).status;
    }
  }

  /** Two ways to deliver the same events that end apart. */
  lemma {:induction false} TwoEnds(b: Books, run: seq<Entry>, i: nat) returns (paid: seq<Entry>, refunded: seq<Entry>)
    requires UniqueIds(b.orders) && i < |b.orders| && PaymentsAreOwn(b, run, i) && EventIdsAreFresh(b.events, run)
    requires !EndsOneWay(b.orders[i], run)
    ensures SameSteps(run, paid) && StandingAfter(b, paid, i).status == Paid
    ensures SameSteps(run, refunded) && StandingAfter(b, refunded, i).status == Refunded
  {
    hide StandingAfter, SameSteps, PaymentsAreOwn, EventIdsAreFresh, UniqueIds, EndsOneWay, IsRefundOf, GrantOf;
    var g, r := GrantAndRefund(b.orders[i], run);
    FirstIsSame(run, g);
    FirstIsSame(run, r);
    GrantFirst(b, run, i, g);
    RefundFirst(b, run, i, r);
    paid, refunded := [run[g]] + run, [run[r]] + run;
  }

  /** An unrefunded grant and a refund, when the ends may differ. */
  lemma {:induction false} GrantAndRefund(o: Order, run: seq<Entry>) returns (g: nat, r: nat)
    requires !EndsOneWay(o, run)
    ensures IsUnpaid(o.status)
    ensures g < |run| && GrantOf(o, run[g].step).Some? && !RefundsPayment(o, run, GrantOf(o, run[g].step))
    ensures r < |run| && IsRefundOf(o, run[r].step)
  {
    hide GrantOf, IsRefundOf, RefundsPayment;
    var payment :| Grants(o, run, payment) && !RefundsPayment(o, run, Some(payment));
    g :| 0 <= g < |run| && GrantOf(o, run[g].step) == Some(payment);
    r :| 0 <= r < |run| && IsRefundOf(o, run[r].step);
  }

  // ---- One payment for the order ----

  /** How far one step can take the order. */
  function Target(o: Order, step: Step): nat
  {
    if GrantOf(o, step).Some? then Rank(Paid)
    else if IsRefundOf(o, step) then Rank(Refunded)
    else if IsFailureOf(o, step) then Rank(Failed)
    else 0
  }

  function Furthest(o: Order, run: seq<Entry>): nat
  {
    if run == [] then Rank(o.status)
    else Max(Furthest(o, run[..|run| - 1]), Target(o, run[|run| - 1].step))
  }

  /** All that grants or fully refunds the order is about this payment. Failed attempts have
      payments of their own. */
  ghost predicate OnePayment(o: Order, run: seq<Entry>, payment: string)
  {
    && (o.status == Paid ==> o.paymentId == Some(payment))
    && (forall p | Grants(o, run, p) :: p == payment)
    && (forall p | RefundsPayment(o, run, p) :: p == Some(payment))
  }

  lemma {:induction false} FurthestIsSeen(o: Order, run: seq<Entry>)
    ensures Furthest(o, run) ==
            if o.status == Refunded || AnyRefund(o, run) then Rank(Refunded)
            else if o.status == Paid || AnyGrant(o, run) then Rank(Paid)
            else if o.status == Failed || AnyFailure(o, run) then Rank(Failed)
            else Rank(Created)
  {
    if run != [] {
      var n := |run| - 1;
      FurthestIsSeen(o, run[..n]);
      SeenMore(o, run[..n], run[n]);
      assert run == run[..n] + [run[n]];
      GrantIsNoRefund(o, run[n].step);
      hide AnyGrant, AnyRefund, AnyFailure, GrantOf, IsRefundOf, IsFailureOf;
    }
  }

  lemma {:induction false} RefundHasPayment(o: Order, run: seq<Entry>)
    requires AnyRefund(o, run)
    ensures exists p :: RefundsPayment(o, run, p)
  {
    var k :| 0 <= k < |run| && IsRefundOf(o, run[k].step);
    assert RefundsPayment(o, run, run[k].step.event.paymentId);
  }

  lemma {:induction false} RefundIsAny(o: Order, run: seq<Entry>)
    ensures forall p :: RefundsPayment(o, run, p) ==> AnyRefund(o, run)
  {
    hide IsRefundOf;
  }

  /** With one payment for the order, its final status is the furthest that any of its events
      reaches, failed attempts under other payments among them. */
  lemma {:induction false} FinalStatusIsFurthest(b: Books, run: seq<Entry>, i: nat, payment: string)
    requires UniqueIds(b.orders) && i < |b.orders| && PaymentsAreOwn(b, run, i) && EventIdsAreFresh(b.events, run)
    requires OnePayment(b.orders[i], run, payment)
    ensures Rank(StandingAfter(b, run, i).status) == Furthest(b.orders[i], run)
  {
    var o, s := b.orders[i], StandingAfter(b, run, i);
    RunFits(b, run, run, i);
    FurthestIsSeen(o, run);
    if AnyRefund(o, run) {
      RefundHasPayment(o, run);
    }
    RefundIsAny(o, run);
    if s.status == Paid && IsUnpaid(o.status) {
      GrantIsAny(o, run, s.paymentId.value);
    }
    hide Grants, RefundsPayment, AnyGrant, AnyRefund, AnyFailure, PaymentsAreOwn, EventIdsAreFresh;
  }

  /** So two deliveries of the same events end with the order in the same status. */
  lemma {:induction false} DeliveryOrderDoesNotMatter(
      b: Books, run: seq<Entry>, other: seq<Entry>, i: nat, payment: string)
    requires UniqueIds(b.orders) && i < |b.orders| && PaymentsAreOwn(b, run, i) && EventIdsAreFresh(b.events, run)
    requires OnePayment(b.orders[i], run, payment) && SameSteps(run, other)
    ensures StandingAfter(b, other, i).status == StandingAfter(b, run, i).status
  {
    var o := b.orders[i];
    if AnyRefund(o, run) {
      RefundHasPayment(o, run);
    }
    hide Grants, RefundsPayment, SameSteps;
    DeliveriesEndAlikeExactly(b, run, i);
  }
}
