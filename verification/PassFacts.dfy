/** How far a pass can be overrun. A call is let in while the pass has any tokens left, so what
    is used can pass the limit, but never by more than the last call that was let in. */
module PassFacts {
  import opened Text
  import opened Payments
  import opened PaymentFacts

  predicate BoughtBy(b: Books, orderId: string, user: string)
  {
    var found := Find(b.orders, orderId);
    found.Some? && b.orders[found.value].user == Some(user)
  }

  /** This transaction starts or extends the user's pass. */
  predicate Renews(b: Books, e: Entry, user: string)
  {
    match e.step
    case Verify(orderId, paymentId) =>
      BoughtBy(b, orderId, user) && Granting(b, orderId, paymentId, e.at).0 == Granted
    case Deliver(event) =>
      && event.orderId.Some? && BoughtBy(b, event.orderId.value, user)
      && Delivering(b, event, e.at).0 == GrantOutcome(Granted)
    case Claim(purchase, buyer) => buyer == user && !TokenClaimed(b.plays, purchase.token)
    case _ => false
  }

  /** This transaction lets a call of the user in. */
  predicate LetsIn(b: Books, e: Entry, user: string)
  {
    e.step.Reserve? && e.step.user == user && Reserving(b, user, e.step.tokens, e.at).0
  }

  /** The tokens a refund takes out of the user's current pass. */
  function TokensTakenBack(b: Books, e: Entry, user: string): nat
  {
    if e.step.Deliver? && e.step.event.orderId.Some? && BoughtBy(b, e.step.event.orderId.value, user)
       && Delivering(b, e.step.event, e.at).0 == RefundDone
    then
      var o := b.orders[Find(b.orders, e.step.event.orderId.value).value];
      if TakesBackAccess(b, o) && b.access[user].startedAt <= o.paidAt.value then o.tokens else 0
    else 0
  }

  /** What a settled call used above its reservation. */
  function Overshoot(e: Entry, user: string): nat
  {
    if e.step.Add? && e.step.user == user then Max(e.step.change, 0) else 0
  }

  /** What refunds and overshooting calls added since the pass was last renewed or let a call in. */
  function Allowance(b: Books, run: seq<Entry>, user: string): nat
  {
    if run == [] then 0
    else
      var n := |run| - 1;
      var before := Run(b, run[..n]);
      if Renews(before, run[n], user) || LetsIn(before, run[n], user) then 0
      else Allowance(b, run[..n], user) + TokensTakenBack(before, run[n], user) + Overshoot(run[n], user)
  }

  ghost predicate ReservesAtMost(run: seq<Entry>, user: string, most: nat)
  {
    forall i | 0 <= i < |run| :: run[i].step.Reserve? && run[i].step.user == user ==> run[i].step.tokens <= most
  }

  /** Used stays below the limit plus `slack`. A deleted or never bought pass has nothing to keep. */
  ghost predicate Within(b: Books, user: string, slack: nat)
  {
    user in b.access ==>
      var a := b.access[user];
      0 <= a.tokensUsed < a.tokensLimit + slack && 0 <= a.tokensLimit
  }

  lemma {:induction false} GrantingStaysWithin(
      b: Books, orderId: string, paymentId: string, now: int, user: string, slack: nat)
    requires Within(b, user, slack)
    ensures
      var (result, r) := Granting(b, orderId, paymentId, now);
      Within(r, user, if result == Granted && BoughtBy(b, orderId, user) then 1 else slack)
  {
  }

  lemma {:induction false} RefundingStaysWithin(b: Books, i: nat, user: string, slack: nat)
    requires i < |b.orders| && Within(b, user, slack)
    ensures
      var o := b.orders[i];
      var taken :=
        if TakesBackAccess(b, o) && o.user.value == user && b.access[user].startedAt <= o.paidAt.value then o.tokens
        else 0;
      Within(Refunding(b, i), user, slack + taken)
  {
  }

  lemma {:induction false} DeliveringStaysWithin(b: Books, e: Entry, user: string, slack: nat)
    requires e.step.Deliver? && Within(b, user, slack)
    ensures Within(Do(b, e), user, if Renews(b, e, user) then 1 else slack + TokensTakenBack(b, e, user))
  {
    hide Granting, Refunding, PaymentIdUsedElsewhere;
    var event := e.step.event;
    if event.orderId.Some? && Find(b.orders, event.orderId.value).Some? {
      var i := Find(b.orders, event.orderId.value).value;
      RefundingStaysWithin(b, i, user, slack);
      if event.paymentId.Some? {
        GrantingStaysWithin(b, event.orderId.value, event.paymentId.value, e.at, user, slack);
      }
    }
  }

  /** A renewal clears the overrun, a call is only let in below the limit, and anything else
      moves the overrun by what it is allowed for. */
  lemma {:induction false} StepStaysWithin(b: Books, e: Entry, user: string, most: nat, allowed: nat)
    requires 1 <= most && Within(b, user, most + allowed)
    requires e.step.Reserve? && e.step.user == user ==> e.step.tokens <= most
    ensures
      var after :=
        if Renews(b, e, user) || LetsIn(b, e, user) then 0
        else allowed + TokensTakenBack(b, e, user) + Overshoot(e, user);
      Within(Do(b, e), user, most + after)
  {
    match e.step
    case Verify(orderId, paymentId) => GrantingStaysWithin(b, orderId, paymentId, e.at, user, most + allowed);
    case Deliver(event) => DeliveringStaysWithin(b, e, user, most + allowed);
    case _ =>
  }

  /** Over every interleaving of parallel calls, settlements, renewals and refunds, a pass is
      overrun by less than the largest reservation plus what refunds and overshooting calls
      added since it was last renewed or last let a call in. */
  lemma {:induction false} RunStaysWithin(b: Books, run: seq<Entry>, user: string, most: nat)
    requires 1 <= most && Within(b, user, most) && ReservesAtMost(run, user, most)
    ensures Within(Run(b, run), user, most + Allowance(b, run, user))
  {
    if run != [] {
      var n := |run| - 1;
      RunStaysWithin(b, run[..n], user, most);
      StepStaysWithin(Run(b, run[..n]), run[n], user, most, Allowance(b, run[..n], user));
    }
  }

  /** The only events that can take anything back: full refunds that name an order and a payment. */
  predicate CanTakeBack(event: WebhookEvent)
  {
    event.kind == RefundProcessed && event.fullRefund && event.orderId.Some? && event.paymentId.Some?
  }

  /** No event can take anything back, and no call of the user settles above its reservation. */
  ghost predicate NothingAdds(run: seq<Entry>, user: string)
  {
    && (forall i | 0 <= i < |run| :: run[i].step.Deliver? ==> !CanTakeBack(run[i].step.event))
    && (forall i | 0 <= i < |run| :: run[i].step.Add? && run[i].step.user == user ==> run[i].step.change <= 0)
  }

  /** A paid order knows the payment that paid it. */
  ghost predicate PaidHavePayments(b: Books)
  {
    forall i | 0 <= i < |b.orders| :: b.orders[i].status == Paid ==> b.orders[i].paymentId.Some?
  }

  lemma {:induction false} GrantingKeepsPayments(b: Books, orderId: string, paymentId: string, now: int)
    requires PaidHavePayments(b)
    ensures PaidHavePayments(Granting(b, orderId, paymentId, now).1)
  {
    hide Extended, PaymentIdUsedElsewhere, Find;
  }

  lemma {:induction false} EffectKeepsPayments(b: Books, e: WebhookEvent, now: int)
    requires PaidHavePayments(b)
    ensures PaidHavePayments(EventEffect(b, e, now).1)
  {
    hide Granting, Find, Shortened;
    if e.orderId.Some? && Find(b.orders, e.orderId.value).Some? && e.paymentId.Some? {
      GrantingKeepsPayments(b, b.orders[Find(b.orders, e.orderId.value).value].id, e.paymentId.value, now);
    }
  }

  lemma {:induction false} StepKeepsPayments(b: Books, e: Entry)
    requires PaidHavePayments(b)
    ensures PaidHavePayments(Do(b, e))
  {
    hide Granting, EventEffect, Extended, Find;
    match e.step
    case Verify(orderId, paymentId) => GrantingKeepsPayments(b, orderId, paymentId, e.at);
    case Deliver(event) => EffectKeepsPayments(b, event, e.at);
    case _ =>
  }

  lemma {:induction false} RunKeepsPayments(b: Books, run: seq<Entry>)
    requires PaidHavePayments(b)
    ensures PaidHavePayments(Run(b, run))
  {
    if run != [] {
      RunKeepsPayments(b, run[..|run| - 1]);
      hide Do;
      StepKeepsPayments(Run(b, run[..|run| - 1]), run[|run| - 1]);
    }
  }

  lemma {:induction false} OthersTakeNothing(b: Books, e: Entry, user: string)
    requires PaidHavePayments(b) && (e.step.Deliver? ==> !CanTakeBack(e.step.event))
    ensures TokensTakenBack(b, e, user) == 0
  {
    hide Granting, Refunding, Extended;
  }

  lemma {:induction false} NothingToAllow(b: Books, run: seq<Entry>, user: string)
    requires PaidHavePayments(b) && NothingAdds(run, user)
    ensures Allowance(b, run, user) == 0
  {
    if run != [] {
      var n := |run| - 1;
      NothingToAllow(b, run[..n], user);
      RunKeepsPayments(b, run[..n]);
      hide Run, Renews, LetsIn, TokensTakenBack;
      assert run[n].step.Deliver? ==> !CanTakeBack(run[n].step.event);
      OthersTakeNothing(Run(b, run[..n]), run[n], user);
    }
  }

  /** When no event can take anything back and calls settle within what they reserved, use stays
      below the limit plus the largest single reservation, whatever runs in parallel. Partial
      refunds, and refunds that name no order or no payment, make no difference. */
  lemma {:induction false} OverrunsByOneCall(b: Books, run: seq<Entry>, user: string, most: nat)
    requires 1 <= most && Within(b, user, most) && PaidHavePayments(b)
    requires ReservesAtMost(run, user, most) && NothingAdds(run, user)
    ensures Within(Run(b, run), user, most)
  {
    RunStaysWithin(b, run, user, most);
    NothingToAllow(b, run, user);
  }

  // ---- The bound is reached ----

  /** A pass with one token left, a paid order of its current run, and the order's full refund. */
  ghost predicate NearlyUsedUp(b: Books, user: string, i: nat, refund: WebhookEvent, now: int)
  {
    && i < |b.orders| && Find(b.orders, b.orders[i].id) == Some(i)
    && user in b.access
    && var (o, a) := (b.orders[i], b.access[user]);
       && o.status == Paid && o.user == Some(user) && o.paidAt.Some? && a.startedAt <= o.paidAt.value
       && 0 <= a.tokensUsed == a.tokensLimit - 1 && o.tokens <= a.tokensLimit && a.expiresAt > now
       && refund.kind == RefundProcessed && refund.fullRefund && refund.id !in b.events
       && refund.orderId == Some(o.id) && refund.paymentId == o.paymentId
  }

  lemma {:induction false} RunTwo(b: Books, first: Entry, second: Entry)
    ensures Run(b, [first, second]) == Do(Do(b, first), second)
  {
    hide Do;
    assert [first, second][..1] == [first] && [first][..0] == [];
    assert Run(b, [first]) == Do(Run(b, []), first);
  }

  lemma {:induction false} ReservedAtTheEnd(b: Books, user: string, i: nat, refund: WebhookEvent, tokens: nat, now: int)
    requires NearlyUsedUp(b, user, i, refund, now)
    ensures
      var after := Do(b, Entry(Reserve(user, tokens), now));
      && after.orders == b.orders && after.events == b.events
      && after.access == b.access[user := b.access[user].(tokensUsed := b.access[user].tokensLimit - 1 + tokens)]
  {
  }

  lemma {:induction false} RefundTakesBack(b: Books, user: string, i: nat, refund: WebhookEvent, now: int)
    requires i < |b.orders| && Find(b.orders, b.orders[i].id) == Some(i) && user in b.access
    requires b.orders[i].status == Paid && b.orders[i].user == Some(user) && b.orders[i].paidAt.Some?
    requires refund.kind == RefundProcessed && refund.fullRefund && refund.id !in b.events
    requires refund.orderId == Some(b.orders[i].id) && refund.paymentId == b.orders[i].paymentId
    ensures
      var (o, after) := (b.orders[i], Do(b, Entry(Deliver(refund), now)));
      && user in after.access
      && after.access[user] == Shortened(b.access[user], o.days, o.tokens, o.paidAt.value)
  {
    hide Find, Granting, Shortened;
  }

  /** One call and one refund take use past the limit plus that call's reservation, by all that
      the refunded order had bought. */
  lemma {:induction false} RefundReachesBound(
      b: Books, user: string, i: nat, refund: WebhookEvent, tokens: nat, now: int, soon: int)
    requires NearlyUsedUp(b, user, i, refund, now)
    ensures
      var run := [Entry(Reserve(user, tokens), now), Entry(Deliver(refund), soon)];
      var passes := Run(b, run).access;
      && user in passes && passes[user].tokensUsed == passes[user].tokensLimit + tokens - 1 + b.orders[i].tokens
  {
    hide Run, Do, Find;
    ReservedAtTheEnd(b, user, i, refund, tokens, now);
    RefundTakesBack(Do(b, Entry(Reserve(user, tokens), now)), user, i, refund, soon);
    RunTwo(b, Entry(Reserve(user, tokens), now), Entry(Deliver(refund), soon));
  }

  /** The same for a call that settles above its reservation. */
  lemma {:induction false} OvershootReachesBound(b: Books, user: string, tokens: nat, more: nat, now: int, soon: int)
    requires user in b.access && 0 <= b.access[user].tokensUsed == b.access[user].tokensLimit - 1
    requires b.access[user].expiresAt > now
    ensures
      var run := [Entry(Reserve(user, tokens), now), Entry(Add(user, more), soon)];
      var passes := Run(b, run).access;
      && user in passes && passes[user].tokensUsed == passes[user].tokensLimit + tokens - 1 + more
  {
    RunTwo(b, Entry(Reserve(user, tokens), now), Entry(Add(user, more), soon));
  }

  // ---- Exactly when one call bounds the overrun ----

  const NO_BOOKS := Books([], [], {}, map[])

  /** What may come: reservations up to `most`, settlements up to `over` above them, and of refund
      events only those in `refunds`. */
  ghost predicate Allows(run: seq<Entry>, user: string, most: nat, over: nat, refunds: iset<WebhookEvent>)
  {
    && ReservesAtMost(run, user, most)
    && (forall i | 0 <= i < |run| :: run[i].step.Add? && run[i].step.user == user ==> run[i].step.change <= over)
    && (forall i | 0 <= i < |run| ::
          run[i].step.Deliver? && run[i].step.event.kind == RefundProcessed ==> run[i].step.event in refunds)
  }

  /** An order of one token for one day. */
  function SmallOrder(id: string, user: string): Order
  {
    Order(id, Some(user), 1, "INR", 1, 1, Created, None, None)
  }

  /** Order, pay, and use up the pass with one call of `most` tokens. */
  function BuyAndCall(id: string, payment: string, user: string, most: nat, now: int): seq<Entry>
  {
    [Entry(Save(SmallOrder(id, user)), now + 1), Entry(Verify(id, payment), now + 2),
     Entry(Reserve(user, most), now + 3)]
  }

  lemma {:induction false} RunOneMore(b: Books, run: seq<Entry>, e: Entry)
    ensures Run(b, run + [e]) == Do(Run(b, run), e)
  {
    hide Do;
    assert (run + [e])[..|run|] == run;
  }

  lemma {:induction false} UsedUp(id: string, payment: string, user: string, most: nat, now: int)
    ensures
      var paid := SmallOrder(id, user).(status := Paid, paymentId := Some(payment), paidAt := Some(now + 2));
      Run(NO_BOOKS, BuyAndCall(id, payment, user, most, now)) ==
      Books([paid], [], {}, map[user := Access(now + 2 + DAY, 1, most, now + 2)])
  {
    var run := BuyAndCall(id, payment, user, most, now);
    var order := SmallOrder(id, user);
    assert run == [] + [run[0]] + [run[1]] + [run[2]];
    RunOneMore(NO_BOOKS, [], run[0]);
    RunOneMore(NO_BOOKS, [] + [run[0]], run[1]);
    RunOneMore(NO_BOOKS, [] + [run[0]] + [run[1]], run[2]);
    assert Run(NO_BOOKS, []) == NO_BOOKS;
    hide Run;
    OneOrder(order, payment, user, now + 2);
    assert Do(NO_BOOKS, run[0]) == NO_BOOKS.(orders := [order]);
    var paid := order.(status := Paid, paymentId := Some(payment), paidAt := Some(now + 2));
    assert map[user := Access(now + 2 + DAY, 1, 0, now + 2)][user := Access(now + 2 + DAY, 1, most, now + 2)]
        == map[user := Access(now + 2 + DAY, 1, most, now + 2)];
  }

  lemma {:induction false} OneOrder(order: Order, payment: string, user: string, now: int)
    requires order == SmallOrder(order.id, user)
    ensures
      var paid := order.(status := Paid, paymentId := Some(payment), paidAt := Some(now));
      Granting(NO_BOOKS.(orders := [order]), order.id, payment, now) ==
      (Granted, Books([paid], [], {}, map[user := Access(now + DAY, 1, 0, now)]))
  {
    assert Find([order], order.id) == Some(0);
    assert [order][0 := order.(status := Paid, paymentId := Some(payment), paidAt := Some(now))]
        == [order.(status := Paid, paymentId := Some(payment), paidAt := Some(now))];
  }

  lemma {:induction false} BuyingIsAllowed(
      id: string, payment: string, user: string, most: nat, over: nat, refunds: iset<WebhookEvent>, e: Entry, now: int)
    requires e.at == now + 4
    requires (e.step.Deliver? && e.step.event in refunds) || (e.step.Add? && e.step.change <= over)
    ensures
      var run := BuyAndCall(id, payment, user, most, now) + [e];
      InTimeOrder(now, run) && Allows(run, user, most, over, refunds)
  {
  }

  /** A full refund of the order takes the pass past the bound. */
  lemma {:induction false} RefundBreaks(refund: WebhookEvent, user: string, most: nat, now: int)
    requires CanTakeBack(refund)
    ensures
      var bought := BuyAndCall(refund.orderId.value, refund.paymentId.value, user, most, now);
      var run := bought + [Entry(Deliver(refund), now + 4)];
      !Within(Run(NO_BOOKS, run), user, most)
  {
    var id, payment := refund.orderId.value, refund.paymentId.value;
    var run := BuyAndCall(id, payment, user, most, now);
    UsedUp(id, payment, user, most, now);
    RunOneMore(NO_BOOKS, run, Entry(Deliver(refund), now + 4));
    hide Run, BuyAndCall, Do;
    var b := Run(NO_BOOKS, run);
    assert Find(b.orders, id) == Some(0);
    RefundTakesBack(b, user, 0, refund, now + 4);
  }

  /** So does a call that settles one token above its reservation. */
  lemma {:induction false} OvershootBreaks(user: string, most: nat, now: int)
    ensures
      var run := BuyAndCall("order", "payment", user, most, now) + [Entry(Add(user, 1), now + 4)];
      !Within(Run(NO_BOOKS, run), user, most)
  {
    var run := BuyAndCall("order", "payment", user, most, now);
    UsedUp("order", "payment", user, most, now);
    RunOneMore(NO_BOOKS, run, Entry(Add(user, 1), now + 4));
    hide Run, BuyAndCall;
  }

  /** From no books at all, use stays below the limit plus the largest reservation in every run
      with these overshoots and refund events, if and only if there are no overshoots and no event
      is a full refund that names an order and a payment. */
  lemma {:induction false} OneCallBoundsExactly(
      user: string, most: nat, over: nat, refunds: iset<WebhookEvent>, now: int)
    requires 1 <= most
    ensures
      (forall run | InTimeOrder(now, run) && Allows(run, user, most, over, refunds) ::
         Within(Run(NO_BOOKS, run), user, most))
      <==> over == 0 && forall e | e in refunds :: !CanTakeBack(e)
  {
    hide Run, InTimeOrder, CanTakeBack, BuyAndCall;
    if over == 0 && forall e | e in refunds :: !CanTakeBack(e) {
      forall run | InTimeOrder(now, run) && Allows(run, user, most, over, refunds)
        ensures Within(Run(NO_BOOKS, run), user, most)
      {
        AllowsNothing(run, user, most, refunds);
        OverrunsByOneCall(NO_BOOKS, run, user, most);
      }
    } else if over == 0 {
      var e :| e in refunds && CanTakeBack(e);
      RefundNames(e);
      var (id, payment) := (e.orderId.value, e.paymentId.value);
      BuyingIsAllowed(id, payment, user, most, over, refunds, Entry(Deliver(e), now + 4), now);
      RefundBreaks(e, user, most, now);
    } else {
      BuyingIsAllowed("order", "payment", user, most, over, refunds, Entry(Add(user, 1), now + 4), now);
      OvershootBreaks(user, most, now);
    }
  }

  lemma {:induction false} RefundNames(e: WebhookEvent)
    requires CanTakeBack(e)
    ensures e.orderId.Some? && e.paymentId.Some?
  {
  }

  lemma {:induction false} AllowsNothing(run: seq<Entry>, user: string, most: nat, refunds: iset<WebhookEvent>)
    requires Allows(run, user, most, 0, refunds) && forall e | e in refunds :: !CanTakeBack(e)
    ensures NothingAdds(run, user)
  {
  }
}
