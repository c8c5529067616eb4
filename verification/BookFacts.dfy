/** What each transaction changes, and when: told from the rows it meets, for any books at all. */
module BookFacts {
  import opened Text
  import opened Payments
  import opened PaymentFacts
  import opened OrderFacts

  // ---- Calls ----

  /** A pass that has not ended and has tokens left. */
  predicate IsUsable(b: Books, user: string, at: int)
  {
    user in b.access && at < b.access[user].expiresAt && b.access[user].tokensUsed < b.access[user].tokensLimit
  }

  /** Over every run a call is let in exactly while its user's pass runs and has tokens left. It is
      then counted, and nothing else changes; otherwise nothing changes at all. */
  lemma {:induction false} CallIsLetInExactly(b: Books, run: seq<Entry>, k: nat)
    requires k < |run| && run[k].step.Reserve?
    ensures
      var user, tokens := run[k].step.user, run[k].step.tokens;
      var before, after := Run(b, run[..k]), Run(b, run[..k + 1]);
      if IsUsable(before, user, run[k].at) then
        var pass := before.access[user];
        var counted := Access(pass.expiresAt, pass.tokensLimit, pass.tokensUsed + tokens, pass.startedAt);
        after == Books(before.orders, before.plays, before.events, before.access[user := counted])
      else after == before
  {
    hide Run;
    RunOnce(b, run[..k + 1]);
    assert run[..k + 1][..k] == run[..k];
    LetInNow(Run(b, run[..k]), run[k]);
  }

  lemma {:induction false} LetInNow(b: Books, e: Entry)
    requires e.step.Reserve?
    ensures
      var user := e.step.user;
      Do(b, e) == if !IsUsable(b, user, e.at) then b
                  else
                    var pass := b.access[user];
                    b.(access := b.access[user := pass.(tokensUsed := pass.tokensUsed + e.step.tokens)])
  {
  }

  /** A change of what was counted stops at 0, and is for a pass there is. */
  lemma {:induction false} ChangeIsCounted(b: Books, user: string, change: int, at: int)
    ensures
      var after := Do(b, Entry(Add(user, change), at));
      if user in b.access then
        var pass := b.access[user];
        var used := if pass.tokensUsed + change > 0 then pass.tokensUsed + change else 0;
        var counted := Access(pass.expiresAt, pass.tokensLimit, used, pass.startedAt);
        after == Books(b.orders, b.plays, b.events, b.access[user := counted])
      else after == b
  {
  }

  // ---- Purchases ----

  /** A running pass goes on, and keeps what is left of it; a lapsed or missing one starts now.
      Either way nothing of it is used yet. */
  predicate IsExtended(access: map<string, Access>, user: string, days: nat, tokens: nat, at: int, pass: Access)
  {
    && pass.tokensUsed == 0
    && if user in access && at < access[user].expiresAt then
         var was := access[user];
         var left := was.tokensLimit - was.tokensUsed;
         && pass.expiresAt == was.expiresAt + days * 86400 && pass.startedAt == was.startedAt
         && pass.tokensLimit == (if left > 0 then left else 0) + tokens
       else pass.expiresAt == at + days * 86400 && pass.startedAt == at && pass.tokensLimit == tokens
  }

  /** Only this user's pass is another: it is extended by what was bought. */
  ghost predicate OnlyExtends(
      access: map<string, Access>, after: map<string, Access>, user: string, days: nat, tokens: nat, at: int)
  {
    exists pass :: IsExtended(access, user, days, tokens, at, pass) && after == access[user := pass]
  }

  lemma {:induction false} ExtendingExtends(b: Books, user: string, days: nat, tokens: nat, at: int)
    ensures OnlyExtends(b.access, Extend(b, user, days, tokens, at).access, user, days, tokens, at)
  {
    assert IsExtended(b.access, user, days, tokens, at, Extended(b.access, user, days, tokens, at));
  }

  /** The events on record after this step, when it is one. */
  function WithEvent(events: set<string>, step: Step): set<string>
  {
    if step.Deliver? then events + {step.event.id} else events
  }

  predicate IsNew(b: Books, step: Step)
  {
    step.Deliver? ==> step.event.id !in b.events
  }

  /** What can pay for an order pays exactly once: an order not paid or refunded yet, by a payment
      that is no other order's. Then its user's pass is extended by just what was bought, if the
      account is still there. A payment that is another order's changes nothing at all. */
  lemma {:induction false} OrderIsPaidExactly(b: Books, e: Entry, i: nat)
    requires UniqueIds(b.orders) && i < |b.orders| && GrantOf(b.orders[i], e.step).Some? && IsNew(b, e.step)
    ensures
      var o, payment, after := b.orders[i], GrantOf(b.orders[i], e.step), Do(b, e);
      var isTaken := exists j | 0 <= j < |b.orders| :: j != i && b.orders[j].paymentId == payment;
      if o.status == Paid || o.status == Refunded
      then after == Books(b.orders, b.plays, WithEvent(b.events, e.step), b.access)
      else if isTaken then after == b
      else
        var paid := Order(o.id, o.user, o.amount, o.currency, o.days, o.tokens, Paid, payment, Some(e.at));
        && after == Books(b.orders[i := paid], b.plays, WithEvent(b.events, e.step), after.access)
        && (o.user.None? ==> after.access == b.access)
        && (o.user.Some? ==> OnlyExtends(b.access, after.access, o.user.value, o.days, o.tokens, e.at))
  {
    FindUnique(b.orders, i);
    var o, payment := b.orders[i], GrantOf(b.orders[i], e.step).value;
    assert PaymentIdUsedElsewhere(b.orders, i, payment) <==>
           exists j | 0 <= j < |b.orders| :: j != i && b.orders[j].paymentId == Some(payment);
    hide Find, UniqueIds, PaymentIdUsedElsewhere, OnlyExtends, Extend;
    if o.user.Some? {
      var paid := o.(status := Paid, paymentId := Some(payment), paidAt := Some(e.at));
      ExtendingExtends(b.(orders := b.orders[i := paid]), o.user.value, o.days, o.tokens, e.at);
    }
  }

  /** The pass without what the order bought: its days and its tokens, of which it cannot owe any. */
  predicate IsShortened(pass: Access, days: nat, tokens: nat, later: Access)
  {
    && later.startedAt == pass.startedAt && later.tokensUsed == pass.tokensUsed
    && later.expiresAt == pass.expiresAt - days * 86400
    && later.tokensLimit == if pass.tokensLimit > tokens then pass.tokensLimit - tokens else 0
  }

  /** A full refund closes an order, unless the order is paid by another payment. It takes back
      what a paid order bought when the user's pass had begun by then, and no more. */
  lemma {:induction false} OrderIsRefundedExactly(b: Books, e: Entry, i: nat)
    requires UniqueIds(b.orders) && i < |b.orders| && IsRefundOf(b.orders[i], e.step) && IsNew(b, e.step)
    ensures
      var o, after := b.orders[i], Do(b, e);
      var events := WithEvent(b.events, e.step);
      if o.status == Paid && e.step.event.paymentId != o.paymentId
      then after == Books(b.orders, b.plays, events, b.access)
      else
        var closed := Order(o.id, o.user, o.amount, o.currency, o.days, o.tokens, Refunded, o.paymentId, o.paidAt);
        && after == Books(b.orders[i := closed], b.plays, events, after.access)
        && if o.status == Paid && o.paidAt.Some? && o.user.Some? && o.user.value in b.access
              && b.access[o.user.value].startedAt <= o.paidAt.value
           then
             && o.user.value in after.access
             && after.access == b.access[o.user.value := after.access[o.user.value]]
             && IsShortened(b.access[o.user.value], o.days, o.tokens, after.access[o.user.value])
           else after.access == b.access
  {
    FindUnique(b.orders, i);
    hide Find, UniqueIds;
    var o := b.orders[i];
    if TakesBackAccess(b, o) {
      assert b.access[o.user.value := b.access[o.user.value]] == b.access;
    }
  }

  /** A failed payment marks an order that nothing has happened to yet. */
  lemma {:induction false} OrderFailsExactly(b: Books, e: Entry, i: nat)
    requires UniqueIds(b.orders) && i < |b.orders| && IsFailureOf(b.orders[i], e.step) && IsNew(b, e.step)
    ensures
      var o, after := b.orders[i], Do(b, e);
      var failed := Order(o.id, o.user, o.amount, o.currency, o.days, o.tokens, Failed, o.paymentId, o.paidAt);
      after == Books(if o.status == Created then b.orders[i := failed] else b.orders,
                     b.plays, WithEvent(b.events, e.step), b.access)
  {
    FindUnique(b.orders, i);
    hide Find, UniqueIds;
  }

  /** No order is paid, closed or failed by this step. */
  ghost predicate ConcernsNone(b: Books, step: Step)
  {
    forall i | 0 <= i < |b.orders| ::
      !GrantOf(b.orders[i], step).Some? && !IsRefundOf(b.orders[i], step) && !IsFailureOf(b.orders[i], step)
  }

  /** Everything else that a payment provider tells is only put on record, and what it tells again
      is not even that. */
  lemma {:induction false} OtherNewsChangesNothing(b: Books, e: Entry)
    requires e.step.Verify? || e.step.Deliver?
    requires ConcernsNone(b, e.step) || !IsNew(b, e.step)
    ensures Do(b, e) == Books(b.orders, b.plays, WithEvent(b.events, e.step), b.access)
  {
    if !IsNew(b, e.step) {
      assert b.events + {e.step.event.id} == b.events;
    } else if e.step.Verify? {
      var found := Find(b.orders, e.step.orderId);
      hide Find;
      assert found.Some? ==> GrantOf(b.orders[found.value], e.step).Some?;
    } else if e.step.event.orderId.Some? {
      var found := Find(b.orders, e.step.event.orderId.value);
      hide Find, Refunding, Granting;
      if found.Some? {
        var o := b.orders[found.value];
        assert !GrantOf(o, e.step).Some? && !IsRefundOf(o, e.step) && !IsFailureOf(o, e.step);
      }
    }
  }

  // ---- What the caller is told ----

  /** What an event is answered with says just what it was and what became of it. */
  lemma {:induction false} OutcomesTellExactly(b: Books, e: WebhookEvent, at: int)
    ensures
      var outcome, isNew := Delivering(b, e, at).0, e.id !in b.events;
      var isGrant := e.kind == PaymentCaptured || e.kind == OrderPaid;
      var isKnown := exists i | 0 <= i < |b.orders| :: e.orderId == Some(b.orders[i].id);
      && (outcome == Duplicate <==> !isNew)
      && (outcome == Ignored <==> isNew && e.kind == OtherEvent)
      && (outcome == UnknownOrder <==> isNew && e.kind != OtherEvent && e.orderId.Some? && !isKnown)
      && (outcome == Malformed <==>
            isNew && e.kind != OtherEvent && (e.orderId.None? || (isKnown && isGrant && e.paymentId.None?)))
      && (outcome == FailedRecorded <==> isNew && isKnown && e.kind == PaymentFailed)
      && (outcome == PartialRefund <==> isNew && isKnown && e.kind == RefundProcessed && !e.fullRefund)
      && (outcome == RefundDone || outcome == RefundOtherPayment <==>
            isNew && isKnown && e.kind == RefundProcessed && e.fullRefund)
      && (outcome.GrantOutcome? || outcome == DatabaseFailure || outcome == Mismatch <==>
            isNew && isKnown && isGrant && e.paymentId.Some?)
  {
    hide Granting, Refunding;
    if e.orderId.Some? {
      var found := Find(b.orders, e.orderId.value);
      hide Find;
      assert found.Some? ==> e.orderId == Some(b.orders[found.value].id);
    }
  }

  /** Of an order's own payment or refund: the amount must be the order's, and the answer is that
      the order is granted now, was before, lost its account, or that the payment is another's. */
  lemma {:induction false} OrderOutcomesTellExactly(b: Books, e: WebhookEvent, at: int, i: nat)
    requires UniqueIds(b.orders) && i < |b.orders| && e.orderId == Some(b.orders[i].id) && e.id !in b.events
    ensures
      var o, outcome := b.orders[i], Delivering(b, e, at).0;
      var fits := e.amount == Some(o.amount) && e.currency == Some(o.currency);
      var isTaken := exists j | 0 <= j < |b.orders| :: j != i && b.orders[j].paymentId == e.paymentId;
      var isOver := o.status == Paid || o.status == Refunded;
      && ((e.kind == PaymentCaptured || e.kind == OrderPaid) && e.paymentId.Some? ==>
            outcome == if !fits then Mismatch
                       else if isOver then GrantOutcome(AlreadyGranted)
                       else if isTaken then DatabaseFailure
                       else if o.user.None? then GrantOutcome(NoAccount)
                       else GrantOutcome(Granted))
      && (e.kind == RefundProcessed && e.fullRefund ==>
            outcome == if o.status == Paid && e.paymentId != o.paymentId then RefundOtherPayment else RefundDone)
  {
    FindUnique(b.orders, i);
    hide Find, UniqueIds, Refunding;
    if e.paymentId.Some? {
      assert PaymentIdUsedElsewhere(b.orders, i, e.paymentId.value) <==>
             exists j | 0 <= j < |b.orders| :: j != i && b.orders[j].paymentId == e.paymentId;
      hide PaymentIdUsedElsewhere;
    }
  }

  /** The caller of verify is told that this call granted exactly when it did. */
  lemma {:induction false} VerifyTellsExactly(b: Books, orderId: string, paymentId: string, at: int)
    requires UniqueIds(b.orders)
    ensures
      Granting(b, orderId, paymentId, at).0 == Granted <==>
      exists i | 0 <= i < |b.orders| ::
        && b.orders[i].id == orderId && IsUnpaid(b.orders[i].status) && b.orders[i].user.Some?
        && !PaymentIdUsedElsewhere(b.orders, i, paymentId)
  {
    hide PaymentIdUsedElsewhere, Extend;
    forall i | 0 <= i < |b.orders| && b.orders[i].id == orderId
      ensures Find(b.orders, orderId) == Some(i)
    {
      FindUnique(b.orders, i);
    }
    hide Find, UniqueIds;
  }

  // ---- Purchases elsewhere, and accounts ----

  /** The first claim of a purchase puts it on record for its buyer and extends the buyer's pass;
      a later one changes nothing. */
  lemma {:induction false} PurchaseIsClaimedExactly(b: Books, p: PlayPurchase, buyer: string, at: int)
    ensures
      var claimed, after := Claiming(b, p, buyer, at).0, Do(b, Entry(Claim(p, buyer), at));
      && (claimed <==> forall i | 0 <= i < |b.plays| :: b.plays[i].token != p.token)
      && if claimed then
           && after == Books(b.orders, b.plays + [PlayPurchase(p.token, Some(buyer), p.days, p.tokens, at)],
                             b.events, after.access)
           && OnlyExtends(b.access, after.access, buyer, p.days, p.tokens, at)
         else after == b
  {
    hide Extended, OnlyExtends;
    ExtendingExtends(b.(plays := b.plays + [p.(user := Some(buyer), grantedAt := at)]), buyer, p.days, p.tokens, at);
  }

  /** A deleted account loses its pass and its name on what it bought. All else stays. */
  lemma {:induction false} AccountIsDeletedExactly(b: Books, user: string, at: int)
    ensures
      var after := Do(b, Entry(Delete(user), at));
      && after.events == b.events && after.access.Keys == b.access.Keys - {user}
      && (forall other | other in after.access :: after.access[other] == b.access[other])
      && |after.orders| == |b.orders| && |after.plays| == |b.plays|
      && (forall i | 0 <= i < |b.orders| ::
            after.orders[i] == if b.orders[i].user == Some(user) then b.orders[i].(user := None) else b.orders[i])
      && (forall i | 0 <= i < |b.plays| ::
            after.plays[i] == if b.plays[i].user == Some(user) then b.plays[i].(user := None) else b.plays[i])
  {
  }

  /** A new order starts unpaid, and an id that is taken starts none. */
  lemma {:induction false} OrderIsSavedExactly(b: Books, o: Order, at: int)
    ensures
      var row := Order(o.id, o.user, o.amount, o.currency, o.days, o.tokens, Created, None, None);
      Do(b, Entry(Save(o), at)) ==
      if exists i | 0 <= i < |b.orders| :: b.orders[i].id == o.id then b
      else Books(b.orders + [row], b.plays, b.events, b.access)
  {
    hide Find;
  }
}
