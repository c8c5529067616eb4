/** What holds over every run of payments, webhooks, claims, refunds and calls: a pass is worth
    exactly its unrefunded purchases, an order counts once, and usage stays bounded. */
module PaymentFacts {
  import opened Text
  import opened Payments

  datatype Step =
    | Save(order: Order)
    | Verify(orderId: string, paymentId: string)
    | Deliver(event: WebhookEvent)
    | Claim(purchase: PlayPurchase, buyer: string)
    | Reserve(user: string, tokens: nat)
    | Add(user: string, change: int)
    | Delete(user: string)

  /** One committed transaction. Verify is also what reconciliation does. */
  datatype Entry = Entry(step: Step, at: int)

  function Do(b: Books, e: Entry): Books
  {
    match e.step
    case Save(order) => SavingOrder(b, order)
    case Verify(orderId, paymentId) => Granting(b, orderId, paymentId, e.at).1
    case Deliver(event) => Delivering(b, event, e.at).1
    case Claim(purchase, buyer) => Claiming(b, purchase, buyer, e.at).1
    case Reserve(user, tokens) => Reserving(b, user, tokens, e.at).1
    case Add(user, change) => Adding(b, user, change)
    case Delete(user) => DeletingUser(b, user)
  }

  function Run(b: Books, run: seq<Entry>): Books
  {
    if run == [] then b else Do(Run(b, run[..|run| - 1]), run[|run| - 1])
  }

  /** Transaction times strictly increase, starting after `now`. */
  ghost predicate InTimeOrder(now: int, run: seq<Entry>)
  {
    && (forall i | 0 <= i < |run| :: now < run[i].at)
    && (forall i, j | 0 <= i < j < |run| :: run[i].at < run[j].at)
  }

  function LastTime(now: int, run: seq<Entry>): int
  {
    if run == [] then now else run[|run| - 1].at
  }

  // ---- What a user has bought ----

  function OrderDays(o: Order, user: string, since: int): nat
  {
    if o.status == Paid && o.user == Some(user) && o.paidAt.Some? && o.paidAt.value >= since then o.days else 0
  }

  function PlayDays(p: PlayPurchase, user: string, since: int): nat
  {
    if p.user == Some(user) && p.grantedAt >= since then p.days else 0
  }

  function OrdersDays(orders: seq<Order>, user: string, since: int): nat
  {
    if orders == [] then 0
    else OrdersDays(orders[..|orders| - 1], user, since) + OrderDays(orders[|orders| - 1], user, since)
  }

  function PlaysDays(plays: seq<PlayPurchase>, user: string, since: int): nat
  {
    if plays == [] then 0
    else PlaysDays(plays[..|plays| - 1], user, since) + PlayDays(plays[|plays| - 1], user, since)
  }

  /** The days of the user's unrefunded purchases made at `since` or later. */
  function DaysBought(b: Books, user: string, since: int): nat
  {
    OrdersDays(b.orders, user, since) + PlaysDays(b.plays, user, since)
  }

  lemma {:induction false} OrdersDaysUpdated(orders: seq<Order>, i: nat, o: Order, user: string, since: int)
    requires i < |orders|
    ensures OrdersDays(orders[i := o], user, since) ==
            OrdersDays(orders, user, since) - OrderDays(orders[i], user, since) + OrderDays(o, user, since)
  {
    var n := |orders| - 1;
    if i < n {
      assert orders[i := o][..n] == orders[..n][i := o];
      OrdersDaysUpdated(orders[..n], i, o, user, since);
    } else {
      assert orders[i := o][..n] == orders[..n];
    }
  }

  lemma {:induction false} OrdersDaysLater(orders: seq<Order>, user: string, since: int)
    requires forall i | 0 <= i < |orders| :: orders[i].paidAt.Some? ==> orders[i].paidAt.value < since
    ensures OrdersDays(orders, user, since) == 0
  {
    if orders != [] {
      OrdersDaysLater(orders[..|orders| - 1], user, since);
    }
  }

  lemma {:induction false} PlaysDaysLater(plays: seq<PlayPurchase>, user: string, since: int)
    requires forall i | 0 <= i < |plays| :: plays[i].grantedAt < since
    ensures PlaysDays(plays, user, since) == 0
  {
    if plays != [] {
      PlaysDaysLater(plays[..|plays| - 1], user, since);
    }
  }

  lemma {:induction false} OrdersDaysWithoutUser(orders: seq<Order>, gone: string, user: string, since: int)
    requires user != gone
    ensures OrdersDays(WithoutUser(gone, orders), user, since) == OrdersDays(orders, user, since)
  {
    if orders != [] {
      var n := |orders| - 1;
      OrdersDaysWithoutUser(orders[..n], gone, user, since);
      assert WithoutUser(gone, orders)[..n] == WithoutUser(gone, orders[..n]);
    }
  }

  lemma {:induction false} PlaysDaysWithoutUser(plays: seq<PlayPurchase>, gone: string, user: string, since: int)
    requires user != gone
    ensures PlaysDays(PlaysWithoutUser(gone, plays), user, since) == PlaysDays(plays, user, since)
  {
    if plays != [] {
      var n := |plays| - 1;
      PlaysDaysWithoutUser(plays[..n], gone, user, since);
      assert PlaysWithoutUser(gone, plays)[..n] == PlaysWithoutUser(gone, plays[..n]);
    }
  }

  // ---- The invariant ----

  /** Orders as the tables keep them: unique ids, and paid at some time up to now exactly as
      far as their status says. */
  ghost predicate OrdersAreSound(orders: seq<Order>, now: int)
  {
    && (forall i, j | 0 <= i < j < |orders| :: orders[i].id != orders[j].id)
    && (forall i | 0 <= i < |orders| :: orders[i].paidAt.Some? ==> orders[i].paidAt.value <= now)
    && (forall i | 0 <= i < |orders| ::
          orders[i].status == Paid ==> orders[i].paidAt.Some? && orders[i].paymentId.Some?)
    && (forall i | 0 <= i < |orders| :: orders[i].status in {Created, Failed} ==> orders[i].paidAt.None?)
  }

  ghost predicate PlaysAreSound(plays: seq<PlayPurchase>, now: int)
  {
    && (forall i, j | 0 <= i < j < |plays| :: plays[i].token != plays[j].token)
    && (forall i | 0 <= i < |plays| :: plays[i].grantedAt <= now)
  }

  /** The pass ends exactly as many days after its run began as the user bought in that run. */
  ghost predicate PassAddsUp(b: Books, user: string, now: int)
    requires user in b.access
  {
    var a := b.access[user];
    && a.startedAt <= now
    && a.expiresAt == a.startedAt + DaysBought(b, user, a.startedAt) * DAY
  }

  ghost predicate AllPassesAddUp(b: Books, now: int)
  {
    forall user | user in b.access :: PassAddsUp(b, user, now)
  }

  ghost predicate IsSound(b: Books, now: int)
  {
    OrdersAreSound(b.orders, now) && PlaysAreSound(b.plays, now) && AllPassesAddUp(b, now)
  }

  lemma {:induction false} NothingBoughtLater(b: Books, user: string, now: int, since: int)
    requires OrdersAreSound(b.orders, now) && PlaysAreSound(b.plays, now) && now < since
    ensures DaysBought(b, user, since) == 0
  {
    OrdersDaysLater(b.orders, user, since);
    PlaysDaysLater(b.plays, user, since);
  }

  /** `after` holds one more purchase of `user`, made at `at`. */
  ghost predicate BoughtMore(b: Books, after: Books, user: string, days: nat, at: int)
  {
    && after.access == b.access
    && forall other: string, since: int ::
         DaysBought(after, other, since) ==
         DaysBought(b, other, since) + if other == user && since <= at then days else 0
  }

  lemma {:induction false} ExtendKeepsPasses(
      b: Books, after: Books, user: string, days: nat, tokens: nat, now: int, at: int)
    requires IsSound(b, now) && now < at && BoughtMore(b, after, user, days, at)
    ensures AllPassesAddUp(Extend(after, user, days, tokens, at), at)
  {
    var r := Extend(after, user, days, tokens, at);
    NothingBoughtLater(b, user, now, at);
    forall other | other in r.access
      ensures PassAddsUp(r, other, at)
    {
      var a := r.access[other];
      assert DaysBought(r, other, a.startedAt) == DaysBought(after, other, a.startedAt);
      if other in b.access {
        assert PassAddsUp(b, other, now);
      }
    }
  }

  lemma {:induction false} GrantingIsSound(b: Books, orderId: string, paymentId: string, now: int, at: int)
    requires IsSound(b, now) && now < at
    ensures IsSound(Granting(b, orderId, paymentId, at).1, at)
  {
    hide DaysBought;
    var (result, r) := Granting(b, orderId, paymentId, at);
    if result == Granted || result == NoAccount {
      var i := Find(b.orders, orderId).value;
      var o := b.orders[i];
      var paid := o.(status := Paid, paymentId := Some(paymentId), paidAt := Some(at));
      var marked := b.(orders := b.orders[i := paid]);
      PaidOrderBuys(b, i, paid, at);
      if paid.user.Some? {
        ExtendKeepsPasses(b, marked, paid.user.value, paid.days, paid.tokens, now, at);
      } else {
        UnchangedPasses(b, marked, now, at);
      }
    } else {
      UnchangedPasses(b, r, now, at);
    }
  }

  lemma {:induction false} UnchangedPasses(b: Books, after: Books, now: int, at: int)
    requires AllPassesAddUp(b, now) && now <= at
    requires after.access.Keys <= b.access.Keys
    requires forall user | user in after.access ::
               && after.access[user].startedAt == b.access[user].startedAt
               && after.access[user].expiresAt == b.access[user].expiresAt
    requires forall user: string, since: int | user in after.access ::
               DaysBought(after, user, since) == DaysBought(b, user, since)
    ensures AllPassesAddUp(after, at)
  {
    hide DaysBought;
    forall user | user in after.access
      ensures PassAddsUp(after, user, at)
    {
      assert PassAddsUp(b, user, now);
    }
  }

  /** Marking an unpaid order as paid adds its days for its user, if it has one. */
  lemma {:induction false} PaidOrderBuys(b: Books, i: nat, paid: Order, at: int)
    requires i < |b.orders| && b.orders[i].status != Paid
    requires paid.status == Paid && paid.paidAt == Some(at)
    ensures
      var marked := b.(orders := b.orders[i := paid]);
      && (paid.user.Some? ==> BoughtMore(b, marked, paid.user.value, paid.days, at))
      && (paid.user.None? ==>
            forall user: string, since: int :: DaysBought(marked, user, since) == DaysBought(b, user, since))
  {
    forall user: string, since: int
      ensures OrdersDays(b.orders[i := paid], user, since) ==
              OrdersDays(b.orders, user, since) + OrderDays(paid, user, since)
    {
      OrdersDaysUpdated(b.orders, i, paid, user, since);
    }
  }

  /** A refund takes exactly the order's own days out of the pass they are part of, and leaves
      a pass that began after the payment alone. */
  lemma {:induction false} RefundingIsSound(b: Books, i: nat, now: int, at: int)
    requires IsSound(b, now) && now <= at && i < |b.orders|
    ensures IsSound(Refunding(b, i), at)
    ensures
      var (o, r) := (b.orders[i], Refunding(b, i));
      TakesBackAccess(b, o) ==>
        var user := o.user.value;
        r.access[user].expiresAt ==
        b.access[user].expiresAt - (if b.access[user].startedAt <= o.paidAt.value then o.days * DAY else 0)
  {
    hide PlaysDays;
    var o, r := b.orders[i], Refunding(b, i);
    var back := o.(status := Refunded);
    forall user | user in r.access
      ensures PassAddsUp(r, user, at)
    {
      assert PassAddsUp(b, user, now);
      OrdersDaysUpdated(b.orders, i, back, user, b.access[user].startedAt);
    }
  }

  lemma {:induction false} DeliveringIsSound(b: Books, e: WebhookEvent, now: int, at: int)
    requires IsSound(b, now) && now < at
    ensures IsSound(Delivering(b, e, at).1, at)
  {
    hide DaysBought, Granting, Refunding, IsSound;
    var (outcome, r) := EventEffect(b, e, at);
    SoundLater(b, now, at);
    if e.kind != OtherEvent && e.orderId.Some? && Find(b.orders, e.orderId.value).Some? {
      var i := Find(b.orders, e.orderId.value).value;
      RefundingIsSound(b, i, now, at);
      FailingIsSound(b, i, at);
      if e.paymentId.Some? {
        GrantingIsSound(b, b.orders[i].id, e.paymentId.value, now, at);
      }
    }
    assert IsSound(r, at);
    SoundWithEvents(r, r.events + {e.id}, at);
    SoundWithEvents(b, b.events + {e.id}, at);
  }

  lemma {:induction false} SoundLater(b: Books, now: int, at: int)
    requires IsSound(b, now) && now <= at
    ensures IsSound(b, at)
  {
    UnchangedPasses(b, b, now, at);
  }

  lemma {:induction false} SoundWithEvents(b: Books, events: set<string>, at: int)
    requires IsSound(b, at)
    ensures IsSound(b.(events := events), at)
  {
    UnchangedPasses(b, b.(events := events), at, at);
  }

  lemma {:induction false} FailingIsSound(b: Books, i: nat, at: int)
    requires IsSound(b, at) && i < |b.orders|
    ensures b.orders[i].status == Created ==>
              IsSound(b.(orders := b.orders[i := b.orders[i].(status := Failed)]), at)
  {
    var r := b.(orders := b.orders[i := b.orders[i].(status := Failed)]);
    if b.orders[i].status == Created {
      forall user: string, since: int
        ensures DaysBought(r, user, since) == DaysBought(b, user, since)
      {
        OrdersDaysUpdated(b.orders, i, r.orders[i], user, since);
      }
      UnchangedPasses(b, r, at, at);
    }
  }

  lemma {:induction false} ClaimingIsSound(b: Books, p: PlayPurchase, user: string, now: int, at: int)
    requires IsSound(b, now) && now < at
    ensures IsSound(Claiming(b, p, user, at).1, at)
  {
    SoundLater(b, now, at);
    if !TokenClaimed(b.plays, p.token) {
      var row := p.(user := Some(user), grantedAt := at);
      var more := b.(plays := b.plays + [row]);
      assert more.plays[..|b.plays|] == b.plays;
      ExtendKeepsPasses(b, more, user, p.days, p.tokens, now, at);
    }
  }

  lemma {:induction false} DeletingIsSound(b: Books, gone: string, now: int, at: int)
    requires IsSound(b, now) && now < at
    ensures IsSound(DeletingUser(b, gone), at)
  {
    var r := DeletingUser(b, gone);
    forall user: string, since: int | user in r.access
      ensures DaysBought(r, user, since) == DaysBought(b, user, since)
    {
      OrdersDaysWithoutUser(b.orders, gone, user, since);
      PlaysDaysWithoutUser(b.plays, gone, user, since);
    }
    UnchangedPasses(b, r, now, at);
  }

  lemma {:induction false} SavingIsSound(b: Books, order: Order, at: int)
    requires IsSound(b, at)
    ensures IsSound(SavingOrder(b, order), at)
  {
    hide OrdersDays, AllPassesAddUp;
    var r := SavingOrder(b, order);
    if r != b {
      var saved := r.orders[|b.orders|];
      forall user: string, since: int
        ensures OrdersDays(r.orders, user, since) == OrdersDays(b.orders, user, since)
      {
        UnpaidBuysNothing(b.orders, saved, user, since);
      }
    }
    UnchangedPasses(b, r, at, at);
  }

  lemma {:induction false} UnpaidBuysNothing(orders: seq<Order>, o: Order, user: string, since: int)
    requires o.status != Paid
    ensures OrdersDays(orders + [o], user, since) == OrdersDays(orders, user, since)
  {
    assert (orders + [o])[..|orders|] == orders;
  }

  /** Every transaction keeps the books sound. */
  lemma {:induction false} StepIsSound(b: Books, e: Entry, now: int)
    requires IsSound(b, now) && now < e.at
    ensures IsSound(Do(b, e), e.at)
  {
    hide IsSound;
    SoundLater(b, now, e.at);
    match e.step
    case Save(order) => SavingIsSound(b, order, e.at);
    case Verify(orderId, paymentId) => GrantingIsSound(b, orderId, paymentId, now, e.at);
    case Deliver(event) => DeliveringIsSound(b, event, now, e.at);
    case Claim(purchase, buyer) => ClaimingIsSound(b, purchase, buyer, now, e.at);
    case Reserve(user, tokens) => UsageIsSound(b, user, Reserving(b, user, tokens, e.at).1, e.at);
    case Add(user, change) => UsageIsSound(b, user, Adding(b, user, change), e.at);
    case Delete(user) => DeletingIsSound(b, user, now, e.at);
  }

  /** Counting tokens never moves the end of a pass. */
  lemma {:induction false} UsageIsSound(b: Books, user: string, after: Books, at: int)
    requires IsSound(b, at)
    requires
      || after == b
      || (user in b.access
          && exists used :: after == b.(access := b.access[user := b.access[user].(tokensUsed := used)]))
    ensures IsSound(after, at)
  {
    UnchangedPasses(b, after, at, at);
  }

  /** Over every run, a pass's end is its start plus the days of the unrefunded purchases made
      since. Grants, claims, refunds, deletions and usage in any order keep it so. */
  lemma {:induction false} RunIsSound(b: Books, run: seq<Entry>, now: int)
    requires IsSound(b, now) && InTimeOrder(now, run)
    ensures IsSound(Run(b, run), LastTime(now, run))
  {
    if run != [] {
      var n := |run| - 1;
      hide IsSound, Do;
      RunIsSound(b, run[..n], now);
      StepIsSound(Run(b, run[..n]), run[n], LastTime(now, run[..n]));
    }
  }
}
