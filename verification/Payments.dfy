/** The books behind WebNest Prime: orders, Google Play purchases, webhook events and each
    user's current pass. Every store method is one transaction. */
module Payments {
  import opened Text

  const DAY := 86400

  datatype Status = Created | Failed | Paid | Refunded

  /** One Razorpay order. `user` is None once the account was deleted. */
  datatype Order = Order(
    id: string, user: Option<string>, amount: int, currency: string, days: nat, tokens: nat,
    status: Status, paymentId: Option<string>, paidAt: Option<int>)

  datatype PlayPurchase = PlayPurchase(token: string, user: Option<string>, days: nat, tokens: nat, grantedAt: int)

  /** A user's current pass. Times are in seconds. */
  datatype Access = Access(expiresAt: int, tokensLimit: int, tokensUsed: int, startedAt: int)

  datatype EventKind = PaymentCaptured | OrderPaid | PaymentFailed | RefundProcessed | OtherEvent

  datatype WebhookEvent = WebhookEvent(
    id: string, kind: EventKind, orderId: Option<string>, paymentId: Option<string>,
    amount: Option<int>, currency: Option<string>, fullRefund: bool)

  datatype GrantResult = Granted | AlreadyGranted | NoAccount | PaymentIdTaken

  /** DatabaseFailure is a broken constraint: the whole transaction is undone. */
  datatype WebhookOutcome =
    | Duplicate | GrantOutcome(result: GrantResult) | UnknownOrder | Mismatch | Malformed | FailedRecorded
    | RefundDone | PartialRefund | RefundOtherPayment | Ignored | DatabaseFailure

  /** The four tables. */
  datatype Books = Books(
    orders: seq<Order>, plays: seq<PlayPurchase>, events: set<string>, access: map<string, Access>)

  /** The row with this order id. Ids are unique, as the tables keep them. */
  function Find(orders: seq<Order>, id: string): (r: Option<nat>)
    ensures r.Some? ==> r.value < |orders| && orders[r.value].id == id
    ensures r.None? ==> forall i | 0 <= i < |orders| :: orders[i].id != id
  {
    if orders == [] then None
    else if orders[|orders| - 1].id == id then Some(|orders| - 1)
    else Find(orders[..|orders| - 1], id)
  }

  predicate PaymentIdUsedElsewhere(orders: seq<Order>, at: nat, paymentId: string)
  {
    exists i | 0 <= i < |orders| :: i != at && orders[i].paymentId == Some(paymentId)
  }

  predicate TokenClaimed(plays: seq<PlayPurchase>, token: string)
  {
    exists i | 0 <= i < |plays| :: plays[i].token == token
  }

  // ---- What each transaction does ----

  function Max(a: int, b: int): int
  {
    if a >= b then a else b
  }

  function Extended(access: map<string, Access>, user: string, days: nat, tokens: nat, now: int): Access
  {
    if user !in access then Access(now + days * DAY, tokens, 0, now)
    else
      var a := access[user];
      var running := a.expiresAt > now;
      Access(
        Max(a.expiresAt, now) + days * DAY,
        if running then Max(a.tokensLimit - a.tokensUsed, 0) + tokens else tokens,
        0,
        if running then a.startedAt else now)
  }

  function Extend(b: Books, user: string, days: nat, tokens: nat, now: int): Books
  {
    b.(access := b.access[user := Extended(b.access, user, days, tokens, now)])
  }

  function Granting(b: Books, orderId: string, paymentId: string, now: int): (GrantResult, Books)
  {
    match Find(b.orders, orderId)
    case None => (AlreadyGranted, b)
    case Some(i) =>
      if b.orders[i].status in {Paid, Refunded} then (AlreadyGranted, b)
      else if PaymentIdUsedElsewhere(b.orders, i, paymentId) then (PaymentIdTaken, b)
      else
        var paid := b.orders[i].(status := Paid, paymentId := Some(paymentId), paidAt := Some(now));
        var marked := b.(orders := b.orders[i := paid]);
        match paid.user
        case None => (NoAccount, marked)
        case Some(user) => (Granted, Extend(marked, user, paid.days, paid.tokens, now))
  }

  /** The pass after taking back an order paid at `paidAt`: untouched when it began later. */
  function Shortened(a: Access, days: nat, tokens: nat, paidAt: int): Access
  {
    if a.startedAt <= paidAt
    then a.(expiresAt := a.expiresAt - days * DAY, tokensLimit := Max(a.tokensLimit - tokens, 0))
    else a
  }

  predicate TakesBackAccess(b: Books, order: Order)
  {
    order.status == Paid && order.user.Some? && order.paidAt.Some? && order.user.value in b.access
  }

  function Refunding(b: Books, i: nat): Books
    requires i < |b.orders|
  {
    var order := b.orders[i];
    var taken :=
      if !TakesBackAccess(b, order) then b.access
      else
        var user := order.user.value;
        b.access[user := Shortened(b.access[user], order.days, order.tokens, order.paidAt.value)];
    b.(access := taken, orders := b.orders[i := order.(status := Refunded)])
  }

  predicate IsGrantEvent(e: WebhookEvent)
  {
    e.kind == PaymentCaptured || e.kind == OrderPaid
  }

  function EventEffect(b: Books, e: WebhookEvent, now: int): (WebhookOutcome, Books)
  {
    if e.kind == OtherEvent then (Ignored, b)
    else if e.orderId.None? then (Malformed, b)
    else
      match Find(b.orders, e.orderId.value)
      case None => (UnknownOrder, b)
      case Some(i) =>
        var order := b.orders[i];
        if IsGrantEvent(e) then
          if e.paymentId.None? then (Malformed, b)
          else if e.amount != Some(order.amount) || e.currency != Some(order.currency) then (Mismatch, b)
          else
            var (result, after) := Granting(b, order.id, e.paymentId.value, now);
            (if result == PaymentIdTaken then DatabaseFailure else GrantOutcome(result), after)
        else if e.kind == PaymentFailed then
          (FailedRecorded,
           if order.status == Created then b.(orders := b.orders[i := order.(status := Failed)]) else b)
        else if !e.fullRefund then (PartialRefund, b)
        else if order.status == Paid && e.paymentId != order.paymentId then (RefundOtherPayment, b)
        else (RefundDone, Refunding(b, i))
  }

  function Delivering(b: Books, e: WebhookEvent, now: int): (WebhookOutcome, Books)
  {
    if e.id in b.events then (Duplicate, b)
    else
      var (outcome, after) := EventEffect(b, e, now);
      if outcome == DatabaseFailure then (outcome, b) else (outcome, after.(events := after.events + {e.id}))
  }

  function Claiming(b: Books, p: PlayPurchase, user: string, now: int): (bool, Books)
  {
    if TokenClaimed(b.plays, p.token) then (false, b)
    else
      var row := p.(user := Some(user), grantedAt := now);
      (true, Extend(b.(plays := b.plays + [row]), user, p.days, p.tokens, now))
  }

  function Reserving(b: Books, user: string, tokens: nat, now: int): (bool, Books)
  {
    if user !in b.access || b.access[user].expiresAt <= now || b.access[user].tokensUsed >= b.access[user].tokensLimit
    then (false, b)
    else
      var a := b.access[user];
      (true, b.(access := b.access[user := a.(tokensUsed := a.tokensUsed + tokens)]))
  }

  function Adding(b: Books, user: string, tokens: int): Books
  {
    if user !in b.access then b
    else
      var a := b.access[user];
      b.(access := b.access[user := a.(tokensUsed := Max(a.tokensUsed + tokens, 0))])
  }

  function SavingOrder(b: Books, order: Order): Books
  {
    if Find(b.orders, order.id).Some? then b
    else b.(orders := b.orders + [order.(status := Created, paymentId := None, paidAt := None)])
  }

  function WithoutUser(user: string, orders: seq<Order>): seq<Order>
  {
    seq(|orders|, i requires 0 <= i < |orders| =>
      if orders[i].user == Some(user) then orders[i].(user := None) else orders[i])
  }

  function PlaysWithoutUser(user: string, plays: seq<PlayPurchase>): seq<PlayPurchase>
  {
    seq(|plays|, i requires 0 <= i < |plays| =>
      if plays[i].user == Some(user) then plays[i].(user := None) else plays[i])
  }

  /** Deleting an account drops its pass and unlinks what it bought. */
  function DeletingUser(b: Books, user: string): Books
  {
    b.(access := b.access - {user}, orders := WithoutUser(user, b.orders), plays := PlaysWithoutUser(user, b.plays))
  }

  // ---- The store ----

  class PaymentStore {
    var orders: seq<Order>
    var plays: seq<PlayPurchase>
    var events: set<string>
    var access: map<string, Access>

    constructor ()
      ensures State() == Books([], [], {}, map[])
    {
      orders, plays, events, access := [], [], {}, map[];
    }

    function State(): Books
      reads this
    {
      Books(orders, plays, events, access)
    }

    /** False is the broken unique index, which fails the insert and leaves the table as it was. */
    method SaveOrder(order: Order) returns (saved: bool)
      modifies this
      ensures State() == SavingOrder(old(State()), order)
      ensures saved <==> forall i | 0 <= i < |old(orders)| :: old(orders)[i].id != order.id
    {
      saved := Find(orders, order.id).None?;
      if saved {
        orders := orders + [order.(status := Created, paymentId := None, paidAt := None)];
      }
    }

    /** Days and tokens are added to what a running pass has left, or open a new run of passes. */
    method ExtendAccess(user: string, days: nat, tokens: nat, now: int)
      modifies this`access
      ensures State() == Extend(old(State()), user, days, tokens, now)
    {
      if user !in access {
        access := access[user := Access(now + days * DAY, tokens, 0, now)];
      } else {
        var row := access[user];
        if row.expiresAt > now {
          var left := Max(row.tokensLimit - row.tokensUsed, 0);
          row := row.(tokensLimit := left + tokens, expiresAt := row.expiresAt + days * DAY);
        } else {
          row := row.(tokensLimit := tokens, startedAt := now, expiresAt := now + days * DAY);
        }
        access := access[user := row.(tokensUsed := 0)];
      }
    }

    method GrantOrder(orderId: string, paymentId: string, now: int) returns (result: GrantResult)
      modifies this`orders, this`access
      ensures (result, State()) == Granting(old(State()), orderId, paymentId, now)
    {
      var found := Find(orders, orderId);
      if found.None? || orders[found.value].status in {Paid, Refunded} {
        return AlreadyGranted;
      }
      var i := found.value;
      if PaymentIdUsedElsewhere(orders, i, paymentId) {
        return PaymentIdTaken;
      }
      orders := orders[i := orders[i].(status := Paid, paymentId := Some(paymentId), paidAt := Some(now))];
      var paid := orders[i];
      if paid.user.None? {
        return NoAccount;
      }
      ExtendAccess(paid.user.value, paid.days, paid.tokens, now);
      result := Granted;
    }

    /** Tells the caller whose payment it was that counted. */
    method Grant(orderId: string, paymentId: string, now: int) returns (granted: bool)
      modifies this`orders, this`access
      ensures State() == Granting(old(State()), orderId, paymentId, now).1
      ensures granted <==> Granting(old(State()), orderId, paymentId, now).0 == Granted
    {
      var result := GrantOrder(orderId, paymentId, now);
      granted := result == Granted;
    }

    method RefundOrder(i: nat)
      requires i < |orders|
      modifies this`orders, this`access
      ensures State() == Refunding(old(State()), i)
    {
      var order := orders[i];
      if order.status == Paid && order.user.Some? && order.paidAt.Some? && order.user.value in access {
        var user := order.user.value;
        var row := access[user];
        if row.startedAt <= order.paidAt.value {
          row := row.(expiresAt := row.expiresAt - order.days * DAY);
          row := row.(tokensLimit := Max(row.tokensLimit - order.tokens, 0));
        }
        access := access[user := row];
      }
      orders := orders[i := order.(status := Refunded)];
    }

    method ApplyEvent(event: WebhookEvent, now: int) returns (outcome: WebhookOutcome)
      modifies this`orders, this`access
      ensures (outcome, State()) == EventEffect(old(State()), event, now)
    {
      if event.kind == OtherEvent {
        return Ignored;
      }
      if event.orderId.None? {
        return Malformed;
      }
      var found := Find(orders, event.orderId.value);
      if found.None? {
        return UnknownOrder;
      }
      var i := found.value;
      var order := orders[i];
      if IsGrantEvent(event) {
        if event.paymentId.None? {
          return Malformed;
        }
        if event.amount != Some(order.amount) || event.currency != Some(order.currency) {
          return Mismatch;
        }
        var result := GrantOrder(order.id, event.paymentId.value, now);
        return if result == PaymentIdTaken then DatabaseFailure else GrantOutcome(result);
      }
      if event.kind == PaymentFailed {
        if order.status == Created {
          orders := orders[i := order.(status := Failed)];
        }
        return FailedRecorded;
      }
      if !event.fullRefund {
        return PartialRefund;
      }
      if order.status == Paid && event.paymentId != order.paymentId {
        return RefundOtherPayment;
      }
      RefundOrder(i);
      outcome := RefundDone;
    }

    /** An event is on record exactly when it had its effect. */
    method ApplyWebhook(event: WebhookEvent, now: int) returns (outcome: WebhookOutcome)
      modifies this
      ensures (outcome, State()) == Delivering(old(State()), event, now)
    {
      if event.id in events {
        return Duplicate;
      }
      outcome := ApplyEvent(event, now);
      if outcome != DatabaseFailure {
        events := events + {event.id};
      }
    }

    /** The first claim of a token is the one that counts. */
    method ClaimPlayPurchase(p: PlayPurchase, user: string, now: int) returns (claimed: bool)
      modifies this
      ensures (claimed, State()) == Claiming(old(State()), p, user, now)
    {
      if TokenClaimed(plays, p.token) {
        return false;
      }
      plays := plays + [p.(user := Some(user), grantedAt := now)];
      ExtendAccess(user, p.days, p.tokens, now);
      claimed := true;
    }

    /** A pass with one token left still lets a call of any size in. */
    method ReserveTokens(user: string, tokens: nat, now: int) returns (reserved: bool)
      modifies this`access
      ensures (reserved, State()) == Reserving(old(State()), user, tokens, now)
      ensures reserved <==> user in old(access) && old(access)[user].expiresAt > now
                            && old(access)[user].tokensUsed < old(access)[user].tokensLimit
    {
      reserved := user in access && access[user].expiresAt > now && access[user].tokensUsed < access[user].tokensLimit;
      if reserved {
        access := access[user := access[user].(tokensUsed := access[user].tokensUsed + tokens)];
      }
    }

    /** The change may be of either sign. Use never goes below 0. */
    method AddTokens(user: string, tokens: int) returns (state: Option<Access>)
      modifies this`access
      ensures State() == Adding(old(State()), user, tokens)
      ensures state == if user in access then Some(access[user]) else None
    {
      state := None;
      if user in access {
        access := access[user := access[user].(tokensUsed := Max(access[user].tokensUsed + tokens, 0))];
        state := Some(access[user]);
      }
    }

    method DeleteUser(user: string)
      modifies this
      ensures State() == DeletingUser(old(State()), user)
    {
      access := access - {user};
      orders := WithoutUser(user, orders);
      plays := PlaysWithoutUser(user, plays);
    }
  }
}
