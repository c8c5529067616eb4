/** What a pass's count of used tokens stands for. A renewal starts the count again while calls
    may be in flight; when they end, they are still settled against the new count. */
module PassUse {
  import opened Text
  import opened Payments
  import PaymentFacts

  /** A period of a user lasts from one renewal of the pass to the next. */
  datatype CallState = InFlight | Ended(charged: nat, period: nat)

  /** A call let in, and the period it was let in. */
  datatype Call = Call(user: string, reserved: nat, period: nat, state: CallState)

  /** The books, and beside them each user's period and the calls the passes were used for. */
  datatype Ledger = Ledger(books: Books, periods: map<string, nat>, calls: seq<Call>)

  datatype Step =
    | Reserve(user: string, tokens: nat, at: int)
    | End(call: nat, charged: nat)
    | Pay(entry: PaymentFacts.Entry)

  const EMPTY := Ledger(Books([], [], {}, map[]), map[], [])

  predicate IsInFlight(calls: seq<Call>, i: nat)
  {
    i < |calls| && calls[i].state == InFlight
  }

  /** A transaction that is no call's. */
  predicate IsPayment(step: PaymentFacts.Step)
  {
    !step.Reserve? && !step.Add?
  }

  function PeriodOf(l: Ledger, user: string): nat
  {
    if user in l.periods then l.periods[user] else 0
  }

  function BuyerOf(b: Books, orderId: string): Option<string>
  {
    match Find(b.orders, orderId)
    case None => None
    case Some(i) => b.orders[i].user
  }

  /** Whose count starts again: the pass is renewed, or goes with its account. */
  function Opens(b: Books, e: PaymentFacts.Entry): Option<string>
  {
    match e.step
    case Verify(orderId, paymentId) =>
      if Granting(b, orderId, paymentId, e.at).0 == Granted then BuyerOf(b, orderId) else None
    case Deliver(event) =>
      if event.orderId.Some? && Delivering(b, event, e.at).0 == GrantOutcome(Granted)
      then BuyerOf(b, event.orderId.value) else None
    case Claim(purchase, buyer) => if TokenClaimed(b.plays, purchase.token) then None else Some(buyer)
    case Delete(user) => Some(user)
    case _ => None
  }

  function Do(l: Ledger, step: Step): Ledger
  {
    match step
    case Reserve(user, tokens, at) =>
      var (reserved, books) := Reserving(l.books, user, tokens, at);
      if !reserved then l
      else Ledger(books, l.periods, l.calls + [Call(user, tokens, PeriodOf(l, user), InFlight)])
    case End(i, charged) =>
      if !IsInFlight(l.calls, i) then l
      else
        var c := l.calls[i];
        var ended := c.(state := Ended(charged, PeriodOf(l, c.user)));
        Ledger(Adding(l.books, c.user, charged - c.reserved), l.periods, l.calls[i := ended])
    case Pay(entry) =>
      if !IsPayment(entry.step) then l
      else
        var opens := Opens(l.books, entry);
        var periods := if opens.Some? then l.periods[opens.value := PeriodOf(l, opens.value) + 1] else l.periods;
        Ledger(PaymentFacts.Do(l.books, entry), periods, l.calls)
  }

  function Run(run: seq<Step>): Ledger
  {
    if run == [] then EMPTY else Do(Run(run[..|run| - 1]), run[|run| - 1])
  }

  // ---- What the calls add up to ----

  /** Of a period: what its own calls count for; and of the calls let in before it and ended in it,
      what they gave back of their reservations, and what they were charged above them. */
  datatype Part = Worth | GivenBack | Overshot

  function PartOf(c: Call, part: Part, user: string, period: nat): nat
  {
    if c.user != user then 0
    else if part == Worth then
      if c.period != period then 0 else if c.state.InFlight? then c.reserved else c.state.charged
    else if c.state.InFlight? || c.period == period || c.state.period != period then 0
    else if part == GivenBack then Max(c.reserved - c.state.charged, 0)
    else Max(c.state.charged - c.reserved, 0)
  }

  function Sum(calls: seq<Call>, part: Part, user: string, period: nat): nat
  {
    if calls == [] then 0
    else Sum(calls[..|calls| - 1], part, user, period) + PartOf(calls[|calls| - 1], part, user, period)
  }

  function Now(l: Ledger, part: Part, user: string): nat
  {
    Sum(l.calls, part, user, PeriodOf(l, user))
  }

  /** The count is what the period's own calls are worth, up to what older calls gave back and
      overshot when they ended in it. */
  ghost predicate AddsUp(l: Ledger, user: string)
  {
    user in l.books.access ==>
      var used := l.books.access[user].tokensUsed;
      Now(l, Worth, user) - Now(l, GivenBack, user) <= used <= Now(l, Worth, user) + Now(l, Overshot, user)
  }

  /** No call is of a period to come. */
  ghost predicate IsDated(l: Ledger)
  {
    forall i | 0 <= i < |l.calls| ::
      && l.calls[i].period <= PeriodOf(l, l.calls[i].user)
      && (l.calls[i].state.Ended? ==> l.calls[i].state.period <= PeriodOf(l, l.calls[i].user))
  }

  ghost predicate IsKept(l: Ledger)
  {
    && IsDated(l)
    && (forall user :: AddsUp(l, user))
    && forall user | user in l.books.access :: l.books.access[user].tokensUsed >= 0
  }

  lemma {:induction false} SumUpdated(calls: seq<Call>, i: nat, c: Call, part: Part, user: string, period: nat)
    requires i < |calls|
    ensures Sum(calls[i := c], part, user, period) ==
            Sum(calls, part, user, period) - PartOf(calls[i], part, user, period) + PartOf(c, part, user, period)
  {
    hide PartOf;
    var n := |calls| - 1;
    if i < n {
      assert calls[i := c][..n] == calls[..n][i := c];
      SumUpdated(calls[..n], i, c, part, user, period);
    } else {
      assert calls[i := c][..n] == calls[..n];
    }
  }

  lemma {:induction false} SumAdded(calls: seq<Call>, c: Call, part: Part, user: string, period: nat)
    ensures Sum(calls + [c], part, user, period) == Sum(calls, part, user, period) + PartOf(c, part, user, period)
  {
    assert (calls + [c])[..|calls|] == calls;
  }

  /** A period to come has no calls yet. */
  lemma {:induction false} NothingYet(calls: seq<Call>, part: Part, user: string, period: nat)
    requires forall i | 0 <= i < |calls| :: calls[i].user == user ==>
               calls[i].period < period && (calls[i].state.Ended? ==> calls[i].state.period < period)
    ensures Sum(calls, part, user, period) == 0
  {
    if calls != [] {
      NothingYet(calls[..|calls| - 1], part, user, period);
    }
  }

  // ---- Payments leave the count alone, or start it again ----

  /** Used tokens after a payment: at 0 for the one whose count it starts again, and as they were for
      everyone else who has a pass. */
  ghost predicate CountsStay(b: Books, later: Books, opens: Option<string>)
  {
    forall user | user in later.access ::
      if opens == Some(user) then later.access[user].tokensUsed == 0
      else user in b.access && later.access[user].tokensUsed == b.access[user].tokensUsed
  }

  lemma {:induction false} GrantingStays(b: Books, orderId: string, paymentId: string, now: int)
    ensures
      var (result, after) := Granting(b, orderId, paymentId, now);
      CountsStay(b, after, if result == Granted then BuyerOf(b, orderId) else None)
  {
    hide PaymentIdUsedElsewhere, Find;
  }

  lemma {:induction false} EffectStays(b: Books, e: WebhookEvent, now: int)
    ensures
      var (outcome, after) := EventEffect(b, e, now);
      CountsStay(b, after,
                 if e.orderId.Some? && outcome == GrantOutcome(Granted) then BuyerOf(b, e.orderId.value) else None)
  {
    hide Granting, Find;
    if e.orderId.Some? && Find(b.orders, e.orderId.value).Some? && e.paymentId.Some? {
      GrantingStays(b, b.orders[Find(b.orders, e.orderId.value).value].id, e.paymentId.value, now);
    }
  }

  lemma {:induction false} PaymentStays(b: Books, e: PaymentFacts.Entry)
    requires IsPayment(e.step)
    ensures CountsStay(b, PaymentFacts.Do(b, e), Opens(b, e))
  {
    hide Granting, EventEffect, Find;
    match e.step
    case Verify(orderId, paymentId) => GrantingStays(b, orderId, paymentId, e.at);
    case Deliver(event) => EffectStays(b, event, e.at);
    case _ =>
  }

  // ---- Each step keeps it ----

  lemma {:induction false} ReserveKeeps(l: Ledger, user: string, tokens: nat, at: int)
    requires IsKept(l)
    ensures IsKept(Do(l, Reserve(user, tokens, at)))
  {
    var after := Do(l, Reserve(user, tokens, at));
    if after != l {
      var c := Call(user, tokens, PeriodOf(l, user), InFlight);
      hide Sum;
      forall other
        ensures AddsUp(after, other)
      {
        assert AddsUp(l, other);
        var period := PeriodOf(l, other);
        SumAdded(l.calls, c, Worth, other, period);
        SumAdded(l.calls, c, GivenBack, other, period);
        SumAdded(l.calls, c, Overshot, other, period);
      }
    }
  }

  lemma {:induction false} EndAddsUp(l: Ledger, i: nat, charged: nat, user: string)
    requires IsInFlight(l.calls, i) && AddsUp(l, user)
    requires user in l.books.access ==> l.books.access[user].tokensUsed >= 0
    ensures AddsUp(Do(l, End(i, charged)), user)
  {
    hide Sum;
    var c := Do(l, End(i, charged)).calls[i];
    var period := PeriodOf(l, user);
    SumUpdated(l.calls, i, c, Worth, user, period);
    SumUpdated(l.calls, i, c, GivenBack, user, period);
    SumUpdated(l.calls, i, c, Overshot, user, period);
  }

  lemma {:induction false} EndKeeps(l: Ledger, i: nat, charged: nat)
    requires IsKept(l)
    ensures IsKept(Do(l, End(i, charged)))
  {
    hide AddsUp;
    if IsInFlight(l.calls, i) {
      forall user
        ensures AddsUp(Do(l, End(i, charged)), user)
      {
        EndAddsUp(l, i, charged, user);
      }
    }
  }

  lemma {:induction false} PayKeeps(l: Ledger, e: PaymentFacts.Entry)
    requires IsKept(l)
    ensures IsKept(Do(l, Pay(e)))
  {
    hide PaymentFacts.Do, Opens, Sum;
    var after := Do(l, Pay(e));
    if IsPayment(e.step) {
      PaymentStays(l.books, e);
      forall user
        ensures AddsUp(after, user)
      {
        assert AddsUp(l, user);
        if Opens(l.books, e) == Some(user) {
          NothingYet(l.calls, Worth, user, PeriodOf(after, user));
          NothingYet(l.calls, GivenBack, user, PeriodOf(after, user));
          NothingYet(l.calls, Overshot, user, PeriodOf(after, user));
        }
      }
    }
  }

  lemma {:induction false} RunKeeps(run: seq<Step>)
    ensures IsKept(Run(run))
  {
    if run != [] {
      RunKeeps(run[..|run| - 1]);
      hide Do, IsKept;
      match run[|run| - 1]
      case Reserve(user, tokens, at) => ReserveKeeps(Run(run[..|run| - 1]), user, tokens, at);
      case End(i, charged) => EndKeeps(Run(run[..|run| - 1]), i, charged);
      case Pay(entry) => PayKeeps(Run(run[..|run| - 1]), entry);
    }
  }

  // ---- The results ----

  /** Over every run of payments, renewals, refunds, deletions and calls, a pass's count is what the
      calls since its renewal are worth, in flight at their reservation and ended at their charge:
      less at most what calls from before gave back since, and more at most what they overshot. */
  lemma {:induction false} CountAddsUp(run: seq<Step>, user: string)
    requires user in Run(run).books.access
    ensures
      var l := Run(run);
      var used := l.books.access[user].tokensUsed;
      && 0 <= used
      && Now(l, Worth, user) - Now(l, GivenBack, user) <= used <= Now(l, Worth, user) + Now(l, Overshot, user)
  {
    RunKeeps(run);
    assert AddsUp(Run(run), user);
  }

  /** A call of the user that ended in a later period than it was let in. */
  predicate IsLate(c: Call, user: string)
  {
    c.user == user && c.state.Ended? && c.state.period != c.period
  }

  /** What the user's late calls reserved and were charged is among these pairs. */
  ghost predicate LateAmong(l: Ledger, user: string, pairs: iset<(nat, nat)>)
  {
    forall i | 0 <= i < |l.calls| && IsLate(l.calls[i], user) ::
      (l.calls[i].reserved, l.calls[i].state.charged) in pairs
  }

  /** The user's count, if there is a pass, is what the calls since its renewal are worth. */
  ghost predicate IsConserved(l: Ledger, user: string)
  {
    user in l.books.access ==> l.books.access[user].tokensUsed == Now(l, Worth, user)
  }

  lemma {:induction false} FairEndsAddNothing(calls: seq<Call>, part: Part, user: string, period: nat)
    requires part != Worth
    requires forall i | 0 <= i < |calls| && IsLate(calls[i], user) :: calls[i].state.charged == calls[i].reserved
    ensures Sum(calls, part, user, period) == 0
  {
    if calls != [] {
      FairEndsAddNothing(calls[..|calls| - 1], part, user, period);
    }
  }

  lemma {:induction false} FairEndsConserve(run: seq<Step>, user: string)
    requires forall i | 0 <= i < |Run(run).calls| && IsLate(Run(run).calls[i], user) ::
               Run(run).calls[i].state.charged == Run(run).calls[i].reserved
    ensures IsConserved(Run(run), user)
  {
    hide Run, Sum;
    var l := Run(run);
    if user in l.books.access {
      CountAddsUp(run, user);
      FairEndsAddNothing(l.calls, GivenBack, user, PeriodOf(l, user));
      FairEndsAddNothing(l.calls, Overshot, user, PeriodOf(l, user));
    }
  }

  /** A purchase of one token for one day. */
  function SmallPass(token: string): PlayPurchase
  {
    PlayPurchase(token, None, 1, 1, 0)
  }

  /** Buy, call, renew, call again, and only then end the first call. */
  function LateRun(user: string, reserved: nat, charged: nat): seq<Step>
  {
    [Pay(PaymentFacts.Entry(PaymentFacts.Claim(SmallPass("first"), user), 1)), Reserve(user, reserved, 2),
     Pay(PaymentFacts.Entry(PaymentFacts.Claim(SmallPass("second"), user), 3)), Reserve(user, reserved, 4),
     End(0, charged)]
  }

  lemma {:induction false} RunOneMore(run: seq<Step>, step: Step)
    ensures Run(run + [step]) == Do(Run(run), step)
    ensures Run([]) == EMPTY
  {
    hide Do;
    assert (run + [step])[..|run|] == run;
  }

  /** The two passes bought, with the first call in flight. */
  lemma {:induction false} LateRunOpens(user: string, reserved: nat, charged: nat)
    ensures
      var l := Run(LateRun(user, reserved, charged)[..3]);
      && user in l.books.access && l.books.access[user].expiresAt > 4
      && l.books.access[user].tokensUsed == 0 && l.books.access[user].tokensLimit >= 1
      && l.periods == map[user := 2] && l.calls == [Call(user, reserved, 1, InFlight)]
  {
    hide Run;
    var run := LateRun(user, reserved, charged);
    assert run[..3] == [] + [run[0]] + [run[1]] + [run[2]];
    RunOneMore([], run[0]);
    RunOneMore([] + [run[0]], run[1]);
    RunOneMore([] + [run[0]] + [run[1]], run[2]);
    var l := Do(EMPTY, run[0]);
    assert l.books.plays == [SmallPass("first").(user := Some(user), grantedAt := 1)];
    assert l.periods == map[user := 1] && l.books.access == map[user := Access(1 + DAY, 1, 0, 1)];
    var m := Do(l, run[1]);
    assert m.calls == [Call(user, reserved, 1, InFlight)] && m.books.plays == l.books.plays;
  }

  /** The count ends at the first call's charge, while the second call is worth its reservation. */
  lemma {:induction false} LateRunMisses(user: string, reserved: nat, charged: nat)
    ensures
      var l := Run(LateRun(user, reserved, charged));
      && user in l.books.access && l.books.access[user].tokensUsed == charged
      && Now(l, Worth, user) == reserved
      && LateAmong(l, user, iset{(reserved, charged)})
  {
    hide Run;
    var run := LateRun(user, reserved, charged);
    LateRunOpens(user, reserved, charged);
    assert run == run[..3] + [run[3]] + [run[4]];
    RunOneMore(run[..3], run[3]);
    RunOneMore(run[..3] + [run[3]], run[4]);
    var first, second := Call(user, reserved, 1, Ended(charged, 2)), Call(user, reserved, 2, InFlight);
    assert Run(run).calls == [first, second];
    assert [first, second] == [] + [first] + [second];
    SumAdded([], first, Worth, user, 2);
    SumAdded([] + [first], second, Worth, user, 2);
  }

  /** In every run whose late calls reserved and were charged what these pairs say, the count is
      conserved, if and only if in each pair both are the same. */
  lemma {:induction false} CountIsConservedExactly(user: string, pairs: iset<(nat, nat)>)
    ensures
      (forall run | LateAmong(Run(run), user, pairs) :: IsConserved(Run(run), user))
      <==> forall p: (nat, nat) | p in pairs :: p.0 == p.1
  {
    hide Run, Now, LateRun;
    if forall p: (nat, nat) | p in pairs :: p.0 == p.1 {
      forall run | LateAmong(Run(run), user, pairs)
        ensures IsConserved(Run(run), user)
      {
        FairEndsConserve(run, user);
      }
    } else {
      var p: (nat, nat) :| p in pairs && p.0 != p.1;
      LateRunMisses(user, p.0, p.1);
      assert LateAmong(Run(LateRun(user, p.0, p.1)), user, pairs);
      assert !IsConserved(Run(LateRun(user, p.0, p.1)), user);
    }
  }
}
