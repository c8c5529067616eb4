/** The weekly cap. Each check looks back over the 7 days that end with its own call's day, so
    whether any 7 days in a row stay below the cap depends on the order in which days commit. */
module WeekFacts {
  import opened Text
  import opened Usage
  import opened UsageFacts

  predicate CapsWeek(step: Step, user: string, cap: int)
  {
    step.Reserve? && step.key.user == user ==>
      step.limits.userWeeklyTokens.Some? && step.limits.userWeeklyTokens.value <= cap
  }

  ghost predicate CapsWeeks(run: seq<Step>, user: string, cap: int)
  {
    forall i | 0 <= i < |run| :: CapsWeek(run[i], user, cap)
  }

  /** The days of the user's accepted reservations, in the order they were committed. */
  function CommitDays(calls: seq<Call>, user: string): seq<int>
  {
    if calls == [] then []
    else
      var front, key := CommitDays(calls[..|calls| - 1], user), calls[|calls| - 1].key;
      if key.user == user then front + [key.day] else front
  }

  /** No day is committed after a later day of the same 7 days. */
  ghost predicate WeeksInOrder(days: seq<int>)
  {
    forall i, j | 0 <= i < j < |days| :: days[i] <= days[j] || days[j] <= days[i] - WEEK_DAYS
  }

  // ---- In order, the cap holds ----

  /** No 7 days in a row hold the cap or more within reservations, wherever they end. */
  ghost predicate WeeksBelow(calls: seq<Call>, user: string, cap: int)
  {
    forall day: int :: OwedWithin(calls, OfUserWeek(user, day)) < cap
  }

  lemma {:induction false} CallIsCommitted(calls: seq<Call>, i: nat, user: string)
    requires i < |calls| && calls[i].key.user == user
    ensures calls[i].key.day in CommitDays(calls, user)
  {
    if i < |calls| - 1 {
      CallIsCommitted(calls[..|calls| - 1], i, user);
    }
  }

  /** A later call is not of a week that ends with the day of `c` or later, but before the 7 days
      that the check of `c` looked at end. */
  lemma {:induction false} CallsBeforeAreSeen(calls: seq<Call>, c: Call, user: string, i: nat, day: int)
    requires i < |calls| && calls[i].key.user == user == c.key.user
    requires WeeksInOrder(CommitDays(calls + [c], user))
    requires c.key.day <= day < c.key.day + WEEK_DAYS && OfUserWeek(user, day).Covers(calls[i].key)
    ensures OfUserWeek(user, c.key.day).Covers(calls[i].key)
  {
    assert (calls + [c])[..|calls|] == calls;
    CallIsCommitted(calls, i, user);
    var days := CommitDays(calls, user);
    var k :| 0 <= k < |days| && days[k] == calls[i].key.day;
    assert CommitDays(calls + [c], user) == days + [c.key.day];
    assert (days + [c.key.day])[k] == days[k] && (days + [c.key.day])[|days|] == c.key.day;
  }

  /** A new call: a week that it is not of is as it was, and one that it is of holds nothing the
      check did not see. */
  lemma {:induction false} ReservingKeepsWeeks(calls: seq<Call>, c: Call, user: string, cap: int)
    requires WeeksBelow(calls, user, cap) && WeeksInOrder(CommitDays(calls + [c], user))
    requires c.key.user == user ==> OwedWithin(calls + [c], OfUserWeek(user, c.key.day)) < cap
    ensures WeeksBelow(calls + [c], user, cap)
  {
    var all := calls + [c];
    assert all[..|calls|] == calls;
    forall day: int
      ensures OwedWithin(all, OfUserWeek(user, day)) < cap
    {
      assert OwedWithin(calls, OfUserWeek(user, day)) < cap;
      if OfUserWeek(user, day).Covers(c.key) {
        forall i | 0 <= i < |all| && OfUserWeek(user, day).Covers(all[i].key)
          ensures OfUserWeek(user, c.key.day).Covers(all[i].key)
        {
          if i < |calls| {
            CallsBeforeAreSeen(calls, c, user, i, day);
          }
        }
        NarrowerOwesLess(all, OfUserWeek(user, day), OfUserWeek(user, c.key.day));
      }
    }
  }

  lemma {:induction false} WeeksBelowStep(l: Ledger, step: Step, user: string, cap: int)
    requires Conserved(l) && WeeksBelow(l.calls, user, cap) && CapsWeek(step, user, cap)
    requires WeeksInOrder(CommitDays(Do(l, step).calls, user))
    ensures WeeksBelow(Do(l, step).calls, user, cap)
  {
    hide Reserving, Releasing, Settling, Conserved, OwedWithin, CommitDays;
    if step.Reserve? && Reserving(l.rows, step.key, step.limits, step.reserved).0.denied.None? {
      AcceptedIsBelow(l, step.key, step.limits, step.reserved);
      ReservingKeepsWeeks(l.calls, Call(step.key, step.reserved, InFlight), user, cap);
    } else {
      OthersShrink(l, step);
      forall day: int
        ensures OwedWithin(Do(l, step).calls, OfUserWeek(user, day)) < cap
      {
        ShrinkingOwesLess(l.calls, Do(l, step).calls, OfUserWeek(user, day));
      }
    }
  }

  lemma {:induction false} SameKeysSameDays(calls: seq<Call>, later: seq<Call>, user: string)
    requires |calls| == |later| && forall i | 0 <= i < |calls| :: later[i].key == calls[i].key
    ensures CommitDays(later, user) == CommitDays(calls, user)
  {
    if calls != [] {
      SameKeysSameDays(calls[..|calls| - 1], later[..|calls| - 1], user);
    }
  }

  /** Days are only ever added, at the end. */
  lemma {:induction false} DaysGrow(l: Ledger, step: Step, user: string)
    ensures CommitDays(l.calls, user) <= CommitDays(Do(l, step).calls, user)
  {
    hide Reserving, Releasing, Settling;
    var later := Do(l, step).calls;
    if |later| == |l.calls| {
      SameKeysSameDays(l.calls, later, user);
    } else {
      assert later[..|l.calls|] == l.calls;
    }
  }

  lemma {:induction false} RunKeepsWeeksBelow(run: seq<Step>, user: string, cap: int)
    requires 1 <= cap && CapsWeeks(run, user, cap)
    requires WeeksInOrder(CommitDays(Run(EMPTY, run).calls, user))
    ensures WeeksBelow(Run(EMPTY, run).calls, user, cap)
  {
    if run != [] {
      var n := |run| - 1;
      assert forall i | 0 <= i < n :: run[..n][i] == run[i];
      hide Do, WeeksBelow, WeeksInOrder, CapsWeek;
      var l := Run(EMPTY, run[..n]);
      DaysGrow(l, run[n], user);
      RunKeepsWeeksBelow(run[..n], user, cap);
      RunConserves(run[..n]);
      WeeksBelowStep(l, run[n], user, cap);
    }
  }

  /** When no day of a user is committed after a later day of the same week, any 7 days in a row
      total less than the weekly cap, plus only what calls of those days spent above their
      reservations. */
  lemma {:induction false} WeekStaysBelowCap(run: seq<Step>, user: string, cap: int, day: int)
    requires 1 <= cap && CapsWeeks(run, user, cap)
    requires WeeksInOrder(CommitDays(Run(EMPTY, run).calls, user))
    ensures
      var l := Run(EMPTY, run);
      Total(l.rows, OfUserWeek(user, day)).Tokens() < cap + Excess(l.calls, OfUserWeek(user, day))
  {
    hide Run, Total, Owed, OwedWithin, Excess, CapsWeeks, WeeksInOrder;
    RunConserves(run);
    RunKeepsWeeksBelow(run, user, cap);
    TokensSplit(Run(EMPTY, run).calls, OfUserWeek(user, day));
  }

  // ---- Out of order, it does not ----

  /** The calls that commit these days, nearly the whole cap each for days `i` and `j` and nothing
      for the others. */
  function CallAt(user: string, cap: nat, days: seq<int>, i: nat, j: nat, k: nat): Call
    requires k < |days| && cap >= 1
  {
    var tokens := if k == i || k == j then cap - 1 else 0;
    Call(UsageKey(user, days[k], "provider", "model"), TokenCounts(tokens, 0), InFlight)
  }

  function LimitsFor(cap: nat, days: seq<int>): DailyLimits
  {
    DailyLimits(|days|, 2 * cap, 2 * cap, Some(cap))
  }

  function CallsFor(user: string, cap: nat, days: seq<int>, i: nat, j: nat, k: nat): seq<Call>
    requires k <= |days| && cap >= 1
  {
    seq(k, n requires 0 <= n < k => CallAt(user, cap, days, i, j, n))
  }

  function RunFor(user: string, cap: nat, days: seq<int>, i: nat, j: nat, k: nat): seq<Step>
    requires k <= |days| && cap >= 1
  {
    seq(k, n requires 0 <= n < k =>
      var c := CallAt(user, cap, days, i, j, n);
      Reserve(c.key, LimitsFor(cap, days), c.reserved))
  }

  lemma {:induction false} OwedCalls(calls: seq<Call>, scope: Scope)
    ensures Owed(calls, scope).calls <= |calls|
  {
    if calls != [] {
      OwedCalls(calls[..|calls| - 1], scope);
    }
  }

  /** With all calls but one worth no tokens, a scope owes that one's. */
  lemma {:induction false} OwedOnly(calls: seq<Call>, scope: Scope, i: nat)
    requires forall n | 0 <= n < |calls| && n != i :: Worth(calls[n]).Tokens() == 0
    ensures Owed(calls, scope).Tokens() ==
            if i < |calls| && scope.Covers(calls[i].key) then Worth(calls[i]).Tokens() else 0
  {
    if calls != [] {
      OwedOnly(calls[..|calls| - 1], scope, i);
    }
  }

  /** What a scope owes of the calls up to `k`, the later of the two days being the last at most. */
  lemma {:induction false} OwedFor(user: string, cap: nat, days: seq<int>, i: nat, j: nat, k: nat, scope: Scope)
    requires cap >= 1 && i < j && k <= j + 1 && k <= |days|
    ensures
      var calls := CallsFor(user, cap, days, i, j, k);
      Owed(calls, scope).Tokens() ==
      (if i < k && scope.Covers(calls[i].key) then cap - 1 else 0)
      + (if j < k && scope.Covers(calls[j].key) then cap - 1 else 0)
  {
    hide Owed, Scope.Covers;
    var calls := CallsFor(user, cap, days, i, j, k);
    if k == j + 1 {
      OwedOnly(calls[..j], scope, i);
      OwedLast(calls, scope);
    } else {
      OwedOnly(calls, scope, i);
    }
  }

  lemma {:induction false} OwedLast(calls: seq<Call>, scope: Scope)
    requires calls != []
    ensures
      var last := calls[|calls| - 1];
      Owed(calls, scope).Tokens() ==
      Owed(calls[..|calls| - 1], scope).Tokens() + if scope.Covers(last.key) then Worth(last).Tokens() else 0
  {
    hide Scope.Covers, Worth;
  }

  /** The table once call `k` is counted, before it is decided. */
  lemma {:induction false} TotalsFor(
      l: Ledger, user: string, cap: nat, days: seq<int>, i: nat, j: nat, k: nat, scope: Scope)
    requires cap >= 1 && i < j && k <= j < |days|
    requires Conserved(l) && l.calls == CallsFor(user, cap, days, i, j, k)
    ensures
      var c := CallAt(user, cap, days, i, j, k);
      var total := Total(WithCall(l.rows, c.key, c.reserved), scope);
      && total.calls <= k + 1
      && total.Tokens() ==
         (if i <= k && scope.Covers(CallAt(user, cap, days, i, j, i).key) then cap - 1 else 0)
         + (if j <= k && scope.Covers(CallAt(user, cap, days, i, j, j).key) then cap - 1 else 0)
  {
    hide WithCall, Total, Owed, OwedWithin, Conserved, Worth, Scope.Covers, Excess;
    var c := CallAt(user, cap, days, i, j, k);
    ReserveConserves(l, c.key, c.reserved);
    var calls := l.calls + [c];
    assert calls == CallsFor(user, cap, days, i, j, k + 1);
    OwedCalls(calls, scope);
    OwedFor(user, cap, days, i, j, k + 1, scope);
    TotalCoversOwed(Ledger(WithCall(l.rows, c.key, c.reserved), calls), scope);
  }

  /** Each of the calls passes every check, the one of day `j` too: its week ends before day `i`. */
  lemma {:induction false} CallFits(l: Ledger, user: string, cap: nat, days: seq<int>, i: nat, j: nat, k: nat)
    requires cap >= 2 && i < j && k <= j < |days| && days[j] < days[i]
    requires Conserved(l) && l.calls == CallsFor(user, cap, days, i, j, k)
    ensures
      var c := CallAt(user, cap, days, i, j, k);
      OverLimit(WithCall(l.rows, c.key, c.reserved), c.key, LimitsFor(cap, days)).None?
  {
    hide WithCall, Total, Conserved, CallsFor;
    TotalsFor(l, user, cap, days, i, j, k, OfDay(days[k]));
    TotalsFor(l, user, cap, days, i, j, k, OfUserDay(user, days[k]));
    TotalsFor(l, user, cap, days, i, j, k, OfUserWeek(user, days[k]));
  }

  lemma {:induction false} RunIsLetIn(user: string, cap: nat, days: seq<int>, i: nat, j: nat, k: nat)
    requires cap >= 2 && i < j < |days| && k <= j + 1 && days[j] < days[i]
    ensures Run(EMPTY, RunFor(user, cap, days, i, j, k)).calls == CallsFor(user, cap, days, i, j, k)
  {
    hide WithCall, OverLimit, Do, Run, Conserved;
    var run := RunFor(user, cap, days, i, j, k);
    if k == 0 {
      NothingRuns();
      assert run == [] && CallsFor(user, cap, days, i, j, k) == [];
    } else {
      RunIsLetIn(user, cap, days, i, j, k - 1);
      assert run[..k - 1] == RunFor(user, cap, days, i, j, k - 1);
      var l, c := Run(EMPTY, run[..k - 1]), CallAt(user, cap, days, i, j, k - 1);
      RunConserves(run[..k - 1]);
      CallFits(l, user, cap, days, i, j, k - 1);
      LetIn(l, c.key, LimitsFor(cap, days), c.reserved);
      RunOnce(run);
      assert CallsFor(user, cap, days, i, j, k) == l.calls + [c];
    }
  }

  lemma {:induction false} NothingRuns()
    ensures Run(EMPTY, []) == EMPTY
  {
  }

  lemma {:induction false} RunOnce(run: seq<Step>)
    requires run != []
    ensures Run(EMPTY, run) == Do(Run(EMPTY, run[..|run| - 1]), run[|run| - 1])
  {
    hide Do;
  }

  lemma {:induction false} LetIn(l: Ledger, key: UsageKey, limits: DailyLimits, reserved: TokenCounts)
    requires OverLimit(WithCall(l.rows, key, reserved), key, limits).None?
    ensures Do(l, Reserve(key, limits, reserved)).calls == l.calls + [Call(key, reserved, InFlight)]
  {
    hide OverLimit, WithCall, Total;
  }

  lemma {:induction false} DaysFor(user: string, cap: nat, days: seq<int>, i: nat, j: nat, k: nat)
    requires cap >= 1 && k <= |days|
    ensures CommitDays(CallsFor(user, cap, days, i, j, k), user) == days[..k]
  {
    if k > 0 {
      DaysFor(user, cap, days, i, j, k - 1);
      assert CallsFor(user, cap, days, i, j, k)[..k - 1] == CallsFor(user, cap, days, i, j, k - 1);
    }
  }

  lemma {:induction false} NoExcess(calls: seq<Call>, scope: Scope)
    requires forall i | 0 <= i < |calls| :: calls[i].state == InFlight
    ensures Excess(calls, scope) == 0
  {
    if calls != [] {
      NoExcess(calls[..|calls| - 1], scope);
    }
  }

  lemma {:induction false} LateWeekTotal(l: Ledger, user: string, cap: nat, days: seq<int>, i: nat, j: nat)
    requires cap >= 1 && i < j < |days| && days[i] - WEEK_DAYS < days[j] < days[i]
    requires Conserved(l) && l.calls == CallsFor(user, cap, days, i, j, j + 1)
    ensures Total(l.rows, OfUserWeek(user, days[i])).Tokens() == (cap - 1) + (cap - 1)
    ensures Excess(l.calls, OfUserWeek(user, days[i])) == 0
  {
    hide Total, Owed, OwedWithin, Excess, Conserved;
    var scope := OfUserWeek(user, days[i]);
    TotalCoversOwed(l, scope);
    OwedFor(user, cap, days, i, j, j + 1, scope);
    NoExcess(l.calls, scope);
  }

  lemma {:induction false} RunIsCapped(user: string, cap: nat, days: seq<int>, i: nat, j: nat, k: nat)
    requires cap >= 1 && k <= |days|
    ensures CapsWeeks(RunFor(user, cap, days, i, j, k), user, cap)
  {
  }

  /** A day committed after a later one of the same week lets that week pass the cap. */
  lemma {:induction false} LateDayPassesCap(user: string, cap: nat, days: seq<int>, i: nat, j: nat)
    requires cap >= 2 && i < j < |days| && days[i] - WEEK_DAYS < days[j] < days[i]
    ensures
      var run := RunFor(user, cap, days, i, j, j + 1);
      var l := Run(EMPTY, run);
      && CapsWeeks(run, user, cap) && CommitDays(l.calls, user) == days[..j + 1]
      && Total(l.rows, OfUserWeek(user, days[i])).Tokens() >= cap + Excess(l.calls, OfUserWeek(user, days[i]))
  {
    hide Run, RunFor, CallsFor, Total, Excess, CommitDays, Conserved, CapsWeeks;
    RunIsLetIn(user, cap, days, i, j, j + 1);
    DaysFor(user, cap, days, i, j, j + 1);
    RunConserves(RunFor(user, cap, days, i, j, j + 1));
    RunIsCapped(user, cap, days, i, j, j + 1);
    LateWeekTotal(Run(EMPTY, RunFor(user, cap, days, i, j, j + 1)), user, cap, days, i, j);
  }

  /** Every 7 days in a row stay below the cap, plus what calls spent above their reservations. */
  ghost predicate WeeksStayBelow(run: seq<Step>, user: string, cap: int)
  {
    var l := Run(EMPTY, run);
    forall day: int ::
      Total(l.rows, OfUserWeek(user, day)).Tokens() < cap + Excess(l.calls, OfUserWeek(user, day))
  }

  /** The weekly cap holds at all times, in every run that commits a user's reservations on these
      days in this order, if and only if no day is committed after a later one of its week. */
  lemma {:induction false} WeekCapHoldsExactly(user: string, cap: nat, days: seq<int>)
    requires cap >= 2
    ensures
      (forall run | CapsWeeks(run, user, cap) && CommitDays(Run(EMPTY, run).calls, user) <= days ::
         WeeksStayBelow(run, user, cap))
      <==> WeeksInOrder(days)
  {
    hide Run, Total, Excess, CapsWeeks, CommitDays, RunFor;
    if WeeksInOrder(days) {
      forall run | CapsWeeks(run, user, cap) && CommitDays(Run(EMPTY, run).calls, user) <= days
        ensures WeeksStayBelow(run, user, cap)
      {
        forall day: int
          ensures
            var l := Run(EMPTY, run);
            Total(l.rows, OfUserWeek(user, day)).Tokens() < cap + Excess(l.calls, OfUserWeek(user, day))
        {
          WeekStaysBelowCap(run, user, cap, day);
        }
      }
    } else {
      var i, j :| 0 <= i < j < |days| && !(days[i] <= days[j] || days[j] <= days[i] - WEEK_DAYS);
      LateDayPassesCap(user, cap, days, i, j);
      assert days[..j + 1] <= days;
      assert !WeeksStayBelow(RunFor(user, cap, days, i, j, j + 1), user, cap);
    }
  }
}
