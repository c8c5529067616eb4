/** What holds of the usage table over every run of reservations, denials, releases and
    settlements: it is always the sum of the calls behind it, and the caps hold. */
module UsageFacts {
  import opened Text
  import opened Usage

  datatype CallState = InFlight | Released | Settled(actual: TokenCounts)

  /** One accepted reservation and what became of it. */
  datatype Call = Call(key: UsageKey, reserved: TokenCounts, state: CallState)

  /** The table, and beside it the calls it stands for. */
  datatype Ledger = Ledger(rows: seq<UsageRow>, calls: seq<Call>)

  /** A call is released or settled once, while it is in flight. */
  datatype Step =
    | Reserve(key: UsageKey, limits: DailyLimits, reserved: TokenCounts)
    | Release(call: nat)
    | Settle(call: nat, actual: TokenCounts)

  predicate IsInFlight(calls: seq<Call>, i: nat)
  {
    i < |calls| && calls[i].state == InFlight
  }

  function Do(l: Ledger, step: Step): Ledger
  {
    match step
    case Reserve(key, limits, reserved) =>
      var (result, rows) := Reserving(l.rows, key, limits, reserved);
      Ledger(rows, if result.denied.Some? then l.calls else l.calls + [Call(key, reserved, InFlight)])
    case Release(i) =>
      if !IsInFlight(l.calls, i) then l
      else
        var c := l.calls[i];
        Ledger(Releasing(l.rows, c.key, c.reserved), l.calls[i := c.(state := Released)])
    case Settle(i, actual) =>
      if !IsInFlight(l.calls, i) then l
      else
        var c := l.calls[i];
        Ledger(Settling(l.rows, c.key, c.reserved, actual), l.calls[i := c.(state := Settled(actual))])
  }

  function Run(l: Ledger, run: seq<Step>): Ledger
  {
    if run == [] then l else Do(Run(l, run[..|run| - 1]), run[|run| - 1])
  }

  const EMPTY := Ledger([], [])

  // ---- What the calls add up to ----

  /** What one call counts for: its reservation in flight, what it spent once settled. */
  function Worth(c: Call): (r: Count)
    ensures r.calls >= 0 && r.input >= 0 && r.output >= 0
  {
    match c.state
    case InFlight => Count(1, c.reserved.input, c.reserved.output)
    case Released => NOTHING
    case Settled(actual) => Count(1, actual.input, actual.output)
  }

  function Owed(calls: seq<Call>, scope: Scope): (r: Count)
    ensures r.calls >= 0 && r.input >= 0 && r.output >= 0
  {
    if calls == [] then NOTHING
    else
      var last := calls[|calls| - 1];
      var front := Owed(calls[..|calls| - 1], scope);
      if scope.Covers(last.key) then front.Plus(Worth(last)) else front
  }

  ghost predicate UniqueKeys(rows: seq<UsageRow>)
  {
    forall i, j | 0 <= i < j < |rows| :: rows[i].key != rows[j].key
  }

  ghost predicate AddsUp(l: Ledger)
  {
    forall scope: Scope :: Total(l.rows, scope) == Owed(l.calls, scope)
  }

  /** Every total of the table, down to a single row, is that of its calls. */
  ghost predicate Conserved(l: Ledger)
  {
    UniqueKeys(l.rows) && AddsUp(l)
  }

  lemma {:induction false} TotalUpdated(rows: seq<UsageRow>, i: nat, row: UsageRow, scope: Scope)
    requires i < |rows| && row.key == rows[i].key
    ensures Total(rows[i := row], scope) ==
            if scope.Covers(row.key) then Total(rows, scope).Plus(row.count).Minus(rows[i].count)
            else Total(rows, scope)
  {
    var n := |rows| - 1;
    if i < n {
      assert rows[i := row][..n] == rows[..n][i := row];
      TotalUpdated(rows[..n], i, row, scope);
    } else {
      assert rows[i := row][..n] == rows[..n];
    }
  }

  lemma {:induction false} OwedUpdated(calls: seq<Call>, i: nat, c: Call, scope: Scope)
    requires i < |calls| && c.key == calls[i].key
    ensures Owed(calls[i := c], scope) ==
            if scope.Covers(c.key) then Owed(calls, scope).Plus(Worth(c)).Minus(Worth(calls[i])) else Owed(calls, scope)
  {
    var n := |calls| - 1;
    if i < n {
      assert calls[i := c][..n] == calls[..n][i := c];
      OwedUpdated(calls[..n], i, c, scope);
    } else {
      assert calls[i := c][..n] == calls[..n];
    }
  }

  lemma {:induction false} OwedCovers(calls: seq<Call>, i: nat, scope: Scope)
    requires i < |calls| && scope.Covers(calls[i].key)
    ensures
      var (all, one) := (Owed(calls, scope), Worth(calls[i]));
      all.calls >= one.calls && all.input >= one.input && all.output >= one.output
  {
    var n := |calls| - 1;
    if i < n {
      OwedCovers(calls[..n], i, scope);
    }
  }

  lemma {:induction false} TotalOfMissing(rows: seq<UsageRow>, key: UsageKey)
    requires forall i | 0 <= i < |rows| :: rows[i].key != key
    ensures Total(rows, OfKey(key)) == NOTHING
  {
    if rows != [] {
      TotalOfMissing(rows[..|rows| - 1], key);
    }
  }

  /** The total of one key is its row's. */
  lemma {:induction false} TotalOfRow(rows: seq<UsageRow>, i: nat)
    requires UniqueKeys(rows) && i < |rows|
    ensures Total(rows, OfKey(rows[i].key)) == rows[i].count
  {
    var n := |rows| - 1;
    if i < n {
      TotalOfRow(rows[..n], i);
    } else {
      TotalOfMissing(rows[..n], rows[i].key);
    }
  }

  /** A row is the sum of its own calls, in flight and settled. */
  lemma {:induction false} RowIsItsCalls(l: Ledger, i: nat)
    requires Conserved(l) && i < |l.rows|
    ensures l.rows[i].count == Owed(l.calls, OfKey(l.rows[i].key))
  {
    TotalOfRow(l.rows, i);
  }

  // ---- Each step keeps it so ----

  lemma {:induction false} ReserveConserves(l: Ledger, key: UsageKey, reserved: TokenCounts)
    requires Conserved(l)
    ensures Conserved(Ledger(WithCall(l.rows, key, reserved), l.calls + [Call(key, reserved, InFlight)]))
  {
    var c := Call(key, reserved, InFlight);
    var rows, calls := WithCall(l.rows, key, reserved), l.calls + [c];
    assert calls[..|l.calls|] == l.calls;
    forall scope: Scope
      ensures Total(rows, scope) == Owed(calls, scope)
    {
      assert Total(l.rows, scope) == Owed(l.calls, scope);
      if FindRow(l.rows, key).Some? {
        var i := FindRow(l.rows, key).value;
        TotalUpdated(l.rows, i, rows[i], scope);
      } else {
        assert rows[..|l.rows|] == l.rows;
      }
    }
  }

  /** The row of a call in flight holds all that the call reserved, so taking it out of the row
      never stops at 0. */
  lemma {:induction false} RowHoldsCall(l: Ledger, i: nat)
    requires Conserved(l) && IsInFlight(l.calls, i)
    ensures
      var found := FindRow(l.rows, l.calls[i].key);
      && found.Some?
      && l.rows[found.value].count.calls >= 1
      && l.rows[found.value].count.input >= l.calls[i].reserved.input
      && l.rows[found.value].count.output >= l.calls[i].reserved.output
  {
    var key := l.calls[i].key;
    OwedCovers(l.calls, i, OfKey(key));
    assert Total(l.rows, OfKey(key)) == Owed(l.calls, OfKey(key));
    if FindRow(l.rows, key).None? {
      TotalOfMissing(l.rows, key);
    } else {
      TotalOfRow(l.rows, FindRow(l.rows, key).value);
    }
  }

  /** Ending a call moves its row by the change of its worth. */
  lemma {:induction false} EndingConserves(l: Ledger, i: nat, ended: Call, at: nat, row: UsageRow)
    requires Conserved(l) && i < |l.calls| && at < |l.rows|
    requires ended.key == l.calls[i].key == l.rows[at].key == row.key
    requires row.count == l.rows[at].count.Plus(Worth(ended)).Minus(Worth(l.calls[i]))
    ensures Conserved(Ledger(l.rows[at := row], l.calls[i := ended]))
  {
    var rows, calls := l.rows[at := row], l.calls[i := ended];
    forall scope: Scope
      ensures Total(rows, scope) == Owed(calls, scope)
    {
      assert Total(l.rows, scope) == Owed(l.calls, scope);
      TotalUpdated(l.rows, at, row, scope);
      OwedUpdated(l.calls, i, ended, scope);
    }
  }

  lemma {:induction false} StepConserves(l: Ledger, step: Step)
    requires Conserved(l)
    ensures Conserved(Do(l, step))
  {
    hide Conserved;
    match step
    case Reserve(key, limits, reserved) => ReserveConserves(l, key, reserved);
    case Release(i) =>
      if IsInFlight(l.calls, i) {
        RowHoldsCall(l, i);
        var c, at := l.calls[i], FindRow(l.rows, l.calls[i].key).value;
        EndingConserves(l, i, c.(state := Released), at, Releasing(l.rows, c.key, c.reserved)[at]);
      }
    case Settle(i, actual) =>
      if IsInFlight(l.calls, i) {
        RowHoldsCall(l, i);
        var c, at := l.calls[i], FindRow(l.rows, l.calls[i].key).value;
        EndingConserves(l, i, c.(state := Settled(actual)), at, Settling(l.rows, c.key, c.reserved, actual)[at]);
      }
  }

  /** Over every run, every total of the table is that of the calls still in flight, at what
      they reserved, and of those settled, at what they spent. */
  lemma {:induction false} RunConserves(run: seq<Step>)
    ensures Conserved(Run(EMPTY, run))
  {
    if run != [] {
      RunConserves(run[..|run| - 1]);
      StepConserves(Run(EMPTY, run[..|run| - 1]), run[|run| - 1]);
    }
  }

  // ---- The caps ----

  /** What a call counts for, up to what it reserved. */
  function WithinReserved(c: Call): nat
  {
    match c.state
    case InFlight => c.reserved.Total()
    case Released => 0
    case Settled(actual) => if actual.Total() < c.reserved.Total() then actual.Total() else c.reserved.Total()
  }

  function OwedWithin(calls: seq<Call>, scope: Scope): nat
  {
    if calls == [] then 0
    else
      var last := calls[|calls| - 1];
      OwedWithin(calls[..|calls| - 1], scope) + if scope.Covers(last.key) then WithinReserved(last) else 0
  }

  /** What settled calls spent above their reservations. */
  function Excess(calls: seq<Call>, scope: Scope): nat
  {
    if calls == [] then 0
    else
      var last := calls[|calls| - 1];
      Excess(calls[..|calls| - 1], scope) +
      if scope.Covers(last.key) && last.state.Settled?
      then AtLeastZero(last.state.actual.Total() - last.reserved.Total()) else 0
  }

  lemma {:induction false} TokensSplit(calls: seq<Call>, scope: Scope)
    ensures Owed(calls, scope).Tokens() == OwedWithin(calls, scope) + Excess(calls, scope)
  {
    if calls != [] {
      TokensSplit(calls[..|calls| - 1], scope);
    }
  }

  /** Calls after a step: each where it was, with the same key and reservation, and never worth
      more within its reservation. */
  ghost predicate OnlyShrink(calls: seq<Call>, later: seq<Call>)
  {
    && |later| == |calls|
    && forall i | 0 <= i < |calls| ::
         later[i].key == calls[i].key && WithinReserved(later[i]) <= WithinReserved(calls[i])
  }

  lemma {:induction false} ShrinkingOwesLess(calls: seq<Call>, later: seq<Call>, scope: Scope)
    requires OnlyShrink(calls, later)
    ensures OwedWithin(later, scope) <= OwedWithin(calls, scope)
  {
    if calls != [] {
      ShrinkingOwesLess(calls[..|calls| - 1], later[..|calls| - 1], scope);
    }
  }

  /** A smaller scope, on these calls, owes no more. */
  lemma {:induction false} NarrowerOwesLess(calls: seq<Call>, scope: Scope, wider: Scope)
    requires forall i | 0 <= i < |calls| :: scope.Covers(calls[i].key) ==> wider.Covers(calls[i].key)
    ensures OwedWithin(calls, scope) <= OwedWithin(calls, wider)
  {
    if calls != [] {
      NarrowerOwesLess(calls[..|calls| - 1], scope, wider);
    }
  }

  /** A total of the table covers what its calls owe within their reservations. */
  lemma {:induction false} TotalCoversOwed(l: Ledger, scope: Scope)
    requires Conserved(l)
    ensures OwedWithin(l.calls, scope) <= Total(l.rows, scope).Tokens()
    ensures Total(l.rows, scope) == Owed(l.calls, scope)
  {
    hide Total, Owed, OwedWithin, Excess;
    assert Total(l.rows, scope) == Owed(l.calls, scope);
    TokensSplit(l.calls, scope);
  }

  /** An accepted reservation leaves every total it was checked against below its limit. */
  lemma {:induction false} AcceptedIsBelow(l: Ledger, key: UsageKey, limits: DailyLimits, reserved: TokenCounts)
    requires Conserved(l) && Reserving(l.rows, key, limits, reserved).0.denied.None?
    ensures
      var calls := Do(l, Reserve(key, limits, reserved)).calls;
      && calls == l.calls + [Call(key, reserved, InFlight)]
      && OwedWithin(calls, OfDay(key.day)) < limits.globalTokens
      && OwedWithin(calls, OfUserDay(key.user, key.day)) < limits.userTokens
      && Owed(calls, OfUserDay(key.user, key.day)).calls <= limits.userCalls
      && (limits.userWeeklyTokens.Some? ==>
            OwedWithin(calls, OfUserWeek(key.user, key.day)) < limits.userWeeklyTokens.value)
  {
    hide Reserving, Owed, OwedWithin, Total, Conserved, Do;
    var after := Do(l, Reserve(key, limits, reserved));
    StepConserves(l, Reserve(key, limits, reserved));
    AcceptedRows(l, key, limits, reserved);
    TotalCoversOwed(after, OfDay(key.day));
    TotalCoversOwed(after, OfUserDay(key.user, key.day));
    TotalCoversOwed(after, OfUserWeek(key.user, key.day));
  }

  lemma {:induction false} AcceptedRows(l: Ledger, key: UsageKey, limits: DailyLimits, reserved: TokenCounts)
    requires Reserving(l.rows, key, limits, reserved).0.denied.None?
    ensures OverLimit(Do(l, Reserve(key, limits, reserved)).rows, key, limits).None?
    ensures Do(l, Reserve(key, limits, reserved)).calls == l.calls + [Call(key, reserved, InFlight)]
  {
    hide OverLimit, WithCall, Total;
  }

  /** Releasing, settling or denying a call only shrinks what is owed. */
  lemma {:induction false} OthersShrink(l: Ledger, step: Step)
    requires step.Reserve? ==> Reserving(l.rows, step.key, step.limits, step.reserved).0.denied.Some?
    ensures OnlyShrink(l.calls, Do(l, step).calls)
    ensures forall scope: Scope :: Owed(Do(l, step).calls, scope).calls <= Owed(l.calls, scope).calls
  {
    hide Owed, Releasing, Settling;
    if !step.Reserve? && IsInFlight(l.calls, step.call) {
      forall scope: Scope
        ensures Owed(Do(l, step).calls, scope).calls <= Owed(l.calls, scope).calls
      {
        OwedUpdated(l.calls, step.call, Do(l, step).calls[step.call], scope);
      }
    }
  }

  predicate CapsCalls(step: Step, user: string, most: nat)
  {
    step.Reserve? && step.key.user == user ==> step.limits.userCalls <= most
  }

  /** No user is ever counted for more calls in a day than the limit, over every run of
      reservations, denials, releases and settlements. */
  lemma {:induction false} CallsStayWithinLimit(run: seq<Step>, user: string, day: int, most: nat)
    requires forall i | 0 <= i < |run| :: CapsCalls(run[i], user, most)
    ensures Total(Run(EMPTY, run).rows, OfUserDay(user, day)).calls <= most
  {
    RunConserves(run);
    if run != [] {
      var n := |run| - 1;
      var l, step := Run(EMPTY, run[..n]), run[n];
      assert forall i | 0 <= i < n :: run[..n][i] == run[i];
      CallsStayWithinLimit(run[..n], user, day, most);
      RunConserves(run[..n]);
      hide Total, Reserving, Releasing, Settling, CapsCalls;
      assert Total(l.rows, OfUserDay(user, day)) == Owed(l.calls, OfUserDay(user, day));
      assert CapsCalls(step, user, most);
      CallsStayStep(l, step, user, day, most);
    }
  }

  lemma {:induction false} CallsStayStep(l: Ledger, step: Step, user: string, day: int, most: nat)
    requires Conserved(l) && Owed(l.calls, OfUserDay(user, day)).calls <= most && CapsCalls(step, user, most)
    ensures Owed(Do(l, step).calls, OfUserDay(user, day)).calls <= most
  {
    hide Reserving, Releasing, Settling, Conserved;
    if step.Reserve? && Reserving(l.rows, step.key, step.limits, step.reserved).0.denied.None? {
      AcceptedIsBelow(l, step.key, step.limits, step.reserved);
      assert (l.calls + [Call(step.key, step.reserved, InFlight)])[..|l.calls|] == l.calls;
    } else {
      OthersShrink(l, step);
    }
  }

  /** The limit a reservation meets on the scope of its day, everyone's or its user's. */
  predicate CapsDay(step: Step, scope: Scope, cap: int)
  {
    step.Reserve? && scope.Covers(step.key) ==>
      match scope
      case OfDay(_) => step.limits.globalTokens <= cap
      case OfUserDay(_, _) => step.limits.userTokens <= cap
      case _ => false
  }

  /** A day's tokens, everyone's or one user's, stay below their cap plus only what calls of
      that day spent above their reservations. */
  lemma {:induction false} DayStaysBelowCap(run: seq<Step>, scope: Scope, cap: int)
    requires 1 <= cap && (scope.OfDay? || scope.OfUserDay?)
    requires forall i | 0 <= i < |run| :: CapsDay(run[i], scope, cap)
    ensures var l := Run(EMPTY, run); Total(l.rows, scope).Tokens() < cap + Excess(l.calls, scope)
  {
    hide Run, Total, Owed, OwedWithin, Excess, CapsDay;
    RunConserves(run);
    RunKeepsDayBelow(run, scope, cap);
    TokensSplit(Run(EMPTY, run).calls, scope);
  }

  lemma {:induction false} RunKeepsDayBelow(run: seq<Step>, scope: Scope, cap: int)
    requires 1 <= cap && (scope.OfDay? || scope.OfUserDay?)
    requires forall i | 0 <= i < |run| :: CapsDay(run[i], scope, cap)
    ensures OwedWithin(Run(EMPTY, run).calls, scope) < cap
  {
    hide Do, CapsDay, Total;
    if run != [] {
      var n := |run| - 1;
      assert forall i | 0 <= i < n :: run[..n][i] == run[i];
      RunKeepsDayBelow(run[..n], scope, cap);
      RunConserves(run[..n]);
      DayBelowStep(Run(EMPTY, run[..n]), run[n], scope, cap);
    }
  }

  lemma {:induction false} DayBelowStep(l: Ledger, step: Step, scope: Scope, cap: int)
    requires Conserved(l) && OwedWithin(l.calls, scope) < cap && CapsDay(step, scope, cap)
    ensures OwedWithin(Do(l, step).calls, scope) < cap
  {
    hide Reserving, Releasing, Settling, Conserved;
    if step.Reserve? && Reserving(l.rows, step.key, step.limits, step.reserved).0.denied.None? {
      AcceptedIsBelow(l, step.key, step.limits, step.reserved);
      assert (l.calls + [Call(step.key, step.reserved, InFlight)])[..|l.calls|] == l.calls;
    } else {
      OthersShrink(l, step);
      ShrinkingOwesLess(l.calls, Do(l, step).calls, scope);
    }
  }

  /** A call adds itself to every total that covers its key, and to no other. */
  lemma {:induction false} WithCallAdds(rows: seq<UsageRow>, key: UsageKey, reserved: TokenCounts, scope: Scope)
    ensures Total(WithCall(rows, key, reserved), scope) ==
            if scope.Covers(key) then Total(rows, scope).Plus(Count(1, reserved.input, reserved.output))
            else Total(rows, scope)
  {
    var added := WithCall(rows, key, reserved);
    if FindRow(rows, key).Some? {
      var i := FindRow(rows, key).value;
      TotalUpdated(rows, i, added[i], scope);
    } else {
      assert added[..|rows|] == rows;
    }
  }

  /** The reported number of calls is what the table holds after the answer: with the call when
      it is let in, without it when it is denied. */
  lemma {:induction false} ReportedCallsAreCounted(
      rows: seq<UsageRow>, key: UsageKey, limits: DailyLimits, reserved: TokenCounts)
    ensures
      var (result, after) := Reserving(rows, key, limits, reserved);
      && result.callsToday == Total(after, OfUserDay(key.user, key.day)).calls
      && (result.denied.Some? ==> after == rows)
  {
    WithCallAdds(rows, key, reserved, OfUserDay(key.user, key.day));
    hide Total, WithCall, OverLimit;
  }

  /** With this call in it, the table is within all four limits. */
  predicate IsWithin(rows: seq<UsageRow>, key: UsageKey, limits: DailyLimits, reserved: TokenCounts)
  {
    var tokens := reserved.input + reserved.output;
    var day, mine := Total(rows, OfDay(key.day)), Total(rows, OfUserDay(key.user, key.day));
    var week := Total(rows, OfUserWeek(key.user, key.day));
    && day.input + day.output + tokens < limits.globalTokens
    && mine.calls + 1 <= limits.userCalls
    && mine.input + mine.output + tokens < limits.userTokens
    && (limits.userWeeklyTokens.Some? ==> week.input + week.output + tokens < limits.userWeeklyTokens.value)
  }

  /** A call is let in exactly when, with it, the day's tokens stay below their limit, the user's
      calls within theirs, and the user's tokens of the day and of the last 7 days below theirs;
      the first of these that fails is named. It then adds itself to the totals it is part of,
      and changes no other; a denied call changes none. */
  lemma {:induction false} DecisionIsExact(
      rows: seq<UsageRow>, key: UsageKey, limits: DailyLimits, reserved: TokenCounts)
    ensures
      var (result, after) := Reserving(rows, key, limits, reserved);
      var tokens := reserved.input + reserved.output;
      var day, mine := Total(rows, OfDay(key.day)), Total(rows, OfUserDay(key.user, key.day));
      var week := Total(rows, OfUserWeek(key.user, key.day));
      && result.denied ==
         (if day.input + day.output + tokens >= limits.globalTokens then Some(GlobalTokens)
          else if mine.calls + 1 > limits.userCalls then Some(UserCalls)
          else if mine.input + mine.output + tokens >= limits.userTokens then Some(UserTokens)
          else if limits.userWeeklyTokens.Some? && week.input + week.output + tokens >= limits.userWeeklyTokens.value
          then Some(UserWeeklyTokens)
          else None)
      && (result.denied.None? <==> IsWithin(rows, key, limits, reserved))
      && (result.denied.Some? ==> after == rows)
      && (result.denied.None? ==> forall scope: Scope ::
            Total(after, scope) ==
            if scope.Covers(key) then Total(rows, scope).Plus(Count(1, reserved.input, reserved.output))
            else Total(rows, scope))
  {
    forall scope: Scope {
      WithCallAdds(rows, key, reserved, scope);
    }
    hide Total, WithCall;
  }
}
