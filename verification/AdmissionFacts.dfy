/** What a request has to pass before its reply opens: the slot, the size, the pass, the daily
    limits, and one provider after the other. */
module AdmissionFacts {
  import opened Text
  import opened Usage
  import UsageFacts
  import opened Streams
  import opened Requests
  import opened RequestFacts
  import Payments
  import PaymentFacts
  import BookFacts

  // ---- Each answer ----

  /** A request begins exactly when its user has no other and its estimate, with 30 percent on
      top, is within 90000 tokens. It waits for the pass when there is a paywall. */
  lemma {:induction false} RequestBeginsExactly(
      c: Settings, w: World, user: string, paywalled: bool, estimated: nat, tools: set<string>)
    ensures
      var after := Next(c, w, Begin(user, paywalled, estimated, tools));
      if user !in w.users && 13 * estimated <= 900000 then
        var phase := if paywalled then AwaitPass else AwaitDaily(false);
        && after.requests == w.requests + [Request(user, paywalled, None, estimated, tools, phase)]
        && after == w.(users := w.users + {user}, requests := after.requests)
      else after == w
  {
  }

  /** A request passes the paywall exactly when the database answers that the pass has not ended
      and has tokens left. The most it can spend is then counted, on its own user's pass alone;
      otherwise it is over, and changes nothing but to free its slot. */
  lemma {:induction false} PassLetsInExactly(c: Settings, w: World, i: nat, now: int, reachable: bool)
    requires i < |w.requests| && w.requests[i].phase.AwaitPass?
    ensures
      var r, after := w.requests[i], Next(c, w, PassAnswer(i, now, reachable));
      var most := r.estimated + c.maxOutput;
      if reachable && BookFacts.IsUsable(w.books, r.user, now) then
        var pass := w.books.access[r.user];
        var counted := w.books.access[r.user := pass.(tokensUsed := pass.tokensUsed + most)];
        && after.requests == w.requests[i := r.(pass := Some(PassHold(|w.passes|, most)), phase := AwaitDaily(false))]
        && after == w.(requests := after.requests, books := w.books.(access := counted),
                       passes := w.passes + [PassCall(r.user, most, [])])
      else
        && after.requests == w.requests[i := r.(phase := Ended)]
        && after == w.(requests := after.requests, users := w.users - {r.user})
  {
    assert Started(w.tasks, []) == w.tasks;
  }

  /** The limits of a request: behind a paywall, the pass's and no number of calls. */
  predicate AreLimitsOf(c: Settings, paywalled: bool, limits: DailyLimits)
  {
    && limits.globalTokens == c.globalDailyTokens
    && (paywalled ==>
          && limits.userCalls == 1000000000000000 && limits.userTokens == c.passDailyTokens
          && limits.userWeeklyTokens == Some(c.passWeeklyTokens))
    && (!paywalled ==>
          && limits.userCalls == c.userDailyCalls && limits.userTokens == c.userDailyTokens
          && limits.userWeeklyTokens == None)
  }

  /** The row of a user, a day and a provider with its model. */
  predicate IsKeyOf(user: string, day: int, provider: Provider, key: UsageKey)
  {
    key.user == user && key.day == day && key.provider == provider.name && key.model == provider.model
  }

  /** The call is made: the request waits for the provider's first answer. */
  predicate IsMade(w: World, i: nat, key: UsageKey, most: TokenCounts, after: World)
    requires i < |w.requests| && w.requests[i].phase.AwaitDaily?
  {
    var r := w.requests[i];
    && after.calls == w.calls + [DailyCall(key, most, [])]
    && after == w.(requests := w.requests[i := r.(phase := AwaitFirst(r.phase.onFallback, |w.calls|))],
                   calls := after.calls, rows := after.rows)
  }

  /** It is not, and the request is over, or gives its pass back first. */
  predicate IsTurnedAway(w: World, i: nat, after: World)
    requires i < |w.requests|
  {
    && after.rows == w.rows && after.calls == w.calls && |after.requests| == |w.requests|
    && (after.requests[i].phase == Ended || after.requests[i].phase == GivingBack)
  }

  /** A daily call is made exactly when the database answers that it is within the limits of its
      request, on the row of the provider about to be tried, at the most it can spend. */
  lemma {:induction false} DailyCallIsMadeExactly(c: Settings, w: World, i: nat, day: int, reachable: bool)
    returns (key: UsageKey, limits: DailyLimits)
    requires i < |w.requests| && w.requests[i].phase.AwaitDaily?
    requires w.requests[i].phase.onFallback ==> c.fallback.Some?
    ensures
      var r, after := w.requests[i], Next(c, w, DailyAnswer(i, day, reachable));
      var provider := if r.phase.onFallback then c.fallback.value else c.primary;
      var most := TokenCounts(r.estimated, c.maxOutput);
      && IsKeyOf(r.user, day, provider, key) && AreLimitsOf(c, r.paywalled, limits)
      && if reachable && UsageFacts.IsWithin(w.rows, key, limits, most) then IsMade(w, i, key, most, after)
         else IsTurnedAway(w, i, after)
  {
    hide DailyKey, LimitsOf, IsKeyOf, AreLimitsOf, Usage.Reserving, UsageFacts.IsWithin, Started;
    var r := w.requests[i];
    key, limits := DailyKey(c, r, day), LimitsOf(c, r.paywalled);
    RightKeyAndLimits(c, r, day);
    UsageFacts.DecisionIsExact(w.rows, key, limits, TokenCounts(r.estimated, c.maxOutput));
    NothingStarted(w.tasks);
  }

  lemma {:induction false} NothingStarted(tasks: seq<Task>)
    ensures Started(tasks, []) == tasks
  {
  }

  lemma {:induction false} RightKeyAndLimits(c: Settings, r: Request, day: int)
    requires r.phase.AwaitDaily? && (r.phase.onFallback ==> c.fallback.Some?)
    ensures IsKeyOf(r.user, day, if r.phase.onFallback then c.fallback.value else c.primary, DailyKey(c, r, day))
    ensures AreLimitsOf(c, r.paywalled, LimitsOf(c, r.paywalled))
  {
  }

  // ---- Over a run ----

  /** A request behind a paywall holds a reservation of the pass once it is past that wait, and for
      as long as it goes on; any other request never holds one. */
  predicate HasPaid(r: Request)
  {
    if r.paywalled then r.phase.AwaitPass? || r.phase.Ended? || r.pass.Some? else r.pass.None? && !r.phase.AwaitPass?
  }

  lemma {:induction false} NextKeepsPaid(c: Settings, w: World, step: Step)
    requires forall i | 0 <= i < |w.requests| :: HasPaid(w.requests[i])
    ensures forall i | 0 <= i < |Next(c, w, step).requests| :: HasPaid(Next(c, w, step).requests[i])
  {
    hide Usage.Reserving, Payments.Reserving, PaymentFacts.Do, Started, LimitsOf, DailyKey, TooLarge;
    hide Applied, NewWrites, SlotsAfter;
  }

  lemma {:induction false} RunPaysFirst(c: Settings, run: seq<Step>)
    ensures forall i | 0 <= i < |Run(c, run).requests| :: HasPaid(Run(c, run).requests[i])
  {
    if run != [] {
      hide Next, HasPaid;
      RunPaysFirst(c, run[..|run| - 1]);
      NextKeepsPaid(c, Run(c, run[..|run| - 1]), run[|run| - 1]);
    }
  }

  /** The daily call that request `i` makes in this step, by whether it is the fallback's. */
  function TryOf(c: Settings, w: World, step: Step, i: nat): seq<bool>
  {
    if step.DailyAnswer? && step.request == i && i < |w.requests| && w.requests[i].phase.AwaitDaily?
       && |Next(c, w, step).calls| > |w.calls|
    then [w.requests[i].phase.onFallback] else []
  }

  function TriesOf(c: Settings, run: seq<Step>, i: nat): seq<bool>
  {
    if run == [] then []
    else
      var n := |run| - 1;
      TriesOf(c, run[..n], i) + TryOf(c, Run(c, run[..n]), run[n], i)
  }

  /** The request is refused by the primary provider, and not for its size. */
  predicate IsRefused(w: World, step: Step, i: nat)
  {
    && step == FirstRefused(i, false) && i < |w.requests|
    && w.requests[i].phase.AwaitFirst? && !w.requests[i].phase.onFallback
  }

  ghost predicate WasRefused(c: Settings, run: seq<Step>, i: nat)
  {
    exists k | 0 <= k < |run| :: IsRefused(Run(c, run[..k]), run[k], i)
  }

  /** What a request in this phase has tried. */
  predicate FitsTries(r: Request, tries: seq<bool>)
  {
    match r.phase
    case AwaitPass => tries == []
    case AwaitDaily(onFallback) => tries == if onFallback then [false] else []
    case AwaitFirst(onFallback, _) => tries == if onFallback then [false, true] else [false]
    case AwaitRefund(onFallback, _) => tries == if onFallback then [false, true] else [false]
    case Open(_) => tries == [false] || tries == [false, true]
    case _ => tries == [] || tries == [false] || tries == [false, true]
  }

  /** It is on the fallback, or about to be. */
  predicate NeedsRefusal(r: Request, tries: seq<bool>)
  {
    || |tries| == 2 || (r.phase.AwaitDaily? && r.phase.onFallback)
    || (r.phase.AwaitRefund? && !r.phase.onFallback && !r.phase.tooLarge)
  }

  ghost predicate IsInOrder(c: Settings, run: seq<Step>, i: nat)
  {
    var requests, tries := Run(c, run).requests, TriesOf(c, run, i);
    if i >= |requests| then tries == []
    else
      && FitsTries(requests[i], tries)
      && (NeedsRefusal(requests[i], tries) ==> WasRefused(c, run, i))
      && (NeedsFallback(requests[i], tries) ==> c.fallback.Some?)
  }

  /** A request on the fallback, or about to be, has one. */
  predicate NeedsFallback(r: Request, tries: seq<bool>)
  {
    |tries| == 2 || (r.phase.AwaitDaily? && r.phase.onFallback)
  }

  ghost predicate StaysInOrder(
      c: Settings, w: World, step: Step, i: nat, r: Request, tries: seq<bool>, after: Request, more: seq<bool>)
  {
    && FitsTries(after, more)
    && (NeedsRefusal(after, more) ==> NeedsRefusal(r, tries) || IsRefused(w, step, i))
    && (NeedsFallback(after, more) ==> NeedsFallback(r, tries) || c.fallback.Some?)
  }

  lemma {:induction false} StepFitsTries(c: Settings, w: World, step: Step, i: nat, tries: seq<bool>)
    requires i < |w.requests| && FitsTries(w.requests[i], tries)
    ensures
      var after, more := Next(c, w, step).requests, tries + TryOf(c, w, step, i);
      i < |after| && StaysInOrder(c, w, step, i, w.requests[i], tries, after[i], more)
  {
    assert tries + [] == tries;
    if Actor(step) != Some(i) {
      OthersStay(c, w, step, i);
      hide Next;
    } else if step.DailyAnswer? {
      hide Next, FitsTries, NeedsRefusal;
      DailyFitsTries(c, w, step, i, tries);
    } else {
      OwnFitsTries(c, w, step, i, tries);
      hide Next;
    }
  }

  lemma {:induction false} DailyFitsTries(c: Settings, w: World, step: Step, i: nat, tries: seq<bool>)
    requires i < |w.requests| && FitsTries(w.requests[i], tries) && step.DailyAnswer? && step.request == i
    ensures
      var after, more := Next(c, w, step).requests, tries + TryOf(c, w, step, i);
      i < |after| && StaysInOrder(c, w, step, i, w.requests[i], tries, after[i], more)
  {
    hide Usage.Reserving, Started, LimitsOf, DailyKey;
    assert tries + [] == tries;
  }

  lemma {:induction false} OwnFitsTries(c: Settings, w: World, step: Step, i: nat, tries: seq<bool>)
    requires i < |w.requests| && FitsTries(w.requests[i], tries) && Actor(step) == Some(i) && !step.DailyAnswer?
    ensures
      var after := Next(c, w, step).requests;
      i < |after| && StaysInOrder(c, w, step, i, w.requests[i], tries, after[i], tries)
  {
    hide Usage.Reserving, Payments.Reserving, Started, LimitsOf, DailyKey, Applied, NewWrites, SlotsAfter, PassAccepts;
  }

  lemma {:induction false} NewHasNoTries(c: Settings, w: World, step: Step, i: nat)
    requires |w.requests| <= i < |Next(c, w, step).requests|
    ensures
      var r := Next(c, w, step).requests[i];
      FitsTries(r, []) && !NeedsRefusal(r, []) && !NeedsFallback(r, [])
  {
    hide Usage.Reserving, Payments.Reserving, PaymentFacts.Do, Started, LimitsOf, DailyKey, TooLarge;
    hide Applied, NewWrites, SlotsAfter;
  }

  lemma {:induction false} RefusedMore(c: Settings, run: seq<Step>, i: nat)
    requires run != []
    requires var n := |run| - 1; WasRefused(c, run[..n], i) || IsRefused(Run(c, run[..n]), run[n], i)
    ensures WasRefused(c, run, i)
  {
    hide Run, IsRefused;
    var n := |run| - 1;
    if k :| 0 <= k < n && IsRefused(Run(c, run[..n][..k]), run[..n][k], i) {
      assert run[..n][..k] == run[..k] && run[..n][k] == run[k];
    }
  }

  /** Over every interleaving a request makes at most one daily call with each provider, first
      with the primary one; with the fallback only if there is one, after the primary refused the
      request for another reason than its size; and none opens its reply without such a call. */
  lemma {:induction false} TriesAreInOrder(c: Settings, run: seq<Step>, i: nat)
    ensures IsInOrder(c, run, i)
  {
    if run != [] {
      var n := |run| - 1;
      var w, step := Run(c, run[..n]), run[n];
      TriesAreInOrder(c, run[..n], i);
      assert Run(c, run) == Next(c, w, step);
      assert TriesOf(c, run, i) == TriesOf(c, run[..n], i) + TryOf(c, w, step, i);
      hide Next, Run, TriesOf, WasRefused, IsRefused, FitsTries, NeedsRefusal, NeedsFallback;
      if i < |w.requests| {
        StepFitsTries(c, w, step, i, TriesOf(c, run[..n], i));
        if WasRefused(c, run[..n], i) || IsRefused(w, step, i) {
          RefusedMore(c, run, i);
        }
      } else if i < |Run(c, run).requests| {
        NewHasNoTries(c, w, step, i);
      }
    }
  }
}
