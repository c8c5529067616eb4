/** The pass store behind the requests: under every interleaving its counts go through a run of
    calls each let in once and ended once, so all that holds of such runs holds here. */
module PassUseFacts {
  import opened Text
  import Payments
  import PaymentFacts
  import PassUse
  import opened Streams
  import opened Requests
  import opened RequestFacts
  import PassCallFacts

  /** The call a pass reservation stands for. Periods are the ledger's own. */
  ghost predicate IsCallOf(p: PassCall, c: PassUse.Call)
  {
    && c.user == p.user && c.reserved == p.reserved
    && (p.changes == [] <==> c.state.InFlight?)
    && (p.changes != [] ==> c.state.charged == p.reserved + p.changes[|p.changes| - 1])
  }

  /** The ledger has the world's books, and its calls in order. */
  ghost predicate StandsFor(w: World, l: PassUse.Ledger)
  {
    && l.books == w.books
    && |l.calls| == |w.passes|
    && forall n | 0 <= n < |w.passes| :: IsCallOf(w.passes[n], l.calls[n])
  }

  /** What a step does to the passes. */
  function PassSteps(c: Settings, w: World, step: Step): seq<PassUse.Step>
  {
    match step
    case Pay(entry) => [PassUse.Pay(entry)]
    case PassAnswer(i, now, reachable) =>
      if reachable && i < |w.requests| && w.requests[i].phase.AwaitPass?
      then [PassUse.Reserve(w.requests[i].user, w.requests[i].estimated + c.maxOutput, now)] else []
    case Perform(t) =>
      if t < |w.tasks| && !w.tasks[t].done && w.tasks[t].write.AddToPass? then EndSteps(w, w.tasks[t].write) else []
    case _ => []
  }

  /** A change of what was reserved is the price the call ends at. */
  function EndSteps(w: World, write: Write): seq<PassUse.Step>
    requires write.AddToPass?
  {
    if write.pass < |w.passes| && w.passes[write.pass].reserved + write.change >= 0
    then [PassUse.End(write.pass, w.passes[write.pass].reserved + write.change)] else []
  }

  function PassRun(c: Settings, run: seq<Step>): seq<PassUse.Step>
  {
    if run == [] then []
    else
      var n := |run| - 1;
      PassRun(c, run[..n]) + PassSteps(c, Run(c, run[..n]), run[n])
  }

  // ---- Each step stands for its steps ----

  /** A write on its way to a pass finds its reservation still in flight, and gives back no more. */
  lemma {:induction false} WriteFindsPass(w: World, t: nat)
    requires Accounted(w) && PassCallFacts.IsRight(w)
    requires t < |w.tasks| && !w.tasks[t].done && w.tasks[t].write.AddToPass?
    ensures
      var write := w.tasks[t].write;
      && write.pass < |w.passes| && w.passes[write.pass].changes == []
      && w.passes[write.pass].reserved + write.change >= 0
  {
    var thing := Pass(w.tasks[t].write.pass);
    assert IsAccounted(w, thing);
    WaitingDone(w.tasks, t, thing);
    assert PassCallFacts.GivesBackAtMost(w.tasks[t].write, w.passes);
  }

  lemma {:induction false} PerformStandsFor(w: World, l: PassUse.Ledger, t: nat)
    requires Accounted(w) && PassCallFacts.IsRight(w) && StandsFor(w, l)
    requires t < |w.tasks| && !w.tasks[t].done && w.tasks[t].write.AddToPass?
    ensures |EndSteps(w, w.tasks[t].write)| == 1
    ensures StandsFor(Performed(w, t), PassUse.Do(l, EndSteps(w, w.tasks[t].write)[0]))
  {
    WriteFindsPass(w, t);
    hide Accounted, PassCallFacts.IsRight, Payments.Adding;
    var write := w.tasks[t].write;
    var n, change := write.pass, write.change;
    assert IsCallOf(w.passes[n], l.calls[n]);
    var after, later := Performed(w, t), PassUse.Do(l, EndSteps(w, write)[0]);
    assert after.books == later.books;
    forall k | 0 <= k < |after.passes|
      ensures IsCallOf(after.passes[k], later.calls[k])
    {
      assert IsCallOf(w.passes[k], l.calls[k]);
    }
  }

  lemma {:induction false} AnswerStandsFor(c: Settings, w: World, l: PassUse.Ledger, i: nat, now: int, reachable: bool)
    requires StandsFor(w, l) && i < |w.requests| && w.requests[i].phase.AwaitPass?
    ensures
      var step := PassUse.Reserve(w.requests[i].user, w.requests[i].estimated + c.maxOutput, now);
      StandsFor(AnsweringPass(c, w, i, now, reachable), if reachable then PassUse.Do(l, step) else l)
  {
    hide Payments.Reserving, Started;
    RefusalKeepsBooks(w.books, w.requests[i].user, w.requests[i].estimated + c.maxOutput, now);
  }

  lemma {:induction false} RefusalKeepsBooks(b: Payments.Books, user: string, tokens: nat, now: int)
    ensures !Payments.Reserving(b, user, tokens, now).0 ==> Payments.Reserving(b, user, tokens, now).1 == b
  {
  }

  lemma {:induction false} StepStandsFor(c: Settings, w: World, l: PassUse.Ledger, step: Step)
    requires Accounted(w) && PassCallFacts.IsRight(w) && StandsFor(w, l)
    ensures
      var steps := PassSteps(c, w, step);
      && |steps| <= 1
      && StandsFor(Next(c, w, step), if steps == [] then l else PassUse.Do(l, steps[0]))
  {
    hide Accounted, PassCallFacts.IsRight, EndSteps, AnsweringPass, PassUse.Do, PaymentFacts.Do, Payments.Adding;
    hide Usage.Reserving, Usage.Releasing, Usage.Settling, Applied, NewWrites, SlotsAfter, TooLarge, Started;
    match step
    case Pay(entry) => PayStandsFor(w, l, entry);
    case PassAnswer(i, now, reachable) =>
      if i < |w.requests| && w.requests[i].phase.AwaitPass? {
        AnswerStandsFor(c, w, l, i, now, reachable);
      }
    case Perform(t) =>
      if t < |w.tasks| && !w.tasks[t].done && w.tasks[t].write.AddToPass? {
        PerformStandsFor(w, l, t);
      }
    case _ =>
  }

  lemma {:induction false} PayStandsFor(w: World, l: PassUse.Ledger, entry: PaymentFacts.Entry)
    requires StandsFor(w, l)
    ensures StandsFor(Paying(w, entry), PassUse.Do(l, PassUse.Pay(entry)))
  {
    hide PaymentFacts.Do, PassUse.Opens;
  }

  /** The passes, under every interleaving of requests and payments, go through a run of calls that
      are each let in once and ended once, at no less than 0. */
  lemma {:induction false} RunStandsFor(c: Settings, run: seq<Step>)
    ensures StandsFor(Run(c, run), PassUse.Run(PassRun(c, run)))
  {
    if run != [] {
      var n := |run| - 1;
      RunStandsFor(c, run[..n]);
      RunKeepsAccount(c, run[..n]);
      PassCallFacts.RunKeepsRight(c, run[..n]);
      hide Next, PassUse.Do, PassSteps, StandsFor, Accounted, PassCallFacts.IsRight;
      var before, steps := PassRun(c, run[..n]), PassSteps(c, Run(c, run[..n]), run[n]);
      StepStandsFor(c, Run(c, run[..n]), PassUse.Run(before), run[n]);
      assert |steps| == 1 ==> (before + steps)[..|before|] == before;
      assert steps == [] ==> before + steps == before;
    }
  }

  /** So, whatever requests, payments, renewals and refunds interleave, a user's count is what the
      requests since the renewal hold or were charged, up to what older requests gave back or
      overshot since. */
  lemma {:induction false} CountIsItsRequests(c: Settings, run: seq<Step>, user: string)
    requires user in Run(c, run).books.access
    ensures
      var l := PassUse.Run(PassRun(c, run));
      var used := Run(c, run).books.access[user].tokensUsed;
      && StandsFor(Run(c, run), l)
      && PassUse.Now(l, PassUse.Worth, user) - PassUse.Now(l, PassUse.GivenBack, user) <= used
      && used <= PassUse.Now(l, PassUse.Worth, user) + PassUse.Now(l, PassUse.Overshot, user)
  {
    hide PassUse.Run, Run, PassUse.Now;
    RunStandsFor(c, run);
    PassUse.CountAddsUp(PassRun(c, run), user);
  }
}
