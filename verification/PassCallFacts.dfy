/** What each request in the end costs its user's pass: nothing when no reply opened, and
    otherwise what the reply was charged. */
module PassCallFacts {
  import opened Text
  import opened Streams
  import opened Requests
  import StreamFacts
  import Payments
  import PaymentFacts
  import opened RequestFacts

  /** The one change a request makes to its pass reservation, once it is decided. */
  function Change(r: Request): Option<int>
    requires r.pass.Some?
  {
    if r.phase.GivingBack? || r.phase.Ended? then Some(0 - r.pass.value.reserved)
    else if r.phase.Open? && r.phase.stream.charge.Some? then Some(r.phase.stream.charge.value - r.pass.value.reserved)
    else None
  }

  ghost predicate IsChangeOf(r: Request, pass: nat, change: int)
  {
    r.pass.Some? && r.pass.value.id == pass ==> Change(r) == Some(change)
  }

  /** A request and its pass reservation belong together, and an open reply has the same one. */
  ghost predicate IsLinked(r: Request, passes: seq<PassCall>)
  {
    && (r.pass.Some? ==> r.pass.value.id < |passes| && passes[r.pass.value.id].reserved == r.pass.value.reserved)
    && (r.phase.AwaitPass? ==> r.pass.None?)
    && (r.phase.Open? ==> r.phase.stream.pass == r.pass)
  }

  /** A write to a pass there is, that takes no more out of it than was reserved. */
  ghost predicate GivesBackAtMost(write: Write, passes: seq<PassCall>)
    requires write.AddToPass?
  {
    write.pass < |passes| && passes[write.pass].reserved + write.change >= 0
  }

  ghost predicate AreLinked(w: World)
  {
    && (forall i | 0 <= i < |w.requests| :: IsLinked(w.requests[i], w.passes))
    && (forall i, j | 0 <= i < j < |w.requests| ::
          w.requests[i].pass.Some? && w.requests[j].pass.Some? ==>
            w.requests[i].pass.value.id != w.requests[j].pass.value.id)
    && (forall t | 0 <= t < |w.tasks| :: w.tasks[t].write.AddToPass? ==> GivesBackAtMost(w.tasks[t].write, w.passes))
  }

  /** Every write to a pass, done or on its way, is its request's one change. */
  ghost predicate ChangesMatch(w: World)
  {
    && (forall i, t | 0 <= i < |w.requests| && 0 <= t < |w.tasks| ::
          w.tasks[t].write.AddToPass? ==> IsChangeOf(w.requests[i], w.tasks[t].write.pass, w.tasks[t].write.change))
    && (forall i, n, k | 0 <= i < |w.requests| && 0 <= n < |w.passes| && 0 <= k < |w.passes[n].changes| ::
          IsChangeOf(w.requests[i], n, w.passes[n].changes[k]))
  }

  ghost predicate IsRight(w: World)
  {
    AreLinked(w) && ChangesMatch(w)
  }

  /** A request that keeps its reservation and its decided change, and writes only that. */
  ghost predicate MovesRight(r: Request, after: Request, writes: seq<Write>)
  {
    && after.pass == r.pass
    && (after.phase.AwaitPass? ==> r.phase.AwaitPass?)
    && (after.phase.Open? ==> after.phase.stream.pass == r.pass)
    && (r.pass.Some? && Change(r).Some? ==> Change(after) == Change(r))
    && (forall n | 0 <= n < |writes| :: writes[n].AddToPass? ==>
          r.pass.Some? && writes[n].pass == r.pass.value.id && Change(after) == Some(writes[n].change))
  }

  lemma {:induction false} MovingKeepsRight(w: World, i: nat, r: Request, writes: seq<Write>, after: World)
    requires IsRight(w) && i < |w.requests| && MovesRight(w.requests[i], r, writes)
    requires after.requests == w.requests[i := r] && after.tasks == Started(w.tasks, writes) && after.passes == w.passes
    ensures IsRight(after)
  {
    MovingKeepsLinks(w, i, r, writes, after);
    hide Change, IsLinked, AreLinked;
    forall j, t | 0 <= j < |after.requests| && 0 <= t < |after.tasks| && after.tasks[t].write.AddToPass?
      ensures IsChangeOf(after.requests[j], after.tasks[t].write.pass, after.tasks[t].write.change)
    {
      var write := after.tasks[t].write;
      if t < |w.tasks| {
        assert IsChangeOf(w.requests[j], w.tasks[t].write.pass, w.tasks[t].write.change);
      } else {
        assert write == writes[t - |w.tasks|];
        if j != i {
        }
      }
    }
    forall j, n, k | 0 <= j < |after.requests| && 0 <= n < |after.passes| && 0 <= k < |after.passes[n].changes|
      ensures IsChangeOf(after.requests[j], n, after.passes[n].changes[k])
    {
      assert IsChangeOf(w.requests[j], n, w.passes[n].changes[k]);
    }
  }

  /** What a request writes to its pass takes back no more than it had reserved. */
  lemma {:induction false} WritesGiveBackAtMost(r: Request, after: Request, writes: seq<Write>, passes: seq<PassCall>)
    requires IsLinked(r, passes) && MovesRight(r, after, writes)
    ensures forall n | 0 <= n < |writes| :: writes[n].AddToPass? ==> GivesBackAtMost(writes[n], passes)
  {
  }

  lemma {:induction false} MovingKeepsLinks(w: World, i: nat, r: Request, writes: seq<Write>, after: World)
    requires AreLinked(w) && i < |w.requests| && MovesRight(w.requests[i], r, writes)
    requires after.requests == w.requests[i := r] && after.tasks == Started(w.tasks, writes) && after.passes == w.passes
    ensures AreLinked(after)
  {
    assert IsLinked(w.requests[i], w.passes);
    WritesGiveBackAtMost(w.requests[i], r, writes, w.passes);
    hide Change, GivesBackAtMost;
    forall t | 0 <= t < |after.tasks| && after.tasks[t].write.AddToPass?
      ensures GivesBackAtMost(after.tasks[t].write, after.passes)
    {
      if t >= |w.tasks| {
        assert after.tasks[t].write == writes[t - |w.tasks|];
      }
    }
  }

  /** A request is given a pass reservation of its own. */
  lemma {:induction false} AcceptingKeepsRight(c: Settings, w: World, i: nat, now: int, reachable: bool)
    requires IsRight(w) && i < |w.requests| && w.requests[i].phase.AwaitPass?
    requires PassAccepts(c, w, w.requests[i], now, reachable)
    ensures IsRight(AnsweringPass(c, w, i, now, reachable))
  {
    hide PassAccepts, Payments.Reserving;
    var after := AnsweringPass(c, w, i, now, reachable);
    assert after.tasks == w.tasks;
    forall j | 0 <= j < |w.requests|
      ensures IsLinked(w.requests[j], w.passes)
    {
    }
    forall j, n, k | 0 <= j < |after.requests| && 0 <= n < |after.passes| && 0 <= k < |after.passes[n].changes|
      ensures IsChangeOf(after.requests[j], n, after.passes[n].changes[k])
    {
      assert IsChangeOf(w.requests[j], n, w.passes[n].changes[k]);
    }
    forall j, t | 0 <= j < |after.requests| && 0 <= t < |after.tasks| && after.tasks[t].write.AddToPass?
      ensures IsChangeOf(after.requests[j], after.tasks[t].write.pass, after.tasks[t].write.change)
    {
      assert IsChangeOf(w.requests[j], w.tasks[t].write.pass, w.tasks[t].write.change);
    }
  }

  lemma {:induction false} PerformKeepsRight(w: World, t: nat)
    requires IsRight(w) && t < |w.tasks|
    ensures IsRight(Performed(w, t))
  {
    hide Usage.Releasing, Usage.Settling, Change;
    var after := Performed(w, t);
    assert forall i | 0 <= i < |w.requests| :: IsLinked(w.requests[i], w.passes);
    forall j, n, k | 0 <= j < |after.requests| && 0 <= n < |after.passes| && 0 <= k < |after.passes[n].changes|
      ensures IsChangeOf(after.requests[j], n, after.passes[n].changes[k])
    {
      if k < |w.passes[n].changes| {
        assert IsChangeOf(w.requests[j], n, w.passes[n].changes[k]);
      } else {
        assert IsChangeOf(w.requests[j], w.tasks[t].write.pass, w.tasks[t].write.change);
      }
    }
    forall j, u | 0 <= j < |after.requests| && 0 <= u < |after.tasks| && after.tasks[u].write.AddToPass?
      ensures IsChangeOf(after.requests[j], after.tasks[u].write.pass, after.tasks[u].write.change)
    {
      assert IsChangeOf(w.requests[j], w.tasks[u].write.pass, w.tasks[u].write.change);
    }
  }

  lemma {:induction false} BeginningKeepsRight(w: World, step: Step)
    requires IsRight(w) && step.Begin?
    ensures IsRight(Beginning(w, step.user, step.paywalled, step.estimated, step.tools))
  {
    hide Change, TooLarge;
  }

  lemma {:induction false} ReplyMovesRight(r: Request, action: Action)
    requires r.phase.Open? && r.phase.stream.pass == r.pass
    ensures
      var after := Applied(r.phase.stream, action);
      MovesRight(r, r.(phase := Open(after)), NewWrites(r.phase.stream, after))
  {
    hide Applied;
    ReplyStays(r.phase.stream, action);
  }

  lemma {:induction false} AbandonedKeepsRight(w: World, i: nat, cancelled: bool)
    requires IsRight(w) && i < |w.requests|
    requires w.requests[i].phase.AwaitDaily? || w.requests[i].phase.AwaitRefund?
    ensures IsRight(Abandoned(w, i, cancelled))
  {
    hide IsRight;
    var r := w.requests[i];
    MovingKeepsRight(w, i, r.(phase := Ended), GiveBack(r), Left(w, i, GiveBack(r)));
    MovingKeepsRight(w, i, r.(phase := GivingBack), GiveBack(r), Moved(w, i, r.(phase := GivingBack), GiveBack(r)));
  }

  lemma {:induction false} PayingKeepsRight(w: World, entry: PaymentFacts.Entry)
    requires IsRight(w)
    ensures IsRight(Paying(w, entry))
  {
    hide PaymentFacts.Do, Change;
    var after := Paying(w, entry);
    assert after.requests == w.requests && after.tasks == w.tasks && after.passes == w.passes;
  }

  lemma {:induction false} NextKeepsRight(c: Settings, w: World, step: Step)
    requires IsRight(w)
    ensures IsRight(Next(c, w, step))
  {
    hide IsRight, IsLinked, MovesRight, Usage.Reserving, Performed, Beginning, Applied, NewWrites, Abandoned;
    hide Paying;
    match step
    case Begin(_, _, _, _) => BeginningKeepsRight(w, step);
    case Pay(entry) => PayingKeepsRight(w, entry);
    case Perform(t) =>
      if t < |w.tasks| && !w.tasks[t].done {
        PerformKeepsRight(w, t);
      }
    case _ =>
      if step.request < |w.requests| {
        RequestStepKeepsRight(c, w, step);
      }
  }

  lemma {:induction false} AnsweringKeepsRight(c: Settings, w: World, i: nat, now: int, reachable: bool)
    requires IsRight(w) && i < |w.requests| && w.requests[i].phase.AwaitPass?
    ensures IsRight(AnsweringPass(c, w, i, now, reachable))
  {
    hide IsRight, PassAccepts, Payments.Reserving;
    if PassAccepts(c, w, w.requests[i], now, reachable) {
      AcceptingKeepsRight(c, w, i, now, reachable);
    } else {
      NoPassMovesRight(w, i);
    }
  }

  lemma {:induction false} RequestStepKeepsRight(c: Settings, w: World, step: Step)
    requires IsRight(w) && !step.Begin? && !step.Pay? && !step.Perform? && step.request < |w.requests|
    ensures IsRight(Next(c, w, step))
  {
    var i := step.request;
    var r := w.requests[i];
    assert IsLinked(r, w.passes);
    hide IsRight, IsLinked, Usage.Reserving, Applied, NewWrites, Abandoned, Started, LimitsOf, DailyKey;
    hide AnsweringPass, Cancelled;
    if r.phase.AwaitDaily? || r.phase.AwaitRefund? {
      AbandonedKeepsRight(w, i, false);
      AbandonedKeepsRight(w, i, true);
    }
    var after := Next(c, w, step);
    match step
    case PassAnswer(_, now, reachable) =>
      if r.phase.AwaitPass? {
        AnsweringKeepsRight(c, w, i, now, reachable);
      }
    case DailyAnswer(_, day, reachable) =>
      if r.phase.AwaitDaily? && after != Abandoned(w, i, false) {
        MovingKeepsRight(w, i, after.requests[i], [], after);
      }
    case FirstOpened(_) =>
      if r.phase.AwaitFirst? {
        MovingKeepsRight(w, i, after.requests[i], [], after);
      }
    case FirstRefused(_, tooLarge) =>
      if r.phase.AwaitFirst? {
        MovingKeepsRight(w, i, after.requests[i], [ReleaseCall(r.phase.call)], after);
      }
    case WaitOver(_) =>
      if r.phase.GivingBack? {
        MovingKeepsRight(w, i, after.requests[i], [], after);
      } else if r.phase.AwaitRefund? && after != Abandoned(w, i, false) {
        MovingKeepsRight(w, i, after.requests[i], [], after);
      }
    case Cancel(_) => CancelKeepsRight(w, i);
    case OnReply(_, action) => ReplyStepKeepsRight(c, w, i, action);
  }

  lemma {:induction false} ReplyStepKeepsRight(c: Settings, w: World, i: nat, action: Action)
    requires IsRight(w) && i < |w.requests|
    ensures IsRight(Next(c, w, OnReply(i, action)))
  {
    hide IsRight, IsLinked, Applied, NewWrites;
    var r := w.requests[i];
    var after := Next(c, w, OnReply(i, action));
    if r.phase.Open? {
      LinkedReply(w, i);
      ReplyMovesRight(r, action);
      MovingKeepsRight(w, i, after.requests[i], NewWrites(r.phase.stream, Applied(r.phase.stream, action)), after);
    }
  }

  lemma {:induction false} LinkedReply(w: World, i: nat)
    requires IsRight(w) && i < |w.requests| && w.requests[i].phase.Open?
    ensures w.requests[i].phase.stream.pass == w.requests[i].pass
  {
    assert IsLinked(w.requests[i], w.passes);
  }

  lemma {:induction false} NoPassMovesRight(w: World, i: nat)
    requires IsRight(w) && i < |w.requests| && w.requests[i].phase.AwaitPass?
    ensures IsRight(Left(w, i, []))
  {
    assert IsLinked(w.requests[i], w.passes);
    hide IsRight;
    MovingKeepsRight(w, i, w.requests[i].(phase := Ended), [], Left(w, i, []));
  }

  lemma {:induction false} CancelKeepsRight(w: World, i: nat)
    requires IsRight(w) && i < |w.requests|
    ensures IsRight(Cancelled(w, i))
  {
    hide IsRight, Abandoned, Started;
    var r := w.requests[i];
    match r.phase
    case AwaitPass => NoPassMovesRight(w, i);
    case AwaitDaily(_) => AbandonedKeepsRight(w, i, true);
    case AwaitRefund(_, _) => AbandonedKeepsRight(w, i, true);
    case AwaitFirst(_, call) =>
      MovingKeepsRight(w, i, r.(phase := Ended), [ReleaseCall(call)] + GiveBack(r), Cancelled(w, i));
    case GivingBack => MovingKeepsRight(w, i, r.(phase := Ended), [], Cancelled(w, i));
    case _ =>
  }

  lemma {:induction false} RunKeepsRight(c: Settings, run: seq<Step>)
    ensures IsRight(Run(c, run))
  {
    if run != [] {
      RunKeepsRight(c, run[..|run| - 1]);
      NextKeepsRight(c, Run(c, run[..|run| - 1]), run[|run| - 1]);
    }
  }

  /** Once nothing is left to run, a request that reserved on the pass has changed it exactly
      once: by the whole reservation back when no reply opened, else to what was charged. */
  lemma {:induction false} PassPaysForReply(c: Settings, run: seq<Step>, i: nat)
    requires i < |Run(c, run).requests| && Run(c, run).requests[i].pass.Some? && AllOver(Run(c, run))
    ensures
      var w := Run(c, run);
      var (r, hold) := (w.requests[i], w.requests[i].pass.value);
      && hold.id < |w.passes|
      && w.passes[hold.id].reserved == hold.reserved
      && w.passes[hold.id].changes ==
         (if r.phase.Open? && r.phase.stream.charge.Some? then [r.phase.stream.charge.value - hold.reserved]
          else [0 - hold.reserved])
      && (r.phase.Open? ==> r.phase.stream.charge.Some?)
  {
    RunKeepsRight(c, run);
    RunKeepsReplies(c, run);
    ReservationsEndOnce(c, run);
    hide Run;
    var w := Run(c, run);
    var r := w.requests[i];
    assert IsLinked(r, w.passes);
    var n := r.pass.value.id;
    assert IsChangeOf(r, n, w.passes[n].changes[0]);
    assert IsOver(r);
  }
}
