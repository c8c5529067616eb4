/** What each request in the end costs: its daily reservation ends once, at what its reply used,
    told from the items the reply took. */
module SettleFacts {
  import opened Text
  import opened Usage
  import UsageFacts
  import opened Streams
  import StreamFacts
  import opened ReplyFacts
  import opened Requests
  import opened RequestFacts
  import PassCallFacts
  import PaymentFacts
  import Payments

  // ---- A request and its daily call ----

  /** The daily reservation a request holds, or that its reply is settled on. */
  function CallOf(r: Request): Option<nat>
  {
    match r.phase
    case AwaitFirst(_, call) => Some(call)
    case Open(stream) => Some(stream.call)
    case _ => None
  }

  function SettledAtOf(r: Request): Option<TokenCounts>
  {
    if r.phase.Open? then r.phase.stream.settled else None
  }

  /** If the write ends the request's call, it settles it at the reply's own tokens. */
  predicate IsWriteOf(r: Request, write: Write)
  {
    match write
    case ReleaseCall(n) => CallOf(r) != Some(n)
    case SettleCall(n, actual) => CallOf(r) == Some(n) ==> SettledAtOf(r) == Some(actual)
    case AddToPass(_, _) => true
  }

  predicate IsEndingOf(r: Request, n: nat, ending: Ending)
  {
    CallOf(r) == Some(n) ==> SettledAtOf(r).Some? && ending == SettledAt(SettledAtOf(r).value)
  }

  /** The write is about a call there is. */
  predicate IsBounded(write: Write, calls: nat)
  {
    !write.AddToPass? ==> write.call < calls
  }

  predicate HasCall(r: Request, calls: seq<DailyCall>)
  {
    CallOf(r).Some? ==> CallOf(r).value < |calls| && calls[CallOf(r).value].reserved.input == r.estimated
  }

  ghost predicate AreLinked(w: World)
  {
    && (forall i | 0 <= i < |w.requests| :: HasCall(w.requests[i], w.calls))
    && (forall t | 0 <= t < |w.tasks| :: IsBounded(w.tasks[t].write, |w.calls|))
    && (forall i, j | 0 <= i < j < |w.requests| && CallOf(w.requests[i]).Some? ::
          CallOf(w.requests[i]) != CallOf(w.requests[j]))
  }

  ghost predicate EndsMatch(w: World)
  {
    && (forall i, t | 0 <= i < |w.requests| && 0 <= t < |w.tasks| :: IsWriteOf(w.requests[i], w.tasks[t].write))
    && (forall i, n, k | 0 <= i < |w.requests| && 0 <= n < |w.calls| && 0 <= k < |w.calls[n].endings| ::
          IsEndingOf(w.requests[i], n, w.calls[n].endings[k]))
  }

  ghost predicate IsRight(w: World)
  {
    AreLinked(w) && EndsMatch(w)
  }

  /** A request that keeps or gives up its call, and writes only about that. */
  ghost predicate MovesRight(r: Request, after: Request, writes: seq<Write>)
  {
    && after.estimated == r.estimated
    && (CallOf(after).Some? ==> CallOf(after) == CallOf(r))
    && (SettledAtOf(r).Some? ==> SettledAtOf(after) == SettledAtOf(r))
    && (forall n | 0 <= n < |writes| :: IsWriteOf(after, writes[n]))
    && (forall n | 0 <= n < |writes| :: !writes[n].AddToPass? ==> CallOf(r) == Some(writes[n].call))
  }

  lemma {:induction false} MovingKeepsLinks(w: World, i: nat, r: Request, writes: seq<Write>, after: World)
    requires AreLinked(w) && i < |w.requests| && MovesRight(w.requests[i], r, writes)
    requires after.requests == w.requests[i := r] && after.tasks == Started(w.tasks, writes) && after.calls == w.calls
    ensures AreLinked(after)
  {
    assert HasCall(w.requests[i], w.calls);
    hide CallOf;
    forall t | 0 <= t < |after.tasks|
      ensures IsBounded(after.tasks[t].write, |after.calls|)
    {
      if t >= |w.tasks| {
        assert after.tasks[t].write == writes[t - |w.tasks|];
      }
    }
  }

  lemma {:induction false} MovingKeepsRight(w: World, i: nat, r: Request, writes: seq<Write>, after: World)
    requires IsRight(w) && i < |w.requests| && MovesRight(w.requests[i], r, writes)
    requires after.requests == w.requests[i := r] && after.tasks == Started(w.tasks, writes) && after.calls == w.calls
    ensures IsRight(after)
  {
    MovingKeepsLinks(w, i, r, writes, after);
    hide CallOf, SettledAtOf, HasCall, IsBounded;
    forall j, t | 0 <= j < |after.requests| && 0 <= t < |after.tasks|
      ensures IsWriteOf(after.requests[j], after.tasks[t].write)
    {
      var write := after.tasks[t].write;
      if t < |w.tasks| {
        assert IsWriteOf(w.requests[j], w.tasks[t].write);
      } else {
        assert write == writes[t - |w.tasks|];
      }
    }
    forall j, n, k | 0 <= j < |after.requests| && 0 <= n < |after.calls| && 0 <= k < |after.calls[n].endings|
      ensures IsEndingOf(after.requests[j], n, after.calls[n].endings[k])
    {
      assert IsEndingOf(w.requests[j], n, w.calls[n].endings[k]);
    }
  }

  // ---- Each step keeps it ----

  /** A request is given a daily reservation of its own. */
  lemma {:induction false} AcceptingKeepsRight(c: Settings, w: World, i: nat, day: int)
    requires IsRight(w) && i < |w.requests| && w.requests[i].phase.AwaitDaily?
    ensures IsRight(AnsweringDaily(c, w, i, day, true)) || AnsweringDaily(c, w, i, day, true) == Abandoned(w, i, false)
  {
    hide Abandoned, Usage.Reserving, LimitsOf, DailyKey;
    var after, n := AnsweringDaily(c, w, i, day, true), |w.calls|;
    if after != Abandoned(w, i, false) {
      assert after.tasks == w.tasks;
      assert forall j | 0 <= j < |w.requests| :: HasCall(w.requests[j], w.calls);
      assert forall t | 0 <= t < |w.tasks| :: IsBounded(w.tasks[t].write, n);
      forall j, t | 0 <= j < |after.requests| && 0 <= t < |after.tasks|
        ensures IsWriteOf(after.requests[j], after.tasks[t].write)
      {
        assert IsWriteOf(w.requests[j], w.tasks[t].write);
      }
      forall j, k, e | 0 <= j < |after.requests| && 0 <= k < |after.calls| && 0 <= e < |after.calls[k].endings|
        ensures IsEndingOf(after.requests[j], k, after.calls[k].endings[e])
      {
        assert IsEndingOf(w.requests[j], k, w.calls[k].endings[e]);
      }
    }
  }

  lemma {:induction false} AbandonedKeepsRight(w: World, i: nat, cancelled: bool)
    requires IsRight(w) && i < |w.requests| && !w.requests[i].phase.Open?
    ensures IsRight(Abandoned(w, i, cancelled))
    ensures IsRight(Left(w, i, []))
  {
    hide IsRight;
    var r := w.requests[i];
    MovingKeepsRight(w, i, r.(phase := Ended), [], Left(w, i, []));
    MovingKeepsRight(w, i, r.(phase := Ended), GiveBack(r), Left(w, i, GiveBack(r)));
    MovingKeepsRight(w, i, r.(phase := GivingBack), GiveBack(r), Moved(w, i, r.(phase := GivingBack), GiveBack(r)));
  }

  lemma {:induction false} PassAnswerKeepsRight(c: Settings, w: World, i: nat, now: int, reachable: bool)
    requires IsRight(w) && i < |w.requests| && w.requests[i].phase.AwaitPass?
    ensures IsRight(AnsweringPass(c, w, i, now, reachable))
  {
    hide IsRight, PassAccepts, Payments.Reserving;
    var r, after := w.requests[i], AnsweringPass(c, w, i, now, reachable);
    AbandonedKeepsRight(w, i, false);
    if PassAccepts(c, w, r, now, reachable) {
      MovingKeepsRight(w, i, after.requests[i], [], after);
    }
  }

  lemma {:induction false} CancelKeepsRight(w: World, i: nat)
    requires IsRight(w) && i < |w.requests|
    ensures IsRight(Cancelled(w, i))
  {
    hide IsRight, Abandoned;
    var r := w.requests[i];
    if !r.phase.Open? {
      AbandonedKeepsRight(w, i, true);
    }
    if r.phase.AwaitFirst? {
      MovingKeepsRight(w, i, r.(phase := Ended), [ReleaseCall(r.phase.call)] + GiveBack(r), Cancelled(w, i));
    }
  }

  lemma {:induction false} ReplyKeepsRight(w: World, i: nat, action: Action)
    requires IsRight(w) && i < |w.requests| && w.requests[i].phase.Open?
    ensures IsRight(Replied(w, i, action))
  {
    hide IsRight, Applied;
    var r := w.requests[i];
    var stream, after := r.phase.stream, Applied(r.phase.stream, action);
    ReplyStays(stream, action);
    MovingKeepsRight(w, i, r.(phase := Open(after)), NewWrites(stream, after), Replied(w, i, action));
  }

  lemma {:induction false} PerformKeepsRight(w: World, t: nat)
    requires IsRight(w) && t < |w.tasks|
    ensures IsRight(Performed(w, t))
  {
    hide Usage.Releasing, Usage.Settling, Payments.Adding, CallOf, SettledAtOf;
    var after := Performed(w, t);
    assert forall i | 0 <= i < |w.requests| :: HasCall(w.requests[i], w.calls) ==> HasCall(w.requests[i], after.calls);
    forall j, u | 0 <= j < |after.requests| && 0 <= u < |after.tasks|
      ensures IsWriteOf(after.requests[j], after.tasks[u].write)
    {
      assert IsWriteOf(w.requests[j], w.tasks[u].write);
    }
    forall j, n, k | 0 <= j < |after.requests| && 0 <= n < |after.calls| && 0 <= k < |after.calls[n].endings|
      ensures IsEndingOf(after.requests[j], n, after.calls[n].endings[k])
    {
      if k < |w.calls[n].endings| {
        assert IsEndingOf(w.requests[j], n, w.calls[n].endings[k]);
      } else {
        assert IsWriteOf(w.requests[j], w.tasks[t].write);
      }
    }
  }

  lemma {:induction false} OutsideKeepsRight(w: World, after: World)
    requires IsRight(w) && after.calls == w.calls && after.tasks == w.tasks
    requires
      || after.requests == w.requests
      || (exists r :: after.requests == w.requests + [r] && CallOf(r).None?)
    ensures IsRight(after)
  {
    hide IsWriteOf, IsEndingOf;
    forall j, t | 0 <= j < |after.requests| && 0 <= t < |after.tasks|
      ensures IsWriteOf(after.requests[j], after.tasks[t].write)
    {
      if j < |w.requests| {
        assert IsWriteOf(w.requests[j], w.tasks[t].write);
      } else {
        NoCallNoWrites(after.requests[j]);
      }
    }
    forall j, n, k | 0 <= j < |after.requests| && 0 <= n < |after.calls| && 0 <= k < |after.calls[n].endings|
      ensures IsEndingOf(after.requests[j], n, after.calls[n].endings[k])
    {
      if j < |w.requests| {
        assert IsEndingOf(w.requests[j], n, w.calls[n].endings[k]);
      } else {
        NoCallNoWrites(after.requests[j]);
      }
    }
  }

  lemma {:induction false} NoCallNoWrites(r: Request)
    requires CallOf(r).None?
    ensures forall write :: IsWriteOf(r, write)
    ensures forall n, ending :: IsEndingOf(r, n, ending)
  {
  }

  lemma {:induction false} RequestStepKeepsRight(c: Settings, w: World, step: Step)
    requires IsRight(w) && !step.Begin? && !step.Pay? && !step.Perform? && step.request < |w.requests|
    ensures IsRight(Next(c, w, step))
  {
    hide IsRight, AnsweringPass, AnsweringDaily, Abandoned, Cancelled, Replied;
    var i, r, after := step.request, w.requests[step.request], Next(c, w, step);
    match step
    case PassAnswer(_, now, reachable) =>
      if r.phase.AwaitPass? {
        PassAnswerKeepsRight(c, w, i, now, reachable);
      }
    case DailyAnswer(_, day, reachable) =>
      if r.phase.AwaitDaily? {
        DailyAnswerKeepsRight(c, w, i, day, reachable);
      }
    case FirstOpened(_) =>
      if r.phase.AwaitFirst? {
        MovingKeepsRight(w, i, after.requests[i], [], after);
      }
    case FirstRefused(_, tooLarge) =>
      if r.phase.AwaitFirst? {
        MovingKeepsRight(w, i, after.requests[i], [ReleaseCall(r.phase.call)], after);
      }
    case WaitOver(_) =>
      if !r.phase.Open? {
        AbandonedKeepsRight(w, i, false);
      }
      if r.phase.AwaitRefund? {
        MovingKeepsRight(w, i, r.(phase := AwaitDaily(true)), [], Moved(w, i, r.(phase := AwaitDaily(true)), []));
      }
    case Cancel(_) => CancelKeepsRight(w, i);
    case OnReply(_, action) =>
      if r.phase.Open? {
        ReplyKeepsRight(w, i, action);
      }
  }

  lemma {:induction false} DailyAnswerKeepsRight(c: Settings, w: World, i: nat, day: int, reachable: bool)
    requires IsRight(w) && i < |w.requests| && w.requests[i].phase.AwaitDaily?
    ensures IsRight(AnsweringDaily(c, w, i, day, reachable))
  {
    AbandonedKeepsRight(w, i, false);
    AcceptingKeepsRight(c, w, i, day);
    hide IsRight, Abandoned, Usage.Reserving, LimitsOf, DailyKey;
  }

  lemma {:induction false} NextKeepsRight(c: Settings, w: World, step: Step)
    requires IsRight(w)
    ensures IsRight(Next(c, w, step))
  {
    hide IsRight, PaymentFacts.Do, Performed, TooLarge;
    match step
    case Begin(_, _, _, _) => OutsideKeepsRight(w, Next(c, w, step));
    case Pay(_) => OutsideKeepsRight(w, Next(c, w, step));
    case Perform(t) =>
      if t < |w.tasks| && !w.tasks[t].done {
        PerformKeepsRight(w, t);
      }
    case _ =>
      if step.request < |w.requests| {
        RequestStepKeepsRight(c, w, step);
      }
  }

  lemma {:induction false} RunKeepsRight(c: Settings, run: seq<Step>)
    ensures IsRight(Run(c, run))
  {
    if run != [] {
      hide IsRight, Next;
      RunKeepsRight(c, run[..|run| - 1]);
      NextKeepsRight(c, Run(c, run[..|run| - 1]), run[|run| - 1]);
    } else {
      assert run == [];
    }
  }

  // ---- A reply is a run of its actions ----

  /** What happened to the reply of request `i`, in order. */
  function ActionsOf(c: Settings, run: seq<Step>, i: nat): seq<Action>
  {
    if run == [] then []
    else
      var n := |run| - 1;
      var requests := Run(c, run[..n]).requests;
      ActionsOf(c, run[..n], i) +
      if run[n].OnReply? && run[n].request == i && i < |requests| && requests[i].phase.Open? then [run[n].action]
      else []
  }

  function OpenedAs(r: Request): StreamState
    requires r.phase.Open?
  {
    Opened(r.user, r.phase.stream.call, r.pass, r.estimated, r.tools)
  }

  ghost predicate IsARun(requests: seq<Request>, i: nat, actions: seq<Action>)
  {
    if i < |requests| && requests[i].phase.Open?
    then requests[i].phase.stream == StreamFacts.Run(OpenedAs(requests[i]), actions)
    else actions == []
  }

  lemma {:induction false} OneMoreAction(s: StreamState, actions: seq<Action>, action: Action)
    ensures StreamFacts.Run(s, actions + [action]) == Applied(StreamFacts.Run(s, actions), action)
    ensures StreamFacts.Run(s, []) == s
  {
    assert (actions + [action])[..|actions|] == actions;
  }

  /** A request's own step, other than one of its reply, opens the reply at most. */
  lemma {:induction false} OwnStepStays(c: Settings, w: World, step: Step, i: nat)
    requires i < |w.requests| && Actor(step) == Some(i) && !step.OnReply?
    ensures i < |Next(c, w, step).requests|
    ensures
      var r, after := w.requests[i], Next(c, w, step).requests[i];
      if r.phase.Open? then after == r else after.phase.Open? ==> after.phase.stream == OpenedAs(after)
  {
    hide Usage.Reserving, Payments.Reserving, Started, LimitsOf, DailyKey;
  }

  lemma {:induction false} ReplyStepApplies(c: Settings, w: World, i: nat, action: Action)
    requires i < |w.requests| && w.requests[i].phase.Open?
    ensures
      var r, after := w.requests[i], Next(c, w, OnReply(i, action)).requests;
      && i < |after| && after[i].phase.Open? && after[i].phase.stream == Applied(r.phase.stream, action)
      && OpenedAs(after[i]) == OpenedAs(r)
  {
    hide Applied, Started;
    ReplyStays(w.requests[i].phase.stream, action);
  }

  lemma {:induction false} OpenReplyIsARun(c: Settings, run: seq<Step>, i: nat)
    ensures IsARun(Run(c, run).requests, i, ActionsOf(c, run, i))
  {
    if run != [] {
      var n := |run| - 1;
      var w, step, actions := Run(c, run[..n]), run[n], ActionsOf(c, run[..n], i);
      OpenReplyIsARun(c, run[..n], i);
      hide Next, Applied, StreamFacts.Run, OpenedAs, Run;
      RunOnce(c, run);
      assert actions + [] == actions;
      if i >= |w.requests| {
        BeginsUnopened(c, w, step);
      } else if Actor(step) != Some(i) {
        OthersStay(c, w, step, i);
      } else if step.OnReply? && w.requests[i].phase.Open? {
        ReplyStepApplies(c, w, i, step.action);
        OneMoreAction(OpenedAs(w.requests[i]), actions, step.action);
      } else {
        StepWithoutReply(c, w, step, i);
      }
    }
  }

  lemma {:induction false} RunOnce(c: Settings, run: seq<Step>)
    requires run != []
    ensures Run(c, run) == Next(c, Run(c, run[..|run| - 1]), run[|run| - 1])
  {
  }

  lemma {:induction false} StepWithoutReply(c: Settings, w: World, step: Step, i: nat)
    requires i < |w.requests| && Actor(step) == Some(i)
    requires !step.OnReply? || !w.requests[i].phase.Open?
    ensures forall actions | IsARun(w.requests, i, actions) :: IsARun(Next(c, w, step).requests, i, actions)
  {
    if !step.OnReply? {
      OwnStepStays(c, w, step, i);
      hide Next, OpenedAs;
      if !w.requests[i].phase.Open? && Next(c, w, step).requests[i].phase.Open? {
        OneMoreAction(OpenedAs(Next(c, w, step).requests[i]), [], CloseRest);
      }
    }
  }

  lemma {:induction false} BeginsUnopened(c: Settings, w: World, step: Step)
    ensures forall i | |w.requests| <= i < |Next(c, w, step).requests| :: !Next(c, w, step).requests[i].phase.Open?
  {
    hide Usage.Reserving, Payments.Reserving, Started, LimitsOf, DailyKey, PaymentFacts.Do, TooLarge;
    hide Applied, NewWrites, SlotsAfter;
  }

  // ---- What it costs ----

  /** A settled reply was settled by one close, at what the items taken until then used, and was
      charged their price. */
  lemma {:induction false} SettledAtUse(
      user: string, call: nat, pass: Option<PassHold>, estimated: nat, tools: set<string>, actions: seq<Action>)
    returns (k: nat)
    requires StreamFacts.Run(Opened(user, call, pass, estimated, tools), actions).settled.Some?
    ensures k < |actions| && actions[k] == CloseRest
    ensures
      var start := Opened(user, call, pass, estimated, tools);
      var s, items := StreamFacts.Run(start, actions), ItemsTaken(start, actions[..k]);
      && s.settled == Some(Used(items, estimated))
      && s.charge == if pass.None? then None else Some(Price(items, estimated))
  {
    var start, n := Opened(user, call, pass, estimated, tools), |actions| - 1;
    var before, action := StreamFacts.Run(start, actions[..n]), actions[n];
    ReplyStays(before, action);
    if before.settled.Some? {
      k := SettledAtUse(user, call, pass, estimated, tools, actions[..n]);
      assert actions[..n][..k] == actions[..k];
      StreamFacts.RunKeepsCharge(start, actions);
      StreamFacts.RunKeepsRequest(start, actions);
    } else {
      k := n;
      ReplyCostsItsUse(user, call, pass, estimated, tools, actions[..n]);
      OnlyCloseSettles(before, action);
    }
  }

  lemma {:induction false} OnlyCloseSettles(s: StreamState, action: Action)
    requires s.settled.None? && Applied(s, action).settled.Some?
    ensures action == CloseRest && s.closed
  {
    hide Tokens, Cost, AllAllowed;
  }

  /** When all is over, a request whose reply opened has its daily reservation ended once, settled
      at what the items used that its reply took before its close, and its pass changed once, from
      what was reserved to the price of just those items. */
  lemma {:induction false} RequestCostsItsUse(c: Settings, run: seq<Step>, i: nat) returns (k: nat)
    requires i < |Run(c, run).requests| && Run(c, run).requests[i].phase.Open? && AllOver(Run(c, run))
    ensures k < |ActionsOf(c, run, i)| && ActionsOf(c, run, i)[k] == CloseRest
    ensures
      var w, r := Run(c, run), Run(c, run).requests[i];
      var items := ItemsTaken(OpenedAs(r), ActionsOf(c, run, i)[..k]);
      && r.phase.stream.call < |w.calls|
      && w.calls[r.phase.stream.call].endings == [SettledAt(Used(items, r.estimated))]
      && (r.pass.Some? ==>
            && r.pass.value.id < |w.passes|
            && w.passes[r.pass.value.id].changes == [Price(items, r.estimated) - r.pass.value.reserved])
  {
    hide Run, ActionsOf, ItemsTaken, Used, Price, AllOver, OpenedAs, PassCallFacts.Change;
    DailyCallEnds(c, run, i);
    k := OpenReplySettlesAtUse(c, run, i);
    if Run(c, run).requests[i].pass.Some? {
      PassCallFacts.PassPaysForReply(c, run, i);
    }
  }

  lemma {:induction false} OpenReplySettlesAtUse(c: Settings, run: seq<Step>, i: nat) returns (k: nat)
    requires i < |Run(c, run).requests| && Run(c, run).requests[i].phase.Open?
    requires Run(c, run).requests[i].phase.stream.settled.Some?
    ensures k < |ActionsOf(c, run, i)| && ActionsOf(c, run, i)[k] == CloseRest
    ensures
      var r := Run(c, run).requests[i];
      var items := ItemsTaken(OpenedAs(r), ActionsOf(c, run, i)[..k]);
      && r.phase.stream.settled == Some(Used(items, r.estimated))
      && r.phase.stream.charge == if r.pass.None? then None else Some(Price(items, r.estimated))
  {
    hide Run, ActionsOf, ItemsTaken, Used, Price, StreamFacts.Run;
    OpenReplyIsARun(c, run, i);
    var r := Run(c, run).requests[i];
    k := SettledAtUse(r.user, r.phase.stream.call, r.pass, r.estimated, r.tools, ActionsOf(c, run, i));
  }

  lemma {:induction false} DailyCallEnds(c: Settings, run: seq<Step>, i: nat)
    requires i < |Run(c, run).requests| && Run(c, run).requests[i].phase.Open? && AllOver(Run(c, run))
    ensures
      var w, stream := Run(c, run), Run(c, run).requests[i].phase.stream;
      stream.call < |w.calls| && stream.settled.Some?
      && w.calls[stream.call].endings == [SettledAt(stream.settled.value)]
  {
    RunKeepsRight(c, run);
    ReservationsEndOnce(c, run);
    hide Run;
    var w, r := Run(c, run), Run(c, run).requests[i];
    assert HasCall(r, w.calls) && IsOver(r);
    assert IsEndingOf(r, r.phase.stream.call, w.calls[r.phase.stream.call].endings[0]);
  }
}
