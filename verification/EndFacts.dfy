/** Every run ends: once no request begins and no provider sends more, only so many steps are
    left, and when none is left all is over. */
module EndFacts {
  import opened Text
  import opened Usage
  import opened Streams
  import opened Requests
  import opened RequestFacts

  // ---- Nothing gets stuck ----

  lemma {:induction false} RunOneMore(c: Settings, run: seq<Step>, step: Step)
    ensures Run(c, run + [step]) == Next(c, Run(c, run), step)
  {
    assert (run + [step])[..|run|] == run;
  }

  /** The request is over, and the others are as they were. */
  ghost predicate OnlyEnds(w: World, i: nat, after: World)
  {
    && i < |w.requests| == |after.requests|
    && IsOver(after.requests[i])
    && forall j | 0 <= j < |w.requests| && j != i :: after.requests[j] == w.requests[j]
  }

  /** Being cancelled or closed ends a request wherever it is. */
  lemma {:induction false} CancelOrCloseEnds(c: Settings, run: seq<Step>, i: nat)
    requires i < |Run(c, run).requests|
    ensures OnlyEnds(Run(c, run), i, Run(c, run + [Cancel(i)] + [OnReply(i, CloseBegin)] + [OnReply(i, CloseRest)]))
  {
    RunOneMore(c, run, Cancel(i));
    RunOneMore(c, run + [Cancel(i)], OnReply(i, CloseBegin));
    RunOneMore(c, run + [Cancel(i)] + [OnReply(i, CloseBegin)], OnReply(i, CloseRest));
    hide Run, Started, NewWrites, SlotsAfter, Tokens, Cost;
  }

  lemma {:induction false} RequestsCanEnd(c: Settings, run: seq<Step>, k: nat)
    requires k <= |Run(c, run).requests|
    ensures exists longer ::
      && run <= longer && |Run(c, longer).requests| == |Run(c, run).requests|
      && forall i | 0 <= i < k :: IsOver(Run(c, longer).requests[i])
  {
    hide Run;
    if k == 0 {
      assert run <= run;
    } else {
      RequestsCanEnd(c, run, k - 1);
      var longer :|
        && run <= longer && |Run(c, longer).requests| == |Run(c, run).requests|
        && forall i | 0 <= i < k - 1 :: IsOver(Run(c, longer).requests[i]);
      CancelOrCloseEnds(c, longer, k - 1);
      var last := longer + [Cancel(k - 1)] + [OnReply(k - 1, CloseBegin)] + [OnReply(k - 1, CloseRest)];
      assert run <= last;
      assert OnlyEnds(Run(c, longer), k - 1, Run(c, last));
    }
  }

  lemma {:induction false} TasksCanEnd(c: Settings, run: seq<Step>, k: nat)
    requires k <= |Run(c, run).tasks|
    ensures exists longer ::
      && run <= longer && Run(c, longer).requests == Run(c, run).requests
      && |Run(c, longer).tasks| == |Run(c, run).tasks|
      && forall t | 0 <= t < k :: Run(c, longer).tasks[t].done
  {
    hide Run;
    if k == 0 {
      assert run <= run;
    } else {
      TasksCanEnd(c, run, k - 1);
      var longer :|
        && run <= longer && Run(c, longer).requests == Run(c, run).requests
        && |Run(c, longer).tasks| == |Run(c, run).tasks|
        && forall t | 0 <= t < k - 1 :: Run(c, longer).tasks[t].done;
      var last := longer + [Perform(k - 1)];
      assert run <= last;
      RunOneMore(c, longer, Perform(k - 1));
    }
  }

  /** From every state a run can reach, it can go on until nothing is left to run. */
  lemma {:induction false} EveryRunCanEnd(c: Settings, run: seq<Step>)
    ensures exists longer :: run <= longer && AllOver(Run(c, longer))
  {
    hide Run;
    RequestsCanEnd(c, run, |Run(c, run).requests|);
    var ended :|
      && run <= ended && |Run(c, ended).requests| == |Run(c, run).requests|
      && forall i | 0 <= i < |Run(c, run).requests| :: IsOver(Run(c, ended).requests[i]);
    TasksCanEnd(c, ended, |Run(c, ended).tasks|);
    var longer :|
      && ended <= longer && Run(c, longer).requests == Run(c, ended).requests
      && |Run(c, longer).tasks| == |Run(c, ended).tasks|
      && forall t | 0 <= t < |Run(c, ended).tasks| :: Run(c, longer).tasks[t].done;
    assert run <= longer && AllOver(Run(c, longer));
  }

  // ---- Nothing goes on forever ----

  /** The steps a reply has left at most, its writes included. */
  function ReplyWeight(s: StreamState): nat
  {
    var sending := if s.progress == Over then 0 else if s.progress == Charging then 1 else 2 + |s.pendingCalls|;
    var closing := if s.settled.Some? then 0 else 4;
    sending + closing + (if s.closed then 0 else 1) + (if s.outcome == Disconnected then 1 else 0)
  }

  /** The steps a request has left at most, if no item comes. */
  function Weight(r: Request): nat
  {
    match r.phase
    case Ended => 0
    case GivingBack => 1
    case Open(s) => ReplyWeight(s)
    case AwaitRefund(onFallback, _) => if onFallback then 3 else 12
    case AwaitFirst(onFallback, _) => if onFallback then 10 else 14
    case AwaitDaily(onFallback) => if onFallback then 11 else 15
    case AwaitPass => 16
  }

  function RequestsWeight(requests: seq<Request>): nat
  {
    if requests == [] then 0 else RequestsWeight(requests[..|requests| - 1]) + Weight(requests[|requests| - 1])
  }

  function TasksLeft(tasks: seq<Task>): nat
  {
    if tasks == [] then 0 else TasksLeft(tasks[..|tasks| - 1]) + One(!tasks[|tasks| - 1].done)
  }

  /** The steps left at most. */
  function StepsLeft(w: World): nat
  {
    RequestsWeight(w.requests) + TasksLeft(w.tasks)
  }

  /** A step that needs nothing from outside: no new request, no payment, no item of a provider. */
  predicate IsInner(step: Step)
  {
    !step.Begin? && !step.Pay? && !(step.OnReply? && step.action.Take?)
  }

  lemma {:induction false} WeightUpdated(requests: seq<Request>, i: nat, r: Request)
    requires i < |requests|
    ensures RequestsWeight(requests[i := r]) == RequestsWeight(requests) - Weight(requests[i]) + Weight(r)
  {
    hide Weight;
    var n := |requests| - 1;
    if i < n {
      assert requests[i := r][..n] == requests[..n][i := r];
      WeightUpdated(requests[..n], i, r);
    } else {
      assert requests[i := r][..n] == requests[..n];
    }
  }

  lemma {:induction false} TasksStarted(tasks: seq<Task>, writes: seq<Write>)
    ensures TasksLeft(Started(tasks, writes)) == TasksLeft(tasks) + |writes|
  {
    if writes == [] {
      assert Started(tasks, writes) == tasks;
    } else {
      var n := |writes| - 1;
      assert Started(tasks, writes)[..|tasks| + n] == Started(tasks, writes[..n]);
      TasksStarted(tasks, writes[..n]);
    }
  }

  lemma {:induction false} TaskDone(tasks: seq<Task>, t: nat)
    requires t < |tasks| && !tasks[t].done
    ensures TasksLeft(tasks[t := tasks[t].(done := true)]) == TasksLeft(tasks) - 1
  {
    var n := |tasks| - 1;
    var done := tasks[t].(done := true);
    if t < n {
      assert tasks[t := done][..n] == tasks[..n][t := done];
      TaskDone(tasks[..n], t);
    } else {
      assert tasks[t := done][..n] == tasks[..n];
    }
  }

  /** A request that moves on leaves fewer steps when it grows lighter by more than it starts. */
  lemma {:induction false} MovingLeavesFewer(w: World, i: nat, r: Request, writes: seq<Write>, after: World)
    requires i < |w.requests| && Weight(r) + |writes| < Weight(w.requests[i])
    requires after.requests == w.requests[i := r] && after.tasks == Started(w.tasks, writes)
    ensures StepsLeft(after) < StepsLeft(w)
  {
    hide Weight;
    WeightUpdated(w.requests, i, r);
    TasksStarted(w.tasks, writes);
  }

  /** What a reply does without an item makes it lighter by more than it starts. */
  lemma {:induction false} ReplyGrowsLighter(s: StreamState, action: Action)
    requires !action.Take? && Applied(s, action) != s
    ensures ReplyWeight(Applied(s, action)) + |NewWrites(s, Applied(s, action))| < ReplyWeight(s)
  {
    hide Tokens, Cost;
  }

  lemma {:induction false} AbandoningLeavesFewer(w: World, i: nat, cancelled: bool)
    requires i < |w.requests| && Weight(w.requests[i]) >= 3
    ensures StepsLeft(Abandoned(w, i, cancelled)) < StepsLeft(w)
  {
    hide StepsLeft;
    var r := w.requests[i];
    if r.pass.None? || cancelled {
      MovingLeavesFewer(w, i, r.(phase := Ended), GiveBack(r), Abandoned(w, i, cancelled));
    } else {
      MovingLeavesFewer(w, i, r.(phase := GivingBack), GiveBack(r), Abandoned(w, i, cancelled));
    }
  }

  lemma {:induction false} ReplyLeavesFewer(w: World, i: nat, action: Action)
    requires i < |w.requests| && w.requests[i].phase.Open? && !action.Take?
    ensures Replied(w, i, action) == w || StepsLeft(Replied(w, i, action)) < StepsLeft(w)
  {
    hide StepsLeft, Applied, NewWrites, ReplyWeight;
    var s := w.requests[i].phase.stream;
    var t := Applied(s, action);
    var after := Replied(w, i, action);
    if t == s {
      NothingNew(s);
      assert after.requests == w.requests && after.tasks == w.tasks;
    } else {
      ReplyGrowsLighter(s, action);
      MovingLeavesFewer(w, i, after.requests[i], NewWrites(s, t), after);
    }
  }

  lemma {:induction false} NothingNew(s: StreamState)
    ensures NewWrites(s, s) == []
  {
  }

  lemma {:induction false} RequestStepLeavesFewer(c: Settings, w: World, step: Step)
    requires IsInner(step) && !step.Perform? && !step.OnReply? && step.request < |w.requests|
    ensures Next(c, w, step) == w || StepsLeft(Next(c, w, step)) < StepsLeft(w)
  {
    hide StepsLeft, Reserving, Started, Abandoned, GiveBack, LimitsOf, DailyKey;
    var i := step.request;
    var r, after := w.requests[i], Next(c, w, step);
    if Weight(r) >= 3 {
      AbandoningLeavesFewer(w, i, false);
      AbandoningLeavesFewer(w, i, true);
    }
    GiveBackIsShort(r);
    match step
    case PassAnswer(_, _, _) =>
      if r.phase.AwaitPass? {
        MovingLeavesFewer(w, i, after.requests[i], [], after);
      }
    case DailyAnswer(_, _, _) =>
      if r.phase.AwaitDaily? && after != Abandoned(w, i, false) {
        MovingLeavesFewer(w, i, after.requests[i], [], after);
      }
    case FirstOpened(_) =>
      if r.phase.AwaitFirst? {
        MovingLeavesFewer(w, i, after.requests[i], [], after);
      }
    case FirstRefused(_, _) =>
      if r.phase.AwaitFirst? {
        MovingLeavesFewer(w, i, after.requests[i], [ReleaseCall(r.phase.call)], after);
      }
    case WaitOver(_) =>
      if r.phase.GivingBack? || (r.phase.AwaitRefund? && after != Abandoned(w, i, false)) {
        MovingLeavesFewer(w, i, after.requests[i], [], after);
      }
    case Cancel(_) =>
      if r.phase.AwaitFirst? {
        MovingLeavesFewer(w, i, after.requests[i], [ReleaseCall(r.phase.call)] + GiveBack(r), after);
      } else if r.phase.AwaitPass? || r.phase.GivingBack? {
        MovingLeavesFewer(w, i, after.requests[i], [], after);
      }
  }

  lemma {:induction false} GiveBackIsShort(r: Request)
    ensures |GiveBack(r)| <= 1
  {
  }

  /** An inner step changes nothing, or leaves fewer steps. */
  lemma {:induction false} InnerStepLeavesFewer(c: Settings, w: World, step: Step)
    requires IsInner(step)
    ensures Next(c, w, step) == w || StepsLeft(Next(c, w, step)) < StepsLeft(w)
  {
    hide StepsLeft, AnsweringPass, AnsweringDaily, OpeningReply, Refused, Waited, Cancelled, Replied;
    if step.Perform? {
      if step.task < |w.tasks| && !w.tasks[step.task].done {
        PerformLeavesFewer(w, step.task);
      }
    } else if step.request < |w.requests| {
      if !step.OnReply? {
        RequestStepLeavesFewer(c, w, step);
      } else if w.requests[step.request].phase.Open? {
        ReplyLeavesFewer(w, step.request, step.action);
      }
    }
  }

  lemma {:induction false} PerformLeavesFewer(w: World, t: nat)
    requires t < |w.tasks| && !w.tasks[t].done
    ensures StepsLeft(Performed(w, t)) < StepsLeft(w)
  {
    hide Releasing, Settling, RequestsWeight, TasksLeft;
    TaskDone(w.tasks, t);
  }

  /** The worlds that steps go through from `w`. */
  function RunFrom(c: Settings, w: World, steps: seq<Step>): World
  {
    if steps == [] then w else Next(c, RunFrom(c, w, steps[..|steps| - 1]), steps[|steps| - 1])
  }

  /** Each step needs nothing from outside and changes something. */
  ghost predicate AllMove(c: Settings, w: World, steps: seq<Step>)
  {
    forall k | 0 <= k < |steps| ::
      IsInner(steps[k]) && Next(c, RunFrom(c, w, steps[..k]), steps[k]) != RunFrom(c, w, steps[..k])
  }

  /** However timers, answers, disconnects, closes and writes come, only so many steps follow. */
  lemma {:induction false} EveryRunEnds(c: Settings, w: World, steps: seq<Step>)
    requires AllMove(c, w, steps)
    ensures StepsLeft(RunFrom(c, w, steps)) + |steps| <= StepsLeft(w)
  {
    hide StepsLeft, Next;
    if steps != [] {
      var n := |steps| - 1;
      forall k | 0 <= k < n
        ensures IsInner(steps[..n][k])
                && Next(c, RunFrom(c, w, steps[..n][..k]), steps[..n][k]) != RunFrom(c, w, steps[..n][..k])
      {
        assert steps[..n][..k] == steps[..k];
      }
      EveryRunEnds(c, w, steps[..n]);
      InnerStepLeavesFewer(c, RunFrom(c, w, steps[..n]), steps[n]);
    }
  }

  /** When no inner step changes anything any more, all is over. */
  lemma {:induction false} StuckIsOver(c: Settings, w: World)
    requires forall step | IsInner(step) :: Next(c, w, step) == w
    ensures AllOver(w)
  {
    forall i | 0 <= i < |w.requests|
      ensures IsOver(w.requests[i])
    {
      assert IsInner(Cancel(i)) && IsInner(OnReply(i, CloseBegin)) && IsInner(OnReply(i, CloseRest));
      UnfinishedMoves(c, w, i);
    }
    forall t | 0 <= t < |w.tasks|
      ensures w.tasks[t].done
    {
      assert IsInner(Perform(t));
      WaitingTaskMoves(c, w, t);
    }
  }

  lemma {:induction false} UnfinishedMoves(c: Settings, w: World, i: nat)
    requires i < |w.requests|
    ensures || IsOver(w.requests[i]) || Next(c, w, Cancel(i)) != w
            || Next(c, w, OnReply(i, CloseBegin)) != w || Next(c, w, OnReply(i, CloseRest)) != w
  {
    hide Started, GiveBack, NewWrites, SlotsAfter, Tokens, Cost;
    var r := w.requests[i];
    if r.phase.Open? {
      if !r.phase.stream.closed {
        assert Next(c, w, OnReply(i, CloseBegin)).requests[i] != r;
      } else if r.phase.stream.settled.None? {
        assert Next(c, w, OnReply(i, CloseRest)).requests[i] != r;
      }
    } else if !r.phase.Ended? {
      assert Next(c, w, Cancel(i)).requests[i] != r;
    }
  }

  lemma {:induction false} WaitingTaskMoves(c: Settings, w: World, t: nat)
    requires t < |w.tasks|
    ensures w.tasks[t].done || Next(c, w, Perform(t)) != w
  {
    hide Releasing, Settling;
    if !w.tasks[t].done {
      assert Next(c, w, Perform(t)).tasks[t].done;
    }
  }
}
