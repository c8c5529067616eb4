/** What every interleaving of requests keeps: each reservation and each stream slot is in one
    pair of hands at a time, and ends once. */
module RequestFacts {
  import opened Text
  import opened Usage
  import UsageFacts
  import opened Streams
  import StreamFacts
  import Payments
  import PaymentFacts
  import opened Requests

  /** What can be held: a daily reservation, a pass reservation, or a user's stream slot. */
  datatype Thing = Call(call: nat) | Pass(pass: nat) | Slot(user: string)

  predicate ReplyHolds(s: StreamState, thing: Thing)
  {
    match thing
    case Call(n) => s.call == n && s.settled.None?
    case Pass(n) => s.pass.Some? && s.pass.value.id == n && s.charge.None?
    case Slot(user) => s.user == user && !s.slotReleased
  }

  predicate Holds(r: Request, thing: Thing)
  {
    if r.phase.Open? then ReplyHolds(r.phase.stream, thing)
    else
      match thing
      case Call(n) => r.phase.AwaitFirst? && r.phase.call == n
      case Pass(n) =>
        r.pass.Some? && r.pass.value.id == n && (r.phase.AwaitDaily? || r.phase.AwaitFirst? || r.phase.AwaitRefund?)
      case Slot(user) => r.user == user && !r.phase.Ended?
  }

  /** The write that ends this thing. */
  predicate Ends(write: Write, thing: Thing)
  {
    match thing
    case Call(n) => (write.ReleaseCall? || write.SettleCall?) && write.call == n
    case Pass(n) => write.AddToPass? && write.pass == n
    case Slot(_) => false
  }

  function One(b: bool): nat
  {
    if b then 1 else 0
  }

  function Holders(requests: seq<Request>, thing: Thing): nat
  {
    if requests == [] then 0
    else Holders(requests[..|requests| - 1], thing) + One(Holds(requests[|requests| - 1], thing))
  }

  function Writing(writes: seq<Write>, thing: Thing): nat
  {
    if writes == [] then 0
    else Writing(writes[..|writes| - 1], thing) + One(Ends(writes[|writes| - 1], thing))
  }

  function Waiting(tasks: seq<Task>, thing: Thing): nat
  {
    if tasks == [] then 0
    else
      var last := tasks[|tasks| - 1];
      Waiting(tasks[..|tasks| - 1], thing) + One(!last.done && Ends(last.write, thing))
  }

  /** How often it has been ended in the database. */
  function Endings(calls: seq<DailyCall>, passes: seq<PassCall>, thing: Thing): nat
  {
    match thing
    case Call(n) => if n < |calls| then |calls[n].endings| else 0
    case Pass(n) => if n < |passes| then |passes[n].changes| else 0
    case Slot(_) => 0
  }

  /** How many of it were ever given out; of a slot, whether it is taken. */
  function Issued(w: World, thing: Thing): nat
  {
    match thing
    case Call(n) => One(n < |w.calls|)
    case Pass(n) => One(n < |w.passes|)
    case Slot(user) => One(user in w.users)
  }

  ghost predicate IsAccounted(w: World, thing: Thing)
  {
    Holders(w.requests, thing) + Waiting(w.tasks, thing) + Endings(w.calls, w.passes, thing) == Issued(w, thing)
  }

  /** Everything given out is held by one request, or by one write on its way, or ended once. */
  ghost predicate Accounted(w: World)
  {
    forall thing: Thing :: IsAccounted(w, thing)
  }

  // ---- Counting ----

  lemma {:induction false} HoldersUpdated(requests: seq<Request>, i: nat, r: Request, thing: Thing)
    requires i < |requests|
    ensures Holders(requests[i := r], thing) + One(Holds(requests[i], thing)) ==
            Holders(requests, thing) + One(Holds(r, thing))
  {
    hide Holds;
    var n := |requests| - 1;
    if i < n {
      assert requests[i := r][..n] == requests[..n][i := r];
      HoldersUpdated(requests[..n], i, r, thing);
    } else {
      assert requests[i := r][..n] == requests[..n];
    }
  }

  lemma {:induction false} WaitingDone(tasks: seq<Task>, t: nat, thing: Thing)
    requires t < |tasks| && !tasks[t].done
    ensures Waiting(tasks[t := tasks[t].(done := true)], thing) + One(Ends(tasks[t].write, thing)) ==
            Waiting(tasks, thing)
  {
    hide Ends;
    var n := |tasks| - 1;
    var done := tasks[t].(done := true);
    if t < n {
      assert tasks[t := done][..n] == tasks[..n][t := done];
      WaitingDone(tasks[..n], t, thing);
    } else {
      assert tasks[t := done][..n] == tasks[..n];
    }
  }

  lemma {:induction false} WaitingStarted(tasks: seq<Task>, writes: seq<Write>, thing: Thing)
    ensures Waiting(Started(tasks, writes), thing) == Waiting(tasks, thing) + Writing(writes, thing)
  {
    hide Ends;
    if writes == [] {
      assert Started(tasks, writes) == tasks;
    } else {
      var n := |writes| - 1;
      assert Started(tasks, writes)[..|tasks| + n] == Started(tasks, writes[..n]);
      WaitingStarted(tasks, writes[..n], thing);
    }
  }

  lemma {:induction false} WritingConcat(a: seq<Write>, b: seq<Write>, thing: Thing)
    ensures Writing(a + b, thing) == Writing(a, thing) + Writing(b, thing)
  {
    hide Ends;
    if b == [] {
      assert a + b == a;
    } else {
      var n := |b| - 1;
      assert (a + b)[..|a| + n] == a + b[..n];
      WritingConcat(a, b[..n], thing);
    }
  }

  lemma {:induction false} WritingFew(thing: Thing)
    ensures Writing([], thing) == 0
    ensures forall write :: Writing([write], thing) == One(Ends(write, thing))
  {
    hide Ends;
    forall write
      ensures Writing([write], thing) == One(Ends(write, thing))
    {
      assert [write][..0] == [];
    }
  }

  // ---- Each step keeps the account ----

  /** A request that moves on hands what it gives up to the writes it starts, or, for the slot
      and for what the step gives out or takes back, to the account itself. */
  lemma {:induction false} MovingKeepsAccount(w: World, i: nat, r: Request, writes: seq<Write>, after: World)
    requires Accounted(w) && i < |w.requests|
    requires after.requests == w.requests[i := r] && after.tasks == Started(w.tasks, writes)
    requires forall thing: Thing :: Endings(after.calls, after.passes, thing) == Endings(w.calls, w.passes, thing)
    requires forall thing: Thing ::
      One(Holds(r, thing)) + Writing(writes, thing) + Issued(w, thing) ==
      One(Holds(w.requests[i], thing)) + Issued(after, thing)
    ensures Accounted(after)
  {
    hide Holds, Issued, Endings;
    forall thing: Thing
      ensures IsAccounted(after, thing)
    {
      assert IsAccounted(w, thing);
      HoldersUpdated(w.requests, i, r, thing);
      WaitingStarted(w.tasks, writes, thing);
    }
  }

  /** A request that holds a slot is the reason the slot is taken. */
  lemma {:induction false} HolderIsIssued(w: World, i: nat, thing: Thing)
    requires Accounted(w) && i < |w.requests| && Holds(w.requests[i], thing)
    ensures Issued(w, thing) == 1
    ensures Waiting(w.tasks, thing) == Endings(w.calls, w.passes, thing) == 0
  {
    hide Holds, Endings;
    assert IsAccounted(w, thing);
    HoldersUpdated(w.requests, i, w.requests[i].(phase := Ended), thing);
    HoldersUpdated(w.requests, i, w.requests[i], thing);
    HolderCounts(w.requests, i, thing);
  }

  lemma {:induction false} HolderCounts(requests: seq<Request>, i: nat, thing: Thing)
    requires i < |requests| && Holds(requests[i], thing)
    ensures Holders(requests, thing) >= 1
  {
    hide Holds;
    if i < |requests| - 1 {
      HolderCounts(requests[..|requests| - 1], i, thing);
    }
  }

  /** A request in one of these phases ends, with writes for all it holds but its slot. */
  lemma {:induction false} LeavingKeepsAccount(w: World, i: nat, writes: seq<Write>)
    requires Accounted(w) && i < |w.requests|
    requires !w.requests[i].phase.Open? && !w.requests[i].phase.Ended?
    requires forall thing: Thing :: !thing.Slot? ==> Writing(writes, thing) == One(Holds(w.requests[i], thing))
    requires forall thing: Thing :: thing.Slot? ==> Writing(writes, thing) == 0
    ensures Accounted(Left(w, i, writes))
  {
    HolderIsIssued(w, i, Slot(w.requests[i].user));
    MovingKeepsAccount(w, i, w.requests[i].(phase := Ended), writes, Left(w, i, writes));
  }

  lemma {:induction false} GiveBackWrites(r: Request, thing: Thing)
    ensures Writing(GiveBack(r), thing) == One(thing.Pass? && r.pass.Some? && r.pass.value.id == thing.pass)
  {
    WritingFew(thing);
  }

  lemma {:induction false} AbandoningKeepsAccount(w: World, i: nat, cancelled: bool)
    requires Accounted(w) && i < |w.requests|
    requires w.requests[i].phase.AwaitDaily? || w.requests[i].phase.AwaitRefund?
    ensures Accounted(Abandoned(w, i, cancelled))
  {
    hide Accounted, Writing;
    var r := w.requests[i];
    forall thing: Thing
      ensures Writing(GiveBack(r), thing) == One(thing.Pass? && r.pass.Some? && r.pass.value.id == thing.pass)
    {
      GiveBackWrites(r, thing);
    }
    if r.pass.None? || cancelled {
      LeavingKeepsAccount(w, i, GiveBack(r));
    } else {
      MovingKeepsAccount(w, i, r.(phase := GivingBack), GiveBack(r), Abandoned(w, i, cancelled));
    }
  }

  lemma {:induction false} NoWrites()
    ensures forall thing: Thing :: Writing([], thing) == 0
  {
  }

  lemma {:induction false} BeginningKeepsAccount(w: World, step: Step)
    requires Accounted(w) && step.Begin?
    ensures Accounted(Beginning(w, step.user, step.paywalled, step.estimated, step.tools))
  {
    var after := Beginning(w, step.user, step.paywalled, step.estimated, step.tools);
    if after != w {
      assert after.requests[..|w.requests|] == w.requests;
      hide Waiting;
      forall thing: Thing
        ensures IsAccounted(after, thing)
      {
        assert IsAccounted(w, thing);
        assert Holders(after.requests, thing) == Holders(w.requests, thing) + One(thing == Slot(step.user));
      }
    }
  }

  lemma {:induction false} PassAnswerKeepsAccount(c: Settings, w: World, i: nat, now: int, reachable: bool)
    requires Accounted(w) && i < |w.requests| && w.requests[i].phase.AwaitPass?
    ensures Accounted(AnsweringPass(c, w, i, now, reachable))
  {
    hide Accounted, Writing, PassAccepts, Payments.Reserving;
    NoWrites();
    var after := AnsweringPass(c, w, i, now, reachable);
    if PassAccepts(c, w, w.requests[i], now, reachable) {
      MovingKeepsAccount(w, i, after.requests[i], [], after);
    } else {
      LeavingKeepsAccount(w, i, []);
    }
  }

  lemma {:induction false} DailyAnswerKeepsAccount(c: Settings, w: World, i: nat, day: int, reachable: bool)
    requires Accounted(w) && i < |w.requests| && w.requests[i].phase.AwaitDaily?
    ensures Accounted(AnsweringDaily(c, w, i, day, reachable))
  {
    hide Accounted, Writing, Reserving, Abandoned;
    NoWrites();
    AbandoningKeepsAccount(w, i, false);
    var after := AnsweringDaily(c, w, i, day, reachable);
    if after != Abandoned(w, i, false) {
      MovingKeepsAccount(w, i, after.requests[i], [], after);
    }
  }

  lemma {:induction false} FirstKeepsAccount(w: World, i: nat, tooLarge: bool)
    requires Accounted(w) && i < |w.requests| && w.requests[i].phase.AwaitFirst?
    ensures Accounted(OpeningReply(w, i)) && Accounted(Refused(w, i, tooLarge))
  {
    hide Accounted, Writing;
    NoWrites();
    var opening, refused := OpeningReply(w, i), Refused(w, i, tooLarge);
    MovingKeepsAccount(w, i, opening.requests[i], [], opening);
    var writes := [ReleaseCall(w.requests[i].phase.call)];
    forall thing: Thing
      ensures Writing(writes, thing) == One(Ends(writes[0], thing))
    {
      WritingFew(thing);
    }
    MovingKeepsAccount(w, i, refused.requests[i], writes, refused);
  }

  lemma {:induction false} WaitKeepsAccount(c: Settings, w: World, i: nat)
    requires Accounted(w) && i < |w.requests|
    ensures Accounted(Waited(c, w, i))
  {
    hide Accounted, Writing, Abandoned, Left;
    NoWrites();
    var r := w.requests[i];
    match r.phase
    case AwaitRefund(onFallback, tooLarge) =>
      AbandoningKeepsAccount(w, i, false);
      MovingKeepsAccount(w, i, r.(phase := AwaitDaily(true)), [], Moved(w, i, r.(phase := AwaitDaily(true)), []));
    case GivingBack => LeavingKeepsAccount(w, i, []);
    case _ =>
  }

  lemma {:induction false} CancelKeepsAccount(w: World, i: nat)
    requires Accounted(w) && i < |w.requests|
    ensures Accounted(Cancelled(w, i))
  {
    hide Accounted, Writing, Abandoned, Left, GiveBack;
    NoWrites();
    var r := w.requests[i];
    match r.phase
    case AwaitPass => LeavingKeepsAccount(w, i, []);
    case AwaitDaily(_) => AbandoningKeepsAccount(w, i, true);
    case AwaitFirst(_, call) =>
      forall thing: Thing
        ensures Writing([ReleaseCall(call)] + GiveBack(r), thing) == (if thing.Slot? then 0 else One(Holds(r, thing)))
      {
        WritingFew(thing);
        GiveBackWrites(r, thing);
        WritingConcat([ReleaseCall(call)], GiveBack(r), thing);
      }
      LeavingKeepsAccount(w, i, [ReleaseCall(call)] + GiveBack(r));
    case AwaitRefund(_, _) => AbandoningKeepsAccount(w, i, true);
    case GivingBack => LeavingKeepsAccount(w, i, []);
    case _ =>
  }

  /** Whatever a reply gives up in one action, it gives to one new write; the slot aside. */
  lemma {:induction false} ReplyHandsOver(s: StreamState, action: Action, thing: Thing)
    ensures
      var t := Applied(s, action);
      && t.user == s.user
      && (s.slotReleased ==> t.slotReleased)
      && (!thing.Slot? ==> One(ReplyHolds(t, thing)) + Writing(NewWrites(s, t), thing) == One(ReplyHolds(s, thing)))
      && (thing.Slot? ==> Writing(NewWrites(s, t), thing) == 0)
  {
    hide Applied, Writing;
    var t := Applied(s, action);
    ReplyStays(s, action);
    WritingFew(thing);
    var charged := if s.charge.None? && t.charge.Some? && s.pass.Some?
                   then [AddToPass(s.pass.value.id, t.charge.value - s.pass.value.reserved)] else [];
    var settled := if s.settled.None? && t.settled.Some? then [SettleCall(s.call, t.settled.value)] else [];
    WritingConcat(charged, settled, thing);
  }

  lemma {:induction false} ReplyStays(s: StreamState, action: Action)
    ensures
      var t := Applied(s, action);
      && t.user == s.user && t.call == s.call && t.pass == s.pass
      && (s.slotReleased ==> t.slotReleased)
      && (s.charge.Some? ==> t.charge == s.charge)
      && (s.settled.Some? ==> t.settled == s.settled)
  {
    hide Tokens, Cost, Taking;
    if action.Take? && s.progress == Running {
      TakingStays(s, action.item);
    }
  }

  lemma {:induction false} TakingStays(s: StreamState, item: Item)
    ensures
      var t := Taking(s, item);
      && t.user == s.user && t.call == s.call && t.pass == s.pass && t.settled == s.settled
      && (s.slotReleased ==> t.slotReleased)
      && (s.charge.Some? ==> t.charge == s.charge)
  {
    hide Tokens, Cost;
  }

  lemma {:induction false} ReplyKeepsAccount(w: World, i: nat, action: Action)
    requires Accounted(w) && i < |w.requests| && w.requests[i].phase.Open?
    ensures Accounted(Replied(w, i, action))
  {
    hide Accounted, Writing, Applied, NewWrites;
    var s := w.requests[i].phase.stream;
    var t := Applied(s, action);
    var after := Replied(w, i, action);
    if !s.slotReleased {
      HolderIsIssued(w, i, Slot(s.user));
    }
    forall thing: Thing
      ensures One(Holds(after.requests[i], thing)) + Writing(NewWrites(s, t), thing) + Issued(w, thing) ==
              One(Holds(w.requests[i], thing)) + Issued(after, thing)
    {
      ReplyHandsOver(s, action, thing);
    }
    MovingKeepsAccount(w, i, after.requests[i], NewWrites(s, t), after);
  }

  lemma {:induction false} PerformKeepsAccount(w: World, t: nat)
    requires Accounted(w) && t < |w.tasks| && !w.tasks[t].done
    ensures Accounted(Performed(w, t))
  {
    hide Releasing, Settling, Holders, Payments.Adding;
    var after := Performed(w, t);
    forall thing: Thing
      ensures IsAccounted(after, thing)
    {
      assert IsAccounted(w, thing);
      WaitingDone(w.tasks, t, thing);
    }
  }

  lemma {:induction false} PayingKeepsAccount(w: World, entry: PaymentFacts.Entry)
    requires Accounted(w)
    ensures Accounted(Paying(w, entry))
  {
    hide PaymentFacts.Do;
    forall thing: Thing
      ensures IsAccounted(Paying(w, entry), thing)
    {
      assert IsAccounted(w, thing);
    }
  }

  lemma {:induction false} NextKeepsAccount(c: Settings, w: World, step: Step)
    requires Accounted(w)
    ensures Accounted(Next(c, w, step))
  {
    hide Accounted, Beginning, AnsweringPass, AnsweringDaily, OpeningReply, Refused;
    hide Waited, Cancelled, Replied, Performed, Paying;
    match step
    case Begin(_, _, _, _) => BeginningKeepsAccount(w, step);
    case Pay(entry) => PayingKeepsAccount(w, entry);
    case PassAnswer(i, now, reachable) =>
      if i < |w.requests| && w.requests[i].phase.AwaitPass? {
        PassAnswerKeepsAccount(c, w, i, now, reachable);
      }
    case DailyAnswer(i, day, reachable) =>
      if i < |w.requests| && w.requests[i].phase.AwaitDaily? {
        DailyAnswerKeepsAccount(c, w, i, day, reachable);
      }
    case FirstOpened(i) =>
      if i < |w.requests| && w.requests[i].phase.AwaitFirst? {
        FirstKeepsAccount(w, i, false);
      }
    case FirstRefused(i, tooLarge) =>
      if i < |w.requests| && w.requests[i].phase.AwaitFirst? {
        FirstKeepsAccount(w, i, tooLarge);
      }
    case WaitOver(i) =>
      if i < |w.requests| {
        WaitKeepsAccount(c, w, i);
      }
    case Cancel(i) =>
      if i < |w.requests| {
        CancelKeepsAccount(w, i);
      }
    case OnReply(i, action) =>
      if i < |w.requests| && w.requests[i].phase.Open? {
        ReplyKeepsAccount(w, i, action);
      }
    case Perform(t) =>
      if t < |w.tasks| && !w.tasks[t].done {
        PerformKeepsAccount(w, t);
      }
  }

  /** Over every interleaving, everything given out is held once, or on its way to its end
      once, or ended once. */
  lemma {:induction false} RunKeepsAccount(c: Settings, run: seq<Step>)
    ensures Accounted(Run(c, run))
  {
    if run != [] {
      RunKeepsAccount(c, run[..|run| - 1]);
      NextKeepsAccount(c, Run(c, run[..|run| - 1]), run[|run| - 1]);
    }
  }

  // ---- Once each ----

  /** A reply is over for good when its close is. Requests still waiting are not. */
  predicate IsOver(r: Request)
  {
    r.phase.Ended? || (r.phase.Open? && r.phase.stream.settled.Some?)
  }

  /** Nothing left to run. */
  ghost predicate AllOver(w: World)
  {
    && (forall i | 0 <= i < |w.requests| :: IsOver(w.requests[i]))
    && (forall t | 0 <= t < |w.tasks| :: w.tasks[t].done)
  }

  /** Every open reply keeps what a reply keeps. */
  ghost predicate RepliesAreFinal(requests: seq<Request>)
  {
    forall i | 0 <= i < |requests| :: requests[i].phase.Open? ==> StreamFacts.ChargeIsFinal(requests[i].phase.stream)
  }

  lemma {:induction false} NextKeepsReplies(c: Settings, w: World, step: Step)
    requires RepliesAreFinal(w.requests)
    ensures RepliesAreFinal(Next(c, w, step).requests)
  {
    hide StreamFacts.ChargeIsFinal, Applied, Reserving, Releasing, Settling, TooLarge;
    if step.OnReply? && step.request < |w.requests| && w.requests[step.request].phase.Open? {
      StreamFacts.StepKeepsCharge(w.requests[step.request].phase.stream, step.action);
    }
    if step.FirstOpened? && step.request < |w.requests| {
      OpenedIsFinal(w.requests[step.request]);
    }
  }

  lemma {:induction false} OpenedIsFinal(r: Request)
    ensures forall call :: StreamFacts.ChargeIsFinal(Opened(r.user, call, r.pass, r.estimated, r.tools))
  {
  }

  lemma {:induction false} RunKeepsReplies(c: Settings, run: seq<Step>)
    ensures RepliesAreFinal(Run(c, run).requests)
  {
    if run != [] {
      RunKeepsReplies(c, run[..|run| - 1]);
      hide Next;
      NextKeepsReplies(c, Run(c, run[..|run| - 1]), run[|run| - 1]);
    }
  }

  lemma {:induction false} OverHoldsNothing(requests: seq<Request>, thing: Thing)
    requires RepliesAreFinal(requests) && forall i | 0 <= i < |requests| :: IsOver(requests[i])
    ensures Holders(requests, thing) == 0
  {
    if requests != [] {
      OverHoldsNothing(requests[..|requests| - 1], thing);
    }
  }

  lemma {:induction false} DoneWaitsForNothing(tasks: seq<Task>, thing: Thing)
    requires forall t | 0 <= t < |tasks| :: tasks[t].done
    ensures Waiting(tasks, thing) == 0
  {
    if tasks != [] {
      DoneWaitsForNothing(tasks[..|tasks| - 1], thing);
    }
  }

  /** However requests end, each accepted daily reservation is released or settled at most once,
      and each pass reservation charged or given back at most once; once nothing is left to run
      it is exactly once, and no slot is left taken. */
  lemma {:induction false} ReservationsEndOnce(c: Settings, run: seq<Step>)
    ensures
      var w := Run(c, run);
      && (forall n | 0 <= n < |w.calls| :: |w.calls[n].endings| <= 1)
      && (forall n | 0 <= n < |w.passes| :: |w.passes[n].changes| <= 1)
      && (AllOver(w) ==>
            && (forall n | 0 <= n < |w.calls| :: |w.calls[n].endings| == 1)
            && (forall n | 0 <= n < |w.passes| :: |w.passes[n].changes| == 1)
            && w.users == {})
  {
    RunKeepsAccount(c, run);
    RunKeepsReplies(c, run);
    hide Run;
    var w := Run(c, run);
    forall n | 0 <= n < |w.calls|
      ensures |w.calls[n].endings| <= 1 && (AllOver(w) ==> |w.calls[n].endings| == 1)
    {
      EndedAsIssued(w, Call(n));
    }
    forall n | 0 <= n < |w.passes|
      ensures |w.passes[n].changes| <= 1 && (AllOver(w) ==> |w.passes[n].changes| == 1)
    {
      EndedAsIssued(w, Pass(n));
    }
    forall user | user in w.users
      ensures !AllOver(w)
    {
      EndedAsIssued(w, Slot(user));
    }
  }

  lemma {:induction false} EndedAsIssued(w: World, thing: Thing)
    requires Accounted(w) && RepliesAreFinal(w.requests)
    ensures Endings(w.calls, w.passes, thing) <= Issued(w, thing)
    ensures AllOver(w) ==> Endings(w.calls, w.passes, thing) == Issued(w, thing)
  {
    hide Endings, Issued;
    assert IsAccounted(w, thing);
    if AllOver(w) {
      OverHoldsNothing(w.requests, thing);
      DoneWaitsForNothing(w.tasks, thing);
    }
  }

  // ---- One reply for each user ----

  lemma {:induction false} TwoHoldersCount(requests: seq<Request>, i: nat, j: nat, thing: Thing)
    requires i < j < |requests| && Holds(requests[i], thing) && Holds(requests[j], thing)
    ensures Holders(requests, thing) >= 2
  {
    hide Holds;
    var n := |requests| - 1;
    if j < n {
      TwoHoldersCount(requests[..n], i, j, thing);
    } else {
      HolderCounts(requests[..n], i, thing);
    }
  }

  /** No two requests of one user ever hold the slot, and whoever holds it can count on it. */
  lemma {:induction false} OneHolderForEachUser(c: Settings, run: seq<Step>, i: nat, j: nat, user: string)
    requires i < |Run(c, run).requests| && j < |Run(c, run).requests|
    requires Holds(Run(c, run).requests[i], Slot(user)) && Holds(Run(c, run).requests[j], Slot(user))
    ensures i == j && user in Run(c, run).users
  {
    RunKeepsAccount(c, run);
    var w := Run(c, run);
    HolderIsIssued(w, i, Slot(user));
    assert IsAccounted(w, Slot(user));
    if i < j {
      TwoHoldersCount(w.requests, i, j, Slot(user));
    } else if j < i {
      TwoHoldersCount(w.requests, j, i, Slot(user));
    }
  }

  function Actor(step: Step): Option<nat>
  {
    match step
    case Begin(_, _, _, _) => None
    case Pay(_) => None
    case Perform(_) => None
    case _ => Some(step.request)
  }

  /** A step only changes its own request. */
  lemma {:induction false} OthersStay(c: Settings, w: World, step: Step, j: nat)
    requires j < |w.requests| && Actor(step) != Some(j)
    ensures |w.requests| <= |Next(c, w, step).requests| && Next(c, w, step).requests[j] == w.requests[j]
  {
    hide Applied, Reserving, Releasing, Settling, TooLarge, Started;
  }

  /** Only a request's own steps take its slot away: an old reply's close, however late, does not. */
  lemma {:induction false} LateCloseKeepsSlot(c: Settings, run: seq<Step>, step: Step, j: nat, user: string)
    requires j < |Run(c, run).requests| && Holds(Run(c, run).requests[j], Slot(user)) && Actor(step) != Some(j)
    ensures user in Next(c, Run(c, run), step).users
  {
    RunKeepsAccount(c, run);
    var w := Run(c, run);
    hide Run, Next, Holds, Accounted;
    NextKeepsAccount(c, w, step);
    OthersStay(c, w, step, j);
    HolderIsIssued(Next(c, w, step), j, Slot(user));
  }

  // ---- The daily table behind it ----

  function CallState(call: DailyCall): UsageFacts.CallState
  {
    if call.endings == [] then UsageFacts.InFlight
    else
      match call.endings[|call.endings| - 1]
      case TakenBack => UsageFacts.Released
      case SettledAt(actual) => UsageFacts.Settled(actual)
  }

  function CallsOf(calls: seq<DailyCall>): seq<UsageFacts.Call>
  {
    seq(|calls|, n requires 0 <= n < |calls| => UsageFacts.Call(calls[n].key, calls[n].reserved, CallState(calls[n])))
  }

  function LedgerOf(w: World): UsageFacts.Ledger
  {
    UsageFacts.Ledger(w.rows, CallsOf(w.calls))
  }

  /** What a step does to the daily table. */
  function UsageSteps(c: Settings, w: World, step: Step): seq<UsageFacts.Step>
  {
    match step
    case DailyAnswer(i, day, reachable) =>
      if reachable && i < |w.requests| && w.requests[i].phase.AwaitDaily? then
        var r := w.requests[i];
        [UsageFacts.Reserve(DailyKey(c, r, day), LimitsOf(c, r.paywalled), TokenCounts(r.estimated, c.maxOutput))]
      else []
    case Perform(t) =>
      if t >= |w.tasks| || w.tasks[t].done then []
      else
        (match w.tasks[t].write
         case ReleaseCall(n) => [UsageFacts.Release(n)]
         case SettleCall(n, actual) => [UsageFacts.Settle(n, actual)]
         case AddToPass(_, _) => [])
    case _ => []
  }

  function UsageRun(c: Settings, run: seq<Step>): seq<UsageFacts.Step>
  {
    if run == [] then []
    else
      var n := |run| - 1;
      UsageRun(c, run[..n]) + UsageSteps(c, Run(c, run[..n]), run[n])
  }

  /** A write on its way to end a reservation finds it in flight. */
  lemma {:induction false} WriteFindsCall(w: World, t: nat, n: nat)
    requires Accounted(w) && t < |w.tasks| && !w.tasks[t].done && Ends(w.tasks[t].write, Call(n))
    ensures n < |w.calls| && w.calls[n].endings == []
  {
    assert IsAccounted(w, Call(n));
    WaitingDone(w.tasks, t, Call(n));
  }

  lemma {:induction false} StepKeepsLedger(c: Settings, w: World, step: Step)
    requires Accounted(w)
    ensures
      var steps := UsageSteps(c, w, step);
      && |steps| <= 1
      && LedgerOf(Next(c, w, step)) ==
         if steps == [] then LedgerOf(w) else UsageFacts.Do(LedgerOf(w), steps[0])
  {
    hide Reserving, Releasing, Settling, Applied, NewWrites, SlotsAfter, TooLarge, Started;
    hide LimitsOf, ProviderOf, Accounted;
    match step
    case DailyAnswer(i, day, reachable) =>
      if i < |w.requests| && w.requests[i].phase.AwaitDaily? {
        DailyAnswerIsReserve(c, w, i, day, reachable);
      }
    case Perform(t) =>
      if t < |w.tasks| && !w.tasks[t].done {
        PerformIsEnding(w, t);
      }
    case _ =>
  }

  lemma {:induction false} DailyAnswerIsReserve(c: Settings, w: World, i: nat, day: int, reachable: bool)
    requires i < |w.requests| && w.requests[i].phase.AwaitDaily?
    ensures
      var r := w.requests[i];
      LedgerOf(AnsweringDaily(c, w, i, day, reachable)) ==
      if !reachable then LedgerOf(w)
      else
        UsageFacts.Do(LedgerOf(w), UsageFacts.Reserve(
          DailyKey(c, r, day), LimitsOf(c, r.paywalled), TokenCounts(r.estimated, c.maxOutput)))
  {
    hide Reserving, LimitsOf, ProviderOf, Started, DailyKey;
    var r, reserved := w.requests[i], TokenCounts(w.requests[i].estimated, c.maxOutput);
    var key := DailyKey(c, r, day);
    var call := DailyCall(key, reserved, []);
    assert CallsOf(w.calls + [call]) == CallsOf(w.calls) + [UsageFacts.Call(key, reserved, UsageFacts.InFlight)];
    DenialUndoes(w.rows, key, LimitsOf(c, r.paywalled), reserved);
  }

  /** A denied reservation is rolled back. */
  lemma {:induction false} DenialUndoes(rows: seq<UsageRow>, key: UsageKey, limits: DailyLimits, reserved: TokenCounts)
    ensures Reserving(rows, key, limits, reserved).0.denied.Some? ==> Reserving(rows, key, limits, reserved).1 == rows
  {
    hide OverLimit, WithCall, Total;
  }

  lemma {:induction false} PerformIsEnding(w: World, t: nat)
    requires Accounted(w) && t < |w.tasks| && !w.tasks[t].done
    ensures
      LedgerOf(Performed(w, t)) ==
      match w.tasks[t].write
      case ReleaseCall(n) => UsageFacts.Do(LedgerOf(w), UsageFacts.Release(n))
      case SettleCall(n, actual) => UsageFacts.Do(LedgerOf(w), UsageFacts.Settle(n, actual))
      case AddToPass(_, _) => LedgerOf(w)
  {
    hide Reserving, Releasing, Settling, Accounted;
    if !w.tasks[t].write.AddToPass? {
      WriteFindsCall(w, t, w.tasks[t].write.call);
    }
  }

  /** The table of daily usage, under every interleaving of requests, goes through a run of
      reservations that are each released or settled once. So all that holds of such runs,
      that rows are the sum of their calls and the caps hold, holds here. */
  lemma {:induction false} RunKeepsLedger(c: Settings, run: seq<Step>)
    ensures LedgerOf(Run(c, run)) == UsageFacts.Run(UsageFacts.EMPTY, UsageRun(c, run))
  {
    if run != [] {
      var n := |run| - 1;
      RunKeepsLedger(c, run[..n]);
      RunKeepsAccount(c, run[..n]);
      hide Next, UsageFacts.Do, UsageSteps, LedgerOf;
      StepKeepsLedger(c, Run(c, run[..n]), run[n]);
      var steps := UsageSteps(c, Run(c, run[..n]), run[n]);
      assert |steps| == 1 ==> (UsageRun(c, run[..n]) + steps)[..|UsageRun(c, run[..n])|] == UsageRun(c, run[..n]);
      assert steps == [] ==> UsageRun(c, run) == UsageRun(c, run[..n]);
    } else {
      assert CallsOf([]) == [];
    }
  }

  /** Once nothing is left to run, each row of the table is the number of replies that opened
      under it and the tokens they were settled at: refusals and fallbacks leave nothing. */
  lemma {:induction false} RowsAreSettledReplies(c: Settings, run: seq<Step>, i: nat)
    requires AllOver(Run(c, run)) && i < |Run(c, run).rows|
    ensures
      var w := Run(c, run);
      && w.rows[i].count == UsageFacts.Owed(CallsOf(w.calls), OfKey(w.rows[i].key))
      && forall n | 0 <= n < |w.calls| :: CallState(w.calls[n]) != UsageFacts.InFlight
  {
    hide Run, UsageFacts.Run, UsageRun, UsageFacts.Conserved, AllOver;
    RunKeepsLedger(c, run);
    UsageFacts.RunConserves(UsageRun(c, run));
    UsageFacts.RowIsItsCalls(LedgerOf(Run(c, run)), i);
    ReservationsEndOnce(c, run);
  }
}
