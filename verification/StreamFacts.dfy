/** What holds of one reply, whatever order its items, errors, time limit and closes come in. */
module StreamFacts {
  import opened Text
  import opened Usage
  import opened Streams

  function Run(s: StreamState, run: seq<Action>): StreamState
  {
    if run == [] then s else Applied(Run(s, run[..|run| - 1]), run[|run| - 1])
  }

  /** A charge made before the close is what the close will settle, since no more items are
      taken after it; and a finished close leaves nothing to charge or free. */
  ghost predicate ChargeIsFinal(s: StreamState)
  {
    && (s.charge.Some? ==> s.pass.Some?)
    && (s.charge.Some? && s.settled.None? ==>
          (s.progress == Charging || s.progress == Over) && s.charge.value == Cost(s))
    && (s.settled.Some? ==> s.slotReleased && (s.pass.Some? ==> s.charge.Some?))
  }

  lemma {:induction false} StepKeepsCharge(s: StreamState, action: Action)
    requires ChargeIsFinal(s)
    ensures ChargeIsFinal(Applied(s, action))
  {
    hide Taking;
    if action.Take? && s.progress == Running {
      TakingKeepsCharge(s, action.item);
    }
  }

  lemma {:induction false} TakingKeepsCharge(s: StreamState, item: Item)
    requires ChargeIsFinal(s) && s.progress == Running
    ensures ChargeIsFinal(Taking(s, item))
  {
  }

  lemma {:induction false} RunKeepsCharge(s: StreamState, run: seq<Action>)
    requires ChargeIsFinal(s)
    ensures ChargeIsFinal(Run(s, run))
  {
    if run != [] {
      RunKeepsCharge(s, run[..|run| - 1]);
      StepKeepsCharge(Run(s, run[..|run| - 1]), run[|run| - 1]);
    }
  }

  /** However a reply ends, the pass is charged the very tokens the daily row is settled at, or
      nothing when nothing was delivered and no usage was reported. */
  lemma {:induction false} ChargeMatchesSettlement(
      user: string, call: nat, pass: Option<PassHold>, estimated: nat, tools: set<string>, run: seq<Action>)
    ensures
      var s := Run(Opened(user, call, pass, estimated, tools), run);
      var closed := Applied(s, CloseRest);
      s.closed && s.settled.None? ==>
        && closed.settled == Some(Tokens(s))
        && closed.charge == (if pass.None? then None
                             else Some(if s.usage.None? && s.outputChars == 0 then 0 else closed.settled.value.Total()))
  {
    RunKeepsCharge(Opened(user, call, pass, estimated, tools), run);
    RunKeepsRequest(Opened(user, call, pass, estimated, tools), run);
  }

  lemma {:induction false} RunKeepsRequest(s: StreamState, run: seq<Action>)
    ensures Run(s, run).pass == s.pass && Run(s, run).allowedTools == s.allowedTools
  {
    if run != [] {
      hide Applied;
      RunKeepsRequest(s, run[..|run| - 1]);
      StepKeepsRequest(Run(s, run[..|run| - 1]), run[|run| - 1]);
    }
  }

  lemma {:induction false} StepKeepsRequest(s: StreamState, action: Action)
    ensures Applied(s, action).pass == s.pass && Applied(s, action).allowedTools == s.allowedTools
  {
    hide Taking, Tokens, Cost;
    if action.Take? && s.progress == Running {
      TakingKeepsRequest(s, action.item);
    }
  }

  lemma {:induction false} TakingKeepsRequest(s: StreamState, item: Item)
    ensures Taking(s, item).pass == s.pass && Taking(s, item).allowedTools == s.allowedTools
  {
    hide Tokens, Cost, AllAllowed;
    if item.EndOfStream? {
      ChargedKeepsRequest(s.(outcome := Completed, slotReleased := true));
    }
    hide Charged;
  }

  lemma {:induction false} ChargedKeepsRequest(s: StreamState)
    ensures Charged(s).pass == s.pass && Charged(s).allowedTools == s.allowedTools
  {
  }

  // ---- What the browser is sent ----

  predicate IsLast(e: SentEvent)
  {
    e == DoneSent || e.ErrorSent?
  }

  /** Every tool call sent is allowed, and nothing follows the end or an error. */
  ghost predicate InOrder(sent: seq<SentEvent>, allowed: set<string>, over: bool)
  {
    && (forall i | 0 <= i < |sent| :: sent[i].ToolCallSent? ==> sent[i].name in allowed)
    && (forall i | 0 <= i < |sent| :: IsLast(sent[i]) ==> i == |sent| - 1)
    && (over <==> sent != [] && IsLast(sent[|sent| - 1]))
  }

  ghost predicate SentInOrder(s: StreamState)
  {
    && InOrder(s.sent, s.allowedTools, s.progress == Over)
    && (s.progress == Sending ==> AllAllowed(s) && s.pendingCalls != [])
  }

  lemma {:induction false} InOrderConcat(sent: seq<SentEvent>, more: seq<SentEvent>, allowed: set<string>, over: bool)
    requires InOrder(sent, allowed, false) && InOrder(more, allowed, over)
    ensures InOrder(sent + more, allowed, over)
  {
  }

  lemma {:induction false} ErrorIsInOrder(s: StreamState, code: ErrorCode)
    requires InOrder(s.sent, s.allowedTools, false)
    ensures SentInOrder(Erred(s, code))
  {
    InOrderConcat(s.sent, [ErrorSent(code)], s.allowedTools, true);
  }

  lemma {:induction false} TakingKeepsSent(s: StreamState, item: Item)
    requires SentInOrder(s) && s.progress == Running
    ensures SentInOrder(Taking(s, item))
  {
    hide Tokens, Cost, Erred, Charged;
    var allowed := s.allowedTools;
    match item
    case TextDelta(chars) => InOrderConcat(s.sent, [TextSent(chars)], allowed, false);
    case ToolCall(name, chars) =>
    case UsageItem(report) =>
    case Finished =>
      ErrorIsInOrder(s, InvalidToolCall);
    case ProviderFailed(code) => ErrorIsInOrder(s, code);
    case EndOfStream =>
      ErrorIsInOrder(s, ProviderError);
      InOrderConcat(s.sent, [UsageSent, DoneSent], allowed, true);
      ChargedKeepsSent(s.(outcome := Completed, slotReleased := true));
  }

  lemma {:induction false} SendingKeepsSent(s: StreamState)
    requires SentInOrder(s) && s.progress == Sending
    ensures SentInOrder(SendingCall(s))
  {
    InOrderConcat(s.sent, [ToolCallSent(s.pendingCalls[0])], s.allowedTools, false);
  }

  lemma {:induction false} ChargedKeepsSent(s: StreamState)
    ensures Charged(s).sent == s.sent && Charged(s).allowedTools == s.allowedTools && Charged(s).progress == s.progress
    ensures Charged(s).pendingCalls == s.pendingCalls
  {
  }

  lemma {:induction false} StepKeepsSent(s: StreamState, action: Action)
    requires SentInOrder(s)
    ensures SentInOrder(Applied(s, action))
  {
    hide Taking, Erred, Charged, Tokens, InOrder;
    match action
    case SendCall =>
      if s.progress == Sending {
        SendingKeepsSent(s);
      }
    case Take(item) =>
      if s.progress == Running {
        TakingKeepsSent(s, item);
      }
    case ChargeReturned =>
      if s.progress == Charging {
        EndIsInOrder();
        InOrderConcat(s.sent, [UsageSent, DoneSent], s.allowedTools, true);
      }
    case Interrupt =>
      if s.progress != Over {
        ErrorIsInOrder(s, ProviderError);
      }
    case _ => ChargedKeepsSent(s.(slotReleased := true));
  }

  lemma {:induction false} EndIsInOrder()
    ensures forall allowed :: InOrder([UsageSent, DoneSent], allowed, true)
  {
  }

  predicate IsOpen(s: StreamState)
  {
    s.progress == Running || s.progress == Sending
  }

  /** The tool call this action takes from the queue. */
  function CallTaken(s: StreamState, action: Action): seq<string>
  {
    if s.progress == Running && action.Take? && action.item.ToolCall? then [action.item.name] else []
  }

  function CallsTaken(s: StreamState, run: seq<Action>): seq<string>
  {
    if run == [] then []
    else CallsTaken(s, run[..|run| - 1]) + CallTaken(Run(s, run[..|run| - 1]), run[|run| - 1])
  }

  function ToolCallsSent(sent: seq<SentEvent>): seq<string>
  {
    if sent == [] then []
    else
      var last := sent[|sent| - 1];
      ToolCallsSent(sent[..|sent| - 1]) + if last.ToolCallSent? then [last.name] else []
  }

  lemma {:induction false} StepSendsCalls(s: StreamState, action: Action)
    ensures
      var t := Applied(s, action);
      IsOpen(t) ==>
        && IsOpen(s)
        && ToolCallsSent(t.sent) + t.pendingCalls == ToolCallsSent(s.sent) + s.pendingCalls + CallTaken(s, action)
  {
    hide Tokens, Cost, ToolCallsSent, Taking, SendingCall;
    var t := Applied(s, action);
    if action.Take? && s.progress == Running {
      TakingSendsCalls(s, action.item);
    } else if action.SendCall? && s.progress == Sending && s.pendingCalls != [] {
      SendingSendsCalls(s);
    }
  }

  lemma {:induction false} TakingSendsCalls(s: StreamState, item: Item)
    requires s.progress == Running
    ensures
      var t := Taking(s, item);
      IsOpen(t) ==>
        ToolCallsSent(t.sent) + t.pendingCalls == ToolCallsSent(s.sent) + s.pendingCalls + CallTaken(s, Take(item))
  {
    hide Tokens, Cost, ToolCallsSent, AllAllowed;
    if item.TextDelta? {
      NoToolCallSent(s.sent, TextSent(item.chars));
    }
  }

  lemma {:induction false} SendingSendsCalls(s: StreamState)
    requires s.pendingCalls != []
    ensures
      var t := SendingCall(s);
      ToolCallsSent(t.sent) + t.pendingCalls == ToolCallsSent(s.sent) + s.pendingCalls
  {
    hide ToolCallsSent;
    OneToolCallSent(s.sent, s.pendingCalls[0]);
    assert s.pendingCalls == [s.pendingCalls[0]] + s.pendingCalls[1..];
  }

  lemma {:induction false} OneToolCallSent(sent: seq<SentEvent>, name: string)
    ensures ToolCallsSent(sent + [ToolCallSent(name)]) == ToolCallsSent(sent) + [name]
  {
    assert (sent + [ToolCallSent(name)])[..|sent|] == sent;
  }

  lemma {:induction false} NoToolCallSent(sent: seq<SentEvent>, e: SentEvent)
    requires !e.ToolCallSent?
    ensures ToolCallsSent(sent + [e]) == ToolCallsSent(sent)
  {
    assert (sent + [e])[..|sent|] == sent;
  }

  /** While a reply runs, also between two calls it sends, the browser has been sent every tool
      call taken so far, in order, but for those still waiting. No call of a batch is sent unless
      all of it is allowed, and nothing follows the end or an error. */
  lemma {:induction false} RunSendsCallsInOrder(
      user: string, call: nat, pass: Option<PassHold>, estimated: nat, tools: set<string>, run: seq<Action>)
    ensures
      var start := Opened(user, call, pass, estimated, tools);
      var s := Run(start, run);
      && SentInOrder(s)
      && (IsOpen(s) ==> ToolCallsSent(s.sent) + s.pendingCalls == CallsTaken(start, run))
  {
    var start := Opened(user, call, pass, estimated, tools);
    if run != [] {
      RunSendsCallsInOrder(user, call, pass, estimated, tools, run[..|run| - 1]);
      StepKeepsSent(Run(start, run[..|run| - 1]), run[|run| - 1]);
      StepSendsCalls(Run(start, run[..|run| - 1]), run[|run| - 1]);
    }
  }

  // ---- What is recorded ----

  /** The recorded outcome is what the browser was told: still running is all a disconnect or
      a time limit can be, an error is the error sent last, and completed has no error. The
      slot is free before the browser is told that the reply ended. */
  ghost predicate OutcomeIsTold(s: StreamState)
  {
    && (s.outcome == Disconnected || s.outcome == TimedOut <==> IsOpen(s))
    && (s.outcome.Failed? ==> s.sent != [] && s.sent[|s.sent| - 1] == ErrorSent(s.outcome.code) && s.progress == Over)
    && (s.outcome == Completed && s.progress == Over ==> s.sent != [] && s.sent[|s.sent| - 1] == DoneSent)
    && (!IsOpen(s) ==> s.slotReleased)
  }

  lemma {:induction false} TakingKeepsOutcome(s: StreamState, item: Item)
    requires OutcomeIsTold(s) && s.progress == Running
    ensures OutcomeIsTold(Taking(s, item))
  {
    hide Tokens, Cost, AllAllowed;
  }

  lemma {:induction false} StepKeepsOutcome(s: StreamState, action: Action)
    requires OutcomeIsTold(s)
    ensures OutcomeIsTold(Applied(s, action))
  {
    hide Taking, Tokens, Cost;
    if action.Take? && s.progress == Running {
      TakingKeepsOutcome(s, action.item);
    }
  }

  /** Over every order of items, errors, time limit and closes, the audit row tells of a reply
      what its user was told. */
  lemma {:induction false} RunKeepsOutcome(
      user: string, call: nat, pass: Option<PassHold>, estimated: nat, tools: set<string>, run: seq<Action>)
    ensures OutcomeIsTold(Run(Opened(user, call, pass, estimated, tools), run))
  {
    if run != [] {
      var start := Opened(user, call, pass, estimated, tools);
      RunKeepsOutcome(user, call, pass, estimated, tools, run[..|run| - 1]);
      StepKeepsOutcome(Run(start, run[..|run| - 1]), run[|run| - 1]);
    }
  }
}
