/** What a reply comes to, told from the items it took: what it is settled and charged at, what
    text was sent, how it ended, and when its slot is free. */
module ReplyFacts {
  import opened Text
  import opened Usage
  import opened Streams
  import opened StreamFacts

  // ---- From the items ----

  function ItemTaken(s: StreamState, action: Action): seq<Item>
  {
    if s.progress == Running && action.Take? then [action.item] else []
  }

  /** The items a run takes: those that come while the reply is running. */
  function ItemsTaken(s: StreamState, run: seq<Action>): seq<Item>
  {
    if run == [] then []
    else ItemsTaken(s, run[..|run| - 1]) + ItemTaken(Run(s, run[..|run| - 1]), run[|run| - 1])
  }

  /** The provider's last word on what was used. */
  function LastReport(items: seq<Item>): Option<UsageReport>
  {
    if items == [] then None
    else
      var last := items[|items| - 1];
      if last.UsageItem? then Some(last.report) else LastReport(items[..|items| - 1])
  }

  /** The characters of all text and of all calls' arguments. */
  function CharsIn(items: seq<Item>): nat
  {
    if items == [] then 0
    else
      CharsIn(items[..|items| - 1]) +
      match items[|items| - 1]
      case TextDelta(chars) => chars
      case ToolCall(_, chars) => chars
      case _ => 0
  }

  /** What these items used: as reported, with at least a token for every four characters read
      when the output is not final, and the estimated input when there is no report. */
  function Used(items: seq<Item>, estimated: nat): TokenCounts
  {
    var read := CharsIn(items) / 4;
    match LastReport(items)
    case None => TokenCounts(estimated, read)
    case Some(u) => TokenCounts(u.input, if u.partial && u.output < read then read else u.output)
  }

  /** What they cost: nothing, if nothing was read and nothing reported. */
  function Price(items: seq<Item>, estimated: nat): nat
  {
    if LastReport(items).None? && CharsIn(items) == 0 then 0
    else Used(items, estimated).input + Used(items, estimated).output
  }

  // ---- What a reply knows of its items ----

  ghost predicate KnowsItems(s: StreamState, items: seq<Item>, estimated: nat)
  {
    && s.usage == LastReport(items) && s.outputChars == CharsIn(items) && s.estimatedInput == estimated
    && (s.progress == Running ==> (s.finish <==> Finished in items))
    && (s.progress == Sending ==> Finished in items)
    && (s.charge.Some? && s.settled.None? ==> s.charge.value == Price(items, estimated))
  }

  lemma {:induction false} OneMoreItem(items: seq<Item>, item: Item)
    ensures LastReport(items + [item]) == if item.UsageItem? then Some(item.report) else LastReport(items)
    ensures CharsIn(items + [item]) ==
            CharsIn(items) + if item.TextDelta? then item.chars else if item.ToolCall? then item.argumentChars else 0
    ensures Finished in items + [item] <==> Finished in items || item == Finished
  {
    assert (items + [item])[..|items|] == items;
  }

  lemma {:induction false} UseIsTokens(s: StreamState, items: seq<Item>, estimated: nat)
    requires s.usage == LastReport(items) && s.outputChars == CharsIn(items) && s.estimatedInput == estimated
    ensures Tokens(s) == Used(items, estimated) && Cost(s) == Price(items, estimated)
  {
    hide LastReport, CharsIn;
  }

  lemma {:induction false} TakingKnows(s: StreamState, item: Item, items: seq<Item>, estimated: nat)
    requires s.progress == Running && ChargeIsFinal(s) && KnowsItems(s, items, estimated)
    ensures KnowsItems(Taking(s, item), items + [item], estimated)
  {
    hide Tokens, Cost, LastReport, CharsIn, Price, AllAllowed;
    OneMoreItem(items, item);
    if item == EndOfStream {
      var done := s.(outcome := Completed, slotReleased := true);
      UseIsTokens(done, items + [item], estimated);
    }
  }

  lemma {:induction false} StepKnows(s: StreamState, action: Action, items: seq<Item>, estimated: nat)
    requires ChargeIsFinal(s) && KnowsItems(s, items, estimated)
    ensures KnowsItems(Applied(s, action), items + ItemTaken(s, action), estimated)
  {
    hide Taking, Tokens, Cost, LastReport, CharsIn, Price;
    if action.Take? && s.progress == Running {
      TakingKnows(s, action.item, items, estimated);
    } else {
      assert items + [] == items;
    }
  }

  lemma {:induction false} RunKnows(
      user: string, call: nat, pass: Option<PassHold>, estimated: nat, tools: set<string>, run: seq<Action>)
    ensures
      var start := Opened(user, call, pass, estimated, tools);
      && ChargeIsFinal(Run(start, run))
      && KnowsItems(Run(start, run), ItemsTaken(start, run), estimated)
  {
    var start := Opened(user, call, pass, estimated, tools);
    RunKeepsCharge(start, run);
    if run != [] {
      var front := run[..|run| - 1];
      RunKnows(user, call, pass, estimated, tools, front);
      hide KnowsItems, ChargeIsFinal, Applied;
      StepKnows(Run(start, front), run[|run| - 1], ItemsTaken(start, front), estimated);
    }
  }

  // ---- What it comes to ----

  /** The close of a reply settles its row at what the items taken used. The pass is charged the
      sum of that, or nothing when nothing was read or reported; and a charge made before the
      close is already the price of all items the reply takes. */
  lemma {:induction false} ReplyCostsItsUse(
      user: string, call: nat, pass: Option<PassHold>, estimated: nat, tools: set<string>, run: seq<Action>)
    ensures
      var start := Opened(user, call, pass, estimated, tools);
      var s, items := Run(start, run), ItemsTaken(start, run);
      var closed := Applied(s, CloseRest);
      && (s.closed && s.settled.None? ==>
            && closed.settled == Some(Used(items, estimated))
            && closed.charge == (if pass.None? then None else Some(Price(items, estimated))))
      && (s.charge.Some? && s.settled.None? ==> s.charge.value == Price(items, estimated))
  {
    var start := Opened(user, call, pass, estimated, tools);
    var s, items := Run(start, run), ItemsTaken(start, run);
    RunKnows(user, call, pass, estimated, tools, run);
    RunKeepsRequest(start, run);
    hide Run, ItemsTaken, Tokens, Cost, Used, Price, LastReport, CharsIn;
    UseIsTokens(s, items, estimated);
    UseIsTokens(s.(slotReleased := true), items, estimated);
  }

  // ---- How it ends ----

  /** What an item makes of a running reply: a provider's error ends it as that error, a finished
      batch with a call that is not allowed as a bad call, and the end of the stream as completed
      exactly when the model had finished. No other item ends it. */
  lemma {:induction false} ItemEndsReplyExactly(
      user: string, call: nat, pass: Option<PassHold>, estimated: nat, tools: set<string>, run: seq<Action>, item: Item)
    requires Run(Opened(user, call, pass, estimated, tools), run).progress == Running
    ensures
      var start := Opened(user, call, pass, estimated, tools);
      var s, items, calls := Run(start, run), ItemsTaken(start, run), CallsTaken(start, run);
      var sent, after := |ToolCallsSent(s.sent)|, Applied(s, Take(item));
      && sent <= |calls|
      && after.outcome ==
         match item
         case ProviderFailed(code) => Failed(code)
         case Finished =>
           if exists i | sent <= i < |calls| :: calls[i] !in tools then Failed(InvalidToolCall) else s.outcome
         case EndOfStream => if Finished in items then Completed else Failed(ProviderError)
         case _ => s.outcome
  {
    var start := Opened(user, call, pass, estimated, tools);
    var s, calls := Run(start, run), CallsTaken(start, run);
    RunKnows(user, call, pass, estimated, tools, run);
    RunSendsCallsInOrder(user, call, pass, estimated, tools, run);
    RunKeepsRequest(start, run);
    hide Run, ItemsTaken, CallsTaken, ToolCallsSent, Tokens, Cost, Price, LastReport, CharsIn;
    AtConcat(ToolCallsSent(s.sent), s.pendingCalls);
  }

  /** What else can end a reply: anything unexpected, as long as its end has not been sent, and the
      time limit while it is open. */
  lemma {:induction false} ActionEndsReplyExactly(
      user: string, call: nat, pass: Option<PassHold>, estimated: nat, tools: set<string>, run: seq<Action>,
      action: Action)
    requires !action.Take?
    ensures
      var s := Run(Opened(user, call, pass, estimated, tools), run);
      var after := Applied(s, action);
      && after.outcome ==
         (match action
          case Interrupt => if s.progress == Over then s.outcome else Failed(ProviderError)
          case MarkTimedOut => if IsOpen(s) then TimedOut else s.outcome
          case _ => s.outcome)
      && (action == Interrupt && s.progress != Over ==>
            after.progress == Over && after.sent == s.sent + [ErrorSent(ProviderError)])
  {
    RunKeepsOutcome(user, call, pass, estimated, tools, run);
    hide Run, Tokens, Cost;
  }

  // ---- What is sent of the text ----

  function TextsIn(items: seq<Item>): seq<nat>
  {
    if items == [] then []
    else
      var last := items[|items| - 1];
      TextsIn(items[..|items| - 1]) + if last.TextDelta? then [last.chars] else []
  }

  function TextsSent(sent: seq<SentEvent>): seq<nat>
  {
    if sent == [] then []
    else
      var last := sent[|sent| - 1];
      TextsSent(sent[..|sent| - 1]) + if last.TextSent? then [last.chars] else []
  }

  lemma {:induction false} OneMoreSent(sent: seq<SentEvent>, e: SentEvent)
    ensures TextsSent(sent + [e]) == TextsSent(sent) + if e.TextSent? then [e.chars] else []
  {
    assert (sent + [e])[..|sent|] == sent;
  }

  lemma {:induction false} NoTextSent(sent: seq<SentEvent>)
    ensures TextsSent(sent + [UsageSent, DoneSent]) == TextsSent(sent)
    ensures forall code :: TextsSent(sent + [ErrorSent(code)]) == TextsSent(sent)
    ensures forall name :: TextsSent(sent + [ToolCallSent(name)]) == TextsSent(sent)
  {
    forall e: SentEvent | !e.TextSent?
      ensures TextsSent(sent + [e]) == TextsSent(sent)
    {
      OneMoreSent(sent, e);
    }
    OneMoreSent(sent + [UsageSent], DoneSent);
    assert sent + [UsageSent, DoneSent] == sent + [UsageSent] + [DoneSent];
  }

  lemma {:induction false} TakingSendsText(s: StreamState, item: Item)
    requires s.progress == Running
    ensures TextsSent(Taking(s, item).sent) == TextsSent(s.sent) + if item.TextDelta? then [item.chars] else []
  {
    hide TextsSent, Tokens, Cost, AllAllowed;
    NoTextSent(s.sent);
    if item.TextDelta? {
      OneMoreSent(s.sent, TextSent(item.chars));
    }
  }

  lemma {:induction false} StepSendsText(s: StreamState, action: Action, items: seq<Item>)
    requires TextsSent(s.sent) == TextsIn(items)
    ensures TextsSent(Applied(s, action).sent) == TextsIn(items + ItemTaken(s, action))
  {
    hide TextsSent, TextsIn, Tokens, Cost, Taking;
    NoTextSent(s.sent);
    if action.Take? && s.progress == Running {
      TakingSendsText(s, action.item);
      OneMoreText(items, action.item);
    } else {
      assert items + [] == items;
    }
  }

  lemma {:induction false} OneMoreText(items: seq<Item>, item: Item)
    ensures TextsIn(items + [item]) == TextsIn(items) + if item.TextDelta? then [item.chars] else []
  {
    assert (items + [item])[..|items|] == items;
  }

  /** The browser has been sent every text taken, in order, whatever became of the reply. */
  lemma {:induction false} TextsAreSentAsTaken(
      user: string, call: nat, pass: Option<PassHold>, estimated: nat, tools: set<string>, run: seq<Action>)
    ensures
      var start := Opened(user, call, pass, estimated, tools);
      TextsSent(Run(start, run).sent) == TextsIn(ItemsTaken(start, run))
  {
    if run != [] {
      var start, n := Opened(user, call, pass, estimated, tools), |run| - 1;
      TextsAreSentAsTaken(user, call, pass, estimated, tools, run[..n]);
      hide Applied, TextsSent, TextsIn;
      StepSendsText(Run(start, run[..n]), run[n], ItemsTaken(start, run[..n]));
    }
  }

  // ---- When the slot is free ----

  ghost predicate SlotFollows(s: StreamState)
  {
    s.slotReleased <==> !IsOpen(s) || s.settled.Some?
  }

  lemma {:induction false} StepKeepsSlot(s: StreamState, action: Action)
    requires SlotFollows(s)
    ensures SlotFollows(Applied(s, action))
  {
    hide Tokens, Cost, AllAllowed;
  }

  /** The slot is free exactly when the reply has ended or its close is done. */
  lemma {:induction false} SlotIsFreeExactly(
      user: string, call: nat, pass: Option<PassHold>, estimated: nat, tools: set<string>, run: seq<Action>)
    ensures SlotFollows(Run(Opened(user, call, pass, estimated, tools), run))
  {
    if run != [] {
      SlotIsFreeExactly(user, call, pass, estimated, tools, run[..|run| - 1]);
      StepKeepsSlot(Run(Opened(user, call, pass, estimated, tools), run[..|run| - 1]), run[|run| - 1]);
    }
  }

  // ---- What else is on record ----

  /** A close began, and later its rest came. */
  ghost predicate IsWholeClose(run: seq<Action>)
  {
    exists i, j | 0 <= i < j < |run| :: run[i] == CloseBegin && run[j] == CloseRest
  }

  /** The last two events sent are the use and the end. */
  predicate EndsTold(sent: seq<SentEvent>)
  {
    |sent| >= 2 && sent[|sent| - 2] == UsageSent && sent[|sent| - 1] == DoneSent
  }

  lemma {:induction false} EndIsTold(sent: seq<SentEvent>)
    ensures EndsTold(sent + [UsageSent, DoneSent])
  {
  }

  /** What the record of a reply says of the run: it timed out when that was marked while it was
      open; it is settled once a close began and its rest came; a completed reply told its use and
      its end last, after the charge's task when a pass paid. */
  ghost predicate TellsOfRun(s: StreamState, run: seq<Action>)
  {
    && (s.outcome == TimedOut ==> MarkTimedOut in run)
    && (IsOpen(s) && MarkTimedOut in run ==> s.outcome == TimedOut)
    && (s.closed <==> CloseBegin in run)
    && (s.settled.Some? <==> IsWholeClose(run))
    && (s.outcome == Completed && s.progress == Over ==>
          && EndsTold(s.sent)
          && (s.pass.Some? ==> ChargeReturned in run))
    && (s.outcome == Completed ==> (s.progress == Charging || s.progress == Over))
    && (s.progress == Charging ==> s.outcome == Completed)
  }

  lemma {:induction false} OneMoreOf(run: seq<Action>, action: Action)
    ensures MarkTimedOut in run + [action] <==> MarkTimedOut in run || action == MarkTimedOut
    ensures CloseBegin in run + [action] <==> CloseBegin in run || action == CloseBegin
    ensures ChargeReturned in run + [action] <==> ChargeReturned in run || action == ChargeReturned
    ensures IsWholeClose(run + [action]) <==> IsWholeClose(run) || (CloseBegin in run && action == CloseRest)
  {
    var more := run + [action];
    if i, j :| 0 <= i < j < |run| && run[i] == CloseBegin && run[j] == CloseRest {
      assert more[i] == CloseBegin && more[j] == CloseRest;
    }
    if CloseBegin in run && action == CloseRest {
      var i :| 0 <= i < |run| && run[i] == CloseBegin;
      assert more[i] == CloseBegin && more[|run|] == CloseRest;
    }
  }

  lemma {:induction false} TakingTells(s: StreamState, item: Item, run: seq<Action>)
    requires s.progress == Running && TellsOfRun(s, run) && OutcomeIsTold(s)
    ensures TellsOfRun(Taking(s, item), run + [Take(item)])
  {
    hide Tokens, Cost, AllAllowed, IsWholeClose, EndsTold;
    OneMoreOf(run, Take(item));
    EndIsTold(s.sent);
  }

  /** The steps between two items. */
  lemma {:induction false} SendingTells(s: StreamState, run: seq<Action>)
    requires TellsOfRun(s, run) && OutcomeIsTold(s) && s.progress == Sending && s.pendingCalls != []
    ensures TellsOfRun(SendingCall(s), run + [SendCall])
  {
    hide IsWholeClose, EndsTold;
    OneMoreOf(run, SendCall);
  }

  lemma {:induction false} ClosingTells(s: StreamState, action: Action, run: seq<Action>)
    requires TellsOfRun(s, run) && OutcomeIsTold(s) && (action == CloseBegin || action == CloseRest)
    ensures TellsOfRun(Applied(s, action), run + [action])
  {
    hide Tokens, Cost, IsWholeClose, EndsTold;
    OneMoreOf(run, action);
  }

  lemma {:induction false} StepTells(s: StreamState, action: Action, run: seq<Action>)
    requires TellsOfRun(s, run) && OutcomeIsTold(s)
    ensures TellsOfRun(Applied(s, action), run + [action])
  {
    hide Tokens, Cost, Charged, Taking, SendingCall, IsWholeClose, EndsTold;
    OneMoreOf(run, action);
    EndIsTold(s.sent);
    match action
    case Take(item) =>
      if s.progress == Running {
        TakingTells(s, item, run);
      }
    case SendCall =>
      if s.progress == Sending && s.pendingCalls != [] {
        SendingTells(s, run);
      }
    case CloseBegin => ClosingTells(s, action, run);
    case CloseRest => ClosingTells(s, action, run);
    case _ =>
  }

  lemma {:induction false} RunTells(
      user: string, call: nat, pass: Option<PassHold>, estimated: nat, tools: set<string>, run: seq<Action>)
    ensures TellsOfRun(Run(Opened(user, call, pass, estimated, tools), run), run)
  {
    if run != [] {
      var start, n := Opened(user, call, pass, estimated, tools), |run| - 1;
      RunTells(user, call, pass, estimated, tools, run[..n]);
      RunKeepsOutcome(user, call, pass, estimated, tools, run[..n]);
      hide TellsOfRun, OutcomeIsTold, Applied;
      StepTells(Run(start, run[..n]), run[n], run[..n]);
      assert run == run[..n] + [run[n]];
    }
  }
}
