/** A reply from its opening to its last write, and the slots that keep each user to one. Each
    method runs from one wait or yield to the next, so nothing else runs inside it. */
module Streams {
  import opened Text
  import opened Usage
  import Render

  datatype ErrorCode = ProviderError | RateLimited | InvalidToolCall | Declined

  datatype Outcome = Disconnected | TimedOut | Completed | Failed(code: ErrorCode)

  /** A provider's token counts. The input of a partial report is real, its output is not final. */
  datatype UsageReport = UsageReport(input: nat, output: nat, partial: bool)

  /** What the provider's queue hands over. */
  datatype Item =
    | TextDelta(chars: nat)
    | ToolCall(name: string, argumentChars: nat)
    | UsageItem(report: UsageReport)
    | Finished
    | ProviderFailed(code: ErrorCode)
    | EndOfStream

  /** What the browser is sent. */
  datatype SentEvent =
    | TextSent(chars: nat) | ToolCallSent(name: string) | UsageSent | DoneSent | ErrorSent(code: ErrorCode)

  /** Where `events()` stands: taking items, between two tool calls it sends, waiting for the
      charge, or done. */
  datatype Progress = Running | Sending | Charging | Over

  /** A database write that runs as a task of its own. Reservations go by their number. */
  datatype Write =
    | ReleaseCall(call: nat) | SettleCall(call: nat, actual: TokenCounts) | AddToPass(pass: nat, change: int)

  datatype PassHold = PassHold(id: nat, reserved: nat)

  datatype StreamState = StreamState(
    user: string, call: nat, pass: Option<PassHold>, estimatedInput: nat, allowedTools: set<string>,
    progress: Progress, pendingCalls: seq<string>, finish: bool, sent: seq<SentEvent>,
    usage: Option<UsageReport>, outputChars: nat, outcome: Outcome,
    closed: bool, slotReleased: bool, charge: Option<nat>, settled: Option<TokenCounts>)

  /** What can happen to an open reply, in any order. CloseRest is the part of a close after it
      has waited for the provider. */
  datatype Action = Take(item: Item) | SendCall | ChargeReturned | Interrupt | MarkTimedOut | CloseBegin | CloseRest

  function Opened(
      user: string, call: nat, pass: Option<PassHold>, estimatedInput: nat, allowedTools: set<string>): StreamState
  {
    StreamState(user, call, pass, estimatedInput, allowedTools, Running, [], false, [],
                None, 0, Disconnected, false, false, None, None)
  }

  // ---- What each action does ----

  /** What the reply used: as reported, with what was read of it standing in for what was not. */
  function Tokens(s: StreamState): TokenCounts
  {
    var estimate := s.outputChars / Render.CHARS_PER_TOKEN;
    match s.usage
    case None => TokenCounts(s.estimatedInput, estimate)
    case Some(u) => TokenCounts(u.input, if u.partial && estimate > u.output then estimate else u.output)
  }

  /** What the user is charged: nothing, unless something was read or reported. */
  function Cost(s: StreamState): nat
  {
    if s.usage.Some? || s.outputChars > 0 then Tokens(s).Total() else 0
  }

  function Charged(s: StreamState): StreamState
  {
    if s.pass.None? || s.charge.Some? then s else s.(charge := Some(Cost(s)))
  }

  function Erred(s: StreamState, code: ErrorCode): StreamState
  {
    s.(outcome := Failed(code), slotReleased := true, progress := Over, sent := s.sent + [ErrorSent(code)])
  }

  predicate AllAllowed(s: StreamState)
  {
    forall i | 0 <= i < |s.pendingCalls| :: s.pendingCalls[i] in s.allowedTools
  }

  function Taking(s: StreamState, item: Item): StreamState
  {
    match item
    case TextDelta(chars) => s.(outputChars := s.outputChars + chars, sent := s.sent + [TextSent(chars)])
    case ToolCall(name, chars) => s.(outputChars := s.outputChars + chars, pendingCalls := s.pendingCalls + [name])
    case UsageItem(report) => s.(usage := Some(report))
    case Finished =>
      if !AllAllowed(s) then Erred(s, InvalidToolCall)
      else if s.pendingCalls == [] then s.(finish := true)
      else s.(progress := Sending)
    case ProviderFailed(code) => Erred(s, code)
    case EndOfStream =>
      if !s.finish then Erred(s, ProviderError)
      else
        var done := Charged(s.(outcome := Completed, slotReleased := true));
        if done.charge.Some? then done.(progress := Charging)
        else done.(progress := Over, sent := done.sent + [UsageSent, DoneSent])
  }

  /** The next pending call goes out. After the last one the model has finished. */
  function SendingCall(s: StreamState): StreamState
    requires s.pendingCalls != []
  {
    var rest := s.pendingCalls[1..];
    var next := s.(sent := s.sent + [ToolCallSent(s.pendingCalls[0])], pendingCalls := rest);
    if rest == [] then next.(progress := Running, finish := true) else next
  }

  function Applied(s: StreamState, action: Action): StreamState
  {
    match action
    case SendCall => if s.progress == Sending && s.pendingCalls != [] then SendingCall(s) else s
    case Take(item) => if s.progress == Running then Taking(s, item) else s
    case ChargeReturned =>
      if s.progress == Charging then s.(progress := Over, sent := s.sent + [UsageSent, DoneSent]) else s
    case Interrupt => if s.progress != Over then Erred(s, ProviderError) else s
    case MarkTimedOut => if s.outcome == Disconnected then s.(outcome := TimedOut) else s
    case CloseBegin => s.(closed := true)
    case CloseRest =>
      if s.closed && s.settled.None? then Charged(s.(slotReleased := true)).(settled := Some(Tokens(s))) else s
  }

  /** The tasks started between two states of a reply. */
  function NewWrites(before: StreamState, after: StreamState): seq<Write>
  {
    (if before.charge.None? && after.charge.Some? && before.pass.Some?
     then [AddToPass(before.pass.value.id, after.charge.value - before.pass.value.reserved)] else []) +
    (if before.settled.None? && after.settled.Some? then [SettleCall(before.call, after.settled.value)] else [])
  }

  function SlotsAfter(users: set<string>, before: StreamState, after: StreamState): set<string>
  {
    if !before.slotReleased && after.slotReleased then users - {before.user} else users
  }

  // ---- The objects ----

  class ActiveStreamRegistry {
    var users: set<string>

    constructor ()
      ensures users == {}
    {
      users := {};
    }

    method Acquire(user: string) returns (acquired: bool)
      modifies this
      ensures acquired <==> user !in old(users)
      ensures users == old(users) + {user}
    {
      if user in users {
        return false;
      }
      users := users + {user};
      acquired := true;
    }

    method Release(user: string)
      modifies this
      ensures users == old(users) - {user}
    {
      users := users - {user};
    }
  }

  /** The event loop's tasks that write to the database. */
  class WriteTasks {
    var started: seq<Write>

    constructor ()
      ensures started == []
    {
      started := [];
    }

    method Start(write: Write)
      modifies this
      ensures started == old(started) + [write]
    {
      started := started + [write];
    }
  }

  class AssistantChatStream {
    const user: string
    const call: nat
    const pass: Option<PassHold>
    const estimatedInput: nat
    const allowedTools: set<string>
    const registry: ActiveStreamRegistry
    const tasks: WriteTasks
    var progress: Progress
    var pendingCalls: seq<string>
    var finish: bool
    var sent: seq<SentEvent>
    var usage: Option<UsageReport>
    var outputChars: nat
    var outcome: Outcome
    var closed: bool
    var slotReleased: bool
    var charge: Option<nat>
    var settled: Option<TokenCounts>

    constructor (user: string, call: nat, pass: Option<PassHold>, estimatedInput: nat, allowedTools: set<string>,
                 registry: ActiveStreamRegistry, tasks: WriteTasks)
      ensures State() == Opened(user, call, pass, estimatedInput, allowedTools)
      ensures this.registry == registry && this.tasks == tasks
    {
      this.user, this.call, this.pass := user, call, pass;
      this.estimatedInput, this.allowedTools := estimatedInput, allowedTools;
      this.registry, this.tasks := registry, tasks;
      progress, pendingCalls, finish, sent := Running, [], false, [];
      usage, outputChars, outcome := None, 0, Disconnected;
      closed, slotReleased, charge, settled := false, false, None, None;
    }

    function State(): StreamState
      reads this
    {
      StreamState(user, call, pass, estimatedInput, allowedTools, progress, pendingCalls, finish, sent,
                  usage, outputChars, outcome, closed, slotReleased, charge, settled)
    }

    /** The slot goes back at most once in the life of a reply. */
    method ReleaseSlot()
      modifies this`slotReleased, registry
      ensures slotReleased
      ensures registry.users == SlotsAfter(old(registry.users), old(State()), State())
    {
      if !slotReleased {
        slotReleased := true;
        registry.Release(user);
      }
    }

    /** Starts the charge unless it was started or no pass pays for the reply. */
    method StartCharge(actual: TokenCounts)
      requires actual == Tokens(State())
      modifies this`charge, tasks
      ensures State() == Charged(old(State()))
      ensures tasks.started == old(tasks.started) + NewWrites(old(State()), State())
    {
      if pass.Some? && charge.None? {
        var delivered := usage.Some? || outputChars > 0;
        var tokens := if delivered then actual.Total() else 0;
        charge := Some(tokens);
        tasks.Start(AddToPass(pass.value.id, tokens - pass.value.reserved));
      }
    }

    method SendError(code: ErrorCode)
      modifies this`outcome, this`progress, this`sent, this`slotReleased, registry
      ensures State() == Erred(old(State()), code)
      ensures registry.users == SlotsAfter(old(registry.users), old(State()), State())
    {
      outcome := Failed(code);
      ReleaseSlot();
      sent := sent + [ErrorSent(code)];
      progress := Over;
    }

    /** One forbidden call spoils the whole batch. */
    method FinishCalls()
      requires progress == Running
      modifies this`outcome, this`progress, this`sent, this`slotReleased, this`finish, registry
      ensures State() == Taking(old(State()), Finished)
      ensures registry.users == SlotsAfter(old(registry.users), old(State()), State())
    {
      if exists i | 0 <= i < |pendingCalls| :: pendingCalls[i] !in allowedTools {
        SendError(InvalidToolCall);
      } else if pendingCalls == [] {
        finish := true;
      } else {
        progress := Sending;
      }
    }

    /** One pending call, up to the yield behind it: the reply can stop between any two. */
    method SendNextCall()
      modifies this`progress, this`sent, this`pendingCalls, this`finish
      ensures State() == Applied(old(State()), SendCall)
    {
      if progress == Sending && pendingCalls != [] {
        sent := sent + [ToolCallSent(pendingCalls[0])];
        pendingCalls := pendingCalls[1..];
        if pendingCalls == [] {
          finish := true;
          progress := Running;
        }
      }
    }

    /** One item of the provider's queue. */
    method TakeItem(item: Item)
      modifies this, registry, tasks
      ensures State() == Applied(old(State()), Take(item))
      ensures registry.users == SlotsAfter(old(registry.users), old(State()), State())
      ensures tasks.started == old(tasks.started) + NewWrites(old(State()), State())
    {
      if progress != Running {
        return;
      }
      match item {
        case TextDelta(chars) =>
          outputChars := outputChars + chars;
          sent := sent + [TextSent(chars)];
        case ToolCall(name, chars) =>
          outputChars := outputChars + chars;
          pendingCalls := pendingCalls + [name];
        case UsageItem(report) =>
          usage := Some(report);
        case Finished =>
          FinishCalls();
        case ProviderFailed(code) =>
          SendError(code);
        case EndOfStream =>
          EndReply();
      }
    }

    /** The provider's stream has ended: an error unless the model had finished. The slot is
        freed before the browser is told. */
    method EndReply()
      requires progress == Running
      modifies this, registry, tasks
      ensures State() == Taking(old(State()), EndOfStream)
      ensures registry.users == SlotsAfter(old(registry.users), old(State()), State())
      ensures tasks.started == old(tasks.started) + NewWrites(old(State()), State())
    {
      if !finish {
        SendError(ProviderError);
        return;
      }
      var actual := Tokens(State());
      outcome := Completed;
      ReleaseSlot();
      StartCharge(actual);
      if charge.Some? {
        progress := Charging;
      } else {
        sent := sent + [UsageSent, DoneSent];
        progress := Over;
      }
    }

    /** The charge's task has ended. */
    method FinishReply()
      modifies this`progress, this`sent
      ensures State() == Applied(old(State()), ChargeReturned)
    {
      if progress == Charging {
        sent := sent + [UsageSent, DoneSent];
        progress := Over;
      }
    }

    /** Anything unexpected inside `events()`. */
    method FailReply()
      modifies this`outcome, this`progress, this`sent, this`slotReleased, registry
      ensures State() == Applied(old(State()), Interrupt)
      ensures registry.users == SlotsAfter(old(registry.users), old(State()), State())
    {
      if progress != Over {
        SendError(ProviderError);
      }
    }

    /** Changes the outcome of a reply still open, and of no other. */
    method TimeOut()
      modifies this`outcome
      ensures State() == Applied(old(State()), MarkTimedOut)
    {
      if outcome == Disconnected {
        outcome := TimedOut;
      }
    }

    /** `close()` up to its wait for the provider to stop. False when another close came first. */
    method BeginClose() returns (first: bool)
      modifies this`closed
      ensures State() == Applied(old(State()), CloseBegin)
      ensures first <==> !old(closed)
    {
      if closed {
        return false;
      }
      closed := true;
      first := true;
    }

    /** The rest of `close()`, which only the first close reaches. */
    method FinishClose()
      requires closed && settled.None?
      modifies this`slotReleased, this`charge, this`settled, registry, tasks
      ensures State() == Applied(old(State()), CloseRest)
      ensures registry.users == SlotsAfter(old(registry.users), old(State()), State())
      ensures tasks.started == old(tasks.started) + NewWrites(old(State()), State())
    {
      ReleaseSlot();
      var actual := Tokens(State());
      StartCharge(actual);
      settled := Some(actual);
      tasks.Start(SettleCall(call, actual));
    }
  }
}
