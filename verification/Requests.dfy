/** Chat requests from the first check to the last write, side by side: the stream slot, the
    pass reservation, one daily reservation for each provider tried, the open reply, and the
    writes that end each of them. A step runs from one wait of the event loop to the next. */
module Requests {
  import opened Text
  import opened Usage
  import opened Streams
  import Payments
  import PaymentFacts
  import PassUse

  const NO_DAILY_LIMIT := 1000000000000000
  const MAX_PROMPT_TOKENS := 90000

  datatype Provider = Provider(name: string, model: string)

  datatype Settings = Settings(
    primary: Provider, fallback: Option<Provider>, maxOutput: nat, userDailyCalls: int, userDailyTokens: int,
    globalDailyTokens: int, passDailyTokens: int, passWeeklyTokens: int)

  /** Where a request is. While it waits, anything else may run. */
  datatype Phase =
    | AwaitPass
    | AwaitDaily(onFallback: bool)
    | AwaitFirst(onFallback: bool, call: nat)
    | AwaitRefund(onFallback: bool, tooLarge: bool)
    | GivingBack
    | Open(stream: StreamState)
    | Ended

  datatype Request = Request(
    user: string, paywalled: bool, pass: Option<PassHold>, estimated: nat, tools: set<string>, phase: Phase)

  datatype Ending = TakenBack | SettledAt(actual: TokenCounts)

  /** An accepted daily reservation, with every write that has ended it. */
  datatype DailyCall = DailyCall(key: UsageKey, reserved: TokenCounts, endings: seq<Ending>)

  /** A reservation of a user's pass, with every later change made for it. */
  datatype PassCall = PassCall(user: string, reserved: nat, changes: seq<int>)

  datatype Task = Task(write: Write, done: bool)

  datatype World = World(
    users: set<string>, books: Payments.Books, rows: seq<UsageRow>, calls: seq<DailyCall>, passes: seq<PassCall>,
    tasks: seq<Task>, requests: seq<Request>)

  const QUIET := World({}, PassUse.EMPTY.books, [], [], [], [], [])

  datatype Step =
    | Begin(user: string, paywalled: bool, estimated: nat, tools: set<string>)
    | Pay(entry: PaymentFacts.Entry)
    | PassAnswer(request: nat, now: int, reachable: bool)
    | DailyAnswer(request: nat, day: int, reachable: bool)
    | FirstOpened(request: nat)
    | FirstRefused(request: nat, tooLarge: bool)
    | WaitOver(request: nat)
    | Cancel(request: nat)
    | OnReply(request: nat, action: Action)
    | Perform(task: nat)

  function Started(tasks: seq<Task>, writes: seq<Write>): seq<Task>
  {
    tasks + seq(|writes|, i requires 0 <= i < |writes| => Task(writes[i], false))
  }

  /** The request moves on, starting these writes. */
  function Moved(w: World, i: nat, r: Request, writes: seq<Write>): World
    requires i < |w.requests|
  {
    w.(requests := w.requests[i := r], tasks := Started(w.tasks, writes))
  }

  /** The request ends with its error and frees the slot. */
  function Left(w: World, i: nat, writes: seq<Write>): World
    requires i < |w.requests|
  {
    var r := w.requests[i];
    Moved(w, i, r.(phase := Ended), writes).(users := w.users - {r.user})
  }

  function GiveBack(r: Request): seq<Write>
  {
    if r.pass.None? then [] else [AddToPass(r.pass.value.id, 0 - r.pass.value.reserved)]
  }

  /** The request fails before a reply. It returns what it holds of the pass, and stays around for
      that write unless it is being cancelled. */
  function Abandoned(w: World, i: nat, cancelled: bool): World
    requires i < |w.requests|
  {
    var r := w.requests[i];
    if r.pass.None? || cancelled then Left(w, i, GiveBack(r))
    else Moved(w, i, r.(phase := GivingBack), GiveBack(r))
  }

  /** 1.3 times the estimate must stay within the prompt limit. */
  predicate TooLarge(estimated: nat)
  {
    estimated * 13 > MAX_PROMPT_TOKENS * 10
  }

  function Beginning(w: World, user: string, paywalled: bool, estimated: nat, tools: set<string>): World
  {
    if user in w.users || TooLarge(estimated) then w
    else
      var r := Request(user, paywalled, None, estimated, tools, if paywalled then AwaitPass else AwaitDaily(false));
      w.(users := w.users + {user}, requests := w.requests + [r])
  }

  /** Orders, payments, events, claims and deletions go on beside the requests. */
  function Paying(w: World, entry: PaymentFacts.Entry): World
  {
    if PassUse.IsPayment(entry.step) then w.(books := PaymentFacts.Do(w.books, entry)) else w
  }

  predicate PassAccepts(c: Settings, w: World, r: Request, now: int, reachable: bool)
  {
    reachable && Payments.Reserving(w.books, r.user, r.estimated + c.maxOutput, now).0
  }

  /** The pass's answer: reserved, not usable, or the database could not be reached. */
  function AnsweringPass(c: Settings, w: World, i: nat, now: int, reachable: bool): World
    requires i < |w.requests| && w.requests[i].phase.AwaitPass?
  {
    var r := w.requests[i];
    var reserved := r.estimated + c.maxOutput;
    if !PassAccepts(c, w, r, now, reachable) then Left(w, i, [])
    else
      Moved(w, i, r.(pass := Some(PassHold(|w.passes|, reserved)), phase := AwaitDaily(false)), [])
        .(books := Payments.Reserving(w.books, r.user, reserved, now).1,
          passes := w.passes + [PassCall(r.user, reserved, [])])
  }

  function ProviderOf(c: Settings, onFallback: bool): Provider
  {
    if onFallback && c.fallback.Some? then c.fallback.value else c.primary
  }

  function LimitsOf(c: Settings, paywalled: bool): DailyLimits
  {
    if paywalled then DailyLimits(NO_DAILY_LIMIT, c.passDailyTokens, c.globalDailyTokens, Some(c.passWeeklyTokens))
    else DailyLimits(c.userDailyCalls, c.userDailyTokens, c.globalDailyTokens, None)
  }

  function DailyKey(c: Settings, r: Request, day: int): UsageKey
    requires r.phase.AwaitDaily?
  {
    var provider := ProviderOf(c, r.phase.onFallback);
    UsageKey(r.user, day, provider.name, provider.model)
  }

  /** The day's answer: accepted, denied, or the database could not be reached. */
  function AnsweringDaily(c: Settings, w: World, i: nat, day: int, reachable: bool): World
    requires i < |w.requests| && w.requests[i].phase.AwaitDaily?
  {
    var r := w.requests[i];
    var reserved := TokenCounts(r.estimated, c.maxOutput);
    var key := DailyKey(c, r, day);
    var (answer, rows) := Reserving(w.rows, key, LimitsOf(c, r.paywalled), reserved);
    if !reachable || answer.denied.Some? then Abandoned(w, i, false)
    else
      Moved(w, i, r.(phase := AwaitFirst(r.phase.onFallback, |w.calls|)), [])
        .(rows := rows, calls := w.calls + [DailyCall(key, reserved, [])])
  }

  function OpeningReply(w: World, i: nat): World
    requires i < |w.requests| && w.requests[i].phase.AwaitFirst?
  {
    var r := w.requests[i];
    Moved(w, i, r.(phase := Open(Opened(r.user, r.phase.call, r.pass, r.estimated, r.tools))), [])
  }

  function Refused(w: World, i: nat, tooLarge: bool): World
    requires i < |w.requests| && w.requests[i].phase.AwaitFirst?
  {
    var r := w.requests[i];
    Moved(w, i, r.(phase := AwaitRefund(r.phase.onFallback, tooLarge)), [ReleaseCall(r.phase.call)])
  }

  /** A short wait on a write is over, with the write done or still going on. A refused request
      tries the fallback once, unless the request itself was the problem. */
  function Waited(c: Settings, w: World, i: nat): World
    requires i < |w.requests|
  {
    var r := w.requests[i];
    match r.phase
    case AwaitRefund(onFallback, tooLarge) =>
      if c.fallback.Some? && !onFallback && !tooLarge then Moved(w, i, r.(phase := AwaitDaily(true)), [])
      else Abandoned(w, i, false)
    case GivingBack => Left(w, i, [])
    case _ => w
  }

  function Cancelled(w: World, i: nat): World
    requires i < |w.requests|
  {
    var r := w.requests[i];
    match r.phase
    case AwaitPass => Left(w, i, [])
    case AwaitDaily(_) => Abandoned(w, i, true)
    case AwaitFirst(_, call) => Left(w, i, [ReleaseCall(call)] + GiveBack(r))
    case AwaitRefund(_, _) => Abandoned(w, i, true)
    case GivingBack => Left(w, i, [])
    case _ => w
  }

  function Replied(w: World, i: nat, action: Action): World
    requires i < |w.requests| && w.requests[i].phase.Open?
  {
    var r := w.requests[i];
    var after := Applied(r.phase.stream, action);
    Moved(w, i, r.(phase := Open(after)), NewWrites(r.phase.stream, after))
      .(users := SlotsAfter(w.users, r.phase.stream, after))
  }

  /** The write reaches the database: nothing here asks whether its reservation was ended before. */
  function Performed(w: World, t: nat): World
    requires t < |w.tasks|
  {
    var done := w.(tasks := w.tasks[t := w.tasks[t].(done := true)]);
    match w.tasks[t].write
    case ReleaseCall(n) =>
      if n >= |w.calls| then done
      else
        var call := w.calls[n];
        done.(rows := Releasing(w.rows, call.key, call.reserved),
              calls := w.calls[n := call.(endings := call.endings + [TakenBack])])
    case SettleCall(n, actual) =>
      if n >= |w.calls| then done
      else
        var call := w.calls[n];
        done.(rows := Settling(w.rows, call.key, call.reserved, actual),
              calls := w.calls[n := call.(endings := call.endings + [SettledAt(actual)])])
    case AddToPass(n, change) =>
      if n >= |w.passes| then done
      else
        var pass := w.passes[n];
        done.(books := Payments.Adding(w.books, pass.user, change),
              passes := w.passes[n := pass.(changes := pass.changes + [change])])
  }

  function Next(c: Settings, w: World, step: Step): World
  {
    match step
    case Begin(user, paywalled, estimated, tools) => Beginning(w, user, paywalled, estimated, tools)
    case Pay(entry) => Paying(w, entry)
    case PassAnswer(i, now, reachable) =>
      if i < |w.requests| && w.requests[i].phase.AwaitPass? then AnsweringPass(c, w, i, now, reachable) else w
    case DailyAnswer(i, day, reachable) =>
      if i < |w.requests| && w.requests[i].phase.AwaitDaily? then AnsweringDaily(c, w, i, day, reachable) else w
    case FirstOpened(i) => if i < |w.requests| && w.requests[i].phase.AwaitFirst? then OpeningReply(w, i) else w
    case FirstRefused(i, tooLarge) =>
      if i < |w.requests| && w.requests[i].phase.AwaitFirst? then Refused(w, i, tooLarge) else w
    case WaitOver(i) => if i < |w.requests| then Waited(c, w, i) else w
    case Cancel(i) => if i < |w.requests| then Cancelled(w, i) else w
    case OnReply(i, action) => if i < |w.requests| && w.requests[i].phase.Open? then Replied(w, i, action) else w
    case Perform(t) => if t < |w.tasks| && !w.tasks[t].done then Performed(w, t) else w
  }

  function Run(c: Settings, run: seq<Step>): World
  {
    if run == [] then QUIET else Next(c, Run(c, run[..|run| - 1]), run[|run| - 1])
  }
}
