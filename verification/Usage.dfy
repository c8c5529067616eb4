/** What the assistant has used, one row for each user, UTC day, provider and model. Each
    store method is one transaction. */
module Usage {
  import opened Text

  const WEEK_DAYS := 7

  /** `day` counts days. */
  datatype UsageKey = UsageKey(user: string, day: int, provider: string, model: string)

  datatype TokenCounts = TokenCounts(input: nat, output: nat)
  {
    function Total(): nat { input + output }
  }

  datatype DailyLimits = DailyLimits(userCalls: int, userTokens: int, globalTokens: int, userWeeklyTokens: Option<int>)

  datatype Denial = GlobalTokens | UserCalls | UserTokens | UserWeeklyTokens

  datatype CallReservation = CallReservation(denied: Option<Denial>, callsToday: int)

  datatype Count = Count(calls: int, input: int, output: int)
  {
    function Tokens(): int { input + output }

    function Plus(more: Count): Count { Count(calls + more.calls, input + more.input, output + more.output) }

    function Minus(less: Count): Count { Count(calls - less.calls, input - less.input, output - less.output) }
  }

  const NOTHING := Count(0, 0, 0)

  datatype UsageRow = UsageRow(key: UsageKey, count: Count)

  /** Which rows a total runs over. */
  datatype Scope =
    | OfKey(key: UsageKey) | OfDay(day: int) | OfUserDay(user: string, day: int) | OfUserWeek(user: string, last: int)
  {
    predicate Covers(k: UsageKey)
    {
      match this
      case OfKey(key) => k == key
      case OfDay(day) => k.day == day
      case OfUserDay(user, day) => k.user == user && k.day == day
      case OfUserWeek(user, last) => k.user == user && last - WEEK_DAYS < k.day <= last
    }
  }

  function Total(rows: seq<UsageRow>, scope: Scope): Count
  {
    if rows == [] then NOTHING
    else
      var last := rows[|rows| - 1];
      var front := Total(rows[..|rows| - 1], scope);
      if scope.Covers(last.key) then front.Plus(last.count) else front
  }

  function FindRow(rows: seq<UsageRow>, key: UsageKey): (r: Option<nat>)
    ensures r.Some? ==> r.value < |rows| && rows[r.value].key == key
    ensures r.None? ==> forall i | 0 <= i < |rows| :: rows[i].key != key
  {
    if rows == [] then None
    else if rows[|rows| - 1].key == key then Some(|rows| - 1)
    else FindRow(rows[..|rows| - 1], key)
  }

  function AtLeastZero(n: int): int
  {
    if n < 0 then 0 else n
  }

  // ---- What each transaction does ----

  function WithCall(rows: seq<UsageRow>, key: UsageKey, reserved: TokenCounts): seq<UsageRow>
  {
    match FindRow(rows, key)
    case None => rows + [UsageRow(key, Count(1, reserved.input, reserved.output))]
    case Some(i) => rows[i := UsageRow(key, rows[i].count.Plus(Count(1, reserved.input, reserved.output)))]
  }

  /** The first limit the table is over, once it holds the call being decided. */
  function OverLimit(rows: seq<UsageRow>, key: UsageKey, limits: DailyLimits): Option<Denial>
  {
    if Total(rows, OfDay(key.day)).Tokens() >= limits.globalTokens then Some(GlobalTokens)
    else if Total(rows, OfUserDay(key.user, key.day)).calls > limits.userCalls then Some(UserCalls)
    else if Total(rows, OfUserDay(key.user, key.day)).Tokens() >= limits.userTokens then Some(UserTokens)
    else if limits.userWeeklyTokens.Some?
         && Total(rows, OfUserWeek(key.user, key.day)).Tokens() >= limits.userWeeklyTokens.value
    then Some(UserWeeklyTokens)
    else None
  }

  function Reserving(
      rows: seq<UsageRow>, key: UsageKey, limits: DailyLimits, reserved: TokenCounts): (CallReservation, seq<UsageRow>)
  {
    var added := WithCall(rows, key, reserved);
    var callsToday := Total(added, OfUserDay(key.user, key.day)).calls;
    var denied := OverLimit(added, key, limits);
    if denied.Some? then (CallReservation(denied, callsToday - 1), rows)
    else (CallReservation(None, callsToday), added)
  }

  function Releasing(rows: seq<UsageRow>, key: UsageKey, reserved: TokenCounts): seq<UsageRow>
  {
    match FindRow(rows, key)
    case None => rows
    case Some(i) =>
      var c := rows[i].count;
      rows[i := UsageRow(key, Count(
        AtLeastZero(c.calls - 1), AtLeastZero(c.input - reserved.input), AtLeastZero(c.output - reserved.output)))]
  }

  function Settling(rows: seq<UsageRow>, key: UsageKey, reserved: TokenCounts, actual: TokenCounts): seq<UsageRow>
  {
    match FindRow(rows, key)
    case None => rows
    case Some(i) =>
      var c := rows[i].count;
      rows[i := UsageRow(key, Count(
        c.calls,
        AtLeastZero(c.input + actual.input - reserved.input),
        AtLeastZero(c.output + actual.output - reserved.output)))]
  }

  // ---- The store ----

  class UsageStore {
    var rows: seq<UsageRow>

    constructor ()
      ensures rows == []
    {
      rows := [];
    }

    /** The limits are held against a table that has the call in it. */
    method ReserveCall(key: UsageKey, limits: DailyLimits, reserved: TokenCounts) returns (result: CallReservation)
      modifies this
      ensures (result, rows) == Reserving(old(rows), key, limits, reserved)
    {
      var before := rows;
      var found := FindRow(rows, key);
      if found.Some? {
        var row := rows[found.value];
        rows := rows[found.value := UsageRow(key, row.count.Plus(Count(1, reserved.input, reserved.output)))];
      } else {
        rows := rows + [UsageRow(key, Count(1, reserved.input, reserved.output))];
      }
      var today := Total(rows, OfDay(key.day));
      var userToday := Total(rows, OfUserDay(key.user, key.day));
      var denied := None;
      if today.Tokens() >= limits.globalTokens {
        denied := Some(GlobalTokens);
      } else if userToday.calls > limits.userCalls {
        denied := Some(UserCalls);
      } else if userToday.Tokens() >= limits.userTokens {
        denied := Some(UserTokens);
      } else if limits.userWeeklyTokens.Some? {
        var week := Total(rows, OfUserWeek(key.user, key.day));
        if week.Tokens() >= limits.userWeeklyTokens.value {
          denied := Some(UserWeeklyTokens);
        }
      }
      if denied.Some? {
        rows := before;
        return CallReservation(denied, userToday.calls - 1);
      }
      result := CallReservation(None, userToday.calls);
    }

    /** The row no longer knows of the call. */
    method ReleaseCall(key: UsageKey, reserved: TokenCounts)
      modifies this
      ensures rows == Releasing(old(rows), key, reserved)
    {
      var found := FindRow(rows, key);
      if found.Some? {
        var c := rows[found.value].count;
        var calls := AtLeastZero(c.calls - 1);
        var input := AtLeastZero(c.input - reserved.input);
        var output := AtLeastZero(c.output - reserved.output);
        rows := rows[found.value := UsageRow(key, Count(calls, input, output))];
      }
    }

    /** The call stays counted, at another price. */
    method SettleTokens(key: UsageKey, reserved: TokenCounts, actual: TokenCounts)
      modifies this
      ensures rows == Settling(old(rows), key, reserved, actual)
    {
      var found := FindRow(rows, key);
      if found.Some? {
        var c := rows[found.value].count;
        var input := AtLeastZero(c.input + actual.input - reserved.input);
        var output := AtLeastZero(c.output + actual.output - reserved.output);
        rows := rows[found.value := UsageRow(key, Count(c.calls, input, output))];
      }
    }
  }
}
