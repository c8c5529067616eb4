/** The hourly limits of the page builder and the chatbot: one row for each user, counting the
    calls of a window that starts with its first call. */
module RateLimit {
  import opened Text

  const HOUR := 3600

  datatype Window = Window(start: int, count: nat)

  /** The row is new, or its window is over, or it has room. */
  function Consuming(rows: map<string, Window>, user: string, limit: int, now: int): (bool, map<string, Window>)
  {
    if user !in rows || rows[user].start < now - HOUR then (true, rows[user := Window(now, 1)])
    else if rows[user].count < limit then (true, rows[user := Window(rows[user].start, rows[user].count + 1)])
    else (false, rows)
  }

  class LimitStore {
    var rows: map<string, Window>

    constructor ()
      ensures rows == map[]
    {
      rows := map[];
    }

    method TryConsume(user: string, limit: int, now: int) returns (granted: bool)
      modifies this
      ensures (granted, rows) == Consuming(old(rows), user, limit, now)
    {
      if user !in rows {
        rows := rows[user := Window(now, 1)];
        return true;
      }
      var reset := rows[user].start < now - HOUR;
      granted := reset || rows[user].count < limit;
      if granted {
        var row := rows[user];
        rows := rows[user := Window(if reset then now else row.start, if reset then 1 else row.count + 1)];
      }
    }
  }

  // ---- Over a run ----

  datatype Call = Call(user: string, limit: int, at: int)

  function Run(run: seq<Call>): map<string, Window>
  {
    if run == [] then map[]
    else
      var call := run[|run| - 1];
      Consuming(Run(run[..|run| - 1]), call.user, call.limit, call.at).1
  }

  /** After `run`, the call is one of the user's from `first` to `last` and is let through. */
  predicate IsGranted(run: seq<Call>, call: Call, user: string, first: int, last: int)
  {
    call.user == user && first <= call.at <= last && Consuming(Run(run), user, call.limit, call.at).0
  }

  /** How many of the user's calls from `first` to `last` were let through. */
  function Granted(run: seq<Call>, user: string, first: int, last: int): nat
  {
    if run == [] then 0
    else
      var front, call := run[..|run| - 1], run[|run| - 1];
      Granted(front, user, first, last) + if IsGranted(front, call, user, first, last) then 1 else 0
  }

  ghost predicate InTimeOrder(run: seq<Call>)
  {
    forall i, j | 0 <= i < j < |run| :: run[i].at <= run[j].at
  }

  /** The largest limit asked for, and at least 1: a window's first call is always let through. */
  ghost predicate LimitsAre(run: seq<Call>, user: string, most: nat)
  {
    1 <= most && forall i | 0 <= i < |run| :: run[i].user == user ==> run[i].limit <= most
  }

  lemma {:induction false} NoneAfter(run: seq<Call>, user: string, first: int, last: int)
    requires forall i | 0 <= i < |run| :: run[i].at < first
    ensures Granted(run, user, first, last) == 0
  {
    if run != [] {
      NoneAfter(run[..|run| - 1], user, first, last);
    }
  }

  /** What the row knows: nothing was let through before there was a row; after the window's
      start, at most what it counts but for its first call; and from the hour before its start
      on, at most one more window but for that one's first call. */
  ghost predicate RowCounts(run: seq<Call>, user: string, most: nat)
  {
    var rows := Run(run);
    && (user !in rows ==> forall first, last :: Granted(run, user, first, last) == 0)
    && (user in rows ==>
          var w := rows[user];
          && 1 <= w.count <= most
          && run != [] && w.start <= run[|run| - 1].at
          && (forall first, last | w.start < first :: Granted(run, user, first, last) <= w.count - 1)
          && (forall first, last | w.start - HOUR <= first :: Granted(run, user, first, last) <= most - 1 + w.count)
          && (forall first, last | last <= first + HOUR :: Granted(run, user, first, last) <= 2 * most - 1))
  }

  lemma {:induction false} OneMoreCall(run: seq<Call>, call: Call, user: string, first: int, last: int)
    ensures Granted(run + [call], user, first, last) ==
            Granted(run, user, first, last) + if IsGranted(run, call, user, first, last) then 1 else 0
    ensures Run(run + [call]) == Consuming(Run(run), call.user, call.limit, call.at).1
  {
    assert (run + [call])[..|run|] == run;
  }

  lemma {:induction false} CallKeepsCounts(run: seq<Call>, call: Call, user: string, most: nat)
    requires RowCounts(run, user, most) && InTimeOrder(run + [call]) && LimitsAre(run + [call], user, most)
    ensures RowCounts(run + [call], user, most)
  {
    var all := run + [call];
    assert all[|run|] == call;
    assert run != [] ==> all[|run| - 1] == run[|run| - 1];
    hide Granted, Run;
    var rows, later := Run(run), Run(all);
    forall first, last
      ensures user !in later ==> Granted(all, user, first, last) == 0
      ensures user in later && later[user].start < first ==> Granted(all, user, first, last) <= later[user].count - 1
      ensures user in later && later[user].start - HOUR <= first ==>
                Granted(all, user, first, last) <= most - 1 + later[user].count
      ensures user in later && last <= first + HOUR ==> Granted(all, user, first, last) <= 2 * most - 1
    {
      OneMoreCall(run, call, user, first, last);
      var was := Granted(run, user, first, last);
      if user in rows {
        var w := rows[user];
        assert w.start < first ==> was <= w.count - 1;
        assert w.start - HOUR <= first ==> was <= most - 1 + w.count;
        assert last <= first + HOUR ==> was <= 2 * most - 1;
        if w.start < call.at - HOUR && call.user == user && call.at < first {
          LateIsNone(run, call, user, first, last);
        }
      } else {
        assert was == 0;
      }
    }
    OneMoreCall(run, call, user, 0, 0);
  }

  lemma {:induction false} LateIsNone(run: seq<Call>, call: Call, user: string, first: int, last: int)
    requires InTimeOrder(run + [call]) && call.at < first
    ensures Granted(run, user, first, last) == 0
  {
    assert (run + [call])[|run|] == call;
    assert forall i | 0 <= i < |run| :: run[i] == (run + [call])[i];
    NoneAfter(run, user, first, last);
  }

  lemma {:induction false} RunKeepsCounts(run: seq<Call>, user: string, most: nat)
    requires InTimeOrder(run) && LimitsAre(run, user, most)
    ensures RowCounts(run, user, most)
  {
    if run != [] {
      var front, call := run[..|run| - 1], run[|run| - 1];
      assert run == front + [call];
      RunKeepsCounts(front, user, most);
      hide RowCounts;
      CallKeepsCounts(front, call, user, most);
    }
  }

  /** No hour, wherever it starts, lets through as many calls as two windows: it can not hold the
      first call of both. */
  lemma {:induction false} HourIsBounded(run: seq<Call>, user: string, most: nat, first: int)
    requires InTimeOrder(run) && LimitsAre(run, user, most)
    ensures Granted(run, user, first, first + HOUR) <= 2 * most - 1
  {
    RunKeepsCounts(run, user, most);
  }

  // ---- Call by call ----

  /** Where the user's current window was opened: by the first call let through, or by the last one
      let through more than an hour after the opening before. */
  function OpenedAt(run: seq<Call>, user: string): Option<nat>
  {
    if run == [] then None
    else
      var n := |run| - 1;
      var before := OpenedAt(run[..n], user);
      if !IsLetThrough(run, n, user) then before
      else if before.Some? && before.value < n && run[n].at <= run[before.value].at + HOUR then before
      else Some(n)
  }

  predicate IsLetThrough(run: seq<Call>, k: nat, user: string)
  {
    k < |run| && run[k].user == user && Consuming(Run(run[..k]), user, run[k].limit, run[k].at).0
  }

  /** The user's calls let through from place `k` on. */
  function LetThroughFrom(run: seq<Call>, k: nat, user: string): nat
  {
    if |run| <= k then 0
    else LetThroughFrom(run[..|run| - 1], k, user) + if IsLetThrough(run, |run| - 1, user) then 1 else 0
  }

  /** The row has the time of the opening, and the number of calls let through since. */
  ghost predicate RowIsWindow(run: seq<Call>, user: string)
  {
    match OpenedAt(run, user)
    case None => user !in Run(run)
    case Some(k) =>
      && k < |run| && user in Run(run)
      && Run(run)[user] == Window(run[k].at, LetThroughFrom(run, k, user))
  }

  lemma {:induction false} RowsAreWindows(run: seq<Call>, user: string)
    ensures RowIsWindow(run, user)
  {
    if run != [] {
      var n := |run| - 1;
      RowsAreWindows(run[..n], user);
      assert Run(run) == Consuming(Run(run[..n]), run[n].user, run[n].limit, run[n].at).1;
      assert LetThroughFrom(run[..n], n, user) == 0;
      hide Run;
    }
  }

  /** Over every run, a call is let through exactly when its user has none open window, or one that
      opened more than an hour ago, or one that let fewer calls through than the limit. */
  lemma {:induction false} CallIsLetThroughExactly(run: seq<Call>, k: nat, user: string)
    requires k < |run| && run[k].user == user
    ensures
      IsLetThrough(run, k, user) <==>
      match OpenedAt(run[..k], user)
      case None => true
      case Some(first) =>
        first < k && (run[k].at > run[first].at + HOUR || LetThroughFrom(run[..k], first, user) < run[k].limit)
  {
    RowsAreWindows(run[..k], user);
    hide Run, OpenedAt, LetThroughFrom;
  }

  // ---- The bound is reached ----

  /** One call opens a window, `late` more come at its very end, and `again` as the next opens. */
  function Burst(user: string, limit: int, late: nat, again: nat): seq<Call>
  {
    if again > 0 then Burst(user, limit, late, again - 1) + [Call(user, limit, HOUR + 1)]
    else if late > 0 then Burst(user, limit, late - 1, 0) + [Call(user, limit, HOUR)]
    else [Call(user, limit, 0)]
  }

  lemma {:induction false} OrderGoesOn(front: seq<Call>, call: Call, user: string, most: nat)
    requires InTimeOrder(front) && LimitsAre(front, user, most)
    requires call.limit <= most && forall i | 0 <= i < |front| :: front[i].at <= call.at
    ensures InTimeOrder(front + [call]) && LimitsAre(front + [call], user, most)
    ensures forall i | 0 <= i <= |front| :: (front + [call])[i].at <= call.at
  {
  }

  lemma {:induction false} BurstInOrder(user: string, limit: int, late: nat, again: nat)
    requires limit >= 1
    ensures
      var run := Burst(user, limit, late, again);
      && InTimeOrder(run) && LimitsAre(run, user, limit)
      && forall i | 0 <= i < |run| :: run[i].at <= if again > 0 then HOUR + 1 else if late > 0 then HOUR else 0
  {
    hide InTimeOrder, LimitsAre;
    if again > 0 {
      BurstInOrder(user, limit, late, again - 1);
      OrderGoesOn(Burst(user, limit, late, again - 1), Call(user, limit, HOUR + 1), user, limit);
    } else if late > 0 {
      BurstInOrder(user, limit, late - 1, 0);
      OrderGoesOn(Burst(user, limit, late - 1, 0), Call(user, limit, HOUR), user, limit);
    } else {
      OneInOrder(Call(user, limit, 0), limit);
    }
  }

  lemma {:induction false} OneInOrder(call: Call, most: nat)
    requires 1 <= most && call.limit <= most
    ensures InTimeOrder([call]) && LimitsAre([call], call.user, most)
  {
  }

  /** The row when the burst has come this far. */
  function BurstRow(late: nat, again: nat): Window
  {
    if again > 0 then Window(HOUR + 1, again) else Window(0, late + 1)
  }

  lemma {:induction false} BurstGoesOn(front: seq<Call>, call: Call, row: Window, later: Window)
    requires Run(front) == map[call.user := row]
    requires if row.start < call.at - HOUR then later == Window(call.at, 1)
             else row.count < call.limit && later == Window(row.start, row.count + 1)
    ensures Run(front + [call]) == map[call.user := later]
    ensures Granted(front + [call], call.user, 1, HOUR + 1) ==
            Granted(front, call.user, 1, HOUR + 1) + if 1 <= call.at <= HOUR + 1 then 1 else 0
  {
    hide Run, Granted;
    OneMoreCall(front, call, call.user, 1, HOUR + 1);
    assert map[call.user := row][call.user := later] == map[call.user := later];
  }

  lemma {:induction false} BurstIsGranted(user: string, limit: int, late: nat, again: nat)
    requires late < limit && again <= limit
    ensures Run(Burst(user, limit, late, again)) == map[user := BurstRow(late, again)]
    ensures Granted(Burst(user, limit, late, again), user, 1, HOUR + 1) == late + again
  {
    hide Run, Granted;
    if again > 0 {
      BurstIsGranted(user, limit, late, again - 1);
      var front, call := Burst(user, limit, late, again - 1), Call(user, limit, HOUR + 1);
      BurstGoesOn(front, call, BurstRow(late, again - 1), BurstRow(late, again));
    } else if late > 0 {
      BurstIsGranted(user, limit, late - 1, 0);
      var front, call := Burst(user, limit, late - 1, 0), Call(user, limit, HOUR);
      BurstGoesOn(front, call, BurstRow(late - 1, 0), BurstRow(late, 0));
    } else {
      NothingRuns(user);
      OneMoreCall([], Call(user, limit, 0), user, 1, HOUR + 1);
      assert Burst(user, limit, late, again) == [] + [Call(user, limit, 0)];
    }
  }

  lemma {:induction false} NothingRuns(user: string)
    ensures Run([]) == map[] && Granted([], user, 1, HOUR + 1) == 0
  {
  }

  /** For every limit there is an hour that lets through twice the limit but one. */
  lemma {:induction false} HourIsReached(user: string, limit: nat)
    requires 1 <= limit
    ensures
      var run := Burst(user, limit, limit - 1, limit);
      && InTimeOrder(run) && LimitsAre(run, user, limit)
      && Granted(run, user, 1, 1 + HOUR) == 2 * limit - 1
  {
    hide InTimeOrder, LimitsAre, Granted, Burst;
    BurstInOrder(user, limit, limit - 1, limit);
    BurstIsGranted(user, limit, limit - 1, limit);
  }

  /** Whatever the limit, 0 and less included, the first call of a user is let through. */
  lemma {:induction false} FirstCallIsFree(user: string, limit: int, at: int)
    ensures Granted([Call(user, limit, at)], user, at, at + HOUR) == 1
  {
    var run := [Call(user, limit, at)];
    assert run[..0] == [];
  }

  /** Every call of the user is held to this limit. */
  ghost predicate LimitIs(run: seq<Call>, user: string, limit: int)
  {
    forall i | 0 <= i < |run| :: run[i].user == user ==> run[i].limit == limit
  }

  lemma {:induction false} BurstLimit(user: string, limit: int, late: nat, again: nat)
    ensures LimitIs(Burst(user, limit, late, again), user, limit)
  {
    if again > 0 {
      BurstLimit(user, limit, late, again - 1);
    } else if late > 0 {
      BurstLimit(user, limit, late - 1, 0);
    }
  }

  /** No hour lets through more of the user's calls than the limit. */
  ghost predicate HoursKeepTo(run: seq<Call>, user: string, limit: int)
  {
    forall first, last | last == first + HOUR :: Granted(run, user, first, last) <= limit
  }

  /** Every hour of every run keeps to the limit if and only if the limit is 1. */
  lemma {:induction false} HourKeepsLimitExactly(user: string, limit: int)
    ensures
      (forall run | InTimeOrder(run) && LimitIs(run, user, limit) :: HoursKeepTo(run, user, limit)) <==> limit == 1
  {
    hide Granted, Burst;
    if limit == 1 {
      forall run | InTimeOrder(run) && LimitIs(run, user, limit)
        ensures HoursKeepTo(run, user, limit)
      {
        forall first, last | last == first + HOUR
          ensures Granted(run, user, first, last) <= limit
        {
          HourIsBounded(run, user, 1, first);
        }
      }
    } else if limit < 1 {
      FirstCallIsFree(user, limit, 0);
      var run := [Call(user, limit, 0)];
      assert Granted(run, user, 0, 0 + HOUR) > limit;
      assert InTimeOrder(run) && LimitIs(run, user, limit) && !HoursKeepTo(run, user, limit);
    } else {
      HourIsReached(user, limit);
      BurstLimit(user, limit, limit - 1, limit);
      var run := Burst(user, limit, limit - 1, limit);
      assert Granted(run, user, 1, 1 + HOUR) > limit;
      assert InTimeOrder(run) && LimitIs(run, user, limit) && !HoursKeepTo(run, user, limit);
    }
  }
}
