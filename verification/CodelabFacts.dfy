/** What a learner's numbers mean: over every run of submissions, lessons and awards they are
    what the whole history says. */
module CodelabFacts {
  import opened Text
  import opened Codelab

  datatype Step =
    | Submit(at: Attempt, score: int, isSolve: bool, xpForSolve: int, today: int)
    | Touch(user: string, today: int)
    | Award(user: string, amount: int)

  function Do(b: Board, step: Step): Board
  {
    match step
    case Submit(at, score, isSolve, xp, today) => Submitting(b, at, score, isSolve, xp, today).1
    case Touch(user, today) => Touching(b, user, today)
    case Award(user, amount) => AddingXp(b, user, amount)
  }

  function Run(run: seq<Step>): Board
  {
    if run == [] then Board(map[], map[]) else Do(Run(run[..|run| - 1]), run[|run| - 1])
  }

  // ---- What the history says ----

  predicate Submits(step: Step, at: Attempt)
  {
    step.Submit? && step.at == at
  }

  /** Some submission of the problem solved it. */
  function HasSolved(run: seq<Step>, at: Attempt): bool
  {
    run != [] && (HasSolved(run[..|run| - 1], at) || (Submits(run[|run| - 1], at) && run[|run| - 1].isSolve))
  }

  function Attempts(run: seq<Step>, at: Attempt): nat
  {
    if run == [] then 0 else Attempts(run[..|run| - 1], at) + if Submits(run[|run| - 1], at) then 1 else 0
  }

  /** The best score of all submissions, with each counted as 0 at least and 100 at most. */
  function BestScore(run: seq<Step>, at: Attempt): (best: nat)
    ensures best <= 100
  {
    if run == [] then 0
    else
      var before, step := BestScore(run[..|run| - 1], at), run[|run| - 1];
      if !Submits(step, at) || step.score <= before then before else if step.score >= 100 then 100 else step.score
  }

  function SolvedProblems(run: seq<Step>, user: string): set<string>
  {
    if run == [] then {}
    else
      var step := run[|run| - 1];
      SolvedProblems(run[..|run| - 1], user) +
      if step.Submit? && step.at.user == user && step.isSolve then {step.at.problem} else {}
  }

  /** Points for lessons and quizzes, and for the first solve of each problem. */
  function XpEarned(run: seq<Step>, user: string): nat
  {
    if run == [] then 0
    else
      var front, step := run[..|run| - 1], run[|run| - 1];
      XpEarned(front, user) +
      match step
      case Award(to, amount) => if to == user && amount > 0 then amount else 0
      case Submit(at, _, isSolve, xp, _) =>
        if at.user == user && isSolve && !HasSolved(front, at) && xp > 0 then xp else 0
      case Touch(_, _) => 0
  }

  /** What a submission is answered after this history. */
  function ResultOf(run: seq<Step>, step: Step): SubmissionResult
    requires step.Submit?
  {
    Submitting(Run(run), step.at, step.score, step.isSolve, step.xpForSolve, step.today).0
  }

  /** How often the problem was reported as newly solved, which is when it pays. */
  function TimesPaid(run: seq<Step>, at: Attempt): nat
  {
    if run == [] then 0
    else
      var front, step := run[..|run| - 1], run[|run| - 1];
      TimesPaid(front, at) + if Submits(step, at) && ResultOf(front, step).newlySolved then 1 else 0
  }

  lemma {:induction false} SolvedIsSolved(run: seq<Step>, at: Attempt)
    ensures HasSolved(run, at) <==> at.problem in SolvedProblems(run, at.user)
  {
    if run != [] {
      SolvedIsSolved(run[..|run| - 1], at);
    }
  }

  /** Progress on a problem: how often it was tried, its best score, and whether it was ever solved. */
  lemma {:induction false} ProgressIsHistory(run: seq<Step>, at: Attempt)
    ensures
      var p := ProgressOf(Run(run), at);
      && p.attempts == Attempts(run, at)
      && p.bestScore == BestScore(run, at)
      && (p.status == Solved <==> HasSolved(run, at))
      && (p.status == NotStarted <==> Attempts(run, at) == 0)
  {
    if run != [] {
      ProgressIsHistory(run[..|run| - 1], at);
      hide Rolled;
    }
  }

  /** What a step adds to a learner's solved problems and points, by the history before it. */
  lemma {:induction false} StepAddsUp(b: Board, step: Step, user: string)
    ensures
      var s, t := StatsOf(b, user), StatsOf(Do(b, step), user);
      var solves := step.Submit? && step.at.user == user && NewlySolved(b, step.at, step.isSolve);
      && t.solvedCount == s.solvedCount + (if solves then 1 else 0)
      && t.xp == s.xp + (if solves then AtLeastZero(step.xpForSolve)
                         else if step.Award? && step.user == user then AtLeastZero(step.amount) else 0)
  {
    hide Score, Rolled, NewlySolved;
    RolledKeepsCounts(StatsOf(b, user));
  }

  /** The solved count is the number of problems the learner solved, points are what was earned,
      and each problem pays once, when it is first solved. */
  lemma {:induction false} StatsAreHistory(run: seq<Step>, user: string)
    ensures
      var s := StatsOf(Run(run), user);
      && s.solvedCount == |SolvedProblems(run, user)|
      && s.xp == XpEarned(run, user)
  {
    if run != [] {
      var front, step := run[..|run| - 1], run[|run| - 1];
      StatsAreHistory(front, user);
      StepAddsUp(Run(front), step, user);
      if step.Submit? && step.at.user == user {
        ProgressIsHistory(front, step.at);
        SolvedIsSolved(front, step.at);
        OneMoreSolved(SolvedProblems(front, user), step.at.problem);
      }
      hide HasSolved, Run, Do, ProgressOf, StatsOf;
      assert SolvedProblems(front, user) + {} == SolvedProblems(front, user);
    }
  }

  lemma {:induction false} OneMoreSolved(solved: set<string>, problem: string)
    ensures |solved + {problem}| == |solved| + if problem in solved then 0 else 1
  {
    assert problem in solved ==> solved + {problem} == solved;
  }

  lemma {:induction false} RolledKeepsCounts(s: Stats)
    ensures forall today :: Rolled(s, today).xp == s.xp && Rolled(s, today).solvedCount == s.solvedCount
  {
  }

  lemma {:induction false} ProblemPaysOnce(run: seq<Step>, at: Attempt)
    ensures TimesPaid(run, at) == if at.problem in SolvedProblems(run, at.user) then 1 else 0
  {
    SolvedIsSolved(run, at);
    if run != [] {
      ProblemPaysOnce(run[..|run| - 1], at);
      SolvedIsSolved(run[..|run| - 1], at);
      ProgressIsHistory(run[..|run| - 1], at);
      hide Run, SolvedProblems;
    }
  }

  /** The answer to a submission is what the history with it says of the problem; it is new when
      nothing before solved the problem, first when nothing before solved any, and awards just the
      points that the learner has more. */
  lemma {:induction false} ResultTellsHistory(run: seq<Step>, step: Step)
    requires step.Submit?
    ensures
      var result, after, at := ResultOf(run, step), run + [step], step.at;
      && result.attempts == Attempts(after, at) && result.bestScore == BestScore(after, at)
      && result.status == (if HasSolved(after, at) then Solved else InProgress)
      && (result.newlySolved <==> step.isSolve && !HasSolved(run, at))
      && (result.firstSolve <==> step.isSolve && SolvedProblems(run, at.user) == {})
      && result.xpAwarded == XpEarned(after, at.user) - XpEarned(run, at.user)
  {
    var after := run + [step];
    assert after[..|run|] == run;
    ProgressIsHistory(run, step.at);
    ProgressIsHistory(after, step.at);
    SolvedIsSolved(run, step.at);
    StatsAreHistory(run, step.at.user);
    RolledKeepsCounts(StatsOf(Run(run), step.at.user));
    hide Rolled, StatsOf, SolvedProblems, Score;
  }

  // ---- Streaks ----

  function ActivityDay(step: Step, user: string): Option<int>
  {
    match step
    case Submit(at, _, _, _, today) => if at.user == user then Some(today) else None
    case Touch(who, today) => if who == user then Some(today) else None
    case Award(_, _) => None
  }

  function ActivityDays(run: seq<Step>, user: string): set<int>
  {
    if run == [] then {}
    else
      var day := ActivityDay(run[|run| - 1], user);
      ActivityDays(run[..|run| - 1], user) + if day.Some? then {day.value} else {}
  }

  ghost predicate InDayOrder(run: seq<Step>, user: string)
  {
    forall i, j | 0 <= i < j < |run| ::
      ActivityDay(run[i], user).Some? && ActivityDay(run[j], user).Some? ==>
        ActivityDay(run[i], user).value <= ActivityDay(run[j], user).value
  }

  /** `length` days in a row, the last of them `last`, all with activity. */
  ghost predicate IsStreak(days: set<int>, last: int, length: nat)
  {
    forall day | last - length < day <= last :: day in days
  }

  /** The current streak is the run of days that ends with the latest activity and cannot be
      made longer; the best streak is a run, and no run is longer. */
  ghost predicate StreaksAre(s: Stats, days: set<int>)
  {
    && (s.lastActivity.None? <==> days == {})
    && (s.lastActivity.None? ==> s.currentStreak == s.bestStreak == 0)
    && (s.lastActivity.Some? ==>
          var last := s.lastActivity.value;
          && last in days && (forall day | day in days :: day <= last)
          && IsStreak(days, last, s.currentStreak) && last - s.currentStreak !in days)
    && (exists last :: IsStreak(days, last, s.bestStreak))
    && (forall last, length: nat | IsStreak(days, last, length) :: length <= s.bestStreak)
  }

  lemma {:induction false} FewerDaysFewerStreaks(days: set<int>, today: int, last: int, length: nat)
    requires IsStreak(days + {today}, last, length) && (length == 0 || !(last - length < today <= last))
    ensures IsStreak(days, last, length)
  {
    forall day | last - length < day <= last
      ensures day in days
    {
      assert day in days + {today};
    }
  }

  lemma {:induction false} RollingKeepsStreaks(s: Stats, days: set<int>, today: int)
    requires StreaksAre(s, days) && forall day | day in days :: day <= today
    ensures StreaksAre(Rolled(s, today), days + {today})
  {
    var all := days + {today};
    var r := Rolled(s, today);
    if today in days {
      assert all == days;
    } else {
      LatestStreak(s, days, today);
      forall last, length: nat | IsStreak(all, last, length)
        ensures length <= r.bestStreak
      {
        if length > 0 && last - length < today <= last {
          assert last in all;
        } else {
          FewerDaysFewerStreaks(days, today, last, length);
        }
      }
      BestExists(s, days, today);
    }
  }

  lemma {:induction false} LatestStreak(s: Stats, days: set<int>, today: int)
    requires StreaksAre(s, days) && today !in days && forall day | day in days :: day <= today
    ensures IsStreak(days + {today}, today, Rolled(s, today).currentStreak)
    ensures today - Rolled(s, today).currentStreak !in days + {today}
    ensures Rolled(s, today).lastActivity == Some(today)
  {
    hide Most;
    if s.lastActivity.Some? {
      assert s.lastActivity.value != today;
    }
  }

  lemma {:induction false} BestExists(s: Stats, days: set<int>, today: int)
    requires StreaksAre(s, days) && today !in days && forall day | day in days :: day <= today
    ensures exists last :: IsStreak(days + {today}, last, Rolled(s, today).bestStreak)
  {
    LatestStreak(s, days, today);
    var last :| IsStreak(days, last, s.bestStreak);
    assert IsStreak(days + {today}, last, s.bestStreak);
  }

  /** On days that never go back, a learner's streaks are the final and the longest run of days
      with activity. */
  lemma {:induction false} StreaksAreHistory(run: seq<Step>, user: string)
    requires InDayOrder(run, user)
    ensures StreaksAre(StatsOf(Run(run), user), ActivityDays(run, user))
  {
    if run == [] {
      NoStreaks();
    } else {
      var front, step := run[..|run| - 1], run[|run| - 1];
      StreaksAreHistory(front, user);
      StepKeepsStreaks(front, step, user);
    }
  }

  lemma {:induction false} NoStreaks()
    ensures StreaksAre(NEW_STATS, {})
  {
    var none: set<int> := {};
    assert IsStreak(none, 0, 0);
    forall last, length: nat | IsStreak(none, last, length)
      ensures length <= 0
    {
      assert length <= 0 || last in none;
    }
  }

  lemma {:induction false} DaysAreActivity(run: seq<Step>, user: string, day: int)
    requires day in ActivityDays(run, user)
    ensures exists i :: 0 <= i < |run| && ActivityDay(run[i], user) == Some(day)
  {
    var n := |run| - 1;
    if ActivityDay(run[n], user) != Some(day) {
      DaysAreActivity(run[..n], user, day);
      var i :| 0 <= i < n && ActivityDay(run[..n][i], user) == Some(day);
      assert ActivityDay(run[i], user) == Some(day);
    }
  }

  lemma {:induction false} StepKeepsStreaks(front: seq<Step>, step: Step, user: string)
    requires InDayOrder(front + [step], user)
    requires StreaksAre(StatsOf(Run(front), user), ActivityDays(front, user))
    ensures StreaksAre(StatsOf(Do(Run(front), step), user), ActivityDays(front + [step], user))
  {
    var b, days := Run(front), ActivityDays(front, user);
    assert (front + [step])[..|front|] == front;
    var day := ActivityDay(step, user);
    hide Run, StreaksAre, Score;
    if day.Some? {
      forall d | d in days
        ensures d <= day.value
      {
        DaysAreActivity(front, user, d);
        var i :| 0 <= i < |front| && ActivityDay(front[i], user) == Some(d);
        assert (front + [step])[i] == front[i] && (front + [step])[|front|] == step;
      }
      RollingKeepsStreaks(StatsOf(b, user), days, day.value);
    } else {
      assert days + {} == days;
    }
    var rolled := if day.Some? then Rolled(StatsOf(b, user), day.value) else StatsOf(b, user);
    SameStreaks(StatsOf(Do(b, step), user), rolled);
  }

  /** Points and solved problems have no part in streaks. */
  lemma {:induction false} SameStreaks(s: Stats, other: Stats)
    requires s == other.(xp := s.xp, solvedCount := s.solvedCount)
    ensures forall days :: StreaksAre(other, days) ==> StreaksAre(s, days)
  {
  }
}
