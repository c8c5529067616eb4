/** CodeLab practice: a learner's progress on each problem, and their experience points, solved
    problems and daily streak. */
module Codelab {
  import opened Text

  datatype Status = NotStarted | InProgress | Solved

  datatype Progress = Progress(status: Status, attempts: nat, bestScore: nat)

  /** `lastActivity` is a day. */
  datatype Stats = Stats(xp: nat, solvedCount: nat, currentStreak: nat, bestStreak: nat, lastActivity: Option<int>)

  datatype Attempt = Attempt(user: string, problem: string)

  datatype Board = Board(progress: map<Attempt, Progress>, stats: map<string, Stats>)

  datatype SubmissionResult = SubmissionResult(
    status: Status, bestScore: nat, attempts: nat, xpAwarded: nat, newlySolved: bool, firstSolve: bool)

  const NEW_PROGRESS := Progress(NotStarted, 0, 0)
  const NEW_STATS := Stats(0, 0, 0, 0, None)

  function AtLeastZero(n: int): nat
  {
    if n < 0 then 0 else n
  }

  function Score(score: int): nat
  {
    if score > 100 then 100 else AtLeastZero(score)
  }

  function Most(a: nat, b: nat): nat
  {
    if a >= b then a else b
  }

  function ProgressOf(b: Board, at: Attempt): Progress
  {
    if at in b.progress then b.progress[at] else NEW_PROGRESS
  }

  function StatsOf(b: Board, user: string): Stats
  {
    if user in b.stats then b.stats[user] else NEW_STATS
  }

  // ---- What each operation does ----

  function Rolled(s: Stats, today: int): Stats
  {
    if s.lastActivity == Some(today) then s
    else
      var streak := if s.lastActivity == Some(today - 1) then s.currentStreak + 1 else 1;
      s.(currentStreak := streak, bestStreak := Most(s.bestStreak, streak), lastActivity := Some(today))
  }

  function NewlySolved(b: Board, at: Attempt, isSolve: bool): bool
  {
    isSolve && ProgressOf(b, at).status != Solved
  }

  function Submitting(
      b: Board, at: Attempt, score: int, isSolve: bool, xpForSolve: int, today: int): (SubmissionResult, Board)
  {
    var was := ProgressOf(b, at);
    var progress := Progress(if isSolve || was.status == Solved then Solved else InProgress,
                             was.attempts + 1, Most(was.bestScore, Score(score)));
    var rolled := Rolled(StatsOf(b, at.user), today);
    var newly := NewlySolved(b, at, isSolve);
    var xp := if newly then AtLeastZero(xpForSolve) else 0;
    var stats := if newly then rolled.(xp := rolled.xp + xp, solvedCount := rolled.solvedCount + 1) else rolled;
    (SubmissionResult(
       progress.status, progress.bestScore, progress.attempts, xp, newly, newly && stats.solvedCount == 1),
     Board(b.progress[at := progress], b.stats[at.user := stats]))
  }

  function Touching(b: Board, user: string, today: int): Board
  {
    b.(stats := b.stats[user := Rolled(StatsOf(b, user), today)])
  }

  function AddingXp(b: Board, user: string, amount: int): Board
  {
    var s := StatsOf(b, user);
    b.(stats := b.stats[user := s.(xp := s.xp + AtLeastZero(amount))])
  }

  // ---- The store ----

  class StatsRow {
    var xp: nat
    var solvedCount: nat
    var currentStreak: nat
    var bestStreak: nat
    var lastActivity: Option<int>

    constructor (s: Stats)
      ensures State() == s
    {
      xp, solvedCount := s.xp, s.solvedCount;
      currentStreak, bestStreak, lastActivity := s.currentStreak, s.bestStreak, s.lastActivity;
    }

    function State(): Stats
      reads this
    {
      Stats(xp, solvedCount, currentStreak, bestStreak, lastActivity)
    }

    /** Counts today's activity, once a day: a day after the last one goes on with the streak. */
    method RollStreak(today: int)
      modifies this
      ensures State() == Rolled(old(State()), today)
    {
      if lastActivity == Some(today) {
        return;
      }
      if lastActivity == Some(today - 1) {
        currentStreak := currentStreak + 1;
      } else {
        currentStreak := 1;
      }
      bestStreak := Most(bestStreak, currentStreak);
      lastActivity := Some(today);
    }

    method AddXp(amount: int)
      modifies this`xp
      ensures State() == old(State()).(xp := old(xp) + AtLeastZero(amount))
    {
      xp := xp + AtLeastZero(amount);
    }
  }

  class CodelabStore {
    var progress: map<Attempt, Progress>
    var stats: map<string, Stats>

    constructor ()
      ensures State() == Board(map[], map[])
    {
      progress, stats := map[], map[];
    }

    function State(): Board
      reads this
    {
      Board(progress, stats)
    }

    /** A whole submission, in one transaction. */
    method ApplySubmission(
        at: Attempt, score: int, isSolve: bool, xpForSolve: int, today: int) returns (result: SubmissionResult)
      modifies this
      ensures (result, State()) == Submitting(old(State()), at, score, isSolve, xpForSolve, today)
    {
      var p := ProgressOf(State(), at);
      var newlySolved := isSolve && p.status != Solved;
      p := p.(attempts := p.attempts + 1, bestScore := Most(p.bestScore, Score(score)));
      if isSolve {
        p := p.(status := Solved);
      } else if p.status != Solved {
        p := p.(status := InProgress);
      }
      var row := new StatsRow(StatsOf(State(), at.user));
      row.RollStreak(today);
      var xpAwarded := 0;
      if newlySolved {
        row.AddXp(xpForSolve);
        row.solvedCount := row.solvedCount + 1;
        xpAwarded := AtLeastZero(xpForSolve);
      }
      progress := progress[at := p];
      stats := stats[at.user := row.State()];
      var firstSolve := newlySolved && row.solvedCount == 1;
      result := SubmissionResult(p.status, p.bestScore, p.attempts, xpAwarded, newlySolved, firstSolve);
    }

    /** Activity other than a problem: a lesson or a quiz. */
    method TouchStreak(user: string, today: int)
      modifies this`stats
      ensures State() == Touching(old(State()), user, today)
    {
      var row := new StatsRow(StatsOf(State(), user));
      row.RollStreak(today);
      stats := stats[user := row.State()];
    }

    method AddXp(user: string, amount: int)
      modifies this`stats
      ensures State() == AddingXp(old(State()), user, amount)
    {
      var row := new StatsRow(StatsOf(State(), user));
      row.AddXp(amount);
      stats := stats[user := row.State()];
    }
  }
}
