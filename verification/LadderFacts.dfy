/** The ladder of attempts, rung by rung: which turns, which rounds and which limits each one has. */
module LadderFacts {
  import opened Text
  import opened Conversation
  import opened Turns
  import opened Render
  import opened Optimizer

  function AssistantCount(messages: seq<Message>): nat
  {
    if messages == [] then 0
    else AssistantCount(messages[..|messages| - 1]) + if messages[|messages| - 1].role == Assistant then 1 else 0
  }

  /** An assistant message with `n` others before it. */
  predicate IsAssistantAt(turn: Turn, i: nat, n: nat)
  {
    i < |turn| && turn[i].role == Assistant && AssistantCount(turn[..i]) == n
  }

  /** The turn without its `gone` oldest assistant messages and all that follows each of them. */
  ghost predicate IsWithoutRounds(turn: Turn, shorter: Turn, gone: nat)
  {
    if gone == 0 then shorter == turn
    else exists i: nat, j: nat :: IsCut(turn, shorter, i, j, gone)
  }

  /** From the first assistant message up to the one with `gone` before it. */
  predicate IsCut(turn: Turn, shorter: Turn, i: nat, j: nat, gone: nat)
  {
    IsAssistantAt(turn, i, 0) && IsAssistantAt(turn, j, gone) && i < j && shorter == turn[..i] + turn[j..]
  }

  lemma {:induction false} CountConcat(a: seq<Message>, b: seq<Message>)
    ensures AssistantCount(a + b) == AssistantCount(a) + AssistantCount(b)
  {
    if b == [] {
      assert a + b == a;
    } else {
      CountConcat(a, b[..|b| - 1]);
      assert (a + b)[..|a + b| - 1] == a + b[..|b| - 1];
    }
  }

  lemma {:induction false} NoAssistants(messages: seq<Message>)
    requires forall k | 0 <= k < |messages| :: messages[k].role != Assistant
    ensures AssistantCount(messages) == 0
  {
    if messages != [] {
      NoAssistants(messages[..|messages| - 1]);
    }
  }

  lemma {:induction false} CountNext(turn: Turn, i: nat, j: nat)
    requires i < j <= |turn| && forall k | i < k < j :: turn[k].role != Assistant
    ensures AssistantCount(turn[..j]) == AssistantCount(turn[..i]) + if turn[i].role == Assistant then 1 else 0
  {
    assert turn[..i + 1][..i] == turn[..i];
    NoAssistants(turn[i + 1..j]);
    assert turn[..j] == turn[..i + 1] + turn[i + 1..j];
    CountConcat(turn[..i + 1], turn[i + 1..j]);
  }

  /** What is cut from a turn is no longer counted. */
  lemma {:induction false} CountCut(turn: Turn, i: nat, j: nat, k: nat)
    requires i <= j <= k <= |turn|
    ensures
      AssistantCount(turn[..i] + turn[j..k]) ==
      AssistantCount(turn[..i]) + AssistantCount(turn[..k]) - AssistantCount(turn[..j])
  {
    assert turn[..k] == turn[..j] + turn[j..k];
    CountConcat(turn[..j], turn[j..k]);
    CountConcat(turn[..i], turn[j..k]);
  }

  /** Giving up a round takes one assistant message, the oldest, as long as there are two. */
  lemma {:induction false} OneRoundLess(turn: Turn)
    ensures WithoutOldestRound(turn).None? <==> AssistantCount(turn) <= 1
    ensures WithoutOldestRound(turn).Some? ==>
              && AssistantCount(WithoutOldestRound(turn).value) == AssistantCount(turn) - 1
              && IsWithoutRounds(turn, WithoutOldestRound(turn).value, 1)
  {
    hide AssistantCount;
    var n := |turn|;
    assert turn[..n] == turn;
    var i := NextAssistant(turn, 0);
    NoAssistants(turn[..i]);
    if i < n {
      var j := NextAssistant(turn, i + 1);
      CountNext(turn, i, j);
      if j < n {
        assert turn[j..n] == turn[j..];
        CountCut(turn, i, j, n);
        assert IsCut(turn, turn[..i] + turn[j..], i, j, 1);
        CountAtLeast(turn, j);
      }
    }
  }

  lemma {:induction false} CountAtLeast(turn: Turn, j: nat)
    requires j < |turn| && turn[j].role == Assistant
    ensures AssistantCount(turn) >= AssistantCount(turn[..j]) + 1
  {
    assert turn == turn[..j] + [turn[j]] + turn[j + 1..];
    CountConcat(turn[..j] + [turn[j]], turn[j + 1..]);
    CountConcat(turn[..j], [turn[j]]);
    assert [turn[j]][..0] == [];
  }

  lemma {:induction false} FirstIsOne(turn: Turn, i: nat, j: nat)
    requires IsAssistantAt(turn, i, 0) && IsAssistantAt(turn, j, 0)
    ensures i == j
  {
    hide AssistantCount;
    if i < j {
      CountAtLeast(turn[..j], i);
    } else if j < i {
      CountAtLeast(turn[..i], j);
    }
  }

  lemma {:induction false} SlicesOfCut(turn: Turn, i: nat, j: nat, b: nat)
    requires i <= j <= |turn| && i <= b <= i + |turn| - j
    ensures
      var shorter, k := turn[..i] + turn[j..], j + (b - i);
      shorter[..i] == turn[..i] && shorter[..b] == turn[..i] + turn[j..k] && shorter[b..] == turn[k..]
  {
  }

  lemma {:induction false} CutMore(turn: Turn, shorter: Turn, shortest: Turn, i: nat, j: nat, b: nat, gone: nat)
    requires IsCut(turn, shorter, i, j, 1) && IsCut(shorter, shortest, i, b, gone)
    ensures IsCut(turn, shortest, i, j + (b - i), gone + 1)
  {
    hide AssistantCount;
    SlicesOfCut(turn, i, j, b);
    CountCut(turn, i, j, j + (b - i));
    assert shorter[b..][0] == shorter[b];
  }

  /** Going on giving up rounds. */
  lemma {:induction false} MoreRoundsLess(turn: Turn, shorter: Turn, shortest: Turn, gone: nat)
    requires IsWithoutRounds(turn, shorter, 1) && IsWithoutRounds(shorter, shortest, gone)
    ensures IsWithoutRounds(turn, shortest, gone + 1)
  {
    if gone > 0 {
      var i: nat, j: nat :| IsCut(turn, shorter, i, j, 1);
      var a: nat, b: nat :| IsCut(shorter, shortest, a, b, gone);
      hide AssistantCount;
      SlicesOfCut(turn, i, j, i);
      FirstIsOne(shorter, a, i);
      hide IsCut;
      CutMore(turn, shorter, shortest, i, j, b, gone);
    }
  }

  /** The attempts that give up rounds, in order: each one round less with the third limits, until
      one round is left, and then the smallest limits. */
  lemma {:induction false} RoundAttemptAt(turn: Turn, dropped: nat, i: nat)
    requires i < |RoundAttempts(turn, dropped)|
    ensures |RoundAttempts(turn, dropped)| == if AssistantCount(turn) <= 1 then 1 else AssistantCount(turn)
    ensures
      var a, isLast := RoundAttempts(turn, dropped)[i], i == |RoundAttempts(turn, dropped)| - 1;
      var gone := if isLast then i else i + 1;
      && |a.turns| == 1 && IsWithoutRounds(turn, a.turns[0], gone) && a.dropped == dropped + gone
      && a.limits == if isLast then Limits(200, 200, 4000, 0, 500) else Limits(200, 400, 8000, 0, 1000)
    decreases |turn|
  {
    OneRoundLess(turn);
    hide AssistantCount, IsWithoutRounds;
    match WithoutOldestRound(turn)
    case None =>
      NoneGone(turn);
    case Some(shorter) =>
      var rest := RoundAttempts(shorter, dropped + 1);
      if i == 0 {
        RoundAttemptAt(shorter, dropped + 1, 0);
      } else {
        RoundAttemptAt(shorter, dropped + 1, i - 1);
        MoreRoundsLess(turn, shorter, rest[i - 1].turns[0], if i - 1 == |rest| - 1 then i - 1 else i);
      }
  }

  lemma {:induction false} NoneGone(turn: Turn)
    ensures IsWithoutRounds(turn, turn, 0)
  {
  }

  /** Every attempt by its place. First fewer and fewer old turns around the whole current one,
      from the longest run of turns within ten messages on; then the current turn alone with smaller
      limits, twice; and then with a round less each time. Each notes how many turns and rounds
      are left out. */
  lemma {:induction false} AttemptIs(turns: seq<Turn>, first: nat, i: nat)
    requires turns != [] && IsFirstKept(turns, first) && i < |Attempts(turns)|
    ensures
      var all, current, n := Attempts(turns), turns[|turns| - 1], |turns| - first;
      var rounds := if AssistantCount(current) <= 1 then 1 else AssistantCount(current);
      var gone := if i == |all| - 1 then i - n - 2 else i - n - 1;
      && |all| == n + 2 + rounds
      && if i < n then all[i] == Attempt(turns[first + i..], Limits(400, 4000, 16000, 12000, 2000), first + i)
         else if i == n then all[i] == Attempt([current], Limits(200, 1000, 16000, 6000, 1500), |turns| - 1)
         else if i == n + 1 then all[i] == Attempt([current], Limits(200, 400, 8000, 0, 1000), |turns| - 1)
         else
           && gone >= 0 && |all[i].turns| == 1 && IsWithoutRounds(current, all[i].turns[0], gone)
           && all[i].dropped == |turns| - 1 + gone
           && all[i].limits ==
              if i == |all| - 1 then Limits(200, 200, 4000, 0, 500) else Limits(200, 400, 8000, 0, 1000)
  {
    hide IsFirstKept, FirstKept, AssistantCount, IsWithoutRounds, HistoryAttempts, RoundAttempts, Attempts;
    FirstKeptHolds(turns);
    FirstKeptIsUnique(turns, first, FirstKept(turns));
    AttemptsLayout(turns);
    var all, current, n := Attempts(turns), turns[|turns| - 1], |turns| - first;
    assert all[n + 2..] == RoundAttempts(current, |turns| - 1);
    RoundAttemptAt(current, |turns| - 1, if i >= n + 2 then i - n - 2 else 0);
    if i < n {
      HistoryAttemptAt(turns, first, i);
      assert all[..n][i] == all[i];
    } else if i >= n + 2 {
      assert all[n + 2..][i - n - 2] == all[i];
    }
  }

  lemma {:induction false} FirstKeptHolds(turns: seq<Turn>)
    requires turns != []
    ensures IsFirstKept(turns, FirstKept(turns)) && FirstKept(turns) < |turns|
  {
  }
}
