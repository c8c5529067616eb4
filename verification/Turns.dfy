/** Turns of a conversation, how many of them are kept, and giving up old tool rounds. */
module Turns {
  import opened Text
  import opened Conversation

  const MAX_HISTORY_MESSAGES := 10

  type Turn = seq<Message>

  function Flatten(turns: seq<Turn>): seq<Message>
  {
    if turns == [] then [] else Flatten(turns[..|turns| - 1]) + turns[|turns| - 1]
  }

  /** A turn is opened by its first message and holds no later user message. */
  ghost predicate IsTurn(turn: Turn)
  {
    && turn != []
    && forall i | 1 <= i < |turn| :: turn[i].role != User
  }

  /** Turns in a row: all but the first are opened by a user message. */
  ghost predicate AreTurns(turns: seq<Turn>)
  {
    && (forall k | 0 <= k < |turns| :: IsTurn(turns[k]))
    && (forall k | 1 <= k < |turns| :: turns[k][0].role == User)
  }

  function WithMessage(turns: seq<Turn>, message: Message): seq<Turn>
  {
    if message.role == User || turns == [] then turns + [[message]]
    else turns[|turns| - 1 := turns[|turns| - 1] + [message]]
  }

  function Split(messages: seq<Message>): seq<Turn>
  {
    if messages == [] then []
    else WithMessage(Split(messages[..|messages| - 1]), messages[|messages| - 1])
  }

  method SplitTurns(messages: seq<Message>) returns (turns: seq<Turn>)
    ensures turns == Split(messages)
  {
    turns := [];
    for n := 0 to |messages|
      invariant turns == Split(messages[..n])
    {
      assert messages[..n + 1][..n] == messages[..n];
      ghost var before := turns;
      var message := messages[n];
      if message.role == User || turns == [] {
        turns := turns + [[]];
      }
      var last := |turns| - 1;
      turns := turns[last := turns[last] + [message]];
      assert turns[last] == if message.role == User || before == [] then [message] else before[last] + [message];
    }
    assert messages[..|messages|] == messages;
  }

  lemma {:induction false} WithMessageAdds(turns: seq<Turn>, m: Message)
    requires AreTurns(turns)
    ensures AreTurns(WithMessage(turns, m))
    ensures Flatten(WithMessage(turns, m)) == Flatten(turns) + [m]
    ensures WithMessage(turns, m) != []
    ensures WithMessage(turns, m)[0][0] == if turns == [] then m else turns[0][0]
  {
    var r := WithMessage(turns, m);
    if m.role == User || turns == [] {
      assert r[..|r| - 1] == turns;
    } else {
      assert r[..|r| - 1] == turns[..|turns| - 1];
      assert r[|r| - 1] == turns[|turns| - 1] + [m];
    }
  }

  /** Splitting loses and moves nothing, and cuts exactly in front of the user messages. */
  lemma {:induction false} SplitIsPartition(messages: seq<Message>)
    ensures AreTurns(Split(messages))
    ensures Flatten(Split(messages)) == messages
    ensures if messages == [] then Split(messages) == []
            else Split(messages) != [] && Split(messages)[0][0] == messages[0]
  {
    if messages != [] {
      var n := |messages| - 1;
      var front := messages[..n];
      SplitIsPartition(front);
      var before := Split(front);
      assert Split(messages) == WithMessage(before, messages[n]);
      hide AreTurns, Flatten, WithMessage, Split;
      WithMessageAdds(before, messages[n]);
      assert messages == front + [messages[n]];
      assert front != [] ==> front[0] == messages[0];
    }
  }

  lemma {:induction false} ShapesConcat(a: seq<Message>, b: seq<Message>)
    ensures Shapes(a + b) == Shapes(a) + Shapes(b)
  {
  }

  lemma {:induction false} LastTurnIsPaired(before: seq<Message>, last: Turn)
    requires Paired(Shapes(before + last)) && last != [] && last[0].role != Tool
    ensures Paired(Shapes(before)) && Paired(Shapes(last))
  {
    hide Paired;
    ShapesConcat(before, last);
    var s := Shapes(before + last);
    assert s[|before|] == ShapeOf(last[0]);
    PairedSplit(s, |before|);
    assert s[..|before|] == Shapes(before) && s[|before|..] == Shapes(last);
  }

  /** A turn of a paired conversation is paired by itself. */
  lemma {:induction false} TurnsArePaired(turns: seq<Turn>)
    requires AreTurns(turns) && Paired(Shapes(Flatten(turns)))
    ensures forall k | 0 <= k < |turns| :: Paired(Shapes(turns[k]))
  {
    if turns != [] {
      var front, last := turns[..|turns| - 1], turns[|turns| - 1];
      hide Paired;
      if front == [] {
        assert Flatten(turns) == last;
      } else {
        LastTurnIsPaired(Flatten(front), last);
        hide Flatten;
        TurnsArePaired(front);
      }
    }
  }

  /** When anyone spoke as the user, the last turn is opened by the user. */
  lemma {:induction false} LastTurnIsUsers(turns: seq<Turn>)
    requires AreTurns(turns) && HasUser(Flatten(turns))
    ensures turns != [] && turns[|turns| - 1][0].role == User
  {
    var i :| 0 <= i < |Flatten(turns)| && Flatten(turns)[i].role == User;
    if |turns| == 1 {
      assert Flatten(turns[..0]) == [];
      assert Flatten(turns) == turns[0];
      assert i == 0;
    }
  }

  // ---- How much history is kept ----

  function Size(turns: seq<Turn>): nat
  {
    if turns == [] then 0 else |turns[0]| + Size(turns[1..])
  }

  method FirstKeptTurn(turns: seq<Turn>) returns (first: nat)
    requires turns != []
    ensures IsFirstKept(turns, first)
  {
    var kept := |turns[|turns| - 1]|;
    first := |turns| - 1;
    assert turns[first..][1..] == [];
    while first > 0 && kept + |turns[first - 1]| <= MAX_HISTORY_MESSAGES
      invariant first < |turns|
      invariant kept == Size(turns[first..])
      invariant first == |turns| - 1 || kept <= MAX_HISTORY_MESSAGES
    {
      first := first - 1;
      assert turns[first..][1..] == turns[first + 1..];
      kept := kept + |turns[first]|;
    }
    if first > 0 {
      assert turns[first - 1..][1..] == turns[first..];
      forall f | 0 <= f < first
        ensures Size(turns[f..]) > MAX_HISTORY_MESSAGES
      {
        SizeShrinks(turns, f, first - 1);
      }
    }
  }

  /** The longest suffix of whole turns within the limit, or the last turn alone when even
      that is over it. */
  ghost predicate IsFirstKept(turns: seq<Turn>, first: nat)
  {
    && first < |turns|
    && (first == |turns| - 1 || Size(turns[first..]) <= MAX_HISTORY_MESSAGES)
    && forall f | 0 <= f < first :: Size(turns[f..]) > MAX_HISTORY_MESSAGES
  }

  lemma {:induction false} SizeShrinks(turns: seq<Turn>, f: nat, g: nat)
    requires f <= g <= |turns|
    ensures Size(turns[f..]) >= Size(turns[g..])
    decreases g - f
  {
    if f < g {
      SizeShrinks(turns, f + 1, g);
      assert turns[f..][1..] == turns[f + 1..];
    }
  }

  lemma {:induction false} FirstKeptIsUnique(turns: seq<Turn>, a: nat, b: nat)
    requires IsFirstKept(turns, a) && IsFirstKept(turns, b)
    ensures a == b
  {
  }

  function FirstKept(turns: seq<Turn>): (first: nat)
    requires turns != []
    ensures IsFirstKept(turns, first)
  {
    KeptFrom(turns, |turns| - 1)
  }

  function KeptFrom(turns: seq<Turn>, first: nat): (r: nat)
    requires first < |turns|
    requires first == |turns| - 1 || Size(turns[first..]) <= MAX_HISTORY_MESSAGES
    ensures IsFirstKept(turns, r)
    decreases first
  {
    if first > 0 && Size(turns[first - 1..]) <= MAX_HISTORY_MESSAGES then KeptFrom(turns, first - 1)
    else
      assert forall f | 0 <= f < first :: Size(turns[f..]) > MAX_HISTORY_MESSAGES by {
        forall f | 0 <= f < first
          ensures Size(turns[f..]) > MAX_HISTORY_MESSAGES
        {
          SizeShrinks(turns, f, first - 1);
        }
      }
      first
  }

  // ---- Giving up old tool rounds ----

  /** The first assistant message at or after `from`, or the length when there is none. */
  function NextAssistant(turn: Turn, from: nat): (i: nat)
    requires from <= |turn|
    ensures from <= i <= |turn|
    ensures i < |turn| ==> turn[i].role == Assistant
    ensures forall k | from <= k < i :: turn[k].role != Assistant
    decreases |turn| - from
  {
    if from == |turn| || turn[from].role == Assistant then from else NextAssistant(turn, from + 1)
  }

  function WithoutOldestRound(turn: Turn): (r: Option<Turn>)
    ensures r.Some? ==> r.value != [] && |r.value| < |turn|
  {
    var oldest := NextAssistant(turn, 0);
    if oldest == |turn| then None
    else
      var second := NextAssistant(turn, oldest + 1);
      if second == |turn| then None else Some(turn[..oldest] + turn[second..])
  }

  /** From the last assistant message on: what no attempt gives up. */
  function NewestRound(turn: Turn): seq<Message>
  {
    if turn == [] then []
    else if turn[|turn| - 1].role == Assistant then [turn[|turn| - 1]]
    else
      var newest := NewestRound(turn[..|turn| - 1]);
      if newest == [] then [] else newest + [turn[|turn| - 1]]
  }

  /** It is all from the last assistant message on, and nothing when there is none. */
  lemma {:induction false} NewestRoundIs(turn: Turn)
    ensures NewestRound(turn) == [] <==> forall k | 0 <= k < |turn| :: turn[k].role != Assistant
    ensures NewestRound(turn) != [] ==>
              exists i | 0 <= i < |turn| :: IsLastAssistant(turn, i) && NewestRound(turn) == turn[i..]
  {
    if turn != [] {
      var n := |turn| - 1;
      if turn[n].role == Assistant {
        assert IsLastAssistant(turn, n) && turn[n..] == [turn[n]];
      } else {
        NewestRoundIs(turn[..n]);
        assert forall k | 0 <= k < n :: turn[..n][k] == turn[k];
        if NewestRound(turn[..n]) != [] {
          var i :| 0 <= i < n && IsLastAssistant(turn[..n], i) && NewestRound(turn[..n]) == turn[..n][i..];
          LastAssistantStays(turn, i);
        }
      }
    }
  }

  lemma {:induction false} LastAssistantStays(turn: Turn, i: nat)
    requires turn != [] && turn[|turn| - 1].role != Assistant && IsLastAssistant(turn[..|turn| - 1], i)
    ensures IsLastAssistant(turn, i) && turn[..|turn| - 1][i..] + [turn[|turn| - 1]] == turn[i..]
  {
    assert forall k | 0 <= k < |turn| - 1 :: turn[..|turn| - 1][k] == turn[k];
  }

  predicate IsLastAssistant(turn: Turn, i: nat)
  {
    i < |turn| && turn[i].role == Assistant && forall k | i < k < |turn| :: turn[k].role != Assistant
  }

  lemma {:induction false} NewestRoundOfSuffix(a: Turn, b: Turn)
    requires exists i | 0 <= i < |b| :: b[i].role == Assistant
    ensures NewestRound(a + b) == NewestRound(b) != []
  {
    var n := |b| - 1;
    assert (a + b)[..|a + b| - 1] == a + b[..n];
    if b[n].role != Assistant {
      assert exists i | 0 <= i < |b[..n]| :: b[..n][i].role == Assistant;
      NewestRoundOfSuffix(a, b[..n]);
    }
  }

  /** A turn the user opened, with its calls paired. */
  ghost predicate IsUserTurn(turn: Turn)
  {
    IsTurn(turn) && turn[0].role == User && Paired(Shapes(turn))
  }

  lemma {:induction false} CutOutStaysPaired(turn: Turn, from: nat, to: nat)
    requires Paired(Shapes(turn))
    requires from < to < |turn| && turn[from].role == Assistant && turn[to].role == Assistant
    ensures Paired(Shapes(turn[..from] + turn[to..]))
  {
    hide Paired;
    var s := Shapes(turn);
    PairedSplit(s, from);
    PairedSplit(s, to);
    assert s[..from] == Shapes(turn[..from]) && s[to..] == Shapes(turn[to..]);
    PairedConcat(Shapes(turn[..from]), Shapes(turn[to..]));
    ShapesConcat(turn[..from], turn[to..]);
  }

  /** The first two assistant messages of a turn. */
  predicate AreFirstAssistants(turn: Turn, i: nat, j: nat)
  {
    && i < j < |turn| && turn[i].role == turn[j].role == Assistant
    && forall k | 0 <= k < j :: k != i ==> turn[k].role != Assistant
  }

  /** Without its oldest round, a turn keeps the user's message, the pairing and the newest
      round. What goes is just from the first assistant message up to the second, so only a turn
      with one assistant message at most has no round to give up. */
  lemma {:induction false} WithoutOldestRoundKeeps(turn: Turn)
    requires IsUserTurn(turn)
    ensures
      match WithoutOldestRound(turn)
      case None => forall i, j | 0 <= i < j < |turn| :: turn[i].role != Assistant || turn[j].role != Assistant
      case Some(shorter) =>
        && IsUserTurn(shorter)
        && shorter[0] == turn[0]
        && NewestRound(shorter) == NewestRound(turn)
        && (forall m | m in shorter :: m in turn)
        && exists i, j | 0 <= i < j < |turn| :: AreFirstAssistants(turn, i, j) && shorter == turn[..i] + turn[j..]
  {
    hide Paired, NewestRound;
    var oldest := NextAssistant(turn, 0);
    if oldest < |turn| {
      var second := NextAssistant(turn, oldest + 1);
      if second < |turn| {
        CutOutStaysPaired(turn, oldest, second);
        var rest := turn[second..];
        assert rest[0].role == Assistant;
        NewestRoundOfSuffix(turn[..oldest], rest);
        NewestRoundOfSuffix(turn[..second], rest);
        assert turn == turn[..second] + rest;
        assert AreFirstAssistants(turn, oldest, second);
      }
    }
  }
}
