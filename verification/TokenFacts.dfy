/** The token estimate against the characters sent, and the count of calls and results. */
module TokenFacts {
  import opened Text
  import opened Conversation
  import opened Turns
  import opened Render
  import opened RenderFacts

  // ---- Calls and results ----

  function Asks(s: seq<Shape>): nat
  {
    if s == [] then 0 else Asks(s[..|s| - 1]) + |s[|s| - 1].asks|
  }

  /** The number of results. */
  function Answers(s: seq<Shape>): (n: nat)
    ensures n <= |s|
  {
    if s == [] then 0 else Answers(s[..|s| - 1]) + if s[|s| - 1].role == Tool then 1 else 0
  }

  lemma {:induction false} CountsConcat(a: seq<Shape>, b: seq<Shape>)
    ensures Asks(a + b) == Asks(a) + Asks(b)
    ensures Answers(a + b) == Answers(a) + Answers(b)
  {
    if b == [] {
      assert a + b == a;
    } else {
      CountsConcat(a, b[..|b| - 1]);
      assert (a + b)[..|a + b| - 1] == a + b[..|b| - 1];
    }
  }

  lemma {:induction false} OnlyResults(s: seq<Shape>)
    requires forall i | 0 <= i < |s| :: s[i].role == Tool && s[i].asks == []
    ensures Asks(s) == 0 && Answers(s) == |s|
  {
    if s != [] {
      OnlyResults(s[..|s| - 1]);
    }
  }

  lemma {:induction false} OneShape(shape: Shape)
    ensures Asks([shape]) == |shape.asks|
    ensures Answers([shape]) == if shape.role == Tool then 1 else 0
    ensures Asks([]) == Answers([]) == 0
  {
    assert [shape][..0] == [];
  }

  /** Pairing gives every call a result of its own. */
  lemma {:induction false} PairedBalances(s: seq<Shape>)
    requires Paired(s)
    ensures Asks(s) == Answers(s)
  {
    hide Asks, Answers;
    if s == [] {
      OneShape(Shape(User, [], ""));
    } else {
      var n := |s[0].asks|;
      var results, rest := s[1..1 + n], s[1 + n..];
      PairedBalances(rest);
      OnlyResults(results);
      OneShape(s[0]);
      CountsConcat([s[0]], results);
      CountsConcat([s[0]] + results, rest);
      assert [s[0]] + results + rest == s;
    }
  }

  lemma {:induction false} NoToolsCount(messages: seq<Sent>)
    requires NoTools(messages)
    ensures Asks(SentShapes(messages)) == Answers(SentShapes(messages)) == 0
  {
    if messages != [] {
      var front, m := messages[..|messages| - 1], messages[|messages| - 1];
      NoToolsCount(front);
      assert SentShapes(messages)[..|messages| - 1] == SentShapes(front);
      assert SentShapes(messages)[|messages| - 1] == SentShapeOf(m);
    }
  }

  /** The calls of the user messages that open turns, which rendering drops. */
  function OpenerCalls(turns: seq<Turn>, n: nat): nat
    requires AreTurns(turns) && n <= |turns|
  {
    if n == 0 then 0
    else
      var first := turns[n - 1][0];
      OpenerCalls(turns, n - 1) + if first.role == User then |first.calls| else 0
  }

  lemma {:induction false} NoOpenerCalls(turns: seq<Turn>, n: nat)
    requires AreTurns(turns) && n <= |turns|
    ensures OpenerCalls(turns, n) == 0 <==>
            forall k | 0 <= k < n :: turns[k][0].role == User ==> turns[k][0].calls == []
  {
    if n > 0 {
      NoOpenerCalls(turns, n - 1);
    }
  }

  /** In Agent mode a turn sends all its results, and all its calls but its opener's. */
  lemma {:induction false} AgentTurnCounts(w: Wording, page: Page, k: nat)
    requires IsHistory(page.turns) && k < |page.turns| && page.mode == Agent
    ensures
      var sent := SentShapes(TurnSent(w, page, k));
      var first := page.turns[k][0];
      Answers(sent) == Asks(sent) + if first.role == User then |first.calls| else 0
  {
    hide TurnSent, Asks, Answers;
    AgentTurnShapes(w, page, k);
    var sent, turn := SentShapes(TurnSent(w, page, k)), Shapes(page.turns[k]);
    PairedBalances(turn);
    assert turn[0] == ShapeOf(page.turns[k][0]) && turn[0].role != Tool;
    assert sent == [sent[0]] + sent[1..] && turn == [turn[0]] + turn[1..];
    OneShape(sent[0]);
    OneShape(turn[0]);
    CountsConcat([sent[0]], sent[1..]);
    CountsConcat([turn[0]], turn[1..]);
  }

  lemma {:induction false} AgentTurnsCount(w: Wording, page: Page, n: nat)
    requires IsHistory(page.turns) && n <= |page.turns| && page.mode == Agent
    ensures
      var sent := SentShapes(SentTurns(w, page, n));
      Answers(sent) == Asks(sent) + OpenerCalls(page.turns, n)
  {
    hide TurnSent, Asks, Answers, Paired;
    if n > 0 {
      AgentTurnsCount(w, page, n - 1);
      AgentTurnCounts(w, page, n - 1);
      var before, turn := SentTurns(w, page, n - 1), TurnSent(w, page, n - 1);
      SentShapesConcat(before, turn);
      CountsConcat(SentShapes(before), SentShapes(turn));
    } else {
      OneShape(Shape(User, [], ""));
      assert SentShapes([]) == [];
    }
  }

  /** A page never has fewer results than calls, and has more by just the calls of the user
      messages whose calls were dropped. In Ask mode it has neither. */
  lemma {:induction false} PageCounts(w: Wording, page: Page)
    requires IsHistory(page.turns)
    ensures
      var sent := SentShapes(SentPage(w, page));
      Answers(sent) == Asks(sent) + if page.mode == Agent then OpenerCalls(page.turns, |page.turns|) else 0
  {
    hide Asks, Answers, SentTurns, Paired;
    if page.mode == Agent {
      AgentTurnsCount(w, page, |page.turns|);
      var sent := SentTurns(w, page, |page.turns|);
      SentShapesConcat(sent, Closing(sent));
      CountsConcat(SentShapes(sent), SentShapes(Closing(sent)));
      NoToolsCount(Closing(sent));
    } else {
      AskModeUsesNoTools(w, page);
      NoToolsCount(SentPage(w, page));
    }
  }

  // ---- Tokens and characters ----

  /** The characters of the names of the tools called. */
  function CallNameChars(calls: seq<SentCall>): nat
  {
    if calls == [] then 0 else CallNameChars(calls[..|calls| - 1]) + |calls[|calls| - 1].name|
  }

  function NameChars(messages: seq<Sent>): nat
  {
    if messages == [] then 0 else NameChars(messages[..|messages| - 1]) + CallNameChars(messages[|messages| - 1].calls)
  }

  lemma {:induction false} CallTokensCover(calls: seq<SentCall>)
    ensures 4 * CallTokens(calls) <= ArgumentChars(calls) + CallNameChars(calls) <= 4 * CallTokens(calls) + 3 * |calls|
  {
    if calls != [] {
      CallTokensCover(calls[..|calls| - 1]);
    }
  }

  lemma {:induction false} TokensCoverLoss(messages: seq<Sent>)
    requires OnlyAssistantsSendCalls(messages)
    ensures SentChars(messages) + NameChars(messages) + 13 * |messages| <=
            4 * EstimatedTokens(messages) + 3 * Asks(SentShapes(messages))
    ensures 4 * EstimatedTokens(messages) <= SentChars(messages) + NameChars(messages) + 16 * |messages|
  {
    if messages != [] {
      var front, m := messages[..|messages| - 1], messages[|messages| - 1];
      TokensCoverLoss(front);
      CallTokensCover(m.calls);
      assert SentShapes(messages)[..|messages| - 1] == SentShapes(front);
      assert |SentShapeOf(m).asks| == |m.calls|;
    }
  }

  /** The estimate of a rendered conversation never undercounts by division: each message's
      overhead pays for its own loss and for the loss on the call it answers. Results left
      behind by dropped calls only add messages, so this holds whatever the turns are. Nor does
      it count more than the characters and that overhead. */
  lemma {:induction false} EstimateCoversChars(w: Wording, page: Page)
    requires IsHistory(page.turns)
    ensures
      var messages := SentPage(w, page);
      var chars := SentChars(messages) + NameChars(messages);
      chars + 10 * |messages| <= 4 * EstimatedTokens(messages) <= chars + 16 * |messages|
  {
    hide SentPage, SentChars, NameChars, EstimatedTokens, Asks;
    PageEndsElsewhere(w, page);
    PageCounts(w, page);
    TokensCoverLoss(SentPage(w, page));
  }
}
