/** What the conversion keeps of any list of messages, and what an accepted conversation says
    of the messages it came from. */
module ClaudeFacts {
  import opened Text
  import opened Conversation
  import opened RenderFacts
  import opened TokenFacts
  import opened Claude

  // ---- Alternation ----

  lemma {:induction false} PushAlternates(turns: seq<ClaudeTurn>, role: Role, blocks: seq<Block>)
    requires Alternates(turns) && role != Tool
    ensures Alternates(Push(turns, role, blocks))
  {
  }

  lemma {:induction false} ConvertAlternates(parse: Parser, turns: seq<ClaudeTurn>, messages: seq<Sent>)
    requires Alternates(turns)
    ensures Alternates(ConvertFrom(parse, turns, messages))
    decreases |messages|
  {
    hide Alternates, Push, BlocksOf;
    if messages != [] {
      var m := messages[0];
      PushAlternates(turns, TurnRole(m), BlocksOf(parse, m));
      ConvertAlternates(parse, Push(turns, TurnRole(m), BlocksOf(parse, m)), messages[1..]);
    }
  }

  /** Any list of messages becomes strictly alternating turns, none empty, the user first. */
  lemma {:induction false} ConvertedAlternates(parse: Parser, messages: seq<Sent>)
    ensures Alternates(Converted(parse, messages))
    ensures Converted(parse, messages) != [] && Converted(parse, messages)[0].role == User
  {
    hide ConvertFrom;
    ConvertAlternates(parse, [], messages);
  }

  // ---- Results and uses ----

  function Results(content: seq<Block>): nat
  {
    if content == [] then 0
    else Results(content[..|content| - 1]) + if content[|content| - 1].ToolResult? then 1 else 0
  }

  lemma {:induction false} ResultsConcat(a: seq<Block>, b: seq<Block>)
    ensures Results(a + b) == Results(a) + Results(b)
  {
    if b == [] {
      assert a + b == a;
    } else {
      ResultsConcat(a, b[..|b| - 1]);
      assert (a + b)[..|a + b| - 1] == a + b[..|b| - 1];
    }
  }

  lemma {:induction false} AnswersAreResults(content: seq<Block>, ids: seq<string>)
    requires AnswersFirst(content, ids)
    ensures Results(content) == |ids|
  {
    if content != [] {
      var front := content[..|content| - 1];
      AnswersAreResults(front, if |ids| == |content| then ids[..|ids| - 1] else ids);
    }
  }

  /** Up to any turn, what is answered and what waits for its answer is all that was used. */
  lemma {:induction false} ConversationBalances(turns: seq<ClaudeTurn>, n: nat)
    requires Alternates(turns) && EachAnswers(turns) && n <= |turns|
    ensures
      var blocks := AllBlocks(turns[..n]);
      Results(blocks) + |Pending(turns[..n])| == |UseIds(blocks)|
  {
    hide UseIds, Results, AnswersFirst;
    if n == 0 {
      NoBlocks();
    } else {
      var before, turn := turns[..n - 1], turns[n - 1];
      ConversationBalances(turns, n - 1);
      assert turns[..n][..n - 1] == before;
      UseIdsConcat(AllBlocks(before), turn.content);
      ResultsConcat(AllBlocks(before), turn.content);
      assert TurnAnswers(turns, n - 1);
      AnswersAreResults(turn.content, if turn.role == Assistant then [] else Pending(before));
      if turn.role == Assistant && n > 1 {
        assert TurnAnswers(turns, n - 2) && turns[n - 2].role != turn.role;
      }
    }
  }

  lemma {:induction false} NoBlocks()
    ensures UseIds([]) == [] && Results([]) == 0
  {
  }

  lemma {:induction false} BlocksCount(parse: Parser, m: Sent)
    requires OnlyAssistantsSendCalls([m])
    ensures Results(BlocksOf(parse, m)) == Answers([SentShapeOf(m)])
    ensures |UseIds(BlocksOf(parse, m))| == Asks([SentShapeOf(m)])
  {
    OneShape(SentShapeOf(m));
    assert [m][0] == m;
    hide Asks, Answers;
    if m.role == Tool {
      var block := BlocksOf(parse, m)[0];
      assert [block][..0] == [];
    } else {
      BlocksUseCalls(parse, m);
      hide BlocksOf;
      AnswersAreResults(BlocksOf(parse, m), []);
      SafeIdsCount(m.calls);
    }
  }

  lemma {:induction false} SafeIdsCount(calls: seq<SentCall>)
    ensures |SafeIds(calls)| == |calls|
  {
    if calls != [] {
      SafeIdsCount(calls[..|calls| - 1]);
    }
  }

  lemma {:induction false} MessageBlocksCount(parse: Parser, messages: seq<Sent>)
    requires OnlyAssistantsSendCalls(messages)
    ensures Results(MessageBlocks(parse, messages)) == Answers(SentShapes(messages))
    ensures |UseIds(MessageBlocks(parse, messages))| == Asks(SentShapes(messages))
  {
    hide UseIds, Results, Asks, Answers, BlocksOf;
    if messages == [] {
      NoBlocks();
      OneShape(Shape(User, [], ""));
      assert SentShapes(messages) == [];
    } else {
      var m, rest := messages[0], messages[1..];
      MessageBlocksCount(parse, rest);
      assert [m][0] == messages[0];
      BlocksCount(parse, m);
      UseIdsConcat(BlocksOf(parse, m), MessageBlocks(parse, rest));
      ResultsConcat(BlocksOf(parse, m), MessageBlocks(parse, rest));
      CountsConcat([SentShapeOf(m)], SentShapes(rest));
      assert SentShapes(messages) == [SentShapeOf(m)] + SentShapes(rest);
    }
  }

  /** Only messages with as many results as calls make a conversation that Claude accepts. */
  lemma {:induction false} AcceptedBalances(parse: Parser, messages: seq<Sent>)
    requires OnlyAssistantsSendCalls(messages) && IsClaudeConversation(Converted(parse, messages))
    ensures Answers(SentShapes(messages)) == Asks(SentShapes(messages))
  {
    hide UseIds, Results, Asks, Answers, ConvertFrom, MessageBlocks, AllBlocks;
    var turns := Converted(parse, messages);
    ConversationBalances(turns, |turns|);
    assert turns[..|turns|] == turns;
    ConvertedKeepsBlocks(parse, messages);
    MessageBlocksCount(parse, messages);
    StartCounts();
    UseIdsConcat(HISTORY_START.content, MessageBlocks(parse, messages));
    ResultsConcat(HISTORY_START.content, MessageBlocks(parse, messages));
  }

  lemma {:induction false} StartCounts()
    ensures UseIds(HISTORY_START.content) == [] && Results(HISTORY_START.content) == 0
  {
    assert HISTORY_START.content[..0] == [];
  }
}
