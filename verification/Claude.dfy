/** From provider messages to Claude's turns: each text, call and result is a block, and what one
    role says in a row is one turn. */
module Claude {
  import opened Text
  import opened Conversation
  import opened RenderFacts

  const HISTORY_START_TEXT := "(The start of this conversation was left out.)"
  const NO_OUTPUT_TEXT := "(no output)"

  datatype Block =
    | TextBlock(text: string)
    | ToolUse(id: string, name: string, input: seq<Argument>)
    | ToolResult(toolUseId: string, content: string)

  datatype ClaudeTurn = ClaudeTurn(role: Role, content: seq<Block>)

  /** json.loads, with anything but an object read as no arguments. */
  type Parser = string -> seq<Argument>

  function SafeId(id: string): string
  {
    seq(|id|, i requires 0 <= i < |id| =>
      var c := id[i];
      if 'a' <= c <= 'z' || 'A' <= c <= 'Z' || '0' <= c <= '9' || c == '_' || c == '-' then c else '_')
  }

  function UseOf(parse: Parser, call: SentCall): Block
  {
    ToolUse(SafeId(call.id), SafeId(call.name), parse(if call.arguments == "" then "{}" else call.arguments))
  }

  function UsesOf(parse: Parser, calls: seq<SentCall>): seq<Block>
  {
    if calls == [] then [] else UsesOf(parse, calls[..|calls| - 1]) + [UseOf(parse, calls[|calls| - 1])]
  }

  function BlocksOf(parse: Parser, m: Sent): seq<Block>
  {
    if m.role == Tool then [ToolResult(SafeId(m.callId), if m.content == "" then NO_OUTPUT_TEXT else m.content)]
    else
      (if IsBlank(m.content) then [] else [TextBlock(m.content)]) + UsesOf(parse, m.calls)
  }

  function TurnRole(m: Sent): Role
  {
    if m.role == Tool then User else m.role
  }

  function Push(turns: seq<ClaudeTurn>, role: Role, blocks: seq<Block>): seq<ClaudeTurn>
  {
    var last := |turns| - 1;
    if blocks == [] then turns
    else if turns != [] && turns[last].role == role
    then turns[..last] + [ClaudeTurn(role, turns[last].content + blocks)]
    else turns + [ClaudeTurn(role, blocks)]
  }

  function ConvertFrom(parse: Parser, turns: seq<ClaudeTurn>, messages: seq<Sent>): seq<ClaudeTurn>
    decreases |messages|
  {
    if messages == [] then turns
    else
      var m := messages[0];
      ConvertFrom(parse, Push(turns, TurnRole(m), BlocksOf(parse, m)), messages[1..])
  }

  const HISTORY_START := ClaudeTurn(User, [TextBlock(HISTORY_START_TEXT)])

  function WithStart(turns: seq<ClaudeTurn>): seq<ClaudeTurn>
  {
    if turns == [] || turns[0].role != User then [HISTORY_START] + turns else turns
  }

  function Converted(parse: Parser, messages: seq<Sent>): seq<ClaudeTurn>
  {
    WithStart(ConvertFrom(parse, [], messages))
  }

  method AnthropicMessages(parse: Parser, messages: seq<Sent>) returns (converted: seq<ClaudeTurn>)
    ensures converted == Converted(parse, messages)
  {
    hide BlocksOf;
    assert messages[0..] == messages;
    converted := [];
    for i := 0 to |messages|
      invariant ConvertFrom(parse, converted, messages[i..]) == ConvertFrom(parse, [], messages)
    {
      var message := messages[i];
      assert messages[i..][1..] == messages[i + 1..];
      var role := if message.role == Tool then User else message.role;
      var blocks := BlocksOf(parse, message);
      if blocks != [] {
        var last := |converted| - 1;
        if converted != [] && converted[last].role == role {
          converted := converted[..last] + [ClaudeTurn(role, converted[last].content + blocks)];
        } else {
          converted := converted + [ClaudeTurn(role, blocks)];
        }
      }
    }
    if converted == [] || converted[0].role != User {
      converted := [HISTORY_START] + converted;
    }
  }

  // ---- What Claude requires of a conversation ----

  /** Turns of user and assistant, one after the other, none empty. */
  ghost predicate Alternates(turns: seq<ClaudeTurn>)
  {
    && (forall i | 0 <= i < |turns| :: turns[i].role != Tool && turns[i].content != [])
    && (forall i | 1 <= i < |turns| :: turns[i].role != turns[i - 1].role)
  }

  function UseIds(content: seq<Block>): seq<string>
  {
    if content == [] then []
    else
      var b := content[|content| - 1];
      UseIds(content[..|content| - 1]) + if b.ToolUse? then [b.id] else []
  }

  /** One result per id, in order, ahead of everything else, and no other result. */
  ghost predicate AnswersFirst(content: seq<Block>, ids: seq<string>)
  {
    && |ids| <= |content|
    && forall j | 0 <= j < |content| ::
         if j < |ids| then content[j].ToolResult? && content[j].toolUseId == ids[j] else !content[j].ToolResult?
  }

  /** An assistant turn holds no result. A user turn uses no tool, and answers at its head
      what the turn before it used, and nothing else. */
  ghost predicate TurnAnswers(turns: seq<ClaudeTurn>, i: nat)
    requires i < |turns|
  {
    var content := turns[i].content;
    if turns[i].role == Assistant then AnswersFirst(content, [])
    else UseIds(content) == [] && AnswersFirst(content, if i == 0 then [] else UseIds(turns[i - 1].content))
  }

  ghost predicate EachAnswers(turns: seq<ClaudeTurn>)
  {
    forall i | 0 <= i < |turns| :: TurnAnswers(turns, i)
  }

  /** The tools used by the turn at the end, which nothing answers yet. */
  function Pending(turns: seq<ClaudeTurn>): seq<string>
  {
    if turns == [] then [] else UseIds(turns[|turns| - 1].content)
  }

  ghost predicate IsClaudeConversation(turns: seq<ClaudeTurn>)
  {
    Alternates(turns) && EachAnswers(turns) && Pending(turns) == []
  }

  lemma {:induction false} UseIdsConcat(a: seq<Block>, b: seq<Block>)
    ensures UseIds(a + b) == UseIds(a) + UseIds(b)
  {
    if b == [] {
      assert a + b == a;
    } else {
      UseIdsConcat(a, b[..|b| - 1]);
      assert (a + b)[..|a + b| - 1] == a + b[..|b| - 1];
    }
  }

  lemma {:induction false} AnswersFirstConcat(a: seq<Block>, b: seq<Block>, ids: seq<string>)
    requires AnswersFirst(a, ids) && AnswersFirst(b, [])
    ensures AnswersFirst(a + b, ids)
  {
  }

  /** The content of the last turn can be replaced by any that answers as well. */
  lemma {:induction false} ReplaceLast(turns: seq<ClaudeTurn>, content: seq<Block>)
    requires Alternates(turns) && EachAnswers(turns) && turns != [] && content != []
    requires
      var last := |turns| - 1;
      if turns[last].role == Assistant then AnswersFirst(content, [])
      else UseIds(content) == [] && AnswersFirst(content, if last == 0 then [] else UseIds(turns[last - 1].content))
    ensures
      var r := turns[..|turns| - 1] + [ClaudeTurn(turns[|turns| - 1].role, content)];
      Alternates(r) && EachAnswers(r)
  {
    hide AnswersFirst, UseIds;
    var r := turns[..|turns| - 1] + [ClaudeTurn(turns[|turns| - 1].role, content)];
    forall i | 0 <= i < |r|
      ensures TurnAnswers(r, i)
    {
      assert TurnAnswers(turns, i);
      assert i > 0 ==> r[i - 1] == turns[i - 1];
    }
  }

  lemma {:induction false} PushExtendsLast(turns: seq<ClaudeTurn>, role: Role, blocks: seq<Block>)
    requires Alternates(turns) && EachAnswers(turns)
    requires turns != [] && turns[|turns| - 1].role == role && blocks != []
    requires AnswersFirst(blocks, []) && (role == User ==> UseIds(blocks) == [])
    ensures Alternates(Push(turns, role, blocks)) && EachAnswers(Push(turns, role, blocks))
  {
    hide AnswersFirst, UseIds;
    var last := |turns| - 1;
    var content := turns[last].content;
    assert TurnAnswers(turns, last);
    var ids := if role == Assistant || last == 0 then [] else UseIds(turns[last - 1].content);
    assert AnswersFirst(content, ids);
    UseIdsConcat(content, blocks);
    AnswersFirstConcat(content, blocks, ids);
    ReplaceLast(turns, content + blocks);
  }

  lemma {:induction false} PendingAfterPush(turns: seq<ClaudeTurn>, role: Role, blocks: seq<Block>)
    requires turns != [] && turns[|turns| - 1].role == role && blocks != []
    ensures Pending(Push(turns, role, blocks)) == Pending(turns) + UseIds(blocks)
  {
    hide UseIds;
    UseIdsConcat(turns[|turns| - 1].content, blocks);
  }

  lemma {:induction false} PushAddsTurn(turns: seq<ClaudeTurn>, turn: ClaudeTurn)
    requires Alternates(turns) && EachAnswers(turns)
    requires turn.role != Tool && turn.content != [] && (turns != [] ==> turns[|turns| - 1].role != turn.role)
    requires
      if turn.role == Assistant then AnswersFirst(turn.content, [])
      else UseIds(turn.content) == [] && AnswersFirst(turn.content, Pending(turns))
    ensures Alternates(turns + [turn]) && EachAnswers(turns + [turn])
    ensures Pending(turns + [turn]) == UseIds(turn.content)
  {
    hide UseIds, AnswersFirst;
    var r := turns + [turn];
    forall i | 0 <= i < |r|
      ensures TurnAnswers(r, i)
    {
      if i < |turns| {
        assert TurnAnswers(turns, i);
        assert i > 0 ==> r[i - 1] == turns[i - 1];
      }
    }
  }

  lemma {:induction false} PushedIsLast(turns: seq<ClaudeTurn>, role: Role, blocks: seq<Block>)
    requires blocks != []
    ensures Push(turns, role, blocks) != []
    ensures Push(turns, role, blocks)[|Push(turns, role, blocks)| - 1].role == role
  {
  }

  /** Taking in a message that holds no result. */
  lemma {:induction false} PushKeeps(turns: seq<ClaudeTurn>, role: Role, blocks: seq<Block>)
    requires IsClaudeConversation(turns) && role != Tool
    requires AnswersFirst(blocks, []) && (role == User ==> UseIds(blocks) == [])
    ensures Alternates(Push(turns, role, blocks)) && EachAnswers(Push(turns, role, blocks))
    ensures Pending(Push(turns, role, blocks)) == UseIds(blocks)
  {
    if blocks == [] {
    } else if turns != [] && turns[|turns| - 1].role == role {
      PushExtendsLast(turns, role, blocks);
      PendingAfterPush(turns, role, blocks);
    } else {
      PushAddsTurn(turns, ClaudeTurn(role, blocks));
    }
  }

  function ResultBlocks(parse: Parser, results: seq<Sent>): seq<Block>
    requires forall i | 0 <= i < |results| :: results[i].role == Tool
  {
    seq(|results|, i requires 0 <= i < |results| => BlocksOf(parse, results[i])[0])
  }

  lemma {:induction false} ConvertStep(parse: Parser, turns: seq<ClaudeTurn>, m: Sent, rest: seq<Sent>)
    ensures
      ConvertFrom(parse, turns, [m] + rest) ==
      ConvertFrom(parse, Push(turns, TurnRole(m), BlocksOf(parse, m)), rest)
  {
    hide BlocksOf, Push;
    assert ([m] + rest)[1..] == rest;
  }

  /** Results that follow a user turn join it in order. */
  lemma {:induction false} ResultsJoin(
    parse: Parser, turns: seq<ClaudeTurn>, content: seq<Block>, results: seq<Sent>, rest: seq<Sent>)
    requires forall i | 0 <= i < |results| :: results[i].role == Tool
    ensures
      ConvertFrom(parse, turns + [ClaudeTurn(User, content)], results + rest) ==
      ConvertFrom(parse, turns + [ClaudeTurn(User, content + ResultBlocks(parse, results))], rest)
    decreases |results|
  {
    if results == [] {
      assert results + rest == rest;
      assert content + ResultBlocks(parse, results) == content;
    } else {
      ResultBlocksStart(parse, results);
      var first := BlocksOf(parse, results[0]);
      hide BlocksOf, Push, ResultBlocks, ConvertFrom;
      assert results + rest == [results[0]] + (results[1..] + rest);
      ConvertStep(parse, turns + [ClaudeTurn(User, content)], results[0], results[1..] + rest);
      ResultsJoin(parse, turns, content + first, results[1..], rest);
      Associative(content, first, ResultBlocks(parse, results[1..]));
    }
  }

  lemma {:induction false} ResultBlocksStart(parse: Parser, results: seq<Sent>)
    requires results != [] && forall i | 0 <= i < |results| :: results[i].role == Tool
    ensures BlocksOf(parse, results[0]) != []
    ensures BlocksOf(parse, results[0]) + ResultBlocks(parse, results[1..]) == ResultBlocks(parse, results)
  {
    hide SafeId;
  }

  /** A round's results make the user turn right after the assistant turn that asked. */
  lemma {:induction false} ResultsFollow(parse: Parser, turns: seq<ClaudeTurn>, results: seq<Sent>, rest: seq<Sent>)
    requires turns != [] && turns[|turns| - 1].role == Assistant && results != []
    requires forall i | 0 <= i < |results| :: results[i].role == Tool
    ensures
      ConvertFrom(parse, turns, results + rest) ==
      ConvertFrom(parse, turns + [ClaudeTurn(User, ResultBlocks(parse, results))], rest)
  {
    ResultBlocksStart(parse, results);
    var first := BlocksOf(parse, results[0]);
    assert Push(turns, User, first) == turns + [ClaudeTurn(User, first)];
    hide BlocksOf, Push, ResultBlocks, ConvertFrom;
    assert results + rest == [results[0]] + (results[1..] + rest);
    ConvertStep(parse, turns, results[0], results[1..] + rest);
    ResultsJoin(parse, turns, first, results[1..], rest);
  }

  function SafeIds(calls: seq<SentCall>): seq<string>
  {
    if calls == [] then [] else SafeIds(calls[..|calls| - 1]) + [SafeId(calls[|calls| - 1].id)]
  }

  lemma {:induction false} SafeIdAt(calls: seq<SentCall>, i: nat)
    requires i < |calls|
    ensures |SafeIds(calls)| == |calls| && SafeIds(calls)[i] == SafeId(calls[i].id)
  {
    if i < |calls| - 1 {
      SafeIdAt(calls[..|calls| - 1], i);
    } else if |calls| > 1 {
      SafeIdAt(calls[..|calls| - 1], 0);
    }
  }

  lemma {:induction false} UsesAreCalls(parse: Parser, calls: seq<SentCall>)
    ensures UseIds(UsesOf(parse, calls)) == SafeIds(calls)
    ensures AnswersFirst(UsesOf(parse, calls), [])
    ensures calls != [] ==> UsesOf(parse, calls) != []
  {
    if calls != [] {
      UsesAreCalls(parse, calls[..|calls| - 1]);
    }
  }

  /** The ids an assistant message uses are those of its calls, and it holds no result. */
  lemma {:induction false} BlocksUseCalls(parse: Parser, m: Sent)
    requires m.role != Tool
    ensures UseIds(BlocksOf(parse, m)) == SafeIds(m.calls)
    ensures AnswersFirst(BlocksOf(parse, m), [])
    ensures m.calls != [] ==> BlocksOf(parse, m) != []
  {
    var text: seq<Block> := if IsBlank(m.content) then [] else [TextBlock(m.content)];
    UsesAreCalls(parse, m.calls);
    UseIdsConcat(text, UsesOf(parse, m.calls));
    assert text != [] ==> text[..0] == [];
  }

  lemma {:induction false} ResultsUseNothing(content: seq<Block>)
    requires forall i | 0 <= i < |content| :: !content[i].ToolUse?
    ensures UseIds(content) == []
  {
    if content != [] {
      ResultsUseNothing(content[..|content| - 1]);
    }
  }

  lemma {:induction false} ResultBlocksAnswer(parse: Parser, calls: seq<SentCall>, results: seq<Sent>)
    requires |results| == |calls|
    requires forall i | 0 <= i < |results| :: results[i].role == Tool && results[i].callId == calls[i].id
    ensures UseIds(ResultBlocks(parse, results)) == []
    ensures AnswersFirst(ResultBlocks(parse, results), SafeIds(calls))
  {
    var answer := ResultBlocks(parse, results);
    if calls != [] {
      SafeIdAt(calls, 0);
    }
    forall i | 0 <= i < |answer|
      ensures answer[i].ToolResult? && answer[i].toolUseId == SafeIds(calls)[i]
    {
      SafeIdAt(calls, i);
    }
    ResultsUseNothing(answer);
  }

  /** One round: the calls end an assistant turn and their results open the next. */
  lemma {:induction false} RoundKeeps(parse: Parser, turns: seq<ClaudeTurn>, m: Sent, results: seq<Sent>)
    requires IsClaudeConversation(turns) && m.role == Assistant && m.calls != []
    requires |results| == |m.calls|
    requires forall i | 0 <= i < |results| :: results[i].role == Tool && results[i].callId == m.calls[i].id
    ensures
      var asked := Push(turns, Assistant, BlocksOf(parse, m));
      && asked != [] && asked[|asked| - 1].role == Assistant
      && IsClaudeConversation(asked + [ClaudeTurn(User, ResultBlocks(parse, results))])
  {
    ResultBlocksAnswer(parse, m.calls, results);
    AskKeeps(parse, turns, m);
    hide BlocksOf, SafeIds, EachAnswers, Alternates, AnswersFirst, UseIds, Push;
    var asked := Push(turns, Assistant, BlocksOf(parse, m));
    var answer := ResultBlocks(parse, results);
    assert |answer| == |m.calls|;
    hide ResultBlocks;
    PushAddsTurn(asked, ClaudeTurn(User, answer));
  }

  lemma {:induction false} AskKeeps(parse: Parser, turns: seq<ClaudeTurn>, m: Sent)
    requires IsClaudeConversation(turns) && m.role == Assistant && m.calls != []
    ensures
      var asked := Push(turns, Assistant, BlocksOf(parse, m));
      && asked != [] && asked[|asked| - 1].role == Assistant
      && Alternates(asked) && EachAnswers(asked) && Pending(asked) == SafeIds(m.calls)
  {
    BlocksUseCalls(parse, m);
    hide BlocksOf, SafeIds, EachAnswers, Alternates, AnswersFirst, UseIds;
    PushKeeps(turns, Assistant, BlocksOf(parse, m));
    PushedIsLast(turns, Assistant, BlocksOf(parse, m));
  }

  /** The messages of the round at the start of a paired list. */
  lemma {:induction false} FirstRound(messages: seq<Sent>)
    requires Paired(SentShapes(messages)) && OnlyAssistantsSendCalls(messages) && messages != []
    ensures
      var m, n := messages[0], |messages[0].calls|;
      && m.role != Tool
      && n < |messages|
      && (forall i | 1 <= i <= n :: messages[i].role == Tool && messages[i].callId == m.calls[i - 1].id)
      && Paired(SentShapes(messages[1 + n..]))
  {
    var m, n := messages[0], |messages[0].calls|;
    var s := SentShapes(messages);
    assert s[0] == SentShapeOf(m) && |s[0].asks| == n;
    assert s[1 + n..] == SentShapes(messages[1 + n..]);
    forall i | 1 <= i <= n
      ensures messages[i].role == Tool && messages[i].callId == m.calls[i - 1].id
    {
      assert s[i] == SentShapeOf(messages[i]);
      assert s[i] == Shape(Tool, [], s[0].asks[i - 1]);
    }
  }

  lemma {:induction false} OnlyAssistantsBehind(messages: seq<Sent>, n: nat)
    requires OnlyAssistantsSendCalls(messages) && 0 < n <= |messages|
    ensures OnlyAssistantsSendCalls(messages[n..])
    ensures messages[0].calls != [] ==> messages[0].role == Assistant
  {
  }

  lemma {:induction false} ConvertNothing(parse: Parser, turns: seq<ClaudeTurn>, messages: seq<Sent>)
    requires messages == []
    ensures ConvertFrom(parse, turns, messages) == turns
  {
  }

  lemma {:induction false} ConvertKeeps(parse: Parser, turns: seq<ClaudeTurn>, messages: seq<Sent>)
    requires Paired(SentShapes(messages)) && OnlyAssistantsSendCalls(messages)
    requires IsClaudeConversation(turns)
    ensures IsClaudeConversation(ConvertFrom(parse, turns, messages))
    decreases |messages|
  {
    hide IsClaudeConversation, Paired, SentShapes, BlocksOf, Push, OnlyAssistantsSendCalls, ResultBlocks;
    hide AnswersFirst, UseIds, ConvertFrom;
    if messages == [] {
      ConvertNothing(parse, turns, messages);
    } else {
      var m, n := messages[0], |messages[0].calls|;
      FirstRound(messages);
      OnlyAssistantsBehind(messages, 1 + n);
      var results, rest := messages[1..1 + n], messages[1 + n..];
      BlocksUseCalls(parse, m);
      RoundParts(messages, n);
      ConvertStep(parse, turns, m, results + rest);
      var asked := Push(turns, m.role, BlocksOf(parse, m));
      if n == 0 {
        PushKeepsConversation(turns, m.role, BlocksOf(parse, m), m.calls);
        ConvertKeeps(parse, asked, rest);
      } else {
        RoundKeeps(parse, turns, m, results);
        ResultsFollow(parse, asked, results, rest);
        ConvertKeeps(parse, asked + [ClaudeTurn(User, ResultBlocks(parse, results))], rest);
      }
    }
  }

  lemma {:induction false} RoundParts(messages: seq<Sent>, n: nat)
    requires n < |messages|
    ensures messages == [messages[0]] + (messages[1..1 + n] + messages[1 + n..])
    ensures n == 0 ==> messages[1..1 + n] + messages[1 + n..] == messages[1 + n..]
  {
  }

  lemma {:induction false} PushKeepsConversation(
    turns: seq<ClaudeTurn>, role: Role, blocks: seq<Block>, calls: seq<SentCall>)
    requires IsClaudeConversation(turns) && role != Tool && calls == []
    requires AnswersFirst(blocks, []) && UseIds(blocks) == SafeIds(calls)
    ensures IsClaudeConversation(Push(turns, role, blocks))
  {
    hide AnswersFirst, UseIds, Push;
    PushKeeps(turns, role, blocks);
  }

  lemma {:induction false} StartAnswers(turns: seq<ClaudeTurn>)
    requires Alternates(turns) && EachAnswers(turns) && (turns == [] || turns[0].role != User)
    ensures Alternates([HISTORY_START] + turns) && EachAnswers([HISTORY_START] + turns)
  {
    ResultsUseNothing(HISTORY_START.content);
    hide UseIds, AnswersFirst;
    var r := [HISTORY_START] + turns;
    forall i | 0 <= i < |r|
      ensures TurnAnswers(r, i)
    {
      if i > 0 {
        assert r[i] == turns[i - 1] && TurnAnswers(turns, i - 1);
        assert i > 1 ==> r[i - 1] == turns[i - 2];
      }
    }
  }

  lemma {:induction false} StartKeeps(turns: seq<ClaudeTurn>)
    requires IsClaudeConversation(turns)
    ensures IsClaudeConversation(WithStart(turns))
    ensures WithStart(turns)[0].role == User
  {
    hide Alternates, EachAnswers, UseIds;
    if turns == [] || turns[0].role != User {
      ResultsUseNothing(HISTORY_START.content);
      StartAnswers(turns);
    }
  }

  /** A valid provider conversation becomes strictly alternating turns, the user first, none
      empty, and each tool use answered at the head of the very next turn. */
  lemma {:induction false} ConvertedIsAnswered(parse: Parser, messages: seq<Sent>)
    requires Paired(SentShapes(messages)) && OnlyAssistantsSendCalls(messages)
    ensures IsClaudeConversation(Converted(parse, messages))
    ensures Converted(parse, messages)[0].role == User
  {
    ConvertKeeps(parse, [], messages);
    StartKeeps(ConvertFrom(parse, [], messages));
  }

  lemma {:induction false} ConvertEndsWithLast(parse: Parser, turns: seq<ClaudeTurn>, messages: seq<Sent>)
    requires messages != [] && BlocksOf(parse, messages[|messages| - 1]) != []
    ensures
      var r := ConvertFrom(parse, turns, messages);
      r != [] && r[|r| - 1].role == TurnRole(messages[|messages| - 1])
    decreases |messages|
  {
    hide BlocksOf, Push, ConvertFrom;
    var m, rest := messages[0], messages[1..];
    var pushed := Push(turns, TurnRole(m), BlocksOf(parse, m));
    assert messages == [m] + rest;
    ConvertStep(parse, turns, m, rest);
    if rest == [] {
      PushedIsLast(turns, TurnRole(m), BlocksOf(parse, m));
      ConvertNothing(parse, pushed, rest);
    } else {
      ConvertEndsWithLast(parse, pushed, rest);
    }
  }

  // ---- Nothing is lost or moved ----

  function AllBlocks(turns: seq<ClaudeTurn>): seq<Block>
  {
    if turns == [] then [] else AllBlocks(turns[..|turns| - 1]) + turns[|turns| - 1].content
  }

  function MessageBlocks(parse: Parser, messages: seq<Sent>): seq<Block>
  {
    if messages == [] then [] else BlocksOf(parse, messages[0]) + MessageBlocks(parse, messages[1..])
  }

  lemma {:induction false} AllBlocksConcat(a: seq<ClaudeTurn>, b: seq<ClaudeTurn>)
    ensures AllBlocks(a + b) == AllBlocks(a) + AllBlocks(b)
  {
    if b == [] {
      assert a + b == a;
    } else {
      AllBlocksConcat(a, b[..|b| - 1]);
      assert (a + b)[..|a + b| - 1] == a + b[..|b| - 1];
    }
  }

  lemma {:induction false} PushKeepsBlocks(turns: seq<ClaudeTurn>, role: Role, blocks: seq<Block>)
    ensures AllBlocks(Push(turns, role, blocks)) == AllBlocks(turns) + blocks
  {
    var pushed := Push(turns, role, blocks);
    if pushed != turns {
      assert pushed[..|pushed| - 1] == if |pushed| == |turns| then turns[..|turns| - 1] else turns;
    }
  }

  lemma {:induction false} ConvertKeepsBlocks(parse: Parser, turns: seq<ClaudeTurn>, messages: seq<Sent>)
    ensures AllBlocks(ConvertFrom(parse, turns, messages)) == AllBlocks(turns) + MessageBlocks(parse, messages)
    decreases |messages|
  {
    if messages != [] {
      var m := messages[0];
      var pushed := Push(turns, TurnRole(m), BlocksOf(parse, m));
      PushKeepsBlocks(turns, TurnRole(m), BlocksOf(parse, m));
      hide AllBlocks, BlocksOf, Push;
      ConvertKeepsBlocks(parse, pushed, messages[1..]);
    }
  }

  /** Every block of every message is sent, in order, after at most the opening note. */
  lemma {:induction false} ConvertedKeepsBlocks(parse: Parser, messages: seq<Sent>)
    ensures
      var blocks := AllBlocks(Converted(parse, messages));
      var given := MessageBlocks(parse, messages);
      blocks == given || blocks == HISTORY_START.content + given
  {
    hide ConvertFrom, MessageBlocks;
    ConvertKeepsBlocks(parse, [], messages);
    var turns := ConvertFrom(parse, [], messages);
    AllBlocksConcat([HISTORY_START], turns);
    assert [HISTORY_START][..0] == [];
  }
}
