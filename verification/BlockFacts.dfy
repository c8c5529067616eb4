/** What Claude is told, block by block: which text, result or call each message comes out as,
    where, and in whose turn. */
module BlockFacts {
  import opened Text
  import opened Conversation
  import opened Claude
  import ClaudeFacts

  /** A block, and the role of the turn it is in. */
  datatype Said = Said(role: Role, block: Block)

  function SaidBy(role: Role, blocks: seq<Block>): seq<Said>
  {
    seq(|blocks|, i requires 0 <= i < |blocks| => Said(role, blocks[i]))
  }

  /** All blocks of a conversation, in order. */
  function AllSaid(turns: seq<ClaudeTurn>): seq<Said>
  {
    if turns == [] then []
    else
      var last := turns[|turns| - 1];
      AllSaid(turns[..|turns| - 1]) + SaidBy(last.role, last.content)
  }

  // ---- What a message is to say ----

  /** How many blocks these messages are: one for a result, and otherwise one for a text that is
      not blank and one for each call. */
  function BlockCount(messages: seq<Sent>): nat
  {
    if messages == [] then 0
    else
      var m := messages[0];
      (if m.role == Tool then 1 else (if IsBlank(m.content) then 0 else 1) + |m.calls|) + BlockCount(messages[1..])
  }

  predicate IsIdChar(c: char)
  {
    'a' <= c <= 'z' || 'A' <= c <= 'Z' || '0' <= c <= '9' || c == '_' || c == '-'
  }

  /** The same name with an underscore for every character that Claude does not take in one. */
  predicate IsSafe(safe: string, name: string)
  {
    && |safe| == |name|
    && forall i | 0 <= i < |name| :: safe[i] == if IsIdChar(name[i]) then name[i] else '_'
  }

  predicate IsResultOf(block: Block, m: Sent)
  {
    && block.ToolResult? && IsSafe(block.toolUseId, m.callId)
    && block.content == if m.content == "" then "(no output)" else m.content
  }

  predicate IsUseOf(parse: Parser, block: Block, call: SentCall)
  {
    && block.ToolUse? && IsSafe(block.id, call.id) && IsSafe(block.name, call.name)
    && block.input == parse(if call.arguments == "" then "{}" else call.arguments)
  }

  /** All that a message says: its result in the user's turn, or its text and behind it its
      calls in its own. */
  predicate IsSaid(parse: Parser, said: seq<Said>, m: Sent)
  {
    if m.role == Tool then |said| == 1 && said[0].role == User && IsResultOf(said[0].block, m)
    else
      var calls := if IsBlank(m.content) then 0 else 1;
      && |said| == calls + |m.calls|
      && (calls == 1 ==> said[0] == Said(m.role, TextBlock(m.content)))
      && forall i | calls <= i < |said| ::
           said[i].role == m.role && IsUseOf(parse, said[i].block, m.calls[i - calls])
  }

  // ---- That it is said ----

  function SaidOf(parse: Parser, messages: seq<Sent>): seq<Said>
  {
    if messages == [] then []
    else SaidBy(TurnRole(messages[0]), BlocksOf(parse, messages[0])) + SaidOf(parse, messages[1..])
  }

  lemma {:induction false} SaidConcat(a: seq<ClaudeTurn>, b: seq<ClaudeTurn>)
    ensures AllSaid(a + b) == AllSaid(a) + AllSaid(b)
  {
    hide SaidBy;
    if b == [] {
      assert a + b == a;
    } else {
      var n := |b| - 1;
      SaidConcat(a, b[..n]);
      assert (a + b)[..|a| + n] == a + b[..n];
      Associative(AllSaid(a), AllSaid(b[..n]), SaidBy(b[n].role, b[n].content));
    }
  }

  lemma {:induction false} PushSays(turns: seq<ClaudeTurn>, role: Role, blocks: seq<Block>)
    ensures AllSaid(Push(turns, role, blocks)) == AllSaid(turns) + SaidBy(role, blocks)
  {
    var pushed, last := Push(turns, role, blocks), |turns| - 1;
    if blocks == [] {
    } else if turns != [] && turns[last].role == role {
      assert pushed[..last] == turns[..last];
      assert SaidBy(role, turns[last].content + blocks) == SaidBy(role, turns[last].content) + SaidBy(role, blocks);
    } else {
      assert pushed[..|turns|] == turns;
    }
  }

  lemma {:induction false} ConvertSays(parse: Parser, turns: seq<ClaudeTurn>, messages: seq<Sent>)
    ensures AllSaid(ConvertFrom(parse, turns, messages)) == AllSaid(turns) + SaidOf(parse, messages)
    decreases |messages|
  {
    if messages != [] {
      var m := messages[0];
      var pushed := Push(turns, TurnRole(m), BlocksOf(parse, m));
      PushSays(turns, TurnRole(m), BlocksOf(parse, m));
      hide AllSaid, BlocksOf, Push, SaidBy;
      ConvertSays(parse, pushed, messages[1..]);
      Associative(AllSaid(turns), SaidBy(TurnRole(m), BlocksOf(parse, m)), SaidOf(parse, messages[1..]));
    }
  }

  lemma {:induction false} UsesInOrder(parse: Parser, calls: seq<SentCall>)
    ensures |UsesOf(parse, calls)| == |calls|
    ensures forall k | 0 <= k < |calls| :: IsUseOf(parse, UsesOf(parse, calls)[k], calls[k])
  {
    if calls != [] {
      UsesInOrder(parse, calls[..|calls| - 1]);
    }
  }

  lemma {:induction false} MessageIsSaid(parse: Parser, m: Sent)
    ensures IsSaid(parse, SaidBy(TurnRole(m), BlocksOf(parse, m)), m)
    ensures |BlocksOf(parse, m)| == BlockCount([m])
  {
    UsesInOrder(parse, m.calls);
    hide UsesOf, IsUseOf;
    assert BlockCount([m][1..]) == 0;
  }

  lemma {:induction false} CountConcat(a: seq<Sent>, b: seq<Sent>)
    ensures BlockCount(a + b) == BlockCount(a) + BlockCount(b)
  {
    if a == [] {
      assert a + b == b;
    } else {
      TailOfConcat(a, b);
      CountConcat(a[1..], b);
    }
  }

  lemma {:induction false} SaidOfCount(parse: Parser, messages: seq<Sent>)
    ensures |SaidOf(parse, messages)| == BlockCount(messages)
  {
    if messages != [] {
      var m, rest := messages[0], messages[1..];
      hide BlocksOf, BlockCount;
      MessageIsSaid(parse, m);
      SaidOfCount(parse, rest);
      CountConcat([m], rest);
      assert messages == [m] + rest;
    } else {
      assert messages == [];
    }
  }

  /** The blocks of one message among those of all. */
  lemma {:induction false} SaidOfMessage(parse: Parser, messages: seq<Sent>, i: nat)
    requires i < |messages|
    ensures
      var at, end := BlockCount(messages[..i]), BlockCount(messages[..i + 1]);
      && at <= end <= |SaidOf(parse, messages)|
      && IsSaid(parse, SaidOf(parse, messages)[at..end], messages[i])
  {
    hide IsSaid, BlocksOf, BlockCount;
    var m, rest := messages[0], messages[1..];
    var first, later := SaidBy(TurnRole(m), BlocksOf(parse, m)), SaidOf(parse, rest);
    MessageIsSaid(parse, m);
    AtConcat(first, later);
    if i == 0 {
      NoBlocks(messages[..0]);
      assert messages[..1] == [m];
      assert first == (first + later)[0..|first|];
    } else {
      SaidOfMessage(parse, rest, i - 1);
      assert messages[..i] == [m] + rest[..i - 1] && messages[..i + 1] == [m] + rest[..i];
      CountConcat([m], rest[..i - 1]);
      CountConcat([m], rest[..i]);
      SliceLater(first, later, BlockCount(rest[..i - 1]), BlockCount(rest[..i]));
    }
  }

  lemma {:induction false} NoBlocks(messages: seq<Sent>)
    requires messages == []
    ensures BlockCount(messages) == 0
  {
  }

  // ---- The note at the start ----

  /** Nobody says anything, or the first to speak is the assistant. */
  ghost predicate StartIsMissing(messages: seq<Sent>)
  {
    || BlockCount(messages) == 0
    || exists i | 0 <= i < |messages| :: IsFirstToSpeak(messages, i) && messages[i].role == Assistant
  }

  predicate IsFirstToSpeak(messages: seq<Sent>, i: nat)
  {
    i < |messages| && BlockCount(messages[..i]) == 0 && BlockCount(messages[..i + 1]) > 0
  }

  lemma {:induction false} SomeoneIsFirst(messages: seq<Sent>) returns (i: nat)
    requires BlockCount(messages) > 0
    ensures IsFirstToSpeak(messages, i)
  {
    var n := |messages| - 1;
    assert messages[..n + 1] == messages;
    if BlockCount(messages[..n]) > 0 {
      i := SomeoneIsFirst(messages[..n]);
      assert messages[..n][..i] == messages[..i] && messages[..n][..i + 1] == messages[..i + 1];
    } else {
      i := n;
    }
  }

  lemma {:induction false} CountGrows(messages: seq<Sent>, i: nat, j: nat)
    requires i <= j <= |messages|
    ensures BlockCount(messages[..i]) <= BlockCount(messages[..j])
  {
    assert messages[..j] == messages[..i] + messages[i..j];
    CountConcat(messages[..i], messages[i..j]);
  }

  lemma {:induction false} FirstToSpeak(parse: Parser, messages: seq<Sent>, i: nat)
    requires IsFirstToSpeak(messages, i)
    ensures SaidOf(parse, messages) != []
    ensures SaidOf(parse, messages)[0].role == TurnRole(messages[i])
    ensures StartIsMissing(messages) <==> messages[i].role == Assistant
  {
    hide BlockCount, IsUseOf, IsResultOf, SaidOf;
    SaidOfMessage(parse, messages, i);
    var end := BlockCount(messages[..i + 1]);
    assert SaidOf(parse, messages)[0] == SaidOf(parse, messages)[0..end][0];
    CountGrows(messages, i + 1, |messages|);
    assert messages[..|messages|] == messages;
    forall k | 0 <= k < |messages| && IsFirstToSpeak(messages, k)
      ensures k == i
    {
      OneIsFirst(messages, i, k);
    }
  }

  lemma {:induction false} OneIsFirst(messages: seq<Sent>, i: nat, k: nat)
    requires IsFirstToSpeak(messages, i) && IsFirstToSpeak(messages, k)
    ensures i == k
  {
    hide BlockCount;
    if k < i {
      CountGrows(messages, k + 1, i);
    } else if i < k {
      CountGrows(messages, i + 1, k);
    }
  }

  lemma {:induction false} FirstTurnSpeaks(turns: seq<ClaudeTurn>)
    requires forall k | 0 <= k < |turns| :: turns[k].content != []
    ensures turns == [] <==> AllSaid(turns) == []
    ensures turns != [] ==> AllSaid(turns)[0].role == turns[0].role
  {
    if |turns| > 1 {
      FirstTurnSpeaks(turns[..|turns| - 1]);
    } else if |turns| == 1 {
      assert turns[..0] == [];
      assert AllSaid(turns) == SaidBy(turns[0].role, turns[0].content);
    }
  }

  /** Claude is told all blocks of all messages and nothing else, but for the note in front that
      the start was left out, which is there exactly when the start is missing. */
  lemma {:induction false} NoteIsSaidExactly(parse: Parser, messages: seq<Sent>)
    ensures
      var said := AllSaid(Converted(parse, messages));
      var note := [Said(User, TextBlock("(The start of this conversation was left out.)"))];
      said == (if StartIsMissing(messages) then note else []) + SaidOf(parse, messages)
  {
    hide ConvertFrom, SaidOf, BlockCount;
    var turns := ConvertFrom(parse, [], messages);
    ConvertSays(parse, [], messages);
    ClaudeFacts.ConvertAlternates(parse, [], messages);
    FirstTurnSpeaks(turns);
    SaidConcat([HISTORY_START], turns);
    assert [HISTORY_START][..0] == [];
    SaidOfCount(parse, messages);
    if BlockCount(messages) > 0 {
      var i := SomeoneIsFirst(messages);
      FirstToSpeak(parse, messages, i);
    }
  }

  // ---- Message by message ----

  /** Every message of a conversation is said in its own place, behind those before it: results
      with their own contents or a stand-in for an empty one, texts that are not blank, and calls
      with their own names and arguments, each in the turn of its role. */
  lemma {:induction false} MessageIsSaidInPlace(parse: Parser, messages: seq<Sent>, i: nat)
    requires i < |messages|
    ensures
      var said := AllSaid(Converted(parse, messages));
      var start := if StartIsMissing(messages) then 1 else 0;
      var at, end := start + BlockCount(messages[..i]), start + BlockCount(messages[..i + 1]);
      && |said| == start + BlockCount(messages)
      && at <= end <= |said|
      && IsSaid(parse, said[at..end], messages[i])
  {
    hide Converted, IsSaid, BlockCount, StartIsMissing;
    NoteIsSaidExactly(parse, messages);
    SaidOfMessage(parse, messages, i);
    SaidOfCount(parse, messages);
    var note := [Said(User, TextBlock("(The start of this conversation was left out.)"))];
    SliceLater(if StartIsMissing(messages) then note else [], SaidOf(parse, messages),
               BlockCount(messages[..i]), BlockCount(messages[..i + 1]));
  }
}
