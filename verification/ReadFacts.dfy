/** The promised file read: when the context block says that the open file's content is in a
    read_file result below, whether it is. */
module ReadFacts {
  import opened Text
  import opened Conversation
  import opened Turns
  import opened Render
  import opened RenderFacts
  import SentFacts

  /** Call `j` of `messages[p]` is one that is answered in its place behind it. */
  predicate IsCallAt(messages: seq<Message>, p: nat, j: nat)
  {
    p < |messages| && messages[p].role != Tool && j < |messages[p].calls|
  }

  /** Call `j` of `messages[p]` read `path`, and its own result says that it worked. */
  ghost predicate IsAnsweredRead(messages: seq<Message>, p: nat, j: nat, path: string)
  {
    && IsCallAt(messages, p, j) && p + 1 + j < |messages|
    && IsReadOf(messages[p].calls[j], path)
    && var result := messages[p + 1 + j];
       result.role == Tool && !result.isError && result.callId == messages[p].calls[j].id
  }

  ghost predicate HasAnsweredRead(messages: seq<Message>, path: string)
  {
    exists p: nat, j: nat :: IsAnsweredRead(messages, p, j, path)
  }

  /** No answered call that is not a read of `path` has the id of a call that is one. */
  ghost predicate IdsTellReads(messages: seq<Message>, path: string)
  {
    forall p: nat, j: nat | IsCallAt(messages, p, j) && ReadsUnderId(messages, messages[p].calls[j].id, path) ::
      IsReadOf(messages[p].calls[j], path)
  }

  // ---- The newest round ----

  lemma {:induction false} LastToolRoundShifts(m: Message, rest: seq<Message>)
    requires m.role == User
    ensures LastToolRound([m] + rest) == if LastToolRound(rest) == -1 then -1 else LastToolRound(rest) + 1
  {
    var turn := [m] + rest;
    if rest == [] {
      assert turn[..0] == [];
    } else {
      assert turn[..|turn| - 1] == [m] + rest[..|rest| - 1];
      LastToolRoundShifts(m, rest[..|rest| - 1]);
    }
  }

  /** The check runs on the whole turn and the renderer on the turn without its user message.
      Both set a result the same limit. */
  lemma {:induction false} LimitsAgree(turn: Turn, at: nat, limits: Limits)
    requires IsUserTurn(turn) && 1 <= at < |turn|
    ensures ToolLimit(at - 1, LastToolRound(turn[1..]), true, limits) ==
            ToolLimit(at, LastToolRound(turn), true, limits)
  {
    assert turn == [turn[0]] + turn[1..];
    LastToolRoundShifts(turn[0], turn[1..]);
  }

  // ---- What the check finds ----

  /** The argument named "path" is this one. */
  ghost predicate NamesPath(arguments: seq<Argument>, path: string)
  {
    exists a | 0 <= a < |arguments| ::
      && arguments[a] == Argument("path", Str(path))
      && forall b | 0 <= b < a :: arguments[b].key != "path"
  }

  /** Message `q` is a result that worked and is sent uncut, under the id of a call that reads
      the path. */
  ghost predicate IsReadUncut(turn: Turn, p: nat, j: nat, q: nat, path: string, limits: Limits)
  {
    && p < |turn| && j < |turn[p].calls| && q < |turn|
    && turn[p].calls[j].name == "read_file" && NamesPath(turn[p].calls[j].arguments, path)
    && turn[q].role == Tool && !turn[q].isError && turn[q].callId == turn[p].calls[j].id
    && |turn[q].content| <= SentFacts.ResultLimit(turn, q, true, limits)
  }

  lemma {:induction false} LookupNames(arguments: seq<Argument>, path: string)
    ensures Lookup(arguments, "path") == Some(Str(path)) <==> NamesPath(arguments, path)
  {
    if arguments != [] {
      var rest := arguments[1..];
      LookupNames(rest, path);
      if arguments[0].key != "path" {
        if a :| 0 <= a < |rest| && rest[a] == Argument("path", Str(path))
                && forall b | 0 <= b < a :: rest[b].key != "path" {
          assert arguments[a + 1] == rest[a] && forall b | 1 <= b < a + 1 :: arguments[b] == rest[b - 1];
        }
        if a :| 0 <= a < |arguments| && arguments[a] == Argument("path", Str(path))
                && forall b | 0 <= b < a :: arguments[b].key != "path" {
          assert rest[a - 1] == arguments[a] && forall b | 0 <= b < a - 1 :: rest[b] == arguments[b + 1];
        }
      }
    }
  }

  lemma {:induction false} LimitIsResultLimit(turn: Turn, q: nat, limits: Limits)
    requires q < |turn| && turn[q].role == Tool
    ensures ToolLimit(q, LastToolRound(turn), true, limits) == SentFacts.ResultLimit(turn, q, true, limits)
  {
    SentFacts.NewestRoundIs(turn, q);
  }

  /** The check finds just that: a result that worked and is sent uncut, under a read's id. */
  lemma {:induction false} WholeReadIsFoundExactly(turn: Turn, path: string, limits: Limits)
    ensures HasWholeRead(turn, path, limits) <==>
            exists p: nat, j: nat, q: nat :: IsReadUncut(turn, p, j, q, path, limits)
  {
    hide Lookup, NamesPath, ToolLimit, LastToolRound;
    forall p: nat, j: nat | p < |turn| && j < |turn[p].calls|
      ensures
        var arguments := turn[p].calls[j].arguments;
        Lookup(arguments, "path") == Some(Str(path)) <==> NamesPath(arguments, path)
    {
      LookupNames(turn[p].calls[j].arguments, path);
    }
    forall q: nat | q < |turn| && turn[q].role == Tool {
      LimitIsResultLimit(turn, q, limits);
    }
    if q: nat :| q < |turn| && IsWholeRead(turn, q, path, limits) {
      var p: nat :| p < |turn| && exists k | 0 <= k < |turn[p].calls| ::
        turn[p].calls[k].id == turn[q].callId && IsReadOf(turn[p].calls[k], path);
      var j: nat :| j < |turn[p].calls| && turn[p].calls[j].id == turn[q].callId && IsReadOf(turn[p].calls[j], path);
      assert IsReadUncut(turn, p, j, q, path, limits);
    }
    if p: nat, j: nat, q: nat :| IsReadUncut(turn, p, j, q, path, limits) {
      assert IsWholeRead(turn, q, path, limits);
    }
  }

  // ---- When the check can be trusted ----

  /** The call a result of a paired turn stands behind. */
  lemma {:induction false} ResultAnswersCall(turn: Turn, q: nat) returns (p: nat, j: nat)
    requires IsUserTurn(turn)
    requires q < |turn| && turn[q].role == Tool
    ensures IsCallAt(turn, p, j) && q == p + 1 + j && turn[p].calls[j].id == turn[q].callId
  {
    p, j := ResultHasRound(Shapes(turn), q);
    assert Shapes(turn)[p] == ShapeOf(turn[p]) && Shapes(turn)[q] == ShapeOf(turn[q]);
  }

  /** The result of a call, in its place. */
  lemma {:induction false} CallHasResult(turn: Turn, p: nat, j: nat)
    requires IsUserTurn(turn) && IsCallAt(turn, p, j)
    ensures p + 1 + j < |turn|
    ensures forall q | p < q <= p + 1 + j :: turn[q].role == Tool
    ensures turn[p + 1 + j].callId == turn[p].calls[j].id
  {
    hide Paired;
    var s := Shapes(turn);
    RoundAt(s, p);
    assert s[p] == ShapeOf(turn[p]);
    forall q | p < q <= p + 1 + j
      ensures turn[q].role == Tool && turn[q].callId == turn[p].calls[q - p - 1].id
    {
      assert s[q] == ShapeOf(turn[q]);
    }
  }

  /** A result stands behind one call only. */
  lemma {:induction false} OneCallForEach(turn: Turn, p: nat, j: nat, p': nat, j': nat)
    requires IsUserTurn(turn) && IsCallAt(turn, p, j) && IsCallAt(turn, p', j') && p + 1 + j == p' + 1 + j'
    ensures p == p' && j == j'
  {
    hide IsUserTurn;
    CallHasResult(turn, p, j);
    CallHasResult(turn, p', j');
  }

  /** When ids tell reads, a read found whole is the answered read it is taken for. */
  lemma {:induction false} FoundReadIsAnswered(turn: Turn, at: nat, path: string) returns (p: nat, j: nat)
    requires IsUserTurn(turn) && IdsTellReads(turn, path)
    requires at < |turn| && turn[at].role == Tool && !turn[at].isError
    requires ReadsUnderId(turn, turn[at].callId, path)
    ensures at == p + 1 + j && IsAnsweredRead(turn, p, j, path)
  {
    hide IsUserTurn, ReadsUnderId, IsReadOf;
    p, j := ResultAnswersCall(turn, at);
  }

  // ---- When it can not ----

  /** The same turn but for what its results say. */
  ghost predicate SameButResults(turn: Turn, other: Turn)
  {
    && |other| == |turn|
    && forall i | 0 <= i < |turn| ::
         || other[i] == turn[i]
         || (turn[i].role == Tool && other[i] == turn[i].(content := other[i].content, isError := other[i].isError))
  }

  ghost predicate IsReadResult(turn: Turn, q: nat, path: string)
  {
    exists p: nat, j: nat :: IsCallAt(turn, p, j) && q == p + 1 + j && IsReadOf(turn[p].calls[j], path)
  }

  /** The turn in which every read of `path` fails, and every other call works. */
  ghost function WithFailedReads(turn: Turn, path: string): Turn
  {
    seq(|turn|, i requires 0 <= i < |turn| =>
      if turn[i].role == Tool then turn[i].(content := "", isError := IsReadResult(turn, i, path)) else turn[i])
  }

  lemma {:induction false} SameIsUserTurn(turn: Turn, other: Turn, path: string)
    requires IsUserTurn(turn) && SameButResults(turn, other)
    ensures IsUserTurn(other)
    ensures IdsTellReads(turn, path) ==> IdsTellReads(other, path)
  {
    assert Shapes(other) == Shapes(turn);
    hide Paired;
    assert forall id :: ReadsUnderId(other, id, path) ==> ReadsUnderId(turn, id, path);
    hide ReadsUnderId, IsReadOf;
    assert forall p: nat, j: nat :: IsCallAt(other, p, j) ==> IsCallAt(turn, p, j) && other[p] == turn[p];
  }

  lemma {:induction false} FailedReadsAreNotAnswered(turn: Turn, path: string)
    ensures !HasAnsweredRead(WithFailedReads(turn, path), path)
  {
    hide IsReadOf;
    var other := WithFailedReads(turn, path);
    forall p: nat, j: nat
      ensures !IsAnsweredRead(other, p, j, path)
    {
    }
  }

  /** A call that shares a read's id passes for it. */
  lemma {:induction false} SharedIdIsFound(turn: Turn, p: nat, j: nat, path: string, limits: Limits)
    requires IsUserTurn(turn) && IsCallAt(turn, p, j)
    requires ReadsUnderId(turn, turn[p].calls[j].id, path) && !IsReadOf(turn[p].calls[j], path)
    ensures HasWholeRead(WithFailedReads(turn, path), path, limits)
  {
    hide IsUserTurn, IsReadOf;
    CallHasResult(turn, p, j);
    var other, q := WithFailedReads(turn, path), p + 1 + j;
    if IsReadResult(turn, q, path) {
      var p': nat, j': nat :| IsCallAt(turn, p', j') && q == p' + 1 + j' && IsReadOf(turn[p'].calls[j'], path);
      OneCallForEach(turn, p, j, p', j');
    }
    assert forall i | 0 <= i < |turn| :: other[i].calls == turn[i].calls;
    assert ReadsUnderId(other, other[q].callId, path);
    assert IsWholeRead(other, q, path, limits);
  }

  /** The check tells the truth, whatever the results of the turn turn out to say, if and only
      if no answered call that is not a read of the file shares an id with one that is. */
  lemma {:induction false} ReadCheckIsTrueExactly(turn: Turn, path: string, limits: Limits)
    requires IsUserTurn(turn)
    ensures IdsTellReads(turn, path) <==>
            forall other | SameButResults(turn, other) && HasWholeRead(other, path, limits) ::
              HasAnsweredRead(other, path)
  {
    hide IsUserTurn, ReadsUnderId, IsReadOf;
    if IdsTellReads(turn, path) {
      forall other | SameButResults(turn, other) && HasWholeRead(other, path, limits)
        ensures HasAnsweredRead(other, path)
      {
        SameIsUserTurn(turn, other, path);
        var at: nat :| at < |other| && IsWholeRead(other, at, path, limits);
        var p, j := FoundReadIsAnswered(other, at, path);
      }
    } else {
      var p: nat, j: nat :| IsCallAt(turn, p, j) && ReadsUnderId(turn, turn[p].calls[j].id, path)
                            && !IsReadOf(turn[p].calls[j], path);
      SharedIdIsFound(turn, p, j, path, limits);
      FailedReadsAreNotAnswered(turn, path);
      assert SameButResults(turn, WithFailedReads(turn, path));
    }
  }

  // ---- In the conversation sent ----

  /** A result within its limit is sent as it came. */
  lemma {:induction false} WithinLimitIsSentWhole(w: Wording, rest: seq<Message>, q: nat, limits: Limits)
    requires NoUsers(rest) && q < |rest| && rest[q].role == Tool && !rest[q].isError
    requires |rest[q].content| <= ToolLimit(q, LastToolRound(rest), true, limits)
    ensures q < |Entries(w, Agent, rest, |rest|, true, limits)|
    ensures Entries(w, Agent, rest, |rest|, true, limits)[q] == Sent(Tool, rest[q].content, [], rest[q].callId)
  {
    EntriesOneToOne(w, Agent, rest, |rest|, true, limits);
  }

  lemma {:induction false} FollowingIsSent(w: Wording, page: Page, q: nat)
    requires IsRenderable(page.turns) && page.turns[|page.turns| - 1][0].role == User
    requires
      var rest := page.turns[|page.turns| - 1][1..];
      q < |Entries(w, page.mode, rest, |rest|, true, page.limits)|
    ensures
      var rest := page.turns[|page.turns| - 1][1..];
      var at := CurrentAt(w, page) + 1 + q;
      && at < |SentPage(w, page)|
      && SentPage(w, page)[at] == Entries(w, page.mode, rest, |rest|, true, page.limits)[q]
  {
    CurrentTurnIsSent(w, page);
    var sent, at := SentPage(w, page), CurrentAt(w, page);
    assert sent[at + 1..][q] == sent[at + 1 + q];
  }

  lemma {:induction false} WholeReadIsOnPage(w: Wording, page: Page, path: string) returns (p: nat, j: nat)
    requires IsRenderable(page.turns) && page.mode == Agent
    requires
      var turn := page.turns[|page.turns| - 1];
      IsUserTurn(turn) && IdsTellReads(turn, path) && HasWholeRead(turn, path, page.limits)
    ensures
      var turn := page.turns[|page.turns| - 1];
      var q := p + 1 + j;
      var at := CurrentAt(w, page) + q;
      && IsAnsweredRead(turn, p, j, path)
      && at < |SentPage(w, page)|
      && SentPage(w, page)[at] == Sent(Tool, turn[q].content, [], turn[q].callId)
  {
    hide Paired, IdsTellReads, ReadsUnderId, IsReadOf, Entries, SentPage, CurrentAt, ToolLimit, LastToolRound;
    var turn := page.turns[|page.turns| - 1];
    var found: nat :| found < |turn| && IsWholeRead(turn, found, path, page.limits);
    p, j := FoundReadIsAnswered(turn, found, path);
    LimitsAgree(turn, found, page.limits);
    assert turn[1..][found - 1] == turn[found];
    WithinLimitIsSentWhole(w, turn[1..], found - 1, page.limits);
    FollowingIsSent(w, page, found - 1);
  }

  /** When the context block points at a read below instead of giving the open file, the sent
      conversation holds that read's whole content after the user's message. */
  lemma {:induction false} PointedReadIsSent(w: Wording, req: Request, a: Attempt) returns (p: nat, j: nat)
    requires IsRenderable(a.turns) && req.mode == Agent && req.context.openFile.Some?
    requires
      var turn, path := CurrentTurn(a), req.context.openFile.value.name;
      IsUserTurn(turn) && IdsTellReads(turn, path) && HasWholeRead(turn, path, a.limits)
    ensures
      var turn, messages := CurrentTurn(a), Rendering(w, req, a).messages;
      var q := p + 1 + j;
      var at := CurrentAt(w, PageOf(w, req, a)) + q;
      && IsAnsweredRead(turn, p, j, req.context.openFile.value.name)
      && at < |messages|
      && messages[at] == Sent(Tool, turn[q].content, [], turn[q].callId)
  {
    hide CurrentUserText, SentFile, HasWholeRead, IsUserTurn, IdsTellReads, IsAnsweredRead;
    p, j := WholeReadIsOnPage(w, PageOf(w, req, a), req.context.openFile.value.name);
  }

  // ---- From the messages given ----

  /** Every calling message of `some` calls just what one of `messages` calls. */
  ghost predicate CallsAreFrom(some: seq<Message>, messages: seq<Message>)
  {
    forall m | m in some && m.calls != [] ::
      exists given :: given in messages && given.calls == m.calls && (given.role == Tool <==> m.role == Tool)
  }

  lemma {:induction false} ReadsAreFrom(some: seq<Message>, messages: seq<Message>, id: string, path: string)
    requires CallsAreFrom(some, messages) && ReadsUnderId(some, id, path)
    ensures ReadsUnderId(messages, id, path)
  {
    var p :| 0 <= p < |some|
      && exists k | 0 <= k < |some[p].calls| :: some[p].calls[k].id == id && IsReadOf(some[p].calls[k], path);
    hide IsReadOf;
    assert some[p] in some;
    var given :| given in messages && given.calls == some[p].calls;
    var i :| 0 <= i < |messages| && messages[i] == given;
    assert messages[i].calls == some[p].calls;
  }

  /** What ids tell of the messages given, they tell of any turn made of them. */
  lemma {:induction false} IdsStillTellReads(some: seq<Message>, messages: seq<Message>, path: string)
    requires CallsAreFrom(some, messages) && IdsTellReads(messages, path)
    ensures IdsTellReads(some, path)
  {
    hide ReadsUnderId, IsReadOf;
    forall p: nat, j: nat | IsCallAt(some, p, j) && ReadsUnderId(some, some[p].calls[j].id, path)
      ensures IsReadOf(some[p].calls[j], path)
    {
      ReadsAreFrom(some, messages, some[p].calls[j].id, path);
      assert some[p] in some;
      var given :| given in messages && given.calls == some[p].calls && (given.role == Tool <==> some[p].role == Tool);
      var i :| 0 <= i < |messages| && messages[i] == given;
      assert IsCallAt(messages, i, j);
    }
  }

  lemma {:induction false} CallsAreFromOnward(a: seq<Message>, b: seq<Message>, c: seq<Message>)
    requires CallsAreFrom(a, b) && CallsAreFrom(b, c)
    ensures CallsAreFrom(a, c)
  {
  }

}
