/** What holds of every rendered attempt: its characters add up, its calls stay paired, the
    user's text stays whole, and a promised file read is really there. */
module RenderFacts {
  import opened Text
  import opened Conversation
  import opened HistoryRepair
  import opened Turns
  import opened Render

  // ---- Accounting ----

  lemma {:induction false} SentCharsConcat(a: seq<Sent>, b: seq<Sent>)
    ensures SentChars(a + b) == SentChars(a) + SentChars(b)
  {
    if b == [] {
      assert a + b == a;
    } else {
      SentCharsConcat(a, b[..|b| - 1]);
      assert (a + b)[..|a + b| - 1] == a + b[..|b| - 1];
    }
  }

  ghost predicate OnlyAssistantsSendCalls(messages: seq<Sent>)
  {
    forall i | 0 <= i < |messages| :: messages[i].role != Assistant ==> messages[i].calls == []
  }

  lemma {:induction false} NothingSendsCalls()
    ensures OnlyAssistantsSendCalls([])
  {
  }

  lemma {:induction false} OnlyAssistantsConcat(a: seq<Sent>, b: seq<Sent>)
    requires OnlyAssistantsSendCalls(a) && OnlyAssistantsSendCalls(b)
    ensures OnlyAssistantsSendCalls(a + b)
  {
  }

  lemma {:induction false} EntriesCallsAreAssistants(
    w: Wording, mode: Mode, rest: seq<Message>, n: nat, isCurrent: bool, limits: Limits)
    requires n <= |rest|
    ensures OnlyAssistantsSendCalls(Entries(w, mode, rest, n, isCurrent, limits))
  {
    hide ToolEntry, FlatEntry;
    if n > 0 {
      EntriesCallsAreAssistants(w, mode, rest, n - 1, isCurrent, limits);
    }
  }

  lemma {:induction false} AddEntriesTotals(p: Parts, messages: seq<Sent>, isCurrent: bool)
    requires OnlyAssistantsSendCalls(messages)
    ensures p.AddEntries(messages, isCurrent).Total() == p.Total() + SentChars(messages)
    ensures p.NonNegative() ==> p.AddEntries(messages, isCurrent).NonNegative()
    decreases |messages|
  {
    if messages != [] {
      AddEntriesTotals(p, messages[..|messages| - 1], isCurrent);
    }
  }

  /** The current user message holds the file text and the user's text side by side. */
  lemma {:induction false} CurrentUserTextHolds(w: Wording, req: Request, turn: Turn, limits: Limits, dropped: nat)
    requires turn != []
    ensures |CurrentUserText(w, req, turn, limits, dropped)| >= |turn[0].content| + |SentFile(req, turn, limits)|
  {
    var lines := ContextLines(w, req, turn, limits);
    var file := |SentFile(req, turn, limits)|;
    JoinHoldsParts("\n", lines);
    if req.context.openFile.Some? {
      var before := 1 + (if req.context.files == [] then 0 else 1) + (if req.mentioned == [] then 0 else 1);
      assert lines[before] == OpenFileLine(w, req, turn, limits);
      PartWithinTotal(lines, before);
    }
    assert |ContextBlock(w, req, turn, limits)| >= file;
    var pieces := CurrentPieces(w, req, turn, limits, dropped);
    JoinHoldsParts("\n", pieces);
    TotalOfEnds(pieces);
  }

  lemma {:induction false} TotalOfEnds(parts: seq<string>)
    requires |parts| >= 2
    ensures TotalLength(parts) >= |parts[0]| + |parts[|parts| - 1]|
  {
    PartWithinTotal(parts[1..], |parts| - 2);
  }

  /** The page's user text has room for the user's own words and the file's. */
  ghost predicate HoldsItsTexts(page: Page)
    requires IsRenderable(page.turns)
  {
    |page.userText| >= |page.turns[|page.turns| - 1][0].content| + page.fileChars
  }

  /** Turn by turn, the six counters stay non-negative and add up to what was sent. */
  lemma {:induction false} TurnsAddUp(w: Wording, page: Page, n: nat)
    requires IsRenderable(page.turns) && n <= |page.turns| && HoldsItsTexts(page)
    ensures TurnsParts(w, page, n).NonNegative()
    ensures TurnsParts(w, page, n).Total() == SentChars(SentTurns(w, page, n))
  {
    if n > 0 {
      var k := n - 1;
      TurnsAddUp(w, page, k);
      var before := TurnsParts(w, page, k);
      OpeningAddsUp(before, page, k);
      FollowingAddsUp(AddOpening(before, page, k), w, page, k);
      SentCharsConcat(Opening(page, k), Following(w, page, k));
      SentCharsConcat(SentTurns(w, page, k), TurnSent(w, page, k));
    }
  }

  lemma {:induction false} OpeningAddsUp(p: Parts, page: Page, k: nat)
    requires IsRenderable(page.turns) && k < |page.turns| && HoldsItsTexts(page)
    ensures AddOpening(p, page, k).Total() == p.Total() + SentChars(Opening(page, k))
    ensures p.NonNegative() ==> AddOpening(p, page, k).NonNegative()
  {
    var opening := Opening(page, k);
    assert opening != [] ==> opening[..0] == [];
  }

  lemma {:induction false} FollowingAddsUp(p: Parts, w: Wording, page: Page, k: nat)
    requires IsRenderable(page.turns) && k < |page.turns|
    ensures
      var following := Following(w, page, k);
      var after := p.AddEntries(following, IsCurrent(page, k));
      && after.Total() == p.Total() + SentChars(following)
      && (p.NonNegative() ==> after.NonNegative())
  {
    var rest := RestOf(page.turns[k]);
    EntriesCallsAreAssistants(w, page.mode, rest, |rest|, IsCurrent(page, k), page.limits);
    AddEntriesTotals(p, Following(w, page, k), IsCurrent(page, k));
  }

  /** The six counters are non-negative and add up to the characters sent, in both modes,
      for every tier, and with the closing "Continue." counted. */
  lemma {:induction false} PartsAddUp(w: Wording, req: Request, a: Attempt)
    requires IsRenderable(a.turns)
    ensures Rendering(w, req, a).parts.NonNegative()
    ensures Rendering(w, req, a).parts.Total() == SentChars(Rendering(w, req, a).messages)
  {
    hide CurrentUserText, SentFile, SentTurns, TurnsParts, SentChars, Closing;
    var page := PageOf(w, req, a);
    var sent := SentTurns(w, page, |a.turns|);
    CurrentUserTextHolds(w, req, CurrentTurn(a), a.limits, a.dropped);
    TurnsAddUp(w, page, |a.turns|);
    SentCharsConcat(sent, Closing(sent));
  }

  // ---- Cuts ----

  /** On every tier a result is sent whole, or as its own start and end around the marker with
      exactly the limit kept: no tier sends the whole text twice over. */
  lemma {:induction false} TierCutsResults(
      tier: nat, position: int, lastRound: int, isCurrent: bool, text: string, note: string)
    requires tier < |TIERS|
    ensures
      var limit := ToolLimit(position, lastRound, isCurrent, TIERS[tier]);
      var cut := CutMiddle(text, limit, note);
      if |text| <= limit then cut == text
      else KeepsEnds(text, cut, CutMarker(|text| - limit, note), limit * 2 / 3, limit - limit * 2 / 3)
  {
    var limit := ToolLimit(position, lastRound, isCurrent, TIERS[tier]);
    if limit < |text| {
      CutMiddleKeepsLimit(text, limit, note);
    }
  }

  /** A cut open file is its own start and end around the marker of what was cut, with exactly
      the limit kept: it is cut only with a positive limit. */
  lemma {:induction false} OpenFileCutKeepsLimit(req: Request, turn: Turn, limits: Limits)
    requires req.context.openFile.Some? && SendsOpenFile(req, turn, limits)
    requires |req.context.openFile.value.content| > limits.openFile
    ensures
      var text := req.context.openFile.value.content;
      var marker := CutMarker(|text| - limits.openFile, OpenFileNote(req.mode));
      var head := limits.openFile * 2 / 3;
      KeepsEnds(text, SentFile(req, turn, limits), marker, head, limits.openFile - head)
  {
    hide KeepsEnds, HasWholeRead, CutMarker, CutMiddle, OpenFileNote;
    CutMiddleKeepsLimit(req.context.openFile.value.content, limits.openFile, OpenFileNote(req.mode));
  }

  // ---- Pairing ----

  ghost predicate NoUsers(rest: seq<Message>)
  {
    forall i | 0 <= i < |rest| :: rest[i].role != User
  }

  lemma {:induction false} EntriesOneToOne(
    w: Wording, mode: Mode, rest: seq<Message>, n: nat, isCurrent: bool, limits: Limits)
    requires n <= |rest| && NoUsers(rest)
    ensures |Entries(w, mode, rest, n, isCurrent, limits)| == n
    ensures forall i | 0 <= i < n ::
              Entries(w, mode, rest, n, isCurrent, limits)[i] == Entry(w, mode, rest, i, isCurrent, limits)
  {
    hide Entry;
    if n > 0 {
      EntriesOneToOne(w, mode, rest, n - 1, isCurrent, limits);
    }
  }

  /** Agent mode keeps every message of a turn, and who asks for what. */
  lemma {:induction false} AgentEntriesKeepShapes(w: Wording, rest: seq<Message>, isCurrent: bool, limits: Limits)
    requires NoUsers(rest)
    ensures SentShapes(Entries(w, Agent, rest, |rest|, isCurrent, limits)) == Shapes(rest)
  {
    hide ToolEntry, FlatEntry;
    var entries := Entries(w, Agent, rest, |rest|, isCurrent, limits);
    EntriesOneToOne(w, Agent, rest, |rest|, isCurrent, limits);
    forall i | 0 <= i < |rest|
      ensures SentShapeOf(entries[i]) == ShapeOf(rest[i])
    {
      assert entries[i] == Entry(w, Agent, rest, i, isCurrent, limits);
    }
  }

  ghost predicate NoTools(messages: seq<Sent>)
  {
    forall i | 0 <= i < |messages| :: messages[i].role != Tool && messages[i].calls == []
  }

  lemma {:induction false} NoToolsConcat(a: seq<Sent>, b: seq<Sent>)
    requires NoTools(a) && NoTools(b)
    ensures NoTools(a + b)
  {
  }

  lemma {:induction false} AskEntriesUseNoTools(w: Wording, rest: seq<Message>, n: nat, isCurrent: bool, limits: Limits)
    requires n <= |rest|
    ensures NoTools(Entries(w, Ask, rest, n, isCurrent, limits))
  {
    hide ToolEntry, FlatEntry;
    if n > 0 {
      AskEntriesUseNoTools(w, rest, n - 1, isCurrent, limits);
    }
  }

  lemma {:induction false} NoToolsIsPaired(messages: seq<Sent>)
    requires NoTools(messages)
    ensures Paired(SentShapes(messages))
  {
    if messages != [] {
      NoToolsIsPaired(messages[1..]);
      assert SentShapes(messages)[1..] == SentShapes(messages[1..]);
      assert SentShapes(messages)[0] == SentShapeOf(messages[0]);
    }
  }

  /** No user message that opens one of these turns carries calls. */
  ghost predicate OpenersMakeNoCalls(turns: seq<Turn>)
    requires AreTurns(turns)
  {
    forall k | 0 <= k < |turns| :: turns[k][0].role == User ==> turns[k][0].calls == []
  }

  lemma {:induction false} SentShapesConcat(a: seq<Sent>, b: seq<Sent>)
    ensures SentShapes(a + b) == SentShapes(a) + SentShapes(b)
  {
  }

  /** In Agent mode turn `k` is rendered message by message. */
  lemma {:induction false} AgentTurnShapes(w: Wording, page: Page, k: nat)
    requires IsRenderable(page.turns) && AreTurns(page.turns) && k < |page.turns| && page.mode == Agent
    ensures
      var sent := SentShapes(TurnSent(w, page, k));
      var turn := Shapes(page.turns[k]);
      && |sent| == |turn|
      && sent[1..] == turn[1..]
      && sent[0] == if turn[0].role == User then Shape(User, [], "") else turn[0]
  {
    var turn := page.turns[k];
    AgentEntriesKeepShapes(w, RestOf(turn), IsCurrent(page, k), page.limits);
    SentShapesConcat(Opening(page, k), Following(w, page, k));
    if turn[0].role == User {
      assert Shapes(turn)[1..] == Shapes(turn[1..]);
    }
  }

  lemma {:induction false} AgentTurnShapesExactly(w: Wording, page: Page, k: nat)
    requires IsRenderable(page.turns) && AreTurns(page.turns) && k < |page.turns| && page.mode == Agent
    requires OpenersMakeNoCalls(page.turns)
    ensures SentShapes(TurnSent(w, page, k)) == Shapes(page.turns[k])
  {
    hide TurnSent;
    AgentTurnShapes(w, page, k);
    var sent, turn := SentShapes(TurnSent(w, page, k)), Shapes(page.turns[k]);
    assert page.turns[k][0].role == User ==> turn[0] == Shape(User, [], "");
    assert sent == [sent[0]] + sent[1..] && turn == [turn[0]] + turn[1..];
  }

  lemma {:induction false} AgentTurnsPaired(w: Wording, page: Page, n: nat)
    requires IsRenderable(page.turns) && AreTurns(page.turns) && n <= |page.turns| && page.mode == Agent
    requires forall k | 0 <= k < |page.turns| :: Paired(Shapes(page.turns[k]))
    requires OpenersMakeNoCalls(page.turns)
    ensures Paired(SentShapes(SentTurns(w, page, n)))
  {
    hide TurnSent, Paired, OpenersMakeNoCalls;
    if n == 0 {
      NothingIsPaired();
    } else {
      var k := n - 1;
      AgentTurnsPaired(w, page, k);
      AgentTurnShapesExactly(w, page, k);
      var before := SentTurns(w, page, k);
      SentShapesConcat(before, TurnSent(w, page, k));
      PairedConcat(SentShapes(before), Shapes(page.turns[k]));
    }
  }

  lemma {:induction false} NothingIsPaired()
    ensures Paired(SentShapes([]))
  {
  }

  lemma {:induction false} OpeningIsUsers(page: Page, k: nat)
    requires IsRenderable(page.turns) && k < |page.turns|
    ensures NoTools(Opening(page, k)) && OnlyAssistantsSendCalls(Opening(page, k))
  {
  }

  lemma {:induction false} AskTurnsUseNoTools(w: Wording, page: Page, n: nat)
    requires IsRenderable(page.turns) && n <= |page.turns| && page.mode == Ask
    ensures NoTools(SentTurns(w, page, n))
  {
    if n > 0 {
      AskTurnsUseNoTools(w, page, n - 1);
      var rest := RestOf(page.turns[n - 1]);
      AskEntriesUseNoTools(w, rest, |rest|, IsCurrent(page, n - 1), page.limits);
      hide NoTools, Entries, Opening;
      NoToolsConcat(Opening(page, n - 1), Following(w, page, n - 1)) by {
        OpeningIsUsers(page, n - 1);
      }
      NoToolsConcat(SentTurns(w, page, n - 1), TurnSent(w, page, n - 1));
    }
  }

  /** Ask mode sends no tool messages and no tool calls at all. */
  lemma {:induction false} AskModeUsesNoTools(w: Wording, page: Page)
    requires IsRenderable(page.turns) && page.mode == Ask
    ensures NoTools(SentPage(w, page))
  {
    hide SentTurns;
    AskTurnsUseNoTools(w, page, |page.turns|);
  }

  lemma {:induction false} TurnsMessagesGrow(w: Wording, page: Page, m: nat, n: nat)
    requires IsRenderable(page.turns) && m <= n <= |page.turns|
    ensures SentTurns(w, page, m) <= SentTurns(w, page, n)
    decreases n - m
  {
    hide TurnSent;
    if m < n {
      TurnsMessagesGrow(w, page, m, n - 1);
    }
  }

  lemma {:induction false} CallingUserLeavesOrphan(w: Wording, page: Page, k: nat)
    requires IsRenderable(page.turns) && AreTurns(page.turns) && k < |page.turns| && page.mode == Agent
    requires Paired(Shapes(page.turns[k]))
    requires page.turns[k][0].role == User && page.turns[k][0].calls != []
    ensures
      var s := SentShapes(TurnSent(w, page, k));
      |s| > 1 && s[0] == Shape(User, [], "") && s[1].role == Tool
  {
    hide TurnSent;
    AgentTurnShapes(w, page, k);
    var sent, s := SentShapes(TurnSent(w, page, k)), Shapes(page.turns[k]);
    assert |s[0].asks| > 0;
    assert s[1].role == Tool;
    assert sent[1] == sent[1..][0] == s[1..][0];
  }

  lemma {:induction false} OrphanBreaksPairing(before: seq<Sent>, turn: seq<Sent>, whole: seq<Sent>)
    requires before + turn <= whole && |turn| > 1
    requires SentShapes(turn)[0] == Shape(User, [], "") && SentShapes(turn)[1].role == Tool
    ensures !Paired(SentShapes(whole))
  {
    hide Paired;
    var p, s := |before|, SentShapes(whole);
    assert whole[p] == (before + turn)[p] == turn[0];
    assert whole[p + 1] == (before + turn)[p + 1] == turn[1];
    assert s[p] == SentShapes(turn)[0] && s[p + 1] == SentShapes(turn)[1];
    if Paired(s) {
      NoAskNoAnswer(s, p);
    }
  }

  /** A user message that carries calls leaves its results behind with no call to answer. */
  lemma {:induction false} CallingUserBreaksPairing(w: Wording, page: Page, k: nat)
    requires IsRenderable(page.turns) && AreTurns(page.turns) && k < |page.turns| && page.mode == Agent
    requires Paired(Shapes(page.turns[k]))
    requires page.turns[k][0].role == User && page.turns[k][0].calls != []
    ensures !Paired(SentShapes(SentPage(w, page)))
  {
    hide TurnSent;
    var before, turn := SentTurns(w, page, k), TurnSent(w, page, k);
    var all, whole := SentTurns(w, page, |page.turns|), SentPage(w, page);
    CallingUserLeavesOrphan(w, page, k);
    TurnsMessagesGrow(w, page, k + 1, |page.turns|);
    OrphanBreaksPairing(before, turn, whole);
  }

  /** In Agent mode every call is followed at once by exactly one result, and no result is an
      orphan, precisely when no rendered turn is opened by a user message with calls. */
  lemma {:induction false} AgentModeIsPairedExactly(w: Wording, page: Page)
    requires IsRenderable(page.turns) && AreTurns(page.turns) && page.mode == Agent
    requires forall k | 0 <= k < |page.turns| :: Paired(Shapes(page.turns[k]))
    ensures Paired(SentShapes(SentPage(w, page))) <==> OpenersMakeNoCalls(page.turns)
  {
    if OpenersMakeNoCalls(page.turns) {
      AgentTurnsPaired(w, page, |page.turns|);
      var r := SentTurns(w, page, |page.turns|);
      SentShapesConcat(r, Closing(r));
      NoToolsIsPaired(Closing(r));
      PairedConcat(SentShapes(r), SentShapes(Closing(r)));
    } else {
      var k :| 0 <= k < |page.turns| && page.turns[k][0].role == User && page.turns[k][0].calls != [];
      CallingUserBreaksPairing(w, page, k);
    }
  }

  lemma {:induction false} TurnCallsAreAssistants(w: Wording, page: Page, k: nat)
    requires IsRenderable(page.turns) && k < |page.turns|
    ensures OnlyAssistantsSendCalls(TurnSent(w, page, k))
  {
    hide Entries, Opening;
    var rest := RestOf(page.turns[k]);
    EntriesCallsAreAssistants(w, page.mode, rest, |rest|, IsCurrent(page, k), page.limits);
    OpeningIsUsers(page, k);
    hide OnlyAssistantsSendCalls;
    OnlyAssistantsConcat(Opening(page, k), Following(w, page, k));
  }

  lemma {:induction false} TurnsCallsAreAssistants(w: Wording, page: Page, n: nat)
    requires IsRenderable(page.turns) && n <= |page.turns|
    ensures OnlyAssistantsSendCalls(SentTurns(w, page, n))
  {
    hide OnlyAssistantsSendCalls, TurnSent;
    if n > 0 {
      TurnsCallsAreAssistants(w, page, n - 1);
      TurnCallsAreAssistants(w, page, n - 1);
      OnlyAssistantsConcat(SentTurns(w, page, n - 1), TurnSent(w, page, n - 1));
    } else {
      NothingSendsCalls();
    }
  }

  /** A conversation a provider accepts: calls paired, made by the assistant alone, and the
      last word with someone else. */
  ghost predicate IsValidConversation(messages: seq<Sent>)
  {
    && Paired(SentShapes(messages))
    && OnlyAssistantsSendCalls(messages)
    && messages != []
    && messages[|messages| - 1].role != Assistant
  }

  lemma {:induction false} PairedEndsAnswered(s: seq<Shape>)
    requires Paired(s) && s != []
    ensures s[|s| - 1].asks == []
  {
    var n := 1 + |s[0].asks|;
    if n < |s| {
      PairedEndsAnswered(s[n..]);
    }
  }

  /** Turns ready to render: each paired, and the current one opened by the user. */
  ghost predicate IsHistory(turns: seq<Turn>)
  {
    && IsRenderable(turns)
    && AreTurns(turns)
    && (forall k | 0 <= k < |turns| :: Paired(Shapes(turns[k])))
    && turns[|turns| - 1][0].role == User
  }

  /** A page ends on calls in no mode: Ask mode makes none, and a turn ends answered. */
  lemma {:induction false} TurnEndsAnswered(w: Wording, page: Page, k: nat)
    requires IsHistory(page.turns) && k < |page.turns|
    ensures
      var sent := TurnSent(w, page, k);
      page.mode == Agent ==> sent != [] && (sent[|sent| - 1].role == Tool || sent[|sent| - 1].calls == [])
  {
    if page.mode == Agent {
      hide TurnSent, Paired;
      AgentTurnShapes(w, page, k);
      var sent, shapes, turn := TurnSent(w, page, k), SentShapes(TurnSent(w, page, k)), Shapes(page.turns[k]);
      var n := |sent| - 1;
      PairedEndsAnswered(turn);
      assert n > 0 ==> shapes[n] == shapes[1..][n - 1] == turn[1..][n - 1];
      assert shapes[n] == SentShapeOf(sent[n]);
    }
  }

  /** Whatever the turns hold, a page does not end on the assistant, and only assistants call. */
  lemma {:induction false} PageEndsElsewhere(w: Wording, page: Page)
    requires IsHistory(page.turns)
    ensures
      var messages := SentPage(w, page);
      messages != [] && messages[|messages| - 1].role != Assistant && OnlyAssistantsSendCalls(messages)
  {
    hide Paired, TurnSent, OnlyAssistantsSendCalls, CurrentAt, Entries;
    var n := |page.turns|;
    var sent := SentTurns(w, page, n);
    TurnsCallsAreAssistants(w, page, n);
    OnlyAssistantsConcat(sent, Closing(sent));
    TurnEndsAnswered(w, page, n - 1);
    CurrentTurnIsSent(w, page);
    if page.mode == Ask {
      AskTurnsUseNoTools(w, page, n);
    }
    TurnIsNotEmpty(w, page, n - 1);
    var turn := TurnSent(w, page, n - 1);
    assert sent == SentTurns(w, page, n - 1) + turn;
    assert sent[|sent| - 1] == turn[|turn| - 1];
  }

  lemma {:induction false} TurnIsNotEmpty(w: Wording, page: Page, k: nat)
    requires IsRenderable(page.turns) && k < |page.turns| && page.turns[k][0].role == User
    ensures TurnSent(w, page, k) != []
  {
    hide Entries;
  }

  /** A page is a valid conversation exactly in Ask mode, or when no rendered turn is opened by
      a user message with calls. */
  lemma {:induction false} PageIsValidExactly(w: Wording, page: Page)
    requires IsHistory(page.turns)
    ensures IsValidConversation(SentPage(w, page)) <==> page.mode == Ask || OpenersMakeNoCalls(page.turns)
  {
    hide SentPage, Paired, OpenersMakeNoCalls, OnlyAssistantsSendCalls;
    PageEndsElsewhere(w, page);
    if page.mode == Agent {
      AgentModeIsPairedExactly(w, page);
    } else {
      AskModeUsesNoTools(w, page);
      NoToolsIsPaired(SentPage(w, page));
    }
  }

  // ---- The user's text ----

  /** Where the current user message stands among the rendered ones. */
  function CurrentAt(w: Wording, page: Page): nat
    requires IsRenderable(page.turns)
  {
    |SentTurns(w, page, |page.turns| - 1)|
  }

  lemma {:induction false} AfterTheOne(before: seq<Sent>, one: Sent, after: seq<Sent>, end: seq<Sent>)
    ensures
      var all := before + ([one] + after) + end;
      && all[|before|] == one
      && all[|before| + 1..] == after + end
      && (end == [] ==> all[|before| + 1..] == after)
  {
  }

  lemma {:induction false} CurrentTurnIsSent(w: Wording, page: Page)
    requires IsRenderable(page.turns) && page.turns[|page.turns| - 1][0].role == User
    ensures
      var turn := page.turns[|page.turns| - 1];
      var messages := SentPage(w, page);
      var at := CurrentAt(w, page);
      var following := Entries(w, page.mode, turn[1..], |turn| - 1, true, page.limits);
      && at < |messages|
      && messages[at] == Sent(User, page.userText, [], "")
      && (messages[at + 1..] == following || messages[at + 1..] == following + [CONTINUE])
  {
    hide Entries;
    var k := |page.turns| - 1;
    var before, following := SentTurns(w, page, k), Following(w, page, k);
    assert SentTurns(w, page, k + 1) == before + ([Sent(User, page.userText, [], "")] + following);
    AfterTheOne(before, Sent(User, page.userText, [], ""), following, Closing(SentTurns(w, page, k + 1)));
  }

  lemma {:induction false} CurrentUserTextEnds(w: Wording, req: Request, turn: Turn, limits: Limits, dropped: nat)
    requires turn != []
    ensures ContextBlock(w, req, turn, limits) <= CurrentUserText(w, req, turn, limits, dropped)
    ensures EndsWith(CurrentUserText(w, req, turn, limits, dropped), turn[0].content)
  {
    var pieces := CurrentPieces(w, req, turn, limits, dropped);
    JoinEndsWithLast("\n", pieces);
    JoinStartsWithFirst("\n", pieces);
  }

  /** The current user message is sent with the context block first and the user's own text
      whole at its end, and everything after it in the turn follows. */
  lemma {:induction false} CurrentTextIsSent(w: Wording, req: Request, a: Attempt)
    requires IsRenderable(a.turns) && CurrentTurn(a)[0].role == User
    ensures
      var turn := CurrentTurn(a);
      var messages := Rendering(w, req, a).messages;
      var at := CurrentAt(w, PageOf(w, req, a));
      var following := Entries(w, req.mode, turn[1..], |turn| - 1, true, a.limits);
      && at < |messages|
      && messages[at].role == User
      && ContextBlock(w, req, turn, a.limits) <= messages[at].content
      && EndsWith(messages[at].content, turn[0].content)
      && (messages[at + 1..] == following || messages[at + 1..] == following + [CONTINUE])
  {
    hide CurrentUserText, SentFile, ContextBlock, Entries;
    CurrentTurnIsSent(w, PageOf(w, req, a));
    CurrentUserTextEnds(w, req, CurrentTurn(a), a.limits, a.dropped);
  }
}
