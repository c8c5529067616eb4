/** The whole way from the browser's messages to what the provider gets: repaired, tidied,
    split, fitted, and, for Claude, converted. */
module Pipeline {
  import opened Text
  import opened Conversation
  import opened HistoryRepair
  import opened Turns
  import opened Render
  import opened RenderFacts
  import opened Optimizer
  import opened TokenFacts
  import opened ReadFacts
  import SentFacts
  import opened Claude
  import opened ClaudeFacts

  // ---- Preparing the history ----

  function TidiedMessage(w: Wording, context: Context, mode: Mode, m: Message): Message
  {
    if m.role != User then m
    else if mode == Ask || context.language == GENERAL_LANGUAGE then m.(content := w.tidySpacing(m.content))
    else m.(content := w.tidyUserText(m.content))
  }

  function Tidied(w: Wording, context: Context, mode: Mode, messages: seq<Message>): seq<Message>
  {
    seq(|messages|, i requires 0 <= i < |messages| => TidiedMessage(w, context, mode, messages[i]))
  }

  function Prepared(w: Wording, context: Context, mode: Mode, messages: seq<Message>): seq<Turn>
  {
    Split(Tidied(w, context, mode, Repaired(messages)))
  }

  lemma {:induction false} PreparedIsHistory(w: Wording, context: Context, mode: Mode, messages: seq<Message>)
    ensures IsHistory(Prepared(w, context, mode, messages))
  {
    hide Repaired, Split, PairedMessages, Paired;
    var repaired := Repaired(messages);
    var tidied := Tidied(w, context, mode, repaired);
    RepairedIsPaired(messages);
    PairedMessagesArePaired(repaired);
    assert Shapes(tidied) == Shapes(repaired);
    assert HasUser(tidied) by {
      var i :| 0 <= i < |repaired| && repaired[i].role == User;
      assert tidied[i].role == User;
    }
    SplitIsPartition(tidied);
    TurnsArePaired(Split(tidied));
    LastTurnIsUsers(Split(tidied));
  }

  /** The turns put together are the repaired messages one for one, but for the spacing of what the
      user wrote, and its courtesies where the talk is of code that is to be changed. */
  lemma {:induction false} PreparedIsTidied(w: Wording, context: Context, mode: Mode, messages: seq<Message>)
    ensures
      var given, all := Repaired(messages), Flatten(Prepared(w, context, mode, messages));
      && |all| == |given|
      && forall i | 0 <= i < |given| ::
           var m := given[i];
           var isOpen := mode == Ask || context.language == "general";
           all[i] == if m.role != User then m
                     else
                       var text := if isOpen then w.tidySpacing(m.content) else w.tidyUserText(m.content);
                       Message(User, text, m.calls, m.callId, m.isError)
  {
    SplitIsPartition(Tidied(w, context, mode, Repaired(messages)));
    hide Repaired, Split, Flatten, AreTurns;
  }

  /** The turns hold a user message with calls exactly when the given messages do. */
  lemma {:induction false} PreparedKeepsUserCalls(w: Wording, context: Context, mode: Mode, messages: seq<Message>)
    ensures AreTurns(Prepared(w, context, mode, messages))
    ensures OpenersMakeNoCalls(Prepared(w, context, mode, messages)) <==> UsersMakeNoCalls(messages)
  {
    var repaired := Repaired(messages);
    var tidied := Tidied(w, context, mode, repaired);
    RepairKeepsUserCalls(messages);
    assert UsersMakeNoCalls(repaired) <==> UsersMakeNoCalls(tidied) by {
      assert forall i | 0 <= i < |tidied| :: tidied[i].calls == repaired[i].calls && tidied[i].role == repaired[i].role;
    }
    SplitIsPartition(tidied);
    OpenersAreTheUsers(Split(tidied));
  }

  lemma {:induction false} OpenersAreTheUsers(turns: seq<Turn>)
    requires AreTurns(turns)
    ensures OpenersMakeNoCalls(turns) <==> UsersMakeNoCalls(Flatten(turns))
  {
    if turns != [] {
      var front, last := turns[..|turns| - 1], turns[|turns| - 1];
      OpenersAreTheUsers(front);
      var a, b := Flatten(front), Flatten(turns);
      assert b == a + last;
      assert UsersMakeNoCalls(b) <==> UsersMakeNoCalls(a) && UsersMakeNoCalls(last) by {
        if UsersMakeNoCalls(b) {
          assert forall i | 0 <= i < |a| :: a[i] == b[i];
          assert forall i | 0 <= i < |last| :: last[i] == b[|a| + i];
        }
      }
      assert UsersMakeNoCalls(last) <==> (last[0].role == User ==> last[0].calls == []);
    }
  }

  // ---- What every attempt keeps ----

  /** The current turn is still a user turn with the same message and the same newest round, and
      holds nothing new. */
  ghost predicate KeepsTurn(turn: Turn, shorter: Turn)
  {
    && turn != []
    && IsUserTurn(shorter)
    && shorter[0] == turn[0]
    && NewestRound(shorter) == NewestRound(turn)
    && (forall m | m in shorter :: m in turn)
  }

  /** Whole turns from some kept one on, or the current turn alone with fewer rounds. */
  ghost predicate IsOnLadder(turns: seq<Turn>, a: Attempt)
    requires turns != []
  {
    || (exists from | FirstKept(turns) <= from < |turns| :: a.turns == turns[from..])
    || (|a.turns| == 1 && KeepsTurn(turns[|turns| - 1], a.turns[0]))
  }

  lemma {:induction false} RoundAttemptsKeep(turn: Turn, dropped: nat, i: nat)
    requires IsUserTurn(turn) && i < |RoundAttempts(turn, dropped)|
    ensures |RoundAttempts(turn, dropped)[i].turns| == 1
    ensures KeepsTurn(turn, RoundAttempts(turn, dropped)[i].turns[0])
    decreases |turn|
  {
    WithoutOldestRoundKeeps(turn);
    match WithoutOldestRound(turn)
    case None =>
    case Some(shorter) =>
      if i > 0 {
        RoundAttemptsKeep(shorter, dropped + 1, i - 1);
      }
  }

  /** Every attempt is one of the two kinds. */
  lemma {:induction false} AttemptIsOnLadder(turns: seq<Turn>, i: nat)
    requires IsHistory(turns) && i < |Attempts(turns)|
    ensures IsOnLadder(turns, Attempts(turns)[i])
  {
    hide Attempts, IsFirstKept, FirstKept, KeepsTurn;
    var first, current := FirstKept(turns), turns[|turns| - 1];
    var tiers := |turns| - first;
    FirstKeptInRange(turns);
    AttemptsLayout(turns);
    var a := Attempts(turns)[i];
    if i < tiers {
      HistoryAttemptAt(turns, first, i);
      assert a == Attempts(turns)[..tiers][i];
      assert a.turns == turns[first + i..];
    } else if i < tiers + 2 {
      assert a.turns == turns[|turns| - 1..];
    } else {
      RoundAttemptsKeep(current, |turns| - 1, i - tiers - 2);
      assert a == Attempts(turns)[tiers + 2..][i - tiers - 2];
    }
  }

  /** Whichever turns, tiers or rounds an attempt gives up, the user's message and everything
      from the last assistant message on are rendered, in a history that is still paired. */
  lemma {:induction false} EveryAttemptKeeps(turns: seq<Turn>, i: nat)
    requires IsHistory(turns) && i < |Attempts(turns)|
    ensures IsHistory(Attempts(turns)[i].turns)
    ensures KeepsTurn(turns[|turns| - 1], CurrentTurn(Attempts(turns)[i]))
  {
    hide Attempts, FirstKept, NewestRound, KeepsTurn;
    AttemptIsOnLadder(turns, i);
    FirstKeptInRange(turns);
    var a := Attempts(turns)[i];
    if from :| FirstKept(turns) <= from < |turns| && a.turns == turns[from..] {
      LaterTurnsKeep(turns, from);
    } else {
      ShorterTurnKeeps(turns[|turns| - 1], a.turns[0]);
      assert a.turns == [a.turns[0]];
    }
  }

  /** On every attempt each message that it keeps is sent in its own place and as itself. */
  lemma {:induction false} EveryAttemptCarries(w: Wording, req: Request, turns: seq<Turn>, i: nat, k: nat, n: nat)
    requires IsHistory(turns) && i < |Attempts(turns)|
    requires k < |Attempts(turns)[i].turns| && n < |Attempts(turns)[i].turns[k]|
    ensures IsHistory(Attempts(turns)[i].turns)
    ensures
      var a := Attempts(turns)[i];
      var page, messages, at := PageOf(w, req, a), Rendering(w, req, a).messages, |Flatten(a.turns[..k])| + n;
      at < |messages| && SentFacts.Carries(w, page, a.turns[k], n, k == |a.turns| - 1, messages[at])
  {
    hide Attempts, SentPage, PageParts, SentFacts.Carries, CurrentUserText, SentFile, Paired, Flatten, KeepsTurn;
    EveryAttemptKeeps(turns, i);
    AttemptCarries(w, req, Attempts(turns)[i], k, n);
  }

  lemma {:induction false} AttemptCarries(w: Wording, req: Request, a: Attempt, k: nat, n: nat)
    requires IsHistory(a.turns) && k < |a.turns| && n < |a.turns[k]|
    ensures
      var page, messages, at := PageOf(w, req, a), Rendering(w, req, a).messages, |Flatten(a.turns[..k])| + n;
      at < |messages| && SentFacts.Carries(w, page, a.turns[k], n, k == |a.turns| - 1, messages[at])
  {
    hide SentPage, PageParts, SentFacts.Carries, CurrentUserText, SentFile, Flatten, Paired;
    SentFacts.MessageIsSentInPlace(w, PageOf(w, req, a), k, n);
  }

  lemma {:induction false} LaterTurnsKeep(turns: seq<Turn>, from: nat)
    requires IsHistory(turns) && from < |turns|
    ensures IsHistory(turns[from..])
    ensures KeepsTurn(turns[|turns| - 1], turns[from..][|turns| - from - 1])
  {
    hide NewestRound, Paired;
  }

  lemma {:induction false} ShorterTurnKeeps(turn: Turn, shorter: Turn)
    requires KeepsTurn(turn, shorter)
    ensures IsHistory([shorter])
  {
    hide NewestRound, Paired;
  }

  lemma {:induction false} LaterTurnsMakeNoCalls(turns: seq<Turn>, first: nat, from: nat)
    requires AreTurns(turns) && first <= from < |turns|
    requires OpenersMakeNoCalls(turns[first..])
    ensures AreTurns(turns[from..]) && OpenersMakeNoCalls(turns[from..])
  {
    assert forall k | 0 <= k < |turns| - from :: turns[from..][k] == turns[first..][from - first + k];
  }

  lemma {:induction false} LadderMakesNoCalls(turns: seq<Turn>, i: nat)
    requires IsHistory(turns) && i < |Attempts(turns)|
    requires OpenersMakeNoCalls(turns[FirstKept(turns)..])
    ensures AreTurns(Attempts(turns)[i].turns) && OpenersMakeNoCalls(Attempts(turns)[i].turns)
  {
    hide Attempts, FirstKept, NewestRound, OpenersMakeNoCalls;
    AttemptIsOnLadder(turns, i);
    FirstKeptInRange(turns);
    var first, a := FirstKept(turns), Attempts(turns)[i];
    if from :| first <= from < |turns| && a.turns == turns[from..] {
      LaterTurnsMakeNoCalls(turns, first, from);
    } else {
      LaterTurnsMakeNoCalls(turns, first, |turns| - 1);
      assert turns[|turns| - 1..] == [turns[|turns| - 1]];
      SameOpenerMakesNoCalls(turns[|turns| - 1], a.turns[0]);
      assert a.turns == [a.turns[0]];
    }
  }

  lemma {:induction false} SameOpenerMakesNoCalls(turn: Turn, shorter: Turn)
    requires AreTurns([turn]) && OpenersMakeNoCalls([turn]) && KeepsTurn(turn, shorter)
    ensures AreTurns([shorter]) && OpenersMakeNoCalls([shorter])
  {
    assert [turn][0] == turn;
  }

  /** Every attempt is a valid conversation exactly in Ask mode, where it holds no tools, or when
      none of its turns is opened by a user message with calls. */
  lemma {:induction false} EveryAttemptIsValidExactly(w: Wording, req: Request, turns: seq<Turn>, i: nat)
    requires IsHistory(turns) && i < |Attempts(turns)|
    ensures IsHistory(Attempts(turns)[i].turns)
    ensures
      var (a, sent) := (Attempts(turns)[i], Rendering(w, req, Attempts(turns)[i]).messages);
      && (IsValidConversation(sent) <==> req.mode == Ask || OpenersMakeNoCalls(a.turns))
      && (req.mode == Ask ==> NoTools(sent))
  {
    hide Attempts, IsValidConversation, OpenersMakeNoCalls;
    EveryAttemptKeeps(turns, i);
    var page := PageOf(w, req, Attempts(turns)[i]);
    PageIsValidExactly(w, page);
    if req.mode == Ask {
      AskModeUsesNoTools(w, page);
    }
  }

  ghost predicate PairsCalls(w: Wording, req: Request, a: Attempt)
    requires IsRenderable(a.turns)
  {
    Paired(SentShapes(Rendering(w, req, a).messages))
  }

  /** In Agent mode every attempt on the ladder has its calls paired exactly when no turn that
      the ladder starts from is opened by a user message with calls. */
  lemma {:induction false} LadderIsPairedExactly(w: Wording, req: Request, turns: seq<Turn>)
    requires IsHistory(turns) && req.mode == Agent
    ensures AllRenderable(Attempts(turns))
    ensures
      (forall i | 0 <= i < |Attempts(turns)| :: PairsCalls(w, req, Attempts(turns)[i]))
      <==> OpenersMakeNoCalls(turns[FirstKept(turns)..])
  {
    hide PairsCalls, OpenersMakeNoCalls, Attempts, FirstKept;
    AttemptsRenderable(turns);
    FirstAttemptIsHistory(turns);
    hide IsHistory;
    forall i | 0 <= i < |Attempts(turns)|
      ensures AreTurns(Attempts(turns)[i].turns)
      ensures PairsCalls(w, req, Attempts(turns)[i]) <==> OpenersMakeNoCalls(Attempts(turns)[i].turns)
      ensures OpenersMakeNoCalls(turns[FirstKept(turns)..]) ==> OpenersMakeNoCalls(Attempts(turns)[i].turns)
    {
      EveryAttemptKeeps(turns, i);
      AttemptIsPairedExactly(w, req, Attempts(turns)[i]);
      if OpenersMakeNoCalls(turns[FirstKept(turns)..]) {
        LadderMakesNoCalls(turns, i);
      }
    }
  }

  /** The ladder starts from all the turns it keeps. */
  lemma {:induction false} FirstAttemptIsHistory(turns: seq<Turn>)
    requires IsHistory(turns)
    ensures FirstKept(turns) < |turns| && Attempts(turns) != []
    ensures Attempts(turns)[0].turns == turns[FirstKept(turns)..]
  {
    hide Attempts, FirstKept;
    FirstKeptInRange(turns);
    AttemptsLayout(turns);
    HistoryAttemptAt(turns, FirstKept(turns), 0);
    assert Attempts(turns)[0] == Attempts(turns)[..|turns| - FirstKept(turns)][0];
  }

  lemma {:induction false} AttemptIsPairedExactly(w: Wording, req: Request, a: Attempt)
    requires IsHistory(a.turns) && req.mode == Agent
    ensures AreTurns(a.turns)
    ensures PairsCalls(w, req, a) <==> OpenersMakeNoCalls(a.turns)
  {
    var page := PageOf(w, req, a);
    AgentModeIsPairedExactly(w, page);
  }

  // ---- The last word ----

  lemma {:induction false} DataBlockIsNotBlank(w: Wording, tag: string, body: string)
    ensures !IsBlank(DataBlock(w, tag, body))
  {
    assert DataBlock(w, tag, body)[0] == '<';
  }

  lemma {:induction false} StartsNotBlank(start: string, s: string)
    requires start <= s && !IsBlank(start)
    ensures !IsBlank(s)
  {
    var i :| 0 <= i < |start| && !IsSpace(start[i]);
    assert s[i] == start[i];
  }

  /** Every rendered message that is not the assistant's is a result or has visible text. */
  lemma {:induction false} EntryIsVisible(
      w: Wording, mode: Mode, rest: seq<Message>, i: nat, isCurrent: bool, limits: Limits)
    requires i < |rest| && rest[i].role == Tool
    ensures
      var m := Entry(w, mode, rest, i, isCurrent, limits);
      m.role == Tool || !IsBlank(m.content)
  {
    if mode == Ask {
      hide CutMiddle;
      var limit := if isCurrent then limits.currentTurnTool else limits.olderTurnTool;
      DataBlockIsNotBlank(w, "tool_result", ToolText(rest[i], limit, FLAT_OUTPUT_NOTE));
    }
  }

  lemma {:induction false} ContinueIsVisible()
    ensures !IsBlank(CONTINUE_TEXT)
  {
    assert !IsSpace(CONTINUE_TEXT[0]);
  }

  /** The last message of a page whose user text is visible gives Claude a block. */
  lemma {:induction false} LastMessageIsVisible(w: Wording, page: Page)
    requires IsHistory(page.turns) && !IsBlank(page.userText)
    ensures
      var sent := SentPage(w, page);
      && sent != []
      && var last := sent[|sent| - 1];
         last.role == Assistant || last.role == Tool || !IsBlank(last.content)
  {
    hide Entry, Entries, SentPage, CurrentAt, IsBlank, Paired;
    assert !IsBlank(CONTINUE_TEXT) by {
      ContinueIsVisible();
    }
    CurrentTurnIsSent(w, page);
    var turn := page.turns[|page.turns| - 1];
    var rest := turn[1..];
    var following := Entries(w, page.mode, rest, |rest|, true, page.limits);
    EntriesOneToOne(w, page.mode, rest, |rest|, true, page.limits);
    var sent, at := SentPage(w, page), CurrentAt(w, page);
    var last := sent[|sent| - 1];
    if sent[at + 1..] == following + [CONTINUE] {
      assert last == sent[at + 1..][|following|] == CONTINUE;
    } else if rest == [] {
      assert last == sent[at];
    } else {
      var i := |rest| - 1;
      assert last == sent[at + 1..][i] == Entry(w, page.mode, rest, i, true, page.limits);
      if rest[i].role == Tool {
        EntryIsVisible(w, page.mode, rest, i, true, page.limits);
      } else {
        AssistantStaysAssistant(w, page.mode, rest, i, true, page.limits);
      }
    }
  }

  lemma {:induction false} AssistantStaysAssistant(
      w: Wording, mode: Mode, rest: seq<Message>, i: nat, isCurrent: bool, limits: Limits)
    requires i < |rest| && rest[i].role == Assistant
    ensures Entry(w, mode, rest, i, isCurrent, limits).role == Assistant
  {
  }

  lemma {:induction false} CurrentTextIsVisible(w: Wording, req: Request, turn: Turn, limits: Limits, dropped: nat)
    requires turn != []
    ensures !IsBlank(CurrentUserText(w, req, turn, limits, dropped))
  {
    hide ContextLines, CurrentPieces;
    CurrentUserTextEnds(w, req, turn, limits, dropped);
    DataBlockIsNotBlank(w, "context", Join("\n", ContextLines(w, req, turn, limits)));
    StartsNotBlank(ContextBlock(w, req, turn, limits), CurrentUserText(w, req, turn, limits, dropped));
  }

  // ---- The main results ----

  /** What Claude's format demands of every conversation: strictly alternating turns from user to
      user, none empty. */
  ghost predicate AlternatesFromUser(parse: Parser, messages: seq<Sent>)
  {
    var turns := Converted(parse, messages);
    Alternates(turns) && turns != [] && turns[0].role == User && turns[|turns| - 1].role == User
  }

  /** What the provider, and Claude after conversion, need of the conversation sent. */
  ghost predicate IsAccepted(parse: Parser, messages: seq<Sent>)
  {
    && IsValidConversation(messages)
    && IsClaudeConversation(Converted(parse, messages))
    && AlternatesFromUser(parse, messages)
  }

  /** Whatever its messages, every attempt alternates from user to user, with no turn empty. */
  lemma {:induction false} EveryAttemptAlternates(w: Wording, parse: Parser, req: Request, turns: seq<Turn>, i: nat)
    requires IsHistory(turns) && i < |Attempts(turns)|
    ensures IsHistory(Attempts(turns)[i].turns)
    ensures AlternatesFromUser(parse, Rendering(w, req, Attempts(turns)[i]).messages)
  {
    hide Attempts, CurrentUserText, AlternatesFromUser, IsBlank, SentPage, OnlyAssistantsSendCalls;
    EveryAttemptKeeps(turns, i);
    var a := Attempts(turns)[i];
    var page := PageOf(w, req, a);
    CurrentTextIsVisible(w, req, CurrentTurn(a), a.limits, a.dropped);
    LastMessageIsVisible(w, page);
    PageEndsElsewhere(w, page);
    VisibleEndAlternates(parse, SentPage(w, page));
  }

  lemma {:induction false} VisibleEndAlternates(parse: Parser, messages: seq<Sent>)
    requires messages != []
    requires
      var last := messages[|messages| - 1];
      last.role == Tool || (last.role == User && !IsBlank(last.content))
    ensures AlternatesFromUser(parse, messages)
  {
    hide ConvertFrom, Alternates, IsBlank, UsesOf;
    assert BlocksOf(parse, messages[|messages| - 1]) != [];
    ConvertedAlternates(parse, messages);
    ConvertEndsWithLast(parse, [], messages);
  }

  /** Every attempt is accepted exactly in Ask mode, or when none of its turns is opened by a
      user message with calls. Otherwise Claude's turns hold results that nothing asked for. */
  lemma {:induction false} EveryAttemptIsAcceptedExactly(
      w: Wording, parse: Parser, req: Request, turns: seq<Turn>, i: nat)
    requires IsHistory(turns) && i < |Attempts(turns)|
    ensures IsHistory(Attempts(turns)[i].turns)
    ensures
      var a, sent := Attempts(turns)[i], Rendering(w, req, Attempts(turns)[i]).messages;
      && (IsAccepted(parse, sent) <==> req.mode == Ask || OpenersMakeNoCalls(a.turns))
      && (IsClaudeConversation(Converted(parse, sent)) <==> req.mode == Ask || OpenersMakeNoCalls(a.turns))
  {
    hide Attempts, SentPage, AlternatesFromUser, IsClaudeConversation, Converted, Paired, OnlyAssistantsSendCalls;
    EveryAttemptIsValidExactly(w, req, turns, i);
    EveryAttemptAlternates(w, parse, req, turns, i);
    var a := Attempts(turns)[i];
    var page := PageOf(w, req, a);
    if IsValidConversation(SentPage(w, page)) {
      ConvertedIsAnswered(parse, SentPage(w, page));
    }
    if IsClaudeConversation(Converted(parse, SentPage(w, page))) {
      PageEndsElsewhere(w, page);
      PageCounts(w, page);
      AcceptedBalances(parse, SentPage(w, page));
      NoOpenerCalls(a.turns, |a.turns|);
    }
  }

  // ---- The promised file read ----

  lemma {:induction false} RepairCallsFrom(messages: seq<Message>)
    ensures CallsAreFrom(Repaired(messages), messages)
  {
    PairUpInvents(messages);
  }

  lemma {:induction false} TidyCallsFrom(w: Wording, context: Context, mode: Mode, messages: seq<Message>)
    ensures CallsAreFrom(Tidied(w, context, mode, messages), messages)
  {
    var tidied := Tidied(w, context, mode, messages);
    forall m | m in tidied && m.calls != []
      ensures exists given :: given in messages && given.calls == m.calls && (given.role == Tool <==> m.role == Tool)
    {
      var i :| 0 <= i < |tidied| && tidied[i] == m;
      assert messages[i] in messages;
    }
  }

  /** The current turn calls just what the messages given call. */
  lemma {:induction false} PreparedCallsFrom(w: Wording, context: Context, mode: Mode, messages: seq<Message>)
    ensures IsHistory(Prepared(w, context, mode, messages))
    ensures
      var turns := Prepared(w, context, mode, messages);
      CallsAreFrom(turns[|turns| - 1], messages)
  {
    hide Repaired, Tidied, Split, CallsAreFrom, Paired;
    PreparedIsHistory(w, context, mode, messages);
    var repaired := Repaired(messages);
    var tidied := Tidied(w, context, mode, repaired);
    RepairCallsFrom(messages);
    TidyCallsFrom(w, context, mode, repaired);
    CallsAreFromOnward(tidied, repaired, messages);
    SplitIsPartition(tidied);
    LastTurnFrom(Split(tidied), tidied);
    CallsAreFromOnward(Split(tidied)[|Split(tidied)| - 1], tidied, messages);
  }

  lemma {:induction false} LastTurnFrom(turns: seq<Turn>, messages: seq<Message>)
    requires turns != [] && Flatten(turns) == messages
    ensures CallsAreFrom(turns[|turns| - 1], messages)
  {
  }

  /** For every list of messages whose ids tell the reads of the open file from other calls, and
      for every attempt: when its context block points at a read below, the conversation sent
      holds that successful read's whole content. */
  lemma {:induction false} EveryPointedReadIsSent(
      w: Wording, context: Context, messages: seq<Message>, i: nat) returns (p: nat, j: nat)
    requires context.openFile.Some? && IdsTellReads(messages, context.openFile.value.name)
    requires
      var turns := Prepared(w, context, Agent, messages);
      && IsHistory(turns) && i < |Attempts(turns)| && IsHistory(Attempts(turns)[i].turns)
      && var a := Attempts(turns)[i];
         HasWholeRead(CurrentTurn(a), context.openFile.value.name, a.limits)
    ensures
      var turns := Prepared(w, context, Agent, messages);
      var a, req := Attempts(turns)[i], RequestOf(w, context, Agent, turns);
      var turn, sent := CurrentTurn(a), Rendering(w, req, a).messages;
      var q := p + 1 + j;
      var at := CurrentAt(w, PageOf(w, req, a)) + q;
      && IsAnsweredRead(turn, p, j, context.openFile.value.name)
      && at < |sent|
      && sent[at] == Sent(Tool, turn[q].content, [], turn[q].callId)
  {
    hide Prepared, Attempts, HasWholeRead, IdsTellReads, CallsAreFrom, IsAnsweredRead, Rendering, PageOf, NewestRound;
    hide CurrentAt, Paired, FirstKept;
    var turns := Prepared(w, context, Agent, messages);
    var path := context.openFile.value.name;
    PreparedCallsFrom(w, context, Agent, messages);
    EveryAttemptKeeps(turns, i);
    var a := Attempts(turns)[i];
    var last, turn := turns[|turns| - 1], CurrentTurn(a);
    CallsAreFromOnward(turn, last, messages);
    IdsStillTellReads(turn, messages, path);
    p, j := PointedReadIsSent(w, RequestOf(w, context, Agent, turns), a);
  }

  datatype OptimizedConversation = OptimizedConversation(
    messages: seq<Sent>, estimatedTokens: nat, optimizedChars: nat, parts: Parts)

  function Budget(maxInputTokens: int, prefixTokens: int): nat
  {
    if maxInputTokens - prefixTokens >= 1 then maxInputTokens - prefixTokens else 1
  }

  function RequestOf(w: Wording, context: Context, mode: Mode, turns: seq<Turn>): Request
    requires IsRenderable(turns)
  {
    Request(context, mode, w.mentioned(turns[|turns| - 1][0].content, context.files))
  }

  method SumSentChars(messages: seq<Sent>) returns (total: nat)
    ensures total == SentChars(messages)
  {
    total := 0;
    for i := 0 to |messages|
      invariant total == SentChars(messages[..i])
    {
      assert messages[..i + 1][..i] == messages[..i];
      total := total + CharsOf(messages[i]);
    }
    assert messages[..|messages|] == messages;
  }

  /** The conversation to send. It is attempt `k` of the ladder, the first that fits. Its six
      counters add up to its characters, four characters per estimated token cover it, and
      Claude's turns alternate from user to user. It is accepted exactly in Ask mode, or when no
      turn that is sent is opened by a user message with calls. */
  method OptimizeConversation(
    w: Wording, messages: seq<Message>, context: Context, mode: Mode, maxInputTokens: int, prefixTokens: int)
    returns (c: OptimizedConversation, ghost k: nat)
    ensures
      var turns := Prepared(w, context, mode, messages);
      && IsHistory(turns) && AllRenderable(Attempts(turns))
      && var req := Request(context, mode, w.mentioned(turns[|turns| - 1][0].content, context.files));
         var budget := if maxInputTokens > prefixTokens then maxInputTokens - prefixTokens else 1;
         && IsChosen(w, req, Attempts(turns), budget, k)
         && Rendered(c.messages, c.parts) == Rendering(w, req, Attempts(turns)[k])
         && IsHistory(Attempts(turns)[k].turns)
         && ((forall parse :: IsAccepted(parse, c.messages)) <==>
               mode == Ask || OpenersMakeNoCalls(Attempts(turns)[k].turns))
    ensures forall parse :: AlternatesFromUser(parse, c.messages)
    ensures c.estimatedTokens == EstimatedTokens(c.messages)
    ensures c.optimizedChars == SentChars(c.messages)
    ensures c.parts.NonNegative() && c.parts.Total() == c.optimizedChars
    ensures c.optimizedChars + 10 * |c.messages| <= CHARS_PER_TOKEN * c.estimatedTokens
  {
    hide IsChosen, AllRenderable, Attempts, IsAccepted, AlternatesFromUser, Rendering, PageOf, OpenersMakeNoCalls;
    PreparedIsHistory(w, context, mode, messages);
    var budget := Budget(maxInputTokens, prefixTokens);
    var repaired := Repair(messages);
    var turns := SplitTurns(Tidied(w, context, mode, repaired));
    var req := RequestOf(w, context, mode, turns);
    var sent, parts;
    sent, parts, k := FitToBudget(w, req, turns, budget);
    var tokens := EstimateTokens(sent);
    var chars := SumSentChars(sent);
    c := OptimizedConversation(sent, tokens, chars, parts.Value());
    ChosenIsRenderable(w, req, turns, budget, k);
    PartsAddUp(w, req, Attempts(turns)[k]);
    AttemptIsCovered(w, req, turns, k);
    AttemptIsForAllParsers(w, req, turns, k);
  }

  lemma {:induction false} AttemptIsForAllParsers(w: Wording, req: Request, turns: seq<Turn>, i: nat)
    requires IsHistory(turns) && i < |Attempts(turns)|
    ensures IsHistory(Attempts(turns)[i].turns)
    ensures
      var a, sent := Attempts(turns)[i], Rendering(w, req, Attempts(turns)[i]).messages;
      && ((forall parse :: IsAccepted(parse, sent)) <==> req.mode == Ask || OpenersMakeNoCalls(a.turns))
      && forall parse :: AlternatesFromUser(parse, sent)
  {
    hide Attempts, Rendering, IsAccepted, AlternatesFromUser, OpenersMakeNoCalls;
    EveryAttemptKeeps(turns, i);
    var sent := Rendering(w, req, Attempts(turns)[i]).messages;
    forall parse: Parser
      ensures AlternatesFromUser(parse, sent)
      ensures IsAccepted(parse, sent) <==> req.mode == Ask || OpenersMakeNoCalls(Attempts(turns)[i].turns)
    {
      EveryAttemptAlternates(w, parse, req, turns, i);
      EveryAttemptIsAcceptedExactly(w, parse, req, turns, i);
    }
    var any: Parser := (s: string) => [];
    assert IsAccepted(any, sent) || !IsAccepted(any, sent);
  }

  lemma {:induction false} AttemptIsCovered(w: Wording, req: Request, turns: seq<Turn>, i: nat)
    requires IsHistory(turns) && i < |Attempts(turns)|
    ensures IsHistory(Attempts(turns)[i].turns)
    ensures
      var sent := Rendering(w, req, Attempts(turns)[i]).messages;
      SentChars(sent) + 10 * |sent| <= CHARS_PER_TOKEN * EstimatedTokens(sent)
  {
    hide Attempts, SentChars, EstimatedTokens;
    EveryAttemptKeeps(turns, i);
    EstimateCoversChars(w, PageOf(w, req, Attempts(turns)[i]));
  }

  lemma {:induction false} ChosenIsRenderable(w: Wording, req: Request, turns: seq<Turn>, budget: nat, k: nat)
    requires IsRenderable(turns) && AllRenderable(Attempts(turns))
    requires IsChosen(w, req, Attempts(turns), budget, k)
    ensures k < |Attempts(turns)| && IsRenderable(Attempts(turns)[k].turns)
  {
  }

  /** What fits the budget carries at most four characters per budgeted token. */
  lemma {:induction false} FittingStaysWithinChars(w: Wording, req: Request, turns: seq<Turn>, i: nat, budget: nat)
    requires IsHistory(turns) && i < |Attempts(turns)| && IsRenderable(Attempts(turns)[i].turns)
    requires Cost(w, req, Attempts(turns)[i]) <= budget
    ensures SentChars(Rendering(w, req, Attempts(turns)[i]).messages) <= CHARS_PER_TOKEN * budget
  {
    hide Attempts, Rendering, SentChars, EstimatedTokens;
    AttemptIsCovered(w, req, turns, i);
  }
}
