/** What each message of the history is sent as: whose words, which calls, how much of a result,
    and where. */
module SentFacts {
  import opened Text
  import opened Conversation
  import opened Turns
  import opened Render
  import opened RenderFacts

  // ---- What a message is to be sent as ----

  /** A message of this turn behind `i` calls tools, so that `i` is not of the newest round. */
  predicate IsBeforeNewest(turn: seq<Message>, i: nat)
  {
    exists j | i < j < |turn| :: turn[j].role == Assistant && turn[j].calls != []
  }

  /** Long strings lose all but their start, unless all of the call is to be kept. */
  predicate IsShortened(given: seq<Argument>, sent: seq<Argument>, whole: bool)
  {
    && |sent| == |given|
    && forall i | 0 <= i < |given| ::
         && sent[i].key == given[i].key
         && sent[i].value ==
            if !whole && given[i].value.Str? && |given[i].value.text| > 200
            then Str(given[i].value.text[..200] + "[... cut ...]") else given[i].value
  }

  ghost predicate IsSentCall(w: Wording, call: ToolCall, sent: SentCall, whole: bool)
  {
    && sent.id == call.id && sent.name == call.name
    && exists arguments :: IsShortened(call.arguments, arguments, whole) && sent.arguments == w.dumps(arguments)
  }

  /** The assistant's own words, and its calls in order. */
  ghost predicate IsSentAssistant(w: Wording, m: Message, sent: Sent, whole: bool)
  {
    && sent.role == Assistant && sent.content == m.content && |sent.calls| == |m.calls|
    && forall k | 0 <= k < |m.calls| :: IsSentCall(w, m.calls[k], sent.calls[k], whole)
  }

  /** The text whole within the limit, and otherwise its two ends, of just the limit together,
      around the marker of what was cut. */
  predicate IsKept(text: string, kept: string, limit: nat, note: string)
  {
    if |text| <= limit then kept == text
    else
      var marker := "\n[... " + Decimal(|text| - limit) + " characters cut. " + note + " ...]\n";
      if limit == 0 then kept == marker + text
      else KeepsEnds(text, kept, marker, limit * 2 / 3, limit - limit * 2 / 3)
  }

  /** A result, with a mark in front when it failed. */
  predicate IsResultText(m: Message, text: string, limit: nat, note: string)
  {
    var mark := if m.isError then "ERROR: " else "";
    mark <= text && IsKept(m.content, text[|mark|..], limit, note)
  }

  function ResultLimit(turn: seq<Message>, i: nat, isCurrent: bool, limits: Limits): nat
  {
    if !isCurrent then limits.olderTurnTool
    else if IsBeforeNewest(turn, i) then limits.currentTurnTool
    else limits.latestTool
  }

  predicate IsSentResult(turn: seq<Message>, i: nat, sent: Sent, isCurrent: bool, limits: Limits)
    requires i < |turn|
  {
    var note := if isCurrent && !IsBeforeNewest(turn, i) then "Cut to save space"
                else "Older output; read it again if you still need it";
    && sent.role == Tool && sent.callId == turn[i].callId && sent.calls == []
    && IsResultText(turn[i], sent.content, ResultLimit(turn, i, isCurrent, limits), note)
  }

  /** In Agent mode. The calls of the newest round of the current turn are whole. */
  ghost predicate IsSentWithTools(
    w: Wording, turn: seq<Message>, i: nat, sent: Sent, isCurrent: bool, limits: Limits)
    requires i < |turn|
  {
    match turn[i].role
    case User => true
    case Assistant => IsSentAssistant(w, turn[i], sent, isCurrent && !IsBeforeNewest(turn, i))
    case Tool => IsSentResult(turn, i, sent, isCurrent, limits)
  }

  ghost predicate IsCallInWords(w: Wording, call: ToolCall, text: string)
  {
    exists arguments ::
      && IsShortened(call.arguments, arguments, false)
      && text == "[earlier tool call: " + call.name + " " + w.dumps(arguments) + "]"
  }

  /** The assistant's words and its calls put into words, a line each. */
  ghost predicate IsInWords(w: Wording, m: Message, sent: Sent)
  {
    && sent.role == Assistant && sent.calls == []
    && exists calls: seq<string> ::
         && |calls| == |m.calls|
         && (forall k | 0 <= k < |calls| :: IsCallInWords(w, m.calls[k], calls[k]))
         && sent.content == Join("\n", (if m.content == "" then [] else [m.content]) + calls)
  }

  /** A result as data that the user hands over. */
  ghost predicate IsDataOf(w: Wording, m: Message, sent: Sent, limit: nat)
  {
    && sent.role == User && sent.calls == []
    && exists text ::
         && IsResultText(m, text, limit, "Part of this earlier output is no longer available")
         && sent.content == "<tool_result id=\"" + w.blockId(text) + "\">\n" + text
                            + "\n</tool_result id=\"" + w.blockId(text) + "\">"
  }

  /** In Ask mode. */
  ghost predicate IsSentAsText(w: Wording, m: Message, sent: Sent, isCurrent: bool, limits: Limits)
  {
    match m.role
    case User => true
    case Assistant => IsInWords(w, m, sent)
    case Tool => IsDataOf(w, m, sent, if isCurrent then limits.currentTurnTool else limits.olderTurnTool)
  }

  // ---- That it is sent so ----

  /** The newest round is the last assistant message with calls. */
  lemma {:induction false} NewestRoundIs(turn: seq<Message>, i: nat)
    requires i < |turn|
    ensures LastToolRound(turn) > i <==> IsBeforeNewest(turn, i)
    ensures
      var last := LastToolRound(turn);
      last >= 0 ==> turn[last].role == Assistant && turn[last].calls != []
  {
    var n := |turn| - 1;
    if !(turn[n].role == Assistant && turn[n].calls != []) {
      if i < n {
        NewestRoundIs(turn[..n], i);
      } else if n > 0 {
        NewestRoundIs(turn[..n], 0);
      }
      assert forall j | 0 <= j < n :: turn[..n][j] == turn[j];
    }
  }

  lemma {:induction false} CallIsSent(w: Wording, call: ToolCall, whole: bool)
    ensures IsSentCall(w, call, SendCall(w, call, whole), whole)
    ensures IsCallInWords(w, call, FlatCall(w, call))
  {
    assert IsShortened(call.arguments, CallArguments(call.arguments, whole), whole);
    assert IsShortened(call.arguments, CallArguments(call.arguments, false), false);
  }

  lemma {:induction false} CutIsKept(text: string, limit: nat, note: string)
    ensures IsKept(text, CutMiddle(text, limit, note), limit, note)
  {
    hide Decimal, KeepsEnds;
    if |text| > limit {
      CutMiddleKeepsLimit(text, limit, note);
    }
  }

  lemma {:induction false} ResultIsText(m: Message, limit: nat, note: string)
    ensures IsResultText(m, ToolText(m, limit, note), limit, note)
  {
    CutIsKept(m.content, limit, note);
    hide CutMiddle, IsKept;
    AtConcat(if m.isError then "ERROR: " else "", CutMiddle(m.content, limit, note));
  }

  lemma {:induction false} ToolEntryIsSent(w: Wording, turn: seq<Message>, i: nat, isCurrent: bool, limits: Limits)
    requires i < |turn| && turn[i].role != User
    ensures
      var sent := ToolEntry(w, turn[i], i, LastToolRound(turn), isCurrent, limits);
      IsSentWithTools(w, turn, i, sent, isCurrent, limits)
  {
    var m, last := turn[i], LastToolRound(turn);
    NewestRoundIs(turn, i);
    if m.role == Assistant {
      var whole := isCurrent && !IsBeforeNewest(turn, i);
      forall k | 0 <= k < |m.calls|
        ensures IsSentCall(w, m.calls[k], SendCall(w, m.calls[k], isCurrent && i == last), whole)
      {
        NewestCallIs(turn, i);
        CallIsSent(w, m.calls[k], whole);
      }
    } else {
      hide IsResultText, ToolText;
      var note := if isCurrent && i > last then NEWEST_OUTPUT_NOTE else OLDER_OUTPUT_NOTE;
      ResultIsText(m, ToolLimit(i, last, isCurrent, limits), note);
    }
  }

  lemma {:induction false} NewestCallIs(turn: seq<Message>, i: nat)
    requires i < |turn| && turn[i].role == Assistant && turn[i].calls != []
    ensures LastToolRound(turn) == i <==> !IsBeforeNewest(turn, i)
  {
    NewestRoundIs(turn, i);
    var n := |turn| - 1;
    if i < n && !(turn[n].role == Assistant && turn[n].calls != []) {
      NewestCallIs(turn[..n], i);
      assert forall j | 0 <= j < n :: turn[..n][j] == turn[j];
    }
  }

  lemma {:induction false} WordsAreSent(w: Wording, m: Message)
    ensures IsInWords(w, m, Sent(Assistant, Join("\n", FlatPieces(w, m)), [], ""))
  {
    hide Join, IsCallInWords, FlatCalls;
    CallsInWords(w, m.calls);
    assert |FlatCalls(w, m.calls)| == |m.calls|;
  }

  lemma {:induction false} CallsInWords(w: Wording, calls: seq<ToolCall>)
    ensures |FlatCalls(w, calls)| == |calls|
    ensures forall k | 0 <= k < |calls| :: IsCallInWords(w, calls[k], FlatCalls(w, calls)[k])
  {
    hide FlatCall, IsCallInWords;
    forall k | 0 <= k < |calls|
      ensures IsCallInWords(w, calls[k], FlatCall(w, calls[k]))
    {
      CallIsSent(w, calls[k], false);
    }
  }

  lemma {:induction false} DataBlockIs(w: Wording, tag: string, text: string)
    ensures
      var open, close := "<" + tag + " id=\"", "\n</" + tag + " id=\"";
      DataBlock(w, tag, text) == open + w.blockId(text) + "\">\n" + text + close + w.blockId(text) + "\">"
  {
    var front := "<" + tag + " id=\"" + w.blockId(text) + "\">\n" + text;
    Associative(front, "\n</", tag);
    Associative(front, "\n</" + tag, " id=\"");
  }

  lemma {:induction false} DataIsSent(w: Wording, m: Message, limit: nat)
    ensures IsDataOf(w, m, Sent(User, DataBlock(w, "tool_result", ToolText(m, limit, FLAT_OUTPUT_NOTE)), [], ""), limit)
  {
    hide IsResultText, ToolText, DataBlock;
    ResultIsText(m, limit, FLAT_OUTPUT_NOTE);
    DataBlockIs(w, "tool_result", ToolText(m, limit, FLAT_OUTPUT_NOTE));
    assert "<" + "tool_result" + " id=\"" == "<tool_result id=\"";
    assert "\n</" + "tool_result" + " id=\"" == "\n</tool_result id=\"";
  }

  lemma {:induction false} FlatEntryIsSent(w: Wording, m: Message, isCurrent: bool, limits: Limits)
    requires m.role != User
    ensures IsSentAsText(w, m, FlatEntry(w, m, isCurrent, limits), isCurrent, limits)
  {
    hide IsInWords, IsDataOf, DataBlock, ToolText, FlatPieces, Join;
    if m.role == Assistant {
      WordsAreSent(w, m);
    } else {
      DataIsSent(w, m, if isCurrent then limits.currentTurnTool else limits.olderTurnTool);
    }
  }

  // ---- On the page ----

  /** The message that opens a turn as the user's, with a text of the page's own in the current
      turn, and every other one as its mode sends it. */
  ghost predicate Carries(w: Wording, page: Page, turn: Turn, i: nat, isCurrent: bool, sent: Sent)
    requires i < |turn|
  {
    if turn[i].role == User then sent == Sent(User, if isCurrent then page.userText else turn[i].content, [], "")
    else if page.mode == Agent then IsSentWithTools(w, turn, i, sent, isCurrent, page.limits)
    else IsSentAsText(w, turn[i], sent, isCurrent, page.limits)
  }

  lemma {:induction false} RestIsSent(w: Wording, page: Page, rest: seq<Message>, i: nat, isCurrent: bool)
    requires NoUsers(rest) && i < |rest|
    ensures Carries(w, page, rest, i, isCurrent, Entry(w, page.mode, rest, i, isCurrent, page.limits))
  {
    hide IsSentWithTools, IsSentAsText, ToolEntry, FlatEntry;
    if page.mode == Agent {
      ToolEntryIsSent(w, rest, i, isCurrent, page.limits);
    } else {
      FlatEntryIsSent(w, rest[i], isCurrent, page.limits);
    }
  }

  /** Where the newest round starts does not depend on the user's message in front. */
  lemma {:induction false} CarriesBehindUser(
      w: Wording, page: Page, m: Message, rest: seq<Message>, i: nat, isCurrent: bool, sent: Sent)
    requires i < |rest| && rest[i].role != User && Carries(w, page, rest, i, isCurrent, sent)
    ensures Carries(w, page, [m] + rest, i + 1, isCurrent, sent)
  {
    var turn := [m] + rest;
    assert IsBeforeNewest(turn, i + 1) <==> IsBeforeNewest(rest, i) by {
      assert forall j | 0 <= j < |rest| :: turn[j + 1] == rest[j];
      if j :| i + 1 < j < |turn| && turn[j].role == Assistant && turn[j].calls != [] {
        assert rest[j - 1] == turn[j];
      }
    }
    hide IsBeforeNewest, IsSentAssistant, IsResultText, IsSentAsText;
  }

  lemma {:induction false} FollowingIsSent(w: Wording, page: Page, k: nat)
    requires IsRenderable(page.turns) && k < |page.turns| && NoUsers(RestOf(page.turns[k]))
    ensures
      var rest, sent := RestOf(page.turns[k]), Following(w, page, k);
      && |sent| == |rest|
      && forall i | 0 <= i < |rest| :: Carries(w, page, rest, i, IsCurrent(page, k), sent[i])
  {
    hide Entries, Entry, Carries, RestOf;
    var rest, isCurrent := RestOf(page.turns[k]), IsCurrent(page, k);
    EntriesOneToOne(w, page.mode, rest, |rest|, isCurrent, page.limits);
    forall i | 0 <= i < |rest|
      ensures Carries(w, page, rest, i, isCurrent, Following(w, page, k)[i])
    {
      RestIsSent(w, page, rest, i, isCurrent);
    }
  }

  lemma {:induction false} OpenerIsSent(w: Wording, page: Page, k: nat)
    requires IsRenderable(page.turns) && k < |page.turns| && page.turns[k][0].role == User
    ensures |Opening(page, k)| == 1
    ensures Carries(w, page, page.turns[k], 0, IsCurrent(page, k), Opening(page, k)[0])
  {
  }

  lemma {:induction false} TurnIsSent(w: Wording, page: Page, k: nat, i: nat)
    requires IsRenderable(page.turns) && k < |page.turns| && IsTurn(page.turns[k]) && i < |page.turns[k]|
    ensures |TurnSent(w, page, k)| == |page.turns[k]|
    ensures Carries(w, page, page.turns[k], i, IsCurrent(page, k), TurnSent(w, page, k)[i])
  {
    hide Following, Carries;
    var turn := page.turns[k];
    FollowingIsSent(w, page, k);
    if turn[0].role == User {
      OpenerIsSent(w, page, k);
      assert turn == [turn[0]] + turn[1..];
      if i > 0 {
        CarriesBehindUser(w, page, turn[0], turn[1..], i - 1, IsCurrent(page, k), Following(w, page, k)[i - 1]);
      }
    }
  }

  lemma {:induction false} TurnsAreSentWhole(w: Wording, page: Page, n: nat)
    requires IsRenderable(page.turns) && AreTurns(page.turns) && n <= |page.turns|
    ensures |SentTurns(w, page, n)| == |Flatten(page.turns[..n])|
  {
    hide TurnSent, Carries, AreTurns, IsTurn, IsRenderable;
    if n > 0 {
      TurnsAreSentWhole(w, page, n - 1);
      TurnOf(page.turns, n - 1);
      TurnIsSent(w, page, n - 1, 0);
      assert page.turns[..n][..n - 1] == page.turns[..n - 1];
    }
  }

  /** Every message of every turn is sent in its own place, behind those before it, as itself;
      and nothing else is sent but a "Continue." behind a text of the assistant's. */
  lemma {:induction false} MessageIsSentInPlace(w: Wording, page: Page, k: nat, i: nat)
    requires IsRenderable(page.turns) && AreTurns(page.turns) && k < |page.turns| && i < |page.turns[k]|
    ensures
      var sent, n, at := SentPage(w, page), |Flatten(page.turns)|, |Flatten(page.turns[..k])| + i;
      && at < n <= |sent|
      && Carries(w, page, page.turns[k], i, IsCurrent(page, k), sent[at])
      && sent[n..] == (if sent[n - 1].role == Assistant && sent[n - 1].calls == []
                       then [Sent(User, "Continue.", [], "")] else [])
  {
    hide TurnSent, Carries, AreTurns, Flatten, IsTurn;
    var all := SentTurns(w, page, |page.turns|);
    TurnsAreSentWhole(w, page, |page.turns|);
    TurnsAreSentWhole(w, page, k);
    assert page.turns[..|page.turns|] == page.turns;
    assert IsTurn(page.turns[k]) by {
      TurnOf(page.turns, k);
    }
    TurnIsSent(w, page, k, i);
    TurnsMessagesGrow(w, page, k + 1, |page.turns|);
    var before := SentTurns(w, page, k);
    assert SentTurns(w, page, k + 1) == before + TurnSent(w, page, k);
    assert all[|before| + i] == TurnSent(w, page, k)[i];
    AtConcat(all, Closing(all));
  }

  lemma {:induction false} TurnOf(turns: seq<Turn>, k: nat)
    requires AreTurns(turns) && k < |turns|
    ensures IsTurn(turns[k])
  {
  }
}
