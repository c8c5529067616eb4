/** The optimizer itself: rendering step by step, and the ladder of attempts tried until the
    conversation fits its token budget. */
module Optimizer {
  import opened Text
  import opened Conversation
  import opened HistoryRepair
  import opened Turns
  import opened Render

  /** The six counters, filled in while rendering. */
  class SentParts {
    var fileChars: int
    var contextChars: int
    var userChars: int
    var toolResultChars: int
    var historyChars: int
    var turnAssistantChars: int

    constructor ()
      ensures Value() == NO_PARTS
    {
      fileChars, contextChars, userChars := 0, 0, 0;
      toolResultChars, historyChars, turnAssistantChars := 0, 0, 0;
    }

    function Value(): Parts
      reads this
    {
      Parts(fileChars, contextChars, userChars, toolResultChars, historyChars, turnAssistantChars)
    }

    method AddAssistant(chars: int, turnIsCurrent: bool)
      modifies this
      ensures Value() == old(Value()).AddAssistant(chars, turnIsCurrent)
    {
      if turnIsCurrent {
        turnAssistantChars := turnAssistantChars + chars;
      } else {
        historyChars := historyChars + chars;
      }
    }
  }

  method RenderToolTurn(w: Wording, turn: seq<Message>, turnIsCurrent: bool, limits: Limits, parts: SentParts)
    returns (rendered: seq<Sent>)
    modifies parts
    ensures rendered == Entries(w, Agent, turn, |turn|, turnIsCurrent, limits)
    ensures parts.Value() == old(parts.Value()).AddEntries(rendered, turnIsCurrent)
  {
    hide ToolEntry;
    var lastAssistant := LastToolRound(turn);
    rendered := [];
    for position := 0 to |turn|
      invariant rendered == Entries(w, Agent, turn, position, turnIsCurrent, limits)
      invariant parts.Value() == old(parts.Value()).AddEntries(rendered, turnIsCurrent)
    {
      var message := turn[position];
      if message.role != User {
        var entry := ToolEntry(w, message, position, lastAssistant, turnIsCurrent, limits);
        if message.role == Assistant {
          parts.AddAssistant(CharsOf(entry), turnIsCurrent);
        } else {
          parts.toolResultChars := parts.toolResultChars + |entry.content|;
        }
        assert (rendered + [entry])[..|rendered|] == rendered;
        rendered := rendered + [entry];
      }
    }
  }

  method RenderFlatTurn(w: Wording, turn: seq<Message>, turnIsCurrent: bool, limits: Limits, parts: SentParts)
    returns (rendered: seq<Sent>)
    modifies parts
    ensures rendered == Entries(w, Ask, turn, |turn|, turnIsCurrent, limits)
    ensures parts.Value() == old(parts.Value()).AddEntries(rendered, turnIsCurrent)
  {
    hide FlatEntry;
    rendered := [];
    for position := 0 to |turn|
      invariant rendered == Entries(w, Ask, turn, position, turnIsCurrent, limits)
      invariant parts.Value() == old(parts.Value()).AddEntries(rendered, turnIsCurrent)
    {
      var message := turn[position];
      if message.role != User {
        var entry := FlatEntry(w, message, turnIsCurrent, limits);
        if message.role == Assistant {
          parts.AddAssistant(|entry.content|, turnIsCurrent);
        } else {
          parts.toolResultChars := parts.toolResultChars + |entry.content|;
        }
        assert (rendered + [entry])[..|rendered|] == rendered;
        rendered := rendered + [entry];
      }
    }
  }

  lemma {:induction false} EntriesLeaveUserAndFile(p: Parts, messages: seq<Sent>, isCurrent: bool)
    ensures p.AddEntries(messages, isCurrent).user == p.user
    ensures p.AddEntries(messages, isCurrent).file == p.file
    decreases |messages|
  {
    if messages != [] {
      EntriesLeaveUserAndFile(p, messages[..|messages| - 1], isCurrent);
    }
  }

  /** Opens a turn with its user message. The context characters of the current one are what
      its text has beyond the user's and the file's, counted from the running totals. */
  method OpenTurn(w: Wording, req: Request, a: Attempt, position: nat, parts: SentParts) returns (opening: seq<Sent>)
    requires IsRenderable(a.turns) && position < |a.turns|
    requires parts.userChars == 0 && parts.fileChars == 0
    modifies parts
    ensures opening == Opening(PageOf(w, req, a), position)
    ensures parts.Value() == AddOpening(old(parts.Value()), PageOf(w, req, a), position)
  {
    hide CurrentUserText, SentFile;
    var turn := a.turns[position];
    var first := turn[0];
    opening := [];
    if first.role == User {
      var text := first.content;
      if position == |a.turns| - 1 {
        parts.userChars := parts.userChars + |text|;
        text := CurrentUserText(w, req, turn, a.limits, a.dropped);
        parts.fileChars := parts.fileChars + |SentFile(req, turn, a.limits)|;
        parts.contextChars := parts.contextChars + |text| - parts.userChars - parts.fileChars;
      } else {
        parts.historyChars := parts.historyChars + |text|;
      }
      opening := [Sent(User, text, [], "")];
    }
  }

  /** One turn: its opening message, then the rest in the mode's own format. */
  method RenderTurn(w: Wording, req: Request, a: Attempt, position: nat, parts: SentParts) returns (sent: seq<Sent>)
    requires IsRenderable(a.turns) && position < |a.turns|
    requires parts.userChars == 0 && parts.fileChars == 0
    modifies parts
    ensures
      var page := PageOf(w, req, a);
      var isCurrent := position == |a.turns| - 1;
      && sent == TurnSent(w, page, position)
      && parts.Value() ==
         AddOpening(old(parts.Value()), page, position).AddEntries(Following(w, page, position), isCurrent)
      && (!isCurrent ==> parts.userChars == 0 && parts.fileChars == 0)
  {
    hide Entries, CurrentUserText, SentFile;
    sent := OpenTurn(w, req, a, position, parts);
    ghost var entered := parts.Value();
    var turn := a.turns[position];
    var rest := if turn[0].role == User then turn[1..] else turn;
    var isCurrent := position == |a.turns| - 1;
    var following;
    if req.mode == Agent {
      following := RenderToolTurn(w, rest, isCurrent, a.limits, parts);
    } else {
      following := RenderFlatTurn(w, rest, isCurrent, a.limits, parts);
    }
    EntriesLeaveUserAndFile(entered, following, isCurrent);
    sent := sent + following;
  }

  method RenderTurns(w: Wording, req: Request, a: Attempt, parts: SentParts) returns (rendered: seq<Sent>)
    requires IsRenderable(a.turns)
    requires parts.Value() == NO_PARTS
    modifies parts
    ensures rendered == SentTurns(w, PageOf(w, req, a), |a.turns|)
    ensures parts.Value() == TurnsParts(w, PageOf(w, req, a), |a.turns|)
  {
    ghost var page := PageOf(w, req, a);
    rendered := [];
    for position := 0 to |a.turns|
      invariant rendered == SentTurns(w, page, position)
      invariant parts.Value() == TurnsParts(w, page, position)
      invariant position < |a.turns| ==> parts.userChars == 0 && parts.fileChars == 0
    {
      var sent := RenderTurn(w, req, a, position, parts);
      rendered := rendered + sent;
    }
  }

  /** A conversation that would end on the assistant's text gets a closing user message. */
  method Close(sent: seq<Sent>, parts: SentParts) returns (rendered: seq<Sent>)
    modifies parts
    ensures rendered == sent + Closing(sent)
    ensures parts.Value() == old(parts.Value()).(context := old(parts.contextChars) + SentChars(Closing(sent)))
  {
    rendered := sent;
    if EndsOnAssistantText(sent) {
      rendered := rendered + [CONTINUE];
      parts.contextChars := parts.contextChars + |CONTINUE_TEXT|;
      assert [CONTINUE][..0] == [];
    }
  }

  method RenderAttempt(w: Wording, req: Request, a: Attempt) returns (rendered: seq<Sent>, parts: SentParts)
    requires IsRenderable(a.turns)
    ensures fresh(parts)
    ensures Rendered(rendered, parts.Value()) == Rendering(w, req, a)
  {
    hide CurrentUserText, SentFile, EndsOnAssistantText;
    parts := new SentParts();
    var sent := RenderTurns(w, req, a, parts);
    rendered := Close(sent, parts);
  }

  method EstimateTokens(messages: seq<Sent>) returns (total: nat)
    ensures total == EstimatedTokens(messages)
  {
    total := 0;
    for i := 0 to |messages|
      invariant total == EstimatedTokens(messages[..i])
    {
      var m := messages[i];
      assert messages[..i + 1][..i] == messages[..i];
      total := total + MESSAGE_OVERHEAD_TOKENS + |m.content| / CHARS_PER_TOKEN;
      ghost var before := total;
      for k := 0 to |m.calls|
        invariant total == before + CallTokens(m.calls[..k])
      {
        assert m.calls[..k + 1][..k] == m.calls[..k];
        total := total + (|m.calls[k].name| + |m.calls[k].arguments|) / CHARS_PER_TOKEN;
      }
      assert m.calls[..|m.calls|] == m.calls;
    }
    assert messages[..|messages|] == messages;
  }

  // ---- The ladder of attempts ----

  /** Giving up a turn's oldest rounds one by one, and last the newest tier of all. */
  function RoundAttempts(turn: Turn, dropped: nat): seq<Attempt>
    decreases |turn|
  {
    match WithoutOldestRound(turn)
    case None => [Attempt([turn], TIERS[3], dropped)]
    case Some(shorter) => [Attempt([shorter], TIERS[2], dropped + 1)] + RoundAttempts(shorter, dropped + 1)
  }

  /** Fewer and fewer old turns around the whole current one. */
  function HistoryAttempts(turns: seq<Turn>, first: nat): seq<Attempt>
    requires first <= |turns|
    decreases |turns| - first
  {
    if first == |turns| then []
    else [Attempt(turns[first..], TIERS[0], first)] + HistoryAttempts(turns, first + 1)
  }

  /** Every attempt, in the order of preference. */
  function Attempts(turns: seq<Turn>): seq<Attempt>
    requires turns != []
  {
    var current, dropped := turns[|turns| - 1], |turns| - 1;
    HistoryAttempts(turns, FirstKept(turns))
    + TierAttempts(current, dropped)
    + RoundAttempts(current, dropped)
  }

  ghost predicate AllRenderable(attempts: seq<Attempt>)
  {
    forall i | 0 <= i < |attempts| :: IsRenderable(attempts[i].turns)
  }

  function Cost(w: Wording, req: Request, a: Attempt): nat
    requires IsRenderable(a.turns)
  {
    EstimatedTokens(Rendering(w, req, a).messages)
  }

  ghost predicate NoneFitsBefore(w: Wording, req: Request, attempts: seq<Attempt>, budget: nat, k: nat)
    requires AllRenderable(attempts)
  {
    forall i | 0 <= i < k && i < |attempts| :: Cost(w, req, attempts[i]) > budget
  }

  /** Attempt `k` is the first that fits, or the last one when none does. */
  ghost predicate IsChosen(w: Wording, req: Request, attempts: seq<Attempt>, budget: nat, k: nat)
    requires AllRenderable(attempts)
  {
    && k < |attempts|
    && NoneFitsBefore(w, req, attempts, budget, k)
    && (Cost(w, req, attempts[k]) <= budget || k == |attempts| - 1)
  }

  lemma {:induction false} RoundAttemptsRenderable(turn: Turn, dropped: nat)
    requires turn != []
    ensures AllRenderable(RoundAttempts(turn, dropped))
    decreases |turn|
  {
    match WithoutOldestRound(turn)
    case None =>
    case Some(shorter) => RoundAttemptsRenderable(shorter, dropped + 1);
  }

  lemma {:induction false} HistoryAttemptAt(turns: seq<Turn>, first: nat, i: nat)
    requires first <= |turns| && i < |turns| - first
    ensures |HistoryAttempts(turns, first)| == |turns| - first
    ensures HistoryAttempts(turns, first)[i] == Attempt(turns[first + i..], TIERS[0], first + i)
    decreases |turns| - first
  {
    if i > 0 {
      HistoryAttemptAt(turns, first + 1, i - 1);
    } else if first + 1 < |turns| {
      HistoryAttemptAt(turns, first + 1, 0);
    }
  }

  lemma {:induction false} HistoryAttemptsRenderable(turns: seq<Turn>, first: nat)
    requires IsRenderable(turns) && first < |turns|
    ensures AllRenderable(HistoryAttempts(turns, first))
  {
    HistoryAttemptAt(turns, first, 0);
    forall i | 0 <= i < |turns| - first
      ensures IsRenderable(HistoryAttempts(turns, first)[i].turns)
    {
      HistoryAttemptAt(turns, first, i);
    }
  }

  function TierAttempts(current: Turn, dropped: nat): seq<Attempt>
  {
    [Attempt([current], TIERS[1], dropped), Attempt([current], TIERS[2], dropped)]
  }

  /** Renders one attempt and says whether it fits. */
  method TryAttempt(w: Wording, req: Request, a: Attempt, budget: nat)
    returns (rendered: seq<Sent>, parts: SentParts, fits: bool)
    requires IsRenderable(a.turns)
    ensures fresh(parts)
    ensures Rendered(rendered, parts.Value()) == Rendering(w, req, a)
    ensures fits <==> Cost(w, req, a) <= budget
  {
    rendered, parts := RenderAttempt(w, req, a);
    var tokens := EstimateTokens(rendered);
    fits := tokens <= budget;
  }

  lemma {:induction false} FirstKeptInRange(turns: seq<Turn>)
    requires turns != []
    ensures FirstKept(turns) < |turns|
  {
  }

  lemma {:induction false} AttemptsRenderable(turns: seq<Turn>)
    requires IsRenderable(turns)
    ensures AllRenderable(Attempts(turns))
  {
    FirstKeptInRange(turns);
    HistoryAttemptsRenderable(turns, FirstKept(turns));
    RoundAttemptsRenderable(turns[|turns| - 1], |turns| - 1);
  }

  /** Where the three phases of the ladder lie. */
  lemma {:induction false} AttemptsLayout(turns: seq<Turn>)
    requires turns != []
    ensures
      var attempts, first, current := Attempts(turns), FirstKept(turns), turns[|turns| - 1];
      var tiers := |turns| - first;
      && tiers + 2 < |attempts|
      && attempts[..tiers] == HistoryAttempts(turns, first)
      && attempts[tiers] == Attempt([current], TIERS[1], |turns| - 1)
      && attempts[tiers + 1] == Attempt([current], TIERS[2], |turns| - 1)
      && attempts[tiers + 2..] == RoundAttempts(current, |turns| - 1)
  {
    hide FirstKept, IsFirstKept, WithoutOldestRound;
    FirstKeptInRange(turns);
    HistoryAttemptAt(turns, FirstKept(turns), 0);
  }

  /** Renders attempt after attempt until one fits. `k` is the place of the chosen one. */
  method FitToBudget(w: Wording, req: Request, turns: seq<Turn>, budget: nat)
    returns (rendered: seq<Sent>, parts: SentParts, ghost k: nat)
    requires IsRenderable(turns)
    ensures fresh(parts)
    ensures AllRenderable(Attempts(turns)) && IsChosen(w, req, Attempts(turns), budget, k)
    ensures Rendered(rendered, parts.Value()) == Rendering(w, req, Attempts(turns)[k])
  {
    hide Cost, Rendering, Attempts, AllRenderable, IsFirstKept, FirstKept, WithoutOldestRound;
    AttemptsRenderable(turns);
    AttemptsLayout(turns);
    ghost var attempts := Attempts(turns);
    var first := FirstKeptTurn(turns);
    FirstKeptIsUnique(turns, first, FirstKept(turns));
    FirstKeptInRange(turns);
    k := 0;
    var fits;
    for start := first to |turns|
      invariant k == start - first
      invariant NoneFitsBefore(w, req, attempts, budget, k)
    {
      HistoryAttemptAt(turns, first, k);
      assert attempts[..|turns| - first][k] == attempts[k];
      rendered, parts, fits := TryAttempt(w, req, Attempt(turns[start..], TIERS[0], start), budget);
      if fits {
        return;
      }
      k := k + 1;
    }
    var current := turns[|turns| - 1];
    var dropped: nat := |turns| - 1;
    for tier := 1 to 3
      invariant k == |turns| - first + tier - 1
      invariant NoneFitsBefore(w, req, attempts, budget, k)
    {
      rendered, parts, fits := TryAttempt(w, req, Attempt([current], TIERS[tier], dropped), budget);
      if fits {
        return;
      }
      k := k + 1;
    }
    var remaining := WithoutOldestRound(current);
    while remaining.Some?
      invariant current != [] && remaining == WithoutOldestRound(current)
      invariant k < |attempts| && attempts[k..] == RoundAttempts(current, dropped)
      invariant NoneFitsBefore(w, req, attempts, budget, k)
      decreases |current|
    {
      current := remaining.value;
      dropped := dropped + 1;
      assert attempts[k] == attempts[k..][0];
      rendered, parts, fits := TryAttempt(w, req, Attempt([current], TIERS[2], dropped), budget);
      if fits {
        return;
      }
      assert attempts[k + 1..] == attempts[k..][1..];
      k := k + 1;
      remaining := WithoutOldestRound(current);
    }
    assert attempts[k] == attempts[k..][0];
    rendered, parts := RenderAttempt(w, req, Attempt([current], TIERS[3], dropped));
  }
}
