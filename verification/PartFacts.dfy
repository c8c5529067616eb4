/** What each of the six counters counts, told from the messages that were sent. */
module PartFacts {
  import opened Text
  import opened Conversation
  import opened Turns
  import opened Render
  import opened RenderFacts
  import opened SentFacts

  /** The characters that the messages of one role were sent as, one for one. */
  function CharsFrom(turn: seq<Message>, sent: seq<Sent>, role: Role): nat
  {
    if turn == [] || |sent| != |turn| then 0
    else
      var n := |turn| - 1;
      CharsFrom(turn[..n], sent[..n], role) + if turn[n].role == role then CharsOf(sent[n]) else 0
  }

  /** The same over the first `n` turns of a page. */
  function CharsOfTurns(w: Wording, page: Page, n: nat, role: Role): nat
    requires IsRenderable(page.turns) && n <= |page.turns|
  {
    if n == 0 then 0
    else CharsOfTurns(w, page, n - 1, role) + CharsFrom(page.turns[n - 1], TurnSent(w, page, n - 1), role)
  }

  lemma {:induction false} CharsConcat(
      a: seq<Message>, s: seq<Sent>, b: seq<Message>, t: seq<Sent>, role: Role)
    requires |s| == |a| && |t| == |b|
    ensures CharsFrom(a + b, s + t, role) == CharsFrom(a, s, role) + CharsFrom(b, t, role)
  {
    hide CharsOf;
    if b == [] {
      assert a + b == a && s + t == s;
    } else {
      var n := |b| - 1;
      CharsConcat(a, s, b[..n], t[..n], role);
      assert (a + b)[..|a| + n] == a + b[..n] && (s + t)[..|a| + n] == s + t[..n];
    }
  }

  lemma {:induction false} OneMessageChars(m: Message, s: Sent, role: Role)
    ensures CharsFrom([m], [s], role) == if m.role == role then CharsOf(s) else 0
  {
    hide CharsOf;
    assert [m][..0] == [] && [s][..0] == [];
    assert CharsFrom([], [], role) == 0;
  }

  /** Results are sent as something else than the assistant's, and without calls. */
  ghost predicate KindsMatch(rest: seq<Message>, sent: seq<Sent>)
  {
    && |sent| == |rest|
    && forall i | 0 <= i < |rest| ::
         if rest[i].role == Assistant then sent[i].role == Assistant
         else rest[i].role == Tool && sent[i].role != Assistant && sent[i].calls == []
  }

  lemma {:induction false} EntriesAreCounted(p: Parts, rest: seq<Message>, sent: seq<Sent>, isCurrent: bool)
    requires KindsMatch(rest, sent)
    ensures
      var said, results := CharsFrom(rest, sent, Assistant), CharsFrom(rest, sent, Tool);
      p.AddEntries(sent, isCurrent) ==
      p.(toolResult := p.toolResult + results,
         history := p.history + if isCurrent then 0 else said,
         turnAssistant := p.turnAssistant + if isCurrent then said else 0)
    ensures CharsFrom(rest, sent, User) == 0
  {
    if rest != [] {
      var n := |rest| - 1;
      EntriesAreCounted(p, rest[..n], sent[..n], isCurrent);
      assert sent[n].calls == [] ==> ArgumentChars(sent[n].calls) == 0;
    }
  }

  lemma {:induction false} FollowingKinds(w: Wording, page: Page, k: nat)
    requires IsRenderable(page.turns) && k < |page.turns| && NoUsers(RestOf(page.turns[k]))
    ensures KindsMatch(RestOf(page.turns[k]), Following(w, page, k))
  {
    var rest, isCurrent := RestOf(page.turns[k]), IsCurrent(page, k);
    EntriesOneToOne(w, page.mode, rest, |rest|, isCurrent, page.limits);
    hide Entries, ToolEntry, FlatEntry;
    forall i | 0 <= i < |rest|
      ensures
        var e := Following(w, page, k)[i];
        if rest[i].role == Assistant then e.role == Assistant else e.role != Assistant && e.calls == []
    {
      assert Following(w, page, k)[i] == Entry(w, page.mode, rest, i, isCurrent, page.limits);
    }
  }

  /** A turn's opener counts as the user's, and all else as in the rest. */
  lemma {:induction false} TurnChars(w: Wording, page: Page, k: nat)
    requires IsRenderable(page.turns) && AreTurns(page.turns) && k < |page.turns|
    ensures
      var turn, sent := page.turns[k], TurnSent(w, page, k);
      var rest, following := RestOf(turn), Following(w, page, k);
      && KindsMatch(rest, following)
      && CharsFrom(turn, sent, Assistant) == CharsFrom(rest, following, Assistant)
      && CharsFrom(turn, sent, Tool) == CharsFrom(rest, following, Tool)
      && CharsFrom(turn, sent, User) == SentChars(Opening(page, k))
  {
    FollowingKinds(w, page, k);
    hide Following;
    var turn, rest, following := page.turns[k], RestOf(page.turns[k]), Following(w, page, k);
    EntriesAreCounted(NO_PARTS, rest, following, false);
    if turn[0].role == User {
      var opener := Sent(User, if IsCurrent(page, k) then page.userText else turn[0].content, [], "");
      assert Opening(page, k) == [opener] && turn == [turn[0]] + rest && [opener][..0] == [];
      OneMessageChars(turn[0], opener, User);
      OneMessageChars(turn[0], opener, Assistant);
      OneMessageChars(turn[0], opener, Tool);
      hide CharsFrom, KindsMatch;
      CharsConcat([turn[0]], [opener], rest, following, User);
      CharsConcat([turn[0]], [opener], rest, following, Assistant);
      CharsConcat([turn[0]], [opener], rest, following, Tool);
    } else {
      assert Opening(page, k) + following == following;
    }
  }

  /** What one turn adds to the counters. */
  lemma {:induction false} TurnIsCounted(p: Parts, w: Wording, page: Page, k: nat)
    requires IsRenderable(page.turns) && AreTurns(page.turns) && k < |page.turns|
    ensures
      var turn, sent, isCurrent := page.turns[k], TurnSent(w, page, k), IsCurrent(page, k);
      var said, asked := CharsFrom(turn, sent, Assistant), CharsFrom(turn, sent, User);
      var own := if turn[0].role == User then |turn[0].content| else 0;
      var after := AddOpening(p, page, k).AddEntries(Following(w, page, k), isCurrent);
      && after.toolResult == p.toolResult + CharsFrom(turn, sent, Tool)
      && after.history == p.history + (if isCurrent then 0 else asked + said)
      && after.turnAssistant == p.turnAssistant + (if isCurrent then said else 0)
      && after.user == p.user + (if isCurrent then own else 0)
      && after.file == p.file + (if isCurrent && turn[0].role == User then page.fileChars else 0)
      && after.context ==
         p.context + (if isCurrent && turn[0].role == User then |page.userText| - own - page.fileChars else 0)
  {
    TurnChars(w, page, k);
    hide CharsFrom, Following, KindsMatch, TurnSent, AreTurns;
    EntriesAreCounted(AddOpening(p, page, k), RestOf(page.turns[k]), Following(w, page, k), IsCurrent(page, k));
    assert Opening(page, k) != [] ==> Opening(page, k)[..0] == [];
  }

  lemma {:induction false} OneMoreTurn(w: Wording, page: Page, k: nat, role: Role)
    requires IsRenderable(page.turns) && k < |page.turns|
    ensures TurnsParts(w, page, k + 1) ==
            AddOpening(TurnsParts(w, page, k), page, k).AddEntries(Following(w, page, k), IsCurrent(page, k))
    ensures CharsOfTurns(w, page, k + 1, role) ==
            CharsOfTurns(w, page, k, role) + CharsFrom(page.turns[k], TurnSent(w, page, k), role)
    ensures TurnsParts(w, page, 0) == NO_PARTS && CharsOfTurns(w, page, 0, role) == 0
  {
    hide TurnSent, Following, AddOpening, CharsFrom;
  }

  lemma {:induction false} TurnsAreCounted(w: Wording, page: Page, n: nat)
    requires IsRenderable(page.turns) && AreTurns(page.turns) && n < |page.turns|
    ensures
      var earlier := CharsOfTurns(w, page, n, User) + CharsOfTurns(w, page, n, Assistant);
      TurnsParts(w, page, n) == NO_PARTS.(toolResult := CharsOfTurns(w, page, n, Tool), history := earlier)
  {
    hide TurnSent, Following, AddOpening, CharsFrom, AreTurns, TurnsParts, CharsOfTurns;
    var k := if n > 0 then n - 1 else 0;
    OneMoreTurn(w, page, k, User);
    OneMoreTurn(w, page, k, Assistant);
    OneMoreTurn(w, page, k, Tool);
    if n > 0 {
      TurnsAreCounted(w, page, k);
      TurnIsCounted(TurnsParts(w, page, k), w, page, k);
    }
  }

  /** Where the sent characters went: the user's own words, the open file's text, results in either
      mode, all else of earlier turns, the assistant's words and calls in this turn, and what was
      put around the user's words or behind the end. */
  lemma {:induction false} PartsAreCounted(w: Wording, page: Page)
    requires IsRenderable(page.turns) && AreTurns(page.turns) && page.turns[|page.turns| - 1][0].role == User
    ensures
      var n := |page.turns|;
      var current, parts, sent := page.turns[n - 1], PageParts(w, page), SentTurns(w, page, n);
      && parts.user == |current[0].content|
      && parts.file == page.fileChars
      && parts.toolResult == CharsOfTurns(w, page, n, Tool)
      && parts.history == CharsOfTurns(w, page, n - 1, User) + CharsOfTurns(w, page, n - 1, Assistant)
      && parts.turnAssistant == CharsFrom(current, TurnSent(w, page, n - 1), Assistant)
      && parts.context == |page.userText| - parts.user - parts.file
                          + if EndsOnAssistantText(sent) then |"Continue."| else 0
  {
    hide TurnSent, Following, AddOpening, CharsFrom, EndsOnAssistantText, Closing, SentTurns, AreTurns;
    hide TurnsParts, CharsOfTurns, SentChars;
    var n := |page.turns|;
    TurnsAreCounted(w, page, n - 1);
    ClosingChars(SentTurns(w, page, n));
    TurnIsCounted(TurnsParts(w, page, n - 1), w, page, n - 1);
    OneMoreTurn(w, page, n - 1, Tool);
  }

  lemma {:induction false} ClosingChars(sent: seq<Sent>)
    ensures SentChars(Closing(sent)) == if EndsOnAssistantText(sent) then |"Continue."| else 0
  {
    hide EndsOnAssistantText;
    assert [CONTINUE][..0] == [];
  }
}
