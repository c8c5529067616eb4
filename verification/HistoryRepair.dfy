/** Repair of the history a browser sends: each call is given its one result directly behind
    it, stray results go, and there is always a user message. */
module HistoryRepair {
  import opened Text
  import opened Conversation

  const NOT_RUN_TEXT := "Not run."

  function NotRun(id: string): Message
  {
    Message(Tool, NOT_RUN_TEXT, [], id, true)
  }

  function FirstResult(id: string, results: seq<Message>): Option<Message>
  {
    if results == [] then None
    else if results[0].callId == id then Some(results[0])
    else FirstResult(id, results[1..])
  }

  /** The first result for `id` in a run of results, or a stand-in. */
  function AnswerTo(id: string, results: seq<Message>): Message
  {
    match FirstResult(id, results)
    case Some(result) => result
    case None => NotRun(id)
  }

  function Answers(calls: seq<ToolCall>, results: seq<Message>): seq<Message>
  {
    seq(|calls|, i requires 0 <= i < |calls| => AnswerTo(calls[i].id, results))
  }

  function LeadingResults(messages: seq<Message>): (n: nat)
    ensures n <= |messages|
  {
    if messages == [] || messages[0].role != Tool then 0 else 1 + LeadingResults(messages[1..])
  }

  function PairUp(messages: seq<Message>): seq<Message>
    decreases |messages|
  {
    if messages == [] then []
    else
      var m, rest := messages[0], messages[1..];
      if m.role == Tool then PairUp(rest)
      else if m.calls == [] then [m] + PairUp(rest)
      else
        var n := LeadingResults(rest);
        [m] + Answers(m.calls, rest[..n]) + PairUp(rest[n..])
  }

  function WithUser(messages: seq<Message>): seq<Message>
  {
    if HasUser(messages) then messages else [Message(User, CONTINUE_TEXT, [], "", false)] + messages
  }

  function Repaired(messages: seq<Message>): seq<Message>
  {
    WithUser(PairUp(messages))
  }

  ghost predicate FirstById(byId: map<string, Message>, results: seq<Message>)
  {
    forall id :: FirstResult(id, results) == if id in byId then Some(byId[id]) else None
  }

  lemma {:induction false} FirstResultExtended(id: string, results: seq<Message>, m: Message)
    ensures FirstResult(id, results + [m]) ==
      if FirstResult(id, results).None? && m.callId == id then Some(m) else FirstResult(id, results)
  {
    if results != [] {
      FirstResultExtended(id, results[1..], m);
      assert (results + [m])[1..] == results[1..] + [m];
    }
  }

  /** Reads the results that follow a call, keeping the first for each id. */
  method TakeResults(messages: seq<Message>, start: nat) returns (byId: map<string, Message>, index: nat)
    requires start <= |messages|
    ensures index == start + LeadingResults(messages[start..])
    ensures index <= |messages| && FirstById(byId, messages[start..index])
  {
    byId := map[];
    index := start;
    while index < |messages| && messages[index].role == Tool
      invariant start <= index <= |messages|
      invariant index + LeadingResults(messages[index..]) == start + LeadingResults(messages[start..])
      invariant FirstById(byId, messages[start..index])
    {
      var result := messages[index];
      forall id {
        FirstResultExtended(id, messages[start..index], result);
      }
      assert messages[start..index + 1] == messages[start..index] + [result];
      assert messages[index..][1..] == messages[index + 1..];
      if result.callId !in byId {
        byId := byId[result.callId := result];
      }
      index := index + 1;
    }
  }

  method AnswerCalls(calls: seq<ToolCall>, byId: map<string, Message>, ghost results: seq<Message>)
    returns (answers: seq<Message>)
    requires FirstById(byId, results)
    ensures answers == Answers(calls, results)
  {
    answers := [];
    for k := 0 to |calls|
      invariant answers == Answers(calls, results)[..k]
    {
      var id := calls[k].id;
      answers := answers + [if id in byId then byId[id] else NotRun(id)];
    }
  }

  lemma {:induction false} EmptyPairsUp(messages: seq<Message>)
    requires messages == []
    ensures PairUp(messages) == []
  {
  }

  /** One step of pairing up, by what comes first. */
  lemma {:induction false} PairUpStep(message: Message, rest: seq<Message>)
    ensures
      PairUp([message] + rest) ==
      if message.role == Tool then PairUp(rest)
      else if message.calls == [] then [message] + PairUp(rest)
      else
        var n := LeadingResults(rest);
        [message] + Answers(message.calls, rest[..n]) + PairUp(rest[n..])
  {
    hide Answers;
    assert ([message] + rest)[1..] == rest;
  }

  method Repair(messages: seq<Message>) returns (repaired: seq<Message>)
    ensures repaired == Repaired(messages)
  {
    hide PairUp, Answers, FirstById, LeadingResults;
    assert messages[0..] == messages;
    repaired := [];
    var index := 0;
    while index < |messages|
      invariant 0 <= index <= |messages|
      invariant repaired + PairUp(messages[index..]) == PairUp(messages)
    {
      var message := messages[index];
      ghost var rest := messages[index + 1..];
      assert messages[index..] == [message] + rest;
      PairUpStep(message, rest);
      index := index + 1;
      if message.role == Tool {
      } else if message.calls == [] {
        Associative(repaired, [message], PairUp(rest));
        repaired := repaired + [message];
      } else {
        var byId, next := TakeResults(messages, index);
        ghost var n := next - index;
        assert rest[..n] == messages[index..next] && rest[n..] == messages[next..];
        var answers := AnswerCalls(message.calls, byId, messages[index..next]);
        Associative(repaired, [message], answers);
        Associative(repaired, [message] + answers, PairUp(rest[n..]));
        repaired := repaired + [message] + answers;
        index := next;
      }
    }
    assert repaired == PairUp(messages) by {
      EmptyPairsUp(messages[index..]);
    }
    if !HasUser(repaired) {
      repaired := [Message(User, CONTINUE_TEXT, [], "", false)] + repaired;
    }
  }

  // ---- What repair guarantees ----

  /** Each call is followed by its result, in order, and results for the same id are the same:
      with distinct ids the last clause says nothing. */
  ghost predicate PairedMessages(messages: seq<Message>)
    decreases |messages|
  {
    messages == [] ||
    (var m, n := messages[0], |messages[0].calls|;
     && m.role != Tool
     && n < |messages|
     && (forall j | 1 <= j <= n :: messages[j].role == Tool && messages[j].callId == m.calls[j - 1].id)
     && (forall i, j | 1 <= i < j <= n :: messages[i].callId == messages[j].callId ==> messages[i] == messages[j])
     && PairedMessages(messages[1 + n..]))
  }

  lemma {:induction false} FirstResultAnswers(id: string, results: seq<Message>)
    requires forall r | r in results :: r.role == Tool
    ensures AnswerTo(id, results).role == Tool && AnswerTo(id, results).callId == id
  {
    if results != [] {
      FirstResultAnswers(id, results[1..]);
    }
  }

  lemma {:induction false} LeadingAreResults(messages: seq<Message>)
    ensures forall i | 0 <= i < LeadingResults(messages) :: messages[i].role == Tool
  {
    if messages != [] && messages[0].role == Tool {
      LeadingAreResults(messages[1..]);
      assert forall i | 1 <= i < LeadingResults(messages) :: messages[i] == messages[1..][i - 1];
    }
  }

  lemma {:induction false} AnswersAnswer(calls: seq<ToolCall>, results: seq<Message>)
    requires forall i | 0 <= i < |results| :: results[i].role == Tool
    ensures |Answers(calls, results)| == |calls|
    ensures forall k | 0 <= k < |calls| ::
              Answers(calls, results)[k].role == Tool && Answers(calls, results)[k].callId == calls[k].id
  {
    forall k | 0 <= k < |calls|
      ensures AnswerTo(calls[k].id, results).role == Tool && AnswerTo(calls[k].id, results).callId == calls[k].id
    {
      FirstResultAnswers(calls[k].id, results);
    }
  }

  /** A message, its results and a paired list make a paired list. */
  lemma {:induction false} RoundIsPaired(m: Message, results: seq<Message>, rest: seq<Message>)
    requires m.role != Tool && |results| == |m.calls| && PairedMessages(rest)
    requires forall k | 0 <= k < |results| :: results[k].role == Tool && results[k].callId == m.calls[k].id
    requires forall i, k | 0 <= i < k < |results| :: results[i].callId == results[k].callId ==> results[i] == results[k]
    ensures PairedMessages([m] + results + rest)
  {
    var r, n := [m] + results + rest, |results|;
    assert r[1 + n..] == rest;
    assert forall j | 1 <= j <= n :: r[j] == results[j - 1];
  }

  /** Pairing up always leaves a paired list. */
  lemma {:induction false} PairUpIsPaired(messages: seq<Message>)
    ensures PairedMessages(PairUp(messages))
    decreases |messages|
  {
    if messages != [] {
      var m, rest := messages[0], messages[1..];
      hide PairedMessages;
      if m.role == Tool {
        PairUpIsPaired(rest);
      } else if m.calls == [] {
        PairUpIsPaired(rest);
        RoundIsPaired(m, [], PairUp(rest));
        assert [m] + [] + PairUp(rest) == [m] + PairUp(rest);
      } else {
        var n := LeadingResults(rest);
        PairUpIsPaired(rest[n..]);
        LeadingAreResults(rest);
        AnswersAnswer(m.calls, rest[..n]);
        RoundIsPaired(m, Answers(m.calls, rest[..n]), PairUp(rest[n..]));
      }
    } else {
      assert PairUp(messages) == [];
    }
  }

  lemma {:induction false} FirstResultAt(results: seq<Message>, k: nat)
    requires k < |results|
    requires forall i | 0 <= i < k :: results[i].callId == results[k].callId ==> results[i] == results[k]
    ensures FirstResult(results[k].callId, results) == Some(results[k])
  {
    if k > 0 {
      FirstResultAt(results[1..], k - 1);
    }
  }

  lemma {:induction false} LeadingResultsUpTo(messages: seq<Message>, n: nat)
    requires n <= |messages|
    requires forall i | 0 <= i < n :: messages[i].role == Tool
    requires n < |messages| ==> messages[n].role != Tool
    ensures LeadingResults(messages) == n
  {
    if n > 0 {
      LeadingResultsUpTo(messages[1..], n - 1);
    }
  }

  /** Results in their own places are the ones pairing up would choose. */
  lemma {:induction false} AnswersInPlace(calls: seq<ToolCall>, run: seq<Message>)
    requires |run| == |calls|
    requires forall k | 0 <= k < |run| :: run[k].callId == calls[k].id
    requires forall i, k | 0 <= i < k < |run| :: run[i].callId == run[k].callId ==> run[i] == run[k]
    ensures Answers(calls, run) == run
  {
    forall k | 0 <= k < |run|
      ensures AnswerTo(calls[k].id, run) == run[k]
    {
      FirstResultAt(run, k);
    }
  }

  /** The round at the start of a paired list. */
  lemma {:induction false} PairedStart(messages: seq<Message>)
    requires PairedMessages(messages) && messages != []
    ensures
      var m, n := messages[0], |messages[0].calls|;
      && m.role != Tool && n < |messages|
      && PairedMessages(messages[1 + n..])
      && (n > 0 ==> LeadingResults(messages[1..]) == n && Answers(m.calls, messages[1..1 + n]) == messages[1..1 + n])
  {
    var m, n := messages[0], |messages[0].calls|;
    var rest, run := messages[1..], messages[1..1 + n];
    if n > 0 {
      assert rest[n..] == messages[1 + n..];
      assert n < |rest| ==> rest[n] == rest[n..][0];
      assert forall i | 0 <= i < n :: rest[i] == messages[i + 1] && run[i] == messages[i + 1];
      LeadingResultsUpTo(rest, n);
      AnswersInPlace(m.calls, run);
    }
  }

  lemma {:induction false} PairUpRound(m: Message, run: seq<Message>, tail: seq<Message>)
    requires m.role != Tool && |run| == |m.calls|
    requires run != [] ==> LeadingResults(run + tail) == |run| && Answers(m.calls, run) == run
    ensures PairUp([m] + (run + tail)) == [m] + (run + PairUp(tail))
  {
    hide PairUp, Answers, LeadingResults;
    PairUpStep(m, run + tail);
    assert (run + tail)[..|run|] == run && (run + tail)[|run|..] == tail;
  }

  lemma {:induction false} StartRunTail(messages: seq<Message>, n: nat)
    requires n < |messages|
    ensures messages[1..] == messages[1..1 + n] + messages[1 + n..]
    ensures messages == [messages[0]] + (messages[1..1 + n] + messages[1 + n..])
  {
  }

  /** Pairing up leaves a paired list as it is. */
  lemma {:induction false} PairUpKeepsPaired(messages: seq<Message>)
    requires PairedMessages(messages)
    ensures PairUp(messages) == messages
    decreases |messages|
  {
    if messages != [] {
      var m, n := messages[0], |messages[0].calls|;
      PairedStart(messages);
      hide PairedMessages, PairUp, Answers, LeadingResults;
      var run, tail := messages[1..1 + n], messages[1 + n..];
      PairUpKeepsPaired(tail);
      StartRunTail(messages, n);
      PairUpRound(m, run, tail);
    }
  }

  /** Repair changes nothing exactly when the list is already paired and has a user. */
  lemma {:induction false} RepairIsIdentityExactly(messages: seq<Message>)
    ensures Repaired(messages) == messages <==> PairedMessages(messages) && HasUser(messages)
  {
    PairUpIsPaired(messages);
    if PairedMessages(messages) {
      PairUpKeepsPaired(messages);
    }
    RepairedIsPaired(messages);
  }

  /** Whatever came in, what comes out is paired and has a user message. */
  lemma {:induction false} RepairedIsPaired(messages: seq<Message>)
    ensures PairedMessages(Repaired(messages)) && HasUser(Repaired(messages))
  {
    var r := PairUp(messages);
    PairUpIsPaired(messages);
    var withUser := [Message(User, CONTINUE_TEXT, [], "", false)] + r;
    assert withUser[1..] == r && withUser[0].role == User;
  }

  lemma {:induction false} RepairIsIdempotent(messages: seq<Message>)
    ensures Repaired(Repaired(messages)) == Repaired(messages)
  {
    RepairedIsPaired(messages);
    RepairIsIdentityExactly(Repaired(messages));
  }

  lemma {:induction false} PairedMessagesArePaired(messages: seq<Message>)
    requires PairedMessages(messages)
    ensures Paired(Shapes(messages))
    decreases |messages|
  {
    if messages != [] {
      var n := |messages[0].calls|;
      PairedMessagesArePaired(messages[1 + n..]);
      assert Shapes(messages)[1 + n..] == Shapes(messages[1 + n..]);
      assert forall j | 1 <= j <= n :: Shapes(messages)[j] == ShapeOf(messages[j]);
    }
  }

  function Speech(messages: seq<Message>): seq<Message>
  {
    if messages == [] then []
    else (if messages[0].role == Tool then [] else [messages[0]]) + Speech(messages[1..])
  }

  lemma {:induction false} SpeechConcat(a: seq<Message>, b: seq<Message>)
    ensures Speech(a + b) == Speech(a) + Speech(b)
  {
    if a == [] {
      assert a + b == b;
    } else {
      var first := if a[0].role == Tool then [] else [a[0]];
      TailOfConcat(a, b);
      SpeechConcat(a[1..], b);
      Associative(first, Speech(a[1..]), Speech(b));
    }
  }

  lemma {:induction false} ResultsAreNotSpeech(messages: seq<Message>)
    requires forall i | 0 <= i < |messages| :: messages[i].role == Tool
    ensures Speech(messages) == []
  {
    if messages != [] {
      ResultsAreNotSpeech(messages[1..]);
    }
  }

  lemma {:induction false} RoundSpeech(m: Message, results: seq<Message>, tail: seq<Message>)
    requires forall i | 0 <= i < |results| :: results[i].role == Tool
    ensures Speech([m] + results + tail) == Speech([m]) + Speech(tail)
  {
    hide Speech;
    ResultsAreNotSpeech(results);
    SpeechConcat([m] + results, tail);
    SpeechConcat([m], results);
  }

  lemma {:induction false} RunIsNotSpeech(messages: seq<Message>, n: nat)
    requires n <= |messages| && forall i | 0 <= i < n :: messages[i].role == Tool
    ensures Speech(messages) == Speech(messages[n..])
  {
    hide Speech;
    ResultsAreNotSpeech(messages[..n]);
    SpeechConcat(messages[..n], messages[n..]);
    assert messages == messages[..n] + messages[n..];
  }

  /** Pairing up drops, adds and moves only results: every other message stays, in order. */
  lemma {:induction false} PairUpKeepsSpeech(messages: seq<Message>)
    ensures Speech(PairUp(messages)) == Speech(messages)
    decreases |messages|
  {
    if messages != [] {
      var m, rest := messages[0], messages[1..];
      hide Answers, LeadingResults, PairUp, Speech;
      assert messages == [m] + rest;
      PairUpStep(m, rest);
      SpeechConcat([m], rest);
      if m.role == Tool {
        ResultsAreNotSpeech([m]);
        PairUpKeepsSpeech(rest);
      } else if m.calls == [] {
        PairUpKeepsSpeech(rest);
        SpeechConcat([m], PairUp(rest));
      } else {
        var n := LeadingResults(rest);
        LeadingAreResults(rest);
        AnswersAnswer(m.calls, rest[..n]);
        PairUpKeepsSpeech(rest[n..]);
        RoundSpeech(m, Answers(m.calls, rest[..n]), PairUp(rest[n..]));
        RunIsNotSpeech(rest, n);
      }
    } else {
      EmptyPairsUp(messages);
    }
  }

  lemma {:induction false} SpeechHolds(messages: seq<Message>, m: Message)
    requires m.role != Tool
    ensures m in Speech(messages) <==> m in messages
  {
    if messages != [] {
      SpeechHolds(messages[1..], m);
      assert messages == [messages[0]] + messages[1..];
    }
  }

  /** Repair neither hides nor creates a user message that carries calls. */
  lemma {:induction false} RepairKeepsUserCalls(messages: seq<Message>)
    ensures UsersMakeNoCalls(Repaired(messages)) <==> UsersMakeNoCalls(messages)
  {
    var r := PairUp(messages);
    PairUpKeepsSpeech(messages);
    forall m: Message | m.role == User
      ensures m in r <==> m in messages
    {
      SpeechHolds(r, m);
      SpeechHolds(messages, m);
    }
    assert UsersMakeNoCalls(r) <==> UsersMakeNoCalls(messages) by {
      if UsersMakeNoCalls(r) {
        forall i | 0 <= i < |messages| && messages[i].role == User
          ensures messages[i].calls == []
        {
          assert messages[i] in r;
        }
      }
      if UsersMakeNoCalls(messages) {
        forall i | 0 <= i < |r| && r[i].role == User
          ensures r[i].calls == []
        {
          assert r[i] in messages;
        }
      }
    }
    var w := Repaired(messages);
    if w != r {
      assert forall i | 0 <= i < |r| :: w[i + 1] == r[i];
    }
  }

  lemma {:induction false} FirstResultIsGiven(id: string, results: seq<Message>)
    ensures AnswerTo(id, results) in results || AnswerTo(id, results) == NotRun(id)
  {
    if results != [] {
      FirstResultIsGiven(id, results[1..]);
    }
  }

  lemma {:induction false} AnswersAreGiven(calls: seq<ToolCall>, results: seq<Message>)
    ensures forall m | m in Answers(calls, results) :: m in results || m == NotRun(m.callId)
  {
    forall k | 0 <= k < |calls|
      ensures Answers(calls, results)[k] in results || Answers(calls, results)[k] == NotRun(calls[k].id)
    {
      FirstResultIsGiven(calls[k].id, results);
    }
  }

  /** Every message of a paired-up list was there before, or stands in for a missing result. */
  lemma {:induction false} PairUpInvents(messages: seq<Message>)
    ensures forall m | m in PairUp(messages) :: m in messages || m == NotRun(m.callId)
    decreases |messages|
  {
    if messages != [] {
      var rest := messages[1..];
      var n := LeadingResults(rest);
      PairUpInvents(rest);
      PairUpInvents(rest[n..]);
      AnswersAreGiven(messages[0].calls, rest[..n]);
      hide Answers, LeadingResults;
      assert messages == [messages[0]] + rest;
      assert forall m | m in rest[n..] || m in rest[..n] :: m in rest;
    }
  }

  // ---- Which result a call is given ----

  /** The answer is the run's first message with this id, or a stand-in when none has it. */
  ghost predicate IsGivenTo(id: string, answer: Message, run: seq<Message>)
  {
    || ((forall i | 0 <= i < |run| :: run[i].callId != id) && answer == Message(Tool, "Not run.", [], id, true))
    || (exists i | 0 <= i < |run| ::
          run[i].callId == id && answer == run[i] && forall j | 0 <= j < i :: run[j].callId != id)
  }

  lemma {:induction false} AnswerIsGiven(id: string, run: seq<Message>)
    ensures IsGivenTo(id, AnswerTo(id, run), run)
  {
    if run != [] && run[0].callId != id {
      var rest := run[1..];
      AnswerIsGiven(id, rest);
      if i :| 0 <= i < |rest| && rest[i].callId == id && AnswerTo(id, rest) == rest[i]
              && forall j | 0 <= j < i :: rest[j].callId != id {
        assert run[i + 1] == rest[i];
        assert forall j | 1 <= j < i + 1 :: run[j] == rest[j - 1];
      } else {
        assert forall i | 1 <= i < |run| :: run[i] == rest[i - 1];
      }
    }
  }

  /** A run of results ends in front of anything else. */
  lemma {:induction false} RunEnds(a: seq<Message>, b: seq<Message>)
    requires b != [] && b[0].role != Tool
    ensures LeadingResults(a + b) == LeadingResults(a)
  {
    if a == [] {
      assert a + b == b;
    } else {
      TailOfConcat(a, b);
      RunEnds(a[1..], b);
    }
  }

  /** What stands in front of anything but a result is paired up by itself. */
  lemma {:induction false} PairUpConcat(a: seq<Message>, b: seq<Message>)
    requires b != [] && b[0].role != Tool
    ensures PairUp(a + b) == PairUp(a) + PairUp(b)
    decreases |a|
  {
    hide PairUp, Answers, LeadingResults;
    if a == [] {
      EmptyPairsUp(a);
      assert a + b == b;
    } else {
      var m, rest := a[0], a[1..];
      assert a == [m] + rest && a + b == [m] + (rest + b);
      PairUpStep(m, rest);
      PairUpStep(m, rest + b);
      if m.role == Tool {
        PairUpConcat(rest, b);
      } else if m.calls == [] {
        PairUpConcat(rest, b);
        Associative([m], PairUp(rest), PairUp(b));
      } else {
        RunEnds(rest, b);
        var n := LeadingResults(rest);
        assert (rest + b)[..n] == rest[..n] && (rest + b)[n..] == rest[n..] + b;
        PairUpConcat(rest[n..], b);
        Associative([m] + Answers(m.calls, rest[..n]), PairUp(rest[n..]), PairUp(b));
      }
    }
  }

  /** What is said stays as it is, with a message that says "Continue." in front when no user
      speaks. */
  lemma {:induction false} RepairKeepsSpeech(messages: seq<Message>)
    ensures
      var start := if HasUser(messages) then [] else [Message(User, "Continue.", [], "", false)];
      && Repaired(messages) == start + PairUp(messages)
      && Speech(Repaired(messages)) == start + Speech(messages)
  {
    SameUsers(messages);
    StartedSpeech(if HasUser(messages) then [] else [Message(User, "Continue.", [], "", false)], messages);
    hide PairUp, Speech, HasUser;
  }

  lemma {:induction false} SameUsers(messages: seq<Message>)
    ensures HasUser(PairUp(messages)) <==> HasUser(messages)
  {
    var out := PairUp(messages);
    PairUpKeepsSpeech(messages);
    hide PairUp, Speech;
    if i :| 0 <= i < |messages| && messages[i].role == User {
      SpeechHolds(messages, messages[i]);
      SpeechHolds(out, messages[i]);
    }
    if i :| 0 <= i < |out| && out[i].role == User {
      SpeechHolds(messages, out[i]);
      SpeechHolds(out, out[i]);
    }
  }

  /** Where a message goes, and what follows it there: each of its calls is answered by the first
      of the results that followed it with the call's id, and is "Not run." only when none has it.
      `q` is its place, behind all that was said before it. */
  lemma {:induction false} GivenResultsAreKept(messages: seq<Message>, p: nat, end: nat) returns (q: nat)
    requires p < end <= |messages| && messages[p].role != Tool
    requires forall i | p < i < end :: messages[i].role == Tool
    requires end < |messages| ==> messages[end].role != Tool
    ensures
      var out, calls := Repaired(messages), messages[p].calls;
      var start := if HasUser(messages) then [] else [Message(User, "Continue.", [], "", false)];
      && q + |calls| < |out| && out[q] == messages[p]
      && Speech(out[..q]) == start + Speech(messages[..p])
      && forall k | 0 <= k < |calls| :: IsGivenTo(calls[k].id, out[q + 1 + k], messages[p + 1..end])
  {
    hide PairUp, Speech, IsGivenTo, HasUser, Repaired;
    var start := if HasUser(messages) then [] else [Message(User, "Continue.", [], "", false)];
    var before, round := start + PairUp(messages[..p]), PairUp([messages[p]] + messages[p + 1..]);
    q := |before|;
    RepairedAround(messages, p);
    StartedSpeech(start, messages[..p]);
    RoundIsGiven(messages[p], messages[p + 1..], end - p - 1);
    assert messages[p + 1..][..end - p - 1] == messages[p + 1..end];
    AtConcat(before, round);
  }

  lemma {:induction false} RepairedAround(messages: seq<Message>, p: nat)
    requires p < |messages| && messages[p].role != Tool
    ensures
      var start := if HasUser(messages) then [] else [Message(User, "Continue.", [], "", false)];
      Repaired(messages) == start + PairUp(messages[..p]) + PairUp([messages[p]] + messages[p + 1..])
  {
    hide PairUp, Speech, HasUser, Repaired;
    var start := if HasUser(messages) then [] else [Message(User, "Continue.", [], "", false)];
    var rest := [messages[p]] + messages[p + 1..];
    RepairKeepsSpeech(messages);
    assert messages == messages[..p] + rest;
    PairUpConcat(messages[..p], rest);
    Associative(start, PairUp(messages[..p]), PairUp(rest));
  }

  lemma {:induction false} StartedSpeech(start: seq<Message>, messages: seq<Message>)
    requires |start| <= 1 && forall m | m in start :: m.role != Tool
    ensures Speech(start + PairUp(messages)) == start + Speech(messages)
  {
    hide PairUp, Speech;
    PairUpKeepsSpeech(messages);
    StartSpeaks(start);
    SpeechConcat(start, PairUp(messages));
  }

  /** The round that a message with the run behind it is paired up to. */
  lemma {:induction false} RoundIsGiven(m: Message, rest: seq<Message>, n: nat)
    requires m.role != Tool && n <= |rest|
    requires forall i | 0 <= i < n :: rest[i].role == Tool
    requires n < |rest| ==> rest[n].role != Tool
    ensures
      var out := PairUp([m] + rest);
      && |m.calls| < |out| && out[0] == m
      && forall k | 0 <= k < |m.calls| :: IsGivenTo(m.calls[k].id, out[1 + k], rest[..n])
  {
    hide PairUp, IsGivenTo, LeadingResults;
    PairUpStep(m, rest);
    LeadingResultsUpTo(rest, n);
    forall k | 0 <= k < |m.calls|
      ensures IsGivenTo(m.calls[k].id, AnswerTo(m.calls[k].id, rest[..n]), rest[..n])
    {
      AnswerIsGiven(m.calls[k].id, rest[..n]);
    }
  }

  lemma {:induction false} StartSpeaks(start: seq<Message>)
    requires |start| <= 1 && forall m | m in start :: m.role != Tool
    ensures Speech(start) == start
  {
    if start != [] {
      assert start[1..] == [];
    }
  }

  lemma {:induction false} RepairKeepsOnlyAssistantsCall(messages: seq<Message>)
    requires OnlyAssistantsCall(messages)
    ensures OnlyAssistantsCall(Repaired(messages))
  {
    PairUpInvents(messages);
  }
}
