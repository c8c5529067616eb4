/** The messages a browser sends, the messages the provider gets, and the pairing grammar
    both are held to. */
module Conversation {
  import opened Text

  datatype Role = User | Assistant | Tool

  /** A JSON value of a tool call's arguments: a string, or anything else kept as its text. */
  datatype Value = Str(text: string) | Json(raw: string)

  datatype Argument = Argument(key: string, value: Value)

  datatype ToolCall = ToolCall(id: string, name: string, arguments: seq<Argument>)

  /** A missing content, call list or call id of the source is the empty one here: every
      reader of those fields treats the two alike. */
  datatype Message = Message(role: Role, content: string, calls: seq<ToolCall>, callId: string, isError: bool)

  datatype SentCall = SentCall(id: string, name: string, arguments: string)

  /** One OpenAI-style message as the provider receives it. */
  datatype Sent = Sent(role: Role, content: string, calls: seq<SentCall>, callId: string)

  datatype Mode = Ask | Agent

  datatype OpenFile = OpenFile(name: string, content: string)

  datatype Context = Context(language: string, files: seq<string>, openFile: Option<OpenFile>, lastError: string)

  const GENERAL_LANGUAGE := "general"
  const CONTINUE_TEXT := "Continue."

  function Lookup(arguments: seq<Argument>, key: string): Option<Value>
  {
    if arguments == [] then None
    else if arguments[0].key == key then Some(arguments[0].value)
    else Lookup(arguments[1..], key)
  }

  predicate HasUser(messages: seq<Message>)
  {
    exists i | 0 <= i < |messages| :: messages[i].role == User
  }

  /** No user message carries tool calls. The request schema lets one through. */
  predicate UsersMakeNoCalls(messages: seq<Message>)
  {
    forall i | 0 <= i < |messages| :: messages[i].role == User ==> messages[i].calls == []
  }

  predicate OnlyAssistantsCall(messages: seq<Message>)
  {
    forall i | 0 <= i < |messages| :: messages[i].role != Assistant ==> messages[i].calls == []
  }

  // ---- The pairing grammar ----

  /** What pairing looks at: who speaks, the ids it asks for, and the id it answers. */
  datatype Shape = Shape(role: Role, asks: seq<string>, answers: string)

  function CallIds(calls: seq<ToolCall>): seq<string>
  {
    seq(|calls|, i requires 0 <= i < |calls| => calls[i].id)
  }

  function SentCallIds(calls: seq<SentCall>): seq<string>
  {
    seq(|calls|, i requires 0 <= i < |calls| => calls[i].id)
  }

  function ShapeOf(m: Message): Shape
  {
    if m.role == Tool then Shape(Tool, [], m.callId) else Shape(m.role, CallIds(m.calls), "")
  }

  function SentShapeOf(m: Sent): Shape
  {
    if m.role == Tool then Shape(Tool, [], m.callId) else Shape(m.role, SentCallIds(m.calls), "")
  }

  function Shapes(messages: seq<Message>): seq<Shape>
  {
    seq(|messages|, i requires 0 <= i < |messages| => ShapeOf(messages[i]))
  }

  function SentShapes(messages: seq<Sent>): seq<Shape>
  {
    seq(|messages|, i requires 0 <= i < |messages| => SentShapeOf(messages[i]))
  }

  /** `s` starts with something other than a result, then one result per id it asks for,
      in order. */
  ghost predicate StartsWithRound(s: seq<Shape>)
  {
    && s != []
    && s[0].role != Tool
    && |s[0].asks| < |s|
    && forall j | 1 <= j <= |s[0].asks| :: s[j] == Shape(Tool, [], s[0].asks[j - 1])
  }

  /** Every call is followed at once by its results, one per call and in call order, and
      there are no other results. */
  ghost predicate Paired(s: seq<Shape>)
  {
    s == [] || (StartsWithRound(s) && Paired(s[1 + |s[0].asks|..]))
  }

  lemma {:induction false} PairedConcat(a: seq<Shape>, b: seq<Shape>)
    requires Paired(a) && Paired(b)
    ensures Paired(a + b)
  {
    if a == [] {
      assert a + b == b;
    } else {
      var n := 1 + |a[0].asks|;
      PairedConcat(a[n..], b);
      hide Paired;
      assert (a + b)[n..] == a[n..] + b;
      RoundThenPaired(a + b);
    }
  }

  lemma {:induction false} RoundThenPaired(s: seq<Shape>)
    requires StartsWithRound(s) && Paired(s[1 + |s[0].asks|..])
    ensures Paired(s)
  {
  }

  /** A paired list may be cut wherever something other than a result starts. */
  lemma {:induction false} PairedSplit(s: seq<Shape>, k: nat)
    requires Paired(s)
    requires k <= |s|
    requires k == |s| || s[k].role != Tool
    ensures Paired(s[..k]) && Paired(s[k..])
  {
    if k == 0 {
      assert s[0..] == s;
    } else {
      var n := 1 + |s[0].asks|;
      assert k >= n;
      PairedSplit(s[n..], k - n);
      assert s[n..][k - n..] == s[k..];
      assert s[..k][n..] == s[n..][..k - n];
    }
  }

  /** In a paired list, what asks for nothing is not followed by a result. */
  lemma {:induction false} NoAskNoAnswer(s: seq<Shape>, i: nat)
    requires Paired(s)
    requires i + 1 < |s| && s[i].role != Tool && s[i].asks == []
    ensures s[i + 1].role != Tool
  {
    PairedSplit(s, i);
    assert s[i..][1..] == s[i + 1..];
    assert s[i..][0] == s[i];
    assert Paired(s[i + 1..]);
    assert s[i + 1..][0] == s[i + 1];
  }

  /** The round that starts at `i` in a paired list. */
  lemma {:induction false} RoundAt(s: seq<Shape>, i: nat)
    requires Paired(s)
    requires i < |s| && s[i].role != Tool
    ensures i + |s[i].asks| < |s|
    ensures forall j | i < j <= i + |s[i].asks| :: s[j] == Shape(Tool, [], s[i].asks[j - i - 1])
  {
    PairedSplit(s, i);
    var t := s[i..];
    forall j | i < j <= i + |s[i].asks|
      ensures s[j] == Shape(Tool, [], s[i].asks[j - i - 1])
    {
      assert s[j] == t[j - i];
    }
  }

  /** In a paired list every result belongs to a round before it. */
  lemma {:induction false} ResultHasRound(s: seq<Shape>, q: nat) returns (i: nat, j: nat)
    requires Paired(s)
    requires q < |s| && s[q].role == Tool
    ensures i < q && s[i].role != Tool
    ensures j < |s[i].asks| && q == i + 1 + j && s[q].answers == s[i].asks[j]
  {
    var n := 1 + |s[0].asks|;
    if q < n {
      i, j := 0, q - 1;
    } else {
      assert s[n..][q - n] == s[q];
      var i', j' := ResultHasRound(s[n..], q - n);
      i, j := i' + n, j';
    }
  }
}
