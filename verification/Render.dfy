/** What one fitting attempt sends: each turn rendered for its mode, the current user message
    with its context block, and where the sent characters went. */
module Render {
  import opened Text
  import opened Conversation
  import opened Turns

  const CHARS_PER_TOKEN := 4
  const MESSAGE_OVERHEAD_TOKENS := 4
  const MAX_LISTED_FILES := 40
  const LONG_ARGUMENT_CHARS := 200
  const READ_FILE := "read_file"
  const OLDER_OUTPUT_NOTE := "Older output; read it again if you still need it"
  const NEWEST_OUTPUT_NOTE := "Cut to save space"
  const FLAT_OUTPUT_NOTE := "Part of this earlier output is no longer available"

  /** The longest text of each kind that an attempt sends uncut. */
  datatype Limits = Limits(
    olderTurnTool: nat, currentTurnTool: nat, latestTool: nat, openFile: nat, lastError: nat)

  const TIERS: seq<Limits> := [
    Limits(400, 4000, 16000, 12000, 2000),
    Limits(200, 1000, 16000, 6000, 1500),
    Limits(200, 400, 8000, 0, 1000),
    Limits(200, 200, 4000, 0, 500)]

  /** The text helpers whose wording the model does not look into. */
  datatype Wording = Wording(
    dumps: seq<Argument> -> string,
    blockId: string -> string,
    oneLine: string -> string,
    hint: (string, bool) -> string,
    mentioned: (string, seq<string>) -> seq<string>,
    tidySpacing: string -> string,
    tidyUserText: string -> string)

  /** What stays the same over all attempts. */
  datatype Request = Request(context: Context, mode: Mode, mentioned: seq<string>)

  datatype Attempt = Attempt(turns: seq<Turn>, limits: Limits, dropped: nat)

  // ---- Tool results and calls ----

  /** Where the newest round starts; -1 when the assistant called nothing. */
  function LastToolRound(turn: seq<Message>): (last: int)
    ensures -1 <= last < |turn|
  {
    if turn == [] then -1
    else
      var m := turn[|turn| - 1];
      if m.role == Assistant && m.calls != [] then |turn| - 1 else LastToolRound(turn[..|turn| - 1])
  }

  function ToolLimit(position: int, lastRound: int, isCurrent: bool, limits: Limits): nat
  {
    if !isCurrent then limits.olderTurnTool
    else if position > lastRound then limits.latestTool
    else limits.currentTurnTool
  }

  predicate IsReadOf(call: ToolCall, path: string)
  {
    call.name == READ_FILE && Lookup(call.arguments, "path") == Some(Str(path))
  }

  predicate ReadsUnderId(messages: seq<Message>, id: string, path: string)
  {
    exists p | 0 <= p < |messages| ::
      exists k | 0 <= k < |messages[p].calls| :: messages[p].calls[k].id == id && IsReadOf(messages[p].calls[k], path)
  }

  predicate IsWholeRead(turn: seq<Message>, q: nat, path: string, limits: Limits)
    requires q < |turn|
  {
    && turn[q].role == Tool
    && ReadsUnderId(turn, turn[q].callId, path)
    && !turn[q].isError
    && |turn[q].content| <= ToolLimit(q, LastToolRound(turn), true, limits)
  }

  predicate HasWholeRead(turn: seq<Message>, path: string, limits: Limits)
  {
    exists q | 0 <= q < |turn| :: IsWholeRead(turn, q, path, limits)
  }

  function ShrinkArgument(value: Value): Value
  {
    if value.Str? && |value.text| > LONG_ARGUMENT_CHARS
    then Str(value.text[..LONG_ARGUMENT_CHARS] + "[... cut ...]")
    else value
  }

  function CallArguments(arguments: seq<Argument>, keepFull: bool): seq<Argument>
  {
    if keepFull then arguments
    else seq(|arguments|, i requires 0 <= i < |arguments| =>
             Argument(arguments[i].key, ShrinkArgument(arguments[i].value)))
  }

  function SendCall(w: Wording, call: ToolCall, keepFull: bool): SentCall
  {
    SentCall(call.id, call.name, w.dumps(CallArguments(call.arguments, keepFull)))
  }

  function SendCalls(w: Wording, calls: seq<ToolCall>, keepFull: bool): seq<SentCall>
  {
    seq(|calls|, i requires 0 <= i < |calls| => SendCall(w, calls[i], keepFull))
  }

  function ToolText(m: Message, limit: nat, note: string): string
  {
    var text := CutMiddle(m.content, limit, note);
    if m.isError then "ERROR: " + text else text
  }

  function DataBlock(w: Wording, tag: string, body: string): string
  {
    var id := w.blockId(body);
    "<" + tag + " id=\"" + id + "\">\n" + body + "\n</" + tag + " id=\"" + id + "\">"
  }

  // ---- One turn ----

  function ToolEntry(w: Wording, m: Message, position: int, lastRound: int, isCurrent: bool, limits: Limits): (e: Sent)
    requires m.role != User
    ensures e.role == m.role && (m.role != Assistant ==> e.calls == [])
    ensures SentShapeOf(e) == ShapeOf(m)
  {
    if m.role == Assistant then
      var calls := SendCalls(w, m.calls, isCurrent && position == lastRound);
      assert SentCallIds(calls) == CallIds(m.calls);
      Sent(Assistant, m.content, calls, "")
    else
      var note := if isCurrent && position > lastRound then NEWEST_OUTPUT_NOTE else OLDER_OUTPUT_NOTE;
      assert m.role == Tool;
      Sent(Tool, ToolText(m, ToolLimit(position, lastRound, isCurrent, limits), note), [], m.callId)
  }

  function FlatCall(w: Wording, call: ToolCall): string
  {
    "[earlier tool call: " + call.name + " " + w.dumps(CallArguments(call.arguments, false)) + "]"
  }

  function FlatCalls(w: Wording, calls: seq<ToolCall>): seq<string>
  {
    seq(|calls|, i requires 0 <= i < |calls| => FlatCall(w, calls[i]))
  }

  function FlatPieces(w: Wording, m: Message): seq<string>
  {
    (if m.content == "" then [] else [m.content]) + FlatCalls(w, m.calls)
  }

  function FlatEntry(w: Wording, m: Message, isCurrent: bool, limits: Limits): (e: Sent)
    requires m.role != User
    ensures e.role == (if m.role == Assistant then Assistant else User)
    ensures e.calls == []
  {
    if m.role == Assistant then Sent(Assistant, Join("\n", FlatPieces(w, m)), [], "")
    else
      var limit := if isCurrent then limits.currentTurnTool else limits.olderTurnTool;
      Sent(User, DataBlock(w, "tool_result", ToolText(m, limit, FLAT_OUTPUT_NOTE)), [], "")
  }

  function Entry(w: Wording, mode: Mode, rest: seq<Message>, i: nat, isCurrent: bool, limits: Limits): Sent
    requires i < |rest| && rest[i].role != User
  {
    match mode
    case Agent => ToolEntry(w, rest[i], i, LastToolRound(rest), isCurrent, limits)
    case Ask => FlatEntry(w, rest[i], isCurrent, limits)
  }

  /** The first `n` messages of a turn after its opening user message. */
  function Entries(w: Wording, mode: Mode, rest: seq<Message>, n: nat, isCurrent: bool, limits: Limits): seq<Sent>
    requires n <= |rest|
  {
    if n == 0 then []
    else
      Entries(w, mode, rest, n - 1, isCurrent, limits)
      + if rest[n - 1].role == User then [] else [Entry(w, mode, rest, n - 1, isCurrent, limits)]
  }

  // ---- The context block ----

  function Keep(names: seq<string>, wanted: set<string>, inside: bool): seq<string>
  {
    if names == [] then []
    else
      var last := names[|names| - 1];
      Keep(names[..|names| - 1], wanted, inside) + if (last in wanted) == inside then [last] else []
  }

  function OneLineEach(w: Wording, names: seq<string>): seq<string>
  {
    seq(|names|, i requires 0 <= i < |names| => w.oneLine(names[i]))
  }

  function FilesLine(w: Wording, context: Context, mentioned: seq<string>): string
  {
    var wanted := (set name | name in mentioned) + if context.openFile.Some? then {context.openFile.value.name} else {};
    var ordered := Keep(context.files, wanted, true) + Keep(context.files, wanted, false);
    var listed := if |ordered| <= MAX_LISTED_FILES then ordered else ordered[..MAX_LISTED_FILES];
    var more := if |context.files| > |listed| then |context.files| - |listed| else 0;
    "files: " + Join(", ", OneLineEach(w, listed)) + if more == 0 then "" else " (+" + Decimal(more) + " more)"
  }

  /** Whether the open file's content goes into the context block: not when a whole read of
      it is rendered anyway, and not when this attempt gives it up. */
  predicate SendsOpenFile(req: Request, turn: Turn, limits: Limits)
    requires req.context.openFile.Some?
  {
    && !(req.mode == Agent && HasWholeRead(turn, req.context.openFile.value.name, limits))
    && limits.openFile != 0
  }

  function OpenFileNote(mode: Mode): string
  {
    if mode == Ask then "You have not seen this part, so don't use a path-labelled block for this file"
    else "Use read_file for all of it"
  }

  /** The open file's text as sent, or nothing. */
  function SentFile(req: Request, turn: Turn, limits: Limits): string
  {
    match req.context.openFile
    case None => ""
    case Some(file) =>
      if !SendsOpenFile(req, turn, limits) then ""
      else
        CutMiddle(file.content, limits.openFile, OpenFileNote(req.mode))
  }

  const READ_BELOW := " (content is in the read_file result below)"

  function OpenFileLine(w: Wording, req: Request, turn: Turn, limits: Limits): string
    requires req.context.openFile.Some?
  {
    var file := req.context.openFile.value;
    var name := w.oneLine(file.name);
    if req.mode == Agent && HasWholeRead(turn, file.name, limits) then "open_file: " + name + READ_BELOW
    else if limits.openFile == 0 then "open_file: " + name + " (content left out to save space)"
    else "open_file: " + name + "\n" + SentFile(req, turn, limits)
  }

  function ErrorLine(error: string, limits: Limits): string
  {
    "last_error:\n" +
    if |error| <= limits.lastError then error else "[... earlier output cut ...]\n" + LastChars(error, limits.lastError)
  }

  function ContextLines(w: Wording, req: Request, turn: Turn, limits: Limits): seq<string>
  {
    ["language: " + req.context.language]
    + (if req.context.files == [] then [] else [FilesLine(w, req.context, req.mentioned)])
    + (if req.mentioned == [] then [] else ["files_named: " + Join(", ", OneLineEach(w, req.mentioned))])
    + (if req.context.openFile.None? then [] else [OpenFileLine(w, req, turn, limits)])
    + (if req.context.lastError == "" then [] else [ErrorLine(req.context.lastError, limits)])
  }

  function ContextBlock(w: Wording, req: Request, turn: Turn, limits: Limits): string
  {
    DataBlock(w, "context", Join("\n", ContextLines(w, req, turn, limits)))
  }

  const DROPPED_TEXT := "Earlier messages in this chat were left out to save space."

  function CurrentPieces(w: Wording, req: Request, turn: Turn, limits: Limits, dropped: nat): seq<string>
    requires turn != []
  {
    var text := turn[0].content;
    [ContextBlock(w, req, turn, limits)]
    + (if req.mode == Agent && req.context.language != GENERAL_LANGUAGE
       then [w.hint(text, req.context.lastError != "")] else [])
    + (if dropped == 0 then [] else [DROPPED_TEXT])
    + [text]
  }

  function CurrentUserText(w: Wording, req: Request, turn: Turn, limits: Limits, dropped: nat): string
    requires turn != []
  {
    Join("\n", CurrentPieces(w, req, turn, limits, dropped))
  }

  // ---- Where the characters went ----

  function ArgumentChars(calls: seq<SentCall>): nat
  {
    if calls == [] then 0 else ArgumentChars(calls[..|calls| - 1]) + |calls[|calls| - 1].arguments|
  }

  function CharsOf(m: Sent): nat
  {
    |m.content| + ArgumentChars(m.calls)
  }

  function SentChars(messages: seq<Sent>): nat
  {
    if messages == [] then 0 else SentChars(messages[..|messages| - 1]) + CharsOf(messages[|messages| - 1])
  }

  datatype Parts = Parts(file: int, context: int, user: int, toolResult: int, history: int, turnAssistant: int)
  {
    function Total(): int
    {
      file + context + user + toolResult + history + turnAssistant
    }

    predicate NonNegative()
    {
      && file >= 0 && context >= 0 && user >= 0
      && toolResult >= 0 && history >= 0 && turnAssistant >= 0
    }

    function AddAssistant(chars: int, isCurrent: bool): Parts
    {
      if isCurrent then this.(turnAssistant := turnAssistant + chars) else this.(history := history + chars)
    }

    /** A rendered assistant message, or a rendered tool result whatever role it got. */
    function AddEntry(m: Sent, isCurrent: bool): Parts
    {
      if m.role == Assistant then AddAssistant(CharsOf(m), isCurrent)
      else this.(toolResult := toolResult + |m.content|)
    }

    function AddEntries(messages: seq<Sent>, isCurrent: bool): Parts
      decreases |messages|
    {
      if messages == [] then this
      else AddEntries(messages[..|messages| - 1], isCurrent).AddEntry(messages[|messages| - 1], isCurrent)
    }
  }

  const NO_PARTS := Parts(0, 0, 0, 0, 0, 0)

  // ---- A whole attempt ----

  datatype Rendered = Rendered(messages: seq<Sent>, parts: Parts)

  /** An attempt with its current user message already put together: the text to send, and
      how many of its characters are the open file's. */
  datatype Page = Page(mode: Mode, turns: seq<Turn>, limits: Limits, userText: string, fileChars: nat)

  predicate IsRenderable(turns: seq<Turn>)
  {
    turns != [] && forall k | 0 <= k < |turns| :: turns[k] != []
  }

  /** The messages of a turn after its opening user message, if it has one. */
  function RestOf(turn: Turn): seq<Message>
    requires turn != []
  {
    if turn[0].role == User then turn[1..] else turn
  }

  predicate IsCurrent(page: Page, k: nat)
  {
    k == |page.turns| - 1
  }

  function Opening(page: Page, k: nat): seq<Sent>
    requires IsRenderable(page.turns) && k < |page.turns|
  {
    var first := page.turns[k][0];
    if first.role != User then []
    else [Sent(User, if IsCurrent(page, k) then page.userText else first.content, [], "")]
  }

  function Following(w: Wording, page: Page, k: nat): seq<Sent>
    requires IsRenderable(page.turns) && k < |page.turns|
  {
    var rest := RestOf(page.turns[k]);
    Entries(w, page.mode, rest, |rest|, IsCurrent(page, k), page.limits)
  }

  function AddOpening(p: Parts, page: Page, k: nat): Parts
    requires IsRenderable(page.turns) && k < |page.turns|
  {
    var first := page.turns[k][0];
    var chars := |first.content|;
    if first.role != User then p
    else if !IsCurrent(page, k) then p.(history := p.history + chars)
    else p.(user := p.user + chars, file := p.file + page.fileChars,
            context := p.context + |page.userText| - chars - page.fileChars)
  }

  function TurnSent(w: Wording, page: Page, k: nat): seq<Sent>
    requires IsRenderable(page.turns) && k < |page.turns|
  {
    Opening(page, k) + Following(w, page, k)
  }

  function SentTurns(w: Wording, page: Page, n: nat): seq<Sent>
    requires IsRenderable(page.turns) && n <= |page.turns|
  {
    if n == 0 then [] else SentTurns(w, page, n - 1) + TurnSent(w, page, n - 1)
  }

  function TurnsParts(w: Wording, page: Page, n: nat): Parts
    requires IsRenderable(page.turns) && n <= |page.turns|
  {
    if n == 0 then NO_PARTS
    else
      var entered := AddOpening(TurnsParts(w, page, n - 1), page, n - 1);
      entered.AddEntries(Following(w, page, n - 1), IsCurrent(page, n - 1))
  }

  /** True when the provider would take the conversation's end as text to continue. */
  predicate EndsOnAssistantText(messages: seq<Sent>)
  {
    && messages != []
    && messages[|messages| - 1].role == Assistant
    && messages[|messages| - 1].calls == []
  }

  const CONTINUE := Sent(User, CONTINUE_TEXT, [], "")

  function Closing(messages: seq<Sent>): seq<Sent>
  {
    if EndsOnAssistantText(messages) then [CONTINUE] else []
  }

  function SentPage(w: Wording, page: Page): seq<Sent>
    requires IsRenderable(page.turns)
  {
    var sent := SentTurns(w, page, |page.turns|);
    sent + Closing(sent)
  }

  function PageParts(w: Wording, page: Page): Parts
    requires IsRenderable(page.turns)
  {
    var parts := TurnsParts(w, page, |page.turns|);
    parts.(context := parts.context + SentChars(Closing(SentTurns(w, page, |page.turns|))))
  }

  function CurrentTurn(a: Attempt): Turn
    requires IsRenderable(a.turns)
  {
    a.turns[|a.turns| - 1]
  }

  function PageOf(w: Wording, req: Request, a: Attempt): Page
    requires IsRenderable(a.turns)
  {
    var turn := CurrentTurn(a);
    var text := CurrentUserText(w, req, turn, a.limits, a.dropped);
    Page(req.mode, a.turns, a.limits, text, |SentFile(req, turn, a.limits)|)
  }

  function Rendering(w: Wording, req: Request, a: Attempt): Rendered
    requires IsRenderable(a.turns)
  {
    var page := PageOf(w, req, a);
    Rendered(SentPage(w, page), PageParts(w, page))
  }

  // ---- The token estimate ----

  function CallTokens(calls: seq<SentCall>): nat
  {
    if calls == [] then 0
    else
      var call := calls[|calls| - 1];
      CallTokens(calls[..|calls| - 1]) + (|call.name| + |call.arguments|) / CHARS_PER_TOKEN
  }

  function TokensOf(m: Sent): nat
  {
    MESSAGE_OVERHEAD_TOKENS + |m.content| / CHARS_PER_TOKEN + CallTokens(m.calls)
  }

  function EstimatedTokens(messages: seq<Sent>): nat
  {
    if messages == [] then 0 else EstimatedTokens(messages[..|messages| - 1]) + TokensOf(messages[|messages| - 1])
  }
}
