/** What the current user message holds in front of the user's own words: which files are listed,
    how much of the open file and of the last error is there, and in which order. */
module ContextFacts {
  import opened Text
  import opened Conversation
  import opened Turns
  import opened Render
  import opened SentFacts

  // ---- What the lines are to say ----

  /** The names wanted and then the others, both as they came: `at` says where each one was. */
  ghost predicate IsWantedFirst(names: seq<string>, wanted: set<string>, ordered: seq<string>, at: seq<nat>, n: nat)
  {
    && |ordered| == |at| == |names| && n <= |at|
    && (forall k | 0 <= k < |at| :: at[k] < |names| && ordered[k] == names[at[k]])
    && (forall k | 0 <= k < |at| :: k < n <==> ordered[k] in wanted)
    && (forall j, k | 0 <= j < k < |at| :: k < n || n <= j ==> at[j] < at[k])
  }

  /** Up to 40 of the names, the wanted ones first, and how many more there are. */
  ghost predicate IsFilesLine(w: Wording, line: string, names: seq<string>, wanted: set<string>)
  {
    exists ordered: seq<string>, at, n ::
      && IsWantedFirst(names, wanted, ordered, at, n)
      && var count := if |names| > 40 then 40 else |names|;
         line == "files: " + Join(", ", OneLineEach(w, ordered[..count]))
                 + if |names| > 40 then " (+" + Decimal(|names| - 40) + " more)" else ""
  }

  ghost predicate IsOpenFileLine(w: Wording, line: string, req: Request, turn: Turn, limits: Limits)
    requires req.context.openFile.Some?
  {
    var file := req.context.openFile.value;
    var start := "open_file: " + w.oneLine(file.name);
    if req.mode == Agent && HasWholeRead(turn, file.name, limits)
    then line == start + " (content is in the read_file result below)"
    else if limits.openFile == 0 then line == start + " (content left out to save space)"
    else
      exists kept ::
        IsKept(file.content, kept, limits.openFile, OpenFileNote(req.mode)) && line == start + "\n" + kept
  }

  /** The end of the error, of just the limit when it is longer. */
  predicate IsErrorLine(line: string, error: string, limit: nat)
  {
    var start := "last_error:\n";
    if |error| <= limit then line == start + error
    else
      var cut := start + "[... earlier output cut ...]\n";
      cut <= line && EndsWith(error, line[|cut|..]) && |line| - |cut| == if limit == 0 then |error| else limit
  }

  function Wanted(req: Request): set<string>
  {
    (set name | name in req.mentioned) + if req.context.openFile.Some? then {req.context.openFile.value.name} else {}
  }

  /** The language, and each of the other lines when there is something to say. */
  ghost predicate AreContextLines(w: Wording, lines: seq<string>, req: Request, turn: Turn, limits: Limits)
  {
    var context := req.context;
    var files := 1;
    var named := files + if context.files == [] then 0 else 1;
    var open := named + if req.mentioned == [] then 0 else 1;
    var error := open + if context.openFile.None? then 0 else 1;
    && |lines| == error + (if context.lastError == "" then 0 else 1)
    && lines[0] == "language: " + context.language
    && (context.files != [] ==> IsFilesLine(w, lines[files], context.files, Wanted(req)))
    && (req.mentioned != [] ==> lines[named] == "files_named: " + Join(", ", OneLineEach(w, req.mentioned)))
    && (context.openFile.Some? ==> IsOpenFileLine(w, lines[open], req, turn, limits))
    && (context.lastError != "" ==> IsErrorLine(lines[error], context.lastError, limits.lastError))
  }

  // ---- That they say it ----

  lemma {:induction false} KeptAt(names: seq<string>, wanted: set<string>, inside: bool) returns (at: seq<nat>)
    ensures |at| == |Keep(names, wanted, inside)|
    ensures forall k | 0 <= k < |at| :: at[k] < |names| && Keep(names, wanted, inside)[k] == names[at[k]]
    ensures forall k | 0 <= k < |at| :: names[at[k]] in wanted <==> inside
    ensures forall j, k | 0 <= j < k < |at| :: at[j] < at[k]
  {
    at := [];
    if names != [] {
      var n := |names| - 1;
      at := KeptAt(names[..n], wanted, inside);
      at := at + if (names[n] in wanted) == inside then [n] else [];
    }
  }

  lemma {:induction false} KeptCount(names: seq<string>, wanted: set<string>)
    ensures |Keep(names, wanted, true)| + |Keep(names, wanted, false)| == |names|
  {
    if names != [] {
      KeptCount(names[..|names| - 1], wanted);
    }
  }

  lemma {:induction false} WantedComeFirst(names: seq<string>, wanted: set<string>) returns (at: seq<nat>, n: nat)
    ensures IsWantedFirst(names, wanted, Keep(names, wanted, true) + Keep(names, wanted, false), at, n)
  {
    hide Keep;
    KeptCount(names, wanted);
    var inside := KeptAt(names, wanted, true);
    var outside := KeptAt(names, wanted, false);
    at, n := inside + outside, |inside|;
  }

  lemma {:induction false} FilesLineLists(w: Wording, req: Request)
    ensures IsFilesLine(w, FilesLine(w, req.context, req.mentioned), req.context.files, Wanted(req))
  {
    hide Keep, Join, Decimal, OneLineEach;
    var names, wanted := req.context.files, Wanted(req);
    var at, n := WantedComeFirst(names, wanted);
    var ordered := Keep(names, wanted, true) + Keep(names, wanted, false);
    if |names| <= 40 {
      assert ordered[..|names|] == ordered;
    }
    assert IsWantedFirst(names, wanted, ordered, at, n);
  }

  lemma {:induction false} OpenFileLineTells(w: Wording, req: Request, turn: Turn, limits: Limits)
    requires req.context.openFile.Some?
    ensures IsOpenFileLine(w, OpenFileLine(w, req, turn, limits), req, turn, limits)
  {
    hide HasWholeRead, CutMiddle, IsKept, OpenFileNote;
    var file := req.context.openFile.value;
    CutIsKept(file.content, limits.openFile, OpenFileNote(req.mode));
  }

  lemma {:induction false} ErrorLineEnds(error: string, limits: Limits)
    ensures IsErrorLine(ErrorLine(error, limits), error, limits.lastError)
  {
    if |error| > limits.lastError {
      var start, cut := "last_error:\n", "[... earlier output cut ...]\n";
      var tail := LastChars(error, limits.lastError);
      Associative(start, cut, tail);
      AtConcat(start + cut, tail);
    }
  }

  lemma {:induction false} LinesTell(w: Wording, req: Request, turn: Turn, limits: Limits)
    ensures AreContextLines(w, ContextLines(w, req, turn, limits), req, turn, limits)
  {
    hide FilesLine, OpenFileLine, ErrorLine, IsFilesLine, IsOpenFileLine, IsErrorLine, OneLineEach, Join, Wanted;
    FilesLineLists(w, req);
    ErrorLineEnds(req.context.lastError, limits);
    if req.context.openFile.Some? {
      OpenFileLineTells(w, req, turn, limits);
    }
  }

  /** The current user message, line by line: the context in a block of its own, in Agent mode a
      hint about code, a notice when turns were left out, and last the user's own words. */
  lemma {:induction false} CurrentTextTells(w: Wording, req: Request, turn: Turn, limits: Limits, dropped: nat)
    returns (lines: seq<string>)
    requires turn != []
    ensures AreContextLines(w, lines, req, turn, limits)
    ensures
      var body, text := Join("\n", lines), turn[0].content;
      var id := w.blockId(body);
      var hinted := req.mode == Agent && req.context.language != "general";
      CurrentUserText(w, req, turn, limits, dropped) ==
      Join("\n", ["<context id=\"" + id + "\">\n" + body + "\n</context id=\"" + id + "\">"]
                 + (if hinted then [w.hint(text, req.context.lastError != "")] else [])
                 + (if dropped > 0 then ["Earlier messages in this chat were left out to save space."] else [])
                 + [text])
  {
    hide AreContextLines, Join, ContextLines, DataBlock;
    lines := ContextLines(w, req, turn, limits);
    LinesTell(w, req, turn, limits);
    DataBlockIs(w, "context", Join("\n", lines));
    assert "<" + "context" + " id=\"" == "<context id=\"";
    assert "\n</" + "context" + " id=\"" == "\n</context id=\"";
  }

  /** How much of the open file is sent, and counted as the file's. */
  ghost predicate IsFileCount(req: Request, turn: Turn, limits: Limits, chars: nat)
  {
    if req.context.openFile.None? then chars == 0
    else
      var file := req.context.openFile.value;
      if (req.mode == Agent && HasWholeRead(turn, file.name, limits)) || limits.openFile == 0 then chars == 0
      else exists kept :: IsKept(file.content, kept, limits.openFile, OpenFileNote(req.mode)) && chars == |kept|
  }

  /** An attempt is rendered in the mode asked for, with its own turns and limits; the current user
      message and the count of the file's characters are those of its current turn. */
  lemma {:induction false} AttemptTells(w: Wording, req: Request, a: Attempt) returns (lines: seq<string>)
    requires IsRenderable(a.turns)
    ensures
      var page, turn := PageOf(w, req, a), a.turns[|a.turns| - 1];
      && Rendering(w, req, a) == Rendered(SentPage(w, page), PageParts(w, page))
      && page.mode == req.mode && page.turns == a.turns && page.limits == a.limits
      && page.userText == CurrentUserText(w, req, turn, a.limits, a.dropped)
      && AreContextLines(w, lines, req, turn, a.limits)
      && IsFileCount(req, turn, a.limits, page.fileChars)
  {
    hide CurrentUserText, HasWholeRead, CutMiddle, IsKept, OpenFileNote, AreContextLines, SentPage, PageParts;
    lines := CurrentTextTells(w, req, CurrentTurn(a), a.limits, a.dropped);
    if req.context.openFile.Some? {
      CutIsKept(req.context.openFile.value.content, a.limits.openFile, OpenFileNote(req.mode));
    }
  }
}
