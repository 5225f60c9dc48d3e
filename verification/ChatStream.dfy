// Reassembly of a streamed chat reply: newline-separated JSON documents arriving in
// arbitrary pieces. Text is decoded already; what JSON.parse makes of a line is a
// parameter.

module ChatStream {
  import opened Options
  import opened Characters
  import opened Sequences

  datatype ToolCall = ToolCall(name: string, arguments: string)

  // What handling one document comes to: the parse (or a field access) throws, or
  // the document's `error`, `content` and `tool_calls`, absent ones being empty.
  datatype Document = Unreadable(why: string) | Document(error: string, content: string, toolCalls: seq<ToolCall>)

  datatype Failure = NoBody | ReadFailed | BadLine(why: string) | ChatError(text: string)

  datatype Reply = Ok(content: string, toolCalls: seq<ToolCall>) | Failed(failure: Failure)

  // How the byte stream ends: it closes, leaving `flushed` in the decoder, or a read fails.
  datatype StreamEnd = Closed(flushed: string) | Broken

  // ----- Lines of a text -------------------------------------------------------------

  function Split(text: string): (lines: seq<string>)
    ensures lines != []
  {
    if text == "" then [""] else Prepend(text[0], Split(text[1..]))
  }

  function Prepend(c: char, lines: seq<string>): (longer: seq<string>)
    requires lines != []
    ensures longer != []
  {
    if c == '\n' then [""] + lines else [[c] + lines[0]] + lines[1..]
  }

  function Join(lines: seq<string>): string
    requires lines != []
  {
    if |lines| == 1 then lines[0] else lines[0] + "\n" + Join(lines[1..])
  }

  function Complete(text: string): seq<string> {
    var lines := Split(text);
    lines[..|lines| - 1]
  }

  function Unfinished(text: string): string {
    var lines := Split(text);
    lines[|lines| - 1]
  }

  lemma PrependJoins(c: char, lines: seq<string>)
    requires lines != []
    ensures Join(Prepend(c, lines)) == [c] + Join(lines)
  {
    var longer := Prepend(c, lines);
    if c == '\n' {
      assert longer[1..] == lines;
    } else {
      assert longer[1..] == lines[1..];
    }
  }

  ghost predicate NewlineFree(lines: seq<string>) {
    forall i :: 0 <= i < |lines| ==> '\n' !in lines[i]
  }

  // Splitting loses nothing and leaves no newline inside a line.
  lemma {:induction false} SplitRoundTrip(text: string)
    ensures Join(Split(text)) == text
    ensures NewlineFree(Split(text))
  {
    if text != "" {
      SplitRoundTrip(text[1..]);
      PrependJoins(text[0], Split(text[1..]));
      assert text == [text[0]] + text[1..];
    }
  }

  // ... and is the only such cut.
  lemma {:induction false} JoinRoundTrip(lines: seq<string>)
    requires lines != [] && NewlineFree(lines)
    ensures Split(Join(lines)) == lines
    decreases |lines|, |lines[0]|
  {
    var text := Join(lines);
    if lines[0] == "" {
      if |lines| > 1 {
        JoinRoundTrip(lines[1..]);
        assert text[1..] == Join(lines[1..]);
      }
    } else {
      var shorter := lines[0 := lines[0][1..]];
      JoinRoundTrip(shorter);
      assert shorter[1..] == lines[1..];
      assert text[1..] == Join(shorter);
      assert text[0] == lines[0][0];
      assert lines[0] == [text[0]] + shorter[0];
      assert lines == [lines[0]] + lines[1..];
    }
  }

  // Only the unfinished last line can be changed by what follows.
  lemma {:induction false} SplitConcat(a: string, b: string)
    ensures Split(a + b) == Complete(a) + Split(Unfinished(a) + b)
  {
    if a == "" {
      assert a + b == b && Unfinished(a) + b == b;
    } else {
      HeadFirst(a, b);
      SplitConcat(a[1..], b);
      SplitStep(a[0], a[1..], b);
    }
  }

  lemma HeadFirst(a: string, b: string)
    requires a != ""
    ensures a == [a[0]] + a[1..] && a + b == [a[0]] + (a[1..] + b)
  {
  }

  lemma SplitPrepends(c: char, rest: string)
    ensures Split([c] + rest) == Prepend(c, Split(rest))
  {
    assert ([c] + rest)[1..] == rest;
  }

  lemma SplitStep(c: char, rest: string, b: string)
    requires Split(rest + b) == Complete(rest) + Split(Unfinished(rest) + b)
    ensures Split([c] + (rest + b)) == Complete([c] + rest) + Split(Unfinished([c] + rest) + b)
  {
    if c == '\n' || Complete(rest) != [] {
      SplitStepKeeps(c, rest, b);
    } else {
      SplitStepGrows(c, rest, b);
    }
  }

  lemma SplitStepKeeps(c: char, rest: string, b: string)
    requires Split(rest + b) == Complete(rest) + Split(Unfinished(rest) + b)
    requires c == '\n' || Complete(rest) != []
    ensures Split([c] + (rest + b)) == Complete([c] + rest) + Split(Unfinished([c] + rest) + b)
  {
    SplitPrepends(c, rest + b);
    SplitPrepends(c, rest);
    StepKeepsLast(c, Split(rest), Split(Unfinished(rest) + b));
    assert Unfinished([c] + rest) == Unfinished(rest);
  }

  lemma SplitStepGrows(c: char, rest: string, b: string)
    requires Split(rest + b) == Complete(rest) + Split(Unfinished(rest) + b)
    requires c != '\n' && Complete(rest) == []
    ensures Split([c] + (rest + b)) == Complete([c] + rest) + Split(Unfinished([c] + rest) + b)
  {
    SplitPrepends(c, rest + b);
    SplitPrepends(c, rest);
    LastLineGrows(c, Unfinished(rest), b);
    StepGrowsLast(c, Split(rest), Split(Unfinished(rest) + b));
    assert Complete([c] + rest) == [] && Unfinished([c] + rest) == [c] + Unfinished(rest);
  }

  lemma StepKeepsLast(c: char, lines: seq<string>, tail: seq<string>)
    requires lines != [] && tail != [] && (c == '\n' || |lines| > 1)
    ensures var longer := Prepend(c, lines);
            && longer[|longer| - 1] == lines[|lines| - 1]
            && Prepend(c, lines[..|lines| - 1] + tail) == longer[..|longer| - 1] + tail
  {
    var n := |lines| - 1;
    assert lines == lines[..n] + [lines[n]];
    PrependKeepsLast(c, lines[..n], lines[n], tail);
  }

  lemma StepGrowsLast(c: char, lines: seq<string>, tail: seq<string>)
    requires |lines| == 1 && tail != [] && c != '\n'
    ensures Prepend(c, lines) == [[c] + lines[0]]
    ensures Prepend(c, lines[..0] + tail) == [] + Prepend(c, tail)
  {
    assert lines[..0] + tail == tail;
  }

  lemma LastLineGrows(c: char, last: string, b: string)
    ensures Split([c] + last + b) == Prepend(c, Split(last + b))
  {
    SplitPrepends(c, last + b);
    assert [c] + last + b == [c] + (last + b);
  }

  // Behind a newline, or with a complete line in front, the last line is left alone.
  lemma PrependKeepsLast(c: char, front: seq<string>, last: string, tail: seq<string>)
    requires tail != [] && (c == '\n' || front != [])
    ensures var longer := Prepend(c, front + [last]);
            var m := |longer| - 1;
            Prepend(c, front + tail) == longer[..m] + tail && longer[m] == last
  {
    if c == '\n' {
      assert [""] + (front + tail) == ([""] + front) + tail;
    } else {
      assert (front + tail)[1..] == front[1..] + tail;
      assert (front + [last])[1..] == front[1..] + [last];
    }
  }

  lemma SplitConcatParts(a: string, b: string)
    ensures Complete(a + b) == Complete(a) + Complete(Unfinished(a) + b)
    ensures Unfinished(a + b) == Unfinished(Unfinished(a) + b)
  {
    SplitConcat(a, b);
  }

  lemma {:induction false} NoNewlineNoSplit(text: string)
    requires '\n' !in text
    ensures Split(text) == [text]
  {
    if text != "" {
      NoNewlineNoSplit(text[1..]);
      assert text == [text[0]] + text[1..];
    }
  }

  lemma UnfinishedHasNoNewline(text: string)
    ensures '\n' !in Unfinished(text)
  {
    SplitRoundTrip(text);
  }

  // ----- Handling lines ------------------------------------------------------------------

  predicate IsBlank(line: string) {
    forall c :: c in line ==> IsWhiteSpace(c)
  }

  // The failure a line causes by itself.
  function LineFailure(parse: string -> Document, line: string): Option<Failure> {
    if IsBlank(line) then None
    else
      match parse(line)
      case Unreadable(why) => Some(BadLine(why))
      case Document(error, _, _) => if error != "" then Some(ChatError(error)) else None
  }

  function LineContent(parse: string -> Document, line: string): string {
    if !IsBlank(line) && parse(line).Document? then parse(line).content else ""
  }

  function LineCalls(parse: string -> Document, line: string): seq<ToolCall> {
    if !IsBlank(line) && parse(line).Document? then parse(line).toolCalls else []
  }

  function HandleLine(parse: string -> Document, reply: Reply, line: string): Reply {
    if reply.Failed? then reply
    else
      match LineFailure(parse, line)
      case Some(failure) => Failed(failure)
      case None => Ok(reply.content + LineContent(parse, line), reply.toolCalls + LineCalls(parse, line))
  }

  function HandleAll(parse: string -> Document, lines: seq<string>): Reply {
    if lines == [] then Ok("", [])
    else HandleLine(parse, HandleAll(parse, lines[..|lines| - 1]), lines[|lines| - 1])
  }

  function Contents(parse: string -> Document, lines: seq<string>): seq<string> {
    seq(|lines|, i requires 0 <= i < |lines| => LineContent(parse, lines[i]))
  }

  function Calls(parse: string -> Document, lines: seq<string>): seq<seq<ToolCall>> {
    seq(|lines|, i requires 0 <= i < |lines| => LineCalls(parse, lines[i]))
  }

  lemma {:induction false} NoFailureStringsTogether(parse: string -> Document, lines: seq<string>)
    requires forall k :: 0 <= k < |lines| ==> LineFailure(parse, lines[k]).None?
    ensures HandleAll(parse, lines) == Ok(Concat(Contents(parse, lines)), Concat(Calls(parse, lines)))
  {
    if lines != [] {
      var front := lines[..|lines| - 1];
      NoFailureStringsTogether(parse, front);
      assert Contents(parse, lines)[..|front|] == Contents(parse, front);
      assert Calls(parse, lines)[..|front|] == Calls(parse, front);
    }
  }

  // `k` is the first line that fails, or the number of lines when none does.
  ghost predicate IsFirstFailure(parse: string -> Document, lines: seq<string>, k: nat) {
    && k <= |lines|
    && (forall j :: 0 <= j < k ==> LineFailure(parse, lines[j]).None?)
    && (k < |lines| ==> LineFailure(parse, lines[k]).Some?)
  }

  function FirstFailure(parse: string -> Document, lines: seq<string>): (k: nat)
    ensures IsFirstFailure(parse, lines, k)
  {
    if lines == [] || LineFailure(parse, lines[0]).Some? then 0 else 1 + FirstFailure(parse, lines[1..])
  }

  lemma HandleThenFail(parse: string -> Document, before: seq<string>, line: string)
    requires HandleAll(parse, before).Ok? && LineFailure(parse, line).Some?
    ensures HandleAll(parse, before + [line]) == Failed(LineFailure(parse, line).value)
  {
    assert (before + [line])[..|before|] == before;
  }

  lemma FirstFailureDecides(parse: string -> Document, before: seq<string>, line: string, after: seq<string>)
    requires forall k :: 0 <= k < |before| ==> LineFailure(parse, before[k]).None?
    requires LineFailure(parse, line).Some?
    ensures HandleAll(parse, (before + [line]) + after) == Failed(LineFailure(parse, line).value)
  {
    NoFailureStringsTogether(parse, before);
    HandleThenFail(parse, before, line);
    FailureSticks(parse, before + [line], after);
  }

  lemma CutAt(lines: seq<string>, k: nat)
    requires k < |lines|
    ensures (lines[..k] + [lines[k]]) + lines[k + 1..] == lines
  {
  }

  // The first line that fails decides; with none, the contents and the tool calls
  // of the lines are strung together in order.
  lemma HandleAllMeaning(parse: string -> Document, lines: seq<string>)
    ensures var k := FirstFailure(parse, lines);
            HandleAll(parse, lines) ==
              if k < |lines| then Failed(LineFailure(parse, lines[k]).value)
              else Ok(Concat(Contents(parse, lines)), Concat(Calls(parse, lines)))
  {
    var k := FirstFailure(parse, lines);
    if k < |lines| {
      FirstFailureDecides(parse, lines[..k], lines[k], lines[k + 1..]);
      CutAt(lines, k);
    } else {
      NoFailureStringsTogether(parse, lines);
    }
  }

  lemma {:induction false} FailureSticks(parse: string -> Document, a: seq<string>, b: seq<string>)
    requires HandleAll(parse, a).Failed?
    ensures HandleAll(parse, a + b) == HandleAll(parse, a)
  {
    if b == [] {
      assert a + b == a;
    } else {
      assert (a + b)[..|a + b| - 1] == a + b[..|b| - 1];
      FailureSticks(parse, a, b[..|b| - 1]);
    }
  }

  // ----- What the lines say, told by the parser alone ------------------------------------------

  // The line is not all white space, and is unreadable or carries an error.
  predicate IsBad(parse: string -> Document, line: string) {
    (exists c :: c in line && !IsWhiteSpace(c)) && (parse(line).Unreadable? || parse(line).error != "")
  }

  function Complaint(d: Document): Failure {
    match d
    case Unreadable(why) => BadLine(why)
    case Document(error, _, _) => ChatError(error)
  }

  // The documents of the lines that are not all white space.
  ghost function Documents(parse: string -> Document, lines: seq<string>): seq<Document> {
    if lines == [] then []
    else
      var last := lines[|lines| - 1];
      Documents(parse, lines[..|lines| - 1]) + if exists c :: c in last && !IsWhiteSpace(c) then [parse(last)] else []
  }

  function ContentOf(d: Document): string {
    if d.Document? then d.content else ""
  }

  function CallsOf(d: Document): seq<ToolCall> {
    if d.Document? then d.toolCalls else []
  }

  ghost predicate IsFirstBad(parse: string -> Document, lines: seq<string>, k: nat)
    requires k < |lines|
  {
    IsBad(parse, lines[k]) && NoneBad(parse, lines[..k])
  }

  ghost predicate NoneBad(parse: string -> Document, lines: seq<string>) {
    forall k :: 0 <= k < |lines| ==> !IsBad(parse, lines[k])
  }

  // The reply is an error exactly when some line is bad, then that of the first such
  // line; else it is the documents' contents and tool calls, strung together.
  ghost predicate Tells(parse: string -> Document, lines: seq<string>, reply: Reply) {
    && (reply.Ok? <==> NoneBad(parse, lines))
    && (forall k :: 0 <= k < |lines| && IsFirstBad(parse, lines, k) ==>
          reply == Failed(Complaint(parse(lines[k]))))
    && (reply.Ok? ==>
          && reply.content == Concat(Map(ContentOf, Documents(parse, lines)))
          && reply.toolCalls == Concat(Map(CallsOf, Documents(parse, lines))))
  }

  lemma BadLinesFail(parse: string -> Document, line: string)
    ensures LineFailure(parse, line) == if IsBad(parse, line) then Some(Complaint(parse(line))) else None
  {
  }

  function Strung(documents: seq<Document>): Reply {
    Ok(Concat(Map(ContentOf, documents)), Concat(Map(CallsOf, documents)))
  }

  lemma StrungMore(documents: seq<Document>, d: Document)
    ensures Strung(documents + [d])
         == Ok(Strung(documents).content + ContentOf(d), Strung(documents).toolCalls + CallsOf(d))
  {
    MapOfMore(ContentOf, documents, d);
    MapOfMore(CallsOf, documents, d);
    ConcatOfMore(Map(ContentOf, documents), ContentOf(d));
    ConcatOfMore(Map(CallsOf, documents), CallsOf(d));
  }

  lemma GoodLineIsStrung(parse: string -> Document, documents: seq<Document>, line: string)
    requires !IsBad(parse, line)
    ensures HandleLine(parse, Strung(documents), line)
         == Strung(documents + if exists c :: c in line && !IsWhiteSpace(c) then [parse(line)] else [])
  {
    var reply := Strung(documents);
    BadLinesFail(parse, line);
    if exists c :: c in line && !IsWhiteSpace(c) {
      StrungMore(documents, parse(line));
    } else {
      assert documents + [] == documents;
      assert reply.content + "" == reply.content && reply.toolCalls + [] == reply.toolCalls;
    }
  }

  lemma {:induction false} GoodLinesAreStrung(parse: string -> Document, lines: seq<string>)
    requires forall k :: 0 <= k < |lines| ==> !IsBad(parse, lines[k])
    ensures HandleAll(parse, lines) == Strung(Documents(parse, lines))
  {
    if lines != [] {
      var front, last := lines[..|lines| - 1], lines[|lines| - 1];
      GoodLinesAreStrung(parse, front);
      GoodLineIsStrung(parse, Documents(parse, front), last);
    }
  }

  lemma HandleAllTells(parse: string -> Document, lines: seq<string>)
    ensures Tells(parse, lines, HandleAll(parse, lines))
  {
    HandleAllMeaning(parse, lines);
    var first := FirstFailure(parse, lines);
    forall k | 0 <= k < |lines|
      ensures LineFailure(parse, lines[k]) == if IsBad(parse, lines[k]) then Some(Complaint(parse(lines[k]))) else None
    {
      BadLinesFail(parse, lines[k]);
    }
    if first == |lines| {
      GoodLinesAreStrung(parse, lines);
    }
  }

  lemma MapOfMore<T, U>(f: T -> U, xs: seq<T>, x: T)
    ensures Map(f, xs + [x]) == Map(f, xs) + [f(x)]
  {
  }

  // ----- The whole text at once, and the stream ----------------------------------------------

  // Handling every line of the text once, in order.
  function OneShot(parse: string -> Document, text: string, end: StreamEnd): Reply {
    match end
    case Closed(flushed) => HandleAll(parse, Complete(text) + [Unfinished(text) + flushed])
    case Broken =>
      var reply := HandleAll(parse, Complete(text));
      if reply.Failed? then reply else Failed(ReadFailed)
  }

  lemma OneShotTells(parse: string -> Document, text: string, end: StreamEnd)
    ensures end.Closed? ==> Tells(parse, Complete(text) + [Unfinished(text) + end.flushed], OneShot(parse, text, end))
    ensures end.Broken? ==>
              || (OneShot(parse, text, end) == Failed(ReadFailed) && NoneBad(parse, Complete(text)))
              || (OneShot(parse, text, end).Failed? && Tells(parse, Complete(text), OneShot(parse, text, end)))
  {
    HandleAllTells(parse, Complete(text));
    if end.Closed? {
      HandleAllTells(parse, Complete(text) + [Unfinished(text) + end.flushed]);
    }
  }

  // The decoder flushes at most a replacement character, never a newline: the text
  // with its flush is then simply split and handled.
  lemma OneShotIsEveryLine(parse: string -> Document, text: string, flushed: string)
    requires '\n' !in flushed
    ensures OneShot(parse, text, Closed(flushed)) == HandleAll(parse, Split(text + flushed))
  {
    SplitConcat(text, flushed);
    UnfinishedHasNoNewline(text);
    NoNewlineNoSplit(Unfinished(text) + flushed);
  }

  lemma HandleOneMore(parse: string -> Document, done: seq<string>, lines: seq<string>, k: nat)
    requires k < |lines|
    ensures HandleAll(parse, done + lines[..k + 1]) == HandleLine(parse, HandleAll(parse, done + lines[..k]), lines[k])
    ensures HandleAll(parse, done + lines[..k + 1]).Failed? ==>
        HandleAll(parse, done + lines) == HandleAll(parse, done + lines[..k + 1])
  {
    var seen := done + lines[..k + 1];
    assert seen[..|seen| - 1] == done + lines[..k];
    if HandleAll(parse, seen).Failed? {
      FailureSticks(parse, seen, lines[k + 1..]);
      assert seen + lines[k + 1..] == done + lines;
    }
  }

  // Handles `lines` after `done`; a failure ends it, and no later line matters.
  method HandleLines(parse: string -> Document, start: Reply, lines: seq<string>, ghost done: seq<string>)
      returns (reply: Reply)
    requires start.Ok? && start == HandleAll(parse, done)
    ensures reply == HandleAll(parse, done + lines)
  {
    reply := start;
    assert done + lines[..0] == done;
    for k := 0 to |lines|
      invariant reply.Ok? && reply == HandleAll(parse, done + lines[..k])
    {
      HandleOneMore(parse, done, lines, k);
      reply := HandleLine(parse, reply, lines[k]);
      if reply.Failed? { return; }
    }
    assert lines[..|lines|] == lines;
  }

  // `readOllamaChatStream`: the reply does not depend on where the pieces were cut,
  // only on the text they make up.
  method ReadOllamaChatStream(parse: string -> Document, body: Option<seq<string>>, end: StreamEnd)
      returns (reply: Reply)
    ensures body.None? ==> reply == Failed(NoBody)
    ensures body.Some? ==> reply == OneShot(parse, Concat(body.value), end)
    ensures body.Some? && end.Closed? ==>
              var text := Concat(body.value);
              Tells(parse, Complete(text) + [Unfinished(text) + end.flushed], reply)
    ensures body.Some? && end.Broken? ==>
              || (reply == Failed(ReadFailed) && NoneBad(parse, Complete(Concat(body.value))))
              || (reply.Failed? && Tells(parse, Complete(Concat(body.value)), reply))
  {
    if body.None? { return Failed(NoBody); }
    reply := ReadPieces(parse, body.value, end);
    OneShotTells(parse, Concat(body.value), end);
  }

  // The reading loop.
  method ReadPieces(parse: string -> Document, pieces: seq<string>, end: StreamEnd) returns (reply: Reply)
    ensures reply == OneShot(parse, Concat(pieces), end)
  {
    reply := Ok("", []);
    var buffered := "";
    for n := 0 to |pieces|
      invariant buffered == Unfinished(Concat(pieces[..n]))
      invariant reply.Ok? && reply == HandleAll(parse, Complete(Concat(pieces[..n])))
    {
      ghost var text := Concat(pieces[..n]);
      ConcatOfNext(pieces, n);
      SplitConcatParts(text, pieces[n]);
      var lines := Split(buffered + pieces[n]);
      buffered := lines[|lines| - 1];
      reply := HandleLines(parse, reply, lines[..|lines| - 1], Complete(text));
      if reply.Failed? {
        StopEarly(parse, pieces, n + 1, end);
        return;
      }
    }
    assert pieces[..|pieces|] == pieces;
    if end.Broken? { return Failed(ReadFailed); }
    reply := HandleLines(parse, reply, [buffered + end.flushed], Complete(Concat(pieces)));
  }

  lemma ConcatOfNext(pieces: seq<string>, n: nat)
    requires n < |pieces|
    ensures Concat(pieces[..n + 1]) == Concat(pieces[..n]) + pieces[n]
  {
    assert pieces[..n + 1] == pieces[..n] + [pieces[n]];
    ConcatOfMore(pieces[..n], pieces[n]);
  }

  lemma {:induction false} CompleteGrows(pieces: seq<string>, n: nat)
    requires n <= |pieces|
    ensures Complete(Concat(pieces[..n])) <= Complete(Concat(pieces))
    decreases |pieces| - n
  {
    if n == |pieces| {
      assert pieces[..n] == pieces;
    } else {
      ConcatOfNext(pieces, n);
      SplitConcatParts(Concat(pieces[..n]), pieces[n]);
      CompleteGrows(pieces, n + 1);
    }
  }

  // A line that fails while pieces are still to come fails in the whole text too.
  lemma EarlyFailureDecides(parse: string -> Document, text: string, seen: seq<string>, end: StreamEnd)
    requires seen <= Complete(text) && HandleAll(parse, seen).Failed?
    ensures OneShot(parse, text, end) == HandleAll(parse, seen)
  {
    var all := Complete(text);
    assert all == seen + all[|seen|..];
    FailureSticks(parse, seen, all[|seen|..]);
    if end.Closed? {
      FailureSticks(parse, all, [Unfinished(text) + end.flushed]);
    }
  }

  lemma StopEarly(parse: string -> Document, pieces: seq<string>, n: nat, end: StreamEnd)
    requires n <= |pieces| && HandleAll(parse, Complete(Concat(pieces[..n]))).Failed?
    ensures OneShot(parse, Concat(pieces), end) == HandleAll(parse, Complete(Concat(pieces[..n])))
  {
    CompleteGrows(pieces, n);
    EarlyFailureDecides(parse, Concat(pieces), Complete(Concat(pieces[..n])), end);
  }
}
