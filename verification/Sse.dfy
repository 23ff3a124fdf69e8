/**
 The server-sent-event printer of the chat API and the incremental parser of the web client.
 Text is a sequence of characters (the client decodes bytes before it parses), and a payload is
 the JSON text that the server printed.
 */
module Sse {
  import opened Options

  datatype ServerEvent = ServerEvent(name: string, data: string)

  /** The characters at which `.` stops, and around which `^` and `$` match, in a multi-line
      regular expression of the client's language. */
  predicate IsLineTerminator(c: char) {
    c == '\n' || c == '\r' || c == '\U{2028}' || c == '\U{2029}'
  }

  predicate OneLine(s: string) {
    s != "" && forall i :: 0 <= i < |s| ==> !IsLineTerminator(s[i])
  }

  predicate Clean(e: ServerEvent) {
    OneLine(e.name) && OneLine(e.data)
  }

  const EVENT_FIELD := "event: "
  const DATA_FIELD := "data: "

  function Print(e: ServerEvent): string {
    EVENT_FIELD + e.name + "\n" + DATA_FIELD + e.data + "\n\n"
  }

  function PrintAll(events: seq<ServerEvent>): string {
    if events == [] then "" else Print(events[0]) + PrintAll(events[1..])
  }

  function Flatten(chunks: seq<string>): string {
    if chunks == [] then "" else chunks[0] + Flatten(chunks[1..])
  }

  function Glue(c: char, parts: seq<string>): (glued: seq<string>)
    requires parts != []
    ensures |glued| == |parts|
  {
    [[c] + parts[0]] + parts[1..]
  }

  /** Splits at every leftmost, non-overlapping blank line. */
  function Split(s: string): (blocks: seq<string>)
    ensures |blocks| >= 1
  {
    if |s| < 2 then [s]
    else if s[0] == '\n' && s[1] == '\n' then [""] + Split(s[2..])
    else Glue(s[0], Split(s[1..]))
  }

  function Lines(s: string): (lines: seq<string>)
    ensures |lines| >= 1
  {
    if s == "" then [""]
    else if IsLineTerminator(s[0]) then [""] + Lines(s[1..])
    else Glue(s[0], Lines(s[1..]))
  }

  /** The first line that starts with the field and has something after it. */
  function FieldIn(lines: seq<string>, field: string): Option<string> {
    if lines == [] then None
    else if field <= lines[0] && |field| < |lines[0]| then Some(lines[0][|field|..])
    else FieldIn(lines[1..], field)
  }

  predicate HasField(line: string, field: string) {
    field <= line && |field| < |line|
  }

  /** Of several lines with the field the first one counts, and without any there is none. */
  lemma {:induction false} FirstFieldCounts(lines: seq<string>, field: string)
    ensures FieldIn(lines, field).None? <==> forall i :: 0 <= i < |lines| ==> !HasField(lines[i], field)
    ensures forall i :: 0 <= i < |lines| && HasField(lines[i], field) && (forall k :: 0 <= k < i ==> !HasField(lines[k], field)) ==>
              FieldIn(lines, field) == Some(lines[i][|field|..])
  {
    if lines != [] {
      FirstFieldCounts(lines[1..], field);
      if !HasField(lines[0], field) {
        forall i | 0 <= i < |lines| ensures i > 0 ==> lines[1..][i - 1] == lines[i] {
        }
        assert forall i :: 0 <= i < |lines[1..]| ==> lines[1..][i] == lines[i + 1];
      }
    }
  }

  function ParseBlock(block: string): Option<ServerEvent> {
    match (FieldIn(Lines(block), EVENT_FIELD), FieldIn(Lines(block), DATA_FIELD))
    case (Some(name), Some(data)) => Some(ServerEvent(name, data))
    case _ => None
  }

  function Reported(block: string): seq<ServerEvent> {
    match ParseBlock(block)
    case Some(e) => [e]
    case None => []
  }

  function ParseBlocks(blocks: seq<string>): seq<ServerEvent> {
    if blocks == [] then [] else Reported(blocks[0]) + ParseBlocks(blocks[1..])
  }

  /** What a whole stream says, read in one piece. */
  function ParseStream(text: string): seq<ServerEvent> {
    ParseBlocks(Split(text))
  }

  predicate IsSpace(c: char) {
    IsLineTerminator(c) || c in "\t\U{000B}\U{000C} \U{00A0}\U{1680}\U{202F}\U{205F}\U{3000}\U{FEFF}"
    || '\U{2000}' <= c <= '\U{200A}'
  }

  predicate Blank(s: string) {
    forall i :: 0 <= i < |s| ==> IsSpace(s[i])
  }

  // ---- Splitting a stream that arrives in pieces ----

  lemma {:induction false} SplitWithoutDelimiter(x: string)
    requires |Split(x)| == 1
    ensures Split(x) == [x]
  {
    if |x| >= 2 {
      assert !(x[0] == '\n' && x[1] == '\n');
      SplitWithoutDelimiter(x[1..]);
      assert x == [x[0]] + x[1..];
    }
  }

  lemma GlueAppend(c: char, a: seq<string>, b: seq<string>)
    requires a != []
    ensures Glue(c, a + b) == Glue(c, a) + b
  {
    assert (a + b)[1..] == a[1..] + b;
  }

  lemma Reassociate<T>(a: seq<T>, b: seq<T>, c: seq<T>)
    ensures a + (b + c) == (a + b) + c
  {
  }

  lemma SplitAtDelimiter(x: string, y: string)
    requires |x| >= 2 && x[0] == '\n' && x[1] == '\n'
    ensures Split(x + y) == [""] + Split(x[2..] + y)
  {
    assert (x + y)[2..] == x[2..] + y;
  }

  lemma SplitPastCharacter(x: string, y: string)
    requires |x| >= 2 && !(x[0] == '\n' && x[1] == '\n')
    ensures Split(x + y) == Glue(x[0], Split(x[1..] + y))
  {
    assert (x + y)[1..] == x[1..] + y && (x + y)[0] == x[0] && (x + y)[1] == x[1];
  }

  lemma SplitStep(x: string, y: string, c: seq<string>, n: nat)
    requires |x| >= 2 && !(x[0] == '\n' && x[1] == '\n')
    requires c == Split(x[1..]) && |c| == n + 1 && n > 0
    requires Split(x[1..] + y) == c[..n] + Split(c[n] + y)
    ensures Split(x + y) == Split(x)[..n] + Split(Split(x)[n] + y)
  {
    SplitPastCharacter(x, y);
    GlueAppend(x[0], c[..n], Split(c[n] + y));
    assert Split(x)[..n] == Glue(x[0], c[..n]);
  }

  lemma SplitStepBlank(x: string, y: string, c: seq<string>, n: nat)
    requires |x| >= 2 && x[0] == '\n' && x[1] == '\n'
    requires c == Split(x[2..]) && |c| == n && n > 0
    requires Split(x[2..] + y) == c[..n - 1] + Split(c[n - 1] + y)
    ensures Split(x + y) == Split(x)[..n] + Split(Split(x)[n] + y)
  {
    SplitAtDelimiter(x, y);
    var b := [""] + c;
    assert Split(x) == b && b[n] == c[n - 1] && b[..n] == [""] + c[..n - 1];
    Reassociate([""], c[..n - 1], Split(c[n - 1] + y));
  }

  /** The carried remainder is enough: what was cut off before it never changes. */
  lemma {:induction false} SplitAppend(x: string, y: string)
    ensures var b := Split(x); var n := |b| - 1;
            Split(x + y) == b[..n] + Split(b[n] + y)
    decreases |x|
  {
    var b := Split(x);
    var n := |b| - 1;
    if n == 0 {
      SplitWithoutDelimiter(x);
    } else if x[0] == '\n' && x[1] == '\n' {
      SplitAppend(x[2..], y);
      SplitStepBlank(x, y, Split(x[2..]), n);
    } else {
      SplitAppend(x[1..], y);
      SplitStep(x, y, Split(x[1..]), n);
    }
  }

  lemma {:induction false} ParseBlocksAppend(a: seq<string>, b: seq<string>)
    ensures ParseBlocks(a + b) == ParseBlocks(a) + ParseBlocks(b)
  {
    if a == [] {
      assert a + b == b;
    } else {
      ParseBlocksAppend(a[1..], b);
      assert (a + b)[1..] == a[1..] + b;
      Reassociate(Reported(a[0]), ParseBlocks(a[1..]), ParseBlocks(b));
    }
  }

  // ---- What one block can report ----

  lemma {:induction false} LinesAreOneLine(s: string)
    ensures forall k :: 0 <= k < |Lines(s)| ==>
              forall i :: 0 <= i < |Lines(s)[k]| ==> !IsLineTerminator(Lines(s)[k][i])
  {
    if s != "" {
      LinesAreOneLine(s[1..]);
    }
  }

  lemma {:induction false} FieldIsOneLine(lines: seq<string>, field: string)
    requires forall k :: 0 <= k < |lines| ==>
               forall i :: 0 <= i < |lines[k]| ==> !IsLineTerminator(lines[k][i])
    ensures FieldIn(lines, field).Some? ==> OneLine(FieldIn(lines, field).value)
  {
    if lines != [] {
      FieldIsOneLine(lines[1..], field);
    }
  }

  /** Whatever the server sent, the client reports only clean events. */
  lemma {:induction false} ReportsAreClean(blocks: seq<string>)
    ensures forall e :: e in ParseBlocks(blocks) ==> Clean(e)
  {
    if blocks != [] {
      LinesAreOneLine(blocks[0]);
      FieldIsOneLine(Lines(blocks[0]), EVENT_FIELD);
      FieldIsOneLine(Lines(blocks[0]), DATA_FIELD);
      ReportsAreClean(blocks[1..]);
    }
  }

  lemma {:induction false} BlankLines(s: string)
    requires Blank(s)
    ensures forall k :: 0 <= k < |Lines(s)| ==> Blank(Lines(s)[k])
  {
    if s != "" {
      assert Blank(s[1..]);
      BlankLines(s[1..]);
    }
  }

  lemma {:induction false} NoFieldInBlankLines(lines: seq<string>, field: string)
    requires forall k :: 0 <= k < |lines| ==> Blank(lines[k])
    requires field != "" && !IsSpace(field[0])
    ensures FieldIn(lines, field) == None
  {
    if lines != [] {
      assert Blank(lines[0]);
      NoFieldInBlankLines(lines[1..], field);
    }
  }

  /** Skipping a remainder that trims to nothing loses no event. */
  lemma BlankReportsNothing(s: string)
    requires Blank(s)
    ensures ParseBlock(s) == None
  {
    BlankLines(s);
    NoFieldInBlankLines(Lines(s), EVENT_FIELD);
  }

  // ---- Printing and reading back ----

  lemma {:induction false} LinesOfOneLine(s: string, rest: string)
    requires forall i :: 0 <= i < |s| ==> !IsLineTerminator(s[i])
    ensures Lines(s) == [s]
    ensures Lines(s + "\n" + rest) == [s] + Lines(rest)
  {
    if s == "" {
      assert (s + "\n" + rest)[1..] == rest;
    } else {
      LinesOfOneLine(s[1..], rest);
      assert (s + "\n" + rest)[1..] == s[1..] + "\n" + rest;
      assert s == [s[0]] + s[1..];
    }
  }

  predicate NoBlankLine(s: string) {
    forall i :: 0 <= i < |s| - 1 ==> !(s[i] == '\n' && s[i + 1] == '\n')
  }

  lemma {:induction false} SplitFirst(block: string, rest: string)
    requires block != "" && NoBlankLine(block) && block[|block| - 1] != '\n'
    ensures Split(block + "\n\n" + rest) == [block] + Split(rest)
  {
    var s := block + "\n\n" + rest;
    if |block| == 1 {
      var t := s[1..];
      assert t == "\n\n" + rest && t[2..] == rest;
      assert Split(t) == [""] + Split(rest);
      assert Split(s) == Glue(s[0], Split(t));
      assert [s[0]] + "" == block;
    } else {
      assert s[0] == block[0] && s[1] == block[1];
      SplitFirst(block[1..], rest);
      assert s[1..] == block[1..] + "\n\n" + rest;
      assert block == [block[0]] + block[1..];
      GlueAppend(s[0], [block[1..]], Split(rest));
    }
  }

  lemma PrintedFields(e: ServerEvent)
    requires Clean(e)
    ensures ParseBlock(EVENT_FIELD + e.name + "\n" + DATA_FIELD + e.data) == Some(e)
  {
    var head := EVENT_FIELD + e.name;
    var tail := DATA_FIELD + e.data;
    LinesOfOneLine(head, tail);
    LinesOfOneLine(tail, "");
    assert head + "\n" + tail == EVENT_FIELD + e.name + "\n" + DATA_FIELD + e.data;
    var lines := [head, tail];
    assert Lines(head + "\n" + tail) == lines;
    assert head[|EVENT_FIELD|..] == e.name && tail[|DATA_FIELD|..] == e.data;
    assert head[0] != tail[0];
    assert lines[1..] == [tail];
    assert FieldIn(lines, EVENT_FIELD) == Some(e.name);
    assert FieldIn(lines, DATA_FIELD) == FieldIn([tail], DATA_FIELD) == Some(e.data);
  }

  lemma PrintedBlock(e: ServerEvent, rest: string)
    requires Clean(e)
    ensures ParseStream(Print(e) + rest) == [e] + ParseStream(rest)
  {
    var block := EVENT_FIELD + e.name + "\n" + DATA_FIELD + e.data;
    assert Print(e) + rest == block + "\n\n" + rest;
    var head := EVENT_FIELD + e.name;
    var tail := DATA_FIELD + e.data;
    assert block == head + "\n" + tail;
    assert forall i :: 0 <= i < |head| ==> block[i] == head[i];
    assert forall i :: |head| < i < |block| ==> block[i] == tail[i - |head| - 1];
    assert block[|block| - 1] == e.data[|e.data| - 1];
    SplitFirst(block, rest);
    PrintedFields(e);
    var blocks := [block] + Split(rest);
    assert blocks[0] == block && blocks[1..] == Split(rest);
  }

  lemma {:induction false} PrintedStream(events: seq<ServerEvent>)
    requires forall e :: e in events ==> Clean(e)
    ensures ParseStream(PrintAll(events)) == events
  {
    if events != [] {
      PrintedStream(events[1..]);
      PrintedBlock(events[0], PrintAll(events[1..]));
    } else {
      LinesOfOneLine("", "");
    }
  }

  /** One payload that does not survive the trip. */
  lemma LineSeparatorIsLost()
    ensures var e := ServerEvent("answer", "a\U{2028}b"); ParseStream(Print(e)) != [e]
  {
    var e := ServerEvent("answer", "a\U{2028}b");
    ReportsAreClean(Split(Print(e)));
    if ParseStream(Print(e)) == [e] {
      assert e in ParseStream(Print(e));
      assert IsLineTerminator(e.data[1]);
    }
  }

  /** One read: the complete blocks are reported, the last one is carried. */
  lemma CarryRemainder(buffer: string, rest: string)
    ensures var blocks := Split(buffer); var last := |blocks| - 1;
            ParseStream(buffer + rest) == ParseBlocks(blocks[..last]) + ParseStream(blocks[last] + rest)
    ensures |Split(Split(buffer)[|Split(buffer)| - 1])| == 1
  {
    var blocks := Split(buffer);
    var last := |blocks| - 1;
    SplitAppend(buffer, rest);
    ParseBlocksAppend(blocks[..last], Split(blocks[last] + rest));
    SplitAppend(buffer, "");
    assert buffer + "" == buffer && blocks[last] + "" == blocks[last];
  }

  method ReportBlocks(blocks: seq<string>) returns (reported: seq<ServerEvent>)
    ensures reported == ParseBlocks(blocks)
  {
    reported := [];
    for i := 0 to |blocks|
      invariant reported == ParseBlocks(blocks[..i])
    {
      assert blocks[..i + 1] == blocks[..i] + [blocks[i]];
      ParseBlocksAppend(blocks[..i], [blocks[i]]);
      var parsed := ParseBlock(blocks[i]);
      if parsed.Some? {
        reported := reported + [parsed.value];
      }
    }
    assert blocks[..|blocks|] == blocks;
  }

  /** What is done with the text that is left after the last read. */
  function ReportRest(buffer: string): seq<ServerEvent> {
    if Blank(buffer) then [] else ParseBlocks([buffer])
  }

  /** The reads of a stream that arrives in pieces, `buffer` being carried into the first of them. The
      last read brings no text. */
  function ReadAll(buffer: string, chunks: seq<string>): seq<ServerEvent>
    decreases |chunks|
  {
    var blocks := Split(if chunks == [] then buffer else buffer + chunks[0]);
    var last := |blocks| - 1;
    ParseBlocks(blocks[..last])
    + if chunks == [] then ReportRest(blocks[last]) else ReadAll(blocks[last], chunks[1..])
  }

  /** What is left after the last read is one block, and a blank one says nothing. */
  lemma RestIsParsed(buffer: string)
    requires |Split(buffer)| == 1
    ensures ParseStream(buffer) == ReportRest(buffer)
  {
    SplitWithoutDelimiter(buffer);
    assert ParseStream(buffer) == ParseBlocks([buffer]) == Reported(buffer) + [];
    if Blank(buffer) {
      BlankReportsNothing(buffer);
    }
  }

  lemma LastRead(buffer: string)
    ensures ReadAll(buffer, []) == ParseStream(buffer)
  {
    var blocks := Split(buffer);
    var last := blocks[|blocks| - 1];
    CarryRemainder(buffer, "");
    assert buffer + "" == buffer && last + "" == last;
    RestIsParsed(last);
  }

  /** However the text is cut, the reads report what one reading of the whole text would. */
  lemma {:induction false} ReadsAreOneReading(buffer: string, chunks: seq<string>)
    ensures ReadAll(buffer, chunks) == ParseStream(buffer + Flatten(chunks))
    decreases |chunks|
  {
    if chunks == [] {
      assert buffer + "" == buffer;
      LastRead(buffer);
    } else {
      var text := buffer + chunks[0];
      var rest := Flatten(chunks[1..]);
      assert buffer + (chunks[0] + rest) == text + rest;
      CarryRemainder(text, rest);
      var blocks := Split(text);
      ReadsAreOneReading(blocks[|blocks| - 1], chunks[1..]);
    }
  }

  /** The round trip: however the printed stream is cut into pieces, the reads report the very events
      that were sent, exactly when each name and payload is non-empty and free of raw line
      terminators. JSON text has no raw line feed or carriage return, so the payloads that break it
      are those with U+2028 or U+2029, which the server's encoder leaves as they are. */
  lemma RoundTripUnderAnyChunking(events: seq<ServerEvent>, chunks: seq<string>)
    requires Flatten(chunks) == PrintAll(events)
    ensures ReadAll("", chunks) == events <==> forall e :: e in events ==> Clean(e)
  {
    ReadsAreOneReading("", chunks);
    assert "" + Flatten(chunks) == Flatten(chunks);
    if forall e :: e in events ==> Clean(e) {
      PrintedStream(events);
    }
    ReportsAreClean(Split(Flatten(chunks)));
  }

  /** The client's read loop: append the decoded chunk, split, report the complete blocks and carry
      the rest. The last read carries no text. */
  method StreamQuery(chunks: seq<string>) returns (reported: seq<ServerEvent>)
    ensures reported == ReadAll("", chunks)
  {
    reported := [];
    var buffer := "";
    var next := 0;
    var done := false;
    assert chunks[0..] == chunks;
    while !done
      invariant 0 <= next <= |chunks|
      invariant !done ==> reported + ReadAll(buffer, chunks[next..]) == ReadAll("", chunks)
      invariant done ==> reported + ReportRest(buffer) == ReadAll("", chunks)
      decreases |chunks| - next, !done
    {
      ghost var rest := chunks[next..];
      var value := "";
      if next < |chunks| {
        value := chunks[next];
        next := next + 1;
      } else {
        done := true;
      }
      assert rest == if done then [] else [value] + chunks[next..];
      assert done ==> buffer + value == buffer;
      var blocks := Split(buffer + value);
      ghost var after := if done then ReportRest(blocks[|blocks| - 1]) else ReadAll(blocks[|blocks| - 1], chunks[next..]);
      assert ReadAll(buffer, rest) == ParseBlocks(blocks[..|blocks| - 1]) + after;
      Reassociate(reported, ParseBlocks(blocks[..|blocks| - 1]), after);
      buffer := blocks[|blocks| - 1];
      var complete := ReportBlocks(blocks[..|blocks| - 1]);
      reported := reported + complete;
    }
    if !Blank(buffer) {
      var leftover := ReportBlocks([buffer]);
      reported := reported + leftover;
    }
  }

  /** The format byte for byte, on one event. */
  lemma PrintedEvent()
    ensures Print(ServerEvent("answer", "{}")) == "event: answer\ndata: {}\n\n"
  {
  }

  /** Each of the four characters that end a line for the parser makes an event unclean. */
  lemma LineEndsAreUnclean(e: ServerEvent, i: nat)
    requires i < |e.data|
    requires e.data[i] == '\n' || e.data[i] == '\r' || e.data[i] == '\U{2028}' || e.data[i] == '\U{2029}'
    ensures !Clean(e)
  {
  }
}
