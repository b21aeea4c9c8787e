/** Server-sent events (section 9.2 of the HTML Standard): the incremental reader of
    frontend/src/api/client.ts, and the writer of interface/http/sse.py it reads from. */
module Sse {
  import opened Wrappers

  datatype Event = Event(name: string, id: Option<string>, data: string)

  // ------------------------------------------------------------------ blank-line split

  /** The length of the match of the blank-line separator at `i`, or 0: two line feeds, each
      with or without a carriage return before it. */
  function MatchAt(s: string, i: nat): (n: nat)
    ensures n > 0 ==> 2 <= n <= 4 && i + n <= |s|
  {
    var a := if i < |s| && s[i] == '\r' then i + 1 else i;
    if a >= |s| || s[a] != '\n' then 0
    else
      var b := if a + 1 < |s| && s[a + 1] == '\r' then a + 2 else a + 1;
      if b < |s| && s[b] == '\n' then b + 1 - i else 0
  }

  /** The leftmost match from `i` on, or the end of the text. */
  function FirstMatch(s: string, i: nat): (j: nat)
    requires i <= |s|
    ensures i <= j <= |s|
    ensures forall k :: i <= k < j ==> MatchAt(s, k) == 0
    ensures j < |s| ==> MatchAt(s, j) > 0
    decreases |s| - i
  {
    if i == |s| || MatchAt(s, i) > 0 then i else FirstMatch(s, i + 1)
  }

  /** What splitting the buffer leaves: the complete parts and the open rest. */
  function Split(s: string): (seq<string>, string)
    decreases |s|
  {
    var j := FirstMatch(s, 0);
    if j == |s| then ([], s)
    else
      var (parts, rest) := Split(s[j + MatchAt(s, j)..]);
      ([s[..j]] + parts, rest)
  }

  /** A match is decided by the text up to its end, so more text cannot move an earlier one. */
  lemma MatchIsStable(a: string, b: string, j: nat, k: nat)
    requires k <= j && MatchAt(a, j) > 0
    ensures MatchAt(a + b, k) == MatchAt(a, k)
  {
    assert forall i :: 0 <= i < |a| ==> (a + b)[i] == a[i];
  }

  lemma FirstMatchIsStable(a: string, b: string)
    requires FirstMatch(a, 0) < |a|
    ensures FirstMatch(a + b, 0) == FirstMatch(a, 0)
  {
    hide MatchAt;
    var j, j' := FirstMatch(a, 0), FirstMatch(a + b, 0);
    MatchIsStable(a, b, j, j);
    if j' < j { MatchIsStable(a, b, j, j'); }
  }

  lemma Regroup(a: seq<string>, b: seq<string>, c: seq<string>)
    ensures a + (b + c) == (a + b) + c
  {
  }

  /** Splitting a longer buffer is splitting what was left open with the new text. */
  lemma {:induction false} SplitGrows(a: string, b: string)
    ensures var (parts, open) := Split(a);
            Split(a + b) == (parts + Split(open + b).0, Split(open + b).1)
    decreases |a|
  {
    hide MatchAt;
    var j := FirstMatch(a, 0);
    if j < |a| {
      FirstMatchIsStable(a, b);
      MatchIsStable(a, b, j, j);
      var n := j + MatchAt(a, j);
      assert (a + b)[n..] == a[n..] + b && (a + b)[..j] == a[..j];
      SplitGrows(a[n..], b);
      Regroup([a[..j]], Split(a[n..]).0, Split(Split(a[n..]).1 + b).0);
    } else {
      assert [] + Split(a + b).0 == Split(a + b).0;
    }
  }

  method SplitParts(s: string) returns (parts: seq<string>, rest: string)
    ensures (parts, rest) == Split(s)
  {
    hide MatchAt;
    parts, rest := [], s;
    var i := 0;
    assert parts + Split(rest).0 == Split(s).0;
    while i < |rest|
      invariant 0 <= i <= |rest|
      invariant FirstMatch(rest, i) == FirstMatch(rest, 0)
      invariant (parts + Split(rest).0, Split(rest).1) == Split(s)
      decreases |rest| - i
    {
      var n := MatchAt(rest, i);
      if n > 0 {
        assert Split(rest) == ([rest[..i]] + Split(rest[i + n..]).0, Split(rest[i + n..]).1);
        assert parts + ([rest[..i]] + Split(rest[i + n..]).0) == (parts + [rest[..i]]) + Split(rest[i + n..]).0;
        parts := parts + [rest[..i]];
        rest := rest[i + n..];
        i := 0;
      } else {
        i := i + 1;
      }
    }
    assert Split(rest) == ([], rest);
    assert parts + [] == parts;
  }

  // --------------------------------------------------------------------- one part

  /** The length of the line break at `i`, or 0. */
  function BreakAt(s: string, i: nat): (n: nat)
    ensures n > 0 ==> i + n <= |s|
  {
    if i < |s| && s[i] == '\n' then 1 else if i + 1 < |s| && s[i] == '\r' && s[i + 1] == '\n' then 2 else 0
  }

  /** The lines of a part, split at each line feed with or without a carriage return. */
  function LinesFrom(s: string, i: nat): seq<string>
    requires i <= |s|
    decreases |s|, |s| - i
  {
    if i == |s| then [s]
    else if BreakAt(s, i) > 0 then [s[..i]] + LinesFrom(s[i + BreakAt(s, i)..], 0)
    else LinesFrom(s, i + 1)
  }

  function IndexOfColon(line: string): (i: nat)
    ensures i <= |line| && (i < |line| ==> line[i] == ':') && ':' !in line[..i]
  {
    if line == "" || line[0] == ':' then 0 else 1 + IndexOfColon(line[1..])
  }

  function FieldOf(line: string): string {
    line[..IndexOfColon(line)]
  }

  /** The value of a line, without the one space that may follow the colon. */
  function ValueOf(line: string): string {
    var i := IndexOfColon(line);
    if i == |line| then ""
    else if i + 1 < |line| && line[i + 1] == ' ' then line[i + 2..]
    else line[i + 1..]
  }

  function Join(lines: seq<string>): string {
    if lines == [] then "" else if |lines| == 1 then lines[0] else lines[0] + "\n" + Join(lines[1..])
  }

  /** The event under construction: name, id and data lines so far. */
  datatype Draft = Draft(name: string, id: Option<string>, lines: seq<string>)

  function Take(draft: Draft, line: string): Draft {
    if line == "" || line[0] == ':' then draft
    else if FieldOf(line) == "event" then draft.(name := ValueOf(line))
    else if FieldOf(line) == "id" then draft.(id := Some(ValueOf(line)))
    else if FieldOf(line) == "data" then draft.(lines := draft.lines + [ValueOf(line)])
    else draft
  }

  function TakeAll(draft: Draft, lines: seq<string>): Draft
    decreases |lines|
  {
    if lines == [] then draft else TakeAll(Take(draft, lines[0]), lines[1..])
  }

  function Finished(draft: Draft): Event {
    Event(draft.name, draft.id, Join(draft.lines))
  }

  function Emit(part: string): Event {
    Finished(TakeAll(Draft("message", None, []), LinesFrom(part, 0)))
  }

  method SplitLinesOf(part: string) returns (lines: seq<string>)
    ensures lines == LinesFrom(part, 0)
  {
    hide BreakAt;
    lines := [];
    var rest, i := part, 0;
    while i < |rest|
      invariant 0 <= i <= |rest|
      invariant lines + LinesFrom(rest, i) == LinesFrom(part, 0)
      decreases |rest| - i
    {
      var n := BreakAt(rest, i);
      if n > 0 {
        assert LinesFrom(rest, i) == [rest[..i]] + LinesFrom(rest[i + n..], 0);
        lines := lines + [rest[..i]];
        rest := rest[i + n..];
        i := 0;
      } else {
        i := i + 1;
      }
    }
    lines := lines + [rest];
  }

  method EmitSsePart(part: string) returns (event: Event)
    ensures event == Emit(part)
  {
    hide LinesFrom, IndexOfColon;
    var lines := SplitLinesOf(part);
    var name, id: Option<string>, dataLines: seq<string> := "message", None, [];
    var i := 0;
    assert lines[0..] == lines;
    while i < |lines|
      invariant 0 <= i <= |lines|
      invariant TakeAll(Draft(name, id, dataLines), lines[i..]) == TakeAll(Draft("message", None, []), lines)
    {
      var line := lines[i];
      assert lines[i..][1..] == lines[i + 1..];
      if line != "" && line[0] != ':' {
        var field, value := FieldOf(line), ValueOf(line);
        if field == "event" {
          name := value;
        } else if field == "id" {
          id := Some(value);
        } else if field == "data" {
          dataLines := dataLines + [value];
        }
      }
      i := i + 1;
    }
    assert lines[i..] == [];
    return Event(name, id, Join(dataLines));
  }

  // ------------------------------------------------------------------- the reader

  predicate IsSpace(c: char) {
    c in "\t\n\r \U{000B}\U{000C}\U{00A0}\U{1680}\U{2028}\U{2029}\U{202F}\U{205F}\U{3000}\U{FEFF}"
    || '\U{2000}' <= c <= '\U{200A}'
  }

  /** The text is nothing but white space, so that trimming leaves nothing. */
  predicate Blank(s: string) {
    forall c :: c in s ==> IsSpace(c)
  }

  function EmitAll(parts: seq<string>): (events: seq<Event>)
    ensures |events| == |parts|
  {
    if parts == [] then [] else [Emit(parts[0])] + EmitAll(parts[1..])
  }

  lemma {:induction false} EmitConcat(a: seq<string>, b: seq<string>)
    ensures EmitAll(a + b) == EmitAll(a) + EmitAll(b)
    decreases |a|
  {
    hide Emit;
    if a == [] {
      assert a + b == b;
    } else {
      EmitConcat(a[1..], b);
      assert (a + b)[1..] == a[1..] + b;
    }
  }

  /** The events of a whole stream. */
  function Events(text: string): seq<Event> {
    var (parts, rest) := Split(text);
    EmitAll(parts) + if Blank(rest) then [] else [Emit(rest)]
  }

  function Text(chunks: seq<string>): string {
    if chunks == [] then "" else Text(chunks[..|chunks| - 1]) + chunks[|chunks| - 1]
  }

  /** requestSse: whatever the reads cut the stream into, even inside a line break or a
      separator, the events are those of the whole text. */
  method RequestSse(chunks: seq<string>) returns (events: seq<Event>)
    ensures events == Events(Text(chunks))
  {
    hide Split, Emit, EmitAll, Blank;
    var buffer := "";
    events := [];
    NothingToSplit();
    var i := 0;
    while i < |chunks|
      invariant 0 <= i <= |chunks|
      invariant Split(Text(chunks[..i])).1 == buffer
      invariant EmitAll(Split(Text(chunks[..i])).0) == events
    {
      ghost var before := Text(chunks[..i]);
      assert chunks[..i + 1][..i] == chunks[..i];
      SplitGrows(before, chunks[i]);
      buffer := buffer + chunks[i];
      var parts, rest := SplitParts(buffer);
      EmitConcat(Split(before).0, parts);
      buffer := rest;
      var more := EmitParts(parts);
      events := events + more;
      i := i + 1;
    }
    assert chunks[..i] == chunks;
    if !Blank(buffer) {
      var last := EmitSsePart(buffer);
      events := events + [last];
    }
  }

  lemma NothingToSplit()
    ensures Split("") == ([], "") && EmitAll([]) == []
  {
  }

  method EmitParts(parts: seq<string>) returns (events: seq<Event>)
    ensures events == EmitAll(parts)
  {
    hide Emit;
    events := [];
    var i := 0;
    assert parts[0..] == parts;
    while i < |parts|
      invariant 0 <= i <= |parts|
      invariant events + EmitAll(parts[i..]) == EmitAll(parts)
    {
      assert parts[i..][1..] == parts[i + 1..];
      var event := EmitSsePart(parts[i]);
      events := events + [event];
      i := i + 1;
    }
  }

  /** Chunk invariance: feeding the chunks one at a time emits the parts of the whole text and
      leaves the same buffer, so only the concatenated text matters. */
  lemma {:induction false} ChunkInvariance(chunks: seq<string>)
    ensures Split(Text(chunks)) == Fed(chunks)
  {
    hide Split;
    if chunks == [] {
      NothingToSplit();
    } else {
      var front := chunks[..|chunks| - 1];
      ChunkInvariance(front);
      SplitGrows(Text(front), chunks[|chunks| - 1]);
    }
  }

  /** The parts emitted and the buffer left by feeding the chunks one at a time. */
  function Fed(chunks: seq<string>): (seq<string>, string) {
    if chunks == [] then ([], "")
    else
      var (parts, buffer) := Fed(chunks[..|chunks| - 1]);
      var (more, rest) := Split(buffer + chunks[|chunks| - 1]);
      (parts + more, rest)
  }

  // ------------------------------------------------------------------- the writer

  /** An event as the server sends it. */
  datatype Sent = Sent(name: Option<string>, id: Option<string>, retry: Option<string>, data: string)

  /** _single_line_field. */
  function SingleLine(value: string): (s: string)
    ensures forall c :: c in s ==> c != '\r' && c != '\n'
  {
    if value == "" then ""
    else (if value[0] == '\r' || value[0] == '\n' then "" else [value[0]]) + SingleLine(value[1..])
  }

  /** The characters at which str.splitlines breaks. */
  predicate IsBoundary(c: char) {
    c in "\n\r\U{000B}\U{000C}\U{001C}\U{001D}\U{001E}\U{0085}\U{2028}\U{2029}"
  }

  function BoundaryFrom(s: string, i: nat): (j: nat)
    requires i <= |s|
    ensures i <= j <= |s| && (j < |s| ==> IsBoundary(s[j])) && forall k :: i <= k < j ==> !IsBoundary(s[k])
    decreases |s| - i
  {
    if i == |s| || IsBoundary(s[i]) then i else BoundaryFrom(s, i + 1)
  }

  function BoundaryWidth(s: string, j: nat): (n: nat)
    requires j < |s|
    ensures 1 <= n <= 2 && j + n <= |s|
  {
    if s[j] == '\r' && j + 1 < |s| && s[j + 1] == '\n' then 2 else 1
  }

  /** str.splitlines. */
  function SplitLines(s: string): (lines: seq<string>)
    ensures forall line, c :: line in lines && c in line ==> !IsBoundary(c)
    ensures lines == [] <==> s == ""
    decreases |s|
  {
    if s == "" then []
    else
      var j := BoundaryFrom(s, 0);
      if j == |s| then [s] else [s[..j]] + SplitLines(s[j + BoundaryWidth(s, j)..])
  }

  function DataLines(data: string): (lines: seq<string>)
    ensures lines != [] && forall line, c :: line in lines && c in line ==> !IsBoundary(c)
  {
    if data == "" then [""] else SplitLines(data)
  }

  function Prefixed(lines: seq<string>): (out: seq<string>)
    ensures |out| == |lines| && forall i :: 0 <= i < |lines| ==> out[i] == "data: " + lines[i]
  {
    if lines == [] then [] else ["data: " + lines[0]] + Prefixed(lines[1..])
  }

  function FormatLines(e: Sent): seq<string> {
    (if e.name.Some? then ["event: " + SingleLine(e.name.value)] else [])
    + (if e.id.Some? then ["id: " + SingleLine(e.id.value)] else [])
    + (if e.retry.Some? then ["retry: " + e.retry.value] else [])
    + Prefixed(DataLines(e.data))
  }

  /** format_sse_event. */
  function Format(e: Sent): string {
    Join(FormatLines(e)) + "\n\n"
  }

  function FormatAll(events: seq<Sent>): string {
    if events == [] then "" else Format(events[0]) + FormatAll(events[1..])
  }

  /** What the reader should make of it. */
  function Received(e: Sent): Event {
    Event(if e.name.Some? then SingleLine(e.name.value) else "message",
          if e.id.Some? then Some(SingleLine(e.id.value)) else None,
          Join(DataLines(e.data)))
  }

  function ReceivedAll(events: seq<Sent>): seq<Event> {
    if events == [] then [] else [Received(events[0])] + ReceivedAll(events[1..])
  }

  /** A nonempty line without a line break. */
  predicate IsLine(line: string) {
    line != "" && forall c :: c in line ==> c != '\r' && c != '\n'
  }

  /** A retry value is a decimal number. */
  predicate IsSent(e: Sent) {
    e.retry.Some? ==> forall c :: c in e.retry.value ==> c != '\r' && c != '\n'
  }

  lemma LabelIsLine(tag: string, value: string)
    requires IsLine(tag) && forall c :: c in value ==> c != '\r' && c != '\n'
    ensures IsLine(tag + value)
  {
    forall c | c in tag + value ensures c in tag || c in value {
      var i :| 0 <= i < |tag + value| && (tag + value)[i] == c;
      if i < |tag| { assert tag[i] == c; } else { assert value[i - |tag|] == c; }
    }
  }

  lemma DataIsLines(lines: seq<string>)
    requires forall line, c :: line in lines && c in line ==> !IsBoundary(c)
    ensures forall line :: line in Prefixed(lines) ==> IsLine(line)
  {
    hide IsLine;
    LabelsAreLines();
    forall line | line in Prefixed(lines) ensures IsLine(line) {
      var i :| 0 <= i < |lines| && Prefixed(lines)[i] == line;
      assert lines[i] in lines;
      LabelIsLine("data: ", lines[i]);
    }
  }

  lemma LabelsAreLines()
    ensures IsLine("event: ") && IsLine("id: ") && IsLine("retry: ") && IsLine("data: ")
  {
  }

  lemma FormatLinesAreLines(e: Sent)
    requires IsSent(e)
    ensures FormatLines(e) != [] && forall line :: line in FormatLines(e) ==> IsLine(line)
  {
    hide IsLine, SingleLine, DataLines, Prefixed;
    LabelsAreLines();
    DataIsLines(DataLines(e.data));
    if e.name.Some? { LabelIsLine("event: ", SingleLine(e.name.value)); }
    if e.id.Some? { LabelIsLine("id: ", SingleLine(e.id.value)); }
    if e.retry.Some? { LabelIsLine("retry: ", e.retry.value); }
  }

  /** No carriage returns, and line feeds only inside and never two in a row. */
  predicate Tight(t: string) {
    forall k :: 0 <= k < |t| ==> TightAt(t, k)
  }

  predicate TightAt(t: string, k: nat)
    requires k < |t|
  {
    t[k] != '\r' && (t[k] == '\n' ==> k + 1 < |t| && t[k + 1] != '\n')
  }

  lemma LineChars(line: string, k: nat)
    requires IsLine(line) && k < |line|
    ensures line[k] != '\r' && line[k] != '\n'
  {
    assert line[k] in line;
  }

  lemma LineIsTight(line: string)
    requires IsLine(line)
    ensures Tight(line) && line[0] != '\n'
  {
    forall k | 0 <= k < |line| ensures line[k] != '\r' && line[k] != '\n' { LineChars(line, k); }
  }

  lemma TightOnwards(line: string, rest: string)
    requires IsLine(line) && Tight(rest) && rest != "" && rest[0] != '\n'
    ensures Tight(line + "\n" + rest)
  {
    var t, n := line + "\n" + rest, |line|;
    forall k | 0 <= k < |t| ensures TightAt(t, k) {
      if k < n {
        LineChars(line, k);
        assert t[k] == line[k];
      } else if k == n {
        assert t[k] == '\n' && t[k + 1] == rest[0];
      } else {
        assert TightAt(rest, k - n - 1);
        assert t[k] == rest[k - n - 1];
        if k + 1 < |t| { assert t[k + 1] == rest[k - n]; }
      }
    }
  }

  lemma {:induction false} JoinIsTight(lines: seq<string>)
    requires lines != [] && forall line :: line in lines ==> IsLine(line)
    ensures Tight(Join(lines)) && Join(lines) != "" && Join(lines)[0] != '\n'
    decreases |lines|
  {
    hide Tight;
    assert lines[0] in lines;
    LineIsTight(lines[0]);
    if |lines| > 1 {
      JoinIsTight(lines[1..]);
      TightOnwards(lines[0], Join(lines[1..]));
      assert Join(lines)[0] == lines[0][0];
    }
  }

  /** A formatted event is one part, and what follows it is split on its own. */
  lemma FormatSplits(t: string, rest: string)
    requires Tight(t)
    ensures Split(t + "\n\n" + rest) == ([t] + Split(rest).0, Split(rest).1)
  {
    var s := t + "\n\n" + rest;
    forall k | 0 <= k < |t| ensures MatchAt(s, k) == 0 {
      assert TightAt(t, k) && s[k] == t[k];
      if t[k] == '\n' { assert TightAt(t, k + 1) && s[k + 1] == t[k + 1]; }
    }
    assert s[|t|] == '\n' && s[|t| + 1] == '\n';
    assert MatchAt(s, |t|) == 2;
    assert FirstMatch(s, 0) == |t|;
    assert s[..|t|] == t && s[|t| + 2..] == rest;
  }

  lemma {:induction false} LinesOfJoin(lines: seq<string>, i: nat)
    requires lines != [] && (forall line :: line in lines ==> IsLine(line)) && i <= |lines[0]|
    ensures LinesFrom(Join(lines), i) == lines
    decreases |lines|, |lines[0]| - i
  {
    var s, first := Join(lines), lines[0];
    assert first in lines;
    if i < |first| {
      assert s[i] == first[i] && first[i] in first;
      LinesOfJoin(lines, i + 1);
    } else if |lines| > 1 {
      var rest := lines[1..];
      assert s[i] == '\n' && s[..i] == first && s[i + 1..] == Join(rest);
      LinesOfJoin(rest, 0);
    }
  }

  lemma {:induction false} ColonAt(line: string, k: nat)
    requires k < |line| && line[k] == ':' && ':' !in line[..k]
    ensures IndexOfColon(line) == k
    decreases k
  {
    if k > 0 {
      assert line[0] in line[..k] && line[1..][..k - 1] == line[1..k];
      ColonAt(line[1..], k - 1);
    }
  }

  lemma FieldLine(field: string, value: string)
    requires ':' !in field
    ensures FieldOf(field + ": " + value) == field && ValueOf(field + ": " + value) == value
  {
    var line := field + ": " + value;
    assert line[..|field|] == field && line[|field|] == ':';
    ColonAt(line, |field|);
    assert line[..|field|] == field && line[|field| + 2..] == value;
  }

  lemma {:induction false} TakeData(draft: Draft, lines: seq<string>)
    ensures TakeAll(draft, Prefixed(lines)) == draft.(lines := draft.lines + lines)
    decreases |lines|
  {
    if lines == [] {
      assert draft.lines + [] == draft.lines;
    } else {
      FieldLine("data", lines[0]);
      var next := draft.(lines := draft.lines + [lines[0]]);
      var line := "data: " + lines[0];
      assert line[0] == 'd' && line == "data" + ": " + lines[0];
      assert Take(draft, line) == next;
      TakeData(next, lines[1..]);
      assert draft.lines + [lines[0]] + lines[1..] == draft.lines + lines;
      assert Prefixed(lines)[1..] == Prefixed(lines[1..]);
    }
  }

  lemma {:induction false} TakeConcat(draft: Draft, a: seq<string>, b: seq<string>)
    ensures TakeAll(draft, a + b) == TakeAll(TakeAll(draft, a), b)
    decreases |a|
  {
    hide Take;
    if a == [] {
      assert a + b == b;
    } else {
      TakeConcat(Take(draft, a[0]), a[1..], b);
      assert (a + b)[1..] == a[1..] + b;
    }
  }

  lemma TakeField(draft: Draft, field: string, value: string)
    requires field in {"event", "id", "retry"}
    ensures TakeAll(draft, [field + ": " + value])
            == if field == "event" then draft.(name := value)
               else if field == "id" then draft.(id := Some(value)) else draft
  {
    FieldLine(field, value);
    var line := field + ": " + value;
    assert field[0] == 'e' || field[0] == 'i' || field[0] == 'r';
    assert line[0] == field[0] && line != "";
    var none: seq<string> := [];
    assert [line][1..] == none;
    assert TakeAll(draft, [line]) == TakeAll(Take(draft, line), none);
  }

  lemma Tags()
    ensures forall value: string :: "event" + ": " + value == "event: " + value
    ensures forall value: string :: "id" + ": " + value == "id: " + value
    ensures forall value: string :: "retry" + ": " + value == "retry: " + value
  {
    assert "event" + ": " == "event: " && "id" + ": " == "id: " && "retry" + ": " == "retry: ";
  }

  lemma TakeFormat(e: Sent)
    ensures Finished(TakeAll(Draft("message", None, []), FormatLines(e))) == Received(e)
  {
    hide TakeAll, Take, SingleLine, DataLines, Prefixed;
    var start := Draft("message", None, []);
    var name := if e.name.Some? then ["event: " + SingleLine(e.name.value)] else [];
    var id := if e.id.Some? then ["id: " + SingleLine(e.id.value)] else [];
    var retry := if e.retry.Some? then ["retry: " + e.retry.value] else [];
    var data := Prefixed(DataLines(e.data));
    assert FormatLines(e) == name + id + retry + data;
    TakeConcat(start, name + id + retry, data);
    TakeConcat(start, name + id, retry);
    TakeConcat(start, name, id);
    var named := if e.name.Some? then start.(name := SingleLine(e.name.value)) else start;
    if e.name.Some? { TakeField(start, "event", SingleLine(e.name.value)); } else { TakeNothing(start); }
    var known := if e.id.Some? then named.(id := Some(SingleLine(e.id.value))) else named;
    if e.id.Some? { TakeField(named, "id", SingleLine(e.id.value)); } else { TakeNothing(named); }
    if e.retry.Some? { TakeField(known, "retry", e.retry.value); } else { TakeNothing(known); }
    Tags();
    assert TakeAll(start, name) == named;
    assert TakeAll(named, id) == known;
    assert TakeAll(known, retry) == known;
    TakeData(known, DataLines(e.data));
    assert known.lines + DataLines(e.data) == DataLines(e.data);
    assert TakeAll(start, FormatLines(e)) == known.(lines := DataLines(e.data));
  }

  lemma TakeNothing(draft: Draft)
    ensures TakeAll(draft, []) == draft
  {
  }

  lemma EmitFormat(e: Sent)
    requires IsSent(e)
    ensures Emit(Join(FormatLines(e))) == Received(e)
  {
    hide LinesFrom, TakeAll, FormatLines, IsLine;
    FormatLinesAreLines(e);
    LinesOfJoin(FormatLines(e), 0);
    TakeFormat(e);
  }

  lemma {:induction false} FormattedEvents(events: seq<Sent>)
    requires forall e :: e in events ==> IsSent(e)
    ensures var (parts, rest) := Split(FormatAll(events));
            rest == "" && EmitAll(parts) == ReceivedAll(events)
    decreases |events|
  {
    hide Split, Emit, FormatLines, Received, Tight, IsSent, IsLine;
    if events == [] {
      NothingToSplit();
    } else {
      var e, t := events[0], Join(FormatLines(events[0]));
      assert e in events;
      FormatLinesAreLines(e);
      JoinIsTight(FormatLines(e));
      FormatSplits(t, FormatAll(events[1..]));
      EmitFormat(e);
      FormattedEvents(events[1..]);
      assert ([t] + Split(FormatAll(events[1..])).0)[1..] == Split(FormatAll(events[1..])).0;
    }
  }

  /** End to end: whatever events the server formats and however the network cuts the stream,
      the reader emits exactly those events, in order. */
  lemma StreamsArriveWhole(events: seq<Sent>, chunks: seq<string>)
    requires forall e :: e in events ==> IsSent(e)
    requires Text(chunks) == FormatAll(events)
    ensures Events(Text(chunks)) == ReceivedAll(events)
  {
    hide Split, EmitAll, ReceivedAll, Text, FormatAll;
    FormattedEvents(events);
    assert Blank("");
  }

  /** Data arrives unchanged exactly when its only line boundaries are line feeds and none ends
      it; any other boundary that str.splitlines knows, such as U+2028, turns into a line feed. */
  lemma {:induction false} DataArrivesUnchanged(data: string)
    ensures Join(DataLines(data)) == data <==> OnlyInnerFeeds(data)
    ensures |Join(DataLines(data))| <= |data|
    ensures data != "" && IsBoundary(data[|data| - 1]) ==> |Join(DataLines(data))| < |data|
    decreases |data|
  {
    hide *;
    if data == "" {
      NothingSent();
    } else {
      var j := BoundaryFrom(data, 0);
      LinesStep(data);
      if j < |data| {
        var w := BoundaryWidth(data, j);
        var head, sep, rest := data[..j], data[j..j + w], data[j + w..];
        DataArrivesUnchanged(rest);
        BoundaryIs(data, j);
        assert data == head + sep + rest;
        FeedsSplit(head, sep, rest);
        if rest == "" {
          LastLine(head, sep);
        } else {
          NextLine(head, sep, rest, Join(DataLines(rest)));
        }
      } else {
        NoFeeds(data);
      }
    }
  }

  lemma LastLine(head: string, sep: string)
    requires 1 <= |sep| <= 2
    ensures head != head + sep + "" && |head| < |head + sep + ""|
  {
  }

  lemma NextLine(head: string, sep: string, rest: string, joined: string)
    requires 1 <= |sep| <= 2 && rest != "" && |joined| <= |rest|
    ensures var data, out := head + sep + rest, head + "\n" + joined;
            && (out == data <==> sep == "\n" && joined == rest)
            && |out| <= |data| && (|joined| < |rest| ==> |out| < |data|)
            && data[|data| - 1] == rest[|rest| - 1]
  {
    JoinedTail(head, sep, rest, joined);
  }

  lemma NothingSent()
    ensures Join(DataLines("")) == "" && OnlyInnerFeeds("")
  {
  }

  /** Joining again, one line at a time. */
  lemma LinesStep(data: string)
    requires data != ""
    ensures var j := BoundaryFrom(data, 0);
            if j == |data| then Join(DataLines(data)) == data
            else
              var rest := data[j + BoundaryWidth(data, j)..];
              Join(DataLines(data)) == if rest == "" then data[..j] else data[..j] + "\n" + Join(DataLines(rest))
  {
    hide IsBoundary, BoundaryWidth;
    var j := BoundaryFrom(data, 0);
    if j < |data| {
      var rest := data[j + BoundaryWidth(data, j)..];
      assert ([data[..j]] + SplitLines(rest))[1..] == SplitLines(rest);
    }
  }

  predicate OnlyInnerFeeds(data: string) {
    (forall c :: c in data && IsBoundary(c) ==> c == '\n') && (data == "" || data[|data| - 1] != '\n')
  }

  lemma NoFeeds(data: string)
    requires forall k :: 0 <= k < |data| ==> !IsBoundary(data[k])
    ensures OnlyInnerFeeds(data) && (data != "" ==> !IsBoundary(data[|data| - 1]))
  {
  }

  lemma BoundaryIs(data: string, j: nat)
    requires j < |data| && IsBoundary(data[j])
    ensures var sep := data[j..j + BoundaryWidth(data, j)];
            (|sep| == 2 ==> sep == "\r\n") && IsBoundary(sep[0]) && IsBoundary(sep[|sep| - 1])
  {
  }

  lemma FeedsSplit(head: string, sep: string, rest: string)
    requires forall k :: 0 <= k < |head| ==> !IsBoundary(head[k])
    requires 1 <= |sep| <= 2 && IsBoundary(sep[0]) && IsBoundary(sep[|sep| - 1]) && (|sep| == 2 ==> sep == "\r\n")
    ensures OnlyInnerFeeds(head + sep + rest) <==> sep == "\n" && rest != "" && OnlyInnerFeeds(rest)
  {
    hide IsBoundary;
    var data := head + sep + rest;
    assert data[|head|] == sep[0] && data[|head|] in data;
    forall c | c in rest ensures c in data {
      var i :| 0 <= i < |rest| && rest[i] == c;
      assert data[|head| + |sep| + i] == c;
    }
    forall c | c in data ensures c in head || c in sep || c in rest {
      var i :| 0 <= i < |data| && data[i] == c;
      if i < |head| { assert head[i] == c; }
      else if i < |head| + |sep| { assert sep[i - |head|] == c; }
      else { assert rest[i - |head| - |sep|] == c; }
    }
    if rest == "" {
      assert data[|data| - 1] == sep[|sep| - 1];
    } else {
      assert data[|data| - 1] == rest[|rest| - 1];
    }
  }

  lemma JoinedTail(head: string, sep: string, rest: string, joined: string)
    requires 1 <= |sep| <= 2 && |joined| <= |rest|
    ensures head + "\n" + joined == head + sep + rest <==> sep == "\n" && joined == rest
  {
    var a, b := head + "\n" + joined, head + sep + rest;
    if a == b {
      assert |sep| == 1;
      assert a[|head|] == '\n' && b[|head|] == sep[0];
      assert a[|head| + 1..] == joined && b[|head| + 1..] == rest;
    }
  }
}
