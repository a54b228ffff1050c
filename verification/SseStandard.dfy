/** The event stream against a parser written from the standard. */
module SseStandard {
  import opened Wrappers
  import opened Sse

  /******* The standard's parser: sections 9.2.5 and 9.2.6 of the WHATWG HTML Standard *******/

  datatype Buffers = Buffers(kind: string, data: string, out: seq<Event>)

  // Lines end in a line feed, a carriage return, or both; the last line dispatches nothing.
  function StandardLineEnd(s: string): (n: nat)
    ensures n <= |s| && (n < |s| ==> s[n] == '\n' || s[n] == '\r')
    ensures forall k :: 0 <= k < n ==> s[k] != '\n' && s[k] != '\r'
  {
    if s == "" || s[0] == '\n' || s[0] == '\r' then 0 else StandardLineEnd(s[1..]) + 1
  }

  function StandardAfterLine(s: string, n: nat): string
    requires n < |s|
  {
    if s[n] == '\r' && n + 1 < |s| && s[n + 1] == '\n' then s[n + 2..] else s[n + 1..]
  }

  function Dispatch(b: Buffers): Buffers {
    if b.data == "" then Buffers("", "", b.out)
    else
      var data := if b.data[|b.data| - 1] == '\n' then b.data[..|b.data| - 1] else b.data;
      Buffers("", "", b.out + [Event(if b.kind == "" then "message" else b.kind, data)])
  }

  function Colon(line: string): (n: nat)
    ensures n <= |line| && (n < |line| ==> line[n] == ':') && forall k :: 0 <= k < n ==> line[k] != ':'
  {
    if line == "" || line[0] == ':' then 0 else Colon(line[1..]) + 1
  }

  // Fields other than these two do not show in what is dispatched.
  function OnField(b: Buffers, field: string, value: string): Buffers {
    if field == "event" then b.(kind := value)
    else if field == "data" then b.(data := b.data + value + "\n")
    else b
  }

  function OnStandardLine(b: Buffers, line: string): Buffers {
    if line == "" then Dispatch(b)
    else
      var n := Colon(line);
      if n == 0 then b
      else if n == |line| then OnField(b, line, "")
      else OnField(b, line[..n], WithoutPrefix(line[n + 1..], " "))
  }

  function StandardScan(s: string, b: Buffers): Buffers
    decreases |s|
  {
    var n := StandardLineEnd(s);
    if n == |s| then b else StandardScan(StandardAfterLine(s, n), OnStandardLine(b, s[..n]))
  }

  function StandardParse(s: string): seq<Event> {
    StandardScan(s, Buffers("", "", [])).out
  }

  /******* Agreement with the standard *******/

  predicate NoEnd(s: string) {
    forall k :: 0 <= k < |s| ==> s[k] != '\n' && s[k] != '\r'
  }

  predicate Plain(c: Chunk) {
    match c
    case Message(e) => NoEnd(e.name) && NoEnd(e.data) && e.name != "" && e.data != ""
    case Comment(text) => NoEnd(text)
  }

  lemma StandardLineEndIs(line: string, rest: string)
    requires NoEnd(line)
    ensures StandardLineEnd(line + "\n" + rest) == |line|
  {
    var s := line + "\n" + rest;
    assert s[|line|] == '\n';
    assert forall k :: 0 <= k < |line| ==> s[k] == line[k];
  }

  lemma StandardCut(line: string, rest: string)
    ensures var s := line + "\n" + rest;
            s[..|line|] == line && StandardAfterLine(s, |line|) == rest
  {
    var s := line + "\n" + rest;
    assert s[|line|] == '\n' && s[|line| + 1..] == rest;
  }

  lemma StandardLine(line: string, rest: string, b: Buffers)
    requires NoEnd(line)
    ensures StandardScan(line + "\n" + rest, b) == StandardScan(rest, OnStandardLine(b, line))
  {
    StandardLineEndIs(line, rest);
    StandardCut(line, rest);
  }

  lemma FieldLine(b: Buffers, field: string, value: string)
    requires field != "" && forall k :: 0 <= k < |field| ==> field[k] != ':'
    ensures OnStandardLine(b, field + ": " + value) == OnField(b, field, value)
  {
    var line := field + ": " + value;
    assert line[|field|] == ':';
    assert forall k :: 0 <= k < |field| ==> line[k] == field[k];
    assert line[..|field|] == field && line[|field| + 1..] == " " + value;
    assert (" " + value)[1..] == value;
  }

  function Cleared(out: seq<Event>): Buffers {
    Buffers("", "", out)
  }

  lemma StandardEventLine(b: Buffers, name: string)
    ensures OnStandardLine(b, "event: " + name) == b.(kind := name)
  {
    assert "event: " == "event" + ": ";
    FieldLine(b, "event", name);
  }

  lemma StandardDataLine(b: Buffers, body: string)
    ensures OnStandardLine(b, "data: " + body) == b.(data := b.data + body + "\n")
  {
    assert "data: " == "data" + ": ";
    FieldLine(b, "data", body);
  }

  lemma StandardBlank(b: Buffers, body: string, rest: string)
    requires b.data == body + "\n"
    ensures StandardScan("\n" + rest, b) ==
              StandardScan(rest, Cleared(b.out + [Event(if b.kind == "" then "message" else b.kind, body)]))
  {
    assert "\n" + rest == "" + "\n" + rest;
    StandardLine("", rest, b);
    assert b.data[..|b.data| - 1] == body;
  }

  lemma NoEndAfter(prefix: string, s: string)
    requires NoEnd(prefix) && NoEnd(s)
    ensures NoEnd(prefix + s)
  {
  }

  lemma StandardData(kind: string, body: string, rest: string, out: seq<Event>)
    requires NoEnd(body)
    ensures StandardScan("data: " + body + "\n" + ("\n" + rest), Buffers(kind, "", out)) ==
              StandardScan(rest, Cleared(out + [Event(if kind == "" then "message" else kind, body)]))
  {
    var named := Buffers(kind, "", out);
    NoEndAfter("data: ", body);
    StandardLine("data: " + body, "\n" + rest, named);
    StandardDataLine(named, body);
    assert "" + body + "\n" == body + "\n";
    StandardBlank(named.(data := body + "\n"), body, rest);
  }

  lemma StandardMessage(e: Event, rest: string, out: seq<Event>)
    requires Plain(Message(e))
    ensures StandardScan(Text(e) + rest, Cleared(out)) == StandardScan(rest, Cleared(out + [e]))
  {
    var dataPart := "data: " + e.data + "\n" + ("\n" + rest);
    assert Text(e) + rest == "event: " + e.name + "\n" + dataPart;
    NoEndAfter("event: ", e.name);
    StandardLine("event: " + e.name, dataPart, Cleared(out));
    StandardEventLine(Cleared(out), e.name);
    StandardData(e.name, e.data, rest, out);
  }

  lemma StandardComment(text: string, rest: string, b: Buffers)
    requires NoEnd(text)
    ensures StandardScan(ChunkText(Comment(text)) + rest, b) == StandardScan(rest, b)
  {
    assert ChunkText(Comment(text)) + rest == ":" + text + "\n" + rest;
    StandardLine(":" + text, rest, b);
  }

  lemma StandardChunk(c: Chunk, rest: string, out: seq<Event>)
    requires Plain(c)
    ensures StandardScan(ChunkText(c) + rest, Cleared(out)) == StandardScan(rest, Cleared(out + Content(c)))
  {
    match c
    case Message(e) => StandardMessage(e, rest, out);
    case Comment(text) =>
      StandardComment(text, rest, Cleared(out));
      assert out + [] == out;
  }

  ghost predicate StandardCarries(text: string, rest: string, share: seq<Event>) {
    forall out: seq<Event> :: StandardScan(text, Cleared(out)) == StandardScan(rest, Cleared(out + share))
  }

  lemma StandardChunkCarries(c: Chunk, rest: string)
    requires Plain(c)
    ensures StandardCarries(ChunkText(c) + rest, rest, Content(c))
  {
    forall out: seq<Event>
      ensures StandardScan(ChunkText(c) + rest, Cleared(out)) == StandardScan(rest, Cleared(out + Content(c)))
    {
      StandardChunk(c, rest, out);
    }
  }

  lemma StandardCarriesOn(a: string, sa: seq<Event>, b: string, sb: seq<Event>, c: string)
    requires StandardCarries(a, b, sa) && StandardCarries(b, c, sb)
    ensures StandardCarries(a, c, sa + sb)
  {
    forall out: seq<Event> ensures StandardScan(a, Cleared(out)) == StandardScan(c, Cleared(out + (sa + sb))) {
      assert out + (sa + sb) == out + sa + sb;
    }
  }

  lemma {:induction false} StandardStream(chunks: seq<Chunk>)
    requires forall c :: c in chunks ==> Plain(c)
    ensures StandardCarries(StreamText(chunks), "", Events(chunks))
    decreases |chunks|
  {
    if chunks == [] {
      forall out: seq<Event> ensures out + [] == out {
      }
    } else {
      var c, tail := chunks[0], chunks[1..];
      StandardStream(tail);
      StandardChunkCarries(c, StreamText(tail));
      StandardCarriesOn(StreamText(chunks), Content(c), StreamText(tail), Events(tail), "");
    }
  }

  // A conforming parser reads from such a stream what was written, and so does the command line.
  lemma AgreesWithStandard(chunks: seq<Chunk>)
    requires forall c :: c in chunks ==> Plain(c) && Fits(c)
    ensures StandardParse(StreamText(chunks)) == Events(chunks)
    ensures Parse(StreamText(chunks)) == StandardParse(StreamText(chunks)) <==> Safe(chunks)
  {
    StandardStream(chunks);
    assert [] + Events(chunks) == Events(chunks);
    assert StandardScan(StreamText(chunks), Cleared([])) == StandardScan("", Cleared([] + Events(chunks)));
    RoundTrip(chunks);
  }

  /******* Any lines at all *******/

  // One line of a stream; OtherField is any that neither parser looks into.
  datatype Line =
    | Empty
    | Remark(text: string)
    | EventField(value: string)
    | DataField(value: string)
    | OtherField(text: string)

  function LineText(l: Line): string {
    match l
    case Empty => ""
    case Remark(text) => ":" + text
    case EventField(value) => "event:" + value
    case DataField(value) => "data:" + value
    case OtherField(text) => text
  }

  predicate IsOther(text: string) {
    text != "" && text[0] != ':' && text[..Colon(text)] != "event" && text[..Colon(text)] != "data"
  }

  predicate WellFormed(l: Line) {
    && NoEnd(LineText(l)) && |LineText(l)| < MAX_TOKEN
    && (l.OtherField? ==> IsOther(l.text))
  }

  function LinesText(lines: seq<Line>): string {
    if lines == [] then "" else LinesText(lines[..|lines| - 1]) + LineText(lines[|lines| - 1]) + "\n"
  }

  // Both parsers after these lines.
  function Cli(lines: seq<Line>): State {
    if lines == [] then START else OnLine(Cli(lines[..|lines| - 1]), LineText(lines[|lines| - 1]))
  }

  function Std(lines: seq<Line>): Buffers {
    if lines == [] then Cleared([]) else OnStandardLine(Std(lines[..|lines| - 1]), LineText(lines[|lines| - 1]))
  }

  lemma TrimNothing(s: string)
    requires NoEnd(s)
    ensures TrimRightCR(s) == s
  {
  }

  lemma {:induction false} ScanLines(lines: seq<Line>, rest: string)
    requires forall l :: l in lines ==> WellFormed(l)
    ensures Scan(LinesText(lines) + rest, START) == Scan(rest, Cli(lines))
  {
    if lines == [] {
      assert LinesText(lines) + rest == rest;
    } else {
      var front, line := lines[..|lines| - 1], LineText(lines[|lines| - 1]);
      assert WellFormed(lines[|lines| - 1]);
      assert LinesText(lines) + rest == LinesText(front) + (line + "\n" + rest);
      ScanLines(front, line + "\n" + rest);
      ScanLine(line, rest, Cli(front));
      TrimNothing(line);
    }
  }

  lemma {:induction false} StandardScanLines(lines: seq<Line>, rest: string)
    requires forall l :: l in lines ==> WellFormed(l)
    ensures StandardScan(LinesText(lines) + rest, Cleared([])) == StandardScan(rest, Std(lines))
  {
    if lines == [] {
      assert LinesText(lines) + rest == rest;
    } else {
      var front, line := lines[..|lines| - 1], LineText(lines[|lines| - 1]);
      assert WellFormed(lines[|lines| - 1]);
      assert LinesText(lines) + rest == LinesText(front) + (line + "\n" + rest);
      StandardScanLines(front, line + "\n" + rest);
      StandardLine(line, rest, Std(front));
    }
  }

  /******* What the text says *******/

  function Strip(value: string): string {
    WithoutPrefix(value, " ")
  }

  // The data since the last empty line.
  function OpenData(lines: seq<Line>): seq<string> {
    if lines == [] then []
    else
      var front := OpenData(lines[..|lines| - 1]);
      match lines[|lines| - 1]
      case Empty => []
      case DataField(value) => front + [Strip(value)]
      case _ => front
  }

  // The last name since the last empty line.
  function OwnName(lines: seq<Line>): Option<string> {
    if lines == [] then None
    else match lines[|lines| - 1]
      case Empty => None
      case EventField(value) => Some(value)
      case _ => OwnName(lines[..|lines| - 1])
  }

  // The last name since the last empty line that ended some data.
  function KeptName(lines: seq<Line>): Option<string> {
    if lines == [] then None
    else
      var front := lines[..|lines| - 1];
      match lines[|lines| - 1]
      case Empty => if OpenData(front) != [] then None else KeptName(front)
      case EventField(value) => Some(value)
      case _ => KeptName(front)
  }

  function DataBuffer(data: seq<string>): string {
    if data == [] then "" else DataBuffer(data[..|data| - 1]) + data[|data| - 1] + "\n"
  }

  lemma {:induction false} BufferIsJoin(data: seq<string>)
    requires data != []
    ensures DataBuffer(data) == JoinLines(data) + "\n"
  {
    var front, last := data[..|data| - 1], data[|data| - 1];
    if front == [] {
      assert DataBuffer(front) == "" && "" + last + "\n" == last + "\n";
    } else {
      BufferIsJoin(front);
    }
  }

  // How each parser takes a line of each kind.
  lemma CliTakes(st: State, l: Line)
    requires WellFormed(l)
    ensures OnLine(st, LineText(l)) ==
              match l
              case Empty => Flush(st)
              case EventField(value) => st.(event := TrimSpace(value))
              case DataField(value) => st.(data := st.data + [Strip(value)])
              case _ => st
  {
    match l
    case Empty =>
    case Remark(text) =>
    case EventField(value) =>
      var line := "event:" + value;
      assert line[0] == 'e' && line[..6] == "event:" && line[6..] == value;
    case DataField(value) =>
      var line := "data:" + value;
      assert line[0] == 'd' && line[..5] == "data:" && line[5..] == value;
    case OtherField(text) => OtherIsIgnored(text);
  }

  lemma FieldOf(field: string, text: string)
    requires (forall k :: 0 <= k < |field| ==> field[k] != ':') && field + ":" <= text
    ensures text[..Colon(text)] == field
  {
    var prefix := field + ":";
    assert text[|field|] == prefix[|field|] == ':';
    assert forall k :: 0 <= k < |field| ==> text[k] == prefix[k] == field[k];
    ColonIs(text, |field|);
  }

  lemma EventPrefix(text: string)
    ensures "event:" <= text ==> text[..Colon(text)] == "event"
  {
    assert "event" + ":" == "event:";
    if "event:" <= text {
      FieldOf("event", text);
    }
  }

  lemma DataPrefix(text: string)
    ensures "data:" <= text ==> text[..Colon(text)] == "data"
  {
    assert "data" + ":" == "data:";
    if "data:" <= text {
      FieldOf("data", text);
    }
  }

  lemma OtherIsIgnored(text: string)
    requires IsOther(text)
    ensures !(":" <= text) && !("event:" <= text) && !("data:" <= text)
  {
    EventPrefix(text);
    DataPrefix(text);
  }

  lemma ColonIs(line: string, n: nat)
    requires n < |line| && line[n] == ':' && forall k :: 0 <= k < n ==> line[k] != ':'
    ensures Colon(line) == n
  {
  }

  lemma FieldTakes(b: Buffers, field: string, value: string)
    requires field != "" && forall k :: 0 <= k < |field| ==> field[k] != ':'
    ensures OnStandardLine(b, field + ":" + value) == OnField(b, field, Strip(value))
  {
    var line := field + ":" + value;
    assert line[|field|] == ':' && forall k :: 0 <= k < |field| ==> line[k] == field[k];
    ColonIs(line, |field|);
    assert line[..|field|] == field && line[|field| + 1..] == value;
  }

  lemma StdTakes(b: Buffers, l: Line)
    requires WellFormed(l)
    ensures OnStandardLine(b, LineText(l)) ==
              match l
              case Empty => Dispatch(b)
              case EventField(value) => b.(kind := Strip(value))
              case DataField(value) => b.(data := b.data + Strip(value) + "\n")
              case _ => b
  {
    match l
    case Empty =>
    case Remark(text) => ColonIs(":" + text, 0);
    case EventField(value) =>
      FieldTakes(b, "event", value);
      assert "event" + ":" == "event:";
    case DataField(value) =>
      FieldTakes(b, "data", value);
      assert "data" + ":" == "data:";
    case OtherField(text) => assert text[..|text|] == text;
  }

  // The name each parser would give an event ending here.
  function CliName(lines: seq<Line>): string {
    if KeptName(lines).Some? then TrimSpace(KeptName(lines).value) else "message"
  }

  function StdName(lines: seq<Line>): string {
    if OwnName(lines).None? || Strip(OwnName(lines).value) == "" then "message" else Strip(OwnName(lines).value)
  }

  lemma {:induction false} CliHolds(lines: seq<Line>)
    requires forall l :: l in lines ==> WellFormed(l)
    ensures Cli(lines).data == OpenData(lines) && Cli(lines).event == CliName(lines)
  {
    if lines != [] {
      CliHolds(lines[..|lines| - 1]);
      CliTakes(Cli(lines[..|lines| - 1]), lines[|lines| - 1]);
    }
  }

  lemma {:induction false} StdHolds(lines: seq<Line>)
    requires forall l :: l in lines ==> WellFormed(l)
    ensures Std(lines).data == DataBuffer(OpenData(lines))
    ensures Std(lines).kind == if OwnName(lines).Some? then Strip(OwnName(lines).value) else ""
  {
    if lines != [] {
      var front, l := lines[..|lines| - 1], lines[|lines| - 1];
      StdHolds(front);
      StdTakes(Std(front), l);
      if l.DataField? {
        BufferSnoc(OpenData(front), Strip(l.value));
      }
    }
  }

  lemma BufferSnoc(data: seq<string>, last: string)
    ensures DataBuffer(data + [last]) == DataBuffer(data) + last + "\n"
  {
    assert (data + [last])[..|data|] == data;
  }

  /******* When they agree *******/

  // An event that has a name of its own is called by it alike; one that has none finds no name
  // carried over an empty line, short of the default.
  predicate NamesAgree(own: Option<string>, kept: Option<string>) {
    match own
    case Some(value) => TrimSpace(value) == if Strip(value) == "" then "message" else Strip(value)
    case None => kept.Some? ==> TrimSpace(kept.value) == "message"
  }

  // The empty line at k ends some data.
  predicate EndsEvent(lines: seq<Line>, k: nat)
    requires k < |lines|
  {
    lines[k].Empty? && OpenData(lines[..k]) != []
  }

  ghost predicate NamedAlike(lines: seq<Line>) {
    forall k | 0 <= k < |lines| && EndsEvent(lines, k) :: NamesAgree(OwnName(lines[..k]), KeptName(lines[..k]))
  }

  lemma {:induction false} OwnIsKept(lines: seq<Line>)
    ensures OwnName(lines).Some? ==> KeptName(lines) == OwnName(lines)
  {
    if lines != [] {
      OwnIsKept(lines[..|lines| - 1]);
    }
  }

  lemma NamedAlikeNext(lines: seq<Line>)
    requires lines != []
    ensures var front := lines[..|lines| - 1];
            NamedAlike(lines) <==>
              NamedAlike(front) && (EndsEvent(lines, |front|) ==> NamesAgree(OwnName(front), KeptName(front)))
  {
    var front := lines[..|lines| - 1];
    forall k | 0 <= k < |front| ensures lines[..k] == front[..k] && EndsEvent(lines, k) == EndsEvent(front, k) {
      assert lines[..k] == front[..k];
    }
    assert lines[..|front|] == front;
  }

  lemma EventsMatch(lines: seq<Line>)
    requires (forall l :: l in lines ==> WellFormed(l)) && OpenData(lines) != []
    ensures var a, b := Flush(Cli(lines)), Dispatch(Std(lines));
            && a.out == Cli(lines).out + [Event(CliName(lines), JoinLines(OpenData(lines)))]
            && b.out == Std(lines).out + [Event(StdName(lines), JoinLines(OpenData(lines)))]
            && (CliName(lines) == StdName(lines) <==> NamesAgree(OwnName(lines), KeptName(lines)))
  {
    CliHolds(lines);
    StdHolds(lines);
    BufferIsJoin(OpenData(lines));
    var buffer := Std(lines).data;
    assert buffer[..|buffer| - 1] == JoinLines(OpenData(lines));
    OwnIsKept(lines);
  }

  lemma AppendedAlike(a: seq<Event>, x: Event, b: seq<Event>, y: Event)
    requires |a| == |b|
    ensures a + [x] == b + [y] <==> a == b && x == y
  {
    if a + [x] == b + [y] {
      assert a == (a + [x])[..|a|] && b == (b + [y])[..|b|];
      assert x == (a + [x])[|a|] && y == (b + [y])[|b|];
    }
  }

  lemma {:induction false} OutputsAgree(lines: seq<Line>)
    requires forall l :: l in lines ==> WellFormed(l)
    ensures |Cli(lines).out| == |Std(lines).out|
    ensures Cli(lines).out == Std(lines).out <==> NamedAlike(lines)
  {
    if lines != [] {
      var front, l := lines[..|lines| - 1], lines[|lines| - 1];
      OutputsAgree(front);
      NamedAlikeNext(lines);
      assert lines[..|front|] == front;
      CliTakes(Cli(front), l);
      StdTakes(Std(front), l);
      if EndsEvent(lines, |front|) {
        EventsMatch(front);
        var data := JoinLines(OpenData(front));
        AppendedAlike(Cli(front).out, Event(CliName(front), data), Std(front).out, Event(StdName(front), data));
      } else {
        CliHolds(front);
        StdHolds(front);
      }
    }
  }

  // What an unterminated last line does to the command line's parser at the end of the input.
  lemma TailFlushes(st: State, tail: string)
    requires NoEnd(tail) && |tail| < MAX_TOKEN
    ensures |Flush(Scan(tail, st)).out| == |st.out| + if st.data == [] && !("data:" <= tail) then 0 else 1
    ensures st.data == [] && !("data:" <= tail) ==> Flush(Scan(tail, st)).out == st.out
  {
    ScanLast(tail, st);
    TrimNothing(tail);
    if "data:" <= tail {
      assert tail[0] == 'd';
    }
  }

  lemma StandardIgnoresTail(b: Buffers, tail: string)
    requires NoEnd(tail)
    ensures StandardScan(tail, b) == b
  {
    assert StandardLineEnd(tail) == |tail|;
  }

  // Over all texts of such lines and whatever stands behind the last line's end: the command line
  // reads what the standard does exactly when no data is left open at the end, and every event is
  // named alike.
  lemma AgreesExactly(lines: seq<Line>, tail: string)
    requires (forall l :: l in lines ==> WellFormed(l)) && NoEnd(tail) && |tail| < MAX_TOKEN
    ensures Parse(LinesText(lines) + tail) == StandardParse(LinesText(lines) + tail)
            <==> OpenData(lines) == [] && !("data:" <= tail) && NamedAlike(lines)
  {
    ScanLines(lines, tail);
    StandardScanLines(lines, tail);
    CliHolds(lines);
    TailFlushes(Cli(lines), tail);
    StandardIgnoresTail(Std(lines), tail);
    OutputsAgree(lines);
  }

  /******* Two texts on which they part *******/

  // A name, an empty line, and only then data.
  function Unfinished(name: string, body: string): seq<Line> {
    [EventField(" " + name), Empty, DataField(" " + body), Empty]
  }

  lemma StripBlank(s: string)
    ensures Strip(" " + s) == s && TrimSpace(" " + s) == TrimSpace(s)
  {
    assert (" " + s)[1..] == s;
  }

  lemma UnfinishedSays(name: string, body: string)
    ensures var lines := Unfinished(name, body);
            && OpenData(lines[..1]) == OpenData(lines[..2]) == OpenData(lines) == [] && OpenData(lines[..3]) == [body]
            && KeptName(lines[..3]) == Some(" " + name) && OwnName(lines[..3]) == None
  {
    var lines := Unfinished(name, body);
    var one, two, three := lines[..1], lines[..2], lines[..3];
    assert one[..0] == [] && OpenData(one) == [] && KeptName(one) == Some(" " + name);
    assert two[..1] == one && OpenData(two) == [] && KeptName(two) == Some(" " + name) && OwnName(two) == None;
    StripBlank(body);
    assert three[..2] == two && three[2] == DataField(" " + body);
    assert lines[..3] == three && lines[3] == Empty;
  }

  lemma NothingYet(lines: seq<Line>, front: seq<Line>, l: Line)
    requires lines == front + [l] && (forall x :: x in lines ==> WellFormed(x))
    requires l.Empty? ==> OpenData(front) == []
    ensures Cli(lines).out == Cli(front).out && Std(lines).out == Std(front).out
  {
    assert lines[..|front|] == front && lines[|front|] == l;
    CliHolds(front);
    StdHolds(front);
    CliTakes(Cli(front), l);
    StdTakes(Std(front), l);
  }

  lemma UnfinishedReads(name: string, body: string)
    requires forall l :: l in Unfinished(name, body) ==> WellFormed(l)
    ensures Cli(Unfinished(name, body)).out == [Event(TrimSpace(name), body)]
    ensures Std(Unfinished(name, body)).out == [Event("message", body)]
  {
    var lines := Unfinished(name, body);
    UnfinishedSays(name, body);
    NothingYet(lines[..1], [], lines[0]);
    NothingYet(lines[..2], lines[..1], Empty);
    NothingYet(lines[..3], lines[..2], lines[2]);
    EventsMatch(lines[..3]);
    CliTakes(Cli(lines[..3]), Empty);
    StdTakes(Std(lines[..3]), Empty);
    StripBlank(name);
    JoinOne(body);
  }

  lemma JoinOne(body: string)
    ensures JoinLines([body]) == body
  {
  }

  // The name is kept by the command line for the next event.
  lemma NameIsKept(name: string, body: string)
    requires forall l :: l in Unfinished(name, body) ==> WellFormed(l)
    ensures Parse(LinesText(Unfinished(name, body))) == [Event(TrimSpace(name), body)]
  {
    var lines := Unfinished(name, body);
    UnfinishedReads(name, body);
    UnfinishedSays(name, body);
    ScanLines(lines, "");
    assert LinesText(lines) + "" == LinesText(lines);
    CliHolds(lines);
  }

  // And forgotten by the standard.
  lemma NameIsForgotten(name: string, body: string)
    requires forall l :: l in Unfinished(name, body) ==> WellFormed(l)
    ensures StandardParse(LinesText(Unfinished(name, body))) == [Event("message", body)]
  {
    var lines := Unfinished(name, body);
    UnfinishedReads(name, body);
    StandardScanLines(lines, "");
    assert LinesText(lines) + "" == LinesText(lines);
    StandardIgnoresTail(Std(lines), "");
  }

  // A stream cut before the empty line that would end its last event: the command line delivers
  // that event, the standard does not.
  lemma CutEventIsDelivered(lines: seq<Line>)
    requires (forall l :: l in lines ==> WellFormed(l)) && OpenData(lines) != []
    ensures |Parse(LinesText(lines))| == |StandardParse(LinesText(lines))| + 1
  {
    ScanLines(lines, "");
    StandardScanLines(lines, "");
    assert LinesText(lines) + "" == LinesText(lines);
    CliHolds(lines);
    TailFlushes(Cli(lines), "");
    StandardIgnoresTail(Std(lines), "");
    OutputsAgree(lines);
  }
}
