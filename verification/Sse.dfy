/** The runtime's event stream writer, the command line's parser, and the standard's own parser. */
module Sse {
  datatype Event = Event(name: string, data: string)

  /******* Writing *******/

  function Text(e: Event): string {
    "event: " + e.name + "\n" + ("data: " + e.data + "\n") + "\n"
  }

  class Stream {
    var written: string

    constructor ()
      ensures written == ""
    {
      written := "";
    }

    method WriteEvent(name: string, body: string)
      modifies this
      ensures written == old(written) + Text(Event(name, body))
    {
      written := written + ("event: " + name + "\ndata: " + body + "\n\n");
      assert "\ndata: " == "\n" + "data: " && "\n\n" == "\n" + "\n";
    }
  }

  /******* The command line's parser *******/

  // A longer line, its end included, does not fit the scanner's buffer and ends the scan.
  const MAX_TOKEN := 4 * 1024 * 1024

  datatype State = State(event: string, data: seq<string>, out: seq<Event>)

  const START := State("message", [], [])

  predicate Space(c: char) {
    c == ' ' || ('\t' <= c <= '\r')
  }

  function TrimRightCR(s: string): string {
    if s != "" && s[|s| - 1] == '\r' then TrimRightCR(s[..|s| - 1]) else s
  }

  function TrimRightSpace(s: string): string {
    if s != "" && Space(s[|s| - 1]) then TrimRightSpace(s[..|s| - 1]) else s
  }

  function TrimSpace(s: string): string {
    if s != "" && Space(s[0]) then TrimSpace(s[1..]) else TrimRightSpace(s)
  }

  function WithoutPrefix(s: string, prefix: string): string {
    if prefix <= s then s[|prefix|..] else s
  }

  function JoinLines(lines: seq<string>): string {
    if lines == [] then ""
    else if |lines| == 1 then lines[0]
    else JoinLines(lines[..|lines| - 1]) + "\n" + lines[|lines| - 1]
  }

  // An event needs data; without any the name waits for the next.
  function Flush(s: State): State {
    if s.data == [] then s else State("message", [], s.out + [Event(s.event, JoinLines(s.data))])
  }

  function OnLine(s: State, line: string): State {
    if line == "" then Flush(s)
    else if ":" <= line then s
    else if "event:" <= line then s.(event := TrimSpace(line[6..]))
    else if "data:" <= line then s.(data := s.data + [WithoutPrefix(line[5..], " ")])
    else s
  }

  // Where the first line ends.
  function LineEnd(s: string): (n: nat)
    ensures n <= |s| && (n < |s| ==> s[n] == '\n') && forall k :: 0 <= k < n ==> s[k] != '\n'
  {
    if s == "" || s[0] == '\n' then 0 else LineEnd(s[1..]) + 1
  }

  function AfterLine(s: string, n: nat): string
    requires n <= |s|
  {
    if n < |s| then s[n + 1..] else ""
  }

  function Scan(s: string, st: State): State
    decreases |s|
  {
    if s == "" then st
    else
      var n := LineEnd(s);
      if n >= MAX_TOKEN then st else Scan(AfterLine(s, n), OnLine(st, TrimRightCR(s[..n])))
  }

  function Parse(s: string): seq<Event> {
    Flush(Scan(s, START)).out
  }

  method ParseSSE(input: string) returns (out: seq<Event>)
    ensures out == Parse(input)
  {
    var st := START;
    var rest := input;
    while rest != ""
      invariant Flush(Scan(rest, st)).out == Parse(input)
      decreases |rest|
    {
      var n := LineEnd(rest);
      if n >= MAX_TOKEN {
        break;
      }
      var line := TrimRightCR(rest[..n]);
      rest := AfterLine(rest, n);
      if line == "" {
        if |st.data| > 0 {
          st := State("message", [], st.out + [Event(st.event, JoinLines(st.data))]);
        }
        continue;
      }
      if ":" <= line {
        continue;
      }
      if "event:" <= line {
        st := st.(event := TrimSpace(line[6..]));
      } else if "data:" <= line {
        st := st.(data := st.data + [WithoutPrefix(line[5..], " ")]);
      }
    }
    out := Flush(st).out;
  }

  /******* Streams *******/

  // What a stream is made of: events, and comment lines between them.
  datatype Chunk = Message(event: Event) | Comment(text: string)

  function ChunkText(c: Chunk): string {
    match c
    case Message(e) => Text(e)
    case Comment(text) => ":" + text + "\n"
  }

  function StreamText(chunks: seq<Chunk>): string {
    if chunks == [] then "" else ChunkText(chunks[0]) + StreamText(chunks[1..])
  }

  function Content(c: Chunk): seq<Event> {
    if c.Message? then [c.event] else []
  }

  function Events(chunks: seq<Chunk>): seq<Event> {
    if chunks == [] then []
    else Content(chunks[0]) + Events(chunks[1..])
  }

  predicate OneLine(s: string) {
    forall k :: 0 <= k < |s| ==> s[k] != '\n'
  }

  predicate Writable(c: Chunk) {
    match c
    case Message(e) => OneLine(e.name) && OneLine(e.data)
    case Comment(text) => OneLine(text)
  }

  predicate Fits(c: Chunk) {
    match c
    case Message(e) => 7 + |e.name| < MAX_TOKEN && 6 + |e.data| < MAX_TOKEN
    case Comment(text) => 1 + |text| < MAX_TOKEN
  }

  function Received(e: Event): Event {
    Event(TrimSpace(e.name), TrimRightCR(e.data))
  }

  // What arrives: each event trimmed, up to the first line that does not fit.
  function Delivered(chunks: seq<Chunk>): seq<Event> {
    if chunks == [] || !Fits(chunks[0]) then []
    else Share(chunks[0]) + Delivered(chunks[1..])
  }

  lemma LineEndIs(line: string, rest: string)
    requires OneLine(line)
    ensures LineEnd(line + "\n" + rest) == |line|
  {
    var s := line + "\n" + rest;
    assert s[|line|] == '\n';
    assert forall k :: 0 <= k < |line| ==> s[k] == line[k];
  }

  lemma ScanLine(line: string, rest: string, st: State)
    requires OneLine(line)
    ensures Scan(line + "\n" + rest, st) ==
              if |line| >= MAX_TOKEN then st else Scan(rest, OnLine(st, TrimRightCR(line)))
  {
    var s := line + "\n" + rest;
    LineEndIs(line, rest);
    assert s[..|line|] == line && s[|line| + 1..] == rest;
  }

  lemma {:induction false} TrimAfter(prefix: string, s: string)
    requires prefix != "" && prefix[|prefix| - 1] != '\r'
    ensures TrimRightCR(prefix + s) == prefix + TrimRightCR(s)
  {
    if s == "" {
      assert prefix + s == prefix;
    } else if s[|s| - 1] == '\r' {
      var t := prefix + s;
      assert t[..|t| - 1] == prefix + s[..|s| - 1];
      TrimAfter(prefix, s[..|s| - 1]);
    }
  }

  lemma {:induction false} TrimIgnoresCR(s: string)
    ensures TrimSpace(s + "\r") == TrimSpace(s)
  {
    var t := s + "\r";
    if s == "" {
      assert t[1..] == "";
    } else if Space(s[0]) {
      assert t[1..] == s[1..] + "\r";
      TrimIgnoresCR(s[1..]);
    } else {
      assert t[..|t| - 1] == s;
    }
  }

  lemma {:induction false} TrimSpaceAfterCR(s: string)
    ensures TrimSpace(TrimRightCR(s)) == TrimSpace(s)
  {
    if s != "" && s[|s| - 1] == '\r' {
      TrimSpaceAfterCR(s[..|s| - 1]);
      TrimIgnoresCR(s[..|s| - 1]);
      assert s == s[..|s| - 1] + "\r";
    }
  }

  lemma EventLine(st: State, name: string)
    ensures OnLine(st, TrimRightCR("event: " + name)) == st.(event := TrimSpace(name))
  {
    TrimAfter("event: ", name);
    var trimmed := TrimRightCR(name);
    var line := "event: " + trimmed;
    assert line[0] == 'e' && line[..6] == "event:" && line[6..] == " " + trimmed;
    assert (" " + trimmed)[1..] == trimmed;
    TrimSpaceAfterCR(name);
  }

  lemma DataLine(st: State, body: string)
    ensures OnLine(st, TrimRightCR("data: " + body)) == st.(data := st.data + [TrimRightCR(body)])
  {
    TrimAfter("data: ", body);
    var trimmed := TrimRightCR(body);
    var line := "data: " + trimmed;
    assert line[0] == 'd' && line[..5] == "data:" && line[5..] == " " + trimmed;
    assert (" " + trimmed)[1..] == trimmed;
  }

  lemma CommentLine(st: State, text: string)
    ensures OnLine(st, TrimRightCR(":" + text)) == st
  {
    TrimAfter(":", text);
  }

  // Between events, with these read.
  function Between(out: seq<Event>): State {
    State("message", [], out)
  }

  lemma ScanData(e: Event, rest: string, named: State)
    requires OneLine(e.data) && named.data == []
    ensures Scan("data: " + e.data + "\n" + ("\n" + rest), named) ==
              if 6 + |e.data| >= MAX_TOKEN then named
              else Scan(rest, Between(named.out + [Event(named.event, TrimRightCR(e.data))]))
  {
    var blank := "\n" + rest;
    OneLineAfter("data: ", e.data);
    ScanLine("data: " + e.data, blank, named);
    DataLine(named, e.data);
    var full := named.(data := [TrimRightCR(e.data)]);
    assert named.data + [TrimRightCR(e.data)] == [TrimRightCR(e.data)];
    assert blank == "" + "\n" + rest;
    ScanLine("", rest, full);
  }

  lemma ScanMessage(e: Event, rest: string, out: seq<Event>)
    requires Writable(Message(e))
    ensures Fits(Message(e)) ==> Scan(Text(e) + rest, Between(out)) == Scan(rest, Between(out + [Received(e)]))
    ensures !Fits(Message(e)) ==> Flush(Scan(Text(e) + rest, Between(out))).out == out
  {
    var dataPart := "data: " + e.data + "\n" + ("\n" + rest);
    assert Text(e) + rest == "event: " + e.name + "\n" + dataPart;
    OneLineAfter("event: ", e.name);
    ScanLine("event: " + e.name, dataPart, Between(out));
    EventLine(Between(out), e.name);
    ScanData(e, rest, Between(out).(event := TrimSpace(e.name)));
  }

  lemma OneLineAfter(prefix: string, s: string)
    requires OneLine(prefix) && OneLine(s)
    ensures OneLine(prefix + s)
  {
  }

  lemma ScanComment(text: string, rest: string, out: seq<Event>)
    requires OneLine(text)
    ensures Scan(ChunkText(Comment(text)) + rest, Between(out)) ==
            if Fits(Comment(text)) then Scan(rest, Between(out)) else Between(out)
  {
    assert ChunkText(Comment(text)) + rest == ":" + text + "\n" + rest;
    OneLineAfter(":", text);
    ScanLine(":" + text, rest, Between(out));
    CommentLine(Between(out), text);
  }

  // A chunk's own share of what is delivered.
  function Share(c: Chunk): seq<Event> {
    if c.Message? then [Received(c.event)] else []
  }

  lemma ScanChunk(c: Chunk, rest: string, out: seq<Event>)
    requires Writable(c)
    ensures Fits(c) ==> Scan(ChunkText(c) + rest, Between(out)) == Scan(rest, Between(out + Share(c)))
    ensures !Fits(c) ==> Flush(Scan(ChunkText(c) + rest, Between(out))).out == out
  {
    match c
    case Message(e) => ScanMessage(e, rest, out);
    case Comment(text) =>
      ScanComment(text, rest, out);
      assert out + [] == out;
  }

  // The scan of a text comes down to that of the rest, with these events added.
  ghost predicate Carries(text: string, rest: string, share: seq<Event>) {
    forall out: seq<Event> {:trigger Scan(text, Between(out))} ::
      Scan(text, Between(out)) == Scan(rest, Between(out + share))
  }

  lemma ChunkCarries(c: Chunk, rest: string)
    requires Writable(c) && Fits(c)
    ensures Carries(ChunkText(c) + rest, rest, Share(c))
  {
    forall out: seq<Event> ensures Scan(ChunkText(c) + rest, Between(out)) == Scan(rest, Between(out + Share(c))) {
      ScanChunk(c, rest, out);
    }
  }

  lemma CarriesOn(a: string, sa: seq<Event>, b: string, sb: seq<Event>, c: string)
    requires Carries(a, b, sa) && Carries(b, c, sb)
    ensures Carries(a, c, sa + sb)
  {
    forall out: seq<Event> ensures Scan(a, Between(out)) == Scan(c, Between(out + (sa + sb))) {
      assert out + (sa + sb) == out + sa + sb;
    }
  }

  // The chunks before the first that does not fit.
  function FitCount(chunks: seq<Chunk>): (n: nat)
    ensures n <= |chunks|
  {
    if chunks == [] || !Fits(chunks[0]) then 0 else 1 + FitCount(chunks[1..])
  }

  lemma {:induction false} ScanStream(chunks: seq<Chunk>)
    requires forall c :: c in chunks ==> Writable(c)
    ensures Carries(StreamText(chunks), StreamText(chunks[FitCount(chunks)..]), Delivered(chunks))
    decreases |chunks|
  {
    if chunks == [] || !Fits(chunks[0]) {
      NothingCarried(chunks);
    } else {
      var c, tail, n := chunks[0], chunks[1..], FitCount(chunks[1..]);
      ScanStream(tail);
      ChunkCarries(c, StreamText(tail));
      assert tail[n..] == chunks[n + 1..];
      CarriesOn(StreamText(chunks), Share(c), StreamText(tail), Delivered(tail), StreamText(tail[n..]));
    }
  }

  lemma NothingCarried(chunks: seq<Chunk>)
    ensures Carries(StreamText(chunks), StreamText(chunks[0..]), [])
  {
    assert chunks[0..] == chunks;
    forall out: seq<Event> ensures out + [] == out {
    }
  }

  lemma {:induction false} FitCountStops(chunks: seq<Chunk>)
    ensures FitCount(chunks) < |chunks| ==> !Fits(chunks[FitCount(chunks)])
  {
    if chunks != [] && Fits(chunks[0]) {
      FitCountStops(chunks[1..]);
    }
  }

  // Whatever is written, in whatever order, arrives as its own events and nothing else.
  lemma StreamArrives(chunks: seq<Chunk>)
    requires forall c :: c in chunks ==> Writable(c)
    ensures Parse(StreamText(chunks)) == Delivered(chunks)
  {
    ScanStream(chunks);
    FitCountStops(chunks);
    var left := chunks[FitCount(chunks)..];
    assert [] + Delivered(chunks) == Delivered(chunks);
    assert Scan(StreamText(chunks), Between([])) == Scan(StreamText(left), Between([] + Delivered(chunks)));
    if left != [] {
      ScanChunk(left[0], StreamText(left[1..]), Delivered(chunks));
    }
  }

  // An event that loses nothing on the way.
  predicate Unchanged(e: Event) {
    TrimSpace(e.name) == e.name && TrimRightCR(e.data) == e.data
  }

  predicate Safe(chunks: seq<Chunk>) {
    forall k :: 0 <= k < |chunks| ==> chunks[k].Message? ==> Unchanged(chunks[k].event)
  }

  // The stream comes back whole exactly when every event survives trimming, as long as every
  // line fits.
  lemma {:induction false} DeliveredWhole(chunks: seq<Chunk>)
    requires forall c :: c in chunks ==> Fits(c)
    ensures Delivered(chunks) == Events(chunks) <==> Safe(chunks)
    ensures |Delivered(chunks)| == |Events(chunks)|
  {
    if chunks != [] {
      var tail := chunks[1..];
      DeliveredWhole(tail);
      assert Safe(chunks) <==> (chunks[0].Message? ==> Unchanged(chunks[0].event)) && Safe(tail) by {
        if Safe(chunks) {
          forall k | 0 <= k < |tail| ensures tail[k].Message? ==> Unchanged(tail[k].event) {
            assert tail[k] == chunks[k + 1];
          }
        } else {
          var k :| 0 <= k < |chunks| && chunks[k].Message? && !Unchanged(chunks[k].event);
          assert k > 0 ==> tail[k - 1] == chunks[k];
        }
      }
      if chunks[0].Message? {
        var e := chunks[0].event;
        assert Delivered(chunks) == [Received(e)] + Delivered(tail) && Events(chunks) == [e] + Events(tail);
        assert Delivered(chunks)[0] == Received(e) && Delivered(chunks)[1..] == Delivered(tail);
        assert Events(chunks)[0] == e && Events(chunks)[1..] == Events(tail);
      } else {
        assert Delivered(chunks) == Delivered(tail) && Events(chunks) == Events(tail);
      }
    }
  }

  lemma RoundTrip(chunks: seq<Chunk>)
    requires forall c :: c in chunks ==> Writable(c) && Fits(c)
    ensures Parse(StreamText(chunks)) == Events(chunks) <==> Safe(chunks)
  {
    StreamArrives(chunks);
    DeliveredWhole(chunks);
  }

  /******* Streams cut short *******/

  // The characters of an event's text before its field value.
  function DataStart(e: Event): nat {
    |"event: " + e.name + "\n"| + |"data:"|
  }

  // What a chunk cut after n characters delivers: an event cut behind its data field's name comes
  // with so much of its data.
  function CutShare(c: Chunk, n: nat): seq<Event> {
    match c
    case Comment(_) => []
    case Message(e) =>
      if n < DataStart(e) then []
      else
        var m := n - DataStart(e) - 1;
        var body := if m <= 0 then "" else if m <= |e.data| then e.data[..m] else e.data;
        [Event(TrimSpace(e.name), TrimRightCR(body))]
  }

  function DeliveredCut(chunks: seq<Chunk>, n: nat): seq<Event> {
    if chunks == [] then []
    else if n < |ChunkText(chunks[0])| then CutShare(chunks[0], n)
    else Share(chunks[0]) + DeliveredCut(chunks[1..], n - |ChunkText(chunks[0])|)
  }

  // A last line without its end is read like any other.
  lemma ScanLast(line: string, st: State)
    requires OneLine(line) && |line| < MAX_TOKEN
    ensures Scan(line, st) == if line == "" then st else OnLine(st, TrimRightCR(line))
  {
    if line != "" {
      assert LineEnd(line) == |line|;
      assert line[..|line|] == line && AfterLine(line, |line|) == "";
      assert Scan("", OnLine(st, TrimRightCR(line))) == OnLine(st, TrimRightCR(line));
    }
  }

  lemma {:induction false} TrimKeepsFirst(s: string)
    requires s != "" && s[0] != '\r'
    ensures TrimRightCR(s) != "" && TrimRightCR(s)[0] == s[0]
  {
    if s[|s| - 1] == '\r' {
      TrimKeepsFirst(s[..|s| - 1]);
    }
  }

  lemma OneLineFront(s: string, n: nat)
    requires OneLine(s) && n <= |s|
    ensures OneLine(s[..n])
  {
  }

  // Cut within the name's line, nothing is pending.
  lemma CutName(name: string, n: nat, out: seq<Event>)
    requires OneLine(name) && n <= 7 + |name| && 7 + |name| < MAX_TOKEN
    ensures Flush(Scan(("event: " + name)[..n], Between(out))).out == out
  {
    var line := ("event: " + name)[..n];
    OneLineAfter("event: ", name);
    OneLineFront("event: " + name, n);
    ScanLast(line, Between(out));
    if n > 0 {
      assert line[0] == 'e';
      TrimKeepsFirst(line);
    }
  }

  lemma CutBeforeData(body: string, m: nat, named: State)
    requires OneLine(body) && m < 5 && 6 + |body| < MAX_TOKEN && named.data == []
    ensures Flush(Scan(("data: " + body)[..m], named)).out == named.out
  {
    var line := ("data: " + body)[..m];
    OneLineAfter("data: ", body);
    OneLineFront("data: " + body, m);
    ScanLast(line, named);
    if m > 0 {
      assert line[0] == 'd';
      TrimKeepsFirst(line);
      TrimIsNoLonger(line);
    }
  }

  lemma {:induction false} TrimIsNoLonger(s: string)
    ensures |TrimRightCR(s)| <= |s|
  {
    if s != "" && s[|s| - 1] == '\r' {
      TrimIsNoLonger(s[..|s| - 1]);
    }
  }

  // Cut within the data, what is there of it is delivered.
  lemma CutData(body: string, m: nat, named: State)
    requires OneLine(body) && m <= |body| && 6 + |body| < MAX_TOKEN && named.data == []
    ensures Flush(Scan("data: " + body[..m], named)).out == named.out + [Event(named.event, TrimRightCR(body[..m]))]
  {
    OneLineFront(body, m);
    OneLineAfter("data: ", body[..m]);
    ScanLast("data: " + body[..m], named);
    DataLine(named, body[..m]);
    assert named.data + [TrimRightCR(body[..m])] == [TrimRightCR(body[..m])];
  }

  lemma CutAtData(named: State)
    requires named.data == []
    ensures Flush(Scan("data:", named)).out == named.out + [Event(named.event, "")]
  {
    ScanLast("data:", named);
    assert TrimRightCR("data:") == "data:" && "data:"[5..] == "";
    assert named.data + [""] == [""];
  }

  // Cut behind the data's line, its end is still missing.
  lemma CutAfterData(body: string, named: State)
    requires OneLine(body) && 6 + |body| < MAX_TOKEN && named.data == []
    ensures Flush(Scan("data: " + body + "\n", named)).out == named.out + [Event(named.event, TrimRightCR(body))]
  {
    assert "data: " + body + "\n" == "data: " + body + "\n" + "";
    OneLineAfter("data: ", body);
    ScanLine("data: " + body, "", named);
    DataLine(named, body);
    assert named.data + [TrimRightCR(body)] == [TrimRightCR(body)];
  }

  lemma SecondLineText(body: string, m: nat)
    requires m <= 7 + |body|
    ensures var line := "data: " + body;
            && (m <= |line| ==> (line + "\n")[..m] == line[..m])
            && (m == 5 ==> (line + "\n")[..m] == "data:")
            && (6 <= m <= |line| ==> (line + "\n")[..m] == "data: " + body[..m - 6])
            && (m == |line| + 1 ==> (line + "\n")[..m] == line + "\n")
  {
  }

  // The second line of an event, cut after m characters.
  lemma CutSecondLine(body: string, m: nat, named: State)
    requires OneLine(body) && m <= 7 + |body| && 6 + |body| < MAX_TOKEN && named.data == []
    ensures var given := if m <= 6 then "" else if m - 6 <= |body| then body[..m - 6] else body;
            Flush(Scan(("data: " + body + "\n")[..m], named)).out ==
              if m < 5 then named.out else named.out + [Event(named.event, TrimRightCR(given))]
  {
    SecondLineText(body, m);
    if m < 5 {
      CutBeforeData(body, m, named);
    } else if m == 5 {
      CutAtData(named);
    } else if m <= 6 + |body| {
      CutData(body, m - 6, named);
      assert TrimRightCR("") == "";
    } else {
      CutAfterData(body, named);
    }
  }

  lemma CutAfterName(e: Event, cut: string, m: nat, out: seq<Event>)
    requires Writable(Message(e)) && Fits(Message(e)) && m <= |"data: " + e.data + "\n"|
    requires cut == ("data: " + e.data + "\n")[..m]
    ensures Flush(Scan("event: " + e.name + "\n" + cut, Between(out))).out
         == out + CutShare(Message(e), |"event: " + e.name| + 1 + m)
  {
    OneLineAfter("event: ", e.name);
    ScanLine("event: " + e.name, cut, Between(out));
    EventLine(Between(out), e.name);
    CutSecondLine(e.data, m, Between(out).(event := TrimSpace(e.name)));
  }

  lemma CutMessage(e: Event, n: nat, out: seq<Event>)
    requires Writable(Message(e)) && Fits(Message(e)) && n < |Text(e)|
    ensures Flush(Scan(Text(e)[..n], Between(out))).out == out + CutShare(Message(e), n)
  {
    var first, second := "event: " + e.name, "data: " + e.data + "\n";
    assert Text(e) == first + "\n" + second + "\n";
    if n <= |first| {
      CutName(e.name, n, out);
      assert Text(e)[..n] == first[..n];
    } else {
      var m := n - |first| - 1;
      assert Text(e)[..n] == first + "\n" + second[..m];
      CutAfterName(e, second[..m], m, out);
    }
  }

  lemma CutComment(text: string, n: nat, out: seq<Event>)
    requires OneLine(text) && 1 + |text| < MAX_TOKEN && n <= 1 + |text|
    ensures Flush(Scan((":" + text + "\n")[..n], Between(out))).out == out
  {
    var line := (":" + text)[..n];
    assert (":" + text + "\n")[..n] == line;
    OneLineAfter(":", text);
    OneLineFront(":" + text, n);
    ScanLast(line, Between(out));
    if n > 0 {
      assert line[0] == ':';
      TrimKeepsFirst(line);
    }
  }

  lemma CutChunk(c: Chunk, n: nat, out: seq<Event>)
    requires Writable(c) && Fits(c) && n < |ChunkText(c)|
    ensures Flush(Scan(ChunkText(c)[..n], Between(out))).out == out + CutShare(c, n)
  {
    match c
    case Message(e) => CutMessage(e, n, out);
    case Comment(text) => CutComment(text, n, out);
  }

  // The text up to the cut is that of some whole chunks and a part of the next.
  lemma CutText(first: string, rest: string, n: nat)
    ensures n < |first| ==> (first + rest)[..n] == first[..n]
    ensures |first| <= n <= |first| + |rest| ==> (first + rest)[..n] == first + rest[..n - |first|]
  {
  }

  // Whatever came before, the text read to its end adds these events.
  ghost predicate Yields(text: string, share: seq<Event>) {
    forall out: seq<Event> :: Flush(Scan(text, Between(out))).out == out + share
  }

  lemma CutYields(c: Chunk, n: nat)
    requires Writable(c) && Fits(c) && n < |ChunkText(c)|
    ensures Yields(ChunkText(c)[..n], CutShare(c, n))
  {
    forall out: seq<Event> ensures Flush(Scan(ChunkText(c)[..n], Between(out))).out == out + CutShare(c, n) {
      CutChunk(c, n, out);
    }
  }

  lemma YieldsBoth(text: string, first: seq<Event>, rest: string, share: seq<Event>)
    requires Carries(text, rest, first) && Yields(rest, share)
    ensures Yields(text, first + share)
  {
    forall out: seq<Event> ensures Flush(Scan(text, Between(out))).out == out + (first + share) {
      assert out + (first + share) == out + first + share;
      assert Flush(Scan(rest, Between(out + first))).out == out + first + share;
    }
  }

  lemma {:induction false} ScanCut(chunks: seq<Chunk>, n: nat)
    requires (forall c :: c in chunks ==> Writable(c) && Fits(c)) && n <= |StreamText(chunks)|
    ensures Yields(StreamText(chunks)[..n], DeliveredCut(chunks, n))
    decreases |chunks|
  {
    if chunks == [] {
      NothingYields();
    } else {
      var c, tail := chunks[0], chunks[1..];
      CutText(ChunkText(c), StreamText(tail), n);
      if n < |ChunkText(c)| {
        CutYields(c, n);
      } else {
        var m := n - |ChunkText(c)|;
        var rest := StreamText(tail)[..m];
        ChunkCarries(c, rest);
        ScanCut(tail, m);
        YieldsBoth(ChunkText(c) + rest, Share(c), rest, DeliveredCut(tail, m));
      }
    }
  }

  lemma NothingYields()
    ensures Yields("", [])
  {
    forall out: seq<Event> ensures out + [] == out {
    }
  }

  // Of a stream cut anywhere the events before the cut arrive, and the one the cut falls in
  // exactly if the cut falls behind its data field's name: with so much of its data.
  lemma PrefixArrives(chunks: seq<Chunk>, n: nat)
    requires (forall c :: c in chunks ==> Writable(c) && Fits(c)) && n <= |StreamText(chunks)|
    ensures Parse(StreamText(chunks)[..n]) == DeliveredCut(chunks, n)
  {
    ScanCut(chunks, n);
    assert Flush(Scan(StreamText(chunks)[..n], Between([]))).out == [] + DeliveredCut(chunks, n);
    assert [] + DeliveredCut(chunks, n) == DeliveredCut(chunks, n);
  }
}
