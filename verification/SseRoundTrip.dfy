/** Exactly which streams of events come through every cutting into chunks. */
module SseRoundTrip {
  import opened Text
  import opened SsePump
  import opened SseChunking

  /** A payload one event can carry: not empty, on one line, not starting with white space. */
  predicate Carriable(p: string) {
    p != "" && '\r' !in p && '\n' !in p && !JsSpace(p[0])
  }

  datatype End = LfLf | CrLfCrLf | CrLfLf

  function EndText(end: End): string {
    match end
    case LfLf => ['\n', '\n']
    case CrLfCrLf => ['\r', '\n', '\r', '\n']
    case CrLfLf => ['\r', '\n', '\n']
  }

  datatype Sent = Sent(payload: string, end: End)

  /** The server's text for a list of events, each with its own line ends. */
  function Stream(events: seq<Sent>): string {
    if events == [] then ""
    else ("data: " + events[0].payload) + EndText(events[0].end) + Stream(events[1..])
  }

  function PayloadsOf(events: seq<Sent>): seq<string> {
    if events == [] then [] else [events[0].payload] + PayloadsOf(events[1..])
  }

  predicate AllCarriable(events: seq<Sent>) {
    forall e :: e in events ==> Carriable(e.payload)
  }

  predicate ShortEvent(events: seq<Sent>, i: int) {
    0 <= i < |events| - 1 && events[i].end == CrLfLf
  }

  /** An event that is not the last one ends in `\r\n\n`. */
  ghost predicate ShortInside(events: seq<Sent>) {
    exists i :: ShortEvent(events, i)
  }

  lemma ShortInsideStep(events: seq<Sent>)
    requires events != []
    ensures ShortInside(events) <==> ShortEvent(events, 0) || ShortInside(events[1..])
  {
    if ShortEvent(events, 0) { assert ShortInside(events); }
    if i :| ShortEvent(events[1..], i) { assert ShortEvent(events, i + 1); }
    if i :| ShortEvent(events, i) { assert i == 0 || ShortEvent(events[1..], i - 1); }
  }

  lemma OneLine(frame: string)
    requires forall i :: 0 <= i < |frame| ==> frame[i] != '\n' && frame[i] != '\r'
    ensures Lines(frame) == [frame]
  {
    assert FirstNewline(frame, 0) == |frame|;
  }

  lemma DataLine(line: string, value: string)
    requires line == "data:" + value
    ensures DataLines([line]) == [TrimStart(value, JsSpace)]
  {
    assert [line][1..] == [];
    assert "data:" <= line && line[5..] == value;
    assert DataLines([line][1..]) == [];
  }

  lemma LeadingSpaceTrimmed(p: string)
    requires Carriable(p)
    ensures TrimStart([' '] + p, JsSpace) == p
  {
    assert ([' '] + p)[1..] == p;
  }

  lemma FrameDataOf(p: string)
    requires Carriable(p)
    ensures FrameData("data: " + p) == p
  {
    var frame := "data: " + p;
    forall i | 0 <= i < |frame| ensures frame[i] != '\n' && frame[i] != '\r' {
      if i >= 6 { assert frame[i] == p[i - 6]; }
    }
    OneLine(frame);
    assert frame == "data:" + ([' '] + p);
    DataLine(frame, [' '] + p);
    LeadingSpaceTrimmed(p);
  }

  /** A frame of which the first character is lost holds no data line. */
  lemma ClippedFrame(p: string)
    requires Carriable(p)
    ensures FrameData("ata: " + p) == ""
  {
    var frame := "ata: " + p;
    forall i | 0 <= i < |frame| ensures frame[i] != '\n' && frame[i] != '\r' {
      if i >= 5 { assert frame[i] == p[i - 5]; }
    }
    OneLine(frame);
    NoDataLine(frame);
  }

  lemma NoDataLine(line: string)
    requires line != "" && line[0] == 'a'
    ensures DataLines([line]) == [] && JoinLines(DataLines([line])) == ""
  {
    assert !("data:" <= line) by { assert "data:"[0] == 'd'; }
    assert [line][1..] == [] && DataLines([]) == [];
  }

  // ---------------------------------------------------------------- frames of several lines

  predicate NoNewline(s: string) {
    forall i :: 0 <= i < |s| ==> s[i] != '\n' && s[i] != '\r'
  }

  /** A line of a frame: data, or anything else (a comment, an event name, an id), and whether a
      carriage return stands before the line feed behind it. */
  datatype Field = Data(text: string, crlf: bool) | Other(line: string, crlf: bool)

  function LineOf(field: Field): string {
    match field
    case Data(text, _) => "data:" + text
    case Other(line, _) => line
  }

  /** One line, and data exactly when it says so. */
  predicate FieldOk(field: Field) {
    NoNewline(LineOf(field)) && (field.Other? ==> !("data:" <= field.line))
  }

  predicate FieldsOk(fields: seq<Field>) {
    forall i :: 0 <= i < |fields| ==> FieldOk(fields[i])
  }

  function LineEnd(crlf: bool): string {
    if crlf then ['\r', '\n'] else ['\n']
  }

  /** The frame's text: its lines with their ends between them. */
  function FrameText(fields: seq<Field>): string
    requires fields != []
  {
    if |fields| == 1 then LineOf(fields[0])
    else LineOf(fields[0]) + (LineEnd(fields[0].crlf) + FrameText(fields[1..]))
  }

  function LinesOf(fields: seq<Field>): seq<string> {
    if fields == [] then [] else [LineOf(fields[0])] + LinesOf(fields[1..])
  }

  /** The data of a frame: the data fields alone, without leading white space. */
  function DataOf(fields: seq<Field>): seq<string> {
    if fields == [] then []
    else (if fields[0].Data? then [TrimStart(fields[0].text, JsSpace)] else []) + DataOf(fields[1..])
  }

  lemma {:induction false} FirstNewlineIs(s: string, i: nat, end: nat)
    requires i <= end < |s| && Newline(s, end) > 0 && forall j :: i <= j < end ==> Newline(s, j) == 0
    ensures FirstNewline(s, i) == end
    decreases end - i
  {
    if i < end { FirstNewlineIs(s, i + 1, end); }
  }

  lemma LineParts(line: string, end: string, more: string)
    ensures var s := line + (end + more);
            && |s| == |line| + |end| + |more| && s[..|line|] == line && s[|line| + |end|..] == more
            && (forall i :: 0 <= i < |line| ==> s[i] == line[i])
            && (forall i :: 0 <= i < |end| ==> s[|line| + i] == end[i])
  {
  }

  lemma NewlineIs(s: string, n: nat, crlf: bool)
    requires n + |LineEnd(crlf)| <= |s| && forall i :: 0 <= i < |LineEnd(crlf)| ==> s[n + i] == LineEnd(crlf)[i]
    ensures Newline(s, n) == |LineEnd(crlf)|
  {
    assert s[n + 0] == LineEnd(crlf)[0];
    if crlf { assert s[n + 1] == LineEnd(crlf)[1]; }
  }

  lemma NoNewlineBefore(s: string, n: nat)
    requires n <= |s| && forall i :: 0 <= i < n ==> s[i] != '\n' && s[i] != '\r'
    ensures forall j :: 0 <= j < n ==> Newline(s, j) == 0
  {
  }

  lemma FirstLine(line: string, crlf: bool, more: string)
    requires NoNewline(line)
    ensures Lines(line + (LineEnd(crlf) + more)) == [line] + Lines(more)
  {
    var s := line + (LineEnd(crlf) + more);
    LineParts(line, LineEnd(crlf), more);
    NewlineIs(s, |line|, crlf);
    NoNewlineBefore(s, |line|);
    FirstNewlineIs(s, 0, |line|);
  }

  lemma {:induction false} FrameLines(fields: seq<Field>)
    requires fields != [] && FieldsOk(fields)
    ensures Lines(FrameText(fields)) == LinesOf(fields)
  {
    if |fields| == 1 {
      OneLine(LineOf(fields[0]));
      assert fields[1..] == [] && [LineOf(fields[0])] + [] == [LineOf(fields[0])];
    } else {
      FirstLine(LineOf(fields[0]), fields[0].crlf, FrameText(fields[1..]));
      FrameLines(fields[1..]);
    }
  }

  lemma OneField(field: Field, more: seq<string>)
    requires FieldOk(field)
    ensures DataLines([LineOf(field)] + more)
            == (if field.Data? then [TrimStart(field.text, JsSpace)] else []) + DataLines(more)
  {
    var lines := [LineOf(field)] + more;
    assert lines[0] == LineOf(field) && lines[1..] == more;
    if field.Data? { assert "data:" <= lines[0] && lines[0][5..] == field.text; }
  }

  lemma {:induction false} FrameDataLines(fields: seq<Field>)
    requires FieldsOk(fields)
    ensures DataLines(LinesOf(fields)) == DataOf(fields)
  {
    if fields != [] {
      OneField(fields[0], LinesOf(fields[1..]));
      FrameDataLines(fields[1..]);
    }
  }

  /** Joined by line feeds: nothing before the first, one before each further text. */
  lemma {:induction false} JoinedBy(texts: seq<string>, last: string)
    ensures JoinLines(texts + [last]) == if texts == [] then last else JoinLines(texts) + (['\n'] + last)
  {
    if texts == [] {
      assert texts + [last] == [last];
    } else {
      var all := texts + [last];
      assert all[0] == texts[0] && all[1..] == texts[1..] + [last];
      JoinedBy(texts[1..], last);
      if |texts| == 1 {
        assert texts[1..] == [] && texts[0] + "\n" + last == texts[0] + (['\n'] + last);
      } else {
        JoinGrouped(texts[0], JoinLines(texts[1..]), last);
      }
    }
  }

  lemma JoinGrouped(a: string, b: string, c: string)
    ensures a + "\n" + (b + (['\n'] + c)) == (a + "\n" + b) + (['\n'] + c)
  {
  }

  /** A frame of any lines, however each ends, yields its data fields joined by line feeds; comments,
      event names and everything else is skipped. */
  lemma FrameDecoded(fields: seq<Field>)
    requires fields != [] && FieldsOk(fields)
    ensures FrameData(FrameText(fields)) == JoinLines(DataOf(fields))
  {
    FrameLines(fields);
    FrameDataLines(fields);
  }

  /** What the reader goes on with behind an event when all of the text is there. */
  function Behind(end: End, more: string): string {
    if end == CrLfLf && more != "" then more[1..] else more
  }

  /** Where the first frame ends, and how long its separator is. */
  lemma FirstSearch(frame: string, end: End, more: string)
    requires NoNewline(frame)
    ensures var s := frame + (EndText(end) + more);
            Search(s) == Some(|frame|) && Separator(s, |frame|) == |EndText(end)| && s[|frame|] == EndText(end)[0]
  {
    var s := frame + (EndText(end) + more);
    assert forall i :: 0 <= i < |frame| ==> s[i] == frame[i];
    assert forall i :: 0 <= i < |EndText(end)| ==> s[|frame| + i] == EndText(end)[i];
    forall j | 0 <= j < |frame| ensures Separator(s, j) == 0 {
      assert s[j] != '\n' && s[j] != '\r';
    }
    SearchIs(s, |frame|);
  }

  lemma Regroup(a: string, b: string, c: string)
    ensures a + b + c == a + (b + c)
    ensures (a + (b + c))[..|a|] == a && (a + (b + c))[|a| + |b|..] == c
    ensures c != "" ==> (a + (b + c))[|a| + |b| + 1..] == c[1..]
  {
  }

  lemma FirstFrame(frame: string, end: End, more: string)
    requires NoNewline(frame)
    ensures var s := frame + EndText(end) + more;
            && Search(s) == Some(|frame|) && s[..|frame|] == frame
            && (ShortAt(s, |frame|) <==> end == CrLfLf) && |s| == |frame| + |EndText(end)| + |more|
            && s[Resume(s, |frame|)..] == Behind(end, more)
  {
    FirstSearch(frame, end, more);
    Regroup(frame, EndText(end), more);
  }

  lemma FirstOut(frame: string, end: End, more: string)
    requires NoNewline(frame)
    ensures var s := frame + EndText(end) + more;
            && Drain(s) == After([frame], Drain(Behind(end, more)))
            && Out(Drain(s)) == Payloads([frame]) + Out(Drain(Behind(end, more)))
  {
    var s := frame + EndText(end) + more;
    FirstFrame(frame, end, more);
    DrainCut(s, |frame|, Resume(s, |frame|));
    OutAfter(frame, Drain(Behind(end, more)));
  }

  lemma FrameNoNewline(p: string)
    requires Carriable(p)
    ensures NoNewline("data: " + p) && NoNewline("ata: " + p)
  {
    assert forall i :: 6 <= i < 6 + |p| ==> ("data: " + p)[i] == p[i - 6];
    assert forall i :: 5 <= i < 5 + |p| ==> ("ata: " + p)[i] == p[i - 5];
  }

  lemma OnePayload(frame: string)
    ensures Payloads([frame]) == if FrameData(frame) == "" then [] else [FrameData(frame)]
  {
    assert [frame][1..] == [] && Payloads([]) == [];
  }

  lemma SafeEvent(frame: string, end: End, more: string)
    requires NoNewline(frame) && CutSafe(more) && (end == CrLfLf ==> more == "")
    ensures CutSafe(frame + EndText(end) + more)
  {
    FirstFrame(frame, end, more);
  }

  lemma {:induction false} EventsDrain(events: seq<Sent>)
    requires AllCarriable(events) && !ShortInside(events)
    ensures CutSafe(Stream(events)) && Out(Drain(Stream(events))) == PayloadsOf(events)
  {
    if events == [] {
      SearchSpec("");
    } else {
      var p, end, more := events[0].payload, events[0].end, Stream(events[1..]);
      ShortInsideStep(events);
      EventsDrain(events[1..]);
      FrameNoNewline(p);
      FrameDataOf(p);
      OnePayload("data: " + p);
      FirstOut("data: " + p, end, more);
      SafeEvent("data: " + p, end, more);
    }
  }

  /** Every list of payloads comes out as it went in, however the text was cut into chunks, unless an
      event before the last ends in `\r\n\n`. */
  lemma RoundTrip(events: seq<Sent>, chunks: seq<string>)
    requires AllCarriable(events) && !ShortInside(events)
    requires Joined(chunks) == Stream(events)
    ensures Delivered(chunks) == PayloadsOf(events)
  {
    EventsDrain(events);
    SafeIsIrrelevant(Stream(events), chunks);
  }

  lemma StreamClipped(events: seq<Sent>)
    requires events != []
    ensures Stream(events)[1..] == ("ata: " + events[0].payload) + EndText(events[0].end) + Stream(events[1..])
  {
    var p := events[0].payload;
    Clipped("data: " + p, EndText(events[0].end), Stream(events[1..]));
    FirstCharacter(p);
  }

  lemma Clipped(a: string, b: string, c: string)
    requires a != ""
    ensures (a + b + c)[1..] == a[1..] + b + c
  {
  }

  /** Read at once, a stream hands over at most one text per event, and less than that when an event
      before the last ends in `\r\n\n` or the first character is missing. */
  lemma {:induction false} ReadAtOnce(events: seq<Sent>)
    requires AllCarriable(events)
    ensures |Out(Drain(Stream(events)))| <= |events|
    ensures ShortInside(events) ==> |Out(Drain(Stream(events)))| < |events|
    ensures events != [] ==> |Out(Drain(Stream(events)[1..]))| < |events|
  {
    if events == [] {
      SearchSpec("");
    } else {
      var p, end, rest := events[0].payload, events[0].end, events[1..];
      ReadAtOnce(rest);
      ShortInsideStep(events);
      FrameNoNewline(p);
      FirstOut("data: " + p, end, Stream(rest));
      FirstOut("ata: " + p, end, Stream(rest));
      StreamClipped(events);
      ClippedFrame(p);
      OnePayload("data: " + p);
      OnePayload("ata: " + p);
    }
  }

  lemma PayloadCount(events: seq<Sent>)
    ensures |PayloadsOf(events)| == |events|
  {
  }

  predicate ComesThrough(events: seq<Sent>, chunks: seq<string>) {
    Joined(chunks) == Stream(events) ==> Delivered(chunks) == PayloadsOf(events)
  }

  /** Exactly which streams of one-line events come through every cutting: those in which no event but
      the last ends in `\r\n\n`. The others lose events when the text arrives at once. */
  lemma RoundTripIff(events: seq<Sent>)
    requires AllCarriable(events)
    ensures (forall chunks :: ComesThrough(events, chunks)) <==> !ShortInside(events)
  {
    if ShortInside(events) {
      ReadAtOnce(events);
      PayloadCount(events);
      PumpedOne(Stream(events));
      assert !ComesThrough(events, [Stream(events)]);
    } else {
      forall chunks ensures ComesThrough(events, chunks) {
        if Joined(chunks) == Stream(events) { RoundTrip(events, chunks); }
      }
    }
  }

  /** One chunk per event brings all of them, whatever their line ends; all at once need not. */
  lemma ChunkingMatters(p: string, q: string)
    requires Carriable(p) && Carriable(q)
    ensures var a, b := ("data: " + p) + EndText(CrLfLf), "data: " + q;
            Delivered([a, b]) == [p, q] && Delivered([a + b]) == [p]
  {
    WholeDelivered(p, q);
    PairDelivered(p, q);
  }

  lemma {:induction false} EventOut(p: string)
    requires Carriable(p)
    ensures Payloads(["data: " + p]) == [p] && Out(Drain("data: " + p)) == [p] && Out(Drain("ata: " + p)) == []
  {
    FrameNoNewline(p);
    FrameDataOf(p);
    ClippedFrame(p);
    TailFrame("data: " + p);
    TailFrame("ata: " + p);
    OnePayload("data: " + p);
    OnePayload("ata: " + p);
    assert ("data: " + p)[0] == 'd' && !JsSpace('d');
  }

  lemma FirstCharacter(p: string)
    ensures ("data: " + p)[1..] == "ata: " + p && Behind(CrLfLf, "data: " + p) == "ata: " + p
  {
    assert "data: "[1..] == "ata: ";
  }

  lemma WholeDelivered(p: string, q: string)
    requires Carriable(p) && Carriable(q)
    ensures Delivered([("data: " + p) + EndText(CrLfLf) + ("data: " + q)]) == [p]
  {
    var x, b := "data: " + p, "data: " + q;
    EventOut(p);
    EventOut(q);
    FrameNoNewline(p);
    FirstOut(x, CrLfLf, b);
    FirstCharacter(q);
    DeliveredWhole(x + EndText(CrLfLf) + b);
    assert [p] + [] == [p];
  }

  lemma PairDelivered(p: string, q: string)
    requires Carriable(p) && Carriable(q)
    ensures Delivered([("data: " + p) + EndText(CrLfLf), "data: " + q]) == [p, q]
  {
    var x, b := "data: " + p, "data: " + q;
    var a := x + EndText(CrLfLf);
    EventOut(p);
    EventOut(q);
    FrameNoNewline(p);
    FirstOut(x, CrLfLf, "");
    assert a + "" == a && "" + b == b;
    SearchSpec("");
    assert Drain(a) == Cut([x], "");
    PumpedPair(a, b);
    OutAfter(x, Drain(b));
  }

  /** Text without a line end stays in the buffer and is a frame of its own in the end. */
  lemma TailFrame(s: string)
    requires NoNewline(s)
    ensures Drain(s) == Cut([], s) && Out(Drain(s)) == if Blank(s, JsSpace) then [] else Payloads([s])
  {
    SearchSpec(s);
    assert forall j: nat :: Separator(s, j) == 0;
    assert [] + [s] == [s];
  }
}
