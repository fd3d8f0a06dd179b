/** The browser's event-stream reader: chunks are appended to a buffer, the buffer is cut at blank
    lines, and the `data:` lines of every frame are handed to the JSON parser.

    The format is the one of sections 9.2.5 and 9.2.6 of the WHATWG HTML Living Standard; the rules
    below are the reader's own subset of it. */
module SsePump {
  import opened Text

  /** Length of the match of `\r?\n` at `i`, or 0. */
  function Newline(s: string, i: nat): nat {
    if i < |s| && s[i] == '\n' then 1
    else if i + 1 < |s| && s[i] == '\r' && s[i + 1] == '\n' then 2
    else 0
  }

  /** Length of the match of `\r?\n\r?\n` at `i`, or 0. */
  function Separator(s: string, i: nat): nat {
    var first := Newline(s, i);
    if first == 0 then 0
    else
      var second := Newline(s, i + first);
      if second == 0 then 0 else first + second
  }

  function SearchFrom(s: string, i: nat): (r: Option<nat>)
    requires i <= |s|
    ensures r.Some? ==> i <= r.value < |s|
    decreases |s| - i
  {
    if i == |s| then None
    else if Separator(s, i) > 0 then Some(i)
    else SearchFrom(s, i + 1)
  }

  /** `buffer.search(/\r?\n\r?\n/)` */
  function Search(s: string): Option<nat> {
    SearchFrom(s, 0)
  }

  /** The search finds the leftmost separator, if there is one. */
  lemma {:induction false} SearchFromSpec(s: string, i: nat)
    requires i <= |s|
    ensures SearchFrom(s, i).Some? ==> Separator(s, SearchFrom(s, i).value) > 0
    ensures SearchFrom(s, i).Some? ==> forall j :: i <= j < SearchFrom(s, i).value ==> Separator(s, j) == 0
    ensures SearchFrom(s, i).None? ==> forall j :: i <= j ==> Separator(s, j) == 0
    decreases |s| - i
  {
    if i < |s| && Separator(s, i) == 0 {
      SearchFromSpec(s, i + 1);
    }
  }

  lemma SearchSpec(s: string)
    ensures Search(s).Some? ==> Separator(s, Search(s).value) > 0
    ensures Search(s).Some? ==> forall j :: 0 <= j < Search(s).value ==> Separator(s, j) == 0
    ensures Search(s).None? ==> forall j: nat :: Separator(s, j) == 0
  {
    SearchFromSpec(s, 0);
  }

  /** Where the buffer goes on after a separator at `sep`: four characters further when it starts
      with a carriage return, two otherwise, whatever the separator's own length. `slice` clamps. */
  function Resume(s: string, sep: nat): (r: nat)
    requires sep < |s|
    ensures sep < r <= |s|
  {
    var target := if s[sep] == '\r' then sep + 4 else sep + 2;
    if target <= |s| then target else |s|
  }

  /** What a pump holds: the frames cut so far and the text not yet cut. */
  datatype Cut = Cut(frames: seq<string>, rest: string)

  function Drain(s: string): Cut
    decreases |s|
  {
    match Search(s)
    case None => Cut([], s)
    case Some(sep) =>
      var next := Drain(s[Resume(s, sep)..]);
      Cut([s[..sep]] + next.frames, next.rest)
  }

  function After(frames: seq<string>, next: Cut): Cut {
    Cut(frames + next.frames, next.rest)
  }

  function Feed(state: Cut, chunk: string): Cut {
    After(state.frames, Drain(state.rest + chunk))
  }

  function Pumped(chunks: seq<string>): Cut {
    if chunks == [] then Cut([], "")
    else Feed(Pumped(chunks[..|chunks| - 1]), chunks[|chunks| - 1])
  }

  function Joined(chunks: seq<string>): string {
    if chunks == [] then "" else Joined(chunks[..|chunks| - 1]) + chunks[|chunks| - 1]
  }

  // ---------------------------------------------------------------- one frame

  function FirstNewline(s: string, i: nat): (r: nat)
    requires i <= |s|
    ensures i <= r <= |s|
    ensures r < |s| ==> Newline(s, r) > 0
    decreases |s| - i
  {
    if i == |s| || Newline(s, i) > 0 then i else FirstNewline(s, i + 1)
  }

  /** `frame.split(/\r?\n/)` */
  function Lines(s: string): seq<string>
    decreases |s|
  {
    var end := FirstNewline(s, 0);
    if end == |s| then [s] else [s[..end]] + Lines(s[end + Newline(s, end)..])
  }

  function DataLines(lines: seq<string>): seq<string> {
    if lines == [] then []
    else
      (if "data:" <= lines[0] then [TrimStart(lines[0][5..], JsSpace)] else []) + DataLines(lines[1..])
  }

  function JoinLines(lines: seq<string>): string {
    if lines == [] then ""
    else if |lines| == 1 then lines[0]
    else lines[0] + "\n" + JoinLines(lines[1..])
  }

  function FrameData(frame: string): string {
    JoinLines(DataLines(Lines(frame)))
  }

  /** The texts handed to the JSON parser: frames without data are skipped. */
  function Payloads(frames: seq<string>): seq<string> {
    if frames == [] then []
    else (if FrameData(frames[0]) == "" then [] else [FrameData(frames[0])]) + Payloads(frames[1..])
  }

  /** A tail of white space is dropped when the stream ends; any other tail is one more frame. */
  function Closed(state: Cut): seq<string> {
    if Blank(state.rest, JsSpace) then state.frames else state.frames + [state.rest]
  }

  function Delivered(chunks: seq<string>): seq<string> {
    Payloads(Closed(Pumped(chunks)))
  }

  // ---------------------------------------------------------------- the loop itself

  /** One pass of the inner loop: cut the first frame, go on with the rest. */
  lemma DrainStep(done: seq<string>, s: string)
    ensures Search(s) == None ==> After(done, Drain(s)) == Cut(done, s)
    ensures Search(s).Some? ==>
              After(done, Drain(s)) == After(done + [s[..Search(s).value]], Drain(s[Resume(s, Search(s).value)..]))
  {
    if Search(s).Some? {
      var frame, next := s[..Search(s).value], Drain(s[Resume(s, Search(s).value)..]);
      assert done + ([frame] + next.frames) == (done + [frame]) + next.frames;
    } else {
      assert done + [] == done;
    }
  }

  lemma {:induction false} PayloadsAppend(a: seq<string>, b: seq<string>)
    ensures Payloads(a + b) == Payloads(a) + Payloads(b)
  {
    if a == [] {
      assert a + b == b;
    } else {
      assert (a + b)[0] == a[0] && (a + b)[1..] == a[1..] + b;
      PayloadsAppend(a[1..], b);
      var first := if FrameData(a[0]) == "" then [] else [FrameData(a[0])];
      assert Payloads(a + b) == first + Payloads(a[1..] + b);
      assert first + (Payloads(a[1..]) + Payloads(b)) == (first + Payloads(a[1..])) + Payloads(b);
    }
  }

  lemma DeliverStep(before: seq<string>, done: seq<string>, frame: string)
    ensures before + Payloads(done + [frame]) == (before + Payloads(done)) + Payloads([frame])
  {
    PayloadsAppend(done, [frame]);
    assert before + (Payloads(done) + Payloads([frame])) == (before + Payloads(done)) + Payloads([frame]);
  }

  class Reader {
    var buffer: string
    var delivered: seq<string>

    constructor ()
      ensures buffer == "" && delivered == []
    {
      buffer, delivered := "", [];
    }

    method DispatchFrame(frame: string)
      modifies this`delivered
      ensures delivered == old(delivered) + Payloads([frame])
    {
      var data := FrameData(frame);
      if data != "" {
        delivered := delivered + [data];
      }
    }

    /** One pass of the inner loop. */
    method CutFrame(sep: nat)
      requires Search(buffer) == Some(sep)
      modifies this
      ensures buffer == old(buffer)[Resume(old(buffer), sep)..] && |buffer| < |old(buffer)|
      ensures delivered == old(delivered) + Payloads([old(buffer)[..sep]])
    {
      var frame := buffer[..sep];
      buffer := buffer[Resume(buffer, sep)..];
      DispatchFrame(frame);
    }

    /** One turn of the outer loop: append a chunk, cut every complete frame. */
    method Read(chunk: string)
      modifies this
      ensures buffer == Drain(old(buffer) + chunk).rest
      ensures delivered == old(delivered) + Payloads(Drain(old(buffer) + chunk).frames)
    {
      buffer := buffer + chunk;
      ghost var whole := Drain(buffer);
      ghost var done: seq<string> := [];
      var sep := Search(buffer);
      DrainStep(done, buffer);
      while sep.Some?
        invariant sep == Search(buffer) && whole == After(done, Drain(buffer))
        invariant delivered == old(delivered) + Payloads(done)
        decreases |buffer|
      {
        DrainStep(done, buffer);
        DeliverStep(old(delivered), done, buffer[..sep.value]);
        done := done + [buffer[..sep.value]];
        CutFrame(sep.value);
        sep := Search(buffer);
      }
      DrainStep(done, buffer);
    }

    /** The stream has ended: an unterminated tail is still dispatched. */
    method Finish()
      modifies this`delivered
      ensures delivered == old(delivered) + Payloads(Closed(Cut([], buffer)))
    {
      if !Blank(buffer, JsSpace) {
        DispatchFrame(buffer);
      }
    }
  }

  lemma PumpedStep(chunks: seq<string>, i: nat)
    requires i < |chunks|
    ensures Pumped(chunks[..i + 1]) == Feed(Pumped(chunks[..i]), chunks[i])
  {
    assert chunks[..i + 1][..i] == chunks[..i];
  }

  /** The whole pump over a stream that arrives as `chunks`. */
  method Pump(chunks: seq<string>) returns (delivered: seq<string>)
    ensures delivered == Delivered(chunks)
  {
    var reader := new Reader();
    ghost var state := Cut([], "");
    for i := 0 to |chunks|
      invariant state == Pumped(chunks[..i])
      invariant reader.buffer == state.rest
      invariant reader.delivered == Payloads(state.frames)
      invariant fresh(reader)
    {
      PumpedStep(chunks, i);
      PayloadsAppend(state.frames, Drain(state.rest + chunks[i]).frames);
      state := Feed(state, chunks[i]);
      reader.Read(chunks[i]);
    }
    assert chunks[..|chunks|] == chunks;
    PayloadsAppend(state.frames, Closed(Cut([], state.rest)));
    reader.Finish();
    assert Closed(state) == state.frames + Closed(Cut([], state.rest));
    delivered := reader.delivered;
  }
}
