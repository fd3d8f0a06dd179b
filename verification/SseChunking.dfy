/** When what is read from a stream depends on how the network cut it into chunks, and when it does not. */
module SseChunking {
  import opened Text
  import opened SsePump

  /** A separator of three characters that starts with a carriage return: `\r\n\n`. The reader skips
      four characters for it, one more than it is long. */
  predicate ShortAt(s: string, i: nat) {
    i < |s| && s[i] == '\r' && Separator(s, i) == 3
  }

  /** The reader, given all of `s` at once, cuts at a short separator. */
  predicate TakesShort(s: string)
    decreases |s|
  {
    match Search(s)
    case None => false
    case Some(sep) => ShortAt(s, sep) || TakesShort(s[Resume(s, sep)..])
  }

  predicate EndsShort(s: string) {
    |s| >= 3 && s[|s| - 3..] == "\r\n\n"
  }

  /** A cut that loses a character when there is more text: the reader goes on one character later
      than when the chunk ends right behind the separator. */
  predicate Loses(s: string, sep: nat) {
    ShortAt(s, sep) && sep + 3 < |s|
  }

  /** No chunking can be noticed in the reader's state: wherever it may stand at a cut that loses a
      character, reading on with that character and without it leave the same frames and buffer. */
  predicate CutSafe(s: string)
    decreases |s|
  {
    match Search(s)
    case None => true
    case Some(sep) =>
      && CutSafe(s[Resume(s, sep)..])
      && (Loses(s, sep) ==> CutSafe(s[sep + 3..]) && Drain(s[sep + 3..]) == Drain(s[Resume(s, sep)..]))
  }

  predicate Unnoticed(s: string, chunks: seq<string>) {
    Joined(chunks) == s ==> Pumped(chunks) == Drain(s)
  }

  ghost predicate ChunkingIrrelevant(s: string) {
    forall chunks :: Unnoticed(s, chunks)
  }

  // ---------------------------------------------------------------- separators in a prefix

  /** More text cannot complete a separator that starts before one already there. */
  lemma NoEarlierSeparator(a: string, b: string, j: nat, sep: nat)
    requires j < sep && Separator(a, j) == 0 && Separator(a, sep) > 0
    ensures Separator(a + b, j) == 0
  {
    var s := a + b;
    assert sep + 1 < |a|;
    assert s[j] == a[j] && s[j + 1] == a[j + 1] && s[sep] == a[sep] && s[sep + 1] == a[sep + 1];
    if j + 2 < |a| { assert s[j + 2] == a[j + 2]; }
    if j + 3 < |a| { assert s[j + 3] == a[j + 3]; }
    if sep + 2 < |a| { assert s[sep + 2] == a[sep + 2]; }
  }

  lemma SeparatorStable(a: string, b: string, sep: nat)
    requires Separator(a, sep) > 0
    ensures Separator(a + b, sep) == Separator(a, sep) && (a + b)[sep] == a[sep]
  {
    var s := a + b;
    assert s[sep] == a[sep] && s[sep + 1] == a[sep + 1];
    if sep + 2 < |a| { assert s[sep + 2] == a[sep + 2]; }
    if sep + 3 < |a| { assert s[sep + 3] == a[sep + 3]; }
  }

  lemma SearchIs(s: string, sep: nat)
    requires sep < |s| && Separator(s, sep) > 0
    requires forall j :: 0 <= j < sep ==> Separator(s, j) == 0
    ensures Search(s) == Some(sep)
  {
    SearchSpec(s);
  }

  /** A separator found in a prefix is the one found in the whole text. */
  lemma SearchStable(a: string, b: string)
    requires Search(a).Some?
    ensures Search(a + b) == Search(a)
    ensures ShortAt(a + b, Search(a).value) == ShortAt(a, Search(a).value)
  {
    var sep := Search(a).value;
    SearchSpec(a);
    SeparatorStable(a, b, sep);
    forall j | 0 <= j < sep ensures Separator(a + b, j) == 0 {
      NoEarlierSeparator(a, b, j, sep);
    }
    SearchIs(a + b, sep);
  }

  /** One cut, as equations. */
  lemma DrainCut(s: string, sep: nat, r: nat)
    requires Search(s) == Some(sep) && r == Resume(s, sep)
    ensures Drain(s) == After([s[..sep]], Drain(s[r..]))
  {
  }

  lemma AfterAssociative(a: seq<string>, b: seq<string>, c: Cut)
    ensures After(a, After(b, c)) == After(a + b, c)
  {
    assert a + (b + c.frames) == (a + b) + c.frames;
  }

  lemma FeedAfter(frames: seq<string>, c: Cut, chunk: string)
    ensures Feed(After(frames, c), chunk) == After(frames, Feed(c, chunk))
  {
    AfterAssociative(frames, c.frames, Drain(c.rest + chunk));
  }

  lemma AfterInjective(frames: seq<string>, c: Cut, d: Cut)
    requires After(frames, c) == After(frames, d)
    ensures c == d
  {
    assert (frames + c.frames)[|frames|..] == c.frames && (frames + d.frames)[|frames|..] == d.frames;
  }

  /** A prefix that contains the whole first separator finds the same one. */
  lemma PrefixSearch(s: string, sep: nat, n: nat)
    requires Search(s) == Some(sep) && Separator(s, sep) + sep <= n <= |s|
    ensures Search(s[..n]) == Some(sep)
  {
    var p := s[..n];
    SearchSpec(s);
    SearchSpec(p);
    assert forall i :: 0 <= i < n ==> p[i] == s[i];
    assert Separator(p, sep) > 0;
    assert s == p + s[n..];
    SearchStable(p, s[n..]);
  }

  lemma ShortPrefix(s: string, sep: nat)
    requires Search(s) == Some(sep) && ShortAt(s, sep)
    ensures sep + 3 <= |s| && Drain(s[..sep + 3]) == Cut([s[..sep]], "")
  {
    var p := s[..sep + 3];
    PrefixSearch(s, sep, sep + 3);
    assert p[Resume(p, sep)..] == "" && p[..sep] == s[..sep];
    SearchSpec("");
    assert Drain("") == Cut([], "");
  }

  // ---------------------------------------------------------------- where a chunked reader can stand

  lemma ChunkStep(chunks: seq<string>)
    requires chunks != []
    ensures var front, last := chunks[..|chunks| - 1], chunks[|chunks| - 1];
            Joined(chunks) == Joined(front) + last && Pumped(chunks) == Feed(Pumped(front), last)
  {
  }

  lemma ChunkSnoc(front: seq<string>, last: string)
    ensures Joined(front + [last]) == Joined(front) + last && Pumped(front + [last]) == Feed(Pumped(front), last)
  {
    ChunkStep(front + [last]);
    assert (front + [last])[..|front|] == front;
  }

  lemma FrontSnoc(p: string, later: seq<string>)
    requires later != []
    ensures var front, last := later[..|later| - 1], later[|later| - 1];
            Joined([p] + later) == Joined([p] + front) + last && Pumped([p] + later) == Feed(Pumped([p] + front), last)
  {
    var front, last := later[..|later| - 1], later[|later| - 1];
    assert [p] + later == ([p] + front) + [last];
    ChunkSnoc([p] + front, last);
  }

  lemma PumpedOne(s: string)
    ensures Joined([s]) == s && Pumped([s]) == Drain(s)
  {
    assert [s][..0] == [] && "" + s == s;
    assert Pumped([s]) == Feed(Cut([], ""), s) == After([], Drain(s));
    assert [] + Drain(s).frames == Drain(s).frames;
  }

  lemma NoneInPrefix(a: string, b: string)
    requires Search(a + b) == None
    ensures Search(a) == None
  {
    if Search(a).Some? { SearchStable(a, b); }
  }

  /** Before the first separator is complete everything is still in the buffer. */
  lemma {:induction false} NothingYet(chunks: seq<string>)
    requires Search(Joined(chunks)) == None
    ensures Pumped(chunks) == Cut([], Joined(chunks))
  {
    if chunks != [] {
      var front, last := chunks[..|chunks| - 1], chunks[|chunks| - 1];
      ChunkStep(chunks);
      NoneInPrefix(Joined(front), last);
      NothingYet(front);
      assert [] + Drain(Joined(chunks)).frames == Drain(Joined(chunks)).frames;
    }
  }

  /** The two places the reader can go on from after the first frame. */
  predicate GoesOn(s: string, sep: nat, k: nat)
    requires sep < |s|
  {
    k == Resume(s, sep) || (ShortAt(s, sep) && k == sep + 3 && k <= |s|)
  }

  /** The chunk that completes the first separator. */
  lemma CutNow(chunks: seq<string>, sep: nat) returns (later: seq<string>)
    requires chunks != [] && Search(Joined(chunks)) == Some(sep) && Search(Joined(chunks[..|chunks| - 1])) == None
    ensures Joined(later) == Joined(chunks)[Resume(Joined(chunks), sep)..]
    ensures Pumped(chunks) == After([Joined(chunks)[..sep]], Pumped(later))
  {
    var s := Joined(chunks);
    var k := Resume(s, sep);
    ChunkStep(chunks);
    NothingYet(chunks[..|chunks| - 1]);
    later := [s[k..]];
    PumpedOne(s[k..]);
    DrainCut(s, sep, k);
    assert [] + Drain(s).frames == Drain(s).frames;
  }

  /** Whatever the chunks, the first frame is cut at the first separator, and the rest is the result of
      some chunks of what follows one of the two places. */
  lemma {:induction false} FirstCut(chunks: seq<string>, sep: nat) returns (k: nat, later: seq<string>)
    requires Search(Joined(chunks)) == Some(sep)
    ensures GoesOn(Joined(chunks), sep, k) && k <= |Joined(chunks)| && Joined(later) == Joined(chunks)[k..]
    ensures Pumped(chunks) == After([Joined(chunks)[..sep]], Pumped(later))
  {
    SearchSpec("");
    ChunkStep(chunks);
    var front, last := chunks[..|chunks| - 1], chunks[|chunks| - 1];
    if Search(Joined(front)) == None {
      k := Resume(Joined(chunks), sep);
      later := CutNow(chunks, sep);
    } else {
      SearchStable(Joined(front), last);
      k, later := FirstCut(front, sep);
      ChunkSnoc(later, last);
      StillGoesOn(Joined(front), last, sep, k);
      FeedAfter([Joined(front)[..sep]], Pumped(later), last);
      later := later + [last];
    }
  }

  lemma StillGoesOn(a: string, b: string, sep: nat, k: nat)
    requires Search(a) == Some(sep) && Search(a + b) == Some(sep) && GoesOn(a, sep, k)
    requires ShortAt(a + b, sep) == ShortAt(a, sep) && k <= |a|
    ensures GoesOn(a + b, sep, k) && (a + b)[..sep] == a[..sep] && (a + b)[k..] == a[k..] + b
  {
    SearchSpec(a);
    if a[sep] == '\r' && sep + 4 > |a| {
      assert ShortAt(a, sep);
    }
  }

  // ---------------------------------------------------------------- safe texts

  lemma {:induction false} SafeIsIrrelevant(s: string, chunks: seq<string>)
    requires CutSafe(s) && Joined(chunks) == s
    ensures Pumped(chunks) == Drain(s)
    decreases |s|
  {
    match Search(s)
    case None => NothingYet(chunks);
    case Some(sep) =>
      var k, later := FirstCut(chunks, sep);
      DrainCut(s, sep, Resume(s, sep));
      SafeRest(s, sep, k);
      SafeIsIrrelevant(s[k..], later);
  }

  lemma {:induction false} SafeRest(s: string, sep: nat, k: nat)
    requires CutSafe(s) && Search(s) == Some(sep) && GoesOn(s, sep, k)
    ensures sep < k <= |s| && CutSafe(s[k..]) && Drain(s[k..]) == Drain(s[Resume(s, sep)..])
  {
  }

  lemma {:induction false} JoinedInFront(p: string, later: seq<string>)
    ensures Joined([p] + later) == p + Joined(later)
  {
    if later == [] {
      PumpedOne(p);
      assert [p] + later == [p] && p + "" == p;
    } else {
      var front, last := later[..|later| - 1], later[|later| - 1];
      JoinedInFront(p, front);
      ChunkStep(later);
      FrontSnoc(p, later);
      assert (p + Joined(front)) + last == p + (Joined(front) + last);
    }
  }

  /** A chunk that ends right behind a short separator sends the reader to the next character. */
  lemma {:induction false} AfterWholeCut(p: string, later: seq<string>)
    requires Drain(p).rest == ""
    ensures Pumped([p] + later) == After(Drain(p).frames, Pumped(later))
  {
    if later == [] {
      PumpedOne(p);
      assert [p] + later == [p];
      assert Drain(p).frames + [] == Drain(p).frames;
    } else {
      var front, last := later[..|later| - 1], later[|later| - 1];
      AfterWholeCut(p, front);
      ChunkStep(later);
      FrontSnoc(p, later);
      FeedAfter(Drain(p).frames, Pumped(front), last);
    }
  }

  /** The reader that has all text up to the first cut in front, against one that starts behind it:
      `x` was read behind the cut, `c` and `d` are what they hold. */
  predicate InStep(s: string, sep: nat, x: string, c: Cut, d: Cut)
    requires sep < |s|
  {
    if x == "" then c == Cut([], "") && d == Drain(s[..Resume(s, sep)]) else d == After([s[..sep]], c)
  }

  lemma StaysInStep(s: string, sep: nat, x: string, c: Cut, d: Cut, y: string)
    requires Search(s) == Some(sep) && Resume(s, sep) < |s| && x + y <= s[Resume(s, sep)..] && InStep(s, sep, x, c, d)
    ensures InStep(s, sep, x + y, Feed(c, y), Feed(d, y))
  {
    if x == "" {
      FirstInStep(s, sep, c, d, y);
      assert x + y == y;
    } else {
      FeedAfter([s[..sep]], c, y);
    }
  }

  lemma FirstInStep(s: string, sep: nat, c: Cut, d: Cut, y: string)
    requires Search(s) == Some(sep) && Resume(s, sep) < |s| && y <= s[Resume(s, sep)..] && InStep(s, sep, "", c, d)
    ensures InStep(s, sep, y, Feed(c, y), Feed(d, y))
  {
    assert "" + y == y && [] + Drain(y).frames == Drain(y).frames;
    SearchSpec("");
    FirstText(s, sep, y);
  }

  /** Any chunks of what follows the first cut, with all text up to the cut put in front. */
  lemma {:induction false} CutInFront(s: string, sep: nat, later: seq<string>)
    requires Search(s) == Some(sep) && Resume(s, sep) < |s| && Joined(later) <= s[Resume(s, sep)..]
    ensures InStep(s, sep, Joined(later), Pumped(later), Pumped([s[..Resume(s, sep)]] + later))
  {
    var p := s[..Resume(s, sep)];
    if later == [] {
      PumpedOne(p);
      assert [p] + later == [p];
    } else {
      var front, last := later[..|later| - 1], later[|later| - 1];
      ChunkStep(later);
      assert Joined(front) <= Joined(front) + last;
      CutInFront(s, sep, front);
      FrontSnoc(p, later);
      StaysInStep(s, sep, Joined(front), Pumped(front), Pumped([p] + front), last);
    }
  }

  /** The first text behind the cut: the frame is cut by then, and only then. */
  lemma FirstText(s: string, sep: nat, y: string)
    requires Search(s) == Some(sep) && Resume(s, sep) < |s| && y <= s[Resume(s, sep)..]
    ensures var p := s[..Resume(s, sep)];
            Feed(Drain(p), y) == if y == "" then Drain(p) else After([s[..sep]], Drain(y))
  {
    SearchSpec(s);
    if Separator(s, sep) + sep <= Resume(s, sep) {
      FirstTextWhole(s, sep, y);
    } else {
      FirstTextPart(s, sep, y);
    }
  }

  lemma FirstTextWhole(s: string, sep: nat, y: string)
    requires Search(s) == Some(sep) && Separator(s, sep) + sep <= Resume(s, sep) < |s|
    ensures var p := s[..Resume(s, sep)];
            Feed(Drain(p), y) == if y == "" then Drain(p) else After([s[..sep]], Drain(y))
  {
    var r := Resume(s, sep);
    var p := s[..r];
    PrefixSearch(s, sep, r);
    DrainCut(p, sep, r);
    SearchSpec("");
    assert p[..sep] == s[..sep] && p[r..] == "";
    assert Drain(p) == Cut([s[..sep]], "") && "" + y == y;
    if y == "" { assert [s[..sep]] + [] == [s[..sep]]; }
  }

  lemma FirstTextPart(s: string, sep: nat, y: string)
    requires Search(s) == Some(sep) && Resume(s, sep) < |s| && Separator(s, sep) + sep > Resume(s, sep)
    requires y <= s[Resume(s, sep)..]
    ensures var p := s[..Resume(s, sep)];
            Feed(Drain(p), y) == if y == "" then Drain(p) else After([s[..sep]], Drain(y))
  {
    var r := Resume(s, sep);
    var p := s[..r];
    NotWhole(s, sep);
    assert p + "" == p;
    if y != "" {
      var q := p + y;
      assert q == s[..r + |y|];
      PrefixSearch(s, sep, r + |y|);
      DrainCut(q, sep, r);
      assert q[..sep] == s[..sep] && q[r..] == y;
    }
    assert [] + Drain(p + y).frames == Drain(p + y).frames;
  }

  /** The cut may come before the end of the separator: `\n\r\n` is left after two characters. */
  lemma NotWhole(s: string, sep: nat)
    requires Search(s) == Some(sep) && Resume(s, sep) < |s| && Separator(s, sep) + sep > Resume(s, sep)
    ensures Separator(s, sep) == 3 && Resume(s, sep) == sep + 2
    ensures Drain(s[..Resume(s, sep)]) == Cut([], s[..Resume(s, sep)])
  {
    var p := s[..sep + 2];
    SearchSpec(s);
    SearchSpec(p);
    assert s == p + s[sep + 2..];
    if Search(p).Some? { SearchStable(p, s[sep + 2..]); }
  }

  /** Chunks of what follows the first cut extend to chunks of the whole text with that result. */
  lemma ChunksInFront(s: string, sep: nat, later: seq<string>) returns (chunks: seq<string>)
    requires Search(s) == Some(sep) && Joined(later) == s[Resume(s, sep)..]
    ensures Joined(chunks) == s && Pumped(chunks) == After([s[..sep]], Pumped(later))
  {
    var r := Resume(s, sep);
    if r == |s| {
      SearchSpec("");
      NothingYet(later);
      chunks := [s];
      PumpedOne(s);
      DrainCut(s, sep, r);
    } else {
      chunks := [s[..r]] + later;
      CutInFront(s, sep, later);
      JoinedInFront(s[..r], later);
      assert s[..r] + s[r..] == s;
    }
  }

  /** So do chunks of what follows a short separator, with the text up to its end as the first chunk. */
  lemma ChunksBehindShort(s: string, sep: nat, later: seq<string>) returns (chunks: seq<string>)
    requires Search(s) == Some(sep) && ShortAt(s, sep) && sep + 3 <= |s| && Joined(later) == s[sep + 3..]
    ensures Joined(chunks) == s && Pumped(chunks) == After([s[..sep]], Pumped(later))
  {
    chunks := [s[..sep + 3]] + later;
    ShortPrefix(s, sep);
    AfterWholeCut(s[..sep + 3], later);
    JoinedInFront(s[..sep + 3], later);
    assert s[..sep + 3] + s[sep + 3..] == s;
  }

  lemma OnlyResult(s: string, sep: nat, r: nat, chunks: seq<string>, later: seq<string>)
    requires ChunkingIrrelevant(s) && Search(s) == Some(sep) && r == Resume(s, sep)
    requires Joined(chunks) == s && Pumped(chunks) == After([s[..sep]], Pumped(later))
    ensures Pumped(later) == Drain(s[r..])
  {
    DrainCut(s, sep, r);
    assert Unnoticed(s, chunks);
    AfterInjective([s[..sep]], Pumped(later), Drain(s[r..]));
  }

  /** If no chunking of a text can be noticed, none of what follows its first cut can. */
  lemma IrrelevantRest(s: string, sep: nat)
    requires ChunkingIrrelevant(s) && Search(s) == Some(sep)
    ensures ChunkingIrrelevant(s[Resume(s, sep)..])
  {
    forall later ensures Unnoticed(s[Resume(s, sep)..], later) {
      if Joined(later) == s[Resume(s, sep)..] {
        var chunks := ChunksInFront(s, sep, later);
        OnlyResult(s, sep, Resume(s, sep), chunks, later);
      }
    }
  }

  lemma IrrelevantShortRest(s: string, sep: nat)
    requires ChunkingIrrelevant(s) && Search(s) == Some(sep) && Loses(s, sep)
    ensures Drain(s[sep + 3..]) == Drain(s[Resume(s, sep)..]) && ChunkingIrrelevant(s[sep + 3..])
  {
    forall later | Joined(later) == s[sep + 3..] ensures Pumped(later) == Drain(s[Resume(s, sep)..]) {
      var chunks := ChunksBehindShort(s, sep, later);
      OnlyResult(s, sep, Resume(s, sep), chunks, later);
    }
    PumpedOne(s[sep + 3..]);
    var rest := s[sep + 3..];
    forall later ensures Unnoticed(rest, later) {
      assert Joined(later) == rest ==> Pumped(later) == Drain(s[Resume(s, sep)..]);
    }
  }

  lemma {:induction false} IrrelevantIsSafe(s: string)
    requires ChunkingIrrelevant(s)
    ensures CutSafe(s)
    decreases |s|
  {
    if Search(s).Some? {
      var sep := Search(s).value;
      IrrelevantRest(s, sep);
      IrrelevantIsSafe(s[Resume(s, sep)..]);
      if Loses(s, sep) {
        IrrelevantShortRest(s, sep);
        IrrelevantIsSafe(s[sep + 3..]);
      }
    }
  }

  /** The exact condition for the reader's state, frames and buffer together, for every text. */
  lemma ChunkingIrrelevantIff(s: string)
    ensures ChunkingIrrelevant(s) <==> CutSafe(s)
  {
    if CutSafe(s) {
      forall chunks ensures Unnoticed(s, chunks) {
        if Joined(chunks) == s { SafeIsIrrelevant(s, chunks); }
      }
    }
    if ChunkingIrrelevant(s) { IrrelevantIsSafe(s); }
  }

  // ---------------------------------------------------------------- what the parser is handed

  /** What the parser is handed in all when the stream ends in this state. */
  function Out(c: Cut): seq<string> {
    Payloads(Closed(c))
  }

  lemma OutAfter(frame: string, c: Cut)
    ensures Out(After([frame], c)) == Payloads([frame]) + Out(c)
  {
    assert Closed(After([frame], c)) == [frame] + Closed(c);
    PayloadsAppend([frame], Closed(c));
  }

  lemma OutAfterIff(frame: string, c: Cut, d: Cut)
    ensures Out(After([frame], c)) == Out(After([frame], d)) <==> Out(c) == Out(d)
  {
    OutAfter(frame, c);
    OutAfter(frame, d);
    var first := Payloads([frame]);
    assert (first + Out(c))[|first|..] == Out(c) && (first + Out(d))[|first|..] == Out(d);
  }

  /** No chunking changes what the parser is handed: wherever the reader may stand at a cut that loses a
      character, the rest hands over the same with that character and without it. */
  predicate OutSafe(s: string)
    decreases |s|
  {
    match Search(s)
    case None => true
    case Some(sep) =>
      && OutSafe(s[Resume(s, sep)..])
      && (Loses(s, sep) ==> OutSafe(s[sep + 3..]) && Out(Drain(s[sep + 3..])) == Out(Drain(s[Resume(s, sep)..])))
  }

  predicate SameOut(s: string, chunks: seq<string>) {
    Joined(chunks) == s ==> Delivered(chunks) == Delivered([s])
  }

  ghost predicate DeliveryIrrelevant(s: string) {
    forall chunks :: SameOut(s, chunks)
  }

  lemma DeliveredWhole(s: string)
    ensures Delivered([s]) == Out(Drain(s))
  {
    PumpedOne(s);
  }

  lemma {:induction false} OutSafeRest(s: string, sep: nat, k: nat)
    requires OutSafe(s) && Search(s) == Some(sep) && GoesOn(s, sep, k)
    ensures sep < k <= |s| && OutSafe(s[k..]) && Out(Drain(s[k..])) == Out(Drain(s[Resume(s, sep)..]))
  {
  }

  lemma {:induction false} OutSafeDelivers(s: string, chunks: seq<string>)
    requires OutSafe(s) && Joined(chunks) == s
    ensures Out(Pumped(chunks)) == Out(Drain(s))
    decreases |s|
  {
    match Search(s)
    case None => NothingYet(chunks);
    case Some(sep) =>
      var k, later := FirstCut(chunks, sep);
      DrainCut(s, sep, Resume(s, sep));
      OutSafeRest(s, sep, k);
      OutSafeDelivers(s[k..], later);
      OutAfterIff(s[..sep], Pumped(later), Drain(s[Resume(s, sep)..]));
  }

  lemma OnlyOut(s: string, sep: nat, chunks: seq<string>, later: seq<string>)
    requires DeliveryIrrelevant(s) && Search(s) == Some(sep)
    requires Joined(chunks) == s && Pumped(chunks) == After([s[..sep]], Pumped(later))
    ensures Out(Pumped(later)) == Out(Drain(s[Resume(s, sep)..]))
  {
    DrainCut(s, sep, Resume(s, sep));
    DeliveredWhole(s);
    assert SameOut(s, chunks);
    OutAfterIff(s[..sep], Pumped(later), Drain(s[Resume(s, sep)..]));
  }

  /** If no chunking of a text changes what is handed over, none of what follows its first cut does. */
  lemma DeliveryRest(s: string, sep: nat)
    requires DeliveryIrrelevant(s) && Search(s) == Some(sep)
    ensures DeliveryIrrelevant(s[Resume(s, sep)..])
  {
    var rest := s[Resume(s, sep)..];
    DeliveredWhole(rest);
    forall later ensures SameOut(rest, later) {
      if Joined(later) == rest {
        var chunks := ChunksInFront(s, sep, later);
        OnlyOut(s, sep, chunks, later);
      }
    }
  }

  lemma DeliveryShortRest(s: string, sep: nat)
    requires DeliveryIrrelevant(s) && Search(s) == Some(sep) && Loses(s, sep)
    ensures Out(Drain(s[sep + 3..])) == Out(Drain(s[Resume(s, sep)..])) && DeliveryIrrelevant(s[sep + 3..])
  {
    var rest := s[sep + 3..];
    forall later | Joined(later) == rest ensures Delivered(later) == Out(Drain(s[Resume(s, sep)..])) {
      var chunks := ChunksBehindShort(s, sep, later);
      OnlyOut(s, sep, chunks, later);
    }
    PumpedOne(rest);
    DeliveredWhole(rest);
    forall later ensures SameOut(rest, later) {
      assert Joined(later) == rest ==> Delivered(later) == Out(Drain(s[Resume(s, sep)..]));
    }
  }

  lemma {:induction false} DeliveryIsSafe(s: string)
    requires DeliveryIrrelevant(s)
    ensures OutSafe(s)
    decreases |s|
  {
    if Search(s).Some? {
      var sep := Search(s).value;
      DeliveryRest(s, sep);
      DeliveryIsSafe(s[Resume(s, sep)..]);
      if Loses(s, sep) {
        DeliveryShortRest(s, sep);
        DeliveryIsSafe(s[sep + 3..]);
      }
    }
  }

  /** The exact condition for what the parser is handed, for every text. */
  lemma DeliveryIrrelevantIff(s: string)
    ensures DeliveryIrrelevant(s) <==> OutSafe(s)
  {
    if OutSafe(s) {
      DeliveredWhole(s);
      forall chunks ensures SameOut(s, chunks) {
        if Joined(chunks) == s { OutSafeDelivers(s, chunks); }
      }
    }
    if DeliveryIrrelevant(s) { DeliveryIsSafe(s); }
  }

  /** A loss that cannot be noticed in the state is none in what the parser is handed. */
  lemma {:induction false} CutSafeIsOutSafe(s: string)
    requires CutSafe(s)
    ensures OutSafe(s)
    decreases |s|
  {
    if Search(s).Some? {
      var sep := Search(s).value;
      CutSafeIsOutSafe(s[Resume(s, sep)..]);
      if Loses(s, sep) { CutSafeIsOutSafe(s[sep + 3..]); }
    }
  }

  // ---------------------------------------------------------------- a simpler condition

  function Weight(frames: seq<string>): nat {
    if frames == [] then 0 else |frames[0]| + Weight(frames[1..])
  }

  lemma WeightAppend(a: seq<string>, b: seq<string>)
    ensures Weight(a + b) == Weight(a) + Weight(b)
  {
    if a == [] {
      assert a + b == b;
    } else {
      assert (a + b)[1..] == a[1..] + b;
      WeightAppend(a[1..], b);
    }
  }

  lemma SuffixEndsShort(s: string, r: nat)
    requires r <= |s|
    ensures EndsShort(s[r..]) ==> EndsShort(s)
  {
    if |s| - r >= 3 { assert s[r..][|s| - r - 3..] == s[|s| - 3..]; }
  }

  function Kept(c: Cut): nat {
    Weight(c.frames) + |c.rest|
  }

  lemma ShortAtEnd(s: string)
    requires |s| >= 3 && ShortAt(s, |s| - 3)
    ensures EndsShort(s)
  {
    assert s[|s| - 3..] == [s[|s| - 3], s[|s| - 2], s[|s| - 1]];
  }

  lemma TextBehindShort(s: string, sep: nat)
    requires ShortAt(s, sep) && !EndsShort(s)
    ensures sep + 3 < |s|
  {
    assert sep + 3 <= |s|;
    if ShortAt(s, |s| - 3) { ShortAtEnd(s); }
  }

  lemma NotClamped(s: string, sep: nat)
    requires Search(s) == Some(sep) && !EndsShort(s)
    ensures Resume(s, sep) == sep + 2 || Resume(s, sep) == sep + 4
    ensures !EndsShort(s[Resume(s, sep)..])
  {
    SearchSpec(s);
    if ShortAt(s, sep) { TextBehindShort(s, sep); }
    SuffixEndsShort(s, Resume(s, sep));
  }

  /** Where nothing is clamped every separator costs two or four characters, so the characters kept
      have the parity of the text. */
  lemma {:induction false} DrainParity(s: string) returns (half: nat)
    requires !EndsShort(s)
    ensures Kept(Drain(s)) + 2 * half == |s|
    decreases |s|
  {
    if Search(s).Some? {
      var sep := Search(s).value;
      var r := Resume(s, sep);
      NotClamped(s, sep);
      var less := DrainParity(s[r..]);
      DrainCut(s, sep, r);
      WeightAppend([s[..sep]], Drain(s[r..]).frames);
      half := less + (r - sep) / 2;
    } else {
      half := 0;
    }
  }

  lemma OddDifference(frames: seq<string>, x: Cut, y: Cut, n: nat, i: nat, j: nat)
    requires Kept(x) + 2 * i == n && Kept(y) + 2 * j + 1 == n
    ensures After(frames, x) != After(frames, y)
  {
    WeightAppend(frames, x.frames);
    WeightAppend(frames, y.frames);
    assert Kept(After(frames, x)) == Weight(frames) + Kept(x);
    assert Kept(After(frames, y)) == Weight(frames) + Kept(y);
  }

  lemma {:induction false} NoShortIsSafe(s: string)
    requires !TakesShort(s)
    ensures CutSafe(s)
    decreases |s|
  {
    if Search(s).Some? { NoShortIsSafe(s[Resume(s, Search(s).value)..]); }
  }

  /** A lost character is noticed, unless the end of the text clamps a later cut. */
  lemma LossIsNoticed(s: string, sep: nat)
    requires Search(s) == Some(sep) && ShortAt(s, sep) && !EndsShort(s)
    ensures Loses(s, sep) && Drain(s[sep + 3..]) != Drain(s[Resume(s, sep)..])
  {
    TextBehindShort(s, sep);
    SuffixEndsShort(s, sep + 3);
    SuffixEndsShort(s, sep + 4);
    var i := DrainParity(s[sep + 3..]);
    var j := DrainParity(s[sep + 4..]);
    OddDifference([], Drain(s[sep + 3..]), Drain(s[sep + 4..]), |s[sep + 3..]|, i, j);
  }

  /** For texts that do not end in `\r\n\n` the condition is simply that the reader never cuts there. */
  lemma {:induction false} SafeIffNoShort(s: string)
    requires !EndsShort(s)
    ensures CutSafe(s) <==> !TakesShort(s)
    decreases |s|
  {
    if Search(s).Some? {
      var sep := Search(s).value;
      NotClamped(s, sep);
      if ShortAt(s, sep) { LossIsNoticed(s, sep); } else { SafeIffNoShort(s[Resume(s, sep)..]); }
    }
  }

  /** Enough for a caller: a stream in which `\r\n\n` does not occur. Streams without a carriage
      return, and streams with only `\r\n` line ends, are such streams. */
  predicate NoShort(s: string) {
    forall i :: 0 <= i && i + 2 < |s| ==> !(s[i] == '\r' && s[i + 1] == '\n' && s[i + 2] == '\n')
  }

  lemma {:induction false} NoShortTaken(s: string)
    requires NoShort(s)
    ensures !TakesShort(s)
    decreases |s|
  {
    if Search(s).Some? {
      var r := Resume(s, Search(s).value);
      forall i | 0 <= i && i + 2 < |s[r..]|
        ensures !(s[r..][i] == '\r' && s[r..][i + 1] == '\n' && s[r..][i + 2] == '\n')
      {
        assert s[r..][i] == s[r + i] && s[r..][i + 1] == s[r + i + 1] && s[r..][i + 2] == s[r + i + 2];
      }
      NoShortTaken(s[r..]);
    }
  }

  predicate OnlyCrLf(s: string) {
    forall i :: 0 <= i < |s| && s[i] == '\n' ==> i > 0 && s[i - 1] == '\r'
  }

  lemma UniformIsSafe(s: string)
    requires '\r' !in s || OnlyCrLf(s)
    ensures NoShort(s)
  {
  }

  lemma UniformLineEnds(s: string, chunks: seq<string>)
    requires '\r' !in s || OnlyCrLf(s)
    requires Joined(chunks) == s
    ensures Pumped(chunks) == Drain(s) == Pumped([s]) && Delivered(chunks) == Delivered([s])
  {
    UniformIsSafe(s);
    NoShortTaken(s);
    NoShortIsSafe(s);
    SafeIsIrrelevant(s, chunks);
    PumpedOne(s);
  }

  lemma PumpedPair(a: string, b: string)
    ensures Joined([a, b]) == a + b
    ensures Pumped([a, b]) == Feed(Drain(a), b)
  {
    assert [a, b][..1] == [a] && [a][..0] == [];
    assert "" + a == a;
    assert Joined([a]) == a;
    assert Pumped([a]) == Feed(Cut([], ""), a) == Drain(a);
  }

  /** A lost character need not be noticed: here the last cut is clamped by the end of the text. */
  lemma LossCanBeHarmless(s: string)
    requires s == "a\r\n\n\r\n\n"
    ensures TakesShort(s) && CutSafe(s)
  {
    assert Separator(s, 0) == 0 && Separator(s, 1) == 3;
    SearchIs(s, 1);
    var x, y := s[4..], s[5..];
    assert x == "\r\n\n" && y == "\n\n";
    SearchIs(x, 0);
    SearchIs(y, 0);
    NothingToCut("");
    DrainCut(x, 0, 3);
    DrainCut(y, 0, 2);
    assert x[3..] == "" && y[2..] == "" && x[..0] == y[..0] == "";
    SearchSpec("");
    assert CutSafe("");
    assert CutSafe(x) && CutSafe(y);
  }

  /** A loss the state shows and the parser does not: what is left over is white space. */
  lemma LossInTheTail(s: string)
    requires s == "a\r\n\n\n"
    ensures !CutSafe(s) && OutSafe(s)
  {
    assert Separator(s, 0) == 0 && Separator(s, 1) == 3;
    SearchIs(s, 1);
    assert s[4..] == "\n" && s[5..] == "";
    NothingToCut("\n");
    NothingToCut("");
    SearchSpec("\n");
    SearchSpec("");
    assert Closed(Cut([], "\n")) == [] && Closed(Cut([], "")) == [];
  }

  lemma NothingToCut(s: string)
    requires |s| <= 1
    ensures Drain(s) == Cut([], s)
  {
    SearchSpec(s);
  }
}
