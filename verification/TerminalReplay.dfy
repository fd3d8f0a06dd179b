/** The terminal store: the bounded replay ring of raw output, and what a pane that mounts late sees. */
module TerminalReplay {
  import opened Text

  /** `RAW_REPLAY_MAX_BYTES` */
  const CAP: nat := 256 * 1024

  type Chunk = seq<bv8>

  function Total(chunks: seq<Chunk>): nat {
    if chunks == [] then 0 else |chunks[0]| + Total(chunks[1..])
  }

  // ---------------------------------------------------------------- the ring

  function Shed(ring: seq<Chunk>, cap: nat): seq<Chunk> {
    if Total(ring) > cap && |ring| > 1 then Shed(ring[1..], cap) else ring
  }

  function Push(ring: seq<Chunk>, chunk: Chunk, cap: nat): seq<Chunk> {
    Shed(ring + [chunk], cap)
  }

  function Ring(pushed: seq<Chunk>, cap: nat): seq<Chunk> {
    if pushed == [] then [] else Push(Ring(pushed[..|pushed| - 1], cap), pushed[|pushed| - 1], cap)
  }

  predicate Suffix(part: seq<Chunk>, whole: seq<Chunk>) {
    |part| <= |whole| && part == whole[|whole| - |part|..]
  }

  /** Each of the `n` longest suffixes is too much. */
  ghost predicate TooMuch(whole: seq<Chunk>, n: int, cap: nat) {
    n <= |whole| && forall k :: 0 <= k < n ==> Total(whole[k..]) > cap
  }

  /** The longest suffix of whole chunks within the cap, or the last chunk alone. */
  ghost predicate LongestReplay(part: seq<Chunk>, whole: seq<Chunk>, cap: nat) {
    && Suffix(part, whole)
    && (whole != [] ==> part != [])
    && (Total(part) <= cap || |part| == 1)
    && TooMuch(whole, |whole| - |part|, cap)
  }

  lemma {:induction false} TotalAppend(a: seq<Chunk>, b: seq<Chunk>)
    ensures Total(a + b) == Total(a) + Total(b)
  {
    if a == [] {
      assert a + b == b;
    } else {
      assert (a + b)[0] == a[0] && (a + b)[1..] == a[1..] + b;
      TotalAppend(a[1..], b);
    }
  }

  lemma TooMuchFirst(ring: seq<Chunk>, n: int, cap: nat)
    requires ring != [] && Total(ring) > cap && TooMuch(ring[1..], n - 1, cap)
    ensures TooMuch(ring, n, cap)
  {
    forall k | 0 <= k < n ensures Total(ring[k..]) > cap {
      if k == 0 {
        assert ring[0..] == ring;
      } else {
        assert ring[1..][k - 1..] == ring[k..];
      }
    }
  }

  /** Shedding keeps a suffix, and everything it could have kept on top was too much. */
  lemma {:induction false} ShedKeepsSuffix(ring: seq<Chunk>, cap: nat)
    ensures Suffix(Shed(ring, cap), ring)
    ensures ring != [] ==> Shed(ring, cap) != []
    ensures Total(Shed(ring, cap)) <= cap || |Shed(ring, cap)| <= 1
    ensures TooMuch(ring, |ring| - |Shed(ring, cap)|, cap)
  {
    if Total(ring) > cap && |ring| > 1 {
      ShedKeepsSuffix(ring[1..], cap);
      TooMuchFirst(ring, |ring| - |Shed(ring, cap)|, cap);
    }
  }

  /** Whatever is pushed, the ring is the longest replay that fits. */
  lemma {:induction false} RingIsLongestReplay(pushed: seq<Chunk>, cap: nat)
    ensures LongestReplay(Ring(pushed, cap), pushed, cap)
  {
    if pushed != [] {
      var front, last := pushed[..|pushed| - 1], pushed[|pushed| - 1];
      RingIsLongestReplay(front, cap);
      PushLongest(Ring(front, cap), front, last, cap);
      assert pushed == front + [last];
    }
  }

  lemma PushLongest(part: seq<Chunk>, whole: seq<Chunk>, chunk: Chunk, cap: nat)
    requires LongestReplay(part, whole, cap)
    ensures LongestReplay(Push(part, chunk, cap), whole + [chunk], cap)
  {
    GrownReplay(part, whole, chunk, cap);
    ShedLongest(part + [chunk], whole + [chunk], cap);
  }

  lemma ShedLongest(grown: seq<Chunk>, all: seq<Chunk>, cap: nat)
    requires grown != [] && Suffix(grown, all) && TooMuch(all, |all| - |grown|, cap)
    ensures LongestReplay(Shed(grown, cap), all, cap)
  {
    ShedKeepsSuffix(grown, cap);
    SuffixTransitive(Shed(grown, cap), grown, all);
    TooMuchOnTop(grown, all, |grown| - |Shed(grown, cap)|, cap);
  }

  lemma SuffixTransitive(a: seq<Chunk>, b: seq<Chunk>, c: seq<Chunk>)
    requires Suffix(a, b) && Suffix(b, c)
    ensures Suffix(a, c)
  {
  }

  lemma TooMuchOnTop(grown: seq<Chunk>, all: seq<Chunk>, n: int, cap: nat)
    requires Suffix(grown, all) && TooMuch(all, |all| - |grown|, cap) && TooMuch(grown, n, cap)
    ensures TooMuch(all, |all| - |grown| + n, cap)
  {
    var skipped := |all| - |grown|;
    forall k | skipped <= k < skipped + n ensures Total(all[k..]) > cap {
      assert all[k..] == grown[k - skipped..];
    }
  }

  lemma GrownReplay(part: seq<Chunk>, whole: seq<Chunk>, chunk: Chunk, cap: nat)
    requires LongestReplay(part, whole, cap)
    ensures Suffix(part + [chunk], whole + [chunk])
    ensures TooMuch(whole + [chunk], |whole| - |part|, cap)
  {
    forall k | 0 <= k < |whole| - |part| ensures Total((whole + [chunk])[k..]) > cap {
      assert (whole + [chunk])[k..] == whole[k..] + [chunk];
      TotalAppend(whole[k..], [chunk]);
    }
  }

  /** There is only one longest replay, so the lemma above says all there is to say about the ring. */
  lemma LongestReplayUnique(a: seq<Chunk>, b: seq<Chunk>, whole: seq<Chunk>, cap: nat)
    requires LongestReplay(a, whole, cap) && LongestReplay(b, whole, cap)
    ensures a == b
  {
    NotShorter(a, b, whole, cap);
    NotShorter(b, a, whole, cap);
  }

  lemma NotShorter(a: seq<Chunk>, b: seq<Chunk>, whole: seq<Chunk>, cap: nat)
    requires LongestReplay(a, whole, cap) && LongestReplay(b, whole, cap)
    ensures |a| <= |b|
  {
    TooMuchAt(whole, |whole| - |b|, |whole| - |a|, cap);
  }

  lemma TooMuchAt(whole: seq<Chunk>, n: int, k: nat, cap: nat)
    requires TooMuch(whole, n, cap)
    ensures k < n ==> Total(whole[k..]) > cap
  {
  }

  // ---------------------------------------------------------------- the store

  datatype Connection = Idle | Attaching | Attached | Closed | Failed

  datatype Write = Raw(chunk: Chunk) | Frame(contents: string)

  datatype Event =
    | AttachedEvent(sessionId: string)
    | ScreenUpdate(sessionId: string, contents: string)
    | Output(sessionId: string, decoded: Option<Chunk>)
    | SessionEnded(sessionId: string)
    | SessionError(failing: Option<string>)

  /** `sink` holds what the mounted pane has been told to write since it registered. */
  datatype State = State(active: Option<string>, connection: Connection, latestScreen: Option<string>,
                         ring: seq<Chunk>, sink: Option<seq<Write>>)

  function Written(sink: Option<seq<Write>>, writes: seq<Write>): Option<seq<Write>> {
    match sink
    case None => None
    case Some(log) => Some(log + writes)
  }

  function RawWrites(chunks: seq<Chunk>): (writes: seq<Write>)
    ensures |writes| == |chunks|
    ensures forall i :: 0 <= i < |chunks| ==> writes[i] == Raw(chunks[i])
  {
    seq(|chunks|, i requires 0 <= i < |chunks| => Raw(chunks[i]))
  }

  function Apply(s: State, ev: Event): State {
    match ev
    case SessionError(None) => s.(connection := Failed)
    case SessionEnded(id) =>
      if s.active == Some(id) then State(None, Closed, None, [], s.sink) else s
    case SessionError(Some(id)) => if s.active == Some(id) then s.(connection := Failed) else s
    case AttachedEvent(id) => if s.active == Some(id) then s.(connection := Attached) else s
    case ScreenUpdate(id, contents) =>
      if s.active == Some(id) then
        s.(latestScreen := Some(contents), sink := Written(s.sink, [Frame(contents)]))
      else s
    case Output(id, decoded) =>
      if s.active == Some(id) && decoded.Some? then
        s.(ring := Push(s.ring, decoded.value, CAP), sink := Written(s.sink, [Raw(decoded.value)]))
      else s
  }

  function Register(s: State): State {
    s.(sink := Some(if s.latestScreen.Some? then [Frame(s.latestScreen.value)] else RawWrites(s.ring)))
  }

  function Attach(s: State, sessionId: string): State {
    State(Some(sessionId), Attaching, None, [], s.sink)
  }

  class TerminalStore {
    var active: Option<string>
    var connection: Connection
    var latestScreen: Option<string>
    var rawReplay: seq<Chunk>
    var rawReplayBytes: nat
    var screenSink: Option<seq<Write>>

    ghost predicate Valid()
      reads this
    {
      rawReplayBytes == Total(rawReplay)
    }

    ghost function Now(): State
      reads this
    {
      State(active, connection, latestScreen, rawReplay, screenSink)
    }

    constructor ()
      ensures Valid() && Now() == State(None, Idle, None, [], None)
    {
      active, connection, latestScreen := None, Idle, None;
      rawReplay, rawReplayBytes, screenSink := [], 0, None;
    }

    method PushRawReplay(bytes: Chunk)
      requires Valid()
      modifies this`rawReplay, this`rawReplayBytes
      ensures Valid() && rawReplay == Push(old(rawReplay), bytes, CAP)
    {
      TotalAppend(rawReplay, [bytes]);
      rawReplay := rawReplay + [bytes];
      rawReplayBytes := rawReplayBytes + |bytes|;
      while rawReplayBytes > CAP && |rawReplay| > 1
        invariant Valid() && Shed(rawReplay, CAP) == Push(old(rawReplay), bytes, CAP)
        decreases |rawReplay|
      {
        var dropped := rawReplay[0];
        rawReplay := rawReplay[1..];
        rawReplayBytes := rawReplayBytes - |dropped|;
      }
    }

    method ClearRawReplay()
      modifies this`rawReplay, this`rawReplayBytes
      ensures Valid() && rawReplay == []
    {
      rawReplay, rawReplayBytes := [], 0;
    }

    method RegisterScreenSink()
      requires Valid()
      modifies this`screenSink
      ensures Valid() && Now() == Register(old(Now()))
    {
      screenSink := Some([]);
      if latestScreen.Some? {
        screenSink := Some([Frame(latestScreen.value)]);
      } else {
        ghost var all := RawWrites(rawReplay);
        for i := 0 to |rawReplay|
          invariant screenSink == Some(all[..i])
        {
          screenSink := Some(screenSink.value + [Raw(rawReplay[i])]);
          assert all[..i + 1] == all[..i] + [all[i]];
        }
        assert all[..|rawReplay|] == all;
      }
    }

    method UnregisterScreenSink()
      requires Valid()
      modifies this`screenSink
      ensures Valid() && Now() == old(Now()).(sink := None)
    {
      screenSink := None;
    }

    /** The part of `attach` after the previous session was detached. */
    method AttachSession(sessionId: string)
      modifies this
      ensures Valid() && Now() == Attach(old(Now()), sessionId)
    {
      active := Some(sessionId);
      connection := Attaching;
      latestScreen := None;
      ClearRawReplay();
    }

    method ApplyEvent(ev: Event)
      requires Valid()
      modifies this
      ensures Valid() && Now() == Apply(old(Now()), ev)
    {
      if ev == SessionError(None) {
        connection := Failed;
        return;
      }
      if ev.SessionEnded? {
        if active == Some(ev.sessionId) {
          connection := Closed;
          active := None;
          latestScreen := None;
          ClearRawReplay();
        }
        return;
      }
      var target := if ev.SessionError? then ev.failing else Some(ev.sessionId);
      if target != active {
        return;
      }
      match ev {
        case AttachedEvent(_) =>
          connection := Attached;
        case ScreenUpdate(_, contents) =>
          latestScreen := Some(contents);
          screenSink := Written(screenSink, [Frame(contents)]);
        case Output(_, decoded) =>
          if decoded.Some? {
            PushRawReplay(decoded.value);
            screenSink := Written(screenSink, [Raw(decoded.value)]);
          }
        case SessionError(_) =>
          connection := Failed;
      }
    }
  }

  // ---------------------------------------------------------------- panes over a whole run

  datatype Step = Deliver(event: Event) | Mount | Unmount

  function StepState(s: State, step: Step): State {
    match step
    case Deliver(event) => Apply(s, event)
    case Mount => Register(s)
    case Unmount => s.(sink := None)
  }

  function Run(s: State, steps: seq<Step>): State {
    if steps == [] then s else StepState(Run(s, steps[..|steps| - 1]), steps[|steps| - 1])
  }

  /** The raw chunks session `id` produced during a run: the bytes since the attach. */
  function Produced(steps: seq<Step>, id: string): seq<Chunk> {
    if steps == [] then []
    else
      var front, last := steps[..|steps| - 1], steps[|steps| - 1];
      Produced(front, id) + Contributed(last, id)
  }

  /** A raw-output session that stays attached: it sends no full frames and does not end. Any events
      of other sessions, errors and remounts may occur in between. */
  predicate StaysRaw(steps: seq<Step>, id: string) {
    forall step :: step in steps && step.Deliver? ==>
      step.event != SessionEnded(id) && !(step.event.ScreenUpdate? && step.event.sessionId == id)
  }

  /** The log the pane already had at the attach, while that pane has neither been mounted anew nor unmounted. */
  function Carried(sink: Option<seq<Write>>, steps: seq<Step>): Option<seq<Write>> {
    if Mount in steps || Unmount in steps then None else sink
  }

  /** The log is a contiguous run of chunks that ends with the newest one and starts no later than the ring. */
  predicate Contiguous(log: seq<Write>, produced: seq<Chunk>, ring: seq<Chunk>) {
    |ring| <= |log| <= |produced| && log == RawWrites(produced[|produced| - |log|..])
  }

  /** What holds at every moment of such a run: a pane that was there at the attach has its old log and
      behind it everything produced since, any other pane a contiguous run of chunks. */
  ghost predicate Followed(now: State, id: string, produced: seq<Chunk>, carried: Option<seq<Write>>) {
    && now.active == Some(id) && now.latestScreen.None?
    && now.ring == Ring(produced, CAP)
    && match carried
       case Some(log) => now.sink == Some(log + RawWrites(produced))
       case None => now.sink.Some? ==> Contiguous(now.sink.value, produced, now.ring)
  }

  lemma RawWritesAppend(a: seq<Chunk>, chunk: Chunk)
    ensures RawWrites(a + [chunk]) == RawWrites(a) + [Raw(chunk)]
  {
  }

  /** A log that holds the newest chunks still does after one more. */
  lemma LogGrows(log: seq<Write>, produced: seq<Chunk>, ring: seq<Chunk>, chunk: Chunk, more: seq<Chunk>)
    requires Contiguous(log, produced, ring) && |more| <= |ring| + 1
    ensures Contiguous(log + [Raw(chunk)], produced + [chunk], more)
  {
    var from := |produced| - |log|;
    assert (produced + [chunk])[from..] == produced[from..] + [chunk];
    RawWritesAppend(produced[from..], chunk);
  }

  lemma RingStep(produced: seq<Chunk>, chunk: Chunk, cap: nat)
    ensures Ring(produced + [chunk], cap) == Push(Ring(produced, cap), chunk, cap)
    ensures |Ring(produced + [chunk], cap)| <= |Ring(produced, cap)| + 1
  {
    assert (produced + [chunk])[..|produced|] == produced;
    ShedKeepsSuffix(Ring(produced, cap) + [chunk], cap);
  }

  lemma FollowedOutput(before: State, id: string, produced: seq<Chunk>, chunk: Chunk, carried: Option<seq<Write>>)
    requires Followed(before, id, produced, carried)
    ensures Followed(Apply(before, Output(id, Some(chunk))), id, produced + [chunk], carried)
  {
    RingStep(produced, chunk, CAP);
    match carried
    case Some(log) => CarriedGrows(log, produced, chunk);
    case None =>
      if before.sink.Some? { LogGrows(before.sink.value, produced, before.ring, chunk, Ring(produced + [chunk], CAP)); }
  }

  lemma CarriedGrows(log: seq<Write>, produced: seq<Chunk>, chunk: Chunk)
    ensures (log + RawWrites(produced)) + [Raw(chunk)] == log + RawWrites(produced + [chunk])
  {
    RawWritesAppend(produced, chunk);
  }

  lemma FollowedMount(before: State, id: string, produced: seq<Chunk>, carried: Option<seq<Write>>)
    requires Followed(before, id, produced, carried)
    ensures Followed(Register(before), id, produced, None)
  {
    RingIsLongestReplay(produced, CAP);
  }

  function Contributed(step: Step, id: string): seq<Chunk> {
    if step.Deliver? && step.event.Output? && step.event.sessionId == id && step.event.decoded.Some?
    then [step.event.decoded.value] else []
  }

  lemma StepFollowed(before: State, id: string, produced: seq<Chunk>, step: Step, carried: Option<seq<Write>>)
    requires Followed(before, id, produced, carried)
    requires step.Deliver?
             ==> step.event != SessionEnded(id) && !(step.event.ScreenUpdate? && step.event.sessionId == id)
    ensures Followed(StepState(before, step), id, produced + Contributed(step, id),
                     if step.Deliver? then carried else None)
  {
    if step.Mount? {
      FollowedMount(before, id, produced, carried);
      assert produced + [] == produced;
    } else if Contributed(step, id) != [] {
      FollowedOutput(before, id, produced, step.event.decoded.value, carried);
    } else {
      assert produced + [] == produced;
    }
  }

  lemma CarriedStep(sink: Option<seq<Write>>, steps: seq<Step>)
    requires steps != []
    ensures var front, last := steps[..|steps| - 1], steps[|steps| - 1];
            Carried(sink, steps) == if last.Deliver? then Carried(sink, front) else None
  {
    assert steps == steps[..|steps| - 1] + [steps[|steps| - 1]];
  }

  lemma {:induction false} RunFollowed(s: State, id: string, steps: seq<Step>)
    requires StaysRaw(steps, id)
    ensures Followed(Run(Attach(s, id), steps), id, Produced(steps, id), Carried(s.sink, steps))
  {
    if steps == [] {
      if s.sink.Some? { assert s.sink.value + RawWrites([]) == s.sink.value; }
    } else {
      var front, last := steps[..|steps| - 1], steps[|steps| - 1];
      assert last in steps;
      RunFollowed(s, id, front);
      CarriedStep(s.sink, steps);
      StepFollowed(Run(Attach(s, id), front), id, Produced(front, id), last, Carried(s.sink, front));
    }
  }

  /** What a pane has been told to write at any moment of a raw session. Mounted, remounted or not yet
      there at the attach, it is one contiguous suffix of the chunks since the attach, at least as long
      as the longest replay that fits. A pane that was there already and stayed has everything since the
      attach behind what it showed of the session before. */
  lemma PaneLog(s: State, id: string, steps: seq<Step>)
    requires StaysRaw(steps, id)
    ensures var now, produced := Run(Attach(s, id), steps), Produced(steps, id);
      && now.ring == Ring(produced, CAP)
      && match Carried(s.sink, steps)
         case Some(log) => now.sink == Some(log + RawWrites(produced))
         case None => now.sink.Some? ==> Contiguous(now.sink.value, produced, now.ring)
  {
    RunFollowed(s, id, steps);
  }

  // ---------------------------------------------------------------- any session

  /** The session does not end; it may send raw output, full frames or both. */
  predicate Stays(steps: seq<Step>, id: string) {
    Deliver(SessionEnded(id)) !in steps
  }

  function OwnScreen(step: Step, id: string): Option<string> {
    if step.Deliver? && step.event.ScreenUpdate? && step.event.sessionId == id then Some(step.event.contents) else None
  }

  /** The newest full frame of `id`. */
  function LastScreen(steps: seq<Step>, id: string): Option<string> {
    if steps == [] then None
    else
      var own := OwnScreen(steps[|steps| - 1], id);
      if own.Some? then own else LastScreen(steps[..|steps| - 1], id)
  }

  /** What an event of `id` adds to a mounted pane. */
  function OwnWrites(step: Step, id: string): seq<Write> {
    if OwnScreen(step, id).Some? then [Frame(OwnScreen(step, id).value)] else RawWrites(Contributed(step, id))
  }

  function WritesOf(steps: seq<Step>, id: string): seq<Write> {
    if steps == [] then [] else WritesOf(steps[..|steps| - 1], id) + OwnWrites(steps[|steps| - 1], id)
  }

  predicate Attaches(step: Step, id: string) {
    step == Deliver(AttachedEvent(id))
  }

  /** An error of this session, or of the terminal as a whole. */
  predicate Fails(step: Step, id: string) {
    step == Deliver(SessionError(None)) || step == Deliver(SessionError(Some(id)))
  }

  function Linked(steps: seq<Step>, id: string): Connection {
    if steps == [] then Attaching
    else if Attaches(steps[|steps| - 1], id) then Attached
    else if Fails(steps[|steps| - 1], id) then Failed
    else Linked(steps[..|steps| - 1], id)
  }

  /** Everything but the pane, at every moment of such a session, from its own events alone. */
  predicate Tracks(now: State, id: string, steps: seq<Step>) {
    && now.active == Some(id) && now.connection == Linked(steps, id) && now.latestScreen == LastScreen(steps, id)
    && now.ring == Ring(Produced(steps, id), CAP)
  }

  function NewConnection(step: Step, id: string, before: Connection): Connection {
    if Attaches(step, id) then Attached else if Fails(step, id) then Failed else before
  }

  lemma StepIs(before: State, step: Step, id: string)
    requires before.active == Some(id) && step != Deliver(SessionEnded(id))
    ensures var now := StepState(before, step);
      && now.active == Some(id) && now.connection == NewConnection(step, id, before.connection)
      && now.latestScreen == (if OwnScreen(step, id).Some? then OwnScreen(step, id) else before.latestScreen)
      && now.ring == (if Contributed(step, id) == [] then before.ring
                      else Push(before.ring, Contributed(step, id)[0], CAP))
  {
  }

  lemma ProducedStep(front: seq<Chunk>, own: seq<Chunk>, cap: nat)
    requires |own| <= 1
    ensures Ring(front + own, cap) == (if own == [] then Ring(front, cap) else Push(Ring(front, cap), own[0], cap))
  {
    if own == [] {
      assert front + own == front;
    } else {
      assert own == [own[0]];
      RingStep(front, own[0], cap);
    }
  }

  lemma TracksStep(before: State, id: string, steps: seq<Step>)
    requires steps != [] && Tracks(before, id, steps[..|steps| - 1])
    requires steps[|steps| - 1] != Deliver(SessionEnded(id))
    ensures Tracks(StepState(before, steps[|steps| - 1]), id, steps)
  {
    var front, last := steps[..|steps| - 1], steps[|steps| - 1];
    StepIs(before, last, id);
    ProducedStep(Produced(front, id), Contributed(last, id), CAP);
  }

  lemma {:induction false} RunTracks(s: State, id: string, steps: seq<Step>)
    requires Stays(steps, id)
    ensures Tracks(Run(Attach(s, id), steps), id, steps)
  {
    if steps != [] {
      assert steps[|steps| - 1] in steps;
      RunTracks(s, id, steps[..|steps| - 1]);
      TracksStep(Run(Attach(s, id), steps[..|steps| - 1]), id, steps);
    }
  }

  /** What a pane is given when it registers. */
  function FirstWrites(screen: Option<string>, produced: seq<Chunk>): seq<Write> {
    if screen.Some? then [Frame(screen.value)] else RawWrites(Ring(produced, CAP))
  }

  lemma PaneStep(before: State, step: Step, id: string)
    requires before.active == Some(id) && before.sink.Some? && step.Deliver? && step.event != SessionEnded(id)
    ensures StepState(before, step).sink == Some(before.sink.value + OwnWrites(step, id))
  {
    assert before.sink.value + [] == before.sink.value;
    if Contributed(step, id) != [] { assert RawWrites(Contributed(step, id)) == [Raw(Contributed(step, id)[0])]; }
  }

  lemma OwnPart(b: seq<Step>, id: string)
    requires b != [] && Mount !in b && Unmount !in b && Stays(b, id)
    ensures var front, last := b[..|b| - 1], b[|b| - 1];
            Mount !in front && Unmount !in front && Stays(front, id)
            && last.Deliver? && last.event != SessionEnded(id)
  {
    assert b[|b| - 1] in b;
  }

  lemma {:induction false} RunAppend(s: State, a: seq<Step>, b: seq<Step>)
    ensures Run(s, a + b) == Run(Run(s, a), b)
  {
    if b == [] {
      assert a + b == a;
    } else {
      assert (a + b)[..|a + b| - 1] == a + b[..|b| - 1];
      RunAppend(s, a, b[..|b| - 1]);
    }
  }

  lemma RunOne(s: State, step: Step)
    ensures Run(s, [step]) == StepState(s, step)
  {
    assert [step][..0] == [] && Run(s, []) == s;
  }

  /** A pane that stays is given each of the session's own writes in order. */
  lemma {:induction false} StayingPane(t: State, id: string, b: seq<Step>)
    requires t.active == Some(id) && t.sink.Some? && Stays(b, id) && Mount !in b && Unmount !in b
    ensures Run(t, b).active == Some(id) && Run(t, b).sink == Some(t.sink.value + WritesOf(b, id))
  {
    if b == [] {
      assert t.sink.value + [] == t.sink.value;
    } else {
      var front, last := b[..|b| - 1], b[|b| - 1];
      OwnPart(b, id);
      StayingPane(t, id, front);
      StepIs(Run(t, front), last, id);
      PaneStep(Run(t, front), last, id);
      assert (t.sink.value + WritesOf(front, id)) + OwnWrites(last, id) == t.sink.value + WritesOf(b, id);
    }
  }

  /** A pane that registers in any session is first given the newest frame, or without one the longest
      replay of the raw output, and from then on each of the session's own writes in order. */
  lemma MountedPane(s: State, id: string, a: seq<Step>, b: seq<Step>)
    requires Stays(a, id) && Stays(b, id) && Mount !in b && Unmount !in b
    ensures var now := Run(Attach(s, id), a + ([Mount] + b));
            && now.active == Some(id)
            && now.sink == Some(FirstWrites(LastScreen(a, id), Produced(a, id)) + WritesOf(b, id))
  {
    RunAppend(Attach(s, id), a, [Mount] + b);
    var t := Run(Attach(s, id), a);
    RunAppend(t, [Mount], b);
    RunOne(t, Mount);
    RunTracks(s, id, a);
    StayingPane(Register(t), id, b);
  }

  /** Connection, newest frame and replay of an attached session follow from its own events alone. */
  lemma SessionTracked(s: State, id: string, steps: seq<Step>)
    requires Stays(steps, id)
    ensures var now := Run(Attach(s, id), steps);
            && now.active == Some(id) && now.connection == Linked(steps, id)
            && now.latestScreen == LastScreen(steps, id)
            && LongestReplay(now.ring, Produced(steps, id), CAP)
  {
    RunTracks(s, id, steps);
    RingIsLongestReplay(Produced(steps, id), CAP);
  }

  /** Nothing is attached, and nothing is left of what was. */
  predicate Gone(t: State) {
    t.active.None? && t.latestScreen.None? && t.ring == []
  }

  lemma GoneStep(t: State, step: Step)
    requires Gone(t)
    ensures var now := StepState(t, step);
      && Gone(now)
      && now.connection == (if step == Deliver(SessionError(None)) then Failed else t.connection)
      && now.sink == (match step
                      case Mount => Some([])
                      case Unmount => None
                      case Deliver(_) => t.sink)
  {
    if step.Mount? { assert RawWrites([]) == []; }
  }

  /** Once a session has ended nothing comes in any more, whatever is delivered: the terminal stays
      closed unless it fails as a whole, a pane keeps what it has, and a new one is given nothing. */
  lemma {:induction false} NothingComesIn(t: State, later: seq<Step>)
    requires Gone(t)
    ensures var now := Run(t, later);
            && Gone(now)
            && now.connection == (if Deliver(SessionError(None)) in later then Failed else t.connection)
            && (Mount !in later && Unmount !in later ==> now.sink == t.sink)
            && (now.sink.Some? ==> now.sink == t.sink || now.sink == Some([]))
  {
    if later != [] {
      var front, last := later[..|later| - 1], later[|later| - 1];
      NothingComesIn(t, front);
      GoneStep(Run(t, front), last);
      assert forall step :: step in later <==> step in front || step == last;
    }
  }

  /** The end of a session clears it and leaves the pane alone. */
  lemma EndedSession(s: State, id: string, steps: seq<Step>)
    requires Stays(steps, id)
    ensures var before := Run(Attach(s, id), steps);
            var ended := Run(Attach(s, id), steps + [Deliver(SessionEnded(id))]);
            Gone(ended) && ended.connection == Closed && ended.sink == before.sink
  {
    RunAppend(Attach(s, id), steps, [Deliver(SessionEnded(id))]);
    RunOne(Run(Attach(s, id), steps), Deliver(SessionEnded(id)));
    RunTracks(s, id, steps);
  }

  /** What a write shows: bytes one by one, or a full frame. */
  datatype Mark = Byte(b: bv8) | Full(contents: string)

  function MarksOf(write: Write): seq<Mark> {
    match write
    case Raw(chunk) => seq(|chunk|, i requires 0 <= i < |chunk| => Byte(chunk[i]))
    case Frame(contents) => [Full(contents)]
  }

  function Marks(log: seq<Write>): seq<Mark> {
    if log == [] then [] else MarksOf(log[0]) + Marks(log[1..])
  }

  lemma {:induction false} MarksAppend(a: seq<Write>, b: seq<Write>)
    ensures Marks(a + b) == Marks(a) + Marks(b)
  {
    if a == [] {
      assert a + b == b;
    } else {
      assert (a + b)[0] == a[0] && (a + b)[1..] == a[1..] + b;
      MarksAppend(a[1..], b);
    }
  }

  lemma MarksSplit(chunks: seq<Chunk>, k: nat)
    requires k <= |chunks|
    ensures Marks(RawWrites(chunks)) == Marks(RawWrites(chunks[..k])) + Marks(RawWrites(chunks[k..]))
  {
    assert RawWrites(chunks) == RawWrites(chunks[..k]) + RawWrites(chunks[k..]);
    MarksAppend(RawWrites(chunks[..k]), RawWrites(chunks[k..]));
  }

  predicate EndOf(part: seq<Mark>, whole: seq<Mark>) {
    |part| <= |whole| && part == whole[|whole| - |part|..]
  }

  /** Byte by byte the log shows the newest output, at least what the ring holds, and nothing else. */
  predicate ShowsSuffix(log: seq<Write>, produced: seq<Chunk>, ring: seq<Chunk>) {
    |Marks(RawWrites(ring))| <= |Marks(log)| && EndOf(Marks(log), Marks(RawWrites(produced)))
  }

  lemma EndOfConcat(a: seq<Mark>, b: seq<Mark>)
    ensures EndOf(b, a + b)
  {
  }

  lemma SuffixMarks(part: seq<Chunk>, whole: seq<Chunk>)
    requires Suffix(part, whole)
    ensures EndOf(Marks(RawWrites(part)), Marks(RawWrites(whole)))
  {
    var k := |whole| - |part|;
    MarksSplit(whole, k);
    EndOfConcat(Marks(RawWrites(whole[..k])), Marks(RawWrites(part)));
  }

  lemma TailHoldsRing(ring: seq<Chunk>, produced: seq<Chunk>, n: nat)
    requires Suffix(ring, produced) && |ring| <= n <= |produced|
    ensures Suffix(ring, produced[|produced| - n..]) && Suffix(produced[|produced| - n..], produced)
  {
  }

  lemma ContiguousShows(log: seq<Write>, produced: seq<Chunk>, ring: seq<Chunk>)
    requires Contiguous(log, produced, ring) && Suffix(ring, produced)
    ensures ShowsSuffix(log, produced, ring)
  {
    var tail := produced[|produced| - |log|..];
    TailHoldsRing(ring, produced, |log|);
    SuffixMarks(ring, tail);
    SuffixMarks(tail, produced);
  }

  lemma OldLogIff(log: seq<Write>, produced: seq<Chunk>, ring: seq<Chunk>)
    requires Suffix(ring, produced)
    ensures ShowsSuffix(log + RawWrites(produced), produced, ring) <==> Marks(log) == []
  {
    MarksAppend(log, RawWrites(produced));
    SuffixMarks(ring, produced);
    if Marks(log) == [] { assert Marks(log) + Marks(RawWrites(produced)) == Marks(RawWrites(produced)); }
  }

  /** So a mounted pane shows one contiguous suffix of the output since the attach exactly when it is
      new since the attach or showed nothing then. */
  lemma PaneContiguousIff(s: State, id: string, steps: seq<Step>)
    requires StaysRaw(steps, id) && Run(Attach(s, id), steps).sink.Some?
    ensures var now, produced := Run(Attach(s, id), steps), Produced(steps, id);
            ShowsSuffix(now.sink.value, produced, now.ring)
            <==> Carried(s.sink, steps).None? || Marks(Carried(s.sink, steps).value) == []
  {
    PaneLog(s, id, steps);
    var now, produced := Run(Attach(s, id), steps), Produced(steps, id);
    RingIsSuffix(produced, CAP);
    match Carried(s.sink, steps)
    case Some(log) => OldLogIff(log, produced, Ring(produced, CAP));
    case None => ContiguousShows(now.sink.value, produced, Ring(produced, CAP));
  }

  lemma RingIsSuffix(produced: seq<Chunk>, cap: nat)
    ensures Suffix(Ring(produced, cap), produced)
  {
    RingIsLongestReplay(produced, cap);
  }

  /** Switching from one raw session to another under a mounted pane: the old output stays in front. */
  lemma SwitchedPaneKeepsOldOutput(s: State, id: string, steps: seq<Step>, old_: Chunk, new_: Chunk)
    requires s.sink == Some([Raw(old_)]) && old_ != [] && |steps| == 1 && steps[0] == Deliver(Output(id, Some(new_)))
    ensures var now := Run(Attach(s, id), steps);
      && StaysRaw(steps, id) && Produced(steps, id) == [new_]
      && now.sink == Some([Raw(old_), Raw(new_)]) && !ShowsSuffix(now.sink.value, [new_], now.ring)
  {
    OneOutput(steps, id, new_);
    PaneLog(s, id, steps);
    TwoWrites(old_, new_);
    OldOutputShows(old_, [new_]);
  }

  lemma OldOutputShows(old_: Chunk, produced: seq<Chunk>)
    requires old_ != []
    ensures !ShowsSuffix([Raw(old_)] + RawWrites(produced), produced, Ring(produced, CAP))
  {
    RingIsSuffix(produced, CAP);
    OneMark(old_);
    OldLogIff([Raw(old_)], produced, Ring(produced, CAP));
  }

  lemma OneMark(chunk: Chunk)
    ensures Marks([Raw(chunk)]) == MarksOf(Raw(chunk))
  {
    assert [Raw(chunk)][1..] == [] && Marks([]) == [];
    assert MarksOf(Raw(chunk)) + [] == MarksOf(Raw(chunk));
  }

  lemma OneOutput(steps: seq<Step>, id: string, chunk: Chunk)
    requires |steps| == 1 && steps[0] == Deliver(Output(id, Some(chunk)))
    ensures StaysRaw(steps, id) && Mount !in steps && Unmount !in steps && Produced(steps, id) == [chunk]
  {
    assert steps[..0] == [] && Produced([], id) == [];
    assert [] + [chunk] == [chunk];
  }

  lemma TwoWrites(old_: Chunk, new_: Chunk)
    ensures [Raw(old_)] + RawWrites([new_]) == [Raw(old_), Raw(new_)]
  {
  }
}
