/** The external review request: clients resend under one request id until they hold a receipt, the
    server inserts or ignores, looks up, loads, compares and answers, each as a step of its own. */
module ReviewProtocol {
  import opened Model
  import opened Text
  import K = ProducerKeys
  import S = SkillIdentity

  datatype Origin = Http | Cli | RemoteWeb | DeepLink | MessagingBot

  /** What a client asks for. */
  datatype Ask = Ask(reference: string, pr: nat, extraArgs: string, requestId: string, origin: Origin, notify: bool)

  datatype Project = Project(id: string, source: string, repo: string)

  /** A request as the server resolved it against the configuration of the moment. */
  datatype Request = Request(project: Project, pr: nat, extraArgs: string, requestId: string, origin: Origin,
                             notify: bool, receivedAt: nat)

  datatype Event = ReviewRequest(request: Request) | Observation(projectId: string)

  datatype Row = Row(key: string, event: Event, status: InboxStatus)

  datatype Phase =
    | Inserting
    | LookingUp
    | Loading(id: nat)
    | Comparing(id: nat, existing: Event)
    | Answering(id: nat)
    | Finished

  datatype Handler = Handler(ask: Ask, request: Request, phase: Phase)

  datatype Reason = Invalid | Missing | Conflict | NotifyFailed

  /** An acceptance is told apart by the ask it answers and by what the server resolved that ask to;
      the client itself is sent the receipt. */
  datatype Reply = Accepted(ask: Ask, request: Request, receipt: nat) | Refused(ask: Ask, reason: Reason)

  /** Messages in `requests` and `replies` may be delivered any number of times, or lost. */
  datatype World = World(config: map<string, Project>, rows: map<nat, Row>, nextId: nat,
                         requests: set<Ask>, handlers: seq<Handler>, replies: set<Reply>,
                         receipts: set<Reply>)

  // ---------------------------------------------------------------- the server's decisions

  function ExternalKey(requestId: string): string {
    "external:" + requestId
  }

  predicate ValidExtraArgs(extra: string) {
    Trim(extra, RustSpace) == "" || Trim(extra, RustSpace) == "--check"
  }

  function Resolve(config: map<string, Project>, ask: Ask, now: nat): Option<Request> {
    if ask.reference !in config || !ValidExtraArgs(ask.extraArgs) || ask.pr == 0 || !K.RequestId(ask.requestId)
       || Blank(config[ask.reference].id, RustSpace) then None
    else Some(Request(config[ask.reference], ask.pr, ask.extraArgs, ask.requestId, ask.origin, ask.notify, now))
  }

  /** `ensure_same_external_review_request` */
  predicate SameRequest(existing: Event, requested: Request) {
    match existing
    case Observation(_) => false
    case ReviewRequest(e) =>
      && e.project.source == requested.project.source
      && e.project.id == requested.project.id
      && e.project.repo == requested.project.repo
      && e.pr == requested.pr
      && e.extraArgs == requested.extraArgs
      && e.requestId == requested.requestId
      && e.origin == requested.origin
      && e.notify == requested.notify
  }

  // ---------------------------------------------------------------- the inbox table

  /** `MAX_INBOX_EVENTS` */
  const MAX_ROWS: nat := 5000

  predicate Prunable(row: Row) {
    row.status != Received && !row.event.ReviewRequest?
  }

  function OlderPrunable(rows: map<nat, Row>, id: nat): set<nat> {
    set j | j in rows && j < id && Prunable(rows[j])
  }

  /** Retention: the oldest prunable rows beyond the cap. */
  function Prune(rows: map<nat, Row>): map<nat, Row> {
    var excess := if |rows| > MAX_ROWS then |rows| - MAX_ROWS else 0;
    map id | id in rows && !(Prunable(rows[id]) && |OlderPrunable(rows, id)| < excess) :: rows[id]
  }

  predicate HasKey(rows: map<nat, Row>, key: string) {
    exists id :: id in rows && rows[id].key == key
  }

  function IdOf(rows: map<nat, Row>, key: string): Option<nat>
    requires forall i, j :: i in rows && j in rows && rows[i].key == rows[j].key ==> i == j
  {
    if HasKey(rows, key) then
      var id :| id in rows && rows[id].key == key;
      Some(id)
    else None
  }

  /** `INSERT ... ON CONFLICT(dedupe_key) DO NOTHING` and the prune, in one transaction. */
  function Insert(w: World, key: string, event: Event): World {
    if HasKey(w.rows, key) then w
    else w.(rows := Prune(w.rows[w.nextId := Row(key, event, Received)]), nextId := w.nextId + 1)
  }

  // ---------------------------------------------------------------- steps

  datatype Step =
    | Send(ask: Ask)
    | LoseRequest(ask: Ask)
    | Deliver(ask: Ask, skillResolves: bool, now: nat)
    | Advance(handler: nat, notifyStarts: bool)
    | LoseReply(reply: Reply)
    | Receive(reply: Reply)
    | Ingest(key: string, projectId: string)
    | Work(id: nat, status: InboxStatus)
    | Configure(config: map<string, Project>)

  function SetPhase(w: World, h: nat, phase: Phase): World
    requires h < |w.handlers|
  {
    w.(handlers := w.handlers[h := w.handlers[h].(phase := phase)])
  }

  function Answer(w: World, h: nat, reply: Reply): World
    requires h < |w.handlers|
  {
    SetPhase(w, h, Finished).(replies := w.replies + {reply})
  }

  ghost predicate KeysUnique(rows: map<nat, Row>) {
    forall i, j :: i in rows && j in rows && rows[i].key == rows[j].key ==> i == j
  }

  /** What a handler does next: store its request, go on, answer its client, or nothing. */
  datatype Outcome = Store | Move(phase: Phase) | Say(reply: Reply) | Rest

  ghost function Decide(rows: map<nat, Row>, handler: Handler, notifyStarts: bool): Outcome
    requires KeysUnique(rows)
  {
    var key := ExternalKey(handler.request.requestId);
    match handler.phase
    case Inserting => if HasKey(rows, key) then Move(LookingUp) else Store
    case LookingUp =>
      (match IdOf(rows, key)
       case None => Say(Refused(handler.ask, Missing))
       case Some(id) => Move(Loading(id)))
    case Loading(id) =>
      if id !in rows then Say(Refused(handler.ask, Missing)) else Move(Comparing(id, rows[id].event))
    case Comparing(id, existing) =>
      if SameRequest(existing, handler.request) then Move(Answering(id)) else Say(Refused(handler.ask, Conflict))
    case Answering(id) =>
      if handler.request.notify && !notifyStarts then Say(Refused(handler.ask, NotifyFailed))
      else Say(Accepted(handler.ask, handler.request, id))
    case Finished => Rest
  }

  /** The next step of one handler. */
  ghost function AdvanceHandler(w: World, h: nat, notifyStarts: bool): World
    requires h < |w.handlers| && KeysUnique(w.rows)
  {
    var request := w.handlers[h].request;
    match Decide(w.rows, w.handlers[h], notifyStarts)
    case Store => SetPhase(Insert(w, ExternalKey(request.requestId), ReviewRequest(request)), h, Answering(w.nextId))
    case Move(phase) => SetPhase(w, h, phase)
    case Say(reply) => Answer(w, h, reply)
    case Rest => w
  }

  /** A step that is not enabled changes nothing. Observations never use an `external:` key. */
  ghost function Next(w: World, step: Step): World
    requires KeysUnique(w.rows)
  {
    match step
    case Send(ask) => w.(requests := w.requests + {ask})
    case LoseRequest(ask) => w.(requests := w.requests - {ask})
    case Deliver(ask, skillResolves, now) =>
      if ask !in w.requests then w
      else
        (match Resolve(w.config, ask, now)
         case None => w.(replies := w.replies + {Refused(ask, Invalid)})
         case Some(request) =>
           if !skillResolves then w.(replies := w.replies + {Refused(ask, Invalid)})
           else w.(handlers := w.handlers + [Handler(ask, request, Inserting)]))
    case Advance(h, notifyStarts) => if h < |w.handlers| then AdvanceHandler(w, h, notifyStarts) else w
    case LoseReply(reply) => w.(replies := w.replies - {reply})
    case Receive(reply) => if reply in w.replies then w.(receipts := w.receipts + {reply}) else w
    case Ingest(key, projectId) => if ExternalKey("") <= key then w else Insert(w, key, Observation(projectId))
    case Work(id, status) => if id in w.rows then w.(rows := w.rows[id := w.rows[id].(status := status)]) else w
    case Configure(config) => w.(config := config)
  }

  function Start(config: map<string, Project>): World {
    World(config, map[], 1, {}, [], {}, {})
  }

  // ---------------------------------------------------------------- the invariant

  predicate FromAsk(request: Request, ask: Ask) {
    request.pr == ask.pr && request.extraArgs == ask.extraArgs && request.requestId == ask.requestId
    && request.origin == ask.origin && request.notify == ask.notify
  }

  ghost predicate RowsOk(rows: map<nat, Row>, nextId: nat) {
    && KeysUnique(rows) && 0 < nextId
    && forall id :: id in rows ==>
         && 0 < id < nextId
         && (rows[id].event.ReviewRequest? ==> rows[id].key == ExternalKey(rows[id].event.request.requestId))
         && (rows[id].event.Observation? ==> !(ExternalKey("") <= rows[id].key))
  }

  /** Row `id` is the row of this request id and records what `request` asks for. */
  ghost predicate Records(rows: map<nat, Row>, id: nat, request: Request) {
    id in rows && SameRequest(rows[id].event, request)
  }

  ghost predicate HandlerOk(rows: map<nat, Row>, h: Handler) {
    var key := ExternalKey(h.request.requestId);
    && FromAsk(h.request, h.ask)
    && match h.phase
       case Inserting => true
       case LookingUp => HasKey(rows, key)
       case Loading(id) => id in rows && rows[id].key == key
       case Comparing(id, existing) => id in rows && rows[id].key == key && rows[id].event == existing
       case Answering(id) => Records(rows, id, h.request)
       case Finished => true
  }

  ghost predicate ReplyOk(rows: map<nat, Row>, reply: Reply) {
    match reply
    case Accepted(ask, request, id) => Records(rows, id, request) && FromAsk(request, ask)
    case Refused(_, reason) => reason != Missing
  }

  ghost predicate Inv(w: World) {
    && RowsOk(w.rows, w.nextId)
    && (forall h :: h in w.handlers ==> HandlerOk(w.rows, h))
    && (forall r :: r in w.replies ==> ReplyOk(w.rows, r))
    && (forall r :: r in w.receipts ==> ReplyOk(w.rows, r))
  }

  /** Review rows stay, with their key and event. */
  ghost predicate Kept(before: map<nat, Row>, after: map<nat, Row>) {
    forall id :: id in before && before[id].event.ReviewRequest? ==>
      id in after && after[id].key == before[id].key && after[id].event == before[id].event
  }

  /** A row under an `external:` key is a review row. */
  lemma ExternalRowIsReview(rows: map<nat, Row>, nextId: nat, id: nat, requestId: string)
    requires RowsOk(rows, nextId) && id in rows && rows[id].key == ExternalKey(requestId)
    ensures rows[id].event.ReviewRequest? && rows[id].event.request.requestId == requestId
  {
    assert ExternalKey("") <= ExternalKey(requestId);
    assert ExternalKey(requestId)[9..] == requestId;
    if rows[id].event.ReviewRequest? {
      assert ExternalKey(rows[id].event.request.requestId)[9..] == rows[id].event.request.requestId;
    }
  }

  lemma HandlerKept(before: map<nat, Row>, after: map<nat, Row>, nextId: nat, h: Handler)
    requires RowsOk(before, nextId) && Kept(before, after) && HandlerOk(before, h)
    ensures HandlerOk(after, h)
  {
    match h.phase
    case Inserting =>
    case LookingUp =>
      var id :| id in before && before[id].key == ExternalKey(h.request.requestId);
      ExternalRowIsReview(before, nextId, id, h.request.requestId);
      assert id in after && after[id].key == ExternalKey(h.request.requestId);
    case Loading(id) => ExternalRowIsReview(before, nextId, id, h.request.requestId);
    case Comparing(id, existing) => ExternalRowIsReview(before, nextId, id, h.request.requestId);
    case Answering(id) =>
    case Finished =>
  }

  /** Changing only the rows, and keeping the review rows, keeps everything. */
  lemma RowChangeKeepsInv(w: World, rows: map<nat, Row>, nextId: nat)
    requires Inv(w) && Kept(w.rows, rows) && RowsOk(rows, nextId)
    ensures Inv(w.(rows := rows, nextId := nextId))
  {
    forall h | h in w.handlers ensures HandlerOk(rows, h) {
      HandlerKept(w.rows, rows, w.nextId, h);
    }
  }

  /** Retention keeps every row it may not prune, and changes none of those it keeps. */
  lemma PruneKeeps(rows: map<nat, Row>, id: nat)
    ensures id in Prune(rows) ==> id in rows && Prune(rows)[id] == rows[id]
    ensures id in rows && !Prunable(rows[id]) ==> id in Prune(rows)
  {
  }

  function Below(ids: set<nat>, id: nat): set<nat> {
    set j | j in ids && j < id
  }

  function Lowest(ids: set<nat>, k: nat): set<nat> {
    set id | id in ids && |Below(ids, id)| < k
  }

  lemma {:induction false} Greatest(ids: set<nat>) returns (m: nat)
    requires ids != {}
    ensures m in ids && forall id :: id in ids ==> id <= m
    decreases |ids|
  {
    var x :| x in ids;
    if ids == {x} {
      m := x;
    } else {
      assert ids - {x} != {} && |ids - {x}| < |ids|;
      m := Greatest(ids - {x});
      assert forall id :: id in ids ==> id == x || id in ids - {x};
      if m < x { m := x; }
    }
  }

  /** Exactly `k` of the ids have fewer than `k` below them, or all when there are no more. */
  lemma {:induction false} LowestCount(ids: set<nat>, k: nat)
    ensures |Lowest(ids, k)| == if |ids| < k then |ids| else k
    decreases |ids|
  {
    if ids == {} {
      assert Lowest(ids, k) == {};
    } else {
      var m := Greatest(ids);
      var rest := ids - {m};
      LowestCount(rest, k);
      forall id | id in rest ensures Below(ids, id) == Below(rest, id) {
        assert id <= m;
      }
      assert Below(ids, m) == rest;
      assert Lowest(ids, k) == Lowest(rest, k) + (if |rest| < k then {m} else {});
    }
  }

  function Prunables(rows: map<nat, Row>): set<nat> {
    set id | id in rows && rows[id].status != Received && rows[id].event.Observation?
  }

  /** Retention takes away finished observations only, no more of them than it takes to come down to the
      cap, and as many of them as there are up to that; and always the oldest. */
  lemma PruneExact(rows: map<nat, Row>)
    ensures var gone := rows.Keys - Prune(rows).Keys;
            var excess := if |rows| > 5000 then |rows| - 5000 else 0;
            && gone <= Prunables(rows) && Prune(rows).Keys <= rows.Keys
            && |gone| == (if |Prunables(rows)| < excess then |Prunables(rows)| else excess)
            && forall i, j :: i in gone && j in Prunables(rows) && j in Prune(rows) ==> i < j
  {
    var gone, p := rows.Keys - Prune(rows).Keys, Prunables(rows);
    var excess := if |rows| > 5000 then |rows| - 5000 else 0;
    forall id | id in rows ensures OlderPrunable(rows, id) == Below(p, id) && (Prunable(rows[id]) <==> id in p) {
    }
    assert gone == Lowest(p, excess);
    LowestCount(p, excess);
    forall i, j | i in gone && j in p && j in Prune(rows) ensures i < j {
      if j <= i { BelowGrows(p, j, i); }
    }
  }

  lemma BelowGrows(ids: set<nat>, j: nat, i: nat)
    requires j <= i
    ensures |Below(ids, j)| <= |Below(ids, i)|
  {
    assert Below(ids, i) == Below(ids, j) + (Below(ids, i) - Below(ids, j));
    assert Below(ids, j) <= Below(ids, i);
  }

  /** An insert under a new key adds one received row under the next id and lets retention run on the
      grown table; under a known key it changes nothing. Nothing else is touched. */
  lemma InsertExact(w: World, key: string, event: Event)
    requires RowsOk(w.rows, w.nextId)
    ensures var after := Insert(w, key, event);
            && after.config == w.config && after.requests == w.requests && after.handlers == w.handlers
            && after.replies == w.replies && after.receipts == w.receipts
            && (if exists id :: id in w.rows && w.rows[id].key == key then after == w
                else
                  && after.nextId == w.nextId + 1
                  && w.nextId in after.rows && after.rows[w.nextId].key == key
                  && after.rows[w.nextId].event == event && after.rows[w.nextId].status == Received
                  && forall id :: id in after.rows && id != w.nextId ==> id in w.rows && after.rows[id] == w.rows[id])
  {
    if !HasKey(w.rows, key) {
      var grown := w.rows[w.nextId := Row(key, event, Received)];
      forall id ensures (id in Prune(grown) ==> id in grown && Prune(grown)[id] == grown[id])
                        && (id in grown && !Prunable(grown[id]) ==> id in Prune(grown))
      {
        PruneKeeps(grown, id);
      }
    }
  }

  lemma PruneOk(rows: map<nat, Row>, nextId: nat)
    requires RowsOk(rows, nextId)
    ensures RowsOk(Prune(rows), nextId)
  {
    var left := Prune(rows);
    forall id | id in left ensures id in rows && left[id] == rows[id] {
      PruneKeeps(rows, id);
    }
  }

  lemma GrownOk(rows: map<nat, Row>, nextId: nat, row: Row)
    requires RowsOk(rows, nextId) && 0 < nextId && !HasKey(rows, row.key)
    requires row.event.ReviewRequest? ==> row.key == ExternalKey(row.event.request.requestId)
    requires row.event.Observation? ==> !(ExternalKey("") <= row.key)
    ensures RowsOk(rows[nextId := row], nextId + 1) && nextId !in rows
  {
  }

  lemma InsertOk(w: World, key: string, event: Event)
    requires Inv(w) && !HasKey(w.rows, key)
    requires event.ReviewRequest? ==> key == ExternalKey(event.request.requestId)
    requires event.Observation? ==> !(ExternalKey("") <= key)
    ensures Inv(Insert(w, key, event))
    ensures w.nextId in Insert(w, key, event).rows && Insert(w, key, event).rows[w.nextId].event == event
    ensures Kept(w.rows, Insert(w, key, event).rows)
  {
    var grown := w.rows[w.nextId := Row(key, event, Received)];
    GrownOk(w.rows, w.nextId, Row(key, event, Received));
    PruneOk(grown, w.nextId + 1);
    PruneKeeps(grown, w.nextId);
    var left := Prune(grown);
    forall id | id in w.rows && w.rows[id].event.ReviewRequest?
      ensures id in left && left[id] == w.rows[id]
    {
      PruneKeeps(grown, id);
    }
    RowChangeKeepsInv(w, left, w.nextId + 1);
  }

  lemma SetPhaseOk(w: World, h: nat, phase: Phase)
    requires Inv(w) && h < |w.handlers| && HandlerOk(w.rows, w.handlers[h].(phase := phase))
    ensures Inv(SetPhase(w, h, phase))
  {
    var moved := SetPhase(w, h, phase).handlers;
    forall x | x in moved ensures HandlerOk(w.rows, x) {
      var i :| 0 <= i < |moved| && moved[i] == x;
      assert i != h ==> x == w.handlers[i] && x in w.handlers;
    }
  }

  lemma AnswerOk(w: World, h: nat, reply: Reply)
    requires Inv(w) && h < |w.handlers| && ReplyOk(w.rows, reply)
    ensures Inv(Answer(w, h, reply))
  {
    assert w.handlers[h] in w.handlers;
    SetPhaseOk(w, h, Finished);
  }

  /** A handler goes on to a phase it may be in, and says only what is so. */
  lemma DecideOk(rows: map<nat, Row>, nextId: nat, handler: Handler, notifyStarts: bool)
    requires RowsOk(rows, nextId) && HandlerOk(rows, handler)
    ensures match Decide(rows, handler, notifyStarts)
            case Store => handler.phase.Inserting? && !HasKey(rows, ExternalKey(handler.request.requestId))
            case Move(phase) => HandlerOk(rows, handler.(phase := phase))
            case Say(reply) => ReplyOk(rows, reply)
            case Rest => handler.phase.Finished?
  {
  }

  lemma AdvanceOk(w: World, h: nat, notifyStarts: bool)
    requires Inv(w) && h < |w.handlers|
    ensures Inv(AdvanceHandler(w, h, notifyStarts))
  {
    var handler := w.handlers[h];
    assert handler in w.handlers;
    DecideOk(w.rows, w.nextId, handler, notifyStarts);
    match Decide(w.rows, handler, notifyStarts)
    case Store =>
      var key := ExternalKey(handler.request.requestId);
      InsertOk(w, key, ReviewRequest(handler.request));
      SetPhaseOk(Insert(w, key, ReviewRequest(handler.request)), h, Answering(w.nextId));
    case Move(phase) => SetPhaseOk(w, h, phase);
    case Say(reply) => AnswerOk(w, h, reply);
    case Rest =>
  }

  lemma WorkOk(w: World, id: nat, status: InboxStatus)
    requires Inv(w) && id in w.rows
    ensures Inv(w.(rows := w.rows[id := w.rows[id].(status := status)]))
  {
    RowChangeKeepsInv(w, w.rows[id := w.rows[id].(status := status)], w.nextId);
  }

  lemma DeliverOk(w: World, step: Step)
    requires Inv(w) && step.Deliver?
    ensures Inv(Next(w, step))
  {
    var after := Next(w, step);
    assert after.rows == w.rows && after.nextId == w.nextId && after.receipts == w.receipts;
    forall h | h in after.handlers ensures HandlerOk(w.rows, h) {
    }
    forall r | r in after.replies ensures ReplyOk(w.rows, r) {
    }
  }

  lemma NextOk(w: World, step: Step)
    requires Inv(w)
    ensures Inv(Next(w, step))
  {
    match step
    case Advance(h, notifyStarts) => if h < |w.handlers| { AdvanceOk(w, h, notifyStarts); }
    case Ingest(key, projectId) =>
      if !(ExternalKey("") <= key) && !HasKey(w.rows, key) { InsertOk(w, key, Observation(projectId)); }
    case Work(id, status) => if id in w.rows { WorkOk(w, id, status); }
    case Deliver(ask, skillResolves, now) => DeliverOk(w, step);
    case Send(ask) =>
    case LoseRequest(ask) =>
    case LoseReply(reply) =>
    case Receive(reply) =>
    case Configure(config) =>
  }

  /** `steps` lead from one world to another, in any interleaving of any number of clients and handlers. */
  ghost predicate Leads(start: World, steps: seq<Step>, w: World)
    decreases |steps|
  {
    if steps == [] then w == start
    else
      exists before ::
        && Leads(start, steps[..|steps| - 1], before)
        && KeysUnique(before.rows) && w == Next(before, steps[|steps| - 1])
  }

  ghost predicate Reached(config: map<string, Project>, steps: seq<Step>, w: World) {
    Leads(Start(config), steps, w)
  }

  lemma {:induction false} LeadsInv(start: World, steps: seq<Step>, w: World)
    requires Inv(start) && Leads(start, steps, w)
    ensures Inv(w)
    decreases |steps|
  {
    if steps != [] {
      var front, last := steps[..|steps| - 1], steps[|steps| - 1];
      var before :| Leads(start, front, before) && KeysUnique(before.rows) && w == Next(before, last);
      LeadsInv(start, front, before);
      NextOk(before, last);
    }
  }

  lemma ReachedInv(config: map<string, Project>, steps: seq<Step>, w: World)
    requires Reached(config, steps, w)
    ensures Inv(w)
  {
    LeadsInv(Start(config), steps, w);
  }

  // ---------------------------------------------------------------- where requests come from

  /** Whether this configuration can take the ask: its reference names a project, and its texts are good. */
  predicate Takes(config: map<string, Project>, ask: Ask) {
    && ask.reference in config && !Blank(config[ask.reference].id, RustSpace)
    && ask.pr > 0 && ValidExtraArgs(ask.extraArgs) && K.RequestId(ask.requestId)
  }

  predicate Padded(s: string, t: string, lead: string, tail: string) {
    Blank(lead, RustSpace) && Blank(tail, RustSpace) && s == lead + (t + tail)
  }

  /** `s` is `t` with any white space around it. */
  ghost predicate Pads(s: string, t: string) {
    exists lead: string, tail: string :: Padded(s, t, lead, tail)
  }

  lemma PadsIff(s: string, t: string)
    requires Trimmed(t, RustSpace)
    ensures Pads(s, t) <==> Trim(s, RustSpace) == t
  {
    var lead, tail := TrimIs(s, RustSpace);
    assert Padded(s, Trim(s, RustSpace), lead, tail);
    if lead': string, tail': string :| Padded(s, t, lead', tail') { TrimPadded(lead', t, tail', RustSpace); }
  }

  /** The arguments a request may have: none or the flag, with any space around. */
  lemma ExtraArgsExact(extra: string)
    ensures ValidExtraArgs(extra) <==> Pads(extra, "") || Pads(extra, "--check")
  {
    CheckIsTrimmed();
    PadsIff(extra, "");
    PadsIff(extra, "--check");
  }

  lemma CheckIsTrimmed()
    ensures Trimmed("--check", RustSpace) && Trimmed("", RustSpace)
  {
    assert "--check"[0] == '-' && "--check"[|"--check"| - 1] == 'k';
  }

  /** The request is this ask, for the project its reference names in this configuration. */
  predicate Resolves(config: map<string, Project>, ask: Ask, now: nat, request: Request) {
    && Takes(config, ask) && FromAsk(request, ask) && request.receivedAt == now
    && request.project.id == config[ask.reference].id
    && request.project.source == config[ask.reference].source
    && request.project.repo == config[ask.reference].repo
  }

  /** What resolving an ask means: it succeeds exactly for the asks the configuration takes, with the
      one request that records the ask and the project its reference names. */
  lemma ResolveExact(config: map<string, Project>, ask: Ask, now: nat, request: Request)
    ensures Resolve(config, ask, now).Some? <==> Takes(config, ask)
    ensures Resolve(config, ask, now) == Some(request) <==> Resolves(config, ask, now, request)
  {
  }

  /** Step `n` of the run delivered this ask in a world whose configuration made it this request. */
  ghost predicate ResolvedAt(config: map<string, Project>, steps: seq<Step>, n: nat, ask: Ask, request: Request) {
    n < |steps| && exists before :: Reached(config, steps[..n], before) && Delivers(before, steps[n], ask, request)
  }

  predicate Delivers(w: World, step: Step, ask: Ask, request: Request) {
    step.Deliver? && step.ask == ask && step.skillResolves && ask in w.requests
        && Resolves(w.config, ask, step.now, request)
  }

  ghost predicate WasResolved(config: map<string, Project>, steps: seq<Step>, ask: Ask, request: Request) {
    exists n :: ResolvedAt(config, steps, n, ask, request)
  }

  /** A handler works on this request, or its acceptance is under way or received. */
  ghost predicate Held(w: World, ask: Ask, request: Request) {
    || (exists h :: h in w.handlers && h.ask == ask && h.request == request)
    || (exists r :: r in w.replies + w.receipts && r.Accepted? && r.ask == ask && r.request == request)
  }

  ghost predicate Stored(rows: map<nat, Row>, request: Request) {
    exists id :: id in rows && rows[id].event == ReviewRequest(request)
  }

  lemma HandlerHeld(w: World, h: Handler)
    requires h in w.handlers
    ensures Held(w, h.ask, h.request)
  {
  }

  lemma ReplyHeld(w: World, r: Reply)
    requires r in w.replies + w.receipts && r.Accepted?
    ensures Held(w, r.ask, r.request)
  {
  }

  lemma OwnAnswer(rows: map<nat, Row>, handler: Handler, notifyStarts: bool)
    requires KeysUnique(rows) && Decide(rows, handler, notifyStarts).Say?
    ensures var reply := Decide(rows, handler, notifyStarts).reply;
            reply.ask == handler.ask && (reply.Accepted? ==> reply.request == handler.request)
  {
  }

  /** Advancing a handler changes no ask and no request, and only answers its own. */
  lemma AdvanceShape(w: World, h: nat, notifyStarts: bool)
    requires KeysUnique(w.rows) && h < |w.handlers|
    ensures var after := AdvanceHandler(w, h, notifyStarts);
      && |after.handlers| == |w.handlers| && after.receipts == w.receipts
      && (forall i :: 0 <= i < |w.handlers| ==>
            after.handlers[i].ask == w.handlers[i].ask && after.handlers[i].request == w.handlers[i].request)
      && forall r :: r in after.replies && r !in w.replies && r.Accepted? ==>
           r.ask == w.handlers[h].ask && r.request == w.handlers[h].request
  {
    if Decide(w.rows, w.handlers[h], notifyStarts).Say? { OwnAnswer(w.rows, w.handlers[h], notifyStarts); }
  }

  lemma DeliverShape(w: World, step: Step)
    requires KeysUnique(w.rows) && step.Deliver?
    ensures var after := Next(w, step);
      && (forall h :: h in after.handlers ==> h in w.handlers || Delivers(w, step, h.ask, h.request))
      && after.receipts == w.receipts && forall r :: r in after.replies && r.Accepted? ==> r in w.replies
  {
    match Resolve(w.config, step.ask, step.now)
    case None =>
    case Some(request) => ResolveExact(w.config, step.ask, step.now, request);
  }

  /** A delivery writes no row. It starts one handler, for what the ask is resolved to, exactly when the
      configuration takes the ask and the skill resolves; else the client is told that it is invalid. */
  lemma DeliverStarts(w: World, step: Step)
    requires KeysUnique(w.rows) && step.Deliver? && step.ask in w.requests
    ensures var after := Next(w, step);
      && after.rows == w.rows && after.config == w.config && after.receipts == w.receipts
      && (if Takes(w.config, step.ask) && step.skillResolves then
            && after.replies == w.replies && |after.handlers| == |w.handlers| + 1 && w.handlers <= after.handlers
            && after.handlers[|w.handlers|].phase == Inserting && after.handlers[|w.handlers|].ask == step.ask
            && Resolves(w.config, step.ask, step.now, after.handlers[|w.handlers|].request)
          else after.handlers == w.handlers && after.replies == w.replies + {Refused(step.ask, Invalid)})
  {
    match Resolve(w.config, step.ask, step.now)
    case None => ResolveNone(w.config, step.ask, step.now);
    case Some(request) => ResolveExact(w.config, step.ask, step.now, request);
  }

  lemma ResolveNone(config: map<string, Project>, ask: Ask, now: nat)
    ensures Resolve(config, ask, now).None? <==> !Takes(config, ask)
  {
  }

  lemma HandlersStep(w: World, step: Step, h: Handler)
    requires KeysUnique(w.rows) && h in Next(w, step).handlers
    ensures Held(w, h.ask, h.request) || Delivers(w, step, h.ask, h.request)
  {
    if h in w.handlers {
      HandlerHeld(w, h);
    } else if step.Deliver? {
      DeliverShape(w, step);
    } else if step.Advance? && step.handler < |w.handlers| {
      AdvanceShape(w, step.handler, step.notifyStarts);
      var after := AdvanceHandler(w, step.handler, step.notifyStarts).handlers;
      var i :| 0 <= i < |after| && after[i] == h;
      HandlerHeld(w, w.handlers[i]);
    }
  }

  lemma RepliesStep(w: World, step: Step, r: Reply)
    requires KeysUnique(w.rows) && r in Next(w, step).replies + Next(w, step).receipts && r.Accepted?
    ensures Held(w, r.ask, r.request)
  {
    if r in w.replies + w.receipts {
      ReplyHeld(w, r);
    } else if step.Deliver? {
      DeliverShape(w, step);
    } else if step.Advance? && step.handler < |w.handlers| {
      AdvanceShape(w, step.handler, step.notifyStarts);
      HandlerHeld(w, w.handlers[step.handler]);
    }
  }

  lemma RowsStep(w: World, step: Step, request: Request)
    requires KeysUnique(w.rows) && Stored(Next(w, step).rows, request)
    ensures Stored(w.rows, request) || exists ask :: Held(w, ask, request)
  {
    if step.Advance? && step.handler < |w.handlers| {
      var h := w.handlers[step.handler];
      HandlerHeld(w, h);
      InsertedStored(w, ExternalKey(h.request.requestId), ReviewRequest(h.request), request);
      AdvanceIds(w, step.handler, step.notifyStarts);
    } else if step.Ingest? {
      InsertedStored(w, step.key, Observation(step.projectId), request);
    } else if step.Work? && step.id in w.rows {
      WorkStored(w, step.id, step.status, request);
    }
  }

  lemma WorkStored(w: World, id: nat, status: InboxStatus, request: Request)
    requires id in w.rows && Stored(w.rows[id := w.rows[id].(status := status)], request)
    ensures Stored(w.rows, request)
  {
    var after := w.rows[id := w.rows[id].(status := status)];
    var i :| i in after && after[i].event == ReviewRequest(request);
    assert i in w.rows && w.rows[i].event == after[i].event;
  }

  lemma AdvanceIds(w: World, h: nat, notifyStarts: bool)
    requires KeysUnique(w.rows) && h < |w.handlers|
    ensures var request := w.handlers[h].request;
            var after, grown :=
                AdvanceHandler(w, h, notifyStarts), Insert(w, ExternalKey(request.requestId), ReviewRequest(request));
            || (after.rows == w.rows && after.nextId == w.nextId)
            || (after.rows == grown.rows && after.nextId == grown.nextId)
  {
    var request := w.handlers[h].request;
    match Decide(w.rows, w.handlers[h], notifyStarts)
    case Store =>
      var grown := Insert(w, ExternalKey(request.requestId), ReviewRequest(request));
      assert SetPhase(grown, h, Answering(w.nextId)).rows == grown.rows;
    case _ =>
  }

  lemma InsertedStored(w: World, key: string, event: Event, request: Request)
    ensures Stored(Insert(w, key, event).rows, request) ==> Stored(w.rows, request) || event == ReviewRequest(request)
  {
    var after := Insert(w, key, event).rows;
    if id :| id in after && after[id].event == ReviewRequest(request) {
      PruneKeeps(w.rows[w.nextId := Row(key, event, Received)], id);
      assert after[id].event == event || (id in w.rows && w.rows[id].event == after[id].event);
    }
  }

  /** Everything a handler, an acceptance or a row holds was resolved at a delivery of the run. */
  ghost predicate Stems(config: map<string, Project>, steps: seq<Step>, w: World) {
    && (forall ask, request :: Held(w, ask, request) ==> WasResolved(config, steps, ask, request))
    && (forall request :: Stored(w.rows, request) ==> exists ask :: WasResolved(config, steps, ask, request))
  }

  lemma SamePrefix(config: map<string, Project>, a: seq<Step>, b: seq<Step>, n: nat, ask: Ask, request: Request)
    requires n < |a| && n < |b| && a[..n] == b[..n] && a[n] == b[n] && ResolvedAt(config, a, n, ask, request)
    ensures ResolvedAt(config, b, n, ask, request)
  {
    var before :| Reached(config, a[..n], before) && Delivers(before, a[n], ask, request);
    assert Reached(config, b[..n], before) && Delivers(before, b[n], ask, request);
  }

  lemma StillResolved(config: map<string, Project>, steps: seq<Step>, ask: Ask, request: Request)
    requires steps != [] && WasResolved(config, steps[..|steps| - 1], ask, request)
    ensures WasResolved(config, steps, ask, request)
  {
    var front := steps[..|steps| - 1];
    var n :| ResolvedAt(config, front, n, ask, request);
    SamePrefix(config, front, steps, n, ask, request);
  }

  lemma HeldStems(config: map<string, Project>, steps: seq<Step>, before: World, ask: Ask, request: Request)
    requires steps != [] && Reached(config, steps[..|steps| - 1], before) && KeysUnique(before.rows)
    requires Stems(config, steps[..|steps| - 1], before) && Held(Next(before, steps[|steps| - 1]), ask, request)
    ensures WasResolved(config, steps, ask, request)
  {
    var last := steps[|steps| - 1];
    var w := Next(before, last);
    if h :| h in w.handlers && h.ask == ask && h.request == request {
      HandlersStep(before, last, h);
    } else {
      var r :| r in w.replies + w.receipts && r.Accepted? && r.ask == ask && r.request == request;
      RepliesStep(before, last, r);
    }
    if Held(before, ask, request) {
      StillResolved(config, steps, ask, request);
    } else {
      assert ResolvedAt(config, steps, |steps| - 1, ask, request);
    }
  }

  lemma {:induction false} ReachedStems(config: map<string, Project>, steps: seq<Step>, w: World)
    requires Reached(config, steps, w)
    ensures Stems(config, steps, w)
    decreases |steps|
  {
    if steps != [] {
      var front, last := steps[..|steps| - 1], steps[|steps| - 1];
      var before :| Reached(config, front, before) && KeysUnique(before.rows) && w == Next(before, last);
      ReachedInv(config, front, before);
      ReachedStems(config, front, before);
      forall ask, request | Held(w, ask, request) ensures WasResolved(config, steps, ask, request) {
        HeldStems(config, steps, before, ask, request);
      }
      forall request | Stored(w.rows, request) ensures exists ask :: WasResolved(config, steps, ask, request) {
        RowsStep(before, last, request);
        if ask :| Held(before, ask, request) { assert WasResolved(config, front, ask, request); }
        var ask :| WasResolved(config, front, ask, request);
        StillResolved(config, steps, ask, request);
      }
    }
  }

  // ---------------------------------------------------------------- the guarantees

  /** At most one inbox row per request id. */
  lemma OneRowPerRequestId(config: map<string, Project>, steps: seq<Step>, w: World, i: nat, j: nat)
    requires Reached(config, steps, w)
    requires i in w.rows && j in w.rows && w.rows[i].event.ReviewRequest? && w.rows[j].event.ReviewRequest?
    requires w.rows[i].event.request.requestId == w.rows[j].event.request.requestId
    ensures i == j
  {
    ReachedInv(config, steps, w);
  }

  /** All receipts clients hold for one request id are the id of one row that is still there. Each ask
      was delivered in a world whose configuration named, under its reference, the very project the row
      records, and the row records the ask in everything but the time of receipt: PR, arguments, id,
      origin and notification. So all of these clients asked for the same review. */
  lemma ReceiptsAgree(config: map<string, Project>, steps: seq<Step>, w: World, a: Reply, b: Reply)
    requires Reached(config, steps, w)
    requires a in w.receipts && b in w.receipts && a.Accepted? && b.Accepted?
    requires a.ask.requestId == b.ask.requestId
    ensures a.receipt == b.receipt && a.receipt in w.rows && w.rows[a.receipt].event.ReviewRequest?
    ensures var recorded := w.rows[a.receipt].event.request;
            recorded.(receivedAt := 0) == a.request.(receivedAt := 0) == b.request.(receivedAt := 0)
    ensures FromAsk(a.request, a.ask) && WasResolved(config, steps, a.ask, a.request)
    ensures FromAsk(b.request, b.ask) && WasResolved(config, steps, b.ask, b.request)
  {
    ReachedInv(config, steps, w);
    ReachedStems(config, steps, w);
    ReplyHeld(w, a);
    ReplyHeld(w, b);
  }

  /** A review row, too, records what some ask was resolved to when it was delivered. */
  lemma RowsAreResolved(config: map<string, Project>, steps: seq<Step>, w: World, id: nat)
    requires Reached(config, steps, w) && id in w.rows && w.rows[id].event.ReviewRequest?
    ensures exists ask :: WasResolved(config, steps, ask, w.rows[id].event.request)
  {
    ReachedStems(config, steps, w);
    assert Stored(w.rows, w.rows[id].event.request);
  }

  /** The two "receipt not found" errors cannot happen, and a handler about to accept has been
      compared with the very row it names, whatever ran in between. */
  lemma NoLostReceipt(config: map<string, Project>, steps: seq<Step>, w: World, h: Handler)
    requires Reached(config, steps, w) && h in w.handlers
    ensures forall r :: r in w.replies + w.receipts ==> !(r.Refused? && r.reason == Missing)
    ensures h.phase.Comparing? ==> h.phase.id in w.rows && w.rows[h.phase.id].event == h.phase.existing
    ensures h.phase.Answering? ==> h.phase.id in w.rows && SameRequest(w.rows[h.phase.id].event, h.request)
  {
    ReachedInv(config, steps, w);
  }

  lemma AdvanceKeepsRows(w: World, h: nat, notifyStarts: bool)
    requires Inv(w) && h < |w.handlers|
    ensures Kept(w.rows, AdvanceHandler(w, h, notifyStarts).rows)
  {
    var handler := w.handlers[h];
    assert handler in w.handlers;
    DecideOk(w.rows, w.nextId, handler, notifyStarts);
    if Decide(w.rows, handler, notifyStarts).Store? {
      InsertOk(w, ExternalKey(handler.request.requestId), ReviewRequest(handler.request));
    }
  }

  /** No step of any client, handler, ingester, worker or retention pass removes a review row or
      changes its key or its request: what one delivery was compared with, all later ones are too. */
  lemma ReviewRowsStay(w: World, step: Step)
    requires Inv(w)
    ensures Kept(w.rows, Next(w, step).rows)
  {
    if step.Advance? {
      if step.handler < |w.handlers| { AdvanceKeepsRows(w, step.handler, step.notifyStarts); }
    } else if step.Ingest? {
      if !(ExternalKey("") <= step.key) && !HasKey(w.rows, step.key) {
        InsertOk(w, step.key, Observation(step.projectId));
      }
    } else if !step.Work? {
      OtherStepRows(w, step);
    }
  }

  lemma InsertRows(w: World, key: string, event: Event, n: nat)
    requires RowsOk(w.rows, w.nextId)
    ensures var after := Insert(w, key, event);
      && w.nextId <= after.nextId
      && (n in after.rows ==> (n in w.rows && after.rows[n] == w.rows[n])
                              || (w.nextId <= n < after.nextId && after.rows[n].status == Received))
      && (n in w.rows && w.rows[n].status == Received ==> n in after.rows)
  {
    PruneKeeps(w.rows[w.nextId := Row(key, event, Received)], n);
  }

  /** Apart from the worker's, a step changes no row and no status: rows are new and `Received`, or as
      they were; and no `Received` row goes away. */
  lemma StepRows(w: World, step: Step, n: nat)
    requires Inv(w) && !step.Work?
    ensures var after := Next(w, step);
      && w.nextId <= after.nextId
      && (n in after.rows ==> (n in w.rows && after.rows[n] == w.rows[n])
                              || (w.nextId <= n < after.nextId && after.rows[n].status == Received))
      && (n in w.rows && w.rows[n].status == Received ==> n in after.rows)
  {
    if step.Advance? && step.handler < |w.handlers| {
      var request := w.handlers[step.handler].request;
      InsertRows(w, ExternalKey(request.requestId), ReviewRequest(request), n);
      AdvanceIds(w, step.handler, step.notifyStarts);
    } else if step.Ingest? {
      InsertRows(w, step.key, Observation(step.projectId), n);
    } else {
      OtherStepRows(w, step);
    }
  }

  lemma OtherStepRows(w: World, step: Step)
    requires KeysUnique(w.rows) && !step.Ingest? && !step.Work? && (step.Advance? ==> |w.handlers| <= step.handler)
    ensures Next(w, step).rows == w.rows && Next(w, step).nextId == w.nextId
  {
  }

  // ---------------------------------------------------------------- deliveries under a known request id

  /** Row `id` has the key of what handler `h` works on. */
  ghost predicate OnKnownRow(w: World, h: nat, id: nat) {
    h < |w.handlers| && id in w.rows && w.rows[id].key == ExternalKey(w.handlers[h].request.requestId)
  }

  /** Then every phase of the handler is about that row. */
  lemma KnownPhase(w: World, h: nat, id: nat)
    requires Inv(w) && OnKnownRow(w, h, id)
    ensures w.rows[id].event.ReviewRequest?
    ensures match w.handlers[h].phase
            case Loading(i) => i == id
            case Comparing(i, existing) => i == id && existing == w.rows[id].event
            case Answering(i) => i == id && SameRequest(w.rows[id].event, w.handlers[h].request)
            case _ => true
  {
    assert w.handlers[h] in w.handlers && HandlerOk(w.rows, w.handlers[h]);
    ExternalRowIsReview(w.rows, w.nextId, id, w.handlers[h].request.requestId);
  }

  function Rank(phase: Phase): nat {
    match phase
    case Inserting => 0
    case LookingUp => 1
    case Loading(_) => 2
    case Comparing(_, _) => 3
    case Answering(_) => 4
    case Finished => 5
  }

  /** What a delivery under a known id is told: a different request is a conflict, the same one gets the
      known receipt unless the notification it asks for cannot be started. */
  function Verdict(event: Event, handler: Handler, id: nat, notifyStarts: bool): Reply {
    if !SameRequest(event, handler.request) then Refused(handler.ask, Conflict)
    else if handler.request.notify && !notifyStarts then Refused(handler.ask, NotifyFailed)
    else Accepted(handler.ask, handler.request, id)
  }

  lemma KnownDecision(rows: map<nat, Row>, nextId: nat, handler: Handler, id: nat, notifyStarts: bool)
    requires RowsOk(rows, nextId) && id in rows && rows[id].key == ExternalKey(handler.request.requestId)
    requires match handler.phase
             case Loading(i) => i == id
             case Comparing(i, existing) => i == id && existing == rows[id].event
             case Answering(i) => i == id && SameRequest(rows[id].event, handler.request)
             case _ => true
    ensures match Decide(rows, handler, notifyStarts)
            case Store => false
            case Move(phase) => Rank(handler.phase) < Rank(phase) < 5
            case Say(reply) => Rank(handler.phase) < 5 && reply == Verdict(rows[id].event, handler, id, notifyStarts)
            case Rest => handler.phase == Finished
  {
    assert HasKey(rows, ExternalKey(handler.request.requestId));
  }

  /** A step of the handler itself writes nothing, and goes on or gives the verdict. */
  lemma KnownOwnStep(w: World, h: nat, id: nat, notifyStarts: bool)
    requires Inv(w) && OnKnownRow(w, h, id)
    ensures var before, after := w.handlers[h].phase, AdvanceHandler(w, h, notifyStarts);
      && after.rows == w.rows && after.nextId == w.nextId && |after.handlers| == |w.handlers|
      && (before == Finished ==> after == w)
      && (before != Finished ==> Rank(before) < Rank(after.handlers[h].phase))
      && after.replies
         == w.replies + (if before != Finished && after.handlers[h].phase == Finished
                         then {Verdict(w.rows[id].event, w.handlers[h], id, notifyStarts)} else {})
  {
    KnownPhase(w, h, id);
    KnownDecision(w.rows, w.nextId, w.handlers[h], id, notifyStarts);
  }

  /** Any other step leaves the handler as it is. */
  lemma OtherStepKeeps(w: World, step: Step, h: nat)
    requires KeysUnique(w.rows) && h < |w.handlers|
    ensures var after := Next(w, step);
      && h < |after.handlers|
      && after.handlers[h].ask == w.handlers[h].ask && after.handlers[h].request == w.handlers[h].request
      && (!OwnStep(step, h) ==> after.handlers[h] == w.handlers[h])
  {
    if step.Advance? && step.handler < |w.handlers| {
      AdvanceShape(w, step.handler, step.notifyStarts);
      if step.handler != h { AdvanceOthers(w, step.handler, step.notifyStarts, h); }
    }
  }

  predicate OwnStep(step: Step, h: nat) {
    step.Advance? && step.handler == h
  }

  lemma AdvanceOthers(w: World, g: nat, notifyStarts: bool, h: nat)
    requires KeysUnique(w.rows) && g < |w.handlers| && h < |w.handlers| && g != h
    ensures var after := AdvanceHandler(w, g, notifyStarts).handlers;
            |after| == |w.handlers| && after[h] == w.handlers[h]
  {
  }

  /** The row stays what it was, and the handler's. */
  lemma KnownStays(w: World, step: Step, h: nat, id: nat)
    requires Inv(w) && OnKnownRow(w, h, id)
    ensures Inv(Next(w, step)) && OnKnownRow(Next(w, step), h, id)
    ensures Next(w, step).rows[id].event == w.rows[id].event
    ensures Next(w, step).handlers[h].ask == w.handlers[h].ask
            && Next(w, step).handlers[h].request == w.handlers[h].request
  {
    KnownPhase(w, h, id);
    NextOk(w, step);
    ReviewRowsStay(w, step);
    OtherStepKeeps(w, step, h);
  }

  function OwnSteps(steps: seq<Step>, h: nat): nat {
    if steps == [] then 0
    else OwnSteps(steps[..|steps| - 1], h) + (if OwnStep(steps[|steps| - 1], h) then 1 else 0)
  }

  /** The handler is as far as its own steps since then have brought it. */
  ghost predicate Onward(start: World, w: World, steps: seq<Step>, h: nat, id: nat) {
    && OnKnownRow(start, h, id) && OnKnownRow(w, h, id) && w.rows[id].event == start.rows[id].event
    && w.handlers[h].ask == start.handlers[h].ask && w.handlers[h].request == start.handlers[h].request
    && (Rank(w.handlers[h].phase) >= Rank(start.handlers[h].phase) + OwnSteps(steps, h)
        || w.handlers[h].phase == Finished)
  }

  lemma OnwardStep(start: World, w: World, steps: seq<Step>, h: nat, id: nat)
    requires steps != [] && Inv(w) && Onward(start, w, steps[..|steps| - 1], h, id)
    ensures Inv(Next(w, steps[|steps| - 1])) && Onward(start, Next(w, steps[|steps| - 1]), steps, h, id)
  {
    var step := steps[|steps| - 1];
    KnownStays(w, step, h, id);
    OtherStepKeeps(w, step, h);
    if OwnStep(step, h) { KnownOwnStep(w, h, id, step.notifyStarts); }
  }

  lemma {:induction false} KnownRun(start: World, steps: seq<Step>, w: World, h: nat, id: nat)
    requires Inv(start) && OnKnownRow(start, h, id) && Leads(start, steps, w)
    ensures Inv(w) && Onward(start, w, steps, h, id)
    decreases |steps|
  {
    if steps != [] {
      var front, last := steps[..|steps| - 1], steps[|steps| - 1];
      var before :| Leads(start, front, before) && KeysUnique(before.rows) && w == Next(before, last);
      KnownRun(start, front, before, h, id);
      OnwardStep(start, before, steps, h, id);
    }
  }

  /** In this step the handler finishes, by giving this verdict. */
  ghost predicate Gives(w: World, step: Step, h: nat, verdict: Reply)
    requires KeysUnique(w.rows)
  {
    var after := Next(w, step);
    && h < |w.handlers| && h < |after.handlers|
    && w.handlers[h].phase != Finished && after.handlers[h].phase == Finished && after.replies == w.replies + {verdict}
  }

  /** Step `n` of the run is the handler's own, and gives the verdict on row `id`. */
  ghost predicate AnswersAt(start: World, steps: seq<Step>, n: nat, h: nat, id: nat)
    requires OnKnownRow(start, h, id)
  {
    n < |steps| && OwnStep(steps[n], h)
    && exists mid ::
         Leads(start, steps[..n], mid) && KeysUnique(mid.rows)
         && Gives(mid, steps[n], h, Verdict(start.rows[id].event, start.handlers[h], id, steps[n].notifyStarts))
  }

  lemma VerdictStays(event: Event, a: Handler, b: Handler, id: nat, notifyStarts: bool)
    requires a.ask == b.ask && a.request == b.request
    ensures Verdict(event, a, id, notifyStarts) == Verdict(event, b, id, notifyStarts)
  {
  }

  lemma FinishingStep(start: World, before: World, step: Step, steps: seq<Step>, h: nat, id: nat)
    requires Inv(before) && Onward(start, before, steps, h, id) && before.handlers[h].phase != Finished
    requires h < |Next(before, step).handlers| && Next(before, step).handlers[h].phase == Finished
    ensures OwnStep(step, h)
    ensures Gives(before, step, h, Verdict(start.rows[id].event, start.handlers[h], id, step.notifyStarts))
  {
    OtherStepKeeps(before, step, h);
    KnownOwnStep(before, h, id, step.notifyStarts);
    VerdictStays(start.rows[id].event, before.handlers[h], start.handlers[h], id, step.notifyStarts);
  }

  lemma {:induction false} FinishedAnswers(start: World, steps: seq<Step>, w: World, h: nat, id: nat) returns (n: nat)
    requires Inv(start) && OnKnownRow(start, h, id) && Leads(start, steps, w)
    requires start.handlers[h].phase != Finished && h < |w.handlers| && w.handlers[h].phase == Finished
    ensures AnswersAt(start, steps, n, h, id)
    decreases |steps|
  {
    var front, last := steps[..|steps| - 1], steps[|steps| - 1];
    var before :| Leads(start, front, before) && KeysUnique(before.rows) && w == Next(before, last);
    KnownRun(start, front, before, h, id);
    if before.handlers[h].phase == Finished {
      n := FinishedAnswers(start, front, before, h, id);
      AnswersInFront(start, steps, n, h, id);
    } else {
      FinishingStep(start, before, last, front, h, id);
      n := |steps| - 1;
    }
  }

  lemma AnswersInFront(start: World, steps: seq<Step>, n: nat, h: nat, id: nat)
    requires OnKnownRow(start, h, id) && steps != [] && AnswersAt(start, steps[..|steps| - 1], n, h, id)
    ensures AnswersAt(start, steps, n, h, id)
  {
    assert steps[..|steps| - 1][..n] == steps[..n] && steps[..|steps| - 1][n] == steps[n];
  }

  /** A delivery whose request id has a row, in any interleaving with all other steps: the row, its
      request and the handler's stay what they are; the handler's own steps bring it on, so that after
      five of them it has finished; and it has finished by the verdict on that row, a conflict exactly
      when the request differs and otherwise the known receipt unless the notification fails to start. */
  lemma KnownRequestId(start: World, steps: seq<Step>, w: World, h: nat, id: nat)
    requires Inv(start) && OnKnownRow(start, h, id) && Leads(start, steps, w)
    ensures OnKnownRow(w, h, id) && w.rows[id].event == start.rows[id].event
    ensures w.handlers[h].ask == start.handlers[h].ask && w.handlers[h].request == start.handlers[h].request
    ensures OwnSteps(steps, h) >= 5 ==> w.handlers[h].phase == Finished
    ensures start.handlers[h].phase != Finished && w.handlers[h].phase == Finished ==>
              exists n :: AnswersAt(start, steps, n, h, id)
  {
    KnownRun(start, steps, w, h, id);
    if start.handlers[h].phase != Finished && w.handlers[h].phase == Finished {
      SomewhereAnswered(start, steps, w, h, id);
    }
  }

  lemma SomewhereAnswered(start: World, steps: seq<Step>, w: World, h: nat, id: nat)
    requires Inv(start) && OnKnownRow(start, h, id) && Leads(start, steps, w)
    requires start.handlers[h].phase != Finished && h < |w.handlers| && w.handlers[h].phase == Finished
    ensures exists n :: AnswersAt(start, steps, n, h, id)
  {
    var n := FinishedAnswers(start, steps, w, h, id);
  }

  // ---------------------------------------------------------------- the first delivery, and a whole exchange

  lemma DecidesToStore(w: World, h: nat, first: bool)
    requires KeysUnique(w.rows) && h < |w.handlers| && w.handlers[h].phase == Inserting
    requires !HasKey(w.rows, ExternalKey(w.handlers[h].request.requestId))
    ensures var request := w.handlers[h].request;
            Next(w, Advance(h, first))
            == SetPhase(Insert(w, ExternalKey(request.requestId), ReviewRequest(request)), h, Answering(w.nextId))
  {
    assert Decide(w.rows, w.handlers[h], first) == Store;
  }

  lemma UnknownStores(w: World, h: nat, first: bool)
    requires Inv(w) && h < |w.handlers| && w.handlers[h].phase == Inserting
    requires !HasKey(w.rows, ExternalKey(w.handlers[h].request.requestId))
    ensures var handler, stored := w.handlers[h], Next(w, Advance(h, first));
            && KeysUnique(stored.rows) && OnKnownRow(stored, h, w.nextId) && stored.nextId == w.nextId + 1
            && stored.rows[w.nextId].event == ReviewRequest(handler.request)
            && stored.rows[w.nextId].status == Received
            && stored.replies == w.replies && stored.handlers == w.handlers[h := stored.handlers[h]]
            && stored.handlers[h] == handler.(phase := Answering(w.nextId))
  {
    var request := w.handlers[h].request;
    DecidesToStore(w, h, first);
    InsertExact(w, ExternalKey(request.requestId), ReviewRequest(request));
    NextOk(w, Advance(h, first));
  }

  lemma AnsweringStep(w: World, h: nat, id: nat, second: bool)
    requires KeysUnique(w.rows) && h < |w.handlers| && w.handlers[h].phase == Answering(id)
    ensures var handler, answered := w.handlers[h], Next(w, Advance(h, second));
            && answered.rows == w.rows && |answered.handlers| == |w.handlers| && answered.handlers[h].phase == Finished
            && answered.replies == w.replies + {if handler.request.notify && !second
                                                then Refused(handler.ask, NotifyFailed)
                                                else Accepted(handler.ask, handler.request, id)}
  {
  }

  /** The first delivery under a request id stores its request in a row of its own, and its next step
      answers with that row's id, unless the notification it asks for cannot be started. */
  lemma UnknownRequestId(w: World, h: nat, first: bool, second: bool)
    requires Inv(w) && h < |w.handlers| && w.handlers[h].phase == Inserting
    requires !HasKey(w.rows, ExternalKey(w.handlers[h].request.requestId))
    ensures var handler, stored := w.handlers[h], Next(w, Advance(h, first));
            && KeysUnique(stored.rows) && OnKnownRow(stored, h, w.nextId) && stored.nextId == w.nextId + 1
            && stored.rows[w.nextId].event == ReviewRequest(handler.request)
            && stored.rows[w.nextId].status == Received
            && stored.replies == w.replies
            && var answered := Next(stored, Advance(h, second));
               && answered.rows == stored.rows && h < |answered.handlers| && answered.handlers[h].phase == Finished
               && answered.replies == w.replies + {if handler.request.notify && !second
                                                   then Refused(handler.ask, NotifyFailed)
                                                   else Accepted(handler.ask, handler.request, w.nextId)}
  {
    UnknownStores(w, h, first);
    AnsweringStep(Next(w, Advance(h, first)), h, w.nextId, second);
  }

  /** What clients and the network do: a request that was sent can be delivered until it is lost, a reply
      received until it is lost, and what was received stays. None of it touches the server. */
  lemma ClientSteps(w: World, ask: Ask, reply: Reply)
    requires KeysUnique(w.rows)
    ensures var sent, lost := Next(w, Send(ask)), Next(w, LoseRequest(ask));
            && ask in sent.requests && ask !in lost.requests
            && (forall a :: a != ask ==> (a in sent.requests <==> a in w.requests)
                                         && (a in lost.requests <==> a in w.requests))
            && sent.(requests := {}) == w.(requests := {}) && lost.(requests := {}) == w.(requests := {})
    ensures forall config :: Next(w, Configure(config)) == w.(config := config)
    ensures var got, gone := Next(w, Receive(reply)), Next(w, LoseReply(reply));
            && (reply in w.replies ==> reply in got.receipts) && reply !in gone.replies
            && (forall r :: (r in got.receipts <==> r in w.receipts || (r == reply && r in w.replies))
                            && (r != reply ==> (r in gone.replies <==> r in w.replies)))
            && got.(receipts := {}) == w.(receipts := {}) && gone.(replies := {}) == w.(replies := {})
  {
  }

  lemma IngestIs(w: World, key: string, projectId: string)
    requires KeysUnique(w.rows)
    ensures Next(w, Ingest(key, projectId))
            == (if ExternalKey("") <= key then w else Insert(w, key, Observation(projectId)))
  {
  }

  /** An observation is stored under its key unless there is a row of that key or it is a request's. */
  lemma IngestStep(w: World, key: string, projectId: string)
    requires Inv(w)
    ensures var after := Next(w, Ingest(key, projectId));
            if ExternalKey("") <= key || HasKey(w.rows, key) then after == w
            else
              && w.nextId in after.rows && after.rows[w.nextId].key == key
              && after.rows[w.nextId].event == Observation(projectId) && after.rows[w.nextId].status == Received
  {
    IngestIs(w, key, projectId);
    InsertExact(w, key, Observation(projectId));
  }

  /** A status is the worker's to set; it changes nothing else. */
  lemma WorkStep(w: World, id: nat, status: InboxStatus)
    requires KeysUnique(w.rows)
    ensures var after := Next(w, Work(id, status));
            && after.rows.Keys == w.rows.Keys && after.(rows := map[]) == w.(rows := map[])
            && forall n :: n in w.rows ==> after.rows[n] == if n == id then w.rows[n].(status := status) else w.rows[n]
  {
  }

  lemma LeadsStep(start: World, steps: seq<Step>, w: World, step: Step)
    requires Leads(start, steps, w) && KeysUnique(w.rows)
    ensures Leads(start, steps + [step], Next(w, step))
  {
    assert (steps + [step])[..|steps + [step]| - 1] == steps;
  }

  lemma SentFirst(config: map<string, Project>, ask: Ask)
    ensures KeysUnique(Start(config).rows)
    ensures var w := Next(Start(config), Send(ask));
            w.rows == map[] && w.handlers == [] && w.config == config && ask in w.requests
  {
  }

  lemma SentAndDelivered(config: map<string, Project>, ask: Ask, now: nat) returns (steps: seq<Step>, w: World)
    requires Takes(config, ask)
    ensures Reached(config, steps, w) && w.rows == map[] && |w.handlers| == 1
    ensures w.handlers[0].phase == Inserting && w.handlers[0].ask == ask
    ensures Resolves(config, ask, now, w.handlers[0].request)
  {
    SentFirst(config, ask);
    var sent := Next(Start(config), Send(ask));
    assert Leads(Start(config), [], Start(config));
    LeadsStep(Start(config), [], Start(config), Send(ask));
    LeadsStep(Start(config), [] + [Send(ask)], sent, Deliver(ask, true, now));
    DeliverStarts(sent, Deliver(ask, true, now));
    steps, w := [] + [Send(ask)] + [Deliver(ask, true, now)], Next(sent, Deliver(ask, true, now));
  }

  /** Every ask the configuration takes can be accepted: sent, delivered, stored, answered and received it
      leaves its client with the id of its row. */
  lemma Exchange(config: map<string, Project>, ask: Ask, now: nat) returns (steps: seq<Step>, w: World, reply: Reply)
    requires Takes(config, ask)
    ensures Reached(config, steps, w) && reply in w.receipts && reply.Accepted? && reply.ask == ask
    ensures Resolves(config, ask, now, reply.request)
    ensures reply.receipt in w.rows && w.rows[reply.receipt].event == ReviewRequest(reply.request)
  {
    var first, started := SentAndDelivered(config, ask, now);
    steps, w, reply := Answered(config, first, started, 0);
  }

  /** From any moment of any run: a handler that starts on an unknown request id can have its client
      hold the new receipt three steps later. */
  lemma Answered(config: map<string, Project>, steps: seq<Step>, w: World, h: nat)
    returns (more: seq<Step>, end: World, reply: Reply)
    requires Reached(config, steps, w) && h < |w.handlers| && w.handlers[h].phase == Inserting
    requires !HasKey(w.rows, ExternalKey(w.handlers[h].request.requestId))
    ensures Reached(config, more, end) && reply in end.receipts
    ensures reply == Accepted(w.handlers[h].ask, w.handlers[h].request, w.nextId)
    ensures w.nextId in end.rows && end.rows[w.nextId].event == ReviewRequest(w.handlers[h].request)
  {
    ReachedInv(config, steps, w);
    UnknownRequestId(w, h, true, true);
    reply := Accepted(w.handlers[h].ask, w.handlers[h].request, w.nextId);
    var stored := Next(w, Advance(h, true));
    var answered := Next(stored, Advance(h, true));
    LeadsStep(Start(config), steps, w, Advance(h, true));
    LeadsStep(Start(config), steps + [Advance(h, true)], stored, Advance(h, true));
    LeadsStep(Start(config), steps + [Advance(h, true)] + [Advance(h, true)], answered, Receive(reply));
    ClientSteps(answered, w.handlers[h].ask, reply);
    more, end := steps + [Advance(h, true)] + [Advance(h, true)] + [Receive(reply)], Next(answered, Receive(reply));
  }

  /** None of its own steps in such a run writes a row. */
  lemma KnownNeverWrites(start: World, steps: seq<Step>, mid: World, h: nat, id: nat, n: nat)
    requires Inv(start) && OnKnownRow(start, h, id)
    requires n < |steps| && OwnStep(steps[n], h) && Leads(start, steps[..n], mid) && KeysUnique(mid.rows)
    ensures Next(mid, steps[n]).rows == mid.rows && Next(mid, steps[n]).nextId == mid.nextId
  {
    KnownRun(start, steps[..n], mid, h, id);
    KnownOwnStep(mid, h, id, steps[n].notifyStarts);
  }

  /** A client that resends the same ask is recognized exactly when its project reference still names
      the same project, source and repository. */
  lemma ResendRecognizedIff(then_: map<string, Project>, now_: map<string, Project>, ask: Ask, t: nat, u: nat)
    requires Resolve(then_, ask, t).Some? && Resolve(now_, ask, u).Some?
    ensures SameRequest(ReviewRequest(Resolve(then_, ask, t).value), Resolve(now_, ask, u).value)
            <==> then_[ask.reference] == now_[ask.reference]
  {
  }

  /** For example when the repository of the project was changed between two deliveries of one ask. */
  lemma RetargetedReference(ask: Ask, p: Project, repo: string, t: nat, u: nat)
    requires Resolve(map[ask.reference := p], ask, t).Some? && repo != p.repo
    ensures var first := Resolve(map[ask.reference := p], ask, t);
            var second := Resolve(map[ask.reference := p.(repo := repo)], ask, u);
            second.Some? && !SameRequest(ReviewRequest(first.value), second.value)
  {
    var then_, now_ := map[ask.reference := p], map[ask.reference := p.(repo := repo)];
    assert then_[ask.reference] == p && now_[ask.reference] == p.(repo := repo);
  }

  /** The comparison is an equivalence on requests, so "the same review" does not depend on which of
      several resends was stored. */
  lemma SameRequestEquivalence(a: Request, b: Request, c: Request)
    ensures SameRequest(ReviewRequest(a), a)
    ensures SameRequest(ReviewRequest(a), b) <==> SameRequest(ReviewRequest(b), a)
    ensures SameRequest(ReviewRequest(a), b) && SameRequest(ReviewRequest(b), c) ==> SameRequest(ReviewRequest(a), c)
    ensures SameRequest(ReviewRequest(a), b) <==> a.(receivedAt := 0) == b.(receivedAt := 0)
  {
  }

  lemma LeadingSpace(c: char, s: string)
    requires RustSpace(c)
    ensures Trim([c] + s, RustSpace) == Trim(s, RustSpace)
  {
    assert ([c] + s)[1..] == s;
  }

  lemma SameTrim(a: string, b: string)
    requires Trim(a, RustSpace) == Trim(b, RustSpace)
    ensures ValidExtraArgs(a) == ValidExtraArgs(b) && S.SkillKey("s", a) == S.SkillKey("s", b)
  {
  }

  /** Two spellings that trim to the same arguments resolve alike and select one skill key, but count
      as the same request only when they are the same text. */
  lemma SpellingsCompared(config: map<string, Project>, ask: Ask, now: nat, a: string, b: string)
    requires Resolve(config, ask.(extraArgs := a), now).Some? && Trim(a, RustSpace) == Trim(b, RustSpace)
    ensures Resolve(config, ask.(extraArgs := b), now).Some? && S.SkillKey("s", a) == S.SkillKey("s", b)
    ensures var stored := ReviewRequest(Resolve(config, ask.(extraArgs := a), now).value);
            SameRequest(stored, Resolve(config, ask.(extraArgs := b), now).value) == (a == b)
  {
    SameTrim(a, b);
  }

  /** Arguments are compared untrimmed, although they select the skill trimmed: whatever the accepted
      arguments are, the same review spelled with a leading space is refused under the same id. */
  lemma SpellingMatters(config: map<string, Project>, ask: Ask, now: nat)
    requires Resolve(config, ask, now).Some?
    ensures var spaced := ask.(extraArgs := [' '] + ask.extraArgs);
      && Resolve(config, spaced, now).Some? && S.SkillKey("s", spaced.extraArgs) == S.SkillKey("s", ask.extraArgs)
      && !SameRequest(ReviewRequest(Resolve(config, ask, now).value), Resolve(config, spaced, now).value)
  {
    LeadingSpace(' ', ask.extraArgs);
    assert ask == ask.(extraArgs := ask.extraArgs);
    SpellingsCompared(config, ask, now, ask.extraArgs, [' '] + ask.extraArgs);
  }
}
