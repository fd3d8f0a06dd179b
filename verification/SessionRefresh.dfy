/** Coalesced refreshes of the session list: one read at a time, requests that arrive meanwhile are
    collapsed into one trailing read. */
module SessionRefresh {
  import opened Text
  import opened Order

  datatype Session = Session(threadId: string, status: string)

  /** `pending` are the list reads under way, by start time; `inFlight` and `queued` are the two flags.
      The clock and the three times only serve to say how old the shown list is. */
  datatype Refresher = Refresher(inFlight: bool, queued: bool, shown: seq<Session>, pending: seq<nat>,
                                 clock: nat, shownFrom: nat, lastRequest: nat, lastReadFailed: bool)

  datatype Step = Request | Answer(list: seq<Session>) | Rejection

  function StartRead(s: Refresher): Refresher {
    s.(inFlight := true, queued := false, pending := s.pending + [s.clock])
  }

  function Tick(s: Refresher): Refresher {
    s.(clock := s.clock + 1)
  }

  function ByThread(locale: (string, string) -> bool): (Session, Session) -> bool {
    (a: Session, b: Session) => locale(a.threadId, b.threadId)
  }

  /** `refreshSessions`, split at its await. A step without a read under way does nothing. */
  function Next(s0: Refresher, step: Step, locale: (string, string) -> bool): Refresher {
    var s := Tick(s0);
    match step
    case Request =>
      var asked := s.(lastRequest := s.clock);
      if s.inFlight then asked.(queued := true) else StartRead(asked)
    case Answer(list) =>
      if s.pending == [] then s
      else
        var read := s.(shownFrom := s.pending[0], pending := s.pending[1..], lastReadFailed := false);
        var got := read.(shown := Sort(list, ByThread(locale)));
        if s.queued then StartRead(got) else got.(inFlight := false)
    case Rejection =>
      if s.pending == [] then s
      else s.(pending := s.pending[1..], inFlight := false, lastReadFailed := true)
  }

  function Run(steps: seq<Step>, locale: (string, string) -> bool): Refresher {
    if steps == [] then Refresher(false, false, [], [], 0, 0, 0, false)
    else Next(Run(steps[..|steps| - 1], locale), steps[|steps| - 1], locale)
  }

  ghost predicate Inv(s: Refresher) {
    && |s.pending| == (if s.inFlight then 1 else 0)
    && s.shownFrom <= s.clock && s.lastRequest <= s.clock
    && (s.inFlight ==>
          && s.shownFrom <= s.pending[0] <= s.clock
          && s.shownFrom < s.lastRequest
          && (s.queued <==> s.pending[0] < s.lastRequest))
    && (!s.inFlight ==> (s.lastReadFailed <==> s.shownFrom < s.lastRequest))
  }

  lemma {:induction false} RunInv(steps: seq<Step>, locale: (string, string) -> bool)
    ensures Inv(Run(steps, locale))
  {
    if steps != [] {
      RunInv(steps[..|steps| - 1], locale);
    }
  }

  /** In every run at most one read is under way, and whenever none is, the shown list is of a read
      started no earlier than the latest request if and only if the last read was not rejected. */
  lemma IdleListIsFresh(steps: seq<Step>, locale: (string, string) -> bool)
    ensures var s := Run(steps, locale);
            && |s.pending| <= 1
            && (!s.inFlight ==> (s.lastRequest <= s.shownFrom <==> !s.lastReadFailed))
  {
    RunInv(steps, locale);
  }

  /** The list of the last read that was answered. */
  function LastAnswer(steps: seq<Step>, locale: (string, string) -> bool): Option<seq<Session>> {
    if steps == [] then None
    else
      var front, last := steps[..|steps| - 1], steps[|steps| - 1];
      if last.Answer? && Run(front, locale).pending != [] then Some(last.list) else LastAnswer(front, locale)
  }

  /** Comparable by their threads: what makes the order of the list definite. */
  predicate Sortable(list: seq<Session>, locale: (string, string) -> bool) {
    Comparable(list, ByThread(locale))
  }

  /** The shown list is a listing of `list`, ascending by thread. */
  predicate Lists(shown: seq<Session>, list: seq<Session>, locale: (string, string) -> bool) {
    && multiset(shown) == multiset(list)
    && forall i, j :: 0 <= i < j < |shown| ==> locale(shown[i].threadId, shown[j].threadId)
  }

  lemma SortedLists(list: seq<Session>, locale: (string, string) -> bool)
    requires StrictOrder(ByThread(locale)) && Sortable(list, locale)
    ensures Lists(Sort(list, ByThread(locale)), list, locale)
  {
    SortAscending(list, ByThread(locale));
  }

  /** Over every run what is shown is the last answered list, all of it, ascending by thread; before any
      answer nothing is. A rejected read leaves the list as it was. */
  lemma {:induction false} ShownIsLastAnswer(steps: seq<Step>, locale: (string, string) -> bool)
    requires StrictOrder(ByThread(locale))
    requires forall step :: step in steps && step.Answer? ==> Sortable(step.list, locale)
    ensures var shown := Run(steps, locale).shown;
            match LastAnswer(steps, locale)
            case None => shown == []
            case Some(list) => Lists(shown, list, locale)
  {
    if steps != [] {
      var front, last := steps[..|steps| - 1], steps[|steps| - 1];
      assert last in steps;
      ShownIsLastAnswer(front, locale);
      if last.Answer? { SortedLists(last.list, locale); }
    }
  }

  lemma NextNoFailure(s: Refresher, step: Step, locale: (string, string) -> bool)
    requires step != Rejection && !s.lastReadFailed
    ensures !Next(s, step, locale).lastReadFailed
  {
  }

  lemma {:induction false} NoRejectionNoFailure(steps: seq<Step>, locale: (string, string) -> bool)
    requires Rejection !in steps
    ensures !Run(steps, locale).lastReadFailed
  {
    if steps != [] {
      var last := steps[|steps| - 1];
      assert last in steps;
      NoRejectionNoFailure(steps[..|steps| - 1], locale);
      NextNoFailure(Run(steps[..|steps| - 1], locale), last, locale);
    }
  }

  /** In particular where no list call rejects. */
  lemma NoRejectionNeverStale(steps: seq<Step>, locale: (string, string) -> bool)
    requires Rejection !in steps
    ensures var s := Run(steps, locale); !s.inFlight ==> s.lastRequest <= s.shownFrom
  {
    NoRejectionNoFailure(steps, locale);
    IdleListIsFresh(steps, locale);
  }

  /** A rejection drops a request that was waiting: the code comment's promise of a trailing read
      does not hold then. */
  lemma RejectionDropsTheQueue(locale: (string, string) -> bool)
    ensures var s := Run([Request, Request, Rejection], locale);
            !s.inFlight && s.queued && s.shownFrom < s.lastRequest
  {
    var steps := [Request, Request, Rejection];
    assert steps[..2] == [Request, Request] && steps[..2][..1] == [Request] && steps[..2][..1][..0] == [];
    assert Run([], locale).pending == [];
    assert Run([Request], locale).inFlight;
  }

  class SessionStore {
    var sessions: seq<Session>
    var refreshInFlight: bool
    var refreshQueued: bool
    const locale: (string, string) -> bool

    constructor (locale: (string, string) -> bool)
      ensures this.locale == locale && sessions == [] && !refreshInFlight && !refreshQueued
    {
      this.locale := locale;
      sessions, refreshInFlight, refreshQueued := [], false, false;
    }

    ghost predicate Matches(s: Refresher)
      reads this
    {
      sessions == s.shown && refreshInFlight == s.inFlight && refreshQueued == s.queued
    }

    /** A call of `refreshSessions` up to its await; says whether a list read was issued. */
    method Refresh(ghost before: Refresher) returns (issued: bool)
      requires Matches(before) && Inv(before)
      modifies this
      ensures Matches(Next(before, Request, locale))
      ensures issued <==> |Next(before, Request, locale).pending| == |before.pending| + 1
    {
      if refreshInFlight {
        refreshQueued := true;
        return false;
      }
      refreshInFlight := true;
      refreshQueued := false;
      return true;
    }

    /** The pending read resolved; says whether the loop goes round for one more. */
    method ListArrived(next: seq<Session>, ghost before: Refresher) returns (issued: bool)
      requires Matches(before) && Inv(before) && refreshInFlight
      modifies this
      ensures Matches(Next(before, Answer(next), locale))
      ensures issued <==> Next(before, Answer(next), locale).pending != []
    {
      sessions := Sort(next, ByThread(locale));
      if refreshQueued {
        refreshQueued := false;
        return true;
      }
      refreshInFlight := false;
      return false;
    }

    method ListRejected(ghost before: Refresher)
      requires Matches(before) && Inv(before) && refreshInFlight
      modifies this
      ensures Matches(Next(before, Rejection, locale))
    {
      refreshInFlight := false;
    }
  }
}
