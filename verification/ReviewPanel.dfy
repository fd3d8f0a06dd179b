/** The review panel: streamed deltas folded into items, the window in which the started session's id
    is still unknown, and the merge with persisted history. */
module ReviewPanel {
  import opened Order
  import opened Text

  datatype Kind = Message | Reasoning | User

  datatype Item = Item(itemId: string, kind: Kind, text: string)

  datatype Event =
    | Delta(threadId: string, kind: Kind, itemId: string, text: string)
    | TurnCompleted(threadId: string, status: string)
    | SessionError(threadId: string, message: string)
    | DispatchError(projectId: string, notice: string)

  /** `buffer` is `inFlightBuffer`: present exactly while a start is in flight. */
  datatype Panel = Panel(active: Option<string>, running: bool, finalStatus: Option<string>,
                         error: Option<string>, items: seq<Item>, buffer: Option<seq<Event>>,
                         notices: map<string, string>)

  // ---------------------------------------------------------------- folding deltas

  /** First index holding `itemId`, or the length. */
  function IndexOf(items: seq<Item>, itemId: string): nat {
    FirstIndex(items, (x: Item) => x.itemId == itemId)
  }

  function AppendDelta(items: seq<Item>, kind: Kind, itemId: string, text: string): seq<Item> {
    var i := IndexOf(items, itemId);
    if i < |items| then items[i := items[i].(text := items[i].text + text)]
    else items + [Item(itemId, kind, text)]
  }

  function FoldFrom(items: seq<Item>, deltas: seq<Event>): seq<Item>
    requires forall d :: d in deltas ==> d.Delta?
  {
    if deltas == [] then items
    else
      var last := deltas[|deltas| - 1];
      AppendDelta(FoldFrom(items, deltas[..|deltas| - 1]), last.kind, last.itemId, last.text)
  }

  /** The deltas of one thread, in arrival order. */
  function Own(events: seq<Event>, threadId: string): (own: seq<Event>)
    ensures forall d :: d in own ==> d.Delta? && d.threadId == threadId
  {
    if events == [] then []
    else
      var last := events[|events| - 1];
      Own(events[..|events| - 1], threadId) + (if last.Delta? && last.threadId == threadId then [last] else [])
  }

  // ---------------------------------------------------------------- an independent reading of the fold

  /** Item ids in the order in which they first appear. */
  function FirstSeen(deltas: seq<Event>): (ids: seq<string>)
    requires forall d :: d in deltas ==> d.Delta?
  {
    if deltas == [] then []
    else
      var front, last := FirstSeen(deltas[..|deltas| - 1]), deltas[|deltas| - 1];
      if last.itemId in front then front else front + [last.itemId]
  }

  function TextOf(deltas: seq<Event>, itemId: string): string
    requires forall d :: d in deltas ==> d.Delta?
  {
    if deltas == [] then ""
    else
      var last := deltas[|deltas| - 1];
      TextOf(deltas[..|deltas| - 1], itemId) + (if last.itemId == itemId then last.text else "")
  }

  /** The kind of the first delta with this id, if there is one. */
  function FirstKind(deltas: seq<Event>, itemId: string): Option<Kind>
    requires forall d :: d in deltas ==> d.Delta?
  {
    if deltas == [] then None
    else
      var earlier, last := FirstKind(deltas[..|deltas| - 1], itemId), deltas[|deltas| - 1];
      if earlier.Some? then earlier else if last.itemId == itemId then Some(last.kind) else None
  }

  /** The item of this id: its first kind, and all its text in order. */
  predicate Gathers(item: Item, id: string, deltas: seq<Event>)
    requires forall d :: d in deltas ==> d.Delta?
  {
    item.itemId == id && Some(item.kind) == FirstKind(deltas, id) && item.text == TextOf(deltas, id)
  }

  /** The items are these ids, each once, and there is no delta of any other id. */
  ghost predicate Grouped(items: seq<Item>, ids: seq<string>, deltas: seq<Event>)
    requires forall d :: d in deltas ==> d.Delta?
  {
    && |items| == |ids|
    && (forall i :: 0 <= i < |ids| ==> Gathers(items[i], ids[i], deltas))
    && (forall i, j :: 0 <= i < j < |ids| ==> ids[i] != ids[j])
    && (forall id :: id !in ids ==> TextOf(deltas, id) == "" && FirstKind(deltas, id) == None)
  }

  lemma TextStep(deltas: seq<Event>, id: string)
    requires deltas != [] && forall d :: d in deltas ==> d.Delta?
    ensures var front, last := deltas[..|deltas| - 1], deltas[|deltas| - 1];
            && TextOf(deltas, id) == (if last.itemId == id then TextOf(front, id) + last.text else TextOf(front, id))
            && FirstKind(deltas, id) == (if FirstKind(front, id).None? && last.itemId == id then Some(last.kind)
                                         else FirstKind(front, id))
  {
    var front := deltas[..|deltas| - 1];
    assert TextOf(front, id) + "" == TextOf(front, id);
  }

  lemma IndexOfSeen(items: seq<Item>, ids: seq<string>, id: string)
    requires |items| == |ids| && forall i :: 0 <= i < |ids| ==> items[i].itemId == ids[i]
    ensures IndexOf(items, id) < |items| <==> id in ids
    ensures id in ids ==> ids[IndexOf(items, id)] == id
  {
    if id in ids {
      var j :| 0 <= j < |ids| && ids[j] == id;
      assert items[j].itemId == id;
    }
  }

  lemma GroupedStep(items: seq<Item>, ids: seq<string>, deltas: seq<Event>)
    requires deltas != [] && (forall d :: d in deltas ==> d.Delta?)
    requires Grouped(items, ids, deltas[..|deltas| - 1])
    ensures var last := deltas[|deltas| - 1];
            Grouped(AppendDelta(items, last.kind, last.itemId, last.text),
                    if last.itemId in ids then ids else ids + [last.itemId], deltas)
  {
    var last := deltas[|deltas| - 1];
    IndexOfSeen(items, ids, last.itemId);
    var after := if last.itemId in ids then ids else ids + [last.itemId];
    var grown := AppendDelta(items, last.kind, last.itemId, last.text);
    forall i | 0 <= i < |after| ensures Gathers(grown[i], after[i], deltas) {
      GroupedItem(items, ids, deltas, i);
    }
    forall id | id !in after ensures TextOf(deltas, id) == "" && FirstKind(deltas, id) == None {
      TextStep(deltas, id);
      assert last.itemId in after;
    }
  }

  lemma GroupedItem(items: seq<Item>, ids: seq<string>, deltas: seq<Event>, i: nat)
    requires deltas != [] && (forall d :: d in deltas ==> d.Delta?)
    requires Grouped(items, ids, deltas[..|deltas| - 1])
    ensures var last := deltas[|deltas| - 1];
            var after := if last.itemId in ids then ids else ids + [last.itemId];
            var grown := AppendDelta(items, last.kind, last.itemId, last.text);
            |grown| == |after|
            && (i < |after| ==> Gathers(grown[i], after[i], deltas))
  {
    var last := deltas[|deltas| - 1];
    IndexOfSeen(items, ids, last.itemId);
    if i < |ids| {
      assert Gathers(items[i], ids[i], deltas[..|deltas| - 1]);
      TextStep(deltas, ids[i]);
    } else {
      TextStep(deltas, last.itemId);
      assert "" + last.text == last.text;
    }
  }

  /** The folded items are the first-seen ids, each once, with the kind of its first delta and all its
      text in order. */
  lemma {:induction false} FoldGroups(deltas: seq<Event>)
    requires forall d :: d in deltas ==> d.Delta?
    ensures Grouped(FoldFrom([], deltas), FirstSeen(deltas), deltas)
  {
    if deltas != [] {
      FoldGroups(deltas[..|deltas| - 1]);
      GroupedStep(FoldFrom([], deltas[..|deltas| - 1]), FirstSeen(deltas[..|deltas| - 1]), deltas);
    }
  }

  // ---------------------------------------------------------------- transitions

  function Apply(s: Panel, ev: Event): Panel {
    if ev.DispatchError? then s.(notices := s.notices[ev.projectId := ev.notice])
    else if s.buffer.Some? && s.active.None? then s.(buffer := Some(s.buffer.value + [ev]))
    else if s.active.None? || s.active.value == "" || ev.threadId != s.active.value then s
    else
      match ev
      case Delta(_, kind, itemId, text) => s.(items := AppendDelta(s.items, kind, itemId, text))
      case TurnCompleted(_, status) => s.(running := false, finalStatus := Some(status))
      case SessionError(_, message) => s.(error := Some(message), running := false)
  }

  function ApplyAll(s: Panel, events: seq<Event>): Panel {
    if events == [] then s else Apply(ApplyAll(s, events[..|events| - 1]), events[|events| - 1])
  }

  /** `start` up to its await. A start already in flight makes it a no-op. */
  function Begin(s: Panel): Panel {
    if s.buffer.Some? then s else Panel(None, true, None, None, [], Some([]), s.notices)
  }

  /** `start` after its await: the id is known, the buffer is replayed. */
  function Resolve(s: Panel, id: string): Panel
    requires s.buffer.Some?
  {
    ApplyAll(s.(active := Some(id), buffer := None), s.buffer.value)
  }

  function Reject(s: Panel, message: string): Panel {
    s.(buffer := None, running := false, error := Some(message))
  }

  datatype Status = Starting | Running | Interrupting | Done | Failed

  function Focus(s: Panel, threadId: string, status: Status): Panel {
    var live := status.Starting? || status.Running? || status.Interrupting?;
    Panel(Some(threadId), live, if live then None else Some(if status.Failed? then "failed" else "completed"),
          None, [], s.buffer, s.notices)
  }

  function ClearFocus(s: Panel): Panel {
    Panel(None, false, None, None, [], s.buffer, s.notices)
  }

  predicate Has(items: seq<Item>, itemId: string) {
    exists i :: 0 <= i < |items| && items[i].itemId == itemId
  }

  /** The live items the history does not know, in order. */
  function Absent(live: seq<Item>, history: seq<Item>): seq<Item> {
    if live == [] then []
    else
      var last := live[|live| - 1];
      Absent(live[..|live| - 1], history) + (if Has(history, last.itemId) then [] else [last])
  }

  /** The history read of `focus` came back. */
  function HistoryLoaded(s: Panel, threadId: string, history: seq<Item>): Panel {
    if s.active != Some(threadId) then s else s.(items := history + Absent(s.items, history))
  }

  // ---------------------------------------------------------------- the store

  class ReviewStore {
    var active: Option<string>
    var running: bool
    var finalStatus: Option<string>
    var error: Option<string>
    var items: seq<Item>
    var inFlightBuffer: Option<seq<Event>>
    var dispatchError: map<string, string>

    ghost function Now(): Panel
      reads this
    {
      Panel(active, running, finalStatus, error, items, inFlightBuffer, dispatchError)
    }

    constructor ()
      ensures Now() == Panel(None, false, None, None, [], None, map[])
    {
      active, running, finalStatus, error := None, false, None, None;
      items, inFlightBuffer, dispatchError := [], None, map[];
    }

    method Append(kind: Kind, itemId: string, text: string)
      modifies this`items
      ensures items == AppendDelta(old(items), kind, itemId, text)
    {
      var i := IndexOf(items, itemId);
      if i < |items| {
        items := items[i := items[i].(text := items[i].text + text)];
      } else {
        items := items + [Item(itemId, kind, text)];
      }
    }

    method ApplyEvent(ev: Event)
      modifies this
      ensures Now() == Apply(old(Now()), ev)
    {
      if ev.DispatchError? {
        dispatchError := dispatchError[ev.projectId := ev.notice];
        return;
      }
      if inFlightBuffer.Some? && active.None? {
        inFlightBuffer := Some(inFlightBuffer.value + [ev]);
        return;
      }
      if active.None? || active.value == "" || ev.threadId != active.value {
        return;
      }
      match ev {
        case Delta(_, kind, itemId, text) =>
          Append(kind, itemId, text);
        case TurnCompleted(_, status) =>
          running := false;
          finalStatus := Some(status);
        case SessionError(_, message) =>
          error := Some(message);
          running := false;
      }
    }

    method BeginStart()
      modifies this
      ensures Now() == Begin(old(Now()))
    {
      if inFlightBuffer.Some? {
        return;
      }
      items, error, finalStatus, active, running := [], None, None, None, true;
      inFlightBuffer := Some([]);
    }

    method ResolveStart(id: string)
      requires inFlightBuffer.Some?
      modifies this
      ensures Now() == Resolve(old(Now()), id)
    {
      active := Some(id);
      var buffered := inFlightBuffer.value;
      inFlightBuffer := None;
      ghost var replaying := Now();
      for i := 0 to |buffered|
        invariant Now() == ApplyAll(replaying, buffered[..i])
      {
        assert buffered[..i + 1][..i] == buffered[..i];
        ApplyEvent(buffered[i]);
      }
      assert buffered[..|buffered|] == buffered;
    }

    method RejectStart(message: string)
      modifies this
      ensures Now() == Reject(old(Now()), message)
    {
      inFlightBuffer := None;
      running := false;
      error := Some(message);
    }

    method FocusSession(threadId: string, status: Status)
      modifies this
      ensures Now() == Focus(old(Now()), threadId, status)
    {
      active := Some(threadId);
      var live := status.Starting? || status.Running? || status.Interrupting?;
      running := live;
      items := [];
      error := None;
      finalStatus := if live then None else Some(if status.Failed? then "failed" else "completed");
    }

    method MergeHistory(threadId: string, history: seq<Item>)
      modifies this`items
      ensures Now() == HistoryLoaded(old(Now()), threadId, history)
    {
      if active != Some(threadId) {
        return;
      }
      var merged := history;
      var seen := set i | 0 <= i < |history| :: history[i].itemId;
      for k := 0 to |items|
        invariant merged == history + Absent(items[..k], history)
      {
        assert items[..k + 1][..k] == items[..k];
        assert items[k].itemId in seen <==> Has(history, items[k].itemId);
        if items[k].itemId !in seen {
          merged := merged + [items[k]];
        }
      }
      assert items[..|items|] == items;
      items := merged;
    }
  }

  // ---------------------------------------------------------------- the start window

  /** What may happen while the id of a started session is unknown. */
  datatype WindowStep =
    | Deliver(event: Event)
    | StartAgain
    | Unfocus
    | FocusOn(threadId: string, status: Status)
    | History(readFor: string, stored: seq<Item>)

  function WindowState(s: Panel, step: WindowStep): Panel {
    match step
    case Deliver(event) => Apply(s, event)
    case StartAgain => Begin(s)
    case Unfocus => ClearFocus(s)
    case FocusOn(threadId, status) => Focus(s, threadId, status)
    case History(threadId, stored) => HistoryLoaded(s, threadId, stored)
  }

  function Window(s: Panel, steps: seq<WindowStep>): Panel {
    if steps == [] then s else WindowState(Window(s, steps[..|steps| - 1]), steps[|steps| - 1])
  }

  function EventsOf(step: WindowStep): seq<Event> {
    if step.Deliver? && !step.event.DispatchError? then [step.event] else []
  }

  function Delivered(steps: seq<WindowStep>): seq<Event> {
    if steps == [] then [] else Delivered(steps[..|steps| - 1]) + EventsOf(steps[|steps| - 1])
  }

  /** The session focused last, if its focus was not dropped since. */
  function Focused(steps: seq<WindowStep>): Option<string> {
    if steps == [] then None else FocusAfter(Focused(steps[..|steps| - 1]), steps[|steps| - 1])
  }

  function FocusAfter(focused: Option<string>, step: WindowStep): Option<string> {
    match step
    case FocusOn(threadId, _) => Some(threadId)
    case Unfocus => None
    case _ => focused
  }

  /** The events that arrived while nothing was focused. */
  function Buffered(steps: seq<WindowStep>): seq<Event> {
    if steps == [] then []
    else
      var front, last := steps[..|steps| - 1], steps[|steps| - 1];
      Buffered(front) + (if Focused(front).None? then EventsOf(last) else [])
  }

  /** The events that arrived since the focus changed last. */
  function Since(steps: seq<WindowStep>): seq<Event> {
    if steps == [] || steps[|steps| - 1].FocusOn? || steps[|steps| - 1].Unfocus? then []
    else Since(steps[..|steps| - 1]) + EventsOf(steps[|steps| - 1])
  }

  /** What the focused session shows: its deltas since it was focused, behind its history once that is read. */
  function Shown(steps: seq<WindowStep>): seq<Item> {
    if steps == [] then []
    else ShownAfter(Shown(steps[..|steps| - 1]), Focused(steps[..|steps| - 1]), steps[|steps| - 1])
  }

  function ShownAfter(shown: seq<Item>, focused: Option<string>, step: WindowStep): seq<Item> {
    match step
    case FocusOn(_, _) => []
    case Unfocus => []
    case StartAgain => shown
    case History(threadId, stored) => if focused == Some(threadId) then stored + Absent(shown, stored) else shown
    case Deliver(event) =>
      if event.Delta? && event.threadId != "" && focused == Some(event.threadId)
      then AppendDelta(shown, event.kind, event.itemId, event.text)
      else shown
  }

  /** A window in which nothing is focused: all is buffered, nothing is shown. */
  predicate NoFocus(steps: seq<WindowStep>) {
    forall step :: step in steps ==> !step.FocusOn?
  }

  lemma {:induction false} NoFocusBuffersAll(steps: seq<WindowStep>)
    requires NoFocus(steps)
    ensures Focused(steps).None? && Buffered(steps) == Delivered(steps) && Shown(steps) == []
  {
    if steps != [] {
      assert steps[|steps| - 1] in steps;
      NoFocusBuffersAll(steps[..|steps| - 1]);
    }
  }

  /** Without a history read the focused session shows the fold of its deltas since it was focused. */
  lemma {:induction false} ShownFolds(steps: seq<WindowStep>, id: string)
    requires Focused(steps) == Some(id) && id != "" && forall step :: step in steps ==> !step.History?
    ensures Shown(steps) == FoldFrom([], Own(Since(steps), id))
  {
    var front, last := steps[..|steps| - 1], steps[|steps| - 1];
    assert last in steps;
    if !last.FocusOn? {
      ShownFolds(front, id);
      if EventsOf(last) == [] {
        assert Since(front) + [] == Since(front);
      } else {
        assert Since(steps) == Since(front) + [last.event] && Since(steps)[..|Since(front)|] == Since(front);
        FoldOwnLast([], Since(steps), id);
      }
    }
  }

  lemma FoldSnoc(items: seq<Item>, deltas: seq<Event>, ev: Event)
    requires ev.Delta? && (forall d :: d in deltas ==> d.Delta?) && (forall d :: d in deltas + [ev] ==> d.Delta?)
    ensures FoldFrom(items, deltas + [ev]) == AppendDelta(FoldFrom(items, deltas), ev.kind, ev.itemId, ev.text)
  {
    assert (deltas + [ev])[..|deltas + [ev]| - 1] == deltas;
  }

  lemma OwnLast(events: seq<Event>, id: string)
    requires events != []
    ensures var front, ev := events[..|events| - 1], events[|events| - 1];
            Own(events, id) == if ev.Delta? && ev.threadId == id then Own(front, id) + [ev] else Own(front, id)
  {
    assert Own(events[..|events| - 1], id) + [] == Own(events[..|events| - 1], id);
  }

  /** The last event adds itself to the fold of a thread's own deltas, or nothing. */
  lemma FoldOwnLast(items: seq<Item>, events: seq<Event>, id: string)
    requires events != []
    ensures var front, ev := events[..|events| - 1], events[|events| - 1];
            FoldFrom(items, Own(events, id))
            == (if ev.Delta? && ev.threadId == id
                then AppendDelta(FoldFrom(items, Own(front, id)), ev.kind, ev.itemId, ev.text)
                else FoldFrom(items, Own(front, id)))
  {
    OwnLast(events, id);
    var front, ev := events[..|events| - 1], events[|events| - 1];
    if ev.Delta? && ev.threadId == id { FoldSnoc(items, Own(front, id), ev); }
  }

  lemma StepIs(w: Panel, step: WindowStep)
    requires w.buffer.Some?
    ensures var after := WindowState(w, step);
      && after.active == FocusAfter(w.active, step)
      && after.items == ShownAfter(w.items, w.active, step)
      && after.buffer == Some(w.buffer.value + (if w.active.None? then EventsOf(step) else []))
  {
    assert w.buffer.value + [] == w.buffer.value;
  }

  /** The state of the panel in the window, whatever happens in it. */
  lemma {:induction false} WindowIs(s: Panel, steps: seq<WindowStep>)
    requires s.buffer == Some([]) && s.active.None? && s.items == []
    ensures var w := Window(s, steps);
            w.buffer == Some(Buffered(steps)) && w.active == Focused(steps) && w.items == Shown(steps)
  {
    if steps != [] {
      WindowIs(s, steps[..|steps| - 1]);
      StepIs(Window(s, steps[..|steps| - 1]), steps[|steps| - 1]);
    }
  }

  lemma FocusedStep(t: Panel, ev: Event, id: string)
    requires t.active == Some(id) && id != ""
    ensures var after := Apply(t, ev);
      && after.active == t.active && after.buffer == t.buffer
      && after.items == (if ev.Delta? && ev.threadId == id then AppendDelta(t.items, ev.kind, ev.itemId, ev.text)
          else t.items)
  {
  }

  /** A focused panel folds exactly its own thread's deltas, and buffers nothing, start in flight or not. */
  lemma {:induction false} FocusedFolds(s: Panel, id: string, events: seq<Event>)
    requires s.active == Some(id) && id != ""
    ensures var t := ApplyAll(s, events);
            t.active == Some(id) && t.buffer == s.buffer && t.items == FoldFrom(s.items, Own(events, id))
  {
    if events != [] {
      var front, last := events[..|events| - 1], events[|events| - 1];
      FocusedFolds(s, id, front);
      FocusedStep(ApplyAll(s, front), last, id);
      FoldOwnLast(s.items, events, id);
    }
  }

  lemma {:induction false} OwnAppend(a: seq<Event>, b: seq<Event>, id: string)
    ensures Own(a + b, id) == Own(a, id) + Own(b, id)
  {
    if b == [] {
      assert a + b == a;
      assert Own(a, id) + [] == Own(a, id);
    } else {
      assert (a + b)[..|a + b| - 1] == a + b[..|b| - 1];
      OwnAppend(a, b[..|b| - 1], id);
    }
  }

  lemma {:induction false} FoldAppend(items: seq<Item>, a: seq<Event>, b: seq<Event>)
    requires forall d :: d in a + b ==> d.Delta?
    requires forall d :: d in a ==> d.Delta?
    requires forall d :: d in b ==> d.Delta?
    ensures FoldFrom(items, a + b) == FoldFrom(FoldFrom(items, a), b)
  {
    if b == [] {
      assert a + b == a;
    } else {
      var front, last := b[..|b| - 1], b[|b| - 1];
      assert last in b && forall d :: d in a + front ==> d in a || d in b;
      FoldAppend(items, a, front);
      Snoc(a, b);
      FoldSnoc(items, a + front, last);
    }
  }

  lemma Snoc<T>(a: seq<T>, b: seq<T>)
    requires b != []
    ensures a + b == (a + b[..|b| - 1]) + [b[|b| - 1]]
  {
  }

  /** Whatever happens while the id is unknown, once it is known the panel shows what the focused
      session of that moment showed, and after it the started thread's own deltas in arrival order:
      those that arrived while nothing was focused and those of after the resolve. What arrived for it
      while another session was focused is lost. An empty id counts as no focus at all. */
  lemma FocusInWindow(s: Panel, window: seq<WindowStep>, id: string, later: seq<Event>)
    requires s.buffer.None?
    ensures var w := Window(Begin(s), window);
            && w.buffer.Some?
            && ApplyAll(Resolve(w, id), later).items
               == if id == "" then Shown(window) else FoldFrom(Shown(window), Own(Buffered(window) + later, id))
  {
    WindowIs(Begin(s), window);
    var w := Window(Begin(s), window);
    var replaying := w.(active := Some(id), buffer := None);
    if id == "" {
      UnfocusedKeeps(replaying, Buffered(window));
      UnfocusedKeeps(Resolve(w, id), later);
    } else {
      FocusedFolds(replaying, id, Buffered(window));
      FocusedFolds(Resolve(w, id), id, later);
      OwnAppend(Buffered(window), later, id);
      FoldAppend(Shown(window), Own(Buffered(window), id), Own(later, id));
    }
  }

  /** So as long as no session is focused in the meantime the panel ends up with the started thread's
      own deltas in arrival order, and nothing else, whatever arrives from whichever threads. */
  lemma StartedPanelShowsItsThread(s: Panel, window: seq<WindowStep>, id: string, later: seq<Event>)
    requires s.buffer.None? && NoFocus(window)
    ensures var w := Window(Begin(s), window);
            && w.buffer.Some?
            && ApplyAll(Resolve(w, id), later).items
               == if id == "" then [] else FoldFrom([], Own(Delivered(window) + later, id))
  {
    NoFocusBuffersAll(window);
    FocusInWindow(s, window, id, later);
  }

  lemma {:induction false} IdleKeeps(s: Panel, events: seq<Event>)
    requires s.buffer.None?
    ensures var t := ApplyAll(s, events);
            t.buffer.None? && t.active == s.active
            && (s.active.None? ==> t.items == s.items && t.running == s.running && t.error == s.error)
  {
    if events != [] {
      IdleKeeps(s, events[..|events| - 1]);
    }
  }

  /** A start that fails leaves nothing of its window: without a focused session the panel is empty,
      stopped and shows the error, whatever arrived before and arrives after; and what the next start
      shows, or the next focused session, depends on that start's or that session's own events alone. */
  lemma FailedStartIsForgotten(s: Panel, window: seq<WindowStep>, message: string, idle: seq<Event>,
                               again: seq<WindowStep>, id: string, status: Status, later: seq<Event>)
    requires s.buffer.None?
    ensures var w := Window(Begin(s), window);
            var failed := ApplyAll(Reject(w, message), idle);
            && failed.buffer.None?
            && (NoFocus(window) ==>
                  failed.active.None? && failed.items == [] && !failed.running && failed.error == Some(message))
            && Window(Begin(failed), again).buffer.Some?
            && ApplyAll(Resolve(Window(Begin(failed), again), id), later).items
               == (if id == "" then Shown(again) else FoldFrom(Shown(again), Own(Buffered(again) + later, id)))
            && (id != "" ==> ApplyAll(Focus(failed, id, status), later).items == FoldFrom([], Own(later, id)))
  {
    WindowIs(Begin(s), window);
    var failed := ApplyAll(Reject(Window(Begin(s), window), message), idle);
    IdleKeeps(Reject(Window(Begin(s), window), message), idle);
    if NoFocus(window) { NoFocusBuffersAll(window); }
    FocusInWindow(failed, again, id, later);
    if id != "" { FocusedFolds(Focus(failed, id, status), id, later); }
  }

  // ---------------------------------------------------------------- status, error and notices

  /** An event that ends the turn of `id`. */
  predicate Ends(ev: Event, id: string) {
    (ev.TurnCompleted? || ev.SessionError?) && ev.threadId == id
  }

  predicate StillRunning(events: seq<Event>, id: string) {
    forall ev :: ev in events ==> !Ends(ev, id)
  }

  function Or<T>(first: Option<T>, second: Option<T>): Option<T> {
    if first.Some? then first else second
  }

  /** The status of the last turn of `id` that completed. */
  function LastStatus(events: seq<Event>, id: string): Option<string> {
    if events == [] then None
    else
      var last := events[|events| - 1];
      if last.TurnCompleted? && last.threadId == id then Some(last.status)
      else LastStatus(events[..|events| - 1], id)
  }

  /** The last error of `id`. */
  function LastError(events: seq<Event>, id: string): Option<string> {
    if events == [] then None
    else
      var last := events[|events| - 1];
      if last.SessionError? && last.threadId == id then Some(last.message)
      else LastError(events[..|events| - 1], id)
  }

  /** The last dispatch notice of a project. */
  function LastNotice(events: seq<Event>, projectId: string): Option<string> {
    if events == [] then None
    else
      var last := events[|events| - 1];
      if last.DispatchError? && last.projectId == projectId then Some(last.notice)
      else LastNotice(events[..|events| - 1], projectId)
  }

  /** What `id` has come to: it runs until an event of its own ends it, and shows its last status and
      its last error, or what was shown before. */
  predicate Settled(before: Panel, after: Panel, events: seq<Event>, id: string) {
    && (after.running <==> before.running && StillRunning(events, id))
    && after.finalStatus == Or(LastStatus(events, id), before.finalStatus)
    && after.error == Or(LastError(events, id), before.error)
  }

  lemma SettledStep(before: Panel, t: Panel, events: seq<Event>, id: string)
    requires events != [] && t.active == Some(id) && id != ""
    requires Settled(before, t, events[..|events| - 1], id)
    ensures Settled(before, Apply(t, events[|events| - 1]), events, id)
  {
    var front, last := events[..|events| - 1], events[|events| - 1];
    assert last in events && forall ev :: ev in events <==> ev in front || ev == last;
    assert StillRunning(events, id) <==> StillRunning(front, id) && !Ends(last, id);
  }

  /** A focused panel settles by the events of its own thread alone. */
  lemma {:induction false} FocusedSettles(s: Panel, id: string, events: seq<Event>)
    requires s.active == Some(id) && id != ""
    ensures Settled(s, ApplyAll(s, events), events, id)
  {
    if events != [] {
      FocusedFolds(s, id, events[..|events| - 1]);
      FocusedSettles(s, id, events[..|events| - 1]);
      SettledStep(s, ApplyAll(s, events[..|events| - 1]), events, id);
    }
  }

  /** A session that is focused shows its listed status until events of its own change it. */
  lemma OpenedSettles(s: Panel, id: string, status: Status, events: seq<Event>)
    requires id != ""
    ensures var t := ApplyAll(Focus(s, id, status), events);
            && t.active == Some(id) && t.buffer == s.buffer
            && (t.running <==> status !in {Done, Failed} && StillRunning(events, id))
            && t.error == LastError(events, id)
            && t.finalStatus == Or(LastStatus(events, id),
                                   match status
                                   case Done => Some("completed")
                                   case Failed => Some("failed")
                                   case _ => None)
  {
    FocusedFolds(Focus(s, id, status), id, events);
    FocusedSettles(Focus(s, id, status), id, events);
  }

  /** A start resets the panel, and a window without a focus leaves it so; only dropping the focus
      makes it look stopped. */
  lemma {:induction false} WaitingPanel(s: Panel, window: seq<WindowStep>)
    requires s.buffer.None? && NoFocus(window)
    ensures var w := Window(Begin(s), window);
            && w.buffer == Some(Delivered(window)) && w.active.None? && w.items == []
            && w.finalStatus.None? && w.error.None?
            && (w.running <==> Unfocus !in window)
  {
    if window != [] {
      var front, last := window[..|window| - 1], window[|window| - 1];
      assert last in window && forall step :: step in window <==> step in front || step == last;
      WaitingPanel(s, front);
      assert Delivered(front) + [] == Delivered(front);
    }
  }

  /** A started session, once its id is known, has come to what its own events say, those of the window
      and those after it. */
  lemma StartedPanelSettles(s: Panel, window: seq<WindowStep>, id: string, later: seq<Event>)
    requires s.buffer.None? && NoFocus(window) && id != ""
    ensures var w := Window(Begin(s), window);
            var events := Delivered(window) + later;
            && w.buffer.Some?
            && var t := ApplyAll(Resolve(w, id), later);
               && t.active == Some(id) && t.buffer.None?
               && (t.running <==> Unfocus !in window && StillRunning(events, id))
               && t.finalStatus == LastStatus(events, id)
               && t.error == LastError(events, id)
  {
    WaitingPanel(s, window);
    var replaying := Window(Begin(s), window).(active := Some(id), buffer := None);
    ApplyAppend(replaying, Delivered(window), later);
    FocusedFolds(replaying, id, Delivered(window) + later);
    FocusedSettles(replaying, id, Delivered(window) + later);
  }

  lemma {:induction false} ApplyAppend(s: Panel, a: seq<Event>, b: seq<Event>)
    ensures ApplyAll(s, a + b) == ApplyAll(ApplyAll(s, a), b)
  {
    if b == [] {
      assert a + b == a;
    } else {
      assert (a + b)[..|a + b| - 1] == a + b[..|b| - 1];
      ApplyAppend(s, a, b[..|b| - 1]);
    }
  }

  /** The notices of all projects but for the last of each in `events`. */
  ghost predicate Noticed(before: map<string, string>, after: map<string, string>, events: seq<Event>) {
    forall p :: (if p in after then Some(after[p]) else None)
                == Or(LastNotice(events, p), if p in before then Some(before[p]) else None)
  }

  lemma NoticedStep(before: map<string, string>, t: Panel, events: seq<Event>)
    requires events != [] && Noticed(before, t.notices, events[..|events| - 1])
    ensures Noticed(before, Apply(t, events[|events| - 1]).notices, events)
  {
  }

  /** A dispatch notice is recorded for its project at once, whatever is focused and whether a start is
      in flight; the last one of each project stays. */
  lemma {:induction false} NoticesRecorded(s: Panel, events: seq<Event>)
    ensures Noticed(s.notices, ApplyAll(s, events).notices, events)
  {
    if events != [] {
      NoticesRecorded(s, events[..|events| - 1]);
      NoticedStep(s.notices, ApplyAll(s, events[..|events| - 1]), events);
    }
  }

  /** The dispatch notices and all other events of a window, in order. */
  function AllEvents(steps: seq<WindowStep>): seq<Event> {
    if steps == [] then []
    else
      var last := steps[|steps| - 1];
      AllEvents(steps[..|steps| - 1]) + (if last.Deliver? then [last.event] else [])
  }

  lemma {:induction false} WindowNotices(s: Panel, steps: seq<WindowStep>)
    ensures Noticed(s.notices, Window(s, steps).notices, AllEvents(steps))
  {
    if steps != [] {
      var front, last := steps[..|steps| - 1], steps[|steps| - 1];
      WindowNotices(s, front);
      if last.Deliver? {
        var events := AllEvents(steps);
        assert events[..|events| - 1] == AllEvents(front);
        NoticedStep(s.notices, Window(s, front), events);
      } else {
        assert AllEvents(front) + [] == AllEvents(front);
      }
    }
  }

  predicate NoNotices(events: seq<Event>) {
    forall ev :: ev in events ==> !ev.DispatchError?
  }

  lemma {:induction false} BufferedNoNotices(steps: seq<WindowStep>)
    ensures NoNotices(Buffered(steps))
  {
    if steps != [] { BufferedNoNotices(steps[..|steps| - 1]); }
  }

  lemma {:induction false} NoNoticesLast(events: seq<Event>, p: string)
    requires NoNotices(events)
    ensures LastNotice(events, p).None?
  {
    if events != [] {
      assert events[|events| - 1] in events;
      NoNoticesLast(events[..|events| - 1], p);
    }
  }

  /** No notice is lost in a start window or repeated by its replay, whether the start succeeds or fails. */
  lemma WindowKeepsNotices(s: Panel, window: seq<WindowStep>, id: string, message: string)
    requires s.buffer.None?
    ensures var w := Window(Begin(s), window);
            && w.buffer.Some?
            && Noticed(s.notices, Resolve(w, id).notices, AllEvents(window))
            && Noticed(s.notices, Reject(w, message).notices, AllEvents(window))
  {
    WindowIs(Begin(s), window);
    WindowNotices(Begin(s), window);
    BufferedNoNotices(window);
    var replaying := Window(Begin(s), window).(active := Some(id), buffer := None);
    NoticesRecorded(replaying, Buffered(window));
    forall p ensures LastNotice(Buffered(window), p).None? { NoNoticesLast(Buffered(window), p); }
    assert Noticed(replaying.notices, Resolve(Window(Begin(s), window), id).notices, Buffered(window));
    SameNotices(replaying.notices, Resolve(Window(Begin(s), window), id).notices);
  }

  lemma SameNotices(a: map<string, string>, b: map<string, string>)
    requires forall p :: (if p in b then Some(b[p]) else None) == (if p in a then Some(a[p]) else None)
    ensures a == b
  {
    forall p ensures p in a <==> p in b {
      assert (if p in b then Some(b[p]) else None) == (if p in a then Some(a[p]) else None);
    }
    forall p | p in a ensures a[p] == b[p] {
      assert (if p in b then Some(b[p]) else None) == (if p in a then Some(a[p]) else None);
    }
  }

  // ---------------------------------------------------------------- which windows are harmless

  /** The steps of a window other than the arrival of events. */
  function Moves(steps: seq<WindowStep>): seq<WindowStep> {
    if steps == [] then []
    else
      var last := steps[|steps| - 1];
      Moves(steps[..|steps| - 1]) + (if last.Deliver? then [] else [last])
  }

  /** In this window the panel of a start comes out as the fold of the started thread's own deltas. */
  ghost predicate ShowsOwn(s: Panel, window: seq<WindowStep>, id: string, later: seq<Event>) {
    var w := Window(Begin(s), window);
    w.buffer.Some? && ApplyAll(Resolve(w, id), later).items == FoldFrom([], Own(Delivered(window) + later, id))
  }

  /** So it does for every panel, every arrival of events among these moves, every id and all later events. */
  ghost predicate AlwaysShowsOwn(moves: seq<WindowStep>) {
    forall s: Panel, window, id, later ::
      s.buffer.None? && Moves(window) == moves && id != "" ==> ShowsOwn(s, window, id, later)
  }

  lemma {:induction false} MovesFocus(steps: seq<WindowStep>)
    ensures NoFocus(Moves(steps)) <==> NoFocus(steps)
  {
    if steps != [] {
      var front, last := steps[..|steps| - 1], steps[|steps| - 1];
      MovesFocus(front);
      assert steps == front + [last];
    }
  }

  predicate Quiet(steps: seq<WindowStep>) {
    forall step :: step in steps ==> !step.Deliver?
  }

  lemma QuietFront(steps: seq<WindowStep>)
    requires Quiet(steps) && steps != []
    ensures Quiet(steps[..|steps| - 1]) && !steps[|steps| - 1].Deliver?
    ensures steps == steps[..|steps| - 1] + [steps[|steps| - 1]]
  {
    assert steps[|steps| - 1] in steps;
  }

  /** Moves alone: no event is delivered, nothing is buffered. */
  lemma {:induction false} MovesOnly(steps: seq<WindowStep>)
    requires Quiet(steps)
    ensures Moves(steps) == steps && Delivered(steps) == [] && Buffered(steps) == []
  {
    if steps != [] {
      QuietFront(steps);
      MovesOnly(steps[..|steps| - 1]);
    }
  }

  lemma {:induction false} MovesAreMoves(steps: seq<WindowStep>)
    ensures Quiet(Moves(steps))
  {
    if steps != [] { MovesAreMoves(steps[..|steps| - 1]); }
  }

  /** An event of another thread that arrives right behind a focus is delivered, and that is all. */
  ghost predicate OneLost(window: seq<WindowStep>, moves: seq<WindowStep>, ev: Event) {
    Moves(window) == moves && Delivered(window) == [ev] && Buffered(window) == []
    && Shown(window) == Shown(moves) && Focused(window) == Focused(moves)
  }

  lemma LostAtEnd(before: seq<WindowStep>, ev: Event)
    requires before != [] && before[|before| - 1].FocusOn? && ev.Delta? && ev.threadId != before[|before| - 1].threadId
    requires Quiet(before)
    ensures OneLost(before + [Deliver(ev)], before, ev)
  {
    var window := before + [Deliver(ev)];
    assert window[..|window| - 1] == before;
    MovesOnly(before);
    assert Focused(before) == Some(before[|before| - 1].threadId);
    assert before + [] == before && [] + [ev] == [ev];
  }

  lemma {:induction false} LostBehindFocus(before: seq<WindowStep>, after: seq<WindowStep>, ev: Event)
    requires before != [] && before[|before| - 1].FocusOn? && ev.Delta? && ev.threadId != before[|before| - 1].threadId
    requires Quiet(before)
    requires Quiet(after)
    ensures OneLost((before + [Deliver(ev)]) + after, before + after, ev)
  {
    if after == [] {
      LostAtEnd(before, ev);
      assert (before + [Deliver(ev)]) + after == before + [Deliver(ev)] && before + after == before;
    } else {
      var front, last := after[..|after| - 1], after[|after| - 1];
      LostBehindFocus(before, front, ev);
      LostStep((before + [Deliver(ev)]) + front, before + front, ev, last);
      Snoc(before + [Deliver(ev)], after);
      Snoc(before, after);
    }
  }

  lemma LostStep(window: seq<WindowStep>, moves: seq<WindowStep>, ev: Event, last: WindowStep)
    requires OneLost(window, moves, ev) && !last.Deliver?
    ensures OneLost(window + [last], moves + [last], ev)
  {
    assert (window + [last])[..|window|] == window && (moves + [last])[..|moves|] == moves;
  }

  lemma OneDelta(id: string, itemId: string, text: string)
    ensures FoldFrom([], Own([Delta(id, Message, itemId, text)], id)) == [Item(itemId, Message, text)]
  {
    var events := [Delta(id, Message, itemId, text)];
    assert events[..0] == [];
    FoldOwnLast([], events, id);
    assert FoldFrom([], Own([], id)) == [] && AppendDelta([], Message, itemId, text) == [Item(itemId, Message, text)];
  }

  /** A window with a focus in it: the delta behind the focus is missing in what the panel shows. */
  lemma FocusLosesDelta(moves: seq<WindowStep>, window: seq<WindowStep>, id: string, text: string)
    requires id != "" && OneLost(window, moves, Delta(id, Message, "i", text))
             && Shown(moves) != [Item("i", Message, text)]
    ensures !ShowsOwn(Panel(None, false, None, None, [], None, map[]), window, id, [])
  {
    var s := Panel(None, false, None, None, [], None, map[]);
    FocusInWindow(s, window, id, []);
    OneDelta(id, "i", text);
    assert Delivered(window) + [] == Delivered(window) && Buffered(window) + [] == Buffered(window);
    assert FoldFrom(Shown(window), Own([], id)) == Shown(window);
  }

  lemma HarmlessWindows(moves: seq<WindowStep>)
    requires NoFocus(moves)
    ensures AlwaysShowsOwn(moves)
  {
    forall s: Panel, window, id, later | s.buffer.None? && Moves(window) == moves && id != ""
      ensures ShowsOwn(s, window, id, later)
    {
      MovesFocus(window);
      StartedPanelShowsItsThread(s, window, id, later);
    }
  }

  lemma SplitMoves(moves: seq<WindowStep>, n: nat)
    requires n <= |moves| && Quiet(moves)
    ensures Quiet(moves[..n])
    ensures Quiet(moves[n..])
    ensures moves[..n] + moves[n..] == moves
  {
  }

  /** With a focus among the moves some arrival of one delta of another thread is lost. */
  lemma LosingWindow(moves: seq<WindowStep>, i: nat, id: string, text: string) returns (window: seq<WindowStep>)
    requires i < |moves| && moves[i].FocusOn? && id != moves[i].threadId
    requires Quiet(moves)
    ensures OneLost(window, moves, Delta(id, Message, "i", text))
  {
    var before, after, ev := moves[..i + 1], moves[i + 1..], Delta(id, Message, "i", text);
    SplitMoves(moves, i + 1);
    LostBehindFocus(before, after, ev);
    window := (before + [Deliver(ev)]) + after;
  }

  lemma OtherText(shown: seq<Item>) returns (text: string)
    ensures shown != [Item("i", Message, text)]
  {
    text := if |shown| == 1 then shown[0].text + ['x'] else [];
  }

  lemma HarmfulWindows(moves: seq<WindowStep>)
    requires !NoFocus(moves) && Quiet(moves)
    ensures !AlwaysShowsOwn(moves)
  {
    var i :| 0 <= i < |moves| && moves[i].FocusOn?;
    var id := moves[i].threadId + ['s'];
    var text := OtherText(Shown(moves));
    var window := LosingWindow(moves, i, id, text);
    FocusLosesDelta(moves, window, id, text);
  }

  /** The windows for which the panel of a start always shows that start: exactly those in which no
      other session is focused. */
  lemma AlwaysShowsOwnIff(window: seq<WindowStep>)
    ensures AlwaysShowsOwn(Moves(window)) <==> NoFocus(window)
  {
    MovesFocus(window);
    MovesAreMoves(window);
    if NoFocus(window) { HarmlessWindows(Moves(window)); } else { HarmfulWindows(Moves(window)); }
  }

  /** The failing input: a delta of the started thread arrives while another session is focused. */
  lemma FocusedDeltaIsLost(s: Panel, other: string, status: Status, id: string, text: string)
    requires s.buffer.None? && other != id && id != ""
    ensures var window := [FocusOn(other, status), Deliver(Delta(id, Message, "i", text))];
            var w := Window(Begin(s), window);
            && w.buffer.Some? && Resolve(w, id).items == []
            && FoldFrom([], Own(Delivered(window), id)) == [Item("i", Message, text)]
  {
    var before, ev := [FocusOn(other, status)], Delta(id, Message, "i", text);
    var window := [FocusOn(other, status), Deliver(ev)];
    LostBehindFocus(before, [], ev);
    assert (before + [Deliver(ev)]) + [] == window && before + [] == before;
    OneFocus(other, status);
    FocusInWindow(s, window, id, []);
    OneDelta(id, "i", text);
    assert ApplyAll(Resolve(Window(Begin(s), window), id), []) == Resolve(Window(Begin(s), window), id);
  }

  lemma OneFocus(other: string, status: Status)
    ensures Shown([FocusOn(other, status)]) == []
  {
    assert [FocusOn(other, status)][..0] == [];
  }

  lemma {:induction false} UnfocusedKeeps(s: Panel, events: seq<Event>)
    requires s.active == Some("") && s.buffer.None?
    ensures var t := ApplyAll(s, events); t.items == s.items && t.active == s.active && t.buffer.None?
  {
    if events != [] {
      UnfocusedKeeps(s, events[..|events| - 1]);
    }
  }

  // ---------------------------------------------------------------- history

  predicate UniqueIds(items: seq<Item>) {
    forall i, j :: 0 <= i < j < |items| ==> items[i].itemId != items[j].itemId
  }

  lemma {:induction false} FoldKeepsUnique(items: seq<Item>, deltas: seq<Event>)
    requires UniqueIds(items) && forall d :: d in deltas ==> d.Delta?
    ensures UniqueIds(FoldFrom(items, deltas))
  {
    if deltas != [] {
      FoldKeepsUnique(items, deltas[..|deltas| - 1]);
    }
  }

  /** `Absent` keeps exactly the live items without a stored twin. */
  lemma {:induction false} AbsentMembers(live: seq<Item>, history: seq<Item>)
    ensures forall x :: x in Absent(live, history) <==> x in live && !Has(history, x.itemId)
    ensures UniqueIds(live) ==> UniqueIds(Absent(live, history))
  {
    if live != [] {
      var front, last := live[..|live| - 1], live[|live| - 1];
      assert live == front + [last];
      AbsentMembers(front, history);
      var kept := Absent(front, history);
      if UniqueIds(live) {
        forall i | 0 <= i < |kept| ensures kept[i].itemId != last.itemId {
          assert kept[i] in kept;
          var j :| 0 <= j < |front| && front[j] == kept[i];
          assert live[j].itemId != live[|live| - 1].itemId;
        }
      }
    }
  }

  /** The places at which the kept items stand in the live ones: ascending, and all that the history
      does not know. */
  ghost predicate Places(at: seq<nat>, live: seq<Item>, history: seq<Item>, kept: seq<Item>) {
    && |at| == |kept|
    && (forall k :: 0 <= k < |at| ==> at[k] < |live| && live[at[k]] == kept[k])
    && (forall j, k :: 0 <= j < k < |at| ==> at[j] < at[k])
    && (forall i :: 0 <= i < |live| ==> (Has(history, live[i].itemId) <==> i !in at))
  }

  lemma PlacesStep(at: seq<nat>, live: seq<Item>, history: seq<Item>, kept: seq<Item>, last: Item)
    requires Places(at, live, history, kept)
    ensures Has(history, last.itemId) ==> Places(at, live + [last], history, kept)
    ensures !Has(history, last.itemId) ==> Places(at + [|live|], live + [last], history, kept + [last])
  {
    assert forall k :: 0 <= k < |at| ==> at[k] in at && at[k] < |live|;
  }

  lemma {:induction false} AbsentOrder(live: seq<Item>, history: seq<Item>) returns (at: seq<nat>)
    ensures Places(at, live, history, Absent(live, history))
  {
    if live == [] {
      at := [];
    } else {
      var front, last := live[..|live| - 1], live[|live| - 1];
      at := AbsentOrder(front, history);
      PlacesStep(at, front, history, Absent(front, history), last);
      assert live == front + [last] && Absent(front, history) + [] == Absent(front, history);
      if !Has(history, last.itemId) { at := at + [|front|]; }
    }
  }

  lemma MergedUnique(history: seq<Item>, rest: seq<Item>)
    requires UniqueIds(history) && UniqueIds(rest) && forall x :: x in rest ==> !Has(history, x.itemId)
    ensures UniqueIds(history + rest)
  {
    forall i, j | 0 <= i < |history| && 0 <= j < |rest| ensures history[i].itemId != rest[j].itemId {
      assert rest[j] in rest;
    }
  }

  lemma MergedCovers(history: seq<Item>, rest: seq<Item>, x: Item)
    requires Has(history, x.itemId) || x in rest
    ensures Has(history + rest, x.itemId)
  {
    if Has(history, x.itemId) {
      var i :| 0 <= i < |history| && history[i].itemId == x.itemId;
      assert (history + rest)[i].itemId == x.itemId;
    } else {
      var i :| 0 <= i < |rest| && rest[i] == x;
      assert (history + rest)[|history| + i].itemId == x.itemId;
    }
  }

  /** Opening a session: its history comes first, then every live item it does not contain, in order,
      no id twice; later deltas go on from there. The events may come from any threads. */
  lemma OpenedSession(s: Panel, id: string, status: Status, during: seq<Event>, history: seq<Item>, later: seq<Event>)
    requires id != "" && UniqueIds(history)
    ensures var live := FoldFrom([], Own(during, id));
            var merged := HistoryLoaded(ApplyAll(Focus(s, id, status), during), id, history);
            && merged == ApplyAll(Focus(s, id, status), during).(items := history + Absent(live, history))
            && UniqueIds(merged.items)
            && (forall x :: x in live ==> Has(merged.items, x.itemId))
            && ApplyAll(merged, later).items == FoldFrom(merged.items, Own(later, id))
  {
    FocusedFolds(Focus(s, id, status), id, during);
    var live := FoldFrom([], Own(during, id));
    FoldKeepsUnique([], Own(during, id));
    AbsentMembers(live, history);
    var merged := HistoryLoaded(ApplyAll(Focus(s, id, status), during), id, history);
    FocusedFolds(merged, id, later);
    MergedUnique(history, Absent(live, history));
    forall x | x in live ensures Has(merged.items, x.itemId) {
      MergedCovers(history, Absent(live, history), x);
    }
  }

  /** A history response that arrives after another session was focused changes nothing, whatever
      was streamed in the meantime. */
  lemma SupersededHistory(s: Panel, first: string, next: string, status: Status, during: seq<Event>, history: seq<Item>)
    requires next != first && next != ""
    ensures var now := ApplyAll(Focus(s, next, status), during);
            HistoryLoaded(now, first, history) == now
  {
    FocusedFolds(Focus(s, next, status), next, during);
  }
}
