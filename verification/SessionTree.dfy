/** The terminal picker's tree: a flat session list grouped by window and tab, everything in order. */
module SessionTree {
  import opened Order
  import opened Text

  datatype Session = Session(sessionId: string, windowId: string, tabId: string, title: string)

  datatype TabGroup = TabGroup(tabId: string, sessions: seq<Session>)

  datatype WindowGroup = WindowGroup(windowId: string, tabs: seq<TabGroup>)

  function WindowOf(s: Session): string { s.windowId }

  function TabOf(s: Session): string { s.tabId }

  function Having(sessions: seq<Session>, key: Session -> string, k: string): seq<Session> {
    if sessions == [] then []
    else
      var last := sessions[|sessions| - 1];
      Having(sessions[..|sessions| - 1], key, k) + (if key(last) == k then [last] else [])
  }

  /** The keys that occur, each once, in the order of their first occurrence. */
  function KeysOf(sessions: seq<Session>, key: Session -> string): seq<string> {
    if sessions == [] then []
    else
      var front, last := KeysOf(sessions[..|sessions| - 1], key), sessions[|sessions| - 1];
      if key(last) in front then front else front + [key(last)]
  }

  lemma {:induction false} HavingMembers(sessions: seq<Session>, key: Session -> string, k: string)
    ensures forall s :: s in Having(sessions, key, k) <==> s in sessions && key(s) == k
  {
    if sessions != [] {
      assert sessions == sessions[..|sessions| - 1] + [sessions[|sessions| - 1]];
      HavingMembers(sessions[..|sessions| - 1], key, k);
    }
  }

  lemma {:induction false} KeysMembers(sessions: seq<Session>, key: Session -> string)
    ensures Distinct(KeysOf(sessions, key))
    ensures forall s :: s in sessions ==> key(s) in KeysOf(sessions, key)
    ensures forall k :: k in KeysOf(sessions, key) ==> Having(sessions, key, k) != []
  {
    if sessions != [] {
      var front, last := sessions[..|sessions| - 1], sessions[|sessions| - 1];
      assert sessions == front + [last];
      KeysMembers(front, key);
    }
  }

  function ById(locale: (string, string) -> bool): (Session, Session) -> bool {
    (a: Session, b: Session) => locale(a.sessionId, b.sessionId)
  }

  function TabFor(sessions: seq<Session>, tabId: string, locale: (string, string) -> bool): TabGroup {
    TabGroup(tabId, Sort(Having(sessions, TabOf, tabId), ById(locale)))
  }

  function TabsFor(sessions: seq<Session>, tabIds: seq<string>, locale: (string, string) -> bool): (r: seq<TabGroup>)
    ensures |r| == |tabIds|
    ensures forall i :: 0 <= i < |r| ==> r[i] == TabFor(sessions, tabIds[i], locale)
  {
    seq(|tabIds|, i requires 0 <= i < |tabIds| => TabFor(sessions, tabIds[i], locale))
  }

  function Tabs(sessions: seq<Session>, locale: (string, string) -> bool): seq<TabGroup> {
    TabsFor(sessions, Sort(KeysOf(sessions, TabOf), locale), locale)
  }

  function WindowFor(sessions: seq<Session>, windowId: string, locale: (string, string) -> bool): WindowGroup {
    WindowGroup(windowId, Tabs(Having(sessions, WindowOf, windowId), locale))
  }

  function WindowsFor(sessions: seq<Session>, windowIds: seq<string>,
          locale: (string, string) -> bool): (r: seq<WindowGroup>)
    ensures |r| == |windowIds|
    ensures forall i :: 0 <= i < |r| ==> r[i] == WindowFor(sessions, windowIds[i], locale)
  {
    seq(|windowIds|, i requires 0 <= i < |windowIds| => WindowFor(sessions, windowIds[i], locale))
  }

  function Tree(sessions: seq<Session>, locale: (string, string) -> bool): seq<WindowGroup> {
    WindowsFor(sessions, Sort(KeysOf(sessions, WindowOf), locale), locale)
  }

  // ---------------------------------------------------------------- the grouping loop

  ghost predicate TabsHold(tabs: JsMap<seq<Session>>, sessions: seq<Session>) {
    && tabs.order == KeysOf(sessions, TabOf)
    && (forall t :: t in tabs.entries <==> t in tabs.order)
    && (forall t :: t in tabs.entries ==> tabs.entries[t] == Having(sessions, TabOf, t))
  }

  ghost predicate WindowsHold(windows: JsMap<JsMap<seq<Session>>>, sessions: seq<Session>) {
    && windows.order == KeysOf(sessions, WindowOf)
    && (forall w :: w in windows.entries <==> w in windows.order)
    && (forall w :: w in windows.entries ==> TabsHold(windows.entries[w], Having(sessions, WindowOf, w)))
  }

  lemma HavingNone(sessions: seq<Session>, key: Session -> string, k: string)
    requires k !in KeysOf(sessions, key)
    ensures Having(sessions, key, k) == []
  {
    HavingMembers(sessions, key, k);
    KeysMembers(sessions, key);
    EmptyOrInhabited(Having(sessions, key, k));
  }

  method AddToTab(tabs: JsMap<seq<Session>>, s: Session, ghost before: seq<Session>)
          returns (grown: JsMap<seq<Session>>)
    requires TabsHold(tabs, before)
    ensures TabsHold(grown, before + [s])
  {
    var list := [];
    grown := tabs;
    assert (before + [s])[..|before|] == before;
    if s.tabId in grown.entries {
      list := grown.entries[s.tabId];
    } else {
      HavingNone(before, TabOf, s.tabId);
      grown := JsMap(grown.order + [s.tabId], grown.entries);
    }
    grown := grown.(entries := grown.entries[s.tabId := list + [s]]);
    forall t | t in grown.entries ensures grown.entries[t] == Having(before + [s], TabOf, t) {
      assert Having(before, TabOf, t) + [] == Having(before, TabOf, t);
    }
  }

  method AddToWindow(windows: JsMap<JsMap<seq<Session>>>, s: Session, ghost before: seq<Session>)
    returns (grown: JsMap<JsMap<seq<Session>>>)
    requires WindowsHold(windows, before)
    ensures WindowsHold(grown, before + [s])
  {
    var tabs: JsMap<seq<Session>> := JsMap([], map[]);
    grown := windows;
    assert (before + [s])[..|before|] == before;
    if s.windowId in grown.entries {
      tabs := grown.entries[s.windowId];
    } else {
      HavingNone(before, WindowOf, s.windowId);
      grown := JsMap(grown.order + [s.windowId], grown.entries);
    }
    tabs := AddToTab(tabs, s, Having(before, WindowOf, s.windowId));
    grown := grown.(entries := grown.entries[s.windowId := tabs]);
    forall w | w in grown.entries ensures TabsHold(grown.entries[w], Having(before + [s], WindowOf, w)) {
      assert Having(before, WindowOf, w) + [] == Having(before, WindowOf, w);
    }
  }

  method GroupSessions(sessions: seq<Session>, locale: (string, string) -> bool) returns (tree: seq<WindowGroup>)
    ensures tree == Tree(sessions, locale)
  {
    var windows: JsMap<JsMap<seq<Session>>> := JsMap([], map[]);
    for i := 0 to |sessions|
      invariant WindowsHold(windows, sessions[..i])
    {
      assert sessions[..i + 1] == sessions[..i] + [sessions[i]];
      windows := AddToWindow(windows, sessions[i], sessions[..i]);
    }
    assert sessions[..|sessions|] == sessions;
    tree := SortWindows(windows, locale, sessions);
  }

  method SortWindows(windows: JsMap<JsMap<seq<Session>>>, locale: (string, string) -> bool,
          ghost sessions: seq<Session>)
    returns (tree: seq<WindowGroup>)
    requires WindowsHold(windows, sessions)
    ensures tree == Tree(sessions, locale)
  {
    var windowIds := Sort(windows.order, locale);
    PermutationMembers(windowIds, windows.order);
    tree := MapWindows(windows, windowIds, locale, sessions);
  }

  method WindowEntry(windows: JsMap<JsMap<seq<Session>>>, windowId: string, locale: (string, string) -> bool,
          ghost sessions: seq<Session>)
    returns (group: WindowGroup)
    requires WindowsHold(windows, sessions) && windowId in windows.entries
    ensures group == WindowFor(sessions, windowId, locale)
  {
    var tabs := SortTabs(windows.entries[windowId], locale, Having(sessions, WindowOf, windowId));
    group := WindowGroup(windowId, tabs);
  }

  lemma WindowsForStep(sessions: seq<Session>, windowIds: seq<string>, i: nat, locale: (string, string) -> bool)
    requires i < |windowIds|
    ensures WindowsFor(sessions, windowIds[..i + 1], locale)
            == WindowsFor(sessions, windowIds[..i], locale) + [WindowFor(sessions, windowIds[i], locale)]
  {
  }

  lemma TabsForStep(sessions: seq<Session>, tabIds: seq<string>, i: nat, locale: (string, string) -> bool)
    requires i < |tabIds|
    ensures TabsFor(sessions, tabIds[..i + 1], locale)
            == TabsFor(sessions, tabIds[..i], locale) + [TabFor(sessions, tabIds[i], locale)]
  {
  }

  method MapWindows(windows: JsMap<JsMap<seq<Session>>>, windowIds: seq<string>, locale: (string, string) -> bool,
          ghost sessions: seq<Session>)
    returns (tree: seq<WindowGroup>)
    requires WindowsHold(windows, sessions) && forall w :: w in windowIds ==> w in windows.entries
    ensures tree == WindowsFor(sessions, windowIds, locale)
  {
    tree := [];
    for i := 0 to |windowIds|
      invariant tree == WindowsFor(sessions, windowIds[..i], locale)
    {
      var group := WindowEntry(windows, windowIds[i], locale, sessions);
      WindowsForStep(sessions, windowIds, i, locale);
      tree := tree + [group];
    }
    assert windowIds[..|windowIds|] == windowIds;
  }

  method SortTabs(tabs: JsMap<seq<Session>>, locale: (string, string) -> bool, ghost sessions: seq<Session>)
          returns (groups: seq<TabGroup>)
    requires TabsHold(tabs, sessions)
    ensures groups == Tabs(sessions, locale)
  {
    var tabIds := Sort(tabs.order, locale);
    PermutationMembers(tabIds, tabs.order);
    groups := MapTabs(tabs, tabIds, locale, sessions);
  }

  method MapTabs(tabs: JsMap<seq<Session>>, tabIds: seq<string>, locale: (string, string) -> bool,
          ghost sessions: seq<Session>) returns (groups: seq<TabGroup>)
    requires TabsHold(tabs, sessions) && forall t :: t in tabIds ==> t in tabs.entries
    ensures groups == TabsFor(sessions, tabIds, locale)
  {
    groups := [];
    for i := 0 to |tabIds|
      invariant groups == TabsFor(sessions, tabIds[..i], locale)
    {
      TabsForStep(sessions, tabIds, i, locale);
      groups := groups + [TabGroup(tabIds[i], Sort(tabs.entries[tabIds[i]], ById(locale)))];
    }
    assert tabIds[..|tabIds|] == tabIds;
  }

  // ---------------------------------------------------------------- order of the input does not matter

  predicate DistinctIds(sessions: seq<Session>) {
    forall i, j :: 0 <= i < j < |sessions| ==> sessions[i].sessionId != sessions[j].sessionId
  }

  lemma {:induction false} HavingDistinct(sessions: seq<Session>, key: Session -> string, k: string)
    requires DistinctIds(sessions)
    ensures DistinctIds(Having(sessions, key, k))
  {
    if sessions != [] {
      var front, last := sessions[..|sessions| - 1], sessions[|sessions| - 1];
      HavingDistinct(front, key, k);
      HavingMembers(front, key, k);
      var kept := Having(front, key, k);
      forall i | 0 <= i < |kept| ensures kept[i].sessionId != last.sessionId {
        assert kept[i] in kept;
        var j :| 0 <= j < |front| && front[j] == kept[i];
        assert sessions[j].sessionId != sessions[|sessions| - 1].sessionId;
      }
    }
  }

  lemma ByIdIsOrder(locale: (string, string) -> bool)
    requires StrictTotalOrder(locale)
    ensures StrictOrder(ById(locale))
  {
    var lt := ById(locale);
    forall a: Session ensures !lt(a, a) {
      assert !locale(a.sessionId, a.sessionId);
    }
    forall a: Session, b: Session, c: Session | lt(a, b) && lt(b, c) ensures lt(a, c) {
      assert locale(a.sessionId, b.sessionId) && locale(b.sessionId, c.sessionId);
    }
  }

  /** Sorted session lists agree when their inputs have the same sessions. */
  lemma SameSessionsSorted(a: seq<Session>, b: seq<Session>, locale: (string, string) -> bool)
    requires StrictTotalOrder(locale) && DistinctIds(a) && DistinctIds(b)
    requires forall s :: s in a <==> s in b
    ensures Sort(a, ById(locale)) == Sort(b, ById(locale))
    ensures Ascending(Sort(a, ById(locale)), ById(locale))
  {
    ByIdIsOrder(locale);
    SortAscending(b, ById(locale));
    PermutationMembers(Sort(b, ById(locale)), b);
    SortCanonical(a, Sort(b, ById(locale)), ById(locale));
  }

  lemma SameKeys(a: seq<Session>, b: seq<Session>, key: Session -> string)
    requires forall s :: s in a ==> s in b
    ensures forall k :: k in KeysOf(a, key) ==> k in KeysOf(b, key)
  {
    KeysMembers(a, key);
    KeysMembers(b, key);
    forall k | k in KeysOf(a, key) ensures k in KeysOf(b, key) {
      HavingMembers(a, key, k);
      assert Having(a, key, k)[0] in Having(a, key, k);
    }
  }

  lemma SameKeysSorted(a: seq<Session>, b: seq<Session>, key: Session -> string, locale: (string, string) -> bool)
    requires StrictTotalOrder(locale)
    requires forall s :: s in a <==> s in b
    ensures Sort(KeysOf(a, key), locale) == Sort(KeysOf(b, key), locale)
    ensures Ascending(Sort(KeysOf(a, key), locale), locale)
  {
    SameKeys(a, b, key);
    SameKeys(b, a, key);
    KeysMembers(a, key);
    KeysMembers(b, key);
    SortAscending(KeysOf(b, key), locale);
    PermutationMembers(Sort(KeysOf(b, key), locale), KeysOf(b, key));
    SortCanonical(KeysOf(a, key), Sort(KeysOf(b, key), locale), locale);
  }

  lemma SameTabs(a: seq<Session>, b: seq<Session>, locale: (string, string) -> bool)
    requires StrictTotalOrder(locale) && DistinctIds(a) && DistinctIds(b)
    requires forall s :: s in a <==> s in b
    ensures Tabs(a, locale) == Tabs(b, locale)
  {
    SameKeysSorted(a, b, TabOf, locale);
    forall i | 0 <= i < |Tabs(a, locale)| ensures Tabs(a, locale)[i] == Tabs(b, locale)[i] {
      var k := Sort(KeysOf(a, TabOf), locale)[i];
      HavingDistinct(a, TabOf, k);
      HavingDistinct(b, TabOf, k);
      HavingMembers(a, TabOf, k);
      HavingMembers(b, TabOf, k);
      SameSessionsSorted(Having(a, TabOf, k), Having(b, TabOf, k), locale);
    }
  }

  /** The tree depends only on which sessions there are, not on the order they are listed in. */
  lemma TreeIgnoresOrder(a: seq<Session>, b: seq<Session>, locale: (string, string) -> bool)
    requires StrictTotalOrder(locale) && DistinctIds(a) && multiset(a) == multiset(b)
    ensures Tree(a, locale) == Tree(b, locale)
  {
    PermutationMembers(a, b);
    DistinctTransfers(a, b);
    SameKeysSorted(a, b, WindowOf, locale);
    forall i | 0 <= i < |Tree(a, locale)| ensures Tree(a, locale)[i] == Tree(b, locale)[i] {
      var k := Sort(KeysOf(a, WindowOf), locale)[i];
      HavingDistinct(a, WindowOf, k);
      HavingDistinct(b, WindowOf, k);
      HavingMembers(a, WindowOf, k);
      HavingMembers(b, WindowOf, k);
      SameTabs(Having(a, WindowOf, k), Having(b, WindowOf, k), locale);
    }
  }

  lemma {:induction false} DistinctTransfers(a: seq<Session>, b: seq<Session>)
    requires DistinctIds(a) && multiset(a) == multiset(b)
    ensures DistinctIds(b)
  {
    PermutationMembers(a, b);
    forall i, j | 0 <= i < j < |b| ensures b[i].sessionId != b[j].sessionId {
      assert b[i] in b && b[j] in b;
      var x :| 0 <= x < |a| && a[x] == b[i];
      var y :| 0 <= y < |a| && a[y] == b[j];
      if x == y {
        CountedTwice(b, i, j);
        AtMostOnce(a, x);
      }
    }
  }

  lemma CountedTwice(b: seq<Session>, i: nat, j: nat)
    requires i < j < |b| && b[i] == b[j]
    ensures multiset(b)[b[i]] >= 2
  {
    assert b == b[..i] + [b[i]] + b[i + 1..j] + [b[j]] + b[j + 1..];
  }

  lemma AtMostOnce(a: seq<Session>, x: nat)
    requires DistinctIds(a) && x < |a|
    ensures multiset(a)[a[x]] == 1
  {
    assert a == a[..x] + [a[x]] + a[x + 1..];
    assert a[x] !in a[..x] && a[x] !in a[x + 1..];
  }

  // ---------------------------------------------------------------- nothing lost, nothing empty

  function FlatTabs(tabs: seq<TabGroup>): seq<Session> {
    if tabs == [] then [] else tabs[0].sessions + FlatTabs(tabs[1..])
  }

  function FlatTree(tree: seq<WindowGroup>): seq<Session> {
    if tree == [] then [] else FlatTabs(tree[0].tabs) + FlatTree(tree[1..])
  }

  function Parts(sessions: seq<Session>, key: Session -> string, keys: seq<string>): multiset<Session> {
    if keys == [] then multiset{} else multiset(Having(sessions, key, keys[0])) + Parts(sessions, key, keys[1..])
  }

  lemma {:induction false} PartsGrow(front: seq<Session>, last: Session, key: Session -> string, keys: seq<string>)
    requires Distinct(keys)
    ensures Parts(front + [last], key, keys)
            == Parts(front, key, keys) + (if key(last) in keys then multiset{last} else multiset{})
  {
    if keys != [] {
      assert (front + [last])[..|front|] == front;
      PartsGrow(front, last, key, keys[1..]);
      assert key(last) in keys <==> key(last) == keys[0] || key(last) in keys[1..];
      assert key(last) == keys[0] ==> key(last) !in keys[1..];
    }
  }

  /** Distinct keys that cover the list split it without loss or repetition. */
  lemma {:induction false} PartsCover(sessions: seq<Session>, key: Session -> string, keys: seq<string>)
    requires Distinct(keys) && forall s :: s in sessions ==> key(s) in keys
    ensures Parts(sessions, key, keys) == multiset(sessions)
  {
    if sessions == [] {
      NoParts(key, keys);
    } else {
      var front, last := sessions[..|sessions| - 1], sessions[|sessions| - 1];
      assert sessions == front + [last];
      PartsCover(front, key, keys);
      PartsGrow(front, last, key, keys);
    }
  }

  lemma {:induction false} NoParts(key: Session -> string, keys: seq<string>)
    ensures Parts([], key, keys) == multiset{}
  {
    if keys != [] { NoParts(key, keys[1..]); }
  }

  lemma {:induction false} FlatTabsParts(sessions: seq<Session>, tabs: seq<TabGroup>, keys: seq<string>)
    requires |tabs| == |keys|
    requires forall i :: 0 <= i < |tabs| ==> multiset(tabs[i].sessions) == multiset(Having(sessions, TabOf, keys[i]))
    ensures multiset(FlatTabs(tabs)) == Parts(sessions, TabOf, keys)
  {
    if tabs != [] {
      FlatTabsParts(sessions, tabs[1..], keys[1..]);
    }
  }

  lemma {:induction false} FlatTreeParts(sessions: seq<Session>, tree: seq<WindowGroup>, keys: seq<string>)
    requires |tree| == |keys|
    requires forall i :: 0 <= i < |tree| ==>
             multiset(FlatTabs(tree[i].tabs)) == multiset(Having(sessions, WindowOf, keys[i]))
    ensures multiset(FlatTree(tree)) == Parts(sessions, WindowOf, keys)
  {
    if tree != [] {
      FlatTreeParts(sessions, tree[1..], keys[1..]);
    }
  }

  lemma SortedKeysCover(sessions: seq<Session>, key: Session -> string, locale: (string, string) -> bool)
    requires StrictTotalOrder(locale)
    ensures var keys := Sort(KeysOf(sessions, key), locale);
            && Distinct(keys) && Ascending(keys, locale)
            && (forall s :: s in sessions ==> key(s) in keys)
            && (forall k :: k in keys ==> Having(sessions, key, k) != [])
  {
    var keys := Sort(KeysOf(sessions, key), locale);
    KeysMembers(sessions, key);
    SortAscending(KeysOf(sessions, key), locale);
    PermutationMembers(keys, KeysOf(sessions, key));
  }

  lemma TabsComplete(sessions: seq<Session>, locale: (string, string) -> bool)
    requires StrictTotalOrder(locale)
    ensures multiset(FlatTabs(Tabs(sessions, locale))) == multiset(sessions)
  {
    var keys := Sort(KeysOf(sessions, TabOf), locale);
    SortedKeysCover(sessions, TabOf, locale);
    FlatTabsParts(sessions, Tabs(sessions, locale), keys);
    PartsCover(sessions, TabOf, keys);
  }

  /** Flattening the tree gives back every session exactly once. */
  lemma TreeComplete(sessions: seq<Session>, locale: (string, string) -> bool)
    requires StrictTotalOrder(locale)
    ensures multiset(FlatTree(Tree(sessions, locale))) == multiset(sessions)
  {
    var keys, tree := Sort(KeysOf(sessions, WindowOf), locale), Tree(sessions, locale);
    SortedKeysCover(sessions, WindowOf, locale);
    forall i | 0 <= i < |tree|
      ensures multiset(FlatTabs(tree[i].tabs)) == multiset(Having(sessions, WindowOf, keys[i]))
    {
      TabsComplete(Having(sessions, WindowOf, keys[i]), locale);
    }
    FlatTreeParts(sessions, tree, keys);
    PartsCover(sessions, WindowOf, keys);
  }

  predicate OrderedTabs(tabs: seq<TabGroup>, windowId: string, locale: (string, string) -> bool) {
    && (forall i, j :: 0 <= i < j < |tabs| ==> locale(tabs[i].tabId, tabs[j].tabId))
    && (forall i :: 0 <= i < |tabs| ==>
          && tabs[i].sessions != []
          && Ascending(tabs[i].sessions, ById(locale))
          && (forall s :: s in tabs[i].sessions ==> s.tabId == tabs[i].tabId && s.windowId == windowId))
  }

  /** Windows, tabs and sessions are each strictly ordered, no group is empty and every session sits
      under its own window and tab. */
  lemma TreeOrdered(sessions: seq<Session>, locale: (string, string) -> bool)
    requires StrictTotalOrder(locale) && DistinctIds(sessions)
    ensures var tree := Tree(sessions, locale);
            && (forall i, j :: 0 <= i < j < |tree| ==> locale(tree[i].windowId, tree[j].windowId))
            && (forall i :: 0 <= i < |tree| ==>
                tree[i].tabs != [] && OrderedTabs(tree[i].tabs, tree[i].windowId, locale))
  {
    var keys, tree := Sort(KeysOf(sessions, WindowOf), locale), Tree(sessions, locale);
    SortedKeysCover(sessions, WindowOf, locale);
    forall i | 0 <= i < |tree| ensures tree[i].tabs != [] && OrderedTabs(tree[i].tabs, keys[i], locale) {
      assert keys[i] in keys;
      HavingDistinct(sessions, WindowOf, keys[i]);
      HavingMembers(sessions, WindowOf, keys[i]);
      TabsOrdered(Having(sessions, WindowOf, keys[i]), keys[i], locale);
    }
  }

  lemma TabsOrdered(sessions: seq<Session>, windowId: string, locale: (string, string) -> bool)
    requires StrictTotalOrder(locale) && DistinctIds(sessions) && sessions != []
    requires forall s :: s in sessions ==> s.windowId == windowId
    ensures Tabs(sessions, locale) != [] && OrderedTabs(Tabs(sessions, locale), windowId, locale)
  {
    var keys, tabs := Sort(KeysOf(sessions, TabOf), locale), Tabs(sessions, locale);
    SortedKeysCover(sessions, TabOf, locale);
    assert sessions[0] in sessions;
    forall i | 0 <= i < |tabs|
      ensures tabs[i].sessions != [] && Ascending(tabs[i].sessions, ById(locale))
      ensures forall s :: s in tabs[i].sessions ==> s.tabId == keys[i] && s.windowId == windowId
    {
      assert keys[i] in keys;
      TabOrdered(sessions, keys[i], locale);
    }
  }

  lemma TabOrdered(sessions: seq<Session>, tabId: string, locale: (string, string) -> bool)
    requires StrictTotalOrder(locale) && DistinctIds(sessions) && Having(sessions, TabOf, tabId) != []
    ensures var tab := Sort(Having(sessions, TabOf, tabId), ById(locale));
            && tab != [] && Ascending(tab, ById(locale))
            && forall s :: s in tab ==> s in sessions && s.tabId == tabId
  {
    var mine := Having(sessions, TabOf, tabId);
    HavingDistinct(sessions, TabOf, tabId);
    HavingMembers(sessions, TabOf, tabId);
    SameSessionsSorted(mine, mine, locale);
    PermutationMembers(Sort(mine, ById(locale)), mine);
  }
}
