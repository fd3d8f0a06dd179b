/** The outbox and workflow lists: pushed entries are upserted by id and the list is re-sorted. */
module EntryList {
  import opened Text
  import opened Order

  datatype Entry = Entry(id: int, projectId: string, updatedAt: int, body: string)

  /** `b.id - a.id`: the outbox list. */
  predicate NewestId(a: Entry, b: Entry) {
    a.id > b.id
  }

  /** `b.updatedAt - a.updatedAt || b.id - a.id`: the workflow list. */
  predicate NewestUpdate(a: Entry, b: Entry) {
    a.updatedAt > b.updatedAt || (a.updatedAt == b.updatedAt && a.id > b.id)
  }

  /** A strict order that tells any two entries with different ids apart. */
  ghost predicate SortsById(lt: (Entry, Entry) -> bool) {
    StrictOrder(lt) && forall a: Entry, b: Entry :: a.id != b.id ==> lt(a, b) || lt(b, a)
  }

  lemma BothListsSortById()
    ensures SortsById(NewestId) && SortsById(NewestUpdate)
  {
  }

  function IndexOf(entries: seq<Entry>, id: int): nat {
    FirstIndex(entries, (x: Entry) => x.id == id)
  }

  function Put(entries: seq<Entry>, entry: Entry): seq<Entry> {
    var i := IndexOf(entries, entry.id);
    if i < |entries| then entries[i := entry] else entries + [entry]
  }

  function Upsert(entries: seq<Entry>, entry: Entry, lt: (Entry, Entry) -> bool): seq<Entry> {
    Sort(Put(entries, entry), lt)
  }

  class EntryStore {
    var entries: seq<Entry>
    var projectId: Option<string>
    const newest: (Entry, Entry) -> bool

    constructor (snapshot: seq<Entry>, projectId: Option<string>, newest: (Entry, Entry) -> bool)
      ensures entries == snapshot && this.projectId == projectId && this.newest == newest
    {
      entries, this.projectId, this.newest := snapshot, projectId, newest;
    }

    method UpsertEntry(entry: Entry)
      modifies this`entries
      ensures entries == Upsert(old(entries), entry, newest)
    {
      var i := IndexOf(entries, entry.id);
      if i < |entries| {
        entries := entries[i := entry];
      } else {
        entries := entries + [entry];
      }
      entries := Sort(entries, newest);
    }

    /** The push listener: a scoped view ignores other projects. */
    method OnUpdated(entry: Entry)
      modifies this`entries
      ensures entries == (if projectId.Some? && entry.projectId != projectId.value then old(entries)
                          else Upsert(old(entries), entry, newest))
      ensures entries == Pushed(old(entries), [entry], projectId, newest)
    {
      assert [entry][..0] == [];
      if projectId.Some? && entry.projectId != projectId.value {
        return;
      }
      UpsertEntry(entry);
    }
  }

  predicate Accepted(entry: Entry, project: Option<string>) {
    project.None? || entry.projectId == project.value
  }

  function Pushed(snapshot: seq<Entry>, pushes: seq<Entry>, project: Option<string>,
          lt: (Entry, Entry) -> bool): seq<Entry> {
    if pushes == [] then snapshot
    else
      var before, last := Pushed(snapshot, pushes[..|pushes| - 1], project, lt), pushes[|pushes| - 1];
      if Accepted(last, project) then Upsert(before, last, lt) else before
  }

  /** The latest accepted entry per id. */
  function Latest(snapshot: seq<Entry>, pushes: seq<Entry>, project: Option<string>): map<int, Entry> {
    if pushes != [] then
      var before, last := Latest(snapshot, pushes[..|pushes| - 1], project), pushes[|pushes| - 1];
      if Accepted(last, project) then before[last.id := last] else before
    else if snapshot != [] then
      var last := snapshot[|snapshot| - 1];
      Latest(snapshot[..|snapshot| - 1], [], project)[last.id := last]
    else map[]
  }

  predicate UniqueIds(entries: seq<Entry>) {
    forall i, j :: 0 <= i < j < |entries| ==> entries[i].id != entries[j].id
  }

  /** The list holds exactly the entries of the map, one per id. */
  predicate Holds(entries: seq<Entry>, latest: map<int, Entry>) {
    && UniqueIds(entries)
    && (forall e :: e in entries ==> e.id in latest && latest[e.id] == e)
    && (forall id :: id in latest ==> latest[id] in entries && latest[id].id == id)
  }

  lemma {:induction false} SnapshotHolds(snapshot: seq<Entry>, project: Option<string>)
    requires UniqueIds(snapshot)
    ensures Holds(snapshot, Latest(snapshot, [], project))
  {
    if snapshot != [] {
      var front, last := snapshot[..|snapshot| - 1], snapshot[|snapshot| - 1];
      SnapshotHolds(front, project);
      assert snapshot == front + [last];
    }
  }

  lemma PutHolds(entries: seq<Entry>, latest: map<int, Entry>, entry: Entry)
    requires Holds(entries, latest)
    ensures Holds(Put(entries, entry), latest[entry.id := entry])
  {
    var i, put, now := IndexOf(entries, entry.id), Put(entries, entry), latest[entry.id := entry];
    assert i < |put| && put[i] == entry;
    forall e | e in put ensures e.id in now && now[e.id] == e {
      var j :| 0 <= j < |put| && put[j] == e;
      if j != i { assert entries[j] == e && e in entries; }
    }
    forall id | id in now ensures now[id] in put && now[id].id == id {
      if id != entry.id {
        assert latest[id] in entries;
        var j :| 0 <= j < |entries| && entries[j] == latest[id];
        assert j != i && put[j] == latest[id];
      }
    }
  }

  lemma SortHolds(entries: seq<Entry>, latest: map<int, Entry>, lt: (Entry, Entry) -> bool)
    requires Holds(entries, latest) && SortsById(lt)
    ensures Holds(Sort(entries, lt), latest) && Ascending(Sort(entries, lt), lt)
  {
    var sorted := Sort(entries, lt);
    SortAscending(entries, lt);
    PermutationMembers(sorted, entries);
    forall i, j | 0 <= i < j < |sorted| ensures sorted[i].id != sorted[j].id {
      assert lt(sorted[i], sorted[j]);
      assert sorted[i] in sorted && sorted[j] in sorted;
      assert latest[sorted[i].id] == sorted[i] && latest[sorted[j].id] == sorted[j];
    }
  }

  lemma {:induction false} PushedHolds(snapshot: seq<Entry>, pushes: seq<Entry>, project: Option<string>,
          lt: (Entry, Entry) -> bool)
    requires UniqueIds(snapshot) && SortsById(lt)
    ensures Holds(Pushed(snapshot, pushes, project, lt), Latest(snapshot, pushes, project))
    ensures (exists p :: p in pushes && Accepted(p, project)) ==> Ascending(Pushed(snapshot, pushes, project, lt), lt)
  {
    if pushes == [] {
      SnapshotHolds(snapshot, project);
    } else {
      var front, last := pushes[..|pushes| - 1], pushes[|pushes| - 1];
      PushedHolds(snapshot, front, project, lt);
      if Accepted(last, project) {
        var before, latest := Pushed(snapshot, front, project, lt), Latest(snapshot, front, project);
        PutHolds(before, latest, last);
        SortHolds(Put(before, last), latest[last.id := last], lt);
      } else {
        assert forall p :: p in pushes && p !in front ==> p == last;
      }
    }
  }

  /** The entry belongs to the view: any does to the view of all projects. */
  predicate InView(entry: Entry, project: Option<string>) {
    project.Some? ==> entry.projectId == project.value
  }

  /** The last push for the view under its id. */
  predicate LastPush(pushes: seq<Entry>, project: Option<string>, k: int) {
    && 0 <= k < |pushes| && InView(pushes[k], project)
    && forall j :: k < j < |pushes| && InView(pushes[j], project) ==> pushes[j].id != pushes[k].id
  }

  lemma {:induction false} LatestOrigin(snapshot: seq<Entry>, pushes: seq<Entry>, project: Option<string>, id: int)
    requires id in Latest(snapshot, pushes, project)
    ensures var e := Latest(snapshot, pushes, project)[id];
            e.id == id && (e in snapshot || (e in pushes && InView(e, project)))
    decreases |pushes|, |snapshot|
  {
    if pushes != [] {
      var front, last := pushes[..|pushes| - 1], pushes[|pushes| - 1];
      assert last in pushes;
      if !(Accepted(last, project) && id == last.id) { LatestOrigin(snapshot, front, project, id); }
    } else {
      var front, last := snapshot[..|snapshot| - 1], snapshot[|snapshot| - 1];
      assert last in snapshot;
      if id != last.id { LatestOrigin(front, [], project, id); }
    }
  }

  lemma {:induction false} LatestKeeps(snapshot: seq<Entry>, pushes: seq<Entry>, project: Option<string>, k: nat)
    requires LastPush(pushes, project, k)
    ensures pushes[k].id in Latest(snapshot, pushes, project)
    ensures Latest(snapshot, pushes, project)[pushes[k].id] == pushes[k]
  {
    if k < |pushes| - 1 {
      LatestKeeps(snapshot, pushes[..|pushes| - 1], project, k);
    }
  }

  /** A list shows nothing but what its snapshot had and what was pushed for its view, and of each id the
      last such push. */
  lemma ListShows(snapshot: seq<Entry>, pushes: seq<Entry>, project: Option<string>, lt: (Entry, Entry) -> bool)
    requires UniqueIds(snapshot) && SortsById(lt)
    ensures forall e :: e in Pushed(snapshot, pushes, project, lt) ==>
              e in snapshot || (e in pushes && InView(e, project))
    ensures forall k :: LastPush(pushes, project, k) ==> pushes[k] in Pushed(snapshot, pushes, project, lt)
  {
    PushedHolds(snapshot, pushes, project, lt);
    var list := Pushed(snapshot, pushes, project, lt);
    forall e | e in list ensures e in snapshot || (e in pushes && InView(e, project)) {
      LatestOrigin(snapshot, pushes, project, e.id);
    }
    forall k | LastPush(pushes, project, k) ensures pushes[k] in list {
      LatestKeeps(snapshot, pushes, project, k);
    }
  }

  /** Once an update was accepted the list is the one strictly sorted listing of the latest entry per id,
      whatever the snapshot's order and however the updates came. */
  lemma ListIsSortedLatest(snapshot: seq<Entry>, pushes: seq<Entry>, project: Option<string>,
          lt: (Entry, Entry) -> bool, listing: seq<Entry>)
    requires UniqueIds(snapshot) && SortsById(lt)
    requires exists p :: p in pushes && Accepted(p, project)
    requires Holds(listing, Latest(snapshot, pushes, project)) && Ascending(listing, lt)
    ensures Pushed(snapshot, pushes, project, lt) == listing
  {
    PushedHolds(snapshot, pushes, project, lt);
    AscendingUnique(Pushed(snapshot, pushes, project, lt), listing, lt);
  }
}
