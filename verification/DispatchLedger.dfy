/** The v18 rewrite of the dispatch ledger: two tables changed in place while a snapshot is walked. */
module DispatchLedger {
  import opened Text
  import opened Order
  import opened SkillIdentity

  datatype Event = Event(projectId: string, key: string)

  type Row = (string, string)

  function MigrateRow(row: Row): Row {
    (row.0, MigrateDispatchKey(row.1))
  }

  function Image(rows: set<Row>): set<Row> {
    set row | row in rows :: MigrateRow(row)
  }

  function Rewritten(rows: set<Row>, row: Row): set<Row> {
    if MigrateRow(row) == row then rows else rows - {row} + {MigrateRow(row)}
  }

  class Ledger {
    /** `dispatch_key`, PRIMARY KEY (project_id, key) */
    var dispatchKeys: set<Row>
    /** `dispatch_event` by id */
    var dispatchEvents: map<nat, Event>

    constructor (keys: set<Row>, events: map<nat, Event>)
      ensures dispatchKeys == keys && dispatchEvents == events
    {
      dispatchKeys, dispatchEvents := keys, events;
    }

    /** DELETE the legacy form, INSERT OR IGNORE the migrated one. */
    method RewriteKey(project: string, key: string)
      modifies this`dispatchKeys
      ensures dispatchKeys == Rewritten(old(dispatchKeys), (project, key))
    {
      var migrated := MigrateDispatchKey(key);
      if migrated == key {
        return;
      }
      dispatchKeys := dispatchKeys - {(project, key)};
      dispatchKeys := dispatchKeys + {(project, migrated)};
    }

    /** The loop over rows that are in the table; `done` collects them. */
    method RewriteKeys(snapshot: seq<Row>) returns (ghost done: set<Row>)
      requires forall k :: 0 <= k < |snapshot| ==> snapshot[k] in dispatchKeys
      modifies this`dispatchKeys
      ensures done <= old(dispatchKeys) && forall k :: 0 <= k < |snapshot| ==> snapshot[k] in done
      ensures dispatchKeys == Image(done) + (old(dispatchKeys) - done)
    {
      ghost var before := dispatchKeys;
      done := {};
      for i := 0 to |snapshot|
        invariant done <= before && forall k :: 0 <= k < i ==> snapshot[k] in done
        invariant dispatchKeys == Image(done) + (before - done)
      {
        RowStep(done, before, snapshot[i]);
        RewriteKey(snapshot[i].0, snapshot[i].1);
        done := done + {snapshot[i]};
      }
    }

    /** `snapshot` is the result of the SELECT, in whatever order the rows came. */
    method MigrateKeys(snapshot: seq<Row>)
      requires forall row :: row in snapshot <==> row in dispatchKeys
      modifies this`dispatchKeys
      ensures dispatchKeys == Image(old(dispatchKeys))
    {
      ghost var before := dispatchKeys;
      ghost var done := RewriteKeys(snapshot);
      assert done == before;
    }

    method RewriteEvent(id: nat)
      requires id in dispatchEvents
      modifies this`dispatchEvents
      ensures dispatchEvents == old(dispatchEvents)[id := MigrateEvent(old(dispatchEvents)[id])]
    {
      var event := dispatchEvents[id];
      var migrated := MigrateDispatchKey(event.key);
      if migrated == event.key {
        assert event == MigrateEvent(event);
        return;
      }
      dispatchEvents := dispatchEvents[id := event.(key := migrated)];
    }

    method RewriteEvents(snapshot: seq<nat>)
      requires Distinct(snapshot) && forall k :: 0 <= k < |snapshot| ==> snapshot[k] in dispatchEvents
      modifies this`dispatchEvents
      ensures dispatchEvents.Keys == old(dispatchEvents).Keys
      ensures forall k :: 0 <= k < |snapshot| ==>
              dispatchEvents[snapshot[k]] == MigrateEvent(old(dispatchEvents)[snapshot[k]])
    {
      ghost var before := dispatchEvents;
      for i := 0 to |snapshot|
        invariant dispatchEvents.Keys == before.Keys
        invariant forall k :: 0 <= k < i ==> dispatchEvents[snapshot[k]] == MigrateEvent(before[snapshot[k]])
        invariant forall k :: i <= k < |snapshot| ==> dispatchEvents[snapshot[k]] == before[snapshot[k]]
      {
        assert forall k :: 0 <= k < |snapshot| && k != i ==> snapshot[k] != snapshot[i];
        RewriteEvent(snapshot[i]);
      }
    }

    method MigrateEvents(snapshot: seq<nat>)
      requires Distinct(snapshot) && forall id :: id in snapshot <==> id in dispatchEvents
      modifies this`dispatchEvents
      ensures dispatchEvents == EventsAfter(old(dispatchEvents))
    {
      ghost var before := dispatchEvents;
      RewriteEvents(snapshot);
      forall id | id in before ensures dispatchEvents[id] == MigrateEvent(before[id]) {
        assert id in snapshot;
      }
    }

    /** The whole step: both loops, as `apply_v18` runs them. */
    method MigrateV18(keyRows: seq<Row>, eventIds: seq<nat>)
      requires forall row :: row in keyRows <==> row in dispatchKeys
      requires Distinct(eventIds) && forall id :: id in eventIds <==> id in dispatchEvents
      modifies this
      ensures dispatchKeys == Image(old(dispatchKeys))
      ensures dispatchEvents == EventsAfter(old(dispatchEvents))
      ensures forall id ::
                id in dispatchEvents
                && (old(dispatchEvents[id]).projectId, old(dispatchEvents[id]).key) in old(dispatchKeys) ==>
                  (dispatchEvents[id].projectId, dispatchEvents[id].key) in dispatchKeys
    {
      MigrateKeys(keyRows);
      MigrateEvents(eventIds);
      LinkedEventsStay(old(dispatchKeys), old(dispatchEvents));
    }
  }

  function MigrateEvent(e: Event): Event {
    e.(key := MigrateDispatchKey(e.key))
  }

  function EventsAfter(events: map<nat, Event>): map<nat, Event> {
    map id | id in events :: MigrateEvent(events[id])
  }

  /** The new table holds, for each old row, its project with the migrated key, and nothing else. */
  lemma ImageIs(rows: set<Row>, project: string, key: string)
    ensures (project, key) in Image(rows) <==> exists old_ :: (project, old_) in rows && MigrateDispatchKey(old_) == key
  {
    if (project, key) in Image(rows) {
      var was :| was in rows && MigrateRow(was) == (project, key);
      assert was == (project, was.1);
    }
    if old_ :| (project, old_) in rows && MigrateDispatchKey(old_) == key {
      assert MigrateRow((project, old_)) == (project, key);
    }
  }

  /** The same events, each in its project with its key migrated. */
  lemma EventsAre(events: map<nat, Event>, id: nat)
    ensures id in EventsAfter(events) <==> id in events
    ensures id in events ==>
              EventsAfter(events)[id].projectId == events[id].projectId
              && EventsAfter(events)[id].key == MigrateDispatchKey(events[id].key)
  {
  }

  /** A row already migrated is never deleted again, because migrating it once more changes nothing. */
  lemma ImageIsFixed(rows: set<Row>, row: Row)
    requires row in Image(rows)
    ensures MigrateRow(row) == row
  {
    var was :| was in rows && MigrateRow(was) == row;
    MigrateDispatchKeyIdempotent(was.1);
  }

  lemma ImageGrows(rows: set<Row>, row: Row)
    ensures Image(rows + {row}) == Image(rows) + {MigrateRow(row)}
  {
  }

  /** One turn of the loop, as an equation between tables: delete the old form, insert the new one. */
  lemma RowStep(done: set<Row>, before: set<Row>, row: Row)
    requires done <= before && row in before
    ensures var now := Image(done) + (before - done);
            Image(done + {row}) + (before - (done + {row}))
            == Rewritten(now, row)
  {
    ImageGrows(done, row);
    if row in Image(done) {
      ImageIsFixed(done, row);
    }
    if row in done {
      ImageHas(done, row);
    }
  }

  lemma ImageHas(rows: set<Row>, row: Row)
    requires row in rows
    ensures MigrateRow(row) in Image(rows)
  {
  }

  /** An event whose key was in the ledger still finds it there. */
  lemma LinkedEventsStay(keys: set<Row>, events: map<nat, Event>)
    ensures forall id :: id in events && (events[id].projectId, events[id].key) in keys ==>
              (EventsAfter(events)[id].projectId, EventsAfter(events)[id].key) in Image(keys)
  {
    forall id | id in events && (events[id].projectId, events[id].key) in keys
      ensures (EventsAfter(events)[id].projectId, EventsAfter(events)[id].key) in Image(keys)
    {
      var row := (events[id].projectId, events[id].key);
      assert MigrateRow(row) in Image(keys);
    }
  }

  /** Running the step again changes nothing, and no two projects are mixed up. */
  lemma ImageStable(rows: set<Row>)
    ensures Image(Image(rows)) == Image(rows)
    ensures forall row :: row in Image(rows) ==> exists was ::
            was in rows && was.0 == row.0 && MigrateDispatchKey(was.1) == row.1
  {
    forall row | row in Image(rows) ensures MigrateRow(row) == row {
      var was :| was in rows && MigrateRow(was) == row;
      MigrateDispatchKeyIdempotent(was.1);
    }
    forall row | row in Image(rows) ensures row in Image(Image(rows)) {
      assert MigrateRow(row) == row;
    }
    forall row | row in Image(Image(rows)) ensures row in Image(rows) {
      var was :| was in Image(rows) && MigrateRow(was) == row;
    }
    forall row | row in Image(rows)
      ensures exists was :: was in rows && was.0 == row.0 && MigrateDispatchKey(was.1) == row.1
    {
      var was :| was in rows && MigrateRow(was) == row;
    }
  }
}
