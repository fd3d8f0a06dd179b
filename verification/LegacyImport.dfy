/** The one-time import of the old JSON stores: guarded, and all or nothing. */
module LegacyImport {
  import opened Text

  /** One gathered legacy value, with the slice that owns it. */
  datatype Entry = Config(value: string) | Tracked(project: string, value: string)
                 | Dispatched(project: string, value: string) | Events(project: string, value: string)

  datatype Gathered = Gathered(config: Option<string>, tracked: seq<(string, string)>,
                               dispatched: seq<(string, string)>, events: seq<(string, string)>)

  function AsTracked(project: string, value: string): Entry {
    Tracked(project, value)
  }

  function AsDispatched(project: string, value: string): Entry {
    Dispatched(project, value)
  }

  function AsEvents(project: string, value: string): Entry {
    Events(project, value)
  }

  function Labelled(pairs: seq<(string, string)>, wrap: (string, string) -> Entry): (r: seq<Entry>) {
    seq(|pairs|, i requires 0 <= i < |pairs| => wrap(pairs[i].0, pairs[i].1))
  }

  /** The order of the import: configuration, tracked reviews, dispatched keys, events. */
  function Entries(g: Gathered): seq<Entry> {
    (if g.config.Some? then [Config(g.config.value)] else [])
    + Labelled(g.tracked, AsTracked)
    + Labelled(g.dispatched, AsDispatched)
    + Labelled(g.events, AsEvents)
  }

  /** Every gathered value is imported once, under its project and by the slice that owns it: the
      configuration before all others, then the three lists one after the other, each in its order. */
  lemma EntriesInOrder(g: Gathered)
    ensures var c := if g.config.None? then 0 else 1;
            var t, d, e, all := |g.tracked|, |g.dispatched|, |g.events|, Entries(g);
            && |all| == c + t + d + e
            && (g.config.Some? ==> all[0] == Config(g.config.value))
            && (forall i :: 0 <= i < t ==> IsTracked(all[c + i], g.tracked[i]))
            && (forall i :: 0 <= i < d ==> IsDispatched(all[c + t + i], g.dispatched[i]))
            && (forall i :: 0 <= i < e ==> IsEvents(all[c + t + d + i], g.events[i]))
  {
    var first := if g.config.Some? then [Config(g.config.value)] else [];
    var a, b, z := Labelled(g.tracked, AsTracked), Labelled(g.dispatched, AsDispatched), Labelled(g.events, AsEvents);
    FourParts(first, a, b, z);
    var all := Entries(g);
    forall i | 0 <= i < |g.tracked| ensures IsTracked(all[|first| + i], g.tracked[i]) {
      TrackedAt(g.tracked, i);
    }
    forall i | 0 <= i < |g.dispatched| ensures IsDispatched(all[|first| + |a| + i], g.dispatched[i]) {
      DispatchedAt(g.dispatched, i);
    }
    forall i | 0 <= i < |g.events| ensures IsEvents(all[|first| + |a| + |b| + i], g.events[i]) {
      EventsAt(g.events, i);
    }
  }

  lemma TrackedAt(pairs: seq<(string, string)>, i: nat)
    requires i < |pairs|
    ensures IsTracked(Labelled(pairs, AsTracked)[i], pairs[i])
  {
    assert Labelled(pairs, AsTracked)[i] == AsTracked(pairs[i].0, pairs[i].1);
  }

  lemma DispatchedAt(pairs: seq<(string, string)>, i: nat)
    requires i < |pairs|
    ensures IsDispatched(Labelled(pairs, AsDispatched)[i], pairs[i])
  {
    assert Labelled(pairs, AsDispatched)[i] == AsDispatched(pairs[i].0, pairs[i].1);
  }

  lemma EventsAt(pairs: seq<(string, string)>, i: nat)
    requires i < |pairs|
    ensures IsEvents(Labelled(pairs, AsEvents)[i], pairs[i])
  {
    assert Labelled(pairs, AsEvents)[i] == AsEvents(pairs[i].0, pairs[i].1);
  }

  lemma FourParts(first: seq<Entry>, a: seq<Entry>, b: seq<Entry>, z: seq<Entry>)
    ensures var all := first + a + b + z;
            && |all| == |first| + |a| + |b| + |z|
            && (forall i :: 0 <= i < |first| ==> all[i] == first[i])
            && (forall i :: 0 <= i < |a| ==> all[|first| + i] == a[i])
            && (forall i :: 0 <= i < |b| ==> all[|first| + |a| + i] == b[i])
            && (forall i :: 0 <= i < |z| ==> all[|first| + |a| + |b| + i] == z[i])
  {
  }

  predicate IsTracked(entry: Entry, gathered: (string, string)) {
    entry.Tracked? && entry.project == gathered.0 && entry.value == gathered.1
  }

  predicate IsDispatched(entry: Entry, gathered: (string, string)) {
    entry.Dispatched? && entry.project == gathered.0 && entry.value == gathered.1
  }

  predicate IsEvents(entry: Entry, gathered: (string, string)) {
    entry.Events? && entry.project == gathered.0 && entry.value == gathered.1
  }

  /** `apply` is what the owning slice does with a value; none when it refuses it. */
  function ImportAll<D>(data: D, entries: seq<Entry>, apply: (D, Entry) -> Option<D>): Option<D> {
    if entries == [] then Some(data)
    else
      match ImportAll(data, entries[..|entries| - 1], apply)
      case None => None
      case Some(mid) => apply(mid, entries[|entries| - 1])
  }

  lemma {:induction false} RefusedStays<D>(data: D, entries: seq<Entry>, n: nat, apply: (D, Entry) -> Option<D>)
    requires n <= |entries| && ImportAll(data, entries[..n], apply).None?
    ensures ImportAll(data, entries, apply).None?
  {
    if n == |entries| {
      assert entries[..n] == entries;
    } else {
      assert entries[..|entries| - 1][..n] == entries[..n];
      RefusedStays(data, entries[..|entries| - 1], n, apply);
    }
  }

  /** One more value of a list behind others. */
  lemma ImportOneMore<D>(data: D, done: seq<Entry>, all: seq<Entry>, i: nat, apply: (D, Entry) -> Option<D>)
    requires i < |all| && ImportAll(data, done + all[..i], apply).Some?
    ensures ImportAll(data, done + all[..i + 1], apply) == apply(ImportAll(data, done + all[..i], apply).value, all[i])
  {
    var more := done + all[..i + 1];
    assert more[..|more| - 1] == done + all[..i] && more[|more| - 1] == all[i];
  }

  lemma RefusedInside<D>(data: D, done: seq<Entry>, all: seq<Entry>, i: nat, apply: (D, Entry) -> Option<D>)
    requires i <= |all| && ImportAll(data, done + all[..i], apply).None?
    ensures ImportAll(data, done + all, apply).None?
  {
    assert (done + all)[..|done| + i] == done + all[..i];
    RefusedStays(data, done + all, |done| + i, apply);
  }

  datatype State<D> = State(data: D, imported: bool)

  function Attempt<D>(s: State<D>, g: Gathered, apply: (D, Entry) -> Option<D>): State<D> {
    if s.imported || ImportAll(s.data, Entries(g), apply).None? then s
    else State(ImportAll(s.data, Entries(g), apply).value, true)
  }

  class Database<D> {
    var data: D
    var imported: bool
    const apply: (D, Entry) -> Option<D>

    constructor (data: D, apply: (D, Entry) -> Option<D>)
      ensures this.data == data && !imported && this.apply == apply
    {
      this.data, imported, this.apply := data, false, apply;
    }

    method ImportLoop(wrap: (string, string) -> Entry, pairs: seq<(string, string)>, ghost start: D,
            ghost done: seq<Entry>)
      returns (ok: bool)
      requires ImportAll(start, done, apply) == Some(data)
      modifies this`data
      ensures ok <==> ImportAll(start, done + Labelled(pairs, wrap), apply).Some?
      ensures ok ==> ImportAll(start, done + Labelled(pairs, wrap), apply) == Some(data)
    {
      ghost var all := Labelled(pairs, wrap);
      assert done + all[..0] == done;
      for i := 0 to |pairs|
        invariant ImportAll(start, done + all[..i], apply) == Some(data)
      {
        ImportOneMore(start, done, all, i, apply);
        var next := apply(data, wrap(pairs[i].0, pairs[i].1));
        if next.None? {
          RefusedInside(start, done, all, i + 1, apply);
          return false;
        }
        data := next.value;
      }
      assert all[..|pairs|] == all;
      ok := true;
    }

    /** `import_legacy_into_db` */
    method ImportLegacy(g: Gathered) returns (ok: bool)
      modifies this
      ensures State(data, imported) == Attempt(old(State(data, imported)), g, apply)
      ensures ok <==> imported
    {
      if imported { return true; }
      var saved := data;
      ghost var done: seq<Entry> := [];
      ok := true;
      if g.config.Some? {
        var next := apply(data, Config(g.config.value));
        done := [Config(g.config.value)];
        assert done[..0] == [];
        if next.None? { ok := false; } else { data := next.value; }
      }
      ghost var rest1 := Labelled(g.tracked, AsTracked);
      ghost var rest2 := Labelled(g.dispatched, AsDispatched);
      ghost var rest3 := Labelled(g.events, AsEvents);
      ghost var all := done + rest1 + rest2 + rest3;
      assert all == Entries(g);
      assert all[..|done|] == done && all[..|done + rest1|] == done + rest1
             && all[..|done + rest1 + rest2|] == done + rest1 + rest2;
      if !ok { RefusedStays(saved, all, |done|, apply); }
      if ok {
        ok := ImportLoop(AsTracked, g.tracked, saved, done);
        if !ok { RefusedStays(saved, all, |done + rest1|, apply); }
      }
      if ok {
        ok := ImportLoop(AsDispatched, g.dispatched, saved, done + rest1);
        if !ok { RefusedStays(saved, all, |done + rest1 + rest2|, apply); }
      }
      if ok { ok := ImportLoop(AsEvents, g.events, saved, done + rest1 + rest2); }
      if ok { imported := true; } else { data := saved; }
    }
  }

  function Attempts<D>(s: State<D>, tries: seq<Gathered>, apply: (D, Entry) -> Option<D>): State<D> {
    if tries == [] then s else Attempt(Attempts(s, tries[..|tries| - 1], apply), tries[|tries| - 1], apply)
  }

  /** Over any sequence of attempts the import takes effect exactly once: the result is that of the
      first attempt whose values are all accepted, on the data as it was, or the data as it was. */
  lemma {:induction false} TakesEffectOnce<D>(data: D, tries: seq<Gathered>, apply: (D, Entry) -> Option<D>)
    ensures var end := Attempts(State(data, false), tries, apply);
      if forall i :: 0 <= i < |tries| ==> ImportAll(data, Entries(tries[i]), apply).None? then end == State(data, false)
      else
        exists k :: 0 <= k < |tries| && ImportAll(data, Entries(tries[k]), apply).Some?
          && end == State(ImportAll(data, Entries(tries[k]), apply).value, true)
          && forall i :: 0 <= i < k ==> ImportAll(data, Entries(tries[i]), apply).None?
  {
    if tries != [] {
      var front := tries[..|tries| - 1];
      TakesEffectOnce(data, front, apply);
      assert forall i :: 0 <= i < |front| ==> front[i] == tries[i];
    }
  }
}
