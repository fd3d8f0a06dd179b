/** Whole runs of the outbox: transactions of any producers, in any order, between arbitrary status
    changes by the worker, the user and the staleness sweep. */
module SendOnce {
  import opened Text
  import opened Outbox
  import K = ProducerKeys

  datatype Step = Commit(jobs: seq<Job>, now: nat) | SetStatus(id: nat, status: Status)

  function WithStatus(rows: seq<Row>, id: nat, status: Status): (r: seq<Row>)
    ensures |r| == |rows|
    ensures forall i :: 0 <= i < |rows| ==> r[i] == (if rows[i].id == id then rows[i].(status := status) else rows[i])
  {
    seq(|rows|, i requires 0 <= i < |rows| => if rows[i].id == id then rows[i].(status := status) else rows[i])
  }

  /** A transaction that fails, and an update that would break a unique index, change nothing. */
  ghost function Next(t: Table, step: Step): Table {
    match step
    case Commit(jobs, now) =>
      (match RunJobs(t, jobs, now)
       case Ok((end, _)) => end
       case Err(_) => t)
    case SetStatus(id, status) =>
      var rows := WithStatus(t.rows, id, status);
      if LiveKeysUnique(rows) then t.(rows := rows) else t
  }

  ghost function Run(t: Table, steps: seq<Step>): Table {
    if steps == [] then t else Next(Run(t, steps[..|steps| - 1]), steps[|steps| - 1])
  }

  // ---------------------------------------------------------------- at most one row per funnel key

  /** The keys that only lookup-first funnels use. */
  type Keys = (string, string) -> bool

  predicate InKeys(job: Job, keys: Keys) {
    job.request.dedupe.Some? && keys(job.request.project, job.request.dedupe.value)
  }

  ghost predicate JobsOk(jobs: seq<Job>, keys: Keys) {
    forall i :: 0 <= i < |jobs| ==> JobOk(jobs[i]) && (InKeys(jobs[i], keys) ==> jobs[i].lookupFirst)
  }

  ghost predicate StepsOk(steps: seq<Step>, keys: Keys) {
    forall i :: 0 <= i < |steps| ==> steps[i].Commit? ==> JobsOk(steps[i].jobs, keys)
  }

  predicate SameKey(a: Row, b: Row) {
    a.project == b.project && a.dedupe == b.dedupe
  }

  predicate KeyedIn(r: Row, keys: Keys) {
    r.dedupe.Some? && keys(r.project, r.dedupe.value)
  }

  predicate AtMostOne(rows: seq<Row>, keys: Keys) {
    forall i, j :: 0 <= i < j < |rows| && KeyedIn(rows[i], keys) ==> !SameKey(rows[i], rows[j])
  }

  lemma RunJobAtMostOne(t: Table, job: Job, now: nat, keys: Keys)
    requires TableOk(t) && JobOk(job) && AtMostOne(t.rows, keys) && (InKeys(job, keys) ==> job.lookupFirst)
    requires RunJob(t, job, now).Ok?
    ensures AtMostOne(RunJob(t, job, now).value.0.rows, keys)
  {
    ReusesIff(t, job);
    var end := RunJob(t, job, now).value.0;
    if end != t {
      var row := NewRow(t, job.request, job.producer.value);
      if InKeys(job, keys) {
        assert forall i :: 0 <= i < |t.rows| ==> !Carries(t.rows[i], job.request.project, job.request.dedupe.value);
      }
      assert forall i :: 0 <= i < |t.rows| && KeyedIn(t.rows[i], keys) ==> !SameKey(t.rows[i], row);
    }
  }

  lemma {:induction false} RunJobsOk(t: Table, jobs: seq<Job>, now: nat, keys: Keys)
    requires TableOk(t) && JobsOk(jobs, keys) && RunJobs(t, jobs, now).Ok?
    ensures var end := RunJobs(t, jobs, now).value.0;
            TableOk(end) && Grown(t, end) && (AtMostOne(t.rows, keys) ==> AtMostOne(end.rows, keys))
    ensures |RunJobs(t, jobs, now).value.1| == |jobs|
  {
    if jobs != [] {
      var front, last := jobs[..|jobs| - 1], jobs[|jobs| - 1];
      RunJobsOk(t, front, now, keys);
      var mid := RunJobs(t, front, now).value.0;
      RunJobOk(mid, last, now);
      if AtMostOne(mid.rows, keys) { RunJobAtMostOne(mid, last, now, keys); }
    }
  }

  /** The row of this job, column by column. */
  predicate RowOf(row: Row, job: Job) {
    job.producer.Some? && Stores(row, row.id, job.request, job.producer.value)
  }

  ghost predicate MadeBySome(row: Row, jobs: seq<Job>) {
    exists j :: 0 <= j < |jobs| && RowOf(row, jobs[j])
  }

  lemma MadeByMore(row: Row, jobs: seq<Job>, n: nat)
    requires n <= |jobs| && MadeBySome(row, jobs[..n])
    ensures MadeBySome(row, jobs)
  {
    var j :| 0 <= j < n && RowOf(row, jobs[..n][j]);
    assert jobs[j] == jobs[..n][j];
  }

  /** Every row a transaction adds is the row of one of its jobs. */
  lemma {:induction false} AddedRows(t: Table, jobs: seq<Job>, now: nat, x: nat)
    requires TableOk(t) && JobsOk(jobs, NoKeys) && RunJobs(t, jobs, now).Ok?
    requires |t.rows| <= x < |RunJobs(t, jobs, now).value.0.rows|
    ensures MadeBySome(RunJobs(t, jobs, now).value.0.rows[x], jobs)
  {
    if jobs != [] {
      var front, last := jobs[..|jobs| - 1], jobs[|jobs| - 1];
      RunJobsOk(t, front, now, NoKeys);
      var mid, end := RunJobs(t, front, now).value.0, RunJobs(t, jobs, now).value.0;
      RunJobOk(mid, last, now);
      if x < |mid.rows| {
        AddedRows(t, front, now, x);
        assert end.rows[x] == mid.rows[x];
        MadeByMore(end.rows[x], jobs, |jobs| - 1);
      } else {
        assert RowOf(end.rows[x], jobs[|jobs| - 1]);
      }
    }
  }

  /** Rows that differ in nothing but their status. */
  ghost predicate StatusesApart(a: seq<Row>, b: seq<Row>) {
    |a| == |b| && forall i :: 0 <= i < |a| ==> a[i].(status := Done) == b[i].(status := Done)
  }

  lemma UpdatedTableOk(t: Table, rows: seq<Row>)
    requires TableOk(t) && StatusesApart(t.rows, rows) && LiveKeysUnique(rows)
    ensures TableOk(t.(rows := rows))
  {
    forall i | 0 <= i < |rows|
      ensures rows[i].id == t.rows[i].id && rows[i].producer == t.rows[i].producer && Coherent(rows[i])
    {
      assert Coherent(t.rows[i]) && t.rows[i].(status := Done) == rows[i].(status := Done);
    }
  }

  lemma UpdatedAtMostOne(a: seq<Row>, b: seq<Row>, keys: Keys)
    requires StatusesApart(a, b) && AtMostOne(a, keys)
    ensures AtMostOne(b, keys)
  {
    forall i | 0 <= i < |b| ensures b[i].project == a[i].project && b[i].dedupe == a[i].dedupe {
      assert a[i].(status := Done) == b[i].(status := Done);
    }
  }

  lemma SetStatusOk(t: Table, id: nat, status: Status, keys: Keys)
    requires TableOk(t)
    ensures var end := Next(t, SetStatus(id, status));
            TableOk(end) && (AtMostOne(t.rows, keys) ==> AtMostOne(end.rows, keys))
  {
    var rows := WithStatus(t.rows, id, status);
    if LiveKeysUnique(rows) {
      UpdatedTableOk(t, rows);
      if AtMostOne(t.rows, keys) { UpdatedAtMostOne(t.rows, rows, keys); }
    }
  }

  /** A row that would be live now, beside another live row of its key. */
  ghost predicate WouldClash(t: Table, id: nat, status: Status) {
    exists i, j :: 0 <= i < |t.rows| && 0 <= j < |t.rows| && i != j && ClashAt(t, i, j, id, status)
  }

  predicate ClashAt(t: Table, i: nat, j: nat, id: nat, status: Status)
    requires i < |t.rows| && j < |t.rows|
  {
    && t.rows[i].id == id && (status.Pending? || status.Blocked?)
    && (t.rows[j].status.Pending? || t.rows[j].status.Blocked?)
    && t.rows[i].dedupe.Some? && t.rows[i].dedupe == t.rows[j].dedupe && t.rows[i].project == t.rows[j].project
  }

  lemma ClashFound(t: Table, id: nat, status: Status, i: nat, j: nat)
    requires TableOk(t) && i < j < |t.rows|
    requires SameLiveKey(WithStatus(t.rows, id, status)[i], WithStatus(t.rows, id, status)[j])
    ensures ClashAt(t, i, j, id, status) || ClashAt(t, j, i, id, status)
  {
    assert !SameLiveKey(t.rows[i], t.rows[j]) && t.rows[i].id < t.rows[j].id;
  }

  lemma ClashMade(t: Table, id: nat, status: Status, i: nat, j: nat)
    requires TableOk(t) && i < |t.rows| && j < |t.rows| && i != j && ClashAt(t, i, j, id, status)
    ensures !LiveKeysUnique(WithStatus(t.rows, id, status))
  {
    var rows := WithStatus(t.rows, id, status);
    IdsApart(t, i, j);
    assert SameLiveKey(rows[i], rows[j]) && SameLiveKey(rows[j], rows[i]);
  }

  lemma ClashIff(t: Table, id: nat, status: Status)
    requires TableOk(t)
    ensures LiveKeysUnique(WithStatus(t.rows, id, status)) <==> !WouldClash(t, id, status)
  {
    var rows := WithStatus(t.rows, id, status);
    if !LiveKeysUnique(rows) {
      var i, j :| 0 <= i < j < |rows| && SameLiveKey(rows[i], rows[j]);
      ClashFound(t, id, status, i, j);
    }
    if WouldClash(t, id, status) {
      var i, j :| 0 <= i < |t.rows| && 0 <= j < |t.rows| && i != j && ClashAt(t, i, j, id, status);
      ClashMade(t, id, status, i, j);
    }
  }

  /** A status change takes effect on its row alone, unless that row would be the second live one of its key. */
  lemma StatusStep(t: Table, id: nat, status: Status)
    requires TableOk(t)
    ensures var after := Next(t, SetStatus(id, status));
            if WouldClash(t, id, status) then after == t
            else
              && after.nextId == t.nextId && |after.rows| == |t.rows|
              && forall i :: 0 <= i < |t.rows| ==>
                   after.rows[i] == if t.rows[i].id == id then t.rows[i].(status := status) else t.rows[i]
  {
    ClashIff(t, id, status);
  }

  /** Over any run of transactions and status changes: both unique indexes hold, and a key that only
      lookup-first funnels use never gets a second row, even after its first one is done or dead. */
  lemma {:induction false} OneRowPerFunnelKey(t: Table, steps: seq<Step>, keys: Keys)
    requires TableOk(t) && AtMostOne(t.rows, keys) && StepsOk(steps, keys)
    ensures TableOk(Run(t, steps)) && AtMostOne(Run(t, steps).rows, keys)
  {
    if steps != [] {
      var front, last := steps[..|steps| - 1], steps[|steps| - 1];
      OneRowPerFunnelKey(t, front, keys);
      match last
      case Commit(jobs, now) =>
        if RunJobs(Run(t, front), jobs, now).Ok? { RunJobsOk(Run(t, front), jobs, now, keys); }
      case SetStatus(id, status) => SetStatusOk(Run(t, front), id, status, keys);
    }
  }

  // ---------------------------------------------------------------- repeated calls

  /** A job of a funnel under a dedupe key. */
  predicate FunnelJob(job: Job) {
    job.lookupFirst && job.request.dedupe.Some?
        && job.producer == K.ForDedupe(job.request.project, job.request.dedupe.value)
  }

  predicate FunnelJobs(jobs: seq<Job>) {
    forall i :: 0 <= i < |jobs| ==> FunnelJob(jobs[i])
  }

  function Found(t: Table, job: Job): Option<nat>
    requires FunnelJob(job)
  {
    First(t.rows, OfKey(job.request.project, job.request.dedupe.value))
  }

  lemma FunnelJobIsOk(job: Job)
    requires FunnelJob(job)
    ensures JobOk(job)
  {
    if job.producer.Some? {
      var project, key := job.request.project, job.request.dedupe.value;
      forall p: string, k: string | job.producer.value == K.DedupeText(p, k) ensures project == p && key == k {
        K.DedupeKeyUnique(project, key, p, k);
      }
    }
  }

  /** After a funnel job its id is what the lookup of its key finds. */
  lemma RunJobFound(t: Table, job: Job, now: nat)
    requires TableOk(t) && FunnelJob(job) && RunJob(t, job, now).Ok?
    ensures Found(RunJob(t, job, now).value.0, job) == Some(RunJob(t, job, now).value.1)
  {
    var project, key := job.request.project, job.request.dedupe.value;
    var of := OfKey(project, key);
    if Found(t, job).None? {
      FirstSpec(t.rows, of);
      FirstSpec(t.rows, OfProducer(job.producer.value));
      FirstSpec(t.rows, LiveOfKey(project, key));
      assert forall i :: 0 <= i < |t.rows| ==> !of(t.rows[i]) && Coherent(t.rows[i]);
      assert !Refused(t.rows, job.request, job.producer.value);
      var row := NewRow(t, job.request, job.producer.value);
      FirstAppend(t.rows, [row], of);
      assert of(row);
    }
  }

  lemma FoundStaysGrown(a: Table, b: Table, job: Job)
    requires FunnelJob(job) && Grown(a, b) && Found(a, job).Some?
    ensures Found(b, job) == Found(a, job)
  {
    FirstAppend(a.rows, b.rows[|a.rows|..], OfKey(job.request.project, job.request.dedupe.value));
    assert a.rows + b.rows[|a.rows|..] == b.rows;
  }

  lemma {:induction false} FoundStaysUpdated(rows: seq<Row>, id: nat, status: Status, p: string, k: string)
    ensures First(WithStatus(rows, id, status), OfKey(p, k)) == First(rows, OfKey(p, k))
  {
    if rows != [] {
      assert WithStatus(rows, id, status)[1..] == WithStatus(rows[1..], id, status);
      FoundStaysUpdated(rows[1..], id, status, p, k);
    }
  }

  predicate NoKeys(p: string, k: string) {
    false
  }

  lemma {:induction false} FoundStays(t: Table, steps: seq<Step>, job: Job)
    requires TableOk(t) && StepsOk(steps, NoKeys) && FunnelJob(job) && Found(t, job).Some?
    ensures TableOk(Run(t, steps)) && Found(Run(t, steps), job) == Found(t, job)
  {
    if steps != [] {
      var front, last := steps[..|steps| - 1], steps[|steps| - 1];
      FoundStays(t, front, job);
      var mid := Run(t, front);
      match last
      case Commit(jobs, now) =>
        if RunJobs(mid, jobs, now).Ok? {
          RunJobsOk(mid, jobs, now, NoKeys);
          FoundStaysGrown(mid, RunJobs(mid, jobs, now).value.0, job);
        }
      case SetStatus(id, status) =>
        SetStatusOk(mid, id, status, NoKeys);
        FoundStaysUpdated(mid.rows, id, status, job.request.project, job.request.dedupe.value);
    }
  }

  ghost predicate AllFound(t: Table, jobs: seq<Job>, ids: seq<nat>)
    requires FunnelJobs(jobs)
  {
    |ids| == |jobs| && forall i :: 0 <= i < |jobs| ==> Found(t, jobs[i]) == Some(ids[i])
  }

  lemma AllFoundStep(a: Table, b: Table, jobs: seq<Job>, ids: seq<nat>, id: nat)
    requires FunnelJobs(jobs) && jobs != [] && Grown(a, b)
    requires FunnelJobs(jobs[..|jobs| - 1]) && AllFound(a, jobs[..|jobs| - 1], ids)
    requires Found(b, jobs[|jobs| - 1]) == Some(id)
    ensures AllFound(b, jobs, ids + [id])
  {
    var front := jobs[..|jobs| - 1];
    forall i | 0 <= i < |front| ensures Found(b, jobs[i]) == Some(ids[i]) {
      assert front[i] == jobs[i];
      FoundStaysGrown(a, b, front[i]);
    }
  }

  /** What a funnel call returned is what the lookups of its keys find afterwards. */
  lemma {:induction false} CallFound(t: Table, jobs: seq<Job>, now: nat)
    requires TableOk(t) && FunnelJobs(jobs) && RunJobs(t, jobs, now).Ok?
    ensures var (end, ids) := RunJobs(t, jobs, now).value;
      TableOk(end) && Grown(t, end) && AllFound(end, jobs, ids)
  {
    if jobs != [] {
      var front, last := jobs[..|jobs| - 1], jobs[|jobs| - 1];
      assert FunnelJobs(front);
      CallFound(t, front, now);
      var (mid, ids) := RunJobs(t, front, now).value;
      FunnelJobIsOk(last);
      RunJobOk(mid, last, now);
      RunJobFound(mid, last, now);
      var (end, id) := RunJob(mid, last, now).value;
      AllFoundStep(mid, end, jobs, ids, id);
    }
  }

  lemma {:induction false} AllReused(t: Table, jobs: seq<Job>, ids: seq<nat>, now: nat)
    requires FunnelJobs(jobs) && AllFound(t, jobs, ids)
    ensures RunJobs(t, jobs, now) == Ok((t, ids))
  {
    if jobs != [] {
      var front, firstIds := jobs[..|jobs| - 1], ids[..|ids| - 1];
      assert forall i :: 0 <= i < |front| ==> front[i] == jobs[i] && firstIds[i] == ids[i];
      AllReused(t, front, firstIds, now);
      assert ids == firstIds + [ids[|ids| - 1]];
    }
  }

  /** The same funnel call, whatever ran in between and however its rows fared: it succeeds, returns
      the same ids in the same order and changes nothing. Texts and times may differ, keys not. */
  lemma RepeatedCall(t: Table, jobs: seq<Job>, now: nat, between: seq<Step>, again: seq<Job>, later: nat)
    requires TableOk(t) && FunnelJobs(jobs) && RunJobs(t, jobs, now).Ok? && StepsOk(between, NoKeys)
    requires FunnelJobs(again) && |again| == |jobs|
    requires forall i :: 0 <= i < |jobs| ==>
      again[i].request.project == jobs[i].request.project && again[i].request.dedupe == jobs[i].request.dedupe
    ensures var (mid, ids) := RunJobs(t, jobs, now).value;
            RunJobs(Run(mid, between), again, later) == Ok((Run(mid, between), ids))
  {
    CallFound(t, jobs, now);
    var (mid, ids) := RunJobs(t, jobs, now).value;
    forall i | 0 <= i < |jobs| ensures Found(Run(mid, between), again[i]) == Some(ids[i]) {
      assert Found(mid, jobs[i]) == Some(ids[i]);
      FoundStays(mid, between, jobs[i]);
      assert Found(Run(mid, between), again[i]) == Found(Run(mid, between), jobs[i]);
    }
    AllReused(Run(mid, between), again, ids, later);
  }

  lemma FoundRow(t: Table, job: Job) returns (i: nat)
    requires FunnelJob(job) && Found(t, job).Some?
    ensures i < |t.rows| && t.rows[i].id == Found(t, job).value
    ensures Carries(t.rows[i], job.request.project, job.request.dedupe.value)
  {
    var of := OfKey(job.request.project, job.request.dedupe.value);
    FirstSpec(t.rows, of);
    i :| 0 <= i < |t.rows| && of(t.rows[i]) && t.rows[i].id == First(t.rows, of).value;
  }

  /** One id per key: two jobs of a call get the same id exactly when they have the same key. */
  lemma CallIds(t: Table, jobs: seq<Job>, now: nat, i: nat, j: nat)
    requires TableOk(t) && FunnelJobs(jobs) && RunJobs(t, jobs, now).Ok? && i < |jobs| && j < |jobs|
    ensures |RunJobs(t, jobs, now).value.1| == |jobs|
    ensures RunJobs(t, jobs, now).value.1[i] == RunJobs(t, jobs, now).value.1[j] <==>
              jobs[i].request.project == jobs[j].request.project && jobs[i].request.dedupe == jobs[j].request.dedupe
  {
    CallFound(t, jobs, now);
    var (end, ids) := RunJobs(t, jobs, now).value;
    assert Found(end, jobs[i]) == Some(ids[i]) && Found(end, jobs[j]) == Some(ids[j]);
    var x := FoundRow(end, jobs[i]);
    var y := FoundRow(end, jobs[j]);
    IdsApart(end, x, y);
  }

  lemma AddedForKey(before: seq<Row>, rows: seq<Row>, x: nat, project: string, key: string)
    requires before <= rows && x < |rows| && Carries(rows[x], project, key)
    ensures x < |before| ==> HasKey(before, project, key)
  {
  }

  lemma FoundBefore(t: Table, end: Table, job: Job, id: nat)
    requires FunnelJob(job) && Grown(t, end) && Found(end, job) == Some(id)
    ensures var project, key := job.request.project, job.request.dedupe.value;
            HasKey(t.rows, project, key) ==> NamesFirst(t.rows, id, (r: Row) => Carries(r, project, key))
  {
    var project, key := job.request.project, job.request.dedupe.value;
    var of := OfKey(project, key);
    FirstAppend(t.rows, end.rows[|t.rows|..], of);
    assert t.rows + end.rows[|t.rows|..] == end.rows;
    FirstNamed(t.rows, of, (r: Row) => Carries(r, project, key));
  }

  lemma FunnelJobsOk(jobs: seq<Job>)
    requires FunnelJobs(jobs)
    ensures JobsOk(jobs, NoKeys)
  {
    forall i | 0 <= i < |jobs| ensures JobOk(jobs[i]) { FunnelJobIsOk(jobs[i]); }
  }

  /** The row was added for this key, by one of the jobs. */
  ghost predicate AddedAs(t: Table, end: Table, id: nat, jobs: seq<Job>, project: string, key: string) {
    exists x :: |t.rows| <= x < |end.rows| && end.rows[x].id == id && Carries(end.rows[x], project, key)
                && MadeBySome(end.rows[x], jobs)
  }

  /** The id at each place of a funnel call: that of the first row of its key, of any status, if there was
      one before the call; else that of a row the call added for this key. */
  lemma CallRow(t: Table, jobs: seq<Job>, now: nat, i: nat)
    requires TableOk(t) && FunnelJobs(jobs) && RunJobs(t, jobs, now).Ok? && i < |jobs|
    ensures |RunJobs(t, jobs, now).value.1| == |jobs|
    ensures var (end, ids) := RunJobs(t, jobs, now).value;
            var project, key := jobs[i].request.project, jobs[i].request.dedupe.value;
            if HasKey(t.rows, project, key) then NamesFirst(t.rows, ids[i], (r: Row) => Carries(r, project, key))
            else AddedAs(t, end, ids[i], jobs, project, key)
  {
    var project, key := jobs[i].request.project, jobs[i].request.dedupe.value;
    CallFound(t, jobs, now);
    var (end, ids) := RunJobs(t, jobs, now).value;
    assert Found(end, jobs[i]) == Some(ids[i]);
    FoundBefore(t, end, jobs[i], ids[i]);
    if !HasKey(t.rows, project, key) {
      var x := FoundRow(end, jobs[i]);
      AddedForKey(t.rows, end.rows, x, project, key);
      FunnelJobsOk(jobs);
      AddedRows(t, jobs, now, x);
    }
  }

  lemma IdsApart(t: Table, x: nat, y: nat)
    requires TableOk(t) && x < |t.rows| && y < |t.rows|
    ensures t.rows[x].id == t.rows[y].id <==> x == y
  {
    assert x < y ==> t.rows[x].id < t.rows[y].id;
    assert y < x ==> t.rows[y].id < t.rows[x].id;
  }

  /** The exclusiveness of funnel keys is needed: once every row of a key is done or dead, a producer
      that does not look first adds a second row under it. */
  lemma SharedKeyDoubles(t: Table, q: Request, producer: string, now: nat, keys: Keys)
    requires TableOk(t) && q.dedupe.Some? && Fits(q, now) && keys(q.project, q.dedupe.value)
    requires HasKey(t.rows, q.project, q.dedupe.value)
    requires forall i :: 0 <= i < |t.rows| ==> t.rows[i].producer != producer
    requires forall i :: 0 <= i < |t.rows| ==> !LiveOfKey(q.project, q.dedupe.value)(t.rows[i])
    ensures RunJob(t, Job(q, Some(producer), false), now).Ok?
    ensures !AtMostOne(RunJob(t, Job(q, Some(producer), false), now).value.0.rows, keys)
  {
    FirstSpec(t.rows, OfProducer(producer));
    FirstSpec(t.rows, LiveOfKey(q.project, q.dedupe.value));
    var row := NewRow(t, q, producer);
    var rows := t.rows + [row];
    assert RunJob(t, Job(q, Some(producer), false), now).value.0.rows == rows;
    var i :| 0 <= i < |t.rows| && Carries(t.rows[i], q.project, q.dedupe.value);
    assert rows[i] == t.rows[i] && KeyedIn(rows[i], keys) && SameKey(rows[i], rows[|t.rows|]);
  }
}
