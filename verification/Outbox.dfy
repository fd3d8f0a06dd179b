/** The action outbox: permanent producer keys, one live row per dedupe key, and the lookup-first
    funnels that send a thing once whatever the worker does to its row. */
module Outbox {
  import opened Text
  import K = ProducerKeys

  datatype Status = Pending | Blocked | Done | Dead

  datatype Row = Row(id: nat, project: string, kind: K.ActionKind, summary: string, payload: string,
                     status: Status, nextAttempt: nat, dedupe: Option<string>, producer: string)

  /** Rows in id order. Ids are never reused and rows never deleted. */
  datatype Table = Table(rows: seq<Row>, nextId: nat)

  datatype Request = Request(project: string, kind: K.ActionKind, summary: string, payload: string,
                             dedupe: Option<string>, nextAttempt: nat)

  datatype Error = NoIdentity | ClockRange | ConstraintMystery

  // ---------------------------------------------------------------- queries

  predicate Live(r: Row) {
    r.status == Pending || r.status == Blocked
  }

  predicate Carries(r: Row, project: string, key: string) {
    r.project == project && r.dedupe == Some(key)
  }

  function OfKey(project: string, key: string): Row -> bool {
    (r: Row) => Carries(r, project, key)
  }

  function LiveOfKey(project: string, key: string): Row -> bool {
    (r: Row) => Live(r) && Carries(r, project, key)
  }

  function OfProducer(producer: string): Row -> bool {
    (r: Row) => r.producer == producer
  }

  /** `SELECT id ... WHERE p ORDER BY id LIMIT 1` */
  function First(rows: seq<Row>, p: Row -> bool): Option<nat> {
    if rows == [] then None
    else if p(rows[0]) then Some(rows[0].id)
    else First(rows[1..], p)
  }

  lemma {:induction false} FirstSpec(rows: seq<Row>, p: Row -> bool)
    ensures First(rows, p).None? <==> forall i :: 0 <= i < |rows| ==> !p(rows[i])
    ensures First(rows, p).Some? ==>
              exists i :: 0 <= i < |rows| && p(rows[i]) && rows[i].id == First(rows, p).value
                          && forall j :: 0 <= j < i ==> !p(rows[j])
  {
    if rows != [] && !p(rows[0]) {
      FirstSpec(rows[1..], p);
      if i :| 0 <= i < |rows| - 1 && p(rows[1..][i]) && rows[1..][i].id == First(rows, p).value
              && forall j :: 0 <= j < i ==> !p(rows[1..][j]) {
        assert rows[i + 1] == rows[1..][i];
        assert forall j :: 0 < j < i + 1 ==> rows[j] == rows[1..][j - 1];
      }
      assert forall j :: 0 < j < |rows| ==> rows[j] == rows[1..][j - 1];
    }
  }

  /** Appending rows never changes what was found first. */
  lemma {:induction false} FirstAppend(rows: seq<Row>, more: seq<Row>, p: Row -> bool)
    ensures First(rows + more, p) == if First(rows, p).Some? then First(rows, p) else First(more, p)
  {
    if rows == [] {
      assert rows + more == more;
    } else {
      assert (rows + more)[1..] == rows[1..] + more;
      FirstAppend(rows[1..], more, p);
    }
  }

  // ---------------------------------------------------------------- inserting

  predicate Fits(q: Request, now: nat) {
    q.nextAttempt <= I64_MAX && now <= I64_MAX
  }

  /** What the two unique indexes refuse. */
  predicate Refused(rows: seq<Row>, q: Request, producer: string) {
    First(rows, OfProducer(producer)).Some?
    || (q.dedupe.Some? && First(rows, LiveOfKey(q.project, q.dedupe.value)).Some?)
  }

  function NewRow(t: Table, q: Request, producer: string): Row {
    Row(t.nextId, q.project, q.kind, q.summary, q.payload, Pending, q.nextAttempt, q.dedupe, producer)
  }

  function Enqueue(t: Table, q: Request, producer: string, now: nat): Result<(Table, nat), Error> {
    if !Fits(q, now) then Err(ClockRange)
    else if !Refused(t.rows, q, producer) then
      Ok((Table(t.rows + [NewRow(t, q, producer)], t.nextId + 1), t.nextId))
    else
      match First(t.rows, OfProducer(producer))
      case Some(id) => Ok((t, id))
      case None => Ok((t, First(t.rows, LiveOfKey(q.project, q.dedupe.value)).value))
  }

  /** One enqueue of a funnel: which identity the row gets, and whether a row of any status under
      the same key is reused first. */
  datatype Job = Job(request: Request, producer: Option<string>, lookupFirst: bool)

  /** `default_producer_key` */
  function DefaultProducer(q: Request, nonce: string): Option<string> {
    match q.dedupe
    case Some(key) => K.ForDedupe(q.project, key)
    case None => K.ForManual(q.project, q.kind, nonce)
  }

  function RunJob(t: Table, job: Job, now: nat): Result<(Table, nat), Error> {
    var q := job.request;
    if job.lookupFirst && q.dedupe.Some? && First(t.rows, OfKey(q.project, q.dedupe.value)).Some? then
      Ok((t, First(t.rows, OfKey(q.project, q.dedupe.value)).value))
    else if job.producer.None? then Err(NoIdentity)
    else Enqueue(t, q, job.producer.value, now)
  }

  function RunJobs(t: Table, jobs: seq<Job>, now: nat): Result<(Table, seq<nat>), Error> {
    if jobs == [] then Ok((t, []))
    else
      match RunJobs(t, jobs[..|jobs| - 1], now)
      case Err(e) => Err(e)
      case Ok((mid, ids)) =>
        match RunJob(mid, jobs[|jobs| - 1], now)
        case Err(e) => Err(e)
        case Ok((end, id)) => Ok((end, ids + [id]))
  }

  lemma {:induction false} ErrorStays(t: Table, jobs: seq<Job>, n: nat, now: nat)
    requires n <= |jobs| && RunJobs(t, jobs[..n], now).Err?
    ensures RunJobs(t, jobs, now) == Err(RunJobs(t, jobs[..n], now).error)
  {
    if n == |jobs| {
      assert jobs[..n] == jobs;
    } else {
      var front := jobs[..|jobs| - 1];
      assert front[..n] == jobs[..n];
      ErrorStays(t, front, n, now);
    }
  }

  // ---------------------------------------------------------------- the table

  class Store {
    var rows: seq<Row>
    var nextId: nat

    ghost function Now(): Table
      reads this
    {
      Table(rows, nextId)
    }

    constructor (t: Table)
      ensures Now() == t
    {
      rows, nextId := t.rows, t.nextId;
    }

    /** `enqueue_inner_tx`: INSERT OR IGNORE, then find the row that stood in the way. */
    method EnqueueWithProducer(q: Request, producer: string, now: nat) returns (r: Result<nat, Error>)
      modifies this
      ensures match Enqueue(old(Now()), q, producer, now)
              case Err(e) => r == Err(e) && Now() == old(Now())
              case Ok((t, id)) => r == Ok(id) && Now() == t
    {
      if q.nextAttempt > I64_MAX || now > I64_MAX { return Err(ClockRange); }
      if !Refused(rows, q, producer) {
        rows, nextId := rows + [NewRow(Table(rows, nextId), q, producer)], nextId + 1;
        return Ok(nextId - 1);
      }
      var byProducer := First(rows, OfProducer(producer));
      if byProducer.Some? { return Ok(byProducer.value); }
      if q.dedupe.None? { return Err(ConstraintMystery); }
      var byKey := First(rows, LiveOfKey(q.project, q.dedupe.value));
      if byKey.None? { return Err(ConstraintMystery); }
      return Ok(byKey.value);
    }

    /** One row of `enqueue_prepared_in_tx`, and `enqueue_send_once_after_in_tx`. */
    method Run(job: Job, now: nat) returns (r: Result<nat, Error>)
      modifies this
      ensures match RunJob(old(Now()), job, now)
              case Err(e) => r == Err(e) && Now() == old(Now())
              case Ok((t, id)) => r == Ok(id) && Now() == t
    {
      var q := job.request;
      if job.lookupFirst && q.dedupe.Some? {
        var existing := First(rows, OfKey(q.project, q.dedupe.value));
        if existing.Some? { return Ok(existing.value); }
      }
      if job.producer.None? { return Err(NoIdentity); }
      r := EnqueueWithProducer(q, job.producer.value, now);
    }

    /** `enqueue_prepared_in_tx`. On an error the rows before it stay until the transaction ends. */
    method RunAll(jobs: seq<Job>, now: nat) returns (r: Result<seq<nat>, Error>)
      modifies this
      ensures match RunJobs(old(Now()), jobs, now)
              case Err(e) => r == Err(e)
              case Ok((t, ids)) => r == Ok(ids) && Now() == t
    {
      var ids := [];
      for i := 0 to |jobs|
        invariant RunJobs(old(Now()), jobs[..i], now) == Ok((Now(), ids))
      {
        assert jobs[..i + 1][..i] == jobs[..i];
        var one := Run(jobs[i], now);
        match one
        case Err(e) =>
          ErrorStays(old(Now()), jobs, i + 1, now);
          return Err(e);
        case Ok(id) => ids := ids + [id];
      }
      assert jobs[..|jobs|] == jobs;
      r := Ok(ids);
    }

    /** `with_tx`: commit on success, restore everything on an error. */
    method RunInTransaction(jobs: seq<Job>, now: nat) returns (r: Result<seq<nat>, Error>)
      modifies this
      ensures match RunJobs(old(Now()), jobs, now)
              case Err(e) => r == Err(e) && Now() == old(Now())
              case Ok((t, ids)) => r == Ok(ids) && Now() == t
    {
      var savedRows, savedNext := rows, nextId;
      r := RunAll(jobs, now);
      if r.Err? { rows, nextId := savedRows, savedNext; }
    }
  }

  // ---------------------------------------------------------------- the table stays sound

  ghost predicate Coherent(r: Row) {
    forall p: string, k: string :: r.producer == K.DedupeText(p, k) ==> Carries(r, p, k)
  }

  ghost predicate IdsAscend(t: Table) {
    && (forall i, j :: 0 <= i < j < |t.rows| ==> t.rows[i].id < t.rows[j].id)
    && (forall i :: 0 <= i < |t.rows| ==> t.rows[i].id < t.nextId)
  }

  /** `idx_action_outbox_producer_key` */
  ghost predicate ProducersUnique(rows: seq<Row>) {
    forall i, j :: 0 <= i < j < |rows| ==> rows[i].producer != rows[j].producer
  }

  predicate SameLiveKey(a: Row, b: Row) {
    Live(a) && Live(b) && a.dedupe.Some? && a.project == b.project && a.dedupe == b.dedupe
  }

  /** `idx_action_outbox_dedupe` */
  ghost predicate LiveKeysUnique(rows: seq<Row>) {
    forall i, j :: 0 <= i < j < |rows| ==> !SameLiveKey(rows[i], rows[j])
  }

  /** Both unique indexes hold, ids ascend, and a dedupe identity sits on a row with its key. */
  ghost predicate TableOk(t: Table) {
    IdsAscend(t) && ProducersUnique(t.rows) && LiveKeysUnique(t.rows)
    && forall i :: 0 <= i < |t.rows| ==> Coherent(t.rows[i])
  }

  lemma AppendOk(t: Table, row: Row)
    requires TableOk(t) && row.id == t.nextId && Coherent(row)
    requires forall i :: 0 <= i < |t.rows| ==> t.rows[i].producer != row.producer && !SameLiveKey(t.rows[i], row)
    ensures TableOk(Table(t.rows + [row], t.nextId + 1))
  {
  }

  /** What a job may name as its producer: a dedupe identity only for its own key. */
  ghost predicate JobOk(job: Job) {
    job.producer.Some? ==>
      forall p: string, k: string :: job.producer.value == K.DedupeText(p, k) ==>
        job.request.project == p && job.request.dedupe == Some(k)
  }

  /** `b` is `a` with rows appended. */
  ghost predicate Grown(a: Table, b: Table) {
    a.nextId <= b.nextId && a.rows <= b.rows
  }

  /** The row says, column by column, what the request asks for: pending, under this id and identity. */
  predicate Stores(row: Row, id: nat, q: Request, producer: string) {
    && row.id == id && row.status == Pending && row.producer == producer
    && row.project == q.project && row.kind == q.kind && row.summary == q.summary && row.payload == q.payload
    && row.nextAttempt == q.nextAttempt && row.dedupe == q.dedupe
  }

  /** `end` is `t` with one row for this request behind it, under the next id. */
  predicate Appends(t: Table, end: Table, q: Request, producer: string) {
    && |end.rows| == |t.rows| + 1 && t.rows <= end.rows && end.nextId == t.nextId + 1
    && Stores(end.rows[|t.rows|], t.nextId, q, producer)
  }

  predicate Unfinished(row: Row) {
    row.status != Done && row.status != Dead
  }

  /** A row of this identity, or one of this key that is not finished. */
  ghost predicate Taken(t: Table, q: Request, producer: string) {
    || (exists i :: 0 <= i < |t.rows| && t.rows[i].producer == producer)
    || (exists i :: 0 <= i < |t.rows| && Unfinished(t.rows[i]) && q.dedupe.Some?
                    && Carries(t.rows[i], q.project, q.dedupe.value))
  }

  lemma RefusedIff(t: Table, q: Request, producer: string)
    ensures Refused(t.rows, q, producer) <==> Taken(t, q, producer)
  {
    FirstSpec(t.rows, OfProducer(producer));
    if q.dedupe.Some? { FirstSpec(t.rows, LiveOfKey(q.project, q.dedupe.value)); }
    if i :| 0 <= i < |t.rows| && t.rows[i].producer == producer { assert OfProducer(producer)(t.rows[i]); }
    if i :| 0 <= i < |t.rows| && Unfinished(t.rows[i]) && q.dedupe.Some?
            && Carries(t.rows[i], q.project, q.dedupe.value) {
      assert LiveOfKey(q.project, q.dedupe.value)(t.rows[i]);
    }
  }

  /** An enqueue succeeds exactly when its times fit the column. It then appends the request's row and
      returns its id, exactly when neither the identity nor a live row of the key is there already;
      otherwise it writes nothing. Both unique indexes hold afterwards. */
  lemma EnqueueOk(t: Table, q: Request, producer: string, now: nat)
    requires TableOk(t) && JobOk(Job(q, Some(producer), false))
    ensures Enqueue(t, q, producer, now).Ok? <==> q.nextAttempt <= I64_MAX && now <= I64_MAX
    ensures Enqueue(t, q, producer, now).Ok? ==>
              var (end, id) := Enqueue(t, q, producer, now).value;
              && TableOk(end) && Grown(t, end)
              && (if Taken(t, q, producer) then end == t else Appends(t, end, q, producer) && id == t.nextId)
  {
    RefusedIff(t, q, producer);
    if Fits(q, now) && !Refused(t.rows, q, producer) {
      FirstSpec(t.rows, OfProducer(producer));
      if q.dedupe.Some? { FirstSpec(t.rows, LiveOfKey(q.project, q.dedupe.value)); }
      var row := NewRow(t, q, producer);
      forall i | 0 <= i < |t.rows| ensures t.rows[i].producer != producer && !SameLiveKey(t.rows[i], row) {
        assert !OfProducer(producer)(t.rows[i]);
        if q.dedupe.Some? { assert !LiveOfKey(q.project, q.dedupe.value)(t.rows[i]); }
      }
      AppendOk(t, row);
    }
  }

  /** The row of id `id` is there and is for this request: it carries its key or its identity. */
  ghost predicate Answers(t: Table, id: nat, job: Job) {
    exists i :: 0 <= i < |t.rows| && t.rows[i].id == id
      && ((job.request.dedupe.Some? && Carries(t.rows[i], job.request.project, job.request.dedupe.value))
          || job.producer == Some(t.rows[i].producer))
  }

  predicate HasKey(rows: seq<Row>, project: string, key: string) {
    exists i :: 0 <= i < |rows| && Carries(rows[i], project, key)
  }

  predicate Reuses(t: Table, job: Job) {
    job.lookupFirst && job.request.dedupe.Some? && HasKey(t.rows, job.request.project, job.request.dedupe.value)
  }

  lemma ReusesIff(t: Table, job: Job)
    ensures Reuses(t, job) <==>
              job.lookupFirst && job.request.dedupe.Some?
              && First(t.rows, OfKey(job.request.project, job.request.dedupe.value)).Some?
  {
    if job.request.dedupe.Some? { FirstSpec(t.rows, OfKey(job.request.project, job.request.dedupe.value)); }
  }

  /** A job succeeds exactly when a row of its key can be reused, or it has an identity and its times
      fit the column; the source's "constraint without a row" error cannot happen. It adds its request's
      row exactly when no row is reused and neither its identity nor a live row of its key is there. */
  lemma RunJobOk(t: Table, job: Job, now: nat)
    requires TableOk(t) && JobOk(job)
    ensures RunJob(t, job, now).Ok? <==> Reuses(t, job) || (job.producer.Some? && Fits(job.request, now))
    ensures RunJob(t, job, now).Ok? ==>
              var (end, id) := RunJob(t, job, now).value;
              && TableOk(end) && Grown(t, end)
              && (if Reuses(t, job) || Taken(t, job.request, job.producer.value) then end == t
                  else Appends(t, end, job.request, job.producer.value) && id == t.nextId)
  {
    ReusesIff(t, job);
    if job.producer.Some? { EnqueueOk(t, job.request, job.producer.value, now); }
  }

  ghost predicate HasProducer(rows: seq<Row>, producer: string) {
    exists i :: 0 <= i < |rows| && rows[i].producer == producer
  }

  ghost predicate NamesFirst(rows: seq<Row>, id: nat, p: Row -> bool) {
    exists i :: 0 <= i < |rows| && rows[i].id == id && p(rows[i]) && forall j :: 0 <= j < i ==> !p(rows[j])
  }

  /** Which row a job that writes nothing answers with: a reused one is the first of its key, whatever its
      status; else the row of its identity goes before the live row of its key. */
  lemma RunJobFinds(t: Table, job: Job, now: nat)
    requires RunJob(t, job, now).Ok?
    requires Reuses(t, job) || (job.producer.Some? && Taken(t, job.request, job.producer.value))
    ensures var q, id := job.request, RunJob(t, job, now).value.1;
            if Reuses(t, job) then NamesFirst(t.rows, id, (r: Row) => Carries(r, q.project, q.dedupe.value))
            else if HasProducer(t.rows, job.producer.value) then
              NamesFirst(t.rows, id, (r: Row) => r.producer == job.producer.value)
            else NamesFirst(t.rows, id, (r: Row) => Live(r) && Carries(r, q.project, q.dedupe.value))
  {
    var q := job.request;
    ReusesIff(t, job);
    if Reuses(t, job) {
      FirstNamed(t.rows, OfKey(q.project, q.dedupe.value), (r: Row) => Carries(r, q.project, q.dedupe.value));
    } else {
      RefusedIff(t, q, job.producer.value);
      FirstNamed(t.rows, OfProducer(job.producer.value), (r: Row) => r.producer == job.producer.value);
      if q.dedupe.Some? {
        FirstNamed(t.rows, LiveOfKey(q.project, q.dedupe.value),
                   (r: Row) => Live(r) && Carries(r, q.project, q.dedupe.value));
      }
    }
  }

  lemma FirstNamed(rows: seq<Row>, p: Row -> bool, q: Row -> bool)
    requires forall r :: p(r) == q(r)
    ensures First(rows, p).Some? ==> NamesFirst(rows, First(rows, p).value, q)
    ensures First(rows, p).None? ==> forall i :: 0 <= i < |rows| ==> !q(rows[i])
  {
    FirstSpec(rows, p);
  }

  /** The id a job returns names a row that carries the job's key, or holds the job's identity. */
  lemma RunJobAnswers(t: Table, job: Job, now: nat)
    requires TableOk(t) && JobOk(job) && RunJob(t, job, now).Ok?
    ensures Answers(RunJob(t, job, now).value.0, RunJob(t, job, now).value.1, job)
  {
    var q := job.request;
    var (end, id) := RunJob(t, job, now).value;
    if q.dedupe.Some? {
      FirstSpec(t.rows, OfKey(q.project, q.dedupe.value));
      FirstSpec(t.rows, LiveOfKey(q.project, q.dedupe.value));
    }
    if job.producer.Some? { FirstSpec(t.rows, OfProducer(job.producer.value)); }
    if end != t { assert end.rows[|t.rows|] == NewRow(t, q, job.producer.value); }
  }
}
