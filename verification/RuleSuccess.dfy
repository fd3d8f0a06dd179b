/** Exactly when an inbox event can be processed, and how two actions of one rule can make it
    impossible for good. */
module RuleSuccess {
  import opened Model
  import opened Text
  import opened Order
  import opened RuleProcessing
  import O = Outbox
  import S = SendOnce
  import N = Notifications
  import K = ProducerKeys
  import R = RuleRuns

  // ---------------------------------------------------------------- the jobs of one event

  /** A job of a rule action that goes straight to the outbox, under a producer key of this event. */
  ghost predicate DirectJob(job: O.Job, inbox: nat) {
    !job.lookupFirst && job.request.dedupe.Some?
    && exists rule: string, action: string :: job.producer == Some(K.RuleActionText(inbox, rule, action))
  }

  predicate SameJobKey(a: O.Job, b: O.Job) {
    a.request.project == b.request.project && a.request.dedupe == b.request.dedupe
  }

  ghost predicate EventJobs(jobs: seq<O.Job>, inbox: nat) {
    forall i :: 0 <= i < |jobs| ==> S.FunnelJob(jobs[i]) || DirectJob(jobs[i], inbox)
  }

  /** Rule ids and the action ids of a rule are unique. */
  predicate DirectDistinct(jobs: seq<O.Job>) {
    forall i, j :: 0 <= i < j < |jobs| && !jobs[i].lookupFirst && !jobs[j].lookupFirst
        ==> jobs[i].producer != jobs[j].producer
  }

  /** No row was ever produced by this event. */
  ghost predicate NoneOf(rows: seq<O.Row>, inbox: nat) {
    forall i, rule: string, action: string :: 0 <= i < |rows|
        ==> rows[i].producer != K.RuleActionText(inbox, rule, action)
  }

  /** The lookup that finds what the job returned. */
  function Query(job: O.Job): O.Row -> bool
    requires job.request.dedupe.Some?
  {
    if job.lookupFirst then O.OfKey(job.request.project, job.request.dedupe.value)
    else O.LiveOfKey(job.request.project, job.request.dedupe.value)
  }

  ghost predicate Keyed(jobs: seq<O.Job>) {
    forall i :: 0 <= i < |jobs| ==> jobs[i].request.dedupe.Some?
  }

  ghost predicate AllReturned(t: O.Table, jobs: seq<O.Job>, ids: seq<nat>)
    requires Keyed(jobs)
  {
    |ids| == |jobs| && forall i :: 0 <= i < |jobs| ==> O.First(t.rows, Query(jobs[i])) == Some(ids[i])
  }

  ghost predicate MadeBy(row: O.Row, jobs: seq<O.Job>) {
    exists k :: 0 <= k < |jobs| && jobs[k].producer == Some(row.producer)
                && jobs[k].request.project == row.project && jobs[k].request.dedupe == row.dedupe
  }

  ghost predicate Progress(t0: O.Table, t: O.Table, done: seq<O.Job>) {
    O.TableOk(t) && O.Grown(t0, t)
    && forall i :: |t0.rows| <= i < |t.rows| ==> MadeBy(t.rows[i], done) && O.Live(t.rows[i])
  }

  /** What job `k` of an event needs: an identity and representable times, or a row to reuse, which is
      there before the event or comes from an earlier job of it. */
  predicate Ready(t0: O.Table, jobs: seq<O.Job>, k: nat, now: nat)
    requires k < |jobs|
  {
    || (jobs[k].producer.Some? && O.Fits(jobs[k].request, now))
    || O.Reuses(t0, jobs[k])
    || (jobs[k].lookupFirst && SharesEarlier(jobs, k))
  }

  ghost predicate Setting(t0: O.Table, jobs: seq<O.Job>, inbox: nat) {
    O.TableOk(t0) && NoneOf(t0.rows, inbox) && EventJobs(jobs, inbox) && DirectDistinct(jobs)
  }

  lemma JobFacts(job: O.Job, inbox: nat)
    requires S.FunnelJob(job) || DirectJob(job, inbox)
    ensures O.JobOk(job) && job.request.dedupe.Some?
  {
    if S.FunnelJob(job) {
      S.FunnelJobIsOk(job);
    } else {
      var rule: string, action: string :| job.producer == Some(K.RuleActionText(inbox, rule, action));
      forall p: string, k: string ensures job.producer.value != K.DedupeText(p, k) {
        RuleIsNotDedupe(inbox, rule, action, p, k);
      }
    }
  }

  lemma RuleIsNotDedupe(inbox: nat, rule: string, action: string, p: string, k: string)
    ensures K.RuleActionText(inbox, rule, action) != K.DedupeText(p, k)
  {
    if K.RuleActionText(inbox, rule, action) == K.DedupeText(p, k) {
      K.KeyTextInjective(K.RuleProducer(inbox, rule, action), K.DedupeProducer(p, k));
    }
  }

  /** A direct job never meets a row of its own producer. */
  lemma ProducerIsNew(t0: O.Table, t: O.Table, jobs: seq<O.Job>, k: nat, inbox: nat, i: nat)
    requires Setting(t0, jobs, inbox) && k < |jobs| && !jobs[k].lookupFirst && Progress(t0, t, jobs[..k])
    requires i < |t.rows|
    ensures Some(t.rows[i].producer) != jobs[k].producer
  {
    var rule: string, action: string :| jobs[k].producer == Some(K.RuleActionText(inbox, rule, action));
    if i < |t0.rows| {
      assert t.rows[i] == t0.rows[i];
    } else {
      assert MadeBy(t.rows[i], jobs[..k]);
      var d :| 0 <= d < k && jobs[..k][d].producer == Some(t.rows[i].producer);
      assert jobs[d] == jobs[..k][d];
      if jobs[d].lookupFirst {
        RuleIsNotDedupe(inbox, rule, action, jobs[d].request.project, jobs[d].request.dedupe.value);
      }
    }
  }

  lemma KeyedJobs(jobs: seq<O.Job>, inbox: nat)
    requires EventJobs(jobs, inbox)
    ensures Keyed(jobs)
  {
    forall i | 0 <= i < |jobs| ensures jobs[i].request.dedupe.Some? {
      JobFacts(jobs[i], inbox);
    }
  }

  predicate SharesEarlier(jobs: seq<O.Job>, k: nat)
    requires k < |jobs|
  {
    exists j :: 0 <= j < k && SameJobKey(jobs[j], jobs[k])
  }

  /** A funnel job finds a row in mid-event exactly when one was there before or an earlier job shares its key. */
  lemma ReuseIff(t0: O.Table, t: O.Table, jobs: seq<O.Job>, ids: seq<nat>, k: nat, inbox: nat)
    requires Setting(t0, jobs, inbox) && k < |jobs| && jobs[k].lookupFirst && Progress(t0, t, jobs[..k])
    requires Keyed(jobs[..k]) && AllReturned(t, jobs[..k], ids)
    ensures O.Reuses(t, jobs[k]) <==> O.Reuses(t0, jobs[k]) || SharesEarlier(jobs, k)
  {
    var job := jobs[k];
    if O.Reuses(t0, job) {
      var i :| 0 <= i < |t0.rows| && O.Carries(t0.rows[i], job.request.project, job.request.dedupe.value);
      assert t.rows[i] == t0.rows[i];
    }
    if SharesEarlier(jobs, k) {
      var j :| 0 <= j < k && SameJobKey(jobs[j], job);
      assert jobs[..k][j] == jobs[j];
      O.FirstSpec(t.rows, Query(jobs[j]));
    }
    if O.Reuses(t, job) { ReuseSource(t0, t, jobs, k); }
  }

  lemma ReuseSource(t0: O.Table, t: O.Table, jobs: seq<O.Job>, k: nat)
    requires k < |jobs| && Progress(t0, t, jobs[..k]) && O.Reuses(t, jobs[k])
    ensures O.Reuses(t0, jobs[k]) || SharesEarlier(jobs, k)
  {
    var job := jobs[k];
    var i :| 0 <= i < |t.rows| && O.Carries(t.rows[i], job.request.project, job.request.dedupe.value);
    if i < |t0.rows| {
      assert t.rows[i] == t0.rows[i];
    } else {
      assert MadeBy(t.rows[i], jobs[..k]);
      var d :| 0 <= d < k && jobs[..k][d].request.project == t.rows[i].project
          && jobs[..k][d].request.dedupe == t.rows[i].dedupe;
      assert SameJobKey(jobs[d], job);
    }
  }

  /** One job of an event: when it succeeds, and what finds its id afterwards. */
  lemma JobStep(t0: O.Table, t: O.Table, jobs: seq<O.Job>, ids: seq<nat>, k: nat, inbox: nat, now: nat)
    requires Setting(t0, jobs, inbox) && k < |jobs| && Progress(t0, t, jobs[..k])
    requires Keyed(jobs[..k]) && AllReturned(t, jobs[..k], ids)
    ensures jobs[k].request.dedupe.Some? && O.JobOk(jobs[k])
    ensures O.RunJob(t, jobs[k], now).Ok? <==> Ready(t0, jobs, k, now)
    ensures O.RunJob(t, jobs[k], now).Ok? ==>
              O.First(O.RunJob(t, jobs[k], now).value.0.rows, Query(jobs[k])) == Some(O.RunJob(t, jobs[k], now).value.1)
  {
    var job := jobs[k];
    JobFacts(job, inbox);
    O.RunJobOk(t, job, now);
    if job.lookupFirst {
      ReuseIff(t0, t, jobs, ids, k, inbox);
      if O.RunJob(t, job, now).Ok? { S.RunJobFound(t, job, now); }
    } else if O.RunJob(t, job, now).Ok? {
      DirectReturned(t0, t, jobs, k, inbox, now);
    }
  }

  lemma DirectReturned(t0: O.Table, t: O.Table, jobs: seq<O.Job>, k: nat, inbox: nat, now: nat)
    requires Setting(t0, jobs, inbox) && k < |jobs| && !jobs[k].lookupFirst && Progress(t0, t, jobs[..k])
    requires O.RunJob(t, jobs[k], now).Ok? && jobs[k].request.dedupe.Some?
    ensures O.First(O.RunJob(t, jobs[k], now).value.0.rows, Query(jobs[k])) == Some(O.RunJob(t, jobs[k], now).value.1)
  {
    var job := jobs[k];
    var producer := job.producer.value;
    forall i | 0 <= i < |t.rows| ensures !O.OfProducer(producer)(t.rows[i]) {
      ProducerIsNew(t0, t, jobs, k, inbox, i);
    }
    O.FirstSpec(t.rows, O.OfProducer(producer));
    O.FirstSpec(t.rows, Query(job));
    if O.First(t.rows, Query(job)).None? {
      var row := O.NewRow(t, job.request, producer);
      O.FirstAppend(t.rows, [row], Query(job));
      assert Query(job)(row);
    }
  }

  lemma ProgressStep(t0: O.Table, t: O.Table, jobs: seq<O.Job>, k: nat, now: nat)
    requires k < |jobs| && Progress(t0, t, jobs[..k]) && O.JobOk(jobs[k]) && O.RunJob(t, jobs[k], now).Ok?
    ensures Progress(t0, O.RunJob(t, jobs[k], now).value.0, jobs[..k + 1])
    ensures O.Grown(t, O.RunJob(t, jobs[k], now).value.0)
  {
    var job := jobs[k];
    O.RunJobOk(t, job, now);
    var end := O.RunJob(t, job, now).value.0;
    forall i | |t0.rows| <= i < |end.rows| ensures MadeBy(end.rows[i], jobs[..k + 1]) && O.Live(end.rows[i]) {
      if i < |t.rows| {
        assert end.rows[i] == t.rows[i] && MadeBy(t.rows[i], jobs[..k]);
        var d :| 0 <= d < k && jobs[..k][d].producer == Some(t.rows[i].producer)
                 && jobs[..k][d].request.project == t.rows[i].project
                 && jobs[..k][d].request.dedupe == t.rows[i].dedupe;
        assert jobs[..k + 1][d] == jobs[..k][d];
      } else {
        assert jobs[..k + 1][k] == job;
      }
    }
  }

  lemma ReturnedStep(a: O.Table, b: O.Table, jobs: seq<O.Job>, k: nat, ids: seq<nat>, id: nat)
    requires k < |jobs| && O.Grown(a, b) && Keyed(jobs[..k + 1]) && Keyed(jobs[..k]) && AllReturned(a, jobs[..k], ids)
    requires O.First(b.rows, Query(jobs[..k + 1][k])) == Some(id)
    ensures AllReturned(b, jobs[..k + 1], ids + [id])
  {
    forall i | 0 <= i < k ensures O.First(b.rows, Query(jobs[..k + 1][i])) == Some(ids[i]) {
      assert jobs[..k + 1][i] == jobs[..k][i];
      O.FirstAppend(a.rows, b.rows[|a.rows|..], Query(jobs[..k][i]));
      assert a.rows + b.rows[|a.rows|..] == b.rows;
    }
  }

  lemma JobsRunNext(t0: O.Table, jobs: seq<O.Job>, k: nat, mid: O.Table, ids: seq<nat>, inbox: nat, now: nat)
    requires Setting(t0, jobs, inbox) && Keyed(jobs) && k < |jobs|
    requires Progress(t0, mid, jobs[..k]) && Keyed(jobs[..k]) && AllReturned(mid, jobs[..k], ids)
             && O.RunJob(mid, jobs[k], now).Ok?
    ensures var (end, id) := O.RunJob(mid, jobs[k], now).value;
            Progress(t0, end, jobs[..k + 1]) && Keyed(jobs[..k + 1]) && AllReturned(end, jobs[..k + 1], ids + [id])
  {
    JobStep(t0, mid, jobs, ids, k, inbox, now);
    ProgressStep(t0, mid, jobs, k, now);
    ReturnedStep(mid, O.RunJob(mid, jobs[k], now).value.0, jobs, k, ids, O.RunJob(mid, jobs[k], now).value.1);
  }

  lemma RunJobsSnoc(t0: O.Table, jobs: seq<O.Job>, k: nat, now: nat)
    requires k < |jobs| && O.RunJobs(t0, jobs[..k + 1], now).Ok?
    ensures O.RunJobs(t0, jobs[..k], now).Ok?
    ensures var (mid, ids) := O.RunJobs(t0, jobs[..k], now).value;
            O.RunJob(mid, jobs[k], now).Ok?
            && var (end, id) := O.RunJob(mid, jobs[k], now).value;
               O.RunJobs(t0, jobs[..k + 1], now) == Ok((end, ids + [id]))
  {
    assert jobs[..k + 1][..k] == jobs[..k] && jobs[..k + 1][k] == jobs[k];
  }

  /** After the first `k` jobs: what was added, and what finds the ids. */
  ghost predicate JobsDone(t0: O.Table, jobs: seq<O.Job>, k: nat, now: nat)
    requires k <= |jobs|
  {
    && O.RunJobs(t0, jobs[..k], now).Ok? && Keyed(jobs[..k])
    && var (end, ids) := O.RunJobs(t0, jobs[..k], now).value;
       Progress(t0, end, jobs[..k]) && AllReturned(end, jobs[..k], ids)
  }

  lemma NoJobsDone(t0: O.Table, jobs: seq<O.Job>, now: nat)
    requires O.TableOk(t0)
    ensures JobsDone(t0, jobs, 0, now)
  {
    assert jobs[..0] == [];
  }

  lemma JobsDoneStep(t0: O.Table, jobs: seq<O.Job>, k: nat, inbox: nat, now: nat)
    requires Setting(t0, jobs, inbox) && Keyed(jobs) && k < |jobs| && JobsDone(t0, jobs, k, now)
    requires O.RunJobs(t0, jobs[..k + 1], now).Ok?
    ensures JobsDone(t0, jobs, k + 1, now)
  {
    RunJobsSnoc(t0, jobs, k, now);
    var (mid, ids) := O.RunJobs(t0, jobs[..k], now).value;
    JobsRunNext(t0, jobs, k, mid, ids, inbox, now);
  }

  lemma PrefixRuns(t0: O.Table, jobs: seq<O.Job>, k: nat, n: nat, now: nat)
    requires n <= k <= |jobs| && O.RunJobs(t0, jobs[..k], now).Ok?
    ensures O.RunJobs(t0, jobs[..n], now).Ok?
  {
    assert jobs[..k][..n] == jobs[..n];
    if O.RunJobs(t0, jobs[..n], now).Err? { O.ErrorStays(t0, jobs[..k], n, now); }
  }

  lemma JobsRun(t0: O.Table, jobs: seq<O.Job>, k: nat, inbox: nat, now: nat)
    requires Setting(t0, jobs, inbox) && Keyed(jobs) && k <= |jobs| && O.RunJobs(t0, jobs[..k], now).Ok?
    ensures JobsDone(t0, jobs, k, now)
  {
    NoJobsDone(t0, jobs, now);
    for i := 0 to k
      invariant JobsDone(t0, jobs, i, now)
    {
      PrefixRuns(t0, jobs, k, i + 1, now);
      JobsDoneStep(t0, jobs, i, inbox, now);
    }
  }

  ghost predicate AllReady(t0: O.Table, jobs: seq<O.Job>, k: nat, now: nat)
    requires k <= |jobs|
  {
    forall i :: 0 <= i < k ==> Ready(t0, jobs, i, now)
  }

  lemma JobsRunStep(t0: O.Table, jobs: seq<O.Job>, k: nat, inbox: nat, now: nat)
    requires Setting(t0, jobs, inbox) && Keyed(jobs) && k < |jobs| && O.RunJobs(t0, jobs[..k], now).Ok?
    ensures O.RunJobs(t0, jobs[..k + 1], now).Ok? <==> Ready(t0, jobs, k, now)
  {
    assert jobs[..k + 1][..k] == jobs[..k] && jobs[..k + 1][k] == jobs[k];
    JobsRun(t0, jobs, k, inbox, now);
    var (mid, ids) := O.RunJobs(t0, jobs[..k], now).value;
    JobStep(t0, mid, jobs, ids, k, inbox, now);
  }

  lemma AllReadyStep(t0: O.Table, jobs: seq<O.Job>, k: nat, now: nat)
    requires k < |jobs|
    ensures AllReady(t0, jobs, k + 1, now) <==> AllReady(t0, jobs, k, now) && Ready(t0, jobs, k, now)
  {
  }

  /** The first `k` jobs of an event succeed exactly when each of them is ready. */
  lemma {:induction false} JobsRunIff(t0: O.Table, jobs: seq<O.Job>, k: nat, inbox: nat, now: nat)
    requires Setting(t0, jobs, inbox) && Keyed(jobs) && k <= |jobs|
    ensures O.RunJobs(t0, jobs[..k], now).Ok? <==> AllReady(t0, jobs, k, now)
  {
    if k > 0 {
      JobsRunIff(t0, jobs, k - 1, inbox, now);
      AllReadyStep(t0, jobs, k - 1, now);
      if O.RunJobs(t0, jobs[..k - 1], now).Ok? {
        JobsRunStep(t0, jobs, k - 1, inbox, now);
      } else {
        assert jobs[..k][..k - 1] == jobs[..k - 1];
        O.ErrorStays(t0, jobs[..k], k - 1, now);
      }
    }
  }

  /** The first row of a key is live, or the key has no row. */
  predicate FirstIsLive(rows: seq<O.Row>, project: string, key: string) {
    O.First(rows, O.OfKey(project, key)) == O.First(rows, O.LiveOfKey(project, key))
  }

  /** When two jobs of an event share an outbox row: under one key, a rule action and a delivery do so
      unless an older row of that key has already finished. */
  predicate SharesRow(t0: O.Table, a: O.Job, b: O.Job) {
    SameJobKey(a, b)
    && (a.lookupFirst == b.lookupFirst
        || (a.request.dedupe.Some? ==> FirstIsLive(t0.rows, a.request.project, a.request.dedupe.value)))
  }

  lemma {:induction false} FirstAgrees(rows: seq<O.Row>, p: O.Row -> bool, q: O.Row -> bool)
    requires forall i :: 0 <= i < |rows| ==> p(rows[i]) == q(rows[i])
    ensures O.First(rows, p) == O.First(rows, q)
  {
    if rows != [] { FirstAgrees(rows[1..], p, q); }
  }

  lemma FirstIn(rows: seq<O.Row>, p: O.Row -> bool) returns (i: nat)
    requires O.First(rows, p).Some?
    ensures i < |rows| && rows[i].id == O.First(rows, p).value
  {
    O.FirstSpec(rows, p);
    i :| 0 <= i < |rows| && p(rows[i]) && rows[i].id == O.First(rows, p).value;
  }

  /** Rows added by the event are live, so they do not change whether the first row is. */
  lemma FirstIsLiveGrown(a: seq<O.Row>, b: seq<O.Row>, project: string, key: string)
    requires a <= b && (forall i :: |a| <= i < |b| ==> O.Live(b[i])) && forall i, j :: 0 <= i < j < |b| ==>
             b[i].id < b[j].id
    requires O.First(b, O.LiveOfKey(project, key)).Some?
    ensures FirstIsLive(b, project, key) <==> FirstIsLive(a, project, key)
  {
    var more := b[|a|..];
    var of, live := O.OfKey(project, key), O.LiveOfKey(project, key);
    assert b == a + more;
    O.FirstAppend(a, more, of);
    O.FirstAppend(a, more, live);
    forall i | 0 <= i < |more| ensures of(more[i]) == live(more[i]) {
      assert more[i] == b[|a| + i];
    }
    FirstAgrees(more, of, live);
    if O.First(a, of).None? {
      NoneLive(a, project, key);
    } else if O.First(a, live).None? {
      var i := FirstIn(a, of);
      var j := FirstIn(more, live);
      assert b[i].id < b[|a| + j].id;
    }
  }

  lemma NoneLive(rows: seq<O.Row>, project: string, key: string)
    requires O.First(rows, O.OfKey(project, key)).None?
    ensures O.First(rows, O.LiveOfKey(project, key)).None?
  {
    O.FirstSpec(rows, O.OfKey(project, key));
    O.FirstSpec(rows, O.LiveOfKey(project, key));
    assert forall i :: 0 <= i < |rows| ==> !O.OfKey(project, key)(rows[i]);
  }

  /** Two jobs of an event get the same outbox row exactly when they share one. */
  lemma SameRowIff(t0: O.Table, jobs: seq<O.Job>, inbox: nat, now: nat, i: nat, j: nat)
    requires Setting(t0, jobs, inbox) && O.RunJobs(t0, jobs, now).Ok? && i < |jobs| && j < |jobs|
    ensures |O.RunJobs(t0, jobs, now).value.1| == |jobs|
    ensures O.RunJobs(t0, jobs, now).value.1[i] == O.RunJobs(t0, jobs, now).value.1[j]
            <==> SharesRow(t0, jobs[i], jobs[j])
  {
    assert jobs[..|jobs|] == jobs;
    KeyedJobs(jobs, inbox);
    JobsRun(t0, jobs, |jobs|, inbox, now);
    var (end, ids) := O.RunJobs(t0, jobs, now).value;
    assert O.First(end.rows, Query(jobs[i])) == Some(ids[i]) && O.First(end.rows, Query(jobs[j])) == Some(ids[j]);
    SameIdIff(t0, end, jobs[i], jobs[j]);
  }

  lemma SameIdIff(t0: O.Table, end: O.Table, x: O.Job, y: O.Job)
    requires O.TableOk(end) && O.Grown(t0, end) && forall i :: |t0.rows| <= i < |end.rows| ==> O.Live(end.rows[i])
    requires x.request.dedupe.Some? && y.request.dedupe.Some?
    requires O.First(end.rows, Query(x)).Some? && O.First(end.rows, Query(y)).Some?
    ensures O.First(end.rows, Query(x)) == O.First(end.rows, Query(y)) <==> SharesRow(t0, x, y)
  {
    if SameJobKey(x, y) {
      if x.lookupFirst != y.lookupFirst {
        FirstIsLiveGrown(t0.rows, end.rows, x.request.project, x.request.dedupe.value);
      }
    } else {
      var a := ReturnedRow(end, x);
      var b := ReturnedRow(end, y);
      assert a < b ==> end.rows[a].id < end.rows[b].id;
      assert b < a ==> end.rows[b].id < end.rows[a].id;
    }
  }

  lemma ReturnedRow(t: O.Table, job: O.Job) returns (i: nat)
    requires job.request.dedupe.Some? && O.First(t.rows, Query(job)).Some?
    ensures i < |t.rows| && t.rows[i].id == O.First(t.rows, Query(job)).value
    ensures O.Carries(t.rows[i], job.request.project, job.request.dedupe.value)
  {
    O.FirstSpec(t.rows, Query(job));
    i :| 0 <= i < |t.rows| && Query(job)(t.rows[i]) && t.rows[i].id == O.First(t.rows, Query(job)).value;
  }

  // ---------------------------------------------------------------- plans of one event

  function AllJobs(c: Context, plans: seq<Plan>): Option<seq<O.Job>> {
    if plans == [] then Some([])
    else
      var before, last := AllJobs(c, plans[..|plans| - 1]), PlanJobs(c, plans[|plans| - 1]);
      if before.None? || last.None? then None else Some(before.value + last.value)
  }

  /** No two jobs share a row. */
  predicate RowsDistinct(t0: O.Table, jobs: seq<O.Job>) {
    forall i, j :: 0 <= i < j < |jobs| ==> !SharesRow(t0, jobs[i], jobs[j])
  }

  lemma SettingPrefix(t0: O.Table, a: seq<O.Job>, b: seq<O.Job>, inbox: nat)
    requires Setting(t0, a + b, inbox)
    ensures Setting(t0, a, inbox)
  {
    assert forall i :: 0 <= i < |a| ==> (a + b)[i] == a[i];
  }

  lemma AppendedIds(t0: O.Table, a: seq<O.Job>, b: seq<O.Job>, now: nat)
    requires O.RunJobs(t0, a + b, now).Ok?
    ensures O.RunJobs(t0, a, now).Ok? && O.RunJobs(O.RunJobs(t0, a, now).value.0, b, now).Ok?
    ensures |O.RunJobs(t0, a, now).value.1| == |a|
    ensures |O.RunJobs(O.RunJobs(t0, a, now).value.0, b, now).value.1| == |b|
    ensures O.RunJobs(t0, a + b, now).value.1
            == O.RunJobs(t0, a, now).value.1 + O.RunJobs(O.RunJobs(t0, a, now).value.0, b, now).value.1
  {
    RunJobsAppend(t0, a, b, now);
    RunJobsCount(t0, a, now);
    RunJobsCount(O.RunJobs(t0, a, now).value.0, b, now);
  }

  /** Ids agree exactly where rows are shared. */
  ghost predicate SameRows(t0: O.Table, ids: seq<nat>, jobs: seq<O.Job>) {
    |ids| == |jobs| && forall i, j :: 0 <= i < j < |ids| ==> (ids[i] == ids[j] <==> SharesRow(t0, jobs[i], jobs[j]))
  }

  lemma AllSameRows(t0: O.Table, jobs: seq<O.Job>, inbox: nat, now: nat)
    requires Setting(t0, jobs, inbox) && O.RunJobs(t0, jobs, now).Ok?
    ensures SameRows(t0, O.RunJobs(t0, jobs, now).value.1, jobs)
  {
    RunJobsCount(t0, jobs, now);
    var ids := O.RunJobs(t0, jobs, now).value.1;
    forall i, j | 0 <= i < j < |ids| ensures ids[i] == ids[j] <==> SharesRow(t0, jobs[i], jobs[j]) {
      SameRowIff(t0, jobs, inbox, now, i, j);
    }
  }

  lemma TailSameRows(t0: O.Table, before: seq<nat>, ids: seq<nat>, a: seq<O.Job>, b: seq<O.Job>)
    requires SameRows(t0, before + ids, a + b) && |before| == |a| && |ids| == |b|
    ensures SameRows(t0, ids, b)
  {
    forall i, j | 0 <= i < j < |ids| ensures ids[i] == ids[j] <==> SharesRow(t0, b[i], b[j]) {
      assert (before + ids)[|a| + i] == ids[i] && (before + ids)[|a| + j] == ids[j];
      assert (a + b)[|a| + i] == b[i] && (a + b)[|a| + j] == b[j];
    }
  }

  /** The ids of the last `b` jobs are distinct exactly when no two of these jobs share a row. */
  lemma LastIdsDistinct(t0: O.Table, a: seq<O.Job>, b: seq<O.Job>, inbox: nat, now: nat)
    requires Setting(t0, a + b, inbox) && O.RunJobs(t0, a + b, now).Ok?
    ensures O.RunJobs(t0, a, now).Ok? && O.RunJobs(O.RunJobs(t0, a, now).value.0, b, now).Ok?
    ensures Distinct(O.RunJobs(O.RunJobs(t0, a, now).value.0, b, now).value.1) <==> RowsDistinct(t0, b)
  {
    AppendedIds(t0, a, b, now);
    AllSameRows(t0, a + b, inbox, now);
    TailDistinct(t0, O.RunJobs(t0, a, now).value.1, O.RunJobs(O.RunJobs(t0, a, now).value.0, b, now).value.1, a, b);
  }

  lemma TailDistinct(t0: O.Table, before: seq<nat>, ids: seq<nat>, a: seq<O.Job>, b: seq<O.Job>)
    requires SameRows(t0, before + ids, a + b) && |before| == |a| && |ids| == |b|
    ensures Distinct(ids) <==> RowsDistinct(t0, b)
  {
    TailSameRows(t0, before, ids, a, b);
  }

  lemma {:induction false} RunJobsCount(t: O.Table, jobs: seq<O.Job>, now: nat)
    requires O.RunJobs(t, jobs, now).Ok?
    ensures |O.RunJobs(t, jobs, now).value.1| == |jobs|
  {
    if jobs != [] { RunJobsCount(t, jobs[..|jobs| - 1], now); }
  }

  ghost predicate PlanRowsDistinct(t0: O.Table, c: Context, plans: seq<Plan>) {
    forall k :: 0 <= k < |plans| ==> PlanJobs(c, plans[k]).Some? && RowsDistinct(t0, PlanJobs(c, plans[k]).value)
  }

  lemma {:induction false} PlansRunIff(db: Db, c: Context, plans: seq<Plan>)
    requires AllJobs(c, plans).Some? ==> Setting(db.outbox, AllJobs(c, plans).value, c.inboxId)
    ensures RunPlans(db, c, plans).Some? <==>
              AllJobs(c, plans).Some? && O.RunJobs(db.outbox, AllJobs(c, plans).value, c.now).Ok?
                  && PlanRowsDistinct(db.outbox, c, plans)
    ensures RunPlans(db, c, plans).Some? ==>
              RunPlans(db, c, plans).value.outbox == O.RunJobs(db.outbox, AllJobs(c, plans).value, c.now).value.0
  {
    if plans != [] {
      var front, last := plans[..|plans| - 1], plans[|plans| - 1];
      assert PlanRowsDistinct(db.outbox, c, plans) <==>
             PlanRowsDistinct(db.outbox, c, front) && PlanJobs(c, last).Some?
                 && RowsDistinct(db.outbox, PlanJobs(c, last).value);
      if AllJobs(c, plans).Some? {
        var a, b := AllJobs(c, front).value, PlanJobs(c, last).value;
        SettingPrefix(db.outbox, a, b, c.inboxId);
        PlansRunIff(db, c, front);
        RunJobsAppend(db.outbox, a, b, c.now);
        if O.RunJobs(db.outbox, a + b, c.now).Ok? {
          LastIdsDistinct(db.outbox, a, b, c.inboxId, c.now);
        }
      } else if RunPlans(db, c, front).Some? {
        AllJobsOfRun(db, c, front);
      }
    }
  }

  lemma {:induction false} AllJobsOfRun(db: Db, c: Context, plans: seq<Plan>)
    requires RunPlans(db, c, plans).Some?
    ensures AllJobs(c, plans).Some?
  {
    if plans != [] { AllJobsOfRun(db, c, plans[..|plans| - 1]); }
  }

  // ---------------------------------------------------------------- unique ids give unique producers

  /** What the configuration check guarantees: rule ids are unique, and action ids within a rule. */
  ghost predicate UniqueIds(plans: seq<Plan>) {
    && (forall i, j :: 0 <= i < j < |plans| ==> plans[i].ruleId != plans[j].ruleId)
    && (forall k :: 0 <= k < |plans| ==> UniqueActions(plans[k].actions))
  }

  predicate UniqueActions(actions: seq<Action>) {
    forall i, j :: 0 <= i < j < |actions| ==> actions[i].actionId != actions[j].actionId
  }

  ghost predicate NamedBy(job: O.Job, inbox: nat, rule: string, actions: seq<Action>) {
    !job.lookupFirst ==>
      exists i :: 0 <= i < |actions| && job.producer == Some(K.RuleActionText(inbox, rule, actions[i].actionId))
  }

  lemma DeliveriesAreFunnel(c: Context, a: Action, i: nat)
    requires a.dispatch.Notify?
    requires var jobs := N.NotificationJobs(c.settings, a.dispatch.notice, Some(a.dedupe), c.env,
             N.SaturatingAdd(c.now, a.delay));
             jobs.Some? && i < |jobs.value|
    ensures S.FunnelJob(N.NotificationJobs(c.settings, a.dispatch.notice, Some(a.dedupe), c.env,
            N.SaturatingAdd(c.now, a.delay)).value[i])
  {
    var n, channels := N.NormalOf(a.dispatch.notice), N.Chosen(c.settings, N.Trims(a.dispatch.notice.channelIds));
    DeliveryIsFunnel(n, channels[i], a.dedupe, c.env, i, N.SaturatingAdd(c.now, a.delay));
  }

  lemma DeliveryIsFunnel(n: N.Normal, channel: N.Channel, prefix: string, env: N.Env, i: nat, at: nat)
    ensures S.FunnelJob(N.Delivery(n, channel, Some(prefix), env.nonce(i), env.rendered, at))
  {
  }

  lemma ActionJobsKind(c: Context, plan: Plan, a: Action, i: nat)
    requires ActionJobs(c, plan, a).Some? && i < |ActionJobs(c, plan, a).value|
    ensures var job := ActionJobs(c, plan, a).value[i];
      || S.FunnelJob(job)
      || (DirectJob(job, c.inboxId) && |ActionJobs(c, plan, a).value| == 1
          && job.producer == Some(K.RuleActionText(c.inboxId, plan.ruleId, a.actionId)))
  {
    match a.dispatch
    case Direct(_) => assert ActionJobs(c, plan, a).value[0].producer
        == Some(K.RuleActionText(c.inboxId, plan.ruleId, a.actionId));
    case Notify(_) => DeliveriesAreFunnel(c, a, i);
    case Messaging(_) =>
  }

  lemma AppendKind(a: seq<O.Job>, b: seq<O.Job>, inbox: nat)
    requires EventJobs(a, inbox) && EventJobs(b, inbox) && DirectDistinct(a) && DirectDistinct(b)
    requires forall i, j :: 0 <= i < |a| && 0 <= j < |b| && !a[i].lookupFirst && !b[j].lookupFirst ==>
             a[i].producer != b[j].producer
    ensures EventJobs(a + b, inbox) && DirectDistinct(a + b)
  {
  }

  ghost predicate AllNamed(jobs: seq<O.Job>, inbox: nat, rule: string, actions: seq<Action>) {
    forall i :: 0 <= i < |jobs| ==> NamedBy(jobs[i], inbox, rule, actions)
  }

  lemma ActionKinds(c: Context, plan: Plan, actions: seq<Action>, k: nat)
    requires k < |actions| && ActionJobs(c, plan, actions[k]).Some?
    ensures var jobs := ActionJobs(c, plan, actions[k]).value;
            EventJobs(jobs, c.inboxId) && DirectDistinct(jobs) && AllNamed(jobs, c.inboxId, plan.ruleId, actions)
            && forall i :: 0 <= i < |jobs| && !jobs[i].lookupFirst ==>
                 jobs[i].producer == Some(K.RuleActionText(c.inboxId, plan.ruleId, actions[k].actionId))
  {
    var jobs := ActionJobs(c, plan, actions[k]).value;
    forall i | 0 <= i < |jobs|
      ensures S.FunnelJob(jobs[i]) || (DirectJob(jobs[i], c.inboxId) && |jobs| == 1
              && jobs[i].producer == Some(K.RuleActionText(c.inboxId, plan.ruleId, actions[k].actionId)))
    {
      ActionJobsKind(c, plan, actions[k], i);
    }
  }

  lemma {:induction false} ActionsJobsKind(c: Context, plan: Plan, actions: seq<Action>)
    requires ActionsJobs(c, plan, actions).Some? && UniqueActions(actions)
    ensures var jobs := ActionsJobs(c, plan, actions).value;
            EventJobs(jobs, c.inboxId) && DirectDistinct(jobs) && AllNamed(jobs, c.inboxId, plan.ruleId, actions)
  {
    if actions != [] {
      var front, last := actions[..|actions| - 1], actions[|actions| - 1];
      ActionsJobsKind(c, plan, front);
      ActionKinds(c, plan, actions, |actions| - 1);
      var a, b := ActionsJobs(c, plan, front).value, ActionJobs(c, plan, last).value;
      forall i | 0 <= i < |a|
        ensures NamedBy(a[i], c.inboxId, plan.ruleId, actions)
        ensures !a[i].lookupFirst ==> a[i].producer != Some(K.RuleActionText(c.inboxId, plan.ruleId, last.actionId))
      {
        NamedMore(a[i], c.inboxId, plan.ruleId, front, actions);
        if !a[i].lookupFirst { NotNamed(a[i], c.inboxId, plan.ruleId, front, plan.ruleId, last.actionId); }
      }
      AppendKind(a, b, c.inboxId);
    }
  }

  lemma NamedMore(job: O.Job, inbox: nat, rule: string, front: seq<Action>, actions: seq<Action>)
    requires NamedBy(job, inbox, rule, front) && front <= actions
    ensures NamedBy(job, inbox, rule, actions)
  {
    if !job.lookupFirst {
      var i :| 0 <= i < |front| && job.producer == Some(K.RuleActionText(inbox, rule, front[i].actionId));
      assert actions[i] == front[i];
    }
  }

  lemma NotNamed(job: O.Job, inbox: nat, rule: string, actions: seq<Action>, rule': string, action: string)
    requires NamedBy(job, inbox, rule, actions) && !job.lookupFirst
    requires rule != rule' || forall i :: 0 <= i < |actions| ==> actions[i].actionId != action
    ensures job.producer != Some(K.RuleActionText(inbox, rule', action))
  {
    var i :| 0 <= i < |actions| && job.producer == Some(K.RuleActionText(inbox, rule, actions[i].actionId));
    if K.RuleActionText(inbox, rule, actions[i].actionId) == K.RuleActionText(inbox, rule', action) {
      K.RuleActionKeyUnique(inbox, rule, actions[i].actionId, inbox, rule', action);
    }
  }

  ghost predicate NamedByPlans(job: O.Job, inbox: nat, plans: seq<Plan>) {
    !job.lookupFirst ==> exists k :: 0 <= k < |plans| && NamedBy(job, inbox, plans[k].ruleId, plans[k].actions)
  }

  ghost predicate AllNamedByPlans(jobs: seq<O.Job>, inbox: nat, plans: seq<Plan>) {
    forall i :: 0 <= i < |jobs| ==> NamedByPlans(jobs[i], inbox, plans)
  }

  lemma NamedApart(a: O.Job, b: O.Job, inbox: nat, front: seq<Plan>, last: Plan)
    requires NamedByPlans(a, inbox, front) && NamedBy(b, inbox, last.ruleId, last.actions) && !a.lookupFirst
             && !b.lookupFirst
    requires forall k :: 0 <= k < |front| ==> front[k].ruleId != last.ruleId
    ensures a.producer != b.producer
  {
    var k :| 0 <= k < |front| && NamedBy(a, inbox, front[k].ruleId, front[k].actions);
    var d :| 0 <= d < |last.actions|
        && b.producer == Some(K.RuleActionText(inbox, last.ruleId, last.actions[d].actionId));
    NotNamed(a, inbox, front[k].ruleId, front[k].actions, last.ruleId, last.actions[d].actionId);
  }

  lemma AllApart(a: seq<O.Job>, b: seq<O.Job>, inbox: nat, front: seq<Plan>, last: Plan)
    requires AllNamedByPlans(a, inbox, front) && AllNamed(b, inbox, last.ruleId, last.actions)
    requires forall k :: 0 <= k < |front| ==> front[k].ruleId != last.ruleId
    ensures forall i, j :: 0 <= i < |a| && 0 <= j < |b| && !a[i].lookupFirst && !b[j].lookupFirst ==>
            a[i].producer != b[j].producer
  {
    forall i, j | 0 <= i < |a| && 0 <= j < |b| && !a[i].lookupFirst && !b[j].lookupFirst
      ensures a[i].producer != b[j].producer
    {
      NamedApart(a[i], b[j], inbox, front, last);
    }
  }

  lemma NamedAppend(a: seq<O.Job>, b: seq<O.Job>, inbox: nat, front: seq<Plan>, last: Plan)
    requires AllNamedByPlans(a, inbox, front) && AllNamed(b, inbox, last.ruleId, last.actions)
    ensures AllNamedByPlans(a + b, inbox, front + [last])
  {
    var plans := front + [last];
    forall i | 0 <= i < |a + b| && !(a + b)[i].lookupFirst ensures NamedByPlans((a + b)[i], inbox, plans) {
      if i < |a| {
        assert NamedByPlans(a[i], inbox, front);
        var k :| 0 <= k < |front| && NamedBy(a[i], inbox, front[k].ruleId, front[k].actions);
        assert plans[k] == front[k];
      } else {
        assert NamedBy(b[i - |a|], inbox, plans[|front|].ruleId, plans[|front|].actions);
      }
    }
  }

  /** Unique rule and action ids make the direct jobs of an event differ in their producers. */
  lemma {:induction false} AllJobsKind(c: Context, plans: seq<Plan>)
    requires AllJobs(c, plans).Some? && UniqueIds(plans)
    ensures var jobs := AllJobs(c, plans).value;
            EventJobs(jobs, c.inboxId) && DirectDistinct(jobs) && AllNamedByPlans(jobs, c.inboxId, plans)
  {
    if plans != [] {
      var front, last := plans[..|plans| - 1], plans[|plans| - 1];
      AllJobsKind(c, front);
      ActionsJobsKind(c, last, last.actions);
      var a, b := AllJobs(c, front).value, PlanJobs(c, last).value;
      AllApart(a, b, c.inboxId, front, last);
      AppendKind(a, b, c.inboxId);
      NamedAppend(a, b, c.inboxId, front, last);
      assert plans == front + [last];
    }
  }

  // ---------------------------------------------------------------- the exact condition

  /** An event is processed exactly when its row is `Received`, no plan has errors, every action is
      accepted, every job has an identity or a row to reuse, and no plan would link one row twice. */
  lemma ProcessedIff(db: Db, c: Context, plans: seq<Plan>)
    requires O.TableOk(db.outbox) && NoneOf(db.outbox.rows, c.inboxId) && UniqueIds(plans)
    ensures Processing(db, c, plans).Some? <==>
      && IsReceived(db, c.inboxId)
      && AllJobs(c, plans).Some?
      && AllReady(db.outbox, AllJobs(c, plans).value, |AllJobs(c, plans).value|, c.now)
      && PlanRowsDistinct(db.outbox, c, plans)
  {
    if AllJobs(c, plans).Some? {
      var jobs := AllJobs(c, plans).value;
      AllJobsKind(c, plans);
      KeyedJobs(jobs, c.inboxId);
      JobsRunIff(db.outbox, jobs, |jobs|, c.inboxId, c.now);
      assert jobs[..|jobs|] == jobs;
    }
    PlansRunIff(db, c, plans);
  }

  // ---------------------------------------------------------------- reachable states

  ghost predicate Avoids(job: O.Job, n: nat) {
    O.JobOk(job) && forall rule: string, action: string :: job.producer != Some(K.RuleActionText(n, rule, action))
  }

  ghost predicate AllAvoid(jobs: seq<O.Job>, n: nat) {
    forall i :: 0 <= i < |jobs| ==> Avoids(jobs[i], n)
  }

  /** The table is sound, and an event that has not been processed has produced no row. */
  ghost predicate DbOk(db: Db) {
    O.TableOk(db.outbox) && forall n: nat :: !R.Done(db, n) ==> NoneOf(db.outbox.rows, n)
  }

  /** Producers other than rule processing never use a rule identity. */
  ghost predicate StepOk(step: R.Step) {
    step.OutboxStep? && step.step.Commit? ==> forall n: nat :: AllAvoid(step.step.jobs, n)
  }

  ghost predicate StepsOk(steps: seq<R.Step>) {
    forall i :: 0 <= i < |steps| ==> StepOk(steps[i])
  }

  lemma {:induction false} JobsAvoid(t: O.Table, jobs: seq<O.Job>, now: nat, n: nat)
    requires O.TableOk(t) && AllAvoid(jobs, n) && NoneOf(t.rows, n) && O.RunJobs(t, jobs, now).Ok?
    ensures O.TableOk(O.RunJobs(t, jobs, now).value.0) && NoneOf(O.RunJobs(t, jobs, now).value.0.rows, n)
  {
    if jobs != [] {
      var front, last := jobs[..|jobs| - 1], jobs[|jobs| - 1];
      JobsAvoid(t, front, now, n);
      var mid := O.RunJobs(t, front, now).value.0;
      O.RunJobOk(mid, last, now);
      JobAvoids(mid, last, now, n);
    }
  }

  lemma JobAvoids(t: O.Table, job: O.Job, now: nat, n: nat)
    requires Avoids(job, n) && NoneOf(t.rows, n) && O.RunJob(t, job, now).Ok?
    ensures NoneOf(O.RunJob(t, job, now).value.0.rows, n)
  {
    var end := O.RunJob(t, job, now).value.0;
    if end != t { assert end.rows == t.rows + [O.NewRow(t, job.request, job.producer.value)]; }
  }

  lemma EventJobAvoids(job: O.Job, inbox: nat, n: nat)
    requires S.FunnelJob(job) || DirectJob(job, inbox)
    requires n != inbox
    ensures Avoids(job, n)
  {
    JobFacts(job, inbox);
    forall rule: string, action: string ensures job.producer != Some(K.RuleActionText(n, rule, action)) {
      if S.FunnelJob(job) {
        RuleIsNotDedupe(n, rule, action, job.request.project, job.request.dedupe.value);
      } else {
        var r: string, a: string :| job.producer == Some(K.RuleActionText(inbox, r, a));
        if K.RuleActionText(inbox, r, a) == K.RuleActionText(n, rule, action) {
          K.RuleActionKeyUnique(inbox, r, a, n, rule, action);
        }
      }
    }
  }

  lemma {:induction false} ActionsAvoid(c: Context, plan: Plan, actions: seq<Action>, n: nat)
    requires ActionsJobs(c, plan, actions).Some? && n != c.inboxId
    ensures AllAvoid(ActionsJobs(c, plan, actions).value, n)
  {
    if actions != [] {
      var last := actions[|actions| - 1];
      ActionsAvoid(c, plan, actions[..|actions| - 1], n);
      forall i | 0 <= i < |ActionJobs(c, plan, last).value| ensures Avoids(ActionJobs(c, plan, last).value[i], n) {
        ActionJobsKind(c, plan, last, i);
        EventJobAvoids(ActionJobs(c, plan, last).value[i], c.inboxId, n);
      }
    }
  }

  lemma {:induction false} PlansAvoid(db: Db, c: Context, plans: seq<Plan>, n: nat)
    requires O.TableOk(db.outbox) && NoneOf(db.outbox.rows, n) && n != c.inboxId && RunPlans(db, c, plans).Some?
    ensures O.TableOk(RunPlans(db, c, plans).value.outbox) && NoneOf(RunPlans(db, c, plans).value.outbox.rows, n)
  {
    if plans != [] {
      var front, last := plans[..|plans| - 1], plans[|plans| - 1];
      PlansAvoid(db, c, front, n);
      ActionsAvoid(c, last, last.actions, n);
      JobsAvoid(RunPlans(db, c, front).value.outbox, PlanJobs(c, last).value, c.now, n);
    }
  }

  lemma UpdateAvoids(t: O.Table, id: nat, status: O.Status, n: nat)
    requires NoneOf(t.rows, n)
    ensures NoneOf(S.Next(t, S.SetStatus(id, status)).rows, n)
  {
  }

  lemma AttemptOk(db: Db, c: Context, plans: seq<Plan>)
    requires DbOk(db) && Processing(db, c, plans).Some?
    ensures DbOk(Processing(db, c, plans).value)
  {
    R.SuccessShape(db, c, plans);
    var end := Processing(db, c, plans).value;
    assert R.Done(end, c.inboxId);
    PlansTableOk(db, c, plans);
    forall n: nat | !R.Done(end, n) ensures NoneOf(end.outbox.rows, n) {
      assert !R.Done(db, n);
      PlansAvoid(db, c, plans, n);
    }
  }

  lemma {:induction false} PlansTableOk(db: Db, c: Context, plans: seq<Plan>)
    requires O.TableOk(db.outbox) && RunPlans(db, c, plans).Some?
    ensures O.TableOk(RunPlans(db, c, plans).value.outbox)
  {
    if plans != [] {
      var front, last := plans[..|plans| - 1], plans[|plans| - 1];
      PlansTableOk(db, c, front);
      ActionsAvoid(c, last, last.actions, c.inboxId + 1);
      S.RunJobsOk(RunPlans(db, c, front).value.outbox, PlanJobs(c, last).value, c.now, S.NoKeys);
    }
  }

  lemma NextOk(db: Db, step: R.Step)
    requires DbOk(db) && StepOk(step)
    ensures DbOk(R.Next(db, step))
  {
    var end := R.Next(db, step);
    if step.Attempt? {
      if Processing(db, step.c, step.plans).Some? { AttemptOk(db, step.c, step.plans); }
    } else if step.OutboxStep? && step.step.SetStatus? {
      S.SetStatusOk(db.outbox, step.step.id, step.step.status, S.NoKeys);
      forall n: nat | !R.Done(end, n) ensures NoneOf(end.outbox.rows, n) {
        assert !R.Done(db, n);
        UpdateAvoids(db.outbox, step.step.id, step.step.status, n);
      }
    } else if step.OutboxStep? {
      if O.RunJobs(db.outbox, step.step.jobs, step.step.now).Ok? {
        assert AllAvoid(step.step.jobs, 0);
        S.RunJobsOk(db.outbox, step.step.jobs, step.step.now, S.NoKeys);
        forall n: nat | !R.Done(end, n) ensures NoneOf(end.outbox.rows, n) {
          assert !R.Done(db, n) && AllAvoid(step.step.jobs, n);
          JobsAvoid(db.outbox, step.step.jobs, step.step.now, n);
        }
      }
    } else {
      forall n: nat | !R.Done(end, n) ensures NoneOf(end.outbox.rows, n) {
        assert !R.Done(db, n);
      }
    }
  }

  /** On every reachable state an unprocessed event has no outbox row of its own, so `ProcessedIff`
      applies to each attempt of it, however many failed before. */
  lemma {:induction false} UnprocessedHasNoRows(db: Db, steps: seq<R.Step>, id: nat)
    requires DbOk(db) && StepsOk(steps)
    ensures DbOk(R.Run(db, steps))
    ensures !R.Done(R.Run(db, steps), id) ==> NoneOf(R.Run(db, steps).outbox.rows, id)
  {
    if steps != [] {
      UnprocessedHasNoRows(db, steps[..|steps| - 1], id);
      NextOk(R.Run(db, steps[..|steps| - 1]), steps[|steps| - 1]);
    }
  }

  // ---------------------------------------------------------------- a rule that can never be processed

  datatype DedupePolicy = PerEvent | PerAction

  /** `rule_action_dedupe_key` for notifications; `PerEvent` is the default policy. */
  function NotifyKey(policy: DedupePolicy, rule: string, action: string, event: string): string {
    match policy
    case PerEvent => "rule:" + rule + ":" + event + ":notify"
    case PerAction => "rule:" + rule + ":" + (action + ([':'] + event + ":notify"))
  }

  /** Two notify actions of a rule share their key for an event exactly when both are per event, or
      both per action under one id. */
  lemma NotifyKeysIff(p: DedupePolicy, a: string, q: DedupePolicy, b: string, rule: string, event: string)
    requires a != "" && b != ""
    ensures NotifyKey(p, rule, a, event) == NotifyKey(q, rule, b, event) <==> p == q && (p.PerEvent? || a == b)
  {
    var tail := [':'] + event + ":notify";
    var head := "rule:" + rule + ":";
    if p.PerAction? && q.PerAction? && NotifyKey(p, rule, a, event) == NotifyKey(q, rule, b, event) {
      assert head + (a + tail) == NotifyKey(p, rule, a, event) && head + (b + tail) == NotifyKey(q, rule, b, event);
      assert (head + (a + tail))[|head|..] == a + tail && (head + (b + tail))[|head|..] == b + tail;
      assert |a| == |b| && (a + tail)[..|a|] == a && (b + tail)[..|b|] == b;
    }
    assert p != q ==> |NotifyKey(p, rule, a, event)| != |NotifyKey(q, rule, b, event)|;
  }

  lemma SliceGrows<T>(a: seq<T>, b: seq<T>, from: nat, part: seq<T>)
    requires from + |part| <= |a| && a[from..from + |part|] == part
    ensures (a + b)[from..from + |part|] == part
  {
  }

  lemma LastSlice<T>(a: seq<T>, b: seq<T>)
    ensures (a + b)[|a|..|a| + |b|] == b
  {
  }

  lemma ActionsSnoc(c: Context, plan: Plan, actions: seq<Action>)
    requires actions != [] && ActionsJobs(c, plan, actions).Some?
    ensures var front, last :=
            ActionsJobs(c, plan, actions[..|actions| - 1]), ActionJobs(c, plan, actions[|actions| - 1]);
            front.Some? && last.Some? && ActionsJobs(c, plan, actions).value == front.value + last.value
  {
  }

  /** The jobs of action `i` stand in one piece behind those of the actions before it. */
  predicate Sliced(c: Context, plan: Plan, actions: seq<Action>, i: nat)
    requires i < |actions|
  {
    var all, before, own :=
        ActionsJobs(c, plan, actions), ActionsJobs(c, plan, actions[..i]), ActionJobs(c, plan, actions[i]);
    && all.Some? && before.Some? && own.Some?
    && |before.value| + |own.value| <= |all.value|
    && all.value[|before.value|..|before.value| + |own.value|] == own.value
  }

  lemma SlicedStep(c: Context, plan: Plan, actions: seq<Action>, i: nat)
    requires i < |actions| - 1 && ActionsJobs(c, plan, actions).Some? && Sliced(c, plan, actions[..|actions| - 1], i)
    ensures Sliced(c, plan, actions, i)
  {
    var front, last := actions[..|actions| - 1], actions[|actions| - 1];
    ActionsSnoc(c, plan, actions);
    assert front[..i] == actions[..i] && front[i] == actions[i];
    SliceGrows(ActionsJobs(c, plan, front).value, ActionJobs(c, plan, last).value,
               |ActionsJobs(c, plan, actions[..i]).value|, ActionJobs(c, plan, actions[i]).value);
  }

  /** Where an action's jobs stand among those of its plan. */
  lemma {:induction false} ActionSlice(c: Context, plan: Plan, actions: seq<Action>, i: nat)
    requires i < |actions| && ActionsJobs(c, plan, actions).Some?
    ensures Sliced(c, plan, actions, i)
  {
    ActionsSnoc(c, plan, actions);
    if i < |actions| - 1 {
      ActionSlice(c, plan, actions[..|actions| - 1], i);
      SlicedStep(c, plan, actions, i);
    } else {
      LastSlice(ActionsJobs(c, plan, actions[..i]).value, ActionJobs(c, plan, actions[i]).value);
    }
  }

  /** Both notices go to some one channel. */
  ghost predicate ShareChannel(settings: seq<N.Channel>, m: N.Notice, n: N.Notice) {
    var p, q := N.Trims(m.channelIds), N.Trims(n.channelIds);
    && N.CanSelect(settings, p) && N.CanSelect(settings, q)
    && exists u, v :: ShareAt(N.Chosen(settings, p), N.Chosen(settings, q), u, v)
  }

  predicate ShareAt(x: seq<N.Channel>, y: seq<N.Channel>, u: int, v: int) {
    0 <= u < |x| && 0 <= v < |y| && x[u].id == y[v].id
  }

  lemma NotifyJob(c: Context, plan: Plan, a: Action, u: nat)
    requires a.dispatch.Notify? && ActionJobs(c, plan, a).Some?
    requires N.CanSelect(c.settings, N.Trims(a.dispatch.notice.channelIds))
    requires u < |N.Chosen(c.settings, N.Trims(a.dispatch.notice.channelIds))|
    ensures u < |ActionJobs(c, plan, a).value|
    ensures var job := ActionJobs(c, plan, a).value[u];
      && job.lookupFirst && job.request.project == N.OrEmpty(a.dispatch.notice.projectId)
      && job.request.dedupe
         == Some(N.DeliveryKey(a.dedupe, N.Chosen(c.settings, N.Trims(a.dispatch.notice.channelIds))[u].id))
  {
  }

  /** Deliveries of one key to one channel are jobs of one key. */
  lemma SharedDelivery(c: Context, plan: Plan, a: Action, b: Action) returns (u: nat, v: nat)
    requires a.dispatch.Notify? && b.dispatch.Notify? && a.dedupe == b.dedupe
    requires N.OrEmpty(a.dispatch.notice.projectId) == N.OrEmpty(b.dispatch.notice.projectId)
    requires ShareChannel(c.settings, a.dispatch.notice, b.dispatch.notice)
    requires ActionJobs(c, plan, a).Some? && ActionJobs(c, plan, b).Some?
    ensures var x, y := ActionJobs(c, plan, a).value, ActionJobs(c, plan, b).value;
            u < |x| && v < |y| && SameJobKey(x[u], y[v]) && x[u].lookupFirst && y[v].lookupFirst
  {
    u, v :| ShareAt(N.Chosen(c.settings, N.Trims(a.dispatch.notice.channelIds)),
                    N.Chosen(c.settings, N.Trims(b.dispatch.notice.channelIds)), u, v);
    NotifyJob(c, plan, a, u);
    NotifyJob(c, plan, b, v);
  }

  lemma JobAt(c: Context, plan: Plan, actions: seq<Action>, i: nat, u: nat) returns (x: nat)
    requires i < |actions| && ActionsJobs(c, plan, actions).Some?
    requires ActionJobs(c, plan, actions[i]).Some? && u < |ActionJobs(c, plan, actions[i]).value|
    ensures ActionsJobs(c, plan, actions[..i]).Some? && x == |ActionsJobs(c, plan, actions[..i]).value| + u
    ensures var jobs := ActionsJobs(c, plan, actions).value;
            x < |jobs| && jobs[x] == ActionJobs(c, plan, actions[i]).value[u]
  {
    ActionSlice(c, plan, actions, i);
    var jobs, own := ActionsJobs(c, plan, actions).value, ActionJobs(c, plan, actions[i]).value;
    var from := |ActionsJobs(c, plan, actions[..i]).value|;
    x := from + u;
    SliceAt(jobs, from, own, u);
  }

  lemma SliceAt<T>(s: seq<T>, from: nat, part: seq<T>, u: nat)
    requires from + |part| <= |s| && s[from..from + |part|] == part && u < |part|
    ensures s[from + u] == part[u]
  {
    assert s[from..from + |part|][u] == s[from + u];
  }

  lemma JobsInOrder(c: Context, plan: Plan, actions: seq<Action>, i: nat, j: nat, u: nat)
    requires i < j < |actions| && ActionsJobs(c, plan, actions).Some?
    requires ActionJobs(c, plan, actions[i]).Some? && u < |ActionJobs(c, plan, actions[i]).value|
    ensures ActionsJobs(c, plan, actions[..i]).Some? && ActionsJobs(c, plan, actions[..j]).Some?
    ensures |ActionsJobs(c, plan, actions[..i]).value| + u < |ActionsJobs(c, plan, actions[..j]).value|
  {
    ActionSlice(c, plan, actions, j);
    ActionSlice(c, plan, actions[..j], i);
    assert actions[..j][..i] == actions[..i];
  }

  /** Two actions with jobs of one key put that key twice into their plan. */
  lemma RepeatedKey(t0: O.Table, c: Context, plan: Plan, i: nat, j: nat, u: nat, v: nat)
    requires i < j < |plan.actions| && PlanJobs(c, plan).Some?
    requires ActionJobs(c, plan, plan.actions[i]).Some? && ActionJobs(c, plan, plan.actions[j]).Some?
    requires var x, y := ActionJobs(c, plan, plan.actions[i]).value, ActionJobs(c, plan, plan.actions[j]).value;
             u < |x| && v < |y| && SameJobKey(x[u], y[v]) && x[u].lookupFirst == y[v].lookupFirst
    ensures !RowsDistinct(t0, PlanJobs(c, plan).value)
  {
    var x := JobAt(c, plan, plan.actions, i, u);
    var y := JobAt(c, plan, plan.actions, j, v);
    JobsInOrder(c, plan, plan.actions, i, j, u);
    assert SharesRow(t0, PlanJobs(c, plan).value[x], PlanJobs(c, plan).value[y]);
  }

  /** A rule with two notify actions, anywhere among its actions, that share their key, their project
      and a channel can never be processed, on any store, at any time: the attempt fails, the event is
      marked failed, and every replay fails again. */
  lemma TwoNotificationsOneKey(db: Db, c: Context, plans: seq<Plan>, k: nat, i: nat, j: nat)
    requires O.TableOk(db.outbox) && NoneOf(db.outbox.rows, c.inboxId) && UniqueIds(plans)
    requires k < |plans| && i < j < |plans[k].actions|
    requires plans[k].actions[i].dispatch.Notify? && plans[k].actions[j].dispatch.Notify?
    requires plans[k].actions[i].dedupe == plans[k].actions[j].dedupe
    requires N.OrEmpty(plans[k].actions[i].dispatch.notice.projectId)
             == N.OrEmpty(plans[k].actions[j].dispatch.notice.projectId)
    requires ShareChannel(c.settings, plans[k].actions[i].dispatch.notice, plans[k].actions[j].dispatch.notice)
    ensures Processing(db, c, plans).None?
  {
    ProcessedIff(db, c, plans);
    var plan := plans[k];
    if PlanJobs(c, plan).Some? {
      ActionSlice(c, plan, plan.actions, i);
      ActionSlice(c, plan, plan.actions, j);
      var u, v := SharedDelivery(c, plan, plan.actions[i], plan.actions[j]);
      RepeatedKey(db.outbox, c, plan, i, j, u, v);
    }
  }

  /** Without channel ids both notices go to all enabled channels; without any, both are refused. */
  lemma DefaultChannels(c: Context, plan: Plan, a: Action, b: Action)
    requires a.dispatch.Notify? && b.dispatch.Notify?
    requires a.dispatch.notice.channelIds == [] && b.dispatch.notice.channelIds == []
    ensures ShareChannel(c.settings, a.dispatch.notice, b.dispatch.notice) || ActionJobs(c, plan, a).None?
  {
    var all := N.Enabled(c.settings);
    if all != [] { assert ShareAt(all, all, 0, 0); }
  }

  /** So under the default policy, which ignores the action, a rule with two notify actions that leave
      the channels to the settings can never be processed. */
  lemma TwoDefaultNotifications(db: Db, c: Context, plans: seq<Plan>, k: nat, i: nat, j: nat, event: string)
    requires O.TableOk(db.outbox) && NoneOf(db.outbox.rows, c.inboxId) && UniqueIds(plans)
    requires k < |plans| && i < j < |plans[k].actions|
    requires var a, b := plans[k].actions[i], plans[k].actions[j];
      && a.dispatch.Notify? && b.dispatch.Notify?
      && a.dedupe == NotifyKey(PerEvent, plans[k].ruleId, a.actionId, event)
      && b.dedupe == NotifyKey(PerEvent, plans[k].ruleId, b.actionId, event)
      && N.OrEmpty(a.dispatch.notice.projectId) == N.OrEmpty(b.dispatch.notice.projectId)
      && a.dispatch.notice.channelIds == [] && b.dispatch.notice.channelIds == []
    ensures Processing(db, c, plans).None?
  {
    var plan := plans[k];
    DefaultChannels(c, plan, plan.actions[i], plan.actions[j]);
    if ShareChannel(c.settings, plan.actions[i].dispatch.notice, plan.actions[j].dispatch.notice) {
      TwoNotificationsOneKey(db, c, plans, k, i, j);
    } else {
      ProcessedIff(db, c, plans);
      if PlanJobs(c, plan).Some? { ActionSlice(c, plan, plan.actions, i); }
    }
  }
}
