/** What rule processing guarantees over whole runs, and exactly when an event can be processed. */
module RuleRuns {
  import opened Model
  import opened Text
  import opened Order
  import opened RuleProcessing
  import O = Outbox
  import S = SendOnce
  import N = Notifications
  import K = ProducerKeys

  // ---------------------------------------------------------------- what a success leaves behind

  lemma {:induction false} SuccessShape(db: Db, c: Context, plans: seq<Plan>)
    requires RunPlans(db, c, plans).Some?
    ensures var end := RunPlans(db, c, plans).value;
            |end.matches| == |db.matches| + |plans| && db.matches <= end.matches && end.inbox == db.inbox
  {
    if plans != [] { SuccessShape(db, c, plans[..|plans| - 1]); }
  }

  /** One trace per plan, in plan order: the trace of plan `k` links exactly the ids its actions got, in
      action order and each once, and counts them. */
  lemma {:induction false} SuccessTraces(db: Db, c: Context, plans: seq<Plan>, k: nat)
    requires RunPlans(db, c, plans).Some? && k < |plans|
    ensures |RunPlans(db, c, plans).value.matches| == |db.matches| + |plans|
    ensures RunPlans(db, c, plans[..k]).Some? && PlanJobs(c, plans[k]).Some?
    ensures var ran := O.RunJobs(RunPlans(db, c, plans[..k]).value.outbox, PlanJobs(c, plans[k]).value, c.now);
            ran.Ok? && Distinct(ran.value.1)
            && Traces(RunPlans(db, c, plans).value.matches[|db.matches| + k], c, plans[k], ran.value.1)
  {
    SuccessShape(db, c, plans);
    var front := plans[..|plans| - 1];
    SuccessShape(db, c, front);
    if k < |front| {
      SuccessTraces(db, c, front, k);
      assert front[..k] == plans[..k];
    } else {
      assert plans[..k] == front;
    }
  }

  // ---------------------------------------------------------------- runs

  datatype Step =
    | Attempt(c: Context, plans: seq<Plan>)
    | MarkFailed(id: nat)
    | Requeue(id: nat)
    | Ingest(id: nat)
    | OutboxStep(step: S.Step)

  /** The worker marks only the `Received` row whose attempt failed; replay takes `Failed` rows back. */
  ghost function Next(db: Db, step: Step): Db {
    match step
    case Attempt(c, plans) => if Processing(db, c, plans).Some? then Processing(db, c, plans).value else db
    case MarkFailed(id) => if IsReceived(db, id) then db.(inbox := db.inbox[id := Failed]) else db
    case Requeue(id) => if id in db.inbox && db.inbox[id] == Failed then db.(inbox := db.inbox[id := Received]) else db
    case Ingest(id) => if id in db.inbox then db else db.(inbox := db.inbox[id := Received])
    case OutboxStep(s) => db.(outbox := S.Next(db.outbox, s))
  }

  ghost function Run(db: Db, steps: seq<Step>): Db {
    if steps == [] then db else Next(Run(db, steps[..|steps| - 1]), steps[|steps| - 1])
  }

  predicate SameRow(db: Db, after: Db, n: nat) {
    (n in after.inbox <==> n in db.inbox) && (n in db.inbox ==> after.inbox[n] == db.inbox[n])
  }

  /** One row of the inbox is `status` now, and that is all. */
  ghost predicate OnlyStatus(db: Db, after: Db, id: nat, status: InboxStatus) {
    && after.outbox == db.outbox && after.matches == db.matches
    && id in after.inbox && after.inbox[id] == status
    && forall n :: n != id ==> SameRow(db, after, n)
  }

  /** What the steps beside attempts do: a received row is marked failed, a failed one is taken back, a new
      event is received; each changes one status or nothing. */
  lemma StatusSteps(db: Db, id: nat)
    ensures if id in db.inbox && db.inbox[id] == Received then OnlyStatus(db, Next(db, MarkFailed(id)), id, Failed)
            else Next(db, MarkFailed(id)) == db
    ensures if id in db.inbox && db.inbox[id] == Failed then OnlyStatus(db, Next(db, Requeue(id)), id, Received)
            else Next(db, Requeue(id)) == db
    ensures if id in db.inbox then Next(db, Ingest(id)) == db
            else OnlyStatus(db, Next(db, Ingest(id)), id, Received)
  {
  }

  function StatusOf(db: Db, id: nat): Option<InboxStatus> {
    if id in db.inbox then Some(db.inbox[id]) else None
  }

  /** An attempt commits on success and leaves everything as it was on failure. On success its event is
      processed, and no other row of the inbox changes. */
  lemma AttemptStep(db: Db, c: Context, plans: seq<Plan>)
    ensures Processing(db, c, plans).None? ==> Next(db, Attempt(c, plans)) == db
    ensures Processing(db, c, plans).Some? ==>
              var after := Next(db, Attempt(c, plans));
              && StatusOf(db, c.inboxId) == Some(Received) && StatusOf(after, c.inboxId) == Some(Processed)
              && |after.matches| == |db.matches| + |plans|
              && forall n :: n != c.inboxId ==> SameRow(db, after, n)
  {
    if Processing(db, c, plans).Some? { SuccessShape(db, c, plans); }
  }

  /** How many attempts on an event committed. */
  ghost function Commits(db: Db, steps: seq<Step>, id: nat): nat {
    if steps == [] then 0
    else
      var before, last := steps[..|steps| - 1], steps[|steps| - 1];
      Commits(db, before, id)
      + (if last.Attempt? && last.c.inboxId == id && Processing(Run(db, before), last.c, last.plans).Some? then 1
          else 0)
  }

  ghost predicate Done(db: Db, id: nat) {
    id in db.inbox && db.inbox[id] == Processed
  }

  /** An event takes effect at most once, over any run of attempts, crashes, failures, replays, new
      events and outbox work; it has taken effect exactly when its row is `Processed`. */
  lemma {:induction false} CommitsOnce(db: Db, steps: seq<Step>, id: nat)
    requires !Done(db, id)
    ensures Commits(db, steps, id) == if Done(Run(db, steps), id) then 1 else 0
  {
    if steps != [] {
      var before, last := steps[..|steps| - 1], steps[|steps| - 1];
      CommitsOnce(db, before, id);
      if last.Attempt? && Processing(Run(db, before), last.c, last.plans).Some? {
        SuccessShape(Run(db, before), last.c, last.plans);
      }
    }
  }

  // ---------------------------------------------------------------- the single worker

  /** The one inbox worker between its steps: idle, or about to record the error of the row it tried. */
  datatype Worker = Worker(db: Db, failing: Option<nat>)

  datatype WorkerStep = Try(c: Context, plans: seq<Plan>) | Record | GiveUp | Others(step: Step)

  /** `mark_failed` updates the row whatever its status is. */
  function MarkedFailed(db: Db, id: nat): Db {
    if id in db.inbox then db.(inbox := db.inbox[id := Failed]) else db
  }

  /** The worker tries `Received` rows only, one at a time; it may stop before an error is recorded. */
  ghost function WorkerNext(w: Worker, step: WorkerStep): Worker {
    match step
    case Try(c, plans) =>
      if w.failing.Some? || !IsReceived(w.db, c.inboxId) then w
      else if Processing(w.db, c, plans).Some? then w.(db := Processing(w.db, c, plans).value)
      else w.(failing := Some(c.inboxId))
    case Record => if w.failing.None? then w else Worker(MarkedFailed(w.db, w.failing.value), None)
    case GiveUp => w.(failing := None)
    case Others(s) => if s.Attempt? || s.MarkFailed? then w else w.(db := Next(w.db, s))
  }

  ghost function WorkerRun(w: Worker, steps: seq<WorkerStep>): Worker {
    if steps == [] then w else WorkerNext(WorkerRun(w, steps[..|steps| - 1]), steps[|steps| - 1])
  }

  /** What a step of the worker does to the database, as a run of at most one step. */
  ghost function Acts(w: Worker, step: WorkerStep): seq<Step> {
    match step
    case Try(c, plans) => if w.failing.Some? || !IsReceived(w.db, c.inboxId) then [] else [Attempt(c, plans)]
    case Record => if w.failing.None? then [] else [MarkFailed(w.failing.value)]
    case GiveUp => []
    case Others(s) => if s.Attempt? || s.MarkFailed? then [] else [s]
  }

  ghost function Acted(w: Worker, steps: seq<WorkerStep>): seq<Step> {
    if steps == [] then []
    else Acted(w, steps[..|steps| - 1]) + Acts(WorkerRun(w, steps[..|steps| - 1]), steps[|steps| - 1])
  }

  ghost predicate WorkerOk(w: Worker) {
    w.failing.Some? ==> IsReceived(w.db, w.failing.value)
  }

  lemma OneStep(db: Db, step: Step)
    ensures Run(db, [step]) == Next(db, step)
  {
    assert [step][..0] == [] && Run(db, []) == db;
  }

  lemma WorkerStepOk(w: Worker, step: WorkerStep)
    requires WorkerOk(w)
    ensures WorkerOk(WorkerNext(w, step)) && WorkerNext(w, step).db == Run(w.db, Acts(w, step))
  {
    if Acts(w, step) != [] { OneStep(w.db, Acts(w, step)[0]); }
  }

  lemma {:induction false} RunAppend(db: Db, a: seq<Step>, b: seq<Step>)
    ensures Run(db, a + b) == Run(Run(db, a), b)
  {
    if b == [] {
      assert a + b == a;
    } else {
      assert (a + b)[..|a + b| - 1] == a + b[..|b| - 1];
      RunAppend(db, a, b[..|b| - 1]);
    }
  }

  /** The worker, step by step: it tries a received row when it is not about to record another one's error;
      a success commits and a failure changes nothing but that it now has an error to record; recording it
      marks the row failed; stopping before that leaves the row received. */
  lemma WorkerSteps(w: Worker, c: Context, plans: seq<Plan>)
    requires WorkerOk(w)
    ensures var tries := w.failing.None? && StatusOf(w.db, c.inboxId) == Some(Received);
            WorkerNext(w, Try(c, plans))
            == (if !tries then w
                else if Processing(w.db, c, plans).Some? then Worker(Processing(w.db, c, plans).value, None)
                else Worker(w.db, Some(c.inboxId)))
    ensures WorkerNext(w, Record).failing.None? && WorkerNext(w, GiveUp) == Worker(w.db, None)
    ensures if w.failing.None? then WorkerNext(w, Record).db == w.db
            else OnlyStatus(w.db, WorkerNext(w, Record).db, w.failing.value, Failed)
  {
  }

  /** The worker is the only one to take a row out of `Received`, so marking a row failed without
      looking at its status does what the guarded step does: whatever the worker and others do is a run
      in the sense above, and each event takes effect at most once. */
  lemma {:induction false} SingleWorker(w: Worker, steps: seq<WorkerStep>)
    requires WorkerOk(w)
    ensures WorkerOk(WorkerRun(w, steps)) && WorkerRun(w, steps).db == Run(w.db, Acted(w, steps))
  {
    if steps != [] {
      var front, last := steps[..|steps| - 1], steps[|steps| - 1];
      SingleWorker(w, front);
      WorkerStepOk(WorkerRun(w, front), last);
      RunAppend(w.db, Acted(w, front), Acts(WorkerRun(w, front), last));
    }
  }

  lemma WorkerCommitsOnce(w: Worker, steps: seq<WorkerStep>, id: nat)
    requires WorkerOk(w) && !Done(w.db, id)
    ensures Commits(w.db, Acted(w, steps), id) == if Done(WorkerRun(w, steps).db, id) then 1 else 0
  {
    SingleWorker(w, steps);
    CommitsOnce(w.db, Acted(w, steps), id);
  }

  // ---------------------------------------------------------------- failed tries

  /** A try that came to nothing: the attempt fails, the row is marked failed and replayed, or the
      process dies after the rollback. */
  ghost predicate FailedTry(db: Db, c: Context, tries: seq<Step>) {
    || (exists t: Context, plans: seq<Plan> ::
          t.inboxId == c.inboxId && Processing(db, t, plans).None? && tries == [Attempt(t, plans)])
    || (exists t: Context, plans: seq<Plan> ::
          t.inboxId == c.inboxId && Processing(db, t, plans).None?
          && tries == [Attempt(t, plans), MarkFailed(c.inboxId), Requeue(c.inboxId)])
  }

  /** Any number of failed tries, under any configurations, followed by a success is that success. */
  lemma {:induction false} FailuresLeaveNothing(db: Db, c: Context, tries: seq<seq<Step>>, n: nat)
    requires n <= |tries| && IsReceived(db, c.inboxId)
    requires forall i :: 0 <= i < |tries| ==> FailedTry(db, c, tries[i])
    ensures After(db, tries, n) == db
  {
    if n > 0 {
      FailuresLeaveNothing(db, c, tries, n - 1);
      FailedTryLeavesNothing(db, c, tries[n - 1]);
    }
  }

  ghost function After(db: Db, tries: seq<seq<Step>>, n: nat): Db
    requires n <= |tries|
  {
    if n == 0 then db else Run(After(db, tries, n - 1), tries[n - 1])
  }

  lemma FailedTryLeavesNothing(db: Db, c: Context, tries: seq<Step>)
    requires IsReceived(db, c.inboxId) && FailedTry(db, c, tries)
    ensures Run(db, tries) == db
  {
    var attempt := tries[0];
    assert attempt.Attempt? && Next(db, attempt) == db;
    assert tries[..1] == [attempt] && [attempt][..0] == [];
    assert Run(db, [attempt]) == db;
    if |tries| == 3 {
      assert tries[..2] == [attempt, MarkFailed(c.inboxId)] && tries[..2][..1] == [attempt];
      var failed := Next(db, MarkFailed(c.inboxId));
      assert Run(db, tries[..2]) == failed;
      assert Next(failed, Requeue(c.inboxId)).inbox == db.inbox;
    } else {
      assert tries == [attempt];
    }
  }
}
