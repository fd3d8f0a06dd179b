/** From a resent request to the outbox: the request protocol and the rule pipeline put together. */
module EndToEnd {
  import opened Model
  import opened Text
  import opened RuleProcessing
  import K = ProducerKeys
  import N = Notifications
  import O = Outbox
  import P = ReviewProtocol
  import R = RuleRuns
  import RS = RuleSuccess
  import S = SendOnce

  // ---------------------------------------------------------------- the plan of a review request

  const EXTERNAL_RULE := "system:external-review"

  /** What the configuration of the moment makes of a request: the skill, its payload and its label. */
  datatype Resolved = Resolved(skillKey: string, summary: string, payload: string)

  /** `plan_event` for a review request: one plan, with one action or one error. */
  function RequestPlans(request: P.Request, resolved: Result<Resolved, string>): seq<Plan> {
    match resolved
    case Err(message) => [Plan(EXTERNAL_RULE, "External review request", request.project.id, [], [message])]
    case Ok(r) =>
      var action := Action(r.skillKey, K.RunSkill, r.summary, "external:" + request.requestId, 0, Direct(r.payload));
      [Plan(EXTERNAL_RULE, "External review request", request.project.id, [action], [])]
  }

  /** A request that cannot be resolved is never processed; the attempt leaves everything as it was. */
  lemma UnresolvedFails(db: Db, c: Context, request: P.Request, message: string)
    ensures Processing(db, c, RequestPlans(request, Err(message))).None?
  {
    OnePlan(db, c, RequestPlans(request, Err(message))[0]);
  }

  // ---------------------------------------------------------------- rows of one event

  ghost predicate OfEvent(row: O.Row, n: nat) {
    exists rule: string, action: string :: row.producer == K.RuleActionText(n, rule, action)
  }

  /** The one row an event may have: a skill run in the project of the request, under its request id. */
  predicate RowFor(row: O.Row, request: P.Request) {
    row.kind == K.RunSkill && row.project == request.project.id && row.dedupe == Some("external:" + request.requestId)
  }

  /** Event `n` has one row at the most, and that row runs the skill this request asks for. */
  ghost predicate OneRunOf(rows: seq<O.Row>, n: nat, request: P.Request) {
    && (forall i, j :: 0 <= i < j < |rows| && OfEvent(rows[i], n) ==> !OfEvent(rows[j], n))
    && (forall i :: 0 <= i < |rows| && OfEvent(rows[i], n) ==> RowFor(rows[i], request))
  }

  /** `b` is `a` with rows of other producers appended. */
  ghost predicate GrownByOthers(a: seq<O.Row>, b: seq<O.Row>, n: nat) {
    a <= b && forall i :: |a| <= i < |b| ==> !OfEvent(b[i], n)
  }

  lemma OthersKeep(a: seq<O.Row>, b: seq<O.Row>, n: nat, request: P.Request)
    requires GrownByOthers(a, b, n) && OneRunOf(a, n, request)
    ensures OneRunOf(b, n, request)
  {
  }

  lemma JobGrows(t: O.Table, job: O.Job, now: nat, n: nat)
    requires RS.Avoids(job, n) && O.RunJob(t, job, now).Ok?
    ensures GrownByOthers(t.rows, O.RunJob(t, job, now).value.0.rows, n)
  {
  }

  lemma {:induction false} JobsGrow(t: O.Table, jobs: seq<O.Job>, now: nat, n: nat)
    requires RS.AllAvoid(jobs, n) && O.RunJobs(t, jobs, now).Ok?
    ensures GrownByOthers(t.rows, O.RunJobs(t, jobs, now).value.0.rows, n)
  {
    if jobs != [] {
      JobsGrow(t, jobs[..|jobs| - 1], now, n);
      JobGrows(O.RunJobs(t, jobs[..|jobs| - 1], now).value.0, jobs[|jobs| - 1], now, n);
    }
  }

  /** Processing another event adds no row of this one. */
  lemma {:induction false} PlansGrow(db: Db, c: Context, plans: seq<Plan>, n: nat)
    requires n != c.inboxId && RunPlans(db, c, plans).Some?
    ensures GrownByOthers(db.outbox.rows, RunPlans(db, c, plans).value.outbox.rows, n)
  {
    if plans != [] {
      var front, last := plans[..|plans| - 1], plans[|plans| - 1];
      PlansGrow(db, c, front, n);
      RS.ActionsAvoid(c, last, last.actions, n);
      JobsGrow(RunPlans(db, c, front).value.outbox, PlanJobs(c, last).value, c.now, n);
    }
  }

  lemma OnePlan(db: Db, c: Context, plan: Plan)
    ensures RunPlans(db, c, [plan]) == RunPlan(db, c, plan)
  {
    var plans := [plan];
    assert plans[..0] == [] && plans[|plans| - 1] == plan;
    assert RunPlans(db, c, plans[..0]) == Some(db);
  }

  lemma OneAction(c: Context, plan: Plan, a: Action)
    requires plan.errors == [] && plan.actions == [a]
    ensures PlanJobs(c, plan) == ActionJobs(c, plan, a)
  {
    var actions := plan.actions;
    assert actions[..0] == [] && actions[|actions| - 1] == a;
    assert ActionsJobs(c, plan, actions[..0]) == Some([]);
    if ActionJobs(c, plan, a).Some? { assert [] + ActionJobs(c, plan, a).value == ActionJobs(c, plan, a).value; }
  }

  lemma OneJob(t: O.Table, job: O.Job, now: nat)
    requires O.RunJobs(t, [job], now).Ok?
    ensures var (end, ids) := O.RunJobs(t, [job], now).value;
            && |ids| == 1
            && (end == t || (job.producer.Some? && O.Appends(t, end, job.request, job.producer.value)
                             && ids[0] == t.nextId))
  {
    var jobs := [job];
    assert jobs[..0] == [] && jobs[|jobs| - 1] == job;
    assert O.RunJobs(t, jobs[..0], now) == Ok((t, []));
  }

  /** The row runs what the configuration made of the request, now, under the identity of its event. */
  ghost predicate RunsResolved(row: O.Row, c: Context, r: Resolved) {
    && row.nextAttempt == (if c.now <= U64_MAX then c.now else U64_MAX)
    && row.payload == r.payload && row.summary == r.summary && ForSkill(row.producer, c.inboxId, r.skillKey)
  }

  ghost predicate ForSkill(producer: string, n: nat, skillKey: string) {
    exists rule: string :: producer == K.RuleActionText(n, rule, skillKey)
  }

  /** `b` is `a`, or `a` and one row for this request, which runs what it was resolved to. */
  ghost predicate AddsOne(a: seq<O.Row>, b: seq<O.Row>, c: Context, request: P.Request,
                          resolved: Result<Resolved, string>) {
    b == a || (|b| == |a| + 1 && a <= b && RowFor(b[|a|], request)
               && b[|a|].status == O.Pending && resolved.Ok? && RunsResolved(b[|a|], c, resolved.value))
  }

  lemma RequestJob(c: Context, plan: Plan, request: P.Request, r: Resolved)
    requires plan == RequestPlans(request, Ok(r))[0] && PlanJobs(c, plan).Some?
    ensures |PlanJobs(c, plan).value| == 1
    ensures var job := PlanJobs(c, plan).value[0];
            && job.request.project == request.project.id && job.request.kind == K.RunSkill
            && job.request.dedupe == Some("external:" + request.requestId)
            && job.request.payload == r.payload && job.request.summary == r.summary
            && job.request.nextAttempt == (if c.now <= U64_MAX then c.now else U64_MAX)
            && (job.producer.Some? ==> ForSkill(job.producer.value, c.inboxId, r.skillKey))
  {
    OneAction(c, plan, plan.actions[0]);
    RequestIdentity(c, plan.ruleId, r.skillKey);
  }

  lemma RequestIdentity(c: Context, rule: string, skillKey: string)
    ensures var producer := K.ForRuleAction(c.inboxId, rule, skillKey);
            producer.Some? ==> ForSkill(producer.value, c.inboxId, skillKey)
  {
  }

  /** The trace of a request names its project and links the one row that answers it. */
  predicate TracesRequest(m: Match, c: Context, request: P.Request) {
    && m.ruleId == EXTERNAL_RULE && m.ruleName == "External review request" && m.projectId == request.project.id
    && m.inboxId == c.inboxId
    && m.actionCount == 1 && |m.links| == 1
  }

  lemma RequestPlan(request: P.Request, r: Resolved)
    ensures var plan := RequestPlans(request, Ok(r))[0];
            && plan.ruleId == EXTERNAL_RULE && plan.ruleName == "External review request"
            && plan.projectId == request.project.id
  {
  }

  lemma OneJobPlan(db: Db, c: Context, plan: Plan, job: O.Job)
    requires RunPlan(db, c, plan).Some? && PlanJobs(c, plan) == Some([job])
    ensures var end := RunPlan(db, c, plan).value;
            && |end.matches| == |db.matches| + 1 && Traces(end.matches[|db.matches|], c, plan,
                                                           end.matches[|db.matches|].links)
            && |end.matches[|db.matches|].links| == 1
            && (end.outbox == db.outbox
                || (job.producer.Some? && O.Appends(db.outbox, end.outbox, job.request, job.producer.value)
                    && end.matches[|db.matches|].links[0] == db.outbox.nextId))
  {
    OneJob(db.outbox, job, c.now);
  }

  /** Processing a request adds at most one row, which runs the resolved skill with its payload, and
      one trace, which links the new row or the one that was there. */
  lemma RequestAddsOne(db: Db, c: Context, request: P.Request, resolved: Result<Resolved, string>)
    requires Processing(db, c, RequestPlans(request, resolved)).Some?
    ensures var end := Processing(db, c, RequestPlans(request, resolved)).value;
            && AddsOne(db.outbox.rows, end.outbox.rows, c, request, resolved)
            && |end.matches| == |db.matches| + 1 && TracesRequest(end.matches[|db.matches|], c, request)
            && (end.outbox.rows != db.outbox.rows ==> end.matches[|db.matches|].links[0] == db.outbox.nextId)
  {
    var plan := RequestPlans(request, resolved)[0];
    assert RequestPlans(request, resolved) == [plan];
    OnePlan(db, c, plan);
    if resolved.Ok? {
      RequestPlan(request, resolved.value);
      RequestJob(c, plan, request, resolved.value);
      var jobs := PlanJobs(c, plan).value;
      assert jobs == [jobs[0]];
      OneJobPlan(db, c, plan, jobs[0]);
    }
  }

  lemma ExternalRuleNamed(rule: string)
    requires rule == EXTERNAL_RULE
    ensures !Blank(rule, RustSpace)
  {
    assert rule[0] == 's' && !RustSpace(rule[0]);
  }

  lemma RequestJobsIff(c: Context, request: P.Request, r: Resolved, plan: Plan)
    requires plan == RequestPlans(request, Ok(r))[0]
    ensures PlanJobs(c, plan).Some? <==> c.inboxId != 0 && !Blank(r.skillKey, RustSpace)
    ensures PlanJobs(c, plan).Some? ==>
              && |PlanJobs(c, plan).value| == 1
              && var job := PlanJobs(c, plan).value[0];
                 && job.producer.Some? && !job.lookupFirst
                 && (O.Fits(job.request, c.now) <==> c.now <= I64_MAX)
                 && forall p: string, k: string :: job.producer.value != K.DedupeText(p, k)
  {
    OneAction(c, plan, plan.actions[0]);
    ExternalRuleNamed(plan.ruleId);
    forall p: string, k: string ensures K.RuleActionText(c.inboxId, plan.ruleId, r.skillKey) != K.DedupeText(p, k) {
      RS.RuleIsNotDedupe(c.inboxId, plan.ruleId, r.skillKey, p, k);
    }
  }

  lemma OneJobRuns(t: O.Table, job: O.Job, now: nat)
    requires O.TableOk(t) && O.JobOk(job) && job.producer.Some? && !job.lookupFirst
    ensures O.RunJobs(t, [job], now).Ok? <==> O.Fits(job.request, now)
    ensures O.RunJobs(t, [job], now).Ok? ==> |O.RunJobs(t, [job], now).value.1| == 1
  {
    O.RunJobOk(t, job, now);
    var jobs := [job];
    assert jobs[..0] == [] && jobs[|jobs| - 1] == job;
    assert O.RunJobs(t, jobs[..0], now) == Ok((t, []));
  }

  /** A stored request is processed exactly when its row is received, the configuration resolves it to a
      named skill, and the clock fits the column. */
  lemma RequestProcessedIff(db: Db, c: Context, request: P.Request, resolved: Result<Resolved, string>)
    requires O.TableOk(db.outbox)
    ensures Processing(db, c, RequestPlans(request, resolved)).Some? <==>
              && c.inboxId in db.inbox && db.inbox[c.inboxId] == Received && c.inboxId != 0
              && resolved.Ok? && !Blank(resolved.value.skillKey, RustSpace) && c.now <= I64_MAX
  {
    var plan := RequestPlans(request, resolved)[0];
    assert RequestPlans(request, resolved) == [plan];
    OnePlan(db, c, plan);
    if resolved.Ok? {
      RequestJobsIff(c, request, resolved.value, plan);
      if PlanJobs(c, plan).Some? {
        var jobs := PlanJobs(c, plan).value;
        assert jobs == [jobs[0]];
        OneJobRuns(db.outbox, jobs[0], c.now);
      }
    }
  }

  lemma FirstRow(a: seq<O.Row>, b: seq<O.Row>, n: nat, request: P.Request)
    requires RS.NoneOf(a, n) && a <= b
    requires b == a || (|b| == |a| + 1 && RowFor(b[|a|], request))
    ensures OneRunOf(b, n, request)
  {
    forall i | 0 <= i < |a| ensures !OfEvent(b[i], n) {
      assert b[i] == a[i];
    }
  }

  lemma StatusKeepsRuns(t: O.Table, id: nat, status: O.Status, n: nat, request: P.Request)
    requires OneRunOf(t.rows, n, request)
    ensures OneRunOf(S.Next(t, S.SetStatus(id, status)).rows, n, request)
  {
    var after := S.Next(t, S.SetStatus(id, status)).rows;
    assert |after| == |t.rows| && forall i :: 0 <= i < |after| ==> after[i] == t.rows[i].(status := after[i].status);
    forall i | 0 <= i < |after| ensures OfEvent(after[i], n) <==> OfEvent(t.rows[i], n) {
    }
  }

  // ---------------------------------------------------------------- the two put together

  /** The request protocol, whose rows are the inbox, and the tables and the worker behind it. */
  datatype State = State(protocol: P.World, outbox: O.Table, matches: seq<Match>, failing: Option<nat>)

  datatype Step =
    | Talk(step: P.Step)
    | Try(c: Context, resolved: Result<Resolved, string>, plans: seq<Plan>)
    | Record
    | GiveUp
    | Requeue(id: nat)
    | Other(work: S.Step)

  function Statuses(rows: map<nat, P.Row>): map<nat, InboxStatus> {
    map id | id in rows :: rows[id].status
  }

  function WithStatuses(rows: map<nat, P.Row>, inbox: map<nat, InboxStatus>): map<nat, P.Row> {
    map id | id in rows :: if id in inbox then rows[id].(status := inbox[id]) else rows[id]
  }

  /** The worker sees the rows as the inbox of the rule pipeline. */
  function WorkerOf(s: State): R.Worker {
    R.Worker(Db(s.outbox, s.matches, Statuses(s.protocol.rows)), s.failing)
  }

  function WithWorker(s: State, w: R.Worker): State {
    State(s.protocol.(rows := WithStatuses(s.protocol.rows, w.db.inbox)), w.db.outbox, w.db.matches, w.failing)
  }

  /** A review request is planned from the stored row, under the configuration of the moment; what
      rules make of another event may be anything. */
  function PlansOf(rows: map<nat, P.Row>, id: nat, resolved: Result<Resolved, string>, plans: seq<Plan>): seq<Plan> {
    if id in rows && rows[id].event.ReviewRequest? then RequestPlans(rows[id].event.request, resolved) else plans
  }

  function WorkerStepOf(s: State, step: Step): R.WorkerStep
    requires !step.Talk?
  {
    match step
    case Try(c, resolved, plans) => R.Try(c, PlansOf(s.protocol.rows, c.inboxId, resolved, plans))
    case Record => R.Record
    case GiveUp => R.GiveUp
    case Requeue(id) => R.Others(R.Requeue(id))
    case Other(work) => R.Others(R.OutboxStep(work))
  }

  /** Row statuses are the worker's alone: the protocol's own step for them is not taken. */
  ghost function Next(s: State, step: Step): State
    requires P.KeysUnique(s.protocol.rows)
  {
    if step.Talk? then if step.step.Work? then s else s.(protocol := P.Next(s.protocol, step.step))
    else WithWorker(s, R.WorkerNext(WorkerOf(s), WorkerStepOf(s, step)))
  }

  /** Producers other than rule processing never use a rule identity. */
  ghost predicate StepOk(step: Step) {
    step.Other? && step.work.Commit? ==> forall n: nat :: RS.AllAvoid(step.work.jobs, n)
  }

  ghost predicate StepsOk(steps: seq<Step>) {
    forall i :: 0 <= i < |steps| ==> StepOk(steps[i])
  }

  function Start(config: map<string, P.Project>): State {
    State(P.Start(config), O.Table([], 1), [], None)
  }

  ghost predicate Reached(config: map<string, P.Project>, steps: seq<Step>, s: State)
    decreases |steps|
  {
    if steps == [] then s == Start(config)
    else
      exists before ::
        && Reached(config, steps[..|steps| - 1], before)
        && P.KeysUnique(before.protocol.rows) && s == Next(before, steps[|steps| - 1])
  }

  // ---------------------------------------------------------------- one step of the worker

  /** Nothing of an event is in the outbox unless it is processed. */
  ghost predicate Clean(db: Db, n: nat) {
    !R.Done(db, n) ==> RS.NoneOf(db.outbox.rows, n)
  }

  ghost predicate WorkerStepOk(step: R.WorkerStep) {
    step.Others? ==> RS.StepOk(step.step)
  }

  lemma OutboxStepClean(t: O.Table, step: S.Step, n: nat)
    requires O.TableOk(t) && RS.StepOk(R.OutboxStep(step))
    ensures O.TableOk(S.Next(t, step)) && (RS.NoneOf(t.rows, n) ==> RS.NoneOf(S.Next(t, step).rows, n))
  {
    match step
    case SetStatus(id, status) =>
      S.SetStatusOk(t, id, status, S.NoKeys);
      if RS.NoneOf(t.rows, n) { RS.UpdateAvoids(t, id, status, n); }
    case Commit(jobs, now) =>
      if O.RunJobs(t, jobs, now).Ok? {
        assert RS.AllAvoid(jobs, n);
        S.RunJobsOk(t, jobs, now, S.NoKeys);
        if RS.NoneOf(t.rows, n) { RS.JobsAvoid(t, jobs, now, n); }
      }
  }

  lemma TryClean(db: Db, c: Context, plans: seq<Plan>, n: nat)
    requires O.TableOk(db.outbox) && Clean(db, n) && Processing(db, c, plans).Some?
    ensures var end := Processing(db, c, plans).value;
            O.TableOk(end.outbox) && Clean(end, n) && (n != c.inboxId ==> R.Done(end, n) == R.Done(db, n))
  {
    RS.PlansTableOk(db, c, plans);
    R.SuccessShape(db, c, plans);
    if n != c.inboxId && !R.Done(db, n) { RS.PlansAvoid(db, c, plans, n); }
  }

  /** The outbox changes in a successful try or by other producers and the executor. */
  lemma WorkerOutbox(w: R.Worker, step: R.WorkerStep)
    ensures var after := R.WorkerNext(w, step).db;
            if step.Try? then after == w.db || Processing(w.db, step.c, step.plans) == Some(after)
            else if step.Others? && step.step.OutboxStep?
                then after == w.db.(outbox := S.Next(w.db.outbox, step.step.step))
            else after.outbox == w.db.outbox
  {
  }

  lemma StillDone(w: R.Worker, step: R.WorkerStep, n: nat)
    requires !step.Try? && R.WorkerOk(w) && R.Done(w.db, n)
    ensures R.Done(R.WorkerNext(w, step).db, n)
  {
  }

  /** A step of the worker keeps an event that is not processed out of the outbox. */
  lemma WorkerClean(w: R.Worker, step: R.WorkerStep, n: nat)
    requires O.TableOk(w.db.outbox) && R.WorkerOk(w) && WorkerStepOk(step) && Clean(w.db, n)
    ensures var after := R.WorkerNext(w, step); O.TableOk(after.db.outbox) && Clean(after.db, n)
  {
    WorkerOutbox(w, step);
    if step.Try? {
      if Processing(w.db, step.c, step.plans).Some? { TryClean(w.db, step.c, step.plans, n); }
    } else {
      if step.Others? && step.step.OutboxStep? { OutboxStepClean(w.db.outbox, step.step.step, n); }
      if R.Done(w.db, n) { StillDone(w, step, n); }
    }
  }

  lemma OutboxStepRuns(t: O.Table, step: S.Step, n: nat, request: P.Request)
    requires RS.StepOk(R.OutboxStep(step)) && OneRunOf(t.rows, n, request)
    ensures OneRunOf(S.Next(t, step).rows, n, request)
  {
    match step
    case SetStatus(id, status) => StatusKeepsRuns(t, id, status, n, request);
    case Commit(jobs, now) =>
      if O.RunJobs(t, jobs, now).Ok? {
        assert RS.AllAvoid(jobs, n);
        JobsGrow(t, jobs, now, n);
        OthersKeep(t.rows, S.Next(t, step).rows, n, request);
      }
  }

  lemma TryRuns(db: Db, c: Context, plans: seq<Plan>, n: nat, request: P.Request, resolved: Result<Resolved, string>)
    requires Clean(db, n) && OneRunOf(db.outbox.rows, n, request) && Processing(db, c, plans).Some?
    requires n == c.inboxId ==> plans == RequestPlans(request, resolved)
    ensures OneRunOf(Processing(db, c, plans).value.outbox.rows, n, request)
  {
    var end := Processing(db, c, plans).value;
    if n == c.inboxId {
      RequestAddsOne(db, c, request, resolved);
      FirstRow(db.outbox.rows, end.outbox.rows, n, request);
    } else {
      PlansGrow(db, c, plans, n);
      OthersKeep(db.outbox.rows, end.outbox.rows, n, request);
    }
  }

  /** A step of the worker gives a review request one row at the most. */
  lemma WorkerRuns(w: R.Worker, step: R.WorkerStep, n: nat, request: P.Request, resolved: Result<Resolved, string>)
    requires WorkerStepOk(step) && Clean(w.db, n) && OneRunOf(w.db.outbox.rows, n, request)
    requires step.Try? && step.c.inboxId == n ==> step.plans == RequestPlans(request, resolved)
    ensures OneRunOf(R.WorkerNext(w, step).db.outbox.rows, n, request)
  {
    WorkerOutbox(w, step);
    if step.Try? {
      if Processing(w.db, step.c, step.plans).Some? { TryRuns(w.db, step.c, step.plans, n, request, resolved); }
    } else if step.Others? && step.step.OutboxStep? {
      OutboxStepRuns(w.db.outbox, step.step.step, n, request);
    }
  }

  // ---------------------------------------------------------------- the invariant

  /** Not stored yet, or stored and not processed. A row that retention removed is neither. */
  predicate Pending(s: State, n: nat) {
    s.protocol.nextId <= n || (n in s.protocol.rows && s.protocol.rows[n].status != Processed)
  }

  ghost predicate Inv(s: State) {
    && P.Inv(s.protocol) && O.TableOk(s.outbox) && R.WorkerOk(WorkerOf(s))
    && (forall n: nat :: Pending(s, n) ==> RS.NoneOf(s.outbox.rows, n))
    && (forall n :: n in s.protocol.rows && s.protocol.rows[n].event.ReviewRequest? ==>
          OneRunOf(s.outbox.rows, n, s.protocol.rows[n].event.request))
  }

  lemma NoRunYet(rows: seq<O.Row>, n: nat, request: P.Request)
    requires RS.NoneOf(rows, n)
    ensures OneRunOf(rows, n, request)
  {
    FirstRow(rows, rows, n, request);
  }

  lemma TalkOk(s: State, step: P.Step)
    requires Inv(s) && !step.Work?
    ensures Inv(Next(s, Talk(step)))
  {
    var after := Next(s, Talk(step));
    P.NextOk(s.protocol, step);
    forall n: nat | Pending(after, n) ensures RS.NoneOf(s.outbox.rows, n) {
      P.StepRows(s.protocol, step, n);
      assert Pending(s, n);
    }
    forall n | n in after.protocol.rows && after.protocol.rows[n].event.ReviewRequest?
      ensures OneRunOf(s.outbox.rows, n, after.protocol.rows[n].event.request)
    {
      P.StepRows(s.protocol, step, n);
      if n !in s.protocol.rows {
        assert Pending(s, n);
        NoRunYet(s.outbox.rows, n, after.protocol.rows[n].event.request);
      }
    }
    if s.failing.Some? { P.StepRows(s.protocol, step, s.failing.value); }
  }

  /** A step of the worker gives at most one row a new status, and no processed one. */
  lemma WorkerInbox(w: R.Worker, step: R.WorkerStep) returns (id: nat)
    requires step.Others? ==> step.step.Requeue? || step.step.OutboxStep?
    ensures var before, after := w.db.inbox, R.WorkerNext(w, step).db.inbox;
      || after == before
      || (id in before && id in after && after == before[id := after[id]]
          && (R.WorkerOk(w) ==> before[id] != Processed))
  {
    match step
    case Try(c, plans) =>
      id := c.inboxId;
      if Processing(w.db, c, plans).Some? { R.SuccessShape(w.db, c, plans); }
    case Record => id := if w.failing.Some? then w.failing.value else 0;
    case GiveUp => id := 0;
    case Others(s) => id := if s.Requeue? then s.id else 0;
  }

  lemma StatusesBack(rows: map<nat, P.Row>, inbox: map<nat, InboxStatus>)
    requires inbox.Keys == rows.Keys
    ensures Statuses(WithStatuses(rows, inbox)) == inbox
  {
  }

  lemma NoNewStatus(rows: map<nat, P.Row>)
    ensures WithStatuses(rows, Statuses(rows)) == rows
  {
  }

  lemma OneNewStatus(rows: map<nat, P.Row>, id: nat, status: InboxStatus)
    requires id in rows
    ensures WithStatuses(rows, Statuses(rows)[id := status]) == rows[id := rows[id].(status := status)]
  {
  }

  /** The worker changes the status of rows, never which there are. */
  lemma InboxStays(s: State, step: Step)
    requires !step.Talk?
    ensures var w' := R.WorkerNext(WorkerOf(s), WorkerStepOf(s, step));
            w'.db.inbox.Keys == s.protocol.rows.Keys && WorkerOf(WithWorker(s, w')) == w'
  {
    var w' := R.WorkerNext(WorkerOf(s), WorkerStepOf(s, step));
    var id := WorkerInbox(WorkerOf(s), WorkerStepOf(s, step));
    StatusesBack(s.protocol.rows, w'.db.inbox);
  }

  lemma StatusesKeepInv(w: P.World, inbox: map<nat, InboxStatus>)
    requires P.Inv(w)
    ensures P.Inv(w.(rows := WithStatuses(w.rows, inbox)))
  {
    P.RowChangeKeepsInv(w, WithStatuses(w.rows, inbox), w.nextId);
  }

  lemma PipeOk(s: State, step: Step)
    requires Inv(s) && StepOk(step) && !step.Talk?
    ensures Inv(Next(s, step))
  {
    var w, ws := WorkerOf(s), WorkerStepOf(s, step);
    var w', after := R.WorkerNext(w, ws), Next(s, step);
    InboxStays(s, step);
    StatusesKeepInv(s.protocol, w'.db.inbox);
    R.WorkerStepOk(w, ws);
    assert Clean(w.db, s.protocol.nextId);
    WorkerClean(w, ws, s.protocol.nextId);
    forall n: nat | Pending(after, n) ensures RS.NoneOf(after.outbox.rows, n) {
      PendingStays(s, step, n);
      WorkerClean(w, ws, n);
    }
    forall n | n in after.protocol.rows && after.protocol.rows[n].event.ReviewRequest?
      ensures OneRunOf(after.outbox.rows, n, after.protocol.rows[n].event.request)
    {
      var resolved := if step.Try? then step.resolved else Err("");
      WorkerRuns(w, ws, n, s.protocol.rows[n].event.request, resolved);
    }
  }

  /** Once processed, always processed. */
  lemma PendingStays(s: State, step: Step, n: nat)
    requires !step.Talk? && R.WorkerOk(WorkerOf(s)) && P.RowsOk(s.protocol.rows, s.protocol.nextId)
    requires Pending(Next(s, step), n)
    ensures Pending(s, n) && !R.Done(R.WorkerNext(WorkerOf(s), WorkerStepOf(s, step)).db, n)
  {
    var id := WorkerInbox(WorkerOf(s), WorkerStepOf(s, step));
    InboxStays(s, step);
  }

  lemma {:induction false} ReachedInv(config: map<string, P.Project>, steps: seq<Step>, s: State)
    requires Reached(config, steps, s) && StepsOk(steps)
    ensures Inv(s)
    decreases |steps|
  {
    if steps != [] {
      var front, last := steps[..|steps| - 1], steps[|steps| - 1];
      var before :| Reached(config, front, before) && P.KeysUnique(before.protocol.rows) && s == Next(before, last);
      ReachedInv(config, front, before);
      assert StepOk(last);
      if !last.Talk? {
        PipeOk(before, last);
      } else if !last.step.Work? {
        TalkOk(before, last.step);
      }
    }
  }

  // ---------------------------------------------------------------- the protocol part is a run of the protocol

  /** What a step is for the protocol: nothing, a step of its own, or one new status. */
  lemma StepProjects(s: State, step: Step) returns (seen: Option<P.Step>)
    requires P.KeysUnique(s.protocol.rows)
    ensures Next(s, step).protocol == if seen.None? then s.protocol else P.Next(s.protocol, seen.value)
  {
    if step.Talk? {
      return if step.step.Work? then None else Some(step.step);
    }
    seen := OneStatus(WorkerOf(s), WorkerStepOf(s, step), s.protocol);
  }

  lemma StatusByWork(p: P.World, id: nat, status: InboxStatus)
    requires P.KeysUnique(p.rows) && id in p.rows
    ensures P.Next(p, P.Work(id, status)) == p.(rows := p.rows[id := p.rows[id].(status := status)])
  {
  }

  lemma OneStatus(w: R.Worker, step: R.WorkerStep, p: P.World) returns (seen: Option<P.Step>)
    requires w.db.inbox == Statuses(p.rows) && P.KeysUnique(p.rows)
    requires step.Others? ==> step.step.Requeue? || step.step.OutboxStep?
    ensures p.(rows := WithStatuses(p.rows, R.WorkerNext(w, step).db.inbox))
            == if seen.None? then p else P.Next(p, seen.value)
  {
    var inbox := R.WorkerNext(w, step).db.inbox;
    var id := WorkerInbox(w, step);
    if inbox == w.db.inbox {
      NoNewStatus(p.rows);
      seen := None;
    } else {
      OneNewStatus(p.rows, id, inbox[id]);
      StatusByWork(p, id, inbox[id]);
      seen := Some(P.Work(id, inbox[id]));
    }
  }

  lemma {:induction false} Projects(config: map<string, P.Project>, steps: seq<Step>, s: State)
          returns (sent: seq<P.Step>)
    requires Reached(config, steps, s)
    ensures P.Reached(config, sent, s.protocol)
    decreases |steps|
  {
    if steps == [] {
      sent := [];
    } else {
      var front, last := steps[..|steps| - 1], steps[|steps| - 1];
      var before :| Reached(config, front, before) && P.KeysUnique(before.protocol.rows) && s == Next(before, last);
      sent := Projects(config, front, before);
      var seen := StepProjects(before, last);
      if seen.Some? {
        assert (sent + [seen.value])[..|sent + [seen.value]| - 1] == sent;
        sent := sent + [seen.value];
      }
    }
  }

  // ---------------------------------------------------------------- what the rows of the requests run

  /** The same row but for its status. */
  predicate SameTask(a: O.Row, b: O.Row) {
    a.(status := O.Done) == b.(status := O.Done)
  }

  /** Some try of the run was for event `n` under a configuration that resolved its request to what
      the row runs. */
  ghost predicate FromTry(steps: seq<Step>, row: O.Row, n: nat) {
    exists k :: 0 <= k < |steps| && steps[k].Try? && steps[k].c.inboxId == n && steps[k].resolved.Ok?
      && RunsResolved(row, steps[k].c, steps[k].resolved.value)
  }

  lemma SameRun(a: O.Row, b: O.Row, c: Context, r: Resolved)
    requires SameTask(a, b) && RunsResolved(a, c, r)
    ensures RunsResolved(b, c, r)
  {
    var x, y := a.(status := O.Done), b.(status := O.Done);
    assert x.nextAttempt == y.nextAttempt && x.payload == y.payload && x.summary == y.summary
           && x.producer == y.producer;
  }

  lemma FromEarlier(steps: seq<Step>, a: O.Row, b: O.Row, n: nat)
    requires steps != [] && SameTask(a, b) && FromTry(steps[..|steps| - 1], a, n)
    ensures FromTry(steps, b, n)
  {
    var front := steps[..|steps| - 1];
    var k :| 0 <= k < |front| && front[k].Try? && front[k].c.inboxId == n && front[k].resolved.Ok?
             && RunsResolved(a, front[k].c, front[k].resolved.value);
    SameRun(a, b, front[k].c, front[k].resolved.value);
    assert steps[k] == front[k];
  }

  /** Row `i` was there before, but for its status. */
  predicate Kept(a: seq<O.Row>, b: seq<O.Row>, i: nat)
    requires i < |b|
  {
    i < |a| && SameTask(a[i], b[i])
  }

  lemma OutboxStepKeeps(t: O.Table, step: S.Step, n: nat, i: nat)
    requires RS.StepOk(R.OutboxStep(step)) && i < |S.Next(t, step).rows| && OfEvent(S.Next(t, step).rows[i], n)
    ensures Kept(t.rows, S.Next(t, step).rows, i)
  {
    match step
    case SetStatus(id, status) =>
    case Commit(jobs, now) =>
      if O.RunJobs(t, jobs, now).Ok? {
        assert RS.AllAvoid(jobs, n);
        JobsGrow(t, jobs, now, n);
      }
  }

  lemma TryKeeps(db: Db, c: Context, plans: seq<Plan>, n: nat, request: P.Request, resolved: Result<Resolved, string>,
                 i: nat)
    requires Processing(db, c, plans).Some? && i < |Processing(db, c, plans).value.outbox.rows|
    requires OfEvent(Processing(db, c, plans).value.outbox.rows[i], n)
    requires n == c.inboxId ==> plans == RequestPlans(request, resolved)
    ensures var rows := Processing(db, c, plans).value.outbox.rows;
            || Kept(db.outbox.rows, rows, i)
            || (c.inboxId == n && resolved.Ok? && RunsResolved(rows[i], c, resolved.value))
  {
    var rows := Processing(db, c, plans).value.outbox.rows;
    if n == c.inboxId {
      RequestAddsOne(db, c, request, resolved);
      AddedOrKept(db.outbox.rows, rows, c, request, resolved, i);
    } else {
      PlansGrow(db, c, plans, n);
    }
  }

  lemma AddedOrKept(a: seq<O.Row>, b: seq<O.Row>, c: Context, request: P.Request, resolved: Result<Resolved, string>,
                    i: nat)
    requires AddsOne(a, b, c, request, resolved) && i < |b|
    ensures Kept(a, b, i) || (resolved.Ok? && RunsResolved(b[i], c, resolved.value))
  {
  }

  /** A row of event `n` was there before the step, or the step tried that event and the row runs what
      its request was resolved to. */
  lemma WorkerKeeps(w: R.Worker, step: R.WorkerStep, n: nat, request: P.Request, resolved: Result<Resolved, string>,
                    i: nat)
    requires WorkerStepOk(step) && i < |R.WorkerNext(w, step).db.outbox.rows|
    requires OfEvent(R.WorkerNext(w, step).db.outbox.rows[i], n)
    requires step.Try? && step.c.inboxId == n ==> step.plans == RequestPlans(request, resolved)
    ensures var rows := R.WorkerNext(w, step).db.outbox.rows;
            || Kept(w.db.outbox.rows, rows, i)
            || (step.Try? && step.c.inboxId == n && resolved.Ok? && RunsResolved(rows[i], step.c, resolved.value))
  {
    WorkerOutbox(w, step);
    if step.Try? {
      if R.WorkerNext(w, step).db != w.db { TryKeeps(w.db, step.c, step.plans, n, request, resolved, i); }
    } else if step.Others? && step.step.OutboxStep? {
      OutboxStepKeeps(w.db.outbox, step.step.step, n, i);
    }
  }

  lemma SameTaskOfEvent(a: O.Row, b: O.Row, n: nat)
    requires SameTask(a, b) && OfEvent(b, n)
    ensures OfEvent(a, n)
  {
    assert a.(status := O.Done).producer == b.(status := O.Done).producer;
  }

  lemma PendingHasNone(s: State, n: nat)
    requires Inv(s)
    ensures Pending(s, n) ==> RS.NoneOf(s.outbox.rows, n)
  {
  }

  lemma StepKeeps(s: State, step: Step, n: nat, i: nat)
    requires Inv(s) && StepOk(step)
    requires n in Next(s, step).protocol.rows && Next(s, step).protocol.rows[n].event.ReviewRequest?
    requires i < |Next(s, step).outbox.rows| && OfEvent(Next(s, step).outbox.rows[i], n)
    ensures var row := Next(s, step).outbox.rows[i];
            || (Kept(s.outbox.rows, Next(s, step).outbox.rows, i) && n in s.protocol.rows
                && s.protocol.rows[n].event.ReviewRequest?)
            || (step.Try? && step.c.inboxId == n && step.resolved.Ok? && RunsResolved(row, step.c, step.resolved.value))
  {
    if step.Talk? {
      if !step.step.Work? { P.StepRows(s.protocol, step.step, n); }
      PendingHasNone(s, n);
    } else {
      InboxStays(s, step);
      var resolved := if step.Try? then step.resolved else Err("");
      WorkerKeeps(WorkerOf(s), WorkerStepOf(s, step), n, s.protocol.rows[n].event.request, resolved, i);
    }
  }

  /** Over every run: what the row of a review request runs, its payload, label and skill, is what some
      try of that event resolved the recorded request to; status changes never alter it. */
  lemma {:induction false} RunsWhatWasResolved(config: map<string, P.Project>, steps: seq<Step>, s: State, n: nat,
                                               i: nat)
    requires Reached(config, steps, s) && StepsOk(steps)
    requires n in s.protocol.rows && s.protocol.rows[n].event.ReviewRequest?
    requires i < |s.outbox.rows| && OfEvent(s.outbox.rows[i], n)
    ensures FromTry(steps, s.outbox.rows[i], n)
    decreases |steps|
  {
    if steps != [] {
      var front, last := steps[..|steps| - 1], steps[|steps| - 1];
      var before :| Reached(config, front, before) && P.KeysUnique(before.protocol.rows) && s == Next(before, last);
      ReachedInv(config, front, before);
      assert StepOk(last);
      StepKeeps(before, last, n, i);
      if Kept(before.outbox.rows, s.outbox.rows, i) && n in before.protocol.rows
         && before.protocol.rows[n].event.ReviewRequest? {
        SameTaskOfEvent(before.outbox.rows[i], s.outbox.rows[i], n);
        RunsWhatWasResolved(config, front, before, n, i);
        FromEarlier(steps, before.outbox.rows[i], s.outbox.rows[i], n);
      }
    }
  }

  // ---------------------------------------------------------------- the guarantees

  /** Whatever clients, handlers, the worker, replays, retention and other producers do, in any order
      and under any configurations: the inbox rows of one request id have one outbox row between them
      at the most, and it runs the skill in the project of the recorded request. */
  lemma OneRunPerRequestId(config: map<string, P.Project>, steps: seq<Step>, s: State, m: nat, n: nat, i: nat, j: nat)
    requires Reached(config, steps, s) && StepsOk(steps)
    requires m in s.protocol.rows && s.protocol.rows[m].event.ReviewRequest?
    requires n in s.protocol.rows && s.protocol.rows[n].event.ReviewRequest?
    requires s.protocol.rows[m].event.request.requestId == s.protocol.rows[n].event.request.requestId
    requires i < |s.outbox.rows| && OfEvent(s.outbox.rows[i], m)
    requires j < |s.outbox.rows| && OfEvent(s.outbox.rows[j], n)
    ensures m == n && i == j && RowFor(s.outbox.rows[i], s.protocol.rows[m].event.request)
  {
    ReachedInv(config, steps, s);
  }

  /** All clients that hold an acceptance under one request id hold the id of one inbox row, which has
      at most one outbox row, and that runs the skill in the project that the configuration named under
      their own reference when their ask was delivered. */
  lemma ResentRequestRunsOnce(config: map<string, P.Project>, steps: seq<Step>, s: State, a: P.Reply, b: P.Reply,
          i: nat, j: nat)
    returns (sent: seq<P.Step>)
    requires Reached(config, steps, s) && StepsOk(steps)
    requires a in s.protocol.receipts && b in s.protocol.receipts && a.Accepted? && b.Accepted?
    requires a.ask.requestId == b.ask.requestId
    requires i < |s.outbox.rows| && OfEvent(s.outbox.rows[i], a.receipt)
    requires j < |s.outbox.rows| && OfEvent(s.outbox.rows[j], b.receipt)
    ensures i == j && RowFor(s.outbox.rows[i], a.request) && RowFor(s.outbox.rows[i], b.request)
    ensures P.Reached(config, sent, s.protocol)
    ensures P.WasResolved(config, sent, a.ask, a.request) && P.WasResolved(config, sent, b.ask, b.request)
  {
    sent := Projects(config, steps, s);
    P.ReceiptsAgree(config, sent, s.protocol, a, b);
    OneRunPerRequestId(config, steps, s, a.receipt, b.receipt, i, j);
  }
}
