/** What processing an event leaves in the outbox: whose rows are added, and what the links of a trace name. */
module EventEffects {
  import opened Text
  import opened Order
  import opened RuleProcessing
  import O = Outbox
  import S = SendOnce
  import N = Notifications
  import K = ProducerKeys
  import R = RuleRuns
  import RS = RuleSuccess

  // ---------------------------------------------------------------- the row of an action

  /** `now.saturating_add(delay)` */
  function DueAt(c: Context, a: Action): nat {
    if c.now + a.delay <= U64_MAX then c.now + a.delay else U64_MAX
  }

  /** A pending row due when the action is. */
  predicate Due(row: O.Row, c: Context, a: Action) {
    row.status == O.Pending && row.nextAttempt == DueAt(c, a)
  }

  /** The row of an action that goes straight to the outbox. */
  predicate DirectRow(row: O.Row, c: Context, plan: Plan, a: Action) {
    && a.dispatch.Direct? && row.project == plan.projectId && row.kind == a.kind && row.summary == a.summary
    && row.payload == a.dispatch.payload && row.dedupe == Some(a.dedupe)
    && row.producer == K.RuleActionText(c.inboxId, plan.ruleId, a.actionId)
  }

  /** The message of a notification: each text and id without the space around it, empty where it is missing. */
  function Said(notice: N.Notice): N.Normal {
    N.Normal(Trim(notice.title, RustSpace), TextOf(notice.body), TextOf(notice.url), TextOf(notice.projectId),
             N.Trims(notice.channelIds))
  }

  function TextOf(value: Option<string>): string {
    match value
    case None => ""
    case Some(v) => Trim(v, RustSpace)
  }

  lemma SaidIs(notice: N.Notice)
    ensures Said(notice) == N.NormalOf(notice)
  {
  }

  /** The row of a notification for one enabled channel of the settings. */
  predicate NoticeRow(row: O.Row, c: Context, a: Action, channel: N.Channel) {
    && a.dispatch.Notify? && channel in c.settings && channel.enabled
    && row.project == N.OrEmpty(a.dispatch.notice.projectId) && row.kind == K.Notification
    && row.summary == Trim(a.dispatch.notice.title, RustSpace) + " via " + channel.name
    && row.payload == c.env.rendered(Said(a.dispatch.notice), channel)
    && row.dedupe == Some(a.dedupe + [':'] + channel.id)
    && row.producer == K.DedupeText(row.project, a.dedupe + [':'] + channel.id)
  }

  /** The row of a prepared message. */
  predicate MessageRow(row: O.Row, a: Action) {
    && a.dispatch.Messaging? && a.dispatch.prepared.Some? && row.project == MESSAGING_OUTBOX_SCOPE
    && row.kind == K.MessagingSend && row.summary == a.dispatch.prepared.value.summary
    && row.payload == a.dispatch.prepared.value.payload && row.dedupe == Some(a.dispatch.prepared.value.key)
    && row.producer == K.DedupeText(row.project, a.dispatch.prepared.value.key)
  }

  ghost predicate RowOfAction(row: O.Row, c: Context, plan: Plan, a: Action) {
    Due(row, c, a)
    && (DirectRow(row, c, plan, a) || MessageRow(row, a) || exists channel :: NoticeRow(row, c, a, channel))
  }

  lemma EnabledMembers(channels: seq<N.Channel>, channel: N.Channel)
    ensures channel in N.Enabled(channels) ==> channel in channels && channel.enabled
  {
    if channels != [] {
      EnabledMembers(channels[..|channels| - 1], channel);
    }
  }

  lemma ChosenIsEnabled(settings: seq<N.Channel>, ids: seq<string>, i: nat)
    requires N.CanSelect(settings, ids) && i < |N.Chosen(settings, ids)|
    ensures N.Chosen(settings, ids)[i] in settings && N.Chosen(settings, ids)[i].enabled
  {
    if ids == [] { EnabledMembers(settings, N.Enabled(settings)[i]); }
  }

  // ---------------------------------------------------------------- the jobs of an action

  /** The channels of an accepted notification: those asked for, or all enabled ones. */
  predicate ChannelAt(c: Context, a: Action, u: nat, channel: N.Channel)
    requires a.dispatch.Notify?
  {
    var ids := a.dispatch.notice.channelIds;
    && channel in c.settings && channel.enabled
    && (ids == [] ==> u < |N.Enabled(c.settings)| && channel == N.Enabled(c.settings)[u])
    && (ids != [] ==> u < |ids| && channel.id == Trim(ids[u], RustSpace))
  }

  /** How many rows an action asks for. */
  function Count(c: Context, a: Action): nat {
    match a.dispatch
    case Direct(_) => 1
    case Messaging(_) => 1
    case Notify(notice) => if notice.channelIds == [] then |N.Enabled(c.settings)| else |notice.channelIds|
  }

  function CountAll(c: Context, actions: seq<Action>): nat {
    if actions == [] then 0
    else CountAll(c, actions[..|actions| - 1]) + Count(c, actions[|actions| - 1])
  }

  lemma DirectJob(c: Context, plan: Plan, a: Action)
    requires a.dispatch.Direct? && ActionJobs(c, plan, a).Some?
    ensures |ActionJobs(c, plan, a).value| == 1
    ensures var job := ActionJobs(c, plan, a).value[0];
            && job.producer == Some(K.RuleActionText(c.inboxId, plan.ruleId, a.actionId))
            && job.request.project == plan.projectId && job.request.kind == a.kind
            && job.request.summary == a.summary && job.request.payload == a.dispatch.payload
            && job.request.dedupe == Some(a.dedupe) && job.request.nextAttempt == DueAt(c, a)
  {
  }

  lemma MessageJob(c: Context, plan: Plan, a: Action)
    requires a.dispatch.Messaging? && ActionJobs(c, plan, a).Some?
    ensures a.dispatch.prepared.Some? && |ActionJobs(c, plan, a).value| == 1
    ensures var job, m := ActionJobs(c, plan, a).value[0], a.dispatch.prepared.value;
            && job.producer == K.ForDedupe(job.request.project, m.key) && job.request.project == MESSAGING_OUTBOX_SCOPE
            && job.request.kind == K.MessagingSend
            && job.request.summary == m.summary && job.request.payload == m.payload
            && job.request.dedupe == Some(m.key) && job.request.nextAttempt == DueAt(c, a)
  {
  }

  lemma DeliveryJob(n: N.Normal, channel: N.Channel, prefix: string, env: N.Env, nonce: string, at: nat)
    ensures var job := N.Delivery(n, channel, Some(prefix), nonce, env.rendered, at);
            && (job.producer.Some? ==>
                  job.producer.value == K.DedupeText(n.projectId, N.DeliveryKey(prefix, channel.id)))
            && job.request.project == n.projectId && job.request.kind == K.Notification
            && job.request.summary == n.title + " via " + channel.name
            && job.request.payload == env.rendered(n, channel)
            && job.request.dedupe == Some(prefix + [':'] + channel.id) && job.request.nextAttempt == at
  {
  }

  lemma ChosenAt(c: Context, a: Action, u: nat)
    requires a.dispatch.Notify? && N.CanSelect(c.settings, N.Trims(a.dispatch.notice.channelIds))
    ensures var chosen := N.Chosen(c.settings, N.Trims(a.dispatch.notice.channelIds));
            |chosen| == Count(c, a) && (u < |chosen| ==> ChannelAt(c, a, u, chosen[u]))
  {
    var ids := N.Trims(a.dispatch.notice.channelIds);
    if u < |N.Chosen(c.settings, ids)| { ChosenIsEnabled(c.settings, ids, u); }
  }

  lemma DueAtIs(c: Context, a: Action)
    ensures N.SaturatingAdd(c.now, a.delay) == DueAt(c, a)
  {
  }

  lemma NoticeJobsDueAt(c: Context, plan: Plan, a: Action, at: nat)
    requires a.dispatch.Notify? && at == N.SaturatingAdd(c.now, a.delay)
    ensures ActionJobs(c, plan, a) == N.NotificationJobs(c.settings, a.dispatch.notice, Some(a.dedupe), c.env, at)
  {
  }

  lemma NoticeJobsAre(c: Context, plan: Plan, a: Action)
    requires a.dispatch.Notify?
    ensures ActionJobs(c, plan, a)
            == N.NotificationJobs(c.settings, a.dispatch.notice, Some(a.dedupe), c.env, DueAt(c, a))
  {
    DueAtIs(c, a);
    NoticeJobsDueAt(c, plan, a, DueAt(c, a));
  }

  lemma NoticeJob(c: Context, plan: Plan, a: Action, u: nat)
    requires a.dispatch.Notify? && ActionJobs(c, plan, a).Some?
    ensures |ActionJobs(c, plan, a).value| == Count(c, a)
    ensures u < Count(c, a) ==>
              exists channel :: ChannelAt(c, a, u, channel)
                && ActionJobs(c, plan, a).value[u]
                   == N.Delivery(N.NormalOf(a.dispatch.notice), channel, Some(a.dedupe), c.env.nonce(u), c.env.rendered,
                                 DueAt(c, a))
  {
    var notice := a.dispatch.notice;
    NoticeJobsAre(c, plan, a);
    N.NotificationJobsAre(c.settings, notice, Some(a.dedupe), c.env, DueAt(c, a));
    ChosenAt(c, a, u);
    if u < Count(c, a) { assert ChannelAt(c, a, u, N.Chosen(c.settings, N.Trims(notice.channelIds))[u]); }
  }

  /** What an action needs to be accepted: a direct one an event id, a rule and an action that are not
      blank; a message to have been prepared; a notification to be within bounds and to select enabled
      channels only, and one at least. */
  ghost predicate Accepted(c: Context, plan: Plan, a: Action) {
    match a.dispatch
    case Direct(_) => c.inboxId != 0 && Trim(plan.ruleId, RustSpace) != "" && Trim(a.actionId, RustSpace) != ""
    case Messaging(prepared) => prepared.Some?
    case Notify(notice) =>
      && N.WithinBounds(notice, c.env.urlOk)
      && SelectsEnabled(c.settings, notice.channelIds)
      && (notice.channelIds == [] ==> exists channel :: channel in c.settings && channel.enabled)
  }

  lemma {:induction false} SomeEnabled(channels: seq<N.Channel>)
    ensures N.Enabled(channels) != [] <==> exists channel :: channel in channels && channel.enabled
  {
    if channels != [] {
      var front, last := channels[..|channels| - 1], channels[|channels| - 1];
      SomeEnabled(front);
      assert channels == front + [last];
      if channel :| channel in channels && channel.enabled { assert channel in front || channel == last; }
    }
  }

  predicate SelectsEnabled(settings: seq<N.Channel>, raw: seq<string>) {
    forall i :: 0 <= i < |raw| ==> N.Selectable(settings, Trim(raw[i], RustSpace))
  }

  lemma SelectsIff(settings: seq<N.Channel>, raw: seq<string>)
    ensures N.CanSelect(settings, N.Trims(raw)) <==> SelectsEnabled(settings, raw)
  {
    var ids := N.Trims(raw);
    if N.CanSelect(settings, ids) {
      forall i | 0 <= i < |raw| ensures N.Selectable(settings, Trim(raw[i], RustSpace)) {
        assert N.Selectable(settings, ids[i]);
      }
    }
  }

  lemma ChosenSome(settings: seq<N.Channel>, raw: seq<string>)
    requires N.CanSelect(settings, N.Trims(raw))
    ensures N.Chosen(settings, N.Trims(raw)) != [] <==>
              (raw == [] ==> exists channel :: channel in settings && channel.enabled)
  {
    SomeEnabled(settings);
  }

  lemma NoticeAcceptedIff(c: Context, plan: Plan, a: Action)
    requires a.dispatch.Notify?
    ensures ActionJobs(c, plan, a).Some? <==> Accepted(c, plan, a)
  {
    var notice := a.dispatch.notice;
    NoticeJobsAre(c, plan, a);
    N.NotificationJobsAre(c.settings, notice, Some(a.dedupe), c.env, DueAt(c, a));
    N.AcceptableIff(notice, c.env.urlOk);
    SelectsIff(c.settings, notice.channelIds);
    if SelectsEnabled(c.settings, notice.channelIds) { ChosenSome(c.settings, notice.channelIds); }
  }

  lemma NamedIff(inbox: nat, rule: string, action: string)
    ensures K.ForRuleAction(inbox, rule, action).Some? <==> Trim(rule, RustSpace) != "" && Trim(action, RustSpace) != ""
  {
    BlankIff(rule, RustSpace);
    BlankIff(action, RustSpace);
  }

  lemma DirectAcceptedIff(c: Context, plan: Plan, a: Action)
    requires a.dispatch.Direct?
    ensures ActionJobs(c, plan, a).Some? <==> Accepted(c, plan, a)
  {
    NamedIff(c.inboxId, plan.ruleId, a.actionId);
  }

  lemma MessageAcceptedIff(c: Context, plan: Plan, a: Action)
    requires a.dispatch.Messaging?
    ensures ActionJobs(c, plan, a).Some? <==> Accepted(c, plan, a)
  {
  }

  /** Exactly the accepted actions get jobs. */
  lemma AcceptedIff(c: Context, plan: Plan, a: Action)
    ensures ActionJobs(c, plan, a).Some? <==> Accepted(c, plan, a)
  {
    if a.dispatch.Direct? {
      DirectAcceptedIff(c, plan, a);
    } else if a.dispatch.Messaging? {
      MessageAcceptedIff(c, plan, a);
    } else {
      NoticeAcceptedIff(c, plan, a);
    }
  }

  // ---------------------------------------------------------------- every added row is the row of an action

  lemma DirectJobRow(row: O.Row, c: Context, plan: Plan, a: Action)
    requires a.dispatch.Direct? && ActionJobs(c, plan, a).Some? && |ActionJobs(c, plan, a).value| == 1
    requires S.RowOf(row, ActionJobs(c, plan, a).value[0])
    ensures RowOfAction(row, c, plan, a)
  {
    DirectJob(c, plan, a);
    assert DirectRow(row, c, plan, a);
  }

  lemma DedupeIdentity(project: string, key: string)
    ensures K.ForDedupe(project, key).Some? ==> K.ForDedupe(project, key).value == K.DedupeText(project, key)
  {
  }

  lemma MessageJobRow(row: O.Row, c: Context, plan: Plan, a: Action)
    requires a.dispatch.Messaging? && ActionJobs(c, plan, a).Some? && |ActionJobs(c, plan, a).value| == 1
    requires S.RowOf(row, ActionJobs(c, plan, a).value[0])
    ensures RowOfAction(row, c, plan, a)
  {
    MessageJob(c, plan, a);
    DedupeIdentity(row.project, a.dispatch.prepared.value.key);
    assert MessageRow(row, a);
  }

  lemma DeliveryJobRow(row: O.Row, c: Context, a: Action, channel: N.Channel, u: nat)
    requires a.dispatch.Notify? && channel in c.settings && channel.enabled
    requires S.RowOf(row, N.Delivery(N.NormalOf(a.dispatch.notice), channel, Some(a.dedupe), c.env.nonce(u),
                                     c.env.rendered, DueAt(c, a)))
    ensures Due(row, c, a) && NoticeRow(row, c, a, channel)
  {
    SaidIs(a.dispatch.notice);
    DeliveryJob(N.NormalOf(a.dispatch.notice), channel, a.dedupe, c.env, c.env.nonce(u), DueAt(c, a));
  }

  /** A row of one of its jobs is a row of the action. */
  lemma JobRow(row: O.Row, c: Context, plan: Plan, a: Action, u: nat)
    requires ActionJobs(c, plan, a).Some? && u < |ActionJobs(c, plan, a).value|
    requires S.RowOf(row, ActionJobs(c, plan, a).value[u])
    ensures RowOfAction(row, c, plan, a)
  {
    if a.dispatch.Direct? {
      DirectJob(c, plan, a);
      DirectJobRow(row, c, plan, a);
    } else if a.dispatch.Messaging? {
      MessageJob(c, plan, a);
      MessageJobRow(row, c, plan, a);
    } else {
      NoticeJob(c, plan, a, u);
      var channel :| ChannelAt(c, a, u, channel)
                && ActionJobs(c, plan, a).value[u]
                   == N.Delivery(N.NormalOf(a.dispatch.notice), channel, Some(a.dedupe), c.env.nonce(u), c.env.rendered,
                                 DueAt(c, a));
      DeliveryJobRow(row, c, a, channel, u);
    }
  }

  ghost predicate MadeByAction(row: O.Row, c: Context, plan: Plan, actions: seq<Action>) {
    exists i :: 0 <= i < |actions| && RowOfAction(row, c, plan, actions[i])
  }

  lemma {:induction false} ActionsRow(row: O.Row, c: Context, plan: Plan, actions: seq<Action>)
    requires ActionsJobs(c, plan, actions).Some? && S.MadeBySome(row, ActionsJobs(c, plan, actions).value)
    ensures MadeByAction(row, c, plan, actions)
  {
    var j :| 0 <= j < |ActionsJobs(c, plan, actions).value| && S.RowOf(row, ActionsJobs(c, plan, actions).value[j]);
    var front, last := actions[..|actions| - 1], actions[|actions| - 1];
    RS.ActionsSnoc(c, plan, actions);
    var before := ActionsJobs(c, plan, front).value;
    if j < |before| {
      assert S.RowOf(row, before[j]);
      ActionsRow(row, c, plan, front);
      var i :| 0 <= i < |front| && RowOfAction(row, c, plan, front[i]);
      assert actions[i] == front[i];
    } else {
      JobRow(row, c, plan, last, j - |before|);
    }
  }

  ghost predicate MadeByPlan(row: O.Row, c: Context, plans: seq<Plan>) {
    exists k :: 0 <= k < |plans| && MadeByAction(row, c, plans[k], plans[k].actions)
  }

  lemma PlanJobsOk(c: Context, plan: Plan)
    requires PlanJobs(c, plan).Some?
    ensures S.JobsOk(PlanJobs(c, plan).value, S.NoKeys)
  {
    var jobs := PlanJobs(c, plan).value;
    RS.ActionsAvoid(c, plan, plan.actions, c.inboxId + 1);
    forall i | 0 <= i < |jobs| ensures O.JobOk(jobs[i]) {
      assert RS.Avoids(jobs[i], c.inboxId + 1);
    }
  }

  ghost predicate AddedByPlans(db: Db, end: Db, c: Context, plans: seq<Plan>) {
    && O.TableOk(end.outbox) && db.outbox.rows <= end.outbox.rows
    && forall x :: |db.outbox.rows| <= x < |end.outbox.rows| ==> MadeByPlan(end.outbox.rows[x], c, plans)
  }

  lemma MadeByMore(row: O.Row, c: Context, plans: seq<Plan>)
    requires plans != [] && MadeByPlan(row, c, plans[..|plans| - 1])
    ensures MadeByPlan(row, c, plans)
  {
    var front := plans[..|plans| - 1];
    var k :| 0 <= k < |front| && MadeByAction(row, c, front[k], front[k].actions);
    assert plans[k] == front[k];
  }

  lemma LastPlanRow(mid: O.Table, c: Context, plans: seq<Plan>, x: nat)
    requires O.TableOk(mid) && plans != []
    requires var jobs := PlanJobs(c, plans[|plans| - 1]);
             jobs.Some? && O.RunJobs(mid, jobs.value, c.now).Ok?
             && |mid.rows| <= x < |O.RunJobs(mid, jobs.value, c.now).value.0.rows|
    ensures MadeByPlan(O.RunJobs(mid, PlanJobs(c, plans[|plans| - 1]).value, c.now).value.0.rows[x], c, plans)
  {
    var last := plans[|plans| - 1];
    PlanJobsOk(c, last);
    S.AddedRows(mid, PlanJobs(c, last).value, c.now, x);
    ActionsRow(O.RunJobs(mid, PlanJobs(c, last).value, c.now).value.0.rows[x], c, last, last.actions);
  }

  lemma PlanGrowsTable(mid: O.Table, c: Context, plan: Plan)
    requires O.TableOk(mid) && PlanJobs(c, plan).Some? && O.RunJobs(mid, PlanJobs(c, plan).value, c.now).Ok?
    ensures O.TableOk(O.RunJobs(mid, PlanJobs(c, plan).value, c.now).value.0)
    ensures O.Grown(mid, O.RunJobs(mid, PlanJobs(c, plan).value, c.now).value.0)
  {
    PlanJobsOk(c, plan);
    S.RunJobsOk(mid, PlanJobs(c, plan).value, c.now, S.NoKeys);
  }

  /** Processing an event leaves every row of the outbox as it was, and each row it adds is, column by
      column, the row of one of its actions. */
  lemma {:induction false} EventRows(db: Db, c: Context, plans: seq<Plan>)
    requires O.TableOk(db.outbox) && RunPlans(db, c, plans).Some?
    ensures AddedByPlans(db, RunPlans(db, c, plans).value, c, plans)
  {
    if plans != [] {
      var front, last := plans[..|plans| - 1], plans[|plans| - 1];
      EventRows(db, c, front);
      var mid, end := RunPlans(db, c, front).value, RunPlans(db, c, plans).value;
      PlanGrowsTable(mid.outbox, c, last);
      forall x | |db.outbox.rows| <= x < |end.outbox.rows| ensures MadeByPlan(end.outbox.rows[x], c, plans) {
        if x < |mid.outbox.rows| {
          assert end.outbox.rows[x] == mid.outbox.rows[x];
          MadeByMore(end.outbox.rows[x], c, plans);
        } else {
          LastPlanRow(mid.outbox, c, plans, x);
        }
      }
    }
  }

  // ---------------------------------------------------------------- every link names a row of its action

  /** The row stands for row `u` of the action: it carries its key, or it is its own. */
  ghost predicate Concerns(row: O.Row, c: Context, plan: Plan, a: Action, u: nat) {
    match a.dispatch
    case Direct(_) =>
      O.Carries(row, plan.projectId, a.dedupe) || row.producer == K.RuleActionText(c.inboxId, plan.ruleId, a.actionId)
    case Messaging(prepared) => prepared.Some? && O.Carries(row, MESSAGING_OUTBOX_SCOPE, prepared.value.key)
    case Notify(notice) =>
      exists channel :: ChannelAt(c, a, u, channel)
        && O.Carries(row, N.OrEmpty(notice.projectId), a.dedupe + [':'] + channel.id)
  }

  lemma ActionCount(c: Context, plan: Plan, a: Action)
    requires ActionJobs(c, plan, a).Some?
    ensures |ActionJobs(c, plan, a).value| == Count(c, a)
  {
    if a.dispatch.Direct? { DirectJob(c, plan, a); }
    else if a.dispatch.Messaging? { MessageJob(c, plan, a); }
    else { NoticeJob(c, plan, a, 0); }
  }

  lemma {:induction false} ActionsCount(c: Context, plan: Plan, actions: seq<Action>)
    requires ActionsJobs(c, plan, actions).Some?
    ensures |ActionsJobs(c, plan, actions).value| == CountAll(c, actions)
  {
    if actions != [] {
      RS.ActionsSnoc(c, plan, actions);
      ActionsCount(c, plan, actions[..|actions| - 1]);
      ActionCount(c, plan, actions[|actions| - 1]);
    }
  }

  /** A row found for a job by key or identity. */
  predicate Serves(row: O.Row, job: O.Job) {
    (job.request.dedupe.Some? && O.Carries(row, job.request.project, job.request.dedupe.value))
    || job.producer == Some(row.producer)
  }

  lemma ServesKey(row: O.Row, job: O.Job, project: string, key: string)
    requires O.Coherent(row) && Serves(row, job)
    requires job.request.project == project && job.request.dedupe == Some(key)
    requires job.producer.Some? ==> job.producer.value == K.DedupeText(project, key)
    ensures O.Carries(row, project, key)
  {
  }

  lemma ServesMessage(row: O.Row, c: Context, plan: Plan, a: Action)
    requires a.dispatch.Messaging? && ActionJobs(c, plan, a).Some? && |ActionJobs(c, plan, a).value| == 1
    requires O.Coherent(row) && Serves(row, ActionJobs(c, plan, a).value[0])
    ensures Concerns(row, c, plan, a, 0)
  {
    MessageJob(c, plan, a);
    var job, key := ActionJobs(c, plan, a).value[0], a.dispatch.prepared.value.key;
    DedupeIdentity(job.request.project, key);
    ServesKey(row, job, job.request.project, key);
  }

  lemma ServesNotice(row: O.Row, c: Context, plan: Plan, a: Action, u: nat)
    requires a.dispatch.Notify? && ActionJobs(c, plan, a).Some? && u < |ActionJobs(c, plan, a).value|
    requires O.Coherent(row) && Serves(row, ActionJobs(c, plan, a).value[u])
    ensures Concerns(row, c, plan, a, u)
  {
    NoticeJob(c, plan, a, u);
    var channel :| ChannelAt(c, a, u, channel)
              && ActionJobs(c, plan, a).value[u]
                 == N.Delivery(N.NormalOf(a.dispatch.notice), channel, Some(a.dedupe), c.env.nonce(u), c.env.rendered,
                               DueAt(c, a));
    DeliveryJob(N.NormalOf(a.dispatch.notice), channel, a.dedupe, c.env, c.env.nonce(u), DueAt(c, a));
    ServesKey(row, ActionJobs(c, plan, a).value[u], N.OrEmpty(a.dispatch.notice.projectId),
              a.dedupe + [':'] + channel.id);
  }

  lemma ServesAction(row: O.Row, c: Context, plan: Plan, a: Action, u: nat)
    requires ActionJobs(c, plan, a).Some? && u < |ActionJobs(c, plan, a).value|
    requires O.Coherent(row) && Serves(row, ActionJobs(c, plan, a).value[u])
    ensures Concerns(row, c, plan, a, u)
  {
    ActionCount(c, plan, a);
    if a.dispatch.Direct? {
      DirectJob(c, plan, a);
    } else if a.dispatch.Messaging? {
      ServesMessage(row, c, plan, a);
    } else {
      ServesNotice(row, c, plan, a, u);
    }
  }

  ghost predicate NamedServing(t: O.Table, id: nat, job: O.Job) {
    exists r :: 0 <= r < |t.rows| && t.rows[r].id == id && Serves(t.rows[r], job)
  }

  lemma NamedLater(a: O.Table, b: O.Table, id: nat, job: O.Job)
    requires O.Grown(a, b) && NamedServing(a, id, job)
    ensures NamedServing(b, id, job)
  {
    var r :| 0 <= r < |a.rows| && a.rows[r].id == id && Serves(a.rows[r], job);
    assert b.rows[r] == a.rows[r];
  }

  lemma LastServes(mid: O.Table, job: O.Job, now: nat)
    requires O.TableOk(mid) && O.JobOk(job) && O.RunJob(mid, job, now).Ok?
    ensures O.Grown(mid, O.RunJob(mid, job, now).value.0)
    ensures NamedServing(O.RunJob(mid, job, now).value.0, O.RunJob(mid, job, now).value.1, job)
  {
    O.RunJobOk(mid, job, now);
    O.RunJobAnswers(mid, job, now);
  }

  lemma JobsSplit(t: O.Table, jobs: seq<O.Job>, now: nat)
    requires jobs != [] && O.RunJobs(t, jobs, now).Ok?
    ensures var front, last := jobs[..|jobs| - 1], jobs[|jobs| - 1];
            && O.RunJobs(t, front, now).Ok?
            && var (mid, ids) := O.RunJobs(t, front, now).value;
               && O.RunJob(mid, last, now).Ok?
               && O.RunJobs(t, jobs, now).value
                  == (O.RunJob(mid, last, now).value.0, ids + [O.RunJob(mid, last, now).value.1])
  {
  }

  /** Every id a transaction returns names a row that serves the job at its place. */
  lemma {:induction false} IdsServe(t: O.Table, jobs: seq<O.Job>, now: nat, x: nat)
    requires O.TableOk(t) && S.JobsOk(jobs, S.NoKeys) && O.RunJobs(t, jobs, now).Ok? && x < |jobs|
    ensures |O.RunJobs(t, jobs, now).value.1| == |jobs|
    ensures NamedServing(O.RunJobs(t, jobs, now).value.0, O.RunJobs(t, jobs, now).value.1[x], jobs[x])
  {
    var front, last := jobs[..|jobs| - 1], jobs[|jobs| - 1];
    JobsSplit(t, jobs, now);
    RS.RunJobsCount(t, front, now);
    S.RunJobsOk(t, front, now, S.NoKeys);
    var mid := O.RunJobs(t, front, now).value.0;
    LastServes(mid, last, now);
    if x < |front| {
      IdsServe(t, front, now, x);
      NamedLater(mid, O.RunJobs(t, jobs, now).value.0, O.RunJobs(t, jobs, now).value.1[x], jobs[x]);
    }
  }

  lemma {:induction false} OutboxGrows(db: Db, c: Context, plans: seq<Plan>, k: nat)
    requires O.TableOk(db.outbox) && RunPlans(db, c, plans).Some? && k <= |plans|
    ensures RunPlans(db, c, plans[..k]).Some?
    ensures O.TableOk(RunPlans(db, c, plans).value.outbox) && O.TableOk(RunPlans(db, c, plans[..k]).value.outbox)
    ensures O.Grown(RunPlans(db, c, plans[..k]).value.outbox, RunPlans(db, c, plans).value.outbox)
  {
    EventRows(db, c, plans);
    if k == |plans| {
      assert plans[..k] == plans;
    } else {
      var front, last := plans[..|plans| - 1], plans[|plans| - 1];
      assert front[..k] == plans[..k];
      OutboxGrows(db, c, front, k);
      PlanJobsOk(c, last);
      S.RunJobsOk(RunPlans(db, c, front).value.outbox, PlanJobs(c, last).value, c.now, S.NoKeys);
    }
  }

  ghost predicate LinkNames(t: O.Table, link: nat, c: Context, plan: Plan, a: Action, u: nat) {
    exists r :: 0 <= r < |t.rows| && t.rows[r].id == link && Concerns(t.rows[r], c, plan, a, u)
  }

  lemma NamesConcerned(t: O.Table, id: nat, c: Context, plan: Plan, a: Action, u: nat, job: O.Job)
    requires O.TableOk(t) && ActionJobs(c, plan, a).Some? && u < |ActionJobs(c, plan, a).value|
    requires job == ActionJobs(c, plan, a).value[u] && NamedServing(t, id, job)
    ensures LinkNames(t, id, c, plan, a, u)
  {
    var r :| 0 <= r < |t.rows| && t.rows[r].id == id && Serves(t.rows[r], job);
    ServesAction(t.rows[r], c, plan, a, u);
  }

  lemma PlaceCounts(c: Context, plan: Plan, actions: seq<Action>, i: nat)
    requires ActionsJobs(c, plan, actions).Some? && i < |actions|
    ensures |ActionsJobs(c, plan, actions).value| == CountAll(c, actions)
    ensures ActionsJobs(c, plan, actions[..i]).Some? && ActionJobs(c, plan, actions[i]).Some?
    ensures |ActionsJobs(c, plan, actions[..i]).value| == CountAll(c, actions[..i])
    ensures |ActionJobs(c, plan, actions[i]).value| == Count(c, actions[i])
  {
    RS.ActionSlice(c, plan, actions, i);
    ActionsCount(c, plan, actions);
    ActionsCount(c, plan, actions[..i]);
    ActionCount(c, plan, actions[i]);
  }

  lemma IdAt(before: O.Table, after: O.Table, ids: seq<nat>, end: O.Table, jobs: seq<O.Job>, now: nat, x: nat)
    requires O.TableOk(before) && S.JobsOk(jobs, S.NoKeys) && x < |jobs|
    requires O.RunJobs(before, jobs, now) == Ok((after, ids)) && O.Grown(after, end)
    ensures |ids| == |jobs| && NamedServing(end, ids[x], jobs[x])
  {
    IdsServe(before, jobs, now, x);
    NamedLater(after, end, ids[x], jobs[x]);
  }

  /** Link `x` of plan `k` in the table at the end of the event. */
  lemma PlanLink(db: Db, c: Context, plans: seq<Plan>, k: nat, x: nat)
    requires O.TableOk(db.outbox) && RunPlans(db, c, plans).Some? && k < |plans|
    ensures |RunPlans(db, c, plans).value.matches| == |db.matches| + |plans| && PlanJobs(c, plans[k]).Some?
    ensures O.TableOk(RunPlans(db, c, plans).value.outbox)
    ensures var links, jobs := RunPlans(db, c, plans).value.matches[|db.matches| + k].links,
                               PlanJobs(c, plans[k]).value;
            |links| == |jobs|
            && (x < |jobs| ==> NamedServing(RunPlans(db, c, plans).value.outbox, links[x], jobs[x]))
  {
    R.SuccessTraces(db, c, plans, k);
    PlanGrows(db, c, plans, k);
    PlanJobsOk(c, plans[k]);
    var before, jobs := RunPlans(db, c, plans[..k]).value.outbox, PlanJobs(c, plans[k]).value;
    var (after, ids) := O.RunJobs(before, jobs, c.now).value;
    RS.RunJobsCount(before, jobs, c.now);
    if x < |jobs| { IdAt(before, after, ids, RunPlans(db, c, plans).value.outbox, jobs, c.now, x); }
  }

  lemma PlanJobsOfActions(c: Context, plan: Plan)
    requires PlanJobs(c, plan).Some?
    ensures PlanJobs(c, plan) == ActionsJobs(c, plan, plan.actions)
  {
  }

  /** Job `u` of action `i` among the jobs of its plan. */
  lemma JobPlace(c: Context, plan: Plan, i: nat, u: nat, x: nat) returns (job: O.Job)
    requires PlanJobs(c, plan).Some? && i < |plan.actions|
    requires ActionsJobs(c, plan, plan.actions[..i]).Some?
    requires x == |ActionsJobs(c, plan, plan.actions[..i]).value| + u
    requires ActionJobs(c, plan, plan.actions[i]).Some? && u < |ActionJobs(c, plan, plan.actions[i]).value|
    ensures job == ActionJobs(c, plan, plan.actions[i]).value[u]
    ensures x < |PlanJobs(c, plan).value| && PlanJobs(c, plan).value[x] == job
  {
    PlanJobsOfActions(c, plan);
    job := ActionsAt(c, plan, plan.actions, i, u, x);
  }

  lemma ActionsAt(c: Context, plan: Plan, actions: seq<Action>, i: nat, u: nat, x: nat) returns (job: O.Job)
    requires i < |actions| && ActionsJobs(c, plan, actions).Some? && ActionsJobs(c, plan, actions[..i]).Some?
    requires ActionJobs(c, plan, actions[i]).Some? && u < |ActionJobs(c, plan, actions[i]).value|
    requires x == |ActionsJobs(c, plan, actions[..i]).value| + u
    ensures job == ActionJobs(c, plan, actions[i]).value[u]
    ensures x < |ActionsJobs(c, plan, actions).value| && ActionsJobs(c, plan, actions).value[x] == job
  {
    var y := RS.JobAt(c, plan, actions, i, u);
    job := ActionsJobs(c, plan, actions).value[y];
  }

  lemma PlanGrows(db: Db, c: Context, plans: seq<Plan>, k: nat)
    requires O.TableOk(db.outbox) && RunPlans(db, c, plans).Some? && k < |plans|
    requires RunPlans(db, c, plans[..k]).Some? && PlanJobs(c, plans[k]).Some?
    requires O.RunJobs(RunPlans(db, c, plans[..k]).value.outbox, PlanJobs(c, plans[k]).value, c.now).Ok?
    ensures O.TableOk(RunPlans(db, c, plans[..k]).value.outbox) && O.TableOk(RunPlans(db, c, plans).value.outbox)
    ensures O.Grown(O.RunJobs(RunPlans(db, c, plans[..k]).value.outbox, PlanJobs(c, plans[k]).value, c.now).value.0,
                    RunPlans(db, c, plans).value.outbox)
  {
    OutboxGrows(db, c, plans, k);
    OutboxGrows(db, c, plans, k + 1);
    assert plans[..k + 1][..k] == plans[..k];
  }

  lemma LinkCount(c: Context, plan: Plan, i: nat, u: nat)
    requires i < |plan.actions| && u < Count(c, plan.actions[i])
    ensures PlanJobs(c, plan).Some? ==>
              && |PlanJobs(c, plan).value| == CountAll(c, plan.actions)
              && CountAll(c, plan.actions[..i]) + u < CountAll(c, plan.actions)
  {
    if PlanJobs(c, plan).Some? {
      PlaceCounts(c, plan, plan.actions, i);
      RS.ActionSlice(c, plan, plan.actions, i);
    }
  }

  lemma LinkJob(c: Context, plan: Plan, i: nat, u: nat, x: nat) returns (job: O.Job)
    requires PlanJobs(c, plan).Some? && i < |plan.actions| && u < Count(c, plan.actions[i])
    requires x == CountAll(c, plan.actions[..i]) + u
    ensures ActionJobs(c, plan, plan.actions[i]).Some? && u < |ActionJobs(c, plan, plan.actions[i]).value|
    ensures job == ActionJobs(c, plan, plan.actions[i]).value[u]
    ensures x < |PlanJobs(c, plan).value| && PlanJobs(c, plan).value[x] == job
  {
    PlaceCounts(c, plan, plan.actions, i);
    job := JobPlace(c, plan, i, u, x);
  }

  lemma LinkIs(t: O.Table, links: seq<nat>, c: Context, plan: Plan, i: nat, u: nat, x: nat, job: O.Job)
    requires O.TableOk(t) && i < |plan.actions| && x < |links| && NamedServing(t, links[x], job)
    requires ActionJobs(c, plan, plan.actions[i]).Some? && u < |ActionJobs(c, plan, plan.actions[i]).value|
    requires job == ActionJobs(c, plan, plan.actions[i]).value[u]
    ensures LinkNames(t, links[x], c, plan, plan.actions[i], u)
  {
    NamesConcerned(t, links[x], c, plan, plan.actions[i], u, job);
  }

  /** The trace has as many links as its actions ask for rows, those of each action behind those of the
      actions before it, and link `u` of action `i` names a row that stands for that row of that action. */
  ghost predicate LinksAction(t: O.Table, trace: Match, c: Context, plan: Plan, i: nat, u: nat)
    requires i < |plan.actions|
  {
    var x := CountAll(c, plan.actions[..i]) + u;
    |trace.links| == CountAll(c, plan.actions) && x < |trace.links|
    && LinkNames(t, trace.links[x], c, plan, plan.actions[i], u)
  }

  lemma TraceLinks(t: O.Table, trace: Match, c: Context, plan: Plan, i: nat, u: nat, x: nat)
    requires O.TableOk(t) && PlanJobs(c, plan).Some? && i < |plan.actions| && u < Count(c, plan.actions[i])
    requires x == CountAll(c, plan.actions[..i]) + u && |trace.links| == |PlanJobs(c, plan).value|
    requires x < |trace.links| ==> NamedServing(t, trace.links[x], PlanJobs(c, plan).value[x])
    ensures LinksAction(t, trace, c, plan, i, u)
  {
    LinkCount(c, plan, i, u);
    var job := LinkJob(c, plan, i, u, x);
    LinkIs(t, trace.links, c, plan, i, u, x, job);
  }

  /** The links of a trace are those of its actions one after the other, and each names a row that stands
      for what its action asked. */
  lemma Links(db: Db, c: Context, plans: seq<Plan>, k: nat, i: nat, u: nat)
    requires O.TableOk(db.outbox) && RunPlans(db, c, plans).Some?
    requires k < |plans| && i < |plans[k].actions| && u < Count(c, plans[k].actions[i])
    ensures var end := RunPlans(db, c, plans).value;
            && |end.matches| == |db.matches| + |plans|
            && LinksAction(end.outbox, end.matches[|db.matches| + k], c, plans[k], i, u)
  {
    var x := CountAll(c, plans[k].actions[..i]) + u;
    PlanLink(db, c, plans, k, x);
    var end := RunPlans(db, c, plans).value;
    TraceLinks(end.outbox, end.matches[|db.matches| + k], c, plans[k], i, u, x);
  }
}
