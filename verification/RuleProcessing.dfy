/** Processing one inbox event: every plan's actions, its trace and the inbox status commit together. */
module RuleProcessing {
  import opened Model
  import opened Text
  import opened Order
  import O = Outbox
  import S = SendOnce
  import N = Notifications
  import K = ProducerKeys

  /** A `rule_match` row and its `rule_match_action` rows in insertion order. */
  datatype Match = Match(ruleId: string, ruleName: string, inboxId: nat, projectId: string, actionCount: nat,
      links: seq<nat>)

  datatype Db = Db(outbox: O.Table, matches: seq<Match>, inbox: map<nat, InboxStatus>)

  /** A message after `prepare_send`, which is not part of this model; none when it refused. */
  datatype Message = Message(summary: string, payload: string, key: string)

  datatype Dispatch = Direct(payload: string) | Notify(notice: N.Notice) | Messaging(prepared: Option<Message>)

  datatype Action = Action(actionId: string, kind: K.ActionKind, summary: string, dedupe: string, delay: nat,
      dispatch: Dispatch)

  datatype Plan = Plan(ruleId: string, ruleName: string, projectId: string, actions: seq<Action>, errors: seq<string>)

  datatype Context = Context(settings: seq<N.Channel>, env: N.Env, inboxId: nat, now: nat)

  const MESSAGING_OUTBOX_SCOPE := "__messaging__"

  // ---------------------------------------------------------------- from plans to outbox jobs

  /** The jobs of one action; none when the action is refused. */
  function ActionJobs(c: Context, plan: Plan, a: Action): Option<seq<O.Job>> {
    var at := N.SaturatingAdd(c.now, a.delay);
    match a.dispatch
    case Direct(payload) =>
      var producer := K.ForRuleAction(c.inboxId, plan.ruleId, a.actionId);
      if c.inboxId == 0 || producer.None? then None
      else Some([O.Job(O.Request(plan.projectId, a.kind, a.summary, payload, Some(a.dedupe), at), producer, false)])
    case Notify(notice) => N.NotificationJobs(c.settings, notice, Some(a.dedupe), c.env, at)
    case Messaging(prepared) =>
      if prepared.None? then None
      else
        var m := prepared.value;
        var q := O.Request(MESSAGING_OUTBOX_SCOPE, K.MessagingSend, m.summary, m.payload, Some(m.key), at);
        Some([O.Job(q, O.DefaultProducer(q, ""), true)])
  }

  function ActionsJobs(c: Context, plan: Plan, actions: seq<Action>): Option<seq<O.Job>> {
    if actions == [] then Some([])
    else
      var before, last := ActionsJobs(c, plan, actions[..|actions| - 1]), ActionJobs(c, plan, actions[|actions| - 1]);
      if before.None? || last.None? then None else Some(before.value + last.value)
  }

  function PlanJobs(c: Context, plan: Plan): Option<seq<O.Job>> {
    if plan.errors != [] then None else ActionsJobs(c, plan, plan.actions)
  }

  function Trace(c: Context, plan: Plan, ids: seq<nat>): Match {
    Match(plan.ruleId, plan.ruleName, c.inboxId, plan.projectId, |ids|, ids)
  }

  /** What a trace records: rule and project of the plan, the event, and every id its actions got, in order. */
  predicate Traces(m: Match, c: Context, plan: Plan, ids: seq<nat>) {
    && m.ruleId == plan.ruleId && m.ruleName == plan.ruleName && m.projectId == plan.projectId
    && m.inboxId == c.inboxId && m.actionCount == |ids|
    && |m.links| == |ids| && forall i :: 0 <= i < |ids| ==> m.links[i] == ids[i]
  }

  /** One plan: its actions and its trace. `PRIMARY KEY(rule_match_id, action_outbox_id)` refuses a
      trace that links one action twice. */
  function RunPlan(db: Db, c: Context, plan: Plan): Option<Db> {
    var jobs := PlanJobs(c, plan);
    if jobs.None? || O.RunJobs(db.outbox, jobs.value, c.now).Err? then None
    else
      var (outbox, ids) := O.RunJobs(db.outbox, jobs.value, c.now).value;
      if !Distinct(ids) then None else Some(db.(outbox := outbox, matches := db.matches + [Trace(c, plan, ids)]))
  }

  function RunPlans(db: Db, c: Context, plans: seq<Plan>): Option<Db> {
    if plans == [] then Some(db)
    else
      var mid := RunPlans(db, c, plans[..|plans| - 1]);
      if mid.None? then None else RunPlan(mid.value, c, plans[|plans| - 1])
  }

  predicate IsReceived(db: Db, id: nat) {
    id in db.inbox && db.inbox[id] == Received
  }

  /** What `process_rule_event` commits; none when it fails. */
  function Processing(db: Db, c: Context, plans: seq<Plan>): Option<Db> {
    var end := RunPlans(db, c, plans);
    if end.None? || !IsReceived(db, c.inboxId) then None
    else Some(end.value.(inbox := end.value.inbox[c.inboxId := Processed]))
  }

  // ---------------------------------------------------------------- the transaction

  lemma {:induction false} RunJobsAppend(t: O.Table, a: seq<O.Job>, b: seq<O.Job>, now: nat)
    ensures O.RunJobs(t, a + b, now) ==
      match O.RunJobs(t, a, now)
      case Err(e) => Err(e)
      case Ok((mid, ids)) =>
        match O.RunJobs(mid, b, now)
        case Err(e) => Err(e)
        case Ok((end, more)) => Ok((end, ids + more))
  {
    if b == [] {
      assert a + b == a;
      if O.RunJobs(t, a, now).Ok? { assert O.RunJobs(t, a, now).value.1 + [] == O.RunJobs(t, a, now).value.1; }
    } else {
      var front := b[..|b| - 1];
      assert (a + b)[..|a + b| - 1] == a + front;
      RunJobsAppend(t, a, front, now);
      if O.RunJobs(t, a, now).Ok? && O.RunJobs(O.RunJobs(t, a, now).value.0, b, now).Ok? {
        var (mid, ids) := O.RunJobs(t, a, now).value;
        var (near, more) := O.RunJobs(mid, front, now).value;
        var id := O.RunJob(near, b[|b| - 1], now).value.1;
        assert (ids + more) + [id] == ids + (more + [id]);
      }
    }
  }

  lemma {:induction false} RefusedStays(c: Context, plan: Plan, actions: seq<Action>, n: nat)
    requires n <= |actions| && ActionsJobs(c, plan, actions[..n]).None?
    ensures ActionsJobs(c, plan, actions).None?
  {
    if n == |actions| {
      assert actions[..n] == actions;
    } else {
      assert actions[..|actions| - 1][..n] == actions[..n];
      RefusedStays(c, plan, actions[..|actions| - 1], n);
    }
  }

  lemma {:induction false} PrefixJobs(c: Context, plan: Plan, actions: seq<Action>, n: nat, t: O.Table)
    requires n <= |actions| && ActionsJobs(c, plan, actions).Some?
    ensures ActionsJobs(c, plan, actions[..n]).Some?
    ensures O.RunJobs(t, ActionsJobs(c, plan, actions[..n]).value, c.now).Err? ==>
              O.RunJobs(t, ActionsJobs(c, plan, actions).value, c.now).Err?
  {
    if n == |actions| {
      assert actions[..n] == actions;
    } else {
      var front := actions[..|actions| - 1];
      assert front[..n] == actions[..n];
      PrefixJobs(c, plan, front, n, t);
      RunJobsAppend(t, ActionsJobs(c, plan, front).value, ActionJobs(c, plan, actions[|actions| - 1]).value, c.now);
    }
  }

  lemma {:induction false} FailedStays(db: Db, c: Context, plans: seq<Plan>, n: nat)
    requires n <= |plans| && RunPlans(db, c, plans[..n]).None?
    ensures RunPlans(db, c, plans).None?
  {
    if n == |plans| {
      assert plans[..n] == plans;
    } else {
      assert plans[..|plans| - 1][..n] == plans[..n];
      FailedStays(db, c, plans[..|plans| - 1], n);
    }
  }

  class Database {
    const outbox: O.Store
    var matches: seq<Match>
    var inbox: map<nat, InboxStatus>

    ghost function Now(): Db
      reads this, outbox
    {
      Db(outbox.Now(), matches, inbox)
    }

    constructor (outbox: O.Store)
      ensures this.outbox == outbox && matches == [] && inbox == map[]
    {
      this.outbox, matches, inbox := outbox, [], map[];
    }

    method RunAction(c: Context, plan: Plan, a: Action) returns (ids: Option<seq<nat>>)
      modifies outbox
      ensures var jobs := ActionJobs(c, plan, a);
        && (ids.Some? <==> jobs.Some? && O.RunJobs(old(outbox.Now()), jobs.value, c.now).Ok?)
        && (ids.Some? ==> O.RunJobs(old(outbox.Now()), jobs.value, c.now) == Ok((outbox.Now(), ids.value)))
    {
      var at := N.SaturatingAdd(c.now, a.delay);
      var jobs: seq<O.Job> := [];
      match a.dispatch {
        case Direct(payload) =>
          if c.inboxId == 0 { return None; }
          var producer := K.ForRuleAction(c.inboxId, plan.ruleId, a.actionId);
          if producer.None? { return None; }
          jobs := [O.Job(O.Request(plan.projectId, a.kind, a.summary, payload, Some(a.dedupe), at), producer, false)];
        case Notify(notice) =>
          var prepared := N.PrepareNotification(c.settings, notice, Some(a.dedupe), c.env, at);
          if prepared.Err? { return None; }
          jobs := prepared.value;
        case Messaging(prepared) =>
          if prepared.None? { return None; }
          var m := prepared.value;
          var q := O.Request(MESSAGING_OUTBOX_SCOPE, K.MessagingSend, m.summary, m.payload, Some(m.key), at);
          jobs := [O.Job(q, O.DefaultProducer(q, ""), true)];
      }
      var r := outbox.RunAll(jobs, c.now);
      ids := if r.Ok? then Some(r.value) else None;
    }

    /** `insert_match_in_tx` */
    method InsertMatch(c: Context, plan: Plan, ids: seq<nat>) returns (ok: bool)
      modifies this`matches
      ensures ok <==> Distinct(ids)
      ensures ok ==> matches == old(matches) + [Trace(c, plan, ids)]
      ensures ok ==> |matches| == |old(matches)| + 1 && Traces(matches[|old(matches)|], c, plan, ids)
    {
      var links: seq<nat> := [];
      for i := 0 to |ids|
        invariant links == ids[..i] && Distinct(links)
      {
        if ids[i] in links {
          var j :| 0 <= j < i && links[j] == ids[i];
          assert ids[j] == ids[i];
          return false;
        }
        links := links + [ids[i]];
      }
      assert links == ids;
      matches := matches + [Match(plan.ruleId, plan.ruleName, c.inboxId, plan.projectId, |ids|, links)];
      ok := true;
    }

    method RunActions(c: Context, plan: Plan) returns (ids: Option<seq<nat>>)
      requires plan.errors == []
      modifies outbox
      ensures var jobs := PlanJobs(c, plan);
        && (ids.Some? <==> jobs.Some? && O.RunJobs(old(outbox.Now()), jobs.value, c.now).Ok?)
        && (ids.Some? ==> O.RunJobs(old(outbox.Now()), jobs.value, c.now) == Ok((outbox.Now(), ids.value)))
    {
      var all: seq<nat> := [];
      ghost var t := outbox.Now();
      for i := 0 to |plan.actions|
        invariant Ran(c, plan, i, t, outbox.Now(), all)
      {
        ghost var before := outbox.Now();
        var more := RunAction(c, plan, plan.actions[i]);
        RanStep(c, plan, i, t, before, all);
        if more.None? {
          ActionFails(c, plan, i, t);
          return None;
        }
        all := all + more.value;
      }
      assert plan.actions[..|plan.actions|] == plan.actions;
      ids := Some(all);
    }

    method RunOne(c: Context, plan: Plan) returns (ok: bool)
      modifies this`matches, outbox
      ensures ok <==> RunPlan(old(Now()), c, plan).Some?
      ensures ok ==> Now() == RunPlan(old(Now()), c, plan).value
    {
      if plan.errors != [] { return false; }
      var ids := RunActions(c, plan);
      if ids.None? { return false; }
      ok := InsertMatch(c, plan, ids.value);
    }

    /** `process_rule_event`: on success the whole new state, on failure nothing at all. */
    method ProcessRuleEvent(c: Context, plans: seq<Plan>) returns (ok: bool)
      modifies this, outbox
      ensures ok <==> Processing(old(Now()), c, plans).Some?
      ensures Now() == if ok then Processing(old(Now()), c, plans).value else old(Now())
    {
      var savedRows, savedNext, savedMatches := outbox.rows, outbox.nextId, matches;
      ghost var before := Now();
      ok := true;
      var i := 0;
      while ok && i < |plans|
        invariant i <= |plans| && inbox == old(inbox)
        invariant ok ==> RunPlans(before, c, plans[..i]) == Some(Now())
        invariant !ok ==> RunPlans(before, c, plans).None?
        decreases |plans| - i, if ok then 1 else 0
      {
        assert plans[..i + 1][..i] == plans[..i];
        ok := RunOne(c, plans[i]);
        if ok { i := i + 1; } else { FailedStays(before, c, plans, i + 1); }
      }
      if ok {
        assert plans[..|plans|] == plans;
        ok := c.inboxId in inbox && inbox[c.inboxId] == Received;
      }
      if ok {
        inbox := inbox[c.inboxId := Processed];
      } else {
        outbox.rows, outbox.nextId, matches := savedRows, savedNext, savedMatches;
      }
    }
  }

  /** The first `i` actions of a plan took the outbox from `t` to `now` and got these ids. */
  ghost predicate Ran(c: Context, plan: Plan, i: nat, t: O.Table, now: O.Table, ids: seq<nat>) {
    i <= |plan.actions| && ActionsJobs(c, plan, plan.actions[..i]).Some?
    && O.RunJobs(t, ActionsJobs(c, plan, plan.actions[..i]).value, c.now) == Ok((now, ids))
  }

  lemma RanStep(c: Context, plan: Plan, i: nat, t: O.Table, mid: O.Table, ids: seq<nat>)
    requires i < |plan.actions| && Ran(c, plan, i, t, mid, ids)
    ensures ActionJobs(c, plan, plan.actions[i]).None? ==> ActionsJobs(c, plan, plan.actions[..i + 1]).None?
    ensures ActionJobs(c, plan, plan.actions[i]).Some? ==> ActionsJobs(c, plan, plan.actions[..i + 1]).Some?
    ensures ActionJobs(c, plan, plan.actions[i]).Some? ==>
              match O.RunJobs(mid, ActionJobs(c, plan, plan.actions[i]).value, c.now)
              case Err(_) => O.RunJobs(t, ActionsJobs(c, plan, plan.actions[..i + 1]).value, c.now).Err?
              case Ok((end, more)) => Ran(c, plan, i + 1, t, end, ids + more)
  {
    assert plan.actions[..i + 1][..i] == plan.actions[..i];
    if ActionJobs(c, plan, plan.actions[i]).Some? {
      RunJobsAppend(t, ActionsJobs(c, plan, plan.actions[..i]).value, ActionJobs(c, plan, plan.actions[i]).value,
          c.now);
    }
  }

  lemma ActionFails(c: Context, plan: Plan, i: nat, t: O.Table)
    requires i < |plan.actions| && plan.errors == []
    requires ActionsJobs(c, plan, plan.actions[..i + 1]).None?
             || O.RunJobs(t, ActionsJobs(c, plan, plan.actions[..i + 1]).value, c.now).Err?
    ensures PlanJobs(c, plan).None? || O.RunJobs(t, PlanJobs(c, plan).value, c.now).Err?
  {
    if ActionsJobs(c, plan, plan.actions[..i + 1]).None? {
      RefusedStays(c, plan, plan.actions, i + 1);
    } else if PlanJobs(c, plan).Some? {
      PrefixJobs(c, plan, plan.actions, i + 1, t);
    }
  }
}
