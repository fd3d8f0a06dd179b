/** User-authored notifications: a request becomes one outbox job per selected channel. */
module Notifications {
  import opened Text
  import opened Order
  import O = Outbox
  import S = SendOnce
  import K = ProducerKeys

  const MAX_TITLE_CHARS: nat := 200
  const MAX_BODY_CHARS: nat := 4_000
  const MAX_URL_CHARS: nat := 2_048
  const MAX_PROJECT_ID_CHARS: nat := 128
  const MAX_CHANNEL_IDS: nat := 32
  const MAX_CHANNEL_ID_CHARS: nat := 128

  datatype Channel = Channel(id: string, name: string, enabled: bool)

  datatype Error = Empty | TooLong | NothingToSay | BadUrl | TooManyChannels | RepeatedChannel | UnknownChannel
                 | DisabledChannel | NoChannel | Store(error: O.Error)

  datatype Notice = Notice(title: string, body: Option<string>, url: Option<string>, projectId: Option<string>,
                           channelIds: seq<string>)

  datatype Normal = Normal(title: string, body: string, url: string, projectId: string, channelIds: seq<string>)

  // ---------------------------------------------------------------- normalizing

  function TrimRequired(value: string, max: nat): Result<string, Error> {
    var t := Trim(value, RustSpace);
    if t == "" then Err(Empty) else if |t| > max then Err(TooLong) else Ok(t)
  }

  /** `trim_optional(..)?.unwrap_or_default()` */
  function TrimOptional(value: Option<string>, max: nat): Result<string, Error> {
    match value
    case None => Ok("")
    case Some(v) => if |Trim(v, RustSpace)| > max then Err(TooLong) else Ok(Trim(v, RustSpace))
  }

  function Trims(raw: seq<string>): (r: seq<string>)
    ensures |r| == |raw| && forall i :: 0 <= i < |raw| ==> r[i] == Trim(raw[i], RustSpace)
  {
    seq(|raw|, i requires 0 <= i < |raw| => Trim(raw[i], RustSpace))
  }

  /** None blank or long, none repeated. */
  predicate GoodIds(ids: seq<string>) {
    Distinct(ids) && forall i :: 0 <= i < |ids| ==> 0 < |ids[i]| <= MAX_CHANNEL_ID_CHARS
  }

  /** The ids that pass: at most 32, and good after trimming. */
  predicate GoodChannelIds(raw: seq<string>) {
    |raw| <= MAX_CHANNEL_IDS && GoodIds(Trims(raw))
  }

  function Elements(s: seq<string>): set<string> {
    set x | x in s
  }

  lemma ElementsStep(s: seq<string>, x: string)
    ensures Elements(s + [x]) == Elements(s) + {x}
  {
    assert forall y :: y in s + [x] <==> y in s || y == x;
  }

  lemma GoodStep(ids: seq<string>, x: string)
    requires GoodIds(ids)
    ensures GoodIds(ids + [x]) <==> 0 < |x| <= MAX_CHANNEL_ID_CHARS && x !in Elements(ids)
  {
    var more := ids + [x];
    assert more[|ids|] == x;
    if x in ids {
      var i :| 0 <= i < |ids| && ids[i] == x;
      assert more[i] == more[|ids|];
    }
  }

  lemma GoodPrefix(ids: seq<string>, front: seq<string>)
    requires front <= ids
    ensures GoodIds(ids) ==> GoodIds(front)
  {
  }

  lemma PrefixStep(ids: seq<string>, front: seq<string>)
    requires |front| < |ids| && front <= ids
    ensures front + [ids[|front|]] <= ids
  {
  }

  method CheckChannelId(raw: string, seen: set<string>) returns (r: Result<string, Error>)
    ensures var id := Trim(raw, RustSpace);
            (r.Ok? <==> 0 < |id| <= MAX_CHANNEL_ID_CHARS && id !in seen) && (r.Ok? ==> r.value == id)
  {
    r := TrimRequired(raw, MAX_CHANNEL_ID_CHARS);
    if r.Ok? && r.value in seen { r := Err(RepeatedChannel); }
  }

  method NormalizeChannelIds(raw: seq<string>) returns (r: Result<seq<string>, Error>)
    ensures r.Ok? <==> GoodChannelIds(raw)
    ensures r.Ok? ==> r.value == Trims(raw)
  {
    if |raw| > MAX_CHANNEL_IDS { return Err(TooManyChannels); }
    ghost var all := Trims(raw);
    r := CheckChannelIds(raw, all);
  }

  method CheckChannelIds(raw: seq<string>, ghost all: seq<string>) returns (r: Result<seq<string>, Error>)
    requires |all| == |raw| && forall i :: 0 <= i < |raw| ==> all[i] == Trim(raw[i], RustSpace)
    ensures r.Ok? <==> GoodIds(all)
    ensures r.Ok? ==> r.value == all
  {
    var seen: set<string> := {};
    var out: seq<string> := [];
    var i := 0;
    while i < |raw|
      invariant |out| == i <= |raw| && out <= all && seen == Elements(out) && GoodIds(out)
    {
      var id := CheckChannelId(raw[i], seen);
      PrefixStep(all, out);
      GoodStep(out, all[i]);
      GoodPrefix(all, out + [all[i]]);
      if id.Err? { return Err(id.error); }
      ElementsStep(out, id.value);
      seen := seen + {id.value};
      out := out + [id.value];
      i := i + 1;
    }
    r := Ok(out);
  }

  function IndexOfChannel(channels: seq<Channel>, id: string): nat {
    FirstIndex(channels, (x: Channel) => x.id == id)
  }

  function Enabled(channels: seq<Channel>): seq<Channel> {
    if channels == [] then []
    else
      var last := channels[|channels| - 1];
      Enabled(channels[..|channels| - 1]) + (if last.enabled then [last] else [])
  }

  predicate Selectable(channels: seq<Channel>, id: string) {
    var i := IndexOfChannel(channels, id);
    i < |channels| && channels[i].enabled
  }

  predicate CanSelect(settings: seq<Channel>, ids: seq<string>) {
    forall i :: 0 <= i < |ids| ==> Selectable(settings, ids[i])
  }

  function Chosen(settings: seq<Channel>, ids: seq<string>): (r: seq<Channel>)
    requires CanSelect(settings, ids)
    ensures ids != [] ==> |r| == |ids| && forall i :: 0 <= i < |ids| ==>
            r[i] in settings && r[i].id == ids[i] && r[i].enabled
  {
    if ids == [] then Enabled(settings)
    else seq(|ids|, i requires 0 <= i < |ids| => settings[IndexOfChannel(settings, ids[i])])
  }

  /** `selected_channels_from_settings`: every enabled channel, or exactly those asked for, in the
      order asked for; one unknown or disabled id refuses the whole request. */
  method SelectedChannels(settings: seq<Channel>, ids: seq<string>) returns (r: Result<seq<Channel>, Error>)
    ensures r.Ok? <==> CanSelect(settings, ids)
    ensures r.Ok? ==> r.value == Chosen(settings, ids)
  {
    if ids == [] { return Ok(Enabled(settings)); }
    var out: seq<Channel> := [];
    for i := 0 to |ids|
      invariant |out| == i && forall j :: 0 <= j < i ==> Selectable(settings, ids[j])
      invariant forall j :: 0 <= j < i ==> out[j] == settings[IndexOfChannel(settings, ids[j])]
    {
      var k := IndexOfChannel(settings, ids[i]);
      if k == |settings| {
        assert !Selectable(settings, ids[i]);
        return Err(UnknownChannel);
      }
      if !settings[k].enabled {
        assert !Selectable(settings, ids[i]);
        return Err(DisabledChannel);
      }
      out := out + [settings[k]];
    }
    assert out == Chosen(settings, ids);
    return Ok(out);
  }

  /** Every configured channel is offered once, in order, exactly when it is enabled. */
  lemma {:induction false} EnabledOnce(channels: seq<Channel>)
    requires forall i, j :: 0 <= i < j < |channels| ==> channels[i].id != channels[j].id
    ensures forall c :: c in Enabled(channels) <==> c in channels && c.enabled
    ensures forall i, j :: 0 <= i < j < |Enabled(channels)| ==> Enabled(channels)[i].id != Enabled(channels)[j].id
  {
    if channels != [] {
      var front, last := channels[..|channels| - 1], channels[|channels| - 1];
      assert channels == front + [last];
      EnabledOnce(front);
      forall i | 0 <= i < |Enabled(front)| ensures Enabled(front)[i].id != last.id {
        assert Enabled(front)[i] in front;
      }
    }
  }

  /** The places of the offered channels among the configured ones: those of the enabled, in order. */
  lemma {:induction false} EnabledInOrder(channels: seq<Channel>) returns (at: seq<nat>)
    ensures |at| == |Enabled(channels)|
    ensures forall k :: 0 <= k < |at| ==> at[k] < |channels| && channels[at[k]] == Enabled(channels)[k]
    ensures forall j, k :: 0 <= j < k < |at| ==> at[j] < at[k]
    ensures forall i :: 0 <= i < |channels| ==> (channels[i].enabled <==> i in at)
  {
    if channels == [] {
      at := [];
    } else {
      var front, last := channels[..|channels| - 1], channels[|channels| - 1];
      assert channels == front + [last];
      at := EnabledInOrder(front);
      assert forall k :: 0 <= k < |at| ==> at[k] in at && at[k] < |front|;
      if last.enabled { at := at + [|front|]; }
    }
  }

  // ---------------------------------------------------------------- delivery keys

  function DeliveryKey(prefix: string, channelId: string): string {
    prefix + [':'] + channelId
  }

  predicate EndsWith(s: string, end: string) {
    |end| <= |s| && s[|s| - |end|..] == end
  }

  /** Which channels some prefixes can confuse: exactly those where one id ends in a colon and the other. */
  lemma DeliveryKeysCollideIff(c: string, d: string)
    requires c != d
    ensures (exists p: string, q: string :: DeliveryKey(p, c) == DeliveryKey(q, d))
            <==> EndsWith(c, [':'] + d) || EndsWith(d, [':'] + c)
  {
    if p: string, q: string :| DeliveryKey(p, c) == DeliveryKey(q, d) {
      if |c| >= |d| { KeyTail(p, c, q, d); } else { KeyTail(q, d, p, c); }
    }
    if EndsWith(c, [':'] + d) { Colliding(c, d); }
    if EndsWith(d, [':'] + c) { Colliding(d, c); }
  }

  /** For example. */
  lemma CollidingDeliveries(p: string, c: string, d: string)
    ensures DeliveryKey(p, c + [':'] + d) == DeliveryKey(p + [':'] + c, d)
  {
    assert p + [':'] + (c + [':'] + d) == (p + [':'] + c) + [':'] + d;
  }

  lemma KeyTail(p: string, c: string, q: string, d: string)
    requires c != d && |c| >= |d| && DeliveryKey(p, c) == DeliveryKey(q, d)
    ensures EndsWith(c, [':'] + d)
  {
    var k := DeliveryKey(p, c);
    assert k[|k| - |c|..] == c && k[|k| - |d|..] == d;
    assert |c| == |d| ==> c == d;
    assert k == q + ([':'] + d);
    assert k[|k| - |d| - 1..] == [':'] + d;
    assert c[|c| - |d| - 1..] == k[|k| - |d| - 1..];
  }

  lemma Colliding(c: string, d: string)
    requires EndsWith(c, [':'] + d)
    ensures exists q: string :: DeliveryKey("", c) == DeliveryKey(q, d)
  {
    var q := [':'] + c[..|c| - |d| - 1];
    assert c == c[..|c| - |d| - 1] + ([':'] + d);
    assert DeliveryKey("", c) == [':'] + c;
    assert DeliveryKey("", c) == DeliveryKey(q, d);
  }

  // ---------------------------------------------------------------- enqueueing

  /** One row of `prepare_delivery_rows`, with the identity `enqueue_in_tx` will give it. */
  function Delivery(n: Normal, c: Channel, prefix: Option<string>, nonce: string, rendered: (Normal, Channel) -> string,
          at: nat): O.Job {
    var dedupe := if prefix.Some? then Some(DeliveryKey(prefix.value, c.id)) else None;
    var q := O.Request(n.projectId, K.Notification, n.title + " via " + c.name, rendered(n, c), dedupe, at);
    O.Job(q, O.DefaultProducer(q, nonce), true)
  }

  function Deliveries(n: Normal, channels: seq<Channel>, prefix: Option<string>, env: Env, at: nat): (r: seq<O.Job>)
    ensures |r| == |channels|
    ensures forall i :: 0 <= i < |channels| ==> r[i] == Delivery(n, channels[i], prefix, env.nonce(i), env.rendered, at)
  {
    seq(|channels|, i requires 0 <= i < |channels| => Delivery(n, channels[i], prefix, env.nonce(i), env.rendered, at))
  }

  /** `now.saturating_add(delay)` on u64 */
  function SaturatingAdd(now: nat, delay: nat): nat {
    if now + delay > U64_MAX then U64_MAX else now + delay
  }

  function OrEmpty(value: Option<string>): string {
    if value.Some? then Trim(value.value, RustSpace) else ""
  }

  /** Every text within its bound, and the title not blank. */
  predicate TextsFit(notice: Notice) {
    && TrimRequired(notice.title, MAX_TITLE_CHARS).Ok? && TrimOptional(notice.body, MAX_BODY_CHARS).Ok?
    && TrimOptional(notice.url, MAX_URL_CHARS).Ok? && TrimOptional(notice.projectId, MAX_PROJECT_ID_CHARS).Ok?
  }

  /** Something to say, and a usable link if any. */
  predicate TextsOk(notice: Notice, urlOk: string -> bool) {
    var body, url := OrEmpty(notice.body), OrEmpty(notice.url);
    TextsFit(notice) && (body != "" || url != "") && (url != "" ==> urlOk(url))
  }

  predicate Acceptable(notice: Notice, urlOk: string -> bool) {
    TextsOk(notice, urlOk) && GoodChannelIds(notice.channelIds)
  }

  /** The bounds of the interface, text by text: a title, a message or a usable link, and at most 32
      channel ids, none blank, long or repeated. Every text is measured without the space around it. */
  predicate WithinBounds(notice: Notice, urlOk: string -> bool) {
    var title, body, url, project, ids := Trim(notice.title, RustSpace), OrEmpty(notice.body), OrEmpty(notice.url),
                                          OrEmpty(notice.projectId), notice.channelIds;
    && 0 < |title| <= 200 && |body| <= 4_000 && |url| <= 2_048 && |project| <= 128
    && !(body == "" && url == "") && (url != "" ==> urlOk(url))
    && |ids| <= 32
    && (forall i :: 0 <= i < |ids| ==> 0 < |Trim(ids[i], RustSpace)| <= 128)
    && (forall i, j :: 0 <= i < j < |ids| ==> Trim(ids[i], RustSpace) != Trim(ids[j], RustSpace))
  }

  /** A request is acceptable exactly within these bounds. */
  lemma AcceptableIff(notice: Notice, urlOk: string -> bool)
    ensures Acceptable(notice, urlOk) <==> WithinBounds(notice, urlOk)
  {
    var ids := Trims(notice.channelIds);
    TextsFitIff(notice);
    IdsGoodIff(notice.channelIds);
  }

  lemma RequiredFits(value: string, max: nat)
    ensures TrimRequired(value, max).Ok? <==> 0 < |Trim(value, RustSpace)| <= max
  {
  }

  lemma OptionalFits(value: Option<string>, max: nat)
    ensures TrimOptional(value, max).Ok? <==> |OrEmpty(value)| <= max
  {
  }

  lemma TextsFitIff(notice: Notice)
    ensures TextsFit(notice) <==>
              && 0 < |Trim(notice.title, RustSpace)| <= 200 && |OrEmpty(notice.body)| <= 4_000
              && |OrEmpty(notice.url)| <= 2_048 && |OrEmpty(notice.projectId)| <= 128
  {
    RequiredFits(notice.title, MAX_TITLE_CHARS);
    OptionalFits(notice.body, MAX_BODY_CHARS);
    OptionalFits(notice.url, MAX_URL_CHARS);
    OptionalFits(notice.projectId, MAX_PROJECT_ID_CHARS);
  }

  lemma IdsGoodIff(raw: seq<string>)
    ensures GoodIds(Trims(raw)) <==>
              && (forall i :: 0 <= i < |raw| ==> 0 < |Trim(raw[i], RustSpace)| <= 128)
              && (forall i, j :: 0 <= i < j < |raw| ==> Trim(raw[i], RustSpace) != Trim(raw[j], RustSpace))
  {
    var ids := Trims(raw);
    if GoodIds(ids) {
      forall i | 0 <= i < |raw| ensures 0 < |Trim(raw[i], RustSpace)| <= 128 { assert 0 < |ids[i]| <= 128; }
      forall i, j | 0 <= i < j < |raw| ensures Trim(raw[i], RustSpace) != Trim(raw[j], RustSpace) {
        assert ids[i] != ids[j];
      }
    }
  }

  /** An id selects the first channel that has it, and only when that is enabled. */
  lemma SelectableIff(settings: seq<Channel>, id: string)
    ensures Selectable(settings, id) <==>
              exists k :: 0 <= k < |settings| && settings[k].id == id && settings[k].enabled
                && forall j :: 0 <= j < k ==> settings[j].id != id
  {
    var i := IndexOfChannel(settings, id);
    if k :| 0 <= k < |settings| && settings[k].id == id && settings[k].enabled
            && forall j :: 0 <= j < k ==> settings[j].id != id {
      assert i == k;
    }
  }

  /** The checks in the source's order, on the four trimmed texts. */
  function Assemble(title: Result<string, Error>, body: Result<string, Error>, url: Result<string, Error>,
                    project: Result<string, Error>, urlOk: string -> bool): Result<Normal, Error> {
    if title.Err? then Err(title.error)
    else if body.Err? then Err(body.error)
    else if url.Err? then Err(url.error)
    else if body.value == "" && url.value == "" then Err(NothingToSay)
    else if url.value != "" && !urlOk(url.value) then Err(BadUrl)
    else if project.Err? then Err(project.error)
    else Ok(Normal(title.value, body.value, url.value, project.value, []))
  }

  lemma OptionalValue(value: Option<string>, max: nat)
    ensures TrimOptional(value, max).Ok? ==> TrimOptional(value, max).value == OrEmpty(value)
  {
  }

  method NormalizeTexts(notice: Notice, urlOk: string -> bool) returns (r: Result<Normal, Error>)
    ensures r.Ok? <==> TextsOk(notice, urlOk)
    ensures r.Ok? ==>
      r.value == Normal(Trim(notice.title, RustSpace), OrEmpty(notice.body), OrEmpty(notice.url),
          OrEmpty(notice.projectId), [])
  {
    OptionalValue(notice.body, MAX_BODY_CHARS);
    OptionalValue(notice.url, MAX_URL_CHARS);
    OptionalValue(notice.projectId, MAX_PROJECT_ID_CHARS);
    r := Assemble(TrimRequired(notice.title, MAX_TITLE_CHARS), TrimOptional(notice.body, MAX_BODY_CHARS),
                  TrimOptional(notice.url, MAX_URL_CHARS), TrimOptional(notice.projectId, MAX_PROJECT_ID_CHARS), urlOk);
  }

  method NormalizeRequest(notice: Notice, urlOk: string -> bool) returns (r: Result<Normal, Error>)
    ensures r.Ok? <==> Acceptable(notice, urlOk)
    ensures r.Ok? ==>
      r.value == Normal(Trim(notice.title, RustSpace), OrEmpty(notice.body), OrEmpty(notice.url),
          OrEmpty(notice.projectId),
                        Trims(notice.channelIds))
  {
    r := NormalizeTexts(notice, urlOk);
    if r.Ok? {
      var ids := NormalizeChannelIds(notice.channelIds);
      if ids.Err? { return Err(ids.error); }
      r := Ok(r.value.(channelIds := ids.value));
    }
  }

  function NormalOf(notice: Notice): Normal {
    Normal(Trim(notice.title, RustSpace), OrEmpty(notice.body), OrEmpty(notice.url), OrEmpty(notice.projectId),
           Trims(notice.channelIds))
  }

  /** What the caller of the outbox supplies: fresh nonces, the serializer and the URL parser. */
  datatype Env = Env(nonce: nat -> string, rendered: (Normal, Channel) -> string, urlOk: string -> bool)

  /** The jobs of one notification, or none when the request is refused. */
  function NotificationJobs(settings: seq<Channel>, notice: Notice, prefix: Option<string>, env: Env,
          at: nat): Option<seq<O.Job>> {
    var ids := Trims(notice.channelIds);
    if !Acceptable(notice, env.urlOk) || !CanSelect(settings, ids) || Chosen(settings, ids) == [] then None
    else Some(Deliveries(NormalOf(notice), Chosen(settings, ids), prefix, env, at))
  }

  /** What the jobs of an accepted notification are, and when it is accepted. */
  lemma NotificationJobsAre(settings: seq<Channel>, notice: Notice, prefix: Option<string>, env: Env, at: nat)
    ensures var ids, jobs := Trims(notice.channelIds), NotificationJobs(settings, notice, prefix, env, at);
            && (jobs.Some?
                <==> Acceptable(notice, env.urlOk) && CanSelect(settings, ids) && Chosen(settings, ids) != [])
            && (jobs.Some? ==>
                  && |jobs.value| == |Chosen(settings, ids)|
                  && forall i :: 0 <= i < |jobs.value| ==>
                       jobs.value[i] == Delivery(NormalOf(notice), Chosen(settings, ids)[i], prefix, env.nonce(i),
                                                 env.rendered, at))
  {
  }

  method PrepareNotification(settings: seq<Channel>, notice: Notice, prefix: Option<string>, env: Env, at: nat)
    returns (r: Result<seq<O.Job>, Error>)
    ensures r.Ok? <==> NotificationJobs(settings, notice, prefix, env, at).Some?
    ensures r.Ok? ==> r.value == NotificationJobs(settings, notice, prefix, env, at).value
  {
    var normal := NormalizeRequest(notice, env.urlOk);
    if normal.Err? { return Err(normal.error); }
    var channels := SelectedChannels(settings, normal.value.channelIds);
    if channels.Err? { return Err(channels.error); }
    if channels.value == [] { return Err(NoChannel); }
    return Ok(Deliveries(normal.value, channels.value, prefix, env, at));
  }

  /** `enqueue_notification_with_dedupe_prefix_after`: everything that can fail before the transaction
      leaves the store alone, and the transaction is all or nothing. */
  method EnqueueNotification(store: O.Store, settings: seq<Channel>, notice: Notice, prefix: Option<string>, delay: nat,
                             now: nat, env: Env)
    returns (r: Result<seq<nat>, Error>)
    modifies store
    ensures r.Err? ==> store.Now() == old(store.Now())
    ensures var jobs := NotificationJobs(settings, notice, prefix, env, SaturatingAdd(now, delay));
            && (r.Ok? <==> jobs.Some? && O.RunJobs(old(store.Now()), jobs.value, now).Ok?)
            && (r.Ok? ==> O.RunJobs(old(store.Now()), jobs.value, now) == Ok((store.Now(), r.value)))
  {
    var jobs := PrepareNotification(settings, notice, prefix, env, SaturatingAdd(now, delay));
    if jobs.Err? { return Err(jobs.error); }
    var ids := store.RunInTransaction(jobs.value, now);
    match ids
    case Err(e) => r := Err(Store(e));
    case Ok(value) => r := Ok(value);
  }

  /** Row `id` is the delivery of this key. */
  ghost predicate DeliversAs(t: O.Table, id: nat, project: string, key: string) {
    exists x :: 0 <= x < |t.rows| && t.rows[x].id == id && O.Carries(t.rows[x], project, key)
  }

  /** With a dedupe prefix: the id at each place is that of the row for the channel at that place, and
      ids are as distinct as the channels. */
  lemma OneIdPerChannel(t: O.Table, n: Normal, channels: seq<Channel>, prefix: string, env: Env, at: nat,
                        now: nat)
    requires O.TableOk(t)
    requires forall i, j :: 0 <= i < j < |channels| ==> channels[i].id != channels[j].id
    requires O.RunJobs(t, Deliveries(n, channels, Some(prefix), env, at), now).Ok?
    ensures var (end, ids) := O.RunJobs(t, Deliveries(n, channels, Some(prefix), env, at), now).value;
            |ids| == |channels| && Distinct(ids)
            && forall i :: 0 <= i < |ids| ==> DeliversAs(end, ids[i], n.projectId, DeliveryKey(prefix, channels[i].id))
  {
    var jobs := Deliveries(n, channels, Some(prefix), env, at);
    assert S.FunnelJobs(jobs);
    S.CallFound(t, jobs, now);
    var (end, ids) := O.RunJobs(t, jobs, now).value;
    forall i | 0 <= i < |ids| ensures DeliversAs(end, ids[i], n.projectId, DeliveryKey(prefix, channels[i].id)) {
      var x := S.FoundRow(end, jobs[i]);
    }
    forall i, j | 0 <= i < j < |ids| ensures ids[i] != ids[j] {
      S.CallIds(t, jobs, now, i, j);
      if DeliveryKey(prefix, channels[i].id) == DeliveryKey(prefix, channels[j].id) {
        SameDeliveryKey(prefix, channels[i].id, channels[j].id);
      }
    }
  }

  /** The row of a new delivery: for this channel, with the message rendered for it, due at the given time. */
  predicate DeliveryRow(row: O.Row, id: nat, n: Normal, c: Channel, key: string, env: Env, at: nat) {
    && row.id == id && row.status == O.Pending && row.project == n.projectId && row.kind == K.Notification
    && row.summary == n.title + " via " + c.name && row.payload == env.rendered(n, c)
    && row.nextAttempt == at && row.dedupe == Some(key)
  }

  /** The call added that row. */
  ghost predicate DeliveryAdded(t: O.Table, end: O.Table, id: nat, n: Normal, c: Channel, key: string, env: Env,
                                at: nat) {
    exists x :: |t.rows| <= x < |end.rows| && DeliveryRow(end.rows[x], id, n, c, key, env, at)
  }

  lemma DeliveriesAreFunnelJobs(n: Normal, channels: seq<Channel>, prefix: string, env: Env, at: nat)
    ensures S.FunnelJobs(Deliveries(n, channels, Some(prefix), env, at))
  {
  }

  /** Each channel gets a row of its own with its texts, unless its key has been sent before: then the
      first row of that key stands for it, and nothing is added for this channel. */
  lemma DeliveryRows(t: O.Table, n: Normal, channels: seq<Channel>, prefix: string, env: Env, at: nat, now: nat, i: nat)
    requires O.TableOk(t) && i < |channels|
    requires forall i, j :: 0 <= i < j < |channels| ==> channels[i].id != channels[j].id
    requires O.RunJobs(t, Deliveries(n, channels, Some(prefix), env, at), now).Ok?
    ensures |O.RunJobs(t, Deliveries(n, channels, Some(prefix), env, at), now).value.1| == |channels|
    ensures var (end, ids) := O.RunJobs(t, Deliveries(n, channels, Some(prefix), env, at), now).value;
            var key := DeliveryKey(prefix, channels[i].id);
            if O.HasKey(t.rows, n.projectId, key)
            then O.NamesFirst(t.rows, ids[i], (r: O.Row) => O.Carries(r, n.projectId, key))
            else DeliveryAdded(t, end, ids[i], n, channels[i], key, env, at)
  {
    var jobs := Deliveries(n, channels, Some(prefix), env, at);
    var key := DeliveryKey(prefix, channels[i].id);
    DeliveriesAreFunnelJobs(n, channels, prefix, env, at);
    S.CallRow(t, jobs, now, i);
    if !O.HasKey(t.rows, n.projectId, key) {
      var (end, ids) := O.RunJobs(t, jobs, now).value;
      assert S.AddedAs(t, end, ids[i], jobs, n.projectId, key);
      var x :| |t.rows| <= x < |end.rows| && end.rows[x].id == ids[i] && O.Carries(end.rows[x], n.projectId, key)
               && S.MadeBySome(end.rows[x], jobs);
      RowOfChannel(end.rows[x], n, channels, prefix, env, at, i);
    }
  }

  lemma RowOfChannel(row: O.Row, n: Normal, channels: seq<Channel>, prefix: string, env: Env, at: nat, i: nat)
    requires i < |channels| && forall i, j :: 0 <= i < j < |channels| ==> channels[i].id != channels[j].id
    requires S.MadeBySome(row, Deliveries(n, channels, Some(prefix), env, at))
    requires O.Carries(row, n.projectId, DeliveryKey(prefix, channels[i].id))
    ensures DeliveryRow(row, row.id, n, channels[i], DeliveryKey(prefix, channels[i].id), env, at)
  {
    var jobs := Deliveries(n, channels, Some(prefix), env, at);
    var j :| 0 <= j < |jobs| && S.RowOf(row, jobs[j]);
    SameDeliveryKey(prefix, channels[i].id, channels[j].id);
  }

  /** A later call with the same prefix, project and channels returns the same ids and writes nothing,
      whatever the message says by then and whatever became of the rows. */
  lemma DeliveredOnce(t: O.Table, n: Normal, channels: seq<Channel>, prefix: string, env: Env, at: nat, now: nat,
                      between: seq<S.Step>, n': Normal, at': nat, now': nat)
    requires O.TableOk(t) && S.StepsOk(between, S.NoKeys) && n'.projectId == n.projectId
    requires O.RunJobs(t, Deliveries(n, channels, Some(prefix), env, at), now).Ok?
    ensures var (mid, ids) := O.RunJobs(t, Deliveries(n, channels, Some(prefix), env, at), now).value;
            var later := S.Run(mid, between);
            O.RunJobs(later, Deliveries(n', channels, Some(prefix), env, at'), now') == Ok((later, ids))
  {
    var jobs := Deliveries(n, channels, Some(prefix), env, at);
    var again := Deliveries(n', channels, Some(prefix), env, at');
    assert S.FunnelJobs(jobs) && S.FunnelJobs(again);
    S.RepeatedCall(t, jobs, now, between, again, now');
  }

  lemma SameDeliveryKey(prefix: string, c: string, d: string)
    requires DeliveryKey(prefix, c) == DeliveryKey(prefix, d)
    ensures c == d
  {
    assert DeliveryKey(prefix, c)[|prefix| + 1..] == c && DeliveryKey(prefix, d)[|prefix| + 1..] == d;
  }

  /** The project id is optional on the wire, yet without one no first delivery can be stored: the
      row gets no identity. It fails exactly when no row of its key exists. */
  lemma BlankProjectNeedsRow(t: O.Table, n: Normal, c: Channel, prefix: Option<string>, nonce: string,
                             rendered: (Normal, Channel) -> string, at: nat, now: nat)
    requires O.TableOk(t) && Blank(n.projectId, RustSpace)
    ensures O.RunJob(t, Delivery(n, c, prefix, nonce, rendered, at), now).Ok?
            <==> prefix.Some? && O.HasKey(t.rows, n.projectId, DeliveryKey(prefix.value, c.id))
  {
    O.RunJobOk(t, Delivery(n, c, prefix, nonce, rendered, at), now);
  }
}
