# A model of the PR monitor's durable event pipeline

The program turns webhook deliveries, poll results and review requests into durable rows: an inbox of
events, rules that plan actions, an outbox that executes them, and review sessions whose output is
streamed to a panel. This project models the parts of it whose correctness is not visible in any one
function, and proves what they promise.

The model follows the program's shape. Code that changes state step by step is a class or a method with
a loop, proved equal to a function of the old state; the guarantees are lemmas about these functions and
about runs of them. SQLite tables are sequences, sets or maps of rows with their unique indexes written
out; a transaction is a method that restores everything when it fails. Awaits split a function into the
steps before and after them. What comes from outside is a parameter: the answers of the server, the
clock, fresh ids, the comparison of `localeCompare`, the SHA-256 digest, the URL parser, the text SQLite
prints for a number.

| file | what it holds |
|---|---|
| `Text.dfy`, `Order.dfy`, `Model.dfy` | decimal printing, UTF-8 lengths, trimming, splitting, length framing; stable sorting and canonical listings; shared types |
| `ReviewProtocol.dfy`, `CliRetry.dfy`, `RequestIds.dfy` | review requests that may be resent: the server's steps, the command line client, the remote console |
| `ProducerKeys.dfy`, `SkillIdentity.dfy`, `CommandRendering.dfy` | permanent identities, skill keys, command templates |
| `Outbox.dfy`, `SendOnce.dfy`, `Notifications.dfy` | the outbox table, runs of it, and the notification funnel |
| `RuleProcessing.dfy`, `RuleRuns.dfy`, `EventEffects.dfy`, `RuleSuccess.dfy`, `LegacyImport.dfy` | atomic processing of an event, runs of it, whose rows it adds and what its traces link, exactly when it succeeds; the guarded import |
| `EndToEnd.dfy` | the request protocol, the inbox worker and the rule pipeline as one machine |
| `DispatchLedger.dfy`, `PayloadMigration.dfy`, `OutboxRebuild.dfy`, `OutboxCarry.dfy` | the v15 and v18 migrations |
| `SsePump.dfy`, `SseChunking.dfy`, `SseRoundTrip.dfy` | the event stream reader, its chunks, and which streams come through |
| `ReviewPanel.dfy`, `SessionRefresh.dfy`, `TerminalReplay.dfy`, `EntryList.dfy`, `SessionTree.dfy`, `RuleIds.dfy`, `PollSnapshot.dfy` | the stores and canonical forms |

`dafny verify dfyconfig.toml` checks everything.

## What the proofs found

Where the code does not do what its comments or its callers expect, the model follows the code, a lemma
gives the input, and another one says exactly when the expectation does hold.

- A rule with two notify actions, anywhere among its actions, that share key, project and a channel can
  never be processed: both get the same outbox row, the second link violates the primary key of
  `rule_match_action`, the transaction rolls back, and so does every replay. Under the default dedupe
  policy any two notify actions to the configured channels are such a pair
  (`RuleSuccess.TwoNotificationsOneKey`, `RuleSuccess.TwoDefaultNotifications`; `RuleSuccess.ProcessedIff`
  is the exact condition for success).
- The v18 payload rewrite is not idempotent on every JSON value. A second pass changes exactly the
  explicit requests without an invocation that also hold a candidate in legacy form
  (`PayloadMigration.SecondPassCounterexample`, `PayloadMigration.SecondPassIff`).
- The invocation built by v18 carries the candidate's own key exactly when that key is canonical: a
  non-empty name, a NUL, trimmed arguments (`PayloadMigration.InvocationKeyIff`). The empty key, which
  discovery may stamp, is not (`PayloadMigration.EmptyKeyReplaced`).
- The stream reader skips four characters for any separator that starts with a carriage return. At
  `\r\n\n` it loses a character, or not, depending on where the network cut the text, and with the
  character the next event (`SseRoundTrip.ChunkingMatters`). A stream of one-line events, each ended by
  `\n\n`, `\r\n\r\n` or `\r\n\n`, comes through every cutting exactly when no event but the last has the
  last of these ends (`SseRoundTrip.RoundTripIff`). For any text, what the JSON parser is handed is
  independent of the chunks exactly when at each such place the reader can come to, the rest hands over the
  same with that character and without it (`SseChunking.DeliveryIrrelevantIff`).
- The comment above `refreshSessions` promises that the last response reflects a read taken after the
  latest request. A rejected read drops the request that was waiting (`SessionRefresh.IdleListIsFresh`,
  `SessionRefresh.RejectionDropsTheQueue`).
- Focusing another session while a start is in flight puts both sessions' text into the panel, and loses
  what arrived for the started session while the other one was focused (`ReviewPanel.FocusInWindow`,
  `ReviewPanel.FocusedDeltaIsLost`). Exactly without such a focus the panel shows the started session alone,
  whatever arrives (`ReviewPanel.AlwaysShowsOwnIff`).
- Switching from one raw terminal session to another under a mounted pane leaves the old session's output
  in front of the new one's (`TerminalReplay.SwitchedPaneKeepsOldOutput`). A mounted pane shows one contiguous
  suffix of the output since the attach exactly when it was mounted anew since then or had shown nothing
  before (`TerminalReplay.PaneContiguousIff`).
- A resent review request is recognized only while its project reference still names the same project,
  source and repository, and the same arguments with a leading space are a different request under the same id
  (`ReviewProtocol.ResendRecognizedIff` with `ReviewProtocol.RetargetedReference`, and
  `ReviewProtocol.SpellingsCompared` with `ReviewProtocol.SpellingMatters`).
- A notification without a project id can never be stored for the first time
  (`Notifications.BlankProjectNeedsRow`), and dedupe keys of two channels can coincide when one channel id
  ends in a colon and the other (`Notifications.CollidingDeliveries`, `Notifications.DeliveryKeysCollideIff`).
- The operation key of the remote console can confuse two projects when one id contains a line feed
  (`RequestIds.ConfusedProjects`, `RequestIds.KeyConfusesIff`).
- A skill name can be substituted again (`CommandRendering.SkillNameCanBeReplaced`). Some template goes
  wrong exactly when the name contains `{pr}` or `{repo}`, or when it ends with the opening part and starts
  with the closing part of one of them so that two names in a row, perhaps with text between them, spell it
  (`CommandRendering.AlwaysRendersIff`).

## Model

| member | source | states |
|---|---|---|
| `ReviewProtocol.OneRowPerRequestId` | src-tauri/src/lib.rs:510-527 | In every run of any clients, lost, repeated and reordered messages and interleaved server steps, two review rows with one request id are the same row |
| `ReviewProtocol.ReceiptsAgree` | src-tauri/src/lib.rs:471-541 | All acceptances received for one request id carry the id of one row that is still there, which records the same project id, source, repository, PR, arguments, id, origin and notification as each of them; and for each of them the run has a delivery of its ask at which the configuration named exactly that project under its reference |
| `ReviewProtocol.RowsAreResolved` | src-tauri/src/lib.rs:500-518 | For each review row the run has a delivery of some ask at which the configuration named exactly the recorded project, source and repository under its reference; everything else is that ask's |
| `ReviewProtocol.ResolveExact` | src-tauri/src/lib.rs:479-508 | An ask resolves to a request exactly when its reference is configured with a project id that is not blank, PR, arguments and id are well formed, and the request has the id, source and repository of that project, the ask's other fields and the time of receipt |
| `ReviewProtocol.DeliverStarts` | src-tauri/src/lib.rs:479-508 | A delivery writes no row: it starts one handler for the resolved request, or refuses the ask as invalid |
| `ReviewProtocol.ExtraArgsExact` | src-tauri/src/model.rs:276-282 | The arguments a request may have: none or `--check`, with any white space around |
| `ReviewProtocol.InsertExact` | src-tauri/src/inbox/store.rs:99-134 | Under a new key one row is added, Received, under the next id, with the key and the event; under a known key nothing changes; no other part of the state is touched |
| `ReviewProtocol.PruneExact` | src-tauri/src/inbox/store.rs:140-152 | Retention takes away only finished observations, as many as the table exceeds 5000 rows by or as there are, and always the oldest of them |
| `ReviewProtocol.NoLostReceipt` | src-tauri/src/lib.rs:519-527 | The "receipt not found" and "receipt lost" errors cannot happen; what a handler compared, or is about to accept, is the stored row itself |
| `ReviewProtocol.KnownRequestId` | src-tauri/src/lib.rs:511-541 | A delivery whose request id has a row, interleaved with anything: the row keeps its request; five steps of its own handler finish it; it finishes by one answer, a conflict exactly when the request differs from the row's, else the known receipt unless the notification it asks for fails to start |
| `ReviewProtocol.KnownNeverWrites` | src-tauri/src/lib.rs:511-527 | None of its handler's steps in such a run writes a row |
| `ReviewProtocol.UnknownRequestId` | src-tauri/src/lib.rs:511-541 | The first delivery under a request id stores its request in a row of its own, Received, and its next step answers with that row's id unless the notification fails to start |
| `ReviewProtocol.Exchange` | src-tauri/src/lib.rs:471-541 | Every ask the configuration takes can be accepted: a run is given in which its client holds the id of the row that records it |
| `ReviewProtocol.Answered` | src-tauri/src/lib.rs:511-541 | From any moment of any run a handler that starts on an unknown request id can have its client hold the new receipt |
| `ReviewProtocol.ClientSteps` | src-tauri/src/cli.rs:926-953 | Sending, losing and receiving change the one message and nothing of the server; what was received stays; the configuration may become any other |
| `ReviewProtocol.IngestStep` | src-tauri/src/inbox/store.rs:99-134 | An observation is stored as received unless its key has a row or is a request's |
| `ReviewProtocol.WorkStep` | src-tauri/src/inbox/store.rs:478-506 | A status change touches the status of its row alone |
| `ReviewProtocol.ReviewRowsStay` | src-tauri/src/inbox/store.rs:95-156 | No step, retention included, removes a review row or changes its key or request |
| `ReviewProtocol.ResendRecognizedIff` | src-tauri/src/lib.rs:1199-1227 | The same ask resolved later is the same request exactly when its reference still names the same project, source and repository |
| `ReviewProtocol.RetargetedReference` | src-tauri/src/lib.rs:1199-1227 | A resend after the project's repository was changed is a different request |
| `ReviewProtocol.SameRequestEquivalence` | src-tauri/src/lib.rs:1199-1227 | The comparison of requests is an equivalence: it ignores the time of receipt and nothing else |
| `ReviewProtocol.SpellingsCompared` | src-tauri/src/lib.rs:1207-1213 | Two spellings that trim to the same arguments resolve alike and select one skill key, and are the same request only when they are the same text |
| `ReviewProtocol.SpellingMatters` | src-tauri/src/lib.rs:1207-1213 | Whatever the accepted arguments are, the same request with a leading space before them is refused under its id |
| `ReviewProtocol.NextOk` | src-tauri/src/lib.rs:471-541 | Every step keeps unique keys, the row of each request id, and what handlers, replies and receipts rely on |
| `CliRetry.Client.Submit` | src-tauri/src/cli.rs:926-953 | The resend loop sends one unchanged post per attempt and ends as the specification of a submit says |
| `CliRetry.Client.AwaitApp` | src-tauri/src/cli.rs:957-977 | The wait loop repeats submits of one unchanged post and ends as the specification of the wait says |
| `CliRetry.Client.Run` | src-tauri/src/cli.rs:469-524 | Every post of a whole run is the same post under one id, the given or a fresh one; the app is launched at most once, after a refused connection; the exit code |
| `CliRetry.SubmittedShape` | src-tauri/src/cli.rs:926-953 | A submit is 1 to 4 posts, all but its last ambiguous; a definite answer is the result; four ambiguous answers are code 1 |
| `CliRetry.AwaitedShape` | src-tauri/src/cli.rs:957-977 | The wait makes a bounded number of submits, stops at the first settled answer and reports that answer |
| `CliRetry.RunShape` | src-tauri/src/cli.rs:404-410 | 101 tries after a cold start, at most 408 posts in all; acceptance is reported exactly when the last post was accepted; giving up needs 101 refused connections |
| `CliRetry.AcceptanceGetsThrough` | src-tauri/src/cli.rs:926-953 | An acceptance among the four posts of a submit is reported, with its receipt, by the post that brought it |
| `CliRetry.MessageColdStart` | src-tauri/src/cli.rs:723-750 | Messages: at most 101 attempts and one launch; the result is that of the first attempt that found the app |
| `RequestIds.RequestIdLifecycle.ForOperation` | src/remoteConsole/receiptLifecycle.ts:36-43 | The id returned is the one in force: a new one unless the last call was for the same operation |
| `RequestIds.RequestIdLifecycle.Accepted` | src/remoteConsole/receiptLifecycle.ts:45-52 | Acceptance, and a changed selection, end the id in force |
| `RequestIds.SameIdIff` | src/remoteConsole/receiptLifecycle.ts:30-53 | Over any run two requests carry one id exactly when every call from the first to the second was for the same operation |
| `RequestIds.KeyUnique` | src/remoteConsole/receiptLifecycle.ts:37-37 | The operation key tells operations apart when project ids hold no line feed |
| `RequestIds.KeyConfusesIff` | src/remoteConsole/receiptLifecycle.ts:37-37 | Exactly which pairs of projects the key can confuse |
| `RequestIds.ConfusedProjects` | src/remoteConsole/receiptLifecycle.ts:37-37 | For any project, two operations of it and of one whose id goes on with a line feed and a number share a key |
| `RequestIds.MergeSessionsByThread` | src/remoteConsole/receiptLifecycle.ts:21-28 | The merge is the listing of a map filled from both lists in turn |
| `RequestIds.LastWins` | src/remoteConsole/receiptLifecycle.ts:25-26 | Per thread the last incoming session is shown, or the current one when none came in |
| `RequestIds.PutAllOk` | src/remoteConsole/receiptLifecycle.ts:25-27 | One entry per thread, all threads of both lists, current ones first and in their order |
| `RequestIds.MergeTwice` | src/remoteConsole/receiptLifecycle.ts:21-28 | Merging the same response again changes nothing |
| `Text.FrameUnique` | src-tauri/src/model.rs:574-594 | A length-framed string can be read back off the front of any text, whatever it contains |
| `Text.TrimIs` | src-tauri/src/model.rs:276-282 | Trimming takes white space off both ends, all of it, and nothing else |
| `ProducerKeys.RuleActionKeyUnique` | src-tauri/src/model.rs:566-582 | Equal rule producer keys come from the same inbox event, rule and action |
| `ProducerKeys.DedupeKeyUnique` | src-tauri/src/model.rs:584-595 | Equal dedupe producer keys come from the same project and key |
| `ProducerKeys.ManualKeyUnique` | src-tauri/src/model.rs:2180-2194 | Equal manual producer keys come from the same project, kind and nonce |
| `ProducerKeys.KeyTextInjective` | src-tauri/src/db.rs:1216-1216 | Across all four families, the legacy one included, one key means one producer |
| `ProducerKeys.ReviewActionKeyUnique` | src-tauri/src/model.rs:544-563 | The review key always determines the PR; it determines SHA and skill when SHAs hold no colon |
| `SkillIdentity.MigrationProperties` | src-tauri/src/model.rs:296-320 | Migrating a skill key twice is migrating once; the strict parser accepts exactly the words whose migrated form is a skill key |
| `SkillIdentity.LegacyWords` | src-tauri/src/model.rs:296-320 | Neither legacy word is a skill key, and both migrate to one |
| `SkillIdentity.MigrateDispatchKeyIdempotent` | src-tauri/src/model.rs:324-331 | The last-colon rewrite is idempotent on every string |
| `SkillIdentity.MigrateDispatchKeyMeaning` | src-tauri/src/model.rs:322-331 | For the keys the ledger writes, PR and head stay and the skill is migrated |
| `CommandRendering.RenderIsFilled` | src-tauri/src/model.rs:343-360 | Three chained replacements equal filling each placeholder once, plus the trimmed arguments, for every template of brace-free literals and placeholders, every skill name that does not collide and every repository |
| `CommandRendering.AlwaysRendersIff` | src-tauri/src/model.rs:343-360 | Every template, PR, repository and arguments render as expected exactly when the skill name neither contains {pr} or {repo} nor can complete one of them from its end to its start |
| `CommandRendering.PlainNamesRender` | src-tauri/src/model.rs:343-360 | In particular for names without an opening or without a closing brace |
| `CommandRendering.SkillNameCanBeReplaced` | src-tauri/src/model.rs:343-353 | The name {pr} under the template {skill} is rendered as the PR number |
| `Outbox.Store.EnqueueWithProducer` | src-tauri/src/outbox/store.rs:293-350 | INSERT OR IGNORE and the two lookups do what the enqueue specification says and change nothing on an error |
| `Outbox.Store.Run` | src-tauri/src/messaging_outbox.rs:38-57 | Look up any row of the key, else enqueue under the default identity |
| `Outbox.Store.RunAll` | src-tauri/src/notification.rs:167-188 | The loop over prepared rows returns one id per row, in order |
| `Outbox.Store.RunInTransaction` | src-tauri/src/db.rs:148-154 | Commit on success; on an error the table is as it was |
| `Outbox.FirstSpec` | src-tauri/src/outbox/store.rs:224-238 | The lookup finds the lowest matching row, or none when none matches |
| `Outbox.EnqueueOk` | src-tauri/src/outbox/store.rs:293-350 | An enqueue succeeds exactly when its times fit an i64. It appends one row exactly when neither its identity nor a live row of its key is there: pending, under the next id, with the request's project, kind, summary, payload, time and dedupe key and that producer, and returns that id; else it writes nothing. Both unique indexes hold |
| `Outbox.RunJobOk` | src-tauri/src/outbox/store.rs:258-268 | A funnel call succeeds exactly when a row can be reused, or it has an identity and its times fit; the "constraint without a row" error cannot happen. It appends its request's row, column by column, exactly when no row is reused and its identity and key are free |
| `Outbox.RunJobAnswers` | src-tauri/src/outbox/store.rs:320-349 | The returned id names a row with the request's key or identity |
| `Outbox.RunJobFinds` | src-tauri/src/outbox/store.rs:320-349 | A call that writes nothing answers with the first row of its key whatever its status, when it looks first and there is one; else with the row of its identity before the live row of its key |
| `SendOnce.OneRowPerFunnelKey` | src-tauri/src/notification.rs:167-188 | Over any run of transactions and status changes, keys used only by lookup-first funnels never get a second row, and both unique indexes hold |
| `SendOnce.RepeatedCall` | src-tauri/src/notification.rs:167-188 | The same call later, whatever became of its rows, succeeds with the same ids in the same order and writes nothing |
| `SendOnce.CallIds` | src-tauri/src/notification.rs:172-187 | Two rows of one call get the same id exactly when they have the same key |
| `SendOnce.SetStatusOk` | src-tauri/src/outbox/store.rs:431-535 | Status changes, retry of a dead row included, keep the unique indexes or change nothing |
| `SendOnce.StatusStep` | src-tauri/src/outbox/store.rs:431-535 | A status change takes effect on its row alone, exactly unless that row would be the second live one of its key |
| `SendOnce.SharedKeyDoubles` | src-tauri/src/outbox/store.rs:249-256 | The exclusiveness of funnel keys is needed: another producer doubles a key whose rows are all done or dead |
| `SendOnce.AddedRows` | src-tauri/src/outbox/store.rs:302-320 | Every row a transaction adds is, column by column, the row of one of its jobs |
| `SendOnce.CallRow` | src-tauri/src/notification.rs:167-188 | The id at each place of a call: of the first row of its key, of any status, if there was one before the call; else of a row the call added for that key |
| `Notifications.NormalizeChannelIds` | src-tauri/src/notification.rs:260-276 | Accepts exactly lists of at most 32 ids that are non-blank, at most 128 characters and distinct after trimming, and trims them |
| `Notifications.SelectedChannels` | src-tauri/src/notification.rs:286-312 | Every enabled channel, or exactly the requested ones in order; one unknown or disabled id refuses the request |
| `Notifications.EnabledOnce` | src-tauri/src/notification.rs:290-297 | With unique ids every channel is offered at most once, and exactly when enabled |
| `Notifications.EnabledInOrder` | src-tauri/src/notification.rs:290-297 | The offered channels are the enabled ones in the order of the settings |
| `Notifications.SelectableIff` | src-tauri/src/notification.rs:298-310 | An id selects the first channel that has it, exactly when that is enabled |
| `Notifications.AcceptableIff` | src-tauri/src/notification.rs:190-276 | The accepted requests bound by bound: a title of 1 to 200 characters, at most 4000 of body, 2048 of link and 128 of project id, something to say, a usable link, at most 32 channel ids of 1 to 128 characters, all different; each measured after trimming |
| `Notifications.NormalizeRequest` | src-tauri/src/notification.rs:190-210 | Accepts exactly requests with a title, something to say, fitting texts, a usable link and good channel ids |
| `Notifications.PrepareNotification` | src-tauri/src/notification.rs:129-165 | One delivery per selected channel, or a refusal when none is selected |
| `Notifications.EnqueueNotification` | src-tauri/src/notification.rs:71-102 | The whole funnel: on a refusal or error the store is untouched, else the deliveries are committed together |
| `Notifications.OneIdPerChannel` | src-tauri/src/notification.rs:167-188 | With a dedupe prefix: one id per selected channel, all different, and the id at each place names the row for the channel at that place |
| `Notifications.DeliveryRows` | src-tauri/src/notification.rs:144-188 | For each channel of a call whose key was not sent before, the call adds a row with that channel's rendered payload and summary, the project, the kind, the time and the key, and returns its id at the channel's place; a key sent before is answered with its first row |
| `Notifications.DeliveredOnce` | src-tauri/src/notification.rs:167-188 | A later call with the same prefix, project and channels returns the same ids and writes nothing |
| `Notifications.DeliveryKeysCollideIff` | src-tauri/src/notification.rs:156-156 | Which two channel ids some prefixes can confuse |
| `Notifications.CollidingDeliveries` | src-tauri/src/notification.rs:156-156 | Prefixes that do confuse them |
| `Notifications.BlankProjectNeedsRow` | src-tauri/src/outbox/store.rs:258-268 | Without a project id a delivery succeeds exactly when a row of its key already exists |
| `RuleProcessing.Database.RunAction` | src-tauri/src/lib.rs:1456-1500 | The three dispatch arms enqueue the action's jobs and return their ids |
| `RuleProcessing.Database.InsertMatch` | src-tauri/src/rule/store.rs:44-69 | Written exactly when no action is linked twice: one more trace, with the rule id, rule name and project of the plan, the inbox id, the number of ids as action count, and a link per id in order |
| `RuleProcessing.Database.ProcessRuleEvent` | src-tauri/src/lib.rs:1436-1518 | On success the whole new state; on any failure outbox, traces, links and inbox are as before |
| `RuleRuns.SuccessTraces` | src-tauri/src/lib.rs:1448-1515 | One trace per plan, in plan order, with the rule and project of that plan and the inbox id; it links exactly the ids its actions got, in action order and each once, and counts them |
| `EventEffects.EventRows` | src-tauri/src/lib.rs:1456-1500 | Processing an event leaves every row of the outbox as it was, and each row it adds is that of one of its actions: a direct action's own texts and identity, an enabled channel's rendered notification, or the prepared message; pending and due at the saturated time |
| `EventEffects.Links` | src-tauri/src/lib.rs:1455-1513 | A trace has as many links as its actions ask for rows, those of each action behind those of the actions before it; each names a row that carries what that row of that action is sent under, the channel at its place included |
| `EventEffects.AcceptedIff` | src-tauri/src/lib.rs:1456-1500 | Which actions are accepted: a direct one with an event id and a rule and action that are not blank; a prepared message; a notification within its bounds that selects enabled channels only, and at least one |
| `RuleRuns.CommitsOnce` | src-tauri/src/inbox/store.rs:478-492 | Over any run of attempts, failures, replays, new events and outbox work an event commits at most once, and has committed exactly when it is Processed |
| `RuleRuns.StatusSteps` | src-tauri/src/inbox/store.rs:494-506 | Marking takes a received row to failed, replay a failed one back, a new event is received; each changes one status or nothing |
| `RuleRuns.AttemptStep` | src-tauri/src/lib.rs:1436-1518 | An attempt commits and takes its event from received to processed, with a trace per plan and no other row of the inbox changed, or leaves everything as it was |
| `RuleRuns.SingleWorker` | src-tauri/src/inbox/service.rs:230-294 | One worker that tries Received rows one at a time and marks the row it tried failed without looking at its status, or stops before that, does what a run of the guarded steps does |
| `RuleRuns.WorkerSteps` | src-tauri/src/inbox/service.rs:230-294 | The worker tries a received row when it has no error to record; a failure leaves it with one; recording marks that row failed, stopping before leaves it received |
| `RuleRuns.WorkerCommitsOnce` | src-tauri/src/inbox/store.rs:494-506 | So under the unconditional update, too, an event commits at most once, and has committed exactly when it is Processed |
| `RuleRuns.FailuresLeaveNothing` | src-tauri/src/lib.rs:1446-1518 | Any number of failed tries, each marked and replayed or cut off by a crash, leaves the state as it was, so a success after them is that success alone |
| `RuleSuccess.SameRowIff` | src-tauri/src/outbox/store.rs:293-350 | Two jobs of one event get the same outbox row exactly when they have the same key and, for a rule action and a delivery, the first row of that key had not finished before |
| `RuleSuccess.JobsRunIff` | src-tauri/src/lib.rs:1456-1500 | The jobs of an event succeed exactly when each has an identity and fitting times, or a row to reuse |
| `RuleSuccess.AllJobsKind` | src-tauri/src/config/model.rs:1649-1660 | Unique rule and action ids give the direct jobs of an event different producers |
| `RuleSuccess.ProcessedIff` | src-tauri/src/lib.rs:1446-1518 | An event is processed exactly when it is Received, plans have no errors, all actions are accepted and ready, and no plan would link one row twice |
| `RuleSuccess.UnprocessedHasNoRows` | src-tauri/src/lib.rs:1459-1464 | On every reachable state an event that was not processed has no row of its own |
| `RuleSuccess.NotifyKeysIff` | src-tauri/src/rule/service.rs:407-426 | Two notify actions of a rule share their key exactly when both are per event, or both per action under one id |
| `RuleSuccess.TwoNotificationsOneKey` | src-tauri/src/rule/store.rs:61-67 | An event whose plan holds, at any two places among its actions, notify actions with one key, one project and a common channel is never processed |
| `RuleSuccess.TwoDefaultNotifications` | src-tauri/src/rule/store.rs:61-67 | Two notify actions of one rule under the default policy that leave the channels to the settings are enough, wherever they stand |
| `LegacyImport.Database.ImportLegacy` | src-tauri/src/lib.rs:1156-1184 | One guarded attempt: all four categories in order and the guard, or nothing |
| `LegacyImport.TakesEffectOnce` | src-tauri/src/lib.rs:1156-1184 | Over any sequence of attempts the result is that of the first one that succeeds, on the original data |
| `LegacyImport.EntriesInOrder` | src-tauri/src/lib.rs:1168-1180 | Every gathered value is imported once, under its project and by its slice: the configuration, then tracked reviews, dispatched keys and events, each list in its order |
| `EndToEnd.UnresolvedFails` | src-tauri/src/rule/service.rs:157-181 | While its project or skill cannot be resolved, no attempt on a request succeeds |
| `EndToEnd.RequestProcessedIff` | src-tauri/src/lib.rs:1446-1518 | A stored request is processed exactly when its row is received and has an id, the configuration resolves it to a skill key that is not blank, and the clock fits the column |
| `EndToEnd.RequestAddsOne` | src-tauri/src/rule/service.rs:187-206 | Processing a review request adds at most one outbox row, a pending skill run in the project of the request under its request id, with the payload, label and skill key it was resolved to, due now; and one trace for that project with one link, to the new row if there is one |
| `EndToEnd.RunsWhatWasResolved` | src-tauri/src/rule/service.rs:187-206 | Over every run of the combined machine: the payload, label and skill key of the row of a review request are what some try of that event in the run resolved the request to; no status change alters them |
| `EndToEnd.Projects` | src-tauri/src/lib.rs:471-541 | Whatever the machine of protocol, worker and outbox does, its protocol part is a run of the request protocol |
| `EndToEnd.OneRunPerRequestId` | src-tauri/src/lib.rs:1436-1518 | Over any run of clients, handlers, worker, replays, retention and other producers, under any configurations, the inbox rows of one request id have one outbox row between them at the most, and it runs the skill in the project of the recorded request |
| `EndToEnd.ResentRequestRunsOnce` | src-tauri/src/lib.rs:471-541 | Clients that hold acceptances under one request id have at most one outbox row between them; it runs the skill in the project recorded with both acceptances, and for each of them the run has a delivery of its ask at which the configuration named that project under its reference |
| `DispatchLedger.Ledger.MigrateKeys` | src-tauri/src/db.rs:483-512 | Whatever the row order, the table becomes the image of the old one under the key migration |
| `DispatchLedger.Ledger.MigrateEvents` | src-tauri/src/db.rs:514-535 | Every event row gets its migrated key and keeps its project |
| `DispatchLedger.Ledger.MigrateV18` | src-tauri/src/db.rs:483-537 | Both loops; an event whose key was in the ledger still finds it there |
| `DispatchLedger.RowStep` | src-tauri/src/db.rs:494-511 | One DELETE and INSERT OR IGNORE advances the invariant of the loop, also when the migrated form already exists |
| `DispatchLedger.LinkedEventsStay` | src-tauri/src/db.rs:483-537 | Links from events to ledger keys survive the rewrite |
| `DispatchLedger.ImageIs` | src-tauri/src/db.rs:494-511 | The new table holds, for each old row, its project with the migrated key, and nothing else |
| `DispatchLedger.EventsAre` | src-tauri/src/db.rs:514-535 | The same events, each in its project with its key migrated |
| `DispatchLedger.ImageStable` | src-tauri/src/db.rs:483-512 | Running the rewrite again changes nothing; every key comes from one of its own project |
| `PayloadMigration.MigrateCandidateObject` | src-tauri/src/db.rs:637-652 | The candidate loses its legacy kind and gets the key of that kind, of its old key or of the row |
| `PayloadMigration.MigrateReviewPayload` | src-tauri/src/db.rs:654-698 | The key-by-key rewrite of a review payload computes the specified payload |
| `PayloadMigration.MigrateStopPayload` | src-tauri/src/db.rs:700-718 | The key-by-key rewrite of a stop payload computes the specified payload |
| `PayloadMigration.InvocationKeyIff` | src-tauri/src/db.rs:605-635 | The invocation carries the key it was built from exactly when that key is canonical |
| `PayloadMigration.EmptyKeyReplaced` | src-tauri/src/db.rs:605-635 | An empty key is replaced by that of the default skill |
| `PayloadMigration.InvocationExact` | src-tauri/src/db.rs:605-635 | The invocation of every key: it names what stands before the first NUL, or the whole key without one, or the default skill when that is empty; its path is the default one, its key that name, a NUL and the trimmed rest, its command a slash, the name, the PR and the trimmed rest |
| `PayloadMigration.CandidateFixedIff` | src-tauri/src/db.rs:637-652 | A rewritten candidate is current, and exactly the current ones are left as they are |
| `PayloadMigration.CandidateExact` | src-tauri/src/db.rs:637-652 | Field by field: the legacy kind goes; its text, or without a kind that of the old key, or else the row's word, gives the migrated key; every other field stays |
| `PayloadMigration.SecondPassIff` | src-tauri/src/db.rs:654-698 | The payload rewrite is idempotent exactly outside one family of explicit requests |
| `PayloadMigration.SecondPassCounterexample` | src-tauri/src/db.rs:671-679 | A payload that a second pass changes again |
| `PayloadMigration.StopIdempotent` | src-tauri/src/db.rs:700-718 | The stop rewrite is idempotent on every JSON value |
| `PayloadMigration.StopExact` | src-tauri/src/db.rs:700-718 | Field by field: a legacy kind goes and its word, or `review` when it is no text, gives the key; without a kind a key that is text is migrated; nothing else changes |
| `PayloadMigration.OnlyIdentityChanges` | src-tauri/src/db.rs:654-698 | No other key of a payload changes, and a present invocation never does |
| `PayloadMigration.OnlyKeyChanges` | src-tauri/src/db.rs:641-651 | No other key of a candidate changes |
| `PayloadMigration.TaggedBecomesAutomatic` | src-tauri/src/db.rs:680-695 | A tagged legacy payload parses as an automatic one for the same candidate, with an invocation for its PR |
| `PayloadMigration.ExplicitCarried` | src-tauri/src/db.rs:671-679 | An explicit request without an invocation stays the same request for the same PR and gets the invocation of its row's kind |
| `PayloadMigration.StopCarried` | src-tauri/src/db.rs:707-712 | A legacy stop still names the same PR, and the session its legacy kind stands for |
| `PayloadMigration.CanonicalInvocation` | src-tauri/src/db.rs:605-635 | For a canonical key the invocation has that key and name, and its command names skill, PR and arguments |
| `PayloadMigration.LegacyWordsCanonical` | src-tauri/src/model.rs:296-302 | Both legacy words become canonical keys of the default skill |
| `PayloadMigration.LegacyCommands` | src-tauri/src/db.rs:605-635 | The command of a migrated review is a slash, the default skill and the PR, and that of a check has its flag behind it |
| `OutboxRebuild.Table.ApplyV15` | src-tauri/src/db.rs:1130-1225 | The three statements and the rebuild of the outbox produce the specified table, or nothing after the rollback |
| `OutboxRebuild.Table.MigratePayloads` | src-tauri/src/db.rs:566-599 | The loop over a snapshot rewrites the payload of each row as specified and changes no other column |
| `OutboxRebuild.Table.ApplyV18` | src-tauri/src/db.rs:472-477 | Payload loop and rebuild produce the specified table whenever its constraints hold |
| `OutboxCarry.V15SucceedsIff` | src-tauri/src/db.rs:1187-1225 | v15 succeeds exactly when every row has a known kind and status and a candidate that can be read; neither unique index is violated |
| `OutboxCarry.V15Keeps` | src-tauri/src/db.rs:1130-1217 | Row by row: an unreadable payload becomes an empty object on a dead row, a pending notification without its notification is dead with its payload kept, each with its error; a bare review or check is tagged automatic around its candidate as SQLite extracts it; status, error and payload of every other row stay, and place, id, project, kind, summary and dedupe key of all; producers are the legacy identities, threads are empty |
| `OutboxCarry.V18Keeps` | src-tauri/src/db.rs:566-760 | v18 succeeds on every table v15 can hold. Every column but kind and payload stays; review and check become skill runs; the payload is rewritten by the kind the row had, as a review, a stop, or not at all |
| `OutboxCarry.V18SucceedsIff` | src-tauri/src/db.rs:721-760 | v18 succeeds exactly when every row has a known kind and status, a readable payload, a producer and a thread only on reviews, no two rows share a producer, and no two unfinished ones a dedupe key |
| `OutboxCarry.LegacyStopCarried` | src-tauri/src/db.rs:582-588 | Through both rebuilds a legacy stop row stays a stop with its id, status and dedupe key, and parses as a stop of the same PR for the session its legacy word migrates to |
| `OutboxCarry.LegacyExplicitCarried` | src-tauri/src/db.rs:582-588 | Through both rebuilds a tagged explicit request becomes a skill run of the same request, with the invocation of the skill its row's kind migrates to; id, status and dedupe key stay |
| `OutboxCarry.OtherPayloadStays` | src-tauri/src/db.rs:582-588 | A readable payload of any other kind is the same JSON after both rebuilds |
| `OutboxCarry.BothSucceed` | src-tauri/src/db.rs:1130-1225 | Both rebuilds in a row succeed on every convertible table |
| `OutboxCarry.LegacyReviewCarried` | src-tauri/src/db.rs:1138-1145 | A legacy review row becomes a skill run with an automatic payload: same candidate, migrated key, invocation for that PR, same id, status and dedupe key |
| `OutboxCarry.LegacyReviewKeysAgree` | src-tauri/src/db.rs:641-651 | Candidate and invocation carry the one key the legacy word migrates to |
| `SsePump.SearchSpec` | src/transport/http.ts:101-101 | The search finds the first position of a separator, or none |
| `SsePump.Reader.DispatchFrame` | src/transport/http.ts:68-74 | A frame hands over its joined data lines, or nothing |
| `SsePump.Reader.Read` | src/transport/http.ts:97-107 | One chunk: the inner loop cuts exactly the frames of buffer and chunk together |
| `SsePump.Reader.Finish` | src/transport/http.ts:108-109 | A tail that is not blank is dispatched at the end |
| `SsePump.Pump` | src/transport/http.ts:89-110 | The whole pump delivers what the specification says for these chunks |
| `SseRoundTrip.RoundTrip` | src/transport/http.ts:68-110 | Every list of one-line payloads comes out as it went in, for every cutting of the text into chunks, each event with line ends of its own, unless one before the last ends in CR LF LF |
| `SseRoundTrip.RoundTripIff` | src/transport/http.ts:89-110 | The streams of one-line events that come through every cutting are exactly those; the others lose events when read at once |
| `SseRoundTrip.FrameDecoded` | src/transport/http.ts:68-74 | A frame of any lines, each ending in LF or CRLF, yields its data lines without leading white space, joined; every other line is skipped |
| `SseRoundTrip.JoinedBy` | src/transport/http.ts:72-73 | Joining puts one line feed between neighbours and nothing around |
| `SseChunking.UniformLineEnds` | src/transport/http.ts:100-106 | Without carriage returns, or with only CRLF, neither the reader's state nor what is handed over depends on the chunks |
| `SseChunking.DeliveryIrrelevantIff` | src/transport/http.ts:89-110 | For every text: what is handed to the parser does not depend on the chunks exactly when at each CR LF LF the reader can come to, the rest hands over the same with and without its first character |
| `SseChunking.ChunkingIrrelevantIff` | src/transport/http.ts:101-104 | The same for the reader's state, the frames cut and the buffer left together: there the rest must leave the same state with and without that character |
| `SseChunking.SafeIffNoShort` | src/transport/http.ts:101-104 | For texts that do not end in CR LF LF the state is independent of the chunks exactly when the reader never cuts at one |
| `SseChunking.LossCanBeHarmless` | src/transport/http.ts:104-104 | A text with CR LF LF whose state does not depend on the chunks all the same |
| `SseChunking.LossInTheTail` | src/transport/http.ts:104-109 | A text whose state depends on the chunks while what is handed over does not |
| `SseRoundTrip.ChunkingMatters` | src/transport/http.ts:104-104 | Two events with CR LF LF between them: both are handed over when they come in a chunk each, the first alone when they come together |
| `ReviewPanel.ReviewStore.ResolveStart` | src/review/useReviewStore.ts:323-328 | The known id is set and the buffer replayed in order |
| `ReviewPanel.ReviewStore.MergeHistory` | src/review/useReviewStore.ts:470-482 | History first, then the live items it lacks; nothing when the focus moved on |
| `ReviewPanel.StartedPanelShowsItsThread` | src/review/useReviewStore.ts:309-343 | Unless a session is focused in between: whatever arrives from any threads before and after the id is known, the panel is the fold of the started thread's own deltas |
| `ReviewPanel.FailedStartIsForgotten` | src/review/useReviewStore.ts:329-332 | A start that fails leaves an empty, stopped panel with the error; nothing that was buffered for it, or arrives afterwards, is in what the next start or the next focused session shows |
| `ReviewPanel.FoldGroups` | src/review/useReviewStore.ts:240-244 | The fold lists ids by first appearance, each once, with the kind of its first delta and its texts concatenated in order |
| `ReviewPanel.StartedPanelSettles` | src/review/useReviewStore.ts:292-328 | Unless a session is focused in between: a started panel runs until an event of its own thread ends it or the focus is dropped while the id is unknown, and shows the last status and the last error of its own events, those of the window included |
| `ReviewPanel.OpenedSettles` | src/review/useReviewStore.ts:451-462 | A focused session runs exactly when its listed status is live and no event of its own has ended it; its status and error are the last of its own events, or what its listed status says |
| `ReviewPanel.WindowKeepsNotices` | src/review/useReviewStore.ts:251-254 | Whatever happens while an id is unknown and whether the start succeeds or fails, every project shows its last dispatch notice: none is lost, delayed or repeated by the replay |
| `ReviewPanel.FocusInWindow` | src/review/useReviewStore.ts:275-285 | For any number of focuses, dropped focuses, history reads and further starts while the id is unknown: the panel shows what the session focused last showed, then the started thread's deltas of the unfocused times and of after the resolve |
| `ReviewPanel.AlwaysShowsOwnIff` | src/review/useReviewStore.ts:275-285 | For the moves of a window, the steps other than arrivals: the panel is the started thread's own deltas for every panel, every arrival of events among the moves, every id and all later events, exactly when no session is focused among them |
| `ReviewPanel.FocusedDeltaIsLost` | src/review/useReviewStore.ts:275-285 | A delta of the started session that arrives while another one is focused is not in the panel |
| `ReviewPanel.ShownFolds` | src/review/useReviewStore.ts:285-298 | What the session focused last showed, without a history read, is the fold of its deltas since it was focused |
| `ReviewPanel.OpenedSession` | src/review/useReviewStore.ts:463-482 | The merge changes the items alone: history is a prefix, then every live item it lacks, in order, ids unique; later deltas go on from there |
| `ReviewPanel.AbsentOrder` | src/review/useReviewStore.ts:478-481 | The live items that are kept stand in their old order, and are exactly those the history lacks |
| `ReviewPanel.SupersededHistory` | src/review/useReviewStore.ts:472-472 | A history response for a session no longer in focus changes nothing |
| `SessionRefresh.IdleListIsFresh` | src/review/useReviewStore.ts:198-230 | At most one read at a time; an idle list is no older than the latest request exactly when the last read was not rejected |
| `SessionRefresh.NoRejectionNeverStale` | src/review/useReviewStore.ts:198-230 | Without rejections an idle list is never older than the latest request |
| `SessionRefresh.ShownIsLastAnswer` | src/review/useReviewStore.ts:218-227 | Over every run what is shown is all of the last answered list, ascending by thread; nothing before the first answer; a rejection leaves it |
| `SessionRefresh.RejectionDropsTheQueue` | src/review/useReviewStore.ts:225-229 | A rejection drops the waiting request |
| `SessionRefresh.SessionStore.Refresh` | src/review/useReviewStore.ts:210-220 | A request issues a read or queues one |
| `SessionRefresh.SessionStore.ListArrived` | src/review/useReviewStore.ts:221-224 | An answer is shown sorted, and a queued request starts the next read |
| `SessionRefresh.SessionStore.ListRejected` | src/review/useReviewStore.ts:225-229 | A rejection ends the loop and keeps the list |
| `TerminalReplay.TerminalStore.PushRawReplay` | src/terminal/useTerminalStore.ts:67-74 | The dropping loop leaves the specified ring, and the counter equals its bytes |
| `TerminalReplay.TerminalStore.RegisterScreenSink` | src/terminal/useTerminalStore.ts:96-103 | A new pane gets the frame, or the ring in order |
| `TerminalReplay.TerminalStore.ApplyEvent` | src/terminal/useTerminalStore.ts:263-332 | Each event changes connection, replay and pane as specified; other sessions are dropped |
| `TerminalReplay.RingIsLongestReplay` | src/terminal/useTerminalStore.ts:67-74 | After any pushes the ring is the longest suffix of whole chunks within the cap, or the last chunk alone |
| `TerminalReplay.LongestReplayUnique` | src/terminal/useTerminalStore.ts:56-60 | There is only one such suffix |
| `TerminalReplay.PaneLog` | src/terminal/useTerminalStore.ts:96-109 | For any pane at the attach and any mounts, unmounts and events since: a pane that stayed has its old log and all output since the attach behind it; any other has one contiguous suffix of that output, at least the ring |
| `TerminalReplay.SessionTracked` | src/terminal/useTerminalStore.ts:263-332 | At every moment of any session that has not ended, under any events of other sessions and any mounts: the connection is that of its last attach or error, the frame its newest, and the ring the longest replay of its raw output |
| `TerminalReplay.MountedPane` | src/terminal/useTerminalStore.ts:92-103 | A pane that registers at any moment of any session is first given the newest frame, or without one the longest replay, and then each of the session's own writes in order |
| `TerminalReplay.EndedSession` | src/terminal/useTerminalStore.ts:277-293 | The end of a session closes the connection, forgets frame and ring and leaves the pane alone |
| `TerminalReplay.NothingComesIn` | src/terminal/useTerminalStore.ts:263-296 | After it nothing comes in, whatever is delivered: the connection stays unless the terminal fails as a whole, a pane keeps what it has and a new one is given nothing |
| `TerminalReplay.PaneContiguousIff` | src/terminal/useTerminalStore.ts:126-155 | Byte by byte: a mounted pane shows one contiguous suffix of the output since the attach, at least the ring, exactly when it was mounted anew since then or its log showed nothing |
| `TerminalReplay.SwitchedPaneKeepsOldOutput` | src/terminal/TerminalView.vue:182-191 | A mounted pane with output of one session shows it in front of the next session's |
| `EntryList.EntryStore.OnUpdated` | src/outbox/useOutboxStore.ts:60-71 | A scoped list ignores other projects |
| `EntryList.BothListsSortById` | src/workflow/useWorkflowStore.ts:56-64 | Both comparators are strict orders that tell different ids apart |
| `EntryList.PushedHolds` | src/outbox/useOutboxStore.ts:86-94 | After any updates the list holds the latest accepted entry per id, once each, strictly sorted |
| `EntryList.ListIsSortedLatest` | src/workflow/useWorkflowStore.ts:39-64 | It is the only such listing |
| `EntryList.ListShows` | src/outbox/useOutboxStore.ts:60-71 | A list shows nothing but its snapshot and what was pushed for its project, any project when it is not scoped, and of each id the last such push |
| `SessionTree.GroupSessions` | src/terminal/sessionTree.ts:21-50 | The nested maps and sorts compute the specified tree |
| `SessionTree.TreeIgnoresOrder` | src/terminal/sessionTree.ts:18-20 | The tree is the same for every permutation of the sessions |
| `SessionTree.TreeComplete` | src/terminal/sessionTree.ts:21-50 | Flattening the tree gives every session exactly once |
| `SessionTree.TreeOrdered` | src/terminal/sessionTree.ts:37-49 | Windows, tabs and sessions are strictly ordered, no group is empty, every session is under its own window and tab |
| `RuleIds.NextRuleId` | src/config/ruleDraft.ts:18-23 | The search ends and returns the least unused id, at most one more than there are rules |
| `PollSnapshot.CanonicalIsSet` | src-tauri/src/lib.rs:1407-1409 | Sorting and deduplicating labels is a canonical form of their set |
| `PollSnapshot.NormalizeExact` | src-tauri/src/lib.rs:1398-1434 | Refused exactly without an observation or a project id. Else the event has the polled source, repository, type, subject and time, its labels in canonical form, and as key the digest of all of that but the time, with the candidate |
| `PollSnapshot.SameKeyIff` | src-tauri/src/lib.rs:1398-1434 | Two snapshots share a dedupe key exactly when all but receipt time and label order and repetition agree |

## Left out

- Command line: a run ends with the receipt; `--watch`, printing and the HTTP layer are not modelled, and answers are a parameter.
- Error texts: errors are values that name the failing check, not the messages.
- Review protocol: authentication, listener capability checks and the start of the completion workflow are reduced to whether they succeed; project and skill resolution are parameters.
- Messaging: `prepare_send` and integration settings are reduced to the prepared message or a refusal.
- Notifications: a message's level, and its serialized text, which is a parameter of the message and the channel.
- Rule planning: matching, candidates and payload serialization; plans are inputs, except that of a review request and the keys of notify actions. That rule and action ids are unique is taken from the configuration check.
- Inbox retention is modelled for the review protocol only; cascading deletes of old traces are not.
- "Runs once" means one outbox row. That the executor of a skill run may be tried again for one row, and its own claim against duplicates, are not modelled.
- Outbox worker: claiming, backoff, staleness and the executors; only their effect on statuses enters the runs, as arbitrary changes that respect the unique indexes.
- Attempt counts, timestamps other than the next attempt, and panel-only columns; in the rebuilds they are copied unchanged.
- Migrations: the inbox rewrite of v15, the workflow retirement, the column renames and two-word updates of v18; crash recovery between schema steps.
- JSON text, SHA-256, base64 and UTF-8 decoding: payloads are JSON values, the digest is an injective function, chunks are characters, decoded output is bytes or nothing. Characters are Unicode scalar values with their UTF-8 lengths.
- Event stream: the JSON parser, handler exceptions and reconnects; a payload is the text handed to the parser.
- Review store: follow-up messages, stopping, the Cursor server, `activePr`, and reattaching to a live session.
- Session refresh: the list call is answered or rejected at some later step; that it is eventually answered is not assumed.
- Terminal panes: a log is what the pane was told to write; that a full frame resets the emulator is not modelled.
- Terminal store: the picker list, input, resize, and the detach of the previous session before an attach.
- List stores: the race between a snapshot and pushes inside `refresh`, loading flags and cycle errors.
- `localeCompare` is any strict total order on ids; where two different ids compare equal the tree is not claimed to be canonical.
- File-system confinement of skill paths, process spawning, Tauri wiring, and form validation.
