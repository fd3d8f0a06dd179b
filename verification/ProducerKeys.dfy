/** The permanent identities of outbox rows and review actions. Every builder length-frames the
    parts it cannot control, so a key names exactly one producer. */
module ProducerKeys {
  import opened Text

  /** 32 lowercase hexadecimal characters. */
  predicate RequestId(s: string) {
    |s| == 32 && forall i :: 0 <= i < 32 ==> '0' <= s[i] <= '9' || 'a' <= s[i] <= 'f'
  }

  datatype ActionKind = Notification | RunSkill | StopReview | MessagingReply | MessagingSend

  function KindWire(kind: ActionKind): string {
    match kind
    case Notification => "notification"
    case RunSkill => "runSkill"
    case StopReview => "stopReview"
    case MessagingReply => "messagingReply"
    case MessagingSend => "messagingSend"
  }

  /** The text of a rule producer key; `ForRuleAction` guards it. */
  function RuleActionText(inbox: nat, rule: string, action: string): string {
    "inbox:" + (Digits(inbox) + [':'] + ("rule:" + (Frame(rule) + (":action:" + Frame(action)))))
  }

  function DedupeText(project: string, key: string): string {
    "dedupe:" + (Frame(project) + (":" + Frame(key)))
  }

  function ManualText(project: string, kind: ActionKind, nonce: string): string {
    "manual:" + (Frame(project) + (":" + (KindWire(kind) + [':'] + nonce)))
  }

  /** The identity schema v15 gives to rows that predate producer keys. */
  function LegacyText(rowId: nat): string {
    "legacy:" + Digits(rowId)
  }

  function ForRuleAction(inbox: nat, rule: string, action: string): Option<string> {
    if Blank(rule, RustSpace) || Blank(action, RustSpace) then None
    else Some(RuleActionText(inbox, rule, action))
  }

  function ForDedupe(project: string, key: string): Option<string> {
    if Blank(project, RustSpace) || Blank(key, RustSpace) then None
    else Some(DedupeText(project, key))
  }

  function ForManual(project: string, kind: ActionKind, nonce: string): Option<string> {
    if Blank(project, RustSpace) then None
    else Some(ManualText(project, kind, nonce))
  }

  lemma SamePrefix(p: string, a: string, b: string)
    requires p + a == p + b
    ensures a == b
  {
    assert (p + a)[|p|..] == a && (p + b)[|p|..] == b;
  }

  /** A frame at the very end of a text. */
  lemma LastFrameUnique(a: string, b: string)
    requires Frame(a) == Frame(b)
    ensures a == b
  {
    assert Frame(a) + "" == Frame(a) && Frame(b) + "" == Frame(b);
    FrameUnique(a, "", b, "");
  }

  lemma RuleActionKeyUnique(inbox: nat, rule: string, action: string, inbox': nat, rule': string, action': string)
    requires RuleActionText(inbox, rule, action) == RuleActionText(inbox', rule', action')
    ensures inbox == inbox' && rule == rule' && action == action'
  {
    var tail, tail' := ":action:" + Frame(action), ":action:" + Frame(action');
    var body, body' := Frame(rule) + tail, Frame(rule') + tail';
    var rest, rest' := "rule:" + body, "rule:" + body';
    SamePrefix("inbox:", Digits(inbox) + [':'] + rest, Digits(inbox') + [':'] + rest');
    FirstSeparator(Digits(inbox), rest, Digits(inbox'), rest', ':');
    DigitsInjective(inbox, inbox');
    SamePrefix("rule:", body, body');
    FrameUnique(rule, tail, rule', tail');
    SamePrefix(":action:", Frame(action), Frame(action'));
    LastFrameUnique(action, action');
  }

  lemma DedupeKeyUnique(project: string, key: string, project': string, key': string)
    requires DedupeText(project, key) == DedupeText(project', key')
    ensures project == project' && key == key'
  {
    var tail, tail' := ":" + Frame(key), ":" + Frame(key');
    SamePrefix("dedupe:", Frame(project) + tail, Frame(project') + tail');
    FrameUnique(project, tail, project', tail');
    SamePrefix(":", Frame(key), Frame(key'));
    LastFrameUnique(key, key');
  }

  lemma KindWireInjective(kind: ActionKind, kind': ActionKind)
    requires KindWire(kind) == KindWire(kind')
    ensures kind == kind'
  {
    assert |KindWire(kind)| == |KindWire(kind')|;
    assert KindWire(kind)[|KindWire(kind)| - 1] == KindWire(kind')[|KindWire(kind')| - 1];
  }

  lemma ManualKeyUnique(project: string, kind: ActionKind, nonce: string, project': string, kind': ActionKind,
          nonce': string)
    requires ManualText(project, kind, nonce) == ManualText(project', kind', nonce')
    ensures project == project' && kind == kind' && nonce == nonce'
  {
    var rest, rest' := KindWire(kind) + [':'] + nonce, KindWire(kind') + [':'] + nonce';
    SamePrefix("manual:", Frame(project) + (":" + rest), Frame(project') + (":" + rest'));
    FrameUnique(project, ":" + rest, project', ":" + rest');
    SamePrefix(":", rest, rest');
    FirstSeparator(KindWire(kind), nonce, KindWire(kind'), nonce', ':');
    KindWireInjective(kind, kind');
  }

  datatype Producer =
    | RuleProducer(inbox: nat, rule: string, action: string)
    | DedupeProducer(project: string, key: string)
    | ManualProducer(owner: string, kind: ActionKind, nonce: string)
    | LegacyProducer(rowId: nat)

  function KeyText(p: Producer): string {
    match p
    case RuleProducer(inbox, rule, action) => RuleActionText(inbox, rule, action)
    case DedupeProducer(project, key) => DedupeText(project, key)
    case ManualProducer(owner, kind, nonce) => ManualText(owner, kind, nonce)
    case LegacyProducer(rowId) => LegacyText(rowId)
  }

  /** One key, one producer: across all four families, for parts holding any characters at all. */
  lemma KeyTextInjective(p: Producer, q: Producer)
    requires KeyText(p) == KeyText(q)
    ensures p == q
  {
    assert p.RuleProducer? <==> KeyText(p)[0] == 'i';
    assert q.RuleProducer? <==> KeyText(q)[0] == 'i';
    assert p.DedupeProducer? <==> KeyText(p)[0] == 'd';
    assert q.DedupeProducer? <==> KeyText(q)[0] == 'd';
    assert p.ManualProducer? <==> KeyText(p)[0] == 'm';
    assert q.ManualProducer? <==> KeyText(q)[0] == 'm';
    match p {
      case RuleProducer(inbox, rule, action) => RuleActionKeyUnique(inbox, rule, action, q.inbox, q.rule, q.action);
      case DedupeProducer(project, key) => DedupeKeyUnique(project, key, q.project, q.key);
      case ManualProducer(owner, kind, nonce) => ManualKeyUnique(owner, kind, nonce, q.owner, q.kind, q.nonce);
      case LegacyProducer(rowId) =>
        SamePrefix("legacy:", Digits(rowId), Digits(q.rowId));
        DigitsInjective(rowId, q.rowId);
    }
  }

  // ---------------------------------------------------------------- review actions

  /** `{pr}@{head}:{skill}`, refused for PR 0 and for a blank head SHA. */
  function ReviewActionKey(pr: nat, headSha: string, skillKey: string): Option<string> {
    if pr == 0 || Blank(headSha, RustSpace) then None
    else Some(Digits(pr) + "@" + headSha + ":" + skillKey)
  }

  /** The review key is not length-framed: it is unambiguous for SHAs without a colon, and only
      the PR number can be read back in general. */
  lemma ReviewActionKeyUnique(pr: nat, sha: string, skill: string, pr': nat, sha': string, skill': string)
    requires ReviewActionKey(pr, sha, skill).Some?
    requires ReviewActionKey(pr, sha, skill) == ReviewActionKey(pr', sha', skill')
    ensures pr == pr'
    ensures ':' !in sha && ':' !in sha' ==> sha == sha' && skill == skill'
  {
    assert ReviewActionKey(pr, sha, skill).value == Digits(pr) + ['@'] + (sha + [':'] + skill);
    assert ReviewActionKey(pr', sha', skill').value == Digits(pr') + ['@'] + (sha' + [':'] + skill');
    FirstSeparator(Digits(pr), sha + [':'] + skill, Digits(pr'), sha' + [':'] + skill', '@');
    DigitsInjective(pr, pr');
    if ':' !in sha && ':' !in sha' {
      FirstSeparator(sha, skill, sha', skill', ':');
    }
  }
}
