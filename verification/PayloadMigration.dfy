/** The v18 rewrite of outbox payloads: legacy review, check and stop payloads get a skill identity
    and a resolved invocation. Payloads are JSON values; text that is not JSON is left as it is. */
module PayloadMigration {
  import opened Model
  import opened Text
  import opened SkillIdentity
  import opened CommandRendering
  import K = ProducerKeys

  datatype Json = JNull | JBool(b: bool) | JInt(n: int) | JFloat(lexeme: string) | JStr(s: string)
                | JArr(items: seq<Json>) | JObj(fields: map<string, Json>)

  /** `Value::as_u64` */
  function AsU64(v: Json): Option<nat> {
    if v.JInt? && 0 <= v.n <= U64_MAX then Some(v.n) else None
  }

  function Get(fields: map<string, Json>, key: string): Option<Json> {
    if key in fields then Some(fields[key]) else None
  }

  const DEFAULT_COMMAND_TEMPLATE := "/{skill} {pr}"

  // ---------------------------------------------------------------- the invocation

  function SplitKey(key: string): (string, string) {
    match SplitOnce(key, NUL)
    case Some((name, extra)) => (if name == "" then DEFAULT_SKILL_NAME else name, extra)
    case None => (if key == "" then DEFAULT_SKILL_NAME else key, "")
  }

  function InvocationFor(key: string, pr: nat): Invocation {
    var (name, extra) := SplitKey(key);
    Build(name, Some(DEFAULT_SKILL_PATH), RenderCommand(DEFAULT_COMMAND_TEMPLATE, name, pr, "", extra), extra)
  }

  function Written(name: string, path: string, command: string, key: string): Json {
    JObj(map["skillName" := JStr(name), "skillPath" := JStr(path), "command" := JStr(command), "skillKey" := JStr(key)])
  }

  /** `migrate_v18_build_invocation` */
  function InvocationJson(key: string, pr: nat): Json {
    var i := InvocationFor(key, pr);
    Written(i.skillName, i.skillPath.value, i.command, i.skillKey)
  }

  /** The keys the current code writes: a name, one NUL, and trimmed arguments. */
  predicate Canonical(key: string) {
    match SplitOnce(key, NUL)
    case Some((name, extra)) => name != "" && Trimmed(extra, RustSpace)
    case None => false
  }

  lemma InvocationKey(key: string, pr: nat)
    ensures InvocationFor(key, pr).skillKey == SplitKey(key).0 + [NUL] + Trim(SplitKey(key).1, RustSpace)
  {
  }

  lemma SameTailIff(name: string, a: string, b: string)
    ensures name + [NUL] + a == name + [NUL] + b <==> a == b
  {
    assert (name + [NUL] + a)[|name| + 1..] == a && (name + [NUL] + b)[|name| + 1..] == b;
  }

  lemma NamelessKey(key: string, extra: string)
    requires key != "" && key[0] == NUL
    ensures DEFAULT_SKILL_NAME + [NUL] + extra != key
  {
    assert (DEFAULT_SKILL_NAME + [NUL] + extra)[0] == 'p';
  }

  lemma NulInside(key: string, name: string, extra: string)
    requires NUL !in key
    ensures name + [NUL] + extra != key
  {
    assert (name + [NUL] + extra)[|name|] == NUL;
  }

  /** The invocation carries the key it was built from exactly when that key is canonical. */
  lemma InvocationKeyIff(key: string, pr: nat)
    ensures InvocationFor(key, pr).skillKey == key <==> Canonical(key)
  {
    InvocationKey(key, pr);
    SplitOnceSpec(key, NUL);
    match SplitOnce(key, NUL)
    case Some((name, extra)) =>
      TrimFixedPoint(extra, RustSpace);
      if name == "" {
        NamelessKey(key, Trim(extra, RustSpace));
      } else {
        SameTailIff(name, Trim(extra, RustSpace), extra);
      }
    case None => NulInside(key, SplitKey(key).0, Trim(SplitKey(key).1, RustSpace));
  }

  /** The key discovery may stamp, the empty one, is replaced by that of the default skill. */
  lemma EmptyKeyReplaced(key: string, pr: nat)
    requires key == ""
    ensures InvocationFor(key, pr).skillKey == DEFAULT_SKILL_NAME + [NUL] + "" && InvocationFor(key, pr).skillKey != key
  {
    InvocationKey(key, pr);
    SplitOnceNone(key, NUL);
    assert Trim("", RustSpace) == "";
    assert |DEFAULT_SKILL_NAME + [NUL] + ""| > 0;
  }

  // ---------------------------------------------------------------- what the rewrite computes

  function LegacyWord(fields: map<string, Json>, fallback: string): string {
    var found := if "kind" in fields then Some(fields["kind"]) else Get(fields, "skillKey");
    if found.Some? && found.value.JStr? then found.value.s else fallback
  }

  function CandidateKey(candidate: Json, fallback: string): string {
    MigrateSkillKey(if candidate.JObj? then LegacyWord(candidate.fields, fallback) else fallback)
  }

  function MigratedCandidate(candidate: Json, fallback: string): Json {
    if candidate.JObj? then JObj((candidate.fields - {"kind"})["skillKey" := JStr(CandidateKey(candidate, fallback))])
    else candidate
  }

  function WithCandidate(fields: map<string, Json>, fallback: string): map<string, Json> {
    if "candidate" in fields then fields["candidate" := MigratedCandidate(fields["candidate"], fallback)] else fields
  }

  predicate Explicit(fields: map<string, Json>) {
    "kind" in fields && fields["kind"] == JStr("explicit")
  }

  function OrZero(n: Option<nat>): nat {
    if n.Some? then n.value else 0
  }

  function ExplicitPr(fields: map<string, Json>): nat {
    OrZero(if "prNumber" in fields then AsU64(fields["prNumber"]) else None)
  }

  function CandidatePr(fields: map<string, Json>): nat {
    OrZero(if "candidate" in fields && fields["candidate"].JObj? && "number" in fields["candidate"].fields
           then AsU64(fields["candidate"].fields["number"]) else None)
  }

  function ReviewFields(kind: string, fields: map<string, Json>): map<string, Json> {
    if "invocation" in fields then WithCandidate(fields, kind)
    else if Explicit(fields) then
      fields["invocation" := InvocationJson(MigrateSkillKey(kind), ExplicitPr(fields))]
    else
      var key := if "candidate" in fields then CandidateKey(fields["candidate"], kind) else MigrateSkillKey(kind);
      WithCandidate(fields, kind)["invocation" := InvocationJson(key, CandidatePr(fields))]
  }

  function ReviewPayload(kind: string, payload: Json): Json {
    if payload.JObj? then JObj(ReviewFields(kind, payload.fields)) else payload
  }

  function StopPayload(payload: Json): Json {
    if !payload.JObj? then payload
    else if "kind" in payload.fields then
      var word := if payload.fields["kind"].JStr? then payload.fields["kind"].s else "review";
      JObj((payload.fields - {"kind"})["skillKey" := JStr(MigrateSkillKey(word))])
    else if "skillKey" in payload.fields && payload.fields["skillKey"].JStr? then
      JObj(payload.fields["skillKey" := JStr(MigrateSkillKey(payload.fields["skillKey"].s))])
    else payload
  }

  // ---------------------------------------------------------------- the rewrite, key by key

  method Remove(fields: map<string, Json>, key: string) returns (removed: Option<Json>, left: map<string, Json>)
    ensures removed == Get(fields, key) && left == fields - {key}
  {
    removed := Get(fields, key);
    left := fields - {key};
  }

  /** `migrate_v18_candidate_object`: the object in place, and the key it now has. */
  method MigrateCandidateObject(candidate: Json, fallback: string) returns (after: Json, key: string)
    ensures after == MigratedCandidate(candidate, fallback) && key == CandidateKey(candidate, fallback)
  {
    if !candidate.JObj? { return candidate, MigrateSkillKey(fallback); }
    var legacy, obj := Remove(candidate.fields, "kind");
    if legacy.None? { legacy := Get(obj, "skillKey"); }
    var word := if legacy.Some? && legacy.value.JStr? then legacy.value.s else fallback;
    key := MigrateSkillKey(word);
    obj := obj["skillKey" := JStr(key)];
    after := JObj(obj);
  }

  /** The candidate of a payload without an invocation, rewritten in place; its key and its PR. */
  method MigrateCandidateOf(fields: map<string, Json>, kind: string)
    returns (obj: map<string, Json>, key: string, pr: Option<nat>)
    ensures obj == WithCandidate(fields, kind) && OrZero(pr) == CandidatePr(fields)
    ensures key == if "candidate" in fields then CandidateKey(fields["candidate"], kind) else MigrateSkillKey(kind)
  {
    obj, key, pr := fields, MigrateSkillKey(kind), None;
    if "candidate" in obj {
      var candidate;
      candidate, key := MigrateCandidateObject(obj["candidate"], kind);
      NumberStays(obj["candidate"], kind);
      if candidate.JObj? && "number" in candidate.fields { pr := AsU64(candidate.fields["number"]); }
      obj := obj["candidate" := candidate];
    }
  }

  lemma NumberStays(candidate: Json, kind: string)
    ensures var after := MigratedCandidate(candidate, kind);
            after.JObj? == candidate.JObj?
                && (candidate.JObj? ==> Get(after.fields, "number") == Get(candidate.fields, "number"))
  {
    assert |"number"| == 6 && |"kind"| == 4 && |"skillKey"| == 8;
  }

  /** `migrate_v18_review_payload` */
  method MigrateReviewPayload(kind: string, payload: Json) returns (after: Json)
    ensures after == ReviewPayload(kind, payload)
  {
    if !payload.JObj? { return payload; }
    var obj := payload.fields;
    if "invocation" in obj {
      if "candidate" in obj {
        var candidate, _ := MigrateCandidateObject(obj["candidate"], kind);
        obj := obj["candidate" := candidate];
      }
      return JObj(obj);
    }
    var tag := if "kind" in obj && obj["kind"].JStr? then obj["kind"].s else "automatic";
    assert tag == "explicit" <==> Explicit(payload.fields) by { assert |"explicit"| == 8 && |"automatic"| == 9; }
    if tag == "explicit" {
      var pr := if "prNumber" in obj then AsU64(obj["prNumber"]) else None;
      obj := obj["invocation" := InvocationJson(MigrateSkillKey(kind), OrZero(pr))];
    } else {
      var key, pr;
      obj, key, pr := MigrateCandidateOf(obj, kind);
      obj := obj["invocation" := InvocationJson(key, OrZero(pr))];
    }
    after := JObj(obj);
  }

  /** `migrate_v18_stop_review_payload` */
  method MigrateStopPayload(payload: Json) returns (after: Json)
    ensures after == StopPayload(payload)
  {
    if !payload.JObj? { return payload; }
    var legacy, obj := Remove(payload.fields, "kind");
    if legacy.Some? {
      var word := if legacy.value.JStr? then legacy.value.s else "review";
      obj := obj["skillKey" := JStr(MigrateSkillKey(word))];
    } else if "skillKey" in obj && obj["skillKey"].JStr? {
      obj := obj["skillKey" := JStr(MigrateSkillKey(obj["skillKey"].s))];
    }
    assert legacy.None? ==> payload.fields - {"kind"} == payload.fields;
    after := JObj(obj);
  }

  // ---------------------------------------------------------------- idempotence

  /** A candidate the rewrite leaves alone: no legacy kind, and a key that is no legacy word. */
  predicate CandidateCurrent(candidate: Json) {
    candidate.JObj? ==>
      && "kind" !in candidate.fields
      && "skillKey" in candidate.fields && candidate.fields["skillKey"].JStr?
      && candidate.fields["skillKey"].s != "review" && candidate.fields["skillKey"].s != "check"
  }

  lemma MigratedWord(word: string)
    ensures MigrateSkillKey(word) == word <==> word != "review" && word != "check"
    ensures MigrateSkillKey(word) != "review" && MigrateSkillKey(word) != "check"
  {
    DefaultKeys();
    assert |MigrateSkillKey("review")| == 10 && |MigrateSkillKey("check")| == 17;
  }

  /** A rewritten candidate is current, and exactly the current ones are left as they are. */
  lemma CandidateFixedIff(candidate: Json, fallback: string)
    ensures CandidateCurrent(MigratedCandidate(candidate, fallback))
    ensures MigratedCandidate(candidate, fallback) == candidate <==> CandidateCurrent(candidate)
  {
    if candidate.JObj? {
      MigratedWord(LegacyWord(candidate.fields, fallback));
      RewrittenFields(candidate.fields, CandidateKey(candidate, fallback));
    }
  }

  lemma RewrittenFields(fields: map<string, Json>, key: string)
    ensures var after := (fields - {"kind"})["skillKey" := JStr(key)];
      && "kind" !in after && "skillKey" in after && after["skillKey"] == JStr(key)
      && (after == fields <==> "kind" !in fields && "skillKey" in fields && fields["skillKey"] == JStr(key))
  {
    var after := (fields - {"kind"})["skillKey" := JStr(key)];
    assert "kind" != "skillKey" by { assert |"kind"| == 4 && |"skillKey"| == 8; }
    if "kind" !in fields && "skillKey" in fields && fields["skillKey"] == JStr(key) {
      assert fields - {"kind"} == fields;
      assert after == fields;
    }
  }

  /** The one family a first pass leaves unfinished: an explicit request without an invocation that
      also has a candidate object in legacy form. */
  predicate HalfMigrated(payload: Json) {
    payload.JObj? && "invocation" !in payload.fields && Explicit(payload.fields)
    && "candidate" in payload.fields && !CandidateCurrent(payload.fields["candidate"])
  }

  /** The rewrite is idempotent exactly outside that family, whatever the row kinds of the passes. */
  lemma SecondPassIff(kind: string, again: string, payload: Json)
    ensures ReviewPayload(again, ReviewPayload(kind, payload)) == ReviewPayload(kind, payload)
            <==> !HalfMigrated(payload)
  {
    if payload.JObj? {
      var once := ReviewFields(kind, payload.fields);
      OnceInvoked(kind, payload.fields);
      assert ReviewFields(again, once) == WithCandidate(once, again);
      CandidateAgain(once, again);
      if "candidate" in payload.fields { CandidateFixedIff(payload.fields["candidate"], kind); }
    }
  }

  /** After a pass there is an invocation, and the candidate is rewritten unless the request was explicit. */
  lemma OnceInvoked(kind: string, fields: map<string, Json>)
    ensures var once := ReviewFields(kind, fields);
      && "invocation" in once && ("candidate" in once <==> "candidate" in fields)
      && ("candidate" in fields ==>
            once["candidate"] == if "invocation" !in fields && Explicit(fields) then fields["candidate"]
                                 else MigratedCandidate(fields["candidate"], kind))
  {
    assert "invocation" != "candidate" by { assert |"invocation"| == 10 && |"candidate"| == 9; }
  }

  /** A payload with an invocation is left alone exactly when its candidate is. */
  lemma CandidateAgain(fields: map<string, Json>, kind: string)
    ensures WithCandidate(fields, kind) == fields <==> ("candidate" in fields ==> CandidateCurrent(fields["candidate"]))
  {
    if "candidate" in fields {
      CandidateFixedIff(fields["candidate"], kind);
      assert WithCandidate(fields, kind)["candidate"] == MigratedCandidate(fields["candidate"], kind);
    }
  }

  /** An input on which a second pass still changes something. */
  lemma SecondPassCounterexample()
    ensures var p := JObj(map["kind" := JStr("explicit"), "candidate" := JObj(map[])]);
            ReviewPayload("review", ReviewPayload("review", p)) != ReviewPayload("review", p)
  {
    var p := JObj(map["kind" := JStr("explicit"), "candidate" := JObj(map[])]);
    assert HalfMigrated(p);
    SecondPassIff("review", "review", p);
  }

  lemma StopFixed(fields: map<string, Json>, key: string)
    requires "kind" !in fields && "skillKey" in fields && fields["skillKey"] == JStr(key) && MigrateSkillKey(key) == key
    ensures StopPayload(JObj(fields)) == JObj(fields)
  {
    assert fields["skillKey" := JStr(key)] == fields;
  }

  /** Stop payloads are rewritten idempotently, on every JSON value. */
  lemma StopIdempotent(payload: Json)
    ensures StopPayload(StopPayload(payload)) == StopPayload(payload)
  {
    if payload.JObj? && "kind" in payload.fields {
      var word := if payload.fields["kind"].JStr? then payload.fields["kind"].s else "review";
      MigrationProperties(word);
      assert "kind" != "skillKey" by { assert |"kind"| == 4 && |"skillKey"| == 8; }
      StopFixed((payload.fields - {"kind"})["skillKey" := JStr(MigrateSkillKey(word))], MigrateSkillKey(word));
    } else if payload.JObj? && "skillKey" in payload.fields && payload.fields["skillKey"].JStr? {
      MigrationProperties(payload.fields["skillKey"].s);
      assert "kind" != "skillKey" by { assert |"kind"| == 4 && |"skillKey"| == 8; }
      StopFixed(payload.fields["skillKey" := JStr(MigrateSkillKey(payload.fields["skillKey"].s))],
                MigrateSkillKey(payload.fields["skillKey"].s));
    }
  }

  /** Nothing but the candidate and the invocation of a payload changes, and an invocation never does. */
  lemma OnlyIdentityChanges(kind: string, fields: map<string, Json>, key: string)
    requires key != "candidate" && key != "invocation"
    ensures Get(ReviewFields(kind, fields), key) == Get(fields, key)
    ensures "invocation" in fields ==> ReviewFields(kind, fields)["invocation"] == fields["invocation"]
  {
    assert Get(WithCandidate(fields, kind), key) == Get(fields, key);
    assert "invocation" != "candidate" by { assert |"invocation"| == 10 && |"candidate"| == 9; }
  }

  /** Nothing but the kind and the skill key of a candidate changes. */
  lemma OnlyKeyChanges(candidate: Json, fallback: string, key: string)
    requires candidate.JObj? && key != "kind" && key != "skillKey"
    ensures MigratedCandidate(candidate, fallback).JObj?
    ensures Get(MigratedCandidate(candidate, fallback).fields, key) == Get(candidate.fields, key)
  {
  }

  /** The stop rewrite, field by field: a legacy kind goes and its word, or `review` when it is no text,
      gives the key; without one a key that is text is migrated; nothing else changes. */
  lemma StopExact(fields: map<string, Json>, other: string)
    requires other != "kind" && other != "skillKey"
    ensures StopPayload(JObj(fields)).JObj?
    ensures var after := StopPayload(JObj(fields)).fields;
            && Get(after, other) == Get(fields, other) && Get(after, "kind") == None
            && match Get(fields, "kind")
               case Some(JStr(word)) => Get(after, "skillKey") == Some(JStr(MigrateSkillKey(word)))
               case Some(_) => Get(after, "skillKey") == Some(JStr(MigrateSkillKey("review")))
               case None =>
                 (match Get(fields, "skillKey")
                  case Some(JStr(key)) => Get(after, "skillKey") == Some(JStr(MigrateSkillKey(key)))
                  case found => Get(after, "skillKey") == found)
  {
    assert |"kind"| == 4 && |"skillKey"| == 8;
  }

  /** The candidate rewrite, field by field: a legacy kind goes; its text, or without one that of the old
      key, or else the row's word, gives the key; nothing else changes. */
  lemma CandidateExact(fields: map<string, Json>, fallback: string, other: string)
    requires other != "kind" && other != "skillKey"
    ensures MigratedCandidate(JObj(fields), fallback).JObj?
    ensures var after := MigratedCandidate(JObj(fields), fallback).fields;
            && Get(after, other) == Get(fields, other) && Get(after, "kind") == None
            && match if Get(fields, "kind").Some? then Get(fields, "kind") else Get(fields, "skillKey")
               case Some(JStr(word)) => Get(after, "skillKey") == Some(JStr(MigrateSkillKey(word)))
               case _ => Get(after, "skillKey") == Some(JStr(MigrateSkillKey(fallback)))
  {
    assert |"kind"| == 4 && |"skillKey"| == 8;
  }

  // ---------------------------------------------------------------- which invocation is built

  /** The name and the arguments a key stands for: what is before and behind its first NUL, a key without
      one being all name; no name means the default skill. */
  predicate StandsFor(key: string, name: string, extra: string) {
    || (name != "" && NUL !in name && key == name + [NUL] + extra)
    || (name == DEFAULT_SKILL_NAME && key == "" + [NUL] + extra)
    || (NUL !in key && extra == "" && name == if key == "" then DEFAULT_SKILL_NAME else key)
  }

  lemma SplitStandsFor(key: string)
    ensures StandsFor(key, SplitKey(key).0, SplitKey(key).1)
  {
    SplitOnceSpec(key, NUL);
    match SplitOnce(key, NUL)
    case Some((name, extra)) => assert key[|name|] == NUL;
    case None =>
  }

  /** A key stands for one name and one text of arguments. */
  lemma StandsForOnce(key: string, name: string, extra: string, name': string, extra': string)
    requires StandsFor(key, name, extra) && StandsFor(key, name', extra')
    ensures name == name' && extra == extra'
  {
    if NUL in key {
      var a := if key == "" + [NUL] + extra then "" else name;
      var b := if key == "" + [NUL] + extra' then "" else name';
      FirstSeparator(a, extra, b, extra', NUL);
    } else {
      NulInside(key, "", extra);
      NulInside(key, "", extra');
      NulInside(key, name, extra);
      NulInside(key, name', extra');
    }
  }

  /** The invocation of every key: it names the skill and path the key stands for, its own key is that
      name, a NUL and the trimmed arguments, and its command is the default template filled. */
  lemma InvocationExact(key: string, pr: nat, name: string, extra: string)
    requires StandsFor(key, name, extra)
    ensures var i := InvocationFor(key, pr);
      && i.skillName == name && i.skillPath == Some(DEFAULT_SKILL_PATH)
      && i.skillKey == name + [NUL] + Trim(extra, RustSpace)
      && (!Collides(name, "pr") && !Collides(name, "repo") ==>
            i.command == "/" + (name + (" " + (Digits(pr) + "")))
                         + (if Trim(extra, RustSpace) == "" then "" else " " + Trim(extra, RustSpace)))
  {
    SplitStandsFor(key);
    StandsForOnce(key, name, extra, SplitKey(key).0, SplitKey(key).1);
    InvocationKey(key, pr);
    if !Collides(name, "pr") && !Collides(name, "repo") { DefaultCommand(name, pr, extra); }
  }

  // ---------------------------------------------------------------- reading the payload back

  /** The fields that are read: a natural number of at most 64 bits, a text, a flag. */
  lemma FieldsRead(fields: map<string, Json>, key: string, n: nat, s: string, b: bool)
    ensures NumberField(fields, key) == Some(n) <==> Get(fields, key) == Some(JInt(n)) && n <= 0xFFFF_FFFF_FFFF_FFFF
    ensures TextField(fields, key) == Some(s) <==> Get(fields, key) == Some(JStr(s))
    ensures FlagField(fields, key) == Some(b) <==> Get(fields, key) == Some(JBool(b))
  {
  }

  function TextField(fields: map<string, Json>, key: string): Option<string> {
    if key in fields && fields[key].JStr? then Some(fields[key].s) else None
  }

  function FlagField(fields: map<string, Json>, key: string): Option<bool> {
    if key in fields && fields[key].JBool? then Some(fields[key].b) else None
  }

  function NumberField(fields: map<string, Json>, key: string): Option<nat> {
    if key in fields then AsU64(fields[key]) else None
  }

  function ParseCandidate(v: Json): Option<Candidate> {
    if !v.JObj? then None
    else
      var f := v.fields;
      var number, sha, ref := NumberField(f, "number"), TextField(f, "headSha"), TextField(f, "headRef");
      var author, cross, draft, key :=
          TextField(f, "author"), FlagField(f, "isCrossRepository"), FlagField(f, "isDraft"), TextField(f, "skillKey");
      if number.None? || sha.None? || ref.None? || author.None? || cross.None? || draft.None? || key.None? then None
      else Some(Candidate(number.value, sha.value, ref.value, author.value, cross.value, draft.value, key.value))
  }

  function ParseInvocation(v: Json): Option<Invocation> {
    if !v.JObj? then None
    else
      var f := v.fields;
      var name, command, key := TextField(f, "skillName"), TextField(f, "command"), TextField(f, "skillKey");
      var path := if "skillPath" !in f || f["skillPath"].JNull? then Some(None)
                  else if f["skillPath"].JStr? then Some(Some(f["skillPath"].s)) else None;
      if name.None? || command.None? || key.None? || path.None? then None
      else Some(Invocation(name.value, path.value, command.value, key.value))
  }

  /** The automatic arm of the tagged payload, which denies unknown fields. */
  function ParseAutomatic(payload: Json): Option<(Candidate, Invocation)> {
    if !payload.JObj? then None
    else
      var f := payload.fields;
      if f.Keys != {"kind", "candidate", "invocation"} || f["kind"] != JStr("automatic") then None
      else
        var candidate, invocation := ParseCandidate(f["candidate"]), ParseInvocation(f["invocation"]);
        if candidate.None? || invocation.None? then None else Some((candidate.value, invocation.value))
  }

  lemma FieldNames()
    ensures "skillName" != "skillPath" && "skillName" != "command" && "skillName" != "skillKey"
    ensures "skillPath" != "command" && "skillPath" != "skillKey" && "command" != "skillKey"
  {
    assert "skillName"[5] != "skillPath"[5];
    assert |"skillName"| == 9 && |"skillPath"| == 9 && |"command"| == 7 && |"skillKey"| == 8;
  }

  lemma WrittenFields(name: string, path: string, command: string, key: string)
    ensures var f := Written(name, path, command, key).fields;
      && "skillName" in f && f["skillName"] == JStr(name) && "skillPath" in f && f["skillPath"] == JStr(path)
      && "command" in f && f["command"] == JStr(command) && "skillKey" in f && f["skillKey"] == JStr(key)
  {
    FieldNames();
  }

  /** What is written is what is read. */
  lemma InvocationRoundTrip(name: string, path: string, command: string, key: string)
    ensures ParseInvocation(Written(name, path, command, key)) == Some(Invocation(name, Some(path), command, key))
  {
    WrittenFields(name, path, command, key);
  }

  /** A candidate as v14 wrote it: all of today's fields but the key, and any further ones. */
  predicate LegacyCandidate(v: Json) {
    v.JObj? && NumberField(v.fields, "number").Some? && TextField(v.fields, "headSha").Some?
        && TextField(v.fields, "headRef").Some?
    && TextField(v.fields, "author").Some? && FlagField(v.fields, "isCrossRepository").Some?
    && FlagField(v.fields, "isDraft").Some?
  }

  function LegacyRead(v: Json, key: string): Candidate
    requires LegacyCandidate(v)
  {
    Candidate(NumberField(v.fields, "number").value, TextField(v.fields, "headSha").value,
        TextField(v.fields, "headRef").value,
              TextField(v.fields, "author").value, FlagField(v.fields, "isCrossRepository").value,
                  FlagField(v.fields, "isDraft").value, key)
  }

  /** An automatic payload before it had an invocation. */
  function AutomaticFields(candidate: Json): map<string, Json> {
    map["kind" := JStr("automatic"), "candidate" := candidate]
  }

  /** A tagged legacy payload becomes an automatic one for the same candidate: every field but the key
      as it was, the key the migrated legacy word, and an invocation built from that key for that PR. */
  lemma TaggedBecomesAutomatic(kind: string, candidate: Json)
    requires LegacyCandidate(candidate)
    ensures var key := CandidateKey(candidate, kind);
            ParseAutomatic(ReviewPayload(kind, JObj(AutomaticFields(candidate))))
            == Some((LegacyRead(candidate, key), InvocationFor(key, NumberField(candidate.fields, "number").value)))
  {
    var key := CandidateKey(candidate, kind);
    var pr := NumberField(candidate.fields, "number").value;
    AutomaticRewrite(kind, candidate);
    InvocationParses(key, pr);
    CandidateReadBack(candidate, kind);
    AutomaticParses(MigratedCandidate(candidate, kind), InvocationJson(key, pr));
  }

  lemma AutomaticNames()
    ensures "kind" != "candidate" && "kind" != "invocation" && "candidate" != "invocation"
    ensures "automatic" != "explicit"
  {
    assert |"kind"| == 4 && |"candidate"| == 9 && |"invocation"| == 10 && |"automatic"| == 9 && |"explicit"| == 8;
  }

  lemma TaggedShape(candidate: Json, after: Json)
    ensures !Explicit(AutomaticFields(candidate)) && "invocation" !in AutomaticFields(candidate)
    ensures "candidate" in AutomaticFields(candidate) && AutomaticFields(candidate)["candidate"] == candidate
    ensures AutomaticFields(candidate)["candidate" := after] == AutomaticFields(after)
  {
    AutomaticNames();
  }

  lemma AutomaticRewrite(kind: string, candidate: Json)
    requires LegacyCandidate(candidate)
    ensures ReviewFields(kind, AutomaticFields(candidate))
            == AutomaticFields(MigratedCandidate(candidate, kind))
               ["invocation" := InvocationJson(CandidateKey(candidate, kind),
                   NumberField(candidate.fields, "number").value)]
  {
    TaggedShape(candidate, MigratedCandidate(candidate, kind));
    assert CandidatePr(AutomaticFields(candidate)) == NumberField(candidate.fields, "number").value;
  }

  lemma AutomaticParses(candidate: Json, invocation: Json)
    requires ParseCandidate(candidate).Some? && ParseInvocation(invocation).Some?
    ensures ParseAutomatic(JObj(AutomaticFields(candidate)["invocation" := invocation]))
            == Some((ParseCandidate(candidate).value, ParseInvocation(invocation).value))
  {
    AutomaticNames();
    var f := AutomaticFields(candidate)["invocation" := invocation];
    assert f.Keys == {"kind", "candidate", "invocation"};
    assert f["candidate"] == candidate && f["invocation"] == invocation && f["kind"] == JStr("automatic");
  }

  lemma CandidateReadBack(candidate: Json, kind: string)
    requires LegacyCandidate(candidate)
    ensures ParseCandidate(MigratedCandidate(candidate, kind))
            == Some(LegacyRead(candidate, CandidateKey(candidate, kind)))
  {
  }

  // ---------------------------------------------------------------- explicit requests and stops

  datatype ExplicitRequest = ExplicitRequest(pr: nat, requestId: string, origin: string, invocation: Invocation)

  predicate OriginWire(s: string) {
    s in ["http", "cli", "remoteWeb", "deepLink", "messagingBot"]
  }

  /** The explicit fields but the invocation. */
  predicate ExplicitFields(f: map<string, Json>, pr: nat, requestId: string, origin: string) {
    Explicit(f) && NumberField(f, "prNumber") == Some(pr)
    && TextField(f, "requestId") == Some(requestId) && K.RequestId(requestId)
    && TextField(f, "origin") == Some(origin) && OriginWire(origin)
  }

  /** Whether the explicit arm of the tagged payload, which denies unknown fields, reads `payload` as `request`. */
  predicate ParsesExplicit(payload: Json, request: ExplicitRequest) {
    payload.JObj? && payload.fields.Keys == {"kind", "prNumber", "requestId", "origin", "invocation"}
    && ExplicitFields(payload.fields, request.pr, request.requestId, request.origin)
    && ParseInvocation(payload.fields["invocation"]) == Some(request.invocation)
  }

  lemma ExplicitNames()
    ensures "invocation" !in {"kind", "prNumber", "requestId", "origin"}
  {
    assert |"invocation"| == 10 && |"kind"| == 4 && |"prNumber"| == 8 && |"requestId"| == 9 && |"origin"| == 6;
  }

  lemma ExplicitInserts(kind: string, f: map<string, Json>, pr: nat)
    requires Explicit(f) && "invocation" !in f && NumberField(f, "prNumber") == Some(pr)
    ensures ReviewPayload(kind, JObj(f)) == JObj(f["invocation" := InvocationJson(MigrateSkillKey(kind), pr)])
  {
    assert ExplicitPr(f) == pr;
  }

  lemma ParsesWith(f: map<string, Json>, v: Json, request: ExplicitRequest)
    requires f.Keys == {"kind", "prNumber", "requestId", "origin"}
    requires ExplicitFields(f, request.pr, request.requestId, request.origin)
             && ParseInvocation(v) == Some(request.invocation)
    ensures ParsesExplicit(JObj(f["invocation" := v]), request)
  {
    ExplicitNames();
    var g := f["invocation" := v];
    assert g.Keys == f.Keys + {"invocation"};
    assert g["invocation"] == v;
  }

  lemma InvocationParses(key: string, pr: nat)
    ensures ParseInvocation(InvocationJson(key, pr)) == Some(InvocationFor(key, pr))
  {
    var i := InvocationFor(key, pr);
    InvocationRoundTrip(i.skillName, i.skillPath.value, i.command, i.skillKey);
  }

  /** An explicit request without an invocation stays the same request, for the same PR, and gets the
      invocation of its row's kind. */
  lemma ExplicitCarried(kind: string, f: map<string, Json>, pr: nat, requestId: string, origin: string)
    requires f.Keys == {"kind", "prNumber", "requestId", "origin"} && ExplicitFields(f, pr, requestId, origin)
    ensures ParsesExplicit(ReviewPayload(kind, JObj(f)),
                           ExplicitRequest(pr, requestId, origin, InvocationFor(MigrateSkillKey(kind), pr)))
  {
    assert "invocation" !in f by { ExplicitNames(); }
    ExplicitInserts(kind, f, pr);
    InvocationParses(MigrateSkillKey(kind), pr);
    ParsesWith(f, InvocationJson(MigrateSkillKey(kind), pr),
               ExplicitRequest(pr, requestId, origin, InvocationFor(MigrateSkillKey(kind), pr)));
  }

  /** `StopReviewActionPayload` */
  function ParseStop(payload: Json): Option<(nat, string)> {
    if !payload.JObj? || NumberField(payload.fields, "prNumber").None? || TextField(payload.fields, "skillKey").None?
        then None
    else Some((NumberField(payload.fields, "prNumber").value, TextField(payload.fields, "skillKey").value))
  }

  /** A legacy stop still names the same PR, and the session its legacy kind stands for. */
  lemma StopCarried(f: map<string, Json>, word: string)
    requires NumberField(f, "prNumber").Some? && "kind" in f && f["kind"] == JStr(word)
    ensures ParseStop(StopPayload(JObj(f))) == Some((NumberField(f, "prNumber").value, MigrateSkillKey(word)))
  {
    assert |"prNumber"| == 8 && |"kind"| == 4;
    assert "prNumber" != "skillKey" by { assert "prNumber"[0] == 'p' && "skillKey"[0] == 's'; }
  }

  // ---------------------------------------------------------------- the default skill

  /** The default template is a slash, the skill, a space and the PR. */
  lemma DefaultCommand(name: string, pr: nat, extra: string)
    requires !Collides(name, "pr") && !Collides(name, "repo")
    ensures RenderCommand(DEFAULT_COMMAND_TEMPLATE, name, pr, "", extra)
            == "/" + (name + (" " + (Digits(pr) + "")))
               + (if Trim(extra, RustSpace) == "" then "" else " " + Trim(extra, RustSpace))
  {
    var t3: seq<Token> := [PrSlot];
    var t2, t1 := [Literal(" ")] + t3, [SkillSlot, Literal(" ")] + t3;
    var t0 := [Literal("/")] + t1;
    assert t0[1..] == t1 && t1[1..] == t2 && t2[1..] == t3 && t3[1..] == [];
    TemplateSource(t0, t1, t2, t3);
    RenderIsFilled(t0, name, pr, "", extra);
    assert Filled(t3, name, Digits(pr), "") == Digits(pr) + "";
    assert Filled(t2, name, Digits(pr), "") == " " + (Digits(pr) + "");
    assert Filled(t1, name, Digits(pr), "") == name + (" " + (Digits(pr) + ""));
  }

  lemma TemplateTail()
    ensures "{pr}" + "" == "{pr}" && " " + "{pr}" == " {pr}"
  {
  }

  lemma TemplateMiddle()
    ensures "{skill}" + " {pr}" == "{skill} {pr}"
  {
  }

  lemma TemplateHead()
    ensures "/" + "{skill} {pr}" == DEFAULT_COMMAND_TEMPLATE
  {
  }

  lemma TemplateSource(t0: seq<Token>, t1: seq<Token>, t2: seq<Token>, t3: seq<Token>)
    requires t0 != [] && t0[0] == Literal("/") && t0[1..] == t1
    requires t1 != [] && t1[0] == SkillSlot && t1[1..] == t2
    requires t2 != [] && t2[0] == Literal(" ") && t2[1..] == t3
    requires t3 == [PrSlot]
    ensures Source(t0) == DEFAULT_COMMAND_TEMPLATE
  {
    TemplateTail();
    TemplateMiddle();
    TemplateHead();
    assert t3[1..] == [];
    assert Source(t3) == "{pr}" + Source([]);
    assert Source(t2) == " " + Source(t3);
    assert Source(t1) == "{skill}" + Source(t2);
    assert Source(t0) == "/" + Source(t1);
  }

  /** For every canonical key: the invocation carries that key and that name, and its command names
      the skill, the PR and the arguments. */
  lemma CanonicalInvocation(name: string, extra: string, pr: nat)
    requires name != "" && NUL !in name && !Collides(name, "pr") && !Collides(name, "repo") && Trimmed(extra, RustSpace)
    ensures var i := InvocationFor(name + [NUL] + extra, pr);
      && i.skillKey == name + [NUL] + extra && i.skillName == name
      && i.command == "/" + (name + (" " + (Digits(pr) + ""))) + (if extra == "" then "" else " " + extra)
  {
    WellFormedKey(name, extra);
    TrimFixedPoint(extra, RustSpace);
    DefaultCommand(name, pr, extra);
  }

  lemma CanonicalForm(key: string, name: string, extra: string)
    requires key == name + [NUL] + extra && name != "" && NUL !in name && Trimmed(extra, RustSpace)
    ensures Canonical(key)
  {
    WellFormedKey(name, extra);
  }

  /** The two legacy words become canonical keys of the default skill. */
  lemma LegacyWordsCanonical(review: string, check: string)
    requires review == MigrateSkillKey("review") && check == MigrateSkillKey("check")
    ensures review == DEFAULT_SKILL_NAME + [NUL] + "" && Canonical(review)
    ensures check == DEFAULT_SKILL_NAME + [NUL] + "--check" && Canonical(check)
  {
    LegacyWords();
    CheckTrims("--check");
    CanonicalForm(review, DEFAULT_SKILL_NAME, "");
    CanonicalForm(check, DEFAULT_SKILL_NAME, "--check");
  }

  lemma DefaultNamePlain(name: string)
    requires name == DEFAULT_SKILL_NAME
    ensures name != "" && NUL !in name && !Collides(name, "pr") && !Collides(name, "repo")
  {
    PlainNameIsSafe(name, "pr");
    PlainNameIsSafe(name, "repo");
  }

  /** The command of a migrated legacy word names the default skill, the PR and, for a check, its flag. */
  lemma LegacyCommands(review: string, check: string, name: string, flag: string, pr: nat)
    requires review == MigrateSkillKey("review") && check == MigrateSkillKey("check")
    requires name == DEFAULT_SKILL_NAME && flag == "--check"
    ensures InvocationFor(review, pr).command == "/" + (name + (" " + (Digits(pr) + ""))) + ""
    ensures InvocationFor(check, pr).command == "/" + (name + (" " + (Digits(pr) + ""))) + (" " + flag)
  {
    LegacyWordsCanonical(review, check);
    DefaultNamePlain(name);
    CheckTrims(flag);
    CommandOf(review, name, "", pr);
    CommandOf(check, name, flag, pr);
  }

  lemma CommandOf(key: string, name: string, extra: string, pr: nat)
    requires key == name + [NUL] + extra && name != "" && NUL !in name && Trimmed(extra, RustSpace)
    requires !Collides(name, "pr") && !Collides(name, "repo")
    ensures InvocationFor(key, pr).command
            == "/" + (name + (" " + (Digits(pr) + ""))) + (if extra == "" then "" else " " + extra)
  {
    CanonicalInvocation(name, extra, pr);
  }
}
