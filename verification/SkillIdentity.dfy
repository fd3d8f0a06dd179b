/** Skill keys, their legacy wire values, and the command a skill invocation carries. */
module SkillIdentity {
  import opened Text

  const DEFAULT_SKILL_NAME := "pr-review"
  const DEFAULT_SKILL_PATH := ".codex/skills/pr-review/SKILL.md"

  const NUL: char := '\0'

  /** `{name}\0{extra.trim()}` */
  function SkillKey(name: string, extra: string): string {
    name + [NUL] + Trim(extra, RustSpace)
  }

  function MigrateSkillKey(wire: string): string {
    if wire == "review" then SkillKey(DEFAULT_SKILL_NAME, "")
    else if wire == "check" then SkillKey(DEFAULT_SKILL_NAME, "--check")
    else wire
  }

  predicate IsSkillKey(wire: string) {
    match SplitOnce(wire, NUL)
    case Some((name, _)) => name != ""
    case None => false
  }

  function ParseSkillKey(wire: string): Option<string> {
    if wire == "review" || wire == "check" then Some(MigrateSkillKey(wire))
    else if IsSkillKey(wire) then Some(wire)
    else None
  }

  lemma TrimmedKey(name: string, extra: string)
    requires Trimmed(extra, RustSpace)
    ensures SkillKey(name, extra) == name + [NUL] + extra
  {
    TrimFixedPoint(extra, RustSpace);
  }

  lemma KeyLiterals()
    ensures DEFAULT_SKILL_NAME + [NUL] + "" == "pr-review\0"
    ensures DEFAULT_SKILL_NAME + [NUL] + "--check" == "pr-review\0--check"
  {
  }

  lemma DefaultKeys()
    ensures SkillKey(DEFAULT_SKILL_NAME, "") == "pr-review\0"
    ensures SkillKey(DEFAULT_SKILL_NAME, "--check") == "pr-review\0--check"
  {
    CheckTrims("--check");
    TrimmedKey(DEFAULT_SKILL_NAME, "");
    TrimmedKey(DEFAULT_SKILL_NAME, "--check");
    KeyLiterals();
  }

  lemma CheckTrims(check: string)
    requires check == "--check"
    ensures Trimmed(check, RustSpace) && Trim(check, RustSpace) == check
  {
    assert check[0] == '-' && check[6] == 'k' && |check| == 7;
    SpaceFree(check, 6);
    TrimStays(check, RustSpace);
  }

  lemma SpaceFree(s: string, last: nat)
    requires |s| == last + 1 && s[0] == '-' && s[last] == 'k'
    ensures Trimmed(s, RustSpace)
  {
    assert !RustSpace('-') && !RustSpace('k');
  }

  lemma WellFormedKey(name: string, extra: string)
    requires NUL !in name && name != ""
    ensures IsSkillKey(name + [NUL] + extra) && SplitOnce(name + [NUL] + extra, NUL) == Some((name, extra))
  {
    SplitOnceAt(name, extra, NUL);
  }

  /** Neither legacy word is a skill key, and both migrate to one. */
  lemma LegacyWords()
    ensures !IsSkillKey("review") && IsSkillKey(MigrateSkillKey("review"))
    ensures !IsSkillKey("check") && IsSkillKey(MigrateSkillKey("check"))
    ensures MigrateSkillKey("review") == DEFAULT_SKILL_NAME + [NUL] + ""
    ensures MigrateSkillKey("check") == DEFAULT_SKILL_NAME + [NUL] + "--check"
  {
    DefaultKeys();
    SplitOnceNone("review", NUL);
    SplitOnceNone("check", NUL);
    WellFormedKey(DEFAULT_SKILL_NAME, "");
    WellFormedKey(DEFAULT_SKILL_NAME, "--check");
  }

  /** Migrating twice is migrating once, and the strict parser accepts exactly the words whose
      migrated form is a skill key, with that form as its answer. */
  lemma MigrationProperties(wire: string)
    ensures MigrateSkillKey(MigrateSkillKey(wire)) == MigrateSkillKey(wire)
    ensures ParseSkillKey(wire) == if IsSkillKey(MigrateSkillKey(wire)) then Some(MigrateSkillKey(wire)) else None
  {
    LegacyWords();
    assert |MigrateSkillKey("review")| == 10 && |MigrateSkillKey("check")| == 17;
  }

  // ---------------------------------------------------------------- dispatch ledger keys

  /** `{pr}@{head}:{skill}`: rewrite what follows the last colon. */
  function MigrateDispatchKey(key: string): string {
    match RSplitOnce(key, ':')
    case None => key
    case Some((prefix, skill)) => prefix + [':'] + MigrateSkillKey(skill)
  }

  /** Idempotent on every string, also one with many colons or none. */
  lemma MigrateDispatchKeyIdempotent(key: string)
    ensures MigrateDispatchKey(MigrateDispatchKey(key)) == MigrateDispatchKey(key)
  {
    match RSplitOnce(key, ':')
    case None =>
    case Some((prefix, skill)) =>
      RSplitOnceSpec(key, ':');
      DefaultKeys();
      MigrationProperties(skill);
      assert ':' !in MigrateSkillKey(skill);
      RSplitOnceAt(prefix, MigrateSkillKey(skill), ':');
  }

  /** For the keys the ledger writes the PR and head are untouched and the skill is migrated. */
  lemma MigrateDispatchKeyMeaning(pr: nat, head: string, skill: string)
    requires ':' !in skill
    ensures MigrateDispatchKey(Digits(pr) + "@" + head + [':'] + skill)
            == Digits(pr) + "@" + head + [':'] + MigrateSkillKey(skill)
  {
    RSplitOnceAt(Digits(pr) + "@" + head, skill, ':');
  }

  // ---------------------------------------------------------------- invocations

  datatype Invocation = Invocation(skillName: string, skillPath: Option<string>, command: string, skillKey: string)

  function Build(skillName: string, skillPath: Option<string>, command: string, extra: string): Invocation {
    Invocation(skillName, skillPath, command, SkillKey(skillName, extra))
  }
}
