/** Rendering a skill's command: three chained replacements against filling every placeholder once. */
module CommandRendering {
  import opened Text

  /** `str::replace`: all non-overlapping occurrences, left to right. */
  function Replace(s: string, pattern: string, with: string): string
    requires pattern != ""
    decreases |s|
  {
    if pattern <= s then with + Replace(s[|pattern|..], pattern, with)
    else if s == "" then ""
    else [s[0]] + Replace(s[1..], pattern, with)
  }

  function RenderCommand(template: string, skillName: string, pr: nat, repo: string, extra: string): string {
    var command := Replace(Replace(Replace(template, "{skill}", skillName), "{pr}", Digits(pr)), "{repo}", repo);
    var tail := Trim(extra, RustSpace);
    if tail == "" then command else command + " " + tail
  }

  // ---------------------------------------------------------------- rendering token by token

  datatype Token = Literal(text: string) | SkillSlot | PrSlot | RepoSlot

  predicate BraceFree(tokens: seq<Token>) {
    forall t :: t in tokens && t.Literal? ==> '{' !in t.text && '}' !in t.text
  }

  function Source(tokens: seq<Token>): string {
    if tokens == [] then ""
    else
      (match tokens[0]
       case Literal(text) => text
       case SkillSlot => "{skill}"
       case PrSlot => "{pr}"
       case RepoSlot => "{repo}") + Source(tokens[1..])
  }

  /** What a reader of the template expects: every slot filled once, nothing substituted twice. */
  function Filled(tokens: seq<Token>, skillName: string, pr: string, repo: string): string {
    if tokens == [] then ""
    else
      (match tokens[0]
       case Literal(text) => text
       case SkillSlot => skillName
       case PrSlot => pr
       case RepoSlot => repo) + Filled(tokens[1..], skillName, pr, repo)
  }

  lemma {:induction false} ReplaceSkips(a: string, s: string, pattern: string, with: string)
    requires '{' !in a && pattern != "" && pattern[0] == '{'
    ensures Replace(a + s, pattern, with) == a + Replace(s, pattern, with)
  {
    if a == "" {
      assert a + s == s;
    } else {
      assert (a + s)[0] == a[0] && a[0] in a;
      assert (a + s)[1..] == a[1..] + s;
      ReplaceSkips(a[1..], s, pattern, with);
    }
  }

  lemma ReplaceHit(s: string, pattern: string, with: string)
    requires pattern != ""
    ensures Replace(pattern + s, pattern, with) == with + Replace(s, pattern, with)
  {
    assert pattern <= pattern + s;
    assert (pattern + s)[|pattern|..] == s;
  }

  /** A slot of another kind is left alone: it starts with `{` and differs in the next character. */
  lemma ReplaceMiss(slot: string, s: string, pattern: string, with: string)
    requires |slot| >= 2 && |pattern| >= 2 && slot[0] == '{' == pattern[0] && slot[1] != pattern[1]
    requires '{' !in slot[1..]
    ensures Replace(slot + s, pattern, with) == slot + Replace(s, pattern, with)
  {
    var t := slot + s;
    assert t[1] == slot[1] && t[0] == slot[0];
    assert !(pattern <= t);
    assert Replace(t, pattern, with) == [t[0]] + Replace(t[1..], pattern, with);
    assert t[1..] == slot[1..] + s;
    ReplaceSkips(slot[1..], s, pattern, with);
    var rest := Replace(s, pattern, with);
    assert [slot[0]] + (slot[1..] + rest) == slot + rest;
  }

  lemma {:induction false} FillSkill(tokens: seq<Token>, skill: string)
    requires BraceFree(tokens)
    ensures Replace(Source(tokens), "{skill}", skill) == Filled(tokens, skill, "{pr}", "{repo}")
  {
    if tokens != [] {
      assert tokens[0] in tokens;
      FillSkill(tokens[1..], skill);
      var rest := Source(tokens[1..]);
      match tokens[0]
      case Literal(text) => ReplaceSkips(text, rest, "{skill}", skill);
      case SkillSlot => ReplaceHit(rest, "{skill}", skill);
      case PrSlot => ReplaceMiss("{pr}", rest, "{skill}", skill);
      case RepoSlot => ReplaceMiss("{repo}", rest, "{skill}", skill);
    }
  }

  // ---------------------------------------------------------------- skill names that spell a placeholder

  function Slot(w: string): string {
    ['{'] + w + ['}']
  }

  predicate NoBraces(s: string) {
    '{' !in s && '}' !in s
  }

  predicate At(s: string, pattern: string, i: int) {
    0 <= i && i + |pattern| <= |s| && s[i..i + |pattern|] == pattern
  }

  ghost predicate Occurs(s: string, pattern: string) {
    exists i :: At(s, pattern, i)
  }

  /** The name ends with an opened placeholder and starts with a closed one that complete each other,
      with `i` and `j` characters of the word, and perhaps more of it in between. */
  predicate Wraps(name: string, w: string, i: int, j: int) {
    && 0 <= i && 0 <= j && i + j <= |w|
    && i + 1 <= |name| && name[|name| - i - 1..] == ['{'] + w[..i]
    && w[|w| - j..] + ['}'] <= name
  }

  /** Some template makes this name spell the placeholder of `w`, inside one name or from one to the next. */
  ghost predicate Collides(name: string, w: string) {
    Occurs(name, Slot(w)) || exists i, j :: Wraps(name, w, i, j)
  }

  /** What a filled slot looks like from outside: no braces, or an opening one right at the start. */
  predicate Piece(s: string) {
    NoBraces(s) || (s != "" && s[0] == '{')
  }

  lemma SkipPiece(piece: string, rest: string, t: string)
    requires Piece(piece) && NoBraces(t) && t + ['}'] <= piece + rest
    ensures piece <= t && t[|piece|..] + ['}'] <= rest && NoBraces(t[|piece|..])
  {
    var all := piece + rest;
    assert forall k :: 0 <= k < |t| ==> all[k] == t[k] && t[k] in t;
    assert forall k :: 0 <= k < |piece| ==> all[k] == piece[k] && piece[k] in piece;
    assert all[|t|] == (t + ['}'])[|t|] == '}';
    assert NoBraces(piece);
    assert |piece| <= |t|;
    assert piece == all[..|piece|] == t[..|piece|];
    assert rest == all[|piece|..] && (t + ['}'])[|piece|..] == t[|piece|..] + ['}'];
  }

  /** The name starts with the last `j` characters of `t`, closed. */
  predicate Closes(name: string, t: string, j: int) {
    0 <= j <= |t| && t[|t| - j..] + ['}'] <= name
  }

  lemma ClosesSooner(name: string, t: string, n: nat)
    requires n <= |t| && exists j :: Closes(name, t[n..], j)
    ensures exists j :: Closes(name, t, j)
  {
    var j :| Closes(name, t[n..], j);
    assert t[|t| - j..] == t[n..][|t[n..]| - j..];
    assert Closes(name, t, j);
  }

  /** A closing brace that a filled template offers without an opening one before it belongs to the name. */
  lemma {:induction false} ClosedByName(tokens: seq<Token>, name: string, pr: string, repo: string, t: string)
    requires BraceFree(tokens) && '{' in name && Piece(pr) && Piece(repo)
    requires NoBraces(t) && t + ['}'] <= Filled(tokens, name, pr, repo)
    ensures exists j :: Closes(name, t, j)
  {
    if tokens != [] {
      assert tokens[0] in tokens;
      var rest := Filled(tokens[1..], name, pr, repo);
      if tokens[0].SkillSlot? {
        NameCloses(name, rest, t);
      } else {
        var piece :=
          match tokens[0] {
            case Literal(text) => text
            case PrSlot => pr
            case RepoSlot => repo
            case SkillSlot => ""
          };
        SkipPiece(piece, rest, t);
        ClosedByName(tokens[1..], name, pr, repo, t[|piece|..]);
        ClosesSooner(name, t, |piece|);
      }
    }
  }

  lemma NameCloses(name: string, rest: string, t: string)
    requires '{' in name && NoBraces(t) && t + ['}'] <= name + rest
    ensures Closes(name, t, |t|)
  {
    var all := name + rest;
    assert forall k :: 0 <= k < |t| ==> all[k] == t[k] && t[k] in t;
    assert forall k :: 0 <= k < |name| ==> all[k] == name[k];
    assert |t| < |name|;
    assert t[0..] == t && t + ['}'] == all[..|t| + 1] == name[..|t| + 1];
  }

  /** A placeholder that fits into the rest of the name. */
  lemma HitInside(name: string, rest: string, w: string, i: nat)
    requires i + |w| + 2 <= |name| && Slot(w) <= (name + rest)[i..]
    ensures Collides(name, w)
  {
    assert name[i..i + |Slot(w)|] == (name + rest)[i..][..|Slot(w)|];
    assert At(name, Slot(w), i);
  }

  /** A placeholder that starts in the name and reaches beyond it. */
  lemma HitAcross(name: string, rest: string, w: string, i: nat)
    requires i < |name| < i + |w| + 2 && Slot(w) <= (name + rest)[i..]
    ensures var n := |name| - i - 1;
            name[i..] == ['{'] + w[..n] && w[n..] + ['}'] <= rest
  {
    var n := |name| - i - 1;
    var tail := (name + rest)[i..];
    assert tail == name[i..] + rest;
    assert name[i..] == tail[..n + 1] == Slot(w)[..n + 1] == ['{'] + w[..n];
    assert rest == tail[n + 1..] && Slot(w)[n + 1..] == w[n..] + ['}'];
  }

  lemma WrapsAround(name: string, w: string, i: nat, n: nat)
    requires |name| == i + n + 1 && n <= |w| && name[i..] == ['{'] + w[..n]
    requires exists j :: Closes(name, w[n..], j)
    ensures Collides(name, w)
  {
    var j :| Closes(name, w[n..], j);
    assert w[n..][|w[n..]| - j..] == w[|w| - j..];
    assert Wraps(name, w, n, j);
  }

  /** A placeholder that starts inside the name, whatever follows, is a collision. */
  lemma HitInName(tokens: seq<Token>, name: string, pr: string, repo: string, w: string, i: nat)
    requires BraceFree(tokens) && Piece(pr) && Piece(repo) && NoBraces(w) && i < |name|
    ensures Slot(w) <= (name + Filled(tokens, name, pr, repo))[i..] ==> Collides(name, w)
  {
    var rest := Filled(tokens, name, pr, repo);
    if Slot(w) <= (name + rest)[i..] {
      if i + |w| + 2 <= |name| {
        HitInside(name, rest, w, i);
      } else {
        HitAcross(name, rest, w, i);
        var n := |name| - i - 1;
        assert name[i] == name[i..][0];
        ClosedByName(tokens, name, pr, repo, w[n..]);
        WrapsAround(name, w, i, n);
      }
    }
  }

  /** The pattern starts nowhere in the first `n` characters. */
  predicate NoHit(t: string, n: nat, pattern: string)
    requires n <= |t|
  {
    forall i :: 0 <= i < n ==> !(pattern <= t[i..])
  }

  lemma NoHitLater(t: string, n: nat, pattern: string)
    requires 0 < n <= |t| && NoHit(t, n, pattern)
    ensures !(pattern <= t) && NoHit(t[1..], n - 1, pattern)
  {
    assert t[0..] == t;
    forall i | 0 <= i < n - 1 ensures !(pattern <= t[1..][i..]) {
      assert t[1..][i..] == t[i + 1..];
    }
  }

  lemma {:induction false} ReplaceNoHit(a: string, s: string, pattern: string, with: string)
    requires pattern != "" && NoHit(a + s, |a|, pattern)
    ensures Replace(a + s, pattern, with) == a + Replace(s, pattern, with)
  {
    if a == "" {
      assert a + s == s;
    } else {
      NoHitLater(a + s, |a|, pattern);
      assert (a + s)[0] == a[0] && (a + s)[1..] == a[1..] + s;
      ReplaceNoHit(a[1..], s, pattern, with);
      assert [a[0]] + (a[1..] + Replace(s, pattern, with)) == a + Replace(s, pattern, with);
    }
  }

  lemma NameSkipped(tokens: seq<Token>, name: string, pr: string, repo: string, w: string, with: string)
    requires BraceFree(tokens) && Piece(pr) && Piece(repo) && NoBraces(w) && !Collides(name, w)
    ensures var rest := Filled(tokens, name, pr, repo);
            Replace(name + rest, Slot(w), with) == name + Replace(rest, Slot(w), with)
  {
    forall i | 0 <= i < |name| ensures !(Slot(w) <= (name + Filled(tokens, name, pr, repo))[i..]) {
      HitInName(tokens, name, pr, repo, w, i);
    }
    assert NoHit(name + Filled(tokens, name, pr, repo), |name|, Slot(w));
    ReplaceNoHit(name, Filled(tokens, name, pr, repo), Slot(w), with);
  }

  lemma SlotLiterals()
    ensures Slot("pr") == "{pr}" && Slot("repo") == "{repo}"
  {
  }

  lemma {:induction false} FillPr(tokens: seq<Token>, skill: string, pr: string)
    requires BraceFree(tokens) && !Collides(skill, "pr")
    ensures Replace(Filled(tokens, skill, "{pr}", "{repo}"), "{pr}", pr) == Filled(tokens, skill, pr, "{repo}")
  {
    if tokens != [] {
      assert tokens[0] in tokens;
      FillPr(tokens[1..], skill, pr);
      var rest := Filled(tokens[1..], skill, "{pr}", "{repo}");
      SlotLiterals();
      match tokens[0]
      case Literal(text) => ReplaceSkips(text, rest, "{pr}", pr);
      case SkillSlot => NameSkipped(tokens[1..], skill, "{pr}", "{repo}", "pr", pr);
      case PrSlot => ReplaceHit(rest, "{pr}", pr);
      case RepoSlot => ReplaceMiss("{repo}", rest, "{pr}", pr);
    }
  }

  lemma {:induction false} FillRepo(tokens: seq<Token>, skill: string, pr: string, repo: string)
    requires BraceFree(tokens) && !Collides(skill, "repo") && NoBraces(pr)
    ensures Replace(Filled(tokens, skill, pr, "{repo}"), "{repo}", repo) == Filled(tokens, skill, pr, repo)
  {
    if tokens != [] {
      assert tokens[0] in tokens;
      FillRepo(tokens[1..], skill, pr, repo);
      var rest := Filled(tokens[1..], skill, pr, "{repo}");
      SlotLiterals();
      match tokens[0]
      case Literal(text) => ReplaceSkips(text, rest, "{repo}", repo);
      case SkillSlot => NameSkipped(tokens[1..], skill, pr, "{repo}", "repo", repo);
      case PrSlot => ReplaceSkips(pr, rest, "{repo}", repo);
      case RepoSlot => ReplaceHit(rest, "{repo}", repo);
    }
  }

  // ---------------------------------------------------------------- rendering

  /** What a reader of the template expects of the whole command. */
  function Expected(tokens: seq<Token>, skill: string, pr: nat, repo: string, extra: string): string {
    Filled(tokens, skill, Digits(pr), repo)
    + (if Trim(extra, RustSpace) == "" then "" else " " + Trim(extra, RustSpace))
  }

  lemma FillAll(tokens: seq<Token>, skill: string, pr: string, repo: string)
    requires BraceFree(tokens) && !Collides(skill, "pr") && !Collides(skill, "repo") && NoBraces(pr)
    ensures Replace(Replace(Replace(Source(tokens), "{skill}", skill), "{pr}", pr), "{repo}", repo)
            == Filled(tokens, skill, pr, repo)
  {
    FillSkill(tokens, skill);
    FillPr(tokens, skill, pr);
    FillRepo(tokens, skill, pr, repo);
  }

  lemma TailIsAppended(base: string, tail: string)
    ensures (if tail == "" then base else base + " " + tail) == base + (if tail == "" then "" else " " + tail)
  {
    assert base + "" == base && base + " " + tail == base + (" " + tail);
  }

  /** Three chained replacements are one rendering, for every template of brace-free literals and slots
      and every skill name that does not collide; the repository and the arguments may hold anything. */
  lemma RenderIsFilled(tokens: seq<Token>, skill: string, pr: nat, repo: string, extra: string)
    requires BraceFree(tokens) && !Collides(skill, "pr") && !Collides(skill, "repo")
    ensures RenderCommand(Source(tokens), skill, pr, repo, extra) == Expected(tokens, skill, pr, repo, extra)
  {
    FillAll(tokens, skill, Digits(pr), repo);
    TailIsAppended(Filled(tokens, skill, Digits(pr), repo), Trim(extra, RustSpace));
  }

  // ---------------------------------------------------------------- every colliding name fails somewhere

  /** A replacement by something shorter leaves the text alone or shortens it. */
  lemma {:induction false} ReplaceShrinks(s: string, pattern: string, with: string)
    requires |with| < |pattern|
    ensures |Replace(s, pattern, with)| <= |s|
    ensures Occurs(s, pattern) ==> |Replace(s, pattern, with)| < |s|
    ensures !Occurs(s, pattern) ==> Replace(s, pattern, with) == s
    decreases |s|
  {
    if pattern <= s {
      assert s[0..0 + |pattern|] == pattern;
      assert At(s, pattern, 0);
      ReplaceShrinks(s[|pattern|..], pattern, with);
    } else if s != "" {
      ReplaceShrinks(s[1..], pattern, with);
      OccursLater(s, pattern);
    }
  }

  lemma AtStart(s: string, pattern: string)
    ensures At(s, pattern, 0) <==> pattern <= s
  {
    if |pattern| <= |s| {
      assert s[0..0 + |pattern|] == s[..|pattern|];
    }
  }

  lemma OccursLater(s: string, pattern: string)
    requires s != "" && !(pattern <= s)
    ensures Occurs(s, pattern) <==> Occurs(s[1..], pattern)
  {
    AtStart(s, pattern);
    if i :| At(s, pattern, i) {
      assert s[1..][i - 1..i - 1 + |pattern|] == s[i..i + |pattern|];
      assert At(s[1..], pattern, i - 1);
    }
    if i :| At(s[1..], pattern, i) {
      assert s[i + 1..i + 1 + |pattern|] == s[1..][i..i + |pattern|];
      assert At(s, pattern, i + 1);
    }
  }

  /** A template of names and one literal in which the placeholder shows up. */
  lemma CollidingTemplate(name: string, w: string) returns (tokens: seq<Token>, text: string)
    requires Collides(name, w) && NoBraces(w)
    ensures BraceFree(tokens) && Occurs(text, Slot(w))
    ensures forall pr: string, repo: string :: Filled(tokens, name, pr, repo) == text
  {
    if Occurs(name, Slot(w)) {
      tokens, text := [SkillSlot], name;
      OneName(name);
    } else {
      var i, j :| Wraps(name, w, i, j);
      var between := w[i..|w| - j];
      tokens, text := [SkillSlot, Literal(between), SkillSlot], name + (between + name);
      assert forall c :: c in between ==> c in w;
      TwoNames(name, between);
      WrapOccurs(name, w, i, j);
    }
  }

  lemma OneName(name: string)
    ensures forall pr: string, repo: string :: Filled([SkillSlot], name, pr, repo) == name
  {
    forall pr: string, repo: string ensures Filled([SkillSlot], name, pr, repo) == name {
      assert [SkillSlot][1..] == [] && name + "" == name;
    }
  }

  lemma TwoNames(name: string, between: string)
    ensures forall pr: string, repo: string ::
              Filled([SkillSlot, Literal(between), SkillSlot], name, pr, repo) == name + (between + name)
  {
    var tokens: seq<Token> := [SkillSlot, Literal(between), SkillSlot];
    assert tokens[1..] == [Literal(between), SkillSlot] && tokens[1..][1..] == [SkillSlot];
    OneName(name);
    forall pr: string, repo: string ensures Filled(tokens, name, pr, repo) == name + (between + name) {
      assert Filled([SkillSlot], name, pr, repo) == name;
      assert Filled(tokens[1..], name, pr, repo) == between + name;
    }
  }

  lemma WrapOccurs(name: string, w: string, i: int, j: int)
    requires Wraps(name, w, i, j)
    ensures Occurs(name + (w[i..|w| - j] + name), Slot(w))
  {
    var between := w[i..|w| - j];
    var open, close := ['{'] + w[..i], w[|w| - j..] + ['}'];
    SlotParts(w, i, j);
    SplitAt(name, |name| - i - 1);
    SplitAt(name, j + 1);
    assert name == name[..|name| - i - 1] + open && name == close + name[j + 1..];
    InTheMiddle(name[..|name| - i - 1], open, between, close, name[j + 1..]);
  }

  lemma SplitAt(s: string, k: nat)
    requires k <= |s|
    ensures s == s[..k] + s[k..]
  {
  }

  lemma SlotParts(w: string, i: nat, j: nat)
    requires i + j <= |w|
    ensures Slot(w) == (['{'] + w[..i]) + w[i..|w| - j] + (w[|w| - j..] + ['}'])
  {
    assert w == w[..i] + w[i..|w| - j] + w[|w| - j..];
  }

  lemma InTheMiddle(a: string, open: string, between: string, close: string, b: string)
    ensures Occurs((a + open) + (between + (close + b)), open + between + close)
  {
    var text, slot := (a + open) + (between + (close + b)), open + between + close;
    assert text == a + slot + b;
    assert At(text, slot, |a|);
  }

  lemma CollisionShows(name: string, w: string) returns (tokens: seq<Token>)
    requires Collides(name, w) && (w == "pr" || w == "repo")
    ensures BraceFree(tokens) && RenderCommand(Source(tokens), name, 7, "", "") != Expected(tokens, name, 7, "", "")
  {
    var text;
    SlotLiterals();
    assert NoBraces(w);
    tokens, text := CollidingTemplate(name, w);
    FillSkill(tokens, name);
    assert Digits(7) == "7";
    var second := Replace(text, "{pr}", "7");
    ReplaceShrinks(text, "{pr}", "7");
    ReplaceShrinks(second, "{repo}", "");
    assert |Replace(second, "{repo}", "")| < |text|;
    assert Expected(tokens, name, 7, "", "") == text + "";
  }

  /** Whether the command comes out as expected for every template, PR, repository and arguments. */
  ghost predicate AlwaysRenders(skill: string) {
    forall tokens, pr, repo, extra ::
      BraceFree(tokens) ==>
          RenderCommand(Source(tokens), skill, pr, repo, extra) == Expected(tokens, skill, pr, repo, extra)
  }

  /** Exactly the names for which rendering can go wrong. */
  lemma AlwaysRendersIff(skill: string)
    ensures AlwaysRenders(skill) <==> !Collides(skill, "pr") && !Collides(skill, "repo")
  {
    if Collides(skill, "pr") {
      var tokens := CollisionShows(skill, "pr");
    } else if Collides(skill, "repo") {
      var tokens := CollisionShows(skill, "repo");
    } else {
      forall tokens, pr, repo, extra | BraceFree(tokens)
        ensures RenderCommand(Source(tokens), skill, pr, repo, extra) == Expected(tokens, skill, pr, repo, extra)
      {
        RenderIsFilled(tokens, skill, pr, repo, extra);
      }
    }
  }

  /** Enough for a caller: a name without an opening brace, or without a closing one. */
  lemma PlainNamesRender(skill: string)
    requires '{' !in skill || '}' !in skill
    ensures AlwaysRenders(skill)
  {
    PlainNameIsSafe(skill, "pr");
    PlainNameIsSafe(skill, "repo");
    AlwaysRendersIff(skill);
  }

  lemma PlainNameIsSafe(skill: string, w: string)
    requires '{' !in skill || '}' !in skill
    ensures !Collides(skill, w)
  {
    forall i ensures !At(skill, Slot(w), i) {
      if 0 <= i && i + |Slot(w)| <= |skill| {
        assert skill[i..i + |Slot(w)|][0] == skill[i] && skill[i] in skill;
        assert skill[i..i + |Slot(w)|][|w| + 1] == skill[i + |w| + 1] && skill[i + |w| + 1] in skill;
        assert Slot(w)[0] == '{' && Slot(w)[|w| + 1] == '}';
      }
    }
    forall i, j ensures !Wraps(skill, w, i, j) {
      if 0 <= i && 0 <= j && i + j <= |w| && i + 1 <= |skill| && j + 1 <= |skill| {
        assert skill[|skill| - i - 1..][0] == skill[|skill| - i - 1] && skill[|skill| - i - 1] in skill;
        assert skill[j] in skill && (w[|w| - j..] + ['}'])[j] == '}';
      }
    }
  }

  /** A name that spells a slot is substituted again. */
  lemma SkillNameCanBeReplaced()
    ensures RenderCommand(Source([SkillSlot]), "{pr}", 7, "r", "") == "7"
    ensures Filled([SkillSlot], "{pr}", Digits(7), "r") == "{pr}"
  {
    assert [SkillSlot][1..] == [] && Source([SkillSlot]) == "{skill}" + "" == "{skill}";
    ReplaceHit("", "{skill}", "{pr}");
    assert "{skill}" + "" == "{skill}" && "{pr}" + "" == "{pr}";
    ReplaceHit("", "{pr}", "7");
    assert Digits(7) == "7" && "7" + "" == "7";
    ReplaceSkips("7", "", "{repo}", "r");
    assert Replace("", "{repo}", "r") == "";
  }
}
