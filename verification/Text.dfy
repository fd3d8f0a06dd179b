/** Strings as the two halves of the program see them: decimal printing, UTF-8 length,
    white space, trimming and splitting at a separator. */
module Text {

  datatype Option<+T> = None | Some(value: T)

  datatype Result<+T, +E> = Ok(value: T) | Err(error: E)

  /** An ECMAScript `Map` with text keys: entries in insertion order; `set` on a known key keeps its place. */
  datatype JsMap<V> = JsMap(order: seq<string>, entries: map<string, V>)

  const U64_MAX: nat := 0xFFFF_FFFF_FFFF_FFFF
  const I64_MAX: nat := 0x7FFF_FFFF_FFFF_FFFF

  // ---------------------------------------------------------------- decimal numbers

  function DigitChar(d: nat): (c: char)
    requires d < 10
    ensures '0' <= c <= '9'
  {
    (d + '0' as int) as char
  }

  function Digits(n: nat): (s: string)
    ensures s != ""
    ensures forall c :: c in s ==> '0' <= c <= '9'
  {
    if n < 10 then [DigitChar(n)] else Digits(n / 10) + [DigitChar(n % 10)]
  }

  function ParseDigits(s: string): nat {
    if s == "" then 0
    else
      var last := s[|s| - 1];
      10 * ParseDigits(s[..|s| - 1]) + (if '0' <= last <= '9' then last as int - '0' as int else 0)
  }

  lemma {:induction false} DigitsRoundTrip(n: nat)
    ensures ParseDigits(Digits(n)) == n
  {
    var s := Digits(n);
    if n < 10 {
      assert s[..|s| - 1] == "";
    } else {
      DigitsRoundTrip(n / 10);
      assert s[..|s| - 1] == Digits(n / 10);
    }
  }

  lemma DigitsInjective(m: nat, n: nat)
    requires Digits(m) == Digits(n)
    ensures m == n
  {
    DigitsRoundTrip(m);
    DigitsRoundTrip(n);
  }

  // ---------------------------------------------------------------- UTF-8 length

  function Utf8Width(c: char): (w: nat)
    ensures 1 <= w <= 4
  {
    var u := c as int;
    if u < 0x80 then 1 else if u < 0x800 then 2 else if u < 0x1_0000 then 3 else 4
  }

  /** `str::len` of Rust: the number of bytes of the UTF-8 form. */
  function Utf8Len(s: string): nat {
    if s == "" then 0 else Utf8Width(s[0]) + Utf8Len(s[1..])
  }

  // ---------------------------------------------------------------- white space

  /** `char::is_whitespace` of Rust (the Unicode White_Space property). */
  predicate RustSpace(c: char) {
    var u := c as int;
    || 0x09 <= u <= 0x0D || u == 0x20 || u == 0x85 || u == 0xA0 || u == 0x1680
    || 0x2000 <= u <= 0x200A || u == 0x2028 || u == 0x2029 || u == 0x202F || u == 0x205F || u == 0x3000
  }

  /** What `trimStart`, `trim` and friends of ECMAScript remove (WhiteSpace and LineTerminator). */
  predicate JsSpace(c: char) {
    var u := c as int;
    || 0x09 <= u <= 0x0D || u == 0x20 || u == 0xA0 || u == 0x1680
    || 0x2000 <= u <= 0x200A || u == 0x2028 || u == 0x2029 || u == 0x202F || u == 0x205F || u == 0x3000
    || u == 0xFEFF
  }

  function TrimStart(s: string, space: char -> bool): (t: string)
    ensures t == "" || !space(t[0])
    ensures |t| <= |s| && t == s[|s| - |t|..]
    ensures s != "" && !space(s[0]) ==> t == s
  {
    if s != "" && space(s[0]) then TrimStart(s[1..], space) else s
  }

  function TrimEnd(s: string, space: char -> bool): (t: string)
    ensures t == "" || !space(t[|t| - 1])
    ensures |t| <= |s| && t == s[..|t|]
    ensures s != "" && !space(s[|s| - 1]) ==> t == s
  {
    if s != "" && space(s[|s| - 1]) then TrimEnd(s[..|s| - 1], space) else s
  }

  function Trim(s: string, space: char -> bool): (t: string)
    ensures t == "" || (!space(t[0]) && !space(t[|t| - 1]))
  {
    TrimEnd(TrimStart(s, space), space)
  }

  predicate Trimmed(s: string, space: char -> bool) {
    s == "" || (!space(s[0]) && !space(s[|s| - 1]))
  }

  lemma TrimStays(s: string, space: char -> bool)
    ensures Trimmed(s, space) ==> Trim(s, space) == s
  {
    if s != "" && Trimmed(s, space) {
      assert TrimStart(s, space) == s;
    }
  }

  /** Trimming is the identity exactly on trimmed text, so trimming twice is trimming once. */
  lemma TrimFixedPoint(s: string, space: char -> bool)
    ensures Trim(s, space) == s <==> Trimmed(s, space)
    ensures Trim(Trim(s, space), space) == Trim(s, space)
  {
    TrimStays(s, space);
    TrimStays(Trim(s, space), space);
  }

  predicate Blank(s: string, space: char -> bool) {
    forall i :: 0 <= i < |s| ==> space(s[i])
  }

  lemma {:induction false} StartTrimmed(s: string, space: char -> bool)
    ensures Blank(s[..|s| - |TrimStart(s, space)|], space)
  {
    if s != "" && space(s[0]) {
      StartTrimmed(s[1..], space);
      var n := |s| - |TrimStart(s, space)|;
      forall i | 0 <= i < n ensures space(s[i]) {
        if i > 0 { assert s[1..][..n - 1][i - 1] == s[i]; }
      }
    }
  }

  lemma {:induction false} EndTrimmed(s: string, space: char -> bool)
    ensures Blank(s[|TrimEnd(s, space)|..], space)
  {
    if s != "" && space(s[|s| - 1]) {
      var front := s[..|s| - 1];
      EndTrimmed(front, space);
      var n := |TrimEnd(front, space)|;
      forall i | n <= i < |s| ensures space(s[i]) {
        if i < |front| { assert front[n..][i - n] == s[i]; }
      }
    }
  }

  /** Trimming removes white space at both ends, all of it, and nothing else. */
  lemma TrimIs(s: string, space: char -> bool) returns (lead: string, tail: string)
    ensures s == lead + (Trim(s, space) + tail)
    ensures Blank(lead, space) && Blank(tail, space) && Trimmed(Trim(s, space), space)
  {
    StartTrimmed(s, space);
    EndTrimmed(TrimStart(s, space), space);
    lead, tail := Surrounded(s, TrimStart(s, space), Trim(s, space));
  }

  lemma Surrounded(s: string, started: string, t: string) returns (lead: string, tail: string)
    requires |started| <= |s| && started == s[|s| - |started|..] && |t| <= |started| && t == started[..|t|]
    ensures s == lead + (t + tail) && lead == s[..|s| - |started|] && tail == started[|t|..]
  {
    lead := FrontOf(s, started);
    tail := BackOf(started, t);
  }

  lemma FrontOf(s: string, t: string) returns (front: string)
    requires |t| <= |s| && t == s[|s| - |t|..]
    ensures s == front + t && front == s[..|s| - |t|]
  {
    front := s[..|s| - |t|];
  }

  lemma BackOf(s: string, t: string) returns (back: string)
    requires |t| <= |s| && t == s[..|t|]
    ensures s == t + back && back == s[|t|..]
  {
    back := s[|t|..];
  }

  /** Nothing is left of white space, and of nothing else. */
  lemma BlankIff(s: string, space: char -> bool)
    ensures Blank(s, space) <==> Trim(s, space) == ""
  {
    var t := Trim(s, space);
    var lead, tail := TrimIs(s, space);
    if t != "" {
      assert s[|lead|] == t[0];
    } else {
      assert s == lead + tail;
    }
  }

  lemma {:induction false} PaddedStart(lead: string, s: string, space: char -> bool)
    requires Blank(lead, space)
    ensures TrimStart(lead + s, space) == TrimStart(s, space)
  {
    if lead == "" {
      assert lead + s == s;
    } else {
      assert (lead + s)[1..] == lead[1..] + s;
      PaddedStart(lead[1..], s, space);
    }
  }

  lemma {:induction false} PaddedEnd(s: string, tail: string, space: char -> bool)
    requires Blank(tail, space)
    ensures TrimEnd(s + tail, space) == TrimEnd(s, space)
  {
    if tail == "" {
      assert s + tail == s;
    } else {
      assert (s + tail)[..|s + tail| - 1] == s + tail[..|tail| - 1];
      PaddedEnd(s, tail[..|tail| - 1], space);
    }
  }

  lemma PaddedText(t: string, tail: string, space: char -> bool)
    requires Blank(tail, space) && Trimmed(t, space) && t != ""
    ensures Trim(t + tail, space) == t
  {
    var s := t + tail;
    assert s != "" && s[0] == t[0];
    assert TrimStart(s, space) == s;
    PaddedEnd(t, tail, space);
    assert TrimEnd(t, space) == t;
  }

  lemma BlankTrims(s: string, space: char -> bool)
    requires Blank(s, space)
    ensures Trim(s, space) == ""
  {
    StartOfBlank(s, space);
  }

  /** Trimmed text with white space around it is trimmed back to itself. */
  lemma TrimPadded(lead: string, t: string, tail: string, space: char -> bool)
    requires Blank(lead, space) && Blank(tail, space) && Trimmed(t, space)
    ensures Trim(lead + (t + tail), space) == t
  {
    PaddedStart(lead, t + tail, space);
    if t == "" {
      assert t + tail == tail;
      BlankTrims(tail, space);
    } else {
      PaddedText(t, tail, space);
    }
  }

  lemma {:induction false} StartOfBlank(s: string, space: char -> bool)
    requires Blank(s, space)
    ensures TrimStart(s, space) == ""
  {
    if s != "" { StartOfBlank(s[1..], space); }
  }

  // ---------------------------------------------------------------- splitting

  /** `rsplit_once(c)`: split at the last `c`. */
  function RSplitOnce(s: string, c: char): Option<(string, string)> {
    if s == "" then None
    else if s[|s| - 1] == c then Some((s[..|s| - 1], ""))
    else
      match RSplitOnce(s[..|s| - 1], c)
      case None => None
      case Some((a, b)) => Some((a, b + [s[|s| - 1]]))
  }

  lemma {:induction false} RSplitOnceSpec(s: string, c: char)
    ensures match RSplitOnce(s, c)
            case None => c !in s
            case Some((a, b)) => s == a + [c] + b && c !in b
  {
    if s != "" {
      var front, last := s[..|s| - 1], s[|s| - 1];
      assert s == front + [last];
      if last != c { RSplitOnceSpec(front, c); }
    }
  }

  /** `split_once(c)`: split at the first `c`. */
  function SplitOnce(s: string, c: char): Option<(string, string)> {
    if s == "" then None
    else if s[0] == c then Some(("", s[1..]))
    else
      match SplitOnce(s[1..], c)
      case None => None
      case Some((a, b)) => Some(([s[0]] + a, b))
  }

  lemma {:induction false} SplitOnceSpec(s: string, c: char)
    ensures match SplitOnce(s, c)
            case None => c !in s
            case Some((a, b)) => s == a + [c] + b && c !in a
  {
    if s != "" {
      assert s == [s[0]] + s[1..];
      if s[0] != c { SplitOnceSpec(s[1..], c); }
    }
  }

  /** The text before the first separator determines the split. */
  lemma FirstSeparator(a: string, r: string, b: string, s: string, c: char)
    requires c !in a && c !in b
    requires a + [c] + r == b + [c] + s
    ensures a == b && r == s
  {
    var t := a + [c] + r;
    assert t[|a|] == c && t[|b|] == c;
    assert forall i :: 0 <= i < |a| ==> t[i] == a[i] && t[i] != c;
    assert forall i :: 0 <= i < |b| ==> t[i] == b[i] && t[i] != c;
    assert a == t[..|a|] && b == t[..|b|];
    assert r == t[|a| + 1..] && s == t[|b| + 1..];
  }

  lemma LastSeparator(a: string, r: string, b: string, s: string, c: char)
    requires c !in r && c !in s
    requires a + [c] + r == b + [c] + s
    ensures a == b && r == s
  {
    var t := a + [c] + r;
    assert t[|a|] == c && t[|b|] == c;
    BehindSeparator(a, r, c, |b|);
    BehindSeparator(b, s, c, |a|);
    assert |a| == |b|;
    assert a == t[..|a|] && b == t[..|b|];
    assert r == t[|a| + 1..] && s == t[|b| + 1..];
  }

  lemma BehindSeparator(a: string, r: string, c: char, k: nat)
    ensures |a| < k < |a + [c] + r| ==> (a + [c] + r)[k] in r
  {
    if |a| < k < |a + [c] + r| {
      assert (a + [c] + r)[k] == r[k - |a| - 1];
    }
  }

  lemma SplitOnceAt(a: string, b: string, c: char)
    requires c !in a
    ensures SplitOnce(a + [c] + b, c) == Some((a, b))
  {
    var s := a + [c] + b;
    assert s[|a|] == c;
    SplitOnceSpec(s, c);
    var (x, y) := SplitOnce(s, c).value;
    FirstSeparator(a, b, x, y, c);
  }

  lemma {:induction false} SplitOnceNone(s: string, c: char)
    requires c !in s
    ensures SplitOnce(s, c) == None
  {
    if s != "" {
      assert s[0] in s;
      SplitOnceNone(s[1..], c);
    }
  }

  lemma RSplitOnceAt(a: string, b: string, c: char)
    requires c !in b
    ensures RSplitOnce(a + [c] + b, c) == Some((a, b))
  {
    var s := a + [c] + b;
    assert s[|a|] == c;
    RSplitOnceSpec(s, c);
    var (x, y) := RSplitOnce(s, c).value;
    LastSeparator(a, b, x, y, c);
  }

  // ---------------------------------------------------------------- length framing

  /** `{s.len()}:{s}`, the framing every permanent key is built from. */
  function Frame(s: string): string {
    Digits(Utf8Len(s)) + ":" + s
  }

  lemma {:induction false} SameByteLengthPrefix(a: string, r: string, b: string, s: string)
    requires a + r == b + s && Utf8Len(a) == Utf8Len(b)
    ensures a == b && r == s
  {
    if a != "" && b != "" {
      assert (a + r)[0] == a[0] && (b + s)[0] == b[0];
      assert (a + r)[1..] == a[1..] + r && (b + s)[1..] == b[1..] + s;
      SameByteLengthPrefix(a[1..], r, b[1..], s);
    } else {
      assert a == "" && b == "";
      assert a + r == r && b + s == s;
    }
  }

  /** A framed string can be read back off the front of any text, whatever it contains. */
  lemma FrameUnique(a: string, r: string, b: string, s: string)
    requires Frame(a) + r == Frame(b) + s
    ensures a == b && r == s
  {
    assert Frame(a) + r == Digits(Utf8Len(a)) + [':'] + (a + r);
    assert Frame(b) + s == Digits(Utf8Len(b)) + [':'] + (b + s);
    FirstSeparator(Digits(Utf8Len(a)), a + r, Digits(Utf8Len(b)), b + s, ':');
    DigitsInjective(Utf8Len(a), Utf8Len(b));
    SameByteLengthPrefix(a, r, b, s);
  }
}
