/** The search for the first free rule id. */
module RuleIds {
  import opened Text

  function RuleId(n: nat): string {
    "rule-" + Digits(n)
  }

  lemma RuleIdInjective(m: nat, n: nat)
    requires RuleId(m) == RuleId(n)
    ensures m == n
  {
    assert RuleId(m)[5..] == Digits(m) && RuleId(n)[5..] == Digits(n);
    DigitsInjective(m, n);
  }

  /** The ids `rule-1` to `rule-n`. */
  function FirstIds(n: nat): set<string> {
    if n == 0 then {} else FirstIds(n - 1) + {RuleId(n)}
  }

  lemma {:induction false} FirstIdsMember(n: nat, m: nat)
    ensures RuleId(m) in FirstIds(n) <==> 1 <= m <= n
  {
    if n > 0 {
      FirstIdsMember(n - 1, m);
      if RuleId(m) == RuleId(n) {
        RuleIdInjective(m, n);
      }
    }
  }

  lemma {:induction false} FirstIdsSize(n: nat)
    ensures |FirstIds(n)| == n
  {
    if n > 0 {
      FirstIdsMember(n - 1, n);
      FirstIdsSize(n - 1);
    }
  }

  lemma SubsetSize<T>(a: set<T>, b: set<T>)
    requires a <= b
    ensures |a| <= |b|
  {
    assert b == a + (b - a);
  }

  lemma {:induction false} NoMoreThanListed(ids: seq<string>)
    ensures |set id | id in ids| <= |ids|
  {
    var used := set id | id in ids;
    if ids == [] {
      assert used == {};
    } else {
      var front, last := ids[..|ids| - 1], ids[|ids| - 1];
      NoMoreThanListed(front);
      assert ids == front + [last];
      var rest := set id | id in front;
      assert used == rest + {last};
    }
  }

  /** Terminates on every rule list and returns the least unused `rule-n`. */
  method NextRuleId(rules: seq<string>) returns (id: string, n: nat)
    ensures id == RuleId(n) && id !in rules
    ensures forall m :: 1 <= m < n ==> RuleId(m) in rules
    ensures 1 <= n <= |rules| + 1
  {
    var used := set r | r in rules;
    NoMoreThanListed(rules);
    n := 1;
    while RuleId(n) in used
      invariant n >= 1 && FirstIds(n - 1) <= used && n - 1 <= |used|
      decreases |used| + 1 - n
    {
      FirstIdsSize(n);
      SubsetSize(FirstIds(n), used);
      n := n + 1;
    }
    forall m | 1 <= m < n ensures RuleId(m) in rules {
      FirstIdsMember(n - 1, m);
    }
    id := RuleId(n);
  }
}
