/** The shape shared by every keyword classifier of the system: an ordered list
    of rules, each an outcome with the keywords that select it, where the first
    rule with a matching keyword decides. Some keywords are looked for in the
    text as it came, others in its lowered form, exactly as each classifier
    tests them. */
module Rules {
  import opened Text

  datatype Rule<L> = Rule(outcome: L, inText: seq<string>, inLower: seq<string>)

  /** Some keyword of `keys` is a substring of `s`. */
  predicate AnyIn(s: string, keys: seq<string>)
  {
    exists k | k in keys :: Contains(s, k)
  }

  /** A rule fires on a text when one of its keywords occurs in the text or in
      the lowered text, as the rule says. */
  predicate Fires<L>(rule: Rule<L>, text: string)
  {
    AnyIn(text, rule.inText) || AnyIn(Lower(text), rule.inLower)
  }

  /** The outcome of the first rule that fires, or `default` when none does. */
  function FirstMatch<L>(rules: seq<Rule<L>>, text: string, default: L): L
  {
    if |rules| == 0 then default
    else if Fires(rules[0], text) then rules[0].outcome
    else FirstMatch(rules[1..], text, default)
  }

  /** Priority: when rule `k` fires and no earlier rule does, rule `k` decides,
      whatever the later rules would have said. */
  lemma {:induction false} FirstMatchEarliest<L>(rules: seq<Rule<L>>, text: string, default: L, k: nat)
    requires k < |rules| && Fires(rules[k], text)
    requires forall j :: 0 <= j < k ==> !Fires(rules[j], text)
    ensures FirstMatch(rules, text, default) == rules[k].outcome
  {
    if k > 0 {
      FirstMatchEarliest(rules[1..], text, default, k - 1);
    }
  }

  /** Totality: when no rule fires, the default decides. */
  lemma {:induction false} FirstMatchNone<L>(rules: seq<Rule<L>>, text: string, default: L)
    requires forall j :: 0 <= j < |rules| ==> !Fires(rules[j], text)
    ensures FirstMatch(rules, text, default) == default
  {
    if |rules| > 0 {
      FirstMatchNone(rules[1..], text, default);
    }
  }

  /** The outcome is always the default or the outcome of some rule of the list. */
  lemma {:induction false} FirstMatchInRange<L>(rules: seq<Rule<L>>, text: string, default: L)
    ensures FirstMatch(rules, text, default) == default
         || exists k :: 0 <= k < |rules| && rules[k].outcome == FirstMatch(rules, text, default)
  {
    if |rules| > 0 && !Fires(rules[0], text) {
      FirstMatchInRange(rules[1..], text, default);
      var r := FirstMatch(rules, text, default);
      if r != default {
        var k :| 0 <= k < |rules| - 1 && rules[1..][k].outcome == r;
        assert rules[k + 1].outcome == r;
      }
    }
  }

  /** When some rule fires, the outcome is that of a rule that fires, never the default. */
  lemma {:induction false} FirstMatchSomeRule<L>(rules: seq<Rule<L>>, text: string, default: L, k: nat)
    requires k < |rules| && Fires(rules[k], text)
    ensures exists j :: 0 <= j <= k && Fires(rules[j], text) && FirstMatch(rules, text, default) == rules[j].outcome
  {
    if !Fires(rules[0], text) {
      FirstMatchSomeRule(rules[1..], text, default, k - 1);
      var j :| 0 <= j <= k - 1 && Fires(rules[1..][j], text)
               && FirstMatch(rules[1..], text, default) == rules[1..][j].outcome;
      assert rules[1..][j] == rules[j + 1];
    } else {
      assert Fires(rules[0], text);
    }
  }
}
