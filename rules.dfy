/**
 * Both prompt backends classify a prompt with a chain of
 * `if any(word in text for word in group): return result` tests, checked
 * in a fixed order. This module gives that chain one table-driven reference
 * definition, `FirstMatch`, and proves what it returns: the result of the
 * first group that fires, or the default when none does.
 */
module Keywords {
  import opened Text

  /** One keyword group and the value it selects. */
  datatype Rule<T> = Rule(keywords: seq<string>, result: T)

  predicate Fires<T>(text: string, rule: Rule<T>)
  {
    AnyContains(text, rule.keywords)
  }

  /** Rule `k` fires and no earlier rule does. */
  predicate FirstFiring<T>(rules: seq<Rule<T>>, text: string, k: int)
  {
    && 0 <= k < |rules|
    && Fires(text, rules[k])
    && forall j :: 0 <= j < k ==> !Fires(text, rules[j])
  }

  predicate NoneFires<T>(rules: seq<Rule<T>>, text: string)
  {
    forall j :: 0 <= j < |rules| ==> !Fires(text, rules[j])
  }

  /** The results of the rules differ from each other and from the default. */
  ghost predicate DistinctResults<T>(rules: seq<Rule<T>>, default: T)
  {
    && (forall j :: 0 <= j < |rules| ==> rules[j].result != default)
    && (forall i, j :: 0 <= i < j < |rules| ==> rules[i].result != rules[j].result)
  }

  function FirstMatch<T>(rules: seq<Rule<T>>, text: string, default: T): T
  {
    if rules == [] then default
    else if Fires(text, rules[0]) then rules[0].result
    else FirstMatch(rules[1..], text, default)
  }

  /** The first rule that fires decides, whatever later rules would say. */
  lemma {:induction false} FirstMatchPicksFirstFiring<T>(rules: seq<Rule<T>>, text: string, default: T, k: int)
    requires FirstFiring(rules, text, k)
    ensures FirstMatch(rules, text, default) == rules[k].result
  {
    if k > 0 {
      assert !Fires(text, rules[0]);
      assert forall j :: 0 <= j < k - 1 ==> rules[1..][j] == rules[j + 1];
      FirstMatchPicksFirstFiring(rules[1..], text, default, k - 1);
    }
  }

  /** With no rule firing, the default is returned. */
  lemma {:induction false} FirstMatchDefault<T>(rules: seq<Rule<T>>, text: string, default: T)
    requires NoneFires(rules, text)
    ensures FirstMatch(rules, text, default) == default
  {
    if rules != [] {
      assert !Fires(text, rules[0]);
      assert forall j :: 0 <= j < |rules| - 1 ==> rules[1..][j] == rules[j + 1];
      FirstMatchDefault(rules[1..], text, default);
    }
  }

  /** Either no rule fires, or some rule fires first. */
  lemma {:induction false} FirstFiringExists<T>(rules: seq<Rule<T>>, text: string)
    ensures NoneFires(rules, text) || exists k :: FirstFiring(rules, text, k)
  {
    if rules != [] && !Fires(text, rules[0]) {
      assert forall j :: 0 <= j < |rules| - 1 ==> rules[1..][j] == rules[j + 1];
      FirstFiringExists(rules[1..], text);
      if !NoneFires(rules[1..], text) {
        var k :| FirstFiring(rules[1..], text, k);
        assert FirstFiring(rules, text, k + 1);
      }
    } else if rules != [] {
      assert FirstFiring(rules, text, 0);
    }
  }

  /**
   * With distinct results, `FirstMatch` returns rule `k`'s result exactly when
   * rule `k` is the first to fire, and the default exactly when none fires.
   */
  lemma FirstMatchExactly<T>(rules: seq<Rule<T>>, text: string, default: T, k: int)
    requires DistinctResults(rules, default)
    requires 0 <= k < |rules|
    ensures FirstMatch(rules, text, default) == rules[k].result <==> FirstFiring(rules, text, k)
    ensures FirstMatch(rules, text, default) == default <==> NoneFires(rules, text)
  {
    FirstFiringExists(rules, text);
    if NoneFires(rules, text) {
      FirstMatchDefault(rules, text, default);
    } else {
      var m :| FirstFiring(rules, text, m);
      FirstMatchPicksFirstFiring(rules, text, default, m);
      if FirstFiring(rules, text, k) {
        assert k == m;
      }
    }
  }
}
