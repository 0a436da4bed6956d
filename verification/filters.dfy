/**
 * The filter rules of the chart settings and how a record is tested against
 * them: four lists of `[key, expected]` rules (equals, notEquals, contains,
 * notContains) and two lists of keys (set, notSet), all of which must pass.
 *
 * A test can also fail outright, as it does in the browser: a contains rule
 * calls `match` on the resolved value, which throws when the value is not a
 * string, and builds a regular expression from the expected text, which
 * throws when the pattern does not compile. Such a failure is an `Err` here
 * and aborts the whole filtering pass.
 */
module Filters {
  import opened Wrappers
  import opened KeyResolver
  import opened Grouping
  import opened InstanceRecords

  /** One `[key, expected]` rule. */
  datatype Rule = Rule(key: string, expected: string)

  /** The `filterBy` part of the settings. */
  datatype FilterRules = FilterRules(
    equals: seq<Rule>,
    notEquals: seq<Rule>,
    contains: seq<Rule>,
    notContains: seq<Rule>,
    isSet: seq<string>,
    notSet: seq<string>)

  /** The `filterBy` of the default settings: every list empty. */
  const NoFilters := FilterRules([], [], [], [], [], [])

  /**
   * The regular-expression engine, left abstract: whether a pattern
   * compiles, and whether a compiled pattern finds a match in a string.
   */
  datatype RegexEngine = RegexEngine(compiles: string -> bool, search: (string, string) -> bool)

  /** Why a test threw: `match` on a value that is not a string, or a bad pattern. */
  datatype FilterError = NotAString(actual: Value) | BadPattern(pattern: string)

  /** The four comparisons of the rule lists. */
  datatype Comparator = Equals | NotEquals | Contains | NotContains

  /**
   * `a.match(new RegExp(b))`. The property `a.match` is read first, which
   * throws on `undefined`; then the pattern is compiled; then the call,
   * which throws when `a` is an object (it has no `match` method).
   */
  function Search(re: RegexEngine, actual: Value, pattern: string): (r: Result<bool, FilterError>)
    ensures r.Ok? <==> actual.Str? && re.compiles(pattern)
    ensures r.Ok? ==> r.value == re.search(actual.s, pattern)
    ensures r.Err? && r.error.BadPattern? ==> actual.Obj? || actual.Str?
  {
    if actual.Absent? then Err(NotAString(actual))
    else if !re.compiles(pattern) then Err(BadPattern(pattern))
    else if actual.Obj? then Err(NotAString(actual))
    else Ok(re.search(actual.s, pattern))
  }

  /** The test function each rule list is checked with: the resolved value against the expected text. */
  type Tester = (Value, string) -> Result<bool, FilterError>

  /** The four test functions of `matchesAllFilters`. */
  function Test(cmp: Comparator, re: RegexEngine): (t: Tester)
    ensures forall a, b :: t(a, b).Err? <==> (cmp.Contains? || cmp.NotContains?) && !(a.Str? && re.compiles(b))
    ensures cmp.Equals? ==> forall a, b :: t(a, b) == Ok(LooseEq(a, Str(b)))
    ensures cmp.NotEquals? ==> forall a, b :: t(a, b) == Ok(!LooseEq(a, Str(b)))
    ensures cmp.Contains? ==> forall a, b :: t(a, b) == Search(re, a, b)
    ensures cmp.NotContains? ==> forall a, b :: t(a, b).Ok? ==> t(a, b).value == !re.search(a.s, b)
  {
    match cmp
    case Equals => (a, b) => Ok(LooseEq(a, Str(b)))
    case NotEquals => (a, b) => Ok(!LooseEq(a, Str(b)))
    case Contains => (a, b) => Search(re, a, b)
    case NotContains => (a, b) => var s := Search(re, a, b); if s.Err? then s else Ok(!s.value)
  }

  /** One rule applied to an object: its key is resolved, then tested. */
  function Outcome(test: Tester, obj: Value, rule: Rule): Result<bool, FilterError> {
    test(FindKey(rule.key, obj), rule.expected)
  }

  /** The result of `matchesFilter`: the rules in order, stopping at the first that fails or throws. */
  function RulesPass(test: Tester, obj: Value, rules: seq<Rule>): Result<bool, FilterError>
    decreases |rules|
  {
    if rules == [] then Ok(true)
    else
      match Outcome(test, obj, rules[0])
      case Err(e) => Err(e)
      case Ok(pass) => if pass then RulesPass(test, obj, rules[1..]) else Ok(false)
  }

  /** `matchesFilter(rules, obj, testFunc)`. */
  method MatchesFilter(rules: seq<Rule>, obj: Value, test: Tester) returns (r: Result<bool, FilterError>)
    ensures r == RulesPass(test, obj, rules)
  {
    var i := 0;
    while i < |rules|
      invariant 0 <= i <= |rules|
      invariant RulesPass(test, obj, rules) == RulesPass(test, obj, rules[i..])
    {
      assert rules[i..][0] == rules[i] && rules[i..][1..] == rules[i + 1..];
      var actual := FindKey(rules[i].key, obj);
      var t := test(actual, rules[i].expected);
      if t.Err? {
        return Err(t.error);
      }
      if !t.value {
        return Ok(false);
      }
      i := i + 1;
    }
    return Ok(true);
  }

  /** A rule list passes exactly when every one of its rules passes. */
  lemma {:induction false} RulesPassAll(test: Tester, obj: Value, rules: seq<Rule>)
    ensures RulesPass(test, obj, rules) == Ok(true)
        <==> forall i :: 0 <= i < |rules| ==> Outcome(test, obj, rules[i]) == Ok(true)
    decreases |rules|
  {
    if rules != [] {
      RulesPassAll(test, obj, rules[1..]);
      assert forall i :: 1 <= i < |rules| ==> rules[1..][i - 1] == rules[i];
    }
  }

  /** The first rule that does not pass fails: every rule before it passes. */
  predicate FailsFirstAt(test: Tester, obj: Value, rules: seq<Rule>, i: int) {
    0 <= i < |rules| && Outcome(test, obj, rules[i]) == Ok(false)
    && forall j :: 0 <= j < i ==> Outcome(test, obj, rules[j]) == Ok(true)
  }

  /**
   * A rule list fails exactly when some rule fails and every rule before it
   * passes; the rules after it are never looked at.
   */
  lemma RulesFailAtFirst(test: Tester, obj: Value, rules: seq<Rule>)
    ensures RulesPass(test, obj, rules) == Ok(false) <==> exists i :: FailsFirstAt(test, obj, rules, i)
  {
    if RulesPass(test, obj, rules) == Ok(false) {
      var i := FailureIndex(test, obj, rules);
    }
    if exists i :: FailsFirstAt(test, obj, rules, i) {
      var i :| FailsFirstAt(test, obj, rules, i);
      FailureStops(test, obj, rules, i);
    }
  }

  lemma {:induction false} FailureIndex(test: Tester, obj: Value, rules: seq<Rule>) returns (i: int)
    requires RulesPass(test, obj, rules) == Ok(false)
    ensures FailsFirstAt(test, obj, rules, i)
    decreases |rules|
  {
    if Outcome(test, obj, rules[0]) == Ok(false) {
      i := 0;
    } else {
      var tail := rules[1..];
      var k := FailureIndex(test, obj, tail);
      assert forall j :: 1 <= j < |rules| ==> tail[j - 1] == rules[j];
      i := k + 1;
    }
  }

  lemma {:induction false} FailureStops(test: Tester, obj: Value, rules: seq<Rule>, i: int)
    requires FailsFirstAt(test, obj, rules, i)
    ensures RulesPass(test, obj, rules) == Ok(false)
    decreases |rules|
  {
    if i > 0 {
      var tail := rules[1..];
      assert Outcome(test, obj, rules[0]) == Ok(true);
      assert forall j :: 1 <= j < |rules| ==> tail[j - 1] == rules[j];
      FailureStops(test, obj, tail, i - 1);
    }
  }

  /** A rule list throws only if one of its rules throws. */
  lemma {:induction false} RulesErrFromRule(test: Tester, obj: Value, rules: seq<Rule>)
    ensures RulesPass(test, obj, rules).Err?
        ==> exists i :: 0 <= i < |rules| && Outcome(test, obj, rules[i]).Err?
    decreases |rules|
  {
    if rules != [] && Outcome(test, obj, rules[0]).Ok? {
      RulesErrFromRule(test, obj, rules[1..]);
      assert forall i :: 1 <= i < |rules| ==> rules[1..][i - 1] == rules[i];
    }
  }

  /** `a && b` on tests that may throw: `b` is only evaluated when `a` passed. */
  function AndThen(a: Result<bool, FilterError>, b: Result<bool, FilterError>): (r: Result<bool, FilterError>)
    ensures r == Ok(true) <==> a == Ok(true) && b == Ok(true)
    ensures r.Err? <==> a.Err? || (a == Ok(true) && b.Err?)
  {
    match a
    case Err(e) => Err(e)
    case Ok(pass) => if pass then b else Ok(false)
  }

  /** Every key of a `set` rule resolves to something other than `undefined`. */
  predicate AllSet(keys: seq<string>, obj: Value) {
    forall i :: 0 <= i < |keys| ==> FindKey(keys[i], obj) != Absent
  }

  /** Every key of a `notSet` rule resolves to `undefined`. */
  predicate NoneSet(keys: seq<string>, obj: Value) {
    forall i :: 0 <= i < |keys| ==> FindKey(keys[i], obj) == Absent
  }

  /** The result of `matchesAllFilters`: the six categories in order. */
  function MatchesAll(f: FilterRules, re: RegexEngine, obj: Value): Result<bool, FilterError> {
    AndThen(RulesPass(Test(Equals, re), obj, f.equals),
    AndThen(RulesPass(Test(NotEquals, re), obj, f.notEquals),
    AndThen(RulesPass(Test(Contains, re), obj, f.contains),
    AndThen(RulesPass(Test(NotContains, re), obj, f.notContains),
    Ok(AllSet(f.isSet, obj) && NoneSet(f.notSet, obj))))))
  }

  /** `matchesAllFilters(node)`. */
  method MatchesAllFilters(f: FilterRules, re: RegexEngine, obj: Value) returns (r: Result<bool, FilterError>)
    ensures r == MatchesAll(f, re, obj)
  {
    r := MatchesFilter(f.equals, obj, Test(Equals, re));
    if r != Ok(true) {
      return r;
    }
    r := MatchesFilter(f.notEquals, obj, Test(NotEquals, re));
    if r != Ok(true) {
      return r;
    }
    r := MatchesFilter(f.contains, obj, Test(Contains, re));
    if r != Ok(true) {
      return r;
    }
    r := MatchesFilter(f.notContains, obj, Test(NotContains, re));
    if r != Ok(true) {
      return r;
    }
    var allSet := AllKeysSet(f.isSet, obj);
    if !allSet {
      return Ok(false);
    }
    var notSet := NoKeysSet(f.notSet, obj);
    return Ok(notSet);
  }

  /** The `set` loop of `matchesAllFilters`. */
  method AllKeysSet(keys: seq<string>, obj: Value) returns (b: bool)
    ensures b == AllSet(keys, obj)
  {
    var i := 0;
    while i < |keys|
      invariant 0 <= i <= |keys|
      invariant forall j :: 0 <= j < i ==> FindKey(keys[j], obj) != Absent
    {
      if FindKey(keys[i], obj) == Absent {
        return false;
      }
      i := i + 1;
    }
    return true;
  }

  /** The `notSet` loop of `matchesAllFilters`. */
  method NoKeysSet(keys: seq<string>, obj: Value) returns (b: bool)
    ensures b == NoneSet(keys, obj)
  {
    var i := 0;
    while i < |keys|
      invariant 0 <= i <= |keys|
      invariant forall j :: 0 <= j < i ==> FindKey(keys[j], obj) == Absent
    {
      if FindKey(keys[i], obj) != Absent {
        return false;
      }
      i := i + 1;
    }
    return true;
  }

  /** An object passes the filters exactly when every rule of every category passes. */
  lemma MatchesAllIff(f: FilterRules, re: RegexEngine, obj: Value)
    ensures MatchesAll(f, re, obj) == Ok(true) <==>
      (forall i :: 0 <= i < |f.equals| ==> Outcome(Test(Equals, re), obj, f.equals[i]) == Ok(true)) &&
      (forall i :: 0 <= i < |f.notEquals| ==> Outcome(Test(NotEquals, re), obj, f.notEquals[i]) == Ok(true)) &&
      (forall i :: 0 <= i < |f.contains| ==> Outcome(Test(Contains, re), obj, f.contains[i]) == Ok(true)) &&
      (forall i :: 0 <= i < |f.notContains| ==> Outcome(Test(NotContains, re), obj, f.notContains[i]) == Ok(true)) &&
      AllSet(f.isSet, obj) && NoneSet(f.notSet, obj)
  {
    RulesPassAll(Test(Equals, re), obj, f.equals);
    RulesPassAll(Test(NotEquals, re), obj, f.notEquals);
    RulesPassAll(Test(Contains, re), obj, f.contains);
    RulesPassAll(Test(NotContains, re), obj, f.notContains);
  }

  /** With the default, empty `filterBy`, everything passes. */
  lemma NoFiltersPass(re: RegexEngine, obj: Value)
    ensures MatchesAll(NoFilters, re, obj) == Ok(true)
  {
  }

  /** Every rule of `f` is also a rule of `g`, in the same category. */
  predicate SubRules(f: FilterRules, g: FilterRules) {
    (forall x :: x in f.equals ==> x in g.equals) &&
    (forall x :: x in f.notEquals ==> x in g.notEquals) &&
    (forall x :: x in f.contains ==> x in g.contains) &&
    (forall x :: x in f.notContains ==> x in g.notContains) &&
    (forall k :: k in f.isSet ==> k in g.isSet) &&
    (forall k :: k in f.notSet ==> k in g.notSet)
  }

  /** Adding rules can never let through an object that was not let through before. */
  lemma MoreRulesPassLess(f: FilterRules, g: FilterRules, re: RegexEngine, obj: Value)
    requires SubRules(f, g)
    ensures MatchesAll(g, re, obj) == Ok(true) ==> MatchesAll(f, re, obj) == Ok(true)
  {
    MatchesAllIff(f, re, obj);
    MatchesAllIff(g, re, obj);
    if MatchesAll(g, re, obj) == Ok(true) {
      SubRuleList(Test(Equals, re), obj, f.equals, g.equals);
      SubRuleList(Test(NotEquals, re), obj, f.notEquals, g.notEquals);
      SubRuleList(Test(Contains, re), obj, f.contains, g.contains);
      SubRuleList(Test(NotContains, re), obj, f.notContains, g.notContains);
      SubKeyLists(f, g, obj);
    }
  }

  lemma SubKeyLists(f: FilterRules, g: FilterRules, obj: Value)
    requires SubRules(f, g) && AllSet(g.isSet, obj) && NoneSet(g.notSet, obj)
    ensures AllSet(f.isSet, obj) && NoneSet(f.notSet, obj)
  {
    forall i | 0 <= i < |f.isSet|
      ensures FindKey(f.isSet[i], obj) != Absent
    {
      assert f.isSet[i] in g.isSet;
    }
    forall i | 0 <= i < |f.notSet|
      ensures FindKey(f.notSet[i], obj) == Absent
    {
      assert f.notSet[i] in g.notSet;
    }
  }

  lemma SubRuleList(test: Tester, obj: Value, rs: seq<Rule>, gs: seq<Rule>)
    requires forall x :: x in rs ==> x in gs
    requires forall j :: 0 <= j < |gs| ==> Outcome(test, obj, gs[j]) == Ok(true)
    ensures forall i :: 0 <= i < |rs| ==> Outcome(test, obj, rs[i]) == Ok(true)
  {
    forall i | 0 <= i < |rs|
      ensures Outcome(test, obj, rs[i]) == Ok(true)
    {
      assert rs[i] in gs;
      var j :| 0 <= j < |gs| && gs[j] == rs[i];
    }
  }

  /**
   * Filtering throws only through a contains or notContains rule whose value
   * is not a string or whose pattern does not compile.
   */
  lemma ErrorsOnlyFromPatterns(f: FilterRules, re: RegexEngine, obj: Value)
    ensures MatchesAll(f, re, obj).Err? ==>
      exists rule :: (rule in f.contains || rule in f.notContains) &&
        !(FindKey(rule.key, obj).Str? && re.compiles(rule.expected))
  {
    RulesErrFromRule(Test(Equals, re), obj, f.equals);
    RulesErrFromRule(Test(NotEquals, re), obj, f.notEquals);
    RulesErrFromRule(Test(Contains, re), obj, f.contains);
    RulesErrFromRule(Test(NotContains, re), obj, f.notContains);
  }

  /** A per-record test that may throw, as passed to `Array.prototype.filter`. */
  type Verdict = Instance -> Result<bool, FilterError>

  /** `d => this.matchesAllFilters(d)`. */
  function Matches(f: FilterRules, re: RegexEngine): Verdict {
    r => MatchesAll(f, re, AsValue(r))
  }

  /** Whether a record's test passed; the key that `Members` selects on. */
  function Kept(verdict: Verdict): Instance -> bool {
    r => verdict(r) == Ok(true)
  }

  /**
   * `instances.filter(verdict)`: the records that pass, or the first error
   * met, scanning from the front.
   */
  function Filtered(verdict: Verdict, xs: seq<Instance>): Result<seq<Instance>, FilterError>
    decreases |xs|
  {
    if xs == [] then Ok([])
    else
      match Filtered(verdict, xs[..|xs| - 1])
      case Err(e) => Err(e)
      case Ok(ys) =>
        match verdict(xs[|xs| - 1])
        case Err(e) => Err(e)
        case Ok(pass) => Ok(if pass then ys + [xs[|xs| - 1]] else ys)
  }

  /** The filter step of `update`. */
  method FilterInstances(f: FilterRules, re: RegexEngine, xs: seq<Instance>)
      returns (r: Result<seq<Instance>, FilterError>)
    ensures r == Filtered(Matches(f, re), xs)
  {
    var kept := [];
    var i := 0;
    while i < |xs|
      invariant 0 <= i <= |xs|
      invariant Filtered(Matches(f, re), xs[..i]) == Ok(kept)
    {
      assert xs[..i + 1][..i] == xs[..i];
      var pass := MatchesAllFilters(f, re, AsValue(xs[i]));
      if pass.Err? {
        FilteredErrSticks(Matches(f, re), xs, i + 1);
        return Err(pass.error);
      }
      if pass.value {
        kept := kept + [xs[i]];
      }
      i := i + 1;
    }
    assert xs[..i] == xs;
    return Ok(kept);
  }

  /** Once a prefix has thrown, the whole list throws the same error. */
  lemma {:induction false} FilteredErrSticks(verdict: Verdict, xs: seq<Instance>, n: nat)
    requires n <= |xs| && Filtered(verdict, xs[..n]).Err?
    ensures Filtered(verdict, xs) == Filtered(verdict, xs[..n])
    decreases |xs| - n
  {
    if n < |xs| {
      assert xs[..n + 1][..n] == xs[..n];
      FilteredErrSticks(verdict, xs, n + 1);
    } else {
      assert xs[..n] == xs;
    }
  }

  /** Filtering throws exactly when some record's test throws. */
  lemma {:induction false} FilteredOkIff(verdict: Verdict, xs: seq<Instance>)
    ensures Filtered(verdict, xs).Ok? <==> forall i :: 0 <= i < |xs| ==> verdict(xs[i]).Ok?
    decreases |xs|
  {
    if xs != [] {
      var init := xs[..|xs| - 1];
      FilteredOkIff(verdict, init);
      assert forall i :: 0 <= i < |init| ==> init[i] == xs[i];
    }
  }

  /**
   * When no record throws, filtering keeps exactly the records that pass, in
   * their original order.
   */
  lemma {:induction false} FilteredKeepsPassing(verdict: Verdict, xs: seq<Instance>)
    requires Filtered(verdict, xs).Ok?
    ensures Filtered(verdict, xs).value == Members(xs, Kept(verdict), true)
    decreases |xs|
  {
    if xs != [] {
      var n := |xs| - 1;
      var init, last := xs[..n], xs[n];
      assert xs == init + [last];
      FilteredKeepsPassing(verdict, init);
    }
  }

  /** Under the default filters every record is kept. */
  lemma NoFiltersKeepAll(re: RegexEngine, xs: seq<Instance>)
    ensures Filtered(Matches(NoFilters, re), xs) == Ok(xs)
  {
    FilteredOkIff(Matches(NoFilters, re), xs);
    FilteredKeepsPassing(Matches(NoFilters, re), xs);
    AllPassKeepsAll(xs, Kept(Matches(NoFilters, re)));
  }

  lemma {:induction false} AllPassKeepsAll(xs: seq<Instance>, pass: Instance -> bool)
    requires forall i :: 0 <= i < |xs| ==> pass(xs[i])
    ensures Members(xs, pass, true) == xs
    decreases |xs|
  {
    if xs != [] {
      AllPassKeepsAll(xs[..|xs| - 1], pass);
      assert xs[..|xs| - 1] + [xs[|xs| - 1]] == xs;
    }
  }
}
