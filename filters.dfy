/** The free-text search of the two rule list views (`filters.py`): the `q` filter of each rule
    filter set. */
module Filters {
  import opened Wrappers
  import opened Text
  import opened Seqs
  import opened Rules

  /** `Q(<column>__icontains=q)` on a nullable column: a `NULL` never matches. */
  predicate OptionalContains(column: Option<string>, q: string)
  {
    column.Some? && ContainsIgnoreCase(column.value, q)
  }

  /** The tests both filter sets share: a case-insensitive substring of the name, the slug or the
      error message, or exactly the app label, the model or the field. */
  predicate CommonMatch(rule: Rule, q: string)
  {
    || ContainsIgnoreCase(rule.name, q)
    || ContainsIgnoreCase(rule.slug, q)
    || OptionalContains(rule.errorMessage, q)
    || rule.contentType.appLabel == q
    || rule.contentType.model == q
    || rule.field == q
  }

  /** The `qs_filter` of `RegularExpressionValidationRuleFilterSet.search`, which also looks into
      the regular expression. */
  predicate RegexMatch(rule: RegexRule, q: string)
  {
    CommonMatch(rule, q) || ContainsIgnoreCase(rule.regularExpression, q)
  }

  /** The `qs_filter` of `MinMaxValidationRuleFilterSet.search`. */
  predicate MinMaxMatch(rule: MinMaxRule, q: string)
  {
    CommonMatch(rule, q)
  }

  /** `RegularExpressionValidationRuleFilterSet.search`: a blank query keeps the queryset,
      any other keeps the rules the query matches, in their order. */
  function SearchRegexRules(rules: seq<RegexRule>, value: string): (r: seq<RegexRule>)
    ensures IsBlank(value) ==> r == rules
    ensures !IsBlank(value) ==> forall i :: 0 <= i < |r| ==> r[i] in rules && RegexMatch(r[i], value)
    ensures !IsBlank(value) ==> forall i :: 0 <= i < |rules| && RegexMatch(rules[i], value) ==> rules[i] in r
    ensures !IsBlank(value) ==>
      forall x :: multiset(r)[x] == if RegexMatch(x, value) then multiset(rules)[x] else 0
  {
    if IsBlank(value) then rules
    else
      FilterMultiset(rules, (rule: RegexRule) => RegexMatch(rule, value));
      Filter(rules, (rule: RegexRule) => RegexMatch(rule, value))
  }

  /** `MinMaxValidationRuleFilterSet.search`. */
  function SearchMinMaxRules(rules: seq<MinMaxRule>, value: string): (r: seq<MinMaxRule>)
    ensures IsBlank(value) ==> r == rules
    ensures !IsBlank(value) ==> forall i :: 0 <= i < |r| ==> r[i] in rules && MinMaxMatch(r[i], value)
    ensures !IsBlank(value) ==> forall i :: 0 <= i < |rules| && MinMaxMatch(rules[i], value) ==> rules[i] in r
    ensures !IsBlank(value) ==>
      forall x :: multiset(r)[x] == if MinMaxMatch(x, value) then multiset(rules)[x] else 0
  {
    if IsBlank(value) then rules
    else
      FilterMultiset(rules, (rule: MinMaxRule) => MinMaxMatch(rule, value));
      Filter(rules, (rule: MinMaxRule) => MinMaxMatch(rule, value))
  }

  /** A search never adds or reorders rules: searching two querysets one after the other gives
      the two results one after the other. */
  lemma SearchRegexRulesAppend(a: seq<RegexRule>, b: seq<RegexRule>, value: string)
    ensures SearchRegexRules(a + b, value) == SearchRegexRules(a, value) + SearchRegexRules(b, value)
  {
    if !IsBlank(value) {
      FilterAppend(a, b, (rule: RegexRule) => RegexMatch(rule, value));
    }
  }

  lemma SearchMinMaxRulesAppend(a: seq<MinMaxRule>, b: seq<MinMaxRule>, value: string)
    ensures SearchMinMaxRules(a + b, value) == SearchMinMaxRules(a, value) + SearchMinMaxRules(b, value)
  {
    if !IsBlank(value) {
      FilterAppend(a, b, (rule: MinMaxRule) => MinMaxMatch(rule, value));
    }
  }

  /** The result is at most as long as the queryset, and equal to it when every rule matches. */
  lemma SearchRegexRulesKeepsAll(rules: seq<RegexRule>, value: string)
    requires forall i :: 0 <= i < |rules| ==> RegexMatch(rules[i], value)
    ensures SearchRegexRules(rules, value) == rules
  {
    if !IsBlank(value) {
      FilterKeepsAll(rules, (rule: RegexRule) => RegexMatch(rule, value));
    }
  }

  /** The same for the min/max search. */
  lemma SearchMinMaxRulesKeepsAll(rules: seq<MinMaxRule>, value: string)
    requires forall i :: 0 <= i < |rules| ==> MinMaxMatch(rules[i], value)
    ensures SearchMinMaxRules(rules, value) == rules
  {
    if !IsBlank(value) {
      FilterKeepsAll(rules, (rule: MinMaxRule) => MinMaxMatch(rule, value));
    }
  }

  /** A string is not a substring of a shorter one. */
  lemma NotContainedInShorter(s: string, q: string)
    requires |s| < |q|
    ensures !ContainsIgnoreCase(s, q)
  {
  }

  /** The query is matched as typed: only the blank test strips it. A rule whose field is `name`
      is found by `"name"` but not by `" name"`. */
  lemma SearchDoesNotStrip()
    ensures var rule: RegexRule := Regex("r", "r", ContentType("dcim", "device"), true, None, "name", "x");
            && SearchRegexRules([rule], "name") == [rule]
            && SearchRegexRules([rule], " name") == []
  {
    var rule: RegexRule := Regex("r", "r", ContentType("dcim", "device"), true, None, "name", "x");
    assert !IsBlank("name") by {
      assert !IsSpace("name"[0]);
    }
    assert !IsBlank(" name") by {
      assert !IsSpace(" name"[1]);
    }
    NotContainedInShorter("r", " name");
    NotContainedInShorter("x", " name");
    assert !RegexMatch(rule, " name");
  }
}
