/** The save-time rule evaluator (`custom_validators.py`): the `clean` method shared by every
    generated validator, which checks an object against the enabled rules of its model, and the
    generator of one validator class per registered model. */
module CustomValidators {
  import opened Wrappers
  import opened Text
  import opened Fields
  import opened Rules

  /** The regular-expression engine, which is not modelled: `compiles(p)` holds when
      `re.compile(p)` does not raise `re.error`, and `matches(p, s)` when `re.match(p, s)` returns
      a match. */
  datatype RegexEngine = RegexEngine(compiles: string -> bool, matches: (string, string) -> bool)

  /** The message of a violation, before formatting. */
  datatype Message =
    | Custom(text: string)                                // the rule's own `error_message`
    | RegexMismatch(pattern: string)                      // "Value does not conform to regex: ..."
    | MinMaxMissing(min: Option<real>, max: Option<real>) // "... mix/max validation: min ..., max ..."
    | NotNumeric(ruleName: string)                        // "Unable to validate against min/max rule ..."
    | BelowMinimum(bound: real)                           // "Value is less than minimum value: ..."
    | AboveMaximum(bound: real)                           // "Value is more than maximum value: ..."

  /** The text of a message; `show` is Python's `str` of a float, which is not modelled. */
  function Render(m: Message, show: real -> string): string
  {
    match m
    case Custom(text) => text
    case RegexMismatch(pattern) => "Value does not conform to regex: " + pattern
    case MinMaxMissing(min, max) =>
      "Value does not conform to mix/max validation: min " + ShowOptional(min, show)
      + ", max " + ShowOptional(max, show)
    case NotNumeric(ruleName) =>
      "Unable to validate against min/max rule " + ruleName + " because the field value is not numeric."
    case BelowMinimum(min) => "Value is less than minimum value: " + show(min)
    case AboveMaximum(max) => "Value is more than maximum value: " + show(max)
  }

  function ShowOptional(x: Option<real>, show: real -> string): string
  {
    if x.Some? then show(x.value) else "None"
  }

  /** Why `clean` raised: a violation reported through `validation_error` (a `ValidationError`
      keyed by the rule's field), or an exception that escapes from the code itself. */
  datatype CleanError =
    | Violation(field: string, message: Message)
    | MalformedModel(reason: string)   // `ValueError` from `get_for_model`'s unpacking
    | MissingAttribute(name: string)   // `AttributeError` from `getattr`
    | NotAString(field: string)        // `TypeError` from `re.match` on a non-string value
    | InvalidPattern(pattern: string)  // `re.error` from `re.match` on a pattern that does not compile

  /** `rule.error_message or default`: an unset or empty message falls back to the default. */
  function ErrorOr(rule: Rule, default: Message): (m: Message)
    ensures rule.errorMessage.Some? && rule.errorMessage.value != "" ==> m == Custom(rule.errorMessage.value)
    ensures rule.errorMessage.None? || rule.errorMessage.value == "" ==> m == default
  {
    if rule.errorMessage.Some? && rule.errorMessage.value != "" then Custom(rule.errorMessage.value)
    else default
  }

  /** The text a regular expression is matched against: `None` is coerced to `""`, any other
      non-string has no text. */
  function MatchText(v: Value): (t: Option<string>)
    ensures v.NoneValue? ==> t == Some("")
    ensures v.StrValue? ==> t == Some(v.s)
    ensures t.Some? <==> v.NoneValue? || v.StrValue?
  {
    match v
    case NoneValue => Some("")
    case StrValue(s) => Some(s)
    case _ => None
  }

  /** The body of the first loop of `clean` for one regular-expression rule. `re.match(p, v)`
      compiles `p` before it looks at `v`, so a pattern that does not compile raises before a
      value that is not a string does. */
  function RegexCheck(rule: RegexRule, obj: Attributes, re: RegexEngine): (r: Outcome<CleanError>)
    ensures r.Pass? <==>
      rule.field in obj && MatchText(obj[rule.field]).Some? && re.compiles(rule.regularExpression)
      && re.matches(rule.regularExpression, MatchText(obj[rule.field]).value)
    ensures rule.field !in obj ==> r == Fail(MissingAttribute(rule.field))
    ensures rule.field in obj && !re.compiles(rule.regularExpression) ==>
      r == Fail(InvalidPattern(rule.regularExpression))
    ensures rule.field in obj && re.compiles(rule.regularExpression) && MatchText(obj[rule.field]).None? ==>
      r == Fail(NotAString(rule.field))
    ensures rule.field in obj && re.compiles(rule.regularExpression) && MatchText(obj[rule.field]).Some?
            && !re.matches(rule.regularExpression, MatchText(obj[rule.field]).value) ==>
      r == Fail(Violation(rule.field, ErrorOr(rule, RegexMismatch(rule.regularExpression))))
  {
    match GetAttr(obj, rule.field)
    case None => Fail(MissingAttribute(rule.field))
    case Some(v) =>
      if !re.compiles(rule.regularExpression) then Fail(InvalidPattern(rule.regularExpression))
      else
        match MatchText(v)
        case None => Fail(NotAString(rule.field))
        case Some(text) =>
          if !re.matches(rule.regularExpression, text) then
            Fail(Violation(rule.field, ErrorOr(rule, RegexMismatch(rule.regularExpression))))
          else Pass
  }

  /** `isinstance(v, (int, float))` as written, with the number compared against the bounds
      (`bool` is a subclass of `int`). A `Decimal`, what a `DecimalField` holds, is not one. */
  function NumberAsWritten(v: Value): (x: Option<real>)
    ensures x.Some? <==> v.IntValue? || v.BoolValue? || v.FloatValue?
    ensures v.IntValue? ==> x == Some(v.i as real)
    ensures v.FloatValue? ==> x == Some(v.f)
  {
    match v
    case IntValue(i) => Some(i as real)
    case BoolValue(b) => Some(if b then 1.0 else 0.0)
    case FloatValue(f) => Some(f)
    case _ => None
  }

  /** The numeric test with `Decimal` values admitted, as the min/max rule's own `clean`, which
      accepts `DecimalField`, evidently intends. */
  function Number(v: Value): (x: Option<real>)
    ensures v.DecimalValue? ==> x == Some(v.d)
    ensures !v.DecimalValue? ==> x == NumberAsWritten(v)
  {
    match v
    case DecimalValue(d) => Some(d)
    case _ => NumberAsWritten(v)
  }

  /** The body of the second loop of `clean` for one min/max rule, with `number` as its numeric
      test: an elif chain that reports at most one violation. */
  function MinMaxCheckWith(rule: MinMaxRule, obj: Attributes, number: Value -> Option<real>): (r: Outcome<CleanError>)
    ensures r.Fail? && r.error.Violation? ==> r.error.field == rule.field
    ensures r.Fail? && !r.error.Violation? ==> r == Fail(MissingAttribute(rule.field))
    ensures r == Fail(MissingAttribute(rule.field)) <==> rule.field !in obj
  {
    match GetAttr(obj, rule.field)
    case None => Fail(MissingAttribute(rule.field))
    case Some(v) =>
      if v.NoneValue? then Fail(Violation(rule.field, ErrorOr(rule, MinMaxMissing(rule.min, rule.max))))
      else if number(v).None? then Fail(Violation(rule.field, NotNumeric(rule.name)))
      else if rule.min.Some? && number(v).value < rule.min.value then
        Fail(Violation(rule.field, ErrorOr(rule, BelowMinimum(rule.min.value))))
      else if rule.max.Some? && number(v).value > rule.max.value then
        Fail(Violation(rule.field, ErrorOr(rule, AboveMaximum(rule.max.value))))
      else Pass
  }

  /** The min/max check as the source has it. */
  function MinMaxCheckAsWritten(rule: MinMaxRule, obj: Attributes): Outcome<CleanError>
  {
    MinMaxCheckWith(rule, obj, NumberAsWritten)
  }

  /** The min/max check with `Decimal` values compared against the bounds. */
  function MinMaxCheck(rule: MinMaxRule, obj: Attributes): Outcome<CleanError>
  {
    MinMaxCheckWith(rule, obj, Number)
  }

  /** The two checks differ only on `Decimal` values: on an integer, a float, a boolean, a
      string, `None` or a missing attribute they give the same outcome. */
  lemma MinMaxCheckAgreesOffDecimal(rule: MinMaxRule, obj: Attributes)
    requires rule.field !in obj || !obj[rule.field].DecimalValue?
    ensures MinMaxCheckAsWritten(rule, obj) == MinMaxCheck(rule, obj)
  {
    if rule.field in obj {
      assert Number(obj[rule.field]) == NumberAsWritten(obj[rule.field]);
    }
  }

  /** As written, every `Decimal` value violates a min/max rule with the "not numeric" message,
      even one that lies within the bounds. */
  lemma DecimalRejectedAsWritten(rule: MinMaxRule, obj: Attributes)
    requires rule.field in obj && obj[rule.field].DecimalValue?
    ensures MinMaxCheckAsWritten(rule, obj) == Fail(Violation(rule.field, NotNumeric(rule.name)))
  {
  }

  /** Corrected, a `Decimal` value is checked against the bounds like any other number. */
  lemma DecimalCheckedAgainstBounds(rule: MinMaxRule, obj: Attributes)
    requires rule.field in obj && obj[rule.field].DecimalValue?
    ensures MinMaxCheck(rule, obj).Pass? <==>
      (rule.min.None? || rule.min.value <= obj[rule.field].d)
      && (rule.max.None? || obj[rule.field].d <= rule.max.value)
  {
    MinMaxPassIff(rule, obj, Number);
  }

  /** A number passes a min/max rule exactly when it lies within the bounds, both ends included,
      an unset bound constraining nothing; this holds for the test as written and corrected. */
  lemma MinMaxPassIff(rule: MinMaxRule, obj: Attributes, number: Value -> Option<real>)
    requires rule.field in obj && obj[rule.field] != NoneValue && number(obj[rule.field]).Some?
    ensures MinMaxCheckWith(rule, obj, number).Pass? <==>
      (rule.min.None? || rule.min.value <= number(obj[rule.field]).value)
      && (rule.max.None? || number(obj[rule.field]).value <= rule.max.value)
  {
  }

  /** A number below a set minimum reports the minimum. */
  lemma MinMaxBelowMinimum(rule: MinMaxRule, obj: Attributes, number: Value -> Option<real>)
    requires rule.field in obj && obj[rule.field] != NoneValue && number(obj[rule.field]).Some?
    requires rule.min.Some? && number(obj[rule.field]).value < rule.min.value
    ensures MinMaxCheckWith(rule, obj, number)
         == Fail(Violation(rule.field, ErrorOr(rule, BelowMinimum(rule.min.value))))
  {
  }

  /** A number that satisfies the minimum but lies above a set maximum reports the maximum. */
  lemma MinMaxAboveMaximum(rule: MinMaxRule, obj: Attributes, number: Value -> Option<real>)
    requires rule.field in obj && obj[rule.field] != NoneValue && number(obj[rule.field]).Some?
    requires rule.min.None? || rule.min.value <= number(obj[rule.field]).value
    requires rule.max.Some? && number(obj[rule.field]).value > rule.max.value
    ensures MinMaxCheckWith(rule, obj, number)
         == Fail(Violation(rule.field, ErrorOr(rule, AboveMaximum(rule.max.value))))
  {
  }

  /** A `None` value violates every min/max rule, whatever its bounds. */
  lemma MinMaxNoneViolates(rule: MinMaxRule, obj: Attributes, number: Value -> Option<real>)
    requires rule.field in obj && obj[rule.field] == NoneValue
    ensures MinMaxCheckWith(rule, obj, number)
         == Fail(Violation(rule.field, ErrorOr(rule, MinMaxMissing(rule.min, rule.max))))
  {
  }

  /** A value that is not a number gets the fixed message naming the rule; the rule's own
      `error_message` is not used. */
  lemma MinMaxNotNumericIgnoresMessage(rule: MinMaxRule, obj: Attributes, number: Value -> Option<real>,
                                       message: Option<string>)
    requires rule.field in obj && obj[rule.field] != NoneValue && number(obj[rule.field]).None?
    ensures MinMaxCheckWith(rule, obj, number) == Fail(Violation(rule.field, NotNumeric(rule.name)))
    ensures MinMaxCheckWith(MinMax(rule.name, rule.slug, rule.contentType, rule.enabled, message,
                                   rule.field, rule.min, rule.max), obj, number)
         == MinMaxCheckWith(rule, obj, number)
  {
  }

  /** When a value lies below the minimum and above the maximum (possible only for a rule whose
      bounds are reversed), the minimum is the one reported. */
  lemma MinMaxMinimumFirst(rule: MinMaxRule, obj: Attributes, number: Value -> Option<real>)
    requires rule.field in obj && obj[rule.field] != NoneValue && number(obj[rule.field]).Some?
    requires rule.min.Some? && rule.max.Some?
    requires number(obj[rule.field]).value < rule.min.value && number(obj[rule.field]).value > rule.max.value
    ensures MinMaxCheckWith(rule, obj, number)
         == Fail(Violation(rule.field, ErrorOr(rule, BelowMinimum(rule.min.value))))
  {
  }

  /** `None` is matched as the empty string, so a pattern that rejects `""` reports `None`. */
  lemma RegexNoneIsEmpty(rule: RegexRule, obj: Attributes, re: RegexEngine)
    requires rule.field in obj && obj[rule.field] == NoneValue
    ensures RegexCheck(rule, obj, re) == RegexCheck(rule, obj[rule.field := StrValue("")], re)
  {
  }

  /** The first loop of `clean` from the rule `rs[0]` on: the first failing check, if any. */
  function RegexLoop(rs: seq<Rule>, obj: Attributes, re: RegexEngine): (r: Outcome<CleanError>)
    requires forall j :: 0 <= j < |rs| ==> rs[j].Regex?
    ensures r.Pass? <==> forall j :: 0 <= j < |rs| ==> RegexCheck(rs[j], obj, re).Pass?
    ensures r.Fail? ==> exists j :: 0 <= j < |rs| && RegexCheck(rs[j], obj, re) == r
  {
    if rs == [] then Pass
    else
      var check := RegexCheck(rs[0], obj, re);
      if check.Fail? then check
      else
        var rest := RegexLoop(rs[1..], obj, re);
        assert rest.Fail? ==> exists j :: 0 <= j < |rs| && RegexCheck(rs[j], obj, re) == rest by {
          if rest.Fail? {
            var k :| 0 <= k < |rs[1..]| && RegexCheck(rs[1..][k], obj, re) == rest;
            assert rs[1..][k] == rs[k + 1];
          }
        }
        rest
  }

  /** The second loop of `clean` from the rule `ms[0]` on, with `number` as the numeric test. */
  function MinMaxLoop(ms: seq<Rule>, obj: Attributes, number: Value -> Option<real>): (r: Outcome<CleanError>)
    requires forall j :: 0 <= j < |ms| ==> ms[j].MinMax?
    ensures r.Pass? <==> forall j :: 0 <= j < |ms| ==> MinMaxCheckWith(ms[j], obj, number).Pass?
    ensures r.Fail? ==> exists j :: 0 <= j < |ms| && MinMaxCheckWith(ms[j], obj, number) == r
  {
    if ms == [] then Pass
    else
      var check := MinMaxCheckWith(ms[0], obj, number);
      if check.Fail? then check
      else
        var rest := MinMaxLoop(ms[1..], obj, number);
        assert rest.Fail? ==> exists j :: 0 <= j < |ms| && MinMaxCheckWith(ms[j], obj, number) == rest by {
          if rest.Fail? {
            var k :| 0 <= k < |ms[1..]| && MinMaxCheckWith(ms[1..][k], obj, number) == rest;
            assert ms[1..][k] == ms[k + 1];
          }
        }
        rest
  }

  /** The object holds no `Decimal` value. */
  predicate NoDecimals(obj: Attributes)
  {
    forall k :: k in obj ==> !obj[k].DecimalValue?
  }

  /** On an object without `Decimal` values the min/max loop as written and corrected agree. */
  lemma {:induction false} MinMaxLoopAgreesOffDecimal(ms: seq<Rule>, obj: Attributes)
    requires forall j :: 0 <= j < |ms| ==> ms[j].MinMax?
    requires NoDecimals(obj)
    ensures MinMaxLoop(ms, obj, NumberAsWritten) == MinMaxLoop(ms, obj, Number)
  {
    if ms != [] {
      MinMaxCheckAgreesOffDecimal(ms[0], obj);
      MinMaxLoopAgreesOffDecimal(ms[1..], obj);
    }
  }

  /** What `BaseValidator.clean` does for an object of the model `model`, with `number` as the
      numeric test: every enabled regular-expression rule of the model in name order, then every
      enabled min/max rule, with the first violation or exception ending the call. */
  function CleanResultWith(regexRules: seq<RegexRule>, minMaxRules: seq<MinMaxRule>, model: string,
                           obj: Attributes, re: RegexEngine, number: Value -> Option<real>): Outcome<CleanError>
  {
    match GetForModel(regexRules, model)
    case Failure(e) => Fail(MalformedModel(e))
    case Success(rs) =>
      var first := RegexLoop(rs, obj, re);
      if first.Fail? then first
      else
        match GetForModel(minMaxRules, model)
        case Failure(e) => Fail(MalformedModel(e))
        case Success(ms) => MinMaxLoop(ms, obj, number)
  }

  /** `clean` as written. */
  function CleanResult(regexRules: seq<RegexRule>, minMaxRules: seq<MinMaxRule>, model: string,
                       obj: Attributes, re: RegexEngine): Outcome<CleanError>
  {
    CleanResultWith(regexRules, minMaxRules, model, obj, re, NumberAsWritten)
  }

  /** `clean` with `Decimal` values compared against the bounds. */
  function CleanResultCorrected(regexRules: seq<RegexRule>, minMaxRules: seq<MinMaxRule>, model: string,
                                obj: Attributes, re: RegexEngine): Outcome<CleanError>
  {
    CleanResultWith(regexRules, minMaxRules, model, obj, re, Number)
  }

  /** The object satisfies every enabled regular-expression rule of the model. */
  predicate SatisfiesRegexRules(regexRules: seq<RegexRule>, model: string, obj: Attributes, re: RegexEngine)
  {
    forall i :: 0 <= i < |regexRules| && AppliesTo(regexRules[i], model) ==>
      RegexCheck(regexRules[i], obj, re).Pass?
  }

  /** The object satisfies every enabled min/max rule of the model. */
  predicate SatisfiesMinMaxRules(minMaxRules: seq<MinMaxRule>, model: string, obj: Attributes,
                                 number: Value -> Option<real>)
  {
    forall i :: 0 <= i < |minMaxRules| && AppliesTo(minMaxRules[i], model) ==>
      MinMaxCheckWith(minMaxRules[i], obj, number).Pass?
  }

  /** An object passes the regular-expression phase exactly when it satisfies every enabled
      regular-expression rule of its model. */
  lemma RegexPhasePassIff(regexRules: seq<RegexRule>, model: string, obj: Attributes, re: RegexEngine)
    requires Count(model, '.') == 1
    ensures forall j :: 0 <= j < |GetForModel(regexRules, model).value| ==>
      GetForModel(regexRules, model).value[j].Regex?
    ensures RegexLoop(GetForModel(regexRules, model).value, obj, re).Pass? <==>
      SatisfiesRegexRules(regexRules, model, obj, re)
  {
    var rs := GetForModel(regexRules, model).value;
    forall j | 0 <= j < |rs| ensures rs[j].Regex? {
      var i :| 0 <= i < |regexRules| && regexRules[i] == rs[j];
    }
  }

  /** An object passes the min/max phase exactly when it satisfies every enabled min/max rule
      of its model. */
  lemma MinMaxPhasePassIff(minMaxRules: seq<MinMaxRule>, model: string, obj: Attributes,
                           number: Value -> Option<real>)
    requires Count(model, '.') == 1
    ensures forall j :: 0 <= j < |GetForModel(minMaxRules, model).value| ==>
      GetForModel(minMaxRules, model).value[j].MinMax?
    ensures MinMaxLoop(GetForModel(minMaxRules, model).value, obj, number).Pass? <==>
      SatisfiesMinMaxRules(minMaxRules, model, obj, number)
  {
    var ms := GetForModel(minMaxRules, model).value;
    forall j | 0 <= j < |ms| ensures ms[j].MinMax? {
      var i :| 0 <= i < |minMaxRules| && minMaxRules[i] == ms[j];
    }
  }

  /** An object passes `clean` exactly when the model label is well formed and the object
      satisfies every enabled rule of its model, the numeric test as written or corrected. */
  lemma CleanPassIff(regexRules: seq<RegexRule>, minMaxRules: seq<MinMaxRule>, model: string,
                     obj: Attributes, re: RegexEngine, number: Value -> Option<real>)
    ensures CleanResultWith(regexRules, minMaxRules, model, obj, re, number).Pass? <==>
      && Count(model, '.') == 1
      && SatisfiesRegexRules(regexRules, model, obj, re)
      && SatisfiesMinMaxRules(minMaxRules, model, obj, number)
  {
    if Count(model, '.') == 1 {
      RegexPhasePassIff(regexRules, model, obj, re);
      MinMaxPhasePassIff(minMaxRules, model, obj, number);
    }
  }

  /** `clean` as written and corrected agree on every object without `Decimal` values. */
  lemma CleanAgreesOffDecimal(regexRules: seq<RegexRule>, minMaxRules: seq<MinMaxRule>, model: string,
                              obj: Attributes, re: RegexEngine)
    requires NoDecimals(obj)
    ensures CleanResult(regexRules, minMaxRules, model, obj, re)
         == CleanResultCorrected(regexRules, minMaxRules, model, obj, re)
  {
    if Count(model, '.') == 1 {
      MinMaxPhasePassIff(minMaxRules, model, obj, Number);
      MinMaxLoopAgreesOffDecimal(GetForModel(minMaxRules, model).value, obj);
    }
  }

  /** A failure of the regular-expression loop over rules drawn from `rules` is the outcome of
      one of those rules. */
  lemma RegexLoopFailureFromMember(rs: seq<Rule>, rules: seq<RegexRule>, model: string, obj: Attributes,
                                   re: RegexEngine)
    requires forall j :: 0 <= j < |rs| ==> rs[j] in rules && AppliesTo(rs[j], model)
    requires RegexLoop(rs, obj, re).Fail?
    ensures exists i :: 0 <= i < |rules| && AppliesTo(rules[i], model)
                        && RegexCheck(rules[i], obj, re) == RegexLoop(rs, obj, re)
  {
    var j :| 0 <= j < |rs| && RegexCheck(rs[j], obj, re) == RegexLoop(rs, obj, re);
    var i :| 0 <= i < |rules| && rules[i] == rs[j];
  }

  /** A failure of the min/max loop over rules drawn from `rules` is the outcome of one of
      those rules. */
  lemma MinMaxLoopFailureFromMember(ms: seq<Rule>, rules: seq<MinMaxRule>, model: string, obj: Attributes,
                                    number: Value -> Option<real>)
    requires forall j :: 0 <= j < |ms| ==> ms[j] in rules && AppliesTo(ms[j], model)
    requires MinMaxLoop(ms, obj, number).Fail?
    ensures exists i :: 0 <= i < |rules| && AppliesTo(rules[i], model)
                        && MinMaxCheckWith(rules[i], obj, number) == MinMaxLoop(ms, obj, number)
  {
    var j :| 0 <= j < |ms| && MinMaxCheckWith(ms[j], obj, number) == MinMaxLoop(ms, obj, number);
    var i :| 0 <= i < |rules| && rules[i] == ms[j];
  }

  /** A failure of the regular-expression phase is the outcome of one enabled rule. */
  lemma RegexPhaseFailureFromRule(regexRules: seq<RegexRule>, model: string, obj: Attributes, re: RegexEngine)
    requires Count(model, '.') == 1
    requires forall j :: 0 <= j < |GetForModel(regexRules, model).value| ==>
      GetForModel(regexRules, model).value[j].Regex?
    requires RegexLoop(GetForModel(regexRules, model).value, obj, re).Fail?
    ensures exists i :: 0 <= i < |regexRules| && AppliesTo(regexRules[i], model)
                        && RegexCheck(regexRules[i], obj, re) == RegexLoop(GetForModel(regexRules, model).value, obj, re)
  {
    RegexLoopFailureFromMember(GetForModel(regexRules, model).value, regexRules, model, obj, re);
  }

  /** A failure of the min/max phase is the outcome of one enabled rule. */
  lemma MinMaxPhaseFailureFromRule(minMaxRules: seq<MinMaxRule>, model: string, obj: Attributes,
                                   number: Value -> Option<real>)
    requires Count(model, '.') == 1
    requires forall j :: 0 <= j < |GetForModel(minMaxRules, model).value| ==>
      GetForModel(minMaxRules, model).value[j].MinMax?
    requires MinMaxLoop(GetForModel(minMaxRules, model).value, obj, number).Fail?
    ensures exists i :: 0 <= i < |minMaxRules| && AppliesTo(minMaxRules[i], model)
                        && MinMaxCheckWith(minMaxRules[i], obj, number)
                           == MinMaxLoop(GetForModel(minMaxRules, model).value, obj, number)
  {
    MinMaxLoopFailureFromMember(GetForModel(minMaxRules, model).value, minMaxRules, model, obj, number);
  }

  /** The first loop of `clean`. */
  method RunRegexRules(rs: seq<Rule>, obj: Attributes, re: RegexEngine) returns (r: Outcome<CleanError>)
    requires forall j :: 0 <= j < |rs| ==> rs[j].Regex?
    ensures r == RegexLoop(rs, obj, re)
  {
    var i := 0;
    while i < |rs|
      invariant 0 <= i <= |rs|
      invariant RegexLoop(rs[i..], obj, re) == RegexLoop(rs, obj, re)
    {
      assert rs[i..][1..] == rs[i + 1..];
      var check := RegexCheck(rs[i], obj, re);
      if check.Fail? {
        return check;
      }
      i := i + 1;
    }
    return Pass;
  }

  /** The second loop of `clean`, with `number` as the numeric test. */
  method RunMinMaxRules(ms: seq<Rule>, obj: Attributes, number: Value -> Option<real>) returns (r: Outcome<CleanError>)
    requires forall j :: 0 <= j < |ms| ==> ms[j].MinMax?
    ensures r == MinMaxLoop(ms, obj, number)
  {
    var i := 0;
    while i < |ms|
      invariant 0 <= i <= |ms|
      invariant MinMaxLoop(ms[i..], obj, number) == MinMaxLoop(ms, obj, number)
    {
      assert ms[i..][1..] == ms[i + 1..];
      var check := MinMaxCheckWith(ms[i], obj, number);
      if check.Fail? {
        return check;
      }
      i := i + 1;
    }
    return Pass;
  }

  /** The two loops of `clean` one after the other, with `number` as the numeric test. */
  method CleanWith(regexRules: seq<RegexRule>, minMaxRules: seq<MinMaxRule>, model: string,
                   obj: Attributes, re: RegexEngine, number: Value -> Option<real>) returns (r: Outcome<CleanError>)
    ensures r == CleanResultWith(regexRules, minMaxRules, model, obj, re, number)
  {
    var query := GetForModel(regexRules, model);
    if query.Failure? {
      return Fail(MalformedModel(query.error));
    }
    RegexPhasePassIff(regexRules, model, obj, re);
    r := RunRegexRules(query.value, obj, re);
    if r.Fail? {
      return r;
    }
    query := GetForModel(minMaxRules, model);
    MinMaxPhasePassIff(minMaxRules, model, obj, number);
    r := RunMinMaxRules(query.value, obj, number);
  }

  /** `BaseValidator.clean` as written, with `self.model` as `model`, `self.context["object"]`
      as `obj` and the two rule tables as `regexRules` and `minMaxRules`. */
  method Clean(regexRules: seq<RegexRule>, minMaxRules: seq<MinMaxRule>, model: string,
               obj: Attributes, re: RegexEngine) returns (r: Outcome<CleanError>)
    ensures r == CleanResult(regexRules, minMaxRules, model, obj, re)
  {
    r := CleanWith(regexRules, minMaxRules, model, obj, re, NumberAsWritten);
  }

  /** `BaseValidator.clean` with `Decimal` values compared against the bounds. */
  method CleanCorrected(regexRules: seq<RegexRule>, minMaxRules: seq<MinMaxRule>, model: string,
                        obj: Attributes, re: RegexEngine) returns (r: Outcome<CleanError>)
    ensures r == CleanResultCorrected(regexRules, minMaxRules, model, obj, re)
  {
    r := CleanWith(regexRules, minMaxRules, model, obj, re, Number);
  }

  /** A validator class generated for one registered model. */
  datatype Validator = Validator(className: string, model: string)

  /** The registry's `custom_validators` feature: app labels with their model names, in
      dictionary order. */
  type Registry = seq<(string, seq<string>)>

  /** The validators of one app label, in the order of its models. */
  function AppValidators(appLabel: string, models: seq<string>): (vs: seq<Validator>)
    ensures |vs| == |models|
    ensures forall j :: 0 <= j < |vs| ==>
      vs[j] == Validator(Capitalize(appLabel) + Capitalize(models[j]) + "CustomValidator",
                         appLabel + "." + models[j])
  {
    if models == [] then []
    else [Validator(Capitalize(appLabel) + Capitalize(models[0]) + "CustomValidator",
                    appLabel + "." + models[0])]
         + AppValidators(appLabel, models[1..])
  }

  /** The number of (app label, model) entries of the registry. */
  function Entries(registry: Registry): nat
  {
    if registry == [] then 0 else |registry[0].1| + Entries(registry[1..])
  }

  /** `CustomValidatorIterator.__iter__`: one validator per registered model, app by app. */
  function CustomValidatorClasses(registry: Registry): (vs: seq<Validator>)
    ensures |vs| == Entries(registry)
  {
    if registry == [] then []
    else AppValidators(registry[0].0, registry[0].1) + CustomValidatorClasses(registry[1..])
  }

  /** The validator of the `j`-th model of the `a`-th app sits after the validators of the
      earlier entries, in registry order. */
  lemma {:induction false} CustomValidatorAt(registry: Registry, a: nat, j: nat)
    requires a < |registry| && j < |registry[a].1|
    ensures Entries(registry[..a]) + j < |CustomValidatorClasses(registry)|
    ensures CustomValidatorClasses(registry)[Entries(registry[..a]) + j]
         == Validator(Capitalize(registry[a].0) + Capitalize(registry[a].1[j]) + "CustomValidator",
                      registry[a].0 + "." + registry[a].1[j])
  {
    if a == 0 {
      assert registry[..0] == [];
    } else {
      var rest := registry[1..];
      CustomValidatorAt(rest, a - 1, j);
      assert rest[..a - 1] == registry[..a][1..];
      assert Entries(registry[..a]) == |registry[0].1| + Entries(rest[..a - 1]);
      assert CustomValidatorClasses(registry)
          == AppValidators(registry[0].0, registry[0].1) + CustomValidatorClasses(rest);
      assert rest[a - 1] == registry[a];
    }
  }

  /** The model label of a generated validator selects exactly the rules of that app label and
      model, when neither name holds a dot. */
  lemma ValidatorModelSelects(appLabel: string, model: string, rules: seq<Rule>)
    requires '.' !in appLabel && '.' !in model
    ensures GetForModel(rules, appLabel + "." + model).Success?
    ensures forall i :: 0 <= i < |rules| ==>
      (AppliesTo(rules[i], appLabel + "." + model) <==>
       rules[i].enabled && rules[i].contentType == ContentType(appLabel, model))
  {
    SplitPair(appLabel, model, '.');
    JoinSplit(appLabel + "." + model, '.');
    assert Count(appLabel + "." + model, '.') == 1;
    forall i | 0 <= i < |rules| && AppliesTo(rules[i], appLabel + "." + model)
      ensures rules[i].contentType == ContentType(appLabel, model)
    {
      SplitPair(rules[i].contentType.appLabel, rules[i].contentType.model, '.');
    }
  }
}
