/** The rule models of the engine (`models.py`): regular-expression and min/max rules, their
    self-validation, the manager query that selects the rules that apply to a model, and the CSV
    export. */
module Rules {
  import opened Wrappers
  import opened Text
  import opened Seqs
  import opened Fields

  /** A content type: the two halves of `"<app_label>.<model>"`. */
  datatype ContentType = ContentType(appLabel: string, model: string)

  /** `f"{app_label}.{model}"`. */
  function Dotted(ct: ContentType): string
  {
    ct.appLabel + "." + ct.model
  }

  /** A stored validation rule. The fields shared by both kinds come from the abstract
      `ValidationRule` model; `errorMessage` is the nullable `error_message` column. */
  datatype Rule =
    | Regex(name: string, slug: string, contentType: ContentType, enabled: bool,
            errorMessage: Option<string>, field: string, regularExpression: string)
    | MinMax(name: string, slug: string, contentType: ContentType, enabled: bool,
             errorMessage: Option<string>, field: string, min: Option<real>, max: Option<real>)

  type RegexRule = r: Rule | r.Regex?
    witness Regex("", "", ContentType("", ""), true, None, "", "")

  type MinMaxRule = r: Rule | r.MinMax?
    witness MinMax("", "", ContentType("", ""), true, None, "", None, None)

  /** A Django `ValidationError`: messages keyed by field, or one message for the whole object. */
  datatype ValidationError = FieldErrors(errors: map<string, string>) | NonFieldError(message: string)

  /** `validate_regex`: the validator of the `regular_expression` column. `compiles` stands for
      `re.compile` returning without raising `re.error`. */
  function ValidateRegex(value: string, compiles: string -> bool): (r: Outcome<ValidationError>)
    ensures r.Pass? <==> compiles(value)
    ensures r.Fail? ==> r.error == NonFieldError(value + " is not a valid regular expression.")
  {
    if compiles(value) then Pass else Fail(NonFieldError(value + " is not a valid regular expression."))
  }

  /** The rule is enabled and belongs to the model named by the dotted string `ct`. */
  predicate AppliesTo(rule: Rule, ct: string)
  {
    && rule.enabled
    && '.' !in rule.contentType.appLabel && '.' !in rule.contentType.model
    && Dotted(rule.contentType) == ct
  }

  /** The sort key of both rule models (`Meta.ordering = ("name",)`). */
  function RuleName(rule: Rule): string
  {
    rule.name
  }

  /** `filter(enabled=True, content_type=target)` on a queryset ordered by name. */
  function EnabledFor(rules: seq<Rule>, target: ContentType): (r: seq<Rule>)
    ensures forall i :: 0 <= i < |r| ==> r[i] in rules && r[i].enabled && r[i].contentType == target
    ensures forall i :: 0 <= i < |rules| && rules[i].enabled && rules[i].contentType == target ==> rules[i] in r
    ensures SortedBy(r, RuleName)
    ensures forall x :: multiset(r)[x] == if x.enabled && x.contentType == target then multiset(rules)[x] else 0
  {
    var selected := Filter(rules, (rule: Rule) => rule.enabled && rule.contentType == target);
    FilterMultiset(rules, (rule: Rule) => rule.enabled && rule.contentType == target);
    SortBy(selected, RuleName)
  }

  /** `ValidationRuleManager.get_for_model`: `content_type.split(".")` unpacked into two names
      (a `ValueError` unless the string holds exactly one dot), then the enabled rules of that
      app label and model, ordered by name as the models' `Meta.ordering` asks. */
  function GetForModel(rules: seq<Rule>, ct: string): (r: Result<seq<Rule>, string>)
    ensures r.Success? <==> Count(ct, '.') == 1
    ensures r.Success? ==> forall i :: 0 <= i < |r.value| ==> r.value[i] in rules && AppliesTo(r.value[i], ct)
    ensures r.Success? ==> forall i :: 0 <= i < |rules| && AppliesTo(rules[i], ct) ==> rules[i] in r.value
    ensures r.Success? ==> SortedBy(r.value, RuleName)
    ensures r.Success? ==> forall x :: multiset(r.value)[x] == if AppliesTo(x, ct) then multiset(rules)[x] else 0
    ensures r.Failure? ==>
      r.error == if Count(ct, '.') == 0 then "not enough values to unpack (expected 2, got 1)"
                 else "too many values to unpack (expected 2)"
  {
    match UnpackPair(ct, '.')
    case Failure(e) => Failure(e)
    case Success((appLabel, model)) =>
      var target := ContentType(appLabel, model);
      assert forall rule: Rule :: AppliesTo(rule, ct) <==> rule.enabled && rule.contentType == target by {
        assert Dotted(target) == ct;
        SplitPair(appLabel, model, '.');
        forall rule: Rule | AppliesTo(rule, ct) ensures rule.contentType == target {
          SplitPair(rule.contentType.appLabel, rule.contentType.model, '.');
        }
      }
      Success(EnabledFor(rules, target))
  }

  const NotValidField := "Not a valid field for content type "

  /** The field classes a regular-expression rule may not target (`models.Manager`, also listed
      in the source, is not a field class and never comes back from `get_field`). */
  const RegexBlacklist: set<FieldKind> := {
    AutoField, BigAutoField, BooleanField, FileField, FilePathField, ForeignKey, ImageField,
    JSONField, ManyToManyField, NullBooleanField, OneToOneField, RelatedField, SmallAutoField,
    UUIDField}

  const MinMaxWhitelist: set<FieldKind> := {DecimalField, FloatField, IntegerField}

  const MinMaxBlacklist: set<FieldKind> := {AutoField, BigAutoField}

  /** The field-name test shared by both `clean` methods: the name is not private and the model
      field it names is editable. */
  predicate PublicEditable(fields: seq<ModelField>, name: string)
    requires HasField(fields, name)
  {
    !StartsWith(name, "_") && GetField(fields, name).editable
  }

  const RegexFieldTypeError := "This field's type does not support regular expression validation."
  const MinMaxFieldTypeError := "This field's type does not support min/max validation."
  const NoBoundError := "At least a minimum or maximum value must be specified."
  const MinAboveMaxError := "Minimum value cannot be more than the maximum value."
  const MaxBelowMinError := "Maximum value cannot be less than the minimum value."

  /** The field named by a regular-expression rule is public, editable and of no blacklisted
      class. */
  predicate RegexFieldSupported(fields: seq<ModelField>, name: string)
    requires HasField(fields, name)
  {
    PublicEditable(fields, name) && !IsAnyOf(GetField(fields, name).kind, RegexBlacklist)
  }

  /** The field named by a min/max rule is public, editable, of a whitelisted class and of no
      blacklisted class. */
  predicate MinMaxFieldSupported(fields: seq<ModelField>, name: string)
    requires HasField(fields, name)
  {
    && PublicEditable(fields, name)
    && IsAnyOf(GetField(fields, name).kind, MinMaxWhitelist)
    && !IsAnyOf(GetField(fields, name).kind, MinMaxBlacklist)
  }

  /** `RegularExpressionValidationRule.clean`. */
  function RegexClean(rule: RegexRule, fields: seq<ModelField>): (r: Outcome<ValidationError>)
    ensures r.Pass? <==>
      HasField(fields, rule.field) && PublicEditable(fields, rule.field)
      && !IsAnyOf(GetField(fields, rule.field).kind, RegexBlacklist)
    ensures !HasField(fields, rule.field) ==>
      r == Fail(FieldErrors(map["field" := NotValidField + Dotted(rule.contentType) + "."]))
    ensures HasField(fields, rule.field) && !RegexFieldSupported(fields, rule.field) ==>
      r == Fail(FieldErrors(map["field" := RegexFieldTypeError]))
    ensures r.Fail? ==> r.error.FieldErrors? && r.error.errors.Keys == {"field"}
  {
    if !HasField(fields, rule.field) then
      Fail(FieldErrors(map["field" := NotValidField + Dotted(rule.contentType) + "."]))
    else
      var modelField := GetField(fields, rule.field);
      if StartsWith(rule.field, "_") || !modelField.editable || IsAnyOf(modelField.kind, RegexBlacklist) then
        Fail(FieldErrors(map["field" := RegexFieldTypeError]))
      else
        Pass
  }

  /** `MinMaxValidationRule.clean`: the field is checked first, then that a bound is set, then
      that the bounds are in order. */
  function MinMaxClean(rule: MinMaxRule, fields: seq<ModelField>): (r: Outcome<ValidationError>)
    ensures r.Pass? <==>
      && HasField(fields, rule.field) && PublicEditable(fields, rule.field)
      && IsAnyOf(GetField(fields, rule.field).kind, MinMaxWhitelist)
      && !IsAnyOf(GetField(fields, rule.field).kind, MinMaxBlacklist)
      && (rule.min.Some? || rule.max.Some?)
      && (rule.min.Some? && rule.max.Some? ==> rule.min.value <= rule.max.value)
    ensures !HasField(fields, rule.field) ==>
      r == Fail(FieldErrors(map["field" := NotValidField + Dotted(rule.contentType) + "."]))
    ensures HasField(fields, rule.field) && !MinMaxFieldSupported(fields, rule.field) ==>
      r == Fail(FieldErrors(map["field" := MinMaxFieldTypeError]))
    ensures HasField(fields, rule.field) && MinMaxFieldSupported(fields, rule.field)
            && rule.min.None? && rule.max.None? ==>
      r == Fail(NonFieldError(NoBoundError))
    ensures HasField(fields, rule.field) && MinMaxFieldSupported(fields, rule.field)
            && rule.min.Some? && rule.max.Some? && rule.min.value > rule.max.value ==>
      r == Fail(FieldErrors(map["min" := MinAboveMaxError, "max" := MaxBelowMinError]))
  {
    if !HasField(fields, rule.field) then
      Fail(FieldErrors(map["field" := NotValidField + Dotted(rule.contentType) + "."]))
    else
      var modelField := GetField(fields, rule.field);
      if !IsAnyOf(modelField.kind, MinMaxWhitelist)
         || (StartsWith(rule.field, "_") || !modelField.editable || IsAnyOf(modelField.kind, MinMaxBlacklist))
      then
        Fail(FieldErrors(map["field" := MinMaxFieldTypeError]))
      else if rule.min.None? && rule.max.None? then
        Fail(NonFieldError(NoBoundError))
      else if rule.min.Some? && rule.max.Some? && rule.min.value > rule.max.value then
        Fail(FieldErrors(map["min" := MinAboveMaxError, "max" := MaxBelowMinError]))
      else
        Pass
  }

  /** The value of one column of the CSV export. */
  datatype CsvValue = CsvString(s: string) | CsvBool(b: bool) | CsvReal(x: real) | CsvNone

  function OptionalString(s: Option<string>): CsvValue
  {
    if s.Some? then CsvString(s.value) else CsvNone
  }

  function OptionalReal(x: Option<real>): CsvValue
  {
    if x.Some? then CsvReal(x.value) else CsvNone
  }

  /** The `csv_headers` of the rule's model. */
  function CsvHeaders(rule: Rule): seq<string>
  {
    match rule
    case Regex(_, _, _, _, _, _, _) =>
      ["name", "slug", "enabled", "content_type", "field", "regular_expression", "error_message"]
    case MinMax(_, _, _, _, _, _, _, _) =>
      ["name", "slug", "enabled", "content_type", "field", "min", "max", "error_message"]
  }

  /** The value a CSV column of the given header holds for the rule, looked up by name. */
  function Column(rule: Rule, header: string): Option<CsvValue>
  {
    if header == "name" then Some(CsvString(rule.name))
    else if header == "slug" then Some(CsvString(rule.slug))
    else if header == "enabled" then Some(CsvBool(rule.enabled))
    else if header == "content_type" then Some(CsvString(Dotted(rule.contentType)))
    else if header == "field" then Some(CsvString(rule.field))
    else if header == "error_message" then Some(OptionalString(rule.errorMessage))
    else if header == "regular_expression" && rule.Regex? then Some(CsvString(rule.regularExpression))
    else if header == "min" && rule.MinMax? then Some(OptionalReal(rule.min))
    else if header == "max" && rule.MinMax? then Some(OptionalReal(rule.max))
    else None
  }

  /** `to_csv` of either rule model: the tuple is aligned with `csv_headers`, each position holding
      the attribute its header names. */
  function ToCsv(rule: Rule): (row: seq<CsvValue>)
    ensures |row| == |CsvHeaders(rule)|
    ensures forall i :: 0 <= i < |row| ==> Column(rule, CsvHeaders(rule)[i]) == Some(row[i])
  {
    match rule
    case Regex(name, slug, ct, enabled, errorMessage, field, regularExpression) =>
      [CsvString(name), CsvString(slug), CsvBool(enabled), CsvString(ct.appLabel + "." + ct.model),
       CsvString(field), CsvString(regularExpression), OptionalString(errorMessage)]
    case MinMax(name, slug, ct, enabled, errorMessage, field, min, max) =>
      [CsvString(name), CsvString(slug), CsvBool(enabled), CsvString(ct.appLabel + "." + ct.model),
       CsvString(field), OptionalReal(min), OptionalReal(max), OptionalString(errorMessage)]
  }
}

/** Which field classes each kind of rule accepts, derived from the class lists of the two `clean`
    methods and the class hierarchy. */
module RuleFieldKinds {
  import opened Wrappers
  import opened Fields
  import opened Rules

  /** A field that is an instance of any class of the blacklist, a subclass of one included, is
      refused by a regular-expression rule with the field-type message. */
  lemma RegexCleanRejectsBlacklisted(rule: RegexRule, fields: seq<ModelField>, t: FieldKind)
    requires HasField(fields, rule.field)
    requires t in RegexBlacklist && IsA(GetField(fields, rule.field).kind, t)
    ensures RegexClean(rule, fields)
         == Fail(FieldErrors(map["field" := RegexFieldTypeError]))
  {
    IsAnyOfIff(GetField(fields, rule.field).kind, RegexBlacklist);
  }

  /** A private or non-editable field is refused whatever its class. */
  lemma RegexCleanRejectsPrivate(rule: RegexRule, fields: seq<ModelField>)
    requires HasField(fields, rule.field) && !PublicEditable(fields, rule.field)
    ensures RegexClean(rule, fields)
         == Fail(FieldErrors(map["field" := RegexFieldTypeError]))
  {
  }

  /** The UUID primary key and every foreign key, one-to-one included, are refused. */
  lemma RegexCleanRejectsKeys(rule: RegexRule, fields: seq<ModelField>)
    requires HasField(fields, rule.field)
    requires GetField(fields, rule.field).kind in {UUIDField, ForeignKey, OneToOneField}
    ensures RegexClean(rule, fields).Fail?
  {
    var k := GetField(fields, rule.field).kind;
    KeysBlacklisted();
    if k == UUIDField {
      RegexCleanRejectsBlacklisted(rule, fields, UUIDField);
    } else {
      RegexCleanRejectsBlacklisted(rule, fields, ForeignKey);
    }
  }

  lemma KeysBlacklisted()
    ensures UUIDField in RegexBlacklist && ForeignKey in RegexBlacklist
    ensures IsA(UUIDField, UUIDField) && IsA(ForeignKey, ForeignKey) && IsA(OneToOneField, ForeignKey)
  {
    assert UUIDField in Ancestors(UUIDField);
    assert ForeignKey in Ancestors(ForeignKey);
    assert ForeignKey in Ancestors(OneToOneField);
  }

  /** A public, editable text field is accepted. */
  lemma RegexCleanAcceptsText(rule: RegexRule, fields: seq<ModelField>)
    requires HasField(fields, rule.field) && PublicEditable(fields, rule.field)
    requires GetField(fields, rule.field).kind in {CharField, TextField}
    ensures RegexClean(rule, fields) == Pass
  {
    TextNotBlacklisted(GetField(fields, rule.field).kind);
  }

  lemma TextNotBlacklisted(k: FieldKind)
    requires k in {CharField, TextField}
    ensures !IsAnyOf(k, RegexBlacklist)
  {
    assert Ancestors(k) == {k, Field};
    assert Ancestors(k) * RegexBlacklist == {};
  }

  /** The min/max blacklist refuses exactly the auto fields: `BigAutoField` is listed but already
      an `AutoField`, and `SmallAutoField` is one too although it is not listed. */
  lemma MinMaxBlacklistIsAutoFields(k: FieldKind)
    ensures IsAnyOf(k, MinMaxBlacklist) <==> IsA(k, AutoField)
  {
    if IsAnyOf(k, MinMaxBlacklist) {
      var t :| t in Ancestors(k) * MinMaxBlacklist;
      assert t == AutoField || t == BigAutoField;
    } else {
      assert AutoField !in Ancestors(k) * MinMaxBlacklist;
    }
  }

  /** A min/max rule refuses every auto field, of whatever width, and every non-numeric field. */
  lemma MinMaxCleanRejectsAuto(rule: MinMaxRule, fields: seq<ModelField>)
    requires HasField(fields, rule.field)
    requires IsA(GetField(fields, rule.field).kind, AutoField)
             || !IsAnyOf(GetField(fields, rule.field).kind, MinMaxWhitelist)
    ensures MinMaxClean(rule, fields)
         == Fail(FieldErrors(map["field" := MinMaxFieldTypeError]))
  {
    MinMaxBlacklistIsAutoFields(GetField(fields, rule.field).kind);
  }

  /** A public, editable positive-integer field with one bound is accepted. */
  lemma MinMaxCleanAcceptsPositiveInteger(rule: MinMaxRule, fields: seq<ModelField>)
    requires HasField(fields, rule.field) && PublicEditable(fields, rule.field)
    requires GetField(fields, rule.field).kind == PositiveIntegerField
    requires rule.min.Some? != rule.max.Some?
    ensures MinMaxClean(rule, fields) == Pass
  {
    PositiveIntegerAdmitted();
  }

  lemma PositiveIntegerAdmitted()
    ensures IsAnyOf(PositiveIntegerField, MinMaxWhitelist)
    ensures !IsAnyOf(PositiveIntegerField, MinMaxBlacklist)
  {
    assert IntegerField in Ancestors(PositiveIntegerField) * MinMaxWhitelist;
    assert Ancestors(PositiveIntegerField) * MinMaxBlacklist == {};
  }
}
