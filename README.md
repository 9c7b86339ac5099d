# Data validation engine: a Dafny model

This project models the core of the Nautobot data validation engine app. It covers five parts.

- **Save-time rule evaluator.** `BaseValidator.clean` runs at save time. It checks an object against the enabled regular-expression rules of its model, then against the enabled min/max rules, and stops at the first violation. `CustomValidatorIterator` generates one validator class per registered `(app_label, model)` pair.
- **Rule models.** `validate_regex`; the manager query `get_for_model`, which picks the enabled rules of a dotted content type; the `clean` self-validation of both rule models, which checks the field kind, privacy, editability and bound coherence; and their CSV export `to_csv`.
- **Result recorder.** `ValidationSet` (prefix `validate_`) and `AuditRuleset` (prefix `audit_`) share one class, `Recording.Recorder`. It holds a result table and supports:
  - finding the calling method on the stack;
  - upserting results keyed by class, method, content type, object id and attribute;
  - dispatching every prefixed method on every object;
  - the full-clean sweep, which records one failure per attribute of each error dictionary.

  `ValidationSetAll` and `AuditRulesetAll` run that sweep from `validate_full_clean` and `audit_full_clean`.
- **Audit job.** `jobs.py` collects audit classes from the registry and from Git repositories. It offers them as sorted choices. `run` cleans every object of the model of each selected class.
- **Rule search.** The `q` filter of both rule filter sets.

Collaborators the code calls but does not define are parameters:
- the regular-expression engine (`compiles`, `matches`);
- the field list of a model;
- the call stack (frame names, innermost first);
- the member names `inspect.getmembers` returns;
- the querysets, including what `full_clean` raises for each instance;
- the registry and the repositories;
- the clock value `timezone.now()`.

Python exceptions become the `Failure`/`Fail` cases of `Result`/`Outcome`, or the `error` field of a sweep or job state.

Files:
- `wrappers.dfy`: `Option`, `Result`, `Outcome`.
- `text.dfy`: string helpers — prefix, substring, ASCII case, blank test, split/join, unpacking, Python string order.
- `seqs.dfy`: filtering, and a stable sort.
- `fields.dfy`: Django field kinds, their class hierarchy, field values and `getattr`.
- `rules.dfy`: `models.py`.
- `custom_validators.dfy`: `custom_validators.py`.
- `filters.dfy`: `filters.py`.
- `recording.dfy`: the part `validations.py` and `audit_rulesets.py` share.
- `validations.dfy`: `validations.py`.
- `audit_rulesets.dfy`: `audit_rulesets.py`.
- `jobs.dfy`: `jobs.py`.

## Model

| member | source | states |
|---|---|---|
| Rules.ValidateRegex | nautobot_data_validation_engine/models.py:19-28 | a pattern passes exactly when it compiles; otherwise the error is "<value> is not a valid regular expression." |
| Text.UnpackPair | nautobot_data_validation_engine/models.py:40 | `a, b = s.split(".")` succeeds exactly when `s` holds one separator, and the two halves rebuild `s`; otherwise it gives the "not enough values" (no separator) or "too many values" message |
| Rules.GetForModel | nautobot_data_validation_engine/models.py:36-42 | exactly the enabled rules whose app label and model are the two halves of the dotted string, each as often as in the table, ordered by name; a string without exactly one dot gives the unpacking error |
| Rules.EnabledFor | nautobot_data_validation_engine/models.py:42 | keeps exactly the enabled rules of one content type, each as often as in the input, sorted by name |
| Rules.RegexClean | nautobot_data_validation_engine/models.py:109-141 | passes exactly when the field exists, is public and editable, and is of no blacklisted class; an unknown field is reported under "field" with the dotted content type; any other rejected field gets the field-type error under "field" |
| RuleFieldKinds.RegexCleanRejectsBlacklisted | nautobot_data_validation_engine/models.py:120-141 | a field of any blacklisted class, or of a subclass of one, gets the field-type error |
| RuleFieldKinds.RegexCleanRejectsPrivate | nautobot_data_validation_engine/models.py:140-141 | a private or non-editable field gets the field-type error whatever its class |
| RuleFieldKinds.RegexCleanRejectsKeys | nautobot_data_validation_engine/models.py:126-135 | UUID, foreign-key and one-to-one fields are rejected |
| RuleFieldKinds.RegexCleanAcceptsText | nautobot_data_validation_engine/models.py:113-141 | a public editable char or text field is accepted |
| Rules.MinMaxClean | nautobot_data_validation_engine/models.py:187-225 | passes exactly when the field exists, is public, editable, of a whitelisted and not a blacklisted class, has at least one bound, and min <= max when both are set; each failure gives its own error: unknown field, field type (under "field"), no bound (a non-field error), min above max (under both "min" and "max") |
| RuleFieldKinds.MinMaxBlacklistIsAutoFields | nautobot_data_validation_engine/models.py:204-207 | the min/max blacklist rejects exactly the fields that are auto fields |
| RuleFieldKinds.MinMaxCleanRejectsAuto | nautobot_data_validation_engine/models.py:198-214 | every auto field, and every field outside the whitelist, gets the field-type error |
| RuleFieldKinds.MinMaxCleanAcceptsPositiveInteger | nautobot_data_validation_engine/models.py:198-217 | a public editable positive-integer field with one bound is accepted, since it is an integer field |
| Rules.ToCsv | nautobot_data_validation_engine/models.py:82-185 | for either rule model, the row has one value per `csv_headers` entry, and position i holds the attribute header i names, the content type as "app_label.model" |
| CustomValidators.ErrorOr | nautobot_data_validation_engine/custom_validators.py:41 | the rule's message when it is set and non-empty, the default otherwise |
| CustomValidators.MatchText | nautobot_data_validation_engine/custom_validators.py:35-39 | None is matched as "", a string as itself, and any other value has no text |
| CustomValidators.RegexCheck | nautobot_data_validation_engine/custom_validators.py:34-42 | a rule passes exactly when the attribute exists, has text (None counts as ""), the pattern compiles and matches; a missing attribute, a pattern that does not compile (checked before the value's type, as `re.match` compiles first), a value that is not a string and a mismatch each give their own outcome, the mismatch keyed by the rule's field with `ErrorOr` of the default message |
| CustomValidators.RegexNoneIsEmpty | nautobot_data_validation_engine/custom_validators.py:35-39 | a None value is checked as the empty string |
| CustomValidators.MinMaxCheckWith | nautobot_data_validation_engine/custom_validators.py:45-71 | for any numeric test, a min/max violation is reported under the rule's field, and the only other failure is `MissingAttribute`, which is the outcome exactly when the object lacks the field (`getattr` raising `AttributeError`) |
| CustomValidators.NumberAsWritten | nautobot_data_validation_engine/custom_validators.py:56 | as written, exactly integers, booleans and floats are numbers |
| CustomValidators.MinMaxCheckAsWritten | nautobot_data_validation_engine/custom_validators.py:45-71 | the min/max check with the numeric test as written; specification function, characterised by `MinMaxCheckWith`'s missing-attribute clause and by `MinMaxPassIff`, `MinMaxBelowMinimum`, `MinMaxAboveMaximum`, `MinMaxNoneViolates` and `MinMaxNotNumericIgnoresMessage` at `NumberAsWritten` |
| CustomValidators.MinMaxCheck | nautobot_data_validation_engine/custom_validators.py:45-71 | the same check with `Decimal` admitted; specification function, characterised by the same clause and lemmas at `Number` |
| CustomValidators.Number | nautobot_data_validation_engine/custom_validators.py:56 | a Decimal is its own number; any other value is numeric exactly as written |
| CustomValidators.MinMaxCheckAgreesOffDecimal | nautobot_data_validation_engine/custom_validators.py:56 | the check as written and the corrected check give the same outcome on any attribute that is not a Decimal |
| CustomValidators.DecimalRejectedAsWritten | nautobot_data_validation_engine/custom_validators.py:56-61 | as written, every Decimal value gets the "not numeric" violation |
| CustomValidators.DecimalCheckedAgainstBounds | nautobot_data_validation_engine/custom_validators.py:63-71 | corrected, a Decimal passes exactly when it lies within the bounds |
| CustomValidators.MinMaxPassIff | nautobot_data_validation_engine/custom_validators.py:63-71 | for the numeric test as written or corrected, a number passes exactly when min <= value <= max, an unset bound not checked |
| CustomValidators.MinMaxBelowMinimum | nautobot_data_validation_engine/custom_validators.py:63-66 | a number below a set minimum gets the rule's message or "Value is less than minimum value" |
| CustomValidators.MinMaxAboveMaximum | nautobot_data_validation_engine/custom_validators.py:68-71 | a number that satisfies the minimum but exceeds a set maximum gets the rule's message or "Value is more than maximum value" |
| CustomValidators.MinMaxNoneViolates | nautobot_data_validation_engine/custom_validators.py:48-54 | None violates every min/max rule, with the rule's message or the missing-value default |
| CustomValidators.MinMaxNotNumericIgnoresMessage | nautobot_data_validation_engine/custom_validators.py:56-61 | a non-numeric value gets the fixed message naming the rule, whatever the rule's `error_message` |
| CustomValidators.MinMaxMinimumFirst | nautobot_data_validation_engine/custom_validators.py:63-71 | when both bounds are violated, the minimum is the one reported |
| CustomValidators.RegexLoop | nautobot_data_validation_engine/custom_validators.py:34-42 | the loop passes exactly when every rule passes, and a failure is the outcome of one of the rules |
| CustomValidators.MinMaxLoop | nautobot_data_validation_engine/custom_validators.py:45-71 | the same for the min/max loop, for either numeric test |
| CustomValidators.MinMaxLoopAgreesOffDecimal | nautobot_data_validation_engine/custom_validators.py:45-71 | on an object with no Decimal attribute the loop as written and the corrected loop agree |
| CustomValidators.RegexPhasePassIff | nautobot_data_validation_engine/custom_validators.py:34-42 | the regex phase passes exactly when the object satisfies every enabled regex rule of its model |
| CustomValidators.MinMaxPhasePassIff | nautobot_data_validation_engine/custom_validators.py:45-71 | the min/max phase passes exactly when the object satisfies every enabled min/max rule of its model |
| CustomValidators.CleanPassIff | nautobot_data_validation_engine/custom_validators.py:27-71 | `clean` passes exactly when the model label is well formed and the object satisfies every enabled rule of both kinds, for the numeric test as written or corrected |
| CustomValidators.CleanResultWith | nautobot_data_validation_engine/custom_validators.py:27-71 | `clean` with a given numeric test: the first failure over both phases; specification function, characterised by `CleanPassIff` and the two phase-failure lemmas |
| CustomValidators.CleanResult | nautobot_data_validation_engine/custom_validators.py:27-71 | `clean` as written (`isinstance(v, (int, float))`); specification function |
| CustomValidators.CleanResultCorrected | nautobot_data_validation_engine/custom_validators.py:27-71 | `clean` with Decimal values compared against the bounds; specification function |
| CustomValidators.CleanAgreesOffDecimal | nautobot_data_validation_engine/custom_validators.py:27-71 | `clean` as written and corrected agree on every object with no Decimal attribute |
| CustomValidators.RegexPhaseFailureFromRule | nautobot_data_validation_engine/custom_validators.py:34-42 | a failure of the regex phase is what one enabled rule of the model reports |
| CustomValidators.MinMaxPhaseFailureFromRule | nautobot_data_validation_engine/custom_validators.py:45-71 | a failure of the min/max phase is what one enabled rule of the model reports |
| CustomValidators.RunRegexRules | nautobot_data_validation_engine/custom_validators.py:34-42 | the first loop of `clean`, returning at the first failing rule, computes `RegexLoop` |
| CustomValidators.RunMinMaxRules | nautobot_data_validation_engine/custom_validators.py:45-71 | the second loop computes `MinMaxLoop` for the given numeric test |
| CustomValidators.Clean | nautobot_data_validation_engine/custom_validators.py:27-71 | `clean` as written computes `CleanResult`, which `CleanPassIff` characterises |
| CustomValidators.CleanWith | nautobot_data_validation_engine/custom_validators.py:27-71 | the two loops one after the other compute `CleanResultWith` for the given numeric test |
| CustomValidators.CleanCorrected | nautobot_data_validation_engine/custom_validators.py:27-71 | the corrected `clean` computes `CleanResultCorrected` |
| CustomValidators.Render | nautobot_data_validation_engine/custom_validators.py:41-70 | the default messages, with the floats formatted by a parameter; specification function |
| CustomValidators.AppValidators | nautobot_data_validation_engine/custom_validators.py:84-89 | one validator per model of an app label, named "<App><Model>CustomValidator", with model "app_label.model" |
| CustomValidators.CustomValidatorClasses | nautobot_data_validation_engine/custom_validators.py:83-89 | one validator per registry entry |
| CustomValidators.CustomValidatorAt | nautobot_data_validation_engine/custom_validators.py:83-89 | the validator of model j of app a sits after those of the earlier entries, in registry order |
| CustomValidators.ValidatorModelSelects | nautobot_data_validation_engine/custom_validators.py:88 | a generated validator's model label selects exactly the enabled rules of that app label and model |
| Filters.SearchRegexRules | nautobot_data_validation_engine/filters.py:31-46 | a blank query returns the rules unchanged; otherwise exactly the rules the query matches (case-insensitive substring of name, slug, pattern or message; exact app label, model or field), each as often as in the queryset |
| Filters.SearchMinMaxRules | nautobot_data_validation_engine/filters.py:66-80 | the same without the pattern |
| Filters.SearchRegexRulesAppend | nautobot_data_validation_engine/filters.py:46 | the search keeps queryset order and never adds rules: it distributes over concatenation |
| Filters.SearchMinMaxRulesAppend | nautobot_data_validation_engine/filters.py:80 | the same for the min/max search |
| Filters.SearchRegexRulesKeepsAll | nautobot_data_validation_engine/filters.py:37-46 | when every rule matches, the queryset comes back whole |
| Filters.SearchMinMaxRulesKeepsAll | nautobot_data_validation_engine/filters.py:71-80 | the same for the min/max search |
| Filters.SearchDoesNotStrip | nautobot_data_validation_engine/filters.py:35-45 | an illustration on one concrete input (the all-inputs fact is `SearchRegexRules`' own contract): `search` called with a value matches it as given, so "name" finds the rule on field `name` and " name" does not |
| Recording.StoredAttribute | nautobot_data_validation_engine/validations.py:61 | an attribute is stored only when it is set and non-empty |
| Recording.StoredValue | nautobot_data_validation_engine/validations.py:62-63 | a value is stored only when it is truthy |
| Recording.FindRow | nautobot_data_validation_engine/validations.py:44-50 | the first row with the key, or none |
| Recording.Upsert | nautobot_data_validation_engine/validations.py:43-67 | `__generate_result` after the stack walk; specification function, characterised by `UpsertUpdates`, `UpsertCreates`, `UpsertThenFind` and `UpsertOtherKey` |
| Recording.UpsertUpdates | nautobot_data_validation_engine/validations.py:51-54 | an existing row changes only its date, validity and message; no other row changes and none is added |
| Recording.UpsertCreates | nautobot_data_validation_engine/validations.py:56-66 | without a match exactly one row is appended and no row changes; it holds the class, method, date, validity, content type, object id and message of the report, the attribute unless it is "", and each value only when truthy |
| Recording.UpsertThenFind | nautobot_data_validation_engine/validations.py:43-67 | after a report its row is found by the report's key, with the new date, validity and message |
| Recording.UpsertOtherKey | nautobot_data_validation_engine/validations.py:43-67 | a report leaves the row of every other key where and as it was |
| Recording.UpsertTwiceKeepsCount | nautobot_data_validation_engine/tests/test_validations.py:54-58 | reporting twice on one key leaves as many rows as reporting once |
| Recording.UpsertKeepsUnique | nautobot_data_validation_engine/migrations/0003_validationresult.py:51 | the upsert keeps the keys unique |
| Recording.EmptyAttributeDuplicates | nautobot_data_validation_engine/validations.py:43-66 | an empty attribute is stored as NULL and looked up as "", so every report on it adds a row |
| Recording.CallingMethodName | nautobot_data_validation_engine/validations.py:23-29 | succeeds exactly when a frame has the prefix, giving the first such frame; otherwise the "Unable to find calling method" message |
| Recording.OwnFramesSkipped | nautobot_data_validation_engine/validations.py:31-75 | the frames of `success`/`fail`, `__generate_result` and `__find_calling_method_name` never carry either prefix |
| Recording.ReportOutsidePrefixFails | nautobot_data_validation_engine/validations.py:23-29 | a report from outside any prefixed method raises "Unable to find calling method that starts with '<prefix>'." |
| Recording.ReportAttributedToCaller | nautobot_data_validation_engine/validations.py:23-29 | a report from a prefixed method, through helpers, is attributed to that method |
| Recording.SweepAttributedToFullClean | nautobot_data_validation_engine/validations.py:122-134 | the sweep's reports are attributed to the prefixed `full_clean` method that calls `_validate_all`, for both prefixes |
| Recording.PrefixedMethods | nautobot_data_validation_engine/validations.py:112-116 | exactly the prefixed members, each as often as listed, in name order |
| Recording.CallsOn | nautobot_data_validation_engine/validations.py:118-119 | one call per method on one object, in order |
| Recording.Dispatch | nautobot_data_validation_engine/validations.py:117-119 | the calls of the nested loops; specification function, characterised by `DispatchLength`, `DispatchAt` and `DispatchMembers` |
| Recording.DispatchLength | nautobot_data_validation_engine/validations.py:117-119 | the dispatch makes objects × methods calls |
| Recording.DispatchAt | nautobot_data_validation_engine/validations.py:117-119 | call i·m+j is method j on object i |
| Recording.DispatchMembers | nautobot_data_validation_engine/validations.py:117-119 | a call is made exactly when its object is in the queryset and its method among the prefixed ones |
| Recording.FailEntry | nautobot_data_validation_engine/validations.py:101-107 | one error entry: `getattr`, then `fail`; specification function, characterised by `FailEntryOnlyFailures` |
| Recording.SweepErrors | nautobot_data_validation_engine/validations.py:99-107 | the loop over one error dictionary; specification function, characterised by `SweepErrorsOnlyFailures`, `SweepErrorsRecordsEach` and `SweepErrorsKeepsRow` |
| Recording.SweepInstances | nautobot_data_validation_engine/validations.py:97-107 | the loop over the instances of one model; specification function, characterised by `SweepInstancesOnlyFailures` |
| Recording.Effective | nautobot_data_validation_engine/validations.py:87-90 | `auth.user` is swapped for the configured user model; specification function |
| Recording.SweepModel | nautobot_data_validation_engine/validations.py:91-107 | one model: skipped when unmanaged, raising without a job result; specification function, characterised by `UnmanagedSkipped` and `SweepModelsWithoutJobResult` |
| Recording.SweepModels | nautobot_data_validation_engine/validations.py:86-107 | the loop over the models of one app; specification function, characterised by `SweepModelsOnlyFailures` |
| Recording.SweepApps | nautobot_data_validation_engine/validations.py:85-107 | the loop over the apps; specification function, characterised by `SweepAppsOnlyFailures` |
| Recording.FullClean | nautobot_data_validation_engine/validations.py:82-107 | `_validate_all`: apps sorted by label, models by name; specification function, characterised by `FullCleanOnlyFailures` |
| Recording.UnmanagedSkipped | nautobot_data_validation_engine/validations.py:91-93 | an unmanaged model adds nothing and raises nothing |
| Recording.OnlyFailuresAddedTransitive | nautobot_data_validation_engine/validations.py:97-107 | invariant composition: two sweeps that record only failures compose into one |
| Recording.FailEntryOnlyFailures | nautobot_data_validation_engine/validations.py:101-107 | one error entry changes or adds only a failure of the sweep's class and method |
| Recording.SweepErrorsOnlyFailures | nautobot_data_validation_engine/validations.py:99-107 | the same for all the entries of one instance |
| Recording.SweepInstancesOnlyFailures | nautobot_data_validation_engine/validations.py:97-107 | the same for all the instances of one model |
| Recording.SweepModelsOnlyFailures | nautobot_data_validation_engine/validations.py:86-107 | the same for all the models of one app |
| Recording.SweepAppsOnlyFailures | nautobot_data_validation_engine/validations.py:85-107 | the same for all the apps |
| Recording.FullCleanOnlyFailures | nautobot_data_validation_engine/validations.py:82-107 | the full-clean sweep removes no row and adds or changes only failures of its class and method |
| Recording.SweepModelsWithoutJobResult | nautobot_data_validation_engine/validations.py:94 | without a job result the sweep records nothing: the first managed model raises at the log call |
| Recording.SweepAppsWithoutJobResult | nautobot_data_validation_engine/validations.py:94 | the same over all apps |
| Recording.SweepErrorsRecordsEach | nautobot_data_validation_engine/validations.py:99-107 | each attribute of an error dictionary ends with a failed row whose message is its messages joined by " AND " |
| Recording.SweepErrorsKeepsRow | nautobot_data_validation_engine/validations.py:101-107 | recording the other attributes leaves an attribute's row unchanged |
| Recording.ResultStore.constructor | nautobot_data_validation_engine/validations.py:44 | the result table starts empty |
| Recording.Recorder.constructor | nautobot_data_validation_engine/validations.py:18-21 | `__init__`: the result date is the clock value and there is no job result |
| Recording.Recorder.FindCallingMethodName | nautobot_data_validation_engine/validations.py:23-29 | the frame loop computes `CallingMethodName` |
| Recording.Recorder.GenerateResult | nautobot_data_validation_engine/validations.py:31-67 | the table becomes the upsert of the report under the calling method, or stays as it was when the stack walk raises |
| Recording.Recorder.RecordSuccess | nautobot_data_validation_engine/validations.py:69-71 | stores valid = true under the caller's method, or raises and stores nothing |
| Recording.Recorder.RecordFailure | nautobot_data_validation_engine/validations.py:73-75 | stores valid = false under the caller's method, or raises and stores nothing |
| Recording.Recorder.Run | nautobot_data_validation_engine/validations.py:109-119 | sets the job result and calls each prefixed method, in name order, once per object |
| Recording.Recorder.DispatchLoop | nautobot_data_validation_engine/validations.py:117-119 | the nested loops compute `Dispatch` |
| Recording.Recorder.RecordErrors | nautobot_data_validation_engine/validations.py:99-107 | the error-entry loop computes `SweepErrors` on the table |
| Recording.Recorder.RecordInstances | nautobot_data_validation_engine/validations.py:97-107 | the instance loop computes `SweepInstances` |
| Recording.Recorder.RecordModels | nautobot_data_validation_engine/validations.py:86-107 | the model loop computes `SweepModels` |
| Recording.Recorder.FullCleanAll | nautobot_data_validation_engine/validations.py:82-107 | `_validate_all` computes `FullClean`: apps by label, models by name, user-model swap, unmanaged models skipped |
| Validations.NewValidationSet | nautobot_data_validation_engine/validations.py:18-21 | a fresh recorder with the `validate_` prefix, the clock value and no job result |
| Validations.ValidationSetAllValidate | nautobot_data_validation_engine/validations.py:127-134 | sets the job result and runs the sweep; every row added or changed is a failure of `validate_full_clean` |
| AuditRulesets.NewAuditRuleset | nautobot_data_validation_engine/audit_rulesets.py:18-21 | a fresh recorder with the `audit_` prefix, the clock value and no job result |
| AuditRulesets.AuditRulesetAllAudit | nautobot_data_validation_engine/audit_rulesets.py:100-134 | sets the job result and runs the sweep; every row added or changed is a failure of `audit_full_clean` |
| Jobs.RepositoryClasses | nautobot_data_validation_engine/jobs.py:19-24 | a repository contributes classes only when it provides the audit-ruleset content and its module has `audit_rulesets` |
| Jobs.AllClasses | nautobot_data_validation_engine/jobs.py:39-46 | the registry classes, then the classes of each qualifying repository; specification function, characterised by `RegistryFirst`, `RepositoryClassCollected` and `RegistryCollected` |
| Jobs.RegistryFirst | nautobot_data_validation_engine/jobs.py:39-46 | registry classes come first, in order; a repository that does not qualify adds nothing |
| Jobs.RepositoryClassCollected | nautobot_data_validation_engine/jobs.py:42-46 | every class of a qualifying repository is collected |
| Jobs.RegistryCollected | nautobot_data_validation_engine/jobs.py:39-40 | every registry class is collected |
| Jobs.Pairs | nautobot_data_validation_engine/jobs.py:17-24 | one (name, name) pair per class, in order |
| Jobs.PairsAppend | nautobot_data_validation_engine/jobs.py:17-24 | the pairs of two sources are the pairs of each |
| Jobs.Choices | nautobot_data_validation_engine/jobs.py:14-27 | `get_choices`; specification function, characterised by `ChoicesSpec` and `RegisteredClassOffered` |
| Jobs.ChoicesSpec | nautobot_data_validation_engine/jobs.py:14-27 | the choices are sorted (name, name) pairs, one per collected class, with nothing deduplicated |
| Jobs.RegisteredClassOffered | nautobot_data_validation_engine/jobs.py:17-18 | a registered class always has its choice |
| Jobs.GetChoices | nautobot_data_validation_engine/jobs.py:14-27 | the loops and the sort compute `Choices` |
| Jobs.CollectChoices | nautobot_data_validation_engine/jobs.py:16-24 | the two append loops compute the pairs of the collected classes |
| Jobs.AppendChoices | nautobot_data_validation_engine/jobs.py:23-24 | appends one pair per class |
| Jobs.InvocationsOf | nautobot_data_validation_engine/jobs.py:53-55 | one clean per object, in queryset order |
| Jobs.RunFromCallsSelected | nautobot_data_validation_engine/jobs.py:48-55 | the cleans already made are kept, and every new one cleans an object of the model of a selected class, under that class's name |
| Jobs.RunCleansOnlySelected | nautobot_data_validation_engine/jobs.py:37-55 | every clean of `run` is of an object of the model named by a collected class the selection admits, under that class's name |
| Jobs.InvocationsOfCount | nautobot_data_validation_engine/jobs.py:53-55 | the cleans under a name hold each object as often as the queryset does, and nothing under another name |
| Jobs.RunFromOtherName | nautobot_data_validation_engine/jobs.py:48-55 | classes of other names add no clean under a name |
| Jobs.RunFromCount | nautobot_data_validation_engine/jobs.py:48-55 | a completed loop cleans each object of a uniquely named selected class's model once per occurrence in its queryset |
| Jobs.RunCleansEachObjectOnce | nautobot_data_validation_engine/jobs.py:37-55 | when `run` completes, each object of the model of a selected class with a unique name is cleaned under that name exactly as often as the queryset holds it |
| Jobs.RunFromComplete | nautobot_data_validation_engine/jobs.py:48-55 | when the loop completes, every object of each selected class's model was cleaned |
| Jobs.RunCleansEverySelectedObject | nautobot_data_validation_engine/jobs.py:37-55 | when `run` completes, every object of the model of every selected collected class was cleaned |
| Jobs.EmptySelectionRunsAll | nautobot_data_validation_engine/jobs.py:49 | an empty selection is the same as none |
| Jobs.BareModelStopsRun | nautobot_data_validation_engine/jobs.py:51-52 | a selected class whose model has no dot logs its line, then stops the job with the unpacking error |
| Jobs.AppendInvocations | nautobot_data_validation_engine/jobs.py:53-55 | appends one clean per object |
| Jobs.Selected | nautobot_data_validation_engine/jobs.py:49 | the selection admits every class when it is absent or empty, otherwise exactly the named ones; specification predicate |
| Jobs.RunFrom | nautobot_data_validation_engine/jobs.py:48-55 | the class loop of `run`; specification function, characterised by `RunFromCallsSelected`, `RunFromComplete` and `BareModelStopsRun` |
| Jobs.RunJob | nautobot_data_validation_engine/jobs.py:35-55 | `run`; specification function, characterised by `RunCleansOnlySelected`, `RunCleansEverySelectedObject` and `EmptySelectionRunsAll` |
| Jobs.Run | nautobot_data_validation_engine/jobs.py:35-55 | `run` computes `RunJob` |
| Jobs.CollectClasses | nautobot_data_validation_engine/jobs.py:39-46 | the extend loop computes `AllClasses` |
| Jobs.RunClasses | nautobot_data_validation_engine/jobs.py:48-55 | the class loop with `continue` computes `RunFrom` |

## Left out

- The regular-expression engine is not modelled. `compiles` and `matches` are parameters standing for `re.compile` succeeding and `re.match` finding a match.
- Django's `isinstance` on field classes is a fixed table of the ancestors of each field kind. `models.Manager`, which the regex blacklist lists, is not a field class, so no `get_field` result is one.
- The ORM is not modelled: querysets, `ContentType`, `model_class()._meta`, `get_model`, `get_app_configs` and `save()`. Rule tables, field lists, object lists, app configs and the result table are in-memory sequences, and `save()` is the table update.
- `get_model` is looked up in a map keyed by exact (app label, model) pairs; Django's case-insensitive model names are not modelled. An unknown model is an error state.
- `ValidationSet.get_queryset` is not modelled: `get_model(self.model)` on the class's model is replaced by the list of objects the caller gives.
- `inspect.stack` and `inspect.getmembers` are not modelled. The stack is a sequence of frame names, innermost first, and the members are a sequence of method names. The bodies of the `validate_`/`audit_` methods a subclass defines are not part of this model: `Recorder.Run` returns the calls it makes.
- `timezone.now()` is a parameter. `job_result.log_info` and the job's `log_info` are left out, except that a missing job result raises, and `run` keeps its "Running <name>" lines as a sequence.
- `str()` of stored values and float formatting in messages are not modelled. Stored values are kept as values, and `Render` takes the float formatter as a parameter.
- Messages from `instance.full_clean()` are inputs: each instance carries its error dictionary as a list of (attribute, messages) pairs in dictionary order.
- `PluginCustomValidator.validation_error` is not part of this model. It is modelled as raising, so `clean` ends at the first violation; nothing here says violations are aggregated.
- `GitRepository`, `import_python_file_from_git_repo` and `get_audit_rule_sets` are not part of this model. `jobs.py` imports them from modules whose shown text does not define them. The registry and the repositories, with their modules' `audit_rulesets`, are inputs.
- `run` calls `audit_class(obj).clean()`, but `AuditRuleset` takes no object and has no `clean`. The model records each call as an `Invocation` and leaves its effect out.
- One class, `Recording.Recorder`, stands for both `ValidationSet` and `AuditRuleset`. Its `prefix` field is `"validate_"` or `"audit_"`, and both write one result table; `ValidationResult` and `AuditRule` rows are not told apart.
- Recording.UpsertTwiceKeepsCount: it requires the attribute not to be the empty string. With an empty attribute every report adds a row, which `Recording.EmptyAttributeDuplicates` states.
- Recording.UpsertKeepsUnique: it requires the same, for the same reason.
- RuleFieldKinds lemmas: they state the field-kind rules for families and representatives, such as auto fields, keys and text fields, not as an exact list over every field kind.
- Jobs.RunCleansEachObjectOnce: it requires the selected class's name to be unique among the collected classes. Classes that share a name add their cleans together, because a clean is recorded under the class name.
- Rule names are ordered by code point (`Text.LessEq`), not by the database collation that `Meta.ordering` uses.
- `Text.Lower` and `Text.Capitalize` fold ASCII letters only; `icontains` and `str.capitalize` also fold other scripts.
- The `q` filter's own clean-up of its input (a `CharFilter` strips surrounding white space before `search` runs) is not modelled: `search` is modelled as called with the value it receives.
- Both `clean` variants are modelled: `CustomValidators.Clean` with the numeric test as written, which rejects every Decimal, and `CustomValidators.CleanCorrected` with Decimal admitted. They agree on every object with no Decimal attribute.
- Python floats are modelled as `real`, which has no NaN or infinities; a NaN value, which passes every bound check of the min/max rules because both comparisons are false, is not modelled.
- The CSV row of `to_csv` holds Python values (strings, booleans, floats, None); the CSV text encoding is not modelled.

## Findings

| source | as written | input that shows it | evidently intended | confidence | as-written member | corrected member |
|---|---|---|---|---|---|---|
| nautobot_data_validation_engine/custom_validators.py:56 | the numeric test is `isinstance(field_value, (int, float))`, so a `Decimal` always gets "not numeric" | a min/max rule with min 1 and max 10 on a `DecimalField` whose value is `Decimal("5")`; `MinMaxValidationRule.clean` (models.py:198-202) accepts rules on `DecimalField` | a `Decimal` is compared against the bounds like any other number | not executed | CustomValidators.DecimalRejectedAsWritten | CustomValidators.DecimalCheckedAgainstBounds |
