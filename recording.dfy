/** The result recorder shared by `ValidationSet` (`validations.py`) and `AuditRuleset`
    (`audit_rulesets.py`): the two classes are the same code with a different method-name prefix
    and result table. A recorder finds the reporting method on the call stack, upserts one result
    row per (class, method, content type, object, attribute), dispatches its prefixed methods over
    the objects of its model, and sweeps every managed model with `full_clean`. */
module Recording {
  import opened Wrappers
  import opened Text
  import opened Seqs
  import opened Fields
  import opened Rules

  /** A model instance as the recorder sees it: its content type and primary key. */
  datatype ObjectRef = ObjectRef(contentType: ContentType, id: string)

  /** One row of the result table (`ValidationResult` or `AuditRule`). `lastValidationDate` is
      the recorder's `result_date`; the two values are kept as values, `str` of them not being
      modelled. */
  datatype ResultRow = ResultRow(
    className: string, methodName: string, lastValidationDate: nat,
    contentType: ContentType, objectId: string, attribute: Option<string>,
    attributeValue: Option<Value>, expectedValue: Option<Value>,
    valid: bool, message: Option<string>)

  /** The columns the recorder looks a row up by. */
  datatype RowKey = RowKey(className: string, methodName: string, contentType: ContentType,
                           objectId: string, attribute: Option<string>)

  function KeyOf(row: ResultRow): RowKey
  {
    RowKey(row.className, row.methodName, row.contentType, row.objectId, row.attribute)
  }

  /** The keyword arguments of `success`/`fail`, with Python's `None` as `NoneValue`. */
  datatype Report = Report(obj: ObjectRef, attribute: Option<string>, value: Value,
                           expected: Value, message: Option<string>)

  /** `attribute if attribute else None`. */
  function StoredAttribute(a: Option<string>): (r: Option<string>)
    ensures r.Some? <==> a.Some? && a.value != ""
    ensures r.Some? ==> r == a
  {
    if a.Some? && a.value != "" then a else None
  }

  /** `str(v) if v else None`, without the `str`. */
  function StoredValue(v: Value): (r: Option<Value>)
    ensures r.Some? <==> Truthy(v)
    ensures r.Some? ==> r.value == v
  {
    if Truthy(v) then Some(v) else None
  }

  /** `ResultTable.objects.filter(<key>).first()`: the index of the first row with the key, or
      `|rows|` when there is none. */
  function FindRow(rows: seq<ResultRow>, key: RowKey): (i: nat)
    ensures i <= |rows|
    ensures i < |rows| ==> KeyOf(rows[i]) == key
    ensures forall j :: 0 <= j < i ==> KeyOf(rows[j]) != key
  {
    if rows == [] then 0
    else if KeyOf(rows[0]) == key then 0
    else 1 + FindRow(rows[1..], key)
  }

  /** The key `__generate_result` looks up for a report. */
  function ReportKey(className: string, methodName: string, report: Report): RowKey
  {
    RowKey(className, methodName, report.obj.contentType, report.obj.id, report.attribute)
  }

  /** The row `__generate_result` creates when the lookup finds nothing. */
  function NewRow(className: string, methodName: string, date: nat, valid: bool, report: Report): ResultRow
  {
    ResultRow(className, methodName, date, report.obj.contentType, report.obj.id,
              StoredAttribute(report.attribute), StoredValue(report.value), StoredValue(report.expected),
              valid, report.message)
  }

  /** The table after `__generate_result` with the method name already found: the first row with
      the report's key gets the new date, validity and message, or a new row is appended. */
  function Upsert(rows: seq<ResultRow>, className: string, methodName: string, date: nat,
                  valid: bool, report: Report): seq<ResultRow>
  {
    var i := FindRow(rows, ReportKey(className, methodName, report));
    if i < |rows| then rows[i := rows[i].(lastValidationDate := date, valid := valid, message := report.message)]
    else rows + [NewRow(className, methodName, date, valid, report)]
  }

  /** An existing row is updated in place: only its date, validity and message change, and no
      other row changes. */
  lemma UpsertUpdates(rows: seq<ResultRow>, className: string, methodName: string, date: nat,
                      valid: bool, report: Report)
    requires FindRow(rows, ReportKey(className, methodName, report)) < |rows|
    ensures var i := FindRow(rows, ReportKey(className, methodName, report));
            var after := Upsert(rows, className, methodName, date, valid, report);
            && |after| == |rows|
            && (forall j :: 0 <= j < |rows| && j != i ==> after[j] == rows[j])
            && after[i].lastValidationDate == date && after[i].valid == valid
            && after[i].message == report.message
            && KeyOf(after[i]) == KeyOf(rows[i])
            && after[i].attributeValue == rows[i].attributeValue
            && after[i].expectedValue == rows[i].expectedValue
  {
  }

  /** Without a matching row one row is appended, holding the attribute and the two values only
      when they are truthy. */
  lemma UpsertCreates(rows: seq<ResultRow>, className: string, methodName: string, date: nat,
                      valid: bool, report: Report)
    requires FindRow(rows, ReportKey(className, methodName, report)) == |rows|
    ensures var after := Upsert(rows, className, methodName, date, valid, report);
            && after[..|rows|] == rows && |after| == |rows| + 1
            && after[|rows|].className == className && after[|rows|].methodName == methodName
            && after[|rows|].valid == valid && after[|rows|].lastValidationDate == date
            && after[|rows|].contentType == report.obj.contentType
            && after[|rows|].objectId == report.obj.id
            && after[|rows|].attribute == (if report.attribute == Some("") then None else report.attribute)
            && after[|rows|].attributeValue == (if Truthy(report.value) then Some(report.value) else None)
            && after[|rows|].expectedValue == (if Truthy(report.expected) then Some(report.expected) else None)
            && after[|rows|].message == report.message
  {
    var after := Upsert(rows, className, methodName, date, valid, report);
    assert after[..|rows|] == rows;
  }

  /** The row stored for a report with a non-empty or absent attribute is found again by the
      same key. */
  lemma UpsertThenFind(rows: seq<ResultRow>, className: string, methodName: string, date: nat,
                       valid: bool, report: Report)
    requires report.attribute != Some("")
    ensures var after := Upsert(rows, className, methodName, date, valid, report);
            var i := FindRow(after, ReportKey(className, methodName, report));
            && i < |after| && after[i].valid == valid && after[i].message == report.message
            && after[i].lastValidationDate == date
  {
    var key := ReportKey(className, methodName, report);
    var after := Upsert(rows, className, methodName, date, valid, report);
    var i := FindRow(rows, key);
    if i < |rows| {
      FindRowAgain(rows, after, key, i);
    } else {
      assert KeyOf(after[|rows|]) == key;
      FindRowAgain(rows, after, key, |rows|);
    }
  }

  /** Changing rows in ways that keep the keys before the first match, and the key at the
      match, leaves the match where it was. */
  lemma FindRowAgain(rows: seq<ResultRow>, after: seq<ResultRow>, key: RowKey, i: nat)
    requires i == FindRow(rows, key) && i < |after|
    requires forall j :: 0 <= j < i ==> KeyOf(after[j]) == KeyOf(rows[j])
    requires KeyOf(after[i]) == key
    ensures FindRow(after, key) == i
  {
  }

  /** Reporting on one key leaves the row found for any other key as it was. */
  lemma UpsertOtherKey(rows: seq<ResultRow>, className: string, methodName: string, date: nat,
                       valid: bool, report: Report, other: RowKey)
    requires other != ReportKey(className, methodName, report)
    requires FindRow(rows, other) < |rows|
    ensures var after := Upsert(rows, className, methodName, date, valid, report);
            FindRow(after, other) == FindRow(rows, other)
            && after[FindRow(rows, other)] == rows[FindRow(rows, other)]
  {
    var key := ReportKey(className, methodName, report);
    var after := Upsert(rows, className, methodName, date, valid, report);
    var k := FindRow(rows, other);
    var i := FindRow(rows, key);
    assert i != k;
    assert forall j :: 0 <= j < |rows| ==> KeyOf(after[j]) == KeyOf(rows[j]) by {
      if i == |rows| {
        assert after[..|rows|] == rows;
      }
    }
    assert KeyOf(after[k]) == other;
    FindRowAgain(rows, after, other, k);
  }

  /** Reporting twice on the same key leaves the table with as many rows as reporting once:
      re-running a check does not duplicate its result. */
  lemma UpsertTwiceKeepsCount(rows: seq<ResultRow>, className: string, methodName: string,
                              date1: nat, valid1: bool, date2: nat, valid2: bool,
                              report1: Report, report2: Report)
    requires report1.attribute != Some("")
    requires ReportKey(className, methodName, report1) == ReportKey(className, methodName, report2)
    ensures var once := Upsert(rows, className, methodName, date1, valid1, report1);
            |Upsert(once, className, methodName, date2, valid2, report2)| == |once|
  {
    UpsertThenFind(rows, className, methodName, date1, valid1, report1);
  }

  /** An empty attribute is stored as `NULL` but looked up as `""`, so every report with it adds
      a row. */
  lemma EmptyAttributeDuplicates(rows: seq<ResultRow>, className: string, methodName: string,
                                 date: nat, valid: bool, report: Report)
    requires report.attribute == Some("")
    requires FindRow(rows, ReportKey(className, methodName, report)) == |rows|
    ensures var once := Upsert(rows, className, methodName, date, valid, report);
            |Upsert(once, className, methodName, date, valid, report)| == |rows| + 2
  {
    var key := ReportKey(className, methodName, report);
    var once := Upsert(rows, className, methodName, date, valid, report);
    assert once == rows + [NewRow(className, methodName, date, valid, report)];
    assert KeyOf(once[|rows|]) != key;
  }

  /** No two rows share a key. */
  predicate UniqueKeys(rows: seq<ResultRow>)
  {
    forall i, j :: 0 <= i < j < |rows| ==> KeyOf(rows[i]) != KeyOf(rows[j])
  }

  /** With a non-empty or absent attribute, reporting keeps the keys unique, as the table's
      `unique_together` constraint demands. */
  lemma UpsertKeepsUnique(rows: seq<ResultRow>, className: string, methodName: string, date: nat,
                          valid: bool, report: Report)
    requires UniqueKeys(rows) && report.attribute != Some("")
    ensures UniqueKeys(Upsert(rows, className, methodName, date, valid, report))
  {
    var key := ReportKey(className, methodName, report);
    var after := Upsert(rows, className, methodName, date, valid, report);
    var i := FindRow(rows, key);
    if i < |rows| {
      assert forall j :: 0 <= j < |rows| ==> KeyOf(after[j]) == KeyOf(rows[j]);
    } else {
      assert KeyOf(after[|rows|]) == key;
      assert forall j :: 0 <= j < |rows| ==> after[j] == rows[j];
    }
  }

  /** `__find_calling_method_name` on a stack of frame names, innermost first: the first name
      with the prefix, or the exception message. */
  function CallingMethodName(stack: seq<string>, prefix: string): (r: Result<string, string>)
    ensures r.Success? <==> exists i :: 0 <= i < |stack| && StartsWith(stack[i], prefix)
    ensures r.Success? ==> exists i :: 0 <= i < |stack| && stack[i] == r.value
                                       && StartsWith(stack[i], prefix)
                                       && forall j :: 0 <= j < i ==> !StartsWith(stack[j], prefix)
    ensures r.Failure? ==> r.error == "Unable to find calling method that starts with '" + prefix + "'."
  {
    if stack == [] then Failure("Unable to find calling method that starts with '" + prefix + "'.")
    else if StartsWith(stack[0], prefix) then Success(stack[0])
    else
      var r := CallingMethodName(stack[1..], prefix);
      assert r.Success? ==> exists i :: 0 <= i < |stack| && stack[i] == r.value
                                        && StartsWith(stack[i], prefix)
                                        && forall j :: 0 <= j < i ==> !StartsWith(stack[j], prefix) by {
        if r.Success? {
          var k :| 0 <= k < |stack[1..]| && stack[1..][k] == r.value && StartsWith(stack[1..][k], prefix)
                   && forall j :: 0 <= j < k ==> !StartsWith(stack[1..][j], prefix);
          assert stack[k + 1] == r.value;
          forall j | 0 <= j < k + 1 ensures !StartsWith(stack[j], prefix) {
            if j > 0 {
              assert stack[j] == stack[1..][j - 1];
            }
          }
        }
      }
      assert (exists i :: 0 <= i < |stack| && StartsWith(stack[i], prefix)) ==> r.Success? by {
        if i :| 0 <= i < |stack| && StartsWith(stack[i], prefix) {
          assert i > 0 && stack[1..][i - 1] == stack[i];
        }
      }
      r
  }

  /** The recorder's own frames, innermost first, seen from `__find_calling_method_name` when a
      report comes through `success` or `fail`. */
  function OwnFrames(entry: string): seq<string>
  {
    ["__find_calling_method_name", "__generate_result", entry]
  }

  /** The recorder's own frames never carry either prefix, so the method found is the caller's. */
  lemma OwnFramesSkipped(entry: string, stack: seq<string>, prefix: string)
    requires entry in {"success", "fail"} && prefix in {"validate_", "audit_"}
    ensures CallingMethodName(OwnFrames(entry) + stack, prefix) == CallingMethodName(stack, prefix)
  {
    var s := OwnFrames(entry) + stack;
    assert prefix[0] == 'v' || prefix[0] == 'a';
    FirstCharDiffers(s[0], prefix);
    FirstCharDiffers(s[1], prefix);
    FirstCharDiffers(s[2], prefix);
    assert CallingMethodName(s, prefix) == CallingMethodName(s[1..], prefix);
    assert CallingMethodName(s[1..], prefix) == CallingMethodName(s[2..], prefix);
    assert CallingMethodName(s[2..], prefix) == CallingMethodName(s[3..], prefix);
    assert s[3..] == stack;
  }

  lemma FirstCharDiffers(s: string, prefix: string)
    requires |s| > 0 && |prefix| > 0 && s[0] != prefix[0]
    ensures !StartsWith(s, prefix)
  {
  }

  /** A report made from a method whose frames carry no prefixed name raises the exception of
      `__find_calling_method_name`, and nothing is stored. */
  lemma ReportOutsidePrefixFails(entry: string, callerStack: seq<string>, prefix: string)
    requires entry in {"success", "fail"} && prefix in {"validate_", "audit_"}
    requires forall i :: 0 <= i < |callerStack| ==> !StartsWith(callerStack[i], prefix)
    ensures CallingMethodName(OwnFrames(entry) + callerStack, prefix)
         == Failure("Unable to find calling method that starts with '" + prefix + "'.")
  {
    OwnFramesSkipped(entry, callerStack, prefix);
    var r := CallingMethodName(callerStack, prefix);
    assert r.Failure?;
  }

  /** A report from a prefixed method, possibly through helpers, is attributed to it. */
  lemma ReportAttributedToCaller(entry: string, helpers: seq<string>, method_: string, outer: seq<string>,
                                 prefix: string)
    requires entry in {"success", "fail"} && prefix in {"validate_", "audit_"} && StartsWith(method_, prefix)
    requires forall i :: 0 <= i < |helpers| ==> !StartsWith(helpers[i], prefix)
    ensures CallingMethodName(OwnFrames(entry) + helpers + [method_] + outer, prefix) == Success(method_)
  {
    var stack := helpers + [method_] + outer;
    assert OwnFrames(entry) + helpers + [method_] + outer == OwnFrames(entry) + stack;
    OwnFramesSkipped(entry, stack, prefix);
    assert stack[|helpers|] == method_;
  }

  /** Every failure the full-clean sweep records is attributed to the prefixed `full_clean`
      method that called `_validate_all`: `_validate_all` itself does not carry the prefix. */
  lemma SweepAttributedToFullClean(prefix: string, fullClean: string, entryMethod: string, outer: seq<string>)
    requires prefix in {"validate_", "audit_"} && StartsWith(fullClean, prefix)
    ensures CallingMethodName(OwnFrames("fail") + (["_validate_all", fullClean, entryMethod] + outer), prefix)
         == Success(fullClean)
  {
    var s := ["_validate_all", fullClean, entryMethod] + outer;
    OwnFramesSkipped("fail", s, prefix);
    assert prefix[0] == 'v' || prefix[0] == 'a';
    FirstCharDiffers(s[0], prefix);
    assert CallingMethodName(s, prefix) == CallingMethodName(s[1..], prefix);
    assert s[1] == fullClean;
  }

  /** A call of one prefixed method on one object. */
  datatype Call = Call(obj: ObjectRef, name: string)

  /** The methods `validate`/`audit` runs: `inspect.getmembers` lists the members sorted by
      name, and those starting with the prefix are kept. */
  function PrefixedMethods(members: seq<string>, prefix: string): (ms: seq<string>)
    ensures forall i :: 0 <= i < |ms| ==> ms[i] in members && StartsWith(ms[i], prefix)
    ensures forall i :: 0 <= i < |members| && StartsWith(members[i], prefix) ==> members[i] in ms
    ensures SortedBy(ms, (s: string) => s)
    ensures forall x :: multiset(ms)[x] == if StartsWith(x, prefix) then multiset(members)[x] else 0
  {
    var sorted := SortBy(members, (s: string) => s);
    var ms := Filter(sorted, (s: string) => StartsWith(s, prefix));
    FilterSorted(sorted, (s: string) => StartsWith(s, prefix), (s: string) => s);
    FilterMultiset(sorted, (s: string) => StartsWith(s, prefix));
    ms
  }

  /** The calls on one object, one per method in order. */
  function CallsOn(obj: ObjectRef, methods: seq<string>): (cs: seq<Call>)
    ensures |cs| == |methods|
    ensures forall j :: 0 <= j < |cs| ==> cs[j] == Call(obj, methods[j])
  {
    if methods == [] then []
    else CallsOn(obj, methods[..|methods| - 1]) + [Call(obj, methods[|methods| - 1])]
  }

  /** The calls of the nested loops of `validate`/`audit`: objects outside, methods inside. */
  function Dispatch(objects: seq<ObjectRef>, methods: seq<string>): seq<Call>
  {
    if objects == [] then []
    else Dispatch(objects[..|objects| - 1], methods) + CallsOn(objects[|objects| - 1], methods)
  }

  /** One call per object and prefixed method. */
  lemma {:induction false} DispatchLength(objects: seq<ObjectRef>, methods: seq<string>)
    ensures |Dispatch(objects, methods)| == |objects| * |methods|
  {
    if objects != [] {
      DispatchLength(objects[..|objects| - 1], methods);
      assert |objects| * |methods| == (|objects| - 1) * |methods| + |methods|;
    }
  }

  /** Method `j` runs on object `i` as call number `i * |methods| + j`. */
  lemma {:induction false} DispatchAt(objects: seq<ObjectRef>, methods: seq<string>, i: nat, j: nat)
    requires i < |objects| && j < |methods|
    ensures i * |methods| + j < |Dispatch(objects, methods)|
    ensures Dispatch(objects, methods)[i * |methods| + j] == Call(objects[i], methods[j])
  {
    var n := |objects| - 1;
    var m := |methods|;
    var init := objects[..n];
    var last := CallsOn(objects[n], methods);
    assert Dispatch(objects, methods) == Dispatch(init, methods) + last;
    DispatchLength(init, methods);
    if i < n {
      DispatchAt(init, methods, i, j);
      MulMonotone(i + 1, n, m);
      assert (i + 1) * m == i * m + m;
      assert init[i] == objects[i];
    } else {
      assert last[j] == Call(objects[i], methods[j]);
    }
  }

  lemma MulMonotone(a: nat, b: nat, m: nat)
    requires a <= b
    ensures a * m <= b * m
  {
  }

  /** Every call pairs an object with a prefixed method, and every such pair is called. */
  lemma DispatchMembers(objects: seq<ObjectRef>, methods: seq<string>, c: Call)
    ensures c in Dispatch(objects, methods) <==> c.obj in objects && c.name in methods
  {
    if c.obj in objects && c.name in methods {
      var i :| 0 <= i < |objects| && objects[i] == c.obj;
      var j :| 0 <= j < |methods| && methods[j] == c.name;
      DispatchAt(objects, methods, i, j);
    }
    if c in Dispatch(objects, methods) {
      DispatchMembersBack(objects, methods, c);
    }
  }

  lemma {:induction false} DispatchMembersBack(objects: seq<ObjectRef>, methods: seq<string>, c: Call)
    requires c in Dispatch(objects, methods)
    ensures c.obj in objects && c.name in methods
  {
    var n := |objects| - 1;
    if c in Dispatch(objects[..n], methods) {
      DispatchMembersBack(objects[..n], methods, c);
      assert objects[..n] <= objects;
    } else {
      var k :| 0 <= k < |methods| && CallsOn(objects[n], methods)[k] == c;
    }
  }

  /** An instance of a model, with the `message_dict` of the `ValidationError` its `full_clean`
      raises (attribute and messages, in dictionary order; empty when it raises none). */
  datatype Instance = Instance(ref: ObjectRef, attrs: Attributes, errors: seq<(string, seq<string>)>)

  /** A model class of an app config. */
  datatype ModelInfo = ModelInfo(appLabel: string, modelName: string, managed: bool,
                                 instances: seq<Instance>)

  /** An app config with its models. */
  datatype AppConfig = AppConfig(appLabel: string, models: seq<ModelInfo>)

  /** What stops a full-clean sweep: `job_result` still `None` at the first log line, `getattr`
      of an error key that is not an attribute (such as `__all__`), or no frame with the prefix. */
  datatype SweepError = NoJobResult | MissingAttribute(attribute: string) | NoCallingMethod(message: string)

  /** What a sweep needs besides the table: the recorder's class name, the method name its
      reports are attributed to (or the stack-walk failure), the result date and whether a
      `job_result` is set. */
  datatype SweepContext = SweepContext(className: string, methodName: Result<string, string>,
                                       date: nat, hasJobResult: bool)

  /** The table after a sweep or part of one, and the exception that ended it early, if any.
      Each result is saved as soon as it is reported, so the rows recorded before an exception
      stay. */
  datatype SweepState = SweepState(rows: seq<ResultRow>, error: Option<SweepError>)

  /** The report `fail` receives for one entry of the error dictionary. */
  function EntryReport(inst: Instance, attribute: string, value: Value, messages: seq<string>): Report
  {
    Report(inst.ref, Some(attribute), value, NoneValue, Some(Join(messages, " AND ")))
  }

  /** `self.fail(instance, attribute=..., validated_attribute_value=getattr(...), message=...)`
      for one entry of the error dictionary; `getattr` runs before `fail`. */
  function FailEntry(rows: seq<ResultRow>, ctx: SweepContext, inst: Instance,
                     entry: (string, seq<string>)): SweepState
  {
    match GetAttr(inst.attrs, entry.0)
    case None => SweepState(rows, Some(MissingAttribute(entry.0)))
    case Some(v) =>
      if ctx.methodName.Failure? then SweepState(rows, Some(NoCallingMethod(ctx.methodName.error)))
      else SweepState(Upsert(rows, ctx.className, ctx.methodName.value, ctx.date, false,
                             EntryReport(inst, entry.0, v, entry.1)), None)
  }

  /** The innermost loop of `_validate_all`: one failure per entry of the error dictionary. */
  function SweepErrors(rows: seq<ResultRow>, ctx: SweepContext, inst: Instance,
                       errors: seq<(string, seq<string>)>): SweepState
    decreases |errors|
  {
    if errors == [] then SweepState(rows, None)
    else
      var st := FailEntry(rows, ctx, inst, errors[0]);
      if st.error.Some? then st else SweepErrors(st.rows, ctx, inst, errors[1..])
  }

  /** The loop over the instances of one model. */
  function SweepInstances(rows: seq<ResultRow>, ctx: SweepContext, instances: seq<Instance>): SweepState
    decreases |instances|
  {
    if instances == [] then SweepState(rows, None)
    else
      var st := SweepErrors(rows, ctx, instances[0], instances[0].errors);
      if st.error.Some? then st else SweepInstances(st.rows, ctx, instances[1..])
  }

  /** The model `_validate_all` actually queries for a model class: `auth.user` is replaced by
      the configured user model. */
  function Effective(model: ModelInfo, userModel: ModelInfo): ModelInfo
  {
    if model.appLabel + "." + model.modelName == "auth.user" then userModel else model
  }

  /** One model of the sweep: an unmanaged model is skipped, and a managed one needs a
      `job_result` to log to. */
  function SweepModel(rows: seq<ResultRow>, ctx: SweepContext, model: ModelInfo): SweepState
  {
    if !model.managed then SweepState(rows, None)
    else if !ctx.hasJobResult then SweepState(rows, Some(NoJobResult))
    else SweepInstances(rows, ctx, model.instances)
  }

  /** The loop over the models of one app config, already sorted by model name. */
  function SweepModels(rows: seq<ResultRow>, ctx: SweepContext, models: seq<ModelInfo>,
                       userModel: ModelInfo): SweepState
    decreases |models|
  {
    if models == [] then SweepState(rows, None)
    else
      var st := SweepModel(rows, ctx, Effective(models[0], userModel));
      if st.error.Some? then st else SweepModels(st.rows, ctx, models[1..], userModel)
  }

  function ModelNameKey(m: ModelInfo): string
  {
    m.modelName
  }

  function AppLabelKey(a: AppConfig): string
  {
    a.appLabel
  }

  /** The outer loop of `_validate_all`, over app configs already sorted by label; the models of
      each are visited sorted by model name. */
  function SweepApps(rows: seq<ResultRow>, ctx: SweepContext, apps: seq<AppConfig>,
                     userModel: ModelInfo): SweepState
    decreases |apps|
  {
    if apps == [] then SweepState(rows, None)
    else
      var st := SweepModels(rows, ctx, SortBy(apps[0].models, ModelNameKey), userModel);
      if st.error.Some? then st else SweepApps(st.rows, ctx, apps[1..], userModel)
  }

  /** `_validate_all` / `_audit_all`. */
  function FullClean(rows: seq<ResultRow>, ctx: SweepContext, apps: seq<AppConfig>,
                     userModel: ModelInfo): SweepState
  {
    SweepApps(rows, ctx, SortBy(apps, AppLabelKey), userModel)
  }

  /** An unmanaged model adds nothing to the sweep and raises nothing. */
  lemma UnmanagedSkipped(rows: seq<ResultRow>, ctx: SweepContext, model: ModelInfo,
                         models: seq<ModelInfo>, userModel: ModelInfo)
    requires !Effective(model, userModel).managed
    ensures SweepModels(rows, ctx, [model] + models, userModel) == SweepModels(rows, ctx, models, userModel)
  {
    assert ([model] + models)[1..] == models;
  }

  /** Every row of `after` is the row of `before` at the same place, or a failure attributed to
      the sweep's class and method; no row is removed. */
  predicate OnlyFailuresAdded(before: seq<ResultRow>, after: seq<ResultRow>, ctx: SweepContext)
  {
    && |before| <= |after|
    && forall i :: 0 <= i < |after| ==>
         (i < |before| && after[i] == before[i])
         || (!after[i].valid && ctx.methodName.Success? && after[i].className == ctx.className
             && after[i].methodName == ctx.methodName.value)
  }

  lemma OnlyFailuresAddedTransitive(a: seq<ResultRow>, b: seq<ResultRow>, c: seq<ResultRow>,
                                    ctx: SweepContext)
    requires OnlyFailuresAdded(a, b, ctx) && OnlyFailuresAdded(b, c, ctx)
    ensures OnlyFailuresAdded(a, c, ctx)
  {
  }

  lemma FailEntryOnlyFailures(rows: seq<ResultRow>, ctx: SweepContext, inst: Instance,
                              entry: (string, seq<string>))
    ensures OnlyFailuresAdded(rows, FailEntry(rows, ctx, inst, entry).rows, ctx)
  {
    var after := FailEntry(rows, ctx, inst, entry).rows;
    if after != rows {
      var v := GetAttr(inst.attrs, entry.0).value;
      var report := EntryReport(inst, entry.0, v, entry.1);
      var key := ReportKey(ctx.className, ctx.methodName.value, report);
      var k := FindRow(rows, key);
      if k < |rows| {
        assert KeyOf(rows[k]) == key;
      }
    }
  }

  lemma {:induction false} SweepErrorsOnlyFailures(rows: seq<ResultRow>, ctx: SweepContext, inst: Instance,
                                                   errors: seq<(string, seq<string>)>)
    ensures OnlyFailuresAdded(rows, SweepErrors(rows, ctx, inst, errors).rows, ctx)
    decreases |errors|
  {
    if errors != [] {
      var st := FailEntry(rows, ctx, inst, errors[0]);
      FailEntryOnlyFailures(rows, ctx, inst, errors[0]);
      if st.error.None? {
        SweepErrorsOnlyFailures(st.rows, ctx, inst, errors[1..]);
        OnlyFailuresAddedTransitive(rows, st.rows, SweepErrors(st.rows, ctx, inst, errors[1..]).rows, ctx);
      }
    }
  }

  lemma {:induction false} SweepInstancesOnlyFailures(rows: seq<ResultRow>, ctx: SweepContext,
                                                      instances: seq<Instance>)
    ensures OnlyFailuresAdded(rows, SweepInstances(rows, ctx, instances).rows, ctx)
    decreases |instances|
  {
    if instances != [] {
      var st := SweepErrors(rows, ctx, instances[0], instances[0].errors);
      SweepErrorsOnlyFailures(rows, ctx, instances[0], instances[0].errors);
      if st.error.None? {
        SweepInstancesOnlyFailures(st.rows, ctx, instances[1..]);
        OnlyFailuresAddedTransitive(rows, st.rows, SweepInstances(st.rows, ctx, instances[1..]).rows, ctx);
      }
    }
  }

  lemma {:induction false} SweepModelsOnlyFailures(rows: seq<ResultRow>, ctx: SweepContext,
                                                   models: seq<ModelInfo>, userModel: ModelInfo)
    ensures OnlyFailuresAdded(rows, SweepModels(rows, ctx, models, userModel).rows, ctx)
    decreases |models|
  {
    if models != [] {
      var model := Effective(models[0], userModel);
      var st := SweepModel(rows, ctx, model);
      if model.managed && ctx.hasJobResult {
        SweepInstancesOnlyFailures(rows, ctx, model.instances);
      }
      if st.error.None? {
        SweepModelsOnlyFailures(st.rows, ctx, models[1..], userModel);
        OnlyFailuresAddedTransitive(rows, st.rows, SweepModels(st.rows, ctx, models[1..], userModel).rows, ctx);
      }
    }
  }

  lemma {:induction false} SweepAppsOnlyFailures(rows: seq<ResultRow>, ctx: SweepContext,
                                                 apps: seq<AppConfig>, userModel: ModelInfo)
    ensures OnlyFailuresAdded(rows, SweepApps(rows, ctx, apps, userModel).rows, ctx)
    decreases |apps|
  {
    if apps != [] {
      var st := SweepModels(rows, ctx, SortBy(apps[0].models, ModelNameKey), userModel);
      SweepModelsOnlyFailures(rows, ctx, SortBy(apps[0].models, ModelNameKey), userModel);
      if st.error.None? {
        SweepAppsOnlyFailures(st.rows, ctx, apps[1..], userModel);
        OnlyFailuresAddedTransitive(rows, st.rows, SweepApps(st.rows, ctx, apps[1..], userModel).rows, ctx);
      }
    }
  }

  /** The full-clean sweep only records failures, each attributed to the recorder's class and to
      the method found on the stack, and never removes or passes a row: it leaves a row of an
      earlier run unchanged unless it records a failure over it. */
  lemma FullCleanOnlyFailures(rows: seq<ResultRow>, ctx: SweepContext, apps: seq<AppConfig>,
                              userModel: ModelInfo)
    ensures OnlyFailuresAdded(rows, FullClean(rows, ctx, apps, userModel).rows, ctx)
  {
    SweepAppsOnlyFailures(rows, ctx, SortBy(apps, AppLabelKey), userModel);
  }

  /** Without a `job_result` nothing is recorded: the first managed model raises before any of
      its instances is cleaned. */
  lemma {:induction false} SweepModelsWithoutJobResult(rows: seq<ResultRow>, ctx: SweepContext,
                                                       models: seq<ModelInfo>, userModel: ModelInfo)
    requires !ctx.hasJobResult
    ensures SweepModels(rows, ctx, models, userModel).rows == rows
    decreases |models|
  {
    if models != [] {
      SweepModelsWithoutJobResult(rows, ctx, models[1..], userModel);
    }
  }

  lemma {:induction false} SweepAppsWithoutJobResult(rows: seq<ResultRow>, ctx: SweepContext,
                                                     apps: seq<AppConfig>, userModel: ModelInfo)
    requires !ctx.hasJobResult
    ensures SweepApps(rows, ctx, apps, userModel).rows == rows
    decreases |apps|
  {
    if apps != [] {
      SweepModelsWithoutJobResult(rows, ctx, SortBy(apps[0].models, ModelNameKey), userModel);
      SweepAppsWithoutJobResult(rows, ctx, apps[1..], userModel);
    }
  }

  /** The error keys of one instance are distinct, non-empty names (they come from a
      dictionary of field names). */
  predicate ProperErrors(errors: seq<(string, seq<string>)>)
  {
    && (forall k :: 0 <= k < |errors| ==> errors[k].0 != "")
    && (forall k, l :: 0 <= k < l < |errors| ==> errors[k].0 != errors[l].0)
  }

  /** The key of the failure recorded for the entry of an error dictionary. */
  function EntryKey(ctx: SweepContext, inst: Instance, attribute: string): RowKey
    requires ctx.methodName.Success?
  {
    RowKey(ctx.className, ctx.methodName.value, inst.ref.contentType, inst.ref.id, Some(attribute))
  }

  /** When the errors of an instance are all recorded, each attribute of the error dictionary
      has a failed row whose message is that attribute's messages joined by `" AND "`. */
  lemma {:induction false} SweepErrorsRecordsEach(rows: seq<ResultRow>, ctx: SweepContext, inst: Instance,
                                                  errors: seq<(string, seq<string>)>, k: nat)
    requires ProperErrors(errors) && k < |errors|
    requires SweepErrors(rows, ctx, inst, errors).error.None?
    decreases |errors|
    ensures ctx.methodName.Success?
    ensures var after := SweepErrors(rows, ctx, inst, errors).rows;
            var i := FindRow(after, EntryKey(ctx, inst, errors[k].0));
            && i < |after| && !after[i].valid
            && after[i].message == Some(Join(errors[k].1, " AND "))
  {
    SweepErrorsStep(rows, ctx, inst, errors);
    var v := GetAttr(inst.attrs, errors[0].0).value;
    var report := EntryReport(inst, errors[0].0, v, errors[0].1);
    var next := FailEntry(rows, ctx, inst, errors[0]).rows;
    assert ProperErrors(errors[1..]);
    if k == 0 {
      UpsertThenFind(rows, ctx.className, ctx.methodName.value, ctx.date, false, report);
      SweepErrorsKeepsRow(next, ctx, inst, errors[1..], EntryKey(ctx, inst, errors[0].0));
    } else {
      assert errors[1..][k - 1] == errors[k];
      SweepErrorsRecordsEach(next, ctx, inst, errors[1..], k - 1);
    }
  }

  /** A completed error loop recorded its first entry and then completed on the rest. */
  lemma SweepErrorsStep(rows: seq<ResultRow>, ctx: SweepContext, inst: Instance,
                        errors: seq<(string, seq<string>)>)
    requires errors != [] && SweepErrors(rows, ctx, inst, errors).error.None?
    ensures GetAttr(inst.attrs, errors[0].0).Some? && ctx.methodName.Success?
    ensures FailEntry(rows, ctx, inst, errors[0])
         == SweepState(Upsert(rows, ctx.className, ctx.methodName.value, ctx.date, false,
                              EntryReport(inst, errors[0].0, GetAttr(inst.attrs, errors[0].0).value, errors[0].1)),
                       None)
    ensures SweepErrors(FailEntry(rows, ctx, inst, errors[0]).rows, ctx, inst, errors[1..])
         == SweepErrors(rows, ctx, inst, errors)
  {
  }

  /** Recording the other attributes of the dictionary leaves the row of an attribute alone. */
  lemma {:induction false} SweepErrorsKeepsRow(rows: seq<ResultRow>, ctx: SweepContext, inst: Instance,
                                               errors: seq<(string, seq<string>)>, key: RowKey)
    requires ctx.methodName.Success?
    requires forall k :: 0 <= k < |errors| ==> errors[k].0 != "" && EntryKey(ctx, inst, errors[k].0) != key
    requires FindRow(rows, key) < |rows|
    requires SweepErrors(rows, ctx, inst, errors).error.None?
    decreases |errors|
    ensures var after := SweepErrors(rows, ctx, inst, errors).rows;
            FindRow(after, key) < |after| && after[FindRow(after, key)] == rows[FindRow(rows, key)]
  {
    if errors != [] {
      SweepErrorsStep(rows, ctx, inst, errors);
      var v := GetAttr(inst.attrs, errors[0].0).value;
      var report := EntryReport(inst, errors[0].0, v, errors[0].1);
      var next := FailEntry(rows, ctx, inst, errors[0]).rows;
      UpsertOtherKey(rows, ctx.className, ctx.methodName.value, ctx.date, false, report, key);
      SweepErrorsKeepsRow(next, ctx, inst, errors[1..], key);
    }
  }

  /** The result table. */
  class ResultStore {
    var rows: seq<ResultRow>

    constructor ()
      ensures rows == []
    {
      rows := [];
    }
  }

  /** A `ValidationSet` or `AuditRuleset` instance: `className` is `type(self).__name__`,
      `prefix` is `"validate_"` or `"audit_"`, and `store` is the result table it writes. */
  class Recorder {
    const className: string
    const prefix: string
    const store: ResultStore
    var resultDate: nat
    var hasJobResult: bool

    /** `__init__`: `result_date` is `timezone.now()`, given as `now`; `job_result` is `None`. */
    constructor (className: string, prefix: string, store: ResultStore, now: nat)
      ensures this.className == className && this.prefix == prefix && this.store == store
      ensures resultDate == now && !hasJobResult
    {
      this.className := className;
      this.prefix := prefix;
      this.store := store;
      resultDate := now;
      hasJobResult := false;
    }

    function Context(callerStack: seq<string>): SweepContext
      reads this
    {
      SweepContext(className, CallingMethodName(OwnFrames("fail") + callerStack, prefix),
                   resultDate, hasJobResult)
    }

    /** `__find_calling_method_name` over the stack as `inspect.stack()` returns it. */
    method FindCallingMethodName(stack: seq<string>) returns (r: Result<string, string>)
      ensures r == CallingMethodName(stack, prefix)
    {
      var i := 0;
      while i < |stack|
        invariant 0 <= i <= |stack|
        invariant CallingMethodName(stack[i..], prefix) == CallingMethodName(stack, prefix)
      {
        assert stack[i..][1..] == stack[i + 1..];
        if StartsWith(stack[i], prefix) {
          return Success(stack[i]);
        }
        i := i + 1;
      }
      return Failure("Unable to find calling method that starts with '" + prefix + "'.");
    }

    /** `__generate_result`, with `stack` the frames `inspect.stack()` lists. */
    method GenerateResult(valid: bool, report: Report, stack: seq<string>) returns (r: Outcome<string>)
      modifies store
      ensures r.Pass? <==> CallingMethodName(stack, prefix).Success?
      ensures r.Fail? ==> r.error == CallingMethodName(stack, prefix).error && store.rows == old(store.rows)
      ensures r.Pass? ==>
        store.rows == Upsert(old(store.rows), className, CallingMethodName(stack, prefix).value,
                             resultDate, valid, report)
    {
      var methodName := FindCallingMethodName(stack);
      if methodName.Failure? {
        return Fail(methodName.error);
      }
      var key := ReportKey(className, methodName.value, report);
      var i := FindRow(store.rows, key);
      if i < |store.rows| {
        var row := store.rows[i];
        store.rows := store.rows[i := row.(lastValidationDate := resultDate, valid := valid,
                                           message := report.message)];
      } else {
        store.rows := store.rows + [NewRow(className, methodName.value, resultDate, valid, report)];
      }
      return Pass;
    }

    /** `success`: a passed check, reported from the method at the top of `callerStack`. */
    method RecordSuccess(report: Report, callerStack: seq<string>) returns (r: Outcome<string>)
      modifies store
      ensures r.Pass? <==> CallingMethodName(OwnFrames("success") + callerStack, prefix).Success?
      ensures r.Pass? ==>
        store.rows == Upsert(old(store.rows), className,
                             CallingMethodName(OwnFrames("success") + callerStack, prefix).value,
                             resultDate, true, report)
      ensures r.Fail? ==> store.rows == old(store.rows)
      ensures r.Fail? ==> r.error == CallingMethodName(OwnFrames("success") + callerStack, prefix).error
    {
      r := GenerateResult(true, report, OwnFrames("success") + callerStack);
    }

    /** `fail`: a failed check, reported from the method at the top of `callerStack`. */
    method RecordFailure(report: Report, callerStack: seq<string>) returns (r: Outcome<string>)
      modifies store
      ensures r.Pass? <==> CallingMethodName(OwnFrames("fail") + callerStack, prefix).Success?
      ensures r.Pass? ==>
        store.rows == Upsert(old(store.rows), className,
                             CallingMethodName(OwnFrames("fail") + callerStack, prefix).value,
                             resultDate, false, report)
      ensures r.Fail? ==> store.rows == old(store.rows)
      ensures r.Fail? ==> r.error == CallingMethodName(OwnFrames("fail") + callerStack, prefix).error
    {
      r := GenerateResult(false, report, OwnFrames("fail") + callerStack);
    }

    /** `validate(job_result)` / `audit(job_result)`: records the job result and returns the
        calls it makes, each prefixed member once per object of the model's queryset. The called
        methods are the subclass's own code, which is not part of this model. */
    method Run(members: seq<string>, objects: seq<ObjectRef>) returns (calls: seq<Call>)
      modifies this
      ensures hasJobResult && resultDate == old(resultDate)
      ensures calls == Dispatch(objects, PrefixedMethods(members, prefix))
    {
      hasJobResult := true;
      calls := DispatchLoop(objects, PrefixedMethods(members, prefix));
    }

    /** The two nested loops of `validate`/`audit`. */
    static method DispatchLoop(objects: seq<ObjectRef>, methods: seq<string>) returns (calls: seq<Call>)
      ensures calls == Dispatch(objects, methods)
    {
      calls := [];
      var i := 0;
      while i < |objects|
        invariant 0 <= i <= |objects|
        invariant calls == Dispatch(objects[..i], methods)
      {
        var row: seq<Call> := [];
        var j := 0;
        while j < |methods|
          invariant 0 <= j <= |methods|
          invariant row == CallsOn(objects[i], methods[..j])
        {
          assert methods[..j + 1][..j] == methods[..j];
          row := row + [Call(objects[i], methods[j])];
          j := j + 1;
        }
        assert methods[..j] == methods;
        assert objects[..i + 1][..i] == objects[..i];
        calls := calls + row;
        i := i + 1;
      }
      assert objects[..i] == objects;
    }

    /** The error loop of `_validate_all` for one instance, with `callerStack` the frames above
        `fail`, innermost first. */
    method RecordErrors(inst: Instance, callerStack: seq<string>) returns (err: Option<SweepError>)
      modifies store
      ensures SweepState(store.rows, err) == SweepErrors(old(store.rows), Context(callerStack), inst, inst.errors)
    {
      var errors := inst.errors;
      var k := 0;
      while k < |errors|
        invariant 0 <= k <= |errors|
        invariant SweepErrors(store.rows, Context(callerStack), inst, errors[k..])
               == SweepErrors(old(store.rows), Context(callerStack), inst, errors)
      {
        assert errors[k..][1..] == errors[k + 1..];
        var (attribute, messages) := errors[k];
        var value := GetAttr(inst.attrs, attribute);
        if value.None? {
          return Some(MissingAttribute(attribute));
        }
        var r := RecordFailure(EntryReport(inst, attribute, value.value, messages), callerStack);
        if r.Fail? {
          return Some(NoCallingMethod(r.error));
        }
        k := k + 1;
      }
      return None;
    }

    /** The instance loop of `_validate_all` for one model. */
    method RecordInstances(instances: seq<Instance>, callerStack: seq<string>) returns (err: Option<SweepError>)
      modifies store
      ensures SweepState(store.rows, err) == SweepInstances(old(store.rows), Context(callerStack), instances)
    {
      var k := 0;
      while k < |instances|
        invariant 0 <= k <= |instances|
        invariant SweepInstances(store.rows, Context(callerStack), instances[k..])
               == SweepInstances(old(store.rows), Context(callerStack), instances)
      {
        assert instances[k..][1..] == instances[k + 1..];
        err := RecordErrors(instances[k], callerStack);
        if err.Some? {
          return;
        }
        k := k + 1;
      }
      return None;
    }

    /** The model loop of `_validate_all` for one app config, over models sorted by name. */
    method RecordModels(models: seq<ModelInfo>, userModel: ModelInfo, callerStack: seq<string>)
      returns (err: Option<SweepError>)
      modifies store
      ensures SweepState(store.rows, err) == SweepModels(old(store.rows), Context(callerStack), models, userModel)
    {
      var k := 0;
      while k < |models|
        invariant 0 <= k <= |models|
        invariant SweepModels(store.rows, Context(callerStack), models[k..], userModel)
               == SweepModels(old(store.rows), Context(callerStack), models, userModel)
      {
        assert models[k..][1..] == models[k + 1..];
        var model := models[k];
        if model.appLabel + "." + model.modelName == "auth.user" {
          model := userModel;
        }
        if model.managed {
          if !hasJobResult {
            return Some(NoJobResult);
          }
          err := RecordInstances(model.instances, callerStack);
          if err.Some? {
            return;
          }
        }
        k := k + 1;
      }
      return None;
    }

    /** `_validate_all` / `_audit_all`, called from the frames `outerStack`. */
    method FullCleanAll(apps: seq<AppConfig>, userModel: ModelInfo, outerStack: seq<string>, entry: string)
      returns (err: Option<SweepError>)
      modifies store
      ensures SweepState(store.rows, err)
           == FullClean(old(store.rows), Context([entry] + outerStack), apps, userModel)
    {
      var callerStack := [entry] + outerStack;
      var sorted := SortBy(apps, AppLabelKey);
      var k := 0;
      while k < |sorted|
        invariant 0 <= k <= |sorted|
        invariant SweepApps(store.rows, Context(callerStack), sorted[k..], userModel)
               == SweepApps(old(store.rows), Context(callerStack), sorted, userModel)
      {
        assert sorted[k..][1..] == sorted[k + 1..];
        err := RecordModels(SortBy(sorted[k].models, ModelNameKey), userModel, callerStack);
        if err.Some? {
          return;
        }
        k := k + 1;
      }
      return None;
    }
  }
}
