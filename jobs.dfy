/** The audit job (`jobs.py`): the choices of its class selector, and `run`, which collects the
    audit classes from the registry and from Git repositories and cleans every object of each
    selected class's model. */
module Jobs {
  import opened Wrappers
  import opened Text
  import opened Seqs
  import opened Recording

  /** An audit class as the job sees it: its `__name__` and its `model` attribute. */
  datatype AuditClass = AuditClass(name: string, model: string)

  /** A Git repository: what it provides, and the `audit_rulesets` attribute of the module the
      job imports from it (`None` when the module has no such attribute). */
  datatype Repository = Repository(providedContents: seq<string>, auditRulesets: Option<seq<AuditClass>>)

  /** The content type a repository must provide for the job to look into it. */
  const AuditRulesetsContent := "nautobot_data_validation_engine.audit_rulesets"

  /** The job imports the repository's module and finds `audit_rulesets` in it. */
  predicate Contributes(repo: Repository)
  {
    AuditRulesetsContent in repo.providedContents && repo.auditRulesets.Some?
  }

  /** The audit classes one repository contributes. */
  function RepositoryClasses(repo: Repository): (cs: seq<AuditClass>)
    ensures cs != [] ==> Contributes(repo) && repo.auditRulesets == Some(cs)
  {
    if Contributes(repo) then repo.auditRulesets.value else []
  }

  /** The classes of the registry followed by those of each repository, in order. */
  function AllClasses(registry: seq<AuditClass>, repos: seq<Repository>): seq<AuditClass>
  {
    if repos == [] then registry
    else AllClasses(registry, repos[..|repos| - 1]) + RepositoryClasses(repos[|repos| - 1])
  }

  /** The registry's classes come first, in registry order, and each repository only appends:
      nothing is removed or deduplicated. */
  lemma {:induction false} RegistryFirst(registry: seq<AuditClass>, repos: seq<Repository>)
    ensures |registry| <= |AllClasses(registry, repos)|
    ensures AllClasses(registry, repos)[..|registry|] == registry
    ensures forall r :: 0 <= r < |repos| && !Contributes(repos[r]) ==>
              AllClasses(registry, repos[..r + 1]) == AllClasses(registry, repos[..r])
  {
    if repos != [] {
      var n := |repos| - 1;
      RegistryFirst(registry, repos[..n]);
      var before := AllClasses(registry, repos[..n]);
      assert (before + RepositoryClasses(repos[n]))[..|registry|] == before[..|registry|];
      forall r | 0 <= r < |repos| && !Contributes(repos[r])
        ensures AllClasses(registry, repos[..r + 1]) == AllClasses(registry, repos[..r])
      {
        assert repos[..r + 1][..r] == repos[..r];
      }
    }
  }

  /** A class of a contributing repository is among the collected classes. */
  lemma {:induction false} RepositoryClassCollected(registry: seq<AuditClass>, repos: seq<Repository>,
                                                    r: nat, c: AuditClass)
    requires r < |repos| && c in RepositoryClasses(repos[r])
    ensures c in AllClasses(registry, repos)
  {
    var n := |repos| - 1;
    if r < n {
      assert repos[..n][r] == repos[r];
      RepositoryClassCollected(registry, repos[..n], r, c);
    }
  }

  /** `(name, name)` for each class, in order. */
  function Pairs(classes: seq<AuditClass>): (ps: seq<(string, string)>)
    ensures |ps| == |classes|
    ensures forall i :: 0 <= i < |ps| ==> ps[i] == (classes[i].name, classes[i].name)
  {
    if classes == [] then []
    else Pairs(classes[..|classes| - 1]) + [(classes[|classes| - 1].name, classes[|classes| - 1].name)]
  }

  lemma {:induction false} PairsAppend(a: seq<AuditClass>, b: seq<AuditClass>)
    ensures Pairs(a + b) == Pairs(a) + Pairs(b)
  {
    var ab := Pairs(a + b);
    assert |ab| == |Pairs(a) + Pairs(b)|;
    forall i | 0 <= i < |ab| ensures ab[i] == (Pairs(a) + Pairs(b))[i] {
      if i >= |a| {
        assert (a + b)[i] == b[i - |a|];
      }
    }
  }

  function ChoiceKey(choice: (string, string)): string
  {
    choice.0
  }

  /** The list `get_choices` sorts. Sorting a list of `(name, name)` pairs orders it by name, and
      pairs with the same name are equal, so the stable sort by name gives `list.sort()`'s
      result. */
  function Choices(registry: seq<AuditClass>, repos: seq<Repository>): seq<(string, string)>
  {
    SortBy(Pairs(AllClasses(registry, repos)), ChoiceKey)
  }

  /** The choices are sorted, each pairs a collected class's name with itself, every collected
      class has its choice, and a name collected twice is offered twice. */
  lemma ChoicesSpec(registry: seq<AuditClass>, repos: seq<Repository>)
    ensures var cs := Choices(registry, repos);
            && SortedBy(cs, ChoiceKey)
            && |cs| == |AllClasses(registry, repos)|
            && (forall i :: 0 <= i < |cs| ==>
                  cs[i].0 == cs[i].1 && exists c :: c in AllClasses(registry, repos) && c.name == cs[i].0)
            && (forall c :: c in AllClasses(registry, repos) ==> (c.name, c.name) in cs)
            && multiset(cs) == multiset(Pairs(AllClasses(registry, repos)))
  {
    var all := AllClasses(registry, repos);
    var ps := Pairs(all);
    var cs := Choices(registry, repos);
    forall i | 0 <= i < |cs|
      ensures cs[i].0 == cs[i].1 && exists c :: c in all && c.name == cs[i].0
    {
      assert cs[i] in ps;
      var k :| 0 <= k < |ps| && ps[k] == cs[i];
      assert all[k] in all;
    }
    forall c | c in all ensures (c.name, c.name) in cs {
      var k :| 0 <= k < |all| && all[k] == c;
      assert ps[k] == (c.name, c.name);
    }
  }

  /** A registered class always has its choice. */
  lemma RegisteredClassOffered(registry: seq<AuditClass>, repos: seq<Repository>, c: AuditClass)
    requires c in registry
    ensures (c.name, c.name) in Choices(registry, repos)
  {
    RegistryCollected(registry, repos, c);
    ChoicesSpec(registry, repos);
  }

  lemma {:induction false} RegistryCollected(registry: seq<AuditClass>, repos: seq<Repository>, c: AuditClass)
    requires c in registry
    ensures c in AllClasses(registry, repos)
  {
    if repos != [] {
      RegistryCollected(registry, repos[..|repos| - 1], c);
    }
  }

  /** `get_choices`, with the registry and the repositories given. */
  method GetChoices(registry: seq<AuditClass>, repos: seq<Repository>) returns (choices: seq<(string, string)>)
    ensures choices == Choices(registry, repos)
  {
    var collected := CollectChoices(registry, repos);
    choices := SortBy(collected, ChoiceKey);
  }

  /** The two appending loops of `get_choices`, before the sort. */
  method CollectChoices(registry: seq<AuditClass>, repos: seq<Repository>) returns (collected: seq<(string, string)>)
    ensures collected == Pairs(AllClasses(registry, repos))
  {
    collected := AppendChoices([], registry);
    assert repos[..0] == [];
    var r := 0;
    while r < |repos|
      invariant 0 <= r <= |repos|
      invariant collected == Pairs(AllClasses(registry, repos[..r]))
    {
      assert repos[..r + 1][..r] == repos[..r];
      ghost var before := AllClasses(registry, repos[..r]);
      assert repos[..r + 1][r] == repos[r];
      assert AllClasses(registry, repos[..r + 1]) == before + RepositoryClasses(repos[r]);
      if Contributes(repos[r]) {
        collected := AppendChoices(collected, repos[r].auditRulesets.value);
      }
      PairsAppend(before, RepositoryClasses(repos[r]));
      r := r + 1;
    }
    assert repos[..r] == repos;
  }

  /** `for audit_class in module.audit_rulesets: choices.append(...)`. */
  method AppendChoices(collected0: seq<(string, string)>, classes: seq<AuditClass>) returns (collected: seq<(string, string)>)
    ensures collected == collected0 + Pairs(classes)
  {
    collected := collected0;
    var j := 0;
    while j < |classes|
      invariant 0 <= j <= |classes|
      invariant collected == collected0 + Pairs(classes[..j])
    {
      assert classes[..j + 1][..j] == classes[..j];
      collected := collected + [(classes[j].name, classes[j].name)];
      j := j + 1;
    }
    assert classes[..j] == classes;
  }

  /** `if audits and audit_class.__name__ not in audits: continue`: an absent or empty
      selection runs every class. */
  predicate Selected(audits: Option<seq<string>>, name: string)
  {
    audits.None? || audits.value == [] || name in audits.value
  }

  /** `audit_class(obj).clean()` for one object. */
  datatype Invocation = Invocation(className: string, obj: ObjectRef)

  /** What stops `run`: a `model` attribute that does not unpack into two names, or a model that
      `get_model` does not know. */
  datatype JobError = MalformedModel(className: string, message: string)
                    | UnknownModel(appLabel: string, modelName: string)

  /** The job's log lines, the cleans it made, and the exception that ended it, if any. */
  datatype RunState = RunState(log: seq<string>, calls: seq<Invocation>, error: Option<JobError>)

  /** The database: the objects of each model known to `get_model`, by app label and name. */
  type Database = map<(string, string), seq<ObjectRef>>

  /** One clean per object, in queryset order. */
  function InvocationsOf(name: string, objects: seq<ObjectRef>): (vs: seq<Invocation>)
    ensures |vs| == |objects|
    ensures forall i :: 0 <= i < |vs| ==> vs[i] == Invocation(name, objects[i])
  {
    if objects == [] then []
    else InvocationsOf(name, objects[..|objects| - 1]) + [Invocation(name, objects[|objects| - 1])]
  }

  /** The class loop of `run` from state `st` on. */
  function RunFrom(st: RunState, classes: seq<AuditClass>, audits: Option<seq<string>>, db: Database): RunState
    requires st.error.None?
    decreases |classes|
  {
    if classes == [] then st
    else
      var c := classes[0];
      if !Selected(audits, c.name) then RunFrom(st, classes[1..], audits, db)
      else
        var log := st.log + ["Running " + c.name];
        match UnpackPair(c.model, '.')
        case Failure(e) => RunState(log, st.calls, Some(MalformedModel(c.name, e)))
        case Success(pair) =>
          if pair !in db then RunState(log, st.calls, Some(UnknownModel(pair.0, pair.1)))
          else RunFrom(RunState(log, st.calls + InvocationsOf(c.name, db[pair]), None), classes[1..], audits, db)
  }

  /** `RunRegisteredAuditRulesets.run` over the classes `registry` and `repos` contribute. */
  function RunJob(audits: Option<seq<string>>, registry: seq<AuditClass>, repos: seq<Repository>,
                  db: Database): RunState
  {
    RunFrom(RunState([], [], None), AllClasses(registry, repos), audits, db)
  }

  /** `v` is a clean `run` makes for the class `c`: `c` is selected, its `model` unpacks into a
      model `get_model` knows, and `v` cleans one of that model's objects under `c`'s name. */
  predicate CleanFor(c: AuditClass, audits: Option<seq<string>>, db: Database, v: Invocation)
  {
    && Selected(audits, c.name) && v.className == c.name
    && UnpackPair(c.model, '.').Success? && UnpackPair(c.model, '.').value in db
    && v.obj in db[UnpackPair(c.model, '.').value]
  }

  /** Every new clean is of an object of the model of a selected class, under that class's
      name, and the cleans made before are kept. */
  lemma {:induction false} RunFromCallsSelected(st: RunState, classes: seq<AuditClass>,
                                                audits: Option<seq<string>>, db: Database)
    requires st.error.None?
    decreases |classes|
    ensures var end := RunFrom(st, classes, audits, db);
            && st.calls <= end.calls
            && forall i :: |st.calls| <= i < |end.calls| ==>
                 exists j :: 0 <= j < |classes| && CleanFor(classes[j], audits, db, end.calls[i])
  {
    if classes != [] {
      var c := classes[0];
      var end := RunFrom(st, classes, audits, db);
      var unpacked := UnpackPair(c.model, '.');
      var next := st;
      if Selected(audits, c.name) && unpacked.Success? && unpacked.value in db {
        next := RunState(st.log + ["Running " + c.name], st.calls + InvocationsOf(c.name, db[unpacked.value]), None);
      } else if Selected(audits, c.name) {
        assert end.calls == st.calls;
        return;
      }
      var rest := RunFrom(next, classes[1..], audits, db);
      assert end == rest;
      RunFromCallsSelected(next, classes[1..], audits, db);
      forall i | |st.calls| <= i < |end.calls|
        ensures exists j :: 0 <= j < |classes| && CleanFor(classes[j], audits, db, end.calls[i])
      {
        if i < |next.calls| {
          assert end.calls[i] == next.calls[i];
          assert next.calls[i] == InvocationsOf(c.name, db[unpacked.value])[i - |st.calls|];
          assert CleanFor(classes[0], audits, db, end.calls[i]);
        } else {
          var j :| 0 <= j < |classes[1..]| && CleanFor(classes[1..][j], audits, db, rest.calls[i]);
          assert classes[1..][j] == classes[j + 1];
        }
      }
    }
  }

  /** `run` only cleans objects of the model of a collected class the selection names (or of
      any collected class when it is absent or empty), under that class's name. */
  lemma RunCleansOnlySelected(audits: Option<seq<string>>, registry: seq<AuditClass>,
                              repos: seq<Repository>, db: Database, i: nat)
    requires i < |RunJob(audits, registry, repos, db).calls|
    ensures Selected(audits, RunJob(audits, registry, repos, db).calls[i].className)
    ensures exists c :: c in AllClasses(registry, repos) && c.name == RunJob(audits, registry, repos, db).calls[i].className
    ensures exists c :: c in AllClasses(registry, repos) && CleanFor(c, audits, db, RunJob(audits, registry, repos, db).calls[i])
  {
    var classes := AllClasses(registry, repos);
    RunFromCallsSelected(RunState([], [], None), classes, audits, db);
    var j :| 0 <= j < |classes| && CleanFor(classes[j], audits, db, RunJob(audits, registry, repos, db).calls[i]);
    assert classes[j] in classes;
  }

  /** Cleans under one name are one per occurrence of an object in the queryset. */
  lemma {:induction false} InvocationsOfCount(name: string, objects: seq<ObjectRef>, v: Invocation)
    ensures multiset(InvocationsOf(name, objects))[v] == if v.className == name then multiset(objects)[v.obj] else 0
  {
    if objects != [] {
      var init := objects[..|objects| - 1];
      var last := objects[|objects| - 1];
      InvocationsOfCount(name, init, v);
      assert objects == init + [last];
      assert multiset(objects) == multiset(init) + multiset([last]);
      assert multiset(InvocationsOf(name, objects))
          == multiset(InvocationsOf(name, init)) + multiset([Invocation(name, last)]);
    }
  }

  /** Classes that do not carry the name `n` add no clean under it, whether the run completes
      or not. */
  lemma {:induction false} RunFromOtherName(st: RunState, classes: seq<AuditClass>, audits: Option<seq<string>>,
                                            db: Database, v: Invocation)
    requires st.error.None?
    requires forall j :: 0 <= j < |classes| ==> classes[j].name != v.className
    decreases |classes|
    ensures multiset(RunFrom(st, classes, audits, db).calls)[v] == multiset(st.calls)[v]
  {
    if classes != [] {
      var c := classes[0];
      var unpacked := UnpackPair(c.model, '.');
      if Selected(audits, c.name) && unpacked.Success? && unpacked.value in db {
        var next := RunState(st.log + ["Running " + c.name], st.calls + InvocationsOf(c.name, db[unpacked.value]), None);
        assert RunFrom(st, classes, audits, db) == RunFrom(next, classes[1..], audits, db);
        InvocationsOfCount(c.name, db[unpacked.value], v);
        assert multiset(next.calls) == multiset(st.calls) + multiset(InvocationsOf(c.name, db[unpacked.value]));
        RunFromOtherName(next, classes[1..], audits, db, v);
      } else if !Selected(audits, c.name) {
        RunFromOtherName(st, classes[1..], audits, db, v);
      }
    }
  }

  /** The state after one selected class whose model is known: its cleans are appended. */
  function StepState(st: RunState, c: AuditClass, pair: (string, string), db: Database): RunState
    requires pair in db
  {
    RunState(st.log + ["Running " + c.name], st.calls + InvocationsOf(c.name, db[pair]), None)
  }

  /** One step of the class loop adds, under the name `v.className`, the queryset's count of
      `v.obj` when the class carries that name and nothing otherwise. */
  lemma StepCount(st: RunState, c: AuditClass, pair: (string, string), db: Database, v: Invocation)
    requires pair in db
    ensures multiset(StepState(st, c, pair, db).calls)[v]
         == multiset(st.calls)[v] + (if v.className == c.name then multiset(db[pair])[v.obj] else 0)
  {
    InvocationsOfCount(c.name, db[pair], v);
    assert multiset(st.calls + InvocationsOf(c.name, db[pair]))
        == multiset(st.calls) + multiset(InvocationsOf(c.name, db[pair]));
  }

  /** No class but `classes[k]` carries its name. */
  predicate UniqueName(classes: seq<AuditClass>, k: nat)
    requires k < |classes|
  {
    forall j :: 0 <= j < |classes| && classes[j].name == classes[k].name ==> j == k
  }

  /** The names of the classes after the first differ from the name of a class that no other
      class carries. */
  lemma UniqueNameTail(classes: seq<AuditClass>, k: nat)
    requires k < |classes|
    requires UniqueName(classes, k)
    ensures k == 0 ==> forall j :: 0 <= j < |classes[1..]| ==> classes[1..][j].name != classes[k].name
    ensures k > 0 ==> classes[1..][k - 1] == classes[k] && classes[0].name != classes[k].name
    ensures k > 0 ==> UniqueName(classes[1..], k - 1)
  {
    if k > 0 {
      forall j | 0 <= j < |classes[1..]| && classes[1..][j].name == classes[1..][k - 1].name ensures j == k - 1 {
        assert classes[1..][j] == classes[j + 1];
      }
    } else {
      forall j | 0 <= j < |classes[1..]| ensures classes[1..][j].name != classes[k].name {
        assert classes[1..][j] == classes[j + 1];
      }
    }
  }

  /** A completed run cleans each object of a selected class's model once per occurrence in the
      queryset, when no other class carries the same name. */
  lemma {:induction false} RunFromCount(st: RunState, classes: seq<AuditClass>, audits: Option<seq<string>>,
                                        db: Database, k: nat, pair: (string, string), o: ObjectRef)
    requires st.error.None?
    requires RunFrom(st, classes, audits, db).error.None?
    requires k < |classes| && Selected(audits, classes[k].name)
    requires UniqueName(classes, k)
    requires UnpackPair(classes[k].model, '.') == Success(pair) && pair in db
    decreases |classes|
    ensures multiset(RunFrom(st, classes, audits, db).calls)[Invocation(classes[k].name, o)]
         == multiset(st.calls)[Invocation(classes[k].name, o)] + multiset(db[pair])[o]
  {
    var c := classes[0];
    var v := Invocation(classes[k].name, o);
    UniqueNameTail(classes, k);
    if !Selected(audits, c.name) {
      RunFromCount(st, classes[1..], audits, db, k - 1, pair, o);
    } else {
      var p := UnpackPair(c.model, '.').value;
      var next := StepState(st, c, p, db);
      assert RunFrom(st, classes, audits, db) == RunFrom(next, classes[1..], audits, db);
      StepCount(st, c, p, db, v);
      if k == 0 {
        RunFromOtherName(next, classes[1..], audits, db, v);
      } else {
        RunFromCount(next, classes[1..], audits, db, k - 1, pair, o);
      }
    }
  }

  /** When `run` completes, every object of every selected class's model was cleaned. */
  lemma {:induction false} RunFromComplete(st: RunState, classes: seq<AuditClass>, audits: Option<seq<string>>,
                                           db: Database, k: nat, pair: (string, string), o: ObjectRef)
    requires st.error.None?
    requires RunFrom(st, classes, audits, db).error.None?
    requires k < |classes| && Selected(audits, classes[k].name)
    requires UnpackPair(classes[k].model, '.') == Success(pair) && pair in db && o in db[pair]
    decreases |classes|
    ensures Invocation(classes[k].name, o) in RunFrom(st, classes, audits, db).calls
  {
    var c := classes[0];
    var endCalls := RunFrom(st, classes, audits, db).calls;
    if !Selected(audits, c.name) {
      assert k > 0;
      assert RunFrom(st, classes, audits, db) == RunFrom(st, classes[1..], audits, db);
      assert classes[1..][k - 1] == classes[k];
      RunFromComplete(st, classes[1..], audits, db, k - 1, pair, o);
    } else {
      var log := st.log + ["Running " + c.name];
      var p := UnpackPair(c.model, '.').value;
      var next := RunState(log, st.calls + InvocationsOf(c.name, db[p]), None);
      if k == 0 {
        var j :| 0 <= j < |db[pair]| && db[pair][j] == o;
        assert next.calls[|st.calls| + j] == Invocation(c.name, o);
        RunFromCallsSelected(next, classes[1..], audits, db);
        assert next.calls <= endCalls;
        assert endCalls[|st.calls| + j] == Invocation(c.name, o);
      } else {
        assert classes[1..][k - 1] == classes[k];
        RunFromComplete(next, classes[1..], audits, db, k - 1, pair, o);
      }
    }
  }

  /** When `run` completes, it has cleaned every object of the model of every class the
      selection names, or of every class when the selection is absent or empty. */
  lemma RunCleansEverySelectedObject(audits: Option<seq<string>>, registry: seq<AuditClass>,
                                     repos: seq<Repository>, db: Database, c: AuditClass,
                                     pair: (string, string), o: ObjectRef)
    requires RunJob(audits, registry, repos, db).error.None?
    requires c in AllClasses(registry, repos) && Selected(audits, c.name)
    requires UnpackPair(c.model, '.') == Success(pair) && pair in db && o in db[pair]
    ensures Invocation(c.name, o) in RunJob(audits, registry, repos, db).calls
  {
    var classes := AllClasses(registry, repos);
    var k :| 0 <= k < |classes| && classes[k] == c;
    RunFromComplete(RunState([], [], None), classes, audits, db, k, pair, o);
  }

  /** When `run` completes, each object of the model of a selected class whose name no other
      collected class carries is cleaned under that name exactly as often as the queryset holds
      it. */
  lemma RunCleansEachObjectOnce(audits: Option<seq<string>>, registry: seq<AuditClass>,
                                repos: seq<Repository>, db: Database, k: nat,
                                pair: (string, string), o: ObjectRef)
    requires RunJob(audits, registry, repos, db).error.None?
    requires k < |AllClasses(registry, repos)| && Selected(audits, AllClasses(registry, repos)[k].name)
    requires UniqueName(AllClasses(registry, repos), k)
    requires UnpackPair(AllClasses(registry, repos)[k].model, '.') == Success(pair) && pair in db
    ensures multiset(RunJob(audits, registry, repos, db).calls)[Invocation(AllClasses(registry, repos)[k].name, o)]
         == multiset(db[pair])[o]
  {
    RunFromCount(RunState([], [], None), AllClasses(registry, repos), audits, db, k, pair, o);
  }

  /** An empty selection is the same as none. */
  lemma {:induction false} EmptySelectionRunsAll(st: RunState, classes: seq<AuditClass>, db: Database)
    requires st.error.None?
    decreases |classes|
    ensures RunFrom(st, classes, Some([]), db) == RunFrom(st, classes, None, db)
  {
    if classes != [] {
      var c := classes[0];
      var log := st.log + ["Running " + c.name];
      match UnpackPair(c.model, '.')
      case Failure(_) =>
      case Success(pair) =>
        if pair in db {
          EmptySelectionRunsAll(RunState(log, st.calls + InvocationsOf(c.name, db[pair]), None), classes[1..], db);
        }
    }
  }

  /** A class whose `model` is a bare name, like `AuditRulesetAll.model = "faker"`, stops the
      job when selected: the unpacking of `split(".")` raises. */
  lemma BareModelStopsRun(st: RunState, c: AuditClass, rest: seq<AuditClass>, audits: Option<seq<string>>, db: Database)
    requires st.error.None? && Selected(audits, c.name) && '.' !in c.model
    ensures RunFrom(st, [c] + rest, audits, db)
         == RunState(st.log + ["Running " + c.name], st.calls,
                     Some(MalformedModel(c.name, "not enough values to unpack (expected 2, got 1)")))
  {
    CountZero(c.model, '.');
  }

  /** `for obj in ...objects.all(): audit_class(obj).clean()`. */
  method AppendInvocations(calls0: seq<Invocation>, name: string, objects: seq<ObjectRef>) returns (calls: seq<Invocation>)
    ensures calls == calls0 + InvocationsOf(name, objects)
  {
    calls := calls0;
    var i := 0;
    while i < |objects|
      invariant 0 <= i <= |objects|
      invariant calls == calls0 + InvocationsOf(name, objects[..i])
    {
      assert objects[..i + 1][..i] == objects[..i];
      calls := calls + [Invocation(name, objects[i])];
      i := i + 1;
    }
    assert objects[..i] == objects;
  }

  /** `RunRegisteredAuditRulesets.run(data, commit)`: `audits` is `data.get("audits")`. */
  method Run(audits: Option<seq<string>>, registry: seq<AuditClass>, repos: seq<Repository>, db: Database)
    returns (st: RunState)
    ensures st == RunJob(audits, registry, repos, db)
  {
    var classes := CollectClasses(registry, repos);
    st := RunClasses(classes, audits, db);
  }

  /** `audit_classes.extend(...)` over the registry and the contributing repositories. */
  method CollectClasses(registry: seq<AuditClass>, repos: seq<Repository>) returns (classes: seq<AuditClass>)
    ensures classes == AllClasses(registry, repos)
  {
    classes := registry;
    var r := 0;
    while r < |repos|
      invariant 0 <= r <= |repos|
      invariant classes == AllClasses(registry, repos[..r])
    {
      assert repos[..r + 1][..r] == repos[..r];
      if Contributes(repos[r]) {
        classes := classes + repos[r].auditRulesets.value;
      } else {
        assert classes + RepositoryClasses(repos[r]) == classes;
      }
      r := r + 1;
    }
    assert repos[..r] == repos;
  }

  /** The class loop of `run`. */
  method RunClasses(classes: seq<AuditClass>, audits: Option<seq<string>>, db: Database) returns (st: RunState)
    ensures st == RunFrom(RunState([], [], None), classes, audits, db)
  {
    st := RunState([], [], None);
    var k := 0;
    while k < |classes|
      invariant 0 <= k <= |classes| && st.error.None?
      invariant RunFrom(st, classes[k..], audits, db) == RunFrom(RunState([], [], None), classes, audits, db)
    {
      assert classes[k..][1..] == classes[k + 1..];
      var c := classes[k];
      ghost var before := st;
      if Selected(audits, c.name) {
        st := st.(log := st.log + ["Running " + c.name]);
        var unpacked := UnpackPair(c.model, '.');
        if unpacked.Failure? {
          return st.(error := Some(MalformedModel(c.name, unpacked.error)));
        }
        var (appLabel, modelName) := unpacked.value;
        if (appLabel, modelName) !in db {
          return st.(error := Some(UnknownModel(appLabel, modelName)));
        }
        var calls := AppendInvocations(st.calls, c.name, db[(appLabel, modelName)]);
        st := st.(calls := calls);
        assert RunFrom(before, classes[k..], audits, db) == RunFrom(st, classes[k + 1..], audits, db);
      }
      k := k + 1;
    }
  }
}
