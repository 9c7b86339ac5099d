/** `ValidationSet` and `ValidationSetAll` (`validations.py`): a recorder whose reports are
    attributed to the innermost `validate_` method on the stack and stored as validation results. */
module Validations {
  import opened Wrappers
  import opened Text
  import opened Recording

  /** The prefix of the methods `validate` runs and the stack walk looks for. */
  const Prefix := "validate_"

  /** The frames of `ValidationSetAll.validate` down to `_validate_all`, innermost first. */
  function SweepFrames(outerStack: seq<string>): seq<string>
  {
    ["_validate_all", "validate_full_clean", "validate"] + outerStack
  }

  /** `ValidationSet()`, writing to `results`, at time `now`. */
  method NewValidationSet(className: string, results: ResultStore, now: nat) returns (v: Recorder)
    ensures fresh(v)
    ensures v.className == className && v.prefix == Prefix && v.store == results
    ensures v.resultDate == now && !v.hasJobResult
  {
    v := new Recorder(className, Prefix, results, now);
  }

  /** `ValidationSetAll.validate(job_result)`: sets the job result and runs `validate_full_clean`,
      which runs `_validate_all`. Every row the sweep adds or changes is a failure of
      `ValidationSetAll.validate_full_clean`. */
  method ValidationSetAllValidate(v: Recorder, apps: seq<AppConfig>, userModel: ModelInfo, outerStack: seq<string>)
    returns (err: Option<SweepError>)
    requires v.prefix == Prefix
    modifies v, v.store
    ensures v.hasJobResult && v.resultDate == old(v.resultDate)
    ensures SweepState(v.store.rows, err) == FullClean(old(v.store.rows), v.Context(SweepFrames(outerStack)), apps, userModel)
    ensures OnlyFailuresAdded(old(v.store.rows), v.store.rows,
                              SweepContext(v.className, Success("validate_full_clean"), v.resultDate, true))
  {
    v.hasJobResult := true;
    err := v.FullCleanAll(apps, userModel, ["validate_full_clean", "validate"] + outerStack, "_validate_all");
    assert ["_validate_all"] + (["validate_full_clean", "validate"] + outerStack) == SweepFrames(outerStack);
    assert StartsWith("validate_full_clean", Prefix);
    SweepAttributedToFullClean(Prefix, "validate_full_clean", "validate", outerStack);
    FullCleanOnlyFailures(old(v.store.rows), v.Context(SweepFrames(outerStack)), apps, userModel);
  }
}
