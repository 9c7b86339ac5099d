/** `AuditRuleset` and `AuditRulesetAll` (`audit_rulesets.py`): a recorder whose reports are
    attributed to the innermost `audit_` method on the stack and stored as audit rules. */
module AuditRulesets {
  import opened Wrappers
  import opened Text
  import opened Recording

  /** The prefix of the methods `audit` runs and the stack walk looks for. */
  const Prefix := "audit_"

  /** The frames of `AuditRulesetAll.audit` down to `_validate_all`, innermost first. */
  function SweepFrames(outerStack: seq<string>): seq<string>
  {
    ["_validate_all", "audit_full_clean", "audit"] + outerStack
  }

  /** `AuditRuleset()`, writing to `results`, at time `now`. */
  method NewAuditRuleset(className: string, results: ResultStore, now: nat) returns (v: Recorder)
    ensures fresh(v)
    ensures v.className == className && v.prefix == Prefix && v.store == results
    ensures v.resultDate == now && !v.hasJobResult
  {
    v := new Recorder(className, Prefix, results, now);
  }

  /** `AuditRulesetAll.audit(job_result)`: sets the job result and runs `audit_full_clean`,
      which runs `_validate_all`. Every row the sweep adds or changes is a failure of
      `AuditRulesetAll.audit_full_clean`. */
  method AuditRulesetAllAudit(v: Recorder, apps: seq<AppConfig>, userModel: ModelInfo, outerStack: seq<string>)
    returns (err: Option<SweepError>)
    requires v.prefix == Prefix
    modifies v, v.store
    ensures v.hasJobResult && v.resultDate == old(v.resultDate)
    ensures SweepState(v.store.rows, err) == FullClean(old(v.store.rows), v.Context(SweepFrames(outerStack)), apps, userModel)
    ensures OnlyFailuresAdded(old(v.store.rows), v.store.rows,
                              SweepContext(v.className, Success("audit_full_clean"), v.resultDate, true))
  {
    v.hasJobResult := true;
    err := v.FullCleanAll(apps, userModel, ["audit_full_clean", "audit"] + outerStack, "_validate_all");
    assert ["_validate_all"] + (["audit_full_clean", "audit"] + outerStack) == SweepFrames(outerStack);
    assert StartsWith("audit_full_clean", Prefix);
    SweepAttributedToFullClean(Prefix, "audit_full_clean", "audit", outerStack);
    FullCleanOnlyFailures(old(v.store.rows), v.Context(SweepFrames(outerStack)), apps, userModel);
  }
}
