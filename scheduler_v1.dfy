/**
 * The stateless budget scheduler: at every invocation it sets every listed
 * budget to the amount of the current mode (the nightly amount inside the
 * nightly window, the daytime amount outside it).
 */
module SchedulerV1 {
  import opened Wrappers
  import opened Budget

  /** `get_current_budget_amount`: the mode of the current hour of day and the amount it sets. */
  function GetCurrentBudgetAmount(config: Config, hour: int): Option<(Mode, int)> {
    match (HourOf(config.nightlyTime), HourOf(config.daytimeTime))
    case (Some(nightlyHour), Some(daytimeHour)) =>
      if ModeAt(nightlyHour, daytimeHour, hour) == Nightly then Some((Nightly, config.nightlyAmount))
      else Some((Daytime, config.daytimeAmount))
    case _ => None
  }

  /**
   * For schedule times written "HH:MM" the nightly amount applies exactly in
   * the hours `[nightly HH, daytime HH)` and the daytime amount at every other hour.
   */
  lemma AmountOfClockTimes(config: Config, nightlyHour: nat, nightlyMinutes: string,
                           daytimeHour: nat, daytimeMinutes: string, hour: int)
    requires nightlyHour < 100 && daytimeHour < 100
    requires config.nightlyTime == TwoDigits(nightlyHour) + ":" + nightlyMinutes
    requires config.daytimeTime == TwoDigits(daytimeHour) + ":" + daytimeMinutes
    ensures nightlyHour <= hour < daytimeHour ==>
      GetCurrentBudgetAmount(config, hour) == Some((Nightly, config.nightlyAmount))
    ensures !(nightlyHour <= hour < daytimeHour) ==>
      GetCurrentBudgetAmount(config, hour) == Some((Daytime, config.daytimeAmount))
  {
    HourOfClockTime(nightlyHour, nightlyMinutes);
    HourOfClockTime(daytimeHour, daytimeMinutes);
  }

  /** A listing whose every budget already is `target` needs no change. */
  lemma {:induction false} AtTargetNeedsNothing(es: seq<Entity>, target: int)
    requires forall i :: 0 <= i < |es| ==> es[i].budget == target
    ensures TargetChanges(es, target) == []
    decreases |es|
  {
    if es != [] {
      AtTargetNeedsNothing(es[..|es| - 1], target);
    }
  }

  /**
   * Idempotence: once every change of a run was accepted, the next run with
   * the same target lists every budget at the target and issues nothing.
   */
  lemma SecondRunIsQuiet(es: seq<Entity>, budgets: map<string, int>, target: int)
    requires Reports(es, budgets)
    ensures TargetChanges(Relisted(es, ApplyChanges(budgets, TargetChanges(es, target))), target) == []
  {
    var after := ApplyChanges(budgets, TargetChanges(es, target));
    TargetChangesReachTarget(es, budgets, target);
    var es2 := Relisted(es, after);
    forall i | 0 <= i < |es2| ensures es2[i].budget == target {
      assert es[i] in es;
    }
    AtTargetNeedsNothing(es2, target);
  }

  /** No update is ever requested for an excluded campaign or ad set, or for an ad set under an excluded campaign. */
  lemma UpdatesRespectExclusions(campaigns: seq<CampaignRecord>, config: Config, target: int)
    ensures forall c :: c in TargetChanges(Entities(Selected(campaigns, config)), target) ==>
      Permitted(config, c.kind, c.id) && c.newBudget == target
  {
    var es := Entities(Selected(campaigns, config));
    SelectionRespectsExclusions(campaigns, config);
    TargetChangesMembers(es, target);
  }

  class BudgetScheduler {
    const config: Config
    const platform: AdsPlatform

    constructor (config: Config, platform: AdsPlatform)
      ensures this.config == config && this.platform == platform
    {
      this.config := config;
      this.platform := platform;
    }

    /** One loop of `update_budgets`: change each item whose budget is not `targetBudget`. */
    method ChangeEach(items: seq<Entity>, targetBudget: int) returns (updatesMade: seq<UpdateInfo>)
      modifies platform
      ensures Requests(updatesMade) == TargetChanges(items, targetBudget)
      ensures platform.budgets == ApplyChanges(old(platform.budgets), Applied(updatesMade))
      ensures forall u :: u in updatesMade ==> Reported(u, DryRun(config))
    {
      updatesMade := [];
      assert Writes([]) == [];
      for i := 0 to |items|
        invariant Requests(updatesMade) == TargetChanges(items[..i], targetBudget)
        invariant platform.budgets == ApplyChanges(old(platform.budgets), Applied(updatesMade))
        invariant forall u :: u in updatesMade ==> Reported(u, DryRun(config))
      {
        var item := items[i];
        assert items[..i + 1] == items[..i] + [item];
        TargetChangesSnoc(items[..i], item, targetBudget);
        if item.budget != targetBudget {
          var info := UpdateSingleBudget(platform, DryRun(config), item.id, item.name, item.budget,
                                         targetBudget, item.kind);
          RecordUpdate(old(platform.budgets), updatesMade, info);
          updatesMade := updatesMade + [info];
        }
      }
      assert items[..|items|] == items;
    }

    /** `update_budgets`: every listed budget set to `targetBudget`, campaign-level ones first. */
    method UpdateBudgets(campaigns: seq<CampaignRecord>, targetBudget: int) returns (updatesMade: seq<UpdateInfo>)
      modifies platform
      ensures Requests(updatesMade) == TargetChanges(Entities(Selected(campaigns, config)), targetBudget)
      ensures platform.budgets == ApplyChanges(old(platform.budgets), Applied(updatesMade))
      ensures forall u :: u in updatesMade ==> Reported(u, DryRun(config))
      ensures DryRun(config) ==> platform.budgets == old(platform.budgets)
    {
      var results := GetActiveCampaignsAndAdsets(campaigns, config);
      var fromCampaigns := ChangeEach(results.campaignBudgets, targetBudget);
      var fromAdsets := ChangeEach(results.adsetBudgets, targetBudget);
      updatesMade := fromCampaigns + fromAdsets;
      TargetChangesAppend(results.campaignBudgets, results.adsetBudgets, targetBudget);
      RequestsAppend(fromCampaigns, fromAdsets);
      AppliedAppend(fromCampaigns, fromAdsets);
      ApplyChangesAppend(old(platform.budgets), Applied(fromCampaigns), Applied(fromAdsets));
      if DryRun(config) {
        DryRunAppliesNothing(updatesMade);
        assert Writes([]) == [];
      }
    }

    /** `run` at the given hour of day; a schedule time without an integer hour aborts it with nothing changed. */
    method Run(hour: int, campaigns: seq<CampaignRecord>) returns (result: Result<seq<UpdateInfo>, string>)
      modifies platform
      ensures GetCurrentBudgetAmount(config, hour).None? ==>
        result.Err? && platform.budgets == old(platform.budgets)
      ensures GetCurrentBudgetAmount(config, hour).Some? ==>
        && result.Ok?
        && Requests(result.value) ==
           TargetChanges(Entities(Selected(campaigns, config)), GetCurrentBudgetAmount(config, hour).value.1)
        && platform.budgets == ApplyChanges(old(platform.budgets), Applied(result.value))
        && (forall u :: u in result.value ==> Reported(u, DryRun(config)))
    {
      var budget := GetCurrentBudgetAmount(config, hour);
      if budget.None? {
        return Err("schedule time without an integer hour");
      }
      var updates := UpdateBudgets(campaigns, budget.value.1);
      result := Ok(updates);
    }
  }
}
