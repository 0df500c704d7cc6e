/**
 * The stateful budget scheduler: it lowers every listed budget to the
 * nightly amount when the nightly window begins, remembering each budget it
 * saw, and restores the remembered budgets when the daytime begins. A run
 * in the mode already applied does nothing.
 */
module SchedulerV2 {
  import opened Wrappers
  import opened Overlays
  import opened Budget

  /** `get_current_budget_mode`, for the current hour of day in the configured timezone. */
  function GetCurrentBudgetMode(config: Config, hour: int): Option<Mode> {
    match (HourOf(config.nightlyTime), HourOf(config.daytimeTime))
    case (Some(nightlyHour), Some(daytimeHour)) => Some(ModeAt(nightlyHour, daytimeHour, hour))
    case _ => None
  }

  /**
   * For schedule times written "HH:MM" the mode is nightly exactly in the hours
   * `[nightly HH, daytime HH)`, whatever the minutes say.
   */
  lemma ModeOfClockTimes(config: Config, nightlyHour: nat, nightlyMinutes: string,
                         daytimeHour: nat, daytimeMinutes: string, hour: int)
    requires nightlyHour < 100 && daytimeHour < 100
    requires config.nightlyTime == TwoDigits(nightlyHour) + ":" + nightlyMinutes
    requires config.daytimeTime == TwoDigits(daytimeHour) + ":" + daytimeMinutes
    ensures GetCurrentBudgetMode(config, hour) == Some(Nightly) <==> nightlyHour <= hour < daytimeHour
    ensures GetCurrentBudgetMode(config, hour) == Some(Daytime) <==> !(nightlyHour <= hour < daytimeHour)
  {
    HourOfClockTime(nightlyHour, nightlyMinutes);
    HourOfClockTime(daytimeHour, daytimeMinutes);
  }

  // ---------------------------------------------------------------------------
  // The state file and the two passes, on values

  /** The state file: remembered budgets, the mode last applied and when. */
  datatype State = State(originalBudgets: map<string, int>, lastMode: Option<Mode>, lastRun: Option<string>)

  /** What `load_state` returns when there is no state file yet. */
  const EmptyState := State(map[], None, None)

  function Originals(es: seq<Entity>): seq<(string, int)> {
    seq(|es|, i requires 0 <= i < |es| => (es[i].id, es[i].budget))
  }

  /** The store after the nightly pass wrote `original_budgets[id] = current_budget` for each entity in order. */
  function RecordOriginals(store: map<string, int>, es: seq<Entity>): map<string, int> {
    Overlay(store, Originals(es))
  }

  lemma RecordOriginalsSnoc(store: map<string, int>, es: seq<Entity>, e: Entity)
    ensures RecordOriginals(store, es + [e]) == RecordOriginals(store, es)[e.id := e.budget]
  {
    var w := Originals(es + [e]);
    assert w[..|w| - 1] == Originals(es);
    assert w[|w| - 1] == (e.id, e.budget);
  }

  lemma RecordOriginalsAppend(store: map<string, int>, a: seq<Entity>, b: seq<Entity>)
    ensures RecordOriginals(store, a + b) == RecordOriginals(RecordOriginals(store, a), b)
  {
    assert Originals(a + b) == Originals(a) + Originals(b);
    OverlayAppend(store, Originals(a), Originals(b));
  }

  /**
   * After the nightly pass the store holds each listed entity's live budget
   * (also when it already equals the nightly amount); no key is removed and
   * unlisted keys keep their values.
   */
  lemma RecordOriginalsReportsLive(store: map<string, int>, es: seq<Entity>, budgets: map<string, int>)
    requires Reports(es, budgets)
    ensures store.Keys <= RecordOriginals(store, es).Keys
    ensures forall e :: e in es ==> e.id in RecordOriginals(store, es) && RecordOriginals(store, es)[e.id] == e.budget
    ensures forall id :: id in store && (forall e :: e in es ==> e.id != id) ==>
      RecordOriginals(store, es)[id] == store[id]
  {
    var ws := Originals(es);
    forall i | 0 <= i < |ws| ensures ws[i].0 in budgets && ws[i].1 == budgets[ws[i].0] {
      assert es[i] in es;
    }
    OverlayToward(store, ws, budgets);
    OverlayFacts(store, ws);
    forall e | e in es ensures e.id in WrittenKeys(ws) {
      var i :| 0 <= i < |es| && es[i] == e;
      assert ws[i].0 == e.id;
    }
  }

  /**
   * The daytime plan: a change back to the remembered budget for each entity
   * that has one differing from its live budget, in order; entities without
   * a remembered budget are skipped.
   */
  function RestoreChanges(es: seq<Entity>, originals: map<string, int>): seq<BudgetChange> {
    if es == [] then []
    else
      var last := es[|es| - 1];
      RestoreChanges(es[..|es| - 1], originals)
      + (if last.id in originals && originals[last.id] != last.budget then [ChangeTo(last, originals[last.id])] else [])
  }

  /** Planning one more entity adds its restoration, if it needs one, at the end. */
  lemma RestoreChangesSnoc(es: seq<Entity>, e: Entity, originals: map<string, int>)
    ensures RestoreChanges(es + [e], originals) == RestoreChanges(es, originals)
      + (if e.id in originals && originals[e.id] != e.budget then [ChangeTo(e, originals[e.id])] else [])
  {
    assert (es + [e])[..|es|] == es;
  }

  /**
   * The daytime plan holds no more changes than there are entities,
   * restores every entity whose remembered budget differs from its live one,
   * and every change it holds is such a restoration.
   */
  lemma {:induction false} RestoreChangesMembers(es: seq<Entity>, originals: map<string, int>)
    ensures |RestoreChanges(es, originals)| <= |es|
    ensures forall e :: e in es && e.id in originals && originals[e.id] != e.budget ==>
      ChangeTo(e, originals[e.id]) in RestoreChanges(es, originals)
    ensures forall c :: c in RestoreChanges(es, originals) ==>
      exists e :: e in es && e.id in originals && originals[e.id] != e.budget && c == ChangeTo(e, originals[e.id])
    decreases |es|
  {
    if es != [] {
      var init, last := es[..|es| - 1], es[|es| - 1];
      assert es == init + [last];
      RestoreChangesMembers(init, originals);
    }
  }

  /** When the listed entities have distinct ids, the daytime plan restores each of them at most once. */
  lemma {:induction false} RestoreChangesOnePerEntity(es: seq<Entity>, originals: map<string, int>)
    requires UniqueEntityIds(es)
    ensures UniqueChangeIds(RestoreChanges(es, originals))
    decreases |es|
  {
    if es != [] {
      var init, last := es[..|es| - 1], es[|es| - 1];
      UniqueEntityIdsInit(es);
      RestoreChangesOnePerEntity(init, originals);
      if last.id in originals && originals[last.id] != last.budget {
        RestoreChangesMembers(init, originals);
        forall x | x in RestoreChanges(init, originals) ensures x.id != last.id {
          var e :| e in init && e.id in originals && originals[e.id] != e.budget && x == ChangeTo(e, originals[e.id]);
        }
        UniqueChangeIdsSnoc(RestoreChanges(init, originals), ChangeTo(last, originals[last.id]));
      } else {
        assert RestoreChanges(es, originals) == RestoreChanges(init, originals);
      }
    }
  }

  lemma {:induction false} RestoreChangesAppend(a: seq<Entity>, b: seq<Entity>, originals: map<string, int>)
    ensures RestoreChanges(a + b, originals) == RestoreChanges(a, originals) + RestoreChanges(b, originals)
    decreases |b|
  {
    if b == [] {
      assert a + b == a;
    } else {
      assert (a + b)[..|a + b| - 1] == a + b[..|b| - 1];
      RestoreChangesAppend(a, b[..|b| - 1], originals);
    }
  }

  /** One invocation of `run` once the mode is known: no-op in the mode already applied, else the matching pass. */
  function Reconcile(s: State, mode: Mode, es: seq<Entity>, nightlyAmount: int, now: string): (State, seq<BudgetChange>) {
    if s.lastMode == Some(mode) then (s, [])
    else match mode
      case Nightly =>
        (State(RecordOriginals(s.originalBudgets, es), Some(Nightly), Some(now)), TargetChanges(es, nightlyAmount))
      case Daytime =>
        (State(s.originalBudgets, Some(Daytime), Some(now)), RestoreChanges(es, s.originalBudgets))
  }

  /** The daytime pass never edits the store; it only records the mode and the time. */
  lemma DaytimeLeavesStoreAlone(s: State, es: seq<Entity>, nightlyAmount: int, now: string)
    ensures Reconcile(s, Daytime, es, nightlyAmount, now).0.originalBudgets == s.originalBudgets
  {
  }

  /** Running again in the same mode issues no change and leaves the state as it is, whatever is listed. */
  lemma RepeatedRunIsNoOp(s: State, mode: Mode, es: seq<Entity>, es': seq<Entity>, nightlyAmount: int, now: string, later: string)
    ensures var s1 := Reconcile(s, mode, es, nightlyAmount, now).0;
      s1.lastMode == Some(mode) && Reconcile(s1, mode, es', nightlyAmount, later) == (s1, [])
  {
  }

  /**
   * Round trip: when every change is accepted and nothing else edits the
   * budgets, a nightly run followed by a daytime run returns each listed
   * entity to its starting budget, and the store still remembers it.
   */
  lemma NightThenDayRestores(s: State, es: seq<Entity>, budgets: map<string, int>,
                             nightlyAmount: int, night: string, day: string)
    requires s.lastMode != Some(Nightly)
    requires Reports(es, budgets)
    ensures
      var lowered := Reconcile(s, Nightly, es, nightlyAmount, night);
      var afterNight := ApplyChanges(budgets, lowered.1);
      var restored := Reconcile(lowered.0, Daytime, Relisted(es, afterNight), nightlyAmount, day);
      var afterDay := ApplyChanges(afterNight, restored.1);
      forall e :: e in es ==>
        e.id in afterDay && afterDay[e.id] == e.budget
        && e.id in restored.0.originalBudgets && restored.0.originalBudgets[e.id] == e.budget
  {
    var lowered := Reconcile(s, Nightly, es, nightlyAmount, night);
    var store := lowered.0.originalBudgets;
    var afterNight := ApplyChanges(budgets, lowered.1);
    var es2 := Relisted(es, afterNight);
    var restore := RestoreChanges(es2, store);
    assert lowered.1 == TargetChanges(es, nightlyAmount);
    assert Reconcile(lowered.0, Daytime, es2, nightlyAmount, day) == (lowered.0.(lastMode := Some(Daytime), lastRun := Some(day)), restore);
    var afterDay := ApplyChanges(afterNight, restore);
    RecordOriginalsReportsLive(s.originalBudgets, es, budgets);
    TargetChangesReachTarget(es, budgets, nightlyAmount);
    RestoreChangesMembers(es2, store);
    RestoreMovesToStore(es2, store);
    ApplyChangesToward(afterNight, restore, store);
    ApplyChangesTouchesOnlyChanged(afterNight, restore);
    forall e | e in es ensures e.id in afterDay && afterDay[e.id] == e.budget {
      var i :| 0 <= i < |es| && es[i] == e;
      assert es2[i] == e.(budget := nightlyAmount);
      if store[e.id] != nightlyAmount {
        assert ChangeTo(es2[i], store[e.id]) in restore;
      }
    }
  }

  /** Every change of the daytime plan moves a budget to its remembered value. */
  lemma RestoreMovesToStore(es: seq<Entity>, store: map<string, int>)
    ensures forall c :: c in RestoreChanges(es, store) ==> c.id in store && c.newBudget == store[c.id]
  {
    RestoreChangesMembers(es, store);
    forall c | c in RestoreChanges(es, store) ensures c.id in store && c.newBudget == store[c.id] {
      var e :| e in es && e.id in store && store[e.id] != e.budget && c == ChangeTo(e, store[e.id]);
    }
  }

  // ---------------------------------------------------------------------------
  // Any sequence of invocations

  /** One invocation: the hour it runs at, what the platform lists then, and its timestamp. */
  datatype Tick = Tick(hour: int, campaigns: seq<CampaignRecord>, now: string)

  /** One invocation of `run`; a schedule time without an integer hour aborts it with nothing changed. */
  function Step(config: Config, s: State, t: Tick): (State, seq<BudgetChange>) {
    match GetCurrentBudgetMode(config, t.hour)
    case None => (s, [])
    case Some(mode) => Reconcile(s, mode, Entities(Selected(t.campaigns, config)), config.nightlyAmount, t.now)
  }

  /** The final state and every change issued over a sequence of invocations. */
  function RunAll(config: Config, s: State, ticks: seq<Tick>): (State, seq<BudgetChange>)
    decreases |ticks|
  {
    if ticks == [] then (s, [])
    else
      var first := Step(config, s, ticks[0]);
      var rest := RunAll(config, first.0, ticks[1..]);
      (rest.0, first.1 + rest.1)
  }

  lemma StepRespectsExclusions(config: Config, s: State, t: Tick)
    ensures forall c :: c in Step(config, s, t).1 ==> Permitted(config, c.kind, c.id)
  {
    var es := Entities(Selected(t.campaigns, config));
    SelectionRespectsExclusions(t.campaigns, config);
    TargetChangesMembers(es, config.nightlyAmount);
    RestoreChangesMembers(es, s.originalBudgets);
    forall c | c in Step(config, s, t).1 ensures Permitted(config, c.kind, c.id) {
      var mode := GetCurrentBudgetMode(config, t.hour).value;
      if mode == Nightly {
        var e :| e in es && e.budget != config.nightlyAmount && c == ChangeTo(e, config.nightlyAmount);
      } else {
        var e :| e in es && e.id in s.originalBudgets && s.originalBudgets[e.id] != e.budget
          && c == ChangeTo(e, s.originalBudgets[e.id]);
      }
    }
  }

  /** Exclusion invariance: across any sequence of invocations, no change is ever issued for an excluded entity. */
  lemma {:induction false} ExclusionsNeverTouched(config: Config, s: State, ticks: seq<Tick>)
    ensures forall c :: c in RunAll(config, s, ticks).1 ==> Permitted(config, c.kind, c.id)
    decreases |ticks|
  {
    if ticks != [] {
      StepRespectsExclusions(config, s, ticks[0]);
      ExclusionsNeverTouched(config, Step(config, s, ticks[0]).0, ticks[1..]);
    }
  }

  /** Across any sequence of invocations no remembered budget is ever deleted. */
  lemma {:induction false} StoreNeverShrinks(config: Config, s: State, ticks: seq<Tick>)
    ensures s.originalBudgets.Keys <= RunAll(config, s, ticks).0.originalBudgets.Keys
    decreases |ticks|
  {
    if ticks != [] {
      var s1 := Step(config, s, ticks[0]).0;
      OverlayFacts(s.originalBudgets, Originals(Entities(Selected(ticks[0].campaigns, config))));
      StoreNeverShrinks(config, s1, ticks[1..]);
    }
  }

  // ---------------------------------------------------------------------------
  // The scheduler object

  class BudgetScheduler {
    const config: Config
    const platform: AdsPlatform
    var originalBudgets: map<string, int>
    var lastMode: Option<Mode>
    var lastRun: Option<string>

    /** The state as the state file would hold it. */
    function CurrentState(): State
      reads this
    {
      State(originalBudgets, lastMode, lastRun)
    }

    /** `saved` is the loaded state file, `None` when there is none. */
    constructor (config: Config, platform: AdsPlatform, saved: Option<State>)
      ensures this.config == config && this.platform == platform
      ensures CurrentState() == if saved.Some? then saved.value else EmptyState
    {
      this.config := config;
      this.platform := platform;
      var s := if saved.Some? then saved.value else EmptyState;
      originalBudgets := s.originalBudgets;
      lastMode := s.lastMode;
      lastRun := s.lastRun;
    }

    /** One loop of `apply_nightly_budgets`: remember each budget, lower those not at the nightly amount. */
    method LowerEach(items: seq<Entity>) returns (updatesMade: seq<UpdateInfo>)
      modifies this, platform
      ensures lastMode == old(lastMode) && lastRun == old(lastRun)
      ensures originalBudgets == RecordOriginals(old(originalBudgets), items)
      ensures Requests(updatesMade) == TargetChanges(items, config.nightlyAmount)
      ensures platform.budgets == ApplyChanges(old(platform.budgets), Applied(updatesMade))
      ensures forall u :: u in updatesMade ==> Reported(u, DryRun(config))
    {
      updatesMade := [];
      assert Writes([]) == [];
      for i := 0 to |items|
        invariant lastMode == old(lastMode) && lastRun == old(lastRun)
        invariant originalBudgets == RecordOriginals(old(originalBudgets), items[..i])
        invariant Requests(updatesMade) == TargetChanges(items[..i], config.nightlyAmount)
        invariant platform.budgets == ApplyChanges(old(platform.budgets), Applied(updatesMade))
        invariant forall u :: u in updatesMade ==> Reported(u, DryRun(config))
      {
        var item := items[i];
        assert items[..i + 1] == items[..i] + [item];
        TargetChangesSnoc(items[..i], item, config.nightlyAmount);
        RecordOriginalsSnoc(old(originalBudgets), items[..i], item);
        if item.id !in originalBudgets || originalBudgets[item.id] != item.budget {
          originalBudgets := originalBudgets[item.id := item.budget];
        } else {
          assert originalBudgets[item.id := item.budget] == originalBudgets;
        }
        if item.budget != config.nightlyAmount {
          var info := UpdateSingleBudget(platform, DryRun(config), item.id, item.name, item.budget,
                                         config.nightlyAmount, item.kind);
          RecordUpdate(old(platform.budgets), updatesMade, info);
          updatesMade := updatesMade + [info];
        }
      }
      assert items[..|items|] == items;
    }

    /** `apply_nightly_budgets`: campaign-level budgets first, then ad-set-level ones. */
    method ApplyNightlyBudgets(campaigns: seq<CampaignRecord>) returns (updatesMade: seq<UpdateInfo>)
      modifies this, platform
      ensures lastMode == old(lastMode) && lastRun == old(lastRun)
      ensures originalBudgets == RecordOriginals(old(originalBudgets), Entities(Selected(campaigns, config)))
      ensures Requests(updatesMade) == TargetChanges(Entities(Selected(campaigns, config)), config.nightlyAmount)
      ensures platform.budgets == ApplyChanges(old(platform.budgets), Applied(updatesMade))
      ensures forall u :: u in updatesMade ==> Reported(u, DryRun(config))
      ensures DryRun(config) ==> platform.budgets == old(platform.budgets)
    {
      var results := GetActiveCampaignsAndAdsets(campaigns, config);
      var fromCampaigns := LowerEach(results.campaignBudgets);
      var fromAdsets := LowerEach(results.adsetBudgets);
      updatesMade := fromCampaigns + fromAdsets;
      RecordOriginalsAppend(old(originalBudgets), results.campaignBudgets, results.adsetBudgets);
      TargetChangesAppend(results.campaignBudgets, results.adsetBudgets, config.nightlyAmount);
      RequestsAppend(fromCampaigns, fromAdsets);
      AppliedAppend(fromCampaigns, fromAdsets);
      ApplyChangesAppend(old(platform.budgets), Applied(fromCampaigns), Applied(fromAdsets));
      if DryRun(config) {
        DryRunAppliesNothing(updatesMade);
        assert Writes([]) == [];
      }
    }

    /** One loop of `apply_daytime_budgets`: restore each remembered budget that differs from the live one. */
    method RestoreEach(items: seq<Entity>) returns (updatesMade: seq<UpdateInfo>)
      modifies platform
      ensures Requests(updatesMade) == RestoreChanges(items, originalBudgets)
      ensures platform.budgets == ApplyChanges(old(platform.budgets), Applied(updatesMade))
      ensures forall u :: u in updatesMade ==> Reported(u, DryRun(config))
    {
      updatesMade := [];
      assert Writes([]) == [];
      for i := 0 to |items|
        invariant Requests(updatesMade) == RestoreChanges(items[..i], originalBudgets)
        invariant platform.budgets == ApplyChanges(old(platform.budgets), Applied(updatesMade))
        invariant forall u :: u in updatesMade ==> Reported(u, DryRun(config))
      {
        var item := items[i];
        assert items[..i + 1] == items[..i] + [item];
        RestoreChangesSnoc(items[..i], item, originalBudgets);
        if item.id !in originalBudgets {
          continue;
        }
        var originalBudget := originalBudgets[item.id];
        if item.budget != originalBudget {
          var info := UpdateSingleBudget(platform, DryRun(config), item.id, item.name, item.budget,
                                         originalBudget, item.kind);
          RecordUpdate(old(platform.budgets), updatesMade, info);
          updatesMade := updatesMade + [info];
        }
      }
      assert items[..|items|] == items;
    }

    /** `apply_daytime_budgets`: restore remembered budgets; the store itself is left alone. */
    method ApplyDaytimeBudgets(campaigns: seq<CampaignRecord>) returns (updatesMade: seq<UpdateInfo>)
      modifies platform
      ensures Requests(updatesMade) == RestoreChanges(Entities(Selected(campaigns, config)), originalBudgets)
      ensures platform.budgets == ApplyChanges(old(platform.budgets), Applied(updatesMade))
      ensures forall u :: u in updatesMade ==> Reported(u, DryRun(config))
      ensures DryRun(config) ==> platform.budgets == old(platform.budgets)
    {
      var results := GetActiveCampaignsAndAdsets(campaigns, config);
      var fromCampaigns := RestoreEach(results.campaignBudgets);
      var fromAdsets := RestoreEach(results.adsetBudgets);
      updatesMade := fromCampaigns + fromAdsets;
      RestoreChangesAppend(results.campaignBudgets, results.adsetBudgets, originalBudgets);
      RequestsAppend(fromCampaigns, fromAdsets);
      AppliedAppend(fromCampaigns, fromAdsets);
      ApplyChangesAppend(old(platform.budgets), Applied(fromCampaigns), Applied(fromAdsets));
      if DryRun(config) {
        DryRunAppliesNothing(updatesMade);
        assert Writes([]) == [];
      }
    }

    /** `run` at the given hour of day, with `now` as the timestamp it records. */
    method Run(hour: int, campaigns: seq<CampaignRecord>, now: string) returns (result: Result<seq<UpdateInfo>, string>)
      modifies this, platform
      ensures GetCurrentBudgetMode(config, hour).None? ==>
        result.Err? && CurrentState() == old(CurrentState()) && platform.budgets == old(platform.budgets)
      ensures GetCurrentBudgetMode(config, hour).Some? ==>
        var step := Reconcile(old(CurrentState()), GetCurrentBudgetMode(config, hour).value,
                              Entities(Selected(campaigns, config)), config.nightlyAmount, now);
        && result.Ok?
        && CurrentState() == step.0
        && Requests(result.value) == step.1
        && platform.budgets == ApplyChanges(old(platform.budgets), Applied(result.value))
        && (forall u :: u in result.value ==> Reported(u, DryRun(config)))
    {
      var mode := GetCurrentBudgetMode(config, hour);
      if mode.None? {
        return Err("schedule time without an integer hour");
      }
      var updates: seq<UpdateInfo> := [];
      assert Writes([]) == [];
      if mode.value == Nightly {
        if lastMode != Some(Nightly) {
          updates := ApplyNightlyBudgets(campaigns);
          lastMode := Some(Nightly);
          lastRun := Some(now);
        }
      } else {
        if lastMode != Some(Daytime) {
          updates := ApplyDaytimeBudgets(campaigns);
          lastMode := Some(Daytime);
          lastRun := Some(now);
        }
      }
      result := Ok(updates);
    }
  }
}
