# Time-of-day budget scheduler, modelled in Dafny

This project models the scheduler that lowers the daily budgets of an ads
account at night and raises them again in the daytime, together with two
small tools around it. It proves properties of each piece.

- **Scheduler V2** (`budget_scheduler_v2.py`) is stateful. It works out the
  mode of the current hour: *nightly* in the half-open window
  `[nightly hour, daytime hour)`, *daytime* at every other hour.
  - It lists the active campaigns that carry their own daily budget. For a
    campaign without one, it lists that campaign's ad sets that have one.
    Excluded campaigns and ad sets are skipped.
  - On entering the nightly mode it remembers every listed budget in its
    store (`original_budgets`), then lowers each budget that differs from the
    nightly amount.
  - On entering the daytime mode it puts every remembered budget back.
  - A run in the mode it last applied does nothing.
- **Scheduler V1** (`budget_scheduler.py`) is stateless. It uses the same
  window, but sets every listed budget to a fixed amount: the nightly amount
  or the daytime amount.
- **The management commands** (`manage_scheduler.py`) add an id to an
  exclusion list, remove it again, and flip the dry-run switch.
- **Insight-row flattening** (`download_fb_data.py`)
  - `flatten_actions` copies the plain fields of each insight row. It turns
    each per-action list into one column per action type.
  - `save_to_csv` uses the sorted union of all columns as its header.

## How the model is built

Modules:
- `Wrappers`: `Option` and `Result`.
- `Overlays`: writing key/value pairs into a dictionary one after the other,
  so that the last write wins. The scheduler's store, the platform's budgets
  and the flattened rows are all built this way.
- `Budget`: what both schedulers share.
  - The configuration.
  - Parsing the hour of a schedule time.
  - The window.
  - The selection loop, `GetActiveCampaignsAndAdsets`. The two scripts carry
    identical copies of it, and of `update_single_budget`. The model keeps
    one copy of each and cites the copy in `budget_scheduler_v2.py`.
  - The ads platform: a class holding a map from id to budget, whose
    `SetBudget` may fail.
  - `UpdateSingleBudget`.
- `SchedulerV2`, `SchedulerV1` and `Correspondence`: the two schedulers, and
  how they relate.
- `ManageScheduler`: the management commands.
- `StringOrder`: the order that Python's `sorted` puts strings in.
- `FbInsights`: flattening and the CSV header.

How the model follows the source:
- **The scheduler is a class.** Its fields are the store, the last mode and
  the last run time. Each pass is a method with loops that mirror the
  source's loops.
- **Each method is proved against a function on values.** The nightly and
  daytime passes are `TargetChanges`, `RecordOriginals` and
  `RestoreChanges`. A whole run is `Reconcile`.
- **The platform's effect is stated as a function.** After a pass, the
  platform's budgets are `ApplyChanges` of the budgets before the pass and
  the updates that were accepted. This holds whichever calls failed, so a
  failure never stops the pass.
- **Amounts are integer cents.**
- **The current hour and the timestamp are passed in as parameters.**
  The scheduler cannot read them from the clock.

How the model treats the edge cases:
- A schedule time whose hour field is not a decimal integer makes Python
  raise. The model's `Run` then returns `Err` and changes nothing.
- A per-action field that is truthy but not a list also makes Python raise.
  Flattening then returns `Err`.
- A daily budget is `None` when it is missing or empty. Python treats those
  values as falsy.

Two behaviours that may be unexpected:
- **Inverted window.** One might expect a window whose nightly hour is not
  before its daytime hour to be rejected as a configuration error. The code
  never checks for this. With such a window, every hour is daytime. The
  model follows the code; see `Budget.InvertedWindowIsAlwaysDaytime`.
- **Nested field names in the flattened row.** "No nested field name occurs
  in a flattened row" does not hold as stated. An `actions` entry of type
  `values` produces the column `action_` + `values`, which is
  `action_values`, one of the dropped fields.
  - `FbInsights.NestedKeysInOutput` proves that this column is the only
    exception, and the only way it can arise.
  - `FbInsights.ActionValuesColumn` exhibits a row that produces it.

## Model

| member | source | states |
|---|---|---|
| `Budget.HourField` | budget_scheduler_v2.py:70-71 | the hour field is the prefix of the schedule time before its first ':' and contains no ':' |
| `Budget.HourOfClockTime` | budget_scheduler_v2.py:69-71 | a time written "HH:MM" (anything after the colon) has hour HH |
| `Budget.MinutesIgnored` | budget_scheduler_v2.py:69-71 | changing the minutes of a schedule time never changes its hour |
| `Budget.InvertedWindowIsAlwaysDaytime` | budget_scheduler_v2.py:73-77 | when the nightly hour is not before the daytime hour, every hour is daytime |
| `Budget.GetActiveCampaignsAndAdsets` | budget_scheduler_v2.py:79-138 | the selection loop returns exactly the campaign list and the ad-set list of the selection, in reporting order |
| `Budget.CampaignBudgetsMembers` | budget_scheduler_v2.py:93-110 | a campaign is in the campaign list if and only if it is reported, not excluded, and has a daily budget, which is the budget listed |
| `Budget.AdsetEntriesMembers` | budget_scheduler_v2.py:119-136 | an ad set of one campaign is listed if and only if it is not excluded and has a daily budget |
| `Budget.AdsetBudgetsMembers` | budget_scheduler_v2.py:111-136 | an ad set is listed if and only if its campaign is not excluded and has no daily budget, and the ad set itself is not excluded and has one |
| `Budget.SelectionRespectsExclusions` | budget_scheduler_v2.py:98-136 | no listed entity is excluded; every listed ad set belongs to a non-excluded campaign without a daily budget |
| `Budget.NoDoubleCounting` | budget_scheduler_v2.py:103-136 | when campaign and ad-set ids are distinct, no id is in both lists |
| `Budget.AdsPlatform.SetBudget` | budget_scheduler_v2.py:271-282 | an accepted call sets exactly that id's budget; a failed call changes nothing and yields an error message |
| `Budget.UpdateSingleBudget` | budget_scheduler_v2.py:253-284 | the record names the requested change; a dry run reports success without touching the platform; otherwise success means the budget was set and failure carries an error and leaves the platform unchanged |
| `Budget.DryRunAppliesNothing` | budget_scheduler_v2.py:266-269 | in a dry run no update reaches the platform |
| `Budget.AllSucceededAppliesAll` | budget_scheduler_v2.py:270-279 | when every update of a live run succeeds, every requested change is applied |
| `Budget.ApplyChangesTouchesOnlyChanged` | budget_scheduler_v2.py:277 | applying changes touches only the changed ids and removes none |
| `Budget.TargetChangesMembers` | budget_scheduler_v2.py:161-169 | the fixed-target plan changes an entity to the target if and only if its budget differs from it, and holds no more changes than there are entities |
| `Budget.TargetChangesOnePerEntity` | budget_scheduler.py:130-149 | when the listed entities have distinct ids, no two changes of the fixed-target plan are for the same id: each entity is updated at most once |
| `Budget.TargetChangesAppend` | budget_scheduler_v2.py:150-190 | the plan for campaigns followed by ad sets is the campaigns' plan followed by the ad sets' plan |
| `Budget.TargetChangesReachTarget` | budget_scheduler.py:130-149 | once the plan is applied, every listed entity's platform budget is the target |
| `SchedulerV2.ModeOfClockTimes` | budget_scheduler_v2.py:60-77 | for "HH:MM" boundaries the mode is nightly exactly when nightly HH <= hour < daytime HH, and daytime otherwise |
| `SchedulerV2.RecordOriginalsReportsLive` | budget_scheduler_v2.py:155-158 | after the nightly pass the store holds every listed entity's live budget, even one already at the nightly amount; no key is removed and unlisted keys keep their values |
| `SchedulerV2.RestoreChangesMembers` | budget_scheduler_v2.py:210-226 | the daytime plan restores an entity if and only if it has a remembered budget that differs from its live one, and the new budget is the remembered one; entities without one are skipped |
| `SchedulerV2.RestoreChangesOnePerEntity` | budget_scheduler_v2.py:205-249 | when the listed entities have distinct ids, no two changes of the daytime plan are for the same id |
| `SchedulerV2.RestoreChangesAppend` | budget_scheduler_v2.py:205-249 | the daytime plan treats campaigns first, then ad sets |
| `SchedulerV2.DaytimeLeavesStoreAlone` | budget_scheduler_v2.py:197-251 | the daytime pass never edits the store |
| `SchedulerV2.RepeatedRunIsNoOp` | budget_scheduler_v2.py:303-320 | a second run in the same mode issues no change and leaves the state as it is, whatever is listed |
| `SchedulerV2.NightThenDayRestores` | test_scheduler.py:86-92 | when every update is accepted, a nightly run then a daytime run returns every listed entity to its starting budget, and the store still holds it |
| `SchedulerV2.StepRespectsExclusions` | budget_scheduler_v2.py:286-328 | one run never requests a change for an excluded entity |
| `SchedulerV2.ExclusionsNeverTouched` | budget_scheduler_v2.py:99-127 | across any sequence of runs no change is ever requested for an excluded entity |
| `SchedulerV2.StoreNeverShrinks` | budget_scheduler_v2.py:155-158 | across any sequence of runs no remembered budget is ever removed |
| `SchedulerV2.BudgetScheduler.constructor` | budget_scheduler_v2.py:43-53 | without a state file the scheduler starts with an empty store and no last mode or run |
| `SchedulerV2.BudgetScheduler.LowerEach` | budget_scheduler_v2.py:151-169 | one nightly loop records every item's budget and requests the nightly amount for exactly the items not at it, whatever the platform accepts |
| `SchedulerV2.BudgetScheduler.ApplyNightlyBudgets` | budget_scheduler_v2.py:140-195 | the nightly pass: store and requests as the nightly plan says, the platform holds the accepted changes, a dry run changes no budget |
| `SchedulerV2.BudgetScheduler.RestoreEach` | budget_scheduler_v2.py:206-226 | one daytime loop requests exactly the restorations of the daytime plan and leaves the store alone |
| `SchedulerV2.BudgetScheduler.ApplyDaytimeBudgets` | budget_scheduler_v2.py:197-251 | the daytime pass: requests as the daytime plan says, the platform holds the accepted changes, a dry run changes no budget |
| `SchedulerV2.BudgetScheduler.Run` | budget_scheduler_v2.py:286-328 | a run moves the state, requests and platform exactly as `Reconcile` of the current mode says; an unreadable schedule aborts with nothing changed |
| `SchedulerV1.AmountOfClockTimes` | budget_scheduler.py:39-60 | for "HH:MM" boundaries the target is the nightly amount exactly when nightly HH <= hour < daytime HH, else the daytime amount |
| `SchedulerV1.AtTargetNeedsNothing` | budget_scheduler.py:131-142 | entities already at the target receive no update |
| `SchedulerV1.SecondRunIsQuiet` | budget_scheduler.py:123-151 | after every update of a run was accepted, a second run with the same target requests nothing |
| `SchedulerV1.UpdatesRespectExclusions` | budget_scheduler.py:82-119 | no requested update is for an excluded entity, and each sets the target |
| `SchedulerV1.BudgetScheduler.ChangeEach` | budget_scheduler.py:130-138 | one loop requests the target for exactly the items not at it; the platform holds the accepted changes |
| `SchedulerV1.BudgetScheduler.UpdateBudgets` | budget_scheduler.py:123-151 | campaign-level updates first, then ad-set-level ones, exactly one per listed entity not at the target; a dry run changes no budget |
| `SchedulerV1.BudgetScheduler.Run` | budget_scheduler.py:186-209 | a run requests the plan of the amount of the current hour; an unreadable schedule aborts with nothing changed |
| `Correspondence.SameMode` | budget_scheduler.py:48-58 | both schedulers read the same mode off the schedule and fail on the same schedules |
| `Correspondence.NightlyPlansAgree` | budget_scheduler_v2.py:161-169 | a nightly run of the stateful scheduler requests exactly the stateless scheduler's nightly updates |
| `Correspondence.RestoringUniformStoreIsFixedTarget` | budget_scheduler_v2.py:218-226 | restoring from a store that remembers one amount for every entity is the fixed-target plan of that amount |
| `ManageScheduler.Excluded` | manage_scheduler.py:75-76 | the id is in the list afterwards; a list that had it is unchanged; a list without duplicates keeps none |
| `ManageScheduler.RemoveFirstAbsent` | manage_scheduler.py:84-89 | removing an absent id leaves the list unchanged |
| `ManageScheduler.RemoveFirstPresent` | manage_scheduler.py:84-85 | removing a present id drops exactly its first occurrence; the other entries keep their order |
| `ManageScheduler.RemoveFirstMultiset` | manage_scheduler.py:85 | removal takes away one copy of the id and nothing else |
| `ManageScheduler.RemoveFirstFromDistinct` | manage_scheduler.py:82-89 | on a list without duplicates the id is gone afterwards and there are still no duplicates |
| `ManageScheduler.IncludeUndoesExclude` | manage_scheduler.py:73-89 | including an id right after excluding it restores the list |
| `ManageScheduler.Toggled` | manage_scheduler.py:111-112 | the dry-run setting is flipped, a missing one counting as on, and nothing else changes |
| `ManageScheduler.ToggleTwice` | manage_scheduler.py:109-113 | toggling twice restores the setting, and the whole configuration once the field is present |
| `ManageScheduler.SchedulerManager.ExcludeAdset` | manage_scheduler.py:73-80 | only the ad-set list changes, as `Excluded` says; it saves exactly when the id was not yet excluded |
| `ManageScheduler.SchedulerManager.IncludeAdset` | manage_scheduler.py:82-89 | only the ad-set list changes, losing the first occurrence of the id; it saves exactly when the id was excluded |
| `ManageScheduler.SchedulerManager.ExcludeCampaign` | manage_scheduler.py:91-98 | only the campaign list changes, as `Excluded` says; it saves exactly when the id was not yet excluded |
| `ManageScheduler.SchedulerManager.IncludeCampaign` | manage_scheduler.py:100-107 | only the campaign list changes, losing the first occurrence of the id; it saves exactly when the id was excluded |
| `ManageScheduler.SchedulerManager.ToggleDryRun` | manage_scheduler.py:109-118 | the configuration becomes its toggled form |
| `StringOrder.LexLeReflexive` | download_fb_data.py:201 | the string order is reflexive |
| `StringOrder.LexLeAntisymmetric` | download_fb_data.py:201 | the string order is antisymmetric |
| `StringOrder.LexLeTransitive` | download_fb_data.py:201 | the string order is transitive |
| `StringOrder.LexLeTotal` | download_fb_data.py:201 | any two strings are ordered one way or the other |
| `StringOrder.LeastExists` | download_fb_data.py:201 | every non-empty set of column names has a first one in sorted order |
| `StringOrder.SortedUnique` | download_fb_data.py:201 | a set has exactly one strictly sorted listing, so the header is determined by the set of columns |
| `FbInsights.FlattenActions` | download_fb_data.py:136-188 | the loop computes the flattening of the rows, or the error of the first row that cannot be flattened |
| `FbInsights.FlattenOne` | download_fb_data.py:143-186 | one `flat_row`: the copied fields with the per-action columns written over them in the source's order |
| `FbInsights.CopyFields` | download_fb_data.py:146-153 | the copy loop keeps exactly the fields that are not nested, with their values |
| `FbInsights.ExpandList` | download_fb_data.py:156-160 | one action loop writes the column of every entry, in order |
| `FbInsights.FlattenRowByRow` | download_fb_data.py:141-188 | one flattened row per input row, in the same order; flattening fails exactly when some row cannot be flattened |
| `FbInsights.CopiedFieldsKept` | download_fb_data.py:146-153 | every field that is not nested is kept, with its value unchanged unless an expansion writes a column of that name; every column is such a field or a written column; written columns start with a column prefix |
| `FbInsights.ColumnValue` | download_fb_data.py:155-184 | each list entry yields the column prefix + action type holding its value (default type "unknown", default value 0); of several entries of one type the last wins |
| `FbInsights.NestedColumn` | download_fb_data.py:148-184 | an expanded column name is a nested field name if and only if it is "action_" + "values" |
| `FbInsights.NestedKeyInOutput` | download_fb_data.py:146-160 | a nested field name in a flattened row is "action_values", written by an `actions` entry of type "values" |
| `FbInsights.NestedKeysInOutput` | download_fb_data.py:146-188 | the same, for every column of a flattened row |
| `FbInsights.ActionValuesColumn` | download_fb_data.py:156-160 | a row whose only action has type "values" gets the column "action_values" |
| `FbInsights.DroppedFieldsIgnored` | download_fb_data.py:148-152 | `action_values`, `conversions` and `conversion_values` never influence the flattened row |
| `FbInsights.CsvHeader` | download_fb_data.py:190-201 | no header for no rows; otherwise the header is strictly sorted and holds exactly the union of all rows' columns |

## Left out

- The Facebook SDK calls are left out, because they cross the network:
  - `FacebookAdsApi.init`, `get_campaigns` and `get_ad_sets` are left out.
    The reported campaigns, each with its ad sets, are an input snapshot.
    The `status` and `lifetime_budget` fields they fetch are never read.
  - `api_update` becomes `AdsPlatform.SetBudget`, which may fail.
  - `get_insights` and `export_all_data` are left out.
- The clock and timezone conversion are left out: `datetime.now`, `pytz`,
  `strftime` and `isoformat`. The hour and the run timestamp are
  parameters. The `current_time` string that the mode functions also
  return is only printed, so the model does not return it.
- File persistence is left out: `load_config`, `save_config`, `save_state`
  (including the intermediate save after the nightly pass), JSON encoding,
  and the CSV writer. The constructor models the default state of a
  missing state file. The management methods' `saved` result stands for
  the call to `save_config`. `CsvHeader` returns the header in place of
  the written file's path.
- A state file that exists but lacks keys, or cannot be parsed, is not
  modelled.
- Dollar formatting is left out. The `old_budget` and `new_budget` fields
  of an update record are float dollars in the source; the model keeps
  integer cents.
- Console output is left out: all `print` calls, `show_config`,
  `list_active_items`, `print_usage`, the command-line dispatch in `main`,
  and the final count of processed updates.
- `set_budgets` is left out. It converts float dollars to cents, and floats
  are not modelled.
- The `campaign_name` field of ad-set entries is left out, because it is
  only display data.
- The other scripts of the repository are not part of this model.
- Budget.AdsPlatform.SetBudget: a call that fails is assumed to leave the
  budget unchanged. Python's `except Exception` also catches errors raised
  after the platform applied the update, such as a timeout on the reply.
  Every "the platform holds the accepted changes" promise rests on this
  assumption: `LowerEach`, `RestoreEach`, `ChangeEach`, `UpdateBudgets` and
  both `Run` methods.
- Budget.ParseDecimal: accepts only non-empty strings of ASCII digits.
  Python's `int` also accepts surrounding whitespace, a sign, underscores
  between digits and non-ASCII decimal digits. The model treats those hour
  fields as unreadable.
- Budget.AdSetRecord: a daily budget that `int` cannot parse is not
  modelled. Budgets arrive already as integers.
- FbInsights.TypeOf: an `action_type` is assumed to be text. A present
  non-text value, which Python would format into the column name, is not
  modelled.
- FbInsights.FlattenRow: the flattened row is a map, so the model does not
  capture the insertion order of a Python dictionary. The CSV header is
  sorted, so that order never reaches the output.
