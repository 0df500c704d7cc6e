/**
 * What both budget schedulers share: the configuration, the hour-of-day
 * window, the selection of budget-bearing campaigns and ad sets, the
 * platform that holds the live budgets, and the per-entity update record.
 * All amounts are integer cents.
 */
module Budget {
  import opened Wrappers
  import opened Overlays

  /** Which object owns a daily budget: a campaign, or an ad set of a campaign without one. */
  datatype Kind = Campaign | AdSet

  /** The two budget regimes of the day. */
  datatype Mode = Nightly | Daytime

  /**
   * The scheduler's configuration file. `dryRun` is `None` when the key is
   * missing, which both schedulers read as a dry run.
   */
  datatype Config = Config(
    nightlyTime: string,
    daytimeTime: string,
    nightlyAmount: int,
    daytimeAmount: int,
    excludedCampaigns: seq<string>,
    excludedAdsets: seq<string>,
    dryRun: Option<bool>)

  /** `config.get('dry_run', True)` */
  function DryRun(config: Config): bool {
    match config.dryRun
    case Some(b) => b
    case None => true
  }

  // ---------------------------------------------------------------------------
  // The hour-of-day window

  /** The text before the first ':' of a schedule time (`time.split(':')[0]`). */
  function HourField(time: string): (field: string)
    ensures field <= time && ':' !in field
    ensures |field| < |time| ==> time[|field|] == ':'
  {
    if time == [] || time[0] == ':' then [] else [time[0]] + HourField(time[1..])
  }

  predicate IsDigit(c: char) {
    '0' <= c <= '9'
  }

  predicate AllDigits(s: string) {
    forall i :: 0 <= i < |s| ==> IsDigit(s[i])
  }

  function DigitValue(c: char): int
    requires IsDigit(c)
  {
    c as int - '0' as int
  }

  /** The number written in decimal by the digits `s`. */
  function DecimalValue(s: string): nat
    requires AllDigits(s)
  {
    if s == [] then 0 else 10 * DecimalValue(s[..|s| - 1]) + DigitValue(s[|s| - 1])
  }

  /** `int(s)` on a string of ASCII digits; anything else makes Python raise. */
  function ParseDecimal(s: string): Option<int> {
    if s != [] && AllDigits(s) then Some(DecimalValue(s)) else None
  }

  /** `int(time.split(':')[0])`: the hour of a schedule time, or `None` where Python raises. */
  function HourOf(time: string): Option<int> {
    ParseDecimal(HourField(time))
  }

  /** The two-digit rendering of an hour, as in "07:30". */
  function TwoDigits(h: nat): string
    requires h < 100
  {
    [(('0' as int) + h / 10) as char, (('0' as int) + h % 10) as char]
  }

  /** The hour field ends at the first ':'; whatever follows it is never read. */
  lemma {:induction false} HourFieldOfClock(hh: string, rest: string)
    requires ':' !in hh
    ensures HourField(hh + ":" + rest) == hh
  {
    var time := hh + ":" + rest;
    assert time[|hh|] == ':';
    assert time[..|hh|] == hh;
  }

  /** A time written "HH:MM" (with any text after the colon) has hour HH. */
  lemma HourOfClockTime(h: nat, minutes: string)
    requires h < 100
    ensures HourOf(TwoDigits(h) + ":" + minutes) == Some(h)
  {
    var hh := TwoDigits(h);
    HourFieldOfClock(hh, minutes);
    assert hh[..1] == [hh[0]];
    assert DecimalValue(hh) == 10 * DecimalValue(hh[..1]) + DigitValue(hh[1]);
    assert DecimalValue(hh[..1]) == 10 * DecimalValue(hh[..1][..0]) + DigitValue(hh[0]);
    assert hh[..1][..0] == [];
  }

  /** Only the hour component of a schedule time counts: changing the minutes never changes it. */
  lemma MinutesIgnored(hh: string, minutes1: string, minutes2: string)
    requires ':' !in hh
    ensures HourOf(hh + ":" + minutes1) == HourOf(hh + ":" + minutes2)
  {
    HourFieldOfClock(hh, minutes1);
    HourFieldOfClock(hh, minutes2);
  }

  /** The half-open nightly window `[nightlyHour, daytimeHour)` on the hour of day. */
  function ModeAt(nightlyHour: int, daytimeHour: int, hour: int): Mode {
    if nightlyHour <= hour < daytimeHour then Nightly else Daytime
  }

  /** A window whose nightly hour is not before its daytime hour is never nightly. */
  lemma InvertedWindowIsAlwaysDaytime(nightlyHour: int, daytimeHour: int, hour: int)
    requires nightlyHour >= daytimeHour
    ensures ModeAt(nightlyHour, daytimeHour, hour) == Daytime
  {
  }

  // ---------------------------------------------------------------------------
  // Selecting the budget-bearing entities

  /** An active ad set as the platform reports it; `dailyBudget` is `None` when unset or empty. */
  datatype AdSetRecord = AdSetRecord(id: string, name: string, dailyBudget: Option<int>)

  /** An active campaign as the platform reports it, with its active ad sets. */
  datatype CampaignRecord = CampaignRecord(
    id: string,
    name: string,
    dailyBudget: Option<int>,
    adsets: seq<AdSetRecord>)

  /** One campaign or ad set that carries its own daily budget, with that budget now. */
  datatype Entity = Entity(id: string, name: string, kind: Kind, budget: int)

  /** The two lists `get_active_campaigns_and_adsets` returns. */
  datatype Listing = Listing(campaignBudgets: seq<Entity>, adsetBudgets: seq<Entity>)

  /** Every listed entity, campaigns first: the order both passes process them in. */
  function Entities(listing: Listing): seq<Entity> {
    listing.campaignBudgets + listing.adsetBudgets
  }

  function CampaignEntry(c: CampaignRecord, excludedCampaigns: seq<string>): seq<Entity> {
    if c.id in excludedCampaigns then []
    else match c.dailyBudget
      case Some(b) => [Entity(c.id, c.name, Campaign, b)]
      case None => []
  }

  function AdsetEntry(a: AdSetRecord, excludedAdsets: seq<string>): seq<Entity> {
    if a.id in excludedAdsets then []
    else match a.dailyBudget
      case Some(b) => [Entity(a.id, a.name, AdSet, b)]
      case None => []
  }

  /** The campaign-level budgets, in the order the campaigns are reported. */
  function CampaignBudgets(campaigns: seq<CampaignRecord>, excludedCampaigns: seq<string>): seq<Entity> {
    if campaigns == [] then []
    else CampaignBudgets(campaigns[..|campaigns| - 1], excludedCampaigns)
         + CampaignEntry(campaigns[|campaigns| - 1], excludedCampaigns)
  }

  /** The ad-set-level budgets among `adsets`, in order. */
  function AdsetEntries(adsets: seq<AdSetRecord>, excludedAdsets: seq<string>): seq<Entity> {
    if adsets == [] then []
    else AdsetEntries(adsets[..|adsets| - 1], excludedAdsets)
         + AdsetEntry(adsets[|adsets| - 1], excludedAdsets)
  }

  /** The ad sets of one campaign that are looked at: only when the campaign is not excluded and has no budget. */
  function AdsetsOf(c: CampaignRecord, config: Config): seq<Entity> {
    if c.id in config.excludedCampaigns || c.dailyBudget.Some? then []
    else AdsetEntries(c.adsets, config.excludedAdsets)
  }

  /** The ad-set-level budgets over all campaigns, in order. */
  function AdsetBudgets(campaigns: seq<CampaignRecord>, config: Config): seq<Entity> {
    if campaigns == [] then []
    else AdsetBudgets(campaigns[..|campaigns| - 1], config) + AdsetsOf(campaigns[|campaigns| - 1], config)
  }

  /** What `get_active_campaigns_and_adsets` returns for the reported campaigns. */
  function Selected(campaigns: seq<CampaignRecord>, config: Config): Listing {
    Listing(CampaignBudgets(campaigns, config.excludedCampaigns), AdsetBudgets(campaigns, config))
  }

  /** The inner loop of the selection: the ad sets of one campaign that have a budget and are not excluded. */
  method ListAdsets(adsets: seq<AdSetRecord>, excludedAdsets: seq<string>) returns (entries: seq<Entity>)
    ensures entries == AdsetEntries(adsets, excludedAdsets)
  {
    entries := [];
    for j := 0 to |adsets|
      invariant entries == AdsetEntries(adsets[..j], excludedAdsets)
    {
      var adset := adsets[j];
      assert adsets[..j + 1][..j] == adsets[..j];
      if adset.id in excludedAdsets {
        continue;
      }
      if adset.dailyBudget.Some? {
        entries := entries + [Entity(adset.id, adset.name, AdSet, adset.dailyBudget.value)];
      }
    }
    assert adsets[..|adsets|] == adsets;
  }

  /** The selection loop: campaigns with their own budget, else their ad sets with one; exclusions skipped. */
  method GetActiveCampaignsAndAdsets(campaigns: seq<CampaignRecord>, config: Config) returns (results: Listing)
    ensures results == Selected(campaigns, config)
  {
    var campaignBudgets: seq<Entity> := [];
    var adsetBudgets: seq<Entity> := [];
    for i := 0 to |campaigns|
      invariant campaignBudgets == CampaignBudgets(campaigns[..i], config.excludedCampaigns)
      invariant adsetBudgets == AdsetBudgets(campaigns[..i], config)
    {
      var campaign := campaigns[i];
      assert campaigns[..i + 1][..i] == campaigns[..i];
      if campaign.id in config.excludedCampaigns {
        continue;
      }
      match campaign.dailyBudget {
        case Some(b) =>
          campaignBudgets := campaignBudgets + [Entity(campaign.id, campaign.name, Campaign, b)];
        case None =>
          var entries := ListAdsets(campaign.adsets, config.excludedAdsets);
          adsetBudgets := adsetBudgets + entries;
      }
    }
    assert campaigns[..|campaigns|] == campaigns;
    results := Listing(campaignBudgets, adsetBudgets);
  }

  /** A campaign is listed exactly when it is reported with a daily budget and is not excluded. */
  lemma {:induction false} CampaignBudgetsMembers(campaigns: seq<CampaignRecord>, excludedCampaigns: seq<string>, e: Entity)
    ensures e in CampaignBudgets(campaigns, excludedCampaigns) <==>
      exists c :: c in campaigns && c.id !in excludedCampaigns && c.dailyBudget == Some(e.budget)
        && e == Entity(c.id, c.name, Campaign, e.budget)
    decreases |campaigns|
  {
    if campaigns != [] {
      var init, last := campaigns[..|campaigns| - 1], campaigns[|campaigns| - 1];
      CampaignBudgetsMembers(init, excludedCampaigns, e);
      assert campaigns == init + [last];
      if e in CampaignEntry(last, excludedCampaigns) {
        assert last in campaigns;
      }
      forall c | c in campaigns && c.id !in excludedCampaigns && c.dailyBudget == Some(e.budget)
          && e == Entity(c.id, c.name, Campaign, e.budget)
        ensures e in CampaignBudgets(campaigns, excludedCampaigns)
      {
        if c != last { assert c in init; }
      }
    }
  }

  /** An ad set of one campaign's list is listed exactly when it has a daily budget and is not excluded. */
  lemma {:induction false} AdsetEntriesMembers(adsets: seq<AdSetRecord>, excludedAdsets: seq<string>, e: Entity)
    ensures e in AdsetEntries(adsets, excludedAdsets) <==>
      exists a :: a in adsets && a.id !in excludedAdsets && a.dailyBudget == Some(e.budget)
        && e == Entity(a.id, a.name, AdSet, e.budget)
    decreases |adsets|
  {
    if adsets != [] {
      var init, last := adsets[..|adsets| - 1], adsets[|adsets| - 1];
      AdsetEntriesMembers(init, excludedAdsets, e);
      assert adsets == init + [last];
      if e in AdsetEntry(last, excludedAdsets) {
        assert last in adsets;
      }
      forall a | a in adsets && a.id !in excludedAdsets && a.dailyBudget == Some(e.budget)
          && e == Entity(a.id, a.name, AdSet, e.budget)
        ensures e in AdsetEntries(adsets, excludedAdsets)
      {
        if a != last { assert a in init; }
      }
    }
  }

  /** `a` of campaign `c` is one of the ad sets the selection lists as `e`. */
  predicate ListedAdset(config: Config, c: CampaignRecord, a: AdSetRecord, e: Entity) {
    c.id !in config.excludedCampaigns && c.dailyBudget.None?
    && a.id !in config.excludedAdsets && a.dailyBudget == Some(e.budget)
    && e == Entity(a.id, a.name, AdSet, e.budget)
  }

  /** Every listed ad set comes from a campaign and an ad set that qualify. */
  lemma {:induction false} AdsetBudgetsSound(campaigns: seq<CampaignRecord>, config: Config, e: Entity)
    requires e in AdsetBudgets(campaigns, config)
    ensures exists c, a :: c in campaigns && a in c.adsets && ListedAdset(config, c, a, e)
    decreases |campaigns|
  {
    var init, last := campaigns[..|campaigns| - 1], campaigns[|campaigns| - 1];
    assert campaigns == init + [last];
    if e in AdsetBudgets(init, config) {
      AdsetBudgetsSound(init, config, e);
      var c, a :| c in init && a in c.adsets && ListedAdset(config, c, a, e);
      assert c in campaigns;
    } else {
      assert e in AdsetsOf(last, config);
      AdsetEntriesMembers(last.adsets, config.excludedAdsets, e);
      var a :| a in last.adsets && a.id !in config.excludedAdsets && a.dailyBudget == Some(e.budget)
        && e == Entity(a.id, a.name, AdSet, e.budget);
      assert ListedAdset(config, last, a, e);
    }
  }

  /** Every qualifying ad set of a qualifying campaign is listed. */
  lemma {:induction false} AdsetBudgetsComplete(campaigns: seq<CampaignRecord>, config: Config,
                                                c: CampaignRecord, a: AdSetRecord, e: Entity)
    requires c in campaigns && a in c.adsets && ListedAdset(config, c, a, e)
    ensures e in AdsetBudgets(campaigns, config)
    decreases |campaigns|
  {
    var init, last := campaigns[..|campaigns| - 1], campaigns[|campaigns| - 1];
    assert campaigns == init + [last];
    if c == last {
      AdsetEntriesMembers(last.adsets, config.excludedAdsets, e);
      assert e in AdsetsOf(last, config);
    } else {
      assert c in init;
      AdsetBudgetsComplete(init, config, c, a, e);
    }
  }

  /**
   * An ad set is listed exactly when it is reported under a campaign that is
   * not excluded and has no daily budget of its own, and the ad set itself is
   * not excluded and has a daily budget.
   */
  lemma AdsetBudgetsMembers(campaigns: seq<CampaignRecord>, config: Config, e: Entity)
    ensures e in AdsetBudgets(campaigns, config) <==>
      exists c, a :: c in campaigns && a in c.adsets
        && c.id !in config.excludedCampaigns && c.dailyBudget.None?
        && a.id !in config.excludedAdsets && a.dailyBudget == Some(e.budget)
        && e == Entity(a.id, a.name, AdSet, e.budget)
  {
    if e in AdsetBudgets(campaigns, config) {
      AdsetBudgetsSound(campaigns, config, e);
    }
    forall c, a | c in campaigns && a in c.adsets
        && c.id !in config.excludedCampaigns && c.dailyBudget.None?
        && a.id !in config.excludedAdsets && a.dailyBudget == Some(e.budget)
        && e == Entity(a.id, a.name, AdSet, e.budget)
      ensures e in AdsetBudgets(campaigns, config)
    {
      AdsetBudgetsComplete(campaigns, config, c, a, e);
    }
  }

  /** An entity the configuration excludes is never listed, and neither is an ad set of an excluded campaign. */
  predicate Permitted(config: Config, kind: Kind, id: string) {
    (kind == Campaign ==> id !in config.excludedCampaigns) && (kind == AdSet ==> id !in config.excludedAdsets)
  }

  lemma SelectionRespectsExclusions(campaigns: seq<CampaignRecord>, config: Config)
    ensures forall e :: e in Entities(Selected(campaigns, config)) ==> Permitted(config, e.kind, e.id)
    ensures forall e :: e in Selected(campaigns, config).campaignBudgets ==> e.kind == Campaign
    ensures forall e :: e in Selected(campaigns, config).adsetBudgets ==>
      e.kind == AdSet &&
      exists c, a :: c in campaigns && a in c.adsets && a.id == e.id
        && c.id !in config.excludedCampaigns && c.dailyBudget.None?
  {
    forall e | e in Entities(Selected(campaigns, config))
      ensures Permitted(config, e.kind, e.id)
    {
      CampaignBudgetsMembers(campaigns, config.excludedCampaigns, e);
      AdsetBudgetsMembers(campaigns, config, e);
    }
    forall e | e in Selected(campaigns, config).campaignBudgets ensures e.kind == Campaign {
      CampaignBudgetsMembers(campaigns, config.excludedCampaigns, e);
    }
    forall e | e in Selected(campaigns, config).adsetBudgets ensures e.kind == AdSet &&
      exists c, a :: c in campaigns && a in c.adsets && a.id == e.id
        && c.id !in config.excludedCampaigns && c.dailyBudget.None?
    {
      AdsetBudgetsMembers(campaigns, config, e);
    }
  }

  /** No campaign id is also the id of one of the reported ad sets (ids are unique within the account). */
  predicate DistinctIds(campaigns: seq<CampaignRecord>) {
    forall c, d, a :: c in campaigns && d in campaigns && a in d.adsets ==> c.id != a.id
  }

  /** A budget is never counted twice: no id is in both lists. */
  lemma NoDoubleCounting(campaigns: seq<CampaignRecord>, config: Config)
    requires DistinctIds(campaigns)
    ensures forall e1, e2 ::
      (e1 in Selected(campaigns, config).campaignBudgets && e2 in Selected(campaigns, config).adsetBudgets)
      ==> e1.id != e2.id
  {
    forall e1, e2 | e1 in Selected(campaigns, config).campaignBudgets
      && e2 in Selected(campaigns, config).adsetBudgets
      ensures e1.id != e2.id
    {
      CampaignBudgetsMembers(campaigns, config.excludedCampaigns, e1);
      AdsetBudgetsMembers(campaigns, config, e2);
    }
  }

  // ---------------------------------------------------------------------------
  // Budget changes and the platform

  /** One `update_single_budget` request: set `id`'s daily budget from `oldBudget` to `newBudget`. */
  datatype BudgetChange = BudgetChange(id: string, name: string, kind: Kind, oldBudget: int, newBudget: int)

  function ChangeTo(e: Entity, newBudget: int): BudgetChange {
    BudgetChange(e.id, e.name, e.kind, e.budget, newBudget)
  }

  /** The record `update_single_budget` returns; `dryRun` stands for the `dry_run` marker key. */
  datatype UpdateInfo = UpdateInfo(change: BudgetChange, success: bool, dryRun: bool, error: Option<string>)

  /** How an update is reported: a dry run always succeeds, and an error is present exactly on failure. */
  predicate Reported(u: UpdateInfo, dryRun: bool) {
    u.dryRun == dryRun && (u.success <==> u.error.None?) && (dryRun ==> u.success)
  }

  /**
   * The ads platform's live daily budgets. A budget update is a call across
   * the network that may fail for reasons the scheduler cannot see; the model
   * lets every call either succeed or fail.
   */
  class AdsPlatform {
    var budgets: map<string, int>

    constructor (budgets: map<string, int>)
      ensures this.budgets == budgets
    {
      this.budgets := budgets;
    }

    /** `api_update(params={'daily_budget': amount})` on the campaign or ad set `id`. */
    method SetBudget(id: string, kind: Kind, amount: int) returns (failure: Option<string>)
      modifies this
      ensures failure.None? ==> budgets == old(budgets)[id := amount]
      ensures failure.Some? ==> budgets == old(budgets)
    {
      var accepted: bool := *;
      if accepted {
        budgets := budgets[id := amount];
        failure := None;
      } else {
        var message: string := *;
        failure := Some(message);
      }
    }
  }

  /**
   * `update_single_budget`: in a dry run report success without calling the
   * platform; otherwise call it and report its success or its error.
   */
  method UpdateSingleBudget(platform: AdsPlatform, dryRun: bool, id: string, name: string,
                            currentBudget: int, newBudget: int, kind: Kind) returns (info: UpdateInfo)
    modifies platform
    ensures info.change == BudgetChange(id, name, kind, currentBudget, newBudget)
    ensures Reported(info, dryRun)
    ensures platform.budgets ==
      if info.success && !info.dryRun then old(platform.budgets)[id := newBudget] else old(platform.budgets)
  {
    info := UpdateInfo(BudgetChange(id, name, kind, currentBudget, newBudget), false, false, None);
    if dryRun {
      info := info.(success := true, dryRun := true);
    } else {
      var failure := platform.SetBudget(id, kind, newBudget);
      match failure {
        case None => info := info.(success := true);
        case Some(message) => info := info.(error := Some(message));
      }
    }
  }

  /** The requests behind a list of update records. */
  function Requests(us: seq<UpdateInfo>): seq<BudgetChange> {
    seq(|us|, i requires 0 <= i < |us| => us[i].change)
  }

  /** The requests that reached the platform and were accepted by it. */
  function Applied(us: seq<UpdateInfo>): seq<BudgetChange> {
    if us == [] then []
    else
      var u := us[|us| - 1];
      Applied(us[..|us| - 1]) + (if u.success && !u.dryRun then [u.change] else [])
  }

  lemma RequestsAppend(a: seq<UpdateInfo>, b: seq<UpdateInfo>)
    ensures Requests(a + b) == Requests(a) + Requests(b)
  {
  }

  lemma {:induction false} AppliedAppend(a: seq<UpdateInfo>, b: seq<UpdateInfo>)
    ensures Applied(a + b) == Applied(a) + Applied(b)
    decreases |b|
  {
    if b == [] {
      assert a + b == a;
    } else {
      assert (a + b)[..|a + b| - 1] == a + b[..|b| - 1];
      AppliedAppend(a, b[..|b| - 1]);
    }
  }

  /** In a dry run nothing reaches the platform. */
  lemma {:induction false} DryRunAppliesNothing(us: seq<UpdateInfo>)
    requires forall u :: u in us ==> u.dryRun
    ensures Applied(us) == []
    decreases |us|
  {
    if us != [] {
      assert us[|us| - 1] in us;
      assert forall u :: u in us[..|us| - 1] ==> u in us;
      DryRunAppliesNothing(us[..|us| - 1]);
    }
  }

  /** When every update of a live run succeeded, everything requested was applied. */
  lemma {:induction false} AllSucceededAppliesAll(us: seq<UpdateInfo>)
    requires forall u :: u in us ==> u.success && !u.dryRun
    ensures Applied(us) == Requests(us)
    decreases |us|
  {
    if us != [] {
      assert us[|us| - 1] in us;
      assert forall u :: u in us[..|us| - 1] ==> u in us;
      AllSucceededAppliesAll(us[..|us| - 1]);
      assert Requests(us) == Requests(us[..|us| - 1]) + [us[|us| - 1].change];
    }
  }

  /** The platform writes of a list of changes. */
  function Writes(cs: seq<BudgetChange>): seq<(string, int)> {
    seq(|cs|, i requires 0 <= i < |cs| => (cs[i].id, cs[i].newBudget))
  }

  /** The platform's budgets after the changes `cs` were accepted in order. */
  function ApplyChanges(budgets: map<string, int>, cs: seq<BudgetChange>): map<string, int> {
    Overlay(budgets, Writes(cs))
  }

  function ChangedIds(cs: seq<BudgetChange>): set<string> {
    set c | c in cs :: c.id
  }

  lemma WrittenKeysAreChangedIds(cs: seq<BudgetChange>)
    ensures WrittenKeys(Writes(cs)) == ChangedIds(cs)
  {
    forall id | id in ChangedIds(cs) ensures id in WrittenKeys(Writes(cs)) {
      var c :| c in cs && c.id == id;
      var i :| 0 <= i < |cs| && cs[i] == c;
      assert Writes(cs)[i].0 == id;
    }
  }

  lemma ApplyChangesSnoc(budgets: map<string, int>, cs: seq<BudgetChange>, c: BudgetChange)
    ensures ApplyChanges(budgets, cs + [c]) == ApplyChanges(budgets, cs)[c.id := c.newBudget]
  {
    var w := Writes(cs + [c]);
    assert w[..|w| - 1] == Writes(cs);
    assert w[|w| - 1] == (c.id, c.newBudget);
  }

  lemma RequestsSnoc(us: seq<UpdateInfo>, u: UpdateInfo)
    ensures Requests(us + [u]) == Requests(us) + [u.change]
  {
  }

  lemma AppliedSnoc(us: seq<UpdateInfo>, u: UpdateInfo)
    ensures Applied(us + [u]) == Applied(us) + (if u.success && !u.dryRun then [u.change] else [])
  {
    assert (us + [u])[..|us|] == us;
  }

  /** Appending one update record: what it requests and what it leaves on the platform. */
  lemma RecordUpdate(budgets: map<string, int>, us: seq<UpdateInfo>, u: UpdateInfo)
    ensures Requests(us + [u]) == Requests(us) + [u.change]
    ensures ApplyChanges(budgets, Applied(us + [u])) ==
      if u.success && !u.dryRun then ApplyChanges(budgets, Applied(us))[u.change.id := u.change.newBudget]
      else ApplyChanges(budgets, Applied(us))
  {
    RequestsSnoc(us, u);
    AppliedSnoc(us, u);
    if u.success && !u.dryRun {
      ApplyChangesSnoc(budgets, Applied(us), u.change);
    } else {
      assert Applied(us + [u]) == Applied(us);
    }
  }

  lemma ApplyChangesAppend(budgets: map<string, int>, a: seq<BudgetChange>, b: seq<BudgetChange>)
    ensures ApplyChanges(budgets, a + b) == ApplyChanges(ApplyChanges(budgets, a), b)
  {
    assert Writes(a + b) == Writes(a) + Writes(b);
    OverlayAppend(budgets, Writes(a), Writes(b));
  }

  /** Only the ids of the changes are touched; every other budget is as before. */
  lemma ApplyChangesTouchesOnlyChanged(budgets: map<string, int>, cs: seq<BudgetChange>)
    ensures ApplyChanges(budgets, cs).Keys == budgets.Keys + ChangedIds(cs)
    ensures forall id :: id in budgets && id !in ChangedIds(cs) ==> ApplyChanges(budgets, cs)[id] == budgets[id]
  {
    OverlayFacts(budgets, Writes(cs));
    WrittenKeysAreChangedIds(cs);
  }

  /** When each change sets its id to the `goal` budget, each changed id ends at that budget. */
  lemma ApplyChangesToward(budgets: map<string, int>, cs: seq<BudgetChange>, goal: map<string, int>)
    requires forall c :: c in cs ==> c.id in goal && c.newBudget == goal[c.id]
    ensures forall id :: id in ChangedIds(cs) ==>
      id in ApplyChanges(budgets, cs) && ApplyChanges(budgets, cs)[id] == goal[id]
  {
    forall i | 0 <= i < |Writes(cs)|
      ensures Writes(cs)[i].0 in goal && Writes(cs)[i].1 == goal[Writes(cs)[i].0]
    {
      assert cs[i] in cs;
    }
    OverlayToward(budgets, Writes(cs), goal);
    WrittenKeysAreChangedIds(cs);
  }

  /** The listing `es` reports the budgets the platform holds. */
  predicate Reports(es: seq<Entity>, budgets: map<string, int>) {
    forall e :: e in es ==> e.id in budgets && budgets[e.id] == e.budget
  }

  /** The same entities listed again after the platform's budgets became `budgets`. */
  function Relisted(es: seq<Entity>, budgets: map<string, int>): seq<Entity> {
    seq(|es|, i requires 0 <= i < |es| =>
      if es[i].id in budgets then es[i].(budget := budgets[es[i].id]) else es[i])
  }

  /**
   * The fixed-target plan: one change to `target` for each entity whose
   * budget differs from it, in order; entities already at `target` get none.
   */
  function TargetChanges(es: seq<Entity>, target: int): seq<BudgetChange> {
    if es == [] then []
    else
      var last := es[|es| - 1];
      TargetChanges(es[..|es| - 1], target) + (if last.budget != target then [ChangeTo(last, target)] else [])
  }

  /** Planning one more entity adds its change, if it needs one, at the end. */
  lemma TargetChangesSnoc(es: seq<Entity>, e: Entity, target: int)
    ensures TargetChanges(es + [e], target) ==
      TargetChanges(es, target) + (if e.budget != target then [ChangeTo(e, target)] else [])
  {
    assert (es + [e])[..|es|] == es;
  }

  /**
   * The plan holds no more changes than there are entities, changes every
   * entity not at `target`, and every change it holds moves such an entity
   * to `target`.
   */
  lemma {:induction false} TargetChangesMembers(es: seq<Entity>, target: int)
    ensures |TargetChanges(es, target)| <= |es|
    ensures forall e :: e in es && e.budget != target ==> ChangeTo(e, target) in TargetChanges(es, target)
    ensures forall c :: c in TargetChanges(es, target) ==>
      exists e :: e in es && e.budget != target && c == ChangeTo(e, target)
    decreases |es|
  {
    if es != [] {
      var init, last := es[..|es| - 1], es[|es| - 1];
      assert es == init + [last];
      TargetChangesMembers(init, target);
    }
  }

  /** No two listed entities share an id. */
  predicate UniqueEntityIds(es: seq<Entity>) {
    forall i, j :: 0 <= i < j < |es| ==> es[i].id != es[j].id
  }

  /** No two changes are for the same id. */
  predicate UniqueChangeIds(cs: seq<BudgetChange>) {
    forall i, j :: 0 <= i < j < |cs| ==> cs[i].id != cs[j].id
  }

  lemma UniqueEntityIdsInit(es: seq<Entity>)
    requires UniqueEntityIds(es) && es != []
    ensures UniqueEntityIds(es[..|es| - 1])
    ensures forall e :: e in es[..|es| - 1] ==> e.id != es[|es| - 1].id
  {
    forall e | e in es[..|es| - 1] ensures e.id != es[|es| - 1].id {
      var i :| 0 <= i < |es| - 1 && es[..|es| - 1][i] == e;
      assert es[i] == e;
    }
  }

  /** A change for an id no earlier change is for keeps the ids unique. */
  lemma UniqueChangeIdsSnoc(cs: seq<BudgetChange>, c: BudgetChange)
    requires UniqueChangeIds(cs) && forall x :: x in cs ==> x.id != c.id
    ensures UniqueChangeIds(cs + [c])
  {
    forall i, j | 0 <= i < j < |cs + [c]| ensures (cs + [c])[i].id != (cs + [c])[j].id {
      assert (cs + [c])[i] == cs[i];
      if j == |cs| {
        assert cs[i] in cs;
      }
    }
  }

  /** When the listed entities have distinct ids, the plan changes each of them at most once. */
  lemma {:induction false} TargetChangesOnePerEntity(es: seq<Entity>, target: int)
    requires UniqueEntityIds(es)
    ensures UniqueChangeIds(TargetChanges(es, target))
    decreases |es|
  {
    if es != [] {
      var init, last := es[..|es| - 1], es[|es| - 1];
      UniqueEntityIdsInit(es);
      TargetChangesOnePerEntity(init, target);
      if last.budget != target {
        TargetChangesMembers(init, target);
        forall x | x in TargetChanges(init, target) ensures x.id != last.id {
          var e :| e in init && e.budget != target && x == ChangeTo(e, target);
        }
        UniqueChangeIdsSnoc(TargetChanges(init, target), ChangeTo(last, target));
      } else {
        assert TargetChanges(es, target) == TargetChanges(init, target);
      }
    }
  }

  /** The plan of a concatenation is the concatenation of the plans: campaigns' changes come first. */
  lemma {:induction false} TargetChangesAppend(a: seq<Entity>, b: seq<Entity>, target: int)
    ensures TargetChanges(a + b, target) == TargetChanges(a, target) + TargetChanges(b, target)
    decreases |b|
  {
    if b == [] {
      assert a + b == a;
    } else {
      assert (a + b)[..|a + b| - 1] == a + b[..|b| - 1];
      TargetChangesAppend(a, b[..|b| - 1], target);
    }
  }

  /** Changing toward `target` leaves every listed entity's platform budget at `target`. */
  lemma TargetChangesReachTarget(es: seq<Entity>, budgets: map<string, int>, target: int)
    requires Reports(es, budgets)
    ensures forall e :: e in es ==>
      e.id in ApplyChanges(budgets, TargetChanges(es, target)) && ApplyChanges(budgets, TargetChanges(es, target))[e.id] == target
  {
    var cs := TargetChanges(es, target);
    var goal := map id | id in ChangedIds(cs) :: target;
    TargetChangesMembers(es, target);
    ApplyChangesToward(budgets, cs, goal);
    ApplyChangesTouchesOnlyChanged(budgets, cs);
    forall e | e in es ensures e.id in ApplyChanges(budgets, cs) && ApplyChanges(budgets, cs)[e.id] == target {
      if e.budget != target {
        assert ChangeTo(e, target) in cs;
      }
    }
  }
}
