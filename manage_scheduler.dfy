/**
 * The management commands that edit the scheduler's configuration: adding
 * an id to an exclusion list, removing it again, and flipping the dry-run
 * switch.
 */
module ManageScheduler {
  import opened Wrappers
  import opened Budget

  /** No id occurs twice in the list. */
  predicate NoDuplicates(s: seq<string>) {
    forall i, j :: 0 <= i < j < |s| ==> s[i] != s[j]
  }

  /** `if x not in s: s.append(x)`: `x` is in the list afterwards, and a list that had it is unchanged. */
  function Excluded(s: seq<string>, x: string): (r: seq<string>)
    ensures x in r
    ensures x in s ==> r == s
    ensures x !in s ==> r == s + [x]
    ensures NoDuplicates(s) ==> NoDuplicates(r)
  {
    if x in s then s else s + [x]
  }

  /** `s.remove(x)` when `x` is in `s`: the first occurrence of `x` is dropped. */
  function RemoveFirst(s: seq<string>, x: string): seq<string> {
    if s == [] then []
    else if s[0] == x then s[1..]
    else [s[0]] + RemoveFirst(s[1..], x)
  }

  /** Removing an id that is not present changes nothing. */
  lemma {:induction false} RemoveFirstAbsent(s: seq<string>, x: string)
    requires x !in s
    ensures RemoveFirst(s, x) == s
  {
    if s != [] {
      assert x !in s[1..];
      RemoveFirstAbsent(s[1..], x);
    }
  }

  /** The position of the first occurrence of `x` in `s` (`s.index(x)`). */
  function FirstIndex(s: seq<string>, x: string): (i: nat)
    requires x in s
    ensures i < |s| && s[i] == x && x !in s[..i]
  {
    if s[0] == x then 0
    else
      assert x in s[1..];
      var j := FirstIndex(s[1..], x);
      assert s[..j + 1] == [s[0]] + s[1..][..j];
      j + 1
  }

  /**
   * Removing an id that is present drops exactly its first occurrence: the
   * entries before and after it stay, in order.
   */
  lemma {:induction false} RemoveFirstPresent(s: seq<string>, x: string)
    requires x in s
    ensures RemoveFirst(s, x) == s[..FirstIndex(s, x)] + s[FirstIndex(s, x) + 1..]
  {
    if s[0] != x {
      assert x in s[1..];
      RemoveFirstPresent(s[1..], x);
      var j := FirstIndex(s[1..], x);
      assert s[..j + 1] == [s[0]] + s[1..][..j];
      assert s[j + 2..] == s[1..][j + 1..];
    }
  }

  /** Removal takes away one copy of the id and nothing else. */
  lemma {:induction false} RemoveFirstMultiset(s: seq<string>, x: string)
    requires x in s
    ensures multiset(RemoveFirst(s, x)) == multiset(s) - multiset{x}
    decreases |s|
  {
    assert s == [s[0]] + s[1..];
    if s[0] != x {
      assert x in s[1..];
      RemoveFirstMultiset(s[1..], x);
    }
  }

  /** Removal only ever drops entries. */
  lemma {:induction false} RemoveFirstWithin(s: seq<string>, x: string, y: string)
    requires y in RemoveFirst(s, x)
    ensures y in s
    decreases |s|
  {
    if s[0] != x && y != s[0] {
      RemoveFirstWithin(s[1..], x, y);
    }
  }

  /** An entry that differs from every entry of a list without duplicates can be put in front of it. */
  lemma ConsDistinct(a: string, r: seq<string>)
    requires a !in r && NoDuplicates(r)
    ensures NoDuplicates([a] + r)
  {
    forall i, j | 0 <= i < j < |[a] + r| ensures ([a] + r)[i] != ([a] + r)[j] {
      assert ([a] + r)[j] == r[j - 1];
      if i > 0 { assert ([a] + r)[i] == r[i - 1]; }
    }
  }

  /** On a list without duplicates the id is gone afterwards, and there are still no duplicates. */
  lemma {:induction false} RemoveFirstFromDistinct(s: seq<string>, x: string)
    requires NoDuplicates(s)
    ensures x !in RemoveFirst(s, x)
    ensures NoDuplicates(RemoveFirst(s, x))
    decreases |s|
  {
    if s != [] {
      var t := s[1..];
      assert NoDuplicates(t) by {
        forall i, j | 0 <= i < j < |t| ensures t[i] != t[j] {
          assert t[i] == s[i + 1] && t[j] == s[j + 1];
        }
      }
      assert s[0] !in t by {
        forall k | 0 <= k < |t| ensures t[k] != s[0] {
          assert t[k] == s[k + 1];
        }
      }
      if s[0] != x {
        RemoveFirstFromDistinct(t, x);
        var r := RemoveFirst(t, x);
        if s[0] in r {
          RemoveFirstWithin(t, x, s[0]);
        }
        ConsDistinct(s[0], r);
      }
    }
  }

  /** Including an id right after excluding it (when it was not excluded before) restores the list. */
  lemma IncludeUndoesExclude(s: seq<string>, x: string)
    requires x !in s
    ensures RemoveFirst(Excluded(s, x), x) == s
  {
    var t := s + [x];
    RemoveFirstPresent(t, x);
    assert forall k :: 0 <= k < |s| ==> t[k] == s[k] && s[k] != x;
    assert FirstIndex(t, x) == |s|;
    assert t[..|s|] == s;
  }

  /** `config.get('dry_run', True)` flipped and written back. */
  function Toggled(config: Config): (r: Config)
    ensures DryRun(r) == !DryRun(config) && r.dryRun.Some?
    ensures r.(dryRun := config.dryRun) == config
  {
    config.(dryRun := Some(!DryRun(config)))
  }

  /** Toggling twice restores the setting; once the field is present, it restores the whole configuration. */
  lemma ToggleTwice(config: Config)
    ensures DryRun(Toggled(Toggled(config))) == DryRun(config)
    ensures config.dryRun.Some? ==> Toggled(Toggled(config)) == config
  {
  }

  /** `SchedulerManager`: the configuration it edits; each command reports whether it saved it. */
  class SchedulerManager {
    var config: Config

    constructor (config: Config)
      ensures this.config == config
    {
      this.config := config;
    }

    /** `exclude_adset`: append the id unless it is already excluded; only the ad-set list changes. */
    method ExcludeAdset(adsetId: string) returns (saved: bool)
      modifies this
      ensures saved <==> adsetId !in old(config.excludedAdsets)
      ensures config == old(config).(excludedAdsets := Excluded(old(config.excludedAdsets), adsetId))
    {
      saved := false;
      if adsetId !in config.excludedAdsets {
        config := config.(excludedAdsets := config.excludedAdsets + [adsetId]);
        saved := true;
      }
    }

    /** `include_adset`: remove the first occurrence of the id if there is one; only the ad-set list changes. */
    method IncludeAdset(adsetId: string) returns (saved: bool)
      modifies this
      ensures saved <==> adsetId in old(config.excludedAdsets)
      ensures config == old(config).(excludedAdsets := RemoveFirst(old(config.excludedAdsets), adsetId))
    {
      saved := false;
      if adsetId in config.excludedAdsets {
        config := config.(excludedAdsets := RemoveFirst(config.excludedAdsets, adsetId));
        saved := true;
      } else {
        RemoveFirstAbsent(config.excludedAdsets, adsetId);
      }
    }

    /** `exclude_campaign`: append the id unless it is already excluded; only the campaign list changes. */
    method ExcludeCampaign(campaignId: string) returns (saved: bool)
      modifies this
      ensures saved <==> campaignId !in old(config.excludedCampaigns)
      ensures config == old(config).(excludedCampaigns := Excluded(old(config.excludedCampaigns), campaignId))
    {
      saved := false;
      if campaignId !in config.excludedCampaigns {
        config := config.(excludedCampaigns := config.excludedCampaigns + [campaignId]);
        saved := true;
      }
    }

    /** `include_campaign`: remove the first occurrence of the id if there is one; only the campaign list changes. */
    method IncludeCampaign(campaignId: string) returns (saved: bool)
      modifies this
      ensures saved <==> campaignId in old(config.excludedCampaigns)
      ensures config == old(config).(excludedCampaigns := RemoveFirst(old(config.excludedCampaigns), campaignId))
    {
      saved := false;
      if campaignId in config.excludedCampaigns {
        config := config.(excludedCampaigns := RemoveFirst(config.excludedCampaigns, campaignId));
        saved := true;
      } else {
        RemoveFirstAbsent(config.excludedCampaigns, campaignId);
      }
    }

    /** `toggle_dry_run`: flip the switch, a missing one counting as on; it always saves. */
    method ToggleDryRun()
      modifies this
      ensures config == Toggled(old(config))
    {
      var current := DryRun(config);
      config := config.(dryRun := Some(!current));
    }
  }
}
