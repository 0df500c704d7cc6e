/**
 * How the two schedulers relate: they agree on the mode at every hour, the
 * stateful one lowers budgets exactly as the stateless one does at night, and
 * in the daytime it differs from the stateless one only in where the target
 * budgets come from.
 */
module Correspondence {
  import opened Wrappers
  import opened Budget
  import SchedulerV1
  import SchedulerV2

  /** Both schedulers read the same mode off the schedule, and fail on the same schedules. */
  lemma SameMode(config: Config, hour: int)
    ensures SchedulerV1.GetCurrentBudgetAmount(config, hour).None? <==>
      SchedulerV2.GetCurrentBudgetMode(config, hour).None?
    ensures SchedulerV1.GetCurrentBudgetAmount(config, hour).Some? ==>
      var (mode, amount) := SchedulerV1.GetCurrentBudgetAmount(config, hour).value;
      SchedulerV2.GetCurrentBudgetMode(config, hour) == Some(mode)
      && amount == if mode == Nightly then config.nightlyAmount else config.daytimeAmount
  {
  }

  /** A nightly run of the stateful scheduler requests exactly the stateless scheduler's nightly changes. */
  lemma NightlyPlansAgree(s: SchedulerV2.State, es: seq<Entity>, nightlyAmount: int, now: string)
    requires s.lastMode != Some(Nightly)
    ensures SchedulerV2.Reconcile(s, Nightly, es, nightlyAmount, now).1 == TargetChanges(es, nightlyAmount)
  {
  }

  /**
   * Restoring from a store that remembers `target` for every listed entity
   * is setting every listed entity to `target`.
   */
  lemma {:induction false} RestoringUniformStoreIsFixedTarget(es: seq<Entity>, store: map<string, int>, target: int)
    requires forall i :: 0 <= i < |es| ==> es[i].id in store && store[es[i].id] == target
    ensures SchedulerV2.RestoreChanges(es, store) == TargetChanges(es, target)
    decreases |es|
  {
    if es != [] {
      RestoringUniformStoreIsFixedTarget(es[..|es| - 1], store, target);
    }
  }
}
