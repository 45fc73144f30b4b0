/** The admin dashboard: category and item counts loaded from the two stats
    endpoints, kept as one state record. */
module Dashboard {
  import opened Wrappers
  import opened Seqs
  import opened Gateway

  /** An entry of the category stats list; only its status is read. */
  datatype CategoryStat = CategoryStat(status: string)

  /** The item stats' `overview`. */
  datatype Overview = Overview(total: nat, active: nat, draft: nat)

  datatype CategoryCounts = CategoryCounts(total: nat, active: nat)

  /** `featured` is in the initial record only; a successful load drops it. */
  datatype ItemCounts = ItemCounts(total: nat, active: nat, draft: nat, featured: Option<nat>)

  /** The `stats` state record. */
  datatype Stats = Stats(categories: CategoryCounts, items: ItemCounts, loading: bool, error: Option<string>)

  const InitialStats: Stats := Stats(CategoryCounts(0, 0), ItemCounts(0, 0, 0, Some(0)), true, None)

  /** How `Promise.all` over the two requests settles: both envelopes, or the
      reason of a rejection. */
  datatype Settled = Both(categoryStats: Envelope<seq<CategoryStat>>, itemStats: Envelope<Overview>)
                   | Rejected(reason: Exception)

  predicate IsActive(s: CategoryStat)
  {
    s.status == "active"
  }

  /** The category counts: the length of the list and the number of active entries. */
  function CategoryCountsOf(stats: seq<CategoryStat>): (c: CategoryCounts)
    ensures c.total == |stats|
    ensures c.active == Count(stats, IsActive)
    ensures c.active <= c.total
  {
    CategoryCounts(|stats|, Count(stats, IsActive))
  }

  /** Active and non-active entries together make up the total. */
  lemma ActivePlusInactive(stats: seq<CategoryStat>)
    ensures CategoryCountsOf(stats).active + Count(stats, (s: CategoryStat) => !IsActive(s)) == |stats|
  {
    CountComplement(stats, IsActive, (s: CategoryStat) => !IsActive(s));
  }

  /** The message the `catch` stores: an `Error`'s own message, else a fixed text. */
  function CaughtMessage(e: Exception): (m: string)
    ensures e.Error? ==> m == e.message
    ensures e.NonError? ==> m == "Failed to load stats"
  {
    match e
    case Error(msg) => msg
    case NonError => "Failed to load stats"
  }

  /** The page's state. */
  class DashboardView {
    var stats: Stats

    constructor ()
      ensures stats == InitialStats
    {
      stats := InitialStats;
    }

    /** `fetchStats`. With both envelopes successful, the counts are read (a
        missing `stats` or `overview` throws a `TypeError`) and replace the whole
        record; with either refused nothing changes, so `loading` stays as it was;
        a throw keeps the counts and records the message. */
    method FetchStats(settled: Settled)
      modifies this
      ensures settled.Both? && settled.categoryStats.success && settled.itemStats.success
              && Required(settled.categoryStats.data).Value? && Required(settled.itemStats.data).Value?
              ==> var overview := Required(settled.itemStats.data).value;
                  stats == Stats(CategoryCountsOf(Required(settled.categoryStats.data).value),
                                 ItemCounts(overview.total, overview.active, overview.draft, None),
                                 false, None)
      ensures settled.Both? && settled.categoryStats.success && settled.itemStats.success
              && !(Required(settled.categoryStats.data).Value? && Required(settled.itemStats.data).Value?)
              ==> stats == old(stats).(loading := false, error := Some(TypeErrorText))
      ensures settled.Both? && !(settled.categoryStats.success && settled.itemStats.success)
              ==> stats == old(stats)
      ensures settled.Rejected?
              ==> stats == old(stats).(loading := false, error := Some(CaughtMessage(settled.reason)))
    {
      match settled {
        case Rejected(reason) =>
          stats := stats.(loading := false, error := Some(CaughtMessage(reason)));
        case Both(categoryStats, itemStats) =>
          if categoryStats.success && itemStats.success {
            var list := Required(categoryStats.data);
            var overview := Required(itemStats.data);
            if list.TypeError? || overview.TypeError? {
              stats := stats.(loading := false, error := Some(CaughtMessage(Error(TypeErrorText))));
            } else {
              var o := overview.value;
              stats := Stats(CategoryCountsOf(list.value), ItemCounts(o.total, o.active, o.draft, None), false, None);
            }
          }
      }
    }
  }
}
