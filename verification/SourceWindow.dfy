/** How many archive bytes the provider keeps in memory, and how many block reads run at once.

    The arithmetic saturates at 64 bits; the bounds hold in spite of that. */
module SourceWindow {
  import opened Basics

  const MIB: nat := 1024 * 1024
  const DEFAULT_SOURCE_BLOCK_BYTES: nat := 8 * 1024 * 1024
  const ADAPTIVE_CACHE_BASE_OVERHEAD: nat := 64 * 1024 * 1024
  const ADAPTIVE_CACHE_WORKER_OVERHEAD: nat := 12 * 1024 * 1024
  const ADAPTIVE_CACHE_FILE_OVERHEAD: nat := 2 * 1024
  const ADAPTIVE_CACHE_LARGE_THRESHOLD: nat := 512 * 1024 * 1024
  const ADAPTIVE_CACHE_LARGE_RSS_SLACK: nat := 384 * 1024 * 1024
  const ADAPTIVE_CACHE_MAX_WINDOW_BYTES: nat := 512 * 1024 * 1024
  const ADAPTIVE_SOURCE_GET_MEMORY_STEP_MB: nat := 256
  const ADAPTIVE_SOURCE_MAX_GET_CONCURRENCY: nat := 8

  type u64 = n: nat | n <= U64_MAX

  function SaturatingSub(a: u64, b: u64): u64 {
    if a < b then 0 else a - b
  }

  function SaturatingMul(a: u64, b: u64): u64 {
    var product := a as int * b as int;
    if product > U64_MAX then U64_MAX else if product < 0 then 0 else product
  }

  function AtLeast(a: u64, b: u64): u64 {
    if a < b then b else a
  }

  function AtMost(a: u64, b: u64): u64 {
    if a < b then a else b
  }

  function AdaptiveSourceGetConcurrency(memoryMb: u64): u64 {
    AtMost(AtLeast(memoryMb / ADAPTIVE_SOURCE_GET_MEMORY_STEP_MB, 1), ADAPTIVE_SOURCE_MAX_GET_CONCURRENCY)
  }

  /** Memory that is set aside for the process, its workers, its file plans and blocks in flight. */
  function Reserved(concurrency: u64, files: u64, block: u64, gets: u64): u64 {
    SaturatingAdd(
      SaturatingAdd(
        SaturatingAdd(ADAPTIVE_CACHE_BASE_OVERHEAD, SaturatingMul(AtLeast(concurrency, 1), ADAPTIVE_CACHE_WORKER_OVERHEAD)),
        SaturatingMul(files, ADAPTIVE_CACHE_FILE_OVERHEAD)),
      SaturatingMul(AtLeast(gets, 1), block))
  }

  /** The least that keeps all block reads fed. */
  function MinimumFeed(zip: u64, block: u64, gets: u64): u64 {
    AtMost(SaturatingMul(AtLeast(block, 1), AtLeast(gets, 1)), AtLeast(zip, 1))
  }

  function AdaptiveSourceWindow(memoryMb: u64, zip: u64, concurrency: u64, files: u64, block: u64, gets: u64): u64 {
    if memoryMb * MIB > U64_MAX then zip
    else
      var capacity := AtMost(SaturatingSub(memoryMb * MIB, Reserved(concurrency, files, block, gets)), zip);
      var trimmed :=
        if capacity > ADAPTIVE_CACHE_LARGE_THRESHOLD then SaturatingSub(capacity, ADAPTIVE_CACHE_LARGE_RSS_SLACK) else capacity;
      AtLeast(AtMost(trimmed, ADAPTIVE_CACHE_MAX_WINDOW_BYTES), MinimumFeed(zip, block, gets))
  }

  /** An explicit window is taken as it is; otherwise the window is derived from the memory budget. */
  function SourceWindowForArchive(explicit: Option<u64>, budget: u64, zip: u64, concurrency: u64, files: u64,
                                  block: u64, gets: u64): u64 {
    match explicit
    case Some(window) => window
    case None => AdaptiveSourceWindow(AtLeast(budget / MIB, 1), zip, concurrency, files, block, gets)
  }

  lemma FeedIsExact(zip: u64, block: u64, gets: u64, budget: u64)
    requires block >= 1 && gets >= 1 && block * gets <= budget
    ensures MinimumFeed(zip, block, gets) == Min(block * gets, Max(zip, 1))
  {
  }

  /** The derived window fits the budget, is no larger than the archive or the cap needs, and is
      large enough to keep every block read fed. */
  lemma DerivedWindowFits(budget: u64, zip: u64, concurrency: u64, files: u64, block: u64, gets: u64)
    requires block >= 1 && gets >= 1 && block * gets <= budget
    ensures var window := SourceWindowForArchive(None, budget, zip, concurrency, files, block, gets);
      && window <= budget
      && window <= Max(zip, 1)
      && window <= Max(ADAPTIVE_CACHE_MAX_WINDOW_BYTES, block * gets)
      && window >= Min(block * gets, Max(zip, 1))
  {
    FeedIsExact(zip, block, gets, budget);
    var mb := budget / MIB;
    assert mb * MIB <= budget;
    if mb == 0 {
      SmallBudgetLeavesNothing(zip, concurrency, files, block, gets);
    } else {
      ReservedIsPositive(concurrency, files, block, gets);
    }
  }

  lemma ReservedIsPositive(concurrency: u64, files: u64, block: u64, gets: u64)
    ensures Reserved(concurrency, files, block, gets) >= ADAPTIVE_CACHE_BASE_OVERHEAD
  {
  }

  /** Below one mebibyte of budget the derived capacity is zero and only the minimum remains. */
  lemma SmallBudgetLeavesNothing(zip: u64, concurrency: u64, files: u64, block: u64, gets: u64)
    ensures AdaptiveSourceWindow(1, zip, concurrency, files, block, gets) == MinimumFeed(zip, block, gets)
  {
    ReservedIsPositive(concurrency, files, block, gets);
  }

  /** What is left of the memory beside the process, its workers, file plans and blocks in flight,
      as far as the archive needs it; without any bound on the numbers. */
  function Available(memoryMb: nat, zip: nat, concurrency: nat, files: nat, block: nat, gets: nat): nat {
    Min(Max(memoryMb * MIB - SetAside(concurrency, files, block, gets), 0), zip)
  }

  function SetAside(concurrency: nat, files: nat, block: nat, gets: nat): nat {
    64 * MIB + Max(concurrency, 1) * (12 * MIB) + files * 2048 + Max(gets, 1) * block
  }

  lemma ReservedIsExact(concurrency: u64, files: u64, block: u64, gets: u64)
    ensures Reserved(concurrency, files, block, gets) == Min(SetAside(concurrency, files, block, gets), U64_MAX)
  {
    SaturatedProduct(AtLeast(concurrency, 1), ADAPTIVE_CACHE_WORKER_OVERHEAD);
    SaturatedProduct(files, ADAPTIVE_CACHE_FILE_OVERHEAD);
    SaturatedProduct(AtLeast(gets, 1), block);
  }

  /** The window as exact arithmetic: up to 512 MiB all that is available, above that 384 MiB less
      and at most 512 MiB, and in any case what keeps the block reads fed. */
  function ExactWindow(available: nat, zip: nat, block: nat, gets: nat): nat {
    Max(if available <= 512 * MIB then available else Min(available - 384 * MIB, 512 * MIB),
        Min(Max(block, 1) * Max(gets, 1), Max(zip, 1)))
  }

  lemma SaturatedProduct(a: u64, b: u64)
    ensures SaturatingMul(a, b) == Min(a * b, U64_MAX)
  {
  }

  /** Saturation never changes the window, and an explicit window is taken as it is. */
  lemma WindowIsExact(explicit: Option<u64>, budget: u64, zip: u64, concurrency: u64, files: u64, block: u64, gets: u64)
    ensures SourceWindowForArchive(explicit, budget, zip, concurrency, files, block, gets) ==
              match explicit
              case Some(window) => window
              case None => ExactWindow(Available(Max(budget / MIB, 1), zip, concurrency, files, block, gets), zip, block, gets)
  {
    if explicit.None? {
      var mb := AtLeast(budget / MIB, 1);
      assert mb * MIB <= U64_MAX;
      CapacityIsExact(mb, zip, concurrency, files, block, gets);
      FeedIsTheLeast(zip, block, gets);
    }
  }

  lemma CapacityIsExact(memoryMb: u64, zip: u64, concurrency: u64, files: u64, block: u64, gets: u64)
    requires memoryMb * MIB <= U64_MAX
    ensures AtMost(SaturatingSub(memoryMb * MIB, Reserved(concurrency, files, block, gets)), zip)
         == Available(memoryMb, zip, concurrency, files, block, gets)
  {
    ReservedIsExact(concurrency, files, block, gets);
  }

  lemma FeedIsTheLeast(zip: u64, block: u64, gets: u64)
    ensures MinimumFeed(zip, block, gets) == Min(Max(block, 1) * Max(gets, 1), Max(zip, 1))
  {
    SaturatedProduct(AtLeast(block, 1), AtLeast(gets, 1));
  }

  /** More available memory gives a smaller window exactly when it crosses 512 MiB by less than the
      slack that is then taken off, and the smaller one is above the minimum. */
  lemma WindowFallsExactlyWhen(less: nat, more: nat, zip: nat, block: nat, gets: nat)
    requires less <= more
    ensures ExactWindow(more, zip, block, gets) < ExactWindow(less, zip, block, gets) <==>
              && less <= 512 * MIB < more && more - 384 * MIB < less
              && Min(Max(block, 1) * Max(gets, 1), Max(zip, 1)) < less
  {
  }

  lemma WindowOf(budget: u64, memoryMb: nat, zip: u64, concurrency: u64, block: u64, gets: u64)
    requires budget == memoryMb * MIB && memoryMb >= 1 && SetAside(concurrency, 0, block, gets) <= budget
    ensures SourceWindowForArchive(None, budget, zip, concurrency, 0, block, gets)
         == ExactWindow(Min(budget - SetAside(concurrency, 0, block, gets), zip), zip, block, gets)
  {
    assert budget / MIB == memoryMb;
    WindowIsExact(None, budget, zip, concurrency, 0, block, gets);
  }

  /** For an archive of 1 GiB with 16 transfers and 4 reads of 8 MiB, a budget that grows from 800 to
      896 MiB cuts the window from 512 to 224 MiB. */
  lemma MoreMemorySmallerWindow()
    ensures SourceWindowForArchive(None, 838_860_800, 1_073_741_824, 16, 0, 8_388_608, 4) == 536_870_912
    ensures SourceWindowForArchive(None, 939_524_096, 1_073_741_824, 16, 0, 8_388_608, 4) == 234_881_024
  {
    assert SetAside(16, 0, 8_388_608, 4) == 301_989_888;
    WindowOf(838_860_800, 800, 1_073_741_824, 16, 8_388_608, 4);
    WindowOf(939_524_096, 896, 1_073_741_824, 16, 8_388_608, 4);
  }

  /** With the defaults, all concurrent block reads fit half of any memory of 16 MiB or more. */
  lemma DefaultsFitHalfTheMemory(memoryMb: u64)
    requires memoryMb * MIB <= U64_MAX
    ensures DEFAULT_SOURCE_BLOCK_BYTES * AdaptiveSourceGetConcurrency(memoryMb) <= memoryMb * MIB / 2 <==> memoryMb >= 16
  {
    var slots := memoryMb / ADAPTIVE_SOURCE_GET_MEMORY_STEP_MB;
    assert slots * ADAPTIVE_SOURCE_GET_MEMORY_STEP_MB <= memoryMb;
  }

  /** There are `n` concurrent reads exactly when there is one, or the memory has 256 MB for each of
      up to eight. */
  lemma ConcurrencyIsExact(memoryMb: u64, n: nat)
    ensures n <= AdaptiveSourceGetConcurrency(memoryMb) <==> n <= 1 || (n <= 8 && 256 * n <= memoryMb)
  {
    var slots := memoryMb / ADAPTIVE_SOURCE_GET_MEMORY_STEP_MB;
    assert slots * 256 <= memoryMb < (slots + 1) * 256;
  }

  /** The adaptive concurrency never falls when memory grows, and stays between 1 and 8. */
  lemma ConcurrencyGrowsWithMemory(a: u64, b: u64)
    requires a <= b
    ensures 1 <= AdaptiveSourceGetConcurrency(a) <= AdaptiveSourceGetConcurrency(b) <= ADAPTIVE_SOURCE_MAX_GET_CONCURRENCY
  {
    assert a / ADAPTIVE_SOURCE_GET_MEMORY_STEP_MB <= b / ADAPTIVE_SOURCE_GET_MEMORY_STEP_MB;
  }
}
