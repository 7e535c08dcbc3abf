/** Today's usage and the remaining allowance (UsageStatsHelper.kt). */
module UsageStats {
  import opened Kotlin
  import opened Platform
  import TimeManager

  /** What one record adds to today's total: nothing for the app's own package. */
  function Contribution(s: UsageStat, ownPackage: string): int
  {
    if s.packageName != ownPackage then s.totalTimeInForeground else 0
  }

  /** The `Long` accumulator of the loop in `getTodayUsageTimeMillis`, after the given records. */
  function ForegroundSum(entries: seq<UsageStat>, ownPackage: string): int
    decreases |entries|
  {
    if entries == [] then 0
    else
      var last := entries[|entries| - 1];
      var before := ForegroundSum(entries[..|entries| - 1], ownPackage);
      if last.packageName != ownPackage then AddLong(before, last.totalTimeInForeground) else before
  }

  /** The same total in unbounded arithmetic: the reference the `Long` sum is compared with. */
  ghost function ExactSum(entries: seq<UsageStat>, ownPackage: string): int
  {
    if entries == [] then 0 else Contribution(entries[0], ownPackage) + ExactSum(entries[1..], ownPackage)
  }

  /** Today's usage in milliseconds: 0 without a usage manager or when the query returns null. */
  function TodayUsageMillis(q: UsageQuery, ownPackage: string): int
  {
    match q
    case NoManager => 0
    case NullResult => 0
    case Stats(entries) => ForegroundSum(entries, ownPackage)
  }

  /** `getTodayUsageTimeMillis`: the summing loop. */
  method GetTodayUsageTimeMillis(q: UsageQuery, ownPackage: string) returns (totalTime: int)
    ensures totalTime == TodayUsageMillis(q, ownPackage)
    ensures q.NoManager? || q.NullResult? ==> totalTime == 0
  {
    if q.NoManager? || q.NullResult? {
      return 0;
    }
    var entries := q.entries;
    totalTime := 0;
    for i := 0 to |entries|
      invariant totalTime == ForegroundSum(entries[..i], ownPackage)
    {
      assert entries[..i + 1][..i] == entries[..i];
      if entries[i].packageName != ownPackage {
        totalTime := AddLong(totalTime, entries[i].totalTimeInForeground);
      }
    }
    assert entries[..|entries|] == entries;
  }

  lemma {:induction false} ExactSumSnoc(entries: seq<UsageStat>, s: UsageStat, ownPackage: string)
    ensures ExactSum(entries + [s], ownPackage) == ExactSum(entries, ownPackage) + Contribution(s, ownPackage)
    decreases |entries|
  {
    if entries == [] {
      assert [s][1..] == [];
    } else {
      assert (entries + [s])[1..] == entries[1..] + [s];
      ExactSumSnoc(entries[1..], s, ownPackage);
    }
  }

  lemma {:induction false} ExactSumNonNegative(entries: seq<UsageStat>, ownPackage: string)
    requires forall i :: 0 <= i < |entries| ==> entries[i].totalTimeInForeground >= 0
    ensures ExactSum(entries, ownPackage) >= 0
    decreases |entries|
  {
    if entries != [] {
      ExactSumNonNegative(entries[1..], ownPackage);
    }
  }

  /**
   * With non-negative foreground times whose true total fits a `Long`, the loop's total is
   * exactly the sum over every record of another package.
   */
  lemma {:induction false} ForegroundSumExact(entries: seq<UsageStat>, ownPackage: string)
    requires forall i :: 0 <= i < |entries| ==> entries[i].totalTimeInForeground >= 0
    requires ExactSum(entries, ownPackage) <= LONG_MAX
    ensures ForegroundSum(entries, ownPackage) == ExactSum(entries, ownPackage)
    decreases |entries|
  {
    if entries != [] {
      var init, last := entries[..|entries| - 1], entries[|entries| - 1];
      assert entries == init + [last];
      ExactSumSnoc(init, last, ownPackage);
      ExactSumNonNegative(init, ownPackage);
      ForegroundSumExact(init, ownPackage);
    }
  }

  /** A record of the app's own package, wherever it stands, leaves today's total unchanged. */
  lemma {:induction false} OwnPackageIgnored(entries: seq<UsageStat>, i: nat, s: UsageStat, ownPackage: string)
    requires i <= |entries|
    requires s.packageName == ownPackage
    ensures ForegroundSum(entries[..i] + [s] + entries[i..], ownPackage) == ForegroundSum(entries, ownPackage)
    decreases |entries|
  {
    var t := entries[..i] + [s] + entries[i..];
    if i == |entries| {
      assert t[..|t| - 1] == entries;
    } else {
      var init := entries[..|entries| - 1];
      assert t[..|t| - 1] == init[..i] + [s] + init[i..];
      assert t[|t| - 1] == entries[|entries| - 1];
      OwnPackageIgnored(init, i, s, ownPackage);
    }
  }

  /** What is left of `limit + added` after `usedMinutes`, in `Int` arithmetic, never below 0. */
  function Allowance(dailyLimitMinutes: int, addedTimeMinutes: int, usedMinutes: int): int
  {
    CoerceAtLeast(SubInt(AddInt(dailyLimitMinutes, addedTimeMinutes), usedMinutes), 0)
  }

  /**
   * `getRemainingTimeMinutes`: 0 without the usage permission (fail-safe), otherwise the
   * allowance left after today's usage, rounded down to whole minutes.
   */
  function RemainingMinutes(hasPermission: bool, dailyLimitMinutes: int, addedTimeMinutes: int, usedMillis: int): (r: int)
    ensures r >= 0 && IsInt(r)
    ensures !hasPermission ==> r == 0
  {
    if !hasPermission then 0
    else Allowance(dailyLimitMinutes, addedTimeMinutes, TimeManager.MillisToMinutes(usedMillis))
  }

  /** `hasRemainingTime` */
  predicate HasRemainingTime(hasPermission: bool, dailyLimitMinutes: int, addedTimeMinutes: int, usedMillis: int)
  {
    RemainingMinutes(hasPermission, dailyLimitMinutes, addedTimeMinutes, usedMillis) > 0
  }

  /** The `Int` ranges within which the budget arithmetic does not wrap. */
  predicate NoOverflow(dailyLimitMinutes: int, addedTimeMinutes: int, usedMillis: int)
  {
    && IsInt(dailyLimitMinutes) && IsInt(addedTimeMinutes)
    && 0 <= usedMillis && usedMillis / TimeManager.MILLIS_PER_MINUTE <= INT_MAX
    && IsInt(dailyLimitMinutes + addedTimeMinutes)
    && IsInt(dailyLimitMinutes + addedTimeMinutes - usedMillis / TimeManager.MILLIS_PER_MINUTE)
  }

  /** With the permission and no overflow, remaining = max(0, limit + added - used minutes). */
  lemma RemainingExact(dailyLimitMinutes: int, addedTimeMinutes: int, usedMillis: int)
    requires NoOverflow(dailyLimitMinutes, addedTimeMinutes, usedMillis)
    ensures var exact := dailyLimitMinutes + addedTimeMinutes - usedMillis / TimeManager.MILLIS_PER_MINUTE;
      RemainingMinutes(true, dailyLimitMinutes, addedTimeMinutes, usedMillis) == if exact < 0 then 0 else exact
  {
  }

  /** There is time left exactly when the permission is held and the allowance exceeds the used minutes. */
  lemma HasRemainingTimeIff(hasPermission: bool, dailyLimitMinutes: int, addedTimeMinutes: int, usedMillis: int)
    requires NoOverflow(dailyLimitMinutes, addedTimeMinutes, usedMillis)
    ensures HasRemainingTime(hasPermission, dailyLimitMinutes, addedTimeMinutes, usedMillis)
        <==> hasPermission && usedMillis / TimeManager.MILLIS_PER_MINUTE < dailyLimitMinutes + addedTimeMinutes
  {
    if hasPermission {
      RemainingExact(dailyLimitMinutes, addedTimeMinutes, usedMillis);
    }
  }

  /** Remaining time never grows with more usage and never shrinks with more added minutes. */
  lemma RemainingMonotone(p: bool, limit: int, added: int, added': int, used: int, used': int)
    requires NoOverflow(limit, added, used) && NoOverflow(limit, added', used')
    requires added <= added' && used' <= used
    ensures RemainingMinutes(p, limit, added, used) <= RemainingMinutes(p, limit, added', used')
  {
    if p {
      RemainingExact(limit, added, used);
      RemainingExact(limit, added', used');
      TimeManager.MillisToMinutesMonotone(used', used);
    }
  }

  /** What `getRemainingTimeMinutes(limit, added)` returns on the device `d`. */
  function DeviceRemainingMinutes(d: Device, dailyLimitMinutes: int, addedTimeMinutes: int): int
  {
    RemainingMinutes(d.usagePermission, dailyLimitMinutes, addedTimeMinutes, TodayUsageMillis(d.todayUsage, d.ownPackage))
  }

  /** `getRemainingTimeMinutes` as the view models call it, querying today's usage first. */
  method GetRemainingTimeMinutes(d: Device, dailyLimitMinutes: int, addedTimeMinutes: int) returns (r: int)
    ensures r == DeviceRemainingMinutes(d, dailyLimitMinutes, addedTimeMinutes)
    ensures r >= 0 && (!d.usagePermission ==> r == 0)
  {
    if !d.usagePermission {
      return 0;
    }
    var usedMillis := GetTodayUsageTimeMillis(d.todayUsage, d.ownPackage);
    var usedMinutes := TimeManager.MillisToMinutes(usedMillis);
    r := CoerceAtLeast(SubInt(AddInt(dailyLimitMinutes, addedTimeMinutes), usedMinutes), 0);
  }

  /** `hasRemainingTime` as the accessibility service calls it. */
  method CheckRemainingTime(d: Device, dailyLimitMinutes: int, addedTimeMinutes: int) returns (hasTime: bool)
    ensures hasTime == (DeviceRemainingMinutes(d, dailyLimitMinutes, addedTimeMinutes) > 0)
    ensures hasTime ==> d.usagePermission
  {
    var r := GetRemainingTimeMinutes(d, dailyLimitMinutes, addedTimeMinutes);
    hasTime := r > 0;
  }
}
