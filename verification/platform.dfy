/**
 * What the app reads from Android: clocks, usage statistics, permissions and settings.
 * The model never queries the platform; every such value arrives as part of a snapshot.
 */
module Platform {
  import opened Kotlin

  /** One `android.app.usage.UsageStats` record (times in milliseconds). */
  datatype UsageStat = UsageStat(packageName: string, totalTimeInForeground: int, lastTimeUsed: int)

  /** What `usageStatsManager.queryUsageStats` gives: no manager at all, a null list, or records. */
  datatype UsageQuery = NoManager | NullResult | Stats(entries: seq<UsageStat>)

  /**
   * A snapshot of the device at the moment an operation runs:
   * `now` is `System.currentTimeMillis()`, `todayStart` the local midnight that
   * `TimeManager.getTodayStartTime()` computes, `todayUsage` the daily usage query over
   * [todayStart, now], `usagePermission` whether PACKAGE_USAGE_STATS is granted,
   * `ownPackage` the app's own package name and `enabledAccessibilityServices` the
   * `Settings.Secure.ENABLED_ACCESSIBILITY_SERVICES` string (None when it is null).
   */
  datatype Device = Device(
    now: int,
    todayStart: int,
    usagePermission: bool,
    todayUsage: UsageQuery,
    ownPackage: string,
    enabledAccessibilityServices: Option<string>)

  /** `rootInActiveWindow?.packageName`: a package name, none, or an exception while reading it. */
  datatype WindowProbe = WindowPackage(name: Option<string>) | WindowFailure

  /**
   * What the accessibility service's foreground-app probes see at one moment: the active
   * window, the usage query over the last second (a query that throws reads as `NullResult`)
   * and the top running task (`getRunningTasks`, consulted only before Android 5.0).
   */
  datatype Foreground = Foreground(window: WindowProbe, recentUsage: UsageQuery, runningTask: Option<string>)
}
