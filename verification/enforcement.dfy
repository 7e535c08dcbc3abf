/**
 * The enforcement decisions of the accessibility service (ScreenTimeAccessibilityService.kt):
 * which apps count as system apps, which app is in the foreground, when to send the child
 * home, and the 500 ms debounce between two blocks.
 */
module Enforcement {
  import opened Kotlin
  import opened Platform
  import opened Repository
  import UsageStats

  /** Two blocks closer together than this are one block. */
  const MIN_BLOCK_INTERVAL_MS: int := 500

  /** The service's class name, as it appears in the enabled-services setting. */
  const SERVICE_CLASS_NAME: string := "uk.telegramgames.kidlock.ScreenTimeAccessibilityService"

  /** `isSystemPackage`: launchers and system settings, which are never sent home. */
  predicate IsSystemPackage(packageName: string)
  {
    || StartsWith(packageName, "com.android")
    || StartsWith(packageName, "android")
    || packageName == "com.google.android.tv.settings"
    || packageName == "com.google.android.leanbacklauncher"
  }

  /** Which names are system packages: the two prefixes and the two listed TV packages, and not the app's own. */
  lemma SystemPackageCases()
    ensures IsSystemPackage("com.android.settings") && IsSystemPackage("android")
    ensures IsSystemPackage("com.google.android.tv.settings") && IsSystemPackage("com.google.android.leanbacklauncher")
    ensures !IsSystemPackage("uk.telegramgames.kidlock")
  {
    assert "com.android.settings"[..11] == "com.android";
    assert "uk.telegramgames.kidlock"[..7][0] != "android"[0];
    assert "uk.telegramgames.kidlock"[..11][0] != "com.android"[0];
  }

  /** `t` occurs in `s` at position `i`. */
  predicate OccursAt(s: string, t: string, i: int)
  {
    0 <= i && i + |t| <= |s| && s[i..i + |t|] == t
  }

  /** Dropping the first character of `s` shifts every occurrence one place left. */
  lemma OccursShift(s: string, t: string, i: int)
    requires s != [] && i >= 1
    ensures OccursAt(s, t, i) <==> OccursAt(s[1..], t, i - 1)
  {
    if i + |t| <= |s| {
      assert s[1..][i - 1..] == s[i..];
      assert s[i..i + |t|] == s[1..][i - 1..i - 1 + |t|];
    }
  }

  /** `s.contains(t)` */
  function Contains(s: string, t: string): (r: bool)
    ensures r <==> exists i :: OccursAt(s, t, i)
    decreases |s|
  {
    if |t| > |s| then false
    else if s[..|t|] == t then assert OccursAt(s, t, 0); true
    else
      var rest := Contains(s[1..], t);
      assert rest <==> exists i :: OccursAt(s, t, i) by {
        if rest {
          var k :| OccursAt(s[1..], t, k);
          OccursShift(s, t, k + 1);
        } else {
          forall i | OccursAt(s, t, i) ensures false {
            OccursShift(s, t, i);
          }
        }
      }
      rest
  }

  /** `isServiceEnabled`: the setting names "<package>/<service class>"; a null setting means disabled. */
  function IsServiceEnabled(enabledServices: Option<string>, ownPackage: string): (r: bool)
    ensures r <==> enabledServices.Some? && exists i :: OccursAt(enabledServices.value, ownPackage + "/" + SERVICE_CLASS_NAME, i)
  {
    match enabledServices
    case None => false
    case Some(s) => Contains(s, ownPackage + "/" + SERVICE_CLASS_NAME)
  }

  /** The index of the record `getCurrentPackageFromUsageStats` keeps: the latest use, the earliest record on ties. */
  function MostRecentIndex(entries: seq<UsageStat>): (k: nat)
    requires entries != []
    ensures k < |entries|
    ensures forall j :: 0 <= j < |entries| ==> entries[j].lastTimeUsed <= entries[k].lastTimeUsed
    ensures forall j :: 0 <= j < k ==> entries[j].lastTimeUsed < entries[k].lastTimeUsed
    decreases |entries|
  {
    if |entries| == 1 then 0
    else
      var k := MostRecentIndex(entries[..|entries| - 1]);
      if entries[|entries| - 1].lastTimeUsed > entries[k].lastTimeUsed then |entries| - 1 else k
  }

  /** The package `getCurrentPackageFromUsageStats` reports: none without a manager, a result or a record. */
  function MostRecentPackage(q: UsageQuery): Option<string>
  {
    if q.Stats? && q.entries != [] then Some(q.entries[MostRecentIndex(q.entries)].packageName) else None
  }

  /** `getCurrentPackageFromUsageStats`: the loop that keeps the most recently used record. */
  method CurrentPackageFromUsageStats(q: UsageQuery) returns (r: Option<string>)
    ensures r == MostRecentPackage(q)
    ensures r.Some? <==> q.Stats? && q.entries != []
  {
    if !q.Stats? {
      return None;
    }
    var stats := q.entries;
    var mostRecent: Option<UsageStat> := None;
    ghost var k := 0;
    for i := 0 to |stats|
      invariant i == 0 <==> mostRecent.None?
      invariant i > 0 ==> k == MostRecentIndex(stats[..i]) && mostRecent == Some(stats[k])
    {
      assert stats[..i + 1][..i] == stats[..i];
      if mostRecent.None? || stats[i].lastTimeUsed > mostRecent.value.lastTimeUsed {
        mostRecent := Some(stats[i]);
        k := i;
      }
    }
    assert stats[..|stats|] == stats;
    if mostRecent.Some? {
      r := Some(mostRecent.value.packageName);
    } else {
      r := None;
    }
  }

  /**
   * `getCurrentPackageName`: the window, then recent usage, then the running task, each only
   * when it names a non-system package; otherwise, or when reading the window throws, the
   * last package seen.
   */
  function CurrentPackageName(f: Foreground, lastKnown: Option<string>): (r: Option<string>)
    ensures r == lastKnown || NamesApp(r)
  {
    match f.window
    case WindowFailure => lastKnown
    case WindowPackage(w) =>
      if w.Some? && !IsSystemPackage(w.value) then w
      else
        var u := MostRecentPackage(f.recentUsage);
        if u.Some? && !IsSystemPackage(u.value) then u
        else if f.runningTask.Some? && !IsSystemPackage(f.runningTask.value) then f.runningTask
        else lastKnown
  }

  /** A probe's answer that `getCurrentPackageName` accepts: a package that is not a system package. */
  predicate NamesApp(probe: Option<string>)
  {
    probe.Some? && !IsSystemPackage(probe.value)
  }

  /**
   * The probes are tried in order (window, recent usage, running task) and the first that names
   * a non-system package wins; the last package seen is the answer only when the window cannot
   * be read or no probe names one.
   */
  lemma CurrentPackageFallback(f: Foreground, lastKnown: Option<string>)
    ensures f.window.WindowFailure? ==> CurrentPackageName(f, lastKnown) == lastKnown
    ensures f.window.WindowPackage? && NamesApp(f.window.name) ==>
              CurrentPackageName(f, lastKnown) == f.window.name
    ensures f.window.WindowPackage? && !NamesApp(f.window.name) && NamesApp(MostRecentPackage(f.recentUsage)) ==>
              CurrentPackageName(f, lastKnown) == MostRecentPackage(f.recentUsage)
    ensures f.window.WindowPackage? && !NamesApp(f.window.name) && !NamesApp(MostRecentPackage(f.recentUsage))
              && NamesApp(f.runningTask) ==>
              CurrentPackageName(f, lastKnown) == f.runningTask
    ensures f.window.WindowPackage? && !NamesApp(f.window.name) && !NamesApp(MostRecentPackage(f.recentUsage))
              && !NamesApp(f.runningTask) ==>
              CurrentPackageName(f, lastKnown) == lastKnown
    ensures CurrentPackageName(f, lastKnown) != lastKnown ==>
              f.window.WindowPackage?
              && (NamesApp(f.window.name) || NamesApp(MostRecentPackage(f.recentUsage)) || NamesApp(f.runningTask))
  {
  }

  /** The system actions the service takes; the model records them instead of performing them. */
  datatype Effect =
    | StartHomeActivity
    | ShowBlockNotification
    | KillBackgroundProcesses(packageName: string)
    | GlobalActionHome
    | ScheduleClearLastKnown

  /** The service's mutable fields and the actions taken so far. */
  datatype MonitorState = MonitorState(lastKnown: Option<string>, lastBlockTime: int, effects: seq<Effect>)

  /** `lastKnownPackageName` is never a system package. */
  predicate Inv(s: MonitorState)
  {
    s.lastKnown.None? || !IsSystemPackage(s.lastKnown.value)
  }

  /** `blockAppLaunch` at time `now`. */
  function Block(s: MonitorState, now: int, f: Foreground, ownPackage: string): MonitorState
  {
    if SubLong(now, s.lastBlockTime) < MIN_BLOCK_INTERVAL_MS then s
    else
      var s1 := s.(lastBlockTime := now);
      if CurrentPackageName(f, s1.lastKnown) == Some(ownPackage) then s1
      else s1.(lastKnown := None, effects := s1.effects + [StartHomeActivity, ShowBlockNotification])
  }

  /** `handleWindowStateChanged` for an event naming `event` (None: the event has no package). */
  function WindowChanged(s: MonitorState, event: Option<string>, hasTime: bool, now: int, f: Foreground, ownPackage: string): MonitorState
  {
    match event
    case None => s
    case Some(packageName) =>
      if packageName == ownPackage then s.(lastKnown := Some(packageName))
      else if IsSystemPackage(packageName) then s.(lastKnown := None)
      else
        var s1 := s.(lastKnown := Some(packageName));
        if hasTime then s1
        else
          var s2 := Block(s1, now, f, ownPackage);
          s2.(effects := s2.effects + [KillBackgroundProcesses(packageName)])
  }

  /** `checkAndMinimizeApps`, one tick of the periodic check. */
  function PeriodicCheck(s: MonitorState, hasTime: bool, f: Foreground, ownPackage: string): MonitorState
  {
    if hasTime then s
    else
      match CurrentPackageName(f, s.lastKnown)
      case None => s
      case Some(current) =>
        if current == ownPackage then s
        else if IsSystemPackage(current) then s.(lastKnown := None)
        else s.(effects := s.effects + [KillBackgroundProcesses(current), GlobalActionHome, ScheduleClearLastKnown])
  }

  /** Every transition keeps system packages out of `lastKnownPackageName`. */
  lemma InvPreserved(s: MonitorState, event: Option<string>, hasTime: bool, now: int, f: Foreground, ownPackage: string)
    requires Inv(s) && !IsSystemPackage(ownPackage)
    ensures Inv(Block(s, now, f, ownPackage))
    ensures Inv(WindowChanged(s, event, hasTime, now, f, ownPackage))
    ensures Inv(PeriodicCheck(s, hasTime, f, ownPackage))
    ensures Inv(s.(lastKnown := None))
  {
  }

  /** While time remains the service takes no action at all. */
  lemma NoActionWithTimeLeft(s: MonitorState, event: Option<string>, now: int, f: Foreground, ownPackage: string)
    ensures WindowChanged(s, event, true, now, f, ownPackage).effects == s.effects
    ensures WindowChanged(s, event, true, now, f, ownPackage).lastBlockTime == s.lastBlockTime
    ensures PeriodicCheck(s, true, f, ownPackage) == s
  {
  }

  /** The app's own window is never blocked and becomes the last known package. */
  lemma OwnWindowNeverBlocked(s: MonitorState, hasTime: bool, now: int, f: Foreground, ownPackage: string)
    ensures WindowChanged(s, Some(ownPackage), hasTime, now, f, ownPackage) == s.(lastKnown := Some(ownPackage))
  {
  }

  /** A system window (the launcher) clears the last known package and is never blocked. */
  lemma SystemWindowNeverBlocked(s: MonitorState, packageName: string, hasTime: bool, now: int, f: Foreground, ownPackage: string)
    requires packageName != ownPackage && IsSystemPackage(packageName)
    ensures WindowChanged(s, Some(packageName), hasTime, now, f, ownPackage) == s.(lastKnown := None)
  {
  }

  /** The actions appended after `before` kill neither the app itself nor a system package. */
  predicate KillsOnlyOthers(before: seq<Effect>, after: seq<Effect>, ownPackage: string)
  {
    && before <= after
    && forall e :: e in after[|before|..] && e.KillBackgroundProcesses? ==>
         e.packageName != ownPackage && !IsSystemPackage(e.packageName)
  }

  lemma WindowChangedKillsOnlyOthers(s: MonitorState, event: Option<string>, hasTime: bool, now: int, f: Foreground, ownPackage: string)
    ensures KillsOnlyOthers(s.effects, WindowChanged(s, event, hasTime, now, f, ownPackage).effects, ownPackage)
  {
    var t := WindowChanged(s, event, hasTime, now, f, ownPackage);
    if event.Some? && event.value != ownPackage && !IsSystemPackage(event.value) && !hasTime {
      var s2 := Block(s.(lastKnown := event), now, f, ownPackage);
      var added := s2.effects[|s.effects|..];
      assert s2.effects == s.effects + added;
      assert added == [] || added == [StartHomeActivity, ShowBlockNotification];
      assert t.effects == s.effects + (added + [KillBackgroundProcesses(event.value)]);
      assert t.effects[|s.effects|..] == added + [KillBackgroundProcesses(event.value)];
    } else {
      assert t.effects == s.effects;
    }
  }

  lemma PeriodicCheckKillsOnlyOthers(s: MonitorState, hasTime: bool, f: Foreground, ownPackage: string)
    ensures KillsOnlyOthers(s.effects, PeriodicCheck(s, hasTime, f, ownPackage).effects, ownPackage)
  {
    var u := PeriodicCheck(s, hasTime, f, ownPackage);
    if u.effects != s.effects {
      var current := CurrentPackageName(f, s.lastKnown).value;
      assert u.effects[|s.effects|..] == [KillBackgroundProcesses(current), GlobalActionHome, ScheduleClearLastKnown];
    }
  }

  /** The only packages the service ever kills are other apps, never itself or a system app. */
  lemma KillsOnlyOtherApps(s: MonitorState, event: Option<string>, hasTime: bool, now: int, f: Foreground, ownPackage: string)
    ensures KillsOnlyOthers(s.effects, WindowChanged(s, event, hasTime, now, f, ownPackage).effects, ownPackage)
    ensures KillsOnlyOthers(s.effects, PeriodicCheck(s, hasTime, f, ownPackage).effects, ownPackage)
  {
    WindowChangedKillsOnlyOthers(s, event, hasTime, now, f, ownPackage);
    PeriodicCheckKillsOnlyOthers(s, hasTime, f, ownPackage);
  }

  /**
   * The debounce: within 500 ms of the last block nothing happens, not even to `lastBlockTime`;
   * otherwise the block time becomes `now`.
   */
  lemma BlockDebounce(s: MonitorState, now: int, f: Foreground, ownPackage: string)
    requires IsLong(now) && 0 <= s.lastBlockTime <= now
    ensures now - s.lastBlockTime < MIN_BLOCK_INTERVAL_MS ==> Block(s, now, f, ownPackage) == s
    ensures now - s.lastBlockTime >= MIN_BLOCK_INTERVAL_MS ==> Block(s, now, f, ownPackage).lastBlockTime == now
  {
  }

  /** Two blocks less than 500 ms apart send the child home at most once. */
  lemma AtMostOneBlockPerInterval(s: MonitorState, now: int, later: int, f: Foreground, g: Foreground, ownPackage: string)
    requires IsLong(now) && IsLong(later) && now <= later < now + MIN_BLOCK_INTERVAL_MS
    requires 0 <= s.lastBlockTime <= now
    requires Block(s, now, f, ownPackage) != s
    ensures var t := Block(s, now, f, ownPackage);
      Block(t, later, g, ownPackage) == t
  {
  }

  /** The service: its two volatile fields, the recorded actions and the repository it reads. */
  class ScreenTimeMonitor {
    const repo: DataRepository
    const ownPackage: string
    var lastKnownPackageName: Option<string>
    var lastBlockTime: int
    var effects: seq<Effect>

    function State(): MonitorState
      reads this
    {
      MonitorState(lastKnownPackageName, lastBlockTime, effects)
    }

    ghost predicate Valid()
      reads this
    {
      Inv(State()) && !IsSystemPackage(ownPackage)
    }

    /** `onServiceConnected` (the notification channel and the periodic tick are scheduling, left out). */
    constructor (r: DataRepository, own: string)
      requires !IsSystemPackage(own)
      ensures Valid() && repo == r && ownPackage == own
      ensures State() == MonitorState(None, 0, [])
    {
      repo := r;
      ownPackage := own;
      lastKnownPackageName := None;
      lastBlockTime := 0;
      effects := [];
    }

    method GetCurrentPackageName(f: Foreground) returns (r: Option<string>)
      ensures r == CurrentPackageName(f, lastKnownPackageName)
    {
      match f.window {
        case WindowFailure =>
          return lastKnownPackageName;
        case WindowPackage(fromAccessibility) =>
          if fromAccessibility.Some? && !IsSystemPackage(fromAccessibility.value) {
            return fromAccessibility;
          }
      }
      var fromUsageStats := CurrentPackageFromUsageStats(f.recentUsage);
      if fromUsageStats.Some? && !IsSystemPackage(fromUsageStats.value) {
        return fromUsageStats;
      }
      var fromActivityManager := f.runningTask;
      if fromActivityManager.Some? && !IsSystemPackage(fromActivityManager.value) {
        return fromActivityManager;
      }
      return lastKnownPackageName;
    }

    method BlockAppLaunch(now: int, f: Foreground)
      requires Valid()
      modifies this
      ensures Valid()
      ensures State() == Block(old(State()), now, f, ownPackage)
    {
      if SubLong(now, lastBlockTime) < MIN_BLOCK_INTERVAL_MS {
        return;
      }
      lastBlockTime := now;
      var currentPackage := GetCurrentPackageName(f);
      if currentPackage == Some(ownPackage) {
        return;
      }
      lastKnownPackageName := None;
      effects := effects + [StartHomeActivity];
      effects := effects + [ShowBlockNotification];
    }

    /** `forceCloseApp`: failures of the kill are ignored. */
    method ForceCloseApp(packageName: string)
      modifies this
      ensures State() == old(State()).(effects := old(effects) + [KillBackgroundProcesses(packageName)])
    {
      effects := effects + [KillBackgroundProcesses(packageName)];
    }

    /** `minimizeCurrentApp`: the HOME action, and a delayed clear of the last known package. */
    method MinimizeCurrentApp()
      modifies this
      ensures State() == old(State()).(effects := old(effects) + [GlobalActionHome, ScheduleClearLastKnown])
    {
      effects := effects + [GlobalActionHome, ScheduleClearLastKnown];
    }

    /** The delayed `lastKnownPackageName = null` that `minimizeCurrentApp` schedules. */
    method ClearLastKnown()
      requires Valid()
      modifies this
      ensures Valid() && State() == old(State()).(lastKnown := None)
    {
      lastKnownPackageName := None;
    }

    method HandleWindowStateChanged(event: Option<string>, d: Device, f: Foreground)
      requires Valid() && d.ownPackage == ownPackage
      modifies this
      ensures Valid()
      ensures State() == WindowChanged(old(State()), event,
                UsageStats.DeviceRemainingMinutes(d, DailyLimit(repo.prefs), AddedTime(repo.prefs)) > 0,
                d.now, f, ownPackage)
    {
      if event.None? {
        return;
      }
      var packageName := event.value;
      if packageName == ownPackage {
        lastKnownPackageName := Some(packageName);
        return;
      }
      if IsSystemPackage(packageName) {
        lastKnownPackageName := None;
        return;
      }
      lastKnownPackageName := Some(packageName);
      var dailyLimit := DailyLimit(repo.prefs);
      var addedTime := AddedTime(repo.prefs);
      var hasTime := UsageStats.CheckRemainingTime(d, dailyLimit, addedTime);
      if !hasTime {
        BlockAppLaunch(d.now, f);
        ForceCloseApp(packageName);
      }
    }

    method CheckAndMinimizeApps(d: Device, f: Foreground)
      requires Valid() && d.ownPackage == ownPackage
      modifies this
      ensures Valid()
      ensures State() == PeriodicCheck(old(State()),
                UsageStats.DeviceRemainingMinutes(d, DailyLimit(repo.prefs), AddedTime(repo.prefs)) > 0,
                f, ownPackage)
    {
      var dailyLimit := DailyLimit(repo.prefs);
      var addedTime := AddedTime(repo.prefs);
      var hasTime := UsageStats.CheckRemainingTime(d, dailyLimit, addedTime);
      if hasTime {
        return;
      }
      var currentPackageName := GetCurrentPackageName(f);
      if currentPackageName.None? {
        return;
      }
      var current := currentPackageName.value;
      if current == ownPackage {
        return;
      }
      if IsSystemPackage(current) {
        lastKnownPackageName := None;
        return;
      }
      ForceCloseApp(current);
      MinimizeCurrentApp();
    }
  }
}
