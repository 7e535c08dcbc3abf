/**
 * The parent's admin screen (AdminViewModel.kt): the daily limit, code generation and
 * deletion, the PIN, the unlock, and the blocking switch that needs both permissions.
 */
module Admin {
  import opened Kotlin
  import opened Platform
  import opened Repository
  import TimeManager
  import UsageStats
  import Enforcement

  /** `changePin` accepts exactly six digits. */
  const NEW_PIN_LENGTH: int := 6

  /** The code count a request may ask for. */
  const MAX_CODE_COUNT: int := 100

  /** The minutes per code when the caller gives none. */
  const DEFAULT_MINUTES_PER_CODE: int := 30

  /** The messages the admin screen shows, by resource name with their arguments. */
  datatype AdminMessage =
    | LimitNegativeError
    | LimitSet(formatted: TimeManager.TimeText)
    | CodeCountError
    | TimeNegativeError
    | CodesGenerated(count: int, minutesPerCode: int)
    | CodeDeleted
    | PinFormatError
    | PinChanged
    | TimeUnlocked
    | AutostartEnabledMessage
    | AutostartDisabledMessage
    | BlockingRequiresPermissions
    | BlockingEnabledMessage
    | BlockingDisabledMessage

  /** Both permissions blocking needs: the accessibility service and usage access. */
  function PermissionsGranted(d: Device): bool
  {
    Enforcement.IsServiceEnabled(d.enabledAccessibilityServices, d.ownPackage) && d.usagePermission
  }

  /** `changePin`'s test: six characters, all digits. */
  predicate IsNewPin(newPin: string)
  {
    |newPin| == NEW_PIN_LENGTH && AllDigits(newPin)
  }

  /** The store after `changePin(newPin)`. */
  function ChangedPin(p: Prefs, newPin: string): Prefs
  {
    if IsNewPin(newPin) then p[PinKey := StringPref(newPin)] else p
  }

  /** Only six-digit PINs are stored; any other input leaves the store as it was. */
  lemma ChangePinEffect(p: Prefs, newPin: string)
    ensures Pin(ChangedPin(p, newPin)) == (if IsNewPin(newPin) then newPin else Pin(p))
    ensures !IsNewPin(newPin) ==> ChangedPin(p, newPin) == p
    ensures ChangedPin(p, newPin) - {PinKey} == p - {PinKey}
  {
  }

  /** The store after `setDailyLimitMinutes(minutes)`, including its `updateRemainingTime`. */
  function LimitChanged(p: Prefs, minutes: int, todayStart: int): Prefs
  {
    if minutes < 0 then p else DailyResetIfNeeded(p[DailyLimitKey := IntPref(minutes)], todayStart)
  }

  /** A negative limit is refused and nothing is written; otherwise the limit is stored. */
  lemma LimitChangedEffect(p: Prefs, minutes: int, todayStart: int)
    ensures minutes < 0 ==> LimitChanged(p, minutes, todayStart) == p
    ensures minutes >= 0 ==> var q := LimitChanged(p, minutes, todayStart);
      DailyLimit(q) == minutes && Pin(q) == Pin(p) && Codes(q) == Codes(p) && BlockingEnabled(q) == BlockingEnabled(p)
  {
    if minutes >= 0 {
      DailyResetKeepsSettings(p[DailyLimitKey := IntPref(minutes)], todayStart);
    }
  }

  /** The store after the permission check of `loadSettings`/`checkPermissions`. */
  function PermissionsChecked(p: Prefs, granted: bool): Prefs
  {
    if !granted && BlockingEnabled(p) then p[BlockingEnabledKey := BoolPref(false)] else p
  }

  /** Without both permissions the stored blocking flag is switched off; with them nothing changes. */
  lemma PermissionsCheckedEffect(p: Prefs, granted: bool)
    ensures granted ==> PermissionsChecked(p, granted) == p
    ensures !granted ==> !BlockingEnabled(PermissionsChecked(p, granted))
    ensures PermissionsChecked(p, granted) - {BlockingEnabledKey} == p - {BlockingEnabledKey}
  {
  }

  /** The store after `setBlockingEnabled(enabled)`, given the permission flags the screen shows. */
  function BlockingSet(p: Prefs, enabled: bool, granted: bool): Prefs
  {
    if enabled && !granted then p else p[BlockingEnabledKey := BoolPref(enabled)]
  }

  /** Enabling without both permissions is refused; disabling always succeeds. */
  lemma BlockingSetEffect(p: Prefs, enabled: bool, granted: bool)
    ensures enabled && !granted ==> BlockingSet(p, enabled, granted) == p
    ensures !(enabled && !granted) ==> BlockingEnabled(BlockingSet(p, enabled, granted)) == enabled
    ensures BlockingEnabled(BlockingSet(p, enabled, granted)) && !BlockingEnabled(p) ==> granted
    ensures BlockingSet(p, enabled, granted) - {BlockingEnabledKey} == p - {BlockingEnabledKey}
  {
  }

  /** The store after `unlock`: remaining and added minutes zeroed, then `updateRemainingTime`'s rollover. */
  function Unlocked(p: Prefs, todayStart: int): Prefs
  {
    DailyResetIfNeeded(p[RemainingTimeKey := IntPref(0)][AddedTimeKey := IntPref(0)], todayStart)
  }

  /**
   * `unlock` zeroes the added minutes, so what is left afterwards is the plain daily limit minus
   * today's usage: it withdraws granted minutes and never adds any.
   */
  lemma UnlockEffect(p: Prefs, d: Device)
    requires IsInt(DailyLimit(p)) && IsInt(AddedTime(p)) && AddedTime(p) >= 0
    requires UsageStats.NoOverflow(DailyLimit(p), AddedTime(p), UsageStats.TodayUsageMillis(d.todayUsage, d.ownPackage))
    requires UsageStats.NoOverflow(DailyLimit(p), 0, UsageStats.TodayUsageMillis(d.todayUsage, d.ownPackage))
    ensures var q := Unlocked(p, d.todayStart);
      && AddedTime(q) == 0 && RemainingTime(q) == 0 && DailyLimit(q) == DailyLimit(p)
      && UsageStats.DeviceRemainingMinutes(d, DailyLimit(q), AddedTime(q))
           <= UsageStats.DeviceRemainingMinutes(d, DailyLimit(p), AddedTime(p))
  {
    var used := UsageStats.TodayUsageMillis(d.todayUsage, d.ownPackage);
    UsageStats.RemainingMonotone(d.usagePermission, DailyLimit(p), 0, AddedTime(p), used, used);
  }

  /** `codes.removeAll { it.value == value }`: every other code, in order. */
  function RemoveAllWithValue(codes: seq<Code>, value: string): (r: seq<Code>)
    ensures |r| <= |codes|
    ensures forall i :: 0 <= i < |r| ==> r[i].value != value
    ensures forall c :: c in codes && c.value != value ==> c in r
    ensures forall c :: c in r ==> c in codes
  {
    if codes == [] then []
    else if codes[0].value == value then RemoveAllWithValue(codes[1..], value)
    else [codes[0]] + RemoveAllWithValue(codes[1..], value)
  }

  /** Removal works piecewise, so the kept codes stay in their order. */
  lemma {:induction false} RemoveAllWithValueSplit(a: seq<Code>, b: seq<Code>, value: string)
    ensures RemoveAllWithValue(a + b, value) == RemoveAllWithValue(a, value) + RemoveAllWithValue(b, value)
    decreases |a|
  {
    if a == [] {
      assert a + b == b;
    } else {
      assert (a + b)[1..] == a[1..] + b;
      RemoveAllWithValueSplit(a[1..], b, value);
    }
  }

  /** Removing twice removes nothing more. */
  lemma {:induction false} RemoveAllWithValueIdempotent(codes: seq<Code>, value: string)
    ensures RemoveAllWithValue(RemoveAllWithValue(codes, value), value) == RemoveAllWithValue(codes, value)
    decreases |codes|
  {
    if codes != [] {
      RemoveAllWithValueIdempotent(codes[1..], value);
    }
  }

  /** A list without the value is kept as it is. */
  lemma {:induction false} RemoveAllWithValueAbsent(codes: seq<Code>, value: string)
    requires forall i :: 0 <= i < |codes| ==> codes[i].value != value
    ensures RemoveAllWithValue(codes, value) == codes
    decreases |codes|
  {
    if codes != [] {
      RemoveAllWithValueAbsent(codes[1..], value);
    }
  }

  /** The admin screen's LiveData values; `None` is a value never posted. */
  datatype AdminScreen = AdminScreen(
    dailyLimitMinutes: Option<int>,
    remainingTimeMinutes: Option<int>,
    codes: Option<seq<Code>>,
    isAccessibilityServiceEnabled: Option<bool>,
    isUsageStatsPermissionGranted: Option<bool>,
    isAutostartEnabled: Option<bool>,
    isBlockingEnabled: Option<bool>,
    canEnableBlocking: Option<bool>,
    message: Option<AdminMessage>)

  class AdminViewModel {
    const repo: DataRepository
    var dailyLimitMinutes: Option<int>
    var remainingTimeMinutes: Option<int>
    var codes: Option<seq<Code>>
    var isAccessibilityServiceEnabled: Option<bool>
    var isUsageStatsPermissionGranted: Option<bool>
    var isAutostartEnabled: Option<bool>
    var isBlockingEnabled: Option<bool>
    var canEnableBlocking: Option<bool>
    var message: Option<AdminMessage>

    function View(): AdminScreen
      reads this
    {
      AdminScreen(dailyLimitMinutes, remainingTimeMinutes, codes, isAccessibilityServiceEnabled,
                  isUsageStatsPermissionGranted, isAutostartEnabled, isBlockingEnabled, canEnableBlocking, message)
    }

    /** The permission flags the screen shows, with `?: false` for a value never set. */
    function ShownGranted(): bool
      reads this
    {
      isAccessibilityServiceEnabled == Some(true) && isUsageStatsPermissionGranted == Some(true)
    }

    /** The store is well typed, and blocking is stored on only while the screen shows both permissions. */
    ghost predicate Valid()
      reads this, repo
    {
      repo.Valid() && (BlockingEnabled(repo.prefs) ==> ShownGranted())
    }

    /**
     * `init { loadSettings(); loadCodes(); checkPermissions(); updateRemainingTime() }`: every
     * value of the screen is posted, from the store as the permission check and the rollover
     * leave it.
     */
    constructor (r: DataRepository, d: Device)
      requires r.Valid() && IsLong(d.todayStart)
      modifies r
      ensures Valid() && repo == r
      ensures r.prefs == DailyResetIfNeeded(PermissionsChecked(old(r.prefs), PermissionsGranted(d)), d.todayStart)
      ensures View() == AdminScreen(
                Some(DailyLimit(old(r.prefs))),
                Some(UsageStats.DeviceRemainingMinutes(d, DailyLimit(r.prefs), AddedTime(r.prefs))),
                Some(Codes(old(r.prefs))),
                Some(Enforcement.IsServiceEnabled(d.enabledAccessibilityServices, d.ownPackage)),
                Some(d.usagePermission),
                Some(AutostartEnabled(old(r.prefs))),
                Some(BlockingEnabled(r.prefs)),
                Some(PermissionsGranted(d)),
                None)
    {
      repo := r;
      dailyLimitMinutes := None;
      remainingTimeMinutes := None;
      codes := None;
      isAccessibilityServiceEnabled := None;
      isUsageStatsPermissionGranted := None;
      isAutostartEnabled := None;
      isBlockingEnabled := None;
      canEnableBlocking := None;
      message := None;
      new;
      LoadSettingsStep(d);
      LoadCodes();
      CheckPermissions(d);
      UpdateRemainingTime(d);
      DailyResetKeepsSettings(PermissionsChecked(old(r.prefs), PermissionsGranted(d)), d.todayStart);
    }

    /** The body of `loadSettings`, which runs before the screen shows any permission. */
    method LoadSettingsStep(d: Device)
      requires repo.Valid()
      modifies this, repo
      ensures repo.Valid()
      ensures repo.prefs == PermissionsChecked(old(repo.prefs), PermissionsGranted(d))
      ensures View() == old(View()).(dailyLimitMinutes := Some(DailyLimit(old(repo.prefs))),
                                     isAutostartEnabled := Some(AutostartEnabled(old(repo.prefs))),
                                     isBlockingEnabled := Some(BlockingEnabled(repo.prefs)),
                                     canEnableBlocking := Some(PermissionsGranted(d)))
    {
      dailyLimitMinutes := Some(DailyLimit(repo.prefs));
      isAutostartEnabled := Some(AutostartEnabled(repo.prefs));
      var blockingEnabled := BlockingEnabled(repo.prefs);
      isBlockingEnabled := Some(blockingEnabled);
      var isAccessibilityEnabled := Enforcement.IsServiceEnabled(d.enabledAccessibilityServices, d.ownPackage);
      var isUsageStatsGranted := d.usagePermission;
      var allPermissionsGranted := isAccessibilityEnabled && isUsageStatsGranted;
      canEnableBlocking := Some(allPermissionsGranted);
      if !allPermissionsGranted && blockingEnabled {
        repo.SetBlockingEnabled(false);
        isBlockingEnabled := Some(false);
      }
    }

    method LoadSettings(d: Device)
      requires Valid()
      modifies this, repo
      ensures Valid()
      ensures repo.prefs == PermissionsChecked(old(repo.prefs), PermissionsGranted(d))
      ensures View() == old(View()).(dailyLimitMinutes := Some(DailyLimit(old(repo.prefs))),
                                     isAutostartEnabled := Some(AutostartEnabled(old(repo.prefs))),
                                     isBlockingEnabled := Some(BlockingEnabled(repo.prefs)),
                                     canEnableBlocking := Some(PermissionsGranted(d)))
    {
      LoadSettingsStep(d);
    }

    method SetDailyLimitMinutes(minutes: int, d: Device)
      requires Valid() && IsInt(minutes) && IsLong(d.todayStart)
      modifies this, repo
      ensures Valid()
      ensures repo.prefs == LimitChanged(old(repo.prefs), minutes, d.todayStart)
      ensures minutes < 0 ==> View() == old(View()).(message := Some(LimitNegativeError))
      ensures minutes >= 0 ==>
                View() == old(View()).(dailyLimitMinutes := Some(minutes),
                                       remainingTimeMinutes := Some(UsageStats.DeviceRemainingMinutes(d, minutes, AddedTime(repo.prefs))),
                                       message := Some(LimitSet(TimeManager.FormatMinutes(minutes))))
    {
      if minutes < 0 {
        message := Some(LimitNegativeError);
        return;
      }
      repo.SetDailyTimeLimitMinutes(minutes);
      dailyLimitMinutes := Some(minutes);
      var formattedTime := TimeManager.FormatMinutes(minutes);
      message := Some(LimitSet(formattedTime));
      UpdateRemainingTime(d);
      DailyResetKeepsSettings(old(repo.prefs)[DailyLimitKey := IntPref(minutes)], d.todayStart);
    }

    /**
     * `generateCodes(count, minutesPerCode = 30)`: a count outside 1..100 or negative minutes is
     * refused before the repository is reached. `draws` are the outcomes of `chars.random()`, as
     * in the repository.
     */
    method GenerateCodes(draws: seq<char>, count: int, minutesPerCode: int := DEFAULT_MINUTES_PER_CODE)
      requires Valid()
      requires 1 <= count <= MAX_CODE_COUNT && minutesPerCode >= 0 ==>
                 (forall i :: 0 <= i < |draws| ==> draws[i] in CODE_ALPHABET) && count <= |Dedup(Attempts(draws))|
      modifies this, repo
      ensures Valid()
      ensures !(1 <= count <= MAX_CODE_COUNT) ==>
                repo.prefs == old(repo.prefs) && View() == old(View()).(message := Some(CodeCountError))
      ensures 1 <= count <= MAX_CODE_COUNT && minutesPerCode < 0 ==>
                repo.prefs == old(repo.prefs) && View() == old(View()).(message := Some(TimeNegativeError))
      ensures 1 <= count <= MAX_CODE_COUNT && minutesPerCode >= 0 ==>
                && repo.prefs == SavedCodes(old(repo.prefs), FreshCodes(Dedup(Attempts(draws))[..count], minutesPerCode))
                && View() == old(View()).(codes := Some(Codes(repo.prefs)),
                                          message := Some(CodesGenerated(count, minutesPerCode)))
    {
      if count <= 0 || count > MAX_CODE_COUNT {
        message := Some(CodeCountError);
        return;
      }
      if minutesPerCode < 0 {
        message := Some(TimeNegativeError);
        return;
      }
      var newCodes := repo.GenerateCodes(minutesPerCode, count, draws);
      LoadCodes();
      message := Some(CodesGenerated(|newCodes|, minutesPerCode));
    }

    method LoadCodes()
      modifies this
      ensures View() == old(View()).(codes := Some(Codes(repo.prefs)))
    {
      codes := Some(Codes(repo.prefs));
    }

    /** `deleteCode`: removes every code with that value from the list the screen shows, and stores the rest. */
    method DeleteCode(code: Code)
      requires Valid()
      modifies this, repo
      ensures Valid()
      ensures old(codes).None? ==> repo.prefs == old(repo.prefs) && View() == old(View())
      ensures old(codes).Some? ==>
                && repo.prefs == SavedCodes(old(repo.prefs), RemoveAllWithValue(old(codes).value, code.value))
                && View() == old(View()).(codes := Some(Codes(repo.prefs)), message := Some(CodeDeleted))
    {
      if codes.None? {
        return;
      }
      var remaining := RemoveAllWithValue(codes.value, code.value);
      repo.SaveCodes(remaining);
      LoadCodes();
      message := Some(CodeDeleted);
    }

    method ChangePin(newPin: string)
      requires Valid()
      modifies this, repo
      ensures Valid()
      ensures repo.prefs == ChangedPin(old(repo.prefs), newPin)
      ensures View() == old(View()).(message := Some(if IsNewPin(newPin) then PinChanged else PinFormatError))
    {
      if |newPin| != NEW_PIN_LENGTH || !AllDigits(newPin) {
        message := Some(PinFormatError);
        return;
      }
      repo.SetPin(newPin);
      message := Some(PinChanged);
    }

    method Unlock(d: Device)
      requires Valid() && IsLong(d.todayStart)
      modifies this, repo
      ensures Valid()
      ensures repo.prefs == Unlocked(old(repo.prefs), d.todayStart)
      ensures View() == old(View()).(remainingTimeMinutes := Some(UsageStats.DeviceRemainingMinutes(d, DailyLimit(repo.prefs), AddedTime(repo.prefs))),
                                     message := Some(TimeUnlocked))
    {
      repo.ResetRemainingTime();
      repo.ResetAddedTime();
      UpdateRemainingTime(d);
      message := Some(TimeUnlocked);
    }

    /** The rollover check, then the remaining minutes from the limit and added minutes read after it. */
    method UpdateRemainingTime(d: Device)
      requires repo.Valid() && IsLong(d.todayStart)
      requires BlockingEnabled(repo.prefs) ==> ShownGranted()
      modifies this, repo
      ensures Valid()
      ensures repo.prefs == DailyResetIfNeeded(old(repo.prefs), d.todayStart)
      ensures View() == old(View()).(remainingTimeMinutes := Some(UsageStats.DeviceRemainingMinutes(d, DailyLimit(repo.prefs), AddedTime(repo.prefs))))
    {
      repo.EnsureDailyResetIfNeeded(d.todayStart);
      DailyResetKeepsSettings(old(repo.prefs), d.todayStart);
      var remaining := UsageStats.GetRemainingTimeMinutes(d, DailyLimit(repo.prefs), AddedTime(repo.prefs));
      remainingTimeMinutes := Some(remaining);
    }

    /** Posts both permission flags; without both, a stored blocking switch is turned off. */
    method CheckPermissions(d: Device)
      requires repo.Valid()
      modifies this, repo
      ensures Valid()
      ensures repo.prefs == PermissionsChecked(old(repo.prefs), PermissionsGranted(d))
      ensures View() == old(View()).(
                isAccessibilityServiceEnabled := Some(Enforcement.IsServiceEnabled(d.enabledAccessibilityServices, d.ownPackage)),
                isUsageStatsPermissionGranted := Some(d.usagePermission),
                canEnableBlocking := Some(PermissionsGranted(d)),
                isBlockingEnabled := if !PermissionsGranted(d) && BlockingEnabled(old(repo.prefs)) then Some(false)
                                     else old(isBlockingEnabled))
    {
      var isAccessibilityEnabled := Enforcement.IsServiceEnabled(d.enabledAccessibilityServices, d.ownPackage);
      var isUsageStatsGranted := d.usagePermission;
      isAccessibilityServiceEnabled := Some(isAccessibilityEnabled);
      isUsageStatsPermissionGranted := Some(isUsageStatsGranted);
      var allPermissionsGranted := isAccessibilityEnabled && isUsageStatsGranted;
      canEnableBlocking := Some(allPermissionsGranted);
      if !allPermissionsGranted {
        var currentBlockingState := BlockingEnabled(repo.prefs);
        if currentBlockingState {
          repo.SetBlockingEnabled(false);
          isBlockingEnabled := Some(false);
        }
      }
    }

    method SetAutostartEnabled(enabled: bool)
      requires Valid()
      modifies this, repo
      ensures Valid()
      ensures repo.prefs == old(repo.prefs)[AutostartEnabledKey := BoolPref(enabled)]
      ensures View() == old(View()).(isAutostartEnabled := Some(enabled),
                                     message := Some(if enabled then AutostartEnabledMessage else AutostartDisabledMessage))
    {
      repo.SetAutostartEnabled(enabled);
      isAutostartEnabled := Some(enabled);
      message := Some(if enabled then AutostartEnabledMessage else AutostartDisabledMessage);
    }

    /** Judged on the permission flags the screen shows, not on a fresh check. */
    method SetBlockingEnabled(enabled: bool)
      requires Valid()
      modifies this, repo
      ensures Valid()
      ensures repo.prefs == BlockingSet(old(repo.prefs), enabled, old(ShownGranted()))
      ensures enabled && !old(ShownGranted()) ==> View() == old(View()).(message := Some(BlockingRequiresPermissions))
      ensures !(enabled && !old(ShownGranted())) ==>
                View() == old(View()).(isBlockingEnabled := Some(enabled),
                                       message := Some(if enabled then BlockingEnabledMessage else BlockingDisabledMessage))
    {
      var isAccessibilityEnabled := isAccessibilityServiceEnabled == Some(true);
      var isUsageStatsGranted := isUsageStatsPermissionGranted == Some(true);
      var allPermissionsGranted := isAccessibilityEnabled && isUsageStatsGranted;
      if enabled && !allPermissionsGranted {
        message := Some(BlockingRequiresPermissions);
        return;
      }
      repo.SetBlockingEnabled(enabled);
      isBlockingEnabled := Some(enabled);
      message := Some(if enabled then BlockingEnabledMessage else BlockingDisabledMessage);
    }

    method ClearMessage()
      modifies this
      ensures View() == old(View()).(message := None)
    {
      message := None;
    }
  }
}
