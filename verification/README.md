# KidLock screen-time core, modelled in Dafny

KidLock is an Android TV app that limits a child's daily screen time. A parent sets a
daily limit in minutes, generates one-time codes worth extra minutes, and protects the
admin screen with a PIN. An accessibility service watches the foreground app. Once the day's
allowance is used up, it sends the child back to the launcher.

This project models that core:

- `kotlin.dfy` (`Kotlin`): Kotlin's 32-bit `Int` and 64-bit `Long` with wrap-around, truncating
  `/` and `%`, `coerceAtLeast`/`coerceIn`, and the character tests the app uses.
- `platform.dfy` (`Platform`): what the app reads from Android, as plain values. This covers
  usage records, the usage-access permission, the enabled-services setting, the current time,
  today's midnight and the foreground probes.
- `time_manager.dfy` (`TimeManager`): the midnight rollover test, minute/millisecond conversion
  and the choice of time format.
- `usage_stats.dfy` (`UsageStats`): today's usage total, excluding the app itself, and the
  remaining minutes.
- `data_repository.dfy` (`Repository`): the SharedPreferences store as a `map` held by the class
  `DataRepository`. Every setter is a method that writes one key. The getters are functions with
  the source's defaults. Also here: the code list, code generation with a random-draw oracle,
  and the daily reset.
- `code_input.dfy` (`CodeInput`): the child's code-entry screen. An entry is redeemed as a code
  (with the usage-debt compensation) or compared with the PIN.
- `enforcement.dfy` (`Enforcement`): the accessibility service. It covers:
  - which packages are system packages;
  - the foreground-package probe chain;
  - the block with its 500 ms debounce;
  - the periodic check.
- `admin.dfy` (`Admin`): the admin screen's view model. It covers the limit, code generation and
  deletion, the PIN change, unlock, the permission check and the blocking switch.
- `pin_input.dfy` (`PinInput`): the four-digit PIN pad.
- `pin_filter.dfy` (`PinFilter`): the `InputFilter` of the PIN text field.

Three kinds of code take three forms:

- Classes whose fields change in place become Dafny classes. Each one's methods state the whole
  new state, usually as a function of the old state. A view model's screen is one `View()` value,
  so each method says which values it posts and that every other one stays as it was.
  - The view models keep their LiveData values as `Option` fields. `None` means a value that was
    never posted.
  - The service keeps its last-known package and last block time, plus the list of system
    actions it has taken.
- Loops become methods with loop invariants, proved against a function:
  - summing usage;
  - finding the most recent record;
  - drawing distinct codes;
  - filtering characters.
- The rest are functions, and lemmas state what the source promises of them.

The entry and PIN lengths are kept as the source writes them:

- generated codes have 4 characters (`CODE_LENGTH`);
- the code screen checks 6-character entries (`ENTRY_LENGTH`);
- the default PIN and the PIN pad use 4 characters (`DEFAULT_PIN`, `PIN_LENGTH`);
- a changed PIN has 6 digits (`NEW_PIN_LENGTH`).

The consequences are proved as they stand. `CodeInput.EntryLengthMismatch` shows that generated
codes can never be redeemed and the default PIN never opens the admin screen.
`PinInput.ChangedPinNeverAccepted` shows that a changed PIN is never accepted by the PIN pad.

`CodeInputViewModel` and `AdminViewModel` call three repository methods that
`DataRepository.kt` does not declare. The model assumes each one:

- `ensureDailyResetIfNeeded` is `resetDailyData` when `shouldResetDailyLimit(lastResetDate)`
  holds, and does nothing otherwise.
- `isBlockingEnabled`/`setBlockingEnabled` read and write a boolean key that defaults to false.

## Model

Source paths are relative to the repository root.

| member | source | states |
|---|---|---|
| Kotlin.ToInt | app/src/main/java/uk/telegramgames/kidlock/TimeManager.kt:47 | `toInt()` always gives a 32-bit value and keeps every value that already fits |
| Kotlin.ToLong | app/src/main/java/uk/telegramgames/kidlock/UsageStatsHelper.kt:64 | `Long` arithmetic always gives a 64-bit value and keeps every value that fits |
| TimeManager.ShouldResetDailyLimit | app/src/main/java/uk/telegramgames/kidlock/TimeManager.kt:12-22 | a reset is due exactly when the last reset happened before today's midnight (the midnight is an input) |
| TimeManager.MinutesToMillis | app/src/main/java/uk/telegramgames/kidlock/TimeManager.kt:39-41 | widening an `Int` count of minutes to milliseconds never overflows a `Long`, and is non-negative for non-negative minutes |
| TimeManager.MillisToMinutes | app/src/main/java/uk/telegramgames/kidlock/TimeManager.kt:46-48 | the result is an `Int`; it is the whole minutes in the duration whenever that count fits an `Int` |
| TimeManager.MillisToMinutesRoundTrip | app/src/main/java/uk/telegramgames/kidlock/TimeManager.kt:39-48 | converting minutes to milliseconds and back returns the same minutes, for every `Int`, negative ones included |
| TimeManager.MillisToMinutesMonotone | app/src/main/java/uk/telegramgames/kidlock/TimeManager.kt:46-48 | more milliseconds never give fewer minutes |
| TimeManager.SplitMinutes | app/src/main/java/uk/telegramgames/kidlock/TimeManager.kt:54-55 | hours * 60 + mins recovers the minutes; for non-negative minutes mins is in 0..59 |
| TimeManager.FormatMinutes | app/src/main/java/uk/telegramgames/kidlock/TimeManager.kt:53-61 | the chosen text denotes exactly the given non-negative number of minutes |
| TimeManager.FormatMinutesChoice | app/src/main/java/uk/telegramgames/kidlock/TimeManager.kt:56-60 | hours and minutes when at least an hour and not whole; hours alone on a whole hour; minutes alone below an hour, including "0 minutes" |
| UsageStats.GetTodayUsageTimeMillis | app/src/main/java/uk/telegramgames/kidlock/UsageStatsHelper.kt:47-69 | the summing loop returns the total over the records; 0 without a usage manager or a result |
| UsageStats.ForegroundSumExact | app/src/main/java/uk/telegramgames/kidlock/UsageStatsHelper.kt:60-66 | with non-negative times whose total fits a `Long`, the total is exactly the sum of the foreground times of every other package |
| UsageStats.OwnPackageIgnored | app/src/main/java/uk/telegramgames/kidlock/UsageStatsHelper.kt:62-65 | inserting a record of the app's own package anywhere leaves today's total unchanged |
| UsageStats.RemainingMinutes | app/src/main/java/uk/telegramgames/kidlock/UsageStatsHelper.kt:77-94 | the remaining minutes are a non-negative `Int`, and 0 without the usage permission (fail-safe) |
| UsageStats.RemainingExact | app/src/main/java/uk/telegramgames/kidlock/UsageStatsHelper.kt:85-93 | with the permission, remaining = max(0, limit + added - used minutes) |
| UsageStats.HasRemainingTimeIff | app/src/main/java/uk/telegramgames/kidlock/UsageStatsHelper.kt:99-104 | there is time left exactly when the permission is held and the used minutes are below limit + added |
| UsageStats.RemainingMonotone | app/src/main/java/uk/telegramgames/kidlock/UsageStatsHelper.kt:85-93 | more usage never increases the remaining minutes; more added minutes never decrease them |
| UsageStats.GetRemainingTimeMinutes | app/src/main/java/uk/telegramgames/kidlock/UsageStatsHelper.kt:77-94 | the method returns the remaining minutes for the device's usage, non-negative, 0 without the permission |
| UsageStats.CheckRemainingTime | app/src/main/java/uk/telegramgames/kidlock/UsageStatsHelper.kt:99-104 | true exactly when more than 0 minutes remain, which needs the permission |
| Repository.UnsetKeysReadDefaults | app/src/main/java/uk/telegramgames/kidlock/DataRepository.kt:37-149 | unset keys read as PIN "0000", limit 60, no codes, remaining 0, added 0, last reset 0, autostart off, blocking off |
| Repository.GettersInRange | app/src/main/java/uk/telegramgames/kidlock/DataRepository.kt:103-131 | on a well-typed store the numeric getters return `Int`/`Long` values |
| Repository.IndexOfFirst | app/src/main/java/uk/telegramgames/kidlock/DataRepository.kt:91 | the first index holding the value, or -1 exactly when no code holds it |
| Repository.FindCode | app/src/main/java/uk/telegramgames/kidlock/DataRepository.kt:98-100 | null exactly when no code has the value; otherwise the first code with that value |
| Repository.UpdatedCodeEffect | app/src/main/java/uk/telegramgames/kidlock/DataRepository.kt:89-96 | the list keeps its length; only the first code with the value is replaced; without a match nothing is written; no other key changes |
| Repository.AddedToAddedTimeEffect | app/src/main/java/uk/telegramgames/kidlock/DataRepository.kt:138-141 | the added minutes grow by exactly the argument when the sum fits an `Int`; no other key changes |
| Repository.DailyDataResetEffect | app/src/main/java/uk/telegramgames/kidlock/DataRepository.kt:185-189 | remaining and added minutes become 0 and the last reset becomes today's midnight; PIN, limit, codes and flags are kept |
| Repository.DailyResetIdempotent | app/src/main/java/uk/telegramgames/kidlock/TimeManager.kt:12-22 | after the rollover check no reset is due, so a second check on the same day changes nothing |
| Repository.DailyResetKeepsSettings | app/src/main/java/uk/telegramgames/kidlock/DataRepository.kt:185-189 | the rollover keeps PIN, limit, codes, autostart and blocking |
| Repository.InitializedEffect | app/src/main/java/uk/telegramgames/kidlock/DataRepository.kt:192-201 | the last reset is set only when it reads 0, the PIN only when it is empty, nothing else changes, and a second call changes nothing |
| Repository.DedupDistinct | app/src/main/java/uk/telegramgames/kidlock/DataRepository.kt:170-172 | the values the retry loop keeps are pairwise distinct |
| Repository.DedupMembers | app/src/main/java/uk/telegramgames/kidlock/DataRepository.kt:168-176 | every kept value is one of the draws and every draw is among the kept values |
| Repository.FreshCodes | app/src/main/java/uk/telegramgames/kidlock/DataRepository.kt:174 | one unused code per value, in order, each worth `minutesPerCode` |
| Repository.FreshCodesHaveValue | app/src/main/java/uk/telegramgames/kidlock/DataRepository.kt:172 | `codes.any { it.value == v }` holds exactly when `v` was already kept |
| Repository.AttemptsAreCodeValues | app/src/main/java/uk/telegramgames/kidlock/DataRepository.kt:165-171 | every attempt `(1..4).map { chars.random() }.joinToString("")` built from alphabet characters is a four-character code value |
| Repository.DrawnCodesShape | app/src/main/java/uk/telegramgames/kidlock/DataRepository.kt:165-176 | the generated codes have distinct four-character alphabet values, derived from the character draws, carry the requested minutes and are unused |
| Repository.DrawDistinctCodes | app/src/main/java/uk/telegramgames/kidlock/DataRepository.kt:166-176 | the `repeat`/`do-while` loop yields `count` codes (none for a negative count) built from the first distinct attempts, four character draws each, in draw order |
| Repository.DrawUnusedValue | app/src/main/java/uk/telegramgames/kidlock/DataRepository.kt:169-172 | the `do-while` loop stops at the first later attempt not already among the codes drawn, and the attempts it skips are all duplicates |
| Repository.DataRepository.constructor | app/src/main/java/uk/telegramgames/kidlock/DataRepository.kt:8-12 | a fresh store is empty and well typed |
| Repository.DataRepository.SetPin | app/src/main/java/uk/telegramgames/kidlock/DataRepository.kt:41-43 | only the PIN key changes, and the PIN then reads back as written |
| Repository.DataRepository.SetDailyTimeLimitMinutes | app/src/main/java/uk/telegramgames/kidlock/DataRepository.kt:50-52 | only the limit key changes, and the limit then reads back as written |
| Repository.DataRepository.SaveCodes | app/src/main/java/uk/telegramgames/kidlock/DataRepository.kt:69-81 | only the codes key changes, and the list then reads back as written |
| Repository.DataRepository.AddCode | app/src/main/java/uk/telegramgames/kidlock/DataRepository.kt:83-87 | the stored list gains the code at its end |
| Repository.DataRepository.UpdateCode | app/src/main/java/uk/telegramgames/kidlock/DataRepository.kt:89-96 | the store becomes `UpdatedCode` of the old store (see `UpdatedCodeEffect`) |
| Repository.DataRepository.SetRemainingTimeMinutes | app/src/main/java/uk/telegramgames/kidlock/DataRepository.kt:107-109 | only the remaining-minutes key changes |
| Repository.DataRepository.AddTimeMinutes | app/src/main/java/uk/telegramgames/kidlock/DataRepository.kt:111-114 | the remaining minutes become the old value plus the argument, with `Int` wrap-around |
| Repository.DataRepository.ResetRemainingTime | app/src/main/java/uk/telegramgames/kidlock/DataRepository.kt:116-118 | the remaining minutes become 0; nothing else changes |
| Repository.DataRepository.SetLastResetDate | app/src/main/java/uk/telegramgames/kidlock/DataRepository.kt:125-127 | only the last-reset key changes |
| Repository.DataRepository.SetAddedTimeMinutes | app/src/main/java/uk/telegramgames/kidlock/DataRepository.kt:134-136 | only the added-minutes key changes |
| Repository.DataRepository.AddToAddedTime | app/src/main/java/uk/telegramgames/kidlock/DataRepository.kt:138-141 | the store becomes `AddedToAddedTime` of the old store (see `AddedToAddedTimeEffect`) |
| Repository.DataRepository.ResetAddedTime | app/src/main/java/uk/telegramgames/kidlock/DataRepository.kt:143-145 | the added minutes become 0; nothing else changes |
| Repository.DataRepository.SetAutostartEnabled | app/src/main/java/uk/telegramgames/kidlock/DataRepository.kt:152-154 | only the autostart key changes |
| Repository.DataRepository.SetBlockingEnabled | app/src/main/java/uk/telegramgames/kidlock/AdminViewModel.kt:219 | only the blocking key changes (assumed setter) |
| Repository.DataRepository.GenerateCodes | app/src/main/java/uk/telegramgames/kidlock/DataRepository.kt:157-182 | the old codes are replaced by exactly the returned codes: `count` distinct, unused codes worth `minutesPerCode`, each four alphabet characters as the draws guarantee |
| Repository.DataRepository.ResetDailyData | app/src/main/java/uk/telegramgames/kidlock/DataRepository.kt:185-189 | the store becomes `DailyDataReset` of the old store (see `DailyDataResetEffect`) |
| Repository.DataRepository.EnsureDailyResetIfNeeded | app/src/main/java/uk/telegramgames/kidlock/CodeInputViewModel.kt:75 | the store is reset exactly when the last reset predates today's midnight (assumed body) |
| Repository.DataRepository.InitializeIfNeeded | app/src/main/java/uk/telegramgames/kidlock/DataRepository.kt:192-201 | the store becomes `Initialized` of the old store (see `InitializedEffect`) |
| CodeInput.UncoveredDebt | app/src/main/java/uk/telegramgames/kidlock/CodeInputViewModel.kt:111-115 | the uncovered debt is never negative |
| CodeInput.UncoveredDebtExact | app/src/main/java/uk/telegramgames/kidlock/CodeInputViewModel.kt:111-115 | the debt is the usage beyond limit + added minutes, or 0 |
| CodeInput.Activate | app/src/main/java/uk/telegramgames/kidlock/CodeInputViewModel.kt:66-146 | a length error happens exactly for entries that are not 6 characters and writes nothing; the admin screen opens only on the PIN |
| CodeInput.ActivationOutcomes | app/src/main/java/uk/telegramgames/kidlock/CodeInputViewModel.kt:77-145 | for a 6-character entry: already used, redeemed (with the code's minutes), admin or not found, each exactly in its case; codes are searched before the PIN; only a redemption writes more than the rollover |
| CodeInput.RedeemKeepsSettings | app/src/main/java/uk/telegramgames/kidlock/CodeInputViewModel.kt:87-125 | a redemption keeps PIN, limit, last reset, flags and the stored remaining minutes |
| CodeInput.RedeemMarksCodeUsed | app/src/main/java/uk/telegramgames/kidlock/CodeInputViewModel.kt:88-92 | after a redemption the code list equals the old one with the first matching code marked used at the current time |
| CodeInput.RedeemOnlyOnce | app/src/main/java/uk/telegramgames/kidlock/CodeInputViewModel.kt:78-85 | the same entry, at any later moment, is reported as already used |
| CodeInput.GrantArithmetic | app/src/main/java/uk/telegramgames/kidlock/CodeInputViewModel.kt:109-118 | adding the code's minutes plus the uncovered debt raises the remaining minutes by exactly the code's minutes |
| CodeInput.RedeemAddsGrant | app/src/main/java/uk/telegramgames/kidlock/CodeInputViewModel.kt:95-125 | a code worth g > 0 adds g plus the uncovered debt to the added minutes; a code worth nothing adds nothing, not even the debt; the limit is kept |
| CodeInput.WorthlessCodeGrantsNothing | app/src/main/java/uk/telegramgames/kidlock/CodeInputViewModel.kt:94-125 | redeeming a code worth no minutes leaves the remaining minutes as they were |
| CodeInput.GrantRestoresRemaining | app/src/main/java/uk/telegramgames/kidlock/CodeInputViewModel.kt:94-130 | redeeming a code worth g > 0 minutes leaves exactly g more minutes than before, however far usage overran the allowance |
| CodeInput.EntryLengthMismatch | app/src/main/java/uk/telegramgames/kidlock/CodeInputViewModel.kt:68-72 | with 4-character codes stored (as `GenerateCodes` guarantees), no entry is ever redeemed or reported used, and the default PIN never opens the admin screen |
| CodeInput.AfterActivation | app/src/main/java/uk/telegramgames/kidlock/CodeInputViewModel.kt:66-146 | the entry is cleared exactly on redemption or admin; validity is reported except for admin; only the PIN sets `shouldOpenAdmin` |
| CodeInput.CodeInputViewModel.constructor | app/src/main/java/uk/telegramgames/kidlock/CodeInputViewModel.kt:32-34 | construction runs the rollover check and shows the remaining minutes |
| CodeInput.CodeInputViewModel.SetCodeInput | app/src/main/java/uk/telegramgames/kidlock/CodeInputViewModel.kt:36-39 | the entry becomes the input and the message is cleared |
| CodeInput.CodeInputViewModel.ClearCode | app/src/main/java/uk/telegramgames/kidlock/CodeInputViewModel.kt:61-64 | the entry and the message are cleared |
| CodeInput.CodeInputViewModel.RemoveCharFromCode | app/src/main/java/uk/telegramgames/kidlock/CodeInputViewModel.kt:54-59 | the last character is dropped; an empty entry stays empty |
| CodeInput.CodeInputViewModel.UpdateRemainingTime | app/src/main/java/uk/telegramgames/kidlock/CodeInputViewModel.kt:148-160 | the rollover runs and the remaining minutes shown are those of the store after it |
| CodeInput.CodeInputViewModel.ActivateCode | app/src/main/java/uk/telegramgames/kidlock/CodeInputViewModel.kt:66-146 | the store and screen become those of `Activate` and `AfterActivation` |
| CodeInput.CodeInputViewModel.AddCharToCode | app/src/main/java/uk/telegramgames/kidlock/CodeInputViewModel.kt:41-52 | full entries ignore input; shorter ones grow; the sixth character triggers the activation |
| CodeInput.CodeInputViewModel.ClearMessage | app/src/main/java/uk/telegramgames/kidlock/CodeInputViewModel.kt:162-164 | only the message is cleared |
| CodeInput.CodeInputViewModel.ClearShouldOpenAdmin | app/src/main/java/uk/telegramgames/kidlock/CodeInputViewModel.kt:166-168 | only the admin flag is reset to false |
| Enforcement.IsSystemPackage | app/src/main/java/uk/telegramgames/kidlock/ScreenTimeAccessibilityService.kt:90-95 | a name is a system package exactly when it starts with "com.android" or "android", or is the TV settings or the leanback launcher |
| Enforcement.SystemPackageCases | app/src/main/java/uk/telegramgames/kidlock/ScreenTimeAccessibilityService.kt:90-95 | both prefixes and both listed TV packages are system packages; the app's own package is not |
| Enforcement.Contains | app/src/main/java/uk/telegramgames/kidlock/ScreenTimeAccessibilityService.kt:348 | `contains` holds exactly when the text occurs at some position |
| Enforcement.IsServiceEnabled | app/src/main/java/uk/telegramgames/kidlock/ScreenTimeAccessibilityService.kt:341-349 | enabled exactly when the setting is present and contains "<package>/<service class>" |
| Enforcement.MostRecentIndex | app/src/main/java/uk/telegramgames/kidlock/ScreenTimeAccessibilityService.kt:264-272 | the kept record has the latest last-use time, and on ties it is the earliest such record |
| Enforcement.CurrentPackageFromUsageStats | app/src/main/java/uk/telegramgames/kidlock/ScreenTimeAccessibilityService.kt:250-276 | the loop returns the most recent record's package; a package exactly when records exist |
| Enforcement.CurrentPackageName | app/src/main/java/uk/telegramgames/kidlock/ScreenTimeAccessibilityService.kt:219-245 | the answer is either a non-system package or the last package seen |
| Enforcement.CurrentPackageFallback | app/src/main/java/uk/telegramgames/kidlock/ScreenTimeAccessibilityService.kt:219-245 | window, recent usage and running task are tried in that order and the first naming a non-system package wins; a window that cannot be read gives the last package seen; the last package seen is the answer only when no probe names a non-system package |
| Enforcement.InvPreserved | app/src/main/java/uk/telegramgames/kidlock/ScreenTimeAccessibilityService.kt:57-214 | no transition ever stores a system package as the last known package |
| Enforcement.WindowChangedKillsOnlyOthers | app/src/main/java/uk/telegramgames/kidlock/ScreenTimeAccessibilityService.kt:57-88 | the window handler only appends actions, and any package it kills is neither the app itself nor a system package |
| Enforcement.PeriodicCheckKillsOnlyOthers | app/src/main/java/uk/telegramgames/kidlock/ScreenTimeAccessibilityService.kt:187-214 | the periodic check only appends actions, and any package it kills is neither the app itself nor a system package |
| Enforcement.NoActionWithTimeLeft | app/src/main/java/uk/telegramgames/kidlock/ScreenTimeAccessibilityService.kt:76-87 | while time remains, neither handler takes any action or moves the block time |
| Enforcement.OwnWindowNeverBlocked | app/src/main/java/uk/telegramgames/kidlock/ScreenTimeAccessibilityService.kt:60-65 | the app's own window is never blocked and becomes the last known package |
| Enforcement.SystemWindowNeverBlocked | app/src/main/java/uk/telegramgames/kidlock/ScreenTimeAccessibilityService.kt:67-71 | a system window is never blocked and clears the last known package |
| Enforcement.KillsOnlyOtherApps | app/src/main/java/uk/telegramgames/kidlock/ScreenTimeAccessibilityService.kt:57-214 | actions are only appended, and every killed package is neither the app itself nor a system package |
| Enforcement.BlockDebounce | app/src/main/java/uk/telegramgames/kidlock/ScreenTimeAccessibilityService.kt:97-103 | within 500 ms of the last block nothing changes; otherwise the block time becomes now |
| Enforcement.AtMostOneBlockPerInterval | app/src/main/java/uk/telegramgames/kidlock/ScreenTimeAccessibilityService.kt:97-103 | after a block, a second one less than 500 ms later changes nothing |
| Enforcement.ScreenTimeMonitor.constructor | app/src/main/java/uk/telegramgames/kidlock/ScreenTimeAccessibilityService.kt:41-47 | the service starts with no last known package, block time 0 and no actions |
| Enforcement.ScreenTimeMonitor.GetCurrentPackageName | app/src/main/java/uk/telegramgames/kidlock/ScreenTimeAccessibilityService.kt:219-245 | the probe chain returns `CurrentPackageName` and changes nothing |
| Enforcement.ScreenTimeMonitor.BlockAppLaunch | app/src/main/java/uk/telegramgames/kidlock/ScreenTimeAccessibilityService.kt:97-124 | the state becomes `Block` of the old state, keeping the invariant |
| Enforcement.ScreenTimeMonitor.ForceCloseApp | app/src/main/java/uk/telegramgames/kidlock/ScreenTimeAccessibilityService.kt:304-313 | one kill action for the package is recorded |
| Enforcement.ScreenTimeMonitor.MinimizeCurrentApp | app/src/main/java/uk/telegramgames/kidlock/ScreenTimeAccessibilityService.kt:318-325 | the HOME action and the delayed clear are recorded |
| Enforcement.ScreenTimeMonitor.ClearLastKnown | app/src/main/java/uk/telegramgames/kidlock/ScreenTimeAccessibilityService.kt:323-325 | the delayed clear empties the last known package |
| Enforcement.ScreenTimeMonitor.HandleWindowStateChanged | app/src/main/java/uk/telegramgames/kidlock/ScreenTimeAccessibilityService.kt:57-88 | the state becomes `WindowChanged` for the device's remaining time, keeping the invariant |
| Enforcement.ScreenTimeMonitor.CheckAndMinimizeApps | app/src/main/java/uk/telegramgames/kidlock/ScreenTimeAccessibilityService.kt:187-214 | the state becomes `PeriodicCheck` for the device's remaining time, keeping the invariant |
| Admin.ChangePinEffect | app/src/main/java/uk/telegramgames/kidlock/AdminViewModel.kt:130-137 | only a six-digit PIN is stored; any other input leaves the store as it was |
| Admin.LimitChangedEffect | app/src/main/java/uk/telegramgames/kidlock/AdminViewModel.kt:76-86 | a negative limit writes nothing; otherwise the limit is stored and PIN, codes and blocking are kept |
| Admin.PermissionsCheckedEffect | app/src/main/java/uk/telegramgames/kidlock/AdminViewModel.kt:163-185 | without both permissions blocking ends up off; with them nothing changes; no other key changes |
| Admin.BlockingSetEffect | app/src/main/java/uk/telegramgames/kidlock/AdminViewModel.kt:207-226 | enabling without both permissions is refused; disabling always works; blocking is never switched on without them |
| Admin.UnlockEffect | app/src/main/java/uk/telegramgames/kidlock/AdminViewModel.kt:139-144 | unlock zeroes added and remaining minutes, keeps the limit and never increases the time left |
| Admin.RemoveAllWithValue | app/src/main/java/uk/telegramgames/kidlock/AdminViewModel.kt:124 | no code with the value is left, every other code is kept, and nothing new appears |
| Admin.RemoveAllWithValueSplit | app/src/main/java/uk/telegramgames/kidlock/AdminViewModel.kt:124 | removal distributes over concatenation, so the kept codes keep their order |
| Admin.RemoveAllWithValueIdempotent | app/src/main/java/uk/telegramgames/kidlock/AdminViewModel.kt:124 | removing twice removes nothing more |
| Admin.RemoveAllWithValueAbsent | app/src/main/java/uk/telegramgames/kidlock/AdminViewModel.kt:124 | a list without the value is kept unchanged |
| Admin.AdminViewModel.constructor | app/src/main/java/uk/telegramgames/kidlock/AdminViewModel.kt:46-51 | every screen value is posted: the stored limit, autostart and codes, both permission flags, whether blocking can be enabled, the blocking flag of the store after the permission check, and the remaining minutes after the rollover; no message |
| Admin.AdminViewModel.LoadSettingsStep | app/src/main/java/uk/telegramgames/kidlock/AdminViewModel.kt:53-74 | limit, autostart, blocking and whether blocking can be enabled are posted, blocking switched off in the store and on screen when a permission is missing; every other screen value is kept |
| Admin.AdminViewModel.LoadSettings | app/src/main/java/uk/telegramgames/kidlock/AdminViewModel.kt:53-74 | the same posts and frame as `LoadSettingsStep`, keeping the screen's invariant |
| Admin.AdminViewModel.SetDailyLimitMinutes | app/src/main/java/uk/telegramgames/kidlock/AdminViewModel.kt:76-86 | a negative limit only posts an error; otherwise the limit is stored and shown, with its formatted message and the new remaining minutes; every other screen value is kept |
| Admin.AdminViewModel.GenerateCodes | app/src/main/java/uk/telegramgames/kidlock/AdminViewModel.kt:88-112 | a count outside 1..100 or negative minutes posts an error and writes nothing; otherwise `count` fresh codes (30 minutes each by default) replace the old ones and are shown; every other screen value is kept |
| Admin.AdminViewModel.LoadCodes | app/src/main/java/uk/telegramgames/kidlock/AdminViewModel.kt:114-120 | the screen shows the stored codes; nothing else changes |
| Admin.AdminViewModel.DeleteCode | app/src/main/java/uk/telegramgames/kidlock/AdminViewModel.kt:122-128 | with no list shown nothing changes at all; otherwise every code with that value is removed, the rest stored and shown with the deletion message; every other screen value is kept |
| Admin.AdminViewModel.ChangePin | app/src/main/java/uk/telegramgames/kidlock/AdminViewModel.kt:130-137 | the store becomes `ChangedPin`; only the message changes on screen, saying changed or format error accordingly |
| Admin.AdminViewModel.Unlock | app/src/main/java/uk/telegramgames/kidlock/AdminViewModel.kt:139-144 | the store becomes `Unlocked`; only the remaining minutes and the unlock message change on screen |
| Admin.AdminViewModel.UpdateRemainingTime | app/src/main/java/uk/telegramgames/kidlock/AdminViewModel.kt:146-161 | the rollover runs; only the remaining minutes change on screen, to those of the store after it |
| Admin.AdminViewModel.CheckPermissions | app/src/main/java/uk/telegramgames/kidlock/AdminViewModel.kt:163-185 | both permission flags and whether blocking can be enabled are posted; blocking is switched off in the store and on screen exactly when a permission is missing and it was on; every other screen value is kept |
| Admin.AdminViewModel.SetAutostartEnabled | app/src/main/java/uk/telegramgames/kidlock/AdminViewModel.kt:197-205 | the flag is stored and shown with the matching message; every other screen value is kept |
| Admin.AdminViewModel.SetBlockingEnabled | app/src/main/java/uk/telegramgames/kidlock/AdminViewModel.kt:207-226 | enabling without both permissions shown only posts an error; otherwise the flag is stored and shown with its message; every other screen value is kept |
| Admin.AdminViewModel.ClearMessage | app/src/main/java/uk/telegramgames/kidlock/AdminViewModel.kt:228-230 | the message is cleared and every other screen value is kept |
| PinInput.Judge | app/src/main/java/uk/telegramgames/kidlock/PinInputViewModel.kt:51-71 | accepted exactly for a 4-character entry equal to the PIN; a length error exactly for other lengths |
| PinInput.DefaultPinAccepted | app/src/main/java/uk/telegramgames/kidlock/DataRepository.kt:37-39 | on a store without a PIN exactly "0000" is accepted |
| PinInput.ChangedPinNeverAccepted | app/src/main/java/uk/telegramgames/kidlock/PinInputViewModel.kt:55-59 | after the admin screen stores a six-digit PIN, no entry on the four-digit pad is ever accepted |
| PinInput.AfterVerify | app/src/main/java/uk/telegramgames/kidlock/PinInputViewModel.kt:51-71 | the result flag is set; only a length error remains as an error; only a wrong PIN empties the entry |
| PinInput.PinInputViewModel.constructor | app/src/main/java/uk/telegramgames/kidlock/PinInputViewModel.kt:20-22 | the pad starts empty |
| PinInput.PinInputViewModel.ClearPin | app/src/main/java/uk/telegramgames/kidlock/PinInputViewModel.kt:46-49 | the entry and the error are cleared |
| PinInput.PinInputViewModel.VerifyPin | app/src/main/java/uk/telegramgames/kidlock/PinInputViewModel.kt:51-71 | returns whether the entry is accepted and leaves the screen of `AfterVerify` |
| PinInput.PinInputViewModel.AddDigit | app/src/main/java/uk/telegramgames/kidlock/PinInputViewModel.kt:24-36 | a full entry ignores input; shorter ones grow and clear the error; the fourth digit triggers the check; the entry never exceeds 4 |
| PinInput.PinInputViewModel.RemoveDigit | app/src/main/java/uk/telegramgames/kidlock/PinInputViewModel.kt:38-44 | the last digit is dropped and the error cleared; an empty entry is left alone |
| PinFilter.FilterCharsShape | app/src/main/java/uk/telegramgames/kidlock/PinInputFragment.kt:74-80 | the filtered text is no longer than the input and holds only upper-case letters and digits |
| PinFilter.FilterCharsIdempotent | app/src/main/java/uk/telegramgames/kidlock/PinInputFragment.kt:74-80 | filtered text passes the filter unchanged |
| PinFilter.ClampBounds | app/src/main/java/uk/telegramgames/kidlock/PinInputFragment.kt:69-71 | the clamped range always lies inside the field's text and is unchanged when already valid |
| PinFilter.FilterResult | app/src/main/java/uk/telegramgames/kidlock/PinInputFragment.kt:62-112 | null exactly for an empty or missing source; never more than 20 characters |
| PinFilter.FilterResultShape | app/src/main/java/uk/telegramgames/kidlock/PinInputFragment.kt:62-112 | "" exactly when no typed character survives the filter; otherwise the first min(20, length) characters of the field text with the filtered input in place, never empty |
| PinFilter.FilterSource | app/src/main/java/uk/telegramgames/kidlock/PinInputFragment.kt:74-80 | the character loop keeps, upper-cased and in order, exactly the letters and digits of `source[start until end]` |
| PinFilter.FilterPinInput | app/src/main/java/uk/telegramgames/kidlock/PinInputFragment.kt:62-112 | the lambda, with its character loop, returns `FilterResult` |
| PinFilter.FilterDuplicatesText | app/src/main/java/uk/telegramgames/kidlock/PinInputFragment.kt:87-111 | typing "c" after "AB" makes the filter answer "ABC", which the field then shows as "ABABC" |
| PinFilter.IntendedFilterApplied | app/src/main/java/uk/telegramgames/kidlock/PinInputFragment.kt:62-112 | with the replacement-only answer the field shows its text once, with the filtered input in place, and never grows past 20 characters |

## Left out

- Android I/O is not modelled: SharedPreferences files, LiveData observers, notifications, intents,
  `killBackgroundProcesses` and `performGlobalAction`. System actions are recorded as `Effect` values.
  The notification channel of `onServiceConnected` is not modelled.
- Midnight from `Calendar`, `System.currentTimeMillis()` and `Date()` are inputs (`todayStart`, `now`).
  The permission checks are booleans in `Device`, and `hasUsageStatsPermission` is one of them.
- SDK-version branches: Lollipop or newer is assumed, so usage stats are always queried. There
  `getCurrentPackageFromActivityManager` always returns null, but the model keeps the running-task
  probe as a free input (`Foreground.runningTask`). It over-approximates: every result proved for
  it holds in particular when that probe is `None`.
- Exceptions from the window and usage probes are folded into `WindowFailure` and `NullResult`.
  The fallback branch of `minimizeCurrentApp` that runs when `performGlobalAction` throws is not
  modelled. It leaves the same state as the main branch.
- Scheduling is not modelled: the periodic `CHECK_INTERVAL_MS` tick, `onDestroy`, and the 500 ms
  `postDelayed` clear. The delayed clear is recorded as `ScheduleClearLastKnown`, and
  `ScreenTimeMonitor.ClearLastKnown` performs it.
- Coroutines (`viewModelScope.launch`, `postValue`) run synchronously. Interleavings between the
  view models and the service are not modelled.
- `chars.random()` is an oracle: `draws` is the sequence of characters it returns, each one of
  `CODE_ALPHABET`, and every attempt takes the next four. Generation needs enough distinct attempts;
  a random source that never produces them (the loop would not end) is not modelled.
- The `;`-joined JSON serialisation of codes is not modelled, and neither is the commit-then-apply
  retry of `saveCodes`. The list is stored as a value.
- `Code.kt` is not part of this model, beyond the fields of `Code`.
- `isDigit`, `isLetterOrDigit` and `uppercaseChar` are modelled for ASCII characters only.
- `ensureDailyResetIfNeeded`, `isBlockingEnabled` and `setBlockingEnabled` are not declared in
  `DataRepository.kt`. Their bodies here are assumptions, as described above.
- The `setPinInput` text watcher of `PinInputFragment` is not modelled. Neither are the fragments'
  and activities' UI wiring or the settings-opening intents of the admin screen.
- CodeInput.AfterActivation: the "code activated" message is posted and then cleared by `clearCode`
  in the same call. Only the final value (no message) is modelled.
- PinInput.AfterVerify: likewise, "wrong PIN" is posted and then cleared by `clearPin`. Only the
  final value is modelled.
- GrantRestoresRemaining: proved only when limit, added minutes, the code's minutes and today's
  used minutes are within 0..2^28. No `Int` sum then wraps.
- GrantArithmetic: under the same no-wrap ranges as `GrantRestoresRemaining`.
- UncoveredDebtExact: under the same no-wrap ranges as `GrantRestoresRemaining`.
- RemainingExact: proved only under `NoOverflow`, where the budget sums fit an `Int`.
- HasRemainingTimeIff: only under `NoOverflow`.
- RemainingMonotone: only under `NoOverflow`.
- UnlockEffect: only under `NoOverflow`. It states that unlock never increases the time left, not
  the exact amount.
- ForegroundSumExact: only for non-negative foreground times whose total fits a `Long`.
- MillisToMinutes: exact only while the minute count fits an `Int`. Beyond that the wrapped value
  is modelled but not characterised.
- MillisToMinutesMonotone: only while the minute count fits an `Int`.
- FormatMinutes: the denoted-minutes property is stated for non-negative minutes only.
- BlockDebounce: only for block times with 0 <= lastBlockTime <= now within a `Long`.
- AtMostOneBlockPerInterval: same ranges as `BlockDebounce`.

## Findings

| source | as written | input that shows it | evidently intended | confidence | as-written member | corrected member |
|---|---|---|---|---|---|---|
| app/src/main/java/uk/telegramgames/kidlock/PinInputFragment.kt:87-111 | the filter returns the whole new field text (old text with the filtered input spliced in), but Android inserts a filter's answer in place of the typed characters | field "AB", typing "c" at the end: the filter answers "ABC" and the field becomes "ABABC" | answer only the filtered replacement, cut to the room left within 20 characters | not executed | PinFilter.FilterDuplicatesText | PinFilter.IntendedFilterApplied |
