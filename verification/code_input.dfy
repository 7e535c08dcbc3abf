/**
 * The child's code-entry screen (CodeInputViewModel.kt): a six-character entry that is either
 * a time-grant code, redeemed once, or the PIN that opens the admin screen.
 */
module CodeInput {
  import opened Kotlin
  import opened Platform
  import opened Repository
  import TimeManager
  import UsageStats

  /** The entry is checked when it reaches six characters. */
  const ENTRY_LENGTH: int := 6

  /** A ceiling under which none of the `Int` sums of a redemption wraps. */
  const SMALL: int := 0x1000_0000

  /** The error strings the screen shows. The activation message is cleared in the same call. */
  datatype Message = CodeLengthError | CodeAlreadyUsedError | CodeNotFoundError

  /** The five ways `activateCode` ends. */
  datatype Outcome = LengthError | AlreadyUsed | Redeemed(minutes: int) | OpenAdmin | NotFound

  /** An outcome and the store it leaves behind. */
  datatype Activation = Activation(outcome: Outcome, prefs: Prefs)

  /**
   * Overuse not yet covered by added minutes: `(extraUsed - added).coerceAtLeast(0)` with
   * `extraUsed = (used - limit).coerceAtLeast(0)`, all in `Int` arithmetic.
   */
  function UncoveredDebt(usedMinutes: int, dailyLimit: int, addedTime: int): (debt: int)
    ensures debt >= 0
  {
    var extraUsed := CoerceAtLeast(SubInt(usedMinutes, dailyLimit), 0);
    CoerceAtLeast(SubInt(extraUsed, addedTime), 0)
  }

  /** With non-negative added minutes and no wrap-around, the debt is the overuse beyond limit + added. */
  lemma UncoveredDebtExact(usedMinutes: int, dailyLimit: int, addedTime: int)
    requires 0 <= usedMinutes <= SMALL && 0 <= dailyLimit <= SMALL && 0 <= addedTime <= SMALL
    ensures var over := usedMinutes - dailyLimit - addedTime;
      UncoveredDebt(usedMinutes, dailyLimit, addedTime) == if over < 0 then 0 else over
  {
  }

  /** `totalToAdd`: the code's minutes plus the uncovered debt, on today's usage. */
  function GrantTotal(p: Prefs, d: Device, codeMinutes: int): int
  {
    var usedMinutes := TimeManager.MillisToMinutes(UsageStats.TodayUsageMillis(d.todayUsage, d.ownPackage));
    AddInt(codeMinutes, UncoveredDebt(usedMinutes, DailyLimit(p), AddedTime(p)))
  }

  /** The store after redeeming `code`: marked used at `d.now`, then the grant added when positive. */
  function Redeem(p: Prefs, code: Code, d: Device): Prefs
  {
    var p1 := UpdatedCode(p, code.(isUsed := true, usedDate := Some(d.now)));
    if code.addedTimeMinutes > 0 then AddedToAddedTime(p1, GrantTotal(p1, d, code.addedTimeMinutes)) else p1
  }

  /**
   * `activateCode` on the entry `input`: a length check, the daily rollover, then the code list
   * is searched before the PIN is compared. A redemption ends with `updateRemainingTime`,
   * whose own rollover check is part of the resulting store.
   */
  function Activate(p: Prefs, input: string, d: Device): (a: Activation)
    ensures |input| != ENTRY_LENGTH <==> a.outcome == LengthError
    ensures a.outcome == LengthError ==> a.prefs == p
    ensures a.outcome.OpenAdmin? ==> input == Pin(p)
  {
    if |input| != ENTRY_LENGTH then Activation(LengthError, p)
    else
      var p0 := DailyResetIfNeeded(p, d.todayStart);
      match FindCode(Codes(p0), input)
      case Some(code) =>
        if code.isUsed then Activation(AlreadyUsed, p0)
        else Activation(Redeemed(code.addedTimeMinutes), DailyResetIfNeeded(Redeem(p0, code, d), d.todayStart))
      case None =>
        if input == Pin(p0) then Activation(OpenAdmin, p0) else Activation(NotFound, p0)
  }

  /**
   * Which outcome an entry of the right length gets: codes are searched first, so an entry
   * equal to both a code and the PIN redeems or rejects the code and never opens the admin screen.
   */
  lemma ActivationOutcomes(p: Prefs, input: string, d: Device)
    requires |input| == ENTRY_LENGTH
    ensures var a, found := Activate(p, input, d), FindCode(Codes(p), input);
      && (a.outcome == AlreadyUsed <==> found.Some? && found.value.isUsed)
      && (a.outcome.Redeemed? <==> found.Some? && !found.value.isUsed)
      && (a.outcome.Redeemed? ==> a.outcome.minutes == found.value.addedTimeMinutes)
      && (a.outcome == OpenAdmin <==> found.None? && input == Pin(p))
      && (a.outcome == NotFound <==> found.None? && input != Pin(p))
      && (!a.outcome.Redeemed? ==> a.prefs == DailyResetIfNeeded(p, d.todayStart))
  {
    DailyResetKeepsSettings(p, d.todayStart);
  }

  /** Redeeming a code touches neither the PIN, the limit, the flags nor the day of the last reset. */
  lemma RedeemKeepsSettings(p: Prefs, code: Code, d: Device)
    ensures var q := Redeem(p, code, d);
      && Pin(q) == Pin(p) && DailyLimit(q) == DailyLimit(p) && LastResetDate(q) == LastResetDate(p)
      && AutostartEnabled(q) == AutostartEnabled(p) && BlockingEnabled(q) == BlockingEnabled(p)
      && RemainingTime(q) == RemainingTime(p)
  {
  }

  /** The codes after a redemption: the first code with the entry's value is now used, at `d.now`. */
  lemma RedeemMarksCodeUsed(p: Prefs, input: string, d: Device)
    requires Activate(p, input, d).outcome.Redeemed?
    ensures var before, after := Codes(p), Codes(Activate(p, input, d).prefs);
      var i := IndexOfFirst(before, input);
      && 0 <= i < |before| && |after| == |before|
      && after == before[i := before[i].(isUsed := true, usedDate := Some(d.now))]
  {
    var p0 := DailyResetIfNeeded(p, d.todayStart);
    DailyResetKeepsSettings(p, d.todayStart);
    var code := FindCode(Codes(p0), input).value;
    var c := code.(isUsed := true, usedDate := Some(d.now));
    UpdatedCodeEffect(p0, c);
    var q := Redeem(p0, code, d);
    RedeemKeepsSettings(p0, code, d);
    DailyResetKeepsSettings(q, d.todayStart);
    assert Codes(q) == Codes(UpdatedCode(p0, c));
  }

  /** A code is redeemed at most once: the same entry, at any later moment, finds it used. */
  lemma RedeemOnlyOnce(p: Prefs, input: string, d: Device, later: Device)
    requires Activate(p, input, d).outcome.Redeemed?
    ensures Activate(Activate(p, input, d).prefs, input, later).outcome == AlreadyUsed
  {
    var before, q := Codes(p), Activate(p, input, d).prefs;
    RedeemMarksCodeUsed(p, input, d);
    var i := IndexOfFirst(before, input);
    var after := Codes(q);
    assert after[i].value == input && after[i].isUsed;
    assert forall j :: 0 <= j < i ==> after[j].value != input;
    assert IndexOfFirst(after, input) == i;
    ActivationOutcomes(q, input, later);
  }

  /** The budget arithmetic of a grant: adding `g` plus the uncovered debt leaves exactly `g` more minutes. */
  lemma GrantArithmetic(limit: int, added: int, g: int, used: int)
    requires 0 <= limit <= SMALL && 0 <= added <= SMALL && 0 < g <= SMALL
    requires 0 <= used && used / TimeManager.MILLIS_PER_MINUTE <= SMALL
    ensures var debt := UncoveredDebt(TimeManager.MillisToMinutes(used), limit, added);
      UsageStats.RemainingMinutes(true, limit, AddInt(added, AddInt(g, debt)), used)
        == g + UsageStats.RemainingMinutes(true, limit, added, used)
  {
    var usedMinutes := used / TimeManager.MILLIS_PER_MINUTE;
    UncoveredDebtExact(usedMinutes, limit, added);
    var debt := UncoveredDebt(usedMinutes, limit, added);
    UsageStats.RemainingExact(limit, added, used);
    UsageStats.RemainingExact(limit, added + g + debt, used);
  }

  /**
   * The added minutes after a redemption: a code worth `g > 0` adds `g` plus the uncovered debt,
   * a code worth nothing adds nothing at all, not even the debt; the limit is never touched.
   */
  lemma RedeemAddsGrant(p0: Prefs, code: Code, d: Device)
    requires LastResetDate(p0) >= d.todayStart
    ensures var q := DailyResetIfNeeded(Redeem(p0, code, d), d.todayStart);
      var usedMinutes := TimeManager.MillisToMinutes(UsageStats.TodayUsageMillis(d.todayUsage, d.ownPackage));
      && DailyLimit(q) == DailyLimit(p0)
      && (code.addedTimeMinutes > 0 ==>
            AddedTime(q) == AddInt(AddedTime(p0), AddInt(code.addedTimeMinutes, UncoveredDebt(usedMinutes, DailyLimit(p0), AddedTime(p0)))))
      && (code.addedTimeMinutes <= 0 ==> AddedTime(q) == AddedTime(p0))
  {
    var c := code.(isUsed := true, usedDate := Some(d.now));
    UpdatedCodeEffect(p0, c);
    var p1 := UpdatedCode(p0, c);
    assert DailyLimit(p1) == DailyLimit(p0) && AddedTime(p1) == AddedTime(p0);
    RedeemKeepsSettings(p0, code, d);
  }

  /**
   * A code with `g > 0` minutes leaves exactly `g` more minutes than there were before it
   * (after the day's rollover), however far today's usage overran the allowance: the grant
   * pays off the uncovered debt first.
   */
  lemma GrantRestoresRemaining(p: Prefs, input: string, d: Device)
    requires d.usagePermission
    requires Activate(p, input, d).outcome.Redeemed? && Activate(p, input, d).outcome.minutes > 0
    requires var p0, used := DailyResetIfNeeded(p, d.todayStart), UsageStats.TodayUsageMillis(d.todayUsage, d.ownPackage);
      && 0 <= DailyLimit(p0) <= SMALL && 0 <= AddedTime(p0) <= SMALL && Activate(p, input, d).outcome.minutes <= SMALL
      && 0 <= used && used / TimeManager.MILLIS_PER_MINUTE <= SMALL
    ensures var p0, q := DailyResetIfNeeded(p, d.todayStart), Activate(p, input, d).prefs;
      UsageStats.DeviceRemainingMinutes(d, DailyLimit(q), AddedTime(q))
        == Activate(p, input, d).outcome.minutes + UsageStats.DeviceRemainingMinutes(d, DailyLimit(p0), AddedTime(p0))
  {
    var p0 := DailyResetIfNeeded(p, d.todayStart);
    DailyResetIdempotent(p, d.todayStart);
    var code := FindCode(Codes(p0), input).value;
    RedeemAddsGrant(p0, code, d);
    GrantArithmetic(DailyLimit(p0), AddedTime(p0), code.addedTimeMinutes, UsageStats.TodayUsageMillis(d.todayUsage, d.ownPackage));
  }

  /** A code worth no minutes is still used up, but leaves the remaining minutes as they were. */
  lemma WorthlessCodeGrantsNothing(p: Prefs, input: string, d: Device)
    requires Activate(p, input, d).outcome.Redeemed? && Activate(p, input, d).outcome.minutes <= 0
    ensures var p0, q := DailyResetIfNeeded(p, d.todayStart), Activate(p, input, d).prefs;
      UsageStats.DeviceRemainingMinutes(d, DailyLimit(q), AddedTime(q))
        == UsageStats.DeviceRemainingMinutes(d, DailyLimit(p0), AddedTime(p0))
  {
    var p0 := DailyResetIfNeeded(p, d.todayStart);
    DailyResetIdempotent(p, d.todayStart);
    var code := FindCode(Codes(p0), input).value;
    RedeemAddsGrant(p0, code, d);
  }

  /**
   * The length mismatch as written: generated codes are four characters and the default PIN
   * is "0000", while only six-character entries are looked up. So a store of generated codes
   * never redeems anything, and the default PIN never opens the admin screen.
   */
  lemma EntryLengthMismatch(p: Prefs, input: string, d: Device)
    requires forall i :: 0 <= i < |Codes(p)| ==> |Codes(p)[i].value| == CODE_LENGTH
    ensures !Activate(p, input, d).outcome.Redeemed? && Activate(p, input, d).outcome != AlreadyUsed
    ensures Pin(p) == DEFAULT_PIN ==> Activate(p, input, d).outcome != OpenAdmin
  {
    if |input| == ENTRY_LENGTH {
      ActivationOutcomes(p, input, d);
    }
  }

  /** The screen's LiveData values; `None` is a value never posted. An unset entry reads as "". */
  datatype Screen = Screen(
    codeInput: string,
    message: Option<Message>,
    isCodeValid: Option<bool>,
    shouldOpenAdmin: Option<bool>,
    remainingTimeMinutes: Option<int>)

  /** The screen after `activateCode` ended with the activation `a` (cleared entries included). */
  function AfterActivation(s: Screen, a: Activation, d: Device): (t: Screen)
    ensures t.codeInput == (if a.outcome.Redeemed? || a.outcome == OpenAdmin then "" else s.codeInput)
    ensures t.isCodeValid == (if a.outcome == OpenAdmin then s.isCodeValid else Some(a.outcome.Redeemed?))
    ensures t.shouldOpenAdmin == (if a.outcome == OpenAdmin then Some(true) else s.shouldOpenAdmin)
  {
    match a.outcome
    case LengthError => s.(message := Some(CodeLengthError), isCodeValid := Some(false))
    case AlreadyUsed => s.(message := Some(CodeAlreadyUsedError), isCodeValid := Some(false))
    case Redeemed(_) =>
      s.(codeInput := "", message := None, isCodeValid := Some(true),
         remainingTimeMinutes := Some(UsageStats.DeviceRemainingMinutes(d, DailyLimit(a.prefs), AddedTime(a.prefs))))
    case OpenAdmin => s.(codeInput := "", message := None, shouldOpenAdmin := Some(true))
    case NotFound => s.(message := Some(CodeNotFoundError), isCodeValid := Some(false))
  }

  class CodeInputViewModel {
    const repo: DataRepository
    var codeInput: string
    var message: Option<Message>
    var isCodeValid: Option<bool>
    var shouldOpenAdmin: Option<bool>
    var remainingTimeMinutes: Option<int>

    ghost predicate Valid()
      reads this, repo
    {
      repo.Valid()
    }

    function View(): Screen
      reads this
    {
      Screen(codeInput, message, isCodeValid, shouldOpenAdmin, remainingTimeMinutes)
    }

    /** `init { updateRemainingTime() }` */
    constructor (r: DataRepository, d: Device)
      requires r.Valid() && IsLong(d.todayStart)
      modifies r
      ensures Valid() && repo == r
      ensures r.prefs == DailyResetIfNeeded(old(r.prefs), d.todayStart)
      ensures View() == Screen("", None, None, None,
                               Some(UsageStats.DeviceRemainingMinutes(d, DailyLimit(r.prefs), AddedTime(r.prefs))))
    {
      repo := r;
      codeInput := "";
      message := None;
      isCodeValid := None;
      shouldOpenAdmin := None;
      new;
      UpdateRemainingTime(d);
    }

    method SetCodeInput(input: string)
      modifies this
      ensures View() == old(View()).(codeInput := input, message := None)
    {
      codeInput := input;
      message := None;
    }

    method ClearCode()
      modifies this
      ensures View() == old(View()).(codeInput := "", message := None)
    {
      codeInput := "";
      message := None;
    }

    method RemoveCharFromCode()
      modifies this
      ensures View() == old(View()).(codeInput := if old(codeInput) == "" then "" else old(codeInput)[..|old(codeInput)| - 1])
    {
      if codeInput != "" {
        codeInput := codeInput[..|codeInput| - 1];
      }
    }

    /** Today's rollover check, then the remaining minutes on the device (posted synchronously here). */
    method UpdateRemainingTime(d: Device)
      requires Valid() && IsLong(d.todayStart)
      modifies this, repo
      ensures Valid()
      ensures repo.prefs == DailyResetIfNeeded(old(repo.prefs), d.todayStart)
      ensures View() == old(View()).(remainingTimeMinutes :=
                Some(UsageStats.DeviceRemainingMinutes(d, DailyLimit(repo.prefs), AddedTime(repo.prefs))))
    {
      repo.EnsureDailyResetIfNeeded(d.todayStart);
      var remaining := UsageStats.GetRemainingTimeMinutes(d, DailyLimit(repo.prefs), AddedTime(repo.prefs));
      remainingTimeMinutes := Some(remaining);
    }

    method ActivateCode(d: Device)
      requires Valid() && IsLong(d.todayStart)
      modifies this, repo
      ensures Valid()
      ensures repo.prefs == Activate(old(repo.prefs), old(codeInput), d).prefs
      ensures View() == AfterActivation(old(View()), Activate(old(repo.prefs), old(codeInput), d), d)
    {
      var codeValue := codeInput;
      if |codeValue| != ENTRY_LENGTH {
        message := Some(CodeLengthError);
        isCodeValid := Some(false);
        return;
      }
      repo.EnsureDailyResetIfNeeded(d.todayStart);
      ghost var p0 := repo.prefs;
      var code := FindCode(Codes(repo.prefs), codeValue);
      if code.Some? {
        if code.value.isUsed {
          message := Some(CodeAlreadyUsedError);
          isCodeValid := Some(false);
          return;
        }
        repo.UpdateCode(code.value.(isUsed := true, usedDate := Some(d.now)));
        if code.value.addedTimeMinutes > 0 {
          var dailyLimit := DailyLimit(repo.prefs);
          var currentAddedTime := AddedTime(repo.prefs);
          var usedTimeMillis := UsageStats.GetTodayUsageTimeMillis(d.todayUsage, d.ownPackage);
          var usedTimeMinutes := TimeManager.MillisToMinutes(usedTimeMillis);
          var extraUsed := CoerceAtLeast(SubInt(usedTimeMinutes, dailyLimit), 0);
          var uncoveredDebt := CoerceAtLeast(SubInt(extraUsed, currentAddedTime), 0);
          var totalToAdd := AddInt(code.value.addedTimeMinutes, uncoveredDebt);
          repo.AddToAddedTime(totalToAdd);
        }
        assert repo.prefs == Redeem(p0, code.value, d);
        isCodeValid := Some(true);
        ClearCode();
        UpdateRemainingTime(d);
        return;
      }
      if codeValue == Pin(repo.prefs) {
        shouldOpenAdmin := Some(true);
        ClearCode();
        return;
      }
      message := Some(CodeNotFoundError);
      isCodeValid := Some(false);
    }

    /** Appends while the entry is shorter than six; the sixth character triggers the check. */
    method AddCharToCode(c: char, d: Device)
      requires Valid() && IsLong(d.todayStart)
      modifies this, repo
      ensures Valid()
      ensures |old(codeInput)| >= ENTRY_LENGTH ==> View() == old(View()) && repo.prefs == old(repo.prefs)
      ensures |old(codeInput)| < ENTRY_LENGTH - 1 ==>
                View() == old(View()).(codeInput := old(codeInput) + [c]) && repo.prefs == old(repo.prefs)
      ensures |old(codeInput)| == ENTRY_LENGTH - 1 ==>
                var a := Activate(old(repo.prefs), old(codeInput) + [c], d);
                repo.prefs == a.prefs && View() == AfterActivation(old(View()).(codeInput := old(codeInput) + [c]), a, d)
    {
      var current := codeInput;
      if |current| < ENTRY_LENGTH {
        var newCode := current + [c];
        codeInput := newCode;
        if |newCode| == ENTRY_LENGTH {
          ActivateCode(d);
        }
      }
    }

    method ClearMessage()
      modifies this
      ensures View() == old(View()).(message := None)
    {
      message := None;
    }

    method ClearShouldOpenAdmin()
      modifies this
      ensures View() == old(View()).(shouldOpenAdmin := Some(false))
    {
      shouldOpenAdmin := Some(false);
    }
  }
}
