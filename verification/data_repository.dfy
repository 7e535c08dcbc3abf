/**
 * The persistent store (DataRepository.kt): a SharedPreferences key-value map with fixed
 * defaults, the grant-code list kept under one key, code generation and the daily reset.
 */
module Repository {
  import opened Kotlin
  import TimeManager

  /** A time-grant code. `usedDate` is the redemption time in epoch milliseconds. */
  datatype Code = Code(value: string, addedTimeMinutes: int, isUsed: bool, usedDate: Option<int>)

  /** The preference keys; `KeyName` gives the string each is stored under. */
  datatype Key =
    | PinKey | DailyLimitKey | CodesKey | RemainingTimeKey
    | LastResetDateKey | AddedTimeKey | AutostartEnabledKey | BlockingEnabledKey

  function KeyName(k: Key): string
  {
    match k
    case PinKey => "pin"
    case DailyLimitKey => "daily_limit_minutes"
    case CodesKey => "codes"
    case RemainingTimeKey => "remaining_time_minutes"
    case LastResetDateKey => "last_reset_date"
    case AddedTimeKey => "added_time_minutes"
    case AutostartEnabledKey => "autostart_enabled"
    // Used by the admin screen but not declared by the repository; the name is an assumption.
    case BlockingEnabledKey => "blocking_enabled"
  }

  /**
   * A stored value. The code list is stored as a string of serialised codes joined by ";";
   * the model keeps the list itself, and the empty list stands for the empty string.
   */
  datatype Pref = StringPref(s: string) | IntPref(i: int) | LongPref(l: int) | BoolPref(b: bool) | CodesPref(codes: seq<Code>)

  type Prefs = map<Key, Pref>

  const DEFAULT_PIN: string := "0000"
  const DEFAULT_DAILY_LIMIT_MINUTES: int := 60

  /** Generated codes: four characters drawn from the upper-case letters and the digits. */
  const CODE_LENGTH: int := 4
  const CODE_ALPHABET: string := "ABCDEFGHIJKLMNOPQRSTUVWXYZ0123456789"

  /** A character of `CODE_ALPHABET`: an upper-case ASCII letter or a digit. */
  predicate IsAlphabetChar(c: char)
  {
    'A' <= c <= 'Z' || '0' <= c <= '9'
  }

  predicate IsCodeValue(s: string)
  {
    |s| == CODE_LENGTH && forall i :: 0 <= i < |s| ==> IsAlphabetChar(s[i])
  }

  /** Each key holds the type its setter writes (SharedPreferences would throw on a mismatch). */
  predicate HasType(k: Key, v: Pref)
  {
    match k
    case PinKey => v.StringPref?
    case DailyLimitKey => v.IntPref? && IsInt(v.i)
    case RemainingTimeKey => v.IntPref? && IsInt(v.i)
    case AddedTimeKey => v.IntPref? && IsInt(v.i)
    case LastResetDateKey => v.LongPref? && IsLong(v.l)
    case AutostartEnabledKey => v.BoolPref?
    case BlockingEnabledKey => v.BoolPref?
    case CodesKey => v.CodesPref?
  }

  ghost predicate WellTyped(p: Prefs)
  {
    forall k :: k in p ==> HasType(k, p[k])
  }

  // ---- Reads (each getter falls back to its default when the key is unset) ----

  function Pin(p: Prefs): string
  {
    if PinKey in p && p[PinKey].StringPref? then p[PinKey].s else DEFAULT_PIN
  }

  function DailyLimit(p: Prefs): int
  {
    if DailyLimitKey in p && p[DailyLimitKey].IntPref? then p[DailyLimitKey].i else DEFAULT_DAILY_LIMIT_MINUTES
  }

  function Codes(p: Prefs): seq<Code>
  {
    if CodesKey in p && p[CodesKey].CodesPref? then p[CodesKey].codes else []
  }

  function RemainingTime(p: Prefs): int
  {
    if RemainingTimeKey in p && p[RemainingTimeKey].IntPref? then p[RemainingTimeKey].i else 0
  }

  function LastResetDate(p: Prefs): int
  {
    if LastResetDateKey in p && p[LastResetDateKey].LongPref? then p[LastResetDateKey].l else 0
  }

  function AddedTime(p: Prefs): int
  {
    if AddedTimeKey in p && p[AddedTimeKey].IntPref? then p[AddedTimeKey].i else 0
  }

  function AutostartEnabled(p: Prefs): bool
  {
    if AutostartEnabledKey in p && p[AutostartEnabledKey].BoolPref? then p[AutostartEnabledKey].b else false
  }

  /** Assumed default: blocking is off until enabled. */
  function BlockingEnabled(p: Prefs): bool
  {
    if BlockingEnabledKey in p && p[BlockingEnabledKey].BoolPref? then p[BlockingEnabledKey].b else false
  }

  /** Unset keys read as the defaults: PIN "0000", limit 60, added 0, last reset 0, autostart off. */
  lemma UnsetKeysReadDefaults(p: Prefs)
    ensures PinKey !in p ==> Pin(p) == DEFAULT_PIN
    ensures DailyLimitKey !in p ==> DailyLimit(p) == DEFAULT_DAILY_LIMIT_MINUTES
    ensures CodesKey !in p ==> Codes(p) == []
    ensures RemainingTimeKey !in p ==> RemainingTime(p) == 0
    ensures AddedTimeKey !in p ==> AddedTime(p) == 0
    ensures LastResetDateKey !in p ==> LastResetDate(p) == 0
    ensures AutostartEnabledKey !in p ==> !AutostartEnabled(p)
    ensures BlockingEnabledKey !in p ==> !BlockingEnabled(p)
  {
  }

  /** On a well-typed store the numeric getters return `Int`/`Long` values. */
  lemma GettersInRange(p: Prefs)
    requires WellTyped(p)
    ensures IsInt(DailyLimit(p)) && IsInt(AddedTime(p)) && IsInt(RemainingTime(p)) && IsLong(LastResetDate(p))
  {
  }

  // ---- The code list ----

  /** `indexOfFirst { it.value == value }`: -1 when no code has that value. */
  function IndexOfFirst(codes: seq<Code>, value: string): (i: int)
    ensures -1 <= i < |codes|
    ensures i >= 0 ==> codes[i].value == value && forall j :: 0 <= j < i ==> codes[j].value != value
    ensures i == -1 <==> forall j :: 0 <= j < |codes| ==> codes[j].value != value
    decreases |codes|
  {
    if codes == [] then -1
    else if codes[0].value == value then 0
    else
      var k := IndexOfFirst(codes[1..], value);
      if k < 0 then -1 else k + 1
  }

  /** `findCode`: the first stored code with that value, or null. */
  function FindCode(codes: seq<Code>, value: string): (r: Option<Code>)
    ensures r.None? <==> forall j :: 0 <= j < |codes| ==> codes[j].value != value
    ensures r.Some? ==> exists i :: 0 <= i < |codes| && codes[i] == r.value && r.value.value == value
                                    && forall j :: 0 <= j < i ==> codes[j].value != value
  {
    var i := IndexOfFirst(codes, value);
    if i >= 0 then Some(codes[i]) else None
  }

  /** The store after `saveCodes(codes)`. */
  function SavedCodes(p: Prefs, codes: seq<Code>): Prefs
  {
    p[CodesKey := CodesPref(codes)]
  }

  /** The store after `updateCode(c)`: the first code with the same value is replaced. */
  function UpdatedCode(p: Prefs, c: Code): Prefs
  {
    var codes := Codes(p);
    var i := IndexOfFirst(codes, c.value);
    if i >= 0 then SavedCodes(p, codes[i := c]) else p
  }

  /** `updateCode` keeps the list length, replaces only the first match, and is a no-op without one. */
  lemma UpdatedCodeEffect(p: Prefs, c: Code)
    ensures var before, after := Codes(p), Codes(UpdatedCode(p, c));
      && |after| == |before|
      && (forall j :: 0 <= j < |before| && j != IndexOfFirst(before, c.value) ==> after[j] == before[j])
      && (IndexOfFirst(before, c.value) >= 0 ==> after[IndexOfFirst(before, c.value)] == c)
      && (IndexOfFirst(before, c.value) < 0 ==> UpdatedCode(p, c) == p)
    ensures UpdatedCode(p, c) - {CodesKey} == p - {CodesKey}
  {
  }

  // ---- Added minutes and the daily reset ----

  /** The store after `addToAddedTime(minutes)`. */
  function AddedToAddedTime(p: Prefs, minutes: int): Prefs
  {
    p[AddedTimeKey := IntPref(AddInt(AddedTime(p), minutes))]
  }

  /** `addToAddedTime` adds exactly `minutes` when the sum fits an `Int`, and touches no other key. */
  lemma AddedToAddedTimeEffect(p: Prefs, minutes: int)
    ensures IsInt(AddedTime(p) + minutes) ==> AddedTime(AddedToAddedTime(p, minutes)) == AddedTime(p) + minutes
    ensures AddedToAddedTime(p, minutes) - {AddedTimeKey} == p - {AddedTimeKey}
  {
  }

  /** The store after `resetDailyData`. */
  function DailyDataReset(p: Prefs, todayStart: int): Prefs
  {
    p[RemainingTimeKey := IntPref(0)][AddedTimeKey := IntPref(0)][LastResetDateKey := LongPref(todayStart)]
  }

  /** The store after `ensureDailyResetIfNeeded` (assumed: reset when the last reset predates today). */
  function DailyResetIfNeeded(p: Prefs, todayStart: int): Prefs
  {
    if TimeManager.ShouldResetDailyLimit(LastResetDate(p), todayStart) then DailyDataReset(p, todayStart) else p
  }

  /** `resetDailyData` zeroes remaining and added minutes and records today's midnight; nothing else changes. */
  lemma DailyDataResetEffect(p: Prefs, todayStart: int)
    ensures var q := DailyDataReset(p, todayStart);
      RemainingTime(q) == 0 && AddedTime(q) == 0 && LastResetDate(q) == todayStart
      && Pin(q) == Pin(p) && DailyLimit(q) == DailyLimit(p) && Codes(q) == Codes(p)
      && AutostartEnabled(q) == AutostartEnabled(p) && BlockingEnabled(q) == BlockingEnabled(p)
  {
  }

  /** The rollover happens at most once a day: a second check on the same day changes nothing. */
  lemma DailyResetIdempotent(p: Prefs, todayStart: int)
    ensures !TimeManager.ShouldResetDailyLimit(LastResetDate(DailyResetIfNeeded(p, todayStart)), todayStart)
    ensures DailyResetIfNeeded(DailyResetIfNeeded(p, todayStart), todayStart) == DailyResetIfNeeded(p, todayStart)
  {
  }

  /** The rollover only touches the daily keys. */
  lemma DailyResetKeepsSettings(p: Prefs, todayStart: int)
    ensures var q := DailyResetIfNeeded(p, todayStart);
      Pin(q) == Pin(p) && DailyLimit(q) == DailyLimit(p) && Codes(q) == Codes(p)
      && BlockingEnabled(q) == BlockingEnabled(p) && AutostartEnabled(q) == AutostartEnabled(p)
  {
  }

  /** The store after `initializeIfNeeded`. */
  function Initialized(p: Prefs, todayStart: int): Prefs
  {
    var p1 := if LastResetDate(p) == 0 then p[LastResetDateKey := LongPref(todayStart)] else p;
    if Pin(p1) == "" then p1[PinKey := StringPref(DEFAULT_PIN)] else p1
  }

  /**
   * `initializeIfNeeded` sets the last reset only when it reads 0 and the PIN only when it is
   * empty, so a second call changes nothing.
   */
  lemma InitializedEffect(p: Prefs, todayStart: int)
    ensures var q := Initialized(p, todayStart);
      && LastResetDate(q) == (if LastResetDate(p) == 0 then todayStart else LastResetDate(p))
      && Pin(q) == (if Pin(p) == "" then DEFAULT_PIN else Pin(p))
      && q - {LastResetDateKey, PinKey} == p - {LastResetDateKey, PinKey}
    ensures Initialized(Initialized(p, todayStart), todayStart) == Initialized(p, todayStart)
  {
  }

  // ---- Code generation ----

  /** The distinct values of `s` in order of first occurrence. */
  function Dedup(s: seq<string>): seq<string>
    decreases |s|
  {
    if s == [] then []
    else
      var prev := Dedup(s[..|s| - 1]);
      var x := s[|s| - 1];
      if x in prev then prev else prev + [x]
  }

  /** No value occurs twice among the distinct values. */
  lemma {:induction false} DedupDistinct(s: seq<string>)
    ensures forall i, j :: 0 <= i < j < |Dedup(s)| ==> Dedup(s)[i] != Dedup(s)[j]
    decreases |s|
  {
    if s != [] {
      var init := s[..|s| - 1];
      DedupDistinct(init);
      if s[|s| - 1] !in Dedup(init) {
        var r := Dedup(s);
        forall i, j | 0 <= i < j < |r| ensures r[i] != r[j] {
          if j == |r| - 1 {
            assert r[i] in Dedup(init);
          }
        }
      }
    }
  }

  /** Every distinct value is one of the draws, and every draw is among them. */
  lemma {:induction false} DedupMembers(s: seq<string>, x: string)
    ensures x in Dedup(s) <==> x in s
    decreases |s|
  {
    if s != [] {
      var init := s[..|s| - 1];
      assert s == init + [s[|s| - 1]];
      DedupMembers(init, x);
    }
  }

  /** Dropping later draws keeps a prefix of the distinct values. */
  lemma {:induction false} DedupPrefix(s: seq<string>, i: nat)
    requires i <= |s|
    ensures Dedup(s[..i]) <= Dedup(s)
    decreases |s|
  {
    if i < |s| {
      var init := s[..|s| - 1];
      assert init[..i] == s[..i];
      DedupPrefix(init, i);
    } else {
      assert s[..i] == s;
    }
  }

  /** One more draw adds its value to the distinct values unless it is already there. */
  lemma DedupSnoc(s: seq<string>, x: string)
    ensures Dedup(s + [x]) == if x in Dedup(s) then Dedup(s) else Dedup(s) + [x]
  {
    assert (s + [x])[..|s|] == s;
  }

  /** The codes `generateCodes` builds from a list of values. */
  function FreshCodes(values: seq<string>, minutesPerCode: int): (r: seq<Code>)
    ensures |r| == |values|
    ensures forall i :: 0 <= i < |r| ==> r[i] == Code(values[i], minutesPerCode, false, None)
  {
    if values == [] then [] else FreshCodes(values[..|values| - 1], minutesPerCode) + [Code(values[|values| - 1], minutesPerCode, false, None)]
  }

  /** `codes.any { it.value == v }` on freshly built codes asks whether `v` was already drawn. */
  lemma FreshCodesHaveValue(values: seq<string>, minutesPerCode: int, v: string)
    ensures IndexOfFirst(FreshCodes(values, minutesPerCode), v) >= 0 <==> v in values
  {
    var codes := FreshCodes(values, minutesPerCode);
    if v in values {
      var i :| 0 <= i < |values| && values[i] == v;
      assert codes[i].value == v;
    }
  }

  /** While fewer distinct values are collected than the draws hold, some draw is left. */
  lemma DrawsLeft(draws: seq<string>, next: nat)
    requires next <= |draws|
    requires |Dedup(draws[..next])| < |Dedup(draws)|
    ensures next < |draws|
  {
    assert draws[..|draws|] == draws;
  }

  /** `chars.random()` only ever yields characters of `CODE_ALPHABET`. */
  lemma AlphabetChar(c: char)
    requires c in CODE_ALPHABET
    ensures IsAlphabetChar(c)
  {
  }

  /**
   * The `k`-th attempt of the draw loop, `(1..4).map { chars.random() }.joinToString("")`:
   * the next four character draws, joined.
   */
  function DrawnCode(draws: seq<char>, k: nat): string
    requires k < |draws| / CODE_LENGTH
  {
    draws[CODE_LENGTH * k .. CODE_LENGTH * k + CODE_LENGTH]
  }

  /** Every attempt the character draws are enough for, in order. */
  function Attempts(draws: seq<char>): seq<string>
  {
    seq(|draws| / CODE_LENGTH, k requires 0 <= k < |draws| / CODE_LENGTH => DrawnCode(draws, k))
  }

  /** Four draws of alphabet characters make a well-formed code value. */
  lemma AttemptsAreCodeValues(draws: seq<char>)
    requires forall i :: 0 <= i < |draws| ==> draws[i] in CODE_ALPHABET
    ensures forall k :: 0 <= k < |Attempts(draws)| ==> IsCodeValue(Attempts(draws)[k])
  {
    forall k | 0 <= k < |Attempts(draws)| ensures IsCodeValue(Attempts(draws)[k]) {
      var s := DrawnCode(draws, k);
      forall i | 0 <= i < |s| ensures IsAlphabetChar(s[i]) {
        assert s[i] == draws[CODE_LENGTH * k + i];
        AlphabetChar(s[i]);
      }
    }
  }

  /** Codes built from the first `n` distinct attempts are distinct, well-formed and unused. */
  lemma DrawnCodesShape(draws: seq<char>, n: nat, minutesPerCode: int)
    requires forall i :: 0 <= i < |draws| ==> draws[i] in CODE_ALPHABET
    requires n <= |Dedup(Attempts(draws))|
    ensures var codes := FreshCodes(Dedup(Attempts(draws))[..n], minutesPerCode);
      && (forall i, j :: 0 <= i < j < |codes| ==> codes[i].value != codes[j].value)
      && (forall i :: 0 <= i < |codes| ==>
            IsCodeValue(codes[i].value) && codes[i].addedTimeMinutes == minutesPerCode && !codes[i].isUsed)
  {
    var attempts := Attempts(draws);
    var values := Dedup(attempts)[..n];
    AttemptsAreCodeValues(draws);
    DedupDistinct(attempts);
    forall i | 0 <= i < |values| ensures IsCodeValue(values[i]) {
      DedupMembers(attempts, values[i]);
    }
  }

  /** One more attempt extends the distinct values of the attempts before it when it is new. */
  lemma DedupExtend(attempts: seq<string>, i: nat)
    requires i < |attempts|
    ensures var before := Dedup(attempts[..i]);
      Dedup(attempts[..i + 1]) == if attempts[i] in before then before else before + [attempts[i]]
  {
    assert attempts[..i + 1] == attempts[..i] + [attempts[i]];
    DedupSnoc(attempts[..i], attempts[i]);
  }

  /**
   * The `do { draw } while (codes.any { it.value == codeValue })` loop: starting after `next`
   * attempts, it draws until a value not yet among the codes, which is the next distinct attempt.
   */
  method DrawUnusedValue(codes: seq<Code>, minutesPerCode: int, attempts: seq<string>, next: nat, ghost values: seq<string>)
    returns (codeValue: string, after: nat)
    requires next <= |attempts|
    requires values == Dedup(attempts[..next]) && |values| < |Dedup(attempts)|
    requires codes == FreshCodes(values, minutesPerCode)
    ensures next < after <= |attempts| && codeValue == attempts[after - 1]
    ensures codeValue !in values
    ensures Dedup(attempts[..after]) == values + [codeValue]
  {
    DrawsLeft(attempts, next);
    codeValue := attempts[next];
    after := next + 1;
    FreshCodesHaveValue(values, minutesPerCode, codeValue);
    var taken := IndexOfFirst(codes, codeValue) >= 0;
    while taken
      invariant next < after <= |attempts|
      invariant codeValue == attempts[after - 1]
      invariant values == Dedup(attempts[..after - 1])
      invariant taken <==> codeValue in values
      decreases |attempts| - after
    {
      DedupExtend(attempts, after - 1);
      DrawsLeft(attempts, after);
      codeValue := attempts[after];
      after := after + 1;
      FreshCodesHaveValue(values, minutesPerCode, codeValue);
      taken := IndexOfFirst(codes, codeValue) >= 0;
    }
    DedupExtend(attempts, after - 1);
  }

  /**
   * The `repeat(count) { ... }` loop of `generateCodes`. `attempts` are the successive values the
   * draw produces (see `Attempts`), and they must eventually hold `count` distinct ones. The
   * codes carry the first `count` distinct attempts, in order.
   */
  method DrawDistinctCodes(minutesPerCode: int, count: int, attempts: seq<string>) returns (codes: seq<Code>)
    requires count <= |Dedup(attempts)|
    ensures |codes| == (if count < 0 then 0 else count)
    ensures codes == FreshCodes(Dedup(attempts)[..|codes|], minutesPerCode)
  {
    var n := if count < 0 then 0 else count;
    codes := [];
    ghost var values: seq<string> := [];
    var next := 0;  // how many attempts have been made
    for k := 0 to n
      invariant 0 <= next <= |attempts|
      invariant values == Dedup(attempts[..next]) && |values| == k
      invariant codes == FreshCodes(values, minutesPerCode)
    {
      var codeValue;
      codeValue, next := DrawUnusedValue(codes, minutesPerCode, attempts, next, values);
      codes := codes + [Code(codeValue, minutesPerCode, false, None)];
      values := values + [codeValue];
      assert values[..|values| - 1] == values[..k];
    }
    DedupPrefix(attempts, next);
    assert values == Dedup(attempts)[..n];
  }

  /**
   * The SharedPreferences-backed repository. Every setter writes one key; `Valid` says each
   * key holds the type its setter writes.
   */
  class DataRepository {
    var prefs: Prefs

    ghost predicate Valid()
      reads this
    {
      WellTyped(prefs)
    }

    constructor ()
      ensures Valid() && prefs == map[]
    {
      prefs := map[];
    }

    method SetPin(pin: string)
      requires Valid()
      modifies this
      ensures Valid() && prefs == old(prefs)[PinKey := StringPref(pin)]
      ensures Pin(prefs) == pin
    {
      prefs := prefs[PinKey := StringPref(pin)];
    }

    method SetDailyTimeLimitMinutes(minutes: int)
      requires Valid() && IsInt(minutes)
      modifies this
      ensures Valid() && prefs == old(prefs)[DailyLimitKey := IntPref(minutes)]
      ensures DailyLimit(prefs) == minutes
    {
      prefs := prefs[DailyLimitKey := IntPref(minutes)];
    }

    /** A single write: the commit-then-apply retry is a durability concern outside the model. */
    method SaveCodes(codes: seq<Code>)
      requires Valid()
      modifies this
      ensures Valid() && prefs == SavedCodes(old(prefs), codes)
      ensures Codes(prefs) == codes
    {
      prefs := prefs[CodesKey := CodesPref(codes)];
    }

    method AddCode(code: Code)
      requires Valid()
      modifies this
      ensures Valid() && prefs == SavedCodes(old(prefs), Codes(old(prefs)) + [code])
    {
      var codes := Codes(prefs);
      SaveCodes(codes + [code]);
    }

    method UpdateCode(updatedCode: Code)
      requires Valid()
      modifies this
      ensures Valid() && prefs == UpdatedCode(old(prefs), updatedCode)
    {
      var codes := Codes(prefs);
      var index := IndexOfFirst(codes, updatedCode.value);
      if index >= 0 {
        SaveCodes(codes[index := updatedCode]);
      }
    }

    method SetRemainingTimeMinutes(minutes: int)
      requires Valid() && IsInt(minutes)
      modifies this
      ensures Valid() && prefs == old(prefs)[RemainingTimeKey := IntPref(minutes)]
    {
      prefs := prefs[RemainingTimeKey := IntPref(minutes)];
    }

    method AddTimeMinutes(minutes: int)
      requires Valid()
      modifies this
      ensures Valid() && prefs == old(prefs)[RemainingTimeKey := IntPref(AddInt(RemainingTime(old(prefs)), minutes))]
    {
      var current := RemainingTime(prefs);
      SetRemainingTimeMinutes(AddInt(current, minutes));
    }

    method ResetRemainingTime()
      requires Valid()
      modifies this
      ensures Valid() && prefs == old(prefs)[RemainingTimeKey := IntPref(0)]
    {
      SetRemainingTimeMinutes(0);
    }

    method SetLastResetDate(timestamp: int)
      requires Valid() && IsLong(timestamp)
      modifies this
      ensures Valid() && prefs == old(prefs)[LastResetDateKey := LongPref(timestamp)]
    {
      prefs := prefs[LastResetDateKey := LongPref(timestamp)];
    }

    method SetAddedTimeMinutes(minutes: int)
      requires Valid() && IsInt(minutes)
      modifies this
      ensures Valid() && prefs == old(prefs)[AddedTimeKey := IntPref(minutes)]
    {
      prefs := prefs[AddedTimeKey := IntPref(minutes)];
    }

    method AddToAddedTime(minutes: int)
      requires Valid()
      modifies this
      ensures Valid() && prefs == AddedToAddedTime(old(prefs), minutes)
    {
      var current := AddedTime(prefs);
      SetAddedTimeMinutes(AddInt(current, minutes));
    }

    method ResetAddedTime()
      requires Valid()
      modifies this
      ensures Valid() && prefs == old(prefs)[AddedTimeKey := IntPref(0)]
    {
      SetAddedTimeMinutes(0);
    }

    method SetAutostartEnabled(enabled: bool)
      requires Valid()
      modifies this
      ensures Valid() && prefs == old(prefs)[AutostartEnabledKey := BoolPref(enabled)]
    {
      prefs := prefs[AutostartEnabledKey := BoolPref(enabled)];
    }

    /** Assumed setter for the blocking flag (called by the admin screen, not declared in the repository). */
    method SetBlockingEnabled(enabled: bool)
      requires Valid()
      modifies this
      ensures Valid() && prefs == old(prefs)[BlockingEnabledKey := BoolPref(enabled)]
    {
      prefs := prefs[BlockingEnabledKey := BoolPref(enabled)];
    }

    /**
     * `generateCodes`: wipes the stored list, collects `count` distinct random values (see
     * `DrawDistinctCodes`), each four characters drawn from `draws` (see `Attempts`), and
     * stores the new codes.
     */
    method GenerateCodes(minutesPerCode: int, count: int, draws: seq<char>) returns (codes: seq<Code>)
      requires Valid()
      requires forall i :: 0 <= i < |draws| ==> draws[i] in CODE_ALPHABET
      requires count <= |Dedup(Attempts(draws))|
      modifies this
      ensures Valid() && prefs == SavedCodes(old(prefs), codes)
      ensures |codes| == (if count < 0 then 0 else count)
      ensures codes == FreshCodes(Dedup(Attempts(draws))[..|codes|], minutesPerCode)
      ensures forall i, j :: 0 <= i < j < |codes| ==> codes[i].value != codes[j].value
      ensures forall i :: 0 <= i < |codes| ==>
                IsCodeValue(codes[i].value) && codes[i].addedTimeMinutes == minutesPerCode && !codes[i].isUsed
    {
      SaveCodes([]);
      codes := DrawDistinctCodes(minutesPerCode, count, Attempts(draws));
      DrawnCodesShape(draws, |codes|, minutesPerCode);
      SaveCodes(codes);
    }

    method ResetDailyData(todayStart: int)
      requires Valid() && IsLong(todayStart)
      modifies this
      ensures Valid() && prefs == DailyDataReset(old(prefs), todayStart)
    {
      ResetRemainingTime();
      ResetAddedTime();
      SetLastResetDate(todayStart);
    }

    method EnsureDailyResetIfNeeded(todayStart: int)
      requires Valid() && IsLong(todayStart)
      modifies this
      ensures Valid() && prefs == DailyResetIfNeeded(old(prefs), todayStart)
    {
      if TimeManager.ShouldResetDailyLimit(LastResetDate(prefs), todayStart) {
        ResetDailyData(todayStart);
      }
    }

    method InitializeIfNeeded(todayStart: int)
      requires Valid() && IsLong(todayStart)
      modifies this
      ensures Valid() && prefs == Initialized(old(prefs), todayStart)
    {
      if LastResetDate(prefs) == 0 {
        SetLastResetDate(todayStart);
      }
      var currentPin := Pin(prefs);
      if currentPin == "" {
        SetPin(DEFAULT_PIN);
      }
    }
  }
}
