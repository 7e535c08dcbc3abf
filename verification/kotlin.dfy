/** Kotlin's fixed-width integers and the few standard-library helpers the app relies on. */
module Kotlin {

  /** A nullable value: `None` stands for Kotlin's `null`. */
  datatype Option<+T> = None | Some(value: T)

  const INT_MIN: int := -0x8000_0000
  const INT_MAX: int := 0x7fff_ffff
  const LONG_MIN: int := -0x8000_0000_0000_0000
  const LONG_MAX: int := 0x7fff_ffff_ffff_ffff

  predicate IsInt(x: int) { INT_MIN <= x <= INT_MAX }
  predicate IsLong(x: int) { LONG_MIN <= x <= LONG_MAX }

  /** Two's-complement narrowing to 32 bits: the result of Kotlin `Int` arithmetic and of `Long.toInt()`. */
  function ToInt(x: int): (r: int)
    ensures IsInt(r)
    ensures IsInt(x) ==> r == x
  {
    (x - INT_MIN) % 0x1_0000_0000 + INT_MIN
  }

  /** Two's-complement narrowing to 64 bits: the result of Kotlin `Long` arithmetic. */
  function ToLong(x: int): (r: int)
    ensures IsLong(r)
    ensures IsLong(x) ==> r == x
  {
    (x - LONG_MIN) % 0x1_0000_0000_0000_0000 + LONG_MIN
  }

  /** `a + b` and `a - b` on Kotlin `Int`. */
  function AddInt(a: int, b: int): int { ToInt(a + b) }
  function SubInt(a: int, b: int): int { ToInt(a - b) }

  /** `a + b` and `a - b` on Kotlin `Long`. */
  function AddLong(a: int, b: int): int { ToLong(a + b) }
  function SubLong(a: int, b: int): int { ToLong(a - b) }

  /** Kotlin's `/` rounds toward zero; Dafny's `/` is Euclidean. Only positive divisors occur in the app. */
  function DivTrunc(a: int, b: int): int
    requires b > 0
  {
    if a >= 0 then a / b else -((-a) / b)
  }

  /** Kotlin's `%`: the remainder has the sign of the dividend. */
  function RemTrunc(a: int, b: int): int
    requires b > 0
  {
    a - b * DivTrunc(a, b)
  }

  /** `x.coerceAtLeast(lo)` */
  function CoerceAtLeast(x: int, lo: int): int { if x < lo then lo else x }

  /** `x.coerceIn(lo, hi)`; Kotlin throws when lo > hi, which no call site allows. */
  function CoerceIn(x: int, lo: int, hi: int): int
    requires lo <= hi
  {
    if x < lo then lo else if x > hi then hi else x
  }

  /** `Char.isDigit()`, restricted to ASCII. */
  predicate IsDigit(c: char) { '0' <= c <= '9' }

  /** `Char.isLetterOrDigit()`, restricted to ASCII. */
  predicate IsLetterOrDigit(c: char) { IsDigit(c) || 'A' <= c <= 'Z' || 'a' <= c <= 'z' }

  /** `Char.uppercaseChar()`, restricted to ASCII. */
  function UppercaseChar(c: char): char
  {
    if 'a' <= c <= 'z' then (c as int - 32) as char else c
  }

  /** `s.startsWith(prefix)` */
  predicate StartsWith(s: string, prefix: string) { |prefix| <= |s| && s[..|prefix|] == prefix }

  /** `s.all { it.isDigit() }` */
  predicate AllDigits(s: string) { forall i :: 0 <= i < |s| ==> IsDigit(s[i]) }
}
