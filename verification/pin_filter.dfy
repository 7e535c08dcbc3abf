/**
 * The `InputFilter` of the PIN text field (PinInputFragment.kt): typed text is upper-cased,
 * stripped to letters and digits, spliced into the field's text and cut at 20 characters.
 */
module PinFilter {
  import opened Kotlin

  /** The longest text the filter returns. */
  const MAX_TEXT_LENGTH: int := 20

  /** The characters the filter keeps from `s`, upper-cased, in order. */
  function FilterChars(s: string): string
    decreases |s|
  {
    if s == [] then []
    else
      var c := UppercaseChar(s[|s| - 1]);
      FilterChars(s[..|s| - 1]) + (if IsLetterOrDigit(c) then [c] else [])
  }

  /** Filtering keeps only upper-case letters and digits, never lengthens, and works piece by piece. */
  lemma {:induction false} FilterCharsShape(s: string)
    ensures |FilterChars(s)| <= |s|
    ensures forall i :: 0 <= i < |FilterChars(s)| ==> IsDigit(FilterChars(s)[i]) || 'A' <= FilterChars(s)[i] <= 'Z'
    decreases |s|
  {
    if s != [] {
      FilterCharsShape(s[..|s| - 1]);
    }
  }

  lemma {:induction false} FilterCharsAppend(a: string, b: string)
    ensures FilterChars(a + b) == FilterChars(a) + FilterChars(b)
    decreases |b|
  {
    if b == [] {
      assert a + b == a;
    } else {
      assert (a + b)[..|a + b| - 1] == a + b[..|b| - 1];
      FilterCharsAppend(a, b[..|b| - 1]);
    }
  }

  /** Filtered text passes the filter unchanged. */
  lemma {:induction false} FilterCharsIdempotent(s: string)
    ensures FilterChars(FilterChars(s)) == FilterChars(s)
    decreases |s|
  {
    if s != [] {
      var init := s[..|s| - 1];
      var c := UppercaseChar(s[|s| - 1]);
      FilterCharsIdempotent(init);
      FilterCharsAppend(FilterChars(init), if IsLetterOrDigit(c) then [c] else []);
      if IsLetterOrDigit(c) {
        assert [c][..0] == [];
      }
    }
  }

  /** `source[start until end]`: empty when `start >= end`. */
  function Range(source: string, start: int, end: int): string
    requires 0 <= start && end <= |source|
  {
    if start < end then source[start..end] else ""
  }

  /** `dest?.length ?: 0`, with a null field text read as "". */
  function DestText(dest: Option<string>): string
  {
    if dest.Some? then dest.value else ""
  }

  /** `safeDstart` and `safeDend`: the replaced range clamped into the field's text. */
  function SafeStart(destLength: int, dstart: int): int
    requires destLength >= 0
  {
    CoerceIn(dstart, 0, destLength)
  }

  function SafeEnd(destLength: int, dstart: int, dend: int): int
    requires destLength >= 0
  {
    CoerceIn(dend, SafeStart(destLength, dstart), destLength)
  }

  /** Clamping always yields a range inside the text. */
  lemma ClampBounds(destLength: int, dstart: int, dend: int)
    requires destLength >= 0
    ensures 0 <= SafeStart(destLength, dstart) <= SafeEnd(destLength, dstart, dend) <= destLength
    ensures 0 <= dstart <= dend <= destLength ==>
              SafeStart(destLength, dstart) == dstart && SafeEnd(destLength, dstart, dend) == dend
  {
  }

  /** The field text with the clamped range replaced by `inserted`, before truncation. */
  function Splice(dest: string, dstart: int, dend: int, inserted: string): string
  {
    var s, e := SafeStart(|dest|, dstart), SafeEnd(|dest|, dstart, dend);
    dest[..s] + inserted + dest[e..]
  }

  /** The builder's three guarded appends produce the splice: an empty part is simply skipped. */
  lemma SpliceByParts(dest: string, dstart: int, dend: int, inserted: string)
    ensures var s, e := SafeStart(|dest|, dstart), SafeEnd(|dest|, dstart, dend);
      (if s > 0 && s <= |dest| then dest[..s] else "") + inserted + (if e < |dest| && e >= 0 then dest[e..] else "")
        == Splice(dest, dstart, dend, inserted)
  {
    var s, e := SafeStart(|dest|, dstart), SafeEnd(|dest|, dstart, dend);
    if s == 0 {
      assert dest[..s] == "";
    }
    if e == |dest| {
      assert dest[e..] == "";
    }
  }

  /** The first 20 characters. */
  function Truncate(text: string): string
  {
    if |text| > MAX_TEXT_LENGTH then text[..MAX_TEXT_LENGTH] else text
  }

  /** What the filter returns, as written: null for a deletion, "" when nothing survives, else the cut splice. */
  function FilterResult(source: Option<string>, start: int, end: int, dest: Option<string>, dstart: int, dend: int): (r: Option<string>)
    requires source.Some? ==> 0 <= start && end <= |source.value|
    ensures r.None? <==> source.None? || source.value == ""
    ensures r.Some? ==> |r.value| <= MAX_TEXT_LENGTH
  {
    if source.None? || source.value == "" then None
    else
      var filtered := FilterChars(Range(source.value, start, end));
      if filtered == "" then Some("")
      else Some(Truncate(Splice(DestText(dest), dstart, dend, filtered)))
  }

  /**
   * For a typed source the result is "" exactly when no typed character survives, and otherwise
   * the first min(20, length) characters of the field text with the filtered input in place,
   * which is never empty.
   */
  lemma FilterResultShape(source: Option<string>, start: int, end: int, dest: Option<string>, dstart: int, dend: int)
    requires source.Some? ==> 0 <= start && end <= |source.value|
    ensures source.Some? && source.value != "" ==>
      var r := FilterResult(source, start, end, dest, dstart, dend);
      var filtered := FilterChars(Range(source.value, start, end));
      var spliced := Splice(DestText(dest), dstart, dend, filtered);
      && (filtered == "" ==> r == Some(""))
      && (filtered != "" ==>
            && |r.value| == (if |spliced| > MAX_TEXT_LENGTH then MAX_TEXT_LENGTH else |spliced|)
            && r.value == spliced[..|r.value|]
            && r.value != "")
  {
  }

  /** One more typed character adds itself, upper-cased, when it is a letter or digit. */
  lemma FilterCharsSnoc(src: string, start: int, i: int)
    requires 0 <= start <= i < |src|
    ensures var c := UppercaseChar(src[i]);
      FilterChars(Range(src, start, i + 1)) == FilterChars(Range(src, start, i)) + (if IsLetterOrDigit(c) then [c] else [])
  {
    var s := Range(src, start, i + 1);
    assert s == Range(src, start, i) + [src[i]];
    assert s[..|s| - 1] == Range(src, start, i);
  }

  /** The loop over `start until end` that upper-cases the typed characters and keeps letters and digits. */
  method FilterSource(src: string, start: int, end: int) returns (filtered: string)
    requires 0 <= start && end <= |src|
    ensures filtered == FilterChars(Range(src, start, end))
  {
    filtered := "";
    if start < end {
      for i := start to end
        invariant filtered == FilterChars(Range(src, start, i))
      {
        FilterCharsSnoc(src, start, i);
        var c := UppercaseChar(src[i]);
        if IsLetterOrDigit(c) {
          filtered := filtered + [c];
        }
      }
    }
  }

  /** The filter lambda, with its two `StringBuilder`s; the character loop is `FilterSource`. */
  method FilterPinInput(source: Option<string>, start: int, end: int, dest: Option<string>, dstart: int, dend: int)
    returns (r: Option<string>)
    requires source.Some? ==> 0 <= start && end <= |source.value|
    ensures r == FilterResult(source, start, end, dest, dstart, dend)
  {
    if source.None? || source.value == "" {
      return None;
    }
    var src := source.value;
    var destText := DestText(dest);
    var destLength := |destText|;
    var safeDstart := CoerceIn(dstart, 0, destLength);
    var safeDend := CoerceIn(dend, safeDstart, destLength);

    var filteredSource := FilterSource(src, start, end);
    if filteredSource == "" {
      return Some("");
    }

    var result := "";
    if safeDstart > 0 && safeDstart <= destLength {
      result := result + destText[..safeDstart];
    }
    assert result == if safeDstart > 0 && safeDstart <= destLength then destText[..safeDstart] else "";
    result := result + filteredSource;
    ghost var middle := result;
    if safeDend < destLength && safeDend >= 0 {
      result := result + destText[safeDend..];
    }
    assert result == middle + if safeDend < destLength && safeDend >= 0 then destText[safeDend..] else "";
    SpliceByParts(destText, dstart, dend, filteredSource);
    assert result == Splice(destText, dstart, dend, filteredSource);
    var finalText := result;
    if |finalText| > MAX_TEXT_LENGTH {
      r := Some(finalText[..MAX_TEXT_LENGTH]);
    } else {
      r := Some(finalText);
    }
  }

  /**
   * The field text after Android applies a filter's answer: the answer replaces the typed text
   * `source[start until end]` inside `dest[dstart until dend]`; null keeps the typed text.
   */
  function Applied(dest: string, dstart: int, dend: int, typed: string, answer: Option<string>): string
  {
    Splice(dest, dstart, dend, if answer.Some? then answer.value else typed)
  }

  /**
   * As written, the filter answers with the whole new text rather than the replacement, so the
   * field's existing text appears twice: typing "c" after "AB" gives "ABABC".
   */
  lemma FilterDuplicatesText()
    ensures FilterResult(Some("c"), 0, 1, Some("AB"), 2, 2) == Some("ABC")
    ensures Applied("AB", 2, 2, "c", FilterResult(Some("c"), 0, 1, Some("AB"), 2, 2)) == "ABABC"
  {
    assert Range("c", 0, 1) == "c";
    assert UppercaseChar('c') == 'C';
    assert "c"[..0] == [];
    assert FilterChars("c") == "C";
    assert "AB"[..2] == "AB" && "AB"[2..] == "";
    assert Splice("AB", 2, 2, "C") == "ABC";
    assert Splice("AB", 2, 2, "ABC") == "ABABC";
  }

  /** The room the field has for new characters within 20, once the replaced range is gone. */
  function Room(dest: string, dstart: int, dend: int): int
  {
    var kept := |dest| - (SafeEnd(|dest|, dstart, dend) - SafeStart(|dest|, dstart));
    if kept >= MAX_TEXT_LENGTH then 0 else MAX_TEXT_LENGTH - kept
  }

  /** The filter as evidently intended: it answers with the replacement only, cut to the room left. */
  function IntendedFilterResult(source: Option<string>, start: int, end: int, dest: Option<string>, dstart: int, dend: int): Option<string>
    requires source.Some? ==> 0 <= start && end <= |source.value|
  {
    if source.None? || source.value == "" then None
    else
      var filtered := FilterChars(Range(source.value, start, end));
      var room := Room(DestText(dest), dstart, dend);
      Some(if |filtered| > room then filtered[..room] else filtered)
  }

  /**
   * With the intended answer the field shows its old text once, with a prefix of the filtered
   * input in the replaced range, and never grows beyond 20 characters.
   */
  lemma IntendedFilterApplied(source: string, start: int, end: int, dest: string, dstart: int, dend: int)
    requires source != "" && 0 <= start && end <= |source|
    ensures var answer := IntendedFilterResult(Some(source), start, end, Some(dest), dstart, dend);
      var filtered := FilterChars(Range(source, start, end));
      var text := Applied(dest, dstart, dend, Range(source, start, end), answer);
      && answer.Some? && answer.value <= filtered
      && text == Splice(dest, dstart, dend, answer.value)
      && (|dest| <= MAX_TEXT_LENGTH ==> |text| <= MAX_TEXT_LENGTH)
      && (|Splice(dest, dstart, dend, filtered)| <= MAX_TEXT_LENGTH ==> text == Splice(dest, dstart, dend, filtered))
  {
    ClampBounds(|dest|, dstart, dend);
  }
}
