/** The two field checks that expense_handler.py and income_handler.py each
    carry an identical copy of: `_is_valid_date_format` and
    `_starts_with_number`. Both are modelled once, here, as the regular
    expressions they run under `re.match`. */
module Primitives {
  import opened Text

  datatype Option<T> = None | Some(value: T)

  // ---------------------------------------------------------------------
  // _is_valid_date_format: two digits, a dot, two digits, a dot, two digits,
  // optionally two more digits, then the end of the string.

  /** The mandatory part `\d{2}\.\d{2}\.\d{2}` at the start of `v`. */
  predicate DatePrefix(v: string) {
    && |v| >= 8
    && IsDigit(v[0]) && IsDigit(v[1]) && v[2] == '.'
    && IsDigit(v[3]) && IsDigit(v[4]) && v[5] == '.'
    && IsDigit(v[6]) && IsDigit(v[7])
  }

  /** Python's `$` without MULTILINE at position `i`: the end of the string, or
      just before a newline that ends the string. */
  predicate EndAnchor(v: string, i: nat) {
    i == |v| || (i + 1 == |v| && v[i] == '\n')
  }

  /** `_is_valid_date_format(value)`. The optional group `(\d{2})?` is greedy:
      the matcher first tries two more digits and then `$`, and on failure
      tries `$` right after the mandatory part. */
  predicate IsValidDateFormat(v: string) {
    && DatePrefix(v)
    && (|| (|v| >= 10 && IsDigit(v[8]) && IsDigit(v[9]) && EndAnchor(v, 10))
        || EndAnchor(v, 8))
  }

  /** The date shapes DD.MM.YY and DD.MM.YYYY, stated position by position. */
  predicate DateShape(v: string) {
    && (|v| == 8 || |v| == 10)
    && forall i :: 0 <= i < |v| ==> if i == 2 || i == 5 then v[i] == '.' else IsDigit(v[i])
  }

  /** For a value that does not end in a newline (every stripped value), the
      date check accepts exactly the two shapes: the whole string must match,
      so trailing text is rejected. */
  lemma DateFormatIsShape(v: string)
    requires v == [] || v[|v| - 1] != '\n'
    ensures IsValidDateFormat(v) <==> DateShape(v)
  {
    if DateShape(v) {
      assert IsDigit(v[0]) && IsDigit(v[1]) && IsDigit(v[3]) && IsDigit(v[4]);
      assert IsDigit(v[6]) && IsDigit(v[7]);
      assert |v| == 10 ==> IsDigit(v[8]) && IsDigit(v[9]);
    }
  }

  /** Python's `$` also matches before one final newline, so the check on its
      own accepts a date followed by "\n". */
  lemma DateFormatTrailingNewline(v: string)
    ensures IsValidDateFormat(v + "\n") <==> DateShape(v)
  {
    var w := v + "\n";
    assert forall i :: 0 <= i < |v| ==> w[i] == v[i];
    if DateShape(v) {
      assert IsDigit(v[0]) && IsDigit(v[1]) && IsDigit(v[3]) && IsDigit(v[4]);
      assert IsDigit(v[6]) && IsDigit(v[7]);
      assert |v| == 10 ==> IsDigit(v[8]) && IsDigit(v[9]);
    }
  }

  /** A stripped value never ends in a newline. */
  lemma StrippedHasNoFinalNewline(s: string)
    ensures Strip(s) == [] || Strip(s)[|Strip(s)| - 1] != '\n'
  {
    StripSlice(s);
  }

  /** The date check on a stripped value is exactly the shape check. */
  lemma StrippedDateFormat(s: string)
    ensures IsValidDateFormat(Strip(s)) <==> DateShape(Strip(s))
  {
    StrippedHasNoFinalNewline(s);
    DateFormatIsShape(Strip(s));
  }

  lemma DateFormatExamples()
    ensures IsValidDateFormat("24.12.2024")
    ensures IsValidDateFormat("24.12.24")
    ensures IsValidDateFormat("99.99.99")
    ensures !IsValidDateFormat("2024-12-24")
    ensures !IsValidDateFormat("24.12.2024 r")
    ensures !IsValidDateFormat("24.12.202")
    ensures !IsValidDateFormat("")
  {
  }

  // ---------------------------------------------------------------------
  // _starts_with_number: after stripping, one or more digits at the start,
  // optionally followed by a dot or comma and more digits.

  /** Length of the run of digits in `s` that starts at index `i`. */
  function DigitRun(s: string, i: nat): nat
    requires i <= |s|
    decreases |s| - i
  {
    if i < |s| && IsDigit(s[i]) then 1 + DigitRun(s, i + 1) else 0
  }

  /** `DigitRun` is the longest run: digits up to it, and no digit right after. */
  lemma {:induction false} DigitRunMaximal(s: string, i: nat)
    requires i <= |s|
    ensures i + DigitRun(s, i) <= |s|
    ensures forall j :: i <= j < i + DigitRun(s, i) ==> IsDigit(s[j])
    ensures i + DigitRun(s, i) < |s| ==> !IsDigit(s[i + DigitRun(s, i)])
    decreases |s| - i
  {
    if i < |s| && IsDigit(s[i]) {
      DigitRunMaximal(s, i + 1);
    }
  }

  /** The number pattern matched at the start of `s`: the length of the
      match, or `None`.
      `\d+` is greedy; the optional group is taken when a separator and at
      least one more digit follow, and skipped otherwise. */
  function MatchNumber(s: string): Option<nat> {
    var d := DigitRun(s, 0);
    if d == 0 then None
    else if d < |s| && (s[d] == '.' || s[d] == ',') && DigitRun(s, d + 1) > 0 then
      Some(d + 1 + DigitRun(s, d + 1))
    else
      Some(d)
  }

  /** The match is a non-empty prefix made of digits, dots and commas, and it
      starts with a digit. */
  lemma MatchNumberSpan(s: string)
    ensures MatchNumber(s).Some? ==> 0 < MatchNumber(s).value <= |s| && IsDigit(s[0])
    ensures MatchNumber(s).Some? ==>
              forall j :: 0 <= j < MatchNumber(s).value ==> IsDigit(s[j]) || s[j] == '.' || s[j] == ','
  {
    DigitRunMaximal(s, 0);
    var d := DigitRun(s, 0);
    if d > 0 && d < |s| {
      DigitRunMaximal(s, d + 1);
    }
  }

  /** Only `\d+` decides whether there is a match: the optional group never
      changes the outcome. */
  lemma MatchNumberIff(s: string)
    ensures MatchNumber(s).Some? <==> s != [] && IsDigit(s[0])
  {
  }

  /** `_starts_with_number(value)` */
  predicate StartsWithNumber(value: string) {
    var v := Strip(value);
    if v == [] then false else MatchNumber(v).Some?
  }

  /** A value that starts with a digit. */
  predicate LeadingDigit(v: string) {
    v != [] && IsDigit(v[0])
  }

  /** `_starts_with_number(v)` holds exactly when the stripped `v` is non-empty
      and starts with a digit. */
  lemma StartsWithNumberIff(value: string)
    ensures StartsWithNumber(value) <==> LeadingDigit(Strip(value))
  {
    MatchNumberIff(Strip(value));
  }

  /** On an already stripped value the check looks at the first character
      only. */
  lemma StartsWithNumberOnStripped(v: string)
    requires Strip(v) == v
    ensures StartsWithNumber(v) <==> LeadingDigit(v)
  {
    StartsWithNumberIff(v);
  }

  lemma StartsWithNumberAcceptsExamples()
    ensures StartsWithNumber("500 USD")
    ensures StartsWithNumber("12,5 EUR")
    ensures StartsWithNumber("12.")
  {
    StripUnchanged("500 USD");
    StripUnchanged("12,5 EUR");
    StripUnchanged("12.");
    StartsWithNumberOnStripped("500 USD");
    StartsWithNumberOnStripped("12,5 EUR");
    StartsWithNumberOnStripped("12.");
  }

  lemma StartsWithNumberRejectsExamples()
    ensures !StartsWithNumber("USD 500")
    ensures !StartsWithNumber(".5")
    ensures !StartsWithNumber("")
  {
    StripUnchanged("USD 500");
    StripUnchanged(".5");
    StartsWithNumberOnStripped("USD 500");
    StartsWithNumberOnStripped(".5");
  }

  lemma MatchNumberExamples()
    ensures MatchNumber("12,5 EUR") == Some(4)
    ensures MatchNumber("12.") == Some(2)
    ensures MatchNumber("500.00 USD") == Some(6)
    ensures MatchNumber(".5") == None
  {
  }
}
