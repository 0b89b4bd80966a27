/** The postal-code validator shared by both page variants. */
module ZipCode {
  predicate IsDigit(c: char) { '0' <= c <= '9' }

  predicate AllDigits(s: string) {
    forall i :: 0 <= i < |s| ==> IsDigit(s[i])
  }

  /** `numeric(s)` stands for JavaScript's `!isNaN(s)` on a string. The model
      only assumes that every string of decimal digits converts to a number;
      the rest of the numeric-literal grammar is left open. */
  ghost predicate DigitsAreNumeric(numeric: string -> bool) {
    forall s :: AllDigits(s) ==> numeric(s)
  }

  /** A zip code is accepted when it converts to a number and is exactly five
      characters long: nothing of another length passes, and every five-digit
      string does. */
  function ValidateZipCode(value: string, numeric: string -> bool): (ok: bool)
    ensures ok ==> |value| == 5
    ensures DigitsAreNumeric(numeric) && |value| == 5 && AllDigits(value) ==> ok
  {
    numeric(value) && |value| == 5
  }
}
