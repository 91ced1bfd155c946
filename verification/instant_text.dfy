/**
 * The text form of an instant. The widget stores its target as an ISO-8601
 * string and reads it back with `new Date(...)` (script.js:70, 244, 278, 301);
 * the model writes an instant as its signed decimal count of milliseconds
 * since the epoch and proves that reading back what was written gives the
 * same instant, the one property the share link relies on.
 */
module InstantText {
  import opened Wrappers

  predicate IsDigit(ch: char) {
    '0' <= ch <= '9'
  }

  predicate AllDigits(s: string) {
    forall i :: 0 <= i < |s| ==> IsDigit(s[i])
  }

  function DigitChar(d: nat): (ch: char)
    requires d < 10
    ensures IsDigit(ch) && ch as int - '0' as int == d
  {
    ('0' as int + d) as char
  }

  /** The decimal numeral of `n`, most significant digit first, without leading zeros. */
  function Numeral(n: nat): (s: string)
    ensures s != [] && AllDigits(s)
    decreases n
  {
    if n < 10 then [DigitChar(n)] else Numeral(n / 10) + [DigitChar(n % 10)]
  }

  /** The number a string of decimal digits denotes. */
  function ValueOf(s: string): nat
    requires AllDigits(s)
    decreases |s|
  {
    if s == [] then 0 else ValueOf(s[..|s| - 1]) * 10 + (s[|s| - 1] as int - '0' as int)
  }

  /** The text written for the instant `ms`. */
  function Format(ms: int): (s: string)
    ensures s != []
  {
    if ms < 0 then "-" + Numeral(-ms) else Numeral(ms)
  }

  /**
   * Reads an instant back: `None` for text that is not an optional minus
   * sign followed by at least one digit (JavaScript's invalid date).
   */
  function Parse(s: string): Option<int> {
    if |s| > 1 && s[0] == '-' && AllDigits(s[1..]) then (var v: int := ValueOf(s[1..]); Some(-v))
    else if s != [] && AllDigits(s) then Some(ValueOf(s))
    else None
  }

  lemma {:induction false} NumeralValue(n: nat)
    ensures ValueOf(Numeral(n)) == n
    decreases n
  {
    if n >= 10 {
      var s := Numeral(n);
      assert s[..|s| - 1] == Numeral(n / 10);
      NumeralValue(n / 10);
    }
  }

  /** Every instant survives being written and read back. */
  lemma ParseFormat(ms: int)
    ensures Parse(Format(ms)) == Some(ms)
  {
    var s := Format(ms);
    if ms < 0 {
      assert s[0] == '-' && s[1..] == Numeral(-ms);
      NumeralValue(-ms);
    } else {
      assert IsDigit(s[0]);
      NumeralValue(ms);
    }
  }
}
