/** Constants and small helpers of the Android platform that the dialer's
    core reads: the telecom call states (android.telecom.Call), the
    telephony line states (android.telephony.TelephonyManager), Kotlin's
    nullable values, and Kotlin's decimal rendering of an Int inside a
    string template. */
module Platform {

  /** Kotlin's `T?`: a value that may be null. */
  datatype Option<T> = None | Some(value: T)

  // android.telecom.Call state codes
  const STATE_NEW: int := 0
  const STATE_DIALING: int := 1
  const STATE_RINGING: int := 2
  const STATE_HOLDING: int := 3
  const STATE_ACTIVE: int := 4
  const STATE_DISCONNECTED: int := 7

  // android.telephony.TelephonyManager line states
  const CALL_STATE_IDLE: int := 0
  const CALL_STATE_RINGING: int := 1
  const CALL_STATE_OFFHOOK: int := 2

  function DigitChar(d: nat): char
    requires d < 10
  {
    "0123456789"[d]
  }

  predicate AllDigits(s: string) {
    forall i :: 0 <= i < |s| ==> '0' <= s[i] <= '9'
  }

  /** Decimal digits of a natural number, most significant first. */
  function Digits(n: nat): (s: string)
    ensures |s| >= 1 && AllDigits(s)
  {
    if n < 10 then [DigitChar(n)] else Digits(n / 10) + [DigitChar(n % 10)]
  }

  /** What `"$n"` renders for an Int `n`. */
  function DecimalString(n: int): (s: string)
    ensures |s| >= 1
  {
    if n < 0 then "-" + Digits(-n) else Digits(n)
  }

  /** The value of one decimal digit character. */
  function DigitValue(c: char): (d: nat)
    requires '0' <= c <= '9'
    ensures d < 10 && DigitChar(d) == c
  {
    (c as int - '0' as int) as nat
  }

  /** The value of a string of decimal digits, most significant first. */
  function ValueOfDigits(s: string): nat
    requires AllDigits(s)
  {
    if s == [] then 0 else ValueOfDigits(s[..|s| - 1]) * 10 + DigitValue(s[|s| - 1])
  }

  /** A rendering of an Int: digits, optionally after a minus sign. */
  predicate IsDecimal(s: string) {
    |s| >= 1 && if s[0] == '-' then AllDigits(s[1..]) else AllDigits(s)
  }

  /** Reads back a string rendered as an Int. */
  function ParseDecimal(s: string): int
    requires IsDecimal(s)
  {
    if s[0] == '-' then 0 - ValueOfDigits(s[1..]) else ValueOfDigits(s)
  }

  /** Digits(n) denotes n, and it has no leading zero. */
  lemma {:induction false} DigitsDenote(n: nat)
    ensures ValueOfDigits(Digits(n)) == n
    ensures Digits(n)[0] == '0' ==> n == 0
  {
    if n >= 10 {
      DigitsDenote(n / 10);
      var s := Digits(n);
      assert s[..|s| - 1] == Digits(n / 10);
      assert s[|s| - 1] == DigitChar(n % 10);
    }
  }

  /** DecimalString(n) is a rendering that reads back as n. */
  lemma DecimalStringDenotes(n: int)
    ensures IsDecimal(DecimalString(n)) && ParseDecimal(DecimalString(n)) == n
  {
    var s := DecimalString(n);
    if n < 0 {
      DigitsDenote(-n);
      assert s[1..] == Digits(-n);
    } else {
      DigitsDenote(n);
      assert s == Digits(n);
    }
  }
}
