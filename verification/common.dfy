/** Types and helpers shared by every component: Arduino ticks, 8-bit values and decimal text. */
module Common {

  datatype Option<+T> = None | Some(value: T)

  /** 2^32: the range of Arduino's `unsigned long` millis() counter. */
  const TickModulus: int := 0x1_0000_0000

  /** A value of millis(): an unsigned 32-bit millisecond tick. */
  type Millis = t: int | 0 <= t < TickModulus

  /** A uint8_t value. */
  type Byte = b: int | 0 <= b < 256

  function Min(a: nat, b: nat): nat { if a < b then a else b }

  /** `now - since` computed on `unsigned long`, so it wraps around modulo 2^32. */
  function Elapsed(now: Millis, since: Millis): (e: nat)
    ensures e < TickModulus
    ensures since <= now ==> e == now - since
    ensures now < since ==> e == now - since + TickModulus
  {
    (now - since) % TickModulus
  }

  /** The decimal digit character for `d`. */
  function DigitChar(d: nat): (c: char)
    requires d < 10
    ensures '0' <= c <= '9'
  {
    ('0' as int + d) as char
  }

  /** The value of a decimal digit character. */
  function DigitValue(c: char): (d: nat)
    requires '0' <= c <= '9'
    ensures d < 10 && DigitChar(d) == c
  {
    c as int - '0' as int
  }

  predicate IsDigits(s: string) {
    forall i :: 0 <= i < |s| ==> '0' <= s[i] <= '9'
  }

  /** Arduino's String(n) for a non-negative number: decimal, no leading zeros. */
  function DecimalText(n: nat): (s: string)
    ensures 1 <= |s| && IsDigits(s)
    ensures n < 10 <==> |s| == 1
    ensures n < 100 ==> |s| <= 2
    decreases n
  {
    if n < 10 then [DigitChar(n)] else DecimalText(n / 10) + [DigitChar(n % 10)]
  }

  /** Reads a string of decimal digits back as a number. */
  function ParseDecimal(s: string): (n: nat)
    requires IsDigits(s)
    decreases |s|
  {
    if s == [] then 0 else ParseDecimal(s[..|s| - 1]) * 10 + DigitValue(s[|s| - 1])
  }

  /** Printing a number in decimal loses nothing: the text reads back as the same number. */
  lemma {:induction false} DecimalRoundTrip(n: nat)
    ensures ParseDecimal(DecimalText(n)) == n
    decreases n
  {
    var s := DecimalText(n);
    if n >= 10 {
      DecimalRoundTrip(n / 10);
      assert s[..|s| - 1] == DecimalText(n / 10);
    }
  }

  /** Two different numbers never print the same. */
  lemma DecimalTextInjective(m: nat, n: nat)
    requires DecimalText(m) == DecimalText(n)
    ensures m == n
  {
    DecimalRoundTrip(m);
    DecimalRoundTrip(n);
  }

  /** printf's "%02d" for 0 <= n: at least two digits, zero-padded. */
  function TwoDigit(n: nat): (s: string)
    ensures |s| >= 2 && IsDigits(s)
    ensures n < 100 ==> |s| == 2 && ParseDecimal(s) == n
  {
    if n < 10 then DecimalRoundTrip(n); ['0'] + DecimalText(n)
    else DecimalRoundTrip(n); DecimalText(n)
  }
}
