/** The few JavaScript value conversions the tournament engine relies on:
    formatting an integer in a template literal, `String.prototype.split`
    with a one-character separator, and unary plus on a string. */
module Js {

  /** A value that may be `undefined` or `null`. */
  datatype Option<T> = None | Some(value: T)

  /** A JavaScript number, restricted to what the engine can produce:
      an integer, or NaN when a string does not read as a number. */
  datatype JsNumber = Num(value: int) | NaN

  /** `a + b` on numbers: NaN absorbs everything. */
  function Add(a: JsNumber, b: JsNumber): JsNumber
  {
    if a.Num? && b.Num? then Num(a.value + b.value) else NaN
  }

  /** `a < b` on numbers: false as soon as either side is NaN. */
  predicate Less(a: JsNumber, b: JsNumber)
  {
    a.Num? && b.Num? && a.value < b.value
  }

  predicate IsDigit(c: char)
  {
    '0' <= c <= '9'
  }

  predicate AllDigits(s: string)
  {
    forall i :: 0 <= i < |s| ==> IsDigit(s[i])
  }

  function DigitChar(d: nat): (c: char)
    requires d < 10
    ensures IsDigit(c) && c as int - '0' as int == d
  {
    ('0' as int + d) as char
  }

  /** Decimal digits of a natural number, most significant first. */
  function NatToDecimal(n: nat): string
    decreases n
  {
    if n < 10 then [DigitChar(n)] else NatToDecimal(n / 10) + [DigitChar(n % 10)]
  }

  /** The decimal form of a number is a non-empty string of digits. */
  lemma {:induction false} DecimalDigits(n: nat)
    ensures |NatToDecimal(n)| >= 1 && AllDigits(NatToDecimal(n))
  {
    if n >= 10 {
      DecimalDigits(n / 10);
    }
  }

  /** `${i}` for an integer `i`: a minus sign, then the digits of its magnitude. */
  function IntToString(i: int): string
  {
    if i < 0 then "-" + NatToDecimal(-i) else NatToDecimal(i)
  }

  /** Unary plus on a string of digits and separators: the pieces the engine
      splits out are digit strings, read in decimal (the empty string reads
      as 0); a string with any other character is NaN. Read from the last
      digit back, as the place values go. */
  function ToNumber(s: string): JsNumber
    decreases |s|
  {
    if s == [] then Num(0)
    else
      var init := ToNumber(s[..|s| - 1]);
      if init.Num? && IsDigit(s[|s| - 1]) then Num(10 * init.value + (s[|s| - 1] as int - '0' as int)) else NaN
  }

  /** `s.split(sep)` for a one-character separator. */
  function Split(s: string, sep: char): (parts: seq<string>)
    ensures |parts| >= 1
  {
    if s == [] then [[]]
    else
      var rest := Split(s[1..], sep);
      if s[0] == sep then [[]] + rest else [[s[0]] + rest[0]] + rest[1..]
  }

  /** `+s.split(sep)[k]`: a missing piece is `undefined`, which reads as NaN. */
  function FieldNumber(s: string, sep: char, k: nat): JsNumber
  {
    var parts := Split(s, sep);
    if k < |parts| then ToNumber(parts[k]) else NaN
  }

  /** Reading back the digits of `n` gives `n`. */
  lemma {:induction false} DecimalRoundTrip(n: nat)
    ensures ToNumber(NatToDecimal(n)) == Num(n)
  {
    var s := NatToDecimal(n);
    if n >= 10 {
      assert s[..|s| - 1] == NatToDecimal(n / 10);
      DecimalRoundTrip(n / 10);
    } else {
      assert s[..|s| - 1] == [];
    }
  }

  lemma DigitsHaveNoSeparator(s: string, sep: char)
    requires AllDigits(s) && !IsDigit(sep)
    ensures sep !in s
  {
  }

  /** A string without the separator splits into itself alone. */
  lemma {:induction false} SplitWithoutSeparator(a: string, sep: char)
    requires sep !in a
    ensures Split(a, sep) == [a]
  {
    if a != [] {
      SplitWithoutSeparator(a[1..], sep);
      assert [a[0]] + a[1..] == a;
    }
  }

  /** Splitting at the first separator peels off the piece before it. */
  lemma {:induction false} SplitAtFirstSeparator(a: string, b: string, sep: char)
    requires sep !in a
    ensures Split(a + [sep] + b, sep) == [a] + Split(b, sep)
  {
    var s := a + [sep] + b;
    if a == [] {
      assert s[0] == sep && s[1..] == b;
    } else {
      assert s[0] == a[0] && s[1..] == a[1..] + [sep] + b;
      SplitAtFirstSeparator(a[1..], b, sep);
      assert [a[0]] + a[1..] == a;
    }
  }
}
