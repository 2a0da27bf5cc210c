/** The JavaScript string built-ins the swatch code relies on:
    `String.prototype.includes`, the decimal rendering of a non-negative
    integer inside a template literal, `Array.prototype.join`, and the
    regular-expression class `\d`. */
module JsStrings {

  /** `\d` in a regular expression without the `u` flag: the ASCII digits. */
  predicate IsDigit(c: char) {
    '0' <= c <= '9'
  }

  predicate AllDigits(s: string) {
    forall k :: 0 <= k < |s| ==> IsDigit(s[k])
  }

  /** `t` occurs in `s` starting at index `i`. */
  predicate OccursAt(s: string, t: string, i: nat) {
    i + |t| <= |s| && s[i..i + |t|] == t
  }

  /** `s.includes(t)`: some occurrence of `t` lies inside `s`. */
  function Includes(s: string, t: string): (b: bool)
    ensures b <==> exists i: nat :: OccursAt(s, t, i)
  {
    IncludesFrom(s, t, 0)
  }

  /** The search behind `Includes`, from index `from` onwards. */
  function IncludesFrom(s: string, t: string, from: nat): (b: bool)
    ensures b <==> exists i: nat :: from <= i && OccursAt(s, t, i)
    decreases |s| - from
  {
    if |s| < from + |t| then
      false
    else if OccursAt(s, t, from) then
      true
    else
      assert t != [];
      IncludesFrom(s, t, from + 1)
  }

  /** The character of a decimal digit value. */
  function DigitChar(d: nat): (c: char)
    requires d < 10
    ensures IsDigit(c)
  {
    (48 + d) as char
  }

  /** The value of a decimal digit character. */
  function DigitValue(c: char): (d: nat)
    requires IsDigit(c)
    ensures d < 10
  {
    (c as int) - 48
  }

  /** `${n}` for a non-negative integer `n`: its decimal digits, with no
      leading zero. */
  function DecimalString(n: nat): (s: string)
    ensures |s| >= 1 && AllDigits(s)
    ensures s[0] == '0' ==> n == 0
    decreases n
  {
    if n < 10 then [DigitChar(n)] else DecimalString(n / 10) + [DigitChar(n % 10)]
  }

  /** The number a string of decimal digits denotes. */
  function DecimalValue(s: string): nat
    requires AllDigits(s)
  {
    if s == [] then 0 else 10 * DecimalValue(s[..|s| - 1]) + DigitValue(s[|s| - 1])
  }

  /** Reading back the digits `${n}` writes gives `n`. */
  lemma {:induction false} DecimalRoundTrip(n: nat)
    ensures DecimalValue(DecimalString(n)) == n
  {
    if n >= 10 {
      var s := DecimalString(n);
      assert s[..|s| - 1] == DecimalString(n / 10);
      DecimalRoundTrip(n / 10);
    }
  }

  /** Two numbers with the same decimal rendering are equal. */
  lemma DecimalStringInjective(m: nat, n: nat)
    requires DecimalString(m) == DecimalString(n)
    ensures m == n
  {
    DecimalRoundTrip(m);
    DecimalRoundTrip(n);
  }

  /** `parts.join(sep)`: the parts in order, with `sep` between neighbours
      and none before the first or after the last. */
  function Join(parts: seq<string>, sep: string): (r: string)
    ensures parts == [] ==> r == ""
    ensures |parts| == 1 ==> r == parts[0]
    ensures parts != [] ==> parts[0] <= r
    ensures parts != [] ==> |parts[|parts| - 1]| <= |r| && r[|r| - |parts[|parts| - 1]|..] == parts[|parts| - 1]
  {
    if |parts| == 0 then
      ""
    else if |parts| == 1 then
      parts[0]
    else
      var rest := Join(parts[1..], sep);
      assert parts[1..][|parts[1..]| - 1] == parts[|parts| - 1];
      parts[0] + sep + rest
  }

  /** Joining one more part at the end adds exactly one separator. */
  lemma {:induction false} JoinSnoc(parts: seq<string>, last: string, sep: string)
    requires parts != []
    ensures Join(parts + [last], sep) == Join(parts, sep) + sep + last
  {
    var all := parts + [last];
    if |parts| == 1 {
      assert all[1..] == [last];
    } else {
      assert all[1..] == parts[1..] + [last];
      JoinSnoc(parts[1..], last, sep);
      calc {
        Join(all, sep);
        all[0] + sep + Join(all[1..], sep);
        parts[0] + sep + (Join(parts[1..], sep) + sep + last);
        (parts[0] + sep + Join(parts[1..], sep)) + sep + last;
      }
    }
  }
}
