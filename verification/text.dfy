/** The string operations the filters rely on: `str.lower()` restricted to ASCII,
    Python's substring test `k in s`, and decimal numerals (the year prefix `int(date[:4])`). */
module Text {

  /** ASCII upper-case letters become lower case; every other character is kept. */
  function LowerChar(c: char): char {
    if 'A' <= c <= 'Z' then (c as int + 32) as char else c
  }

  function Lower(s: string): (r: string)
    ensures |r| == |s|
    ensures forall i :: 0 <= i < |s| ==> r[i] == LowerChar(s[i])
  {
    if s == [] then [] else [LowerChar(s[0])] + Lower(s[1..])
  }

  /** `k` sits in `s` starting at index `i`. */
  ghost predicate OccursAt(k: string, s: string, i: int) {
    0 <= i && i + |k| <= |s| && s[i..i + |k|] == k
  }

  ghost predicate Occurs(k: string, s: string) {
    exists i :: OccursAt(k, s, i)
  }

  /** An occurrence of `k` that is not at the front of `s` is an occurrence in `s[1..]`. */
  lemma OccursInTail(k: string, s: string)
    requires s != [] && !(k <= s)
    ensures Occurs(k, s) <==> Occurs(k, s[1..])
  {
    if Occurs(k, s) {
      var i :| OccursAt(k, s, i);
      assert i != 0;
      assert s[1..][i - 1..i - 1 + |k|] == s[i..i + |k|];
      assert OccursAt(k, s[1..], i - 1);
    }
    if Occurs(k, s[1..]) {
      var i :| OccursAt(k, s[1..], i);
      assert s[1..][i..i + |k|] == s[i + 1..i + 1 + |k|];
      assert OccursAt(k, s, i + 1);
    }
  }

  /** Python's `k in s` on strings (the empty string occurs everywhere). */
  function Contains(s: string, k: string): (r: bool)
    ensures r <==> Occurs(k, s)
    decreases |s|
  {
    if k <= s then
      assert OccursAt(k, s, 0);
      true
    else if s == [] then
      false
    else
      OccursInTail(k, s);
      Contains(s[1..], k)
  }

  /** Python's `any(k in s for k in keys)`. */
  function ContainsAny(s: string, keys: seq<string>): (r: bool)
    ensures r <==> exists j :: 0 <= j < |keys| && Occurs(keys[j], s)
  {
    if keys == [] then
      false
    else
      var rest := ContainsAny(s, keys[1..]);
      assert rest <==> exists j :: 1 <= j < |keys| && Occurs(keys[j], s) by {
        if rest {
          var j :| 0 <= j < |keys[1..]| && Occurs(keys[1..][j], s);
          assert keys[1..][j] == keys[j + 1];
        }
      }
      Contains(s, keys[0]) || rest
  }

  predicate IsDigit(c: char) {
    '0' <= c <= '9'
  }

  /** A non-empty run of ASCII decimal digits. */
  predicate IsNumeral(s: string) {
    |s| > 0 && forall i :: 0 <= i < |s| ==> IsDigit(s[i])
  }

  function Pow10(n: nat): (p: nat)
    ensures p >= 1
  {
    if n == 0 then 1 else 10 * Pow10(n - 1)
  }

  function DigitValue(c: char): (d: nat)
    requires IsDigit(c)
    ensures d < 10
  {
    c as int - '0' as int
  }

  /** The value of a string of decimal digits, most significant digit first. */
  function NumeralValue(s: string): (n: nat)
    requires forall i :: 0 <= i < |s| ==> IsDigit(s[i])
    ensures n < Pow10(|s|)
  {
    if s == [] then 0
    else
      var high := NumeralValue(s[..|s| - 1]);
      var low := DigitValue(s[|s| - 1]);
      assert high * 10 + low < Pow10(|s|) by {
        assert high + 1 <= Pow10(|s| - 1);
        assert (high + 1) * 10 <= Pow10(|s| - 1) * 10;
      }
      high * 10 + low
  }

  function DigitChar(d: nat): (c: char)
    requires d < 10
    ensures IsDigit(c)
  {
    ('0' as int + d) as char
  }

  /** The four-digit, zero-padded decimal rendering of `y`, as in the `YYYY` of an ISO date. */
  function FourDigits(y: nat): (s: string)
    requires y < 10000
    ensures |s| == 4 && IsNumeral(s)
  {
    [DigitChar(y / 10 / 10 / 10), DigitChar(y / 10 / 10 % 10), DigitChar(y / 10 % 10), DigitChar(y % 10)]
  }

  /** Reading back a rendered year gives the year. */
  lemma FourDigitsValue(y: nat)
    requires y < 10000
    ensures NumeralValue(FourDigits(y)) == y
  {
    var s := FourDigits(y);
    var a, b, c := y / 10 / 10 / 10, y / 10 / 10, y / 10;
    assert s[..1][..0] == [] && s[..2][..1] == s[..1] && s[..3][..2] == s[..2] && s[..4] == s;
    assert NumeralValue(s[..1]) == a;
    assert NumeralValue(s[..2]) == a * 10 + DigitValue(s[1]) == b;
    assert NumeralValue(s[..3]) == b * 10 + DigitValue(s[2]) == c;
    assert NumeralValue(s) == c * 10 + DigitValue(s[3]) == y;
  }
}
