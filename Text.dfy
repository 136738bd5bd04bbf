/** The string operations the uevent parsing relies on: `str::starts_with`, `str::contains`,
    `split(c).nth(1)`, and `i32`'s `FromStr` together with the decimal `Display` it inverts. */
module Text {
  import opened Wrappers
  import opened Ints

  predicate StartsWith(s: string, prefix: string) {
    |prefix| <= |s| && s[..|prefix|] == prefix
  }

  /** `part` sits in `s` at position `i`. */
  predicate OccursAt(s: string, part: string, i: nat) {
    i + |part| <= |s| && s[i..i + |part|] == part
  }

  /** `str::contains` with a string pattern: a left-to-right scan for a position where `part` starts. */
  predicate Contains(s: string, part: string)
    decreases |s|
  {
    StartsWith(s, part) || (|s| > 0 && Contains(s[1..], part))
  }

  /** The scan finds `part` exactly when it occurs somewhere in `s`. */
  lemma {:induction false} ContainsIffOccurs(s: string, part: string)
    ensures Contains(s, part) <==> exists i: nat :: OccursAt(s, part, i)
    decreases |s|
  {
    if StartsWith(s, part) {
      assert OccursAt(s, part, 0);
    } else {
      if |s| > 0 {
        ContainsIffOccurs(s[1..], part);
        if Contains(s[1..], part) {
          var i: nat :| OccursAt(s[1..], part, i);
          assert s[i + 1..i + 1 + |part|] == s[1..][i..i + |part|];
          assert OccursAt(s, part, i + 1);
        }
      }
      forall i: nat ensures Contains(s, part) || !OccursAt(s, part, i) {
        if 0 < i && i + |part| <= |s| {
          assert s[1..][i - 1..i - 1 + |part|] == s[i..i + |part|];
          assert OccursAt(s[1..], part, i - 1) == OccursAt(s, part, i);
        }
      }
    }
  }

  /** Position of the first `c` in `s`, if any. */
  function IndexOf(s: string, c: char): (r: Option<nat>)
    ensures r.None? <==> c !in s
    ensures r.Some? ==> r.value < |s| && s[r.value] == c && c !in s[..r.value]
    decreases |s|
  {
    if |s| == 0 then None
    else if s[0] == c then Some(0)
    else
      match IndexOf(s[1..], c)
      case None => None
      case Some(i) =>
        assert s[..i + 1] == [s[0]] + s[1..][..i];
        Some(i + 1)
  }

  /** The first piece of `s.split(c)`: everything before the first `c`, or all of `s`. */
  function TakeUntil(s: string, c: char): (r: string)
    ensures c !in r && StartsWith(s, r)
    ensures |r| < |s| ==> s[|r|] == c
  {
    match IndexOf(s, c)
    case None => s
    case Some(i) => s[..i]
  }

  /** `s.split(sep).nth(1)`: the piece between the first and the second `sep` (or the end). */
  function SplitSecond(s: string, sep: char): (r: Option<string>)
    ensures r.None? <==> sep !in s
    ensures r.Some? ==> sep !in r.value
  {
    match IndexOf(s, sep)
    case None => None
    case Some(i) => Some(TakeUntil(s[i + 1..], sep))
  }

  /** The first `c` is the one right after a `c`-free key. */
  lemma IndexOfAfterKey(key: string, c: char, tail: string)
    requires c !in key
    ensures IndexOf(key + [c] + tail, c) == Some(|key|)
  {
    var s := key + [c] + tail;
    assert s[..|key|] == key;
    assert s[|key|] == c;
  }

  /** A line `key=value` followed by nothing or by another `=`-separated piece splits to `value`. */
  lemma {:induction false} SplitSecondOf(key: string, value: string, rest: string, sep: char)
    requires sep !in key && sep !in value
    requires rest == [] || rest[0] == sep
    ensures SplitSecond(key + [sep] + value + rest, sep) == Some(value)
  {
    var s := key + [sep] + value + rest;
    assert s == key + [sep] + (value + rest);
    IndexOfAfterKey(key, sep, value + rest);
    assert s[|key| + 1..] == value + rest;
    if rest == [] {
      assert value + rest == value;
    } else {
      IndexOfAfterKey(value, sep, rest[1..]);
      assert value + rest == value + [sep] + rest[1..];
      assert (value + rest)[..|value|] == value;
    }
  }

  predicate IsDigit(c: char) {
    '0' <= c <= '9'
  }

  predicate AllDigits(s: string) {
    forall i :: 0 <= i < |s| ==> IsDigit(s[i])
  }

  function DigitValue(c: char): (d: nat)
    requires IsDigit(c)
    ensures d < 10
  {
    c as int - '0' as int
  }

  function DigitChar(d: nat): (c: char)
    requires d < 10
    ensures IsDigit(c) && DigitValue(c) == d
  {
    ('0' as int + d) as char
  }

  /** The value of a decimal digit string, most significant digit first. */
  function DigitsValue(s: string): nat
    requires AllDigits(s)
    decreases |s|
  {
    if |s| == 0 then 0 else 10 * DigitsValue(s[..|s| - 1]) + DigitValue(s[|s| - 1])
  }

  /** Decimal rendering of a natural number, without leading zeros. */
  function Decimal(n: nat): (s: string)
    ensures |s| > 0 && AllDigits(s)
    decreases n
  {
    if n < 10 then [DigitChar(n)] else Decimal(n / 10) + [DigitChar(n % 10)]
  }

  /** `Display` of an integer: a minus sign for negatives, then the decimal digits. */
  function Signed(n: int): (s: string)
    ensures |s| > 0
    ensures '=' !in s
  {
    var s := if n < 0 then "-" + Decimal(-n) else Decimal(n);
    assert forall i :: 0 <= i < |s| ==> s[i] == '-' || IsDigit(s[i]);
    s
  }

  lemma {:induction false} DecimalValue(n: nat)
    ensures DigitsValue(Decimal(n)) == n
    decreases n
  {
    if n >= 10 {
      DecimalValue(n / 10);
      var s := Decimal(n);
      assert s[..|s| - 1] == Decimal(n / 10);
    }
  }

  /** `str::parse::<i32>`: an optional `+` or `-`, then at least one ASCII digit, and a value in
      range; anything else is an error. */
  function ParseI32(s: string): (r: Option<int>)
    ensures r.Some? ==> InI32(r.value)
    ensures r.Some? ==> |s| > 0 && forall i :: 0 < i < |s| ==> IsDigit(s[i])
    ensures r.Some? ==> s[0] == '+' || s[0] == '-' || IsDigit(s[0])
    ensures r.Some? && IsDigit(s[0]) ==> AllDigits(s) && r.value == DigitsValue(s)
    ensures r.Some? && s[0] == '+' ==> |s| > 1 && AllDigits(s[1..]) && r.value == DigitsValue(s[1..])
    ensures r.Some? && s[0] == '-' ==> |s| > 1 && AllDigits(s[1..]) && r.value == -(DigitsValue(s[1..]) as int)
    ensures |s| > 0 && AllDigits(s) && DigitsValue(s) <= I32_MAX ==> r == Some(DigitsValue(s))
    ensures |s| > 1 && s[0] == '+' && AllDigits(s[1..]) && DigitsValue(s[1..]) <= I32_MAX ==>
      r == Some(DigitsValue(s[1..]))
    ensures |s| > 1 && s[0] == '-' && AllDigits(s[1..]) && I32_MIN <= -(DigitsValue(s[1..]) as int) ==>
      r == Some(-(DigitsValue(s[1..]) as int))
  {
    if |s| == 0 then None
    else
      var digits := if s[0] == '+' || s[0] == '-' then s[1..] else s;
      if |digits| == 0 || !AllDigits(digits) then None
      else
        var magnitude: int := DigitsValue(digits);
        var v: int := if s[0] == '-' then -magnitude else magnitude;
        if InI32(v) then Some(v) else None
  }

  /** Parsing reads back every `i32` as it is displayed. */
  lemma ParseI32Signed(n: int)
    requires InI32(n)
    ensures ParseI32(Signed(n)) == Some(n)
  {
    if n < 0 {
      DecimalValue(-n);
      assert Signed(n)[1..] == Decimal(-n);
    } else {
      DecimalValue(n);
      assert Decimal(n)[0] != '-' && Decimal(n)[0] != '+' by {
        assert IsDigit(Decimal(n)[0]);
      }
    }
  }
}
