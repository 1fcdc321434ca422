/**
  The string conversions the planner relies on: `String(n)`, `padStart(2, '0')`,
  `parseInt` (decimal, up to the first non-digit) and `replace(':', '')`, and
  the "HH:MM" text of a time. They justify that the numeric keys the model
  uses are the ones the source computes from strings.
 */
module Text {
  import opened Types

  predicate IsDigit(c: char) { '0' <= c <= '9' }

  predicate AllDigits(s: string) { forall i :: 0 <= i < |s| ==> IsDigit(s[i]) }

  function DigitChar(d: int): (c: char)
    requires 0 <= d < 10
    ensures IsDigit(c)
  {
    (48 + d) as char
  }

  function DigitValue(c: char): int { c as int - 48 }

  /** `String(n)` for a non-negative integer: its decimal digits, no leading zeros. */
  function DecimalString(n: nat): (r: string)
    ensures AllDigits(r)
    ensures n < 10 ==> |r| == 1
    ensures 10 <= n < 100 ==> |r| == 2
    ensures 100 <= n < 1000 ==> |r| == 3
    ensures 1000 <= n < 10000 ==> |r| == 4
  {
    if n < 10 then [DigitChar(n)] else DecimalString(n / 10) + [DigitChar(n % 10)]
  }

  /** `String(n).padStart(2, '0')`. */
  function PadStart2(n: nat): (r: string)
    ensures AllDigits(r) && |r| >= 2
    ensures n < 100 ==> |r| == 2
    ensures n < 10 ==> r[0] == '0'
  {
    var s := DecimalString(n);
    if |s| < 2 then "0" + s else s
  }

  /** The value of a string of decimal digits. */
  function ParseDigits(s: string): nat
    requires AllDigits(s)
  {
    if s == [] then 0 else ParseDigits(s[..|s| - 1]) * 10 + DigitValue(s[|s| - 1])
  }

  /** Parsing the decimal text of `n` gives `n` back. */
  lemma {:induction false} ParseDecimalString(n: nat)
    ensures ParseDigits(DecimalString(n)) == n
  {
    var s := DecimalString(n);
    if n < 10 {
      assert s[..0] == [];
    } else {
      assert s[..|s| - 1] == DecimalString(n / 10);
      ParseDecimalString(n / 10);
    }
  }

  /** Two digits, zero-padded, that parse back to `n`. */
  lemma PadStart2RoundTrip(n: nat)
    requires n < 100
    ensures |PadStart2(n)| == 2 && AllDigits(PadStart2(n))
    ensures ParseDigits(PadStart2(n)) == n
  {
    var p := PadStart2(n);
    ParseDecimalString(n);
    if n < 10 {
      var d := DecimalString(n);
      assert p == ['0'] + d;
      assert p[..1] == ['0'] && ['0'][..0] == [];
      assert p[..1][..0] == [];
      assert ParseDigits(p[..1]) == 0;
      assert d[..0] == [];
    }
  }

  /** Appending a two-digit string multiplies the value of the prefix by 100. */
  lemma ParseDigitsAppend2(a: string, b: string)
    requires AllDigits(a) && AllDigits(b) && |b| == 2
    ensures AllDigits(a + b)
    ensures ParseDigits(a + b) == ParseDigits(a) * 100 + ParseDigits(b)
  {
    var s := a + b;
    var s1 := a + [b[0]];
    assert s[..|s| - 1] == s1 && s[|s| - 1] == b[1];
    assert s1[..|s1| - 1] == a && s1[|s1| - 1] == b[0];
    assert ParseDigits(s) == ParseDigits(s1) * 10 + DigitValue(b[1]);
    assert ParseDigits(s1) == ParseDigits(a) * 10 + DigitValue(b[0]);
    assert b[..1] == [b[0]] && [b[0]][..0] == [];
    assert ParseDigits(b) == ParseDigits([b[0]]) * 10 + DigitValue(b[1]);
    assert ParseDigits([b[0]]) == DigitValue(b[0]);
  }

  /** The leading run of digits that `parseInt` reads. */
  function DigitPrefix(s: string): (r: string)
    ensures AllDigits(r)
    ensures |r| <= |s| && r == s[..|r|]
    ensures |r| < |s| ==> !IsDigit(s[|r|])
  {
    if s == [] || !IsDigit(s[0]) then [] else [s[0]] + DigitPrefix(s[1..])
  }

  /** `parseInt(s)` on a string that starts with a digit (NaN is not modelled). */
  function ParseInt(s: string): (r: nat)
    ensures exists k :: 0 <= k <= |s| && AllDigits(s[..k]) && (k == |s| || !IsDigit(s[k])) && r == ParseDigits(s[..k])
  {
    var prefix := DigitPrefix(s);
    assert AllDigits(s[..|prefix|]) && (|prefix| == |s| || !IsDigit(s[|prefix|]));
    ParseDigits(prefix)
  }

  lemma {:induction false} DigitPrefixStopsAtNonDigit(a: string, b: string)
    requires AllDigits(a)
    requires b == [] || !IsDigit(b[0])
    ensures DigitPrefix(a + b) == a
  {
    if a != [] {
      assert (a + b)[1..] == a[1..] + b;
      DigitPrefixStopsAtNonDigit(a[1..], b);
    } else {
      assert a + b == b;
    }
  }

  /** `k` is the position of the first colon of `s`. */
  predicate FirstColonAt(s: string, k: int)
  {
    0 <= k < |s| && s[k] == ':' && ':' !in s[..k]
  }

  /** `s.replace(':', '')`: removes the first colon only. */
  function RemoveFirstColon(s: string): (r: string)
    ensures ':' !in s ==> r == s
    ensures forall k :: FirstColonAt(s, k) ==> r == s[..k] + s[k + 1..]
  {
    if s == [] then []
    else if s[0] == ':' then
      s[1..]
    else
      var rest := RemoveFirstColon(s[1..]);
      FirstColonAfterHead(s, rest);
      [s[0]] + rest
  }

  /** Removing the first colon of the tail of `s` removes the first colon of `s`, when `s` starts with another character. */
  lemma FirstColonAfterHead(s: string, rest: string)
    requires s != [] && s[0] != ':'
    requires ':' !in s[1..] ==> rest == s[1..]
    requires forall k :: FirstColonAt(s[1..], k) ==> rest == s[1..][..k] + s[1..][k + 1..]
    ensures ':' !in s ==> [s[0]] + rest == s
    ensures forall k :: FirstColonAt(s, k) ==> [s[0]] + rest == s[..k] + s[k + 1..]
  {
    var t := s[1..];
    assert s == [s[0]] + t;
    forall k | FirstColonAt(s, k)
      ensures [s[0]] + rest == s[..k] + s[k + 1..]
    {
      assert k >= 1;
      assert s[..k] == [s[0]] + t[..k - 1];
      assert FirstColonAt(t, k - 1);
      assert s[k + 1..] == t[k..];
    }
  }

  /** `replace(':', '')` on "digits:rest" drops exactly the colon after the digits. */
  lemma RemoveColonAfterDigits(a: string, b: string)
    requires AllDigits(a)
    ensures RemoveFirstColon(a + ":" + b) == a + b
  {
    var s := a + ":" + b;
    assert s[..|a|] == a && s[|a| + 1..] == b;
    assert FirstColonAt(s, |a|);
  }

  predicate ValidTime(t: Time) { 0 <= t.hour < 100 && 0 <= t.minute < 60 }

  /** The "HH:MM" text of a time. */
  function FormatTime(t: Time): string
    requires 0 <= t.hour && 0 <= t.minute
  {
    PadStart2(t.hour) + ":" + PadStart2(t.minute)
  }

  /** The numeric start-time key `HH*100+MM`. */
  function SortTime(t: Time): int
  {
    t.hour * 100 + t.minute
  }

  /**
    `parseInt(startTime)` and `parseInt(startTime.split(':')[0])` both read the
    hour of an "HH:MM" time.
   */
  lemma ParseIntReadsHour(t: Time)
    requires ValidTime(t)
    ensures ParseInt(FormatTime(t)) == t.hour
    ensures DigitPrefix(FormatTime(t)) == PadStart2(t.hour)
  {
    PadStart2RoundTrip(t.hour);
    assert FormatTime(t) == PadStart2(t.hour) + (":" + PadStart2(t.minute));
    DigitPrefixStopsAtNonDigit(PadStart2(t.hour), ":" + PadStart2(t.minute));
  }

  /** `parseInt(startTime.replace(':', ''))` is the key `HH*100+MM`. */
  lemma ParseIntWithoutColonIsSortTime(t: Time)
    requires ValidTime(t)
    ensures ParseInt(RemoveFirstColon(FormatTime(t))) == SortTime(t)
    ensures 0 <= SortTime(t) < 10000
  {
    var h, m := PadStart2(t.hour), PadStart2(t.minute);
    PadStart2RoundTrip(t.hour);
    PadStart2RoundTrip(t.minute);
    RemoveColonAfterDigits(h, m);
    ParseDigitsAppend2(h, m);
    DigitPrefixStopsAtNonDigit(h + m, []);
    assert h + m + [] == h + m;
  }
}
