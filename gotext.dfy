/** The pieces of Go's `strings`, `strconv`, `fmt` and 64-bit integer arithmetic that
    the service relies on, written out so that their edge cases are explicit. */
module GoText {
  import opened Wrappers

  const MinInt64: int := -0x8000_0000_0000_0000
  const MaxInt64: int := 0x7fff_ffff_ffff_ffff

  /** Go's `int` and `int64` on a 64-bit target. */
  type Int64 = x: int | MinInt64 <= x <= MaxInt64

  /** Two's-complement wrap-around of a 64-bit signed result. */
  function Wrap64(x: int): (r: Int64)
    ensures MinInt64 <= x <= MaxInt64 ==> r == x
    ensures (r - x) % 0x1_0000_0000_0000_0000 == 0
  {
    (x - MinInt64) % 0x1_0000_0000_0000_0000 + MinInt64
  }

  /** Saturation to the 64-bit range, as `time.Time.Sub` does. */
  function Clamp64(x: int): (r: Int64)
    ensures MinInt64 <= x <= MaxInt64 ==> r == x
    ensures x > MaxInt64 ==> r == MaxInt64
    ensures x < MinInt64 ==> r == MinInt64
  {
    if x > MaxInt64 then MaxInt64 else if x < MinInt64 then MinInt64 else x
  }

  // ---- strings.Split, strings.Repeat, strings.HasPrefix ----

  function Count(s: string, c: char): nat
  {
    if s == [] then 0 else (if s[0] == c then 1 else 0) + Count(s[1..], c)
  }

  /** `strings.Split(s, string(sep))`: the pieces between the occurrences of `sep`;
      an empty `s` gives one empty piece. */
  function Split(s: string, sep: char): (parts: seq<string>)
    ensures |parts| == Count(s, sep) + 1
    ensures forall i :: 0 <= i < |parts| ==> sep !in parts[i]
  {
    if s == [] then [""]
    else
      var rest := Split(s[1..], sep);
      if s[0] == sep then [""] + rest
      else [[s[0]] + rest[0]] + rest[1..]
  }

  /** `strings.Join(parts, string(sep))`, the inverse of Split. */
  function Join(parts: seq<string>, sep: char): string
    requires |parts| >= 1
  {
    if |parts| == 1 then parts[0] else parts[0] + [sep] + Join(parts[1..], sep)
  }

  lemma {:induction false} JoinSplit(s: string, sep: char)
    ensures Join(Split(s, sep), sep) == s
  {
    if s != [] {
      var rest := Split(s[1..], sep);
      JoinSplit(s[1..], sep);
      if s[0] == sep {
        assert Split(s, sep)[1..] == rest;
      } else {
        var parts := Split(s, sep);
        assert parts[1..] == rest[1..];
        if |rest| > 1 {
          assert Join(rest, sep) == rest[0] + [sep] + Join(rest[1..], sep);
        }
      }
    }
  }

  /** Splitting `a:b` where neither part holds the separator gives back `[a, b]`. */
  lemma {:induction false} SplitPair(a: string, b: string, sep: char)
    requires sep !in a && sep !in b
    ensures Split(a + [sep] + b, sep) == [a, b]
  {
    if a == [] {
      assert ([] + [sep] + b)[1..] == b;
      SplitNone(b, sep);
    } else {
      var s := a + [sep] + b;
      assert s[1..] == a[1..] + [sep] + b;
      SplitPair(a[1..], b, sep);
      assert [a[0]] + a[1..] == a;
    }
  }

  lemma {:induction false} SplitNone(s: string, sep: char)
    requires sep !in s
    ensures Split(s, sep) == [s]
  {
    if s != [] {
      SplitNone(s[1..], sep);
      assert [s[0]] + s[1..] == s;
    }
  }

  /** `strings.Repeat(string(c), n)`; Go panics on a negative count, so `n` is a nat. */
  function Repeat(c: char, n: nat): (r: string)
    ensures |r| == n
    ensures forall i :: 0 <= i < n ==> r[i] == c
  {
    if n == 0 then [] else Repeat(c, n - 1) + [c]
  }

  /** `strings.HasPrefix(s, p)`. */
  predicate HasPrefix(s: string, p: string): (b: bool)
    ensures b <==> |p| <= |s| && forall i :: 0 <= i < |p| ==> s[i] == p[i]
  {
    |p| <= |s| && s[..|p|] == p
  }

  // ---- fmt "%d" and strconv.ParseInt(s, 10, 64) ----

  predicate IsDigit(c: char) { '0' <= c <= '9' }

  predicate AllDigits(s: string) { forall i :: 0 <= i < |s| ==> IsDigit(s[i]) }

  function DigitChar(d: nat): (c: char)
    requires d < 10
    ensures IsDigit(c) && c as int - '0' as int == d
  {
    ('0' as int + d) as char
  }

  /** The value of a string of decimal digits, read left to right. */
  function DigitsValue(s: string): nat
    requires AllDigits(s)
  {
    if s == [] then 0 else DigitsValue(s[..|s| - 1]) * 10 + (s[|s| - 1] as int - '0' as int)
  }

  /** The base-10 digits of a natural number, most significant first: they read back
      as the number and carry no leading zero. */
  function Digits(n: nat): (s: string)
    ensures |s| >= 1 && AllDigits(s)
    ensures DigitsValue(s) == n
    ensures |s| > 1 ==> s[0] != '0'
  {
    if n < 10 then [DigitChar(n)]
    else
      var p := Digits(n / 10);
      var s := p + [DigitChar(n % 10)];
      assert s[..|s| - 1] == p;
      s
  }

  /** `fmt.Sprintf("%d", n)`: a `-` for a negative number, then its magnitude in
      decimal digits without leading zeros. */
  function FormatInt(n: int): (r: string)
    ensures n >= 0 ==> AllDigits(r) && DigitsValue(r) == n && (|r| > 1 ==> r[0] != '0')
    ensures n < 0 ==>
      (|r| >= 2 && r[0] == '-' && AllDigits(r[1..]) && DigitsValue(r[1..]) == -n &&
       (|r| > 2 ==> r[1] != '0'))
  {
    if n < 0 then
      var d := Digits(-n);
      assert ("-" + d)[1..] == d;
      "-" + d
    else Digits(n)
  }

  /** The text after an optional leading `+` or `-`. */
  function Unsigned(s: string): string
  {
    if |s| >= 1 && (s[0] == '-' || s[0] == '+') then s[1..] else s
  }

  /** An optional sign, then at least one decimal digit and nothing else, whose signed
      value lies in the int64 range. */
  predicate IsDecimalInt64(s: string)
  {
    var d := Unsigned(s);
    |d| >= 1 && AllDigits(d) &&
    (if s[0] == '-' then MinInt64 <= 0 - DigitsValue(d) as int else DigitsValue(d) <= MaxInt64)
  }

  /** `strconv.ParseInt(s, 10, 64)`: exactly the sign-optional in-range decimal texts
      parse, to their signed value; `None` is its error. */
  function ParseInt(s: string): (r: Option<Int64>)
    ensures r.Some? <==> IsDecimalInt64(s)
    ensures r.Some? ==> r.value == (if s[0] == '-' then 0 - DigitsValue(s[1..]) as int
                                    else DigitsValue(Unsigned(s)))
    ensures r.Some? && s[0] != '-' && s[0] != '+' ==> AllDigits(s) && r.value == DigitsValue(s)
  {
    if s == [] then None
    else
      var neg := s[0] == '-';
      var body := if s[0] == '-' || s[0] == '+' then s[1..] else s;
      if body == [] || !AllDigits(body) then None
      else
        var v := DigitsValue(body);
        var value: int := if neg then 0 - v as int else v;
        if MinInt64 <= value <= MaxInt64 then Some(value) else None
  }

  /** Printing an int64 in decimal and parsing it back gives the same number. */
  lemma FormatParseRoundTrip(n: Int64)
    ensures ParseInt(FormatInt(n)) == Some(n)
  {
    var s := FormatInt(n);
    if n >= 0 {
      assert IsDigit(s[0]);
    }
  }

  /** Go's parser accepts a `+`, leading zeros and `-0`; it refuses an empty text, a
      lone sign, digit separators and values past the int64 range. */
  lemma ParseIntExamples()
    ensures ParseInt("+5") == Some(5) && ParseInt("007") == Some(7) && ParseInt("-0") == Some(0)
    ensures ParseInt("") == None && ParseInt("+") == None && ParseInt("1_0") == None
    ensures ParseInt("-12") == Some(-12)
  {
    assert "007"[..2] == "00" && "00"[..1] == "0" && "0"[..0] == "";
    assert "-0"[1..] == "0";
    assert "+5"[1..] == "5";
    assert "-12"[1..] == "12" && "12"[..1] == "1";
    assert !IsDigit("1_0"[1]);
  }

  /** A formatted number holds no character other than a sign and digits. */
  lemma FormatIntHasOnlySignAndDigits(n: int, c: char)
    requires c != '-' && !IsDigit(c)
    ensures c !in FormatInt(n)
  {
  }
}
