/**
  format_time: whole seconds shown as minutes and seconds, `MM:SS`, the way
  Python's `divmod(sec, 60)` and the `02d` format spec produce them.
 */
module TimeFormat {
  import opened Wrappers

  predicate IsDigit(c: char) {
    '0' <= c <= '9'
  }

  predicate AllDigits(s: string) {
    forall i :: 0 <= i < |s| ==> IsDigit(s[i])
  }

  function DigitChar(d: int): (c: char)
    requires 0 <= d < 10
    ensures IsDigit(c)
  {
    ('0' as int + d) as char
  }

  function DigitValue(c: char): int
    requires IsDigit(c)
  {
    c as int - '0' as int
  }

  /** The decimal digits of `n`, without leading zeros. */
  function Digits(n: nat): string
    decreases n
  {
    if n < 10 then [DigitChar(n)] else Digits(n / 10) + [DigitChar(n % 10)]
  }

  /** The number a string of decimal digits denotes. */
  function Value(s: string): nat
    requires AllDigits(s)
  {
    if s == [] then 0 else Value(s[..|s| - 1]) * 10 + DigitValue(s[|s| - 1])
  }

  /** `f"{n:02d}"`: at least two characters, zero-filled after the sign. */
  function Pad2(n: int): string {
    if n < 0 then "-" + Digits(-n)
    else if n < 10 then "0" + Digits(n)
    else Digits(n)
  }

  /** format_time(sec). Dafny's `/` and `%` floor like `divmod` for the divisor 60. */
  function FormatTime(sec: int): (r: string)
    ensures sec >= 0 ==> |r| >= 5 && r[|r| - 3] == ':'
    ensures sec >= 0 ==> AllDigits(r[..|r| - 3]) && AllDigits(r[|r| - 2..])
  {
    Pad2Shape(sec / 60);
    Pad2Shape(sec % 60);
    Pad2(sec / 60) + ":" + Pad2(sec % 60)
  }

  /**
    Reads back a `M:SS` display: one or more minute digits, a colon and
    exactly two second digits below 60.
   */
  function ParseTime(r: string): Option<int> {
    if |r| >= 4 && r[|r| - 3] == ':' && AllDigits(r[..|r| - 3]) && AllDigits(r[|r| - 2..])
       && Value(r[|r| - 2..]) < 60
    then Some(Value(r[..|r| - 3]) * 60 + Value(r[|r| - 2..]))
    else None
  }

  lemma {:induction false} DigitsShape(n: nat)
    ensures |Digits(n)| >= 1 && AllDigits(Digits(n))
    ensures n >= 10 ==> |Digits(n)| >= 2
    decreases n
  {
    if n >= 10 {
      DigitsShape(n / 10);
    }
  }

  lemma {:induction false} ValueOfDigits(n: nat)
    ensures AllDigits(Digits(n)) && Value(Digits(n)) == n
    decreases n
  {
    DigitsShape(n);
    if n >= 10 {
      ValueOfDigits(n / 10);
      var s := Digits(n);
      assert s[..|s| - 1] == Digits(n / 10);
    }
  }

  lemma {:induction false} DigitsLeading(n: nat)
    ensures n >= 1 ==> Digits(n)[0] != '0'
    ensures 10 <= n < 100 ==> |Digits(n)| == 2
    ensures n >= 100 ==> |Digits(n)| >= 3
    decreases n
  {
    DigitsShape(n);
    if n >= 10 {
      DigitsLeading(n / 10);
      DigitsShape(n / 10);
    }
  }

  lemma Pad2Shape(n: int)
    ensures n >= 0 ==> |Pad2(n)| >= 2 && AllDigits(Pad2(n))
    ensures 0 <= n < 100 ==> |Pad2(n)| == 2
  {
    if n >= 0 {
      DigitsShape(n);
    }
    if 10 <= n < 100 {
      assert n / 10 < 10;
    }
  }

  lemma ValueOfPad2(n: nat)
    ensures AllDigits(Pad2(n)) && Value(Pad2(n)) == n && |Pad2(n)| >= 2
    ensures n < 60 ==> |Pad2(n)| == 2
  {
    ValueOfDigits(n);
    DigitsShape(n);
    if n < 10 {
      var s := Pad2(n);
      assert s[..|s| - 1] == "0";
      assert Value("0") == 0 by { assert "0"[..0] == []; }
    } else if n < 60 {
      assert n / 10 < 10;
    }
  }

  /**
    format_time of a non-negative count: the minutes field holds sec / 60 and
    the two-digit seconds field sec % 60, so parsing the display gives `sec` back.
   */
  lemma FormatTimeRoundTrip(sec: int)
    requires sec >= 0
    ensures var r := FormatTime(sec);
      && |r[|r| - 2..]| == 2 && |r[..|r| - 3]| >= 2
      && Value(r[..|r| - 3]) == sec / 60 && Value(r[|r| - 2..]) == sec % 60 < 60
      && ParseTime(r) == Some(sec)
      && (sec / 60 < 100 ==> |r| == 5)
      && (|r| > 5 ==> r[0] != '0')
  {
    var r := FormatTime(sec);
    Pad2Shape(sec / 60);
    DigitsLeading(sec / 60);
    ValueOfPad2(sec / 60);
    ValueOfPad2(sec % 60);
    var m, s := Pad2(sec / 60), Pad2(sec % 60);
    assert r == m + ":" + s;
    assert r[..|r| - 3] == m;
    assert r[|r| - 2..] == s;
  }

  /** The minutes field is not capped at two digits. */
  lemma FormatTimeLongMinutes()
    ensures FormatTime(6000) == "100:00"
  {
    assert Digits(100) == "100" by {
      assert Digits(10) == "10";
    }
  }

  /** A negative count is shown as Python shows it: divmod(-1, 60) == (-1, 59). */
  lemma FormatTimeNegative()
    ensures FormatTime(-1) == "-1:59"
  {
    assert Digits(59) == "59";
  }
}
