/** The interview timer (frontend/src/hooks/useTimer.ts): a seconds counter
    that an interval advances once a second and `reset` sets back to zero,
    and `formatTime`, which renders a count of seconds as HH:MM:SS. */
module UseTimer {
  import opened Common

  predicate IsDigit(c: char) {
    '0' <= c <= '9'
  }

  predicate AllDigits(s: string) {
    forall i :: 0 <= i < |s| ==> IsDigit(s[i])
  }

  function DigitChar(d: nat): (c: char)
    requires d < 10
    ensures IsDigit(c) && c as int - '0' as int == d
  {
    ('0' as int + d) as char
  }

  function DigitValue(c: char): nat
    requires IsDigit(c)
  {
    c as int - '0' as int
  }

  /** `n.toString()` for a non-negative integer. */
  function Decimal(n: nat): (s: string)
    ensures |s| >= 1 && AllDigits(s)
    ensures n < 10 <==> |s| == 1
    ensures n < 100 <==> |s| <= 2
    decreases n
  {
    if n < 10 then [DigitChar(n)] else Decimal(n / 10) + [DigitChar(n % 10)]
  }

  /** The number a string of decimal digits denotes (leading zeros allowed). */
  function DigitsValue(s: string): nat
    requires AllDigits(s)
    decreases |s|
  {
    if |s| == 0 then 0 else DigitsValue(s[..|s| - 1]) * 10 + DigitValue(s[|s| - 1])
  }

  lemma {:induction false} DecimalValue(n: nat)
    ensures DigitsValue(Decimal(n)) == n
    decreases n
  {
    if n >= 10 {
      var s := Decimal(n);
      assert s[..|s| - 1] == Decimal(n / 10);
      DecimalValue(n / 10);
    }
  }

  /** `s.padStart(2, '0')`: one zero in front of a one-character string, none
      in front of a longer one, and nothing cut. */
  function PadStart2(s: string): (r: string)
    ensures |s| >= 2 ==> r == s
    ensures |s| < 2 ==> r == seq(2 - |s|, _ => '0') + s
  {
    if |s| >= 2 then s else seq(2 - |s|, _ => '0') + s
  }

  /** Leading zeros do not change the value. */
  lemma {:induction false} LeadingZeros(z: nat, s: string)
    requires AllDigits(s)
    ensures AllDigits(seq(z, _ => '0') + s)
    ensures DigitsValue(seq(z, _ => '0') + s) == DigitsValue(s)
    decreases |s|
  {
    var p := seq(z, _ => '0') + s;
    if |s| == 0 {
      assert p == seq(z, _ => '0');
      ZerosValue(z);
    } else {
      assert p[..|p| - 1] == seq(z, _ => '0') + s[..|s| - 1];
      LeadingZeros(z, s[..|s| - 1]);
    }
  }

  lemma {:induction false} ZerosValue(z: nat)
    ensures AllDigits(seq(z, _ => '0'))
    ensures DigitsValue(seq(z, _ => '0')) == 0
    decreases z
  {
    if z > 0 {
      assert seq(z, _ => '0')[..z - 1] == seq(z - 1, _ => '0');
      ZerosValue(z - 1);
    }
  }

  /** The hours, minutes and seconds of a count of seconds. */
  function Fields(t: nat): (f: (nat, nat, nat))
    ensures f.0 * 3600 + f.1 * 60 + f.2 == t
    ensures f.1 < 60 && f.2 < 60
  {
    (t / 3600, (t % 3600) / 60, t % 60)
  }

  /** `formatTime`: the three fields, each at least two digits, joined by
      colons. */
  function FormatTime(t: nat): string {
    var f := Fields(t);
    PadStart2(Decimal(f.0)) + ":" + PadStart2(Decimal(f.1)) + ":" + PadStart2(Decimal(f.2))
  }

  /** Reads HH:MM:SS back, with any number of hour digits and exactly two
      minute and second digits; None for any other text. */
  function ParseTime(r: string): (t: Option<nat>)
  {
    if |r| >= 7 && r[|r| - 3] == ':' && r[|r| - 6] == ':' &&
       AllDigits(r[..|r| - 6]) && AllDigits(r[|r| - 5..|r| - 3]) && AllDigits(r[|r| - 2..])
    then Some(DigitsValue(r[..|r| - 6]) * 3600 + DigitsValue(r[|r| - 5..|r| - 3]) * 60 + DigitsValue(r[|r| - 2..]))
    else None
  }

  /** A padded field always has at least two digits and keeps the value. */
  lemma PaddedField(n: nat)
    ensures AllDigits(PadStart2(Decimal(n)))
    ensures DigitsValue(PadStart2(Decimal(n))) == n
    ensures |PadStart2(Decimal(n))| >= 2
    ensures n < 100 ==> |PadStart2(Decimal(n))| == 2
    ensures n >= 100 ==> |PadStart2(Decimal(n))| == |Decimal(n)|
  {
    DecimalValue(n);
    if |Decimal(n)| < 2 {
      LeadingZeros(2 - |Decimal(n)|, Decimal(n));
    }
  }

  /** Where the fields of `h:m:s` sit when the last two are two characters
      long, counted from the end. */
  lemma {:induction false} SplitFields(h: string, m: string, s: string)
    requires |m| == 2 && |s| == 2
    ensures var r := h + ":" + m + ":" + s;
      |r| == |h| + 6 && r[|r| - 3] == ':' && r[|r| - 6] == ':' &&
      r[..|r| - 6] == h && r[|r| - 5..|r| - 3] == m && r[|r| - 2..] == s
  {
    var r := h + ":" + m + ":" + s;
    assert r == h + (":" + m + ":" + s);
    assert r[..|h|] == h;
    assert r[|h| + 1..|h| + 3] == m;
    assert r[|h| + 4..] == s;
  }

  /** Reading the formatted text gives back the count: the fields are
      bounded, padding adds only zeros, and hours of any size keep all
      their digits. */
  lemma FormatParseRoundTrip(t: nat)
    ensures ParseTime(FormatTime(t)) == Some(t)
  {
    var f := Fields(t);
    var h := PadStart2(Decimal(f.0));
    var m := PadStart2(Decimal(f.1));
    var s := PadStart2(Decimal(f.2));
    PaddedField(f.0);
    PaddedField(f.1);
    PaddedField(f.2);
    SplitFields(h, m, s);
    var r := h + ":" + m + ":" + s;
    assert ParseTime(r) == Some(DigitsValue(h) * 3600 + DigitsValue(m) * 60 + DigitsValue(s));
  }

  /** The text is exactly eight characters below 100 hours and longer from
      then on, since the hours field is never cut. */
  lemma FormatLength(t: nat)
    ensures |FormatTime(t)| == 8 <==> t < 360000
  {
    var f := Fields(t);
    PaddedField(f.0);
    PaddedField(f.1);
    PaddedField(f.2);
  }

  /** The seconds counter. */
  class Timer {
    var seconds: nat

    constructor ()
      ensures seconds == 0
    {
      seconds := 0;
    }

    /** One interval tick. */
    method Tick()
      modifies this
      ensures seconds == old(seconds) + 1
    {
      seconds := seconds + 1;
    }

    /** `reset`. */
    method Reset()
      modifies this
      ensures seconds == 0
    {
      seconds := 0;
    }

    /** `formattedTime`: the current count, formatted. */
    function FormattedTime(): (r: string)
      reads this
      ensures ParseTime(r) == Some(seconds)
    {
      FormatParseRoundTrip(seconds);
      FormatTime(seconds)
    }
  }
}
