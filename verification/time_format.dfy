/** `CMTime.humanDescription`, from the whole number of seconds onward: the clock fields by
    Swift's truncating division, printed as H:MM:SS or MM:SS. */
module TimeFormat {

  import opened Prelude

  /** Swift's `/` on `Int` by a positive divisor: the quotient truncated toward zero. */
  function Quot(a: int, d: int): (q: int)
    requires d > 0
    ensures a >= 0 ==> 0 <= a - q * d < d
    ensures a < 0 ==> -d < a - q * d <= 0
  {
    if a >= 0 then a / d else -((-a) / d)
  }

  /** Swift's `%` on `Int` by a positive divisor: the remainder carries the sign of `a`. */
  function Rem(a: int, d: int): (r: int)
    requires d > 0
    ensures Quot(a, d) * d + r == a
    ensures a >= 0 ==> 0 <= r < d
    ensures a < 0 ==> -d < r <= 0
  {
    a - Quot(a, d) * d
  }

  /** The three fields shown on the clock. */
  datatype Clock = Clock(hours: int, minutes: int, seconds: int)

  /** The fields of `totalSeconds`; they add back up to it, and for a non-negative time the
      minutes and seconds are below 60. */
  function Fields(totalSeconds: int): (c: Clock)
    ensures c.hours * 3600 + c.minutes * 60 + c.seconds == totalSeconds
    ensures totalSeconds >= 0 ==> c.hours >= 0 && 0 <= c.minutes < 60 && 0 <= c.seconds < 60
    ensures totalSeconds >= 0 ==> (c.hours > 0 <==> totalSeconds >= 3600)
    ensures totalSeconds < 0 ==> c.hours <= 0 && -60 < c.minutes <= 0 && -60 < c.seconds <= 0
  {
    var rest := Rem(totalSeconds, 3600);
    Clock(Quot(totalSeconds, 3600), Quot(rest, 60), Rem(rest, 60))
  }

  predicate IsDigit(c: char) {
    '0' <= c <= '9'
  }

  predicate AllDigits(s: string) {
    forall i :: 0 <= i < |s| ==> IsDigit(s[i])
  }

  function DigitChar(n: int): (c: char)
    requires 0 <= n < 10
    ensures IsDigit(c)
  {
    (48 + n) as char
  }

  function DigitValue(c: char): (n: int)
    requires IsDigit(c)
    ensures 0 <= n < 10 && DigitChar(n) == c
  {
    c as int - 48
  }

  /** The decimal digits of `n`, without leading zeros. */
  function Decimal(n: nat): (r: string)
    ensures 1 <= |r| && AllDigits(r)
    ensures |r| == 1 <==> n < 10
    ensures |r| > 1 ==> r[0] != '0'
    decreases n
  {
    if n < 10 then [DigitChar(n)] else Decimal(n / 10) + [DigitChar(n % 10)]
  }

  /** Number of values of a C `int`. */
  const IntModulus: int := 0x1_0000_0000

  /** Times from this many seconds on have an hour count that no longer fits a C `int`. */
  const WrapSeconds: int := 0x8000_0000 * 3600

  /** Reducing modulo 2^32 in the three ranges `%i` meets: a value already reduced, one that
      exceeds the range by one modulus, and a shift by a whole modulus. */
  lemma ModIntModulus(a: int)
    ensures 0 <= a < IntModulus ==> a % IntModulus == a
    ensures IntModulus <= a < 2 * IntModulus ==> a % IntModulus == a - IntModulus
    ensures (a + IntModulus) % IntModulus == a % IntModulus
  {
    var q, r := a / IntModulus, a % IntModulus;
    assert a == q * IntModulus + r && 0 <= r < IntModulus;
    assert a + IntModulus == (q + 1) * IntModulus + r;
  }

  /** The C `int` that `%i` reads from a 64-bit Swift `Int` argument: its low 32 bits, as a
      two's-complement number. */
  function CInt(n: int): (r: int)
    ensures -0x8000_0000 <= r < 0x8000_0000
    ensures (n - r) % IntModulus == 0
    ensures -0x8000_0000 <= n < 0x8000_0000 ==> r == n
    ensures 0x8000_0000 <= n < IntModulus ==> r == n - IntModulus
  {
    ModIntModulus(n + 0x8000_0000);
    (n + 0x8000_0000) % IntModulus - 0x8000_0000
  }

  /** `%i` of a Swift `Int`: the digits of its low 32 bits, with a minus sign when those are
      negative. */
  function FormatInt(n: int): (r: string)
    ensures 0 <= n < 0x8000_0000 ==> r == Decimal(n)
    ensures -0x8000_0000 <= n < 0 ==> r == "-" + Decimal(-n)
    ensures 0x8000_0000 <= n < IntModulus ==> r == "-" + Decimal(IntModulus - n)
  {
    var w := CInt(n);
    if w < 0 then "-" + Decimal(-w) else Decimal(w)
  }

  /** `%02i`: zero-padded to two characters; the sign of a negative number takes the place of
      the padding. */
  function FormatInt2(n: int): (r: string)
    ensures 0 <= n < 100 ==> |r| == 2 && AllDigits(r)
    ensures -0x8000_0000 <= n < 0 ==> |r| >= 2 && r[0] == '-'
  {
    if 0 <= CInt(n) < 10 then "0" + Decimal(CInt(n)) else FormatInt(n)
  }

  /** `humanDescription`: H:MM:SS once there is an hour, MM:SS otherwise. The shape is stated
      while the hour count fits a C `int`. */
  function HumanDescription(totalSeconds: int): (r: string)
    ensures 3600 <= totalSeconds < WrapSeconds ==>
      var h := |Decimal(totalSeconds / 3600)|;
      && |r| == h + 6
      && r[h] == ':' && r[h + 3] == ':'
      && AllDigits(r[..h]) && AllDigits(r[h + 1..h + 3]) && AllDigits(r[h + 4..])
    ensures 0 <= totalSeconds < 3600 ==>
      |r| == 5 && r[2] == ':' && AllDigits(r[..2]) && AllDigits(r[3..])
  {
    var c := Fields(totalSeconds);
    if c.hours > 0 then FormatInt(c.hours) + ":" + FormatInt2(c.minutes) + ":" + FormatInt2(c.seconds)
    else FormatInt2(c.minutes) + ":" + FormatInt2(c.seconds)
  }

  /** The number a string of decimal digits denotes. */
  function ParseDecimal(s: string): nat
    requires AllDigits(s)
    decreases |s|
  {
    if |s| == 0 then 0 else ParseDecimal(s[..|s| - 1]) * 10 + DigitValue(s[|s| - 1])
  }

  /** Reads the number of seconds back out of a clock string. */
  function ParseClock(s: string): Option<int> {
    if |s| == 5 && s[2] == ':' && AllDigits(s[..2]) && AllDigits(s[3..]) then
      var m := ParseDecimal(s[..2]);
      var sec := ParseDecimal(s[3..]);
      if m < 60 && sec < 60 then Some(m * 60 + sec) else None
    else if |s| >= 7 && s[|s| - 6] == ':' && s[|s| - 3] == ':'
         && AllDigits(s[..|s| - 6]) && AllDigits(s[|s| - 5..|s| - 3]) && AllDigits(s[|s| - 2..]) then
      var h := ParseDecimal(s[..|s| - 6]);
      var m := ParseDecimal(s[|s| - 5..|s| - 3]);
      var sec := ParseDecimal(s[|s| - 2..]);
      if h > 0 && m < 60 && sec < 60 then Some(h * 3600 + m * 60 + sec) else None
    else None
  }

  /** Reading the digits of a number gives the number back. */
  lemma {:induction false} ParseDecimalOfDecimal(n: nat)
    ensures ParseDecimal(Decimal(n)) == n
    decreases n
  {
    if n >= 10 {
      var r := Decimal(n);
      assert r[..|r| - 1] == Decimal(n / 10);
      ParseDecimalOfDecimal(n / 10);
    }
  }

  /** A two-digit field reads back as its value. */
  lemma ParseFormatInt2(n: int)
    requires 0 <= n < 60
    ensures ParseDecimal(FormatInt2(n)) == n
  {
    var r := FormatInt2(n);
    if n < 10 {
      assert r[..1] == "0" && r[1] == DigitChar(n);
      assert ParseDecimal(r[..1]) == 0;
    } else {
      ParseDecimalOfDecimal(n);
    }
  }

  /** The three fields of an `H:MM:SS` string sit at fixed distances from its end. */
  lemma ClockParts(h: string, m: string, sec: string)
    requires |m| == 2 && |sec| == 2
    ensures var s := h + ":" + m + ":" + sec;
      && s[..|s| - 6] == h && s[|s| - 5..|s| - 3] == m && s[|s| - 2..] == sec
  {
    var s := h + ":" + m + ":" + sec;
    assert s[..|h|] == h;
    assert s[|h| + 1..|h| + 3] == m;
    assert s[|h| + 4..] == sec;
  }

  /** Reading the clock string of a non-negative time gives the time back, while the hour count
      fits a C `int`. */
  lemma ParseHumanDescription(t: int)
    requires 0 <= t < WrapSeconds
    ensures ParseClock(HumanDescription(t)) == Some(t)
  {
    var c := Fields(t);
    var s := HumanDescription(t);
    ParseFormatInt2(c.minutes);
    ParseFormatInt2(c.seconds);
    if c.hours > 0 {
      ParseDecimalOfDecimal(c.hours);
      var hs, ms, ss := Decimal(c.hours), FormatInt2(c.minutes), FormatInt2(c.seconds);
      assert s == hs + ":" + ms + ":" + ss;
      ClockParts(hs, ms, ss);
      assert |s| >= 7 && s[|s| - 6] == ':' && s[|s| - 3] == ':';
      assert ParseClock(s) == Some(c.hours * 3600 + c.minutes * 60 + c.seconds);
    } else {
      assert s[..2] == FormatInt2(c.minutes);
      assert s[3..] == FormatInt2(c.seconds);
      assert ParseClock(s) == Some(c.minutes * 60 + c.seconds);
    }
  }

  /** Different non-negative times are shown differently, while the hour count fits a C `int`. */
  lemma HumanDescriptionInjective(t1: int, t2: int)
    requires 0 <= t1 < WrapSeconds && 0 <= t2 < WrapSeconds
    requires HumanDescription(t1) == HumanDescription(t2)
    ensures t1 == t2
  {
    ParseHumanDescription(t1);
    ParseHumanDescription(t2);
  }

  /** `%i` cannot tell numbers apart that differ by a multiple of 2^32. */
  lemma FormatIntPeriodic(n: int)
    ensures FormatInt(n + IntModulus) == FormatInt(n)
  {
    ModIntModulus(n + 0x8000_0000);
    assert CInt(n + IntModulus) == CInt(n);
  }

  /** From one hour on, adding 2^32 hours does not change the clock string: `%i` prints only the
      low 32 bits of the hour count. */
  lemma HourFieldWraps(t: int)
    requires t >= 3600
    ensures HumanDescription(t + IntModulus * 3600) == HumanDescription(t)
  {
    var c, c' := Fields(t), Fields(t + IntModulus * 3600);
    assert c'.hours == c.hours + IntModulus;
    assert c'.minutes == c.minutes && c'.seconds == c.seconds;
    FormatIntPeriodic(c.hours);
  }

  /** One hour and 2^32 + 1 hours are shown alike, so the clock string is not injective on all
      non-negative times. */
  lemma WrappedHoursCollide()
    ensures HumanDescription(3600) == HumanDescription((IntModulus + 1) * 3600)
  {
    HourFieldWraps(3600);
  }
}
