/** The countdown display (components/exercise/timer-display.tsx): `m:ss`
    formatting and the fraction of the countdown already elapsed. */
module TimerDisplay {
  import opened Js
  import opened Text

  /** JavaScript's `%` with a positive divisor: the remainder takes the sign
      of the dividend. */
  function JsRem(a: int, d: int): (r: int)
    requires d > 0
    ensures a >= 0 ==> 0 <= r < d
    ensures a < 0 ==> -d < r <= 0
    ensures a >= 0 ==> r == a % d
    ensures a < 0 ==> r == -((-a) % d)
  {
    NegatedRemainder(a, d);
    if a >= 0 || a % d == 0 then a % d else a % d - d
  }

  /** The Euclidean remainder of `-a` in terms of that of `a`. */
  lemma NegatedRemainder(a: int, d: int)
    requires d > 0
    ensures (-a) % d == if a % d == 0 then 0 else d - a % d
  {
    var q, m := a / d, a % d;
    assert a == q * d + m;
    if m == 0 {
      assert -a == (-q) * d + 0;
      RemainderUnique(-a, d, -q, 0);
    } else {
      assert -a == (-q - 1) * d + (d - m);
      RemainderUnique(-a, d, -q - 1, d - m);
    }
  }

  /** A remainder in [0, d) of some quotient is the Euclidean remainder. */
  lemma RemainderUnique(x: int, d: int, q: int, m: int)
    requires d > 0 && 0 <= m < d && x == q * d + m
    ensures x % d == m
  {
    var k := q - x / d;
    assert k * d == x % d - m;
  }

  /** `padStart(2, '0')`. */
  function PadStart2(s: string): (r: string)
    ensures |s| >= 2 ==> r == s
    ensures |s| < 2 ==> |r| == 2 && r[2 - |s|..] == s && forall i | 0 <= i < 2 - |s| :: r[i] == '0'
  {
    if |s| == 0 then "00" else if |s| == 1 then "0" + s else s
  }

  /** `formatTime`: whole minutes, a colon, and the remaining seconds padded
      to two characters. */
  function FormatTime(secs: int): (s: string)
    ensures |s| >= 4
    ensures (s[0] == '-') <==> secs < 0
  {
    IntToString(secs / 60) + ":" + PadStart2(IntToString(JsRem(secs, 60)))
  }

  /** For a non-negative count of seconds the text ends in a colon and two
      digits below 60, and reading it back gives the count. */
  lemma FormatTimeRoundTrip(secs: nat)
    ensures var s := FormatTime(secs);
      && |s| >= 4 && s[|s| - 3] == ':'
      && AllDigits(s[..|s| - 3]) && AllDigits(s[|s| - 2..])
      && ParseDigits(s[|s| - 2..]) < 60
      && ParseDigits(s[..|s| - 3]) * 60 + ParseDigits(s[|s| - 2..]) == secs
  {
    var m := NatToString(secs / 60);
    var r := NatToString(secs % 60);
    var p := PadStart2(r);
    var s := FormatTime(secs);
    assert JsRem(secs, 60) == secs % 60;
    assert |r| <= 2 by {
      if |r| > 2 {
        NatToStringLength(secs % 60);
      }
    }
    assert |p| == 2;
    assert s == m + ":" + p;
    assert s[..|s| - 3] == m;
    assert s[|s| - 2..] == p;
    ParseNatToString(secs / 60);
    ParseNatToString(secs % 60);
    if |r| == 1 {
      ParseLeadingZero(r);
    }
  }

  /** A number below 100 is written with at most two digits. */
  lemma NatToStringLength(n: nat)
    requires n < 100
    ensures |NatToString(n)| <= 2
  {
    if n >= 10 {
      assert NatToString(n) == NatToString(n / 10) + NatToString(n % 10);
    }
  }

  /** `progress`: the elapsed fraction, or 0 without a (non-zero) total. */
  function Progress(seconds: int, totalSeconds: Option<int>): (p: real)
    ensures !Truthy(totalSeconds) ==> p == 0.0
    ensures Truthy(totalSeconds) ==> p * totalSeconds.value as real == (totalSeconds.value - seconds) as real
  {
    if Truthy(totalSeconds) then (totalSeconds.value - seconds) as real / totalSeconds.value as real else 0.0
  }

  /** While counting down from the total, the fraction lies in [0, 1]: 0 at
      the start and 1 at the end. */
  lemma ProgressBounds(seconds: int, total: int)
    requires 0 <= seconds <= total && total != 0
    ensures 0.0 <= Progress(seconds, Some(total)) <= 1.0
    ensures seconds == total ==> Progress(seconds, Some(total)) == 0.0
    ensures seconds == 0 ==> Progress(seconds, Some(total)) == 1.0
  {
    var t := total as real;
    assert Progress(seconds, Some(total)) == (t - seconds as real) / t;
    ShareAtMostOne(t - seconds as real, t);
  }
}
