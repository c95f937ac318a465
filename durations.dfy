/** Durations in seconds and their `m:ss` rendering (`formatDuration`). */
module Durations {
  import opened Text

  /** A player duration or an accumulated watch time: a non-negative number of
      seconds, possibly fractional. Exact rationals stand in for the script's
      floating-point numbers. */
  type Seconds = r: real | r >= 0.0

  /** `Math.floor` on a non-negative number of seconds. */
  function WholeSeconds(d: Seconds): (n: nat)
    ensures n as real <= d < n as real + 1.0
  {
    d.Floor
  }

  /** `Math.floor(seconds % 60)`: the whole seconds of the last minute. For a
      non-negative dividend JavaScript's `seconds % 60` is
      `seconds - 60 * Math.floor(seconds / 60)`, so fewer than 60. */
  function RemainingSeconds(seconds: Seconds): (n: nat)
    ensures n < 60
  {
    var minutes := WholeSeconds(seconds / 60.0);
    LastMinuteBound(seconds, minutes);
    WholeSeconds(seconds - 60.0 * minutes as real)
  }

  /** A duration is less than a minute past its whole minutes. */
  lemma LastMinuteBound(seconds: Seconds, minutes: nat)
    requires minutes == WholeSeconds(seconds / 60.0)
    ensures 60.0 * minutes as real <= seconds < 60.0 * minutes as real + 60.0
  {
    assert minutes as real <= seconds / 60.0 < minutes as real + 1.0;
  }

  /** `formatDuration(seconds)`: whole minutes, a colon, and the seconds of the
      last minute zero-padded to two characters. */
  function FormatDuration(seconds: Seconds): (r: string)
    ensures |r| >= 4 && r[|r| - 3] == ':'
    ensures IsDigit(r[0]) && IsDigit(r[|r| - 2]) && IsDigit(r[|r| - 1])
  {
    var minutes := WholeSeconds(seconds / 60.0);
    var remainingSeconds := RemainingSeconds(seconds);
    var m, p := NatToString(minutes), PadStart(NatToString(remainingSeconds), 2, '0');
    TwoDigits(remainingSeconds);
    RenderingEnds(m, p);
    m + ":" + p
  }

  /** Minutes digits, a colon and two digits: a rendering starts with a digit
      and ends in a colon and two digits. */
  lemma RenderingEnds(m: string, p: string)
    requires 1 <= |m| && AllDigits(m) && |p| == 2 && AllDigits(p)
    ensures var r := m + ":" + p;
      |r| >= 4 && r[|r| - 3] == ':' && IsDigit(r[0]) && IsDigit(r[|r| - 2]) && IsDigit(r[|r| - 1])
  {
    var r := m + ":" + p;
    assert r[0] == m[0];
    assert r[|r| - 2] == p[0] && r[|r| - 1] == p[1];
  }

  /** The minutes and the remaining seconds are the quotient and the remainder
      of the whole seconds by 60. */
  lemma SplitMinutes(seconds: Seconds)
    ensures WholeSeconds(seconds / 60.0) == WholeSeconds(seconds) / 60
    ensures WholeSeconds(seconds / 60.0) as real * 60.0 <= seconds
    ensures RemainingSeconds(seconds) == WholeSeconds(seconds) % 60
  {
    var n := WholeSeconds(seconds);
    var q, r := n / 60, n % 60;
    assert n == 60 * q + r;
    assert q as real * 60.0 <= seconds;
    assert seconds < q as real * 60.0 + 60.0;
    assert q as real <= seconds / 60.0 < q as real + 1.0;
    assert WholeSeconds(seconds / 60.0) == q;
    var rest := seconds - 60.0 * q as real;
    assert r as real <= rest < r as real + 1.0;
  }

  /** Two decimal digits denoting `r`, the last two characters of a rendering. */
  lemma TwoDigits(r: nat)
    requires r < 60
    ensures |PadStart(NatToString(r), 2, '0')| == 2
    ensures AllDigits(PadStart(NatToString(r), 2, '0'))
    ensures ParseDigits(PadStart(NatToString(r), 2, '0')) == r
  {
    var s := NatToString(r);
    ParseNatToString(r);
    if r < 10 {
      var p := PadStart(s, 2, '0');
      assert p == ['0'] + s;
      assert p[..1] == "0";
    } else {
      assert |s| == 2 by {
        assert NatToString(r / 10) == [DigitChar(r / 10)];
      }
    }
  }

  /** `formatDuration` in terms of the whole seconds alone. */
  lemma FormatDurationParts(seconds: Seconds)
    ensures FormatDuration(seconds)
      == NatToString(WholeSeconds(seconds) / 60) + ":" + PadStart(NatToString(WholeSeconds(seconds) % 60), 2, '0')
  {
    SplitMinutes(seconds);
  }

  /** `r` reads as `minutes:ss`: at least one digit of minutes, a colon, and
      exactly two digits of seconds. */
  predicate ShowsMinutesSeconds(r: string, minutes: nat, rest: nat) {
    && |r| >= 4
    && r[|r| - 3] == ':'
    && AllDigits(r[..|r| - 3]) && ParseDigits(r[..|r| - 3]) == minutes
    && AllDigits(r[|r| - 2..]) && ParseDigits(r[|r| - 2..]) == rest
  }

  /** Slicing a rendering `m:pp` back into its parts. */
  lemma ColonSplit(m: string, p: string, minutes: nat, rest: nat)
    requires 1 <= |m| && AllDigits(m) && ParseDigits(m) == minutes
    requires |p| == 2 && AllDigits(p) && ParseDigits(p) == rest
    ensures ShowsMinutesSeconds(m + ":" + p, minutes, rest)
  {
    var r := m + ":" + p;
    assert r[..|r| - 3] == m;
    assert r[|r| - 2..] == p;
  }

  /** What `formatDuration` shows for `seconds`, with `n` its whole seconds:
      the text before the last three characters reads as `n / 60`, then comes a
      colon, then exactly two digits reading as `n % 60` (so 0 to 59). */
  lemma FormatDurationShape(seconds: Seconds)
    ensures ShowsMinutesSeconds(FormatDuration(seconds), WholeSeconds(seconds) / 60, WholeSeconds(seconds) % 60)
    ensures WholeSeconds(seconds) % 60 < 60
  {
    var n := WholeSeconds(seconds);
    FormatDurationParts(seconds);
    TwoDigits(n % 60);
    ParseNatToString(n / 60);
    ColonSplit(NatToString(n / 60), PadStart(NatToString(n % 60), 2, '0'), n / 60, n % 60);
  }

  /** Only the whole seconds matter: a fractional part never shows. */
  lemma FormatDurationOfWhole(seconds: Seconds)
    ensures FormatDuration(seconds) == FormatDuration(WholeSeconds(seconds) as real)
  {
    var n := WholeSeconds(seconds);
    var whole: Seconds := n as real;
    assert WholeSeconds(whole) == n;
    FormatDurationParts(seconds);
    FormatDurationParts(whole);
  }
}
