/** The playback-rate cycle of the speed button (`toggleSpeed`). */
module Playback {

  /** The rates the button steps through, in order. */
  const Speeds: seq<real> := [1.0, 1.25, 1.5, 2.0]

  /** The scan of `Array.prototype.indexOf` from index `k`. */
  function IndexFrom(s: seq<real>, x: real, k: nat): (i: int)
    ensures i == -1 || k <= i < |s|
    ensures i >= 0 ==> s[i] == x && forall j :: k <= j < i ==> s[j] != x
    ensures i == -1 <==> forall j :: k <= j < |s| ==> s[j] != x
    decreases |s| - k
  {
    if k >= |s| then -1
    else if s[k] == x then k
    else IndexFrom(s, x, k + 1)
  }

  /** `Array.prototype.indexOf` with strict equality: the first index holding
      `x`, or -1 when there is none. */
  function IndexOf(s: seq<real>, x: real): (i: int)
    ensures -1 <= i < |s|
    ensures i >= 0 ==> s[i] == x && forall j :: 0 <= j < i ==> s[j] != x
    ensures i == -1 <==> x !in s
  {
    IndexFrom(s, x, 0)
  }

  /** The rate set after `currentRate`: the next one in `Speeds`, wrapping
      round; an unlisted rate has index -1 and so moves to the first, 1x. */
  function NextSpeed(currentRate: real): (r: real)
    ensures r in Speeds
    ensures currentRate !in Speeds ==> r == Speeds[0]
  {
    var nextIndex := (IndexOf(Speeds, currentRate) + 1) % |Speeds|;
    Speeds[nextIndex]
  }

  /** The cycle 1x, 1.25x, 1.5x, 2x, back to 1x; any unlisted rate resets to 1x. */
  lemma NextSpeedCycles(currentRate: real)
    ensures currentRate == 1.0 ==> NextSpeed(currentRate) == 1.25
    ensures currentRate == 1.25 ==> NextSpeed(currentRate) == 1.5
    ensures currentRate == 1.5 ==> NextSpeed(currentRate) == 2.0
    ensures currentRate == 2.0 ==> NextSpeed(currentRate) == 1.0
    ensures currentRate !in Speeds ==> NextSpeed(currentRate) == 1.0
    ensures NextSpeed(currentRate) in Speeds
  {
    var i := IndexOf(Speeds, currentRate);
    assert Speeds[0] == 1.0 && Speeds[1] == 1.25 && Speeds[2] == 1.5 && Speeds[3] == 2.0;
    if currentRate == 1.0 {
      assert i == 0;
    } else if currentRate == 1.25 {
      assert i == 1;
    } else if currentRate == 1.5 {
      assert i == 2;
    } else if currentRate == 2.0 {
      assert i == 3;
    } else {
      assert i == -1;
    }
  }

  /** Four presses bring a listed rate back to itself. */
  lemma FourPressesReturn(currentRate: real)
    requires currentRate in Speeds
    ensures NextSpeed(NextSpeed(NextSpeed(NextSpeed(currentRate)))) == currentRate
  {
    NextSpeedCycles(1.0);
    NextSpeedCycles(1.25);
    NextSpeedCycles(1.5);
    NextSpeedCycles(2.0);
  }
}
