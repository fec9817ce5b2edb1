/** The seven horizontal control lines both charts draw: the mean and the
    mean plus or minus one, two and three standard deviations. */
module ControlLimits {

  /** The line k standard deviations away from the mean (k may be negative). */
  function Tier(mean: real, sd: real, k: int): real
  {
    mean + (k as real) * sd
  }

  /** The multiples of sd of the seven lines, in the order they are drawn. */
  const Multiples: seq<int> := [0, 1, -1, 2, -2, 3, -3]

  /** The seven line heights in drawing order: mean, mean + sd, mean - sd,
      mean + 2 sd, mean - 2 sd, mean + 3 sd, mean - 3 sd. No check is made on
      sd: a zero sd collapses the lines, a negative one swaps each pair. */
  function ControlLines(mean: real, sd: real): (r: seq<real>)
    ensures |r| == |Multiples|
    ensures forall j :: 0 <= j < |r| ==> r[j] == Tier(mean, sd, Multiples[j])
  {
    [mean, mean + sd, mean - sd, mean + 2.0 * sd, mean - 2.0 * sd, mean + 3.0 * sd, mean - 3.0 * sd]
  }

  /** Each pair of lines straddles the mean symmetrically: the upper line of
      pair k is k sd above the mean and the lower one k sd below it. */
  lemma ControlLinesSymmetric(mean: real, sd: real, k: int)
    requires 1 <= k <= 3
    ensures ControlLines(mean, sd)[2 * k - 1] - mean == (k as real) * sd
    ensures mean - ControlLines(mean, sd)[2 * k] == (k as real) * sd
  {
  }

  /** With a positive sd the seven lines are strictly ordered,
      mean - 3 sd < mean - 2 sd < mean - sd < mean < mean + sd < mean + 2 sd < mean + 3 sd,
      so they are pairwise distinct. */
  lemma ControlLinesOrdered(mean: real, sd: real)
    requires sd > 0.0
    ensures var r := ControlLines(mean, sd);
      r[6] < r[4] < r[2] < r[0] < r[1] < r[3] < r[5]
    ensures var r := ControlLines(mean, sd);
      forall i, j :: 0 <= i < j < |r| ==> r[i] != r[j]
  {
  }

  /** With a zero sd all seven lines sit on the mean. */
  lemma ControlLinesCollapse(mean: real)
    ensures forall j :: 0 <= j < 7 ==> ControlLines(mean, 0.0)[j] == mean
  {
  }
}
