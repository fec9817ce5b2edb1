/** The x-axis of both charts (one tick per QC run, at positions 1..n,
    labelled with the day number and the QC value) and the reference-range
    shading of the patient-result chart. */
module Axes {
  import opened Sequences

  /** A tick label: "Day <day>" over the QC value (its one-decimal text
      rendering is not modelled). */
  datatype Label = Label(day: int, qcValue: real)

  /** The x positions of n runs: range(1, n + 1). */
  function Positions(n: nat): (r: seq<int>)
    ensures |r| == n
    ensures forall i :: 0 <= i < n ==> r[i] == i + 1
  {
    RangeAt(1, n + 1);
    Range(1, n + 1)
  }

  /** One label per QC value, from enumerating the values: the value at
      index i is shown as day i + 1. */
  function Labels(values: seq<real>): (r: seq<Label>)
    ensures |r| == |values|
    ensures forall i :: 0 <= i < |values| ==> r[i].day == i + 1 && r[i].qcValue == values[i]
  {
    EnumerateAt(values, 0);
    var e := Enumerate(values, 0);
    seq(|e|, i requires 0 <= i < |e| => Label(e[i].0 + 1, e[i].1))
  }

  /** Each tick label sits at the position of its own run: label i names the
      day number that is the x position of run i. */
  lemma LabelsMatchPositions(values: seq<real>)
    ensures |Labels(values)| == |Positions(|values|)|
    ensures forall i :: 0 <= i < |values| ==> Labels(values)[i].day == Positions(|values|)[i]
  {
  }

  /** A horizontal band between two heights, given in either order. */
  datatype Band = Band(from: real, to: real)

  predicate Covers(b: Band, y: real)
  {
    (b.from <= y <= b.to) || (b.to <= y <= b.from)
  }

  /** The reference-range shading: one band from the upper reference limit
      up to the top of the axis, one from the bottom of the axis up to the
      lower reference limit, and the axis limits put back as they were read
      before shading. */
  datatype Shading = Shading(above: Band, below: Band, yLimits: (real, real))

  /** Shades what lies outside the reference range [refLower, refUpper]
      within the axis limits read before shading, `yLimits`, which are the
      final limits too. Inside the axis, every height at or beyond a
      reference limit is shaded and no height strictly inside the range is.
      No check is made that refLower <= refUpper. */
  function ShadeReferenceRange(yLimits: (real, real), refLower: real, refUpper: real): (s: Shading)
    ensures s.yLimits == yLimits
    ensures s.above.from == refUpper && s.above.to == yLimits.1
    ensures s.below.from == yLimits.0 && s.below.to == refLower
    ensures forall y :: yLimits.0 <= y <= yLimits.1 && (y >= refUpper || y <= refLower) ==>
      Covers(s.above, y) || Covers(s.below, y)
    ensures forall y :: yLimits.0 < y < yLimits.1 && refLower < y < refUpper ==>
      !Covers(s.above, y) && !Covers(s.below, y)
  {
    var (yMin, yMax) := yLimits;
    Shading(Band(refUpper, yMax), Band(yMin, refLower), (yMin, yMax))
  }
}
