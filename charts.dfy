/** The data the two charts are drawn from, put together from the parts
    above: the Levey-Jennings chart of QC values, and the chart of patient
    results grouped by QC event with the QC values over them. */
module Charts {
  import opened Wrappers
  import opened Sequences
  import opened RunClassifier
  import opened ControlLimits
  import opened Grouping
  import opened Axes

  /** A Levey-Jennings chart: control lines, one marker per QC value at
      positions 1..n joined by a line, markers coloured by severity, and one
      tick label per run. */
  datatype QcChart = QcChart(
    controlLines: seq<real>,
    positions: seq<int>,
    values: seq<real>,
    labels: seq<Label>,
    colours: seq<Severity>)

  function QcGraph(values: seq<real>, mean: real, sd: real,
                   warnings: Option<seq<bool>>, failures: Option<seq<bool>>): (c: QcChart)
    ensures c.controlLines == ControlLines(mean, sd)
    ensures c.values == values
    ensures |c.positions| == |c.labels| == |values|
    ensures forall i :: 0 <= i < |values| ==>
      c.positions[i] == i + 1 && c.labels[i] == Label(i + 1, values[i])
    ensures warnings.None? || failures.None? ==>
      |c.colours| == |values| && forall i :: 0 <= i < |c.colours| ==> c.colours[i] == Pass
    ensures warnings.Some? && failures.Some? ==>
      |c.colours| == Min(|warnings.value|, |failures.value|) &&
      forall i :: 0 <= i < |c.colours| ==>
        c.colours[i] == RunSeverity(failures.value[i], warnings.value[i])
  {
    QcChart(
      ControlLines(mean, sd),
      Positions(|values|),
      values,
      Labels(values),
      Classify(|values|, warnings, failures))
  }

  /** The patient-result chart: control lines; the groups of patient
      results, one per QC timestamp; a box per group at positions 1..n,
      filled with the colour of the same index while both last; the groups'
      QC values joined by a line and marked in those colours; one tick label
      per group; and the reference-range shading. */
  datatype WestgardChart = WestgardChart(
    controlLines: seq<real>,
    groups: seq<Group>,
    positions: seq<int>,
    qcValues: seq<real>,
    samples: seq<seq<real>>,
    labels: seq<Label>,
    colours: seq<Severity>,
    boxColours: seq<(int, Severity)>,
    shading: Shading)

  /** `autoLimits` are the y-axis limits the plotting library settles on
      once boxes and markers are drawn; they are an input here. */
  function WestgardGraph(rows: seq<Row>, mean: real, sd: real, refLower: real, refUpper: real,
                         warnings: Option<seq<bool>>, failures: Option<seq<bool>>,
                         autoLimits: (real, real)): (c: WestgardChart)
    ensures c.controlLines == ControlLines(mean, sd)
    // one group per distinct timestamp, ascending
    ensures StrictlyIncreasing(c.groups) && GroupKeys(c.groups) == Timestamps(rows)
    ensures |c.groups| == |Timestamps(rows)|
    ensures |c.positions| == |c.qcValues| == |c.samples| == |c.labels| == |c.groups|
    ensures forall i :: 0 <= i < |c.groups| ==>
      && c.groups[i].qcTimestamp in Timestamps(rows)
      && c.qcValues[i] == FirstQcValue(rows, c.groups[i].qcTimestamp)
      && c.samples[i] == SamplesOf(rows, c.groups[i].qcTimestamp)
    ensures forall i :: 0 <= i < |c.groups| ==>
      c.qcValues[i] == c.groups[i].qcValue && c.samples[i] == c.groups[i].samples
    ensures TotalSamples(c.groups) == |rows|
    ensures forall i :: 0 <= i < |c.groups| ==>
      c.positions[i] == i + 1 && c.labels[i] == Label(i + 1, c.qcValues[i])
    ensures warnings.None? || failures.None? ==>
      |c.colours| == |c.groups| && forall i :: 0 <= i < |c.colours| ==> c.colours[i] == Pass
    ensures warnings.Some? && failures.Some? ==>
      |c.colours| == Min(|warnings.value|, |failures.value|) &&
      forall i :: 0 <= i < |c.colours| ==>
        c.colours[i] == RunSeverity(failures.value[i], warnings.value[i])
    // box i (at position i + 1) takes colour i, as far as both lists go
    ensures |c.boxColours| == Min(|c.positions|, |c.colours|)
    ensures forall i :: 0 <= i < |c.boxColours| ==> c.boxColours[i] == (i + 1, c.colours[i])
    ensures c.shading == ShadeReferenceRange(autoLimits, refLower, refUpper)
    ensures c.shading.yLimits == autoLimits
  {
    GroupBySpec(rows);
    var groups := GroupBy(rows);
    var qcValues := seq(|groups|, i requires 0 <= i < |groups| => groups[i].qcValue);
    var samples := seq(|groups|, i requires 0 <= i < |groups| => groups[i].samples);
    var positions := Positions(|samples|);
    var colours := Classify(|samples|, warnings, failures);
    ZipAt(positions, colours);
    WestgardChart(
      ControlLines(mean, sd),
      groups,
      positions,
      qcValues,
      samples,
      Labels(qcValues),
      colours,
      Zip(positions, colours),
      ShadeReferenceRange(autoLimits, refLower, refUpper))
  }

  /** The three rows (t1, 100, 98), (t1, 100, 102), (t2, 110, 111) give two
      groups: t1 with QC value 100 and samples [98, 102], then t2 with QC
      value 110 and sample [111]. */
  lemma WestgardGroupsExample()
    ensures var c := WestgardGraph(
        [Row(1, 100.0, 98.0), Row(1, 100.0, 102.0), Row(2, 110.0, 111.0)],
        100.0, 5.0, 90.0, 110.0, None, None, (80.0, 120.0));
      c.qcValues == [100.0, 110.0] && c.samples == [[98.0, 102.0], [111.0]]
      && c.positions == [1, 2] && c.colours == [Pass, Pass]
  {
    var rows := [Row(1, 100.0, 98.0), Row(1, 100.0, 102.0), Row(2, 110.0, 111.0)];
    var p1, p2 := rows[..1], rows[..2];
    assert p1[..0] == [] && p2[..1] == p1 && rows[..2] == p2;
    assert GroupBy(p1) == [Group(1, 100.0, [98.0])];
    assert [98.0] + [102.0] == [98.0, 102.0];
    assert GroupBy(p2) == [Group(1, 100.0, [98.0, 102.0])];
    assert GroupBy(p2)[1..] == [];
    assert Insert(GroupBy(p2)[1..], rows[2]) == [Group(2, 110.0, [111.0])];
    assert GroupBy(rows) == Insert(GroupBy(p2), rows[2]);
    assert GroupBy(rows) == [Group(1, 100.0, [98.0, 102.0]), Group(2, 110.0, [111.0])];
  }
}
