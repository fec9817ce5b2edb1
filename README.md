# QC chart data preparation, modelled in Dafny

This project models the data preparation behind two quality-control charts
for laboratory analyzers:

- a Levey-Jennings control chart (`generate_QC_graph`): one QC value per run,
  plotted at positions 1..n against seven control lines (the mean and the mean
  plus or minus one, two and three standard deviations), each marker coloured
  by the run's severity;
- a patient-result chart (`generate_westguard_graph`): patient results grouped
  by the QC event (`qc_timestamp`) they were measured under, one box per group,
  the groups' QC values plotted over the boxes, the same control lines, and the
  area outside the clinical reference range shaded.

Only the data that feeds the drawing is modelled, as pure functions over
sequences with `real` and `int` values. The files are:

- `sequences.dfy` (module `Sequences`): pairing up to the shorter sequence,
  integer ranges, repetition and enumeration. Each is defined recursively and
  characterised element by element.
- `wrappers.dfy` (module `Wrappers`): the `Option` type for arguments that may be left out.
- `severity.dfy` (module `RunClassifier`): the `Severity` enum
  (Pass, Warning, Failure for the default, amber and red colours) and the
  colour list built from the optional warning and failure flags.
- `control_limits.dfy` (module `ControlLimits`): the seven control lines,
  their symmetry about the mean, and their order.
- `grouping.dfy` (module `Grouping`): the group-by over
  `(qc_timestamp, qc_value, patient_result)` rows. It is modelled as a scan
  over the rows in input order. The scan files each row into a list of groups
  kept sorted by timestamp. The result is proved equal to reference
  definitions read straight off the rows.
- `axes.dfy` (module `Axes`): x positions, tick labels, and the
  reference-range shading bands.
- `charts.dfy` (module `Charts`): the two charts assembled from the parts.

Behaviour of the code that is easy to misread, which the model follows:

- The group-by sorts its keys, so groups come out in ascending timestamp
  order, not in order of first appearance (`Grouping.GroupBySortsKeys` shows
  rows stamped 2, 1, 2, 3 giving groups 1, 2, 3).
- Supplying only one of the two flag lists is not an error. The colours fall
  back to all-Pass.
- Flag lists of different lengths are not an error. Pairing stops at the
  shorter list.
- A non-positive standard deviation, an empty input and a reversed reference
  range are not rejected. With sd = 0 the seven lines coincide, and with
  sd < 0 each pair swaps sides.
- The y-axis extent is not computed from the data and the control lines. It
  is whatever the plotting library chose, read before the shading is added and
  re-applied afterwards.

## Model

| member | source | states |
|---|---|---|
| `Sequences.ZipAt` | src/visualization.py:33 | pairing two flag lists keeps as many pairs as the shorter list has elements, and pair k holds element k of each list |
| `Sequences.RangeAt` | src/visualization.py:48 | `range(lo, hi)` has hi - lo elements (none if hi <= lo), element k being lo + k |
| `Sequences.RepeatAt` | src/visualization.py:35 | a list of one value repeated n times has length n and holds that value everywhere |
| `Sequences.EnumerateAt` | src/visualization.py:29 | enumerating a list pairs element k with index start + k, one pair per element |
| `RunClassifier.RunSeverity` | src/visualization.py:33 | a run's colour is the highest-ranked severity its flags raise: Failure over Warning over Pass |
| `RunClassifier.FlagSeverities` | src/visualization.py:127 | with both flag lists, one severity per index up to the shorter list, and index i depends on failures[i] and warnings[i] only |
| `RunClassifier.Classify` | src/visualization.py:31-35 | if either flag list is missing, all `count` runs are Pass; otherwise the length is the shorter list's, and run i is Failure iff failures[i], Warning iff warnings[i] without failures[i], Pass iff neither flag is set |
| `RunClassifier.FailureDominates` | src/visualization.py:127 | a set failure flag makes the run a Failure whatever its warning flag says |
| `RunClassifier.ClassifyIsPointwise` | src/visualization.py:127 | two pairs of flag lists that agree at index i classify run i alike |
| `RunClassifier.OneListIsIgnored` | src/visualization.py:126-129 | supplying only one flag list gives the same colours as supplying none |
| `ControlLimits.ControlLines` | src/visualization.py:40-46 | seven lines in drawing order, line j at mean + m_j * sd for multiples 0, 1, -1, 2, -2, 3, -3 |
| `ControlLimits.ControlLinesSymmetric` | src/visualization.py:111-117 | the upper line of pair k lies k sd above the mean and the lower one k sd below it |
| `ControlLimits.ControlLinesOrdered` | src/visualization.py:40-46 | for sd > 0 the lines run mean - 3sd < mean - 2sd < mean - sd < mean < mean + sd < mean + 2sd < mean + 3sd and are pairwise distinct |
| `ControlLimits.ControlLinesCollapse` | src/visualization.py:111-117 | with sd = 0 all seven lines lie on the mean, since sd is not checked |
| `Grouping.InsertSorted` | src/visualization.py:98 | filing a row into the key-sorted group list keeps it sorted |
| `Grouping.InsertKeys` | src/visualization.py:98 | filing a row adds its timestamp to the group keys and no other key |
| `Grouping.InsertFind` | src/visualization.py:101-102 | filing a row opens its timestamp's group with the row's QC value and result, or appends the result to the existing group and keeps its QC value; all other groups stay as they were |
| `Grouping.InsertTotal` | src/visualization.py:102 | filing a row adds exactly one sample across all groups |
| `Grouping.SamplesOfSnoc` | src/visualization.py:102 | appending a row extends the samples of its own timestamp by its patient result and leaves the others unchanged |
| `Grouping.FirstQcValueSnoc` | src/visualization.py:101 | appending a row does not change the first QC value of a timestamp already present |
| `Grouping.FirstQcValueNew` | src/visualization.py:101 | a row whose timestamp is new supplies that timestamp's first QC value |
| `Grouping.SamplesOfPresent` | src/visualization.py:102 | every timestamp that occurs has at least one sample, so no group is empty |
| `Grouping.InsertRepresents` | src/visualization.py:98-102 | filing one more row into the groups of some rows gives the groups of the longer input |
| `Grouping.GroupByRepresents` | src/visualization.py:98-102 | the scan's result is sorted, has the rows' timestamps as its keys, and holds the group the rows form for each timestamp, with as many samples as rows |
| `Grouping.GroupBySpec` | src/visualization.py:98-102 | one group per distinct timestamp in strictly ascending order (so no timestamp twice); each group's QC value is the first matching row's even if later rows differ; its samples are exactly the matching rows' patient results in input order, never none; the samples total the row count |
| `Grouping.GroupBySortsKeys` | src/visualization.py:98 | rows stamped 2, 1, 2, 3 give groups 1, 2, 3 in that order, and group 2 keeps the QC value of its first row |
| `Axes.Positions` | src/visualization.py:119 | n positions, position i being i + 1 |
| `Axes.Labels` | src/visualization.py:105 | one label per QC value, label i carrying day i + 1 and the i-th QC value |
| `Axes.LabelsMatchPositions` | src/visualization.py:157 | tick label i names the day that is run i's x position |
| `Axes.ShadeReferenceRange` | src/visualization.py:142-154 | the upper band runs from refUpper to the top of the axis and the lower band from the bottom of the axis to refLower; inside the axis every height at or beyond a reference limit is shaded and none strictly inside the range is; the final limits are those read before shading |
| `Charts.QcGraph` | src/visualization.py:26-48 | Levey-Jennings chart: the seven control lines, position i + 1 and label (day i + 1, value i) for each QC value, and colours that are all Pass (one per value) without both flag lists, and otherwise one per flag pair up to the shorter list |
| `Charts.WestgardGraph` | src/visualization.py:98-154 | patient-result chart: one group per distinct timestamp in ascending order with its first-row QC value and its samples in input order; positions and labels as above; colours as above with one per group by default; box i takes colour i up to the shorter of the two lists; the QC values and samples are those of the groups; shading and limits as above |
| `Charts.WestgardGroupsExample` | src/visualization.py:98-105 | rows (1, 100, 98), (1, 100, 102), (2, 110, 111) give QC values [100, 110], samples [[98, 102], [111]], positions [1, 2] and all-Pass colours |

## Left out

- All drawing calls are left out: figure creation, lines, scatter, box plots, legend, labels, title, ticks, layout, grid and showing the window. They are rendering and I/O. The model keeps only the data they receive.
- Colour strings, line styles and widths, transparency and legend entries are left out. They are presentation; colours appear as `Severity`.
- The `.1f` text of tick labels is not modelled. A label keeps only its day number and value.
- Floating-point arithmetic is modelled as exact `real` arithmetic. Rounding in `mean + k*sd` is therefore not modelled.
- The y-limits that the plotting library picks after drawing are not modelled. They are an input (`autoLimits`) to `Charts.WestgardGraph`.
- Box-plot quartiles, whiskers and fliers are not modelled. They are computed inside the plotting library.
- What the plotting library does when the colour list and the point list differ in length is not modelled. This can happen when flag lists of another length are supplied. The model records both lists as built.
- DataFrame access is not modelled. Inputs are sequences of values, or of `(qc_timestamp, qc_value, patient_result)` rows with integer timestamps. Missing (NaN) timestamps are not modelled; the group-by would drop those rows.
- `analyzer_name` is left out. It appears only in the axis label and the title.
