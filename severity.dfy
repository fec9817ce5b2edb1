/** Run classification: the colour each QC run (or box) is drawn in, as a
    severity. Red is Failure, amber is Warning and the default colour is
    Pass. */
module RunClassifier {
  import opened Wrappers
  import opened Sequences

  datatype Severity = Pass | Warning | Failure

  /** The precedence between severities: Failure above Warning above Pass. */
  function Rank(s: Severity): nat
  {
    match s
    case Pass => 0
    case Warning => 1
    case Failure => 2
  }

  /** The severities a run's two flags put forward: Pass always, Warning
      when its warning flag is set, Failure when its failure flag is set. */
  function Raised(fail: bool, warn: bool): set<Severity>
  {
    {Pass} + (if warn then {Warning} else {}) + (if fail then {Failure} else {})
  }

  /** The colour choice for one run: red when its failure flag is set,
      else amber when its warning flag is set, else the default colour.
      That is the highest-ranked severity its flags put forward. */
  function RunSeverity(fail: bool, warn: bool): (s: Severity)
    ensures s in Raised(fail, warn)
    ensures forall t :: t in Raised(fail, warn) ==> Rank(t) <= Rank(s)
  {
    if fail then Failure else if warn then Warning else Pass
  }

  /** One severity per pair of flags, pairing failures with warnings up to
      the shorter of the two lists. */
  function FlagSeverities(failures: seq<bool>, warnings: seq<bool>): (r: seq<Severity>)
    ensures |r| == Min(|failures|, |warnings|)
    ensures forall i :: 0 <= i < |r| ==> r[i] == RunSeverity(failures[i], warnings[i])
  {
    ZipAt(failures, warnings);
    var pairs := Zip(failures, warnings);
    seq(|pairs|, i requires 0 <= i < |pairs| => RunSeverity(pairs[i].0, pairs[i].1))
  }

  /** The colour list of either chart. Flags are honoured only when BOTH
      lists are supplied; otherwise (neither, or only one of them) every one
      of the `count` runs gets the default colour. */
  function Classify(count: nat, warnings: Option<seq<bool>>, failures: Option<seq<bool>>): (r: seq<Severity>)
    ensures warnings.None? || failures.None? ==>
      |r| == count && forall i :: 0 <= i < |r| ==> r[i] == Pass
    ensures warnings.Some? && failures.Some? ==>
      |r| == Min(|warnings.value|, |failures.value|)
    ensures warnings.Some? && failures.Some? ==>
      forall i :: 0 <= i < |r| ==>
        && (r[i] == Failure <==> failures.value[i])
        && (r[i] == Warning <==> !failures.value[i] && warnings.value[i])
        && (r[i] == Pass <==> !failures.value[i] && !warnings.value[i])
  {
    if warnings.Some? && failures.Some? then
      FlagSeverities(failures.value, warnings.value)
    else
      RepeatAt(Pass, count);
      Repeat(Pass, count)
  }

  /** A set failure flag decides the run whatever its warning flag says. */
  lemma FailureDominates(warnings: seq<bool>, failures: seq<bool>, i: nat)
    requires i < |warnings| && i < |failures|
    requires failures[i]
    ensures i < |Classify(|failures|, Some(warnings), Some(failures))|
    ensures Classify(|failures|, Some(warnings), Some(failures))[i] == Failure
  {
  }

  /** With both lists supplied, a run's severity depends on its own two flags
      only: two flag lists that agree at index i classify run i alike. */
  lemma ClassifyIsPointwise(w1: seq<bool>, f1: seq<bool>, w2: seq<bool>, f2: seq<bool>, i: nat)
    requires i < |w1| && i < |f1| && i < |w2| && i < |f2|
    requires w1[i] == w2[i] && f1[i] == f2[i]
    ensures Classify(0, Some(w1), Some(f1))[i] == Classify(0, Some(w2), Some(f2))[i]
  {
  }

  /** Supplying just one of the two flag lists changes nothing: the result
      is the same as supplying neither. */
  lemma OneListIsIgnored(count: nat, flags: seq<bool>)
    ensures Classify(count, Some(flags), None) == Classify(count, None, None)
    ensures Classify(count, None, Some(flags)) == Classify(count, None, None)
  {
  }
}
