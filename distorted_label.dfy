/**
 The Levenshtein distorted-label detector: for a pair of labels taken from a
 string column it reports the pair as a candidate imperfection when their
 edit distance is positive and within the configured "Threshold" option.
 */
module DistortedLabel {
  import opened Wrappers
  import opened Levenshtein
  import opened Utf16

  /** Option name and default value of the detector's threshold. */
  const ThresholdKey: string := "Threshold"
  const DefaultThreshold: int := 2

  /** A plugin's options, restricted to integer-valued ones. */
  type Options = map<string, int>

  /** A label as Java holds it: its UTF-16 code units. */
  type Label = seq<CodeUnit>

  /** A reported pair: the column it came from and the two labels. */
  datatype Candidate = Candidate(column: string, original: Label, matched: Label)

  /** Why a detector could not be constructed. */
  datatype ConstructError = NegativeThreshold(threshold: int)

  /**
   The options after `getOptions`: the threshold default is added when the
   key is absent, and the map is left as it was when it is present.
   */
  function WithDefaultThreshold(options: Options): (r: Options)
    ensures ThresholdKey in r
    ensures r.Keys == options.Keys + {ThresholdKey}
    ensures ThresholdKey in options ==> r == options
    ensures ThresholdKey !in options ==> r[ThresholdKey] == DefaultThreshold
    ensures forall k :: k in options ==> k in r && r[k] == options[k]
  {
    if ThresholdKey in options then options else options[ThresholdKey := DefaultThreshold]
  }

  /** A second `getOptions` leaves the options as the first one left them. */
  lemma WithDefaultThresholdIdempotent(options: Options)
    ensures WithDefaultThreshold(WithDefaultThreshold(options)) == WithDefaultThreshold(options)
  {
  }

  /**
   The accept rule applied to a computed distance: neither a distance of 0
   (identical labels) nor the -1 of a distance beyond the bound is accepted,
   and nothing is accepted under a threshold below 1.
   */
  function Accepts(distance: int, threshold: int): (r: bool)
    ensures distance == 0 ==> !r
    ensures distance == -1 ==> !r
    ensures threshold < 1 ==> !r
    ensures r ==> 1 <= distance <= threshold
  {
    distance > 0 && distance <= threshold
  }

  /**
   Whether the detector reports the pair (s1, s2): `bound` is the threshold
   the bounded distance was built with, `threshold` the one read at the call.
   A pair is reported exactly when its true distance is positive and within
   both the construction-time bound and the current threshold.
   */
  function Reports(s1: Label, s2: Label, bound: nat, threshold: int): (r: bool)
    ensures r <==> 0 < Distance(s1, s2) && Distance(s1, s2) <= bound && Distance(s1, s2) <= threshold
  {
    Accepts(BoundedDistance(s1, s2, bound), threshold)
  }

  /** Identical labels are never reported, whatever the thresholds. */
  lemma IdenticalNeverReported(s: Label, bound: nat, threshold: int)
    ensures !Reports(s, s, bound, threshold)
  {
    DistanceToSelf(s);
  }

  /** A reported pair consists of two different labels. */
  lemma ReportedLabelsDiffer(s1: Label, s2: Label, bound: nat, threshold: int)
    requires Reports(s1, s2, bound, threshold)
    ensures s1 != s2
  {
    if s1 == s2 {
      DistanceToSelf(s1);
    }
  }

  /** With threshold 0 (or below) no pair is ever reported. */
  lemma ZeroThresholdReportsNothing(s1: Label, s2: Label, bound: nat, threshold: int)
    requires threshold <= 0
    ensures !Reports(s1, s2, bound, threshold)
  {
  }

  /**
   A pair further apart than the construction-time bound is never reported,
   however far the threshold option is raised afterwards.
   */
  lemma BeyondBoundNeverReported(s1: Label, s2: Label, bound: nat, threshold: int)
    requires Distance(s1, s2) > bound
    ensures !Reports(s1, s2, bound, threshold)
  {
  }

  /** The decision does not depend on the order of the two labels. */
  lemma ReportsSymmetric(s1: Label, s2: Label, bound: nat, threshold: int)
    ensures Reports(s1, s2, bound, threshold) <==> Reports(s2, s1, bound, threshold)
  {
    DistanceSymmetric(s1, s2);
  }

  /** Raising the threshold never withdraws a report. */
  lemma ReportsMonotoneInThreshold(s1: Label, s2: Label, bound: nat, t1: int, t2: int)
    requires t1 <= t2
    requires Reports(s1, s2, bound, t1)
    ensures Reports(s1, s2, bound, t2)
  {
  }

  /** The distorted-label detector, with its options and its result store. */
  class DistortedLabelLevenshtein {
    /** The plugin's options, updated in place by `GetOptions`. */
    var options: Options
    /** The threshold the bounded `levenshtein` field was built with. */
    const bound: nat
    /** The candidates reported so far (the inherited result store). */
    var results: seq<Candidate>

    /**
     Builds the detector from the options it inherits: the threshold
     default is added, and the bounded distance captures the threshold.
     */
    constructor (inherited: Options)
      requires WithDefaultThreshold(inherited)[ThresholdKey] >= 0
      ensures options == WithDefaultThreshold(inherited)
      ensures bound == options[ThresholdKey]
      ensures results == []
    {
      options := WithDefaultThreshold(inherited);
      bound := WithDefaultThreshold(inherited)[ThresholdKey];
      results := [];
    }

    /** Construction, failing as the bounded distance does on a negative threshold. */
    static method Create(inherited: Options) returns (r: Result<DistortedLabelLevenshtein, ConstructError>)
      ensures r.Failure? <==> WithDefaultThreshold(inherited)[ThresholdKey] < 0
      ensures r.Failure? ==> r.error == NegativeThreshold(WithDefaultThreshold(inherited)[ThresholdKey])
      ensures r.Success? ==> fresh(r.value) && r.value.options == WithDefaultThreshold(inherited)
                             && r.value.bound == WithDefaultThreshold(inherited)[ThresholdKey]
                             && r.value.results == []
    {
      var t := WithDefaultThreshold(inherited)[ThresholdKey];
      if t < 0 {
        r := Failure(NegativeThreshold(t));
      } else {
        var d := new DistortedLabelLevenshtein(inherited);
        r := Success(d);
      }
    }

    /** Adds the threshold default when absent and returns the options. */
    method GetOptions() returns (o: Options)
      modifies this`options
      ensures options == WithDefaultThreshold(old(options))
      ensures o == options
    {
      if ThresholdKey !in options {
        options := options[ThresholdKey := DefaultThreshold];
      }
      o := options;
    }

    /**
     Compares two labels of `column` and records the pair when it is reported
     under the current threshold; otherwise the results are left as they were.
     */
    method Detect(column: string, s1: Label, s2: Label)
      modifies this`options, this`results
      ensures options == WithDefaultThreshold(old(options))
      ensures Reports(s1, s2, bound, options[ThresholdKey]) ==>
                results == old(results) + [Candidate(column, s1, s2)]
      ensures !Reports(s1, s2, bound, options[ThresholdKey]) ==> results == old(results)
    {
      var current := GetOptions();
      var threshold := current[ThresholdKey];
      var distance := BoundedDistance(s1, s2, bound);
      if distance > 0 && distance <= threshold {
        results := results + [Candidate(column, s1, s2)];
      }
    }
  }
}
