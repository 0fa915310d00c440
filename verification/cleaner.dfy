/** clean_dataframe: canonicalise the state column, drop the rows whose state
    is "Unknown", drop exact duplicate rows keeping the first, then fill the
    missing values of every numeric column except the pincode with 0. */
module Cleaner {
  import opened Common
  import opened Text
  import opened StateTables
  import opened Canonicalizer
  import opened Sequences
  import opened CanonicalFacts

  /** One row of a dataset. `labels` are the remaining text columns (date,
      district); `measures` are the numeric columns other than the pincode
      (the age-band counts). A missing cell is None. */
  datatype Record = Record(
    state: Option<string>,
    labels: seq<Option<string>>,
    pincode: Option<int>,
    measures: seq<Option<int>>)

  /** What the cleaner reports alongside the cleaned rows. */
  datatype Cleaned = Cleaned(
    rows: seq<Record>,
    originalRows: nat,
    unknownRows: nat,
    duplicateRows: nat)

  predicate IsUnknown(r: Record) {
    r.state == Some(Unknown)
  }

  predicate IsKnown(r: Record) {
    !IsUnknown(r)
  }

  /** df['state'].apply(clean_state_name): every other column is untouched. */
  function CleanStates(rows: seq<Record>): (r: seq<Record>)
    ensures |r| == |rows|
    ensures forall i :: 0 <= i < |r| ==> r[i].state.Some?
    ensures forall i :: 0 <= i < |r| ==>
      r[i].labels == rows[i].labels && r[i].pincode == rows[i].pincode && r[i].measures == rows[i].measures
    ensures forall i :: 0 <= i < |r| ==>
      var c := r[i].state.value;
      c == Unknown || c in CanonicalStates || (rows[i].state.Some? && c == Title(Strip(rows[i].state.value)))
  {
    seq(|rows|, i requires 0 <= i < |rows| => rows[i].(state := Some(CleanStateName(rows[i].state))))
  }

  /** df[df['state'] != 'Unknown'], applied only when some row is Unknown. */
  function DropUnknown(rows: seq<Record>): (r: seq<Record>)
    ensures Subseq(r, rows)
    ensures forall i :: 0 <= i < |r| ==> !IsUnknown(r[i])
    ensures forall i :: 0 <= i < |rows| && !IsUnknown(rows[i]) ==> rows[i] in r
    ensures |r| + Count(rows, IsUnknown) == |rows|
  {
    if Count(rows, IsUnknown) > 0 then
      FilterSubseq(rows, IsKnown);
      FilterCount(rows, IsKnown, IsUnknown);
      Filter(rows, IsKnown)
    else
      SubseqRefl(rows);
      CountZero(rows, IsUnknown);
      rows
  }

  /** fillna(0) on every numeric column except the pincode. */
  function FillRow(r: Record): (f: Record)
    ensures f.state == r.state && f.labels == r.labels && f.pincode == r.pincode
    ensures |f.measures| == |r.measures|
    ensures forall k :: 0 <= k < |f.measures| ==>
      f.measures[k] == (if r.measures[k].Some? then r.measures[k] else Some(0))
  {
    r.(measures := seq(|r.measures|, k requires 0 <= k < |r.measures| =>
      if r.measures[k].Some? then r.measures[k] else Some(0)))
  }

  predicate Filled(r: Record) {
    forall k :: 0 <= k < |r.measures| ==> r.measures[k].Some?
  }

  function FillMissing(rows: seq<Record>): (r: seq<Record>)
    ensures |r| == |rows|
    ensures forall i :: 0 <= i < |r| ==> r[i] == FillRow(rows[i]) && Filled(r[i])
  {
    seq(|rows|, i requires 0 <= i < |rows| => FillRow(rows[i]))
  }

  /** The rows that survive cleaning, before the numeric fill. */
  function Survivors(rows: seq<Record>): (s: seq<Record>)
    ensures Subseq(s, CleanStates(rows)) && NoDuplicates(s)
    ensures forall i :: 0 <= i < |s| ==> !IsUnknown(s[i])
  {
    var known := DropUnknown(CleanStates(rows));
    FirstOccurrencesSubseq(known);
    SubseqTransitive(FirstOccurrences(known), known, CleanStates(rows));
    FirstOccurrencesNoDuplicates(known);
    FirstOccurrences(known)
  }

  /** clean_dataframe, with the three counts it reports. */
  function CleanFrame(rows: seq<Record>): (r: Cleaned)
    ensures r.originalRows == |rows|
    ensures r.originalRows == r.unknownRows + r.duplicateRows + |r.rows|
    ensures forall i :: 0 <= i < |r.rows| ==> r.rows[i].state.Some? && r.rows[i].state.value != Unknown
    ensures forall i :: 0 <= i < |r.rows| ==> Filled(r.rows[i])
    ensures r.rows == FillMissing(Survivors(rows))
  {
    var cleaned := CleanStates(rows);
    var unknown := Count(cleaned, IsUnknown);
    var known := DropUnknown(cleaned);
    var distinct := FirstOccurrences(known);
    Cleaned(FillMissing(distinct), |rows|, unknown, |known| - |distinct|)
  }

  // ---------------------------------------------------------------------------
  // Properties

  /** The unknown count is the number of rows whose label cleans to "Unknown". */
  lemma UnknownCount(rows: seq<Record>)
    ensures CleanFrame(rows).unknownRows == Count(rows, CleansToUnknown)
  {
    UnknownCleaned(rows);
  }

  predicate CleansToUnknown(r: Record) {
    CleanStateName(r.state) == Unknown
  }

  /** Helper for UnknownCount: counting after cleaning is counting the rows
      that clean to "Unknown". */
  lemma {:induction false} UnknownCleaned(rows: seq<Record>)
    ensures Count(CleanStates(rows), IsUnknown) == Count(rows, CleansToUnknown)
    decreases |rows|
  {
    if |rows| > 0 {
      var init := rows[..|rows| - 1];
      UnknownCleaned(init);
      assert CleanStates(rows)[..|rows| - 1] == CleanStates(init);
    }
  }

  /** Every row whose label is recognised reaches the output, filled. */
  lemma KnownRowsKept(rows: seq<Record>, i: int)
    requires 0 <= i < |rows| && CleanStateName(rows[i].state) != Unknown
    ensures FillRow(rows[i].(state := Some(CleanStateName(rows[i].state)))) in CleanFrame(rows).rows
  {
    var cleaned := CleanStates(rows);
    var known := DropUnknown(cleaned);
    assert cleaned[i] == rows[i].(state := Some(CleanStateName(rows[i].state)));
    assert cleaned[i] in known;
    var j :| 0 <= j < |known| && known[j] == cleaned[i];
    var distinct := FirstOccurrences(known);
    assert cleaned[i] in distinct;
    var k :| 0 <= k < |distinct| && distinct[k] == cleaned[i];
    assert CleanFrame(rows).rows[k] == FillRow(cleaned[i]);
  }

  /** Duplicates are reported exactly when the recognised rows repeat. */
  lemma DuplicatesReported(rows: seq<Record>)
    ensures CleanFrame(rows).duplicateRows == 0 <==> NoDuplicates(DropUnknown(CleanStates(rows)))
  {
    FirstOccurrencesKeepsAll(DropUnknown(CleanStates(rows)));
  }

  /** Rows already carrying canonical labels keep them. */
  lemma CleanStatesOfCanonical(rows: seq<Record>)
    requires forall i :: 0 <= i < |rows| ==> rows[i].state.Some? && rows[i].state.value in CanonicalStates
    ensures CleanStates(rows) == rows
  {
    CanonicalNamesFixed();
    var cleaned := CleanStates(rows);
    forall i | 0 <= i < |rows| ensures cleaned[i] == rows[i] {
      assert CleanStateName(rows[i].state) == rows[i].state.value;
    }
  }

  /** Cleaning a cleaned frame changes nothing when every label is canonical. */
  lemma CleanFrameOfCanonical(rows: seq<Record>)
    requires forall i :: 0 <= i < |rows| ==> rows[i].state.Some? && rows[i].state.value in CanonicalStates
    requires NoDuplicates(rows) && forall i :: 0 <= i < |rows| ==> Filled(rows[i])
    ensures CleanFrame(rows).rows == rows
    ensures CleanFrame(rows).unknownRows == 0 && CleanFrame(rows).duplicateRows == 0
  {
    CleanStatesOfCanonical(rows);
    UnknownAbsent(rows);
    CountZero(rows, IsUnknown);
    assert DropUnknown(rows) == rows;
    FirstOccurrencesOfDistinct(rows);
    forall i | 0 <= i < |rows| ensures FillRow(rows[i]) == rows[i] {
      FilledFixed(rows[i]);
    }
  }

  /** Helper for CleanFrameOfCanonical: "Unknown" is not a canonical name. */
  lemma {:induction false} UnknownAbsent(rows: seq<Record>)
    requires forall i :: 0 <= i < |rows| ==> rows[i].state.Some? && rows[i].state.value in CanonicalStates
    ensures Count(rows, IsUnknown) == 0
    decreases |rows|
  {
    if |rows| > 0 {
      UnknownAbsent(rows[..|rows| - 1]);
      UnknownNotCanonical();
    }
  }

  /** A row with no missing numeric cell is left alone by the fill. */
  lemma FilledFixed(r: Record)
    requires Filled(r)
    ensures FillRow(r) == r
  {
    assert FillRow(r).measures == r.measures;
  }

  /** When no label changes, no row is unknown and no row repeats, cleaning
      only fills the missing counts. */
  lemma CleanFrameSettled(rows: seq<Record>)
    requires CleanStates(rows) == rows
    requires DropUnknown(rows) == rows
    requires FirstOccurrences(rows) == rows
    ensures CleanFrame(rows).rows == FillMissing(rows)
    ensures CleanFrame(rows).duplicateRows == 0
  {
  }

  /** The fill runs after the duplicate check, so two rows that differ only
      in a missing count versus a zero count both survive and are identical
      in the output. */
  lemma FillAfterDedup(a: Record, b: Record)
    requires a.state.Some? && a.state.value in CanonicalStates
    requires a.measures == [None] && b == a.(measures := [Some(0)])
    ensures CleanFrame([a, b]).rows == [b, b]
    ensures CleanFrame([a, b]).duplicateRows == 0
  {
    PairSettled(a, b);
    CleanFrameSettled([a, b]);
    FillZero(a, b);
    FilledFixed(b);
  }

  /** Helper for FillAfterDedup: the missing count is filled with 0. */
  lemma FillZero(a: Record, b: Record)
    requires a.measures == [None] && b == a.(measures := [Some(0)])
    ensures FillRow(a) == b
  {
    assert FillRow(a).measures == b.measures;
  }

  /** Helper for FillAfterDedup: neither cleaning step touches the pair. */
  lemma PairSettled(a: Record, b: Record)
    requires a.state.Some? && a.state.value in CanonicalStates
    requires a.measures == [None] && b == a.(measures := [Some(0)])
    ensures CleanStates([a, b]) == [a, b]
    ensures DropUnknown([a, b]) == [a, b]
    ensures FirstOccurrences([a, b]) == [a, b]
  {
    PairCanonical(a, b);
    PairKnown(a, b);
    PairDistinct(a, b);
  }

  /** Helper for PairSettled: the labels are kept. */
  lemma PairCanonical(a: Record, b: Record)
    requires a.state.Some? && a.state.value in CanonicalStates && b.state == a.state
    ensures CleanStates([a, b]) == [a, b]
  {
    CleanStatesOfCanonical([a, b]);
  }

  /** Helper for PairSettled: neither row is unknown. */
  lemma PairKnown(a: Record, b: Record)
    requires a.state.Some? && a.state.value in CanonicalStates && b.state == a.state
    ensures DropUnknown([a, b]) == [a, b]
  {
    UnknownAbsent([a, b]);
  }

  /** Helper for PairSettled: the two rows differ. */
  lemma PairDistinct(a: Record, b: Record)
    requires a.measures == [None] && b == a.(measures := [Some(0)])
    ensures FirstOccurrences([a, b]) == [a, b]
  {
    assert [a, b][0] != [a, b][1];
    FirstOccurrencesOfDistinct([a, b]);
  }
}
