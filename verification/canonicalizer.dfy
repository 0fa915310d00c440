/** clean_state_name: maps a raw state label to one of the 36 canonical state
    and union-territory names, to "Unknown", or, when nothing matches, to the
    label's own title-case form. */
module Canonicalizer {
  import opened Common
  import opened Text
  import opened Assoc
  import opened StateTables

  // ---------------------------------------------------------------------------
  // Facts about the two tables

  /** Every key starts with a letter, so no key is empty or all digits. */
  predicate LetterKeys(t: Table) {
    forall i :: 0 <= i < |t| ==> |t[i].0| > 0 && IsLetter(t[i].0[0])
  }

  /** Every value is one of the canonical names. */
  predicate CanonicalValues(t: Table) {
    forall i :: 0 <= i < |t| ==> t[i].1 in CanonicalStates
  }

  lemma LetterKeysAppend(a: Table, b: Table)
    requires LetterKeys(a) && LetterKeys(b)
    ensures LetterKeys(a + b)
  {
    forall i | 0 <= i < |a + b| ensures |(a + b)[i].0| > 0 && IsLetter((a + b)[i].0[0]) {
      if i >= |a| { assert (a + b)[i] == b[i - |a|]; }
    }
  }

  lemma CanonicalValuesAppend(a: Table, b: Table)
    requires CanonicalValues(a) && CanonicalValues(b)
    ensures CanonicalValues(a + b)
  {
    forall i | 0 <= i < |a + b| ensures (a + b)[i].1 in CanonicalStates {
      if i >= |a| { assert (a + b)[i] == b[i - |a|]; }
    }
  }

  lemma MappingAToDShape()
    ensures LetterKeys(MappingAToD) && CanonicalValues(MappingAToD)
  {
  }

  lemma MappingGToNShape()
    ensures LetterKeys(MappingGToN) && CanonicalValues(MappingGToN)
  {
  }

  lemma MappingOToWShape()
    ensures LetterKeys(MappingOToW) && CanonicalValues(MappingOToW)
  {
  }

  /** Both tables have letter-initial keys and canonical values. STATE_MAPPING
      holds 90 entries: the literal's 91 with the repeated key kept once. */
  lemma TablesShape()
    ensures |StateMapping| == 90 && |CityToState| == 10
    ensures LetterKeys(StateMapping) && CanonicalValues(StateMapping)
    ensures LetterKeys(CityToState) && CanonicalValues(CityToState)
  {
    MappingAToDShape();
    MappingGToNShape();
    MappingOToWShape();
    LetterKeysAppend(MappingAToD, MappingGToN);
    LetterKeysAppend(MappingAToD + MappingGToN, MappingOToW);
    CanonicalValuesAppend(MappingAToD, MappingGToN);
    CanonicalValuesAppend(MappingAToD + MappingGToN, MappingOToW);
  }

  /** A label made of digits, or the empty label, is no key of a table whose
      keys start with a letter. */
  lemma NoLetterNoKey(t: Table, n: string)
    requires LetterKeys(t)
    requires |n| == 0 || IsDigit(n[0])
    ensures Lookup(t, n) == None
  {
    forall i | 0 <= i < |t| ensures t[i].0 != n {
      assert IsLetter(t[i].0[0]);
    }
  }

  /** An all-digit label is a key of neither table. */
  lemma DigitsAreNoKeys(n: string)
    ensures IsDigits(n) ==> Lookup(StateMapping, n) == None && Lookup(CityToState, n) == None
  {
    if IsDigits(n) {
      TablesShape();
      NoLetterNoKey(StateMapping, n);
      NoLetterNoKey(CityToState, n);
    }
  }

  // ---------------------------------------------------------------------------
  // The cleaner

  /** The steps of clean_state_name after normalisation, in order: exact
      STATE_MAPPING key, exact CITY_TO_STATE key, all-digit label, then the
      first STATE_MAPPING entry whose key contains or is contained in the
      label. None when all of them miss. */
  function Resolve(n: string): (r: Option<string>)
    ensures r.Some? ==> r.value == Unknown || r.value in CanonicalStates
    ensures IsDigits(n) ==> r == Some(Unknown)
    ensures r.None? <==>
      !HasKey(StateMapping, n) && !HasKey(CityToState, n) && !IsDigits(n) && !HasRelated(StateMapping, n)
  {
    TablesShape();
    DigitsAreNoKeys(n);
    var alias := Lookup(StateMapping, n);
    if alias.Some? then alias
    else
      var city := Lookup(CityToState, n);
      if city.Some? then city
      else if IsDigits(n) then Some(Unknown)
      else FirstRelated(StateMapping, n)
  }

  /** clean_state_name: a missing label is "Unknown"; otherwise the normalised
      label is resolved, and an unresolved label is returned stripped and in
      title case. */
  function CleanStateName(state: Option<string>): (r: string)
    ensures state.None? ==> r == Unknown
    ensures r == Unknown || r in CanonicalStates || (state.Some? && r == Title(Strip(state.value)))
  {
    match state
    case None => Unknown
    case Some(s) =>
      var resolved := Resolve(Normalize(s));
      if resolved.Some? then resolved.value else Title(Strip(s))
  }

  // ---------------------------------------------------------------------------
  // Properties

  /** A label that normalises to digits only is "Unknown". */
  lemma CleanDigits(s: string)
    requires IsDigits(Normalize(s))
    ensures CleanStateName(Some(s)) == Unknown
  {
  }

  /** An exact STATE_MAPPING key wins over every later step. */
  lemma CleanAlias(s: string, i: int)
    requires FirstKeyAt(StateMapping, Normalize(s), i)
    ensures CleanStateName(Some(s)) == StateMapping[i].1
  {
    LookupAt(StateMapping, Normalize(s), i);
  }

  /** CITY_TO_STATE is consulted only when the label is no STATE_MAPPING key. */
  lemma CleanCity(s: string, i: int)
    requires !HasKey(StateMapping, Normalize(s))
    requires FirstKeyAt(CityToState, Normalize(s), i)
    ensures CleanStateName(Some(s)) == CityToState[i].1
  {
    LookupAt(CityToState, Normalize(s), i);
  }

  /** When no exact key matches and the label is not all digits, the first
      STATE_MAPPING entry in table order whose key contains the label or is
      contained in it decides. */
  lemma CleanFallback(s: string, i: int)
    requires !HasKey(StateMapping, Normalize(s)) && !HasKey(CityToState, Normalize(s))
    requires !IsDigits(Normalize(s))
    requires FirstRelatedAt(StateMapping, Normalize(s), i)
    ensures CleanStateName(Some(s)) == StateMapping[i].1
  {
    FirstRelatedAtIndex(StateMapping, Normalize(s), i);
  }

  /** A label nothing matches comes back stripped and in title case. */
  lemma CleanUnmatched(s: string)
    requires !HasKey(StateMapping, Normalize(s)) && !HasKey(CityToState, Normalize(s))
    requires !IsDigits(Normalize(s)) && !HasRelated(StateMapping, Normalize(s))
    ensures CleanStateName(Some(s)) == Title(Strip(s))
  {
  }

  /** Case never matters: labels that agree up to case clean alike, also on
      the title-case path. */
  lemma CleanIgnoresCase(s1: string, s2: string)
    requires Lower(s1) == Lower(s2)
    ensures CleanStateName(Some(s1)) == CleanStateName(Some(s2))
  {
    StripSameLower(s1, s2);
    TitleSameLower(Strip(s1), Strip(s2));
  }

  /** Leading and trailing whitespace never matters. */
  lemma CleanIgnoresPadding(w1: string, s: string, w2: string)
    requires AllSpace(w1) && AllSpace(w2)
    ensures CleanStateName(Some(w1 + s + w2)) == CleanStateName(Some(s))
  {
    NormalizePadding(w1, s, w2);
    StripPadding(w1, s, w2);
  }

  /** An internal whitespace run reads as one blank whenever the label is
      resolved by a table or the digit check. (On the title-case path the
      run is kept as written.) */
  lemma CleanIgnoresRuns(a: string, w: string, b: string)
    requires |w| > 0 && AllSpace(w)
    requires Resolve(Normalize(a + " " + b)).Some?
    ensures CleanStateName(Some(a + w + b)) == CleanStateName(Some(a + " " + b))
  {
    NormalizeRun(a, w, b);
  }

  /** A blank or whitespace-only label is not "Unknown": the empty normal
      form occurs in every key, so the first entry's value is returned. */
  lemma CleanBlank(s: string)
    requires AllSpace(s)
    ensures CleanStateName(Some(s)) == "Andaman & Nicobar Islands"
  {
    NormalizeBlank(s);
    TablesShape();
    NoLetterNoKey(StateMapping, "");
    NoLetterNoKey(CityToState, "");
    assert StateMapping[0].0 == "andaman & nicobar islands";
    ContainsEmpty(StateMapping[0].0);
    CleanFallback(s, 0);
  }

  /** Exact matching sees only normal forms, so a key that is not in normal
      form ('west  bengal', with two blanks) can never be matched exactly. */
  lemma NonNormalKeyUnreachable(s: string)
    ensures Normalize(s) != "west  bengal"
  {
    NormalizeIsNormal(s);
    var w := "west  bengal";
    assert IsSpace(w[4]) && IsSpace(w[5]);
  }
}
