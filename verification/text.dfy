/** ASCII text primitives used by the state-name canonicaliser: Python's
    str.lower, str.strip, str.isdigit, str.title, the `in` substring test,
    re.sub(r'\s+', ' ', ...) and code-point ordering of strings, restricted to
    the ASCII range. */
module Text {

  /** The ASCII characters for which Python's str.isspace() (and the regular
      expression class \s) hold: tab, line feed, vertical tab, form feed,
      carriage return, the separators 0x1C-0x1F, and space. */
  predicate IsSpace(c: char) {
    c == ' ' || ('\t' <= c <= '\r') || ('\U{1C}' <= c <= '\U{1F}')
  }

  predicate IsUpper(c: char) { 'A' <= c <= 'Z' }

  predicate IsLower(c: char) { 'a' <= c <= 'z' }

  /** ASCII letters are exactly the cased characters of the ASCII range. */
  predicate IsLetter(c: char) { IsUpper(c) || IsLower(c) }

  predicate IsDigit(c: char) { '0' <= c <= '9' }

  function ToLower(c: char): char {
    if IsUpper(c) then (c as int + 32) as char else c
  }

  function ToUpper(c: char): char {
    if IsLower(c) then (c as int - 32) as char else c
  }

  /** str.lower() */
  function Lower(s: string): string {
    seq(|s|, i requires 0 <= i < |s| => ToLower(s[i]))
  }

  /** Drops leading whitespace (str.lstrip()). */
  function TrimLeft(s: string): (r: string)
    ensures |r| <= |s| && r == s[|s| - |r|..]
    ensures |r| > 0 ==> !IsSpace(r[0])
    ensures forall i :: 0 <= i < |s| - |r| ==> IsSpace(s[i])
  {
    if |s| > 0 && IsSpace(s[0]) then TrimLeft(s[1..]) else s
  }

  /** Drops trailing whitespace (str.rstrip()). */
  function TrimRight(s: string): (r: string)
    ensures |r| <= |s| && r == s[..|r|]
    ensures |r| > 0 ==> !IsSpace(r[|r| - 1])
    ensures forall i :: |r| <= i < |s| ==> IsSpace(s[i])
  {
    if |s| > 0 && IsSpace(s[|s| - 1]) then TrimRight(s[..|s| - 1]) else s
  }

  /** str.strip() */
  function Strip(s: string): string {
    TrimRight(TrimLeft(s))
  }

  predicate AllSpace(s: string) {
    forall i :: 0 <= i < |s| ==> IsSpace(s[i])
  }

  predicate NoUpper(s: string) {
    forall i :: 0 <= i < |s| ==> !IsUpper(s[i])
  }

  /** Every whitespace character is a plain blank and no two are adjacent. */
  predicate SingleSpaced(s: string) {
    && (forall i :: 0 <= i < |s| && IsSpace(s[i]) ==> s[i] == ' ')
    && (forall i :: 0 < i < |s| ==> !(IsSpace(s[i - 1]) && IsSpace(s[i])))
  }

  /** No leading or trailing whitespace. */
  predicate Trimmed(s: string) {
    |s| > 0 ==> !IsSpace(s[0]) && !IsSpace(s[|s| - 1])
  }

  /** The shape of every normalised label: lower case, trimmed, single-spaced. */
  predicate IsNormal(s: string) {
    NoUpper(s) && SingleSpaced(s) && Trimmed(s)
  }

  /** re.sub(r'\s+', ' ', s): every maximal run of whitespace becomes one blank. */
  function CollapseSpaces(s: string): (r: string)
    ensures |r| <= |s|
    decreases |s|
  {
    if |s| == 0 then ""
    else if IsSpace(s[0]) then " " + CollapseSpaces(TrimLeft(s[1..]))
    else [s[0]] + CollapseSpaces(s[1..])
  }

  /** The normalisation step of clean_state_name: lower-case, strip, then
      collapse internal whitespace runs. */
  function Normalize(s: string): string {
    CollapseSpaces(Strip(Lower(s)))
  }

  /** str.isdigit(): non-empty and made of digits only. */
  predicate IsDigits(s: string) {
    |s| > 0 && forall i :: 0 <= i < |s| ==> IsDigit(s[i])
  }

  /** str.title(): a letter is upper-cased when it starts the text or follows
      a non-letter, and lower-cased when it follows a letter. */
  function Title(s: string): string {
    seq(|s|, i requires 0 <= i < |s| =>
      if i == 0 || !IsLetter(s[i - 1]) then ToUpper(s[i]) else ToLower(s[i]))
  }

  /** Python's `needle in hay` for strings. */
  predicate Contains(hay: string, needle: string) {
    exists i :: 0 <= i <= |hay| - |needle| && OccursAt(hay, needle, i)
  }

  predicate OccursAt(hay: string, needle: string, i: int) {
    0 <= i <= |hay| - |needle| && hay[i..i + |needle|] == needle
  }

  /** Python's `a < b` on strings: code-point lexicographic order. */
  predicate StrLess(a: string, b: string)
    decreases |a|
  {
    if |a| == 0 then |b| > 0
    else if |b| == 0 then false
    else if a[0] != b[0] then a[0] < b[0]
    else StrLess(a[1..], b[1..])
  }

  // ---------------------------------------------------------------------------
  // Normalisation

  lemma LowerShape(s: string)
    ensures NoUpper(Lower(s))
    ensures forall i :: 0 <= i < |s| ==> (IsSpace(Lower(s)[i]) <==> IsSpace(s[i]))
    ensures forall i :: 0 <= i < |s| && IsSpace(s[i]) ==> Lower(s)[i] == s[i]
  {
  }

  lemma StripShape(s: string)
    ensures Trimmed(Strip(s))
    ensures forall i :: 0 <= i < |Strip(s)| ==> Strip(s)[i] in s
  {
    var l := TrimLeft(s);
    var r := TrimRight(l);
    forall i | 0 <= i < |r| ensures r[i] in s {
      assert r[i] == l[i] == s[|s| - |l| + i];
    }
  }

  /** Collapsing keeps the input's non-whitespace characters and adds blanks only. */
  lemma {:induction false} CollapseChars(s: string)
    ensures forall i :: 0 <= i < |CollapseSpaces(s)| ==>
      CollapseSpaces(s)[i] == ' ' || (!IsSpace(CollapseSpaces(s)[i]) && CollapseSpaces(s)[i] in s)
    decreases |s|
  {
    if |s| > 0 {
      var rest := if IsSpace(s[0]) then TrimLeft(s[1..]) else s[1..];
      CollapseChars(rest);
      var c := CollapseSpaces(rest);
      var r := CollapseSpaces(s);
      var h := if IsSpace(s[0]) then ' ' else s[0];
      assert r == [h] + c;
      assert r[1..] == c;
      forall i | 1 <= i < |r| ensures r[i] == ' ' || (!IsSpace(r[i]) && r[i] in s) {
        assert r[i] == r[1..][i - 1];
        if c[i - 1] != ' ' {
          var j :| 0 <= j < |rest| && rest[j] == c[i - 1];
          assert rest[j] == s[|s| - |rest| + j];
        }
      }
    }
  }

  /** The collapsed text starts and ends like the input, with a blank for
      whitespace. */
  lemma {:induction false} CollapseEnds(s: string)
    ensures |s| > 0 ==> |CollapseSpaces(s)| > 0
    ensures |s| > 0 ==> CollapseSpaces(s)[0] == (if IsSpace(s[0]) then ' ' else s[0])
    ensures |s| > 0 ==>
      CollapseSpaces(s)[|CollapseSpaces(s)| - 1] == (if IsSpace(s[|s| - 1]) then ' ' else s[|s| - 1])
    decreases |s|
  {
    if |s| > 0 {
      var rest := if IsSpace(s[0]) then TrimLeft(s[1..]) else s[1..];
      CollapseEnds(rest);
      if |rest| > 0 {
        assert rest[|rest| - 1] == s[|s| - 1];
      } else if IsSpace(s[0]) && |s| > 1 {
        assert IsSpace(s[1..][|s| - 2]);
      }
    }
  }

  /** Collapsed text is single-spaced. */
  lemma {:induction false} CollapseSingle(s: string)
    ensures SingleSpaced(CollapseSpaces(s))
    decreases |s|
  {
    if |s| > 0 {
      var rest := if IsSpace(s[0]) then TrimLeft(s[1..]) else s[1..];
      CollapseSingle(rest);
      CollapseEnds(rest);
      var c := CollapseSpaces(rest);
      var r := CollapseSpaces(s);
      var h := if IsSpace(s[0]) then ' ' else s[0];
      assert r == [h] + c;
      forall i | 0 <= i < |r| && IsSpace(r[i]) ensures r[i] == ' ' {
        if i > 0 {
          assert r[i] == c[i - 1];
        }
      }
      forall i | 0 < i < |r| ensures !(IsSpace(r[i - 1]) && IsSpace(r[i])) {
        if i > 1 {
          assert r[i - 1] == c[i - 2] && r[i] == c[i - 1];
        }
      }
    }
  }

  /** Normalised text really is in normal form. */
  lemma NormalizeIsNormal(s: string)
    ensures IsNormal(Normalize(s))
  {
    var t := Strip(Lower(s));
    LowerShape(s);
    StripShape(Lower(s));
    var r := CollapseSpaces(t);
    CollapseChars(t);
    CollapseEnds(t);
    CollapseSingle(t);
    forall i | 0 <= i < |r| ensures !IsUpper(r[i]) {
      if r[i] != ' ' {
        var j :| 0 <= j < |t| && t[j] == r[i];
        var k :| 0 <= k < |s| && Lower(s)[k] == t[j];
      }
    }
  }

  lemma {:induction false} CollapseSingleSpaced(s: string)
    requires SingleSpaced(s)
    ensures CollapseSpaces(s) == s
    decreases |s|
  {
    if |s| > 0 {
      var rest := s[1..];
      SingleSpacedTail(s);
      CollapseSingleSpaced(rest);
      if IsSpace(s[0]) {
        assert |rest| > 0 ==> !IsSpace(rest[0]) by {
          if |rest| > 0 {
            assert rest[0] == s[1];
          }
        }
        assert TrimLeft(rest) == rest;
      }
    }
  }

  /** Helper: dropping the first character keeps text single-spaced. */
  lemma SingleSpacedTail(s: string)
    requires |s| > 0 && SingleSpaced(s)
    ensures SingleSpaced(s[1..])
  {
    var t := s[1..];
    forall i | 0 <= i < |t| ensures t[i] == s[i + 1] {
    }
  }

  /** Normal text is left unchanged by normalisation ... */
  lemma NormalIsFixed(s: string)
    requires IsNormal(s)
    ensures Normalize(s) == s
  {
    assert Lower(s) == s;
    assert TrimLeft(s) == s;
    assert TrimRight(s) == s;
    CollapseSingleSpaced(s);
  }

  /** ... so normalisation is exactly the identity on normal text, and
      normalising twice is normalising once. */
  lemma NormalFixedIff(s: string)
    ensures Normalize(s) == s <==> IsNormal(s)
    ensures Normalize(Normalize(s)) == Normalize(s)
  {
    NormalizeIsNormal(s);
    if IsNormal(s) {
      NormalIsFixed(s);
    }
    NormalIsFixed(Normalize(s));
  }

  /** Lower-casing changes no whitespace, so it keeps text tidy. */
  lemma LowerTidy(s: string)
    requires SingleSpaced(s) && Trimmed(s)
    ensures SingleSpaced(Lower(s)) && Trimmed(Lower(s))
  {
    var l := Lower(s);
    forall i | 0 <= i < |l| ensures IsSpace(l[i]) == IsSpace(s[i]) && (IsSpace(s[i]) ==> l[i] == s[i]) {
    }
  }

  /** Joining single-spaced texts keeps them single-spaced unless both sides
      of the seam are whitespace. */
  lemma SingleSpacedAppend(a: string, b: string)
    requires SingleSpaced(a) && SingleSpaced(b)
    requires |a| > 0 && |b| > 0 ==> !(IsSpace(a[|a| - 1]) && IsSpace(b[0]))
    ensures SingleSpaced(a + b)
  {
    var ab := a + b;
    forall i | 0 <= i < |ab| ensures ab[i] == if i < |a| then a[i] else b[i - |a|] {
    }
  }

  /** Trimmed, single-spaced text only has its case changed. */
  lemma NormalizeTidy(s: string)
    requires SingleSpaced(s) && Trimmed(s)
    ensures Normalize(s) == Lower(s)
  {
    var l := Lower(s);
    LowerTidy(s);
    assert TrimLeft(l) == l;
    assert TrimRight(l) == l;
    CollapseSingleSpaced(l);
  }

  lemma LowerAppend(a: string, b: string)
    ensures Lower(a + b) == Lower(a) + Lower(b)
  {
  }

  /** A word: non-empty text with no whitespace in it. */
  predicate IsWord(w: string) {
    |w| > 0 && forall i :: 0 <= i < |w| ==> !IsSpace(w[i])
  }

  /** s is non-empty, trimmed and single-spaced, and l is its lower-case form. */
  predicate TidyLower(s: string, l: string) {
    |s| > 0 && SingleSpaced(s) && Trimmed(s) && Lower(s) == l
  }

  lemma WordTidy(w: string, l: string)
    requires IsWord(w) && Lower(w) == l
    ensures TidyLower(w, l)
  {
  }

  /** A single word normalises to its lower-case form. */
  lemma WordNormal(w: string, l: string)
    requires IsWord(w) && Lower(w) == l
    ensures Normalize(w) == l
  {
    WordTidy(w, l);
    NormalizeTidy(w);
  }

  /** Two tidy texts joined by one blank are tidy, and lower-case piecewise. */
  lemma JoinTidy(a: string, la: string, b: string, lb: string, c: string, k: string)
    requires TidyLower(a, la) && TidyLower(b, lb)
    requires c == a + " " + b && k == la + " " + lb
    ensures TidyLower(c, k)
  {
    SingleSpacedAppend(a, " ");
    SingleSpacedAppend(a + " ", b);
    LowerAppend(a, " ");
    LowerAppend(a + " ", b);
  }

  lemma {:induction false} TrimLeftAppend(a: string, b: string)
    ensures AllSpace(a) ==> TrimLeft(a + b) == TrimLeft(b)
    ensures !AllSpace(a) ==> TrimLeft(a + b) == TrimLeft(a) + b
    decreases |a|
  {
    if |a| > 0 {
      assert (a + b)[1..] == a[1..] + b;
      TrimLeftAppend(a[1..], b);
      if !IsSpace(a[0]) {
        assert TrimLeft(a + b) == a + b;
      }
    } else {
      assert a + b == b;
    }
  }

  lemma {:induction false} TrimRightAppend(a: string, b: string)
    ensures AllSpace(b) ==> TrimRight(a + b) == TrimRight(a)
    ensures !AllSpace(b) ==> TrimRight(a + b) == a + TrimRight(b)
    decreases |b|
  {
    if |b| > 0 {
      assert (a + b)[..|a + b| - 1] == a + b[..|b| - 1];
      TrimRightAppend(a, b[..|b| - 1]);
      if !IsSpace(b[|b| - 1]) {
        assert TrimRight(a + b) == a + b;
      }
    } else {
      assert a + b == a;
    }
  }

  /** Lower-casing keeps whitespace-only text whitespace-only. */
  lemma LowerAllSpace(s: string)
    requires AllSpace(s)
    ensures AllSpace(Lower(s))
  {
  }

  /** Stripping ignores whitespace padding. */
  lemma StripPadding(w1: string, x: string, w2: string)
    requires AllSpace(w1) && AllSpace(w2)
    ensures Strip(w1 + x + w2) == Strip(x)
  {
    assert w1 + x + w2 == w1 + (x + w2);
    TrimLeftAppend(w1, x + w2);
    TrimLeftAppend(x, w2);
    if AllSpace(x) {
      assert AllSpace(x + w2);
      AllSpaceTrimsToEmpty(x + w2);
      AllSpaceTrimsToEmpty(x);
    } else {
      TrimRightAppend(TrimLeft(x), w2);
    }
  }

  /** Whitespace around the label does not change its normal form. */
  lemma NormalizePadding(w1: string, s: string, w2: string)
    requires AllSpace(w1) && AllSpace(w2)
    ensures Normalize(w1 + s + w2) == Normalize(s)
  {
    LowerAppend(w1, s);
    LowerAppend(w1 + s, w2);
    LowerAllSpace(w1);
    LowerAllSpace(w2);
    StripPadding(Lower(w1), Lower(s), Lower(w2));
  }

  lemma {:induction false} AllSpaceTrimsToEmpty(s: string)
    requires AllSpace(s)
    ensures TrimLeft(s) == ""
    decreases |s|
  {
    if |s| > 0 {
      AllSpaceTrimsToEmpty(s[1..]);
    }
  }

  /** A whitespace-only (or empty) label normalises to the empty text. */
  lemma NormalizeBlank(s: string)
    requires AllSpace(s)
    ensures Normalize(s) == ""
  {
    assert AllSpace(Lower(s));
    AllSpaceTrimsToEmpty(Lower(s));
  }

  /** A leading whitespace run collapses to one blank. */
  lemma CollapseLeadingRun(w: string, b: string)
    requires |w| > 0 && AllSpace(w)
    ensures CollapseSpaces(w + b) == " " + CollapseSpaces(TrimLeft(b))
  {
    var rest := w[1..] + b;
    assert (w + b)[0] == w[0] && (w + b)[1..] == rest;
    assert AllSpace(w[1..]);
    TrimLeftAppend(w[1..], b);
    assert TrimLeft(rest) == TrimLeft(b);
  }

  /** Collapsing treats any non-empty whitespace run like a single blank. */
  lemma {:induction false} CollapseRun(a: string, w: string, b: string)
    requires |w| > 0 && AllSpace(w)
    ensures CollapseSpaces(a + w + b) == CollapseSpaces(a + " " + b)
    decreases |a|
  {
    if |a| == 0 {
      assert a + w + b == w + b;
      assert a + " " + b == " " + b;
      CollapseLeadingRun(w, b);
      CollapseLeadingRun(" ", b);
    } else if !IsSpace(a[0]) {
      var a' := a[1..];
      var x, y := a + w + b, a + " " + b;
      assert x[0] == a[0] && x[1..] == a' + w + b;
      assert y[0] == a[0] && y[1..] == a' + " " + b;
      CollapseRun(a', w, b);
      assert CollapseSpaces(x) == [a[0]] + CollapseSpaces(a' + w + b);
      assert CollapseSpaces(y) == [a[0]] + CollapseSpaces(a' + " " + b);
    } else {
      CollapseSpacedRun(a, w, b);
    }
  }

  /** CollapseRun when the text before the run starts with whitespace. */
  lemma {:induction false} CollapseSpacedRun(a: string, w: string, b: string)
    requires |w| > 0 && AllSpace(w)
    requires |a| > 0 && IsSpace(a[0])
    ensures CollapseSpaces(a + w + b) == CollapseSpaces(a + " " + b)
    decreases |a|, 0
  {
    var a' := a[1..];
    var x, y := a + w + b, a + " " + b;
    assert x[0] == a[0] && x[1..] == a' + (w + b);
    assert y[0] == a[0] && y[1..] == a' + (" " + b);
    CollapseLeadingSpace(x);
    CollapseLeadingSpace(y);
    TrimAroundRun(a', w, b);
    if !AllSpace(a') {
      CollapseRun(TrimLeft(a'), w, b);
    }
  }

  /** Helper: trimming the text before a run either reaches the text after
      the run, or stops inside the text before it. */
  lemma TrimAroundRun(a: string, w: string, b: string)
    requires |w| > 0 && AllSpace(w)
    ensures AllSpace(a) ==> TrimLeft(a + (w + b)) == TrimLeft(a + (" " + b))
    ensures !AllSpace(a) ==>
      TrimLeft(a + (w + b)) == TrimLeft(a) + w + b && TrimLeft(a + (" " + b)) == TrimLeft(a) + " " + b
  {
    if AllSpace(a) {
      TrimBeforeRun(a, w, b);
      TrimBeforeRun(a, " ", b);
    } else {
      TrimBeforeText(a, w, b);
      TrimBeforeText(a, " ", b);
    }
  }

  /** Helper: a leading whitespace character becomes one blank, and the
      whitespace after it is skipped. */
  lemma CollapseLeadingSpace(s: string)
    requires |s| > 0 && IsSpace(s[0])
    ensures CollapseSpaces(s) == " " + CollapseSpaces(TrimLeft(s[1..]))
  {
  }

  lemma TrimBeforeText(a: string, w: string, b: string)
    requires !AllSpace(a)
    ensures TrimLeft(a + (w + b)) == TrimLeft(a) + w + b
  {
    TrimLeftAppend(a, w + b);
    assert TrimLeft(a) + (w + b) == TrimLeft(a) + w + b;
  }

  lemma TrimBeforeRun(a: string, w: string, b: string)
    requires AllSpace(a) && AllSpace(w)
    ensures TrimLeft(a + (w + b)) == TrimLeft(b)
  {
    TrimLeftAppend(a, w + b);
    TrimLeftAppend(w, b);
  }

  /** Stripping text that has non-whitespace on both sides of w keeps w. */
  lemma StripAround(x: string, w: string, y: string)
    requires !AllSpace(x) && !AllSpace(y)
    ensures Strip(x + w + y) == TrimLeft(x) + w + TrimRight(y)
  {
    assert x + w + y == x + (w + y);
    TrimBeforeText(x, w, y);
    TrimRightAppend(TrimLeft(x) + w, y);
  }

  /** Once stripped and collapsed, a whitespace run reads as one blank. */
  lemma StripCollapseRun(x: string, w: string, y: string)
    requires |w| > 0 && AllSpace(w)
    ensures CollapseSpaces(Strip(x + w + y)) == CollapseSpaces(Strip(x + " " + y))
  {
    if AllSpace(x) {
      assert AllSpace(x + w) && AllSpace(x + " ");
      assert x + w + y == (x + w) + y + "";
      assert x + " " + y == (x + " ") + y + "";
      StripPadding(x + w, y, "");
      StripPadding(x + " ", y, "");
    } else if AllSpace(y) {
      assert AllSpace(w + y) && AllSpace(" " + y);
      assert x + w + y == "" + x + (w + y);
      assert x + " " + y == "" + x + (" " + y);
      StripPadding("", x, w + y);
      StripPadding("", x, " " + y);
    } else {
      StripAround(x, w, y);
      StripAround(x, " ", y);
      CollapseRun(TrimLeft(x), w, TrimRight(y));
    }
  }

  /** A whitespace run inside the label normalises like a single blank. */
  lemma NormalizeRun(a: string, w: string, b: string)
    requires |w| > 0 && AllSpace(w)
    ensures Normalize(a + w + b) == Normalize(a + " " + b)
  {
    LowerAppend(a, w);
    LowerAppend(a + w, b);
    LowerAppend(a, " ");
    LowerAppend(a + " ", b);
    assert Lower(" ") == " ";
    LowerAllSpace(w);
    StripCollapseRun(Lower(a), Lower(w), Lower(b));
  }

  // ---------------------------------------------------------------------------
  // Substrings, digits, title case

  /** A needle holding a character the haystack lacks cannot occur in it. */
  lemma NotContainsByChar(hay: string, needle: string, c: char)
    requires c in needle && c !in hay
    ensures !Contains(hay, needle)
  {
    var j :| 0 <= j < |needle| && needle[j] == c;
    forall i | 0 <= i <= |hay| - |needle| ensures !OccursAt(hay, needle, i) {
      assert hay[i..i + |needle|][j] == hay[i + j];
    }
  }

  /** A needle longer than the haystack cannot occur in it. */
  lemma NotContainsLonger(hay: string, needle: string)
    requires |needle| > |hay|
    ensures !Contains(hay, needle)
  {
  }

  /** The empty text occurs in every text. */
  lemma ContainsEmpty(hay: string)
    ensures Contains(hay, "")
  {
    assert hay[0..0] == "";
    assert OccursAt(hay, "", 0);
  }

  /** Python's title() changes case only: lower-casing its result gives the
      lower-cased input back, and it keeps every non-letter in place. */
  lemma TitleKeepsText(s: string)
    ensures |Title(s)| == |s|
    ensures Lower(Title(s)) == Lower(s)
    ensures forall i :: 0 <= i < |s| && !IsLetter(s[i]) ==> Title(s)[i] == s[i]
  {
  }

  lemma CaseOfCase(c: char)
    ensures IsLetter(ToUpper(c)) == IsLetter(c) && IsLetter(ToLower(c)) == IsLetter(c)
    ensures ToUpper(ToUpper(c)) == ToUpper(c) && ToLower(ToLower(c)) == ToLower(c)
  {
  }

  /** title() is idempotent. */
  lemma TitleIdempotent(s: string)
    ensures Title(Title(s)) == Title(s)
  {
    var t := Title(s);
    var tt := Title(t);
    forall i | 0 <= i < |s| ensures IsLetter(t[i]) == IsLetter(s[i]) {
      CaseOfCase(s[i]);
    }
    forall i | 0 <= i < |s| ensures tt[i] == t[i] {
      CaseOfCase(s[i]);
    }
  }

  /** Texts that agree up to case have the same title form. */
  lemma TitleSameLower(x: string, y: string)
    requires Lower(x) == Lower(y)
    ensures Title(x) == Title(y)
  {
    assert |x| == |Lower(x)| == |y|;
    forall i | 0 <= i < |x| ensures IsLetter(x[i]) == IsLetter(y[i]) && ToUpper(x[i]) == ToUpper(y[i])
      && ToLower(x[i]) == ToLower(y[i])
    {
      assert Lower(x)[i] == Lower(y)[i];
    }
  }

  lemma {:induction false} TrimLeftSameLower(x: string, y: string)
    requires Lower(x) == Lower(y)
    ensures Lower(TrimLeft(x)) == Lower(TrimLeft(y))
    decreases |x|
  {
    assert |x| == |Lower(x)| == |y|;
    if |x| > 0 {
      assert Lower(x)[0] == Lower(y)[0];
      assert IsSpace(x[0]) == IsSpace(y[0]);
      if IsSpace(x[0]) {
        assert Lower(x[1..]) == Lower(x)[1..];
        assert Lower(y[1..]) == Lower(y)[1..];
        TrimLeftSameLower(x[1..], y[1..]);
      }
    }
  }

  lemma {:induction false} TrimRightSameLower(x: string, y: string)
    requires Lower(x) == Lower(y)
    ensures Lower(TrimRight(x)) == Lower(TrimRight(y))
    decreases |x|
  {
    assert |x| == |Lower(x)| == |y|;
    if |x| > 0 {
      var n := |x| - 1;
      assert Lower(x)[n] == Lower(y)[n];
      assert IsSpace(x[n]) == IsSpace(y[n]);
      if IsSpace(x[n]) {
        assert Lower(x[..n]) == Lower(x)[..n];
        assert Lower(y[..n]) == Lower(y)[..n];
        TrimRightSameLower(x[..n], y[..n]);
      }
    }
  }

  /** Texts that agree up to case strip to texts that agree up to case. */
  lemma StripSameLower(x: string, y: string)
    requires Lower(x) == Lower(y)
    ensures Lower(Strip(x)) == Lower(Strip(y))
  {
    TrimLeftSameLower(x, y);
    TrimRightSameLower(TrimLeft(x), TrimLeft(y));
  }

  // ---------------------------------------------------------------------------
  // String order

  lemma {:induction false} StrLessIrreflexive(a: string)
    ensures !StrLess(a, a)
    decreases |a|
  {
    if |a| > 0 {
      StrLessIrreflexive(a[1..]);
    }
  }

  lemma {:induction false} StrLessTransitive(a: string, b: string, c: string)
    requires StrLess(a, b) && StrLess(b, c)
    ensures StrLess(a, c)
    decreases |a|
  {
    if |a| > 0 && |b| > 0 && |c| > 0 && a[0] == b[0] && b[0] == c[0] {
      StrLessTransitive(a[1..], b[1..], c[1..]);
    }
  }

  lemma {:induction false} StrLessTotal(a: string, b: string)
    requires a != b
    ensures StrLess(a, b) || StrLess(b, a)
    decreases |a|
  {
    if |a| > 0 && |b| > 0 && a[0] == b[0] {
      assert a == [a[0]] + a[1..] && b == [b[0]] + b[1..];
      StrLessTotal(a[1..], b[1..]);
    }
  }
}
