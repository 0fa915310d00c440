/** Ordered string-to-string tables: a Python dict literal read in insertion
    order, with exact lookup (`k in d`, then `d[k]`) and the first-entry search
    of a `for key, value in d.items()` loop that returns on the first hit.

    Both searches are defined by the index of the first entry that qualifies;
    the recursive scans `LookupScan` and `FirstRelatedScan` are the loop-shaped
    reference definitions they are proved equal to. */
module Assoc {
  import opened Common
  import opened Text

  /** Entries in insertion order; a dict literal keeps the first position of a
      repeated key. */
  type Table = seq<(string, string)>

  // ---------------------------------------------------------------------------
  // Exact lookup

  /** Entry i is the first entry whose key is k. */
  predicate FirstKeyAt(t: Table, k: string, i: int) {
    0 <= i < |t| && t[i].0 == k && forall j :: 0 <= j < i ==> t[j].0 != k
  }

  /** Some entry carries key k. */
  predicate HasKey(t: Table, k: string) {
    exists i :: 0 <= i < |t| && t[i].0 == k
  }

  /** A key that occurs somewhere has a first occurrence. */
  lemma {:induction false} FirstKeyExists(t: Table, k: string)
    ensures HasKey(t, k) ==> exists i :: FirstKeyAt(t, k, i)
    decreases |t|
  {
    if HasKey(t, k) && t[0].0 != k {
      var i :| 0 <= i < |t| && t[i].0 == k;
      assert t[1..][i - 1] == t[i];
      FirstKeyExists(t[1..], k);
      var j :| FirstKeyAt(t[1..], k, j);
      assert FirstKeyAt(t, k, j + 1) by {
        forall m | 0 <= m < j + 1 ensures t[m].0 != k {
          if m > 0 { assert t[m] == t[1..][m - 1]; }
        }
      }
    } else if HasKey(t, k) {
      assert FirstKeyAt(t, k, 0);
    }
  }

  /** `d[k] if k in d else None`: the value of the first entry with key k. */
  function Lookup(t: Table, k: string): (r: Option<string>)
    ensures r.Some? <==> HasKey(t, k)
    ensures r.Some? ==> (k, r.value) in t
  {
    FirstKeyExists(t, k);
    if exists i :: 0 <= i < |t| && FirstKeyAt(t, k, i) then
      var i :| 0 <= i < |t| && FirstKeyAt(t, k, i);
      assert t[i] == (k, t[i].1);
      Some(t[i].1)
    else None
  }

  /** The first entry carrying the key decides the lookup. */
  lemma LookupAt(t: Table, k: string, i: int)
    requires FirstKeyAt(t, k, i)
    ensures Lookup(t, k) == Some(t[i].1)
  {
  }

  /** A key no entry carries is not found. */
  lemma LookupMiss(t: Table, k: string)
    requires forall i :: 0 <= i < |t| ==> t[i].0 != k
    ensures Lookup(t, k) == None
  {
  }

  /** Reference definition: scan the entries front to back. */
  function LookupScan(t: Table, k: string): Option<string>
    decreases |t|
  {
    if |t| == 0 then None
    else if t[0].0 == k then Some(t[0].1)
    else LookupScan(t[1..], k)
  }

  lemma {:induction false} LookupIsScan(t: Table, k: string)
    ensures Lookup(t, k) == LookupScan(t, k)
    decreases |t|
  {
    if |t| > 0 {
      if t[0].0 == k {
        LookupAt(t, k, 0);
      } else {
        LookupIsScan(t[1..], k);
        var u := t[1..];
        if HasKey(u, k) {
          FirstKeyExists(u, k);
          var j :| FirstKeyAt(u, k, j);
          assert FirstKeyAt(t, k, j + 1) by {
            forall m | 0 <= m < j + 1 ensures t[m].0 != k {
              if m > 0 { assert t[m] == u[m - 1]; }
            }
          }
          LookupAt(u, k, j);
          LookupAt(t, k, j + 1);
        } else {
          forall m | 0 <= m < |t| ensures t[m].0 != k {
            if m > 0 { assert t[m] == u[m - 1]; }
          }
        }
      }
    }
  }

  /** Looking up in a concatenation tries the front table first. */
  lemma LookupAppend(a: Table, b: Table, k: string)
    ensures Lookup(a + b, k) == if Lookup(a, k).Some? then Lookup(a, k) else Lookup(b, k)
  {
    var ab := a + b;
    FirstKeyExists(a, k);
    FirstKeyExists(b, k);
    if HasKey(a, k) {
      var i :| FirstKeyAt(a, k, i);
      assert ab[i] == a[i];
      assert FirstKeyAt(ab, k, i);
      LookupAt(ab, k, i);
      LookupAt(a, k, i);
    } else if HasKey(b, k) {
      var i :| FirstKeyAt(b, k, i);
      assert ab[|a| + i] == b[i];
      forall j | 0 <= j < |a| + i ensures ab[j].0 != k {
        if j >= |a| { assert ab[j] == b[j - |a|]; }
      }
      LookupAt(ab, k, |a| + i);
      LookupAt(b, k, i);
    } else {
      forall j | 0 <= j < |ab| ensures ab[j].0 != k {
        if j >= |a| { assert ab[j] == b[j - |a|]; }
      }
    }
  }

  // ---------------------------------------------------------------------------
  // First related entry

  /** The substring test of the fallback loop: `key in s or s in key`. */
  predicate Related(key: string, s: string) {
    Contains(s, key) || Contains(key, s)
  }

  /** Entry i is the first entry whose key is related to s. */
  predicate FirstRelatedAt(t: Table, s: string, i: int) {
    0 <= i < |t| && Related(t[i].0, s) && forall j :: 0 <= j < i ==> !Related(t[j].0, s)
  }

  /** Some entry's key is related to s. */
  predicate HasRelated(t: Table, s: string) {
    exists i :: 0 <= i < |t| && Related(t[i].0, s)
  }

  lemma {:induction false} FirstRelatedExists(t: Table, s: string)
    ensures HasRelated(t, s) ==> exists i :: FirstRelatedAt(t, s, i)
    decreases |t|
  {
    if HasRelated(t, s) && !Related(t[0].0, s) {
      var i :| 0 <= i < |t| && Related(t[i].0, s);
      assert t[1..][i - 1] == t[i];
      FirstRelatedExists(t[1..], s);
      var j :| FirstRelatedAt(t[1..], s, j);
      assert FirstRelatedAt(t, s, j + 1) by {
        forall m | 0 <= m < j + 1 ensures !Related(t[m].0, s) {
          if m > 0 { assert t[m] == t[1..][m - 1]; }
        }
      }
    } else if HasRelated(t, s) {
      assert FirstRelatedAt(t, s, 0);
    }
  }

  /** The value of the first entry whose key is related to s, if any. */
  function FirstRelated(t: Table, s: string): (r: Option<string>)
    ensures r.Some? <==> HasRelated(t, s)
    ensures r.Some? ==> exists i :: 0 <= i < |t| && Related(t[i].0, s) && t[i].1 == r.value
  {
    FirstRelatedExists(t, s);
    if exists i :: 0 <= i < |t| && FirstRelatedAt(t, s, i) then
      var i :| 0 <= i < |t| && FirstRelatedAt(t, s, i);
      Some(t[i].1)
    else None
  }

  /** The first related entry decides the search. */
  lemma FirstRelatedAtIndex(t: Table, s: string, i: int)
    requires FirstRelatedAt(t, s, i)
    ensures FirstRelated(t, s) == Some(t[i].1)
  {
  }

  /** Reference definition: the `for key, value in d.items()` loop. */
  function FirstRelatedScan(t: Table, s: string): Option<string>
    decreases |t|
  {
    if |t| == 0 then None
    else if Related(t[0].0, s) then Some(t[0].1)
    else FirstRelatedScan(t[1..], s)
  }

  lemma {:induction false} FirstRelatedIsScan(t: Table, s: string)
    ensures FirstRelated(t, s) == FirstRelatedScan(t, s)
    decreases |t|
  {
    if |t| > 0 {
      if Related(t[0].0, s) {
        FirstRelatedAtIndex(t, s, 0);
      } else {
        FirstRelatedIsScan(t[1..], s);
        var u := t[1..];
        if HasRelated(u, s) {
          FirstRelatedExists(u, s);
          var j :| FirstRelatedAt(u, s, j);
          assert FirstRelatedAt(t, s, j + 1) by {
            forall m | 0 <= m < j + 1 ensures !Related(t[m].0, s) {
              if m > 0 { assert t[m] == u[m - 1]; }
            }
          }
          FirstRelatedAtIndex(u, s, j);
          FirstRelatedAtIndex(t, s, j + 1);
        } else {
          forall m | 0 <= m < |t| ensures !Related(t[m].0, s) {
            if m > 0 { assert t[m] == u[m - 1]; }
          }
        }
      }
    }
  }

  /** Searching a concatenation stops in the front table when it hits there. */
  lemma FirstRelatedPrefix(a: Table, b: Table, s: string)
    requires FirstRelated(a, s).Some?
    ensures FirstRelated(a + b, s) == FirstRelated(a, s)
  {
    FirstRelatedExists(a, s);
    var i :| FirstRelatedAt(a, s, i);
    FirstRelatedAtIndex(a, s, i);
    assert (a + b)[i] == a[i];
    forall j | 0 <= j < i ensures !Related((a + b)[j].0, s) {
      assert (a + b)[j] == a[j];
    }
    FirstRelatedAtIndex(a + b, s, i);
  }

  /** A certificate that needle does not occur in hay: position p of needle
      holds a character hay lacks, or p is -1 and needle is the longer. */
  predicate RulesOut(hay: string, needle: string, p: int) {
    (p == -1 && |needle| > |hay|) || (0 <= p < |needle| && needle[p] !in hay)
  }

  lemma RulesOutSound(hay: string, needle: string, p: int)
    requires RulesOut(hay, needle, p)
    ensures !Contains(hay, needle)
  {
    if p == -1 {
      NotContainsLonger(hay, needle);
    } else {
      NotContainsByChar(hay, needle, needle[p]);
    }
  }

  /** The search hits entry i when certificates rule out every earlier key in
      both directions: wk[j] shows key j is not in s, ws[j] that s is not in
      key j. */
  lemma FirstRelatedByCertificates(t: Table, s: string, i: int, wk: seq<int>, ws: seq<int>)
    requires 0 <= i < |t| && |wk| == i && |ws| == i
    requires forall j :: 0 <= j < i ==> RulesOut(s, t[j].0, wk[j]) && RulesOut(t[j].0, s, ws[j])
    requires Related(t[i].0, s)
    ensures FirstRelated(t, s) == Some(t[i].1)
  {
    forall j | 0 <= j < i ensures !Related(t[j].0, s) {
      RulesOutSound(s, t[j].0, wk[j]);
      RulesOutSound(t[j].0, s, ws[j]);
    }
    FirstRelatedAtIndex(t, s, i);
  }
}
