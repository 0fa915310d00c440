/** Order-preserving selection and duplicate removal on sequences: the two
    row-level operations of the dataframe cleaner. */
module Sequences {

  /** `a` can be obtained from `b` by deleting elements, keeping order.
      Matching greedily from the back is complete for this relation. */
  predicate Subseq<T(==)>(a: seq<T>, b: seq<T>)
    decreases |b|
  {
    if |a| == 0 then true
    else if |b| == 0 then false
    else if a[|a| - 1] == b[|b| - 1] then Subseq(a[..|a| - 1], b[..|b| - 1])
    else Subseq(a, b[..|b| - 1])
  }

  /** No element occurs twice. */
  predicate NoDuplicates<T(==)>(s: seq<T>) {
    forall i, j :: 0 <= i < j < |s| ==> s[i] != s[j]
  }

  /** Keep the elements satisfying `keep`, in order. */
  function Filter<T>(s: seq<T>, keep: T -> bool): (r: seq<T>)
    ensures |r| <= |s|
    ensures forall i :: 0 <= i < |r| ==> r[i] in s && keep(r[i])
    ensures forall i :: 0 <= i < |s| && keep(s[i]) ==> s[i] in r
  {
    if |s| == 0 then []
    else Filter(s[..|s| - 1], keep) + (if keep(s[|s| - 1]) then [s[|s| - 1]] else [])
  }

  /** How many elements satisfy `p`. */
  function Count<T>(s: seq<T>, p: T -> bool): (n: nat)
    ensures n <= |s|
  {
    if |s| == 0 then 0
    else Count(s[..|s| - 1], p) + (if p(s[|s| - 1]) then 1 else 0)
  }

  /** The first occurrence of every element, in order: pandas'
      drop_duplicates with keep='first'. */
  function FirstOccurrences<T(==)>(s: seq<T>): (r: seq<T>)
    ensures |r| <= |s|
    ensures forall i :: 0 <= i < |r| ==> r[i] in s
    ensures forall i :: 0 <= i < |s| ==> s[i] in r
  {
    if |s| == 0 then []
    else
      var init := s[..|s| - 1];
      var x := s[|s| - 1];
      FirstOccurrences(init) + (if x in init then [] else [x])
  }

  // ---------------------------------------------------------------------------
  // Subsequence facts

  lemma {:induction false} SubseqEmpty<T>(a: seq<T>)
    requires Subseq(a, [])
    ensures a == []
  {
  }

  lemma {:induction false} SubseqRefl<T>(s: seq<T>)
    ensures Subseq(s, s)
    decreases |s|
  {
    if |s| > 0 {
      SubseqRefl(s[..|s| - 1]);
    }
  }

  lemma {:induction false} SubseqLength<T>(a: seq<T>, b: seq<T>)
    requires Subseq(a, b)
    ensures |a| <= |b|
    decreases |b|
  {
    if |a| > 0 {
      if a[|a| - 1] == b[|b| - 1] {
        SubseqLength(a[..|a| - 1], b[..|b| - 1]);
      } else {
        SubseqLength(a, b[..|b| - 1]);
      }
    }
  }

  /** Deleting the last element of `a` keeps it a subsequence. */
  lemma {:induction false} SubseqDropLast<T>(a: seq<T>, b: seq<T>)
    requires |a| > 0 && Subseq(a, b)
    ensures Subseq(a[..|a| - 1], b)
    decreases |b|, 0
  {
    var a' := a[..|a| - 1];
    var b' := b[..|b| - 1];
    if |a'| > 0 {
      if a[|a| - 1] == b[|b| - 1] {
        SubseqWeaken(a', b', b[|b| - 1]);
      } else {
        SubseqDropLast(a, b');
        SubseqWeaken(a', b', b[|b| - 1]);
      }
      assert b' + [b[|b| - 1]] == b;
    }
  }

  /** Appending to the larger sequence keeps the relation. */
  lemma {:induction false} SubseqWeaken<T>(a: seq<T>, b: seq<T>, x: T)
    requires Subseq(a, b)
    ensures Subseq(a, b + [x])
    decreases |b|, 1
  {
    var b' := b + [x];
    assert b'[..|b'| - 1] == b;
    if |a| > 0 && a[|a| - 1] == x {
      SubseqDropLast(a, b);
    }
  }

  lemma {:induction false} SubseqTransitive<T>(a: seq<T>, b: seq<T>, c: seq<T>)
    requires Subseq(a, b) && Subseq(b, c)
    ensures Subseq(a, c)
    decreases |c|
  {
    if |a| == 0 {
    } else if |c| == 0 {
      SubseqEmpty(b);
    } else {
      var z := c[|c| - 1];
      var c' := c[..|c| - 1];
      if |b| > 0 && b[|b| - 1] == z {
        var b' := b[..|b| - 1];
        if a[|a| - 1] == z {
          SubseqTransitive(a[..|a| - 1], b', c');
        } else {
          SubseqTransitive(a, b', c');
        }
      } else {
        SubseqTransitive(a, b, c');
        if a[|a| - 1] == z {
          SubseqDropLast(a, c');
        }
      }
    }
  }

  /** A subsequence as long as the whole is the whole. */
  lemma {:induction false} SubseqSameLength<T>(a: seq<T>, b: seq<T>)
    requires Subseq(a, b) && |a| == |b|
    ensures a == b
    decreases |b|
  {
    if |a| > 0 {
      if a[|a| - 1] == b[|b| - 1] {
        SubseqSameLength(a[..|a| - 1], b[..|b| - 1]);
        assert a == a[..|a| - 1] + [a[|a| - 1]];
        assert b == b[..|b| - 1] + [b[|b| - 1]];
      } else {
        SubseqLength(a, b[..|b| - 1]);
      }
    }
  }

  /** A subsequence of a duplicate-free sequence is duplicate-free. */
  lemma {:induction false} SubseqNoDuplicates<T>(a: seq<T>, b: seq<T>)
    requires Subseq(a, b) && NoDuplicates(b)
    ensures NoDuplicates(a)
    decreases |b|
  {
    if |a| > 0 {
      var b' := b[..|b| - 1];
      assert NoDuplicates(b');
      if a[|a| - 1] == b[|b| - 1] {
        var a' := a[..|a| - 1];
        SubseqNoDuplicates(a', b');
        SubseqElements(a', b');
        forall i, j | 0 <= i < j < |a| ensures a[i] != a[j] {
          if j == |a| - 1 {
            assert a[i] in a';
            assert a[i] in b';
          } else {
            assert a[i] == a'[i] && a[j] == a'[j];
          }
        }
      } else {
        SubseqNoDuplicates(a, b');
      }
    }
  }

  /** Every element of a subsequence is an element of the whole. */
  lemma {:induction false} SubseqElements<T>(a: seq<T>, b: seq<T>)
    requires Subseq(a, b)
    ensures forall x :: x in a ==> x in b
    decreases |b|
  {
    if |a| > 0 {
      var b' := b[..|b| - 1];
      if a[|a| - 1] == b[|b| - 1] {
        var a' := a[..|a| - 1];
        SubseqElements(a', b');
        assert a == a' + [a[|a| - 1]];
        assert b == b' + [b[|b| - 1]];
      } else {
        SubseqElements(a, b');
        assert b == b' + [b[|b| - 1]];
      }
    }
  }

  // ---------------------------------------------------------------------------
  // Filter and Count

  lemma {:induction false} FilterSubseq<T>(s: seq<T>, keep: T -> bool)
    ensures Subseq(Filter(s, keep), s)
    decreases |s|
  {
    if |s| > 0 {
      var s' := s[..|s| - 1];
      var x := s[|s| - 1];
      FilterSubseq(s', keep);
      assert Filter(s, keep) == Filter(s', keep) + (if keep(x) then [x] else []);
      if keep(x) {
        assert (Filter(s', keep) + [x])[..|Filter(s', keep)|] == Filter(s', keep);
      } else {
        assert Filter(s, keep) == Filter(s', keep);
        SubseqWeaken(Filter(s', keep), s', x);
        assert s' + [x] == s;
      }
    }
  }

  /** The kept and the dropped elements account for the whole sequence. */
  lemma {:induction false} FilterCount<T>(s: seq<T>, keep: T -> bool, drop: T -> bool)
    requires forall i :: 0 <= i < |s| ==> drop(s[i]) == !keep(s[i])
    ensures |Filter(s, keep)| + Count(s, drop) == |s|
    decreases |s|
  {
    if |s| > 0 {
      FilterCount(s[..|s| - 1], keep, drop);
    }
  }

  /** Filter keeps exactly as many elements as satisfy its test. */
  lemma {:induction false} FilterLength<T>(s: seq<T>, keep: T -> bool)
    ensures |Filter(s, keep)| == Count(s, keep)
    decreases |s|
  {
    if |s| > 0 {
      FilterLength(s[..|s| - 1], keep);
    }
  }

  /** Nothing satisfies a predicate counted zero times. */
  lemma {:induction false} CountZero<T>(s: seq<T>, p: T -> bool)
    requires Count(s, p) == 0
    ensures forall i :: 0 <= i < |s| ==> !p(s[i])
    decreases |s|
  {
    if |s| > 0 {
      CountZero(s[..|s| - 1], p);
      assert forall i :: 0 <= i < |s| - 1 ==> s[i] == s[..|s| - 1][i];
    }
  }

  // ---------------------------------------------------------------------------
  // First occurrences

  lemma {:induction false} FirstOccurrencesSubseq<T>(s: seq<T>)
    ensures Subseq(FirstOccurrences(s), s)
    decreases |s|
  {
    if |s| > 0 {
      var s' := s[..|s| - 1];
      var x := s[|s| - 1];
      var r' := FirstOccurrences(s');
      FirstOccurrencesSubseq(s');
      assert s' + [x] == s;
      if x in s' {
        assert FirstOccurrences(s) == r';
        SubseqWeaken(r', s', x);
      } else {
        assert FirstOccurrences(s) == r' + [x];
        SubseqExtend(r', s', x);
      }
    }
  }

  /** Appending the same element to both sides keeps a subsequence. */
  lemma SubseqExtend<T>(a: seq<T>, b: seq<T>, x: T)
    requires Subseq(a, b)
    ensures Subseq(a + [x], b + [x])
  {
    assert (a + [x])[..|a|] == a;
    assert (b + [x])[..|b|] == b;
  }

  lemma {:induction false} FirstOccurrencesNoDuplicates<T>(s: seq<T>)
    ensures NoDuplicates(FirstOccurrences(s))
    decreases |s|
  {
    if |s| > 0 {
      var s' := s[..|s| - 1];
      var x := s[|s| - 1];
      var r' := FirstOccurrences(s');
      FirstOccurrencesNoDuplicates(s');
      if x !in s' {
        var r := r' + [x];
        forall i, j | 0 <= i < j < |r| ensures r[i] != r[j] {
          if j == |r| - 1 {
            assert r[i] in r';
          } else {
            assert r[i] == r'[i] && r[j] == r'[j];
          }
        }
      }
    }
  }

  /** Where `x` first occurs in `s`. */
  function FirstIndex<T(==)>(s: seq<T>, x: T): (k: nat)
    requires x in s
    ensures k < |s| && s[k] == x
    ensures forall j :: 0 <= j < k ==> s[j] != x
  {
    var init := s[..|s| - 1];
    if x in init then FirstIndex(init, x) else |s| - 1
  }

  /** Keep-first: the kept elements come in the order of their first
      occurrences in the input. With FirstOccurrencesNoDuplicates and the
      membership ensures this determines the result. */
  lemma {:induction false} FirstOccurrencesKeepFirst<T>(s: seq<T>)
    ensures forall i, j :: 0 <= i < j < |FirstOccurrences(s)| ==>
      FirstIndex(s, FirstOccurrences(s)[i]) < FirstIndex(s, FirstOccurrences(s)[j])
    decreases |s|
  {
    if |s| > 0 {
      var s' := s[..|s| - 1];
      var x := s[|s| - 1];
      var r' := FirstOccurrences(s');
      var r := FirstOccurrences(s);
      FirstOccurrencesKeepFirst(s');
      forall i, j | 0 <= i < j < |r| ensures FirstIndex(s, r[i]) < FirstIndex(s, r[j]) {
        assert r[i] == r'[i] && r[i] in s';
        if x !in s' && j == |r| - 1 {
          assert r[j] == x;
        } else {
          assert r[j] == r'[j] && r[j] in s';
        }
      }
    }
  }

  /** A sequence without duplicates is left as it is. */
  lemma {:induction false} FirstOccurrencesOfDistinct<T>(s: seq<T>)
    requires NoDuplicates(s)
    ensures FirstOccurrences(s) == s
    decreases |s|
  {
    if |s| > 0 {
      var s' := s[..|s| - 1];
      assert NoDuplicates(s');
      FirstOccurrencesOfDistinct(s');
      forall i | 0 <= i < |s'| ensures s'[i] != s[|s| - 1] {
        assert s'[i] == s[i];
      }
      assert s' + [s[|s| - 1]] == s;
    }
  }

  /** Nothing is removed exactly when there was no duplicate. */
  lemma FirstOccurrencesKeepsAll<T>(s: seq<T>)
    ensures |FirstOccurrences(s)| == |s| <==> NoDuplicates(s)
  {
    if |FirstOccurrences(s)| == |s| {
      FirstOccurrencesSubseq(s);
      SubseqSameLength(FirstOccurrences(s), s);
      FirstOccurrencesNoDuplicates(s);
    }
    if NoDuplicates(s) {
      FirstOccurrencesOfDistinct(s);
    }
  }

  /** Applying it twice is applying it once. */
  lemma FirstOccurrencesIdempotent<T>(s: seq<T>)
    ensures FirstOccurrences(FirstOccurrences(s)) == FirstOccurrences(s)
  {
    FirstOccurrencesNoDuplicates(s);
    FirstOccurrencesOfDistinct(FirstOccurrences(s));
  }

  /** The loop pandas runs: walk the rows once, remembering what was seen. */
  method DropDuplicates<T(==)>(s: seq<T>) returns (r: seq<T>)
    ensures r == FirstOccurrences(s)
  {
    r := [];
    var seen: set<T> := {};
    var i := 0;
    while i < |s|
      invariant 0 <= i <= |s|
      invariant r == FirstOccurrences(s[..i])
      invariant forall x :: x in seen <==> x in s[..i]
    {
      assert s[..i + 1][..i] == s[..i];
      if s[i] !in seen {
        r := r + [s[i]];
        seen := seen + {s[i]};
      }
      i := i + 1;
    }
    assert s[..|s|] == s;
  }

  // ---------------------------------------------------------------------------
  // Concatenation of blocks (pd.concat)

  /** The blocks one after another. */
  function Flatten<T>(blocks: seq<seq<T>>): seq<T>
  {
    if |blocks| == 0 then [] else Flatten(blocks[..|blocks| - 1]) + blocks[|blocks| - 1]
  }

  /** Where block k starts: after the blocks before it. */
  function Offset<T>(blocks: seq<seq<T>>, k: int): nat
    requires 0 <= k <= |blocks|
  {
    |Flatten(blocks[..k])|
  }

  /** Flattening the first k + 1 blocks appends block k to the first k. */
  lemma FlattenStep<T>(blocks: seq<seq<T>>, k: int)
    requires 0 <= k < |blocks|
    ensures Flatten(blocks[..k + 1]) == Flatten(blocks[..k]) + blocks[k]
  {
    var b := blocks[..k + 1];
    assert b[..|b| - 1] == blocks[..k];
    assert b[|b| - 1] == blocks[k];
  }

  /** The first k blocks begin the flattened sequence. */
  lemma {:induction false} FlattenPrefix<T>(blocks: seq<seq<T>>, k: int)
    requires 0 <= k <= |blocks|
    ensures |Flatten(blocks[..k])| <= |Flatten(blocks)|
    ensures Flatten(blocks)[..|Flatten(blocks[..k])|] == Flatten(blocks[..k])
    decreases |blocks|
  {
    if k < |blocks| {
      var init := blocks[..|blocks| - 1];
      assert init[..k] == blocks[..k];
      FlattenPrefix(init, k);
    } else {
      assert blocks[..k] == blocks;
    }
  }

  /** Block k is the slice of the flattened sequence that starts at its
      offset. */
  lemma FlattenBlock<T>(blocks: seq<seq<T>>, k: int)
    requires 0 <= k < |blocks|
    ensures Offset(blocks, k) + |blocks[k]| <= |Flatten(blocks)|
    ensures Flatten(blocks)[Offset(blocks, k)..Offset(blocks, k) + |blocks[k]|] == blocks[k]
  {
    FlattenPrefix(blocks, k + 1);
    FlattenStep(blocks, k);
    SliceOfPrefix(Flatten(blocks), Flatten(blocks[..k + 1]), Flatten(blocks[..k]), blocks[k]);
  }

  /** A sequence that begins with before + block holds block right after before. */
  lemma SliceOfPrefix<T>(all: seq<T>, upto: seq<T>, before: seq<T>, block: seq<T>)
    requires |upto| <= |all| && all[..|upto|] == upto && upto == before + block
    ensures |before| + |block| <= |all|
    ensures all[|before|..|before| + |block|] == block
  {
    assert all[|before|..|upto|] == all[..|upto|][|before|..];
  }

  /** Every position of the flattened sequence lies in some block. */
  lemma {:induction false} FlattenCovered<T>(blocks: seq<seq<T>>, i: int)
    requires 0 <= i < |Flatten(blocks)|
    ensures exists k :: 0 <= k < |blocks| && Offset(blocks, k) <= i < Offset(blocks, k) + |blocks[k]|
    decreases |blocks|
  {
    var n := |blocks| - 1;
    FlattenStep(blocks, n);
    assert blocks[..n + 1] == blocks;
    if i < Offset(blocks, n) {
      var init := blocks[..n];
      FlattenCovered(init, i);
      var k :| 0 <= k < |init| && Offset(init, k) <= i < Offset(init, k) + |init[k]|;
      assert init[..k] == blocks[..k];
      assert Offset(blocks, k) <= i < Offset(blocks, k) + |blocks[k]|;
    } else {
      assert Offset(blocks, n) <= i < Offset(blocks, n) + |blocks[n]|;
    }
  }

  /** Every element of the flattened sequence is an element of some block. */
  lemma FlattenMember<T>(blocks: seq<seq<T>>, i: int)
    requires 0 <= i < |Flatten(blocks)|
    ensures exists k :: 0 <= k < |blocks| && Flatten(blocks)[i] in blocks[k]
  {
    FlattenCovered(blocks, i);
    var k :| 0 <= k < |blocks| && Offset(blocks, k) <= i < Offset(blocks, k) + |blocks[k]|;
    FlattenBlock(blocks, k);
    var all, lo := Flatten(blocks), Offset(blocks, k);
    assert all[i] == all[lo..lo + |blocks[k]|][i - lo];
  }
}
