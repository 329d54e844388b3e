/** `uniquify`: order-preserving removal of repeated elements. */
module Unique {

  /** The elements of `s` at their first occurrences, in order: the specification of `Uniquify`. */
  function Dedup<T(==)>(s: seq<T>): seq<T>
    decreases |s|
  {
    if |s| == 0 then []
    else
      var n := |s| - 1;
      Dedup(s[..n]) + (if s[n] in s[..n] then [] else [s[n]])
  }

  /** The indices of `s` that hold an element not seen earlier. */
  function FirstOccurrences<T(==)>(s: seq<T>): seq<nat>
    decreases |s|
  {
    if |s| == 0 then []
    else
      var n := |s| - 1;
      FirstOccurrences(s[..n]) + (if s[n] in s[..n] then [] else [n])
  }

  predicate Distinct<T(==)>(s: seq<T>) {
    forall i, j :: 0 <= i < j < |s| ==> s[i] != s[j]
  }

  /** The result holds exactly the elements of the input. */
  lemma {:induction false} DedupMembers<T>(s: seq<T>)
    ensures forall x :: x in Dedup(s) <==> x in s
    decreases |s|
  {
    if |s| > 0 {
      var n := |s| - 1;
      DedupMembers(s[..n]);
      assert s == s[..n] + [s[n]];
    }
  }

  /** No element occurs twice in the result. */
  lemma {:induction false} DedupDistinct<T>(s: seq<T>)
    ensures Distinct(Dedup(s))
    decreases |s|
  {
    if |s| > 0 {
      var n := |s| - 1;
      DedupDistinct(s[..n]);
      DedupMembers(s[..n]);
    }
  }

  /**
   * The result is the subsequence of the input taken at the first occurrences:
   * at strictly increasing indices, each of which holds an element that does not
   * occur before it, and every such index is taken.
   */
  lemma {:induction false} DedupIsFirstOccurrences<T>(s: seq<T>)
    ensures |FirstOccurrences(s)| == |Dedup(s)|
    ensures forall k :: 0 <= k < |Dedup(s)| ==>
              FirstOccurrences(s)[k] < |s| && Dedup(s)[k] == s[FirstOccurrences(s)[k]]
    ensures forall k, l :: 0 <= k < l < |Dedup(s)| ==> FirstOccurrences(s)[k] < FirstOccurrences(s)[l]
    decreases |s|
  {
    if |s| > 0 {
      var n := |s| - 1;
      var p := s[..n];
      DedupIsFirstOccurrences(p);
      forall i | 0 <= i < n
        ensures p[i] == s[i]
      {
      }
    }
  }

  /** An index is a first occurrence exactly when its element does not occur before it. */
  lemma FirstOccurrencesExact<T>(s: seq<T>)
    ensures forall i :: 0 <= i < |s| ==> (i in FirstOccurrences(s) <==> s[i] !in s[..i])
  {
    forall i | 0 <= i < |s|
      ensures i in FirstOccurrences(s) <==> s[i] !in s[..i]
    {
      FirstOccurrenceAt(s, i);
    }
  }

  lemma {:induction false} FirstOccurrenceAt<T>(s: seq<T>, i: nat)
    requires i < |s|
    ensures i in FirstOccurrences(s) <==> s[i] !in s[..i]
    decreases |s|
  {
    var n := |s| - 1;
    var p := s[..n];
    FirstOccurrencesBelow(p);
    if i < n {
      FirstOccurrenceAt(p, i);
      assert p[i] == s[i] && p[..i] == s[..i];
    }
  }

  lemma {:induction false} FirstOccurrencesBelow<T>(s: seq<T>)
    ensures forall j :: j in FirstOccurrences(s) ==> j < |s|
    decreases |s|
  {
    if |s| > 0 {
      FirstOccurrencesBelow(s[..|s| - 1]);
    }
  }

  /** There are as many results as distinct input elements. */
  lemma {:induction false} DedupCount<T>(s: seq<T>)
    ensures |Dedup(s)| == |set x | x in s|
    decreases |s|
  {
    if |s| > 0 {
      var n := |s| - 1;
      DedupCount(s[..n]);
      assert s == s[..n] + [s[n]];
      var before := set x | x in s[..n];
      assert (set x | x in s) == before + {s[n]};
      if s[n] !in s[..n] {
        assert s[n] !in before;
        assert |before + {s[n]}| == |before| + 1;
      } else {
        assert before + {s[n]} == before;
      }
    }
  }

  /** A sequence without repetitions is its own dedup, so dedup is idempotent. */
  lemma {:induction false} DedupOfDistinct<T>(s: seq<T>)
    requires Distinct(s)
    ensures Dedup(s) == s
    decreases |s|
  {
    if |s| > 0 {
      var n := |s| - 1;
      DedupOfDistinct(s[..n]);
      assert s == s[..n] + [s[n]];
    }
  }

  lemma DedupIdempotent<T>(s: seq<T>)
    ensures Dedup(Dedup(s)) == Dedup(s)
  {
    DedupDistinct(s);
    DedupOfDistinct(Dedup(s));
  }

  /**
   * `uniquify(seq)` with the identity marker: one pass over the input, a `seen`
   * set of markers and a `result` list that grows at the end.
   */
  method Uniquify<T(==)>(s: seq<T>) returns (result: seq<T>)
    ensures result == Dedup(s)
    ensures forall x :: x in result <==> x in s
    ensures Distinct(result)
  {
    var seen: set<T> := {};
    result := [];
    for i := 0 to |s|
      invariant seen == set x | x in s[..i]
      invariant result == Dedup(s[..i])
    {
      assert s[..i + 1][..i] == s[..i];
      var marker := s[i];
      if marker in seen {
        continue;
      }
      seen := seen + {marker};
      result := result + [s[i]];
    }
    assert s[..|s|] == s;
    DedupMembers(s);
    DedupDistinct(s);
  }
}
