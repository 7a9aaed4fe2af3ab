/**
 * What a `mark_references` callback hands to the collector: the references
 * passed to `gc_mark_object`, in call order. A NULL reference is skipped.
 */
module GcTrace {
  import opened Wrappers

  /** One `gc_mark_object(ref)` call. */
  function Mark<T>(ref: Option<T>): seq<T> {
    if ref.Some? then [ref.value] else []
  }

  /** `gc_mark_object` called on each reference of `refs` in order. */
  function Marked<T>(refs: seq<Option<T>>): seq<T>
    decreases |refs|
  {
    if refs == [] then [] else Marked(refs[..|refs| - 1]) + Mark(refs[|refs| - 1])
  }

  /** Marking one more reference of a run appends its visit, if any. */
  lemma MarkedPrefixStep<T>(refs: seq<Option<T>>, k: nat)
    requires k < |refs|
    ensures Marked(refs[..k + 1]) == Marked(refs[..k]) + Mark(refs[k])
  {
    assert refs[..k + 1][..k] == refs[..k];
  }

  /** Six marks in a row, as a header trace makes them. */
  lemma MarkedSix<T>(a: Option<T>, b: Option<T>, c: Option<T>, d: Option<T>, e: Option<T>, f: Option<T>)
    ensures Marked([a, b, c, d, e, f]) == Mark(a) + Mark(b) + Mark(c) + Mark(d) + Mark(e) + Mark(f)
  {
    assert [a, b, c, d, e, f][..5] == [a, b, c, d, e];
    assert Marked([a, b, c, d, e, f]) == Marked([a, b, c, d, e]) + Mark(f);
    assert [a, b, c, d, e][..4] == [a, b, c, d];
    assert Marked([a, b, c, d, e]) == Marked([a, b, c, d]) + Mark(e);
    assert [a, b, c, d][..3] == [a, b, c];
    assert Marked([a, b, c, d]) == Marked([a, b, c]) + Mark(d);
    assert [a, b, c][..2] == [a, b];
    assert Marked([a, b, c]) == Marked([a, b]) + Mark(c);
    assert [a, b][..1] == [a];
    assert Marked([a, b]) == Marked([a]) + Mark(b);
    assert [a][..0] == [];
    assert Marked([a]) == Mark(a);
  }

  /** Marking two runs of references one after the other marks their concatenation. */
  lemma {:induction false} MarkedConcat<T>(a: seq<Option<T>>, b: seq<Option<T>>)
    ensures Marked(a + b) == Marked(a) + Marked(b)
    decreases |b|
  {
    if b == [] {
      assert a + b == a;
    } else {
      var n := |b| - 1;
      assert (a + b)[..|a + b| - 1] == a + b[..n];
      MarkedConcat(a, b[..n]);
    }
  }

  /** Exactly the non-NULL references are visited. */
  lemma {:induction false} MarkedMembers<T>(refs: seq<Option<T>>, x: T)
    ensures x in Marked(refs) <==> exists i :: 0 <= i < |refs| && refs[i] == Some(x)
    decreases |refs|
  {
    if refs != [] {
      var n := |refs| - 1;
      MarkedMembers(refs[..n], x);
      if x in Marked(refs[..n]) {
        var i :| 0 <= i < n && refs[..n][i] == Some(x);
        assert refs[i] == Some(x);
      }
      if exists i :: 0 <= i < |refs| && refs[i] == Some(x) {
        var i :| 0 <= i < |refs| && refs[i] == Some(x);
        if i < n {
          assert refs[..n][i] == Some(x);
        }
      }
    }
  }

  /** The references of `refs` that point at x, by index. */
  ghost function PointingAt<T>(refs: seq<Option<T>>, x: T): set<nat> {
    set i: nat | i < |refs| && refs[i] == Some(x)
  }

  /** Extending a run by one reference adds its index exactly when it points at x. */
  lemma PointingAtStep<T>(refs: seq<Option<T>>, x: T)
    requires refs != []
    ensures |PointingAt(refs, x)| ==
      |PointingAt(refs[..|refs| - 1], x)| + (if refs[|refs| - 1] == Some(x) then 1 else 0)
  {
    var n := |refs| - 1;
    var before := PointingAt(refs[..n], x);
    assert before == set i: nat | i < n && refs[i] == Some(x);
    if refs[n] == Some(x) {
      assert PointingAt(refs, x) == before + {n};
    } else {
      assert PointingAt(refs, x) == before;
    }
  }

  /**
   * Every non-NULL reference is visited exactly once: an object is visited
   * as many times as there are references pointing at it.
   */
  lemma {:induction false} MarkedCount<T>(refs: seq<Option<T>>, x: T)
    ensures multiset(Marked(refs))[x] == |PointingAt(refs, x)|
    decreases |refs|
  {
    if refs == [] {
      assert PointingAt(refs, x) == {};
    } else {
      var n := |refs| - 1;
      MarkedCount(refs[..n], x);
      PointingAtStep(refs, x);
      assert multiset(Marked(refs)) == multiset(Marked(refs[..n])) + multiset(Mark(refs[n]));
    }
  }

  /** With no NULLs: one visit per reference, in order, one visit per reference, in order. */
  lemma {:induction false} MarkedAllNonNull<T>(refs: seq<Option<T>>)
    requires forall i :: 0 <= i < |refs| ==> refs[i].Some?
    ensures |Marked(refs)| == |refs|
    ensures forall i :: 0 <= i < |refs| ==> Some(Marked(refs)[i]) == refs[i]
    decreases |refs|
  {
    if refs != [] {
      MarkedAllNonNull(refs[..|refs| - 1]);
    }
  }
}
