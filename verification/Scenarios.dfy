/** Concrete views over the tuple 0..9 used by the repository's tests, and
    the inputs on which the view, as written, differs from Python slicing. */
module SubsequenceScenarios {
  import opened PyBuiltins
  import opened BonusCollections

  const Digits: seq<int> := [0, 1, 2, 3, 4, 5, 6, 7, 8, 9]

  function Over(section: Slice): (r: Result<Sequence<int>>) {
    Construct(Builtin(Digits), section)
  }

  /** `Subsequence(S, slice(3, 8))` has range (3, 8, 1) and length 5, and its
      first five reads are `S[3:8]`; nothing stops reads past its stop, up to
      the end of S. */
  lemma BasicView()
    ensures Over(Slice(Some(3), Some(8), None)) == Ok(Subsequence(Builtin(Digits), Range(3, 8, 1)))
    ensures Len(Over(Slice(Some(3), Some(8), None)).value) == 5
    ensures PySlice(Digits, Slice(Some(3), Some(8), None)) == Ok([3, 4, 5, 6, 7])
    ensures forall k :: 0 <= k < 7 ==> GetIndex(Over(Slice(Some(3), Some(8), None)).value, k) == Ok(3 + k)
    ensures GetIndex(Over(Slice(Some(3), Some(8), None)).value, 7) == Err(IndexError)
  {
    var v := Over(Slice(Some(3), Some(8), None)).value;
    assert v.range == Range(3, 8, 1);
    var items := PySlice(Digits, Slice(Some(3), Some(8), None)).value;
    assert |items| == 5;
    assert items == [3, 4, 5, 6, 7] by {
      forall k | 0 <= k < 5 ensures items[k] == [3, 4, 5, 6, 7][k] { }
    }
  }

  /** `Subsequence(S, slice(3, 8))[2]` is 5, as `S[3:8][2]` is. */
  lemma IndexedRead()
    ensures GetIndex(Over(Slice(Some(3), Some(8), None)).value, 2) == Ok(5)
    ensures PySlice(Digits, Slice(Some(3), Some(8), None)).value[2] == 5
  {
  }

  /** `Subsequence(S, slice(3, 8, 2))` has length 2 where `S[3:8:2]` has 3
      elements; its reads at 0, 1, 2 are still 3, 5, 7. */
  lemma SteppedViewUndercounts()
    ensures Over(Slice(Some(3), Some(8), Some(2))) == Ok(Subsequence(Builtin(Digits), Range(3, 8, 2)))
    ensures Len(Over(Slice(Some(3), Some(8), Some(2))).value) == 2
    ensures |PySlice(Digits, Slice(Some(3), Some(8), Some(2))).value| == 3
    ensures GetIndex(Over(Slice(Some(3), Some(8), Some(2))).value, 0) == Ok(3)
    ensures GetIndex(Over(Slice(Some(3), Some(8), Some(2))).value, 1) == Ok(5)
    ensures GetIndex(Over(Slice(Some(3), Some(8), Some(2))).value, 2) == Ok(7)
  {
  }

  /** `Subsequence(Subsequence(S, slice(3, 8, 2)), slice(3))`: the inner view
      has length 2, so the section normalizes to (0, 2, 1) and the result
      reads S directly with range (3, 7, 2). */
  lemma NestedView()
    ensures Indices(Slice(None, Some(3), None), 2) == Ok(Range(0, 2, 1))
    ensures Construct(Subsequence(Builtin(Digits), Range(3, 8, 2)), Slice(None, Some(3), None))
         == Ok(Subsequence(Builtin(Digits), Range(3, 7, 2)))
  {
    assert PyLen(Subsequence(Builtin(Digits), Range(3, 8, 2))) == Ok(2);
    assert Compose(Range(3, 8, 2), Range(0, 2, 1)) == Range(3, 7, 2);
  }

  /** The nested view of NestedView has length 2 and reads 3, 5, 7. */
  lemma NestedViewReads()
    ensures Len(Subsequence(Builtin(Digits), Range(3, 7, 2))) == 2
    ensures GetIndex(Subsequence(Builtin(Digits), Range(3, 7, 2)), 0) == Ok(3)
    ensures GetIndex(Subsequence(Builtin(Digits), Range(3, 7, 2)), 1) == Ok(5)
    ensures GetIndex(Subsequence(Builtin(Digits), Range(3, 7, 2)), 2) == Ok(7)
  {
  }

  /** `Subsequence(S, slice(3, -1))`: the stop -1 counts from the end, giving
      range (3, 9, 1) and length 6, the length of `S[3:-1]`. */
  lemma NegativeStop()
    ensures Over(Slice(Some(3), Some(-1), None)) == Ok(Subsequence(Builtin(Digits), Range(3, 9, 1)))
    ensures Len(Over(Slice(Some(3), Some(-1), None)).value) == 6
    ensures |PySlice(Digits, Slice(Some(3), Some(-1), None)).value| == 6
  {
  }

  /** A negative int key is not counted from the end of the view:
      `Subsequence(S, slice(3, 8))[-1]` reads S[2], where `S[3:8][-1]` is 7. */
  lemma NegativeKeyReadsBeforeStart()
    ensures GetIndex(Over(Slice(Some(3), Some(8), None)).value, -1) == Ok(2)
    ensures PySlice(Digits, Slice(Some(3), Some(8), None)).value[4] == 7
  {
  }

  /** Reversing a forward view: the min/max rule keeps the outer stop 8, so
      the result (7, 8, -1) is falsy with length -1 and `len()` fails, where
      `S[3:8][::-1]` has five elements. */
  lemma ReversedForwardViewIsEmpty()
    ensures Construct(Over(Slice(Some(3), Some(8), None)).value, Slice(None, None, Some(-1)))
         == Ok(Subsequence(Builtin(Digits), Range(7, 8, -1)))
    ensures !Truthy(Subsequence(Builtin(Digits), Range(7, 8, -1)))
    ensures Len(Subsequence(Builtin(Digits), Range(7, 8, -1))) == -1
    ensures PyLen(Subsequence(Builtin(Digits), Range(7, 8, -1))) == Err(ValueError(NegativeLength))
    ensures |PySlice(PySlice(Digits, Slice(Some(3), Some(8), None)).value, Slice(None, None, Some(-1))).value| == 5
  {
    var v := Over(Slice(Some(3), Some(8), None)).value;
    assert v.range == Range(3, 8, 1);
    assert Len(v) == 5;
  }

  /** Reversing a reversed view: the outer stop -1 wins the min, so the
      result (0, -1, 1) is falsy with length -1. */
  lemma DoubleReversalIsEmpty()
    ensures Construct(Subsequence(Builtin(Digits), Range(9, -1, -1)), Slice(None, None, Some(-1)))
         == Ok(Subsequence(Builtin(Digits), Range(0, -1, 1)))
    ensures !Truthy(Subsequence(Builtin(Digits), Range(0, -1, 1)))
    ensures Len(Subsequence(Builtin(Digits), Range(0, -1, 1))) == -1
  {
    assert PyLen(Subsequence(Builtin(Digits), Range(9, -1, -1))) == Ok(10);
    assert Indices(Slice(None, None, Some(-1)), 10) == Ok(Range(9, -1, -1));
    assert Compose(Range(9, -1, -1), Range(9, -1, -1)) == Range(0, -1, 1);
  }

  /** `Subsequence(S, slice(None, None, -1))` has range (9, -1, -1). */
  lemma ReversedView()
    ensures Over(Slice(None, None, Some(-1))) == Ok(Subsequence(Builtin(Digits), Range(9, -1, -1)))
  {
  }

  /** A forward section of a reversed view is what Python gives:
      `Subsequence(Subsequence(S, slice(None, None, -1)), slice(2, 5))` has
      range (7, 4, -1), is truthy with length 3 and reads 7, 6, 5, which is
      `S[::-1][2:5]`. */
  lemma ForwardSectionOfReversedView()
    ensures Construct(Subsequence(Builtin(Digits), Range(9, -1, -1)), Slice(Some(2), Some(5), None))
         == Ok(Subsequence(Builtin(Digits), Range(7, 4, -1)))
    ensures Truthy(Subsequence(Builtin(Digits), Range(7, 4, -1)))
    ensures Len(Subsequence(Builtin(Digits), Range(7, 4, -1))) == 3
    ensures SliceItems(Digits, Range(7, 4, -1)) == [7, 6, 5]
    ensures PySlice(PySlice(Digits, Slice(None, None, Some(-1))).value, Slice(Some(2), Some(5), None)) == Ok([7, 6, 5])
  {
    assert PyLen(Subsequence(Builtin(Digits), Range(9, -1, -1))) == Ok(10);
    assert Indices(Slice(Some(2), Some(5), None), 10) == Ok(Range(2, 5, 1));
    assert Compose(Range(9, -1, -1), Range(2, 5, 1)) == Range(7, 4, -1);
    var mine := SliceItems(Digits, Range(7, 4, -1));
    assert |mine| == 3;
    assert mine == [7, 6, 5] by {
      forall k | 0 <= k < 3 ensures mine[k] == [7, 6, 5][k] { }
    }
    assert Indices(Slice(None, None, Some(-1)), 10) == Ok(Range(9, -1, -1));
    var rev := PySlice(Digits, Slice(None, None, Some(-1))).value;
    assert |rev| == 10;
    var theirs := PySlice(rev, Slice(Some(2), Some(5), None)).value;
    assert |theirs| == 3;
    forall k | 0 <= k < 3 ensures theirs[k] == [7, 6, 5][k] {
      assert theirs[k] == rev[2 + k];
      assert rev[2 + k] == Digits[7 - k];
    }
    assert theirs == [7, 6, 5];
  }

  /** Whereas `S[::-1][::-1]` is S again. */
  lemma DoubleReversalOfTuple()
    ensures PySlice(PySlice(Digits, Slice(None, None, Some(-1))).value, Slice(None, None, Some(-1))) == Ok(Digits)
  {
    assert Indices(Slice(None, None, Some(-1)), 10) == Ok(Range(9, -1, -1));
    var rev := PySlice(Digits, Slice(None, None, Some(-1))).value;
    assert |rev| == 10;
    var back := PySlice(rev, Slice(None, None, Some(-1))).value;
    assert |back| == 10;
    forall k | 0 <= k < 10 ensures back[k] == Digits[k] {
      assert Pos(Range(9, -1, -1), k) == 9 - k;
      assert Pos(Range(9, -1, -1), 9 - k) == k;
      assert back[k] == rev[9 - k];
      assert rev[9 - k] == Digits[k];
    }
    assert back == Digits;
  }

  /** A zero step is a ValueError; slicing a view with any field omitted,
      `v[1:3]` included, is a TypeError. */
  lemma RejectedKeys()
    ensures Over(Slice(None, None, Some(0))) == Err(ValueError(ZeroStep))
    ensures GetSlice(Over(Slice(Some(3), Some(8), None)).value, Slice(Some(1), Some(3), None)) == Err(TypeError)
    ensures GetSlice(Over(Slice(Some(3), Some(8), None)).value, Slice(Some(1), Some(3), Some(1)))
         == Ok(Subsequence(Builtin(Digits), Range(1, 3, 1)))
  {
  }
}
