/** What the view promises, and where it differs from Python's own slicing,
    stated over all inputs. */
module SubsequenceProperties {
  import opened PyBuiltins
  import opened BonusCollections

  lemma MulLt(c: int, p: int, q: int)
    requires c > 0
    ensures p < q <==> c * p < c * q
  {
  }

  /** The sign of `__len__` follows truthiness: a truthy view has a length of
      at least 0, a falsy one at most 0, and the length is negative exactly
      when the view is falsy with start != stop. Then the builtin `len()`
      raises ValueError, and so does building any view over it. */
  lemma LenSign<T>(v: Sequence<T>)
    requires v.Subsequence? && v.range.step != 0
    ensures Truthy(v) ==> Len(v) >= 0
    ensures !Truthy(v) ==> Len(v) <= 0
    ensures Len(v) < 0 <==> !Truthy(v) && v.range.start != v.range.stop
    ensures Len(v) < 0 <==> PyLen(v) == Err(ValueError(NegativeLength))
    ensures Len(v) < 0 ==> forall s :: Construct(v, s) == Err(ValueError(NegativeLength))
  {
  }

  /** Rounding `x / b` up instead of down adds one exactly when `b` does not
      divide `x`. */
  lemma CeilVersusFloor(x: int, b: int)
    requires x >= 1 && b >= 1
    ensures x / b <= (x - 1) / b + 1 <= x / b + 1
    ensures (x - 1) / b + 1 == x / b <==> b * (x / b) == x
  {
    var q := x / b;
    DivLe(x, b, q);
    DivLe(x, b, q + 1);
    DivLe(x - 1, b, q);
    DivLe(x - 1, b, q - 1);
    DivLe(x - 1, b, q + 1);
    assert b * (q - 1) == b * q - b;
    assert b * (q + 1) == b * q + b;
  }

  /** `__len__` rounds down where Python's slice length rounds up: for a
      truthy view it is the slice length or one less, and equal exactly when
      `len` steps of `step` lead from start to stop. A falsy view selects
      nothing. */
  lemma LenVersusSliceLength<T>(v: Sequence<T>)
    requires v.Subsequence? && v.range.step != 0
    ensures Truthy(v) ==> Len(v) <= SliceLength(v.range) <= Len(v) + 1
    ensures Truthy(v) ==>
      (SliceLength(v.range) == Len(v) <==> v.range.step * Len(v) == v.range.stop - v.range.start)
    ensures !Truthy(v) ==> SliceLength(v.range) == 0
  {
    if Truthy(v) {
      var d, c := v.range.stop - v.range.start, v.range.step;
      if c > 0 {
        assert Len(v) == d / c && SliceLength(v.range) == (d - 1) / c + 1;
        CeilVersusFloor(d, c);
      } else {
        assert Len(v) == (-d) / (-c) && SliceLength(v.range) == (-d - 1) / (-c) + 1;
        CeilVersusFloor(-d, -c);
        assert c * Len(v) == -((-c) * Len(v));
      }
    }
  }

  /** Reading a directly built view at any index below Python's slice length
      reads inside the source and gives what `S[a:b:c][i]` gives. */
  lemma ReadMatchesSlicing<T>(e: seq<T>, s: Slice, i: int)
    requires Construct(Builtin(e), s).Ok?
    requires 0 <= i < SliceLength(Construct(Builtin(e), s).value.range)
    ensures 0 <= Pos(Construct(Builtin(e), s).value.range, i) < |e|
    ensures PySlice(e, s).Ok? && i < |PySlice(e, s).value|
    ensures GetIndex(Construct(Builtin(e), s).value, i) == Ok(PySlice(e, s).value[i])
  {
    var v := Construct(Builtin(e), s).value;
    PositionsInBounds(v.range, |e|);
  }

  /** In particular every index `0 <= i < len(v)` of a directly built view
      reads inside the source and agrees with Python's slicing. */
  lemma ReadWithinLen<T>(e: seq<T>, s: Slice, i: int)
    requires Construct(Builtin(e), s).Ok?
    requires 0 <= i < Len(Construct(Builtin(e), s).value)
    ensures 0 <= Pos(Construct(Builtin(e), s).value.range, i) < |e|
    ensures PySlice(e, s).Ok? && i < |PySlice(e, s).value|
    ensures GetIndex(Construct(Builtin(e), s).value, i) == Ok(PySlice(e, s).value[i])
  {
    var v := Construct(Builtin(e), s).value;
    LenSign(v);
    LenVersusSliceLength(v);
    ReadMatchesSlicing(e, s, i);
  }

  /** Flattening is invisible to int reads: the composed view reads exactly
      what a view holding the outer view as its source would read. */
  lemma FlatteningPreservesReads<T>(v: Sequence<T>, s: Slice, j: int)
    requires v.Subsequence? && v.range.step != 0
    requires Construct(v, s).Ok?
    ensures GetIndex(Construct(v, s).value, j)
         == GetIndex(Subsequence(v, Indices(s, Len(v)).value), j)
  {
    var sec := Indices(s, Len(v)).value;
    var r := Construct(v, s).value.range;
    ComposePositions(v.range, sec, j);
    calc {
      GetIndex(Subsequence(v, sec), j);
      Read(v, Pos(sec, j));
      GetIndex(v, Pos(sec, j));
      Read(v.source, Pos(r, j));
      GetIndex(Construct(v, s).value, j);
    }
  }

  /** Slicing a view ignores the view's own range: two views over the same
      source give the same result for the same key. */
  lemma GetSliceIgnoresRange<T>(v: Sequence<T>, w: Sequence<T>, key: Slice)
    requires v.Subsequence? && w.Subsequence? && StepNonZero(v.source)
    requires v.source == w.source
    ensures GetSlice(v, key) == GetSlice(w, key)
  {
  }

  /** A directly built view whose `__len__` is exact. */
  predicate ExactLen<T>(v: Sequence<T>)
    requires v.Subsequence? && v.range.step != 0
  {
    0 <= Len(v) && v.range.step * Len(v) == v.range.stop - v.range.start
  }

  /** Composing an exact range of n positions, normalized against size, with
      a forward section normalized against n: the mapped section stop never
      lies beyond the outer stop, so the min or max rule picks it, and the
      result stays normalized against size. This holds for either direction
      of the outer range. */
  lemma ForwardSectionBounds(outer: Range, n: nat, size: nat, sec: Range)
    requires NormalizedFor(outer, size)
    requires outer.start + outer.step * n == outer.stop
    requires sec.step > 0 && NormalizedFor(sec, n)
    ensures NormalizedFor(Compose(outer, sec), size)
    ensures Compose(outer, sec).stop == Pos(outer, sec.stop)
  {
    var c := outer.step;
    if c > 0 {
      MulLe(c, sec.stop, n);
      MulLe(c, 0, sec.start);
      MulLe(c, sec.start, n);
      MulLe(c, 0, sec.stop);
    } else {
      MulLe(-c, sec.stop, n);
      MulLe(-c, 0, sec.start);
      MulLe(-c, sec.start, n);
      MulLe(-c, 0, sec.stop);
      assert c * sec.stop == -((-c) * sec.stop);
      assert c * sec.start == -((-c) * sec.start);
      assert c * n == -((-c) * n);
    }
  }

  /** When the composed stop is the mapped section stop, a position of the
      composed range lies before its stop exactly when the corresponding
      section position lies before the section's stop, so both select the
      same number of positions. */
  lemma ForwardSectionCount(outer: Range, sec: Range)
    requires outer.step != 0 && sec.step > 0
    requires Compose(outer, sec).stop == Pos(outer, sec.stop)
    ensures SliceLength(Compose(outer, sec)) == SliceLength(sec)
  {
    var r, c := Compose(outer, sec), outer.step;
    var m := if SliceLength(r) < SliceLength(sec) then SliceLength(r) else SliceLength(sec);
    SliceLengthCounts(r, m);
    SliceLengthCounts(sec, m);
    ComposePositions(outer, sec, m);
    if c > 0 {
      MulLt(c, Pos(sec, m), sec.stop);
    } else {
      MulLt(-c, Pos(sec, m), sec.stop);
      assert c * sec.stop == -((-c) * sec.stop);
      assert c * Pos(sec, m) == -((-c) * Pos(sec, m));
    }
  }

  /** When the section's step is positive and the outer `__len__` is exact, a
      view over a view selects the same elements as Python's `S[s1][s2]`,
      whatever the direction of the outer view. */
  lemma ForwardSectionMatchesSlicing<T>(e: seq<T>, s1: Slice, s2: Slice)
    requires Construct(Builtin(e), s1).Ok?
    requires ExactLen(Construct(Builtin(e), s1).value)
    requires s2.step.None? || s2.step.value > 0
    ensures Construct(Construct(Builtin(e), s1).value, s2).Ok?
    ensures PySlice(e, s1).Ok? && PySlice(PySlice(e, s1).value, s2).Ok?
    ensures NormalizedFor(Construct(Construct(Builtin(e), s1).value, s2).value.range, |e|)
    ensures SliceItems(e, Construct(Construct(Builtin(e), s1).value, s2).value.range)
         == PySlice(PySlice(e, s1).value, s2).value
  {
    var v := Construct(Builtin(e), s1).value;
    var r1, n := v.range, Len(v);
    LenSign(v);
    LenVersusSliceLength(v);
    var l1 := PySlice(e, s1).value;
    assert |l1| == n;
    var sec := Indices(s2, n).value;
    var r := Construct(v, s2).value.range;
    assert r == Compose(r1, sec);
    ForwardSectionBounds(r1, n, |e|, sec);
    ForwardSectionCount(r1, sec);
    var lhs, rhs := SliceItems(e, r), SliceItems(l1, sec);
    forall k | 0 <= k < |lhs|
      ensures lhs[k] == rhs[k]
    {
      ComposePositions(r1, sec, k);
    }
  }
}
