/** Python built-in behaviour the view relies on: the exceptions it can raise,
    floor division `//`, `slice.indices`, indexing a tuple or list by an int,
    and slicing a tuple or list by a slice. */
module PyBuiltins {

  datatype Option<T> = None | Some(value: T)

  /** Why a ValueError was raised. */
  datatype ValueReason =
    | ZeroStep        // "slice step cannot be zero"
    | NegativeLength  // "__len__() should return >= 0", raised by the builtin len()

  datatype Error = ValueError(reason: ValueReason) | TypeError | IndexError

  datatype Result<T> = Ok(value: T) | Err(error: Error)

  /** A slice object as written by the caller: any field may be omitted (None). */
  datatype Slice = Slice(start: Option<int>, stop: Option<int>, step: Option<int>)

  /** A slice whose three fields are plain ints, as `slice.indices` returns them. */
  datatype Range = Range(start: int, stop: int, step: int)

  /** Python's `a // b`: the quotient rounded toward negative infinity. */
  function FloorDiv(a: int, b: int): (q: int)
    requires b != 0
    ensures b > 0 ==> b * q <= a < b * q + b
    ensures b < 0 ==> b * q + b < a <= b * q
  {
    if b > 0 then a / b else (-a) / (-b)
  }

  /** The quotient with remainder of the same sign as the divisor is unique,
      so FloorDiv is Python's `//` and nothing else. */
  lemma FloorDivUnique(a: int, b: int, q: int)
    requires b > 0 ==> b * q <= a < b * q + b
    requires b < 0 ==> b * q + b < a <= b * q
    requires b != 0
    ensures q == FloorDiv(a, b)
  {
    var f := FloorDiv(a, b);
    if b > 0 {
      if q < f { MulLe(b, q + 1, f); }
      if f < q { MulLe(b, f + 1, q); }
    } else {
      if q < f { MulLe(-b, q + 1, f); }
      if f < q { MulLe(-b, f + 1, q); }
    }
  }

  lemma MulLe(b: int, i: int, j: int)
    requires b >= 0 && i <= j
    ensures b * i <= b * j
  {
  }

  /** `k <= x // b` exactly when `b * k <= x`, for a positive divisor. */
  lemma DivLe(x: int, b: int, k: int)
    requires b > 0
    ensures k <= x / b <==> b * k <= x
  {
    var q := x / b;
    assert b * q + x % b == x;
    if k <= q {
      MulLe(b, k, q);
    } else {
      MulLe(b, q + 1, k);
    }
  }

  /** Direction-dependent lowest and highest bound `slice.indices` produces. */
  function Lower(step: int): (lo: int) { if step < 0 then -1 else 0 }
  function Upper(step: int, n: nat): (hi: int) { if step < 0 then n - 1 else n }

  /** The bounds a range may take once `slice.indices(n)` has normalized it. */
  predicate NormalizedFor(r: Range, n: nat) {
    && r.step != 0
    && Lower(r.step) <= r.start <= Upper(r.step, n)
    && Lower(r.step) <= r.stop <= Upper(r.step, n)
  }

  /** One bound of `slice.indices`: an omitted bound takes the default, a
      negative one counts from the end, and the result is clamped. */
  function AdjustBound(x: Option<int>, default: int, n: nat, step: int): (b: int)
    requires step != 0 && Lower(step) <= default <= Upper(step, n)
    ensures Lower(step) <= b <= Upper(step, n)
    ensures x.None? ==> b == default
    ensures x.Some? && 0 <= x.value <= Upper(step, n) ==> b == x.value
    ensures x.Some? && x.value < 0 && Lower(step) <= x.value + n ==> b == x.value + n
    ensures x.Some? && x.value < 0 && x.value + n < Lower(step) ==> b == Lower(step)
    ensures x.Some? && x.value > Upper(step, n) ==> b == Upper(step, n)
  {
    match x
    case None => default
    case Some(v) =>
      if v < 0 then
        (if v + n < Lower(step) then Lower(step) else v + n)
      else if v > Upper(step, n) then Upper(step, n)
      else v
  }

  /** `section.indices(n)`: the step defaults to 1 and may not be 0; an
      omitted start is the first position in the step's direction, an omitted
      stop the position just past the last one. */
  function Indices(section: Slice, n: nat): (r: Result<Range>)
    ensures r.Err? <==> section.step == Some(0)
    ensures r.Err? ==> r.error == ValueError(ZeroStep)
    ensures r.Ok? ==> NormalizedFor(r.value, n)
    ensures r.Ok? ==> r.value.step == (if section.step.Some? then section.step.value else 1)
  {
    var step := if section.step.Some? then section.step.value else 1;
    if step == 0 then Err(ValueError(ZeroStep))
    else
      var start := AdjustBound(section.start, if step < 0 then Upper(step, n) else Lower(step), n, step);
      var stop := AdjustBound(section.stop, if step < 0 then Lower(step) else Upper(step, n), n, step);
      Ok(Range(start, stop, step))
  }

  /** Normalizing a range that is already normalized, with no bound below 0,
      gives it back unchanged. */
  lemma IndicesIdempotent(r: Range, n: nat)
    requires NormalizedFor(r, n) && r.start >= 0 && r.stop >= 0
    ensures Indices(Slice(Some(r.start), Some(r.stop), Some(r.step)), n) == Ok(r)
  {
  }

  /** The k-th position a range visits. */
  function Pos(r: Range, k: int): (p: int) { r.start + r.step * k }

  /** Position p lies strictly before the stop, in the range's direction. */
  predicate BeforeStop(r: Range, p: int) {
    if r.step > 0 then p < r.stop else p > r.stop
  }

  /** How many positions `S[r.start:r.stop:r.step]` selects (rounding up).
      The slice is non-empty exactly when its start lies before its stop. */
  function SliceLength(r: Range): (count: nat)
    requires r.step != 0
    ensures count > 0 <==> BeforeStop(r, r.start)
  {
    if r.step > 0 then
      (if r.start < r.stop then (r.stop - r.start - 1) / r.step + 1 else 0)
    else
      (if r.stop < r.start then (r.start - r.stop - 1) / (-r.step) + 1 else 0)
  }

  /** SliceLength counts exactly the positions that come before the stop. */
  lemma SliceLengthCounts(r: Range, k: nat)
    requires r.step != 0
    ensures k < SliceLength(r) <==> BeforeStop(r, Pos(r, k))
  {
    if r.step > 0 {
      MulLe(r.step, 0, k);
      if r.start < r.stop {
        DivLe(r.stop - r.start - 1, r.step, k);
      }
    } else {
      MulLe(-r.step, 0, k);
      assert r.step * k == -((-r.step) * k);
      if r.stop < r.start {
        DivLe(r.start - r.stop - 1, -r.step, k);
      }
    }
  }

  /** Every position a normalized range selects lies inside the sequence. */
  lemma PositionsInBounds(r: Range, n: nat)
    requires NormalizedFor(r, n)
    ensures forall k :: 0 <= k < SliceLength(r) ==> 0 <= Pos(r, k) < n
  {
    forall k | 0 <= k < SliceLength(r)
      ensures 0 <= Pos(r, k) < n
    {
      SliceLengthCounts(r, k);
      if r.step > 0 {
        MulLe(r.step, 0, k);
      } else {
        MulLe(-r.step, 0, k);
        assert r.step * k == -((-r.step) * k);
      }
    }
  }

  /** The elements `e[r.start:r.stop:r.step]` of a tuple or list. */
  function SliceItems<T>(e: seq<T>, r: Range): (out: seq<T>)
    requires NormalizedFor(r, |e|)
    ensures |out| == SliceLength(r)
    ensures forall k :: 0 <= k < |out| ==> 0 <= Pos(r, k) < |e| && out[k] == e[Pos(r, k)]
  {
    PositionsInBounds(r, |e|);
    seq(SliceLength(r), k requires 0 <= k < SliceLength(r) => e[Pos(r, k)])
  }

  /** `e[section]` for a tuple or list `e`. */
  function PySlice<T>(e: seq<T>, section: Slice): (r: Result<seq<T>>)
    ensures r.Err? <==> section.step == Some(0)
    ensures r.Ok? ==> r.value == SliceItems(e, Indices(section, |e|).value)
  {
    match Indices(section, |e|)
    case Err(x) => Err(x)
    case Ok(rg) => Ok(SliceItems(e, rg))
  }

  /** `e[p]` for a tuple or list `e`: a negative position counts from the
      end, anything outside `-len(e) <= p < len(e)` raises IndexError. */
  function TupleRead<T>(e: seq<T>, p: int): (r: Result<T>)
    ensures r.Ok? <==> -|e| <= p < |e|
    ensures r.Err? ==> r.error == IndexError
    ensures 0 <= p < |e| ==> r == Ok(e[p])
    ensures -|e| <= p < 0 ==> r == Ok(e[|e| + p])
  {
    if 0 <= p < |e| then Ok(e[p])
    else if -|e| <= p < 0 then Ok(e[|e| + p])
    else Err(IndexError)
  }
}
