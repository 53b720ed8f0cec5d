/** The `Subsequence` view of src/bonus_collections/__init__.py: an immutable
    pair of a backing sequence and a normalized (start, stop, step) range. */
module BonusCollections {
  import opened PyBuiltins

  /** A sequence the view can be built over: a built-in tuple or list, or a
      `Subsequence` with its two slots `_source` and `_range`. */
  datatype Sequence<T> =
    | Builtin(items: seq<T>)
    | Subsequence(source: Sequence<T>, range: Range)

  /** A view's backing sequence is never itself a view. */
  predicate Flat<T>(s: Sequence<T>) {
    s.Subsequence? ==> s.source.Builtin?
  }

  /** A view whose step is not 0, so that `__len__` does not divide by zero. */
  predicate StepNonZero<T>(s: Sequence<T>) {
    s.Subsequence? ==> s.range.step != 0
  }

  /** What every view this module builds satisfies. */
  predicate Valid<T>(s: Sequence<T>) {
    Flat(s) && StepNonZero(s)
  }

  /** `__len__`: the floor of (stop - start) / step, which may be negative. */
  function Len<T>(v: Sequence<T>): (n: int)
    requires v.Subsequence? && v.range.step != 0
    ensures v.range.step > 0 ==> v.range.step * n <= v.range.stop - v.range.start < v.range.step * (n + 1)
    ensures v.range.step < 0 ==> v.range.step * (n + 1) < v.range.stop - v.range.start <= v.range.step * n
  {
    FloorDiv(v.range.stop - v.range.start, v.range.step)
  }

  /** The builtin `len(s)`: the length of a tuple or list, or `__len__` of a
      view, which `len` rejects with a ValueError when it is negative. */
  function PyLen<T>(s: Sequence<T>): (r: Result<nat>)
    requires StepNonZero(s)
    ensures s.Builtin? ==> r == Ok(|s.items|)
    ensures s.Subsequence? ==> (r.Ok? <==> Len(s) >= 0)
    ensures s.Subsequence? && r.Ok? ==> r.value == Len(s)
    ensures r.Err? ==> r.error == ValueError(NegativeLength)
  {
    match s
    case Builtin(e) => Ok(|e|)
    case Subsequence(_, _) =>
      var n := Len(s);
      if n < 0 then Err(ValueError(NegativeLength)) else Ok(n)
  }

  /** `__bool__`: a view is truthy exactly when Python's slice with the same
      range over its source would be non-empty. */
  function Truthy<T>(v: Sequence<T>): (b: bool)
    requires v.Subsequence?
    ensures b ==> v.range.stop != v.range.start
    ensures v.range.step != 0 ==> (b <==> SliceLength(v.range) > 0)
  {
    v.range.stop != v.range.start && (v.range.stop > v.range.start) == (v.range.step >= 0)
  }

  /** The combined range of a view built over a view: the section (already
      normalized against the outer view's length) is mapped through the outer
      range, and the stop is clipped to the outer stop in the direction of the
      combined step. */
  function Compose(outer: Range, section: Range): (r: Range)
    requires outer.step != 0 && section.step != 0
    ensures r.step != 0 && (r.step > 0 <==> (outer.step > 0) == (section.step > 0))
    ensures r.stop == outer.stop || r.stop == Pos(outer, section.stop)
    ensures r.step > 0 ==> r.stop <= outer.stop && r.stop <= Pos(outer, section.stop)
    ensures r.step < 0 ==> r.stop >= outer.stop && r.stop >= Pos(outer, section.stop)
  {
    var step := outer.step * section.step;
    var innerStop := outer.start + section.stop * outer.step;
    Range(
      outer.start + section.start * outer.step,
      if step < 0 then Max(outer.stop, innerStop) else Min(outer.stop, innerStop),
      step)
  }

  /** The k-th position of the composed range is the outer range's position
      of the section's k-th position. */
  lemma ComposePositions(outer: Range, section: Range, k: int)
    requires outer.step != 0 && section.step != 0
    ensures Pos(Compose(outer, section), k) == Pos(outer, Pos(section, k))
  {
  }

  function Min(a: int, b: int): (m: int) { if a <= b then a else b }
  function Max(a: int, b: int): (m: int) { if a >= b then a else b }

  /** `Subsequence(seq, section)`: normalize the section against `len(seq)`;
      over a view, compose with its range and keep its source, otherwise keep
      `seq` itself as the source. */
  function Construct<T>(s: Sequence<T>, section: Slice): (r: Result<Sequence<T>>)
    requires StepNonZero(s)
    ensures r.Err? <==> PyLen(s).Err? || section.step == Some(0)
    ensures PyLen(s).Err? ==> r == Err(ValueError(NegativeLength))
    ensures PyLen(s).Ok? && section.step == Some(0) ==> r == Err(ValueError(ZeroStep))
    ensures r.Ok? ==> r.value.Subsequence? && r.value.range.step != 0
    ensures r.Ok? ==> r.value.source == (if s.Subsequence? then s.source else s)
    ensures r.Ok? && Flat(s) ==> Flat(r.value)
    ensures r.Ok? && s.Builtin? ==>
      NormalizedFor(r.value.range, |s.items|) && Ok(r.value.range) == Indices(section, |s.items|)
    ensures r.Ok? && s.Subsequence? ==>
      r.value.range == Compose(s.range, Indices(section, Len(s)).value)
  {
    match PyLen(s)
    case Err(x) => Err(x)
    case Ok(n) =>
      match Indices(section, n)
      case Err(x) => Err(x)
      case Ok(sec) =>
        if s.Subsequence? then Ok(Subsequence(s.source, Compose(s.range, sec)))
        else Ok(Subsequence(s, sec))
  }

  /** `s[p]` for any sequence: built-in indexing for a tuple or list, the
      view's own `__getitem__` for a view. */
  function Read<T>(s: Sequence<T>, p: int): (r: Result<T>)
    ensures r.Err? ==> r.error == IndexError
    ensures s.Builtin? ==> (r.Ok? <==> -|s.items| <= p < |s.items|)
    decreases s, 1
  {
    match s
    case Builtin(e) => TupleRead(e, p)
    case Subsequence(_, _) => GetIndex(s, p)
  }

  /** `__getitem__` with an int key: read the source at start + step * i,
      with no check against the view's own range. */
  function GetIndex<T>(v: Sequence<T>, i: int): (r: Result<T>)
    requires v.Subsequence?
    ensures r.Err? ==> r.error == IndexError
    ensures Flat(v) ==> (r.Ok? <==> -|v.source.items| <= Pos(v.range, i) < |v.source.items|)
    ensures Flat(v) && 0 <= Pos(v.range, i) < |v.source.items| ==> r == Ok(v.source.items[Pos(v.range, i)])
    decreases v, 0
  {
    Read(v.source, v.range.start + v.range.step * i)
  }

  /** `__getitem__` with a slice key: every field must be an int (None fails
      `operator.index` with a TypeError); the result is a fresh view over the
      same source, normalized against the source's length. */
  function GetSlice<T>(v: Sequence<T>, key: Slice): (r: Result<Sequence<T>>)
    requires v.Subsequence? && StepNonZero(v.source)
    ensures r == Err(TypeError) <==> key.start.None? || key.stop.None? || key.step.None?
    ensures key.start.Some? && key.stop.Some? && key.step.Some? ==> r == Construct(v.source, key)
    ensures Flat(v) && r.Ok? ==>
      Flat(r.value) && r.value.source == v.source
      && Ok(r.value.range) == Indices(key, |v.source.items|)
  {
    if key.start.None? || key.stop.None? || key.step.None? then Err(TypeError)
    else Construct(v.source, key)
  }

  /** `__copy__`: the view itself, sharing its source. */
  function Copy<T>(v: Sequence<T>): (r: Sequence<T>)
    requires v.Subsequence?
    ensures r.Subsequence? && r.source == v.source && r.range == v.range
  {
    v
  }

  /** The ways client code obtains a view: construction over a tuple or
      list, construction over a view obtained earlier, and slicing a view
      obtained earlier. */
  datatype Build<T> =
    | Direct(items: seq<T>, section: Slice)
    | Nested(inner: Build<T>, section: Slice)
    | Sliced(inner: Build<T>, key: Slice)

  /** The tuple or list at the bottom of a build. */
  function Base<T>(b: Build<T>): (e: seq<T>) {
    match b
    case Direct(e, _) => e
    case Nested(inner, _) => Base(inner)
    case Sliced(inner, _) => Base(inner)
  }

  /** The view a build produces, or the error it raises. Whatever the path,
      the view is flat, its step is not 0, and its source is the tuple or
      list the build started from. */
  function Eval<T>(b: Build<T>): (r: Result<Sequence<T>>)
    ensures r.Ok? ==> r.value.Subsequence? && Valid(r.value)
    ensures r.Ok? ==> r.value.source == Builtin(Base(b))
  {
    match b
    case Direct(e, section) => Construct(Builtin(e), section)
    case Nested(inner, section) =>
      (match Eval(inner)
       case Err(x) => Err(x)
       case Ok(v) => Construct(v, section))
    case Sliced(inner, key) =>
      (match Eval(inner)
       case Err(x) => Err(x)
       case Ok(v) => GetSlice(v, key))
  }
}
