# Subsequence: a verified model of a slice view

`bonus_collections.Subsequence` is a read-only view of a section of a Python
sequence: `Subsequence(seq, slice(a, b, c))` behaves like `seq[a:b:c]` but
copies nothing. It stores two slots: `_source`, the backing sequence, and
`_range`, a `slice` of three ints. Built over a tuple or list, the range is
`slice.indices(len(seq))` of the section. Built over another `Subsequence`,
it is the composition of the two ranges, and the view keeps the inner view's
source, so a view never holds a view. A composed range need not be one that
`slice.indices` could return: reversing `Subsequence(S, slice(None, None, -1))`
gives (0, -1, 1). The object never changes after `__init__`.

This project models that class as Dafny datatypes and functions and proves
what it does, including where it does not behave like Python's own slicing.

- `PyBuiltins.dfy` holds the Python built-ins the class relies on:
  `slice.indices`, floor division `//`, indexing and slicing a tuple or list,
  and the exceptions (`ValueError`, `TypeError`, `IndexError`) as a `Result`.
- `Subsequence.dfy` (module `BonusCollections`) holds the class itself.
  `Sequence<T>` is either a built-in tuple or list or a `Subsequence` with its
  two slots. The flattening invariant is therefore a property to prove
  (`Flat`), not something the types force.
- `Properties.dfy` states the class's behaviour over all inputs.
- `Scenarios.dfy` states lemmas about the repository's test cases over the
  tuple 0..9, and about the inputs on which the view differs from Python
  slicing.

The class's docstring (src/bonus_collections/__init__.py:13-16) says a view
"behaves similarly to" `seq[start:stop:step]`. The model follows the code as
written, and proves where it agrees with Python's own slicing and where not:

- `__len__` is `(stop - start) // step`, rounded down, where Python's slice
  length rounds up. It undercounts when the step does not divide the
  distance: `Subsequence(S, slice(3, 8, 2))` has length 2 where `S[3:8:2]`
  has 3 elements. Both the undercount and the exact case are proved.
- `v[i]` reads `_source[start + step * i]`. Nothing checks `i` against the
  view's own range. A negative `i` is not counted from the end of the view,
  as it would be in `S[a:b:c][i]`.
- Composition maps the section through the outer range and clips the stop
  with `min` or `max`, chosen by the sign of the combined step. When the
  section's step is positive, the mapped stop never passes the outer stop,
  the rule picks it, and the view selects the elements of Python's
  `S[s1][s2]`, for either direction of the outer view, provided the outer
  length is exact. When the section's step is negative, the rule clips on the
  wrong side: the two inputs proved here give an empty view where Python's
  `S[3:8][::-1]` and `S[::-1][::-1]` are not empty.
- The builtin `len()` raises `ValueError` on a view whose `__len__` is
  negative, so building a view over such a view raises it too.

## Model

| member | source | states |
|---|---|---|
| `PyBuiltins.FloorDiv` | src/bonus_collections/__init__.py:72 | the quotient of `//` rounds toward negative infinity: `b*q <= a < b*q + b` for a positive divisor, and the mirror bounds for a negative one |
| `PyBuiltins.FloorDivUnique` | src/bonus_collections/__init__.py:72 | any quotient meeting the floor bounds equals `FloorDiv`, so it is Python's `//` and nothing else |
| `PyBuiltins.AdjustBound` | src/bonus_collections/__init__.py:24 | one bound of `slice.indices`: an omitted bound takes the default; an in-range bound is kept; a negative bound is counted from the end, or clamped to the lower bound; a bound past the upper bound is clamped to it |
| `PyBuiltins.Indices` | src/bonus_collections/__init__.py:24 | `slice.indices(n)` fails with `ValueError` exactly when the step is 0; the step defaults to 1; start and stop lie in `[0, n]` for a positive step and in `[-1, n-1]` for a negative one |
| `PyBuiltins.IndicesIdempotent` | src/bonus_collections/__init__.py:24 | normalizing an already normalized range with no bound below 0 gives it back unchanged |
| `PyBuiltins.SliceLength` | src/bonus_collections/test.py:25-28 | the number of elements of Python's `S[a:b:c]` for a normalized range (CPython's rounding-up count); it is non-zero exactly when the start lies before the stop in the step's direction |
| `PyBuiltins.SliceLengthCounts` | src/bonus_collections/test.py:25-28 | the number of elements in Python's `S[a:b:c]` is exactly the number of positions `start + step*k`, `k >= 0`, that lie before the stop in the step's direction |
| `PyBuiltins.PositionsInBounds` | src/bonus_collections/test.py:25-28 | every position a normalized slice selects lies inside the sequence |
| `PyBuiltins.SliceItems` | src/bonus_collections/test.py:25-28 | the elements of `S[a:b:c]`: as many as the slice length, the k-th being `S[start + step*k]`, with every such position in bounds |
| `PyBuiltins.PySlice` | src/bonus_collections/test.py:15-18 | Python's `S[slice]` on a tuple or list fails exactly on a zero step and otherwise gives the elements of the normalized range |
| `PyBuiltins.TupleRead` | src/bonus_collections/__init__.py:69 | indexing the backing tuple or list succeeds exactly when `-len <= p < len`, counts a negative position from the end, and otherwise raises `IndexError` |
| `BonusCollections.Len` | src/bonus_collections/__init__.py:71-72 | `__len__` is the floor of `(stop - start) / step`, which may be negative |
| `BonusCollections.PyLen` | src/bonus_collections/__init__.py:24 | `len(seq)` is the length of a tuple or list, or the view's `__len__` when that is at least 0; otherwise it raises `ValueError` |
| `BonusCollections.Truthy` | src/bonus_collections/__init__.py:39-42 | a view is truthy exactly when Python's slice with the same range would be non-empty, and a truthy view has `start != stop` |
| `BonusCollections.Compose` | src/bonus_collections/__init__.py:27-34 | the combined step is non-zero and positive exactly when both steps have the same sign; the combined stop is the outer stop or the mapped section stop, whichever is nearer in the combined direction, so it never passes the outer stop in that direction |
| `BonusCollections.ComposePositions` | src/bonus_collections/__init__.py:27-31 | the k-th position of the combined range is the outer range's position of the section's k-th position |
| `BonusCollections.Construct` | src/bonus_collections/__init__.py:23-37 | construction fails exactly when `len(seq)` raises or the step is 0, with the matching `ValueError`; a result always has a non-zero step; its source is `seq._source` for a view and `seq` otherwise, so it is flat whenever `seq` is; over a tuple or list its range is `slice.indices(len(seq))`; over a view it is the composition with the section normalized against the view's length |
| `BonusCollections.Read` | src/bonus_collections/__init__.py:69 | `seq[p]` on the backing sequence can only fail with `IndexError`; on a tuple or list it succeeds exactly for `-len <= p < len` |
| `BonusCollections.GetIndex` | src/bonus_collections/__init__.py:67-69 | `v[i]` can only fail with `IndexError`; on a flat view it succeeds exactly when `start + step*i` is a valid Python index of the source (a negative one counting from its end), whatever the view's own range; a position in `[0, len)` reads that element |
| `BonusCollections.GetSlice` | src/bonus_collections/__init__.py:63-66 | `v[a:b:c]` raises `TypeError` exactly when a field is omitted; otherwise it is `Subsequence(v._source, slice(a, b, c))`, flat, over the same source, with range `slice.indices(len(v._source))` |
| `BonusCollections.Copy` | src/bonus_collections/__init__.py:44-45 | `copy(v)` shares the source and the range of `v` |
| `BonusCollections.Eval` | src/bonus_collections/__init__.py:23-66 | whichever sequence of constructions and slicings built a view, it is flat, its step is non-zero, and its source is the tuple or list the first construction was given |
| `SubsequenceProperties.LenSign` | src/bonus_collections/__init__.py:39-72 | a truthy view has `__len__ >= 0`, a falsy one `__len__ <= 0`; `__len__` is negative exactly when the view is falsy with `start != stop`, and then `len()` and any construction over the view raise `ValueError` |
| `SubsequenceProperties.LenVersusSliceLength` | src/bonus_collections/__init__.py:71-72 | for a truthy view `__len__` is the Python slice length or one less, equal exactly when `step * len == stop - start`; a falsy view's slice is empty |
| `SubsequenceProperties.ReadMatchesSlicing` | src/bonus_collections/__init__.py:67-69 | for a directly built view and every `0 <= i < len(S[a:b:c])`, the position read is inside the source and `v[i] == S[a:b:c][i]` |
| `SubsequenceProperties.ReadWithinLen` | src/bonus_collections/__init__.py:67-72 | for a directly built view and every `0 <= i < len(v)`, the position read is inside the source and `v[i] == S[a:b:c][i]` |
| `SubsequenceProperties.FlatteningPreservesReads` | src/bonus_collections/__init__.py:25-34 | reading the flattened view built over a view gives what a view holding the outer view as its source would give |
| `SubsequenceProperties.GetSliceIgnoresRange` | src/bonus_collections/__init__.py:63-66 | two views over the same source give the same result for the same slice key |
| `SubsequenceProperties.ForwardSectionBounds` | src/bonus_collections/__init__.py:27-34 | composing an exact outer range, of either direction, with a forward section keeps the result normalized against the source, and the `min`/`max` rule picks the mapped section stop |
| `SubsequenceProperties.ForwardSectionCount` | src/bonus_collections/__init__.py:27-34 | when the composed stop is the mapped section stop, the composed range selects exactly as many positions as the section |
| `SubsequenceProperties.ForwardSectionMatchesSlicing` | src/bonus_collections/__init__.py:24-34 | when the section's step is positive and the outer length is exact, the view over a view selects the elements of Python's `S[s1][s2]`, whatever the outer step |
| `SubsequenceScenarios.BasicView` | src/bonus_collections/test.py:15-18 | `Subsequence(S, slice(3, 8))` has range (3, 8, 1) and length 5; its reads at 0..4 are `S[3:8]`; reads at 5 and 6 go past the stop, and 7 raises `IndexError` |
| `SubsequenceScenarios.IndexedRead` | src/bonus_collections/test.py:20-23 | `Subsequence(S, slice(3, 8))[2] == S[3:8][2] == 5` |
| `SubsequenceScenarios.SteppedViewUndercounts` | src/bonus_collections/test.py:25-28 | `Subsequence(S, slice(3, 8, 2))` has length 2 while `S[3:8:2]` has 3 elements; it reads 3, 5, 7 |
| `SubsequenceScenarios.NestedView` | src/bonus_collections/test.py:30-34 | over the inner view of length 2, `slice(3)` normalizes to (0, 2, 1) and the result is range (3, 7, 2) over S |
| `SubsequenceScenarios.NestedViewReads` | src/bonus_collections/test.py:30-34 | the nested view has length 2 and reads 3, 5, 7 |
| `SubsequenceScenarios.NegativeStop` | src/bonus_collections/test.py:36-39 | `Subsequence(S, slice(3, -1))` has range (3, 9, 1) and length 6, the length of `S[3:-1]` |
| `SubsequenceScenarios.NegativeKeyReadsBeforeStart` | src/bonus_collections/__init__.py:67-69 | `Subsequence(S, slice(3, 8))[-1]` reads 2, where `S[3:8][-1]` is 7 |
| `SubsequenceScenarios.ReversedForwardViewIsEmpty` | src/bonus_collections/__init__.py:27-34 | reversing `Subsequence(S, slice(3, 8))` gives range (7, 8, -1): falsy, `__len__` -1, `len()` raises; `S[3:8][::-1]` has 5 elements |
| `SubsequenceScenarios.ReversedView` | src/bonus_collections/__init__.py:24 | `Subsequence(S, slice(None, None, -1))` has range (9, -1, -1) |
| `SubsequenceScenarios.DoubleReversalIsEmpty` | src/bonus_collections/__init__.py:27-34 | reversing that reversed view gives range (0, -1, 1): falsy with `__len__` -1 |
| `SubsequenceScenarios.ForwardSectionOfReversedView` | src/bonus_collections/__init__.py:24-34 | `slice(2, 5)` over the reversed view gives range (7, 4, -1): truthy, length 3, selecting 7, 6, 5, which is `S[::-1][2:5]` |
| `SubsequenceScenarios.DoubleReversalOfTuple` | src/bonus_collections/__init__.py:30-32 | Python's `S[::-1][::-1]` is S, which the composed view is not |
| `SubsequenceScenarios.RejectedKeys` | src/bonus_collections/__init__.py:63-66 | a zero step raises `ValueError`; `v[1:3]` raises `TypeError` because its step is omitted; `v[1:3:1]` is range (1, 3, 1) over S |

## Left out

- `__deepcopy__` (src/bonus_collections/__init__.py:47-48): it calls the foreign `copy.deepcopy` on every element and relies on inherited iteration. Its signature also lacks the `memo` argument that `copy.deepcopy` passes.
- `__repr__` and `__str__` (src/bonus_collections/__init__.py:74-81): string formatting of an arbitrary source's repr. Their `None` branches are dead, because `_range` is always normalized.
- The methods inherited from `collections.abc.Sequence` (`__iter__`, `__contains__`, `__reversed__`, `index`, `count`) and equality: they are not in the repository. `__iter__` calls `v[i]` until the source raises `IndexError`, so it reads past the stop. The repository's tuple-equality tests therefore do not hold of this code, and no lemma claims them. `BasicView` shows the reads past the stop.
- The typing machinery (`TypeVar`, `Generic`, the `@overload` stubs) and `operator.index` on non-int objects: a key is an int or omitted.
- The backing sequence is a value here. The live-view aspect, where a later mutation of a list shows through the view, is not modelled. Reads on backing types other than tuple and list are not modelled either: they follow tuple indexing.
- SubsequenceProperties.ForwardSectionMatchesSlicing: matching `S[s1][s2]` is proved only for a section with a positive step and an outer view whose length is exact. With a negative section step it does not hold (`ReversedForwardViewIsEmpty`, `DoubleReversalIsEmpty`). With an inexact outer length the section is normalized against the undercounted length (`SteppedViewUndercounts`), so it holds only for some sections, and no lemma characterizes which.
- The unittest harness (src/bonus_collections/test.py): its cases appear only as concrete lemmas.
