# Reference-frame time axes

This project models the time axis of the reference frames in `reference_frames.py`. A
`ReferenceFrame` stores one sample sequence, `time_list`. Three views are read from it:
the start time (the first sample), the end time (the last sample) and the number of points
(the length). Setting any view does not edit a sample. It rebuilds the whole sequence as
`linspace(start, end, count)`, using the new value for the view being set and the current
values of the other two. A `RotatingFrame` stores a frequency and starts with the default
time axis `[0, 0]`.

The model works over exact reals, so `linspace` is the exact evenly spaced sequence.
The modules are:

- `Spacing`: `Linspace`, the predicates `EvenlySpaced` and `Ascending`, and the facts
  about them. The main one is `LinspaceUnique`: an evenly spaced sequence of at least two
  points equals the `Linspace` of its own endpoints and length.
- `TimeAxis`: the views `Start`, `End` and `Count` over a sample sequence. The setters'
  effects are the functions `WithStart`, `WithEnd` and `WithCount`. Lemmas relate the
  setters to each other and to the views.
- `ReferenceFrames`: the class `ReferenceFrame` has a `seq<real>` field `timeList`. Its
  getters are `reads this` functions, so reading a view changes nothing. Its setters are
  `modifies this` methods that replace `timeList`. The class `RotatingFrame` holds a
  `frequency` and an owned `ReferenceFrame` that starts with the default axis.
- `Rotation`: the 2x2 operator `c * I + i * s * sigma_y` over exact complex numbers, for
  given cosine and sine values `c` and `s`.

Python's `RotatingFrame` inherits from `ReferenceFrame`. The model uses composition
instead: a `RotatingFrame` owns a `ReferenceFrame` in its `frame` field. Every time-axis
operation of a rotating frame is the same operation on `frame`.

The edge cases follow what the code does:

- Nothing keeps an axis at two or more samples. A setter needs at least one sample,
  because it reads the current start or end.
- Setting the number of points to 1 keeps only the start. Setting it to 0 leaves the
  axis empty.
- Setting the end of a one-sample axis keeps `[start]`, so the end does not become the
  new value. This is numpy's `linspace` with `num == 1`.
- Setting the count to 0 is accepted: numpy returns an empty array
  (reference_frames.py:52-55), and the model allows it too.

## Model

| member | source | states |
|---|---|---|
| `Spacing.Linspace` | reference_frames.py:30-32 | `linspace(a, b, n)` has exactly `n` points. The first is `a` when `n >= 1`. The last is `b` when `n >= 2`, so the start, end and count of `linspace(a, b, n)` with `n >= 2` are `a`, `b` and `n`. |
| `Spacing.LinspaceEvenlySpaced` | reference_frames.py:30-32 | The points of `linspace` are evenly spaced: every neighbouring difference equals the first. |
| `Spacing.LinspaceAt` | reference_frames.py:30-32 | For `n >= 2`, point `k` of `linspace(a, b, n)` is `a + k*(b-a)/(n-1)`. |
| `Spacing.EvenlySpacedAt` | reference_frames.py:30-32 | In an evenly spaced sequence, element `k` is element 0 plus `k` times the first difference. |
| `Spacing.LinspaceUnique` | reference_frames.py:30-32 | The only evenly spaced sequence of `n >= 2` points from `a` to `b` is `linspace(a, b, n)`. |
| `Spacing.LinspaceAscending` | reference_frames.py:30-32 | When `a <= b`, `linspace(a, b, n)` is in ascending order. |
| `TimeAxis.WithStart` | reference_frames.py:26-33 | Setting the start to `t` keeps the count and makes the start `t`. With two or more points the end is kept. A one-point axis becomes `[t]`. The new axis is evenly spaced. |
| `TimeAxis.WithEnd` | reference_frames.py:40-44 | Setting the end to `t` keeps the start and the count. With two or more points the end becomes `t`. A one-point axis is unchanged. The new axis is evenly spaced. |
| `TimeAxis.WithCount` | reference_frames.py:51-55 | Setting the count to `n` gives `n` points. The start is kept if `n >= 1` and the end if `n >= 2`. `n == 1` gives `[start]`. The new axis is evenly spaced. |
| `TimeAxis.LinspaceOfViews` | reference_frames.py:18-55 | A non-empty axis equals the `linspace` of its own start, end and count exactly when it is evenly spaced (both directions). |
| `TimeAxis.SampleAt` | reference_frames.py:30-55 | On an evenly spaced axis (which every setter produces), sample `k` is `start + k*(end-start)/(count-1)`. |
| `TimeAxis.SetToCurrentIsNoOp` | reference_frames.py:26-55 | Setting start, end or count to its current value leaves a non-empty axis unchanged exactly when the axis is evenly spaced. Otherwise the uneven samples are replaced. |
| `TimeAxis.OnlyViewsMatter` | reference_frames.py:26-55 | Each setter's result depends only on the axis's start, end and count. Any other content of the earlier samples is discarded. |
| `TimeAxis.StartEndCommute` | reference_frames.py:26-44 | On a non-empty axis, setting start `a` and end `b` in either order gives `linspace(a, b, count)` (`[a]` on a one-point axis). |
| `TimeAxis.SettersIdempotent` | reference_frames.py:26-55 | Setting the same start, end or (nonzero) count twice gives the same axis as setting it once. |
| `TimeAxis.SettersKeepAscending` | reference_frames.py:26-55 | A setter whose resulting start is no later than its resulting end produces an ascending axis. |
| `ReferenceFrames.ReferenceFrame.Default` | reference_frames.py:15-16 | A default frame has `timeList == [0, 0]`, so start = end = 0 and count = 2. |
| `ReferenceFrames.ReferenceFrame.constructor` | reference_frames.py:15-16 | A frame built from a sample sequence stores it unchanged. |
| `ReferenceFrames.ReferenceFrame.StartTime` | reference_frames.py:18-23 | The start time is `timeList[0]` and needs one sample. It is a `reads this` function, so reading it changes nothing. |
| `ReferenceFrames.ReferenceFrame.EndTime` | reference_frames.py:35-37 | The end time is `timeList[|timeList|-1]` and needs one sample. It is a `reads this` function, so reading it changes nothing. |
| `ReferenceFrames.ReferenceFrame.NumberOfPoints` | reference_frames.py:46-48 | The number of points is `|timeList|` on any axis, including an empty one. It is a `reads this` function, so reading it changes nothing. |
| `ReferenceFrames.ReferenceFrame.SetStartTime` | reference_frames.py:26-33 | The new `timeList` is `linspace(t, old end, old count)`. The start becomes `t`, the count is kept, the end is kept when there were two or more points, and the axis is evenly spaced. |
| `ReferenceFrames.ReferenceFrame.SetEndTime` | reference_frames.py:40-44 | The new `timeList` is `linspace(old start, t, old count)`. The start and count are kept, the end becomes `t` when there were two or more points, and the axis is evenly spaced. |
| `ReferenceFrames.ReferenceFrame.SetNumberOfPoints` | reference_frames.py:51-55 | The new `timeList` is `linspace(old start, old end, n)`. The count becomes `n`, the start is kept if `n >= 1` and the end if `n >= 2`, and the axis is evenly spaced. |
| `ReferenceFrames.RotatingFrame.constructor` | reference_frames.py:63-65 | `RotatingFrame(f)` stores `frequency == f`, and its fresh time axis is `[0, 0]`. |
| `ReferenceFrames.RotatingFrame.RotationOperator` | reference_frames.py:67-89 | `cos(wt) * I + i * sin(wt) * sigma_y` is the matrix `[[cos(wt), sin(wt)], [-sin(wt), cos(wt)]]`, with `w` the frame's frequency. |
| `ReferenceFrames.DefaultThenSetAll` | reference_frames.py:15-55 | Starting from the default axis, setting the count to 1000, then the start to 0, then the end to 1e-7 gives `linspace(0, 1e-7, 1000)`. |
| `ReferenceFrames.SettersFromTestAxis` | tests/test_reference_frames.py:36-90 | Starting from `linspace(0, 1e-7, 1000)`: start 1 gives `linspace(1, 1e-7, 1000)`, end 1 gives `linspace(0, 1, 1000)`, and count 10000 gives `linspace(0, 1e-7, 10000)`. |
| `Rotation.Operator` | reference_frames.py:70-89 | `c * I + i * s * sigma_y` equals the real matrix `[[c, s], [-s, c]]`. |
| `Rotation.OperatorUnitary` | reference_frames.py:70-81 | When `c*c + s*s == 1`, the operator times its conjugate transpose is the identity, in both orders. |

## Left out

- The floating-point rounding of numpy's `linspace`. Samples are exact reals, so the last point is the end exactly, and the step is exactly `(end - start) / (count - 1)`.
- Reading the start or end time, or calling any setter, on an empty `time_list` raises `IndexError` in Python. The model instead requires at least one sample for those. Reading the number of points needs nothing and gives 0 on an empty axis.
- A negative number of points makes numpy raise `ValueError`. The model's count parameter is a `nat`, so a negative count cannot be passed.
- ReferenceFrames.RotatingFrame.RotationOperator: cosine and sine are parameters, not computed. So nothing that depends on trigonometric values is stated, such as the operator being the identity at time 0, being `[[0, 1], [-1, 0]]` at a quarter turn, or being unitary for every time. Unitarity is proved only under the hypothesis `c*c + s*s == 1`.
- numpy and qutip broadcasting: the rotation operator is modelled for a single time only. For an array of times, what `np.cos(...) * q.qeye(2)` returns depends on how qutip's `Qobj` multiplies by an array, and qutip is not part of this model.
- Python's inheritance of `RotatingFrame` from `ReferenceFrame`. This is modelled as composition, through the `frame` field.
- The shared mutable default argument `np.array([0, 0])` of the constructor (reference_frames.py:15, 65). Every default `ReferenceFrame` and every `RotatingFrame` starts with the same array object, so an in-place write to one frame's samples would show in the others. The class's own setters always rebind `time_list` (reference_frames.py:33, 44, 55), so the sharing is invisible only while no client writes a sample in place. `timeList` is a `seq` with value semantics, which cannot express that sharing.
- Assigning to `time_list` directly, as the tests do. In Dafny a client assigns the public field `timeList` the same way, so no method is needed.
- The numeric element type. Python accepts any numbers (integer arrays, NaN, infinities). The model uses `real`.
