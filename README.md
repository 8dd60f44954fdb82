# Dynamic array and 2D array containers

A Dafny model of the working containers of an academic data-structures
repository, with proofs about that model:

- `datastructures/array.py`, class `Array`. This is a resizable
  one-dimensional array over a fixed-size object buffer. It keeps a logical
  size (the visible elements) and a physical size (the allocated slots), and
  doubles the buffer when an append finds it full.
- `datastructures/array2d.py`. Only two parts of it work: the `Array2D`
  constructor, which allocates one backing `Array` of `rows * columns`
  slots, and the row view `_Row`, whose `_map_index` is the row-major
  mapping `row * columns + column`.

Files:

- `errors.dfy`, module `Errors`. It holds the exceptions (`IndexError`,
  `ValueError`, `TypeError`) and the `Result`/`Outcome` answers of an
  operation that returns or raises.
- `arrays.dfy`, module `Arrays`. It holds class `Array<T>`, with the numpy
  buffer as an `array<T>` and the fields `logicalSize`, `physicalSize` and
  `defaultItemValue`. `Valid()` is the object invariant:
  `logicalSize <= physicalSize == items.Length`, and every spare slot beyond
  the logical size holds the default. The ghost function `Contents()` is the
  visible prefix. Every mutating method keeps `Valid()` and states the new
  `Contents()` in terms of the old one.
- `arrays2d.dfy`, module `Arrays2D`. It holds the pure row-major function
  `FlatIndex` with lemmas for bounds, injectivity and its inverse, and the
  classes `Row` and `Array2D`.
- `array_tests.dfy`, module `ArrayTests`. It holds the scenarios of
  `tests/test_array.py` and the docstring examples. Each is stated for every
  element type and every choice of values, and is proved from the contracts
  of `Array` alone.

The model follows the code as written, quirks included:

- `a[i]` checks `i` against the physical size. `a[i] = v` checks it against
  the logical size. So a spare slot can be read, and it reads as the default.
- `resize` ignores its `default_value` argument. New slots always get the
  instance default.
- `==` is false when the buffer lengths differ. Otherwise it compares only
  the first `self._logical_size` slots. As a result:
  - `==` is not symmetric (`ArrayTests.EqualityIsNotSymmetric`).
  - `from_list(list(a)) == a` holds exactly when `a` has no spare
    capacity (`ArrayTests.IterRoundTripIffNoSpare`). One might expect this
    round trip for every array, but tests/test_array.py:173-178 checks it
    only for an array built by `from_list` (`ArrayTests.IterRoundTrip`).
    Three appends to an empty array already break it
    (`ArrayTests.IterRoundTripWithSpareCapacity`).
- `del a[i]` moves the elements into a new buffer exactly as long as the new
  length, so all spare capacity is dropped.

The docstring of `resize` (datastructures/array.py:177) says new slots get
its `default_value` argument. The code at datastructures/array.py:189 fills
them with the instance default instead. The model follows the code.

Python's `None` has no counterpart for a generic element type. The default
value is therefore always passed explicitly. `FromList` takes a `none`
argument for the `None` default that `from_list` gives its new array. A
Python value that is not a list or not an `Array` is modelled by the sum
types `ListArg` and `Operand`. Element comparison is equality on `T`.

## Model

| member | source | states |
|---|---|---|
| `Arrays.Array.constructor` | datastructures/array.py:42-45 | logical and physical size are both `size`; every slot, all of them visible, holds the given default; the buffer is new |
| `Arrays.Array.FromList` | datastructures/array.py:67-74 | a non-list raises `TypeError`; otherwise a new valid array whose contents are exactly the list's items in order, whose capacity is the list's length and whose default is `None` |
| `Arrays.Array.Get` | datastructures/array.py:93-96 | succeeds exactly when `0 <= index < physical size`, else `IndexError`; the value is the element at `index` for a visible index and the instance default for a spare slot; it changes no state |
| `Arrays.Array.Set` | datastructures/array.py:117-119 | succeeds exactly when `0 <= index < logical size`, and then only slot `index` changes, to `data`; otherwise `IndexError` and the buffer is untouched; sizes and the buffer object never change |
| `Arrays.Array.Append` | datastructures/array.py:136-146 | contents become the old contents plus `data` at the end; a full buffer is replaced by a new one of capacity 1 (if it was 0) or double, otherwise buffer and capacity are kept; the invariant, including default spare slots, still holds |
| `Arrays.Array.Length` | datastructures/array.py:159 | the number of visible elements, never more than the capacity |
| `Arrays.Array.Resize` | datastructures/array.py:185-194 | a negative size raises `ValueError` and changes nothing; otherwise logical and physical size are both `newSize`, slots below `min(newSize, old capacity)` keep their old values and the rest hold the instance default, whatever `defaultValue` is |
| `Arrays.Array.Equals` | datastructures/array.py:211-220 | a non-`Array` raises `TypeError`; otherwise true exactly when the buffer lengths agree and the first `logicalSize` slots of this array agree with the other's; for two arrays of equal length, true exactly when capacities and contents agree |
| `Arrays.Array.NotEquals` | datastructures/array.py:238-247 | a non-`Array` raises `TypeError`; otherwise exactly the negation of the condition `Equals` computes |
| `Arrays.Array.Iter` | datastructures/array.py:259-260 | the yielded sequence is exactly the visible contents in index order |
| `Arrays.Array.Reversed` | datastructures/array.py:273-274 | the yielded sequence has the contents' length, and its `k`-th item is the contents' `(n-1-k)`-th |
| `Arrays.Array.Delete` | datastructures/array.py:295-308 | an index outside `[0, length)` raises `IndexError` and changes nothing; otherwise the contents become `s[..i] + s[i+1..]`, the length drops by one and the capacity equals the new length, in a new buffer |
| `Arrays.Array.Contains` | datastructures/array.py:325-328 | true exactly when `item` occurs among the visible elements |
| `Arrays.Array.DoesNotContain` | datastructures/array.py:345-348 | true exactly when `item` occurs nowhere among the visible elements |
| `Arrays.Array.Clear` | datastructures/array.py:365-367 | no elements and no capacity, in a new empty buffer; the invariant holds |
| `Arrays2D.FlatIndexInBounds` | datastructures/array2d.py:37-38 | for `0 <= r < rows` and `0 <= c < columns`, `r * columns + c` lies in `[0, rows * columns)`, the backing array's index range |
| `Arrays2D.FlatIndexInjective` | datastructures/array2d.py:37-38 | two (row, column) pairs with in-range columns and the same flat index are the same pair |
| `Arrays2D.FlatIndexInverse` | datastructures/array2d.py:37-38 | dividing the flat index by the row length gives back the row, and the remainder gives back the column |
| `Arrays2D.Row.constructor` | datastructures/array2d.py:25-28 | the row view stores the very backing array it is given (the same reference, not a copy), its row index and its row length |
| `Arrays2D.Row.MapIndex` | datastructures/array2d.py:37-38 | the row-major index of the column; for a non-negative row and an in-range column, division and remainder by the row length recover the row and the column |
| `Arrays2D.Array2D.constructor` | datastructures/array2d.py:57-59 | `rows` and `columns` are stored unchanged; the backing array is new, valid, of length `rows * columns`, with every slot the given default |
| `Arrays2D.Array2D.RowMapsIntoBacking` | datastructures/array2d.py:25-38 | a row view over the grid's own backing array, for a row inside the grid and with the grid's row length, maps each in-range column to a valid backing index, and distinct columns to distinct indices |
| `ArrayTests.ClearEqualsEmpty` | tests/test_array.py:245-248 | after `clear()`, an array equals `Array(0)` |
| `ArrayTests.FromListMatchesConstructor` | tests/test_array.py:22-25 | `Array(3) == Array.from_list([None, None, None])` |
| `ArrayTests.FromListRejectsNonList` | tests/test_array.py:27-29 | `from_list` of a non-list raises `TypeError` |
| `ArrayTests.AppendGrowsByOne` | tests/test_array.py:83-96 | appending to `Array(size)` gives length `size + 1`; on the empty array the value lands at index 0 |
| `ArrayTests.SetThenGet` | tests/test_array.py:49-64 | setting an in-range index and reading it back gives the value set; index `size` can be neither set nor read |
| `ArrayTests.ResizeFillsWithInstanceDefault` | tests/test_array.py:109-118 | after growing `Array(5, d)` to 10 with another fill argument, every slot holds `d` |
| `ArrayTests.DeleteMiddle` | datastructures/array.py:282-287 | deleting index 2 of five elements leaves the other four in order, and length 4 |
| `ArrayTests.DeleteFromEmpty` | tests/test_array.py:217-220 | deleting from the empty array raises `IndexError` |
| `ArrayTests.IterRoundTrip` | tests/test_array.py:173-178 | `Array.from_list(list(a)) == a` for an array built by `from_list` |
| `ArrayTests.IterRoundTripIffNoSpare` | datastructures/array.py:214-220 | for every valid array, `from_list` of its elements equals it exactly when its logical size equals its physical size |
| `ArrayTests.IterRoundTripWithSpareCapacity` | datastructures/array.py:214-215 | after three appends to an empty array, `from_list` of its elements is NOT equal to it, because the buffer lengths are 3 and 4 |
| `ArrayTests.EqualityIsNotSymmetric` | datastructures/array.py:214-220 | with buffers of equal length, a three-element `a` and a four-element `b` sharing a prefix give `a == b` true and `b == a` false |

## Left out

- `Arrays.Array.constructor`: the size is a `nat`. In Python a negative size gives an empty buffer with a negative `_logical_size`, an object no other method handles consistently. The model does not build that object.
- `Arrays2D.Array2D.constructor`: `rows` and `columns` are `nat`. A negative product gives the inconsistent `Array` described in the line above. A negative pair with a non-negative product, such as `Array2D(-2, -3)`, builds a usable backing array, but every method that would read the stored negative dimensions only raises `NotImplementedError`.
- Python's default arguments (`size=0`, `default_item_value=None`, `rows=0`, `columns=0`) are not modelled. Every argument is passed explicitly.
- `Array.__str__` and `Array.__repr__` are not modelled. They render through numpy's string formatting of object arrays.
- numpy is not modelled. The object buffer is a Dafny `array<T>`, and `clear()`'s plain empty Python list is an empty `array<T>`.
- `__iter__` and `__reversed__` are lazy generators. The model gives the whole sequence they yield, not the suspension between items.
- `Array2D.__getitem__`, `_Row.__getitem__` and `_Row.__setitem__` are not modelled. They are broken in the source: they call `_Row` unqualified with the wrong arguments, return the whole backing array, and take no index or value.
- `Array2D.dimensions`, `resize_columns`, `resize_rows`, `__eq__`, `__ne__`, `__contains__`, `__str__` and `__repr__` are not modelled. They only raise `NotImplementedError`.
- `datastructures/linked_list.py` is not part of this model. Its constructor and most methods raise `NotImplementedError`, and `ListNode` is not available.
- `datastructures/midterm/` is not part of this model. Its files do not run: they use undefined names and call `isinstance` with one argument.
- `Projects/GameOfLife/` is not part of this model. It is a console driver built on sleeping, keyboard polling and randomness, with neighbour counting and evolution left unimplemented.
