/** Scenarios of tests/test_array.py, stated for every element type and
    every choice of values rather than for the test's literals, and checked
    from the contracts of `Arrays.Array` alone. */
module ArrayTests {
  import opened Errors
  import opened Arrays

  /** A cleared array equals a new empty one. */
  method ClearEqualsEmpty<T(==)>(size: nat, d: T, none: T) returns (r: Result<bool>)
    ensures r == Ok(true)
  {
    var a := new Array(size, d);
    a.Clear();
    var empty := new Array(0, none);
    r := a.Equals(AnArray(empty));
  }

  /** `Array(3) == Array.from_list([None, None, None])`. */
  method FromListMatchesConstructor<T(==)>(none: T) returns (r: Result<bool>)
    ensures r == Ok(true)
  {
    var a := new Array(3, none);
    var b := Array.FromList(AList([none, none, none]), none);
    r := a.Equals(AnArray(b.value));
  }

  /** `Array.from_list("3")` raises `TypeError`. */
  method FromListRejectsNonList<T(==)>(none: T) returns (r: Result<Array<T>>)
    ensures r == Err(TypeError)
  {
    r := Array.FromList(NotAList, none);
  }

  /** Appending to `Array(size)` gives length `size + 1`; appending to the
      empty array stores the value at index 0. */
  method AppendGrowsByOne<T(==)>(size: nat, d: T, x: T) returns (n: nat, first: Result<T>)
    ensures n == size + 1
    ensures size == 0 ==> first == Ok(x)
  {
    var a := new Array(size, d);
    a.Append(x);
    n := a.Length();
    first := a.Get(0);
  }

  /** Every index of `Array(size)` set and read back gives what was set;
      index `size` can be neither set nor read. */
  method SetThenGet<T(==)>(size: nat, d: T, i: int, v: T) returns (stored: Outcome, got: Result<T>)
    ensures 0 <= i < size ==> stored == Pass && got == Ok(v)
    ensures i == size ==> stored == Fail(IndexError) && got == Err(IndexError)
  {
    var a := new Array(size, d);
    stored := a.Set(i, v);
    got := a.Get(i);
  }

  /** Resizing `Array(5, d)` to 10 with some other fill value leaves every
      slot equal to the instance default `d`. */
  method ResizeFillsWithInstanceDefault<T(==)>(d: T, other: T, i: int) returns (got: Result<T>)
    requires 0 <= i < 10
    ensures got == Ok(d)
  {
    var a := new Array(5, d);
    var _ := a.Resize(10, other);
    got := a.Get(i);
  }

  /** `del a[2]` on a five-element array leaves the other four in order. */
  method DeleteMiddle<T(==)>(none: T, zero: T, one: T, two: T, three: T, four: T)
    returns (r: Outcome, contents: seq<T>, n: nat)
    ensures r == Pass && contents == [zero, one, three, four] && n == 4
  {
    var a := Array.FromList(AList([zero, one, two, three, four]), none);
    r := a.value.Delete(2);
    contents := a.value.Iter();
    n := a.value.Length();
  }

  /** Deleting from the empty array raises `IndexError`. */
  method DeleteFromEmpty<T(==)>(none: T) returns (r: Outcome)
    ensures r == Fail(IndexError)
  {
    var a := new Array(0, none);
    r := a.Delete(0);
  }

  /** `Array.from_list(list(a)) == a` for an array built by `from_list`. */
  method IterRoundTrip<T(==)>(xs: seq<T>, none: T) returns (r: Result<bool>)
    ensures r == Ok(true)
  {
    var a := Array.FromList(AList(xs), none);
    var ys := a.value.Iter();
    var b := Array.FromList(AList(ys), none);
    r := b.value.Equals(AnArray(a.value));
  }

  /** The same round trip fails once `a` has spare capacity: three appends
      to `Array(0, d)` leave a four-slot buffer, while the copy built from
      its three elements has a three-slot one, and `==` compares buffer
      lengths first. */
  method IterRoundTripWithSpareCapacity<T(==)>(d: T, x1: T, x2: T, x3: T, none: T)
    returns (r: Result<bool>)
    ensures r == Ok(false)
  {
    var a := new Array(0, d);
    a.Append(x1);
    a.Append(x2);
    a.Append(x3);
    var ys := a.Iter();
    var b := Array.FromList(AList(ys), none);
    r := b.value.Equals(AnArray(a));
  }

  /** In general `Array.from_list(list(a)) == a` holds exactly when `a`
      has no spare capacity: the copy's buffer is as long as `a`'s visible
      contents, and `==` compares buffer lengths first. */
  method IterRoundTripIffNoSpare<T(==)>(a: Array<T>, none: T) returns (r: Result<bool>)
    requires a.Valid()
    ensures r == Ok(a.logicalSize == a.physicalSize)
  {
    var ys := a.Iter();
    var b := Array.FromList(AList(ys), none);
    r := b.value.Equals(AnArray(a));
  }

  /** `==` is not symmetric: after three appends to `Array(0, d)` the buffer
      holds four slots, the same as after four appends, so `a == b` scans
      three slots and holds, while `b == a` also scans the fourth and fails
      whenever the fourth value differs from the default. */
  method EqualityIsNotSymmetric<T(==)>(d: T, x1: T, x2: T, x3: T, x4: T)
    returns (ab: Result<bool>, ba: Result<bool>)
    requires x4 != d
    ensures ab == Ok(true) && ba == Ok(false)
  {
    var a := new Array(0, d);
    a.Append(x1);
    a.Append(x2);
    a.Append(x3);
    assert a.physicalSize == 4 && a.Contents() == [x1, x2, x3];
    ghost var aItems := a.items[..];
    var b := new Array(0, d);
    b.Append(x1);
    b.Append(x2);
    b.Append(x3);
    b.Append(x4);
    assert b.physicalSize == 4 && b.Contents() == [x1, x2, x3, x4];
    assert a.items[..] == aItems;
    assert a.items[..3] == b.items[..3];
    assert a.items[3] == d;
    assert b.items[..4][3] != a.items[..4][3];
    ab := a.Equals(AnArray(b));
    ba := b.Equals(AnArray(a));
  }
}
