/** The dynamically growing one-dimensional array of datastructures/array.py.

    The Python class keeps a numpy object buffer `_items`, a logical size
    (how many elements are visible) and a physical size (how many slots are
    allocated). Here the buffer is a Dafny `array<T>`, the element type is a
    type parameter with equality, and the logical contents are the ghost
    function `Contents()`, the first `logicalSize` slots of the buffer. */
module Arrays {
  import opened Errors

  /** A value handed to `Array.FromList`: a Python list, or anything else. */
  datatype ListArg<T> = AList(elems: seq<T>) | NotAList

  /** The right-hand side of `==` and `!=`: an `Array`, or anything else. */
  datatype Operand<T> = AnArray(arr: Array<T>) | NotAnArray

  class Array<T(==)> {
    /** The backing buffer; its length is the physical size. */
    var items: array<T>
    var logicalSize: nat
    var physicalSize: nat
    /** The fill value for every slot the array allocates. */
    const defaultItemValue: T

    /** The object invariant: the logical size never exceeds the physical
        size, the physical size is the buffer's length, and every spare slot
        beyond the logical size holds the default value (spare slots only
        come from `Append` growing the buffer, which fills them with it). */
    ghost predicate Valid()
      reads this, items
    {
      && logicalSize <= physicalSize == items.Length
      && forall i :: logicalSize <= i < items.Length ==> items[i] == defaultItemValue
    }

    /** The elements visible to callers, in index order. */
    ghost function Contents(): seq<T>
      reads this, items
      requires Valid()
    {
      items[..logicalSize]
    }

    /** `Array(size, default_item_value)`: `size` slots, all the default,
        every one of them visible. */
    constructor (size: nat, defaultItemValue: T)
      ensures Valid() && fresh(items)
      ensures logicalSize == physicalSize == size
      ensures this.defaultItemValue == defaultItemValue
      ensures |Contents()| == size
      ensures forall i :: 0 <= i < size ==> Contents()[i] == defaultItemValue
    {
      items := new T[size](_ => defaultItemValue);
      this.defaultItemValue := defaultItemValue;
      logicalSize := size;
      physicalSize := size;
    }

    /** `Array.from_list(list_items)`: a `TypeError` for anything that is
        not a list; otherwise a new array, with Python's `None` (passed here
        as `none`) as its default, whose contents are the list's items. The
        items are stored one by one through `Set`, as the `for` loop of
        `from_list` does. */
    static method FromList(listItems: ListArg<T>, none: T) returns (r: Result<Array<T>>)
      ensures r.Err? <==> listItems.NotAList?
      ensures r.Err? ==> r.error == TypeError
      ensures r.Ok? ==> && fresh(r.value) && fresh(r.value.items) && r.value.Valid()
                        && r.value.Contents() == listItems.elems
                        && r.value.physicalSize == |listItems.elems|
                        && r.value.defaultItemValue == none
    {
      match listItems
      case NotAList =>
        return Err(TypeError);
      case AList(elems) =>
        var newArray := new Array(|elems|, none);
        for i := 0 to |elems|
          invariant newArray.Valid() && fresh(newArray.items)
          invariant newArray.logicalSize == newArray.physicalSize == |elems|
          invariant newArray.defaultItemValue == none
          invariant newArray.items[..i] == elems[..i]
        {
          var _ := newArray.Set(i, elems[i]);
        }
        assert newArray.items[..|elems|] == elems;
        return Ok(newArray);
    }

    /** `a[index]`: bounds are checked against the PHYSICAL size, so a spare
        slot can be read; it holds the default. Reading changes nothing. */
    function Get(index: int): (r: Result<T>)
      reads this, items
      requires Valid()
      ensures r.Ok? <==> 0 <= index < physicalSize
      ensures r.Err? ==> r.error == IndexError
      ensures r.Ok? ==> r.value == if index < logicalSize then Contents()[index] else defaultItemValue
    {
      if index < 0 || index >= items.Length then Err(IndexError) else Ok(items[index])
    }

    /** `a[index] = data`: bounds are checked against the LOGICAL size. On
        success exactly that element changes; on failure nothing does. */
    method Set(index: int, data: T) returns (r: Outcome)
      requires Valid()
      modifies items
      ensures Valid() && items == old(items)
      ensures r.Pass? <==> 0 <= index < logicalSize
      ensures r.Fail? ==> r.error == IndexError && items[..] == old(items[..])
      ensures r.Pass? ==> items[..] == old(items[..])[index := data]
      ensures r.Pass? ==> Contents() == old(Contents())[index := data]
    {
      if index < 0 || index > logicalSize - 1 {
        return Fail(IndexError);
      }
      items[index] := data;
      return Pass;
    }

    /** `a.append(data)`: one more element at the end. A full buffer is first
        replaced by one of twice the size (1 when it was empty) whose spare
        slots hold the default. */
    method Append(data: T)
      requires Valid()
      modifies this, items
      ensures Valid()
      ensures Contents() == old(Contents()) + [data]
      ensures old(logicalSize) < old(physicalSize) ==> physicalSize == old(physicalSize) && items == old(items)
      ensures old(logicalSize) == old(physicalSize) ==>
                && physicalSize == (if old(physicalSize) == 0 then 1 else 2 * old(physicalSize))
                && fresh(items)
    {
      if physicalSize == logicalSize {
        var newSize := if physicalSize == 0 then 1 else physicalSize * 2;
        var newItems := new T[newSize](_ => defaultItemValue);
        physicalSize := newSize;
        for i := 0 to logicalSize
          modifies newItems
          invariant newItems[..i] == items[..i]
          invariant forall k :: logicalSize <= k < newSize ==> newItems[k] == defaultItemValue
        {
          newItems[i] := items[i];
        }
        items := newItems;
      }
      items[logicalSize] := data;
      logicalSize := logicalSize + 1;
    }

    /** `len(a)`: the number of visible elements. */
    function Length(): (n: nat)
      reads this, items
      requires Valid()
      ensures n == |Contents()|
      ensures n <= physicalSize
    {
      logicalSize
    }

    /** `a.resize(new_size, default_value)`: a `ValueError` for a negative
        size; otherwise logical and physical size both become `newSize`, the
        first `min(newSize, old physical size)` slots are kept, and the rest
        hold the INSTANCE default: the `defaultValue` argument is unused. */
    method Resize(newSize: int, defaultValue: T) returns (r: Outcome)
      requires Valid()
      modifies this
      ensures Valid()
      ensures r.Fail? <==> newSize < 0
      ensures r.Fail? ==> && r.error == ValueError && items == old(items)
                          && logicalSize == old(logicalSize) && physicalSize == old(physicalSize)
      ensures r.Pass? ==> && logicalSize == physicalSize == newSize && fresh(items)
                          && |Contents()| == newSize
                          && forall i :: 0 <= i < newSize ==>
                               Contents()[i] == if i < old(physicalSize) then old(items[..])[i] else defaultItemValue
      ensures r.Pass? ==> forall i :: 0 <= i < newSize ==>
                            Contents()[i] == if i < old(logicalSize) then old(Contents())[i] else defaultItemValue
    {
      if newSize < 0 {
        return Fail(ValueError);
      }
      var copySize := if newSize < physicalSize then newSize else physicalSize;
      var newItems := new T[newSize](_ => defaultItemValue);
      for i := 0 to copySize
        modifies newItems
        invariant newItems[..i] == items[..i]
        invariant forall k :: copySize <= k < newSize ==> newItems[k] == defaultItemValue
      {
        newItems[i] := items[i];
      }
      items := newItems;
      physicalSize, logicalSize := newSize, newSize;
      return Pass;
    }

    /** The value `==` computes once `other` is known to be an `Array`: the
        buffers have the same length and agree on the first `logicalSize`
        slots of THIS array. */
    ghost predicate BufferEqual(other: Array<T>)
      reads this, items, other, other.items
      requires Valid() && other.Valid()
    {
      items.Length == other.items.Length && items[..logicalSize] == other.items[..logicalSize]
    }

    /** `a == other`: a `TypeError` when `other` is not an `Array`; otherwise
        false for buffers of different lengths, else an early-exit scan of the
        first `logicalSize` slots. When both arrays have the same length this
        is equality of capacity and contents. */
    method Equals(other: Operand<T>) returns (r: Result<bool>)
      requires Valid()
      requires other.AnArray? ==> other.arr.Valid()
      ensures r.Err? <==> other.NotAnArray?
      ensures r.Err? ==> r.error == TypeError
      ensures r.Ok? ==> (r.value <==> BufferEqual(other.arr))
      ensures r.Ok? && logicalSize == other.arr.logicalSize ==>
                (r.value <==> physicalSize == other.arr.physicalSize && Contents() == other.arr.Contents())
    {
      match other
      case NotAnArray =>
        return Err(TypeError);
      case AnArray(o) =>
        if items.Length != o.items.Length {
          return Ok(false);
        }
        for i := 0 to logicalSize
          invariant items[..i] == o.items[..i]
        {
          if items[i] != o.items[i] {
            assert items[..logicalSize][i] != o.items[..logicalSize][i];
            return Ok(false);
          }
        }
        assert items[..logicalSize] == o.items[..logicalSize];
        return Ok(true);
    }

    /** `a != other`: the same checks as `==` with every answer negated. */
    method NotEquals(other: Operand<T>) returns (r: Result<bool>)
      requires Valid()
      requires other.AnArray? ==> other.arr.Valid()
      ensures r.Err? <==> other.NotAnArray?
      ensures r.Err? ==> r.error == TypeError
      ensures r.Ok? ==> (r.value <==> !BufferEqual(other.arr))
    {
      match other
      case NotAnArray =>
        return Err(TypeError);
      case AnArray(o) =>
        if items.Length != o.items.Length {
          return Ok(true);
        }
        for i := 0 to logicalSize
          invariant items[..i] == o.items[..i]
        {
          if items[i] != o.items[i] {
            assert items[..logicalSize][i] != o.items[..logicalSize][i];
            return Ok(true);
          }
        }
        assert items[..logicalSize] == o.items[..logicalSize];
        return Ok(false);
    }

    /** `iter(a)`: the sequence of elements the generator yields, the visible
        elements in index order. */
    method Iter() returns (ys: seq<T>)
      requires Valid()
      ensures ys == Contents()
    {
      ys := [];
      for i := 0 to logicalSize
        invariant ys == items[..i]
      {
        ys := ys + [items[i]];
      }
    }

    /** `reversed(a)`: the visible elements from the last index down to 0. */
    method Reversed() returns (ys: seq<T>)
      requires Valid()
      ensures |ys| == |Contents()|
      ensures forall k :: 0 <= k < |ys| ==> ys[k] == Contents()[|ys| - 1 - k]
    {
      ys := [];
      var i := logicalSize;
      while i > 0
        invariant 0 <= i <= logicalSize
        invariant |ys| == logicalSize - i
        invariant forall k :: 0 <= k < |ys| ==> ys[k] == items[logicalSize - 1 - k]
      {
        i := i - 1;
        ys := ys + [items[i]];
      }
    }

    /** `del a[index]`: an `IndexError` outside `[0, len(a))`, the empty
        array included; otherwise the later elements move one slot left into
        a new buffer exactly as long as the new length, so no spare capacity
        is kept. */
    method Delete(index: int) returns (r: Outcome)
      requires Valid()
      modifies this
      ensures Valid()
      ensures r.Fail? <==> !(0 <= index < old(logicalSize))
      ensures r.Fail? ==> && r.error == IndexError && items == old(items)
                          && logicalSize == old(logicalSize) && physicalSize == old(physicalSize)
      ensures r.Pass? ==> && Contents() == old(Contents()[..index] + Contents()[index + 1..])
                          && logicalSize == old(logicalSize) - 1
                          && physicalSize == logicalSize
                          && fresh(items)
    {
      if index < 0 || index >= logicalSize {
        return Fail(IndexError);
      }
      ghost var before := items[..logicalSize];
      var newItems := new T[logicalSize - 1](_ => defaultItemValue);
      for i := 0 to index
        modifies newItems
        invariant newItems[..i] == items[..i]
      {
        newItems[i] := items[i];
      }
      for i := index to logicalSize - 1
        modifies newItems
        invariant newItems[..index] == items[..index]
        invariant forall k :: index <= k < i ==> newItems[k] == items[k + 1]
      {
        newItems[i] := items[i + 1];
      }
      assert newItems[..] == before[..index] + before[index + 1..];
      items := newItems;
      logicalSize := logicalSize - 1;
      physicalSize := logicalSize;
      return Pass;
    }

    /** `item in a`: true exactly when some visible element equals `item`. */
    method Contains(item: T) returns (b: bool)
      requires Valid()
      ensures b <==> item in Contents()
    {
      for i := 0 to logicalSize
        invariant item !in items[..i]
      {
        if items[i] == item {
          assert Contents()[i] == item;
          return true;
        }
      }
      return false;
    }

    /** `__does_not_contain__`: the same scan with the answers swapped. */
    method DoesNotContain(item: T) returns (b: bool)
      requires Valid()
      ensures b <==> item !in Contents()
    {
      for i := 0 to logicalSize
        invariant item !in items[..i]
      {
        if items[i] == item {
          assert Contents()[i] == item;
          return false;
        }
      }
      return true;
    }

    /** `a.clear()`: no elements and no capacity; the default is kept. */
    method Clear()
      requires Valid()
      modifies this
      ensures Valid() && fresh(items)
      ensures logicalSize == physicalSize == 0
      ensures Contents() == []
    {
      items := new T[0](_ => defaultItemValue);
      physicalSize := 0;
      logicalSize := 0;
    }
  }
}
