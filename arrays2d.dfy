/** The working part of the two-dimensional array of
    datastructures/array2d.py: a grid of `rows` by `columns` slots stored in
    one backing `Array` in row-major order, and the row view that maps a
    column index of its row onto that backing array. */
module Arrays2D {
  import opened Arrays

  /** Row-major flattening: the flat index of (`row`, `column`) in a grid
      whose rows are `columns` long. */
  function FlatIndex(row: int, columns: int, column: int): (i: int)
  {
    row * columns + column
  }

  /** An in-range (row, column) pair lands inside the backing array. */
  lemma FlatIndexInBounds(rows: nat, columns: nat, row: int, column: int)
    requires 0 <= row < rows && 0 <= column < columns
    ensures 0 <= FlatIndex(row, columns, column) < rows * columns
  {
    assert 0 <= row * columns by { MulNonNegative(row, columns); }
    assert (row + 1) * columns <= rows * columns by { MulMonotone(row + 1, rows, columns); }
  }

  /** Two pairs with in-range columns that share a flat index are the same
      pair: distinct cells never share a slot. */
  lemma FlatIndexInjective(columns: nat, row1: int, column1: int, row2: int, column2: int)
    requires 0 <= column1 < columns && 0 <= column2 < columns
    requires FlatIndex(row1, columns, column1) == FlatIndex(row2, columns, column2)
    ensures row1 == row2 && column1 == column2
  {
    if row1 < row2 {
      MulMonotone(row1 + 1, row2, columns);
      assert false;
    } else if row2 < row1 {
      MulMonotone(row2 + 1, row1, columns);
      assert false;
    }
  }

  /** Division and remainder by the row length recover the pair from its
      flat index, so flattening has an inverse on in-range cells. */
  lemma FlatIndexInverse(columns: nat, row: nat, column: int)
    requires 0 <= column < columns
    ensures FlatIndex(row, columns, column) / columns == row
    ensures FlatIndex(row, columns, column) % columns == column
  {
    var i := FlatIndex(row, columns, column);
    MulNonNegative(row, columns);
    var q, m := i / columns, i % columns;
    assert i == FlatIndex(q, columns, m);
    FlatIndexInjective(columns, q, m, row, column);
  }

  /** Multiplying by a non-negative factor preserves order. */
  lemma MulMonotone(a: int, b: int, c: nat)
    requires a <= b
    ensures a * c <= b * c
  {}

  /** The product of two naturals is a natural. */
  lemma MulNonNegative(a: nat, b: nat)
    ensures 0 <= a * b
  {}

  /** `Array2D._Row`: a view of one row that holds the grid's own backing
      array (a reference, not a copy), the row's index and the row length. */
  class Row<T(==)> {
    var items: Array<T>
    var rowIndex: int
    var columnsLen: int

    constructor (items: Array<T>, rowIndex: int, columnsLen: int)
      ensures this.items == items
      ensures this.rowIndex == rowIndex && this.columnsLen == columnsLen
    {
      this.items := items;
      this.rowIndex := rowIndex;
      this.columnsLen := columnsLen;
    }

    /** `_map_index(column_index)`: the flat position of this row's
        `columnIndex`-th cell; for an in-range column of a row with a
        non-negative index, dividing by the row length gives back the row and
        the remainder gives back the column. */
    function MapIndex(columnIndex: int): (i: int)
      reads this
      ensures 0 <= rowIndex && 0 <= columnIndex < columnsLen ==>
                i / columnsLen == rowIndex && i % columnsLen == columnIndex
    {
      if 0 <= rowIndex && 0 <= columnIndex < columnsLen then
        FlatIndexInverse(columnsLen, rowIndex, columnIndex);
        FlatIndex(rowIndex, columnsLen, columnIndex)
      else
        FlatIndex(rowIndex, columnsLen, columnIndex)
    }
  }

  /** `Array2D`: the grid's dimensions and its backing array. */
  class Array2D<T(==)> {
    var rows: nat
    var columns: nat
    var items2d: Array<T>

    /** The grid invariant: the backing array is valid and holds exactly
        `rows * columns` slots, visible and allocated. */
    ghost predicate Valid()
      reads this, items2d, items2d.items
    {
      && items2d.Valid()
      && items2d.logicalSize == items2d.physicalSize == rows * columns
    }

    /** `Array2D(rows, columns, default_item_value)`: the dimensions are
        stored as given, and a new backing array of `rows * columns` slots
        is filled with the default. */
    constructor (rows: nat, columns: nat, defaultItemValue: T)
      ensures Valid()
      ensures this.rows == rows && this.columns == columns
      ensures fresh(items2d) && fresh(items2d.items)
      ensures items2d.defaultItemValue == defaultItemValue
      ensures items2d.Length() == rows * columns
      ensures forall i :: 0 <= i < rows * columns ==> items2d.Contents()[i] == defaultItemValue
    {
      this.rows := rows;
      this.columns := columns;
      MulNonNegative(rows, columns);
      items2d := new Array(rows * columns, defaultItemValue);
    }

    /** A row view built over this grid's backing array, for a row inside
        the grid and with the grid's row length, maps every in-range column
        to a valid index of the backing array, and no two of them to the same
        index. */
    lemma RowMapsIntoBacking(row: Row<T>, column1: int, column2: int)
      requires Valid()
      requires row.items == items2d && 0 <= row.rowIndex < rows && row.columnsLen == columns
      requires 0 <= column1 < columns && 0 <= column2 < columns
      ensures 0 <= row.MapIndex(column1) < items2d.Length()
      ensures column1 != column2 ==> row.MapIndex(column1) != row.MapIndex(column2)
    {
      FlatIndexInBounds(rows, columns, row.rowIndex, column1);
      if row.MapIndex(column1) == row.MapIndex(column2) {
        FlatIndexInjective(columns, row.rowIndex, column1, row.rowIndex, column2);
      }
    }
  }
}
