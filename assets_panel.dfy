/**
 * The sort state of `AssetsPanel`: which column the asset table is ordered
 * by and whether the order is descending. A click on a column heading
 * reverses the order of the current column and sorts any other column
 * ascending.
 */
module AssetsPanel {
  /** The column names of the asset table. */
  const COLUMNS: seq<string> := ["asset_id", "name", "epc", "type", "location", "department", "status", "verified", "created_at"]
  /** The sort column the panel starts with; it names no column of the table. */
  const INITIAL_COLUMN: string := "id"

  /** The sort state after a click on `col`, from column `current` in direction `descending`. */
  function Toggle(current: string, descending: bool, col: string): (next: (string, bool))
    ensures next.0 == col
    ensures current == col ==> next.1 == !descending
    ensures current != col ==> !next.1
  {
    (col, if current == col then !descending else false)
  }

  /** Two clicks on the same heading restore the direction it had. */
  lemma ToggleTwiceRestores(current: string, descending: bool, col: string)
    ensures var once := Toggle(current, descending, col);
      var twice := Toggle(once.0, once.1, col);
      current == col ==> twice == (current, descending)
  {
  }

  /** After any click on a column that was not the sort column, two more clicks give ascending, then descending, then ascending. */
  lemma ToggleCycle(current: string, descending: bool, col: string)
    requires current != col
    ensures var s1 := Toggle(current, descending, col);
      var s2 := Toggle(s1.0, s1.1, col);
      var s3 := Toggle(s2.0, s2.1, col);
      !s1.1 && s2.1 && !s3.1
  {
  }

  /** The panel starts on a column the table does not have, so its first sort is ascending, whatever column is clicked. */
  lemma FirstSortAscending(col: string)
    requires col in COLUMNS
    ensures !Toggle(INITIAL_COLUMN, true, col).1
  {
  }

  class SortState {
    /** `_sort_col`. */
    var column: string
    /** `_sort_rev`: whether the rows are in descending order. */
    var descending: bool

    /** The state set when the panel is built. */
    constructor()
      ensures column == INITIAL_COLUMN && descending
    {
      column := INITIAL_COLUMN;
      descending := true;
    }

    /** `_sort(col)`: flip the direction on the same column, else sort `col` ascending. */
    method Sort(col: string)
      modifies this
      ensures (column, descending) == Toggle(old(column), old(descending), col)
      ensures column == col
      ensures old(column) == col ==> descending == !old(descending)
      ensures old(column) != col ==> !descending
    {
      descending := if column == col then !descending else false;
      column := col;
    }
  }
}
