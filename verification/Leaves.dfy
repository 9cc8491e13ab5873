// Entities an account points to and that are loaded whole: proxies, groups, usage logs and the
// account-group join rows. A row maps columns to cells.
module Leaves {
  import opened Sql

  // The key columns by role, the others by name.
  datatype LeafColumn = Id | AccountId | GroupId | Named(name: string)

  type LeafRow = map<LeafColumn, SqlValue>

  // A scanned struct: the row it came from and the cells that were selected and not NULL.
  datatype Leaf = Leaf(row: LeafRow, cells: LeafRow)

  function ScanLeaf(columns: seq<LeafColumn>, row: LeafRow): Leaf {
    Leaf(row, map c | c in columns && c in row && row[c] != Null :: row[c])
  }

  // An int64 field of the struct: zero unless it was scanned.
  function IntField(leaf: Leaf, column: LeafColumn): int {
    if column in leaf.cells && leaf.cells[column].Int? then leaf.cells[column].i else 0
  }
}
