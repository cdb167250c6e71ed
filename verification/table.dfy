/** The table: a fixed array of optional pages plus a row counter.

    Only the initial state exists in the program; no operation writes a page
    yet, so the pages and the counter are modelled as plain values.
 */
module Table {
  import opened Layout

  datatype Option<T> = None | Some(value: T)

  /** A page is a block of raw bytes; none is ever allocated by the program. */
  type Page = seq<bv8>

  /** The page array has exactly `TABLE_MAX_PAGES` slots, as the Rust array type fixes. */
  type PageSlots = s: seq<Option<Page>> | |s| == TABLE_MAX_PAGES
    witness seq(TABLE_MAX_PAGES, _ => None)

  datatype Table = Table(numRows: nat, pages: PageSlots)

  /** No rows and no allocated page. */
  predicate IsEmpty(t: Table) {
    t.numRows == 0 && forall i :: 0 <= i < |t.pages| ==> t.pages[i] == None
  }

  /** `Table::new`, which defers to `Table::default`: zero rows and every one of
      the 100 page slots unallocated. */
  function NewTable(): (t: Table)
    ensures |t.pages| == TABLE_MAX_PAGES == 100
    ensures IsEmpty(t)
    ensures t.numRows < TABLE_MAX_ROWS
  {
    Table(0, seq(TABLE_MAX_PAGES, _ => None))
  }
}
