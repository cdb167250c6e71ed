/** Record and page layout of the toy table store.

    A row is stored as three fixed-width fields laid end to end: a 4-byte
    identifier, a 32-byte user name and a 255-byte e-mail address. Pages are
    4096 bytes and hold only whole rows; the table owns at most 100 pages.
    All widths are `usize` in the program; every value here is far below any
    `usize` bound, so the unbounded `nat` arithmetic below is exact.
 */
module Layout {

  const ID_SIZE: nat := 4
  const COLUMN_USERNAME_SIZE: nat := 32
  const COLUMN_EMAIL_SIZE: nat := 255
  const ID_OFFSET: nat := 0
  const USER_NAME_OFFSET: nat := ID_OFFSET + ID_SIZE
  const EMAIL_OFFSET: nat := USER_NAME_OFFSET + COLUMN_USERNAME_SIZE
  const ROW_SIZE: nat := ID_SIZE + COLUMN_USERNAME_SIZE + COLUMN_EMAIL_SIZE
  const PAGE_SIZE: nat := 4096
  const TABLE_MAX_PAGES: nat := 100
  const ROWS_PER_PAGE: nat := PAGE_SIZE / ROW_SIZE
  const TABLE_MAX_ROWS: nat := ROWS_PER_PAGE * TABLE_MAX_PAGES

  /** The three columns of the fixed schema. */
  datatype Field = Id | Username | Email

  function Offset(f: Field): nat {
    match f
    case Id => ID_OFFSET
    case Username => USER_NAME_OFFSET
    case Email => EMAIL_OFFSET
  }

  function Width(f: Field): nat {
    match f
    case Id => ID_SIZE
    case Username => COLUMN_USERNAME_SIZE
    case Email => COLUMN_EMAIL_SIZE
  }

  /** Byte `b` of a serialized row belongs to field `f`. */
  predicate Covers(f: Field, b: int) {
    Offset(f) <= b < Offset(f) + Width(f)
  }

  /** The concrete values the constant definitions evaluate to. */
  lemma RowLayoutValues()
    ensures USER_NAME_OFFSET == 4 && EMAIL_OFFSET == 36
    ensures EMAIL_OFFSET + COLUMN_EMAIL_SIZE == ROW_SIZE == 291
    ensures ROWS_PER_PAGE == 14 && TABLE_MAX_ROWS == 1400
  {
  }

  /** The field holding byte `b` of a row: every byte of the row lies in some field. */
  function FieldAt(b: nat): (f: Field)
    requires b < ROW_SIZE
    ensures Covers(f, b)
  {
    if b < USER_NAME_OFFSET then Id
    else if b < EMAIL_OFFSET then Username
    else Email
  }

  /** The fields tile the row: no byte belongs to two fields, and no field
      reaches past the row's end. */
  lemma FieldsTileRow(f: Field, g: Field, b: int)
    ensures Covers(f, b) ==> 0 <= b < ROW_SIZE
    ensures Covers(f, b) && Covers(g, b) ==> f == g
    ensures 0 <= b < ROW_SIZE ==> Covers(f, b) == (f == FieldAt(b))
  {
  }

  /** `ROWS_PER_PAGE` is the largest number of whole rows that fits in a page. */
  lemma RowsPerPageIsLargest(k: nat)
    ensures k * ROW_SIZE <= PAGE_SIZE <==> k <= ROWS_PER_PAGE
  {
    if k <= ROWS_PER_PAGE {
      assert k * 291 <= 14 * 291;
    } else {
      assert k * 291 >= 15 * 291;
    }
  }
}
