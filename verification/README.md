# Pipi Database front end, modelled in Dafny

This project models the core of a toy REPL database written in Rust (a single
file, `src/main.rs`). The storage engine is not written yet. What the program
does implement is modelled here:

- **Record and page layout** (`layout.dfy`, module `Layout`). These are the
  compile-time widths and offsets of the three row fields: a 4-byte id, a
  32-byte user name and a 255-byte e-mail. They also give the 291-byte row,
  the 4096-byte page, 14 rows per page, 100 pages and 1400 rows per table.
- **Initial table** (`table.dfy`, module `Table`). This is the value built by
  `Table::new` / `Table::default`: a row count of zero and 100 page slots,
  all unallocated.
- **Reading a line** (`input.dfy`, module `Input`). `read_input` always
  drops the last two bytes of what it read, assuming a CRLF terminator. It
  sets the buffer's `isize` length to match. A read of fewer than two bytes
  makes the `usize` subtraction `bytes_read - 2` overflow. End of input is
  such a read, because it returns zero bytes.
- **Command classification** (`commands.dfy`, module `Commands`).
  - `do_meta_command` recognises only `.exit`, which ends the process with
    status 0.
  - `prepare_statement` has three outcomes. A buffer whose first six bytes are
    `insert` is an insert, and the rest of the line is never examined. A buffer
    exactly equal to `select` is a select. Anything else is unrecognised and
    leaves the statement untouched.
- **The main loop** (`shell.dfy`, module `Shell`). Each iteration reads a
  line and trims it. It panics on an empty buffer, because of the `unwrap`
  on the first character. It sends `.`-lines to the meta handler and all
  other lines to `prepare_statement`. The loop goes round again after an
  unrecognised command. It stops at the first statement that prepares
  successfully; `execute_statement` has no caller. `Run` models a whole session
  over the successive results of reading stdin.

The model works on values only:
- stdin is a parameter, a sequence of `ReadOutcome` values.
- Messages printed by an iteration that goes round again are `Notice` values.
  The messages printed just before `process::exit` are not modelled, only the
  exit code in `Exited`.
- `process::exit` calls and panics are `End` values.

Lines are ASCII strings, so a line's byte count equals its length.

What the program does not do:

- It does not execute a successfully prepared statement, and the loop does not
  continue: the `PrepareSuccess` arm of `main` is a bare `break`, after which
  `main` returns (`Shell.End.LoopBroken`).
- `insert` takes no payload and is never checked. `PrepareSyntaxError` is never
  produced, and there is no field-too-long error.

## Model

| member | source | states |
|---|---|---|
| Layout.RowLayoutValues | src/main.rs:5-15 | The user name starts at byte 4 and the e-mail at byte 36. The e-mail ends exactly at the 291-byte row end. There are 14 rows per page and 1400 rows per table. |
| Layout.FieldAt | src/main.rs:5-11 | Every byte of a row lies inside the offset/width range of some field. |
| Layout.FieldsTileRow | src/main.rs:5-11 | No byte lies in two fields, no field reaches past the row end, and a byte's field is unique. Together with `FieldAt`, the three fields tile the row with no gap or overlap. |
| Layout.RowsPerPageIsLargest | src/main.rs:11-14 | `k` whole rows fit in a 4096-byte page if and only if `k <= ROWS_PER_PAGE`, so the integer division gives the largest whole-row count per page. |
| Table.NewTable | src/main.rs:56-74 | A new table has exactly 100 page slots, every slot is unallocated (`None`), and it has zero rows, which is below the 1400-row capacity. |
| Input.TrimLine | src/main.rs:106-107 | For a read of at least two bytes, the buffer is a prefix of the line exactly two bytes shorter. Appending the dropped bytes gives back the line, and the recorded length equals the buffer length. |
| Input.ReadInput | src/main.rs:101-114 | A read error gives the fatal `Failed`. A read of fewer than two bytes gives `Underflow`, and only such a read does. Every other read gives a well-formed buffer: a prefix of the line, two bytes shorter. |
| Input.TrimCrlf | src/main.rs:106-107 | For a CRLF-terminated line, trimming returns exactly the line's content. |
| Input.TrimLfLosesLastChar | src/main.rs:106-107 | For an LF-terminated line, trimming also removes the content's last character. |
| Commands.DoMetaCommand | src/main.rs:116-122 | The result is the exit outcome if and only if the buffer is `.exit`. Every other buffer gives `MetaCommandUnrecognizedCommand`, and `MetaCommandSuccess` is never returned. |
| Commands.PrepareStatement | src/main.rs:125-135 | Success with type insert holds if and only if the buffer starts with `insert`. Success with type select holds if and only if the buffer equals `select`. Every other buffer is unrecognised, with the statement unchanged. A syntax error is never returned, and the row payload is never changed. |
| Commands.InsertIgnoresRest | src/main.rs:126-128 | `insert` followed by anything, including nothing, prepares as an insert. |
| Commands.SelectIsExact | src/main.rs:129-133 | `select` followed by at least one more character is an unrecognised statement, and the fresh statement is left unchanged. |
| Shell.Step | src/main.rs:149-176 | Each iteration's outcome is stated from the raw line. A read error exits with 1, a read under two bytes panics in the subtraction, and a two-byte read panics on the empty buffer. `.exit` plus two bytes exits with 0. Insert breaks the loop on lines of 8 or more bytes starting with `insert`, select on lines of exactly 8 bytes starting with `select`. Other `.`-lines continue with an unrecognised-meta notice, and all other lines with an unrecognised-statement notice carrying the trimmed text. |
| Shell.Run | src/main.rs:145-178 | A session prints one notice for each leading read that goes round again. It ends the way the first stopping read ends. If every read goes round again, the following end-of-input read panics. |
| Shell.RunEndsAtFirstStop | src/main.rs:149-177 | If reads `0..k` all go round again and read `k` stops, the session prints exactly `k` notices and ends as read `k` does. This covers the loop ending at the first successful prepare. |
| Shell.RunSkipsContinuingPrefix | src/main.rs:149-177 | Reads that only print a notice leave the rest of the session unchanged. The end is the same, and the later notices follow after one notice per skipped read. |
| Shell.ExitScenario | src/main.rs:116-122 | Given `foo`, `.help`, `.exit`, `select` (CRLF-terminated), the session reports `foo` and `.help`, then exits with status 0 before reading `select`. |
| Shell.LfExitScenario | src/main.rs:101-107 | An LF-terminated `.exit` is trimmed to `.exi` and reported as an unrecognised meta-command. The following end of input panics. |

## Left out

- The prompt (`print_prompt`) and the wording of printed messages. Messages are modelled only as `Notice` values that carry the buffer they echo.
- `execute_statement`. It only prints, and it has no caller: `main` never calls it.
- The `ExecuteResult` enum. Nothing in the program uses it.
- The stdin read. It is a parameter: `ReadOk(line)` with the terminator included, or `ReadErr`.
- `process::exit`. It is modelled as the `Exited(code)` end. The messages printed just before it, "Error reading input" and "Closing down Pipi Database", are not modelled.
- Input.ReadInput: models the debug-build overflow check, in which `bytes_read - 2` panics. A release build wraps instead, leaving the short buffer untruncated with length -1 or -2. That behaviour is not modelled.
- Input.TrimLine: the `bytes_read as isize` conversion is treated as exact. It would wrap only for lines longer than `isize::MAX` bytes.
- Non-ASCII input. Lines are required to be ASCII. Multi-byte characters, where a byte count differs from a character count and slicing can panic on a character boundary, are not modelled.
- The `String::with_capacity` hints in `Row::new`. They are allocation hints only, so the model's empty row has empty fields.
- The row codec, page reads and writes, table insert/select and the table-full check. The program does not implement them yet.
