/** Classifying a trimmed command line: meta-commands and SQL-like statements. */
module Commands {
  import opened Input

  newtype u32 = x: int | 0 <= x < 0x1_0000_0000

  datatype Row = Row(id: u32, username: string, email: string)

  /** `Row::new`: identifier zero and empty text fields. */
  const EmptyRow := Row(0, "", "")

  datatype StatementType = StatementInsert | StatementSelect | StatementNone

  datatype Statement = Statement(statementType: StatementType, rowToInsert: Row)

  /** The statement the main loop builds before classifying a line. */
  const FreshStatement := Statement(StatementNone, EmptyRow)

  datatype PrepareResult = PrepareSuccess | PrepareSyntaxError | PrepareUnrecognizedStatement

  datatype MetaCommandResult = MetaCommandSuccess | MetaCommandUnrecognizedCommand

  /** `do_meta_command` either ends the process (status 0) or returns a result. */
  datatype MetaOutcome = MetaExit | MetaReturned(result: MetaCommandResult)

  const INSERT_KEYWORD := "insert"
  const SELECT_KEYWORD := "select"
  const EXIT_COMMAND := ".exit"

  /** `s` begins with `p`. */
  predicate StartsWith(s: string, p: string) {
    |p| <= |s| && s[..|p|] == p
  }

  /** `do_meta_command`: only `.exit` is recognised, and it ends the process;
      every other buffer is reported as unrecognised. */
  function DoMetaCommand(ib: InputBuffer): (r: MetaOutcome)
    ensures r == MetaExit <==> ib.buffer == EXIT_COMMAND
    ensures r != MetaExit <==> r == MetaReturned(MetaCommandUnrecognizedCommand)
    ensures r != MetaReturned(MetaCommandSuccess)
  {
    if ib.buffer == EXIT_COMMAND then MetaExit
    else MetaReturned(MetaCommandUnrecognizedCommand)
  }

  /** Result of `prepare_statement`: its return value and the statement as it
      leaves it. */
  datatype Prepared = Prepared(result: PrepareResult, statement: Statement)

  /** `prepare_statement`: a buffer beginning with `insert` is an insert, a buffer
      equal to `select` is a select, and anything else is unrecognised with the
      statement left as it was. The row payload is never touched and a syntax
      error is never reported. */
  function PrepareStatement(ib: InputBuffer, stmt: Statement): (p: Prepared)
    requires WellFormed(ib)
    ensures p.result != PrepareSyntaxError
    ensures p.statement.rowToInsert == stmt.rowToInsert
    ensures p.result == PrepareSuccess && p.statement.statementType == StatementInsert
            <==> StartsWith(ib.buffer, INSERT_KEYWORD)
    ensures p.result == PrepareSuccess && p.statement.statementType == StatementSelect
            <==> ib.buffer == SELECT_KEYWORD
    ensures p.result == PrepareUnrecognizedStatement
            <==> !StartsWith(ib.buffer, INSERT_KEYWORD) && ib.buffer != SELECT_KEYWORD
    ensures p.result == PrepareUnrecognizedStatement ==> p.statement == stmt
  {
    if ib.inputLength >= 6 && ib.buffer[..6] == INSERT_KEYWORD then
      assert ib.buffer[0] == INSERT_KEYWORD[0] != SELECT_KEYWORD[0];
      Prepared(PrepareSuccess, stmt.(statementType := StatementInsert))
    else if ib.buffer == SELECT_KEYWORD then
      Prepared(PrepareSuccess, stmt.(statementType := StatementSelect))
    else
      Prepared(PrepareUnrecognizedStatement, stmt)
  }

  /** Only the first six bytes decide an insert: whatever follows `insert`,
      including nothing, is an insert. */
  lemma InsertIgnoresRest(rest: string)
    requires IsAscii(rest)
    ensures WellFormed(InputBuffer(INSERT_KEYWORD + rest, 6 + |rest|))
    ensures PrepareStatement(InputBuffer(INSERT_KEYWORD + rest, 6 + |rest|), FreshStatement)
            == Prepared(PrepareSuccess, Statement(StatementInsert, EmptyRow))
  {
    var s := INSERT_KEYWORD + rest;
    assert s[..6] == INSERT_KEYWORD;
  }

  /** Anything appended to `select` makes the line unrecognised. */
  lemma SelectIsExact(rest: string)
    requires IsAscii(rest) && |rest| > 0
    ensures WellFormed(InputBuffer(SELECT_KEYWORD + rest, 6 + |rest|))
    ensures PrepareStatement(InputBuffer(SELECT_KEYWORD + rest, 6 + |rest|), FreshStatement)
            == Prepared(PrepareUnrecognizedStatement, FreshStatement)
  {
    var s := SELECT_KEYWORD + rest;
    assert s[..6] == SELECT_KEYWORD;
    assert s[0] != INSERT_KEYWORD[0];
  }
}
