/** The read–dispatch loop of `main`.

    Each iteration reads one line, trims it, and then either hands a line
    starting with `.` to the meta-command handler or classifies it as a
    statement. Messages printed by an iteration that goes round again are
    `Notice` values; the ways the process can end are `End` values, which keep
    only the exit code of a `process::exit` and not the message printed just
    before it. The prompt is left out. The loop
    ends at the first statement that prepares successfully; nothing executes
    the statement.
 */
module Shell {
  import opened Input
  import opened Commands

  /** What an iteration prints before the loop goes round again. */
  datatype Notice =
    | Silent                            // meta-command succeeded (never happens)
    | UnrecognizedMeta(text: string)    // "Unrecognized meta command: ..."
    | SyntaxError                       // "Syntax error. Could not parse statement."
    | UnrecognizedStatement(text: string)

  datatype Panic =
    | SubtractOverflow   // `bytes_read - 2` on a read of fewer than two bytes
    | UnwrapOnEmpty      // first character of an empty buffer

  /** How a session ends: a `process::exit` status, a panic, or the loop breaking
      out after preparing a statement of the given type (then `main` returns). */
  datatype End = Exited(code: int) | Panicked(reason: Panic) | LoopBroken(statementType: StatementType)

  datatype StepOutcome = Continue(notice: Notice) | Stop(end: End)

  /** One iteration of the loop on the result of one read. */
  function Step(r: ReadOutcome): (o: StepOutcome)
    requires AsciiRead(r)
    ensures o == Stop(Exited(1)) <==> r.ReadErr?
    ensures o == Stop(Panicked(SubtractOverflow)) <==> r.ReadOk? && |r.line| < 2
    ensures o == Stop(Panicked(UnwrapOnEmpty)) <==> r.ReadOk? && |r.line| == 2
    ensures o == Stop(Exited(0)) <==> r.ReadOk? && |r.line| >= 2 && Content(r.line) == EXIT_COMMAND
    ensures o == Stop(LoopBroken(StatementInsert))
            <==> r.ReadOk? && |r.line| >= 8 && StartsWith(r.line, INSERT_KEYWORD)
    ensures o == Stop(LoopBroken(StatementSelect))
            <==> r.ReadOk? && |r.line| == 8 && StartsWith(r.line, SELECT_KEYWORD)
    ensures o.Stop? && o.end.LoopBroken? ==> o.end.statementType != StatementNone
    ensures o.Continue? && o.notice.UnrecognizedMeta?
            <==> r.ReadOk? && |r.line| > 2 && r.line[0] == '.' && Content(r.line) != EXIT_COMMAND
    ensures o.Continue? && o.notice.UnrecognizedStatement?
            <==> r.ReadOk? && |r.line| > 2 && r.line[0] != '.'
                 && !(|r.line| >= 8 && StartsWith(r.line, INSERT_KEYWORD))
                 && !(|r.line| == 8 && StartsWith(r.line, SELECT_KEYWORD))
    ensures o.Continue? ==> o.notice.UnrecognizedMeta? || o.notice.UnrecognizedStatement?
    ensures o.Continue? ==> o.notice.text == Content(r.line)
  {
    match ReadInput(r)
    case Failed => Stop(Exited(1))
    case Underflow => Stop(Panicked(SubtractOverflow))
    case Read(ib) =>
      if |ib.buffer| == 0 then Stop(Panicked(UnwrapOnEmpty))
      else if ib.buffer[0] == '.' then
        match DoMetaCommand(ib)
        case MetaExit => Stop(Exited(0))
        case MetaReturned(MetaCommandSuccess) => Continue(Silent)
        case MetaReturned(MetaCommandUnrecognizedCommand) => Continue(UnrecognizedMeta(ib.buffer))
      else
        PrefixThroughTrim(r.line, INSERT_KEYWORD);
        PrefixThroughTrim(r.line, SELECT_KEYWORD);
        var p := PrepareStatement(ib, FreshStatement);
        match p.result
        case PrepareSuccess => Stop(LoopBroken(p.statement.statementType))
        case PrepareSyntaxError => Continue(SyntaxError)
        case PrepareUnrecognizedStatement => Continue(UnrecognizedStatement(ib.buffer))
  }

  /** A six-byte keyword starts the trimmed buffer exactly when it starts the
      raw line and the line is long enough to keep it after trimming. */
  lemma PrefixThroughTrim(line: string, keyword: string)
    requires |line| >= 2 && |keyword| == 6
    ensures StartsWith(Content(line), keyword) <==> |line| >= 8 && StartsWith(line, keyword)
    ensures Content(line) == keyword <==> |line| == 8 && StartsWith(line, keyword)
  {
    if |line| >= 8 {
      assert Content(line)[..6] == line[..6];
    }
  }

  predicate AllAscii(input: seq<ReadOutcome>) {
    forall j :: 0 <= j < |input| ==> AsciiRead(input[j])
  }

  /** A whole session: the notices printed, in order, and how it ended. */
  datatype Session = Session(notices: seq<Notice>, end: End)

  /** Run the loop over the successive results of reading stdin. Once `input`
      is used up every further read is end of input. The notices are exactly
      the iterations that went round again, and the session ends with the
      first iteration that stops. */
  function Run(input: seq<ReadOutcome>): (s: Session)
    requires AllAscii(input)
    ensures |s.notices| <= |input|
    ensures forall j :: 0 <= j < |s.notices| ==> Step(input[j]) == Continue(s.notices[j])
    ensures |s.notices| < |input| ==> Step(input[|s.notices|]) == Stop(s.end)
    ensures |s.notices| == |input| ==> s.end == Panicked(SubtractOverflow)
    decreases |input|
  {
    if |input| == 0 then Session([], Step(EndOfInput).end)
    else
      match Step(input[0])
      case Stop(e) => Session([], e)
      case Continue(n) =>
        var rest := Run(input[1..]);
        Session([n] + rest.notices, rest.end)
  }

  /** The session is decided by the first read whose iteration stops: it ends
      the way that iteration does, after one notice per earlier read. */
  lemma RunEndsAtFirstStop(input: seq<ReadOutcome>, k: nat)
    requires AllAscii(input)
    requires k < |input|
    requires forall j :: 0 <= j < k ==> Step(input[j]).Continue?
    requires Step(input[k]).Stop?
    ensures |Run(input).notices| == k
    ensures Run(input).end == Step(input[k]).end
  {
  }

  /** Reads that only print a notice do not change how the rest of the
      session goes. */
  lemma {:induction false} RunSkipsContinuingPrefix(pre: seq<ReadOutcome>, post: seq<ReadOutcome>)
    requires AllAscii(pre) && AllAscii(post)
    requires forall j :: 0 <= j < |pre| ==> Step(pre[j]).Continue?
    ensures AllAscii(pre + post)
    ensures Run(pre + post).end == Run(post).end
    ensures |Run(pre + post).notices| == |pre| + |Run(post).notices|
    ensures Run(pre + post).notices[|pre|..] == Run(post).notices
  {
    if |pre| == 0 {
      assert pre + post == post;
    } else {
      var tail := pre[1..];
      var whole := pre + post;
      assert whole[0] == pre[0];
      assert whole[1..] == tail + post;
      RunSkipsContinuingPrefix(tail, post);
      RunUnfoldsContinue(whole);
    }
  }

  /** One iteration that goes round again prefixes its notice to the rest of the session. */
  lemma RunUnfoldsContinue(input: seq<ReadOutcome>)
    requires AllAscii(input) && |input| > 0 && Step(input[0]).Continue?
    ensures AllAscii(input[1..])
    ensures Run(input) == Session([Step(input[0]).notice] + Run(input[1..]).notices, Run(input[1..]).end)
  {
  }

  /** `.exit` ends the session with status 0 after the earlier lines are reported. */
  lemma ExitScenario()
    ensures Run([ReadOk("foo\r\n"), ReadOk(".help\r\n"), ReadOk(".exit\r\n"), ReadOk("select\r\n")])
            == Session([UnrecognizedStatement("foo"), UnrecognizedMeta(".help")], Exited(0))
  {
    var input := [ReadOk("foo\r\n"), ReadOk(".help\r\n"), ReadOk(".exit\r\n"), ReadOk("select\r\n")];
    assert Content("foo\r\n") == "foo";
    assert Content(".help\r\n") == ".help";
    assert Content(".exit\r\n") == ".exit";
    assert input[1..] == [ReadOk(".help\r\n"), ReadOk(".exit\r\n"), ReadOk("select\r\n")];
    assert input[1..][1..] == [ReadOk(".exit\r\n"), ReadOk("select\r\n")];
  }

  /** With an LF-only terminator the trim eats a real character: `.exit` is not
      recognised, and the following end of input panics. */
  lemma LfExitScenario()
    ensures Run([ReadOk(".exit\n")]) == Session([UnrecognizedMeta(".exi")], Panicked(SubtractOverflow))
  {
    assert Content(".exit\n") == ".exi";
  }
}
