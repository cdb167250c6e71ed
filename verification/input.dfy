/** Reading one command line and stripping its terminator.

    The program reads a line with its terminator included and then drops
    exactly two trailing bytes, which is right for a CRLF terminator only.
    Lines are ASCII, so a line's byte count is its length. The stdin read
    itself is a parameter: `ReadOk(line)` is a successful read of `line`
    (terminator included; the empty line is end of input), `ReadErr` a failed one.
 */
module Input {

  predicate IsAscii(s: string) {
    forall i :: 0 <= i < |s| ==> s[i] as int < 128
  }

  /** The program's input buffer: the text and its length as a signed `isize`. */
  datatype InputBuffer = InputBuffer(buffer: string, inputLength: int)

  /** A buffer whose recorded length agrees with its text, as every buffer the
      program builds has. */
  predicate WellFormed(ib: InputBuffer) {
    ib.inputLength == |ib.buffer| && IsAscii(ib.buffer)
  }

  /** Outcome of one `read_line` call on stdin. */
  datatype ReadOutcome = ReadOk(line: string) | ReadErr

  /** Reading at end of input returns zero bytes. */
  const EndOfInput := ReadOk("")

  predicate AsciiRead(r: ReadOutcome) {
    r.ReadOk? ==> IsAscii(r.line)
  }

  /** What `read_input` leaves behind. `Failed` is the read error, after which
      the program exits with status 1; `Underflow` is the usize subtraction
      `bytes_read - 2` overflowing, which panics. */
  datatype ReadResult = Read(ib: InputBuffer) | Failed | Underflow

  /** The text left after dropping the last two bytes of a line. */
  function Content(line: string): string
    requires |line| >= 2
  {
    line[..|line| - 2]
  }

  /** Drop the last two bytes of a line of at least two bytes. The result is the
      line with its final two bytes removed, and the recorded length matches. */
  function TrimLine(line: string): (ib: InputBuffer)
    requires |line| >= 2
    requires IsAscii(line)
    ensures WellFormed(ib)
    ensures |ib.buffer| == |line| - 2
    ensures ib.buffer <= line
    ensures ib.buffer + line[|line| - 2..] == line
  {
    InputBuffer(Content(line), |line| - 2)
  }

  /** `read_input`: a failed read is fatal, a read shorter than two bytes panics,
      and any other read yields the trimmed buffer. */
  function ReadInput(r: ReadOutcome): (res: ReadResult)
    requires AsciiRead(r)
    ensures res.Failed? <==> r.ReadErr?
    ensures res.Underflow? <==> r.ReadOk? && |r.line| < 2
    ensures res.Read? ==> WellFormed(res.ib) && res.ib.buffer <= r.line
                          && |res.ib.buffer| == |r.line| - 2
  {
    match r
    case ReadErr => Failed
    case ReadOk(line) => if |line| < 2 then Underflow else Read(TrimLine(line))
  }

  /** Trimming undoes appending a CRLF terminator. */
  lemma TrimCrlf(content: string)
    requires IsAscii(content)
    ensures IsAscii(content + "\r\n")
    ensures TrimLine(content + "\r\n").buffer == content
  {
    var line := content + "\r\n";
    assert line[..|content|] == content;
  }

  /** On an LF-only line, trimming eats the last character of the content too. */
  lemma TrimLfLosesLastChar(content: string, c: char)
    requires IsAscii(content + [c] + "\n")
    ensures TrimLine(content + [c] + "\n").buffer == content
  {
    var line := content + [c] + "\n";
    assert line[..|content|] == content;
  }
}
