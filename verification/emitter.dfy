/**
 * The line emitter `read_lines`: after the input has been decoded into lines
 * (and reversed when asked), one pass with a 0-based line index and a running
 * byte counter decides for each line whether to stop, skip it or print it,
 * and in what form.
 */
module Emitter {
  import opened Wrappers
  import opened Text

  /** Lines longer than this many bytes are cut when truncation is on. */
  const TruncateAbove: nat := 80
  /** A cut line keeps this many bytes, then gets the ellipsis. */
  const KeptBytes: nat := 77
  const Ellipsis: Line := [Dot, Dot, Dot]
  /** Width of the right-aligned line-number field. */
  const NumberWidth: nat := 6

  /** The arguments `read_lines` receives besides the reader. */
  datatype Options = Options(
    numLines: nat,
    lineNumbers: bool,
    numBytes: Option<nat>,
    byteOffset: Option<nat>,
    paginate: bool,
    truncate: bool,
    reverse: bool)

  /** What one blocking `read_line` on standard input yields during pagination. */
  datatype Reply = Answer(text: string) | ReadFailed

  /** At end of input `read_line` succeeds with nothing read. */
  const EndOfInput: Reply := Answer("")

  /** The answer after which pagination stops printing. */
  predicate StopsPaging(reply: Reply) {
    reply.ReadFailed? || IsQuit(reply.text)
  }

  /** The next reply and the ones after it; an exhausted sequence keeps answering end of input. */
  function NextReply(replies: seq<Reply>): (Reply, seq<Reply>) {
    if |replies| == 0 then (EndOfInput, []) else (replies[0], replies[1..])
  }

  /**
   * How the pass ended: normally (exhausted input, a limit, or a quit answer),
   * with a failed pagination read (the `?` on `read_line`), or with the panic
   * of slicing a line inside a multi-byte character.
   */
  datatype Status = Finished | ReplyError | SlicePanic

  /** The lines written to standard output, in order, how the pass ended, and how many pagination replies it read. */
  datatype Run = Run(printed: seq<Line>, status: Status, repliesRead: nat)

  function Reverse<T>(s: seq<T>): (r: seq<T>)
    ensures |r| == |s|
    ensures forall k :: 0 <= k < |s| ==> r[k] == s[|s| - 1 - k]
  {
    if |s| == 0 then [] else Reverse(s[1..]) + [s[0]]
  }

  /** The lines in the order the pass visits them. */
  function Arrange(input: seq<Line>, reverse: bool): seq<Line> {
    if reverse then Reverse(input) else input
  }

  /** Rust's `str::is_char_boundary`: `k` is an end of the line or not a UTF-8 continuation byte. */
  predicate IsCharBoundary(line: Line, k: nat) {
    k == 0 || k == |line| || (k < |line| && (line[k] < 0x80 || line[k] >= 0xC0))
  }

  predicate Truncates(line: Line, o: Options) {
    o.truncate && |line| > TruncateAbove
  }

  /** Cutting the line at `KeptBytes` would split a character, so the slice panics. */
  predicate SlicePanics(line: Line, o: Options) {
    Truncates(line, o) && !IsCharBoundary(line, KeptBytes)
  }

  /** The printed text of a line before any number prefix. */
  function Body(line: Line, o: Options): (r: Line)
    ensures o.truncate ==> |r| <= TruncateAbove
    ensures r == line <==> !Truncates(line, o)
    ensures Truncates(line, o) ==>
      |r| == TruncateAbove && r[..KeptBytes] == line[..KeptBytes] && r[KeptBytes..] == Ellipsis
  {
    if Truncates(line, o) then line[..KeptBytes] + Ellipsis else line
  }

  /**
   * The 1-based number `index + 1` right-aligned in six columns, then one
   * space; a numeral wider than the field is printed whole.
   */
  function NumberPrefix(index: nat): (r: Line)
    ensures var d := Decimal(index + 1);
      && |r| == (if |d| < NumberWidth then NumberWidth else |d|) + 1
      && r[|r| - 1 - |d|..|r| - 1] == d
      && (forall k :: 0 <= k < |r| - 1 - |d| ==> r[k] == Space)
      && r[|r| - 1] == Space
  {
    PadLeft(Decimal(index + 1), NumberWidth) + [Space]
  }

  /** The output line for the line at 0-based position `index` of the visited order. */
  function Render(line: Line, index: nat, o: Options): (r: Line)
    ensures !o.lineNumbers ==> r == Body(line, o)
    ensures o.lineNumbers ==> |r| == |NumberPrefix(index)| + |Body(line, o)|
    ensures o.lineNumbers ==> r[..|NumberPrefix(index)|] == NumberPrefix(index) && r[|r| - |Body(line, o)|..] == Body(line, o)
  {
    if o.lineNumbers then NumberPrefix(index) + Body(line, o) else Body(line, o)
  }

  /**
   * The pass from position `i` on, with byte counter `byteCount` and the
   * pagination replies not yet read.
   */
  function Scan(lines: seq<Line>, o: Options, i: nat, byteCount: nat, replies: seq<Reply>): (r: Run)
    requires i <= |lines|
    ensures |r.printed| <= |lines| - i
    ensures i <= o.numLines + 1 ==> |r.printed| <= o.numLines + 1 - i
    ensures r.repliesRead == if o.paginate then |r.printed| else 0
    ensures r.status == ReplyError ==> o.paginate && |r.printed| > 0
    ensures r.status == SlicePanic ==> o.truncate
    decreases |lines| - i
  {
    if i == |lines| then Run([], Finished, 0)
    else if i > o.numLines then Run([], Finished, 0)
    else if o.numBytes.Some? && byteCount >= o.numBytes.value then Run([], Finished, 0)
    else if o.byteOffset.Some? && byteCount < o.byteOffset.value then
      Scan(lines, o, i + 1, byteCount + |lines[i]| + 1, replies)
    else if SlicePanics(lines[i], o) then Run([], SlicePanic, 0)
    else
      var text := Render(lines[i], i, o);
      var counted := byteCount + |lines[i]| + 1;
      if !o.paginate then
        var rest := Scan(lines, o, i + 1, counted, replies);
        Run([text] + rest.printed, rest.status, 0)
      else
        var (reply, later) := NextReply(replies);
        if StopsPaging(reply) then
          Run([text], if reply.ReadFailed? then ReplyError else Finished, 1)
        else
          var rest := Scan(lines, o, i + 1, counted, later);
          Run([text] + rest.printed, rest.status, rest.repliesRead + 1)
  }

  /** `read_lines` on already decoded input: reverse once if asked, then one pass from the start. */
  function ReadLines(input: seq<Line>, o: Options, replies: seq<Reply>): (r: Run)
    ensures |r.printed| <= |input|
    ensures |r.printed| <= o.numLines + 1
    ensures r.repliesRead == if o.paginate then |r.printed| else 0
    ensures r.status == ReplyError ==> o.paginate && |r.printed| > 0
    ensures r.status == SlicePanic ==> o.truncate
  {
    Scan(Arrange(input, o.reverse), o, 0, 0, replies)
  }
}
